/** The HTTP handlers of backend/cmd/api/main.go, as functions from request to response. */
module Handlers {
  import opened Wrappers
  import Decimal
  import Json
  import ServiceStore
  import UserStore

  /** A response body: none (204), `{"error": ...}`, or a JSON object. */
  datatype Body = NoContent | ErrorJson(error: string) | ObjectJson(obj: Json.Object)

  datatype Response = Response(status: int, body: Body)

  function Fail(status: int, error: string): Response {
    Response(status, ErrorJson(error))
  }

  /** `c.JSON` of a `models.Service`: the backend sends no `status` field. */
  function ServiceToJson(s: ServiceStore.Service): (obj: Json.Object)
    ensures obj.Keys == {"id", "name", "type", "url", "config", "created_at", "updated_at"}
    ensures "status" !in obj
    ensures obj["id"] == Json.Number(s.id) && obj["name"] == Json.Str(s.name)
    ensures obj["type"] == Json.Str(s.serviceType) && obj["url"] == Json.Str(s.url)
  {
    map["id" := Json.Number(s.id), "name" := Json.Str(s.name), "type" := Json.Str(s.serviceType),
        "url" := Json.Str(s.url), "config" := Json.Str(s.config),
        "created_at" := Json.Number(s.createdAt), "updated_at" := Json.Number(s.updatedAt)]
  }

  const InvalidId := Fail(400, "Invalid service ID")

  /** A service-layer error: "service not found" is 404, anything else 500 with `prefix`. */
  function ServiceFailure(err: string, prefix: string): (r: Response)
    ensures err == ServiceStore.NotFound ==> r == Fail(404, "Service not found")
    ensures err != ServiceStore.NotFound ==> r == Fail(500, prefix + err)
  {
    if err == ServiceStore.NotFound then Fail(404, "Service not found") else Fail(500, prefix + err)
  }

  /**
   * `createService`. `body` is what `ShouldBindJSON` gave; `create` is
   * `ServiceService.CreateService` applied to the bound service.
   */
  function CreateService(body: Result<ServiceStore.Service>,
                         create: ServiceStore.Service -> Result<ServiceStore.Service>): (r: Response)
    ensures body.Err? ==> r == Fail(400, "Invalid request body: " + body.msg)
    ensures body.Ok? && create(body.value).Err? ==>
              r == Fail(500, "Failed to create service: " + create(body.value).msg)
    ensures r.status == 201 <==> body.Ok? && create(body.value).Ok?
    ensures r.status == 201 ==> r.body == ObjectJson(ServiceToJson(create(body.value).value))
  {
    if body.Err? then Fail(400, "Invalid request body: " + body.msg)
    else match create(body.value)
      case Err(e) => Fail(500, "Failed to create service: " + e)
      case Ok(s) => Response(201, ObjectJson(ServiceToJson(s)))
  }

  /** `getService`: the path id must be a base-10 int64. */
  function GetService(idText: string, get: int -> Result<ServiceStore.Service>): (r: Response)
    ensures Decimal.ParseInt64(idText).None? ==> r == InvalidId
    ensures Decimal.ParseInt64(idText).Some? ==>
      var res := get(Decimal.ParseInt64(idText).value);
      && (res.Err? ==> r == ServiceFailure(res.msg, "Failed to get service: "))
      && (res.Ok? ==> r == Response(200, ObjectJson(ServiceToJson(res.value))))
  {
    match Decimal.ParseInt64(idText)
      case None => InvalidId
      case Some(id) =>
        match get(id)
          case Err(e) => ServiceFailure(e, "Failed to get service: ")
          case Ok(s) => Response(200, ObjectJson(ServiceToJson(s)))
  }

  /** `updateService`: the path id replaces whatever id the body carried. */
  function UpdateService(idText: string, body: Result<ServiceStore.Service>,
                         update: ServiceStore.Service -> Result<ServiceStore.Service>): (r: Response)
    ensures Decimal.ParseInt64(idText).None? ==> r == InvalidId
    ensures Decimal.ParseInt64(idText).Some? && body.Err? ==> r == Fail(400, "Invalid request body: " + body.msg)
    ensures Decimal.ParseInt64(idText).Some? && body.Ok? ==>
      var res := update(body.value.(id := Decimal.ParseInt64(idText).value));
      && (res.Err? ==> r == ServiceFailure(res.msg, "Failed to update service: "))
      && (res.Ok? ==> r == Response(200, ObjectJson(ServiceToJson(res.value))))
  {
    match Decimal.ParseInt64(idText)
      case None => InvalidId
      case Some(id) =>
        if body.Err? then Fail(400, "Invalid request body: " + body.msg)
        else match update(body.value.(id := id))
          case Err(e) => ServiceFailure(e, "Failed to update service: ")
          case Ok(s) => Response(200, ObjectJson(ServiceToJson(s)))
  }

  /** `deleteService`: 204 with no body on success. */
  function DeleteService(idText: string, delete: int -> Option<string>): (r: Response)
    ensures Decimal.ParseInt64(idText).None? ==> r == InvalidId
    ensures Decimal.ParseInt64(idText).Some? ==>
      var res := delete(Decimal.ParseInt64(idText).value);
      && (res.Some? ==> r == ServiceFailure(res.value, "Failed to delete service: "))
      && (res.None? ==> r == Response(204, NoContent))
  {
    match Decimal.ParseInt64(idText)
      case None => InvalidId
      case Some(id) =>
        match delete(id)
          case Some(e) => ServiceFailure(e, "Failed to delete service: ")
          case None => Response(204, NoContent)
  }

  /** A path id that does not parse is rejected before the service layer is consulted. */
  lemma BadIdSkipsServiceLayer(idText: string, body: Result<ServiceStore.Service>,
                               get1: int -> Result<ServiceStore.Service>, get2: int -> Result<ServiceStore.Service>,
                               update1: ServiceStore.Service -> Result<ServiceStore.Service>,
                               update2: ServiceStore.Service -> Result<ServiceStore.Service>,
                               delete1: int -> Option<string>, delete2: int -> Option<string>)
    requires Decimal.ParseInt64(idText).None?
    ensures GetService(idText, get1) == GetService(idText, get2) == InvalidId
    ensures UpdateService(idText, body, update1) == UpdateService(idText, body, update2) == InvalidId
    ensures DeleteService(idText, delete1) == DeleteService(idText, delete2) == InvalidId
  {
  }

  /** The id in an update's body has no effect on the response. */
  lemma UpdateIgnoresBodyId(idText: string, s: ServiceStore.Service, otherId: int,
                            update: ServiceStore.Service -> Result<ServiceStore.Service>)
    ensures UpdateService(idText, Ok(s), update) == UpdateService(idText, Ok(s.(id := otherId)), update)
  {
    assert s.(id := otherId).(id := 0) == s.(id := 0);
  }

  /**
   * Against the services table: reading the id as printed gives the stored
   * service with 200, and an id that is not stored gives 404.
   */
  lemma GetServiceFromTable(rows: map<int, ServiceStore.Service>, id: int)
    requires Decimal.Int64Min <= id <= Decimal.Int64Max
    ensures var r := GetService(Decimal.IntToDecimal(id), i => ServiceStore.Lookup(rows, i));
      && (id in rows ==> r == Response(200, ObjectJson(ServiceToJson(rows[id]))))
      && (id !in rows ==> r == Fail(404, "Service not found"))
  {
    Decimal.ParseIntToDecimal(id);
  }

  /** After a successful delete of a stored id, getting that id is 404. */
  lemma DeleteThenGet(rows: map<int, ServiceStore.Service>, id: int)
    requires Decimal.Int64Min <= id <= Decimal.Int64Max && id in rows
    ensures DeleteService(Decimal.IntToDecimal(id), i => if i in rows then None else Some(ServiceStore.NotFound))
            == Response(204, NoContent)
    ensures GetService(Decimal.IntToDecimal(id), i => ServiceStore.Lookup(rows - {id}, i))
            == Fail(404, "Service not found")
  {
    Decimal.ParseIntToDecimal(id);
  }

  /**
   * Against the services table: a create whose insert succeeds answers 201
   * with the row stored under the fresh id, carrying the submitted fields;
   * a failing insert answers 500 with the service layer's message.
   */
  lemma CreateServiceFromTable(s: ServiceStore.Service, nextId: int, now: int, dbError: Option<string>)
    ensures var create := (x: ServiceStore.Service) =>
              if dbError.Some? then Err("failed to create service: " + dbError.value)
              else Ok(ServiceStore.Created(nextId, x, now));
            var r := CreateService(Ok(s), create);
      && (dbError.None? ==> r == Response(201, ObjectJson(ServiceToJson(ServiceStore.Created(nextId, s, now)))))
      && (dbError.None? ==> r.body.obj["id"] == Json.Number(nextId) && r.body.obj["name"] == Json.Str(s.name)
                            && r.body.obj["url"] == Json.Str(s.url))
      && (dbError.Some? ==> r == Fail(500, "Failed to create service: failed to create service: " + dbError.value))
  {
    if dbError.Some? {
      assert "Failed to create service: " + ("failed to create service: " + dbError.value) ==
             "Failed to create service: failed to create service: " + dbError.value;
    }
  }

  // ---- Users

  /** The type name `encoding/json` gives for `models.User` in its errors. */
  const UserStruct := "User"

  /**
   * `ShouldBindJSON(&user)` as the code has it: `models.User.Password` is
   * tagged `json:"-"`, so the decoder never sets it, whatever the body holds.
   */
  function BindUserAsWritten(obj: Json.Object): (r: Result<UserStore.User>)
    ensures r.Ok? ==> r.value.password == ""
  {
    var id := Json.DecodeInt(obj, UserStruct, "id", "int64");
    var name := Json.DecodeString(obj, UserStruct, "name");
    var email := Json.DecodeString(obj, UserStruct, "email");
    var phone := Json.DecodeString(obj, UserStruct, "phone");
    var role := Json.DecodeString(obj, UserStruct, "role");
    if id.Err? then Err(id.msg)
    else if name.Err? then Err(name.msg)
    else if email.Err? then Err(email.msg)
    else if phone.Err? then Err(phone.msg)
    else if role.Err? then Err(role.msg)
    else Ok(UserStore.User(id.value, name.value, email.value, phone.value, "", role.value, 0, 0))
  }

  /** The binding `createUser` needs: the same, with `password` read from the body. */
  function BindUser(obj: Json.Object): (r: Result<UserStore.User>)
    ensures BindUserAsWritten(obj).Ok? && Json.DecodeString(obj, UserStruct, "password").Ok? ==>
              r == Ok(BindUserAsWritten(obj).value.(password := Json.DecodeString(obj, UserStruct, "password").value))
    ensures r.Ok? ==> BindUserAsWritten(obj).Ok?
  {
    var password := Json.DecodeString(obj, UserStruct, "password");
    match BindUserAsWritten(obj)
      case Err(e) => Err(e)
      case Ok(u) => if password.Err? then Err(password.msg) else Ok(u.(password := password.value))
  }

  /** The required-field check: Name, Email, Password, Phone, first empty one named. */
  function MissingField(u: UserStore.User): (r: Option<string>)
    ensures r.None? <==> u.name != "" && u.email != "" && u.password != "" && u.phone != ""
    ensures r == Some("Name is required") <==> u.name == ""
    ensures r == Some("Email is required") <==> u.name != "" && u.email == ""
    ensures r == Some("Password is required") <==> u.name != "" && u.email != "" && u.password == ""
    ensures r == Some("Phone is required") <==>
              u.name != "" && u.email != "" && u.password != "" && u.phone == ""
  {
    if u.name == "" then Some("Name is required")
    else if u.email == "" then Some("Email is required")
    else if u.password == "" then Some("Password is required")
    else if u.phone == "" then Some("Phone is required")
    else None
  }

  /** `createUser` after binding; `create` is `UserService.CreateUser`. */
  function CreateUserWith(bound: Result<UserStore.User>, create: UserStore.User -> Result<UserStore.User>): (r: Response)
    ensures bound.Err? ==> r == Fail(400, "Invalid request body: " + bound.msg)
    ensures bound.Ok? && MissingField(bound.value).Some? ==> r == Fail(400, MissingField(bound.value).value)
    ensures r.status == 201 <==> bound.Ok? && MissingField(bound.value).None? && create(bound.value).Ok?
    ensures r.status == 201 ==> r.body == ObjectJson(UserStore.ToJson(create(bound.value).value))
    ensures bound.Ok? && MissingField(bound.value).None? && create(bound.value).Err? ==>
              r == Fail(500, "Failed to create user: " + create(bound.value).msg)
  {
    if bound.Err? then Fail(400, "Invalid request body: " + bound.msg)
    else match MissingField(bound.value)
      case Some(m) => Fail(400, m)
      case None =>
        match create(bound.value)
          case Err(e) => Fail(500, "Failed to create user: " + e)
          case Ok(u) => Response(201, ObjectJson(UserStore.ToJson(u)))
  }

  /** `createUser` as written. `body` is the parsed request, or the syntax error. */
  function CreateUserAsWritten(body: Result<Json.Object>, create: UserStore.User -> Result<UserStore.User>): Response {
    CreateUserWith(if body.Err? then Err(body.msg) else BindUserAsWritten(body.value), create)
  }

  /** `createUser` with the password bound. */
  function CreateUser(body: Result<Json.Object>, create: UserStore.User -> Result<UserStore.User>): Response {
    CreateUserWith(if body.Err? then Err(body.msg) else BindUser(body.value), create)
  }

  /** As written, no request creates a user: every one is rejected with 400 before the service layer. */
  lemma CreateUserAlwaysRejected(body: Result<Json.Object>, create: UserStore.User -> Result<UserStore.User>)
    ensures CreateUserAsWritten(body, create).status == 400
  {
    if body.Ok? && BindUserAsWritten(body.value).Ok? {
      assert MissingField(BindUserAsWritten(body.value).value).Some?;
    }
  }

  /** The object the Users page would send with a password added. */
  function UserRequest(name: string, email: string, password: string, phone: string, role: string): Json.Object {
    map["name" := Json.Str(name), "email" := Json.Str(email), "password" := Json.Str(password),
        "phone" := Json.Str(phone), "role" := Json.Str(role)]
  }

  /**
   * With the password bound, a complete request reaches the service layer
   * with exactly the submitted fields, and its success is 201 with the
   * created user and no password in the body.
   */
  lemma CreateUserAccepts(name: string, email: string, password: string, phone: string, role: string,
                          create: UserStore.User -> Result<UserStore.User>)
    requires name != "" && email != "" && password != "" && phone != ""
    ensures var sent := UserStore.User(0, name, email, phone, password, role, 0, 0);
            var r := CreateUser(Ok(UserRequest(name, email, password, phone, role)), create);
      && (create(sent).Ok? ==> r == Response(201, ObjectJson(UserStore.ToJson(create(sent).value))))
      && (create(sent).Ok? ==> "password" !in r.body.obj)
      && (create(sent).Err? ==> r == Fail(500, "Failed to create user: " + create(sent).msg))
  {
    var obj := UserRequest(name, email, password, phone, role);
    assert BindUser(obj) == Ok(UserStore.User(0, name, email, phone, password, role, 0, 0));
  }

  // ---- Settings

  /** The settings record that `getSettings` and `updateSettings` carry. */
  datatype Settings = Settings(checkInterval: int, alertThreshold: int, enableNotifications: bool,
                               enableEmailAlerts: bool, enableSmsAlerts: bool, smtpServer: string,
                               smtpPort: int, smtpUsername: string, smtpPassword: string)

  /** What `getSettings` answers when the table has no row. */
  const DefaultSettings := Settings(300, 3, true, true, true, "", 587, "", "")

  const SettingsKeys := {"checkInterval", "alertThreshold", "enableNotifications", "enableEmailAlerts",
                         "enableSMSAlerts", "smtpServer", "smtpPort", "smtpUsername", "smtpPassword"}

  function SettingsToJson(s: Settings): (obj: Json.Object)
    ensures obj.Keys == SettingsKeys
  {
    map["checkInterval" := Json.Number(s.checkInterval), "alertThreshold" := Json.Number(s.alertThreshold),
        "enableNotifications" := Json.Bool(s.enableNotifications),
        "enableEmailAlerts" := Json.Bool(s.enableEmailAlerts), "enableSMSAlerts" := Json.Bool(s.enableSmsAlerts),
        "smtpServer" := Json.Str(s.smtpServer), "smtpPort" := Json.Number(s.smtpPort),
        "smtpUsername" := Json.Str(s.smtpUsername), "smtpPassword" := Json.Str(s.smtpPassword)]
  }

  predicate InInt64(n: int) {
    Decimal.Int64Min <= n <= Decimal.Int64Max
  }

  /** The settings struct is anonymous, so its errors name no type before the field. */
  const SettingsStruct := ""

  /** `ShouldBindJSON(&settings)`, field by field in declaration order. */
  function BindSettings(obj: Json.Object): (r: Result<Settings>)
    ensures r.Ok? ==> InInt64(r.value.checkInterval) && InInt64(r.value.alertThreshold) && InInt64(r.value.smtpPort)
    ensures "smtpPort" in obj && obj["smtpPort"].Str? ==> r.Err?
    ensures "checkInterval" in obj && obj["checkInterval"].Str? ==> r.Err?
    ensures "alertThreshold" in obj && obj["alertThreshold"].Str? ==> r.Err?
  {
    var checkInterval := Json.DecodeInt(obj, SettingsStruct, "checkInterval", "int");
    var alertThreshold := Json.DecodeInt(obj, SettingsStruct, "alertThreshold", "int");
    var enableNotifications := Json.DecodeBool(obj, SettingsStruct, "enableNotifications");
    var enableEmailAlerts := Json.DecodeBool(obj, SettingsStruct, "enableEmailAlerts");
    var enableSmsAlerts := Json.DecodeBool(obj, SettingsStruct, "enableSMSAlerts");
    var smtpServer := Json.DecodeString(obj, SettingsStruct, "smtpServer");
    var smtpPort := Json.DecodeInt(obj, SettingsStruct, "smtpPort", "int");
    var smtpUsername := Json.DecodeString(obj, SettingsStruct, "smtpUsername");
    var smtpPassword := Json.DecodeString(obj, SettingsStruct, "smtpPassword");
    if checkInterval.Err? then Err(checkInterval.msg)
    else if alertThreshold.Err? then Err(alertThreshold.msg)
    else if enableNotifications.Err? then Err(enableNotifications.msg)
    else if enableEmailAlerts.Err? then Err(enableEmailAlerts.msg)
    else if enableSmsAlerts.Err? then Err(enableSmsAlerts.msg)
    else if smtpServer.Err? then Err(smtpServer.msg)
    else if smtpPort.Err? then Err(smtpPort.msg)
    else if smtpUsername.Err? then Err(smtpUsername.msg)
    else if smtpPassword.Err? then Err(smtpPassword.msg)
    else Ok(Settings(checkInterval.value, alertThreshold.value, enableNotifications.value,
                     enableEmailAlerts.value, enableSmsAlerts.value, smtpServer.value,
                     smtpPort.value, smtpUsername.value, smtpPassword.value))
  }

  /** Binding the JSON of a settings record gives the record back. */
  lemma BindSettingsRoundTrip(s: Settings)
    requires InInt64(s.checkInterval) && InInt64(s.alertThreshold) && InInt64(s.smtpPort)
    ensures BindSettings(SettingsToJson(s)) == Ok(s)
  {
  }

  /** The outcome of `SELECT ... FROM settings LIMIT 1`. */
  datatype SettingsQuery = NoRows | QueryFailed(err: string) | Row(settings: Settings)

  function GetSettings(q: SettingsQuery): (r: Response)
    ensures q.NoRows? ==> r == Response(200, ObjectJson(SettingsToJson(DefaultSettings)))
    ensures q.QueryFailed? ==> r == Fail(500, "Failed to fetch settings: " + q.err)
    ensures q.Row? ==> r == Response(200, ObjectJson(SettingsToJson(q.settings)))
  {
    match q
      case NoRows => Response(200, ObjectJson(SettingsToJson(DefaultSettings)))
      case QueryFailed(e) => Fail(500, "Failed to fetch settings: " + e)
      case Row(s) => Response(200, ObjectJson(SettingsToJson(s)))
  }

  /** `updateSettings`: `dbError` is the outcome of the upsert. */
  function UpdateSettings(body: Result<Json.Object>, dbError: Option<string>): (r: Response)
    ensures body.Err? ==> r == Fail(400, "Invalid request body: " + body.msg)
    ensures body.Ok? && BindSettings(body.value).Err? ==> r == Fail(400, "Invalid request body: " + BindSettings(body.value).msg)
    ensures r.status == 200 <==> body.Ok? && BindSettings(body.value).Ok? && dbError.None?
    ensures r.status == 200 ==> r.body == ObjectJson(SettingsToJson(BindSettings(body.value).value))
  {
    if body.Err? then Fail(400, "Invalid request body: " + body.msg)
    else match BindSettings(body.value)
      case Err(e) => Fail(400, "Invalid request body: " + e)
      case Ok(s) =>
        if dbError.Some? then Fail(500, "Failed to update settings: " + dbError.value)
        else Response(200, ObjectJson(SettingsToJson(s)))
  }

  /** A successful update echoes exactly the submitted record. */
  lemma UpdateSettingsEchoes(s: Settings)
    requires InInt64(s.checkInterval) && InInt64(s.alertThreshold) && InInt64(s.smtpPort)
    ensures UpdateSettings(Ok(SettingsToJson(s)), None) == Response(200, ObjectJson(SettingsToJson(s)))
  {
    BindSettingsRoundTrip(s);
  }

  // ---- Stubs

  /** The handlers whose body is only the 501 answer. */
  datatype Stub =
    | CheckServiceHealth | GetHealthHistory | GetAlert | ResolveAlert | VerifyAlert
    | GetUser | UpdateUser | DeleteUser
    | CreateEscalationChain | GetEscalationChain | UpdateEscalationChain | DeleteEscalationChain

  function StubResponse(handler: Stub): (r: Response)
    ensures r.status == 501 && r.body == ErrorJson("Not implemented")
  {
    Fail(501, "Not implemented")
  }
}
