/** What the pages get from the backend handlers they call. */
module Integration {
  import opened Wrappers
  import ClientApi
  import Json
  import ServiceStore
  import UserStore
  import Handlers
  import Lists
  import Dashboard
  import AlertsPage
  import UsersPage
  import SettingsPage

  /** The Settings page starts from the very record `GET /api/settings` answers when no row exists. */
  lemma InitialSettingsAreBackendDefaults()
    ensures SettingsPage.InitialSettings() == Handlers.SettingsToJson(Handlers.DefaultSettings)
    ensures Handlers.GetSettings(Handlers.NoRows) ==
            Handlers.Response(200, Handlers.ObjectJson(SettingsPage.InitialSettings()))
  {
  }

  /** Toggling a switch and saving succeeds, and the answer is the settings with that one flag changed. */
  lemma ToggleAccepted(s: Handlers.Settings, checked: bool)
    requires Handlers.InInt64(s.checkInterval) && Handlers.InInt64(s.alertThreshold) && Handlers.InInt64(s.smtpPort)
    ensures var body := SettingsPage.WithField(Handlers.SettingsToJson(s), "enableSMSAlerts", "", checked);
            Handlers.UpdateSettings(Ok(body), None) ==
            Handlers.Response(200, Handlers.ObjectJson(Handlers.SettingsToJson(s.(enableSmsAlerts := checked))))
  {
    var body := SettingsPage.WithField(Handlers.SettingsToJson(s), "enableSMSAlerts", "", checked);
    assert body == Handlers.SettingsToJson(s.(enableSmsAlerts := checked));
    Handlers.BindSettingsRoundTrip(s.(enableSmsAlerts := checked));
  }

  /**
   * Editing a number field stores the input's text, so the saved record
   * carries a JSON string where the backend binds an int, and the PUT is
   * answered 400.
   */
  lemma EditedNumberRejected(prev: Json.Object, name: string, value: string, checked: bool, dbError: Option<string>)
    requires name in {"checkInterval", "alertThreshold", "smtpPort"}
    ensures Handlers.UpdateSettings(Ok(SettingsPage.WithField(prev, name, value, checked)), dbError).status == 400
  {
  }

  /**
   * When the rest of the record binds, that 400 carries Go's own text: a
   * string met where the anonymous settings struct has an `int`.
   */
  lemma EditedNumberMessage(s: Handlers.Settings, name: string, value: string, checked: bool,
                            dbError: Option<string>)
    requires Handlers.InInt64(s.checkInterval) && Handlers.InInt64(s.alertThreshold) && Handlers.InInt64(s.smtpPort)
    requires name in {"checkInterval", "alertThreshold", "smtpPort"}
    ensures Handlers.UpdateSettings(Ok(SettingsPage.WithField(Handlers.SettingsToJson(s), name, value, checked)), dbError) ==
            Handlers.Fail(400, "Invalid request body: " + Json.TypeError("string", "", name, "int"))
  {
    var body := SettingsPage.WithField(Handlers.SettingsToJson(s), name, value, checked);
    var e := Json.TypeError("string", "", name, "int");
    assert Json.DecodeInt(body, "", name, "int") == Err(e);
    assert Json.DecodeBool(body, "", "enableNotifications") == Ok(s.enableNotifications);
    assert Json.DecodeBool(body, "", "enableEmailAlerts") == Ok(s.enableEmailAlerts);
    assert Json.DecodeBool(body, "", "enableSMSAlerts") == Ok(s.enableSmsAlerts);
    assert Json.DecodeString(body, "", "smtpServer") == Ok(s.smtpServer);
    assert Json.DecodeString(body, "", "smtpUsername") == Ok(s.smtpUsername);
    assert Json.DecodeString(body, "", "smtpPassword") == Ok(s.smtpPassword);
    if name != "checkInterval" {
      assert Json.DecodeInt(body, "", "checkInterval", "int") == Ok(s.checkInterval);
    }
    if name == "smtpPort" {
      assert Json.DecodeInt(body, "", "alertThreshold", "int") == Ok(s.alertThreshold);
    }
    assert Handlers.BindSettings(body) == Err(e);
  }

  /**
   * The Users page sends no password, so its create request is rejected
   * with 400, both by the handler as written and by the one that binds
   * the password.
   */
  lemma UsersPageCreateRejected(form: UsersPage.Form, create: UserStore.User -> Result<UserStore.User>)
    ensures Handlers.CreateUserAsWritten(Ok(UsersPage.CreateBody(form)), create).status == 400
    ensures Handlers.CreateUser(Ok(UsersPage.CreateBody(form)), create).status == 400
  {
    Handlers.CreateUserAlwaysRejected(Ok(UsersPage.CreateBody(form)), create);
    var bound := Handlers.BindUser(UsersPage.CreateBody(form));
    if bound.Ok? {
      assert bound.value.password == "";
    }
  }

  /** The Alerts page's Resolve and Verify reach 501 stubs, so nothing is invalidated. */
  lemma AlertActionsChangeNothing()
    ensures AlertsPage.AfterMutation(Handlers.StubResponse(Handlers.ResolveAlert).status) == {}
    ensures AlertsPage.AfterMutation(Handlers.StubResponse(Handlers.VerifyAlert).status) == {}
  {
  }

  /** The services as the Dashboard decodes them from the backend's JSON. */
  function Decoded(rows: seq<ServiceStore.Service>): (s: seq<ClientApi.Service>)
    ensures |s| == |rows|
  {
    seq(|rows|, i requires 0 <= i < |rows| => ClientApi.DecodeService(Handlers.ServiceToJson(rows[i])))
  }

  /** The backend sends no status, so the Dashboard counts every service as neither up nor down. */
  lemma DashboardSeesNoStatus(rows: seq<ServiceStore.Service>)
    ensures Dashboard.UpServices(Some(Decoded(rows))) == []
    ensures Dashboard.DownServices(Some(Decoded(rows))) == []
    ensures Dashboard.Total(Some(Decoded(rows))) == |rows|
    ensures Dashboard.DownPercent(Some(Decoded(rows))) == 0.0
  {
    var d := Decoded(rows);
    forall s | s in d ensures s.status.None? {
      var i :| 0 <= i < |d| && d[i] == s;
      assert "status" !in Handlers.ServiceToJson(rows[i]);
    }
    Lists.FilterNone(d, Dashboard.IsUp);
    Lists.FilterNone(d, Dashboard.IsDown);
  }
}
