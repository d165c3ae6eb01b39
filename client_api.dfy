/**
 * What the pages see of the backend (frontend/src/api/index.ts): the
 * decoded records, the success rule of a request, and the query keys of
 * the cache.
 */
module ClientApi {
  import opened Wrappers
  import Json

  /** The cache keys `['services']`, `['alerts']`, `['users']`, `['settings']`. */
  datatype QueryKey = ServicesKey | AlertsKey | UsersKey | SettingsKey

  /** `response.ok` for `fetch`, and the status test axios uses before resolving. */
  predicate IsOk(status: int) {
    200 <= status < 300
  }

  datatype ServiceStatus = Up | Down

  /**
   * A decoded `Service`. `status` is declared `'up' | 'down'`, but nothing
   * checks it at run time: a response without the field gives `None`.
   */
  datatype Service = Service(id: int, name: string, serviceType: string, url: string, config: string,
                             status: Option<ServiceStatus>, updatedAt: Option<string>)

  datatype AlertStatus = Active | Resolved

  datatype Alert = Alert(id: int, serviceId: int, serviceName: string, status: AlertStatus,
                         startedAt: string, resolvedAt: Option<string>, verified: bool)

  function StringField(obj: Json.Object, key: string): (r: Option<string>)
    ensures r.Some? <==> key in obj && obj[key].Str?
    ensures r.Some? ==> r.value == obj[key].s
  {
    if key in obj && obj[key].Str? then Some(obj[key].s) else None
  }

  function StatusOf(obj: Json.Object): (r: Option<ServiceStatus>)
    ensures r == Some(Up) <==> StringField(obj, "status") == Some("up")
    ensures r == Some(Down) <==> StringField(obj, "status") == Some("down")
  {
    match StringField(obj, "status")
      case Some(t) => if t == "up" then Some(Up) else if t == "down" then Some(Down) else None
      case None => None
  }

  /** The value a page reads off one object of `GET /services`; absent text fields read as empty. */
  function DecodeService(obj: Json.Object): (s: Service)
    ensures s.status.Some? ==> "status" in obj
    ensures s.updatedAt == StringField(obj, "updated_at")
  {
    var id := if "id" in obj && obj["id"].Number? then obj["id"].n else 0;
    var text := (k: string) => if StringField(obj, k).Some? then StringField(obj, k).value else "";
    Service(id, text("name"), text("type"), text("url"), text("config"), StatusOf(obj),
            StringField(obj, "updated_at"))
  }
}
