# Service monitor: a Dafny model of its core

The system watches HTTP services. A Go backend keeps services, health checks, alerts, users, escalation chains and settings in PostgreSQL, and serves them over a REST API. A React frontend shows a dashboard and pages for services, alerts, users and settings. This project models the decision logic and table operations of that system, and proves properties about them.

## Backend

- **Tables.** Each table the backend writes is a class whose fields are the table's rows: `AlertService.AlertTable`, `ServiceStore.ServiceTable`, `UserStore.UserTable`, `HealthCheck.HealthCheckTable` and `Migrations.MigrationDb`. Every service-layer method is a method on its table. Its contract gives the new rows and the returned value or error, with the Go error text.
- **Escalation.** `startNotificationProcess` is a level loop, `Escalate`. It is proved equal to the function `Escalation`. Lemmas then relate `Escalation` to the full `Plan` of an SMS and then a call per level.
- **Migrations.** `RunMigrations` is a file loop. It is proved equal to the function `Run`, and the ordering, completeness, stopping and idempotence properties are lemmas about `Run`.
- **HTTP handlers.** The handlers of `main.go` are pure functions from a request to a `(status, body)` response. The service call a handler makes is passed in as a function, so the same handler can be checked against any service-layer outcome, or against the table model (`Handlers.GetServiceFromTable`).

## Frontend

- **Derived views.** The Dashboard and Alerts pages only derive values from fetched arrays, so they are functions.
- **Page state.** The Services, Users and Settings pages keep `open`/`editing`/`settings` state that click handlers and mutation callbacks change step by step. Each is a `Page` class.
- **Cache invalidation.** A query invalidation is recorded by appending its key to `invalidated`.

## External effects as parameters

- **Database failures:** `dbError: Option<string>`, the error the driver would return.
- **`CURRENT_TIMESTAMP`:** `now`.
- **bcrypt:** `hash`.
- **The health-check HTTP GET and `time.Since`:** `probe`.
- **`waitForResponse`:** `responded(k)`, which says whether someone answered after attempt `k`.
- **Twilio's acceptance of attempt `k`:** `delivered(k)`.
- **A migration file's database outcome:** `fault(file)`.
- **The client's date parsing:** `parse`.
- **The directory listing:** a `Result` (the entry names, or the read error). The settings query outcome is a `SettingsQuery`.

## Pieces shared by all modules

- `Wrappers`: `Option` and `Result`.
- `Decimal`: `strconv.ParseInt(s, 10, 64)` and `%d`.
- `Json`: Go's binding of a flat JSON object into a struct.
- `Sorting`: a verified insertion sort, standing for `sort.Strings` and `ORDER BY`.
- `Lists`: `filter`.

## Where the model follows the code

Where the code and its comments or the page types disagree, the model follows the code:

- The backend's service JSON has no `status` field, so the dashboard counts no service as up or down (`Integration.DashboardSeesNoStatus`).
- The resolve and verify endpoints are 501 stubs, so the Alerts page buttons never invalidate anything (`Integration.AlertActionsChangeNothing`).
- `ResolveAlert` has no guard on the prior status.
- The Users page sends no password, so its create is always rejected (`Integration.UsersPageCreateRejected`).
- The settings number inputs store the input's text, so saving after editing one is rejected (`Integration.EditedNumberRejected`).
- "Add Service" does not clear `editingService`.
- The Users page reads `createdAt` and a string `id`, while the backend sends `created_at` and a number.
- `models/service.go` redeclares `Service`. The model uses `models/models.go`, whose `Config` is a string.

## Model

| member | source | states |
|---|---|---|
| AlertService.NewAlert | backend/internal/services/alert.go:25-28 | a new alert belongs to the given service, is active and pending, and has no resolution time |
| AlertService.Resolve | backend/internal/services/alert.go:171-175 | resolving makes the alert resolved with `resolved_at` set to the call's time; verification and identity are unchanged |
| AlertService.Verify | backend/internal/services/alert.go:186-190 | verifying sets the verification to verified and leaves status, `resolved_at` and identity unchanged |
| AlertService.VerifyIdempotent | backend/internal/services/alert.go:186-190 | verifying twice is the same as verifying once |
| AlertService.ResolveRestamps | backend/internal/services/alert.go:171-175 | a second resolve keeps the alert resolved but moves `resolved_at` to the second call's time |
| AlertService.ApplyKeeps | backend/internal/services/alert.go:170-198 | over any run of resolves and verifies: "resolved iff it has a resolution time" holds, resolved and verified are never left, and id, service and start time stay |
| AlertService.TerminalState | backend/internal/services/alert.go:170-198 | (resolved, verified) is terminal: no sequence of actions leaves it |
| AlertService.AllStatesReachable | backend/internal/services/alert.go:170-198 | every (status, verification) pair is reachable from a new alert |
| AlertService.ScanAlert | backend/internal/services/alert.go:32-41 | scanning a row into `models.Alert` succeeds exactly when `resolved_at` is not NULL |
| AlertService.CreateResult | backend/internal/services/alert.go:42-44 | a scan error is returned wrapped as "failed to create alert: ..." |
| AlertService.NewAlertScanFails | backend/internal/services/alert.go:24-50 | the row a new alert returns always fails to scan (no `resolved_at`) |
| AlertService.Matching | backend/internal/services/alert.go:93-99 | the chain rows are exactly the entries of the service whose user exists (the inner join), each as many times as it is in the table |
| AlertService.ChainRows | backend/internal/services/alert.go:93-99 | the chain query yields a permutation of the matching entries (same entries, same multiplicities), in ascending level |
| AlertService.ChainUsers | backend/internal/services/alert.go:93-123 | the chain has one user per chain row, in row order, without the password column |
| AlertService.ScanChain | backend/internal/services/alert.go:108-123 | a row that fails to scan gives "failed to scan user: ..." and no users; otherwise the users of the rows read, in row order, and `rows.Next` stopping early gives that prefix with no error |
| AlertService.GetEscalationChain | backend/internal/services/alert.go:92-126 | a query error gives "failed to get escalation chain: ..."; a scan error gives "failed to scan user: ..."; otherwise the users of the chain rows read, in level order, which is all of them unless `rows.Next` stopped early (no `rows.Err` check) |
| AlertService.ChainInLevelOrder | backend/internal/services/alert.go:98 | earlier chain rows never have a higher level than later ones, and all belong to the service |
| AlertService.Escalation | backend/internal/services/alert.go:61-88 | the reference definition of the level loop: per level an SMS, stop if answered, a call, stop if answered, then the next level; its contract: at least one and at most two attempts per remaining level, all carrying the alert message |
| AlertService.StartNotificationProcess | backend/internal/services/alert.go:52-90 | a query or scan error sends nothing; otherwise the notifications are the escalation over the chain as read, with the "Service ID n is down" message |
| AlertService.CutChainShortensEscalation | backend/internal/services/alert.go:108-125 | a chain cut short after k rows loads without error, and with nobody answering only 2k attempts, the plan of the first k levels, are sent |
| AlertService.Escalate | backend/internal/services/alert.go:61-89 | the `currentLevel` loop with its early returns sends exactly the notifications of the escalation from the first level |
| AlertService.NotifyLevel | backend/internal/services/alert.go:62-85 | one level sends the SMS then the call to that level's user, reports whether it was answered, and with the rest forms the escalation from that level |
| AlertService.PlanAt | backend/internal/services/alert.go:61-88 | attempt 2l of the plan is the SMS to level l's user and attempt 2l+1 the call to the same user |
| AlertService.PlanLength | backend/internal/services/alert.go:61-88 | the full plan has two attempts per remaining level |
| AlertService.EscalationFollowsPlan | backend/internal/services/alert.go:61-88 | what is sent is a prefix of the plan (users in level order, SMS before call); nobody answered before the last attempt sent; stopping early means the last attempt was answered |
| AlertService.EscalationWithoutResponse | backend/internal/services/alert.go:62-88 | with no response the escalation sends the whole plan, exactly two attempts per level, and ends |
| AlertService.EscalationIgnoresDelivery | backend/internal/services/alert.go:61-88 | SMS or call failures do not change who is contacted, by which channel, or when the escalation stops |
| AlertService.AlertTable.CreateAlert | backend/internal/services/alert.go:24-50 | (corrected) a new active, pending row gets the next id and is returned; a database error inserts nothing |
| AlertService.AlertTable.CreateAlertAsWritten | backend/internal/services/alert.go:24-50 | as written the call always returns an error, yet on a working database the row is inserted |
| AlertService.AlertTable.ResolveAlert | backend/internal/services/alert.go:170-183 | only the row with the id is resolved; an unknown id changes nothing and is not an error; a database error is "failed to resolve alert: ..." |
| AlertService.AlertTable.VerifyAlert | backend/internal/services/alert.go:185-198 | only the row with the id is verified; an unknown id changes nothing and is not an error; a database error is "failed to verify alert: ..." |
| Migrations.SqlNames | backend/pkg/database/init.go:21-26 | exactly the directory entries whose names end in `.sql` are kept |
| Migrations.SqlNamesAppend | backend/pkg/database/init.go:22-26 | the filter works entry by entry, in directory order |
| Migrations.SqlFiles | backend/pkg/database/init.go:21-26 | the append loop keeps exactly the `.sql` entries, in directory order |
| Migrations.Pending | backend/pkg/database/init.go:21-27 | the files considered are a permutation of the `.sql` entries (each as often as it is listed), in ascending lexicographic order |
| Migrations.MigrationDb.RunMigrations | backend/pkg/database/init.go:12-88 | the returned error and the migrations table afterwards are those of the specification `Run`, with the directory-read and table-creation errors first |
| Migrations.MigrationDb.ApplyPending | backend/pkg/database/init.go:42-87 | the file loop, with its early returns, returns the error of `ApplyAll` and leaves its table |
| Migrations.ApplyAllExtends | backend/pkg/database/init.go:42-85 | rows recorded before stay, in place; every new row is a pending file that was not recorded before |
| Migrations.ApplyAllNoDuplicates | backend/pkg/database/init.go:42-85 | a migration is recorded at most once (recorded names are skipped) |
| Migrations.ApplyAllInOrder | backend/pkg/database/init.go:27-42 | new migrations are applied in ascending lexicographic order |
| Migrations.ApplyAllComplete | backend/pkg/database/init.go:42-87 | a run without error leaves every pending file recorded |
| Migrations.ApplyAllStops | backend/pkg/database/init.go:45-82 | a failing run stops at a file that failed; that file is not recorded unless it was already; new rows come only from files before it |
| Migrations.RunSucceeded | backend/pkg/database/init.go:42-87 | after a successful run every `.sql` name is recorded, earlier rows are unchanged, and nothing else is added |
| Migrations.ApplyAllRecorded | backend/pkg/database/init.go:45-51 | files that are all recorded are skipped, whatever executing them would do |
| Migrations.RunIdempotent | backend/pkg/database/init.go:42-87 | a second run over the same directory after a successful one succeeds and records nothing more |
| ServiceStore.Updated | backend/internal/services/service.go:75-79 | an update replaces name, type, url and config, keeps id and `created_at`, and refreshes `updated_at` |
| ServiceStore.Created | backend/internal/services/service.go:19-39 | a created row has the fresh id, the submitted name, type, url and config, and the insert time as both timestamps |
| ServiceStore.Lookup | backend/internal/services/service.go:47-72 | a lookup succeeds with the stored row exactly when the id is stored, else fails with "service not found" |
| ServiceStore.LookupAfterDelete | backend/internal/services/service.go:108-124 | after a delete the id is not found, and lookups of other ids are unchanged |
| ServiceStore.ServiceTable.CreateService | backend/internal/services/service.go:18-45 | a create stores and returns name, type, url and config under a fresh id; a database error stores nothing |
| ServiceStore.ServiceTable.GetService | backend/internal/services/service.go:47-72 | a database error is "failed to get service: ..."; otherwise the stored row, or "service not found" |
| ServiceStore.ServiceTable.UpdateService | backend/internal/services/service.go:74-106 | a missing id is "service not found" and changes nothing; otherwise only that row is replaced by its update |
| ServiceStore.ServiceTable.DeleteService | backend/internal/services/service.go:108-124 | zero rows affected is "service not found"; otherwise exactly that row is removed |
| ServiceStore.ServiceTable.ListServices | backend/internal/services/service.go:126-162 | the list holds every stored service exactly once, newest `created_at` first; a query error is "failed to query services: ..." |
| UserStore.ToJson | backend/internal/models/models.go:17-26 | a user's JSON carries its profile fields and never a password |
| UserStore.CreatedUserProjection | backend/internal/services/user.go:27-47 | the created user carries the submitted name, email, phone and role, a fresh id, and an empty password |
| UserStore.UserTable.CreateUser | backend/internal/services/user.go:19-53 | a hashing failure inserts nothing; on success the stored password is `hash(password).value`, the hash function's output for the submitted password; a database error inserts nothing |
| HealthCheck.Classify | backend/internal/services/health_check.go:20-44 | up exactly when the service answered with a 2xx code, and then with no error; a transport failure is down with time 0 and its message; any other code is down with "HTTP <code>" |
| HealthCheck.ErrorNamesCode | backend/internal/services/health_check.go:43 | the error text of a non-2xx answer gives back its code, so different codes give different texts |
| HealthCheck.HealthCheckTable.RecordHealthCheck | backend/internal/services/health_check.go:46-67 | the check is appended with the service id, the outcome and the call's time; a database error records nothing |
| HealthCheck.HealthCheckTable.CheckService | backend/internal/services/health_check.go:20-44 | the check recorded for a service carries that service's id and the classification of the probe |
| HealthCheck.HealthCheckTable.GetLatestHealthCheck | backend/internal/services/health_check.go:69-92 | the answer is a check of that service with the greatest `checked_at`; having no check for the service is an error ("no rows"), as is a database error |
| Handlers.ServiceToJson | backend/internal/models/models.go:7-15 | a service's JSON has exactly the model's fields and no `status` |
| Handlers.ServiceFailure | backend/cmd/api/main.go:237-243 | "service not found" maps to 404 and any other service error to 500 |
| Handlers.CreateService | backend/cmd/api/main.go:171-185 | a bad body is 400 and a failing create is 500; 201 with the created service exactly when both succeed |
| Handlers.CreateServiceFromTable | backend/cmd/api/main.go:171-185 | against the table, a successful create answers 201 with the row stored under the fresh id and the submitted fields; a failing insert answers 500 with the wrapped message |
| Handlers.GetService | backend/cmd/api/main.go:228-247 | a path id that is not a base-10 int64 is 400 "Invalid service ID"; otherwise 200 with the service, or the error mapping |
| Handlers.UpdateService | backend/cmd/api/main.go:249-275 | bad id 400, bad body 400, otherwise the service layer gets the body with the path id; 200 with the result or the error mapping |
| Handlers.DeleteService | backend/cmd/api/main.go:277-296 | bad id 400; success is 204 with no body; errors follow the mapping |
| Handlers.BadIdSkipsServiceLayer | backend/cmd/api/main.go:228-296 | an id that does not parse is rejected with 400 whatever the service layer would do |
| Handlers.UpdateIgnoresBodyId | backend/cmd/api/main.go:263 | the id in an update's body has no effect on the response |
| Handlers.GetServiceFromTable | backend/cmd/api/main.go:228-247 | against the table, GET of a stored id is 200 with that service and of another id is 404 |
| Handlers.DeleteThenGet | backend/cmd/api/main.go:277-296 | deleting a stored id answers 204, and getting it afterwards answers 404 |
| Handlers.BindUserAsWritten | backend/internal/models/models.go:17-26 | as written the bound user never has a password |
| Handlers.BindUser | backend/cmd/api/main.go:372-377 | (corrected) the same binding, with the password read from the body |
| Handlers.MissingField | backend/cmd/api/main.go:379-394 | Name, Email, Password, Phone are checked in that order and the first empty one is named |
| Handlers.CreateUserWith | backend/cmd/api/main.go:370-406 | bind error 400, missing field 400, service error 500; 201 with the user, and without the password, exactly when all pass |
| Handlers.CreateUserAlwaysRejected | backend/cmd/api/main.go:370-406 | as written every create-user request is answered 400 |
| Handlers.CreateUserAccepts | backend/cmd/api/main.go:370-406 | (corrected) a complete request reaches the service layer with exactly its fields, and its success is 201 with no password in the body |
| Handlers.SettingsToJson | backend/cmd/api/main.go:487-497 | the settings JSON has exactly the nine settings keys |
| Json.DecodeInt | backend/cmd/api/main.go:536-551 | a missing key or `null` binds 0 and an int64 number binds itself; any other value is `UnmarshalTypeError`'s text, naming the JSON kind (or the number), the struct, the key and the Go type |
| Handlers.BindSettings | backend/cmd/api/main.go:536-551 | bound numbers are int64; a JSON string in a number field is a bind error |
| Handlers.BindSettingsRoundTrip | backend/cmd/api/main.go:536-551 | binding the JSON of a settings record gives the record back |
| Handlers.GetSettings | backend/cmd/api/main.go:478-533 | no row gives 200 with the defaults (300, 3, all flags on, port 587, empty SMTP strings); a failing query gives 500 |
| Handlers.UpdateSettings | backend/cmd/api/main.go:535-590 | bad JSON or a bind error is 400; 200 echoing the bound settings exactly when binding and the upsert succeed |
| Handlers.UpdateSettingsEchoes | backend/cmd/api/main.go:584-589 | a successful update answers with exactly the submitted record |
| Handlers.StubResponse | backend/cmd/api/main.go:298-475 | every stub handler answers 501 "Not implemented" |
| ClientApi.StringField | frontend/src/api/index.ts:7-16 | a text field is read exactly when present as a JSON string |
| ClientApi.StatusOf | frontend/src/api/index.ts:13 | a service's status is up or down exactly when the JSON says "up" or "down"; otherwise it is absent |
| ClientApi.DecodeService | frontend/src/api/index.ts:7-16 | a decoded service can carry a status only when the JSON has one |
| Dashboard.OrEmpty | frontend/src/pages/Dashboard.tsx:36-38 | data not yet fetched reads as an empty list |
| Dashboard.Total | frontend/src/pages/Dashboard.tsx:51 | the total is the number of fetched services, and 0 without data |
| Dashboard.DownPercent | frontend/src/pages/Dashboard.tsx:66 | the percentage is down/total·100 and lies in 0..100; no services gives 0 and never a division by zero |
| Dashboard.Render | frontend/src/pages/Dashboard.tsx:28-105 | loading exactly while either query loads; otherwise the up, down, total and active counters, the active list, and "No active alerts" exactly when it is empty |
| Dashboard.CountersCoverTotal | frontend/src/pages/Dashboard.tsx:36-37 | when every service has a status, up plus down is the total |
| Dashboard.ActiveAlertsInOrder | frontend/src/pages/Dashboard.tsx:38 | the active alerts are exactly the fetched alerts with status active, in fetched order |
| Dashboard.NoDataView | frontend/src/pages/Dashboard.tsx:36-105 | with no data every counter is 0, the percentage is 0 and the empty-state text shows |
| Dashboard.HalfDown | frontend/src/pages/Dashboard.tsx:66 | one service up and one down gives 50% |
| Lists.Filter | frontend/src/pages/Dashboard.tsx:36-38 | `filter` keeps exactly the elements meeting the test |
| Lists.FilterAppend | frontend/src/pages/Alerts.tsx:40-41 | filtering keeps the original order |
| Lists.FilterPartition | frontend/src/pages/Alerts.tsx:40-41 | two complementary filters split a list: the sizes and the multisets add up |
| Lists.FilterNone | frontend/src/pages/Dashboard.tsx:36-37 | a filter no element meets gives the empty list |
| AlertsPage.ListsPartition | frontend/src/pages/Alerts.tsx:40-41 | the active and resolved lists are disjoint and together hold every fetched alert |
| AlertsPage.ListsKeepOrder | frontend/src/pages/Alerts.tsx:40-41 | each list keeps the fetched order |
| AlertsPage.ResolvedLine | frontend/src/pages/Alerts.tsx:123-127 | the resolved line shows exactly when `resolved_at` is non-null and not empty |
| AlertsPage.Cards | frontend/src/pages/Alerts.tsx:73-133 | the cards show the active alerts, then the resolved ones, each in fetched order; active cards carry Resolve and Verify and no resolved line, resolved cards no actions and their resolved line |
| AlertsPage.ActionsOnlyOnActive | frontend/src/pages/Alerts.tsx:73-133 | Resolve and Verify are offered exactly on active alerts; only resolved cards show a resolved time; every card is a fetched alert |
| AlertsPage.AfterMutation | frontend/src/pages/Alerts.tsx:22-34 | a successful resolve or verify invalidates only the `alerts` key, and a failed one nothing |
| ServicesPage.MakePayload | frontend/src/pages/Services.tsx:83-89 | the payload is the four form fields plus status up |
| ServicesPage.Route | frontend/src/pages/Services.tsx:91-95 | with a service being edited, submit updates that service's id; otherwise it creates |
| ServicesPage.LastCheckLabel | frontend/src/pages/Services.tsx:167-170 | the label is "Never" exactly when `updated_at` is missing, empty or unparsable |
| ServicesPage.Page.AddService | frontend/src/pages/Services.tsx:147 | "Add Service" opens the dialog and leaves the edited service as it was |
| ServicesPage.Page.EditService | frontend/src/pages/Services.tsx:310-313 | the edit icon selects the service and opens the dialog |
| ServicesPage.Page.Close | frontend/src/pages/Services.tsx:344-408 | close and Cancel shut the dialog and clear the edited service |
| ServicesPage.Page.Submit | frontend/src/pages/Services.tsx:80-96 | submit sends the routed request and marks that mutation pending, which disables the button |
| ServicesPage.Page.Settle | frontend/src/pages/Services.tsx:55-78 | only a 2xx answer has effects, and every kind invalidates `services`; create closes the dialog, update closes it and clears the edited service, delete leaves the dialog state |
| UsersPage.CreateBody | frontend/src/pages/Users.tsx:103-113 | create sends exactly name, email, phone and role |
| UsersPage.Edited | frontend/src/pages/Users.tsx:110-111 | an update sends the form fields with the edited user's id and `createdAt` unchanged |
| UsersPage.Route | frontend/src/pages/Users.tsx:109-114 | with a user being edited, submit updates it; otherwise it creates from the form |
| UsersPage.DeleteFor | frontend/src/pages/Users.tsx:161 | delete targets the clicked user's id |
| UsersPage.Page.AddUser | frontend/src/pages/Users.tsx:128-131 | "Add User" clears the edited user and opens the dialog |
| UsersPage.Page.EditUser | frontend/src/pages/Users.tsx:152-155 | the edit icon selects the user and opens the dialog |
| UsersPage.Page.Close | frontend/src/pages/Users.tsx:173-216 | close and Cancel only shut the dialog; the edited user stays |
| UsersPage.Page.Submit | frontend/src/pages/Users.tsx:100-115 | submit sends the routed request |
| UsersPage.Page.Settle | frontend/src/pages/Users.tsx:45-98 | a non-ok answer has no effect; a success invalidates `users`; create closes the dialog, update also clears the edited user, delete leaves the dialog |
| SettingsPage.InitialSettings | frontend/src/pages/Settings.tsx:29-39 | the local record starts with the nine settings keys |
| SettingsPage.WithField | frontend/src/pages/Settings.tsx:78-84 | only the named field changes: a switch stores the checked flag, any other input its raw text |
| SettingsPage.Page.Fetched | frontend/src/pages/Settings.tsx:41-52 | a non-ok GET fails and keeps the local record; an ok one replaces it wholesale |
| SettingsPage.Page.HandleChange | frontend/src/pages/Settings.tsx:78-84 | the local record becomes the record with that one field updated |
| SettingsPage.Page.Submit | frontend/src/pages/Settings.tsx:73-76 | submit sends the entire current record |
| SettingsPage.Page.Settle | frontend/src/pages/Settings.tsx:54-71 | a non-ok PUT fails and invalidates nothing; an ok one invalidates `settings` |
| Integration.InitialSettingsAreBackendDefaults | frontend/src/pages/Settings.tsx:29-39 | the page's initial record is exactly what GET /api/settings answers when no row exists |
| Integration.ToggleAccepted | frontend/src/pages/Settings.tsx:78-84 | toggling a switch and saving is accepted and answered with that one flag changed |
| Integration.EditedNumberRejected | frontend/src/pages/Settings.tsx:78-117 | saving after editing a number field is answered 400 |
| Integration.EditedNumberMessage | backend/cmd/api/main.go:548-551 | when the rest of the record binds, that 400 is "Invalid request body: json: cannot unmarshal string into Go struct field .<key> of type int" |
| Integration.UsersPageCreateRejected | frontend/src/pages/Users.tsx:100-115 | the Users page's create is answered 400, by the handler as written and by the corrected one |
| Integration.AlertActionsChangeNothing | backend/cmd/api/main.go:362-368 | the Resolve and Verify buttons reach 501 stubs, so nothing is invalidated |
| Integration.Decoded | frontend/src/api/index.ts:7-16 | the client decodes one service per backend row |
| Integration.DashboardSeesNoStatus | backend/cmd/api/main.go:187-226 | the backend sends no status, so the dashboard shows 0 up, 0 down and 0% whatever the services are |
| Decimal.ParseIntToDecimal | backend/cmd/api/main.go:229-234 | reading back the decimal text of any int64 gives the number |
| Decimal.ParseInt64 | backend/cmd/api/main.go:229-234 | an accepted id is an int64 written as an optional sign followed by digits |
| Sorting.SortStrings | backend/pkg/database/init.go:27 | `sort.Strings` gives a permutation of its input in lexicographic order |
| Sorting.SortBySorted | backend/internal/services/service.go:126-131 | sorting under a total preorder gives a sorted permutation (the `ORDER BY` of the queries) |

## Left out

- `waitForResponse` (goroutines, a ticker, a timeout). It is the oracle `responded`. Launching `startNotificationProcess` as a goroutine is also not modelled: the escalation is a separate call.
- Twilio SMS and calls, bcrypt, the HTTP GET and the clock. These are the parameters `delivered`, `hash`, `probe` and `now`.
- Listing handlers (`listServices`, `listAlerts`, `listUsers` in main.go). Their scan and `rows.Err` failures, and those of `ListServices`, are not modelled. A listing is either a query error or the whole table.
- ServiceStore.ServiceTable.DeleteService: the "failed to get rows affected" error is not modelled, because `RowsAffected` does not fail on PostgreSQL.
- SQL ties. `ORDER BY` columns with equal values are put in some order, which the model does not fix. `ListServices` is specified only as sorted by `created_at` and as a permutation of the table.
- Timestamps are abstract integers, not RFC 3339 text. Date formatting by date-fns and `toLocaleString` is not modelled.
- Go JSON decoding details:
  - case-insensitive key matching;
  - float-to-int rejection;
  - which of several bad fields is reported;
  - the spelling of an out-of-range number in the error, which the model writes as decimal digits;
  - `models.User`'s `created_at` and `updated_at`, which `BindUser` and `BindUserAsWritten` do not decode. Go's `time.Time` decoding answers 400 for a body whose `created_at` or `updated_at` is not RFC 3339 text, and the model binds such a body.
  `Json` binds exact keys and reports the first field in declaration order.
- The settings table's upsert (`ON CONFLICT (id)` with no id given) and `LIMIT 1` without an order. `GetSettings` takes the query outcome as a `SettingsQuery`, and `UpdateSettings` takes the upsert outcome as `dbError`.
- `startNotificationProcess`'s "failed to get escalation chain" log line. Only the fact that nothing is sent is modelled.
- `createUser`'s log lines ("Invalid request body", "Creating user", "Failed to create user", "User created successfully"). Logging has no effect on the response or the table.
- The "Applied migration" log line printed after each commit of `RunMigrations`. Logging has no effect on the table or the returned error.
- An id sequence advanced by a failed insert is not modelled. On an error the tables keep their `nextId`.
- Migrations.MigrationDb.ApplyPending: if `COMMIT` itself fails, the file is treated as not recorded. The model assumes the failed commit rolled back.
- The Users page's list query (`["users"]`), including the "Failed to fetch users" error it throws on a non-ok answer. The page model keeps only the dialog state and the mutations, so the users list and its failure have no modelled effect.
- react-query internals: polling timers, retries, request coalescing and the `isPending` of the delete mutations. Only the keys each success invalidates are recorded, in `invalidated`.
- Presentation: markup, styles, the `toFixed(1)` rounding of the percentage, and the loading views of the Alerts, Services, Users and Settings pages.
- The `ServiceConfig` type with its `Value`/`Scan` methods (`models/service.go`), which rely on `encoding/json`. The service `config` is its JSON text.
- Startup and wiring: `main()`, the router and CORS, the configuration loaders, and the Postgres and Redis connection helpers.

## Findings

| source | as written | input that shows it | evidently intended | confidence | as-written member | corrected member |
|---|---|---|---|---|---|---|
| backend/internal/services/alert.go:24-50 | `RETURNING ... resolved_at` of a new alert is NULL and is scanned into the `time.Time` field `models.Alert.ResolvedAt`, so `Scan` fails | any `CreateAlert(ctx, serviceID)` on a working database: the row is inserted, the call returns "failed to create alert: sql: Scan error ...", and the escalation never starts | return the new active, pending alert (for example scanning `resolved_at` into a nullable time) | high; not executed | AlertService.AlertTable.CreateAlertAsWritten, AlertService.NewAlertScanFails | AlertService.AlertTable.CreateAlert |
| backend/internal/models/models.go:22 | `Password` is tagged `json:"-"`, so `ShouldBindJSON` in `createUser` (backend/cmd/api/main.go:370-406) never fills it and the required-field check rejects it | POST /api/users with `{"name":"a","email":"b","password":"c","phone":"d"}` answers 400 "Password is required" | read the password from the request while keeping it out of responses | high; not executed | Handlers.BindUserAsWritten, Handlers.CreateUserAlwaysRejected | Handlers.BindUser, Handlers.CreateUserAccepts |
