/**
 * The alerts table, the resolve/verify transitions and the escalation of a
 * new alert along a service's chain of users
 * (backend/internal/services/alert.go).
 */
module AlertService {
  import opened Wrappers
  import Decimal
  import Sorting
  import UserStore

  datatype AlertStatus = Active | Resolved
  datatype Verification = Pending | Verified

  /** A row of the alerts table. `resolvedAt` is a nullable column. */
  datatype Alert = Alert(id: int, serviceId: int, status: AlertStatus, startedAt: int,
                         resolvedAt: Option<int>, verification: Verification,
                         createdAt: int, updatedAt: int)

  /** The table invariant the transitions keep: a resolution time exactly on resolved alerts. */
  predicate Consistent(a: Alert) {
    a.status == Resolved <==> a.resolvedAt.Some?
  }

  /** `INSERT INTO alerts (service_id, status, verification_status) VALUES ($1, 'active', 'pending')`. */
  function NewAlert(id: int, serviceId: int, now: int): (a: Alert)
    ensures a.id == id && a.serviceId == serviceId
    ensures a.status == Active && a.verification == Pending
    ensures Consistent(a)
  {
    Alert(id, serviceId, Active, now, None, Pending, now, now)
  }

  /** `SET status = 'resolved', resolved_at = CURRENT_TIMESTAMP`: no guard on the prior status. */
  function Resolve(a: Alert, now: int): (r: Alert)
    ensures r.status == Resolved && r.resolvedAt == Some(now)
    ensures r.verification == a.verification
    ensures r.id == a.id && r.serviceId == a.serviceId && r.startedAt == a.startedAt
    ensures Consistent(r)
  {
    a.(status := Resolved, resolvedAt := Some(now))
  }

  /** `SET verification_status = 'verified'`. */
  function Verify(a: Alert): (r: Alert)
    ensures r.verification == Verified
    ensures r.status == a.status && r.resolvedAt == a.resolvedAt
    ensures r.id == a.id && r.serviceId == a.serviceId && r.startedAt == a.startedAt
    ensures Consistent(a) ==> Consistent(r)
  {
    a.(verification := Verified)
  }

  /** Verifying twice is verifying once. */
  lemma VerifyIdempotent(a: Alert)
    ensures Verify(Verify(a)) == Verify(a)
  {
  }

  /** A second resolve keeps the alert resolved but moves `resolved_at` to the later call's time. */
  lemma ResolveRestamps(a: Alert, first: int, second: int)
    ensures Resolve(Resolve(a, first), second) == Resolve(a, second)
    ensures Resolve(Resolve(a, first), second).resolvedAt == Some(second)
  {
  }

  /** The operator actions, applied one after another. */
  datatype Action = ResolveAt(time: int) | VerifyNow

  function Apply(a: Alert, actions: seq<Action>): Alert
    decreases |actions|
  {
    if actions == [] then a
    else
      var next := match actions[0]
        case ResolveAt(t) => Resolve(a, t)
        case VerifyNow => Verify(a);
      Apply(next, actions[1..])
  }

  /**
   * Along any run of resolves and verifies: the invariant holds, nothing
   * leaves `resolved` or `verified` once reached, and the identity fields stay.
   */
  lemma {:induction false} ApplyKeeps(a: Alert, actions: seq<Action>)
    requires Consistent(a)
    ensures var r := Apply(a, actions);
      && Consistent(r)
      && (a.status == Resolved ==> r.status == Resolved)
      && (a.verification == Verified ==> r.verification == Verified)
      && r.id == a.id && r.serviceId == a.serviceId && r.startedAt == a.startedAt
    decreases |actions|
  {
    if actions != [] {
      var next := match actions[0]
        case ResolveAt(t) => Resolve(a, t)
        case VerifyNow => Verify(a);
      ApplyKeeps(next, actions[1..]);
    }
  }

  /** `(resolved, verified)` is terminal: no run of the two actions leaves it. */
  lemma TerminalState(a: Alert, actions: seq<Action>)
    requires Consistent(a) && a.status == Resolved && a.verification == Verified
    ensures Apply(a, actions).status == Resolved && Apply(a, actions).verification == Verified
  {
    ApplyKeeps(a, actions);
  }

  /** Every joint state is reachable from a new alert. */
  lemma AllStatesReachable(id: int, serviceId: int, now: int, s: AlertStatus, v: Verification)
    ensures exists actions :: Apply(NewAlert(id, serviceId, now), actions).status == s &&
                              Apply(NewAlert(id, serviceId, now), actions).verification == v
  {
    var a := NewAlert(id, serviceId, now);
    var r := Resolve(a, now);
    if s == Resolved && v == Verified {
      var acts := [ResolveAt(now), VerifyNow];
      assert acts[1..] == [VerifyNow] && acts[1..][1..] == [];
      assert Apply(a, acts) == Apply(r, [VerifyNow]) == Verify(r);
    } else if s == Resolved {
      var acts := [ResolveAt(now)];
      assert acts[1..] == [];
      assert Apply(a, acts) == r;
    } else if v == Verified {
      var acts := [VerifyNow];
      assert acts[1..] == [];
      assert Apply(a, acts) == Verify(a);
    } else {
      assert Apply(a, []) == a;
    }
  }

  /**
   * The Go `models.Alert` struct as `CreateAlert` scans into it: `ResolvedAt`
   * is a plain `time.Time`, which has no NULL.
   */
  datatype GoAlert = GoAlert(id: int, serviceId: int, status: AlertStatus, startedAt: int,
                             resolvedAt: int, verification: Verification,
                             createdAt: int, updatedAt: int)

  const NullTimeScanError: string :=
    "sql: Scan error on column index 4, name \"resolved_at\": unsupported Scan, storing driver.Value type <nil> into type *time.Time"

  /** `database/sql`'s `Scan` of a returned row into a `models.Alert`. */
  function ScanAlert(row: Alert): (r: Result<GoAlert>)
    ensures r.Ok? <==> row.resolvedAt.Some?
    ensures r.Ok? ==> r.value.id == row.id && r.value.status == row.status &&
                      r.value.verification == row.verification && Some(r.value.resolvedAt) == row.resolvedAt
  {
    match row.resolvedAt
      case None => Err(NullTimeScanError)
      case Some(t) =>
        Ok(GoAlert(row.id, row.serviceId, row.status, row.startedAt, t, row.verification,
                   row.createdAt, row.updatedAt))
  }

  /** `CreateAlert`'s return once the row is scanned: a scan error is wrapped. */
  function CreateResult(scanned: Result<GoAlert>): (r: Result<GoAlert>)
    ensures r.Err? <==> scanned.Err?
    ensures scanned.Err? ==> r.msg == "failed to create alert: " + scanned.msg
  {
    match scanned
      case Err(m) => Err("failed to create alert: " + m)
      case Ok(a) => Ok(a)
  }

  /** The row a fresh alert returns has a NULL `resolved_at`, so the scan as written always fails. */
  lemma NewAlertScanFails(id: int, serviceId: int, now: int)
    ensures ScanAlert(NewAlert(id, serviceId, now)) == Err(NullTimeScanError)
  {
  }

  /** A row of the `escalation_chains` table. */
  datatype ChainEntry = ChainEntry(id: int, serviceId: int, level: int, userId: int, waitTime: int)

  predicate LevelLe(a: ChainEntry, b: ChainEntry) {
    a.level <= b.level
  }

  lemma LevelLeIsTotalPreorder()
    ensures Sorting.TotalPreorder(LevelLe)
  {
  }

  /** The entries of `serviceId` whose user exists (the inner `JOIN users`), in table order. */
  function Matching(entries: seq<ChainEntry>, users: map<int, UserStore.User>, serviceId: int): (r: seq<ChainEntry>)
    ensures forall e :: e in r <==> e in entries && e.serviceId == serviceId && e.userId in users
    ensures forall e :: multiset(r)[e] ==
              if e.serviceId == serviceId && e.userId in users then multiset(entries)[e] else 0
  {
    if entries == [] then []
    else
      var rest := Matching(entries[1..], users, serviceId);
      assert entries == [entries[0]] + entries[1..];
      if entries[0].serviceId == serviceId && entries[0].userId in users then [entries[0]] + rest else rest
  }

  /** The rows the chain query yields: `WHERE ec.service_id = $1 ORDER BY ec.level ASC`. */
  function ChainRows(entries: seq<ChainEntry>, users: map<int, UserStore.User>, serviceId: int): (r: seq<ChainEntry>)
    ensures forall e :: e in r <==> e in entries && e.serviceId == serviceId && e.userId in users
    ensures multiset(r) == multiset(Matching(entries, users, serviceId))
    ensures Sorting.SortedBy(r, LevelLe)
  {
    var m := Matching(entries, users, serviceId);
    LevelLeIsTotalPreorder();
    Sorting.SortBySorted(m, LevelLe);
    var r := Sorting.SortBy(m, LevelLe);
    assert forall e :: e in r <==> e in multiset(r);
    assert forall e :: e in m <==> e in multiset(m);
    r
  }

  /** The columns the chain query selects: every user field except the password. */
  function ChainUser(u: UserStore.User): UserStore.User {
    u.(password := "")
  }

  /** The users of some chain rows, one per row. */
  function RowUsers(rows: seq<ChainEntry>, users: map<int, UserStore.User>): (chain: seq<UserStore.User>)
    requires forall e :: e in rows ==> e.userId in users
    ensures |chain| == |rows|
    ensures forall i :: 0 <= i < |rows| ==> chain[i] == ChainUser(users[rows[i].userId])
  {
    seq(|rows|, i requires 0 <= i < |rows| => assert rows[i] in rows; ChainUser(users[rows[i].userId]))
  }

  /** The users of the chain rows, one per row. */
  function ChainUsers(entries: seq<ChainEntry>, users: map<int, UserStore.User>, serviceId: int): (chain: seq<UserStore.User>)
    ensures var rows := ChainRows(entries, users, serviceId);
      && |chain| == |rows|
      && forall i :: 0 <= i < |rows| ==> rows[i].userId in users && chain[i] == ChainUser(users[rows[i].userId])
  {
    var rows := ChainRows(entries, users, serviceId);
    assert forall i :: 0 <= i < |rows| ==> rows[i] in rows;
    RowUsers(rows, users)
  }

  /**
   * How `rows.Next`/`rows.Scan` go for the chain rows: every row reads;
   * row `row` fails to scan; or `rows.Next` stops before row `row` (an
   * iteration error, which the code never asks `rows.Err` about).
   */
  datatype ChainRead = ReadAll | ScanFails(row: nat, err: string) | NextStops(row: nat)

  /** The number of chain rows the loop takes in when nothing fails to scan. */
  function RowsRead(n: nat, read: ChainRead): (k: nat)
    ensures k <= n
    ensures k < n <==> read.NextStops? && read.row < n
  {
    if read.NextStops? && read.row < n then read.row else n
  }

  /** Whether one of the `n` rows fails to scan. */
  predicate ScanFailed(n: nat, read: ChainRead) {
    read.ScanFails? && read.row < n
  }

  /**
   * The `rows.Next`/`rows.Scan` loop of `getEscalationChain` over the rows
   * the query yields.
   */
  method ScanChain(rows: seq<ChainEntry>, users: map<int, UserStore.User>, read: ChainRead)
    returns (r: Result<seq<UserStore.User>>)
    requires forall e :: e in rows ==> e.userId in users
    ensures ScanFailed(|rows|, read) ==> r == Err("failed to scan user: " + read.err)
    ensures !ScanFailed(|rows|, read) ==> r == Ok(RowUsers(rows, users)[..RowsRead(|rows|, read)])
  {
    ghost var all := RowUsers(rows, users);
    var chain: seq<UserStore.User> := [];
    var i := 0;
    while i < |rows| && !(read.NextStops? && read.row == i)
      invariant 0 <= i <= |rows|
      invariant read.NextStops? ==> i <= read.row
      invariant read.ScanFails? ==> i <= read.row
      invariant chain == all[..i]
    {
      if read.ScanFails? && read.row == i {
        return Err("failed to scan user: " + read.err);
      }
      assert rows[i] in rows;
      assert all[..i + 1] == all[..i] + [all[i]];
      chain := chain + [ChainUser(users[rows[i].userId])];
      i := i + 1;
    }
    assert i == RowsRead(|rows|, read);
    r := Ok(chain);
  }

  /**
   * `getEscalationChain`: one user per chain row read, in level order.
   * A failing query or a row that fails to scan yields the error and no
   * users; `rows.Next` stopping early yields the users read so far and no
   * error.
   */
  method GetEscalationChain(entries: seq<ChainEntry>, users: map<int, UserStore.User>, serviceId: int,
                            dbError: Option<string>, read: ChainRead)
    returns (r: Result<seq<UserStore.User>>)
    ensures dbError.Some? ==> r == Err("failed to get escalation chain: " + dbError.value)
    ensures var n := |ChainRows(entries, users, serviceId)|;
      dbError.None? && ScanFailed(n, read) ==> r == Err("failed to scan user: " + read.err)
    ensures var n := |ChainRows(entries, users, serviceId)|;
      dbError.None? && !ScanFailed(n, read) ==> r == Ok(ChainUsers(entries, users, serviceId)[..RowsRead(n, read)])
  {
    if dbError.Some? {
      return Err("failed to get escalation chain: " + dbError.value);
    }
    var rows := ChainRows(entries, users, serviceId);
    r := ScanChain(rows, users, read);
    assert RowUsers(rows, users) == ChainUsers(entries, users, serviceId);
  }

  /** The users the chain query yields are in ascending escalation level. */
  lemma ChainInLevelOrder(entries: seq<ChainEntry>, users: map<int, UserStore.User>, serviceId: int, i: int, j: int)
    requires 0 <= i < j < |ChainRows(entries, users, serviceId)|
    ensures ChainRows(entries, users, serviceId)[i].level <= ChainRows(entries, users, serviceId)[j].level
    ensures ChainRows(entries, users, serviceId)[i].serviceId == serviceId
  {
    var rows := ChainRows(entries, users, serviceId);
    assert rows[i] in rows;
    assert LevelLe(rows[i], rows[j]);
  }

  datatype Channel = Sms | Voice

  /** One notification sent by the escalation, and whether the provider accepted it. */
  datatype Notification = Notification(userId: int, phone: string, channel: Channel, message: string, delivered: bool)

  function AlertMessage(serviceId: int): string {
    "Service alert: Service ID " + Decimal.IntToDecimal(serviceId) + " is down"
  }

  function Notify(user: UserStore.User, channel: Channel, message: string, delivered: bool): Notification {
    Notification(user.id, user.phone, channel, message, delivered)
  }

  /**
   * Every notification the chain allows from `level` (0-based) on, when
   * nobody answers: per level an SMS, then a call. Attempt number `2 * level`
   * is the SMS of that level and `2 * level + 1` its call.
   */
  function Plan(chain: seq<UserStore.User>, message: string, delivered: nat -> bool, level: nat): seq<Notification>
    decreases |chain| - level
  {
    if level >= |chain| then []
    else [Notify(chain[level], Sms, message, delivered(2 * level)),
          Notify(chain[level], Voice, message, delivered(2 * level + 1))] +
         Plan(chain, message, delivered, level + 1)
  }

  /**
   * The notifications actually sent from `level` on. `responded(k)` is what
   * `waitForResponse` reports after attempt `k`; `delivered(k)` whether Twilio
   * accepted attempt `k` (a failure is only logged).
   */
  function Escalation(chain: seq<UserStore.User>, message: string, delivered: nat -> bool,
                      responded: nat -> bool, level: nat): (sent: seq<Notification>)
    ensures level < |chain| ==> 1 <= |sent| <= 2 * (|chain| - level)
    ensures level >= |chain| ==> sent == []
    ensures forall k :: 0 <= k < |sent| ==> sent[k].message == message
    decreases |chain| - level
  {
    if level >= |chain| then []
    else
      var sms := Notify(chain[level], Sms, message, delivered(2 * level));
      var call := Notify(chain[level], Voice, message, delivered(2 * level + 1));
      if responded(2 * level) then [sms]
      else if responded(2 * level + 1) then [sms, call]
      else [sms, call] + Escalation(chain, message, delivered, responded, level + 1)
  }

  /**
   * `startNotificationProcess` for an alert, its chain read from the
   * escalation tables: a chain that fails to load sends nothing, and a
   * chain cut short by `rows.Next` is escalated as far as it was read.
   */
  method StartNotificationProcess(alert: Alert, entries: seq<ChainEntry>, users: map<int, UserStore.User>,
                                  dbError: Option<string>, read: ChainRead,
                                  delivered: nat -> bool, responded: nat -> bool)
    returns (sent: seq<Notification>)
    ensures dbError.Some? || ScanFailed(|ChainRows(entries, users, alert.serviceId)|, read) ==> sent == []
    ensures var n := |ChainRows(entries, users, alert.serviceId)|;
      dbError.None? && !ScanFailed(n, read) ==>
      sent == Escalation(ChainUsers(entries, users, alert.serviceId)[..RowsRead(n, read)],
                         AlertMessage(alert.serviceId), delivered, responded, 0)
  {
    var loaded := GetEscalationChain(entries, users, alert.serviceId, dbError, read);
    if loaded.Err? {
      return [];
    }
    sent := Escalate(loaded.value, AlertMessage(alert.serviceId), delivered, responded);
  }

  /** The level loop of `startNotificationProcess`, `currentLevel` counting from 1 as in Go. */
  method Escalate(chain: seq<UserStore.User>, message: string, delivered: nat -> bool, responded: nat -> bool)
    returns (sent: seq<Notification>)
    ensures sent == Escalation(chain, message, delivered, responded, 0)
  {
    sent := [];
    var currentLevel := 1;
    while currentLevel <= |chain|
      invariant 1 <= currentLevel <= |chain| + 1
      invariant sent + Escalation(chain, message, delivered, responded, currentLevel - 1) ==
                Escalation(chain, message, delivered, responded, 0)
      decreases |chain| + 1 - currentLevel
    {
      var step, answered := NotifyLevel(chain, currentLevel - 1, message, delivered, responded);
      ghost var later := Escalation(chain, message, delivered, responded, currentLevel);
      assert !answered ==> (sent + step) + later == sent + (step + later);
      sent := sent + step;
      if answered {
        return;
      }
      currentLevel := currentLevel + 1;
    }
  }

  /** One level: SMS, wait, call, wait. */
  method NotifyLevel(chain: seq<UserStore.User>, level: nat, message: string, delivered: nat -> bool, responded: nat -> bool)
    returns (step: seq<Notification>, answered: bool)
    requires level < |chain|
    ensures answered ==> step == Escalation(chain, message, delivered, responded, level)
    ensures !answered ==> step + Escalation(chain, message, delivered, responded, level + 1) ==
                          Escalation(chain, message, delivered, responded, level)
  {
    var user := chain[level];
    var k := 2 * level;
    step := [Notification(user.id, user.phone, Sms, message, delivered(k))];
    if responded(k) {
      return step, true;
    }
    step := step + [Notification(user.id, user.phone, Voice, message, delivered(k + 1))];
    if responded(k + 1) {
      return step, true;
    }
    answered := false;
  }

  /** Entry `2 * l` of the plan is level `level + l`'s SMS, entry `2 * l + 1` its call. */
  lemma {:induction false} PlanAt(chain: seq<UserStore.User>, message: string, delivered: nat -> bool, level: nat, l: nat)
    requires level + l < |chain|
    ensures |Plan(chain, message, delivered, level)| == 2 * (|chain| - level)
    ensures Plan(chain, message, delivered, level)[2 * l] ==
            Notify(chain[level + l], Sms, message, delivered(2 * (level + l)))
    ensures Plan(chain, message, delivered, level)[2 * l + 1] ==
            Notify(chain[level + l], Voice, message, delivered(2 * (level + l) + 1))
    decreases l
  {
    PlanLength(chain, message, delivered, level);
    if l > 0 {
      PlanAt(chain, message, delivered, level + 1, l - 1);
    }
  }

  lemma {:induction false} PlanLength(chain: seq<UserStore.User>, message: string, delivered: nat -> bool, level: nat)
    ensures |Plan(chain, message, delivered, level)| == if level >= |chain| then 0 else 2 * (|chain| - level)
    decreases |chain| - level
  {
    if level < |chain| {
      PlanLength(chain, message, delivered, level + 1);
    }
  }

  /**
   * The escalation follows the plan and stops only at a response: what is
   * sent is a prefix of the plan, nobody answered before its last
   * notification, and a prefix shorter than the plan ends on an answer.
   */
  lemma {:induction false} EscalationFollowsPlan(chain: seq<UserStore.User>, message: string, delivered: nat -> bool,
                                                 responded: nat -> bool, level: nat)
    requires level <= |chain|
    ensures var sent := Escalation(chain, message, delivered, responded, level);
            var plan := Plan(chain, message, delivered, level);
      && |plan| == 2 * (|chain| - level)
      && |sent| <= |plan| && sent == plan[..|sent|]
      && (forall j :: 2 * level <= j < 2 * level + |sent| - 1 ==> !responded(j))
      && (|sent| < |plan| ==> |sent| > 0 && responded(2 * level + |sent| - 1))
    decreases |chain| - level
  {
    if level < |chain| {
      EscalationFollowsPlan(chain, message, delivered, responded, level + 1);
      var sent := Escalation(chain, message, delivered, responded, level);
      var plan := Plan(chain, message, delivered, level);
      if !responded(2 * level) && !responded(2 * level + 1) {
        var rest := Escalation(chain, message, delivered, responded, level + 1);
        var restPlan := Plan(chain, message, delivered, level + 1);
        assert sent == plan[..2] + rest;
        assert plan == plan[..2] + restPlan;
        assert plan[..|sent|] == plan[..2] + restPlan[..|rest|];
      }
    }
  }

  /** Without any response the escalation sends the whole plan: two notifications per level, then ends. */
  lemma {:induction false} EscalationWithoutResponse(chain: seq<UserStore.User>, message: string,
                                                     delivered: nat -> bool, responded: nat -> bool, level: nat)
    requires level <= |chain|
    requires forall j :: 2 * level <= j < 2 * |chain| ==> !responded(j)
    ensures Escalation(chain, message, delivered, responded, level) == Plan(chain, message, delivered, level)
    ensures |Escalation(chain, message, delivered, responded, level)| == 2 * (|chain| - level)
    decreases |chain| - level
  {
    if level < |chain| {
      assert !responded(2 * level) && !responded(2 * level + 1);
      EscalationWithoutResponse(chain, message, delivered, responded, level + 1);
    }
  }

  /**
   * A chain that `rows.Next` cuts short after `k` of its rows loads with no
   * error, so when nobody answers only the first `k` levels are notified:
   * `2 * k` attempts instead of two for every level of the chain.
   */
  lemma CutChainShortensEscalation(entries: seq<ChainEntry>, users: map<int, UserStore.User>, serviceId: int,
                                   k: nat, message: string, delivered: nat -> bool, responded: nat -> bool)
    requires k < |ChainRows(entries, users, serviceId)|
    requires forall j :: !responded(j)
    ensures var chain := ChainUsers(entries, users, serviceId);
            var sent := Escalation(chain[..RowsRead(|chain|, NextStops(k))], message, delivered, responded, 0);
      && sent == Plan(chain[..k], message, delivered, 0)
      && |sent| == 2 * k < 2 * |chain|
  {
    var chain := ChainUsers(entries, users, serviceId);
    assert RowsRead(|chain|, NextStops(k)) == k;
    EscalationWithoutResponse(chain[..k], message, delivered, responded, 0);
  }

  /** SMS or call failures do not change who is contacted, how, or when the escalation stops. */
  lemma {:induction false} EscalationIgnoresDelivery(chain: seq<UserStore.User>, message: string,
                                                     d1: nat -> bool, d2: nat -> bool, responded: nat -> bool, level: nat)
    requires level <= |chain|
    ensures var s1 := Escalation(chain, message, d1, responded, level);
            var s2 := Escalation(chain, message, d2, responded, level);
      && |s1| == |s2|
      && forall i :: 0 <= i < |s1| ==> s1[i].(delivered := true) == s2[i].(delivered := true)
    decreases |chain| - level
  {
    if level < |chain| {
      EscalationIgnoresDelivery(chain, message, d1, d2, responded, level + 1);
      var s1 := Escalation(chain, message, d1, responded, level);
      var s2 := Escalation(chain, message, d2, responded, level);
      var r1 := Escalation(chain, message, d1, responded, level + 1);
      var r2 := Escalation(chain, message, d2, responded, level + 1);
      forall i | 0 <= i < |s1| ensures s1[i].(delivered := true) == s2[i].(delivered := true) {
        if i > 1 && !responded(2 * level) && !responded(2 * level + 1) {
          assert s1[i] == r1[i - 2] && s2[i] == r2[i - 2];
        }
      }
    }
  }

  class AlertTable {
    var rows: map<int, Alert>
    var nextId: int

    ghost predicate Valid()
      reads this
    {
      nextId >= 1 &&
      forall id :: id in rows ==> 1 <= id < nextId && rows[id].id == id && Consistent(rows[id])
    }

    constructor ()
      ensures Valid() && rows == map[] && nextId == 1
    {
      rows := map[];
      nextId := 1;
    }

    /**
     * `CreateAlert` with the returned row read into a nullable time: the
     * row is inserted as `(active, pending)` and returned.
     */
    method CreateAlert(serviceId: int, now: int, dbError: Option<string>) returns (r: Result<Alert>)
      requires Valid()
      modifies this
      ensures Valid()
      ensures dbError.Some? ==>
        r == Err("failed to create alert: " + dbError.value) && rows == old(rows) && nextId == old(nextId)
      ensures dbError.None? ==>
        && r == Ok(NewAlert(old(nextId), serviceId, now))
        && rows == old(rows)[old(nextId) := r.value]
        && nextId == old(nextId) + 1
    {
      if dbError.Some? {
        return Err("failed to create alert: " + dbError.value);
      }
      var alert := NewAlert(nextId, serviceId, now);
      rows := rows[nextId := alert];
      nextId := nextId + 1;
      r := Ok(alert);
    }

    /**
     * `CreateAlert` as written: the insert succeeds, then scanning the NULL
     * `resolved_at` into `models.Alert` fails, so the caller gets an error
     * although the row stays.
     */
    method CreateAlertAsWritten(serviceId: int, now: int, dbError: Option<string>) returns (r: Result<GoAlert>)
      requires Valid()
      modifies this
      ensures Valid()
      ensures r.Err?
      ensures dbError.None? ==>
        && r == Err("failed to create alert: " + NullTimeScanError)
        && rows == old(rows)[old(nextId) := NewAlert(old(nextId), serviceId, now)]
        && nextId == old(nextId) + 1
      ensures dbError.Some? ==> rows == old(rows) && nextId == old(nextId)
    {
      if dbError.Some? {
        return Err("failed to create alert: " + dbError.value);
      }
      var row := NewAlert(nextId, serviceId, now);
      rows := rows[nextId := row];
      nextId := nextId + 1;
      r := CreateResult(ScanAlert(row));
    }

    /** `ResolveAlert`: an unknown id matches no row and is not an error. */
    method ResolveAlert(alertId: int, now: int, dbError: Option<string>) returns (err: Option<string>)
      requires Valid()
      modifies this
      ensures Valid() && nextId == old(nextId)
      ensures dbError.Some? ==> err == Some("failed to resolve alert: " + dbError.value) && rows == old(rows)
      ensures dbError.None? ==> err == None
      ensures dbError.None? && alertId in old(rows) ==> rows == old(rows)[alertId := Resolve(old(rows)[alertId], now)]
      ensures alertId !in old(rows) ==> rows == old(rows)
    {
      if dbError.Some? {
        return Some("failed to resolve alert: " + dbError.value);
      }
      if alertId in rows {
        rows := rows[alertId := Resolve(rows[alertId], now)];
      }
      err := None;
    }

    /** `VerifyAlert`: an unknown id matches no row and is not an error. */
    method VerifyAlert(alertId: int, dbError: Option<string>) returns (err: Option<string>)
      requires Valid()
      modifies this
      ensures Valid() && nextId == old(nextId)
      ensures dbError.Some? ==> err == Some("failed to verify alert: " + dbError.value) && rows == old(rows)
      ensures dbError.None? ==> err == None
      ensures dbError.None? && alertId in old(rows) ==> rows == old(rows)[alertId := Verify(old(rows)[alertId])]
      ensures alertId !in old(rows) ==> rows == old(rows)
    {
      if dbError.Some? {
        return Some("failed to verify alert: " + dbError.value);
      }
      if alertId in rows {
        rows := rows[alertId := Verify(rows[alertId])];
      }
      err := None;
    }
  }
}
