/** `HealthCheckService` (backend/internal/services/health_check.go). */
module HealthCheck {
  import opened Wrappers
  import Decimal
  import ServiceStore

  /** What the HTTP GET of a service's URL gave: a transport error, or a status code after `elapsedMs`. */
  datatype Probe = TransportFailed(message: string) | Responded(code: int, elapsedMs: int)

  datatype Status = Up | Down

  /** The values `CheckService` hands to `recordHealthCheck`. */
  datatype Outcome = Outcome(status: Status, responseTime: int, error: string)

  predicate IsSuccess(code: int) {
    200 <= code < 300
  }

  /** The classification in `CheckService`. */
  function Classify(probe: Probe): (o: Outcome)
    ensures o.status == Up <==> probe.Responded? && IsSuccess(probe.code)
    ensures o.status == Up ==> o.error == ""
    ensures probe.TransportFailed? ==> o.responseTime == 0 && o.error == probe.message
    ensures probe.Responded? ==> o.responseTime == probe.elapsedMs
    ensures probe.Responded? && !IsSuccess(probe.code) ==>
              o.error == "HTTP " + Decimal.IntToDecimal(probe.code)
  {
    match probe
      case TransportFailed(message) => Outcome(Down, 0, message)
      case Responded(code, elapsed) =>
        if IsSuccess(code) then Outcome(Up, elapsed, "")
        else Outcome(Down, elapsed, "HTTP " + Decimal.IntToDecimal(code))
  }

  /**
   * The error text of a non-2xx response names the code: reading back the
   * digits after "HTTP " gives the code again, so different codes give
   * different texts.
   */
  lemma ErrorNamesCode(code: int, elapsed: int)
    requires !IsSuccess(code) && Decimal.Int64Min <= code <= Decimal.Int64Max
    ensures var e := Classify(Responded(code, elapsed)).error;
            |e| > 5 && e[..5] == "HTTP " && Decimal.ParseInt64(e[5..]) == Some(code)
  {
    var e := Classify(Responded(code, elapsed)).error;
    assert e[5..] == Decimal.IntToDecimal(code);
    Decimal.ParseIntToDecimal(code);
  }

  /** A row of `health_checks`. */
  datatype Check = Check(id: int, serviceId: int, status: Status, responseTime: int, error: string, checkedAt: int)

  const LatestPrefix := "failed to get latest health check: "

  /** The error `database/sql` reports when `QueryRow` selects nothing. */
  const NoRows := "sql: no rows in result set"

  class HealthCheckTable {
    var rows: seq<Check>
    var nextId: int

    ghost predicate Valid()
      reads this
    {
      nextId >= 1 && forall i :: 0 <= i < |rows| ==> 1 <= rows[i].id < nextId
    }

    constructor ()
      ensures Valid() && rows == [] && nextId == 1
    {
      rows := [];
      nextId := 1;
    }

    /** `recordHealthCheck`: INSERT ... RETURNING, stamped with `now`. */
    method RecordHealthCheck(serviceId: int, outcome: Outcome, now: int, dbError: Option<string>)
      returns (r: Result<Check>)
      requires Valid()
      modifies this
      ensures Valid()
      ensures dbError.Some? ==> r == Err("failed to record health check: " + dbError.value) && unchanged(this)
      ensures dbError.None? ==>
        && r == Ok(Check(old(nextId), serviceId, outcome.status, outcome.responseTime, outcome.error, now))
        && rows == old(rows) + [r.value] && nextId == old(nextId) + 1
    {
      if dbError.Some? {
        return Err("failed to record health check: " + dbError.value);
      }
      var check := Check(nextId, serviceId, outcome.status, outcome.responseTime, outcome.error, now);
      rows := rows + [check];
      nextId := nextId + 1;
      r := Ok(check);
    }

    /** `CheckService`: probe the URL (the `probe` argument), classify, record. */
    method CheckService(service: ServiceStore.Service, probe: Probe, now: int, dbError: Option<string>)
      returns (r: Result<Check>)
      requires Valid()
      modifies this
      ensures Valid()
      ensures dbError.Some? ==> r == Err("failed to record health check: " + dbError.value) && unchanged(this)
      ensures dbError.None? ==>
        && r.Ok? && r.value.serviceId == service.id && r.value.checkedAt == now
        && Outcome(r.value.status, r.value.responseTime, r.value.error) == Classify(probe)
        && rows == old(rows) + [r.value]
    {
      var outcome := Classify(probe);
      r := RecordHealthCheck(service.id, outcome, now, dbError);
    }

    /** ORDER BY checked_at DESC LIMIT 1 over the checks of one service. */
    method GetLatestHealthCheck(serviceId: int, dbError: Option<string>) returns (r: Result<Check>)
      ensures dbError.Some? ==> r == Err(LatestPrefix + dbError.value)
      ensures dbError.None? && (forall i :: 0 <= i < |rows| ==> rows[i].serviceId != serviceId) ==>
                r == Err(LatestPrefix + NoRows)
      ensures r.Ok? ==> r.value in rows && r.value.serviceId == serviceId
      ensures r.Ok? ==> forall i :: 0 <= i < |rows| && rows[i].serviceId == serviceId ==>
                          rows[i].checkedAt <= r.value.checkedAt
      ensures dbError.None? && (exists i :: 0 <= i < |rows| && rows[i].serviceId == serviceId) ==> r.Ok?
    {
      if dbError.Some? {
        return Err(LatestPrefix + dbError.value);
      }
      var latest: Option<Check> := None;
      for i := 0 to |rows|
        invariant latest.None? <==> forall j :: 0 <= j < i ==> rows[j].serviceId != serviceId
        invariant latest.Some? ==> latest.value in rows[..i] && latest.value.serviceId == serviceId
        invariant latest.Some? ==> forall j :: 0 <= j < i && rows[j].serviceId == serviceId ==>
                    rows[j].checkedAt <= latest.value.checkedAt
      {
        if rows[i].serviceId == serviceId && (latest.None? || rows[i].checkedAt > latest.value.checkedAt) {
          latest := Some(rows[i]);
        }
      }
      if latest.None? {
        return Err(LatestPrefix + NoRows);
      }
      assert rows[..|rows|] == rows;
      r := Ok(latest.value);
    }
  }
}
