/** The Dashboard page (frontend/src/pages/Dashboard.tsx): counters and lists derived from two queries. */
module Dashboard {
  import opened Wrappers
  import opened ClientApi
  import Lists

  /** `data?.filter(...) || []`: data not yet fetched reads as an empty list. */
  function OrEmpty<T>(data: Option<seq<T>>): (s: seq<T>)
    ensures data.None? ==> s == []
    ensures data.Some? ==> s == data.value
  {
    if data.Some? then data.value else []
  }

  predicate IsUp(s: Service) {
    s.status == Some(Up)
  }

  predicate IsDown(s: Service) {
    s.status == Some(Down)
  }

  predicate IsActive(a: Alert) {
    a.status == Active
  }

  function UpServices(services: Option<seq<Service>>): seq<Service> {
    Lists.Filter(OrEmpty(services), IsUp)
  }

  function DownServices(services: Option<seq<Service>>): seq<Service> {
    Lists.Filter(OrEmpty(services), IsDown)
  }

  function ActiveAlerts(alerts: Option<seq<Alert>>): seq<Alert> {
    Lists.Filter(OrEmpty(alerts), IsActive)
  }

  /** `services?.length || 0`. */
  function Total(services: Option<seq<Service>>): (n: nat)
    ensures n == |OrEmpty(services)|
  {
    if services.Some? then |services.value| else 0
  }

  /** `downServices.length / (services?.length || 1) * 100`, before `toFixed(1)`. */
  function DownPercent(services: Option<seq<Service>>): (r: real)
    ensures 0.0 <= r <= 100.0
    ensures Total(services) == 0 ==> r == 0.0
    ensures Total(services) > 0 ==> r * Total(services) as real == |DownServices(services)| as real * 100.0
  {
    var down := |DownServices(services)| as real;
    var divisor := if Total(services) == 0 then 1 else Total(services);
    assert down <= divisor as real;
    DivisionBounded(down, divisor as real);
    (down / divisor as real) * 100.0
  }

  lemma DivisionBounded(x: real, y: real)
    requires 0.0 <= x <= y && y >= 1.0
    ensures 0.0 <= x / y <= 1.0
    ensures (x / y) * 100.0 * y == x * 100.0
  {
  }

  /** What the page shows. */
  datatype View =
    | Loading
    | Ready(up: nat, total: nat, down: nat, downPercent: real, active: nat,
            recent: seq<Alert>, noActiveAlerts: bool)

  function Render(servicesLoading: bool, alertsLoading: bool,
                  services: Option<seq<Service>>, alerts: Option<seq<Alert>>): (v: View)
    ensures v.Loading? <==> servicesLoading || alertsLoading
    ensures v.Ready? ==>
      && v.up == |UpServices(services)| && v.down == |DownServices(services)| && v.total == Total(services)
      && v.recent == ActiveAlerts(alerts) && v.active == |v.recent|
      && (v.noActiveAlerts <==> v.recent == [])
      && v.downPercent == DownPercent(services)
  {
    if servicesLoading || alertsLoading then Loading
    else
      var active := ActiveAlerts(alerts);
      Ready(|UpServices(services)|, Total(services), |DownServices(services)|, DownPercent(services),
            |active|, active, |active| == 0)
  }

  /** When every service carries a status, the up and down counters add up to the total. */
  lemma CountersCoverTotal(services: seq<Service>)
    requires forall s :: s in services ==> s.status.Some?
    ensures |UpServices(Some(services))| + |DownServices(Some(services))| == Total(Some(services))
  {
    forall s | s in services ensures IsUp(s) != IsDown(s) {
      assert s.status.Some?;
      if s.status.value == Up {
        assert IsUp(s);
        assert !IsDown(s);
      } else {
        assert s.status.value == Down;
        assert IsDown(s);
      }
    }
    Lists.FilterPartition(services, IsUp, IsDown);
  }

  /** The active alerts are those of the fetched list, in the fetched order. */
  lemma ActiveAlertsInOrder(before: seq<Alert>, after: seq<Alert>)
    ensures ActiveAlerts(Some(before + after)) == ActiveAlerts(Some(before)) + ActiveAlerts(Some(after))
    ensures forall a :: a in ActiveAlerts(Some(before + after)) <==> a in before + after && a.status == Active
  {
    Lists.FilterAppend(before, after, IsActive);
  }

  /** With no data yet, the counters are zero and the percentage is 0. */
  lemma NoDataView()
    ensures Render(false, false, None, None) == Ready(0, 0, 0, 0.0, 0, [], true)
  {
  }

  /** One service up and one down: 50% are down. */
  lemma HalfDown(up: Service, down: Service)
    requires IsUp(up) && IsDown(down)
    ensures DownPercent(Some([up, down])) == 50.0
  {
    assert [up, down][1..] == [down];
    assert DownServices(Some([up, down])) == [down];
  }
}
