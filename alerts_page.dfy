/** The Alerts page (frontend/src/pages/Alerts.tsx). */
module AlertsPage {
  import opened Wrappers
  import opened ClientApi
  import Lists
  import Dashboard

  predicate IsResolved(a: Alert) {
    a.status == Resolved
  }

  function ActiveList(alerts: Option<seq<Alert>>): seq<Alert> {
    Lists.Filter(Dashboard.OrEmpty(alerts), Dashboard.IsActive)
  }

  function ResolvedList(alerts: Option<seq<Alert>>): seq<Alert> {
    Lists.Filter(Dashboard.OrEmpty(alerts), IsResolved)
  }

  /** The active and resolved lists split the fetched alerts: disjoint, covering, each in fetched order. */
  lemma ListsPartition(alerts: seq<Alert>)
    ensures multiset(ActiveList(Some(alerts))) + multiset(ResolvedList(Some(alerts))) == multiset(alerts)
    ensures |ActiveList(Some(alerts))| + |ResolvedList(Some(alerts))| == |alerts|
    ensures forall a :: !(a in ActiveList(Some(alerts)) && a in ResolvedList(Some(alerts)))
  {
    forall a | a in alerts ensures Dashboard.IsActive(a) != IsResolved(a) {
      if a.status == Active {
        assert !IsResolved(a);
      }
    }
    Lists.FilterPartition(alerts, Dashboard.IsActive, IsResolved);
  }

  lemma ListsKeepOrder(before: seq<Alert>, after: seq<Alert>)
    ensures ActiveList(Some(before + after)) == ActiveList(Some(before)) + ActiveList(Some(after))
    ensures ResolvedList(Some(before + after)) == ResolvedList(Some(before)) + ResolvedList(Some(after))
  {
    Lists.FilterAppend(before, after, Dashboard.IsActive);
    Lists.FilterAppend(before, after, IsResolved);
  }

  /** One card: its alert, whether it has the Resolve and Verify buttons, and the "Resolved:" line if any. */
  datatype Card = Card(alert: Alert, actions: bool, resolvedLine: Option<string>)

  /** `alert.resolved_at && ...`: null and the empty string both hide the line. */
  function ResolvedLine(a: Alert): (line: Option<string>)
    ensures line.Some? <==> a.resolvedAt.Some? && a.resolvedAt.value != ""
  {
    if a.resolvedAt.Some? && a.resolvedAt.value != "" then a.resolvedAt else None
  }

  function ActiveCard(a: Alert): Card {
    Card(a, true, None)
  }

  function ResolvedCard(a: Alert): Card {
    Card(a, false, ResolvedLine(a))
  }

  /** The alerts shown by a run of cards, in order. */
  function AlertsOf(cards: seq<Card>): (s: seq<Alert>)
    ensures |s| == |cards| && forall i :: 0 <= i < |cards| ==> s[i] == cards[i].alert
  {
    seq(|cards|, i requires 0 <= i < |cards| => cards[i].alert)
  }

  /**
   * The page once loaded: the active section, then the resolved section,
   * each in fetched order. Active cards carry the actions and no resolved
   * line; resolved cards carry no actions and their resolved line.
   */
  function Cards(alerts: Option<seq<Alert>>): (cards: seq<Card>)
    ensures |cards| == |ActiveList(alerts)| + |ResolvedList(alerts)|
    ensures AlertsOf(cards) == ActiveList(alerts) + ResolvedList(alerts)
    ensures forall i :: 0 <= i < |ActiveList(alerts)| ==>
              cards[i].actions && cards[i].resolvedLine.None?
    ensures forall j :: 0 <= j < |ResolvedList(alerts)| ==>
              !cards[|ActiveList(alerts)| + j].actions &&
              cards[|ActiveList(alerts)| + j].resolvedLine == ResolvedLine(ResolvedList(alerts)[j])
  {
    var active := ActiveList(alerts);
    var resolved := ResolvedList(alerts);
    seq(|active|, i requires 0 <= i < |active| => ActiveCard(active[i])) +
    seq(|resolved|, i requires 0 <= i < |resolved| => ResolvedCard(resolved[i]))
  }

  /** A card offers Resolve and Verify exactly when its alert is active; only resolved cards show a resolved time. */
  lemma ActionsOnlyOnActive(alerts: Option<seq<Alert>>)
    ensures forall c :: c in Cards(alerts) ==> (c.actions <==> c.alert.status == Active)
    ensures forall c :: c in Cards(alerts) && c.resolvedLine.Some? ==> c.alert.status == Resolved
    ensures forall c :: c in Cards(alerts) ==> c.alert in Dashboard.OrEmpty(alerts)
  {
    var active := ActiveList(alerts);
    var resolved := ResolvedList(alerts);
    var cards := Cards(alerts);
    forall c | c in cards
      ensures (c.actions <==> c.alert.status == Active)
      ensures c.resolvedLine.Some? ==> c.alert.status == Resolved
      ensures c.alert in Dashboard.OrEmpty(alerts)
    {
      var i :| 0 <= i < |cards| && cards[i] == c;
      var shown := ActiveList(alerts) + ResolvedList(alerts);
      assert c.alert == AlertsOf(cards)[i] == shown[i];
      if i < |active| {
        assert shown[i] == active[i] && active[i] in active;
      } else {
        var j := i - |active|;
        assert shown[i] == resolved[j] && resolved[j] in resolved;
        assert c == cards[|active| + j];
      }
    }
  }

  /** The keys a resolve or verify mutation invalidates once it settles with `status`. */
  function AfterMutation(status: int): (keys: set<QueryKey>)
    ensures IsOk(status) ==> keys == {AlertsKey}
    ensures !IsOk(status) ==> keys == {}
  {
    if IsOk(status) then {AlertsKey} else {}
  }
}
