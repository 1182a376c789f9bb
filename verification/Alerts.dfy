/** The alert store of `iob-integration/gateway_app/store.py`. Every operation holds the lock throughout,
    so a concurrent run is some sequence of whole operations, recorded here as `history`. */
module Alerts {
  import opened Lists

  datatype Status = Active | Resolved | Closed

  datatype Alert = Alert(id: string, alertId: string, assetId: string, metric: string, value: real, status: Status)

  /** An absent or empty filter is the empty string. */
  datatype Event = Inject(alert: Alert) | Resolve(alertId: string, assetId: string) | Clear

  predicate IsOpen(a: Alert) {
    a.status != Resolved && a.status != Closed
  }

  predicate Matches(alertId: string, assetId: string, a: Alert) {
    (alertId == "" || a.id == alertId || a.alertId == alertId) && (assetId == "" || a.assetId == assetId)
  }

  function AfterResolve(alertId: string, assetId: string, a: Alert): Alert {
    if Matches(alertId, assetId, a) && IsOpen(a) then a.(status := Resolved) else a
  }

  function ResolveEach(alertId: string, assetId: string, alerts: seq<Alert>): (r: seq<Alert>)
    ensures |r| == |alerts|
  {
    seq(|alerts|, i requires 0 <= i < |alerts| => AfterResolve(alertId, assetId, alerts[i]))
  }

  function OpenOnes(alerts: seq<Alert>): seq<Alert> {
    Filter(IsOpen, alerts)
  }

  /** The open alerts that a resolve call would match. */
  function Hit(alertId: string, assetId: string): Alert -> bool {
    (a: Alert) => Matches(alertId, assetId, a) && IsOpen(a)
  }

  /** The copies a resolve call returns. */
  function Returned(alertId: string, assetId: string, alerts: seq<Alert>): seq<Alert> {
    Map(AsResolved(), Filter(Hit(alertId, assetId), alerts))
  }

  function AsResolved(): Alert -> Alert {
    (a: Alert) => a.(status := Resolved)
  }

  /** Which alerts a resolve call takes: by an identifier, by an asset, by both, or, without filters, all open ones. */
  lemma ResolveTakes(alertId: string, assetId: string, a: Alert)
    ensures var taken := a.(status := Resolved) in Returned(alertId, assetId, [a]);
            && (alertId != "" && assetId == "" ==> (taken <==> IsOpen(a) && (a.id == alertId || a.alertId == alertId)))
            && (alertId == "" && assetId != "" ==> (taken <==> IsOpen(a) && a.assetId == assetId))
            && (alertId != "" && assetId != "" ==>
                 (taken <==> IsOpen(a) && (a.id == alertId || a.alertId == alertId) && a.assetId == assetId))
            && (alertId == "" && assetId == "" ==> (taken <==> IsOpen(a)))
            && (IsOpen(a) <==> a.status == Active)
            && ResolveEach(alertId, assetId, [a]) == [if taken then a.(status := Resolved) else a]
  {
    FilterOne(Hit(alertId, assetId), a);
    var b := a.(status := Resolved);
    assert Returned(alertId, assetId, [a]) == if Hit(alertId, assetId)(a) then [b] else [];
  }

  /** Every alert is resolved or left alone by itself, in its place, */
  lemma ResolveIsPointwise(alertId: string, assetId: string, xs: seq<Alert>, ys: seq<Alert>)
    ensures ResolveEach(alertId, assetId, xs + ys) == ResolveEach(alertId, assetId, xs) + ResolveEach(alertId, assetId, ys)
  {
  }

  /** and the returned ones keep their order. */
  lemma {:induction false} ReturnedInOrder(alertId: string, assetId: string, xs: seq<Alert>, ys: seq<Alert>)
    ensures Returned(alertId, assetId, xs + ys) == Returned(alertId, assetId, xs) + Returned(alertId, assetId, ys)
  {
    FilterAppend(Hit(alertId, assetId), xs, ys);
    MapAppend(AsResolved(), Filter(Hit(alertId, assetId), xs), Filter(Hit(alertId, assetId), ys));
  }

  // ---------------------------------------------------------------- the store

  function Apply(e: Event, alerts: seq<Alert>): seq<Alert> {
    match e
    case Inject(a) => alerts + [a]
    case Resolve(alertId, assetId) => ResolveEach(alertId, assetId, alerts)
    case Clear => []
  }

  /** The stored alerts after a sequence of operations. */
  function Replay(h: seq<Event>): seq<Alert> {
    if h == [] then [] else Apply(Last(h), Replay(Init(h)))
  }

  /** Only open alerts are injected. */
  ghost predicate InjectsOpen(h: seq<Event>) {
    forall i :: 0 <= i < |h| ==> h[i].Inject? ==> IsOpen(h[i].alert)
  }

  lemma ReplayStep(h: seq<Event>, e: Event)
    ensures Replay(h + [e]) == Apply(e, Replay(h))
    ensures InjectsOpen(h) && (e.Inject? ==> IsOpen(e.alert)) ==> InjectsOpen(h + [e])
  {
    assert Init(h + [e]) == h && Last(h + [e]) == e;
  }

  /** One turn of the resolve loop: on the alerts, */
  lemma ResolveStep(alertId: string, assetId: string, before: seq<Alert>, i: nat, now: seq<Alert>, a: Alert)
    requires i < |before| && a == before[i] && now == ResolveEach(alertId, assetId, before[..i]) + before[i..]
    ensures now[i] == a
    ensures now[i := AfterResolve(alertId, assetId, a)] == ResolveEach(alertId, assetId, before[..i + 1]) + before[i + 1..]
  {
    ResolveSnoc(alertId, assetId, before[..i], a, before[..i + 1]);
  }

  /** and on the list returned. */
  lemma ReturnedStep(alertId: string, assetId: string, before: seq<Alert>, i: nat, a: Alert)
    requires i < |before| && a == before[i]
    ensures Returned(alertId, assetId, before[..i + 1]) ==
            Returned(alertId, assetId, before[..i]) + if Hit(alertId, assetId)(a) then [a.(status := Resolved)] else []
  {
    var front := before[..i];
    assert before[..i + 1] == front + [a];
    FilterSnoc(Hit(alertId, assetId), front, a);
  }

  class AlertStore {
    var alerts: seq<Alert>
    ghost var history: seq<Event>

    ghost predicate Valid()
      reads this
    {
      alerts == Replay(history) && InjectsOpen(history)
    }

    constructor ()
      ensures Valid() && history == []
    {
      alerts, history := [], [];
    }

    /** The two identifiers are newly made ones. */
    method InjectAlert(id: string, alertId: string, assetId: string, metric: string, value: real) returns (alert: Alert)
      requires Valid()
      modifies this
      ensures Valid() && history == old(history) + [Inject(alert)]
      ensures alert == Alert(id, alertId, assetId, metric, value, Active)
    {
      alert := Alert(id, alertId, assetId, metric, value, Active);
      ReplayStep(history, Inject(alert));
      alerts := alerts + [alert];
      history := history + [Inject(alert)];
    }

    method GetActiveAlerts() returns (active: seq<Alert>)
      requires Valid()
      ensures active == LiveAlerts(history)
    {
      active := OpenOnes(alerts);
      ActiveIsLive(history);
    }

    /** The loop over all alerts. */
    method ResolveMatching(alertId: string, assetId: string) returns (resolved: seq<Alert>)
      modifies `alerts
      ensures alerts == ResolveEach(alertId, assetId, old(alerts))
      ensures resolved == Returned(alertId, assetId, old(alerts))
    {
      ghost var before := alerts;
      resolved := [];
      for i := 0 to |alerts|
        invariant |alerts| == |before|
        invariant alerts == ResolveEach(alertId, assetId, before[..i]) + before[i..]
        invariant resolved == Returned(alertId, assetId, before[..i])
      {
        ResolveStep(alertId, assetId, before, i, alerts, before[i]);
        ReturnedStep(alertId, assetId, before, i, before[i]);
        if Matches(alertId, assetId, alerts[i]) && IsOpen(alerts[i]) {
          alerts := alerts[i := alerts[i].(status := Resolved)];
          resolved := resolved + [alerts[i]];
        }
      }
      assert before[..|before|] == before && before[|before|..] == [];
    }

    /** Resolve the open alerts that match, and return copies of them. */
    method ResolveAlerts(alertId: Option<string>, assetId: Option<string>) returns (resolved: seq<Alert>)
      requires Valid()
      modifies this
      ensures var byId, byAsset := if alertId.Some? then alertId.value else "", if assetId.Some? then assetId.value else "";
              && Valid() && history == old(history) + [Resolve(byId, byAsset)]
              && resolved == Returned(byId, byAsset, Replay(old(history)))
    {
      var byId := if alertId.Some? then alertId.value else "";
      var byAsset := if assetId.Some? then assetId.value else "";
      resolved := ResolveMatching(byId, byAsset);
      ReplayStep(history, Resolve(byId, byAsset));
      history := history + [Resolve(byId, byAsset)];
    }

    method ClearAlerts()
      requires Valid()
      modifies this
      ensures Valid() && history == old(history) + [Clear]
    {
      ReplayStep(history, Clear);
      alerts := [];
      history := history + [Clear];
    }
  }

  // ---------------------------------------------------------------- which alerts are live

  /** A later operation that takes an open alert off the active list. */
  predicate Ends(e: Event, a: Alert) {
    e.Clear? || (e.Resolve? && Matches(e.alertId, e.assetId, a))
  }

  /** Event `i` injected an open alert that nothing after it has ended. */
  predicate LiveAt(h: seq<Event>, i: nat)
    requires i < |h|
  {
    h[i].Inject? && IsOpen(h[i].alert) && forall j :: i < j < |h| ==> !Ends(h[j], h[i].alert)
  }

  /** The alerts injected by the first `n` events that are live at the end of `h`, in injection order. */
  function LiveAmong(h: seq<Event>, n: nat): seq<Alert>
    requires n <= |h|
  {
    if n == 0 then []
    else if LiveAt(h, n - 1) then LiveAmong(h, n - 1) + [h[n - 1].alert]
    else LiveAmong(h, n - 1)
  }

  function LiveAlerts(h: seq<Event>): seq<Alert> {
    LiveAmong(h, |h|)
  }

  function Spared(e: Event): Alert -> bool {
    (a: Alert) => !Ends(e, a)
  }

  lemma LiveAtAfter(h: seq<Event>, e: Event, h': seq<Event>, i: nat)
    requires i < |h| && h' == h + [e]
    ensures h'[i] == h[i]
    ensures LiveAt(h', i) <==> LiveAt(h, i) && !Ends(e, h[i].alert)
  {
    assert h'[|h|] == e && forall j :: 0 <= j < |h| ==> h'[j] == h[j];
  }

  lemma {:induction false} LiveAfter(h: seq<Event>, e: Event, h': seq<Event>, n: nat)
    requires n <= |h| && h' == h + [e]
    ensures LiveAmong(h', n) == Filter(Spared(e), LiveAmong(h, n))
  {
    if n > 0 {
      LiveAfter(h, e, h', n - 1);
      LiveAtAfter(h, e, h', n - 1);
      if LiveAt(h, n - 1) {
        SparedSnoc(e, LiveAmong(h, n - 1), h[n - 1].alert, LiveAmong(h, n));
      }
    }
  }

  lemma SparedSnoc(e: Event, live: seq<Alert>, a: Alert, longer: seq<Alert>)
    requires longer == live + [a]
    ensures Filter(Spared(e), longer) == Filter(Spared(e), live) + if Ends(e, a) then [] else [a]
  {
    FilterSnoc(Spared(e), live, a);
  }

  /** The live alerts after one more event: those it spares, and the one it injects. */
  lemma LiveStep(h: seq<Event>, e: Event)
    ensures LiveAlerts(h + [e]) ==
            Filter(Spared(e), LiveAlerts(h)) + if e.Inject? && IsOpen(e.alert) then [e.alert] else []
  {
    LiveAfter(h, e, h + [e], |h|);
    assert (h + [e])[|h|] == e;
  }

  lemma OpenStep(h: seq<Event>, e: Event)
    ensures OpenOnes(Replay(h + [e])) ==
            Filter(Spared(e), OpenOnes(Replay(h))) + if e.Inject? && IsOpen(e.alert) then [e.alert] else []
  {
    var alerts := Replay(h);
    ReplayStep(h, e);
    match e {
      case Inject(a) =>
        FilterSnoc(IsOpen, alerts, a);
        FilterAll(Spared(e), OpenOnes(alerts));
      case Resolve(alertId, assetId) =>
        OpenAfterResolve(alertId, assetId, alerts, e);
      case Clear =>
        FilterNone(Spared(e), OpenOnes(alerts));
    }
  }

  /** The active list is exactly the alerts injected since the last clear that no later resolve matched. */
  lemma {:induction false} ActiveIsLive(h: seq<Event>)
    ensures OpenOnes(Replay(h)) == LiveAlerts(h)
  {
    if h != [] {
      assert h == Init(h) + [Last(h)];
      ActiveIsLive(Init(h));
      OpenStep(Init(h), Last(h));
      LiveStep(Init(h), Last(h));
    }
  }

  lemma {:induction false} OpenAfterResolve(alertId: string, assetId: string, alerts: seq<Alert>, e: Event)
    requires e == Resolve(alertId, assetId)
    ensures OpenOnes(ResolveEach(alertId, assetId, alerts)) == Filter(Spared(e), OpenOnes(alerts))
  {
    if alerts != [] {
      var front, last := Init(alerts), Last(alerts);
      OpenAfterResolve(alertId, assetId, front, e);
      OpenSnoc(alertId, assetId, front, last, alerts);
      FilterSnoc(Spared(e), OpenOnes(front), last);
    }
  }

  // ---------------------------------------------------------------- where every alert goes

  function Injected(h: seq<Event>): seq<Alert> {
    if h == [] then [] else Injected(Init(h)) + if Last(h).Inject? then [Last(h).alert] else []
  }

  /** The alerts, as injected, that the resolve calls of a run return, call after call. */
  function ResolvedInRun(h: seq<Event>): seq<Alert> {
    if h == [] then []
    else ResolvedInRun(Init(h)) +
         if Last(h).Resolve? then Filter(Hit(Last(h).alertId, Last(h).assetId), Replay(Init(h))) else []
  }

  /** The open alerts that the clears of a run drop. */
  function DroppedInRun(h: seq<Event>): seq<Alert> {
    if h == [] then []
    else DroppedInRun(Init(h)) + if Last(h).Clear? then OpenOnes(Replay(Init(h))) else []
  }

  /** Every injected alert is active, or was returned by a resolve, or was dropped by a clear: each in exactly one way. */
  ghost predicate Conserved(h: seq<Event>) {
    multiset(Injected(h)) == multiset(OpenOnes(Replay(h))) + multiset(ResolvedInRun(h)) + multiset(DroppedInRun(h))
  }

  lemma {:induction false} AlertsConserved(h: seq<Event>)
    requires InjectsOpen(h)
    ensures Conserved(h)
  {
    if h != [] {
      AlertsConserved(Init(h));
      assert h[|h| - 1] == Last(h);
      ConservedStep(h);
    }
  }

  /** What the last event injects, resolves and drops. */
  function NewlyInjected(h: seq<Event>): multiset<Alert>
    requires h != []
  {
    if Last(h).Inject? then multiset{Last(h).alert} else multiset{}
  }

  function NewlyResolved(h: seq<Event>): multiset<Alert>
    requires h != []
  {
    if Last(h).Resolve? then multiset(Filter(Hit(Last(h).alertId, Last(h).assetId), Replay(Init(h)))) else multiset{}
  }

  function NewlyDropped(h: seq<Event>): multiset<Alert>
    requires h != []
  {
    if Last(h).Clear? then multiset(OpenOnes(Replay(Init(h)))) else multiset{}
  }

  lemma ConservedStep(h: seq<Event>)
    requires h != [] && Conserved(Init(h)) && (Last(h).Inject? ==> IsOpen(Last(h).alert))
    ensures Conserved(h)
  {
    OpenBalance(h);
    Balance(multiset(Injected(Init(h))), multiset(OpenOnes(Replay(Init(h)))), multiset(ResolvedInRun(Init(h))),
            multiset(DroppedInRun(Init(h))), NewlyInjected(h), multiset(OpenOnes(Replay(h))), NewlyResolved(h), NewlyDropped(h));
    TotalsStep(h);
  }

  lemma TotalsStep(h: seq<Event>)
    requires h != []
    ensures multiset(Injected(h)) == multiset(Injected(Init(h))) + NewlyInjected(h)
    ensures multiset(ResolvedInRun(h)) == multiset(ResolvedInRun(Init(h))) + NewlyResolved(h)
    ensures multiset(DroppedInRun(h)) == multiset(DroppedInRun(Init(h))) + NewlyDropped(h)
  {
  }

  /** What the last event takes from the open alerts it resolves or drops; what it adds it injects. */
  lemma OpenBalance(h: seq<Event>)
    requires h != [] && (Last(h).Inject? ==> IsOpen(Last(h).alert))
    ensures multiset(OpenOnes(Replay(Init(h)))) + NewlyInjected(h) == multiset(OpenOnes(Replay(h))) + NewlyResolved(h) + NewlyDropped(h)
  {
    match Last(h) {
      case Inject(a) => FilterSnoc(IsOpen, Replay(Init(h)), a);
      case Resolve(alertId, assetId) => ResolveSplits(alertId, assetId, Replay(Init(h)));
      case Clear =>
    }
  }

  lemma Balance<T>(i: multiset<T>, o: multiset<T>, r: multiset<T>, d: multiset<T>,
                   di: multiset<T>, o': multiset<T>, dr: multiset<T>, dd: multiset<T>)
    requires i == o + r + d && o + di == o' + dr + dd
    ensures i + di == o' + (r + dr) + (d + dd)
  {
    assert i + di == (o + di) + r + d;
  }

  /** One more alert is open afterwards, or hit, or neither open nor hit. */
  lemma SplitOne(alertId: string, assetId: string, a: Alert, open: seq<Alert>, left: seq<Alert>, hit: seq<Alert>)
    requires multiset(open) == multiset(left) + multiset(hit)
    ensures multiset(open + if IsOpen(a) then [a] else []) ==
            multiset(left + if IsOpen(AfterResolve(alertId, assetId, a)) then [AfterResolve(alertId, assetId, a)] else []) +
            multiset(hit + if Hit(alertId, assetId)(a) then [a] else [])
  {
  }

  lemma {:induction false} ResolveSplits(alertId: string, assetId: string, alerts: seq<Alert>)
    ensures multiset(OpenOnes(alerts)) ==
            multiset(OpenOnes(ResolveEach(alertId, assetId, alerts))) + multiset(Filter(Hit(alertId, assetId), alerts))
  {
    if alerts != [] {
      var front, last := Init(alerts), Last(alerts);
      ResolveSplits(alertId, assetId, front);
      SplitOne(alertId, assetId, last, OpenOnes(front), OpenOnes(ResolveEach(alertId, assetId, front)),
               Filter(Hit(alertId, assetId), front));
      OpenSnoc(alertId, assetId, front, last, alerts);
    }
  }

  lemma OpenSnoc(alertId: string, assetId: string, front: seq<Alert>, a: Alert, alerts: seq<Alert>)
    requires alerts == front + [a]
    ensures OpenOnes(alerts) == OpenOnes(front) + if IsOpen(a) then [a] else []
    ensures Filter(Hit(alertId, assetId), alerts) == Filter(Hit(alertId, assetId), front) + if Hit(alertId, assetId)(a) then [a] else []
    ensures OpenOnes(ResolveEach(alertId, assetId, alerts)) ==
            OpenOnes(ResolveEach(alertId, assetId, front)) +
            if IsOpen(AfterResolve(alertId, assetId, a)) then [AfterResolve(alertId, assetId, a)] else []
  {
    FilterSnoc(IsOpen, front, a);
    FilterSnoc(Hit(alertId, assetId), front, a);
    ResolveSnoc(alertId, assetId, front, a, alerts);
    FilterSnoc(IsOpen, ResolveEach(alertId, assetId, front), AfterResolve(alertId, assetId, a));
  }

  lemma ResolveSnoc(alertId: string, assetId: string, front: seq<Alert>, a: Alert, alerts: seq<Alert>)
    requires alerts == front + [a]
    ensures ResolveEach(alertId, assetId, alerts) == ResolveEach(alertId, assetId, front) + [AfterResolve(alertId, assetId, a)]
  {
  }

  /** When all injected alerts differ, no alert is returned twice, whether by one resolve call or by two. */
  lemma ReturnedOnce(h: seq<Event>, a: Alert)
    requires InjectsOpen(h) && multiset(Injected(h))[a] <= 1
    ensures multiset(ResolvedInRun(h))[a] <= 1
    ensures a in LiveAlerts(h) ==> a !in ResolvedInRun(h)
  {
    AlertsConserved(h);
    ActiveIsLive(h);
    var live, resolved := LiveAlerts(h), ResolvedInRun(h);
    assert a in live ==> multiset(live)[a] >= 1;
    assert a in resolved ==> multiset(resolved)[a] >= 1;
  }
}
