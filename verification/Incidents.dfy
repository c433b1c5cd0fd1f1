/** What the emitter guarantees over whole runs: which firings keep an alert alive, and
    which stateful sinks hear of its end. */
module Incidents {
  import opened Wrappers
  import opened Collections
  import opened Alerts
  import opened AlertStore
  import opened Pipeline
  import Runs = StoreRuns
  import Grouping
  import Routing

  /** When the last part of an act happens. */
  function EndOf(act: Act): Time {
    if act.Fire? then act.later else act.now
  }

  /** Resolves do not fire, and a handler delivers only what it has routed. */
  predicate Possible(p: Setup, act: Act) {
    && (act.Fire? || act.Deliver? ==> !act.b.resolved)
    && (act.Deliver? ==> RouteFor(p, act.b).Some?)
    && (act.Received? ==> act.b.resolved)
  }

  /** Acts one after the other, with clock readings that never go back. */
  predicate IsRun(p: Setup, acts: seq<Act>, from: Time)
    decreases |acts|
  {
    ZERO_TIME < from && (acts != [] ==>
      && Possible(p, acts[0]) && from <= acts[0].now <= EndOf(acts[0])
      && IsRun(p, acts[1..], EndOf(acts[0])))
  }

  function AfterActs(p: Setup, c: Core, acts: seq<Act>): Core
    decreases |acts|
  {
    if acts == [] then c else AfterActs(p, NextCore(p, c, acts[0]), acts[1..])
  }

  /** The run of the alert store behind the acts. */
  function StoreRun(p: Setup, c: Core, acts: seq<Act>): seq<Runs.Event>
    decreases |acts|
  {
    if acts == [] then []
    else
      var e, rest := StoreEvent(p, c, acts[0]), StoreRun(p, NextCore(p, c, acts[0]), acts[1..]);
      if e.Some? then [e.value] + rest else rest
  }

  // ---------------------------------------------------------------- keep-alive

  /** A firing that is muted, or is routed and not folded into a summary for chat sinks
      alone, renews its alert's deadline. */
  predicate Renews(p: Setup, c: Core, act: Act, fp: string) {
    match act
    case Fire(b, suppressed, absorbed, now, _) =>
      b.fingerprint == fp
      && (Muted(p.store, c, fp, now) || (Routed(p, b, suppressed) && !Folds(p, b, absorbed)))
    case Deliver(b, _, _) => b.fingerprint == fp
    case _ => false
  }

  function RenewedAt(p: Setup, c: Core, act: Act): Time {
    if act.Fire? && !Muted(p.store, c, act.b.fingerprint, act.now) then act.later else act.now
  }

  function LastRenewal(p: Setup, c: Core, acts: seq<Act>, fp: string, last: Time): Time
    decreases |acts|
  {
    if acts == [] then last
    else LastRenewal(p, NextCore(p, c, acts[0]), acts[1..], fp,
                     if Renews(p, c, acts[0], fp) then RenewedAt(p, c, acts[0]) else last)
  }

  lemma FiringRenews(p: Setup, c: Core, act: Act, fp: string)
    requires Possible(p, act) && act.now <= EndOf(act)
    ensures var e := StoreEvent(p, c, act);
      && (Renews(p, c, act, fp) <==> e.Some? && Runs.Refires(p.store, c, e.value, fp))
      && (Renews(p, c, act, fp) ==> e.value.now == RenewedAt(p, c, act))
      && (e.Some? ==> act.now <= e.value.now <= EndOf(act))
  {
  }

  /** The acts do to the store what the store's own run does, at ordered times, and renew
      when it re-fires. */
  lemma {:induction false} ActsAreStoreRun(p: Setup, c: Core, acts: seq<Act>, fp: string, last: Time, from: Time)
    requires IsRun(p, acts, from)
    ensures var run := StoreRun(p, c, acts);
      && Runs.Ordered(run, from) && Runs.After(p.store, c, run) == AfterActs(p, c, acts)
      && Runs.LastRenewal(p.store, c, run, fp, last) == LastRenewal(p, c, acts, fp, last)
    decreases |acts|
  {
    if acts != [] {
      var act, rest := acts[0], acts[1..];
      var d, last' := NextCore(p, c, act), if Renews(p, c, act, fp) then RenewedAt(p, c, act) else last;
      FiringRenews(p, c, act, fp);
      ActsAreStoreRun(p, d, rest, fp, last', EndOf(act));
      var e, run := StoreEvent(p, c, act), StoreRun(p, d, rest);
      if e.Some? {
        assert ([e.value] + run)[1..] == run;
        Runs.OrderedFromEarlier(run, e.value.now, EndOf(act));
      } else {
        Runs.OrderedFromEarlier(run, from, EndOf(act));
      }
    }
  }

  /** Over every run: a sweep resolves an alert exactly if it is active and no firing has
      renewed it for more than resolveTTL. */
  lemma SweptExactlyWhenUnrenewed(p: Setup, c: Core, acts: seq<Act>, fp: string, last: Time, t: Time)
    requires p.store.resolveTTL >= 0 && IsRun(p, acts, last)
    requires fp in c.active ==> c.active[fp].endsAt == last + p.store.resolveTTL
    ensures fp in Runs.Out(p.store, AfterActs(p, c, acts), Runs.Sweep(t)).resolved
       <==> fp in AfterActs(p, c, acts).active && t > LastRenewal(p, c, acts, fp, last) + p.store.resolveTTL
  {
    ActsAreStoreRun(p, c, acts, fp, last, last);
    Runs.SweptExactlyWhenSilent(p.store, c, StoreRun(p, c, acts), fp, last, t);
  }

  /** A firing of the fingerprint that no silence, maintenance window or inhibition keeps back. */
  predicate Fires(p: Setup, c: Core, act: Act, fp: string) {
    act.Fire? && act.b.fingerprint == fp && (Muted(p.store, c, fp, act.now) || Routed(p, act.b, act.suppressed))
  }

  function LastFiring(p: Setup, c: Core, acts: seq<Act>, fp: string, last: Time): Time
    decreases |acts|
  {
    if acts == [] then last
    else LastFiring(p, NextCore(p, c, acts[0]), acts[1..], fp, if Fires(p, c, acts[0], fp) then acts[0].now else last)
  }

  /** No firing of the fingerprint is folded into a summary with no stateful sink on its
      route, as when there is no grouper or the route has one. */
  predicate Unfolded(p: Setup, acts: seq<Act>, fp: string) {
    forall act | act in acts && act.Fire? && act.b.fingerprint == fp :: !Folds(p, act.b, act.absorbed)
  }

  lemma {:induction false} FiringsRenew(p: Setup, c: Core, acts: seq<Act>, fp: string, fired: Time, renewed: Time, from: Time)
    requires IsRun(p, acts, from) && Unfolded(p, acts, fp) && fired <= renewed <= from
    ensures LastFiring(p, c, acts, fp, fired) <= LastRenewal(p, c, acts, fp, renewed)
    decreases |acts|
  {
    if acts != [] {
      var act := acts[0];
      assert act in acts && forall a | a in acts[1..] :: a in acts;
      FiringsRenew(p, NextCore(p, c, act), acts[1..], fp, if Fires(p, c, act, fp) then act.now else fired,
                   if Renews(p, c, act, fp) then RenewedAt(p, c, act) else renewed, EndOf(act));
    }
  }

  /** Keep-alive: an alert that is never folded away is not resolved by a sweep that comes
      within resolveTTL of its latest unsuppressed firing, whatever its mute window does. */
  lemma UnfoldedFiringKeepsAlive(p: Setup, c: Core, acts: seq<Act>, fp: string, last: Time, t: Time)
    requires p.store.resolveTTL >= 0 && IsRun(p, acts, last) && Unfolded(p, acts, fp)
    requires fp in c.active ==> c.active[fp].endsAt == last + p.store.resolveTTL
    requires t <= LastFiring(p, c, acts, fp, last) + p.store.resolveTTL
    ensures fp !in Runs.Out(p.store, AfterActs(p, c, acts), Runs.Sweep(t)).resolved
  {
    SweptExactlyWhenUnrenewed(p, c, acts, fp, last, t);
    FiringsRenew(p, c, acts, fp, last, last, last);
  }

  // ---------------------------------------------------------------- folded firings

  const CHAT := ["slack"]

  /** Windows of five minutes, and the shortest mute and deadline validation accepts. */
  function ChatOnly(rx: Regex): Setup {
    Setup(Config(301, 301, {}, rx), rx, [], Some(CHAT))
  }

  /** The alert fires once per informer resync; another member of its group, in between,
      opens the window that folds its third firing. */
  function ThreeFirings(a: Alert, other: Alert): seq<Act> {
    [Fire(a, false, false, 1, 1), Fire(a, false, false, 301, 301), Fire(other, false, false, 500, 500),
     Fire(a, false, true, 601, 601)]
  }

  lemma ChatIsStateless(a: Alert, rx: Regex)
    ensures RouteFor(ChatOnly(rx), a) == Some(CHAT) && KeepStateful(CHAT) == []
  {
    assert CHAT[..0] == [];
  }

  /** Are the acts' `absorbed` what a grouper on these fields answers, run from its start?
      The muted firing at 301 is not offered to it. */
  ghost predicate GrouperAnswers(a: Alert, other: Alert, fields: seq<string>) {
    var g, key := Grouping.Config(300, fields), Grouping.KeyOf(a, fields);
    var first, second := [Grouping.Offer(a, 1)], [Grouping.Offer(a, 1), Grouping.Offer(other, 500)];
    && Grouping.IsRun(g, Grouping.START, first) && Grouping.IsRun(g, Grouping.START, second)
    && ThreeFirings(a, other)[0].absorbed == Grouping.Absorbs(Grouping.START.w, key, 1)
    && ThreeFirings(a, other)[2].absorbed == Grouping.Absorbs(Grouping.After(g, Grouping.START, first).w, key, 500)
    && ThreeFirings(a, other)[3].absorbed == Grouping.Absorbs(Grouping.After(g, Grouping.START, second).w, key, 601)
  }

  lemma WindowFolds(a: Alert, other: Alert, fields: seq<string>)
    requires Grouping.KeyOf(a, fields) == Grouping.KeyOf(other, fields)
    ensures GrouperAnswers(a, other, fields)
  {
    var g := Grouping.Config(300, fields);
    var first, second := [Grouping.Offer(a, 1)], [Grouping.Offer(a, 1), Grouping.Offer(other, 500)];
    var x := Grouping.Next(g, Grouping.START, first[0]);
    var y := Grouping.Next(g, x, second[1]);
    assert first[1..] == [] && second[1..] == [second[1]] && [second[1]][1..] == [];
    assert Grouping.IsRun(g, x, []) && Grouping.IsRun(g, y, []);
    assert Grouping.IsRun(g, x, [second[1]]) && Grouping.After(g, x, [second[1]]) == Grouping.After(g, y, []);
  }

  lemma ThirdFiringDoesNotRenew(a: Alert, other: Alert, rx: Regex)
    requires a.fingerprint != other.fingerprint && !a.resolved && !other.resolved
    ensures var p, acts := ChatOnly(rx), ThreeFirings(a, other);
      && IsRun(p, acts, 1) && a.fingerprint in AfterActs(p, EMPTY_CORE, acts).active
      && LastRenewal(p, EMPTY_CORE, acts, a.fingerprint, 1) == 301
  {
    var p, acts, fp := ChatOnly(rx), ThreeFirings(a, other), a.fingerprint;
    ChatIsStateless(a, rx);
    ChatIsStateless(other, rx);
    var c1 := NextCore(p, EMPTY_CORE, acts[0]);
    var c2 := NextCore(p, c1, acts[1]);
    var c3 := NextCore(p, c2, acts[2]);
    var c4 := NextCore(p, c3, acts[3]);
    var r1, r2, r3 := acts[1..], acts[2..], acts[3..];
    assert r1[1..] == r2 && r2[1..] == r3 && r3[1..] == [];
    assert IsRun(p, r3, 500) && IsRun(p, r2, 301) && IsRun(p, r1, 1);
    assert AfterActs(p, c3, r3) == AfterActs(p, c4, []);
    assert LastRenewal(p, c3, r3, fp, 301) == 301;
    assert LastRenewal(p, c2, r2, fp, 301) == 301;
    assert AfterActs(p, c2, r2) == c4;
  }

  /** So with grouping on an alert for chat sinks alone can be resolved while it fires at
      every informer resync, under a configuration that validation accepts, for any two
      members of a group. */
  lemma FoldedFiringCanBeSwept(a: Alert, other: Alert, fields: seq<string>, rx: Regex)
    requires a.fingerprint != other.fingerprint && !a.resolved && !other.resolved
    requires Grouping.KeyOf(a, fields) == Grouping.KeyOf(other, fields)
    ensures var p, acts := ChatOnly(rx), ThreeFirings(a, other);
      && Runs.ValidBehavior(p.store) && IsRun(p, acts, 1) && GrouperAnswers(a, other, fields)
      && a.fingerprint in Runs.Out(p.store, AfterActs(p, EMPTY_CORE, acts), Runs.Sweep(603)).resolved
  {
    WindowFolds(a, other, fields);
    ThirdFiringDoesNotRenew(a, other, rx);
    SweptExactlyWhenUnrenewed(ChatOnly(rx), EMPTY_CORE, ThreeFirings(a, other), a.fingerprint, 1, 603);
  }

  // ---------------------------------------------------------------- fires and their resolves

  /** The queue before each act and after the last, step by step as the emitter leaves it. */
  ghost predicate IsTrace(p: Setup, c: Core, acts: seq<Act>, queues: seq<seq<Queued>>)
    decreases |acts|
  {
    && |queues| == |acts| + 1
    && (acts != [] ==>
          && Possible(p, acts[0]) && QueueStep(p, c, acts[0], queues[0], queues[1])
          && IsTrace(p, NextCore(p, c, acts[0]), acts[1..], queues[1..]))
  }

  /** What the stateful sinks were newly told about a fingerprint. */
  function Told(was: seq<Queued>, queue: seq<Queued>, fp: string): seq<(Alert, seq<string>)> {
    if |ToStateful(was)| <= |ToStateful(queue)| then About(ToStateful(queue)[|ToStateful(was)|..], fp) else []
  }

  function About(messages: seq<(Alert, seq<string>)>, fp: string): seq<(Alert, seq<string>)> {
    if messages == [] then []
    else
      var front, m := About(messages[..|messages| - 1], fp), messages[|messages| - 1];
      if m.0.fingerprint == fp then front + [m] else front
  }

  /** The stateful sinks a step queued the fingerprint to; none if it queued nothing. */
  function SinksTold(was: seq<Queued>, queue: seq<Queued>, fp: string): seq<string> {
    var told := Told(was, queue, fp);
    if told == [] then [] else told[|told| - 1].1
  }

  predicate Accepts(p: Setup, c: Core, act: Act) {
    FireQueues(p, c, act).Some?
  }

  /** For each fingerprint, the stateful sinks its latest accepted fire was queued to. */
  function LatestFires(p: Setup, c: Core, acts: seq<Act>, queues: seq<seq<Queued>>, latest: map<string, seq<string>>)
    : map<string, seq<string>>
    requires |queues| == |acts| + 1
    decreases |acts|
  {
    if acts == [] then latest
    else
      LatestFires(p, NextCore(p, c, acts[0]), acts[1..], queues[1..],
        if Accepts(p, c, acts[0])
        then latest[acts[0].b.fingerprint := SinksTold(queues[0], queues[1], acts[0].b.fingerprint)] else latest)
  }

  /** Each active alert's route leads to the stateful sinks its latest fire was queued to. */
  ghost predicate Mirrors(p: Setup, c: Core, latest: map<string, seq<string>>) {
    forall fp | fp in c.active ::
      && c.active[fp].fingerprint == fp && fp in latest && RouteFor(p, c.active[fp]).Some?
      && latest[fp] == KeepStateful(RouteFor(p, c.active[fp]).value)
  }

  lemma AboutOne(m: (Alert, seq<string>), fp: string)
    ensures About([m], fp) == if m.0.fingerprint == fp then [m] else []
  {
    assert [m][..0] == [];
  }

  /** A fire is queued to the stateful sinks of its route, whatever the grouper answered. */
  lemma FireTells(p: Setup, c: Core, act: Act, was: seq<Queued>, queue: seq<Queued>)
    requires Possible(p, act) && QueueStep(p, c, act, was, queue) && Accepts(p, c, act)
    ensures RouteFor(p, act.b).Some?
    ensures SinksTold(was, queue, act.b.fingerprint) == KeepStateful(RouteFor(p, act.b).value)
  {
    var q := FireQueues(p, c, act).value;
    EndsWithStateful(was, queue, q);
    GroupingKeepsStateful(RouteFor(p, act.b).value, act.absorbed);
    var sinks := KeepStateful(q.route);
    var more := ToStateful(queue)[|ToStateful(was)|..];
    assert more == if sinks == [] then [] else [(q.a, sinks)];
    if sinks != [] {
      AboutOne((q.a, sinks), act.b.fingerprint);
    }
  }

  lemma RouteOfRenewed(p: Setup, a: Alert, b: Alert)
    requires SameFields(a, b)
    ensures RouteFor(p, a) == RouteFor(p, b)
  {
    SameFieldsRouteAlike(p.rx, p.routes, p.default_, a, b);
  }

  /** What an act can do to an active alert: leave it, renew it, or replace it by a fire. */
  lemma ActiveAfter(p: Setup, c: Core, act: Act, fp: string)
    requires Possible(p, act) && fp in NextCore(p, c, act).active && act.now <= EndOf(act)
    ensures Accepts(p, c, act) && act.b.fingerprint == fp ==> SameFields(NextCore(p, c, act).active[fp], act.b)
    ensures Accepts(p, c, act) && act.b.fingerprint == fp ==> NextCore(p, c, act).active[fp].fingerprint == fp
    ensures !(Accepts(p, c, act) && act.b.fingerprint == fp) ==>
      && fp in c.active && SameFields(NextCore(p, c, act).active[fp], c.active[fp])
      && NextCore(p, c, act).active[fp].fingerprint == c.active[fp].fingerprint
  {
  }

  lemma MirrorsStep(p: Setup, c: Core, act: Act, was: seq<Queued>, queue: seq<Queued>, latest: map<string, seq<string>>)
    requires Possible(p, act) && QueueStep(p, c, act, was, queue) && Mirrors(p, c, latest) && act.now <= EndOf(act)
    ensures Mirrors(p, NextCore(p, c, act),
      if Accepts(p, c, act) then latest[act.b.fingerprint := SinksTold(was, queue, act.b.fingerprint)] else latest)
  {
    var d := NextCore(p, c, act);
    if Accepts(p, c, act) {
      FireTells(p, c, act, was, queue);
    }
    forall fp | fp in d.active
      ensures d.active[fp].fingerprint == fp
      ensures if Accepts(p, c, act) && act.b.fingerprint == fp then RouteFor(p, d.active[fp]) == RouteFor(p, act.b)
              else fp in c.active && RouteFor(p, d.active[fp]) == RouteFor(p, c.active[fp])
    {
      ActiveAfter(p, c, act, fp);
      RouteOfRenewed(p, d.active[fp], if Accepts(p, c, act) && act.b.fingerprint == fp then act.b else c.active[fp]);
    }
  }

  lemma {:induction false} MirrorsAlways(p: Setup, c: Core, acts: seq<Act>, queues: seq<seq<Queued>>,
                                         latest: map<string, seq<string>>, from: Time)
    requires IsRun(p, acts, from) && IsTrace(p, c, acts, queues) && Mirrors(p, c, latest)
    ensures Mirrors(p, AfterActs(p, c, acts), LatestFires(p, c, acts, queues, latest))
    decreases |acts|
  {
    if acts != [] {
      MirrorsStep(p, c, acts[0], queues[0], queues[1], latest);
      MirrorsAlways(p, NextCore(p, c, acts[0]), acts[1..], queues[1..],
        if Accepts(p, c, acts[0])
        then latest[acts[0].b.fingerprint := SinksTold(queues[0], queues[1], acts[0].b.fingerprint)] else latest,
        EndOf(acts[0]));
    }
  }

  /** One resolve per closed alert with stateful sinks on its latest fire, to exactly those. */
  function Owed(c: Core, fp: string, endsAt: Option<Time>, latest: map<string, seq<string>>): seq<(Alert, seq<string>)> {
    if fp !in c.active || fp !in latest || latest[fp] == [] then [] else [(Closing(c.active[fp], endsAt), latest[fp])]
  }

  lemma ResolvesNext(p: Setup, closed: seq<Alert>, a: Alert, sinks: seq<string>, fp: string)
    requires RouteFor(p, a).Some? && sinks == KeepStateful(RouteFor(p, a).value)
    ensures About(ResolvesOf(p, closed + [a]), fp)
         == About(ResolvesOf(p, closed), fp) + if a.fingerprint == fp && sinks != [] then [(a, sinks)] else []
  {
    assert (closed + [a])[..|closed|] == closed;
    var told := ResolvesOf(p, closed);
    assert (told + [(a, sinks)])[..|told|] == told;
  }

  lemma ClosingNext(c: Core, front: seq<string>, last: string, endsAt: Option<Time>)
    requires Members(front + [last]) <= c.active.Keys
    ensures Members(front) <= c.active.Keys && last in c.active
    ensures ClosingAll(c.active, front + [last], endsAt)
         == ClosingAll(c.active, front, endsAt) + [Closing(c.active[last], endsAt)]
  {
    var order := front + [last];
    assert order[..|front|] == front && last in Members(order);
    assert Members(front) <= Members(order);
  }

  lemma ResolveOwed(p: Setup, c: Core, front: seq<string>, last: string, endsAt: Option<Time>,
                    latest: map<string, seq<string>>, fp: string)
    requires Mirrors(p, c, latest) && Members(front + [last]) <= c.active.Keys
    ensures Members(front) <= c.active.Keys && (last == fp ==> fp in c.active)
    ensures About(ResolvesOf(p, ClosingAll(c.active, front + [last], endsAt)), fp)
         == About(ResolvesOf(p, ClosingAll(c.active, front, endsAt)), fp)
            + if last == fp then Owed(c, fp, endsAt, latest) else []
  {
    ClosingNext(c, front, last, endsAt);
    var a := Closing(c.active[last], endsAt);
    RouteOfRenewed(p, a, c.active[last]);
    ResolvesNext(p, ClosingAll(c.active, front, endsAt), a, latest[last], fp);
  }

  /** The messages once for each occurrence of the fingerprint. */
  function PerOccurrence<T>(order: seq<string>, fp: string, messages: seq<T>): seq<T> {
    if order == [] then []
    else PerOccurrence(order[..|order| - 1], fp, messages) + if order[|order| - 1] == fp then messages else []
  }

  lemma {:induction false} OccursOnce<T>(order: seq<string>, fp: string, messages: seq<T>)
    requires forall i, j | 0 <= i < j < |order| :: order[i] != order[j]
    ensures PerOccurrence(order, fp, messages) == if fp in order then messages else []
  {
    if order != [] {
      var front, last := order[..|order| - 1], order[|order| - 1];
      OccursOnce(front, fp, messages);
      assert order == front + [last] && last !in front;
    }
  }

  lemma {:induction false} ResolvesAbout(p: Setup, c: Core, order: seq<string>, endsAt: Option<Time>,
                                         latest: map<string, seq<string>>, fp: string)
    requires Mirrors(p, c, latest) && Members(order) <= c.active.Keys
    ensures About(ResolvesOf(p, ClosingAll(c.active, order, endsAt)), fp)
         == PerOccurrence(order, fp, Owed(c, fp, endsAt, latest))
  {
    if order != [] {
      var front, last := order[..|order| - 1], order[|order| - 1];
      assert order == front + [last];
      ResolveOwed(p, c, front, last, endsAt, latest, fp);
      ResolvesAbout(p, c, front, endsAt, latest, fp);
    }
  }

  lemma ClosesTell(p: Setup, c: Core, fps: set<string>, endsAt: Option<Time>, was: seq<Queued>, queue: seq<Queued>,
                   latest: map<string, seq<string>>, fp: string)
    requires Closes(p, c, fps, endsAt, was, queue) && Mirrors(p, c, latest)
    ensures Told(was, queue, fp) == if fp in fps then Owed(c, fp, endsAt, latest) else []
  {
    var order :| Enumerates(order, fps) && Members(order) <= c.active.Keys
      && ResolvesQueued(p, ClosingAll(c.active, order, endsAt), was, queue);
    ResolvesTell(p, ClosingAll(c.active, order, endsAt), was, queue);
    ResolvesAbout(p, c, order, endsAt, latest, fp);
    OccursOnce(order, fp, Owed(c, fp, endsAt, latest));
    assert ToStateful(queue)[|ToStateful(was)|..] == ResolvesOf(p, ClosingAll(c.active, order, endsAt));
  }

  function ClosedBy(c: Core, e: Act): set<string> {
    match e
    case SweepUp(now) => Expired(c, now)
    case Gone(kind, ns, name, _) => OfObject(c, kind, ns, name)
    case _ => {}
  }

  /** Over every run of the emitter, restarts included: when a sweep or an object delete
      closes alerts, the stateful sinks are queued, for each of them, exactly one resolve to
      exactly the sinks its latest accepted fire was queued to, and nothing for any other. */
  lemma StatefulSinksAgree(p: Setup, acts: seq<Act>, queues: seq<seq<Queued>>, from: Time,
                              e: Act, next: seq<Queued>, fp: string)
    requires IsRun(p, acts, from) && IsTrace(p, EMPTY_CORE, acts, queues) && (e.SweepUp? || e.Gone?)
    requires QueueStep(p, AfterActs(p, EMPTY_CORE, acts), e, queues[|acts|], next)
    ensures var c, latest := AfterActs(p, EMPTY_CORE, acts), LatestFires(p, EMPTY_CORE, acts, queues, map[]);
      && (fp in ClosedBy(c, e) ==> fp in c.active && fp in latest)
      && (fp in ClosedBy(c, e) && latest[fp] != [] ==>
            Told(queues[|acts|], next, fp) == [(Closing(c.active[fp], if e.Gone? then Some(e.now) else None), latest[fp])])
      && (fp !in ClosedBy(c, e) || latest[fp] == [] ==> Told(queues[|acts|], next, fp) == [])
  {
    MirrorsAlways(p, EMPTY_CORE, acts, queues, map[], from);
    var c, latest := AfterActs(p, EMPTY_CORE, acts), LatestFires(p, EMPTY_CORE, acts, queues, map[]);
    ClosesTell(p, c, ClosedBy(c, e), if e.Gone? then Some(e.now) else None, queues[|acts|], next, latest, fp);
  }

  /** Stateful sinks are told by accepted fires, by resolves (of sweeps, object deletes and
      the webhook), by escalation rules that name them, and at boot by what was queued
      before: by no event alert, group summary, muted or folded firing. */
  lemma OnlyIncidentsAreTold(p: Setup, c: Core, act: Act, was: seq<Queued>, queue: seq<Queued>)
    requires QueueStep(p, c, act, was, queue)
    ensures ToStateful(queue) != ToStateful(was) ==>
      || (Accepts(p, c, act) && KeepStateful(FireQueues(p, c, act).value.route) != [])
      || act.SweepUp? || act.Gone?
      || (act.Received? && RouteFor(p, act.b).Some? && KeepStateful(RouteFor(p, act.b).value) != [])
      || (act.Escalation? && KeepStateful(act.sinks) != [])
      || (act.Boot? && act.replayed != [])
  {
    match act {
      case Fire(_, _, _, _, _) => FireTellsOnlyIfSent(p, c, act, was, queue);
      case Deliver(_, _, _) => FireTellsOnlyIfSent(p, c, act, was, queue);
      case Point(b, suppressed, now) => PointTellsNothing(p, c, b, suppressed, now, was, queue);
      case Tell(_) => SummariesAreStateless(was, queue);
      case Received(b, absorbed, _) => ReceivedTells(p, b, absorbed, was, queue);
      case Escalation(after, ruleKey, want, sinks, prefix, now) =>
        if KeepStateful(sinks) == [] {
          EscalationIsStateless(c, Due(p.store, c, after, ruleKey, want, now), sinks, prefix, was, queue);
        }
      case Boot(replayed, _) => assert replayed == [] ==> was + replayed == was;
      case _ =>
    }
  }

  lemma PointTellsNothing(p: Setup, c: Core, b: Alert, suppressed: bool, now: Time, was: seq<Queued>, queue: seq<Queued>)
    requires PointStep(p, c, b, suppressed, now, was, queue)
    ensures ToStateful(queue) == ToStateful(was)
  {
    if RouteFor(p, b).Some? && queue != was {
      NothingStateful(RouteFor(p, b).value);
      EndsWithStateful(was, queue, Queued(b, DropStateful(RouteFor(p, b).value), false));
    }
  }

  lemma FireTellsOnlyIfSent(p: Setup, c: Core, act: Act, was: seq<Queued>, queue: seq<Queued>)
    requires QueueStep(p, c, act, was, queue) && (act.Fire? || act.Deliver?)
    ensures ToStateful(queue) != ToStateful(was) ==>
      Accepts(p, c, act) && KeepStateful(FireQueues(p, c, act).value.route) != []
  {
    if Accepts(p, c, act) {
      EndsWithStateful(was, queue, FireQueues(p, c, act).value);
    } else {
      SummariesAreStateless(was, queue);
    }
  }

  lemma {:induction false} EscalationsAreSummaries(active: map<string, Alert>, order: seq<string>, sinks: seq<string>, prefix: string)
    requires Members(order) <= active.Keys && KeepStateful(sinks) == []
    ensures forall q | q in EscalationsOf(active, order, sinks, prefix) :: !q.rollback && KeepStateful(q.route) == []
  {
    if order != [] && sinks != [] {
      assert Members(order[..|order| - 1]) <= Members(order);
      EscalationsAreSummaries(active, order[..|order| - 1], sinks, prefix);
    }
  }

  lemma EscalationIsStateless(c: Core, fps: set<string>, sinks: seq<string>, prefix: string, was: seq<Queued>, queue: seq<Queued>)
    requires Escalates(c, fps, sinks, prefix, was, queue) && KeepStateful(sinks) == []
    ensures ToStateful(queue) == ToStateful(was)
  {
    var order :| Enumerates(order, fps) && Members(order) <= c.active.Keys
      && queue == was + EscalationsOf(c.active, order, sinks, prefix);
    var more := EscalationsOf(c.active, order, sinks, prefix);
    EscalationsAreSummaries(c.active, order, sinks, prefix);
    assert forall i | |was| <= i < |queue| :: queue[i] == more[i - |was|] && more[i - |was|] in more;
    SummariesAreStateless(was, queue);
  }

  // ---------------------------------------------------------------- resolves the webhook receives

  /** A received resolve is routed by its own fields. It closes exactly the incidents its
      fire opened if the severity overrides left the fire's severity alone. */
  lemma ReceivedMeetsItsFire(p: Setup, acts: seq<Act>, queues: seq<seq<Queued>>, from: Time,
                             e: Act, next: seq<Queued>, cluster: string, overrides: seq<Override>)
    requires IsRun(p, acts, from) && IsTrace(p, EMPTY_CORE, acts, queues) && e.Received? && Possible(p, e)
    requires QueueStep(p, AfterActs(p, EMPTY_CORE, acts), e, queues[|acts|], next)
    requires var active, b := AfterActs(p, EMPTY_CORE, acts).active, Rewritten(p.rx, cluster, overrides, e.b);
      b.fingerprint in active && SameFields(active[b.fingerprint], b) && b.severity == e.b.severity
    ensures var latest := LatestFires(p, EMPTY_CORE, acts, queues, map[]);
      && e.b.fingerprint in latest
      && ToStateful(next) == ToStateful(queues[|acts|])
           + if latest[e.b.fingerprint] == [] then [] else [(e.b, latest[e.b.fingerprint])]
  {
    MirrorsAlways(p, EMPTY_CORE, acts, queues, map[], from);
    RouteOfRenewed(p, AfterActs(p, EMPTY_CORE, acts).active[e.b.fingerprint], e.b);
    ReceivedTells(p, e.b, e.absorbed, queues[|acts|], next);
  }

  function StatefulPart(rx: Regex, routes: seq<Routing.Route>, default_: Option<seq<string>>, a: Alert): seq<string> {
    var route := Routing.FirstRoute(rx, routes, default_, a);
    if route.Some? then KeepStateful(route.value) else []
  }

  /** Criticals page, the rest is chat. */
  function PageFor(severity: string): seq<Routing.Route> {
    [Routing.Route(map["severity" := severity], Some(["pagerduty"]))]
  }

  lemma SeverityMatches(rx: Regex, severity: string, a: Alert)
    ensures Matches(rx, a, map["severity" := severity]) <==> a.severity == severity
  {
    var want := map["severity" := severity];
    assert "severity" in want && forall k | k in want :: k == "severity";
    assert MatchesKey(rx, a, "severity", severity) <==> a.severity == severity;
  }

  lemma PagerIsStateful()
    ensures KeepStateful(["pagerduty"]) == ["pagerduty"] && KeepStateful(CHAT) == []
  {
    assert ["pagerduty"][..0] == [] && CHAT[..0] == [];
  }

  lemma PagesOnly(rx: Regex, severity: string, a: Alert)
    ensures StatefulPart(rx, PageFor(severity), Some(CHAT), a) == if a.severity == severity then ["pagerduty"] else []
  {
    SeverityMatches(rx, severity, a);
    PagerIsStateful();
    Routing.FirstRouteIsFirst(rx, PageFor(severity), Some(CHAT), a, if a.severity == severity then 0 else 1);
  }

  /** And only if: a resolve reaches its fire's stateful sinks under all routes exactly when
      no override changes the severity. */
  lemma OverriddenResolvesMiss(rx: Regex, cluster: string, overrides: seq<Override>, a: Alert)
    ensures var b := Rewritten(rx, cluster, overrides, a);
      (forall routes: seq<Routing.Route>, default_: Option<seq<string>> ::
         StatefulPart(rx, routes, default_, a) == StatefulPart(rx, routes, default_, b))
      <==> Severity(rx, overrides, a.(cluster := cluster)) == a.severity
  {
    var b := Rewritten(rx, cluster, overrides, a);
    if b.severity == a.severity {
      forall routes: seq<Routing.Route>, default_: Option<seq<string>>
        ensures StatefulPart(rx, routes, default_, a) == StatefulPart(rx, routes, default_, b)
      {
        SameFieldsRouteAlike(rx, routes, default_, a, b);
      }
    } else {
      PagesOnly(rx, b.severity, a);
      PagesOnly(rx, b.severity, b);
      assert StatefulPart(rx, PageFor(b.severity), Some(CHAT), a) != StatefulPart(rx, PageFor(b.severity), Some(CHAT), b);
    }
  }
}
