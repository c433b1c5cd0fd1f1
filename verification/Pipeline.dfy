/** From a watcher's alert to the dispatcher's queue (internal/app/event_emitter.go and
    pipeline.go): the order of the decisions, and which sinks see a fire and its resolve. */
module Pipeline {
  import opened Wrappers
  import opened Collections
  import opened Alerts
  import opened AlertStore
  import DurableOutbox
  import Grouping
  import Routing
  import Runs = StoreRuns

  const STATEFUL := {"pagerduty", "opsgenie"}

  datatype Override = Override(match_: map<string, string>, severity: string)

  /** What was handed to the dispatcher; `rollback` says that a failure forgets the alert. */
  datatype Queued = Queued(a: Alert, route: seq<string>, rollback: bool)

  // ---------------------------------------------------------------- routes

  function Kept(route: seq<string>, keep: string -> bool): seq<string> {
    if route == [] then []
    else
      var front, s := Kept(route[..|route| - 1], keep), route[|route| - 1];
      if keep(s) then front + [s] else front
  }

  function KeepStateful(route: seq<string>): seq<string> {
    Kept(route, s => s in STATEFUL)
  }

  function DropStateful(route: seq<string>): seq<string> {
    Kept(route, s => s !in STATEFUL)
  }

  method FilterRoute(route: seq<string>, keep: string -> bool) returns (out: seq<string>)
    ensures out == Kept(route, keep)
  {
    out := [];
    for i := 0 to |route|
      invariant out == Kept(route[..i], keep)
    {
      assert route[..i + 1][..i] == route[..i];
      if keep(route[i]) {
        out := out + [route[i]];
      }
    }
    assert route[..|route|] == route;
  }

  lemma {:induction false} KeptIs(route: seq<string>, keep: string -> bool, name: string)
    ensures name in Kept(route, keep) <==> name in route && keep(name)
  {
    if route != [] {
      KeptIs(route[..|route| - 1], keep, name);
      assert route == route[..|route| - 1] + [route[|route| - 1]];
    }
  }

  lemma {:induction false} KeptTwice(route: seq<string>, keep: string -> bool)
    ensures Kept(Kept(route, keep), keep) == Kept(route, keep)
  {
    if route != [] {
      var front, s := route[..|route| - 1], route[|route| - 1];
      KeptTwice(front, keep);
      var out := Kept(front, keep);
      assert (out + [s])[..|out|] == out;
    }
  }

  /** Each sink is kept or not by itself, and the order stays. */
  lemma {:induction false} KeptConcat(a: seq<string>, b: seq<string>, keep: string -> bool)
    ensures Kept(a + b, keep) == Kept(a, keep) + Kept(b, keep)
    ensures |b| == 1 ==> Kept(b, keep) == if keep(b[0]) then b else []
  {
    if b == [] {
      assert a + b == a;
    } else {
      var front, last := b[..|b| - 1], b[|b| - 1];
      KeptConcat(a, front, keep);
      assert (a + b)[..|a + b| - 1] == a + front && b == front + [last];
    }
  }

  /** What groupRoute makes of a route, by the grouper's answer. */
  function Grouped(route: seq<string>, absorbed: bool): seq<string> {
    if absorbed then KeepStateful(route) else route
  }

  /** Whatever the grouper answers, the stateful part of a route is the same. */
  lemma GroupingKeepsStateful(route: seq<string>, absorbed: bool)
    ensures KeepStateful(Grouped(route, absorbed)) == KeepStateful(route)
  {
    KeptTwice(route, s => s in STATEFUL);
  }

  lemma {:induction false} SameFieldsRouteAlike(rx: Regex, routes: seq<Routing.Route>, default_: Option<seq<string>>,
                                               a: Alert, b: Alert)
    requires SameFields(a, b)
    ensures Routing.FirstRoute(rx, routes, default_, a) == Routing.FirstRoute(rx, routes, default_, b)
  {
    if routes != [] {
      SameFieldsMatchAlike(rx, a, b, routes[0].match_);
      SameFieldsRouteAlike(rx, routes[1..], default_, a, b);
    }
  }

  // ---------------------------------------------------------------- the rewrite

  function Severity(rx: Regex, overrides: seq<Override>, a: Alert): string {
    if overrides == [] then a.severity
    else if Matches(rx, a, overrides[0].match_) then overrides[0].severity
    else Severity(rx, overrides[1..], a)
  }

  function Rewritten(rx: Regex, cluster: string, overrides: seq<Override>, a: Alert): Alert {
    var b := a.(cluster := cluster);
    b.(severity := Severity(rx, overrides, b))
  }

  /** Nothing but the cluster and the severity is rewritten. */
  lemma RewrittenFields(rx: Regex, cluster: string, overrides: seq<Override>, a: Alert)
    ensures var b := Rewritten(rx, cluster, overrides, a);
      b.cluster == cluster && b == a.(cluster := b.cluster, severity := b.severity)
  {
  }

  method Rewrite(rx: Regex, cluster: string, overrides: seq<Override>, a: Alert) returns (b: Alert)
    ensures b == Rewritten(rx, cluster, overrides, a)
  {
    b := a.(cluster := cluster);
    for i := 0 to |overrides|
      invariant b == a.(cluster := cluster)
      invariant Severity(rx, overrides, b) == Severity(rx, overrides[i..], b)
    {
      assert overrides[i..][1..] == overrides[i + 1..];
      var hit := MatchLabels(rx, b, overrides[i].match_);
      if hit {
        return b.(severity := overrides[i].severity);
      }
    }
  }

  /** The severity is that of the first override that matches the alert in its cluster. */
  lemma {:induction false} FirstOverrideWins(rx: Regex, overrides: seq<Override>, a: Alert, i: nat)
    requires i <= |overrides| && forall j | 0 <= j < i :: !Matches(rx, a, overrides[j].match_)
    requires i < |overrides| ==> Matches(rx, a, overrides[i].match_)
    ensures Severity(rx, overrides, a) == if i < |overrides| then overrides[i].severity else a.severity
  {
    if i > 0 {
      FirstOverrideWins(rx, overrides[1..], a, i - 1);
    }
  }

  // ---------------------------------------------------------------- the queue

  /** Only group summaries were queued between the two states, none to a stateful sink. */
  ghost predicate SummariesSince(was: seq<Queued>, queue: seq<Queued>) {
    was <= queue && forall i | |was| <= i < |queue| :: !queue[i].rollback && KeepStateful(queue[i].route) == []
  }

  /** The same, and then this delivery, unless its route is empty. */
  ghost predicate EndsWith(was: seq<Queued>, queue: seq<Queued>, q: Queued) {
    if q.route == [] then SummariesSince(was, queue)
    else queue != [] && queue[|queue| - 1] == q && SummariesSince(was, queue[..|queue| - 1])
  }

  /** The part of the queue that stateful sinks see. */
  function ToStateful(queue: seq<Queued>): seq<(Alert, seq<string>)> {
    if queue == [] then []
    else
      var front, q := ToStateful(queue[..|queue| - 1]), queue[|queue| - 1];
      if KeepStateful(q.route) == [] then front else front + [(q.a, KeepStateful(q.route))]
  }

  lemma {:induction false} SummariesAreStateless(was: seq<Queued>, queue: seq<Queued>)
    requires SummariesSince(was, queue)
    ensures ToStateful(queue) == ToStateful(was)
    decreases |queue|
  {
    if |queue| > |was| {
      SummariesAreStateless(was, queue[..|queue| - 1]);
    } else {
      assert queue == was;
    }
  }

  lemma EndsWithStateful(was: seq<Queued>, queue: seq<Queued>, q: Queued)
    requires EndsWith(was, queue, q)
    ensures ToStateful(queue)
         == ToStateful(was) + if KeepStateful(q.route) == [] then [] else [(q.a, KeepStateful(q.route))]
  {
    if q.route == [] {
      SummariesAreStateless(was, queue);
    } else {
      SummariesAreStateless(was, queue[..|queue| - 1]);
    }
  }

  // ---------------------------------------------------------------- what the emitter does, on values

  /** What stays fixed: the store's configuration and the routes. */
  datatype Setup = Setup(store: Config, rx: Regex, routes: seq<Routing.Route>, default_: Option<seq<string>>)

  /** Everything that reaches the store or the queue. What the silences and inhibitions
      (`suppressed`) and the grouper (`absorbed`) answer is part of the act. */
  datatype Act =
    | Fire(b: Alert, suppressed: bool, absorbed: bool, now: Time, later: Time)
    | Deliver(b: Alert, absorbed: bool, now: Time)   // the last part of a firing others overtook
    | Point(b: Alert, suppressed: bool, now: Time)   // an event alert
    | Grace(b: Alert, now: Time)
    | SweepUp(now: Time)
    | Gone(kind: string, ns: string, name: string, now: Time)
    | Tell(now: Time)                                // the grouper flushes summaries
    | Received(b: Alert, absorbed: bool, now: Time)  // a resolve from the webhook
    | Escalation(after: Time, ruleKey: string, want: map<string, string>, sinks: seq<string>, prefix: string, now: Time)
    | RollBack(fp: string, now: Time)                // settle gives up on a refused firing
    | Clean(now: Time)
    | Boot(replayed: seq<Queued>, now: Time)         // a restart, with its outbox replay

  function RouteFor(p: Setup, a: Alert): Option<seq<string>> {
    Routing.FirstRoute(p.rx, p.routes, p.default_, a)
  }

  /** Does a firing that is not muted go into a summary and nowhere else? */
  predicate Folds(p: Setup, b: Alert, absorbed: bool) {
    absorbed && RouteFor(p, b).Some? && KeepStateful(RouteFor(p, b).value) == []
  }

  predicate Routed(p: Setup, b: Alert, suppressed: bool) {
    !suppressed && RouteFor(p, b).Some?
  }

  /** The step of the alert store behind an act. */
  function StoreEvent(p: Setup, c: Core, act: Act): Option<Runs.Event> {
    match act
    case Fire(b, suppressed, absorbed, now, later) =>
      if Muted(p.store, c, b.fingerprint, now) then Some(Runs.Touch(b.fingerprint, now))
      else if !Routed(p, b, suppressed) then None
      else if Folds(p, b, absorbed) then Some(Runs.Seed(b.fingerprint, now))
      else Some(Runs.Send(b, later))
    case Deliver(b, _, now) =>
      if Muted(p.store, c, b.fingerprint, now) then Some(Runs.Touch(b.fingerprint, now)) else Some(Runs.Send(b, now))
    case Point(b, _, now) => Some(Runs.SendEvent(b, now))
    case Grace(b, now) => Some(Runs.Seed(b.fingerprint, now))
    case SweepUp(now) => Some(Runs.Sweep(now))
    case Gone(kind, ns, name, now) => Some(Runs.ObjectGone(kind, ns, name, now))
    case Tell(_) => None
    case Received(b, _, now) => Some(Runs.Forget(b.fingerprint, now))
    case Escalation(after, ruleKey, want, _, _, now) => Some(Runs.Escalate(after, ruleKey, want, now))
    case RollBack(fp, now) => Some(Runs.Forget(fp, now))
    case Clean(now) => Some(Runs.Clean(now))
    case Boot(_, now) => Some(Runs.Reboot(now))
  }

  function NextCore(p: Setup, c: Core, act: Act): Core {
    var e := StoreEvent(p, c, act);
    if e.Some? then Runs.Step(p.store, c, e.value) else c
  }

  /** The delivery a firing queues, if it is sent. */
  function FireQueues(p: Setup, c: Core, act: Act): Option<Queued> {
    match act
    case Fire(b, suppressed, absorbed, now, later) =>
      if Muted(p.store, c, b.fingerprint, now) || !Routed(p, b, suppressed) || Folds(p, b, absorbed) then None
      else Some(Queued(Stamped(p.store, c, b, later), Grouped(RouteFor(p, b).value, absorbed), true))
    case Deliver(b, absorbed, now) =>
      if Muted(p.store, c, b.fingerprint, now) || RouteFor(p, b).None? then None
      else Some(Queued(Stamped(p.store, c, b, now), Grouped(RouteFor(p, b).value, absorbed), true))
    case _ => None
  }

  /** What closing these alerts sends to the stateful sinks. */
  function ResolvesOf(p: Setup, closed: seq<Alert>): seq<(Alert, seq<string>)> {
    if closed == [] then []
    else
      var front, a := ResolvesOf(p, closed[..|closed| - 1]), closed[|closed| - 1];
      var sinks := if RouteFor(p, a).Some? then KeepStateful(RouteFor(p, a).value) else [];
      if sinks == [] then front else front + [(a, sinks)]
  }

  /** A resolve goes to its own route, or to the stateful part of it. */
  ghost predicate ReceiveStep(p: Setup, a: Alert, absorbed: bool, was: seq<Queued>, queue: seq<Queued>) {
    if RouteFor(p, a).None? then queue == was
    else EndsWith(was, queue, Queued(a, Grouped(RouteFor(p, a).value, absorbed), false))
  }

  /** The resolves of these alerts are queued one after the other. */
  ghost predicate ResolvesQueued(p: Setup, closed: seq<Alert>, was: seq<Queued>, queue: seq<Queued>)
    decreases |closed|
  {
    if closed == [] then queue == was
    else
      var front, last := closed[..|closed| - 1], closed[|closed| - 1];
      exists mid, absorbed :: ReceiveStep(p, last, absorbed, mid, queue) && ResolvesQueued(p, front, was, mid)
  }

  /** The resolves of these alerts are queued, in some order. */
  ghost predicate Closes(p: Setup, c: Core, fps: set<string>, endsAt: Option<Time>, was: seq<Queued>, queue: seq<Queued>) {
    exists order :: Enumerates(order, fps) && Members(order) <= c.active.Keys
      && ResolvesQueued(p, ClosingAll(c.active, order, endsAt), was, queue)
  }

  /** The tagged copy of an overdue alert. The prefix names the rule's delay. */
  function Escalated(a: Alert, prefix: string): Alert {
    a.(labels := a.labels["alertkube-escalated" := "true"], summary := prefix + a.summary)
  }

  function EscalationsOf(active: map<string, Alert>, order: seq<string>, sinks: seq<string>, prefix: string): seq<Queued>
    requires Members(order) <= active.Keys
  {
    if order == [] || sinks == [] then []
    else
      assert Members(order[..|order| - 1]) <= Members(order) && order[|order| - 1] in Members(order);
      EscalationsOf(active, order[..|order| - 1], sinks, prefix)
      + [Queued(Escalated(active[order[|order| - 1]], prefix), sinks, false)]
  }

  /** The rule's sinks get a copy of each due alert, whatever kind of sink they are. */
  ghost predicate Escalates(c: Core, fps: set<string>, sinks: seq<string>, prefix: string, was: seq<Queued>, queue: seq<Queued>) {
    exists order :: Enumerates(order, fps) && Members(order) <= c.active.Keys
      && queue == was + EscalationsOf(c.active, order, sinks, prefix)
  }

  /** A replayed delivery is one that was queued before, without its details. */
  ghost predicate Repeats(q: Queued, was: seq<Queued>) {
    q.rollback == DurableOutbox.RollsBack(q.a)
    && exists i :: 0 <= i < |was| && q.route == was[i].route && q.a == CloneWithoutDetails(was[i].a)
  }

  /** What an act does to the dispatcher's queue. */
  ghost predicate QueueStep(p: Setup, c: Core, act: Act, was: seq<Queued>, queue: seq<Queued>) {
    match act
    case Fire(_, _, _, _, _) => FireStep(FireQueues(p, c, act), was, queue)
    case Deliver(_, _, _) => FireStep(FireQueues(p, c, act), was, queue)
    case Point(b, suppressed, now) => PointStep(p, c, b, suppressed, now, was, queue)
    case Grace(_, _) => queue == was
    case SweepUp(now) => Closes(p, c, Expired(c, now), None, was, queue)
    case Gone(kind, ns, name, now) => Closes(p, c, OfObject(c, kind, ns, name), Some(now), was, queue)
    case Tell(_) => SummariesSince(was, queue)
    case Received(b, absorbed, _) => ReceiveStep(p, b, absorbed, was, queue)
    case Escalation(after, ruleKey, want, sinks, prefix, now) =>
      Escalates(c, Due(p.store, c, after, ruleKey, want, now), sinks, prefix, was, queue)
    case RollBack(_, _) => queue == was
    case Clean(_) => queue == was
    case Boot(replayed, _) => queue == was + replayed && forall i | 0 <= i < |replayed| :: Repeats(replayed[i], was)
  }

  /** An unmuted event goes to the stateless part of its route. */
  ghost predicate PointStep(p: Setup, c: Core, b: Alert, suppressed: bool, now: Time, was: seq<Queued>, queue: seq<Queued>) {
    if Muted(p.store, c, b.fingerprint, now) || !Routed(p, b, suppressed) then queue == was
    else EndsWith(was, queue, Queued(b, DropStateful(RouteFor(p, b).value), false))
  }

  ghost predicate FireStep(q: Option<Queued>, was: seq<Queued>, queue: seq<Queued>) {
    if q.Some? then EndsWith(was, queue, q.value) else SummariesSince(was, queue)
  }

  /** A received resolve tells the stateful sinks of its own route, absorbed or not. */
  lemma ReceivedTells(p: Setup, a: Alert, absorbed: bool, was: seq<Queued>, queue: seq<Queued>)
    requires ReceiveStep(p, a, absorbed, was, queue)
    ensures var sinks := if RouteFor(p, a).Some? then KeepStateful(RouteFor(p, a).value) else [];
      ToStateful(queue) == ToStateful(was) + if sinks == [] then [] else [(a, sinks)]
  {
    if RouteFor(p, a).Some? {
      GroupingKeepsStateful(RouteFor(p, a).value, absorbed);
      EndsWithStateful(was, queue, Queued(a, Grouped(RouteFor(p, a).value, absorbed), false));
    }
  }

  lemma ResolvesSnoc(p: Setup, closed: seq<Alert>, i: nat)
    requires i < |closed|
    ensures var sinks := if RouteFor(p, closed[i]).Some? then KeepStateful(RouteFor(p, closed[i]).value) else [];
      ResolvesOf(p, closed[..i + 1]) == ResolvesOf(p, closed[..i]) + if sinks == [] then [] else [(closed[i], sinks)]
  {
    assert closed[..i + 1][..i] == closed[..i];
  }

  lemma ResolvesQueuedNext(p: Setup, closed: seq<Alert>, i: nat, was: seq<Queued>, mid: seq<Queued>, queue: seq<Queued>, absorbed: bool)
    requires i < |closed| && ResolvesQueued(p, closed[..i], was, mid) && ReceiveStep(p, closed[i], absorbed, mid, queue)
    ensures ResolvesQueued(p, closed[..i + 1], was, queue)
  {
    assert closed[..i + 1][..i] == closed[..i] && closed[..i + 1][i] == closed[i];
  }

  /** What that tells the stateful sinks. */
  lemma {:induction false} ResolvesTell(p: Setup, closed: seq<Alert>, was: seq<Queued>, queue: seq<Queued>)
    requires ResolvesQueued(p, closed, was, queue)
    ensures ToStateful(queue) == ToStateful(was) + ResolvesOf(p, closed)
    decreases |closed|
  {
    if closed != [] {
      var n := |closed| - 1;
      var mid: seq<Queued>, absorbed: bool :|
        ReceiveStep(p, closed[n], absorbed, mid, queue) && ResolvesQueued(p, closed[..n], was, mid);
      ResolvesTell(p, closed[..n], was, mid);
      ReceivedTells(p, closed[n], absorbed, mid, queue);
      ResolvesSnoc(p, closed, n);
      assert closed[..n + 1] == closed;
    }
  }

  lemma ClosesInOrder(p: Setup, c: Core, fps: set<string>, endsAt: Option<Time>, order: seq<string>,
                      was: seq<Queued>, queue: seq<Queued>)
    requires Enumerates(order, fps) && Members(order) <= c.active.Keys
    requires ResolvesQueued(p, ClosingAll(c.active, order, endsAt), was, queue)
    ensures Closes(p, c, fps, endsAt, was, queue)
    ensures ToStateful(queue) == ToStateful(was) + ResolvesOf(p, ClosingAll(c.active, order, endsAt))
  {
    ResolvesTell(p, ClosingAll(c.active, order, endsAt), was, queue);
  }

  /** Which acts close alerts, and how. */
  lemma Closers(p: Setup, c: Core, act: Act, was: seq<Queued>, queue: seq<Queued>)
    ensures act.SweepUp? ==>
      && (QueueStep(p, c, act, was, queue) <==> Closes(p, c, Expired(c, act.now), None, was, queue))
      && NextCore(p, c, act) == Dropped(c, Expired(c, act.now))
    ensures act.Gone? ==>
      && (QueueStep(p, c, act, was, queue) <==>
            Closes(p, c, OfObject(c, act.kind, act.ns, act.name), Some(act.now), was, queue))
      && NextCore(p, c, act) == Dropped(c, OfObject(c, act.kind, act.ns, act.name))
  {
  }

  lemma Escalating(p: Setup, c: Core, act: Act, order: seq<string>, was: seq<Queued>, queue: seq<Queued>)
    requires act.Escalation? && Enumerates(order, Due(p.store, c, act.after, act.ruleKey, act.want, act.now))
    requires Members(order) <= c.active.Keys && queue == was + EscalationsOf(c.active, order, act.sinks, act.prefix)
    ensures QueueStep(p, c, act, was, queue)
    ensures NextCore(p, c, act) == Marked(c, Due(p.store, c, act.after, act.ruleKey, act.want, act.now), act.ruleKey)
  {
    assert Escalates(c, Due(p.store, c, act.after, act.ruleKey, act.want, act.now), act.sinks, act.prefix, was, queue);
  }

  /** A summary goes to the stateless part of its route. */
  ghost predicate AnnounceStep(p: Setup, a: Alert, suppressed: bool, was: seq<Queued>, queue: seq<Queued>) {
    if suppressed || RouteFor(p, a).None? || DropStateful(RouteFor(p, a).value) == [] then queue == was
    else queue == was + [Queued(a, DropStateful(RouteFor(p, a).value), false)]
  }

  /** A window's summary is queued, unless it is suppressed. */
  ghost predicate Announced(p: Setup, render: Grouping.Summary -> Alert, b: Grouping.Bucket, was: seq<Queued>, queue: seq<Queued>) {
    exists s, suppressed :: Grouping.Tells(b, Some(s)) && AnnounceStep(p, render(s), suppressed, was, queue)
  }

  lemma AnnouncedBy(p: Setup, render: Grouping.Summary -> Alert, b: Grouping.Bucket, s: Grouping.Summary, suppressed: bool,
                    was: seq<Queued>, queue: seq<Queued>)
    requires Grouping.Tells(b, Some(s)) && AnnounceStep(p, render(s), suppressed, was, queue)
    ensures Announced(p, render, b, was, queue) && b.count > 0
  {
  }

  /** The summaries of these windows, those without members apart, are queued in turn. */
  ghost predicate AnnouncedAll(p: Setup, render: Grouping.Summary -> Alert, windows: seq<Grouping.Bucket>,
                               was: seq<Queued>, queue: seq<Queued>)
    decreases |windows|
  {
    if windows == [] then queue == was
    else
      var front, b := windows[..|windows| - 1], windows[|windows| - 1];
      if b.count == 0 then AnnouncedAll(p, render, front, was, queue)
      else exists mid :: AnnouncedAll(p, render, front, was, mid) && Announced(p, render, b, mid, queue)
  }

  lemma AnnouncedNext(p: Setup, render: Grouping.Summary -> Alert, windows: seq<Grouping.Bucket>, i: nat,
                      was: seq<Queued>, mid: seq<Queued>, queue: seq<Queued>)
    requires i < |windows| && AnnouncedAll(p, render, windows[..i], was, mid)
    requires if windows[i].count == 0 then queue == mid else Announced(p, render, windows[i], mid, queue)
    ensures AnnouncedAll(p, render, windows[..i + 1], was, queue)
  {
    assert windows[..i + 1][..i] == windows[..i] && windows[..i + 1][i] == windows[i];
  }

  lemma SummariesChain(was: seq<Queued>, mid: seq<Queued>, queue: seq<Queued>)
    requires SummariesSince(was, mid) && SummariesSince(mid, queue)
    ensures SummariesSince(was, queue)
  {
  }

  // ---------------------------------------------------------------- the object

  /** The store, the router and the grouper behind one emit function. Each handler takes
      the clock reading its steps share; silences and maintenance windows are `silent`. */
  class Emitter {
    const cluster: string
    const overrides: seq<Override>
    const start: Time
    const grace: Time
    const silent: (Alert, Time) -> bool
    const render: Grouping.Summary -> Alert
    const store: Store
    const router: Routing.Router
    const grouper: Grouping.Grouper?
    var queue: seq<Queued>
    var observed: seq<Alert>

    constructor (cluster: string, overrides: seq<Override>, start: Time, grace: Time, silent: (Alert, Time) -> bool,
                 render: Grouping.Summary -> Alert, store: Store, router: Routing.Router, grouper: Grouping.Grouper?)
      ensures this.cluster == cluster && this.overrides == overrides && this.start == start && this.grace == grace
      ensures this.silent == silent && this.render == render
      ensures this.store == store && this.router == router && this.grouper == grouper && queue == [] && observed == []
    {
      this.cluster, this.overrides, this.start, this.grace := cluster, overrides, start, grace;
      this.silent, this.render := silent, render;
      this.store, this.router, this.grouper, queue, observed := store, router, grouper, [], [];
    }

    function Settings(): Setup {
      Setup(store.cfg, router.rx, router.routes, router.defaultSinks)
    }

    /** Where a route leads, silences and inhibitions apart. */
    function RouteOf(a: Alert): Option<seq<string>> {
      RouteFor(Settings(), a)
    }

    predicate Suppressed(a: Alert, now: Time)
      reads router
    {
      !a.resolved && (silent(a, now) || Routing.Inhibited(router.rx, router.inhibitions, router.activeInhibits, a, now))
    }

    /** Would the grouper fold this alert into a pending summary? */
    predicate Absorbed(a: Alert, now: Time)
      reads grouper
    {
      grouper != null && Grouping.Absorbs(grouper.View(), Grouping.KeyOf(a, grouper.fields), now)
    }

    method Enqueue(a: Alert, route: seq<string>, rollback: bool)
      modifies this`queue
      ensures queue == if route == [] then old(queue) else old(queue) + [Queued(a, route, rollback)]
    {
      if |route| == 0 {
        return;
      }
      queue := queue + [Queued(a, route, rollback)];
    }

    method RouteNow(a: Alert, now: Time) returns (route: Option<seq<string>>)
      modifies router
      ensures route == if old(Suppressed(a, now)) then None else RouteOf(a)
      ensures router.activeInhibits == if a.resolved || old(Suppressed(a, now)) then old(router.activeInhibits)
        else Routing.Armed(router.rx, router.inhibitions, old(router.activeInhibits), a, now)
    {
      route := router.RouteAlert(a, silent(a, now), now, now);
    }

    /** The grouper's flush callback. */
    method Announce(s: Grouping.Summary, now: Time)
      modifies this`queue, router
      ensures SummariesSince(old(queue), queue)
      ensures AnnounceStep(Settings(), render(s), old(Suppressed(render(s), now)), old(queue), queue)
    {
      var a := render(s);
      var route := RouteNow(a, now);
      EnqueueStateless(a, if route.Some? then route.value else []);
    }

    /** Enqueue behind dropStateful. */
    method EnqueueStateless(a: Alert, route: seq<string>)
      modifies this`queue
      ensures queue == if DropStateful(route) == [] then old(queue) else old(queue) + [Queued(a, DropStateful(route), false)]
      ensures SummariesSince(old(queue), queue) && EndsWith(old(queue), queue, Queued(a, DropStateful(route), false))
      ensures ToStateful(queue) == ToStateful(old(queue))
    {
      var sinks := FilterRoute(route, s => s !in STATEFUL);
      NothingStateful(route);
      Enqueue(a, sinks, false);
      assert sinks != [] ==> queue[..|queue| - 1] == old(queue);
      SummariesAreStateless(old(queue), queue);
    }

    method GroupRoute(a: Alert, route: seq<string>, now: Time) returns (grouped: seq<string>, absorbed: bool)
      modifies this`queue, router, grouper
      ensures absorbed == old(Absorbed(a, now)) && grouped == Grouped(route, absorbed)
      ensures SummariesSince(old(queue), queue)
      ensures grouper == null ==> queue == old(queue)
      ensures grouper != null ==>
        var b := old(Grouping.Replaced(grouper.View(), Grouping.KeyOf(a, grouper.fields), now));
        if b.Some? && b.value.count > 0 then Announced(Settings(), render, b.value, old(queue), queue) else queue == old(queue)
    {
      if grouper == null {
        return route, false;
      }
      ghost var bucket := Grouping.Replaced(grouper.View(), Grouping.KeyOf(a, grouper.fields), now);
      var pass, replaced := grouper.Offer(a, now);
      if replaced.Some? {
        ghost var suppressed := Suppressed(render(replaced.value), now);
        Announce(replaced.value, now);
        assert Grouping.Tells(bucket.value, Some(replaced.value));
        AnnouncedBy(Settings(), render, bucket.value, replaced.value, suppressed, old(queue), queue);
      }
      if pass {
        return route, false;
      }
      grouped := FilterRoute(route, s => s in STATEFUL);
      absorbed := true;
    }

    /** The grouper's flusher: every expired window is told. */
    method FlushGroups(now: Time) returns (ghost windows: seq<Grouping.Bucket>)
      requires grouper != null
      modifies this`queue, router, grouper
      ensures forall b | b in windows :: exists key :: key in old(grouper.buckets) && old(grouper.buckets)[key] == b && now > b.deadline
      ensures forall key | key in old(grouper.buckets) && now > old(grouper.buckets)[key].deadline ::
        key !in grouper.buckets && old(grouper.buckets)[key] in windows
      ensures AnnouncedAll(Settings(), render, windows, old(queue), queue)
      ensures QueueStep(Settings(), EMPTY_CORE, Tell(now), old(queue), queue)
    {
      ghost var was := grouper.buckets;
      var out, order := grouper.FlushExpired(now);
      windows := Grouping.BucketsOf(was, order);
      ExpiredWindows(was, order, windows, now);
      AnnounceAll(out, windows, now);
    }

    /** The final flush: every window is told, and no more is absorbed. */
    method CloseGroups(now: Time) returns (ghost windows: seq<Grouping.Bucket>)
      requires grouper != null
      modifies this`queue, router, grouper
      ensures forall key | key in old(grouper.buckets) :: old(grouper.buckets)[key] in windows
      ensures grouper.View() == Grouping.Windows(map[], true)
      ensures AnnouncedAll(Settings(), render, windows, old(queue), queue)
      ensures QueueStep(Settings(), EMPTY_CORE, Tell(now), old(queue), queue)
    {
      ghost var was := grouper.buckets;
      var out, order := grouper.FlushAll();
      windows := Grouping.BucketsOf(was, order);
      AllWindows(was, order, windows);
      AnnounceAll(out, windows, now);
    }

    method AnnounceAll(out: seq<Option<Grouping.Summary>>, ghost windows: seq<Grouping.Bucket>, now: Time)
      requires Grouping.TellsAll(windows, out)
      modifies this`queue, router
      ensures AnnouncedAll(Settings(), render, windows, old(queue), queue) && SummariesSince(old(queue), queue)
    {
      for i := 0 to |out|
        invariant AnnouncedAll(Settings(), render, windows[..i], old(queue), queue) && SummariesSince(old(queue), queue)
      {
        ghost var mid := queue;
        assert Grouping.Tells(windows[i], out[i]);
        if out[i].Some? {
          ghost var suppressed := Suppressed(render(out[i].value), now);
          Announce(out[i].value, now);
          AnnouncedBy(Settings(), render, windows[i], out[i].value, suppressed, mid, queue);
          SummariesChain(old(queue), mid, queue);
        }
        AnnouncedNext(Settings(), render, windows, i, old(queue), mid, queue);
      }
      assert windows[..|out|] == windows;
    }

    /** The resolve path: silences and inhibitions do not apply, and an absorbed resolve
        still goes to the stateful sinks. */
    method DispatchResolved(a: Alert, now: Time)
      requires a.resolved
      modifies this`queue, router, grouper
      ensures RouteOf(a).None? ==> queue == old(queue)
      ensures RouteOf(a).Some? ==>
        EndsWith(old(queue), queue, Queued(a, Grouped(RouteOf(a).value, old(Absorbed(a, now))), false))
    {
      var route := RouteNow(a, now);
      if route.None? {
        return;
      }
      ghost var absorbs := Absorbed(a, now);
      var grouped, absorbed := GroupRoute(a, route.value, now);
      Enqueue(a, grouped, false);
      assert grouped != [] ==> queue[..|queue| - 1] + [queue[|queue| - 1]] == queue;
    }

    /** The store's resolve callback, for a batch of alerts it closes. */
    method CloseAll(closed: seq<Alert>, now: Time)
      requires forall a | a in closed :: a.resolved
      modifies this`queue, router, grouper
      ensures ResolvesQueued(Settings(), closed, old(queue), queue)
    {
      for i := 0 to |closed|
        invariant ResolvesQueued(Settings(), closed[..i], old(queue), queue)
      {
        ghost var mid, absorbed := queue, Absorbed(closed[i], now);
        DispatchResolved(closed[i], now);
        assert ReceiveStep(Settings(), closed[i], absorbed, mid, queue);
        ResolvesQueuedNext(Settings(), closed, i, old(queue), mid, queue, absorbed);
      }
      assert closed[..|closed|] == closed;
    }

    method Sweep(now: Time) returns (ghost order: seq<string>)
      modifies this`queue, router, grouper, store
      ensures Enumerates(order, Expired(old(store.View()), now)) && Members(order) <= old(store.active).Keys
      ensures store.View() == Dropped(old(store.View()), Expired(old(store.View()), now))
      ensures ToStateful(queue) == ToStateful(old(queue)) + ResolvesOf(Settings(), ClosingAll(old(store.active), order, None))
      ensures store.View() == NextCore(Settings(), old(store.View()), SweepUp(now))
      ensures QueueStep(Settings(), old(store.View()), SweepUp(now), old(queue), queue)
    {
      var closed, keys := store.SweepResolved(now);
      CloseAll(closed, now);
      ClosesInOrder(Settings(), old(store.View()), Expired(old(store.View()), now), None, keys, old(queue), queue);
      Closers(Settings(), old(store.View()), SweepUp(now), old(queue), queue);
      order := keys;
    }

    method ObjectGone(a: Alert, now: Time) returns (ghost order: seq<string>)
      modifies this`queue, router, grouper, store
      ensures var gone := OfObject(old(store.View()), a.kind, a.namespace, a.name);
        Enumerates(order, gone) && Members(order) <= old(store.active).Keys
        && store.View() == Dropped(old(store.View()), gone)
      ensures ToStateful(queue) == ToStateful(old(queue)) + ResolvesOf(Settings(), ClosingAll(old(store.active), order, Some(now)))
      ensures var act := Gone(a.kind, a.namespace, a.name, now);
        && store.View() == NextCore(Settings(), old(store.View()), act)
        && QueueStep(Settings(), old(store.View()), act, old(queue), queue)
    {
      var closed, keys := store.ResolveObject(a.kind, a.namespace, a.name, now);
      CloseAll(closed, now);
      ClosesInOrder(Settings(), old(store.View()), OfObject(old(store.View()), a.kind, a.namespace, a.name), Some(now),
                    keys, old(queue), queue);
      Closers(Settings(), old(store.View()), Gone(a.kind, a.namespace, a.name, now), old(queue), queue);
      order := keys;
    }

    /** A resolve the webhook received: forgotten first, so that no sweep repeats it. */
    method ReceiveResolved(a: Alert, now: Time)
      requires a.resolved
      modifies this`queue, router, grouper, store
      ensures var act := Received(a, old(Absorbed(a, now)), now);
        && store.View() == NextCore(Settings(), old(store.View()), act)
        && QueueStep(Settings(), old(store.View()), act, old(queue), queue)
    {
      store.Forget(a.fingerprint);
      DispatchResolved(a, now);
    }

    /** One escalation rule: every alert it is due for goes to the rule's sinks, unfiltered. */
    method RunEscalation(after: Time, ruleKey: string, want: map<string, string>, sinks: seq<string>, prefix: string, now: Time)
      modifies this`queue, store
      ensures var act := Escalation(after, ruleKey, want, sinks, prefix, now);
        && store.View() == NextCore(Settings(), old(store.View()), act)
        && QueueStep(Settings(), old(store.View()), act, old(queue), queue)
    {
      var out, order := store.Overdue(after, ruleKey, want, now);
      EnqueueAll(out, store.active, order, sinks, prefix);
      Escalating(Settings(), old(store.View()), Escalation(after, ruleKey, want, sinks, prefix, now), order, old(queue), queue);
    }

    method EnqueueAll(out: seq<Alert>, ghost active: map<string, Alert>, ghost order: seq<string>, sinks: seq<string>, prefix: string)
      requires Members(order) <= active.Keys && out == AlertsOf(active, order)
      modifies this`queue
      ensures queue == old(queue) + EscalationsOf(active, order, sinks, prefix)
    {
      if order != [] {
        AlertsAt(active, order, 0);
      }
      for i := 0 to |out|
        invariant |out| == |order| && Members(order[..i]) <= active.Keys
        invariant queue == old(queue) + EscalationsOf(active, order[..i], sinks, prefix)
      {
        assert order[..i + 1][..i] == order[..i] && order[i] in order;
        AlertsAt(active, order, i);
        Enqueue(Escalated(out[i], prefix), sinks, false);
      }
      assert order[..|out|] == order;
    }

    /** The end of the firing path, after routing and grouping: another thread may have
        sent the alert in between, and then this firing is a muted one after all. */
    method Deliver(b: Alert, route: seq<string>, now: Time)
      modifies this`queue, router, store
      ensures !Muted(store.cfg, old(store.View()), b.fingerprint, now) ==>
        && store.View() == Sent(store.cfg, old(store.View()), b, now) && router.activeInhibits == old(router.activeInhibits)
        && queue == if route == [] then old(queue)
                    else old(queue) + [Queued(Stamped(store.cfg, old(store.View()), b, now), route, true)]
      ensures Muted(store.cfg, old(store.View()), b.fingerprint, now) ==>
        && store.View() == Touched(store.cfg, old(store.View()), b.fingerprint, now) && queue == old(queue)
        && router.activeInhibits == if b.resolved then old(router.activeInhibits)
             else Routing.Armed(router.rx, router.inhibitions, old(router.activeInhibits), b, now)
      ensures forall absorbed: bool | RouteOf(b).Some? && route == Grouped(RouteOf(b).value, absorbed) ::
        && store.View() == NextCore(Settings(), old(store.View()), Act.Deliver(b, absorbed, now))
        && QueueStep(Settings(), old(store.View()), Act.Deliver(b, absorbed, now), old(queue), queue)
    {
      var ok, out := store.ShouldSend(b, now);
      if !ok {
        store.Touch(b.fingerprint, now);
        router.ArmInhibitions(b, now);
        return;
      }
      Enqueue(out, route, true);
    }

    /** A point-in-time event: sent once, never active, never to a stateful sink. */
    method EmitEvent(b: Alert, now: Time)
      modifies this`queue, this`observed, router, store
      ensures var muted := Muted(store.cfg, old(store.View()), b.fingerprint, now);
        && store.View() == (if muted then old(store.View()) else Seeded(old(store.View()), b.fingerprint, now))
        && observed == (if muted then old(observed) else old(observed) + [b])
        && (muted || old(Suppressed(b, now)) || RouteOf(b).None? ==> queue == old(queue))
        && (!muted && !old(Suppressed(b, now)) && RouteOf(b).Some? ==>
              EndsWith(old(queue), queue, Queued(b, DropStateful(RouteOf(b).value), false)))
      ensures ToStateful(queue) == ToStateful(old(queue))
      ensures var act := Point(b, old(Suppressed(b, now)), now);
        && store.View() == NextCore(Settings(), old(store.View()), act)
        && QueueStep(Settings(), old(store.View()), act, old(queue), queue)
    {
      var ok := store.ShouldSendEvent(b, now);
      if !ok {
        return;
      }
      observed := observed + [b];
      var route := RouteNow(b, now);
      EnqueueStateless(b, if route.Some? then route.value else []);
    }

    /** A firing after grace: muted, suppressed, folded away, or sent. */
    method EmitFiring(b: Alert, now: Time, later: Time)
      requires !b.resolved && now <= later
      modifies this`queue, this`observed, router, store, grouper
      ensures Muted(store.cfg, old(store.View()), b.fingerprint, now) ==>
        && store.View() == Touched(store.cfg, old(store.View()), b.fingerprint, now)
        && router.activeInhibits == Routing.Armed(router.rx, router.inhibitions, old(router.activeInhibits), b, now)
        && queue == old(queue) && observed == old(observed)
      ensures !Muted(store.cfg, old(store.View()), b.fingerprint, now) ==> observed == old(observed) + [b]
      ensures !Muted(store.cfg, old(store.View()), b.fingerprint, now) && (old(Suppressed(b, now)) || RouteOf(b).None?) ==>
        store.View() == old(store.View()) && queue == old(queue)
      ensures !Muted(store.cfg, old(store.View()), b.fingerprint, now) && !old(Suppressed(b, now)) && RouteOf(b).Some? ==>
        var grouped, absorbed := Grouped(RouteOf(b).value, old(Absorbed(b, now))), old(Absorbed(b, now));
        if absorbed && grouped == []
        then store.View() == Seeded(old(store.View()), b.fingerprint, now) && SummariesSince(old(queue), queue)
        else
          && store.View() == Sent(store.cfg, old(store.View()), b, later)
          && EndsWith(old(queue), queue, Queued(Stamped(store.cfg, old(store.View()), b, later), grouped, true))
      ensures var act := Fire(b, old(Suppressed(b, now)), old(Absorbed(b, now)), now, later);
        && store.View() == NextCore(Settings(), old(store.View()), act)
        && QueueStep(Settings(), old(store.View()), act, old(queue), queue)
    {
      var muted := Muted(store.cfg, store.View(), b.fingerprint, now);
      if muted {
        store.Touch(b.fingerprint, now);
        router.ArmInhibitions(b, now);
        return;
      }
      observed := observed + [b];
      var route := RouteNow(b, now);
      if route.None? {
        return;
      }
      ghost var was := queue;
      var grouped, absorbed := GroupRoute(b, route.value, now);
      if absorbed && |grouped| == 0 {
        store.Seed(b.fingerprint, now);
        return;
      }
      ghost var before := queue;
      Deliver(b, grouped, later);
      assert grouped != [] ==> queue[..|queue| - 1] == before;
    }

    /** One alert from a watcher, a cloud source, the receiver or the rule engine. */
    method Emit(a: Alert, now: Time, later: Time) returns (ghost gone: seq<string>)
      requires now <= later
      modifies this`queue, this`observed, router, store, grouper
      ensures a.resolved ==>
        && Enumerates(gone, OfObject(old(store.View()), a.kind, a.namespace, a.name)) && Members(gone) <= old(store.active).Keys
        && ToStateful(queue) == ToStateful(old(queue)) + ResolvesOf(Settings(), ClosingAll(old(store.active), gone, Some(now)))
      ensures var b, c := Rewritten(store.cfg.rx, cluster, overrides, a), old(store.View());
        && (a.resolved ==> store.View() == Dropped(c, OfObject(c, a.kind, a.namespace, a.name)))
        && (!a.resolved && a.event ==> ToStateful(queue) == ToStateful(old(queue)))
        && (!a.resolved && a.event ==>
              observed == if Muted(store.cfg, c, b.fingerprint, now) then old(observed) else old(observed) + [b])
        && (!a.resolved && !a.event && 0 < grace && now < start + grace ==>
              && store.View() == Seeded(c, b.fingerprint, now) && queue == old(queue) && observed == old(observed)
              && router.activeInhibits == old(router.activeInhibits))
      ensures !a.resolved && !a.event && (grace <= 0 || start + grace <= now) ==>
        var b, c := Rewritten(store.cfg.rx, cluster, overrides, a), old(store.View());
        if Muted(store.cfg, c, b.fingerprint, now)
        then store.View() == Touched(store.cfg, c, b.fingerprint, now) && queue == old(queue)
        else if old(Suppressed(b, now)) || RouteOf(b).None? then store.View() == c && queue == old(queue)
        else
          var grouped := Grouped(RouteOf(b).value, old(Absorbed(b, now)));
          if old(Absorbed(b, now)) && grouped == []
          then store.View() == Seeded(c, b.fingerprint, now) && ToStateful(queue) == ToStateful(old(queue))
          else
            && store.View() == Sent(store.cfg, c, b, later)
            && EndsWith(old(queue), queue, Queued(Stamped(store.cfg, c, b, later), grouped, true))
      ensures !a.resolved ==>
        var b := Rewritten(store.cfg.rx, cluster, overrides, a);
        var act := if b.event then Point(b, old(Suppressed(b, now)), now)
                   else if 0 < grace && now < start + grace then Grace(b, now)
                   else Fire(b, old(Suppressed(b, now)), old(Absorbed(b, now)), now, later);
        && store.View() == NextCore(Settings(), old(store.View()), act)
        && QueueStep(Settings(), old(store.View()), act, old(queue), queue)
    {
      gone := [];
      if a.resolved {
        gone := ObjectGone(a, now);
        return;
      }
      var b := Rewrite(store.cfg.rx, cluster, overrides, a);
      if b.event {
        EmitEvent(b, now);
        return;
      }
      if grace > 0 && now - start < grace {
        store.Seed(b.fingerprint, now);
        return;
      }
      ghost var was := queue;
      EmitFiring(b, now, later);
      if SummariesSince(was, queue) {
        SummariesAreStateless(was, queue);
      }
    }
  }

  lemma ExpiredWindows(buckets: map<Grouping.Key, Grouping.Bucket>, order: seq<Grouping.Key>, windows: seq<Grouping.Bucket>, now: Time)
    requires Members(order) <= buckets.Keys && windows == Grouping.BucketsOf(buckets, order)
    requires Enumerates(order, set key | key in buckets && now > buckets[key].deadline)
    ensures forall b | b in windows :: exists key :: key in buckets && buckets[key] == b && now > b.deadline
    ensures forall key | key in buckets && now > buckets[key].deadline :: buckets[key] in windows
  {
    forall key | key in buckets && now > buckets[key].deadline
      ensures buckets[key] in windows
    {
      assert key in order;
      var i :| 0 <= i < |order| && order[i] == key;
      assert windows[i] == buckets[key];
    }
    forall b | b in windows
      ensures exists key :: key in buckets && buckets[key] == b && now > b.deadline
    {
      var i :| 0 <= i < |windows| && windows[i] == b;
      assert order[i] in order && buckets[order[i]] == b;
    }
  }

  lemma AllWindows(buckets: map<Grouping.Key, Grouping.Bucket>, order: seq<Grouping.Key>, windows: seq<Grouping.Bucket>)
    requires Members(order) <= buckets.Keys && windows == Grouping.BucketsOf(buckets, order) && Enumerates(order, buckets.Keys)
    ensures forall key | key in buckets :: buckets[key] in windows
  {
    forall key | key in buckets
      ensures buckets[key] in windows
    {
      assert key in order;
      var i :| 0 <= i < |order| && order[i] == key;
      assert windows[i] == buckets[key];
    }
  }

  /** The alert under the rule's prefix and with one more label, nothing else changed. */
  predicate IsTagged(a: Alert, b: Alert, prefix: string) {
    && b == a.(labels := b.labels, summary := b.summary) && b.summary == prefix + a.summary
    && b.labels.Keys == a.labels.Keys + {"alertkube-escalated"} && b.labels["alertkube-escalated"] == "true"
    && forall k | k in a.labels && k != "alertkube-escalated" :: b.labels[k] == a.labels[k]
  }

  lemma EscalatedIsTagged(a: Alert, prefix: string)
    ensures IsTagged(a, Escalated(a, prefix), prefix)
  {
  }

  /** One tagged copy of each alert, for the rule's sinks. */
  lemma {:induction false} EscalationsAreTagged(active: map<string, Alert>, order: seq<string>, sinks: seq<string>, prefix: string)
    requires Members(order) <= active.Keys && sinks != []
    ensures var more := EscalationsOf(active, order, sinks, prefix);
      && |more| == |order|
      && forall i | 0 <= i < |order| ::
        order[i] in active && more[i].route == sinks && !more[i].rollback && IsTagged(active[order[i]], more[i].a, prefix)
  {
    if order != [] {
      var n := |order| - 1;
      assert Members(order[..n]) <= Members(order) && order[n] in Members(order);
      EscalationsAreTagged(active, order[..n], sinks, prefix);
      EscalatedIsTagged(active[order[n]], prefix);
    }
  }

  lemma {:induction false} AlertsAt(active: map<string, Alert>, order: seq<string>, i: nat)
    requires Members(order) <= active.Keys && i < |order|
    ensures order[i] in active && |AlertsOf(active, order)| == |order| && AlertsOf(active, order)[i] == active[order[i]]
    ensures Members(order[..i + 1]) <= active.Keys
  {
    var n := |order| - 1;
    assert order[i] in Members(order) && order[n] in Members(order);
    assert Members(order[..n]) <= Members(order) && Members(order[..i + 1]) <= Members(order);
    if n > 0 {
      AlertsAt(active, order[..n], if i < n then i else n - 1);
    }
  }

  lemma NothingStateful(route: seq<string>)
    ensures KeepStateful(DropStateful(route)) == []
  {
    if KeepStateful(DropStateful(route)) != [] {
      var s := KeepStateful(DropStateful(route))[0];
      KeptIs(DropStateful(route), s => s in STATEFUL, s);
      KeptIs(route, s => s !in STATEFUL, s);
    }
  }
}
