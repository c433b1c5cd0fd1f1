/** What becomes of one firing or event (internal/app/event_emitter.go and pipeline.go), told by
    the mute record, the route and the grouper's answer. */
module Fates {
  import opened Wrappers
  import opened Alerts
  import opened AlertStore
  import opened Pipeline
  import opened Collections
  import Incidents

  const PAGERS := {"pagerduty", "opsgenie"}

  /** The fingerprint was sent or seeded less than a mute window ago. */
  predicate InWindow(p: Setup, c: Core, fp: string, now: Time) {
    fp in c.lastSent && now < c.lastSent[fp] + p.store.muteWindow
  }

  /** Some sink of the route opens incidents. */
  predicate Pages(route: seq<string>) {
    exists s :: s in route && s in PAGERS
  }

  lemma StatefulSinks(route: seq<string>)
    ensures forall s :: s in KeepStateful(route) <==> s in route && s in PAGERS
    ensures forall s :: s in DropStateful(route) <==> s in route && s !in PAGERS
    ensures KeepStateful(route) != [] <==> Pages(route)
  {
    forall s
      ensures s in KeepStateful(route) <==> s in route && s in PAGERS
      ensures s in DropStateful(route) <==> s in route && s !in PAGERS
    {
      KeptIs(route, s => s in STATEFUL, s);
      KeptIs(route, s => s !in STATEFUL, s);
    }
    if KeepStateful(route) != [] {
      assert KeepStateful(route)[0] in KeepStateful(route);
    }
    if Pages(route) {
      var s :| s in route && s in PAGERS;
      assert s in KeepStateful(route);
    }
  }

  /** A firing is sent if and only if it is outside the mute window, nothing suppresses it, a
      route takes it, and the grouper passes it or its route pages. */
  lemma FireIsSent(p: Setup, c: Core, act: Act)
    requires act.Fire?
    ensures Incidents.Accepts(p, c, act) <==>
      && !InWindow(p, c, act.b.fingerprint, act.now) && !act.suppressed && RouteFor(p, act.b).Some?
      && (!act.absorbed || Pages(RouteFor(p, act.b).value))
  {
    if RouteFor(p, act.b).Some? {
      StatefulSinks(RouteFor(p, act.b).value);
    }
  }

  /** A sent firing is queued once, with rollback, under its own fingerprint and fields: to
      every sink of its route, or when absorbed to those that page. */
  lemma SentFireIsQueued(p: Setup, c: Core, act: Act, was: seq<Queued>, queue: seq<Queued>)
    requires act.Fire? && QueueStep(p, c, act, was, queue) && Incidents.Accepts(p, c, act)
    ensures var route := RouteFor(p, act.b).value;
      var allowed := set s | s in route && (!act.absorbed || s in PAGERS);
      && (allowed == {} ==> SummariesSince(was, queue))
      && (allowed != {} ==>
            && queue != [] && SummariesSince(was, queue[..|queue| - 1])
            && var q := queue[|queue| - 1];
            q.rollback && q.a.fingerprint == act.b.fingerprint && SameFields(q.a, act.b)
            && (forall s :: s in q.route <==> s in allowed) && (!act.absorbed ==> q.route == route))
  {
    StatefulSinks(RouteFor(p, act.b).value);
    var q := FireQueues(p, c, act).value;
    if q.route != [] {
      assert q.route[0] in q.route;
    }
  }

  /** A firing folded into a summary alone is not active, but muted for a whole window. */
  lemma FoldedFireIsMuted(p: Setup, c: Core, act: Act, was: seq<Queued>, queue: seq<Queued>, later: Time)
    requires act.Fire? && QueueStep(p, c, act, was, queue)
    requires !InWindow(p, c, act.b.fingerprint, act.now) && !act.suppressed && RouteFor(p, act.b).Some?
    requires act.absorbed && !Pages(RouteFor(p, act.b).value)
    ensures NextCore(p, c, act).active == c.active && SummariesSince(was, queue)
    ensures InWindow(p, NextCore(p, c, act), act.b.fingerprint, later) <==> later < act.now + p.store.muteWindow
  {
    StatefulSinks(RouteFor(p, act.b).value);
  }

  /** A firing that is suppressed or has no route leaves no trace; a muted one renews its
      alert's deadline and does nothing else. */
  lemma OtherFiresAreSilent(p: Setup, c: Core, act: Act, was: seq<Queued>, queue: seq<Queued>)
    requires act.Fire? && QueueStep(p, c, act, was, queue)
    requires InWindow(p, c, act.b.fingerprint, act.now) || act.suppressed || RouteFor(p, act.b).None?
    ensures SummariesSince(was, queue) && NextCore(p, c, act).lastSent == c.lastSent
    ensures NextCore(p, c, act).active.Keys == c.active.Keys
    ensures forall fp | fp in c.active ::
      NextCore(p, c, act).active[fp] ==
        if fp == act.b.fingerprint && InWindow(p, c, fp, act.now)
        then c.active[fp].(endsAt := act.now + p.store.resolveTTL) else c.active[fp]
  {
  }

  /** An event goes to every sink of its route that does not page, once in a mute window, and
      is never active. */
  lemma EventIsQueued(p: Setup, c: Core, act: Act, was: seq<Queued>, queue: seq<Queued>)
    requires act.Point? && QueueStep(p, c, act, was, queue)
    ensures NextCore(p, c, act).active == c.active
    ensures InWindow(p, c, act.b.fingerprint, act.now) ==> NextCore(p, c, act) == c && queue == was
    ensures !InWindow(p, c, act.b.fingerprint, act.now) && !act.suppressed && RouteFor(p, act.b).Some? ==>
      var allowed := set s | s in RouteFor(p, act.b).value && s !in PAGERS;
      allowed != {} ==>
        queue != [] && var q := queue[|queue| - 1]; q.a == act.b && !q.rollback && forall s :: s in q.route <==> s in allowed
  {
    if RouteFor(p, act.b).Some? {
      StatefulSinks(RouteFor(p, act.b).value);
    }
  }

  // ---------------------------------------------------------------- what may roll back

  predicate FiresRollBack(queue: seq<Queued>) {
    forall q | q in queue :: q.rollback ==> !q.a.resolved
  }

  lemma AppendsRollBack(was: seq<Queued>, queue: seq<Queued>, q: Queued)
    requires FiresRollBack(was) && EndsWith(was, queue, q) && (q.rollback ==> !q.a.resolved)
    ensures FiresRollBack(queue)
  {
    if q.route == [] {
      SummariesRollBack(was, queue);
    } else {
      SummariesRollBack(was, queue[..|queue| - 1]);
      assert queue == queue[..|queue| - 1] + [q];
    }
  }

  lemma SummariesRollBack(was: seq<Queued>, queue: seq<Queued>)
    requires FiresRollBack(was) && SummariesSince(was, queue)
    ensures FiresRollBack(queue)
  {
    forall q | q in queue
      ensures q.rollback ==> !q.a.resolved
    {
      var i :| 0 <= i < |queue| && queue[i] == q;
      if i < |was| {
        assert was[i] == q;
      }
    }
  }

  lemma {:induction false} ResolvesDoNotRollBack(p: Setup, closed: seq<Alert>, was: seq<Queued>, queue: seq<Queued>)
    requires FiresRollBack(was) && ResolvesQueued(p, closed, was, queue)
    ensures FiresRollBack(queue)
    decreases |closed|
  {
    if closed != [] {
      var front, last := closed[..|closed| - 1], closed[|closed| - 1];
      var mid, absorbed :| ReceiveStep(p, last, absorbed, mid, queue) && ResolvesQueued(p, front, was, mid);
      ResolvesDoNotRollBack(p, front, was, mid);
      ReceivedDoesNotRollBack(p, last, absorbed, mid, queue);
    }
  }

  lemma ReceivedDoesNotRollBack(p: Setup, a: Alert, absorbed: bool, was: seq<Queued>, queue: seq<Queued>)
    requires FiresRollBack(was) && ReceiveStep(p, a, absorbed, was, queue)
    ensures FiresRollBack(queue)
  {
    if RouteFor(p, a).Some? {
      AppendsRollBack(was, queue, Queued(a, Grouped(RouteFor(p, a).value, absorbed), false));
    }
  }

  lemma {:induction false} EscalationsDoNotRollBack(active: map<string, Alert>, order: seq<string>, sinks: seq<string>, prefix: string)
    requires Members(order) <= active.Keys
    ensures forall q | q in EscalationsOf(active, order, sinks, prefix) :: !q.rollback
  {
    if order != [] && sinks != [] {
      assert Members(order[..|order| - 1]) <= Members(order);
      EscalationsDoNotRollBack(active, order[..|order| - 1], sinks, prefix);
    }
  }

  lemma RollBackStep(p: Setup, c: Core, act: Act, was: seq<Queued>, queue: seq<Queued>)
    requires Incidents.Possible(p, act) && QueueStep(p, c, act, was, queue) && FiresRollBack(was)
    ensures FiresRollBack(queue)
  {
    match act {
      case Fire(_, _, _, _, _) => FireRollsBack(p, c, act, was, queue);
      case Deliver(_, _, _) => FireRollsBack(p, c, act, was, queue);
      case Point(b, suppressed, now) =>
        if queue != was {
          AppendsRollBack(was, queue, Queued(b, DropStateful(RouteFor(p, b).value), false));
        }
      case SweepUp(now) => ClosesDoNotRollBack(p, c, Expired(c, now), None, was, queue);
      case Gone(kind, ns, name, now) => ClosesDoNotRollBack(p, c, OfObject(c, kind, ns, name), Some(now), was, queue);
      case Tell(_) => SummariesRollBack(was, queue);
      case Received(b, absorbed, _) => ReceivedDoesNotRollBack(p, b, absorbed, was, queue);
      case Escalation(after, ruleKey, want, sinks, prefix, now) =>
        EscalatedDoNotRollBack(c, Due(p.store, c, after, ruleKey, want, now), sinks, prefix, was, queue);
      case Boot(replayed, _) =>
        forall q | q in replayed
          ensures q.rollback ==> !q.a.resolved
        {
          var i :| 0 <= i < |replayed| && replayed[i] == q;
          assert Repeats(replayed[i], was);
        }
      case _ =>
    }
  }

  lemma FireRollsBack(p: Setup, c: Core, act: Act, was: seq<Queued>, queue: seq<Queued>)
    requires act.Fire? || act.Deliver?
    requires Incidents.Possible(p, act) && QueueStep(p, c, act, was, queue) && FiresRollBack(was)
    ensures FiresRollBack(queue)
  {
    if FireQueues(p, c, act).Some? {
      AppendsRollBack(was, queue, FireQueues(p, c, act).value);
    } else {
      SummariesRollBack(was, queue);
    }
  }

  lemma ClosesDoNotRollBack(p: Setup, c: Core, fps: set<string>, endsAt: Option<Time>, was: seq<Queued>, queue: seq<Queued>)
    requires Closes(p, c, fps, endsAt, was, queue) && FiresRollBack(was)
    ensures FiresRollBack(queue)
  {
    var order :| Enumerates(order, fps) && Members(order) <= c.active.Keys
      && ResolvesQueued(p, ClosingAll(c.active, order, endsAt), was, queue);
    ResolvesDoNotRollBack(p, ClosingAll(c.active, order, endsAt), was, queue);
  }

  lemma EscalatedDoNotRollBack(c: Core, fps: set<string>, sinks: seq<string>, prefix: string, was: seq<Queued>, queue: seq<Queued>)
    requires Escalates(c, fps, sinks, prefix, was, queue) && FiresRollBack(was)
    ensures FiresRollBack(queue)
  {
    var order :| Enumerates(order, fps) && Members(order) <= c.active.Keys
      && queue == was + EscalationsOf(c.active, order, sinks, prefix);
    EscalationsDoNotRollBack(c.active, order, sinks, prefix);
  }

  /** Over every run of the emitter, restarts with their replay included: no resolve is ever
      queued with rollback, so that every failed one has its retries. */
  lemma {:induction false} ResolvesAreRetried(p: Setup, c: Core, acts: seq<Act>, queues: seq<seq<Queued>>)
    requires Incidents.IsTrace(p, c, acts, queues) && FiresRollBack(queues[0])
    ensures forall q | q in queues[|acts|] && q.a.resolved :: !q.rollback
    decreases |acts|
  {
    if acts != [] {
      RollBackStep(p, c, acts[0], queues[0], queues[1]);
      ResolvesAreRetried(p, NextCore(p, c, acts[0]), acts[1..], queues[1..]);
    }
  }
}
