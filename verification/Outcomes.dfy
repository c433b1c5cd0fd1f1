/** What the outcomes of deliveries mean (settle and scheduleResolveRetry in
    internal/app/dispatcher.go): read off what the producers asked for and what the fan-outs
    answered, over every run of the pool. */
module Outcomes {
  import opened Wrappers
  import opened Alerts
  import opened Dispatcher

  /** What a producer handed over; `rollback` says that it came with an onFail callback. */
  datatype Order = Order(alert: Alert, route: seq<string>, rollback: bool)

  /** For each id its order, and the verdicts of its fan-outs so far. */
  datatype Journal = Journal(orders: map<nat, Order>, verdicts: map<nat, seq<bool>>)

  const NOTHING := Journal(map[], map[])

  function Verdicts(h: Journal, id: nat): seq<bool> {
    if id in h.verdicts then h.verdicts[id] else []
  }

  ghost function Noted(s: State, l: Step, h: Journal): Journal
    requires Enabled(s, l)
  {
    match l
    case Enqueue(a, route, rollback) => h.(orders := h.orders[s.outbox.nextID + 1 := Order(a, route, rollback)])
    case Finish(i, delivered) =>
      var id := s.lanes[i].worker.job.id;
      h.(verdicts := h.verdicts[id := Verdicts(h, id) + [delivered]])
    case _ => h
  }

  ghost function JournalOf(s: State, run: seq<Step>, h: Journal): Journal
    requires IsRun(s, run)
    decreases |run|
  {
    if run == [] then h else JournalOf(Next(s, run[0]), run[1..], Noted(s, run[0], h))
  }

  // ---------------------------------------------------------------- what an outcome means

  predicate AllFailed(vs: seq<bool>) {
    forall k | 0 <= k < |vs| :: !vs[k]
  }

  /** The last of n verdicts decides, and only a resolve without rollback was tried again; one
      that is given up has used every attempt. */
  predicate Earned(outcome: Outcome, order: Order, n: nat, last: bool) {
    && n > 0
    && (outcome == Delivered <==> last)
    && (outcome == RolledBack <==> !last && order.rollback)
    && (outcome == DeadLettered && order.alert.resolved ==> n == 1 + MAX_RESOLVE_RETRIES)
    && (n > 1 ==> order.alert.resolved && !order.rollback)
  }

  /** The outcome is earned by these verdicts, of which all but the last failed. */
  predicate EarnedBy(outcome: Outcome, order: Order, vs: seq<bool>) {
    vs != [] && AllFailed(vs[..|vs| - 1]) && Earned(outcome, order, |vs|, vs[|vs| - 1])
  }

  ghost predicate IsSettling(s: State, x: Job)
    requires s.lanes != []
  {
    var w := s.lanes[LaneOf(s, x.alert)].worker;
    w.Settling? && w.job == x
  }

  /** What the journal knows of a job that is in some place. */
  ghost predicate Fits(s: State, h: Journal, x: Job)
    requires s.lanes != []
  {
    && x.id in h.orders && h.orders[x.id] == Order(x.alert, x.route, x.rollback)
    && (x.retries > 0 ==> x.alert.resolved && !x.rollback)
    && if IsSettling(s, x)
       then |Verdicts(h, x.id)| == x.retries + 1
            && EarnedBy(s.lanes[LaneOf(s, x.alert)].worker.outcome, h.orders[x.id], Verdicts(h, x.id))
       else |Verdicts(h, x.id)| == x.retries && AllFailed(Verdicts(h, x.id))
  }

  ghost predicate Explained(s: State, h: Journal) {
    forall id | id in s.outbox.done ::
      id in h.orders && id in s.attempts && |Verdicts(h, id)| == s.attempts[id]
      && EarnedBy(s.outbox.done[id], h.orders[id], Verdicts(h, id))
  }

  ghost predicate Told(s: State, h: Journal)
    requires s.lanes != []
  {
    && (forall x | Places(s, x) > 0 :: Fits(s, h, x)) && Explained(s, h)
    && forall id | id in h.verdicts :: id <= s.outbox.nextID
  }

  // ---------------------------------------------------------------- every step

  /** The verdict on a job that is not to be tried again decides its outcome. */
  lemma VerdictDecides(x: Job, delivered: bool)
    requires x.retries <= MAX_RESOLVE_RETRIES && !WillRetry(x, delivered)
    requires x.retries > 0 ==> x.alert.resolved && !x.rollback
    ensures var w := Settled(x, delivered);
      w.Settling? && w.job == x && Earned(w.outcome, Order(x.alert, x.route, x.rollback), x.retries + 1, delivered)
  {
  }

  lemma EarnedNext(outcome: Outcome, order: Order, vs: seq<bool>, last: bool)
    requires AllFailed(vs) && Earned(outcome, order, |vs| + 1, last)
    ensures EarnedBy(outcome, order, vs + [last])
  {
    assert (vs + [last])[..|vs|] == vs;
  }

  lemma FinishDecides(s: State, l: Step, h: Journal)
    requires Enabled(s, l) && l.Finish? && Ended(s, l).None?
    requires var x := s.lanes[l.lane].worker.job;
      LaneOf(s, x.alert) == l.lane && Fits(s, h, x) && x.retries <= MAX_RESOLVE_RETRIES
    ensures Fits(Next(s, l), Noted(s, l, h), s.lanes[l.lane].worker.job)
  {
    var x := s.lanes[l.lane].worker.job;
    VerdictDecides(x, l.delivered);
    EarnedNext(Settled(x, l.delivered).outcome, h.orders[x.id], Verdicts(h, x.id), l.delivered);
    assert Next(s, l).lanes[l.lane].worker == Settled(x, l.delivered);
  }

  /** A step that works on another id adds nothing to the journal of this one. */
  lemma JournalFrame(s: State, l: Step, h: Journal, id: nat)
    requires Enabled(s, l) && id in h.orders
    requires l.Enqueue? ==> id != s.outbox.nextID + 1
    requires l.Finish? ==> s.lanes[l.lane].worker.job.id != id
    ensures id in Noted(s, l, h).orders && Noted(s, l, h).orders[id] == h.orders[id]
    ensures Verdicts(Noted(s, l, h), id) == Verdicts(h, id)
  {
  }

  /** Nor does it change what the lanes say of a job. */
  lemma FitsFrame(s: State, l: Step, h: Journal, x: Job)
    requires Enabled(s, l) && Fits(s, h, x)
    requires l.Enqueue? ==> x.id != s.outbox.nextID + 1
    requires l.Finish? || l.Ack? ==> s.lanes[l.lane].worker.job.id != x.id
    ensures Fits(Next(s, l), Noted(s, l, h), x)
  {
    JournalFrame(s, l, h, x.id);
    SettlingFrame(s, l, x);
  }

  lemma SettlingFrame(s: State, l: Step, x: Job)
    requires Enabled(s, l)
    requires l.Finish? || l.Ack? ==> s.lanes[l.lane].worker.job.id != x.id
    ensures LaneOf(Next(s, l), x.alert) == LaneOf(s, x.alert) && IsSettling(Next(s, l), x) == IsSettling(s, x)
    ensures IsSettling(s, x) ==> Next(s, l).lanes[LaneOf(s, x.alert)].worker == s.lanes[LaneOf(s, x.alert)].worker
  {
    assert NextLane(s, l).worker == s.lanes[LaneTouched(s, l)].worker || l.Take? || l.Finish? || l.Ack?;
  }

  lemma FitsStep(s: State, l: Step, h: Journal, x: Job)
    requires Inv(s) && Enabled(s, l) && Places(s, x) > 0 && Fits(s, h, x) && Ended(s, l) != Some(x)
    ensures Fits(Next(s, l), Noted(s, l, h), x)
  {
    MintedIsFresh(s);
    if l.Finish? || l.Ack? {
      HeldIsLive(s, l.lane);
      HeldIsHome(s, l.lane);
      var j := s.lanes[l.lane].worker.job;
      assert j.id == x.id ==> j == x;
      assert Counted(s, x);
      if l.Finish? && j == x {
        FinishDecides(s, l, h);
      } else {
        FitsFrame(s, l, h, x);
      }
    } else {
      FitsFrame(s, l, h, x);
    }
  }

  /** A minted job has an order and no verdict yet. */
  lemma MintedFits(s: State, l: Step, h: Journal)
    requires Inv(s) && Enabled(s, l) && l.Enqueue? && s.outbox.nextID + 1 !in h.verdicts
    ensures Fits(Next(s, l), Noted(s, l, h), Born(s, l).value)
  {
    MintedIsFresh(s);
    var x := Born(s, l).value;
    SettlingFrame(s, l, x);
    if IsSettling(s, x) {
      HeldIsLive(s, LaneOf(s, x.alert));
    }
  }

  /** A retry has one failed verdict more than the job it replaces. */
  lemma RetryFits(s: State, l: Step, h: Journal)
    requires Enabled(s, l) && l.Finish? && Born(s, l).Some?
    requires var x := s.lanes[l.lane].worker.job; LaneOf(s, x.alert) == l.lane && Fits(s, h, x)
    ensures Fits(Next(s, l), Noted(s, l, h), Born(s, l).value)
  {
    var x := s.lanes[l.lane].worker.job;
    assert Next(s, l).lanes[l.lane].worker == Idle;
    assert LaneOf(Next(s, l), Retried(x).alert) == l.lane;
  }

  lemma BornFits(s: State, l: Step, h: Journal)
    requires Inv(s) && Enabled(s, l) && Told(s, h) && Born(s, l).Some?
    ensures Fits(Next(s, l), Noted(s, l, h), Born(s, l).value)
  {
    if l.Finish? {
      HeldIsLive(s, l.lane);
      HeldIsHome(s, l.lane);
      RetryFits(s, l, h);
    } else {
      MintedFits(s, l, h);
    }
  }

  lemma ExplainedStep(s: State, l: Step, h: Journal)
    requires Inv(s) && Enabled(s, l) && Told(s, h)
    ensures Explained(Next(s, l), Noted(s, l, h))
  {
    var s', h' := Next(s, l), Noted(s, l, h);
    forall id | id in s'.outbox.done
      ensures id in h'.orders && id in s'.attempts && |Verdicts(h', id)| == s'.attempts[id]
        && EarnedBy(s'.outbox.done[id], h'.orders[id], Verdicts(h', id))
    {
      if l.Ack? && id == s.lanes[l.lane].worker.job.id {
        AckExplains(s, l, h);
      } else {
        assert id in s.outbox.done;
        OutcomeKept(s, l, id);
        DoneIsUntouched(s, l, h, id);
      }
    }
  }

  lemma AckExplains(s: State, l: Step, h: Journal)
    requires Inv(s) && Enabled(s, l) && Told(s, h) && l.Ack?
    ensures var id, s' := s.lanes[l.lane].worker.job.id, Next(s, l);
      && id in h.orders && id in s'.attempts && |Verdicts(h, id)| == s'.attempts[id]
      && id in s'.outbox.done && EarnedBy(s'.outbox.done[id], h.orders[id], Verdicts(h, id))
  {
    HeldIsLive(s, l.lane);
    HeldIsHome(s, l.lane);
    var j := s.lanes[l.lane].worker.job;
    assert Fits(s, h, j) && Counted(s, j) && IsSettling(s, j);
  }

  lemma DoneIsUntouched(s: State, l: Step, h: Journal, id: nat)
    requires Inv(s) && Enabled(s, l) && id in s.outbox.done && id in h.orders
    ensures id in Noted(s, l, h).orders && Noted(s, l, h).orders[id] == h.orders[id]
    ensures Verdicts(Noted(s, l, h), id) == Verdicts(h, id)
  {
    MintedIsFresh(s);
    if l.Finish? {
      HeldIsRecorded(s, l.lane);
    }
    assert id !in s.outbox.pending;
    JournalFrame(s, l, h, id);
  }

  lemma VerdictsAreOfMinted(s: State, l: Step, h: Journal)
    requires Inv(s) && Enabled(s, l) && forall id | id in h.verdicts :: id <= s.outbox.nextID
    ensures forall id | id in Noted(s, l, h).verdicts :: id <= Next(s, l).outbox.nextID
  {
    if l.Finish? {
      HeldIsLive(s, l.lane);
      MintedIsFresh(s);
    }
  }

  lemma ToldStep(s: State, l: Step, h: Journal)
    requires Inv(s) && Enabled(s, l) && Told(s, h)
    ensures Next(s, l).lanes != [] && Told(Next(s, l), Noted(s, l, h))
  {
    var s', h' := Next(s, l), Noted(s, l, h);
    forall x | Places(s', x) > 0
      ensures Fits(s', h', x)
    {
      JobsAreMoved(s, l, x);
      if Born(s, l) == Some(x) {
        BornFits(s, l, h);
      } else {
        EndedIsAlone(s, l);
        FitsStep(s, l, h, x);
      }
    }
    ExplainedStep(s, l, h);
    VerdictsAreOfMinted(s, l, h);
  }

  lemma {:induction false} ToldAlways(s: State, run: seq<Step>, h: Journal)
    requires Inv(s) && IsRun(s, run) && Told(s, h)
    ensures After(s, run).lanes != [] && Told(After(s, run), JournalOf(s, run, h))
    decreases |run|
  {
    if run != [] {
      InvStep(s, run[0]);
      ToldStep(s, run[0], h);
      ToldAlways(Next(s, run[0]), run[1..], Noted(s, run[0], h));
    }
  }

  // ---------------------------------------------------------------- guarantees

  /** Over every run: a delivery is acknowledged as Delivered if and only if its last fan-out
      delivered, as RolledBack if and only if that failed and its producer asked for rollback,
      and given up only otherwise, a resolve only after all its attempts. Earlier fan-outs all
      failed, and only a resolve without rollback has more than one. */
  lemma OutcomeIsEarned(s: State, id: nat, hash: string -> nat, workers: nat, queueSize: nat, run: seq<Step>)
    requires Reachable(s, hash, workers, queueSize, run) && id in s.outbox.done
    ensures var h := JournalOf(NewDispatcher(hash, workers, queueSize), run, NOTHING);
      && id in h.orders && id in h.verdicts && id in s.attempts && |h.verdicts[id]| == s.attempts[id] > 0
      && var order, vs, last := h.orders[id], h.verdicts[id], h.verdicts[id][s.attempts[id] - 1];
      && (forall k | 0 <= k < |vs| - 1 :: !vs[k])
      && (s.outbox.done[id] == Delivered <==> last)
      && (s.outbox.done[id] == RolledBack <==> !last && order.rollback)
      && (s.outbox.done[id] == DeadLettered <==> !last && !order.rollback)
      && (s.outbox.done[id] == DeadLettered && order.alert.resolved ==> |vs| == 1 + MAX_RESOLVE_RETRIES)
      && (|vs| > 1 ==> order.alert.resolved && !order.rollback)
  {
    var s0 := NewDispatcher(hash, workers, queueSize);
    NewDispatcherInv(hash, workers, queueSize);
    NothingIsTold(hash, workers, queueSize);
    ToldAlways(s0, run, NOTHING);
    EarnedMeans(s.outbox.done[id], JournalOf(s0, run, NOTHING).orders[id], Verdicts(JournalOf(s0, run, NOTHING), id));
  }

  lemma EarnedMeans(outcome: Outcome, order: Order, vs: seq<bool>)
    requires EarnedBy(outcome, order, vs)
    ensures forall k | 0 <= k < |vs| - 1 :: !vs[k]
    ensures outcome == DeadLettered <==> !vs[|vs| - 1] && !order.rollback
  {
    forall k | 0 <= k < |vs| - 1
      ensures !vs[k]
    {
      assert vs[..|vs| - 1][k] == vs[k];
    }
  }

  lemma NothingIsTold(hash: string -> nat, workers: nat, queueSize: nat)
    requires workers > 0
    ensures Told(NewDispatcher(hash, workers, queueSize), NOTHING)
  {
    var s := NewDispatcher(hash, workers, queueSize);
    forall x
      ensures Places(s, x) == 0
    {
      EmptyLanesHoldNothing(s.lanes, x);
    }
  }

  /** And every live delivery has so far only failed, once per retry, so that a resolve has
      all its attempts before it is given up. */
  lemma LiveHasFailed(s: State, x: Job, hash: string -> nat, workers: nat, queueSize: nat, run: seq<Step>)
    requires Reachable(s, hash, workers, queueSize, run) && Places(s, x) > 0
    ensures s.lanes != []
    ensures var h := JournalOf(NewDispatcher(hash, workers, queueSize), run, NOTHING);
      && x.id in h.orders && h.orders[x.id] == Order(x.alert, x.route, x.rollback)
      && (!IsSettling(s, x) ==> |Verdicts(h, x.id)| == x.retries && AllFailed(Verdicts(h, x.id)))
  {
    NewDispatcherInv(hash, workers, queueSize);
    NothingIsTold(hash, workers, queueSize);
    ToldAlways(NewDispatcher(hash, workers, queueSize), run, NOTHING);
    assert Fits(s, JournalOf(NewDispatcher(hash, workers, queueSize), run, NOTHING), x);
  }
}
