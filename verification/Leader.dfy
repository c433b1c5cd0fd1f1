/** The leadership hand-over of internal/app/leaderelection.go: the main goroutine,
    the elector and the controller callback, interleaved step by step. */
module Leader {
  /** The OnStartedLeading callback: not called yet, turned away, inside the
      controller body, or returned (which closes `done`). */
  datatype Callback = NotCalled | TurnedAway | Running | Returned

  /** runLeaderElection itself; `lost` says that the elector returned first. */
  datatype Main = Selecting | Stopping(lost: bool) | Draining(lost: bool, wait: bool) | Releasing | Finished

  datatype State = State(
    callback: Callback, main: Main, started: bool, stopping: bool,
    signalled: bool,       // ctx is done
    acquired: bool,        // client-go has spawned the callback goroutine
    renewalFailed: bool,
    electorDone: bool,     // RunOrDie has returned: the lease is released or lost
    cancelled: bool,       // leCancel has been called
    expired: bool)         // the drain budget has run out

  const START := State(NotCalled, Selecting, false, false, false, false, false, false, false, false)

  datatype Step =
    | Signal
    | Acquire
    | RenewalFails
    | ElectorReturns
    | CallbackEnters
    | ControllerReturns
    | SelectSignal
    | SelectElected
    | SetStopping
    | BudgetExpires
    | DrainEnds
    | ReleaseEnds

  predicate Enabled(s: State, l: Step) {
    match l
    case Signal => true
    case Acquire => !s.acquired && !s.electorDone && !s.cancelled
    case RenewalFails => s.acquired && !s.electorDone
    case ElectorReturns => !s.electorDone && (s.renewalFailed || s.cancelled)
    case CallbackEnters => s.acquired && s.callback.NotCalled?
    case ControllerReturns => s.callback.Running?
    case SelectSignal => s.main.Selecting? && s.signalled
    case SelectElected => s.main.Selecting? && s.electorDone
    case SetStopping => s.main.Stopping?
    case BudgetExpires => s.main.Draining? || s.main.Releasing?
    case DrainEnds => s.main.Draining? && (!s.main.wait || s.callback.Returned? || s.expired)
    case ReleaseEnds => s.main.Releasing? && (s.electorDone || s.expired)
  }

  function Next(s: State, l: Step): State
    requires Enabled(s, l)
  {
    match l
    case Signal => s.(signalled := true)
    case Acquire => s.(acquired := true)
    case RenewalFails => s.(renewalFailed := true)
    case ElectorReturns => s.(electorDone := true)
    case CallbackEnters =>
      if s.stopping then s.(callback := TurnedAway) else s.(started := true, callback := Running)
    case ControllerReturns => s.(callback := Returned)
    case SelectSignal => s.(main := Stopping(false))
    case SelectElected => s.(main := Stopping(true))
    case SetStopping => s.(stopping := true, main := Draining(s.main.lost, s.started))
    case BudgetExpires => s.(expired := true)
    case DrainEnds => s.(cancelled := true, main := if s.main.lost then Finished else Releasing)
    case ReleaseEnds => s.(main := Finished)
  }

  predicate IsRun(s: State, run: seq<Step>)
    decreases |run|
  {
    run == [] || (Enabled(s, run[0]) && IsRun(Next(s, run[0]), run[1..]))
  }

  function After(s: State, run: seq<Step>): State
    requires IsRun(s, run)
    decreases |run|
  {
    if run == [] then s else After(Next(s, run[0]), run[1..])
  }

  /** The controller is over for good: it has returned, or can no longer start. */
  predicate ControllerOver(s: State) {
    s.callback.Returned? || (s.stopping && (s.callback.NotCalled? || s.callback.TurnedAway?))
  }

  predicate Inv(s: State) {
    && (s.started <==> s.callback.Running? || s.callback.Returned?)
    && (s.stopping <==> s.main.Draining? || s.main.Releasing? || s.main.Finished?)
    && (s.main.Draining? ==> (s.main.wait <==> s.started))
    && (s.cancelled <==> s.main.Releasing? || s.main.Finished?)
    && (s.cancelled ==> ControllerOver(s) || s.expired)
    && (s.electorDone ==> s.renewalFailed || s.cancelled)
    && (s.callback.TurnedAway? ==> s.stopping)
  }

  /** Being over lasts, whatever the next step. */
  lemma OverStep(s: State, l: Step)
    requires ControllerOver(s) && Enabled(s, l)
    ensures ControllerOver(Next(s, l))
  {
  }

  /** Neither the callback nor the main goroutine moves. */
  lemma LeaseSideStep(s: State, l: Step)
    requires Inv(s) && Enabled(s, l) && (l.Signal? || l.Acquire? || l.RenewalFails? || l.ElectorReturns? || l.BudgetExpires?)
    ensures Inv(Next(s, l))
  {
  }

  lemma CallbackStep(s: State, l: Step)
    requires Inv(s) && Enabled(s, l) && (l.CallbackEnters? || l.ControllerReturns?)
    ensures Inv(Next(s, l))
  {
  }

  lemma SelectStep(s: State, l: Step)
    requires Inv(s) && Enabled(s, l) && (l.SelectSignal? || l.SelectElected? || l.SetStopping?)
    ensures Inv(Next(s, l))
  {
  }

  lemma EndStep(s: State, l: Step)
    requires Inv(s) && Enabled(s, l) && (l.DrainEnds? || l.ReleaseEnds?)
    ensures Inv(Next(s, l))
  {
  }

  lemma InvStep(s: State, l: Step)
    requires Inv(s) && Enabled(s, l)
    ensures Inv(Next(s, l))
  {
    match l {
      case Signal => LeaseSideStep(s, l);
      case Acquire => LeaseSideStep(s, l);
      case RenewalFails => LeaseSideStep(s, l);
      case ElectorReturns => LeaseSideStep(s, l);
      case BudgetExpires => LeaseSideStep(s, l);
      case CallbackEnters => CallbackStep(s, l);
      case ControllerReturns => CallbackStep(s, l);
      case DrainEnds => EndStep(s, l);
      case ReleaseEnds => EndStep(s, l);
      case _ => SelectStep(s, l);
    }
  }

  lemma {:induction false} InvAlways(s: State, run: seq<Step>)
    requires Inv(s) && IsRun(s, run)
    ensures Inv(After(s, run))
    decreases |run|
  {
    if run != [] {
      InvStep(s, run[0]);
      InvAlways(Next(s, run[0]), run[1..]);
    }
  }

  /** In every interleaving the lease context is cancelled, and the function returns,
      only when the controller is over or the drain budget has expired; so the lease
      is given up by its holder, as opposed to lost, only then. */
  lemma LeaseOutlivesController(run: seq<Step>)
    requires IsRun(START, run)
    ensures var s := After(START, run);
      && (s.cancelled ==> ControllerOver(s) || s.expired)
      && (s.main.Finished? ==> ControllerOver(s) || s.expired)
      && (s.electorDone && !s.renewalFailed ==> ControllerOver(s) || s.expired)
  {
    InvAlways(START, run);
  }

  lemma {:induction false} OverStaysOver(s: State, run: seq<Step>)
    requires IsRun(s, run) && ControllerOver(s)
    ensures ControllerOver(After(s, run))
    decreases |run|
  {
    if run != [] {
      OverStep(s, run[0]);
      OverStaysOver(Next(s, run[0]), run[1..]);
    }
  }

  /** No controller starts once `stopping` is set: after that a callback that had not
      entered is turned away, in every continuation. */
  lemma {:induction false} NoStartAfterStopping(s: State, run: seq<Step>)
    requires Inv(s) && IsRun(s, run) && s.stopping && !s.started
    ensures !After(s, run).started && !After(s, run).callback.Running?
    decreases |run|
  {
    if run != [] {
      InvStep(s, run[0]);
      NoStartAfterStopping(Next(s, run[0]), run[1..]);
    }
  }

  /** A follower that never led has nothing to wait for: once it is stopping, ending
      the drain is enabled at once. */
  lemma FollowerDrainsAtOnce(run: seq<Step>)
    requires IsRun(START, run)
    requires After(START, run).main.Draining? && !After(START, run).started
    ensures Enabled(After(START, run), DrainEnds)
  {
    InvAlways(START, run);
  }

  /** In every interleaving the drain may end at once exactly when the controller is over,
      having returned or never started, or the budget has run out. */
  lemma DrainEndsExactlyWhenOver(run: seq<Step>)
    requires IsRun(START, run) && After(START, run).main.Draining?
    ensures Enabled(After(START, run), DrainEnds) <==>
      var s := After(START, run); s.callback.Returned? || s.callback.NotCalled? || s.callback.TurnedAway? || s.expired
  {
    InvAlways(START, run);
  }

  /** How much of the hand-over is left to do. */
  function Left(s: State): nat {
    match s.main
    case Selecting => 6
    case Stopping(_) => 5
    case Draining(_, _) => if s.callback.Running? then 4 else 3
    case Releasing => if s.electorDone then 1 else 2
    case Finished => 0
  }

  /** The main goroutine's own steps, and the two returns it waits for. */
  predicate MovesOn(l: Step) {
    l.SelectSignal? || l.SelectElected? || l.SetStopping? || l.DrainEnds? || l.ReleaseEnds?
    || l.ControllerReturns? || l.ElectorReturns?
  }

  lemma LeftStep(s: State, l: Step)
    requires Inv(s) && Enabled(s, l)
    ensures Left(Next(s, l)) <= Left(s)
  {
  }

  /** The hand-over never goes back: no step leaves more to do. */
  lemma HandOverNeverGoesBack(run: seq<Step>, l: Step)
    requires IsRun(START, run) && Enabled(After(START, run), l)
    ensures Left(Next(After(START, run), l)) <= Left(After(START, run))
  {
    InvAlways(START, run);
    LeftStep(After(START, run), l);
  }

  /** Nor does it get stuck: from every state any run reaches after a signal or the elector's
      return, some such step is possible that leaves less to do, without the drain budget. */
  lemma HandOverMovesOn(run: seq<Step>) returns (l: Step)
    requires IsRun(START, run)
    requires var s := After(START, run); !s.main.Finished? && (s.signalled || s.electorDone)
    ensures var s := After(START, run);
      MovesOn(l) && Enabled(s, l) && Left(Next(s, l)) < Left(s)
  {
    InvAlways(START, run);
    l := Forward(After(START, run));
    ForwardMovesOn(After(START, run));
  }

  function Forward(s: State): Step {
    match s.main
    case Selecting => if s.signalled then SelectSignal else SelectElected
    case Stopping(_) => SetStopping
    case Draining(_, _) => if s.callback.Running? then ControllerReturns else DrainEnds
    case Releasing => if s.electorDone then ReleaseEnds else ElectorReturns
    case Finished => ReleaseEnds
  }

  lemma ForwardMovesOn(s: State)
    requires Inv(s) && !s.main.Finished? && (s.signalled || s.electorDone)
    ensures MovesOn(Forward(s)) && Enabled(s, Forward(s)) && Left(Next(s, Forward(s))) < Left(s)
  {
  }

  /** Why the main goroutine is leaving: it was told to, or the elector gave up first. */
  predicate Grounds(s: State) {
    match s.main
    case Selecting => true
    case Stopping(lost) => if lost then s.electorDone else s.signalled
    case Draining(lost, _) => if lost then s.electorDone else s.signalled
    case Releasing => s.signalled
    case Finished => s.signalled || s.electorDone
  }

  lemma GroundsStep(s: State, l: Step)
    requires Grounds(s) && Enabled(s, l)
    ensures Grounds(Next(s, l))
  {
  }

  lemma {:induction false} GroundsAlways(s: State, run: seq<Step>)
    requires Grounds(s) && IsRun(s, run)
    ensures Grounds(After(s, run))
    decreases |run|
  {
    if run != [] {
      GroundsStep(s, run[0]);
      GroundsAlways(Next(s, run[0]), run[1..]);
    }
  }

  /** In every interleaving a lease is released only on a signal; a replica whose elector gave
      up first has nothing to release and returns as its drain ends. */
  lemma ReleasesOnlyOnSignal(run: seq<Step>)
    requires IsRun(START, run)
    ensures var s := After(START, run);
      && (s.main.Releasing? ==> s.signalled)
      && (s.main.Finished? ==> s.signalled || s.electorDone)
      && (Enabled(s, DrainEnds) && !s.signalled ==> s.electorDone && Next(s, DrainEnds).main.Finished?)
  {
    GroundsAlways(START, run);
  }

  // ---------------------------------------------------------------- two replicas

  /** Two replicas contend for one lease: one may acquire it only while the other is
      not between acquiring it and the return of its elector. */
  predicate HoldsLease(s: State) {
    s.acquired && !s.electorDone
  }

  datatype Pair = Pair(a: State, b: State)

  datatype Move = MoveA(step: Step) | MoveB(step: Step)

  predicate PairEnabled(p: Pair, m: Move) {
    match m
    case MoveA(l) => Enabled(p.a, l) && (l.Acquire? ==> !HoldsLease(p.b))
    case MoveB(l) => Enabled(p.b, l) && (l.Acquire? ==> !HoldsLease(p.a))
  }

  function PairNext(p: Pair, m: Move): Pair
    requires PairEnabled(p, m)
  {
    match m
    case MoveA(l) => p.(a := Next(p.a, l))
    case MoveB(l) => p.(b := Next(p.b, l))
  }

  predicate PairRun(p: Pair, run: seq<Move>)
    decreases |run|
  {
    run == [] || (PairEnabled(p, run[0]) && PairRun(PairNext(p, run[0]), run[1..]))
  }

  function PairAfter(p: Pair, run: seq<Move>): Pair
    requires PairRun(p, run)
    decreases |run|
  {
    if run == [] then p else PairAfter(PairNext(p, run[0]), run[1..])
  }

  predicate PairInv(p: Pair) {
    && Inv(p.a) && Inv(p.b)
    && !(HoldsLease(p.a) && HoldsLease(p.b))
    && CalledHolder(p.a) && CalledHolder(p.b)
  }

  /** A callback that was called belongs to a lease that was acquired. */
  predicate CalledHolder(s: State) {
    !s.callback.NotCalled? ==> s.acquired
  }

  lemma CalledStep(s: State, l: Step)
    requires Enabled(s, l) && CalledHolder(s)
    ensures CalledHolder(Next(s, l))
  {
  }

  lemma LeaseStep(s: State, l: Step)
    requires Enabled(s, l)
    ensures HoldsLease(Next(s, l)) ==> HoldsLease(s) || l.Acquire?
  {
  }

  lemma {:induction false} PairInvAlways(p: Pair, run: seq<Move>)
    requires PairInv(p) && PairRun(p, run)
    ensures PairInv(PairAfter(p, run))
    decreases |run|
  {
    if run != [] {
      match run[0] {
        case MoveA(l) => InvStep(p.a, l); CalledStep(p.a, l); LeaseStep(p.a, l);
        case MoveB(l) => InvStep(p.b, l); CalledStep(p.b, l); LeaseStep(p.b, l);
      }
      PairInvAlways(PairNext(p, run[0]), run[1..]);
    }
  }

  /** Two controllers never run at once, unless a leader lost its lease by a failed
      renewal or gave it up with its drain budget spent. */
  lemma AtMostOneController(run: seq<Move>)
    requires PairRun(Pair(START, START), run)
    ensures var p := PairAfter(Pair(START, START), run);
      p.a.callback.Running? && p.b.callback.Running?
      ==> p.a.renewalFailed || p.a.expired || p.b.renewalFailed || p.b.expired
  {
    PairInvAlways(Pair(START, START), run);
  }
}
