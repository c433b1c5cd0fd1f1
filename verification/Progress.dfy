/** Where deliveries go in the dispatch pool, and that none gets stuck there (queueIndex,
    submit and the worker loop in internal/app/dispatcher.go). */
module Progress {
  import opened Wrappers
  import opened Alerts
  import opened Dispatcher

  /** Alerts with one fingerprint share a queue, and so do those of one object without one. */
  lemma OneAlertOneLane(s: State, a: Alert, b: Alert)
    requires s.lanes != []
    requires a.fingerprint == b.fingerprint
    requires a.fingerprint == "" ==> a.kind == b.kind && a.namespace == b.namespace && a.name == b.name
    ensures LaneOf(s, a) == LaneOf(s, b)
  {
  }

  /** Every queue has room for at least one job, and all of them together for no more than the
      configured number, unless that is smaller than the number of workers. */
  lemma RoomIsShared(hash: string -> nat, workers: nat, queueSize: nat)
    requires workers > 0
    ensures var s := NewDispatcher(hash, workers, queueSize);
      && |s.lanes| == workers && s.capacity >= 1
      && (workers <= queueSize ==> queueSize - workers < workers * s.capacity <= queueSize)
      && (queueSize < workers ==> s.capacity == 1)
  {
    if workers <= queueSize {
      assert queueSize == workers * (queueSize / workers) + queueSize % workers;
    } else {
      assert queueSize / workers == 0;
    }
  }

  lemma {:induction false} SizesStay(s: State, run: seq<Step>)
    requires IsRun(s, run)
    ensures After(s, run).capacity == s.capacity && |After(s, run).lanes| == |s.lanes|
    decreases |run|
  {
    if run != [] {
      SizesStay(Next(s, run[0]), run[1..]);
    }
  }

  lemma {:induction false} LaneHolds(lanes: seq<Lane>, x: Job) returns (i: nat)
    requires InLanes(lanes, x) > 0
    ensures i < |lanes| && InLane(lanes[i], x) > 0
  {
    if InLane(lanes[0], x) > 0 {
      i := 0;
    } else {
      var k := LaneHolds(lanes[1..], x);
      i := k + 1;
    }
  }

  /** The next thing a lane's worker does, whatever its fan-out answers. */
  ghost function WorkerStep(s: State, i: nat, delivered: bool): Step
    requires i < |s.lanes|
  {
    match s.lanes[i].worker
    case Idle => Take(i)
    case Sending(_) => Finish(i, delivered)
    case Settling(_, _) => Ack(i)
  }

  lemma WorkerMovesOn(s: State, i: nat, delivered: bool)
    requires i < |s.lanes| && (!s.lanes[i].worker.Idle? || s.lanes[i].queue != [])
    ensures Enabled(s, WorkerStep(s, i, delivered))
  {
  }

  /** The step that moves a lane's contents on: room for a parked producer, or its worker. */
  ghost function LaneStep(s: State, i: nat, delivered: bool): Step
    requires i < |s.lanes|
  {
    if s.lanes[i].parked.Some? && |s.lanes[i].queue| < s.capacity then Unpark(i) else WorkerStep(s, i, delivered)
  }

  lemma LaneMovesOn(s: State, i: nat, delivered: bool)
    requires i < |s.lanes| && s.capacity >= 1
    requires s.lanes[i].parked.Some? || s.lanes[i].queue != [] || !s.lanes[i].worker.Idle?
    ensures Enabled(s, LaneStep(s, i, delivered))
  {
    if !(s.lanes[i].parked.Some? && |s.lanes[i].queue| < s.capacity) {
      WorkerMovesOn(s, i, delivered);
    }
  }

  /** In every state a run reaches, before and after stop: a delivery that was not dropped can
      be moved on, or the queue it waits for can, by steps of submit, the timers and the
      workers alone. */
  lemma NothingGetsStuck(s: State, x: Job, delivered: bool, hash: string -> nat, workers: nat, queueSize: nat, run: seq<Step>)
    returns (l: Step)
    requires Reachable(s, hash, workers, queueSize, run) && Places(s, x) > 0 && s.flight.dropped[x] == 0
    ensures Enabled(s, l)
    ensures l == Enter(x) || l == Offer(x) || l == TimerFires(x)
      || exists i: nat :: i < |s.lanes| && l == LaneStep(s, i, delivered)
  {
    RoomIsShared(hash, workers, queueSize);
    SizesStay(NewDispatcher(hash, workers, queueSize), run);
    if s.flight.recorded[x] > 0 {
      l := Enter(x);
    } else if s.flight.timers[x] > 0 {
      l := TimerFires(x);
    } else if s.flight.entered[x] > 0 && s.lanes[LaneOf(s, x.alert)].parked.None? {
      l := Offer(x);
    } else {
      var i := LaneOf(s, x.alert);
      if s.flight.entered[x] == 0 {
        i := LaneHolds(s.lanes, x);
        InLaneSomewhere(s.lanes[i], x);
      }
      LaneMovesOn(s, i, delivered);
      l := LaneStep(s, i, delivered);
    }
  }

  lemma InLaneSomewhere(l: Lane, x: Job)
    requires InLane(l, x) > 0
    ensures l.parked.Some? || l.queue != [] || !l.worker.Idle?
  {
  }
}
