/** The dispatch pool of internal/app/dispatcher.go as a state machine: one step
    for each section the code runs under a lock or as one channel operation.
    Goroutines appear as the places a delivery can be in. */
module Dispatcher {
  import opened Wrappers
  import opened Alerts

  const MAX_RESOLVE_RETRIES: nat := 3

  /** One unit of delivery work. `rollback` says that an onFail callback is set. */
  datatype Job = Job(id: nat, alert: Alert, route: seq<string>, rollback: bool, retries: nat)

  /** One durable outbox entry. A snapshot read from outside may hold a nil alert. */
  datatype Delivery = Delivery(id: nat, alert: Option<Alert>, route: seq<string>)

  function Record(j: Job): Delivery {
    Delivery(j.id, Some(CloneWithoutDetails(j.alert)), j.route)
  }

  datatype Outcome = Delivered | RolledBack | DeadLettered

  /** A worker between jobs, inside the sink fan-out, or with the outcome decided
      and the outbox record not yet removed. */
  datatype Worker = Idle | Sending(job: Job) | Settling(job: Job, outcome: Outcome)

  /** One submission in the order producers acquired the lane's lock. */
  datatype Entry = Entry(job: Job, accepted: bool)

  /** queues[i], queueMu[i] (held while a producer is parked), draining[i] and
      worker i. `log` and `taken` are history: every decided submission to this
      lane, and how many of them the worker has received. */
  datatype Lane = Lane(
    queue: seq<Job>, parked: Option<Job>, draining: bool, worker: Worker,
    log: seq<Entry>, taken: nat)

  /** Deliveries outside the lanes: `recorded` have an outbox record and are about
      to call submit, `entered` hold the read lock of d.mu, `timers` wait for a
      resolve retry, `dropped` are left to the outbox. */
  datatype Flight = Flight(recorded: multiset<Job>, entered: multiset<Job>, timers: multiset<Job>, dropped: multiset<Job>)

  /** dispatcher_outbox.go. `done` is history: the outcome of every acknowledged id. */
  datatype Outbox = Outbox(nextID: nat, pending: map<nat, Delivery>, gen: nat, done: map<nat, Outcome>)

  /** `attempts` is history: how often a worker has begun to send each id. */
  datatype State = State(
    hash: string -> nat, capacity: nat, lanes: seq<Lane>, flight: Flight, outbox: Outbox,
    attempts: map<nat, nat>, stopped: bool, closed: bool)

  function ShardKey(a: Alert): string {
    a.kind + "/" + a.namespace + "/" + a.name
  }

  function QueueKey(a: Alert): string {
    if a.fingerprint != "" then a.fingerprint else ShardKey(a)
  }

  function LaneOf(s: State, a: Alert): (i: nat)
    requires s.lanes != []
    ensures i < |s.lanes|
  {
    s.hash(QueueKey(a)) % |s.lanes|
  }

  const EMPTY_LANE := Lane([], None, false, Idle, [], 0)
  const EMPTY_FLIGHT := Flight(multiset{}, multiset{}, multiset{}, multiset{})

  function NewDispatcher(hash: string -> nat, workers: nat, queueSize: nat): State
    requires workers > 0
  {
    var perQueue := if queueSize / workers < 1 then 1 else queueSize / workers;
    State(hash, perQueue, seq(workers, _ => EMPTY_LANE), EMPTY_FLIGHT,
          Outbox(0, map[], 0, map[]), map[], false, false)
  }

  // ---------------------------------------------------------------- steps

  datatype Step =
    | Enqueue(alert: Alert, route: seq<string>, rollback: bool)  // mint an id, pendingAdd
    | Enter(job: Job)                    // submit: read-lock d.mu, test d.closed
    | Offer(job: Job)                    // submit: lock queueMu[i], test draining, try to send, park
    | Unpark(lane: nat)                  // a parked producer finds room
    | GiveUp(lane: nat)                  // a parked producer sees stop
    | Take(lane: nat)                    // worker i receives
    | Finish(lane: nat, delivered: bool) // the fan-out returns and settle decides
    | Ack(lane: nat)                     // settle removes the outbox record
    | TimerFires(job: Job)               // a retry timer calls submit
    | Stop                               // unblockProducers
    | Close                              // Shutdown: write-lock d.mu, close the queues

  ghost predicate Enabled(s: State, l: Step) {
    s.lanes != [] &&
    match l
    case Enqueue(_, route, _) => route != []
    case Enter(j) => j in s.flight.recorded
    case Offer(j) => j in s.flight.entered && s.lanes[LaneOf(s, j.alert)].parked.None?
    case Unpark(i) => i < |s.lanes| && s.lanes[i].parked.Some? && |s.lanes[i].queue| < s.capacity
    case GiveUp(i) => i < |s.lanes| && s.lanes[i].parked.Some? && s.stopped
    case Take(i) => i < |s.lanes| && s.lanes[i].worker.Idle? && s.lanes[i].queue != []
    case Finish(i, _) => i < |s.lanes| && s.lanes[i].worker.Sending?
    case Ack(i) => i < |s.lanes| && s.lanes[i].worker.Settling?
    case TimerFires(j) => j in s.flight.timers
    case Stop => true
    case Close => s.stopped && !s.closed && s.flight.entered == multiset{}
                  && forall i | 0 <= i < |s.lanes| :: s.lanes[i].parked.None?
  }

  /** Which lane a step works on; any lane will do for the steps that touch none. */
  ghost function LaneTouched(s: State, l: Step): (i: nat)
    requires Enabled(s, l)
    ensures i < |s.lanes|
  {
    match l
    case Enter(j) => LaneOf(s, j.alert)
    case Offer(j) => LaneOf(s, j.alert)
    case Unpark(i) => i
    case GiveUp(i) => i
    case Take(i) => i
    case Finish(i, _) => i
    case Ack(i) => i
    case _ => 0
  }

  /** The rest of submit, under queueMu[i]: draining test, non-blocking send, or park. */
  function Submitted(l: Lane, j: Job, capacity: nat): Lane {
    if l.draining then l.(log := l.log + [Entry(j, false)])
    else if |l.queue| < capacity then l.(queue := l.queue + [j], log := l.log + [Entry(j, true)])
    else l.(parked := Some(j))
  }

  predicate WillRetry(j: Job, delivered: bool) {
    !delivered && !j.rollback && j.alert.resolved && j.retries < MAX_RESOLVE_RETRIES
  }

  /** settle: acknowledge, roll back, schedule a retry (and go idle), or dead-letter. */
  function Settled(j: Job, delivered: bool): Worker {
    if delivered then Settling(j, Delivered)
    else if j.rollback then Settling(j, RolledBack)
    else if j.alert.resolved && j.retries < MAX_RESOLVE_RETRIES then Idle
    else Settling(j, DeadLettered)
  }

  ghost function NextLane(s: State, l: Step): Lane
    requires Enabled(s, l)
  {
    var x := s.lanes[LaneTouched(s, l)];
    match l
    case Enter(j) => if s.closed then x.(log := x.log + [Entry(j, false)]) else x
    case Offer(j) => Submitted(x, j, s.capacity)
    case Unpark(_) =>
      x.(parked := None, queue := x.queue + [x.parked.value], log := x.log + [Entry(x.parked.value, true)])
    case GiveUp(_) => x.(parked := None, draining := true, log := x.log + [Entry(x.parked.value, false)])
    case Take(_) => x.(queue := x.queue[1..], worker := Sending(x.queue[0]), taken := x.taken + 1)
    case Finish(_, delivered) => x.(worker := Settled(x.worker.job, delivered))
    case Ack(_) => x.(worker := Idle)
    case _ => x
  }

  ghost function NextFlight(s: State, l: Step): Flight
    requires Enabled(s, l)
  {
    var f, x := s.flight, s.lanes[LaneTouched(s, l)];
    match l
    case Enqueue(a, route, rollback) => f.(recorded := f.recorded + multiset{Minted(s, a, route, rollback)})
    case Enter(j) =>
      if s.closed then f.(recorded := f.recorded - multiset{j}, dropped := f.dropped + multiset{j})
      else f.(recorded := f.recorded - multiset{j}, entered := f.entered + multiset{j})
    case Offer(j) =>
      if x.draining then f.(entered := f.entered - multiset{j}, dropped := f.dropped + multiset{j})
      else f.(entered := f.entered - multiset{j})
    case GiveUp(_) => f.(dropped := f.dropped + multiset{x.parked.value})
    case Finish(_, delivered) =>
      if WillRetry(x.worker.job, delivered) then f.(timers := f.timers + multiset{Retried(x.worker.job)}) else f
    case TimerFires(j) => f.(timers := f.timers - multiset{j}, recorded := f.recorded + multiset{j})
    case _ => f
  }

  ghost function Minted(s: State, a: Alert, route: seq<string>, rollback: bool): Job {
    Job(s.outbox.nextID + 1, a, route, rollback, 0)
  }

  function Retried(j: Job): Job {
    j.(retries := j.retries + 1)
  }

  /** d.nextID.Add, pendingAdd and pendingDone; no other step touches the outbox. */
  ghost function NextOutbox(s: State, l: Step): Outbox
    requires Enabled(s, l)
  {
    var o := s.outbox;
    match l
    case Enqueue(a, route, rollback) =>
      var j := Minted(s, a, route, rollback);
      o.(nextID := j.id, pending := o.pending[j.id := Record(j)], gen := o.gen + 1)
    case Ack(i) =>
      var w := s.lanes[i].worker;
      o.(pending := o.pending - {w.job.id}, gen := o.gen + (if w.job.id in o.pending then 1 else 0),
         done := o.done[w.job.id := w.outcome])
    case _ => o
  }

  ghost function NextAttempts(s: State, l: Step): map<nat, nat>
    requires Enabled(s, l)
  {
    match l
    case Enqueue(_, _, _) => s.attempts[s.outbox.nextID + 1 := 0]
    case Take(i) =>
      var id := s.lanes[i].queue[0].id;
      s.attempts[id := (if id in s.attempts then s.attempts[id] else 0) + 1]
    case _ => s.attempts
  }

  ghost function Next(s: State, l: Step): State
    requires Enabled(s, l)
  {
    State(s.hash, s.capacity, s.lanes[LaneTouched(s, l) := NextLane(s, l)], NextFlight(s, l), NextOutbox(s, l),
          NextAttempts(s, l), s.stopped || l.Stop?, s.closed || l.Close?)
  }

  /** Every step of the run is enabled when it is taken. */
  ghost predicate IsRun(s: State, run: seq<Step>)
    decreases |run|
  {
    run == [] || (Enabled(s, run[0]) && IsRun(Next(s, run[0]), run[1..]))
  }

  ghost function After(s: State, run: seq<Step>): State
    requires IsRun(s, run)
    decreases |run|
  {
    if run == [] then s else After(Next(s, run[0]), run[1..])
  }

  // ---------------------------------------------------------------- places

  ghost function InLane(l: Lane, x: Job): nat {
    multiset(l.queue)[x]
    + (if l.parked == Some(x) then 1 else 0)
    + (if !l.worker.Idle? && l.worker.job == x then 1 else 0)
  }

  ghost function InLanes(lanes: seq<Lane>, x: Job): nat {
    if lanes == [] then 0 else InLane(lanes[0], x) + InLanes(lanes[1..], x)
  }

  ghost function InFlight(f: Flight, x: Job): nat {
    f.recorded[x] + f.entered[x] + f.timers[x] + f.dropped[x]
  }

  /** How many places hold the delivery x: submit calls, retry timers, the dropped
      set, and every queue, parked producer and worker. */
  ghost function Places(s: State, x: Job): nat {
    InFlight(s.flight, x) + InLanes(s.lanes, x)
  }

  lemma {:induction false} InLanesUpdate(lanes: seq<Lane>, i: nat, l: Lane, x: Job)
    requires i < |lanes|
    ensures InLanes(lanes[i := l], x) + InLane(lanes[i], x) == InLanes(lanes, x) + InLane(l, x)
  {
    if i == 0 {
      assert lanes[i := l][1..] == lanes[1..];
    } else {
      InLanesUpdate(lanes[1..], i - 1, l, x);
      assert lanes[i := l][1..] == lanes[1..][i - 1 := l];
    }
  }

  lemma {:induction false} InLanesContain(lanes: seq<Lane>, i: nat, x: Job)
    requires i < |lanes|
    ensures InLane(lanes[i], x) <= InLanes(lanes, x)
  {
    if i > 0 {
      InLanesContain(lanes[1..], i - 1, x);
    }
  }

  lemma {:induction false} EmptyLanesHoldNothing(lanes: seq<Lane>, x: Job)
    requires forall i | 0 <= i < |lanes| :: lanes[i] == EMPTY_LANE
    ensures InLanes(lanes, x) == 0
  {
    if lanes != [] {
      assert lanes[0] == EMPTY_LANE;
      EmptyLanesHoldNothing(lanes[1..], x);
    }
  }

  /** The job a step brings to life: by an enqueue, or as the retry of a failed resolve. */
  ghost function Born(s: State, l: Step): Option<Job>
    requires Enabled(s, l)
  {
    match l
    case Enqueue(a, route, rollback) => Some(Minted(s, a, route, rollback))
    case Finish(i, delivered) =>
      var j := s.lanes[i].worker.job;
      if WillRetry(j, delivered) then Some(Retried(j)) else None
    case _ => None
  }

  /** The job a step ends: acknowledged, or replaced by its retry. */
  ghost function Ended(s: State, l: Step): Option<Job>
    requires Enabled(s, l)
  {
    match l
    case Finish(i, delivered) =>
      var j := s.lanes[i].worker.job;
      if WillRetry(j, delivered) then Some(j) else None
    case Ack(i) => Some(s.lanes[i].worker.job)
    case _ => None
  }

  ghost function One(o: Option<Job>, x: Job): nat {
    if o == Some(x) then 1 else 0
  }

  lemma MovedByEnter(s: State, l: Step, x: Job)
    requires Enabled(s, l) && l.Enter?
    ensures InFlight(NextFlight(s, l), x) + InLane(NextLane(s, l), x)
         == InFlight(s.flight, x) + InLane(s.lanes[LaneTouched(s, l)], x)
  {
  }

  lemma MovedByOffer(s: State, l: Step, x: Job)
    requires Enabled(s, l) && l.Offer?
    ensures InFlight(NextFlight(s, l), x) + InLane(NextLane(s, l), x)
         == InFlight(s.flight, x) + InLane(s.lanes[LaneTouched(s, l)], x)
  {
  }

  lemma MovedFromPark(s: State, l: Step, x: Job)
    requires Enabled(s, l) && (l.Unpark? || l.GiveUp?)
    ensures InFlight(NextFlight(s, l), x) + InLane(NextLane(s, l), x)
         == InFlight(s.flight, x) + InLane(s.lanes[l.lane], x)
  {
  }

  lemma MovedByTake(s: State, l: Step, x: Job)
    requires Enabled(s, l) && l.Take?
    ensures InFlight(NextFlight(s, l), x) + InLane(NextLane(s, l), x)
         == InFlight(s.flight, x) + InLane(s.lanes[l.lane], x)
  {
    var q := s.lanes[l.lane].queue;
    assert q == [q[0]] + q[1..];
  }

  lemma MovedBySettle(s: State, l: Step, x: Job)
    requires Enabled(s, l) && (l.Finish? || l.Ack?)
    ensures InFlight(NextFlight(s, l), x) + InLane(NextLane(s, l), x) + One(Ended(s, l), x)
         == InFlight(s.flight, x) + InLane(s.lanes[l.lane], x) + One(Born(s, l), x)
  {
  }

  /** Every step only moves jobs between places, apart from the one born or ended. */
  lemma JobsAreMoved(s: State, l: Step, x: Job)
    requires Enabled(s, l)
    ensures Places(Next(s, l), x) + One(Ended(s, l), x) == Places(s, x) + One(Born(s, l), x)
  {
    InLanesUpdate(s.lanes, LaneTouched(s, l), NextLane(s, l), x);
    if l.Enter? {
      MovedByEnter(s, l, x);
    } else if l.Offer? {
      MovedByOffer(s, l, x);
    } else if l.Unpark? || l.GiveUp? {
      MovedFromPark(s, l, x);
    } else if l.Take? {
      MovedByTake(s, l, x);
    } else if l.Finish? || l.Ack? {
      MovedBySettle(s, l, x);
    }
  }

  // ---------------------------------------------------------------- invariant

  /** The outbox holds exactly the live deliveries, each of which is in one place. */
  ghost predicate Conserved(s: State) {
    Accounts(x => Places(s, x), s.outbox.pending)
  }

  ghost predicate Accounts(places: Job -> nat, pending: map<nat, Delivery>) {
    && (forall x | places(x) > 0 :: places(x) == 1 && x.id in pending && pending[x.id] == Record(x))
    && (forall x, y | places(x) > 0 && places(y) > 0 && x.id == y.id :: x == y)
    && (forall id | id in pending :: exists x :: places(x) > 0 && x.id == id)
  }

  /** A lane hands its accepted submissions to its worker in order, they form a
      prefix of all its submissions, and every job the worker has finished with is
      gone. */
  predicate InOrder(l: Lane, capacity: nat, home: Job -> bool, gone: Job -> bool) {
    && |l.queue| <= capacity
    && l.taken + |l.queue| <= |l.log|
    && (forall k | 0 <= k < |l.log| :: l.log[k].accepted <==> k < l.taken + |l.queue|)
    && (forall k | 0 <= k < |l.queue| :: l.log[l.taken + k].job == l.queue[k])
    && (!l.worker.Idle? ==> 0 < l.taken && l.log[l.taken - 1].job == l.worker.job)
    && (forall k | 0 <= k < |l.log| :: home(l.log[k].job))
    && (forall k | 0 <= k < l.taken :: gone(l.log[k].job) || (k == l.taken - 1 && !l.worker.Idle?))
  }

  ghost predicate LaneOk(s: State, i: nat, l: Lane)
    requires s.lanes != []
  {
    && InOrder(l, s.capacity, j => AtHome(s, i, j), j => Gone(s, j))
    && (|l.log| > l.taken + |l.queue| ==> l.draining || s.closed)
    && (l.draining ==> s.stopped)
    && (l.parked.Some? ==> !l.draining && !s.closed && AtHome(s, i, l.parked.value))
  }

  ghost predicate AtHome(s: State, i: nat, j: Job)
    requires s.lanes != []
  {
    LaneOf(s, j.alert) == i && j.id <= s.outbox.nextID
  }

  ghost predicate Gone(s: State, j: Job) {
    !j.alert.resolved ==> j.id !in s.outbox.pending
  }

  /** The worker of a job's own lane is busy with it. */
  ghost predicate IsHeld(s: State, j: Job)
    requires s.lanes != []
  {
    var w := s.lanes[LaneOf(s, j.alert)].worker;
    !w.Idle? && w.job == j
  }

  /** A live job has been attempted once per retry so far, plus the attempt under way. */
  ghost predicate Counted(s: State, x: Job)
    requires s.lanes != []
  {
    && x.retries <= MAX_RESOLVE_RETRIES && (0 < x.retries ==> x.alert.resolved)
    && x.id in s.attempts
    && s.attempts[x.id] == x.retries + (if IsHeld(s, x) then 1 else 0)
  }

  ghost predicate Ledger(s: State)
    requires s.lanes != []
  {
    (forall x | Places(s, x) > 0 :: Counted(s, x)) && Bounded(s)
  }

  ghost predicate Inv(s: State) {
    && s.lanes != []
    && Conserved(s)
    && (forall i | 0 <= i < |s.lanes| :: LaneOk(s, i, s.lanes[i]))
    && Ledger(s)
    && (s.closed ==> s.stopped && s.flight.entered == multiset{})
  }

  lemma NewDispatcherInv(hash: string -> nat, workers: nat, queueSize: nat)
    requires workers > 0
    ensures Inv(NewDispatcher(hash, workers, queueSize))
  {
    var s := NewDispatcher(hash, workers, queueSize);
    forall x
      ensures Places(s, x) == 0
    {
      EmptyLanesHoldNothing(s.lanes, x);
    }
  }

  lemma HeldIsLive(s: State, i: nat)
    requires i < |s.lanes| && !s.lanes[i].worker.Idle?
    ensures Places(s, s.lanes[i].worker.job) > 0
  {
    InLanesContain(s.lanes, i, s.lanes[i].worker.job);
  }

  lemma QueuedIsLive(s: State, i: nat, k: nat)
    requires i < |s.lanes| && k < |s.lanes[i].queue|
    ensures Places(s, s.lanes[i].queue[k]) > 0
  {
    InLanesContain(s.lanes, i, s.lanes[i].queue[k]);
  }

  lemma MintedIsFresh(s: State)
    requires Inv(s)
    ensures var id := s.outbox.nextID + 1;
            id !in s.outbox.pending && id !in s.attempts && id !in s.outbox.done
    ensures forall x | Places(s, x) > 0 :: 1 <= x.id <= s.outbox.nextID
  {
    forall x | Places(s, x) > 0
      ensures 1 <= x.id <= s.outbox.nextID
    {
      assert Counted(s, x);
    }
    forall id | id in s.outbox.pending
      ensures id <= s.outbox.nextID
    {
      var x :| Places(s, x) > 0 && x.id == id;
    }
  }

  lemma BornAndEnded(s: State, l: Step)
    requires Inv(s) && Enabled(s, l)
    ensures Ended(s, l).Some? ==> Places(s, Ended(s, l).value) > 0
    ensures Born(s, l).Some? && Ended(s, l).Some? ==>
              Born(s, l).value.id == Ended(s, l).value.id && Record(Born(s, l).value) == Record(Ended(s, l).value)
    ensures Born(s, l).Some? && Ended(s, l).None? ==> Born(s, l).value.id == s.outbox.nextID + 1
    ensures Born(s, l).Some? && Ended(s, l).Some? ==> Born(s, l).value != Ended(s, l).value
  {
    if Ended(s, l).Some? { HeldIsLive(s, l.lane); }
  }

  ghost function Adjusted(pending: map<nat, Delivery>, born: Option<Job>, ended: Option<Job>): map<nat, Delivery> {
    if born.Some? then pending[born.value.id := Record(born.value)]
    else if ended.Some? then pending - {ended.value.id}
    else pending
  }

  lemma HeldIsRecorded(s: State, i: nat)
    requires Inv(s) && i < |s.lanes| && !s.lanes[i].worker.Idle?
    ensures var j := s.lanes[i].worker.job;
            j.id in s.outbox.pending && s.outbox.pending[j.id] == Record(j)
  {
    HeldIsLive(s, i);
  }

  lemma OutboxFollows(s: State, l: Step)
    requires Enabled(s, l)
    requires l.Finish? ==> var j := s.lanes[l.lane].worker.job;
                           j.id in s.outbox.pending && s.outbox.pending[j.id] == Record(j)
    ensures NextOutbox(s, l).pending == Adjusted(s.outbox.pending, Born(s, l), Ended(s, l))
  {
    if l.Finish? && Born(s, l).Some? {
      var j := s.lanes[l.lane].worker.job;
      assert Record(Retried(j)) == Record(j);
      assert s.outbox.pending == s.outbox.pending[j.id := Record(j)];
    }
  }

  lemma AllMoved(s: State, l: Step)
    requires Enabled(s, l)
    ensures forall x :: Places(Next(s, l), x) + One(Ended(s, l), x) == Places(s, x) + One(Born(s, l), x)
  {
    forall x
      ensures Places(Next(s, l), x) + One(Ended(s, l), x) == Places(s, x) + One(Born(s, l), x)
    {
      JobsAreMoved(s, l, x);
    }
  }

  lemma ConservedStep(s: State, l: Step)
    requires Inv(s) && Enabled(s, l)
    ensures Conserved(Next(s, l))
  {
    AllMoved(s, l);
    MintedIsFresh(s);
    BornAndEnded(s, l);
    if l.Finish? { HeldIsRecorded(s, l.lane); }
    OutboxFollows(s, l);
    AccountsAfter(x => Places(s, x), x => Places(Next(s, l), x), s.outbox.pending, Born(s, l), Ended(s, l));
  }

  lemma AccountsAfter(old_: Job -> nat, new_: Job -> nat, pending: map<nat, Delivery>, born: Option<Job>, ended: Option<Job>)
    requires Accounts(old_, pending)
    requires forall x :: new_(x) + One(ended, x) == old_(x) + One(born, x)
    requires ended.Some? ==> old_(ended.value) > 0
    requires born.Some? && ended.Some? ==> born.value.id == ended.value.id && born.value != ended.value
    requires born.Some? && ended.None? ==> born.value.id !in pending
    ensures Accounts(new_, Adjusted(pending, born, ended))
  {
    forall x
      ensures new_(x) == if born == Some(x) then 1 else if ended == Some(x) then 0 else old_(x)
    {
      if born == Some(x) && ended.Some? { assert old_(ended.value) > 0; }
    }
    AccountsReplaced(old_, new_, pending, born, ended);
  }

  lemma AccountsReplaced(old_: Job -> nat, new_: Job -> nat, pending: map<nat, Delivery>, born: Option<Job>, ended: Option<Job>)
    requires Accounts(old_, pending)
    requires forall x :: new_(x) == if born == Some(x) then 1 else if ended == Some(x) then 0 else old_(x)
    requires ended.Some? ==> old_(ended.value) > 0
    requires born.Some? && ended.Some? ==> born.value.id == ended.value.id
    requires born.Some? && ended.None? ==> born.value.id !in pending
    ensures Accounts(new_, Adjusted(pending, born, ended))
  {
    var pending' := Adjusted(pending, born, ended);
    forall x | new_(x) > 0
      ensures new_(x) == 1 && x.id in pending' && pending'[x.id] == Record(x)
    {
      if born != Some(x) { assert old_(x) > 0; }
    }
    forall x, y | new_(x) > 0 && new_(y) > 0 && x.id == y.id
      ensures x == y
    {
      if born != Some(x) { assert old_(x) > 0; }
      if born != Some(y) { assert old_(y) > 0; }
    }
    PendingHasPlace(old_, new_, pending, born, ended);
  }

  lemma PendingHasPlace(old_: Job -> nat, new_: Job -> nat, pending: map<nat, Delivery>, born: Option<Job>, ended: Option<Job>)
    requires forall id | id in pending :: exists x :: old_(x) > 0 && x.id == id
    requires forall x :: new_(x) == if born == Some(x) then 1 else if ended == Some(x) then 0 else old_(x)
    requires born.Some? && ended.Some? ==> born.value.id == ended.value.id
    ensures forall id | id in Adjusted(pending, born, ended) :: exists x :: new_(x) > 0 && x.id == id
  {
    forall id | id in Adjusted(pending, born, ended)
      ensures exists x :: new_(x) > 0 && x.id == id
    {
      if born.Some? && born.value.id == id {
        assert new_(born.value) > 0;
      } else {
        var x :| old_(x) > 0 && x.id == id;
        assert new_(x) > 0;
      }
    }
  }

  // ---------------------------------------------------------------- lanes

  lemma OrderFrame(l: Lane, capacity: nat, home: Job -> bool, gone: Job -> bool, home': Job -> bool, gone': Job -> bool)
    requires InOrder(l, capacity, home, gone)
    requires forall j | home(j) :: home'(j)
    requires forall j | home(j) && gone(j) :: gone'(j)
    ensures InOrder(l, capacity, home', gone')
  {
  }

  lemma OrderAfterAccept(l: Lane, j: Job, capacity: nat, home: Job -> bool, gone: Job -> bool)
    requires InOrder(l, capacity, home, gone) && home(j)
    requires |l.queue| < capacity && |l.log| == l.taken + |l.queue|
    ensures InOrder(l.(parked := None, queue := l.queue + [j], log := l.log + [Entry(j, true)]), capacity, home, gone)
  {
  }

  lemma OrderAfterDrop(l: Lane, j: Job, draining: bool, capacity: nat, home: Job -> bool, gone: Job -> bool)
    requires InOrder(l, capacity, home, gone) && home(j)
    ensures InOrder(l.(parked := None, draining := draining, log := l.log + [Entry(j, false)]), capacity, home, gone)
  {
  }

  lemma OrderAfterTake(l: Lane, capacity: nat, home: Job -> bool, gone: Job -> bool)
    requires InOrder(l, capacity, home, gone)
    requires l.worker.Idle? && l.queue != []
    ensures InOrder(l.(queue := l.queue[1..], worker := Sending(l.queue[0]), taken := l.taken + 1), capacity, home, gone)
  {
  }

  lemma OrderAfterWork(l: Lane, w: Worker, capacity: nat, home: Job -> bool, gone: Job -> bool)
    requires InOrder(l, capacity, home, gone)
    requires !l.worker.Idle? && (if w.Idle? then gone(l.worker.job) else w.job == l.worker.job)
    ensures InOrder(l.(worker := w), capacity, home, gone)
  {
  }

  lemma OutboxOnlyForgets(s: State, l: Step)
    requires Enabled(s, l)
    ensures s.outbox.nextID <= NextOutbox(s, l).nextID
    ensures forall id | id in NextOutbox(s, l).pending :: id in s.outbox.pending || id > s.outbox.nextID
  {
  }

  /** A lane stays in order while other parts of the state move. */
  lemma LaneFrame(s: State, l: Step, i: nat, x: Lane)
    requires Enabled(s, l) && LaneOk(s, i, x)
    requires l.Close? ==> x.parked.None?
    ensures LaneOk(Next(s, l), i, x)
  {
    var s' := Next(s, l);
    OutboxOnlyForgets(s, l);
    OrderFrame(x, s.capacity, j => AtHome(s, i, j), j => Gone(s, j), j => AtHome(s', i, j), j => Gone(s', j));
  }

  lemma SubmitKeepsLane(s: State, l: Step)
    requires Enabled(s, l) && (l.Enter? || l.Offer?)
    requires LaneOk(s, LaneTouched(s, l), s.lanes[LaneTouched(s, l)])
    requires l.job.id <= s.outbox.nextID && (l.Offer? ==> !s.closed)
    ensures LaneOk(Next(s, l), LaneTouched(s, l), NextLane(s, l))
  {
    var s', i, j := Next(s, l), LaneTouched(s, l), l.job;
    var x := s.lanes[i];
    LaneFrame(s, l, i, x);
    if (if l.Enter? then s.closed else x.draining) {
      OrderAfterDrop(x, j, x.draining, s.capacity, j => AtHome(s', i, j), j => Gone(s', j));
    } else if l.Offer? && |x.queue| < s.capacity {
      OrderAfterAccept(x, j, s.capacity, j => AtHome(s', i, j), j => Gone(s', j));
    }
  }

  lemma ParkKeepsLane(s: State, l: Step)
    requires Inv(s) && Enabled(s, l) && (l.Unpark? || l.GiveUp?)
    ensures LaneOk(Next(s, l), l.lane, NextLane(s, l))
  {
    var s', i := Next(s, l), l.lane;
    var x := s.lanes[i];
    LaneFrame(s, l, i, x);
    if l.Unpark? {
      OrderAfterAccept(x, x.parked.value, s.capacity, j => AtHome(s', i, j), j => Gone(s', j));
    } else {
      OrderAfterDrop(x, x.parked.value, true, s.capacity, j => AtHome(s', i, j), j => Gone(s', j));
    }
  }

  lemma TakeKeepsLane(s: State, l: Step)
    requires Enabled(s, l) && l.Take? && LaneOk(s, l.lane, s.lanes[l.lane])
    ensures LaneOk(Next(s, l), l.lane, NextLane(s, l))
  {
    var s', i := Next(s, l), l.lane;
    LaneFrame(s, l, i, s.lanes[i]);
    OrderAfterTake(s.lanes[i], s.capacity, j => AtHome(s', i, j), j => Gone(s', j));
  }

  lemma WorkKeepsLane(s: State, l: Step)
    requires Enabled(s, l) && (l.Finish? || l.Ack?) && LaneOk(s, l.lane, s.lanes[l.lane])
    ensures LaneOk(Next(s, l), l.lane, NextLane(s, l))
  {
    var s', i := Next(s, l), l.lane;
    LaneFrame(s, l, i, s.lanes[i]);
    OrderAfterWork(s.lanes[i], NextLane(s, l).worker, s.capacity, j => AtHome(s', i, j), j => Gone(s', j));
  }

  lemma LanesStep(s: State, l: Step)
    requires Inv(s) && Enabled(s, l)
    ensures forall i | 0 <= i < |Next(s, l).lanes| :: LaneOk(Next(s, l), i, Next(s, l).lanes[i])
  {
    var s', t := Next(s, l), LaneTouched(s, l);
    forall i | 0 <= i < |s'.lanes|
      ensures LaneOk(s', i, s'.lanes[i])
    {
      if i != t || l.Enqueue? || l.TimerFires? || l.Stop? || l.Close? {
        LaneFrame(s, l, i, s.lanes[i]);
      } else if l.Enter? || l.Offer? {
        MintedIsFresh(s);
        assert Places(s, l.job) > 0;
        SubmitKeepsLane(s, l);
      } else if l.Unpark? || l.GiveUp? {
        ParkKeepsLane(s, l);
      } else if l.Take? {
        TakeKeepsLane(s, l);
      } else {
        WorkKeepsLane(s, l);
      }
    }
  }

  // ---------------------------------------------------------------- attempts

  lemma CountedAfterTake(s: State, l: Step, x: Job)
    requires Enabled(s, l) && l.Take? && Counted(s, x)
    requires var j := s.lanes[l.lane].queue[0]; LaneOf(s, j.alert) == l.lane && (x.id == j.id ==> x == j)
    ensures Counted(Next(s, l), x)
  {
  }

  lemma CountedAfterWork(s: State, l: Step, x: Job)
    requires Enabled(s, l) && (l.Finish? || l.Ack?) && Counted(s, x)
    requires LaneOf(s, s.lanes[l.lane].worker.job.alert) == l.lane && Ended(s, l) != Some(x)
    ensures Counted(Next(s, l), x)
  {
    assert NextLane(s, l).worker.Idle? ==> s.lanes[l.lane].worker.job != x;
  }

  lemma CountedOtherwise(s: State, l: Step, x: Job)
    requires Enabled(s, l) && !l.Take? && !l.Finish? && !l.Ack? && Counted(s, x)
    requires x.id <= s.outbox.nextID
    ensures Counted(Next(s, l), x)
  {
    assert NextLane(s, l).worker == s.lanes[LaneTouched(s, l)].worker;
    assert IsHeld(Next(s, l), x) == IsHeld(s, x);
  }

  lemma CountedWhenBorn(s: State, l: Step)
    requires Inv(s) && Enabled(s, l) && Born(s, l).Some?
    ensures Counted(Next(s, l), Born(s, l).value)
  {
    if l.Finish? {
      var j := s.lanes[l.lane].worker.job;
      HeldIsLive(s, l.lane);
      assert Counted(s, j);
      assert AtHome(s, l.lane, j);
    } else {
      var j := Born(s, l).value;
      if IsHeld(s, j) {
        HeldIsLive(s, LaneOf(s, j.alert));
        MintedIsFresh(s);
      }
    }
  }

  lemma HeldIsHome(s: State, i: nat)
    requires Inv(s) && i < |s.lanes|
    ensures !s.lanes[i].worker.Idle? ==> LaneOf(s, s.lanes[i].worker.job.alert) == i
    ensures s.lanes[i].queue != [] ==> LaneOf(s, s.lanes[i].queue[0].alert) == i
  {
    var l := s.lanes[i];
    assert LaneOk(s, i, l);
    if l.queue != [] { assert l.log[l.taken + 0].job == l.queue[0]; }
  }

  lemma CountedStep(s: State, l: Step, x: Job)
    requires Inv(s) && Enabled(s, l) && Places(s, x) > 0 && Ended(s, l) != Some(x)
    ensures Counted(Next(s, l), x)
  {
    if l.Take? {
      HeldIsHome(s, l.lane);
      QueuedIsLive(s, l.lane, 0);
      CountedAfterTake(s, l, x);
    } else if l.Finish? || l.Ack? {
      HeldIsHome(s, l.lane);
      CountedAfterWork(s, l, x);
    } else {
      MintedIsFresh(s);
      CountedOtherwise(s, l, x);
    }
  }

  /** No id is attempted too often or settled twice. */
  ghost predicate Bounded(s: State) {
    && (forall id | id in s.attempts ::
          && s.attempts[id] <= MAX_RESOLVE_RETRIES + 1
          && 1 <= id <= s.outbox.nextID && (id in s.outbox.pending || id in s.outbox.done))
    && (forall id | id in s.outbox.done ::
          id !in s.outbox.pending && id in s.attempts && s.attempts[id] >= 1)
  }

  lemma BoundedStep(s: State, l: Step)
    requires Enabled(s, l) && Bounded(s)
    requires l.Enqueue? ==> s.outbox.nextID + 1 !in s.outbox.done
    requires l.Take? ==> var id := s.lanes[l.lane].queue[0].id;
                         id in s.outbox.pending && id in s.attempts && s.attempts[id] <= MAX_RESOLVE_RETRIES
    requires l.Ack? ==> var id := s.lanes[l.lane].worker.job.id; id in s.attempts && s.attempts[id] >= 1
    ensures Bounded(Next(s, l))
  {
  }

  lemma LedgerStep(s: State, l: Step)
    requires Inv(s) && Enabled(s, l)
    ensures Ledger(Next(s, l))
  {
    var s' := Next(s, l);
    forall x | Places(s', x) > 0
      ensures Counted(s', x)
    {
      JobsAreMoved(s, l, x);
      if Born(s, l) == Some(x) {
        CountedWhenBorn(s, l);
      } else {
        EndedIsAlone(s, l);
        CountedStep(s, l, x);
      }
    }
    BoundedAfter(s, l);
  }

  lemma EndedIsAlone(s: State, l: Step)
    requires Inv(s) && Enabled(s, l)
    ensures Ended(s, l).Some? ==> Places(s, Ended(s, l).value) == 1
  {
    if Ended(s, l).Some? { HeldIsLive(s, l.lane); }
  }

  lemma BoundedAfter(s: State, l: Step)
    requires Inv(s) && Enabled(s, l)
    ensures Bounded(Next(s, l))
  {
    MintedIsFresh(s);
    if l.Take? {
      HeldIsHome(s, l.lane);
      QueuedIsLive(s, l.lane, 0);
      assert Counted(s, s.lanes[l.lane].queue[0]);
    } else if l.Ack? {
      HeldIsHome(s, l.lane);
      HeldIsLive(s, l.lane);
      assert Counted(s, s.lanes[l.lane].worker.job);
    }
    BoundedStep(s, l);
  }

  lemma InvStep(s: State, l: Step)
    requires Inv(s) && Enabled(s, l)
    ensures Inv(Next(s, l))
  {
    ConservedStep(s, l);
    LanesStep(s, l);
    LedgerStep(s, l);
  }

  /** The invariant holds after every run. */
  lemma {:induction false} InvAlways(s: State, run: seq<Step>)
    requires Inv(s) && IsRun(s, run)
    ensures Inv(After(s, run))
    decreases |run|
  {
    if run != [] {
      InvStep(s, run[0]);
      InvAlways(Next(s, run[0]), run[1..]);
    }
  }

  // ---------------------------------------------------------------- guarantees

  ghost predicate Reachable(s: State, hash: string -> nat, workers: nat, queueSize: nat, run: seq<Step>) {
    workers > 0 && IsRun(NewDispatcher(hash, workers, queueSize), run)
    && s == After(NewDispatcher(hash, workers, queueSize), run)
  }

  lemma ReachableInv(s: State, hash: string -> nat, workers: nat, queueSize: nat, run: seq<Step>)
    requires Reachable(s, hash, workers, queueSize, run)
    ensures Inv(s)
  {
    NewDispatcherInv(hash, workers, queueSize);
    InvAlways(NewDispatcher(hash, workers, queueSize), run);
  }

  /** No overtaking, even through shutdown: when worker i takes its next job, that
      job is submission number `taken` of the lane, all earlier submissions were
      accepted, and every earlier non-resolve job has left the outbox. */
  lemma NoOvertaking(s: State, i: nat, hash: string -> nat, workers: nat, queueSize: nat, run: seq<Step>)
    requires Reachable(s, hash, workers, queueSize, run) && Enabled(s, Take(i))
    ensures var l := s.lanes[i];
      && l.taken < |l.log| && l.log[l.taken] == Entry(l.queue[0], true)
      && forall k | 0 <= k < l.taken ::
           l.log[k].accepted && (!l.log[k].job.alert.resolved ==> l.log[k].job.id !in s.outbox.pending)
  {
    ReachableInv(s, hash, workers, queueSize, run);
    var l := s.lanes[i];
    assert LaneOk(s, i, l);
    assert l.log[l.taken + 0].job == l.queue[0];
    forall k | 0 <= k < l.taken
      ensures l.log[k].accepted && (!l.log[k].job.alert.resolved ==> l.log[k].job.id !in s.outbox.pending)
    {
      assert Gone(s, l.log[k].job);
    }
  }

  /** So a resolve is never sent while a fire of its fingerprint that was submitted
      earlier, to whichever lane, is still in the outbox to be replayed. */
  lemma NoResolveBeforeItsFire(s: State, i: nat, m: nat, k: nat,
                               hash: string -> nat, workers: nat, queueSize: nat, run: seq<Step>)
    requires Reachable(s, hash, workers, queueSize, run) && Enabled(s, Take(i))
    requires m < |s.lanes| && k < |s.lanes[m].log|
    requires s.lanes[i].queue[0].alert.resolved && !s.lanes[m].log[k].job.alert.resolved
    requires s.lanes[m].log[k].job.alert.fingerprint == s.lanes[i].queue[0].alert.fingerprint != ""
    ensures m == i
    ensures k < s.lanes[i].taken ==> s.lanes[m].log[k].job.id !in s.outbox.pending
  {
    ReachableInv(s, hash, workers, queueSize, run);
    HeldIsHome(s, i);
    assert LaneOk(s, m, s.lanes[m]);
    assert AtHome(s, m, s.lanes[m].log[k].job);
    NoOvertaking(s, i, hash, workers, queueSize, run);
  }

  /** Per lane, the accepted submissions are a prefix of all of them, and nothing is
      dropped before stop. */
  lemma AcceptedIsPrefix(s: State, i: nat, hash: string -> nat, workers: nat, queueSize: nat, run: seq<Step>)
    requires Reachable(s, hash, workers, queueSize, run) && i < |s.lanes|
    ensures forall a, b | 0 <= a < b < |s.lanes[i].log| && s.lanes[i].log[b].accepted :: s.lanes[i].log[a].accepted
    ensures (exists a | 0 <= a < |s.lanes[i].log| :: !s.lanes[i].log[a].accepted) ==> s.stopped
  {
    ReachableInv(s, hash, workers, queueSize, run);
    assert LaneOk(s, i, s.lanes[i]);
  }

  /** The outbox ids are exactly the deliveries in some place, each in one place only. */
  lemma OutboxIsConserved(s: State, hash: string -> nat, workers: nat, queueSize: nat, run: seq<Step>)
    requires Reachable(s, hash, workers, queueSize, run)
    ensures forall id :: id in s.outbox.pending <==> exists x :: Places(s, x) > 0 && x.id == id
    ensures forall x | Places(s, x) > 0 :: Places(s, x) == 1 && s.outbox.pending[x.id] == Record(x)
    ensures forall x, y | Places(s, x) > 0 && Places(s, y) > 0 && x.id == y.id :: x == y
  {
    ReachableInv(s, hash, workers, queueSize, run);
    AccountsMeans(s, x => Places(s, x));
  }

  lemma AccountsMeans(s: State, places: Job -> nat)
    requires Accounts(places, s.outbox.pending)
    requires forall x :: places(x) == Places(s, x)
    ensures forall id :: id in s.outbox.pending <==> exists x :: Places(s, x) > 0 && x.id == id
    ensures forall x | Places(s, x) > 0 :: Places(s, x) == 1 && s.outbox.pending[x.id] == Record(x)
    ensures forall x, y | Places(s, x) > 0 && Places(s, y) > 0 && x.id == y.id :: x == y
  {
    forall id | id in s.outbox.pending
      ensures exists x :: Places(s, x) > 0 && x.id == id
    {
      var x :| places(x) > 0 && x.id == id;
      assert Places(s, x) > 0;
    }
    forall x | Places(s, x) > 0
      ensures Places(s, x) == 1 && x.id in s.outbox.pending && s.outbox.pending[x.id] == Record(x)
    {
      assert places(x) > 0;
    }
  }

  /** Once the queues are empty and the workers idle, the outbox holds exactly the dropped
      deliveries, those whose resolve retry still waits on its timer, and those whose
      submit has not been decided yet. */
  lemma DrainedOutbox(s: State, hash: string -> nat, workers: nat, queueSize: nat, run: seq<Step>)
    requires Reachable(s, hash, workers, queueSize, run)
    requires forall i | 0 <= i < |s.lanes| :: s.lanes[i].queue == [] && s.lanes[i].parked.None? && s.lanes[i].worker.Idle?
    ensures var f := s.flight;
      s.outbox.pending.Keys == set x | x in f.dropped + f.timers + f.recorded + f.entered :: x.id
  {
    OutboxIsConserved(s, hash, workers, queueSize, run);
    var f := s.flight;
    forall x
      ensures Places(s, x) == (f.dropped + f.timers + f.recorded + f.entered)[x]
    {
      IdleLanesHoldNothing(s.lanes, x);
    }
  }

  lemma {:induction false} IdleLanesHoldNothing(lanes: seq<Lane>, x: Job)
    requires forall i | 0 <= i < |lanes| :: lanes[i].queue == [] && lanes[i].parked.None? && lanes[i].worker.Idle?
    ensures InLanes(lanes, x) == 0
  {
    if lanes != [] {
      assert lanes[0].queue == [] && lanes[0].parked.None? && lanes[0].worker.Idle?;
      IdleLanesHoldNothing(lanes[1..], x);
    }
  }

  /** No id is sent more than 1 + MAX_RESOLVE_RETRIES times, and a settled one was sent. */
  lemma AttemptsAreBounded(s: State, id: nat, hash: string -> nat, workers: nat, queueSize: nat, run: seq<Step>)
    requires Reachable(s, hash, workers, queueSize, run)
    ensures id in s.attempts ==> s.attempts[id] <= 1 + MAX_RESOLVE_RETRIES
    ensures id in s.outbox.done ==> id !in s.outbox.pending && id in s.attempts && 1 <= s.attempts[id]
    ensures id in s.attempts ==> id in s.outbox.pending || id in s.outbox.done
  {
    ReachableInv(s, hash, workers, queueSize, run);
  }

  lemma OutcomeKept(s: State, l: Step, id: nat)
    requires Inv(s) && Enabled(s, l) && id in s.outbox.done
    ensures id in Next(s, l).outbox.done && Next(s, l).outbox.done[id] == s.outbox.done[id]
    ensures id in Next(s, l).attempts && Next(s, l).attempts[id] == s.attempts[id]
  {
    if l.Enqueue? { MintedIsFresh(s); }
    else if l.Ack? { HeldIsRecorded(s, l.lane); }
    else if l.Take? { QueuedIsRecorded(s, l.lane); }
    assert id !in s.outbox.pending && id in s.attempts;
    OthersKept(s, l, id);
  }

  /** A step leaves the outcome and the attempts of every id it does not work on alone. */
  lemma OthersKept(s: State, l: Step, id: nat)
    requires Enabled(s, l) && id in s.outbox.done && id in s.attempts
    requires l.Enqueue? ==> s.outbox.nextID + 1 != id
    requires l.Ack? ==> s.lanes[l.lane].worker.job.id != id
    requires l.Take? ==> s.lanes[l.lane].queue[0].id != id
    ensures id in NextOutbox(s, l).done && NextOutbox(s, l).done[id] == s.outbox.done[id]
    ensures id in NextAttempts(s, l) && NextAttempts(s, l)[id] == s.attempts[id]
  {
  }

  lemma QueuedIsRecorded(s: State, i: nat)
    requires Inv(s) && i < |s.lanes| && s.lanes[i].queue != []
    ensures s.lanes[i].queue[0].id in s.outbox.pending
  {
    QueuedIsLive(s, i, 0);
  }

  /** The first outcome of an id is its only one: it is never sent again. */
  lemma {:induction false} OutcomeIsFinal(s: State, run: seq<Step>, id: nat)
    requires Inv(s) && IsRun(s, run) && id in s.outbox.done
    ensures var s' := After(s, run);
      && id in s'.outbox.done && s'.outbox.done[id] == s.outbox.done[id]
      && id in s'.attempts && s'.attempts[id] == s.attempts[id] && id !in s'.outbox.pending
    decreases |run|
  {
    if run != [] {
      InvStep(s, run[0]);
      OutcomeKept(s, run[0], id);
      OutcomeIsFinal(Next(s, run[0]), run[1..], id);
    }
  }

  // ---------------------------------------------------------------- quiet producers

  /** The attempts the deliveries in `ids` may still make. */
  ghost function Budget(ids: set<nat>, attempts: map<nat, nat>): nat
    requires forall id | id in ids :: id in attempts && attempts[id] <= MAX_RESOLVE_RETRIES + 1
    decreases |ids|
  {
    if ids == {} then 0
    else var id :| id in ids; MAX_RESOLVE_RETRIES + 1 - attempts[id] + Budget(ids - {id}, attempts)
  }

  ghost predicate Affordable(ids: set<nat>, attempts: map<nat, nat>) {
    forall id | id in ids :: id in attempts && attempts[id] <= MAX_RESOLVE_RETRIES + 1
  }

  lemma {:induction false} BudgetSplit(ids: set<nat>, attempts: map<nat, nat>, id: nat)
    requires Affordable(ids, attempts) && id in ids
    ensures Budget(ids, attempts) == MAX_RESOLVE_RETRIES + 1 - attempts[id] + Budget(ids - {id}, attempts)
    decreases |ids|
  {
    var pick :| pick in ids
      && Budget(ids, attempts) == MAX_RESOLVE_RETRIES + 1 - attempts[pick] + Budget(ids - {pick}, attempts);
    if pick != id {
      BudgetSplit(ids - {pick}, attempts, id);
      BudgetSplit(ids - {id}, attempts, pick);
      assert ids - {pick} - {id} == ids - {id} - {pick};
    }
  }

  lemma {:induction false} BudgetFrame(ids: set<nat>, attempts: map<nat, nat>, attempts': map<nat, nat>)
    requires Affordable(ids, attempts)
    requires forall id | id in ids :: id in attempts' && attempts'[id] == attempts[id]
    ensures Budget(ids, attempts') == Budget(ids, attempts)
    decreases |ids|
  {
    if ids != {} {
      var id :| id in ids;
      BudgetSplit(ids, attempts, id);
      BudgetSplit(ids, attempts', id);
      BudgetFrame(ids - {id}, attempts, attempts');
    }
  }

  ghost function Owed(s: State): nat
    requires Inv(s)
  {
    PendingAffordable(s);
    Budget(s.outbox.pending.Keys, s.attempts)
  }

  lemma PendingAffordable(s: State)
    requires Inv(s)
    ensures Affordable(s.outbox.pending.Keys, s.attempts)
  {
    forall id | id in s.outbox.pending.Keys
      ensures id in s.attempts
    {
      var x :| Places(s, x) > 0 && x.id == id;
      assert Counted(s, x);
    }
  }

  /** With producers quiet the owed attempts never grow, and each attempt uses one. */
  lemma AttemptsAreSpent(s: State, l: Step)
    requires Inv(s) && Enabled(s, l) && !l.Enqueue?
    ensures Inv(Next(s, l))
    ensures Owed(Next(s, l)) + (if l.Take? then 1 else 0) <= Owed(s)
  {
    InvStep(s, l);
    PendingAffordable(s);
    PendingAffordable(Next(s, l));
    var ids, s' := s.outbox.pending.Keys, Next(s, l);
    if l.Take? {
      var id := s.lanes[l.lane].queue[0].id;
      QueuedIsLive(s, l.lane, 0);
      BudgetSplit(ids, s.attempts, id);
      BudgetSplit(ids, s'.attempts, id);
      BudgetFrame(ids - {id}, s.attempts, s'.attempts);
    } else if l.Ack? {
      var id := s.lanes[l.lane].worker.job.id;
      HeldIsRecorded(s, l.lane);
      BudgetSplit(ids, s.attempts, id);
      assert s'.outbox.pending.Keys == ids - {id};
    }
  }

  ghost function Attempts(run: seq<Step>): nat {
    if run == [] then 0 else (if run[0].Take? then 1 else 0) + Attempts(run[1..])
  }

  /** So every run without new deliveries makes at most the attempts owed at its start. */
  lemma {:induction false} QuietRunsEnd(s: State, run: seq<Step>)
    requires Inv(s) && IsRun(s, run)
    requires forall l | l in run :: !l.Enqueue?
    ensures Attempts(run) <= Owed(s)
    decreases |run|
  {
    if run != [] {
      AttemptsAreSpent(s, run[0]);
      QuietRunsEnd(Next(s, run[0]), run[1..]);
    }
  }
}
