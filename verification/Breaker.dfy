/** The per-sink circuit breaker of internal/sinks/breaker.go: the object, the history
    it stands for, and the protocol of concurrent sends around it. */
module Breaker {
  import opened Alerts

  const THRESHOLD: nat := 5
  const COOLDOWN: Time := 30
  const SLOW_THRESHOLD: Time := 5
  const SLOW_RUN: nat := 5

  datatype Phase = Closed | Open | HalfOpen

  /** The breaker's fields as one value. */
  datatype Circuit = Circuit(failures: nat, slow: nat, phase: Phase, openUntil: Time)

  const NEW_CIRCUIT := Circuit(0, 0, Closed, ZERO_TIME)

  predicate Admits(c: Circuit, now: Time) {
    c.phase.Closed? || (c.phase.Open? && now >= c.openUntil)
  }

  /** Admission moves an open breaker whose cooldown is over to half-open. */
  function Asked(c: Circuit, now: Time): Circuit {
    if c.phase.Open? && now >= c.openUntil then c.(phase := HalfOpen) else c
  }

  predicate Trips(c: Circuit) {
    c.phase.HalfOpen? || c.failures + 1 >= THRESHOLD
  }

  function Recorded(c: Circuit, success: bool, now: Time): Circuit {
    if success then c.(failures := 0, phase := Closed)
    else if Trips(c) then Circuit(c.failures + 1, c.slow, Open, now + COOLDOWN)
    else c.(failures := c.failures + 1)
  }

  function Timed(c: Circuit, took: Time, now: Time): Circuit {
    if took < SLOW_THRESHOLD then c.(slow := 0)
    else if c.slow + 1 >= SLOW_RUN then Circuit(c.failures, 0, Open, now + COOLDOWN)
    else c.(slow := c.slow + 1)
  }

  class CircuitBreaker {
    var failures: nat
    var slow: nat
    var phase: Phase
    var openUntil: Time

    function View(): Circuit
      reads this
    {
      Circuit(failures, slow, phase, openUntil)
    }

    constructor ()
      ensures View() == NEW_CIRCUIT
    {
      failures, slow, phase, openUntil := 0, 0, Closed, ZERO_TIME;
    }

    /** `probe` says that this call took the half-open trial. */
    method Allow(now: Time) returns (ok: bool, probe: bool)
      modifies this
      ensures ok == Admits(old(View()), now) && View() == Asked(old(View()), now)
      ensures probe <==> phase.HalfOpen? && !old(phase).HalfOpen?
    {
      match phase {
        case Open =>
          if now < openUntil {
            return false, false;
          }
          phase := HalfOpen;
          return true, true;
        case HalfOpen => return false, false;
        case Closed => return true, false;
      }
    }

    method Record(success: bool, now: Time)
      modifies this
      ensures View() == Recorded(old(View()), success, now)
    {
      if success {
        failures := 0;
        phase := Closed;
        return;
      }
      failures := failures + 1;
      if phase.HalfOpen? || failures >= THRESHOLD {
        phase := Open;
        openUntil := now + COOLDOWN;
      }
    }

    method RecordLatency(took: Time, now: Time)
      modifies this
      ensures View() == Timed(old(View()), took, now)
    {
      if took < SLOW_THRESHOLD {
        slow := 0;
        return;
      }
      slow := slow + 1;
      if slow >= SLOW_RUN {
        phase := Open;
        openUntil := now + COOLDOWN;
        slow := 0;
      }
    }

    /** The gauge: open exactly when the next firing would be short-circuited. */
    method IsOpen(now: Time) returns (open: bool)
      ensures open == !Admits(View(), now)
    {
      match phase {
        case HalfOpen => open := true;
        case Open => open := now < openUntil;
        case Closed => open := false;
      }
    }
  }

  // ---------------------------------------------------------------- the history it stands for

  /** What a breaker is told. */
  datatype Report = Ask(now: Time) | Outcome(success: bool, now: Time) | Latency(took: Time, now: Time)

  function Told(c: Circuit, r: Report): Circuit {
    match r
    case Ask(now) => Asked(c, now)
    case Outcome(success, now) => Recorded(c, success, now)
    case Latency(took, now) => Timed(c, took, now)
  }

  function AfterReports(history: seq<Report>): Circuit {
    if history == [] then NEW_CIRCUIT else Told(AfterReports(history[..|history| - 1]), history[|history| - 1])
  }

  /** How many failures have been reported since the last success. */
  function FailureRun(history: seq<Report>): nat {
    if history == [] then 0
    else
      var front, last := FailureRun(history[..|history| - 1]), history[|history| - 1];
      if last.Outcome? then (if last.success then 0 else front + 1) else front
  }

  /** How many slow sends have been reported since the last fast one. */
  function SlowRun(history: seq<Report>): nat {
    if history == [] then 0
    else
      var front, last := SlowRun(history[..|history| - 1]), history[|history| - 1];
      if last.Latency? then (if last.took < SLOW_THRESHOLD then 0 else front + 1) else front
  }

  /** The counters are the run lengths of the reported history; the slow one starts
      afresh each time it trips. */
  lemma {:induction false} CountersAreRuns(history: seq<Report>)
    ensures AfterReports(history).failures == FailureRun(history)
    ensures AfterReports(history).slow == SlowRun(history) % SLOW_RUN
  {
    if history != [] {
      var front := history[..|history| - 1];
      CountersAreRuns(front);
      NextInRun(SlowRun(front));
    }
  }

  lemma NextInRun(n: nat)
    ensures (n + 1) % SLOW_RUN == if n % SLOW_RUN + 1 >= SLOW_RUN then 0 else n % SLOW_RUN + 1
  {
  }

  /** The report that opens a breaker is a failure that ends a probe or completes a run
      of THRESHOLD failures, or a slow send that completes a run of SLOW_RUN slow ones;
      and it then refuses every firing for the whole cooldown. */
  lemma OpensOnRuns(history: seq<Report>, r: Report, later: Time)
    ensures var was, c := AfterReports(history), AfterReports(history + [r]);
      !was.phase.Open? ==>
        && (c.phase.Open? <==>
             || (r == Outcome(false, r.now) && (was.phase.HalfOpen? || FailureRun(history + [r]) >= THRESHOLD))
             || (r.Latency? && SlowRun(history + [r]) > 0 && SlowRun(history + [r]) % SLOW_RUN == 0))
        && (c.phase.Open? ==> (Admits(c, later) <==> later >= r.now + COOLDOWN))
  {
    assert (history + [r])[..|history|] == history;
    CountersAreRuns(history);
    CountersAreRuns(history + [r]);
  }

  /** A breaker closes exactly on a reported success, whatever came before, and takes a trial
      exactly when asked after its cooldown; nothing else moves it on, except what opens it. */
  lemma ClosesOnSuccess(history: seq<Report>, r: Report)
    ensures var was, c := AfterReports(history), AfterReports(history + [r]);
      && (r == Outcome(true, r.now) ==> c.phase.Closed? && c.failures == 0)
      && (!was.phase.Closed? ==> (c.phase.Closed? <==> r == Outcome(true, r.now)))
      && (!was.phase.HalfOpen? ==> (c.phase.HalfOpen? <==> was.phase.Open? && r.Ask? && r.now >= was.openUntil))
      && (was.phase.HalfOpen? && r.Ask? ==> c == was)
  {
    assert (history + [r])[..|history|] == history;
  }

  /** While open it refuses until the end of the cooldown of the last report that opens it:
      a failure that completes a run, or a completed slow run. */
  lemma CooldownIsOfLastOpening(history: seq<Report>, r: Report)
    requires AfterReports(history).phase.Open?
    ensures var was, c := AfterReports(history), AfterReports(history + [r]);
      c.phase.Open? ==>
        c.openUntil ==
          if (r == Outcome(false, r.now) && FailureRun(history + [r]) >= THRESHOLD)
             || (r.Latency? && SlowRun(history + [r]) > 0 && SlowRun(history + [r]) % SLOW_RUN == 0)
          then r.now + COOLDOWN else was.openUntil
  {
    assert (history + [r])[..|history|] == history;
    CountersAreRuns(history);
    CountersAreRuns(history + [r]);
  }

  // ---------------------------------------------------------------- concurrent sends

  /** Where one send of Dispatch stands. A resolve enters without asking the breaker;
      `probe` says that this send took the half-open trial. */
  datatype Flight = Sending(probe: bool) | Timing | Over

  datatype World = World(circuit: Circuit, flights: map<nat, Flight>, clock: Time)

  const START := World(NEW_CIRCUIT, map[], ZERO_TIME)

  datatype Event =
    | EnterFiring(id: nat, now: Time)
    | EnterResolve(id: nat, now: Time)
    | RateLimited(id: nat, now: Time)       // bails out of limiter.Wait
    | Panics(id: nat, now: Time)
    | Sent(id: nat, success: bool, now: Time)
    | Measured(id: nat, took: Time, now: Time)

  predicate InPhase(w: World, id: nat, timing: bool) {
    id in w.flights && if timing then w.flights[id].Timing? else w.flights[id].Sending?
  }

  predicate Enabled(w: World, e: Event) {
    w.clock <= e.now &&
    match e
    case EnterFiring(id, _) => id !in w.flights
    case EnterResolve(id, _) => id !in w.flights
    case RateLimited(id, _) => InPhase(w, id, false)
    case Panics(id, _) => InPhase(w, id, false)
    case Sent(id, _, _) => InPhase(w, id, false)
    case Measured(id, _, _) => InPhase(w, id, true)
  }

  function NextCircuit(w: World, e: Event): Circuit
    requires Enabled(w, e)
  {
    match e
    case EnterFiring(_, now) => Asked(w.circuit, now)
    case EnterResolve(_, _) => w.circuit
    case RateLimited(id, now) => if w.flights[id].probe then Recorded(w.circuit, false, now) else w.circuit
    case Panics(_, now) => Recorded(w.circuit, false, now)
    case Sent(_, success, now) => Recorded(w.circuit, success, now)
    case Measured(_, took, now) => Timed(w.circuit, took, now)
  }

  function NextFlight(w: World, e: Event): Flight
    requires Enabled(w, e)
  {
    match e
    case EnterFiring(_, now) =>
      if Admits(w.circuit, now) then Sending(Asked(w.circuit, now).phase.HalfOpen?) else Over
    case EnterResolve(_, _) => Sending(false)
    case RateLimited(_, _) => Over
    case Panics(_, _) => Over
    case Sent(_, _, _) => Timing
    case Measured(_, _, _) => Over
  }

  function Next(w: World, e: Event): World
    requires Enabled(w, e)
  {
    World(NextCircuit(w, e), w.flights[e.id := NextFlight(w, e)], e.now)
  }

  predicate IsRun(w: World, run: seq<Event>)
    decreases |run|
  {
    run == [] || (Enabled(w, run[0]) && IsRun(Next(w, run[0]), run[1..]))
  }

  function After(w: World, run: seq<Event>): World
    requires IsRun(w, run)
    decreases |run|
  {
    if run == [] then w else After(Next(w, run[0]), run[1..])
  }

  predicate IsProbe(w: World, id: nat) {
    id in w.flights && w.flights[id] == Sending(true)
  }

  ghost predicate ProbePending(w: World) {
    exists id :: IsProbe(w, id)
  }

  ghost predicate Inv(w: World) {
    && (w.circuit.phase.HalfOpen? ==> ProbePending(w))
    && (w.circuit.phase.Closed? ==> w.circuit.failures < THRESHOLD)
    && w.circuit.slow < SLOW_RUN
    && w.circuit.openUntil <= w.clock + COOLDOWN
  }

  lemma InvStep(w: World, e: Event)
    requires Inv(w) && Enabled(w, e)
    ensures Inv(Next(w, e))
  {
    var r := Next(w, e);
    if r.circuit.phase.HalfOpen? {
      if w.circuit.phase.HalfOpen? {
        var id :| IsProbe(w, id);
        assert IsProbe(r, id);
      } else {
        assert IsProbe(r, e.id);
      }
    }
  }

  lemma {:induction false} InvAlways(w: World, run: seq<Event>)
    requires Inv(w) && IsRun(w, run)
    ensures Inv(After(w, run))
    decreases |run|
  {
    if run != [] {
      InvStep(w, run[0]);
      InvAlways(Next(w, run[0]), run[1..]);
    }
  }

  /** In every interleaving: a half-open breaker has a probe that has not recorded yet,
      a closed one is short of the threshold, and the slow run never reaches its limit. */
  lemma HalfOpenHasProbe(run: seq<Event>)
    requires IsRun(START, run)
    ensures var w := After(START, run);
      && (w.circuit.phase.HalfOpen? ==> ProbePending(w))
      && (w.circuit.phase.Closed? ==> w.circuit.failures < THRESHOLD)
      && w.circuit.slow < SLOW_RUN
  {
    InvAlways(START, run);
  }

  /** So a breaker is never stranded: once no send is on its way it is closed or open,
      and admits the next firing at the latest one cooldown after its last event. */
  lemma NeverStranded(run: seq<Event>, later: Time)
    requires IsRun(START, run)
    requires forall id :: !InPhase(After(START, run), id, false)
    requires later >= After(START, run).clock + COOLDOWN
    ensures !After(START, run).circuit.phase.HalfOpen? && Admits(After(START, run).circuit, later)
  {
    InvAlways(START, run);
    var w := After(START, run);
    if w.circuit.phase.HalfOpen? {
      var id :| IsProbe(w, id);
      assert InPhase(w, id, false);
    }
  }

  /** Does this step report to the breaker something that can end the trial: the outcome
      of a send, the failure of a probe that gave up, or a completed run of slow sends? */
  predicate Reports(w: World, e: Event)
    requires Enabled(w, e)
  {
    match e
    case EnterFiring(_, _) => false
    case EnterResolve(_, _) => false
    case RateLimited(id, _) => w.flights[id].probe
    case Panics(_, _) => true
    case Sent(_, _, _) => true
    case Measured(_, took, _) => took >= SLOW_THRESHOLD && w.circuit.slow + 1 >= SLOW_RUN
  }

  predicate Unreported(w: World, run: seq<Event>)
    requires IsRun(w, run)
    decreases |run|
  {
    run != [] ==> !Reports(w, run[0]) && Unreported(Next(w, run[0]), run[1..])
  }

  /** The firings of the run, each with the breaker's answer to it. */
  predicate AllRefused(w: World, run: seq<Event>)
    requires IsRun(w, run)
    decreases |run|
  {
    run != [] ==>
      && (run[0].EnterFiring? ==> Next(w, run[0]).flights[run[0].id].Over?)
      && AllRefused(Next(w, run[0]), run[1..])
  }

  /** The trial is exclusive: from the admission of a probe until some send reports, the
      breaker stays half-open and every firing is refused, whatever resolves, rate limits
      and late measurements come in between. */
  lemma {:induction false} OneTrialAtATime(w: World, run: seq<Event>)
    requires IsRun(w, run) && Unreported(w, run) && w.circuit.phase.HalfOpen?
    ensures After(w, run).circuit.phase.HalfOpen? && AllRefused(w, run)
    decreases |run|
  {
    if run != [] {
      OneTrialAtATime(Next(w, run[0]), run[1..]);
    }
  }
}
