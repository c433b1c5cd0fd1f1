/** Conditional saves to the state ConfigMap (internal/persist/persist.go): any
    number of writers interleave their get, check and conditional update with each
    other and with outside edits of the object. */
module Persist {
  import opened Wrappers
  import opened Alerts

  const MAX_SAVED_AT_SKEW: Time := 120
  const SAVE_ATTEMPTS: nat := 5

  /** The stored object: its resource version, the SavedAt readable in it (none for
      a missing, undecodable or zero stamp) and whose bytes it holds. */
  datatype Object = Object(version: nat, stamp: Option<Time>, author: Option<nat>)

  datatype Phase =
    | Ready(attempt: nat)
    | Missing(attempt: nat)                        // Get found nothing: about to create
    | Got(attempt: nat, seen: Object)              // about to look at the stored stamp
    | Passed(attempt: nat, seen: Object, clock: Time) // about to update
    | Finished(ok: bool)

  /** One call of Save, for a snapshot stamped savedAt. */
  datatype Writer = Writer(savedAt: Time, phase: Phase)

  /** History of one write that reached the object; created ones replace nothing. */
  datatype Write = Write(writer: nat, replaced: Option<Time>, stamp: Option<Time>, clock: Time)

  datatype State = State(current: Option<Object>, lastVersion: nat, writers: seq<Writer>, writes: seq<Write>)

  datatype Step =
    | Get(w: nat)
    | Fail(w: nat)                       // a request error that is not retried
    | Create(w: nat)
    | Check(w: nat, clock: Time)
    | Update(w: nat, answered: bool)     // the answer may be lost after the write
    | Edit(value: Option<Object>)       // somebody else changes or deletes the object

  function StampOf(t: Time): Option<Time> {
    if t == ZERO_TIME then None else Some(t)
  }

  /** Save's staleness test: refuse a later stamp, unless it lies too far ahead. */
  predicate Refuses(stored: Option<Time>, savedAt: Time, clock: Time) {
    stored.Some? && stored.value > savedAt && !(stored.value > clock + MAX_SAVED_AT_SKEW)
  }

  function Retry(attempt: nat): Phase {
    if attempt + 1 < SAVE_ATTEMPTS then Ready(attempt + 1) else Finished(false)
  }

  predicate Enabled(s: State, l: Step) {
    match l
    case Get(w) => w < |s.writers| && s.writers[w].phase.Ready?
    case Fail(w) => w < |s.writers| && !s.writers[w].phase.Finished?
    case Create(w) => w < |s.writers| && s.writers[w].phase.Missing?
    case Check(w, _) => w < |s.writers| && s.writers[w].phase.Got?
    case Update(w, _) => w < |s.writers| && s.writers[w].phase.Passed?
    case Edit(o) => o.Some? ==> o.value.version == s.lastVersion + 1 && o.value.author == None
  }

  function Moved(s: State, w: nat, phase: Phase): State
    requires w < |s.writers|
  {
    s.(writers := s.writers[w := s.writers[w].(phase := phase)])
  }

  /** The object holds writer w's bytes under the next version. */
  function Stored(s: State, w: nat, clock: Time, phase: Phase): State
    requires w < |s.writers|
  {
    var stamp := StampOf(s.writers[w].savedAt);
    Moved(s, w, phase).(
      current := Some(Object(s.lastVersion + 1, stamp, Some(w))), lastVersion := s.lastVersion + 1,
      writes := s.writes + [Write(w, if s.current.Some? then s.current.value.stamp else None, stamp, clock)])
  }

  function Next(s: State, l: Step): State
    requires Enabled(s, l)
  {
    match l
    case Get(w) =>
      var n := s.writers[w].phase.attempt;
      Moved(s, w, if s.current.None? then Missing(n) else Got(n, s.current.value))
    case Fail(w) => Moved(s, w, Finished(false))
    case Create(w) =>
      if s.current.None? then Stored(s, w, ZERO_TIME, Finished(true))
      else Moved(s, w, Retry(s.writers[w].phase.attempt))
    case Check(w, clock) =>
      var p := s.writers[w].phase;
      if Refuses(p.seen.stamp, s.writers[w].savedAt, clock) then Moved(s, w, Finished(false))
      else Moved(s, w, Passed(p.attempt, p.seen, clock))
    case Update(w, answered) =>
      var p := s.writers[w].phase;
      if s.current.None? then Moved(s, w, Finished(false))
      else if s.current.value.version == p.seen.version then Stored(s, w, p.clock, Finished(answered))
      else Moved(s, w, Retry(p.attempt))
    case Edit(o) => s.(current := o, lastVersion := s.lastVersion + 1)
  }

  predicate IsRun(s: State, run: seq<Step>)
    decreases |run|
  {
    run == [] || (Enabled(s, run[0]) && IsRun(Next(s, run[0]), run[1..]))
  }

  function After(s: State, run: seq<Step>): State
    requires IsRun(s, run)
    decreases |run|
  {
    if run == [] then s else After(Next(s, run[0]), run[1..])
  }

  // ---------------------------------------------------------------- invariant

  /** A write never replaces a later stamp that its own clock still trusts. */
  predicate Justified(x: Write, savedAt: Time) {
    x.stamp == StampOf(savedAt) && !Refuses(x.replaced, savedAt, x.clock)
  }

  predicate Fresh(s: State, seen: Object) {
    seen.version <= s.lastVersion
    && (s.current.Some? && s.current.value.version == seen.version ==> s.current.value == seen)
  }

  predicate WriterOk(s: State, w: nat)
    requires w < |s.writers|
  {
    var p := s.writers[w].phase;
    && (p.Got? || p.Passed? ==> Fresh(s, p.seen))
    && (p.Passed? ==> !Refuses(p.seen.stamp, s.writers[w].savedAt, p.clock))
    && (p == Finished(true) ==> exists k :: 0 <= k < |s.writes| && s.writes[k].writer == w)
    && (forall k | 0 <= k < |s.writes| && s.writes[k].writer == w :: p.Finished?)
  }

  predicate Inv(s: State) {
    && (s.current.Some? ==> s.current.value.version <= s.lastVersion)
    && (forall w | 0 <= w < |s.writers| :: WriterOk(s, w))
    && (forall k | 0 <= k < |s.writes| ::
          s.writes[k].writer < |s.writers| && Justified(s.writes[k], s.writers[s.writes[k].writer].savedAt))
    && (forall j, k | 0 <= j < k < |s.writes| :: s.writes[j].writer != s.writes[k].writer)
  }

  predicate Initial(s: State) {
    && s.writes == [] && (s.current.Some? ==> s.current.value.version <= s.lastVersion)
    && forall w | 0 <= w < |s.writers| :: s.writers[w].phase == Ready(0)
  }

  lemma StoreKeepsInv(s: State, w: nat, clock: Time, phase: Phase)
    requires Inv(s) && w < |s.writers| && phase.Finished? && !s.writers[w].phase.Finished?
    requires s.current.Some? ==> !Refuses(s.current.value.stamp, s.writers[w].savedAt, clock)
    ensures Inv(Stored(s, w, clock, phase))
  {
    var s' := Stored(s, w, clock, phase);
    forall v | 0 <= v < |s'.writers|
      ensures WriterOk(s', v)
    {
      assert WriterOk(s, v);
      if s'.writers[v].phase == Finished(true) {
        if v == w {
          assert s'.writes[|s.writes|].writer == w;
        } else {
          var k :| 0 <= k < |s.writes| && s.writes[k].writer == v;
          assert s'.writes[k].writer == v;
        }
      }
    }
    assert WriterOk(s, w);
  }

  lemma MoveKeepsInv(s: State, w: nat, phase: Phase)
    requires Inv(s) && w < |s.writers| && phase != Finished(true)
    requires !s.writers[w].phase.Finished?
    requires phase.Got? || phase.Passed? ==> Fresh(s, phase.seen)
    requires phase.Passed? ==> !Refuses(phase.seen.stamp, s.writers[w].savedAt, phase.clock)
    ensures Inv(Moved(s, w, phase))
  {
    var s' := Moved(s, w, phase);
    forall v | 0 <= v < |s'.writers|
      ensures WriterOk(s', v)
    {
      assert WriterOk(s, v);
    }
  }

  lemma InvStep(s: State, l: Step)
    requires Inv(s) && Enabled(s, l)
    ensures Inv(Next(s, l))
  {
    match l {
      case Edit(o) =>
        forall v | 0 <= v < |s.writers|
          ensures WriterOk(Next(s, l), v)
        {
          assert WriterOk(s, v);
        }
      case Create(w) =>
        assert WriterOk(s, w);
        if s.current.None? { StoreKeepsInv(s, w, ZERO_TIME, Finished(true)); }
        else { MoveKeepsInv(s, w, Retry(s.writers[w].phase.attempt)); }
      case Update(w, answered) =>
        assert WriterOk(s, w);
        var p := s.writers[w].phase;
        if s.current.Some? && s.current.value.version == p.seen.version { StoreKeepsInv(s, w, p.clock, Finished(answered)); }
        else { MoveKeepsInv(s, w, Next(s, l).writers[w].phase); }
      case Get(w) => MoveKeepsInv(s, w, Next(s, l).writers[w].phase);
      case Fail(w) => MoveKeepsInv(s, w, Finished(false));
      case Check(w, _) =>
        assert WriterOk(s, w);
        MoveKeepsInv(s, w, Next(s, l).writers[w].phase);
    }
  }

  lemma {:induction false} InvAlways(s: State, run: seq<Step>)
    requires Inv(s) && IsRun(s, run)
    ensures Inv(After(s, run))
    decreases |run|
  {
    if run != [] {
      InvStep(s, run[0]);
      InvAlways(Next(s, run[0]), run[1..]);
    }
  }

  /** In every interleaving each write replaced a stamp no later than its own, or one
      more than MAX_SAVED_AT_SKEW ahead of the clock it was checked against; Save
      reports success only if its own bytes were written, and writes at most once. */
  lemma EveryWriteIsJustified(s: State, run: seq<Step>)
    requires Initial(s) && IsRun(s, run)
    ensures var s' := After(s, run);
      && (forall k | 0 <= k < |s'.writes| ::
            var x := s'.writes[k];
            x.writer < |s'.writers| && x.stamp == StampOf(s'.writers[x.writer].savedAt)
            && (x.replaced.None? || x.replaced.value <= s'.writers[x.writer].savedAt
                || x.replaced.value > x.clock + MAX_SAVED_AT_SKEW))
      && (forall w | 0 <= w < |s'.writers| && s'.writers[w].phase == Finished(true) ::
            exists k :: 0 <= k < |s'.writes| && s'.writes[k].writer == w)
      && (forall j, k | 0 <= j < k < |s'.writes| :: s'.writes[j].writer != s'.writes[k].writer)
  {
    InvAlways(s, run);
    var s' := After(s, run);
    forall w | 0 <= w < |s'.writers| && s'.writers[w].phase == Finished(true)
      ensures exists k :: 0 <= k < |s'.writes| && s'.writes[k].writer == w
    {
      assert WriterOk(s', w);
    }
  }

  // ---------------------------------------------------------------- monotonicity

  /** Nobody but Save touches the object, snapshots carry real stamps, and no check
      meets a stamp further ahead of its clock than the allowed skew. */
  predicate WellClocked(s: State, run: seq<Step>)
    requires IsRun(s, run)
    decreases |run|
  {
    run != [] ==>
      && !run[0].Edit?
      && (run[0].Check? && s.writers[run[0].w].phase.seen.stamp.Some? ==>
            s.writers[run[0].w].phase.seen.stamp.value <= run[0].clock + MAX_SAVED_AT_SKEW)
      && WellClocked(Next(s, run[0]), run[1..])
  }

  predicate Trusting(s: State) {
    forall w | 0 <= w < |s.writers| ::
      var p := s.writers[w].phase;
      s.writers[w].savedAt > ZERO_TIME
      && (p.Passed? && p.seen.stamp.Some? ==> p.seen.stamp.value <= s.writers[w].savedAt)
  }

  lemma StampStep(s: State, l: Step)
    requires Inv(s) && Trusting(s) && Enabled(s, l) && WellClocked(s, [l])
    ensures Trusting(Next(s, l))
    ensures s.current.Some? && s.current.value.stamp.Some? ==>
      && Next(s, l).current.Some? && Next(s, l).current.value.stamp.Some?
      && s.current.value.stamp.value <= Next(s, l).current.value.stamp.value
  {
    match l {
      case Update(w, _) => assert WriterOk(s, w);
      case Create(w) =>
      case Check(w, _) =>
      case Get(w) =>
      case Fail(w) =>
      case Edit(_) =>
    }
  }

  /** With clocks inside the skew the stored SavedAt never decreases. */
  lemma {:induction false} StoredStampNeverDecreases(s: State, run: seq<Step>)
    requires Inv(s) && Trusting(s) && IsRun(s, run) && WellClocked(s, run)
    requires s.current.Some? && s.current.value.stamp.Some?
    ensures var s' := After(s, run);
      && s'.current.Some? && s'.current.value.stamp.Some?
      && s.current.value.stamp.value <= s'.current.value.stamp.value
    decreases |run|
  {
    if run != [] {
      InvStep(s, run[0]);
      StampStep(s, run[0]);
      StoredStampNeverDecreases(Next(s, run[0]), run[1..]);
    }
  }

  // ---------------------------------------------------------------- saves go through

  /** The check lets a snapshot pass if nothing readable is stored, what is stored is no
      later, or lies further ahead of the clock than the allowed skew; and refuses all others. */
  lemma CheckDecides(s: State, w: nat, clock: Time)
    requires Enabled(s, Check(w, clock))
    ensures var p, s' := s.writers[w].phase, Next(s, Check(w, clock));
      && s'.current == s.current && s'.writes == s.writes
      && if p.seen.stamp.None? || p.seen.stamp.value <= s.writers[w].savedAt
           || p.seen.stamp.value > clock + MAX_SAVED_AT_SKEW
         then s'.writers[w].phase == Passed(p.attempt, p.seen, clock)
         else s'.writers[w].phase == Finished(false)
  {
  }

  /** What a call finds at the start of an attempt it may replace. */
  predicate MayReplace(stored: Option<Object>, savedAt: Time, clock: Time) {
    stored.None? || stored.value.stamp.None? || stored.value.stamp.value <= savedAt
    || stored.value.stamp.value > clock + MAX_SAVED_AT_SKEW
  }

  /** One attempt with no other step in between. */
  function Attempt(s: State, w: nat, clock: Time): seq<Step>
    requires w < |s.writers|
  {
    if s.current.None? then [Get(w), Create(w)]
    else if MayReplace(s.current, s.writers[w].savedAt, clock) then [Get(w), Check(w, clock), Update(w, true)]
    else [Get(w), Check(w, clock)]
  }

  /** An attempt that nothing disturbs succeeds if and only if the stored snapshot may be
      replaced, whatever attempt it is. Then the object holds the writer's own bytes under its
      stamp; otherwise it is as it was. */
  lemma UndisturbedSaveSucceeds(s: State, w: nat, clock: Time)
    requires w < |s.writers| && s.writers[w].phase.Ready?
    ensures IsRun(s, Attempt(s, w, clock))
    ensures var s', savedAt := After(s, Attempt(s, w, clock)), s.writers[w].savedAt;
      && |s'.writers| == |s.writers| && s'.writers[w] == Writer(savedAt, Finished(MayReplace(s.current, savedAt, clock)))
      && s'.current == if MayReplace(s.current, savedAt, clock)
                       then Some(Object(s.lastVersion + 1, if savedAt == ZERO_TIME then None else Some(savedAt), Some(w)))
                       else s.current
  {
    var run := Attempt(s, w, clock);
    var s1 := Next(s, run[0]);
    assert Enabled(s1, run[1]);
    var s2 := Next(s1, run[1]);
    if |run| == 2 {
      AfterTwo(s, run);
    } else {
      assert Enabled(s2, run[2]);
      AfterTwo(s1, run[1..]);
    }
  }

  lemma AfterTwo(s: State, run: seq<Step>)
    requires |run| == 2 && Enabled(s, run[0]) && Enabled(Next(s, run[0]), run[1])
    ensures IsRun(s, run) && After(s, run) == Next(Next(s, run[0]), run[1])
  {
    var s2 := Next(Next(s, run[0]), run[1]);
    assert run[1..][1..] == [] && IsRun(s2, []) && After(s2, []) == s2;
    assert IsRun(Next(s, run[0]), run[1..]);
  }

  /** A write attempt that lost a race: the object is not the one the call saw. */
  predicate Conflict(s: State, l: Step, w: nat)
    requires Enabled(s, l)
  {
    || (l == Create(w) && s.current.Some?)
    || (l.Update? && l.w == w && s.current.Some? && s.current.value.version != s.writers[w].phase.seen.version)
  }

  function Conflicts(s: State, run: seq<Step>, w: nat): nat
    requires IsRun(s, run)
    decreases |run|
  {
    if run == [] then 0
    else (if Conflict(s, run[0], w) then 1 else 0) + Conflicts(Next(s, run[0]), run[1..], w)
  }

  /** The attempts of a call are its lost races. */
  predicate OnAttempt(s: State, w: nat, n: nat) {
    w < |s.writers| && if s.writers[w].phase.Finished? then n <= SAVE_ATTEMPTS else s.writers[w].phase.attempt == n < SAVE_ATTEMPTS
  }

  lemma AttemptStep(s: State, l: Step, w: nat, n: nat)
    requires OnAttempt(s, w, n) && Enabled(s, l)
    ensures OnAttempt(Next(s, l), w, n + if Conflict(s, l, w) then 1 else 0)
    ensures Conflict(s, l, w) ==>
      Next(s, l).writers[w].phase == if n + 1 < SAVE_ATTEMPTS then Ready(n + 1) else Finished(false)
  {
    match l {
      case Get(_) =>
      case Fail(_) =>
      case Create(_) =>
      case Check(_, _) =>
      case Update(_, _) =>
      case Edit(_) =>
    }
  }

  lemma {:induction false} AttemptsAreConflicts(s: State, run: seq<Step>, w: nat, n: nat)
    requires OnAttempt(s, w, n) && IsRun(s, run)
    ensures OnAttempt(After(s, run), w, n + Conflicts(s, run, w))
    decreases |run|
  {
    if run != [] {
      AttemptStep(s, run[0], w, n);
      AttemptsAreConflicts(Next(s, run[0]), run[1..], w, n + if Conflict(s, run[0], w) then 1 else 0);
    }
  }

  /** In every interleaving a lost race is tried again until the call has lost five. */
  lemma LostRacesAreRetried(s: State, run: seq<Step>, l: Step, w: nat)
    requires Initial(s) && w < |s.writers| && IsRun(s, run) && Enabled(After(s, run), l) && Conflict(After(s, run), l, w)
    ensures Conflicts(s, run, w) < SAVE_ATTEMPTS
    ensures var phase := Next(After(s, run), l).writers[w].phase;
      if Conflicts(s, run, w) + 1 < SAVE_ATTEMPTS then phase.Ready? else phase == Finished(false)
  {
    AttemptsAreConflicts(s, run, w, 0);
    AttemptStep(After(s, run), l, w, Conflicts(s, run, w));
  }
}
