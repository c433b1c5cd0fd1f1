/** The sink registry of internal/sinks/sink.go: one alert fanned out to the sinks of
    its route, and what the verdict makes the dispatcher do. */
module Sinks {
  import opened Alerts
  import opened Breaker

  datatype Sink = Sink(supports: set<string>)

  /** How one send ends: it never gets a rate-limiter token, it panics, or the sink answers. */
  datatype Answer = RateLimited | Panicked | Answered(accepted: bool, took: Time)

  predicate Accepts(answer: Answer) {
    answer.Answered? && answer.accepted
  }

  /** What Dispatch decides about one name before fanning out. */
  datatype Gate = NotEligible | ShortCircuited | Attempt(probe: bool)

  predicate Eligible(sinks: map<string, Sink>, a: Alert, name: string) {
    name in sinks && (a.resolved || a.severity in sinks[name].supports)
  }

  predicate TakesProbe(c: Circuit, a: Alert, asked: Time) {
    !a.resolved && c.phase.Open? && Admits(c, asked)
  }

  function GateOf(c: Circuit, a: Alert, asked: Time): Gate {
    if a.resolved || Admits(c, asked) then Attempt(TakesProbe(c, a, asked)) else ShortCircuited
  }

  function Passed(c: Circuit, a: Alert, asked: Time): Circuit {
    if a.resolved then c else Asked(c, asked)
  }

  /** The end of one send as its breaker sees it. */
  function Finished(c: Circuit, probe: bool, answer: Answer, done: Time): Circuit {
    match answer
    case RateLimited => if probe then Recorded(c, false, done) else c
    case Panicked => Recorded(c, false, done)
    case Answered(accepted, took) => Timed(Recorded(c, accepted, done), took, done)
  }

  /** The whole effect of one Dispatch on the breaker of an eligible sink. */
  function Effect(c: Circuit, a: Alert, asked: Time, answer: Answer, done: Time): Circuit {
    if GateOf(c, a, asked).Attempt?
    then Finished(Passed(c, a, asked), TakesProbe(c, a, asked), answer, done) else c
  }

  /** The gate's decision for one sink, and the breaker it leaves behind. */
  predicate Judged(was: Circuit, c: Circuit, a: Alert, asked: Time, attempted: bool, probe: bool) {
    && c == Passed(was, a, asked)
    && (attempted <==> GateOf(was, a, asked).Attempt?)
    && (attempted ==> (probe <==> TakesProbe(was, a, asked)))
  }

  function Ended(c: Circuit, attempted: bool, probe: bool, answer: Answer, done: Time): Circuit {
    if attempted then Finished(c, probe, answer, done) else c
  }

  /** One of the positions in `ps` has this name. */
  ghost predicate Names(names: seq<string>, ps: set<nat>, name: string) {
    exists j | j in ps :: j < |names| && names[j] == name
  }

  /** Position `i` is the only one with its name. */
  ghost predicate Alone(names: seq<string>, i: nat) {
    i < |names| && forall j | 0 <= j < |names| && j != i :: names[j] != names[i]
  }

  /** Every circuit that is half-open was so before, or waits for one of these probes. */
  ghost predicate HalfOpenFor(was: map<string, Circuit>, cs: map<string, Circuit>, names: seq<string>, probes: set<nat>) {
    forall n | n in cs && n in was && cs[n].phase.HalfOpen? :: was[n].phase.HalfOpen? || Names(names, probes, n)
  }

  /** The circuits while the loop of Dispatch has judged the first `k` names. */
  ghost predicate Judging(was: map<string, Circuit>, cs: map<string, Circuit>, sinks: map<string, Sink>, a: Alert,
                          names: seq<string>, asked: Time, k: nat, attempted: set<nat>, probes: set<nat>)
  {
    && cs.Keys == was.Keys
    && forall i: nat | Alone(names, i) && names[i] in was ::
      && (i >= k ==> cs[names[i]] == was[names[i]])
      && (i < k && Eligible(sinks, a, names[i]) ==>
            Judged(was[names[i]], cs[names[i]], a, asked, i in attempted, i in probes))
  }

  lemma JudgingStep(was: map<string, Circuit>, cs: map<string, Circuit>, sinks: map<string, Sink>, a: Alert,
                    names: seq<string>, asked: Time, k: nat, attempted: set<nat>, probes: set<nat>, gate: Gate)
    requires Judging(was, cs, sinks, a, names, asked, k, attempted, probes) && k < |names|
    requires probes <= attempted && forall j | j in attempted :: j < k
    requires gate.NotEligible? <==> !Eligible(sinks, a, names[k])
    requires Eligible(sinks, a, names[k]) ==>
      gate == if names[k] in cs then GateOf(cs[names[k]], a, asked) else Attempt(false)
    ensures Judging(was, if Eligible(sinks, a, names[k]) && names[k] in cs
        then cs[names[k] := Passed(cs[names[k]], a, asked)] else cs, sinks, a, names, asked, k + 1,
      if gate.Attempt? then attempted + {k} else attempted, if gate.Attempt? && gate.probe then probes + {k} else probes)
  {
  }

  lemma HalfOpenStep(was: map<string, Circuit>, cs: map<string, Circuit>, names: seq<string>, probes: set<nat>,
                     a: Alert, asked: Time, k: nat)
    requires HalfOpenFor(was, cs, names, probes) && cs.Keys == was.Keys && k < |names| && names[k] in cs
    ensures HalfOpenFor(was, cs[names[k] := Passed(cs[names[k]], a, asked)], names,
      if TakesProbe(cs[names[k]], a, asked) then probes + {k} else probes)
  {
    var r := cs[names[k] := Passed(cs[names[k]], a, asked)];
    var ps := if TakesProbe(cs[names[k]], a, asked) then probes + {k} else probes;
    forall n | n in was && r[n].phase.HalfOpen?
      ensures was[n].phase.HalfOpen? || Names(names, ps, n)
    {
      if n == names[k] && TakesProbe(cs[n], a, asked) {
        assert k in ps;
      } else {
        assert cs[n].phase.HalfOpen?;
        assert probes <= ps;
      }
    }
  }

  /** The circuits while the sends at `settled` have completed. */
  ghost predicate Settling(was: map<string, Circuit>, cs: map<string, Circuit>, names: seq<string>, settled: set<nat>,
                           probes: set<nat>, answer: nat -> Answer, done: nat -> Time)
  {
    && cs.Keys == was.Keys
    && forall i: nat | Alone(names, i) && names[i] in was ::
      cs[names[i]] == Ended(was[names[i]], i in settled, i in probes, answer(i), done(i))
  }

  /** No circuit becomes half-open, and none whose probe has completed still is. */
  ghost predicate Unstranded(was: map<string, Circuit>, cs: map<string, Circuit>, names: seq<string>, settled: set<nat>) {
    forall n | n in cs && n in was && cs[n].phase.HalfOpen? :: was[n].phase.HalfOpen? && !Names(names, settled, n)
  }

  lemma SettlingStep(was: map<string, Circuit>, cs: map<string, Circuit>, names: seq<string>, settled: set<nat>,
                     probes: set<nat>, answer: nat -> Answer, done: nat -> Time, i: nat)
    requires Settling(was, cs, names, settled, probes, answer, done) && i !in settled && i < |names|
    ensures Settling(was, if names[i] in cs
        then cs[names[i] := Finished(cs[names[i]], i in probes, answer(i), done(i))] else cs,
      names, settled + {i}, probes, answer, done)
  {
  }

  lemma UnstrandedStep(was: map<string, Circuit>, cs: map<string, Circuit>, names: seq<string>, settled: set<nat>,
                       probes: set<nat>, answer: Answer, done: Time, i: nat)
    requires Unstranded(was, cs, names, probes * settled) && cs.Keys == was.Keys && i < |names|
    ensures Unstranded(was, if names[i] in cs
        then cs[names[i] := Finished(cs[names[i]], i in probes, answer, done)] else cs, names, probes * (settled + {i}))
  {
    var r := if names[i] in cs then cs[names[i] := Finished(cs[names[i]], i in probes, answer, done)] else cs;
    forall n | n in was && r[n].phase.HalfOpen?
      ensures was[n].phase.HalfOpen? && !Names(names, probes * (settled + {i}), n)
    {
      assert cs[n].phase.HalfOpen?;
    }
  }

  /** What one send counts for: a panic and a refusal as a failure, an acceptance as a success,
      and a send that never got a token as a failure if it held the trial and as nothing else. */
  lemma SendsAreCounted(c: Circuit, probe: bool, answer: Answer, done: Time)
    ensures var d := Finished(c, probe, answer, done);
      match answer
      case RateLimited => if probe then d.failures == c.failures + 1 && !d.phase.HalfOpen? else d == c
      case Panicked => d.failures == c.failures + 1 && !d.phase.HalfOpen? && d.slow == c.slow
      case Answered(accepted, took) =>
        && d.failures == (if accepted then 0 else c.failures + 1)
        && (took < SLOW_THRESHOLD ==> d.slow == 0)
        && (took >= SLOW_THRESHOLD ==> d.slow == c.slow + 1 || (d.slow == 0 && d.phase.Open?))
        && (accepted && took < SLOW_THRESHOLD ==> d.phase.Closed?)
  {
  }

  /** The verdict false: some sink should have got the alert, and none of those it was sent
      to accepted it. */
  ghost predicate Refused(sinks: map<string, Sink>, a: Alert, names: seq<string>, attempted: set<nat>, answer: nat -> Answer) {
    && (exists i | 0 <= i < |names| :: Eligible(sinks, a, names[i]))
    && forall i | i in attempted :: !Accepts(answer(i))
  }

  class Registry {
    var sinks: map<string, Sink>
    var breakers: map<string, CircuitBreaker>

    /** Each name has a breaker of its own. */
    ghost predicate Valid()
      reads this
    {
      forall m, n | m in breakers && n in breakers && m != n :: breakers[m] != breakers[n]
    }

    ghost function Circuits(): map<string, Circuit>
      reads this, breakers.Values
    {
      map n | n in breakers :: breakers[n].View()
    }

    constructor ()
      ensures Valid() && sinks == map[] && breakers == map[]
    {
      sinks, breakers := map[], map[];
    }

    method Add(name: string, s: Sink)
      requires Valid()
      modifies this
      ensures Valid() && sinks == old(sinks)[name := s]
      ensures Circuits() == if name in old(breakers) then old(Circuits()) else old(Circuits())[name := NEW_CIRCUIT]
    {
      sinks := sinks[name := s];
      if name !in breakers {
        var b := new CircuitBreaker();
        breakers := breakers[name := b];
      }
    }

    /** The part of the loop before the goroutine starts. */
    method Ask(a: Alert, name: string, asked: Time) returns (gate: Gate)
      requires Valid()
      modifies breakers.Values
      ensures gate.NotEligible? <==> !Eligible(sinks, a, name)
      ensures Eligible(sinks, a, name) ==>
        gate == if name in breakers then GateOf(old(Circuits())[name], a, asked) else Attempt(false)
      ensures Circuits() == if Eligible(sinks, a, name) && name in breakers
        then old(Circuits())[name := Passed(old(Circuits())[name], a, asked)] else old(Circuits())
    {
      if name !in sinks || (!a.resolved && a.severity !in sinks[name].supports) {
        return NotEligible;
      }
      var probe := false;
      if name in breakers && !a.resolved {
        var ok;
        ok, probe := breakers[name].Allow(asked);
        if !ok {
          return ShortCircuited;
        }
      }
      gate := Attempt(probe);
    }

    /** The goroutine of one send, once the sink's answer is known. */
    method Complete(name: string, probe: bool, answer: Answer, done: Time) returns (accepted: bool)
      requires Valid()
      modifies breakers.Values
      ensures accepted == Accepts(answer)
      ensures Circuits() == if name in breakers
        then old(Circuits())[name := Finished(old(Circuits())[name], probe, answer, done)] else old(Circuits())
    {
      match answer
      case RateLimited =>
        if name in breakers && probe {
          breakers[name].Record(false, done);
        }
        accepted := false;
      case Panicked =>
        if name in breakers {
          breakers[name].Record(false, done);
        }
        accepted := false;
      case Answered(ok, took) =>
        if name in breakers {
          breakers[name].Record(ok, done);
          breakers[name].RecordLatency(took, done);
        }
        accepted := ok;
    }

    /** The loop that admits or skips each name; `probes` are the half-open trials taken. */
    method Admit(a: Alert, names: seq<string>, asked: Time) returns (attempted: set<nat>, probes: set<nat>, skipped: nat)
      requires Valid()
      modifies breakers.Values
      ensures forall i | i in attempted :: i < |names| && Eligible(sinks, a, names[i])
      ensures skipped == 0 ==> forall i | 0 <= i < |names| && Eligible(sinks, a, names[i]) :: i in attempted
      ensures skipped > 0 ==> !a.resolved && exists i | 0 <= i < |names| :: Eligible(sinks, a, names[i])
      ensures probes <= attempted && HalfOpenFor(old(Circuits()), Circuits(), names, probes)
      ensures Judging(old(Circuits()), Circuits(), sinks, a, names, asked, |names|, attempted, probes)
    {
      attempted, probes, skipped := {}, {}, 0;
      for i := 0 to |names|
        invariant forall j | j in attempted :: j < i && Eligible(sinks, a, names[j])
        invariant a.resolved ==> skipped == 0
        invariant skipped == 0 ==> forall j | 0 <= j < i && Eligible(sinks, a, names[j]) :: j in attempted
        invariant skipped > 0 ==> exists j | 0 <= j < i :: Eligible(sinks, a, names[j])
        invariant probes <= attempted && HalfOpenFor(old(Circuits()), Circuits(), names, probes)
        invariant Judging(old(Circuits()), Circuits(), sinks, a, names, asked, i, attempted, probes)
      {
        ghost var was, cs := old(Circuits()), Circuits();
        var gate := Ask(a, names[i], asked);
        JudgingStep(was, cs, sinks, a, names, asked, i, attempted, probes, gate);
        if names[i] in breakers {
          HalfOpenStep(was, cs, names, probes, a, asked, i);
        }
        match gate
        case NotEligible =>
        case ShortCircuited => skipped := skipped + 1;
        case Attempt(probe) =>
          attempted := attempted + {i};
          if probe {
            probes := probes + {i};
          }
      }
    }

    /** The sends complete in any order; `answer` and `done` say how and when each does. */
    method Await(names: seq<string>, attempted: set<nat>, probes: set<nat>, answer: nat -> Answer, done: nat -> Time)
      returns (succeeded: nat)
      requires Valid() && probes <= attempted && forall i | i in attempted :: i < |names|
      modifies breakers.Values
      ensures succeeded > 0 <==> exists i | i in attempted :: Accepts(answer(i))
      ensures Unstranded(old(Circuits()), Circuits(), names, probes)
      ensures Settling(old(Circuits()), Circuits(), names, attempted, probes, answer, done)
    {
      var rest := attempted;
      succeeded := 0;
      while rest != {}
        invariant rest <= attempted
        invariant succeeded > 0 <==> exists i | i in attempted && i !in rest :: Accepts(answer(i))
        invariant Unstranded(old(Circuits()), Circuits(), names, probes * (attempted - rest))
        invariant Settling(old(Circuits()), Circuits(), names, attempted - rest, probes, answer, done)
        decreases |rest|
      {
        var i :| i in rest;
        ghost var was, cs, settled := old(Circuits()), Circuits(), attempted - rest;
        var accepted := Complete(names[i], i in probes, answer(i), done(i));
        SettlingStep(was, cs, names, settled, probes, answer, done, i);
        UnstrandedStep(was, cs, names, settled, probes, answer(i), done(i), i);
        rest := rest - {i};
        assert attempted - rest == settled + {i};
        if accepted {
          succeeded := succeeded + 1;
        }
      }
      assert probes * attempted == probes && attempted - rest == attempted;
    }

    /** False exactly when some sink should have got the alert and none accepted it.
        Resolves are never short-circuited, no breaker is left half-open by this call,
        and each breaker hears exactly of its own send. */
    method Dispatch(a: Alert, names: seq<string>, asked: Time, answer: nat -> Answer, done: nat -> Time)
      returns (ok: bool, attempted: set<nat>)
      requires Valid()
      modifies breakers.Values
      ensures forall i | i in attempted :: i < |names| && Eligible(sinks, a, names[i])
      ensures a.resolved ==> forall i | 0 <= i < |names| && Eligible(sinks, a, names[i]) :: i in attempted
      ensures !ok <==> Refused(sinks, a, names, attempted, answer)
      ensures forall n | n in breakers && Circuits()[n].phase.HalfOpen? :: old(Circuits())[n].phase.HalfOpen?
      ensures forall i: nat | Alone(names, i) && names[i] in breakers && Eligible(sinks, a, names[i]) ::
        && (i in attempted <==> a.resolved || Admits(old(Circuits())[names[i]], asked))
        && Circuits()[names[i]] == Effect(old(Circuits())[names[i]], a, asked, answer(i), done(i))
      ensures forall i | i in attempted ::
        i < |names| && names[i] in sinks && (a.resolved || a.severity in sinks[names[i]].supports)
      ensures a.resolved ==> forall i | 0 <= i < |names| && names[i] in sinks :: i in attempted
      ensures forall i: nat | Alone(names, i) && names[i] in sinks && names[i] in breakers && !a.resolved ::
        var c := old(Circuits())[names[i]];
        i in attempted <==>
          a.severity in sinks[names[i]].supports && (c.phase.Closed? || (c.phase.Open? && asked >= c.openUntil))
      ensures ok <==>
        (exists i | i in attempted :: answer(i).Answered? && answer(i).accepted)
        || !exists i | 0 <= i < |names| :: names[i] in sinks && (a.resolved || a.severity in sinks[names[i]].supports)
    {
      var probes, skipped;
      attempted, probes, skipped := Admit(a, names, asked);
      var succeeded := Await(names, attempted, probes, answer, done);
      if attempted != {} {
        return succeeded > 0, attempted;
      }
      ok := skipped == 0;
    }
  }
}
