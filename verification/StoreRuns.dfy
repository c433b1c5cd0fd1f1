/** What the alert store guarantees over whole runs, restarts included. */
module StoreRuns {
  import opened Wrappers
  import opened Alerts
  import opened Collections
  import opened AlertStore

  /** One locked section of the store with its clock reading. Reboot stands for an
      export, the end of the process, and the restore into a fresh store. */
  datatype Event =
    | Send(a: Alert, now: Time)
    | SendEvent(a: Alert, now: Time)
    | Seed(fp: string, now: Time)
    | Touch(fp: string, now: Time)
    | Sweep(now: Time)
    | ObjectGone(kind: string, ns: string, name: string, now: Time)
    | Clean(now: Time)
    | Forget(fp: string, now: Time)
    | Escalate(after: Time, ruleKey: string, want: map<string, string>, now: Time)
    | Reboot(now: Time)

  /** What callers see of a step: whether a send went out, the alerts handed to the
      resolve callback and those handed to escalation, without enrichment. */
  datatype Output = Output(accepted: bool, resolved: map<string, Alert>, escalated: map<string, Alert>)

  function Step(cfg: Config, c: Core, e: Event): Core {
    match e
    case Send(a, now) => if Muted(cfg, c, a.fingerprint, now) then c else Sent(cfg, c, a, now)
    case SendEvent(a, now) => if Muted(cfg, c, a.fingerprint, now) then c else Seeded(c, a.fingerprint, now)
    case Seed(fp, now) => Seeded(c, fp, now)
    case Touch(fp, now) => Touched(cfg, c, fp, now)
    case Sweep(now) => Dropped(c, Expired(c, now))
    case ObjectGone(kind, ns, name, _) => Dropped(c, OfObject(c, kind, ns, name))
    case Clean(now) => Cleaned(cfg, c, now)
    case Forget(fp, _) => Dropped(c, {fp})
    case Escalate(after, key, want, now) => Marked(c, Due(cfg, c, after, key, want, now), key)
    case Reboot(now) => Carried(cfg, c, now)
  }

  function Out(cfg: Config, c: Core, e: Event): Output {
    match e
    case Send(a, now) => Output(!Muted(cfg, c, a.fingerprint, now), map[], map[])
    case SendEvent(a, now) => Output(!Muted(cfg, c, a.fingerprint, now), map[], map[])
    case Sweep(now) => Output(false, map fp | fp in Expired(c, now) :: Durable(Closing(c.active[fp], None)), map[])
    case ObjectGone(kind, ns, name, now) =>
      Output(false, map fp | fp in OfObject(c, kind, ns, name) :: Durable(Closing(c.active[fp], Some(now))), map[])
    case Escalate(after, key, want, now) =>
      Output(false, map[], map fp | fp in Due(cfg, c, after, key, want, now) :: Durable(c.active[fp]))
    case _ => Output(false, map[], map[])
  }

  function After(cfg: Config, c: Core, run: seq<Event>): Core
    decreases |run|
  {
    if run == [] then c else After(cfg, Step(cfg, c, run[0]), run[1..])
  }

  /** Clock readings are real instants and never go back. */
  predicate Ordered(run: seq<Event>, from: Time) {
    ZERO_TIME < from && (run != [] ==> from <= run[0].now && Ordered(run[1..], run[0].now))
  }

  // ---------------------------------------------------------------- the invariant

  lemma TidyStep(cfg: Config, c: Core, e: Event)
    requires Tidy(c) && cfg.resolveTTL >= 0 && e.now > ZERO_TIME
    ensures Tidy(Step(cfg, c, e))
  {
  }

  /** Escalation marks exist only for active fingerprints, and every active alert has
      a deadline and sits under its own fingerprint, after every run. */
  lemma {:induction false} TidyAlways(cfg: Config, c: Core, run: seq<Event>, from: Time)
    requires Tidy(c) && cfg.resolveTTL >= 0 && Ordered(run, from)
    ensures Tidy(After(cfg, c, run))
    decreases |run|
  {
    if run != [] {
      TidyStep(cfg, c, run[0]);
      TidyAlways(cfg, Step(cfg, c, run[0]), run[1..], run[0].now);
    }
  }

  // ---------------------------------------------------------------- incidents

  /** The resolve callback fires for a fingerprint exactly when a sweep or an object
      delete ends its stay in the active set. */
  lemma ResolveEndsStay(cfg: Config, c: Core, e: Event, fp: string)
    ensures fp in Out(cfg, c, e).resolved
       <==> fp in c.active && fp !in Step(cfg, c, e).active && (e.Sweep? || e.ObjectGone?)
    ensures fp in c.active && fp !in Step(cfg, c, e).active
       ==> e.Sweep? || e.ObjectGone? || e.Reboot? || e == Forget(fp, e.now)
  {
  }

  function Starts(cfg: Config, c: Core, run: seq<Event>, fp: string): nat
    decreases |run|
  {
    if run == [] then 0
    else (if fp !in c.active && fp in Step(cfg, c, run[0]).active then 1 else 0)
         + Starts(cfg, Step(cfg, c, run[0]), run[1..], fp)
  }

  function Resolves(cfg: Config, c: Core, run: seq<Event>, fp: string): nat
    decreases |run|
  {
    if run == [] then 0
    else (if fp in Out(cfg, c, run[0]).resolved then 1 else 0) + Resolves(cfg, Step(cfg, c, run[0]), run[1..], fp)
  }

  /** Stays that end without a resolve: forgotten, or refused by a restore. */
  function SilentEnds(cfg: Config, c: Core, run: seq<Event>, fp: string): nat
    decreases |run|
  {
    if run == [] then 0
    else (if fp in c.active && fp !in Step(cfg, c, run[0]).active && (run[0].Forget? || run[0].Reboot?) then 1 else 0)
         + SilentEnds(cfg, Step(cfg, c, run[0]), run[1..], fp)
  }

  /** Over every run each stay in the active set is resolved exactly once, ends
      silently exactly once, or is still going on. */
  lemma {:induction false} IncidentsBalance(cfg: Config, c: Core, run: seq<Event>, fp: string)
    ensures (if fp in c.active then 1 else 0) + Starts(cfg, c, run, fp)
         == Resolves(cfg, c, run, fp) + SilentEnds(cfg, c, run, fp)
            + (if fp in After(cfg, c, run).active then 1 else 0)
    decreases |run|
  {
    if run != [] {
      ResolveEndsStay(cfg, c, run[0], fp);
      IncidentsBalance(cfg, Step(cfg, c, run[0]), run[1..], fp);
    }
  }

  /** The fingerprint is active in every state of the run. */
  predicate Stays(cfg: Config, c: Core, run: seq<Event>, fp: string)
    decreases |run|
  {
    fp in c.active && (run != [] ==> Stays(cfg, Step(cfg, c, run[0]), run[1..], fp))
  }

  predicate EscalatesIn(cfg: Config, c: Core, run: seq<Event>, fp: string, key: string)
    decreases |run|
  {
    run != [] && ((run[0].Escalate? && run[0].ruleKey == key && fp in Out(cfg, c, run[0]).escalated)
                  || EscalatesIn(cfg, Step(cfg, c, run[0]), run[1..], fp, key))
  }

  lemma StayStep(cfg: Config, c: Core, e: Event, fp: string)
    requires fp in c.active && fp in Step(cfg, c, e).active
    ensures Step(cfg, c, e).active[fp].startsAt == c.active[fp].startsAt
    ensures Marks(c, fp) <= Marks(Step(cfg, c, e), fp)
    ensures e.Escalate? && fp in Out(cfg, c, e).escalated ==>
              e.ruleKey !in Marks(c, fp) && e.ruleKey in Marks(Step(cfg, c, e), fp)
  {
  }

  /** Throughout a stay StartsAt is constant, and a rule key that has escalated the
      fingerprint never does so again, restarts included. */
  lemma {:induction false} OneStayOneIncident(cfg: Config, c: Core, run: seq<Event>, fp: string, key: string)
    requires Stays(cfg, c, run, fp)
    ensures fp in After(cfg, c, run).active && After(cfg, c, run).active[fp].startsAt == c.active[fp].startsAt
    ensures key in Marks(c, fp) ==> !EscalatesIn(cfg, c, run, fp, key)
    decreases |run|
  {
    if run != [] {
      StayStep(cfg, c, run[0], fp);
      OneStayOneIncident(cfg, Step(cfg, c, run[0]), run[1..], fp, key);
    }
  }

  /** So within one stay each rule key escalates the fingerprint at most once. */
  lemma EscalatesAtMostOnce(cfg: Config, c: Core, e: Event, later: seq<Event>, fp: string)
    requires Stays(cfg, c, [e] + later, fp) && e.Escalate? && fp in Out(cfg, c, e).escalated
    ensures !EscalatesIn(cfg, Step(cfg, c, e), later, fp, e.ruleKey)
  {
    assert ([e] + later)[1..] == later;
    StayStep(cfg, c, e, fp);
    OneStayOneIncident(cfg, Step(cfg, c, e), later, fp, e.ruleKey);
  }

  // ---------------------------------------------------------------- mute spacing

  /** No step of the run drops the fingerprint's mute record by a resolve or a Forget. */
  predicate Uncleared(cfg: Config, c: Core, run: seq<Event>, fp: string)
    decreases |run|
  {
    run != [] ==>
      && fp !in Out(cfg, c, run[0]).resolved && !(run[0].Forget? && run[0].fp == fp)
      && Uncleared(cfg, Step(cfg, c, run[0]), run[1..], fp)
  }

  /** A send at `sent` is on record, or so long ago that it no longer mutes. */
  predicate Remembers(cfg: Config, c: Core, fp: string, sent: Time, now: Time) {
    (fp in c.lastSent && sent <= c.lastSent[fp] <= now) || now - sent >= cfg.muteWindow
  }

  lemma RemembersStep(cfg: Config, c: Core, e: Event, fp: string, sent: Time, now: Time)
    requires sent <= now <= e.now && Remembers(cfg, c, fp, sent, now)
    requires fp !in Out(cfg, c, e).resolved && !(e.Forget? && e.fp == fp)
    ensures Remembers(cfg, Step(cfg, c, e), fp, sent, e.now)
  {
  }

  /** Two accepted sends of one fingerprint with no resolve or Forget in between are
      at least the mute window apart, whatever cleaning and restarts do. */
  lemma {:induction false} SendsAreSpaced(cfg: Config, c: Core, run: seq<Event>, fp: string, sent: Time, now: Time, again: Event)
    requires sent <= now && Remembers(cfg, c, fp, sent, now)
    requires Ordered(run + [again], now) && Uncleared(cfg, c, run, fp)
    requires (again.Send? || again.SendEvent?) && again.a.fingerprint == fp
    requires Out(cfg, After(cfg, c, run), again).accepted
    ensures again.now - sent >= cfg.muteWindow
    decreases |run|
  {
    if run == [] {
      assert (run + [again])[0] == again;
    } else {
      assert (run + [again])[0] == run[0] && (run + [again])[1..] == run[1..] + [again];
      RemembersStep(cfg, c, run[0], fp, sent, now);
      SendsAreSpaced(cfg, Step(cfg, c, run[0]), run[1..], fp, sent, run[0].now, again);
    }
  }

  lemma AcceptedSendIsRemembered(cfg: Config, c: Core, e: Event)
    requires (e.Send? || e.SendEvent?) && Out(cfg, c, e).accepted
    ensures Remembers(cfg, Step(cfg, c, e), e.a.fingerprint, e.now, e.now)
  {
  }

  // ---------------------------------------------------------------- keep-alive

  predicate Refires(cfg: Config, c: Core, e: Event, fp: string) {
    e == Touch(fp, e.now) || (e.Send? && e.a.fingerprint == fp && Out(cfg, c, e).accepted)
  }

  /** No step comes more than `gap` after the fingerprint's latest re-fire. */
  predicate KeepsFiring(cfg: Config, c: Core, run: seq<Event>, fp: string, last: Time, gap: Time)
    decreases |run|
  {
    run != [] ==>
      && run[0].now <= last + gap
      && KeepsFiring(cfg, Step(cfg, c, run[0]), run[1..], fp, if Refires(cfg, c, run[0], fp) then run[0].now else last, gap)
  }

  predicate NeverSwept(cfg: Config, c: Core, run: seq<Event>, fp: string)
    decreases |run|
  {
    run != [] ==>
      && (run[0].Sweep? ==> fp !in Out(cfg, c, run[0]).resolved)
      && NeverSwept(cfg, Step(cfg, c, run[0]), run[1..], fp)
  }

  /** An alert re-fired with gaps of at most resolveTTL is never resolved by the
      sweep, however its mute window lapses in between. */
  lemma {:induction false} RefiringKeepsAlive(cfg: Config, c: Core, run: seq<Event>, fp: string, last: Time, gap: Time)
    requires Ordered(run, last) && 0 <= gap <= cfg.resolveTTL
    requires fp in c.active ==> c.active[fp].endsAt >= last + cfg.resolveTTL
    requires KeepsFiring(cfg, c, run, fp, last, gap)
    ensures NeverSwept(cfg, c, run, fp)
    decreases |run|
  {
    if run != [] {
      var last' := if Refires(cfg, c, run[0], fp) then run[0].now else last;
      var c' := Step(cfg, c, run[0]);
      assert fp in c'.active ==> c'.active[fp].endsAt >= last' + cfg.resolveTTL;
      OrderedFromEarlier(run[1..], last', run[0].now);
      RefiringKeepsAlive(cfg, c', run[1..], fp, last', gap);
    }
  }

  lemma OrderedFromEarlier(run: seq<Event>, from: Time, later: Time)
    requires Ordered(run, later) && ZERO_TIME < from <= later
    ensures Ordered(run, from)
  {
  }

  /** The time of the run's latest re-fire of the fingerprint. */
  function LastRenewal(cfg: Config, c: Core, run: seq<Event>, fp: string, last: Time): Time
    decreases |run|
  {
    if run == [] then last
    else LastRenewal(cfg, Step(cfg, c, run[0]), run[1..], fp, if Refires(cfg, c, run[0], fp) then run[0].now else last)
  }

  lemma DeadlineStep(cfg: Config, c: Core, e: Event, fp: string, last: Time)
    requires cfg.resolveTTL >= 0 && ZERO_TIME < last <= e.now
    requires fp in c.active ==> c.active[fp].endsAt == last + cfg.resolveTTL
    ensures var last' := if Refires(cfg, c, e, fp) then e.now else last;
      fp in Step(cfg, c, e).active ==> Step(cfg, c, e).active[fp].endsAt == last' + cfg.resolveTTL
  {
  }

  /** After every run an active alert's deadline is its latest re-fire plus resolveTTL. */
  lemma {:induction false} DeadlineIsLastRenewal(cfg: Config, c: Core, run: seq<Event>, fp: string, last: Time)
    requires cfg.resolveTTL >= 0 && Ordered(run, last)
    requires fp in c.active ==> c.active[fp].endsAt == last + cfg.resolveTTL
    ensures var d := After(cfg, c, run); var t := LastRenewal(cfg, c, run, fp, last);
      t >= last && (fp in d.active ==> d.active[fp].endsAt == t + cfg.resolveTTL)
    decreases |run|
  {
    if run != [] {
      var last' := if Refires(cfg, c, run[0], fp) then run[0].now else last;
      DeadlineStep(cfg, c, run[0], fp, last);
      OrderedFromEarlier(run[1..], last', run[0].now);
      DeadlineIsLastRenewal(cfg, Step(cfg, c, run[0]), run[1..], fp, last');
    }
  }

  /** So a sweep resolves an alert exactly if it is active and its latest re-fire in the
      whole run lies more than resolveTTL back. */
  lemma SweptExactlyWhenSilent(cfg: Config, c: Core, run: seq<Event>, fp: string, last: Time, t: Time)
    requires cfg.resolveTTL >= 0 && Ordered(run, last)
    requires fp in c.active ==> c.active[fp].endsAt == last + cfg.resolveTTL
    ensures fp in Out(cfg, After(cfg, c, run), Sweep(t)).resolved
       <==> fp in After(cfg, c, run).active && t > LastRenewal(cfg, c, run, fp, last) + cfg.resolveTTL
  {
    DeadlineIsLastRenewal(cfg, c, run, fp, last);
  }

  const INFORMER_RESYNC_SECONDS: Time := 300

  /** validateBehavior's bound on the two windows. */
  predicate ValidBehavior(cfg: Config) {
    cfg.muteWindow > INFORMER_RESYNC_SECONDS && cfg.resolveTTL > INFORMER_RESYNC_SECONDS
  }

  /** With a validated configuration, one re-fire per informer resync suffices. */
  lemma ResyncKeepsAlive(cfg: Config, c: Core, run: seq<Event>, fp: string, last: Time)
    requires ValidBehavior(cfg) && Ordered(run, last)
    requires fp in c.active ==> c.active[fp].endsAt >= last + cfg.resolveTTL
    requires KeepsFiring(cfg, c, run, fp, last, INFORMER_RESYNC_SECONDS)
    ensures NeverSwept(cfg, c, run, fp)
  {
    RefiringKeepsAlive(cfg, c, run, fp, last, INFORMER_RESYNC_SECONDS);
  }

  // ---------------------------------------------------------------- observational equality

  /** The mute record as far as it still matters at `now`. */
  function LiveMute(cfg: Config, c: Core, fp: string, now: Time): Option<Time> {
    if Muted(cfg, c, fp, now) then Some(c.lastSent[fp]) else None
  }

  /** Two stores no caller can tell apart from `now` on. */
  ghost predicate Alike(cfg: Config, c: Core, d: Core, now: Time) {
    && c.active.Keys == d.active.Keys
    && (forall fp | fp in c.active :: Durable(c.active[fp]) == Durable(d.active[fp]))
    && (forall fp :: LiveMute(cfg, c, fp, now) == LiveMute(cfg, d, fp, now))
    && (forall fp :: Marks(c, fp) == Marks(d, fp))
  }

  lemma AlikeLater(cfg: Config, c: Core, d: Core, now: Time, later: Time)
    requires Alike(cfg, c, d, now) && now <= later
    ensures Alike(cfg, c, d, later)
  {
    forall fp
      ensures LiveMute(cfg, c, fp, later) == LiveMute(cfg, d, fp, later)
    {
      assert LiveMute(cfg, c, fp, now) == LiveMute(cfg, d, fp, now);
    }
  }

  lemma AlikeIsSameDue(cfg: Config, c: Core, d: Core, after: Time, key: string, want: map<string, string>, now: Time)
    requires Alike(cfg, c, d, now)
    ensures Due(cfg, c, after, key, want, now) == Due(cfg, d, after, key, want, now)
  {
    forall fp | fp in c.active
      ensures IsDue(cfg, c, fp, after, key, want, now) == IsDue(cfg, d, fp, after, key, want, now)
    {
      assert Durable(c.active[fp]) == Durable(d.active[fp]);
      SameFieldsMatchAlike(cfg.rx, c.active[fp], d.active[fp], want);
    }
  }

  lemma MuteAfterDrop(cfg: Config, c: Core, d: Core, e: Event, fp: string)
    requires Alike(cfg, c, d, e.now) && (e.Sweep? || e.ObjectGone? || e.Forget?)
    ensures LiveMute(cfg, Step(cfg, c, e), fp, e.now) == LiveMute(cfg, Step(cfg, d, e), fp, e.now)
  {
    assert LiveMute(cfg, c, fp, e.now) == LiveMute(cfg, d, fp, e.now);
    if e.ObjectGone? {
      AlikeChooseAlike(cfg, c, d, e.now, e.kind, e.ns, e.name);
    } else {
      AlikeChooseAlike(cfg, c, d, e.now, "", "", "");
    }
  }

  lemma MuteAfterSend(cfg: Config, c: Core, d: Core, e: Event, fp: string)
    requires Alike(cfg, c, d, e.now) && (e.Send? || e.SendEvent?)
    ensures LiveMute(cfg, Step(cfg, c, e), fp, e.now) == LiveMute(cfg, Step(cfg, d, e), fp, e.now)
  {
    assert LiveMute(cfg, c, fp, e.now) == LiveMute(cfg, d, fp, e.now);
    assert LiveMute(cfg, c, e.a.fingerprint, e.now) == LiveMute(cfg, d, e.a.fingerprint, e.now);
  }

  lemma MuteAfterRest(cfg: Config, c: Core, d: Core, e: Event, fp: string)
    requires LiveMute(cfg, c, fp, e.now) == LiveMute(cfg, d, fp, e.now)
    requires e.Seed? || e.Touch? || e.Clean? || e.Escalate? || e.Reboot?
    ensures LiveMute(cfg, Step(cfg, c, e), fp, e.now) == LiveMute(cfg, Step(cfg, d, e), fp, e.now)
  {
  }

  lemma MuteStep(cfg: Config, c: Core, d: Core, e: Event, fp: string)
    requires Alike(cfg, c, d, e.now)
    ensures LiveMute(cfg, Step(cfg, c, e), fp, e.now) == LiveMute(cfg, Step(cfg, d, e), fp, e.now)
  {
    if e.Sweep? || e.ObjectGone? || e.Forget? {
      MuteAfterDrop(cfg, c, d, e, fp);
    } else if e.Send? || e.SendEvent? {
      MuteAfterSend(cfg, c, d, e, fp);
    } else {
      assert LiveMute(cfg, c, fp, e.now) == LiveMute(cfg, d, fp, e.now);
      MuteAfterRest(cfg, c, d, e, fp);
    }
  }

  lemma MarksAfterEscalation(cfg: Config, c: Core, d: Core, e: Event, fp: string)
    requires Alike(cfg, c, d, e.now) && e.Escalate?
    ensures Marks(Step(cfg, c, e), fp) == Marks(Step(cfg, d, e), fp)
  {
    assert Marks(c, fp) == Marks(d, fp);
    AlikeIsSameDue(cfg, c, d, e.after, e.ruleKey, e.want, e.now);
  }

  lemma MarksAfterDrop(cfg: Config, c: Core, d: Core, e: Event, fp: string)
    requires Alike(cfg, c, d, e.now) && (e.Sweep? || e.ObjectGone?)
    ensures Marks(Step(cfg, c, e), fp) == Marks(Step(cfg, d, e), fp)
  {
    assert Marks(c, fp) == Marks(d, fp);
    if e.ObjectGone? {
      AlikeChooseAlike(cfg, c, d, e.now, e.kind, e.ns, e.name);
    } else {
      AlikeChooseAlike(cfg, c, d, e.now, "", "", "");
    }
  }

  lemma MarksAfterReboot(cfg: Config, c: Core, d: Core, e: Event, fp: string)
    requires Alike(cfg, c, d, e.now) && e.Reboot?
    ensures Marks(Step(cfg, c, e), fp) == Marks(Step(cfg, d, e), fp)
  {
    assert Marks(c, fp) == Marks(d, fp);
    ActiveAfterReboot(cfg, c, d, e.now);
  }

  lemma MarksStep(cfg: Config, c: Core, d: Core, e: Event, fp: string)
    requires Alike(cfg, c, d, e.now)
    ensures Marks(Step(cfg, c, e), fp) == Marks(Step(cfg, d, e), fp)
  {
    if e.Escalate? {
      MarksAfterEscalation(cfg, c, d, e, fp);
    } else if e.Sweep? || e.ObjectGone? {
      MarksAfterDrop(cfg, c, d, e, fp);
    } else if e.Reboot? {
      MarksAfterReboot(cfg, c, d, e, fp);
    } else {
      assert Marks(c, fp) == Marks(d, fp);
    }
  }

  lemma AlikeChooseAlike(cfg: Config, c: Core, d: Core, now: Time, kind: string, ns: string, name: string)
    requires Alike(cfg, c, d, now)
    ensures Expired(c, now) == Expired(d, now) && OfObject(c, kind, ns, name) == OfObject(d, kind, ns, name)
  {
    forall fp | fp in c.active
      ensures c.active[fp].endsAt == d.active[fp].endsAt
      ensures IsObject(c.active[fp], kind, ns, name) == IsObject(d.active[fp], kind, ns, name)
    {
      assert Durable(c.active[fp]) == Durable(d.active[fp]);
    }
  }

  ghost predicate SameActive(c: Core, d: Core) {
    c.active.Keys == d.active.Keys && forall fp | fp in c.active :: Durable(c.active[fp]) == Durable(d.active[fp])
  }

  lemma ActiveAfterDrop(c: Core, d: Core, fps: set<string>)
    requires SameActive(c, d)
    ensures SameActive(Dropped(c, fps), Dropped(d, fps))
  {
  }

  lemma ActiveAfterReboot(cfg: Config, c: Core, d: Core, now: Time)
    requires SameActive(c, d)
    ensures SameActive(Carried(cfg, c, now), Carried(cfg, d, now))
  {
    forall fp | fp in c.active
      ensures Admissible(cfg, Some(c.active[fp])) == Admissible(cfg, Some(d.active[fp]))
    {
      assert Durable(c.active[fp]) == Durable(d.active[fp]);
    }
  }

  lemma ActiveAfterSend(cfg: Config, c: Core, d: Core, a: Alert, now: Time)
    requires SameActive(c, d)
    ensures SameActive(Sent(cfg, c, a, now), Sent(cfg, d, a, now))
  {
    var fp := a.fingerprint;
    assert fp in c.active ==> Durable(c.active[fp]).startsAt == Durable(d.active[fp]).startsAt;
    assert Stamped(cfg, c, a, now) == Stamped(cfg, d, a, now);
  }

  lemma ActiveAfterTouch(cfg: Config, c: Core, d: Core, fp: string, now: Time)
    requires SameActive(c, d)
    ensures SameActive(Touched(cfg, c, fp, now), Touched(cfg, d, fp, now))
  {
    if fp in c.active {
      SameRenewal(c.active[fp], d.active[fp], now + cfg.resolveTTL);
    }
  }

  lemma SameRenewal(a: Alert, b: Alert, endsAt: Time)
    requires Durable(a) == Durable(b)
    ensures Durable(a.(endsAt := endsAt)) == Durable(b.(endsAt := endsAt))
  {
    assert Durable(a.(endsAt := endsAt)) == Durable(a).(endsAt := endsAt);
  }

  lemma ActiveAfterSending(cfg: Config, c: Core, d: Core, e: Event)
    requires Alike(cfg, c, d, e.now) && e.Send?
    ensures SameActive(Step(cfg, c, e), Step(cfg, d, e))
  {
    assert LiveMute(cfg, c, e.a.fingerprint, e.now) == LiveMute(cfg, d, e.a.fingerprint, e.now);
    ActiveAfterSend(cfg, c, d, e.a, e.now);
  }

  lemma ActiveAfterClosing(cfg: Config, c: Core, d: Core, e: Event)
    requires Alike(cfg, c, d, e.now) && (e.Sweep? || e.ObjectGone?)
    ensures SameActive(Step(cfg, c, e), Step(cfg, d, e))
  {
    if e.Sweep? {
      AlikeChooseAlike(cfg, c, d, e.now, "", "", "");
      ActiveAfterDrop(c, d, Expired(c, e.now));
    } else {
      AlikeChooseAlike(cfg, c, d, e.now, e.kind, e.ns, e.name);
      ActiveAfterDrop(c, d, OfObject(c, e.kind, e.ns, e.name));
    }
  }

  lemma ActiveUntouched(cfg: Config, c: Core, e: Event)
    requires e.SendEvent? || e.Seed? || e.Clean? || e.Escalate?
    ensures Step(cfg, c, e).active == c.active
  {
  }

  lemma ActiveAfterRest(cfg: Config, c: Core, d: Core, e: Event)
    requires Alike(cfg, c, d, e.now) && (e.Touch? || e.Forget? || e.Reboot?)
    ensures SameActive(Step(cfg, c, e), Step(cfg, d, e))
  {
    if e.Touch? {
      ActiveAfterTouch(cfg, c, d, e.fp, e.now);
    } else if e.Forget? {
      ActiveAfterDrop(c, d, {e.fp});
    } else {
      ActiveAfterReboot(cfg, c, d, e.now);
    }
  }

  lemma ActiveStep(cfg: Config, c: Core, d: Core, e: Event)
    requires Alike(cfg, c, d, e.now)
    ensures SameActive(Step(cfg, c, e), Step(cfg, d, e))
  {
    if e.Send? {
      ActiveAfterSending(cfg, c, d, e);
    } else if e.Sweep? || e.ObjectGone? {
      ActiveAfterClosing(cfg, c, d, e);
    } else if e.Touch? || e.Forget? || e.Reboot? {
      ActiveAfterRest(cfg, c, d, e);
    } else {
      ActiveUntouched(cfg, c, e);
      ActiveUntouched(cfg, d, e);
    }
  }

  lemma SameResolves(cfg: Config, c: Core, d: Core, e: Event)
    requires Alike(cfg, c, d, e.now) && (e.Sweep? || e.ObjectGone?)
    ensures Out(cfg, c, e) == Out(cfg, d, e)
  {
    match e {
      case Sweep(now) =>
        AlikeChooseAlike(cfg, c, d, now, "", "", "");
        SameClosings(c, d, Expired(c, now), None);
      case ObjectGone(kind, ns, name, now) =>
        AlikeChooseAlike(cfg, c, d, now, kind, ns, name);
        SameClosings(c, d, OfObject(c, kind, ns, name), Some(now));
    }
  }

  lemma SameEscalations(cfg: Config, c: Core, d: Core, e: Event)
    requires Alike(cfg, c, d, e.now) && e.Escalate?
    ensures Out(cfg, c, e) == Out(cfg, d, e)
  {
    AlikeIsSameDue(cfg, c, d, e.after, e.ruleKey, e.want, e.now);
  }

  lemma SameOutput(cfg: Config, c: Core, d: Core, e: Event)
    requires Alike(cfg, c, d, e.now)
    ensures Out(cfg, c, e) == Out(cfg, d, e)
  {
    if e.Send? || e.SendEvent? {
      assert LiveMute(cfg, c, e.a.fingerprint, e.now) == LiveMute(cfg, d, e.a.fingerprint, e.now);
    } else if e.Sweep? || e.ObjectGone? {
      SameResolves(cfg, c, d, e);
    } else if e.Escalate? {
      SameEscalations(cfg, c, d, e);
    }
  }

  lemma SameClosings(c: Core, d: Core, fps: set<string>, endsAt: Option<Time>)
    requires SameActive(c, d) && fps <= c.active.Keys
    ensures forall fp | fp in fps ::
      Durable(Closing(c.active[fp], endsAt)) == Durable(Closing(d.active[fp], endsAt))
  {
    forall fp | fp in fps
      ensures Durable(Closing(c.active[fp], endsAt)) == Durable(Closing(d.active[fp], endsAt))
    {
      assert Durable(c.active[fp]) == Durable(d.active[fp]);
    }
  }

  lemma AlikeStep(cfg: Config, c: Core, d: Core, e: Event)
    requires Alike(cfg, c, d, e.now)
    ensures Out(cfg, c, e) == Out(cfg, d, e)
    ensures Alike(cfg, Step(cfg, c, e), Step(cfg, d, e), e.now)
  {
    SameOutput(cfg, c, d, e);
    ActiveStep(cfg, c, d, e);
    forall fp
      ensures LiveMute(cfg, Step(cfg, c, e), fp, e.now) == LiveMute(cfg, Step(cfg, d, e), fp, e.now)
      ensures Marks(Step(cfg, c, e), fp) == Marks(Step(cfg, d, e), fp)
    {
      MuteStep(cfg, c, d, e, fp);
      MarksStep(cfg, c, d, e, fp);
    }
  }

  function Outputs(cfg: Config, c: Core, run: seq<Event>): seq<Output>
    decreases |run|
  {
    if run == [] then [] else [Out(cfg, c, run[0])] + Outputs(cfg, Step(cfg, c, run[0]), run[1..])
  }

  /** Stores that are alike answer every later run alike. */
  lemma {:induction false} AlikeForever(cfg: Config, c: Core, d: Core, run: seq<Event>, now: Time)
    requires Alike(cfg, c, d, now) && Ordered(run, now)
    ensures Outputs(cfg, c, run) == Outputs(cfg, d, run)
    decreases |run|
  {
    if run != [] {
      AlikeLater(cfg, c, d, now, run[0].now);
      AlikeStep(cfg, c, d, run[0]);
      AlikeForever(cfg, Step(cfg, c, run[0]), Step(cfg, d, run[0]), run[1..], run[0].now);
    }
  }

  // ---------------------------------------------------------------- cleaning is unobservable

  lemma CleanIsAlike(cfg: Config, c: Core, now: Time)
    ensures Alike(cfg, c, Cleaned(cfg, c, now), now)
  {
  }

  function WithoutCleans(run: seq<Event>): seq<Event>
    decreases |run|
  {
    if run == [] then []
    else if run[0].Clean? then WithoutCleans(run[1..])
    else [run[0]] + WithoutCleans(run[1..])
  }

  /** The outputs of the steps other than Clean. */
  function Observed(cfg: Config, c: Core, run: seq<Event>): seq<Output>
    decreases |run|
  {
    if run == [] then []
    else if run[0].Clean? then Observed(cfg, Step(cfg, c, run[0]), run[1..])
    else [Out(cfg, c, run[0])] + Observed(cfg, Step(cfg, c, run[0]), run[1..])
  }

  /** CleanOldHistory, at whatever times, never changes a later answer. */
  lemma {:induction false} CleaningIsUnobservable(cfg: Config, c: Core, d: Core, run: seq<Event>, now: Time)
    requires Alike(cfg, c, d, now) && Ordered(run, now)
    ensures Observed(cfg, c, run) == Outputs(cfg, d, WithoutCleans(run))
    decreases |run|
  {
    if run != [] {
      var e := run[0];
      AlikeLater(cfg, c, d, now, e.now);
      if e.Clean? {
        CleanIsAlike(cfg, c, e.now);
        CleaningIsUnobservable(cfg, Step(cfg, c, e), d, run[1..], e.now);
      } else {
        AlikeStep(cfg, c, d, e);
        CleaningIsUnobservable(cfg, Step(cfg, c, e), Step(cfg, d, e), run[1..], e.now);
        assert ([e] + WithoutCleans(run[1..]))[1..] == WithoutCleans(run[1..]);
      }
    }
  }

  // ---------------------------------------------------------------- restarts

  lemma {:induction false} AdmittedAt(cfg: Config, c: Core, order: seq<string>, list: seq<Option<Alert>>, now: Time, fp: string)
    requires |list| == |order| && (forall i, j | 0 <= i < j < |order| :: order[i] != order[j])
    requires forall i | 0 <= i < |order| :: order[i] in c.active && list[i] == Some(Durable(c.active[order[i]]))
    requires Tidy(c)
    ensures var active := Admitted(cfg, map[], list, now);
      && (fp in active <==> fp in order && Admissible(cfg, Some(c.active[fp])))
      && (fp in active ==> active[fp] == Revived(cfg, Durable(c.active[fp]), now))
  {
    if list != [] {
      var n := |list| - 1;
      AdmittedAt(cfg, c, order[..n], list[..n], now, fp);
      assert order == order[..n] + [order[n]];
      AdmittedAt(cfg, c, order[..n], list[..n], now, order[n]);
      assert order[n] !in order[..n];
    }
  }

  lemma ActiveAfterExport(cfg: Config, c: Core, snap: Snapshot, order: seq<string>, now: Time)
    requires Tidy(c) && Represents(snap, c, order)
    ensures Admitted(cfg, map[], snap.active, now) == Carried(cfg, c, now).active
  {
    var active, carried := Admitted(cfg, map[], snap.active, now), Carried(cfg, c, now).active;
    forall fp
      ensures fp in active <==> fp in carried
      ensures fp in active ==> active[fp] == carried[fp]
    {
      AdmittedAt(cfg, c, order, snap.active, now, fp);
    }
  }

  lemma MarksAfterExport(active: map<string, Alert>, c: Core, snap: Snapshot, order: seq<string>)
    requires Represents(snap, c, order)
    ensures RestoredMarks(active, map[], snap.escalated) == map fp | fp in c.escalated && fp in active :: c.escalated[fp]
  {
    forall fp | fp in snap.escalated
      ensures {} + Members(snap.escalated[fp]) == c.escalated[fp]
    {
    }
  }

  /** Restoring an exported snapshot into a fresh store gives the carried-over state. */
  lemma RestoreAfterExport(cfg: Config, c: Core, snap: Snapshot, order: seq<string>, now: Time)
    requires Tidy(c) && Represents(snap, c, order)
    ensures Restored(cfg, EMPTY_CORE, snap, now) == Carried(cfg, c, now)
  {
    ActiveAfterExport(cfg, c, snap, order, now);
    MarksAfterExport(Carried(cfg, c, now).active, c, snap, order);
    assert RestoredSent(map[], snap.lastSent, now) == Carried(cfg, c, now).lastSent;
  }

  /** The alerts are of kinds and severities a restore accepts. */
  predicate Known(cfg: Config, c: Core) {
    forall fp | fp in c.active :: Admissible(cfg, Some(c.active[fp]))
  }

  /** With known kinds and severities and no mute from the future, a restart is the
      identity up to dropped enrichment... */
  lemma CarriedIsAlike(cfg: Config, c: Core, now: Time)
    requires Tidy(c) && Known(cfg, c)
    requires forall fp | fp in c.lastSent :: c.lastSent[fp] <= now
    ensures Alike(cfg, c, Carried(cfg, c, now), now)
  {
  }

  /** ...so no later answer of the restored store differs from the old one's. */
  lemma RestartIsUnobservable(cfg: Config, c: Core, snap: Snapshot, order: seq<string>, now: Time, run: seq<Event>)
    requires Tidy(c) && Known(cfg, c) && Represents(snap, c, order)
    requires forall fp | fp in c.lastSent :: c.lastSent[fp] <= now
    requires Ordered(run, now)
    ensures Outputs(cfg, Restored(cfg, EMPTY_CORE, snap, now), run) == Outputs(cfg, c, run)
  {
    RestoreAfterExport(cfg, c, snap, order, now);
    CarriedIsAlike(cfg, c, now);
    AlikeForever(cfg, c, Carried(cfg, c, now), run, now);
  }

  /** Exactly the alerts with a foreign kind or severity, or no fingerprint, are lost. */
  lemma RestartLosesOnlyUnknown(cfg: Config, c: Core, now: Time)
    requires Tidy(c)
    ensures Carried(cfg, c, now).active.Keys == c.active.Keys <==> Known(cfg, c)
  {
    if Carried(cfg, c, now).active.Keys == c.active.Keys {
      forall fp | fp in c.active
        ensures Admissible(cfg, Some(c.active[fp]))
      {
        assert fp in Carried(cfg, c, now).active;
      }
    }
  }

  lemma {:induction false} AdmittedKeeps(cfg: Config, active: map<string, Alert>, list: seq<Option<Alert>>, now: Time)
    requires cfg.resolveTTL >= 0 && now > ZERO_TIME
    ensures var r := Admitted(cfg, active, list, now);
      && (forall fp | fp in active :: fp in r && r[fp] == active[fp])
      && (forall fp | fp in r && fp !in active ::
            r[fp].fingerprint == fp != "" && r[fp].endsAt != ZERO_TIME
            && r[fp].severity in {"critical", "warning", "info"} && r[fp].kind in cfg.knownKinds)
  {
    if list != [] {
      AdmittedKeeps(cfg, active, list[..|list| - 1], now);
    }
  }

  /** For any snapshot at all, Restore keeps every live entry and lets in no future
      mute, no unknown enum, no alert without a deadline and no orphaned mark. */
  lemma RestoreIsSafe(cfg: Config, c: Core, snap: Snapshot, now: Time)
    requires Tidy(c) && cfg.resolveTTL >= 0 && now > ZERO_TIME
    ensures var r := Restored(cfg, c, snap, now);
      && Tidy(r)
      && (forall fp | fp in c.active :: fp in r.active && r.active[fp] == c.active[fp])
      && (forall fp | fp in c.lastSent :: fp in r.lastSent && r.lastSent[fp] == c.lastSent[fp])
      && (forall fp | fp in r.lastSent && fp !in c.lastSent :: r.lastSent[fp] <= now)
      && (forall fp :: Marks(c, fp) <= Marks(r, fp))
      && (forall fp | fp in r.active && fp !in c.active ::
            r.active[fp].severity in {"critical", "warning", "info"} && r.active[fp].kind in cfg.knownKinds)
  {
    AdmittedKeeps(cfg, c.active, snap.active, now);
  }

  /** The fingerprints of the entries a restore accepts. */
  function Accepted(cfg: Config, list: seq<Option<Alert>>): set<string> {
    set e | e in list && Admissible(cfg, e) :: e.value.fingerprint
  }

  lemma {:induction false} AdmitsAll(cfg: Config, active: map<string, Alert>, list: seq<Option<Alert>>, now: Time)
    ensures Admitted(cfg, active, list, now).Keys == active.Keys + Accepted(cfg, list)
  {
    if list == [] {
      assert Accepted(cfg, list) == {};
    } else {
      var front, e := list[..|list| - 1], list[|list| - 1];
      AdmitsAll(cfg, active, front, now);
      assert list == front + [e];
      assert Accepted(cfg, list) == Accepted(cfg, front) + if Admissible(cfg, e) then {e.value.fingerprint} else {};
    }
  }

  /** And it leaves nothing out: a snapshot of a newer version is not touched; of any other, every
      admissible alert, every mute that is not from the future and every mark of an active
      alert is restored. */
  lemma RestoreIsComplete(cfg: Config, c: Core, snap: Snapshot, now: Time)
    ensures var r := Restored(cfg, c, snap, now);
      if snap.version > SNAPSHOT_VERSION then r == c
      else
        && r.active.Keys == c.active.Keys + Accepted(cfg, snap.active)
        && (forall fp | fp in snap.lastSent && snap.lastSent[fp] <= now :: fp in r.lastSent)
        && (forall fp, key | fp in snap.escalated && fp in r.active && key in snap.escalated[fp] :: key in Marks(r, fp))
  {
    AdmitsAll(cfg, c.active, snap.active, now);
    forall fp, key | snap.version <= SNAPSHOT_VERSION && fp in snap.escalated && fp in Restored(cfg, c, snap, now).active
        && key in snap.escalated[fp]
      ensures key in Marks(Restored(cfg, c, snap, now), fp)
    {
      assert key in Members(snap.escalated[fp]);
    }
  }

  // ---------------------------------------------------------------- generations

  /** How much each step adds to the generation counter. */
  function Bump(cfg: Config, c: Core, e: Event): nat {
    match e
    case Send(a, now) => if Muted(cfg, c, a.fingerprint, now) then 0 else 1
    case SendEvent(a, now) => if Muted(cfg, c, a.fingerprint, now) then 0 else 1
    case Seed(_, _) => 1
    case Touch(fp, _) => if fp in c.active then 1 else 0
    case Sweep(now) => |Expired(c, now)|
    case ObjectGone(kind, ns, name, _) => |OfObject(c, kind, ns, name)|
    case Clean(now) => |Stale(cfg, c, now)|
    case Forget(fp, _) => if fp in c.active || fp in c.lastSent then 1 else 0
    case Escalate(after, key, want, now) => |Due(cfg, c, after, key, want, now)|
    case Reboot(_) => 1
  }

  lemma DropsNothing(c: Core, fps: set<string>)
    requires c.escalated.Keys <= c.active.Keys
    requires fps !! c.active.Keys && fps !! c.lastSent.Keys
    ensures Dropped(c, fps) == c
  {
    assert c.active - fps == c.active && c.lastSent - fps == c.lastSent && c.escalated - fps == c.escalated;
  }

  lemma MarksNothing(c: Core, key: string)
    ensures Marked(c, {}, key) == c
  {
    assert Marked(c, {}, key).escalated == c.escalated;
  }

  lemma CleansNothing(cfg: Config, c: Core, now: Time)
    requires Stale(cfg, c, now) == {}
    ensures Cleaned(cfg, c, now) == c
  {
    assert c.lastSent - {} == c.lastSent;
  }

  /** A step that leaves the generation alone leaves everything a snapshot holds alone. */
  lemma SameGenerationSameState(cfg: Config, c: Core, e: Event)
    requires Tidy(c) && Bump(cfg, c, e) == 0
    ensures Step(cfg, c, e) == c
  {
    match e {
      case Sweep(now) => DropsNothing(c, {}); assert Expired(c, now) == {};
      case ObjectGone(kind, ns, name, _) => DropsNothing(c, {}); assert OfObject(c, kind, ns, name) == {};
      case Forget(fp, _) => DropsNothing(c, {fp});
      case Clean(now) => assert Stale(cfg, c, now) == {}; CleansNothing(cfg, c, now);
      case Escalate(after, key, want, now) => assert Due(cfg, c, after, key, want, now) == {}; MarksNothing(c, key);
      case _ =>
    }
  }

  /** And a step that changes nothing leaves the generation alone, so that no save follows. */
  lemma NoChangeNoGeneration(cfg: Config, c: Core, e: Event)
    requires Step(cfg, c, e) == c && Tidy(c)
    requires !e.Send? && !e.SendEvent? && !e.Seed? && !e.Touch? && !e.Reboot?
    ensures Bump(cfg, c, e) == 0
  {
    match e {
      case Sweep(now) => NoneDropped(c, Expired(c, now));
      case ObjectGone(kind, ns, name, _) => NoneDropped(c, OfObject(c, kind, ns, name));
      case Forget(fp, _) => assert c.active - {fp} == c.active && c.lastSent - {fp} == c.lastSent;
      case Clean(now) => NoneCleaned(c, Stale(cfg, c, now));
      case Escalate(after, key, want, now) => NoneMarked(c, Due(cfg, c, after, key, want, now), key);
      case _ =>
    }
  }

  lemma NoneDropped(c: Core, fps: set<string>)
    requires fps <= c.active.Keys && Dropped(c, fps) == c
    ensures fps == {}
  {
    assert (c.active - fps).Keys == c.active.Keys - fps;
  }

  lemma NoneCleaned(c: Core, fps: set<string>)
    requires fps <= c.lastSent.Keys && c.lastSent - fps == c.lastSent
    ensures fps == {}
  {
    assert (c.lastSent - fps).Keys == c.lastSent.Keys - fps;
  }

  lemma NoneMarked(c: Core, fps: set<string>, key: string)
    requires Marked(c, fps, key) == c && forall fp | fp in fps :: key !in Marks(c, fp)
    ensures fps == {}
  {
    assert forall fp | fp in fps :: key in Marks(Marked(c, fps, key), fp);
  }

  /** A firing or event counts as a change exactly if it is accepted. */
  lemma AcceptedSendsCount(cfg: Config, c: Core, e: Event)
    requires e.Send? || e.SendEvent?
    ensures Bump(cfg, c, e) == (if Out(cfg, c, e).accepted then 1 else 0)
  {
  }
}
