/** What the store does with an active alert (Overdue, ResolveObject and SweepResolved in
    internal/alert/store.go), told by the sends, resolves and restarts of its stay and not by
    the store's maps. */
module Stays {
  import opened Wrappers
  import opened Alerts
  import opened AlertStore
  import opened StoreRuns

  /** A fingerprint's stay in the active set: when its incident started, what was last sent
      for it, and the rule keys under which it has been handed out. */
  datatype Stay = Stay(startsAt: Time, latest: Alert, handedOut: set<string>)

  /** A stay ends with a resolve, a Forget, or a restart that does not know its kind or severity. */
  predicate Ends(cfg: Config, c: Core, e: Event, fp: string, latest: Alert) {
    || fp in Out(cfg, c, e).resolved
    || (e.Forget? && e.fp == fp)
    || (e.Reboot? && (fp == "" || !ValidSeverity(latest.severity) || latest.kind !in cfg.knownKinds))
  }

  function StayNext(cfg: Config, c: Core, e: Event, fp: string, stay: Option<Stay>): Option<Stay> {
    if e.Send? && e.a.fingerprint == fp && Out(cfg, c, e).accepted then
      Some(if stay.Some? then stay.value.(latest := e.a) else Stay(e.a.startsAt, e.a, {}))
    else if stay.None? || Ends(cfg, c, e, fp, stay.value.latest) then None
    else if e.Escalate? && fp in Out(cfg, c, e).escalated then
      Some(stay.value.(handedOut := stay.value.handedOut + {e.ruleKey}))
    else stay
  }

  function StayOf(cfg: Config, c: Core, run: seq<Event>, fp: string, stay: Option<Stay>): Option<Stay>
    decreases |run|
  {
    if run == [] then stay else StayOf(cfg, Step(cfg, c, run[0]), run[1..], fp, StayNext(cfg, c, run[0], fp, stay))
  }

  /** The store's entry is that of the stay. */
  ghost predicate Reflects(c: Core, fp: string, stay: Option<Stay>) {
    && (fp in c.active <==> stay.Some?)
    && (stay.Some? ==> EntryOf(c.active[fp], fp, stay.value) && Marks(c, fp) == stay.value.handedOut)
    && (stay.None? ==> Marks(c, fp) == {})
  }

  predicate EntryOf(a: Alert, fp: string, stay: Stay) {
    a.fingerprint == fp && a.startsAt == stay.startsAt && SameFields(a, stay.latest)
  }

  lemma ReflectsSend(cfg: Config, c: Core, e: Event, fp: string, stay: Option<Stay>)
    requires Reflects(c, fp, stay) && e.Send?
    ensures Reflects(Step(cfg, c, e), fp, StayNext(cfg, c, e, fp, stay))
  {
  }

  lemma ReflectsEnd(cfg: Config, c: Core, e: Event, fp: string, stay: Option<Stay>)
    requires Reflects(c, fp, stay) && (e.Sweep? || e.ObjectGone? || e.Forget?)
    ensures Reflects(Step(cfg, c, e), fp, StayNext(cfg, c, e, fp, stay))
  {
    ResolveEndsStay(cfg, c, e, fp);
  }

  lemma ReflectsReboot(cfg: Config, c: Core, e: Event, fp: string, stay: Option<Stay>)
    requires Reflects(c, fp, stay) && e.Reboot?
    ensures Reflects(Step(cfg, c, e), fp, StayNext(cfg, c, e, fp, stay))
  {
  }

  lemma ReflectsEscalate(cfg: Config, c: Core, e: Event, fp: string, stay: Option<Stay>)
    requires Reflects(c, fp, stay) && e.Escalate?
    ensures Reflects(Step(cfg, c, e), fp, StayNext(cfg, c, e, fp, stay))
  {
  }

  lemma ReflectsRest(cfg: Config, c: Core, e: Event, fp: string, stay: Option<Stay>)
    requires Reflects(c, fp, stay) && (e.SendEvent? || e.Seed? || e.Touch? || e.Clean?)
    ensures Reflects(Step(cfg, c, e), fp, StayNext(cfg, c, e, fp, stay))
  {
  }

  lemma ReflectsStep(cfg: Config, c: Core, e: Event, fp: string, stay: Option<Stay>)
    requires Reflects(c, fp, stay)
    ensures Reflects(Step(cfg, c, e), fp, StayNext(cfg, c, e, fp, stay))
  {
    if e.Send? {
      ReflectsSend(cfg, c, e, fp, stay);
    } else if e.Sweep? || e.ObjectGone? || e.Forget? {
      ReflectsEnd(cfg, c, e, fp, stay);
    } else if e.Reboot? {
      ReflectsReboot(cfg, c, e, fp, stay);
    } else if e.Escalate? {
      ReflectsEscalate(cfg, c, e, fp, stay);
    } else {
      ReflectsRest(cfg, c, e, fp, stay);
    }
  }

  lemma {:induction false} ReflectsAlways(cfg: Config, c: Core, run: seq<Event>, fp: string, stay: Option<Stay>)
    requires Reflects(c, fp, stay)
    ensures Reflects(After(cfg, c, run), fp, StayOf(cfg, c, run, fp, stay))
    decreases |run|
  {
    if run != [] {
      ReflectsStep(cfg, c, run[0], fp, stay);
      ReflectsAlways(cfg, Step(cfg, c, run[0]), run[1..], fp, StayNext(cfg, c, run[0], fp, stay));
    }
  }

  /** Over every run from an empty store, restarts included: an escalation rule hands an alert
      out if and only if its incident started more than the rule's delay ago, the alert last
      sent for it matches the rule, and the rule has not handed it out in this stay. */
  lemma EscalatesExactlyWhenOverdue(cfg: Config, run: seq<Event>, fp: string,
                                    after: Time, key: string, want: map<string, string>, now: Time)
    ensures var stay := StayOf(cfg, EMPTY_CORE, run, fp, None);
      fp in Out(cfg, After(cfg, EMPTY_CORE, run), Escalate(after, key, want, now)).escalated <==>
        && stay.Some? && now - stay.value.startsAt > after && key !in stay.value.handedOut
        && forall k | k in want ::
             var got := FieldValue(stay.value.latest, k);
             got == want[k] || (k in {"namespace", "reason"} && cfg.rx(got, want[k]))
  {
    ReflectsAlways(cfg, EMPTY_CORE, run, fp, None);
    var c, stay := After(cfg, EMPTY_CORE, run), StayOf(cfg, EMPTY_CORE, run, fp, None);
    if stay.Some? {
      SameFieldsMatchAlike(cfg.rx, c.active[fp], stay.value.latest, want);
    }
  }

  /** What is handed out is the alert last sent, with the start of its incident. */
  lemma EscalatesLatest(cfg: Config, run: seq<Event>, fp: string,
                        after: Time, key: string, want: map<string, string>, now: Time)
    requires fp in Out(cfg, After(cfg, EMPTY_CORE, run), Escalate(after, key, want, now)).escalated
    ensures var stay := StayOf(cfg, EMPTY_CORE, run, fp, None);
      stay.Some?
      && EntryOf(Out(cfg, After(cfg, EMPTY_CORE, run), Escalate(after, key, want, now)).escalated[fp], fp, stay.value)
  {
    ReflectsAlways(cfg, EMPTY_CORE, run, fp, None);
  }

  /** Over every run: an object delete resolves exactly the alerts last sent for that object,
      and hands out each as resolved now. */
  lemma ObjectDeleteResolvesItsAlerts(cfg: Config, run: seq<Event>, fp: string, kind: string, ns: string, name: string, now: Time)
    ensures var stay := StayOf(cfg, EMPTY_CORE, run, fp, None);
      var resolved := Out(cfg, After(cfg, EMPTY_CORE, run), ObjectGone(kind, ns, name, now)).resolved;
      && (fp in resolved <==>
            stay.Some? && stay.value.latest.kind == kind && stay.value.latest.namespace == ns && stay.value.latest.name == name)
      && (fp in resolved ==>
            resolved[fp].resolved && resolved[fp].endsAt == now && EntryOf(resolved[fp], fp, stay.value))
  {
    ReflectsAlways(cfg, EMPTY_CORE, run, fp, None);
  }

  /** A sweep hands out the alerts last sent, as resolved and with the deadline they had. */
  lemma SweepResolvesLatest(cfg: Config, run: seq<Event>, fp: string, now: Time)
    requires fp in Out(cfg, After(cfg, EMPTY_CORE, run), Sweep(now)).resolved
    ensures var stay := StayOf(cfg, EMPTY_CORE, run, fp, None);
      var closed := Out(cfg, After(cfg, EMPTY_CORE, run), Sweep(now)).resolved[fp];
      stay.Some? && closed.resolved && closed.endsAt < now && EntryOf(closed, fp, stay.value)
  {
    ReflectsAlways(cfg, EMPTY_CORE, run, fp, None);
  }
}
