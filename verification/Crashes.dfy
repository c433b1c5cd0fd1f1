/** The alert store across crashes: a process that ends without a last save comes back as
    its latest export, not as it was (internal/app/controller.go, exportState and restoreState). */
module Crashes {
  import opened Wrappers
  import opened Alerts
  import opened AlertStore
  import opened StoreRuns

  /** What a process did up to its last export, what it did after that, and when the next
      process restored the export. An orderly stop has nothing `unsaved`. */
  datatype Process = Process(saved: seq<Event>, unsaved: seq<Event>, boot: Time)

  /** The state the next process starts from. */
  function Booted(cfg: Config, c: Core, p: Process): Core {
    Carried(cfg, After(cfg, c, p.saved), p.boot)
  }

  function AfterCrashes(cfg: Config, c: Core, ps: seq<Process>): Core
    decreases |ps|
  {
    if ps == [] then c else AfterCrashes(cfg, Booted(cfg, c, ps[0]), ps[1..])
  }

  /** The run that is left when every process forgets what it did after its last export. */
  function Surviving(ps: seq<Process>): seq<Event> {
    if ps == [] then [] else ps[0].saved + ([Reboot(ps[0].boot)] + Surviving(ps[1..]))
  }

  /** Booted is what restoring the export gives. */
  lemma BootRestoresExport(cfg: Config, c: Core, p: Process, from: Time, snap: Snapshot, order: seq<string>)
    requires Tidy(c) && cfg.resolveTTL >= 0 && StoreRuns.Ordered(p.saved, from)
    requires Represents(snap, After(cfg, c, p.saved), order)
    ensures Restored(cfg, EMPTY_CORE, snap, p.boot) == Booted(cfg, c, p)
  {
    TidyAlways(cfg, c, p.saved, from);
    RestoreAfterExport(cfg, After(cfg, c, p.saved), snap, order, p.boot);
  }

  lemma {:induction false} AfterConcat(cfg: Config, c: Core, run: seq<Event>, more: seq<Event>)
    ensures After(cfg, c, run + more) == After(cfg, After(cfg, c, run), more)
    decreases |run|
  {
    if run == [] {
      assert run + more == more;
    } else {
      assert (run + more)[1..] == run[1..] + more;
      AfterConcat(cfg, Step(cfg, c, run[0]), run[1..], more);
    }
  }

  /** Any number of crashes leave the state of the run without the unsaved steps. */
  lemma {:induction false} CrashesForgetUnsaved(cfg: Config, c: Core, ps: seq<Process>)
    ensures AfterCrashes(cfg, c, ps) == After(cfg, c, Surviving(ps))
    decreases |ps|
  {
    if ps != [] {
      var p, rest := ps[0], Surviving(ps[1..]);
      CrashesForgetUnsaved(cfg, Booted(cfg, c, p), ps[1..]);
      AfterConcat(cfg, c, p.saved, [Reboot(p.boot)] + rest);
      AfterBoot(cfg, After(cfg, c, p.saved), p.boot, rest);
    }
  }

  lemma AfterBoot(cfg: Config, c: Core, boot: Time, rest: seq<Event>)
    ensures After(cfg, c, [Reboot(boot)] + rest) == After(cfg, Carried(cfg, c, boot), rest)
  {
    assert ([Reboot(boot)] + rest)[1..] == rest;
  }

  /** A send that some export has saved stays at least the mute window away from the next
      one, over any number of crashes, if nothing that survives them clears its mute. */
  lemma SavedSendsAreSpaced(cfg: Config, c: Core, e: Event, ps: seq<Process>, run: seq<Event>, again: Event)
    requires (e.Send? || e.SendEvent?) && Out(cfg, c, e).accepted
    requires (again.Send? || again.SendEvent?) && again.a.fingerprint == e.a.fingerprint
    requires StoreRuns.Ordered(Surviving(ps) + run + [again], e.now)
    requires Uncleared(cfg, Step(cfg, c, e), Surviving(ps) + run, e.a.fingerprint)
    requires Out(cfg, After(cfg, AfterCrashes(cfg, Step(cfg, c, e), ps), run), again).accepted
    ensures again.now - e.now >= cfg.muteWindow
  {
    AcceptedSendIsRemembered(cfg, c, e);
    CrashesForgetUnsaved(cfg, Step(cfg, c, e), ps);
    AfterConcat(cfg, Step(cfg, c, e), Surviving(ps), run);
    SendsAreSpaced(cfg, Step(cfg, c, e), Surviving(ps) + run, e.a.fingerprint, e.now, e.now, again);
  }

  /** And only those: a send that no export has saved is repeated after the crash, however
      soon, unless something since the export had cleared an older mute. */
  lemma UnsavedSendIsRepeated(cfg: Config, c: Core, run: seq<Event>, e: Event, from: Time, boot: Time, again: Event)
    requires (e.Send? || e.SendEvent?) && (again.Send? || again.SendEvent?) && again.a.fingerprint == e.a.fingerprint
    requires StoreRuns.Ordered(run + [e], from) && e.now <= again.now
    requires forall fp | fp in c.lastSent :: c.lastSent[fp] <= from
    requires Uncleared(cfg, c, run, e.a.fingerprint) && Out(cfg, After(cfg, c, run), e).accepted
    ensures Out(cfg, Booted(cfg, c, Process([], run + [e], boot)), again).accepted
  {
    var fp := e.a.fingerprint;
    if fp in c.lastSent {
      SendsAreSpaced(cfg, c, run, fp, c.lastSent[fp], from, e);
    }
  }

  /** An escalation that some export has saved is not repeated within the stay that
      survives the crashes. */
  lemma SavedEscalationIsOnce(cfg: Config, c: Core, e: Event, ps: seq<Process>, run: seq<Event>, fp: string)
    requires e.Escalate? && fp in Out(cfg, c, e).escalated
    requires Stays(cfg, c, [e] + (Surviving(ps) + run), fp)
    ensures !EscalatesIn(cfg, AfterCrashes(cfg, Step(cfg, c, e), ps), run, fp, e.ruleKey)
  {
    var later := Surviving(ps) + run;
    EscalatesAtMostOnce(cfg, c, e, later, fp);
    CrashesForgetUnsaved(cfg, Step(cfg, c, e), ps);
    EscalatesLater(cfg, Step(cfg, c, e), Surviving(ps), run, fp, e.ruleKey);
  }

  lemma {:induction false} EscalatesLater(cfg: Config, c: Core, run: seq<Event>, more: seq<Event>, fp: string, key: string)
    ensures EscalatesIn(cfg, After(cfg, c, run), more, fp, key) ==> EscalatesIn(cfg, c, run + more, fp, key)
    decreases |run|
  {
    if run == [] {
      assert run + more == more;
    } else {
      assert (run + more)[0] == run[0] && (run + more)[1..] == run[1..] + more;
      EscalatesLater(cfg, Step(cfg, c, run[0]), run[1..], more, fp, key);
    }
  }
}
