/** The sweep loop's state saves (internal/app/sweeper.go): generations are read
    first, the three parts of the state exported afterwards, and any of them may be
    changed by other goroutines at every point in between. */
module Saving {
  import opened Wrappers
  import opened Alerts
  import opened Dispatcher
  import opened AlertStore
  import Runs = StoreRuns

  /** One part of the state with its generation counter, what the save loop has read
      and copied of it in this tick, and what its saves have left behind. */
  datatype Part<V> = Part(gen: nat, view: V, read: nat, copy: Option<V>, savedGen: nat, stored: Option<V>)

  /** A runtime silence. */
  datatype Silence = Silence(matchers: map<string, string>, until: Time, comment: string)

  /** `pc` counts the sweeper's steps within one tick: three generation reads, the
      comparison, three exports, the save. */
  datatype Sys = Sys(alerts: Part<Core>, silences: Part<map<string, Silence>>, outbox: Part<map<nat, Delivery>>, pc: nat)

  datatype Step =
    | AlertStep(e: Runs.Event)
    | AddSilence(id: string, s: Silence)
    | DeleteSilence(id: string)
    | PruneSilences(now: Time)
    | ReplaceSilences(items: map<string, Silence>)
    | RecordDelivery(r: Delivery)
    | FinishDelivery(done: nat)
    | ReadAlertGen
    | ReadSilenceGen
    | ReadOutboxGen
    | Compare
    | ExportAlerts
    | ExportSilences
    | ExportOutbox
    | SaveSucceeds
    | SaveFails(written: bool)

  function Start(c: Core): Sys {
    Sys(Part(0, c, 0, None, 0, None), Part(0, map[], 0, None, 0, None), Part(0, map[], 0, None, 0, None), 0)
  }

  function Changed<V>(p: Part<V>, bump: nat, view: V): Part<V> {
    p.(gen := p.gen + bump, view := view)
  }

  function Read<V>(p: Part<V>): Part<V> {
    p.(read := p.gen, copy := None)
  }

  function Exported<V>(p: Part<V>): Part<V> {
    p.(copy := Some(p.view))
  }

  function Saved<V>(p: Part<V>): Part<V> {
    p.(savedGen := p.read, stored := p.copy)
  }

  function Written<V>(p: Part<V>): Part<V> {
    p.(stored := p.copy)
  }

  predicate Unchanged(s: Sys) {
    s.alerts.read == s.alerts.savedGen && s.silences.read == s.silences.savedGen && s.outbox.read == s.outbox.savedGen
  }

  function Elapsed(silences: map<string, Silence>, now: Time): set<string> {
    set id | id in silences && now >= silences[id].until
  }

  predicate Enabled(s: Sys, l: Step) {
    match l
    case AlertStep(e) => e.now > ZERO_TIME && !e.Reboot?
    case ReadAlertGen => s.pc == 0
    case ReadSilenceGen => s.pc == 1
    case ReadOutboxGen => s.pc == 2
    case Compare => s.pc == 3
    case ExportAlerts => s.pc == 4
    case ExportSilences => s.pc == 5
    case ExportOutbox => s.pc == 6
    case SaveSucceeds => s.pc == 7
    case SaveFails(_) => s.pc == 7
    case _ => true
  }

  /** A save that reports an error may still have reached the ConfigMap. */
  function Next(cfg: Config, s: Sys, l: Step): Sys {
    match l
    case AlertStep(e) =>
      s.(alerts := Changed(s.alerts, Runs.Bump(cfg, s.alerts.view, e), Runs.Step(cfg, s.alerts.view, e)))
    case AddSilence(id, x) => s.(silences := Changed(s.silences, 1, s.silences.view[id := x]))
    case DeleteSilence(id) =>
      s.(silences := Changed(s.silences, if id in s.silences.view then 1 else 0, s.silences.view - {id}))
    case PruneSilences(now) =>
      var gone := Elapsed(s.silences.view, now);
      s.(silences := Changed(s.silences, if gone != {} then 1 else 0, s.silences.view - gone))
    case ReplaceSilences(items) => s.(silences := Changed(s.silences, 1, items))
    case RecordDelivery(r) => s.(outbox := Changed(s.outbox, 1, s.outbox.view[r.id := r]))
    case FinishDelivery(id) =>
      s.(outbox := Changed(s.outbox, if id in s.outbox.view then 1 else 0, s.outbox.view - {id}))
    case ReadAlertGen => s.(alerts := Read(s.alerts), pc := 1)
    case ReadSilenceGen => s.(silences := Read(s.silences), pc := 2)
    case ReadOutboxGen => s.(outbox := Read(s.outbox), pc := 3)
    case Compare => s.(pc := if Unchanged(s) then 0 else 4)
    case ExportAlerts => s.(alerts := Exported(s.alerts), pc := 5)
    case ExportSilences => s.(silences := Exported(s.silences), pc := 6)
    case ExportOutbox => s.(outbox := Exported(s.outbox), pc := 7)
    case SaveSucceeds => Sys(Saved(s.alerts), Saved(s.silences), Saved(s.outbox), 0)
    case SaveFails(written) =>
      if written then Sys(Written(s.alerts), Written(s.silences), Written(s.outbox), 0) else s.(pc := 0)
  }

  // ---------------------------------------------------------------- invariant

  /** Generations only grow, and a copy or a save made at the current generation is
      the current content. */
  ghost predicate Ok<V>(p: Part<V>) {
    && p.savedGen <= p.read <= p.gen
    && (p.copy.Some? && p.read == p.gen ==> p.copy == Some(p.view))
    && (p.stored.Some? && p.savedGen == p.gen ==> p.stored == Some(p.view))
  }

  ghost predicate Inv(s: Sys) {
    && Ok(s.alerts) && Ok(s.silences) && Ok(s.outbox) && Tidy(s.alerts.view)
    && (s.pc >= 5 ==> s.alerts.copy.Some?) && (s.pc >= 6 ==> s.silences.copy.Some?) && (s.pc >= 7 ==> s.outbox.copy.Some?)
  }

  lemma ChangeKeepsOk<V>(p: Part<V>, bump: nat, view: V)
    requires Ok(p) && (bump == 0 ==> view == p.view)
    ensures Ok(Changed(p, bump, view))
  {
  }

  lemma SilenceStepKeepsOk(cfg: Config, s: Sys, l: Step)
    requires Ok(s.silences) && (l.AddSilence? || l.DeleteSilence? || l.PruneSilences? || l.ReplaceSilences?)
    ensures Ok(Next(cfg, s, l).silences)
  {
    match l {
      case DeleteSilence(id) => assert id !in s.silences.view ==> s.silences.view - {id} == s.silences.view;
      case PruneSilences(now) => assert s.silences.view - {} == s.silences.view;
      case _ =>
    }
  }

  lemma InvStep(cfg: Config, s: Sys, l: Step)
    requires Inv(s) && Enabled(s, l) && cfg.resolveTTL >= 0
    ensures Inv(Next(cfg, s, l))
  {
    match l {
      case AlertStep(e) =>
        Runs.TidyStep(cfg, s.alerts.view, e);
        if Runs.Bump(cfg, s.alerts.view, e) == 0 { Runs.SameGenerationSameState(cfg, s.alerts.view, e); }
        ChangeKeepsOk(s.alerts, Runs.Bump(cfg, s.alerts.view, e), Runs.Step(cfg, s.alerts.view, e));
      case AddSilence(_, _) => SilenceStepKeepsOk(cfg, s, l);
      case DeleteSilence(_) => SilenceStepKeepsOk(cfg, s, l);
      case PruneSilences(_) => SilenceStepKeepsOk(cfg, s, l);
      case ReplaceSilences(_) => SilenceStepKeepsOk(cfg, s, l);
      case FinishDelivery(id) => assert id !in s.outbox.view ==> s.outbox.view - {id} == s.outbox.view;
      case _ =>
    }
  }

  predicate IsRun(cfg: Config, s: Sys, run: seq<Step>)
    decreases |run|
  {
    run == [] || (Enabled(s, run[0]) && IsRun(cfg, Next(cfg, s, run[0]), run[1..]))
  }

  function After(cfg: Config, s: Sys, run: seq<Step>): Sys
    decreases |run|
  {
    if run == [] then s else After(cfg, Next(cfg, s, run[0]), run[1..])
  }

  lemma {:induction false} InvAlways(cfg: Config, s: Sys, run: seq<Step>)
    requires Inv(s) && IsRun(cfg, s, run) && cfg.resolveTTL >= 0
    ensures Inv(After(cfg, s, run))
    decreases |run|
  {
    if run != [] {
      InvStep(cfg, s, run[0]);
      InvAlways(cfg, Next(cfg, s, run[0]), run[1..]);
    }
  }

  ghost predicate Current(s: Sys) {
    && s.alerts.stored == Some(s.alerts.view)
    && s.silences.stored == Some(s.silences.view)
    && s.outbox.stored == Some(s.outbox.view)
  }

  /** Skipping a save is sound: once something has been saved, equal generations mean
      that the saved snapshot is what exporting now would give, for every mutation
      that raced the reads, the exports or the save. */
  lemma EqualGenerationsMeanSaved(cfg: Config, c: Core, run: seq<Step>)
    requires Tidy(c) && cfg.resolveTTL >= 0 && IsRun(cfg, Start(c), run)
    ensures var s := After(cfg, Start(c), run);
      s.alerts.stored.Some? && s.silences.stored.Some? && s.outbox.stored.Some?
      && s.alerts.gen == s.alerts.savedGen && s.silences.gen == s.silences.savedGen && s.outbox.gen == s.outbox.savedGen
      ==> Current(s)
  {
    InvAlways(cfg, Start(c), run);
  }

  /** In particular a tick that skips, undisturbed since its reads, skips nothing new. */
  lemma SkippedSaveLosesNothing(cfg: Config, c: Core, run: seq<Step>)
    requires Tidy(c) && cfg.resolveTTL >= 0 && IsRun(cfg, Start(c), run)
    requires var s := After(cfg, Start(c), run);
      s.pc == 3 && s.alerts.stored.Some? && s.silences.stored.Some? && s.outbox.stored.Some?
      && s.alerts.read == s.alerts.gen && s.silences.read == s.silences.gen && s.outbox.read == s.outbox.gen
    ensures var s := After(cfg, Start(c), run);
      Next(cfg, s, Compare).pc == 0 ==> Current(s)
  {
    InvAlways(cfg, Start(c), run);
  }

  /** Pruning keeps exactly the silences whose time has not passed, and counts as a change only
      if it drops one. */
  lemma PruningKeepsLive(cfg: Config, s: Sys, now: Time)
    ensures var t := Next(cfg, s, PruneSilences(now));
      && t.silences.view == (map id | id in s.silences.view && now < s.silences.view[id].until :: s.silences.view[id])
      && (t.silences.gen == s.silences.gen <==> forall id | id in s.silences.view :: now < s.silences.view[id].until)
  {
    if forall id | id in s.silences.view :: now < s.silences.view[id].until {
      assert Elapsed(s.silences.view, now) == {};
    } else {
      var id :| id in s.silences.view && now >= s.silences.view[id].until;
      assert id in Elapsed(s.silences.view, now);
    }
  }

  // ---------------------------------------------------------------- changes are saved

  predicate Differs(s: Sys) {
    s.alerts.gen != s.alerts.savedGen || s.silences.gen != s.silences.savedGen || s.outbox.gen != s.outbox.savedGen
  }

  const SAVE := [ExportAlerts] + ([ExportSilences] + ([ExportOutbox] + ([SaveSucceeds] + [])))

  /** One tick with no other step in between. */
  function Tick(s: Sys): seq<Step> {
    [ReadAlertGen] + ([ReadSilenceGen] + ([ReadOutboxGen] + ([Compare] + if Differs(s) then SAVE else [])))
  }

  lemma RunStep(cfg: Config, s: Sys, l: Step, rest: seq<Step>)
    requires Enabled(s, l) && IsRun(cfg, Next(cfg, s, l), rest)
    ensures IsRun(cfg, s, [l] + rest) && After(cfg, s, [l] + rest) == After(cfg, Next(cfg, s, l), rest)
  {
    assert ([l] + rest)[1..] == rest;
  }

  /** Exporting and saving everything leaves nothing unsaved. */
  lemma SavesAll(cfg: Config, s: Sys)
    requires s.pc == 4 && s.alerts.read == s.alerts.gen && s.silences.read == s.silences.gen && s.outbox.read == s.outbox.gen
    ensures IsRun(cfg, s, SAVE)
    ensures var t := After(cfg, s, SAVE); t.pc == 0 && Current(t) && !Differs(t)
    ensures var t := After(cfg, s, SAVE);
      t.alerts.view == s.alerts.view && t.silences.view == s.silences.view && t.outbox.view == s.outbox.view
  {
    var s1 := Next(cfg, s, ExportAlerts);
    var s2 := Next(cfg, s1, ExportSilences);
    var s3 := Next(cfg, s2, ExportOutbox);
    RunStep(cfg, s3, SaveSucceeds, []);
    RunStep(cfg, s2, ExportOutbox, [SaveSucceeds] + []);
    RunStep(cfg, s1, ExportSilences, [ExportOutbox] + ([SaveSucceeds] + []));
    RunStep(cfg, s, ExportAlerts, [ExportSilences] + ([ExportOutbox] + ([SaveSucceeds] + [])));
  }

  /** A tick that nothing disturbs saves if and only if some generation has changed since the
      last save; then what is stored is current. */
  lemma UndisturbedTickSaves(cfg: Config, s: Sys)
    requires s.pc == 0
    ensures IsRun(cfg, s, Tick(s))
    ensures var t := After(cfg, s, Tick(s));
      && t.pc == 0 && !Differs(t) && (Differs(s) ==> Current(t))
      && t.alerts.view == s.alerts.view && t.silences.view == s.silences.view && t.outbox.view == s.outbox.view
      && (!Differs(s) ==>
            t.alerts.stored == s.alerts.stored && t.silences.stored == s.silences.stored && t.outbox.stored == s.outbox.stored)
  {
    var s1 := Next(cfg, s, ReadAlertGen);
    var s2 := Next(cfg, s1, ReadSilenceGen);
    var s3 := Next(cfg, s2, ReadOutboxGen);
    var s4 := Next(cfg, s3, Compare);
    var rest := if Differs(s) then SAVE else [];
    if Differs(s) {
      SavesAll(cfg, s4);
    }
    RunStep(cfg, s3, Compare, rest);
    RunStep(cfg, s2, ReadOutboxGen, [Compare] + rest);
    RunStep(cfg, s1, ReadSilenceGen, [ReadOutboxGen] + ([Compare] + rest));
    RunStep(cfg, s, ReadAlertGen, [ReadSilenceGen] + ([ReadOutboxGen] + ([Compare] + rest)));
  }
}
