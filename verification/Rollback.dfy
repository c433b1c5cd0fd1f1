/** From a refused firing back to the store: the worker's fan-out, settle, and the rollback
    that lets the next firing through (the worker loop and settle in
    internal/app/dispatcher.go, with the onFail callback of event_emitter.go). */
module Rollback {
  import opened Wrappers
  import opened Alerts
  import opened AlertStore
  import opened Dispatcher
  import opened DurableOutbox
  import opened Sinks
  import Incidents
  import Pipeline
  import Pool
  import Runs = StoreRuns

  /** What settling a job does to the alert store: a firing that failed is forgotten. */
  function SettleEvent(j: Job, outcome: Option<Outcome>, now: Time): Option<Runs.Event> {
    if outcome == Some(RolledBack) then Some(Runs.Forget(j.alert.fingerprint, now)) else None
  }

  function AfterSettle(cfg: Config, c: Core, j: Job, outcome: Option<Outcome>, now: Time): Core {
    var e := SettleEvent(j, outcome, now);
    if e.Some? then Runs.Step(cfg, c, e.value) else c
  }

  /** settle with its callback: a firing that is to be rolled back is forgotten. */
  method Settle(q: Pool.Queue, outbox: OutboxStore, store: Store, ok: bool, ghost now: Time)
    returns (retry: Option<Job>, outcome: Option<Outcome>)
    requires q.worker.Sending? && outbox.Valid()
    modifies q, outbox, store
    ensures var j := old(q.worker).job;
      && (outcome == Some(RolledBack) <==> !ok && j.rollback)
      && (retry.Some? <==> WillRetry(j, ok))
      && store.View() == AfterSettle(store.cfg, old(store.View()), j, outcome, now)
      && outbox.pending == (if retry.Some? then old(outbox.pending) else old(outbox.pending) - {j.id})
    ensures outbox.Valid() && q.worker.Idle?
  {
    var j := q.worker.job;
    retry, outcome := q.Settle(ok, outbox);
    if outcome == Some(RolledBack) {
      store.Forget(j.alert.fingerprint);
    }
  }

  /** One turn of the worker loop, from the job it has received: fan out and settle. */
  method Work(q: Pool.Queue, reg: Registry, outbox: OutboxStore, store: Store,
              asked: Time, answer: nat -> Answer, done: nat -> Time, ghost now: Time)
    returns (ok: bool, attempted: set<nat>, retry: Option<Job>, outcome: Option<Outcome>)
    requires q.worker.Sending? && reg.Valid() && outbox.Valid()
    modifies q, outbox, store, reg.breakers.Values
    ensures var j := old(q.worker).job;
      && (!ok <==> Refused(reg.sinks, j.alert, j.route, attempted, answer))
      && (outcome == Some(RolledBack) <==> !ok && j.rollback)
      && (retry.Some? <==> WillRetry(j, ok))
      && store.View() == AfterSettle(store.cfg, old(store.View()), j, outcome, now)
      && outbox.pending == (if retry.Some? then old(outbox.pending) else old(outbox.pending) - {j.id})
    ensures outbox.Valid() && q.worker.Idle?
  {
    ok, attempted := reg.Dispatch(q.worker.job.alert, q.worker.job.route, asked, answer, done);
    retry, outcome := Settle(q, outbox, store, ok, now);
  }

  // ---------------------------------------------------------------- the next firing

  /** The acts fire no alert of this fingerprint and seed no mute for it. */
  predicate NoneOf(acts: seq<Pipeline.Act>, fp: string) {
    forall act | act in acts && (act.Fire? || act.Deliver? || act.Point? || act.Grace?) :: act.b.fingerprint != fp
  }

  lemma UnmutedStep(p: Pipeline.Setup, c: Core, act: Pipeline.Act, fp: string)
    requires Incidents.Possible(p, act) && NoneOf([act], fp) && fp !in c.lastSent
    ensures fp !in Pipeline.NextCore(p, c, act).lastSent
  {
    assert act in [act];
  }

  lemma {:induction false} StaysUnmuted(p: Pipeline.Setup, c: Core, acts: seq<Pipeline.Act>, fp: string, from: Time)
    requires Incidents.IsRun(p, acts, from) && NoneOf(acts, fp) && fp !in c.lastSent
    ensures fp !in Incidents.AfterActs(p, c, acts).lastSent
    decreases |acts|
  {
    if acts != [] {
      assert acts[0] in acts && forall act | act in acts[1..] :: act in acts;
      UnmutedStep(p, c, acts[0], fp);
      StaysUnmuted(p, Pipeline.NextCore(p, c, acts[0]), acts[1..], fp, Incidents.EndOf(acts[0]));
    }
  }

  /** Once a fingerprint has been forgotten, its next firing is sent unless it is suppressed
      or folded into a summary, whatever happens in between. */
  lemma ForgottenIsSentAgain(p: Pipeline.Setup, at: Core, j: Job, settled: Time, acts: seq<Pipeline.Act>, again: Pipeline.Act)
    requires Incidents.IsRun(p, acts, settled) && NoneOf(acts, j.alert.fingerprint)
    requires again.Fire? && again.b.fingerprint == j.alert.fingerprint
    ensures SentAgain(p, Incidents.AfterActs(p, AfterSettle(p.store, at, j, Some(RolledBack), settled), acts), again)
  {
    StaysUnmuted(p, AfterSettle(p.store, at, j, Some(RolledBack), settled), acts, j.alert.fingerprint, settled);
  }

  predicate SentAgain(p: Pipeline.Setup, d: Core, again: Pipeline.Act)
    requires again.Fire?
  {
    && (Incidents.Accepts(p, d, again) <==>
          Pipeline.Routed(p, again.b, again.suppressed) && !Pipeline.Folds(p, again.b, again.absorbed))
    && (Incidents.Accepts(p, d, again) ==>
          Pipeline.StoreEvent(p, d, again) == Some(Runs.Send(again.b, again.later))
          && Runs.Out(p.store, d, Runs.Send(again.b, again.later)).accepted)
  }

  /** A firing that was sent, queued, taken by a worker and refused by every sink that was
      to get it is rolled back: settle decides RolledBack, which makes the store forget its
      fingerprint, whatever has happened to the store meanwhile. From then on, whatever else
      happens, its next firing is sent unless it is suppressed or folded into a summary:
      the mute of the refused one is gone. */
  lemma RefusedFiringIsSentAgain(p: Pipeline.Setup, c: Core, fire: Pipeline.Act,
                                 born: State, s: State, i: nat,
                                 sinks: map<string, Sink>, attempted: set<nat>, answer: nat -> Answer,
                                 at: Core, settled: Time, acts: seq<Pipeline.Act>, again: Pipeline.Act)
    requires Pipeline.FireQueues(p, c, fire).Some?
    requires var q := Pipeline.FireQueues(p, c, fire).value;
      && Enabled(born, Enqueue(q.a, q.route, q.rollback)) && Enabled(s, Take(i))
      && s.lanes[i].queue[0] == Minted(born, q.a, q.route, q.rollback)
      && Refused(sinks, q.a, q.route, attempted, answer)
    requires Incidents.IsRun(p, acts, settled) && NoneOf(acts, fire.b.fingerprint)
    requires again.Fire? && again.b.fingerprint == fire.b.fingerprint
    ensures var j, sending := s.lanes[i].queue[0], Next(s, Take(i));
      var verdict := !Refused(sinks, j.alert, j.route, attempted, answer);
      && Enabled(sending, Finish(i, verdict)) && sending.lanes[i].worker == Sending(j)
      && Next(sending, Finish(i, verdict)).lanes[i].worker == Settling(j, RolledBack)
      && SettleEvent(j, Some(RolledBack), settled) == Some(Runs.Forget(fire.b.fingerprint, settled))
      && SentAgain(p, Incidents.AfterActs(p, AfterSettle(p.store, at, j, Some(RolledBack), settled), acts), again)
  {
    var j := s.lanes[i].queue[0];
    assert j.alert.fingerprint == fire.b.fingerprint && j.rollback;
    ForgottenIsSentAgain(p, at, j, settled, acts, again);
  }
}
