/** What becomes of deliveries that boot replays from the outbox, compared with their first
    life (ReplayPending in internal/app/dispatcher_outbox.go, settle in dispatcher.go). */
module Replays {
  import opened Wrappers
  import opened Alerts
  import opened AlertStore
  import opened Dispatcher
  import opened DurableOutbox
  import opened Rollback
  import Incidents
  import Pipeline
  import Runs = StoreRuns
  import Sinks

  const GROUPED := "alertkube-grouped"

  predicate IsSummary(a: Alert) {
    GROUPED in a.labels && a.labels[GROUPED] == "true"
  }

  /** A worker's turn on a job that is refused: sending, then what settle leaves. */
  ghost predicate Refuses(s: State, i: nat, j: Job) {
    Enabled(s, Finish(i, false)) && s.lanes[i].worker == Sending(j)
  }

  /** Replay makes one job of each owned record, with its alert and sinks, untried. */
  lemma ReplayedFromRecord(sorted: seq<Delivery>, owns: Alert -> bool, from: nat, j: Job)
    requires j in Requeued(sorted, owns, from)
    ensures j.retries == 0 && exists r :: r in sorted && WellFormed(r) && r.alert == Some(j.alert) && r.route == j.route
                                         && owns(j.alert)
  {
    RequeuedFollowsPlan(sorted, owns, from);
    var k :| 0 <= k < |Requeued(sorted, owns, from)| && Requeued(sorted, owns, from)[k] == j;
    var r := Keep(sorted, owns)[k];
    KeptIsThere(sorted, owns, r);
    assert Replayable(r, owns);
  }

  /** A replayed delivery that every sink refuses: a resolve waits for its retry until it has
      used all of them; events, group summaries and alerts without fingerprint are given up;
      and any other firing is rolled back. */
  lemma RefusedReplay(s: State, i: nat, j: Job, retries: nat, sorted: seq<Delivery>, owns: Alert -> bool, from: nat)
    requires j in Requeued(sorted, owns, from) && Refuses(s, i, j.(retries := retries))
    ensures var x, s' := j.(retries := retries), Next(s, Finish(i, false));
      && (j.alert.resolved && retries < MAX_RESOLVE_RETRIES <==> s'.lanes[i].worker == Idle)
      && (j.alert.resolved && retries < MAX_RESOLVE_RETRIES ==>
            s'.flight.timers == s.flight.timers + multiset{j.(retries := retries + 1)} && s'.outbox == s.outbox)
      && (s'.lanes[i].worker == Settling(x, RolledBack) <==>
            !j.alert.resolved && !j.alert.event && j.alert.fingerprint != "" && !IsSummary(j.alert))
      && (s'.lanes[i].worker == Settling(x, DeadLettered) <==>
            if j.alert.resolved then retries >= MAX_RESOLVE_RETRIES
            else j.alert.event || j.alert.fingerprint == "" || IsSummary(j.alert))
  {
    RequeuedFollowsPlan(sorted, owns, from);
    var k :| 0 <= k < |Requeued(sorted, owns, from)| && Requeued(sorted, owns, from)[k] == j;
    assert j == Replayed(Keep(sorted, owns)[k], from + 1 + k);
  }

  /** A firing that was sent and saved, and replayed after a restart, is no less durable than
      a fresh one: when every sink refuses the replayed delivery, it is rolled back, its
      fingerprint is forgotten, and its next firing is sent. The exceptions are firings that
      look like events or summaries, or have no fingerprint. */
  lemma RefusedReplayIsSentAgain(p: Pipeline.Setup, c: Core, fire: Pipeline.Act, born: State,
                                 sorted: seq<Delivery>, owns: Alert -> bool, from: nat, j: Job, s: State, i: nat,
                                 at: Core, settled: Time, acts: seq<Pipeline.Act>, again: Pipeline.Act)
    requires Incidents.Possible(p, fire) && Pipeline.FireQueues(p, c, fire).Some?
    requires var q := Pipeline.FireQueues(p, c, fire).value;
      && Enabled(born, Enqueue(q.a, q.route, q.rollback))
      && Some(j.alert) == Record(Minted(born, q.a, q.route, q.rollback)).alert
    requires j in Requeued(sorted, owns, from) && Refuses(s, i, j)
    requires Incidents.IsRun(p, acts, settled) && NoneOf(acts, fire.b.fingerprint)
    requires again.Fire? && again.b.fingerprint == fire.b.fingerprint
    ensures Next(s, Finish(i, false)).lanes[i].worker == Settling(j, RolledBack)
       <==> !fire.b.event && fire.b.fingerprint != "" && !IsSummary(fire.b)
    ensures SettleEvent(j, Some(RolledBack), settled) == Some(Runs.Forget(fire.b.fingerprint, settled))
    ensures SentAgain(p, Incidents.AfterActs(p, AfterSettle(p.store, at, j, Some(RolledBack), settled), acts), again)
  {
    ReplayedFromRecord(sorted, owns, from, j);
    RefusedReplay(s, i, j, 0, sorted, owns, from);
    ForgottenIsSentAgain(p, at, j, settled, acts, again);
  }

  // ---------------------------------------------------------------- replay against the first life

  predicate SameFate(v: Worker, w: Worker) {
    (v.Idle? && w.Idle?) || (v.Settling? && w.Settling? && v.outcome == w.outcome)
  }

  /** Being refused means the same in the first life of a delivery and after its replay if and
      only if it was queued with rollback exactly when it is a firing proper. */
  lemma ReplayAgrees(born: State, a: Alert, route: seq<string>, rollback: bool, s: State, i: nat,
                     sorted: seq<Delivery>, owns: Alert -> bool, from: nat, j: Job, t: State, k: nat)
    requires Enabled(born, Enqueue(a, route, rollback)) && Refuses(s, i, Minted(born, a, route, rollback))
    requires Some(j.alert) == Record(Minted(born, a, route, rollback)).alert && (a.resolved ==> !rollback)
    requires j in Requeued(sorted, owns, from) && Refuses(t, k, j)
    ensures SameFate(Next(s, Finish(i, false)).lanes[i].worker, Next(t, Finish(k, false)).lanes[k].worker)
       <==> (rollback <==> !a.resolved && !a.event && a.fingerprint != "" && !IsSummary(a))
  {
    ReplayedFromRecord(sorted, owns, from, j);
    RefusedReplay(t, k, j, 0, sorted, owns, from);
  }

  /** An overdue alert's copy is sent once: refused in its first life, it is given up. Replayed,
      it counts as a firing, and being refused makes the store forget the alert, whose
      incident then ends with no resolve. */
  lemma ReplayedEscalationForgets(cfg: Config, c: Core, fp: string, prefix: string, sinks: seq<string>, born: State, i: nat, s: State,
                                  sorted: seq<Delivery>, owns: Alert -> bool, from: nat, j: Job, t: State, k: nat, now: Time)
    requires fp in c.active && c.active[fp].fingerprint == fp != ""
    requires !c.active[fp].resolved && !c.active[fp].event && !IsSummary(c.active[fp])
    requires var a := Pipeline.Escalated(c.active[fp], prefix);
      && Enabled(born, Enqueue(a, sinks, false)) && Refuses(s, i, Minted(born, a, sinks, false))
      && Some(j.alert) == Record(Minted(born, a, sinks, false)).alert
    requires j in Requeued(sorted, owns, from) && Refuses(t, k, j)
    ensures Next(s, Finish(i, false)).lanes[i].worker.outcome == DeadLettered
    ensures Next(t, Finish(k, false)).lanes[k].worker.outcome == RolledBack
    ensures fp !in AfterSettle(cfg, c, j, Some(RolledBack), now).active
  {
    ReplayedFromRecord(sorted, owns, from, j);
    RefusedReplay(t, k, j, 0, sorted, owns, from);
  }
}
