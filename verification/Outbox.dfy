/** The durable outbox of internal/app/dispatcher_outbox.go, as the object whose
    methods the dispatcher calls, and the replay of a restored snapshot. */
module DurableOutbox {
  import opened Wrappers
  import opened Alerts
  import opened Dispatcher

  // ---------------------------------------------------------------- stable sort by delivery id

  /** Insert r behind every record whose id is not larger. */
  function InsertById(r: Delivery, sorted: seq<Delivery>): seq<Delivery> {
    if sorted == [] || r.id < sorted[0].id then [r] + sorted
    else [sorted[0]] + InsertById(r, sorted[1..])
  }

  /** The outcome of slices.SortStableFunc by id. */
  function SortById(recs: seq<Delivery>): seq<Delivery> {
    if recs == [] then [] else InsertById(recs[|recs| - 1], SortById(recs[..|recs| - 1]))
  }

  predicate Ascending(recs: seq<Delivery>) {
    forall i, j | 0 <= i < j < |recs| :: recs[i].id <= recs[j].id
  }

  predicate StrictlyAscending(recs: seq<Delivery>) {
    forall i, j | 0 <= i < j < |recs| :: recs[i].id < recs[j].id
  }

  function WithId(recs: seq<Delivery>, id: nat): seq<Delivery> {
    if recs == [] then []
    else (if recs[0].id == id then [recs[0]] else []) + WithId(recs[1..], id)
  }

  lemma {:induction false} InsertByIdCounts(r: Delivery, sorted: seq<Delivery>)
    ensures multiset(InsertById(r, sorted)) == multiset(sorted) + multiset{r}
  {
    if sorted != [] && sorted[0].id <= r.id {
      InsertByIdCounts(r, sorted[1..]);
      assert sorted == [sorted[0]] + sorted[1..];
    }
  }

  lemma {:induction false} InsertByIdSorts(r: Delivery, sorted: seq<Delivery>)
    requires Ascending(sorted)
    ensures Ascending(InsertById(r, sorted))
    ensures forall k | 0 <= k < |InsertById(r, sorted)| ::
      InsertById(r, sorted)[k].id >= (if sorted == [] || r.id < sorted[0].id then r.id else sorted[0].id)
  {
    if sorted != [] && sorted[0].id <= r.id {
      InsertByIdSorts(r, sorted[1..]);
    }
  }

  lemma {:induction false} InsertByIdIsStable(r: Delivery, sorted: seq<Delivery>, id: nat)
    requires Ascending(sorted)
    ensures WithId(InsertById(r, sorted), id) == WithId(sorted, id) + (if r.id == id then [r] else [])
  {
    if sorted == [] || r.id < sorted[0].id {
      assert ([r] + sorted)[1..] == sorted;
      if r.id == id { LargerIdsHold(sorted, id); }
    } else {
      InsertByIdIsStable(r, sorted[1..], id);
      assert ([sorted[0]] + InsertById(r, sorted[1..]))[1..] == InsertById(r, sorted[1..]);
    }
  }

  lemma {:induction false} LargerIdsHold(recs: seq<Delivery>, id: nat)
    requires forall r | r in recs :: id < r.id
    ensures WithId(recs, id) == []
  {
    if recs != [] { LargerIdsHold(recs[1..], id); }
  }

  lemma {:induction false} WithIdSnoc(recs: seq<Delivery>, r: Delivery, id: nat)
    ensures WithId(recs + [r], id) == WithId(recs, id) + (if r.id == id then [r] else [])
  {
    if recs != [] {
      WithIdSnoc(recs[1..], r, id);
      assert (recs + [r])[1..] == recs[1..] + [r];
    } else {
      assert recs + [r] == [r];
      assert WithId([r], id) == (if r.id == id then [r] else []) + WithId([r][1..], id);
    }
  }

  /** Sorting permutes the records into id order and keeps equal ids in place. */
  lemma {:induction false} SortByIdSorts(recs: seq<Delivery>)
    ensures Ascending(SortById(recs))
    ensures multiset(SortById(recs)) == multiset(recs)
    ensures forall id :: WithId(SortById(recs), id) == WithId(recs, id)
  {
    if recs != [] {
      var front, last := recs[..|recs| - 1], recs[|recs| - 1];
      SortByIdSorts(front);
      InsertByIdSorts(last, SortById(front));
      InsertByIdCounts(last, SortById(front));
      assert recs == front + [last];
      forall id
        ensures WithId(SortById(recs), id) == WithId(recs, id)
      {
        WithIdSnoc(front, last, id);
        InsertByIdIsStable(last, SortById(front), id);
      }
    }
  }

  lemma {:induction false} SortedStays(recs: seq<Delivery>)
    requires StrictlyAscending(recs)
    ensures SortById(recs) == recs
  {
    if recs != [] {
      var front, last := recs[..|recs| - 1], recs[|recs| - 1];
      SortedStays(front);
      InsertLargest(last, front);
      assert recs == front + [last];
    }
  }

  lemma {:induction false} InsertLargest(r: Delivery, sorted: seq<Delivery>)
    requires forall x | x in sorted :: x.id < r.id
    ensures InsertById(r, sorted) == sorted + [r]
  {
    if sorted != [] {
      InsertLargest(r, sorted[1..]);
      assert sorted == [sorted[0]] + sorted[1..];
    }
  }

  // ---------------------------------------------------------------- replay plan

  /** A record replay can act on: it names an alert and at least one sink. */
  predicate WellFormed(r: Delivery) {
    r.alert.Some? && r.route != []
  }

  predicate Replayable(r: Delivery, owns: Alert -> bool) {
    WellFormed(r) && owns(r.alert.value)
  }

  function Keep(recs: seq<Delivery>, owns: Alert -> bool): (kept: seq<Delivery>)
    ensures forall k | 0 <= k < |kept| :: Replayable(kept[k], owns)
  {
    if recs == [] then []
    else (if Replayable(recs[0], owns) then [recs[0]] else []) + Keep(recs[1..], owns)
  }

  /** What ReplayPending enqueues, in order. */
  function Plan(recs: seq<Delivery>, owns: Alert -> bool): (plan: seq<Delivery>)
    ensures forall k | 0 <= k < |plan| :: Replayable(plan[k], owns)
  {
    Keep(SortById(recs), owns)
  }

  /** Whether a failed replay rolls back dedupe state, as a fresh firing does. */
  predicate RollsBack(a: Alert) {
    && !a.resolved && !a.event && a.fingerprint != ""
    && !("alertkube-grouped" in a.labels && a.labels["alertkube-grouped"] == "true")
  }

  lemma {:induction false} KeepSelects(recs: seq<Delivery>, owns: Alert -> bool, r: Delivery)
    ensures multiset(Keep(recs, owns))[r] == if Replayable(r, owns) then multiset(recs)[r] else 0
  {
    if recs != [] {
      KeepSelects(recs[1..], owns, r);
      assert recs == [recs[0]] + recs[1..];
    }
  }

  lemma {:induction false} KeepAscends(recs: seq<Delivery>, owns: Alert -> bool)
    requires Ascending(recs)
    ensures Ascending(Keep(recs, owns))
  {
    if recs != [] {
      var rest := Keep(recs[1..], owns);
      KeepAscends(recs[1..], owns);
      forall k | 0 <= k < |rest|
        ensures recs[0].id <= rest[k].id
      {
        KeptIsThere(recs[1..], owns, rest[k]);
      }
      if Replayable(recs[0], owns) {
        PrependAscends(recs[0], rest);
      }
    }
  }

  lemma PrependAscends(r: Delivery, rest: seq<Delivery>)
    requires Ascending(rest) && forall k | 0 <= k < |rest| :: r.id <= rest[k].id
    ensures Ascending([r] + rest)
  {
  }

  lemma KeptIsThere(recs: seq<Delivery>, owns: Alert -> bool, r: Delivery)
    requires r in Keep(recs, owns)
    ensures r in recs
  {
    KeepSelects(recs, owns, r);
    assert multiset(Keep(recs, owns))[r] > 0;
  }

  lemma {:induction false} KeepAll(recs: seq<Delivery>, owns: Alert -> bool)
    requires forall r | r in recs :: Replayable(r, owns)
    ensures Keep(recs, owns) == recs
  {
    if recs != [] {
      KeepAll(recs[1..], owns);
      assert recs == [recs[0]] + recs[1..];
    }
  }

  lemma {:induction false} KeepSnoc(recs: seq<Delivery>, r: Delivery, owns: Alert -> bool)
    ensures Keep(recs + [r], owns) == Keep(recs, owns) + (if Replayable(r, owns) then [r] else [])
  {
    if recs == [] {
      assert recs + [r] == [r];
      assert Keep([r], owns) == (if Replayable(r, owns) then [r] else []) + Keep([r][1..], owns);
    } else {
      KeepSnoc(recs[1..], r, owns);
      assert (recs + [r])[1..] == recs[1..] + [r];
    }
  }

  /** Replay enqueues exactly the owned, well-formed records, each as often as the
      snapshot holds it, in ascending order of their old ids. */
  lemma PlanIsOwnedInOrder(recs: seq<Delivery>, owns: Alert -> bool)
    ensures Ascending(Plan(recs, owns))
    ensures forall r :: multiset(Plan(recs, owns))[r] == if Replayable(r, owns) then multiset(recs)[r] else 0
  {
    SortByIdSorts(recs);
    KeepAscends(SortById(recs), owns);
    forall r
      ensures multiset(Plan(recs, owns))[r] == if Replayable(r, owns) then multiset(recs)[r] else 0
    {
      KeepSelects(SortById(recs), owns, r);
    }
  }

  // ---------------------------------------------------------------- the object

  /** The job that replaying a record submits under a fresh id. */
  function Replayed(r: Delivery, id: nat): Job
    requires WellFormed(r)
  {
    Job(id, r.alert.value, r.route, RollsBack(r.alert.value), 0)
  }

  /** The jobs submitted for sorted records, under fresh ids that continue after `from`. */
  function Requeued(sorted: seq<Delivery>, owns: Alert -> bool, from: nat): seq<Job> {
    if sorted == [] then []
    else
      var front, last := Requeued(sorted[..|sorted| - 1], owns, from), sorted[|sorted| - 1];
      if Replayable(last, owns) then front + [Replayed(last, from + 1 + |front|)] else front
  }

  lemma RequeuedNext(sorted: seq<Delivery>, i: nat, owns: Alert -> bool, from: nat)
    requires i < |sorted|
    ensures var front := Requeued(sorted[..i], owns, from);
      Requeued(sorted[..i + 1], owns, from)
      == if Replayable(sorted[i], owns) then front + [Replayed(sorted[i], from + 1 + |front|)] else front
  {
    assert sorted[..i + 1][..i] == sorted[..i];
  }

  /** They are the plan's records in order, numbered consecutively. */
  lemma {:induction false} RequeuedFollowsPlan(sorted: seq<Delivery>, owns: Alert -> bool, from: nat)
    ensures |Requeued(sorted, owns, from)| == |Keep(sorted, owns)|
    ensures forall k | 0 <= k < |Keep(sorted, owns)| ::
      WellFormed(Keep(sorted, owns)[k])
      && Requeued(sorted, owns, from)[k] == Replayed(Keep(sorted, owns)[k], from + 1 + k)
  {
    if sorted != [] {
      var front, last := sorted[..|sorted| - 1], sorted[|sorted| - 1];
      RequeuedFollowsPlan(front, owns, from);
      KeepSnoc(front, last, owns);
      assert sorted == front + [last];
    }
  }

  /** pendingAdd for one job after another. */
  function RecordAll(pending: map<nat, Delivery>, jobs: seq<Job>): map<nat, Delivery> {
    if jobs == [] then pending
    else RecordAll(pending, jobs[..|jobs| - 1])[jobs[|jobs| - 1].id := Record(jobs[|jobs| - 1])]
  }

  class OutboxStore {
    var nextID: nat
    var pending: map<nat, Delivery>
    var gen: nat

    ghost predicate Valid()
      reads this
    {
      forall id | id in pending :: pending[id].id == id && 1 <= id <= nextID && WellFormed(pending[id])
    }

    constructor ()
      ensures Valid() && nextID == 0 && pending == map[] && gen == 0
    {
      nextID, pending, gen := 0, map[], 0;
    }

    /** enqueue up to its outbox record; an empty route is not a delivery. */
    method Enqueue(a: Alert, route: seq<string>, rollback: bool) returns (job: Option<Job>)
      requires Valid()
      modifies this
      ensures Valid()
      ensures route == [] ==> job == None && nextID == old(nextID) && pending == old(pending) && gen == old(gen)
      ensures route != [] ==>
        && job == Some(Job(old(nextID) + 1, a, route, rollback, 0)) && nextID == old(nextID) + 1
        && pending == old(pending)[nextID := Record(job.value)] && gen == old(gen) + 1
    {
      if |route| == 0 {
        return None;
      }
      nextID := nextID + 1;
      var j := Job(nextID, a, route, rollback, 0);
      pending := pending[nextID := Record(j)];
      gen := gen + 1;
      job := Some(j);
    }

    /** pendingDone: acknowledging twice, or an unknown id, changes nothing. */
    method Done(id: nat)
      requires Valid()
      modifies this
      ensures Valid() && nextID == old(nextID)
      ensures pending == old(pending) - {id}
      ensures gen == old(gen) + (if id in old(pending) then 1 else 0)
    {
      if id in pending {
        pending := pending - {id};
        gen := gen + 1;
      }
    }

    /** Every record once, in ascending id order. */
    method PendingSnapshot() returns (out: seq<Delivery>)
      requires Valid()
      ensures StrictlyAscending(out)
      ensures forall r :: r in out <==> r.id in pending && pending[r.id] == r
      ensures |out| == |pending|
    {
      var recs: seq<Delivery> := [];
      var ids := pending.Keys;
      while ids != {}
        invariant ids <= pending.Keys
        invariant forall i | 0 <= i < |recs| :: recs[i].id in pending && recs[i].id !in ids && pending[recs[i].id] == recs[i]
        invariant forall id | id in pending && id !in ids :: pending[id] in recs
        invariant forall i, j | 0 <= i < j < |recs| :: recs[i].id != recs[j].id
        invariant |recs| + |ids| == |pending|
        decreases |ids|
      {
        var id :| id in ids;
        recs := recs + [pending[id]];
        ids := ids - {id};
      }
      out := SortById(recs);
      SortByIdSorts(recs);
      assert |multiset(out)| == |multiset(recs)|;
      forall r
        ensures r in out <==> r.id in pending && pending[r.id] == r
      {
        assert r in out <==> r in multiset(out);
        assert r in recs <==> r in multiset(recs);
      }
      SortedWithoutRepeats(recs, out);
    }

    /** The loop body of ReplayPending. */
    method ReplayOne(rec: Delivery, owns: Alert -> bool) returns (job: Option<Job>)
      requires Valid()
      modifies this
      ensures Valid() && (job.Some? <==> Replayable(rec, owns))
      ensures job.None? ==> nextID == old(nextID) && pending == old(pending) && gen == old(gen)
      ensures job.Some? ==>
        && job.value == Replayed(rec, old(nextID) + 1) && nextID == old(nextID) + 1 && gen == old(gen) + 1
        && pending == old(pending)[job.value.id := Record(job.value)]
    {
      if rec.alert.None? || |rec.route| == 0 {
        return None;
      }
      if !owns(rec.alert.value) {
        return None;
      }
      job := Enqueue(rec.alert.value, rec.route, RollsBack(rec.alert.value));
    }

    /** Sorts a copy, skips malformed and foreign records and enqueues the rest. */
    method ReplayPending(recs: seq<Delivery>, owns: Alert -> bool) returns (n: nat, jobs: seq<Job>)
      requires Valid()
      modifies this
      ensures Valid() && n == |jobs| && nextID == old(nextID) + n && gen == old(gen) + n
      ensures jobs == Requeued(SortById(recs), owns, old(nextID))
      ensures pending == RecordAll(old(pending), jobs)
    {
      var sorted := SortById(recs);
      jobs, n := [], 0;
      for i := 0 to |sorted|
        invariant Valid() && n == |jobs| && nextID == old(nextID) + n && gen == old(gen) + n
        invariant jobs == Requeued(sorted[..i], owns, old(nextID))
        invariant pending == RecordAll(old(pending), jobs)
      {
        RequeuedNext(sorted, i, owns, old(nextID));
        var job := ReplayOne(sorted[i], owns);
        if job.Some? {
          RecordAllSnoc(old(pending), jobs, job.value);
          jobs, n := jobs + [job.value], n + 1;
        }
      }
      assert sorted[..|sorted|] == sorted;
    }
  }

  lemma RecordAllSnoc(pending: map<nat, Delivery>, jobs: seq<Job>, j: Job)
    ensures RecordAll(pending, jobs + [j]) == RecordAll(pending, jobs)[j.id := Record(j)]
  {
    assert (jobs + [j])[..|jobs|] == jobs;
  }

  lemma SortedWithoutRepeats(recs: seq<Delivery>, sorted: seq<Delivery>)
    requires Ascending(sorted) && multiset(sorted) == multiset(recs)
    requires forall i, j | 0 <= i < j < |recs| :: recs[i].id != recs[j].id
    ensures StrictlyAscending(sorted)
  {
    forall i, j | 0 <= i < j < |sorted|
      ensures sorted[i].id < sorted[j].id
    {
      if sorted[i].id == sorted[j].id {
        assert sorted[i] in multiset(recs) && sorted[j] in multiset(recs);
        var a :| 0 <= a < |recs| && recs[a] == sorted[i];
        var b :| 0 <= b < |recs| && recs[b] == sorted[j];
        assert a == b;
        RepeatsAreCounted(sorted, i, j);
        DistinctCountOnce(recs, a);
      }
    }
  }

  lemma RepeatsAreCounted(recs: seq<Delivery>, i: nat, j: nat)
    requires i < j < |recs| && recs[i] == recs[j]
    ensures multiset(recs)[recs[i]] >= 2
  {
    assert recs == recs[..i] + [recs[i]] + recs[i + 1..j] + [recs[j]] + recs[j + 1..];
  }

  lemma DistinctCountOnce(recs: seq<Delivery>, a: nat)
    requires a < |recs| && forall i, j | 0 <= i < j < |recs| :: recs[i].id != recs[j].id
    ensures multiset(recs)[recs[a]] == 1
  {
    assert recs == recs[..a] + [recs[a]] + recs[a + 1..];
    assert recs[a] !in recs[..a] && recs[a] !in recs[a + 1..];
  }

  lemma {:induction false} RecordAllFresh(jobs: seq<Job>, from: nat)
    requires forall k | 0 <= k < |jobs| :: jobs[k].id == from + 1 + k
    ensures forall id :: id in RecordAll(map[], jobs) <==> from < id <= from + |jobs|
    ensures forall id | id in RecordAll(map[], jobs) :: RecordAll(map[], jobs)[id] == Record(jobs[id - from - 1])
  {
    if jobs != [] {
      var front, last := jobs[..|jobs| - 1], jobs[|jobs| - 1];
      RecordAllFresh(front, from);
      assert last.id == from + |jobs|;
      var p := RecordAll(map[], front);
      forall id | id in p
        ensures p[id] == Record(jobs[id - from - 1])
      {
        assert front[id - from - 1] == jobs[id - from - 1];
      }
    }
  }

  lemma SnapshotIsItsPlan(snapshot: seq<Delivery>, owns: Alert -> bool)
    requires StrictlyAscending(snapshot)
    requires forall r | r in snapshot :: Replayable(r, owns)
    ensures SortById(snapshot) == snapshot && Keep(snapshot, owns) == snapshot
  {
    SortedStays(snapshot);
    KeepAll(snapshot, owns);
  }

  /** Jobs that carry the snapshot's deliveries in order, recorded one after another. */
  lemma {:induction false} RecordAllRebuilds(snapshot: seq<Delivery>, jobs: seq<Job>)
    requires |jobs| == |snapshot|
    requires forall k: nat | k < |jobs| :: jobs[k].id == 0 + 1 + k && Rebuilt(snapshot[k], Record(jobs[k]), 1 + k)
    ensures var pending := RecordAll(map[], jobs);
      && (forall id :: id in pending <==> 1 <= id <= |snapshot|)
      && (forall id | id in pending :: Rebuilt(snapshot[id - 1], pending[id], id))
  {
    RecordAllFresh(jobs, 0);
    var pending := RecordAll(map[], jobs);
    forall id | id in pending
      ensures Rebuilt(snapshot[id - 1], pending[id], id)
    {
      var k: nat := id - 1;
      assert Rebuilt(snapshot[k], Record(jobs[k]), 1 + k);
    }
  }

  /** Replaying the snapshot of an outbox whose alerts are all owned rebuilds it: the
      same deliveries in the same order, renumbered from 1. */
  lemma ReplayRebuildsOutbox(snapshot: seq<Delivery>, owns: Alert -> bool)
    requires StrictlyAscending(snapshot)
    requires forall r | r in snapshot :: Replayable(r, owns)
    ensures var pending := RecordAll(map[], Requeued(SortById(snapshot), owns, 0));
      && (forall id :: id in pending <==> 1 <= id <= |snapshot|)
      && (forall id | id in pending :: Rebuilt(snapshot[id - 1], pending[id], id))
  {
    SnapshotIsItsPlan(snapshot, owns);
    PlanIsRebuilt(snapshot, owns);
    RecordAllRebuilds(snapshot, Requeued(snapshot, owns, 0));
  }

  lemma PlanIsRebuilt(snapshot: seq<Delivery>, owns: Alert -> bool)
    requires Keep(snapshot, owns) == snapshot
    ensures var jobs := Requeued(snapshot, owns, 0);
      |jobs| == |snapshot|
      && forall k: nat | k < |jobs| :: jobs[k].id == 0 + 1 + k && Rebuilt(snapshot[k], Record(jobs[k]), 1 + k)
  {
    var jobs := Requeued(snapshot, owns, 0);
    RequeuedFollowsPlan(snapshot, owns, 0);
    forall k: nat | k < |jobs|
      ensures jobs[k].id == 0 + 1 + k && Rebuilt(snapshot[k], Record(jobs[k]), 1 + k)
    {
      assert jobs[k] == Replayed(snapshot[k], 0 + 1 + k);
    }
  }

  /** The new record is the old delivery under its new id. */
  predicate Rebuilt(was: Delivery, now: Delivery, id: nat) {
    was.alert.Some? && now == Delivery(id, Some(CloneWithoutDetails(was.alert.value)), was.route)
  }
}
