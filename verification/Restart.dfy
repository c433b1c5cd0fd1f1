/** Deliveries across restarts: any number of process runs, each a dispatcher run,
    joined by state saves and by the boot-time replay of the last save
    (internal/app/controller.go, restoreState, exportState and shutdown). */
module Restart {
  import opened Wrappers
  import opened Alerts
  import opened Dispatcher
  import opened DurableOutbox

  /** What a delivery is, apart from its id: the durable alert and the sinks. */
  datatype Payload = Payload(alert: Alert, route: seq<string>)

  function PayloadOf(r: Delivery): Payload
    requires r.alert.Some?
  {
    Payload(CloneWithoutDetails(r.alert.value), r.route)
  }

  /** Outbox ids start afresh in every process. A delivery keeps its birth number: how many
      were accepted from producers before it, by any process. */
  type Births = map<nat, nat>

  /** Snapshots and replay lists with the births of their records' ids. */
  datatype Records = Records(list: seq<Delivery>, births: Births)

  /** `saved` is the last snapshot written, `replay` what boot has still to replay, and
      `births` belongs to the ids of the running process. The rest is history: the payload
      of every birth, the births whose record was acknowledged, those replay dropped as
      foreign, those accepted since the last save, and those that were so, and not
      acknowledged, when a process ended. */
  datatype World = World(
    run: State, owns: Alert -> bool, births: Births, saved: Records, replay: Records,
    born: seq<Payload>, settled: set<nat>, foreign: set<nat>, unsaved: set<nat>, lost: set<nat>)

  datatype Event =
    | Dispatch(step: Step)
    | ReplayNext
    | Save(snapshot: seq<Delivery>)
    | Reboot(hash: string -> nat, workers: nat, queueSize: nat, owns: Alert -> bool)

  /** What PendingSnapshot returns for an outbox. */
  ghost predicate Lists(snapshot: seq<Delivery>, pending: map<nat, Delivery>) {
    && StrictlyAscending(snapshot)
    && (forall r :: r in snapshot <==> r.id in pending && pending[r.id] == r)
  }

  /** A save needs the boot goroutine to have finished its replay. */
  ghost predicate Possible(w: World, e: Event) {
    match e
    case Dispatch(l) => Enabled(w.run, l)
    case ReplayNext => w.replay.list != [] && w.run.lanes != []
    case Save(snapshot) => w.replay.list == [] && Lists(snapshot, w.run.outbox.pending)
    case Reboot(_, workers, _, _) => workers > 0
  }

  function BirthOf(births: Births, id: nat): nat {
    if id in births then births[id] else 0
  }

  ghost function Following(w: World, e: Event): World
    requires Possible(w, e)
  {
    match e
    case Dispatch(l) => Dispatched(w, l)
    case ReplayNext => Replaying(w)
    case Save(snapshot) => w.(saved := Records(snapshot, w.births), unsaved := {})
    case Reboot(hash, workers, queueSize, owns) =>
      w.(run := NewDispatcher(hash, workers, queueSize), owns := owns, births := map[],
         replay := Records(SortById(w.saved.list), w.saved.births),
         lost := w.lost + (w.unsaved - w.settled), unsaved := {})
  }

  ghost function Dispatched(w: World, l: Step): World
    requires Enabled(w.run, l)
  {
    var w' := w.(run := Next(w.run, l));
    match l
    case Enqueue(a, route, _) =>
      w'.(births := w.births[w.run.outbox.nextID + 1 := |w.born|],
          born := w.born + [Payload(CloneWithoutDetails(a), route)], unsaved := w.unsaved + {|w.born|})
    case Ack(i) => w'.(settled := w.settled + {BirthOf(w.births, w.run.lanes[i].worker.job.id)})
    case _ => w'
  }

  /** The loop body of ReplayPending. A replayed delivery gets a new id, not a new birth. */
  ghost function Replaying(w: World): World
    requires w.replay.list != [] && w.run.lanes != []
  {
    var r := w.replay.list[0];
    var w' := w.(replay := Records(w.replay.list[1..], w.replay.births));
    if !WellFormed(r) then w'
    else if !w.owns(r.alert.value) then w'.(foreign := w.foreign + {BirthOf(w.replay.births, r.id)})
    else
      w'.(run := Next(w.run, Enqueue(r.alert.value, r.route, RollsBack(r.alert.value))),
          births := w.births[w.run.outbox.nextID + 1 := BirthOf(w.replay.births, r.id)])
  }

  function FirstBoot(hash: string -> nat, workers: nat, queueSize: nat, owns: Alert -> bool): World
    requires workers > 0
  {
    World(NewDispatcher(hash, workers, queueSize), owns, map[], Records([], map[]), Records([], map[]), [], {}, {}, {}, {})
  }

  ghost predicate IsHistory(w: World, events: seq<Event>)
    decreases |events|
  {
    events == [] || (Possible(w, events[0]) && IsHistory(Following(w, events[0]), events[1..]))
  }

  ghost function AfterAll(w: World, events: seq<Event>): World
    requires IsHistory(w, events)
    decreases |events|
  {
    if events == [] then w else AfterAll(Following(w, events[0]), events[1..])
  }

  // ---------------------------------------------------------------- where a delivery is

  /** The record with this id is birth n and carries its payload. */
  ghost predicate Carries(r: Delivery, births: Births, born: seq<Payload>, n: nat) {
    r.id in births && births[r.id] == n && n < |born| && WellFormed(r) && PayloadOf(r) == born[n]
  }

  ghost predicate InList(list: seq<Delivery>, births: Births, born: seq<Payload>, n: nat) {
    exists k :: 0 <= k < |list| && Carries(list[k], births, born, n)
  }

  ghost predicate InOutbox(pending: map<nat, Delivery>, births: Births, born: seq<Payload>, n: nat) {
    exists id :: id in pending && Carries(pending[id], births, born, n)
  }

  /** The outbox of the running process holds the delivery. */
  ghost predicate IsPending(w: World, n: nat) {
    InOutbox(w.run.outbox.pending, w.births, w.born, n)
  }

  /** Boot has still to replay it. */
  ghost predicate IsToReplay(w: World, n: nat) {
    InList(w.replay.list, w.replay.births, w.born, n)
  }

  ghost predicate IsSaved(w: World, n: nat) {
    InList(w.saved.list, w.saved.births, w.born, n)
  }

  /** The delivery is settled or still to be made, except for the two ways it can go:
      foreign at a boot, or unsaved and unsettled when its process ended. */
  ghost predicate Accounted(w: World, n: nat) {
    n in w.settled || IsPending(w, n) || IsToReplay(w, n) || n in w.foreign || n in w.lost
  }

  /** What the process holds is on disk or was accepted since the last save. */
  ghost predicate Backed(w: World, n: nat) {
    IsPending(w, n) || IsToReplay(w, n) ==> IsSaved(w, n) || n in w.unsaved
  }

  // ---------------------------------------------------------------- the invariant

  /** Every record of the list is the delivery its birth number says. */
  ghost predicate Genuine(r: Records, born: seq<Payload>) {
    forall k | 0 <= k < |r.list| ::
      r.list[k].id in r.births && Carries(r.list[k], r.births, born, r.births[r.list[k].id])
  }

  ghost predicate GenuineOutbox(pending: map<nat, Delivery>, births: Births, born: seq<Payload>) {
    forall id | id in pending :: pending[id].id == id && id in births && Carries(pending[id], births, born, births[id])
  }

  ghost predicate Sound(w: World) {
    && Inv(w.run)
    && GenuineOutbox(w.run.outbox.pending, w.births, w.born)
    && StrictlyAscending(w.saved.list) && Genuine(w.saved, w.born) && Genuine(w.replay, w.born)
  }

  lemma FirstBootIsSound(hash: string -> nat, workers: nat, queueSize: nat, owns: Alert -> bool)
    requires workers > 0
    ensures Sound(FirstBoot(hash, workers, queueSize, owns))
  {
    NewDispatcherInv(hash, workers, queueSize);
  }

  lemma OutboxGrows(s: State, l: Step)
    requires Enabled(s, l) && l.Enqueue?
    ensures var r := Record(Minted(s, l.alert, l.route, l.rollback));
      Next(s, l).outbox.pending == s.outbox.pending[r.id := r] && r.id == s.outbox.nextID + 1
  {
  }

  lemma OutboxShrinks(s: State, l: Step)
    requires Enabled(s, l) && l.Ack?
    ensures Next(s, l).outbox.pending == s.outbox.pending - {s.lanes[l.lane].worker.job.id}
  {
  }

  lemma OutboxUntouched(s: State, l: Step)
    requires Enabled(s, l) && !l.Enqueue? && !l.Ack?
    ensures Next(s, l).outbox == s.outbox
  {
  }

  // ---------------------------------------------------------------- records and their births

  /** A payload born later changes no earlier birth. */
  lemma StillGenuine(r: Records, born: seq<Payload>, x: Payload)
    requires Genuine(r, born)
    ensures Genuine(r, born + [x])
  {
  }

  lemma GenuineAfterAdd(pending: map<nat, Delivery>, births: Births, born: seq<Payload>, r: Delivery, n: nat, born': seq<Payload>)
    requires GenuineOutbox(pending, births, born) && r.id !in pending && born <= born'
    requires Carries(r, births[r.id := n], born', n)
    ensures GenuineOutbox(pending[r.id := r], births[r.id := n], born')
  {
  }

  /** A new record adds its own birth and keeps all others in the outbox. */
  lemma OutboxGains(pending: map<nat, Delivery>, births: Births, born: seq<Payload>, r: Delivery, n: nat,
                    born': seq<Payload>, m: nat)
    requires GenuineOutbox(pending, births, born) && r.id !in pending && born <= born'
    requires Carries(r, births[r.id := n], born', n)
    ensures InOutbox(pending[r.id := r], births[r.id := n], born', m) <==> m == n || InOutbox(pending, births, born, m)
  {
    var pending', births' := pending[r.id := r], births[r.id := n];
    if InOutbox(pending, births, born, m) {
      var id :| id in pending && Carries(pending[id], births, born, m);
      assert pending'[id] == pending[id] && Carries(pending'[id], births', born', m);
    }
    if m == n {
      assert Carries(pending'[r.id], births', born', m);
    }
    if InOutbox(pending', births', born', m) && m != n {
      var id :| id in pending' && Carries(pending'[id], births', born', m);
      assert id != r.id && Carries(pending[id], births, born, m);
    }
  }

  /** An acknowledged record takes no other birth with it. */
  lemma OutboxLoses(pending: map<nat, Delivery>, births: Births, born: seq<Payload>, id: nat, m: nat)
    requires GenuineOutbox(pending, births, born) && id in pending
    ensures InOutbox(pending, births, born, m) ==> m == births[id] || InOutbox(pending - {id}, births, born, m)
    ensures InOutbox(pending - {id}, births, born, m) ==> InOutbox(pending, births, born, m)
  {
    if InOutbox(pending, births, born, m) && m != births[id] {
      var k :| k in pending && Carries(pending[k], births, born, m);
      assert (pending - {id})[k] == pending[k];
    }
    if InOutbox(pending - {id}, births, born, m) {
      var k :| k in pending - {id} && Carries((pending - {id})[k], births, born, m);
      assert Carries(pending[k], births, born, m);
    }
  }

  /** A snapshot holds the births of its outbox. */
  lemma SnapshotHolds(snapshot: seq<Delivery>, pending: map<nat, Delivery>, births: Births, born: seq<Payload>, m: nat)
    requires Lists(snapshot, pending) && GenuineOutbox(pending, births, born)
    ensures Genuine(Records(snapshot, births), born)
    ensures InOutbox(pending, births, born, m) ==> InList(snapshot, births, born, m)
  {
    forall k | 0 <= k < |snapshot|
      ensures snapshot[k].id in births && Carries(snapshot[k], births, born, births[snapshot[k].id])
    {
      assert snapshot[k] in snapshot;
    }
    if InOutbox(pending, births, born, m) {
      var id :| id in pending && Carries(pending[id], births, born, m);
      assert pending[id] in snapshot;
    }
  }

  lemma ListGains(list: seq<Delivery>, births: Births, born: seq<Payload>, x: Payload, m: nat)
    requires Genuine(Records(list, births), born)
    ensures InList(list, births, born + [x], m) <==> InList(list, births, born, m)
  {
    if InList(list, births, born, m) {
      var k :| 0 <= k < |list| && Carries(list[k], births, born, m);
      assert Carries(list[k], births, born + [x], m);
    }
    if InList(list, births, born + [x], m) {
      var k :| 0 <= k < |list| && Carries(list[k], births, born + [x], m);
      assert Carries(list[k], births, born, births[list[k].id]);
    }
  }

  /** Taking the first record of a list takes only its own birth. */
  lemma ListLoses(list: seq<Delivery>, births: Births, born: seq<Payload>, m: nat)
    requires list != [] && Genuine(Records(list, births), born)
    ensures InList(list, births, born, m) <==> m == BirthOf(births, list[0].id) || InList(list[1..], births, born, m)
    ensures Genuine(Records(list[1..], births), born)
  {
    assert Carries(list[0], births, born, births[list[0].id]);
    if InList(list, births, born, m) && m != births[list[0].id] {
      var k :| 0 <= k < |list| && Carries(list[k], births, born, m);
      assert list[1..][k - 1] == list[k];
    }
    if InList(list[1..], births, born, m) {
      var k :| 0 <= k < |list[1..]| && Carries(list[1..][k], births, born, m);
      assert list[k + 1] == list[1..][k];
    }
  }

  // ---------------------------------------------------------------- every step

  /** The books on one birth number, once it is given out. */
  ghost predicate Booked(w: World, n: nat) {
    n < |w.born| ==> Accounted(w, n) && Backed(w, n)
  }

  lemma RecordIsFresh(s: State, l: Step)
    requires Inv(s) && Enabled(s, l) && l.Enqueue?
    ensures var r := Record(Minted(s, l.alert, l.route, l.rollback));
      r == Delivery(s.outbox.nextID + 1, Some(CloneWithoutDetails(l.alert)), l.route) && WellFormed(r)
      && r.id !in s.outbox.pending
  {
    MintedIsFresh(s);
  }

  /** The run with one record more. */
  lemma RunGains(s: State, l: Step) returns (r: Delivery)
    requires Inv(s) && Enabled(s, l) && l.Enqueue?
    ensures r == Delivery(s.outbox.nextID + 1, Some(CloneWithoutDetails(l.alert)), l.route) && WellFormed(r)
    ensures Inv(Next(s, l)) && r.id !in s.outbox.pending && Next(s, l).outbox.pending == s.outbox.pending[r.id := r]
  {
    r := Record(Minted(s, l.alert, l.route, l.rollback));
    InvStep(s, l);
    RecordIsFresh(s, l);
    OutboxGrows(s, l);
  }

  /** The run with one record less. */
  lemma RunLoses(s: State, l: Step) returns (id: nat)
    requires Inv(s) && Enabled(s, l) && l.Ack?
    ensures id == s.lanes[l.lane].worker.job.id && id in s.outbox.pending
    ensures Inv(Next(s, l)) && Next(s, l).outbox.pending == s.outbox.pending - {id}
  {
    id := s.lanes[l.lane].worker.job.id;
    InvStep(s, l);
    HeldIsRecorded(s, l.lane);
    OutboxShrinks(s, l);
  }

  lemma EnqueueStep(w: World, l: Step, n: nat)
    requires Sound(w) && Enabled(w.run, l) && l.Enqueue? && Booked(w, n)
    ensures Sound(Dispatched(w, l)) && Booked(Dispatched(w, l), n)
  {
    var r := RunGains(w.run, l);
    Accepting(w, l, r);
    AcceptStep(w, Dispatched(w, l), r, PayloadOf(r), n);
  }

  lemma Accepting(w: World, l: Step, r: Delivery)
    requires Enabled(w.run, l) && l.Enqueue?
    requires r == Delivery(w.run.outbox.nextID + 1, Some(CloneWithoutDetails(l.alert)), l.route)
    ensures var w' := Dispatched(w, l);
      && w'.run == Next(w.run, l)
      && w' == w.(run := w'.run, births := w.births[r.id := |w.born|], born := w.born + [PayloadOf(r)],
                  unsaved := w.unsaved + {|w.born|})
  {
    assert PayloadOf(r) == Payload(CloneWithoutDetails(l.alert), l.route);
  }

  /** The part of an acceptance that concerns the books alone. */
  lemma AcceptStep(w: World, w': World, r: Delivery, x: Payload, n: nat)
    requires GenuineOutbox(w.run.outbox.pending, w.births, w.born) && WellFormed(r) && x == PayloadOf(r)
    requires StrictlyAscending(w.saved.list) && Genuine(w.saved, w.born) && Genuine(w.replay, w.born)
    requires Inv(w'.run) && r.id !in w.run.outbox.pending && w'.run.outbox.pending == w.run.outbox.pending[r.id := r]
    requires w' == w.(run := w'.run, births := w.births[r.id := |w.born|], born := w.born + [x], unsaved := w.unsaved + {|w.born|})
    requires Booked(w, n)
    ensures Sound(w') && Booked(w', n)
  {
    var pending := w.run.outbox.pending;
    GenuineAfterAdd(pending, w.births, w.born, r, |w.born|, w'.born);
    StillGenuine(w.saved, w.born, x);
    StillGenuine(w.replay, w.born, x);
    OutboxGains(pending, w.births, w.born, r, |w.born|, w'.born, n);
    ListGains(w.replay.list, w.replay.births, w.born, x, n);
    ListGains(w.saved.list, w.saved.births, w.born, x, n);
  }

  lemma AckStep(w: World, l: Step, n: nat)
    requires Sound(w) && Enabled(w.run, l) && l.Ack? && Booked(w, n)
    ensures Sound(Dispatched(w, l)) && Booked(Dispatched(w, l), n)
  {
    var id := RunLoses(w.run, l);
    SettleStep(w, Dispatched(w, l), id, n);
  }

  lemma SettleStep(w: World, w': World, id: nat, n: nat)
    requires GenuineOutbox(w.run.outbox.pending, w.births, w.born) && id in w.run.outbox.pending
    requires StrictlyAscending(w.saved.list) && Genuine(w.saved, w.born) && Genuine(w.replay, w.born)
    requires Inv(w'.run) && w'.run.outbox.pending == w.run.outbox.pending - {id}
    requires w' == w.(run := w'.run, settled := w.settled + {BirthOf(w.births, id)})
    requires Booked(w, n)
    ensures Sound(w') && Booked(w', n)
  {
    OutboxLoses(w.run.outbox.pending, w.births, w.born, id, n);
  }

  lemma QuietStep(w: World, l: Step, n: nat)
    requires Sound(w) && Enabled(w.run, l) && !l.Enqueue? && !l.Ack? && Booked(w, n)
    ensures Sound(Dispatched(w, l)) && Booked(Dispatched(w, l), n)
  {
    InvStep(w.run, l);
    OutboxUntouched(w.run, l);
  }

  lemma ReplayStep(w: World, n: nat)
    requires Sound(w) && Possible(w, ReplayNext) && Booked(w, n)
    ensures Sound(Replaying(w)) && Booked(Replaying(w), n)
  {
    var first := w.replay.list[0];
    ListLoses(w.replay.list, w.replay.births, w.born, n);
    assert Carries(first, w.replay.births, w.born, w.replay.births[first.id]);
    if w.owns(first.alert.value) {
      KeptStep(w, first, n);
    } else {
      DropStep(w, Replaying(w), w.replay.births[first.id], n);
    }
  }

  lemma KeptStep(w: World, first: Delivery, n: nat)
    requires Sound(w) && Possible(w, ReplayNext) && first == w.replay.list[0] && Replayable(first, w.owns)
    requires first.id in w.replay.births && Carries(first, w.replay.births, w.born, w.replay.births[first.id])
    requires Genuine(Replaying(w).replay, w.born)
    requires IsToReplay(w, n) <==> n == w.replay.births[first.id] || InList(w.replay.list[1..], w.replay.births, w.born, n)
    requires Booked(w, n)
    ensures Sound(Replaying(w)) && Booked(Replaying(w), n)
  {
    var r := RunGains(w.run, Enqueue(first.alert.value, first.route, RollsBack(first.alert.value)));
    Renumbering(w, first, r);
    RenumberStep(w, Replaying(w), r, w.replay.births[first.id], n);
  }

  lemma Renumbering(w: World, first: Delivery, r: Delivery)
    requires Possible(w, ReplayNext) && first == w.replay.list[0] && Replayable(first, w.owns)
    requires first.id in w.replay.births
    requires r == Delivery(w.run.outbox.nextID + 1, Some(CloneWithoutDetails(first.alert.value)), first.route)
    ensures var w' := Replaying(w);
      && w'.run == Next(w.run, Enqueue(first.alert.value, first.route, RollsBack(first.alert.value)))
      && w' == w.(run := w'.run, births := w.births[r.id := w.replay.births[first.id]], replay := w'.replay)
      && w'.replay == Records(w.replay.list[1..], w.replay.births) && PayloadOf(r) == PayloadOf(first)
  {
  }

  lemma DropStep(w: World, w': World, m: nat, n: nat)
    requires Sound(w) && Genuine(w'.replay, w.born) && w' == w.(replay := w'.replay, foreign := w.foreign + {m})
    requires IsToReplay(w, n) <==> n == m || IsToReplay(w', n)
    requires Booked(w, n)
    ensures Sound(w') && Booked(w', n)
  {
  }

  /** A replayed record keeps its birth under its new id. */
  lemma RenumberStep(w: World, w': World, r: Delivery, m: nat, n: nat)
    requires GenuineOutbox(w.run.outbox.pending, w.births, w.born)
    requires WellFormed(r) && m < |w.born| && PayloadOf(r) == w.born[m]
    requires StrictlyAscending(w.saved.list) && Genuine(w.saved, w.born) && Genuine(w'.replay, w.born)
    requires Inv(w'.run) && r.id !in w.run.outbox.pending && w'.run.outbox.pending == w.run.outbox.pending[r.id := r]
    requires w' == w.(run := w'.run, births := w.births[r.id := m], replay := w'.replay)
    requires IsToReplay(w, n) <==> n == m || IsToReplay(w', n)
    requires Booked(w, n)
    ensures Sound(w') && Booked(w', n)
  {
    GenuineAfterAdd(w.run.outbox.pending, w.births, w.born, r, m, w.born);
    OutboxGains(w.run.outbox.pending, w.births, w.born, r, m, w.born, n);
  }

  lemma SaveStep(w: World, snapshot: seq<Delivery>, n: nat)
    requires Sound(w) && Possible(w, Save(snapshot)) && Booked(w, n)
    ensures Sound(Following(w, Save(snapshot))) && Booked(Following(w, Save(snapshot)), n)
  {
    SnapshotHolds(snapshot, w.run.outbox.pending, w.births, w.born, n);
  }

  lemma RebootStep(w: World, e: Event, n: nat)
    requires Sound(w) && Possible(w, e) && e.Reboot? && Booked(w, n)
    ensures Sound(Following(w, e)) && Booked(Following(w, e), n)
  {
    NewDispatcherInv(e.hash, e.workers, e.queueSize);
    SortedStays(w.saved.list);
  }

  lemma BooksStep(w: World, e: Event, n: nat)
    requires Sound(w) && Possible(w, e) && Booked(w, n)
    ensures Sound(Following(w, e)) && Booked(Following(w, e), n)
  {
    match e {
      case Dispatch(l) =>
        if l.Enqueue? { EnqueueStep(w, l, n); }
        else if l.Ack? { AckStep(w, l, n); }
        else { QuietStep(w, l, n); }
      case ReplayNext => ReplayStep(w, n);
      case Save(snapshot) => SaveStep(w, snapshot, n);
      case Reboot(_, _, _, _) => RebootStep(w, e, n);
    }
  }

  lemma {:induction false} BooksAlways(w: World, events: seq<Event>, n: nat)
    requires Sound(w) && IsHistory(w, events) && Booked(w, n)
    ensures Sound(AfterAll(w, events)) && Booked(AfterAll(w, events), n)
    decreases |events|
  {
    if events != [] {
      BooksStep(w, events[0], n);
      BooksAlways(Following(w, events[0]), events[1..], n);
    }
  }

  lemma SoundStep(w: World, e: Event)
    requires Sound(w) && Possible(w, e)
    ensures Sound(Following(w, e))
  {
    BooksStep(w, e, |w.born|);
  }

  // ---------------------------------------------------------------- one record each

  ghost predicate NoRepeats(r: Records) {
    forall i, j | 0 <= i < j < |r.list| :: BirthOf(r.births, r.list[i].id) != BirthOf(r.births, r.list[j].id)
  }

  ghost predicate NoRepeatsOutbox(pending: map<nat, Delivery>, births: Births) {
    forall i, j | i in pending && j in pending && i != j :: BirthOf(births, i) != BirthOf(births, j)
  }

  ghost predicate Absent(r: Records, n: nat) {
    forall k | 0 <= k < |r.list| :: BirthOf(r.births, r.list[k].id) != n
  }

  ghost predicate Apart(pending: map<nat, Delivery>, births: Births, r: Records) {
    forall id | id in pending :: Absent(r, BirthOf(births, id))
  }

  /** No birth has two records, in the outbox and the replay list together. */
  ghost predicate Single(w: World) {
    && NoRepeats(w.saved) && NoRepeats(w.replay)
    && NoRepeatsOutbox(w.run.outbox.pending, w.births) && Apart(w.run.outbox.pending, w.births, w.replay)
  }

  lemma SingleAfterAdd(pending: map<nat, Delivery>, births: Births, r: Delivery, n: nat, list: Records)
    requires NoRepeatsOutbox(pending, births) && Apart(pending, births, list) && r.id !in pending
    requires Absent(list, n) && forall id | id in pending :: BirthOf(births, id) != n
    ensures NoRepeatsOutbox(pending[r.id := r], births[r.id := n]) && Apart(pending[r.id := r], births[r.id := n], list)
  {
    var births' := births[r.id := n];
    assert BirthOf(births', r.id) == n && forall id | id in pending :: BirthOf(births', id) == BirthOf(births, id);
  }

  lemma SingleEnqueue(w: World, l: Step)
    requires Sound(w) && Single(w) && Enabled(w.run, l) && l.Enqueue?
    ensures Single(Dispatched(w, l))
  {
    var r := RunGains(w.run, l);
    Accepting(w, l, r);
    forall k | 0 <= k < |w.replay.list|
      ensures BirthOf(w.replay.births, w.replay.list[k].id) != |w.born|
    {
      assert Carries(w.replay.list[k], w.replay.births, w.born, w.replay.births[w.replay.list[k].id]);
    }
    SingleAfterAdd(w.run.outbox.pending, w.births, r, |w.born|, w.replay);
  }

  lemma SingleAck(w: World, l: Step)
    requires Sound(w) && Single(w) && Enabled(w.run, l) && l.Ack?
    ensures Single(Dispatched(w, l))
  {
    var id := RunLoses(w.run, l);
  }

  lemma SingleReplay(w: World)
    requires Sound(w) && Single(w) && Possible(w, ReplayNext)
    ensures Single(Replaying(w))
  {
    var first, rest := w.replay.list[0], Records(w.replay.list[1..], w.replay.births);
    assert first.id in w.replay.births && Carries(first, w.replay.births, w.born, w.replay.births[first.id]);
    RestIsSingle(w.run.outbox.pending, w.births, w.replay);
    if w.owns(first.alert.value) {
      SingleKept(w, first, rest);
    }
  }

  lemma SingleKept(w: World, first: Delivery, rest: Records)
    requires Sound(w) && Single(w) && Possible(w, ReplayNext)
    requires first == w.replay.list[0] && Replayable(first, w.owns) && first.id in w.replay.births
    requires rest == Records(w.replay.list[1..], w.replay.births)
    requires NoRepeats(rest) && Apart(w.run.outbox.pending, w.births, rest) && Absent(rest, w.replay.births[first.id])
    requires forall id | id in w.run.outbox.pending :: BirthOf(w.births, id) != w.replay.births[first.id]
    ensures Single(Replaying(w))
  {
    var r := RunGains(w.run, Enqueue(first.alert.value, first.route, RollsBack(first.alert.value)));
    Renumbering(w, first, r);
    SingleAfterAdd(w.run.outbox.pending, w.births, r, w.replay.births[first.id], rest);
  }

  lemma RestIsSingle(pending: map<nat, Delivery>, births: Births, r: Records)
    requires r.list != [] && NoRepeats(r) && Apart(pending, births, r)
    ensures var rest, m := Records(r.list[1..], r.births), BirthOf(r.births, r.list[0].id);
      && NoRepeats(rest) && Apart(pending, births, rest) && Absent(rest, m)
      && forall id | id in pending :: BirthOf(births, id) != m
  {
    assert forall k | 0 <= k < |r.list[1..]| :: r.list[1..][k] == r.list[k + 1];
  }

  lemma SingleSave(w: World, snapshot: seq<Delivery>)
    requires Single(w) && Lists(snapshot, w.run.outbox.pending)
    ensures NoRepeats(Records(snapshot, w.births))
  {
    assert forall k | 0 <= k < |snapshot| :: snapshot[k] in snapshot && snapshot[k].id in w.run.outbox.pending;
  }

  lemma SingleStep(w: World, e: Event)
    requires Sound(w) && Single(w) && Possible(w, e)
    ensures Single(Following(w, e))
  {
    match e {
      case Dispatch(l) =>
        if l.Enqueue? { SingleEnqueue(w, l); }
        else if l.Ack? { SingleAck(w, l); }
        else { OutboxUntouched(w.run, l); }
      case ReplayNext => SingleReplay(w);
      case Save(snapshot) => SingleSave(w, snapshot);
      case Reboot(_, _, _, _) => SortedStays(w.saved.list);
    }
  }

  lemma {:induction false} SingleAlways(w: World, events: seq<Event>)
    requires Sound(w) && Single(w) && IsHistory(w, events)
    ensures Single(AfterAll(w, events))
    decreases |events|
  {
    if events != [] {
      SoundStep(w, events[0]);
      SingleStep(w, events[0]);
      SingleAlways(Following(w, events[0]), events[1..]);
    }
  }

  /** The records that carry a birth: in the outbox by id, in the replay list by position. */
  datatype Place = InProcess(id: nat) | AtBoot(k: nat)

  ghost predicate Holds(w: World, p: Place, n: nat) {
    match p
    case InProcess(id) => id in w.run.outbox.pending && Carries(w.run.outbox.pending[id], w.births, w.born, n)
    case AtBoot(k) => k < |w.replay.list| && Carries(w.replay.list[k], w.replay.births, w.born, n)
  }

  lemma OnePlaceEach(w: World, n: nat, p: Place, q: Place)
    requires Sound(w) && Single(w) && Holds(w, p, n) && Holds(w, q, n)
    ensures p == q
  {
  }

  // ---------------------------------------------------------------- what a boot keeps

  /** One of the records is birth n, with an alert that is owned. */
  ghost predicate OwnedIn(r: Records, born: seq<Payload>, owns: Alert -> bool, n: nat) {
    exists k :: 0 <= k < |r.list| && Carries(r.list[k], r.births, born, n) && owns(r.list[k].alert.value)
  }

  /** Settled, in the outbox, or still to be replayed and owned. */
  ghost predicate Retained(w: World, n: nat) {
    n in w.settled || IsPending(w, n) || OwnedIn(w.replay, w.born, w.owns, n)
  }

  lemma OwnedGains(r: Records, born: seq<Payload>, x: Payload, owns: Alert -> bool, n: nat)
    requires Genuine(r, born)
    ensures OwnedIn(r, born + [x], owns, n) <==> OwnedIn(r, born, owns, n)
  {
    if OwnedIn(r, born, owns, n) {
      var k :| 0 <= k < |r.list| && Carries(r.list[k], r.births, born, n) && owns(r.list[k].alert.value);
      assert Carries(r.list[k], r.births, born + [x], n);
    }
    if OwnedIn(r, born + [x], owns, n) {
      var k :| 0 <= k < |r.list| && Carries(r.list[k], r.births, born + [x], n) && owns(r.list[k].alert.value);
      assert Carries(r.list[k], r.births, born, r.births[r.list[k].id]);
    }
  }

  lemma OwnedLoses(r: Records, born: seq<Payload>, owns: Alert -> bool, n: nat)
    requires r.list != [] && Genuine(r, born) && r.list[0].alert.Some?
    ensures OwnedIn(r, born, owns, n) <==>
      (n == BirthOf(r.births, r.list[0].id) && owns(r.list[0].alert.value))
      || OwnedIn(Records(r.list[1..], r.births), born, owns, n)
  {
    var rest := Records(r.list[1..], r.births);
    assert Carries(r.list[0], r.births, born, r.births[r.list[0].id]);
    if OwnedIn(r, born, owns, n) {
      var k :| 0 <= k < |r.list| && Carries(r.list[k], r.births, born, n) && owns(r.list[k].alert.value);
      if k > 0 {
        assert rest.list[k - 1] == r.list[k];
      }
    }
    if OwnedIn(rest, born, owns, n) {
      var k :| 0 <= k < |rest.list| && Carries(rest.list[k], r.births, born, n) && owns(rest.list[k].alert.value);
      assert r.list[k + 1] == rest.list[k];
    }
  }

  lemma RetainedEnqueue(w: World, l: Step, n: nat)
    requires Sound(w) && Enabled(w.run, l) && l.Enqueue? && n < |w.born|
    ensures Retained(Dispatched(w, l), n) <==> Retained(w, n)
  {
    var r := RunGains(w.run, l);
    Accepting(w, l, r);
    var w' := Dispatched(w, l);
    OutboxGains(w.run.outbox.pending, w.births, w.born, r, |w.born|, w'.born, n);
    OwnedGains(w.replay, w.born, PayloadOf(r), w.owns, n);
  }

  lemma RetainedAck(w: World, l: Step, n: nat)
    requires Sound(w) && Enabled(w.run, l) && l.Ack?
    ensures Retained(Dispatched(w, l), n) <==> Retained(w, n)
  {
    var id := RunLoses(w.run, l);
    RetainedSettled(w, Dispatched(w, l), id, n);
  }

  lemma RetainedSettled(w: World, w': World, id: nat, n: nat)
    requires GenuineOutbox(w.run.outbox.pending, w.births, w.born) && id in w.run.outbox.pending
    requires w'.run.outbox.pending == w.run.outbox.pending - {id}
    requires w' == w.(run := w'.run, settled := w.settled + {BirthOf(w.births, id)})
    ensures Retained(w', n) <==> Retained(w, n)
  {
    OutboxLoses(w.run.outbox.pending, w.births, w.born, id, n);
    assert Carries(w.run.outbox.pending[id], w.births, w.born, w.births[id]);
  }

  lemma RetainedReplay(w: World, n: nat)
    requires Sound(w) && Possible(w, ReplayNext)
    ensures Retained(Replaying(w), n) <==> Retained(w, n)
  {
    var first := w.replay.list[0];
    assert first.id in w.replay.births && Carries(first, w.replay.births, w.born, w.replay.births[first.id]);
    OwnedLoses(w.replay, w.born, w.owns, n);
    if w.owns(first.alert.value) {
      RetainedKept(w, first, n);
    }
  }

  lemma RetainedKept(w: World, first: Delivery, n: nat)
    requires Sound(w) && Possible(w, ReplayNext) && first == w.replay.list[0] && Replayable(first, w.owns)
    requires first.id in w.replay.births && Carries(first, w.replay.births, w.born, w.replay.births[first.id])
    ensures var w' := Replaying(w);
      && w'.settled == w.settled && w'.born == w.born && w'.owns == w.owns
      && w'.replay == Records(w.replay.list[1..], w.replay.births)
      && (IsPending(w', n) <==> n == w.replay.births[first.id] || IsPending(w, n))
  {
    var r := RunGains(w.run, Enqueue(first.alert.value, first.route, RollsBack(first.alert.value)));
    Renumbering(w, first, r);
    OutboxGains(w.run.outbox.pending, w.births, w.born, r, w.replay.births[first.id], w.born, n);
  }

  /** No step of a process loses or finds a delivery: what boot owns is replayed, what it
      does not own is dropped, and a record leaves the outbox only by being settled. */
  lemma RetainedStep(w: World, e: Event, n: nat)
    requires Sound(w) && Possible(w, e) && !e.Reboot? && n < |w.born|
    ensures Retained(Following(w, e), n) <==> Retained(w, n)
    ensures n < |Following(w, e).born|
  {
    match e {
      case Dispatch(l) =>
        if l.Enqueue? { RetainedEnqueue(w, l, n); }
        else if l.Ack? { RetainedAck(w, l, n); }
        else { OutboxUntouched(w.run, l); }
      case ReplayNext => RetainedReplay(w, n);
      case Save(_) =>
    }
  }

  lemma {:induction false} RetainedAlways(w: World, events: seq<Event>, n: nat)
    requires Sound(w) && IsHistory(w, events) && n < |w.born| && forall e | e in events :: !e.Reboot?
    ensures Retained(AfterAll(w, events), n) <==> Retained(w, n)
    decreases |events|
  {
    if events != [] {
      assert events[0] in events && forall e | e in events[1..] :: e in events;
      SoundStep(w, events[0]);
      RetainedStep(w, events[0], n);
      RetainedAlways(Following(w, events[0]), events[1..], n);
    }
  }

  // ---------------------------------------------------------------- the guarantees

  /** Over any number of runs, crashes included, each accepted delivery is settled, in the
      outbox or still to be replayed, with its own alert and sinks, unless a boot found it
      foreign or its process ended with it unsaved and unsettled. */
  lemma EveryDeliveryIsAccountedFor(events: seq<Event>, n: nat,
                                    hash: string -> nat, workers: nat, queueSize: nat, owns: Alert -> bool)
    requires workers > 0 && IsHistory(FirstBoot(hash, workers, queueSize, owns), events)
    requires n < |AfterAll(FirstBoot(hash, workers, queueSize, owns), events).born|
    ensures Accounted(AfterAll(FirstBoot(hash, workers, queueSize, owns), events), n)
  {
    FirstBootIsSound(hash, workers, queueSize, owns);
    BooksAlways(FirstBoot(hash, workers, queueSize, owns), events, n);
  }

  /** And it has one record at most: replay never duplicates a delivery. */
  lemma NoDeliveryIsDuplicated(events: seq<Event>, n: nat, p: Place, q: Place,
                               hash: string -> nat, workers: nat, queueSize: nat, owns: Alert -> bool)
    requires workers > 0 && IsHistory(FirstBoot(hash, workers, queueSize, owns), events)
    requires var w := AfterAll(FirstBoot(hash, workers, queueSize, owns), events);
      Holds(w, p, n) && Holds(w, q, n)
    ensures p == q
  {
    var w := FirstBoot(hash, workers, queueSize, owns);
    FirstBootIsSound(hash, workers, queueSize, owns);
    BooksAlways(w, events, |AfterAll(w, events).born|);
    SingleAlways(w, events);
    OnePlaceEach(AfterAll(w, events), n, p, q);
  }

  /** Every process ended with all its deliveries saved, and every boot owned what it replayed. */
  ghost predicate Faithful(w: World, events: seq<Event>)
    requires IsHistory(w, events)
    decreases |events|
  {
    events != [] ==>
      && (events[0].Reboot? ==> w.unsaved <= w.settled)
      && (events[0].ReplayNext? ==> Replayable(w.replay.list[0], w.owns))
      && Faithful(Following(w, events[0]), events[1..])
  }

  lemma {:induction false} FaithfulLosesNothing(w: World, events: seq<Event>)
    requires IsHistory(w, events) && Faithful(w, events)
    ensures AfterAll(w, events).lost == w.lost && AfterAll(w, events).foreign == w.foreign
    decreases |events|
  {
    if events != [] {
      FaithfulLosesNothing(Following(w, events[0]), events[1..]);
    }
  }

  /** At-least-once: then every accepted delivery is settled, pending or to be replayed. */
  lemma AtLeastOnce(events: seq<Event>, n: nat,
                    hash: string -> nat, workers: nat, queueSize: nat, owns: Alert -> bool)
    requires workers > 0 && IsHistory(FirstBoot(hash, workers, queueSize, owns), events)
    requires Faithful(FirstBoot(hash, workers, queueSize, owns), events)
    requires n < |AfterAll(FirstBoot(hash, workers, queueSize, owns), events).born|
    ensures var w := AfterAll(FirstBoot(hash, workers, queueSize, owns), events);
      n in w.settled || IsPending(w, n) || IsToReplay(w, n)
  {
    EveryDeliveryIsAccountedFor(events, n, hash, workers, queueSize, owns);
    FaithfulLosesNothing(FirstBoot(hash, workers, queueSize, owns), events);
  }

  ghost predicate Missing(w: World, n: nat) {
    n !in w.settled && !IsPending(w, n) && !IsToReplay(w, n)
  }

  /** A boot and its whole replay, whatever the dispatcher does meanwhile. */
  ghost predicate Boots(w: World, boot: Event, events: seq<Event>) {
    && boot.Reboot? && Possible(w, boot) && IsHistory(Following(w, boot), events)
    && (forall e | e in events :: !e.Reboot?) && AfterAll(Following(w, boot), events).replay.list == []
  }

  lemma BootKeepsOwned(w: World, boot: Event, events: seq<Event>, n: nat)
    requires Sound(w) && Boots(w, boot, events) && n < |w.born| && n !in w.settled
    ensures Missing(AfterAll(Following(w, boot), events), n) <==> !OwnedIn(w.saved, w.born, boot.owns, n)
  {
    var booted := Following(w, boot);
    SortedStays(w.saved.list);
    SoundStep(w, boot);
    RetainedAlways(booted, events, n);
    assert booted.run.outbox.pending == map[] && booted.replay == w.saved;
  }

  /** In every history: a delivery that is not settled when a process ends is gone after the
      next boot's replay exactly if no record of the last save carries it with an alert
      that this boot owns. */
  lemma RestartKeepsExactlyOwned(before: seq<Event>, boot: Event, events: seq<Event>, n: nat,
                                 hash: string -> nat, workers: nat, queueSize: nat, owns: Alert -> bool)
    requires workers > 0 && IsHistory(FirstBoot(hash, workers, queueSize, owns), before)
    requires var w := AfterAll(FirstBoot(hash, workers, queueSize, owns), before);
      Boots(w, boot, events) && n < |w.born| && n !in w.settled
    ensures var w := AfterAll(FirstBoot(hash, workers, queueSize, owns), before);
      Missing(AfterAll(Following(w, boot), events), n) <==> !OwnedIn(w.saved, w.born, boot.owns, n)
  {
    var w := FirstBoot(hash, workers, queueSize, owns);
    FirstBootIsSound(hash, workers, queueSize, owns);
    BooksAlways(w, before, |AfterAll(w, before).born|);
    BootKeepsOwned(AfterAll(w, before), boot, events, n);
  }

  lemma SaveOne(a: Alert, route: seq<string>, rollback: bool, hash: string -> nat,
                workers: nat, queueSize: nat, owns: Alert -> bool)
    requires workers > 0 && route != []
    ensures var r := Delivery(1, Some(CloneWithoutDetails(a)), route);
      var w0, e0 := FirstBoot(hash, workers, queueSize, owns), Dispatch(Enqueue(a, route, rollback));
      && Possible(w0, e0) && Possible(Following(w0, e0), Save([r]))
      && var w := Following(Following(w0, e0), Save([r]));
      && w.born == [PayloadOf(r)] && w.saved == Records([r], map[r.id := 0]) && w.unsaved == {}
      && w.settled == {} && w.lost == {}
  {
    var r := Delivery(1, Some(CloneWithoutDetails(a)), route);
    var w1 := Following(FirstBoot(hash, workers, queueSize, owns), Dispatch(Enqueue(a, route, rollback)));
    assert w1.run.outbox.pending == map[1 := r] && w1.births == map[1 := 0];
    assert Lists([r], w1.run.outbox.pending);
  }

  /** The ownership gate is real: a delivery enqueued by an ungated producer (the
      webhook receiver, a derived alert), saved, and replayed once after a restart,
      is gone exactly when the booting shard does not own its alert. */
  lemma ReplayKeepsOnlyOwned(a: Alert, route: seq<string>, rollback: bool, hash: string -> nat,
                             workers: nat, queueSize: nat, owns: Alert -> bool)
    requires workers > 0 && route != []
    ensures var r := Delivery(1, Some(CloneWithoutDetails(a)), route);
      var w0, e0 := FirstBoot(hash, workers, queueSize, owns), Dispatch(Enqueue(a, route, rollback));
      var e2 := Reboot(hash, workers, queueSize, owns);
      && Possible(w0, e0) && Possible(Following(w0, e0), Save([r]))
      && var w2 := Following(Following(w0, e0), Save([r]));
      && Possible(w2, e2) && Possible(Following(w2, e2), ReplayNext)
      && var w4 := Following(Following(w2, e2), ReplayNext);
      && w4.born == [PayloadOf(r)] && w4.unsaved == {}
      && (Missing(w4, 0) <==> !owns(r.alert.value))
  {
    var r := Delivery(1, Some(CloneWithoutDetails(a)), route);
    var w0, e0 := FirstBoot(hash, workers, queueSize, owns), Dispatch(Enqueue(a, route, rollback));
    var w2, e2 := Following(Following(w0, e0), Save([r])), Reboot(hash, workers, queueSize, owns);
    SaveOne(a, route, rollback, hash, workers, queueSize, owns);
    FirstBootIsSound(hash, workers, queueSize, owns);
    SoundStep(w0, e0);
    SoundStep(Following(w0, e0), Save([r]));
    ReplaysOne(w2, e2, r);
    BootKeepsOwned(w2, e2, [ReplayNext], 0);
  }

  lemma ReplaysOne(w: World, boot: Event, r: Delivery)
    requires WellFormed(r) && w.saved == Records([r], map[r.id := 0]) && w.born == [PayloadOf(r)] && w.unsaved == {}
    requires boot.Reboot? && boot.workers > 0
    ensures Boots(w, boot, [ReplayNext]) && Possible(Following(w, boot), ReplayNext)
    ensures var done := Following(Following(w, boot), ReplayNext);
      AfterAll(Following(w, boot), [ReplayNext]) == done && done.born == w.born && done.unsaved == {}
    ensures OwnedIn(w.saved, w.born, boot.owns, 0) <==> boot.owns(r.alert.value)
  {
    SortedStays([r]);
    var booted := Following(w, boot);
    var done := Following(booted, ReplayNext);
    assert booted.replay.list == [r] && done.replay.list == [];
    assert [ReplayNext][1..] == [] && IsHistory(done, []) && AfterAll(done, []) == done;
    assert Carries(w.saved.list[0], w.saved.births, w.born, 0);
  }
}
