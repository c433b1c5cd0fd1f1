/** One queue of the dispatch pool with its worker, as the object the goroutines share
    (submit, the worker loop and settle in internal/app/dispatcher.go). Each method is one
    step of the pool's state machine, or the two halves of settle in a row. */
module Pool {
  import opened Wrappers
  import opened Alerts
  import opened Dispatcher
  import opened DurableOutbox

  /** What becomes of one submission. */
  datatype Fate = Accepted | Dropped | Parked

  class Queue {
    const capacity: nat
    var jobs: seq<Job>
    var parked: Option<Job>
    var draining: bool
    var worker: Worker
    ghost var log: seq<Entry>
    ghost var taken: nat

    ghost function View(): Lane
      reads this
    {
      Lane(jobs, parked, draining, worker, log, taken)
    }

    constructor (capacity: nat)
      ensures View() == EMPTY_LANE && this.capacity == capacity
    {
      this.capacity := capacity;
      jobs, parked, draining, worker, log, taken := [], None, false, Idle, [], 0;
    }

    /** submit: the producer parks, holding the queue's lock, when the queue is full. */
    method Submit(j: Job, closed: bool) returns (fate: Fate)
      requires parked.None?
      modifies this
      ensures closed ==> fate == Dropped && View() == old(View()).(log := old(log) + [Entry(j, false)])
      ensures !closed ==> View() == Submitted(old(View()), j, capacity)
      ensures !closed ==> fate == if old(draining) then Dropped else if |old(jobs)| < capacity then Accepted else Parked
    {
      if closed || draining {
        log := log + [Entry(j, false)];
        return Dropped;
      }
      if |jobs| < capacity {
        jobs, log := jobs + [j], log + [Entry(j, true)];
        return Accepted;
      }
      parked := Some(j);
      fate := Parked;
    }

    /** The parked producer's select: a free slot, or the stop signal, after which this
        queue takes nothing more. */
    method Wake(stopped: bool) returns (fate: Fate)
      requires parked.Some? && (stopped || |jobs| < capacity)
      modifies this
      ensures fate == Accepted || (fate == Dropped && stopped)
      ensures fate == Accepted ==> |old(jobs)| < capacity && View() == old(View()).(parked := None,
        queue := old(jobs) + [old(parked).value], log := old(log) + [Entry(old(parked).value, true)])
      ensures fate == Dropped ==> View() == old(View()).(parked := None,
        draining := true, log := old(log) + [Entry(old(parked).value, false)])
    {
      var j := parked.value;
      parked := None;
      if
      case |jobs| < capacity =>
        jobs, log := jobs + [j], log + [Entry(j, true)];
        fate := Accepted;
      case stopped =>
        draining, log := true, log + [Entry(j, false)];
        fate := Dropped;
    }

    /** The worker receives its next job. */
    method Receive() returns (j: Job)
      requires worker.Idle? && jobs != []
      modifies this
      ensures j == old(jobs)[0]
      ensures View() == old(View()).(queue := old(jobs)[1..], worker := Sending(j), taken := old(taken) + 1)
    {
      j := jobs[0];
      jobs, worker, taken := jobs[1..], Sending(j), taken + 1;
    }

    /** settle: a failed resolve comes back as a retry and stays in the outbox; every
        other delivery gets its outcome and leaves it. */
    method Settle(delivered: bool, outbox: OutboxStore) returns (retry: Option<Job>, outcome: Option<Outcome>)
      requires worker.Sending? && outbox.Valid()
      modifies this, outbox
      ensures outbox.Valid() && outbox.nextID == old(outbox.nextID) && View() == old(View()).(worker := Idle)
      ensures var j := old(worker).job;
        if WillRetry(j, delivered)
        then
          && retry == Some(Retried(j)) && outcome == None
          && outbox.pending == old(outbox.pending) && outbox.gen == old(outbox.gen)
        else
          && retry == None && outcome.Some? && Settled(j, delivered) == Settling(j, outcome.value)
          && outbox.pending == old(outbox.pending) - {j.id}
          && outbox.gen == old(outbox.gen) + (if j.id in old(outbox.pending) then 1 else 0)
      ensures var j := old(worker).job;
        && (outcome == Some(Delivered) <==> delivered)
        && (outcome == Some(RolledBack) <==> !delivered && j.rollback)
        && (retry.Some? <==> !delivered && !j.rollback && j.alert.resolved && j.retries < MAX_RESOLVE_RETRIES)
    {
      var j := worker.job;
      worker, retry := Idle, None;
      if delivered {
        outbox.Done(j.id);
        return None, Some(Delivered);
      }
      if j.rollback {
        outbox.Done(j.id);
        return None, Some(RolledBack);
      }
      if j.alert.resolved && j.retries < MAX_RESOLVE_RETRIES {
        return Some(j.(retries := j.retries + 1)), None;
      }
      outbox.Done(j.id);
      outcome := Some(DeadLettered);
    }
  }

  // ---------------------------------------------------------------- the methods are the machine's steps

  /** submit is Enter, and Offer when the pool is open. */
  lemma SubmitIsEnterThenOffer(s: State, j: Job)
    requires Enabled(s, Enter(j)) && s.lanes[LaneOf(s, j.alert)].parked.None?
    ensures var i, entered := LaneOf(s, j.alert), Next(s, Enter(j));
      && (s.closed ==> entered.lanes[i] == s.lanes[i].(log := s.lanes[i].log + [Entry(j, false)]))
      && (!s.closed ==> Enabled(entered, Offer(j))
                        && Next(entered, Offer(j)).lanes[i] == Submitted(s.lanes[i], j, s.capacity))
  {
  }

  /** settle is Finish, and Ack unless a retry is due. */
  lemma SettleIsFinishThenAck(s: State, i: nat, delivered: bool)
    requires Enabled(s, Finish(i, delivered))
    ensures var j, finished := s.lanes[i].worker.job, Next(s, Finish(i, delivered));
      if WillRetry(j, delivered)
      then finished.lanes[i] == s.lanes[i].(worker := Idle) && finished.outbox == s.outbox
           && finished.flight.timers == s.flight.timers + multiset{Retried(j)}
      else
        && finished.lanes[i].worker == Settled(j, delivered) && Enabled(finished, Ack(i))
        && Next(finished, Ack(i)).lanes[i] == s.lanes[i].(worker := Idle)
        && Next(finished, Ack(i)).outbox.pending == s.outbox.pending - {j.id}
  {
  }
}
