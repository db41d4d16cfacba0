/** The resident worker: one provider behind a FIFO of calls, one uncollected request. */
module ExecutionWorkers {
  import opened Wrappers
  import opened ServiceSpec

  /** A call made of the provider. */
  datatype ProviderCall = CallExecute(inputs: Payload) | CallReset | CallClose

  datatype WorkerError = WorkerClosed | Busy | NoRequest

  datatype Submission = Submitted | Declined(error: WorkerError)

  datatype Collected = Collected(outcome: Outcome) | Failed(error: WorkerError)

  class ExecutionWorker {
    /** What the provider answers to the k-th call it is given: anything at all. */
    const provider: nat -> Outcome
    var queue: seq<(nat, ProviderCall)>
    var done: map<nat, Outcome>
    var calls: seq<ProviderCall>
    var nextTicket: nat
    var pending: Option<nat>
    var closed: bool

    /** Tickets are dense: the first |calls| are done, each with the provider's answer to
        that call, and the rest is queued. Nothing is queued but the uncollected request. */
    ghost predicate Valid()
      reads this
    {
      && nextTicket == |calls| + |queue|
      && (forall i :: 0 <= i < |queue| ==> queue[i].0 == |calls| + i)
      && (forall t :: t in done <==> 0 <= t < |calls|)
      && (forall t :: t in done ==> done[t] == provider(t))
      && (pending.Some? ==> pending.value < nextTicket)
      && (queue != [] ==> |queue| == 1 && pending == Some(queue[0].0) && queue[0].1.CallExecute?)
      && (closed ==> pending.None?)
    }

    constructor (provider: nat -> Outcome)
      ensures Valid() && this.provider == provider && calls == [] && queue == [] && pending.None? && !closed
    {
      this.provider := provider;
      queue, done, calls, nextTicket, pending, closed := [], map[], [], 0, None, false;
    }

    method Enqueue(call: ProviderCall) returns (ticket: nat)
      modifies `queue, `nextTicket
      ensures ticket == old(nextTicket) && nextTicket == ticket + 1 && queue == old(queue) + [(ticket, call)]
    {
      ticket := nextTicket;
      queue, nextTicket := queue + [(ticket, call)], nextTicket + 1;
    }

    ghost function Backlog(): (r: seq<ProviderCall>)
      reads this
    {
      seq(|queue|, i requires 0 <= i < |queue| reads this => queue[i].1)
    }

    /** The process works through its queue. */
    method Drain()
      requires |calls| + |queue| == nextTicket
      requires forall i :: 0 <= i < |queue| ==> queue[i].0 == |calls| + i
      requires forall t :: t in done <==> 0 <= t < |calls|
      requires forall t :: t in done ==> done[t] == provider(t)
      modifies `queue, `done, `calls
      ensures queue == [] && |calls| == nextTicket
      ensures calls == old(calls) + old(Backlog())
      ensures forall t :: t in done <==> 0 <= t < |calls|
      ensures forall t :: t in done ==> done[t] == provider(t)
    {
      ghost var backlog := Backlog();
      while queue != []
        invariant |calls| + |queue| == nextTicket
        invariant forall i :: 0 <= i < |queue| ==> queue[i].0 == |calls| + i
        invariant forall t :: t in done <==> 0 <= t < |calls|
        invariant forall t :: t in done ==> done[t] == provider(t)
        invariant calls + Backlog() == old(calls) + backlog
        decreases |queue|
      {
        assert Backlog() == [queue[0].1] + Backlog()[1..];
        done := done[queue[0].0 := provider(|calls|)];
        calls := calls + [queue[0].1];
        queue := queue[1..];
      }
    }

    method Submit(inputs: Payload) returns (r: Submission)
      requires Valid()
      modifies this
      ensures Valid() && calls == old(calls) && closed == old(closed)
      ensures r == if old(closed) then Declined(WorkerClosed)
                   else if old(pending).Some? then Declined(Busy) else Submitted
      ensures r.Declined? ==> pending == old(pending) && queue == old(queue)
      ensures r.Submitted? ==> pending == Some(|calls|) && Backlog() == [CallExecute(inputs)]
    {
      if closed {
        return Declined(WorkerClosed);
      }
      if pending.Some? {
        return Declined(Busy);
      }
      var ticket := Enqueue(CallExecute(inputs));
      pending := Some(ticket);
      r := Submitted;
    }

    /** Wait for the uncollected request and hand its outcome over, once. */
    method Result() returns (r: Collected)
      requires Valid()
      modifies this
      ensures Valid() && closed == old(closed) && pending.None?
      ensures calls == old(calls) + old(Backlog()) && queue == []
      ensures r == match old(pending)
                   case None => Failed(NoRequest)
                   case Some(ticket) => Collected(provider(ticket))
    {
      if pending.None? {
        return Failed(NoRequest);
      }
      Drain();
      r := Collected(done[pending.value]);
      pending := None;
    }

    /** Serialized behind the current request. When the provider's reset raises, a request
        that nobody has collected yet stays collectable. */
    method Reset() returns (r: Collected)
      requires Valid()
      modifies this
      ensures Valid() && closed == old(closed)
      ensures old(closed) ==>
        r == Failed(WorkerClosed) && calls == old(calls) && queue == old(queue) && pending == old(pending)
      ensures !old(closed) ==>
        && calls == old(calls) + old(Backlog()) + [CallReset] && queue == []
        && r == Collected(provider(|calls| - 1))
        && pending == if r.outcome.Returned? then None else old(pending)
    {
      if closed {
        return Failed(WorkerClosed);
      }
      var ticket := Enqueue(CallReset);
      assert Backlog() == old(Backlog()) + [CallReset];
      Drain();
      r := Collected(done[ticket]);
      if done[ticket].Returned? {
        pending := None;
      }
    }

    /** Close once, behind the current request; closing again does nothing. */
    method Close() returns (r: Option<Outcome>)
      requires Valid()
      modifies this
      ensures Valid() && closed && pending.None?
      ensures old(closed) ==> r.None? && calls == old(calls) && queue == old(queue)
      ensures !old(closed) ==>
        && calls == old(calls) + old(Backlog()) + [CallClose] && queue == []
        && r == Some(provider(|calls| - 1))
    {
      if closed {
        return None;
      }
      closed := true;
      var ticket := Enqueue(CallClose);
      assert Backlog() == old(Backlog()) + [CallClose];
      Drain();
      r := Some(done[ticket]);
      pending := None;
    }
  }

  /** What the service asks of the worker for each of its jobs. */
  function CallOf(job: Job): ProviderCall {
    match job
    case Execute(_, _, _, inputs) => CallExecute(inputs)
    case ResetProvider => CallReset
    case CloseProvider => CallClose
  }

  /** Run one job of the service on an idle, open worker. It is never turned away, makes
      exactly one call of the provider, ends with the answer to that call, and leaves
      the worker idle. */
  method RunJob(worker: ExecutionWorker, job: Job) returns (outcome: Outcome)
    requires worker.Valid() && worker.pending.None? && !worker.closed
    modifies worker
    ensures worker.Valid() && worker.pending.None? && worker.queue == []
    ensures worker.calls == old(worker.calls) + [CallOf(job)]
    ensures outcome == worker.provider(|old(worker.calls)|)
    ensures worker.closed <==> job.CloseProvider?
  {
    match job {
      case Execute(_, _, _, inputs) =>
        var submission := worker.Submit(inputs);
        var result := worker.Result();
        outcome := result.outcome;
      case ResetProvider =>
        var result := worker.Reset();
        outcome := result.outcome;
      case CloseProvider =>
        var result := worker.Close();
        outcome := result.value;
    }
  }
}
