/** The execution service itself: its fields, the single-threaded executor it feeds, and the
    worker that the executor drives. */
module ExecutionServices {
  import opened Wrappers
  import opened ServiceSpec
  import opened ServiceProofs
  import opened ExecutionWorkers

  /** The worker has been asked for exactly the jobs that ended, in order, with these
      outcomes; it is idle between jobs and closed only when nothing is left to do. */
  ghost predicate InStep(worker: ExecutionWorker, log: seq<Event>, queue: seq<Task>, closed: bool)
    reads worker
  {
    && worker.Valid() && worker.pending.None? && worker.queue == []
    && (worker.closed ==> closed && queue == [])
    && (log != [] && log[|log| - 1].task.job.CloseProvider? ==> worker.closed)
    && Matches(worker.calls, worker.provider, log)
  }

  /** These calls were made for the jobs that ended, with these outcomes. */
  ghost predicate Matches(calls: seq<ProviderCall>, provider: nat -> Outcome, log: seq<Event>) {
    && |calls| == |log|
    && forall k :: 0 <= k < |log| ==> calls[k] == CallOf(log[k].task.job) && log[k].outcome == provider(k)
  }

  lemma MatchesNext(calls: seq<ProviderCall>, provider: nat -> Outcome, log: seq<Event>, task: Task)
    requires Matches(calls, provider, log)
    ensures Matches(calls + [CallOf(task.job)], provider, log + [Ended(task, provider(|log|))])
  {
  }

  /** From s to r no job ended, the service was not closed, and if it is closed no job was
      taken on. */
  predicate Unmoved(s: State, r: State) {
    r.log == s.log && r.closed == s.closed && (s.closed ==> r.lease.None? && r.queue == s.queue)
  }

  lemma MaintainFrame(s: State, timeout: nat)
    requires s.closed ==> s.lease.None?
    ensures Unmoved(s, Maintain(s, timeout))
  {
  }

  lemma CheckFrame(s: State, timeout: nat, body: Body)
    requires s.closed ==> s.lease.None?
    ensures var (s1, refusal) := Check(s, timeout, body); Unmoved(s, s1) && (s.closed ==> refusal.Some?)
  {
    MaintainFrame(s, timeout);
  }

  lemma ServeFrame(s: State, timeout: nat, call: Call)
    requires s.closed ==> s.lease.None?
    ensures Unmoved(s, Serve(s, timeout, call).0)
  {
    if call.AcquireCall? {
      MaintainFrame(s, timeout);
    } else {
      CheckFrame(s, timeout, call.body);
    }
  }

  lemma ClosedHasNoLease(s: State, timeout: nat)
    requires Reached(s, timeout)
    ensures s.closed ==> s.lease.None?
  {
    ReachedKeeps(s, timeout);
  }

  /** The worker has just run the job at the head of the queue. */
  lemma Ran(worker: ExecutionWorker, calls: seq<ProviderCall>, s: State, outcome: Outcome)
    requires s.queue != [] && Matches(calls, worker.provider, s.log) && outcome == worker.provider(|s.log|)
    requires worker.Valid() && worker.pending.None? && worker.queue == []
    requires worker.calls == calls + [CallOf(s.queue[0].job)]
    requires worker.closed <==> s.queue[0].job.CloseProvider?
    requires s.queue[0].job.CloseProvider? ==> s.closed && s.queue[1..] == []
    ensures var r := RunHead(s, outcome); InStep(worker, r.log, r.queue, r.closed)
  {
    MatchesNext(calls, worker.provider, s.log, s.queue[0]);
  }

  /** When everything queued has ended, the close came last. */
  lemma CloseRuns(s: State, answers: nat -> Outcome)
    requires !s.closed
    ensures var r := RunAll(ServiceSpec.Close(s), answers);
      r.log != [] && r.log[|r.log| - 1].task.job.CloseProvider?
  {
    var closing := ServiceSpec.Close(s);
    RunAllEnds(closing, answers);
    var i := |closing.queue| - 1;
    assert RunAll(closing, answers).log[|s.log| + i].task == closing.queue[i];
  }

  lemma OthersRankLower(queue: seq<Task>)
    requires forall i, j :: 0 <= i < j < |queue| ==> Rank(queue[i].job) < Rank(queue[j].job)
    ensures |queue| > 1 ==> Rank(queue[0].job) < 2
  {
    if |queue| > 1 {
      assert Rank(queue[0].job) < Rank(queue[1].job);
    }
  }

  lemma CloseIsLast(s: State, timeout: nat)
    requires Reached(s, timeout) && s.queue != [] && s.queue[0].job.CloseProvider?
    ensures s.closed && s.queue[1..] == []
  {
    ReachedKeeps(s, timeout);
    OthersRankLower(s.queue);
  }

  /** What a call leaves behind is reachable, and the worker is still in step. */
  lemma Served(s: State, timeout: nat, call: Call, worker: ExecutionWorker)
    requires Reached(s, timeout) && InStep(worker, s.log, s.queue, s.closed)
    ensures var r := Serve(s, timeout, call).0; Reached(r, timeout) && InStep(worker, r.log, r.queue, r.closed)
  {
    ReachedSteps(s, timeout, CallOp(call));
    ClosedHasNoLease(s, timeout);
    ServeFrame(s, timeout, call);
  }

  lemma Maintained(s: State, timeout: nat, worker: ExecutionWorker)
    requires Reached(s, timeout) && InStep(worker, s.log, s.queue, s.closed)
    ensures var r := Maintain(s, timeout); Reached(r, timeout) && InStep(worker, r.log, r.queue, r.closed)
  {
    ReachedSteps(s, timeout, MaintainOp);
    ClosedHasNoLease(s, timeout);
    MaintainFrame(s, timeout);
  }

  class ExecutionService {
    const timeout: nat
    const worker: ExecutionWorker
    var now: nat
    var lease: Option<nat>
    var seen: nat
    var pending: Option<nat>
    var reset: Option<nat>
    var request: Option<nat>
    var failed: bool
    var closed: bool
    var nextLease: nat
    var queue: seq<Task>
    var nextTicket: nat
    var results: map<nat, Outcome>
    var log: seq<Event>
    var epoch: nat

    ghost function View(): (s: State)
      reads this
    {
      State(now, lease, seen, pending, reset, request, failed, closed, nextLease,
            queue, nextTicket, results, log, epoch)
    }

    /** The fields are always a state that a run of the service leads to, and the executor
        has kept the worker in step. */
    ghost predicate Valid()
      reads this, worker
    {
      Reached(View(), timeout) && InStep(worker, log, queue, closed)
    }

    constructor (worker: ExecutionWorker, timeout: nat)
      requires worker.Valid() && worker.calls == [] && worker.queue == [] && worker.pending.None? && !worker.closed
      ensures Valid() && View() == Init() && this.worker == worker && this.timeout == timeout
    {
      InitReached(timeout);
      this.worker, this.timeout := worker, timeout;
      now, lease, seen, pending, reset, request := 0, None, 0, None, None, None;
      failed, closed, nextLease, queue, nextTicket := false, false, 0, [], 0;
      results, log, epoch := map[], [], 0;
    }

    /** Hand a job to the executor; the ticket is its future. */
    method Enqueue(job: Job) returns (ticket: nat)
      modifies `queue, `nextTicket
      ensures View() == ServiceSpec.Enqueue(old(View()), job) && ticket == old(nextTicket)
    {
      ticket := nextTicket;
      queue, nextTicket := queue + [Task(ticket, job)], nextTicket + 1;
    }

    method BeginReset(release: bool)
      modifies this
      ensures View() == ServiceSpec.BeginReset(old(View()), release)
    {
      pending, request, epoch := None, None, epoch + 1;
      if reset.None? {
        var ticket := Enqueue(ResetProvider);
        reset := Some(ticket);
      }
      if release {
        lease := None;
      }
    }

    /** Expire the lease, and collect a reset that has ended. */
    method Refresh()
      modifies this
      ensures View() == ServiceSpec.Maintain(old(View()), timeout)
    {
      if lease.Some? && now - seen >= timeout {
        BeginReset(true);
      }
      if reset.Some? && reset.value in results {
        if results[reset.value].Raised? {
          failed := true;
        }
        reset := None;
      }
    }

    method Maintain()
      requires Valid()
      modifies this
      ensures Valid() && View() == ServiceSpec.Maintain(old(View()), timeout)
    {
      Maintained(View(), timeout, worker);
      Refresh();
    }

    method Acquire() returns (reply: Reply)
      requires Valid()
      modifies this
      ensures Valid() && (View(), reply) == ServiceSpec.Acquire(old(View()), timeout)
    {
      Served(View(), timeout, AcquireCall, worker);
      Refresh();
      if closed || failed {
        return Refused(503);
      }
      if lease.Some? || reset.Some? {
        return Refused(409);
      }
      var id := Grant();
      reply := Acquired(id);
    }

    /** A new lease. */
    method Grant() returns (id: nat)
      modifies `lease, `nextLease, `seen
      ensures id == old(nextLease)
      ensures View() == old(View()).(lease := Some(id), nextLease := id + 1, seen := now)
    {
      id := nextLease;
      lease, nextLease, seen := Some(id), id + 1, now;
    }

    method Check(body: Body) returns (refusal: Option<Reply>)
      modifies this
      ensures (View(), refusal) == ServiceSpec.Check(old(View()), timeout, body)
    {
      Refresh();
      if !body.current || lease != Some(body.lease) {
        return Some(Refused(409));
      }
      if closed || failed {
        return Some(Refused(503));
      }
      seen := now;
      refusal := None;
    }

    method Submit(body: Body, name: Request, inputs: Payload) returns (reply: Reply)
      requires Valid()
      modifies this
      ensures Valid() && (View(), reply) == ServiceSpec.Submit(old(View()), timeout, body, name, inputs)
    {
      Served(View(), timeout, SubmitCall(body, name, inputs), worker);
      var refusal := Check(body);
      if refusal.Some? {
        return refusal.value;
      }
      if pending.Some? || reset.Some? {
        return Refused(409);
      }
      if name.Malformed? {
        return Refused(400);
      }
      Admit(Execute(body.lease, epoch, name.id, inputs));
      reply := Accepted(name.id);
    }

    /** Take a request on. */
    method Admit(job: Job)
      requires job.Execute?
      modifies `request, `pending, `queue, `nextTicket
      ensures View() == ServiceSpec.Enqueue(old(View()), job).(
        request := Some(job.request), pending := Some(old(nextTicket)))
    {
      request := Some(job.request);
      var ticket := Enqueue(job);
      pending := Some(ticket);
    }

    method Result(body: Body, name: Request) returns (reply: Reply)
      requires Valid()
      modifies this
      ensures Valid() && (View(), reply) == ServiceSpec.Result(old(View()), timeout, body, name)
    {
      Served(View(), timeout, ResultCall(body, name), worker);
      var refusal := Check(body);
      if refusal.Some? {
        return refusal.value;
      }
      if pending.None? || name.Malformed? || request != Some(name.id) {
        return Refused(409);
      }
      if pending.value !in results {
        return StillRunning(name.id);
      }
      match results[pending.value] {
        case Returned(output) => reply := Ready(name.id, output);
        case Raised(kind) => reply := ProviderError(name.id, kind);
      }
    }

    method Acknowledge(body: Body, name: Request) returns (reply: Reply)
      requires Valid()
      modifies this
      ensures Valid() && (View(), reply) == ServiceSpec.Acknowledge(old(View()), timeout, body, name)
    {
      Served(View(), timeout, AckCall(body, name), worker);
      var refusal := Check(body);
      if refusal.Some? {
        return refusal.value;
      }
      if pending.None? || name.Malformed? || request != Some(name.id) || pending.value !in results {
        return Refused(409);
      }
      GiveUp();
      reply := Idle;
    }

    /** The retained result is no longer needed. */
    method GiveUp()
      modifies `pending, `request
      ensures View() == old(View()).(pending := None, request := None)
    {
      pending := None;
      request := None;
    }

    method Reset(body: Body) returns (reply: Reply)
      requires Valid()
      modifies this
      ensures Valid() && (View(), reply) == ServiceSpec.Reset(old(View()), timeout, body)
    {
      Served(View(), timeout, ResetCall(body), worker);
      var refusal := Check(body);
      if refusal.Some? {
        return refusal.value;
      }
      BeginReset(false);
      reply := Resetting;
    }

    method Status(body: Body) returns (reply: Reply)
      requires Valid()
      modifies this
      ensures Valid() && (View(), reply) == ServiceSpec.Status(old(View()), timeout, body)
    {
      Served(View(), timeout, StatusCall(body), worker);
      var refusal := Check(body);
      if refusal.Some? {
        return refusal.value;
      }
      reply := if reset.Some? then Resetting else Idle;
    }

    method Release(body: Body) returns (reply: Reply)
      requires Valid()
      modifies this
      ensures Valid() && (View(), reply) == ServiceSpec.Release(old(View()), timeout, body)
    {
      Served(View(), timeout, ReleaseCall(body), worker);
      var refusal := Check(body);
      if refusal.Some? {
        return refusal.value;
      }
      BeginReset(true);
      reply := Released;
    }

    /** The executor takes the job at the head of its queue through the worker. The worker
        never turns it away, and the outcome is the provider's answer to that one call. */
    method RunNext() returns (outcome: Outcome)
      requires Valid() && queue != []
      modifies this, worker
      ensures Valid() && View() == RunHead(old(View()), outcome)
      ensures worker.calls == old(worker.calls) + [CallOf(old(queue[0].job))]
      ensures outcome == worker.provider(|old(log)|)
    {
      ghost var before, calls := View(), worker.calls;
      var task := queue[0];
      if task.job.CloseProvider? {
        CloseIsLast(before, timeout);
      }
      outcome := RunJob(worker, task.job);
      ReachedSteps(before, timeout, ExecutorOp(outcome));
      Ran(worker, calls, before, outcome);
      Finish(outcome);
    }

    /** The job at the head of the queue has ended. */
    method Finish(outcome: Outcome)
      requires queue != []
      modifies `queue, `results, `log
      ensures View() == RunHead(old(View()), outcome)
    {
      var task := queue[0];
      queue, results, log := queue[1..], results[task.ticket := outcome], log + [Ended(task, outcome)];
    }

    /** The executor works until its queue is empty; the outcome is that of the last job. */
    method RunQueue() returns (last: Outcome)
      requires Valid() && queue != []
      modifies this, worker
      ensures Valid() && View() == RunAll(old(View()), worker.provider)
      ensures log != [] && last == log[|log| - 1].outcome
    {
      last := Raised("");
      while queue != []
        invariant Valid() && RunAll(View(), worker.provider) == RunAll(old(View()), worker.provider)
        invariant queue == old(queue) || (log != [] && last == log[|log| - 1].outcome)
        decreases |queue|
      {
        last := RunNext();
      }
    }

    /** Close once: no more leases, and wait until the executor has finished everything that
        was queued and closed the provider. The outcome is that of closing the provider. */
    method Close() returns (outcome: Option<Outcome>)
      requires Valid()
      modifies this, worker
      ensures Valid()
      ensures old(closed) ==> outcome == None && View() == old(View()) && worker.calls == old(worker.calls)
      ensures !old(closed) ==>
        && View() == RunAll(ServiceSpec.Close(old(View())), worker.provider) && worker.closed
        && worker.calls != [] && worker.calls[|worker.calls| - 1] == CallClose
        && outcome == Some(worker.provider(|worker.calls| - 1))
    {
      if closed {
        return None;
      }
      CloseRuns(View(), worker.provider);
      QueueClose();
      var last := RunQueue();
      outcome := Some(last);
    }

    /** Refuse new leases and queue the provider's close. */
    method QueueClose()
      requires Valid() && !closed
      modifies this
      ensures Valid() && View() == ServiceSpec.Close(old(View()))
    {
      ReachedSteps(View(), timeout, CloseOp);
      closed := true;
      lease := None;
      var _ := Enqueue(CloseProvider);
    }
  }
}
