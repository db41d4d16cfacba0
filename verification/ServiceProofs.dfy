/** What every run of the execution service keeps: the executor is never asked for more
    than one execution, one reset and one close, and executions are isolated by resets. */
module ServiceProofs {
  import opened Wrappers
  import opened ServiceSpec

  function Rank(job: Job): nat {
    match job case Execute(_, _, _, _) => 0 case ResetProvider => 1 case CloseProvider => 2
  }

  predicate ExecAt(log: seq<Event>, k: nat) { k < |log| && log[k].task.job.Execute? }

  predicate GoodReset(log: seq<Event>, k: nat) {
    k < |log| && log[k].task.job.ResetProvider? && log[k].outcome.Returned?
  }

  predicate BadReset(log: seq<Event>, k: nat) {
    k < |log| && log[k].task.job.ResetProvider? && log[k].outcome.Raised?
  }

  predicate Executing(s: State) { s.queue != [] && s.queue[0].job.Execute? }

  /** A successful reset lies between two positions of the history. */
  ghost predicate ResetBetween(log: seq<Event>, i: nat, j: nat) {
    exists k: nat :: i < k < j && GoodReset(log, k)
  }

  // ---- the executor's queue --------------------------------------------------

  /** At most an execution, then a reset, then a close; tickets in order and fresh. */
  ghost predicate QueueOk(queue: seq<Task>, nextTicket: nat, results: map<nat, Outcome>, closed: bool) {
    && (forall i, j :: 0 <= i < j < |queue| ==>
          Rank(queue[i].job) < Rank(queue[j].job) && queue[i].ticket < queue[j].ticket)
    && (forall i :: 0 <= i < |queue| ==> queue[i].ticket < nextTicket && queue[i].ticket !in results)
    && (forall t :: t in results ==> t < nextTicket)
    && (forall i :: 0 <= i < |queue| && queue[i].job.CloseProvider? ==> closed)
  }

  /** The reset with this ticket waits behind at most one execution. */
  predicate ResetQueued(queue: seq<Task>, ticket: nat) {
    var i := if queue != [] && queue[0].job.Execute? then 1 else 0;
    i < |queue| && queue[i] == Task(ticket, ResetProvider)
  }

  /** The futures the service holds are in the queue or done. A pending request excludes a
      reset; an execution nobody waits for any more has a reset behind it. */
  ghost predicate FuturesOk(s: State) {
    && (s.closed ==> s.lease.None?)
    && (s.reset.Some? ==> s.pending.None? && s.reset.value < s.nextTicket)
    && (forall i :: 0 <= i < |s.queue| && s.queue[i].job.ResetProvider? ==> s.reset == Some(s.queue[i].ticket))
    && (s.reset.Some? && !Done(s, s.reset.value) ==> ResetQueued(s.queue, s.reset.value))
    && (s.reset.Some? && Done(s, s.reset.value) ==> !Executing(s))
    && (s.pending.Some? <==> s.request.Some?)
    && (s.pending.Some? ==> s.pending.value < s.nextTicket)
    && (s.pending.Some? && !Done(s, s.pending.value) ==> Executing(s) && s.queue[0].ticket == s.pending.value)
    && (Executing(s) && s.reset.None? ==> s.pending == Some(s.queue[0].ticket))
  }

  /** The history and the outcomes agree. */
  ghost predicate ResultsOk(log: seq<Event>, results: map<nat, Outcome>) {
    && (forall k :: 0 <= k < |log| ==> log[k].task.ticket in results && results[log[k].task.ticket] == log[k].outcome)
    && (forall t :: t in results ==> exists k: nat :: k < |log| && log[k].task.ticket == t)
  }

  // ---- what ran for whom -----------------------------------------------------

  /** Job j ran or waits under an epoch that fits the service's. */
  ghost predicate Attributed(job: Job, epoch: nat, nextLease: nat, holder: Option<nat>, closed: bool) {
    job.Execute? ==>
      && job.epoch <= epoch && job.lease < nextLease
      && (job.epoch == epoch ==> closed || holder == Some(job.lease))
  }

  ghost predicate AttributionOk(log: seq<Event>, queue: seq<Task>, epoch: nat, nextLease: nat, holder: Option<nat>,
                        closed: bool) {
    && (holder.Some? ==> holder.value < nextLease)
    && (forall k :: 0 <= k < |log| ==> Attributed(log[k].task.job, epoch, nextLease, holder, closed))
    && (forall i :: 0 <= i < |queue| ==> Attributed(queue[i].job, epoch, nextLease, holder, closed))
  }

  ghost predicate SameLease(a: Job, b: Job) {
    a.Execute? && b.Execute? && a.epoch == b.epoch ==> a.lease == b.lease
  }

  /** Executions of one epoch are executions of one lease. */
  ghost predicate LeasesOk(log: seq<Event>, queue: seq<Task>) {
    && (forall i, k :: 0 <= i < k < |log| ==> SameLease(log[i].task.job, log[k].task.job))
    && (queue != [] ==> forall i :: 0 <= i < |log| ==> SameLease(log[i].task.job, queue[0].job))
  }

  /** The pending request is what ran, or waits, under its ticket. */
  ghost predicate IsPending(task: Task, pending: Option<nat>, request: Option<nat>, epoch: nat) {
    pending == Some(task.ticket) && request.Some? ==>
      task.job.Execute? && task.job.epoch == epoch && task.job.request == request.value
  }

  ghost predicate PendingOk(log: seq<Event>, queue: seq<Task>, pending: Option<nat>, request: Option<nat>, epoch: nat) {
    && (forall k :: 0 <= k < |log| ==> IsPending(log[k].task, pending, request, epoch))
    && (forall i :: 0 <= i < |queue| ==> IsPending(queue[i], pending, request, epoch))
  }

  // ---- isolation -------------------------------------------------------------

  ghost predicate Isolated(log: seq<Event>) {
    forall i: nat, j: nat ::
      i < j && ExecAt(log, i) && ExecAt(log, j) && log[i].task.job.epoch != log[j].task.job.epoch ==>
        ResetBetween(log, i, j)
  }

  /** Every execution of another epoch than e lies before a successful reset. */
  ghost predicate Cleared(log: seq<Event>, e: nat) {
    forall i: nat :: ExecAt(log, i) && log[i].task.job.epoch != e ==> ResetBetween(log, i, |log|)
  }

  ghost predicate AllCleared(log: seq<Event>) {
    forall i: nat :: ExecAt(log, i) ==> ResetBetween(log, i, |log|)
  }

  ghost predicate NoneAfter(log: seq<Event>, k: nat) {
    forall j: nat :: k < j ==> !ExecAt(log, j)
  }

  /** A reset has failed, and nothing was executed since. */
  ghost predicate Poisoned(log: seq<Event>) {
    exists k: nat :: BadReset(log, k)
  }

  ghost predicate StoppedOk(log: seq<Event>) {
    forall k: nat :: BadReset(log, k) ==> NoneAfter(log, k)
  }

  /** The reset that the service holds has ended by raising. */
  predicate ResetRaised(s: State) {
    s.reset.Some? && Done(s, s.reset.value) && s.results[s.reset.value].Raised?
  }

  ghost predicate IsolationOk(s: State) {
    && Isolated(s.log) && StoppedOk(s.log)
    && (Executing(s) ==> Cleared(s.log, s.queue[0].job.epoch))
    && (s.reset.None? && !s.failed ==> Cleared(s.log, s.epoch) && (Executing(s) ==> s.queue[0].job.epoch == s.epoch))
    && (s.reset.Some? && Done(s, s.reset.value) && !ResetRaised(s) && !s.failed ==> AllCleared(s.log))
    && (Poisoned(s.log) ==> (s.failed || ResetRaised(s)) && !Executing(s))
    && (s.failed ==> !Executing(s))
  }

  ghost predicate Inv(s: State) {
    && QueueOk(s.queue, s.nextTicket, s.results, s.closed) && FuturesOk(s)
    && ResultsOk(s.log, s.results)
    && AttributionOk(s.log, s.queue, s.epoch, s.nextLease, s.lease, s.closed)
    && LeasesOk(s.log, s.queue)
    && PendingOk(s.log, s.queue, s.pending, s.request, s.epoch)
    && IsolationOk(s)
  }

  // ---- steps -----------------------------------------------------------------

  /** Forget the pending request, and queue a reset unless one is outstanding. */
  lemma FreshResetKeeps(s: State)
    requires Inv(s) && s.lease.Some? && s.reset.None?
    ensures Inv(BeginReset(s, false))
  {
    FreshResetQueue(s);
    assert IsolationOk(BeginReset(s, false));
  }

  lemma FreshResetQueue(s: State)
    requires QueueOk(s.queue, s.nextTicket, s.results, s.closed) && FuturesOk(s) && s.lease.Some? && s.reset.None?
    ensures var r := BeginReset(s, false);
      QueueOk(r.queue, r.nextTicket, r.results, r.closed) && FuturesOk(r)
  {
  }

  lemma RepeatedResetKeeps(s: State)
    requires Inv(s) && s.lease.Some? && s.reset.Some?
    ensures Inv(BeginReset(s, false))
  {
  }

  lemma ReleaseKeeps(s: State)
    requires Inv(s)
    requires forall k :: 0 <= k < |s.log| && s.log[k].task.job.Execute? ==> s.log[k].task.job.epoch < s.epoch
    requires Executing(s) ==> s.queue[0].job.epoch < s.epoch
    ensures Inv(s.(lease := None))
  {
  }

  lemma OlderEpochs(s: State, release: bool)
    requires Inv(s)
    ensures var r := BeginReset(s, release);
      && (forall k :: 0 <= k < |r.log| && r.log[k].task.job.Execute? ==> r.log[k].task.job.epoch < r.epoch)
      && (Executing(r) ==> r.queue[0].job.epoch < r.epoch)
  {
    assert forall k :: 0 <= k < |s.log| ==> Attributed(s.log[k].task.job, s.epoch, s.nextLease, s.lease, s.closed);
  }

  lemma BeginResetKeeps(s: State, release: bool)
    requires Inv(s) && s.lease.Some?
    ensures Inv(BeginReset(s, release))
  {
    if s.reset.None? {
      FreshResetKeeps(s);
    } else {
      RepeatedResetKeeps(s);
    }
    if release {
      OlderEpochs(s, false);
      ReleaseKeeps(BeginReset(s, false));
    }
  }

  lemma CollectKeeps(s: State)
    requires Inv(s)
    ensures Inv(Collect(s))
  {
  }

  lemma MaintainKeeps(s: State, timeout: nat)
    requires Inv(s)
    ensures Inv(Maintain(s, timeout))
  {
    if s.lease.Some? && s.now - s.seen >= timeout {
      BeginResetKeeps(s, true);
      CollectKeeps(BeginReset(s, true));
    } else {
      CollectKeeps(s);
    }
  }

  lemma AcquireKeeps(s: State, timeout: nat)
    requires Inv(s)
    ensures Inv(Acquire(s, timeout).0)
  {
    MaintainKeeps(s, timeout);
  }

  lemma CheckKeeps(s: State, timeout: nat, body: Body)
    requires Inv(s)
    ensures var (s1, refusal) := Check(s, timeout, body);
      Inv(s1) && (refusal.None? ==> s1.lease == Some(body.lease) && !s1.closed && !s1.failed)
  {
    MaintainKeeps(s, timeout);
  }

  /** A leased service without a pending request or a reset takes on an execution. */
  lemma SubmitKeeps(s: State, timeout: nat, body: Body, request: Request, inputs: Payload)
    requires Inv(s)
    ensures Inv(Submit(s, timeout, body, request, inputs).0)
  {
    CheckKeeps(s, timeout, body);
    var (s1, refusal) := Check(s, timeout, body);
    if refusal.None? && s1.pending.None? && s1.reset.None? && request.Name? {
      AdmitKeeps(s1, body.lease, request.id, inputs);
    }
  }

  /** The state after an admitted submit. */
  function Admit(s: State, lease: nat, request: nat, inputs: Payload): State {
    Enqueue(s, Execute(lease, s.epoch, request, inputs)).(request := Some(request), pending := Some(s.nextTicket))
  }

  lemma AdmitKeeps(s: State, lease: nat, request: nat, inputs: Payload)
    requires Inv(s) && s.lease == Some(lease) && !s.failed && s.pending.None? && s.reset.None?
    ensures Inv(Admit(s, lease, request, inputs))
  {
    assert s.queue == [];
  }

  lemma AckKeeps(s: State, timeout: nat, body: Body, request: Request)
    requires Inv(s)
    ensures Inv(Acknowledge(s, timeout, body, request).0)
  {
    CheckKeeps(s, timeout, body);
  }

  lemma ResultKeeps(s: State, timeout: nat, body: Body, request: Request)
    requires Inv(s)
    ensures Inv(Result(s, timeout, body, request).0)
  {
    CheckKeeps(s, timeout, body);
  }

  lemma ResetCallKeeps(s: State, timeout: nat, body: Body)
    requires Inv(s)
    ensures Inv(Reset(s, timeout, body).0)
  {
    CheckKeeps(s, timeout, body);
    var (s1, refusal) := Check(s, timeout, body);
    if refusal.None? {
      BeginResetKeeps(s1, false);
    }
  }

  lemma StatusKeeps(s: State, timeout: nat, body: Body)
    requires Inv(s)
    ensures Inv(Status(s, timeout, body).0)
  {
    CheckKeeps(s, timeout, body);
  }

  lemma ReleaseCallKeeps(s: State, timeout: nat, body: Body)
    requires Inv(s)
    ensures Inv(Release(s, timeout, body).0)
  {
    CheckKeeps(s, timeout, body);
    var (s1, refusal) := Check(s, timeout, body);
    if refusal.None? {
      BeginResetKeeps(s1, true);
    }
  }

  lemma ServeKeeps(s: State, timeout: nat, call: Call)
    requires Inv(s)
    ensures Inv(Serve(s, timeout, call).0)
  {
    match call
    case AcquireCall => AcquireKeeps(s, timeout);
    case SubmitCall(body, request, inputs) => SubmitKeeps(s, timeout, body, request, inputs);
    case ResultCall(body, request) => ResultKeeps(s, timeout, body, request);
    case AckCall(body, request) => AckKeeps(s, timeout, body, request);
    case ResetCall(body) => ResetCallKeeps(s, timeout, body);
    case StatusCall(body) => StatusKeeps(s, timeout, body);
    case ReleaseCall(body) => ReleaseCallKeeps(s, timeout, body);
  }

  /** Closing takes the lease away and puts a close behind everything queued. */
  lemma CloseQueue(s: State)
    requires QueueOk(s.queue, s.nextTicket, s.results, s.closed) && FuturesOk(s)
    ensures var r := Close(s); QueueOk(r.queue, r.nextTicket, r.results, r.closed) && FuturesOk(r)
  {
  }

  lemma CloseKeeps(s: State)
    requires Inv(s)
    ensures Inv(Close(s))
  {
    CloseQueue(s);
  }

  // ---- the executor ----------------------------------------------------------

  lemma {:induction false} ResetBetweenExtends(log: seq<Event>, event: Event, i: nat, j: nat)
    requires j <= |log| && ResetBetween(log, i, j)
    ensures ResetBetween(log + [event], i, j) && ResetBetween(log + [event], i, j + 1)
  {
    var k: nat :| i < k < j && GoodReset(log, k);
    assert GoodReset(log + [event], k);
  }

  /** An execution joins the history of its epoch. */
  lemma ExecuteIsolated(log: seq<Event>, event: Event)
    requires Isolated(log) && StoppedOk(log) && !Poisoned(log)
    requires event.task.job.Execute? && Cleared(log, event.task.job.epoch)
    ensures Isolated(log + [event]) && StoppedOk(log + [event]) && !Poisoned(log + [event])
    ensures forall e :: e == event.task.job.epoch ==> Cleared(log + [event], e)
  {
    var log' := log + [event];
    assert forall k: nat :: BadReset(log', k) ==> BadReset(log, k);
    forall i: nat, j: nat |
      i < j && ExecAt(log', i) && ExecAt(log', j) && log'[i].task.job.epoch != log'[j].task.job.epoch
      ensures ResetBetween(log', i, j)
    {
      assert ExecAt(log, i);
      if j < |log| {
        assert ExecAt(log, j);
      }
      ResetBetweenExtends(log, event, i, j);
    }
    forall i: nat | ExecAt(log', i) && log'[i].task.job.epoch != event.task.job.epoch
      ensures ResetBetween(log', i, |log'|)
    {
      assert ExecAt(log, i);
      ResetBetweenExtends(log, event, i, |log|);
    }
  }

  /** A reset or a close adds no execution; a good reset clears everything before it. */
  lemma OtherIsolated(log: seq<Event>, event: Event)
    requires Isolated(log) && StoppedOk(log) && !event.task.job.Execute?
    ensures Isolated(log + [event]) && StoppedOk(log + [event])
    ensures GoodReset(log + [event], |log|) ==> AllCleared(log + [event])
    ensures AllCleared(log) ==> AllCleared(log + [event])
    ensures forall e :: Cleared(log, e) ==> Cleared(log + [event], e)
    ensures Poisoned(log + [event]) <==> Poisoned(log) || BadReset(log + [event], |log|)
  {
    var log' := log + [event];
    assert forall k: nat :: ExecAt(log', k) <==> ExecAt(log, k);
    assert forall k: nat :: k < |log| ==> (BadReset(log', k) <==> BadReset(log, k));
    forall i: nat, j: nat | j <= |log| && ResetBetween(log, i, j)
      ensures ResetBetween(log', i, j) && ResetBetween(log', i, j + 1)
    {
      ResetBetweenExtends(log, event, i, j);
    }
    if k: nat :| BadReset(log, k) {
      assert BadReset(log', k);
    }
  }

  lemma RunHeadQueue(s: State, outcome: Outcome)
    requires Inv(s) && s.queue != []
    ensures var r := RunHead(s, outcome);
      QueueOk(r.queue, r.nextTicket, r.results, r.closed) && FuturesOk(r)
  {
  }

  lemma RunHeadResults(s: State, outcome: Outcome)
    requires ResultsOk(s.log, s.results) && s.queue != [] && s.queue[0].ticket !in s.results
    ensures var r := RunHead(s, outcome); ResultsOk(r.log, r.results)
  {
    var r := RunHead(s, outcome);
    assert r.log[|s.log|].task == s.queue[0];
    forall t | t in r.results ensures exists k: nat :: k < |r.log| && r.log[k].task.ticket == t {
      if t != s.queue[0].ticket {
        var k: nat :| k < |s.log| && s.log[k].task.ticket == t;
        assert r.log[k].task.ticket == t;
      } else {
        assert r.log[|s.log|].task.ticket == t;
      }
    }
  }

  lemma RunHeadBooks(s: State, outcome: Outcome)
    requires Inv(s) && s.queue != []
    ensures var r := RunHead(s, outcome);
      && QueueOk(r.queue, r.nextTicket, r.results, r.closed) && FuturesOk(r)
      && ResultsOk(r.log, r.results)
  {
    RunHeadQueue(s, outcome);
    RunHeadResults(s, outcome);
  }

  lemma RunHeadAttribution(s: State, outcome: Outcome)
    requires Inv(s) && s.queue != []
    ensures var r := RunHead(s, outcome);
      && AttributionOk(r.log, r.queue, r.epoch, r.nextLease, r.lease, r.closed)
      && LeasesOk(r.log, r.queue)
      && PendingOk(r.log, r.queue, r.pending, r.request, r.epoch)
  {
  }

  lemma RunHeadIsolation(s: State, outcome: Outcome)
    requires Inv(s) && s.queue != []
    ensures IsolationOk(RunHead(s, outcome))
  {
    var event := Ended(s.queue[0], outcome);
    if Executing(s) {
      ExecuteIsolated(s.log, event);
    } else {
      OtherIsolated(s.log, event);
    }
  }

  lemma RunHeadKeeps(s: State, outcome: Outcome)
    requires Inv(s) && s.queue != []
    ensures Inv(RunHead(s, outcome))
  {
    RunHeadBooks(s, outcome);
    RunHeadAttribution(s, outcome);
    RunHeadIsolation(s, outcome);
  }

  // ---- runs ------------------------------------------------------------------

  lemma StepKeeps(s: State, timeout: nat, op: Op)
    requires Inv(s)
    ensures Inv(Step(s, timeout, op))
  {
    match op
    case CallOp(call) => ServeKeeps(s, timeout, call);
    case MaintainOp => MaintainKeeps(s, timeout);
    case CloseOp => CloseKeeps(s);
    case ExecutorOp(outcome) =>
      if s.queue != [] {
        RunHeadKeeps(s, outcome);
      }
    case ClockOp(_) =>
  }

  lemma StepAtKeeps(states: seq<State>, ops: seq<Op>, timeout: nat, i: nat)
    requires |states| == |ops| + 1 && i < |ops| && StepAt(states, ops, timeout, i) && Inv(states[i])
    ensures Inv(states[i + 1])
  {
    StepKeeps(states[i], timeout, ops[i]);
  }

  lemma {:induction false} RunKeeps(states: seq<State>, ops: seq<Op>, timeout: nat, n: nat)
    requires IsRun(states, ops, timeout) && Inv(states[0]) && n <= |ops|
    ensures Inv(states[n])
  {
    if n > 0 {
      RunKeeps(states, ops, timeout, n - 1);
      StepAtKeeps(states, ops, timeout, n - 1);
    }
  }

  lemma InitReached(timeout: nat)
    ensures Reached(Init(), timeout)
  {
    assert IsRun([Init()], [], timeout);
  }

  /** What a step leaves behind is reachable again. */
  lemma ReachedSteps(s: State, timeout: nat, op: Op)
    requires Reached(s, timeout)
    ensures Reached(Step(s, timeout, op), timeout)
  {
    var states: seq<State>, ops: seq<Op> :| IsRun(states, ops, timeout) && states[0] == Init() && states[|ops|] == s;
    RunExtends(states, ops, timeout, op);
    assert (states + [Step(s, timeout, op)])[|ops + [op]|] == Step(s, timeout, op);
  }

  lemma RunExtends(states: seq<State>, ops: seq<Op>, timeout: nat, op: Op)
    requires IsRun(states, ops, timeout)
    ensures IsRun(states + [Step(states[|ops|], timeout, op)], ops + [op], timeout)
  {
    var states', ops' := states + [Step(states[|ops|], timeout, op)], ops + [op];
    forall i: nat | i < |ops'| ensures StepAt(states', ops', timeout, i) {
      if i < |ops| {
        assert StepAt(states, ops, timeout, i);
      }
    }
  }

  lemma ReachedKeeps(s: State, timeout: nat)
    requires Reached(s, timeout)
    ensures Inv(s)
  {
    var states: seq<State>, ops: seq<Op> :| IsRun(states, ops, timeout) && states[0] == Init() && states[|ops|] == s;
    RunKeeps(states, ops, timeout, |ops|);
  }

  // ---- what it means ---------------------------------------------------------

  /** Lease isolation: between any two executions of different leases, or on either side of
      a reset that a client or an expiry began, lies a successful provider reset. */
  lemma LeaseIsolation(s: State, timeout: nat, i: nat, j: nat)
    requires Reached(s, timeout) && i < j && ExecAt(s.log, i) && ExecAt(s.log, j)
    requires s.log[i].task.job.lease != s.log[j].task.job.lease || s.log[i].task.job.epoch != s.log[j].task.job.epoch
    ensures ResetBetween(s.log, i, j)
  {
    ReachedKeeps(s, timeout);
    assert SameLease(s.log[i].task.job, s.log[j].task.job);
  }

  /** After a failed reset nothing is executed, and nothing is waiting to be. */
  lemma FailedResetStops(s: State, timeout: nat, k: nat)
    requires Reached(s, timeout) && BadReset(s.log, k)
    ensures NoneAfter(s.log, k) && !Executing(s)
  {
    ReachedKeeps(s, timeout);
    assert Poisoned(s.log);
  }

  /** The executor never holds more than one execution, one reset and one close. */
  lemma BoundedQueue(s: State, timeout: nat)
    requires Reached(s, timeout)
    ensures |s.queue| <= 3 && forall i, j :: 0 <= i < j < |s.queue| ==> Rank(s.queue[i].job) < Rank(s.queue[j].job)
  {
    ReachedKeeps(s, timeout);
    if s.queue != [] {
      RanksGrow(s.queue, |s.queue| - 1);
    }
  }

  lemma {:induction false} RanksGrow(q: seq<Task>, i: nat)
    requires i < |q| && forall j, k :: 0 <= j < k < |q| ==> Rank(q[j].job) < Rank(q[k].job)
    ensures Rank(q[i].job) >= i
  {
    if i > 0 {
      RanksGrow(q, i - 1);
    }
  }

  /** A result that is handed out was returned by an execution of the caller's own lease
      and request, submitted since the last reset began. */
  lemma ResultIsFresh(s: State, timeout: nat, body: Body, request: Request) returns (k: nat)
    requires Reached(s, timeout) && Result(s, timeout, body, request).1.Ready?
    ensures var reply := Result(s, timeout, body, request).1;
      && k < |s.log| && request == Name(reply.request) && s.log[k].outcome == Returned(reply.output)
      && var job := s.log[k].task.job;
         job.Execute? && job.lease == body.lease && job.request == reply.request && job.epoch == s.epoch
  {
    ReachedKeeps(s, timeout);
    CheckKeeps(s, timeout, body);
    var s1 := Result(s, timeout, body, request).0;
    var t := s1.pending.value;
    k :| k < |s1.log| && s1.log[k].task.ticket == t;
    assert IsPending(s1.log[k].task, s1.pending, s1.request, s1.epoch);
    assert Attributed(s1.log[k].task.job, s1.epoch, s1.nextLease, s1.lease, s1.closed);
  }

  /** A close, or an acknowledgement that is taken. A reset or a release that is taken
      begins another epoch. */
  predicate GivesUp(s: State, timeout: nat, op: Op) {
    || op.CloseOp?
    || (op.CallOp? && op.call.AckCall? && !Serve(s, timeout, op.call).1.Refused?)
  }

  /** The service still holds the same answer for the same caller. */
  ghost predicate Retains(s: State, r: State) {
    && r.lease == s.lease && r.pending == s.pending && r.request == s.request && r.failed == s.failed
    && s.pending.Some? && Done(s, s.pending.value) && Done(r, s.pending.value)
    && r.results[s.pending.value] == s.results[s.pending.value]
  }

  /** While a request is pending, housekeeping either begins a reset or does nothing. */
  lemma MaintainIdle(s: State, timeout: nat)
    requires FuturesOk(s) && s.pending.Some?
    ensures Maintain(s, timeout).epoch == s.epoch ==> Maintain(s, timeout) == s
  {
  }

  /** A call that does not give up a pending request leaves it alone. */
  lemma RetainedByCall(s: State, timeout: nat, call: Call)
    requires FuturesOk(s) && s.pending.Some? && s.lease.Some? && !GivesUp(s, timeout, CallOp(call))
    ensures var r := Serve(s, timeout, call).0;
      r.epoch == s.epoch ==> r.(seen := s.seen) == s
  {
    MaintainIdle(s, timeout);
  }

  lemma CallEpoch(s: State, timeout: nat, call: Call)
    ensures Serve(s, timeout, call).0.epoch >= s.epoch
  {
    assert Maintain(s, timeout).epoch >= s.epoch;
    if !call.AcquireCall? {
      assert Check(s, timeout, call.body).0.epoch >= s.epoch;
    }
  }

  lemma EpochGrows(s: State, timeout: nat, op: Op)
    ensures Step(s, timeout, op).epoch >= s.epoch
  {
    if op.CallOp? {
      CallEpoch(s, timeout, op.call);
    }
  }

  lemma RetainedByStep(s: State, timeout: nat, op: Op)
    requires Inv(s) && s.pending.Some? && Done(s, s.pending.value) && s.lease.Some?
    requires !GivesUp(s, timeout, op)
    ensures Step(s, timeout, op).epoch == s.epoch ==> Retains(s, Step(s, timeout, op))
  {
    match op
    case CallOp(call) => RetainedByCall(s, timeout, call);
    case MaintainOp => MaintainIdle(s, timeout);
    case CloseOp =>
    case ExecutorOp(_) =>
    case ClockOp(_) =>
  }

  lemma {:induction false} RetainedByRun(states: seq<State>, ops: seq<Op>, timeout: nat, n: nat)
    requires IsRun(states, ops, timeout) && Inv(states[0]) && n <= |ops|
    requires forall i: nat :: i < |ops| ==> !GivesUp(states[i], timeout, ops[i])
    requires states[0].pending.Some? && Done(states[0], states[0].pending.value) && states[0].lease.Some?
    ensures states[n].epoch >= states[0].epoch
    ensures states[n].epoch == states[0].epoch ==> Retains(states[0], states[n])
  {
    if n > 0 {
      RetainedByRun(states, ops, timeout, n - 1);
      RunKeeps(states, ops, timeout, n - 1);
      assert StepAt(states, ops, timeout, n - 1);
      EpochGrows(states[n - 1], timeout, ops[n - 1]);
      if states[n].epoch == states[0].epoch {
        RetainedByStep(states[n - 1], timeout, ops[n - 1]);
      }
    }
  }

  /** The answer to a poll depends on nothing else, while the lease lasts. */
  lemma RetainedAnswer(s: State, r: State, timeout: nat, body: Body, request: Request)
    requires Inv(s) && Inv(r) && Retains(s, r) && s.epoch == r.epoch
    requires Result(s, timeout, body, request).1.Ready? && r.now - r.seen < timeout
    ensures Result(r, timeout, body, request).1 == Result(s, timeout, body, request).1
  {
    MaintainIdle(s, timeout);
    assert s.reset.None? && r.reset.None?;
  }

  lemma ReadyIsHeld(s: State, timeout: nat, body: Body, request: Request)
    requires Inv(s) && Result(s, timeout, body, request).1.Ready?
    ensures s.pending.Some? && Done(s, s.pending.value) && s.lease.Some?
  {
  }

  /** Polling repeats a result unchanged, however long and whatever else is called, refused
      calls of any caller included, as long as no acknowledgement, reset, release or close
      is taken and the lease has not expired. */
  lemma PollRepeats(states: seq<State>, ops: seq<Op>, timeout: nat, body: Body, request: Request)
    requires IsRun(states, ops, timeout) && Reached(states[0], timeout)
    requires Result(states[0], timeout, body, request).1.Ready?
    requires forall i: nat :: i < |ops| ==> !GivesUp(states[i], timeout, ops[i])
    requires var s := states[|ops|]; s.epoch == states[0].epoch && s.now - s.seen < timeout
    ensures Result(states[|ops|], timeout, body, request).1 == Result(states[0], timeout, body, request).1
  {
    ReachedKeeps(states[0], timeout);
    ReadyIsHeld(states[0], timeout, body, request);
    RetainedByRun(states, ops, timeout, |ops|);
    RunKeeps(states, ops, timeout, |ops|);
    RetainedAnswer(states[0], states[|ops|], timeout, body, request);
  }
}
