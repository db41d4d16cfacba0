/** What a caller gets from the service: how long a lease lasts and how it ends, when the next
    one is granted, and that what was submitted is executed and answered. */
module ServiceLeases {
  import opened Wrappers
  import opened ServiceSpec
  import opened ServiceProofs

  /** The holder has not been heard of for the whole timeout. */
  predicate Expired(s: State, timeout: nat) {
    s.lease.Some? && s.now - s.seen >= timeout
  }

  /** A reset of the provider waits in the queue. */
  ghost predicate ResetWaits(s: State) {
    exists i: nat :: i < |s.queue| && s.queue[i].job.ResetProvider?
  }

  /** Nothing is left of a lease: no holder, no request, and the provider's reset waits, or
      one that ended has just been collected. */
  ghost predicate Vacated(s: State, r: State) {
    && r.lease.None? && r.pending.None? && r.request.None?
    && (r.reset.Some? ==> ResetWaits(r))
    && (r.reset.None? ==> s.reset.Some? && Done(s, s.reset.value))
  }

  // ---- how a lease ends ------------------------------------------------------

  /** A housekeeping pass ends the lease of a holder that was silent for the timeout, and no
      other; the provider is reset, and what the holder had submitted is forgotten. */
  lemma MaintainExpires(s: State, timeout: nat)
    requires Reached(s, timeout)
    ensures var r := Maintain(s, timeout);
      if Expired(s, timeout) then Vacated(s, r) else r.lease == s.lease && r.seen == s.seen && r.pending == s.pending
  {
    ReachedKeeps(s, timeout);
    if Expired(s, timeout) {
      var r := BeginReset(s, true);
      BeginResetKeeps(s, true);
      if !Done(r, r.reset.value) {
        ResetIsQueued(r);
      }
    }
  }

  lemma ResetIsQueued(s: State)
    requires FuturesOk(s) && s.reset.Some? && !Done(s, s.reset.value)
    ensures ResetWaits(s)
  {
    var i := if s.queue != [] && s.queue[0].job.Execute? then 1 else 0;
    assert i < |s.queue| && s.queue[i].job.ResetProvider?;
  }

  /** A call that is let through makes the lease last the timeout from now. */
  lemma CheckRenews(s: State, timeout: nat, body: Body)
    requires Reached(s, timeout)
    ensures var (r, refusal) := Check(s, timeout, body);
      && (refusal.None? <==>
            && body.current && s.lease == Some(body.lease) && !Expired(s, timeout)
            && !s.closed && !s.failed && !ResetRaised(s))
      && (refusal.None? ==> r.lease == s.lease && r.seen == r.now == s.now)
      && (refusal.Some? ==>
            refusal.value == Refused(
              if body.current && s.lease == Some(body.lease) && !Expired(s, timeout) then 503 else 409))
  {
    ReachedKeeps(s, timeout);
  }

  /** Steps that may end a lease other than by letting the time pass. */
  predicate Ends(s: State, timeout: nat, op: Op) {
    op.CloseOp? || (op.CallOp? && op.call.ReleaseCall? && Serve(s, timeout, op.call).1.Released?)
  }

  /** What happens to clock and lease: the holder was let through now or not; it is the same
      one, or nobody, or a new one. */
  ghost predicate Timely(s: State, r: State) {
    && r.now == s.now && (r.seen == s.seen || r.seen == s.now) && r.nextLease >= s.nextLease
    && (r.lease == s.lease || r.lease.None? || (r.lease == Some(s.nextLease) && r.nextLease > s.nextLease))
  }

  lemma MaintainTimely(s: State, timeout: nat)
    ensures var r := Maintain(s, timeout);
      Timely(s, r) && r.seen == s.seen && r.nextLease == s.nextLease
      && r.lease == if Expired(s, timeout) then None else s.lease
  {
  }

  lemma CheckTimely(s: State, timeout: nat, body: Body)
    ensures var r := Check(s, timeout, body).0;
      Timely(s, r) && r.nextLease == s.nextLease && r.lease == if Expired(s, timeout) then None else s.lease
  {
    MaintainTimely(s, timeout);
  }

  lemma ServeTimely(s: State, timeout: nat, call: Call)
    ensures Timely(s, Serve(s, timeout, call).0)
    ensures s.lease.Some? && !Expired(s, timeout) && !Ends(s, timeout, CallOp(call)) ==>
      Serve(s, timeout, call).0.lease == s.lease
  {
    MaintainTimely(s, timeout);
    match call
    case AcquireCall =>
    case SubmitCall(body, request, inputs) => CheckTimely(s, timeout, body);
    case ResultCall(body, request) => CheckTimely(s, timeout, body);
    case AckCall(body, request) => CheckTimely(s, timeout, body);
    case ResetCall(body) => CheckTimely(s, timeout, body);
    case StatusCall(body) => CheckTimely(s, timeout, body);
    case ReleaseCall(body) => CheckTimely(s, timeout, body);
  }

  lemma LastsThroughStep(s: State, timeout: nat, op: Op)
    requires s.lease.Some? && s.now - s.seen < timeout && s.seen <= s.now && !Ends(s, timeout, op)
    ensures var r := Step(s, timeout, op);
      r.lease == s.lease && s.seen <= r.seen <= r.now && s.now <= r.now
  {
    match op
    case CallOp(call) => ServeTimely(s, timeout, call);
    case MaintainOp => MaintainTimely(s, timeout);
    case CloseOp =>
    case ExecutorOp(_) =>
    case ClockOp(_) =>
  }

  lemma SeenInPast(s: State, timeout: nat, op: Op)
    requires s.seen <= s.now
    ensures Step(s, timeout, op).seen <= Step(s, timeout, op).now && s.now <= Step(s, timeout, op).now
  {
    match op
    case CallOp(call) => ServeTimely(s, timeout, call);
    case MaintainOp => MaintainTimely(s, timeout);
    case CloseOp =>
    case ExecutorOp(_) =>
    case ClockOp(_) =>
  }

  /** A lease is its holder's until it is released, the service is closed, or the timeout has
      passed since the holder was last let through; whatever anyone calls meanwhile. */
  lemma {:induction false} LeaseLasts(states: seq<State>, ops: seq<Op>, timeout: nat, n: nat)
    requires IsRun(states, ops, timeout) && n <= |ops|
    requires states[0].lease.Some? && states[0].seen <= states[0].now
    requires forall i: nat :: i < n ==> !Ends(states[i], timeout, ops[i])
    requires states[n].now - states[0].seen < timeout
    ensures states[n].lease == states[0].lease && states[0].seen <= states[n].seen <= states[n].now
  {
    if n > 0 {
      assert StepAt(states, ops, timeout, n - 1);
      ClockGrows(states, ops, timeout, n - 1);
      SeenInPast(states[n - 1], timeout, ops[n - 1]);
      LeaseLasts(states, ops, timeout, n - 1);
      LastsThroughStep(states[n - 1], timeout, ops[n - 1]);
    }
  }

  lemma {:induction false} ClockGrows(states: seq<State>, ops: seq<Op>, timeout: nat, n: nat)
    requires IsRun(states, ops, timeout) && n <= |ops| && states[0].seen <= states[0].now
    ensures states[n].seen <= states[n].now && states[0].now <= states[n].now
  {
    if n > 0 {
      ClockGrows(states, ops, timeout, n - 1);
      assert StepAt(states, ops, timeout, n - 1);
      SeenInPast(states[n - 1], timeout, ops[n - 1]);
    }
  }

  /** A lease that was granted and is not held. */
  predicate Past(s: State, lease: nat) {
    lease < s.nextLease && s.lease != Some(lease)
  }

  lemma PastStays(s: State, timeout: nat, op: Op, lease: nat)
    requires Past(s, lease)
    ensures Past(Step(s, timeout, op), lease)
  {
    match op
    case CallOp(call) => ServeTimely(s, timeout, call);
    case MaintainOp => MaintainTimely(s, timeout);
    case CloseOp =>
    case ExecutorOp(_) =>
    case ClockOp(_) =>
  }

  /** A lease that has ended is never honoured again: whatever happens, every call that names
      it is refused as stale. */
  lemma {:induction false} PastIsRefused(states: seq<State>, ops: seq<Op>, timeout: nat, n: nat, call: Call)
    requires IsRun(states, ops, timeout) && n <= |ops| && !call.AcquireCall? && Past(states[0], call.body.lease)
    ensures Past(states[n], call.body.lease) && Serve(states[n], timeout, call).1 == Refused(409)
  {
    if n > 0 {
      PastIsRefused(states, ops, timeout, n - 1, call);
      assert StepAt(states, ops, timeout, n - 1);
      PastStays(states[n - 1], timeout, ops[n - 1], call.body.lease);
    }
    assert Past(Maintain(states[n], timeout), call.body.lease);
  }

  // ---- how a lease is granted ------------------------------------------------

  /** A lease is granted exactly if the service is open and sound, nobody holds one, and no
      reset is outstanding; it is a new one, and it lasts the timeout from now. */
  lemma AcquireGrants(s: State, timeout: nat)
    requires Reached(s, timeout)
    ensures var (r, reply) := Acquire(s, timeout);
      var free := s.lease.None? || Expired(s, timeout);
      var clear := (s.reset.None? && s.lease.None?) || (s.reset.Some? && Done(s, s.reset.value));
      && (reply.Acquired? <==> !s.closed && !s.failed && !ResetRaised(s) && free && clear)
      && (reply.Acquired? ==>
            && reply.lease == s.nextLease && r.lease == Some(reply.lease) && r.seen == r.now && r.pending.None?)
      && (!reply.Acquired? ==> reply == Refused(if s.closed || s.failed || ResetRaised(s) then 503 else 409))
  {
    ReachedKeeps(s, timeout);
  }

  /** All resets that end while the queue is worked through return. */
  ghost predicate ResetsReturn(s: State, r: State) {
    forall k :: |s.log| <= k < |r.log| && r.log[k].task.job.ResetProvider? ==> r.log[k].outcome.Returned?
  }

  /** A silent holder does not keep the service: once a housekeeping pass has noticed and the
      executor has worked through its queue, the reset having returned, the next caller is
      granted a lease. */
  lemma ExpiryFrees(s: State, timeout: nat, answers: nat -> Outcome)
    requires Reached(s, timeout) && Expired(s, timeout) && !s.failed && !ResetRaised(s) && !s.closed
    requires ResetsReturn(s, RunAll(Maintain(s, timeout), answers))
    ensures Acquire(RunAll(Maintain(s, timeout), answers), timeout).1.Acquired?
  {
    MaintainExpires(s, timeout);
    ReachedKeeps(s, timeout);
    MaintainKeeps(s, timeout);
    ResetEnds(Maintain(s, timeout), timeout, answers);
  }

  /** A reset that waits has ended once the queue is empty, and if it returned a sound service
      that nobody holds grants a lease. */
  lemma ResetEnds(s: State, timeout: nat, answers: nat -> Outcome)
    requires Inv(s) && ResetsReturn(s, RunAll(s, answers))
    requires s.lease.None? && !s.closed && !s.failed && (s.reset.Some? ==> !Done(s, s.reset.value))
    ensures Acquire(RunAll(s, answers), timeout).1.Acquired?
  {
    RunAllEnds(s, answers);
    RunAllKeeps(s, answers);
    if s.reset.Some? {
      var i := if s.queue != [] && s.queue[0].job.Execute? then 1 else 0;
      var r := RunAll(s, answers);
      assert r.log[|s.log| + i] == Ended(s.queue[i], answers(|s.log| + i));
    }
  }

  lemma {:induction false} RunAllKeeps(s: State, answers: nat -> Outcome)
    requires Inv(s)
    ensures Inv(RunAll(s, answers))
    decreases |s.queue|
  {
    if s.queue != [] {
      RunHeadKeeps(s, answers(|s.log|));
      RunAllKeeps(RunHead(s, answers(|s.log|)), answers);
    }
  }

  // ---- what a holder gets ----------------------------------------------------

  /** The caller is let through: it names this service and the lease that is held, which has
      not expired, and the service is open and sound. */
  predicate LetThrough(s: State, timeout: nat, body: Body) {
    && body.current && s.lease == Some(body.lease) && !Expired(s, timeout)
    && !s.closed && !s.failed && !ResetRaised(s)
  }

  /** A reset that was begun has not ended. */
  predicate Outstanding(s: State) {
    s.reset.Some? && !Done(s, s.reset.value)
  }

  /** A submission is accepted exactly if its caller is let through, nothing of its is pending
      and no reset is outstanding, and it names itself; then it is all that is queued. */
  lemma SubmitIsTaken(s: State, timeout: nat, body: Body, request: Request, inputs: Payload)
    requires Reached(s, timeout)
    ensures var (r, reply) := Submit(s, timeout, body, request, inputs);
      && (reply.Accepted? <==>
            LetThrough(s, timeout, body) && s.pending.None? && !Outstanding(s) && request.Name?)
      && (reply.Accepted? ==>
            && reply.request == request.id && r.lease == s.lease && r.seen == r.now && r.reset.None?
            && r.pending.Some? && r.request == Some(request.id) && !r.closed && !r.failed && r.log == s.log
            && r.queue == [Task(r.pending.value, Execute(body.lease, s.epoch, request.id, inputs))])
  {
    ReachedKeeps(s, timeout);
    CheckRenews(s, timeout, body);
    CheckKeeps(s, timeout, body);
    CheckRests(s, timeout, body);
  }

  /** A caller that is let through finds everything but the reset as it was. */
  lemma CheckRests(s: State, timeout: nat, body: Body)
    requires Reached(s, timeout)
    ensures LetThrough(s, timeout, body) ==>
      Check(s, timeout, body).0 == s.(seen := s.now, reset := if Outstanding(s) then s.reset else None)
    ensures LetThrough(s, timeout, body) && s.pending.None? && !Outstanding(s) ==> s.queue == []
  {
    ReachedKeeps(s, timeout);
    assert LetThrough(s, timeout, body) && s.pending.None? && !Outstanding(s) ==> !Executing(s);
  }

  /** An accepted request is executed, once the executor has worked through its queue, and
      then its caller, coming back in time, is told what the provider answered to it; before,
      that it still runs. */
  lemma SubmitIsAnswered(s: State, timeout: nat, body: Body, request: Request, inputs: Payload,
                         answers: nat -> Outcome, elapsed: nat)
    requires Reached(s, timeout) && elapsed < timeout
    requires Submit(s, timeout, body, request, inputs).1.Accepted?
    ensures var r := Submit(s, timeout, body, request, inputs).0;
      var later := RunAll(r.(now := r.now + elapsed), answers);
      && Result(r.(now := r.now + elapsed), timeout, body, request).1 == StillRunning(request.id)
      && later.log == s.log + [Ended(r.queue[0], answers(|s.log|))]
      && r.queue[0].job == Execute(body.lease, s.epoch, request.id, inputs)
      && Result(later, timeout, body, request).1 ==
           match answers(|s.log|)
           case Returned(output) => Ready(request.id, output)
           case Raised(kind) => ProviderError(request.id, kind)
  {
    SubmitIsTaken(s, timeout, body, request, inputs);
    ReachedSteps(s, timeout, CallOp(SubmitCall(body, request, inputs)));
    var r := Submit(s, timeout, body, request, inputs).0;
    ReachedKeeps(r, timeout);
    AnswerComes(r.(now := r.now + elapsed), timeout, body, request, answers);
  }

  lemma AnswerComes(s: State, timeout: nat, body: Body, request: Request, answers: nat -> Outcome)
    requires LetThrough(s, timeout, body) && s.reset.None? && request.Name? && s.request == Some(request.id)
    requires |s.queue| == 1 && s.pending == Some(s.queue[0].ticket) && s.queue[0].ticket !in s.results
    ensures Result(s, timeout, body, request).1 == StillRunning(request.id)
    ensures var later := RunAll(s, answers);
      && later.log == s.log + [Ended(s.queue[0], answers(|s.log|))]
      && Result(later, timeout, body, request).1 ==
           match answers(|s.log|)
           case Returned(output) => Ready(request.id, output)
           case Raised(kind) => ProviderError(request.id, kind)
  {
    assert RunHead(s, answers(|s.log|)).queue == [];
    assert RunAll(s, answers) == RunHead(s, answers(|s.log|));
  }

  /** An acknowledgement is taken exactly if its caller is let through and names a request
      that has ended; from then on there is room for the next. */
  lemma AcknowledgeFrees(s: State, timeout: nat, body: Body, request: Request)
    requires Reached(s, timeout)
    ensures var (r, reply) := Acknowledge(s, timeout, body, request);
      && (reply.Idle? <==>
            && LetThrough(s, timeout, body) && s.pending.Some? && Done(s, s.pending.value)
            && request.Name? && s.request == Some(request.id))
      && (reply.Idle? ==> r == s.(seen := s.now, pending := None, request := None) && !Outstanding(r))
  {
    ReachedKeeps(s, timeout);
    CheckRenews(s, timeout, body);
    CheckRests(s, timeout, body);
  }

  /** A reset is begun for every caller that is let through: its request is forgotten, the
      provider's reset waits in the queue, and the lease stays; with a release it ends. */
  lemma ResetBegins(s: State, timeout: nat, body: Body)
    requires Reached(s, timeout)
    ensures var (r, reply) := Reset(s, timeout, body);
      && (reply.Resetting? <==> LetThrough(s, timeout, body))
      && (reply.Resetting? ==> r.lease == s.lease && r.pending.None? && Outstanding(r) && ResetWaits(r))
    ensures var (r, reply) := Release(s, timeout, body);
      && (reply.Released? <==> LetThrough(s, timeout, body))
      && (reply.Released? ==> r.lease.None? && r.pending.None? && Outstanding(r) && ResetWaits(r))
  {
    CheckRenews(s, timeout, body);
    ReachedKeeps(s, timeout);
    if LetThrough(s, timeout, body) {
      CheckRests(s, timeout, body);
      CheckKeeps(s, timeout, body);
      BegunWaits(Check(s, timeout, body).0);
    }
  }

  lemma BegunWaits(s: State)
    requires Inv(s) && s.lease.Some? && (s.reset.Some? ==> !Done(s, s.reset.value))
    ensures forall release :: var r := BeginReset(s, release);
      r.lease == (if release then None else s.lease) && r.pending.None? && Outstanding(r) && ResetWaits(r)
  {
    BeginResetKeeps(s, false);
    var r := BeginReset(s, false);
    ResetIsQueued(r);
    var i: nat :| i < |r.queue| && r.queue[i].job.ResetProvider?;
    assert BeginReset(s, true).queue == r.queue;
  }

  /** The status tells a caller that is let through whether a reset is outstanding. */
  lemma StatusTells(s: State, timeout: nat, body: Body)
    requires Reached(s, timeout)
    ensures var reply := Status(s, timeout, body).1;
      && (reply.Resetting? <==> LetThrough(s, timeout, body) && Outstanding(s))
      && (reply.Idle? <==> LetThrough(s, timeout, body) && !Outstanding(s))
  {
    CheckRenews(s, timeout, body);
    CheckRests(s, timeout, body);
  }
}
