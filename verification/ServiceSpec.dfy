/** The execution service as a state machine: one lease, one retained result, and a
    single-threaded executor that works through a FIFO of jobs. */
module ServiceSpec {
  import opened Wrappers

  type Payload = string

  /** A request name of acceptable length, or anything else. */
  datatype Request = Name(id: nat) | Malformed

  /** How a job ended: with a value, or by raising. */
  datatype Outcome = Returned(output: Payload) | Raised(kind: Payload)

  /** `epoch` counts the resets begun so far; it tells executions on either side of a
      reset apart and exists only for the record. */
  datatype Job =
    | Execute(lease: nat, epoch: nat, request: nat, inputs: Payload)
    | ResetProvider
    | CloseProvider

  datatype Task = Task(ticket: nat, job: Job)

  /** What the executor has done, in order. */
  datatype Event = Ended(task: Task, outcome: Outcome)

  /** `lease` to `closed` are the service's fields; a future is its ticket, and it is done
      when `results` has its outcome. The rest is the executor: queue and history. */
  datatype State = State(
    now: nat, lease: Option<nat>, seen: nat, pending: Option<nat>, reset: Option<nat>,
    request: Option<nat>, failed: bool, closed: bool, nextLease: nat,
    queue: seq<Task>, nextTicket: nat, results: map<nat, Outcome>, log: seq<Event>, epoch: nat)

  /** A caller's body: does it name this service instance, and which lease. */
  datatype Body = Body(current: bool, lease: nat)

  datatype Reply =
    | Acquired(lease: nat)
    | Accepted(request: nat)
    | StillRunning(request: nat)
    | Ready(request: nat, output: Payload)
    | ProviderError(request: nat, kind: Payload)
    | Idle
    | Resetting
    | Released
    | Refused(status: nat)

  function Done(s: State, ticket: nat): bool { ticket in s.results }

  /** Queue a job; its future is the ticket it gets. */
  function Enqueue(s: State, job: Job): State {
    s.(queue := s.queue + [Task(s.nextTicket, job)], nextTicket := s.nextTicket + 1)
  }

  function BeginReset(s: State, release: bool): State {
    var s1 := s.(pending := None, request := None, epoch := s.epoch + 1);
    var s2 := if s1.reset.None? then Enqueue(s1, ResetProvider).(reset := Some(s1.nextTicket)) else s1;
    if release then s2.(lease := None) else s2
  }

  /** A reset that has ended is collected; if it raised, the service has failed for good. */
  function Collect(s: State): State {
    if s.reset.Some? && Done(s, s.reset.value) then
      s.(reset := None, failed := s.failed || s.results[s.reset.value].Raised?)
    else s
  }

  function Maintain(s: State, timeout: nat): State {
    Collect(if s.lease.Some? && s.now - s.seen >= timeout then BeginReset(s, true) else s)
  }

  function Acquire(s: State, timeout: nat): (State, Reply) {
    var s1 := Maintain(s, timeout);
    if s1.closed || s1.failed then (s1, Refused(503))
    else if s1.lease.Some? || s1.reset.Some? then (s1, Refused(409))
    else (s1.(lease := Some(s1.nextLease), nextLease := s1.nextLease + 1, seen := s1.now), Acquired(s1.nextLease))
  }

  /** Every leased call first maintains, then checks the caller, then renews the lease. */
  function Check(s: State, timeout: nat, body: Body): (State, Option<Reply>) {
    var s1 := Maintain(s, timeout);
    if !body.current || s1.lease != Some(body.lease) then (s1, Some(Refused(409)))
    else if s1.closed || s1.failed then (s1, Some(Refused(503)))
    else (s1.(seen := s1.now), None)
  }

  function Submit(s: State, timeout: nat, body: Body, request: Request, inputs: Payload): (State, Reply) {
    var (s1, refusal) := Check(s, timeout, body);
    if refusal.Some? then (s1, refusal.value)
    else if s1.pending.Some? || s1.reset.Some? then (s1, Refused(409))
    else if request.Malformed? then (s1, Refused(400))
    else
      var s2 := Enqueue(s1, Execute(body.lease, s1.epoch, request.id, inputs));
      (s2.(request := Some(request.id), pending := Some(s1.nextTicket)), Accepted(request.id))
  }

  function Result(s: State, timeout: nat, body: Body, request: Request): (State, Reply) {
    var (s1, refusal) := Check(s, timeout, body);
    if refusal.Some? then (s1, refusal.value)
    else if s1.pending.None? || request.Malformed? || s1.request != Some(request.id) then (s1, Refused(409))
    else if !Done(s1, s1.pending.value) then (s1, StillRunning(request.id))
    else match s1.results[s1.pending.value]
      case Returned(output) => (s1, Ready(request.id, output))
      case Raised(kind) => (s1, ProviderError(request.id, kind))
  }

  function Acknowledge(s: State, timeout: nat, body: Body, request: Request): (State, Reply) {
    var (s1, refusal) := Check(s, timeout, body);
    if refusal.Some? then (s1, refusal.value)
    else if s1.pending.None? || request.Malformed? || s1.request != Some(request.id) || !Done(s1, s1.pending.value)
    then (s1, Refused(409))
    else (s1.(pending := None, request := None), Idle)
  }

  function Reset(s: State, timeout: nat, body: Body): (State, Reply) {
    var (s1, refusal) := Check(s, timeout, body);
    if refusal.Some? then (s1, refusal.value) else (BeginReset(s1, false), Resetting)
  }

  function Status(s: State, timeout: nat, body: Body): (State, Reply) {
    var (s1, refusal) := Check(s, timeout, body);
    if refusal.Some? then (s1, refusal.value)
    else (s1, if s1.reset.Some? then Resetting else Idle)
  }

  function Release(s: State, timeout: nat, body: Body): (State, Reply) {
    var (s1, refusal) := Check(s, timeout, body);
    if refusal.Some? then (s1, refusal.value) else (BeginReset(s1, true), Released)
  }

  /** Close once: no more leases, and a close job behind everything queued. */
  function Close(s: State): State {
    if s.closed then s else Enqueue(s.(closed := true, lease := None), CloseProvider)
  }

  /** The executor finishes the job at the head of its queue. */
  function RunHead(s: State, outcome: Outcome): State
    requires s.queue != []
  {
    s.(queue := s.queue[1..], results := s.results[s.queue[0].ticket := outcome],
       log := s.log + [Ended(s.queue[0], outcome)])
  }

  /** The executor works through its whole queue; `answers` gives the outcome of the k-th
      job that it ever finishes. */
  function RunAll(s: State, answers: nat -> Outcome): (r: State)
    ensures r.queue == []
    decreases |s.queue|
  {
    if s.queue == [] then s else RunAll(RunHead(s, answers(|s.log|)), answers)
  }

  /** Working through the queue ends every job of it, in order, and touches nothing else. */
  lemma {:induction false} RunAllEnds(s: State, answers: nat -> Outcome)
    ensures var r := RunAll(s, answers);
      && r == s.(queue := [], results := r.results, log := r.log)
      && |r.log| == |s.log| + |s.queue| && s.log <= r.log
      && forall i :: 0 <= i < |s.queue| ==>
           r.log[|s.log| + i] == Ended(s.queue[i], answers(|s.log| + i)) && s.queue[i].ticket in r.results
    ensures forall t :: t in s.results ==> t in RunAll(s, answers).results
    decreases |s.queue|
  {
    if s.queue != [] {
      var s1 := RunHead(s, answers(|s.log|));
      RunAllEnds(s1, answers);
      forall i | 0 < i < |s.queue| ensures s.queue[i] == s1.queue[i - 1] {
      }
    }
  }

  datatype Call =
    | AcquireCall
    | SubmitCall(body: Body, request: Request, inputs: Payload)
    | ResultCall(body: Body, request: Request)
    | AckCall(body: Body, request: Request)
    | ResetCall(body: Body)
    | StatusCall(body: Body)
    | ReleaseCall(body: Body)

  function Serve(s: State, timeout: nat, call: Call): (State, Reply) {
    match call
    case AcquireCall => Acquire(s, timeout)
    case SubmitCall(body, request, inputs) => Submit(s, timeout, body, request, inputs)
    case ResultCall(body, request) => Result(s, timeout, body, request)
    case AckCall(body, request) => Acknowledge(s, timeout, body, request)
    case ResetCall(body) => Reset(s, timeout, body)
    case StatusCall(body) => Status(s, timeout, body)
    case ReleaseCall(body) => Release(s, timeout, body)
  }

  /** One step of the whole: a call, a housekeeping pass, a close, the executor finishing
      a job, or the clock. */
  datatype Op =
    | CallOp(call: Call)
    | MaintainOp
    | CloseOp
    | ExecutorOp(outcome: Outcome)
    | ClockOp(elapsed: nat)

  function Step(s: State, timeout: nat, op: Op): State {
    match op
    case CallOp(call) => Serve(s, timeout, call).0
    case MaintainOp => Maintain(s, timeout)
    case CloseOp => Close(s)
    case ExecutorOp(outcome) => if s.queue == [] then s else RunHead(s, outcome)
    case ClockOp(elapsed) => s.(now := s.now + elapsed)
  }

  function Init(): State {
    State(0, None, 0, None, None, None, false, false, 0, [], 0, map[], [], 0)
  }

  /** The i-th step of a run. */
  ghost predicate StepAt(states: seq<State>, ops: seq<Op>, timeout: nat, i: nat)
    requires |states| == |ops| + 1 && i < |ops|
  {
    states[i + 1] == Step(states[i], timeout, ops[i])
  }

  /** The states that a sequence of steps goes through. */
  ghost predicate IsRun(states: seq<State>, ops: seq<Op>, timeout: nat) {
    |states| == |ops| + 1 && forall i: nat :: i < |ops| ==> StepAt(states, ops, timeout, i)
  }

  /** Some run of a new service leads here. */
  ghost predicate Reached(s: State, timeout: nat) {
    exists states: seq<State>, ops: seq<Op> :: IsRun(states, ops, timeout) && states[0] == Init() && states[|ops|] == s
  }
}
