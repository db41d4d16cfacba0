/** A remote client of the execution service over a network that may lose requests and
    replies but keeps the order of what it delivers. */
module Remote {
  import opened Wrappers
  import S = ServiceSpec

  type Payload = S.Payload

  /** A request on its way to the service, numbered by the call that sent it. */
  datatype Message = Message(id: nat, call: S.Call)

  /** Where the client is in execute or reset. While it waits for a reply, `waiting` holds
      the number of the call; between two polls it holds nothing. */
  datatype Phase =
    | AtRest
    | Submitting(request: nat, inputs: Payload)
    | Polling(request: nat, inputs: Payload)
    | Acking(request: nat, inputs: Payload, outcome: S.Outcome)
    | Resetting
    | Confirming

  /** One execute that returned. */
  datatype Finished = Finished(request: nat, inputs: Payload, output: Payload)

  /** `sent` and `finished` are the record of what was submitted and what was returned. */
  datatype Client = Client(
    lease: nat, phase: Phase, waiting: Option<nat>, needsReset: bool, closed: bool,
    nextRequest: nat, nextCall: nat, sent: map<nat, Payload>, finished: seq<Finished>)

  datatype World = World(svc: S.State, net: seq<Message>, reply: Option<(nat, S.Reply)>, client: Client)

  function Caller(c: Client): S.Body { S.Body(true, c.lease) }

  /** Send a call and wait for its reply. */
  function Send(w: World, call: S.Call): World {
    w.(net := w.net + [Message(w.client.nextCall, call)], reply := None,
       client := w.client.(waiting := Some(w.client.nextCall), nextCall := w.client.nextCall + 1))
  }

  /** An execute that was refused, timed out or lost leaves the client in need of a reset;
      a failed reset leaves it as it was. */
  function Fail(c: Client): Client {
    c.(phase := AtRest, waiting := None,
       needsReset := c.needsReset || c.phase.Submitting? || c.phase.Polling? || c.phase.Acking?)
  }

  function Execute(w: World, inputs: Payload): World {
    if !w.client.phase.AtRest? || w.client.closed || w.client.needsReset then w
    else
      var r := w.client.nextRequest;
      var w1 := w.(client := w.client.(phase := Submitting(r, inputs), nextRequest := r + 1,
                                       sent := w.client.sent[r := inputs]));
      Send(w1, S.SubmitCall(Caller(w.client), S.Name(r), inputs))
  }

  function Reset(w: World): World {
    if !w.client.phase.AtRest? || w.client.closed then w
    else Send(w.(client := w.client.(phase := Resetting, needsReset := true)), S.ResetCall(Caller(w.client)))
  }

  /** Close asks for a release once and does not depend on the reply. */
  function Close(w: World): World {
    if !w.client.phase.AtRest? || w.client.closed then w
    else
      var w1 := Send(w, S.ReleaseCall(Caller(w.client)));
      w1.(client := w1.client.(closed := true, waiting := None))
  }

  /** Ask again, in a polling phase. */
  function PollAgain(w: World): World {
    if w.client.waiting.Some? then w
    else match w.client.phase
      case Polling(r, _) => Send(w, S.ResultCall(Caller(w.client), S.Name(r)))
      case Confirming => Send(w, S.StatusCall(Caller(w.client)))
      case _ => w
  }

  function Acked(w: World, outcome: S.Outcome): World {
    var p := w.client.phase;
    if !p.Polling? then w
    else
      Send(w.(client := w.client.(phase := Acking(p.request, p.inputs, outcome))),
           S.AckCall(Caller(w.client), S.Name(p.request)))
  }

  /** The reply to the call the client is waiting for has come. */
  function Receive(w: World): World {
    if w.reply.None? || w.client.waiting != Some(w.reply.value.0) then w
    else
      var c, reply := w.client, w.reply.value.1;
      var w1 := w.(reply := None, client := c.(waiting := None));
      if reply.Refused? then w1.(client := Fail(c))
      else match c.phase
        case AtRest => w1
        case Submitting(r, inputs) => w1.(client := w1.client.(phase := Polling(r, inputs)))
        case Polling(r, inputs) =>
          (match reply
           case StillRunning(r') => if r' == r then w1 else w1.(client := Fail(c))
           case Ready(r', output) => if r' == r then Acked(w1, S.Returned(output)) else w1.(client := Fail(c))
           case ProviderError(r', kind) => if r' == r then Acked(w1, S.Raised(kind)) else w1.(client := Fail(c))
           case _ => w1.(client := Fail(c)))
        case Acking(r, inputs, outcome) =>
          (match outcome
           case Returned(output) =>
             w1.(client := w1.client.(phase := AtRest, finished := c.finished + [Finished(r, inputs, output)]))
           case Raised(_) => w1.(client := Fail(c)))
        case Resetting => w1.(client := w1.client.(phase := Confirming))
        case Confirming => if reply.Idle? then w1.(client := w1.client.(phase := AtRest, needsReset := false)) else w1
  }

  /** The service handles the oldest request under way; its reply may be lost. */
  function Deliver(w: World, timeout: nat, lost: bool): World {
    if w.net == [] then w
    else
      var (svc, reply) := S.Serve(w.svc, timeout, w.net[0].call);
      w.(svc := svc, net := w.net[1..],
         reply := if w.client.waiting == Some(w.net[0].id) && !lost then Some((w.net[0].id, reply)) else w.reply)
  }

  datatype Op =
    | ExecuteOp(inputs: Payload)
    | ResetOp
    | CloseOp
    | PollOp
    | ReceiveOp
    | GiveUpOp
    | DeliverOp(lost: bool)
    | DropOp
    | OtherOp(op: S.Op)

  /** Steps of the service that this client has no part in. */
  predicate Foreign(op: S.Op, lease: nat) {
    op.CallOp? && !op.call.AcquireCall? ==> op.call.body.lease != lease || !op.call.body.current
  }

  predicate OpOk(op: Op, lease: nat) {
    op.OtherOp? ==> Foreign(op.op, lease)
  }

  function Step(w: World, timeout: nat, op: Op): World {
    match op
    case ExecuteOp(inputs) => Execute(w, inputs)
    case ResetOp => Reset(w)
    case CloseOp => Close(w)
    case PollOp => PollAgain(w)
    case ReceiveOp => Receive(w)
    case GiveUpOp => if w.client.phase.AtRest? then w else w.(reply := None, client := Fail(w.client))
    case DeliverOp(lost) => Deliver(w, timeout, lost)
    case DropOp => if w.net == [] then w else w.(net := w.net[1..])
    case OtherOp(op) => w.(svc := S.Step(w.svc, timeout, op))
  }

  /** A client that has just acquired a lease from this service. */
  function Start(s: S.State, timeout: nat): World {
    var (svc, reply) := S.Acquire(s, timeout);
    var lease := if reply.Acquired? then reply.lease else 0;
    World(svc, [], None, Client(lease, AtRest, None, false, false, 0, 0, map[], []))
  }

  /** The i-th step of a run. */
  ghost predicate StepAt(worlds: seq<World>, ops: seq<Op>, timeout: nat, i: nat)
    requires |worlds| == |ops| + 1 && i < |ops|
  {
    OpOk(ops[i], worlds[i].client.lease) && worlds[i + 1] == Step(worlds[i], timeout, ops[i])
  }

  /** The worlds that a sequence of steps goes through, from any world on. */
  ghost predicate IsRun(worlds: seq<World>, ops: seq<Op>, timeout: nat) {
    |worlds| == |ops| + 1 && forall i: nat :: i < |ops| ==> StepAt(worlds, ops, timeout, i)
  }

  /** Some run of a client that was given a lease by some reachable service leads here. */
  ghost predicate Reachable(w: World, timeout: nat) {
    exists s: S.State, worlds: seq<World>, ops: seq<Op> :: LeadsTo(s, worlds, ops, w, timeout)
  }

  ghost predicate LeadsTo(s: S.State, worlds: seq<World>, ops: seq<Op>, w: World, timeout: nat) {
    && S.Reached(s, timeout) && S.Acquire(s, timeout).1.Acquired?
    && IsRun(worlds, ops, timeout) && worlds[0] == Start(s, timeout) && worlds[|ops|] == w
  }
}
