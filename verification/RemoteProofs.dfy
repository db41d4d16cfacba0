/** What the client may rely on, whatever the network loses and the service is asked by
    others meanwhile. */
module RemoteProofs {
  import opened Wrappers
  import S = ServiceSpec
  import opened ServiceProofs
  import opened Remote

  // ---- the service, seen by one lease ----------------------------------------

  /** The execution that is queued, if any. */
  function Queued(s: S.State): Option<S.Task> {
    if Executing(s) then Some(s.queue[0]) else None
  }

  predicate Mine(job: S.Job, lease: nat) { job.Execute? && job.lease == lease }

  predicate MineAt(log: seq<S.Event>, k: nat, lease: nat) { k < |log| && Mine(log[k].task.job, lease) }

  predicate QueuedMine(s: S.State, lease: nat) { Executing(s) && Mine(s.queue[0].job, lease) }

  /** An accepted submit: its own execution is queued where there was none. */
  predicate Admitted(s: S.State, r: S.State, call: S.Call, reply: S.Reply) {
    && call.SubmitCall? && call.body.current && call.request.Name? && reply == S.Accepted(call.request.id)
    && Queued(s).None? && Queued(r).Some?
    && Queued(r).value.job == S.Execute(call.body.lease, r.epoch, call.request.id, call.inputs)
  }

  lemma BeginResetQueues(s: S.State, release: bool)
    ensures Queued(S.BeginReset(s, release)) == Queued(s) && S.BeginReset(s, release).log == s.log
  {
  }

  lemma MaintainQueues(s: S.State, timeout: nat)
    ensures Queued(S.Maintain(s, timeout)) == Queued(s) && S.Maintain(s, timeout).log == s.log
  {
  }

  lemma CheckQueues(s: S.State, timeout: nat, body: S.Body)
    ensures var s1 := S.Check(s, timeout, body).0; Queued(s1) == Queued(s) && s1.log == s.log
  {
    MaintainQueues(s, timeout);
  }

  lemma SubmitQueues(s: S.State, timeout: nat, body: S.Body, request: S.Request, inputs: Payload)
    requires Inv(s)
    ensures var (r, reply) := S.Submit(s, timeout, body, request, inputs);
      r.log == s.log && (Queued(r) == Queued(s) || Admitted(s, r, S.SubmitCall(body, request, inputs), reply))
    ensures var (r, reply) := S.Submit(s, timeout, body, request, inputs);
      reply.Accepted? ==> Admitted(s, r, S.SubmitCall(body, request, inputs), reply) && r.lease == Some(body.lease)
  {
    CheckQueues(s, timeout, body);
    CheckKeeps(s, timeout, body);
    var (s1, refusal) := S.Check(s, timeout, body);
    if refusal.None? && s1.pending.None? && s1.reset.None? {
      assert s1.queue == [];
    }
  }

  lemma QueryQueues(s: S.State, timeout: nat, body: S.Body, request: S.Request)
    ensures var r := S.Result(s, timeout, body, request).0; Queued(r) == Queued(s) && r.log == s.log
    ensures var r := S.Acknowledge(s, timeout, body, request).0; Queued(r) == Queued(s) && r.log == s.log
  {
    CheckQueues(s, timeout, body);
  }

  lemma ResetQueues(s: S.State, timeout: nat, body: S.Body)
    ensures var r := S.Reset(s, timeout, body).0; Queued(r) == Queued(s) && r.log == s.log
    ensures var r := S.Release(s, timeout, body).0; Queued(r) == Queued(s) && r.log == s.log
  {
    CheckQueues(s, timeout, body);
    BeginResetQueues(S.Check(s, timeout, body).0, false);
    BeginResetQueues(S.Check(s, timeout, body).0, true);
  }

  /** A call changes neither the history nor the queued execution, unless it is a submit
      that is accepted. */
  lemma ServeQueues(s: S.State, timeout: nat, call: S.Call)
    requires Inv(s)
    ensures var (r, reply) := S.Serve(s, timeout, call);
      r.log == s.log && (Queued(r) == Queued(s) || Admitted(s, r, call, reply))
  {
    match call
    case AcquireCall => MaintainQueues(s, timeout);
    case SubmitCall(body, request, inputs) => SubmitQueues(s, timeout, body, request, inputs);
    case ResultCall(body, request) => QueryQueues(s, timeout, body, request);
    case AckCall(body, request) => QueryQueues(s, timeout, body, request);
    case ResetCall(body) => ResetQueues(s, timeout, body);
    case StatusCall(body) => CheckQueues(s, timeout, body);
    case ReleaseCall(body) => ResetQueues(s, timeout, body);
  }

  // ---- the invariant ---------------------------------------------------------

  /** This execution of the lease ran for `request` with `inputs` and returned `output`. */
  predicate RanAs(log: seq<S.Event>, k: nat, lease: nat, request: nat, inputs: Payload, output: Payload) {
    MineAt(log, k, lease) && log[k].task.job.request == request && log[k].task.job.inputs == inputs
    && log[k].outcome == S.Returned(output)
  }

  ghost predicate Returned(log: seq<S.Event>, lease: nat, request: nat, inputs: Payload, output: Payload) {
    exists k: nat :: RanAs(log, k, lease, request, inputs, output)
  }

  /** The calls under way are the client's, in order, and none is younger than the one it
      waits for. A reply under way is for that one, and nothing is left behind it. */
  ghost predicate CallsOk(net: seq<Message>, reply: Option<(nat, S.Reply)>, c: Client) {
    && (forall i :: 0 <= i < |net| ==>
          net[i].id < c.nextCall && !net[i].call.AcquireCall? && net[i].call.body == Caller(c))
    && (forall i, j :: 0 <= i < j < |net| ==> net[i].id < net[j].id)
    && (c.waiting.Some? ==> c.waiting.value < c.nextCall && forall i :: 0 <= i < |net| ==> net[i].id <= c.waiting.value)
    && (reply.Some? ==> c.waiting == Some(reply.value.0) && net == [])
    && (c.phase.AtRest? ==> c.waiting.None?)
    && (forall i :: 0 <= i < |net| && c.waiting == Some(net[i].id) ==> Matches(net[i].call, c.phase))
  }

  /** The call that each phase waits for. */
  predicate Matches(call: S.Call, phase: Phase) {
    match phase
    case AtRest => false
    case Submitting(r, inputs) => call.SubmitCall? && call.request == S.Name(r) && call.inputs == inputs
    case Polling(r, _) => call.ResultCall? && call.request == S.Name(r)
    case Acking(r, _, _) => call.AckCall? && call.request == S.Name(r)
    case Resetting => call.ResetCall?
    case Confirming => call.StatusCall?
  }

  predicate Sent(c: Client, request: nat, inputs: Payload) {
    request in c.sent && c.sent[request] == inputs
  }

  /** No submit is under way. */
  ghost predicate NoSubmit(net: seq<Message>) {
    forall i :: 0 <= i < |net| ==> !net[i].call.SubmitCall?
  }

  /** The submit under way, if any, is that of the latest execute, and is the only one. */
  ghost predicate SubmitsOk(net: seq<Message>, c: Client) {
    && (forall i :: 0 <= i < |net| && net[i].call.SubmitCall? ==>
          && net[i].call.request.Name? && net[i].call.request.id == c.nextRequest - 1
          && Sent(c, net[i].call.request.id, net[i].call.inputs))
    && (forall i, j :: 0 <= i < j < |net| ==> !(net[i].call.SubmitCall? && net[j].call.SubmitCall?))
  }

  /** Whatever ran for the lease was submitted by the client, each request at most once. */
  ghost predicate RanOk(log: seq<S.Event>, c: Client) {
    && (forall k :: 0 <= k < |log| && Mine(log[k].task.job, c.lease) ==>
          log[k].task.job.request < c.nextRequest && Sent(c, log[k].task.job.request, log[k].task.job.inputs))
    && (forall i, k :: 0 <= i < k < |log| && Mine(log[i].task.job, c.lease) && Mine(log[k].task.job, c.lease) ==>
          log[i].task.job.request != log[k].task.job.request)
  }

  ghost predicate NotRun(log: seq<S.Event>, lease: nat, request: nat) {
    forall k :: 0 <= k < |log| && Mine(log[k].task.job, lease) ==> log[k].task.job.request != request
  }

  /** The execution queued for the lease, if any, is that of the latest execute, has not
      run before, and its submit is not under way any more. */
  ghost predicate QueuedOk(svc: S.State, net: seq<Message>, c: Client) {
    && (QueuedMine(svc, c.lease) ==>
          var job := svc.queue[0].job;
          job.request == c.nextRequest - 1 && Sent(c, job.request, job.inputs)
          && NotRun(svc.log, c.lease, job.request) && NoSubmit(net))
    && (!NoSubmit(net) ==> c.nextRequest > 0 && NotRun(svc.log, c.lease, c.nextRequest - 1))
  }

  /** Nothing of this client can run any more. */
  ghost predicate Quiet(w: World) {
    NoSubmit(w.net) && !QueuedMine(w.svc, w.client.lease)
  }

  /** The service holds no request of this lease. */
  predicate Unpended(svc: S.State, lease: nat) {
    svc.lease == Some(lease) ==> svc.pending.None?
  }

  /** A reply under way means what it says. */
  ghost predicate ReplyOk(w: World) {
    w.reply.Some? && !w.reply.value.1.Refused? ==>
      var c, reply := w.client, w.reply.value.1;
      match c.phase
      case AtRest => true
      case Submitting(_, _) => true
      case Polling(_, _) =>
        reply.Ready? ==> exists inputs :: Returned(w.svc.log, c.lease, reply.request, inputs, reply.output)
      case Acking(_, _, _) => Quiet(w)
      case Resetting => Unpended(w.svc, c.lease)
      case Confirming => reply.Idle? ==> Quiet(w)
  }

  ghost predicate PhaseOk(w: World) {
    var c := w.client;
    && (c.phase.Submitting? || c.phase.Polling? || c.phase.Acking? ==>
          !c.needsReset && c.phase.request == c.nextRequest - 1 && Sent(c, c.phase.request, c.phase.inputs))
    && (c.phase.Polling? || c.phase.Acking? || c.phase.Confirming? ==> NoSubmit(w.net))
    && (c.phase.Acking? && c.phase.outcome.Returned? ==>
          Returned(w.svc.log, c.lease, c.phase.request, c.phase.inputs, c.phase.outcome.output))
    && (c.phase.Resetting? || c.phase.Confirming? ==> c.needsReset)
    && (c.phase.Confirming? ==> Unpended(w.svc, c.lease))
    && (c.phase.AtRest? && !c.needsReset ==> Quiet(w))
  }

  ghost predicate FinishedOk(log: seq<S.Event>, c: Client) {
    forall i :: 0 <= i < |c.finished| ==>
      Returned(log, c.lease, c.finished[i].request, c.finished[i].inputs, c.finished[i].output)
  }

  ghost predicate WorldInv(w: World) {
    && Inv(w.svc) && w.client.lease < w.svc.nextLease
    && CallsOk(w.net, w.reply, w.client) && SubmitsOk(w.net, w.client)
    && (forall r :: r in w.client.sent ==> r < w.client.nextRequest)
    && RanOk(w.svc.log, w.client) && QueuedOk(w.svc, w.net, w.client)
    && ReplyOk(w) && PhaseOk(w) && FinishedOk(w.svc.log, w.client)
  }

  // ---- client steps ----------------------------------------------------------

  lemma NoSubmitMore(net: seq<Message>, m: Message)
    ensures NoSubmit(net + [m]) <==> NoSubmit(net) && !m.call.SubmitCall?
  {
    assert (net + [m])[|net|] == m;
    assert forall i :: 0 <= i < |net| ==> (net + [m])[i] == net[i];
  }

  /** The next call joins those under way, and the client waits for it. */
  lemma SendCalls(net: seq<Message>, reply: Option<(nat, S.Reply)>, c: Client, c': Client, call: S.Call)
    requires CallsOk(net, reply, c) && !call.AcquireCall? && call.body == Caller(c) && c'.lease == c.lease
    requires c'.waiting == Some(c.nextCall) && c'.nextCall == c.nextCall + 1 && Matches(call, c'.phase)
    ensures CallsOk(net + [Message(c.nextCall, call)], None, c')
  {
  }

  lemma ExecuteKeeps(w: World, inputs: Payload)
    requires WorldInv(w)
    ensures WorldInv(Execute(w, inputs))
  {
    if w.client.phase.AtRest? && !w.client.closed && !w.client.needsReset {
      var call := S.SubmitCall(Caller(w.client), S.Name(w.client.nextRequest), inputs);
      var w' := Execute(w, inputs);
      SendCalls(w.net, w.reply, w.client, w'.client, call);
      NoSubmitMore(w.net, Message(w.client.nextCall, call));
      assert NoSubmit(w.net);
    }
  }

  lemma ResetStepKeeps(w: World)
    requires WorldInv(w)
    ensures WorldInv(Reset(w))
  {
    if w.client.phase.AtRest? && !w.client.closed {
      var call := S.ResetCall(Caller(w.client));
      SendCalls(w.net, w.reply, w.client, Reset(w).client, call);
      NoSubmitMore(w.net, Message(w.client.nextCall, call));
    }
  }

  /** A last call whose reply nobody waits for. */
  lemma LastCall(net: seq<Message>, reply: Option<(nat, S.Reply)>, c: Client, c': Client, call: S.Call)
    requires CallsOk(net, reply, c) && SubmitsOk(net, c)
    requires !call.AcquireCall? && !call.SubmitCall? && call.body == Caller(c)
    requires c'.lease == c.lease && c'.waiting.None? && c'.nextCall == c.nextCall + 1
    requires c'.nextRequest == c.nextRequest && c'.sent == c.sent
    ensures var net' := net + [Message(c.nextCall, call)]; CallsOk(net', None, c') && SubmitsOk(net', c')
  {
  }

  lemma CloseStepKeeps(w: World)
    requires WorldInv(w)
    ensures WorldInv(Remote.Close(w))
  {
    if w.client.phase.AtRest? && !w.client.closed {
      var call := S.ReleaseCall(Caller(w.client));
      LastCall(w.net, w.reply, w.client, Remote.Close(w).client, call);
      NoSubmitMore(w.net, Message(w.client.nextCall, call));
    }
  }

  /** Ask the service something that neither submits nor resets. */
  lemma AskKeeps(w: World, call: S.Call)
    requires WorldInv(w) && w.client.waiting.None? && !call.AcquireCall? && call.body == Caller(w.client)
    requires !call.SubmitCall? && Matches(call, w.client.phase)
    ensures WorldInv(Send(w, call))
  {
    SendCalls(w.net, w.reply, w.client, Send(w, call).client, call);
    NoSubmitMore(w.net, Message(w.client.nextCall, call));
  }

  lemma PollStepKeeps(w: World)
    requires WorldInv(w)
    ensures WorldInv(PollAgain(w))
  {
    if w.client.waiting.None? {
      match w.client.phase
      case Polling(r, _) => AskKeeps(w, S.ResultCall(Caller(w.client), S.Name(r)));
      case Confirming => AskKeeps(w, S.StatusCall(Caller(w.client)));
      case _ =>
    }
  }

  /** The reply that the client waits for is here. */
  predicate Answered(w: World) {
    w.reply.Some? && w.client.waiting == Some(w.reply.value.0)
  }

  lemma FailKeeps(w: World)
    requires WorldInv(w)
    ensures WorldInv(w.(reply := None, client := Fail(w.client)))
  {
  }

  /** A reply is taken in and the client stays in its phase. */
  lemma TakeKeeps(w: World)
    requires WorldInv(w) && Answered(w)
    ensures WorldInv(w.(reply := None, client := w.client.(waiting := None)))
  {
  }

  /** A finished execution, successful or not, is acknowledged. */
  lemma AckedKeeps(w: World, outcome: S.Outcome)
    requires WorldInv(w) && Answered(w) && w.client.phase.Polling?
    requires outcome.Returned? ==>
      exists inputs :: Returned(w.svc.log, w.client.lease, w.client.phase.request, inputs, outcome.output)
    ensures WorldInv(Acked(w.(reply := None, client := w.client.(waiting := None)), outcome))
  {
    TakeKeeps(w);
    var w1 := w.(reply := None, client := w.client.(waiting := None));
    var p := w.client.phase;
    if outcome.Returned? {
      var inputs :| Returned(w.svc.log, w.client.lease, p.request, inputs, outcome.output);
      var k: nat :| RanAs(w.svc.log, k, w.client.lease, p.request, inputs, outcome.output);
      assert Sent(w.client, p.request, inputs);
    }
    var w2 := w1.(client := w1.client.(phase := Acking(p.request, p.inputs, outcome)));
    assert WorldInv(w2);
    AskKeeps(w2, S.AckCall(Caller(w.client), S.Name(p.request)));
  }

  lemma AcceptedKeeps(w: World)
    requires WorldInv(w) && Answered(w) && w.client.phase.Submitting?
    ensures var p := w.client.phase;
      WorldInv(w.(reply := None, client := w.client.(waiting := None, phase := Polling(p.request, p.inputs))))
  {
  }

  lemma ReturnKeeps(w: World)
    requires WorldInv(w) && Answered(w) && !w.reply.value.1.Refused?
    requires w.client.phase.Acking? && w.client.phase.outcome.Returned?
    ensures var p := w.client.phase;
      WorldInv(w.(reply := None, client := w.client.(waiting := None, phase := AtRest,
        finished := w.client.finished + [Finished(p.request, p.inputs, p.outcome.output)])))
  {
  }

  lemma ConfirmKeeps(w: World)
    requires WorldInv(w) && Answered(w) && !w.reply.value.1.Refused?
    ensures w.client.phase.Resetting? ==>
      WorldInv(w.(reply := None, client := w.client.(waiting := None, phase := Confirming)))
    ensures w.client.phase.Confirming? && w.reply.value.1.Idle? ==>
      WorldInv(w.(reply := None, client := w.client.(waiting := None, phase := AtRest, needsReset := false)))
  {
  }

  /** The reply ends the polling with this outcome. */
  ghost predicate Ends(w: World, outcome: S.Outcome) {
    w.client.phase.Polling? &&
    match w.reply
    case Some((_, Ready(r, output))) => r == w.client.phase.request && outcome == S.Returned(output)
    case Some((_, ProviderError(r, kind))) => r == w.client.phase.request && outcome == S.Raised(kind)
    case _ => false
  }

  lemma ReceiveEnds(w: World, outcome: S.Outcome)
    requires WorldInv(w) && Answered(w) && Ends(w, outcome)
    ensures WorldInv(Receive(w))
  {
    AckedKeeps(w, outcome);
  }

  lemma ReceiveWaits(w: World)
    requires WorldInv(w) && Answered(w) && w.client.phase.Polling?
    requires forall outcome :: !Ends(w, outcome)
    ensures WorldInv(Receive(w))
  {
    FailKeeps(w);
    TakeKeeps(w);
    var reply, r := w.reply.value.1, w.client.phase.request;
    if reply.Ready? {
      assert !Ends(w, S.Returned(reply.output));
    } else if reply.ProviderError? {
      assert !Ends(w, S.Raised(reply.kind));
    }
    assert Receive(w) == w.(reply := None, client := Fail(w.client))
        || Receive(w) == w.(reply := None, client := w.client.(waiting := None));
  }

  lemma ReceiveEnding(w: World)
    requires WorldInv(w) && Answered(w) && w.client.phase.Acking?
    ensures WorldInv(Receive(w))
  {
    FailKeeps(w);
    if !w.reply.value.1.Refused? && w.client.phase.outcome.Returned? {
      ReturnKeeps(w);
    }
  }

  lemma ReceiveElse(w: World)
    requires WorldInv(w) && Answered(w) && !w.client.phase.Polling? && !w.client.phase.Acking?
    ensures WorldInv(Receive(w))
  {
    FailKeeps(w);
    TakeKeeps(w);
    if !w.reply.value.1.Refused? {
      if w.client.phase.Submitting? {
        AcceptedKeeps(w);
      } else {
        ConfirmKeeps(w);
      }
    }
  }

  lemma ReceiveKeeps(w: World)
    requires WorldInv(w)
    ensures WorldInv(Receive(w))
  {
    if Answered(w) {
      if w.client.phase.Polling? {
        if outcome :| Ends(w, outcome) {
          ReceiveEnds(w, outcome);
        } else {
          ReceiveWaits(w);
        }
      } else if w.client.phase.Acking? {
        ReceiveEnding(w);
      } else {
        ReceiveElse(w);
      }
    }
  }

  lemma DropKeeps(w: World)
    requires WorldInv(w) && w.net != []
    ensures WorldInv(w.(net := w.net[1..]))
  {
  }

  // ---- service steps ---------------------------------------------------------

  lemma ReturnedExtends(log: seq<S.Event>, event: S.Event, lease: nat, request: nat, inputs: Payload, output: Payload)
    requires Returned(log, lease, request, inputs, output)
    ensures Returned(log + [event], lease, request, inputs, output)
  {
    var k: nat :| RanAs(log, k, lease, request, inputs, output);
    assert RanAs(log + [event], k, lease, request, inputs, output);
  }

  /** What the rest of the world has to know about a service step that runs nothing and
      queues nothing for this lease. */
  ghost predicate Unseen(s: S.State, r: S.State, lease: nat) {
    && Inv(r) && r.log == s.log && s.nextLease <= r.nextLease
    && (QueuedMine(r, lease) ==> Queued(r) == Queued(s))
    && (Unpended(s, lease) ==> Unpended(r, lease))
  }

  lemma UnseenKeeps(w: World, svc: S.State)
    requires WorldInv(w) && Unseen(w.svc, svc, w.client.lease)
    ensures WorldInv(w.(svc := svc))
  {
  }

  // ---- who holds what --------------------------------------------------------

  lemma BeginResetUnpends(s: S.State, release: bool, lease: nat)
    ensures Unpended(S.BeginReset(s, release), lease)
  {
  }

  lemma MaintainUnseen(s: S.State, timeout: nat, lease: nat)
    requires Inv(s)
    ensures Unseen(s, S.Maintain(s, timeout), lease)
  {
    MaintainKeeps(s, timeout);
    MaintainQueues(s, timeout);
  }

  lemma CheckUnseen(s: S.State, timeout: nat, body: S.Body, lease: nat)
    requires Inv(s)
    ensures Unseen(s, S.Check(s, timeout, body).0, lease)
  {
    CheckKeeps(s, timeout, body);
    CheckQueues(s, timeout, body);
    MaintainUnseen(s, timeout, lease);
  }

  /** A call that is not an accepted submit for the lease. */
  predicate Harmless(call: S.Call, lease: nat) {
    call.SubmitCall? ==> call.body != S.Body(true, lease)
  }

  lemma SubmitUnpends(s: S.State, timeout: nat, body: S.Body, request: S.Request, inputs: Payload, lease: nat)
    requires Inv(s) && body != S.Body(true, lease) && Unpended(s, lease)
    ensures Unpended(S.Submit(s, timeout, body, request, inputs).0, lease)
  {
    CheckUnseen(s, timeout, body, lease);
    var (s1, refusal) := S.Check(s, timeout, body);
    assert refusal.None? ==> body.current && s1.lease == Some(body.lease);
  }

  lemma QueryUnpends(s: S.State, timeout: nat, body: S.Body, request: S.Request, lease: nat)
    requires Inv(s) && Unpended(s, lease)
    ensures Unpended(S.Result(s, timeout, body, request).0, lease)
    ensures Unpended(S.Acknowledge(s, timeout, body, request).0, lease)
    ensures Unpended(S.Status(s, timeout, body).0, lease)
  {
    CheckUnseen(s, timeout, body, lease);
  }

  lemma ResetUnpends(s: S.State, timeout: nat, body: S.Body, lease: nat)
    requires Inv(s) && Unpended(s, lease)
    ensures Unpended(S.Reset(s, timeout, body).0, lease)
    ensures Unpended(S.Release(s, timeout, body).0, lease)
  {
    CheckUnseen(s, timeout, body, lease);
    BeginResetUnpends(S.Check(s, timeout, body).0, false, lease);
    BeginResetUnpends(S.Check(s, timeout, body).0, true, lease);
  }

  /** A lease is never given out twice. */
  lemma AcquireUnpends(s: S.State, timeout: nat, lease: nat)
    requires Inv(s) && lease < s.nextLease && Unpended(s, lease)
    ensures Unpended(S.Acquire(s, timeout).0, lease)
  {
    MaintainUnseen(s, timeout, lease);
  }

  lemma HarmlessUnpends(s: S.State, timeout: nat, call: S.Call, lease: nat)
    requires Inv(s) && Harmless(call, lease) && lease < s.nextLease && Unpended(s, lease)
    ensures Unpended(S.Serve(s, timeout, call).0, lease)
  {
    match call
    case AcquireCall => AcquireUnpends(s, timeout, lease);
    case SubmitCall(body, request, inputs) => SubmitUnpends(s, timeout, body, request, inputs, lease);
    case ResultCall(body, request) => QueryUnpends(s, timeout, body, request, lease);
    case AckCall(body, request) => QueryUnpends(s, timeout, body, request, lease);
    case ResetCall(body) => ResetUnpends(s, timeout, body, lease);
    case StatusCall(body) => QueryUnpends(s, timeout, body, S.Malformed, lease);
    case ReleaseCall(body) => ResetUnpends(s, timeout, body, lease);
  }

  lemma NextLeaseGrows(s: S.State, timeout: nat, call: S.Call)
    ensures s.nextLease <= S.Serve(s, timeout, call).0.nextLease
  {
    var s1 := S.Maintain(s, timeout);
    assert s1.nextLease == s.nextLease;
    if !call.AcquireCall? {
      assert S.Check(s, timeout, call.body).0.nextLease == s1.nextLease;
    }
  }

  lemma ServeUnseen(s: S.State, timeout: nat, call: S.Call, lease: nat)
    requires Inv(s) && Harmless(call, lease) && lease < s.nextLease
    ensures Unseen(s, S.Serve(s, timeout, call).0, lease)
  {
    ServeKeeps(s, timeout, call);
    ServeQueues(s, timeout, call);
    NextLeaseGrows(s, timeout, call);
    if Unpended(s, lease) {
      HarmlessUnpends(s, timeout, call, lease);
    }
  }

  // ---- what the replies to the client's own calls mean -----------------------

  lemma ResultMeans(s: S.State, timeout: nat, body: S.Body, request: S.Request)
    requires Inv(s)
    ensures var (r, reply) := S.Result(s, timeout, body, request);
      reply.Ready? ==> exists inputs :: Returned(r.log, body.lease, reply.request, inputs, reply.output)
  {
    CheckKeeps(s, timeout, body);
    var (s1, reply) := S.Result(s, timeout, body, request);
    if reply.Ready? {
      var t := s1.pending.value;
      var k: nat :| k < |s1.log| && s1.log[k].task.ticket == t;
      assert IsPending(s1.log[k].task, s1.pending, s1.request, s1.epoch);
      assert Attributed(s1.log[k].task.job, s1.epoch, s1.nextLease, s1.lease, s1.closed);
      assert RanAs(s1.log, k, body.lease, reply.request, s1.log[k].task.job.inputs, reply.output);
      assert Returned(s1.log, body.lease, reply.request, s1.log[k].task.job.inputs, reply.output);
    }
  }

  lemma AckMeans(s: S.State, timeout: nat, body: S.Body, request: S.Request)
    requires Inv(s)
    ensures var (r, reply) := S.Acknowledge(s, timeout, body, request);
      !reply.Refused? ==> !Executing(r)
  {
    CheckKeeps(s, timeout, body);
  }

  lemma StatusMeans(s: S.State, timeout: nat, body: S.Body)
    requires Inv(s) && Unpended(s, body.lease)
    ensures var (r, reply) := S.Status(s, timeout, body); reply.Idle? ==> !Executing(r)
  {
    CheckKeeps(s, timeout, body);
    CheckUnseen(s, timeout, body, body.lease);
  }

  lemma ResetMeans(s: S.State, timeout: nat, body: S.Body)
    ensures var (r, reply) := S.Reset(s, timeout, body); !reply.Refused? ==> Unpended(r, body.lease)
  {
  }

  // ---- deliveries ------------------------------------------------------------

  /** The service turns a submit away. */
  lemma TurnedAwayUnseen(s: S.State, timeout: nat, body: S.Body, request: S.Request, inputs: Payload, lease: nat)
    requires Inv(s) && S.Submit(s, timeout, body, request, inputs).1.Refused?
    ensures Unseen(s, S.Submit(s, timeout, body, request, inputs).0, lease)
  {
    CheckUnseen(s, timeout, body, lease);
  }

  /** The oldest call under way is handled. */
  function Handled(w: World, timeout: nat): World
    requires w.net != []
  {
    w.(svc := S.Serve(w.svc, timeout, w.net[0].call).0, net := w.net[1..])
  }

  lemma HarmlessHandled(w: World, timeout: nat)
    requires WorldInv(w) && w.net != [] && !w.net[0].call.SubmitCall?
    ensures WorldInv(Handled(w, timeout))
  {
    DropKeeps(w);
    ServeUnseen(w.svc, timeout, w.net[0].call, w.client.lease);
    UnseenKeeps(w.(net := w.net[1..]), S.Serve(w.svc, timeout, w.net[0].call).0);
  }

  lemma SubmitHandled(w: World, timeout: nat)
    requires WorldInv(w) && w.net != [] && w.net[0].call.SubmitCall?
    ensures WorldInv(Handled(w, timeout))
  {
    var SubmitCall(body, request, inputs) := w.net[0].call;
    SubmitQueues(w.svc, timeout, body, request, inputs);
    var (svc, reply) := S.Submit(w.svc, timeout, body, request, inputs);
    if reply.Accepted? {
      AcceptedHandled(w, timeout);
    } else {
      TurnedAwayUnseen(w.svc, timeout, body, request, inputs, w.client.lease);
      DropKeeps(w);
      UnseenKeeps(w.(net := w.net[1..]), svc);
    }
  }

  lemma AcceptedHandled(w: World, timeout: nat)
    requires WorldInv(w) && w.net != [] && w.net[0].call.SubmitCall?
    requires S.Serve(w.svc, timeout, w.net[0].call).1.Accepted?
    ensures WorldInv(Handled(w, timeout))
  {
    var SubmitCall(body, request, inputs) := w.net[0].call;
    SubmitQueues(w.svc, timeout, body, request, inputs);
    SubmitKeeps(w.svc, timeout, body, request, inputs);
    NextLeaseGrows(w.svc, timeout, w.net[0].call);
    DropKeeps(w);
    assert !NoSubmit(w.net) && NoSubmit(w.net[1..]);
  }

  /** The reply to the call the client waits for is true of the service that gave it. */
  lemma ReplyMeans(w: World, timeout: nat)
    requires WorldInv(w) && w.net != [] && w.client.waiting == Some(w.net[0].id)
    requires WorldInv(Handled(w, timeout))
    ensures ReplyOk(Handled(w, timeout).(reply := Some((w.net[0].id, S.Serve(w.svc, timeout, w.net[0].call).1))))
  {
    var call := w.net[0].call;
    match w.client.phase
    case AtRest =>
    case Submitting(_, _) =>
    case Polling(_, _) => ResultMeans(w.svc, timeout, call.body, call.request);
    case Acking(_, _, _) => AckMeans(w.svc, timeout, call.body, call.request);
    case Resetting => ResetMeans(w.svc, timeout, call.body);
    case Confirming => StatusMeans(w.svc, timeout, call.body);
  }

  lemma ReplyArrives(w: World, reply: (nat, S.Reply))
    requires WorldInv(w) && w.net == [] && w.client.waiting == Some(reply.0)
    requires ReplyOk(w.(reply := Some(reply)))
    ensures WorldInv(w.(reply := Some(reply)))
  {
  }

  lemma HandledKeeps(w: World, timeout: nat)
    requires WorldInv(w) && w.net != []
    ensures WorldInv(Handled(w, timeout))
  {
    if w.net[0].call.SubmitCall? {
      SubmitHandled(w, timeout);
    } else {
      HarmlessHandled(w, timeout);
    }
  }

  lemma OldestIsLast(net: seq<Message>, id: nat)
    requires net != [] && forall i, j :: 0 <= i < j < |net| ==> net[i].id < net[j].id
    requires forall i :: 0 <= i < |net| ==> net[i].id <= id
    ensures net[0].id == id ==> |net| == 1
  {
    if |net| > 1 {
      assert net[0].id < net[1].id;
    }
  }

  lemma AnswerKeeps(w: World, timeout: nat)
    requires WorldInv(w) && w.net != [] && w.client.waiting == Some(w.net[0].id)
    ensures WorldInv(Handled(w, timeout).(reply := Some((w.net[0].id, S.Serve(w.svc, timeout, w.net[0].call).1))))
  {
    HandledKeeps(w, timeout);
    ReplyMeans(w, timeout);
    OldestIsLast(w.net, w.client.waiting.value);
    ReplyArrives(Handled(w, timeout), (w.net[0].id, S.Serve(w.svc, timeout, w.net[0].call).1));
  }

  lemma DeliverKeeps(w: World, timeout: nat, lost: bool)
    requires WorldInv(w)
    ensures WorldInv(Deliver(w, timeout, lost))
  {
    if w.net != [] {
      if w.client.waiting == Some(w.net[0].id) && !lost {
        AnswerKeeps(w, timeout);
      } else {
        HandledKeeps(w, timeout);
        assert Deliver(w, timeout, lost) == Handled(w, timeout);
      }
    }
  }

  // ---- the service's other steps ---------------------------------------------

  lemma RanJoins(w: World, event: S.Event)
    requires RanOk(w.svc.log, w.client)
    requires Mine(event.task.job, w.client.lease) ==>
      var job := event.task.job;
      job.request < w.client.nextRequest && Sent(w.client, job.request, job.inputs)
      && NotRun(w.svc.log, w.client.lease, job.request)
    ensures RanOk(w.svc.log + [event], w.client)
  {
  }

  /** The execution that waited joins the history of the lease. */
  lemma ExecutorRuns(w: World, outcome: S.Outcome)
    requires WorldInv(w) && w.svc.queue != []
    ensures var svc := S.RunHead(w.svc, outcome);
      !QueuedMine(svc, w.client.lease) && RanOk(svc.log, w.client) && QueuedOk(svc, w.net, w.client)
  {
    var svc := S.RunHead(w.svc, outcome);
    var event := S.Ended(w.svc.queue[0], outcome);
    RanJoins(w, event);
    assert !Executing(svc);
    if !NoSubmit(w.net) {
      assert NotRun(w.svc.log, w.client.lease, w.client.nextRequest - 1);
      assert !Mine(event.task.job, w.client.lease);
    }
  }

  lemma ExecutorKeeps(w: World, outcome: S.Outcome)
    requires WorldInv(w) && w.svc.queue != []
    ensures WorldInv(w.(svc := S.RunHead(w.svc, outcome)))
  {
    RunHeadKeeps(w.svc, outcome);
    ExecutorRuns(w, outcome);
    var event := S.Ended(w.svc.queue[0], outcome);
    forall request, inputs, output | Returned(w.svc.log, w.client.lease, request, inputs, output)
      ensures Returned(w.svc.log + [event], w.client.lease, request, inputs, output)
    {
      ReturnedExtends(w.svc.log, event, w.client.lease, request, inputs, output);
    }
    var w' := w.(svc := S.RunHead(w.svc, outcome));
    assert ReplyOk(w') && PhaseOk(w') && FinishedOk(w'.svc.log, w'.client);
  }

  lemma CloseUnseen(s: S.State, lease: nat)
    requires Inv(s)
    ensures Unseen(s, S.Close(s), lease)
  {
    CloseKeeps(s);
  }

  lemma OtherUnseen(s: S.State, timeout: nat, op: S.Op, lease: nat)
    requires Inv(s) && Foreign(op, lease) && lease < s.nextLease && !op.ExecutorOp?
    ensures Unseen(s, S.Step(s, timeout, op), lease)
  {
    match op
    case CallOp(call) => ServeUnseen(s, timeout, call, lease);
    case MaintainOp => MaintainUnseen(s, timeout, lease);
    case CloseOp => CloseUnseen(s, lease);
    case ClockOp(_) =>
  }

  lemma OtherKeeps(w: World, timeout: nat, op: S.Op)
    requires WorldInv(w) && Foreign(op, w.client.lease)
    ensures WorldInv(w.(svc := S.Step(w.svc, timeout, op)))
  {
    if op.ExecutorOp? {
      if w.svc.queue != [] {
        ExecutorKeeps(w, op.outcome);
      }
    } else {
      OtherUnseen(w.svc, timeout, op, w.client.lease);
      UnseenKeeps(w, S.Step(w.svc, timeout, op));
    }
  }

  lemma StepKeeps(w: World, timeout: nat, op: Op)
    requires WorldInv(w) && OpOk(op, w.client.lease)
    ensures WorldInv(Step(w, timeout, op))
  {
    match op
    case ExecuteOp(inputs) => ExecuteKeeps(w, inputs);
    case ResetOp => ResetStepKeeps(w);
    case CloseOp => CloseStepKeeps(w);
    case PollOp => PollStepKeeps(w);
    case ReceiveOp => ReceiveKeeps(w);
    case GiveUpOp => FailKeeps(w);
    case DeliverOp(lost) => DeliverKeeps(w, timeout, lost);
    case DropOp =>
      if w.net != [] {
        DropKeeps(w);
      }
    case OtherOp(op) => OtherKeeps(w, timeout, op);
  }

  // ---- runs ------------------------------------------------------------------

  lemma LeaseStays(w: World, timeout: nat, op: Op)
    ensures Step(w, timeout, op).client.lease == w.client.lease
  {
  }

  /** What a run keeps up to its n-th world. */
  ghost predicate HoldsAt(worlds: seq<World>, n: nat) {
    n < |worlds| && WorldInv(worlds[n]) && worlds[n].client.lease == worlds[0].client.lease
  }

  lemma StepAtKeeps(worlds: seq<World>, ops: seq<Op>, timeout: nat, n: nat)
    requires IsRun(worlds, ops, timeout) && 0 < n <= |ops| && HoldsAt(worlds, n - 1)
    ensures HoldsAt(worlds, n)
  {
    assert StepAt(worlds, ops, timeout, n - 1);
    StepKeeps(worlds[n - 1], timeout, ops[n - 1]);
    LeaseStays(worlds[n - 1], timeout, ops[n - 1]);
  }

  lemma {:induction false} HoldsThroughout(worlds: seq<World>, ops: seq<Op>, timeout: nat, n: nat)
    requires IsRun(worlds, ops, timeout) && HoldsAt(worlds, 0) && n <= |ops|
    ensures HoldsAt(worlds, n)
  {
    if n > 0 {
      HoldsThroughout(worlds, ops, timeout, n - 1);
      StepAtKeeps(worlds, ops, timeout, n);
    }
  }

  lemma RunKeeps(worlds: seq<World>, ops: seq<Op>, timeout: nat, n: nat)
    requires IsRun(worlds, ops, timeout) && WorldInv(worlds[0]) && n <= |ops|
    ensures WorldInv(worlds[n]) && worlds[n].client.lease == worlds[0].client.lease
  {
    HoldsThroughout(worlds, ops, timeout, n);
  }

  /** Nothing was ever run, or waits to be, for a lease that has not been given out. */
  lemma NothingYet(s: S.State)
    requires Inv(s)
    ensures forall k :: 0 <= k < |s.log| ==> !Mine(s.log[k].task.job, s.nextLease)
    ensures !QueuedMine(s, s.nextLease)
  {
    forall k | 0 <= k < |s.log| ensures !Mine(s.log[k].task.job, s.nextLease) {
      assert Attributed(s.log[k].task.job, s.epoch, s.nextLease, s.lease, s.closed);
    }
    if Executing(s) {
      assert Attributed(s.queue[0].job, s.epoch, s.nextLease, s.lease, s.closed);
    }
  }

  /** A lease that has just been given out has never run anything. */
  lemma StartKeeps(s: S.State, timeout: nat)
    requires S.Reached(s, timeout) && S.Acquire(s, timeout).1.Acquired?
    ensures WorldInv(Start(s, timeout))
  {
    ReachedKeeps(s, timeout);
    MaintainKeeps(s, timeout);
    AcquireKeeps(s, timeout);
    NothingYet(S.Maintain(s, timeout));
    FreshWorld(Start(s, timeout));
  }

  /** A new client on a service that has run nothing for its lease. */
  lemma FreshWorld(w: World)
    requires Inv(w.svc) && w.client == Client(w.client.lease, AtRest, None, false, false, 0, 0, map[], [])
    requires w.net == [] && w.reply.None? && w.client.lease < w.svc.nextLease
    requires forall k :: 0 <= k < |w.svc.log| ==> !Mine(w.svc.log[k].task.job, w.client.lease)
    requires !QueuedMine(w.svc, w.client.lease)
    ensures WorldInv(w)
  {
  }

  lemma StartReachable(s: S.State, timeout: nat)
    requires S.Reached(s, timeout) && S.Acquire(s, timeout).1.Acquired?
    ensures Reachable(Start(s, timeout), timeout)
  {
    assert LeadsTo(s, [Start(s, timeout)], [], Start(s, timeout), timeout);
  }

  lemma OtherRuns(s: S.State, timeout: nat, op: S.Op)
    requires Inv(s)
    ensures var log := S.Step(s, timeout, op).log;
      log == s.log || (s.queue != [] && op.ExecutorOp? && log == s.log + [S.Ended(s.queue[0], op.outcome)])
  {
    match op
    case CallOp(call) => ServeQueues(s, timeout, call);
    case MaintainOp => MaintainQueues(s, timeout);
    case CloseOp =>
    case ExecutorOp(_) =>
    case ClockOp(_) =>
  }

  /** A step adds at most one execution of the lease to the history: that of the latest
      execute, where something of the client could still run. */
  lemma StepRuns(w: World, timeout: nat, op: Op, k: nat)
    requires WorldInv(w) && k >= |w.svc.log|
    ensures var r := Step(w, timeout, op); MineAt(r.svc.log, k, w.client.lease) ==>
      !Quiet(w) && r.client == w.client && r.svc.log[k].task.job.request == w.client.nextRequest - 1
    ensures w.svc.log <= Step(w, timeout, op).svc.log
  {
    if op.OtherOp? {
      OtherRuns(w.svc, timeout, op.op);
    } else if op.DeliverOp? && w.net != [] {
      ServeQueues(w.svc, timeout, w.net[0].call);
    }
  }

  lemma ReachableKeeps(w: World, timeout: nat)
    requires Reachable(w, timeout)
    ensures WorldInv(w)
  {
    var s: S.State, worlds: seq<World>, ops: seq<Op> :| LeadsTo(s, worlds, ops, w, timeout);
    StartKeeps(s, timeout);
    RunKeeps(worlds, ops, timeout, |ops|);
  }

  /** What a step leaves behind is reachable again. */
  lemma ReachableSteps(w: World, timeout: nat, op: Op)
    requires Reachable(w, timeout) && OpOk(op, w.client.lease)
    ensures Reachable(Step(w, timeout, op), timeout)
  {
    var s: S.State, worlds: seq<World>, ops: seq<Op> :| LeadsTo(s, worlds, ops, w, timeout);
    RunExtends(worlds, ops, timeout, op);
    assert LeadsTo(s, worlds + [Step(w, timeout, op)], ops + [op], Step(w, timeout, op), timeout);
  }

  lemma RunExtends(worlds: seq<World>, ops: seq<Op>, timeout: nat, op: Op)
    requires IsRun(worlds, ops, timeout) && OpOk(op, worlds[|ops|].client.lease)
    ensures IsRun(worlds + [Step(worlds[|ops|], timeout, op)], ops + [op], timeout)
  {
    var worlds', ops' := worlds + [Step(worlds[|ops|], timeout, op)], ops + [op];
    forall i: nat | i < |ops'| ensures StepAt(worlds', ops', timeout, i) {
      if i < |ops| {
        assert StepAt(worlds, ops, timeout, i);
      }
    }
  }

  // ---- what the client may rely on -------------------------------------------

  /** An execute that returned gave back what the provider computed, in this lease and for
      this request, from the inputs it was given; and that was its one execution. */
  lemma ReturnedOutputIsOwn(w: World, timeout: nat, i: nat) returns (k: nat)
    requires Reachable(w, timeout) && i < |w.client.finished|
    ensures var f := w.client.finished[i];
      && RanAs(w.svc.log, k, w.client.lease, f.request, f.inputs, f.output)
      && forall j :: 0 <= j < |w.svc.log| && j != k && Mine(w.svc.log[j].task.job, w.client.lease) ==>
           w.svc.log[j].task.job.request != f.request
  {
    ReachableKeeps(w, timeout);
    var f := w.client.finished[i];
    k :| RanAs(w.svc.log, k, w.client.lease, f.request, f.inputs, f.output);
  }

  /** Whatever ran for the lease was asked for by this client, with these inputs, and no
      request ever runs twice, whichever calls and replies were lost. */
  lemma EachRequestRunsOnce(w: World, timeout: nat, i: nat, k: nat)
    requires Reachable(w, timeout) && MineAt(w.svc.log, i, w.client.lease) && MineAt(w.svc.log, k, w.client.lease)
    ensures var job := w.svc.log[i].task.job;
      && Sent(w.client, job.request, job.inputs)
      && (job.request == w.svc.log[k].task.job.request <==> i == k)
  {
    ReachableKeeps(w, timeout);
  }

  predicate InExecute(c: Client) { c.phase.Submitting? || c.phase.Polling? || c.phase.Acking? }

  /** One more output was returned, or the need of a reset is latched and none was. */
  predicate Concluded(c: Client, c': Client) {
    && c'.phase.AtRest?
    && (c'.needsReset ==> c'.finished == c.finished)
    && (!c'.needsReset ==> |c'.finished| == |c.finished| + 1 && c'.finished[..|c.finished|] == c.finished)
  }

  lemma ReceiveConcludes(w: World)
    requires InExecute(w.client) && !w.client.needsReset && !InExecute(Receive(w).client)
    ensures Concluded(w.client, Receive(w).client)
  {
  }

  /** An execute ends by returning one output or by latching the need of a reset. */
  lemma ExecuteReturnsOrLatches(w: World, timeout: nat, op: Op)
    requires Reachable(w, timeout) && InExecute(w.client) && !InExecute(Step(w, timeout, op).client)
    ensures Concluded(w.client, Step(w, timeout, op).client)
  {
    ReachableKeeps(w, timeout);
    match op
    case ExecuteOp(_) =>
    case ResetOp =>
    case CloseOp =>
    case PollOp =>
    case ReceiveOp => ReceiveConcludes(w);
    case GiveUpOp =>
    case DeliverOp(_) =>
    case DropOp =>
    case OtherOp(_) =>
  }

  /** The latch opens only when the service has confirmed that a reset is over; from then on
      nothing sent before can run. */
  lemma LatchOpensWhenQuiet(w: World, timeout: nat, op: Op)
    requires Reachable(w, timeout) && OpOk(op, w.client.lease)
    requires w.client.needsReset && !Step(w, timeout, op).client.needsReset
    ensures w.client.phase.Confirming? && w.reply.Some? && w.reply.value.1.Idle?
    ensures Step(w, timeout, op).client.phase.AtRest? && Quiet(Step(w, timeout, op))
  {
    ReachableKeeps(w, timeout);
    StepKeeps(w, timeout, op);
  }

  lemma LatchedSends(w: World, timeout: nat, op: Op)
    requires w.client.needsReset && Step(w, timeout, op).client.needsReset
    ensures Step(w, timeout, op).client.nextRequest == w.client.nextRequest
  {
  }

  /** The client is in need of a reset throughout. */
  ghost predicate Latched(worlds: seq<World>) {
    forall i: nat :: i < |worlds| ==> worlds[i].client.needsReset
  }

  /** From w to r no request was made, the history only grew, and what was added to it at k
      for the client's lease, if anything, is its latest request. */
  ghost predicate LatchedBy(w: World, r: World, k: nat) {
    && r.client.nextRequest == w.client.nextRequest && w.svc.log <= r.svc.log
    && (MineAt(r.svc.log, k, w.client.lease) ==> r.svc.log[k].task.job.request == w.client.nextRequest - 1)
  }

  lemma LatchedJoins(w: World, m: World, r: World, k: nat)
    requires LatchedBy(w, m, k) && LatchedBy(m, r, if k < |m.svc.log| then |m.svc.log| else k)
    requires m.client.lease == w.client.lease
    ensures LatchedBy(w, r, k)
  {
  }

  /** While a reset is needed the client sends no execution, and whatever is added to the
      history for its lease is the latest execute. */
  lemma {:induction false} LatchedRun(worlds: seq<World>, ops: seq<Op>, timeout: nat, n: nat, k: nat)
    requires IsRun(worlds, ops, timeout) && WorldInv(worlds[0]) && Latched(worlds)
    requires n <= |ops| && k >= |worlds[0].svc.log|
    ensures LatchedBy(worlds[0], worlds[n], k)
  {
    if n > 0 {
      var m := worlds[n - 1];
      LatchedRun(worlds, ops, timeout, n - 1, k);
      LatchedAt(worlds, ops, timeout, n - 1, if k < |m.svc.log| then |m.svc.log| else k);
      LatchedJoins(worlds[0], m, worlds[n], k);
    }
  }

  lemma LatchedAt(worlds: seq<World>, ops: seq<Op>, timeout: nat, i: nat, k: nat)
    requires IsRun(worlds, ops, timeout) && WorldInv(worlds[0]) && Latched(worlds)
    requires i < |ops| && k >= |worlds[i].svc.log|
    ensures LatchedBy(worlds[i], worlds[i + 1], k) && worlds[i].client.lease == worlds[0].client.lease
  {
    RunKeeps(worlds, ops, timeout, i);
    assert StepAt(worlds, ops, timeout, i);
    LatchedSends(worlds[i], timeout, ops[i]);
    StepRuns(worlds[i], timeout, ops[i], k);
  }

  /** After a failed execute, until a reset is confirmed, the only thing that may still run
      for the client is that very execute, and at most once. */
  lemma FailedExecuteStops(worlds: seq<World>, ops: seq<Op>, timeout: nat, i: nat, k: nat)
    requires IsRun(worlds, ops, timeout) && Reachable(worlds[0], timeout) && Latched(worlds)
    requires |worlds[0].svc.log| <= i <= k
    requires var w, r := worlds[0], worlds[|ops|];
      MineAt(r.svc.log, i, w.client.lease) && MineAt(r.svc.log, k, w.client.lease)
    ensures var w, job := worlds[0], worlds[|ops|].svc.log[i].task.job;
      i == k && job.request == w.client.nextRequest - 1 && NotRun(w.svc.log, w.client.lease, job.request)
  {
    ReachableKeeps(worlds[0], timeout);
    LatchedRun(worlds, ops, timeout, |ops|, i);
    LatchedRun(worlds, ops, timeout, |ops|, k);
    RunKeeps(worlds, ops, timeout, |ops|);
  }

  lemma OtherQuiet(w: World, timeout: nat, op: S.Op)
    requires WorldInv(w) && Foreign(op, w.client.lease) && Quiet(w)
    ensures Quiet(w.(svc := S.Step(w.svc, timeout, op)))
  {
    match op
    case CallOp(call) => ServeUnseen(w.svc, timeout, call, w.client.lease);
    case MaintainOp => MaintainUnseen(w.svc, timeout, w.client.lease);
    case CloseOp =>
    case ExecutorOp(outcome) =>
      if w.svc.queue != [] {
        ExecutorRuns(w, outcome);
      }
    case ClockOp(_) =>
  }

  lemma ReceiveQuiet(w: World)
    requires Quiet(w)
    ensures Quiet(Receive(w))
  {
    if w.client.phase.Polling? {
      NoSubmitMore(w.net, Message(w.client.nextCall, S.AckCall(Caller(w.client), S.Name(w.client.phase.request))));
    }
  }

  lemma QuietStays(w: World, timeout: nat, op: Op)
    requires WorldInv(w) && OpOk(op, w.client.lease) && Quiet(w)
    ensures var r := Step(w, timeout, op); r.client.nextRequest == w.client.nextRequest ==> Quiet(r)
  {
    match op
    case ExecuteOp(_) =>
    case ResetOp =>
    case CloseOp =>
    case PollOp =>
    case ReceiveOp => ReceiveQuiet(w);
    case GiveUpOp =>
    case DeliverOp(_) =>
      if w.net != [] {
        ServeUnseen(w.svc, timeout, w.net[0].call, w.client.lease);
      }
    case DropOp =>
    case OtherOp(op) => OtherQuiet(w, timeout, op);
  }

  lemma RequestsGrow(w: World, timeout: nat, op: Op)
    ensures Step(w, timeout, op).client.nextRequest >= w.client.nextRequest
  {
  }

  /** From w to r: quiet unless another request was made, and what was added at k of the
      history for the client's lease, if anything, is a later request than those before w. */
  ghost predicate QuietBy(w: World, r: World, k: nat) {
    && r.client.nextRequest >= w.client.nextRequest && |w.svc.log| <= |r.svc.log|
    && (r.client.nextRequest == w.client.nextRequest ==> Quiet(r))
    && (MineAt(r.svc.log, k, w.client.lease) ==> r.svc.log[k].task.job.request >= w.client.nextRequest)
  }

  /** What one step does: quiet stays quiet unless a request is made, the history only
      grows, and what it adds at k for the client's lease, if anything, is its latest
      request, and is added only when it was not quiet. */
  ghost predicate QuietStep(m: World, r: World, k: nat) {
    && r.client.nextRequest >= m.client.nextRequest && m.svc.log <= r.svc.log
    && (Quiet(m) && r.client.nextRequest == m.client.nextRequest ==> Quiet(r))
    && (MineAt(r.svc.log, k, m.client.lease) ==> !Quiet(m) && r.svc.log[k].task.job.request == m.client.nextRequest - 1)
  }

  lemma QuietJoins(w: World, m: World, r: World, k: nat)
    requires QuietBy(w, m, k) && QuietStep(m, r, if k < |m.svc.log| then |m.svc.log| else k)
    requires m.client.lease == w.client.lease
    ensures QuietBy(w, r, k)
  {
  }

  lemma {:induction false} QuietRun(worlds: seq<World>, ops: seq<Op>, timeout: nat, n: nat, k: nat)
    requires IsRun(worlds, ops, timeout) && WorldInv(worlds[0]) && Quiet(worlds[0])
    requires n <= |ops| && k >= |worlds[0].svc.log|
    ensures QuietBy(worlds[0], worlds[n], k)
  {
    if n > 0 {
      var m := worlds[n - 1];
      QuietRun(worlds, ops, timeout, n - 1, k);
      RunKeeps(worlds, ops, timeout, n - 1);
      QuietAt(worlds, ops, timeout, n - 1, if k < |m.svc.log| then |m.svc.log| else k);
      QuietJoins(worlds[0], m, worlds[n], k);
    }
  }

  lemma QuietAt(worlds: seq<World>, ops: seq<Op>, timeout: nat, i: nat, k: nat)
    requires IsRun(worlds, ops, timeout) && i < |ops| && WorldInv(worlds[i]) && k >= |worlds[i].svc.log|
    ensures QuietStep(worlds[i], worlds[i + 1], k)
  {
    var m, op := worlds[i], ops[i];
    assert StepAt(worlds, ops, timeout, i);
    RequestsGrow(m, timeout, op);
    if Quiet(m) {
      QuietStays(m, timeout, op);
    }
    StepRuns(m, timeout, op, k);
  }

  /** Once the client rests with nothing to reset, no execute it made before, returned or
      failed, runs again: whatever runs later for its lease is a later execute. */
  lemma NothingOldRuns(worlds: seq<World>, ops: seq<Op>, timeout: nat, k: nat)
    requires IsRun(worlds, ops, timeout) && Reachable(worlds[0], timeout)
    requires worlds[0].client.phase.AtRest? && !worlds[0].client.needsReset
    requires k >= |worlds[0].svc.log| && MineAt(worlds[|ops|].svc.log, k, worlds[0].client.lease)
    ensures worlds[|ops|].svc.log[k].task.job.request >= worlds[0].client.nextRequest
  {
    ReachableKeeps(worlds[0], timeout);
    QuietRun(worlds, ops, timeout, |ops|, k);
  }
}
