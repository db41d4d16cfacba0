/** The remote provider: its calls, one at a time, against a network and a service that go
    their own way between them. */
module RemoteProviders {
  import opened Wrappers
  import S = ServiceSpec
  import opened Remote
  import opened RemoteProofs

  datatype Answer = Output(output: Payload) | Failed

  /** A reply has come, and it is not a refusal. */
  predicate Taken(reply: Option<S.Reply>) {
    reply.Some? && !reply.value.Refused?
  }

  /** The outside does not act for the client. */
  predicate IsOutside(op: Op, lease: nat) {
    op.DeliverOp? || op.DropOp? || (op.OtherOp? && Foreign(op.op, lease))
  }

  class RemoteProvider {
    const timeout: nat
    /** What happens next outside the client: anything that is not a step of its own. */
    const outside: nat -> Op
    /** How many outside steps a call waits for, and how many polls an execute makes. */
    const patience: nat
    const polls: nat
    var seen: nat
    var world: World

    ghost predicate Valid()
      reads this
    {
      Reachable(world, timeout)
    }

    /** Between calls the client waits for nothing. */
    ghost predicate Resting()
      reads this
    {
      Valid() && world.client.phase.AtRest?
    }

    constructor (timeout: nat, outside: nat -> Op, patience: nat, polls: nat, service: S.State)
      requires S.Reached(service, timeout) && S.Acquire(service, timeout).1.Acquired?
      ensures Resting() && world == Start(service, timeout)
    {
      this.timeout, this.outside, this.patience, this.polls := timeout, outside, patience, polls;
      seen, world := 0, Start(service, timeout);
      StartReachable(service, timeout);
    }

    // ---- what the client hears -----------------------------------------------

    /** From w, and the outside's step number `from` on, the outside acts until a reply is
        there, but at most n times. */
    ghost function Outlast(w: World, from: nat, n: nat): (World, nat)
      decreases n
    {
      if n == 0 || w.reply.Some? then (w, from)
      else
        var w1 := if IsOutside(outside(from), w.client.lease) then Step(w, timeout, outside(from)) else w;
        Outlast(w1, from + 1, n - 1)
    }

    /** Where the client begins to wait for the k-th reply, if it began to wait for the first
        in w and takes in each that comes and asks again. */
    ghost function Talk(w: World, from: nat, k: nat): (World, nat) {
      if k == 0 then (w, from)
      else
        var (before, at) := Talk(w, from, k - 1);
        var (after, next) := Outlast(before, at, patience);
        (PollAgain(Receive(after)), next)
    }

    /** The k-th reply, if it comes within the client's patience. */
    ghost function Heard(w: World, from: nat, k: nat): Option<S.Reply> {
      var (before, at) := Talk(w, from, k);
      var after := Outlast(before, at, patience).0;
      if after.reply.Some? then Some(after.reply.value.1) else None
    }

    /** The submission is taken, and the next n - 1 replies say that request r still runs. */
    ghost predicate Runs(w: World, from: nat, r: nat, n: nat) {
      Taken(Heard(w, from, 0)) && forall k: nat :: 0 < k < n ==> Heard(w, from, k) == Some(S.StillRunning(r))
    }

    /** The n-th reply hands over the output, and its acknowledgement is taken. */
    ghost predicate Returns(w: World, from: nat, r: nat, n: nat, output: Payload) {
      Heard(w, from, n) == Some(S.Ready(r, output)) && Taken(Heard(w, from, n + 1))
    }

    /** The n-th reply neither says that r still runs, nor leads to its output. */
    ghost predicate Breaks(w: World, from: nat, r: nat, n: nat) {
      Heard(w, from, n) != Some(S.StillRunning(r)) && forall output :: !Returns(w, from, r, n, output)
    }

    /** Why an execute of request r answers as it does, after n polls. */
    ghost predicate Explains(w: World, from: nat, r: nat, n: nat, answer: Answer) {
      match answer
      case Output(output) => 0 < n <= polls && Runs(w, from, r, n) && Returns(w, from, r, n, output)
      case Failed =>
        || !Taken(Heard(w, from, 0))
        || (0 < n <= polls && Runs(w, from, r, n) && Breaks(w, from, r, n))
        || Runs(w, from, r, polls + 1)
    }

    /** The reset is taken, and the next n - 1 replies say that it still goes on. */
    ghost predicate Resets(w: World, from: nat, n: nat) {
      forall k: nat :: k < n ==> Taken(Heard(w, from, k)) && (k > 0 ==> !Heard(w, from, k).value.Idle?)
    }

    ghost predicate ExplainsReset(w: World, from: nat, n: nat, ok: bool) {
      if ok then 0 < n <= polls && Resets(w, from, n) && Heard(w, from, n) == Some(S.Idle)
      else (n <= polls && Resets(w, from, n) && !Taken(Heard(w, from, n))) || Resets(w, from, polls + 1)
    }

    /** What is heard determines the answer: an execute whose submission is taken and that
        within its polls is told the output, and whose acknowledgement is taken, returns it. */
    lemma AnswerIsHeard(w: World, from: nat, r: nat, n: nat, output: Payload, m: nat, answer: Answer)
      requires 0 < n <= polls && Runs(w, from, r, n) && Returns(w, from, r, n, output)
      requires Explains(w, from, r, m, answer)
      ensures answer == Output(output)
    {
      assert 0 < m < n ==> Heard(w, from, m) == Some(S.StillRunning(r));
      assert n < m && Runs(w, from, r, m) ==> Heard(w, from, n) == Some(S.StillRunning(r));
      assert Runs(w, from, r, polls + 1) ==> Heard(w, from, n) == Some(S.StillRunning(r));
    }

    /** A reset whose calls are taken and that within its polls is told that the service is
        idle succeeds. */
    lemma ResetIsHeard(w: World, from: nat, n: nat, m: nat, ok: bool)
      requires 0 < n <= polls && Resets(w, from, n) && Heard(w, from, n) == Some(S.Idle)
      requires ExplainsReset(w, from, m, ok)
      ensures ok
    {
      assert m < n ==> Taken(Heard(w, from, m));
      assert n < m && Resets(w, from, m) ==> Heard(w, from, n) != Some(S.Idle);
      assert Resets(w, from, polls + 1) ==> Heard(w, from, n) != Some(S.Idle);
    }

    /** The outside neither moves the client nor replies to anything but its call. */
    lemma {:induction false} OutlastKeeps(w: World, from: nat, n: nat)
      ensures Outlast(w, from, n).0.client == w.client
      ensures w.reply.None? && Outlast(w, from, n).0.reply.Some? ==>
        w.client.waiting == Some(Outlast(w, from, n).0.reply.value.0)
      decreases n
    {
      if n > 0 && w.reply.None? {
        var w1 := if IsOutside(outside(from), w.client.lease) then Step(w, timeout, outside(from)) else w;
        OutlastKeeps(w1, from + 1, n - 1);
        assert w1.reply.Some? ==> w.client.waiting == Some(w1.reply.value.0);
      }
    }

    /** The call that the client has just sent and whose reply it waits for. */
    ghost predicate Sent(w: World, call: S.Call) {
      && w.net != [] && w.net[|w.net| - 1].call == call && w.client.waiting == Some(w.net[|w.net| - 1].id)
      && w.reply.None?
    }

    /** While request r runs, every reply but the first is waited for behind a result call. */
    lemma {:induction false} AsksResult(w: World, from: nat, inputs: Payload, r: nat, k: nat)
      requires w.client.phase == Submitting(r, inputs) && w.client.waiting.Some? && w.reply.None?
      requires k > 0 && Runs(w, from, r, k)
      ensures var w1 := Talk(w, from, k).0;
        && Sent(w1, S.ResultCall(Caller(w.client), S.Name(r)))
        && w1.client.phase == Polling(r, inputs) && w1.client.lease == w.client.lease
      decreases k
    {
      if k > 1 {
        AsksResult(w, from, inputs, r, k - 1);
        assert Heard(w, from, k - 1) == Some(S.StillRunning(r));
      }
      var (before, at) := Talk(w, from, k - 1);
      OutlastKeeps(before, at, patience);
      ReceiveHeeds(Outlast(before, at, patience).0);
    }

    /** What an execute says: it submits its own inputs under a new name, asks for the result
        of that name, and acknowledges it. */
    lemma SaysWhatItShould(w0: World, from: nat, inputs: Payload, n: nat)
      requires w0.client.phase.AtRest? && !w0.client.closed && !w0.client.needsReset
      ensures var w, r, me := Step(w0, timeout, ExecuteOp(inputs)), w0.client.nextRequest, Caller(w0.client);
        && Sent(Talk(w, from, 0).0, S.SubmitCall(me, S.Name(r), inputs))
        && (n > 0 && Runs(w, from, r, n) ==> Sent(Talk(w, from, n).0, S.ResultCall(me, S.Name(r))))
        && (n > 0 && Runs(w, from, r, n) && Heard(w, from, n).Some? && Heard(w, from, n).value.Ready?
            && Heard(w, from, n).value.request == r ==>
              Sent(Talk(w, from, n + 1).0, S.AckCall(me, S.Name(r))))
    {
      var w, r := Step(w0, timeout, ExecuteOp(inputs)), w0.client.nextRequest;
      if n > 0 && Runs(w, from, r, n) {
        AsksResult(w, from, inputs, r, n);
        var (before, at) := Talk(w, from, n);
        OutlastKeeps(before, at, patience);
        AnswerAcked(Outlast(before, at, patience).0);
      }
    }

    lemma {:induction false} AsksStatus(w: World, from: nat, k: nat)
      requires w.client.phase.Resetting? && w.client.waiting.Some? && w.reply.None?
      requires k > 0 && Resets(w, from, k)
      ensures var w1 := Talk(w, from, k).0;
        && Sent(w1, S.StatusCall(Caller(w.client)))
        && w1.client.phase.Confirming? && w1.client.lease == w.client.lease
      decreases k
    {
      if k > 1 {
        AsksStatus(w, from, k - 1);
      }
      assert Taken(Heard(w, from, k - 1));
      var (before, at) := Talk(w, from, k - 1);
      OutlastKeeps(before, at, patience);
      ReceiveHeeds(Outlast(before, at, patience).0);
    }

    /** A reset asks for itself once, and then for the status. */
    lemma ResetSaysWhatItShould(w0: World, from: nat, n: nat)
      requires w0.client.phase.AtRest? && !w0.client.closed
      ensures var w, me := Step(w0, timeout, ResetOp), Caller(w0.client);
        && Sent(Talk(w, from, 0).0, S.ResetCall(me))
        && (n > 0 && Resets(w, from, n) ==> Sent(Talk(w, from, n).0, S.StatusCall(me)))
    {
      if n > 0 && Resets(Step(w0, timeout, ResetOp), from, n) {
        AsksStatus(Step(w0, timeout, ResetOp), from, n);
      }
    }

    // ---- the calls -----------------------------------------------------------

    /** One step of the client's own. */
    method Take(op: Op)
      requires Valid() && OpOk(op, world.client.lease)
      modifies `world
      ensures Valid() && world == Step(old(world), timeout, op)
    {
      ReachableSteps(world, timeout, op);
      world := Step(world, timeout, op);
    }

    /** Ask again. */
    method Ask()
      requires Valid()
      modifies `world
      ensures Valid() && world == PollAgain(old(world))
    {
      Take(PollOp);
    }

    /** Stop waiting. */
    method GiveUp()
      requires Valid() && !world.client.phase.AtRest?
      modifies `world
      ensures Valid() && world.client == Fail(old(world.client))
    {
      Take(GiveUpOp);
    }

    /** Let the outside go on until the reply is here or the call has waited long enough. */
    method Await()
      requires Valid()
      modifies `world, `seen
      ensures Valid() && world.client == old(world.client)
      ensures (world, seen) == Outlast(old(world), old(seen), patience)
    {
      var waited := 0;
      while waited < patience && world.reply.None?
        invariant Valid() && waited <= patience && world.client == old(world.client)
        invariant Outlast(world, seen, patience - waited) == Outlast(old(world), old(seen), patience)
      {
        var op := outside(seen);
        if op.DeliverOp? || op.DropOp? || (op.OtherOp? && Foreign(op.op, world.client.lease)) {
          Take(op);
        }
        seen, waited := seen + 1, waited + 1;
      }
    }

    /** Wait for the reply to the call that was sent and take it in, or give up. */
    method Finish()
      requires Valid() && !world.client.phase.AtRest?
      modifies `world, `seen
      ensures Valid() && Continues(old(world.client), world.client)
      ensures var (after, next) := Outlast(old(world), old(seen), patience);
        && seen == next && (after.reply.Some? ==> world == Receive(after))
        && (after.reply.None? ==> world.client == Fail(old(world.client)))
    {
      Await();
      if world.reply.Some? {
        if InExecute(world.client) {
          NeverLatchedInExecute(world, timeout);
        }
        ReceiveContinues(world);
        Take(ReceiveOp);
      } else {
        GiveUp();
      }
    }

    /** Client c is between two calls, and the next waits for the k-th reply since w. */
    ghost predicate Between(w: World, from: nat, c: Client, k: nat)
      reads this
    {
      world.client == c.(nextCall := world.client.nextCall) && (PollAgain(world), seen) == Talk(w, from, k)
    }

    /** Wait for the k-th reply since w. */
    method Hear(ghost w: World, ghost from: nat, ghost k: nat)
      requires Valid() && !world.client.phase.AtRest? && world.client.waiting.Some? && world.reply.None?
      requires (world, seen) == Talk(w, from, k)
      modifies `world, `seen
      ensures Valid() && Continues(old(world.client), world.client)
      ensures seen == Talk(w, from, k + 1).1
      ensures var heard := Heard(w, from, k);
        if heard.None? then world.client == Fail(old(world.client))
        else PollAgain(world) == Talk(w, from, k + 1).0 && Heeds(old(world.client), heard.value, world)
    {
      OutlastKeeps(world, seen, patience);
      ReceiveHeeds(Outlast(world, seen, patience).0);
      Finish();
    }

    /** Ask for the result until it is there, the wait breaks off or the deadline passes. The
        submission was the first call since w, and `n` polls were made. */
    method PollResult(ghost w: World, ghost from: nat) returns (ghost n: nat)
      requires Valid() && world.client.phase.Polling? && world.client.waiting.None?
      requires (PollAgain(world), seen) == Talk(w, from, 1) && Taken(Heard(w, from, 0))
      modifies `world, `seen
      ensures Resting() && Continues(old(world.client), world.client)
      ensures EndsAfter(w, from, old(world.client.phase), old(world.client.finished), n)
    {
      n := 0;
      var polled := 0;
      ghost var c0, r := world.client, world.client.phase.request;
      while polled < polls && !world.client.phase.AtRest?
        invariant Valid() && polled <= polls && Continues(c0, world.client)
        invariant !world.client.phase.AtRest? ==>
          Between(w, from, c0, polled + 1) && Runs(w, from, r, polled + 1)
        invariant world.client.phase.AtRest? ==> EndsAfter(w, from, c0.phase, c0.finished, n)
      {
        n, polled := polled + 1, polled + 1;
        AskResult(w, from, c0, n);
      }
      if !world.client.phase.AtRest? {
        GiveUp();
      }
    }

    /** The n-th poll, and the acknowledgement if it brought an answer. */
    method AskResult(ghost w: World, ghost from: nat, ghost c0: Client, ghost n: nat)
      requires Valid() && c0.phase.Polling? && c0.waiting.None?
      requires 0 < n <= polls && Between(w, from, c0, n) && Runs(w, from, c0.phase.request, n)
      modifies `world, `seen
      ensures Valid() && Continues(c0, world.client)
      ensures if world.client.phase.AtRest? then EndsAfter(w, from, c0.phase, c0.finished, n)
        else Between(w, from, c0, n + 1) && Runs(w, from, c0.phase.request, n + 1)
    {
      NeverLatchedInExecute(world, timeout);
      PollingAsks(world);
      Ask();
      ghost var asked := world.client;
      Hear(w, from, n);
      if world.client.phase.Acking? {
        ghost var acking := world.client;
        HearAck(w, from, n, c0);
        ContinuesJoins(asked, acking, world.client);
      } else if world.client.phase.AtRest? {
        AnswerBreaks(w, from, c0.phase.request, n);
      }
    }

    /** The n-th poll brought an answer, which is being acknowledged. */
    method HearAck(ghost w: World, ghost from: nat, ghost n: nat, ghost c0: Client)
      requires Valid() && 0 < n <= polls && c0.phase.Polling? && world.client.phase.Acking?
      requires AcksFor(c0, world.client.phase.outcome, world)
      requires (world, seen) == Talk(w, from, n + 1) && Runs(w, from, c0.phase.request, n) && !c0.needsReset
      requires Heard(w, from, n) == Some(
        match world.client.phase.outcome
        case Returned(output) => S.Ready(c0.phase.request, output)
        case Raised(kind) => S.ProviderError(c0.phase.request, kind))
      modifies `world, `seen
      ensures Resting() && Continues(old(world.client), world.client) && EndsAfter(w, from, c0.phase, c0.finished, n)
    {
      ghost var r, outcome := c0.phase.request, world.client.phase.outcome;
      Hear(w, from, n + 1);
      if Taken(Heard(w, from, n + 1)) && outcome.Returned? {
        assert Returns(w, from, r, n, outcome.output);
      } else {
        AnswerBreaks(w, from, r, n);
      }
    }

    /** A reply breaks the wait off unless it says that the request runs, or hands over an
        output whose acknowledgement is taken. */
    lemma AnswerBreaks(w: World, from: nat, r: nat, n: nat)
      requires Heard(w, from, n) != Some(S.StillRunning(r))
      requires Heard(w, from, n).Some? && Heard(w, from, n).value.Ready? && Heard(w, from, n).value.request == r ==>
        !Taken(Heard(w, from, n + 1))
      ensures Breaks(w, from, r, n)
    {
    }

    /** How the wait for a result, begun in phase p, ended after n polls. */
    ghost predicate EndsAfter(w: World, from: nat, p: Phase, finished: seq<Finished>, n: nat)
      requires p.Polling?
      reads this
    {
      if world.client.needsReset then
        (0 < n <= polls && Runs(w, from, p.request, n) && Breaks(w, from, p.request, n))
        || Runs(w, from, p.request, polls + 1)
      else
        0 < n <= polls && Runs(w, from, p.request, n) && exists output ::
          Returns(w, from, p.request, n, output)
          && world.client.finished == finished + [Finished(p.request, p.inputs, output)]
    }

    /** Submit, poll, acknowledge. It returns the provider's output for its own inputs, or
        fails and leaves the client in need of a reset. It fails only if the submission or the
        acknowledgement was refused or got no reply, if a poll was refused, got no reply, or
        told of a failure or of another request, or if `polls` polls found it still running. */
    method Execute(inputs: Payload) returns (answer: Answer, ghost n: nat)
      requires Resting()
      modifies `world, `seen
      ensures Resting()
      ensures old(world.client.closed || world.client.needsReset) ==> answer.Failed? && world == old(world)
      ensures !old(world.client.closed || world.client.needsReset) ==>
        var c0, c := old(world.client), world.client;
        && c.nextRequest == c0.nextRequest + 1
        && Explains(Step(old(world), timeout, ExecuteOp(inputs)), old(seen), c0.nextRequest, n, answer)
        && match answer
           case Failed => c.needsReset && c.finished == c0.finished
           case Output(output) =>
             !c.needsReset && c.finished == c0.finished + [Finished(c0.nextRequest, inputs, output)]
    {
      n := 0;
      if world.client.closed || world.client.needsReset {
        return Failed, n;
      }
      Take(ExecuteOp(inputs));
      ghost var w, from := world, seen;
      Hear(w, from, 0);
      if !world.client.phase.AtRest? {
        ghost var before := world.client;
        n := PollResult(w, from);
        ContinuesJoins(w.client, before, world.client);
      }
      if world.client.needsReset {
        return Failed, n;
      }
      answer := Output(world.client.finished[|world.client.finished| - 1].output);
    }

    /** Ask for the status until the service is idle, the wait breaks off or the deadline
        passes. */
    method PollStatus(ghost w: World, ghost from: nat) returns (ghost n: nat)
      requires Valid() && world.client.phase.Confirming? && world.client.waiting.None? && world.client.needsReset
      requires (PollAgain(world), seen) == Talk(w, from, 1) && Resets(w, from, 1)
      modifies `world, `seen
      ensures Resting() && Continues(old(world.client), world.client)
      ensures ExplainsReset(w, from, n, !world.client.needsReset)
    {
      n := 0;
      var polled := 0;
      ghost var c0 := world.client;
      while polled < polls && !world.client.phase.AtRest?
        invariant Valid() && polled <= polls && Continues(c0, world.client)
        invariant !world.client.phase.AtRest? ==>
          Between(w, from, c0, polled + 1) && Resets(w, from, polled + 1)
        invariant world.client.phase.AtRest? ==> ExplainsReset(w, from, n, !world.client.needsReset)
      {
        n, polled := polled + 1, polled + 1;
        AskStatus(w, from, c0, n);
      }
      if !world.client.phase.AtRest? {
        GiveUp();
      }
    }

    /** The n-th poll for the status. */
    method AskStatus(ghost w: World, ghost from: nat, ghost c0: Client, ghost n: nat)
      requires Valid() && c0.phase.Confirming? && c0.waiting.None? && c0.needsReset
      requires 0 < n <= polls && Between(w, from, c0, n) && Resets(w, from, n)
      modifies `world, `seen
      ensures Valid() && Continues(c0, world.client)
      ensures if world.client.phase.AtRest? then ExplainsReset(w, from, n, !world.client.needsReset)
        else Between(w, from, c0, n + 1) && Resets(w, from, n + 1)
    {
      PollingAsks(world);
      Ask();
      Hear(w, from, n);
    }

    /** Ask for a reset and wait until the service has confirmed it, which it has once a
        status reply is idle. When it is confirmed, nothing that was sent before can still
        run. It fails only if a call was refused or got no reply, or if `polls` polls found the
        reset still going on. */
    method Reset() returns (ok: bool, ghost n: nat)
      requires Resting()
      modifies `world, `seen
      ensures Resting() && world.client.finished == old(world.client.finished)
      ensures old(world.client.closed) ==> !ok && world == old(world)
      ensures !old(world.client.closed) ==>
        ok == !world.client.needsReset && ExplainsReset(Step(old(world), timeout, ResetOp), old(seen), n, ok)
      ensures ok ==> Quiet(world)
    {
      n := 0;
      if world.client.closed {
        return false, n;
      }
      Take(ResetOp);
      ghost var w, from := world, seen;
      Hear(w, from, 0);
      if !world.client.phase.AtRest? {
        ghost var before := world.client;
        n := PollStatus(w, from);
        ContinuesJoins(w.client, before, world.client);
      }
      ReachableKeeps(world, timeout);
      ok := !world.client.needsReset;
    }

    /** Release the lease once, whatever becomes of the call. */
    method Close()
      requires Resting()
      modifies `world, `seen
      ensures Resting() && world.client.closed
      ensures old(world.client.closed) ==> world == old(world)
      ensures !old(world.client.closed) ==>
        (world, seen) == Outlast(Step(old(world), timeout, CloseOp), old(seen), patience)
    {
      if world.client.closed {
        return;
      }
      Take(CloseOp);
      Await();
    }
  }

  /** The client c has taken the reply to its call in. */
  ghost predicate Heeds(c: Client, reply: S.Reply, w: World) {
    if reply.Refused? then w.client == Fail(c)
    else match c.phase
      case AtRest => true
      case Submitting(r, inputs) => w.client == c.(waiting := None, phase := Polling(r, inputs))
      case Polling(r, inputs) =>
        if reply == S.StillRunning(r) then w.client == c.(waiting := None)
        else if reply.Ready? && reply.request == r then AcksFor(c, S.Returned(reply.output), w)
        else if reply.ProviderError? && reply.request == r then AcksFor(c, S.Raised(reply.kind), w)
        else w.client == Fail(c)
      case Acking(r, inputs, outcome) =>
        if outcome.Returned? then
          w.client == c.(waiting := None, phase := AtRest,
                         finished := c.finished + [Finished(r, inputs, outcome.output)])
        else w.client == Fail(c)
      case Resetting => w.client == c.(waiting := None, phase := Confirming)
      case Confirming =>
        w.client ==
          if reply.Idle? then c.(waiting := None, phase := AtRest, needsReset := false) else c.(waiting := None)
  }

  ghost predicate AcksFor(c: Client, outcome: S.Outcome, w: World)
    requires c.phase.Polling?
  {
    && w.client.phase == Acking(c.phase.request, c.phase.inputs, outcome)
    && w.client.waiting.Some? && w.reply.None? && w.client.finished == c.finished && w.client.needsReset == c.needsReset
    && PollAgain(w) == w
  }

  /** Asking again keeps the client where it is, waiting. */
  lemma PollingAsks(w: World)
    requires (w.client.phase.Polling? || w.client.phase.Confirming?) && w.client.waiting.None?
    ensures var w1 := PollAgain(w);
      && w1.reply.None? && w1.client.waiting.Some?
      && w1.client.(waiting := None, nextCall := 0) == w.client.(waiting := None, nextCall := 0)
  {
  }

  /** A close sends one release of its lease, and nothing after it. */
  lemma CloseReleases(w: World, timeout: nat)
    requires w.client.phase.AtRest? && !w.client.closed
    ensures var r := Step(w, timeout, CloseOp);
      && r.client.closed && r.client.waiting.None?
      && |r.net| == |w.net| + 1 && r.net[..|w.net|] == w.net
      && r.net[|w.net|].call == S.ReleaseCall(S.Body(true, w.client.lease))
    ensures forall op: Op :: op.ExecuteOp? || op.ResetOp? || op.CloseOp? || op.PollOp? ==>
      var r := Step(w, timeout, CloseOp); Step(r, timeout, op).net == r.net
  {
  }

  /** Taking an answer in sends its acknowledgement. */
  lemma AnswerAcked(w: World)
    requires w.client.phase.Polling? && w.reply.Some? ==> w.client.waiting == Some(w.reply.value.0)
    ensures var r := PollAgain(Receive(w));
      w.client.phase.Polling? && w.reply.Some? && w.reply.value.1.Ready?
      && w.reply.value.1.request == w.client.phase.request ==>
        && r.net != [] && r.net[|r.net| - 1].call == S.AckCall(Caller(w.client), S.Name(w.client.phase.request))
        && r.client.waiting == Some(r.net[|r.net| - 1].id) && r.reply.None?
  {
  }

  lemma ReceiveHeeds(w: World)
    requires w.reply.Some? ==> w.client.waiting == Some(w.reply.value.0)
    ensures w.reply.Some? ==> Heeds(w.client, w.reply.value.1, Receive(w))
  {
  }

  /** Where the client may be after any of its steps: still at the same execute or reset, or
      at rest, with one more output or in need of a reset. */
  ghost predicate Continues(c: Client, c': Client) {
    && c'.closed == c.closed && c'.nextRequest == c.nextRequest
    && (InExecute(c) ==>
          || (InExecute(c') && c'.phase.request == c.phase.request && c'.phase.inputs == c.phase.inputs
              && c'.finished == c.finished && c'.needsReset == c.needsReset)
          || (c'.phase.AtRest? && c'.needsReset && c'.finished == c.finished)
          || (c'.phase.AtRest? && !c'.needsReset
              && exists output :: c'.finished == c.finished + [Finished(c.phase.request, c.phase.inputs, output)]))
    && (!InExecute(c) ==> !InExecute(c') && c'.finished == c.finished)
  }

  lemma ContinuesJoins(c: Client, c1: Client, c2: Client)
    requires Continues(c, c1) && Continues(c1, c2) && !c1.phase.AtRest?
    ensures Continues(c, c2)
  {
  }

  lemma NeverLatchedInExecute(w: World, timeout: nat)
    requires Reachable(w, timeout) && InExecute(w.client)
    ensures !w.client.needsReset
  {
    ReachableKeeps(w, timeout);
  }

  lemma ReceiveContinues(w: World)
    requires !w.client.phase.AtRest? && (InExecute(w.client) ==> !w.client.needsReset)
    ensures Continues(w.client, Receive(w).client)
  {
  }
}
