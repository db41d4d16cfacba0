/** What the embedder gets from tick to tick: which action a miss repeats, when a request is
    made, where a chunk is entered and how it is consumed, and when an overdue fire is
    reported. */
module ActionChunkTicks {
  import opened Wrappers
  import opened Fusion
  import opened ActionChunkSpec
  import opened ActionChunkInvariant
  import opened ActionChunkProofs
  import opened ActionChunkTheorems

  // ---- the held action -------------------------------------------------------

  /** The row of the latest ready tick since the reset, if there was one. */
  ghost function LastServed(c: Config, ops: seq<Op>): Option<Row>
    requires Accepted(c) && OpsOk(c, ops)
  {
    if ops == [] then None
    else
      var before := ops[..|ops| - 1];
      match ops[|ops| - 1]
      case ResetOp => None
      case NextOp(env, fits) =>
        var t := Next(c, After(c, before), env, fits);
        if t.status.Ready? then t.row else LastServed(c, before)
      case _ => LastServed(c, before)
  }

  /** No verb but a tick and a reset touches the held action. */
  lemma HeldStays(c: Config, s: State, op: Op)
    requires Inv(c, s) && OpOk(c, op) && !op.ResetOp? && !op.NextOp?
    ensures Step(c, s, op).held == s.held
  {
    match op
    case BeginOp(setInput) => BeginCounts(c, s, setInput);
    case CommitOp(reply) => CommitCounts(c, s, reply);
    case PollOp(land) => PollCounts(c, s, land);
    case SyncOp(reply, sync, land) => SyncCounts(c, s, reply, sync, land);
    case _ =>
  }

  lemma SyncCounts(c: Config, s: State, reply: RequestReply, sync: int, land: LandReply)
    requires Inv(c, s) && RowsOk(c, land.data)
    ensures NothingWritten(s, Sync(c, s, reply, sync, land).0)
  {
    CommitCounts(c, s, reply);
    CommitKeeps(c, s, reply);
    var (s1, rc) := if s.flight.inFlight then (s, CAP_OK) else Commit(c, s, reply);
    if rc == CAP_OK && sync == CAP_OK {
      PollCounts(c, s1, land);
    }
  }

  /** Over all runs: what a miss repeats is the action handed out last, by the latest ready
      tick since the reset; before there was one there is nothing to repeat. */
  lemma {:induction false} HeldIsLatest(c: Config, ops: seq<Op>)
    requires Supported(c) && OpsOk(c, ops)
    ensures After(c, ops).held == if c.miss.HoldLast? then LastServed(c, ops) else None
    decreases |ops|
  {
    if ops != [] {
      var before, op := ops[..|ops| - 1], ops[|ops| - 1];
      var s := After(c, before);
      HeldIsLatest(c, before);
      RunInv(c, before);
      assert After(c, ops) == AfterLast(c, ops) == Step(c, s, op);
      if op.NextOp? {
        NextWrites(c, s, op.env, op.fits);
      } else if !op.ResetOp? {
        HeldStays(c, s, op);
      }
    }
  }

  // ---- requests --------------------------------------------------------------

  /** Whether a request goes through: nothing is outstanding, the prepare step was made or
      works now, and the executor takes it. */
  predicate RequestOk(c: Config, s: State, reply: RequestReply) {
    && !s.flight.inFlight && s.seat.waiting.None?
    && (s.flight.begun || (c.Usable() && (c.Projects() ==>
          CanMap(c, s.feed) && (c.stateInputPort ==> reply.setInput == CAP_OK))))
    && reply.submit == CAP_OK
  }

  /** A commit succeeds exactly then, and counts as one fire; otherwise it is none. A submit
      uses the begun request up, even if it fails. */
  lemma CommitFires(c: Config, s: State, reply: RequestReply)
    requires Accepted(c) && Shape(c, s)
    ensures var (r, rc) := Commit(c, s, reply);
      && (rc == CAP_OK <==> RequestOk(c, s, reply))
      && r.log.fires == s.log.fires + (if rc == CAP_OK then 1 else 0)
      && (rc != CAP_OK ==> r.flight.inFlight == s.flight.inFlight)
      && (rc == CAP_OK || s.flight.begun ==> !r.flight.begun)
      && (!s.flight.begun ==> !r.flight.begun)
  {
    if !s.flight.begun {
      BeginFires(c, s, reply.setInput);
    }
    var (s1, rc) := if s.flight.begun then (s, CAP_OK) else Begin(c, s, reply.setInput);
    if rc == CAP_OK {
      LaunchFires(c, s1, reply.submit);
    }
  }

  lemma BeginFires(c: Config, s: State, setInput: int)
    requires Shape(c, s) && !s.flight.begun
    ensures var (r, rc) := Begin(c, s, setInput);
      && (rc == CAP_OK <==> RequestOk(c, s, RequestReply(setInput, CAP_OK)))
      && r.log.fires == s.log.fires && r.flight.inFlight == s.flight.inFlight && r.seat == s.seat
      && r.flight.begun == (rc == CAP_OK)
  {
  }

  lemma LaunchFires(c: Config, s: State, submit: int)
    requires Accepted(c) && Shape(c, s) && !s.flight.inFlight && s.seat.waiting.None?
    ensures var (r, rc) := Launch(c, s, submit);
      && rc == submit && r.log.fires == s.log.fires + (if rc == CAP_OK then 1 else 0)
      && r.flight.inFlight == (rc == CAP_OK) && !r.flight.begun
  {
    if c.Chunked() {
      PickFires(c, s.(flight := s.flight.(begun := false)));
    }
  }

  lemma PickFires(c: Config, s: State)
    requires Accepted(c) && Shape(c, s) && c.Chunked() && !s.flight.inFlight && s.seat.waiting.None?
    ensures PickSlot(c, s).log == s.log && PickSlot(c, s).flight == s.flight
  {
  }

  /** A ready tick serves the active chunk of the serving state. */
  lemma ReadyServes(c: Config, s: State, env: Env, fits: bool)
    requires Inv(c, s) && RowsOk(c, env.land.data) && Next(c, s, env, fits).status.Ready?
    ensures var at := Serving(c, s, env);
      at.seat.active.Some? && Next(c, s, env, fits) == Serve(c, at, env, true)
  {
    NextWrites(c, s, env, fits);
    TickServes(c, s, env, fits);
  }

  /** A tick that hands out a row of a chunk moves on to the next row: what is still to come
      is what was to come, without the row handed out. */
  lemma TickConsumes(c: Config, s: State, env: Env, fits: bool)
    requires Inv(c, s) && RowsOk(c, env.land.data) && Next(c, s, env, fits).status.Ready?
    ensures var at := Serving(c, s, env); var t := Next(c, s, env, fits);
      at.seat.active.Some? && t.row == Some(Upcoming(c, at)[0]) && Upcoming(c, t.state) == Upcoming(c, at)[1..]
  {
    ReadyServes(c, s, env, fits);
    ServeConsumes(c, Serving(c, s, env), env);
  }

  lemma ServeConsumes(c: Config, s: State, env: Env)
    requires Accepted(c) && Shape(c, s) && s.seat.active.Some?
    ensures var t := Serve(c, s, env, true);
      t.row == Some(Upcoming(c, s)[0]) && Upcoming(c, t.state) == Upcoming(c, s)[1..]
  {
    EmitUpcoming(c, s);
    CommitUpcoming(c, EmitActive(c, s), env.prefetch);
  }

  lemma EmitUpcoming(c: Config, s: State)
    requires Shape(c, s) && s.seat.active.Some?
    ensures Upcoming(c, EmitActive(c, s)) == Upcoming(c, s)[1..]
    ensures Upcoming(c, s)[0] == Source(c, s)[s.seat.index]
  {
  }

  /** A request leaves what is being consumed alone. */
  lemma CommitUpcoming(c: Config, s: State, reply: RequestReply)
    requires Accepted(c) && Shape(c, s)
    ensures Upcoming(c, Commit(c, s, reply).0) == Upcoming(c, s)
  {
    BeginUpcoming(c, s, reply.setInput);
    var (s1, rc) := if s.flight.begun then (s, CAP_OK) else Begin(c, s, reply.setInput);
    if rc == CAP_OK {
      LaunchUpcoming(c, s1, reply.submit);
    }
  }

  lemma BeginUpcoming(c: Config, s: State, setInput: int)
    requires Shape(c, s)
    ensures Upcoming(c, Begin(c, s, setInput).0) == Upcoming(c, s)
  {
  }

  lemma LaunchUpcoming(c: Config, s: State, submit: int)
    requires Accepted(c) && Shape(c, s) && !s.flight.inFlight && s.seat.waiting.None?
    ensures Upcoming(c, Launch(c, s, submit).0) == Upcoming(c, s)
  {
    var s1 := s.(flight := s.flight.(begun := false));
    if c.Chunked() {
      PickUpcoming(c, s1);
      if submit == CAP_OK {
        StampUpcoming(c, PickSlot(c, s1));
      }
    }
  }

  lemma PickUpcoming(c: Config, s: State)
    requires Accepted(c) && Shape(c, s) && c.Chunked() && !s.flight.inFlight && s.seat.waiting.None?
    ensures Upcoming(c, PickSlot(c, s)) == Upcoming(c, s) && PickSlot(c, s).seat.index == s.seat.index
  {
  }

  lemma StampUpcoming(c: Config, s: State)
    requires Shape(c, s) && s.seat.waiting.None? && !s.flight.begun
    requires c.Chunked() ==> s.seat.pending.Some? && Spare(c, s.ring, s.seat, s.seat.pending.value)
    ensures Upcoming(c, Stamp(c, s)) == Upcoming(c, s)
  {
  }

  /** A tick that hands out a row asks for the next chunk exactly if few enough rows are left
      and nothing is outstanding, and if the request goes through it is one more fire. */
  lemma TickPrefetches(c: Config, s: State, env: Env, fits: bool)
    requires Inv(c, s) && RowsOk(c, env.land.data) && Next(c, s, env, fits).status.Ready?
    ensures var at := Serving(c, s, env); var t := Next(c, s, env, fits).state; var left := |Upcoming(c, at)| - 1;
      t.log.fires == at.log.fires +
        if !c.external && 0 < left <= c.executeHorizon && RequestOk(c, at, env.prefetch) then 1 else 0
  {
    ReadyServes(c, s, env, fits);
    ServePrefetches(c, Serving(c, s, env), env);
  }

  lemma ServePrefetches(c: Config, s: State, env: Env)
    requires Accepted(c) && Shape(c, s) && s.seat.active.Some?
    ensures var t := Serve(c, s, env, true).state; var left := |Upcoming(c, s)| - 1;
      t.log.fires == s.log.fires +
        if !c.external && 0 < left <= c.executeHorizon && RequestOk(c, s, env.prefetch) then 1 else 0
  {
    CommitFires(c, EmitActive(c, s), env.prefetch);
  }

  /** Whether a tick makes a request first, because nothing is consumed, parked or in flight,
      and the request does not go through. */
  predicate RequestFails(c: Config, s: State, reply: RequestReply) {
    && s.seat.active.None? && s.seat.waiting.None? && !s.flight.inFlight && !c.external
    && !RequestOk(c, s, reply)
  }

  /** What kept the next chunk from coming: it is parked, or the poll says it. */
  ghost function Found(c: Config, s: State, env: Env): Status
    requires Accepted(c) && Shape(c, s) && RowsOk(c, env.land.data)
  {
    if Serving(c, s, env).seat.waiting.Some? then Fallback
    else if s.flight.inFlight || c.external then Poll(c, s, env.land).1
    else Poll(c, Commit(c, s, env.first).0, env.land).1
  }

  /** A tick with nothing to serve repeats the held action, whatever kept the next chunk from
      coming, unless it is the request that failed; with none to repeat it says what it was. */
  lemma MissRepeats(c: Config, s: State, env: Env, fits: bool)
    requires Inv(c, s) && RowsOk(c, env.land.data) && c.Chunked() && Serving(c, s, env).seat.active.None?
    ensures var t := Next(c, s, env, fits); var failed := RequestFails(c, s, env.first);
      && t.row == (if fits && !failed then s.held else None)
      && (failed || (!fits && s.held.Some?) ==> t.status.Failed?)
      && (!failed && s.held.None? ==> t.status == Found(c, s, env))
  {
    TickMisses(c, s, env, fits);
    ServingWrites(c, s, env);
    NotServed(c, s, env);
    if !RequestFails(c, s, env.first) {
      NotFound(c, s, env);
    }
    if Serving(c, s, env).seat.waiting.None? {
      FetchMissed(c, s, env);
    }
  }

  lemma NotFound(c: Config, s: State, env: Env)
    requires Accepted(c) && Shape(c, s) && RowsOk(c, env.land.data) && c.Chunked()
    requires Serving(c, s, env).seat.active.None? && Promote(c, s) == s && !RequestFails(c, s, env.first)
    ensures Serving(c, s, env).seat.waiting.None? ==> Fetch(c, s, env).1 == Some(Found(c, s, env))
  {
    CommitFires(c, s, env.first);
  }

  /** What is not served was not promoted, either; and the fetch, if there was one, has no
      status exactly if the request failed. */
  lemma NotServed(c: Config, s: State, env: Env)
    requires Accepted(c) && Shape(c, s) && RowsOk(c, env.land.data) && c.Chunked()
    requires Serving(c, s, env).seat.active.None?
    ensures Promote(c, s) == s && s.seat.active.None?
    ensures Serving(c, s, env).seat.waiting.Some? ==> !RequestFails(c, s, env.first)
    ensures s.seat.waiting.None? ==> (Fetch(c, s, env).1.None? <==> RequestFails(c, s, env.first))
  {
    CommitFires(c, s, env.first);
  }

  /** A gap ends on time: a tick that repeats an action while a chunk is parked leaves it
      parked only if its start step is still to come, and otherwise active. */
  lemma GapEnds(c: Config, s: State, env: Env, fits: bool)
    requires Inv(c, s) && RowsOk(c, env.land.data) && c.Chunked()
    requires s.seat.active.None? && s.seat.waiting.Some? && s.step < s.ring.slots[s.seat.waiting.value].startStep
    ensures var t := Next(c, s, env, fits); var start := s.ring.slots[s.seat.waiting.value].startStep;
      t.row.Some? ==>
        if t.state.step < start then t.state.seat == s.seat
        else t.state.seat.waiting.None? && t.state.seat.active == s.seat.waiting
  {
    if s.held.Some? && fits {
      DuePromotes(c, EmitHeld(s));
    }
  }

  lemma DuePromotes(c: Config, s: State)
    requires Accepted(c) && Shape(c, s) && s.seat.waiting.Some?
    ensures var start := s.ring.slots[s.seat.waiting.value].startStep;
      if s.step < start then Promote(c, s) == s
      else Promote(c, s).seat.waiting.None? && Promote(c, s).seat.active == s.seat.waiting
  {
  }

  // ---- where a chunk is entered ----------------------------------------------

  /** The state that executing `rows` up to row i leads to, in dimension k: what the row says,
      or the state at the fire moved by the row, or by all rows so far. */
  ghost function Implied(c: Config, feed: Feed, rows: Chunk, i: nat, k: nat): real
    requires FeedOk(c, feed) && CanMap(c, feed) && RowsOk(c, rows) && i < |rows| && k < c.stateDim
    requires Column(feed.indices, k) < c.actionDim
  {
    match c.representation
    case Absolute => rows[i][Column(feed.indices, k)]
    case DeltaFromStart => Integrate(feed.indices, c.actionDim, feed.atFire, [rows[i]])[k]
    case DeltaCumulative => Integrate(feed.indices, c.actionDim, feed.atFire, rows[..i + 1])[k]
  }

  /** How far row i is off the measured state in dimension k; not at all if k is unmapped. */
  ghost function Off(c: Config, feed: Feed, rows: Chunk, i: nat, k: nat): real
    requires FeedOk(c, feed) && CanMap(c, feed) && RowsOk(c, rows) && i < |rows| && k < c.stateDim
  {
    if Column(feed.indices, k) >= c.actionDim then 0.0
    else
      var diff := Implied(c, feed, rows, i, k) - feed.latest[k];
      if c.squaredDistance then diff * diff else if diff >= 0.0 then diff else -diff
  }

  ghost function OffUpTo(c: Config, feed: Feed, rows: Chunk, i: nat, n: nat): real
    requires FeedOk(c, feed) && CanMap(c, feed) && RowsOk(c, rows) && i < |rows| && n <= c.stateDim
  {
    if n == 0 then 0.0 else OffUpTo(c, feed, rows, i, n - 1) + Off(c, feed, rows, i, n - 1)
  }

  /** No row is less far off than row i, and none before it is as little. */
  ghost predicate IsNearest(c: Config, feed: Feed, rows: Chunk, i: nat)
    requires FeedOk(c, feed) && CanMap(c, feed) && RowsOk(c, rows) && i < |rows|
  {
    && (forall j :: 0 <= j < |rows| ==>
          OffUpTo(c, feed, rows, i, c.stateDim) <= OffUpTo(c, feed, rows, j, c.stateDim))
    && (forall j :: 0 <= j < i ==> OffUpTo(c, feed, rows, i, c.stateDim) < OffUpTo(c, feed, rows, j, c.stateDim))
  }

  lemma ImpliedIsEstimate(c: Config, feed: Feed, rows: Chunk, i: nat, k: nat)
    requires FeedOk(c, feed) && CanMap(c, feed) && RowsOk(c, rows) && i < |rows| && k < c.stateDim
    requires Column(feed.indices, k) < c.actionDim
    ensures Implied(c, feed, rows, i, k) == Estimate(c, feed, rows, i, k)
  {
    var col, one := Column(feed.indices, k), [rows[i]];
    assert one[..0] == [] && one[0] == rows[i] && Width(one, c.actionDim);
    assert ColumnSum(one, c.actionDim, col) == rows[i][col];
  }

  lemma {:induction false} OffIsDistance(c: Config, feed: Feed, rows: Chunk, i: nat, n: nat)
    requires FeedOk(c, feed) && CanMap(c, feed) && RowsOk(c, rows) && i < |rows| && n <= c.stateDim
    ensures OffUpTo(c, feed, rows, i, n) == RowDistance(c, feed, rows, i, n)
  {
    if n > 0 {
      OffIsDistance(c, feed, rows, i, n - 1);
      if Column(feed.indices, n - 1) < c.actionDim {
        ImpliedIsEstimate(c, feed, rows, i, n - 1);
      }
    }
  }

  lemma NearestIsNearest(c: Config, feed: Feed, rows: Chunk)
    requires FeedOk(c, feed) && CanMap(c, feed) && RowsOk(c, rows) && rows != []
    ensures IsNearest(c, feed, rows, Nearest(c, feed, rows, |rows|))
  {
    forall i | 0 <= i < |rows|
      ensures OffUpTo(c, feed, rows, i, c.stateDim) == RowDistance(c, feed, rows, i, c.stateDim)
    {
      OffIsDistance(c, feed, rows, i, c.stateDim);
    }
  }

  /** `i` is x, moved into the chunk if x lies outside of it. */
  predicate IsClipped(c: Config, x: int, i: nat) {
    && (0 <= x < c.chunkLength ==> i == x)
    && (x < 0 ==> i == 0)
    && (x >= c.chunkLength ==> i == c.chunkLength - 1)
  }

  predicate SwitchesByState(c: Config) {
    !c.consume.Plain? && c.switchMode.StateDistance?
  }

  /** The row of a chunk that starts at `start` from which it is consumed if it is seated at
      `step`: by state the nearest, by the clock the one for the step plus the offset, the
      one for the step if its start was projected, and the first one otherwise. */
  ghost predicate EntersAt(c: Config, feed: Feed, rows: Chunk, step: nat, start: nat, i: nat)
    requires FeedOk(c, feed) && RowsOk(c, rows) && i < |rows|
  {
    if SwitchesByState(c) then CanMap(c, feed) && IsNearest(c, feed, rows, i)
    else if !c.consume.Plain? then IsClipped(c, step - start + c.switchOffset, i)
    else if c.Projects() then IsClipped(c, step - start, i)
    else i == 0
  }

  lemma SeatIndexEnters(c: Config, s: State, rows: Chunk, start: nat)
    requires FeedOk(c, s.feed) && RowsOk(c, rows) && c.chunkLength > 0 && !c.consume.Plain?
    ensures var i := SeatIndex(c, s, rows, start);
      && (i.Some? <==> (SwitchesByState(c) ==> CanMap(c, s.feed)))
      && (i.Some? ==> EntersAt(c, s.feed, rows, s.step, start, i.value))
  {
    if c.switchMode.StateDistance? && CanMap(c, s.feed) {
      NearestIsNearest(c, s.feed, rows);
    }
  }

  /** `r` is `s` after the chunk with these rows has been entered, raw or fused. */
  ghost predicate Entered(c: Config, s: State, r: State, rows: Chunk, start: nat)
    requires Shape(c, r)
  {
    && r.seat.active.Some? && r.seat.waiting.None? && r.step == s.step
    && EntersAt(c, r.feed, Source(c, r), r.step, start, r.seat.index)
    && (!c.Fuses() ==> Source(c, r) == rows)
  }

  /** A chunk that does not wait for its start step is entered, unless the state feed is
      needed and cannot answer. */
  lemma SeatingEnters(c: Config, s: State, slot: nat)
    requires Accepted(c) && Shape(c, s) && c.Chunked() && Spare(c, s.ring, s.seat, slot)
    requires !s.flight.inFlight && !s.flight.begun && s.flight.requestedOnce && s.seat.waiting.None?
    requires c.Projects() ==> s.step >= s.ring.slots[slot].startStep
    ensures var (r, ok) := SeatLanded(c, s, slot);
      && (ok <==> (SwitchesByState(c) ==> CanMap(c, s.feed)))
      && (ok ==> Entered(c, s, r, s.ring.slots[slot].rows, s.ring.slots[slot].startStep))
  {
    var start := s.ring.slots[slot].startStep;
    if c.Fuses() {
      SeatIndexEnters(c, RetainAndFuse(c, s, slot), RetainAndFuse(c, s, slot).fusedRows, start);
    } else if !c.consume.Plain? {
      SeatIndexEnters(c, s, s.ring.slots[slot].rows, start);
    }
  }

  // ---- a tick that has to fetch ----------------------------------------------

  /** What a poll that finds the chunk ready does with it. A chunk that is early under
      projection is parked. */
  ghost predicate TakenIn(c: Config, s: State, r: State, status: Status, rows: Chunk, start: nat)
    requires Shape(c, r)
  {
    if c.Projects() && s.step < start then
      && status.Ready? && r.seat.waiting.Some? && r.seat == s.seat.(waiting := r.seat.waiting, pending := None)
      && r.ring.slots[r.seat.waiting.value].startStep == start
      && r.ring.slots[r.seat.waiting.value].rows == rows && r.step == s.step
    else
      && (status.Ready? <==> (SwitchesByState(c) ==> CanMap(c, s.feed)))
      && (status.Ready? ==> Entered(c, s, r, rows, start))
  }

  lemma TakeInEnters(c: Config, s: State, rows: Chunk)
    requires Accepted(c) && Shape(c, s) && s.flight.inFlight && c.Chunked() && RowsOk(c, rows)
    requires Stamped(c, s.ring, s.seat, s.flight, s.step)
    ensures var (r, status) := TakeIn(c, s, rows); TakenIn(c, s, r, status, rows, NextStart(c, s))
  {
    var s1, p := Arrived(c, s, rows), s.seat.pending.value;
    ArrivedStart(c, s, rows);
    assert s1.feed == s.feed;
    if !(c.Projects() && s.step < NextStart(c, s)) {
      SeatingEnters(c, s1, p);
      if SeatLanded(c, s1, p).1 {
        SettledEntered(c, s, s1, SeatLanded(c, s1, p).0, rows, NextStart(c, s));
      }
    }
  }

  /** Counting the fire as completed touches nothing of this. */
  lemma SettledEntered(c: Config, s: State, s1: State, r: State, rows: Chunk, start: nat)
    requires Shape(c, r) && s1.step == s.step
    requires r.seat.active.Some? && !r.flight.inFlight
    ensures Shape(c, Completed(r))
    ensures Entered(c, s1, r, rows, start) ==> Entered(c, s, Completed(r), rows, start)
  {
  }

  /** A poll is ready exactly if a fire is in flight, the executor has the chunk and hands it
      over, and the state feed answers where it is asked; and then the chunk is taken in. */
  lemma PollTakesIn(c: Config, s: State, land: LandReply)
    requires Inv(c, s) && c.Chunked() && RowsOk(c, land.data)
    ensures var (r, status) := Poll(c, s, land);
      && (status.Ready? ==> c.Usable() && s.flight.inFlight && land.query == 0 && land.read == CAP_OK)
      && (c.Usable() && s.flight.inFlight && land.query == 0 && land.read == CAP_OK ==>
            TakenIn(c, s, r, status, land.data, NextStart(c, s)))
  {
    if c.Usable() && s.flight.inFlight && land.query == 0 && land.read == CAP_OK {
      LateTakesIn(c, s, land.data);
    }
  }

  lemma LateTakesIn(c: Config, s: State, rows: Chunk)
    requires Accepted(c) && Shape(c, s) && s.flight.inFlight && c.Chunked() && RowsOk(c, rows)
    requires Stamped(c, s.ring, s.seat, s.flight, s.step)
    ensures Shape(c, CountLate(s))
    ensures var (r, status) := TakeIn(c, CountLate(s), rows); TakenIn(c, s, r, status, rows, NextStart(c, s))
  {
    TakeInEnters(c, CountLate(s), rows);
  }

  lemma BeginFeed(c: Config, s: State, setInput: int)
    requires Shape(c, s)
    ensures CanMap(c, Begin(c, s, setInput).0.feed) == CanMap(c, s.feed)
  {
  }

  lemma LaunchFeed(c: Config, s: State, submit: int)
    requires Accepted(c) && Shape(c, s) && !s.flight.inFlight && s.seat.waiting.None?
    ensures var r := Launch(c, s, submit).0; r.feed == s.feed && r.seat.(pending := None) == s.seat.(pending := None)
  {
  }

  lemma CommitFeed(c: Config, s: State, reply: RequestReply)
    requires Accepted(c) && Shape(c, s)
    ensures var r := Commit(c, s, reply).0;
      CanMap(c, r.feed) == CanMap(c, s.feed) && r.seat.(pending := None) == s.seat.(pending := None)
  {
    BeginFeed(c, s, reply.setInput);
    var (s1, rc) := if s.flight.begun then (s, CAP_OK) else Begin(c, s, reply.setInput);
    if rc == CAP_OK {
      LaunchFeed(c, s1, reply.submit);
    }
  }

  /** The chunk comes in this tick: it was asked for, or the request goes through now, and
      the executor has it and hands it over. */
  predicate Answers(c: Config, s: State, env: Env) {
    && c.Usable() && env.land.query == 0 && env.land.read == CAP_OK
    && (s.flight.inFlight || (!c.external && RequestOk(c, s, env.first)))
  }

  lemma FetchTakesIn(c: Config, s: State, env: Env)
    requires Inv(c, s) && c.Chunked() && RowsOk(c, env.land.data) && s.seat.active.None? && s.seat.waiting.None?
    ensures var (r, status) := Fetch(c, s, env);
      && (status == Some(Ready) ==> Answers(c, s, env))
      && (Answers(c, s, env) ==>
            status.Some? && TakenIn(c, s, r, status.value, env.land.data, NextStart(c, s)))
  {
    if s.flight.inFlight || c.external {
      PollTakesIn(c, s, env.land);
    } else {
      CommitFires(c, s, env.first);
      if RequestOk(c, s, env.first) {
        FireTakesIn(c, s, env);
      }
    }
  }

  lemma FireTakesIn(c: Config, s: State, env: Env)
    requires Inv(c, s) && c.Chunked() && RowsOk(c, env.land.data) && s.seat.active.None? && !s.flight.inFlight
    requires Commit(c, s, env.first).1 == CAP_OK
    ensures var (r, status) := Poll(c, Commit(c, s, env.first).0, env.land);
      && (status.Ready? ==> c.Usable() && env.land.query == 0 && env.land.read == CAP_OK)
      && (c.Usable() && env.land.query == 0 && env.land.read == CAP_OK ==>
            TakenIn(c, s, r, status, env.land.data, NextStart(c, s)))
  {
    CommitKeeps(c, s, env.first);
    CommitStarts(c, s, env.first);
    CommitFeed(c, s, env.first);
    var s1 := Commit(c, s, env.first).0;
    PollTakesIn(c, s1, env.land);
    TakenInSince(c, s, s1, env.land);
  }

  lemma TakenInSince(c: Config, s: State, s1: State, land: LandReply)
    requires Accepted(c) && Shape(c, s1) && RowsOk(c, land.data)
    requires s1.step == s.step && CanMap(c, s1.feed) == CanMap(c, s.feed)
    requires s1.seat.(pending := None) == s.seat.(pending := None)
    ensures var (r, status) := Poll(c, s1, land); forall start: nat ::
      TakenIn(c, s1, r, status, land.data, start) ==> TakenIn(c, s, r, status, land.data, start)
  {
  }

  /** With nothing to consume and nothing parked, a tick is ready exactly if the chunk comes in
      time, the state feed answers where it is asked, and the action fits; what it hands out
      is the row of that chunk, or of what it is fused to, at which the chunk is entered. */
  lemma ColdTick(c: Config, s: State, env: Env, fits: bool)
    requires Inv(c, s) && c.Chunked() && RowsOk(c, env.land.data) && s.seat.active.None? && s.seat.waiting.None?
    ensures var t := Next(c, s, env, fits); var at := Serving(c, s, env); var start := NextStart(c, s);
      && (t.status.Ready? <==>
            && fits && Answers(c, s, env) && (c.Projects() ==> start <= s.step)
            && (SwitchesByState(c) ==> CanMap(c, s.feed)))
      && (t.status.Ready? ==>
            Entered(c, s, at, env.land.data, start) && t.row == Some(Source(c, at)[at.seat.index]))
  {
    NextWrites(c, s, env, fits);
    ColdServing(c, s, env);
  }

  lemma ColdServing(c: Config, s: State, env: Env)
    requires Inv(c, s) && c.Chunked() && RowsOk(c, env.land.data) && s.seat.active.None? && s.seat.waiting.None?
    ensures var at := Serving(c, s, env); var start := NextStart(c, s);
      && (at.seat.active.Some? <==>
            && Answers(c, s, env) && (c.Projects() ==> start <= s.step)
            && (SwitchesByState(c) ==> CanMap(c, s.feed)))
      && (at.seat.active.Some? ==> Entered(c, s, at, env.land.data, start))
  {
    FetchTakesIn(c, s, env);
    FetchParks(c, s, env);
  }

  /** What a fetch parks is not due, so the tick serves from what it fetched. */
  lemma FetchParks(c: Config, s: State, env: Env)
    requires Accepted(c) && Shape(c, s) && c.Chunked() && RowsOk(c, env.land.data)
    requires s.seat.active.None? && s.seat.waiting.None?
    requires var (r, status) := Fetch(c, s, env);
      status == Some(Ready) ==> TakenIn(c, s, r, Ready, env.land.data, NextStart(c, s))
    ensures Serving(c, s, env) == Fetch(c, s, env).0
  {
  }

  /** A parked chunk that is due is entered by the next tick. */
  lemma DueTick(c: Config, s: State, env: Env, fits: bool)
    requires Inv(c, s) && RowsOk(c, env.land.data) && s.seat.waiting.Some?
    requires s.step >= s.ring.slots[s.seat.waiting.value].startStep
    ensures var t := Next(c, s, env, fits); var at := Serving(c, s, env);
      var slot := s.ring.slots[s.seat.waiting.value];
      && (t.status.Ready? <==> fits) && Entered(c, s, at, slot.rows, slot.startStep)
      && (t.status.Ready? ==> t.row == Some(Source(c, at)[at.seat.index]))
  {
    NextWrites(c, s, env, fits);
    DueEnters(c, s);
  }

  lemma DueEnters(c: Config, s: State)
    requires Accepted(c) && Shape(c, s) && s.seat.waiting.Some?
    requires s.step >= s.ring.slots[s.seat.waiting.value].startStep
    ensures var slot := s.ring.slots[s.seat.waiting.value];
      c.Chunked() && Entered(c, s, Promote(c, s), slot.rows, slot.startStep)
  {
    var s1, w := s.(seat := s.seat.(waiting := None)), s.seat.waiting.value;
    if c.Fuses() {
      SeatIndexEnters(c, RetainAndFuse(c, s1, w), RetainAndFuse(c, s1, w).fusedRows, s.ring.slots[w].startStep);
    }
  }

  /** A blocking wait is ready exactly if a fire is in flight or can be made, the executor
      says that it is done, has the chunk and hands it over, and the state feed answers where
      it is asked; and then the chunk is taken in. */
  lemma SyncTakesIn(c: Config, s: State, reply: RequestReply, sync: int, land: LandReply)
    requires Inv(c, s) && c.Chunked() && RowsOk(c, land.data)
    ensures var (r, status) := Sync(c, s, reply, sync, land);
      var s1 := if s.flight.inFlight then s else Commit(c, s, reply).0;
      && (status.Ready? <==>
            && c.Usable() && (s.flight.inFlight || (!c.external && RequestOk(c, s, reply)))
            && sync == CAP_OK && land.query == 0 && land.read == CAP_OK
            && (SwitchesByState(c) ==> CanMap(c, s.feed)))
      && (status.Ready? ==> TakenIn(c, s1, r, status, land.data, NextStart(c, s1)))
  {
    if !s.flight.inFlight {
      CommitFires(c, s, reply);
      CommitKeeps(c, s, reply);
      CommitFeed(c, s, reply);
    }
    var (s1, rc) := if s.flight.inFlight then (s, CAP_OK) else Commit(c, s, reply);
    if rc == CAP_OK {
      SyncedTakesIn(c, s1, sync, land);
    }
  }

  lemma SyncedTakesIn(c: Config, s: State, sync: int, land: LandReply)
    requires Inv(c, s) && c.Chunked() && RowsOk(c, land.data) && s.flight.inFlight
    ensures var (r, status) := Synced(c, s, sync, land);
      && (status.Ready? <==>
            && c.Usable() && sync == CAP_OK && land.query == 0 && land.read == CAP_OK
            && (SwitchesByState(c) ==> CanMap(c, s.feed)))
      && (status.Ready? ==> TakenIn(c, s, r, status, land.data, NextStart(c, s)))
  {
    PollTakesIn(c, s, land);
  }

  /** A fire that the executor reports as failed, that cannot be read, or whose wait fails is
      given up: it is in flight no more, it counts as failed, and what is being consumed stays.
      With nothing in flight a poll says so and does nothing. */
  lemma FailureGivesUp(c: Config, s: State, land: LandReply)
    requires Accepted(c) && Shape(c, s) && c.Usable() && RowsOk(c, land.data)
    ensures !s.flight.inFlight ==> Poll(c, s, land) == (s, Idle)
    ensures s.flight.inFlight && (land.query < 0 || (land.query == 0 && c.Chunked() && land.read != CAP_OK)) ==>
      var (r, status) := Poll(c, s, land); status.Failed? && GivenUp(s, r)
    ensures forall sync :: sync != CAP_OK ==>
      Synced(c, s, sync, land).1.Failed? && GivenUp(s, Synced(c, s, sync, land).0)
  {
  }

  ghost predicate GivenUp(s: State, r: State) {
    && !r.flight.inFlight && r.log.failed == s.log.failed + 1 && r.stats.completed == s.stats.completed
    && r.seat.active == s.seat.active && r.seat.index == s.seat.index && r.step == s.step && r.held == s.held
  }

  // ---- the projection of a request -------------------------------------------

  /** Column sums add up, and a single row counts with its entry. */
  lemma {:induction false} ColumnSumsAdd(a: seq<Row>, b: seq<Row>, dim: nat, col: nat)
    requires Width(a, dim) && Width(b, dim) && col < dim
    ensures Width(a + b, dim) && ColumnSum(a + b, dim, col) == ColumnSum(a, dim, col) + ColumnSum(b, dim, col)
    ensures |b| == 1 ==> ColumnSum(b, dim, col) == b[0][col]
    decreases |b|
  {
    if b == [] {
      assert a + b == a;
    } else {
      ColumnSumsAdd(a, b[..|b| - 1], dim, col);
      assert (a + b)[..|a + b| - 1] == a + b[..|b| - 1];
    }
  }

  /** A request that has just been prepared under projection gives the model the measured
      state, moved in every mapped dimension by its column of the next rows to be handed out,
      as many as the look-ahead asks for and there are; and it keeps that measurement. */
  lemma BeginProjects(c: Config, s: State, setInput: int, k: nat)
    requires Supported(c) && Shape(c, s) && c.Projects() && k < c.stateDim
    requires !s.flight.begun && Begin(c, s, setInput).1 == CAP_OK
    ensures CanMap(c, s.feed)
    ensures var r := Begin(c, s, setInput).0;
      var n := if |Upcoming(c, s)| < c.lookahead then |Upcoming(c, s)| else c.lookahead;
      var col := if s.feed.indices == [] then k else s.feed.indices[k];
      && r.flight.projectedCount == n && r.feed.atFire == r.feed.latest == s.feed.latest
      && (col < c.actionDim ==>
            r.feed.projected[k] == s.feed.latest[k] + ColumnSum(Upcoming(c, s)[..n], c.actionDim, col))
      && (col >= c.actionDim ==> col == UNMAPPED && r.feed.projected[k] == s.feed.latest[k])
  {
    PlannedIsUpcoming(c, s);
  }

  /** The measurement is kept at every begin that prepares. */
  lemma BeginSnapshots(c: Config, s: State, setInput: int)
    requires Accepted(c) && Shape(c, s) && !s.flight.begun && s.feed.known && c.stateDim > 0
    ensures Begin(c, s, setInput).1 == CAP_OK ==> Begin(c, s, setInput).0.feed.atFire == s.feed.latest
  {
  }

  /** A request that was begun stays as it was prepared until it is committed. */
  lemma BegunStays(c: Config, s: State, setInput: int)
    requires Accepted(c) && Shape(c, s) && s.flight.begun && c.Usable()
    ensures Begin(c, s, setInput) == (s, CAP_OK)
  {
  }

  lemma PlannedIsUpcoming(c: Config, s: State)
    requires Supported(c) && Shape(c, s) && c.Projects()
    ensures var n := if |Upcoming(c, s)| < c.lookahead then |Upcoming(c, s)| else c.lookahead;
      PlannedRows(c, s) == Upcoming(c, s)[..n] && |PlannedRows(c, s)| == n
    ensures s.seat.active.Some? ==> ProjectionCount(c, s.seat.index) == |PlannedRows(c, s)|
  {
    if s.seat.active.Some? {
      EndUnwrapped(c, s.seat.index);
    }
  }

  lemma EndUnwrapped(c: Config, begin: nat)
    requires begin < c.chunkLength < UINT32 && begin + c.lookahead < UINT32
    ensures ProjectionEnd(c, begin) ==
      if begin + c.lookahead > c.chunkLength then c.chunkLength else begin + c.lookahead
    ensures ProjectionCount(c, begin) == ProjectionEnd(c, begin) - begin
  {
  }

  // ---- overdue fires ---------------------------------------------------------

  /** The embedder waits: it polls while the executor is busy, or moves the clock. */
  ghost predicate Waiting(c: Config, ops: seq<Op>) {
    forall i :: 0 <= i < |ops| ==>
      ops[i].AdvanceOp? || (ops[i].PollOp? && ops[i].land.query > 0 && RowsOk(c, ops[i].land.data))
  }

  function Polls(ops: seq<Op>): nat {
    if ops == [] then 0 else Polls(ops[..|ops| - 1]) + if ops[|ops| - 1].PollOp? then 1 else 0
  }

  /** The polls, or the clock, have used up what they were given. */
  predicate Over(c: Config, ops: seq<Op>) {
    || (c.pollBudget >= 0 && Polls(ops) > c.pollBudget)
    || (c.deadlineSteps > 0 && |ops| - Polls(ops) > c.deadlineSteps)
  }

  predicate FoundAt(c: Config, ops: seq<Op>, n: nat)
    requires n < |ops|
  {
    ops[n].PollOp? && Over(c, ops[..n + 1])
  }

  /** Some poll found that. */
  ghost predicate Overran(c: Config, ops: seq<Op>) {
    exists n: nat :: n < |ops| && FoundAt(c, ops, n)
  }

  ghost function WaitFor(c: Config, s: State, ops: seq<Op>): (r: State)
    requires Accepted(c) && Shape(c, s) && Waiting(c, ops)
    ensures Shape(c, r)
  {
    if ops == [] then s else Step(c, WaitFor(c, s, ops[..|ops| - 1]), ops[|ops| - 1])
  }

  lemma OverranStep(c: Config, ops: seq<Op>, op: Op)
    ensures Overran(c, ops + [op]) <==> Overran(c, ops) || (op.PollOp? && Over(c, ops + [op]))
  {
    var ops' := ops + [op];
    assert ops'[..|ops'|] == ops';
    forall n: nat | n < |ops| ensures FoundAt(c, ops', n) <==> FoundAt(c, ops, n) {
      assert ops'[..n + 1] == ops[..n + 1];
    }
    if op.PollOp? && Over(c, ops') {
      assert FoundAt(c, ops', |ops|);
    } else if n: nat :| n < |ops| && FoundAt(c, ops, n) {
      assert FoundAt(c, ops', n);
    }
  }

  /** A fire made at `step` that has been waited for. */
  ghost predicate IsWaitedFor(c: Config, s: State, r: State, ops: seq<Op>) {
    && r.flight.inFlight && r.flight.ticks == Polls(ops) && r.flight.fireStep == s.step
    && r.step == s.step + (|ops| - Polls(ops)) && (r.flight.reported <==> Overran(c, ops))
    && r.stats.late == s.stats.late
    && r.stats.fallbacks == s.stats.fallbacks + if Overran(c, ops) then 1 else 0
  }

  lemma {:induction false} WaitedFor(c: Config, s: State, ops: seq<Op>)
    requires Accepted(c) && Shape(c, s) && Waiting(c, ops) && c.Usable() && s.flight.inFlight
    requires s.flight.ticks == 0 && !s.flight.reported && s.flight.fireStep == s.step
    ensures IsWaitedFor(c, s, WaitFor(c, s, ops), ops)
  {
    if ops != [] {
      var before, op := ops[..|ops| - 1], ops[|ops| - 1];
      WaitedFor(c, s, before);
      WaitsOn(c, s, WaitFor(c, s, before), before, op);
      assert before + [op] == ops;
    }
  }

  lemma WaitsOn(c: Config, s: State, at: State, ops: seq<Op>, op: Op)
    requires Accepted(c) && Shape(c, at) && c.Usable() && IsWaitedFor(c, s, at, ops) && Waiting(c, [op])
    ensures OpOk(c, op) && IsWaitedFor(c, s, Step(c, at, op), ops + [op])
  {
    assert [op][0] == op && (ops + [op])[..|ops|] == ops;
    OverranStep(c, ops, op);
  }

  lemma CommitArms(c: Config, s: State, reply: RequestReply)
    requires Accepted(c) && Shape(c, s) && Commit(c, s, reply).1 == CAP_OK
    ensures var f := Commit(c, s, reply).0.flight;
      f.inFlight && f.ticks == 0 && !f.reported && f.fireStep == Commit(c, s, reply).0.step
  {
  }

  /** An overdue fire is reported once: however polls and clock steps follow the fire, a poll
      that finds the executor busy reports a fallback exactly if the budget of polls or of
      steps is used up and no poll has found that before; and a chunk that comes then counts
      as late exactly if it was reported. */
  lemma FallsBackOnce(c: Config, s: State, reply: RequestReply, ops: seq<Op>, land: LandReply)
    requires Accepted(c) && Shape(c, s) && c.Usable() && Commit(c, s, reply).1 == CAP_OK
    requires Waiting(c, ops) && RowsOk(c, land.data)
    ensures var at := WaitFor(c, Commit(c, s, reply).0, ops); var (r, status) := Poll(c, at, land);
      && (land.query > 0 ==>
            status == if Over(c, ops + [PollOp(land)]) && !Overran(c, ops) then Fallback else Pending)
      && (land.query == 0 && land.read == CAP_OK ==>
            r.stats.late == at.stats.late + if Overran(c, ops) then 1 else 0)
  {
    CommitArms(c, s, reply);
    WaitedFor(c, Commit(c, s, reply).0, ops);
    WaitedPoll(c, Commit(c, s, reply).0, WaitFor(c, Commit(c, s, reply).0, ops), ops, land);
  }

  lemma WaitedPoll(c: Config, s: State, at: State, ops: seq<Op>, land: LandReply)
    requires Accepted(c) && Shape(c, at) && c.Usable() && IsWaitedFor(c, s, at, ops) && RowsOk(c, land.data)
    ensures land.query > 0 ==>
      Poll(c, at, land).1 == if Over(c, ops + [PollOp(land)]) && !Overran(c, ops) then Fallback else Pending
    ensures land.query == 0 && land.read == CAP_OK ==>
      Poll(c, at, land).0.stats.late == at.stats.late + if Overran(c, ops) then 1 else 0
  {
    assert (ops + [PollOp(land)])[..|ops|] == ops;
    if land.query > 0 {
      BusyPoll(c, at, land);
    } else if land.query == 0 && land.read == CAP_OK {
      LatePoll(c, at, land);
    }
  }

  lemma BusyPoll(c: Config, s: State, land: LandReply)
    requires Accepted(c) && Shape(c, s) && RowsOk(c, land.data) && c.Usable() && s.flight.inFlight && land.query > 0
    ensures Poll(c, s, land).1 ==
      if (|| (c.pollBudget >= 0 && s.flight.ticks + 1 > c.pollBudget)
          || (c.deadlineSteps > 0 && s.step - s.flight.fireStep > c.deadlineSteps)) && !s.flight.reported
      then Fallback else Pending
  {
  }

  lemma LatePoll(c: Config, s: State, land: LandReply)
    requires Accepted(c) && Shape(c, s) && RowsOk(c, land.data) && c.Usable() && s.flight.inFlight
    requires land.query == 0 && land.read == CAP_OK
    ensures Poll(c, s, land).0.stats.late == s.stats.late + if s.flight.reported then 1 else 0
  {
    if c.Chunked() {
      SeatingCounts(c, Arrived(c, CountLate(s), land.data), s.seat.pending.value);
    }
  }

  lemma SeatingCounts(c: Config, s: State, slot: nat)
    requires Accepted(c) && Shape(c, s) && c.Chunked() && Spare(c, s.ring, s.seat, slot)
    requires !s.flight.inFlight && !s.flight.begun && s.flight.requestedOnce && s.seat.waiting.None?
    ensures SeatLanded(c, s, slot).0.stats.late == s.stats.late
  {
  }

  // ---- reset -----------------------------------------------------------------

  /** A reset leaves a mode that has consumed, parked, retained, held and asked for nothing,
      like a new one, but for the clock, the state feed and the counters. */
  lemma ResetForgets(c: Config, s: State)
    requires Accepted(c) && Shape(c, s)
    ensures var r := Reset(c, s); var empty := Init(c);
      && r.seat == empty.seat && r.ring.valid == empty.ring.valid && r.ring.retained == empty.ring.retained
      && r.held == empty.held && r.log.landed == empty.log.landed
      && !r.flight.inFlight && !r.flight.begun && r.flight.ticks == 0 && !r.flight.reported
      && r.step == s.step && r.feed == s.feed && r.stats == s.stats
      && r.flight.requestedOnce == s.flight.requestedOnce
  {
    assert Reset(c, s).ring.valid == Init(c).ring.valid;
  }

  // ---- the state feed --------------------------------------------------------

  /** The latest measurement, whether there was one, and the column map are as they were. */
  ghost predicate SameFeed(s: State, r: State) {
    r.feed.latest == s.feed.latest && r.feed.known == s.feed.known && r.feed.indices == s.feed.indices
  }

  lemma CommitFeeds(c: Config, s: State, reply: RequestReply)
    requires Accepted(c) && Shape(c, s)
    ensures SameFeed(s, Commit(c, s, reply).0)
  {
    BeginFeeds(c, s, reply.setInput);
    var (s1, rc) := if s.flight.begun then (s, CAP_OK) else Begin(c, s, reply.setInput);
    if rc == CAP_OK {
      LaunchFeed(c, s1, reply.submit);
    }
  }

  lemma BeginFeeds(c: Config, s: State, setInput: int)
    requires Shape(c, s)
    ensures SameFeed(s, Begin(c, s, setInput).0)
  {
    PreparedFeeds(c, Snapshot(c, s), setInput);
  }

  lemma PreparedFeeds(c: Config, s: State, setInput: int)
    requires Shape(c, s)
    ensures !s.flight.inFlight && s.seat.waiting.None? ==> SameFeed(s, Prepared(c, s, setInput).0)
  {
  }

  lemma SeatFeeds(c: Config, s: State, slot: nat)
    requires Accepted(c) && Shape(c, s) && c.Chunked() && Spare(c, s.ring, s.seat, slot)
    requires !s.flight.inFlight && !s.flight.begun && s.flight.requestedOnce && s.seat.waiting.None?
    ensures SameFeed(s, SeatLanded(c, s, slot).0)
  {
  }

  lemma PollFeeds(c: Config, s: State, land: LandReply)
    requires Accepted(c) && Shape(c, s) && RowsOk(c, land.data)
    ensures SameFeed(s, Poll(c, s, land).0)
  {
    if c.Usable() && s.flight.inFlight && land.query == 0 && c.Chunked() && land.read == CAP_OK {
      TakeInFeeds(c, CountLate(s), land.data);
    }
  }

  lemma TakeInFeeds(c: Config, s: State, rows: Chunk)
    requires Accepted(c) && Shape(c, s) && s.flight.inFlight && c.Chunked() && RowsOk(c, rows)
    ensures SameFeed(s, TakeIn(c, s, rows).0)
  {
    SeatFeeds(c, Arrived(c, s, rows), s.seat.pending.value);
  }

  lemma PromoteFeeds(c: Config, s: State)
    requires Accepted(c) && Shape(c, s)
    ensures SameFeed(s, Promote(c, s))
  {
  }

  lemma FetchFeeds(c: Config, s: State, env: Env)
    requires Accepted(c) && Shape(c, s) && c.Chunked() && RowsOk(c, env.land.data)
    ensures SameFeed(s, Fetch(c, s, env).0)
  {
    CommitFeeds(c, s, env.first);
    var (s1, rc) := if !s.flight.inFlight && !c.external then Commit(c, s, env.first) else (s, CAP_OK);
    if rc == CAP_OK {
      PollFeeds(c, s1, env.land);
    }
  }

  lemma ServeFeeds(c: Config, s: State, env: Env, fits: bool)
    requires Accepted(c) && Shape(c, s) && s.seat.active.Some?
    ensures SameFeed(s, Serve(c, s, env, fits).state)
  {
    CommitFeeds(c, EmitActive(c, s), env.prefetch);
  }

  lemma GapFeeds(c: Config, s: State, fits: bool)
    requires Accepted(c) && Shape(c, s)
    ensures SameFeed(s, Gap(c, s, fits).state)
  {
    PromoteFeeds(c, Missed(s, Fallback, fits).state);
  }

  lemma NextFeeds(c: Config, s: State, env: Env, fits: bool)
    requires Inv(c, s) && RowsOk(c, env.land.data)
    ensures SameFeed(s, Next(c, s, env, fits).state)
  {
    if c.Chunked() {
      ServingFeeds(c, s, env);
      if Serving(c, s, env).seat.active.Some? {
        TickServes(c, s, env, fits);
        ServeFeeds(c, Serving(c, s, env), env, fits);
      } else {
        TickMisses(c, s, env, fits);
        UnservedFeeds(c, s, env, fits);
      }
    }
  }

  lemma UnservedFeeds(c: Config, s: State, env: Env, fits: bool)
    requires Inv(c, s) && RowsOk(c, env.land.data) && c.Chunked() && Serving(c, s, env).seat.active.None?
    ensures SameFeed(s, Unserved(c, s, env, fits).state)
  {
    ServingFeeds(c, s, env);
    if Serving(c, s, env).seat.waiting.Some? {
      GapFeeds(c, Serving(c, s, env), fits);
    } else {
      PromoteFeeds(c, s);
      FetchFeeds(c, Promote(c, s), env);
      MissedFeeds(c, Fetch(c, Promote(c, s), env).0, fits);
    }
  }

  lemma MissedFeeds(c: Config, s: State, fits: bool)
    ensures forall status :: SameFeed(s, Missed(s, status, fits).state)
  {
  }

  lemma ServingFeeds(c: Config, s: State, env: Env)
    requires Accepted(c) && Shape(c, s) && RowsOk(c, env.land.data)
    ensures SameFeed(s, Serving(c, s, env))
  {
    PromoteFeeds(c, s);
    if c.Chunked() {
      FetchFeeds(c, Promote(c, s), env);
      PromoteFeeds(c, Fetch(c, Promote(c, s), env).0);
    }
  }

  lemma SyncFeeds(c: Config, s: State, reply: RequestReply, sync: int, land: LandReply)
    requires Accepted(c) && Shape(c, s) && RowsOk(c, land.data)
    ensures SameFeed(s, Sync(c, s, reply, sync, land).0)
  {
    CommitFeeds(c, s, reply);
    var (s1, rc) := if s.flight.inFlight then (s, CAP_OK) else Commit(c, s, reply);
    if rc == CAP_OK && sync == CAP_OK {
      PollFeeds(c, s1, land);
    }
  }

  /** No verb but the two that feed it touches the feed. */
  lemma FeedStays(c: Config, s: State, op: Op)
    requires Inv(c, s) && OpOk(c, op) && !op.SetStateOp? && !op.SetIndicesOp?
    ensures SameFeed(s, Step(c, s, op))
  {
    match op
    case BeginOp(setInput) => BeginFeeds(c, s, setInput);
    case CommitOp(reply) => CommitFeeds(c, s, reply);
    case PollOp(land) => PollFeeds(c, s, land);
    case NextOp(env, fits) => NextFeeds(c, s, env, fits);
    case SyncOp(reply, sync, land) => SyncFeeds(c, s, reply, sync, land);
    case _ =>
  }

  /** The measurement that was accepted last. */
  ghost function LastMeasured(c: Config, ops: seq<Op>): Option<seq<real>> {
    if ops == [] then None
    else
      var op := ops[|ops| - 1];
      if op.SetStateOp? && |op.x| == c.stateDim > 0 then Some(op.x) else LastMeasured(c, ops[..|ops| - 1])
  }

  /** Over all runs, the reset included: the state that switching and projection work with is
      the one that was measured last, and before there was one they are told so. */
  lemma {:induction false} FeedIsLatest(c: Config, ops: seq<Op>)
    requires Supported(c) && OpsOk(c, ops)
    ensures var feed := After(c, ops).feed;
      && (feed.known <==> LastMeasured(c, ops).Some?)
      && (feed.known ==> feed.latest == LastMeasured(c, ops).value)
    decreases |ops|
  {
    if ops != [] {
      var before, op := ops[..|ops| - 1], ops[|ops| - 1];
      FeedIsLatest(c, before);
      RunInv(c, before);
      assert After(c, ops) == AfterLast(c, ops) == Step(c, After(c, before), op);
      if !op.SetStateOp? && !op.SetIndicesOp? {
        FeedStays(c, After(c, before), op);
      }
    }
  }

  /** Once a request was made the column map is fixed. */
  lemma MapIsFixed(c: Config, s: State, op: Op)
    requires Supported(c) && Reachable(c, s) && OpOk(c, op) && s.flight.requestedOnce
    ensures Shape(c, s) && Step(c, s, op).feed.indices == s.feed.indices
  {
    ReachableInv(c, s);
    if !op.SetStateOp? && !op.SetIndicesOp? {
      FeedStays(c, s, op);
    }
  }

  // ---- what became of the chunks ---------------------------------------------

  /** Every chunk that landed in between was retained or counted as pruned. */
  ghost predicate Accounted(s: State, r: State) {
    r.stats.pruned + |r.ring.retained| + |s.log.landed| == s.stats.pruned + |s.ring.retained| + |r.log.landed|
  }

  lemma BeginAccounts(c: Config, s: State, setInput: int)
    requires Shape(c, s)
    ensures Accounted(s, Begin(c, s, setInput).0)
  {
  }

  lemma LaunchAccounts(c: Config, s: State, submit: int)
    requires Accepted(c) && Shape(c, s) && !s.flight.inFlight && s.seat.waiting.None?
    ensures Accounted(s, Launch(c, s, submit).0)
  {
    if c.Chunked() {
      PickAccounts(c, s.(flight := s.flight.(begun := false)));
    }
  }

  lemma PickAccounts(c: Config, s: State)
    requires Accepted(c) && Shape(c, s) && c.Chunked() && !s.flight.inFlight && s.seat.waiting.None?
    ensures Accounted(s, PickSlot(c, s))
  {
  }

  lemma CommitAccounts(c: Config, s: State, reply: RequestReply)
    requires Accepted(c) && Shape(c, s)
    ensures Accounted(s, Commit(c, s, reply).0)
  {
    BeginAccounts(c, s, reply.setInput);
    var (s1, rc) := if s.flight.begun then (s, CAP_OK) else Begin(c, s, reply.setInput);
    if rc == CAP_OK {
      LaunchAccounts(c, s1, reply.submit);
    }
  }

  lemma FusionAccounts(c: Config, s: State, slot: nat)
    requires Accepted(c) && Shape(c, s) && c.Fuses()
    requires !s.flight.inFlight && s.flight.requestedOnce && s.seat.waiting.None?
    requires slot < |s.ring.slots| && slot !in s.ring.retained
    ensures Accounted(s, SeatFusion(c, s, slot).0)
  {
  }

  lemma SeatAccounts(c: Config, s: State, slot: nat)
    requires Accepted(c) && Shape(c, s) && c.Chunked() && Spare(c, s.ring, s.seat, slot)
    requires !s.flight.inFlight && !s.flight.begun && s.flight.requestedOnce && s.seat.waiting.None?
    ensures Accounted(s, SeatLanded(c, s, slot).0)
  {
    if c.Fuses() {
      FusionAccounts(c, s, slot);
    }
  }

  lemma TakeInAccounts(c: Config, s: State, rows: Chunk)
    requires Accepted(c) && Shape(c, s) && s.flight.inFlight && c.Chunked() && RowsOk(c, rows)
    ensures Accounted(s, TakeIn(c, s, rows).0)
  {
    SeatAccounts(c, Arrived(c, s, rows), s.seat.pending.value);
  }

  lemma PollAccounts(c: Config, s: State, land: LandReply)
    requires Accepted(c) && Shape(c, s) && RowsOk(c, land.data)
    ensures Accounted(s, Poll(c, s, land).0)
  {
    if c.Usable() && s.flight.inFlight && land.query == 0 && c.Chunked() && land.read == CAP_OK {
      TakeInAccounts(c, CountLate(s), land.data);
    }
  }

  lemma PromoteAccounts(c: Config, s: State)
    requires Accepted(c) && Shape(c, s)
    ensures Accounted(s, Promote(c, s))
  {
    if s.seat.waiting.Some? && s.step >= s.ring.slots[s.seat.waiting.value].startStep && c.Fuses() {
      FusionAccounts(c, s.(seat := s.seat.(waiting := None)), s.seat.waiting.value);
    }
  }

  lemma FetchAccounts(c: Config, s: State, env: Env)
    requires Accepted(c) && Shape(c, s) && c.Chunked() && RowsOk(c, env.land.data)
    ensures Accounted(s, Fetch(c, s, env).0)
  {
    CommitAccounts(c, s, env.first);
    var (s1, rc) := if !s.flight.inFlight && !c.external then Commit(c, s, env.first) else (s, CAP_OK);
    if rc == CAP_OK {
      PollAccounts(c, s1, env.land);
    }
  }

  lemma ServingAccounts(c: Config, s: State, env: Env)
    requires Accepted(c) && Shape(c, s) && RowsOk(c, env.land.data)
    ensures Accounted(s, Serving(c, s, env))
  {
    PromoteAccounts(c, s);
    if c.Chunked() {
      FetchAccounts(c, Promote(c, s), env);
      PromoteAccounts(c, Fetch(c, Promote(c, s), env).0);
    }
  }

  lemma ServeAccounts(c: Config, s: State, env: Env, fits: bool)
    requires Accepted(c) && Shape(c, s) && s.seat.active.Some?
    ensures Accounted(s, Serve(c, s, env, fits).state)
  {
    CommitAccounts(c, EmitActive(c, s), env.prefetch);
  }

  lemma MissedAccounts(s: State, fits: bool)
    ensures forall status :: Accounted(s, Missed(s, status, fits).state)
  {
  }

  lemma GapAccounts(c: Config, s: State, fits: bool)
    requires Accepted(c) && Shape(c, s)
    ensures Accounted(s, Gap(c, s, fits).state)
  {
    MissedAccounts(s, fits);
    PromoteAccounts(c, Missed(s, Fallback, fits).state);
  }

  lemma UnservedAccounts(c: Config, s: State, env: Env, fits: bool)
    requires Inv(c, s) && RowsOk(c, env.land.data) && c.Chunked() && Serving(c, s, env).seat.active.None?
    ensures Accounted(s, Unserved(c, s, env, fits).state)
  {
    ServingAccounts(c, s, env);
    if Serving(c, s, env).seat.waiting.Some? {
      GapAccounts(c, Serving(c, s, env), fits);
    } else {
      PromoteAccounts(c, s);
      FetchAccounts(c, Promote(c, s), env);
      MissedAccounts(Fetch(c, Promote(c, s), env).0, fits);
    }
  }

  lemma NextAccounts(c: Config, s: State, env: Env, fits: bool)
    requires Inv(c, s) && RowsOk(c, env.land.data)
    ensures Accounted(s, Next(c, s, env, fits).state)
  {
    if c.Chunked() {
      if Serving(c, s, env).seat.active.Some? {
        ServingAccounts(c, s, env);
        TickServes(c, s, env, fits);
        ServeAccounts(c, Serving(c, s, env), env, fits);
      } else {
        TickMisses(c, s, env, fits);
        UnservedAccounts(c, s, env, fits);
      }
    }
  }

  lemma SyncAccounts(c: Config, s: State, reply: RequestReply, sync: int, land: LandReply)
    requires Accepted(c) && Shape(c, s) && RowsOk(c, land.data)
    ensures Accounted(s, Sync(c, s, reply, sync, land).0)
  {
    CommitAccounts(c, s, reply);
    var (s1, rc) := if s.flight.inFlight then (s, CAP_OK) else Commit(c, s, reply);
    if rc == CAP_OK && sync == CAP_OK {
      PollAccounts(c, s1, land);
    }
  }

  lemma StepAccounts(c: Config, s: State, op: Op)
    requires Inv(c, s) && OpOk(c, op) && !op.ResetOp?
    ensures Accounted(s, Step(c, s, op))
  {
    match op
    case BeginOp(setInput) => BeginAccounts(c, s, setInput);
    case CommitOp(reply) => CommitAccounts(c, s, reply);
    case PollOp(land) => PollAccounts(c, s, land);
    case NextOp(env, fits) => NextAccounts(c, s, env, fits);
    case SyncOp(reply, sync, land) => SyncAccounts(c, s, reply, sync, land);
    case _ =>
  }

  /** The counter of pruned chunks at the latest reset. */
  ghost function PrunedBefore(c: Config, ops: seq<Op>): nat
    requires Accepted(c) && OpsOk(c, ops)
  {
    if ops == [] then 0
    else if ops[|ops| - 1].ResetOp? then After(c, ops).stats.pruned
    else PrunedBefore(c, ops[..|ops| - 1])
  }

  /** Over all runs: every chunk that has landed for fusion since the reset is retained or was
      counted as pruned, by expiry or by eviction, once. */
  lemma {:induction false} ChunksBalance(c: Config, ops: seq<Op>)
    requires Supported(c) && OpsOk(c, ops)
    ensures var s := After(c, ops); s.stats.pruned + |s.ring.retained| == PrunedBefore(c, ops) + |s.log.landed|
    decreases |ops|
  {
    if ops != [] {
      var before, op := ops[..|ops| - 1], ops[|ops| - 1];
      ChunksBalance(c, before);
      RunInv(c, before);
      assert After(c, ops) == AfterLast(c, ops) == Step(c, After(c, before), op);
      if !op.ResetOp? {
        StepAccounts(c, After(c, before), op);
      }
    }
  }

  /** A begin counts as one preparation if it prepares, and a chunk that is read while another
      is being consumed counts as one switch. */
  lemma CountsMove(c: Config, s: State, setInput: int, rows: Chunk)
    requires Accepted(c) && Shape(c, s)
    ensures var (r, rc) := Begin(c, s, setInput);
      r.stats.prepared == s.stats.prepared + if rc == CAP_OK && !s.flight.begun then 1 else 0
    ensures s.flight.inFlight && c.Chunked() && RowsOk(c, rows) ==>
      TakeIn(c, s, rows).0.stats.switches == s.stats.switches + if s.seat.active.Some? then 1 else 0
  {
    if s.flight.inFlight && c.Chunked() && RowsOk(c, rows) {
      SeatSwitches(c, Arrived(c, s, rows), s.seat.pending.value);
    }
  }

  lemma SeatSwitches(c: Config, s: State, slot: nat)
    requires Accepted(c) && Shape(c, s) && c.Chunked() && Spare(c, s.ring, s.seat, slot)
    requires !s.flight.inFlight && !s.flight.begun && s.flight.requestedOnce && s.seat.waiting.None?
    ensures SeatLanded(c, s, slot).0.stats.switches == s.stats.switches
  {
  }
}
