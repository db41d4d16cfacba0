/** What the invariant means for the embedder, over every run. */
module ActionChunkTheorems {
  import opened Wrappers
  import opened Fusion
  import opened FusionMeaning
  import opened ActionChunkSpec
  import opened ActionChunkInvariant
  import opened ActionChunkProofs

  // ---- slots -----------------------------------------------------------------

  /** Slot ownership and immutability of retained chunks: what the ring holds for the
      retained slots is, to the row, the newest part of what landed since the reset. */
  lemma SlotOwnership(c: Config, s: State)
    requires Supported(c) && Reachable(c, s)
    ensures RingOk(c, s.ring) && Owned(c, s.ring, s.seat, s.flight)
    ensures |s.ring.retained| <= |s.log.landed|
    ensures Chunks(s.ring.slots, s.ring.retained) == s.log.landed[|s.log.landed| - |s.ring.retained|..]
  {
    ReachableInv(c, s);
    RetainedIsHistory(c, s);
  }

  lemma RetainedIsHistory(c: Config, s: State)
    requires Supported(c) && Shape(c, s) && FusionInv(c, s)
    ensures |s.ring.retained| <= |s.log.landed|
    ensures Chunks(s.ring.slots, s.ring.retained) == s.log.landed[|s.log.landed| - |s.ring.retained|..]
  {
    if !c.Fuses() {
      assert Chunks(s.ring.slots, []) == [];
    }
  }

  /** A fire fills another slot than the one being consumed, exactly if there is another. */
  lemma FireSparesConsumed(c: Config, s: State)
    requires Accepted(c) && Shape(c, s) && c.Chunked() && s.seat.active.Some?
    requires !s.flight.inFlight && s.seat.waiting.None?
    ensures PickSlot(c, s).seat.pending != s.seat.active <==> c.ringSlots >= 2
  {
    var r := s.ring.retained;
    if c.Fuses() && FirstFree(s.ring.valid) == |s.ring.valid| && c.ringSlots >= 2 {
      FullRing(c, s.ring);
      assert r[0] != r[|r| - 1];
    }
  }

  // ---- fusion ----------------------------------------------------------------

  /** The bounded ring refines unbounded history: in every reachable state each fused row
      for a step that had not passed at the latest fusion is the weighted mean over the
      newest covering chunks of all chunks landed since the reset, and every fused row is
      that mean over the chunks h[e..] that had not expired at the fusion. */
  lemma FusionRefinesUnboundedHistory(c: Config, s: State, i: nat) returns (e: nat)
    requires Supported(c) && c.Fuses() && Reachable(c, s) && i < c.chunkLength
    requires s.log.landed != []
    ensures var h := s.log.landed;
      && LandedOk(c, h) && Monotone(h) && |s.fusedRows| == c.chunkLength
      && (h[|h| - 1].start + i >= s.log.fusedAt ==> IsMean(c, h, i, s.fusedRows[i]))
      && SplitsAt(c, h, e, s.log.fusedAt) && IsMean(c, h[e..], i, s.fusedRows[i])
  {
    ReachableInv(c, s);
    e := SplitExists(c, s.log.landed, s.log.fusedAt, 0);
    assert RowMeans(c, s.fusedRows[i], s.log.landed, s.log.fusedAt, i);
    FusedRowIsMean(c, s.log.landed, i);
    FusedRowIsMean(c, s.log.landed[e..], i);
  }

  // ---- ticks -----------------------------------------------------------------

  /** What a tick that started in `s` and served from `at` wrote: Ready, with exactly one
      row, the current row of the active chunk, whenever there is one and it fits; a row
      without Ready is the held action again, under Fallback; no row means that nothing was
      handed out. The row of a Ready tick, and no other, is what later misses repeat, if the
      miss policy repeats anything. */
  ghost predicate Writes(c: Config, s: State, at: State, t: Tick, fits: bool)
    requires Shape(c, at)
  {
    && (t.status.Ready? <==> c.Chunked() && fits && at.seat.active.Some?)
    && (t.status.Ready? ==>
          && t.row == Some(Source(c, at)[at.seat.index])
          && t.state.stats.emitted == s.stats.emitted + 1 && t.state.step == s.step + 1
          && t.state.stats.held == s.stats.held
          && t.state.held == if c.miss.HoldLast? then t.row else None)
    && (!t.status.Ready? ==> t.state.held == s.held && (at.seat.active.Some? ==> t.status.Failed?))
    && (!t.status.Ready? && t.row.Some? ==>
          && fits && t.status.Fallback? && t.row == s.held
          && t.state.stats.emitted == s.stats.emitted + 1 && t.state.step == s.step + 1
          && t.state.stats.held == s.stats.held + 1)
    && (t.row.None? ==> !t.status.Ready? && t.state.stats.emitted == s.stats.emitted && t.state.step == s.step)
  }

  /** A tick hands out the current row of the chunk that is active once a due chunk has been
      promoted or, if nothing was consumable, a new one fetched; or it says why not. */
  lemma NextWrites(c: Config, s: State, env: Env, fits: bool)
    requires Inv(c, s) && RowsOk(c, env.land.data)
    ensures Writes(c, s, Serving(c, s, env), Next(c, s, env, fits), fits)
  {
    ServingKeeps(c, s, env);
    ServingWrites(c, s, env);
    if c.Chunked() {
      var at := Serving(c, s, env);
      if at.seat.active.Some? {
        TickServes(c, s, env, fits);
        ServeWrites(c, at, env, fits);
        WritesFrom(c, s, at, at, Serve(c, at, env, fits), fits);
      } else {
        TickMisses(c, s, env, fits);
        UnservedWrites(c, s, env, fits);
      }
    }
  }

  lemma ServingWrites(c: Config, s: State, env: Env)
    requires Inv(c, s) && RowsOk(c, env.land.data)
    ensures NothingWritten(s, Serving(c, s, env))
  {
    PromoteKeeps(c, s);
    var s1 := Promote(c, s);
    if c.Chunked() && s1.seat.active.None? && s1.seat.waiting.None? {
      FetchKeeps(c, s1, env);
      FetchCounts(c, s1, env);
      PromoteKeeps(c, Fetch(c, s1, env).0);
    }
  }

  lemma UnservedWrites(c: Config, s: State, env: Env, fits: bool)
    requires Inv(c, s) && RowsOk(c, env.land.data) && c.Chunked() && Serving(c, s, env).seat.active.None?
    ensures Writes(c, s, Serving(c, s, env), Unserved(c, s, env, fits), fits)
  {
    var at := Serving(c, s, env);
    if at.seat.waiting.Some? {
      ServingKeeps(c, s, env);
      ServingWrites(c, s, env);
      GapWrites(c, at, fits);
      WritesFrom(c, s, at, at, Gap(c, at, fits), fits);
    } else {
      FetchMissed(c, s, env);
      var (r, status) := Fetch(c, Promote(c, s), env);
      MissWrites(c, s, r, at, status, fits);
    }
  }

  /** A fetch that leaves nothing to consume or to wait for was not ready. */
  lemma FetchMissed(c: Config, s: State, env: Env)
    requires Inv(c, s) && RowsOk(c, env.land.data) && c.Chunked()
    requires var r := Fetch(c, Promote(c, s), env).0; r.seat.active.None? && r.seat.waiting.None?
    ensures var (r, status) := Fetch(c, Promote(c, s), env);
      NothingWritten(s, r) && status != Some(Ready)
  {
    PromoteKeeps(c, s);
    FetchCounts(c, Promote(c, s), env);
  }

  lemma MissWrites(c: Config, s: State, r: State, at: State, status: Option<Status>, fits: bool)
    requires NothingWritten(s, r) && status != Some(Ready) && Shape(c, at) && at.seat.active.None?
    ensures Writes(c, s, at, if status.None? then Tick(r, Failed, None) else Missed(r, status.value, fits), fits)
  {
  }

  lemma WritesFrom(c: Config, s: State, s1: State, at: State, t: Tick, fits: bool)
    requires Shape(c, at) && NothingWritten(s, s1) && Writes(c, s1, at, t, fits)
    ensures Writes(c, s, at, t, fits)
  {
  }

  lemma ServeWrites(c: Config, s: State, env: Env, fits: bool)
    requires Inv(c, s) && c.Chunked() && s.seat.active.Some? && Ahead(s)
    ensures Writes(c, s, s, Serve(c, s, env, fits), fits)
  {
    CommitCounts(c, EmitActive(c, s), env.prefetch);
  }

  lemma GapWrites(c: Config, s: State, fits: bool)
    requires Inv(c, s) && s.seat.active.None? && Ahead(s)
    ensures Writes(c, s, s, Gap(c, s, fits), fits)
  {
    var t := Missed(s, Fallback, fits);
    if t.row.Some? {
      EmitHeldKeeps(c, s);
      PromoteKeeps(c, t.state);
    }
  }

  /** Neither a request nor a query hands out an action. */
  ghost predicate NothingWritten(s: State, r: State) {
    r.step == s.step && r.held == s.held && r.stats.emitted == s.stats.emitted && r.stats.held == s.stats.held
  }

  lemma BeginCounts(c: Config, s: State, setInput: int)
    requires Shape(c, s)
    ensures NothingWritten(s, Begin(c, s, setInput).0)
  {
  }

  lemma LaunchCounts(c: Config, s: State, submit: int)
    requires Supported(c) && Shape(c, s) && !s.flight.inFlight && s.seat.waiting.None?
    ensures NothingWritten(s, Launch(c, s, submit).0)
  {
  }

  lemma CommitCounts(c: Config, s: State, reply: RequestReply)
    requires Supported(c) && Shape(c, s)
    ensures NothingWritten(s, Commit(c, s, reply).0)
  {
    BeginCounts(c, s, reply.setInput);
    var (s1, rc) := if s.flight.begun then (s, CAP_OK) else Begin(c, s, reply.setInput);
    if rc == CAP_OK {
      LaunchCounts(c, s1, reply.submit);
    }
  }

  lemma TakeInCounts(c: Config, s: State, rows: Chunk)
    requires Answered(c, s) && c.Chunked() && RowsOk(c, rows)
    ensures NothingWritten(s, TakeIn(c, s, rows).0)
  {
    ArrivedLanding(c, s, rows);
    SeatLandedCounts(c, Arrived(c, s, rows), s.seat.pending.value);
  }

  lemma PollCounts(c: Config, s: State, land: LandReply)
    requires Inv(c, s) && RowsOk(c, land.data)
    ensures NothingWritten(s, Poll(c, s, land).0)
  {
    if c.Usable() && s.flight.inFlight && land.query == 0 && c.Chunked() {
      LateKeeps(c, s);
      TakeInCounts(c, CountLate(s), land.data);
    }
  }

  lemma FetchCounts(c: Config, s: State, env: Env)
    requires Inv(c, s) && c.Chunked() && RowsOk(c, env.land.data)
    ensures NothingWritten(s, Fetch(c, s, env).0)
  {
    CommitCounts(c, s, env.first);
    CommitKeeps(c, s, env.first);
    var s1 := if !s.flight.inFlight && !c.external then Commit(c, s, env.first).0 else s;
    PollCounts(c, s1, env.land);
  }

  /** The first step of the chunk in flight, or of the one that a tick without a fire in
      flight fires. */
  ghost function NextStart(c: Config, s: State): nat {
    if s.flight.inFlight then s.flight.fireStep + s.flight.lookahead
    else s.step + if c.Projects() && s.flight.begun then s.flight.projectedCount else 0
  }

  /** The chunk that joins the fusion in a tick that serves an action: the parked one if it
      is due, or the one that arrives because nothing is consumable. */
  ghost function Joins(c: Config, s: State, env: Env): seq<Landed>
    requires Shape(c, s)
  {
    if s.seat.waiting.Some? then
      var slot := s.ring.slots[s.seat.waiting.value];
      if s.step < slot.startStep then [] else [Landed(slot.startStep, slot.rows)]
    else if s.seat.active.Some? then []
    else [Landed(NextStart(c, s), env.land.data)]
  }

  /** `r` is `s` after these chunks, at most one, have been fused and seated by the clock. */
  ghost predicate Joined(c: Config, s: State, r: State, l: seq<Landed>)
    requires c.chunkLength > 0
  {
    && r.log.landed == s.log.landed + l
    && (l == [] ==> r.log.fusedAt == s.log.fusedAt && r.seat.index == s.seat.index)
    && (|l| == 1 ==> r.log.fusedAt == s.step && r.seat.index == LatencyIndex(c, s.step, l[0].start))
  }

  lemma FusionJoins(c: Config, s: State, slot: nat)
    requires Supported(c) && Shape(c, s) && c.Fuses() && c.switchMode.Latency?
    requires !s.flight.inFlight && s.flight.requestedOnce && s.seat.waiting.None?
    requires slot < |s.ring.slots| && slot !in s.ring.retained
    ensures Joined(c, s, SeatFusion(c, s, slot).0, [Landed(s.ring.slots[slot].startStep, s.ring.slots[slot].rows)])
  {
  }

  lemma PromoteJoins(c: Config, s: State)
    requires Supported(c) && Shape(c, s) && c.Fuses() && c.switchMode.Latency? && s.seat.waiting.Some?
    ensures var slot := s.ring.slots[s.seat.waiting.value];
      Joined(c, s, Promote(c, s), if s.step < slot.startStep then [] else [Landed(slot.startStep, slot.rows)])
  {
    var w := s.seat.waiting.value;
    if s.step >= s.ring.slots[w].startStep {
      FusionJoins(c, s.(seat := s.seat.(waiting := None)), w);
    }
  }

  /** Where nothing was active, what is active now was fused from these rows, and what is
      parked is not due. */
  ghost predicate Fetched(c: Config, s: State, r: State, l: Landed)
    requires c.chunkLength > 0 && InRange(r.seat.waiting, |r.ring.slots|)
  {
    && (r.seat.active.Some? ==> Joined(c, s, r, [l]))
    && (r.seat.waiting.Some? ==> Ahead(r))
  }

  lemma SeatedJoins(c: Config, s: State, slot: nat)
    requires Supported(c) && Shape(c, s) && c.Fuses() && c.switchMode.Latency? && Spare(c, s.ring, s.seat, slot)
    requires !s.flight.inFlight && !s.flight.begun && s.flight.requestedOnce
    requires s.seat.active.None? && s.seat.waiting.None?
    ensures Fetched(c, s, SeatLanded(c, s, slot).0, Landed(s.ring.slots[slot].startStep, s.ring.slots[slot].rows))
  {
    if !(c.Projects() && s.step < s.ring.slots[slot].startStep) {
      FusionJoins(c, s, slot);
    }
  }

  /** What has just arrived starts where the fire said. */
  lemma ArrivedStart(c: Config, s: State, rows: Chunk)
    requires Shape(c, s) && s.flight.inFlight && c.Chunked() && RowsOk(c, rows)
    requires Stamped(c, s.ring, s.seat, s.flight, s.step)
    ensures var r := Arrived(c, s, rows); var slot := r.ring.slots[s.seat.pending.value];
      && slot.startStep == NextStart(c, s) && slot.rows == rows && r.log == s.log && r.step == s.step
      && r.seat.active == s.seat.active
  {
  }

  lemma TakeInJoins(c: Config, s: State, rows: Chunk)
    requires Supported(c) && Shape(c, s) && c.Fuses() && c.switchMode.Latency? && RowsOk(c, rows)
    requires Stamped(c, s.ring, s.seat, s.flight, s.step) && s.seat.active.None? && s.flight.inFlight
    ensures Fetched(c, s, TakeIn(c, s, rows).0, Landed(NextStart(c, s), rows))
  {
    var s1, p := Arrived(c, s, rows), s.seat.pending.value;
    ArrivedStart(c, s, rows);
    SeatedJoins(c, s1, p);
    SettledFetched(c, s, s1, SeatLanded(c, s1, p).0, Landed(NextStart(c, s), rows));
  }

  /** Counting a fire as completed or failed does not touch what was fused. */
  lemma SettledFetched(c: Config, s: State, s1: State, r: State, l: Landed)
    requires c.chunkLength > 0 && InRange(r.seat.waiting, |r.ring.slots|)
    requires s1.log == s.log && s1.step == s.step && Fetched(c, s1, r, l)
    ensures Fetched(c, s, Completed(r), l) && Fetched(c, s, Abort(r), l)
  {
  }

  /** Neither does counting it as late. */
  lemma LateFetched(c: Config, s: State, r: State, rows: Chunk)
    requires c.chunkLength > 0 && InRange(r.seat.waiting, |r.ring.slots|)
    requires Fetched(c, CountLate(s), r, Landed(NextStart(c, CountLate(s)), rows))
    ensures Fetched(c, s, r, Landed(NextStart(c, s), rows))
  {
  }

  lemma LandJoins(c: Config, s: State, land: LandReply)
    requires Supported(c) && Shape(c, s) && c.Fuses() && c.switchMode.Latency? && RowsOk(c, land.data)
    requires Stamped(c, s.ring, s.seat, s.flight, s.step) && s.seat.active.None?
    requires s.flight.inFlight && land.read == CAP_OK
    ensures Fetched(c, s, Land(c, CountLate(s), land).0, Landed(NextStart(c, s), land.data))
  {
    TakeInJoins(c, CountLate(s), land.data);
    LateFetched(c, s, TakeIn(c, CountLate(s), land.data).0, land.data);
  }

  lemma ReadyIsLanded(c: Config, s: State, land: LandReply)
    requires Supported(c) && Shape(c, s) && c.Chunked() && RowsOk(c, land.data) && Poll(c, s, land).1 == Ready
    ensures s.flight.inFlight && land.read == CAP_OK && Poll(c, s, land).0 == Land(c, CountLate(s), land).0
  {
  }

  lemma NothingFetched(c: Config, s: State, r: State, l: Landed)
    requires c.chunkLength > 0 && r.seat.active.None? && r.seat.waiting.None?
    ensures Fetched(c, s, r, l)
  {
  }

  /** A poll that leaves something active where nothing was has fused what it read. */
  lemma PollJoins(c: Config, s: State, land: LandReply)
    requires Supported(c) && Shape(c, s) && c.Fuses() && c.switchMode.Latency? && RowsOk(c, land.data)
    requires Stamped(c, s.ring, s.seat, s.flight, s.step) && s.seat.active.None? && s.seat.waiting.None?
    ensures Fetched(c, s, Poll(c, s, land).0, Landed(NextStart(c, s), land.data))
  {
    var (r, status) := Poll(c, s, land);
    if status == Ready {
      ReadyIsLanded(c, s, land);
      LandJoins(c, s, land);
    } else {
      NothingFetched(c, s, r, Landed(NextStart(c, s), land.data));
    }
  }

  lemma BeginStarts(c: Config, s: State, setInput: int)
    requires Shape(c, s) && s.seat.active.None? && !s.flight.inFlight && !s.flight.begun
    ensures var (r, rc) := Begin(c, s, setInput);
      && r.step == s.step && r.log.landed == s.log.landed && !r.flight.inFlight
      && (rc == CAP_OK && c.Projects() ==> r.flight.projectedCount == 0)
  {
  }

  lemma PickStarts(c: Config, s: State)
    requires Supported(c) && Shape(c, s) && c.Chunked() && !s.flight.inFlight && s.seat.waiting.None?
    ensures var r := PickSlot(c, s); r.step == s.step && r.log == s.log
  {
  }

  lemma LaunchStarts(c: Config, s: State, submit: int)
    requires Supported(c) && Shape(c, s) && !s.flight.inFlight && s.seat.waiting.None?
    ensures var (r, rc) := Launch(c, s, submit);
      && r.step == s.step && r.log.landed == s.log.landed
      && (rc == CAP_OK ==>
            (r.flight.inFlight && r.flight.fireStep == s.step
             && r.flight.lookahead == if c.Projects() then s.flight.projectedCount else 0))
  {
    if c.Chunked() {
      PickStarts(c, s.(flight := s.flight.(begun := false)));
    }
  }

  /** A fire made now starts where NextStart says. */
  lemma CommitStarts(c: Config, s: State, reply: RequestReply)
    requires Supported(c) && Shape(c, s) && s.seat.active.None? && !s.flight.inFlight
    ensures var (r, rc) := Commit(c, s, reply);
      && r.step == s.step && r.log.landed == s.log.landed
      && (rc == CAP_OK ==> NextStart(c, r) == NextStart(c, s))
  {
    if s.flight.begun {
      LaunchStarts(c, s, reply.submit);
    } else {
      BeginStarts(c, s, reply.setInput);
      var (s1, rc) := Begin(c, s, reply.setInput);
      if rc == CAP_OK {
        LaunchStarts(c, s1, reply.submit);
      }
    }
  }

  lemma FetchJoins(c: Config, s: State, env: Env)
    requires Inv(c, s) && c.Fuses() && c.switchMode.Latency? && RowsOk(c, env.land.data)
    requires s.seat.active.None? && s.seat.waiting.None?
    ensures Fetched(c, s, Fetch(c, s, env).0, Landed(NextStart(c, s), env.land.data))
  {
    CommitKeeps(c, s, env.first);
    if !s.flight.inFlight && !c.external {
      CommitStarts(c, s, env.first);
      PollJoins(c, Commit(c, s, env.first).0, env.land);
    } else {
      PollJoins(c, s, env.land);
    }
  }

  /** What the serving state has fused, in terms of the state before the tick. */
  lemma ServingJoins(c: Config, s: State, env: Env)
    requires Inv(c, s) && c.Fuses() && c.switchMode.Latency? && RowsOk(c, env.land.data)
    requires Serving(c, s, env).seat.active.Some?
    ensures Joined(c, s, Serving(c, s, env), Joins(c, s, env))
  {
    if s.seat.waiting.Some? {
      PromoteJoins(c, s);
    } else if s.seat.active.None? {
      FetchJoins(c, s, env);
    }
  }

  lemma JoinsOk(c: Config, s: State, env: Env)
    requires Supported(c) && Shape(c, s) && c.Fuses() && LandedOk(c, s.log.landed) && RowsOk(c, env.land.data)
    ensures LandedOk(c, s.log.landed + Joins(c, s, env))
  {
  }

  /** Row i of a window fused at step t from the unbounded history h, newest chunk last:
      the mean over all of h, unless that chunk's window had passed by then, and in any
      case the mean over the chunks of h not expired at t. */
  ghost predicate UnboundedMean(c: Config, h: seq<Landed>, t: nat, i: nat, row: Row)
    requires FusionOk(c) && LandedOk(c, h)
  {
    && h != [] && i < c.chunkLength
    && (t < h[|h| - 1].start + c.chunkLength ==> IsMean(c, h, i, row))
    && (forall e: nat :: SplitsAt(c, h, e, t) ==> IsMean(c, h[e..], i, row))
  }

  /** Under latency seating that does not look back, a tick that is ready hands out the
      weighted mean over the unbounded history: all chunks landed since the reset and the
      one, if any, that joins in this tick; whatever the ring evicted or pruned and
      whichever fires failed. */
  lemma ServedActionIsUnboundedMean(c: Config, s: State, env: Env, fits: bool)
    requires Supported(c) && c.Fuses() && c.switchMode.Latency? && c.switchOffset >= 0
    requires Reachable(c, s) && RowsOk(c, env.land.data)
    ensures Shape(c, s) && LandedOk(c, s.log.landed + Joins(c, s, env))
    ensures Next(c, s, env, fits).status.Ready? ==>
      MeansUnbounded(c, s, Joins(c, s, env), Next(c, s, env, fits).row)
  {
    ReachableInv(c, s);
    JoinsOk(c, s, env);
    ReadyRow(c, s, env, fits);
    if Next(c, s, env, fits).status.Ready? {
      ServingMeans(c, s, env);
    }
  }

  /** A ready tick hands out the current row of the serving state. */
  lemma ReadyRow(c: Config, s: State, env: Env, fits: bool)
    requires Inv(c, s) && RowsOk(c, env.land.data)
    ensures var t := Next(c, s, env, fits); var at := Serving(c, s, env);
      t.status.Ready? ==> at.seat.active.Some? && t.row == Some(Source(c, at)[at.seat.index])
  {
    NextWrites(c, s, env, fits);
  }

  lemma ServingMeans(c: Config, s: State, env: Env)
    requires Inv(c, s) && c.Fuses() && c.switchMode.Latency? && c.switchOffset >= 0 && RowsOk(c, env.land.data)
    requires Serving(c, s, env).seat.active.Some? && LandedOk(c, s.log.landed + Joins(c, s, env))
    ensures var at := Serving(c, s, env); MeansUnbounded(c, s, Joins(c, s, env), Some(Source(c, at)[at.seat.index]))
  {
    ServingKeeps(c, s, env);
    ServingJoins(c, s, env);
    var at := Serving(c, s, env);
    ServedMeans(c, s, at, Joins(c, s, env), Some(Source(c, at)[at.seat.index]));
  }

  /** The row handed out by a tick that began in s, in which the chunks l, at most one,
      joined what had landed before. */
  ghost predicate MeansUnbounded(c: Config, s: State, l: seq<Landed>, row: Option<Row>)
    requires FusionOk(c) && c.chunkLength > 0 && LandedOk(c, s.log.landed + l)
  {
    && row.Some? && |l| <= 1
    && if l == [] then UnboundedMean(c, s.log.landed + l, s.log.fusedAt, s.seat.index, row.value)
       else UnboundedMean(c, s.log.landed + l, s.step, LatencyIndex(c, s.step, l[0].start), row.value)
  }

  lemma ServedMeans(c: Config, s: State, at: State, l: seq<Landed>, row: Option<Row>)
    requires Inv(c, at) && c.Fuses() && c.switchMode.Latency? && c.switchOffset >= 0 && at.seat.active.Some?
    requires Joined(c, s, at, l) && |l| <= 1 && LandedOk(c, s.log.landed + l)
    requires row == Some(Source(c, at)[at.seat.index])
    ensures MeansUnbounded(c, s, l, row)
  {
    CurrentMeans(c, at);
  }

  /** What the current row of an active fused chunk means. */
  lemma CurrentMeans(c: Config, s: State)
    requires Inv(c, s) && c.Fuses() && c.switchMode.Latency? && c.switchOffset >= 0 && s.seat.active.Some?
    ensures LandedOk(c, s.log.landed)
    ensures UnboundedMean(c, s.log.landed, s.log.fusedAt, s.seat.index, Source(c, s)[s.seat.index])
  {
    var h, i := s.log.landed, s.seat.index;
    assert RowMeans(c, s.fusedRows[i], h, s.log.fusedAt, i);
    FusedRowIsMean(c, h, i);
    forall e: nat | SplitsAt(c, h, e, s.log.fusedAt) ensures IsMean(c, h[e..], i, s.fusedRows[i]) {
      FusedRowIsMean(c, h[e..], i);
    }
  }

  /** A seating that fails for want of state never disturbs a chunk being consumed: it
      rewrites the fused rows, but then nothing is active. */
  lemma FailedSeatingIsHarmless(c: Config, s: State, slot: nat)
    requires Landing(c, s, slot) && !SeatLanded(c, s, slot).1
    ensures s.seat.active.None? && SeatLanded(c, s, slot).0.seat.active.None?
  {
  }

  // ---- projection ------------------------------------------------------------

  /** Projection keeps its promise end to end. Every seating of a directly committed fire
      that was parked, or that lands no later than promised, starts at row 0, exactly at the promised step,
      and the measured state plus the mapped columns of the actions handed out since the
      fire is the projected state the model was given; unmapped dimensions did not move. */
  lemma ProjectionDelivers(c: Config, s: State, j: nat, k: nat)
    requires Supported(c) && Reachable(c, s) && (c.consume.Plain? || c.switchOffset <= 0)
    requires j < |s.log.seatings| && k < c.stateDim
    requires var r := s.log.seatings[j]; r.direct && (r.parked || r.step <= r.start)
    ensures var r := s.log.seatings[j];
      && r.step == r.start && r.index == 0 && |r.emitted| == r.start - r.fireStep
      && |r.projected| == |r.measured| == c.stateDim
      && (r.indices == [] || |r.indices| == c.stateDim) && Width(r.emitted, c.actionDim)
      && r.projected[k] == r.measured[k] +
           (var col := Column(r.indices, k); if col < c.actionDim then ColumnSum(r.emitted, c.actionDim, col) else 0.0)
  {
    ReachableInv(c, s);
    assert Kept(c, s.log.seatings[j]);
  }

  /** Switching is never early: the row about to be served is not meant for a later step. */
  lemma NeverSwitchesEarly(c: Config, s: State)
    requires Supported(c) && SeatsByClock(c) && Reachable(c, s)
    ensures s.seat.active.Some? ==> s.step >= s.ring.slots[s.seat.active.value].startStep + s.seat.index
  {
    ReachableInv(c, s);
  }

  /** Exactly when a latency seating is on time: an offset that skips ahead is early
      unless the chunk is already at its last row. */
  lemma LatencySeatingOnTime(c: Config, step: nat, start: nat)
    requires c.chunkLength > 0 && start <= step
    ensures LatencyIndex(c, step, start) <= step - start <==>
      c.switchOffset <= 0 || step - start >= c.chunkLength - 1
  {
  }

  /** A plain validated configuration of two-row chunks, to vary in the examples below. */
  function Sample(): Config {
    Config(external := false, runnerOk := true, hasOutput := true,
           chunkLength := 2, actionDim := 1, ringSlots := 2, executeHorizon := 0, pollBudget := 0, deadlineSteps := 0,
           prepare := NoPrepare, consume := Plain, switchMode := Latency, miss := ReportOnly,
           f32 := true, representation := DeltaCumulative, squaredDistance := false, experimental := false,
           stateDim := 1, weights := [], fusionMax := 0, switchOffset := 0, lookahead := 0, stateInputPort := false)
  }

  /** An offset of one row seats a fresh chunk a step ahead of the clock. */
  lemma LatencySeatingEarly() returns (c: Config)
    ensures Supported(c) && c.consume.Switch? && c.switchOffset == 1
    ensures LatencyIndex(c, 7, 7) == 1 > 7 - 7
  {
    c := Sample().(consume := Switch, switchOffset := 1);
  }

  /** A projected fire never starves consumption, whatever advance_step does and whatever is
      held: the rows left reach its start step, but for those that were consumed between its
      begin and its commit. With none, a parked chunk is promoted by the next tick or
      something is still active; in any case the gap is no longer than those rows. */
  lemma NeverStarves(c: Config, s: State)
    requires Supported(c) && c.Projects() && Reachable(c, s)
    ensures s.flight.inFlight || s.seat.waiting.Some? ==>
      s.step + Remaining(c, s.seat) + s.log.overrun >= s.flight.fireStep + s.flight.lookahead
    ensures s.seat.waiting.Some? && s.log.overrun == 0 ==> Promote(c, s).seat.active.Some?
    ensures s.seat.waiting.Some? && s.seat.active.None? ==>
      s.ring.slots[s.seat.waiting.value].startStep <= s.step + s.log.overrun
  {
    ReachableInv(c, s);
  }

  // ---- a run that does starve ------------------------------------------------

  /** A projecting mode of two-row chunks that looks two rows ahead. */
  function Looking(): Config {
    Sample().(prepare := ProjectedState, lookahead := 2)
  }

  /** Ready for a fire; of a chunk being consumed, `left` rows are left. */
  ghost predicate Idle(c: Config, s: State, left: nat) {
    && Inv(c, s) && !s.flight.inFlight && s.seat.waiting.None? && CanMap(c, s.feed)
    && Remaining(c, s.seat) == left
  }

  /** The fire in flight starts `ahead` steps from now, with `left` rows left. */
  ghost predicate Flying(c: Config, s: State, left: nat, ahead: nat) {
    && Inv(c, s) && s.flight.inFlight && CanMap(c, s.feed)
    && s.flight.fireStep + s.flight.lookahead == s.step + ahead && Remaining(c, s.seat) == left
  }

  lemma StartsIdle()
    ensures var c := Looking(); var s := SetState(c, Init(c), [0.0]).0;
      Idle(c, s, 0) && !s.flight.begun
  {
    InitInv(Looking());
    SetStateKeeps(Looking(), Init(Looking()), [0.0]);
  }

  lemma FirstFire(s: State)
    requires Idle(Looking(), s, 0) && !s.flight.begun
    ensures var r := Commit(Looking(), s, RequestReply(CAP_OK, CAP_OK)).0; Flying(Looking(), r, 0, 0)
  {
    CommitKeeps(Looking(), s, RequestReply(CAP_OK, CAP_OK));
  }

  function Arriving(): LandReply { LandReply(0, CAP_OK, [[0.0], [0.0]]) }

  lemma FirstLands(s: State)
    requires Flying(Looking(), s, 0, 0)
    ensures var r := Poll(Looking(), s, Arriving()).0; Idle(Looking(), r, 2) && !r.flight.begun
  {
    PollKeeps(Looking(), s, Arriving());
  }

  lemma SecondBegin(s: State)
    requires Idle(Looking(), s, 2) && !s.flight.begun
    ensures var r := Begin(Looking(), s, CAP_OK).0;
      Idle(Looking(), r, 2) && r.flight.begun && r.flight.projectedCount == 2 && r.log.taken == 0
  {
    BeginKeeps(Looking(), s, CAP_OK);
  }

  function Quiet(): Env { Env(RequestReply(CAP_OK, CAP_OK), Arriving(), RequestReply(CAP_OK, CAP_OK)) }

  lemma RowTaken(s: State)
    requires Idle(Looking(), s, 2) && s.flight.begun && s.flight.projectedCount == 2 && s.log.taken == 0
    ensures var r := Next(Looking(), s, Quiet(), true).state;
      Idle(Looking(), r, 1) && r.flight.begun && r.flight.projectedCount == 2 && r.log.taken == 1
  {
    NextKeeps(Looking(), s, Quiet(), true);
    TickServes(Looking(), s, Quiet(), true);
  }

  lemma SecondFire(s: State)
    requires Idle(Looking(), s, 1) && s.flight.begun && s.flight.projectedCount == 2 && s.log.taken == 1
    ensures var r := Commit(Looking(), s, RequestReply(CAP_OK, CAP_OK)).0;
      Flying(Looking(), r, 1, 2) && r.log.overrun == 1
  {
    CommitKeeps(Looking(), s, RequestReply(CAP_OK, CAP_OK));
  }

  /** A chunk parked `ahead` steps before its start, with `left` rows left. */
  ghost predicate ParkedAhead(c: Config, s: State, left: nat, ahead: nat) {
    && Inv(c, s) && s.seat.waiting.Some? && Remaining(c, s.seat) == left && s.log.overrun == 1
    && s.ring.slots[s.seat.waiting.value].startStep == s.step + ahead
  }

  lemma SecondLands(s: State)
    requires Flying(Looking(), s, 1, 2) && s.log.overrun == 1
    ensures ParkedAhead(Looking(), Poll(Looking(), s, Arriving()).0, 1, 2)
  {
    PollKeeps(Looking(), s, Arriving());
  }

  lemma LastRow(s: State)
    requires ParkedAhead(Looking(), s, 1, 2)
    ensures ParkedAhead(Looking(), Next(Looking(), s, Quiet(), true).state, 0, 1)
  {
    NextKeeps(Looking(), s, Quiet(), true);
    TickServes(Looking(), s, Quiet(), true);
  }

  /** One more call. */
  lemma Then(ops: seq<Op>, op: Op) returns (more: seq<Op>)
    requires Supported(Looking()) && OpsOk(Looking(), ops) && OpOk(Looking(), op)
    ensures OpsOk(Looking(), more) && After(Looking(), more) == Step(Looking(), After(Looking(), ops), op)
  {
    AfterOne(Looking(), ops, op);
    more := ops + [op];
  }

  lemma FireRun() returns (ops: seq<Op>)
    ensures Supported(Looking()) && OpsOk(Looking(), ops) && Flying(Looking(), After(Looking(), ops), 0, 0)
  {
    StartsIdle();
    ops := [];
    assert OpsOk(Looking(), ops) && After(Looking(), ops) == Init(Looking());
    ops := Then(ops, SetStateOp([0.0]));
    FirstFire(After(Looking(), ops));
    ops := Then(ops, CommitOp(RequestReply(CAP_OK, CAP_OK)));
  }

  lemma BeginRun() returns (ops: seq<Op>)
    ensures Supported(Looking()) && OpsOk(Looking(), ops)
    ensures var s := After(Looking(), ops);
      Idle(Looking(), s, 2) && s.flight.begun && s.flight.projectedCount == 2 && s.log.taken == 0
  {
    ops := FireRun();
    FirstLands(After(Looking(), ops));
    ops := Then(ops, PollOp(Arriving()));
    SecondBegin(After(Looking(), ops));
    ops := Then(ops, BeginOp(CAP_OK));
  }

  lemma OverrunRun() returns (ops: seq<Op>)
    ensures Supported(Looking()) && OpsOk(Looking(), ops)
    ensures var s := After(Looking(), ops); Flying(Looking(), s, 1, 2) && s.log.overrun == 1
  {
    ops := BeginRun();
    RowTaken(After(Looking(), ops));
    ops := Then(ops, NextOp(Quiet(), true));
    SecondFire(After(Looking(), ops));
    ops := Then(ops, CommitOp(RequestReply(CAP_OK, CAP_OK)));
  }

  /** The condition is needed: a row served between begin and commit and an early landing
      leave a step without an action before the parked chunk starts. */
  lemma StarvesAfterOverrun() returns (ops: seq<Op>)
    ensures Supported(Looking()) && OpsOk(Looking(), ops)
    ensures var c := Looking(); var s := After(c, ops);
      s.seat.waiting.Some? && s.log.overrun == 1 && Promote(c, s).seat.active.None?
  {
    ops := OverrunRun();
    SecondLands(After(Looking(), ops));
    ops := Then(ops, PollOp(Arriving()));
    LastRow(After(Looking(), ops));
    ops := Then(ops, NextOp(Quiet(), true));
  }

  /** The recorded number of projected rows is the number integrated, clipped to the
      chunk, exactly when the 32-bit sum does not wrap. */
  lemma ProjectionCountExact(c: Config, begin: nat)
    requires begin < c.chunkLength < UINT32 && c.lookahead < UINT32
    ensures
      ProjectionCount(c, begin) ==
        (if c.lookahead < c.chunkLength - begin then c.lookahead else c.chunkLength - begin)
      <==> begin + c.lookahead < UINT32
  {
    var sum := begin + c.lookahead;
    if sum >= UINT32 {
      assert sum % UINT32 == sum - UINT32;
      assert (ProjectionEnd(c, begin) - begin) % UINT32 == c.lookahead;
    } else {
      assert sum % UINT32 == sum;
    }
  }

  /** The largest look-ahead wraps: nothing is integrated, 2^32 - 1 rows are recorded. */
  lemma ProjectionCountWraps() returns (c: Config)
    ensures Fits(c) && Validate(c) && Normalize(c) == c && c.Projects() && c.lookahead == 0xFFFF_FFFF
    ensures ProjectionEnd(c, 1) == 0 && ProjectionCount(c, 1) == 0xFFFF_FFFF && c.chunkLength - 1 == 1
  {
    c := Sample().(prepare := ProjectedState, lookahead := 0xFFFF_FFFF);
  }

  /** A validated fusion configuration has a slot to fire into beyond the chunks it
      fuses, exactly when the 32-bit sum in the check does not wrap. */
  lemma ValidateLeavesRoom(c: Config)
    requires Fits(c) && Validate(c) && c.Fuses()
    ensures c.ringSlots > MaxChunks(c) <==> MaxChunks(c) + 1 < UINT32
  {
  }

  /** The largest fusion_max passes the check with two slots. */
  lemma ValidateWithoutRoom() returns (c: Config)
    ensures Fits(c) && Validate(c) && c.Fuses() && c.fusionMax == 0xFFFF_FFFF
    ensures c.ringSlots == 2 <= MaxChunks(c)
  {
    c := Sample().(consume := TemporalFusion, fusionMax := 0xFFFF_FFFF, weights := [1.0, 0.5]);
  }

  // ---- counters --------------------------------------------------------------

  /** Bookkeeping over every run. */
  lemma CountersBalance(c: Config, s: State)
    requires Supported(c) && Reachable(c, s)
    ensures s.step == s.stats.emitted + s.log.advances
    ensures s.stats.late <= s.stats.fallbacks && s.stats.held <= s.stats.emitted
    ensures s.log.fires == s.stats.completed + s.log.failed + s.log.dropped + (if s.flight.inFlight then 1 else 0)
  {
    ReachableInv(c, s);
  }
}
