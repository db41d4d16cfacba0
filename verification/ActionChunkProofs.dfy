/** Every verb keeps the invariant, so every run does. */
module ActionChunkProofs {
  import opened Wrappers
  import opened Fusion
  import opened ActionChunkSpec
  import opened ActionChunkInvariant

  /** Everything but the counters. */
  ghost predicate Core(c: Config, s: State) {
    && Supported(c) && Shape(c, s)
    && Stamped(c, s.ring, s.seat, s.flight, s.step)
    && OnTime(s.ring, s.seat, s.flight, s.log, s.step)
    && FusionInv(c, s)
    && NeverEarly(c, s.ring, s.seat, s.step)
    && NeverStarved(c, s.seat, s.flight, s.log, s.step)
    && PlanInv(c, s)
    && AllKept(c, s.log.seatings)
  }

  /** The chunk in `slot` has arrived and is about to be seated. */
  ghost predicate Landing(c: Config, s: State, slot: nat) {
    && Core(c, s) && c.Chunked() && Spare(c, s.ring, s.seat, slot)
    && !s.flight.inFlight && !s.flight.begun && s.flight.requestedOnce && s.seat.waiting.None?
    && s.ring.slots[slot].startStep == s.flight.fireStep + s.flight.lookahead
    && s.flight.fireStep <= s.step
    && (s.log.parked && !s.log.advanced ==> s.step <= s.ring.slots[slot].startStep)
    && StartsBy(s.log.landed, s.flight.fireStep)
    && (c.Projects() ==>
          s.step + Remaining(c, s.seat) + s.log.overrun >= s.flight.fireStep + s.flight.lookahead)
    && (c.Projects() ==> FlightOnPlan(c, s))
  }

  // ---- seating ---------------------------------------------------------------

  /** A projected chunk that is seated no later than its start step kept its promise. */
  lemma SeatingKept(c: Config, s: State, slot: nat, index: nat)
    requires Landing(c, s, slot) && c.Projects()
    requires s.step >= s.ring.slots[slot].startStep
    requires index == if c.Fuses() then LatencyIndex(c, s.step, s.ring.slots[slot].startStep)
                      else ElapsedIndex(c, s.step, s.ring.slots[slot].startStep)
    ensures AllKept(c, Recorded(s, slot, index).seatings)
  {
    var before := s.log.seatings;
    var after := Recorded(s, slot, index).seatings;
    var r := after[|before|];
    if r.direct && (r.parked || r.step <= r.start) && (c.consume.Plain? || c.switchOffset <= 0) {
      var rows := s.log.plan.rows;
      assert s.log.sinceFire == rows[..|rows|] == rows;
    }
    forall i | 0 <= i < |after| ensures Kept(c, after[i]) {
      if i < |before| {
        assert after[i] == before[i];
      }
    }
  }

  /** Retaining and fusing, on the ring's slots and the history alone. */
  lemma RetainedMeans(c: Config, slots: seq<Slot>, r: seq<nat>, h: seq<Landed>, step: nat, slot: nat)
    requires FusionOk(c) && Listed(slots, r) && History(c, Chunks(slots, r), h, step)
    requires slot < |slots| && RowsOk(c, slots[slot].rows)
    requires slots[slot].startStep <= step && StartsBy(h, slots[slot].startStep)
    ensures var r' := Unexpired(c, slots, step, r) + [slot];
      var h' := h + [Landed(slots[slot].startStep, slots[slot].rows)];
      && Listed(slots, r') && History(c, Chunks(slots, r'), h', step)
      && LandedOk(c, Chunks(slots, r')) && FusedMeans(c, FusedWindow(c, Chunks(slots, r')), h', step)
  {
    RetainKeepsHistory(c, slots, r, h, step, slot);
    WindowMeans(c, Chunks(slots, Unexpired(c, slots, step, r) + [slot]),
                h + [Landed(slots[slot].startStep, slots[slot].rows)], step);
  }

  /** Fusing the window gives rows that mean what they should. */
  lemma WindowMeans(c: Config, kept: seq<Landed>, h: seq<Landed>, step: nat)
    requires FusionOk(c) && Retained(c, kept, h, step)
    ensures LandedOk(c, kept) && kept != [] && FusedMeans(c, FusedWindow(c, kept), h, step)
  {
    forall i | 0 <= i < c.chunkLength
      ensures RowMeans(c, FusedWindow(c, kept)[i], h, step, i)
    {
      WindowIsExact(c, h, |h| - |kept|, step, i);
    }
  }

  /** What fusing leaves in the ring and the fused rows. */
  lemma RetainAndFuseMeans(c: Config, s: State, slot: nat)
    requires FusionOk(c) && Shape(c, s) && c.Fuses()
    requires History(c, Chunks(s.ring.slots, s.ring.retained), s.log.landed, s.step)
    requires slot < |s.ring.slots| && slot !in s.ring.retained
    requires s.ring.slots[slot].startStep <= s.step && StartsBy(s.log.landed, s.ring.slots[slot].startStep)
    ensures var r := RetainAndFuse(c, s, slot);
      && History(c, Chunks(r.ring.slots, r.ring.retained), r.log.landed, r.step)
      && r.step == s.step == r.log.fusedAt && r.log.landed != []
      && r.log.landed[|r.log.landed| - 1].start == s.ring.slots[slot].startStep
      && FusedMeans(c, r.fusedRows, r.log.landed, r.log.fusedAt)
  {
    RetainedMeans(c, s.ring.slots, s.ring.retained, s.log.landed, s.step, slot);
  }

  /** Seating by the clock, without looking back, stays at or past the current step. */
  lemma FreshSeat(c: Config, s: State, slot: nat)
    requires Supported(c) && Shape(c, s) && c.Fuses()
    requires !s.flight.inFlight && s.flight.requestedOnce && s.seat.waiting.None?
    requires slot < |s.ring.slots| && slot !in s.ring.retained && s.ring.slots[slot].startStep <= s.step
    ensures var r := SeatFusion(c, s, slot).0; FreshRows(c, r.seat, r.log.landed, r.log.fusedAt)
  {
    var h := RetainAndFuse(c, s, slot).log.landed;
    assert h[|h| - 1].start == s.ring.slots[slot].startStep;
  }

  /** Seating leaves what was fused alone. */
  lemma SeatingFused(c: Config, s: State, slot: nat)
    requires Supported(c) && Shape(c, s) && c.Fuses()
    requires !s.flight.inFlight && s.flight.requestedOnce && s.seat.waiting.None?
    requires slot < |s.ring.slots| && slot !in s.ring.retained
    ensures var r := SeatFusion(c, s, slot).0; var f := RetainAndFuse(c, s, slot);
      && r.ring == f.ring && r.fusedRows == f.fusedRows && r.step == f.step
      && r.log.landed == f.log.landed && r.log.fusedAt == f.log.fusedAt
      && !r.flight.inFlight && r.seat.waiting.None?
  {
  }

  lemma SeatFusionHistory(c: Config, s: State, slot: nat)
    requires Supported(c) && Shape(c, s) && c.Fuses()
    requires History(c, Chunks(s.ring.slots, s.ring.retained), s.log.landed, s.step)
    requires !s.flight.inFlight && s.flight.requestedOnce && s.seat.waiting.None?
    requires slot < |s.ring.slots| && slot !in s.ring.retained
    requires s.ring.slots[slot].startStep <= s.step && StartsBy(s.log.landed, s.ring.slots[slot].startStep)
    ensures FusionInv(c, SeatFusion(c, s, slot).0)
  {
    RetainAndFuseMeans(c, s, slot);
    FreshSeat(c, s, slot);
    SeatingFused(c, s, slot);
    FusedInv(c, SeatFusion(c, s, slot).0);
  }

  lemma FusedInv(c: Config, s: State)
    requires Supported(c) && Shape(c, s) && c.Fuses()
    requires History(c, Chunks(s.ring.slots, s.ring.retained), s.log.landed, s.step)
    requires s.log.fusedAt == s.step && s.log.landed != [] && !s.flight.inFlight && s.seat.waiting.None?
    requires FusedMeans(c, s.fusedRows, s.log.landed, s.log.fusedAt)
    requires FreshRows(c, s.seat, s.log.landed, s.log.fusedAt)
    ensures FusionInv(c, s)
  {
  }

  lemma SeatFusionTiming(c: Config, s: State, slot: nat)
    requires Landing(c, s, slot) && c.Fuses() && s.step >= s.ring.slots[slot].startStep
    ensures var r := SeatFusion(c, s, slot).0;
      && Stamped(c, r.ring, r.seat, r.flight, r.step)
      && OnTime(r.ring, r.seat, r.flight, r.log, r.step)
      && NeverEarly(c, r.ring, r.seat, r.step)
      && NeverStarved(c, r.seat, r.flight, r.log, r.step)
  {
  }

  lemma SeatFusionPlan(c: Config, s: State, slot: nat)
    requires Landing(c, s, slot) && c.Fuses() && s.step >= s.ring.slots[slot].startStep
    ensures var r := SeatFusion(c, s, slot).0;
      && PlanInv(c, r)
      && AllKept(c, r.log.seatings)
  {
    if c.Projects() {
      SeatingKept(c, s, slot, LatencyIndex(c, s.step, s.ring.slots[slot].startStep));
    }
  }

  lemma SeatFusionKeeps(c: Config, s: State, slot: nat)
    requires Landing(c, s, slot) && c.Fuses() && s.step >= s.ring.slots[slot].startStep
    ensures Core(c, SeatFusion(c, s, slot).0)
  {
    SeatFusionHistory(c, s, slot);
    SeatFusionTiming(c, s, slot);
    SeatFusionPlan(c, s, slot);
  }

  lemma SeatLandedKeeps(c: Config, s: State, slot: nat)
    requires Landing(c, s, slot)
    ensures Core(c, SeatLanded(c, s, slot).0)
  {
    var start := s.ring.slots[slot].startStep;
    if c.Projects() && s.step < start {
      assert Upcoming(c, Park(s, slot)) == Upcoming(c, s);
    } else if c.Fuses() {
      SeatFusionKeeps(c, s, slot);
    } else if c.Projects() {
      SeatingKept(c, s, slot, ElapsedIndex(c, s.step, start));
    }
  }

  // ---- request ---------------------------------------------------------------

  lemma PrepareReady(c: Config, s: State)
    requires Supported(c) && Shape(c, s) && c.Projects() && CanMap(c, s.feed)
    ensures var r := PrepareProjected(c, s); LaunchReady(c, r) && Upcoming(c, r) == Upcoming(c, s)
  {
    var r := PrepareProjected(c, s);
    assert Upcoming(c, r) == Upcoming(c, s);
    assert r.log.plan.rows == Upcoming(c, s)[..|r.log.plan.rows|];
  }

  lemma PrepareKeeps(c: Config, s: State)
    requires Inv(c, s) && c.Projects() && CanMap(c, s.feed) && !Outstanding(s) && !s.flight.begun
    ensures Inv(c, PrepareProjected(c, s)) && LaunchReady(c, PrepareProjected(c, s))
  {
    PrepareReady(c, s);
  }

  /** Copying the measurement aside changes nothing the invariant reads. */
  lemma SnapshotKeeps(c: Config, s: State)
    requires Inv(c, s)
    ensures Inv(c, Snapshot(c, s))
  {
    assert Upcoming(c, Snapshot(c, s)) == Upcoming(c, s);
  }

  lemma BegunKeeps(c: Config, s: State)
    requires Inv(c, s) && !Outstanding(s)
    requires c.Projects() ==> LaunchReady(c, s)
    ensures Inv(c, Begun(s))
  {
    assert Upcoming(c, Begun(s)) == Upcoming(c, s);
  }

  lemma PreparedKeeps(c: Config, s: State, setInput: int)
    requires Inv(c, s) && !Outstanding(s) && !s.flight.begun
    ensures Inv(c, Prepared(c, s, setInput).0)
  {
    if !c.Projects() {
      BegunKeeps(c, s);
    } else if CanMap(c, s.feed) {
      PrepareKeeps(c, s);
      BegunKeeps(c, PrepareProjected(c, s));
    }
  }

  lemma BeginKeeps(c: Config, s: State, setInput: int)
    requires Inv(c, s)
    ensures Inv(c, Begin(c, s, setInput).0)
  {
    if c.Usable() && !Outstanding(s) && !s.flight.begun {
      SnapshotKeeps(c, s);
      PreparedKeeps(c, Snapshot(c, s), setInput);
    }
  }

  /** Evicting the oldest retained chunk leaves fusionMax newer ones. */
  lemma EvictKeepsHistory(c: Config, ring: Ring, h: seq<Landed>, step: nat)
    requires RingOk(c, ring) && History(c, Chunks(ring.slots, ring.retained), h, step)
    requires |ring.retained| > c.fusionMax
    ensures History(c, Chunks(ring.slots, ring.retained[1..]), h, step)
  {
    assert Chunks(ring.slots, ring.retained[1..]) == Chunks(ring.slots, ring.retained)[1..];
  }

  lemma PickFusionKeeps(c: Config, s: State)
    requires Supported(c) && Shape(c, s) && FusionInv(c, s) && c.Chunked() && !Outstanding(s)
    ensures FusionInv(c, PickSlot(c, s))
  {
    if c.Fuses() && FirstFree(s.ring.valid) == |s.ring.valid| {
      FullRing(c, s.ring);
      EvictKeepsHistory(c, s.ring, s.log.landed, s.step);
    }
  }

  /** Choosing a slot touches nothing that is consumed, and only the retained list. */
  lemma PickKeeps(c: Config, s: State)
    requires Inv(c, s) && c.Chunked() && !Outstanding(s)
    ensures Inv(c, PickSlot(c, s))
  {
    PickFusionKeeps(c, s);
    var r := PickSlot(c, s);
    assert Upcoming(c, r) == Upcoming(c, s);
  }

  lemma StampFusionKeeps(c: Config, s: State)
    requires Supported(c) && Shape(c, s) && FusionInv(c, s) && !Outstanding(s) && !s.flight.begun
    requires c.Chunked() ==> s.seat.pending.Some? && Spare(c, s.ring, s.seat, s.seat.pending.value)
    ensures FusionInv(c, Stamp(c, s))
  {
    assert Chunks(Stamp(c, s).ring.slots, s.ring.retained) == Chunks(s.ring.slots, s.ring.retained);
  }

  lemma StampPlanKeeps(c: Config, s: State)
    requires Supported(c) && Shape(c, s) && !Outstanding(s) && !s.flight.begun
    requires c.Chunked() ==> s.seat.pending.Some? && Spare(c, s.ring, s.seat, s.seat.pending.value)
    requires c.Projects() ==> LaunchReady(c, s)
    ensures PlanInv(c, Stamp(c, s))
    ensures NeverStarved(c, s.seat, Stamp(c, s).flight, Stamp(c, s).log, s.step)
  {
    assert Upcoming(c, Stamp(c, s)) == Upcoming(c, s);
  }

  lemma StampKeeps(c: Config, s: State)
    requires Inv(c, s) && !Outstanding(s) && !s.flight.begun
    requires c.Chunked() ==> s.seat.pending.Some? && Spare(c, s.ring, s.seat, s.seat.pending.value)
    requires c.Projects() ==> LaunchReady(c, s)
    ensures Inv(c, Stamp(c, s))
  {
    StampFusionKeeps(c, s);
    StampPlanKeeps(c, s);
  }

  /** What a commit knows about the projection of the begun request. */
  ghost predicate LaunchReady(c: Config, s: State)
    requires Shape(c, s)
  {
    && Projected(c, s.feed, s.log.plan)
    && s.log.plan.step <= s.step
    && s.flight.projectedCount == |s.log.plan.rows|
    && s.flight.projectedCount <= Remaining(c, s.seat) + s.log.taken
    && (s.log.plan.step == s.step ==> OnPlan(s.log.plan.rows, [], Upcoming(c, s)))
  }

  lemma PickReady(c: Config, s: State)
    requires Inv(c, s) && !Outstanding(s) && c.Chunked() && c.Projects() && LaunchReady(c, s)
    ensures LaunchReady(c, PickSlot(c, s))
  {
    assert Upcoming(c, PickSlot(c, s)) == Upcoming(c, s);
  }

  lemma LaunchKeeps(c: Config, s: State, submit: int)
    requires Inv(c, s) && s.flight.begun
    ensures Inv(c, Launch(c, s, submit).0)
  {
    UnbegunKeeps(c, s);
    var s1 := s.(flight := s.flight.(begun := false));
    var s2 := s1;
    if c.Chunked() {
      PickKeeps(c, s1);
      s2 := PickSlot(c, s1);
      if c.Projects() {
        PickReady(c, s1);
      }
    }
    if submit == CAP_OK {
      StampKeeps(c, s2);
    } else {
      ForgetPending(c, s2);
    }
  }

  lemma ForgetPending(c: Config, s: State)
    requires Inv(c, s) && !s.flight.inFlight
    ensures Inv(c, s.(seat := s.seat.(pending := None)))
  {
    assert Upcoming(c, s.(seat := s.seat.(pending := None))) == Upcoming(c, s);
  }

  lemma UnbegunKeeps(c: Config, s: State)
    requires Inv(c, s) && s.flight.begun
    ensures var r := s.(flight := s.flight.(begun := false));
      Inv(c, r) && (c.Projects() ==> LaunchReady(c, r))
  {
    assert Upcoming(c, s.(flight := s.flight.(begun := false))) == Upcoming(c, s);
  }

  lemma CommitKeeps(c: Config, s: State, reply: RequestReply)
    requires Inv(c, s)
    ensures Inv(c, Commit(c, s, reply).0)
  {
    var (s1, rc) := if s.flight.begun then (s, CAP_OK) else Begin(c, s, reply.setInput);
    BeginKeeps(c, s, reply.setInput);
    if rc == CAP_OK {
      LaunchKeeps(c, s1, reply.submit);
    }
  }

  // ---- completion ------------------------------------------------------------

  lemma ArrivedHistory(c: Config, s: State, rows: Chunk)
    requires Supported(c) && Shape(c, s) && FusionInv(c, s)
    requires s.flight.inFlight && c.Chunked() && RowsOk(c, rows)
    ensures FusionInv(c, Arrived(c, s, rows))
  {
    assert Chunks(Arrived(c, s, rows).ring.slots, s.ring.retained) == Chunks(s.ring.slots, s.ring.retained);
  }

  /** A fire that has been counted as late, if it is, but is still in flight. */
  ghost predicate Answered(c: Config, s: State) {
    && Core(c, s) && s.flight.inFlight
    && s.step == s.stats.emitted + s.log.advances
    && s.stats.held <= s.stats.emitted
    && s.stats.late <= s.stats.fallbacks
    && s.log.fires == s.stats.completed + s.log.failed + s.log.dropped + 1
  }

  lemma ArrivedLanding(c: Config, s: State, rows: Chunk)
    requires Core(c, s) && s.flight.inFlight && c.Chunked() && RowsOk(c, rows)
    ensures Landing(c, Arrived(c, s, rows), s.seat.pending.value)
  {
    ArrivedHistory(c, s, rows);
    assert Upcoming(c, Arrived(c, s, rows)) == Upcoming(c, s);
  }

  /** Seating changes no counter but the one of pruned chunks. */
  ghost predicate SameCounts(s: State, r: State) {
    && r.flight == s.flight && r.step == s.step && r.held == s.held
    && r.stats == s.stats.(pruned := r.stats.pruned)
    && r.log.fires == s.log.fires && r.log.failed == s.log.failed
    && r.log.dropped == s.log.dropped && r.log.advances == s.log.advances
  }

  lemma SeatLandedCounts(c: Config, s: State, slot: nat)
    requires Landing(c, s, slot)
    ensures SameCounts(s, SeatLanded(c, s, slot).0)
  {
    if c.Fuses() && s.ring.slots[slot].startStep <= s.step {
      SeatFusionCounts(c, s, slot);
    }
  }

  lemma SeatFusionCounts(c: Config, s: State, slot: nat)
    requires Supported(c) && Shape(c, s) && c.Fuses()
    requires !s.flight.inFlight && s.flight.requestedOnce && s.seat.waiting.None?
    requires slot < |s.ring.slots| && slot !in s.ring.retained
    ensures SameCounts(s, SeatFusion(c, s, slot).0)
  {
  }

  lemma StoreHistory(c: Config, s: State, rows: Chunk)
    requires Supported(c) && Shape(c, s) && FusionInv(c, s)
    requires s.flight.inFlight && c.Chunked() && RowsOk(c, rows)
    ensures FusionInv(c, s.(ring := Store(c, s.ring, s.seat.pending.value, rows)))
  {
    var r := s.(ring := Store(c, s.ring, s.seat.pending.value, rows));
    assert Chunks(r.ring.slots, s.ring.retained) == Chunks(s.ring.slots, s.ring.retained);
  }

  lemma StorePlan(c: Config, s: State, rows: Chunk)
    requires Supported(c)
    requires Shape(c, s) && PlanInv(c, s) && s.flight.inFlight && c.Chunked() && RowsOk(c, rows)
    ensures PlanInv(c, s.(ring := Store(c, s.ring, s.seat.pending.value, rows)))
  {
    assert Upcoming(c, s.(ring := Store(c, s.ring, s.seat.pending.value, rows))) == Upcoming(c, s);
  }

  lemma StoreKeeps(c: Config, s: State, rows: Chunk)
    requires Answered(c, s) && c.Chunked() && RowsOk(c, rows)
    ensures Answered(c, s.(ring := Store(c, s.ring, s.seat.pending.value, rows)))
  {
    StoreHistory(c, s, rows);
    StorePlan(c, s, rows);
  }

  lemma AbortKeeps(c: Config, s: State)
    requires Answered(c, s)
    ensures Inv(c, Abort(s))
  {
    assert Upcoming(c, Abort(s)) == Upcoming(c, s);
  }

  lemma ReadFailedKeeps(c: Config, s: State, rows: Chunk)
    requires Answered(c, s) && c.Chunked() && RowsOk(c, rows)
    ensures Inv(c, ReadFailed(c, s, rows))
  {
    StoreKeeps(c, s, rows);
    var s1 := s.(ring := Store(c, s.ring, s.seat.pending.value, rows));
    AbortKeeps(c, s1);
    ForgetPending(c, Abort(s1));
  }

  lemma TakeInKeeps(c: Config, s: State, rows: Chunk)
    requires Answered(c, s) && c.Chunked() && RowsOk(c, rows)
    ensures Inv(c, TakeIn(c, s, rows).0)
  {
    var p := s.seat.pending.value;
    var s1 := Arrived(c, s, rows);
    ArrivedLanding(c, s, rows);
    SeatLandedKeeps(c, s1, p);
    SeatLandedCounts(c, s1, p);
    var s2 := SeatLanded(c, s1, p).0;
    CompletedKeeps(c, s, s2);
    SeatFailedKeeps(c, s, s2);
  }

  lemma LandKeeps(c: Config, s: State, land: LandReply)
    requires Answered(c, s) && c.Chunked() && RowsOk(c, land.data)
    ensures Inv(c, Land(c, s, land).0)
  {
    if land.read != CAP_OK {
      ReadFailedKeeps(c, s, land.data);
    } else {
      TakeInKeeps(c, s, land.data);
    }
  }

  /** After a seating the fire counts as completed or as failed. */
  ghost predicate Seated(s: State, s1: State) {
    && s1.flight == s.flight.(inFlight := false) && s1.step == s.step
    && s1.stats.(pruned := 0, switches := 0) == s.stats.(pruned := 0, switches := 0)
    && s1.log.fires == s.log.fires && s1.log.failed == s.log.failed
    && s1.log.dropped == s.log.dropped && s1.log.advances == s.log.advances
  }

  lemma CompletedKeeps(c: Config, s: State, s1: State)
    requires Answered(c, s) && Core(c, s1) && Seated(s, s1)
    ensures Inv(c, Completed(s1))
  {
    assert Upcoming(c, Completed(s1)) == Upcoming(c, s1);
  }

  lemma SeatFailedKeeps(c: Config, s: State, s1: State)
    requires Answered(c, s) && Core(c, s1) && Seated(s, s1)
    ensures Inv(c, Abort(s1))
  {
    assert Upcoming(c, Abort(s1)) == Upcoming(c, s1);
  }

  lemma LateKeeps(c: Config, s: State)
    requires Inv(c, s) && s.flight.inFlight
    ensures Answered(c, CountLate(s))
  {
    assert Upcoming(c, CountLate(s)) == Upcoming(c, s);
  }

  /** Counting polls and reporting an overrun touch nothing but the counters. */
  lemma OverrunKeeps(c: Config, s: State, r: State)
    requires Inv(c, s) && Counted(r.flight, r.step, r.stats, r.log)
    requires r == s.(flight := s.flight.(ticks := r.flight.ticks, reported := r.flight.reported), stats := r.stats)
    ensures Inv(c, r)
  {
    assert Upcoming(c, r) == Upcoming(c, s);
  }

  lemma WaitedCounts(c: Config, s: State)
    requires Counted(s.flight, s.step, s.stats, s.log) && s.flight.inFlight
    ensures var r := Waited(c, s).0;
      && Counted(r.flight, r.step, r.stats, r.log)
      && r == s.(flight := s.flight.(ticks := r.flight.ticks, reported := r.flight.reported), stats := r.stats)
  {
  }

  lemma WaitedKeeps(c: Config, s: State)
    requires Inv(c, s) && s.flight.inFlight
    ensures Inv(c, Waited(c, s).0)
  {
    WaitedCounts(c, s);
    OverrunKeeps(c, s, Waited(c, s).0);
  }

  /** Giving up the fire in flight. */
  lemma GiveUpKeeps(c: Config, s: State)
    requires Inv(c, s) && s.flight.inFlight
    ensures Inv(c, Abort(s))
  {
    AbortKeeps(c, s);
  }

  lemma UnreadKeeps(c: Config, s: State)
    requires Answered(c, s)
    ensures Inv(c, Completed(s))
  {
    assert Upcoming(c, Completed(s)) == Upcoming(c, s);
  }

  lemma PollKeeps(c: Config, s: State, land: LandReply)
    requires Inv(c, s) && RowsOk(c, land.data)
    ensures Inv(c, Poll(c, s, land).0)
  {
    if c.Usable() && s.flight.inFlight {
      if land.query > 0 {
        WaitedKeeps(c, s);
      } else if land.query < 0 {
        GiveUpKeeps(c, s);
      } else {
        LateKeeps(c, s);
        if c.Chunked() {
          LandKeeps(c, CountLate(s), land);
        } else {
          UnreadKeeps(c, CountLate(s));
        }
      }
    }
  }

  // ---- consumption -----------------------------------------------------------

  /** A parked chunk whose start step has come is about to be seated. */
  lemma DueLanding(c: Config, s: State)
    requires Inv(c, s) && s.seat.waiting.Some? && s.step >= s.ring.slots[s.seat.waiting.value].startStep
    ensures Landing(c, s.(seat := s.seat.(waiting := None)), s.seat.waiting.value)
  {
    assert Upcoming(c, s.(seat := s.seat.(waiting := None))) == Upcoming(c, s);
  }

  lemma SameCountsKeep(c: Config, s: State, r: State)
    requires Core(c, r) && SameCounts(s, r) && Counted(s.flight, s.step, s.stats, s.log)
    ensures Inv(c, r)
  {
  }

  /** A due chunk is promoted by seating it like one that has just landed. */
  lemma DueSeated(c: Config, s: State)
    requires Supported(c) && Shape(c, s)
    requires s.seat.waiting.Some? && s.step >= s.ring.slots[s.seat.waiting.value].startStep
    ensures Promote(c, s) == SeatLanded(c, s.(seat := s.seat.(waiting := None)), s.seat.waiting.value).0
    ensures Promote(c, s).seat.waiting.None?
  {
  }

  lemma PromoteKeeps(c: Config, s: State)
    requires Inv(c, s)
    ensures Inv(c, Promote(c, s)) && SameCounts(s, Promote(c, s)) && Ahead(Promote(c, s))
  {
    if s.seat.waiting.Some? && s.step >= s.ring.slots[s.seat.waiting.value].startStep {
      var s1, w := s.(seat := s.seat.(waiting := None)), s.seat.waiting.value;
      DueLanding(c, s);
      SeatLandedKeeps(c, s1, w);
      SeatLandedCounts(c, s1, w);
      DueSeated(c, s);
      SameCountsKeep(c, s, Promote(c, s));
    }
  }

  /** A parked chunk, if any, is still ahead of the clock. */
  ghost predicate Ahead(s: State)
    requires InRange(s.seat.waiting, |s.ring.slots|)
  {
    s.seat.waiting.Some? ==> s.step < s.ring.slots[s.seat.waiting.value].startStep
  }

  lemma OnPlanStep(rows: seq<Row>, emitted: seq<Row>, upcoming: seq<Row>)
    requires OnPlan(rows, emitted, upcoming) && upcoming != []
    ensures OnPlan(rows, emitted + [upcoming[0]], upcoming[1..])
  {
    if |emitted| < |rows| {
      assert upcoming[..|rows| - |emitted|][0] == rows[|emitted|..][0];
      assert upcoming[1..][..|rows| - |emitted| - 1] == upcoming[..|rows| - |emitted|][1..];
    }
  }

  /** Handing out the next row follows the plan. */
  lemma EmitActivePlan(c: Config, s: State)
    requires Supported(c) && Shape(c, s) && PlanInv(c, s) && s.seat.active.Some?
    ensures PlanInv(c, EmitActive(c, s))
  {
    var r := EmitActive(c, s);
    assert Upcoming(c, s)[1..] == Upcoming(c, r);
    assert Upcoming(c, s)[0] == Source(c, s)[s.seat.index];
    if c.Projects() && Outstanding(s) && s.log.direct && !s.log.advanced {
      OnPlanStep(s.log.plan.rows, s.log.sinceFire, Upcoming(c, s));
    }
  }

  lemma EmitActiveKeeps(c: Config, s: State)
    requires Inv(c, s) && s.seat.active.Some? && Ahead(s)
    ensures Inv(c, EmitActive(c, s))
  {
    EmitActivePlan(c, s);
  }

  /** A held action is only repeated when nothing is active. */
  lemma EmitHeldKeeps(c: Config, s: State)
    requires Inv(c, s) && s.held.Some? && s.seat.active.None? && Ahead(s)
    ensures Inv(c, EmitHeld(s))
  {
    assert Upcoming(c, EmitHeld(s)) == Upcoming(c, s) == [];
  }

  lemma MissedKeeps(c: Config, s: State, status: Status, fits: bool)
    requires Inv(c, s) && s.seat.active.None? && Ahead(s)
    ensures Inv(c, Missed(s, status, fits).state)
  {
    if s.held.Some? && fits {
      EmitHeldKeeps(c, s);
    }
  }

  lemma ServeKeeps(c: Config, s: State, env: Env, fits: bool)
    requires Inv(c, s) && s.seat.active.Some? && Ahead(s)
    ensures Inv(c, Serve(c, s, env, fits).state)
  {
    EmitActiveKeeps(c, s);
    CommitKeeps(c, EmitActive(c, s), env.prefetch);
  }

  lemma FetchKeeps(c: Config, s: State, env: Env)
    requires Inv(c, s) && c.Chunked() && RowsOk(c, env.land.data)
    ensures Inv(c, Fetch(c, s, env).0)
  {
    CommitKeeps(c, s, env.first);
    var s1 := if !s.flight.inFlight && !c.external then Commit(c, s, env.first).0 else s;
    PollKeeps(c, s1, env.land);
  }

  lemma GapKeeps(c: Config, s: State, fits: bool)
    requires Inv(c, s) && s.seat.active.None? && Ahead(s)
    ensures Inv(c, Gap(c, s, fits).state)
  {
    MissedKeeps(c, s, Fallback, fits);
    PromoteKeeps(c, Missed(s, Fallback, fits).state);
  }

  lemma ServingKeeps(c: Config, s: State, env: Env)
    requires Inv(c, s) && RowsOk(c, env.land.data)
    ensures Inv(c, Serving(c, s, env)) && Ahead(Serving(c, s, env))
  {
    PromoteKeeps(c, s);
    var s1 := Promote(c, s);
    if c.Chunked() && s1.seat.active.None? && s1.seat.waiting.None? {
      FetchKeeps(c, s1, env);
      PromoteKeeps(c, Fetch(c, s1, env).0);
    }
  }

  /** With an active chunk to serve from, the tick serves it. */
  lemma TickServes(c: Config, s: State, env: Env, fits: bool)
    requires Supported(c) && Shape(c, s) && RowsOk(c, env.land.data) && c.Chunked()
    requires Serving(c, s, env).seat.active.Some?
    ensures Next(c, s, env, fits) == Serve(c, Serving(c, s, env), env, fits)
  {
    var s1 := Promote(c, s);
    if s1.seat.active.None? {
      var (s2, status) := Fetch(c, s1, env);
      assert status == Some(Ready);
      assert Next(c, s, env, fits) == Next(c, s2, env, fits);
    }
  }

  /** The tick that finds nothing to serve: a parked chunk is not due, or nothing came. */
  ghost function Unserved(c: Config, s: State, env: Env, fits: bool): Tick
    requires Supported(c) && Shape(c, s) && RowsOk(c, env.land.data) && c.Chunked()
  {
    var at := Serving(c, s, env);
    if at.seat.waiting.Some? then Gap(c, at, fits)
    else
      var (s1, status) := Fetch(c, Promote(c, s), env);
      if status.None? then Tick(s1, Failed, None) else Missed(s1, status.value, fits)
  }

  lemma TickMisses(c: Config, s: State, env: Env, fits: bool)
    requires Supported(c) && Shape(c, s) && RowsOk(c, env.land.data) && c.Chunked()
    requires Serving(c, s, env).seat.active.None?
    ensures Next(c, s, env, fits) == Unserved(c, s, env, fits)
  {
    var s1 := Promote(c, s);
    if s1.seat.waiting.None? {
      var (s2, status) := Fetch(c, s1, env);
      if status == Some(Ready) {
        assert Next(c, s, env, fits) == Next(c, s2, env, fits);
      }
    }
  }

  lemma UnservedKeeps(c: Config, s: State, env: Env, fits: bool)
    requires Inv(c, s) && RowsOk(c, env.land.data) && c.Chunked() && Serving(c, s, env).seat.active.None?
    ensures Inv(c, Unserved(c, s, env, fits).state)
  {
    var at := Serving(c, s, env);
    if at.seat.waiting.Some? {
      ServingKeeps(c, s, env);
      GapKeeps(c, at, fits);
    } else {
      PromoteKeeps(c, s);
      FetchMisses(c, Promote(c, s), env, fits);
    }
  }

  /** A fetch that leaves nothing to consume or to wait for. */
  lemma FetchMisses(c: Config, s: State, env: Env, fits: bool)
    requires Inv(c, s) && RowsOk(c, env.land.data) && c.Chunked()
    requires var r := Fetch(c, s, env).0; r.seat.active.None? && r.seat.waiting.None?
    ensures var (r, status) := Fetch(c, s, env);
      Inv(c, r) && (status.Some? ==> Inv(c, Missed(r, status.value, fits).state))
  {
    FetchKeeps(c, s, env);
    var (r, status) := Fetch(c, s, env);
    if status.Some? {
      MissedKeeps(c, r, status.value, fits);
    }
  }

  lemma NextKeeps(c: Config, s: State, env: Env, fits: bool)
    requires Inv(c, s) && RowsOk(c, env.land.data)
    ensures Inv(c, Next(c, s, env, fits).state)
  {
    if c.Chunked() {
      if Serving(c, s, env).seat.active.Some? {
        TickServes(c, s, env, fits);
        ServingKeeps(c, s, env);
        ServeKeeps(c, Serving(c, s, env), env, fits);
      } else {
        TickMisses(c, s, env, fits);
        UnservedKeeps(c, s, env, fits);
      }
    }
  }

  // ---- the other verbs and whole runs ----------------------------------------

  lemma AdvanceKeeps(c: Config, s: State)
    requires Inv(c, s)
    ensures Inv(c, Advance(s))
  {
    assert Upcoming(c, Advance(s)) == Upcoming(c, s);
  }

  lemma SyncedKeeps(c: Config, s: State, sync: int, land: LandReply)
    requires Inv(c, s) && s.flight.inFlight && RowsOk(c, land.data)
    ensures Inv(c, Synced(c, s, sync, land).0)
  {
    if sync != CAP_OK {
      GiveUpKeeps(c, s);
    } else {
      PollKeeps(c, s, land);
    }
  }

  lemma SyncKeeps(c: Config, s: State, reply: RequestReply, sync: int, land: LandReply)
    requires Inv(c, s) && RowsOk(c, land.data)
    ensures Inv(c, Sync(c, s, reply, sync, land).0)
  {
    CommitKeeps(c, s, reply);
    var (s1, rc) := if s.flight.inFlight then (s, CAP_OK) else Commit(c, s, reply);
    if rc == CAP_OK {
      SyncedKeeps(c, s1, sync, land);
    }
  }

  lemma SetStateKeeps(c: Config, s: State, x: seq<real>)
    requires Inv(c, s)
    ensures Inv(c, SetState(c, s, x).0)
  {
    assert Upcoming(c, SetState(c, s, x).0) == Upcoming(c, s);
  }

  lemma SetIndicesKeeps(c: Config, s: State, indices: seq<nat>)
    requires Inv(c, s)
    ensures Inv(c, SetIndices(c, s, indices).0)
  {
    assert Upcoming(c, SetIndices(c, s, indices).0) == Upcoming(c, s);
  }

  lemma ResetKeeps(c: Config, s: State)
    requires Inv(c, s)
    ensures Inv(c, Reset(c, s))
  {
    assert Chunks(s.ring.slots, []) == [];
  }

  lemma StepKeeps(c: Config, s: State, op: Op)
    requires Inv(c, s) && OpOk(c, op)
    ensures Inv(c, Step(c, s, op))
  {
    match op
    case BeginOp(setInput) => BeginKeeps(c, s, setInput);
    case CommitOp(reply) => CommitKeeps(c, s, reply);
    case PollOp(land) => PollKeeps(c, s, land);
    case NextOp(env, fits) => NextKeeps(c, s, env, fits);
    case AdvanceOp => AdvanceKeeps(c, s);
    case SyncOp(reply, sync, land) => SyncKeeps(c, s, reply, sync, land);
    case SetStateOp(x) => SetStateKeeps(c, s, x);
    case SetIndicesOp(x) => SetIndicesKeeps(c, s, x);
    case ResetOp => ResetKeeps(c, s);
  }

  lemma InitInv(c: Config)
    requires Supported(c)
    ensures Inv(c, Init(c))
  {
    assert Chunks(Init(c).ring.slots, []) == [];
  }

  lemma {:induction false} RunInv(c: Config, ops: seq<Op>)
    requires Supported(c) && OpsOk(c, ops)
    ensures Inv(c, After(c, ops))
    decreases |ops|
  {
    if ops == [] {
      InitInv(c);
    } else {
      var front := ops[..|ops| - 1];
      RunInv(c, front);
      StepKeeps(c, After(c, front), ops[|ops| - 1]);
      assert After(c, ops) == AfterLast(c, ops);
    }
  }

  lemma ReachableInv(c: Config, s: State)
    requires Supported(c) && Reachable(c, s)
    ensures Inv(c, s)
  {
    var ops: seq<Op> :| OpsOk(c, ops) && After(c, ops) == s;
    RunInv(c, ops);
  }

  lemma InitReachable(c: Config)
    requires Supported(c)
    ensures Reachable(c, Init(c))
  {
    assert OpsOk(c, []) && After(c, []) == Init(c);
  }

  /** What a verb leaves behind is reachable again. */
  lemma ReachableSteps(c: Config, s: State, op: Op)
    requires Supported(c) && Reachable(c, s) && OpOk(c, op)
    ensures Shape(c, s) && Reachable(c, Step(c, s, op))
  {
    var ops: seq<Op> :| OpsOk(c, ops) && After(c, ops) == s;
    AfterOne(c, ops, op);
  }

  lemma AfterOne(c: Config, ops: seq<Op>, op: Op)
    requires Supported(c) && OpsOk(c, ops) && OpOk(c, op)
    ensures OpsOk(c, ops + [op]) && After(c, ops + [op]) == Step(c, After(c, ops), op)
  {
    assert (ops + [op])[..|ops|] == ops;
    assert After(c, ops + [op]) == AfterLast(c, ops + [op]);
  }
}
