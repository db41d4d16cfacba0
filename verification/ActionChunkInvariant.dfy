/** What every reachable state of the action-chunk mode keeps, one predicate per claim.
    Each predicate reads as little of the state as it can. */
module ActionChunkInvariant {
  import opened Wrappers
  import opened Fusion
  import opened ActionChunkSpec

  /** A chunk in flight or parked. */
  predicate Outstanding(s: State) { s.flight.inFlight || s.seat.waiting.Some? }

  /** The fire in flight was stamped at `fireStep`; a parked chunk starts `lookahead` later. */
  ghost predicate Stamped(c: Config, ring: Ring, seat: Seat, flight: Flight, step: nat)
    requires RingOk(c, ring) && SeatOk(c, seat)
  {
    && (flight.inFlight && c.Chunked() && seat.pending.Some? ==>
          ring.slots[seat.pending.value].fireStep == flight.fireStep)
    && (seat.waiting.Some? ==> ring.slots[seat.waiting.value].startStep == flight.fireStep + flight.lookahead)
    && (flight.inFlight || seat.waiting.Some? ==> flight.fireStep <= step)
    && (!c.Projects() ==> flight.lookahead == 0)
  }

  /** Unless advance_step moves the clock, a parked chunk never outlives its start step. */
  ghost predicate OnTime(ring: Ring, seat: Seat, flight: Flight, log: Log, step: nat)
    requires InRange(seat.waiting, |ring.slots|)
  {
    && (flight.inFlight ==> !log.parked)
    && (seat.waiting.Some? && !log.advanced ==> step <= ring.slots[seat.waiting.value].startStep)
  }

  // ---- fusion ----------------------------------------------------------------

  /** The retained chunks `kept` are the newest ones of everything that landed, and the
      youngest chunk that is gone has expired or has fusionMax retained successors. */
  ghost predicate History(c: Config, kept: seq<Landed>, landed: seq<Landed>, step: nat) {
    var n := |landed| - |kept|;
    && LandedOk(c, landed) && Monotone(landed) && StartsBy(landed, step)
    && n >= 0 && kept == landed[n..]
    && (n > 0 ==> landed[n - 1].start + c.chunkLength <= step || |kept| >= c.fusionMax)
  }

  /** No chunk that landed starts after `start`. */
  ghost predicate StartsBy(landed: seq<Landed>, start: nat) {
    forall i :: 0 <= i < |landed| ==> landed[i].start <= start
  }

  /** At step t the chunks of `h` before e have expired, those from e on have not; the
      newest chunk is always counted in. */
  ghost predicate SplitsAt(c: Config, h: seq<Landed>, e: nat, t: nat) {
    && e < |h|
    && (forall j :: 0 <= j < e ==> h[j].start + c.chunkLength <= t)
    && (forall j :: e <= j < |h| - 1 ==> h[j].start + c.chunkLength > t)
  }

  /** An ordered history splits somewhere. */
  lemma {:induction false} SplitExists(c: Config, h: seq<Landed>, t: nat, e: nat) returns (e': nat)
    requires Monotone(h) && e < |h|
    requires forall j :: 0 <= j < e ==> h[j].start + c.chunkLength <= t
    ensures SplitsAt(c, h, e', t)
    decreases |h| - e
  {
    if e < |h| - 1 && h[e].start + c.chunkLength <= t {
      e' := SplitExists(c, h, t, e + 1);
    } else {
      e' := e;
    }
  }

  /** What the fused rows mean, given all chunks `landed` so far and the step t of the
      latest fusion. A row for a step that had not passed is the weighted mean over the
      newest covering chunks of the whole unbounded history; any row is that mean over
      the chunks that had not expired. */
  ghost predicate FusedMeans(c: Config, fused: Chunk, landed: seq<Landed>, t: nat)
    requires FusionOk(c) && RowsOk(c, fused) && LandedOk(c, landed) && landed != []
  {
    forall i :: 0 <= i < c.chunkLength ==> RowMeans(c, fused[i], landed, t, i)
  }

  ghost predicate RowMeans(c: Config, row: Row, landed: seq<Landed>, t: nat, i: nat)
    requires FusionOk(c) && LandedOk(c, landed) && landed != [] && i < c.chunkLength
  {
    && (landed[|landed| - 1].start + i >= t ==> row == FusedRow(c, landed, i))
    && (forall e: nat :: SplitsAt(c, landed, e, t) ==> row == FusedRow(c, landed[e..], i))
  }

  /** The consumed position of a chunk that was fused inside its own window lies at or
      past the step of the fusion. */
  ghost predicate FreshRows(c: Config, seat: Seat, landed: seq<Landed>, t: nat) {
    seat.active.Some? && landed != [] && c.switchMode.Latency? && c.switchOffset >= 0 ==>
      var start := landed[|landed| - 1].start;
      t < start + c.chunkLength ==> start + seat.index >= t
  }

  ghost predicate FusionInv(c: Config, s: State)
    requires Supported(c) && Shape(c, s)
  {
    var h := s.log.landed;
    if !c.Fuses() then h == []
    else
      && History(c, Chunks(s.ring.slots, s.ring.retained), h, s.step)
      && s.log.fusedAt <= s.step
      && (s.flight.inFlight ==> StartsBy(h, s.flight.fireStep))
      && (s.seat.waiting.Some? ==> StartsBy(h, s.flight.fireStep))
      && (h != [] ==> FusedMeans(c, s.fusedRows, h, s.log.fusedAt))
      && FreshRows(c, s.seat, h, s.log.fusedAt)
  }

  // ---- timing ----------------------------------------------------------------

  /** Seating never runs ahead of the clock: the policies that look at the clock, with
      an offset that does not skip ahead. */
  predicate SeatsByClock(c: Config) {
    c.consume.Plain? || (c.switchMode.Latency? && c.switchOffset <= 0)
  }

  /** The consumed row is not meant for a later step than the current one. */
  ghost predicate NeverEarly(c: Config, ring: Ring, seat: Seat, step: nat)
    requires RingOk(c, ring) && SeatOk(c, seat)
  {
    SeatsByClock(c) && seat.active.Some? ==>
      step >= ring.slots[seat.active.value].startStep + seat.index
  }

  /** Enough rows are left to reach the start step of the projected chunk, but for the rows
      that were consumed between the projection and the fire. */
  ghost predicate NeverStarved(c: Config, seat: Seat, flight: Flight, log: Log, step: nat) {
    c.Projects() ==>
      && (flight.begun ==> flight.projectedCount <= Remaining(c, seat) + log.taken)
      && (flight.inFlight || seat.waiting.Some? ==>
            step + Remaining(c, seat) + log.overrun >= flight.fireStep + flight.lookahead)
  }

  // ---- projection ------------------------------------------------------------

  /** The projection handed to the model is the measured state plus the planned rows. */
  ghost predicate Projected(c: Config, feed: Feed, plan: Plan) {
    && |plan.measured| == c.stateDim && Width(plan.rows, c.actionDim)
    && Mapped(plan.indices, c.stateDim, c.actionDim)
    && feed.projected == Integrate(plan.indices, c.actionDim, plan.measured, plan.rows)
  }

  /** After the actions `emitted`, execution is where the plan `rows` says, and the rows
      still to come are the rest of the plan. */
  ghost predicate OnPlan(rows: seq<Row>, emitted: seq<Row>, upcoming: seq<Row>) {
    |emitted| <= |rows| ==>
      && emitted == rows[..|emitted|]
      && |rows| - |emitted| <= |upcoming|
      && upcoming[..|rows| - |emitted|] == rows[|emitted|..]
  }

  /** What holds of an outstanding projected fire. */
  ghost predicate FlightOnPlan(c: Config, s: State)
    requires Shape(c, s)
  {
    && Projected(c, s.feed, s.log.plan)
    && (s.log.direct ==> s.flight.lookahead == |s.log.plan.rows|)
    && (s.log.direct && !s.log.advanced ==>
          |s.log.sinceFire| == s.step - s.flight.fireStep && OnPlan(s.log.plan.rows, s.log.sinceFire, Upcoming(c, s)))
  }

  ghost predicate PlanInv(c: Config, s: State)
    requires Shape(c, s)
  {
    c.Projects() ==>
      && (s.flight.begun ==>
            && Projected(c, s.feed, s.log.plan)
            && s.log.plan.step <= s.step
            && s.flight.projectedCount == |s.log.plan.rows|
            && (s.log.plan.step == s.step ==> OnPlan(s.log.plan.rows, [], Upcoming(c, s))))
      && (Outstanding(s) ==> FlightOnPlan(c, s))
  }

  /** A chunk that was parked, or seated no later than promised, begins at row 0, exactly at
      its start step, and the actions executed since its fire took the measured state to the projection
      that the model was given. */
  ghost predicate Kept(c: Config, r: Seating) {
    r.direct && (r.parked || r.step <= r.start) && (c.consume.Plain? || c.switchOffset <= 0) ==>
      && r.index == 0 && r.step == r.start && |r.emitted| == r.start - r.fireStep
      && |r.measured| == c.stateDim && Mapped(r.indices, c.stateDim, c.actionDim)
      && Width(r.emitted, c.actionDim)
      && r.projected == Integrate(r.indices, c.actionDim, r.measured, r.emitted)
  }

  ghost predicate AllKept(c: Config, seatings: seq<Seating>) {
    forall i :: 0 <= i < |seatings| ==> Kept(c, seatings[i])
  }

  // ---- counters --------------------------------------------------------------

  predicate Counted(flight: Flight, step: nat, stats: Stats, log: Log) {
    && step == stats.emitted + log.advances
    && stats.held <= stats.emitted
    && stats.late + (if flight.inFlight && flight.reported then 1 else 0) <= stats.fallbacks
    && log.fires == stats.completed + log.failed + log.dropped + (if flight.inFlight then 1 else 0)
  }

  ghost predicate Inv(c: Config, s: State) {
    && Supported(c) && Shape(c, s)
    && Stamped(c, s.ring, s.seat, s.flight, s.step)
    && OnTime(s.ring, s.seat, s.flight, s.log, s.step)
    && FusionInv(c, s)
    && NeverEarly(c, s.ring, s.seat, s.step)
    && NeverStarved(c, s.seat, s.flight, s.log, s.step)
    && PlanInv(c, s)
    && AllKept(c, s.log.seatings)
    && Counted(s.flight, s.step, s.stats, s.log)
  }

  // ---- retention -------------------------------------------------------------

  /** With start steps in order, pruning drops a prefix, all of it expired. */
  lemma {:induction false} UnexpiredIsSuffix(c: Config, slots: seq<Slot>, step: nat, r: seq<nat>) returns (m: nat)
    requires Listed(slots, r) && Monotone(Chunks(slots, r))
    ensures m <= |r| && Unexpired(c, slots, step, r) == r[m..]
    ensures forall i :: 0 <= i < m ==> Expired(c, slots, step, r[i])
    ensures forall i :: m <= i < |r| ==> !Expired(c, slots, step, r[i])
  {
    m := 0;
    if r != [] {
      var init, last := r[..|r| - 1], r[|r| - 1];
      assert Chunks(slots, init) == Chunks(slots, r)[..|r| - 1];
      m := UnexpiredIsSuffix(c, slots, step, init);
      if Expired(c, slots, step, last) {
        forall i | 0 <= i < |init| ensures Expired(c, slots, step, init[i]) {
          assert Chunks(slots, r)[i].start <= Chunks(slots, r)[|r| - 1].start;
        }
        m := |r|;
      } else {
        assert init[m..] + [last] == r[m..];
      }
    }
  }

  /** The retained chunks h[n..]: all but the newest reach past `step`, and the youngest
      dropped chunk has expired or left fusionMax newer ones behind. */
  ghost predicate Window(c: Config, h: seq<Landed>, n: nat, step: nat) {
    && n < |h| && LandedOk(c, h) && Monotone(h)
    && (forall j :: n <= j < |h| - 1 ==> h[j].start + c.chunkLength > step)
    && (n > 0 ==> h[n - 1].start + c.chunkLength <= step || |h| - n >= c.fusionMax)
  }

  /** The retained chunks `kept` are a window on the whole history. */
  ghost predicate Retained(c: Config, kept: seq<Landed>, h: seq<Landed>, step: nat) {
    History(c, kept, h, step) && Window(c, h, |h| - |kept|, step)
  }

  /** The youngest chunk before h[n..] has expired or left fusionMax successors. */
  ghost predicate Passed(c: Config, h: seq<Landed>, n: nat, step: nat) {
    n <= |h| && (n > 0 ==> h[n - 1].start + c.chunkLength <= step || |h| - n >= c.fusionMax)
  }

  /** The chunks h[n..] reach past `step`. */
  ghost predicate Alive(c: Config, h: seq<Landed>, n: nat, step: nat) {
    forall j :: n <= j < |h| ==> h[j].start + c.chunkLength > step
  }

  /** Pruning and appending keep the retained list a window on the whole history. */
  lemma RetainKeepsHistory(c: Config, slots: seq<Slot>, r: seq<nat>, h: seq<Landed>, step: nat, slot: nat)
    requires Listed(slots, r) && History(c, Chunks(slots, r), h, step)
    requires slot < |slots| && RowsOk(c, slots[slot].rows)
    requires slots[slot].startStep <= step && StartsBy(h, slots[slot].startStep)
    ensures var r' := Unexpired(c, slots, step, r) + [slot];
      var h' := h + [Landed(slots[slot].startStep, slots[slot].rows)];
      Listed(slots, r') && Retained(c, Chunks(slots, r'), h', step)
  {
    var n, m := PrunedExtent(c, slots, r, h, step);
    KeptGrows(c, slots, r, Unexpired(c, slots, step, r), h, step, slot, n, m);
  }

  /** Appending to what is left of the retained list, whatever left it. */
  lemma KeptGrows(c: Config, slots: seq<Slot>, r: seq<nat>, kept: seq<nat>, h: seq<Landed>, step: nat, slot: nat,
                  n: nat, m: nat)
    requires Listed(slots, r) && n + |r| == |h| && Chunks(slots, r) == h[n..] && m <= |r| && kept == r[m..]
    requires LandedOk(c, h) && Monotone(h) && Alive(c, h, n + m, step) && Passed(c, h, n + m, step)
    requires slot < |slots| && RowsOk(c, slots[slot].rows)
    requires slots[slot].startStep <= step && StartsBy(h, slots[slot].startStep)
    ensures Listed(slots, kept + [slot])
    ensures Retained(c, Chunks(slots, kept + [slot]), h + [Landed(slots[slot].startStep, slots[slot].rows)], step)
  {
    ExtendedChunks(slots, r, m, slot, h, n);
    WindowGrows(c, h, n + m, step, Landed(slots[slot].startStep, slots[slot].rows), Chunks(slots, kept + [slot]));
  }

  lemma ExtendedChunks(slots: seq<Slot>, r: seq<nat>, m: nat, slot: nat, h: seq<Landed>, n: nat)
    requires Listed(slots, r) && slot < |slots| && m <= |r| && n + |r| == |h|
    requires Chunks(slots, r) == h[n..]
    ensures Chunks(slots, r[m..] + [slot]) == (h + [Landed(slots[slot].startStep, slots[slot].rows)])[n + m..]
  {
    assert Chunks(slots, r[m..] + [slot]) == Chunks(slots, r)[m..] + [Landed(slots[slot].startStep, slots[slot].rows)];
    assert h[n..][m..] == h[n + m..];
  }

  /** How much of the history is left after pruning: all of h[n + m..]. */
  lemma PrunedExtent(c: Config, slots: seq<Slot>, r: seq<nat>, h: seq<Landed>, step: nat) returns (n: nat, m: nat)
    requires Listed(slots, r) && History(c, Chunks(slots, r), h, step)
    ensures n + |r| == |h| && m <= |r| && Unexpired(c, slots, step, r) == r[m..]
    ensures Alive(c, h, n + m, step) && Passed(c, h, n + m, step)
  {
    n := |h| - |r|;
    var kept := Chunks(slots, r);
    TailMonotone(h, n);
    m := UnexpiredIsSuffix(c, slots, step, r);
    forall j | n + m <= j < |h| ensures h[j].start + c.chunkLength > step {
      assert kept[j - n] == h[j];
      assert !Expired(c, slots, step, r[j - n]);
    }
    if m > 0 {
      assert kept[m - 1] == h[n + m - 1];
      assert Expired(c, slots, step, r[m - 1]);
    }
  }

  lemma TailMonotone(h: seq<Landed>, n: nat)
    requires n <= |h| && Monotone(h)
    ensures Monotone(h[n..])
  {
  }

  lemma WindowGrows(c: Config, h: seq<Landed>, n: nat, step: nat, l: Landed, kept: seq<Landed>)
    requires LandedOk(c, h) && Monotone(h) && StartsBy(h, l.start) && l.start <= step && RowsOk(c, l.rows)
    requires Alive(c, h, n, step) && Passed(c, h, n, step) && kept == (h + [l])[n..]
    ensures Retained(c, kept, h + [l], step)
  {
  }

  /** Row i fused from the window is row i fused from everything that ever landed, if the
      step it is for has not passed; and in any case from everything not yet expired. */
  lemma WindowIsExact(c: Config, h: seq<Landed>, n: nat, step: nat, i: nat)
    requires FusionOk(c) && Window(c, h, n, step) && i < c.chunkLength
    ensures RowMeans(c, FusedRow(c, h[n..], i), h, step, i)
  {
    if h[|h| - 1].start + i >= step {
      WindowRow(c, h, n, step, i);
    }
    forall e: nat | SplitsAt(c, h, e, step) ensures FusedRow(c, h[n..], i) == FusedRow(c, h[e..], i) {
      TailWindow(c, h, e, n, step);
      WindowRow(c, h[e..], n - e, step, i);
      assert h[e..][n - e..] == h[n..];
    }
  }

  /** Nothing that had expired is in the window, so it is one on the rest, too. */
  lemma TailWindow(c: Config, h: seq<Landed>, e: nat, n: nat, step: nat)
    requires Window(c, h, n, step) && SplitsAt(c, h, e, step)
    ensures e <= n && Window(c, h[e..], n - e, step) && SplitsAt(c, h[e..], 0, step)
  {
    assert e > 0 ==> h[e - 1].start + c.chunkLength <= step;
    TailMonotone(h, e);
  }

  /** Equal selections and equal window starts give equal rows. */
  lemma SameRow(c: Config, a: seq<Landed>, b: seq<Landed>, i: nat)
    requires FusionOk(c) && LandedOk(c, a) && LandedOk(c, b) && a != [] && b != [] && i < c.chunkLength
    requires a[|a| - 1].start == b[|b| - 1].start
    requires var at := b[|b| - 1].start + i;
      Newest(a, at, c.chunkLength, c.fusionMax) == Newest(b, at, c.chunkLength, c.fusionMax)
    ensures FusedRow(c, a, i) == FusedRow(c, b, i)
  {
  }

  /** The row fused from h[n..] is the row fused from h, where its step has not passed or
      nothing in h had expired. */
  lemma WindowRow(c: Config, h: seq<Landed>, n: nat, step: nat, i: nat)
    requires FusionOk(c) && Window(c, h, n, step) && i < c.chunkLength
    requires SplitsAt(c, h, 0, step) || h[|h| - 1].start + i >= step
    ensures FusedRow(c, h[n..], i) == FusedRow(c, h, i)
  {
    WindowNewest(c, h, n, step, h[|h| - 1].start + i);
    SameRow(c, h[n..], h, i);
  }

  lemma WindowNewest(c: Config, h: seq<Landed>, n: nat, step: nat, at: nat)
    requires Window(c, h, n, step) && Covers(h[|h| - 1], at, c.chunkLength)
    requires SplitsAt(c, h, 0, step) || at >= step
    ensures Newest(h[n..], at, c.chunkLength, c.fusionMax) == Newest(h, at, c.chunkLength, c.fusionMax)
  {
    if at >= step {
      RetentionIsExact(h, n, at, c.chunkLength, c.fusionMax);
    } else if n > 0 {
      LiveCover(c, h, step, at);
      NewestOfCovering(h, n, at, c.chunkLength, c.fusionMax);
    } else {
      assert h[n..] == h;
    }
  }

  /** For a step before the fusion, every chunk that has not expired covers it. */
  lemma LiveCover(c: Config, h: seq<Landed>, step: nat, at: nat)
    requires Monotone(h) && SplitsAt(c, h, 0, step) && at < step
    requires Covers(h[|h| - 1], at, c.chunkLength)
    ensures forall j :: 0 <= j < |h| ==> Covers(h[j], at, c.chunkLength)
  {
  }
}
