/** The action-chunk mode as the object it is: slots, lists and counters updated in place,
    with loops for fusion, projection, pruning and the nearest-row search. Every method is
    tied to the state machine, and the invariant is part of being a valid object. */
module ActionChunkModes {
  import opened Wrappers
  import opened Fusion
  import opened FusionMeaning
  import opened ActionChunkSpec
  import opened ActionChunkInvariant
  import opened ActionChunkProofs

  /** The slots, read off the three vectors that hold them. */
  ghost function Zip(rows: seq<Chunk>, fires: seq<nat>, starts: seq<nat>): (r: seq<Slot>)
    requires |rows| == |fires| == |starts|
  {
    seq(|rows|, i requires 0 <= i < |rows| => Slot(rows[i], fires[i], starts[i]))
  }

  class ActionChunkMode {
    const config: Config
    /** The rows of each slot. */
    const storage: array<Chunk>
    /** The fused window; empty unless the mode fuses. */
    const fused: array<Row>
    var fireSteps: seq<nat>
    var startSteps: seq<nat>
    var valid: seq<bool>
    var retained: seq<nat>
    var seat: Seat
    var flight: Flight
    var step: nat
    var feed: Feed
    var held: Option<Row>
    var stats: Stats
    ghost var log: Log

    ghost predicate Sized()
      reads this, storage
    {
      && storage.Length == |fireSteps| == |startSteps|
      && fused.Length == if config.Fuses() then config.chunkLength else 0
    }

    /** The abstract state. */
    ghost function State(): ActionChunkSpec.State
      requires Sized()
      reads this, storage, fused
    {
      ActionChunkSpec.State(Ring(Zip(storage[..], fireSteps, startSteps), valid, retained),
        if config.Fuses() then fused[..] else ZeroChunk(config),
        seat, flight, step, feed, held, stats, log)
    }

    /** Enough for a step in the middle of a verb. */
    ghost predicate Shaped()
      reads this, storage, fused
    {
      Accepted(config) && Sized() && Shape(config, State())
    }

    /** With a supported configuration the whole invariant holds. */
    ghost predicate Valid()
      reads this, storage, fused
    {
      Shaped() && (Supported(config) ==> Inv(config, State()))
    }

    /** Fill in the defaults, then start empty. */
    constructor (raw: Config)
      requires Accepted(Normalize(raw))
      ensures Valid() && config == Normalize(raw) && State() == Init(Normalize(raw))
      ensures fresh(storage) && fresh(fused)
    {
      var c := Normalize(raw);
      config := c;
      var zeroRow := seq(c.actionDim, _ => 0.0);
      var zero := seq(c.stateDim, _ => 0.0);
      var slots := if c.Chunked() then c.ringSlots else 0;
      storage := new Chunk[slots](_ => seq(c.chunkLength, _ => zeroRow));
      fused := new Row[if c.Fuses() then c.chunkLength else 0](_ => zeroRow);
      fireSteps, startSteps := seq(slots, _ => 0), seq(slots, _ => 0);
      valid, retained := seq(slots, _ => false), [];
      seat := Seat(None, None, None, 0, false);
      flight := Flight(false, false, false, 0, false, 0, 0, 0);
      step := 0;
      feed := Feed(false, zero, zero, zero, []);
      held := None;
      stats := Stats(0, 0, 0, 0, 0, 0, 0, 0);
      log := Log([], 0, Plan(0, zero, [], []), [], false, false, false, 0, 0, [], 0, 0, 0, 0);
      new;
      assert Zip(storage[..], fireSteps, startSteps) == Init(c).ring.slots;
      assert c.Fuses() ==> fused[..] == ZeroChunk(c);
      if Supported(c) {
        InitInv(c);
      }
    }

    // ---- request -------------------------------------------------------------

    method BeginRequest(setInput: int) returns (rc: int)
      requires Valid()
      modifies this
      ensures Valid() && (State(), rc) == Begin(config, old(State()), setInput)
    {
      if Supported(config) {
        BeginKeeps(config, State(), setInput);
      }
      rc := Prepare(setInput);
    }

    method Prepare(setInput: int) returns (rc: int)
      requires Shaped()
      modifies this
      ensures Sized() && (State(), rc) == Begin(config, old(State()), setInput)
    {
      if !config.Usable() || flight.inFlight || seat.waiting.Some? { return CAP_ERR_ARG; }
      if flight.begun { return CAP_OK; }
      if config.stateDim != 0 && feed.known {
        feed := feed.(atFire := feed.latest);
      }
      if config.Projects() {
        if !CanMap(config, feed) { return CAP_ERR_ARG; }
        ProjectState();
        if config.stateInputPort && setInput != CAP_OK { return setInput; }
      }
      stats := stats.(prepared := stats.prepared + 1);
      flight := flight.(begun := true);
      return CAP_OK;
    }

    /** Integrate the next rows of the chunk being executed into the measured state. */
    method ProjectState()
      requires Shaped() && config.Projects() && CanMap(config, feed)
      modifies this
      ensures Sized() && State() == PrepareProjected(config, old(State()))
    {
      var rows, count := NextRows();
      var projected := SumRows(feed, rows);
      log := log.(plan := Plan(step, feed.latest, feed.indices, rows), taken := 0);
      feed := feed.(projected := projected);
      flight := flight.(projectedCount := count);
    }

    /** The rows a projection integrates, and the number that is recorded. */
    method NextRows() returns (rows: seq<Row>, count: nat)
      requires Shaped()
      ensures rows == PlannedRows(config, State())
      ensures count == if seat.active.None? then 0 else ProjectionCount(config, seat.index)
    {
      rows, count := [], 0;
      if seat.active.Some? {
        var source := if seat.fused then fused[..] else storage[seat.active.value];
        assert source == Source(config, State());
        var sum := (seat.index + config.lookahead) % UINT32;
        var end := if sum > config.chunkLength then config.chunkLength else sum;
        rows := if end < seat.index then [] else source[seat.index..end];
        count := (end - seat.index) % UINT32;
      }
    }

    /** Sum the mapped columns row by row, then add them to the measured state. */
    method SumRows(f: Feed, rows: seq<Row>) returns (projected: seq<real>)
      requires Fits(config) && FeedOk(config, f) && CanMap(config, f) && Width(rows, config.actionDim)
      ensures projected == Integrate(f.indices, config.actionDim, f.latest, rows)
    {
      var n := config.stateDim;
      var cum := new real[n](_ => 0.0);
      for i := 0 to |rows|
        invariant forall k :: 0 <= k < n ==> cum[k] == Gain(config, f, rows[..i], k)
      {
        for k := 0 to n
          invariant forall j :: 0 <= j < k ==> cum[j] == Gain(config, f, rows[..i + 1], j)
          invariant forall j :: k <= j < n ==> cum[j] == Gain(config, f, rows[..i], j)
        {
          GainStep(config, f, rows, i, k);
          var col := if f.indices == [] then k else f.indices[k];
          if col != UNMAPPED {
            cum[k] := cum[k] + rows[i][col];
          }
        }
      }
      assert rows[..|rows|] == rows;
      projected := [];
      for k := 0 to n
        invariant |projected| == k
        invariant forall j :: 0 <= j < k ==> projected[j] == f.latest[j] + Gain(config, f, rows, j)
      {
        projected := projected + [f.latest[k] + cum[k]];
      }
    }

    method CommitRequest(reply: RequestReply) returns (rc: int)
      requires Valid()
      modifies this
      ensures Valid() && (State(), rc) == Commit(config, old(State()), reply)
    {
      if Supported(config) {
        CommitKeeps(config, State(), reply);
      }
      rc := PrepareAndLaunch(reply);
    }

    method PrepareAndLaunch(reply: RequestReply) returns (rc: int)
      requires Shaped()
      modifies this
      ensures Sized() && (State(), rc) == Commit(config, old(State()), reply)
    {
      if !flight.begun {
        rc := Prepare(reply.setInput);
        if rc != CAP_OK { return; }
      }
      rc := Launch(reply.submit);
    }

    /** The part of a commit after the prepare step. */
    method Launch(submit: int) returns (rc: int)
      requires Shaped() && !flight.inFlight && seat.waiting.None?
      modifies this
      ensures Sized() && (State(), rc) == ActionChunkSpec.Launch(config, old(State()), submit)
    {
      flight := flight.(begun := false);
      if config.Chunked() {
        ChooseSlot();
      }
      if submit != CAP_OK {
        seat := seat.(pending := None);
        return submit;
      }
      StampFire();
      return CAP_OK;
    }

    /** Record where and when the fire in flight was made. */
    method StampFire()
      requires Shaped() && seat.waiting.None? && !flight.begun
      requires config.Chunked() ==> seat.pending.Some? && Spare(config, State().ring, seat, seat.pending.value)
      modifies this
      ensures Sized() && State() == Stamp(config, old(State()))
    {
      if seat.pending.Some? {
        fireSteps := fireSteps[seat.pending.value := step];
        assert Zip(storage[..], fireSteps, startSteps) ==
          old(Zip(storage[..], fireSteps, startSteps)[seat.pending.value :=
            Zip(storage[..], fireSteps, startSteps)[seat.pending.value].(fireStep := step)]);
      }
      flight := flight.(inFlight := true, requestedOnce := true, fireStep := step,
                        lookahead := if config.Projects() then flight.projectedCount else 0,
                        ticks := 0, reported := false);
      log := log.(fires := log.fires + 1, sinceFire := [], direct := log.plan.step == step,
                  advanced := false, parked := false, overrun := log.taken);
    }

    /** Pick the slot to fire into. */
    method ChooseSlot()
      requires Shaped() && config.Chunked() && !flight.inFlight && seat.waiting.None?
      modifies this
      ensures Sized() && State() == PickSlot(config, old(State()))
    {
      if config.Fuses() {
        var free := ScanFree();
        if free == |valid| {
          FullRing(config, State().ring);
          EvictOldest();
        } else {
          seat := seat.(pending := Some(free));
        }
      } else {
        var next := if seat.active.None? then 0 else (seat.active.value + 1) % config.ringSlots;
        seat := seat.(pending := Some(next));
      }
    }

    method ScanFree() returns (free: nat)
      ensures free == FirstFree(valid)
    {
      free := 0;
      while free < |valid| && valid[free]
        invariant free <= |valid|
        invariant forall i :: 0 <= i < free ==> valid[i]
      {
        free := free + 1;
      }
      FirstFreeIs(valid, free);
    }

    method EvictOldest()
      requires Shaped() && config.Fuses() && !flight.inFlight && seat.waiting.None?
      requires retained != [] && |retained| == |valid|
      modifies this
      ensures Sized() && State() == Reuse(config, old(State()))
    {
      var oldest := retained[0];
      retained := retained[1..];
      valid := valid[oldest := false];
      stats := stats.(pruned := stats.pruned + 1);
      seat := seat.(pending := Some(oldest));
    }

    // ---- seating -------------------------------------------------------------

    /** Index of the row nearest to the measured state; the first of equals. */
    method NearestRow(f: Feed, rows: Chunk) returns (best: nat)
      requires Fits(config) && FeedOk(config, f) && CanMap(config, f) && RowsOk(config, rows) && config.chunkLength > 0
      ensures best < config.chunkLength && best == Nearest(config, f, rows, config.chunkLength)
    {
      var n := config.stateDim;
      var cum := new real[n](_ => 0.0);
      best := 0;
      var bestDistance := 0.0;
      for i := 0 to config.chunkLength
        invariant forall k :: 0 <= k < n ==> cum[k] == Gain(config, f, rows[..i], k)
        invariant i > 0 ==> best == Nearest(config, f, rows, i)
        invariant i > 0 ==> bestDistance == RowDistance(config, f, rows, best, n)
      {
        var distance := DistanceOfRow(f, rows, i, cum);
        if i == 0 || distance < bestDistance {
          bestDistance, best := distance, i;
        }
      }
    }

    /** Distance of row i to the measured state; moves the running sums past row i. */
    method DistanceOfRow(f: Feed, rows: Chunk, i: nat, cum: array<real>) returns (distance: real)
      requires Fits(config) && FeedOk(config, f) && CanMap(config, f) && RowsOk(config, rows) && i < |rows|
      requires cum.Length == config.stateDim
      requires forall k :: 0 <= k < cum.Length ==> cum[k] == Gain(config, f, rows[..i], k)
      modifies cum
      ensures forall k :: 0 <= k < cum.Length ==> cum[k] == Gain(config, f, rows[..i + 1], k)
      ensures distance == RowDistance(config, f, rows, i, config.stateDim)
    {
      distance := 0.0;
      for k := 0 to config.stateDim
        invariant forall j :: 0 <= j < k ==> cum[j] == Gain(config, f, rows[..i + 1], j)
        invariant forall j :: k <= j < cum.Length ==> cum[j] == Gain(config, f, rows[..i], j)
        invariant distance == RowDistance(config, f, rows, i, k)
      {
        GainStep(config, f, rows, i, k);
        var col := if f.indices == [] then k else f.indices[k];
        if col != UNMAPPED {
          cum[k] := cum[k] + rows[i][col];
          var estimate := match config.representation
            case Absolute => rows[i][col]
            case DeltaFromStart => f.atFire[k] + rows[i][col]
            case DeltaCumulative => f.atFire[k] + cum[k];
          var diff := estimate - f.latest[k];
          distance := distance + if config.squaredDistance then diff * diff else if diff < 0.0 then -diff else diff;
        }
      }
    }

    /** Where to seat a chunk that starts at `start`. */
    method ChooseIndex(rows: Chunk, start: nat) returns (index: Option<nat>)
      requires Sized() && Fits(config) && FeedOk(config, feed) && RowsOk(config, rows) && config.chunkLength > 0
      ensures index == SeatIndex(config, State(), rows, start)
    {
      if config.switchMode.StateDistance? {
        if !CanMap(config, feed) { return None; }
        var best := NearestRow(feed, rows);
        return Some(best);
      }
      var idx := step - start + config.switchOffset;
      return Some(if idx < 0 then 0 else if idx > config.chunkLength - 1 then config.chunkLength - 1 else idx);
    }

    /** Drop the retained chunks that ended. */
    method PruneExpired()
      requires Sized() && RingOk(config, State().ring)
      modifies this`retained, this`valid, this`stats
      ensures Sized() && State() == Pruned(config, old(State()))
    {
      var list, flags := Compact(config, Zip(storage[..], fireSteps, startSteps), startSteps, step, retained, valid);
      PrunedLists(config, State().ring, step, list, flags);
      stats := stats.(pruned := stats.pruned + (|retained| - |list|));
      retained, valid := list, flags;
    }

    /** Fuse every row of the newest chunk's window. */
    method FuseWindow()
      requires FusionOk(config) && Sized() && RingOk(config, State().ring) && retained != [] && config.Fuses()
      modifies fused
      ensures LandedOk(config, Chunks(State().ring.slots, retained))
      ensures fused[..] == FusedWindow(config, Chunks(State().ring.slots, retained))
    {
      ghost var chunks := Chunks(State().ring.slots, retained);
      for i := 0 to config.chunkLength
        invariant LandedOk(config, chunks)
        invariant forall j :: 0 <= j < i ==> fused[j] == FusedRow(config, chunks, j)
      {
        var row := FuseRow(config, storage, startSteps, retained, chunks, i);
        fused[i] := row;
      }
    }

    /** Prune, then append `slot`. */
    method RetainSlot(slot: nat)
      requires Sized() && RingOk(config, State().ring) && config.Fuses() && slot < storage.Length && slot !in retained
      modifies this`retained, this`valid, this`stats, this`log
      ensures Sized() && State() == Retain(config, old(State()), slot)
    {
      PruneExpired();
      AppendSlot(slot);
    }

    method AppendSlot(slot: nat)
      requires Sized() && RingOk(config, State().ring) && config.Fuses() && slot < storage.Length && slot !in retained
      modifies this`retained, this`valid, this`log
      ensures Sized() && State() == Appended(config, old(State()), slot)
    {
      valid := valid[slot := true];
      retained := retained + [slot];
      log := log.(landed := log.landed + [Landed(startSteps[slot], storage[slot])], fusedAt := step);
    }

    method RetainFuse(slot: nat)
      requires Sized() && RingOk(config, State().ring) && FusionOk(config) && config.Fuses()
      requires slot < storage.Length && slot !in retained
      modifies this, fused
      ensures Sized() && State() == RetainAndFuse(config, old(State()), slot)
    {
      RetainSlot(slot);
      FuseWindow();
    }

    /** Make `slot` the consumed chunk. */
    method Consume(slot: nat, index: nat, fromFused: bool)
      requires Sized() && slot < storage.Length
      modifies this
      ensures Sized() && State() == Consumed(config, old(State()), slot, index, fromFused)
    {
      if config.Projects() {
        log := Recorded(State(), slot, index);
      }
      seat := Seat(Some(slot), None, None, index, fromFused);
    }

    method SeatFused(slot: nat) returns (ok: bool)
      requires Shaped() && config.Fuses() && !flight.inFlight && flight.requestedOnce && seat.waiting.None?
      requires slot < storage.Length && slot !in retained
      modifies this, fused
      ensures Sized() && (State(), ok) == SeatFusion(config, old(State()), slot)
    {
      RetainFuse(slot);
      var index := ChooseIndex(fused[..], startSteps[slot]);
      if index.None? {
        seat := seat.(pending := None);
        return false;
      }
      Consume(slot, index.value, true);
      return true;
    }

    method SeatSwitched(slot: nat) returns (ok: bool)
      requires Shaped() && config.Chunked() && !config.Fuses()
      requires !flight.inFlight && flight.requestedOnce && seat.waiting.None? && slot < storage.Length
      modifies this
      ensures Sized() && (State(), ok) == SeatSwitch(config, old(State()), slot)
    {
      assert State().ring.slots[slot].rows == storage[slot];
      var index := ChooseIndex(storage[slot], startSteps[slot]);
      if index.None? {
        seat := seat.(pending := None);
        return false;
      }
      Consume(slot, index.value, false);
      return true;
    }

    method Dispatch(slot: nat) returns (ok: bool)
      requires Shaped() && config.Chunked() && Spare(config, State().ring, seat, slot)
      requires !flight.inFlight && !flight.begun && flight.requestedOnce && seat.waiting.None?
      modifies this, fused
      ensures Sized() && (State(), ok) == SeatLanded(config, old(State()), slot)
    {
      var start := startSteps[slot];
      if config.Projects() && step < start {
        seat := seat.(waiting := Some(slot), pending := None);
        log := log.(parked := true);
        return true;
      }
      if config.Fuses() {
        ok := SeatFused(slot);
      } else if config.Projects() {
        var elapsed := step - start;
        Consume(slot, if elapsed > config.chunkLength - 1 then config.chunkLength - 1 else elapsed, false);
        ok := true;
      } else if config.consume.Switch? {
        ok := SeatSwitched(slot);
      } else {
        Consume(slot, 0, false);
        ok := true;
      }
    }

    // ---- completion ----------------------------------------------------------

    method Poll(land: LandReply) returns (status: Status)
      requires Valid() && RowsOk(config, land.data)
      modifies this, storage, fused
      ensures Valid() && (State(), status) == ActionChunkSpec.Poll(config, old(State()), land)
    {
      if Supported(config) {
        PollKeeps(config, State(), land);
      }
      status := QueryExecutor(land);
    }

    method QueryExecutor(land: LandReply) returns (status: Status)
      requires Shaped() && RowsOk(config, land.data)
      modifies this, storage, fused
      ensures Sized() && (State(), status) == ActionChunkSpec.Poll(config, old(State()), land)
    {
      if !config.Usable() { return Failed; }
      if !flight.inFlight { return Idle; }
      if land.query == 0 {
        if flight.reported {
          stats := stats.(late := stats.late + 1);
        }
        if config.Chunked() {
          status := ReadAndSeat(land);
        } else {
          Complete();
          status := Ready;
        }
        return;
      }
      if land.query < 0 {
        Fail();
        return Failed;
      }
      status := StillPending();
    }

    /** Count one more pending poll; report an overrun of either clock once. */
    method StillPending() returns (status: Status)
      requires Sized()
      modifies this`flight, this`stats
      ensures Sized() && (State(), status) == Waited(config, old(State()))
    {
      flight := flight.(ticks := flight.ticks + 1);
      var overPolls := config.pollBudget >= 0 && flight.ticks > config.pollBudget;
      var overSteps := config.deadlineSteps > 0 && step - flight.fireStep > config.deadlineSteps;
      if (overPolls || overSteps) && !flight.reported {
        flight := flight.(reported := true);
        stats := stats.(fallbacks := stats.fallbacks + 1);
        return Fallback;
      }
      return Pending;
    }

    /** Read the chunk into the pending slot, anchor it, and seat it. */
    method ReadAndSeat(land: LandReply) returns (status: Status)
      requires Shaped() && flight.inFlight && config.Chunked() && RowsOk(config, land.data)
      modifies this, storage, fused
      ensures Sized() && (State(), status) == Land(config, old(State()), land)
    {
      var slot := seat.pending.value;
      if land.read != CAP_OK {
        StoreRows(slot, land.data);
        seat := seat.(pending := None);
        Fail();
        return Failed;
      }
      Arrive(slot, land.data);
      var ok := Dispatch(slot);
      if !ok {
        Fail();
        return Failed;
      }
      Complete();
      return Ready;
    }

    /** The chunk in flight is in its slot and anchored. */
    method Arrive(slot: nat, rows: Chunk)
      requires Shaped() && flight.inFlight && config.Chunked() && RowsOk(config, rows) && seat.pending == Some(slot)
      modifies this, storage
      ensures Sized() && State() == Arrived(config, old(State()), rows)
    {
      StoreRows(slot, rows);
      AnchorSlot(slot);
      if seat.active.Some? {
        stats := stats.(switches := stats.switches + 1);
      }
      flight := flight.(inFlight := false);
      seat := seat.(pending := None);
    }

    method StoreRows(slot: nat, rows: Chunk)
      requires Shaped() && slot < storage.Length && RowsOk(config, rows)
      modifies storage
      ensures Sized() && State() == old(State()).(ring := Store(config, old(State().ring), slot, rows))
    {
      storage[slot] := rows;
      assert State().ring.slots == Store(config, old(State().ring), slot, rows).slots;
    }

    method AnchorSlot(slot: nat)
      requires Sized() && RingOk(config, State().ring) && slot < storage.Length
      modifies this`startSteps
      ensures Sized() && State() == old(State()).(ring := Anchor(config, old(State().ring), slot, flight.lookahead))
    {
      startSteps := startSteps[slot := fireSteps[slot] + flight.lookahead];
      assert State().ring.slots == Anchor(config, old(State().ring), slot, flight.lookahead).slots;
    }

    method Complete()
      requires Sized()
      modifies this
      ensures Sized() && State() == Completed(old(State()))
    {
      flight := flight.(inFlight := false, ticks := 0, reported := false);
      stats := stats.(completed := stats.completed + 1);
    }

    method Fail()
      requires Sized()
      modifies this
      ensures Sized() && State() == Abort(old(State()))
    {
      flight := flight.(inFlight := false);
      log := log.(failed := log.failed + 1);
    }

    method SyncNextChunk(reply: RequestReply, sync: int, land: LandReply) returns (status: Status)
      requires Valid() && RowsOk(config, land.data)
      modifies this, storage, fused
      ensures Valid() && (State(), status) == Sync(config, old(State()), reply, sync, land)
    {
      if Supported(config) {
        SyncKeeps(config, State(), reply, sync, land);
      }
      status := Await(reply, sync, land);
    }

    method Await(reply: RequestReply, sync: int, land: LandReply) returns (status: Status)
      requires Shaped() && RowsOk(config, land.data)
      modifies this, storage, fused
      ensures Sized() && (State(), status) == Sync(config, old(State()), reply, sync, land)
    {
      if !config.Usable() { return Failed; }
      if !flight.inFlight {
        if config.external { return Failed; }
        var rc := PrepareAndLaunch(reply);
        if rc != CAP_OK { return Failed; }
      }
      if sync != CAP_OK {
        Fail();
        return Failed;
      }
      status := QueryExecutor(land);
    }

    // ---- consumption ---------------------------------------------------------

    method PromoteWaiting()
      requires Shaped()
      modifies this, fused
      ensures Sized() && State() == Promote(config, old(State()))
    {
      if seat.waiting.None? || step < startSteps[seat.waiting.value] { return; }
      var slot := seat.waiting.value;
      if config.Fuses() {
        seat := seat.(waiting := None);
        var _ := SeatFused(slot);
      } else {
        var elapsed := step - startSteps[slot];
        Consume(slot, if elapsed > config.chunkLength - 1 then config.chunkLength - 1 else elapsed, false);
      }
    }

    /** Serve a miss from the held action, if the miss policy keeps one. */
    method ServeMiss(status: Status, fits: bool) returns (r: Status, row: Option<Row>)
      requires Sized()
      modifies this
      ensures Sized() && Tick(State(), r, row) == Missed(old(State()), status, fits)
    {
      if held.None? { return status, None; }
      if !fits { return Failed, None; }
      row := held;
      step := step + 1;
      stats := stats.(emitted := stats.emitted + 1, held := stats.held + 1);
      log := log.(sinceFire := log.sinceFire + [held.value]);
      r := Fallback;
    }

    method CurrentRow() returns (row: Row)
      requires Shaped() && seat.active.Some?
      ensures row == Source(config, State())[seat.index]
    {
      var source := if seat.fused then fused[..] else storage[seat.active.value];
      assert source == Source(config, State());
      row := source[seat.index];
    }

    /** Step past the current row, which has been written out. */
    method PassRow(row: Row)
      requires Sized() && seat.active.Some?
      modifies this`held, this`seat, this`stats, this`step, this`log
      ensures Sized() && State() == PassedRow(config, old(State()), row)
    {
      HoldRow(row);
      MoveOn();
    }

    /** Remember the row handed out, if the miss policy repeats it. */
    method HoldRow(row: Row)
      requires Sized()
      modifies this`held, this`log
      ensures Sized() && State() == Remembered(config, old(State()), row)
    {
      if config.miss.HoldLast? {
        held := Some(row);
      }
      log := log.(sinceFire := log.sinceFire + [row], taken := log.taken + 1);
    }

    method MoveOn()
      requires Sized()
      modifies this`seat, this`stats, this`step
      ensures Sized() && State() == MovedOn(config, old(State()))
    {
      seat := if seat.index + 1 >= config.chunkLength then seat.(active := None, index := 0)
              else seat.(index := seat.index + 1);
      stats := stats.(emitted := stats.emitted + 1);
      step := step + 1;
    }

    method EmitRow() returns (row: Row)
      requires Shaped() && seat.active.Some?
      modifies this`held, this`seat, this`stats, this`step, this`log
      ensures row == old(Source(config, State())[seat.index])
      ensures Sized() && State() == EmitActive(config, old(State()))
    {
      row := CurrentRow();
      PassRow(row);
    }

    /** Hand out the current row, then prefetch if few rows are left. */
    method ServeActive(env: Env, fits: bool) returns (status: Status, row: Option<Row>)
      requires Shaped() && seat.active.Some?
      modifies this
      ensures Sized() && Tick(State(), status, row) == Serve(config, old(State()), env, fits)
    {
      if !fits { return Failed, None; }
      var action := EmitRow();
      if !config.external && seat.active.Some? && !flight.inFlight && seat.waiting.None? &&
         config.chunkLength - seat.index <= config.executeHorizon {
        var _ := PrepareAndLaunch(env.prefetch);
      }
      return Ready, Some(action);
    }

    /** Nothing is active and the parked chunk is not due yet. */
    method ServeGap(fits: bool) returns (status: Status, row: Option<Row>)
      requires Shaped()
      modifies this, fused
      ensures Sized() && Tick(State(), status, row) == Gap(config, old(State()), fits)
    {
      status, row := ServeMiss(Fallback, fits);
      if row.Some? {
        PromoteWaiting();
      }
    }

    /** Fire if nothing is in flight, then query; no status means the request failed. */
    method FetchChunk(env: Env) returns (status: Option<Status>)
      requires Shaped() && config.Chunked() && RowsOk(config, env.land.data)
      modifies this, storage, fused
      ensures Sized() && (State(), status) == Fetch(config, old(State()), env)
    {
      if !flight.inFlight && !config.external {
        var rc := PrepareAndLaunch(env.first);
        if rc != CAP_OK { return None; }
      }
      var s := QueryExecutor(env.land);
      status := Some(s);
    }

    method NextAction(env: Env, fits: bool) returns (status: Status, row: Option<Row>)
      requires Valid() && RowsOk(config, env.land.data)
      modifies this, storage, fused
      ensures Valid() && Tick(State(), status, row) == Next(config, old(State()), env, fits)
    {
      if Supported(config) {
        NextKeeps(config, State(), env, fits);
      }
      status, row := RunTick(env, fits);
    }

    method RunTick(env: Env, fits: bool) returns (status: Status, row: Option<Row>)
      requires Shaped() && RowsOk(config, env.land.data)
      modifies this, storage, fused
      ensures Sized() && Tick(State(), status, row) == Next(config, old(State()), env, fits)
      decreases if seat.active.None? && seat.waiting.None? then 1 else 0
    {
      if !config.Chunked() { return Failed, None; }
      PromoteWaiting();
      if seat.active.Some? {
        status, row := ServeActive(env, fits);
      } else if seat.waiting.Some? {
        status, row := ServeGap(fits);
      } else {
        var s := FetchChunk(env);
        if s.None? { return Failed, None; }
        if s.value.Ready? {
          status, row := RunTick(env, fits);
        } else {
          status, row := ServeMiss(s.value, fits);
        }
      }
    }

    // ---- the other verbs -----------------------------------------------------

    method AdvanceStep()
      requires Valid()
      modifies this`step, this`log
      ensures Valid() && State() == Advance(old(State()))
    {
      ghost var s := State();
      if Supported(config) {
        AdvanceKeeps(config, s);
      }
      step := step + 1;
      log := log.(advances := log.advances + 1, advanced := true);
      assert State() == Advance(s);
    }

    method SetMeasuredState(x: seq<real>) returns (rc: int)
      requires Valid()
      modifies this
      ensures Valid() && (State(), rc) == SetState(config, old(State()), x)
    {
      if Supported(config) {
        SetStateKeeps(config, State(), x);
      }
      if config.stateDim == 0 || |x| != config.stateDim { return CAP_ERR_ARG; }
      feed := feed.(latest := x, known := true);
      return CAP_OK;
    }

    method SetStateActionIndices(x: seq<nat>) returns (rc: int)
      requires Valid()
      modifies this
      ensures Valid() && (State(), rc) == SetIndices(config, old(State()), x)
    {
      if Supported(config) {
        SetIndicesKeeps(config, State(), x);
      }
      if flight.requestedOnce || x == [] { return CAP_ERR_ARG; }
      var ok := CheckIndices(x);
      if !ok { return CAP_ERR_ARG; }
      feed := feed.(indices := x);
      return CAP_OK;
    }

    /** Every mapped column exists, no two dimensions share one, and one is mapped. */
    method CheckIndices(x: seq<nat>) returns (ok: bool)
      ensures ok <==> IndicesOk(config, x)
    {
      if |x| != config.stateDim { return false; }
      var mapped := false;
      for i := 0 to |x|
        invariant mapped <==> exists k :: 0 <= k < i && x[k] != UNMAPPED
        invariant forall k :: 0 <= k < i ==> x[k] == UNMAPPED || x[k] < config.actionDim
        invariant forall k, j :: 0 <= k < i && k < j < |x| && x[k] != UNMAPPED ==> x[k] != x[j]
      {
        if x[i] != UNMAPPED {
          if x[i] >= config.actionDim { return false; }
          mapped := true;
          for j := i + 1 to |x|
            invariant forall m :: i < m < j ==> x[i] != x[m]
          {
            if x[i] == x[j] { return false; }
          }
        }
      }
      return mapped;
    }

    method Reset()
      requires Valid()
      modifies this
      ensures Valid() && State() == ActionChunkSpec.Reset(config, old(State()))
    {
      if Supported(config) {
        ResetKeeps(config, State());
      }
      Clear();
    }

    method Clear()
      requires Sized()
      modifies this`log, this`flight, this`held, this`retained, this`valid, this`seat
      ensures Sized() && State() == Cleared(old(State()))
    {
      log := log.(landed := [], dropped := log.dropped + if flight.inFlight then 1 else 0);
      flight := flight.(inFlight := false, begun := false, ticks := 0, reported := false);
      held := None;
      retained := [];
      valid := seq(|valid|, _ => false);
      seat := Seat(None, None, None, 0, false);
    }
  }

  /** Fused row i: the newest retained chunks that cover its step, weighted. */
  method FuseRow(c: Config, storage: array<Chunk>, starts: seq<nat>, retained: seq<nat>,
                 ghost chunks: seq<Landed>, i: nat) returns (row: Row)
    requires FusionOk(c) && LandedOk(c, chunks) && chunks != [] && i < c.chunkLength
    requires |chunks| == |retained| && storage.Length == |starts|
    requires forall j :: 0 <= j < |retained| ==> retained[j] < |starts|
    requires forall j :: 0 <= j < |chunks| ==> chunks[j] == Landed(starts[retained[j]], storage[retained[j]])
    ensures row == FusedRow(c, chunks, i) && IsMean(c, chunks, i, row)
  {
    FusedRowIsMean(c, chunks, i);
    var start := starts[retained[|retained| - 1]];
    assert start == chunks[|chunks| - 1].start;
    var at := start + i;
    var acc := new real[c.actionDim](_ => 0.0);
    var weightSum, count, r := 0.0, 0, |retained|;
    ghost var used: seq<Landed> := [];
    SelectedNone(c, chunks, at);
    while r > 0 && count < c.fusionMax
      invariant 0 <= r <= |retained| && count == |used|
      invariant Selected(c, chunks, at, r, used)
      invariant Totals(c, acc[..], weightSum, used, start, at)
    {
      r := r - 1;
      var slot := retained[r];
      SelectedNext(c, chunks, at, r, used);
      if starts[slot] <= at < starts[slot] + c.chunkLength {
        var source := at - starts[slot];
        var w := c.weights[if source >= i then source - i else i - source];
        weightSum := AddWeighted(c, acc, weightSum, used, chunks[r], start, at, w, storage[slot][source]);
        used, count := used + [chunks[r]], count + 1;
      }
    }
    SelectedAll(c, chunks, at, r, used);
    row := Divide(c, acc, weightSum, chunks, used, i);
  }

  /** The chunks `used` are the newest covering ones found behind position r. */
  ghost predicate Selected(c: Config, chunks: seq<Landed>, at: nat, r: nat, used: seq<Landed>) {
    && r <= |chunks| && |used| <= c.fusionMax
    && Newest(chunks, at, c.chunkLength, c.fusionMax)
         == used + Newest(chunks[..r], at, c.chunkLength, c.fusionMax - |used|)
  }

  lemma SelectedNone(c: Config, chunks: seq<Landed>, at: nat)
    ensures Selected(c, chunks, at, |chunks|, [])
  {
    assert chunks[..|chunks|] == chunks;
  }

  lemma SelectedNext(c: Config, chunks: seq<Landed>, at: nat, r: nat, used: seq<Landed>)
    requires r < |chunks| && |used| < c.fusionMax && Selected(c, chunks, at, r + 1, used)
    ensures Selected(c, chunks, at, r, if Covers(chunks[r], at, c.chunkLength) then used + [chunks[r]] else used)
  {
    NewestStep(chunks, r, at, c.chunkLength, c.fusionMax - |used|);
    if Covers(chunks[r], at, c.chunkLength) {
      var rest := Newest(chunks[..r], at, c.chunkLength, c.fusionMax - |used| - 1);
      Regroup(used, chunks[r], rest);
    }
  }

  lemma Regroup<T>(a: seq<T>, x: T, b: seq<T>)
    ensures a + ([x] + b) == (a + [x]) + b
  {
  }

  lemma SelectedAll(c: Config, chunks: seq<Landed>, at: nat, r: nat, used: seq<Landed>)
    requires Selected(c, chunks, at, r, used) && (r == 0 || |used| == c.fusionMax)
    ensures used == Newest(chunks, at, c.chunkLength, c.fusionMax)
  {
    assert used + [] == used;
  }

  lemma MeanIs(c: Config, chunks: seq<Landed>, i: nat, used: seq<Landed>, row: Row)
    requires FusionOk(c) && LandedOk(c, chunks) && chunks != [] && i < c.chunkLength
    requires var start := chunks[|chunks| - 1].start;
      && used == Newest(chunks, start + i, c.chunkLength, c.fusionMax)
      && Fusable(used, start, start + i, c.chunkLength, c.actionDim, c.weights)
      && WeightSum(used, start, start + i, c.chunkLength, c.actionDim, c.weights) > 0.0
      && |row| == c.actionDim
      && forall k :: 0 <= k < |row| ==>
        row[k] == WeightedSum(used, start, start + i, c.chunkLength, c.actionDim, c.weights, k)
                    / WeightSum(used, start, start + i, c.chunkLength, c.actionDim, c.weights)
    ensures row == FusedRow(c, chunks, i)
  {
  }

  /** One division per column gives the mean. */
  method Divide(c: Config, acc: array<real>, weightSum: real, ghost chunks: seq<Landed>, ghost used: seq<Landed>,
                i: nat)
    returns (row: Row)
    requires FusionOk(c) && LandedOk(c, chunks) && chunks != [] && i < c.chunkLength
    requires var start := chunks[|chunks| - 1].start;
      && used == Newest(chunks, start + i, c.chunkLength, c.fusionMax)
      && Totals(c, acc[..], weightSum, used, start, start + i)
    ensures row == FusedRow(c, chunks, i)
  {
    ghost var start := chunks[|chunks| - 1].start;
    WeightSumPositive(used, start, start + i, c.chunkLength, c.actionDim, c.weights);
    row := [];
    for k := 0 to acc.Length
      invariant |row| == k
      invariant forall j :: 0 <= j < k ==> row[j] == acc[j] / weightSum
    {
      row := row + [acc[k] / weightSum];
    }
    MeanIs(c, chunks, i, used, row);
  }

  /** The accumulators hold the weighted column sums of the chunks used so far, and
      `weightSum` the sum of their weights. */
  ghost predicate Totals(c: Config, acc: seq<real>, weightSum: real, used: seq<Landed>, start: nat, at: nat) {
    && Fusable(used, start, at, c.chunkLength, c.actionDim, c.weights)
    && weightSum == WeightSum(used, start, at, c.chunkLength, c.actionDim, c.weights)
    && |acc| == c.actionDim
    && forall k :: 0 <= k < |acc| ==> acc[k] == WeightedSum(used, start, at, c.chunkLength, c.actionDim, c.weights, k)
  }

  /** Add one more chunk's row, weighted, to the accumulators. */
  method AddWeighted(c: Config, acc: array<real>, weightSum: real, ghost used: seq<Landed>, ghost l: Landed,
                     ghost start: nat, ghost at: nat, w: real, row: Row) returns (sum: real)
    requires Totals(c, acc[..], weightSum, used, start, at)
    requires Covers(l, at, c.chunkLength) && Rectangular(l.rows, c.chunkLength, c.actionDim)
    requires w == Weight(l, start, at, c.weights) && row == l.rows[at - l.start]
    modifies acc
    ensures Totals(c, acc[..], sum, used + [l], start, at)
  {
    assert (used + [l])[..|used|] == used;
    ghost var before := acc[..];
    for k := 0 to c.actionDim
      invariant forall j :: 0 <= j < k ==> acc[j] == before[j] + w * row[j]
      invariant forall j :: k <= j < acc.Length ==> acc[j] == before[j]
    {
      acc[k] := acc[k] + w * row[k];
    }
    sum := weightSum + w;
  }

  /** The flags `v`, cleared for the expired slots of `r`. */
  ghost predicate Flagged(c: Config, slots: seq<Slot>, step: nat, r: seq<nat>, v: seq<bool>, flags: seq<bool>)
    requires |slots| == |v|
  {
    && |flags| == |v|
    && forall p :: 0 <= p < |v| ==> flags[p] == (v[p] && !(p in r && Expired(c, slots, step, p)))
  }

  lemma FlagStep(c: Config, slots: seq<Slot>, step: nat, r: seq<nat>, slot: nat, v: seq<bool>, flags: seq<bool>)
    requires |slots| == |v| && slot < |v| && Flagged(c, slots, step, r, v, flags)
    ensures Flagged(c, slots, step, r + [slot], v,
                    if Expired(c, slots, step, slot) then flags[slot := false] else flags)
  {
  }

  lemma PrunedLists(c: Config, ring: Ring, step: nat, list: seq<nat>, flags: seq<bool>)
    requires RingOk(c, ring) && list == Unexpired(c, ring.slots, step, ring.retained)
    requires Flagged(c, ring.slots, step, ring.retained, ring.valid, flags)
    ensures Ring(ring.slots, flags, list) == Prune(c, ring, step)
  {
    var pruned := Prune(c, ring, step);
    forall p | 0 <= p < |flags| ensures flags[p] == pruned.valid[p] {
      if ring.valid[p] {
        assert p in ring.retained;
      }
    }
  }

  /** Compact the list of retained slots in place and clear the flags of those dropped. */
  method Compact(c: Config, ghost slots: seq<Slot>, starts: seq<nat>, step: nat, r: seq<nat>, v: seq<bool>)
    returns (list: seq<nat>, flags: seq<bool>)
    requires |slots| == |starts| == |v| && Listed(slots, r)
    requires forall i :: 0 <= i < |slots| ==> slots[i].startStep == starts[i]
    ensures list == Unexpired(c, slots, step, r) && Flagged(c, slots, step, r, v, flags)
  {
    list, flags := r, v;
    var keep := 0;
    ghost var kept: seq<nat> := [];
    for i := 0 to |r|
      invariant keep == |kept| <= i && |list| == |r|
      invariant kept == Unexpired(c, slots, step, r[..i])
      invariant forall j :: 0 <= j < keep ==> list[j] == kept[j]
      invariant forall j :: i <= j < |r| ==> list[j] == r[j]
      invariant Flagged(c, slots, step, r[..i], v, flags)
    {
      var slot := list[i];
      FlagStep(c, slots, step, r[..i], slot, v, flags);
      assert r[..i + 1] == r[..i] + [slot];
      if starts[slot] + c.chunkLength <= step {
        flags := flags[slot := false];
      } else {
        list := list[keep := slot];
        keep, kept := keep + 1, kept + [slot];
      }
    }
    assert r[..|r|] == r;
    list := list[..keep];
  }

  /** What dimension k gains from executing `rows`. */
  ghost function Gain(c: Config, feed: Feed, rows: seq<Row>, k: nat): real
    requires Mapped(feed.indices, c.stateDim, c.actionDim) && Width(rows, c.actionDim) && k < c.stateDim
  {
    var col := Column(feed.indices, k);
    if col < c.actionDim then ColumnSum(rows, c.actionDim, col) else 0.0
  }

  lemma GainStep(c: Config, feed: Feed, rows: seq<Row>, i: nat, k: nat)
    requires Mapped(feed.indices, c.stateDim, c.actionDim) && Width(rows, c.actionDim)
    requires i < |rows| && k < c.stateDim
    ensures var col := Column(feed.indices, k);
      Gain(c, feed, rows[..i + 1], k) == Gain(c, feed, rows[..i], k) + if col < c.actionDim then rows[i][col] else 0.0
  {
    assert rows[..i + 1][..i] == rows[..i];
  }

  lemma {:induction false} FirstFreeIs(valid: seq<bool>, n: nat)
    requires n <= |valid| && (n < |valid| ==> !valid[n])
    requires forall i :: 0 <= i < n ==> valid[i]
    ensures FirstFree(valid) == n
  {
    if n > 0 {
      FirstFreeIs(valid[1..], n - 1);
    }
  }
}
