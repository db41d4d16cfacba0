/** The action-chunk mode as a state machine: its configuration, its state, and one
    function per verb. Executor replies are inputs of the verbs that consult it. */
module ActionChunkSpec {
  import opened Wrappers
  import opened Fusion

  const UINT32: nat := 0x1_0000_0000
  /** The column number that leaves a state dimension unprojected (UINT32_MAX). */
  const UNMAPPED: nat := 0xFFFF_FFFF

  // ---- configuration ---------------------------------------------------------

  datatype Prepare = NoPrepare | ProjectedState
  datatype Consume = Plain | Switch | TemporalFusion
  datatype SwitchMode = Latency | StateDistance
  datatype Miss = ReportOnly | HoldLast
  datatype Representation = Absolute | DeltaCumulative | DeltaFromStart

  /** `weights` stands for the table exp(-decay * j), of which only the length, the
      positive entries and weights[0] == 1 matter. */
  datatype Config = Config(
    external: bool, runnerOk: bool, hasOutput: bool,
    chunkLength: nat, actionDim: nat, ringSlots: nat, executeHorizon: nat,
    pollBudget: int, deadlineSteps: int,
    prepare: Prepare, consume: Consume, switchMode: SwitchMode, miss: Miss,
    f32: bool, representation: Representation, squaredDistance: bool, experimental: bool,
    stateDim: nat, weights: seq<real>, fusionMax: nat,
    switchOffset: int, lookahead: nat, stateInputPort: bool)
  {
    predicate Chunked() { hasOutput && chunkLength > 0 && actionDim > 0 }

    predicate Fuses() { consume.TemporalFusion? }

    predicate Projects() { prepare.ProjectedState? }

    /** External callbacks, or a runner that opened. */
    predicate Usable() { external || runnerOk }

    function Slots(): nat { if Chunked() then ringSlots else 0 }
  }

  function MaxChunks(c: Config): nat {
    if c.fusionMax == 0 then 3 else c.fusionMax
  }

  /** The configuration check made before a mode is built; the sum with one wraps. */
  predicate Validate(c: Config) {
    var stateSwitch := !c.consume.Plain? && c.switchMode.StateDistance?;
    && (!c.consume.Plain? ==> c.Chunked())
    && (stateSwitch ==> c.stateDim != 0)
    && (stateSwitch || c.Fuses() ==> c.f32)
    && (c.Fuses() ==> c.ringSlots >= (MaxChunks(c) + 1) % UINT32)
    && (if c.Projects() then
          && (c.consume.Plain? || (c.experimental && c.Fuses() && c.switchMode.Latency?))
          && c.Chunked() && c.stateDim != 0 && c.f32
          && c.representation.DeltaCumulative?
        else !c.stateInputPort)
  }

  /** Defaults filled in by the constructor. */
  function Normalize(c: Config): Config {
    c.(ringSlots := if c.ringSlots == 0 then 1 else c.ringSlots,
       fusionMax := if c.Fuses() then MaxChunks(c) else c.fusionMax)
  }

  /** Every 32-bit field is in range. */
  predicate Fits(c: Config) {
    && c.chunkLength < UINT32 && c.ringSlots < UINT32 && c.fusionMax < UINT32
    && c.lookahead < UINT32 && c.actionDim < UNMAPPED && c.stateDim < UINT32
  }

  /** Filling in the defaults does not change what the check says. */
  lemma NormalizeValidates(c: Config)
    requires Fits(c)
    ensures Fits(Normalize(c)) && (Validate(Normalize(c)) <==> Validate(c)) && Normalize(Normalize(c)) == Normalize(c)
  {
    if c.Fuses() {
      assert (MaxChunks(c) + 1) % UINT32 != 1;
    }
  }

  /** The configurations a mode can be built from: validated, defaults filled in. External
      executors have no model to write a state input to. */
  ghost predicate Accepted(c: Config) {
    && Fits(c) && Validate(c) && Normalize(c) == c
    && (c.external ==> !c.stateInputPort)
    && (c.Fuses() ==> |c.weights| == c.chunkLength && Positive(c.weights) && c.weights[0] == 1.0)
  }

  /** The configurations the theorems are about: those that also meet three conditions that
      validation does not enforce. With fusion the second slot follows from the others. */
  ghost predicate Supported(c: Config) {
    && Accepted(c)
    && (c.Chunked() ==> c.ringSlots >= 2)
    && (c.Fuses() ==> c.fusionMax + 1 < UINT32)
    && (c.Projects() ==> c.chunkLength - 1 + c.lookahead < UINT32)
  }

  /** What fusing asks of a configuration. */
  ghost predicate FusionOk(c: Config) {
    c.fusionMax > 0 && |c.weights| == c.chunkLength && Positive(c.weights)
  }

  // ---- state -----------------------------------------------------------------

  datatype Slot = Slot(rows: Chunk, fireStep: nat, startStep: nat)

  /** The chunk slots. `retained` lists the slots kept for fusion, oldest first. */
  datatype Ring = Ring(slots: seq<Slot>, valid: seq<bool>, retained: seq<nat>)

  /** Which slot is consumed and from where, which is being filled, which is parked. */
  datatype Seat = Seat(active: Option<nat>, pending: Option<nat>, waiting: Option<nat>,
                       index: nat, fused: bool)

  /** The request in progress. `lookahead` is the projected row count of the fire in
      flight, `projectedCount` that of the last prepare. */
  datatype Flight = Flight(inFlight: bool, begun: bool, requestedOnce: bool,
                           ticks: nat, reported: bool,
                           fireStep: nat, lookahead: nat, projectedCount: nat)

  /** The state feed: latest measurement, its copy at the last begin, the projection. */
  datatype Feed = Feed(known: bool, latest: seq<real>, atFire: seq<real>,
                       projected: seq<real>, indices: seq<nat>)

  datatype Stats = Stats(
    fallbacks: nat, late: nat, completed: nat, emitted: nat, held: nat,
    prepared: nat, switches: nat, pruned: nat)

  /** What one projected fire promised: the measured state, the column map and the rows
      integrated, taken at controller step `step`. */
  datatype Plan = Plan(step: nat, measured: seq<real>, indices: seq<nat>, rows: seq<Row>)

  /** One seating of a chunk that was fired under projection. `emitted` are the actions
      handed out between the fire and the seating. `direct` says that the step clock stood
      still between begin and commit and that advance_step did not move it since, `parked`
      that the chunk had landed before its start step. */
  datatype Seating = Seating(
    indices: seq<nat>, measured: seq<real>, projected: seq<real>, emitted: seq<Row>,
    fireStep: nat, start: nat, step: nat, index: nat, direct: bool, parked: bool)

  /** History variables: nothing in the mode reads them. `landed` is every chunk retained
      for fusion since the last reset, `fusedAt` the step of the latest fusion. Of the
      latest fire: `sinceFire` are the actions handed out since, `direct` says that the
      step clock stood still between its begin and its commit, `advanced` that
      advance_step moved it later, `parked` that its chunk landed early. `taken` are the rows
      consumed since the latest projection, `overrun` those between the projection of the
      latest fire and the fire. */
  datatype Log = Log(
    landed: seq<Landed>, fusedAt: nat, plan: Plan, sinceFire: seq<Row>, direct: bool, advanced: bool, parked: bool,
    taken: nat, overrun: nat, seatings: seq<Seating>, fires: nat, failed: nat, dropped: nat, advances: nat)

  datatype State = State(
    ring: Ring, fusedRows: Chunk, seat: Seat, flight: Flight, step: nat,
    feed: Feed, held: Option<Row>, stats: Stats, log: Log)

  ghost predicate RowsOk(c: Config, rows: Chunk) {
    Rectangular(rows, c.chunkLength, c.actionDim)
  }

  ghost predicate InRange(o: Option<nat>, n: nat) { o.Some? ==> o.value < n }

  ghost predicate Distinct(r: seq<nat>) {
    forall i, j :: 0 <= i < j < |r| ==> r[i] != r[j]
  }

  /** Sizes, and: the retained list is duplicate-free and lists exactly the slots that
      are flagged valid. */
  ghost predicate RingOk(c: Config, ring: Ring) {
    && |ring.slots| == c.Slots() && |ring.valid| == |ring.slots|
    && (forall i :: 0 <= i < |ring.slots| ==> RowsOk(c, ring.slots[i].rows))
    && Distinct(ring.retained)
    && (forall i :: 0 <= i < |ring.retained| ==> ring.retained[i] < |ring.valid| && ring.valid[ring.retained[i]])
    && (forall p :: 0 <= p < |ring.valid| && ring.valid[p] ==> p in ring.retained)
    && (!c.Fuses() ==> ring.retained == [])
  }

  ghost predicate SeatOk(c: Config, seat: Seat) {
    && InRange(seat.active, c.Slots()) && InRange(seat.pending, c.Slots()) && InRange(seat.waiting, c.Slots())
    && (seat.active.Some? ==> seat.index < c.chunkLength)
    && (seat.fused ==> c.Fuses())
  }

  ghost predicate FeedOk(c: Config, feed: Feed) {
    && |feed.latest| == c.stateDim && |feed.atFire| == c.stateDim && |feed.projected| == c.stateDim
    && (feed.indices != [] ==> MapOk(c, feed.indices))
  }

  predicate MapOk(c: Config, indices: seq<nat>) {
    |indices| == c.stateDim && forall k :: 0 <= k < |indices| ==> indices[k] == UNMAPPED || indices[k] < c.actionDim
  }

  /** Slot ownership. At most one fire is in flight, and it excludes a begun request and
      a parked chunk; the slot in flight or parked is neither consumed nor retained. */
  ghost predicate Owned(c: Config, ring: Ring, seat: Seat, flight: Flight) {
    && (flight.inFlight && c.Chunked() ==> seat.pending.Some? && Spare(c, ring, seat, seat.pending.value))
    && (flight.inFlight ==> seat.waiting.None? && !flight.begun)
    && (flight.inFlight || seat.waiting.Some? || seat.active.Some? ==> flight.requestedOnce)
    && (seat.waiting.Some? ==> c.Projects() && !flight.begun && Spare(c, ring, seat, seat.waiting.value))
    && (c.Fuses() && seat.active.Some? ==> seat.fused)
    && (c.Fuses() && seat.active.Some? && c.ringSlots > 1 ==>
          ring.retained != [] && seat.active.value == ring.retained[|ring.retained| - 1])
  }

  /** A slot to fill: not retained, and not consumed unless it is the only one. */
  ghost predicate Spare(c: Config, ring: Ring, seat: Seat, slot: nat) {
    slot < c.Slots() && slot !in ring.retained && (seat.active == Some(slot) ==> c.ringSlots == 1)
  }

  /** What makes every verb well defined. */
  ghost predicate Shape(c: Config, s: State) {
    && RingOk(c, s.ring) && SeatOk(c, s.seat) && FeedOk(c, s.feed)
    && (c.Fuses() ==> RowsOk(c, s.fusedRows))
    && (s.held.Some? ==> c.miss.HoldLast?)
    && Owned(c, s.ring, s.seat, s.flight)
    && FeedReady(c, s.seat, s.feed)
  }

  /** Once a chunk was seated by state distance, the state feed keeps answering. */
  ghost predicate FeedReady(c: Config, seat: Seat, feed: Feed) {
    seat.active.Some? && c.switchMode.StateDistance? && !c.consume.Plain? ==> CanMap(c, feed)
  }

  // ---- executor replies ------------------------------------------------------

  /** Replies to one request: setting the model's state input, then submitting. */
  datatype RequestReply = RequestReply(setInput: int, submit: int)

  /** Reply to a query (0 ready, positive pending, negative failed) and, when ready, the
      reply to the read together with what the read left in the slot. */
  datatype LandReply = LandReply(query: int, read: int, data: Chunk)

  /** `first` answers a request made because nothing is consumable, `prefetch` the one
      made after an action was handed out. */
  datatype Env = Env(first: RequestReply, land: LandReply, prefetch: RequestReply)

  datatype Status = Idle | Pending | Ready | Fallback | Failed

  // ---- state feed ------------------------------------------------------------

  function Column(indices: seq<nat>, k: nat): nat
    requires indices == [] || k < |indices|
  {
    if indices == [] then k else indices[k]
  }

  /** Every column that a state dimension is mapped to exists in rows of width `dim`. */
  predicate Mapped(indices: seq<nat>, stateDim: nat, dim: nat) {
    if indices == [] then stateDim <= dim
    else |indices| == stateDim && forall k :: 0 <= k < |indices| ==> indices[k] == UNMAPPED || indices[k] < dim
  }

  /** The checks made before state dimensions are matched with action columns. */
  predicate CanMap(c: Config, feed: Feed) {
    feed.known && Mapped(feed.indices, c.stateDim, c.actionDim)
  }

  ghost predicate Width(rows: seq<Row>, dim: nat) {
    forall i :: 0 <= i < |rows| ==> |rows[i]| == dim
  }

  ghost function ColumnSum(rows: seq<Row>, dim: nat, col: nat): real
    requires Width(rows, dim) && col < dim
  {
    if rows == [] then 0.0 else ColumnSum(rows[..|rows| - 1], dim, col) + rows[|rows| - 1][col]
  }

  /** The state reached from `base` by executing `rows`: a mapped dimension gains the sum
      of its column, an unmapped one keeps its value. */
  ghost function Integrate(indices: seq<nat>, dim: nat, base: seq<real>, rows: seq<Row>): (r: seq<real>)
    requires Mapped(indices, |base|, dim) && Width(rows, dim)
    ensures |r| == |base|
  {
    seq(|base|, k requires 0 <= k < |base| =>
      var col := Column(indices, k);
      base[k] + if col < dim then ColumnSum(rows, dim, col) else 0.0)
  }

  /** The array that is being consumed. */
  ghost function Source(c: Config, s: State): (rows: Chunk)
    requires Shape(c, s) && s.seat.active.Some?
    ensures RowsOk(c, rows)
  {
    if s.seat.fused then s.fusedRows else s.ring.slots[s.seat.active.value].rows
  }

  /** The rows still to be consumed, in order. */
  ghost function Upcoming(c: Config, s: State): (rows: seq<Row>)
    requires Shape(c, s)
    ensures Width(rows, c.actionDim) && |rows| == Remaining(c, s.seat)
  {
    if s.seat.active.None? then [] else Source(c, s)[s.seat.index..]
  }

  function Remaining(c: Config, seat: Seat): nat {
    if seat.active.None? || seat.index >= c.chunkLength then 0 else c.chunkLength - seat.index
  }

  /** End of the projected window; the sum is taken in 32 bits. */
  function ProjectionEnd(c: Config, begin: nat): nat {
    var sum := (begin + c.lookahead) % UINT32;
    if sum > c.chunkLength then c.chunkLength else sum
  }

  /** Number of rows recorded as integrated, again in 32 bits. */
  function ProjectionCount(c: Config, begin: nat): nat {
    (ProjectionEnd(c, begin) - begin) % UINT32
  }

  /** The rows a projection integrates. */
  ghost function PlannedRows(c: Config, s: State): (rows: seq<Row>)
    requires Shape(c, s)
    ensures Width(rows, c.actionDim)
  {
    if s.seat.active.None? || ProjectionEnd(c, s.seat.index) < s.seat.index then []
    else Source(c, s)[s.seat.index..ProjectionEnd(c, s.seat.index)]
  }

  ghost function PrepareProjected(c: Config, s: State): (r: State)
    requires Shape(c, s) && CanMap(c, s.feed)
    ensures Shape(c, r) && r.flight.inFlight == s.flight.inFlight
  {
    var rows := PlannedRows(c, s);
    s.(feed := s.feed.(projected := Integrate(s.feed.indices, c.actionDim, s.feed.latest, rows)),
       flight := s.flight.(projectedCount :=
         if s.seat.active.None? then 0 else ProjectionCount(c, s.seat.index)),
       log := s.log.(plan := Plan(s.step, s.feed.latest, s.feed.indices, rows), taken := 0))
  }

  // ---- request ---------------------------------------------------------------

  ghost function Begin(c: Config, s: State, setInput: int): (r: (State, int))
    requires Shape(c, s)
    ensures Shape(c, r.0)
    ensures r.1 == CAP_OK ==> r.0.flight.begun
    ensures r.0.seat == s.seat
  {
    if !c.Usable() || s.flight.inFlight || s.seat.waiting.Some? then (s, CAP_ERR_ARG)
    else if s.flight.begun then (s, CAP_OK)
    else Prepared(c, Snapshot(c, s), setInput)
  }

  /** Copy the measurement aside. */
  ghost function Snapshot(c: Config, s: State): (r: State)
    requires Shape(c, s)
    ensures Shape(c, r) && r.flight == s.flight && r.seat == s.seat
  {
    if c.stateDim != 0 && s.feed.known then s.(feed := s.feed.(atFire := s.feed.latest)) else s
  }

  /** Prepare, then set the model's state input. */
  ghost function Prepared(c: Config, s: State, setInput: int): (r: (State, int))
    requires Shape(c, s) && !s.flight.inFlight && s.seat.waiting.None?
    ensures Shape(c, r.0)
    ensures r.1 == CAP_OK ==> r.0.flight.begun
    ensures r.0.seat == s.seat
  {
    if !c.Projects() then (Begun(s), CAP_OK)
    else if !CanMap(c, s.feed) then (s, CAP_ERR_ARG)
    else if c.stateInputPort && setInput != CAP_OK then (PrepareProjected(c, s), setInput)
    else (Begun(PrepareProjected(c, s)), CAP_OK)
  }

  ghost function Begun(s: State): State {
    s.(flight := s.flight.(begun := true), stats := s.stats.(prepared := s.stats.prepared + 1))
  }

  /** The lowest slot that holds no retained chunk, or the number of slots. */
  function FirstFree(valid: seq<bool>): (n: nat)
    ensures n <= |valid|
    ensures forall i :: 0 <= i < n ==> valid[i]
    ensures n < |valid| ==> !valid[n]
  {
    if valid == [] || !valid[0] then 0 else 1 + FirstFree(valid[1..])
  }

  /** Drop the oldest retained chunk. */
  ghost function Evict(c: Config, ring: Ring): (r: Ring)
    requires RingOk(c, ring) && ring.retained != []
    ensures RingOk(c, r) && r.slots == ring.slots && r.retained == ring.retained[1..]
    ensures ring.retained[0] !in r.retained
  {
    Ring(ring.slots, ring.valid[ring.retained[0] := false], ring.retained[1..])
  }

  /** Fire into the slot of the oldest retained chunk. */
  ghost function Reuse(c: Config, s: State): (r: State)
    requires Shape(c, s) && c.Fuses() && !s.flight.inFlight && s.seat.waiting.None?
    requires s.ring.retained != [] && |s.ring.retained| == |s.ring.slots|
    ensures Shape(c, r) && r.flight == s.flight
    ensures r.seat == s.seat.(pending := Some(s.ring.retained[0])) && Spare(c, r.ring, r.seat, s.ring.retained[0])
  {
    s.(seat := s.seat.(pending := Some(s.ring.retained[0])), ring := Evict(c, s.ring),
       stats := s.stats.(pruned := s.stats.pruned + 1))
  }

  /** Choose the slot to fire into, evicting the oldest retained chunk if none is free. */
  ghost function PickSlot(c: Config, s: State): (r: State)
    requires Accepted(c) && Shape(c, s) && c.Chunked() && !s.flight.inFlight && s.seat.waiting.None?
    ensures Shape(c, r) && r.flight == s.flight
    ensures r.seat.pending.Some? && Spare(c, r.ring, r.seat, r.seat.pending.value)
    ensures r.seat.active == s.seat.active && r.seat.waiting == s.seat.waiting
  {
    if c.Fuses() then
      var free := FirstFree(s.ring.valid);
      if free < |s.ring.valid| then s.(seat := s.seat.(pending := Some(free)))
      else
        FullRing(c, s.ring);
        Reuse(c, s)
    else
      s.(seat := s.seat.(pending := Some(
        if s.seat.active.None? then 0 else (s.seat.active.value + 1) % c.ringSlots)))
  }

  /** When every slot is flagged, the retained list holds them all. */
  lemma FullRing(c: Config, ring: Ring)
    requires RingOk(c, ring) && forall p :: 0 <= p < |ring.valid| ==> ring.valid[p]
    ensures |ring.retained| == |ring.slots|
  {
    DistinctSize(ring.retained);
    BelowSize(|ring.valid|, Elements(ring.retained));
  }

  ghost function Below(n: nat): (r: set<nat>)
    ensures forall p: nat :: p in r <==> p < n
  {
    if n == 0 then {} else Below(n - 1) + {n - 1}
  }

  lemma {:induction false} BelowSize(n: nat, r: set<nat>)
    requires Below(n) <= r && forall p :: p in r ==> p < n
    ensures |r| == n
  {
    if n > 0 {
      BelowSize(n - 1, r - {n - 1});
      assert r == (r - {n - 1}) + {n - 1};
    } else {
      assert r == {};
    }
  }

  ghost function Elements(r: seq<nat>): set<nat> {
    set x: nat | x in r
  }

  lemma {:induction false} DistinctSize(r: seq<nat>)
    requires Distinct(r)
    ensures |Elements(r)| == |r|
  {
    if r != [] {
      var init, last := r[..|r| - 1], r[|r| - 1];
      DistinctSize(init);
      assert r == init + [last];
      assert last !in Elements(init);
      assert Elements(r) == Elements(init) + {last};
    }
  }

  /** The part of a commit after the prepare step: choose a slot, submit, stamp. */
  ghost function Launch(c: Config, s: State, submit: int): (r: (State, int))
    requires Accepted(c) && Shape(c, s) && !s.flight.inFlight && s.seat.waiting.None?
    ensures Shape(c, r.0)
    ensures r.1 == CAP_OK ==> r.0.flight.inFlight
    ensures r.0.seat.active == s.seat.active && r.0.seat.waiting == s.seat.waiting
  {
    var s1 := s.(flight := s.flight.(begun := false));
    var s2 := if c.Chunked() then PickSlot(c, s1) else s1;
    if submit != CAP_OK then (s2.(seat := s2.seat.(pending := None)), submit)
    else (Stamp(c, s2), CAP_OK)
  }

  ghost function StampSlot(ring: Ring, slot: Option<nat>, step: nat): (r: Ring)
    requires InRange(slot, |ring.slots|)
  {
    if slot.None? then ring
    else ring.(slots := ring.slots[slot.value := ring.slots[slot.value].(fireStep := step)])
  }

  ghost function Stamp(c: Config, s: State): (r: State)
    requires Shape(c, s) && s.seat.waiting.None? && !s.flight.begun
    requires c.Chunked() ==> s.seat.pending.Some? && Spare(c, s.ring, s.seat, s.seat.pending.value)
    ensures Shape(c, r)
    ensures r.seat == s.seat
  {
    s.(ring := StampSlot(s.ring, s.seat.pending, s.step),
       flight := s.flight.(inFlight := true, requestedOnce := true, ticks := 0, reported := false,
                           fireStep := s.step,
                           lookahead := if c.Projects() then s.flight.projectedCount else 0),
       log := s.log.(fires := s.log.fires + 1, sinceFire := [],
                     direct := s.log.plan.step == s.step, advanced := false, parked := false,
                     overrun := s.log.taken))
  }

  ghost function Commit(c: Config, s: State, reply: RequestReply): (r: (State, int))
    requires Accepted(c) && Shape(c, s)
    ensures Shape(c, r.0)
    ensures r.1 == CAP_OK ==> r.0.flight.inFlight
    ensures r.0.seat.active == s.seat.active && r.0.seat.waiting == s.seat.waiting
  {
    var (s1, rc) := if s.flight.begun then (s, CAP_OK) else Begin(c, s, reply.setInput);
    if rc != CAP_OK then (s1, rc) else Launch(c, s1, reply.submit)
  }

  // ---- seating ---------------------------------------------------------------

  function LatencyIndex(c: Config, step: nat, start: nat): (i: nat)
    requires c.chunkLength > 0
    ensures i < c.chunkLength
  {
    var idx := step - start + c.switchOffset;
    if idx < 0 then 0 else if idx > c.chunkLength - 1 then c.chunkLength - 1 else idx
  }

  /** The state that row i of `rows` implies for dimension k. */
  ghost function Estimate(c: Config, feed: Feed, rows: Chunk, i: nat, k: nat): real
    requires FeedOk(c, feed) && CanMap(c, feed) && RowsOk(c, rows) && i < |rows| && k < c.stateDim
    requires Column(feed.indices, k) < c.actionDim
  {
    var col := Column(feed.indices, k);
    match c.representation
    case Absolute => rows[i][col]
    case DeltaFromStart => feed.atFire[k] + rows[i][col]
    case DeltaCumulative => feed.atFire[k] + ColumnSum(rows[..i + 1], c.actionDim, col)
  }

  /** Distance of row i to the measured state over the first n dimensions. The l2 form
      is left squared: the square root does not change which row is nearest. */
  ghost function RowDistance(c: Config, feed: Feed, rows: Chunk, i: nat, n: nat): real
    requires FeedOk(c, feed) && CanMap(c, feed) && RowsOk(c, rows) && i < |rows| && n <= c.stateDim
  {
    if n == 0 then 0.0
    else
      var rest := RowDistance(c, feed, rows, i, n - 1);
      if Column(feed.indices, n - 1) >= c.actionDim then rest
      else
        var diff := Estimate(c, feed, rows, i, n - 1) - feed.latest[n - 1];
        rest + (if c.squaredDistance then diff * diff else if diff < 0.0 then -diff else diff)
  }

  /** The first of the rows before n that is nearest to the measured state. */
  ghost function Nearest(c: Config, feed: Feed, rows: Chunk, n: nat): (best: nat)
    requires FeedOk(c, feed) && CanMap(c, feed) && RowsOk(c, rows) && 0 < n <= |rows|
    ensures best < n
    ensures forall j :: 0 <= j < n ==>
      RowDistance(c, feed, rows, best, c.stateDim) <= RowDistance(c, feed, rows, j, c.stateDim)
    ensures forall j :: 0 <= j < best ==>
      RowDistance(c, feed, rows, best, c.stateDim) < RowDistance(c, feed, rows, j, c.stateDim)
  {
    if n == 1 then 0
    else
      var b := Nearest(c, feed, rows, n - 1);
      if RowDistance(c, feed, rows, n - 1, c.stateDim) < RowDistance(c, feed, rows, b, c.stateDim)
      then n - 1 else b
  }

  /** Index to seat a chunk at, or nothing when the state feed cannot answer. */
  ghost function SeatIndex(c: Config, s: State, rows: Chunk, start: nat): (i: Option<nat>)
    requires FeedOk(c, s.feed) && RowsOk(c, rows) && c.chunkLength > 0
    ensures InRange(i, c.chunkLength)
  {
    if c.switchMode.StateDistance? then
      if CanMap(c, s.feed) then Some(Nearest(c, s.feed, rows, c.chunkLength)) else None
    else Some(LatencyIndex(c, s.step, start))
  }

  /** Make `slot` the consumed chunk. */
  ghost function Consumed(c: Config, s: State, slot: nat, index: nat, fused: bool): State
    requires slot < |s.ring.slots|
  {
    s.(seat := Seat(Some(slot), None, None, index, fused),
       log := if c.Projects() then Recorded(s, slot, index) else s.log)
  }

  ghost function Recorded(s: State, slot: nat, index: nat): Log
    requires slot < |s.ring.slots|
  {
    var l := s.log;
    l.(seatings := l.seatings + [Seating(
      l.plan.indices, l.plan.measured, s.feed.projected, l.sinceFire,
      s.flight.fireStep, s.ring.slots[slot].startStep, s.step, index, l.direct && !l.advanced, l.parked)])
  }

  predicate Expired(c: Config, slots: seq<Slot>, step: nat, slot: nat)
    requires slot < |slots|
  {
    slots[slot].startStep + c.chunkLength <= step
  }

  ghost predicate Listed(slots: seq<Slot>, r: seq<nat>) {
    forall i :: 0 <= i < |r| ==> r[i] < |slots|
  }

  /** The slots of `r` whose chunk still reaches past the current step. */
  ghost function Unexpired(c: Config, slots: seq<Slot>, step: nat, r: seq<nat>): (keep: seq<nat>)
    requires Listed(slots, r)
    ensures |keep| <= |r|
  {
    if r == [] then []
    else
      var last := r[|r| - 1];
      Unexpired(c, slots, step, r[..|r| - 1]) + (if Expired(c, slots, step, last) then [] else [last])
  }

  lemma {:induction false} UnexpiredMembers(c: Config, slots: seq<Slot>, step: nat, r: seq<nat>)
    requires Listed(slots, r) && Distinct(r)
    ensures Distinct(Unexpired(c, slots, step, r))
    ensures forall i :: 0 <= i < |Unexpired(c, slots, step, r)| ==>
      Unexpired(c, slots, step, r)[i] in r && !Expired(c, slots, step, Unexpired(c, slots, step, r)[i])
    ensures forall p :: p in r && !Expired(c, slots, step, p) ==> p in Unexpired(c, slots, step, r)
  {
    if r != [] {
      UnexpiredMembers(c, slots, step, r[..|r| - 1]);
    }
  }

  /** Drop the retained chunks that end at or before `step`. */
  ghost function Prune(c: Config, ring: Ring, step: nat): (r: Ring)
    requires RingOk(c, ring)
    ensures RingOk(c, r) && r.slots == ring.slots
    ensures forall p :: p in r.retained ==> p in ring.retained
  {
    UnexpiredMembers(c, ring.slots, step, ring.retained);
    Ring(ring.slots,
         seq(|ring.valid|, i requires 0 <= i < |ring.valid| => ring.valid[i] && !Expired(c, ring.slots, step, i)),
         Unexpired(c, ring.slots, step, ring.retained))
  }

  /** Add `slot` as the newest retained chunk. */
  ghost function Append(c: Config, ring: Ring, slot: nat): (r: Ring)
    requires RingOk(c, ring) && c.Fuses() && slot < |ring.slots| && slot !in ring.retained
    ensures RingOk(c, r) && r.slots == ring.slots
  {
    Ring(ring.slots, ring.valid[slot := true], ring.retained + [slot])
  }

  /** The chunks of the listed slots, in the order listed. */
  ghost function Chunks(slots: seq<Slot>, r: seq<nat>): (h: seq<Landed>)
    requires Listed(slots, r)
    ensures |h| == |r|
  {
    seq(|r|, j requires 0 <= j < |r| => Landed(slots[r[j]].startStep, slots[r[j]].rows))
  }

  ghost predicate LandedOk(c: Config, h: seq<Landed>) {
    AllRectangular(h, c.chunkLength, c.actionDim)
  }

  /** Row i of the window that begins where the newest chunk of `h` starts: the weighted
      mean over the newest fusionMax chunks of `h` that cover step start + i. */
  ghost function FusedRow(c: Config, h: seq<Landed>, i: nat): (row: Row)
    requires FusionOk(c) && LandedOk(c, h) && h != [] && i < c.chunkLength
    ensures |row| == c.actionDim
  {
    var start := h[|h| - 1].start;
    NewestFusable(h, start + i, c.chunkLength, c.fusionMax, c.actionDim);
    Mean(Newest(h, start + i, c.chunkLength, c.fusionMax), start, start + i,
         c.chunkLength, c.actionDim, c.weights)
  }

  ghost function FusedWindow(c: Config, h: seq<Landed>): (rows: Chunk)
    requires FusionOk(c) && LandedOk(c, h) && h != []
    ensures RowsOk(c, rows)
  {
    seq(c.chunkLength, i requires 0 <= i < c.chunkLength => FusedRow(c, h, i))
  }

  /** Retain the chunk in `slot`: prune at the current step, then append. */
  ghost function Retain(c: Config, s: State, slot: nat): (r: State)
    requires RingOk(c, s.ring) && c.Fuses() && slot < |s.ring.slots| && slot !in s.ring.retained
    ensures RingOk(c, r.ring) && r.ring.retained != [] && r.ring.retained[|r.ring.retained| - 1] == slot
    ensures r.ring.slots == s.ring.slots
  {
    Appended(c, Pruned(c, s), slot)
  }

  ghost function Pruned(c: Config, s: State): (r: State)
    requires RingOk(c, s.ring)
  {
    var kept := Prune(c, s.ring, s.step);
    s.(ring := kept, stats := s.stats.(pruned := s.stats.pruned + (|s.ring.retained| - |kept.retained|)))
  }

  ghost function Appended(c: Config, s: State, slot: nat): (r: State)
    requires RingOk(c, s.ring) && c.Fuses() && slot < |s.ring.slots| && slot !in s.ring.retained
  {
    s.(ring := Append(c, s.ring, slot),
       log := s.log.(landed := s.log.landed + [Landed(s.ring.slots[slot].startStep, s.ring.slots[slot].rows)],
                     fusedAt := s.step))
  }

  /** Retain the chunk in `slot` and fuse everything retained on its window. */
  ghost function RetainAndFuse(c: Config, s: State, slot: nat): (r: State)
    requires FusionOk(c) && RingOk(c, s.ring) && c.Fuses() && slot < |s.ring.slots| && slot !in s.ring.retained
    ensures RingOk(c, r.ring) && RowsOk(c, r.fusedRows) && r.seat == s.seat && r.flight == s.flight
    ensures r.ring.slots == s.ring.slots && r.feed == s.feed && r.held == s.held
    ensures r.ring.retained == Unexpired(c, s.ring.slots, s.step, s.ring.retained) + [slot]
  {
    var s1 := Retain(c, s, slot);
    s1.(fusedRows := FusedWindow(c, Chunks(s1.ring.slots, s1.ring.retained)))
  }

  /** Retain, fuse and seat `slot`. When the state feed cannot answer, the chunk stays
      retained and the fused rows are rewritten, but nothing is seated. */
  ghost function SeatFusion(c: Config, s: State, slot: nat): (r: (State, bool))
    requires Accepted(c) && Shape(c, s) && c.Fuses()
    requires !s.flight.inFlight && s.flight.requestedOnce && s.seat.waiting.None?
    requires slot < |s.ring.slots| && slot !in s.ring.retained
    ensures Shape(c, r.0) && !r.0.flight.inFlight
    ensures r.1 ==> r.0.seat.active.Some?
    ensures c.switchMode.Latency? ==> r.1
    ensures !r.1 ==> r.0.seat.active == s.seat.active && r.0.seat.waiting == s.seat.waiting
  {
    var s1 := RetainAndFuse(c, s, slot);
    var index := SeatIndex(c, s1, s1.fusedRows, s.ring.slots[slot].startStep);
    if index.None? then (s1.(seat := s1.seat.(pending := None)), false)
    else (Consumed(c, s1, slot, index.value, true), true)
  }

  ghost function SeatSwitch(c: Config, s: State, slot: nat): (r: (State, bool))
    requires Shape(c, s) && c.Chunked() && !c.Fuses()
    requires !s.flight.inFlight && s.flight.requestedOnce && s.seat.waiting.None?
    requires slot < |s.ring.slots|
    ensures Shape(c, r.0) && !r.0.flight.inFlight
    ensures r.1 ==> r.0.seat.active.Some?
    ensures !r.1 ==> r.0.seat.active == s.seat.active && r.0.seat.waiting == s.seat.waiting
  {
    var index := SeatIndex(c, s, s.ring.slots[slot].rows, s.ring.slots[slot].startStep);
    if index.None? then (s.(seat := s.seat.(pending := None)), false)
    else (Consumed(c, s, slot, index.value, false), true)
  }

  /** Index of the current step in a chunk that starts at `start`, at most the last row. */
  function ElapsedIndex(c: Config, step: nat, start: nat): (i: nat)
    requires start <= step && c.chunkLength > 0
    ensures i < c.chunkLength
  {
    if step - start > c.chunkLength - 1 then c.chunkLength - 1 else step - start
  }

  /** Park a chunk that landed before its start step. */
  ghost function Park(s: State, slot: nat): State {
    s.(seat := s.seat.(waiting := Some(slot), pending := None), log := s.log.(parked := true))
  }

  /** Dispatch of a landed chunk to the configured seating. */
  ghost function SeatLanded(c: Config, s: State, slot: nat): (r: (State, bool))
    requires Accepted(c) && Shape(c, s) && c.Chunked() && Spare(c, s.ring, s.seat, slot)
    requires !s.flight.inFlight && !s.flight.begun && s.flight.requestedOnce && s.seat.waiting.None?
    ensures Shape(c, r.0) && !r.0.flight.inFlight
    ensures r.1 ==> r.0.seat.active.Some? || r.0.seat.waiting.Some?
    ensures !r.1 ==> r.0.seat.active == s.seat.active && r.0.seat.waiting == s.seat.waiting
  {
    var start := s.ring.slots[slot].startStep;
    if c.Projects() && s.step < start then (Park(s, slot), true)
    else if c.Fuses() then SeatFusion(c, s, slot)
    else if c.Projects() then (Consumed(c, s, slot, ElapsedIndex(c, s.step, start), false), true)
    else if c.consume.Switch? then SeatSwitch(c, s, slot)
    else (Consumed(c, s, slot, 0, false), true)
  }

  // ---- completion ------------------------------------------------------------

  /** Give up the fire in flight; the pending slot number is left behind. */
  ghost function Abort(s: State): State {
    s.(flight := s.flight.(inFlight := false), log := s.log.(failed := s.log.failed + 1))
  }

  /** What a read leaves in `slot`. */
  ghost function Store(c: Config, ring: Ring, slot: nat, rows: Chunk): (r: Ring)
    requires RingOk(c, ring) && slot < |ring.slots| && RowsOk(c, rows)
    ensures RingOk(c, r)
  {
    ring.(slots := ring.slots[slot := ring.slots[slot].(rows := rows)])
  }

  /** Chunks are anchored at their fire step, projected ones further ahead. */
  ghost function Anchor(c: Config, ring: Ring, slot: nat, lookahead: nat): (r: Ring)
    requires RingOk(c, ring) && slot < |ring.slots|
    ensures RingOk(c, r)
  {
    ring.(slots := ring.slots[slot := ring.slots[slot].(startStep := ring.slots[slot].fireStep + lookahead)])
  }

  ghost function CountLate(s: State): State {
    if s.flight.reported then s.(stats := s.stats.(late := s.stats.late + 1)) else s
  }

  /** The chunk in flight has been read into its slot. */
  ghost function Arrived(c: Config, s: State, rows: Chunk): (r: State)
    requires Shape(c, s) && s.flight.inFlight && c.Chunked() && RowsOk(c, rows)
    ensures Shape(c, r) && !r.flight.inFlight && !r.flight.begun && r.flight.requestedOnce
    ensures r.seat.waiting.None? && Spare(c, r.ring, r.seat, s.seat.pending.value)
  {
    var p := s.seat.pending.value;
    s.(ring := Anchor(c, Store(c, s.ring, p, rows), p, s.flight.lookahead),
       flight := s.flight.(inFlight := false),
       seat := s.seat.(pending := None),
       stats := if s.seat.active.Some? then s.stats.(switches := s.stats.switches + 1) else s.stats)
  }

  /** The executor handed over the chunk: read it, then seat it. */
  ghost function Land(c: Config, s: State, land: LandReply): (r: (State, Status))
    requires Accepted(c) && Shape(c, s) && s.flight.inFlight && c.Chunked() && RowsOk(c, land.data)
    ensures Shape(c, r.0) && !r.0.flight.inFlight
    ensures r.1.Ready? ==> r.0.seat.active.Some? || r.0.seat.waiting.Some?
    ensures !r.1.Ready? ==> r.0.seat.active == s.seat.active && r.0.seat.waiting == s.seat.waiting
  {
    if land.read != CAP_OK then (ReadFailed(c, s, land.data), Failed) else TakeIn(c, s, land.data)
  }

  /** A read that failed may have overwritten the slot. */
  ghost function ReadFailed(c: Config, s: State, rows: Chunk): (r: State)
    requires Shape(c, s) && s.flight.inFlight && c.Chunked() && RowsOk(c, rows)
    ensures Shape(c, r) && !r.flight.inFlight
    ensures r.seat.active == s.seat.active && r.seat.waiting == s.seat.waiting
  {
    Abort(s.(ring := Store(c, s.ring, s.seat.pending.value, rows), seat := s.seat.(pending := None)))
  }

  /** The chunk has been read: seat it, and count the fire as completed or failed. */
  ghost function TakeIn(c: Config, s: State, rows: Chunk): (r: (State, Status))
    requires Accepted(c) && Shape(c, s) && s.flight.inFlight && c.Chunked() && RowsOk(c, rows)
    ensures Shape(c, r.0) && !r.0.flight.inFlight
    ensures r.1.Ready? ==> r.0.seat.active.Some? || r.0.seat.waiting.Some?
    ensures !r.1.Ready? ==> r.0.seat.active == s.seat.active && r.0.seat.waiting == s.seat.waiting
  {
    var (s1, ok) := SeatLanded(c, Arrived(c, s, rows), s.seat.pending.value);
    if ok then (Completed(s1), Ready) else (Abort(s1), Failed)
  }

  ghost function Completed(s: State): State {
    s.(flight := s.flight.(inFlight := false, ticks := 0, reported := false),
       stats := s.stats.(completed := s.stats.completed + 1))
  }

  ghost function Poll(c: Config, s: State, land: LandReply): (r: (State, Status))
    requires Accepted(c) && Shape(c, s) && RowsOk(c, land.data)
    ensures Shape(c, r.0)
    ensures r.1.Ready? && c.Chunked() ==> r.0.seat.active.Some? || r.0.seat.waiting.Some?
    ensures !r.1.Ready? ==> r.0.seat.active == s.seat.active && r.0.seat.waiting == s.seat.waiting
  {
    if !c.Usable() then (s, Failed)
    else if !s.flight.inFlight then (s, Idle)
    else if land.query == 0 then
      if c.Chunked() then Land(c, CountLate(s), land) else (Completed(CountLate(s)), Ready)
    else if land.query < 0 then (Abort(s), Failed)
    else Waited(c, s)
  }

  /** A pending poll; an overrun of either clock is reported once per fire. */
  ghost function Waited(c: Config, s: State): (State, Status) {
    var s1 := s.(flight := s.flight.(ticks := s.flight.ticks + 1));
    if Overdue(c, s1) && !s1.flight.reported then
      (s1.(flight := s1.flight.(reported := true),
           stats := s1.stats.(fallbacks := s1.stats.fallbacks + 1)), Fallback)
    else (s1, Pending)
  }

  predicate Overdue(c: Config, s: State) {
    || (c.pollBudget >= 0 && s.flight.ticks > c.pollBudget)
    || (c.deadlineSteps > 0 && s.step - s.flight.fireStep > c.deadlineSteps)
  }

  // ---- consumption -----------------------------------------------------------

  /** Seat a parked chunk once its start step has come. */
  ghost function Promote(c: Config, s: State): (r: State)
    requires Accepted(c) && Shape(c, s)
    ensures Shape(c, r)
    ensures s.seat.waiting.Some? ==> r.seat.waiting.Some? || r.seat.active.Some?
    ensures s.seat.active.Some? ==> r.seat.active.Some?
    ensures s.seat.waiting.None? ==> r == s
  {
    if s.seat.waiting.None? || s.step < s.ring.slots[s.seat.waiting.value].startStep then s
    else
      var w := s.seat.waiting.value;
      if c.Fuses() then SeatFusion(c, s.(seat := s.seat.(waiting := None)), w).0
      else Consumed(c, s, w, ElapsedIndex(c, s.step, s.ring.slots[w].startStep), false)
  }

  /** Hand out the held action again. */
  ghost function EmitHeld(s: State): State
    requires s.held.Some?
  {
    s.(step := s.step + 1,
       stats := s.stats.(emitted := s.stats.emitted + 1, held := s.stats.held + 1),
       log := s.log.(sinceFire := s.log.sinceFire + [s.held.value]))
  }

  /** Hand out the current row. */
  ghost function EmitActive(c: Config, s: State): (r: State)
    requires Shape(c, s) && s.seat.active.Some?
    ensures Shape(c, r)
  {
    PassedRow(c, s, Source(c, s)[s.seat.index])
  }

  /** Step past the current row, which was `row`. */
  ghost function PassedRow(c: Config, s: State, row: Row): State {
    MovedOn(c, Remembered(c, s, row))
  }

  ghost function Remembered(c: Config, s: State, row: Row): State {
    s.(held := if c.miss.HoldLast? then Some(row) else s.held,
       log := s.log.(sinceFire := s.log.sinceFire + [row], taken := s.log.taken + 1))
  }

  ghost function MovedOn(c: Config, s: State): State {
    s.(seat := if s.seat.index + 1 >= c.chunkLength then s.seat.(active := None, index := 0)
               else s.seat.(index := s.seat.index + 1),
       step := s.step + 1,
       stats := s.stats.(emitted := s.stats.emitted + 1))
  }

  predicate WantsPrefetch(c: Config, s: State) {
    && !c.external && s.seat.active.Some? && !s.flight.inFlight && s.seat.waiting.None?
    && Remaining(c, s.seat) <= c.executeHorizon
  }

  /** The result of one control tick: the state, the status, and the row that was
      written to the caller's buffer, if any. */
  datatype Tick = Tick(state: State, status: Status, row: Option<Row>)

  /** Serve a miss: repeat the held action if the miss policy has one. `fits` says that
      the caller's buffer can take one action. */
  ghost function Missed(s: State, status: Status, fits: bool): Tick {
    if s.held.None? then Tick(s, status, None)
    else if !fits then Tick(s, Failed, None)
    else Tick(EmitHeld(s), Fallback, s.held)
  }

  ghost function Serve(c: Config, s: State, env: Env, fits: bool): (r: Tick)
    requires Accepted(c) && Shape(c, s) && s.seat.active.Some?
    ensures Shape(c, r.state)
  {
    if !fits then Tick(s, Failed, None)
    else
      var s1 := EmitActive(c, s);
      Tick(if WantsPrefetch(c, s1) then Commit(c, s1, env.prefetch).0 else s1,
           Ready, Some(Source(c, s)[s.seat.index]))
  }

  /** Nothing is active, the parked chunk's start step has not come: serve the gap. */
  ghost function Gap(c: Config, s: State, fits: bool): (r: Tick)
    requires Accepted(c) && Shape(c, s)
    ensures Shape(c, r.state)
  {
    var t := Missed(s, Fallback, fits);
    if t.row.Some? then t.(state := Promote(c, t.state)) else t
  }

  /** Nothing is consumable or parked: make sure a fire is in flight, then query it.
      No status means that the request failed. */
  ghost function Fetch(c: Config, s: State, env: Env): (r: (State, Option<Status>))
    requires Accepted(c) && Shape(c, s) && c.Chunked() && RowsOk(c, env.land.data)
    ensures Shape(c, r.0)
    ensures r.1 == Some(Ready) ==> r.0.seat.active.Some? || r.0.seat.waiting.Some?
    ensures r.1 != Some(Ready) ==> r.0.seat.active == s.seat.active && r.0.seat.waiting == s.seat.waiting
  {
    var (s1, rc) := if !s.flight.inFlight && !c.external then Commit(c, s, env.first) else (s, CAP_OK);
    if rc != CAP_OK then (s1, None)
    else
      var (s2, status) := Poll(c, s1, env.land);
      (s2, Some(status))
  }

  /** One control tick. */
  ghost function Next(c: Config, s: State, env: Env, fits: bool): (r: Tick)
    requires Accepted(c) && Shape(c, s) && RowsOk(c, env.land.data)
    ensures Shape(c, r.state)
    decreases if s.seat.active.None? && s.seat.waiting.None? then 1 else 0
  {
    if !c.Chunked() then Tick(s, Failed, None)
    else
      var s1 := Promote(c, s);
      if s1.seat.active.Some? then Serve(c, s1, env, fits)
      else if s1.seat.waiting.Some? then Gap(c, s1, fits)
      else
        var (s2, status) := Fetch(c, s1, env);
        if status.None? then Tick(s2, Failed, None)
        else if status.value.Ready? then Next(c, s2, env, fits)
        else Missed(s2, status.value, fits)
  }

  /** The state that a tick serves from: with a parked chunk promoted if it is due, and if
      nothing is consumable or parked, after the fetch. */
  ghost function Serving(c: Config, s: State, env: Env): (r: State)
    requires Accepted(c) && Shape(c, s) && RowsOk(c, env.land.data)
    ensures Shape(c, r)
  {
    var s1 := Promote(c, s);
    if !c.Chunked() || s1.seat.active.Some? || s1.seat.waiting.Some? then s1
    else Promote(c, Fetch(c, s1, env).0)
  }

  // ---- the other verbs and whole runs ----------------------------------------

  ghost function Advance(s: State): State {
    s.(step := s.step + 1, log := s.log.(advances := s.log.advances + 1, advanced := true))
  }

  /** Explicit blocking wait: fire if nothing is in flight, sync, then query. */
  ghost function Sync(c: Config, s: State, reply: RequestReply, sync: int, land: LandReply): (r: (State, Status))
    requires Accepted(c) && Shape(c, s) && RowsOk(c, land.data)
    ensures Shape(c, r.0)
  {
    if !c.Usable() || (!s.flight.inFlight && c.external) then (s, Failed)
    else
      var (s1, rc) := if s.flight.inFlight then (s, CAP_OK) else Commit(c, s, reply);
      if rc != CAP_OK then (s1, Failed) else Synced(c, s1, sync, land)
  }

  /** The rest of a blocking wait once a fire is in flight. */
  ghost function Synced(c: Config, s: State, sync: int, land: LandReply): (r: (State, Status))
    requires Accepted(c) && Shape(c, s) && RowsOk(c, land.data)
    ensures Shape(c, r.0)
  {
    if sync != CAP_OK then (Abort(s), Failed) else Poll(c, s, land)
  }

  ghost function SetState(c: Config, s: State, x: seq<real>): (r: (State, int))
    requires Shape(c, s)
    ensures Shape(c, r.0)
  {
    if c.stateDim == 0 || |x| != c.stateDim then (s, CAP_ERR_ARG)
    else (s.(feed := s.feed.(latest := x, known := true)), CAP_OK)
  }

  /** Each state dimension names a distinct column or UNMAPPED, and one is mapped. */
  predicate IndicesOk(c: Config, x: seq<nat>) {
    && |x| == c.stateDim && MapOk(c, x)
    && (exists i :: 0 <= i < |x| && x[i] != UNMAPPED)
    && (forall i, j :: 0 <= i < j < |x| && x[i] != UNMAPPED ==> x[i] != x[j])
  }

  ghost function SetIndices(c: Config, s: State, x: seq<nat>): (r: (State, int))
    requires Shape(c, s)
    ensures Shape(c, r.0)
  {
    if s.flight.requestedOnce || x == [] || !IndicesOk(c, x) then (s, CAP_ERR_ARG)
    else (s.(feed := s.feed.(indices := x)), CAP_OK)
  }

  ghost function Reset(c: Config, s: State): (r: State)
    requires Shape(c, s)
    ensures Shape(c, r)
  {
    Cleared(s)
  }

  /** Chunks, requests and the held action are dropped; step, state feed and counters stay. */
  ghost function Cleared(s: State): State {
    s.(ring := Ring(s.ring.slots, seq(|s.ring.valid|, _ => false), []),
       seat := Seat(None, None, None, 0, false),
       flight := s.flight.(inFlight := false, begun := false, ticks := 0, reported := false),
       held := None,
       log := s.log.(landed := [], dropped := s.log.dropped + if s.flight.inFlight then 1 else 0))
  }

  ghost function Zeros(n: nat): seq<real> { seq(n, _ => 0.0) }

  ghost function ZeroChunk(c: Config): (rows: Chunk)
    ensures RowsOk(c, rows)
  {
    seq(c.chunkLength, _ => Zeros(c.actionDim))
  }

  ghost function Init(c: Config): (s: State)
    requires Accepted(c)
    ensures Shape(c, s)
  {
    var zero := Zeros(c.stateDim);
    State(
      Ring(seq(c.Slots(), _ => Slot(ZeroChunk(c), 0, 0)), seq(c.Slots(), _ => false), []),
      ZeroChunk(c), Seat(None, None, None, 0, false),
      Flight(false, false, false, 0, false, 0, 0, 0), 0,
      Feed(false, zero, zero, zero, []), None, Stats(0, 0, 0, 0, 0, 0, 0, 0),
      Log([], 0, Plan(0, zero, [], []), [], false, false, false, 0, 0, [], 0, 0, 0, 0))
  }

  /** One call by the embedder, with the executor replies it meets. */
  datatype Op =
    | BeginOp(setInput: int)
    | CommitOp(reply: RequestReply)
    | PollOp(land: LandReply)
    | NextOp(env: Env, fits: bool)
    | AdvanceOp
    | SyncOp(reply: RequestReply, sync: int, land: LandReply)
    | SetStateOp(x: seq<real>)
    | SetIndicesOp(indices: seq<nat>)
    | ResetOp

  /** A read fills the slot's fixed-size buffer. */
  ghost predicate OpOk(c: Config, op: Op) {
    match op
    case PollOp(land) => RowsOk(c, land.data)
    case NextOp(env, _) => RowsOk(c, env.land.data)
    case SyncOp(_, _, land) => RowsOk(c, land.data)
    case _ => true
  }

  ghost function Step(c: Config, s: State, op: Op): (r: State)
    requires Accepted(c) && Shape(c, s) && OpOk(c, op)
    ensures Shape(c, r)
  {
    match op
    case BeginOp(setInput) => Begin(c, s, setInput).0
    case CommitOp(reply) => Commit(c, s, reply).0
    case PollOp(land) => Poll(c, s, land).0
    case NextOp(env, fits) => Next(c, s, env, fits).state
    case AdvanceOp => Advance(s)
    case SyncOp(reply, sync, land) => Sync(c, s, reply, sync, land).0
    case SetStateOp(x) => SetState(c, s, x).0
    case SetIndicesOp(x) => SetIndices(c, s, x).0
    case ResetOp => Reset(c, s)
  }

  ghost predicate OpsOk(c: Config, ops: seq<Op>) {
    forall i :: 0 <= i < |ops| ==> OpOk(c, ops[i])
  }

  /** The state after any sequence of calls on a new mode. */
  ghost function After(c: Config, ops: seq<Op>): (s: State)
    requires Accepted(c) && OpsOk(c, ops)
    ensures Shape(c, s)
    decreases |ops|, 1
  {
    if ops == [] then Init(c) else AfterLast(c, ops)
  }

  ghost function AfterLast(c: Config, ops: seq<Op>): (s: State)
    requires Accepted(c) && OpsOk(c, ops) && ops != []
    ensures Shape(c, s)
    decreases |ops|, 0
  {
    Step(c, After(c, ops[..|ops| - 1]), ops[|ops| - 1])
  }

  /** Some sequence of calls leads here. */
  ghost predicate Reachable(c: Config, s: State)
    requires Accepted(c)
  {
    exists ops: seq<Op> :: OpsOk(c, ops) && After(c, ops) == s
  }
}
