/** The prefix policy: before a fire, the previous raw chunk is staged again on the frame of
    the new one. It rides on latency switching: what the mode itself does is unchanged, but
    each landing first reads the chunk in the model's own action space. */
module PrevChunk {
  import opened Wrappers
  import opened Fusion
  import opened ActionChunkSpec
  import opened ActionChunkProofs

  // ---- what is staged --------------------------------------------------------

  /** Row of the previous chunk that the robot executes i steps after the fire: counted from
      the consumed position, or past the end if nothing is consumed; the last row repeats.
      The sum is taken in 32 bits. */
  function SourceRow(c: Config, seat: Seat, i: nat): (r: nat)
    requires c.chunkLength > 0
    ensures r < c.chunkLength
  {
    var src := ((if seat.active.Some? then seat.index else c.chunkLength) + i) % UINT32;
    if src > c.chunkLength - 1 then c.chunkLength - 1 else src
  }

  /** Exactly while the sum does not wrap, that is the row i steps on, or the last one. */
  lemma SourceRowExact(c: Config, seat: Seat, i: nat)
    requires SeatOk(c, seat) && seat.active.Some? && i < c.chunkLength < UINT32
    ensures SourceRow(c, seat, i) == (if seat.index + i < c.chunkLength then seat.index + i else c.chunkLength - 1)
      <==> seat.index + i < UINT32
  {
    var sum := seat.index + i;
    if sum >= UINT32 {
      assert sum % UINT32 == sum - UINT32;
    } else {
      assert sum % UINT32 == sum;
    }
  }

  /** The staged rows: zeros before there is a raw chunk. */
  ghost function StagedRows(c: Config, seat: Seat, raw: Option<Chunk>, zero: Row): (rows: Chunk)
    requires c.chunkLength > 0 && (raw.Some? ==> |raw.value| == c.chunkLength)
    ensures |rows| == c.chunkLength
  {
    seq(c.chunkLength, i requires 0 <= i < c.chunkLength =>
      if raw.Some? then raw.value[SourceRow(c, seat, i)] else zero)
  }

  /** Stage the previous raw chunk in place. */
  method Prepare(c: Config, seat: Seat, raw: Option<Chunk>, zero: Row, staged: array<Row>)
    requires c.chunkLength > 0 && staged.Length == c.chunkLength && (raw.Some? ==> |raw.value| == c.chunkLength)
    modifies staged
    ensures staged[..] == StagedRows(c, seat, raw, zero)
  {
    if raw.None? {
      for i := 0 to staged.Length
        invariant forall j :: 0 <= j < i ==> staged[j] == zero
      {
        staged[i] := zero;
      }
      return;
    }
    var base := if seat.active.Some? then seat.index else c.chunkLength;
    for i := 0 to c.chunkLength
      invariant forall j :: 0 <= j < i ==> staged[j] == raw.value[SourceRow(c, seat, j)]
    {
      var src := (base + i) % UINT32;
      if src > c.chunkLength - 1 {
        src := c.chunkLength - 1;
      }
      staged[i] := raw.value[src];
    }
  }

  // ---- the policy over runs --------------------------------------------------

  /** The policy goes with latency switching, on a runner that it can read from. */
  ghost predicate PrefixConfig(c: Config) {
    Supported(c) && c.consume.Switch? && c.switchMode.Latency? && !c.Projects() && !c.external
  }

  /** The mode with the raw chunk read last and the rows staged last. History: the numbers
      of the fires that the raw chunk and the consumed chunk are from, and whether the
      landing that read the raw chunk failed. */
  datatype Prefix = Prefix(base: State, raw: Option<Chunk>, zero: Row, staged: Chunk,
                           rawFire: nat, seatFire: nat, torn: bool)

  /** Reply to reading the raw chunk, with what is then in the buffer. */
  datatype RawRead = RawRead(rc: int, data: Chunk)

  ghost predicate PrefixShape(c: Config, p: Prefix) {
    Shape(c, p.base) && (p.raw.Some? ==> |p.raw.value| == c.chunkLength)
  }

  ghost function PBegin(c: Config, p: Prefix, setInput: int): (r: (Prefix, int))
    requires PrefixConfig(c) && PrefixShape(c, p)
    ensures PrefixShape(c, r.0) && r.0.zero == p.zero && r.1 == Begin(c, p.base, setInput).1
  {
    var (s, rc) := Begin(c, p.base, setInput);
    (if rc == CAP_OK && !p.base.flight.begun
     then p.(base := s, staged := StagedRows(c, p.base.seat, p.raw, p.zero)) else p.(base := s), rc)
  }

  ghost function PCommit(c: Config, p: Prefix, reply: RequestReply): (r: (Prefix, int))
    requires PrefixConfig(c) && PrefixShape(c, p)
    ensures PrefixShape(c, r.0) && r.0.base == Commit(c, p.base, reply).0 && r.1 == Commit(c, p.base, reply).1
    ensures r.0 == p.(base := r.0.base, staged := r.0.staged)
  {
    var (p1, rc) := if p.base.flight.begun then (p, CAP_OK) else PBegin(c, p, reply.setInput);
    if rc != CAP_OK then (p1, rc)
    else
      var (s, rc1) := Launch(c, p1.base, reply.submit);
      (p1.(base := s), rc1)
  }

  /** The executor has the chunk in flight ready. */
  predicate Arrives(c: Config, s: State, land: LandReply) {
    c.Usable() && s.flight.inFlight && land.query == 0
  }

  /** A raw read that fails ends the fire before its actions are read. */
  ghost function RawFailed(s: State): State {
    var s1 := Abort(CountLate(s));
    s1.(seat := s1.seat.(pending := None))
  }

  /** The raw buffer has been read into; `ok` says that the whole landing succeeded. */
  ghost function Taken(p: Prefix, raw: RawRead, s: State, ok: bool): Prefix {
    p.(base := s, raw := if raw.rc == CAP_OK || p.raw.Some? then Some(raw.data) else None,
       rawFire := p.base.log.fires, seatFire := if ok then p.base.log.fires else p.seatFire, torn := !ok)
  }

  ghost function PPoll(c: Config, p: Prefix, raw: RawRead, land: LandReply): (r: (Prefix, Status))
    requires PrefixConfig(c) && PrefixShape(c, p) && RowsOk(c, land.data) && |raw.data| == c.chunkLength
    ensures PrefixShape(c, r.0) && r.0.zero == p.zero
    ensures r.1.Ready? ==> r.0.base.seat.active.Some?
  {
    if Arrives(c, p.base, land) && raw.rc != CAP_OK then
      RawFailedPolls(c, p.base, raw.rc, land);
      (Taken(p, raw, RawFailed(p.base), false), Failed)
    else
      var (s, status) := Poll(c, p.base, land);
      (if Arrives(c, p.base, land) then Taken(p, raw, s, land.read == CAP_OK) else p.(base := s), status)
  }

  /** For the mode itself, a raw read that fails is like a read that fails and leaves the
      slot as it was. */
  ghost function Effective(c: Config, s: State, rc: int, land: LandReply): (r: LandReply)
    requires Shape(c, s) && RowsOk(c, land.data)
    ensures RowsOk(c, r.data)
  {
    if Arrives(c, s, land) && c.Chunked() && rc != CAP_OK
    then LandReply(0, rc, s.ring.slots[s.seat.pending.value].rows) else land
  }

  lemma RawFailedPolls(c: Config, s: State, rc: int, land: LandReply)
    requires PrefixConfig(c) && Shape(c, s) && RowsOk(c, land.data) && Arrives(c, s, land) && rc != CAP_OK
    ensures Poll(c, s, Effective(c, s, rc, land)) == (RawFailed(s), Failed) && Shape(c, RawFailed(s))
  {
    var slots, slot := s.ring.slots, s.seat.pending.value;
    assert slots[slot := slots[slot].(rows := slots[slot].rows)] == slots;
  }

  /** The result of one control tick. */
  datatype PTick = PTick(after: Prefix, status: Status, row: Option<Row>)

  ghost function PServe(c: Config, p: Prefix, env: Env, fits: bool): (r: PTick)
    requires PrefixConfig(c) && PrefixShape(c, p) && p.base.seat.active.Some?
    ensures PrefixShape(c, r.after)
    ensures Tick(r.after.base, r.status, r.row) == Serve(c, p.base, env, fits)
    ensures r.after == p.(base := r.after.base, staged := r.after.staged)
  {
    if !fits then PTick(p, Failed, None)
    else
      var p1 := p.(base := EmitActive(c, p.base));
      PTick(if WantsPrefetch(c, p1.base) then PCommit(c, p1, env.prefetch).0 else p1,
            Ready, Some(Source(c, p.base)[p.base.seat.index]))
  }

  /** Nothing is consumable: make sure a fire is in flight, then query it. */
  ghost function PFetch(c: Config, p: Prefix, env: Env, raw: RawRead): (r: (Prefix, Option<Status>))
    requires PrefixConfig(c) && PrefixShape(c, p) && RowsOk(c, env.land.data) && |raw.data| == c.chunkLength
    ensures PrefixShape(c, r.0) && r.0.zero == p.zero
    ensures r.1 == Some(Ready) ==> r.0.base.seat.active.Some?
  {
    var (p1, rc) := if !p.base.flight.inFlight then PCommit(c, p, env.first) else (p, CAP_OK);
    if rc != CAP_OK then (p1, None)
    else
      var (p2, status) := PPoll(c, p1, raw, env.land);
      (p2, Some(status))
  }

  ghost function PNext(c: Config, p: Prefix, env: Env, raw: RawRead, fits: bool): (r: PTick)
    requires PrefixConfig(c) && PrefixShape(c, p) && RowsOk(c, env.land.data) && |raw.data| == c.chunkLength
    ensures PrefixShape(c, r.after) && r.after.zero == p.zero
  {
    if p.base.seat.active.Some? then PServe(c, p, env, fits)
    else
      var (p1, status) := PFetch(c, p, env, raw);
      PFetched(c, p1, status, env, fits)
  }

  /** The rest of a tick that had to fetch. */
  ghost function PFetched(c: Config, p: Prefix, status: Option<Status>, env: Env, fits: bool): (r: PTick)
    requires PrefixConfig(c) && PrefixShape(c, p) && (status == Some(Ready) ==> p.base.seat.active.Some?)
    ensures PrefixShape(c, r.after) && r.after.zero == p.zero
  {
    if status.None? then PTick(p, Failed, None)
    else if status.value.Ready? then PServe(c, p, env, fits)
    else
      var t := Missed(p.base, status.value, fits);
      PTick(p.(base := t.state), t.status, t.row)
  }

  ghost function PSync(c: Config, p: Prefix, reply: RequestReply, sync: int, raw: RawRead, land: LandReply): (r: Prefix)
    requires PrefixConfig(c) && PrefixShape(c, p) && RowsOk(c, land.data) && |raw.data| == c.chunkLength
    ensures PrefixShape(c, r) && r.zero == p.zero
  {
    if !c.Usable() then p
    else
      var (p1, rc) := if p.base.flight.inFlight then (p, CAP_OK) else PCommit(c, p, reply);
      if rc != CAP_OK then p1 else PSynced(c, p1, sync, raw, land)
  }

  ghost function PSynced(c: Config, p: Prefix, sync: int, raw: RawRead, land: LandReply): (r: Prefix)
    requires PrefixConfig(c) && PrefixShape(c, p) && RowsOk(c, land.data) && |raw.data| == c.chunkLength
    ensures PrefixShape(c, r) && r.zero == p.zero
  {
    if sync != CAP_OK then p.(base := Abort(p.base)) else PPoll(c, p, raw, land).0
  }

  datatype POp =
    | PBeginOp(setInput: int)
    | PCommitOp(reply: RequestReply)
    | PPollOp(raw: RawRead, land: LandReply)
    | PNextOp(env: Env, raw: RawRead, fits: bool)
    | PSyncOp(reply: RequestReply, sync: int, raw: RawRead, land: LandReply)
    | PResetOp
    /** The verbs that the policy has no part in. */
    | PlainOp(op: Op)

  /** Reads fill their buffers; and both reads of one landing see the same chunk, the raw
      one in the model's own action space, of which `view` makes the actions. */
  ghost predicate LandsOk(c: Config, view: Row -> Row, raw: RawRead, land: LandReply) {
    && RowsOk(c, land.data) && |raw.data| == c.chunkLength
    && (raw.rc == CAP_OK && land.read == CAP_OK ==> Views(c, view, raw.data, land.data))
  }

  ghost predicate Views(c: Config, view: Row -> Row, raw: Chunk, rows: Chunk) {
    && |raw| == |rows| == c.chunkLength
    && forall j :: 0 <= j < c.chunkLength ==> rows[j] == view(raw[j])
  }

  ghost predicate POpOk(c: Config, view: Row -> Row, op: POp) {
    match op
    case PPollOp(raw, land) => LandsOk(c, view, raw, land)
    case PNextOp(env, raw, _) => LandsOk(c, view, raw, env.land)
    case PSyncOp(_, _, raw, land) => LandsOk(c, view, raw, land)
    case PlainOp(op) => op.AdvanceOp? || op.SetStateOp? || op.SetIndicesOp?
    case _ => true
  }

  ghost function PStep(c: Config, view: Row -> Row, p: Prefix, op: POp): (r: Prefix)
    requires PrefixConfig(c) && PrefixShape(c, p) && POpOk(c, view, op)
    ensures PrefixShape(c, r) && r.zero == p.zero
  {
    match op
    case PBeginOp(setInput) => PBegin(c, p, setInput).0
    case PCommitOp(reply) => PCommit(c, p, reply).0
    case PPollOp(raw, land) => PPoll(c, p, raw, land).0
    case PNextOp(env, raw, fits) => PNext(c, p, env, raw, fits).after
    case PSyncOp(reply, sync, raw, land) => PSync(c, p, reply, sync, raw, land)
    case PResetOp => p.(base := Reset(c, p.base), raw := None, torn := false)
    case PlainOp(op) => p.(base := Step(c, p.base, op))
  }

  /** The state that a fetch polls from. */
  ghost function Fired(c: Config, s: State, reply: RequestReply): (r: State)
    requires PrefixConfig(c) && Shape(c, s)
    ensures Shape(c, r)
  {
    if s.flight.inFlight then s else Commit(c, s, reply).0
  }

  /** The call of the mode itself that a step comes down to. */
  ghost function BaseOp(c: Config, view: Row -> Row, p: Prefix, op: POp): (r: Op)
    requires PrefixConfig(c) && PrefixShape(c, p) && POpOk(c, view, op)
    ensures OpOk(c, r)
  {
    match op
    case PBeginOp(setInput) => BeginOp(setInput)
    case PCommitOp(reply) => CommitOp(reply)
    case PPollOp(raw, land) => PollOp(Effective(c, p.base, raw.rc, land))
    case PNextOp(env, raw, fits) => NextOp(BaseEnv(c, p.base, env, raw), fits)
    case PSyncOp(reply, sync, raw, land) => SyncOp(reply, sync, Effective(c, Fired(c, p.base, reply), raw.rc, land))
    case PResetOp => ResetOp
    case PlainOp(op) => op
  }

  ghost function BaseEnv(c: Config, s: State, env: Env, raw: RawRead): (r: Env)
    requires PrefixConfig(c) && Shape(c, s) && RowsOk(c, env.land.data)
    ensures RowsOk(c, r.land.data)
  {
    env.(land := Effective(c, Fired(c, s, env.first), raw.rc, env.land))
  }

  // ---- it is the same mode ---------------------------------------------------

  lemma PollRefines(c: Config, p: Prefix, raw: RawRead, land: LandReply)
    requires PrefixConfig(c) && PrefixShape(c, p) && RowsOk(c, land.data) && |raw.data| == c.chunkLength
    ensures var (r, status) := PPoll(c, p, raw, land);
      (r.base, status) == Poll(c, p.base, Effective(c, p.base, raw.rc, land))
  {
    if Arrives(c, p.base, land) && raw.rc != CAP_OK {
      RawFailedPolls(c, p.base, raw.rc, land);
    }
  }

  lemma FetchRefines(c: Config, p: Prefix, env: Env, raw: RawRead)
    requires PrefixConfig(c) && PrefixShape(c, p) && RowsOk(c, env.land.data) && |raw.data| == c.chunkLength
    ensures var (r, status) := PFetch(c, p, env, raw);
      (r.base, status) == Fetch(c, p.base, BaseEnv(c, p.base, env, raw))
  {
    var (p1, rc) := if !p.base.flight.inFlight then PCommit(c, p, env.first) else (p, CAP_OK);
    if rc == CAP_OK {
      PollRefines(c, p1, raw, env.land);
    }
  }

  /** Nothing is ever parked, so a tick serves at once or fetches. */
  lemma ServingIs(c: Config, s: State, env: Env)
    requires PrefixConfig(c) && Shape(c, s) && RowsOk(c, env.land.data)
    ensures Serving(c, s, env) == (if s.seat.active.Some? then s else Fetch(c, s, env).0)
  {
  }

  lemma ServeSame(c: Config, s: State, env: Env, env': Env, fits: bool)
    requires Supported(c) && Shape(c, s) && s.seat.active.Some? && env'.prefetch == env.prefetch
    ensures Serve(c, s, env', fits) == Serve(c, s, env, fits)
  {
  }

  lemma ActiveRefines(c: Config, p: Prefix, env: Env, env': Env, fits: bool)
    requires PrefixConfig(c) && PrefixShape(c, p) && p.base.seat.active.Some?
    requires RowsOk(c, env'.land.data) && env'.prefetch == env.prefetch
    ensures var t := PServe(c, p, env, fits); Tick(t.after.base, t.status, t.row) == Next(c, p.base, env', fits)
  {
    ServingIs(c, p.base, env');
    TickServes(c, p.base, env', fits);
    ServeSame(c, p.base, env, env', fits);
  }

  lemma IdleRefines(c: Config, p: Prefix, env: Env, raw: RawRead, fits: bool)
    requires PrefixConfig(c) && PrefixShape(c, p) && RowsOk(c, env.land.data) && |raw.data| == c.chunkLength
    requires p.base.seat.active.None?
    ensures var t := PNext(c, p, env, raw, fits);
      Tick(t.after.base, t.status, t.row) == Next(c, p.base, BaseEnv(c, p.base, env, raw), fits)
  {
    var env' := BaseEnv(c, p.base, env, raw);
    ServingIs(c, p.base, env');
    FetchRefines(c, p, env, raw);
    var (p1, status) := PFetch(c, p, env, raw);
    if p1.base.seat.active.Some? {
      TickServes(c, p.base, env', fits);
      ServeSame(c, p1.base, env, env', fits);
    } else {
      TickMisses(c, p.base, env', fits);
    }
  }

  lemma NextRefines(c: Config, p: Prefix, env: Env, raw: RawRead, fits: bool)
    requires PrefixConfig(c) && PrefixShape(c, p) && RowsOk(c, env.land.data) && |raw.data| == c.chunkLength
    ensures var t := PNext(c, p, env, raw, fits);
      Tick(t.after.base, t.status, t.row) == Next(c, p.base, BaseEnv(c, p.base, env, raw), fits)
  {
    var env' := BaseEnv(c, p.base, env, raw);
    if p.base.seat.active.Some? {
      ActiveRefines(c, p, env, env', fits);
    } else {
      IdleRefines(c, p, env, raw, fits);
    }
  }

  lemma SyncRefines(c: Config, p: Prefix, reply: RequestReply, sync: int, raw: RawRead, land: LandReply)
    requires PrefixConfig(c) && PrefixShape(c, p) && RowsOk(c, land.data) && |raw.data| == c.chunkLength
    ensures PSync(c, p, reply, sync, raw, land).base ==
      Sync(c, p.base, reply, sync, Effective(c, Fired(c, p.base, reply), raw.rc, land)).0
  {
    var (p1, rc) := if p.base.flight.inFlight then (p, CAP_OK) else PCommit(c, p, reply);
    if rc == CAP_OK && sync == CAP_OK {
      PollRefines(c, p1, raw, land);
    }
  }

  /** A step of the policy is this step of the mode. */
  ghost predicate Refined(c: Config, view: Row -> Row, p: Prefix, op: POp)
    requires PrefixConfig(c) && PrefixShape(c, p) && POpOk(c, view, op)
  {
    PStep(c, view, p, op).base == Step(c, p.base, BaseOp(c, view, p, op))
  }

  lemma PollStepRefines(c: Config, view: Row -> Row, p: Prefix, raw: RawRead, land: LandReply)
    requires PrefixConfig(c) && PrefixShape(c, p) && LandsOk(c, view, raw, land)
    ensures Refined(c, view, p, PPollOp(raw, land))
  {
    PollRefines(c, p, raw, land);
  }

  lemma NextStepRefines(c: Config, view: Row -> Row, p: Prefix, env: Env, raw: RawRead, fits: bool)
    requires PrefixConfig(c) && PrefixShape(c, p) && LandsOk(c, view, raw, env.land)
    ensures Refined(c, view, p, PNextOp(env, raw, fits))
  {
    NextRefines(c, p, env, raw, fits);
  }

  lemma SyncStepRefines(c: Config, view: Row -> Row, p: Prefix, reply: RequestReply, sync: int, raw: RawRead,
                        land: LandReply)
    requires PrefixConfig(c) && PrefixShape(c, p) && LandsOk(c, view, raw, land)
    ensures Refined(c, view, p, PSyncOp(reply, sync, raw, land))
  {
    SyncRefines(c, p, reply, sync, raw, land);
  }

  lemma RequestRefines(c: Config, view: Row -> Row, p: Prefix, op: POp)
    requires PrefixConfig(c) && PrefixShape(c, p) && POpOk(c, view, op)
    requires op.PBeginOp? || op.PCommitOp? || op.PResetOp? || op.PlainOp?
    ensures Refined(c, view, p, op)
  {
  }

  /** Every step of the policy is a step of the mode. */
  lemma StepRefines(c: Config, view: Row -> Row, p: Prefix, op: POp)
    requires PrefixConfig(c) && PrefixShape(c, p) && POpOk(c, view, op)
    ensures PStep(c, view, p, op).base == Step(c, p.base, BaseOp(c, view, p, op))
  {
    match op
    case PPollOp(raw, land) => PollStepRefines(c, view, p, raw, land);
    case PNextOp(env, raw, fits) => NextStepRefines(c, view, p, env, raw, fits);
    case PSyncOp(reply, sync, raw, land) => SyncStepRefines(c, view, p, reply, sync, raw, land);
    case _ => RequestRefines(c, view, p, op);
  }

  // ---- whose rows are staged -------------------------------------------------

  /** The raw chunk is that of the chunk being consumed, row by row, unless the landing that
      read it failed; then it is that of another fire. */
  ghost predicate Paired(c: Config, view: Row -> Row, p: Prefix)
    requires PrefixShape(c, p)
  {
    && p.seatFire <= p.base.log.fires && p.rawFire <= p.base.log.fires
    && (p.base.flight.inFlight ==> p.seatFire < p.base.log.fires)
    && (p.base.seat.active.Some? ==>
          && p.raw.Some? && (p.torn <==> p.rawFire != p.seatFire)
          && (!p.torn ==> Views(c, view, p.raw.value, Source(c, p.base))))
  }

  /** From s to r no chunk was seated, and the one consumed, if it still is, is the same. */
  ghost predicate Calm(c: Config, s: State, r: State)
    requires Shape(c, s) && Shape(c, r)
  {
    && r.log.fires >= s.log.fires
    && (r.flight.inFlight ==> s.flight.inFlight || r.log.fires > s.log.fires)
    && (r.seat.active.Some? ==> s.seat.active.Some? && Source(c, r) == Source(c, s))
  }

  lemma CalmPairs(c: Config, view: Row -> Row, p: Prefix, r: Prefix)
    requires PrefixShape(c, p) && Paired(c, view, p) && PrefixShape(c, r) && Calm(c, p.base, r.base)
    requires r == p.(base := r.base, staged := r.staged)
    ensures Paired(c, view, r)
  {
  }

  lemma CalmJoins(c: Config, s: State, m: State, r: State)
    requires Shape(c, s) && Shape(c, m) && Shape(c, r) && Calm(c, s, m) && Calm(c, m, r)
    ensures Calm(c, s, r)
  {
  }

  lemma BeginCalm(c: Config, s: State, setInput: int)
    requires PrefixConfig(c) && Shape(c, s)
    ensures Calm(c, s, Begin(c, s, setInput).0)
  {
  }

  lemma LaunchCalm(c: Config, s: State, submit: int)
    requires PrefixConfig(c) && Shape(c, s) && !s.flight.inFlight && s.seat.waiting.None?
    ensures Calm(c, s, Launch(c, s, submit).0)
  {
  }

  lemma CommitCalm(c: Config, s: State, reply: RequestReply)
    requires PrefixConfig(c) && Shape(c, s)
    ensures Calm(c, s, Commit(c, s, reply).0)
  {
    var (s1, rc) := if s.flight.begun then (s, CAP_OK) else Begin(c, s, reply.setInput);
    BeginCalm(c, s, reply.setInput);
    if rc == CAP_OK {
      LaunchCalm(c, s1, reply.submit);
      CalmJoins(c, s, s1, Launch(c, s1, reply.submit).0);
    }
  }

  lemma EmitCalm(c: Config, s: State)
    requires PrefixConfig(c) && Shape(c, s) && s.seat.active.Some?
    ensures Calm(c, s, EmitActive(c, s))
  {
  }

  lemma UnreadyCalm(c: Config, s: State, land: LandReply)
    requires PrefixConfig(c) && Shape(c, s) && RowsOk(c, land.data) && !Arrives(c, s, land)
    ensures Calm(c, s, Poll(c, s, land).0)
  {
  }

  /** A failed landing leaves the consumed chunk alone. */
  lemma FailedCalm(c: Config, s: State, rc: int, land: LandReply)
    requires PrefixConfig(c) && Shape(c, s) && RowsOk(c, land.data) && Arrives(c, s, land)
    ensures rc != CAP_OK ==> Shape(c, RawFailed(s)) && Calm(c, s, RawFailed(s))
    ensures land.read != CAP_OK ==> Calm(c, s, Poll(c, s, land).0) && !Poll(c, s, land).0.flight.inFlight
  {
    if rc != CAP_OK {
      RawFailedPolls(c, s, rc, land);
    }
  }

  /** A landing that succeeds seats the chunk that was read. */
  lemma LandedSource(c: Config, s: State, land: LandReply)
    requires PrefixConfig(c) && Shape(c, s) && RowsOk(c, land.data) && Arrives(c, s, land) && land.read == CAP_OK
    ensures var r := Poll(c, s, land).0;
      && r.seat.active.Some? && Source(c, r) == land.data && !r.flight.inFlight && r.log.fires == s.log.fires
  {
  }

  lemma PollPairs(c: Config, view: Row -> Row, p: Prefix, raw: RawRead, land: LandReply)
    requires PrefixConfig(c) && PrefixShape(c, p) && Paired(c, view, p) && LandsOk(c, view, raw, land)
    ensures Paired(c, view, PPoll(c, p, raw, land).0)
  {
    if !Arrives(c, p.base, land) {
      UnreadyCalm(c, p.base, land);
    } else if raw.rc != CAP_OK || land.read != CAP_OK {
      FailedCalm(c, p.base, raw.rc, land);
    } else {
      LandedSource(c, p.base, land);
    }
  }

  lemma CommitPairs(c: Config, view: Row -> Row, p: Prefix, reply: RequestReply)
    requires PrefixConfig(c) && PrefixShape(c, p) && Paired(c, view, p)
    ensures Paired(c, view, PCommit(c, p, reply).0)
  {
    CommitCalm(c, p.base, reply);
    CalmPairs(c, view, p, PCommit(c, p, reply).0);
  }

  lemma ServePairs(c: Config, view: Row -> Row, p: Prefix, env: Env, fits: bool)
    requires PrefixConfig(c) && PrefixShape(c, p) && Paired(c, view, p) && p.base.seat.active.Some?
    ensures Paired(c, view, PServe(c, p, env, fits).after)
  {
    EmitCalm(c, p.base);
    var p1 := p.(base := EmitActive(c, p.base));
    CalmPairs(c, view, p, p1);
    CommitPairs(c, view, p1, env.prefetch);
  }

  lemma FetchPairs(c: Config, view: Row -> Row, p: Prefix, env: Env, raw: RawRead)
    requires PrefixConfig(c) && PrefixShape(c, p) && Paired(c, view, p) && LandsOk(c, view, raw, env.land)
    ensures Paired(c, view, PFetch(c, p, env, raw).0)
  {
    CommitPairs(c, view, p, env.first);
    var p1 := if !p.base.flight.inFlight then PCommit(c, p, env.first).0 else p;
    PollPairs(c, view, p1, raw, env.land);
  }

  lemma NextPairs(c: Config, view: Row -> Row, p: Prefix, env: Env, raw: RawRead, fits: bool)
    requires PrefixConfig(c) && PrefixShape(c, p) && Paired(c, view, p) && LandsOk(c, view, raw, env.land)
    ensures Paired(c, view, PNext(c, p, env, raw, fits).after)
  {
    if p.base.seat.active.Some? {
      ServePairs(c, view, p, env, fits);
    } else {
      FetchPairs(c, view, p, env, raw);
      var (p1, status) := PFetch(c, p, env, raw);
      FetchedPairs(c, view, p1, status, env, fits);
    }
  }

  lemma FetchedPairs(c: Config, view: Row -> Row, p: Prefix, status: Option<Status>, env: Env, fits: bool)
    requires PrefixConfig(c) && PrefixShape(c, p) && Paired(c, view, p)
    requires status == Some(Ready) ==> p.base.seat.active.Some?
    ensures Paired(c, view, PFetched(c, p, status, env, fits).after)
  {
    if status == Some(Ready) {
      ServePairs(c, view, p, env, fits);
    } else if status.Some? {
      MissedPairs(c, view, p, status.value, fits);
    }
  }

  lemma MissedPairs(c: Config, view: Row -> Row, p: Prefix, status: Status, fits: bool)
    requires PrefixConfig(c) && PrefixShape(c, p) && Paired(c, view, p)
    ensures var r := p.(base := Missed(p.base, status, fits).state); PrefixShape(c, r) && Paired(c, view, r)
  {
  }

  lemma SyncPairs(c: Config, view: Row -> Row, p: Prefix, reply: RequestReply, sync: int, raw: RawRead,
                  land: LandReply)
    requires PrefixConfig(c) && PrefixShape(c, p) && Paired(c, view, p) && LandsOk(c, view, raw, land)
    ensures Paired(c, view, PSync(c, p, reply, sync, raw, land))
  {
    CommitPairs(c, view, p, reply);
    var p1 := if p.base.flight.inFlight then p else PCommit(c, p, reply).0;
    SyncedPairs(c, view, p1, sync, raw, land);
  }

  lemma SyncedPairs(c: Config, view: Row -> Row, p: Prefix, sync: int, raw: RawRead, land: LandReply)
    requires PrefixConfig(c) && PrefixShape(c, p) && Paired(c, view, p) && LandsOk(c, view, raw, land)
    ensures Paired(c, view, PSynced(c, p, sync, raw, land))
  {
    PollPairs(c, view, p, raw, land);
  }

  lemma PlainPairs(c: Config, view: Row -> Row, p: Prefix, op: Op)
    requires PrefixConfig(c) && PrefixShape(c, p) && Paired(c, view, p)
    requires op.AdvanceOp? || op.SetStateOp? || op.SetIndicesOp?
    ensures var r := p.(base := Step(c, p.base, op)); PrefixShape(c, r) && Paired(c, view, r)
  {
    match op
    case AdvanceOp =>
    case SetStateOp(x) =>
    case SetIndicesOp(x) =>
  }

  lemma StepPairs(c: Config, view: Row -> Row, p: Prefix, op: POp)
    requires PrefixConfig(c) && PrefixShape(c, p) && Paired(c, view, p) && POpOk(c, view, op)
    ensures Paired(c, view, PStep(c, view, p, op))
  {
    match op
    case PBeginOp(setInput) =>
      BeginCalm(c, p.base, setInput);
      CalmPairs(c, view, p, PBegin(c, p, setInput).0);
    case PCommitOp(reply) => CommitPairs(c, view, p, reply);
    case PPollOp(raw, land) => PollPairs(c, view, p, raw, land);
    case PNextOp(env, raw, fits) => NextPairs(c, view, p, env, raw, fits);
    case PSyncOp(reply, sync, raw, land) => SyncPairs(c, view, p, reply, sync, raw, land);
    case PResetOp =>
    case PlainOp(op) => PlainPairs(c, view, p, op);
  }

  // ---- whole runs ------------------------------------------------------------

  ghost predicate POpsOk(c: Config, view: Row -> Row, ops: seq<POp>) {
    forall i :: 0 <= i < |ops| ==> POpOk(c, view, ops[i])
  }

  /** The state after any sequence of calls on a new mode. */
  ghost function PAfter(c: Config, view: Row -> Row, zero: Row, ops: seq<POp>): (p: Prefix)
    requires PrefixConfig(c) && POpsOk(c, view, ops)
    ensures PrefixShape(c, p) && p.zero == zero
  {
    if ops == [] then Prefix(Init(c), None, zero, [], 0, 0, false)
    else PStep(c, view, PAfter(c, view, zero, ops[..|ops| - 1]), ops[|ops| - 1])
  }

  /** Under the policy the mode goes through states it goes through anyway, so all that
      holds of those holds here; and the raw chunk stays paired. */
  lemma {:induction false} PrefixRuns(c: Config, view: Row -> Row, zero: Row, ops: seq<POp>)
    requires PrefixConfig(c) && POpsOk(c, view, ops)
    ensures Reachable(c, PAfter(c, view, zero, ops).base) && Paired(c, view, PAfter(c, view, zero, ops))
  {
    if ops == [] {
      InitReachable(c);
    } else {
      var front, op := ops[..|ops| - 1], ops[|ops| - 1];
      PrefixRuns(c, view, zero, front);
      var p := PAfter(c, view, zero, front);
      StepRefines(c, view, p, op);
      ReachableSteps(c, p.base, BaseOp(c, view, p, op));
      StepPairs(c, view, p, op);
    }
  }

  /** What a begin stages while a chunk is consumed: rows of that chunk, unless the landing
      that read the raw chunk failed. Row i is then the action executed i steps on, as far
      as the 32-bit sum does not wrap, and after the last one that one again. */
  ghost predicate StagedWell(c: Config, view: Row -> Row, p: Prefix, staged: Chunk, i: nat)
    requires PrefixConfig(c) && PrefixShape(c, p) && p.base.seat.active.Some? && i < c.chunkLength
  {
    && |staged| == c.chunkLength && (p.rawFire == p.seatFire <==> !p.torn)
    && (!p.torn && p.base.seat.index + i < UINT32 ==>
          view(staged[i]) == if i < |Upcoming(c, p.base)| then Upcoming(c, p.base)[i]
                             else Source(c, p.base)[c.chunkLength - 1])
  }

  lemma BeginStages(c: Config, view: Row -> Row, p: Prefix, i: nat)
    requires PrefixConfig(c) && PrefixShape(c, p) && Paired(c, view, p)
    requires p.base.seat.active.Some? && i < c.chunkLength
    ensures StagedWell(c, view, p, StagedRows(c, p.base.seat, p.raw, p.zero), i)
  {
    SourceRowExact(c, p.base.seat, i);
  }

  /** In every run. */
  lemma StagedIsUpcoming(c: Config, view: Row -> Row, zero: Row, ops: seq<POp>, setInput: int, i: nat)
    requires PrefixConfig(c) && POpsOk(c, view, ops) && i < c.chunkLength
    requires var p := PAfter(c, view, zero, ops);
      p.base.seat.active.Some? && !p.base.flight.begun && PBegin(c, p, setInput).1 == CAP_OK
    ensures var p := PAfter(c, view, zero, ops); StagedWell(c, view, p, PBegin(c, p, setInput).0.staged, i)
  {
    PrefixRuns(c, view, zero, ops);
    BeginStages(c, view, PAfter(c, view, zero, ops), i);
  }

  /** With nothing being consumed a begin stages the last row of the raw chunk over and over,
      as far as the 32-bit sum does not wrap, and zeros before there is one; a begin that finds
      the request begun stages nothing. After a reset there is none. */
  lemma ColdStages(c: Config, p: Prefix, setInput: int, i: nat)
    requires PrefixConfig(c) && PrefixShape(c, p) && i < c.chunkLength && PBegin(c, p, setInput).1 == CAP_OK
    ensures var staged := PBegin(c, p, setInput).0.staged;
      && (p.base.flight.begun ==> staged == p.staged)
      && (!p.base.flight.begun ==> |staged| == c.chunkLength)
      && (!p.base.flight.begun && p.raw.None? ==> staged[i] == p.zero)
      && (!p.base.flight.begun && p.raw.Some? && p.base.seat.active.None? && c.chunkLength + i < UINT32 ==>
            staged[i] == p.raw.value[c.chunkLength - 1])
    ensures forall view :: PStep(c, view, p, PResetOp).raw.None?
  {
  }

  lemma FailedUpcoming(c: Config, s: State, land: LandReply)
    requires PrefixConfig(c) && Shape(c, s) && RowsOk(c, land.data) && Arrives(c, s, land) && land.read != CAP_OK
    ensures var r := Poll(c, s, land).0;
      && Upcoming(c, r) == Upcoming(c, s) && r.seat.active == s.seat.active && r.seat.index == s.seat.index
      && !r.flight.inFlight && !r.flight.begun && r.seat.waiting.None?
  {
  }

  /** From p to p1 only a raw chunk was read: what is consumed is the same, but the raw
      chunk is no longer its. */
  ghost predicate TornBy(c: Config, p: Prefix, p1: Prefix, raw: Chunk)
    requires PrefixShape(c, p) && PrefixShape(c, p1)
  {
    && p1.torn && p1.rawFire != p1.seatFire && p1.raw == Some(raw)
    && Upcoming(c, p1.base) == Upcoming(c, p.base) && p1.base.seat.active == p.base.seat.active
    && p1.base.seat.index == p.base.seat.index
    && !p1.base.flight.inFlight && !p1.base.flight.begun && p1.base.seat.waiting.None?
  }

  lemma TornPoll(c: Config, view: Row -> Row, p: Prefix, raw: RawRead, land: LandReply)
    requires PrefixConfig(c) && PrefixShape(c, p) && Paired(c, view, p) && LandsOk(c, view, raw, land)
    requires p.base.seat.active.Some? && Arrives(c, p.base, land) && raw.rc == CAP_OK && land.read != CAP_OK
    ensures TornBy(c, p, PPoll(c, p, raw, land).0, raw.data)
  {
    FailedUpcoming(c, p.base, land);
  }

  /** A begin then stages the rows of the chunk that was never seated. */
  ghost predicate StagesTorn(c: Config, p: Prefix, p1: Prefix, raw: Chunk, i: nat)
    requires PrefixConfig(c) && PrefixShape(c, p) && PrefixShape(c, p1) && i < c.chunkLength == |raw|
  {
    var (p2, rc) := PBegin(c, p1, 0);
    && rc == CAP_OK && |p2.staged| == c.chunkLength && p2.staged[i] == raw[SourceRow(c, p.base.seat, i)]
  }

  lemma TornBegin(c: Config, p: Prefix, p1: Prefix, raw: Chunk, i: nat)
    requires PrefixConfig(c) && PrefixShape(c, p) && PrefixShape(c, p1) && TornBy(c, p, p1, raw)
    requires c.Usable() && i < c.chunkLength == |raw|
    ensures StagesTorn(c, p, p1, raw, i)
  {
  }

  /** The failing case: the raw read succeeds, the read of the actions fails, and the next
      begin stages the chunk that was never seated over the one still being consumed. */
  lemma TornStages(c: Config, view: Row -> Row, p: Prefix, raw: RawRead, land: LandReply, i: nat)
    requires PrefixConfig(c) && PrefixShape(c, p) && Paired(c, view, p) && LandsOk(c, view, raw, land)
    requires p.base.seat.active.Some? && Arrives(c, p.base, land)
    requires raw.rc == CAP_OK && land.read != CAP_OK && i < c.chunkLength
    ensures var p1 := PPoll(c, p, raw, land).0;
      TornBy(c, p, p1, raw.data) && StagesTorn(c, p, p1, raw.data, i)
  {
    TornPoll(c, view, p, raw, land);
    TornBegin(c, p, PPoll(c, p, raw, land).0, raw.data, i);
  }

  lemma PAfterOne(c: Config, view: Row -> Row, zero: Row, ops: seq<POp>, op: POp)
    requires PrefixConfig(c) && POpsOk(c, view, ops) && POpOk(c, view, op)
    ensures POpsOk(c, view, ops + [op])
    ensures PAfter(c, view, zero, ops + [op]) == PStep(c, view, PAfter(c, view, zero, ops), op)
  {
    assert (ops + [op])[..|ops|] == ops;
  }

  /** A fire is made; what is consumed stays. */
  lemma FireStep(c: Config, view: Row -> Row, p: Prefix)
    requires PrefixConfig(c) && PrefixShape(c, p) && c.Usable() && !p.base.flight.inFlight
    ensures var r := PStep(c, view, p, PCommitOp(RequestReply(CAP_OK, CAP_OK)));
      && r.base.flight.inFlight && r.base.seat.active == p.base.seat.active
      && (r.base.seat.active.Some? ==> Source(c, r.base) == Source(c, p.base))
  {
    CommitCalm(c, p.base, RequestReply(CAP_OK, CAP_OK));
  }

  ghost function Constant(c: Config, x: real): (rows: Chunk)
    ensures RowsOk(c, rows)
  {
    seq(c.chunkLength, _ => seq(c.actionDim, _ => x))
  }

  /** A landing whose raw read succeeds with rows of x, and whose other read ends with rc. */
  ghost function ConstantLanding(c: Config, x: real, rc: int): (op: POp)
    ensures POpOk(c, r => r, op)
  {
    PPollOp(RawRead(CAP_OK, Constant(c, x)), LandReply(0, rc, Constant(c, x)))
  }

  lemma LandStep(c: Config, p: Prefix, x: real)
    requires PrefixConfig(c) && PrefixShape(c, p) && c.Usable() && p.base.flight.inFlight
    ensures var r := PStep(c, r => r, p, ConstantLanding(c, x, CAP_OK));
      r.base.seat.active.Some? && Source(c, r.base) == Constant(c, x) && !r.base.flight.inFlight
  {
    LandedSource(c, p.base, LandReply(0, CAP_OK, Constant(c, x)));
  }

  /** A begin that stages nines where ones are executed. */
  ghost predicate NinesForOnes(c: Config, p: Prefix)
    requires PrefixConfig(c) && PrefixShape(c, p)
  {
    var (p1, rc) := PBegin(c, p, 0);
    && p.torn && rc == CAP_OK && |p1.staged| == c.chunkLength && Upcoming(c, p.base) != []
    && p1.staged[0] == Constant(c, 9.0)[0] && Upcoming(c, p.base)[0] == Constant(c, 1.0)[0]
  }

  /** It happens, in every configuration: after a chunk of ones was seated, a landing that
      fails half way leaves nines to be staged where ones are executed. */
  lemma TornHappens(c: Config) returns (ops: seq<POp>)
    requires PrefixConfig(c) && c.Usable()
    ensures POpsOk(c, r => r, ops) && NinesForOnes(c, PAfter(c, r => r, [], ops))
  {
    var view: Row -> Row := r => r;
    var fire := PCommitOp(RequestReply(CAP_OK, CAP_OK));
    var land, fail := ConstantLanding(c, 1.0, CAP_OK), ConstantLanding(c, 9.0, CAP_ERR_ARG);
    ops := [];
    assert POpsOk(c, view, ops);
    PAfterOne(c, view, [], [], fire);
    FireStep(c, view, PAfter(c, view, [], []));
    ops := [] + [fire];
    PAfterOne(c, view, [], ops, land);
    LandStep(c, PAfter(c, view, [], ops), 1.0);
    ops := ops + [land];
    PAfterOne(c, view, [], ops, fire);
    FireStep(c, view, PAfter(c, view, [], ops));
    ops := ops + [fire];
    PAfterOne(c, view, [], ops, fail);
    TornStep(c, ops);
    ops := ops + [fail];
  }

  lemma TornStep(c: Config, ops: seq<POp>)
    requires PrefixConfig(c) && c.Usable() && POpsOk(c, r => r, ops)
    requires var p := PAfter(c, r => r, [], ops);
      p.base.flight.inFlight && p.base.seat.active.Some? && Source(c, p.base) == Constant(c, 1.0)
    ensures NinesForOnes(c, PStep(c, r => r, PAfter(c, r => r, [], ops), ConstantLanding(c, 9.0, CAP_ERR_ARG)))
  {
    PrefixRuns(c, r => r, [], ops);
    var p, rows := PAfter(c, r => r, [], ops), Constant(c, 9.0);
    TornStages(c, r => r, p, RawRead(CAP_OK, rows), LandReply(0, CAP_ERR_ARG, rows), 0);
    TornNines(c, p, PPoll(c, p, RawRead(CAP_OK, rows), LandReply(0, CAP_ERR_ARG, rows)).0);
  }

  lemma TornNines(c: Config, p: Prefix, p1: Prefix)
    requires PrefixConfig(c) && PrefixShape(c, p) && PrefixShape(c, p1)
    requires p.base.seat.active.Some? && Source(c, p.base) == Constant(c, 1.0)
    requires TornBy(c, p, p1, Constant(c, 9.0)) && StagesTorn(c, p, p1, Constant(c, 9.0), 0)
    ensures NinesForOnes(c, p1)
  {
  }
}
