/** One tick over a stage graph: what the host issues, and why every stage runs after the
    stages it depends on, however the device interleaves its streams. */
module StageTick {
  import opened Wrappers
  import opened Streams
  import opened Cadence

  /** A stage is a captured graph on a stream, or an opaque callback run on the host. */
  datatype Stage = Stage(graph: bool, stream: int, after: seq<nat>)

  /** A schedule: per stage its stream, whether it is driven by the clock, and its cadence;
      and pairs (waiter, waited-on). */
  datatype Entry = Entry(stream: int, every: bool, num: int, den: int)
  datatype Schedule = Schedule(entries: seq<Entry>, deps: seq<(int, int)>)

  /** `events` holds the pre-created event of each stage that needs one; a hand-built
      runtime may come without the list. */
  datatype Runtime = Runtime(stages: seq<Stage>, events: Option<seq<Option<nat>>>, schedule: Schedule)

  predicate AllGraph(m: Runtime) {
    m.stages != [] && forall i :: 0 <= i < |m.stages| ==> m.stages[i].graph
  }

  /** Stage i waits for stage d through an event. */
  predicate Crosses(m: Runtime, d: nat, i: nat)
    requires d < |m.stages| && i < |m.stages|
  {
    m.stages[d].graph && m.stages[i].graph && m.stages[d].stream != m.stages[i].stream
  }

  ghost predicate EventsDistinct(events: seq<Option<nat>>) {
    forall i, j :: 0 <= i < j < |events| && events[i].Some? ==> events[i] != events[j]
  }

  ghost predicate EventsOk(m: Runtime, events: seq<Option<nat>>) {
    && |events| == |m.stages| && EventsDistinct(events)
    && (forall i, k :: 0 <= i < |m.stages| && 0 <= k < |m.stages[i].after| ==>
          HasEvent(m, events, m.stages[i].after[k], i))
  }

  /** If stage i waits for stage d through an event, d has one. */
  ghost predicate HasEvent(m: Runtime, events: seq<Option<nat>>, d: nat, i: nat)
    requires |events| == |m.stages| && i < |m.stages|
  {
    d < |m.stages| && Crosses(m, d, i) ==> events[d].Some?
  }

  /** Dependencies point backwards. */
  ghost predicate Topological(m: Runtime) {
    forall i, k :: 0 <= i < |m.stages| && 0 <= k < |m.stages[i].after| ==> m.stages[i].after[k] < i
  }

  /** What the arrays of a runtime must look like for a tick to read them. */
  ghost predicate Readable(m: Runtime) {
    && (forall i, k :: 0 <= i < |m.stages| && 0 <= k < |m.stages[i].after| ==> m.stages[i].after[k] < |m.stages|)
    && (m.events.Some? ==> |m.events.value| == |m.stages| && EventsDistinct(m.events.value))
  }

  /** What the adapter guarantees about a runtime it hands out. */
  ghost predicate Accepted(m: Runtime) {
    && Topological(m)
    && match m.events
       case Some(events) => EventsOk(m, events)
       case None => forall i :: 0 <= i < |m.stages| ==> !m.stages[i].graph
  }

  /** The backend, as the host sees it: the program issued so far, and which of the calls
      to come succeed. A call that fails issues nothing. */
  class Backend {
    var log: seq<Item>
    var calls: nat
    var nextEvent: nat
    const works: nat -> bool
    /** Whether the graph of a stage holds a capture for the stage's key. */
    const has: nat -> bool

    constructor (works: nat -> bool, has: nat -> bool)
      ensures log == [] && calls == 0 && nextEvent == 0 && this.works == works && this.has == has
    {
      log, calls, nextEvent := [], 0, 0;
      this.works, this.has := works, has;
    }

    method Call() returns (ok: bool)
      modifies this`calls
      ensures calls == old(calls) + 1 && ok == works(old(calls))
    {
      ok := works(calls);
      calls := calls + 1;
    }

    /** One host action: it takes effect, or it fails and leaves no trace. */
    method Do(item: Item) returns (rc: int)
      modifies this`log, this`calls
      ensures calls == old(calls) + 1 && rc == (if works(old(calls)) then CAP_OK else CAP_ERR_BACKEND)
      ensures log == if rc == CAP_OK then old(log) + [item] else old(log)
    {
      var ok := Call();
      if !ok { return CAP_ERR_BACKEND; }
      log := log + [item];
      return CAP_OK;
    }

    /** Replay a stage's graph, if there is a capture to replay. */
    method Fire(stage: nat, stream: int) returns (rc: int)
      modifies this`log, this`calls
      ensures rc == (if !has(stage) then CAP_ERR_ARG else if works(old(calls)) then CAP_OK else CAP_ERR_BACKEND)
      ensures log == if rc == CAP_OK then old(log) + [Replay(stage, stream)] else old(log)
    {
      if !has(stage) { return CAP_ERR_ARG; }
      rc := Do(Replay(stage, stream));
    }

    /** The host executes an opaque stage and returns when it has completed. */
    method RunOpaque(stage: nat)
      modifies this`log
      ensures log == old(log) + [Run(stage)]
    {
      log := log + [Run(stage)];
    }

    /** A fresh event, or none. */
    method Event() returns (event: Option<nat>)
      modifies this`calls, this`nextEvent
      ensures calls == old(calls) + 1
      ensures event == if works(old(calls)) then Some(old(nextEvent)) else None
      ensures nextEvent == if event.Some? then old(nextEvent) + 1 else old(nextEvent)
    {
      var ok := Call();
      if !ok { return None; }
      event := Some(nextEvent);
      nextEvent := nextEvent + 1;
    }
  }

  /** Every graph stage has a capture to replay. */
  ghost predicate Captured(m: Runtime, has: nat -> bool) {
    forall i :: 0 <= i < |m.stages| && m.stages[i].graph ==> has(i)
  }

  /** The calls from number a up to b took effect. */
  ghost predicate Worked(works: nat -> bool, a: nat, b: int) {
    forall n: nat :: a <= n < b ==> works(n)
  }

  /** Stage i's own work item. */
  function WorkOf(m: Runtime, i: nat): Item
    requires i < |m.stages|
  {
    if m.stages[i].graph then Replay(i, m.stages[i].stream) else Run(i)
  }

  /** The first |at| stages ran in this tick, which began at `base`: stage i's work is at
      at[i], and the program orders it after the work of all its dependencies. */
  ghost predicate Traced(m: Runtime, log: seq<Item>, base: nat, at: seq<nat>) {
    && |at| <= |m.stages| && base <= |log|
    && (forall i :: 0 <= i < |at| ==> base <= at[i] < |log| && log[at[i]] == WorkOf(m, i))
    && (forall i, j :: 0 <= i < j < |at| ==> at[i] < at[j])
    && (forall i, k :: 0 <= i < |at| && 0 <= k < |m.stages[i].after| && m.stages[i].after[k] < i ==>
          Ordered(log, at[m.stages[i].after[k]], at[i]))
  }

  /** Nothing else has been replayed or run since `base`. */
  ghost predicate OnlyAt(log: seq<Item>, base: nat, at: seq<nat>) {
    forall p :: base <= p < |log| && (log[p].Replay? || log[p].Run?) ==>
      log[p].stage < |at| && at[log[p].stage] == p
  }

  lemma OnlyAtNext(m: Runtime, log: seq<Item>, base: nat, at: seq<nat>)
    requires |at| < |m.stages| && OnlyAt(log, base, at)
    ensures OnlyAt(log + [WorkOf(m, |at|)], base, at + [|log|])
  {
  }

  lemma OnlyAtMore(log: seq<Item>, item: Item, base: nat, at: seq<nat>)
    requires OnlyAt(log, base, at) && !item.Replay? && !item.Run?
    ensures OnlyAt(log + [item], base, at)
  {
  }

  /** Nothing else has, but for an opaque stage that ran last and reported a failure. */
  ghost predicate OnlyRan(m: Runtime, log: seq<Item>, base: nat, at: seq<nat>, reports: nat -> int, rc: int) {
    || OnlyAt(log, base, at)
    || (&& |at| < |m.stages| && !m.stages[|at|].graph && base < |log| && log[|log| - 1] == Run(|at|)
        && OnlyAt(log[..|log| - 1], base, at) && rc == reports(|at|) != CAP_OK)
  }

  /** Every stage with an event has been recorded in this tick, behind its work, and the
      record is the latest of that event. */
  ghost predicate Recorded(m: Runtime, log: seq<Item>, at: seq<nat>)
    requires |at| <= |m.stages|
  {
    match m.events
    case None => true
    case Some(events) =>
      |events| == |m.stages| &&
      forall i :: 0 <= i < |at| && events[i].Some? && m.stages[i].graph ==>
        RecordedAt(m, log, at[i], i, events[i].value)
  }

  ghost predicate RecordedAt(m: Runtime, log: seq<Item>, a: nat, i: nat, event: nat)
    requires i < |m.stages|
  {
    var r := LatestRecord(log, event);
    r.Some? && a < r.value && log[r.value] == Record(event, m.stages[i].stream)
  }

  // ---- fences ----------------------------------------------------------------

  /** Whatever stage i issues next is ordered after the work at a. */
  ghost predicate Fenced(m: Runtime, log: seq<Item>, a: nat, i: nat)
    requires i < |m.stages|
  {
    && a < |log| && IsWork(log[a])
    && (|| log[a].Run?
        || (m.stages[i].graph && OnDevice(log[a]) && log[a].stream == m.stages[i].stream)
        || (m.stages[i].graph && exists r, w :: EventFence(log, a, r, w, m.stages[i].stream))
        || (exists p :: SyncFence(log, a, p)))
  }

  ghost predicate EventFence(log: seq<Item>, a: nat, r: nat, w: nat, stream: int) {
    QueuedBefore(log, a, r) && log[r].Record? && r < w < |log| && log[w] == Wait(Some(r), stream)
  }

  ghost predicate SyncFence(log: seq<Item>, a: nat, p: nat) {
    a < p < |log| && OnDevice(log[a]) && log[p] == Sync(log[a].stream)
  }

  lemma FenceOrders(m: Runtime, log: seq<Item>, a: nat, i: nat)
    requires i < |m.stages| && Fenced(m, log, a, i)
    ensures Ordered(log + [WorkOf(m, i)], a, |log|)
  {
    var log' := log + [WorkOf(m, i)];
    if r, w :| m.stages[i].graph && EventFence(log, a, r, w, m.stages[i].stream) {
      assert EventOrdered(log', a, r, w, |log|);
    } else if p :| SyncFence(log, a, p) {
      assert SyncOrdered(log', a, p, |log|);
    }
  }

  lemma FenceExtends(m: Runtime, log: seq<Item>, item: Item, a: nat, i: nat)
    requires i < |m.stages| && Fenced(m, log, a, i)
    ensures Fenced(m, log + [item], a, i)
  {
    if r, w :| m.stages[i].graph && EventFence(log, a, r, w, m.stages[i].stream) {
      assert EventFence(log + [item], a, r, w, m.stages[i].stream);
    } else if p :| SyncFence(log, a, p) {
      assert SyncFence(log + [item], a, p);
    }
  }

  lemma TraceExtends(m: Runtime, log: seq<Item>, item: Item, base: nat, at: seq<nat>)
    requires Traced(m, log, base, at)
    ensures Traced(m, log + [item], base, at)
  {
    forall i, k | 0 <= i < |at| && 0 <= k < |m.stages[i].after| && m.stages[i].after[k] < i
      ensures Ordered(log + [item], at[m.stages[i].after[k]], at[i])
    {
      OrderedExtends(log, [item], at[m.stages[i].after[k]], at[i]);
    }
  }

  /** Issuing anything but a record leaves the latest records in place. */
  lemma RecordedExtends(m: Runtime, log: seq<Item>, item: Item, at: seq<nat>)
    requires |at| <= |m.stages| && Recorded(m, log, at) && !item.Record?
    ensures Recorded(m, log + [item], at)
  {
    assert (log + [item])[..|log|] == log;
  }

  /** A fence for stage i was issued: everything known before is still known. */
  lemma FenceIssued(m: Runtime, log: seq<Item>, item: Item, base: nat, at: seq<nat>, k: nat)
    requires |at| < |m.stages| && k <= |m.stages[|at|].after|
    requires Traced(m, log, base, at) && Recorded(m, log, at) && !item.Record?
    requires FencedUpTo(m, log, at, k)
    ensures Traced(m, log + [item], base, at) && Recorded(m, log + [item], at)
    ensures FencedUpTo(m, log + [item], at, k)
  {
    TraceExtends(m, log, item, base, at);
    RecordedExtends(m, log, item, at);
    var i := |at|;
    forall n | 0 <= n < k && m.stages[i].after[n] < i
      ensures Fenced(m, log + [item], at[m.stages[i].after[n]], i)
    {
      FenceExtends(m, log, item, at[m.stages[i].after[n]], i);
    }
  }

  /** The next stage, |at|, is fenced against its first k dependencies. */
  ghost predicate FencedUpTo(m: Runtime, log: seq<Item>, at: seq<nat>, k: nat)
    requires |at| < |m.stages| && k <= |m.stages[|at|].after|
  {
    var i := |at|;
    forall n :: 0 <= n < k && m.stages[i].after[n] < i ==> Fenced(m, log, at[m.stages[i].after[n]], i)
  }

  /** A wait on the event of an earlier stage fences that stage's work. */
  lemma WaitFences(m: Runtime, log: seq<Item>, at: seq<nat>, d: nat, events: seq<Option<nat>>)
    requires d < |at| < |m.stages| && m.events == Some(events) && Recorded(m, log, at)
    requires Crosses(m, d, |at|) && events[d].Some?
    requires at[d] < |log| && log[at[d]] == WorkOf(m, d)
    ensures var w := Wait(LatestRecord(log, events[d].value), m.stages[|at|].stream);
      Fenced(m, log + [w], at[d], |at|)
  {
    assert RecordedAt(m, log, at[d], d, events[d].value);
    var r := LatestRecord(log, events[d].value).value;
    var w := Wait(Some(r), m.stages[|at|].stream);
    assert EventFence(log + [w], at[d], r, |log|, m.stages[|at|].stream);
  }

  lemma SyncFences(m: Runtime, log: seq<Item>, at: seq<nat>, d: nat)
    requires d < |at| < |m.stages| && m.stages[d].graph
    requires at[d] < |log| && log[at[d]] == WorkOf(m, d)
    ensures Fenced(m, log + [Sync(m.stages[d].stream)], at[d], |at|)
  {
    assert SyncFence(log + [Sync(m.stages[d].stream)], at[d], |log|);
  }

  /** Stage |at| issues its work, fenced against all its dependencies. */
  lemma WorkIssued(m: Runtime, log: seq<Item>, base: nat, at: seq<nat>)
    requires |at| < |m.stages| && Traced(m, log, base, at) && Recorded(m, log, at)
    requires FencedUpTo(m, log, at, |m.stages[|at|].after|)
    ensures var log' := log + [WorkOf(m, |at|)];
      Traced(m, log', base, at + [|log|]) && Recorded(m, log', at)
  {
    var i := |at|;
    var work := WorkOf(m, i);
    TraceExtends(m, log, work, base, at);
    RecordedExtends(m, log, work, at);
    forall n | 0 <= n < |m.stages[i].after| && m.stages[i].after[n] < i
      ensures Ordered(log + [work], at[m.stages[i].after[n]], |log|)
    {
      FenceOrders(m, log, at[m.stages[i].after[n]], i);
    }
  }

  /** The stage that just ran has no event, or records it now. */
  lemma RecordIssued(m: Runtime, log: seq<Item>, base: nat, at: seq<nat>, events: seq<Option<nat>>)
    requires at != [] && Traced(m, log, base, at) && m.events == Some(events)
    requires |events| == |m.stages| && EventsDistinct(events)
    requires Recorded(m, log, at[..|at| - 1]) && m.stages[|at| - 1].graph && events[|at| - 1].Some?
    ensures var log' := log + [Record(events[|at| - 1].value, m.stages[|at| - 1].stream)];
      Traced(m, log', base, at) && Recorded(m, log', at)
  {
    var i := |at| - 1;
    var item := Record(events[i].value, m.stages[i].stream);
    var log' := log + [item];
    TraceExtends(m, log, item, base, at);
    assert log'[..|log|] == log;
    forall d | 0 <= d < |at| && events[d].Some? && m.stages[d].graph
      ensures RecordedAt(m, log', at[d], d, events[d].value)
    {
      if d < i {
        assert RecordedAt(m, log, at[..i][d], d, events[d].value);
      }
    }
  }

  // ---- the tick of a hand-built schedule -------------------------------------

  predicate Due(e: Entry, clock: nat) { e.every && EveryDue(clock, e.num, e.den) }

  /** Stages j < |fired| were considered; those that fired did so in order, each with a
      latest record of its own event behind it. */
  ghost predicate Driven(s: Schedule, log: seq<Item>, fired: seq<Option<nat>>, evs: seq<Option<nat>>, next: nat) {
    && |evs| == |fired| <= |s.entries|
    && (forall j :: 0 <= j < |fired| && fired[j].Some? ==> DrivenAt(s, log, fired, evs, next, j))
    && (forall j :: 0 <= j < |evs| && evs[j].Some? ==> fired[j].Some?)
    && (forall i, j :: 0 <= i < j < |evs| && evs[i].Some? ==> evs[i] != evs[j])
  }

  ghost predicate DrivenAt(s: Schedule, log: seq<Item>, fired: seq<Option<nat>>, evs: seq<Option<nat>>, next: nat,
                        j: nat)
    requires j < |fired| == |evs| <= |s.entries| && fired[j].Some?
  {
    && fired[j].value < |log| && log[fired[j].value] == Replay(j, s.entries[j].stream)
    && evs[j].Some? && evs[j].value < next
    && var r := LatestRecord(log, evs[j].value);
       r.Some? && fired[j].value < r.value && log[r.value] == Record(evs[j].value, s.entries[j].stream)
  }

  /** A pair of the schedule is honoured if the waited-on stage comes first: its work is
      ordered before the waiter's. */
  ghost predicate Honoured(s: Schedule, log: seq<Item>, fired: seq<Option<nat>>) {
    forall d, i, j ::
      0 <= d < |s.deps| && s.deps[d] == (i, j) && 0 <= j < i < |fired| && fired[j].Some? && fired[i].Some? ==>
        Ordered(log, fired[j].value, fired[i].value)
  }

  lemma DrivenExtends(s: Schedule, log: seq<Item>, item: Item, fired: seq<Option<nat>>, evs: seq<Option<nat>>,
                      next: nat)
    requires Driven(s, log, fired, evs, next) && Honoured(s, log, fired)
    requires item.Record? ==> item.event >= next
    ensures Driven(s, log + [item], fired, evs, next) && Honoured(s, log + [item], fired)
  {
    assert (log + [item])[..|log|] == log;
    forall d, i, j |
      0 <= d < |s.deps| && s.deps[d] == (i, j) && 0 <= j < i < |fired| && fired[j].Some? && fired[i].Some?
      ensures Ordered(log + [item], fired[j].value, fired[i].value)
    {
      OrderedExtends(log, [item], fired[j].value, fired[i].value);
    }
    forall j | 0 <= j < |fired| && fired[j].Some? ensures DrivenAt(s, log + [item], fired, evs, next, j) {
      assert DrivenAt(s, log, fired, evs, next, j);
    }
  }

  /** Stage i waits on its stream for the record behind stage j's work. */
  ghost predicate PairFenced(s: Schedule, log: seq<Item>, fired: seq<Option<nat>>, i: nat, j: int)
    requires i < |s.entries|
  {
    0 <= j < |fired| && fired[j].Some? ==>
      exists r, w :: EventFence(log, fired[j].value, r, w, s.entries[i].stream)
  }

  ghost predicate PairsFenced(s: Schedule, log: seq<Item>, fired: seq<Option<nat>>, i: nat, n: nat)
    requires i < |s.entries| && n <= |s.deps|
  {
    forall d :: 0 <= d < n && s.deps[d].0 == i ==> PairFenced(s, log, fired, i, s.deps[d].1)
  }

  lemma PairFenceExtends(s: Schedule, log: seq<Item>, item: Item, fired: seq<Option<nat>>, i: nat, n: nat)
    requires i < |s.entries| && n <= |s.deps| && PairsFenced(s, log, fired, i, n)
    ensures PairsFenced(s, log + [item], fired, i, n)
  {
    forall d | 0 <= d < n && s.deps[d].0 == i ensures PairFenced(s, log + [item], fired, i, s.deps[d].1) {
      var j := s.deps[d].1;
      if 0 <= j < |fired| && fired[j].Some? {
        var r, w :| EventFence(log, fired[j].value, r, w, s.entries[i].stream);
        assert EventFence(log + [item], fired[j].value, r, w, s.entries[i].stream);
      }
    }
  }

  lemma PairWaitFences(s: Schedule, log: seq<Item>, fired: seq<Option<nat>>, evs: seq<Option<nat>>, next: nat,
                       i: nat, j: nat)
    requires Driven(s, log, fired, evs, next) && j < |fired| && i < |s.entries| && evs[j].Some?
    ensures PairFenced(s, log + [Wait(LatestRecord(log, evs[j].value), s.entries[i].stream)], fired, i, j)
  {
    if fired[j].Some? {
      assert DrivenAt(s, log, fired, evs, next, j);
      var r := LatestRecord(log, evs[j].value).value;
      assert EventFence(log + [Wait(Some(r), s.entries[i].stream)], fired[j].value, r, |log|, s.entries[i].stream);
    }
  }

  lemma PairWaited(s: Schedule, log: seq<Item>, fired: seq<Option<nat>>, evs: seq<Option<nat>>, next: nat, i: nat,
                   d: nat)
    requires i < |s.entries| && d < |s.deps| && Driven(s, log, fired, evs, next) && Honoured(s, log, fired)
    requires PairsFenced(s, log, fired, i, d)
    requires 0 <= s.deps[d].1 < |evs| && evs[s.deps[d].1].Some?
    ensures var log' := log + [Wait(LatestRecord(log, evs[s.deps[d].1].value), s.entries[i].stream)];
      Driven(s, log', fired, evs, next) && Honoured(s, log', fired) && PairsFenced(s, log', fired, i, d + 1)
  {
    var j := s.deps[d].1;
    var wait := Wait(LatestRecord(log, evs[j].value), s.entries[i].stream);
    PairWaitFences(s, log, fired, evs, next, i, j);
    PairFenceExtends(s, log, wait, fired, i, d);
    DrivenExtends(s, log, wait, fired, evs, next);
  }

  /** A pair that needs no wait: it names another waiter, or its other stage did not fire. */
  lemma PairSkipped(s: Schedule, log: seq<Item>, fired: seq<Option<nat>>, evs: seq<Option<nat>>, next: nat, i: nat,
                    d: nat)
    requires i < |s.entries| && d < |s.deps| && Driven(s, log, fired, evs, next)
    requires PairsFenced(s, log, fired, i, d)
    requires s.deps[d].0 == i && 0 <= s.deps[d].1 < |evs| ==> evs[s.deps[d].1].None?
    ensures PairsFenced(s, log, fired, i, d + 1)
  {
    var j := s.deps[d].1;
    if 0 <= j < |fired| && fired[j].Some? {
      assert DrivenAt(s, log, fired, evs, next, j);
    }
  }

  /** Issue a wait for every pair that names stage i as the waiter. */
  method AwaitPairs(s: Schedule, be: Backend, i: nat, evs: seq<Option<nat>>, ghost fired: seq<Option<nat>>)
    requires i < |s.entries| && |evs| == |fired| == i
    modifies be`log, be`calls
    ensures old(be.log) <= be.log && forall p :: |old(be.log)| <= p < |be.log| ==> be.log[p].Wait?
    ensures be.calls >= old(be.calls)
    ensures Worked(be.works, old(be.calls), be.calls) ==>
      Driven(s, old(be.log), fired, evs, be.nextEvent) && Honoured(s, old(be.log), fired) ==>
        && Driven(s, be.log, fired, evs, be.nextEvent) && Honoured(s, be.log, fired)
        && PairsFenced(s, be.log, fired, i, |s.deps|)
  {
    ghost var ready := Driven(s, be.log, fired, evs, be.nextEvent) && Honoured(s, be.log, fired);
    for d := 0 to |s.deps|
      invariant old(be.log) <= be.log && forall p :: |old(be.log)| <= p < |be.log| ==> be.log[p].Wait?
      invariant be.calls >= old(be.calls)
      invariant ready && Worked(be.works, old(be.calls), be.calls) ==>
        && Driven(s, be.log, fired, evs, be.nextEvent) && Honoured(s, be.log, fired)
        && PairsFenced(s, be.log, fired, i, d)
    {
      var j := s.deps[d].1;
      ghost var good := ready && Worked(be.works, old(be.calls), be.calls);
      if s.deps[d].0 == i && 0 <= j < |evs| && evs[j].Some? {
        if good {
          PairWaited(s, be.log, fired, evs, be.nextEvent, i, d);
        }
        var _ := be.Do(Wait(LatestRecord(be.log, evs[j].value), s.entries[i].stream));
      } else if good {
        PairSkipped(s, be.log, fired, evs, be.nextEvent, i, d);
      }
    }
  }

  /** A fenced stage fires and records a fresh event. */
  lemma FireKeeps(s: Schedule, log: seq<Item>, fired: seq<Option<nat>>, evs: seq<Option<nat>>, next: nat)
    requires |fired| < |s.entries| && Driven(s, log, fired, evs, next) && Honoured(s, log, fired)
    requires PairsFenced(s, log, fired, |fired|, |s.deps|)
    ensures var i := |fired|; var stream := s.entries[i].stream;
      var log' := log + [Replay(i, stream)] + [Record(next, stream)];
      && Driven(s, log', fired + [Some(|log|)], evs + [Some(next)], next + 1)
      && Honoured(s, log', fired + [Some(|log|)])
  {
    var i := |fired|;
    var stream := s.entries[i].stream;
    var log1 := log + [Replay(i, stream)];
    var log' := log1 + [Record(next, stream)];
    var fired' := fired + [Some(|log|)];
    DrivenExtends(s, log, Replay(i, stream), fired, evs, next);
    DrivenExtends(s, log1, Record(next, stream), fired, evs, next);
    forall j | 0 <= j < |fired'| && fired'[j].Some?
      ensures DrivenAt(s, log', fired', evs + [Some(next)], next + 1, j)
    {
      if j < i {
        assert DrivenAt(s, log', fired, evs, next, j);
      } else {
        LatestRecordIs(log', next, |log1|);
      }
    }
    assert forall j :: 0 <= j < i && evs[j].Some? ==> evs[j] != Some(next) by {
      EventsBelow(s, log, fired, evs, next);
    }
    forall d, n, j |
      0 <= d < |s.deps| && s.deps[d] == (n, j) && 0 <= j < n < |fired'| && fired'[j].Some? && fired'[n].Some?
      ensures Ordered(log', fired'[j].value, fired'[n].value)
    {
      if n == i {
        assert PairFenced(s, log, fired, i, j);
        var r, w :| EventFence(log, fired[j].value, r, w, stream);
        assert EventOrdered(log', fired[j].value, r, w, |log|);
      }
    }
  }

  lemma EventsBelow(s: Schedule, log: seq<Item>, fired: seq<Option<nat>>, evs: seq<Option<nat>>, next: nat)
    requires Driven(s, log, fired, evs, next)
    ensures forall j :: 0 <= j < |evs| && evs[j].Some? ==> evs[j].value < next
  {
    forall j | 0 <= j < |evs| && evs[j].Some? ensures evs[j].value < next {
      assert DrivenAt(s, log, fired, evs, next, j);
    }
  }

  lemma SkipKeeps(s: Schedule, log: seq<Item>, fired: seq<Option<nat>>, evs: seq<Option<nat>>, next: nat)
    requires |fired| < |s.entries| && Driven(s, log, fired, evs, next) && Honoured(s, log, fired)
    ensures Driven(s, log, fired + [None], evs + [None], next) && Honoured(s, log, fired + [None])
  {
    forall j | 0 <= j < |fired| && fired[j].Some? ensures DrivenAt(s, log, fired + [None], evs + [None], next, j) {
      assert DrivenAt(s, log, fired, evs, next, j);
    }
  }

  /** Of the first |fired| stages exactly the due ones were replayed since `base`, once
      each and in order, and no other stage was. */
  ghost predicate FiredDue(s: Schedule, log: seq<Item>, base: nat, clock: nat, fired: seq<Option<nat>>) {
    && |fired| <= |s.entries| && base <= |log|
    && (forall j :: 0 <= j < |fired| ==> (fired[j].Some? <==> Due(s.entries[j], clock)))
    && (forall j :: 0 <= j < |fired| && fired[j].Some? ==>
          base <= fired[j].value < |log| && log[fired[j].value] == Replay(j, s.entries[j].stream))
    && (forall j, k :: 0 <= j < k < |fired| && fired[j].Some? && fired[k].Some? ==> fired[j].value < fired[k].value)
    && (forall p :: base <= p < |log| && log[p].Replay? ==> log[p].stage < |fired| && fired[log[p].stage] == Some(p))
  }

  lemma FiredExtends(s: Schedule, log: seq<Item>, log': seq<Item>, base: nat, clock: nat, fired: seq<Option<nat>>)
    requires FiredDue(s, log, base, clock, fired) && log <= log'
    requires forall p :: |log| <= p < |log'| ==> !log'[p].Replay?
    ensures FiredDue(s, log', base, clock, fired)
  {
  }

  lemma FiredOne(s: Schedule, log: seq<Item>, base: nat, clock: nat, fired: seq<Option<nat>>)
    requires FiredDue(s, log, base, clock, fired) && |fired| < |s.entries| && Due(s.entries[|fired|], clock)
    ensures FiredDue(s, log + [Replay(|fired|, s.entries[|fired|].stream)], base, clock, fired + [Some(|log|)])
  {
  }

  /** What driving a schedule issued: it stopped, if at all, at a due stage whose replay
      failed; and unless a wait, an event or a record failed unnoticed, the pairs are honoured. */
  ghost predicate DrivenTick(s: Schedule, works: nat -> bool, calls0: nat, calls: nat, base: nat, log: seq<Item>,
                             clock: nat, ok: bool, fired: seq<Option<nat>>)
  {
    && FiredDue(s, log, base, clock, fired)
    && (if ok then |fired| == |s.entries|
        else |fired| < |s.entries| && Due(s.entries[|fired|], clock) && calls0 < calls && !works(calls - 1))
    && (Worked(works, calls0, if ok then calls else calls - 1) ==> Honoured(s, log, fired))
  }

  /** The stages considered so far fired as they should; unless a call failed, every one
      that fired has a record behind it and the pairs are honoured. */
  ghost predicate Driving(s: Schedule, be: Backend, calls0: nat, base: nat, clock: nat, fired: seq<Option<nat>>,
                          evs: seq<Option<nat>>)
    reads be
  {
    && FiredDue(s, be.log, base, clock, fired) && calls0 <= be.calls && |evs| == |fired|
    && (Worked(be.works, calls0, be.calls) ==>
          Driven(s, be.log, fired, evs, be.nextEvent) && Honoured(s, be.log, fired))
  }

  /** Fire the next stage, which is due: wait for its pairs, then replay and record. */
  method FireStage(s: Schedule, be: Backend, evs: seq<Option<nat>>, ghost calls0: nat, ghost base: nat,
                   ghost clock: nat, ghost fired: seq<Option<nat>>)
    returns (ok: bool, event: Option<nat>)
    requires Driving(s, be, calls0, base, clock, fired, evs)
    requires |evs| < |s.entries| && Due(s.entries[|evs|], clock)
    modifies be
    ensures old(be.log) <= be.log
    ensures ok ==> exists position: nat ::
      Driving(s, be, calls0, base, clock, fired + [Some(position)], evs + [event])
    ensures !ok ==> DrivenTick(s, be.works, calls0, be.calls, base, be.log, clock, false, fired)
  {
    ghost var before := be.log;
    AwaitPairs(s, be, |evs|, evs, fired);
    FiredExtends(s, before, be.log, base, clock, fired);
    ok, event := ReplayStage(s, be, evs, calls0, base, clock, fired);
  }

  method ReplayStage(s: Schedule, be: Backend, evs: seq<Option<nat>>, ghost calls0: nat, ghost base: nat,
                     ghost clock: nat, ghost fired: seq<Option<nat>>)
    returns (ok: bool, event: Option<nat>)
    requires Driving(s, be, calls0, base, clock, fired, evs)
    requires |evs| < |s.entries| && Due(s.entries[|evs|], clock)
    requires Worked(be.works, calls0, be.calls) ==> PairsFenced(s, be.log, fired, |fired|, |s.deps|)
    modifies be
    ensures old(be.log) <= be.log
    ensures ok ==> Driving(s, be, calls0, base, clock, fired + [Some(|old(be.log)|)], evs + [event])
    ensures !ok ==> DrivenTick(s, be.works, calls0, be.calls, base, be.log, clock, false, fired)
  {
    event := None;
    ghost var before := be.log;
    FiredOne(s, be.log, base, clock, fired);
    var rc := be.Do(Replay(|evs|, s.entries[|evs|].stream));
    ok := rc == CAP_OK;
    if ok {
      event := RecordReplayed(s, be, evs, calls0, base, clock, fired, before);
    }
  }

  /** Record what was just replayed: whatever was fenced before it is in order behind it. */
  method RecordReplayed(s: Schedule, be: Backend, evs: seq<Option<nat>>, ghost calls0: nat, ghost base: nat,
                        ghost clock: nat, ghost fired: seq<Option<nat>>, ghost before: seq<Item>)
    returns (event: Option<nat>)
    requires |evs| == |fired| < |s.entries| && calls0 < be.calls
    requires be.log == before + [Replay(|fired|, s.entries[|fired|].stream)]
    requires FiredDue(s, be.log, base, clock, fired + [Some(|before|)])
    requires Worked(be.works, calls0, be.calls) ==>
      && Driven(s, before, fired, evs, be.nextEvent) && Honoured(s, before, fired)
      && PairsFenced(s, before, fired, |fired|, |s.deps|)
    modifies be
    ensures old(be.log) <= be.log
    ensures Driving(s, be, calls0, base, clock, fired + [Some(|before|)], evs + [event])
  {
    ghost var replayed := be.log;
    if Worked(be.works, calls0, be.calls) {
      FireKeeps(s, before, fired, evs, be.nextEvent);
    }
    event := RecordFresh(be, s.entries[|evs|].stream);
    FiredExtends(s, replayed, be.log, base, clock, fired + [Some(|before|)]);
  }

  /** Record a fresh event behind what was just replayed; a failure goes unnoticed. */
  method RecordFresh(be: Backend, stream: int) returns (event: Option<nat>)
    modifies be
    ensures old(be.calls) < be.calls && be.nextEvent >= old(be.nextEvent)
    ensures be.log == old(be.log) || exists e: nat :: be.log == old(be.log) + [Record(e, stream)]
    ensures Worked(be.works, old(be.calls), be.calls) ==>
      && event == Some(old(be.nextEvent)) && be.nextEvent == old(be.nextEvent) + 1
      && be.log == old(be.log) + [Record(old(be.nextEvent), stream)]
  {
    event := be.Event();
    if event.Some? {
      var _ := be.Do(Record(event.value, stream));
    }
  }

  /** Fire the stages that are due at `clock`. Failed waits, events and records go
      unnoticed; the result names the stage whose replay failed. `fired` gives the position
      of each stage's work. */
  method DriveTick(s: Schedule, be: Backend, clock: nat) returns (failed: Option<nat>, ghost fired: seq<Option<nat>>)
    modifies be
    ensures old(be.log) <= be.log && (failed.Some? ==> failed.value == |fired|)
    ensures DrivenTick(s, be.works, old(be.calls), be.calls, |old(be.log)|, be.log, clock, failed.None?, fired)
  {
    failed, fired := None, [];
    var evs: seq<Option<nat>> := [];
    for i := 0 to |s.entries|
      invariant old(be.log) <= be.log && failed.None? && |evs| == i
      invariant Driving(s, be, old(be.calls), |old(be.log)|, clock, fired, evs)
    {
      if Due(s.entries[i], clock) {
        var ok, event := FireStage(s, be, evs, old(be.calls), |old(be.log)|, clock, fired);
        if !ok { return Some(i), fired; }
        ghost var position: nat :|
          Driving(s, be, old(be.calls), |old(be.log)|, clock, fired + [Some(position)], evs + [event]);
        evs, fired := evs + [event], fired + [Some(position)];
      } else {
        if Worked(be.works, old(be.calls), be.calls) {
          SkipKeeps(s, be.log, fired, evs, be.nextEvent);
        }
        evs, fired := evs + [None], fired + [None];
      }
    }
  }

  // ---- the tick --------------------------------------------------------------

  /** Make the stream of stage i wait for stage d, if they are graphs on different streams;
      make the host wait if stage i is opaque and d is a graph. */
  method FenceOff(m: Runtime, be: Backend, i: nat, d: nat, ghost base: nat, ghost at: seq<nat>, ghost k: nat)
    returns (rc: int)
    requires Readable(m) && |at| == i < |m.stages| && k < |m.stages[i].after| && d == m.stages[i].after[k]
    requires Traced(m, be.log, base, at) && Recorded(m, be.log, at) && FencedUpTo(m, be.log, at, k)
    requires OnlyAt(be.log, base, at)
    modifies be`log, be`calls
    ensures old(be.log) <= be.log
    ensures Traced(m, be.log, base, at) && Recorded(m, be.log, at) && OnlyAt(be.log, base, at)
    ensures rc == CAP_OK ==> FencedUpTo(m, be.log, at, k + 1)
    ensures Accepted(m) && (forall n :: be.works(n)) ==> rc == CAP_OK
  {
    var stage, before := m.stages[i], m.stages[d];
    rc := CAP_OK;
    if !stage.graph && before.graph {
      if d < i {
        SyncFences(m, be.log, at, d);
      }
      rc := IssueFence(m, be, i, Sync(before.stream), base, at, k);
    } else if stage.graph && before.graph && before.stream != stage.stream {
      if m.events.None? { return CAP_ERR_ARG; }
      if m.events.value[d].None? {
        assert Accepted(m) ==> HasEvent(m, m.events.value, m.stages[i].after[k], i);
        return CAP_ERR_BACKEND;
      }
      if d < i {
        WaitFences(m, be.log, at, d, m.events.value);
      }
      rc := IssueFence(m, be, i, Wait(LatestRecord(be.log, m.events.value[d].value), stage.stream), base, at, k);
    }
  }

  /** Issue what fences stage i against its k-th dependency. */
  method IssueFence(m: Runtime, be: Backend, i: nat, item: Item, ghost base: nat, ghost at: seq<nat>, ghost k: nat)
    returns (rc: int)
    requires |at| == i < |m.stages| && k < |m.stages[i].after| && (item.Sync? || item.Wait?)
    requires Traced(m, be.log, base, at) && Recorded(m, be.log, at) && FencedUpTo(m, be.log, at, k)
    requires OnlyAt(be.log, base, at)
    requires var d := m.stages[i].after[k]; d < i ==> Fenced(m, be.log + [item], at[d], i)
    modifies be`log, be`calls
    ensures old(be.log) <= be.log
    ensures Traced(m, be.log, base, at) && Recorded(m, be.log, at) && OnlyAt(be.log, base, at)
    ensures rc == CAP_OK ==> FencedUpTo(m, be.log, at, k + 1)
    ensures (forall n :: be.works(n)) ==> rc == CAP_OK
  {
    FenceIssued(m, be.log, item, base, at, k);
    OnlyAtMore(be.log, item, base, at);
    rc := be.Do(item);
  }

  /** Issue stage i's work, and its record if it has an event. An opaque stage runs to
      completion here, and what it reports is returned. */
  method RunStage(m: Runtime, be: Backend, i: nat, reports: nat -> int, ghost base: nat, ghost at: seq<nat>)
    returns (rc: int, ghost at': seq<nat>)
    requires Readable(m) && |at| == i < |m.stages|
    requires Traced(m, be.log, base, at) && Recorded(m, be.log, at) && FencedUpTo(m, be.log, at, |m.stages[i].after|)
    requires OnlyAt(be.log, base, at)
    modifies be`log, be`calls
    ensures old(be.log) <= be.log && Traced(m, be.log, base, at')
    ensures OnlyRan(m, be.log, base, at', reports, rc)
    ensures rc == CAP_OK ==> |at'| == i + 1 && Recorded(m, be.log, at') && OnlyAt(be.log, base, at')
    ensures m.stages[i].graph && !be.has(i) ==> rc == CAP_ERR_ARG && be.log == old(be.log)
    ensures (m.stages[i].graph ==> be.has(i)) && (forall n :: be.works(n)) && (forall j :: reports(j) == CAP_OK) ==>
      rc == CAP_OK
  {
    at' := at;
    if m.stages[i].graph {
      ghost var position := |be.log|;
      WorkIssued(m, be.log, base, at);
      OnlyAtNext(m, be.log, base, at);
      rc := be.Fire(i, m.stages[i].stream);
      if rc != CAP_OK { return; }
      at' := at + [position];
      assert at'[..i] == at;
      rc := RecordStage(m, be, i, base, at');
    } else {
      rc, at' := RunHost(m, be, i, reports, base, at);
    }
  }

  /** Record stage i's event, if it has one, behind the work it has just issued. */
  method RecordStage(m: Runtime, be: Backend, i: nat, ghost base: nat, ghost at: seq<nat>) returns (rc: int)
    requires Readable(m) && |at| == i + 1 && i < |m.stages| && m.stages[i].graph
    requires Traced(m, be.log, base, at) && Recorded(m, be.log, at[..i]) && OnlyAt(be.log, base, at)
    modifies be`log, be`calls
    ensures old(be.log) <= be.log && Traced(m, be.log, base, at) && OnlyAt(be.log, base, at)
    ensures rc == CAP_OK ==> Recorded(m, be.log, at)
    ensures (forall n :: be.works(n)) ==> rc == CAP_OK
  {
    rc := CAP_OK;
    if m.events.Some? && m.events.value[i].Some? {
      var record := Record(m.events.value[i].value, m.stages[i].stream);
      RecordIssued(m, be.log, base, at, m.events.value);
      OnlyAtMore(be.log, record, base, at);
      rc := be.Do(record);
    }
  }

  /** Run opaque stage i to completion. */
  method RunHost(m: Runtime, be: Backend, i: nat, reports: nat -> int, ghost base: nat, ghost at: seq<nat>)
    returns (rc: int, ghost at': seq<nat>)
    requires Readable(m) && |at| == i < |m.stages| && !m.stages[i].graph && OnlyAt(be.log, base, at)
    requires Traced(m, be.log, base, at) && Recorded(m, be.log, at) && FencedUpTo(m, be.log, at, |m.stages[i].after|)
    modifies be`log
    ensures old(be.log) <= be.log && Traced(m, be.log, base, at') && rc == reports(i)
    ensures OnlyRan(m, be.log, base, at', reports, rc)
    ensures rc == CAP_OK ==> |at'| == i + 1 && Recorded(m, be.log, at') && OnlyAt(be.log, base, at')
  {
    WorkIssued(m, be.log, base, at);
    OnlyAtNext(m, be.log, base, at);
    TraceExtends(m, be.log, Run(i), base, at);
    ghost var before := be.log;
    be.RunOpaque(i);
    assert be.log[..|be.log| - 1] == before;
    rc := reports(i);
    at' := if rc == CAP_OK then at + [|before|] else at;
    if rc == CAP_OK {
      assert at'[..i] == at;
      OpaqueRecords(m, be.log, at');
    }
  }

  /** An opaque stage has no record to add. */
  lemma OpaqueRecords(m: Runtime, log: seq<Item>, at: seq<nat>)
    requires at != [] && |at| <= |m.stages| && !m.stages[|at| - 1].graph && Recorded(m, log, at[..|at| - 1])
    ensures Recorded(m, log, at)
  {
    if m.events.Some? {
      var events := m.events.value;
      forall d | 0 <= d < |at| && events[d].Some? && m.stages[d].graph
        ensures RecordedAt(m, log, at[d], d, events[d].value)
      {
        assert RecordedAt(m, log, at[..|at| - 1][d], d, events[d].value);
      }
    }
  }

  /** Drive every stage once, in order. `step` is the reply of the model's own step verb,
      if it has one, for a runtime without stages. */
  method Tick(m: Runtime, be: Backend, step: Option<int>, reports: nat -> int)
    returns (rc: int, ghost at: seq<nat>, ghost fired: seq<Option<nat>>)
    requires Readable(m)
    modifies be
    ensures old(be.log) <= be.log
    ensures m.stages == [] ==> be.log == old(be.log) && rc == if step.Some? then step.value else CAP_ERR_ARG
    ensures AllGraph(m) && m.events.None? ==>
      && (rc == CAP_OK || rc == CAP_ERR_BACKEND)
      && DrivenTick(m.schedule, be.works, old(be.calls), be.calls, |old(be.log)|, be.log, 0, rc == CAP_OK, fired)
    ensures !(AllGraph(m) && m.events.None?) ==>
      Traced(m, be.log, |old(be.log)|, at) && OnlyRan(m, be.log, |old(be.log)|, at, reports, rc)
    ensures !(AllGraph(m) && m.events.None?) && rc == CAP_OK ==> |at| == |m.stages|
    ensures rc == CAP_OK && !AllGraph(m) ==> Topological(m)
    ensures Accepted(m) && m.stages != [] && (forall n :: be.works(n)) && (forall j :: reports(j) == CAP_OK) ==>
      Captured(m, be.has) ==> rc == CAP_OK
  {
    at, fired := [], [];
    if m.stages == [] {
      rc := if step.Some? then step.value else CAP_ERR_ARG;
      return;
    }
    if AllGraph(m) && m.events.None? {
      var failed: Option<nat>;
      failed, fired := DriveTick(m.schedule, be, 0);
      rc := if failed.None? then CAP_OK else CAP_ERR_BACKEND;
      return;
    }
    var checked := !AllGraph(m);
    ghost var base := |be.log|;
    for i := 0 to |m.stages|
      invariant old(be.log) <= be.log
      invariant |at| == i && Traced(m, be.log, base, at) && Recorded(m, be.log, at) && OnlyAt(be.log, base, at)
      invariant checked ==> forall j, k :: 0 <= j < i && 0 <= k < |m.stages[j].after| ==> m.stages[j].after[k] < j
    {
      for k := 0 to |m.stages[i].after|
        invariant old(be.log) <= be.log
        invariant Traced(m, be.log, base, at) && Recorded(m, be.log, at) && FencedUpTo(m, be.log, at, k)
        invariant OnlyAt(be.log, base, at)
        invariant checked ==> forall n :: 0 <= n < k ==> m.stages[i].after[n] < i
      {
        if checked && m.stages[i].after[k] >= i { return CAP_ERR_FORMAT, at, fired; }
        rc := FenceOff(m, be, i, m.stages[i].after[k], base, at, k);
        if rc != CAP_OK { return; }
      }
      rc, at := RunStage(m, be, i, reports, base, at);
      if rc != CAP_OK { return; }
    }
    rc := CAP_OK;
  }

  // ---- what it means ---------------------------------------------------------

  /** In every execution of a program that contains a tick, whatever was issued before and
      after it, a stage's work starts only after the work of all its earlier dependencies
      in that tick is done. */
  lemma TickIsOrdered(m: Runtime, log: seq<Item>, base: nat, at: seq<nat>, more: seq<Item>, steps: seq<Step>, i: nat,
                      k: nat)
    requires Traced(m, log, base, at) && Execution(log + more, steps)
    requires i < |at| && k < |m.stages[i].after| && m.stages[i].after[k] < i
    ensures at[i] in After(steps).started ==> at[m.stages[i].after[k]] in After(steps).done
  {
    var d := m.stages[i].after[k];
    OrderedExtends(log, more, at[d], at[i]);
    OrderedHolds(log + more, at[d], at[i], steps);
  }
}
