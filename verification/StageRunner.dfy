/** The stage runner: fire, query and sync single stages over a runtime, on a backend that
    reports no errors. Safety holds for any sequence of calls and any interleaving. */
module StageRunner {
  import opened Wrappers
  import opened Cadence
  import opened Streams
  import opened StageTick

  /** The host has observed that the device work at a is done: it synced the stream, or a
      query found a record behind a complete. */
  ghost predicate SettledAt(log: seq<Item>, a: nat, p: nat) {
    && a < p < |log| && OnDevice(log[a])
    && (|| log[p] == Sync(log[a].stream)
        || (log[p].Seen? && a < log[p].seen < p && log[log[p].seen].Record? && QueuedBefore(log, a, log[p].seen)))
  }

  ghost predicate Settled(log: seq<Item>, a: nat, b: nat) {
    exists p: nat :: SettledAt(log, a, p) && p < b
  }

  predicate IsReplay(log: seq<Item>, a: nat, i: nat) {
    a < |log| && log[a].Replay? && log[a].stage == i
  }

  /** No stage was replayed again before its previous replay was observed done. */
  ghost predicate NoOverlap(log: seq<Item>) {
    forall a: nat, b: nat, i: nat :: a < b && IsReplay(log, a, i) && IsReplay(log, b, i) ==> Settled(log, a, b)
  }

  /** In every execution, at most one replay of a stage is ever outstanding. */
  lemma AtMostOneOutstanding(log: seq<Item>, steps: seq<Step>, a: nat, b: nat, i: nat)
    requires NoOverlap(log) && Execution(log, steps)
    requires a < b && IsReplay(log, a, i) && IsReplay(log, b, i)
    ensures b < After(steps).issued ==> a in After(steps).done
  {
    if b < After(steps).issued {
      assert Settled(log, a, b);
      var p: nat :| SettledAt(log, a, p) && p < b;
      SettledIsDone(log, steps, a, p);
    }
  }

  /** Work that was observed done is done, as soon as the host has passed the observation. */
  lemma SettledIsDone(log: seq<Item>, steps: seq<Step>, a: nat, p: nat)
    requires Execution(log, steps) && SettledAt(log, a, p) && p < After(steps).issued
    ensures a in After(steps).done
  {
    ExecutionConsistent(log, steps);
    var m := After(steps);
    if log[p].Sync? {
      assert Drained(log, log[p].stream, p, m.done);
    } else {
      assert log[p].seen in m.done;
    }
  }

  lemma SettledExtends(log: seq<Item>, item: Item, a: nat, b: nat)
    requires b <= |log| && Settled(log, a, b)
    ensures Settled(log + [item], a, b)
  {
    var p: nat :| SettledAt(log, a, p) && p < b;
    assert SettledAt(log + [item], a, p);
  }

  lemma NoOverlapExtends(log: seq<Item>, item: Item)
    requires NoOverlap(log)
    requires item.Replay? ==> forall a: nat :: IsReplay(log, a, item.stage) ==> Settled(log, a, |log|)
    ensures NoOverlap(log + [item])
  {
    var log' := log + [item];
    forall a: nat, b: nat, i: nat | a < b && IsReplay(log', a, i) && IsReplay(log', b, i) ensures Settled(log', a, b) {
      assert IsReplay(log, a, i);
      if b < |log| {
        assert IsReplay(log, b, i);
      }
      SettledExtends(log, item, a, b);
    }
  }

  /** Every replay is the work of a stage of the runtime. */
  ghost predicate OnlyWork(m: Runtime, log: seq<Item>) {
    forall a :: 0 <= a < |log| && log[a].Replay? ==> log[a].stage < |m.stages| && log[a] == WorkOf(m, log[a].stage)
  }

  /** Where stage i's latest work is. */
  ghost predicate LatestWork(m: Runtime, log: seq<Item>, i: nat, a: nat)
    requires i < |m.stages|
  {
    && a < |log| && log[a] == WorkOf(m, i)
    && forall b :: a < b < |log| ==> log[b] != WorkOf(m, i)
  }

  /** What the runner knows about stage i: its latest work is at `last`; a graph's work is
      followed by the latest record of its event, and unless it is flagged in flight it has
      been observed done. */
  ghost predicate StageKnown(m: Runtime, log: seq<Item>, event: nat, inFlight: bool, fired: bool, last: nat, i: nat)
    requires i < |m.stages|
  {
    if !fired then forall b :: 0 <= b < |log| ==> log[b] != WorkOf(m, i)
    else
      && LatestWork(m, log, i, last)
      && (m.stages[i].graph ==>
            && RecordedAt(m, log, last, i, event)
            && (!inFlight ==> Settled(log, last, |log|)))
  }

  lemma KnownExtends(m: Runtime, log: seq<Item>, item: Item, event: nat, inFlight: bool, fired: bool, last: nat, i: nat)
    requires i < |m.stages| && StageKnown(m, log, event, inFlight, fired, last, i)
    requires item != WorkOf(m, i) && (item.Record? ==> item.event != event)
    ensures StageKnown(m, log + [item], event, inFlight, fired, last, i)
  {
    assert (log + [item])[..|log|] == log;
    if fired && m.stages[i].graph && !inFlight {
      SettledExtends(log, item, last, |log|);
    }
  }

  /** A sync of stage i's stream observes its latest work done. */
  lemma KnownSynced(m: Runtime, log: seq<Item>, event: nat, inFlight: bool, fired: bool, last: nat, i: nat)
    requires i < |m.stages| && m.stages[i].graph && StageKnown(m, log, event, inFlight, fired, last, i)
    ensures StageKnown(m, log + [Sync(m.stages[i].stream)], event, false, fired, last, i)
  {
    KnownExtends(m, log, Sync(m.stages[i].stream), event, true, fired, last, i);
    if fired {
      assert SettledAt(log + [Sync(m.stages[i].stream)], last, |log|);
    }
  }

  /** A query that finds the latest record complete observes the latest work done. */
  lemma KnownSeen(m: Runtime, log: seq<Item>, event: nat, inFlight: bool, last: nat, i: nat)
    requires i < |m.stages| && m.stages[i].graph && StageKnown(m, log, event, inFlight, true, last, i)
    ensures var seen := Seen(LatestRecord(log, event).value);
      StageKnown(m, log + [seen], event, false, true, last, i)
  {
    var seen := Seen(LatestRecord(log, event).value);
    KnownExtends(m, log, seen, event, true, true, last, i);
    assert SettledAt(log + [seen], last, |log|);
  }

  /** Before a stage that is not in flight fires again, all its replays were observed done. */
  lemma ReplaysSettled(m: Runtime, log: seq<Item>, event: nat, fired: bool, last: nat, i: nat)
    requires i < |m.stages| && m.stages[i].graph && StageKnown(m, log, event, false, fired, last, i)
    requires NoOverlap(log) && OnlyWork(m, log)
    ensures forall a: nat :: IsReplay(log, a, i) ==> Settled(log, a, |log|)
  {
    forall a: nat | IsReplay(log, a, i) ensures Settled(log, a, |log|) {
      assert log[a] == WorkOf(m, i);
      if a < last {
        assert IsReplay(log, last, i);
        var p: nat :| SettledAt(log, a, p) && p < last;
      }
    }
  }

  /** Stage i's work was just issued, and for a graph its record behind it. */
  lemma KnownFired(m: Runtime, log: seq<Item>, event: nat, i: nat)
    requires i < |m.stages|
    ensures var log1 := log + [WorkOf(m, i)];
      StageKnown(m, if m.stages[i].graph then log1 + [Record(event, m.stages[i].stream)] else log1,
                 event, m.stages[i].graph, true, |log|, i)
  {
    var log1 := log + [WorkOf(m, i)];
    if m.stages[i].graph {
      LatestRecordIs(log1 + [Record(event, m.stages[i].stream)], event, |log1|);
    }
  }

  /** What orders a stage after others: for a graph, waits of its own stream; for an opaque
      stage, the host waits. */
  predicate IsFence(stage: Stage, item: Item) {
    if stage.graph then item.Wait? && item.stream == stage.stream else item.Sync?
  }

  ghost predicate OnlyFences(stage: Stage, log: seq<Item>, base: nat) {
    forall p :: base <= p < |log| ==> IsFence(stage, log[p])
  }

  /** What firing stage i issues once it is fenced: its work, for a graph with its record,
      and the observation that it is done already, if it is. */
  function Issued(m: Runtime, event: nat, i: nat, position: nat, seen: bool): seq<Item>
    requires i < |m.stages|
  {
    if !m.stages[i].graph then [WorkOf(m, i)]
    else [WorkOf(m, i), Record(event, m.stages[i].stream)] + if seen then [Seen(position + 1)] else []
  }

  /** Since `base` nothing was replayed or run but the stages of the mask before n, each at
      its `last` position. */
  ghost predicate OnlyMasked(log: seq<Item>, base: nat, mask: seq<bool>, n: nat, last: seq<nat>) {
    forall p :: base <= p < |log| && (log[p].Replay? || log[p].Run?) ==>
      log[p].stage < n && log[p].stage < |mask| && log[p].stage < |last|
      && mask[log[p].stage] && last[log[p].stage] == p
  }

  lemma FencesMasked(stage: Stage, log0: seq<Item>, log: seq<Item>, base: nat, mask: seq<bool>, n: nat, last: seq<nat>)
    requires log0 <= log && OnlyMasked(log0, base, mask, n, last) && OnlyFences(stage, log, |log0|)
    ensures OnlyMasked(log, base, mask, n, last)
  {
  }

  lemma IssuedMasked(m: Runtime, event: nat, seen: bool, log: seq<Item>, base: nat, mask: seq<bool>, i: nat,
                     last: seq<nat>)
    requires i < |m.stages| == |mask| == |last| && mask[i] && OnlyMasked(log, base, mask, i, last)
    ensures OnlyMasked(log + Issued(m, event, i, |log|, seen), base, mask, i + 1, last[i := |log|])
  {
  }

  class Runner {
    const m: Runtime
    /** One event per stage; only graphs use theirs. */
    const done: seq<nat>
    var inFlight: seq<bool>
    var hasEvent: seq<bool>
    /** The program issued so far. */
    var log: seq<Item>
    /** Position of each fired stage's latest work. */
    ghost var last: seq<nat>

    ghost predicate Valid()
      reads this
    {
      && |done| == |inFlight| == |hasEvent| == |last| == |m.stages|
      && (forall i, j :: 0 <= i < j < |done| ==> done[i] != done[j])
      && (forall i, k :: 0 <= i < |m.stages| && 0 <= k < |m.stages[i].after| ==> m.stages[i].after[k] < |m.stages|)
      && (forall i :: 0 <= i < |m.stages| ==> StageKnown(m, log, done[i], inFlight[i], hasEvent[i], last[i], i))
      && (forall i :: 0 <= i < |m.stages| && inFlight[i] ==> m.stages[i].graph && hasEvent[i])
      && NoOverlap(log) && OnlyWork(m, log)
    }

    constructor (m: Runtime, done: seq<nat>)
      requires |done| == |m.stages| && forall i, j :: 0 <= i < j < |done| ==> done[i] != done[j]
      requires forall i, k :: 0 <= i < |m.stages| && 0 <= k < |m.stages[i].after| ==> m.stages[i].after[k] < |m.stages|
      ensures Valid() && this.m == m && this.done == done && log == []
      ensures forall i :: 0 <= i < |m.stages| ==> !inFlight[i] && !hasEvent[i]
    {
      this.m, this.done := m, done;
      inFlight, hasEvent := seq(|m.stages|, _ => false), seq(|m.stages|, _ => false);
      log, last := [], seq(|m.stages|, _ => 0);
    }

    /** Wait for a stage's stream. */
    method SyncStage(i: nat) returns (rc: int)
      requires Valid()
      modifies this`inFlight, this`log
      ensures Valid() && hasEvent == old(hasEvent) && last == old(last)
      ensures rc == (if i < |m.stages| && (m.stages[i].graph || hasEvent[i]) then CAP_OK else CAP_ERR_ARG)
      ensures log == if rc == CAP_OK && m.stages[i].graph then old(log) + [Sync(m.stages[i].stream)] else old(log)
      ensures inFlight == if rc == CAP_OK && m.stages[i].graph then old(inFlight)[i := false] else old(inFlight)
    {
      if i >= |m.stages| { return CAP_ERR_ARG; }
      if !m.stages[i].graph { return if hasEvent[i] then CAP_OK else CAP_ERR_ARG; }
      var sync := Sync(m.stages[i].stream);
      NoOverlapExtends(log, sync);
      forall j | 0 <= j < |m.stages|
        ensures StageKnown(m, log + [sync], done[j], if j == i then false else inFlight[j], hasEvent[j], last[j], j)
      {
        if j == i {
          KnownSynced(m, log, done[j], inFlight[j], hasEvent[j], last[j], j);
        } else {
          KnownExtends(m, log, sync, done[j], inFlight[j], hasEvent[j], last[j], j);
        }
      }
      log := log + [sync];
      inFlight := inFlight[i := false];
      return CAP_OK;
    }

    /** Ask whether a stage is done; the backend's reply is zero or positive. */
    method Query(i: nat, reply: nat) returns (rc: int)
      requires Valid()
      modifies this`inFlight, this`log
      ensures Valid() && hasEvent == old(hasEvent) && last == old(last) && old(log) <= log
      ensures i < |m.stages| && hasEvent[i] && m.stages[i].graph && rc == 0 ==>
        log == old(log) + [log[|log| - 1]] && log[|log| - 1].Seen? && inFlight == old(inFlight)[i := false]
      ensures !(i < |m.stages| && hasEvent[i] && m.stages[i].graph && rc == 0) ==>
        log == old(log) && inFlight == old(inFlight)
      ensures rc == if i >= |m.stages| || !hasEvent[i] then CAP_ERR_ARG
                    else if m.stages[i].graph then reply else CAP_OK
      ensures i < |m.stages| && hasEvent[i] && m.stages[i].graph && rc == 0 ==>
        !inFlight[i] && Settled(log, last[i], |log|)
    {
      if i >= |m.stages| || !hasEvent[i] { return CAP_ERR_ARG; }
      if !m.stages[i].graph { return CAP_OK; }
      if reply == 0 {
        MarkSeen(i);
      }
      return reply;
    }

    /** A query found stage i's latest record complete. */
    method MarkSeen(i: nat)
      requires Valid() && i < |m.stages| && hasEvent[i] && m.stages[i].graph
      modifies this`inFlight, this`log
      ensures Valid() && inFlight == old(inFlight)[i := false]
      ensures log == old(log) + [Seen(LatestRecord(old(log), done[i]).value)]
    {
      var seen := Seen(LatestRecord(log, done[i]).value);
      NoOverlapExtends(log, seen);
      forall j | 0 <= j < |m.stages|
        ensures StageKnown(m, log + [seen], done[j], if j == i then false else inFlight[j], hasEvent[j], last[j], j)
      {
        if j == i {
          KnownSeen(m, log, done[j], inFlight[j], last[j], j);
        } else {
          KnownExtends(m, log, seen, done[j], inFlight[j], hasEvent[j], last[j], j);
        }
      }
      log := log + [seen];
      inFlight := inFlight[i := false];
    }

    /** The stage about to fire is fenced against its first k dependencies. */
    ghost predicate FencedTo(i: nat, k: nat)
      requires Valid() && i < |m.stages| && k <= |m.stages[i].after|
      reads this
    {
      forall n :: 0 <= n < k ==>
        var d := m.stages[i].after[n]; d < i && hasEvent[d] && Fenced(m, log, last[d], i)
    }

    /** Order stage i after the latest work of its k-th dependency. */
    method Await(i: nat, k: nat) returns (rc: int)
      requires Valid() && i < |m.stages| && k < |m.stages[i].after| && FencedTo(i, k)
      modifies this`inFlight, this`log
      ensures Valid() && hasEvent == old(hasEvent) && last == old(last) && old(log) <= log
      ensures inFlight[i] == old(inFlight[i]) && OnlyFences(m.stages[i], log, |old(log)|)
      ensures m.stages[i].graph ==> inFlight == old(inFlight)
      ensures forall j :: 0 <= j < |inFlight| && inFlight[j] ==> old(inFlight)[j]
      ensures rc == (if m.stages[i].after[k] < i && hasEvent[m.stages[i].after[k]] then CAP_OK else CAP_ERR_ARG)
      ensures rc == CAP_OK ==> FencedTo(i, k + 1)
    {
      var d := m.stages[i].after[k];
      if d >= i || !hasEvent[d] { return CAP_ERR_ARG; }
      assert StageKnown(m, log, done[d], inFlight[d], true, last[d], d);
      if !m.stages[i].graph && m.stages[d].graph {
        AwaitOnHost(i, d, k);
      } else if m.stages[i].graph && m.stages[d].graph && m.stages[d].stream != m.stages[i].stream {
        AwaitOnStream(i, d, k);
      }
      return CAP_OK;
    }

    /** The host waits for stage d's stream. */
    method AwaitOnHost(i: nat, d: nat, ghost k: nat)
      requires Valid() && d < i < |m.stages| && k <= |m.stages[i].after| && FencedTo(i, k)
      requires m.stages[d].graph && hasEvent[d]
      modifies this`inFlight, this`log
      ensures Valid() && hasEvent == old(hasEvent) && last == old(last) && old(log) <= log
      ensures inFlight[i] == old(inFlight[i]) && FencedTo(i, k) && Fenced(m, log, last[d], i)
      ensures inFlight == old(inFlight)[d := false] && log == old(log) + [Sync(m.stages[d].stream)]
    {
      assert StageKnown(m, log, done[d], inFlight[d], true, last[d], d);
      ghost var before := log;
      var _ := SyncStage(d);
      assert SyncFence(log, last[d], |before|);
      KeepFences(before, Sync(m.stages[d].stream), i, k);
    }

    /** Stage i's stream waits for the record behind stage d's work. */
    method AwaitOnStream(i: nat, d: nat, ghost k: nat)
      requires Valid() && d < i < |m.stages| && k <= |m.stages[i].after| && FencedTo(i, k)
      requires m.stages[d].graph && m.stages[i].graph && hasEvent[d]
      modifies this`log
      ensures Valid() && old(log) <= log && OnlyFences(m.stages[i], log, |old(log)|)
      ensures FencedTo(i, k) && Fenced(m, log, last[d], i)
    {
      assert StageKnown(m, log, done[d], inFlight[d], true, last[d], d);
      ghost var before := log;
      var wait := Wait(LatestRecord(log, done[d]), m.stages[i].stream);
      Push(wait);
      assert EventFence(log, last[d], LatestRecord(before, done[d]).value, |before|, m.stages[i].stream);
      KeepFences(before, wait, i, k);
    }

    /** Fences issued before `item` still hold after it. */
    lemma KeepFences(before: seq<Item>, item: Item, i: nat, k: nat)
      requires Valid() && i < |m.stages| && k <= |m.stages[i].after| && log == before + [item]
      requires forall n :: 0 <= n < k ==>
        var d := m.stages[i].after[n]; d < i && hasEvent[d] && Fenced(m, before, last[d], i)
      ensures FencedTo(i, k)
    {
      forall n | 0 <= n < k ensures Fenced(m, log, last[m.stages[i].after[n]], i) {
        FenceExtends(m, before, item, last[m.stages[i].after[n]], i);
      }
    }

    /** Issue an item that is neither work nor a record. */
    method Push(item: Item)
      requires Valid() && !item.Replay? && !item.Run? && !item.Record?
      modifies this`log
      ensures Valid() && log == old(log) + [item]
    {
      NoOverlapExtends(log, item);
      forall j | 0 <= j < |m.stages|
        ensures StageKnown(m, log + [item], done[j], inFlight[j], hasEvent[j], last[j], j)
      {
        KnownExtends(m, log, item, done[j], inFlight[j], hasEvent[j], last[j], j);
      }
      log := log + [item];
    }

    /** Issue stage i's work, and for a graph its record. */
    method Issue(i: nat)
      requires Valid() && i < |m.stages| && !inFlight[i]
      modifies this
      ensures Valid() && hasEvent == old(hasEvent)[i := true] && last == old(last)[i := |old(log)|]
      ensures inFlight == old(inFlight)[i := m.stages[i].graph]
      ensures log == old(log) + Issued(m, done[i], i, |old(log)|, false)
    {
      var work := WorkOf(m, i);
      if m.stages[i].graph {
        ReplaysSettled(m, log, done[i], hasEvent[i], last[i], i);
      }
      NoOverlapExtends(log, work);
      KnownFired(m, log, done[i], i);
      var log' := log + [work];
      forall j | 0 <= j < |m.stages| && j != i
        ensures StageKnown(m, log', done[j], inFlight[j], hasEvent[j], last[j], j)
      {
        KnownExtends(m, log, work, done[j], inFlight[j], hasEvent[j], last[j], j);
      }
      if m.stages[i].graph {
        var record := Record(done[i], m.stages[i].stream);
        NoOverlapExtends(log', record);
        forall j | 0 <= j < |m.stages| && j != i
          ensures StageKnown(m, log' + [record], done[j], inFlight[j], hasEvent[j], last[j], j)
        {
          KnownExtends(m, log', record, done[j], inFlight[j], hasEvent[j], last[j], j);
        }
        log' := log' + [record];
      }
      last := last[i := |log|];
      log := log';
      hasEvent := hasEvent[i := true];
      inFlight := inFlight[i := m.stages[i].graph];
    }

    /** Order stage i after all its dependencies. */
    method AwaitAll(i: nat) returns (rc: int)
      requires Valid() && i < |m.stages|
      modifies this`inFlight, this`log
      ensures Valid() && hasEvent == old(hasEvent) && last == old(last) && old(log) <= log
      ensures inFlight[i] == old(inFlight[i]) && OnlyFences(m.stages[i], log, |old(log)|)
      ensures m.stages[i].graph ==> inFlight == old(inFlight)
      ensures forall j :: 0 <= j < |inFlight| && inFlight[j] ==> old(inFlight)[j]
      ensures rc == CAP_OK ==> FencedTo(i, |m.stages[i].after|)
      ensures rc == CAP_OK <==> forall k :: 0 <= k < |m.stages[i].after| ==>
        m.stages[i].after[k] < i && hasEvent[m.stages[i].after[k]]
    {
      for k := 0 to |m.stages[i].after|
        invariant Valid() && old(log) <= log && hasEvent == old(hasEvent) && last == old(last)
        invariant inFlight[i] == old(inFlight[i]) && OnlyFences(m.stages[i], log, |old(log)|)
        invariant m.stages[i].graph ==> inFlight == old(inFlight)
        invariant forall j :: 0 <= j < |inFlight| && inFlight[j] ==> old(inFlight)[j]
        invariant FencedTo(i, k)
      {
        rc := Await(i, k);
        if rc != CAP_OK { return; }
      }
      return CAP_OK;
    }

    /** Issue a fenced stage, and take note if it is done at once. */
    method IssueFenced(i: nat, done0: bool)
      requires Valid() && i < |m.stages| && !inFlight[i] && FencedTo(i, |m.stages[i].after|)
      modifies this
      ensures Valid() && hasEvent == old(hasEvent)[i := true] && last == old(last)[i := |old(log)|]
      ensures log == old(log) + Issued(m, done[i], i, |old(log)|, done0)
      ensures inFlight == old(inFlight)[i := m.stages[i].graph && !done0]
      ensures forall k :: 0 <= k < |m.stages[i].after| ==> Ordered(log, old(last)[m.stages[i].after[k]], last[i])
    {
      ghost var before := log;
      Issue(i);
      ghost var at, fired := |before|, log;
      assert StageKnown(m, log, done[i], inFlight[i], true, last[i], i);
      if m.stages[i].graph && done0 {
        RecordIsLatest(before, done[i], i);
        MarkSeen(i);
      }
      var work := WorkOf(m, i);
      assert log == before + [work] + log[|before| + 1..];
      forall k | 0 <= k < |m.stages[i].after|
        ensures Ordered(log, old(last)[m.stages[i].after[k]], at)
      {
        FenceOrders(m, before, old(last)[m.stages[i].after[k]], i);
        OrderedExtends(before + [work], log[|before| + 1..], old(last)[m.stages[i].after[k]], at);
      }
    }

    lemma RecordIsLatest(before: seq<Item>, event: nat, i: nat)
      requires i < |m.stages| && m.stages[i].graph
      ensures LatestRecord(before + Issued(m, event, i, |before|, false), event) == Some(|before| + 1)
    {
      LatestRecordIs(before + Issued(m, event, i, |before|, false), event, |before| + 1);
    }

    /** Fire one stage: order it after its dependencies, run it, record its event, and ask
        at once whether it is done. `executed` is what running it reports; a stage that
        reports a failure counts as not fired. */
    method Fire(i: nat, executed: int, reply: nat) returns (rc: int)
      requires Valid()
      modifies this
      ensures Valid() && old(log) <= log
      ensures rc == CAP_OK ==> i < |m.stages| && FiredOnce(i, reply, old(log), old(hasEvent), old(last))
      ensures rc != CAP_OK ==> hasEvent == old(hasEvent) && last == old(last)
      ensures rc != CAP_OK ==> log == old(log) || (i < |m.stages| && OnlyFences(m.stages[i], log, |old(log)|))
      ensures forall j :: 0 <= j < |inFlight| && j != i && inFlight[j] ==> old(inFlight)[j]
      ensures rc == CAP_OK && m.stages[i].graph ==> inFlight == old(inFlight)[i := reply != 0]
      ensures rc == CAP_OK <==> (
        && i < |m.stages| && !old(inFlight)[i] && executed == CAP_OK
        && forall k :: 0 <= k < |m.stages[i].after| ==>
             m.stages[i].after[k] < i && old(hasEvent)[m.stages[i].after[k]])
    {
      if i >= |m.stages| || inFlight[i] { return CAP_ERR_ARG; }
      rc := AwaitAll(i);
      if rc != CAP_OK { return; }
      if executed != CAP_OK { return executed; }
      ghost var fenced := log;
      IssueFenced(i, reply == 0);
      assert log[..last[i]] == fenced && log[last[i]..] == Issued(m, done[i], i, last[i], reply == 0);
      assert LatestWork(m, log, i, last[i]) by {
        assert StageKnown(m, log, done[i], inFlight[i], true, last[i], i);
      }
    }

    /** Stage i has fired once: after nothing but fences its work and, for a graph, its record
        were issued, and the work is ordered after the latest work of every dependency. */
    ghost predicate FiredOnce(i: nat, reply: nat, log0: seq<Item>, hasEvent0: seq<bool>, last0: seq<nat>)
      requires Valid() && i < |m.stages| == |hasEvent0| == |last0|
      reads this
    {
      && hasEvent == hasEvent0[i := true] && last == last0[i := last[i]]
      && |log0| <= last[i] && LatestWork(m, log, i, last[i])
      && log0 <= log[..last[i]] && OnlyFences(m.stages[i], log[..last[i]], |log0|)
      && log[last[i]..] == Issued(m, done[i], i, last[i], reply == 0)
      && inFlight[i] == (m.stages[i].graph && reply != 0)
      && forall k :: 0 <= k < |m.stages[i].after| ==>
           var d := m.stages[i].after[k]; d < i && hasEvent0[d] && Ordered(log, last0[d], last[i])
    }

    /** The latest work of stage i is ordered after the latest work of its dependencies. */
    ghost predicate Behind(i: nat)
      requires Valid() && i < |m.stages|
      reads this
    {
      forall k :: 0 <= k < |m.stages[i].after| ==>
        var d := m.stages[i].after[k]; d < i && hasEvent[d] && Ordered(log, last[d], last[i])
    }

    /** Of the stages before n exactly those of the mask have fired since `base`, in order
        and each behind its dependencies; the others are as they were, and nothing else was
        replayed or run. */
    ghost predicate FiredBelow(mask: seq<bool>, n: nat, base: nat, before: seq<bool>, lastBefore: seq<nat>)
      requires Valid() && |mask| == |before| == |lastBefore| == |m.stages| && n <= |m.stages|
      reads this
    {
      && (forall j :: 0 <= j < n && mask[j] ==> hasEvent[j] && base <= last[j] && Behind(j))
      && (forall j, k :: 0 <= j < k < n && mask[j] && mask[k] ==> last[j] < last[k])
      && (forall j :: 0 <= j < |m.stages| && (j >= n || !mask[j]) ==>
            hasEvent[j] == before[j] && last[j] == lastBefore[j])
      && OnlyMasked(log, base, mask, n, last)
    }

    /** Fire the stages of a mask in order; stop at the first failure. `n` is the number of
        stages gone through: all of them, or up to the one that failed. */
    method RunMask(mask: seq<bool>, executed: nat -> int, reply: nat -> nat) returns (rc: int, ghost n: nat)
      requires Valid() && |mask| == |m.stages|
      modifies this
      ensures Valid() && old(log) <= log
      ensures |m.stages| > 64 ==> rc == CAP_ERR_ARG && log == old(log) && n == 0
      ensures n <= |m.stages| && FiredBelow(mask, n, |old(log)|, old(hasEvent), old(last))
      ensures rc == CAP_OK ==> n == |m.stages|
      ensures rc != CAP_OK && |m.stages| <= 64 ==> n < |m.stages| && mask[n]
    {
      n := 0;
      if |m.stages| > 64 { return CAP_ERR_ARG, n; }
      for i := 0 to |m.stages|
        invariant Valid() && old(log) <= log && n == i
        invariant FiredBelow(mask, i, |old(log)|, old(hasEvent), old(last))
      {
        if mask[i] {
          rc := FireNext(i, executed(i), reply(i), mask, |old(log)|, old(hasEvent), old(last));
          if rc != CAP_OK { return; }
        }
        n := n + 1;
      }
      return CAP_OK, n;
    }

    /** Fire the next stage of a mask. */
    method FireNext(i: nat, executed: int, reply: nat, ghost mask: seq<bool>, ghost base: nat,
                    ghost before: seq<bool>, ghost lastBefore: seq<nat>) returns (rc: int)
      requires Valid() && |mask| == |before| == |lastBefore| == |m.stages|
      requires i < |m.stages| && mask[i] && base <= |log|
      requires FiredBelow(mask, i, base, before, lastBefore)
      modifies this
      ensures Valid() && old(log) <= log
      ensures FiredBelow(mask, if rc == CAP_OK then i + 1 else i, base, before, lastBefore)
    {
      ghost var log0, hasEvent0, last0 := log, hasEvent, last;
      LastInLog(mask, i);
      rc := Fire(i, executed, reply);
      forall j | 0 <= j < i && mask[j] ensures Behind(j) {
        BehindKept(j, log0, hasEvent0, last0);
      }
      if rc == CAP_OK {
        NextMasked(i, reply, log0, hasEvent0, last0, mask, base);
      } else {
        if log != log0 {
          FencesMasked(m.stages[i], log0, log, base, mask, i, last);
        }
      }
    }

    lemma NextMasked(i: nat, reply: nat, log0: seq<Item>, hasEvent0: seq<bool>, last0: seq<nat>, mask: seq<bool>,
                     base: nat)
      requires Valid() && i < |m.stages| == |hasEvent0| == |last0| == |mask| && mask[i]
      requires FiredOnce(i, reply, log0, hasEvent0, last0) && OnlyMasked(log0, base, mask, i, last0)
      ensures OnlyMasked(log, base, mask, i + 1, last) && Behind(i)
    {
      var fenced := log[..last[i]];
      FencesMasked(m.stages[i], log0, fenced, base, mask, i, last0);
      IssuedMasked(m, done[i], reply == 0, fenced, base, mask, i, last0);
      assert log == fenced + Issued(m, done[i], i, |fenced|, reply == 0);
    }

    lemma LastInLog(mask: seq<bool>, n: nat)
      requires Valid() && |mask| == |m.stages| && n <= |m.stages|
      requires forall j :: 0 <= j < n && mask[j] ==> hasEvent[j]
      ensures forall j :: 0 <= j < n && mask[j] ==> last[j] < |log|
    {
      forall j | 0 <= j < n && mask[j] ensures last[j] < |log| {
        assert StageKnown(m, log, done[j], inFlight[j], hasEvent[j], last[j], j);
      }
    }

    /** A stage stays behind its dependencies while neither it nor they fire again. */
    lemma BehindKept(j: nat, log0: seq<Item>, hasEvent0: seq<bool>, last0: seq<nat>)
      requires Valid() && j < |m.stages| && log0 <= log && |hasEvent0| == |last0| == |m.stages|
      requires forall d :: 0 <= d <= j ==> hasEvent[d] == hasEvent0[d] && last[d] == last0[d]
      requires forall k :: 0 <= k < |m.stages[j].after| ==>
        var d := m.stages[j].after[k]; d < j && hasEvent0[d] && Ordered(log0, last0[d], last0[j])
      ensures Behind(j)
    {
      assert log0 + log[|log0|..] == log;
      forall k | 0 <= k < |m.stages[j].after|
        ensures Ordered(log, last[m.stages[j].after[k]], last[j])
      {
        OrderedExtends(log0, log[|log0|..], last[m.stages[j].after[k]], last[j]);
      }
    }

    /** Fire the stages whose period and phase make them due at `tick`. */
    method RunDue(tick: nat, periods: seq<nat>, phases: Option<seq<nat>>, executed: nat -> int, reply: nat -> nat)
      returns (rc: int, ghost n: nat)
      requires Valid() && (phases.Some? ==> |phases.value| >= |m.stages|)
      modifies this
      ensures Valid() && old(log) <= log
      ensures |periods| < |m.stages| || |m.stages| > 64 ==> rc == CAP_ERR_ARG && log == old(log)
      ensures |periods| >= |m.stages| ==>
        && n <= |m.stages|
        && FiredBelow(DueMask(m, tick, periods, phases), n, |old(log)|, old(hasEvent), old(last))
        && (rc == CAP_OK ==> n == |m.stages|)
        && (rc != CAP_OK && |m.stages| <= 64 ==> n < |m.stages| && DueMask(m, tick, periods, phases)[n])
    {
      n := 0;
      if |periods| < |m.stages| || |m.stages| > 64 { return CAP_ERR_ARG, n; }
      var mask: seq<bool> := [];
      for i := 0 to |m.stages|
        invariant mask == DueMask(m, tick, periods, phases)[..i]
      {
        var period := periods[i];
        var phase := if phases.Some? then phases.value[i] else 0;
        var due := period != 0 && ((tick + period - phase % period) % UINT64) % period == 0;
        mask := mask + [due];
      }
      rc, n := RunMask(mask, executed, reply);
    }
  }

  /** The stages that are due at `tick`. */
  ghost function DueMask(m: Runtime, tick: nat, periods: seq<nat>, phases: Option<seq<nat>>): (mask: seq<bool>)
    requires |periods| >= |m.stages| && (phases.Some? ==> |phases.value| >= |m.stages|)
    ensures |mask| == |m.stages|
  {
    seq(|m.stages|, i requires 0 <= i < |m.stages| =>
      PeriodDue(tick, periods[i], if phases.Some? then phases.value[i] else 0))
  }

  /** A cleared in-flight flag means that the last replay is done, in every execution that
      has issued what the runner issued. */
  lemma ClearedMeansDone(r: Runner, i: nat, steps: seq<Step>)
    requires r.Valid() && i < |r.m.stages| && r.m.stages[i].graph && r.hasEvent[i] && !r.inFlight[i]
    requires Execution(r.log, steps) && After(steps).issued == |r.log|
    ensures LatestWork(r.m, r.log, i, r.last[i]) && r.last[i] in After(steps).done
  {
    assert StageKnown(r.m, r.log, r.done[i], r.inFlight[i], r.hasEvent[i], r.last[i], i);
    var p: nat :| SettledAt(r.log, r.last[i], p) && p < |r.log|;
    SettledIsDone(r.log, steps, r.last[i], p);
  }

  /** No stage of a runner ever has two replays outstanding. */
  lemma RunnerNeverOverlaps(r: Runner, steps: seq<Step>, i: nat, a: nat, b: nat)
    requires r.Valid() && Execution(r.log, steps)
    requires a < b && IsReplay(r.log, a, i) && IsReplay(r.log, b, i) && b < After(steps).issued
    ensures a in After(steps).done
  {
    AtMostOneOutstanding(r.log, steps, a, b, i);
  }
}
