/** Host and device: the host issues a program of items, most of them onto FIFO streams,
    and the device works through the streams in any interleaving. */
module Streams {
  import opened Wrappers

  /** One host action. A wait binds, when it is issued, to the position of the latest
      record of its event. Sync, Run and Seen involve the host itself: Sync blocks it until
      a stream has drained, Run executes an opaque stage on it to completion, and Seen is a
      query that found a record complete. */
  datatype Item =
    | Replay(stage: nat, stream: int)
    | Record(event: nat, stream: int)
    | Wait(record: Option<nat>, stream: int)
    | Sync(stream: int)
    | Run(stage: nat)
    | Seen(seen: nat)

  predicate OnDevice(item: Item) { item.Replay? || item.Record? || item.Wait? }

  /** Work takes time: it starts, and later it is done. */
  predicate IsWork(item: Item) { OnDevice(item) || item.Run? }

  /** Device work j was queued before device work k on the same stream. */
  predicate QueuedBefore(log: seq<Item>, j: nat, k: nat) {
    j < k < |log| && OnDevice(log[j]) && OnDevice(log[k]) && log[j].stream == log[k].stream
  }

  /** Progress: the first `issued` items have been issued. */
  datatype Machine = Machine(issued: nat, started: set<nat>, done: set<nat>)

  datatype Step = Issue | Start(k: nat) | Finish(k: nat)

  /** All device work on stream s issued before position p is done. */
  ghost predicate Drained(log: seq<Item>, s: int, p: nat, done: set<nat>)
    requires p <= |log|
  {
    forall k :: 0 <= k < p && OnDevice(log[k]) && log[k].stream == s ==> k in done
  }

  /** The host may issue the next item. */
  ghost predicate MayIssue(log: seq<Item>, m: Machine) {
    && m.issued < |log|
    && (m.issued > 0 && log[m.issued - 1].Run? ==> m.issued - 1 in m.done)
    && match log[m.issued]
       case Sync(s) => Drained(log, s, m.issued, m.done)
       case Seen(r) => r in m.done
       case _ => true
  }

  ghost predicate Enabled(log: seq<Item>, m: Machine, step: Step) {
    match step
    case Issue => MayIssue(log, m)
    case Start(k) =>
      && k < m.issued <= |log| && IsWork(log[k]) && k !in m.started
      && (forall j :: QueuedBefore(log, j, k) ==> j in m.done)
      && (log[k].Wait? && log[k].record.Some? ==> log[k].record.value in m.done)
    case Finish(k) => k in m.started && k !in m.done
  }

  function Apply(m: Machine, step: Step): Machine {
    match step
    case Issue => m.(issued := m.issued + 1)
    case Start(k) => m.(started := m.started + {k})
    case Finish(k) => m.(done := m.done + {k})
  }

  function After(steps: seq<Step>): Machine {
    if steps == [] then Machine(0, {}, {}) else Apply(After(steps[..|steps| - 1]), steps[|steps| - 1])
  }

  /** An execution of the program: any interleaving of host and device steps. */
  ghost predicate Execution(log: seq<Item>, steps: seq<Step>) {
    steps == [] ||
    (Execution(log, steps[..|steps| - 1]) && Enabled(log, After(steps[..|steps| - 1]), steps[|steps| - 1]))
  }

  /** The device works in stream order and honours waits. */
  ghost predicate DeviceOk(log: seq<Item>, m: Machine) {
    && m.issued <= |log|
    && (forall k :: k in m.done ==> k in m.started)
    && (forall k :: k in m.started ==> k < m.issued)
    && (forall k, j :: k in m.started && QueuedBefore(log, j, k) ==> j in m.done)
    && (forall k :: k in m.started && k < |log| && log[k].Wait? && log[k].record.Some? ==>
          log[k].record.value in m.done)
  }

  /** The host has only passed what it may pass. */
  ghost predicate HostOk(log: seq<Item>, m: Machine)
    requires m.issued <= |log|
  {
    && (forall p :: 0 <= p < m.issued && log[p].Sync? ==> Drained(log, log[p].stream, p, m.done))
    && (forall p :: 0 <= p < m.issued && log[p].Seen? ==> log[p].seen in m.done)
    && (forall p :: 0 <= p < m.issued - 1 && log[p].Run? ==> p in m.done)
  }

  ghost predicate Consistent(log: seq<Item>, m: Machine) {
    DeviceOk(log, m) && HostOk(log, m)
  }

  lemma IssueKeeps(log: seq<Item>, m: Machine)
    requires Consistent(log, m) && Enabled(log, m, Issue)
    ensures Consistent(log, Apply(m, Issue))
  {
    IssueDevice(log, m);
    IssueHost(log, m, Apply(m, Issue));
  }

  lemma IssueDevice(log: seq<Item>, m: Machine)
    requires DeviceOk(log, m) && m.issued < |log|
    ensures DeviceOk(log, Apply(m, Issue))
  {
  }

  lemma IssueHost(log: seq<Item>, m: Machine, r: Machine)
    requires m.issued < |log| && HostOk(log, m) && MayIssue(log, m)
    requires r.issued == m.issued + 1 && r.done == m.done
    ensures HostOk(log, r)
  {
    forall p | 0 <= p < r.issued && log[p].Sync? ensures Drained(log, log[p].stream, p, r.done) {
      if p < m.issued {
        assert Drained(log, log[p].stream, p, m.done);
      }
    }
  }

  lemma StartKeeps(log: seq<Item>, m: Machine, n: nat)
    requires Consistent(log, m) && Enabled(log, m, Start(n))
    ensures Consistent(log, Apply(m, Start(n)))
  {
  }

  lemma FinishKeeps(log: seq<Item>, m: Machine, n: nat)
    requires Consistent(log, m) && Enabled(log, m, Finish(n))
    ensures Consistent(log, Apply(m, Finish(n)))
  {
  }

  lemma {:induction false} ExecutionConsistent(log: seq<Item>, steps: seq<Step>)
    requires Execution(log, steps)
    ensures Consistent(log, After(steps))
  {
    if steps != [] {
      ExecutionConsistent(log, steps[..|steps| - 1]);
      var m := After(steps[..|steps| - 1]);
      match steps[|steps| - 1]
      case Issue => IssueKeeps(log, m);
      case Start(n) => StartKeeps(log, m, n);
      case Finish(n) => FinishKeeps(log, m, n);
    }
  }

  // ---- guaranteed order ------------------------------------------------------

  /** Work b waits on stream through a wait at w bound to a record at r behind work a. */
  ghost predicate EventOrdered(log: seq<Item>, a: nat, r: nat, w: nat, b: nat) {
    && QueuedBefore(log, a, r) && log[r].Record?
    && r < w && QueuedBefore(log, w, b) && log[w] == Wait(Some(r), log[b].stream)
  }

  /** The host syncs the stream of device work a before it goes on to b. */
  ghost predicate SyncOrdered(log: seq<Item>, a: nat, p: nat, b: nat) {
    a < p < b < |log| && OnDevice(log[a]) && log[p] == Sync(log[a].stream)
  }

  /** The program itself guarantees that work a is done before work b starts. */
  ghost predicate Ordered(log: seq<Item>, a: nat, b: nat) {
    && a < b < |log| && IsWork(log[a]) && IsWork(log[b])
    && (|| log[a].Run?
        || QueuedBefore(log, a, b)
        || (exists r, w :: EventOrdered(log, a, r, w, b))
        || (exists p :: SyncOrdered(log, a, p, b)))
  }

  /** In every execution, work that the program orders is ordered. */
  lemma OrderedHolds(log: seq<Item>, a: nat, b: nat, steps: seq<Step>)
    requires Ordered(log, a, b) && Execution(log, steps)
    ensures b in After(steps).started ==> a in After(steps).done
  {
    ExecutionConsistent(log, steps);
    var m := After(steps);
    if b in m.started {
      if r, w :| EventOrdered(log, a, r, w, b) {
        assert w in m.done;
        assert r in m.done;
      }
    }
  }

  /** What happened so far stays ordered when the host issues more. */
  lemma OrderedExtends(log: seq<Item>, more: seq<Item>, a: nat, b: nat)
    requires Ordered(log, a, b)
    ensures Ordered(log + more, a, b)
  {
    if r, w :| EventOrdered(log, a, r, w, b) {
      assert EventOrdered(log + more, a, r, w, b);
    } else if p :| SyncOrdered(log, a, p, b) {
      assert SyncOrdered(log + more, a, p, b);
    }
  }

  /** Position of the latest record of an event. */
  function LatestRecord(log: seq<Item>, event: nat): (r: Option<nat>)
    ensures r.Some? ==> r.value < |log| && log[r.value].Record? && log[r.value].event == event
    ensures r.Some? ==> forall k :: r.value < k < |log| && log[k].Record? ==> log[k].event != event
    ensures r.None? ==> forall k :: 0 <= k < |log| && log[k].Record? ==> log[k].event != event
  {
    if log == [] then None
    else
      var last := log[|log| - 1];
      if last.Record? && last.event == event then Some(|log| - 1)
      else LatestRecord(log[..|log| - 1], event)
  }

  /** The record found is the one that no later record of the event replaces. */
  lemma LatestRecordIs(log: seq<Item>, event: nat, r: nat)
    requires r < |log| && log[r].Record? && log[r].event == event
    requires forall k :: r < k < |log| && log[k].Record? ==> log[k].event != event
    ensures LatestRecord(log, event) == Some(r)
  {
  }
}
