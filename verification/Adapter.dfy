/** Adoption of a model: which stage plans are accepted, and what the runtime built from
    one guarantees to a tick. */
module Adapter {
  import opened Wrappers
  import opened StageTick

  /** A stage of a generic plan: kind 0 is a captured graph, kind 1 an opaque callback. */
  datatype PlanStage = PlanStage(name: string, kind: nat, ref: nat, after: seq<nat>)

  /** A stage of a model without a plan: always a captured graph. */
  datatype PlainStage = PlainStage(graph: nat, after: seq<nat>)

  /** What a producer exposes. `queryRc` and `extension` are its reply to the query for a
      plan, `planOk` whether the plan's header and callbacks are usable; `graphStreams`
      gives the stream of each exported graph. */
  datatype Model = Model(
    queryRc: int, extension: Option<seq<PlanStage>>, planOk: bool,
    plain: seq<PlainStage>, hasStep: bool, graphStreams: seq<int>,
    metadataExport: bool, exportRc: int)

  /** Who decides the stages: a plan, the model's own list, or a single step verb. */
  datatype Authority = Authority(plan: Option<seq<PlanStage>>, stepOnly: bool)

  ghost predicate Increasing(after: seq<nat>) {
    forall j, k :: 0 <= j < k < |after| ==> after[j] < after[k]
  }

  ghost predicate StageOk(plan: seq<PlanStage>, i: nat, allowGraph: bool, graphs: nat)
    requires i < |plan|
  {
    && plan[i].name != "" && plan[i].kind <= 1 && (allowGraph || plan[i].kind == 1)
    && (forall j :: 0 <= j < i ==> plan[j].name != plan[i].name)
    && (plan[i].kind == 0 ==> plan[i].ref < graphs)
    && Increasing(plan[i].after) && (forall k :: 0 <= k < |plan[i].after| ==> plan[i].after[k] < i)
  }

  /** An acceptable plan: distinct names, dependencies in order and pointing backwards,
      graphs that exist, and at least one opaque stage. */
  ghost predicate PlanOk(plan: seq<PlanStage>, allowGraph: bool, graphs: nat) {
    && (forall i :: 0 <= i < |plan| ==> StageOk(plan, i, allowGraph, graphs))
    && (exists i :: 0 <= i < |plan| && plan[i].kind == 1)
  }

  ghost function AuthorityOf(m: Model, allowGraph: bool): Option<Authority> {
    if m.queryRc != 0 then
      if m.extension.Some? || m.queryRc != -3 then None
      else if m.plain != [] then Some(Authority(None, false))
      else if m.hasStep then Some(Authority(None, true))
      else None
    else if m.extension.None? || m.plain != [] || !m.planOk then None
    else if PlanOk(m.extension.value, allowGraph, |m.graphStreams|) then Some(Authority(m.extension, false))
    else None
  }

  /** Decide who owns the stages, checking a plan stage by stage. */
  method QueryAuthority(m: Model, allowGraph: bool) returns (r: Option<Authority>)
    ensures r == AuthorityOf(m, allowGraph)
  {
    if m.queryRc != 0 {
      if m.extension.Some? || m.queryRc != -3 { return None; }
      if m.plain != [] { return Some(Authority(None, false)); }
      if !m.hasStep { return None; }
      return Some(Authority(None, true));
    }
    if m.extension.None? || m.plain != [] || !m.planOk { return None; }
    var plan := m.extension.value;
    var hasOpaque := false;
    for i := 0 to |plan|
      invariant forall j :: 0 <= j < i ==> StageOk(plan, j, allowGraph, |m.graphStreams|)
      invariant hasOpaque <==> exists j :: 0 <= j < i && plan[j].kind == 1
    {
      var ok := CheckStage(plan, i, allowGraph, |m.graphStreams|);
      if !ok { return None; }
      hasOpaque := hasOpaque || plan[i].kind == 1;
    }
    if !hasOpaque { return None; }
    return Some(Authority(m.extension, false));
  }

  method CheckStage(plan: seq<PlanStage>, i: nat, allowGraph: bool, graphs: nat) returns (ok: bool)
    requires i < |plan|
    ensures ok <==> StageOk(plan, i, allowGraph, graphs)
  {
    var stage := plan[i];
    if stage.name == "" || stage.kind > 1 || (!allowGraph && stage.kind != 1) { return false; }
    for j := 0 to i
      invariant forall n :: 0 <= n < j ==> plan[n].name != stage.name
    {
      if plan[j].name == stage.name { return false; }
    }
    if stage.kind == 0 && stage.ref >= graphs { return false; }
    var previous := 0;
    for k := 0 to |stage.after|
      invariant k > 0 ==> previous == stage.after[k - 1]
      invariant forall n :: 0 <= n < k ==> stage.after[n] < i && stage.after[n] <= previous
      invariant forall j, n :: 0 <= j < n < k ==> stage.after[j] < stage.after[n]
    {
      if stage.after[k] >= i || (k > 0 && stage.after[k] <= previous) { return false; }
      previous := stage.after[k];
    }
    return true;
  }

  /** Stage i as the adapter reads it from its authority. */
  function Wanted(m: Model, plan: Option<seq<PlanStage>>): seq<PlanStage> {
    match plan
    case Some(stages) => stages
    case None => seq(|m.plain|, i requires 0 <= i < |m.plain| => PlanStage("", 0, m.plain[i].graph, m.plain[i].after))
  }

  predicate AllOpaque(plan: Option<seq<PlanStage>>) {
    plan.Some? && forall i :: 0 <= i < |plan.value| ==> plan.value[i].kind == 1
  }

  /** The runtime's stages say what the wanted ones said. */
  ghost predicate Mirrors(m: Model, wanted: seq<PlanStage>, stages: seq<Stage>)
    requires |stages| <= |wanted|
  {
    forall i :: 0 <= i < |stages| ==>
      && stages[i].after == wanted[i].after && (stages[i].graph <==> wanted[i].kind == 0)
      && (forall k :: 0 <= k < |wanted[i].after| ==> wanted[i].after[k] < i)
      && (stages[i].graph ==> wanted[i].ref < |m.graphStreams| && stages[i].stream == m.graphStreams[wanted[i].ref])
      && (!stages[i].graph ==> stages[i].stream == -1)
  }

  /** Stage i can be built: its graph is among the adopted ones, its dependencies point
      backwards. */
  ghost predicate Buildable(m: Model, wanted: seq<PlanStage>, adopted: bool, i: nat)
    requires i < |wanted|
  {
    && (wanted[i].kind == 0 ==> adopted && wanted[i].ref < |m.graphStreams|)
    && (forall k :: 0 <= k < |wanted[i].after| ==> wanted[i].after[k] < i)
  }

  ghost predicate AllBuildable(m: Model, wanted: seq<PlanStage>, adopted: bool) {
    forall i :: 0 <= i < |wanted| ==> Buildable(m, wanted, adopted, i)
  }

  predicate MetadataOnly(a: Authority) { a.stepOnly || AllOpaque(a.plan) }

  /** What the model must offer to be adopted. */
  ghost predicate Adoptable(m: Model) {
    var authority := AuthorityOf(m, true);
    && authority.Some?
    && (if MetadataOnly(authority.value) then m.metadataExport else m.exportRc == 0)
    && AllBuildable(m, Wanted(m, authority.value.plan), !MetadataOnly(authority.value))
  }

  /** The pair (dependency, stage) is in the schedule for every dependency, and no other. */
  ghost predicate PairsOf(stages: seq<Stage>, deps: seq<(int, int)>) {
    && (forall d :: 0 <= d < |deps| ==> PairOf(stages, deps[d]))
    && (forall i, k :: 0 <= i < |stages| && 0 <= k < |stages[i].after| ==> (stages[i].after[k], i) in deps)
  }

  ghost predicate PairOf(stages: seq<Stage>, pair: (int, int)) {
    0 <= pair.0 < pair.1 < |stages| && pair.0 in stages[pair.1].after
  }

  /** Build a runtime: stages, the pairs (dependency, stage) of the schedule, and one event
      per stage that another stream waits for. Without a plan every dependency between
      graphs gets an event. It fails exactly if the model is not adoptable or the backend
      has no event to give. */
  method Adopt(m: Model, be: Backend) returns (r: Option<Runtime>)
    modifies be
    ensures be.log == old(be.log) && be.calls >= old(be.calls)
    ensures r.Some? <==> Adoptable(m) && Worked(be.works, old(be.calls), be.calls)
    ensures r.Some? ==> Accepted(r.value) && Readable(r.value)
    ensures r.Some? ==>
      var wanted := Wanted(m, AuthorityOf(m, true).value.plan);
      |r.value.stages| == |wanted| && Mirrors(m, wanted, r.value.stages)
    ensures r.Some? ==> PairsOf(r.value.stages, r.value.schedule.deps)
    ensures r.Some? ==>
      var plan := AuthorityOf(m, true).value.plan;
      if MetadataOnly(AuthorityOf(m, true).value) then r.value.events.None?
      else r.value.events.Some? && EventsWhereAwaited(r.value.stages, plan.Some?, r.value.events.value)
    ensures r.Some? ==>
      && |r.value.schedule.entries| == |r.value.stages|
      && forall i :: 0 <= i < |r.value.stages| ==>
           r.value.schedule.entries[i] == Entry(r.value.stages[i].stream, true, 1, 1)
  {
    var authority := QueryAuthority(m, true);
    if authority.None? { return None; }
    var plan := authority.value.plan;
    var metadataOnly := MetadataOnly(authority.value);
    if metadataOnly && !m.metadataExport { return None; }
    if !metadataOnly && m.exportRc != 0 { return None; }
    var wanted := Wanted(m, plan);
    var stages := BuildStages(m, wanted, !metadataOnly);
    if stages.None? { return None; }
    var deps := BuildPairs(stages.value);
    var events := BuildEvents(stages.value, plan.Some?, be);
    if events.None? { return None; }
    var entries := seq(|stages.value|, i requires 0 <= i < |stages.value| => Entry(stages.value[i].stream, true, 1, 1));
    r := Some(Runtime(stages.value, if metadataOnly then None else events, Schedule(entries, deps)));
    assert forall i :: 0 <= i < |stages.value| && stages.value[i].graph ==> !metadataOnly;
    assert Topological(r.value);
    AwaitedHave(r.value, plan.Some?, events.value);
  }

  method BuildStages(m: Model, wanted: seq<PlanStage>, adopted: bool) returns (r: Option<seq<Stage>>)
    ensures r.Some? <==> AllBuildable(m, wanted, adopted)
    ensures r.Some? ==> |r.value| == |wanted| && Mirrors(m, wanted, r.value)
    ensures r.Some? ==> forall i :: 0 <= i < |r.value| && r.value[i].graph ==> adopted
  {
    var stages: seq<Stage> := [];
    for i := 0 to |wanted|
      invariant |stages| == i && Mirrors(m, wanted, stages)
      invariant forall j :: 0 <= j < i ==> Buildable(m, wanted, adopted, j)
      invariant forall j :: 0 <= j < i && stages[j].graph ==> adopted
    {
      var stream := -1;
      if wanted[i].kind == 0 {
        if !adopted || wanted[i].ref >= |m.graphStreams| {
          assert !Buildable(m, wanted, adopted, i);
          return None;
        }
        stream := m.graphStreams[wanted[i].ref];
      }
      for k := 0 to |wanted[i].after|
        invariant forall n :: 0 <= n < k ==> wanted[i].after[n] < i
      {
        if wanted[i].after[k] >= i {
          assert !Buildable(m, wanted, adopted, i);
          return None;
        }
      }
      stages := stages + [Stage(wanted[i].kind == 0, stream, wanted[i].after)];
    }
    return Some(stages);
  }

  method BuildPairs(stages: seq<Stage>) returns (deps: seq<(int, int)>)
    requires forall i, k :: 0 <= i < |stages| && 0 <= k < |stages[i].after| ==> stages[i].after[k] < i
    ensures PairsOf(stages, deps)
  {
    deps := [];
    for i := 0 to |stages|
      invariant forall d :: 0 <= d < |deps| ==> PairOf(stages, deps[d])
      invariant forall j, k :: 0 <= j < i && 0 <= k < |stages[j].after| ==> (stages[j].after[k], j) in deps
    {
      for k := 0 to |stages[i].after|
        invariant forall d :: 0 <= d < |deps| ==> PairOf(stages, deps[d])
        invariant forall j, n :: 0 <= j < i && 0 <= n < |stages[j].after| ==> (stages[j].after[n], j) in deps
        invariant forall n :: 0 <= n < k ==> (stages[i].after[n], i) in deps
      {
        deps := deps + [(stages[i].after[k], i)];
      }
    }
  }

  /** The k-th dependency of stage i is waited for through an event: both are graphs, and
      with a plan they are on different streams. */
  predicate AwaitedBy(stages: seq<Stage>, planned: bool, i: nat, k: nat)
    requires i < |stages| && k < |stages[i].after|
  {
    var d := stages[i].after[k];
    d < |stages| && stages[d].graph && stages[i].graph && (!planned || stages[d].stream != stages[i].stream)
  }

  /** Some stage waits for stage d through an event. */
  ghost predicate Awaited(stages: seq<Stage>, planned: bool, d: nat) {
    exists i: nat, k: nat :: WaitsFor(stages, planned, i, k, d)
  }

  predicate WaitsFor(stages: seq<Stage>, planned: bool, i: nat, k: nat, d: nat) {
    i < |stages| && k < |stages[i].after| && stages[i].after[k] == d && AwaitedBy(stages, planned, i, k)
  }

  /** The stages that have an event are those that are waited for through one. */
  ghost predicate EventsWhereAwaited(stages: seq<Stage>, planned: bool, events: seq<Option<nat>>) {
    |events| == |stages| && forall d :: 0 <= d < |events| ==> (events[d].Some? <==> Awaited(stages, planned, d))
  }

  /** Stage i, in its first k dependencies, finds every event it will wait on. */
  ghost predicate Served(stages: seq<Stage>, planned: bool, events: seq<Option<nat>>, i: nat, k: nat)
    requires |events| == |stages| && i < |stages| && k <= |stages[i].after|
  {
    forall n :: 0 <= n < k && AwaitedBy(stages, planned, i, n) ==> events[stages[i].after[n]].Some?
  }

  method BuildEvents(stages: seq<Stage>, planned: bool, be: Backend) returns (r: Option<seq<Option<nat>>>)
    requires forall i, k :: 0 <= i < |stages| && 0 <= k < |stages[i].after| ==> stages[i].after[k] < i
    modifies be
    ensures be.log == old(be.log) && be.calls >= old(be.calls)
    ensures r.Some? <==> Worked(be.works, old(be.calls), be.calls)
    ensures r.Some? ==> |r.value| == |stages| && EventsDistinct(r.value)
    ensures r.Some? ==> EventsWhereAwaited(stages, planned, r.value)
  {
    var events: seq<Option<nat>> := seq(|stages|, _ => None);
    for i := 0 to |stages|
      invariant be.log == old(be.log) && |events| == |stages| && EventsDistinct(events)
      invariant be.calls >= old(be.calls) && Worked(be.works, old(be.calls), be.calls)
      invariant forall j :: 0 <= j < |events| && events[j].Some? ==> events[j].value < be.nextEvent
      invariant forall j :: 0 <= j < i ==> Served(stages, planned, events, j, |stages[j].after|)
      invariant forall d :: 0 <= d < |events| && events[d].Some? ==> Awaited(stages, planned, d)
    {
      for k := 0 to |stages[i].after|
        invariant be.log == old(be.log) && |events| == |stages| && EventsDistinct(events)
        invariant be.calls >= old(be.calls) && Worked(be.works, old(be.calls), be.calls)
        invariant forall j :: 0 <= j < |events| && events[j].Some? ==> events[j].value < be.nextEvent
        invariant forall j :: 0 <= j < i ==> Served(stages, planned, events, j, |stages[j].after|)
        invariant Served(stages, planned, events, i, k)
        invariant forall d :: 0 <= d < |events| && events[d].Some? ==> Awaited(stages, planned, d)
      {
        var dep := stages[i].after[k];
        var crosses := !planned || stages[i].stream != stages[dep].stream;
        if stages[i].graph && stages[dep].graph && crosses && events[dep].None? {
          var event := be.Event();
          if event.None? { return None; }
          assert WaitsFor(stages, planned, i, k, dep);
          events := events[dep := event];
        }
      }
    }
    AllServed(stages, planned, events);
    return Some(events);
  }

  lemma AllServed(stages: seq<Stage>, planned: bool, events: seq<Option<nat>>)
    requires |events| == |stages|
    requires forall i :: 0 <= i < |stages| ==> Served(stages, planned, events, i, |stages[i].after|)
    requires forall d :: 0 <= d < |events| && events[d].Some? ==> Awaited(stages, planned, d)
    ensures EventsWhereAwaited(stages, planned, events)
  {
    forall d | 0 <= d < |events| && Awaited(stages, planned, d) ensures events[d].Some? {
      var i: nat, k: nat :| WaitsFor(stages, planned, i, k, d);
      assert Served(stages, planned, events, i, |stages[i].after|);
    }
  }

  /** Where every stage that is waited for has an event, so has every one that another stream
      waits for. */
  lemma AwaitedHave(m: Runtime, planned: bool, events: seq<Option<nat>>)
    requires Topological(m) && EventsWhereAwaited(m.stages, planned, events) && EventsDistinct(events)
    ensures EventsOk(m, events)
  {
    forall i, k | 0 <= i < |m.stages| && 0 <= k < |m.stages[i].after|
      ensures HasEvent(m, events, m.stages[i].after[k], i)
    {
      var d := m.stages[i].after[k];
      if Crosses(m, d, i) {
        assert WaitsFor(m.stages, planned, i, k, d);
      }
    }
  }
}
