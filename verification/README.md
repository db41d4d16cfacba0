# A verified model of the Nexus runtime core

This project models the parts of the repository in which the state is intricate and a
mistake would be silent, and proves what those parts promise. The proofs are checked by
`dafny verify dfyconfig.toml`.

Five systems are modelled, each in a few files.

**The action-chunk mode** (`Fusion`, `FusionMeaning`, `ActionChunkSpec`, `ActionChunkInvariant`,
`ActionChunkProofs`, `ActionChunkTheorems`, `ActionChunkTicks`, `ActionChunkMode`, `PrevChunk`). A controller
consumes action chunks from a ring of slots while the next chunk is computed.
`ActionChunkSpec` gives every verb as a function on a state, with the executor's replies
(accept, ready, pending, fail) as inputs, so that a run is any sequence of calls with any
replies, and a state is reachable if a run leads to it. The state carries a log that
the code does not have: everything that landed since the reset, what was projected at each
fire, what was handed out since. `ActionChunkMode` is the class itself, with slot arrays,
index fields and loops; each method is proved to leave the state of the specification, and
the theorems are about the specification. `ActionChunkTicks` follows the embedder from tick to
tick, with the history given by the calls made; `FusionMeaning` says what a fused row is without
the functions that compute it. Numbers are reals; the weight table is an abstract
positive function. `PrevChunk` puts the raw-prefix policy around the specification and proves
that it refines it.

**Stage ordering** (`Streams`, `StageTick`, `Adapter`, `StageRunner`, `Cadence`). The host
issues a program of replays, records, waits, syncs and host-run stages. The device takes work
from FIFO streams in any interleaving; a wait binds, when it is issued, to the latest record
of its event. The tick, the adapter that prepares its input, and the stage runner are methods
that emit such programs; ordering holds for every execution of them.

**Capsules** (`Blob`, `Memory`, `Ledger`, `CapsuleCore`, `Session`). Buffers are a map from
handles to bytes; regions may overlap in them. Which backend calls fail is an arbitrary
function of the call's number, and a copy that fails may leave anything in its target. The
class `Context` is the core with its copy loops, byte-counting parser and writer; `Session`
is the named store above it, with a trace of what was last saved under each name.

**The execution service and its client** (`ServiceSpec`, `ServiceProofs`, `ServiceLeases`,
`ExecutionWorker`, `ExecutionService`, `Remote`, `RemoteProofs`, `RemoteProvider`). The service is a lease state
machine over a single-threaded executor. `Remote` puts one client, a network that loses
requests and replies but delivers in order, the service, its clock, its executor and any
other callers into one step machine. The classes are the service, the worker under it and the
client; the first is proved to stay in step with the worker call by call, the last to take
only steps of the machine, with its answers determined by the replies it hears. `ServiceLeases`
says how leases begin, last and end, and that what is submitted is answered.

**The wire codec** (`WireCodec`). Base64 is a parameter that is assumed to undo itself.

## What the code turned out not to do

Each of these is stated by the member named, with the exact condition where there is one.

- `validate` lets a fusion ring without a spare slot pass when `fusion_max_chunks + 1` wraps
  (`ValidateLeavesRoom`), and the recorded projection count is wrong when position plus
  look-ahead wraps (`ProjectionCountExact`).
- A row served between the begin and the commit of a projected fire can leave a step without an
  action before the parked chunk starts (`NeverStarves`, `StarvesAfterOverrun`).
- With a ring of one slot, a fire overwrites the chunk being consumed (`FireSparesConsumed`).
- A switch offset above zero seats ahead of the clock (`LatencySeatingOnTime`).
- `poll` reads the raw chunk before the output; when that second read fails, the raw chunk of a
  chunk that is never seated stays behind, and the next request stages its rows over the chunk
  still being consumed (`PrevChunk.TornStages`, `TornHappens`).
- A fusion seating that fails for want of measured state has already retained its chunk and
  rewritten the fused rows; it is harmless only because nothing is active then
  (`FailedSeatingIsHarmless`).
- A chunk counts as late even if reading it then fails; the balance in `CountersBalance` is
  stated accordingly.
- The adapter writes schedule pairs as (dependency, stage), while `cap_drive_tick` reads
  (waiter, waited-on). `BuildPairs` and `DriveTick` state one orientation each, so no ordering
  follows for a schedule built by the adapter and driven by `cap_drive_tick`.
- Serializing does not check the bound on the number of regions that loading enforces
  (`Blob.RoundTrip`).
- Restoring into other regions notices a region that is too small only in its turn, after the
  regions before it have been written (`Context.RestoreInto`).
- A tier move that fails midway keeps the old tier with some regions already moved; moving
  back to the old tier then does nothing (`Context.TierMove`).
- When the provider's reset raises, a result that nobody collected stays collectable
  (`ExecutionWorker.Reset`). Under the service this cannot arise, as the worker is idle
  between jobs (`ExecutionService.RunNext`).

The class and the specification cover every configuration that the code accepts (`Accepted`).
The theorems about runs are for `Supported` ones, which also meet three conditions that the code
does not check: at least two slots, no wrap of `fusion_max_chunks + 1` with fusion, and, for a
mode that projects, `chunk_length - 1 + lookahead_steps` below 2^32, so that the look-ahead sum
cannot wrap at any position.

## Model

| member | source | states |
|---|---|---|
| ActionChunkTheorems.FusionRefinesUnboundedHistory | nexus/modes/action_chunk/action_chunk.cpp:240-256 | In every reachable state every fused row is, column by column, the weighted mean over the newest `fusion_max_chunks` covering chunks of the whole unbounded history of landed chunks, if its step had not passed at the fusion; and in any case that mean over the chunks not yet expired. The mean is said as sums over the positions of the history (`IsMean`), without the functions that compute it. Eviction is equivalent to unbounded retention. |
| ActionChunkTheorems.ServedActionIsUnboundedMean | nexus/modes/action_chunk/action_chunk.cpp:392-466 | Over all runs, under latency seating with an offset of at least zero: a tick that is Ready hands out the weighted mean, at the consumed position, over the whole unbounded history, which is everything landed since the reset and the chunk, if any, that joins in this very tick (the due parked one, or the one fetched because nothing was consumable, starting where its fire said); whatever the ring evicted or pruned and whichever fires failed. |
| ActionChunkTheorems.ServingJoins | nexus/modes/action_chunk/action_chunk.cpp:392-466 | What the tick serves from has fused exactly what the state before it had fused and that chunk, at the current step, and is seated by the clock. |
| ActionChunkTheorems.ProjectionDelivers | nexus/modes/action_chunk/action_chunk.cpp:713-753 | For a fire committed straight after its begin, with no clock jump while it was out and a switch offset of at most zero, the measured state plus the mapped columns of the actions really handed out until row 0 of the new chunk is the projected state given to the model; unmapped dimensions do not move; row 0 is served exactly at the promised step. |
| ActionChunkTheorems.NeverSwitchesEarly | nexus/modes/action_chunk/action_chunk.cpp:396-417 | Over all runs, under plain consumption or latency seating with an offset of at most zero, the row about to be served is not meant for a later step than the current one. |
| ActionChunkTheorems.NeverStarves | nexus/modes/action_chunk/action_chunk.cpp:396-417 | Over all runs of a projecting mode, while a projected fire is out or its chunk is parked, the rows left reach its start step, but for the rows consumed between its begin and its commit. If there were none, the next tick promotes the parked chunk or something is still active, whatever `advance_step` did and whatever was held meanwhile; in any case the gap is no longer than those rows. |
| ActionChunkTheorems.StarvesAfterOverrun | nexus/modes/action_chunk/action_chunk.cpp:396-417 | The condition is needed: a run of eight calls, with one row served between begin and commit and an early landing, after which nothing is active and the parked chunk is not due. |
| ActionChunkTheorems.FireSparesConsumed | nexus/modes/action_chunk/action_chunk.cpp:239-261 | In every accepted configuration a fire fills another slot than the one being consumed if and only if the ring has more than one. |
| ActionChunkTheorems.SlotOwnership | nexus/modes/action_chunk/action_chunk.cpp:233-280 | In every reachable state at most one fire is out, a begun request excludes a fire and a parked chunk, the active slot is neither the pending nor the parked one, the retained list is duplicate-free and equals the flagged slots, and the retained slots hold, row for row, the newest part of what ever landed: a retained chunk never changes. |
| ActionChunkTheorems.NextWrites | nexus/modes/action_chunk/action_chunk.cpp:392-466 | `next_action` is Ready exactly when the buffer fits and a chunk is active once a due chunk has been promoted or, with nothing consumable, a new one fetched; it then writes one row, the current row of that chunk, and under hold-last that row, and no other, is what a later miss repeats. A row with Fallback is the held action again; without a row neither clock nor counters moved. It terminates after at most one chunk landing. |
| ActionChunkTheorems.CountersBalance | nexus/modes/action_chunk/action_chunk.cpp:286-390 | Over all runs the step clock is the actions handed out plus the `advance_step` calls, late chunks never exceed fallbacks, and successful fires are completed, failed, dropped by reset or still out. |
| ActionChunkTheorems.LatencySeatingOnTime | nexus/modes/action_chunk/action_chunk.cpp:558-565 | The latency index is not early if and only if the offset is at most zero or the chunk is at its last row anyway. |
| ActionChunkTheorems.LatencySeatingEarly | nexus/modes/action_chunk/action_chunk.cpp:558-565 | A validated configuration with an offset of one row that seats a chunk a step ahead of the clock. |
| ActionChunkTheorems.ProjectionCountExact | nexus/modes/action_chunk/action_chunk.cpp:726-747 | The number of integrated rows is the look-ahead clipped to the chunk if and only if the 32-bit sum of position and look-ahead does not wrap. |
| ActionChunkTheorems.ProjectionCountWraps | nexus/modes/action_chunk/action_chunk.cpp:726-747 | A validated configuration with look-ahead 2^32 - 1 that integrates nothing at position 1 and records 2^32 - 1 rows. |
| ActionChunkTheorems.ValidateLeavesRoom | nexus/modes/action_chunk/action_chunk.cpp:72-79 | A validated fusion configuration has a slot beyond the chunks it fuses if and only if `fusion_max_chunks + 1` does not wrap. |
| ActionChunkTheorems.ValidateWithoutRoom | nexus/modes/action_chunk/action_chunk.cpp:72-79 | A validated fusion configuration with `fusion_max_chunks` 2^32 - 1 and two slots. |
| ActionChunkTheorems.FailedSeatingIsHarmless | nexus/modes/action_chunk/action_chunk.cpp:694-705 | A seating that fails for want of measured state happens only when nothing is active, so the fused rows it rewrote are not being consumed. |
| FusionMeaning.FusedRowIsMean | nexus/modes/action_chunk/action_chunk.cpp:659-692 | In every fused row a chunk counts if it covers the row's step and fewer than `fusion_max_chunks` later ones do; its weight is the table entry at the distance between its start and the window's, the same in every row; and the row times the sum of the weights is the sum of the weighted rows. |
| FusionMeaning.TwoChunks | nexus/modes/action_chunk/action_chunk.cpp:677-690 | Two covering chunks that start d steps apart: the newer one counts with entry 0 of the table, the older one with entry d. |
| ActionChunkTicks.HeldIsLatest | nexus/modes/action_chunk/action_chunk.cpp:432-453 | Over all runs, the action that a miss repeats under hold-last is the one handed out by the latest Ready tick since the reset, and there is none before the first; no other verb touches it. |
| ActionChunkTicks.MissRepeats | nexus/modes/action_chunk/action_chunk.cpp:396-443 | A tick with nothing to serve repeats the held action, whatever kept the next chunk from coming, unless it is the request that failed or the buffer does not fit; with none to repeat it says what it was. |
| ActionChunkTicks.TickConsumes | nexus/modes/action_chunk/action_chunk.cpp:445-460 | A Ready tick hands out the first of the upcoming rows and leaves the others to come, in order, also when it makes the next request. |
| ActionChunkTicks.TickPrefetches | nexus/modes/action_chunk/action_chunk.cpp:461-465 | After a Ready tick exactly one fire more was made if few enough rows are left, nothing is outstanding and the request goes through, and none otherwise. |
| ActionChunkTicks.CommitFires | nexus/modes/action_chunk/action_chunk.cpp:233-280 | Exactly when a request goes through; then it is one fire, otherwise none; a submit uses the begun request up even if it fails. |
| ActionChunkTicks.GapEnds | nexus/modes/action_chunk/action_chunk.cpp:397-416 | A tick that repeats an action while a chunk is parked leaves it parked only if its start step is still to come, and otherwise active. |
| ActionChunkTicks.ColdTick | nexus/modes/action_chunk/action_chunk.cpp:418-466 | With nothing to consume and nothing parked, a tick is Ready exactly if the chunk was or can be asked for, the executor has it and hands it over, its start is not ahead, the state feed answers where it is asked, and the buffer fits. It hands out the row at which the chunk is entered: row 0 under plain consumption, the row for the step plus the offset, clipped, under latency seating, the row for the step under projection, and the nearest row under state seating. |
| ActionChunkTicks.DueTick | nexus/modes/action_chunk/action_chunk.cpp:817-836 | A parked chunk that is due is entered by the next tick, at the row for the step. |
| ActionChunkTicks.SeatIndexEnters | nexus/modes/action_chunk/action_chunk.cpp:558-623 | Seating by state needs a measured state and picks the first of the rows whose implied state is nearest to it, where the implied state is the row itself, or the state at the request moved by the row or by all rows so far; seating by the clock is clipped to the chunk. |
| ActionChunkTicks.PollTakesIn | nexus/modes/action_chunk/action_chunk.cpp:286-371 | A poll is Ready exactly if a fire is out, the executor has the chunk and hands it over, and the state feed answers where it is asked; the chunk is then entered, or parked with its rows at its start step while what was consumed stays. |
| ActionChunkTicks.SyncTakesIn | nexus/modes/action_chunk/action_chunk.cpp:473-494 | A blocking wait makes the fire if none is out, and is Ready exactly when the request, the wait and the poll behind it succeed. |
| ActionChunkTicks.FailureGivesUp | nexus/modes/action_chunk/action_chunk.cpp:286-376 | A fire reported as failed, not readable, or whose wait fails is given up and counted as failed, and what is being consumed stays; with nothing out a poll says so and does nothing. |
| ActionChunkTicks.FallsBackOnce | nexus/modes/action_chunk/action_chunk.cpp:377-389 | However polls and clock steps follow a fire, a poll that finds the executor busy reports Fallback exactly if the poll budget or the step deadline is used up and no poll has found that before; a chunk that comes then counts as late exactly if it was reported. |
| ActionChunkTicks.BeginProjects | nexus/modes/action_chunk/action_chunk.cpp:713-753 | A request prepared under projection gives the model the measured state moved, in every mapped dimension, by its column of the next rows to be handed out, as many as the look-ahead asks for and there are; and it keeps the measurement. |
| ActionChunkTicks.BeginSnapshots | nexus/modes/action_chunk/action_chunk.cpp:203-209 | Under every policy a begin that prepares keeps the latest measurement, if there is one, as the state at the request. |
| ActionChunkTicks.BegunStays | nexus/modes/action_chunk/action_chunk.cpp:206-206 | A request that was begun stays as it was prepared until it is committed. |
| ActionChunkTicks.ColumnSumsAdd | nexus/modes/action_chunk/action_chunk.cpp:735-746 | Column sums add up over consecutive rows, and a single row counts with its entry. |
| ActionChunkTicks.FeedIsLatest | nexus/modes/action_chunk/action_chunk.cpp:496-505 | Over all runs, resets included, the state that projection and switching work with is the one accepted last, and known once there was one. |
| ActionChunkTicks.MapIsFixed | nexus/modes/action_chunk/action_chunk.cpp:507-524 | Once a request was made no verb changes the column map. |
| ActionChunkTicks.ResetForgets | nexus/modes/action_chunk/action_chunk.cpp:526-541 | After a reset seat, flags, retained list, held action and requests are those of a new mode; clock, state feed and counters stay. |
| ActionChunkTicks.ChunksBalance | nexus/modes/action_chunk/action_chunk.cpp:240-256 | Over all runs, every chunk that has landed for fusion since the reset is retained or was counted as pruned, by expiry or by eviction, once. |
| ActionChunkTicks.CountsMove | nexus/modes/action_chunk/action_chunk.cpp:203-327 | A begin counts as one preparation if it prepares, and a chunk read while another is being consumed as one switch. |
| Fusion.RetentionIsExact | nexus/modes/action_chunk/action_chunk.cpp:240-256 | Dropping the older chunks of an ordered history changes no fused row, if the youngest dropped chunk has expired or has `fusion_max_chunks` successors. |
| Fusion.NewestSkipsPrefix | nexus/modes/action_chunk/action_chunk.cpp:671-676 | Chunks that do not cover the step can be dropped from the front without changing the selection. |
| Fusion.NewestOfCovering | nexus/modes/action_chunk/action_chunk.cpp:671-676 | When all chunks cover the step, the selection is the last `max` of them. |
| Fusion.WeightSumPositive | nexus/modes/action_chunk/action_chunk.cpp:678-691 | The divisor of a fused row is positive, so the mean is defined. |
| ActionChunkInvariant.UnexpiredIsSuffix | nexus/modes/action_chunk/action_chunk.cpp:640-652 | With start steps in order, pruning keeps a suffix and drops only expired chunks. |
| ActionChunkInvariant.RetainKeepsHistory | nexus/modes/action_chunk/action_chunk.cpp:654-657 | Pruning and appending keep the retained list a window on the whole history, with what was dropped last expired or outnumbered. |
| ActionChunkInvariant.WindowIsExact | nexus/modes/action_chunk/action_chunk.cpp:659-692 | A row fused from the window is the row fused from everything that ever landed, or from everything not yet expired. |
| ActionChunkProofs.RunInv | nexus/modes/action_chunk/action_chunk.cpp:203-541 | The whole invariant (ownership, timing, fusion, projection, counters) holds after any sequence of the mode's verbs with any executor replies, failures included. |
| ActionChunkProofs.ReachableSteps | nexus/modes/action_chunk/action_chunk.cpp:203-541 | What a verb leaves behind is reachable again, so the state of the class always is. |
| ActionChunkProofs.StepKeeps | nexus/modes/action_chunk/action_chunk.cpp:203-541 | Every verb keeps the invariant. |
| ActionChunkProofs.SeatFusionKeeps | nexus/modes/action_chunk/action_chunk.cpp:654-706 | Retaining, fusing and seating keeps the invariant, also when the seating fails. |
| ActionChunkProofs.LaunchKeeps | nexus/modes/action_chunk/action_chunk.cpp:239-279 | Choosing a slot, by eviction if need be, and firing keeps the invariant, also when the fire fails after the eviction. |
| ActionChunkProofs.LandKeeps | nexus/modes/action_chunk/action_chunk.cpp:291-371 | Reading and seating an arrived chunk keeps the invariant, also when the read fails. |
| ActionChunkProofs.PromoteKeeps | nexus/modes/action_chunk/action_chunk.cpp:817-836 | Promoting a parked chunk, with its deferred fusion, keeps the invariant. |
| ActionChunkSpec.FullRing | nexus/modes/action_chunk/action_chunk.cpp:246-254 | When no slot is free every slot is retained, so eviction always finds a chunk. |
| ActionChunkSpec.UnexpiredMembers | nexus/modes/action_chunk/action_chunk.cpp:640-652 | Pruning keeps exactly the unexpired chunks, without duplicates. |
| ActionChunkSpec.NormalizeValidates | nexus/modes/action_chunk/action_chunk.cpp:139-163 | Filling in the default slot count and the default of three fused chunks changes neither what `validate` says nor anything when done again. |
| ActionChunkModes.ActionChunkMode.constructor | nexus/modes/action_chunk/action_chunk.cpp:139-186 | Whatever `validate` accepts (for an external executor, without a state input port): the defaults are filled in, and the mode starts in the initial state of the specification for the configuration so completed. |
| ActionChunkModes.ActionChunkMode.BeginRequest | nexus/modes/action_chunk/action_chunk.cpp:203-231 | The new state and status are those of the specification of the first phase of a request. |
| ActionChunkModes.ActionChunkMode.ProjectState | nexus/modes/action_chunk/action_chunk.cpp:713-753 | The integration loop computes the projected state and count of the specification. |
| ActionChunkModes.ActionChunkMode.CommitRequest | nexus/modes/action_chunk/action_chunk.cpp:233-280 | The second phase: slot choice, eviction, submit and stamps, as specified. |
| ActionChunkModes.ActionChunkMode.ChooseSlot | nexus/modes/action_chunk/action_chunk.cpp:239-261 | The slot scan and eviction loop picks the specified slot and leaves the specified ring. |
| ActionChunkModes.ActionChunkMode.Poll | nexus/modes/action_chunk/action_chunk.cpp:286-390 | Query, landing, seating, budgets and failure paths leave the specified state and status. |
| ActionChunkModes.ActionChunkMode.NearestRow | nexus/modes/action_chunk/action_chunk.cpp:573-623 | The in-place argmin over cumulative distances finds the specified row, the lowest index on ties. |
| ActionChunkModes.ActionChunkMode.PruneExpired | nexus/modes/action_chunk/action_chunk.cpp:640-652 | The in-place compaction leaves the specified retained list and flags. |
| ActionChunkModes.FuseRow | nexus/modes/action_chunk/action_chunk.cpp:666-692 | The newest-first accumulation with its early stop computes the weighted mean over the selected chunks, in the sense of `IsMean`, and touches no chunk. |
| ActionChunkModes.ActionChunkMode.SeatFused | nexus/modes/action_chunk/action_chunk.cpp:654-706 | Prune, retain, fuse, seat: the specified state, with every retained chunk's rows untouched. |
| ActionChunkModes.ActionChunkMode.SeatSwitched | nexus/modes/action_chunk/action_chunk.cpp:625-638 | Seating by clock or by state, as specified. |
| ActionChunkModes.ActionChunkMode.Dispatch | nexus/modes/action_chunk/action_chunk.cpp:329-358 | Which seating a landed chunk gets under each policy, as specified. |
| ActionChunkModes.ActionChunkMode.PromoteWaiting | nexus/modes/action_chunk/action_chunk.cpp:817-836 | Promotion of the parked chunk at its start step, as specified. |
| ActionChunkModes.ActionChunkMode.NextAction | nexus/modes/action_chunk/action_chunk.cpp:392-466 | The tick hands out the specified row and status and leaves the specified state. |
| ActionChunkModes.ActionChunkMode.SyncNextChunk | nexus/modes/action_chunk/action_chunk.cpp:473-494 | Blocking for the next chunk leaves the specified state. |
| ActionChunkModes.ActionChunkMode.SetMeasuredState | nexus/modes/action_chunk/action_chunk.cpp:496-505 | Accepts a state of the right dimension, as specified. |
| ActionChunkModes.ActionChunkMode.SetStateActionIndices | nexus/modes/action_chunk/action_chunk.cpp:507-524 | The nested duplicate check accepts exactly the injective maps into the action columns that map something. |
| ActionChunkModes.ActionChunkMode.Reset | nexus/modes/action_chunk/action_chunk.cpp:526-541 | Forgets every chunk and request, keeps measured state, map and counters. |
| PrevChunk.Prepare | nexus/modes/action_chunk/action_chunk.cpp:789-806 | The staging loop computes the specified rows: the raw row at the consumed position plus the index, the last row repeating; zeros before there is a chunk. |
| PrevChunk.SourceRowExact | nexus/modes/action_chunk/action_chunk.cpp:797-800 | The row staged at index i is the one i steps on, clipped to the last, if and only if the 32-bit sum does not wrap. |
| PrevChunk.StepRefines | nexus/modes/action_chunk/action_chunk.cpp:203-494 | Every step of the policy, raw reads and their failures included, is a step of the mode with some reply. |
| PrevChunk.PrefixRuns | nexus/modes/action_chunk/action_chunk.cpp:203-541 | So every run of the policy goes through reachable states of the mode, and throughout it the raw chunk is, row by row, that of the chunk being consumed, unless the landing that read it failed. |
| PrevChunk.StagedIsUpcoming | nexus/modes/action_chunk/action_chunk.cpp:784-806 | In every run, what a begin stages while a chunk is consumed is from that chunk's fire if and only if the landing that read the raw chunk succeeded; row i is then the action executed i steps on, as far as the sum does not wrap, the last one repeating. |
| PrevChunk.ColdStages | nexus/modes/action_chunk/action_chunk.cpp:784-806 | With nothing being consumed a begin stages the last raw row over and over, as far as the sum does not wrap, and zeros before there is a raw chunk or after a reset; a begin that finds the request begun stages nothing. |
| PrevChunk.TornStages | nexus/modes/action_chunk/action_chunk.cpp:298-322 | Whenever the raw read of a landing succeeds and its output copy fails, the next begin stages the chunk that was never seated over the one still being consumed. |
| PrevChunk.TornHappens | nexus/modes/action_chunk/action_chunk.cpp:298-322 | In every configuration of the policy a run of four calls leads there: nines are staged where ones are executed. |
| Streams.OrderedHolds | host/src/model_runtime.cpp:119-137 | In every interleaving of the streams, device work that the issued program orders (same stream, event, or host sync) is done before the later work starts. |
| Streams.ExecutionConsistent | host/src/model_runtime.cpp:119-137 | Every execution keeps streams FIFO and waits, syncs and queries honoured. |
| StageTick.Tick | host/src/model_runtime.cpp:80-137 | A tick leaves a program in which every stage's work comes once, in order, after that of all its dependencies, and nothing else is replayed or run since the tick's start but an opaque stage that ran last and whose failure is returned; with a runtime from the adapter, captured graphs, a backend that does not fail and stages that report success it returns OK. The fallback without events leaves what `cap_drive_tick` promises. |
| StageTick.TickIsOrdered | host/src/model_runtime.cpp:80-137 | In every execution of a program containing a tick, whatever surrounds it, a stage's work starts only when the work of all its earlier dependencies in that tick is done. |
| StageTick.FenceOff | host/src/model_runtime.cpp:87-103 | The wait or sync issued for one dependency fences the stage; for an adapter's runtime no event is ever missing. |
| StageTick.RunStage | host/src/model_runtime.cpp:104-110 | The stage's work is ordered after all fenced dependencies, once, and its event is recorded behind it; nothing else is replayed or run; a graph without a capture is refused and issues nothing. |
| StageTick.DriveTick | core/src/capsule.cpp:253-288 | Whatever fails: exactly the due stages before the first failing replay are replayed, once each and in order, the result names that stage, and nothing else is replayed. Unless a wait, an event or a record failed unnoticed, each pair (waiter, waited-on) whose waited-on stage comes first is ordered. |
| Cadence.EveryIsFair | core/src/capsule.cpp:262-264 | A stage of cadence num/den is due in exactly num of any den consecutive clocks. |
| Cadence.EveryStartsCycles | core/src/capsule.cpp:262-264 | Within each cycle of den clocks these are the first num; with a negative num or without a positive den it is always due. |
| Cadence.PeriodDueExact | nexus/schedulers/stage_dag.cpp:129-135 | While the 64-bit sum does not wrap, a stage is due exactly when the tick is congruent to its phase modulo its period. |
| Cadence.PeriodIsOnce | nexus/schedulers/stage_dag.cpp:129-135 | So it is due exactly once in every window of one period in which no sum wraps. |
| Adapter.QueryAuthority | backends/flashrt/flashrt_model_extension_internal.h:38-96 | A plan is accepted exactly when names are distinct and not empty, kinds and graph references are valid, dependencies strictly increase and point backwards, and there is an opaque stage. |
| Adapter.CheckStage | backends/flashrt/flashrt_model_extension_internal.h:70-91 | The nested checks accept exactly the well-formed stages. |
| Adapter.Adopt | backends/flashrt/flashrt_model_adapter.cpp:96-245 | Adoption succeeds exactly if the model is adoptable (authority, metadata or export, stages that can be built) and no event is refused. What it hands out is topologically ordered, mirrors the authority stage by stage, has exactly the pairs of its dependencies, an entry of cadence 1/1 on its own stream for every stage, and an event exactly where a stage is waited for through one. |
| Adapter.BuildStages | backends/flashrt/flashrt_model_adapter.cpp:162-202 | Succeeds exactly if every graph stage names an exported graph of an adopted export and every dependency points backwards; the stages then mirror the plan or the model's own list. |
| Adapter.BuildPairs | backends/flashrt/flashrt_model_adapter.cpp:187-192 | Every dependency gets a pair and every pair is a dependency, dependency first: the opposite of the order in which `cap_drive_tick` reads pairs. |
| Adapter.BuildEvents | backends/flashrt/flashrt_model_adapter.cpp:204-218 | A stage gets an event exactly if some graph waits for it and both are graphs, on different streams if there is a plan, and no two stages share one; it fails exactly if the backend refuses one. |
| StageRunner.Runner.Fire | nexus/schedulers/stage_dag.cpp:49-100 | A fire succeeds exactly when the stage exists, is not in flight, all its dependencies are earlier stages that have fired, and running it reports success. It then has issued nothing but waits (for a graph) or host waits (for an opaque stage), its work once, and for a graph the record and, if it is done at once, that observation; the work is ordered after the latest work of each dependency. A fire that fails has issued nothing but those waits. |
| StageRunner.Runner.Query | nexus/schedulers/stage_dag.cpp:139-148 | A query that reports completion means the latest work has been observed done; any other changes nothing. |
| StageRunner.Runner.SyncStage | nexus/schedulers/stage_dag.cpp:171-179 | A sync clears the in-flight flag of its stage and leaves every other stage's state. |
| StageRunner.Runner.RunMask | nexus/schedulers/stage_dag.cpp:111-120 | Fires the masked stages in order until one fails, also when it fails: exactly those before it have fired, once each and in order, each behind its dependencies, every other stage is as it was, and nothing else was replayed or run. |
| StageRunner.Runner.RunDue | nexus/schedulers/stage_dag.cpp:122-137 | The same for the stages that are due at the tick. |
| StageRunner.AtMostOneOutstanding | nexus/schedulers/stage_dag.cpp:49-52 | In every execution a stage's replay is done before its next one is even issued. |
| StageRunner.ClearedMeansDone | nexus/schedulers/stage_dag.cpp:88-90 | A cleared in-flight flag means the last replay is done, in every execution. |
| StageRunner.RunnerNeverOverlaps | nexus/schedulers/stage_dag.cpp:49-100 | After any sequence of calls, no stage has two outstanding replays in any interleaving. |
| Blob.RoundTrip | core/src/capsule.cpp:164-192 | Loading a serialized capsule gives back fingerprint, meta, region sizes and bytes, unless the fingerprint differs or there are more regions than a load admits, which serializing does not check. |
| Blob.ExactLanguage | core/src/capsule.cpp:197-239 | A load accepts exactly the blobs of the stated layout with matching magic, version, fingerprint, region bound and total length, each as the capsule it describes. |
| Blob.HeaderLayout | core/src/capsule.cpp:164-166 | The first 32 bytes of every blob, byte by byte: magic number, version, fingerprint, tier, number of regions, and length of the meta bytes, each with its lowest byte first. |
| Blob.Layout | core/src/capsule.cpp:164-192 | And behind them, for every region, its length in the table, the meta bytes, and its own bytes behind those of the regions before it. |
| Blob.SerializesAgain | core/src/capsule.cpp:164-239 | Serializing an accepted blob again changes nothing but the tier field, and nothing at all exactly when that field says HOST. |
| Blob.AcceptedIsEncoded | core/src/capsule.cpp:197-239 | An accepted blob is byte for byte what serializing the loaded capsule writes, but for the tier. |
| Blob.CutIsExact | core/src/capsule.cpp:223-235 | Cutting the data by the table succeeds exactly on regions laid end to end with nothing left. |
| Memory.RestoreIsExact | core/src/capsule.cpp:107-117 | Regions copied out and written back over any later contents: every byte of a declared region is as it was, every other byte is untouched, however regions overlap. |
| Memory.ReadsBack | core/src/capsule.cpp:119-130 | Pieces written to regions in turn can all be read back if and only if they agree where regions overlap. |
| Memory.RestoredRegions | core/src/capsule.cpp:107-117 | After a snapshot, any writes and a restore each region reads as it did. |
| Ledgers.LedgerAdds | core/src/capsule.cpp:73-99 | A finished capsule enters the ledger with exactly its buffers. |
| Ledgers.LedgerDrops | core/src/capsule.cpp:241-247 | A dropped capsule leaves with exactly its buffers and disturbs no other. |
| Ledgers.LedgerMoves | core/src/capsule.cpp:149-160 | Moving one region to another buffer keeps the ledger and the capsule's contents. |
| CapsuleCores.Context.Snapshot | core/src/capsule.cpp:73-99 | Either the new capsule holds the regions' bytes, or memory and ledger are exactly as before; the latter if and only if a backend call failed. |
| CapsuleCores.Context.Restore | core/src/capsule.cpp:107-117 | The status for each refusal, and on success memory with all regions written back; on a failure nothing outside the regions has changed. |
| CapsuleCores.Context.RestoreInto | core/src/capsule.cpp:119-130 | A region that is too small is noticed only in its turn: exactly the regions before it have been written then. |
| CapsuleCores.Context.TierMove | core/src/capsule.cpp:145-162 | Contents, origins and every other capsule are the same whatever fails; the tier changes exactly when no call failed, and then every region is in the new space. |
| CapsuleCores.Context.Serialize | core/src/capsule.cpp:168-192 | Writes exactly the encoding of the capsule and not a byte past it, or only tells its length; a buffer that is too small is left alone. |
| CapsuleCores.Context.Load | core/src/capsule.cpp:197-239 | Becomes a capsule if and only if the blob parses and no backend call fails; otherwise memory and ledger are as before. Reads only inside the blob. |
| CapsuleCores.Context.Drop | core/src/capsule.cpp:241-247 | Frees exactly the capsule's backing buffers. |
| CapsuleCores.Context.WriteInto | core/src/capsule.cpp:123-128 | How far the copy loop comes. |
| CapsuleCores.Context.LoadAll | core/src/capsule.cpp:223-236 | The region loop with its running byte count cuts the data as the table says or gives everything back. |
| Sessions.Session.Snapshot | nexus/embedded/session.cpp:301-320 | On success the name holds the image of the live regions of this moment; on any failure names, trace and memory are as before. |
| Sessions.Session.Load | nexus/embedded/session.cpp:352-368 | The status of each outcome; on success the name holds the blob's image. |
| Sessions.Session.Restore | nexus/embedded/session.cpp:322-338 | The status of every outcome. A successful restore gives the live regions the contents of the latest successful snapshot or load of that name, and writes nothing else; a refused one writes nothing. |
| Sessions.Session.Serialize | nexus/embedded/session.cpp:340-350 | The bytes written are the encoding of what was last saved under the name; the status and the length of every outcome. |
| Sessions.Session.Close | nexus/embedded/session.cpp:24-31 | Afterwards the live buffers are the application's own, untouched: the ledger is back at its start. |
| Sessions.Session.Install | nexus/embedded/session.cpp:314-319 | The capsule that had the name is dropped, the new one takes it, and every other name holds what it held. |
| Sessions.RewritesReadBack | nexus/embedded/session.cpp:322-338 | Restored regions read as saved if and only if the saved pieces agree where regions overlap. |
| Sessions.ShippedRegions | nexus/embedded/session.cpp:340-368 | What one session serialized is what another with the same identity loads. |
| ServiceProofs.LeaseIsolation | serve/execution.py:42-70 | Between any two executions of different leases, or on either side of a reset, the executor's history holds a successful provider reset. |
| ServiceProofs.FailedResetStops | serve/execution.py:42-50 | After a failed reset no execution runs, or will run, in any continuation. |
| ServiceProofs.BoundedQueue | serve/execution.py:119-149 | The executor never holds more than one execution, one reset and one close, in that order. |
| ServiceProofs.ResultIsFresh | serve/execution.py:97-108 | An output handed out was returned by an execution of the caller's own lease and request, submitted since the last reset began. |
| ServiceProofs.PollRepeats | serve/execution.py:97-117 | Over any run, polling repeats the same answer until an acknowledgement, a reset, a release or a close is taken or the lease expires, whatever else is called meanwhile, refused calls of stale and foreign callers included. |
| ServiceProofs.StepKeeps | serve/execution.py:42-149 | Every call, housekeeping pass, close, executor step and clock step keeps the service's invariant. |
| ServiceProofs.RunKeeps | serve/execution.py:42-149 | So every run keeps it. |
| ServiceLeases.MaintainExpires | serve/execution.py:42-50 | A housekeeping pass ends the lease of a holder that was silent for the timeout, and no other: its request is forgotten and the provider's reset waits in the queue or has just been collected. |
| ServiceLeases.ExpiryFrees | serve/execution.py:42-70 | A silent holder does not keep the service: once such a pass was made and the executor has worked through its queue, the resets having returned, the next acquire of an open and sound service is granted. |
| ServiceLeases.CheckRenews | serve/execution.py:72-79 | A caller is let through exactly if it names this service and the lease that is held and not expired, and the service is open and sound; that makes the lease last the timeout from now. Otherwise it is refused, with 503 only where the lease was its own. |
| ServiceLeases.LeaseLasts | serve/execution.py:42-79 | Over any run, a lease is its holder's until it is released, the service is closed, or the timeout has passed since the holder was last let through. |
| ServiceLeases.PastIsRefused | serve/execution.py:72-79 | Over any run, a lease that has ended is never honoured again: every call that names it is refused as stale. |
| ServiceLeases.AcquireGrants | serve/execution.py:60-70 | A lease is granted exactly if the service is open and sound, nobody holds one that has not expired, and no reset is outstanding; it is a new one and lasts the timeout from now. |
| ServiceLeases.SubmitIsTaken | serve/execution.py:85-95 | A submission is accepted exactly if its caller is let through, nothing of its is pending, no reset is outstanding, and it has a name; what is then queued is that request with its inputs, and nothing else. |
| ServiceLeases.SubmitIsAnswered | serve/execution.py:81-108 | An accepted request still runs until the executor has worked through its queue; then it has been executed, and its caller, coming back within the timeout, is told what the provider answered. |
| ServiceLeases.AcknowledgeFrees | serve/execution.py:110-117 | An acknowledgement is taken exactly if its caller is let through and names a request that has ended; then there is room for the next. |
| ServiceLeases.ResetBegins | serve/execution.py:119-139 | A reset or a release of every caller that is let through, and no other, forgets its request and leaves the provider's reset waiting in the queue; the lease stays, or ends. |
| ServiceLeases.StatusTells | serve/execution.py:132-134 | The status says to a caller that is let through whether a reset is outstanding. |
| ExecutionServices.ExecutionService.Maintain | serve/execution.py:42-50 | Expiry and collection of a finished reset, as specified. |
| ExecutionServices.ExecutionService.Acquire | serve/execution.py:60-70 | State and reply as specified; the state stays one that a run leads to. |
| ExecutionServices.ExecutionService.Submit | serve/execution.py:85-95 | State and reply as specified for every check in its order. |
| ExecutionServices.ExecutionService.Result | serve/execution.py:97-108 | State and reply as specified. |
| ExecutionServices.ExecutionService.Acknowledge | serve/execution.py:110-117 | State and reply as specified. |
| ExecutionServices.ExecutionService.Reset | serve/execution.py:119-130 | State and reply as specified. |
| ExecutionServices.ExecutionService.Status | serve/execution.py:132-134 | State and reply as specified. |
| ExecutionServices.ExecutionService.Release | serve/execution.py:136-139 | State and reply as specified. |
| ServiceSpec.RunAllEnds | serve/execution.py:141-149 | Working through the queue ends every job of it, in order, each with its own outcome, and touches nothing else. |
| ExecutionServices.ExecutionService.Close | serve/execution.py:141-149 | Closes once: refuses new leases, waits until everything queued has ended and then closes the provider, whose outcome it hands on; closing again does nothing. |
| ExecutionServices.ExecutionService.RunNext | serve/execution.py:81-83 | The executor takes its next job through the worker: exactly one provider call, never turned away, and the outcome is the provider's answer to it. All jobs so far match the worker's calls one to one. |
| ExecutionWorkers.RunJob | serve/worker.py:58-95 | On an idle open worker every service job makes exactly one provider call and leaves the worker idle. |
| ExecutionWorkers.ExecutionWorker.Submit | serve/worker.py:58-64 | Declined when closed or when a request is uncollected, and then nothing changes. |
| ExecutionWorkers.ExecutionWorker.Result | serve/worker.py:70-78 | Waits for the uncollected request, hands over the provider's answer to it, once. |
| ExecutionWorkers.ExecutionWorker.Reset | serve/worker.py:80-85 | Runs behind the current request; the uncollected output is dropped exactly when the provider's reset did not raise. |
| ExecutionWorkers.ExecutionWorker.Close | serve/worker.py:87-95 | Closes once, behind the current request. |
| RemoteProofs.ReturnedOutputIsOwn | serve/remote.py:77-94 | In every world that any run with lost requests and replies leads to, an output that execute returned is what the provider computed in this lease, for this request, from the inputs given, and that was its only execution. |
| RemoteProofs.EachRequestRunsOnce | serve/remote.py:77-94 | Whatever ran for the lease was sent by this client with these inputs, and no request runs twice. |
| RemoteProofs.ExecuteReturnsOrLatches | serve/remote.py:68-75 | An execute ends by returning one output or by latching the need of a reset. |
| RemoteProofs.FailedExecuteStops | serve/remote.py:68-75 | After a failed execute, until a reset is confirmed, the only thing that may still run is that very execute, at most once. |
| RemoteProofs.LatchOpensWhenQuiet | serve/remote.py:96-107 | The latch opens only on a confirmed idle service, and then nothing sent before is queued or under way. |
| RemoteProofs.NothingOldRuns | serve/remote.py:96-107 | Once the client rests with nothing to reset, every later execution of its lease is of a later execute. |
| RemoteProofs.QuietRun | serve/remote.py:96-107 | From a quiet world on, nothing sent before ever runs, in any continuation. |
| RemoteProofs.StepKeeps | serve/remote.py:45-117 | Every step of client, network, service and others keeps the invariant of the world. |
| RemoteProviders.RemoteProvider.Execute | serve/remote.py:68-94 | Refuses without a call when closed or latched; otherwise returns one output for its own inputs or fails with the latch set. It fails only if the submission or the acknowledgement was refused or got no reply within the client's patience, if a poll was refused, got none, told of a failure or named another request, or if all its polls were told that the request still runs. |
| RemoteProviders.RemoteProvider.Reset | serve/remote.py:96-107 | Succeeds exactly when the latch is open again, and then nothing sent before can still run. It does so once a status reply is idle, and fails only if a call was refused or got no reply, or if all its polls found the reset still going on. |
| RemoteProviders.RemoteProvider.AnswerIsHeard | serve/remote.py:77-94 | So what is heard determines the answer: an execute whose submission is taken, which within its polls is told the output, and whose acknowledgement is taken, returns it. |
| RemoteProviders.RemoteProvider.ResetIsHeard | serve/remote.py:96-107 | And a reset whose calls are taken and which within its polls is told idle succeeds. |
| RemoteProviders.RemoteProvider.SaysWhatItShould | serve/remote.py:77-94 | The calls whose replies these are: one submission of the inputs under a new name, result calls for that name, and its acknowledgement, each for the client's own lease. |
| RemoteProviders.RemoteProvider.ResetSaysWhatItShould | serve/remote.py:96-107 | One reset call, then status calls. |
| RemoteProviders.RemoteProvider.Close | serve/remote.py:109-116 | Releases at most once and does not depend on the reply. |
| RemoteProviders.CloseReleases | serve/remote.py:109-116 | The close sends one release of the client's lease, and after it the client sends nothing. |
| WireCodec.RoundTrip | serve/transports/wire.py:13-56 | Decoding what was encoded gives the value with tuples as lists and array scalars plain; objects come back as objects. |
| WireCodec.EncodesExactly | serve/transports/wire.py:13-35 | A value is encoded exactly if nothing in it is beyond JSON, its arrays have a type and a size that the wire takes, and its objects are keyed by strings other than the array mark: tuples and lists alike, whatever they hold. |
| WireCodec.DecodesExactly | serve/transports/wire.py:38-56 | A message is decoded exactly if every marked object in it spells out an array, with as many bytes as type and sizes ask for and no more than the limit, counting of members of one name the last. |
| WireCodec.NotAnArray | serve/transports/wire.py:19-22 | No object that can be encoded is taken for an array. |
| WireCodec.ArrayRoundTrip | serve/transports/wire.py:38-52 | An array within the limits comes back with its type, shape and bytes. |
| WireCodec.LastWins | serve/transports/wire.py:53-71 | A decoded object has the names of the members, each with the last value given to it, whatever earlier ones of the name held. |
| WireCodec.DecodedCanBeSent | serve/transports/wire.py:38-56 | Whatever decodes is well formed and can be sent on unchanged. |

## Left out

- The raw-prefix policy in the class: `PrevChunk` is a machine on values around the specification, with only the staging loop as a method; `prefix_len` and the copying out of the staged rows are left out.
- IEEE rounding: action values, distances and weights are reals, and the square root of the second distance metric, which does not change an argmin, is not taken.
- Byte views of actions: rows are sequences of reals of `action_bytes / 4` columns for every policy, and -1 and UINT32_MAX are options or out-of-range values.
- Tick statistics, `last_error_`, latency fields and error strings: they influence nothing that is modelled.
- Null handles, struct sizes, ABI versions and names of capsules: they are checked before anything that is modelled.
- The write of the projected state to `state_input_port` is its status only.
- Errors of the backend inside `StageDagRunner::fire`, `query` and `sync`: the runner is modelled on a backend that reports none; `run_once` is `RunMask` with every stage.
- Hazards between ticks on shared hand-off buffers, which the code says it does not protect.
- Ports, identities and retain counts of the adapter; a model without a plan that has only a step verb is reduced to the status of that verb.
- Streams of capsule copies: copies take effect in the order in which they are issued, as on one stream; ready events and `cap_regions` are not modelled.
- A capsule's blob is little-endian, the byte order of the hosts it is built for, where the code copies native words.
- CapsuleCores.Context.Serialize: the length is an unbounded sum where the code adds in `size_t`.
- Inputs, ticks and outputs of a session: `Session.Overwrite` stands for whatever they write to live buffers.
- Clocks: one reading per call of the service, in whole units; a lease name is a number never used before.
- Timed waits and the `ready` property of the worker, its process, and pickling.
- HTTP, authentication, JSON text and its byte limit; one call of the client is one message and at most one reply.
- The wire codec reads element types in the three-character form it writes; other names of the same types are refused here and accepted by the code.
- Executors other than the worker, `GraphStore`, the compatibility layer, the flat C interfaces and everything on the device side of the backend table.
