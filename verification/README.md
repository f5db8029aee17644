# Verified model of pyramulator

pyramulator is a discrete-event kernel with hardware primitives and a DRAM component around the
Ramulator engine.  This project models that kernel, the primitives, the DRAM component with its
coalesced bursts, the thin engine layers below it and the two example accelerators, and proves what
the repository promises about them.  `dafny verify dfyconfig.toml` checks the whole project.

## How the model is built

There are two layers, and the second is proved to be the first.

**Values.**  `Agenda` is what the event heap means: the live events in firing order, without ids.
`Device` is the DRAM component on a simulator, as functions on one value; `World` adds host code, which
is any deterministic machine that schedules, cancels, reads, writes, observes or raises.  The same step
function runs the coalescing component and the plain one that spends one event on every DRAM cycle.
On these values stand `Chains` (the busy and idle clock chains), `Coalescing` and `Windows` (whole runs, by the
general refinement results of `Machines`), `Fleet` with `FleetRuns` (several components on one simulator),
`Bulk` (bulk and single requests), `ClockLag`, `Delivery`, `Reports` (what callbacks are told, and the idle
back-off), `Sessions` (many runs, from a new component), `Telling` (what the host is told), `Pipes` with
`PipeRetries`, `Drive` with `DriveReplay`, `CopyEngine` with `CopyInvariant` and `CopyReads`, `Spmm` with `SpmmResult`
and `SpmmTraffic`, and `Nesting` with `NestedRuns` (callbacks that call `step` or `run`, or raise).

Some states carry histories that no step consults, for the theorems to speak of: `Device.Dev` the requests accepted,
the completions recorded and posted, the reads handed back and the idle events in a row; `Drive.State` the sends and
ticks; `Nesting.Machine` the events fired, cancelled and raised.

**Objects.**  Classes hold the fields of the Python and C++ classes and update them in place.
`Simulator` is a binary heap (`Heapq`) of shared event objects with a mutable `cancelled` flag, an id map
and counters; `Kernel` says which list it stands for.  `CoreEngine` is the C++ wrapper, `MemorySystem` the
Python layer over it, `Dram` the component on both, `Hardware` the FIFO and the pipe, `CopyMachine` and
`SpmmMachine` the accelerators.  Each method equates the new state with a function of the old one from the
value layer, so the theorems there hold of the objects: `Plant` runs the closed system of `World` on them,
`Interpreter` the machine of `Nesting`.

**The engine** is opaque: a tick, a pending count, a send.  Its promises are named in `Engine`: an accepted
request makes something pending; a refused one changes neither the pending count nor the reads in flight;
cycles that start with nothing pending serve nothing (they may leave something pending, such as a queued
refresh); an accepted read stays in flight until exactly one tick hands it back, under its own address and
closure; only reads are handed back; nothing pending means no read in flight.  `Prompt` is the part that the
clock chains need, `Honest` is all of it.  The two accelerators also need `ReadRefusedOnlyWhenReading`: a read
is refused only while some read is in flight.  `ToyEngine` is a small memory controller that keeps all of these
together (`ToyEngine.ToyIsHonest`); the runs of `Witnesses` are on it.

**Conventions.**  Times, cycle counts and addresses are unbounded integers, as in Python.  A method that
raises returns `Raised` or one of the named outcomes of `MemorySystem`.  Callbacks are names: an event carries
a tag, and host code is a deterministic machine that is told what fired.  `Inside` (module `Prelude`) keeps the
verifier from looking into large invariants where a proof only hands them on; it adds no assumption.

## Findings

Where the code and its documentation differ, the model follows the code.

- Pipe order under stalls.  `Pipe` (pyramulator/hardware.py:204-212) does not look at its stalled queue when an
  item arrives, so a later item can overtake a stalled one.  `Pipes.OvertakingHappens` is such a run.  A run stays in
  order throughout exactly when in none of its steps the consumer takes an item on its first attempt while different
  items are stalled (`Pipes.OrderBreaksByOvertaking` for a step, `Pipes.RunsBreakByOvertaking` for a run).
- SpMM widths.  `examples/spmm_hbm.py` reads whole cachelines, so for a width that is not a multiple of 16 the
  last block of a row of B is longer than the block of the accumulator, and the in-place addition raises.  It goes
  well exactly when the width is a multiple of 16 or all nonzeros of A are in the last column
  (`SpmmResult.AlignedIffAllFit`, `SpmmResult.SpmmIsProduct`); `Witnesses.NarrowOperandRaises` is a run that raises.
- Zero-delay events.  README.md:97-98 says that they run after the events already queued at that time.  By the
  heap's key that holds exactly for queued events whose priority value is not above that of the new one
  (`Agenda.DeltaPlace`, `Agenda.DeltaMayRunFirst`).
- `run(n)` and `n` ticks.  `tick` counts its cycle after the callbacks (pyramulator/_engine.py:314-319) and leaves the
  later cycles undone when one raises; `run` does all cycles, counts them and tells every completion.  The two raise on
  the same inputs, and they agree on engine, count and user state exactly when no callback of the batch raises
  (`MemorySystem.RunIsTicks`; `MemorySystem.TicksFallShort` says where the ticks stop).
  `Witnesses.RaisingRunIsNotTicks` is an input on which all three differ.
- A write whose callback raises ends the loop that fires the callbacks of the other accepted writes
  (pyramulator/_engine.py:447-450), unlike a batch of read completions, where all callbacks run.  Every accepted write
  is told exactly when no callback but the last one raises (`MemorySystem.WritesEndAtRaise`);
  `Witnesses.WriteGoesUntold` is a batch of two with one told.
- A drive after one that its cycle budget cut off.  The completion counter is reset
  (cpp/bindings.cpp:225-239), but requests of the earlier drive that are still in the engine bump it when they are
  served, so the new drive can return early with requests of its own in the engine.  As many may remain as were
  left over (`Drive.DriveEnds`), so that none remain is certain when none were left over, and for every positive
  number of leftovers there is a drive that leaves its only request behind (`Witnesses.LeftoverEndsDrive`).
- The hand-over inside an idle event (pyramulator/dram.py:304-310) is described there as impossible.  It is not, for an
  engine that counts a queued refresh as pending: `Witnesses.HandOverHappens`.  It keeps the clock lag
  (`ClockLag.IdleKeepsLag`).

## Model

| member | source | states |
|---|---|---|
| `Windows.CoalescingPreservesRuns` | pyramulator/dram.py:246-285 | For any host code and any horizon, `run(until)` on the bursting component stops exactly when it stops on the component that spends one event per DRAM cycle, and then both leave the same engine, time, agenda, host state, completions and sequence of (time, callback) firings, ties included. |
| `Windows.CoalescingPreservesScripts` | CHANGELOG.md:25-31 | The same for any sequence of runs with host code in between. |
| `Windows.WindowsCompose` | pyramulator/sim.py:191-217 | `run(until=a)` followed by `run(until=b)` with a no later than b ends in the same world as `run(until=b)` alone, although the bursts are clipped differently at a. |
| `Windows.HorizonSafety` | pyramulator/sim.py:191-217 | `run(until=T)` ends with `now` at most the later of T and the time of entry, and, unless a callback raised, with no live event at or before T. |
| `Windows.CoalescingPreservesFlush` | pyramulator/dram.py:173-188 | Stepping until the DRAM is empty, between runs or inside one, comes to an end on the same starts and in the same world, bursts or not. |
| `FleetRuns.FleetPreservesRuns` | pyramulator/dram.py:246-285 | Any number of components with their own clocks and engines on one simulator, each clipping its bursts by the next event of any other: every run ends exactly when it ends without bursts, in the same state. |
| `FleetRuns.FleetPreservesScripts` | CHANGELOG.md:25-31 | The same for any sequence of runs with host code in between. |
| `FleetRuns.FleetWindowsCompose` | pyramulator/sim.py:191-217 | Cutting a run of several components in two leaves the same state. |
| `FleetRuns.StepKeeps` | pyramulator/dram.py:235-317 | Every step of any host keeps the chain invariants of all components at once. |
| `FleetRuns.JoinKeeps` | pyramulator/dram.py:60-79 | A component built on a simulator where others are at work starts with its invariant and leaves theirs. |
| `Coalescing.StepIsSteps` | pyramulator/dram.py:267-285 | One step of the bursting component, due within the horizon or not, is one or more steps of any machine that takes the plain steps while the DRAM is busy. |
| `Coalescing.StepKeeps` | pyramulator/dram.py:235-317 | Every step of any host keeps the chain invariant: each flag stands for exactly one live event of its chain, the busy flag holds exactly when something is pending, the chains exclude each other, and with idle refresh one of them is alive. |
| `Device.MaxBurst` | pyramulator/dram.py:246-265 | Every cycle of the burst but the first lies strictly before the next event and within the horizon, and the burst is 1,000,000 cycles or one more would not. |
| `Chains.IdleBodyIs` | pyramulator/dram.py:301-317 | An idle event finds nothing pending and records nothing; it hands over to the busy chain exactly when its cycles left something pending, and otherwise doubles its batch up to the maximum. |
| `Chains.ReadIsReads` | pyramulator/dram.py:105-155 | A single read is a bulk read of one, for the device and the reply. |
| `Chains.WriteIsWrites` | pyramulator/dram.py:123-171 | A single write is a bulk write of one. |
| `Bulk.ReadsAreReads` | pyramulator/dram.py:105-155 | `reads` leaves what as many `read`s leave, one after the other, with the same flags: a refusal does not end the batch. |
| `Bulk.WritesAreWrites` | pyramulator/dram.py:123-171 | `writes` leaves what as many `write`s leave, with the same flags and the same completions in the same places of the agenda, although it delivers them and starts the clock once. |
| `Chains.BegunIsSound` | pyramulator/dram.py:60-79 | A new component satisfies the chain invariant on any simulator; the events of others, other components included, are `User` events to it. |
| `ClockLag.BurstKeepsLag` | pyramulator/dram.py:267-299 | Bursts of any length, and the switch from busy to idle, leave t - (cycles + c) * period of the pending chain event as it was. |
| `ClockLag.IdleKeepsLag` | pyramulator/dram.py:301-317 | So does an idle batch, whether it backs off or hands over. |
| `ClockLag.WakeGrowsLag` | pyramulator/dram.py:235-244 | A request that wakes an idle component adds exactly the elapsed part of the cancelled idle interval, at most 16 * `idle_batch_cycles` cycles. |
| `Sessions.NeverAhead` | pyramulator/dram.py:267-317 | From a new component, at any point of any sequence of runs: cycles * period <= now, the lag is not negative and the chain invariant holds. |
| `Sessions.InRecordOrder` | pyramulator/dram.py:206-227 | At any such point: callbacks started, then those waiting, then those in the deque, are the completions in the engine's record order; and per callback, kind and core, accepted requests are in the engine or among these, as multisets of addresses. |
| `Sessions.ExactlyOnce` | pyramulator/dram.py:105-171 | With no event left, every accepted request has called its own callback exactly once, in record order, with its own address, kind and core; a read is told the times that the engine handed back with it, a write the cycle of its acceptance twice. |
| `Sessions.TimesAreTheEngines` | cpp/bindings.cpp:186-198 | At any point of any session: per callback, kind and core, the completions started, waiting and in the deque are, times included, those of the reads handed back so far and of the accepted writes. |
| `Sessions.EventsAreInPlace` | pyramulator/dram.py:217-227 | At any such point: a waiting completion is due now, at the completion priority; chain events have priority 0; and when k idle events have fired since the component was last busy, the pending one stands for min(2^k, 16) * `idle_batch_cycles` cycles. |
| `Telling.RunTells` | pyramulator/sim.py:172-180 | Over any run of any host code, the host is told of every callback that starts, with what the event carries, once and in order. |
| `Telling.LoggingIsTransparent` | pyramulator/sim.py:172-180 | The log that the row above speaks of changes nothing else in the run. |
| `Reports.RestStarts` | pyramulator/dram.py:296-299 | A step that ends a busy stretch with idle refresh on leaves one idle event, exactly `idle_batch_cycles` cycles from now, and no busy event. |
| `Reports.NapsCount` | pyramulator/dram.py:287-317 | Every idle event adds one to the idle events in a row, every busy event sets them to none, and nothing else changes them. |
| `Reports.IdleEventRuns` | pyramulator/dram.py:301-317 | The idle event that fires after k others in a row runs min(2^k, 16) * `idle_batch_cycles` engine cycles. |
| `Dram.Dram.constructor` | pyramulator/dram.py:60-79 | The new object is the new device of the value layer, with the idle chain begun if idle refresh is on. |
| `Dram.Dram.Collector` | pyramulator/dram.py:206-215 | The collector returned belongs to the callback asked for, for any interleaving of callbacks, None included: the memo is transparent. |
| `Dram.Dram.DeliverCompleted` | pyramulator/dram.py:217-227 | Drains the deque into zero-delay events in order, dropping entries without callback. |
| `Dram.Dram.StartTicking` | pyramulator/dram.py:235-244 | Starts the busy chain, cancelling the idle event; the error for a missing event id is unreachable. |
| `Dram.Dram.MaxTickBurst` | pyramulator/dram.py:246-265 | Computes the maximal legal burst from the heap and the active horizon, and changes neither. |
| `Dram.Dram.CatchUp` | pyramulator/dram.py:277-278 | The jump after a burst is always accepted by `_advance_to`. |
| `Dram.Dram.Tick` | pyramulator/dram.py:267-285 | The tick body on heap, deque and engine is the tick body of the value layer. |
| `Dram.Dram.IdleTick` | pyramulator/dram.py:301-317 | The idle body likewise, with its hand-over and its back-off. |
| `Dram.Dram.Read` | pyramulator/dram.py:105-121 | Raises exactly for a core out of range; the new state and the reply are those of the value layer; so for the three members below. |
| `Dram.Dram.Write` | pyramulator/dram.py:123-140 | An accepted write completes at once, at the current DRAM cycle, and the busy chain runs. |
| `Dram.Dram.Reads` | pyramulator/dram.py:142-155 | The accept flags of one engine call; any accepted request starts the clock. |
| `Dram.Dram.Writes` | pyramulator/dram.py:157-171 | The same with the completions of the accepted ones delivered in order. |
| `Plant.Build` | pyramulator/dram.py:49-79 | New objects, wired together, satisfy what the runs below need and stand for the new world. |
| `Plant.Plant.Run` | pyramulator/sim.py:191-217 | `run(until)` on heap, component and host is the run of `World`, step for step, and the caller's horizon is back in place afterwards, also after an exception. |
| `Plant.Plant.Cancel` | pyramulator/sim.py:138-145 | Cancelling by event id removes exactly the event of that handle from the list of live events, and the reply says whether it was there. |
| `Plant.Plant.Flush` | pyramulator/dram.py:173-188 | The loop is that flush, also under the horizon of an active `run`; it never reports a stalled simulator; a normal return means an empty DRAM after fewer than `max_events` events and returns how many fired; and the error for too many comes after exactly `max_events` of them (after one for a bound below one). |
| `Witnesses.HandOverHappens` | pyramulator/dram.py:304-310 | A new component on an engine with refreshes whose first idle event hands over. |
| `Simulator.Simulator.PushEvent` | pyramulator/sim.py:123-136 | Pushing on the heap is scheduling on the sorted list, under the next id. |
| `Simulator.Simulator.Schedule` | pyramulator/sim.py:95-109 | Raises exactly for a negative delay, and then changes nothing. |
| `Simulator.Simulator.At` | pyramulator/sim.py:111-121 | Raises exactly for a time in the past, and then changes nothing. |
| `Simulator.Simulator.Cancel` | pyramulator/sim.py:138-145 | True exactly for the id of a live event, which leaves the list; nothing else does. |
| `Simulator.Simulator.Peek` | pyramulator/sim.py:166-170 | Drops cancelled entries only, and shows the least live event by time, priority and id. |
| `Simulator.Simulator.AdvanceTo` | pyramulator/sim.py:147-162 | Moves `now` exactly when the jump is not into the past, over a live event or past the horizon. |
| `Simulator.Simulator.Begin` | pyramulator/sim.py:172-189 | Takes the head of the list and moves `now` to its time before its callback runs. |
| `Kernel.PlaceIsInsert` | pyramulator/sim.py:123-136 | Inserting by (time, priority, seq) with a new seq is inserting behind every event of the same time and priority. |
| `Kernel.MarkIsDrop` | pyramulator/sim.py:138-145 | Setting the flag of one heap entry is removing it from the list of live events. |
| `Kernel.SoundMeans` | pyramulator/sim.py:53-145 | In every sound state `_live` counts the entries not cancelled, `_by_id` knows exactly the heap's ids, no entry lies before `now`, and scheduled = live + cancelled + fired. |
| `Heapq.Push` | pyramulator/sim.py:132 | Keeps the heap order and adds exactly the new entry. |
| `Heapq.Pop` | pyramulator/sim.py:168 | Removes exactly the first entry and keeps the heap order. |
| `Heapq.RootIsLeast` | pyramulator/sim.py:20-35 | Index 0 of a heap has the least key. |
| `Interpreter.Interpreter.Execute` | pyramulator/sim.py:138-217 | Any program that schedules, cancels, steps, runs, nests and raises does the same on the heap as on the list, where the rows of `Nesting` and `NestedRuns` hold, and leaves no horizon behind. |
| `Nesting.StepsKeep` | pyramulator/sim.py:182-217 | At any nesting depth and after any exception: the horizon is that of the innermost active `run`, the list is in key order and not in the past, and every id given out is live, cancelled or fired, exactly one of them. |
| `Nesting.EndRestoresHorizon` | pyramulator/sim.py:202-216 | A program that has ended, however it nested or raised, leaves no horizon behind. |
| `Nesting.HeadIsLeast` | pyramulator/sim.py:182-189 | The event that fires is the least live one by time, priority and id. |
| `Nesting.EventsBalance` | pyramulator/sim.py:123-180 | Events scheduled = live + cancelled in time + fired, for every program. |
| `NestedRuns.RunAnswers` | pyramulator/sim.py:191-217 | A `run(until, max_events)` at any depth that answers, whatever its callbacks did meanwhile: the queue is empty, or its head lies after `until`, or the answer has reached `max_events`; every event that this call took was due, and was taken while fewer than `max_events` had been processed; no frame below fired any; the answer is the number of events fired during the call, less those whose callback raised; and the caller's horizon is back. |
| `NestedRuns.StepsAccount` | pyramulator/sim.py:172-180 | In every reachable state, events fired = processed + raised + under way on the stack. |
| `NestedRuns.StepTakesHead` | pyramulator/sim.py:182-189 | `step` answers False exactly for an empty queue, and otherwise takes the head and moves to its time. |
| `NestedRuns.ReturnCounts` | pyramulator/sim.py:172-180 | A callback that returns ends its event, which is then counted; `step` answers True. |
| `NestedRuns.RaiseReachesCaller` | pyramulator/sim.py:200-216 | An exception that leaves a callback reaches the caller of the `step` or `run` that fired it, which does not count the event; the caller's horizon is back. |
| `Agenda.DeltaPlace` | pyramulator/sim.py:95-136 | Where a zero-delay event runs among the events of the current time: behind exactly those of no higher priority value. |
| `Agenda.DeltaMayRunFirst` | README.md:97-98 | A zero-delay event that runs before one queued earlier. |
| `Pipes.StageInvariant` | pyramulator/hardware.py:194-223 | Over every sequence of puts, events and waits, with any consumer that may put back: occupancy = deliveries on their way + stalled items <= slots, one retry event exactly when something is stalled, and the order and conservation facts that the next rows read off. |
| `Pipes.PipeConserves` | pyramulator/hardware.py:194-223 | Items put = items on their way + stalled + taken, as multisets; without a stall the output is the input, in order. |
| `Pipes.AttemptsFollowPuts` | pyramulator/hardware.py:194-212 | The i-th first delivery attempt is for the i-th put, exactly one latency later. |
| `PipeRetries.RetriesEveryCycle` | pyramulator/hardware.py:204-223 | A stage that stalls, or that tried again and is still stalled, tries again exactly one cycle later; meanwhile the retry stays where it is; a stage that is not stalled has none. |
| `PipeRetries.StalledTriesSoon` | pyramulator/hardware.py:204-223 | Over every sequence of moves, a stalled stage has one retry to come, at most one cycle from now. |
| `Pipes.PipeIntoFifo` | pyramulator/hardware.py:113-125 | With a bounded FIFO as consumer: puts = on their way + stalled + FIFO level + gets, as multisets. |
| `Pipes.OrderBreaksByOvertaking` | pyramulator/hardware.py:204-223 | A step loses the put order exactly when an item is taken on its first attempt over different stalled ones. |
| `Pipes.RunsBreakByOvertaking` | pyramulator/hardware.py:204-223 | Every state of a run is in put order if and only if no step of the run overtakes. |
| `Pipes.OvertakingHappens` | pyramulator/hardware.py:204-212 | A run of four steps in which the second item is taken before the first. |
| `Hardware.FIFO.Put` | pyramulator/hardware.py:113-118 | Refused exactly when full, otherwise appended. |
| `Hardware.FIFO.Get` | pyramulator/hardware.py:123-125 | Takes the oldest item; raises exactly when empty. |
| `Hardware.Pipe.Put` | pyramulator/hardware.py:194-202 | Refused exactly when all slots are taken, otherwise one delivery event after the latency. |
| `Hardware.Bench.Deliver` | pyramulator/hardware.py:204-212 | The delivery event with its consumer is that of module Pipes, also when the consumer puts into the same pipe. |
| `Hardware.Bench.Retry` | pyramulator/hardware.py:214-223 | The retry loop likewise. |
| `Hardware.Bench.Fire` | pyramulator/hardware.py:204-223 | One event of the simulator object is one `Fire` of module Pipes. |
| `Hardware.Bench.Wait` | pyramulator/sim.py:147-162 | The clock of the object moves exactly when no event would be skipped, which is an `Env` move of module Pipes. |
| `CopyInvariant.StepKeepsInv` | examples/pipe_fifo_dram.py:84-172 | Every event keeps: each produced line is in exactly one place, occupancies match live events, every read in flight has a compute slot reserved, and every blocked stage has a live event that will wake it. |
| `CopyInvariant.ReservationHolds` | examples/pipe_fifo_dram.py:118-158 | In every reachable state reads in flight + compute occupancy + held completions <= compute slots, nothing is held and no compute stall is counted. |
| `CopyInvariant.QuietMeansDone` | examples/pipe_fifo_dram.py:84-172 | With no live event, all lines are produced, the accepted writes are 0x100000 + i * 64 for each line i, once each and nothing else, both pipes, the FIFO and the hold queue are empty, and nothing is pending. |
| `CopyReads.CopyCompletes` | CHANGELOG.md:43-52 | `run` either has an event left, or has read each address i * 64 exactly once and written each address 0x100000 + i * 64 exactly once, for the lines i, and nothing else: no lost refill, no dropped store. |
| `CopyReads.EachLineIsRead` | examples/pipe_fifo_dram.py:92-149 | With nothing left in the issue path, the reads accepted are the produced lines, once each. |
| `CopyReads.StepKeepsPlaced` | examples/pipe_fifo_dram.py:92-158 | Every event keeps: a produced address is on its way to the FIFO, stalled before it, in it or accepted as a read, in one place only, and no other address is anywhere. |
| `CopyReads.SourceIsKept` | examples/pipe_fifo_dram.py:31-33 | No store falls into the source region when the lines fit below 0x100000. |
| `CopyReads.FillGoesOn` | examples/pipe_fifo_dram.py:92-97 | Filling stops only at the end of the stream or with the issue pipe full. |
| `CopyReads.IssueReadsGoesOn` | examples/pipe_fifo_dram.py:129-149 | Reading stops only with the FIFO empty, the read window or the compute slots used up, or a read refused. |
| `CopyMachine.CopyEngine.constructor` | examples/pipe_fifo_dram.py:39-82 | The pipes have the latencies asked for, in cycles of 1000, with their slots; the FIFO has its depth. |
| `CopyMachine.CopyEngine.Run` | examples/pipe_fifo_dram.py:84-87 | The same for the object on its pipes, FIFO and DRAM, whatever traffic that DRAM has served before. |
| `CopyMachine.CopyEngine.FillIssue` | examples/pipe_fifo_dram.py:92-97 | The loop is the fill of the value layer. |
| `CopyMachine.CopyEngine.OnIssue` | examples/pipe_fifo_dram.py:99-116 | Stalls when the FIFO is full; otherwise enqueues, pumps, and schedules the refill. |
| `CopyMachine.CopyEngine.PumpReads` | examples/pipe_fifo_dram.py:129-149 | Drains held completions, then issues reads while window, slots and DRAM allow. |
| `CopyMachine.CopyEngine.OnLoad` | examples/pipe_fifo_dram.py:151-158 | A loaded line enters the compute pipe or is held, and reads go on. |
| `CopyMachine.CopyEngine.TryStore` | examples/pipe_fifo_dram.py:160-166 | Accepts a line exactly when the DRAM accepts its write. |
| `CopyMachine.CopyEngine.RetryCompute` | pyramulator/hardware.py:214-223 | The retry loop of the compute pipe with its consumer. |
| `Drive.DriveEnds` | cpp/bindings.cpp:218-269 | A drive terminates, whatever earlier drives have left in the engine; the window never exceeds the queue depth; cycles stay within a non-negative budget; requests in the engine = left over + issued - completed; and unless the budget is used up all are issued, at most as many remain in the engine as were left over, and with nothing left over all have completed. |
| `DriveReplay.DriveIsScheduled` | cpp/bindings.cpp:241-268 | A drive is a list of sends and ticks, replayed from the entry state: the i-th accepted send is the i-th address; sends happen only at cycles that are multiples of `batch`, in order, while there is room and none was refused in that round; the engine ticks at such a cycle only when the window is full or a send was refused, and after the last request only while some are not completed; cycles and issued requests are the numbers of ticks and of accepted sends. |
| `DriveReplay.DriveTells` | cpp/bindings.cpp:229-239 | Every callback is told exactly what the engine handed back for it, times included and in order; under every closure, requests found in the engine + sent = still in the engine + handed back. |
| `DriveReplay.ToldOncePerAddress` | cpp/bindings.cpp:218-269 | Addresses told to the callback of a drive + its requests still in the engine = accepted addresses + requests of an earlier drive with that callback; with nothing left over and the budget not used up, the callback is told exactly once for each address. |
| `DriveReplay.SilentWithoutCallback` | cpp/bindings.cpp:237-239 | A drive without a callback records nothing of its own. |
| `Drive.FillKeepsWindow` | cpp/bindings.cpp:245-251 | The window bound holds while the queue is filled. |
| `Drive.CycleKeepsWindow` | cpp/bindings.cpp:256-267 | And through every cycle: a completion leaves the window when it is served. |
| `Drive.DriveRangeIsDrive` | cpp/bindings.cpp:291-305 | `drive_range` is `drive` on start, start + stride, and so on. |
| `Witnesses.LeftoverEndsDrive` | cpp/bindings.cpp:264-267 | With any positive number of leftovers, a drive that returns within its budget and leaves its only request in the engine. |
| `CoreEngine.PyMemorySystem.DriveLoop` | cpp/bindings.cpp:219-269 | The nested loops compute that drive, to which the rows above apply; non-positive depth or batch is rejected before anything happens. |
| `CoreEngine.PyMemorySystem.Run` | cpp/bindings.cpp:361-365 | n cycles and their completions in one batch. |
| `CoreEngine.PyMemorySystem.RunUntilIdle` | cpp/bindings.cpp:367-374 | Stops at the first cycle with nothing pending, or at the bound. |
| `CoreEngine.PyMemorySystem.RunUntilProgress` | cpp/bindings.cpp:380-389 | Computes `UntilProgress`, with the deque drained; completions already recorded stop it after one cycle, and a bound below 1 before any. |
| `CoreEngine.PyMemorySystem.SendBatch` | cpp/bindings.cpp:311-325 | One engine send per address, in order, with its accept flag. |
| `CoreEngine.PyMemorySystem.SendRange` | cpp/bindings.cpp:329-344 | The same on a running sum of addresses. |
| `CoreEngine.EachIsSent` | cpp/bindings.cpp:311-325 | The i-th flag of a batch is the engine's answer to the i-th request alone, after those before it, and each request leaves the engine that its send leaves. |
| `CoreEngine.PyMemorySystem.DrainCompleted` | cpp/bindings.cpp:346-357 | Hands out everything recorded, in order, and leaves nothing. |
| `CoreEngine.RunningSumIsProduct` | cpp/bindings.cpp:333-342 | The running sum is start + i * stride, which Python recomputes. |
| `CoreEngine.IdleCyclesIsFirst` | cpp/bindings.cpp:367-374 | The number of cycles is the least one that leaves nothing pending, or the bound. |
| `Engine.UntilProgressIsFirst` | cpp/bindings.cpp:380-389 | A burst is plain ticking, stopped at the first cycle that records a completion or leaves nothing pending, or at the bound. |
| `Engine.TickNSplit` | cpp/bindings.cpp:361-365 | m cycles and then n are m + n, completions concatenated. |
| `MemorySystem.MemorySystem.ReadCb` | pyramulator/_engine.py:263-287 | The wrapper belongs to the callback asked for, and is the last one again for the same callback. |
| `MemorySystem.MemorySystem.Dispatch` | pyramulator/_engine.py:329-343 | Computes `Dispatched` on the user's state. |
| `MemorySystem.DispatchReachesAll` | pyramulator/_engine.py:329-343 | Every callback of the batch runs whatever others raise, and the exception that comes out is the first one. |
| `MemorySystem.WritesEndAtRaise` | pyramulator/_engine.py:447-450 | Of the accepted writes exactly a prefix is told, one after the other, ending with the first whose callback raises; all are told if and only if no callback but the last one raises. |
| `Witnesses.WriteGoesUntold` | pyramulator/_engine.py:430-455 | Two writes accepted by `send_batch`, the first callback raises, the second is never told. |
| `MemorySystem.RaisesAlike` | pyramulator/_engine.py:314-354 | `run(n)` and n ticks raise on the same inputs and the same exception, and agree on everything when they do not raise. |
| `MemorySystem.TicksFallShort` | pyramulator/_engine.py:314-319 | Ticks that raise stop at a cycle i below n, with the engine one cycle further, i cycles counted, and the callbacks of those cycles run. |
| `MemorySystem.RunIsTicks` | pyramulator/_engine.py:314-354 | `run(n)` leaves what n ticks leave if and only if no callback of its batch raises. |
| `Witnesses.RaisingRunIsNotTicks` | pyramulator/_engine.py:314-354 | Two cycles on which `run` and ticking leave different engines, counts and user states. |
| `MemorySystem.MemorySystem.Tick` | pyramulator/_engine.py:314-319 | One cycle and its callbacks; a cycle whose callback raised is not counted. |
| `MemorySystem.MemorySystem.Run` | pyramulator/_engine.py:345-354 | The cycles are counted before the callbacks run. |
| `MemorySystem.MemorySystem.TickUntilProgress` | pyramulator/_engine.py:356-368 | Rejects a bound below 1; otherwise one burst. |
| `MemorySystem.MemorySystem.Send` | pyramulator/_engine.py:386-410 | A core below 0 or from the number of cores on changes nothing; a read's callback goes to the engine, an accepted write's runs at once. |
| `MemorySystem.MemorySystem.SendBatch` | pyramulator/_engine.py:430-455 | The accept flags of single sends, and the callbacks of accepted writes until one raises. |
| `MemorySystem.MemorySystem.SendRange` | pyramulator/_engine.py:481-511 | The same for start + i * stride, in the engine and in the write completions. |
| `MemorySystem.MemorySystem.Drive` | pyramulator/_engine.py:546-566 | The drive, its cycles counted, its completions in one batch. |
| `MemorySystem.MemorySystem.DriveRange` | pyramulator/_engine.py:568-595 | Does what a drive over the listed addresses would do. |
| `SpmmResult.SpmmIsProduct` | examples/spmm_hbm.py:57-104 | For every completion order and every pattern of refusals: at most 16 reads in flight; an exception only when some block does not fit; with no event left, nothing is pending and the accumulator is A times B. |
| `SpmmTraffic.EachBlockIsReadOnce` | examples/spmm_hbm.py:53-97 | In every reachable state the requests accepted are reads of the first jobs of the list, in order, the job for row j of B and column t at 0x100000 + (j * k + t) * 4; a run that ends without an exception has read them all. |
| `SpmmTraffic.IssueGoesOn` | examples/spmm_hbm.py:83-97 | Issuing stops only with nothing left to issue, 16 reads in flight, or a read refused. |
| `SpmmResult.AlignedIffAllFit` | examples/spmm_hbm.py:99-104 | All blocks fit exactly when the width is a multiple of 16 or all nonzeros are in the last column. |
| `SpmmResult.SumIgnoresOrder` | examples/spmm_hbm.py:99-104 | What finished jobs add up to does not depend on their order. |
| `SpmmResult.RowDotIsProduct` | examples/spmm_hbm.py:57-81 | Summing over stored nonzeros is summing over all columns of A, duplicates included. |
| `Witnesses.NarrowOperandRaises` | examples/spmm_hbm.py:99-104 | A run that raises, for a width of 1. |
| `SpmmMachine.SpMMAccelerator.Run` | examples/spmm_hbm.py:57-81 | The same result and window of 16 for the object and its accumulator array, also when the accelerator and the DRAM were used before. |
| `SpmmMachine.SpMMAccelerator.BuildJobs` | examples/spmm_hbm.py:68-73 | The three loops list one job per nonzero and block, in order. |
| `SpmmMachine.SpMMAccelerator.Issue` | examples/spmm_hbm.py:83-97 | Fills the window in order until it is full, the list ends or the DRAM refuses. |
| `SpmmMachine.SpMMAccelerator.OnComplete` | examples/spmm_hbm.py:99-104 | Adds the block in place, or raises, and issues on. |
| `SpmmMachine.AddInPlace` | examples/spmm_hbm.py:103 | The slice of one row grows by v times the block; all else stays. |

## Left out

- Ramulator itself, JEDEC timing and its statistics: foreign code, opaque here.
- Termination of `run_until_idle` and of callbacks: the engine may never serve a request and host code may loop, so
  runs take a bound on their steps, and results speak of runs that end or of states without events.
- Handlers that call `step` or `run` with a DRAM present: covered for the kernel alone, in `Nesting` and `Interpreter`.
  `Plant.Plant.Flush` may be called while a `run` is active, but the host machine of `World` does not call it.
- `max_events` and the processed count with a DRAM present: bursts change how many events a run takes.
- `event_counts` and component names: counters that nothing reads back.
- The stall counters and the high-water mark of the copy engine: carried along as the source does; only that no compute
  stall is counted is proved of them.
- `Dram.Dram.constructor`: requires that the simulator carries no idle event of its own kind, because the tags of one
  simulator object name one component; several components on one simulator are covered on values (`FleetRuns`).
- `CopyMachine.CopyEngine.Run`: requires that the simulator carries no event of others, whose handlers could do
  anything to the shared DRAM, and that `run` is called once.
- `SpmmMachine.SpMMAccelerator.Run`: likewise requires that the simulator carries no event of others.
- Event ids as numbers: host code of `World` holds handles; cancelling ids it never got is covered in `Nesting`.
- Callbacks as closures: they are names; two requests with equal callbacks and equal captured values count as one callback.
- Callbacks that call back into `MemorySystem` from its own dispatch: they change the user's state only.
- `Hardware.Pipe.Delivered`: states the part of a delivery after the consumer's answer, because a Dafny object cannot hold a
  method to call; `Hardware.Bench` puts the call back for any deterministic consumer.
- `FIFO.clear`: would discard items, so the conservation results exclude it.
- Widths of the C++ integers: addresses and cycle counts do not wrap here.
- Rounding in the SpMM accumulator: it adds exact reals.
- numpy broadcasting of a one-element block: blocks of B are never shorter than the accumulator's, so it cannot occur.
- Externally stepped drivers, such as pyramulator/benchmark.py:47-48: bursts change how far one step goes.
- `examples/accel_sim.py`: its window counter does not bound anything, because stores decrement what they never increment.
- Configuration, metrics, workloads, reports, logging and benchmarks: tables, floating point, randomness and output.
