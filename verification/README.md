# A verified model of luaprof

luaprof is a sampling profiler for Lua. This project models its concurrent, bounded and byte-level parts in Dafny and
proves what they promise: which memory a signal handler may touch, where every tick ends up, what a bounded profile says
about the allocations it saw, what a reader of the exported file gets back, and what the flame graph draws.

`dafny verify dfyconfig.toml` checks everything.

## The parts

**Target lifecycle (`Skynet*`, `Registry`).** `SkynetModel` is `src/skynet_host.c` as a transition system: one step is one
access to shared memory (but see below), any number of threads take steps in any order, a compare-and-swap may fail for no reason, and a
handler may interrupt its own thread between any two accesses. A state has the target slots with their lifecycle word, the
worker slots, and the program counters of both levels of every thread. Each slot's data is also kept per session (per token),
and the two are shown to agree.
`SkynetPins` proves reclamation safe, `SkynetSlots` the versioned worker slot, `SkynetSessions` isolation of sessions and
what becomes of a delivery, `SkynetLedger` the books of every session over whole runs, `SkynetResult` that they end up in the
result, `SkynetQuiesce` that a quiesce is a barrier, `SkynetDispatch` that a ring has one producer, and `SkynetOwner` that it has one consumer, on the same thread.
`Registry` is the registry under `host_lock` as a class, with its counters and the outcome of every start, quiesce, release
and rollback.

**Thread backend (`Thread*`).** `ThreadModel` is `src/thread_timer.c` driven by `src/lua_bridge.c`: publications, guards,
drains, starts and stops as single accesses, with deliveries possible between any two. `ThreadRing` relates the ring with
wrapping sequence numbers to an unbounded history, `ThreadConservation` keeps the ledger of deliveries over whole runs,
`ThreadLifetime` proves that no event names a dead coroutine, and `ThreadTimer` is the same code as a class whose methods
refine the model's steps and drain into a CPU profile.

**Bounded profiles (`Probing`, `Symbols`, `Chains`, `LiveMap`, `Sampler`, `MemoryTotals`, `MemoryProfile`, `ExactMode`,
`CpuProfile`).** Open addressing without deletion is proved once, for any hash function and any capacity, and used for
symbols, aggregates and the exporter's tables. `LiveMap` is the chained hash table with its free list inside the entries,
shown to be a finite map. `Sampler` has the arithmetic of the byte budget over reals. `MemoryProfile` and `CpuProfile` are
the profiles as classes; `ExactMode` replays any trace of the allocator into a memory profile that samples every byte and
compares its books with the blocks that are live.

**Exporter (`Wire`, `Buffers`, `Pprof*`, `Interning`, `Export*`).** `Wire` has the "Base 128 Varints" and "Length-Delimited
Records" sections of the Protocol Buffers Encoding guide as functions, with a reader that undoes the writer; `Pprof` and
`PprofProfile` do the same for the messages of `profile.proto`; `Buffers` and `PprofEncoder` are the writing code, in which
any growth may fail. `Interning` is the export model under construction; `ExportSamples`, `ExportProfile` and `ExportBytes`
go from symbols and samples to bytes that decode to their frames, values and labels. `ExportViews` reads those off a
`CpuProfile.Profile` or a `MemoryProfile.Profile` and shows that any profile is within the exporter's bounds; `ExportResult`
puts it all together: the decoded columns sum to the profile's counters, and the decoded comments tell them.

**Consumer (`Metadata`, `QualityLines`, `Flame*`).** `Metadata` has the comments the exporter prints and the parser of
`tools/pprof-flamegraph/quality.go`, and proves that one inverts the other. `FlameStack` and `FlameTree` build the mutable
prefix tree, `FlameOrder` and `FlameDraw` walk and draw it, and `FlameLayout` and `FlameGraph` prove the picture well formed.
`FlameProfile` goes from a decoded profile to the picture, and says what the picture of an exported profile shows.

## How to read the model

- Memory is sequentially consistent. Signal masks are ignored, so handlers interrupt at more points than in the program;
  nothing proved depends on a mask.
- Some steps of `SkynetModel` are more than one access. A scan of the targets made under `host_lock`: only the lock holder
  changes what it reads. The stores of a start's handle, token and main state, those that reset a slot's counters, and those
  that clear its handle and main state: the lock holder makes them, the slot is FREE or being reclaimed without readers, and
  others look at one of the words at a time and believe it only under a pin. An append to a ring and a removal from it: by
  `OneConsumerPerRing` and `RingIsOneThreads` a ring is used by the normal code of one thread and by the handler that
  interrupts it, which is the situation of `ThreadRing`, where every access is a step.
- Host calls may come in any order from any thread. Two groups of theorems need a host that keeps to rules
  (`SkynetModel.Permitted`): dispatch calls are paired, and a service is used by one thread at a time, whether to dispatch a
  message or to take events of its session. They are those of `SkynetDispatch` and `SkynetOwner`, about states that are
  `RuledReachable`. All other `Skynet*` theorems hold of every run. What they say of the contents of a ring describes the
  program only under the rules too, since the ring's own steps are sound only then.
- `Registry` has the sections under `host_lock` and the broadcast of a timer failure as units. Other calls may come between
  them; `Start` is a start that nothing interrupts.
- Tokens and slot versions do not wrap and 64-bit counters do not saturate, except where a property is about that: ring
  sequence numbers wrap at 2^64, and `clamp_i64` and `multiply_i64` saturate.
- Doubles are reals, and random numbers are arbitrary draws. Exact mode holds for block sizes a double represents exactly,
  that is up to 2^53.
- Hash functions are arbitrary. A table key is what the program compares: for a symbol the hash of its source text, not the
  text itself.
- An allocation of the exporter fails at will unless `ample` is set; the contracts say that nothing else makes it fail.
- A freed live map (`lp_memory_profile_finish`) is the flag `tracking` being off. A coroutine and a C function are numbers,
  and 0 is null.

## Where the code does less than one might expect

- The 16384 function cells could fill if only the number of aggregates and their depth bounded the frames: 2048 stacks of 64
  frames are 131072. They cannot fill because a profile has at most 4096 symbols and 2048 sampled C functions
  (`DepthAloneIsNotEnough`, `UniverseFits`, `BuildCpuSamples`).
- A field given twice never gets a value, but it is reported exactly when there is one version comment and it says 1;
  otherwise the whole metadata is unavailable (`DuplicatesNeverCount`; `DuplicateGoesUnreported` has such comments).
- A start that cannot set its timer sets the failure flag and counts a timer failure for every other target that is active
  at that moment (`Registry.Conclude`). So it leaves the other targets as they were exactly if none of them is active when
  the timer fails (`FailureSparesOthers`); if nothing comes in between, that is if none was active when it began
  (`FailedStartSparesOthers`). `FailureReachesEarlierStart` and `FailureReachesLaterStart` are two workers for which it does
  not: the other one's start was admitted before, or in between. The timer is set only on a worker whose timer does not have
  the rate already, so in the first case its dispatch began before the first start.
- A function whose `linedefined` is not positive decodes with start line 0, and its system name is its name
  (`FunctionRoundTrip`).
- What an aggregate has in use is the sum of its live entries only until the profile is finished, which frees the live map;
  the totals stay (`TotalsAreConserved`, `Profile.Finish`).
- `multiply_i64` and `clamp_i64` saturate, so exported values add up to samples and time as long as the products fit in 63
  bits (`MultiplySaturatesExactly`, `ExportCpuResult`, `ExportMemoryResult`).

## Model

| member | source | states |
|---|---|---|
| `SkynetModel.WordLayout` | src/skynet_host.c:122-187 | the lifecycle word packs a phase and a reader count: equal words mean equal fields, adding a reader or changing the phase on the word changes that field alone |
| `SkynetModel.ChosenExactly` | src/skynet_host.c:799-814 | a start picks the first slot that is free and has no reader, and picks none exactly when its handle already has a slot or there is no such slot |
| `SkynetPins.PinnedSlotsAreBacked` | src/skynet_host.c:143-195 | in every reachable state, a slot that any thread or handler has pinned has its event array, a token, a phase other than FREE and a positive reader count |
| `SkynetPins.FreeSlotsHaveNoReaders` | src/skynet_host.c:143-195 | a FREE slot has reader count zero and nobody holds a pin on it, however often its word repeated values |
| `SkynetPins.EventsFreedWhenUnread` | src/skynet_host.c:751-780 | an event array disappears in one kind of step only: in RECLAIMING, with no reader and no pin held (release and rollback) |
| `SkynetPins.PinFreezesIdentity` | src/skynet_host.c:223-234 | while a pin is held, no step of any thread changes the slot's token or frees its events, so the re-check of the token after pinning settles the session |
| `SkynetQuiesce.QuiesceIsABarrier` | src/skynet_host.c:894-948 | once a quiesce has returned for a token, over any further run the session's ring is only ever consumed; once empty it stays empty |
| `SkynetSessions.SlotsRefineSessions` | src/skynet_host.c:265-341 | across any reuse of slots, what an open or pinned slot stores is exactly what its current session has been charged |
| `SkynetSessions.ChargesStayInSession` | src/skynet_host.c:223-246 | an access made under a pin changes the session whose token was read from the worker slot, and no other session or slot |
| `SkynetSessions.ChargesBalance` | src/skynet_host.c:296-341 | one access under a pin neither loses nor invents a delivery: queued events plus the four loss counters grow by what is settled and shrink by what the owner takes |
| `SkynetSessions.TickIsJudgedOnce` | src/skynet_host.c:302-341 | as long as nobody else charges the session in between, a tick counts its overruns and then exactly one outcome, each under its exact condition: stale, profiler overhead, unstable, dropped, or queued |
| `SkynetLedger.DeliveriesAreConserved` | src/skynet_host.c:296-341 | over every run from the start and for every token, the deliveries ever settled for its session are those still queued plus its four loss counters plus all that was handed to its owner |
| `SkynetLedger.EachTickSettlesOnce` | src/skynet_host.c:265-341 | from the moment a handler has pinned a session for a delivery until it lets go, in any run and whatever other threads charge meanwhile, it settles exactly one delivery, with its last access |
| `SkynetResult.ResultAccountsForAll` | src/lua_bridge.c:89-106 | over every run and for every token, the deliveries settled for the session are the samples and aggregate overflows of the profile that records the events handed over, the losses handed over, and what is still in the session |
| `SkynetResult.DrainedSessionsAreInTheResult` | src/lua_bridge.c:326-337 | in a drained session no delivery is missing from the result |
| `SkynetResult.QuietSessionsGiveNoEvents` | src/skynet_host.c:894-948 | after a quiesce, once the ring was found empty no event is handed over any more |
| `SkynetSlots.HandlersAreFaithful` | src/skynet_host.c:265-291 | an accepted snapshot is exactly the last completed publication, never a mixture, and a tick in the odd window is charged to the publication before the one under way |
| `SkynetDispatch.TickerDispatches` | src/skynet_host.c:691-722 | under the host's rules, the worker whose handler accepted a tick is dispatching the handle that session was started for |
| `SkynetDispatch.OneProducerPerRing` | src/skynet_host.c:321-337 | under the host's rules, two handlers that fill the same ring are the same handler |
| `SkynetOwner.OneConsumerPerRing` | src/skynet_host.c:1017-1039 | under the host's rules, two threads that take an event from the same slot are the same thread |
| `SkynetOwner.RingIsOneThreads` | src/skynet_host.c:321-337 | and a handler that fills that ring interrupts that very thread |
| `Registry.Registry.constructor` | src/skynet_host.c:87-93 | the registry starts empty and ordered |
| `Registry.Registry.PickSlot` | src/skynet_host.c:799-814 | the scan of a start reports a handle in use exactly when a non-free slot has it, and otherwise finds the first free slot if there is one |
| `Registry.Registry.Admit` | src/skynet_host.c:793-867 | the critical section of a start: refused exactly for another frequency, a handle in use, no slot or no memory, leaving everything as it was; otherwise one slot becomes ACTIVE with the next token and nothing else changes |
| `Registry.Registry.Sync` | src/skynet_host.c:529-568 | a worker's timer is set exactly if it does not have the rate it should; if that fails, the flag is set and every active target has one failure more |
| `Registry.Registry.Conclude` | src/skynet_host.c:867-892 | the end of a start on any registry, whatever other calls came since its critical section: nothing changes if the timer is right, and otherwise every active target gains a failure and the start's slot is blanked if it is still its own |
| `Registry.Registry.Start` | src/skynet_host.c:782-892 | the whole outcome of a start that no other call interrupts, from its arguments, the registry, the rate of the worker's timer and whether it can be set |
| `Registry.FailureSparesOthers` | src/skynet_host.c:516-527 | a failed start leaves the other targets alone exactly if none of them is active when the timer fails |
| `Registry.FailedStartSparesOthers` | src/skynet_host.c:877-889 | so, without interruption, exactly if none was active when it began |
| `Registry.FailureReachesEarlierStart` | src/skynet_host.c:516-527 | a target started earlier gains a failure |
| `Registry.FailureReachesLaterStart` | src/skynet_host.c:867-889 | so does one started by another worker after the first start's critical section, although nothing was active when the first start began |
| `Registry.Registry.Rollback` | src/skynet_host.c:751-780 | a rolled back start blanks its own slot, counts it down, and clears the frequency with the last active slot; a slot that is no longer its own is left alone |
| `Registry.Registry.TimerFailure` | src/skynet_host.c:516-527 | a timer that cannot be set counts a failure for every active target, sets the flag, and keeps the registry ordered |
| `Registry.Registry.Quiesce` | src/skynet_host.c:894-924 | a quiesce finds an ACTIVE slot with its token or changes nothing; found, that slot alone becomes STOPPING and the counters follow |
| `Registry.Registry.Release` | src/skynet_host.c:950-979 | a release blanks the STOPPING slot with its token, or changes nothing |
| `Registry.StartKeepsOrder` | src/skynet_host.c:804-867 | starting a free slot at the shared frequency keeps the registry ordered: the count is that of ACTIVE slots, they share one frequency that is 0 exactly when there are none, and used slots have distinct handles and tokens |
| `Registry.StopKeepsOrder` | src/skynet_host.c:902-924 | so does stopping or rolling back an active one |
| `Registry.FreeKeepsOrder` | src/skynet_host.c:962-976 | and so does freeing a stopping one |
| `ThreadRing.WrapDistance` | src/thread_timer.c:138-150 | the difference of two wrapped sequence numbers is their true distance |
| `ThreadRing.FullExactly` | src/thread_timer.c:138-150 | the handler's test of the wrapped difference is the exact length of the queue, for any number of events ever queued |
| `ThreadConservation.TicksAreAccountedOnce` | src/lua_bridge.c:313-350 | over any run from start to the end of a stop: deliveries accepted plus deliveries discarded while disarming equal samples, aggregate overflows, dropped, unstable and profiler overhead of the result; overrun ticks are the sum of positive overruns; samples are the sum of the four state counters |
| `ThreadConservation.LedgerAlwaysBalances` | src/lua_bridge.c:46-79 | the same ledger holds at every single access in between, counting what is queued, in flight or in hand |
| `ThreadLifetime.NothingOutlivesItsCoroutine` | src/lua_bridge.c:174-193 | in every reachable state the queued events, the event being recorded and the published slot name the main state or a coroutine whose hand-back has not returned, with interrupts anywhere and guards nested to any depth |
| `ThreadLifetime.QueuedTicksAreFaithful` | src/thread_timer.c:110-151 | a delivery is queued only as the last completed publication and only outside every guard; inside one it counts as profiler overhead |
| `ThreadTimer.DeliverEnqueues` | src/thread_timer.c:138-156 | in the array with wrapped sequence numbers, a delivery that is accepted goes to the end of the held events and any other leaves them alone |
| `ThreadTimer.PopDequeues` | src/thread_timer.c:420-436 | taking an event yields the oldest held one and leaves the rest in order |
| `ThreadTimer.PublicationIsFiveStores` | src/thread_timer.c:286-301 | the five stores of the step model make the publication of the class |
| `ThreadTimer.FiveExchangesTakeAll` | src/thread_timer.c:454-481 | the five exchanges of the step model take all quality counters and leave zeros |
| `ThreadTimer.TickTimer.RecordOverrun` | src/thread_timer.c:77-84 | a positive overrun counts one event and its ticks, any other nothing |
| `ThreadTimer.TickTimer.SignalHandler` | src/thread_timer.c:86-156 | a delivery to an active timer has exactly the effect of the model's delivery step, and appends the published slot exactly when it is judged acceptable |
| `ThreadTimer.TickTimer.PublishState` | src/thread_timer.c:286-301 | a publication replaces the slot, advances the version by two and leaves the ring alone |
| `ThreadTimer.TickTimer.Next` | src/thread_timer.c:420-436 | the oldest held event is returned and removed, or none if the ring is empty |
| `ThreadTimer.TickTimer.TakeQuality` | src/thread_timer.c:454-481 | all quality counters are returned and cleared, the ring stays |
| `ThreadTimer.TickTimer.Disarm` | src/thread_timer.c:368-418 | deliveries found pending while disarming are counted as dropped, with their overruns, and the held events stay |
| `ThreadTimer.RecordCpuEvent` | src/lua_bridge.c:59-70 | an event with a valid state becomes one sample or one aggregate overflow; any other leaves the profile as it was |
| `ThreadTimer.DrainEvents` | src/lua_bridge.c:72-79 | a drain records every held event in order and empties the ring |
| `ThreadTimer.Drain` | src/lua_bridge.c:46-79 | a drain moves every held event and every quality counter into the profile and leaves none behind |
| `ThreadTimer.EachEventCountsOnce` | src/cpu_core.c:219-279 | a series of events with valid states adds exactly its length to samples plus aggregate overflows, and every sample to one state counter |
| `Probing.MissMeansAbsent` | src/memory_core.c:295-305 | a probe that ends at a free cell, or goes all the way round, proves that the key is nowhere in the table |
| `Probing.InsertKeepsProbed` | src/memory_core.c:307-316 | filling the cell a failed probe ended at keeps keys distinct and every entry reachable from its home |
| `Probing.WrapIsInvisible` | src/memory_core.c:296-297 | 64-bit overflow of hash plus probe does not change the cell of a power-of-two table |
| `Probing.Table.Locate` | src/memory_core.c:295-305 | the probe loop finds the key's cell, or the free cell to fill with proof of absence, or that the table is full without the key |
| `Probing.Table.Nth` | src/memory_core.c:586-597 | `aggregate_at` lists the used cells in index order, each exactly once |
| `Symbols.SlicesAreDisjoint` | src/memory_core.c:325-338 | two stored texts never share an arena byte, terminators included |
| `Symbols.CompactStacksAreFaithful` | src/memory_core.c:502-509 | as long as every frame got a symbol, compact stacks are equal exactly when their frames agree in key and line |
| `Symbols.SymbolTable.Keep` | src/memory_core.c:317-339 | a text is copied, truncated to its limit, behind the used part of the arena; when it does not fit the arena is closed for good; the overflow counter moves exactly so |
| `Symbols.SymbolTable.Intern` | src/memory_core.c:284-368 | an id is the cell of the frame's key plus one; 0 exactly when the table is full without it; a new symbol keeps the texts of the frame that introduced it, and no other cell changes |
| `Symbols.SymbolTable.Compress` | src/cpu_core.c:228-236 | interning a stack resolves each frame to the symbol of its key, and every id given before keeps its key and its texts |
| `Chains.MoveKeepsPartition` | src/memory_core.c:115-184 | moving an entry between lists leaves every entry on exactly one list |
| `Chains.MoveKeepsLinks` | src/memory_core.c:115-136 | unlinking an entry and pushing it on another list makes heads and links spell the moved lists, acyclic as before |
| `LiveMap.LiveTable.constructor` | src/memory_core.c:377-421 | a new table has every entry on the free list and stands for the empty map |
| `LiveMap.LiveTable.Search` | src/memory_core.c:115-127 | a walk of the pointer's bucket finds its entry and predecessor exactly when the map has it |
| `LiveMap.LiveTable.Remove` | src/memory_core.c:115-136 | removal deletes the pointer from the finite map and returns what it held, or changes nothing |
| `LiveMap.LiveTable.Add` | src/memory_core.c:138-184 | an addition updates the finite map; it overflows exactly when the map is full and lacks the pointer, and null is ignored |
| `Sampler.GeometricInterval` | src/memory_core.c:205-221 | a drawn interval is 1 if every byte counts, and otherwise the k with q^k < u <= q^(k-1), where q is the chance that a byte is passed over and u the draw, cut off at the largest 64-bit number |
| `Sampler.IncludedWithProbability` | src/memory_core.c:223-238 | a block holds the end of the interval exactly for the draws above one minus the stated probability |
| `Sampler.ProbabilityIsGeometricSum` | src/memory_core.c:223-238 | the inclusion probability is the sum of the geometric series up to the block's size |
| `Sampler.SpaceWeightBounds` | src/memory_core.c:240-259 | a space weight is at least the block and at least the mean interval, within one of size over probability, and at the 64-bit limit otherwise |
| `Sampler.ExactWeights` | src/memory_core.c:462-486 | at one byte per sample weights are the size and one object |
| `Sampler.SelectionFollowsTheByteSum` | src/memory_core.c:462-486 | over any sequence of allocations, selected are exactly those whose bytes reach the next drawn point, and the budget stays at least 1 |
| `MemoryTotals.EntryIsCharged` | src/memory_core.c:98-113 | an entry that leaves the live map weighs no more than its aggregate has in use, so the subtraction of its weight never goes below zero |
| `MemoryProfile.Profile.SubtractWeight` | src/memory_core.c:98-113 | an entry's weight leaves the totals and its aggregate |
| `MemoryProfile.Profile.AddLive` | src/memory_core.c:138-184 | a live block replaces an older one at its address and is charged to its aggregate and the totals, or counts one live-map overflow |
| `MemoryProfile.Profile.RemoveLive` | src/memory_core.c:115-136 | a freed block leaves the ledger with its weights |
| `MemoryProfile.Profile.AllocationEvent` | src/memory_core.c:449-460 | a free, and a resize that succeeds, end the tracked block; anything else changes nothing |
| `MemoryProfile.Profile.ShouldSample` | src/memory_core.c:462-486 | selection, next budget and both weights are those of the sampler, for every draw |
| `MemoryProfile.Profile.Record` | src/memory_core.c:488-561 | an accepted call adds its weights to the aggregate of its stack and the live block to the ledger, counts a live-map overflow exactly if that block finds the map full, and a truncation exactly for a cut stack; or it is one aggregate overflow of a full table; a call with nothing to count changes nothing |
| `MemoryProfile.Profile.SampleAt` | src/memory_core.c:599-617 | samples are read out in index order, each used aggregate once |
| `MemoryProfile.Profile.Finish` | src/memory_core.c:436-447 | finishing drops the live map and keeps the totals |
| `MemoryProfile.TotalsAreConserved` | src/memory_core.c:586-597 | in every state of a profile each of the six totals is the sum over the aggregates as read out, each aggregate's in-use is the sum of its live entries and at most its alloc, and samples plus overflows are the accepted calls |
| `ExactMode.MemoryBridge.BeginWork` | src/lua_bridge.c:129-140 | entering profiler work nests, and the first entry starts the drain of CPU events if there are any |
| `ExactMode.MemoryBridge.EndWork` | src/lua_bridge.c:142-152 | leaving it unnests, and the last exit ends the drain; at depth 0 it does nothing |
| `ExactMode.MemoryBridge.Reconcile` | src/runtime.c:245-277 | outside guards an event is counted as what it is, ends its old block and, at one byte per sample, enters the new one with its exact size or counts one live-map overflow; tracking stays as it was |
| `ExactMode.MemoryBridge.Allocated` | src/lua_bridge.c:212-240 | the allocation hook has the effect of one step of the trace model, inside or outside guards, and keeps exact mode going; an aggregate overflow happens only when the table is full, and a live-map overflow exactly when the model has one |
| `ExactMode.MemoryBridge.Replay` | src/lua_bridge.c:129-152 | over any well-formed trace, unless a table overflows on the way, the profile agrees with the allocator at the end if it did at the beginning |
| `ExactMode.ProfileExactly` | src/runtime.c:245-291 | a new profile at one byte per sample, after any well-formed trace of allocations, resizes, frees, failures and guards, whatever stacks and draws come with it, and after it is finished: if both overflow counters are zero, its in-use space and objects are exactly the blocks live at the end whose last successful (re)allocation was outside a guard, and its alloc space and objects exactly what was handed out outside guards |
| `ExactMode.ExactModeAgreesWithTheAllocator` | src/runtime.c:245-291 | the same for the trace model alone, in which nothing overflows |
| `CpuProfile.Profile.Record` | src/cpu_core.c:219-279 | a sample of a valid state is counted in the aggregate of its state, function and stack, or overflows a full table; an invalid state changes nothing |
| `CpuProfile.Profile.AddQuality` | src/cpu_core.c:281-298 | quality counters are added field by field |
| `CpuProfile.Profile.SampleAt` | src/cpu_core.c:340-352 | samples are read out in index order, each used aggregate once |
| `CpuProfile.SamplesAreConserved` | src/cpu_core.c:219-279 | in every state of a profile the sample count is the sum over the aggregates as read out and the sum of the four state counters |
| `Wire.VarintLength` | src/pprof_exporter.c:281-294 | a 64-bit value takes at most ten bytes |
| `Wire.VarintRoundTrip` | tests/unit/pprof_exporter_test.c:74-107 | reading undoes writing for every 64-bit value, in front of any bytes |
| `Wire.MessageRoundTrip` | src/pprof_exporter.c:296-319 | decoding undoes encoding for any fields in any order |
| `Buffers.EncodeVarint` | src/pprof_exporter.c:281-294 | the loop writes the varint of every 64-bit value within its ten bytes |
| `Buffers.Buffer.Grow` | src/pprof_exporter.c:228-250 | growing keeps the content and gives the wanted room, or fails, and only for lack of memory or an absurd size |
| `Buffers.Buffer.Reserve` | src/pprof_exporter.c:252-267 | a failure sticks and leaves the content alone |
| `Buffers.Buffer.Append` | src/pprof_exporter.c:269-279 | bytes are appended, or the buffer has failed and is unchanged |
| `Buffers.Buffer.FieldVarint` | src/pprof_exporter.c:301-305 | a number field is appended in wire form unless memory ran out |
| `Buffers.Buffer.FieldBytes` | src/pprof_exporter.c:307-313 | a length-delimited field is appended in wire form unless memory ran out |
| `Buffers.Buffer.FieldMessage` | src/pprof_exporter.c:315-319 | a nested message is appended as such a field |
| `Pprof.PackedRoundTrip` | src/pprof_exporter.c:973-993 | packed numbers unpack to the same numbers |
| `Pprof.SampleRoundTrip` | src/pprof_exporter.c:973-993 | a sample message reads back with its locations and signed values |
| `Pprof.MappingRoundTrip` | src/pprof_exporter.c:1020-1048 | a mapping message reads back, including the fields left out when zero |
| `Pprof.LocationRoundTrip` | src/pprof_exporter.c:995-1018 | a location message reads back with its mapping, address and one line |
| `Pprof.FunctionRoundTrip` | src/pprof_exporter.c:1050-1066 | a function message reads back; its system name is its name, and a start line that is not positive reads as 0 |
| `Pprof.ValueTypeRoundTrip` | src/pprof_exporter.c:960-971 | a value type reads back |
| `PprofProfile.ProfileRoundTrip` | src/pprof_exporter.c:1068-1107 | a reader of the whole message gets back exactly the samples, locations, mappings, functions, strings, period, comments and default type of the model |
| `PprofEncoder.EmitValueType` | src/pprof_exporter.c:960-971 | the buffer holds one more value type, unless memory ran out on the way |
| `PprofEncoder.EmitSample` | src/pprof_exporter.c:973-993 | the buffer holds one more sample, unless memory ran out on the way |
| `PprofEncoder.EmitMapping` | src/pprof_exporter.c:1020-1048 | the buffer holds one more mapping, unless memory ran out on the way |
| `PprofEncoder.EmitLocation` | src/pprof_exporter.c:995-1018 | the buffer holds one more location, unless memory ran out on the way |
| `PprofEncoder.EmitFunction` | src/pprof_exporter.c:1050-1066 | the buffer holds one more function, unless memory ran out on the way |
| `PprofEncoder.FindUnit` | src/pprof_exporter.c:1072-1080 | a unit is given by the first string that compares equal, if any |
| `PprofEncoder.EncodeProfile` | src/pprof_exporter.c:1068-1107 | with a failure possible at any growth: either bytes that decode to exactly the model, or false, and false only if a unit has no string or memory ran out |
| `Interning.LocationsAreFrames` | src/pprof_exporter.c:537-636 | two frames have the same location exactly if they are at the same line of the same function |
| `Interning.RoomForKey` | src/pprof_exporter.c:537-585 | a table as large as the set of possible keys never lacks a cell for a new one |
| `Interning.Exporter.AddString` | src/pprof_exporter.c:337-357 | a string gets the next index, or memory ran out and nothing changes |
| `Interning.Exporter.InternMapping` | src/pprof_exporter.c:364-401 | a known mapping gains flags and nothing else, a new one gets the next id; it fails only for lack of memory |
| `Interning.Exporter.InternFunction` | src/pprof_exporter.c:537-585 | a frame gets the function of its key, a new key the next id with the name and file `format_function` gives; it fails only for lack of memory, or exactly when the table is full and the key is new |
| `Interning.Exporter.InternLocation` | src/pprof_exporter.c:594-636 | a frame gets the location of its function and line; failures are exactly as for functions and for a full location table |
| `Interning.Exporter.InternStack` | src/pprof_exporter.c:697-702 | all frames of a stack get their locations in order; while the possible keys fit the function table it fails only for lack of memory |
| `Interning.Exporter.AppendSample` | src/pprof_exporter.c:686-707 | a sample with its values and the locations of its frames is appended, or memory ran out |
| `Interning.SourcedMore` | src/pprof_exporter.c:537-585 | however many frames are interned, each function stays made for the first of them with its key |
| `ExportSamples.MultiplySaturatesExactly` | src/pprof_exporter.c:643-649 | the product saturates at INT64_MAX exactly where the true product exceeds it |
| `ExportSamples.FindLeaf` | src/pprof_exporter.c:731-749 | the captured frames above the sampled C function are those up to and with its first occurrence, none if it does not occur |
| `ExportSamples.BuildCpuStack` | src/pprof_exporter.c:709-773 | the frames of a sample are its host, collector or C-function frame and the captured frames below it, at most 65 and at least one |
| `ExportSamples.UniverseFits` | src/pprof_exporter.c:709-773 | 4096 symbols, 2048 sampled C functions and five made-up names fit the function table |
| `ExportSamples.DepthAloneIsNotEnough` | src/pprof_exporter.c:537-585 | here are 2048 samples with stacks of 64 frames, in order in every way but the number of symbols, whose frames have more distinct functions than the table has cells |
| `ExportProfile.BuildCpuSamples` | src/pprof_exporter.c:709-773 | every sample is exported with the locations of its frames, its weight and its time; this fails for lack of memory only, never for a full table |
| `ExportProfile.BuildMemorySamples` | src/pprof_exporter.c:775-812 | every memory sample is exported with the locations of its frames and its four clamped values; this fails for lack of memory only |
| `ExportProfile.ValuesAddUp` | src/pprof_exporter.c:764-767 | the exported columns sum to samples and samples times period when that fits in 63 bits |
| `ExportBytes.Describe` | src/pprof_exporter.c:872-930 | strings, mapping of the profiler, period, comments and value types are set up so that their numbers spell their texts |
| `ExportBytes.Finish` | src/pprof_exporter.c:1202-1266 | the encoded model decodes to itself; it fails only for lack of memory |
| `ExportBytes.ExportCpu` | src/pprof_exporter.c:872-943 | exporting symbols, CPU samples and comments within the bounds of a profile yields bytes that decode to a profile without dangling references, with dense ids, the right labels and those comments, and for each sample its weight, its time and, frame by frame, the line, the address, and the function name, file and mapping that `format_function` gives the first exported frame of that function; it fails only for lack of memory |
| `ExportBytes.ExportMemory` | src/pprof_exporter.c:872-943 | the same for memory samples and their four values |
| `ExportViews.ReadCpu` | src/cpu_core.c:323-382 | reading a CPU profile sample by sample and frame by frame gives its used aggregates in order, with the symbols and texts their frames name |
| `ExportViews.ReadMemory` | src/memory_core.c:582-655 | the same for a memory profile |
| `ExportViews.CpuProfileFits` | src/pprof_exporter.c:709-773 | whatever was recorded, a CPU profile has no more symbols, samples and frames than the exporter has room for, and its samples weigh exactly its sample counter |
| `ExportViews.MemoryProfileFits` | src/pprof_exporter.c:775-812 | the same for a memory profile, whose samples sum to its four totals |
| `ExportResult.ExportCpuResult` | src/pprof_exporter.c:1202-1266 | exporting any finished CPU profile yields bytes that decode to an intact profile showing every sample of it, whose comments tell the thirteen counters of the result, and whose columns sum, while the time fits in 63 bits, to the profile's sample counter and that times the period; it fails only for lack of memory or a message longer than any buffer may grow |
| `ExportResult.ExportMemoryResult` | src/pprof_exporter.c:1202-1266 | exporting any memory profile yields bytes that decode to an intact profile showing every sample of it, whose four columns sum to the profile's totals if those fit in 63 bits; it fails only as above |
| `ExportResult.ReadResult` | tools/pprof-flamegraph/quality.go:24-89 | reading the quality metadata from such bytes gives back exactly the counters, with nothing missing and no problem |
| `Metadata.ReadCpuQuality` | tools/pprof-flamegraph/quality.go:24-89 | the parser returns nothing exactly for profiles without a CPU sample type; otherwise values, problems and availability are those the set of comments determines |
| `Metadata.IsDecimal` | tools/pprof-flamegraph/quality.go:57-60 | a value is accepted as decimal exactly when all its characters are digits |
| `Metadata.AddCpuQuality` | src/pprof_exporter.c:838-870 | the printed comments are the title, the version and one line per counter, none cut off and none too many |
| `Metadata.DecimalRoundTrip` | src/pprof_exporter.c:838-870 | a printed number is all digits and reads back as itself |
| `Metadata.MetadataRoundTrip` | tools/pprof-flamegraph/quality.go:24-89 | for every 64-bit value of every counter and a rate in 1..10000, the printed comments in any order and among any unrelated ones read back as exactly those values with no problem |
| `Metadata.ThirteenCountersRoundTrip` | tools/pprof-flamegraph/quality.go:24-89 | the same for the thirteen counters the program prints |
| `Metadata.OrderAndBystandersDoNotMatter` | tools/pprof-flamegraph/quality.go:24-89 | any permutation of any comments, with any unrelated ones added, reads the same |
| `Metadata.DuplicatesNeverCount` | tools/pprof-flamegraph/quality.go:24-89 | a field given twice never gets a value, and is reported exactly when the one version comment says 1 |
| `Metadata.DuplicateGoesUnreported` | tools/pprof-flamegraph/quality.go:24-89 | comments with a duplicate field that nobody is told of |
| `QualityLines.Wrap` | tools/pprof-flamegraph/quality.go:131-158 | wrapped lines fit the width and have exactly the non-blank characters of the input, in order |
| `FlameStack.StackNames` | tools/pprof-flamegraph/main.go:190-212 | the names of a sample are those of its locations and inlined lines read backwards, and there is one at least per location |
| `FlameTree.BuildTree` | tools/pprof-flamegraph/main.go:151-184 | every node's value is the sum of the samples whose root-to-leaf stack has that node's path as a prefix, and there is a node for each such path and no other; the first unusable sample decides the error |
| `FlameTree.AddStack` | tools/pprof-flamegraph/main.go:167-181 | adding one sample's stack adds its value to exactly the nodes on its path, making those that are missing |
| `FlameProfile.SelectMetric` | tools/pprof-flamegraph/main.go:126-149 | the value selected is the first of the wanted type: the requested one, or else the default, or else the only one; none exactly if no value has that type |
| `FlameProfile.DefaultIsSelected` | tools/pprof-flamegraph/main.go:126-149 | for an exported profile that is the value the exporter chose as default |
| `FlameProfile.DrawDecoded` | tools/pprof-flamegraph/main.go:94-108 | the picture is a function of the decoded profile, and its root is worth the selected column |
| `FlameProfile.ExportedStacksAreNamed` | tools/pprof-flamegraph/main.go:190-219 | in the picture of an exported profile each sample is the stack it was built for, from the root down, under the names `format_function` gave its frames |
| `FlameProfile.CpuRootIsWhole` | tools/pprof-flamegraph/main.go:151-184 | no sample of an exported CPU result is unusable, and the root of its picture is worth the sample counter of the result, or the time it stands for |
| `FlameOrder.OrderIsUnique` | tools/pprof-flamegraph/main.go:326-338 | siblings have one drawing order only, so map iteration order cannot show |
| `FlameDraw.SortedChildren` | tools/pprof-flamegraph/main.go:326-338 | whatever order the map yields, the children come in that one order |
| `FlameDraw.MaximumDepth` | tools/pprof-flamegraph/main.go:340-349 | the depth is that of the tree of paths, whatever order the children are visited in |
| `FlameDraw.DrawNode` | tools/pprof-flamegraph/main.go:298-324 | a node's rectangle and all those above it are a function of the samples, too narrow ones left out |
| `FlameDraw.DrawChildren` | tools/pprof-flamegraph/main.go:287-296 | the running x places each child behind the ones before it, with its share of the width |
| `FlameLayout.LayoutInside` | tools/pprof-flamegraph/main.go:298-324 | everything drawn for a node lies in its interval and in rows no deeper than the tree |
| `FlameLayout.LayoutDisjoint` | tools/pprof-flamegraph/main.go:298-324 | rectangles of one row do not overlap and come from left to right |
| `FlameLayout.LayoutNested` | tools/pprof-flamegraph/main.go:298-324 | every rectangle stands on one of the row below that contains its interval |
| `FlameGraph.TreeIsProper` | tools/pprof-flamegraph/main.go:151-184 | in the tree of any samples a node is worth at least its children together |
| `FlameGraph.RootIsCovered` | tools/pprof-flamegraph/main.go:287-296 | the children of the root are worth exactly the root |
| `FlameDraw.ChartIsTiled` | tools/pprof-flamegraph/main.go:287-296 | the intervals of the root's children tile the chart from edge to edge |
| `FlameDraw.DrawProfile` | tools/pprof-flamegraph/main.go:151-184 | building, measuring and drawing a profile: errors exactly for unusable samples or none, otherwise a picture fixed by the samples with disjoint, nested rectangles inside the chart |

## Left out

- Registry.Registry.Start: does not model the slot's generation check or the worker mask, which no other part of the registry reads.
- ExactMode.ProfileExactly: promises nothing about the books once a table has overflowed, and neither does the program.
- ExportResult.ExportCpuResult: does not model the choice of the default sample type by name; `selected` is its index.
- FlameStack.StackNames: does not model the hexadecimal digits of an address, which are any function of it.
- QualityLines.Wrap: does not model white space outside ASCII, nor bytes that are parts of longer characters; the quality lines are ASCII.
- FlameProfile.DrawDecoded: does not model the parser library behind it, which resolves ids and refuses broken profiles; an id that
  nothing has is a missing location or function here.
- Operating-system calls: timers, signal actions and masks, thread creation, symbol lookup. Their effects remain: a delivery may
  come, pending ones are discarded, arming may fail.
- C11 memory orders weaker than sequential consistency.
- The Lua C API layer (`src/lua_module.c`), option parsing, userdata, and the patches of the host VM.
- `src/native_symbol.c` and the text of function names: `format_function` is an arbitrary function of the frame.
- `src/lua_symbols.c`, which repeats the open addressing of the profiles.
- Timer-failure counts of a quiesce that cannot stop a timer, worker masks and generations, in the step model of the targets.
- The runtime's bookkeeping of collector slots and result ownership (`lp_runtime_start`, `lp_runtime_stop`), whose properties
  are one assignment each.
- Failure of the allocations in `lp_memory_profile_new` and `lp_cpu_profile_new`.
- gzip, temporary files, renames, file modes, folded output and error strings.
- SVG text, colours, label clipping, percentages, scripts and command-line flags.
- Floating-point rounding and the mixers behind the random draws.
- Behaviour after a 64-bit counter saturates, and after two source texts have the same hash.
