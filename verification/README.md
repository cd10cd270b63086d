# A verified model of the hoarder blob executor, its logger and its collections

The project models three connected parts of the hoarder repository and proves properties of them.

**The collections** (`hoarder-collections`). `RingBuffers`, `GenAllocs`, `ObjectPools` and `BufferPools` hold the
mutable classes over arrays. Each is proved against a value: a sequence (`RingBuffer.Contents`), the generation array
with its free list (`GenAllocSpec.Gen`), a map from ids to objects (`PoolSpec.Pool`), and the allocator with the bytes
of each buffer (`MachineSpecs.Bufs`). `GenAllocRuns` and `PoolSpec` prove what a client sees over whole runs;
`ObjectHandles` is the 64-bit packing.

**The executor and its machines** (`hoarder-blob`). `MachineSpecs` gives what one event does to a connection handler and
to the listener; `Machines` has the two as classes over the context that collects their intents, proved against it.
`ExecutorModel` is the event loop and the kernel as one transition system: dispatching an event and carrying out its
intents, the kernel completing a request, collecting a completion, switching the queues. A panic (`unwrap`, `assert!`,
`panic!`, an overflowing addition) is an outcome that ends the run. The kernel may answer any request in flight at any
time: an accept gives a descriptor that is not open or fails, a receive writes anywhere in the range it was given and
reports at most its length, a close frees its descriptor with its completion. `ExecutorInvariant` and `ExecutorSteps`
prove an invariant of every run, `SingleFlightInvariant` and `SingleFlightSteps` a stronger one of runs in which no
receive completes with an errno after which the handler has other than one request in flight. `ExecutorRuns` and
`SingleFlightRuns` state the results, `ListenerRuns` on which socket connections are accepted, `Descriptors` which
connection has which descriptor. `Overflow`, `PoolFull`, `MaskedPool` and `Stops` build runs that show the premises to
be needed and every panic the results leave to be met. `EventLoop` is the loop of `run` as a function of what the kernel
answers and when, and proves what it does; `EventLoopRuns` proves that it can stop wherever a run of the transition
system can. `Executors` is the loop in place, with the real pools, queues and intents array; its `Run` is proved to
compute exactly that function.

**The logger** (`hoarder-log`). `LoggerModel` is the double-buffer protocol of one producer and one consumer, one atomic
operation a step (a record and a drained buffer are copied one byte a step), with spurious failure of the weak
compare-exchange. `LoggerInvariant` is kept by every interleaving; `LoggerRuns` proves the refinement to a FIFO of whole
records, `LoggerFlush` what a panic flush emits, `LoggerFlushOrder` in which order, and `LoggerSwaps` which buffer is
active when. `Loggers` is the logger in place: one method for each atomic operation, and `Push`, `Consume` and
`PanicFlush` built from them with the other thread running in between.

Some things in the code decide how the results read.

- After a retryable errno a handler has two receives in flight (`ExecutorRuns.RetryDoubles`), so the connection may be
  closed twice and the second close may take the descriptor of another connection; then the next accepted connection
  finds the handler pool full (`PoolFull.HandlerPoolOverflows`). In single-flight runs a close frees no descriptor but
  its own connection's (`Descriptors.DescriptorsAreOwned`).
- A pool masks its capacity to 24 bits, while the descriptor table and the queues are sized by the capacity itself. A
  single-flight run that finds the pool full exists exactly with a larger capacity (`MaskedPool.PoolOverflowsIff`). The
  documentation of `GenAlloc::new` in `hoarder-collections/src/alloc.rs` speaks of limiting the capacity; the code takes
  it modulo 2^24.
- After an errno that closes the connection the extra receive names a buffer already given back and stops the run
  (`Stops.ClosingErrnoStops`).
- An accept error can put one completion more into the next run queue than it holds
  (`Overflow.CompletionQueueOverflows`, also in single-flight runs).
- A panic flush emits buffer 0 before buffer 1, so the newer records can come first, exactly when it starts with them in
  buffer 0 and the consumer has not emptied buffer 1 (`LoggerFlushOrder.FlushInOrderIff`); that takes two successful
  exchanges of the consumer (`LoggerSwaps.EarlyFlushInOrder`).

## Model

| member | source | states |
|---|---|---|
| `RingBuffers.RingBuffer.constructor` | hoarder-collections/src/collections.rs:131-148 | the new queue is empty and holds at most `size` |
| `RingBuffers.RingBuffer.FromFixedIter` | hoarder-collections/src/collections.rs:150-162 | the queue holds exactly the first `size` items, in order |
| `RingBuffers.RingBuffer.Push` | hoarder-collections/src/collections.rs:164-174 | appends at the back, refused with no change exactly when the queue is full |
| `RingBuffers.RingBuffer.Pop` | hoarder-collections/src/collections.rs:176-185 | takes the front, `None` exactly when the queue is empty |
| `RingBuffers.RingBuffer.Drain` | hoarder-collections/src/collections.rs:201-206 | dropping releases every queued element once, oldest first, and ends |
| `GenAllocSpec.NewWf` | hoarder-collections/src/alloc.rs:83-93 | every slot starts free, once, and no id counts as handed out |
| `GenAllocSpec.AllocFresh` | hoarder-collections/src/alloc.rs:95-102 | an allocation gives an id never handed out before and takes exactly its slot; it fails only when nothing is free |
| `GenAllocSpec.FreeIssued` | hoarder-collections/src/alloc.rs:104-112 | freeing an id that was handed out: refused exactly when it was freed before, the push never fails, only that id becomes stale, and the `u32` overflows exactly at the last generation |
| `GenAllocSpec.FreeKeepsWfIff` | hoarder-collections/src/alloc.rs:104-117 | a made-up id that passes `is_valid` breaks the free list exactly when its slot is free already |
| `GenAllocSpec.LiveCount` | hoarder-collections/src/alloc.rs:74-118 | ids in use and free slots add up to the capacity |
| `GenAllocRuns.AllocatorRuns` | hoarder-collections/src/alloc.rs:79-118 | over every run: an issued id is valid iff not freed, and free slots and slots in use partition the table without repetition |
| `GenAllocRuns.AllocatorAnswers` | hoarder-collections/src/alloc.rs:95-112 | after every run: the next id is new unless every slot is in use, and a second free is refused and changes nothing |
| `GenAllocRuns.FirstAllocations` | hoarder-collections/src/alloc.rs:83-112 | whatever was given back before, the first `capacity` allocations take the slots from the last to the first, each with generation 0 |
| `GenAllocRuns.ReuseDistance` | hoarder-collections/src/alloc.rs:95-112 | a slot freed while k others are free comes back only at the (k+1)-th allocation; the k before give those others in the order they were freed |
| `GenAllocs.MaskedCapacity` | hoarder-collections/src/alloc.rs:83-88 | without a mask the capacity is kept, with the pools' mask it is taken modulo 2^24 |
| `GenAllocs.GenAlloc.constructor` | hoarder-collections/src/alloc.rs:83-93 | all generations are 0 and the free list is the indices in reverse, stated index by index |
| `GenAllocs.GenAlloc.Alloc` | hoarder-collections/src/alloc.rs:95-102 | the arrays move as the specification does, and the id is the one it gives |
| `GenAllocs.GenAlloc.Free` | hoarder-collections/src/alloc.rs:104-112 | likewise for freeing, including which of the two panics ends it |
| `GenAllocs.GenAlloc.IsValid` | hoarder-collections/src/alloc.rs:114-117 | decides exactly whether an id is current |
| `ObjectHandles.PackSum` | hoarder-collections/src/alloc.rs:253-259 | the three shifted fields do not overlap: the word is their weighted sum and fits 64 bits |
| `ObjectHandles.UnpackPack` | hoarder-collections/src/alloc.rs:253-271 | a handle survives the trip through 64 bits exactly when its index fits 24 bits |
| `ObjectHandles.PackUnpack` | hoarder-collections/src/alloc.rs:261-284 | every 64-bit word is the packing of the handle read from it |
| `ObjectHandles.PackInjective` | hoarder-collections/src/alloc.rs:253-284 | different handles give different words |
| `PoolSpec.PoolIsMap` | hoarder-collections/src/alloc.rs:198-241 | get is map lookup, spawn adds under a key never used before and fails only when full, despawn removes exactly its key |
| `PoolSpec.PoolBound` | hoarder-collections/src/alloc.rs:179-242 | objects in the pool and free slots add up to the capacity |
| `PoolSpec.PoolRuns` | hoarder-collections/src/alloc.rs:198-241 | after every run of spawns, writes through `get_mut` and despawns on issued handles: lookup agrees with the client's map, a despawn succeeds exactly on its keys, and the next handle is new unless the map fills the pool |
| `ObjectPools.FillSlot` | hoarder-collections/src/alloc.rs:198-204 | the slot of a freshly allocated id is empty, so `assert!(is_none())` cannot fail |
| `ObjectPools.ClearSlot` | hoarder-collections/src/alloc.rs:230-241 | emptying the slot on despawn keeps filled slots and indices in use the same |
| `ObjectPools.ObjectPool.constructor` | hoarder-collections/src/alloc.rs:187-192 | the new pool is the empty map of the masked capacity |
| `ObjectPools.ObjectPool.Capacity` | hoarder-collections/src/alloc.rs:194-196 | gives the capacity asked for; the pool holds that many objects exactly while it fits 24 bits, and its remainder otherwise |
| `ObjectPools.ObjectPool.Spawn` | hoarder-collections/src/alloc.rs:198-204 | the slot array and allocator move as the map does; the handle carries the pool's id |
| `ObjectPools.ObjectPool.Get` | hoarder-collections/src/alloc.rs:206-228 | reads the slot array exactly as the map |
| `ObjectPools.ObjectPool.Update` | hoarder-collections/src/alloc.rs:218-228 | writing through `get_mut` changes that object in the map and nothing else |
| `ObjectPools.ObjectPool.Despawn` | hoarder-collections/src/alloc.rs:230-241 | removes the object from the map, or refuses a stale handle with no change, or panics as the allocator does; the pool stays whole exactly unless a current handle was never handed out |
| `BufferPools.BuffersAreDisjoint` | hoarder-collections/src/alloc.rs:21-56 | buffers are aligned, inside the allocation, and follow each other without overlap |
| `BufferPools.BufferPool.constructor` | hoarder-collections/src/alloc.rs:130-136 | every buffer is free |
| `BufferPools.BufferPool.Alloc` | hoarder-collections/src/alloc.rs:143-146 | allocates as the specification does and touches no byte |
| `BufferPools.BufferPool.Free` | hoarder-collections/src/alloc.rs:174-176 | frees as the specification does and touches no byte; the pool stays whole exactly unless a current handle was never handed out |
| `BufferPools.BufferPool.Get` | hoarder-collections/src/alloc.rs:149-157 | gives the bytes of the handle's own buffer, `None` for a stale handle |
| `BufferPools.BufferPool.Receive` | hoarder-collections/src/alloc.rs:160-171 | writing at an offset of one buffer changes exactly that range of it and no other buffer |
| `Protocol.HeaderRoundTrip` | hoarder-blob/src/protocol/mod.rs:68-73 | five bytes and a header determine each other: four bytes of magic, the least first, then the command |
| `Protocol.MoreIsBit` | hoarder-blob/src/state_machine/tcp_server.rs:52-55 | the request stays armed exactly while the bit of value 2 is set in the flags |
| `Machines.ExecutorContext.SubmitIntent` | hoarder-blob/src/protocol/mod.rs:57-61 | appends to the intents submitted so far, and fails its assertion exactly when they fill the slice |
| `Machines.ConnHandler.ProcessEvent` | hoarder-blob/src/state_machine/conn_handler.rs:39-55 | one event changes the handler, the buffers and the intents as the transition function says, or ends in exactly its panic, or in the assertion of `submit_intent` exactly when its intents do not fit |
| `MachineSpecs.RefusedByConn` | hoarder-blob/src/state_machine/conn_handler.rs:39-55 | `unreachable!()` is met exactly by I/O in `Init` and by a spawn in `Recv` or `Closing`, the offset overflows exactly past 32 bits, and a closed handler ignores everything |
| `MachineSpecs.ClosesAgain` | hoarder-blob/src/state_machine/conn_handler.rs:97-106 | a failed close does what the end of the stream did |
| `Machines.ConnHandler.OnInit` | hoarder-blob/src/state_machine/conn_handler.rs:57-69 | takes a buffer and asks for the first receive, or asks to be retried when there is none |
| `Machines.ConnHandler.OnRecv` | hoarder-blob/src/state_machine/conn_handler.rs:71-95 | closes on end of stream, else counts the bytes, parses the header from the fifth on, and always asks for one receive more |
| `Machines.ConnHandler.OnClosing` | hoarder-blob/src/state_machine/conn_handler.rs:97-106 | terminates when the close succeeded, else closes again |
| `Machines.ConnHandler.HandleIoError` | hoarder-blob/src/state_machine/conn_handler.rs:108-139 | by number: one receive for 4, 11, 12, 105, 110; a panic for 9, 14, 22, 88, 95, 97; a close for 5, 100 to 104, 107, 108; nothing for any other |
| `Machines.ConnHandler.Close` | hoarder-blob/src/state_machine/conn_handler.rs:141-146 | gives the buffer back whatever the pool answers, resets the offset and asks for one close |
| `Machines.ConnHandler.Recv` | hoarder-blob/src/state_machine/conn_handler.rs:153-159 | asks for a receive at the offset cast to 16 bits |
| `Machines.Listener.ProcessEvent` | hoarder-blob/src/state_machine/tcp_server.rs:31-61 | listens once and asks for the first accept on the socket it was given, spawns a handler for each accepted descriptor, rearms exactly when the request is no longer armed, and stays in its error state |
| `MachineSpecs.RefusedByListener` | hoarder-blob/src/state_machine/tcp_server.rs:31-61 | `unreachable!()` is met exactly by I/O in `Init` and by a spawn in any other state; a failed listener ignores completions |
| `Machines.Listener.MultishotAccept` | hoarder-blob/src/state_machine/tcp_server.rs:82-84 | asks for an accept on the listening socket |
| `ExecutorInvariant.StartInv` | hoarder-blob/src/executor/mod.rs:32-56 | the state in which the loop is entered satisfies the invariant |
| `ExecutorSteps.InitDispatch` | hoarder-blob/src/executor/mod.rs:60-101 | dispatching to a handler in `Init`: a receive of the whole buffer, or a retry in the next queue |
| `ExecutorSteps.RecvSomeDispatch` | hoarder-blob/src/executor/mod.rs:153-170 | bytes received: the next receive asks for exactly the rest of the buffer, or the run stops because it is full |
| `ExecutorSteps.RecvEndDispatch` | hoarder-blob/src/executor/mod.rs:60-101 | end of stream: the buffer is given back and a close is in flight |
| `ExecutorSteps.RecvErrorDispatch` | hoarder-blob/src/executor/mod.rs:153-170 | a receive error: two receives, or a stop on the stale buffer, or one receive, by errno |
| `ExecutorSteps.ClosingDispatch` | hoarder-blob/src/executor/mod.rs:171-183 | a close result: the handler leaves the pool at once, or closes again |
| `ExecutorSteps.ListenerSpawnDispatch` | hoarder-blob/src/executor/mod.rs:60-79 | the listener's start puts one accept in flight, or none when listening fails |
| `ExecutorSteps.ListenerIoDispatch` | hoarder-blob/src/executor/mod.rs:134-152 | an accepted connection fills a slot and queues one spawn, and stops the run exactly when no slot is free |
| `ExecutorSteps.StepInv` | hoarder-blob/src/executor/mod.rs:54-186 | every step of the loop or the kernel keeps the invariant, or stops in one of six panics |
| `ExecutorSteps.RunInv` | hoarder-blob/src/executor/mod.rs:54-121 | every run keeps the invariant |
| `ExecutorRuns.MachinesGetTheirEvents` | hoarder-blob/src/state_machine/conn_handler.rs:39-55 | in every run: a handler in `Init` has one spawn queued and no I/O anywhere, any other has no spawn, none is `Closed`, the listener's spawn is alone while it starts, and only the two known pools are named |
| `ExecutorRuns.OnlyKernelMadePanics` | hoarder-blob/src/executor/mod.rs:60-186 | no `unreachable!()` arm, unchecked unwrap, header unwrap, retry push or spawn push ever stops a run |
| `ExecutorRuns.DispatchPanicsIff` | hoarder-blob/src/executor/mod.rs:60-186 | exactly which event stops the run in which state of its machine |
| `ExecutorRuns.RunDead` | hoarder-blob/src/executor/mod.rs:171-177 | a handle once dead stays dead, whatever is spawned into its slot |
| `ExecutorRuns.RunOnward` | hoarder-blob/src/state_machine/conn_handler.rs:39-106 | a handler never goes back to an earlier state, and its offset does not fall before it closes |
| `ExecutorRuns.StaleEventsAreDropped` | hoarder-blob/src/executor/mod.rs:80-101 | an event of a terminated connection is dropped now or at any later time, also when its slot is used again |
| `ExecutorRuns.BufferConservation` | hoarder-blob/src/state_machine/conn_handler.rs:57-69 | in every run: the buffers in use are exactly those of the receiving handlers, unshared, and with the free ones they are all |
| `ExecutorRuns.StaleCloseFreesNothing` | hoarder-blob/src/state_machine/conn_handler.rs:97-106 | closing again gives no buffer back, also when another connection has it |
| `ExecutorRuns.NoRetry` | hoarder-blob/src/executor/mod.rs:126-133 | with as many buffers as handlers nothing is retried |
| `ExecutorRuns.OffsetsAreExact` | hoarder-blob/src/state_machine/conn_handler.rs:80-93 | the 16-bit cast never truncates, so the executor's assertion tests the real offset |
| `ExecutorRuns.OffsetsStayInside` | hoarder-blob/src/executor/mod.rs:153-163 | a handler that survives its intents has room left in its buffer |
| `ExecutorRuns.RetryDoubles` | hoarder-blob/src/state_machine/conn_handler.rs:93-113 | a retryable errno leaves the handler with one request more than before |
| `ExecutorRuns.ReceiveErrors` | hoarder-blob/src/state_machine/conn_handler.rs:77-139 | the whole outcome of every negative receive result, by number: two receives at the same place, a stop on the buffer given back (or a spent generation), a stop in `panic!`, or one receive |
| `ListenerRuns.AcceptsOnTheSocket` | hoarder-blob/src/state_machine/tcp_server.rs:31-84 | in every run each accept in flight or completed, the first and every one rearmed, is on the socket that the start gave; when the start failed nothing is ever in flight |
| `ExecutorRuns.DrainTerminates` | hoarder-blob/src/executor/mod.rs:60-102 | draining ends: a measure falls with each event, and the queue being drained never grows |
| `ExecutorRuns.RetriesFit` | hoarder-blob/src/executor/mod.rs:126-133 | while a queue drains the next one holds at most one retry for each handler |
| `SingleFlightSteps.StepSF` | hoarder-blob/src/executor/mod.rs:54-186 | every single-flight step keeps the stronger invariant, or stops in one of four panics, or in a full pool that was masked |
| `SingleFlightSteps.RunSF` | hoarder-blob/src/executor/mod.rs:54-121 | every single-flight run keeps it |
| `SingleFlightRuns.AcceptFindsASlot` | hoarder-blob/src/executor/mod.rs:141-177 | in single-flight runs live handlers, less successful closes, plus successful accepts fit the descriptor table after every prefix of the pending events, so with a slot for each descriptor an accepted connection finds one |
| `SingleFlightRuns.OneRequestEach` | hoarder-blob/src/executor/mod.rs:153-184 | in single-flight runs each receiving or closing handler has exactly one request in flight or completed and queued, the one it waits for, and nothing else has any |
| `SingleFlightRuns.ReceivesAreDisjoint` | hoarder-blob/src/executor/mod.rs:153-170 | in single-flight runs a receive in flight is on its own handler's socket and writes exactly the free end of its live buffer of 4096 bytes, and no two write the same buffer |
| `SingleFlightRuns.HeaderParsing` | hoarder-blob/src/state_machine/conn_handler.rs:71-95 | however the stream is split, the buffer holds what was received, and the body phase is reached exactly from the fifth byte on, with the little-endian magic of the first four and the fifth as command |
| `SingleFlightRuns.HeaderIsStable` | hoarder-blob/src/state_machine/conn_handler.rs:80-91 | a parsed header never changes while the connection receives |
| `SingleFlightRuns.OneAcceptArmed` | hoarder-blob/src/state_machine/tcp_server.rs:42-56 | in every run at most one accept is armed or about to be rearmed |
| `SingleFlightRuns.RequestsFit` | hoarder-blob/src/executor/mod.rs:134-183 | in single-flight runs at most one request for each live handler, and the accept, are in flight: never more than one over the slots |
| `Descriptors.DescriptorsAreOwned` | hoarder-blob/src/executor/mod.rs:171-183 | in single-flight runs live handlers have different sockets, open until their own close succeeds, and a close in flight is for its own handler's open socket, never for a connection that just came in |
| `SingleFlightRuns.PendingFits` | hoarder-blob/src/executor/mod.rs:32-40 | in single-flight runs at most 2n events are pending, one more only with a failed accept among them |
| `SingleFlightRuns.CollectFits` | hoarder-blob/src/executor/mod.rs:107-116 | collecting a completion overflows the next queue exactly when that is full and a failed accept is pending |
| `Overflow.CompletionQueueOverflows` | hoarder-blob/src/executor/mod.rs:107-116 | a single-flight run in which that happens |
| `PoolFull.HandlerPoolOverflows` | hoarder-blob/src/executor/mod.rs:141-145 | a run with one retryable errno after which an accepted connection finds no slot |
| `MaskedPool.MaskedPoolOverflows` | hoarder-blob/src/executor/mod.rs:141-145 | for every capacity over 24 bits, a single-flight run after which an accepted connection finds no slot |
| `MaskedPool.PoolOverflowsIff` | hoarder-blob/src/executor/mod.rs:141-145 | an accepted connection finds no slot in some single-flight run if and only if the capacity is over 24 bits |
| `Stops.FullBufferStops` | hoarder-blob/src/executor/mod.rs:153-163 | a run whose first receive fills the buffer stops in the assertion on the offset |
| `Stops.ClosingErrnoStops` | hoarder-blob/src/executor/mod.rs:153-158 | a run whose first receive ends in an errno that closes the connection stops on the buffer given back |
| `Stops.FatalErrnoStops` | hoarder-blob/src/state_machine/conn_handler.rs:114-132 | a run whose first receive ends in an errno that is not expected stops in `panic!` |
| `Stops.GenerationsRunOut` | hoarder-collections/src/alloc.rs:104-112 | a run of 2^32 connections whose last cannot give its buffer back |
| `EventLoop.DrainFollows` | hoarder-blob/src/executor/mod.rs:59-102 | draining, with answers in between, is a run of the transition system up to its panic |
| `EventLoop.CollectFollows` | hoarder-blob/src/executor/mod.rs:107-116 | so is collecting |
| `EventLoop.LoopStops` | hoarder-blob/src/executor/mod.rs:54-121 | whatever the kernel answers and when: the whole run is one of the transition system, it goes on until every answer is used up, and it stops only in six panics, in four if no receive gets an errno that doubles it and the pool is not masked |
| `EventLoopRuns.LoopReaches` | hoarder-blob/src/executor/mod.rs:54-121 | for every run whose next step in the loop panics there are answers with which the loop stops in that state and panic |
| `EventLoopRuns.LoopPanicsIff` | hoarder-blob/src/executor/mod.rs:54-121 | the loop can stop in a panic if and only if a run of the transition system can |
| `Executors.Executor.New` | hoarder-blob/src/executor/mod.rs:32-52 | the new executor has empty tables and queues of the given sizes, the pools masked, sharing nothing |
| `Executors.Executor.Setup` | hoarder-blob/src/executor/mod.rs:209-211 | the descriptor table gets as many entries as the handler pool's capacity, as the accepts of the model assume |
| `Executors.Executor.SeedRunQueue` | hoarder-blob/src/executor/mod.rs:196-207 | neither unwrap fails, and the run begins in the state the invariant starts from |
| `Executors.Executor.Enqueue` | hoarder-blob/src/executor/mod.rs:134-139 | the request in flight carries the handle unchanged through its 64-bit user data |
| `Executors.Executor.CompleteOne` | hoarder-blob/src/executor/mod.rs:125-184 | one intent changes pools, queues and ring as the specification says, or panics as it says |
| `Executors.Executor.CompleteIntent` | hoarder-blob/src/executor/mod.rs:123-186 | the first `n` intents are carried out in order up to the first panic |
| `Executors.Executor.RunHandler` | hoarder-blob/src/executor/mod.rs:80-91 | a handler's event touches its buffers and the intents only |
| `Executors.Executor.KernelTurn` | hoarder-blob/src/executor/mod.rs:104-105 | each of the kernel's answers is taken, in order, except those it may not give |
| `Executors.Executor.DispatchNext` | hoarder-blob/src/executor/mod.rs:60-101 | one iteration of the drain loop is one dispatch of the transition system |
| `Executors.Executor.DrainCurrent` | hoarder-blob/src/executor/mod.rs:59-102 | the drain loop, with the kernel's answers before each event, takes the answers, reaches the state and stops in the panic that `EventLoop.DrainAll` gives |
| `Executors.Executor.CollectNext` | hoarder-blob/src/executor/mod.rs:109-116 | one completion moves to the back of the next queue, or the push fails |
| `Executors.Executor.CollectCompletions` | hoarder-blob/src/executor/mod.rs:107-116 | likewise for the collecting loop, with the answers posted meanwhile |
| `Executors.Executor.SwitchRunQueue` | hoarder-blob/src/executor/mod.rs:188-190 | the two queues change places |
| `Executors.Executor.NextRunQueueIdx` | hoarder-blob/src/executor/mod.rs:192-194 | names the queue that is not the current one |
| `Executors.Executor.Run` | hoarder-blob/src/executor/mod.rs:54-121 | from a new executor: the run ends in the state or the panic that `EventLoop.Loop` gives for what the kernel answers and when |
| `LoggerInvariant.StepInv` | hoarder-log/src/lib.rs:132-245 | every atomic operation of either thread, and of a flush, keeps the invariant |
| `LoggerRuns.NothingLostOrReordered` | hoarder-log/src/lib.rs:132-245 | under every interleaving: bytes accepted = bytes delivered, then those the consumer holds, then the active buffer |
| `LoggerRuns.RefinesFifo` | hoarder-log/src/lib.rs:132-245 | every operation is a step of a FIFO of whole records or invisible to it; a record enters only by its `fetch_add` |
| `LoggerRuns.NeverTheSameBuffer` | hoarder-log/src/lib.rs:134-178 | the writer bit is set exactly while the producer is in its critical section on the active buffer, the consumer holds only the other, and an idle consumer's buffer is empty |
| `LoggerFlush.FlushCoversEverything` | hoarder-log/src/lib.rs:184-200 | a flush from outside `push`, with the consumer running: every record undelivered at its start is delivered or emitted when it ends, and only whole records are emitted |
| `LoggerFlush.FlushAlone` | hoarder-log/src/lib.rs:184-200 | with the consumer idle a flush emits exactly the undelivered bytes |
| `LoggerFlushOrder.FlushOnceInOrder` | hoarder-log/src/lib.rs:184-200 | whatever the consumer does meanwhile, a flush emits no record twice, and emits them in order unless it starts with the newer ones in buffer 0 and older ones in buffer 1 |
| `LoggerFlushOrder.FlushInOrderIff` | hoarder-log/src/lib.rs:184-200 | every flush from a state emits in order if and only if that is not so |
| `LoggerFlushOrder.FlushNewerFirst` | hoarder-log/src/lib.rs:187-198 | otherwise, with the consumer at rest, it emits the whole of buffer 0 and then the older buffer 1 |
| `LoggerFlushOrder.NewerFirstHappens` | hoarder-log/src/lib.rs:184-200 | a run of three pushes that reaches such a state |
| `LoggerSwaps.ActiveIsParity` | hoarder-log/src/lib.rs:115-119 | the active buffer is the number of the consumer's successful exchanges modulo 2: a new logger starts with buffer 0 |
| `LoggerSwaps.EarlyFlushInOrder` | hoarder-log/src/lib.rs:184-225 | before the second successful exchange every flush emits in order |
| `Loggers.SharedLogger.constructor` | hoarder-log/src/lib.rs:107-128 | the state word and both offsets are 0 and both threads idle |
| `Loggers.SharedLogger.CompareExchangeWeak` | hoarder-log/src/lib.rs:138-145 | the exchange wins exactly when the word is unchanged and it does not fail spuriously, and is the model's step |
| `Loggers.SharedLogger.LoadOffset` | hoarder-log/src/lib.rs:146-159 | decides between writing and refusing, as the model's step |
| `Loggers.SharedLogger.CopyByte` | hoarder-log/src/lib.rs:162-168 | one byte goes behind the published ones of the active buffer |
| `Loggers.SharedLogger.FetchAdd` | hoarder-log/src/lib.rs:170-171 | publishes exactly the record |
| `Loggers.SharedLogger.ClearWriter` | hoarder-log/src/lib.rs:176-179 | leaves the critical section |
| `Loggers.SharedLogger.SwapBuffers` | hoarder-log/src/lib.rs:219-225 | a successful exchange takes all accepted records for delivery |
| `Loggers.SharedLogger.DeliverByte` | hoarder-log/src/lib.rs:230-237 | the callback is given the next byte of the taken buffer |
| `Loggers.SharedLogger.StoreZero` | hoarder-log/src/lib.rs:240-241 | gives the emptied buffer back |
| `Loggers.SharedLogger.Push` | hoarder-log/src/lib.rs:132-182 | whatever the consumer does meanwhile, the record is accepted whole or not at all, and refused only when it does not fit behind what the active buffer holds |
| `Loggers.SharedLogger.Consume` | hoarder-log/src/lib.rs:206-245 | whatever the producer does meanwhile, a call that returns has delivered every record accepted before it; one that does not return is spinning on the writer bit |
| `Loggers.SharedLogger.PanicFlush` | hoarder-log/src/lib.rs:184-200 | with the consumer running, every record undelivered at the start is delivered or emitted at the end, in whole records; with it idle, exactly the undelivered bytes come out |

## Left out

- Real `io_uring` calls (`hoarder-io`): the kernel is the contract in `ExecutorModel.Answers` and
  `ExecutorModel.PostCompletion`. That `setup().unwrap()`, `submit_and_wait(1).unwrap()` and `enqueue(..).unwrap()`
  succeed is assumed: registering files and buffers, waiting, and space in the submission queue. In single-flight runs
  a queue with one entry more than the handler pool has slots is never full (`SingleFlightRuns.RequestsFit`).
- Socket creation and address parsing in `TcpServer::listen`: its outcome is a parameter, the same for the one call
  a run makes. The error stored in the listener's state is the errno.
- Raw pointers, `MaybeUninit`, allocation failure and deallocation in `Drop`: Dafny arrays stand for them.
- References: `get_mut` is a read of the slot, the machine's work on a fresh object, and a write back
  (`ObjectPools.ObjectPool.Update`); no other reference to the slot exists meanwhile in the source either.
- Relaxed, acquire and release effects, and progress of the spin loops: operations interleave one at a time.
- More than one producer or consumer: the exchange in `push` does not ask for a clear writer bit, so exclusion rests
  on there being one producer, as in `hoarder-blob/src/main.rs:27-45`.
- Errno tables in `hoarder-common`, beyond the classes of `handle_io_error` and the negation of a 32-bit word.
- Logging macros, `FmtBuf`, thread setup, `MsgHeaderLong` and `RecvPhase::Processing`, which is never entered.
- Byte order: the header's magic is read little-endian.
- The packed word in events: queued events carry the handle unpacked; `Executors.Executor.Enqueue` packs and unpacks it,
  and the packing loses nothing. The event field `origin` is history only.
- Arithmetic overflow is a panic, as in a debug build; a release build would wrap the generation. Only the negation of
  the least 32-bit word, which the kernel gives for no request, is taken to wrap.
- Executors.Executor.New: assumes capacities the masks do not turn into 0, which the queues' own assertion refuses.
- Machines.ConnHandler.ProcessEvent: requires that the handler's buffer handle, if current, is in use, as the only
  place that sets it makes sure.
- Executors.Executor.DispatchNext: requires the invariant of the run, which `Executors.Executor.Run` establishes; so do
  Executors.Executor.DrainCurrent and Executors.Executor.CollectCompletions.
- Executors.Executor.Run: the kernel's answers are an argument; when they are used up the call returns where the source
  would wait for ever.
