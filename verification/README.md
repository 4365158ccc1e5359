# A Dafny model of the senders-io protocols

senders-io builds asynchronous I/O out of senders and sequences. What is hard in it is a handful of small
protocols over shared state: the alignment and the completion of `zip`, the combining lock, the memory pool,
the joins of `fork` and `merge_each`, the intrusive lists, the loop that turns partial transfers into whole
ones, and the slicing of buffer spans. This project models those parts and proves what they keep.

`dafny verify dfyconfig.toml` checks the whole project.

## How the model is built

The concurrent parts come in pairs of modules. A `...Protocol` module has a `State` with the shared fields and
one program position per activation, child or actor, an `Event` for each atomic operation of the source, and
`Step`; any number of participants interleave freely, and the results hold for every run. Beside it stands a
class with the source's fields, whose methods update them in place: one method for each atomic operation,
proved equal to `Step` and to keep the invariant, and methods for whole functions of the source as they run
when nothing comes between. `MemoryPool.dfy` does the same on linked block headers and intrusive lists.

| file | models |
|---|---|
| `Zip.dfy` | per-child queues, the readiness counter, the six phases of an assembly, stop and drain |
| `ZipJoin.dfy` | how the children of `zip` end, note errors and complete the whole |
| `AsyncMutex.dfy` | the push, exchange, drain, release, recheck loop of `lock_operation::start` |
| `Fork.dfy` | the reference counter, error slot and item operations of `fork` |
| `MergeEach.dfy` | the countdown and error slot of `merge_each` |
| `MemoryPool.dfy` | free lists, waiters, cancellation and the destructor of `memory_pool` |
| `Log2.dfy` | `log2_64` on 64-bit words, and the size classes |
| `IntrusiveList.dfy`, `IntrusiveQueue.dfy`, `Sequences.dfy` | the linked structures and the sequence operations they refine |
| `Transfer.dfy` | `buffered_sequence` composed with `scan` and `last` |
| `Subspan.dfy` | `const_buffer_subspan`: `buffer_size`, `prefix`, `suffix` |

Modelling decisions that all results depend on:

- Atomics are sequentially consistent, and a mutex-protected section is one step.
- In `zip` one arrival (the push, the test of the front and the `fetch_add`) is one step; items may arrive
  between all later phases of an assembly, and a new assembly may begin while an older one still waits to hand
  its tuple down.
- `pop_all` of the lock takes the whole queue at once; in which order the batch lists it is left open.
- In `fork` a sequence completes only after the `set_next` senders it started have passed `increase_ref`.
- The upstream memory resource answers with null or with a block never seen before. In the heap model a block
  is its header, and an allocate operation is the list item that carries its request.
- A value completion that a stop turns into a stopped one (`set_value_unless_stopped`) is one outcome, `Values`,
  in `Fork.dfy` and `MergeEach.dfy`; `Transfer.dfy` and `ZipJoin.dfy`, where the difference decides whether an
  error is seen, tell the two apart.
- An environment does what it likes where the source does not restrict it: which item arrives when, how a child
  ends, how much a transfer moves, when a stop is requested.

## What turned out not to hold

Each of these has a lemma with a concrete run or input for which the property fails, and one with the exact condition
under which it holds.

- `zip` hands tuples downstream out of order when two assemblies overlap (`OverlapCanReorder`); the order is kept
  if and only if the oldest waiting tuple always goes first (`DownstreamOrderIff`).
- A drain can take away the fronts an activation counts on (`DrainCanRob`); it keeps the protocol intact if and
  only if no activation does (`DrainKeepsInvIff`, `RunKeepsInvIff`), and only such an activation is ever blocked
  (`BlockedIffDrained`). In the source that activation would read a front that is not there.
- `zip` loses an error when the last child overtakes another between its countdown and its note
  (`OvertakenErrorIsLost`), and always when the last child ends by stop; `ErrorSurfacesIff` says for every run when
  an error comes through, and which.
- `fork` completes before its source has ended when the receiver's stop callback takes a count
  (`OutsideStopCompletesEarly`); a completion is a join if and only if the callback took none while the operation
  was live (`CompletionIsJoinIff`). It may then find an error half written and lose it
  (`OutsideStopFindsHalfWritten`); it delivers what it owes if and only if the source was stopped or nobody is
  writing the slot (`DeliversWhatIsOwedIff`).
- A request near the largest word wraps and gets a block smaller than its header (`WrappedRequest`), and class 30
  asks for a size with the sign bit spread (`ClassThirtyRequest`); blocks fit exactly otherwise
  (`BlockCoversRequestIff`).
- A span that ends with an empty buffer is offered for ever (`EmptyLastBufferGoesOn`), and so are bytes that no
  transfer moves, as at the end of a file (`StalledLoopGoesOn`); `LoopEndsIff` says when the loop ends. With a file
  offset a span moves its offset short of the bytes transferred when a buffer is used up
  (`OffsetFallsBehind`, `SpanOffsetIff`, `ChunksAreContiguousIff`).
- An allocation completes twice when its stop callback gets the mutex after the operation was served
  (`LateStopCompletesTwice`); operations complete exactly once if and only if none does (`ExactlyOnceIff`).
- `prefix` beyond a subspan that ends inside a buffer shows foreign bytes or reads the last of no buffers
  (`PrefixBeyondTheSubspan`, `PrefixIff`); `suffix` over three or more buffers is right for every count only in one
  shape (`UnevenSuffixFails`, `SuffixRightIff`).

## Model

| member | source | states |
|---|---|---|
| ZipProtocol.Alignment | source/sio/sequence/zip.hpp:210-298 | in every run the k-th tuple is made of the k-th item of every child, and what is handed downstream is that tuple |
| ZipProtocol.TuplesAreTheMinimum | source/sio/sequence/zip.hpp:210-298 | with no assembly holding fronts, the number of tuples is the minimum number of items delivered over the children |
| ZipProtocol.ReadinessCounter | source/sio/sequence/zip.hpp:215-270 | in every run at most one activation owns the fronts; until a stop, outside an assembly the counter is the number of nonempty queues and below N, and between pop and recount it is -1 plus the queues refilled and cannot reach N-1; when the next assembly is owed it is N-1 with every queue nonempty, unless a drain robbed an activation |
| ZipProtocol.ElectedAlone | source/sio/sequence/zip.hpp:218-221 | an arrival that reads N-1 finds no other activation owning the fronts |
| ZipProtocol.BlockedIffDrained | source/sio/sequence/zip.hpp:223-296 | in every run an activation is blocked if and only if it needs fronts and a drain has come; without a drain a hand-over in phase 6 always claims the next tuple |
| ZipProtocol.EveryTupleCompletedOnce | source/sio/sequence/zip.hpp:129-156 | in every run the items of a tuple are completed at most once, and exactly once when no activation and no zipped operation carries any |
| ZipProtocol.StopLosesNothing | source/sio/sequence/zip.hpp:80-104 | in every run what was accepted from a child and no tuple took was drained in order or is still queued; after a drain nothing is queued |
| ZipProtocol.AcceptedIsBeforeStop | source/sio/sequence/zip.hpp:69-78 | in every run what was accepted from a child is what it delivered before the first stop request |
| ZipProtocol.HandedDownUnlessStopped | source/sio/sequence/zip.hpp:245-285 | in every run a tuple that has left its activation was handed downstream if and only if no stop was found in phase 3 |
| ZipProtocol.GivesUpIff | source/sio/sequence/zip.hpp:245-249 | in every run phase 3 completes the items and ends the activation if and only if a stop was requested before |
| ZipProtocol.CompletedInOrder | source/sio/sequence/zip.hpp:129-156 | the items of tuples are completed in the order of the events that complete them |
| ZipProtocol.DrainedStaysEmpty | source/sio/sequence/zip.hpp:69-104 | once a drain has run the queues stay empty and the counter stays 0 for the rest of the run |
| ZipProtocol.DrainKeepsInvIff | source/sio/sequence/zip.hpp:80-92 | a drain keeps every invariant if and only if no activation is in a phase that needs the queue fronts |
| ZipProtocol.StepKeepsInvIff | source/sio/sequence/zip.hpp:69-298 | every step keeps every invariant, except exactly such a drain |
| ZipProtocol.RunKeepsInvIff | source/sio/sequence/zip.hpp:69-298 | the invariant holds at the end of a run if and only if no drain of the run robbed an activation |
| ZipProtocol.RunKeeps | source/sio/sequence/zip.hpp:69-298 | in every run the invariant holds, or a drain has emptied the queues and every invariant but that of the counter holds |
| ZipProtocol.DrainCanRob | source/sio/sequence/zip.hpp:80-92 | a run in which a drain robs an activation, which then waits for a front for ever |
| ZipProtocol.RunsAreBounded | source/sio/sequence/zip.hpp:210-298 | activations and zipped operations take at most ten steps for each item that arrives |
| ZipProtocol.EndOfRun | source/sio/sequence/zip.hpp:69-298 | when any run can go on only with an item, a stop request or a drain, the items of every tuple were completed exactly once, and every activation has returned if and only if no drain robbed one; those left are robbed ones |
| ZipProtocol.EndOfStopFreeRun | source/sio/sequence/zip.hpp:210-298 | in a stop-free run, moreover, the tuples are as many as the items of the slowest child, and each was handed down |
| ZipProtocol.DownstreamOrderIff | source/sio/sequence/zip.hpp:272-296 | tuples reach the downstream receiver in order if and only if every start takes the oldest tuple waiting |
| ZipProtocol.OldestIsNext | source/sio/sequence/zip.hpp:272-285 | while the order has been kept, the next tuple due is the oldest one waiting |
| ZipProtocol.SerialAssembliesKeepOrder | source/sio/sequence/zip.hpp:272-296 | assemblies run one at a time hand down tuple k as the k-th |
| ZipProtocol.OverlapCanReorder | source/sio/sequence/zip.hpp:252-285 | a run of one child in which tuple 1 is handed down before tuple 0 |
| Zip.Operation.PushBackItem | source/sio/sequence/zip.hpp:69-78 | an arrival is queued, and accepted, unless a stop was requested, and claims an assembly when it makes the last front ready |
| Zip.Operation.CollectResults | source/sio/sequence/zip.hpp:223-233 | phase 1 collects the values of all fronts |
| Zip.Operation.PopFronts | source/sio/sequence/zip.hpp:235-243 | phase 2 pops every front and sets the counter to -1 |
| Zip.Operation.CheckStop | source/sio/sequence/zip.hpp:246-250 | phase 3 completes the popped items when a stop was requested |
| Zip.Operation.CountQueues | source/sio/sequence/zip.hpp:261-262 | the number of nonempty queues |
| Zip.Operation.Recount | source/sio/sequence/zip.hpp:252-270 | phase 4 sets the counter to the number of nonempty queues, or to one less when the next assembly is owed |
| Zip.Operation.Start | source/sio/sequence/zip.hpp:272-285 | phase 5 hands the tuple downstream |
| Zip.Operation.HandOn | source/sio/sequence/zip.hpp:292-296 | phase 6 raises the counter for the owed front and claims the next assembly |
| Zip.Operation.Finish | source/sio/sequence/zip.hpp:149-151 | the zipped operation completes its items |
| Zip.Operation.ClearQueues | source/sio/sequence/zip.hpp:82-103 | a drain takes the queues away and completes their items queue by queue, in order; the invariant survives if and only if no activation needs the fronts |
| Zip.Operation.ClearQueue | source/sio/sequence/zip.hpp:95-100 | the loop completes exactly the queued items in queue order |
| Zip.Operation.Assemble | source/sio/sequence/zip.hpp:210-298 | run alone, an elected activation forms tuples from equal places of the queues and hands them down in order until some queue is empty |
| ZipJoinProtocol.OneCompletionAfterAll | source/sio/sequence/zip.hpp:400-446 | at most one completion, only after every child has counted down, and one when all are done |
| ZipJoinProtocol.OutcomeIff | source/sio/sequence/zip.hpp:400-446 | in every run, from how the last child ended and the events before: exactly when it delivers values, when stopped, and when an error and which |
| ZipJoinProtocol.ErrorSurfacesIff | source/sio/sequence/zip.hpp:400-446 | in every run the whole fails if and only if the last child failed, or ended by value with an error noted before and no stop from downstream; it fails with the child's own error or the one noted first |
| ZipJoinProtocol.PunctualErrorSurfacesIff | source/sio/sequence/zip.hpp:106-116 | when every child has noted its error by then, an error noted means just that an error was raised |
| ZipJoinProtocol.StuckMeansCompleted | source/sio/sequence/zip.hpp:400-446 | a run that can go on only with stop requests has completed exactly once |
| ZipJoinProtocol.OvertakenErrorIsLost | source/sio/sequence/zip.hpp:437-443 | a run in which an error is raised and a value completion delivered |
| ZipJoin.Operation.Complete | source/sio/sequence/zip.hpp:400-446 | what the three completions of a child receiver do to the counter, the error slot and the stop flag, and which of values, stopped and error the last of them delivers |
| MutexProtocol.StepKeepsInv | source/sio/async_mutex.hpp:58-78 | every step keeps conservation of requests, mutual exclusion, no lost request, and the fate of nested starts |
| MutexProtocol.CompletedAtMostOnce | source/sio/async_mutex.hpp:58-78 | in every run no request is completed twice, and a completed one was pushed and is no longer queued |
| MutexProtocol.OneCompletionAtATime | source/sio/async_mutex.hpp:62-70 | while a completion runs no other activation holds the lock |
| MutexProtocol.NestedStartReturns | source/sio/async_mutex.hpp:60-63 | a start() made inside a completion loses the exchange and returns without completing anything, while that completion still runs |
| MutexProtocol.AllReturnedMeansAllCompleted | source/sio/async_mutex.hpp:58-78 | when every activation has returned the lock is free and every request was completed exactly once |
| MutexProtocol.EveryStepDescends | source/sio/async_mutex.hpp:62-77 | every step lowers the measure: requests not pushed, requests inflight, ranks of the activations |
| MutexProtocol.EveryRunEnds | source/sio/async_mutex.hpp:62-77 | there is no endless run |
| MutexProtocol.SomeoneCanMove | source/sio/async_mutex.hpp:58-78 | an activation under way can move, or one nested in it can |
| MutexProtocol.StuckMeansAllCompleted | source/sio/async_mutex.hpp:58-78 | a run that cannot go on has completed every request once and left the lock free |
| AsyncMutex.Mutex.PushFront | source/sio/async_mutex.hpp:59-60 | the request joins the inflight queue |
| AsyncMutex.Mutex.CompareExchange | source/sio/async_mutex.hpp:61-63 | the exchange takes the lock if it was free |
| AsyncMutex.Mutex.PopAll | source/sio/async_mutex.hpp:64-70 | the whole queue becomes the local batch |
| AsyncMutex.Mutex.Release | source/sio/async_mutex.hpp:72-73 | the lock is released |
| AsyncMutex.Mutex.Recheck | source/sio/async_mutex.hpp:74-76 | the loop goes round again if the queue is not empty |
| AsyncMutex.Mutex.DrainBatches | source/sio/async_mutex.hpp:64-71 | the inner loops keep every request and end without a batch |
| AsyncMutex.Mutex.Start | source/sio/async_mutex.hpp:58-78 | run alone: returns at once if the lock is held; otherwise every inflight request and its own are completed once, the queue is empty and the lock free |
| ForkProtocol.JoinWithoutOutsideStop | source/sio/sequence/fork.hpp:83-139 | the counter is the source, if open, plus the items admitted and not released; completion comes if and only if all are released, with every item operation deallocated once |
| ForkProtocol.CompletesAtMostOnce | source/sio/sequence/fork.hpp:135-139 | in every run, outside stop included, at most one completion, and it has begun exactly when the counter is not positive |
| ForkProtocol.CounterNeverRecovers | source/sio/sequence/fork.hpp:83-92 | once the counter is 0 or below it is never positive again |
| ForkProtocol.CompletionIsJoinIff | source/sio/sequence/fork.hpp:135-156 | the completing step of a run leaves no count outstanding if and only if the stop callback took none while the operation was live, and at most one otherwise |
| ForkProtocol.DeliversWhatIsOwedIff | source/sio/sequence/fork.hpp:94-133 | in every run complete() delivers the stop, error or value owed if and only if the source was stopped or no actor is still writing the error slot |
| ForkProtocol.StuckMeansCompleted | source/sio/sequence/fork.hpp:83-156 | a run that can go on only with a first stop request has completed exactly once |
| ForkProtocol.OutsideStopCompletesEarly | source/sio/sequence/fork.hpp:152-156 | a run that completes while the source is open |
| ForkProtocol.OutsideStopFindsHalfWritten | source/sio/sequence/fork.hpp:94-103 | a run in which complete() loads the half-written state and the error is lost |
| ForkProtocol.OutcomeWithoutOutsideStop | source/sio/sequence/fork.hpp:94-133 | a stopped source wins over any error; otherwise the error of the first compare-exchange; otherwise values |
| ForkProtocol.NeverHalfWritten | source/sio/sequence/fork.hpp:122-133 | without an outside stop complete() never loads state 1, and the error it delivers is there |
| ForkProtocol.OutcomeIff | source/sio/sequence/fork.hpp:337-347 | without an outside stop the whole ends stopped if and only if the source did, and otherwise with an error, one that a child ended with, if and only if some child did |
| ForkProtocol.ItemRunsIff | source/sio/sequence/fork.hpp:270-287 | in every run an allocated item operation is running or ran to its end if and only if no stop had been requested when it was allocated; in a completed run without a stop all of them ran to their end |
| ForkProtocol.NewOperationRunsIff | source/sio/sequence/fork.hpp:270-276 | in every run an item operation that is allocated next runs if no stop was requested before, and is deleted otherwise |
| ForkProtocol.StopsIff | source/sio/sequence/fork.hpp:141-156 | a stop is requested in a run only when a child ended otherwise than by value or the receiver asked for it, and always by the time all actors are over |
| ForkProtocol.DeclinesIff | source/sio/sequence/fork.hpp:401-412 | start() sends a stopped completion and starts nothing if and only if a stop was requested before its test |
| ForkProtocol.CounterIsExact | source/sio/sequence/fork.hpp:83-156 | in every run the counter is the source and the items admitted, less one if the stop callback took a count, less one for each item that was turned away and has left |
| ForkProtocol.StepKeepsInv | source/sio/sequence/fork.hpp:83-156 | every step keeps the counter, single completion, slot, operation and admission invariants |
| Fork.Operation.Arm | source/sio/sequence/fork.hpp:402-404 | start() registers the stop callback before the counter is set |
| Fork.Operation.CheckStop | source/sio/sequence/fork.hpp:405-411 | start() completes as stopped when a stop came first, and goes on otherwise |
| Fork.Operation.StoreOne | source/sio/sequence/fork.hpp:409-410 | the counter is set to 1 and the source started |
| Fork.Operation.OutsideDrop | source/sio/sequence/fork.hpp:153-156 | the stop callback takes a count, and completes if it was the last |
| Fork.Operation.TryIncrease | source/sio/sequence/fork.hpp:83-92 | one turn of increase_ref, spurious failures of the weak exchange included: admitted, refused by 0, or tried again with the value seen |
| Fork.Operation.IncreaseRef | source/sio/sequence/fork.hpp:83-92 | with any number of spurious failures the loop ends; refused by 0 and by nothing else |
| Fork.Operation.NewOperation | source/sio/sequence/fork.hpp:270-276 | an allocated item operation runs; after a stop request it is deleted instead |
| Fork.Operation.DeleteOperation | source/sio/sequence/fork.hpp:256-268 | an item operation is deallocated and its count released next |
| Fork.Operation.RecordError | source/sio/sequence/fork.hpp:94-103 | the first error is recorded, later ones change nothing |
| Fork.Operation.SetError | source/sio/sequence/fork.hpp:337-341 | error, stop and release in one: the slot, the counter and what is delivered |
| Fork.Operation.DecreaseRef | source/sio/sequence/fork.hpp:135-139 | one count less; the holder of the last one completes |
| Fork.Operation.Deliver | source/sio/sequence/fork.hpp:122-133 | the completion chosen by the completion type |
| MergeProtocol.OneCompletionAfterAll | source/sio/sequence/merge_each.hpp:62-72 | at most one completion, after all N children, and one when all are done |
| MergeProtocol.OutcomeIff | source/sio/sequence/merge_each.hpp:83-94 | the completion is an error if and only if some child raised one, and then that of the first compare-exchange |
| MergeProtocol.StopsIff | source/sio/sequence/merge_each.hpp:74-94 | while all children end by value no stop is requested and none is on its way to it; when all are done a stop was requested if and only if some child ended stopped or with an error |
| MergeProtocol.EveryChildEndedOnce | source/sio/sequence/merge_each.hpp:62-94 | a completion comes only after every child ran and ended, once |
| MergeProtocol.NeverHalfWritten | source/sio/sequence/merge_each.hpp:64-70 | in every run the child that delivers finds the slot whole and delivers the error of the first compare-exchange, or values |
| MergeProtocol.StuckMeansCompleted | source/sio/sequence/merge_each.hpp:62-94 | a run that cannot go on has completed exactly once |
| MergeProtocol.RunsAreBounded | source/sio/sequence/merge_each.hpp:62-94 | a run of N children has at most 8 N steps |
| MergeProtocol.StepKeepsInv | source/sio/sequence/merge_each.hpp:62-94 | every step keeps the countdown, the slot and the outcome |
| MergeEach.Operation.Complete | source/sio/sequence/merge_each.hpp:62-72 | the last child delivers the winner's error or values |
| MergeEach.Operation.SetValue | source/sio/sequence/merge_each.hpp:74-76 | a child that ends by value counts down, and delivers if it is the last; it requests no stop and leaves the error slot alone |
| MergeEach.Operation.SetStopped | source/sio/sequence/merge_each.hpp:78-81 | the same, with a stop requested of the others |
| MergeEach.Operation.SetError | source/sio/sequence/merge_each.hpp:83-94 | the first error takes the slot, later ones leave it; the last child then always delivers an error |
| MergeEach.Operation.CompareExchange | source/sio/sequence/merge_each.hpp:87-88 | only one child wins the slot |
| PoolProtocol.BlocksAreInOnePlace | source/sio/memory_pool.hpp:230-256 | in every run a block is with a client or at one position of the free list its header names |
| PoolProtocol.CompletionsOfAnOperation | source/sio/memory_pool.hpp:111-126 | in every run an operation waits in its class, or completed once with a block of its class, or once as stopped if it was cancelled while waiting, or both ways if its stop came after it was served |
| PoolProtocol.ExactlyOnceIff | source/sio/memory_pool.hpp:314-322 | every operation of a run waits or has completed exactly once if and only if no stop callback got the mutex after its operation was served |
| PoolProtocol.LateStopCompletesTwice | source/sio/memory_pool.cpp:70-75 | a run in which an operation completes with a block and as stopped |
| PoolProtocol.DisarmEndsLateStops | source/sio/memory_pool.hpp:112-114 | once a served operation has reset its stop callback no stop comes late to it |
| PoolProtocol.WaitersAreServedInOrder | source/sio/memory_pool.cpp:70-80 | nobody waits beside a free block; what queued in a class, less the cancelled, is what was served followed by what waits |
| PoolProtocol.CancelLeavesTheRest | source/sio/memory_pool.hpp:314-322 | stopping a waiter leaves the order of all others, and every block where it is |
| PoolProtocol.ObtainedIsThePeak | source/sio/memory_pool.hpp:234-243 | the blocks of a class ever obtained from upstream are as many as were in use at the peak |
| PoolProtocol.LastReturnedIsFirstReused | source/sio/memory_pool.cpp:76-79 | the block given back last is handed out first, and that undoes the giving back |
| PoolProtocol.DestructorReturnsFreeBlocksOnce | source/sio/memory_pool.cpp:38-48 | the destructor returns every block no client holds, once, with the size of its class |
| PoolProtocol.StepKeepsInv | source/sio/memory_pool.hpp:230-256 | every critical section keeps ownership, order and the record of completions |
| MemoryPool.Pool.Start | source/sio/memory_pool.hpp:230-256 | gives the client the head of the free list, or asks upstream for a block of the size of its class, or waits at the end of the queue; a block given is held by this operation and by no other |
| MemoryPool.Pool.ReclaimMemory | source/sio/memory_pool.cpp:62-81 | the block goes to the longest waiter of its class, which completes and resets its stop callback, or to the front of its free list; null changes nothing |
| MemoryPool.Pool.TakeBack | source/sio/memory_pool.cpp:69-79 | the critical section alone: the waiter it serves has left the queue with the links it had at the front |
| MemoryPool.Pool.OnReceiverStop | source/sio/memory_pool.hpp:314-322 | an operation that still waits is unlinked from wherever it waits |
| MemoryPool.Pool.OnLateStop | source/sio/memory_pool.hpp:314-322 | an operation that was served already is unlinked once more; while the queue is as it left it, the queue stays intact and the operation completes a second time |
| MemoryPool.Pool.Destroy | source/sio/memory_pool.cpp:38-48 | the walk over the 32 lists returns their blocks list by list, each read before it is returned |
| Log2.Log2Of64 | source/sio/memory_pool.cpp:20-28 | for every nonzero 64-bit word the floor of its binary logarithm; 63 for 0 |
| Log2.SmearDown | source/sio/memory_pool.cpp:21-26 | the shifts fill every bit below the highest one |
| Log2.FloorOfPower | source/sio/memory_pool.cpp:15-18 | the table and the multiplier give the exponent of every power of two |
| Log2.FloorInNumbers | source/sio/memory_pool.cpp:20-28 | as numbers: 2^log2 <= v < 2^(log2 + 1) |
| SizeClass.ClassOf | source/sio/memory_pool.cpp:50-56 | the class of a request, or a refusal |
| SizeClass.AcceptedIff | source/sio/memory_pool.cpp:50-56 | a size is accepted if and only if its sum with the header, in a machine word, is neither 0 nor 2^32 or more |
| SizeClass.BlockCoversRequestIff | source/sio/memory_pool.hpp:237 | the block strictly covers size and header and is at most twice that if and only if the sum does not wrap and the class is at most 29 |
| SizeClass.WrappedRequest | source/sio/memory_pool.cpp:50-56 | a size whose sum wraps and that gets a block of 16 bytes |
| SizeClass.ClassThirtyRequest | source/sio/memory_pool.hpp:237 | a size of class 30, for which 2^64 - 2^31 bytes are asked |
| IntrusiveList.List.PushBack | source/sio/intrusive_list.hpp:113-122 | append |
| IntrusiveList.List.PopFront | source/sio/intrusive_list.hpp:94-102 | removes and returns the first item |
| IntrusiveList.List.Erase | source/sio/intrusive_list.hpp:124-135 | removes an item at any position and leaves the rest in order |
| IntrusiveList.List.ErasePopped | source/sio/intrusive_list.hpp:124-135 | erasing an item that pop_front has taken leaves the list as it was if and only if its old successor is still the first; an item that had none empties a list that has grown since |
| IntrusiveList.NextAndPrevAreInverse | source/sio/intrusive_list.hpp:94-135 | next and prev undo one another, and are null just at the ends |
| IntrusiveList.PushThenErase | source/sio/intrusive_list.hpp:113-135 | erase undoes push_back |
| IntrusiveQueue.Queue.MakeReversed | source/sio/intrusive_queue.hpp:42-56 | the list is reversed in place, keeps its nodes and gets the right tail |
| IntrusiveQueue.Queue.ReverseLinks | source/sio/intrusive_queue.hpp:43-50 | the loop turns the links around |
| IntrusiveQueue.Queue.PopFront | source/sio/intrusive_queue.hpp:66-75 | removes and returns the first item |
| IntrusiveQueue.Queue.PushFront | source/sio/intrusive_queue.hpp:77-83 | prepends an item |
| IntrusiveQueue.Queue.PushBack | source/sio/intrusive_queue.hpp:85-93 | appends an item |
| IntrusiveQueue.Queue.Append | source/sio/intrusive_queue.hpp:95-105 | concatenation, and the other queue is left empty |
| IntrusiveQueue.Queue.Prepend | source/sio/intrusive_queue.hpp:107-119 | concatenation before, and the other queue is left empty |
| IntrusiveQueue.WalkFollowsItems | source/sio/intrusive_queue.hpp:42-56 | k links from the head lead to item k, and to null after the last: the chain has no cycle |
| TransferProtocol.ChunksAreTheData | source/sio/sequence/buffered_sequence.hpp:135-147 | what was moved followed by what is left is the data at all times; a value completion means all was moved and carries the total size |
| TransferProtocol.ChunksAreContiguousIff | source/sio/sequence/buffered_sequence.hpp:67-72 | without a start offset none is passed; with one, all transfers are at contiguous offsets if and only if none used up a whole buffer of a span, so always for a single buffer |
| TransferProtocol.LoopEndsIff | source/sio/sequence/buffered_sequence.hpp:229-240 | for any transfers the loop has ended if and only if the last transfer failed, or all bytes have been moved and the span does not end with an empty buffer |
| TransferProtocol.EmptyLastBufferGoesOn | source/sio/sequence/buffered_sequence.hpp:229-240 | for any number of rounds, an unfinished run of a span that ends with an empty buffer, though every transfer moves what it can |
| TransferProtocol.StalledLoopGoesOn | source/sio/sequence/buffered_sequence.hpp:229-240 | for any number of rounds, an unfinished run of transfers that move nothing, with bytes left; the same bytes stay on offer at the same offset |
| TransferProtocol.TidyLoopEnds | source/sio/sequence/buffered_sequence.hpp:229-240 | if every transfer moves something when there is anything, a span without an empty last buffer takes no more transfers than there are bytes, or one, and is then finished |
| TransferProtocol.FailureSurfaces | source/sio/sequence/last.hpp:114-133 | only the last transfer can fail; the whole then ends with its error, or stopped when a stop was requested |
| TransferProtocol.AdvanceDrops | source/sio/sequence/buffered_sequence.hpp:96-111 | advance(n) drops exactly the first n bytes |
| TransferProtocol.SpanOffsetIff | source/sio/sequence/buffered_sequence.hpp:107-109 | the offset of a span moves by n if and only if no byte goes with a whole buffer |
| TransferProtocol.SpanOffsetExactly | source/sio/sequence/buffered_sequence.hpp:96-111 | the offset of a span moves by n less the bytes of the buffers used up |
| TransferProtocol.OffsetFallsBehind | source/sio/sequence/buffered_sequence.hpp:107-109 | a transfer of two bytes that moves the offset by one |
| TransferLoop.SingleBuffer.Advance | source/sio/sequence/buffered_sequence.hpp:67-72 | drops n bytes, or all, and moves an offset other than -1 by n |
| TransferLoop.BufferSpan.Advance | source/sio/sequence/buffered_sequence.hpp:96-111 | drops n bytes across buffers; of the caller's array only the new front changes, by losing its own front |
| TransferLoop.SpanTransfer.Complete | source/sio/sequence/buffered_sequence.hpp:130-147 | one transfer completes: buffers, offset, sum, result and completion |
| TransferLoop.SpanTransfer.SetStopped | source/sio/sequence/buffered_sequence.hpp:242-244 | stopped if a stop was requested, otherwise the kept result |
| TransferLoop.SpanTransfer.Start | source/sio/sequence/buffered_sequence.hpp:119-147 | watched for any number of rounds against any peer, the loop is the run of the protocol in which the peer answers each round, asked for the bytes left at the offset reached; it is unfinished only when the rounds are used up |
| TransferLoop.AnswersAreUnique | source/sio/sequence/buffered_sequence.hpp:119-147 | the answers of a peer determine the run |
| TransferLoop.Reduce | source/sio/sequence/reduce.hpp:25-31 | for the rounds the peer answers: the bytes moved are the first ones, in order; there is a result if and only if the last round failed or all bytes of a span without an empty last buffer were moved, and it is that failure or the total; if the peer always moves something, as many rounds as bytes are enough |
| Subspan.BufferSize | source/sio/const_buffer_span.cpp:105-119 | the number of bytes the subspan denotes |
| Subspan.WholeDenotesAll | source/sio/const_buffer_span.cpp:19-26 | the subspan of a whole span denotes all its bytes |
| Subspan.FindBufferIndexForN | source/sio/const_buffer_span.cpp:91-102 | the first buffer in which n bytes end, or the last, and how many of them it holds |
| Subspan.Prefix | source/sio/const_buffer_span.cpp:121-133 | the method computes the prefix function |
| Subspan.PrefixIff | source/sio/const_buffer_span.cpp:121-133 | prefix(n) denotes the first min(n, size) bytes if and only if n is within the size, or the last of at least two buffers is used whole |
| Subspan.PrefixExactly | source/sio/const_buffer_span.cpp:91-133 | what prefix(n) denotes for every n: n bytes as far as the last buffer goes, or the read of no buffers; no needless buffer |
| Subspan.PrefixIsTake | source/sio/const_buffer_span.cpp:121-133 | for n up to the size, read buffer by buffer, prefix(n) shows the first n bytes |
| Subspan.PrefixBeyondTheSubspan | source/sio/const_buffer_span.cpp:125-131 | inputs for which prefix shows foreign bytes, or looks for the last of no buffers |
| Subspan.Suffix | source/sio/const_buffer_span.cpp:135-167 | the loop computes the suffix function, machine-word subtraction included |
| Subspan.SuffixRight | source/sio/const_buffer_span.cpp:135-167 | suffix(n) denotes the last min(n, size) bytes, for any n, for at most two buffers and for the even shape |
| Subspan.SuffixRightIff | source/sio/const_buffer_span.cpp:150-166 | of three or more buffers suffix is right for every n up to the size if and only if they have the suffix shape, empty buffers included |
| Subspan.SuffixExactly | source/sio/const_buffer_span.cpp:150-166 | what suffix(n) is for any buffers, right or wrong: where its loop stops and what it then returns |
| Subspan.ShapeOfNonEmpty | source/sio/const_buffer_span.cpp:150-166 | for buffers that are not empty that is: all between are as long as the first, and so is what is used of the last |
| Subspan.UnevenSuffixFails | source/sio/const_buffer_span.cpp:153-157 | an input for which suffix shows the wrong bytes |
| Subspan.SuffixIsDrop | source/sio/const_buffer_span.cpp:135-167 | in the right shapes, read buffer by buffer, suffix(n) shows the last n bytes |
| Subspan.PrefixThenSuffix | source/sio/const_buffer_span.cpp:121-167 | prefix(k) followed by suffix(total - k) is the whole |

## Left out

- Weak memory orders, exceptions while senders or results are built, and the lifetime of an operation after its
  own completion has destroyed it.
- `zip`: arrivals split between the push and the readiness test; what the source does once it reads a front that a
  drain took away; whether an item is completed by value or as stopped; item values that throw.
- TransferLoop.SpanTransfer.Start: the class runs spans; the loop over a single buffer is part of TransferProtocol.
  Sums and offsets are unbounded integers, and the source does not count rounds.
- PoolProtocol.ExactlyOnceIff: a late stop that damages a queue, as under OnLateStop below, is no event of its runs.
- MemoryPool.Pool.OnLateStop: only while the first waiter is the one the served operation left behind. Otherwise the
  second unlinking damages the queue, exactly as `ErasePopped` says, and what the pool does from there on is not
  modelled.
- MemoryPool.Pool.OnReceiverStop: a callback that fires while it is being installed finds the pool's mutex taken by its
  own thread; that is not modelled.
- SizeClass.ClassOf: the alignment argument, which the source ignores, and the second call of `do_allocate` in
  `memory_resource::allocate`.
- MemoryPool.Pool.Start: the exception alternative of the result is not modelled; nothing in the modelled code sets it.
- `intrusive_list::push_front`, `append` and `prepend`, which do not maintain the prev links and are not used by the modelled code.
- `mutable_buffer_span`, a textual twin of `const_buffer_span`; dereferencing subspan iterators.
- io_uring, sockets, files, addresses, `async_channel`, `first`, `tap`, `finally`, `repeat`, `deferred`, `with_env` and the stdexec machinery.
