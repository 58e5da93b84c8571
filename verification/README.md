# Verified models of the ws-deque protocols

ws-deque is a family of lock-free work-stealing queues, two schedulers built on them and a
determinacy-race analyser. This project models each of them in Dafny and proves what its code is for:
that no element is lost or handed out twice, that no freed memory is read, that no worker sleeps
through work or leaves before it is done, and that an empty race report means a deterministic program.

## How the concurrency is modelled

Each protocol is a state machine. A step is one atomic access to shared memory (a load, store,
read-modify-write or CAS, one lock operation, or one message), every thread has a program counter, and
the step functions follow the branches of the source. Accesses to memory that only one thread can see
at that point are folded into the step they precede or follow. Any number of threads interleave freely,
so a theorem about `Reachable` states, or about all `Run`s, speaks about every interleaving of every
number of operations. Steps are sequentially consistent.

Fields named `hist`, `created`, `ran`, `claims`, `taken`, `got`, `won`, `took`, `maxHead`, `back`, `puts`
and `dropped` record what happened. No branch of a step depends on them; some of them serve as a source of
fresh names, because elements are named by the order in which they were put. Cells hold those names, so
what a thread returns is what it really read from its cell.

The modules:

| files | source | what is modelled |
|---|---|---|
| `ChaseLev`, `ChaseLevSafety`, `ChaseLevTheorems`, `ChaseLevCalls` | `src/lib.rs`, `src/inline.rs` | owner and thieves on a cyclic buffer that grows and shrinks, with the `in_flight` reclamation of the boxed deque and the retained buffers of the inline one |
| `Isize`, `Wrapped`, `WrappedSafety`, `WrappedTheorems`, `WrappedBounds` | `src/lib.rs`, `src/inline.rs` | the same machine with 64-bit wrapping indices and masked cells, and the simulation between the two |
| `Worker` | `src/lib.rs` | the owner's operations between thief steps as a class over real arrays with wrapping indices, refining a plain sequence |
| `RaceTree`, `RaceReport`, `RaceDetect`, `Determinacy`, `RaceVisible` | `src/race.rs` | the two numberings, what a report should say, the detector with its loops, what an empty report means for every schedule, and which races can be seen |
| `Bwos`, `BwosSafety`, `BwosTheorems`, `BwosFrontier`, `BwosList`, `BwosCursor`, `BwosAhead`, `BwosCalls`, `BwosOwner` | `src/bwos.rs` | block-based stealing, growable and bounded; the stealers' cursors; what every call answers under interference |
| `Scheduler`, `SchedulerSafety`, `SchedulerTheorems`, `SchedulerCalls`, `SchedulerProgress`, `Hypercube` | `src/scheduler.rs` | worker loops, task accounting, termination, park and wake, spawning, and that all work can always be finished; the lifeline graph |
| `Jiffy`, `JiffySafety`, `JiffyTheorems`, `JiffyCalls` | `src/jiffy.rs` | the multi-producer inbox over a linked chain of buffers |
| `Deliveries`, `WsMult`, `WsMultSafety`, `WsMultTheorems`, `WsMultOrder`, `WsMultCalls` | `src/idempotent.rs` | stealing with multiplicity over a growable array, with strong, exclusive and weak thieves |
| `Linked`, `LinkedTheorems`, `LinkedCalls` | `src/linked.rs` | the same contract over a linked list of nodes |
| `Distributed`, `DistributedSafety`, `DistributedTheorems`, `DistributedProgress` | `src/distributed.rs` | message-passing stealing |
| `Numbers`, `Runs` | | shared facts about counting, cyclic positions and runs |

In each group the first module holds the machine and its invariant, `…Safety` shows that every step
keeps the invariant, and `…Theorems` draws the conclusions about whole runs. `…Calls` and `BwosOwner` say what
a whole call answers, from its first step to its return with everybody else at work in between, and that it
ends; `…Progress` leads any reachable state to the end of all work.

## Where the code does not do what its comments say

- Bounded BWoS (`src/bwos.rs:209-219`) resets `bottom` to 0 when it advances, without looking at
  `stolen` of the block it enters. `BwosTheorems.BoundedCanLose` is a run of one owner alone in which a
  value vanishes and `produced_blocks` goes down, although the comment at `src/bwos.rs:135-138` calls it
  monotone. `BwosTheorems.BoundedLosesNothingIff` gives the exact condition for nothing to be lost,
  `BwosFrontier.ProducedFallsIff` the exact steps at which `produced_blocks` goes down, and
  `BwosFrontier.CleanRunsOnlyProduce` shows that it never does while every advance finds `stolen == 0`.
- `steal_batch_and_pop` (`src/lib.rs:701-742`) says in its first paragraphs that it claims the batch with
  one CAS; its implementation note and its code loop over single steals. The model follows the code.
- The comment at `src/idempotent.rs:106-107` says that `head` only ever moves forward. `WeakStealer`
  (`src/idempotent.rs:446-456`) can move it backwards: `WsMultTheorems.HeadCanGoBack` is a run in which it
  does, and `WsMultTheorems.HeadFallsIff` gives the exact steps at which it does. Then the bound of one
  delivery per consumer (`src/idempotent.rs:15-25`) fails of the owner and of plain steals:
  `WsMultTheorems.TakeCanRepeat` is a run in which the owner takes a task twice. `WsMultOrder.RepeatsIff` says
  exactly in which runs a consumer is given a task again, `WsMultOrder.OrderBreaksIff` exactly in which runs its
  indices fail to increase, and `WsMultOrder.CallKeepsOrderIff` exactly which calls keep them increasing.
- `src/bwos.rs:622-633` says that the unbounded queue frees every block when it is dropped. It frees those on
  the `next` chain from the head (`BwosList.Drop`), which are all of them exactly when no `put` linked a fresh
  block over an older one (`BwosList.DropFreesAllIff`); `BwosList.DropCanLeak` is a run in which they are not.
- The comment at `src/bwos.rs:797-798` says that a stealer's cursor is always at or behind the front, and the
  one at `src/bwos.rs:858` that a block walked past is drained for good. Neither holds.
  `BwosCursor.CursorCanMiss` is a run after which a stealer stands on a block cut off from the chain and sees
  an empty queue that is not empty. `BwosAhead.CursorCanOvertake` is a run in which no block is cut off, and a
  stealer walks past a block that was filled since it looked, for good. `BwosCursor.CursorSeesFrontIff` says
  exactly when a steal from a cursor meets the front of the queue, and `BwosAhead.GetsAheadIff` exactly at which
  steps a cursor at or behind the front gets ahead of it.
- `src/race.rs:13-17` calls every pair of parallel accesses with a write a determinacy race. The detector reports
  exactly those, and an empty report means that all schedules agree (`Determinacy.EmptyReportMeansDeterminate`),
  but not the other way round: `RaceVisible.WriteRaceCanHide` is a computation with a report whose schedules
  all agree, because the two writes are overwritten before anybody looks. `RaceVisible.DeterminateIff` gives the
  exact condition, and `RaceVisible.ReadRaceShows` shows that a reported race with a read is never hidden.

## Model

| member | source | states |
|---|---|---|
| `ChaseLevTheorems.ExactlyOnce` | src/lib.rs:464-646 | in every reachable state, for each element: it is in the deque, secured by the owner's running pop, or handed out, in one of these places, once; nothing not pushed is anywhere |
| `ChaseLevTheorems.WinningClaimIsFresh` | src/lib.rs:607-646 | a thief whose CAS on `top` is about to succeed holds the element pushed at that logical index, through whichever buffer and however long ago it read it |
| `ChaseLevTheorems.PopHoldsElement` | src/lib.rs:532-572 | the owner's pop, including the one without a CAS, never returns through an empty cell |
| `ChaseLevTheorems.MemorySafe` | src/lib.rs:271-303 | every buffer is in exactly one of active, in hand, retired, freed; it is freed at most once; no thief in its critical section holds a freed one |
| `ChaseLevTheorems.ResizeAssertionHolds` | src/lib.rs:209-212 | the assertion that a resize leaves a spare cell holds for every grow and shrink |
| `ChaseLevTheorems.RunLinearises` | src/lib.rs:464-646 | each step of a run performs at most one operation of the sequential double-ended queue, and a legal one: push and pop at the young end, steal at the old end; the calls these belong to are the next rows |
| `ChaseLevCalls.PushCall` | src/lib.rs:464-501 | a completed push performs exactly one operation inside its interval: it adds its element at the young end |
| `ChaseLevCalls.PopCall` | src/lib.rs:530-573 | a completed pop that returns an element performs exactly one operation inside its interval, the removal of that element from the young end; one that returns `None` performs none, and the deque was empty inside its interval |
| `ChaseLevCalls.StealCall` | src/lib.rs:607-646 | a completed steal performs at most one operation inside its interval: on `Success` the removal of the element it returns from the old end; on `Retry` none, and `top` has moved since it was read; on `Empty` none, and at most one element was left, which a running pop had lowered `bottom` past |
| `ChaseLevCalls.NoneArmsWhileLowered` | src/lib.rs:532-540 | while a pop has `bottom` lowered past the last element, no thief that has yet to look at `bottom` goes on to take it |
| `ChaseLevCalls.EmptyFitsIn` | src/lib.rs:530-646 | the place of an `Empty` answer that passes over the last element in the sequential order: until the next operation that element is all there is, the next operation removes it, and it belongs to the owner's pop or to another thief's steal whose call is under way from before the answer until then; so that removal can be ordered just before the answer |
| `ChaseLevCalls.CallsEnd` | src/lib.rs:464-646 | wait-freedom: each step of a push, pop or steal of its own lowers a fixed bound on the steps left, and no step of anybody else sets it back |
| `ChaseLevCalls.NobodyWaits` | src/lib.rs:464-646 | an idle owner may push or pop at any time, a call under way may go on, and so may every thief |
| `ChaseLevCalls.GrowsWhenFull` | src/lib.rs:464-501 | a push that looks at `top` grows the buffer, to twice its capacity, exactly when the deque is full; one that relies on the cached `top` has room |
| `ChaseLevCalls.ShrinksWhenSparse` | src/lib.rs:445-461 | a pop shrinks the buffer exactly when what it saw left is below a third of the capacity, to half but not below 16 |
| `ChaseLevTheorems.EmptyStealIsHonest` | src/lib.rs:613-616 | a steal answering `Empty` missed at most one element, and only one an owner's pop is already racing for |
| `ChaseLevTheorems.EmptyPopIsHonest` | src/lib.rs:540-572 | a pop answering `None` found the deque empty when it read `top`, or lost the last element to a thief |
| `ChaseLevTheorems.Drop` | src/lib.rs:306-338 | dropping a quiet deque frees exactly the live elements, and then every buffer ever allocated has been freed exactly once; an inline deque frees its buffers only |
| `ChaseLevTheorems.DropElements` | src/lib.rs:317-324 | the element loop visits each live cell once, oldest first |
| `ChaseLev.ResizedKeeps` | src/lib.rs:209-219 | a grown or shrunk buffer answers every live logical index as the old one did, although positions are taken modulo a new capacity |
| `ChaseLev.WriteHits` | src/lib.rs:185-194 | storing at one logical index changes no other index within a capacity of it |
| `ChaseLevTheorems.ReclaimHarmsNobody` | src/lib.rs:271-283 | `in_flight` counts the thieves inside their section; when it reads 0 no thief holds any buffer, and until the retired list is freed no thief comes to hold one of its buffers; an inline deque never frees |
| `WrappedSafety.StepAgrees` | src/lib.rs:464-646 | a step of the 64-bit machine equals, up to truncation, the step of the unbounded one: every wrapping-difference test, CAS and masked cell agrees |
| `WrappedSafety.CacheKept` | src/lib.rs:469-478 | the stale `cached_top` never falls behind far enough for its wrapping difference to overflow |
| `WrappedSafety.PowersKept` | src/lib.rs:445-501 | growing and shrinking keep every capacity a power of two, which masking relies on |
| `WrappedTheorems.Simulates` | src/lib.rs:464-646 | every run of the 64-bit machine mirrors a run of the unbounded machine with the same steps, as long as no buffer outgrows 2^61 cells and no steal is outlasted by a wrap-around |
| `WrappedTheorems.WrappedExactlyOnce` | src/inline.rs:226-350 | within those bounds, in every state of every run of the 64-bit deque, boxed or inline, each element is in the deque, secured by the owner's pop, or handed out, in one of these places, once: nothing lost, nothing doubled |
| `WrappedTheorems.WrappedContentsReadable` | src/inline.rs:88-106 | every element in the deque is found at its wrapped and masked cell of the active buffer |
| `WrappedTheorems.WrappedMemorySafe` | src/lib.rs:271-303 | on the 64-bit deque each buffer is active, in hand, retired or freed, once, and no thief about to read a buffer holds a freed one |
| `WrappedBounds.BriefIsWithinBounds` | src/lib.rs:607-646 | the bounds hold of every 64-bit run in which no buffer outgrows 2^61 cells and no thief lets `top` advance 2^62 times before it looks at `bottom`, or 2^64 times before its CAS |
| `WrappedTheorems.SizeStaysBelowCapacity` | src/lib.rs:445-573 | in every state of a 64-bit run, also inside a push, a grow or a shrink, `0 <= size <= cap - 1` in wrapping arithmetic; only while a pop has `bottom` lowered can the size be -1 |
| `Isize.WrapDistance` | src/lib.rs:480-483 | the wrapping difference of two wrapped indices is their true difference whenever that fits |
| `Isize.SlotOfWrap` | src/lib.rs:185-188 | masking a wrapped index picks the cell of the unbounded index, across the wrap-around |
| `Isize.WrapInjective` | src/lib.rs:635-638 | a CAS on a wrapped index can be fooled only by a whole wrap-around |
| `SequentialWorker.CopyLive` | src/lib.rs:209-219 | the copy loop fills a new array with the live cells, by count, also when the indices wrap |
| `SequentialWorker.Worker.WithStartIndex` | src/lib.rs:389-398 | an empty deque at any start index, also next to the wrap-around |
| `SequentialWorker.Worker.Push` | src/lib.rs:464-501 | appends at the young end for every start index, doubling the buffer exactly when it is full |
| `SequentialWorker.Worker.PopLifo` | src/lib.rs:530-573 | takes the youngest element or nothing, and shrinks exactly when `perhaps_shrink` should |
| `SequentialWorker.Worker.PerhapsShrink` | src/lib.rs:445-461 | shrinking keeps the contents; the capacity becomes the one the rule prescribes |
| `SequentialWorker.Worker.StealTop` | src/lib.rs:514-527 | a steal, and so a FIFO pop, takes the oldest element |
| `SequentialWorker.Worker.StealBatchAndPop` | src/lib.rs:717-742 | returns the oldest element, moves the rest of the older half to the destination in order, keeps the younger half |
| `SequentialWorker.Worker.RetireAndReclaim` | src/lib.rs:271-303 | with a thief inside its section nothing is freed and the swapped-out buffer joins the list; otherwise it and every buffer on the list are freed, each exactly once, and no buffer is ever in two of the places active, retired, freed |
| `RaceTree.OrdersDisagree` | src/race.rs:8-29 | the SP-order theorem: the English and Hebrew orders of two strands disagree exactly when their lowest common ancestor is a parallel node; Hebrew ranks are distinct |
| `RaceTree.AssignEnglish` | src/race.rs:189-205 | numbers the strands left to right, one record each, in place |
| `RaceTree.HebrewWalk` | src/race.rs:221-258 | writes each strand's Hebrew rank into its own record, touches no record outside the subtree's English interval, and moves both counters by the number of strands |
| `RaceTree.ChildBases` | src/race.rs:243-248 | the precomputed bases are the English indices of the children's first strands |
| `RaceDetect.RacesAtLocation` | src/race.rs:286-309 | the races and the conflicting pairs of accesses to the location match one to one, and each race names the strands of its pair in order and says of each whether it writes |
| `RaceDetect.GroupByLocation` | src/race.rs:268-275 | the map holds each location's accesses in program order and no other location |
| `RaceDetect.FindRaces` | src/race.rs:267-282 | whatever order the map is walked in, the races of the report and the conflicting pairs match one to one, each race with the location, strands and write flags of its pair |
| `RaceDetect.LabelStrands` | src/race.rs:150-166 | the two passes leave every strand with its English and Hebrew rank |
| `RaceDetect.DetectRaces` | src/race.rs:150-171 | the races of the report and the pairs of logically parallel accesses to one location with a write match one to one; each race has the location, the strand and the write flag of the earlier access, then those of the later |
| `RaceReport.AllRacesMatch` | src/race.rs:286-309 | a report with the right multiset of races matches the conflicting pairs, in whatever order the races come |
| `RaceDetect.ConflictIsRacing` | src/race.rs:261-263 | comparing ranks finds a conflict exactly when the accesses share a location, one writes, and their strands are logically parallel |
| `RaceDetect.ReportSound` | src/race.rs:286-309 | every reported race is that of two conflicting accesses, with their location, strands and write flags in order |
| `RaceDetect.ReportComplete` | src/race.rs:286-309 | for every two conflicting accesses a race with their location, strands and write flags is reported |
| `RaceDetect.EmptyReport` | src/race.rs:147-149 | the report is empty exactly when no two accesses race |
| `Determinacy.EmptyReportMeansDeterminate` | src/race.rs:147-149 | if the report is empty, any two schedules that respect the series-parallel order make every access see the same value and leave the same memory, whatever the strands compute from what they read |
| `Determinacy.CertainMeansDeterminate` | src/race.rs:13-17 | it is enough that each read is ordered with the writes to its location and that, before each read and at the end, one of the writes is the latest |
| `Determinacy.SameLastWrite` | src/race.rs:13-17 | under that condition, and so without races, a read and the final memory see the same last write in every schedule |
| `RaceVisible.DeterminateIff` | src/race.rs:13-17 | that condition is exact: it holds if and only if no two schedules differ in what an access sees or in the memory they leave, for the program whose writes leave their own names |
| `RaceVisible.UncertainShows` | src/race.rs:13-17 | where it fails there are two schedules, each of the whole computation, with different outcomes |
| `RaceVisible.ReadRaceShows` | src/race.rs:286-309 | for every reported race in which one side reads there are two schedules with different outcomes |
| `RaceVisible.WriteRaceCanHide` | src/race.rs:286-309 | a computation with a reported race between writes whose schedules all have the same outcome |
| `Determinacy.ReadsInOrder` | src/race.rs:8-17 | every schedule shows a strand its own reads in program order |
| `Determinacy.SerialIsSchedule` | src/race.rs:13-17 | the serial execution is one of the schedules the theorem ranges over |
| `BwosTheorems.Conserved` | src/bwos.rs:697-863 | under any interleaving, for both kinds of queue: each value put is in some block's live range, handed out, or lost, once; nothing else is handed out |
| `BwosTheorems.UnboundedLosesNothing` | src/bwos.rs:697-784 | the growable queue loses nothing |
| `BwosTheorems.BoundedLosesNothingIff` | src/bwos.rs:201-238 | the bounded queue has lost nothing exactly when every advance so far entered a block with `stolen == 0` |
| `BwosTheorems.BoundedCanLose` | src/bwos.rs:209-219 | a run without thieves in which a put is lost and `produced_blocks` goes down |
| `BwosTheorems.WinnerHoldsItsSlot` | src/bwos.rs:835-846 | a thief whose CAS on `stolen` wins returns the value put at that very slot, while it is still live |
| `BwosTheorems.PopTakesNewest` | src/bwos.rs:733-784 | `pop` takes the newest value in the whole queue, with or without the race for the last slot |
| `BwosOwner.PopCall` | src/bwos.rs:733-784 | a completed pop, from its start to its return with stealers at work, hands out exactly one value, then the newest of the whole queue, and takes it out; or it hands out nothing, and at its answer nothing is in the queue |
| `BwosOwner.PutCall` | src/bwos.rs:201-238 | a completed put is refused, with nothing changed, exactly when the bounded queue has no block left; otherwise it adds exactly one value, in the next slot or at the start of the next block, in the queue unless `stolen` was already past that slot, and hands out nothing |
| `BwosOwner.OwnerIsWaitFree` | src/bwos.rs:697-784 | each step of the owner inside a put or pop lowers a bound on those left, and no stealer raises it |
| `BwosOwner.StealEnds` | src/bwos.rs:823-863 | each step of a steal lowers a bound on those left, and only a put that links a fresh block raises it |
| `BwosOwner.NobodyWaits` | src/bwos.rs:697-863 | an idle owner may put or pop and an idle stealer steal at any time, and a call under way may go on |
| `BwosTheorems.EmptyPopIsHonest` | src/bwos.rs:741-748 | `pop` gives up at a block only when no block holds anything; the whole call is `BwosOwner.PopCall` |
| `BwosTheorems.NextRetracesPrev` | src/bwos.rs:704-715 | blocks off the owner's `prev` chain are drained, and `next` retraces that chain from the head |
| `BwosTheorems.SoloSteal` | src/bwos.rs:334-368 | the walk loop of `steal` from the head, on a queue nobody else is using, finds the oldest value, or nothing only when there is nothing |
| `BwosList.UndisturbedSteal` | src/bwos.rs:823-863 | a fresh thief's steal as steps of the machine, while nobody else moves, hands out the oldest value of the queue and leaves the rest, or answers `Empty` only when there is nothing |
| `BwosList.Drop` | src/bwos.rs:622-633 | dropping the growable list frees exactly the blocks on the `next` chain from the head, each once |
| `BwosList.DropFreesAllIff` | src/bwos.rs:704-709 | that is every block exactly when no `put` of the run linked a fresh block over an older one |
| `BwosList.DropCanLeak` | src/bwos.rs:622-633 | a run after which a block is not on the chain that `drop` frees |
| `BwosCursor.CursorSeesFrontIff` | src/bwos.rs:823-863 | an undisturbed steal from a cursor, as steps of the machine, hands out the oldest value of the queue, or answers `Empty` only when there is nothing, if and only if every block with something to steal lies on the `next` chain from the cursor |
| `BwosCursor.CursorCanMiss` | src/bwos.rs:797-799 | a run after which a stealer's cursor is on a block cut off from the chain, and its steal misses a value that a fresh stealer would find |
| `BwosAhead.GetsAheadIff` | src/bwos.rs:797-859 | in every reachable state, a cursor at or behind the front gets ahead of it exactly at its own walk past a block put into since it looked, at a publish into a block the chain from the cursor does not reach, or at a fresh block linked over a `next` on the way to it |
| `BwosAhead.BehindUntilOvertaken` | src/bwos.rs:797-799 | a handle that none of these steps of a run has touched is at or behind the front |
| `BwosAhead.FreshHandleIsBehind` | src/bwos.rs:807-815 | in every reachable state a fresh or cloned handle is at or behind the front |
| `BwosAhead.CursorCanOvertake` | src/bwos.rs:835-859 | a run in which no block is cut off, a stealer takes a newer value first, and an older one stays behind its cursor |
| `BwosCalls.StealAnswers` | src/bwos.rs:823-863 | a completed steal under any interference: it walked over blocks that were drained and linked when it looked; `Success` hands out a value that was in the queue up to that step at the slot claimed, and is not after it; `Retry` means that somebody else has taken from the block since; `Empty` that the last block reached was drained too and was the last |
| `BwosCalls.BoundedEmptyMeans` | src/bwos.rs:334-368 | on the bounded queue `Empty` means that each block produced when the steal began had nothing to steal at some moment of the steal |
| `BwosFrontier.ProducedFallsIff` | src/bwos.rs:209-219 | in every reachable state, `produced_blocks` goes down exactly at the store of a put that has moved on to a block which is not the last one produced |
| `BwosFrontier.CleanRunsOnlyProduce` | src/bwos.rs:135-138 | a run in which every advance found `stolen == 0` never lowers `produced_blocks` |
| `BwosSafety.LinkFreshChain` | src/bwos.rs:704-712 | linking a fresh block over a stale `next` orphans only drained blocks |
| `SchedulerTheorems.NeverStuck` | src/scheduler.rs:474-505 | no lost wakeup and no deadlock: in every reachable state all workers have left, or one of them can move without a spurious wakeup |
| `SchedulerProgress.CanFinish` | src/scheduler.rs:348-386 | from every reachable state, whatever the bodies have spawned, there are further steps, with nothing more spawned, after which all workers have left and every task created has run exactly once |
| `SchedulerCalls.InboxIsDrained` | src/scheduler.rs:348-354 | a worker looking at its inbox takes the oldest task, unless the inbox is empty or a sender is still about to fill the oldest slot |
| `SchedulerCalls.DrainedIsPushed` | src/scheduler.rs:352-354 | a drained task goes on the young end of the worker's own deque, and the worker looks at its inbox again |
| `SchedulerCalls.ChoicesAreOpen` | src/scheduler.rs:348-386 | a body may spawn anywhere or return, a worker looking for work may take some from any other that has some, and nobody waits but for the lock or asleep |
| `SchedulerCalls.SpawnIsDeposited` | src/scheduler.rs:131-190 | a spawned task is counted first and is then in its place by the worker's next step: with `spawn_at` the inbox of worker `hint` whenever that is another worker, of the last worker when there is no such one, and otherwise the spawner's own deque |
| `SchedulerCalls.SpawnTells` | src/scheduler.rs:200-206 | a spawn does not return before it has raised the generation and every worker asleep is notified |
| `SchedulerCalls.OwnYoungestOthersOldest` | src/scheduler.rs:356-375 | a worker runs the youngest task of its own deque and a thief takes the oldest of another's |
| `SchedulerCalls.KeepsToItsDeque` | src/scheduler.rs:356-375 | after a task of its own deque a worker runs the next youngest there, and looks at its inbox again only when the deque is empty; after a stolen task at once |
| `SchedulerCalls.LeavesIff` | src/scheduler.rs:374-505 | a worker leaves exactly when it has declared the end after finding nothing outstanding, finds the end declared, or finds nothing outstanding with the lock held |
| `SchedulerTheorems.SleepersAreOwedASignal` | src/scheduler.rs:490-505 | a sleeper has an empty deque; on an unchanged generation a task in its inbox has a sender awake whose signal is still to come; after a change it is notified, or somebody awake is about to notify it |
| `SchedulerTheorems.TaskAccounting` | src/scheduler.rs:131-190 | `outstanding` is the number of tasks created and not finished, and each of those is in one deque, one inbox or one worker's hands, once |
| `SchedulerTheorems.ZeroIsStable` | src/scheduler.rs:388-393 | once zero, `outstanding` stays zero and no task is created or run any more |
| `SchedulerTheorems.ExitMeansAllRan` | src/scheduler.rs:348-386 | once any worker has left, every seeded or spawned task has run exactly once and none is left anywhere |
| `SchedulerTheorems.SeedRoundRobin` | src/scheduler.rs:295-301 | the seeding loop puts each task into one deque, once |
| `SchedulerTheorems.SeedsStart` | src/scheduler.rs:279-320 | so seeded, with at least one task, the machine is in an initial state of the runs all theorems range over |
| `SchedulerTheorems.CanMoveMeansStep` | src/scheduler.rs:348-386 | a worker counted as able to move has an enabled step |
| `SchedulerSafety.StepKeeps` | src/scheduler.rs:348-505 | every step of every worker keeps the accounting, the empty deques of idle workers, the lock discipline and the signal owed to each sleeper |
| `Hypercube.HypercubeNeighbours` | src/scheduler.rs:106-117 | the neighbours are exactly the indices below `n` that differ in one bit, each once |
| `Hypercube.AdjacentSymmetric` | src/scheduler.rs:103-117 | lifelines are symmetric, for every `n` |
| `Hypercube.Connected` | src/scheduler.rs:103-105 | for every `n`, any two workers are joined by a path below `n` of length their Hamming distance, so at most the number of bits |
| `JiffyTheorems.DequeuesInClaimOrder` | src/jiffy.rs:260-306 | what was dequeued is what was claimed at indices `0..head`, in fetch-add order, each once |
| `JiffyTheorems.ClaimedFirstOutFirst` | src/jiffy.rs:165-186 | an enqueue that claims first comes out first, so the order of each producer is kept |
| `JiffyTheorems.NothingLost` | src/jiffy.rs:165-186 | a claimed slot is consumed, filled with its own value, or in the hands of exactly one producer |
| `JiffyTheorems.NoneIsHonest` | src/jiffy.rs:262-290 | `dequeue` answers `None` only when nothing is claimed past the head, or the slot's producer has not filled it yet |
| `JiffyTheorems.NothingStray` | src/jiffy.rs:189-306 | no null `next` is followed, no offset is negative, the `HANDLED` branch is never taken, and all that is dereferenced exists |
| `JiffyTheorems.LocatesItsBuffer` | src/jiffy.rs:189-229 | buffer bases are consecutive multiples of the buffer size under racing links, and the search ends in the one buffer that contains the claimed index |
| `JiffyTheorems.RetryRises` | src/jiffy.rs:191-213 | each retry finds `tail_buf` at a strictly later base, still short of the index |
| `JiffyTheorems.EnqueueIsWaitFree` | src/jiffy.rs:165-254 | each own step of a producer lowers a bound that its index alone determines, whatever the others do: enqueueing is wait-free |
| `JiffyCalls.EnqueueAnswers` | src/jiffy.rs:165-186 | a completed enqueue has claimed one slot, the next in order, and its value is in that slot or has been dequeued from it |
| `JiffyCalls.DequeueAnswers` | src/jiffy.rs:260-306 | a completed dequeue takes the oldest value claimed; or it answers `None`, and at its answer nothing is claimed or the oldest claimed slot is not filled |
| `JiffyCalls.DequeueIsWaitFree` | src/jiffy.rs:260-306 | each step of the consumer inside a call lowers a bound of at most nineteen, and no step of a producer changes it |
| `JiffyCalls.NobodyWaits` | src/jiffy.rs:165-306 | an idle producer may enqueue and an idle consumer dequeue at any time, and a call under way may go on |
| `JiffyTheorems.Drop` | src/jiffy.rs:100-118 | dropping a quiet queue drops exactly the values enqueued and not dequeued, in order, and frees every buffer once |
| `JiffySafety.LinkCasKeeps` | src/jiffy.rs:232-254 | whoever wins the link, the chain stays one chain and no slot changes |
| `WsMultTheorems.DeliveredAtLeastOnce` | src/idempotent.rs:244-475 | each index below any value `head` ever had has been delivered, or an exclusive thief has claimed it and is about to return it; with any mix of consumers, across growth |
| `WsMultCalls.PutCall` | src/idempotent.rs:244-267 | a completed put is refused, with nothing changed, exactly when the queue is bounded and has taken its capacity; otherwise `tail` rises by one, exactly one box is stored, in the cell at the old tail, and the array has doubled exactly when it was full |
| `WsMultCalls.TakeCall` | src/idempotent.rs:290-308 | a completed take finds the queue empty exactly when `head` has reached the tail, and then everything put has been given out; otherwise it is given the task at the `head` it found, and `head` is past it |
| `WsMultCalls.StealAnswers` | src/idempotent.rs:337-475 | a completed steal of any kind is given the task at the index it set out for; or it answers `Empty`, and at some moment of the call everything put had been given out, or, if it is exclusive, that task was delivered or in another exclusive thief's hands and `head` is past it |
| `WsMultCalls.CallsEnd` | src/idempotent.rs:18-19 | no call retries: each step of its own lowers a fixed bound, and no step of others changes it |
| `WsMultCalls.NobodyWaits` | src/idempotent.rs:244-475 | an idle owner may put or take, an idle thief steal in every way its handle allows, and a call under way may go on |
| `WsMultTheorems.DeliversWhatWasPut` | src/idempotent.rs:337-354 | what is delivered at an index is the box put there, however stale the array it was read from |
| `WsMultTheorems.HeadFallsIff` | src/idempotent.rs:446-456 | in every reachable state, `head` goes down exactly at a weak thief's plain store of an index that others have passed since it last looked |
| `WsMultTheorems.MonotoneHeadMeansMonotoneConsumers` | src/idempotent.rs:290-354 | in a run in which `head` never went down, whoever took part, every consumer's indices strictly increase; without weak thieves no run lets it go down |
| `WsMultTheorems.WeakThievesMoveOn` | src/idempotent.rs:436-475 | a weak thief's indices strictly increase, whatever happens to the shared `head` |
| `WsMultTheorems.AtMostOncePerConsumer` | src/idempotent.rs:15-25 | bounded multiplicity: a task is delivered at most once to each weak thief, and, as long as `head` never went down, at most once to every consumer, so at most as often as there are consumers |
| `WsMultOrder.CallKeepsOrderIff` | src/idempotent.rs:290-354 | a `take`, or a steal through a handle that is not weak, keeps a consumer's increasing indices increasing if and only if the `head` it loads is past that consumer's latest index |
| `WsMultOrder.OrderBreaksIff` | src/idempotent.rs:15-25 | in every run, such a consumer's indices fail to increase if and only if one of its own calls delivers after loading a `head` that had fallen to its latest index or below and had not been back up |
| `WsMultOrder.RepeatsIff` | src/idempotent.rs:15-25 | in every run, such a consumer is given a task more than once if and only if one of its own calls loads that task's index, `head` having fallen back to it, after the consumer had the task |
| `WsMultTheorems.TakeCanRepeat` | src/idempotent.rs:290-308 | after `head` went down the owner's `take` can deliver the same task twice: a run in which it does |
| `WsMultTheorems.ExclusiveAtMostOnce` | src/idempotent.rs:368-399 | `steal_exclusive` takes no slot twice, neither through two thieves nor through one, whatever else the owner, weak thieves and plain `steal` calls do beside it, through the same handles or others |
| `WsMultTheorems.HeadCanGoBack` | src/idempotent.rs:446-456 | a run in which a weak thief moves the shared `head` from 2 back to 1 |
| `WsMultTheorems.RetiredArraysAgree` | src/idempotent.rs:270-286 | every array ever used agrees with the active one on its non-null cells |
| `WsMultTheorems.EmptyStealIsHonest` | src/idempotent.rs:337-350 | a steal that finds no box saw none at its index when it loaded the array |
| `WsMultOrder.LostClaimMeans` | src/idempotent.rs:384-393 | the `Empty` of an exclusive steal that lost its claim means that the task was delivered, or is in the hands of another exclusive thief |
| `WsMultTheorems.TakeFindsItsTask` | src/idempotent.rs:290-301 | the null branch of `take` is never taken |
| `WsMultTheorems.CopyForward` | src/idempotent.rs:276-280 | the copy loop doubles the array and keeps the old cells |
| `WsMultTheorems.Drop` | src/idempotent.rs:145-171 | dropping a quiet queue frees every box ever put exactly once, taken or not, and every array once |
| `LinkedTheorems.DeliveryContract` | src/linked.rs:144-238 | each index below `head` was delivered, every delivery is of the box put there, and each consumer's indices strictly increase |
| `LinkedTheorems.AtMostOncePerConsumer` | src/linked.rs:19-21 | a task is delivered at most once to each consumer |
| `LinkedTheorems.NullBranchesUnreachable` | src/linked.rs:211-251 | the null-`next` branch of `steal` is unreachable, nothing is out of bounds, and a non-empty queue is never taken for empty |
| `LinkedCalls.PutCall` | src/linked.rs:144-159 | a completed put adds exactly one box, in its cell and below the shared tail, and is never refused |
| `LinkedCalls.TakeCall` | src/linked.rs:163-185 | a completed take finds the queue empty exactly when `head` has reached the tail, and then every box put was delivered; otherwise it is given the box at the `head` it found, and `head` is past it |
| `LinkedCalls.StealAnswers` | src/linked.rs:211-238 | a completed steal is given the box at the `head` it found, `head` is past it, and the handle's cached node is the one the box is in; or it answers `Empty`, and at that moment every box below the shared tail had been delivered |
| `LinkedCalls.CallsEnd` | src/linked.rs:144-251 | each step of a call of its own lowers a bound on those left, and no step of anybody else changes it |
| `LinkedCalls.NobodyWaits` | src/linked.rs:144-251 | an idle owner may put or take and an idle thief steal at any time, and a call under way may go on |
| `LinkedTheorems.Drop` | src/linked.rs:74-93 | dropping the list frees every box ever put and every node, once each |
| `DistributedTheorems.TaskAccounting` | src/distributed.rs:63-238 | `outstanding` is the number of tasks not finished; each of those is at one node or inside one message, once; no failed send ever destroyed a task |
| `DistributedProgress.CanFinish` | src/distributed.rs:148-199 | from every reachable state there are further steps, with nothing more spawned, after which all nodes have left and every task has run exactly once |
| `DistributedProgress.StarvingAsks` | src/distributed.rs:176-192 | a node without a task that is owed no answer sends a request to the victim it picks, unless that is itself or has left |
| `DistributedProgress.NobodyWaits` | src/distributed.rs:148-199 | a task may spawn or return, any node may be asked, and no node waits |
| `DistributedProgress.RunsYoungest` | src/distributed.rs:155-168 | a node runs the youngest of its tasks once its mailbox is empty, goes idle only when it has none, and puts an arriving batch on top in its order |
| `DistributedTheorems.ZeroIsStable` | src/distributed.rs:165-179 | once zero, `outstanding` stays zero |
| `DistributedTheorems.ExitMeansAllRan` | src/distributed.rs:148-199 | no node leaves early: once any has, every task seeded or spawned has run exactly once and no mailbox holds one |
| `DistributedTheorems.NoTaskIsSentIntoTheVoid` | src/distributed.rs:221-225 | a batch sent to a node that has left is empty |
| `DistributedTheorems.OneRequestAtATime` | src/distributed.rs:181-230 | a node has at most one unanswered request, and while it runs its flag says exactly whether there is one |
| `DistributedTheorems.VictimKeepsMoreThanHalf` | src/distributed.rs:212-219 | a victim keeps the older part, more than half of its tasks, and gives the rest away whole |
| `DistributedTheorems.Seed` | src/distributed.rs:107-121 | the seeding loop puts each task into one pool, once, over at least one node |

## Left out

- Weak memory: steps are sequentially consistent; fences, orderings, cache padding and the data-race
  rules of the language are not modelled.
- `to_bits`, `from_bits`, `Box` and `Arc`: boxes, buffers and nodes are identifiers, with the freed ones
  recorded; type casts and reference counts are not modelled.
- Panics in task closures and mutex poisoning are assumed not to happen.
- Allocation is assumed to succeed. The fixed-width counters other than the deque indices (`tail`,
  `head`, `outstanding`, `in_flight`, `generation`) are unbounded.
- Liveness under fair scheduling: that single calls end, that nothing deadlocks and that all work can always
  still be finished are proved; that it will be, if every thread keeps moving, is not.
- `retire` is modelled as one step: only the owner ever pushes on the retired list, so its CAS loop
  never repeats.
- `pop_fifo` is the thief protocol run by the owner, so a FIFO deque is a run in which the owner never
  pops and one of the thieves stands for it; `Worker.StealTop` is its undisturbed case.
- `steal_batch` is a loop of single steals into another deque and adds no step of its own to the machine.
- WrappedTheorems.Simulates: assumes that `bottom` does not get 2^63 past the `top` a thief has just
  read before the thief compares them, which is stronger than ruling out a full wrap-around of 2^64;
  beyond it the comparison may answer `Empty` spuriously. `WrappedBounds` says the bounds of the run itself.
- SequentialWorker.Worker.Push: requires fewer than 2^62 - 1 elements, because a doubled buffer would not
  be addressable beyond that.
- SequentialWorker.Worker.StealTop: is the undisturbed steal; the interleaved one is in `ChaseLev`.
- BwosTheorems.SoloSteal: covers a thief that starts at the head with nobody else at work; other cursors are
  in `BwosCursor`, and steals under interference in `BwosCalls`.
- BwosList.UndisturbedSteal: likewise; `BwosCursor.CursorSeesFrontIff` is the same for every cursor.
- WsMultTheorems.EmptyStealIsHonest: speaks of one step; `WsMultCalls.StealAnswers` says over runs what the
  answer means.
- WsMultTheorems.AtMostOncePerConsumer: bounds the owner's `take` and plain steals only as long as `head`
  never went down; `WsMultOrder.RepeatsIff` says exactly when they exceed the bound.
- `steal_exclusive` on a growable queue, which the source forbids by a debug assertion.
- The deques and inboxes inside the scheduler are the atomic objects proved in `ChaseLev` and `Jiffy`,
  except that an inbox send keeps its two visible halves.
- Victim selection, `xorshift`, locality groups and heartbeat promotion are free choices of a step.
- Lifeline request lists, statistics and traces: nothing decides on them.
- `src/priority.rs` scans several deques and `src/persistent.rs` replays a log; both would only add easy
  members.
- The protocols other than the owner's deque operations and the race detector are modelled on values,
  one state after the other, rather than as classes updated in place: many threads own the fields, and
  the steps say which one is written.
