# Shelterwood: verified models of its state machines and wake protocols

Shelterwood supervises trees of tasks and actors. Its decisions live in explicit
state machines that never touch a runtime; its concurrency lives in a few small
lock and atomic protocols. This project models both in Dafny and proves what they
promise over whole runs and over every interleaving.

Code that updates state in place is a class whose methods are proved equal to a
function on values; the theorems over runs are about that function. A concurrent
protocol is a transition system in which every critical section and every atomic
operation is one step, with any number of threads. A step that is not enabled
changes nothing, so "every run" means every sequence of steps.

| files | what they model |
|---|---|
| `Common`, `Keys` | options, and the ordered-map queries of the child table |
| `SupervisorSpec`, `Supervisor` | the structural reducer, as a function and as a class |
| `SupervisorRuns`, `SupervisorStartup`, `SupervisorDrain`, `SupervisorFinish`, `SupervisorRemoval`, `SupervisorExact` | what whole runs of the reducer promise, and what it must do |
| `Driver` | the settle loop around the reducer, with an arbitrary shell |
| `Clock`, `StopLadder`, `StopLadderTraces`, `StopLadderProgress`, `Intensity` | deadlines, the stop ladder, the restart window |
| `Heap`, `DeadlineQueue` | the deadline queue on a binary heap |
| `WakerProxy`, `ProxiedPoll`, `ProxiedPollHistory` | the waker proxy and the proxied poll |
| `WaiterRegistry`, `WaiterProtocol`, `WaiterHistory`, `WatchValue` | the waiter registry, latch and watch waits through it, and the watch's value |
| `OneShot` | the one-shot channel |
| `FallbackQueue`, `Disposal` | the fallback queue, and disposal across all its threads |
| `Identity`, `Memberships`, `MembershipTokens`, `MembershipOrder` | membership fences, minting across scopes, when tokens repeat and how they compare |
| `Reachability` | the public-API leak search |

## What turned out not to hold

- A `changed()` wait can be stranded for good. Its readiness check loads the version
  and then the sender count; a pulse and the drop of the last sender between the two
  loads make the check report closure, which `changed()` turns into pending with no
  registration left. `WaiterProtocol.ChangedCanStrand` gives such a run and
  `WaiterProtocol.StrandedExactly` the exact condition. The documentation of the
  register-then-recheck protocol (crates/shelterwood-runtime/src/latch.rs:57-71)
  holds for the latch and for `changed_or_closed` without exception, and for
  `changed` as long as some sender is left (`WaiterProtocol.NoneStranded`).
- The terminal verdict of a closing receive does not always name the winner of the
  first transition: a bare close inside send's window changes it.
  `OneShot.BareCloseMisnames` gives the run and `OneShot.VerdictNamesWinner` the exact
  condition.
- "At most twice the live entries" is restored by a cancel of the deadline queue and
  kept by everything else but a delivery (`DeadlineQueue.DeliveryBreaksTwiceLive`).
  `DeadlineQueue.DeadlineQueue.PopDue` says exactly when a delivery keeps it; the bound
  that always holds is `DeadlineQueue.DeadlineQueue.StorageBound`.
- A remove-and-re-add is not always incomparable with what came before
  (crates/shelterwood-core/src/identity.rs:72-77): a lineage donated away can be donated
  back by a chain of adoptions. `MembershipOrder.LineageCanReturn` gives the run,
  `MembershipOrder.EvictionBreaksComparison` the exact condition, and
  `MembershipOrder.BuildersNeverConfuse` shows that the plan builder never meets it.
- Tokens repeat when a seat mints on after its lineage was adopted elsewhere
  (`Memberships.DonorWouldRepeat`). `MembershipTokens.TokensDifferExactly` gives the exact
  condition, and `MembershipTokens.TokensAreUnique` shows the framework's use avoids it.
- A watch receiver that looks current may have missed a value after 2^64 pulses
  (`WatchValue.WrappedVersionLooksCurrent`); `WatchValue.CurrentMeansFresh` excludes
  every shorter run.
- `register` misses the wakes of a clone window exactly when a positive multiple of
  2^64 of them landed (`ProxiedPoll.WindowWakesDetected`). Lost-wake freedom does not
  need that excluded, because the re-poll that follows covers it.

## Model

| member | source | states |
|---|---|---|
| Supervisor.SupervisorState.AdmitMember | crates/shelterwood-core/src/supervisor.rs:366-388 | an admission mints the next key, indexes it, and reopens settlement, leaving every other record alone |
| Supervisor.SupervisorState.RecordStartupFailure | crates/shelterwood-core/src/supervisor.rs:449-451 | a startup failure is published once and only while starting |
| Supervisor.SupervisorState.OpenDrain | crates/shelterwood-core/src/supervisor.rs:453-472 | a drain begins or strengthens its reason; the first one points the stop cursor at the largest key, or stops every incomplete child of an unordered scope in ascending order |
| Supervisor.SupervisorState.EnumerateIncomplete | crates/shelterwood-core/src/supervisor.rs:453-483 | the walk of the child table lists exactly the children still owing a join, in strictly ascending key order |
| Supervisor.SupervisorState.StopIncomplete | crates/shelterwood-core/src/supervisor.rs:453-472 | a dynamic drain stops exactly the children still owing a join |
| Supervisor.SupervisorState.ForceAll | crates/shelterwood-core/src/supervisor.rs:474-483 | forcing drains for shutdown and forces exactly the children still owing a join |
| Supervisor.SupervisorState.AdvanceStartCursor | crates/shelterwood-core/src/supervisor.rs:390-447 | the cursor loop ends at the first key at or after it that still gates startup |
| Supervisor.GatePassed | crates/shelterwood-core/src/supervisor.rs:390-447 | passing a key that does not gate leaves the gate unchanged |
| Supervisor.GateHolds | crates/shelterwood-core/src/supervisor.rs:390-447 | a key that gates is the gate |
| Supervisor.SupervisorState.EnumerateUnspawned | crates/shelterwood-core/src/supervisor.rs:390-447 | the walk lists exactly the initial children never spawned and still startable, in strictly ascending key order |
| Supervisor.SupervisorState.SettleStartup | crates/shelterwood-core/src/supervisor.rs:390-447 | the imperative startup phase computes the specified state and effects |
| Supervisor.SupervisorState.SettleOrderedStop | crates/shelterwood-core/src/supervisor.rs:485-508 | the downward cursor loop computes the specified scan: what it stops, waits on and inspects |
| Supervisor.SupervisorState.SettleFinish | crates/shelterwood-core/src/supervisor.rs:510-525 | the verdict phase computes the specified state and effects |
| Supervisor.SupervisorState.ApplyEvent | crates/shelterwood-core/src/supervisor.rs:527-652 | every event computes the specified state and effects, stale events included |
| Supervisor.SupervisorState.ApplyToChild | crates/shelterwood-core/src/supervisor.rs:527-645 | a child event changes only its child, through the phase and removal edges the specification allows |
| SupervisorRuns.ScanSelects | crates/shelterwood-core/src/supervisor.rs:485-508 | the stop scan selects the largest incomplete key at or below its cursor, or finds none |
| SupervisorRuns.InvRun | crates/shelterwood-core/src/supervisor.rs:680-696 | every reachable state satisfies the structural invariant: keys in range, records consistent, no ordered cursor in a dynamic scope, a child awaited only in a drain and always above the stop cursor |
| SupervisorRuns.LaterAt | crates/shelterwood-core/src/supervisor.rs:78-112 | between any two points of a run a registration keeps its membership and startup kind, its removal rank never falls, it stays joined once joined and spawned once spawned, and it never becomes startable for the first time again; readiness alone may be re-armed |
| SupervisorStartup.StartsFollowReadiness | crates/shelterwood-core/src/supervisor.rs:390-447 | when an ordered scope asks for key k, every smaller registered initial member was spawned and had readiness accepted at some earlier time, even if re-armed since |
| SupervisorStartup.AtMostOneStart | crates/shelterwood-core/src/supervisor.rs:390-447 | one pass of an ordered scope requests at most one start, once |
| SupervisorStartup.StartsAreAccepted | crates/shelterwood-core/src/supervisor.rs:128-143 | every requested start names a registered never-spawned member whose spawn edge the emitting state accepts |
| SupervisorStartup.StartupCompletesOnce | crates/shelterwood-core/src/supervisor.rs:390-447 | startup completes at most once in a run, only with every registered initial member ready, and never after a failure, drain or force |
| SupervisorExact.OrderedStartupSettles | crates/shelterwood-core/src/supervisor.rs:390-447 | a settlement of a starting ordered scope asks for exactly the member it is held at, if never spawned and startable, and completes startup, once, exactly when it is held at none and every initial member is ready |
| SupervisorExact.DynamicStartupSettles | crates/shelterwood-core/src/supervisor.rs:390-447 | a settlement of a starting dynamic scope asks for exactly its never-spawned startable initial members, and completes startup, once, exactly when every initial member is ready |
| SupervisorExact.NextMemberIsAsked | crates/shelterwood-core/src/supervisor.rs:390-447 | in every run the first initial member not yet spawned is asked for once every smaller registered one is spawned, ready and not being removed |
| SupervisorExact.StartupCompletesPromptly | crates/shelterwood-core/src/supervisor.rs:437-445 | in every run startup completes at the first settlement that finds every initial member ready and, in an ordered scope, every member settled in |
| SupervisorExact.StartupVerdictKept | crates/shelterwood-core/src/engine.rs:588-633 | in every run the lifecycle, a drain's included, says startup is done exactly when it completed and failed exactly when it failed first |
| SupervisorDrain.StopsFollowLargerJoins | crates/shelterwood-core/src/supervisor.rs:485-508 | with no admission during the drain, when settlement stops key k every larger registered key has joined |
| SupervisorDrain.StopsDescend | crates/shelterwood-core/src/supervisor.rs:485-508 | stops issued by settlement have strictly decreasing keys over the whole run, whatever is admitted |
| SupervisorDrain.WaitedWasStopped | crates/shelterwood-core/src/supervisor.rs:485-508 | in every run the child an ordered drain waits on is one some settlement has stopped |
| SupervisorDrain.SettleWaitsOrDone | crates/shelterwood-core/src/supervisor.rs:485-508 | after every settlement of a draining ordered scope all children have joined, or one incomplete child, which a settlement has stopped, is being waited on |
| SupervisorDrain.InspectionsAreLinear | crates/shelterwood-core/src/supervisor.rs:453-508 | total cursor inspections of a drain never exceed the child count when it began, whatever is admitted meanwhile |
| SupervisorDrain.InspectionsAreExact | crates/shelterwood-core/src/supervisor.rs:485-508 | a settlement of an ordered drain that waits on nobody inspects every key from the old cursor down to the new one, once; nothing else inspects |
| SupervisorFinish.PrevailsUnique | crates/shelterwood-core/src/exit.rs:64-101 | the earliest reason of greatest precedence is one reason |
| SupervisorFinish.PrevailsBySeverity | crates/shelterwood-core/src/exit.rs:64-101 | a requested shutdown prevails over any failure, a failed startup over a tripped intensity, a natural finish only alone, and of equals the first |
| SupervisorFinish.DrainReasonPrevails | crates/shelterwood-core/src/engine.rs:606-633 | a scope drains exactly when some call asked for it, and its reason is the earliest among those of greatest precedence given so far |
| SupervisorFinish.FinishVerdict | crates/shelterwood-core/src/supervisor.rs:510-525 | a verdict is issued at most once per run, with every child joined; in a drain it is the prevailing reason, otherwise it needs a non-empty ordered scope whose startup completed |
| SupervisorFinish.FinishIsPrompt | crates/shelterwood-core/src/engine.rs:635-648 | no settlement finds every child joined without a verdict issued by then, if the scope drains, or is ordered, non-empty and has completed startup |
| SupervisorRemoval.RemovalRises | crates/shelterwood-core/src/supervisor.rs:78-112 | a registration's removal status only rises over a run |
| SupervisorRemoval.SampleForbidsConstruction | crates/shelterwood-core/src/supervisor.rs:527-645 | after a removal sample no spawn or readiness is accepted for that key again |
| SupervisorRemoval.KeysNeverReused | crates/shelterwood-core/src/supervisor.rs:366-388 | an admission's key is new, and a reclaimed key is never registered again |
| SupervisorRemoval.FinalizeIssuedOnce | crates/shelterwood-core/src/supervisor.rs:527-645 | a finalize has been issued exactly once if and only if the registered key is committed for removal and joined, and at most once ever |
| SupervisorExact.RemovalStopsExactly | crates/shelterwood-core/src/supervisor.rs:612-630 | in every run a removal commit stops its child once if some commit found it registered, uncommitted and not joined, and never otherwise |
| SupervisorExact.RemovalKeepsPhase | crates/shelterwood-core/src/supervisor.rs:78-112 | sampling and committing a removal keep the phase the child is in, and a committed child is finalized as it joins |
| SupervisorExact.LifeFollowsEdges | crates/shelterwood-core/src/supervisor.rs:527-610 | no event takes a child off the ten edges of its life |
| SupervisorExact.EveryEdgeIsTaken | crates/shelterwood-core/src/supervisor.rs:527-610 | each of those edges is taken by some event from a child not being removed |
| SupervisorExact.LifeRunsThrough | crates/shelterwood-core/src/supervisor.rs:527-645 | in any state an unstarted child can be spawned, become ready, stop, complete, be disposed of, join and be reclaimed, and nothing else changes |
| SupervisorExact.ReadinessIsHistory | crates/shelterwood-core/src/supervisor.rs:537-579 | in every run an initial member counts as ready exactly when the last of its accepted ready reports and its restarts within startup was a report |
| SupervisorExact.AdmissionRegisters | crates/shelterwood-core/src/supervisor.rs:366-388 | an admission adds one fresh unstarted record, unready if initial, changes no other, and moves the ordered cursor only if it is idle and the member initial |
| SupervisorExact.ReclaimRemovesJoined | crates/shelterwood-core/src/supervisor.rs:631-645 | reclaiming removes exactly a joined child, with its index entry unless a later admission took that over, and emits nothing |
| SupervisorExact.DrainOpeningStops | crates/shelterwood-core/src/supervisor.rs:453-483 | opening a drain stops exactly the unjoined children of a dynamic scope and none of an ordered one |
| SupervisorExact.ForceIsExact | crates/shelterwood-core/src/supervisor.rs:474-483 | a force reaches each child still owing a join once, in ascending order and after every stop, and no other |
| SupervisorExact.ForcedIsRecorded | crates/shelterwood-core/src/supervisor.rs:474-483 | in every run a scope is marked forced exactly when a force has come |
| SupervisorRemoval.IndexIsInverse | crates/shelterwood-core/src/supervisor.rs:680-696 | with each membership admitted once, the index and the child table are mutually inverse in every state of every run |
| Driver.QuietSettleIsFixed | crates/shelterwood-core/src/supervisor.rs:646-650 | a settlement that emits nothing is a fixed point of settlement |
| Driver.PassProgress | crates/shelterwood/src/driver.rs:381-416 | an effect-emitting pass is paid for by work no longer to do once the children it asked for are answered or startup is over, even if a drain and its own passes came between; while no drain opens, by the work at or below the stop cursor |
| Driver.ScopeDriver.Handle | crates/shelterwood/src/driver.rs:385-403 | whatever the shell does, a requested child is awaited no more, a first verdict is recorded as it came, a drain the shell begins is open afterwards, and the effect is settled first |
| Driver.ScopeDriver.AnswerStart | crates/shelterwood/src/driver/spawn.rs:394-437 | whatever the answer to a start request, the child is awaited no longer; one not started before becomes active, sampled or disposing, and in a drain nothing changes but by a removal sample |
| Driver.ScopeDriver.BeginDrain | crates/shelterwood/src/driver/shutdown.rs:128-157 | the scope drains afterwards; a drain newly opened, also while effects are handled, settles and flushes to a verdict or a fixed point within the same account of passes |
| Driver.ScopeDriver.FlushEffects | crates/shelterwood/src/driver.rs:385-403 | draining the effect batches ends, nested flushes and drains included: every effect issued is handled exactly once, those queued in their order, no child requested before is still awaited, and a recorded verdict was one of those handled |
| Driver.ScopeDriver.SettleSupervisor | crates/shelterwood/src/driver.rs:405-416 | the settle loop terminates at a verdict or a fixed point. Its effect-emitting passes, re-entrant ones included, number at most the never-spawned startable children plus the keys at or below the stop cursor plus two, unless a drain opens inside it; then all registered keys of an ordered scope take the place of those at or below the cursor. Every effect issued is handled exactly once |
| Clock.DeadlineMonotone | crates/shelterwood-core/src/deadline.rs:67-92 | starting no later with no more budget gives a deadline no later, also at the clock ceiling where it becomes "never" |
| Clock.DeadlineExact | crates/shelterwood-core/src/deadline.rs:67-92 | a deadline arrives at its start plus its budget, unless that is within the arming headroom of the ceiling; a zero budget always |
| Clock.TidyBeatBounds | crates/shelterwood-core/src/policy.rs:923-925 | the tidy beat is a tenth of the grace, held between 1 and 10 ms |
| StopLadder.StopLadderCell.ForceNow | crates/shelterwood-core/src/engine.rs:138-152 | forcing brings the cooperative deadline forward to now and records whether grace had expired; `StopLadderProgress.ForceEscalates` says what that speeds up |
| StopLadder.StopLadderCell.AcknowledgeFrameworkAbort | crates/shelterwood-core/src/engine.rs:154-158 | an acknowledgement counts only while a framework abort is in flight |
| StopLadder.StopLadderCell.AdvanceTo | crates/shelterwood-core/src/engine.rs:160-242 | advancing computes the specified next phase, deadline and action |
| StopLadder.ForcingNeverSlows | crates/shelterwood-core/src/engine.rs:138-243 | of two ladders on the same policy and times, the one with extra forces is always at or beyond the other's phase, with no later deadline in equal phases |
| StopLadderTraces.ActionsArePrefix | crates/shelterwood-core/src/engine.rs:160-242 | emitted actions are always a prefix of Cancel, Escalate, the framework abort for framework drivers, HardAbort, each at most once |
| StopLadderTraces.HardAbortOrAck | crates/shelterwood-core/src/engine.rs:154-242 | a finished ladder has hard-aborted if and only if no acknowledgement came during the framework-abort phase |
| StopLadderTraces.EscalateWaitsForGrace | crates/shelterwood-core/src/engine.rs:160-242 | an unforced graceful escalation comes at least grace after the cancel |
| StopLadderTraces.AbortWaitsForBeat | crates/shelterwood-core/src/engine.rs:160-242 | the action after an escalation comes at least the 1 to 10 ms beat later |
| StopLadderTraces.HardAbortWaitsForFramework | crates/shelterwood-core/src/engine.rs:160-242 | a hard abort comes at least 1 ms after the framework abort |
| StopLadderTraces.AbortReportsGrace | crates/shelterwood-core/src/engine.rs:138-242 | an abort carries AfterGrace exactly when the policy is graceful and no force came before grace expired |
| StopLadderProgress.DueAdvanceActs | crates/shelterwood-core/src/engine.rs:160-242 | an advance that finds the ladder idle or at its deadline moves it on and emits an action, unless it ends an acknowledged framework abort |
| StopLadderProgress.StageEnds | crates/shelterwood-core/src/engine.rs:160-242 | an advance at or past any deadline the ladder ever armed finds or leaves it past that phase |
| StopLadderProgress.ForceEscalates | crates/shelterwood-core/src/engine.rs:138-152 | a force after the cancel escalates at the first advance at or after it |
| StopLadderProgress.ForcedCancelEscalates | crates/shelterwood-core/src/engine.rs:160-185 | after an earlier force, or under an abort policy, the next advance after the cancel escalates |
| StopLadderProgress.GraceEndsInEscalation | crates/shelterwood-core/src/engine.rs:160-200 | the first advance at or after the grace escalates, forced or not |
| StopLadderProgress.BeatEndsInAbort | crates/shelterwood-core/src/engine.rs:185-225 | the first advance at or after the tidy beat aborts |
| StopLadderProgress.FrameworkAbortEnds | crates/shelterwood-core/src/engine.rs:215-242 | the first advance a millisecond after the framework abort finishes the ladder |
| Intensity.IntensityState.ChargeRestart | crates/shelterwood-core/src/engine.rs:326-342 | a charge drops the expired front of the deque, counts what is left and trips past the budget |
| Intensity.DequeIsWindow | crates/shelterwood-core/src/engine.rs:326-342 | the deque is exactly the part of the full history inside the window |
| Intensity.CountIsFullHistory | crates/shelterwood-core/src/engine.rs:326-342 | the reported count equals the number of all charges ever made in the window ending now |
| Intensity.EveryWindowIsBounded | crates/shelterwood-core/src/engine.rs:287-343 | if no charge tripped, every window of that width anywhere holds at most the allowed restarts |
| Heap.HeadIsLeast | crates/shelterwood-core/src/engine/deadline_queue.rs:9-30 | the head of an ordered heap precedes every other entry by time and then arming order |
| Heap.Push | crates/shelterwood-core/src/engine/deadline_queue.rs:63-68 | pushing keeps the heap ordered and adds exactly the entry |
| Heap.Pop | crates/shelterwood-core/src/engine/deadline_queue.rs:83-113 | popping removes exactly the head and keeps the rest ordered |
| Heap.Retain | crates/shelterwood-core/src/engine/deadline_queue.rs:115-121 | retaining keeps exactly the registered entries, ordered |
| DeadlineQueue.DeadlineQueue.PushDeadline | crates/shelterwood-core/src/engine/deadline_queue.rs:63-68 | arming answers as the plain map does, with a fresh handle, and keeps storage within twice the live entries if it was |
| DeadlineQueue.DeadlineQueue.Cancel | crates/shelterwood-core/src/engine/deadline_queue.rs:70-76 | cancelling answers as the plain map does; a successful one brings storage within twice the live entries, any other keeps it there |
| DeadlineQueue.DeadlineQueue.NextDeadline | crates/shelterwood-core/src/engine/deadline_queue.rs:78-81 | the answer is the plain map's first live deadline, than which none is earlier, and storage within twice the live entries stays so |
| DeadlineQueue.DeadlineQueue.PopDue | crates/shelterwood-core/src/engine/deadline_queue.rs:83-91 | a delivery is the plain map's first live entry when due; afterwards storage is within twice the live entries if and only if fewer stale entries came after the first live one than there were live entries |
| DeadlineQueue.DeadlineQueue.PruneStaleHead | crates/shelterwood-core/src/engine/deadline_queue.rs:105-113 | pruning leaves a live head and exactly the live entries and the stale ones after the first live one |
| DeadlineQueue.PrunedSize | crates/shelterwood-core/src/engine/deadline_queue.rs:105-113 | the size of any pruned heap is its live entries plus the stale ones after the first live one |
| DeadlineQueue.DeadlineQueue.Compact | crates/shelterwood-core/src/engine/deadline_queue.rs:115-121 | compaction leaves exactly the live entries |
| DeadlineQueue.DeadlineQueue.StorageBound | crates/shelterwood-core/src/engine/deadline_queue.rs:70-121 | stale entries never exceed the live count right after the latest successful cancel, so storage stays within live plus peak live |
| DeadlineQueue.Replay | crates/shelterwood-core/src/engine/deadline_queue.rs:63-121 | over every sequence of calls the queue answers exactly as a map ordered by time and arming |
| DeadlineQueue.EveryPushHasOneFate | crates/shelterwood-core/src/engine/deadline_queue.rs:63-91 | every pushed key is delivered once, cancelled once, or still live, and only one of these |
| DeadlineQueue.DeliveriesAreDue | crates/shelterwood-core/src/engine/deadline_queue.rs:83-91 | a delivered key was due and is the one that was pushed; no live deadline was earlier, and of equal ones it was armed first |
| DeadlineQueue.DueIsDelivered | crates/shelterwood-core/src/engine/deadline_queue.rs:83-91 | a pop delivers exactly when some live deadline has come |
| DeadlineQueue.NextIsEarliest | crates/shelterwood-core/src/engine/deadline_queue.rs:78-81 | the next deadline is the earliest live one, and none only when nothing is live |
| DeadlineQueue.DeliveryBreaksTwiceLive | crates/shelterwood-core/src/engine/deadline_queue.rs:83-121 | one delivery after a cancel leaves more than twice the live entries stored |
| WakerProxy.WakerProxyState.Observe | crates/shelterwood-core/src/waker_proxy.rs:190-197 | registration stops early exactly when the next wake already reaches the caller; otherwise its count makes an install with no wake between wake nobody and one after a wake hand it on |
| ProxiedPoll.ObserveDecides | crates/shelterwood-core/src/waker_proxy.rs:190-197 | in every reachable state registration skips the clone exactly when the caller is stored already, and stores nothing itself |
| WakerProxy.WakerProxyState.Install | crates/shelterwood-core/src/waker_proxy.rs:198-209 | the second critical section moves a displaced waker to a drop and, if the count moved, the new one to a wake |
| WakerProxy.WakerProxyState.WakeByRef | crates/shelterwood-core/src/waker_proxy.rs:247-256 | a wake is always counted, wrapping at 2^64, and takes the stored caller |
| WakerProxy.WakerProxyState.Take | crates/shelterwood-core/src/waker.rs:48-92 | the slot is emptied into one effect carrying the chosen action |
| ProxiedPoll.NoLostWake | crates/shelterwood-core/src/waker_proxy.rs:64-87 | in every interleaving, a caller whose last poll was pending and whose target is now ready has been handed a wake once the proxy's wakes have finished |
| ProxiedPoll.PollRunsThrough | crates/shelterwood-core/src/waker_proxy.rs:47-87 | in every reachable state a poll left alone ends in at most six steps, pending exactly when the target is not ready |
| ProxiedPoll.WakesRunThrough | crates/shelterwood-core/src/waker_proxy.rs:242-258 | a wake that has begun can always run, and one that has run can be handed on |
| ProxiedPollHistory.HandedIsHistory | crates/shelterwood-core/src/waker_proxy.rs:64-87 | in every run the caller counts as handed a wake exactly when a wake of its own was handed over since its poll began |
| ProxiedPollHistory.ChangeWakesLatest | crates/shelterwood-core/src/waker_proxy.rs:64-87 | the target wakes the waker of its latest poll, once: nobody after a probe, the installed proxy after a pending re-poll |
| ProxiedPoll.PollAnswersTarget | crates/shelterwood-core/src/waker_proxy.rs:47-87 | in every reachable state the probe and the re-poll are pending exactly when the target is not ready, and a pending one leaves the proxy with it |
| ProxiedPoll.WindowWakesDetected | crates/shelterwood-core/src/waker_proxy.rs:190-209 | wakes in a clone window reach the new caller if and only if their number is not a multiple of 2^64 |
| ProxiedPoll.WrappedWindowGoesUndetected | crates/shelterwood-core/src/waker_proxy.rs:190-209 | a run with exactly 2^64 wakes in one window goes undetected |
| ProxiedPoll.ClonesConserved | crates/shelterwood-core/src/waker_proxy.rs:100-119 | every stored waker clone is in the slot, in flight, queued, or consumed by exactly one wake, drop or disposal; retired proxies hold none, and a proxy outlives a poll only while it is pending |
| WaiterRegistry.Registry.Position | crates/shelterwood-runtime/src/waiters.rs:40-57 | the scan finds an identity exactly when it is registered |
| WaiterRegistry.Registry.Register | crates/shelterwood-runtime/src/waiters.rs:40-57 | registering replaces or adds one identity's waker and returns what it displaced |
| WaiterRegistry.Registry.Remove | crates/shelterwood-runtime/src/waiters.rs:59-68 | swap-removal removes one identity and nothing else |
| WaiterRegistry.Registry.WakeAll | crates/shelterwood-runtime/src/waiters.rs:70-82 | the drain empties the registry and wakes each registration once |
| WaiterProtocol.StrandedExactly | crates/shelterwood-runtime/src/watch.rs:203-247 | in every quiet state a waiter is stranded if and only if its unwoken `changed` poll ended on closure with pulses between that check's two loads |
| WaiterProtocol.NoneStranded | crates/shelterwood-runtime/src/waiters.rs:91-118 | no latch or `changed_or_closed` waiter is ever stranded, nor a `changed` waiter while a sender is left |
| WaiterProtocol.ChangedCanStrand | crates/shelterwood-runtime/src/watch.rs:234-247 | one run strands a `changed` waiter |
| WaiterProtocol.OutcomesAreTrue | crates/shelterwood-runtime/src/watch.rs:203-218 | a finished wait is right: the latch fired, closure means no senders are left, and a change has marked as seen exactly the pulses up to its load |
| WaiterProtocol.PollRunsThrough | crates/shelterwood-runtime/src/watch.rs:203-258 | from every reachable state a poll left alone finishes exactly when what it waits for has happened, marking the version it saw; otherwise it parks registered under its waker, or, `changed` with no sender left, without |
| WaiterProtocol.WaitersCanAct | crates/shelterwood-runtime/src/waiters.rs:91-118 | a waiter inside a poll can always take its next step, a wake on its way can be delivered, and a drain owed can run |
| WaiterHistory.SharedIsHistory | crates/shelterwood-runtime/src/latch.rs:57-71 | in every run the flag, version and sender count are what was published, and the drains owed are the publications not yet answered: each pulse, the first fire, the last drop |
| WaiterHistory.WakersConserved | crates/shelterwood-runtime/src/waiters.rs:91-118 | in every run each registered waker is listed, on its way, delivered, or given up by a new registration, the end or the drop of its wait, exactly once |
| WaiterHistory.WokenIsHistory | crates/shelterwood-runtime/src/waiters.rs:91-118 | a waiter counts as woken exactly when its own waker was delivered since its last poll began |
| WaiterProtocol.NoLeftoverRegistration | crates/shelterwood-runtime/src/waiters.rs:91-118 | a wait that finished, was dropped or was never polled has no registration |
| WatchValue.CurrentMeansFresh | crates/shelterwood-runtime/src/watch.rs:132-148 | in every interleaving of modification, pulse and read, a receiver whose version is current has read a value at least as new as the last pulsed one, short of 2^64 pulses in between |
| WatchValue.WrappedVersionLooksCurrent | crates/shelterwood-runtime/src/watch.rs:132-135 | a run with 2^64 pulses after a read leaves a receiver that looks current and has missed the published value |
| WatchValue.ReadsCoverSeenPulses | crates/shelterwood-runtime/src/watch.rs:281-293 | a read made after marking a version as seen is at least as new as every pulse marked, so no unread value is marked |
| WatchValue.ReadIsSnapshot | crates/shelterwood-runtime/src/watch.rs:286-293 | whatever runs between its parts, a locked read marks the version it loads, clones the value that was there all along and frees the lock |
| WatchValue.NoticeCatchesUp | crates/shelterwood-runtime/src/watch.rs:203-218 | a wait that reports a change marks the version it saw, and one that finds none changes nothing |
| WatchValue.LockIsExclusive | crates/shelterwood-runtime/src/watch.rs:286-293 | one receiver at a time holds the value through its load and clone |
| OneShot.ValueInOnePlace | crates/shelterwood-runtime/src/oneshot.rs:121-277 | in every interleaving a sent value is in exactly one place: sender or its caller, carrier, received, recovered, or destroyed with the receiver |
| OneShot.VerdictNamesWinner | crates/shelterwood-runtime/src/oneshot.rs:221-251 | a terminal closing verdict names the winner if and only if no bare close reached the carrier between send's transition and publication |
| OneShot.ReceivesArbitrate | crates/shelterwood-runtime/src/oneshot.rs:191-251 | with only the two receive operations every terminal result names the winner, and a value result is the value sent |
| OneShot.ReceiverLearns | crates/shelterwood-runtime/src/oneshot.rs:171-210 | once its sender has gone, one receive ends with the value, exactly when it was published, or with nothing |
| OneShot.CloseAndPollAnswers | crates/shelterwood-runtime/src/oneshot.rs:221-251 | a closing receive ends the channel at once unless a send has won and is about to publish |
| OneShot.CloseTakeRecovers | crates/shelterwood-runtime/src/oneshot.rs:268-277 | closing to take recovers a published value and only that |
| OneShot.NothingIsStranded | crates/shelterwood-runtime/src/oneshot.rs:199-277 | in every reachable state a receiver that has completed or been dropped has left no value in the carrier |
| OneShot.SendPublishesOrReturns | crates/shelterwood-runtime/src/oneshot.rs:121-153 | a send publishes its value unless the channel is closed, and then hands it back |
| OneShot.WinnerIsFinal | crates/shelterwood-runtime/src/oneshot.rs:138-189 | the first transition out of the open word is the only one |
| OneShot.BareCloseMisnames | crates/shelterwood-runtime/src/oneshot.rs:253-261 | one run ends in an empty verdict although send won |
| FallbackQueue.FallbackDisposals.QueueFallbackDisposal | crates/shelterwood-runtime/src/disposal.rs:230-253 | a worker is live afterwards exactly when one was or one could be started; the job is queued then or if retained, and otherwise taken back, with the hint exact |
| FallbackQueue.FallbackDisposals.RetryStranded | crates/shelterwood-runtime/src/disposal.rs:263-275 | trusting the lock-free hint is as good as locking: queued jobs get a worker whenever one can start, and the hint stays exact |
| FallbackQueue.FallbackDisposals.StartWorkerLocked | crates/shelterwood-runtime/src/disposal.rs:282-297 | a worker is started unless one is live, and the answer is whether one is |
| FallbackQueue.FallbackDisposals.NextJob | crates/shelterwood-runtime/src/disposal.rs:299-315 | the worker takes the oldest job or retires, with the hint exact |
| Disposal.DestroyedAtMostOnce | crates/shelterwood-runtime/src/disposal.rs:89-139 | over all submitters, pool outcomes and the worker, a value is destroyed at most once and its completion runs at most once, afterwards |
| Disposal.NeverLost | crates/shelterwood-runtime/src/disposal.rs:113-139 | an undestroyed value is pending in a job something refers to or in one thread's hands, and an owed completion has a thread to run it |
| Disposal.CriticalNeverInline | crates/shelterwood-runtime/src/disposal.rs:396-428 | a critical value is never destroyed in a submitter's step |
| Disposal.HintIsExact | crates/shelterwood-runtime/src/disposal.rs:197-204 | whenever the lock is free the hint says exactly that jobs are queued with no live worker, and a live worker exists |
| Disposal.QuietMeansDone | crates/shelterwood-runtime/src/disposal.rs:89-139 | with every thread ended and the pool and queue empty, every value has been destroyed and completed |
| Disposal.NothingIsForgotten | crates/shelterwood-runtime/src/disposal.rs:155-204 | while a value is not done with, a thread is at work, the pool has a job, or the hint calls for a worker |
| Disposal.ThreadsCanAct | crates/shelterwood-runtime/src/disposal.rs:230-315 | a thread that has not ended can always take its next step |
| Disposal.FinishRunsThrough | crates/shelterwood-runtime/src/disposal.rs:98-114 | running a pending job destroys its value and then completes it |
| Disposal.AcceptanceIsExact | crates/shelterwood-runtime/src/blocking.rs:186-225 | a submission counts as accepted exactly when something else refers to the job or it has run |
| Disposal.RetryIsExact | crates/shelterwood-runtime/src/disposal.rs:263-275 | a retry that can start a worker leaves a waiting queue with one; a retry that cannot leaves it as it was |
| Disposal.FallbackIsExact | crates/shelterwood-runtime/src/disposal.rs:325-428 | a refused job is queued for a worker; with none to be had a critical one stays queued and any other is finished by its submitter |
| Identity.SupersedesIsStrictOrder | crates/shelterwood-core/src/identity.rs:137-141 | `supersedes` is a strict order, total within a lineage and empty across lineages |
| Identity.LineageCounter.Mint | crates/shelterwood-core/src/identity.rs:157-180 | each mint is the successor of the last |
| Identity.ScopeIdentity.MintMembership | crates/shelterwood-core/src/identity.rs:402-408 | a tracked id mints its successor, an untracked one a fresh lineage |
| Identity.ScopeIdentity.AdoptOrMintMembership | crates/shelterwood-core/src/identity.rs:421-437 | an untracked id takes over the provisional token itself, a tracked one mints its successor |
| Identity.ScopeIdentity.Evict | crates/shelterwood-core/src/identity.rs:439-446 | only the token issued last evicts; a stale one changes nothing |
| MembershipTokens.TokensDifferExactly | crates/shelterwood-core/src/identity.rs:402-446 | in every run whatever, all minted tokens differ if and only if no operation minted the successor of a token already overtaken in its lineage |
| MembershipTokens.TokensAreUnique | crates/shelterwood-core/src/identity.rs:374-447 | in every run in which a donating seat mints once, across any number of scopes, all minted tokens differ |
| MembershipOrder.EvictionBreaksComparison | crates/shelterwood-core/src/identity.rs:402-446 | in every run whatever, a seat's later tokens supersede the earlier ones since the last matching eviction and are incomparable with all before it, if and only if no adoption handed the seat a lineage one of its earlier entries carried |
| MembershipOrder.LineageCanReturn | crates/shelterwood-core/src/identity.rs:402-446 | one disciplined run makes a token supersede an earlier one across an eviction |
| MembershipOrder.StableSeatCompares | crates/shelterwood-core/src/identity.rs:410-446 | in a disciplined run the comparison holds at every seat that gave no lineage away |
| MembershipOrder.BuildersNeverConfuse | crates/shelterwood/src/plan.rs:383-396 | where scopes that donate adopt nothing, the comparison holds at every seat, donors included |
| Memberships.EvictionIsExact | crates/shelterwood-core/src/identity.rs:439-446 | an eviction untracks exactly its seat, and a stale one changes no seat of any scope |
| Memberships.DonorWouldRepeat | crates/shelterwood/src/plan.rs:336-349 | a seat that minted again after donating would repeat the new holder's next token, in every such state |
| Reachability.VisitItem | tools/api-reachability/src/main.rs:78-100 | one item's mentions are split exactly into ids to follow and lines to report |
| Reachability.SearchRoot | tools/api-reachability/src/main.rs:52-104 | the worklist search terminates having visited exactly what its root reaches |
| Reachability.MentionIsFound | tools/api-reachability/src/main.rs:69-99 | from an ordinary item the search goes on to every local or unnamed item it mentions, and owes a line for each mention of one of the four crates |
| Reachability.ForeignIsNotSearched | tools/api-reachability/src/main.rs:84-95 | the search never enters an item of another crate |
| Reachability.BlanketsDoNotLeak | tools/api-reachability/src/main.rs:76-78 | what blanket impls mention makes no difference to the report |
| Reachability.FindLeaks | tools/api-reachability/src/main.rs:52-104 | the reported lines are exactly those owed for some root, reachable item and forbidden mention; other versions and missing tables are refused |

## Left out

- Tokio, task spawning, timers and channels: foreign calls. The one-shot's carrier is an atomic value, closed flag and completed flag; the blocking pool is an arbitrary choice of accept, reject, run or drop.
- Memory orderings: every atomic operation is sequentially consistent.
- Panics, unwinding and poisoned locks: effects, destructors and completions return normally.
- Exhaustion of 64-bit identity counters, where the source aborts: lineages, generations, keys, handles and waiter identities are unbounded. The wake count and the watch version do wrap.
- `DisposingReceiver`, the composition of the one-shot receiver, the proxied poll and disposal: each part is modelled on its own.
- Polling a completed one-shot receiver: the source panics, so it is no step of a run.
- `CompletionGatedLatch`, `ReadinessGate`, `ScopeEpochs`, `dispatch_exit`, exit-evidence ranking and `arbitrate`: short case splits that would only add easy members.
- Reading a watch without marking, other than through a receiver's borrow, and the receiver count: neither decides what a receiver may conclude.
- Floating-point backoff and jitter, and the restart scheduling around the intensity window.
- The driver's submodules: the shell is an arbitrary script of child events, startup failures, re-entrant drains and flushes. It answers each start request with a spawn, a removal sample or a disposal, in a drain with a removal sample or nothing, admits no member and forces nothing while effects are handled.
- Heap.Retain: rebuilds by repeated push, and Heap.Pop sifts down in the textbook way; the standard library's heap moves entries differently, which no answer of the queue can show.
- Incarnation counters: one counter per token, minting successors.
- JSON decoding in the leak search, and its prelude containment check: the document is a finite graph of mentions.
- The waker proxy's early-return comparison is equality of waker identities; wakers that differ as values but wake the same task count as different callers.
