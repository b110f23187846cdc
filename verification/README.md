# A verified model of the goxo engine

goxo is a message engine. It takes deliveries from an AMQP queue, admits or drops each one by
the chain of agents it came through, places the admitted ones on a pool of workers, and lets
each worker's handler process (any language, notes over stdin and stdout) answer with emits and
with a done. This project models the part of it where things race and proves what it promises.

## How it is laid out

* **One worker** is a transition system (`Lifecycle.dfy`). Every section under the worker's
  mutex is one step; so is every settle callback, every outcome of a select, every receive and
  write of a writer goroutine, every timer firing, every outcome of a spawn, and every
  `requestStop`. A send may take the queue branch although the process is already stopping. Any
  number of `Dispatch` calls, timers and writers interleave with the read loop, the supervisor
  and `beginClose`. The bookkeeping itself, as functions on values, is in `Sections.dfy`; the
  class `Worker` in `WorkerCode.dfy` performs those same sections in place, on fields and on
  shared references, and each of its methods is proved equal to its section function.
* **Theorems about every run of one worker**: `Invariants` and `Settlement` (settle once,
  conservation), `Disposition` (which callback), `CrashSplit` (what a crash does),
  `Isolation` (ids, processes, late events), `Stdin` and `Handler` (what a handler reads), `Emits`,
  `Closing` (what comes to an end and what goes on), `Timers`, `Dispatching` (what a Dispatch does
  for its caller), `Reach` (what a close and a kill reach), and `Guards` (the model
  disables no step of the worker).
* **The pool and the engine**: `Pool.dfy` holds the imperative least-loaded scan and the
  placement and window arithmetic; `Engine.dfy` is the transition system of the whole engine, with
  one dispatcher, all the workers, and `Shutdown`; `Composition.dfy` carries the workers' theorems
  into it; `Projection.dfy` gives every worker in it a run of its own, and says what Shutdown reaches;
  `Balance.dfy` says where deliveries go while nothing is settled, and `Window.dfy` when one waits;
  `Intake.dfy` is the way of one delivery through the bus and `handle`.
* **Pure parts**: `Admission.dfy` (flow control and cascades), `Wire.dfy` and `WireIO.dfy`
  (framing), `RoutingKey.dfy`, and `Publishing.dfy`, what the bus puts together for an emit.

"Run" means any finite sequence of enabled steps from the initial state; a theorem with
`requires Exec(c, tr).Some?` holds for every run `tr`, and so in every reachable state.

## Where the code and its own documentation differ

The model follows the code.

* `README.md:30-44` and `README.md:81-106` describe protocol 1: a start phase and one process per
  message. The code speaks protocol 2 (`internal/engine/config.go:20`): processes live long, serve
  many messages at once and report pickups.
* `internal/note/wire.go:46-48` promises `io.EOF` only at a frame boundary. A stream that ends
  right after a header whose length is not 0 also gives `io.EOF`, because the second full read
  got no byte. `Wire.CleanEndExactly` says exactly when a clean end is reported and
  `Wire.TruncatedFrameReadsAsCleanEnd` gives an input.
* `internal/worker/pool.go:67-69` says that the workers that remain after the grace are killed, and
  that the messages of a killed worker are nacked. A kill that finds no process does nothing. A
  process that is read while `Shutdown` waits for a worker it has killed was neither asked to stop nor
  killed exactly if the worker had no process when it was closed and none when it was killed, as
  when both come during a spawn: `Projection.ShutdownWaitsForNobody`, `Projection.ShutdownMayWait`,
  `Reach.KillDuringSpawn`. And a killed worker's message that was not picked up is requeued:
  `CrashSplit.KilledMessageIsRequeued`. What is proved of the end is what holds when `Shutdown` returns.
* `internal/worker/pool.go:46-48` says a dispatch is refused only if the context is cancelled;
  closing refuses it too (`internal/worker/worker.go:425`).
* `internal/worker/worker.go:363-364` says a stopping process drops an emit_ack; only a full queue
  does.
* `internal/worker/worker.go:311` leaves pickups out of the read loop's notes, and
  `internal/bus/bus.go:70-71` speaks of a prefetch of one.
* `internal/bus/bus.go:99-102` and `internal/engine/config.go:40` say the window never exceeds the
  pool. The pool clamps its two settings separately and the bus clamps their 64-bit product, so two
  negative settings break it, and so can one setting below 1 if the product overflows:
  `Pool.PrefetchExceedsExactly`, `Pool.NegativeSettingsExceed`, `Pool.MixedSettingsExceed`.
* The depth and cyclic limits compare 32-bit truncations (`internal/engine/admit.go:22-25`), so a
  chain of 2^32 agents would pass: `Admission.LimitsHoldExactly`, `Admission.LimitsWrapAround`. No
  broker message is large enough to carry such a chain, so in practice the limits hold.

## Model

| member | source | states |
|---|---|---|
| Settlement.SettledAtMostOnce | internal/worker/worker.go:35-40 | over every run: a registered message is in exactly one of the map, one of the four claiming parties with its callback still to make, or one callback made; no delivery has two callbacks; one whose Dispatch has not registered or returned false has none |
| Settlement.SettledAsDecided | internal/worker/worker.go:199-220 | the worker with all its racing parties refines an automaton that reads one id's events in order: the callback made or pending is the one the first claiming event after registration decided, and no other is ever pending or made |
| Settlement.ClaimSettles | internal/worker/worker.go:402-407 | what each claiming event does to a live message in every continuation of the run: an ok done acks it and an error done nacks it, a timeout nacks it, the death of its process nacks it if its pickup was read and requeues it if not, a failed send requeues it; once, and nothing else |
| Disposition.DoneDecides | internal/worker/worker.go:384-408 | a done naming a live message decides it: for an ack if it is ok, else for a nack |
| Settlement.DecisionIsFinal | internal/worker/worker.go:64-68 | once a message is decided, in every continuation of the run, with late dones, timeouts and deaths: the one callback decided is pending or made, once, no other ever is, and the message stays out of the map |
| Settlement.AcceptedIsConserved | internal/worker/worker.go:423-442 | accepted = in flight + claimed with the callback pending + acked + nacked + requeued, and at most cap in flight, in every reachable state and for any number of concurrent dispatchers |
| Invariants.StepKeepsInv | internal/worker/worker.go:110-131 | every step of every party keeps the whole invariant (map belongs to the current process, ids consecutive, each message held exactly once), and only a registration raises the load |
| Invariants.Reachable | internal/worker/worker.go:165-227 | the invariant holds after every run |
| Disposition.StepAgrees | internal/worker/worker.go:372-408 | one step of the worker and one step of the automaton keep agreeing about any id |
| Disposition.RunAgrees | internal/worker/worker.go:445-487 | the worker and the automaton agree about every id after every run |
| CrashSplit.CrashSplitIsRight | internal/worker/worker.go:207-220 | with a handler that reports only what it has read: a message whose pickup was read is never requeued by anyone; the death path nacks exactly the messages whose pickup was read; one whose deliver never reached stdin is requeued by it |
| CrashSplit.StepSends | internal/worker/worker.go:97-108 | a deliver is queued once, for the process its message was registered against, by a call that then returns; a reclaimed message is never queued |
| CrashSplit.StepMarks | internal/worker/worker.go:372-380 | the picked mark stays equivalent to a pickup having been read, through every step, if the handler is honest |
| CrashSplit.EagerPickupIsRequeued | internal/worker/worker.go:444-462 | honesty is needed: a run in which a pickup sent before the deliver was read ends in a requeue |
| Isolation.EntriesBelongToCurrent | internal/worker/worker.go:186-205 | without a process the map is empty, and every entry was registered against the process now served |
| Isolation.LateIsIgnored | internal/worker/worker.go:372-397 | a pickup, done, emit, timer or reclaim naming a message no longer in the map settles, claims and marks nothing and borrows no chain |
| Isolation.DecidedOrForeignIsGone | internal/worker/worker.go:429-442 | a message that was decided, or belongs to another process, is never in the map, so every event naming it is late |
| Isolation.OnlyTheNamed | internal/worker/worker.go:384-397 | an event naming a message makes no callback itself and changes no other message's entry, nor who is to make its callback, or which |
| Isolation.LateStepsChangeNothing | internal/worker/worker.go:372-408 | over a run: an event naming a message already decided, or not registered against the process served, changes no entry, mark, claim, callback or fate of any message, and lends no chain |
| Isolation.IdsAreNeverReused | internal/worker/worker.go:434-441 | an id keeps its delivery, process and chain for the rest of the run, across respawns |
| Closing.ClosingBoundsSupervisor | internal/worker/worker.go:165-227 | once a worker is closing or the context cancelled, its supervisor takes, in any continuation, at most cap + 8 more steps outside the read loop and one for each message it is settling |
| Guards.SupervisorNeverStuck | internal/worker/worker.go:165-227 | in every reachable state short of stopped, the supervisor goroutine has a step that waits for nothing the handler does, or its read loop is idle: there the model lets it take the next note or the end of the stream at any time, where the code waits for the handler to write or exit |
| Guards.GuardsNeverBlock | internal/worker/worker.go:97-108 | in every reachable state every process named by a send, a stop request, an ack or the supervisor has been spawned, and a read loop that publishes or answers has read an emit: no guard of the model is false for such a reason |
| Closing.ClosingBoundsRespawning | internal/worker/worker.go:500-509 | after beginClose nothing is registered; after it, or after the context is cancelled, at most one more process is installed, and none if a process is being served |
| Closing.StopsOnlyIfEnding | internal/worker/worker.go:172-183 | in every run, a worker that has stopped, or is bound to, was closed or its context cancelled: no crash and no failed spawn retires it |
| Closing.RespawnsUnlessEnding | internal/worker/worker.go:199-226 | in every run, when a process was reaped and its messages are settled, the worker spawns another, unless it was closed or the context cancelled when the process was reaped |
| Closing.ComesToServe | internal/worker/worker.go:165-227 | between two failed spawns or deaths, a worker that is not ending takes at most so many supervisor steps before it serves a process: it retries a failed spawn and replaces a dead process |
| Closing.EndsForGood | internal/worker/worker.go:500-505 | after a close the worker is closing, and after the context is cancelled it is cancelled, to the end of the run |
| Reach.PastIsStopped | internal/worker/worker.go:194-197 | in every run, every process whose read loop has ended and that is being reaped or is past was told to stop |
| Reach.StoppedWriterMoves | internal/worker/worker.go:279-296 | a writer that was told to stop is done or has a step: it drains and closes stdin without waiting |
| Dispatching.RefusedOnlyWithCause | internal/worker/worker.go:425-428 | in every run, a Dispatch that returned false found the worker closing or its context cancelled |
| Dispatching.CalledOffForGood | internal/worker/worker.go:423-433 | a Dispatch still waiting when the worker closes or its context is cancelled never registers, however the run goes on |
| Dispatching.AcceptedIsSent | internal/worker/worker.go:444-463 | in every run, a registered message is still to be sent, or is queued for the process it was registered against, or its send was refused because that process was stopping or the call cancelled: exactly one of the three |
| Timers.InFlightCanTimeOut | internal/worker/worker.go:437-440 | in every run, a message in flight has a timer that can fire or has fired exactly if timeouts are configured; a timer waits only for a message in flight or one the supervisor is about to settle; and without timeouts none ever does anything |
| Closing.StoppedIsComplete | internal/worker/worker.go:222-225 | a stopped worker has no process and an empty map, and every accepted message has its callback made, or held by exactly one timer or Dispatch |
| Closing.StoppedIsFinal | internal/worker/worker.go:522-522 | from any point of a run at which the worker is stopped, to its end: no process, no message in flight, and no registration since |
| Reach.AskedExactlyIfFound | internal/worker/worker.go:497-509 | in every run, the process being read is asked to stop exactly if some close found it current |
| Reach.CloseReachesExactly | internal/worker/worker.go:186-192 | however a run goes on after a close that is the last, the process being read is asked to stop exactly if it is the one that close found; so never, if the close came during a spawn |
| Reach.KillReachesExactly | internal/worker/worker.go:511-520 | however a run goes on after a kill that is the last, the process being read was killed exactly if it is the one that kill found |
| Reach.LeftAloneExactly | internal/worker/worker.go:497-520 | after the last close and the last kill of a run, the process being read was neither asked to stop nor killed exactly if neither found it |
| Reach.LeftAloneIfNoneFound | internal/worker/worker.go:497-520 | with the close before the kill, exactly if there was no process at all at either |
| Reach.FoundProcessStaysAsked | internal/worker/worker.go:500-508 | the process a close finds is asked to stop, or about to be, for the rest of the run, served or not |
| Reach.CloseDuringSpawn | internal/worker/worker.go:186-192 | a run in which a closed worker serves a process nobody asked to stop, and which a kill that comes then does find |
| Reach.KillDuringSpawn | internal/worker/worker.go:511-520 | a run in which the kill, too, comes before the spawn is over, and the worker serves a process nobody asked to stop or killed |
| CrashSplit.KilledMessageIsRequeued | internal/worker/worker.go:207-220 | a run in which a kill finds the process and its message, not picked up, is requeued and not nacked |
| Projection.WorkerRuns | internal/worker/pool.go:38-44 | every worker in every run of the engine makes a run of its own, so all that is proved of a worker's runs holds there |
| Projection.ShutdownWaitsForNobody | internal/worker/pool.go:80-87 | in every run of the engine, while Shutdown waits for a worker it has killed: a process being read there was neither asked to stop nor killed exactly if the worker had no process when it was closed and none when it was killed |
| Projection.ShutdownMayWait | internal/worker/pool.go:80-87 | a run of the engine that ends so, in which Shutdown has no step left until that worker stops |
| Evolution.StepEvolves | internal/worker/worker.go:276-296 | a step changes a process's queue and writer only by a stop, a send of the call registered against it, an ack of its own read loop, or its own writer |
| Stdin.FlowAlways | internal/worker/worker.go:279-296 | for every process of every run: the queue is first in first out and bounded; stdin is what the writer finished with, in order, less failed writes; a writer that closed stdin had received everything queued before the stop |
| Stdin.NothingLostBeforeStop | internal/worker/worker.go:276-278 | without write errors stdin, the note in hand and the queue are together exactly what was queued; once stdin is closed all queued before the stop is on it |
| Stdin.DeliverIdsIncrease | internal/worker/worker.go:434-445 | with serial dispatch the deliver ids on every stdin strictly increase |
| Emits.EmitsAccounted | internal/worker/worker.go:342-361 | every emit is given the chain the automaton says is due: that of its message if it is live when the emit is read, none otherwise; its publish, with that chain and its own data, is attempted exactly if its selector is declared, at most once; and its one answer has its own id and is ok exactly if its publish succeeded |
| Emits.ChainIsDue | internal/worker/worker.go:343-348 | the chain found in the map is the one the run's history makes due |
| Emits.AcksQueuedAsDue | internal/worker/worker.go:363-370 | the emit_acks queued for a process are, in order, the answers to the emits read from it that found a free place in its queue, of cap + 1: none is dropped while there is room |
| WorkerCode.Worker.constructor | internal/worker/worker.go:136-160 | a new worker has no process, an empty map, next id 1, is not closing, and a capacity of at least 1 |
| WorkerCode.Worker.Install | internal/worker/worker.go:186-189 | the new process becomes current and nothing else changes, whether or not the worker is closing |
| WorkerCode.Worker.TryRegister | internal/worker/worker.go:423-442 | refuses exactly if closing or cancelled; waits exactly if there is no process or no slot; otherwise registers under the next id against the current process |
| WorkerCode.Worker.OnPickup | internal/worker/worker.go:374-380 | marks that message, through the shared reference, and no other |
| WorkerCode.Worker.Claim | internal/worker/worker.go:384-398 | removes one entry and returns it exactly if it was there |
| WorkerCode.Worker.OnDone | internal/worker/worker.go:384-408 | the claim, and then one ack of the entry's delivery if the done is ok, one nack if it is not, and nothing if the entry was gone |
| WorkerCode.Worker.OnTimeout | internal/worker/worker.go:468-487 | the claim and then a nack, or nothing if the entry was gone |
| WorkerCode.Worker.OnUnsent | internal/worker/worker.go:445-462 | the reclaim and then a requeue, or nothing if the death path was first |
| WorkerCode.Worker.ChainFor | internal/worker/worker.go:343-348 | the live message's chain, or the empty one |
| WorkerCode.Worker.Outstanding | internal/worker/worker.go:491-495 | the number of messages in the map |
| WorkerCode.Worker.Reap | internal/worker/worker.go:199-205 | drops the process and hands over the whole map, leaving it empty |
| WorkerCode.Worker.BeginClose | internal/worker/worker.go:500-509 | sets closing, keeps the messages and the process, and asks the process found, if any, to stop |
| WorkerCode.Worker.Kill | internal/worker/worker.go:513-520 | kills the process found, if any, and changes nothing under the mutex |
| WorkerCode.Bury | internal/worker/worker.go:207-220 | in whatever order the map is ranged over, each message left gets one callback: as many nacks and requeues per delivery are added as entries that fell that way |
| WorkerCode.Process.Send | internal/worker/worker.go:97-108 | queues, gives up or blocks; it may queue although the process is stopping, gives up only if stopping or cancelled, and blocks exactly if no branch is ready |
| WorkerCode.Process.AckEmit | internal/worker/worker.go:363-370 | queues exactly if there is room and never blocks |
| WorkerCode.Process.Drain | internal/worker/worker.go:283-291 | everything still queued goes out in order as whole frames, too large notes skipped, up to where the pipe broke |
| Handler.ReadsWhatWasQueued | internal/worker/worker.go:258-296 | in every run, the handler of any process, reading its stdin to the end even of a broken pipe, gets the init note and then notes queued for it, whole and in order, one body each if none is too large; if no write failed and stdin was closed, everything queued before the stop; and the end is unclean exactly if the pipe broke inside a frame and not just behind its header |
| WorkerCode.OnEmit | internal/worker/worker.go:342-361 | at most one publish, of a declared selector, with the named message's chain and the emit's data; one answer, ok exactly after a successful publish |
| Pool.WorkerPool.constructor | internal/worker/pool.go:21-36 | as many distinct idle workers as asked for, at least one, each with the capacity asked for, at least 1, and the timeout as configured |
| Pool.WorkerPool.LeastLoaded | internal/worker/pool.go:55-65 | with settling, deaths, installs and closes between any two reads: the first least of the loads read, each of which lies between the load at the start and at the end; so if any worker was below capacity at the start, the one picked is below it at the end; and if no load changed, the first least loaded |
| Pool.WorkerPool.Await | internal/worker/worker.go:423-442 | the wait on one worker, turn by turn with anything happening in between: registers exactly the delivery given, once and there only; is refused only by a close or a cancelled context; and goes on waiting only while there is no process or no slot |
| Pool.WorkerPool.Dispatch | internal/worker/pool.go:46-53 | the delivery is registered, if at all, as given, at the first least of the loads read, each of which lies between the load at the scan's start and at its end, and at no other worker; however long it waits at a live worker, every worker was full when the scan began; it is refused only by a closing worker or a cancelled context |
| Pool.WorkerPool.CloseOne | internal/worker/pool.go:71-73 | closes one worker and asks its current process to stop; the other workers are as they were |
| Pool.WorkerPool.BeginShutdown | internal/worker/pool.go:70-73 | every worker is told to close and keeps its messages, and every current process is asked to stop |
| Balance.PlacedRoundRobin | internal/worker/pool.go:46-65 | in every run of the engine in which no load falls, with spawns, installs, closes and deaths of idle workers in between: after n registrations every load is n / size, or one more for the first n mod size workers, the next delivery is handed to worker n mod size, which has room if n is below size * cap, and n is the number handed over less those refused |
| Pool.PrefetchMatches | internal/engine/config.go:41-50 | for settings of at least 1 the window never exceeds the pool's capacity, and equals it if the product fits 64 bits |
| Pool.PrefetchExceedsExactly | internal/bus/bus.go:111-117 | for any two settings at all, the window exceeds the pool exactly if one of them is below 1 and their 64-bit product is more than the larger of them, counted as at least 1 |
| Pool.NegativeSettingsExceed | internal/worker/pool.go:25-30 | -2 and -3 do: a window of 6 for a pool of 1 |
| Pool.MixedSettingsExceed | internal/engine/config.go:48-48 | -2^62 and 3 do, by overflow: a window of 2^62 for a pool of 3 |
| Pool.PrefetchExceedsWithoutOverflow | internal/engine/config.go:48-48 | as long as the product fits 64 bits, only two negative settings whose product is more than 1 do |
| Engine.QuietStep | internal/worker/pool.go:46-50 | what any step of a worker can show the rest of the engine: no new calls, none back to waiting, and no rise in load but by the registration of a waiting call |
| Engine.PStepKeepsPInv | internal/worker/pool.go:46-65 | every step of the engine keeps: each delivery known to at most one worker, the scan's best below every load it passed, stopped workers stopped |
| Engine.SettledAtMostOnceEndToEnd | internal/bus/bus.go:160-191 | in every run of the engine one AMQP delivery is settled at most once by anyone: nacked at once if it does not decode, acked at once if it decodes and is not admitted, otherwise only by a worker, and by nobody if the pool refused it |
| Engine.ShutdownIsComplete | internal/worker/pool.go:67-88 | when Shutdown has returned, every worker was told to close and has no process, an empty map, and every message it accepted settled but for callbacks a timer or a Dispatch holds |
| Engine.ReturnedForever | internal/worker/pool.go:80-87 | and all of that holds in every continuation |
| Engine.PGuardsNeverBlock | internal/worker/pool.go:55-65 | in every reachable state of an engine with a worker, the scan's pick exists and does not know the delivery yet, and Shutdown's loops are at a worker: no guard of the engine's steps is false for such a reason |
| Engine.RoomOnArrival | internal/bus/bus.go:99-102 | fewer unsettled deliveries than the pool can hold leave some worker a slot |
| Engine.WaitsOnlyForAProcess | internal/worker/worker.go:429-432 | if the broker keeps at most prefetch deliveries unsettled and that is within the pool, a waiting Dispatch is always at a worker below capacity and so waits only for a live process |
| Intake.WindowFitsThePool | internal/engine/config.go:40-48 | and unless the two clamps disagree, so for any settings of at least 1, the window the code computes is such a window |
| Intake.WaitsForASlotExactly | internal/worker/pool.go:10-12 | some run within the window the code computes leads to a delivery waiting for a slot at a live worker, exactly if the two clamps disagree |
| Window.LargerWindowWaits | internal/worker/worker.go:423-433 | for any pool and any larger window, with any limits: a run within the window that fills the pool and leads to a delivery waiting at a live, full worker |
| Intake.Handle | internal/engine/engine.go:122-146 | a delivery that is not admitted is acked and changes no worker; any other is left unsettled and goes, with its own chain, to the worker the scan picked and no other |
| Intake.DispatchDelivery | internal/bus/bus.go:161-191 | an undecodable delivery is nacked and an inadmissible one acked, and neither changes a worker; any other is left unsettled and placed with the chain decoded |
| Composition.FactsAlways | internal/bus/bus.go:133-158 | because the engine consumes serially, every worker in it has ordered stdins, accounted emits, and only chains that arrived |
| Composition.StdinIdsIncrease | internal/worker/pool.go:48-50 | in the whole engine, deliver ids strictly increase on every stdin |
| Composition.PublishesExtendAdmittedChains | internal/worker/worker.go:350-355 | every publish of every worker is of a declared selector and carries no chain, or the chain of a delivery that arrived and that this agent admitted |
| Composition.PublishesAreHops | internal/bus/bus.go:248-250 | in every run, if the chain a worker publishes with ends any cascade, the chain sent out ends that cascade with one hop more, of this agent under its limits, and keeps those limits |
| Publishing.BuildPublishing | internal/bus/bus.go:239-263 | the receiver of what is published takes the same selector and a version-4 id out of the key, the chain is the one received and this agent, and a failure publishes nothing |
| Admission.Count | internal/engine/admit.go:38-46 | the number of occurrences |
| Admission.Contains | internal/engine/admit.go:49-56 | membership, both ways |
| Admission.Admit | internal/engine/admit.go:21-35 | admits exactly if no enabled check rejects, with counts and lengths cut to 32 bits |
| Admission.AdmitsAsDocumented | internal/engine/admit.go:8-20 | for a chain shorter than 2^32, admitted exactly if the agent occurs fewer times than the cyclic limit, the chain is shorter than the depth limit, and its last agent is accepted, with 0 and an empty list switching a check off |
| Admission.SenderIsTheLast | internal/engine/admit.go:28-33 | whatever the chain and the limits, only a message whose last agent is accepted is admitted; and without limits every such message |
| Admission.PublisherIsTheSender | internal/bus/bus.go:248-250 | the sender the next agent checks is the agent that published |
| Admission.ChainIsThePath | internal/bus/bus.go:248-250 | along a causal path of emits answering live messages the chain is the initial one and then the agents of the hops, in order |
| Admission.LimitsHoldExactly | internal/engine/admit.go:13-20 | an admitted chain respects a limit exactly if the counted quantity fits 32 bits |
| Admission.LimitsWrapAround | internal/engine/admit.go:22-27 | a chain of 2^32 times the same agent is admitted whatever the depth and cyclic limits, exactly if the sender is accepted; no broker message could carry one |
| Admission.DepthBoundsCascades | internal/engine/admit.go:25-27 | where every agent has the depth limit, a causal path of admissions and emits that answer live messages has at most depth - length of the initial chain hops, none if that is negative |
| Admission.DepthBoundIsTight | internal/engine/admit.go:25-27 | the bound is reached |
| Admission.HopSpendsOne | internal/engine/admit.go:22-24 | a hop spends exactly one of the occurrences the cyclic limits leave |
| Admission.CyclicLimitsBoundCascades | internal/engine/admit.go:22-24 | where finitely many agents each have a cyclic limit, a cascade of emits that answer live messages has at most as many hops as the limits leave in all |
| Admission.BudgetWithinLimits | internal/engine/admit.go:19-20 | which is at most the sum of the limits |
| Admission.LateEmitsEscape | internal/worker/worker.go:337-341 | a cascade of n late emits, each answering no live message, in which an agent processes its own emits, is admitted exactly if n is at most 1, or neither limit is 1 and the agent accepts itself: then for every n |
| Wire.LengthRoundTrip | internal/note/wire.go:38-38 | decoding the length written gives the length, for every 32-bit length |
| Wire.BigEndian | internal/note/wire.go:38-38 | the four bytes of a length count 2^24, 2^16, 2^8 and 1, both ways |
| Wire.RefusedExactly | internal/note/wire.go:54-57 | a frame is refused exactly if its big-endian length is over 64 MiB |
| Wire.FrameParts | internal/note/wire.go:13-17 | a body within the maximum is framed with its true length: the 4 bytes never truncate |
| Wire.RoundTrip | internal/note/wire.go:49-63 | reading any concatenation of frames gives exactly the bodies in order and then a clean end |
| Wire.ReadsUpTo | internal/note/wire.go:49-63 | reading frames with a remainder behind them that is no frame gives exactly the bodies, and then what that remainder gives |
| Wire.UniquelyDecodable | internal/note/wire.go:23-44 | different sequences of bodies are different bytes |
| Wire.StreamsExactly | internal/note/wire.go:46-63 | any stream at all is the frames read followed by a remainder that is no frame, and ends cleanly exactly if that is empty or one bare header |
| Wire.TruncatedStream | internal/note/wire.go:46-48 | a stream of frames cut anywhere gives exactly the bodies of the frames that end at or before the cut, and then an end, clean exactly if the cut is at a boundary or just behind a header |
| Wire.CleanEndExactly | internal/note/wire.go:51-60 | one read reports a clean end exactly if the stream is empty or is one header with a length from 1 to the maximum |
| Wire.TruncatedFrameReadsAsCleanEnd | internal/note/wire.go:46-48 | a truncated frame that reads as a clean end |
| WireIO.Source.ReadFull | internal/note/wire.go:50-53 | over any short reads: the full buffer, or a clean end if there was nothing, or a truncation, and what is left |
| WireIO.Source.ReadFrame | internal/note/wire.go:49-63 | one frame's body or the reason there is none, and what is left, as the specification says |
| WireIO.Sink.WriteFrame | internal/note/wire.go:25-44 | refuses a too large body before any byte; otherwise the frame goes out, up to where the pipe broke; and reports success exactly if all of it did |
| RoutingKey.SplitUndoesJoin | internal/bus/control.go:22-38 | for any selector and any dot-free id, a key splits into those two parts exactly if it is their join |
| RoutingKey.NoDotNoId | internal/bus/control.go:22-38 | a key is all selector exactly if it has no dot, and then has no id |
| RoutingKey.HexByteValue | internal/bus/control.go:125-125 | a byte's two digits are those of its high and its low half |
| RoutingKey.NewID | internal/bus/control.go:118-126 | from any 16 bytes, masked in place: 36 characters with four dashes, version digit 4, variant digit 8, 9, a or b, hexadecimal otherwise, and no dot |
| RoutingKey.NewIDForm | internal/bus/control.go:116-126 | every id has the 36-character version-4 form of section 5.4 of RFC 9562, without dots |
| RoutingKey.IdsCollideExactly | internal/bus/control.go:123-125 | two draws give one id exactly if they agree on the 122 bits that are not masked |
| RoutingKey.PublishedKeySplits | internal/bus/bus.go:256-261 | a published key gives back its selector and id, whatever the selector |

## Left out

- The codec, the settings, base64 and the control envelope: decoding is a parameter that gives a
  chain or fails.
- A deliver's selector, data and metadata: the note names its message by id.
- Pool.WorkerPool.Dispatch: ends at the registration; the send and what follows a refused one are
  `Process.Send` and `Worker.OnUnsent`, and steps of the transition systems. Waiting forever is cut
  off after a number of turns the caller chooses.
- Pool.WorkerPool.LeastLoaded: pickups between two reads are left out, since they change no load; the
  engine's transition system has them.
- JSON: a note is a value of a datatype, its body a sequence of bytes given by an arbitrary
  encoding function; `Reader.Read`'s switch on the note type ends the read loop on an error, as any
  other end of the stream does here.
- The AMQP connection, exchange, queue and bindings, the channel mutex, and the broker: only the
  prefetch window is kept, as an assumption about which runs are considered. The narrowing of the
  prefetch to 16 bits happens in the AMQP library, which is not part of this model.
- Errors of the settle callbacks: the engine ignores them, and a callback counts as made when called.
- Spawning, pipes, signals, exit statuses and backoff are nondeterministic steps. A kill looks
  for a process and is recorded in the run; the exit it causes is an end of the read loop, which the
  model allows at any time. The grace is over at any time after the closes.
- The loops that never end by themselves (`run`, `readLoop`, the writer's outer select, Dispatch's
  wait) are steps of the transition system; their bodies are methods or steps, and only loops that
  terminate are Dafny loops. `Shutdown`'s second loop, which waits, is likewise steps.
- Engine.ShutdownIsComplete: says what holds when `Shutdown` returns, not that it returns; that, and
  that every message is settled in the end, depends on handlers, timers and scheduling.
  `Closing.ClosingBoundsSupervisor` and `Guards.SupervisorNeverStuck` bound what is left to run.
- Projection.ShutdownMayWait: what the process left alone then does is up to the handler; it may still exit.
- Isolation.IdsAreNeverReused: ids are unbounded integers here; the 64-bit counter of the code would
  wrap after 2^63 messages. The same holds for Stdin.DeliverIdsIncrease and Composition.StdinIdsIncrease.
- Stopping a timer on the death path and the callback that follows are one step; no other party can
  observe the state between them.
- A nil chain and an empty chain are one value; nothing in the modelled code tells them apart.
- The random source failing, `queueName`, `mergeArgs`, `inSelectors`, `healthAddr`, the health
  server, the manifest, `main.go` and log texts.
