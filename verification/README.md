# nano-ray in Dafny

A model of the nano-ray runtime and proofs about it: tasks whose arguments may refer to
other tasks' results form a graph; a scheduler releases a task when its dependencies have
been announced; workers execute it; a collector stores and announces the result; lost
objects are recomputed from their lineage; actors are chains of such tasks; nodes talk to
a head over length-prefixed messages.

The project has two layers.

*Objects.*  Classes and loops in the form of the source, each method proved against a
function or a statement of what it promises: the reference collector (`Dag.dfy`), the
scheduler (`SchedulerClass.dfy`), the object store (`StoreClass.dfy`), the ownership table
(`Ownership.dfy`), the driver's runtime with submission, flush, collection, eviction and
recursive reconstruction (`Runtime.dfy`), the head's dispatcher (`Head.dfy`), the actor
handle (`Actor.dfy`), sockets and messages (`Transport.dfy`).

*Interleavings.*  Step machines whose runs are arbitrary interleavings of the atomic
operations of the source, with invariants and theorems over all runs: the whole task
runtime of driver and head (`Cluster*.dfy`), the Rust scheduler one map operation at a time
(`Rust*.dfy`), the blocking object stores (`StoreProtocol.dfy`, `StoreClass.dfy`), a
connection shared by several threads and a worker node on it (`Link.dfy`, `Node*.dfy`).

Both layers measure values against one yardstick, `Lineage.Meaning`: the recursive
evaluation of an object's lineage.  Reconstruction, the actor chain and the machine are all
proved against it, and it is itself tied to what the user's functions return (`Calls.dfy`,
`Actor.dfy`) and to where references stand in the arguments (`DagPaths.dfy`).  `Simulation.dfy` joins the layers: every history of the driver's runtime,
in the terms of its methods' contracts, is a run of the task machine.

## Assumptions

- Task functions are deterministic functions of immutable values; they are the fields of
  `Lineage.World`, a parameter of everything.  A `_TaskError` is an ordinary stored value.
- References passed as arguments come from earlier submissions.  References are searched in
  lists, tuples, dictionary values and keyword arguments, as the source does.
- A worker reports what running the payload gave it.
- Pickling is lossless.  A task spec is identified by its task id, since it never changes.
- Queues between threads are bags in `Cluster`: the theorems hold for every order of
  service, FIFO included.  A machine step is one lock region or one operation of a
  concurrent map or queue.
- The theorems that need no failure, no eviction or no dropped connection say so in their
  statement.

## What the code does and its comments do not say

- `docs/design.md` (136-140) describes a counter of open dependencies; the code keeps the
  set of unresolved ids, and so does the model.  With a set a repeated dependency
  (`add(ref_a, ref_a)`) is harmless, with a counter it need not be.
- The comment in `_flush_ready_tasks` (`driver.py:310-313`) says that a ready task's
  dependencies are in the store.  That fails through evictions and through nothing else:
  a flush or poll waits if and only if its next reference was evicted while somebody counted
  on it and has not been stored again (`ClusterFlush.BlockedIffEvicted`).  "Counts on" includes
  an object that has been found or stored and whose announcement is still on its way;
  `ClusterWitness.EvictionBlocksFlush` is a run in which the collector hangs.
- A failed task's object is stored but never announced.  So a task that reached the scheduler
  before the failure stays pending although its dependency is in the store
  (`ClusterWitness.FailureLeavesPending`), until a later submission that refers to the failed
  object finds it stored and announces it, which releases the earlier task too
  (`ClusterWitness.LaterSubmissionReleases`).  The exact rule is `ClusterRule.PendingIffUnannounced`:
  a task is pending if and only if some dependency has not been announced since it was submitted.
  The Rust scheduler has the same case (`RustComplete.FailureIsNotAnnounced`).
- The driver does not execute each task at most once: reading an object that is still being
  computed dispatches its task again (`ClusterWitness.EarlyGetDispatchesTwice`).  How often a
  task is dispatched is counted exactly (`ClusterCount.DispatchCount`), and no task is
  dispatched twice if and only if no get or reconstruct call redid one that had been popped or
  redone before (`ClusterCount.DriverAtMostOnceIff`).  Values are right all the same
  (`ClusterValues.ValueSoundness`).  The head never redoes anything and is exactly-once.
- Deleting an object, even an absent one, discards its wait handle: readers can be orphaned
  (`StoreClass.DeleteOrphansReader`) or woken for nothing (`StoreClass.DeleteMakesDisappear`).
  Both are characterised exactly: a reader is woken if and only if some put looked its
  notification up between a registration with it and its removal (`StoreProtocol.WokenIffAnswered`),
  and finds nothing if and only if its object was removed and not inserted again since
  (`StoreProtocol.DisappearsIffRemovedLast`).  The Python `delete` answers False for a stored
  `None`, which it removes.
- A node can lose results, and without a fixed bound.  A send into a connection the head has
  closed may go through, `recv_msg` then returns None, and the reporter discards that None and
  takes the next result (`node.py:148-163`); a result over the size limit raises a `ValueError`
  the reporter does not catch, so it dies with the connection standing.
  `Node.LossesAreBounded` counts exactly what else can be lost, and
  `NodeWitness.LossesReachBound` reaches the bound for every number of reports sent in vain.
- A message that is `None` reads as the end of the connection (`Transport.StreamRoundTrip`
  is an equivalence).

## Model

| member | source | states |
|---|---|---|
| Dag.RefList.Collect | python/nano_ray/dag.py:40-48 | the recursive walk appends to the shared list exactly the references below the items, left to right, repetitions kept; what these are is stated by path in the `DagPaths` rows |
| Dag.ExtractDependencies | python/nano_ray/dag.py:26-37 | positional arguments first, keyword arguments after |
| DagPaths.ExtractedAreThePaths | python/nano_ray/dag.py:26-48 | without the walk: the extracted ids are what stands at exactly the paths of the argument tree that lead to a reference, in the lexicographic order of these paths, positional arguments before keyword arguments |
| DagPaths.ExtractedIffReferred | python/nano_ray/dag.py:26-48 | an id is extracted if and only if some path leads to a reference with it; a plain integer never is |
| DagPaths.ExtractedAsOften | python/nano_ray/dag.py:26-48 | and as often as there are such paths |
| Dag.ExtractionMatchesResolution | python/nano_ray/dag.py:26-79 | resolution calls the getter on exactly the extracted sequence, in that order, even for a getter whose answers depend on earlier calls, and puts the k-th answer where the k-th reference was |
| Dag.ResolutionDependsOnAnswersOnly | python/nano_ray/dag.py:51-79 | two getters that agree on the extracted references give the same resolved call |
| Dag.ResolutionPreservesShape | python/nano_ray/dag.py:66-77 | at every path of the argument tree: a reference becomes its object, any other node keeps kind, size, keys and leaf value, and inserted objects are not searched |
| Lineage.RecordKeepsLineage | python/nano_ray/driver.py:177-196 | registering a call under fresh ids whose references are registered keeps the lineage graph well-founded |
| Lineage.MeaningStable | python/nano_ray/_fallback/ownership.py:40-65 | later registrations never change what an object means |
| Lineage.AncestryDescends | python/nano_ray/driver.py:176-196 | ids strictly decrease along every chain of dependencies, so the graph is acyclic and chains are bounded by the id they start from |
| Calls.UserTaskMeans | python/nano_ray/driver.py:66-75 | an object of a plain task means what the user's function returns on the positional and keyword arguments with every reference replaced by the meaning of its object; if the function raises, it means a `_TaskError` with the id of that very task and the message |
| Calls.UserTaskIsStored | python/nano_ray/driver.py:344-357 | in every run, whatever is stored for a plain task, at any time and however often it was executed, is that result or that error |
| Ownership.OwnershipTable.RegisterTask | python/nano_ray/_fallback/ownership.py:40-65 | records the task's lineage and the object's producer, and touches no other entry |
| Ownership.OwnershipTable.TaskFinished | python/nano_ray/_fallback/ownership.py:67-70 | one status changes, for a known task; lineage does not |
| Ownership.OwnershipTable.TaskFailed | python/nano_ray/_fallback/ownership.py:72-76 | one status and error change, for a known task; lineage does not |
| Ownership.OwnershipTable.GetResultId | python/nano_ray/_fallback/ownership.py:83-86 | in a consistent table, an object whose producer is the given task |
| Ownership.OwnershipTable.GetProducerTask | python/nano_ray/_fallback/ownership.py:88-96 | in a consistent table, a registered task whose result is the given object |
| Ownership.OwnershipTable.GetTaskLineage | python/nano_ray/_fallback/ownership.py:98-109 | in a consistent table the dependency list is that of the saved call, and every dependency has a producer and a smaller id |
| SchedulerSpec.SubmitKeepsRepInv | python/nano_ray/_fallback/scheduler.py:31-44 | after a submission every list of the reverse index still holds exactly the pending tasks with that object unresolved, each as often as the object stands in its dependency list |
| SchedulerSpec.OnObjectReadyEffect | python/nano_ray/_fallback/scheduler.py:46-57 | the loop over the waiting list in closed form: the object leaves every unresolved set, exactly the tasks that waited for nothing else become ready, each once even with duplicate dependencies, and the invariant holds again |
| SchedulerClass.Scheduler.Submit | python/nano_ray/_fallback/scheduler.py:31-44 | the loop computes the specified index, and every submitted task is in exactly one of pending, ready, popped |
| SchedulerClass.Scheduler.OnObjectReady | python/nano_ray/_fallback/scheduler.py:46-57 | the loop computes the specified release and keeps the invariant |
| SchedulerClass.Scheduler.PopReadyTask | python/nano_ray/_fallback/scheduler.py:59-64 | the oldest ready task, never one handed out before; None exactly when nothing is ready |
| SchedulerClass.ReleaseWhenAllAnnounced | python/nano_ray/_fallback/scheduler.py:20-68 | refinement over every history of calls: a task is pending exactly while some dependency has not been announced since its submission, and has been released, exactly once, exactly when all have |
| SchedulerOrder.FirstReadyFirstOut | python/nano_ray/_fallback/scheduler.py:39-64 | over every history: the tasks handed out followed by the ready queue only ever grow at the end, so tasks leave in the order in which they became ready |
| SchedulerOrder.FirstSubmittedFirstReady | python/nano_ray/_fallback/scheduler.py:46-57 | over every history: the tasks that one announcement makes ready are appended in the order of their submission |
| RustSafety.ReleaseIsSafe | rust/nano_ray_core/src/scheduler.rs:64-126 | for every interleaving of the single map operations: no task is released twice or before all its dependencies were put, and each is in exactly one of a thread's hands, pending, released |
| RustComplete.NothingForgotten | rust/nano_ray_core/src/scheduler.rs:64-126 | for every interleaving, with callers that store failures without announcing them: once all calls are through, a task is released or pending but not both, and a pending one has a dependency that is not in the store, or is there as a failure nobody announced |
| RustExact.PendingIffNotTaken | rust/nano_ray_core/src/scheduler.rs:64-126 | the rule exactly, for every interleaving: with all calls through, a submitted task has been indexed under all its dependencies, and is pending if and only if no announcement has taken the list of some dependency since it was indexed under it |
| RustComplete.FailureIsNotAnnounced | python/nano_ray/driver.py:354-357 | concrete run of the Rust scheduler: all calls through, the only dependency stored as a failure, the task pending |
| StoreProtocol.NoLostWakeup | rust/nano_ray_core/src/object_store.rs:62-136 | any number of readers and writers, no deletion of the object: a reader that waits for a stored object has its flag set or a put is about to set it; it never meets the "disappeared" error; when no call can move it is through |
| StoreProtocol.CallsAreShort | rust/nano_ray_core/src/object_store.rs:62-148 | in every run each call takes at most six steps, so with the row above readers do return |
| StoreProtocol.ReturnsWhatWasPut | rust/nano_ray_core/src/object_store.rs:77-136 | with deletions too, a returned value was put under that id |
| StoreProtocol.WokenIffAnswered | rust/nano_ray_core/src/object_store.rs:62-148 | with deletions: a waiting reader's flag is set (or being set) if and only if some put looked the notification up after a registration with it and before a deletion discarded it |
| StoreProtocol.OrphanedOnlyByDelete | rust/nano_ray_core/src/object_store.rs:62-148 | a reader is still unwoken after a put's look-up only if a deletion of its object came between its registration and that look-up |
| StoreClass.PyRunIsFineRun | python/nano_ray/_fallback/object_store.py:28-69 | refinement: every state the Python store reaches with its lock regions is reached by the fine-grained protocol |
| StoreClass.PyNoLostWakeup | python/nano_ray/_fallback/object_store.py:28-58 | the Python store without deletions of the object: no `KeyError`, and a reader waits for a stored object only until `event.set()` |
| StoreClass.PyWokenIffAnswered | python/nano_ray/_fallback/object_store.py:28-69 | orphan characterisation for the Python store, as an equivalence |
| StoreClass.DeleteOrphansReader | python/nano_ray/_fallback/object_store.py:64-69 | concrete run: deleting an absent object leaves a reader waiting for an object that is stored afterwards |
| StoreProtocol.StoredIffNotRemovedSince | rust/nano_ray_core/src/object_store.rs:62-148 | in every run an object is there if and only if some put inserted it and no deletion removed it since |
| StoreProtocol.DisappearsIffRemovedLast | rust/nano_ray_core/src/object_store.rs:127-136 | a woken reader meets the "disappeared" error if and only if its object was removed and not inserted again since |
| StoreClass.PyStoredIffNotRemovedSince | python/nano_ray/_fallback/object_store.py:28-69 | the same for the Python store |
| StoreClass.PyKeyErrorIffRemovedLast | python/nano_ray/_fallback/object_store.py:54-58 | a woken reader of the Python store meets a `KeyError` if and only if its object was removed and not put again since |
| StoreClass.DeleteMakesDisappear | python/nano_ray/_fallback/object_store.py:54-58 | concrete run: a woken reader finds the object gone |
| StoreClass.ObjectStore.Put | python/nano_ray/_fallback/object_store.py:28-35 | one locked protocol step, then the set of the event found there; the protocol invariant holds |
| StoreClass.ObjectStore.GetOrRegister | python/nano_ray/_fallback/object_store.py:44-52 | the object, or the event to wait for; one protocol step |
| StoreClass.ObjectStore.Reread | python/nano_ray/_fallback/object_store.py:54-58 | what it finds was put under this id; it finds nothing if and only if the object was removed and not put again since |
| StoreClass.ObjectStore.Delete | python/nano_ray/_fallback/object_store.py:64-69 | removes object and event; answers False for a stored `None` |
| Cluster.LineageStep | python/nano_ray/driver.py:156-209 | every step of the machine keeps ids fresh, producer and result maps inverse, dependency lists equal to the references of the saved call, and recorded lineage unchanged |
| ClusterValues.TableGrows | python/nano_ray/driver.py:173-196 | over whole runs lineage is well-founded and append-only, whatever is evicted or recomputed |
| ClusterPlacement.BaseAlways | python/nano_ray/_fallback/scheduler.py:31-64 | in every run ids are fresh, lineage is consistent, the scheduler invariant holds, and each task is in exactly one of: on its way to the scheduler, pending, ready, popped |
| ClusterValues.ValueSoundness | python/nano_ray/driver.py:163-357 | in every run, with evictions, duplicate executions and reconstructions: every stored object, queued payload and result message is what its lineage means |
| ClusterValues.StoredValuesNeverDiffer | python/nano_ray/driver.py:245-305 | two readings of an object at any two moments agree, whatever was evicted and recomputed in between |
| ClusterOrder.DispatchIsTopological | python/nano_ray/driver.py:307-335 | in every run each payload handed to a worker comes after one of the producer of each of its references |
| ClusterRule.PendingIffUnannounced | python/nano_ray/driver.py:203-220 | in every run, at every moment after a task reached the scheduler: it is pending if and only if some dependency has not been announced since; otherwise it is ready or popped |
| ClusterCause.NothingStuckWithoutCause | python/nano_ray/driver.py:163-357 | in every quiescent state a pending task has an ancestor that failed, was evicted and is missing, or went down with a connection |
| ClusterCause.NoFailureNothingPending | python/nano_ray/driver.py:337-357 | hence without such causes nothing is pending and every task's object is stored |
| ClusterProgress.HeadStuckHasFailedAncestor | python/nano_ray/head.py:257-359 | in a quiescent head that has lost no task with a connection, a pending task has an ancestor whose stored object is a `_TaskError` |
| ClusterOnce.HeadExactlyOnce | python/nano_ray/head.py:240-348 | in every head run each task is in exactly one place, no two payloads are handed out for one task, so local flush and polls never both obtain it, and only tasks popped for a dropped connection are lost |
| ClusterCount.DispatchCount | python/nano_ray/driver.py:227-335 | in every run of driver or head, for every task: payloads handed out, plus those in preparation, plus preparations a dropped connection took, equal one if the task was popped plus the number of get or reconstruct calls that found its object missing |
| ClusterCount.AtMostOnceIff | python/nano_ray/driver.py:227-335 | once nothing is in preparation, no task has been handed out twice if and only if, for every task, pop and redos are at most one more than dropped preparations |
| ClusterCount.DriverAtMostOnceIff | python/nano_ray/driver.py:234-238 | for the driver: no task is handed out twice if and only if no get or reconstruct call redid a popped or redone one |
| ClusterFlush.FlushStep | python/nano_ray/driver.py:307-335 | the invariant "what anybody counts on is stored" survives a step if and only if the step is not the eviction of such an object |
| ClusterFlush.BlockedIffEvicted | python/nano_ray/driver.py:297-335 | in every run a flush or poll resolving a popped task's arguments cannot go on if and only if a reference is left and the next one was evicted while somebody counted on it and has not been stored since |
| ClusterFlush.FlushSafeIffCareful | python/nano_ray/driver.py:297-335 | the stronger guarantee: what anybody counts on is stored at every moment of a run if and only if no eviction took such an object |
| ClusterFlush.FlushNeverBlocks | python/nano_ray/driver.py:206-335 | in every run without such evictions a flush or poll finds every reference of a popped task in the store |
| ClusterProgress.InternalStepShrinks | python/nano_ray/driver.py:307-357 | every step other than new requests from users lowers a measure |
| ClusterProgress.InternalStepsAreBounded | python/nano_ray/head.py:257-359 | so left to itself the runtime stops after a number of steps known beforehand |
| ClusterProgress.HeadProgress | python/nano_ray/head.py:189-359 | deadlock freedom of the head with its takers, the local workers if it has any and the nodes that poll: while anything is in somebody's hands, or ready and there is a taker, it has a next step |
| ClusterProgress.HeadDrains | python/nano_ray/head.py:189-359 | where a head run cannot continue without its clients nothing is in anybody's hands; with a taker it is quiescent, without one exactly if nothing is ready; if quiescent and nothing failed every submitted task has been executed |
| ClusterWitness.EvictionBlocksFlush | python/nano_ray/driver.py:297-335 | concrete run: an eviction between put and announcement makes the flush wait |
| ClusterWitness.FailureLeavesPending | python/nano_ray/driver.py:354-357 | concrete run: a dependent of a failed task stays pending with its dependency stored |
| ClusterWitness.LaterSubmissionReleases | python/nano_ray/driver.py:217-220 | its continuation: another submission with the failed object as argument releases both tasks |
| ClusterWitness.EarlyGetDispatchesTwice | python/nano_ray/driver.py:234-238 | concrete run: an early read dispatches a task twice |
| RuntimeClass.Runtime.ResolveCall | python/nano_ray/dag.py:51-79 | the call with every reference filled from the store; or the first reference it would wait for, exactly when one is missing |
| RuntimeClass.Runtime.FlushReadyTasks | python/nano_ray/driver.py:307-335 | sends the ready tasks in order, each with the payload its lineage means; it waits if and only if some ready task has a reference that is not stored |
| RuntimeClass.Runtime.SubmitTask | python/nano_ray/driver.py:163-225 | the task waits for exactly its dependencies that are not stored and is sent if there are none; tasks that waited only for stored dependencies of this call are sent too; when the flush waits is an equivalence |
| RuntimeClass.Runtime.ResumeFlush | python/nano_ray/driver.py:317-335 | a flush that waits goes on: it keeps what it has read, reads further, and either still waits for the next missing reference or sends the task with the payload its lineage means and flushes the rest |
| RuntimeClass.RetriggerEffect | python/nano_ray/driver.py:211-220 | the pass over the dependencies, in closed form: the stored ones leave every unresolved set and exactly the tasks left with none become ready |
| RuntimeClass.Runtime.WorkerStep | python/nano_ray/driver.py:51-75 | whichever message a worker finishes first, its call is the task's call with the references resolved to what they mean, and the report is what the user's function, or the actor's constructor, returns or raises on these positional and keyword arguments |
| RuntimeClass.Runtime.HandleResult | python/nano_ray/driver.py:344-357 | stores under the id the value reported, or a `_TaskError` with the id of this task and the message reported, which is what the object means; status and error are recorded; only a success is announced |
| RuntimeClass.Runtime.CollectStep | python/nano_ray/driver.py:337-357 | after a success the tasks that missed only this object are sent, after a failure none; the task's status says which; the collector hangs if and only if one of those has a reference that is not stored |
| RuntimeClass.Runtime.EvictObject | python/nano_ray/driver.py:297-305 | the object goes and every invariant, lineage included, stays |
| RuntimeClass.Runtime.Await | python/nano_ray/driver.py:294-295 | waiting for an object in flight, while workers and collector step in any order: it ends with the object stored, or with a hanging collector |
| RuntimeClass.Runtime.ReconstructObject | python/nano_ray/driver.py:245-295 | whatever else is queued, running, ready or pending: fails exactly for a missing object without lineage, hangs only if the collector does, and otherwise terminates with the object stored, having sent only producers of missing ancestors reached through missing objects, each once and with its dependencies stored, and changed no entry; with nothing else under way it never hangs and has executed and stored exactly these |
| RuntimeClass.Runtime.GetObject | python/nano_ray/driver.py:227-243 | an object with lineage is read as what its lineage means, a `_TaskError` being raised, whatever else is under way and though its own task may be, unless the collector hangs; for a plain task that is what the user's function returned, and if it raised, the failure of that very task; a missing object is rebuilt as above; a missing object without lineage is waited for |
| Reconstruction.LostIsReached | python/nano_ray/driver.py:273-276 | the set to rebuild is exactly what can be reached along dependencies through missing objects |
| Reconstruction.LostShrinks | python/nano_ray/driver.py:273-276 | what others store meanwhile only makes less to rebuild |
| Reconstruction.WhatRemains | python/nano_ray/driver.py:273-276 | after part of the work exactly the rest remains: a shared ancestor of a diamond is rebuilt for the first object that needs it and for no other |
| Simulation.FlushIsRun | python/nano_ray/driver.py:307-335 | a flush, waiting or not, as its contract states it, is a sequence of machine steps |
| Simulation.SubmitTaskIsRun | python/nano_ray/driver.py:163-225 | a submission with its pass over the dependencies and its flush is a sequence of machine steps |
| Simulation.ResumeIsRun | python/nano_ray/driver.py:317-335 | a waiting flush that goes on is a sequence of machine steps |
| Simulation.CollectStepIsRun | python/nano_ray/driver.py:337-357 | one turn of the collector is a sequence of machine steps |
| Simulation.HistoryIsRun | python/nano_ray/driver.py:78-357 | every history of submissions, flushes, resumptions of waiting flushes, worker and collector steps and evictions reaches a state that mirrors a reachable state of the machine: same ids, lineage, scheduler, store and dispatches; jobs, results and preparations as queued and waiting |
| Simulation.HistoryIsSound | python/nano_ray/driver.py:78-357 | hence the machine's theorems hold of the driver: sound store, well-founded lineage, topological dispatch |
| Head.HeadService.FlushReadyTasks | python/nano_ray/head.py:318-338 | without local workers nothing moves; with them the head's whole state afterwards is that of the driver's flush, the messages in the local queue included; it waits if and only if a ready task has a reference that is not stored |
| Head.HeadService.Submit | python/nano_ray/head.py:257-301 | the task is recorded and waits for exactly its dependencies that are not stored; exactly the tasks that then wait for nothing are sent to local workers, or stay ready for polls if there are none; when its flush waits is an equivalence; the whole state afterwards is stated |
| Head.HeadService.Poll | python/nano_ray/head.py:240-247 | the oldest ready task and no other leaves the queue, everything else stays; it is given out with the payload its lineage means, or, exactly if a reference is missing, its handler keeps it |
| Head.HeadService.ResumePoll | python/nano_ray/head.py:303-316 | a handler that waits in a poll keeps what it has read, reads further, and gives its task out or waits for the next missing reference |
| Head.HeadService.TakeReport | python/nano_ray/head.py:340-359 | stores the value reported or the `_TaskError` of this task, announces only a success and then flushes; the whole state afterwards is stated |
| Head.HeadService.Dispatch | python/nano_ray/head.py:211-255 | every command gets the kind of answer its sender expects or waits for an absent object, and its whole effect on the head is stated: one poll answers the oldest ready task and takes no other out of the queue; a submission and a result do what the rows above say; a stored object is given out as its meaning; the rest changes nothing |
| Head.TasksAreConserved | python/nano_ray/head.py:211-359 | after any commands every submitted task is in exactly one place, once: pending, ready, sent to a local worker, in a waiting flush, given to a node, or with a waiting poll handler; no other task is anywhere; and what was sent is with the workers, reported or collected |
| Actor.ActorIsFold | python/nano_ray/actor.py:105-139 | the user's reference for call i means what an ordinary object returns when the calls are made one after the other in submission order, and an error that names the task of that reference if the constructor or a call up to i raised |
| Actor.FirstErrorIsNamed | python/nano_ray/actor.py:65-127 | where the constructor or a method raises, the state object is the `_TaskError` with the message raised and the task that ran it |
| Actor.FailurePoisons | python/nano_ray/actor.py:122-138 | once a state object means an error, so do all later state and user objects |
| Actor.ActorCallsAreSequential | python/nano_ray/actor.py:105-139 | in every run, whatever is stored for a user's reference is the output of that fold, or the error that names its task |
| Actor.FailedActorStaysFailed | python/nano_ray/actor.py:122-138 | in every run, after a state object was seen as a `_TaskError`, later calls only ever store `_TaskError`s |
| Actor.CreateActor | python/nano_ray/actor.py:56-72 | the handle is there if and only if the submission does not have to wait, its chain starts at the constructor's object, and the runtime's state is that after the submission; otherwise a recorded task waits for a dependency that is not stored |
| Actor.ActorHandle.Remote | python/nano_ray/actor.py:105-139 | private names are refused and do nothing; else the state of runtime and handle afterwards is stated in full: a reference is returned if and only if neither of the two submissions has to wait, the chain grows by one state object and one user object exactly if the first has gone through, and a call that waits does so for a missing dependency of a recorded task |
| Transport.PackRoundTrip | python/nano_ray/transport.py:31-44 | the four-byte header loses nothing |
| Transport.PackIsMonotone | python/nano_ray/transport.py:31-44 | the header is in network byte order: of two lengths the smaller has the lexicographically smaller header |
| Transport.RecvExact | python/nano_ray/transport.py:65-75 | however the bytes are split, the next n bytes, or None exactly when fewer are left; the loop ends |
| Transport.RecvMsg | python/nano_ray/transport.py:47-62 | parses one frame off the stream, reports an oversized one, and takes an incomplete one for the end |
| Transport.SendMsg | python/nano_ray/transport.py:35-44 | sends one frame, or refuses an oversized message without sending |
| Transport.ReceiveAll | python/nano_ray/head.py:189-198 | the reading loop gets exactly what the stream says, for every way the bytes can be split |
| Transport.ParsedIsFrame | python/nano_ray/transport.py:47-62 | only bytes that are a frame are read as a message |
| Transport.TruncatedStreamIsPrefix | python/nano_ray/transport.py:35-75 | of a stream cut anywhere the reader gets exactly the messages that arrived completely, in order |
| Transport.CompleteCounts | python/nano_ray/transport.py:47-62 | and that number is exact: one more message would not have fitted |
| Transport.StreamRoundTrip | python/nano_ray/transport.py:35-62 | an uncut stream arrives as what was sent if and only if no message was `None` |
| Link.OwnResponse | python/nano_ray/remote_runtime.py:79-83 | any number of threads on one locked connection that may be dropped at any moment, with sends that fail, go through in vain or are refused: a response a caller gets is the head's response to its own request, of the right kind |
| Link.OneAtATime | python/nano_ray/node.py:127-131 | the connection never carries more than one request or response, and while it stands at most the last request has no response |
| Node.NoMixUp | python/nano_ray/node.py:133-163 | the poller never gets an acknowledgement, the reporter never a task |
| Node.NodeConservesTasks | python/nano_ray/node.py:133-163 | in every run, dropped connection, reports sent in vain, failing and refused reports included: the tasks given to a node are those it returned plus those on the connection, in poller's or reporter's hands, queued or running, plus those lost, with multiplicity |
| Node.LossesAreBounded | python/nano_ray/node.py:127-163 | while the connection stands nothing is lost unless the reporter has died of a refused report, and then one task; afterwards the reports sent in vain, and besides them at most two tasks: the one under way and one whose send failed |
| NodeWitness.LossesReachBound | python/nano_ray/node.py:148-163 | for every n a concrete run in which n reports are sent in vain and n + 2 tasks are lost, so no bound holds that does not count them |
| NodeWitness.RefusedReportIsLost | python/nano_ray/transport.py:41-42 | concrete run: a result too large to send is lost although the connection stands |

## Left out

- Simulation.HistoryIsRun: covers submissions, flushes, resumptions, worker and collector steps, evictions and ids; the dispatches of a reconstruction are `Redo` steps of `Cluster`, but `RuntimeClass.Runtime.ReconstructObject` as a whole is not broken down into machine steps, and neither are the calls of `Head.HeadService`.
- Actor.ActorHandle.Remote: when the first of its two submissions waits, the call ends there in the model; the second one, which the thread makes once the wait is over, is then `SubmitPick` by itself.
- RuntimeClass.Runtime.ReconstructObject: one user thread with all workers and the collector; several user threads at once, and evictions during a reconstruction, are covered by the machine only.
- Node.LossesAreBounded: promises no bound on the number of lost tasks beyond the reports sent in vain, because the code has none.
- StoreClass.ObjectStore.Put: the two phases of `put` in one method, for one thread; other threads in between are covered by `StoreProtocol` and `PyRunIsFineRun`.
- Timeouts of `get_or_wait` are a step that may give up at any time; the timed wait's exact duration, poll intervals and shutdown sentinels are not modelled.
- In the machine the scheduler's methods are atomic, as the Python lock makes them; the Rust scheduler's finer steps are treated by themselves in `RustScheduler`.
- The Rust ownership table inserts into two maps one after the other; it is modelled as the one step of the Python table, since the ids are unknown to others until the submission returns.
- Reference counts, owner ids, function descriptions, locations, `api.wait`, the dashboard's metrics, the command line.
- Sockets, process start and join, cloudpickle, the GIL, DashMap and SegQueue internals: byte streams, queues and atomic map operations instead.
- Error texts and tracebacks: a failure carries some string.
- A keyword argument called `prev_state_or_tuple`, which clashes with a parameter of the actor closure, and actor states that are arbitrary indexable objects.
- References inside sets, dictionary keys or user-defined containers, which the source does not search either; subclasses of list, tuple and dict.
- Mutation of arguments or stored values after submission.
