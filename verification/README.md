# A verified model of the volcano-global dispatcher

The dispatcher of volcano-global decides which suspended ResourceBindings may go on to the Karmada
scheduler. It works in periods. Every period takes a snapshot of a cache, sorts the suspended
bindings of every Volcano queue, and visits them round-robin: one binding of every queue per round.
A visited binding that fits the capacity of its queue is allocated there, marked, and handed to a
work queue; workers then lift its suspension in the API by a patch, while informer events go on
changing the cache. A mutating webhook makes every binding of a registered workload start suspended.

This project models that in Dafny 4.11 and proves what the design relies on. `dafny verify
dfyconfig.toml` checks all of it.

## How the model is built

One **session** is described twice. `Sessions` says what it means, as a fold over the tries of a
round-robin of sorted lists. `Dispatcher`, `Capacity`, `Records` and `DispatcherCache` are the
imperative form: classes with the program's fields, attributes and records updated in place, loops
over maps in an order nobody fixes, two swapped priority queues, and the allocate / roll back /
unsuspend branches. `Dispatchers.Dispatch` is proved to end exactly where the fold ends, whatever
informer events and workers do to the cache between the tries, so what is proved about the fold (greedy
per queue, isolation of queues, exact accounting, the capacity bound, fairness, no inversion) holds of
the loop. `Turns` says when a binding is tried and whether it is dispatched in terms of priorities,
ages, amounts and limits alone. Because the loops over maps take their elements in any
order and still meet contracts that are equations, the outcome does not depend on that order.

The **cache** is `DispatcherCaches.DispatcherCache`, with the two maps of maps and heap records. Every
method is one section under the mutex and is proved equal to a function on cache values
(`CacheModel`, `PriorityClasses`, `WorkQueues`). The same functions are the steps of the **protocol**
(`Protocol`; `DispatcherCaches.DispatcherCache.Act` says so of every section that is not the dispatcher
thread's), in which events, snapshots, unsuspend requests, any number of workers and one goroutine
per patch interleave. Its invariant is proved one key at a time: every action acts on each key as a
step of a small automaton (`Protocol.ViewStep`). `Progress` says which requests the workers can still get
to, and `Hazards` has runs in which the cached status misleads.

The **whole system** (`Clusters`) adds the API server with every version a binding's suspension ever
had, an informer that delivers versions late and may skip some, the webhook as the create step,
changes of queues, member clusters and priority classes, edits by anybody, patches that are applied
but reported as failed, and sessions whose requests are made one by one between anything else that
happens. The lemmas of `AdmissionGate` and `Runs.DispatcherNeverStuck` are about all runs of that
system. `CapacitySafety.CapacityIsSafe` and `CapacitySafety.ReleasedIsSafe` are about its runs that
are steady and calm, two conditions on single steps that are spelled out under "Left out";
`Overflows` has runs that break one of them and end above the bound. The session steps are those of
`Dispatchers.RunOnce`: a snapshot, then the requests for its decisions, in order, among what others do;
`Periods.UndisturbedPeriod` does the same with nobody else acting, and `Service.SomeRunServes` shows
that the assumed runs include those in which bindings are dispatched.

## Contracts of what is not in the repository

- PriorityQueue holds distinct elements; Pop takes out a least one (`Sorting.Pop`).
- Resource amounts are vectors of whole numbers by dimension, missing ones zero. `LessEqualWithDimension`
  compares only the dimensions the request demands; the minimum with default Infinity leaves
  dimensions the declaration lacks unlimited; the names of a resource always include CPU and memory,
  which decides when a share is taken of a zero limit; Share has its two conventions for a zero limit
  (`Resources`).
- client-go's work queue has a dirty set, a processing set and a FIFO list; Add during processing only
  marks dirty, Done queues a dirty key again (`WorkQueues`).
- NewQueueInfo gives a queue its own name as UID; names are not empty (`Api.ValidSnapshot`).
- `ParseGroupVersion` of apimachinery, and "add" of section 4.1 of RFC 6902 for object members (`Admission`).

## Where the code and its documents differ

- docs/proposals/queue-capacity-management.md:131 orders queues of equal priority by share. The code
  orders them by creation time and then UID; the model follows the code, and share never decides anything.
- A binding that names no queue is routed to the default queue, but the capacity plugin looks it up
  under the empty name and always fails (capacity.go:150), so it is tried in every period and never
  dispatched. `Sessions.TurnIsReady` and `Greedy.QueueIsolation` say so.
- A worker that does not find its key in the cache leaves the key processing and leaves the loop
  (resource_binding_processor.go:58-62). `Protocol.DroppedForever`: no run patches that key again.
- The default priority class can get lost although a stored class is marked global default
  (`PriorityClasses.MovingTheMarkCanLoseIt`); `PriorityClasses.AgreementKeptExactly` says exactly when.
- The patch replaces the whole suspension, so a dispatching suspension beside it is lost
  (`Admission.PatchKeepsDispatchingExactly`).

## Model

| member | source | states |
|---|---|---|
| Orders.OrderFnStrictTotal | pkg/dispatcher/framework/session_plugins.go:47-81 | for any fixed list of consistent comparators, "first with an opinion, else creation time, else UID" is irreflexive, transitive and total on elements told apart by UID |
| Orders.FirstOpinionDecides | pkg/dispatcher/framework/session_plugins.go:47-81 | the first comparator that answers anything but zero decides, by its sign; when none does the older one comes first, and of equally old ones the smaller UID |
| Orders.StringLessMeaning | pkg/dispatcher/framework/session_plugins.go:47-81 | one UID is smaller than another iff it is a proper prefix of it or smaller at the first place where they differ |
| Orders.QueueLessStrictTotal | pkg/dispatcher/plugins/capacity/capacity.go:75-91 | the queue order of the session is a strict total order on queues with different UIDs |
| Orders.QueueLessMeaning | pkg/dispatcher/plugins/capacity/capacity.go:75-91 | a queue comes first iff it has the higher priority, or the same and is older, or both the same and the smaller UID |
| Orders.BindingLessStrictTotal | pkg/dispatcher/plugins/priority/priority.go:45-62 | the binding order of the session is a strict total order on bindings with different UIDs |
| Orders.BindingLessMeaning | pkg/dispatcher/framework/session_plugins.go:65-81 | with the priority plugin, a binding comes first iff it has the higher priority, or the same and is older, or both the same and the smaller UID |
| Rounds.ProjectRoundRobin | pkg/dispatcher/dispatcher.go:150-196 | seen from one queue, the round-robin tries exactly that queue's list, in its order |
| Rounds.RoundRobinIsFair | pkg/dispatcher/dispatcher.go:150-196 | in any prefix of the tries, two queues that both still have bindings have been tried equally often, give or take one |
| Rounds.RoundRobinOrder | pkg/dispatcher/dispatcher.go:150-196 | one try comes before another iff its queue had fewer turns before it, or equally many and is ahead in the order of the queues |
| RoundRobinLoop.LoopSwaps | pkg/dispatcher/dispatcher.go:151-160 | when the current queue of queues is empty, swapping it with the rounded one puts the loop at the start of the next round |
| RoundRobinLoop.LoopPops | pkg/dispatcher/dispatcher.go:162-171 | a popped queue always has a non-empty list of bindings: the "not found or empty" branch is dead |
| RoundRobinLoop.LoopTurns | pkg/dispatcher/dispatcher.go:162-195 | popping a queue and a binding and putting a non-exhausted queue back keeps the loop's invariant, and what was popped is the next try of the round-robin |
| RoundRobinLoop.LoopEnds | pkg/dispatcher/dispatcher.go:151-156 | when both queues of queues are empty, what was tried is the whole round-robin |
| RoundRobinLoop.CourseOfVisit | pkg/dispatcher/dispatcher.go:150-196 | started on a session's queues, the loop goes through a determined course of points, whose pops are the tries of the round-robin, and which ends when and only when all were made |
| Sessions.TriesOfQueue | pkg/dispatcher/dispatcher.go:105-196 | a session tries, of every queue, exactly its suspended bindings in the binding order |
| Sessions.TriedExactlyOnce | pkg/dispatcher/dispatcher.go:105-196 | a binding is tried iff it is in the snapshot, suspended, and the queue it joins exists, which is the one it names or, if it names none, the default one; and then at one position only, at that queue |
| Turns.TriesOrder | pkg/dispatcher/dispatcher.go:150-196 | of two tries of a session the first is the one whose queue had fewer turns before it; in the same round the one whose queue has the higher priority, or the same and is older, or both the same and the smaller UID |
| Turns.TriesOfQueueOrder | pkg/dispatcher/dispatcher.go:162-196 | of two tries at one queue the first is of the binding with the higher priority, or the same and older, or both the same and the smaller UID |
| Turns.HigherClassFirst | pkg/dispatcher/cache/snapshot.go:56-76 | of two cached bindings of one queue, a session on a snapshot of the cache tries first the one whose class, or the default for one that names none, has the higher value |
| Sessions.TurnIsReady | pkg/dispatcher/plugins/capacity/capacity.go:137-155 | when its turn comes a binding is still suspended, its queue has an attribute, and the lookup by the binding's own queue name misses iff that name is empty |
| Sessions.FitsMeaning | pkg/dispatcher/plugins/capacity/capacity.go:137-147 | a request fits iff, in every dimension it asks for, what is allocated and the request together are within the limit, whatever is allocated in other dimensions |
| Turns.DispatchedAtItsTurn | pkg/dispatcher/dispatcher.go:170-190 | a tried binding is dispatched iff it names its queue and, at its turn, its request of all replicas on top of the load of that queue is within the queue's limit in every dimension it asks for |
| Turns.LoadMeaning | pkg/dispatcher/plugins/capacity/capacity.go:93-135 | the load of a queue is, in every dimension, the sum of request of one replica times replicas over the bindings that name it, or name none while it is the default, and are not suspended |
| Sessions.RealCapabilityMeaning | pkg/dispatcher/plugins/capacity/capacity.go:106-122 | the limit of a queue is the cluster total in a dimension its capability does not declare, or declares as no CPU or no memory, and in any other the smaller of the declared amount and the total |
| Sessions.AccountingIsExact | pkg/dispatcher/plugins/capacity/capacity.go:93-177 | after any of a session's tries, successful or not, what a queue has allocated is the sum over the bindings resolved to it that are not suspended |
| Sessions.SessionCapacityBound | pkg/dispatcher/plugins/capacity/capacity.go:137-161 | at no point of a session is a queue's load, in any dimension, above the larger of its load at the start and its limit; a queue that does not exist gains no load |
| Greedy.QueueIsolation | pkg/dispatcher/dispatcher.go:150-196 | what a session dispatches of a queue and allocates there is a greedy scan of that queue's sorted bindings alone, taking a binding iff it names its queue and fits |
| Greedy.OtherQueuesDoNotMatter | pkg/dispatcher/dispatcher.go:150-196 | two snapshots that agree about one queue dispatch the same bindings of it in the same order, whatever the other queues hold |
| Greedy.LeftOutDoesNotFit | pkg/dispatcher/dispatcher.go:172-190 | a suspended binding that names an existing queue and was not dispatched does not fit what that queue has allocated when the session ends |
| Greedy.NoPriorityInversion | pkg/dispatcher/dispatcher.go:170-190 | if a binding later in its queue's order is dispatched and asks at least as much in every dimension, the earlier one is dispatched too |
| Outcomes.BoundAfterRequests | pkg/dispatcher/dispatcher.go:170-187 | however many of a session's unsuspend requests have been made, no queue's load is above the larger of its start and its limit |
| Outcomes.RequestFacts | pkg/dispatcher/dispatcher.go:181-185 | every unsuspend request is for a suspended binding of the snapshot, and no key is requested twice |
| Outcomes.RequestedFit | pkg/dispatcher/dispatcher.go:170-187 | every requested binding fitted what its queue had allocated when its turn came |
| Capacity.QueueAttr.UpdateShare | pkg/dispatcher/plugins/capacity/capacity.go:179-187 | the share becomes the largest ratio of allocated to limit over all dimensions of the limit |
| Capacity.ShareUnique | pkg/dispatcher/plugins/capacity/capacity.go:179-187 | that largest ratio has one value, so the share equals recomputation from scratch |
| Capacity.ShareMeaning | pkg/dispatcher/plugins/capacity/capacity.go:179-187 | no dimension uses more than that part of its limit, some dimension uses exactly it, and a dimension without a limit counts as full once anything of it is used; CPU and memory always count |
| Capacity.CapacityPlugin.BuildQueueAttrs | pkg/dispatcher/plugins/capacity/capacity.go:93-135 | whatever order the bindings come in, exactly the existing queues that some binding names, or joins by default, get an attribute, with their load, an exact share, and as limit in every dimension the cluster total or the smaller declared amount, where no CPU or no memory declares nothing |
| Capacity.CapacityPlugin.AllocatableFunc | pkg/dispatcher/plugins/capacity/capacity.go:137-147 | the answer is yes iff, in every dimension the candidate asks for, what the attribute has allocated and the request together are within its limit |
| Capacity.CapacityPlugin.AllocateFunc | pkg/dispatcher/plugins/capacity/capacity.go:149-162 | adds the request to the binding's own queue and to nothing else, or fails without a change exactly when that queue has no attribute; all shares stay exact |
| Capacity.CapacityPlugin.DeallocateFunc | pkg/dispatcher/plugins/capacity/capacity.go:164-177 | subtracts the request likewise and fails on exactly the same bindings; all shares stay exact |
| Framework.Allocate | pkg/dispatcher/framework/session_plugins.go:94-108 | every handler's allocate is invoked, also after one failed; the call succeeds iff all of them did |
| Framework.UnAllocate | pkg/dispatcher/framework/session_plugins.go:111-125 | every handler's deallocate is invoked; the call succeeds iff all of them did |
| Framework.TryAllocate | pkg/dispatcher/dispatcher.go:173-179 | when some handler fails to allocate, every handler that rolls back ends as it began, those that had succeeded included |
| Framework.CapacityRollsBack | pkg/dispatcher/plugins/capacity/capacity.go:149-177 | the capacity plugin rolls back, in every dimension of every queue, because its two functions fail on exactly the same bindings |
| Dispatchers.Collect | pkg/dispatcher/dispatcher.go:104-140 | whatever order the bindings come in, the collected queues are exactly those that exist and have suspended bindings, each with all of these |
| Dispatchers.AllocateOrRollBack | pkg/dispatcher/dispatcher.go:173-179 | on success the books gain the request, on failure deallocating leaves them as allocating left them, and shares and limits are right either way |
| Dispatchers.TryDispatch | pkg/dispatcher/dispatcher.go:170-190 | one try takes plugin, session records and cache to the state the fold says, on the success path, the roll-back path and the path that does not fit |
| Dispatchers.VisitRoundRobin | pkg/dispatcher/dispatcher.go:145-196 | the swap loop ends and has gone through the planned tries, each once and in order, with others at work on the cache before every try |
| Dispatchers.Dispatch | pkg/dispatcher/dispatcher.go:93-199 | whatever others do to the cache between the tries, a dispatch leaves books, shares and records where the session's meaning says, and the cache has had exactly the session's decisions as its unsuspend requests, in order |
| Dispatchers.OpenSession | pkg/dispatcher/framework/session.go:43-64 | a session opens on a snapshot of the cache, owns fresh records, and its books are the snapshot's loads |
| Dispatchers.RunOnce | pkg/dispatcher/dispatcher.go:78-86 | one period writes the priorities into the cache and then makes the decisions' requests in order, among whatever others do; undisturbed, it changes no other status although it marks its own copies |
| Records.Info.DeepCopy | pkg/dispatcher/api/resource_binding_info.go:42-53 | the copy is a new record with the same value in every field |
| DispatcherCaches.DispatcherCache.SetResourceBinding | pkg/dispatcher/cache/event_handlers.go:198-254 | a fetched and converted workload is stored in both indexes with a fresh record whose status comes from the spec; anything else leaves the cache unchanged |
| DispatcherCaches.DispatcherCache.UpdateResourceBinding | pkg/dispatcher/cache/event_handlers.go:182-196 | an update with the same resource version is ignored, any other is a set |
| DispatcherCaches.DispatcherCache.DeleteResourceBinding | pkg/dispatcher/cache/event_handlers.go:163-180 | the key leaves both indexes; the early return for an unknown namespace misses nothing |
| DispatcherCaches.DispatcherCache.IndexesAgree | pkg/dispatcher/cache/event_handlers.go:163-254 | both two-level maps hold the same keys and each record wraps the binding stored under its own namespace and name |
| DispatcherCaches.DispatcherCache.AddPriorityClass | pkg/dispatcher/cache/event_handlers.go:95-104 | stores the class, and makes it the default iff it is marked |
| DispatcherCaches.DispatcherCache.DeletePriorityClass | pkg/dispatcher/cache/event_handlers.go:106-120 | forgets the class, and the default iff the deleted object was marked |
| DispatcherCaches.DispatcherCache.UpdatePriorityClass | pkg/dispatcher/cache/event_handlers.go:122-141 | nothing for an unchanged resource version; else the default is dropped if the old object was marked, and the new object stored |
| DispatcherCaches.DispatcherCache.UnSuspendResourceBinding | pkg/dispatcher/cache/resource_binding_processor.go:32-44 | a cached binding is marked unsuspending and its key added to the work queue; for any other key nothing happens |
| DispatcherCaches.DispatcherCache.LookUp | pkg/dispatcher/cache/resource_binding_processor.go:55-63 | a worker gets the binding cached under the key at that moment, or nothing iff there is none |
| DispatcherCaches.DispatcherCache.RecoverStatus | pkg/dispatcher/cache/resource_binding_processor.go:81-89 | after a failed patch the record, if there still is one, is suspended again |
| DispatcherCaches.DispatcherCache.Act | pkg/dispatcher/cache/event_handlers.go:95-254 | every section that an informer event or a worker runs under the mutex does to the cache what the protocol's action says, and creates no record but its own |
| DispatcherCaches.DispatcherCache.Snapshot | pkg/dispatcher/cache/snapshot.go:37-79 | whatever order the maps are walked in, the snapshot is the same function of the cache, its records are fresh copies, and the cache differs only by the priorities written |
| CacheModel.SnapshotIsValid | pkg/dispatcher/cache/snapshot.go:41-76 | a snapshot tells bindings apart by UID and by key, and its queues carry their own names |
| CacheModel.SnapshotMeaning | pkg/dispatcher/cache/snapshot.go:37-79 | a snapshot holds exactly the cached bindings that name no class or a stored one, each as cached but for its priority, which is its class's value, or the default's if it names none and there is a default, or as it was |
| CacheModel.PrioritiesMeaning | pkg/dispatcher/cache/snapshot.go:56-76 | taking a snapshot writes these priorities into the cache and nothing else |
| CacheModel.StoredMeaning | pkg/dispatcher/cache/event_handlers.go:198-254 | a stored update replaces the entries of its key in both indexes and nothing else; the record has the queue and the class of the workload and is suspended iff the spec suspends scheduling |
| CacheModel.UnSuspendAllTouches | pkg/dispatcher/cache/resource_binding_processor.go:32-44 | a run of unsuspend requests changes statuses only at the keys asked for |
| HiddenLoad.SnapshotCountsExactly | pkg/dispatcher/cache/snapshot.go:62-67 | in every dimension a session opens on at most the summed request of the queue's cached bindings that are not suspended, and on exactly that iff none of them that names an unknown priority class asks for any of it |
| PriorityClasses.ClassesAfter | pkg/dispatcher/cache/event_handlers.go:95-149 | an added or newly updated class is stored, marked or not, a deleted one is not, and no other class is touched; an unchanged resource version changes nothing |
| PriorityClasses.DefaultAfter | pkg/dispatcher/cache/event_handlers.go:95-149 | the default after an event is the new object if marked, else none if the old or deleted object was marked, else the one before |
| PriorityClasses.FallbackAlwaysStored | pkg/dispatcher/cache/event_handlers.go:95-149 | after any events in order the default, when there is one, is a stored class marked global default |
| PriorityClasses.AgreementKeptExactly | pkg/dispatcher/cache/event_handlers.go:106-141 | one event keeps "the default is present iff a stored class is marked" iff it does not take a mark away while another stored class is marked |
| PriorityClasses.OneDefaultMeansAgreement | pkg/dispatcher/cache/event_handlers.go:95-149 | with at most one marked class at any time, the default is present exactly when some stored class is marked |
| PriorityClasses.MovingTheMarkCanLoseIt | pkg/dispatcher/cache/event_handlers.go:122-141 | adding a second marked class and then unmarking the first loses the default |
| Protocol.ViewStep | pkg/dispatcher/cache/resource_binding_processor.go:32-93 | every action of the system acts on each key as that key's own automaton step |
| Protocol.ProtocolSafety | pkg/dispatcher/cache/resource_binding_processor.go:32-93 | in every reachable state: an unsuspending binding's request is dirty, processing, or answered with success last; at most one patch per key is in flight; patches started plus the pending mark never exceed the calls; the indexes agree |
| Protocol.HiddenExactly | pkg/dispatcher/cache/event_handlers.go:233-245 | an outstanding request becomes invisible in the cached status in exactly two ways: an update overwrites the status, or a failed patch restores it after the key was asked for again |
| Protocol.DroppedExactlyOnMiss | pkg/dispatcher/cache/resource_binding_processor.go:57-62 | a key is left processing with nobody to finish it iff a worker did not find it in the cache |
| Protocol.DroppedForever | pkg/dispatcher/cache/resource_binding_processor.go:47-68 | such a key stays so in every run and is never patched again |
| Protocol.QuiescentMeansPatched | pkg/dispatcher/cache/resource_binding_processor.go:71-93 | when all work is done, a binding still marked unsuspending had its latest patch succeed, or its key was dropped |
| Progress.ServedUnlessDropped | pkg/dispatcher/cache/resource_binding_processor.go:47-93 | from any state that keeps the invariant, the workers alone can get to a patch for a cached, dirty key iff the key was not dropped |
| Progress.DropHappens | pkg/dispatcher/cache/resource_binding_processor.go:55-63 | deleting a binding between a worker's Get and its look-up drops the key, and a binding created again under it and asked for then waits for good |
| Hazards.NameReusePatchesUnasked | pkg/dispatcher/cache/resource_binding_processor.go:55-66 | there is a run in which a binding re-created under its name is patched though only its predecessor was asked for |
| Hazards.UpdateHidesPatch | pkg/dispatcher/cache/event_handlers.go:233-245 | there is a run without deletes in which a patched binding is counted as waiting, because an update arrived during the patch |
| Admission.AddedValue | pkg/dispatcher/cache/resource_binding_processor.go:96-100 | after an "add" the target location holds the value, whatever was there before |
| Admission.AddElsewhere | pkg/webhooks/resourcebinding/mutating/mutating.go:95-99 | an "add" changes nothing off its path |
| Admission.PatchApplies | pkg/webhooks/resourcebinding/mutating/mutating.go:95-99 | the patch applies iff the document has a spec object |
| Admission.PatchKeepsDispatchingExactly | pkg/dispatcher/cache/resource_binding_processor.go:96-100 | the patch keeps the dispatching part of a suspension iff there was none |
| Admission.GroupedWorkload | pkg/workload/workload.go:36-53 | a reference "group/version" is of a registered workload iff its group, version and kind are registered together |
| Admission.CoreWorkload | pkg/workload/workload.go:36-53 | a reference without a slash is looked up under the empty group |
| Admission.UnparsableExactly | pkg/workload/workload.go:36-40 | an API version is an error iff it has two slashes |
| Admission.DeniedExactly | pkg/webhooks/resourcebinding/mutating/mutating.go:61-85 | the webhook refuses exactly what is not the creation of a binding it can decode, and a binding that is not suspended and whose API version does not parse |
| Admission.AdmittedElsewhere | pkg/webhooks/resourcebinding/mutating/mutating.go:74-106 | what is stored is as requested off the path of the suspension, and altogether as requested unless the workload is registered and the binding not suspended |
| Admission.AdmittedIsSuspendedExactly | pkg/webhooks/resourcebinding/mutating/mutating.go:61-106 | a binding stored through the webhook is scheduling-suspended iff it asked to be or its workload is registered |
| Clusters.KeyOkStep | pkg/dispatcher/cache/event_handlers.go:198-245 | a steady step keeps a key's cached status, its outstanding request and the versions the informer has yet to deliver in agreement iff it does not overwrite an unsuspending status with an update that a request or a later version has overtaken; bindings of unregistered workloads are never cached; the requests of sessions, which are for suspended bindings, always keep it (`CapacitySafety.BooksAskSuspended`) |
| CapacitySafety.FreshLoad | pkg/dispatcher/cache/snapshot.go:56-76 | when no active cached binding names an unknown class, a session opens on books equal to the load of the cache |
| CapacitySafety.ActiveBefore | pkg/dispatcher/cache/event_handlers.go:233-245 | a cached binding stops being suspended only when the dispatcher asks for it, unless an update turns a binding of an unregistered workload into one of a registered workload |
| CapacitySafety.LoadIsFull | pkg/dispatcher/plugins/capacity/capacity.go:93-135 | the load these theorems bound, taken from the requests fixed in the world, is the summed request of the queue's cached bindings that are not suspended |
| CapacitySafety.CapacityIsSafe | pkg/dispatcher/cache/resource_binding_processor.go:32-93 | over whole concurrent runs that are calm and steady, with queues, clusters and classes changing at any time and bindings of unregistered workloads coming and going unsuspended, the summed request of a queue's cached bindings that are not suspended never rises, in any dimension, above the largest of its starting value and the queue's limits when sessions opened |
| CapacitySafety.ReleasedIsSafe | pkg/dispatcher/cache/resource_binding_processor.go:71-116 | the same bound holds of the bindings of registered workloads that stand in the API without a suspension, which is what the scheduler sees, whatever the informer has delivered of them |
| CapacitySafety.FixedLimit | pkg/dispatcher/plugins/capacity/capacity.go:106-122 | while queues and clusters do not change, those limits are the one limit |
| CapacitySafety.EmptyIsStart | pkg/dispatcher/cache/cache.go:57-95 | the empty system, with any queues, clusters and classes, is a start in the sense of these theorems |
| Overflows.CapacityNeedsCalm | pkg/dispatcher/cache/event_handlers.go:233-245 | for any two bindings of a queue that do not fit together there is a steady run, with fixed queues and clusters, that ends above that bound: a still-suspended update overwrites the status of the one whose patch is under way, the patch goes through, and before that is heard of the next session dispatches the other |
| Overflows.CapacityNeedsTrueReports | pkg/dispatcher/cache/resource_binding_processor.go:77-90 | there is also a calm such run, steady but for one patch that is applied and reported as failed: the status is put back although the API has let the binding go |
| Overflows.CapacityNeedsNoLifting | pkg/dispatcher/cache/event_handlers.go:182-196 | and one that is steady but for one edit that takes a suspension away |
| Overflows.SomeRunOverflows | pkg/dispatcher/cache/event_handlers.go:233-245 | such bindings, and so such a run, exist |
| AdmissionGate.PatchWasAsked | pkg/dispatcher/dispatcher.go:170-187 | in any run from a rest, a patch that is under way was asked for by a session of the run: the run opened a session on a snapshot of the cache as it was then, that session asked for the key before it ended, and there was a try of it at which the binding fitted what its queue had allocated |
| AdmissionGate.AppliedWasAsked | pkg/dispatcher/cache/resource_binding_processor.go:71-116 | every patch that is applied in such a run was asked for so earlier in the run |
| AdmissionGate.LiftedExactly | pkg/webhooks/resourcebinding/mutating/mutating.go:61-106 | in any run, a binding has had a version that is not suspended iff it had one before, a patch of its key was applied, an edit took the suspension away, or it was created without one for a workload that is not registered |
| AdmissionGate.LiftedWasAsked | pkg/dispatcher/cache/resource_binding_processor.go:71-116 | a binding created in the run that is, or was, not suspended and that no edit and no unregistered creation lifted was lifted by a patch that a session of the run had asked for before |
| Service.WaitingIsDecided | pkg/dispatcher/dispatcher.go:93-199 | a session whose only binding waits for a queue it names, and fits it when empty, decides on exactly that binding |
| Service.SomeRunServes | pkg/dispatcher/cache/resource_binding_processor.go:32-93 | whenever a binding of a registered workload names a queue and fits it when empty, some calm and steady run from the empty system creates it suspended, dispatches it and lifts its suspension |
| Periods.UndisturbedPeriod | pkg/dispatcher/dispatcher.go:78-86 | the system has a run of dispatcher steps that does to the cache exactly what RunOnce does and to nothing else anything |
| Runs.DispatcherNeverStuck | pkg/dispatcher/dispatcher.go:78-86 | after any run the dispatcher can open a session iff none is open, and else either make the next request or end the session |

## Left out

- CapacitySafety.CapacityIsSafe: is stated for runs that are calm (an update that says suspended is
  delivered to a binding marked unsuspending only when no request for it is outstanding and no later
  version lifts the suspension) and steady: no edit takes away the suspension of a registered workload's
  binding, a patch reported as failed was not applied, the workload, request, queue and class of a cached
  binding do not change, and a session opens only while no active cached binding names an unknown class.
  `Overflows` has runs above the bound without calm, with a misreported patch and with a lifting edit;
  `HiddenLoad.SnapshotCountsExactly` says what an unknown class hides. Queues, clusters, classes and
  bindings of unregistered workloads are free.
- CapacitySafety.ReleasedIsSafe: is stated for the same runs, and counts bindings of registered workloads;
  the webhook holds back no others.
- CapacitySafety.ActiveBefore: leaves out the one update that makes an unregistered workload a registered one.
- Clusters.KeyOkStep: is stated for steady steps.
- AdmissionGate.PatchWasAsked: like all theorems about `Clusters`, takes names not to be reused and a patch
  of a removed binding to fail; `Hazards.NameReusePatchesUnasked` shows why the first is needed.
- AdmissionGate.LiftedWasAsked: says nothing about a binding that somebody else lifted; the code cannot tell.
- Protocol.ProtocolSafety: says nothing about progress; `Progress.ServedUnlessDropped` says what the workers
  can still do, but that they are scheduled at all is not modelled.
- Dispatchers.RunOnce: lets others act before every try, and so before every request; what they do between
  the snapshot and the first try counts as before the first try.
- Dispatchers.OpenSession: takes cached UIDs to be unique, without which the snapshot's map would depend on the walk.
- Framework.TryAllocate: gives every handler a state of its own, as a value; handlers that share state are
  not covered. The session's one registered handler, the capacity plugin's, is called directly by
  `Dispatchers.AllocateOrRollBack`.
- Priority queues are sets of record values: what the order reads never changes while a record is queued,
  and the record itself is looked up by UID when its status is set.
- QueueInfos, ResourceBindings and PriorityClasses are values, so sharing of these objects between
  cache and informers is not captured; the session's and the cache's binding records are heap objects.
- A nil ReplicaRequirements and a nil total resource: both are preconditions of the code.
- Go's random order over several plugins registered for one hook: orders are proved for any fixed list.
- Floating point: amounts are whole numbers and shares are reals; math.MaxFloat64 is "no limit".
- getResourceFromObjectReference, the workload constructors and decoding: any of their outcomes is a
  `CacheModel.WorkloadLookup`; objects of a wrong type passed to a handler are ignored by the code.
- Queue and cluster handlers: simple map writes, any of which is a `Reconfigure` step. Registering
  workloads is a set; that the first registration of a kind wins is not modelled.
- The work queue's shutdown, the worker count, `Run`, flags, leader election, clients and logging.
- CloseSession: drops the plugin's state, which nothing reads afterwards.
- The resource interpreter customizations in docs/deploy: Lua.
