# Kueue's admission engine in Dafny

This project models how Kueue decides which workloads run, and proves that the decisions are safe. It covers these
parts of the engine and the way they fit together:

- **The quota ledger** (`Ledger.dfy`, `Cache.dfy`, `CacheObject.dfy`, `CacheWitness.dfy`): usage of each ClusterQueue
  and LocalQueue, kept up to date as workloads are assumed, confirmed, forgotten, updated and deleted.
- **The snapshot** (`Snapshot.dfy`, `Eviction.dfy`): the copy that a scheduling cycle works on, with cohort totals.
- **The flavor assigner** (`FlavorAssigner.dfy`, `Assignment.dfy`, `AssignmentProofs.dfy`, `FitOrder.dfy`): per pod set
  and resource group, the first flavor with the best mode, on top of what earlier pod sets use.
- **The preemptor** (`Preemption.dfy`, `BorrowCheck.dfy`, `PreemptionTargets.dfy`, `Preemptor.dfy`,
  `PreemptorWitness.dfy`): the search for workloads to evict.
- **The scheduling cycle** (`SchedulingCycle.dfy`, `SchedulingProofs.dfy`, `SchedulingRuns.dfy`, `Scheduler.dfy`,
  `CycleTotals.dfy`, `SchedulingWitness.dfy`): heads against one snapshot, in order, with one borrower per cohort.
- **The pending queues** (`Heap.dfy`, `PendingQueue.dfy`, `Manager.dfy`, `ManagerIndex.dfy`, `ManagerObject.dfy`,
  `WakeUp.dfy`, `WakeUpSetting.dfy`): the keyed heap, the parking map, the manager's index and the wake-up protocol.
- **Cache and manager together** (`JointRuns.dfy`, `JointOps.dfy`, `JointWitness.dfy`): what is parked against what is
  free.

`Sums.dfy` and `Model.dfy` hold sums over finite maps and the shared data types. `dafny verify dfyconfig.toml` checks
everything.

## How it is written

Where the source changes objects in place, there is a class with methods and loops (`ClusterQueue`, `Cache`,
`Snapshot`, `Heap`, `PendingQueue`, `Manager`, and the procedures in `Preemptor` and `Scheduler`). Each method is
proved against a function or predicate on values, and the promises are lemmas about those. Runs are sequences of
operations or events; a theorem about runs says that every state they reach meets a property. A property that the code
does not have comes with a concrete run in which it fails and with the exact condition under which it holds, unless
"Left out" says what is missing.

The main results:

1. In every interleaving of scheduling cycles with releases, forgets and confirmations under fixed quotas, each active
   queue stays within nominal plus its borrowing limit, a cohort never borrows more than it can request, and uses at
   most twice that (`RunKeepsQuota`). Per cohort and pair a cycle adds no borrowing or ends within what can be
   requested, and stays within it if nobody borrowed at its start; whoever borrows is alone in its cohort
   (`RunKeepsCycle`). That cohort usage never exceeds what can be requested is false: `CohortCanExceed` is a run that
   ends at 7 of 6. In a cycle that nothing interrupts, which entries are admitted is decided by the cache, the
   snapshot and the entries that it starts with, and a cohort ends above what it can request if and only if their
   requests exceed what it had left (`CycleExceedsIff`).
2. The preemptor's targets make room, and no proper subset of them does, exactly when the workload did not fit before
   (`SelectedMinimalIff`), which the assigner's mode Preempt guarantees (`PreemptDoesNotFit`, `TargetsMinimal`). The
   in-place search with swap-with-last deletion selects the same set as the plain one and restores the snapshot
   (`MinimalPreemptions`, `Do`). Each target is of a queue that borrows when its turn comes, and with the targets gone
   the assigner's replay fits (`DoIsMinimal`). Preempting other queues cannot be answered in kind (`AntiFlapping`,
   `NoCounterPreemption`). That the search never panics is false: `CheckCanPanic` is a reachable cache with a workload
   for which it can. The check of a queue can panic if and only if the queue has a cohort, a flavor that it lists lacks
   a needed resource, and no flavor listed before that is over nominal on a needed pair (`MissesIff`).
3. A parked workload has nothing to wait for: it failed the namespace selector at its queue's latest flush, or was
   tried in that queue, as it is, after the last event that may have freed quota in its cohort. For every step of the
   scheduler loop and every manager call, `StepKeepsIff` gives the exact condition under which this is kept, and a
   history has the property throughout if and only if each of its steps meets it (`NoLostWakeUpIff`). Histories of
   settled steps do (`SettledNeverLoses`): freed quota is announced through a LocalQueue of the same cohort, no
   borrowed quota leaves a cohort, and a head is requeued, unchanged, where it was popped. What this means for quota
   is a theorem about runs of cache, scheduler loop and manager together: a parked workload with one pod set, or in a
   queue with one flavor per group, failed the selector, was rejected before flavors were considered, or does not fit
   the cache as it is now (`ParkedDoesNotFit`). Neither holds of every run. Six joint runs from the empty system end
   with a workload that stays parked: a borrowing queue leaves its cohort (`LeftBehindIsLost`), a workload ends whose
   LocalQueue was deleted (`OrphanedReleaseIsLost`), an assumed workload is forgotten (`ForgottenIsLost`), a queue is
   marked as terminating and leaves the snapshots (`TerminatedIsLost`), a head's LocalQueue is pointed to another
   queue (`MovedHeadIsLost`); in these five the workload fits a fresh snapshot. In the sixth the head's priority is
   raised while it is tried, and it could now preempt (`RaisedHeadIsLost`).
4. The ledger equals the sum over the charged workloads in every state of a run if and only if no specification update
   in it introduces a pair in use (`Caches.RunKeepsOkIff`); `RelistedPairLosesUsage` is a run that loses three units.
   Cohort totals of a snapshot stay the sums over its queues, after any additions and removals, if and only if what is
   held of unlisted pairs cancels out (`MovesKeepBalancedIff`, `RemovalUnbalances`).
5. A Fit assignment respects every limit over all its pod sets (`FitSound`), does not depend on the order in which maps
   are visited (`AssignmentDetermined`), and is charged to the ledger exactly as it was checked (`ChargedIsChecked`).
6. The manager's heaps and parking maps hold exactly what the LocalQueues list (`RunKeepsIndex`), after every run in
   which listings agree with the manager and a workload changes LocalQueue only through an update.

## Where the code and its documentation differ

The model follows the code in each case.

- The comment on `candidatesOrdering` says that workloads admitted more recently come first
  (pkg/scheduler/preemption/preemption.go:365); the code sorts the earlier admission first.
- A pair without a borrowing limit is unlimited for the assigner and limited to nominal for the preemptor; `FitsAtIff`
  states that this is the only difference between the two checks.
- `findCandidates` deletes the preemptor's queue from the member set that the whole snapshot shares;
  `CandidatesAfterWithoutMember` states what a later preemptor of the cohort then misses.
- A release reaches the cohort of the LocalQueue that the workload was submitted to, if that still exists, not the
  cohort that admitted it (pkg/queue/manager.go:347-354); requeueing follows the newest LocalQueue, not the queue that
  the head was popped from (pkg/queue/manager.go:296-307); a queue that changes cohort flushes only the new one
  (pkg/queue/manager.go:123-131), although the comment at pkg/queue/manager.go:392-396 lists what may free quota.
- `cqIsBorrowing` reads the quota of every needed resource under every flavor that a cohort member lists
  (pkg/scheduler/preemption/preemption.go:290-291). A member that lists the flavor without the resource has no such
  quota to read, and the code dereferences a nil pointer. Validation allows such a member. The methods report this
  panic as an outcome; what they promise otherwise holds of every call that does not end in it, and `Schedule` states
  what a cycle has done before it. None occurs when queues of a cohort that list the same flavor list the same
  resources under it (`AgreeingNeverPanics`).

## Assumptions

- Specifications pass the webhook's validation: a resource and a flavor belong to one group, every flavor of a group has
  a quota for each covered resource, quotas and requests are not negative. A borrowing limit is set only with a cohort.
- Quantities are mathematical integers; CPU is counted in thousandths, everything else in whole units, rounded up.
- A workload's Admitted condition is true exactly when its admission is set.
- Taints, node affinity and missing flavors are an eligibility per pod set and flavor. The namespace, LimitRange and
  resource checks before flavor assignment are a gate per head. How many evictions the API server accepts is a
  parameter. Reads through the API client are parameters. So is the order in which maps are visited, where it matters.
- A run of the manager (`RunKeepsIndex`) meets consistent events: a workload is listed by one LocalQueue, except while
  an update that moves it is on its way, and listing the LocalQueues of a new ClusterQueue finds those the manager
  knows.
- In a run of cycles (`RunKeepsQuota`), quotas, cohorts and queue statuses do not change, and a confirmation charges no
  more of any pair than is charged already. The start state is within its bounds.
- A ClusterQueue that is deleted charges nothing any more, because of its finalizer
  (pkg/controller/core/clusterqueue_controller.go:107-116). But it leaves the snapshots before, with its quota and all
  that it still holds, when it is marked as terminating (pkg/cache/cache.go:531-538), and so does a queue of which a
  ResourceFlavor is gone (pkg/cache/cache.go:332-342). The manager is not told; in the histories these are steps that
  free quota without a flush.
- Whether a queue that leaves a cohort frees quota there is a flag of the event; it does exactly when it uses more than
  its nominal quota (`LeavingFreesIff`).
- In joint runs a change of the cache and the manager call that announces it are one step, which flavors a workload may
  use does not change, and a workload's pod sets do not change, which its webhook forbids
  (apis/kueue/webhooks/workload_webhook.go:186).
- A head has no more request entries than its workload has pod sets, and a cycle takes one head per queue.
- A sort is any sorted permutation: only that contract of the sorting methods is used.

## Model

| member | source | states |
|---|---|---|
| Model.QuantityRoundTrip | pkg/workload/workload.go:138-157 | a value turned into a quantity and back is unchanged, in milli-units for CPU and whole units otherwise |
| Model.RequestsRoundTrip | pkg/workload/workload.go:120-134 | requests written to an admission and read back are the same requests |
| Ledgers.UpdateUsage | pkg/cache/cache.go:411-423 | the loops over pod sets and resources shift every listed pair by exactly the workload's charge and touch no other pair |
| Ledgers.UpdatePodSetUsage | pkg/cache/cache.go:411-423 | one pod set shifts each listed pair by what it requests under its flavors |
| Ledgers.ClusterQueue.constructor | pkg/cache/cache.go:168-181 | a new queue lists the pairs of its specification at zero |
| Ledgers.ClusterQueue.Add | pkg/cache/cache.go:371-384 | charges queue and LocalQueue once; a workload already present is refused and changes nothing |
| Ledgers.ClusterQueue.Delete | pkg/cache/cache.go:386-398 | takes back the charge of the stored workload; an absent one changes nothing |
| Ledgers.ClusterQueue.UpdateWorkloadUsage | pkg/cache/cache.go:400-409 | the queue's usage and, if it is known, the LocalQueue's usage and count move together |
| Ledgers.ClusterQueue.AddLocalQueue | pkg/cache/cache.go:425-448 | a late LocalQueue starts from the sum and the number of its workloads already admitted |
| Ledgers.ClusterQueue.CountAdmitted | pkg/cache/cache.go:430-446 | the counting loop yields exactly the reference sum and count |
| Ledgers.ClusterQueue.DeleteLocalQueue | pkg/cache/cache.go:450-453 | drops the LocalQueue's counters and nothing else |
| Ledgers.ClusterQueue.UpdateSpec | pkg/cache/cache.go:259-289 | keeps usage of pairs still listed, drops the others, starts new ones at zero, in the queue and its LocalQueues |
| Ledgers.AddKeepsExact | pkg/cache/cache.go:371-423 | adding a workload keeps every counter equal to the sum over charged workloads |
| Ledgers.DeleteKeepsExact | pkg/cache/cache.go:386-423 | deleting one keeps every counter equal to the sum |
| Ledgers.LocalsKeepExact | pkg/cache/cache.go:425-453 | adding or deleting a LocalQueue at any time keeps all counters exact |
| Ledgers.NewLedgerExact | pkg/cache/cache.go:168-181 | a new ledger is exact |
| Ledgers.UpdateKeepsExactIff | pkg/cache/cache.go:267-279 | a specification update keeps the ledger exact if and only if no pair it introduces is held by a charged workload |
| CacheWitness.RelistedPairLosesUsage | pkg/cache/cache.go:259-289 | a run from the empty cache: a queue drops and re-lists a flavor that a workload holds, and shows zero of three units |
| Caches.CleanupKeepsOk | pkg/cache/cache.go:889-902 | cleaning up an assumption keeps the cache invariant |
| Caches.AddOrUpdateKeepsOk | pkg/cache/cache.go:686-706 | so does adding or updating a workload, on every path |
| Caches.UpdateWorkloadKeepsOk | pkg/cache/cache.go:708-731 | so does replacing a version by another, even when the second half fails |
| Caches.DeleteKeepsOk | pkg/cache/cache.go:733-749 | so does deleting a workload, wherever it is found |
| Caches.AssumeKeepsOk | pkg/cache/cache.go:767-791 | so does assuming, accepted or refused |
| Caches.ForgetKeepsOk | pkg/cache/cache.go:793-815 | so does forgetting, accepted or refused |
| Caches.LocalQueuesKeepOk | pkg/cache/cache.go:643-661 | so do LocalQueue changes |
| Caches.AddQueueKeepsOk | pkg/cache/cache.go:553-598 | so does a new ClusterQueue with what is listed for it |
| Caches.UpdateQueueKeepsOkIff | pkg/cache/cache.go:600-629 | a ClusterQueue update, cohort moves included, does if and only if it introduces no pair in use |
| Caches.DeleteQueueKeepsOk | pkg/cache/cache.go:631-641 | so does deleting a ClusterQueue |
| Caches.JoinKeepsIndex | pkg/cache/cache.go:917-928 | joining keeps each cohort's members equal to the queues that name it |
| Caches.LeaveKeepsIndex | pkg/cache/cache.go:930-939 | so does leaving, which drops an empty cohort |
| Caches.StepKeepsOkIff | pkg/cache/cache.go:553-815 | each cache operation keeps all ledgers exact, workloads in the queue that admitted them, and the cohort index right, if and only if it is not an update that introduces a pair in use |
| Caches.RunKeepsOkIff | pkg/cache/cache.go:553-815 | the same of all states of any run of workload, LocalQueue and ClusterQueue operations |
| CacheObjects.Cache.CleanupAssumedState | pkg/cache/cache.go:889-902 | forgets the assumption, and takes the workload out of the queue it was assumed in when it is admitted elsewhere |
| CacheObjects.Cache.AddOrUpdateWorkload | pkg/cache/cache.go:686-706 | replaces what was charged for the workload; refused when not admitted or its queue is unknown |
| CacheObjects.Cache.UpdateWorkload | pkg/cache/cache.go:708-731 | uncharges the old version, charges the new one, with every error path |
| CacheObjects.Cache.DeleteWorkload | pkg/cache/cache.go:733-749 | uncharges the workload in the queue that holds it |
| CacheObjects.Cache.ClusterQueueForWorkload | pkg/cache/cache.go:904-915 | finds the admitting queue, or for a workload without admission some queue charging it if there is any |
| CacheObjects.Cache.IsAssumedOrAdmittedWorkload | pkg/cache/cache.go:751-765 | tells whether the workload is assumed, or charged by the queue it is a head of |
| CacheObjects.Cache.AssumeWorkload | pkg/cache/cache.go:767-791 | charges and records the assumption, or refuses and changes nothing |
| CacheObjects.Cache.ForgetWorkload | pkg/cache/cache.go:793-815 | undoes an assumption; refused if there is none |
| CacheObjects.Cache.AddLocalQueue | pkg/cache/cache.go:643-651 | adds the LocalQueue to its queue; an error only if it is there already |
| CacheObjects.Cache.DeleteLocalQueue | pkg/cache/cache.go:653-661 | removes it if the queue exists |
| CacheObjects.Cache.AddToCohort | pkg/cache/cache.go:917-928 | adds the member, creating the cohort |
| CacheObjects.Cache.DeleteFromCohort | pkg/cache/cache.go:930-939 | removes the member, and the cohort with its last one |
| CacheObjects.Cache.AddClusterQueue | pkg/cache/cache.go:553-598 | creates the queue, joins its cohort, and adds the listed LocalQueues and workloads |
| CacheObjects.Cache.UpdateClusterQueue | pkg/cache/cache.go:600-629 | updates specification and LocalQueues, and moves the queue between cohorts |
| CacheObjects.Cache.DeleteClusterQueue | pkg/cache/cache.go:631-641 | removes the queue and its cohort membership |
| Snapshots.Snapshot.constructor | pkg/cache/snapshot.go:55-114 | copies the active queues; each cohort's members, requestable and used amounts equal those of its active queues |
| Snapshots.Snapshot.Gather | pkg/cache/snapshot.go:73-84 | adding members up one by one, in any order, gives the sums |
| Snapshots.SnapshotOk | pkg/cache/snapshot.go:55-114 | a snapshot of a sound cache is sound: balanced totals and workloads stored under their queue |
| Snapshots.SnapshotExists | pkg/cache/snapshot.go:55-114 | every cache has a snapshot |
| Snapshots.Accumulate | pkg/cache/snapshot.go:116-145 | adds one queue's amounts pair by pair, creating missing pairs |
| Snapshots.Snapshot.RemoveWorkload | pkg/cache/snapshot.go:35-42 | uncharges queue and cohort and forgets the workload; nothing else changes |
| Snapshots.Snapshot.AddWorkload | pkg/cache/snapshot.go:46-53 | charges queue and cohort and stores the workload; nothing else changes |
| Snapshots.MovedKeepsBalancedIff | pkg/cache/snapshot.go:35-53 | cohort totals stay equal to the sums over queues if and only if the workload holds nothing that only the cohort lists |
| Snapshots.MovesKeepBalancedIff | pkg/cache/snapshot.go:35-53 | after any sequence of additions and removals they do if and only if, per cohort and pair, what was moved of pairs unlisted by the workload's own queue cancels out |
| CacheWitness.RemovalUnbalances | pkg/cache/snapshot.go:35-42 | a run of the cache after which removing one workload from any snapshot breaks the cohort totals |
| Eviction.EvictMore | pkg/cache/snapshot.go:35-42 | removing a workload yields the state after evicting a set with it included, whatever the order |
| Eviction.EvictLess | pkg/cache/snapshot.go:46-53 | adding an evicted workload back yields the state after evicting the rest |
| Eviction.RemoveAdd | pkg/cache/snapshot.go:35-53 | adding back what was removed restores the snapshot exactly |
| FlavorAssigner.FitIffWithinLimits | pkg/scheduler/flavorassigner/flavorassigner.go:439-481 | mode Fit means exactly that queue limit and cohort amount hold, and then the borrow is the excess over nominal |
| FlavorAssigner.RateFlavor | pkg/scheduler/flavorassigner/flavorassigner.go:351-374 | the mode of a flavor is the worst over all requested resources, in any visiting order |
| FlavorAssigner.FindFlavorForResourceGroup | pkg/scheduler/flavorassigner/flavorassigner.go:313-386 | returns the first eligible flavor attaining the best mode with all resources of the group, none if all are NoFit, or the error met before a fit |
| FlavorAssigner.BestIsUnique | pkg/scheduler/flavorassigner/flavorassigner.go:376-383 | there is one first best flavor |
| FlavorAssigner.GroupForCovers | pkg/cache/cache.go:320-328 | a resource is indexed to a group that covers it, if there is any |
| FlavorAssigner.GroupForIsGroup | pkg/cache/cache.go:320-328 | every resource a group covers is indexed to that group |
| FlavorAssigner.AssignPodSet | pkg/scheduler/flavorassigner/flavorassigner.go:244-265 | a pod set is assigned its groups' choices, or nothing if one resource cannot be; the status is nil exactly when all fit |
| Assignments.Append | pkg/scheduler/flavorassigner/flavorassigner.go:291-307 | usage grows by the pod set's requests, borrowing is overwritten, pair by pair |
| Assignments.AssignFlavors | pkg/scheduler/flavorassigner/flavorassigner.go:227-278 | each pod set is assigned on top of the earlier ones; it stops at the first that cannot be, and then nothing is borrowed |
| Assignments.AssignableIff | pkg/scheduler/flavorassigner/flavorassigner.go:268-272 | the early return is taken exactly when a requested resource of the pod set cannot be assigned |
| AssignmentProofs.FitMeansAllFit | pkg/scheduler/flavorassigner/flavorassigner.go:57-74 | representative mode Fit means that every pod set was assigned and every resource of it fits |
| AssignmentProofs.FitSound | pkg/scheduler/flavorassigner/flavorassigner.go:227-307 | in mode Fit the total over all pod sets respects every limit, and TotalBorrow is max(0, used + total - nominal) on each assigned pair |
| AssignmentProofs.UsageListed | pkg/scheduler/flavorassigner/flavorassigner.go:244-307 | every pair an assignment uses is listed by the queue |
| AssignmentProofs.AssignmentDetermined | pkg/scheduler/flavorassigner/flavorassigner.go:233-273 | flavors, modes, usage and borrowing do not depend on the iteration order of maps |
| FitOrder.AssignmentExists | pkg/scheduler/flavorassigner/flavorassigner.go:227-278 | every workload has an assignment in every queue |
| FitOrder.OneAskFitsIff | pkg/scheduler/flavorassigner/flavorassigner.go:227-278 | one pod set that asks for one resource fits if and only if the amount is within the limits, and otherwise waits for preemption if it is within nominal |
| FitOrder.ChoiceStillFits | pkg/scheduler/flavorassigner/flavorassigner.go:313-386 | a group for which a flavor fits with more in use has a flavor that fits with less in use |
| FitOrder.StillFits | pkg/scheduler/flavorassigner/flavorassigner.go:227-307 | a workload of one pod set, or in a queue with one flavor per group, that fits with more in use fits with less in use |
| FitOrder.UsageCanHelp | pkg/scheduler/flavorassigner/flavorassigner.go:227-278 | without that restriction it does not: more usage sends the first of two pod sets to another flavor, and the second one fits |
| AssignmentProofs.ChargedIsChecked | pkg/scheduler/flavorassigner/flavorassigner.go:96-102 | through ToAPI, SetAdmission and NewInfo, the workload charges each pair exactly what the assigner counted |
| AssignmentProofs.LedgerChargesWhatWasChecked | pkg/cache/cache.go:371-423 | adding the admitted workload raises each listed pair by exactly that amount |
| Preemption.FitsMonotone | pkg/scheduler/preemption/preemption.go:327-359 | evicting more never makes a fitting workload not fit |
| Preemption.MayGoAntitone | pkg/scheduler/preemption/preemption.go:172-183 | evicting more never turns a queue that does not borrow into one that does |
| Preemption.ScanStops | pkg/scheduler/preemption/preemption.go:172-183 | the scan stops at the first pick that makes room, so the last pick is needed |
| Preemption.AddBackMinimal | pkg/scheduler/preemption/preemption.go:192-201 | the reverse pass leaves a set that makes room and of which each one is needed |
| Preemption.SelectedBasics | pkg/scheduler/preemption/preemption.go:166-207 | the result is drawn from the candidates and is empty exactly when the scan does not make room |
| Preemption.SelectedNecessary | pkg/scheduler/preemption/preemption.go:166-207 | each selected workload is needed if the workload did not fit at the start |
| Preemption.SelectedMinimalIff | pkg/scheduler/preemption/preemption.go:158-207 | a non-empty result makes room, and no proper subset does, if and only if the workload did not fit at the start |
| Preemption.SelectedGuarded | pkg/scheduler/preemption/preemption.go:172-183 | a selected workload of another queue: that queue is still over nominal on a needed pair after evicting the selected ones before it |
| Preemption.OwnCandidatesComplete | pkg/scheduler/preemption/preemption.go:166-190 | with own-queue candidates only, a set is found exactly when some subset would make room |
| PreemptionTargets.CandidatesAfterWithoutMember | pkg/scheduler/preemption/preemption.go:257-260 | after one preemptor ran, a later one of the cohort misses exactly the first one's queue |
| PreemptionTargets.FitsAtIff | pkg/scheduler/preemption/preemption.go:344-355 | the preemptor's check is the assigner's, except that a missing borrowing limit means nominal |
| PreemptionTargets.PreemptIsComplete | pkg/scheduler/flavorassigner/flavorassigner.go:57-74 | mode Preempt means that every pod set was assigned and some resource of one needs preemption |
| PreemptionTargets.PreemptDoesNotFit | pkg/scheduler/flavorassigner/flavorassigner.go:443-481 | a workload in mode Preempt does not pass the preemptor's check before evictions |
| PreemptionTargets.ReplayFits | pkg/scheduler/preemption/preemption.go:330-359 | where the preemptor's check passes, replaying the assignment pod set by pod set finds Fit for every resource |
| PreemptionTargets.TargetsMinimal | pkg/scheduler/preemption/preemption.go:93-113 | for a workload in mode Preempt, the targets of either attempt make room and no proper subset does |
| PreemptionTargets.TargetsAllowed | pkg/scheduler/preemption/preemption.go:232-309 | every target is allowed by policy, uses a needed pair, and, if of another queue, that queue still borrows when its turn comes |
| PreemptionTargets.AntiFlapping | pkg/scheduler/preemption/preemption.go:93-113 | after evicting a target of another queue and admitting the preemptor, its queue is within nominal on all it requested |
| PreemptionTargets.NoCounterPreemption | pkg/scheduler/preemption/preemption.go:256-281 | so it offers no candidate to a later preemptor that needs only those pairs |
| BorrowCheck.CqIsBorrowing | pkg/scheduler/preemption/preemption.go:283-298 | the loops over groups, flavors and needed resources, in the order in which the resources are met, find whether the queue is over nominal on a needed pair, or panic, which only a queue that can miss a quota does |
| BorrowCheck.AnswerIsRight | pkg/scheduler/preemption/preemption.go:283-298 | unless it panics, the check says whether the queue is over nominal on a needed pair, in every order |
| BorrowCheck.MissesIff | pkg/scheduler/preemption/preemption.go:290-291 | some order of the needed resources makes the check panic if and only if the queue has a cohort, lists a needed flavor without a needed resource, and lists before it no flavor that is over nominal on a needed pair |
| Preemptor.ChecksBorrowing | pkg/scheduler/preemption/preemption.go:283-298 | the check in an order that nobody controls: a panic only where it is possible, and the right answer otherwise |
| Preemptor.TakeOut | pkg/scheduler/preemption/preemption.go:169-183 | without a panic the forward loop picks what the plain scan picks; in any case the snapshot is left with exactly the picked ones evicted; a panic needs a candidate whose queue lists a needed flavor without a needed resource |
| Preemptor.GiveBack | pkg/scheduler/preemption/preemption.go:191-201 | the reverse loop with swap-with-last deletion keeps the set that the plain reverse scan keeps |
| Preemptor.PutBack | pkg/scheduler/preemption/preemption.go:202-205 | adding the targets back restores the snapshot exactly |
| Preemptor.MinimalPreemptions | pkg/scheduler/preemption/preemption.go:166-207 | on every path without a panic the snapshot is restored, and the targets are the selected set without repetition |
| Preemptor.CollectFrom | pkg/scheduler/preemption/preemption.go:240-254 | the loop over one queue adds exactly its workloads that pass the policy and use a needed pair |
| Preemptor.FindCandidates | pkg/scheduler/preemption/preemption.go:229-281 | without a panic: exactly the workloads allowed by the policies, once each; a panic only where the check of another member can; the cohort loses the queue as a member when reclaiming is on |
| Preemptor.CanPanicIff | pkg/scheduler/preemption/preemption.go:256-262 | finding candidates can panic if and only if reclaiming is on and the check of some other member does in some order |
| PreemptorWitness.CheckCanPanic | pkg/scheduler/preemption/preemption.go:290-291 | a run of the cache, a snapshot of it, a workload that the assigner sends to preemption, and an order in which the check of another valid member panics |
| Preemptor.SortCandidates | pkg/scheduler/preemption/preemption.go:361-391 | other queues first, then lower priority, then earlier admission; a permutation |
| Preemptor.ResourcesRequiringPreemption | pkg/scheduler/preemption/preemption.go:211-227 | exactly the pairs some pod set was assigned in mode Preempt |
| Preemptor.TotalRequestsForAssignment | pkg/scheduler/preemption/preemption.go:311-325 | equals the usage that the assigner accumulated |
| Preemptor.CandidatesOnlyFromQueue | pkg/scheduler/preemption/preemption.go:67-75 | the candidates of the queue, in order |
| PreemptionTargets.OwnOnlyElems | pkg/scheduler/preemption/preemption.go:67-75 | filtering keeps exactly the queue's own candidates, and equal length means nothing was dropped |
| Preemptor.Do | pkg/scheduler/preemption/preemption.go:77-121 | without a panic the targets are those of the two attempts on the ordered candidates, and in the snapshot only the cohort's member set may change; a panic needs another queue of the cohort that lists a needed flavor without a needed resource |
| Preemptor.Attempts | pkg/scheduler/preemption/preemption.go:93-113 | first without borrowing, if there are candidates of other queues, then with borrowing on the own ones; the snapshot is restored |
| Preemptor.DoIsGuarded | pkg/scheduler/preemption/preemption.go:77-121 | each target of another queue goes while its queue is over nominal, with the targets before it gone; with such a target the preemptor's queue ends within nominal |
| Preemptor.DoIsMinimal | pkg/scheduler/preemption/preemption.go:77-121 | for a workload in mode Preempt: targets are allowed and guarded, make room, no fewer of them do, after evicting them the replayed assignment fits everywhere, and with a target of another queue the preemptor's queue ends within nominal |
| SchedulingProofs.EntryFits | pkg/scheduler/scheduler.go:148-194 | an entry in mode Fit is within the limits of its snapshot queue, and within nominal if it does not borrow |
| SchedulingProofs.BorrowerIsAlone | pkg/scheduler/scheduler.go:148-163 | on each pair that a borrower admitted in the cycle uses, its cohort stays within what it can request |
| SchedulingProofs.QueueBoundInCycle | pkg/scheduler/scheduler.go:148-194 | each queue stays within nominal plus its borrowing limit |
| SchedulingProofs.UsedAtMostTwice | pkg/scheduler/scheduler.go:148-194 | bounded borrowing bounds a cohort's usage by twice what it can request |
| SchedulingProofs.LeavingFreesIff | pkg/cache/snapshot.go:73-84 | a queue that leaves a cohort frees quota for the others if and only if it used more than its nominal |
| SchedulingProofs.CycleAlternatives | pkg/scheduler/scheduler.go:142-194 | per cohort and pair, a cycle adds no borrowing or keeps usage within what can be requested |
| SchedulingProofs.NoBorrowersNoExcess | pkg/scheduler/scheduler.go:142-194 | with nobody borrowing at the start, usage stays within what can be requested |
| SchedulingProofs.BoundedInCycle | pkg/scheduler/scheduler.go:142-194 | queue limits and the cohort's borrowing bound hold in every state of a cycle |
| SchedulingRuns.NotGrantedYet | pkg/scheduler/scheduler.go:148-194 | a queue is admitted to at most once in a cycle |
| SchedulingRuns.LiveAfterGrant | pkg/scheduler/scheduler.go:334-347 | assuming an admitted workload raises its queue by the assigned amounts and changes no other active queue |
| SchedulingRuns.DeleteNotHigher | pkg/cache/cache.go:733-749 | a release raises no usage |
| SchedulingRuns.ForgetNotHigher | pkg/cache/cache.go:793-815 | a forget raises no usage |
| SchedulingRuns.ConfirmNotHigher | pkg/cache/cache.go:686-706 | a confirmation that charges no more of any pair raises no usage, also when the workload object differs |
| SchedulingRuns.StartKeepsOk | pkg/scheduler/scheduler.go:133-140 | a fresh snapshot with sorted entries meets the cycle's invariant |
| SchedulingRuns.GrantKeepsExclusive | pkg/scheduler/scheduler.go:147-163 | the sort order and the used cohorts keep a borrower alone in its cohort |
| SchedulingRuns.ProcessKeepsOk | pkg/scheduler/scheduler.go:148-194 | one iteration of the admission loop keeps the cycle's invariant on the live cache |
| SchedulingRuns.StepKeepsOk | pkg/scheduler/scheduler.go:121-211 | each event keeps the bounds and, inside a cycle, its invariant |
| SchedulingRuns.RunKeepsQuota | pkg/scheduler/scheduler.go:121-211 | over every run: queue within its limits, borrowed at most requestable, used at most twice requestable |
| SchedulingRuns.RunKeepsCycle | pkg/scheduler/scheduler.go:121-211 | in every state of a cycle of any run: exclusive borrowing and the per-pair alternatives |
| CycleTotals.TurnOf | pkg/scheduler/scheduler.go:148-194 | at its turn an entry is skipped or admitted exactly as the state at the start of the cycle decides |
| CycleTotals.GrantAdds | pkg/scheduler/scheduler.go:190-194 | an admission adds exactly its requests to the usage of its cohort and of no other |
| CycleTotals.CycleExceedsIff | pkg/scheduler/scheduler.go:142-194 | an uninterrupted cycle assumes exactly the entries decided at its start, a cohort's usage grows by exactly their requests, and it exceeds what can be requested if and only if those exceed what was left |
| SchedulingWitness.CohortCanExceed | pkg/scheduler/scheduler.go:142-194 | a whole cycle, to its end, in which two non-borrowing heads and an earlier borrower use 7 of 6 |
| SchedulingWitness.SettingExists | pkg/scheduler/scheduler.go:148-194 | the state that run starts from exists |
| Scheduler.ProcessAllIsRun | pkg/scheduler/scheduler.go:148-194 | an uninterrupted admission loop is one of the runs |
| Scheduler.CycleKeepsOk | pkg/scheduler/scheduler.go:121-194 | an uninterrupted cycle keeps the quota bounds |
| Scheduler.CountedAgain | pkg/scheduler/flavorassigner/flavorassigner.go:233-236 | counting pods into requests that already hold the count changes nothing |
| Scheduler.PodSetsMatch | pkg/scheduler/flavorassigner/flavorassigner.go:227-278 | in mode Preempt the head's requests are those the assignment was made for |
| Scheduler.Nominate | pkg/scheduler/scheduler.go:239-270 | one entry, in order, for each head that is neither assumed nor charged: rejected with its requeue reason, or assigned against the snapshot |
| Scheduler.NominateOne | pkg/scheduler/scheduler.go:247-266 | flavors are assigned in an active queue past the checks; only a namespace mismatch sets a reason |
| Scheduler.SortEntries | pkg/scheduler/scheduler.go:377-403 | non-borrowing entries first, then by queue order time; a permutation |
| Scheduler.SortedEntries | pkg/scheduler/scheduler.go:135-140 | the entries of a cycle: one for every head that the cache does not know, in order |
| Scheduler.AdmitOne | pkg/scheduler/scheduler.go:149-194 | the effect of one entry on cache, used cohorts and status is that of the plain step; evictions are reported only for an entry in mode Preempt, and a panic changes nothing in the cache |
| Scheduler.AgreeingNeverPanics | pkg/scheduler/preemption/preemption.go:256-262 | no entry makes the preemptor panic if queues of a cohort agree on the resources of shared flavors |
| Scheduler.AdmitAll | pkg/scheduler/scheduler.go:147-194 | the loop is the fold of the plain steps over all entries, or over those before a panic, whatever the preemptor does to the snapshot's members |
| Scheduler.Schedule | pkg/scheduler/scheduler.go:121-209 | a cycle on the live cache is that fold over sorted, nominated entries, keeps the quota bounds even if it ends in a panic, and otherwise requeues what is not assumed with the reason that its status gives; it does not panic if queues of a cohort agree on shared flavors |
| Scheduler.RequeuedAtOnceIff | pkg/scheduler/scheduler.go:405-410 | an entry goes straight back to the heap if and only if it was nominated, skipped or waits for evictions, or is in a StrictFIFO queue without namespace mismatch |
| Heaps.BeforeIsTotalPreorder | pkg/queue/cluster_queue_strict_fifo.go:47-60 | the ordering is reflexive, total and transitive |
| Heaps.RootIsFirst | pkg/util/heap/heap.go:148-150 | in a heap the root comes before every object |
| Heaps.Heap.Swap | pkg/util/heap/heap.go:79-83 | exchanges two objects and keeps slice and index inverse to each other |
| Heaps.Heap.Append | pkg/util/heap/heap.go:86-93 | adds the object and restores heap order |
| Heaps.Heap.TakeLast | pkg/util/heap/heap.go:96-106 | drops the last object from slice and index |
| Heaps.Heap.PushOrUpdate | pkg/util/heap/heap.go:116-124 | the object replaces or joins the contents, and heap order is restored in either direction |
| Heaps.Heap.PushIfNotPresent | pkg/util/heap/heap.go:128-136 | adds only a new key |
| Heaps.Heap.Delete | pkg/util/heap/heap.go:139-145 | removes the key and restores heap order although the ordering is reflexive |
| Heaps.Heap.Pop | pkg/util/heap/heap.go:148-150 | removes and returns an object of highest priority and, among those, earliest time |
| PendingQueues.PendingQueue.AddFromLocalQueue | pkg/queue/cluster_queue_impl.go:78-86 | pushes the items whose keys are not there; reports whether there was any |
| PendingQueues.PendingQueue.Update | pkg/queue/cluster_queue_impl.go:64-72 | changes the cohort and nothing that is pending |
| PendingQueues.PendingQueue.PushOrUpdate | pkg/queue/cluster_queue_impl.go:88-105 | an unchanged parked workload stays parked, anything else goes to the heap |
| PendingQueues.PendingQueue.Delete | pkg/queue/cluster_queue_impl.go:107-111 | removes the workload from heap and parking map |
| PendingQueues.PendingQueue.DeleteFromLocalQueue | pkg/queue/cluster_queue_impl.go:113-123 | removes all of a LocalQueue's items |
| PendingQueues.PendingQueue.RequeueIfNotPresent | pkg/queue/cluster_queue_impl.go:125-153 | goes to the heap if the reason is immediate or a flush followed the last Pop, is parked otherwise, once |
| PendingQueues.PendingQueue.QueueInadmissibleWorkloads | pkg/queue/cluster_queue_impl.go:157-177 | moves exactly the parked workloads whose namespace matches, records the cycle, and reports whether one was new to the heap |
| PendingQueues.PendingQueue.Pop | pkg/queue/cluster_queue_impl.go:191-199 | counts the cycle and removes a head that may come first, if there is one |
| Managers.IndexIsExact | pkg/queue/manager.go:42-53 | heap and parking map are disjoint and hold exactly the items of the LocalQueues pointing to the queue; a head's LocalQueue exists |
| ManagerIndex.AddOrUpdateKeepsIndex | pkg/queue/manager.go:263-279 | adding or updating a workload keeps the index |
| ManagerIndex.RequeueKeepsIndex | pkg/queue/manager.go:284-313 | so does requeueing the newest version |
| ManagerIndex.RemoveKeepsIndex | pkg/queue/manager.go:321-332 | so does removing a workload, which is then in no LocalQueue |
| ManagerIndex.FlushKeepsIndex | pkg/queue/manager.go:397-410 | so does a flush of any queues |
| ManagerIndex.AddLocalKeepsIndex | pkg/queue/manager.go:150-178 | so does a new LocalQueue with its listed workloads |
| ManagerIndex.UpdateLocalKeepsIndex | pkg/queue/manager.go:180-199 | so does pointing a LocalQueue to another queue |
| ManagerIndex.DeleteLocalKeepsIndex | pkg/queue/manager.go:201-214 | so does deleting a LocalQueue |
| ManagerIndex.AddQueueKeepsIndex | pkg/queue/manager.go:67-107 | so does a new ClusterQueue whose listing finds the LocalQueues that point to it |
| ManagerIndex.UpdateQueueKeepsIndex | pkg/queue/manager.go:109-134 | so does moving a ClusterQueue between cohorts |
| ManagerIndex.DeleteQueueKeepsIndex | pkg/queue/manager.go:136-148 | so does deleting a ClusterQueue |
| ManagerIndex.MovedAlready | pkg/queue/manager.go:412-421 | an update event that comes after its newest version was requeued keeps the index |
| ManagerIndex.StepKeepsIndex | pkg/queue/manager.go:67-421 | every manager call with consistent arguments keeps the index |
| ManagerIndex.RunKeepsIndex | pkg/queue/manager.go:67-421 | so does every run of such calls |
| ManagerIndex.UpdateKeepsIndex | pkg/queue/manager.go:412-421 | a workload changes LocalQueue without loss or duplicate, even if its newest version was requeued first |
| ManagerIndex.HeadsKeepIndex | pkg/queue/manager.go:492-511 | taking heads keeps cluster queues and LocalQueues in step |
| ManagerObjects.Manager.FlushCohort | pkg/queue/manager.go:397-410 | flushes the queue objects of the cohort, or the one queue without a cohort, and reports whether a workload entered a heap |
| ManagerObjects.Manager.QueueAssociatedInadmissibleWorkloadsAfter | pkg/queue/manager.go:340-359 | flushes the cohort that the workload's LocalQueue points to, or nothing if it or its queue is gone; keeps the index |
| ManagerObjects.Manager.QueueInadmissibleWorkloads | pkg/queue/manager.go:364-385 | flushes the cohorts of all named queues, each queue to the effect of one flush; keeps the index |
| ManagerObjects.FlushTwice | pkg/queue/manager.go:364-385 | flushing a queue again has no further effect |
| ManagerObjects.Manager.AddClusterQueue | pkg/queue/manager.go:67-107 | a new queue object gets the items of the listed LocalQueues, joins the cohort and is flushed with it; if the listing finds all, it holds exactly what they list |
| ManagerObjects.Manager.UpdateClusterQueue | pkg/queue/manager.go:109-134 | moves the queue between cohorts and flushes the new one; keeps the index |
| ManagerObjects.Manager.DeleteClusterQueue | pkg/queue/manager.go:136-148 | the queue object is gone, no other is touched, and the LocalQueues keep their items for a queue of that name; keeps the index |
| ManagerObjects.Manager.DeleteCohort | pkg/queue/manager.go:520-530 | removes the name, and the cohort with its last one |
| ManagerObjects.Manager.UpdateCohort | pkg/queue/manager.go:532-535 | the name leaves the old cohort and joins the new one |
| ManagerObjects.Manager.AddLocalQueue | pkg/queue/manager.go:150-178 | takes the listed workloads that are not admitted and pushes them to the queue object; keeps the index |
| ManagerObjects.Manager.UpdateLocalQueue | pkg/queue/manager.go:180-199 | the items leave heap and parking map of the old queue object and enter the heap of the new one, so that each queue again holds exactly what is listed |
| ManagerObjects.Manager.DeleteLocalQueue | pkg/queue/manager.go:201-214 | no queue object holds its items any more, and each holds exactly what is listed |
| ManagerObjects.Manager.AddOrUpdateWorkload | pkg/queue/manager.go:263-279 | the workload is listed and held by the queue object of its LocalQueue, once; reports whether both queues exist |
| ManagerObjects.Manager.RequeueWorkload | pkg/queue/manager.go:284-313 | the newest version, unless gone, admitted or without LocalQueue, is held once by the queue object of its LocalQueue; reports whether it entered |
| ManagerObjects.Manager.DeleteFromQueues | pkg/queue/manager.go:321-332 | afterwards no LocalQueue lists the workload and no queue object holds it |
| ManagerObjects.Manager.UpdateWorkload | pkg/queue/manager.go:414-421 | the workload moves between LocalQueues without loss or duplicate; reports whether both queues exist |
| ManagerObjects.Manager.Heads | pkg/queue/manager.go:492-511 | pops the heap of every active queue object: one head each, none to come before it; the LocalQueue it updates is always there |
| WakeUp.CohortIsFlushed | pkg/queue/manager.go:397-410 | a flush through any member reaches every queue that shares quota with it |
| WakeUp.HeadsKeep | pkg/queue/manager.go:492-511 | taking heads loses no wake-up |
| WakeUp.FlushedKeepsIff | pkg/queue/manager.go:340-410 | a step that frees quota in some queues and flushes some loses none if and only if all that is parked where it frees without flushing failed the selector |
| WakeUp.CallShape | pkg/queue/manager.go:67-421 | what each other manager call does to the queues that it flushes, gives quota to and leaves alone |
| WakeUp.RetryKeepsIff | pkg/queue/cluster_queue_impl.go:125-153 | requeueing a head loses none if and only if it is not parked, or its newest version had its turn where it is parked after the last event that may have freed quota |
| WakeUp.MovedHeadKeepsIff | pkg/queue/manager.go:296-307 | a head that never had its turn, as it is, in its new queue: if and only if it is requeued immediately or a flush followed the last Pop there |
| WakeUp.StepKeepsIff | pkg/queue/manager.go:67-511 | for every step of the scheduler loop, every release and every call, the exact condition for losing no wake-up |
| WakeUp.StepKeepsSane | pkg/queue/manager.go:67-511 | every step keeps times in order and every queue listed under its cohort |
| WakeUp.RunKeepsIff | pkg/queue/manager.go:67-511 | no state of a history has lost a wake-up if and only if each of its steps meets its condition |
| WakeUp.NoLostWakeUpIff | pkg/queue/cluster_queue_impl.go:125-199 | the same of all histories of the empty manager: parked workloads failed the selector at the latest flush, or were tried in their queue, as they are, after the last event that may have freed quota in the cohort |
| WakeUp.RoutedReaches | pkg/queue/manager.go:347-358 | a release reaches its whole cohort while its LocalQueue points there |
| WakeUp.SettledKeeps | pkg/queue/manager.go:284-410 | by the handshake of Pop and flush, a settled step meets its condition |
| WakeUp.SettledHandshake | pkg/queue/cluster_queue_impl.go:130-150 | and keeps the handshake |
| WakeUp.SettledNeverLoses | pkg/queue/manager.go:284-410 | no history of settled steps loses a wake-up |
| WakeUp.GivenIsFlushed | pkg/queue/manager.go:67-134 | every queue that a call may give quota to is flushed by it, unless a queue leaves a cohort |
| WakeUp.LateRetryCalmer | pkg/scheduler/scheduler.go:405-410 | a workload whose admission failed late is never parked, under both strategies |
| WakeUp.BrokenHandshakeLoses | pkg/queue/cluster_queue_impl.go:130-150 | without the handshake, requeueing parks a head that was not tried since quota was freed |
| JointRuns.LiveIsView | pkg/cache/snapshot.go:55-114 | what is within the limits in a snapshot is decided by the active queues of the cache |
| JointRuns.StillDoesNotFit | pkg/scheduler/flavorassigner/flavorassigner.go:227-307 | a workload without detours that did not fit does not fit where there is no more room |
| JointRuns.RunProjects | pkg/queue/manager.go:67-511 | the manager's part of a joint run is a history of the manager |
| JointRuns.StepKeepsInv | pkg/scheduler/scheduler.go:121-211 | every joint step keeps, for each trial, that its queue has had no more room since, unless an event that may have freed quota was recorded |
| JointRuns.RunKeepsInv | pkg/scheduler/scheduler.go:121-211 | so does every joint run |
| JointRuns.ParkedDoesNotFit | pkg/queue/cluster_queue_impl.go:125-199 | in every joint run whose steps meet their conditions, a parked workload without detours failed the selector, was rejected, or does not fit the cache as it is now |
| JointRuns.SettledParkedDoesNotFit | pkg/queue/manager.go:284-410 | so in every joint run of settled steps |
| JointOps.AssumeTruthful | pkg/cache/cache.go:767-791 | assuming a workload gives room to no queue |
| JointOps.DeleteTruthful | pkg/cache/cache.go:733-749 | a release gives room at most to the cohort of the queue that charged the workload |
| JointOps.ForgetTruthful | pkg/cache/cache.go:793-815 | so does a forget |
| JointOps.TerminateTruthful | pkg/cache/cache.go:531-538 | marking a queue as terminating gives room at most to its cohort |
| JointOps.AddQueueTruthful | pkg/cache/cache.go:553-598 | a new queue gives room at most to its cohort |
| JointOps.UpdateQueueTruthful | pkg/cache/cache.go:600-629 | an update gives room at most to the queue's new cohort, and to the one it leaves if it used more of some pair there than it brought |
| JointOps.DeleteQueueTruthful | pkg/cache/cache.go:631-641 | a deletion gives room to the cohort at most if the queue used more of some pair than it brought |
| JointWitness.FitsIff | pkg/scheduler/flavorassigner/flavorassigner.go:227-278 | in the setting of the runs below, a trial fits if and only if the amount is within the limits |
| JointWitness.LeftBehindIsLost | pkg/queue/manager.go:123-131 | a joint run: a borrowing queue leaves its cohort, and a workload stays parked there although it now fits |
| JointWitness.OrphanedReleaseIsLost | pkg/queue/manager.go:347-350 | a joint run: a workload ends whose LocalQueue was deleted, and a workload of its cohort stays parked although it now fits |
| JointWitness.ForgottenIsLost | pkg/scheduler/scheduler.go:357-360 | a joint run: an assumed workload is forgotten, and a workload of its cohort stays parked although it now fits |
| JointWitness.TerminatedIsLost | pkg/controller/core/clusterqueue_controller.go:102-105 | a joint run: a borrowing queue is marked as terminating, and a workload of its cohort stays parked although it now fits |
| JointWitness.MovedHeadIsLost | pkg/queue/manager.go:296-307 | a joint run: a head's LocalQueue is pointed to another queue while it is tried, and it is parked there although it fits |
| JointWitness.RaisedHeadIsLost | pkg/queue/manager.go:284-313 | a joint run: a head's priority is raised while it is tried, and it stays parked although it could now preempt its way in |

## Left out

- Snapshots.Snapshot.constructor: does not state that later changes of cache and snapshot leave the other alone, because copies are values here; the code copies usage map by map for that. Queues and cohorts are referred to by name, where the code shares pointers.
- Preemptor.Do: states when a panic needs a gap, not exactly when the checks after the first evictions meet it; `CanPanicIff` is exact for finding the candidates.
- JointRuns.ParkedDoesNotFit: is about workloads with one pod set or queues with one flavor per group, because otherwise more usage can make a workload fit (`UsageCanHelp`) and no event wakes it; and it goes one way, from the conditions to the property.
- JointRuns: which events may change the cache alone or together with the manager is shown for the operations in `JointOps`; confirmations and flavor changes are not among them.
- WakeUp: a listing that fails inside AddClusterQueue, which leaves a new queue unflushed, is not part of the histories.
- Heads: one pass over the queues; blocking until there is a head is not modelled.
- QueueAssociatedInadmissibleWorkloadsAfter: does not return whether it broadcasts; broadcasts on the condition variable are not modelled.
- NominateOne: the namespace, LimitRange and resource checks are one parameter, because they only read the API.
- AdmitOne: how many of the targets the API server evicts is a parameter, because eviction is a parallel API call.
- RunKeepsQuota: quotas, cohorts and statuses are fixed during a run, because lowering a quota may by design leave usage above it.
- Heap: the sifting and removal algorithms of Go's container/heap are not part of the repository and are modelled as published.
- Waiting for pods to be ready, its timeouts and `WorkloadsNotReady`.
- Evicting the targets (`issuePreemptions`): parallel API calls; evictions come back as releases.
- LimitRange summaries, resource validation, taint and affinity matching, status messages, metrics, events and logging.
- The Kubernetes client, server-side apply, controllers, webhooks and the job integrations.
- 64-bit overflow and the textual form of quantities.
