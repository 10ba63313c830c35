# Verified model of the VMware Cloud Foundation migration operator

The operator moves a cluster's worker nodes and configuration from one vCenter to others. It works
through six stages, each restartable at any point, while users edit the migration object and several
reconcilers may be active at once. This project models its decision logic in Dafny and proves what it
must never do: lose worker capacity, touch a destination, block itself, record stages out of order,
forget a completed migration, or remove a destination's configuration.

`dafny verify dfyconfig.toml` checks everything.

## How the model is laid out

* `Text`, `Names`: decimal rendering, label sanitising, truncation, copy suffixes and name families.
* `FailureDomains`: topology matching, mapping resolution and immutability.
* `Sums`: sums of replicas over sets of names, the sorted source list, append-only name lists.
* `MachineSets`: the cluster as a map from name to MachineSet, and the specification of layout
  classification, expected names, Step 1, recovery and coverage. `Decisions` holds the loops that compute them.
* `Capacity`: single API effects, runs of them, and capacity safety over whole runs.
* `Progress`, `StepOne`, `Agreement`, `Marking`, `Records`, `Recovery`, `Creation`, `CreationOutcome`, `CreationRetry`,
  `WorkerReadiness`: why
  the steps of the workload stage do not block, contradict or undo each other, and exactly when they stop.
  `Disagreement` holds the migration on which two of them contradict each other.
* `WorkerReconciler`: the workload stage as a class. Every API call may fail, any point may be the last
  before a crash, and a ghost history shows that whatever it does is a run.
* `MigrationStatus`, `StatusHistory`, `StatusSafety`, `StatusWrites`, `ExecutionGate`: the stored object, one
  reconcile's local edits and their merge, every interleaving on one object key, what holds in all of them, what
  a write leaves behind, and what a reconcile can still do once its object has drifted. `StatusStore` holds the
  retrying writers and the reconcile loop, with arbitrary interference between any two of their reads and writes.
* `Stability`, `Cleanup`, `Messages`: the readiness window, source cleanup, and byte-bounded messages.

## What is assumed

* The workload theorems assume what preflight has established when the stage runs: a non-empty infrastructure
  ID that does not start with a hyphen, distinct mapping sources and destinations, distinct names of the
  Infrastructure's failure domains, pairwise non-overlapping destination bases (`WellFormed`), and mapped source
  failure domains that exist on one shared source vCenter which is not a destination (`Ready`). No one else
  edits MachineSets meanwhile.
* A full base name is not a numeric-suffix extension of its own truncation (`NoSuffixCut`).
* The agreement of creation and Step 1 is proved for every record whose names stand on their destinations, as an
  if-and-only-if: it fails exactly on records without their base in front of an aggregate known by its replica
  count or of an unreadable leftover, and `Disagreement` holds a migration on which it fails. The class assumes
  records that include their base, which every one of its methods keeps.
* MachineSet names are what the API server accepts: not empty, not ending in a hyphen.
* Status fields are written only by this operator, UIDs are never reused, the spec changes only together with the
  generation, and only the operator removes its finalizer. Whether a deletion request raises the generation is left open. The spec digest is injective.
* Cleanup is stated for a fixed spec, vCenter entries with non-empty servers, and the stability window for a
  clock that does not run backwards.

Where comments and code differ the code is followed: the readiness comment speaks of about three minutes of
stability, the code guarantees 150 seconds from the first to the last counted observation.

Replicas are unbounded natural numbers. Strings are sequences of characters: in `Names` those the label
conversion sees one by one, among them the two outside ASCII whose lower case is an ASCII letter, so that every
sanitised label is ASCII; everywhere else each character stands for one byte.

## Model

| member | source | states |
|---|---|---|
| Capacity.CapacityNeverLost | internal/controller/vmwarecloudfoundationmigration_controller.go:1003-1066 | In every state of every run of create, annotate, record, publish, scale, delete and restart, cut off anywhere, source replicas plus replicas of the mapped replacements are at least the source replicas the run began with, and so is the cluster total |
| Capacity.OnlySourcesShrink | internal/controller/vmwarecloudfoundationmigration_controller.go:1076-1082 | Between any two states of a run a MachineSet that is not on the source vCenter, so every one on a destination, keeps its replicas and placement and is never deleted |
| Capacity.StepPreserves | internal/openshift/machines.go:248-319 | No single API effect lowers, moves or removes a MachineSet outside the source vCenter |
| Capacity.GateIsSound | internal/controller/vmwarecloudfoundationmigration_controller.go:1096-1111 | If recovery and coverage both pass, every mapping's replacements hold at least its sources' replicas and every running source is selected by exactly one mapping |
| Capacity.GateSurvivesScale | internal/controller/vmwarecloudfoundationmigration_controller.go:1112-1122 | Scaling one source keeps the gate, so one check covers the whole scale-down loop |
| Capacity.ExpectedHoldsCapacity | internal/controller/failuredomains.go:343-363 | Whatever layout is accepted, the expected names hold the replicas of all sources |
| Capacity.CopiesCoverSources | internal/controller/failuredomains.go:343-363 | Positional copies that are each large enough are large enough in total, because generated names are distinct |
| Capacity.CoveredSourceAssignedOnce | internal/controller/failuredomains.go:567-599 | A running source that passes coverage is selected by exactly one mapping |
| Capacity.MatchedDisjoint | internal/controller/failuredomains.go:512-533 | Topologies that pass the disjointness check give the mappings pairwise disjoint sources, so a source is never assigned twice |
| Capacity.MatchedExactly | internal/openshift/machines.go:216-245 | A mapping selects exactly the MachineSets placed on the source server, in the datacenter and, where one is determined, the resource pool of its source failure domain |
| MachineSets.ResolveBaseOwned | internal/controller/vmwarecloudfoundationmigration_controller.go:1911-1923 | The resolved base is the full generated name or its truncation, never anything else |
| MachineSets.LegacyKept | internal/controller/vmwarecloudfoundationmigration_controller.go:1911-1923 | The untruncated name is kept exactly if it stands, has at most 63 bytes and nothing is recorded in the family of the base |
| MachineSets.ExpectedInFamily | internal/controller/failuredomains.go:321-373 | Every expected name is the base or a numeric-suffix extension of it |
| Progress.CleanupKeepsAccepting | internal/controller/failuredomains.go:406-496 | After lowering any subset of the sources, or deleting any subset of idle ones, every mapping keeps its layout decision and Step 1 still accepts |
| Progress.CleanupRunStaysSettled | internal/controller/vmwarecloudfoundationmigration_controller.go:1037-1062 | From a settled, published state every later state of every cleanup run, with restarts anywhere, is accepted by Step 1 |
| Progress.PassesIsStepOne | internal/controller/vmwarecloudfoundationmigration_controller.go:2033-2146 | With one shared source vCenter Step 1 decides exactly the simpler per-mapping condition the proofs use |
| Progress.FailsIsStepOne | internal/controller/vmwarecloudfoundationmigration_controller.go:2033-2146 | With one shared source vCenter Step 1 fails exactly on the simpler per-mapping condition the proofs use |
| Progress.SourcesAgree | internal/controller/failuredomains.go:631-650 | Recovery, which filters by server first, and Step 1, which does not, select the same sources |
| StepOne.StepOneIsIdentity | internal/controller/vmwarecloudfoundationmigration_controller.go:2105-2143 | Step 1 accepts if and only if every mapping's expected names stand where they should and no running source's copy carries another source's name |
| StepOne.AcceptedCopyIsItsOwn | internal/controller/vmwarecloudfoundationmigration_controller.go:2105-2143 | In an accepted state the copy of a running source stands on the destination server under the name of its position, is at least as large, and carries no identity or its own |
| StepOne.IdentitiesApart | internal/controller/vmwarecloudfoundationmigration_controller.go:2131-2142 | No two running sources share the identity of a copy |
| StepOne.AcceptedStands | internal/controller/failuredomains.go:321-373 | In a state Step 1 accepts every recorded name of a mapping stands on its destination, and for its sources stands one large enough copy each or a base that holds them all |
| StepOne.RecoveredStands | internal/controller/failuredomains.go:631-691 | So it is in a state recovery accepts |
| Agreement.CreationIsAccepted | internal/controller/vmwarecloudfoundationmigration_controller.go:2238-2352 | With recorded names on their destinations, a creation that succeeds is accepted by the next Step 1 if and only if no mapping's record lacks its base while that base is an aggregate known only by its replica count, or, with the sources gone, a MachineSet that cannot be read |
| Disagreement.CreationRefused | internal/controller/vmwarecloudfoundationmigration_controller.go:2238-2352 | A concrete migration of two mappings on which creation is entered because the first copy is missing, succeeds, records all it planned, and is refused by the next Step 1 |
| Agreement.LostStatusAccepted | internal/controller/vmwarecloudfoundationmigration_controller.go:2263-2277 | If the status write after a full creation is lost, Step 1 accepts the created MachineSets with the old record, except for a finished mapping whose unrecorded base cannot be read |
| Agreement.SoundRecordsAgree | internal/controller/failuredomains.go:406-482 | Records that include their base, as the operator keeps them, never make creation and Step 1 disagree |
| Agreement.AcceptedRecovers | internal/controller/failuredomains.go:625-695 | If Step 1 accepts, name recovery succeeds |
| Agreement.FreshCreationPairs | internal/controller/vmwarecloudfoundationmigration_controller.go:2251-2326 | A fresh mapping ends with exactly one copy per source, the i-th source under the i-th name with equal replicas and its own identity, and no other replacement |
| Agreement.BaseStable | internal/controller/vmwarecloudfoundationmigration_controller.go:1894-1923 | Adding generated names to the cluster and the record never changes a resolved base |
| Agreement.CreationBaseAgrees | internal/controller/vmwarecloudfoundationmigration_controller.go:2251-2262 | The base the creation loop recomputes from its planned names is the resolved one |
| Marking.PassSettles | internal/controller/vmwarecloudfoundationmigration_controller.go:2033-2146 | Marking one mapping's aggregate does not disturb another, and a pass that accepts every mapping leaves all aggregates annotated and everything still accepted |
| Marking.UnflaggedMapping | internal/controller/vmwarecloudfoundationmigration_controller.go:2080-2099 | Annotations on other MachineSets change neither the base, the verdict nor the layout of a mapping |
| Records.ConsistentGrows | internal/controller/vmwarecloudfoundationmigration_controller.go:2263-2326 | Creation, marking and recovery keep the published and the in-memory names placed, with their base, and resolving the same bases |
| Records.CleanupKeepsConsistent | internal/controller/vmwarecloudfoundationmigration_controller.go:1112-1122 | Scale-down and deletion keep them so too |
| Records.ReadyNodesCoverSources | internal/controller/vmwarecloudfoundationmigration_controller.go:838-858 | If readiness and the gate saw the same cluster, ready nodes of the destination families are at least the source replicas about to be removed |
| WorkerReadiness.ReadinessMeansNodes | internal/controller/vmwarecloudfoundationmigration_controller.go:1937-1994 | Passing the readiness wait means every family of a mapping with sources has as many ready nodes as desired replicas |
| WorkerReadiness.CheckWorkerReadiness | internal/controller/vmwarecloudfoundationmigration_controller.go:1937-1994 | Over if and only if every awaited MachineSet, the base included, is ready, and never on an empty list while names are recorded; an error if and only if an awaited one does not exist |
| WorkerReadiness.ReadyMeansAll | internal/controller/vmwarecloudfoundationmigration_controller.go:1937-1994 | The wait is over if and only if each awaited mapping has its base, its family and its recorded names ready, and with names recorded some mapping is awaited |
| WorkerReadiness.OnlyStraysBreakReadiness | internal/controller/vmwarecloudfoundationmigration_controller.go:1937-1957 | In a state Step 1 accepts, readiness errors only on a suffixed MachineSet without its base, for a mapping with neither sources nor recorded names |
| WorkerReadiness.IsAwaited | internal/controller/vmwarecloudfoundationmigration_controller.go:2370-2409 | A mapping is skipped exactly if it has no sources, no recorded names and no destination MachineSets |
| WorkerReadiness.SkippedMeansNothing | internal/controller/vmwarecloudfoundationmigration_controller.go:2370-2409 | In terms of the cluster: a mapping is skipped if and only if its source failure domain is known and selects nothing, and no MachineSet or recorded name lies in its family |
| WorkerReadiness.CheckWaited | internal/openshift/machines.go:576-650 | Over if and only if every waited MachineSet exists and, unless at zero, has complete machines and nodes, each at least its replicas |
| Decisions.ClassifyDestinationLayout | internal/controller/failuredomains.go:406-482 | Decides the layout, stated outcome by outcome: unreadable base, aggregate too small, aggregate by annotation or by an unannotated lone base with exactly the total (or nothing running), ambiguous when that total differs, and per source otherwise |
| Decisions.ExpectedDestinationNames | internal/controller/failuredomains.go:321-373 | Names are expected exactly if the layout is decided and no existing copy is smaller than the source at its position; they are the recorded family plus the base of an aggregate or one generated name per source |
| Decisions.CheckTargets | internal/controller/vmwarecloudfoundationmigration_controller.go:2105-2143 | Passes exactly if every name is on the server and no running source's existing copy carries another name than the source's; it is broken only by a name on another server or by such a copy |
| Decisions.CheckMapping | internal/controller/vmwarecloudfoundationmigration_controller.go:2033-2146 | Passes if and only if Step 1 accepts the mapping, is broken only if names cannot be expected or a target stands elsewhere or for another source, and reports an aggregate if and only if the layout is one; a vanished source failure domain needs exactly the recorded names, or else the base, on the destination |
| Decisions.RecoverMapping | internal/controller/failuredomains.go:631-691 | Recovers exactly if the mapping's expected names all stand on its destination; every recovered name is expected, its base with it |
| Decisions.RecoverNames | internal/controller/failuredomains.go:625-695 | Succeeds exactly if every mapping recovers; the appended names are new, distinct and come with their base, and afterwards every expected name is known |
| Decisions.MatchFailureDomain | internal/controller/failuredomains.go:512-533 | Counts matches: none, exactly one and which, or more than one |
| Decisions.CheckSourceCovered | internal/controller/failuredomains.go:567-599 | A source is covered if and only if no two failure domains of its vCenter take it and, when it runs, one takes it that is mapped to a destination with a recorded name |
| Decisions.CoveredMeansRecorded | internal/controller/failuredomains.go:567-599 | Coverage of one source in terms of failure domains, mappings and recorded names |
| Decisions.ValidateCoverage | internal/controller/failuredomains.go:554-562 | Accepts exactly if every source on the server is covered |
| Decisions.ResolveSource | internal/controller/failuredomains.go:79-91 | Yields the server of the first mapping's source failure domain exactly if it is not empty and no destination uses it |
| Creation.PlanMapping | internal/controller/vmwarecloudfoundationmigration_controller.go:2163-2215 | A mapping is skipped if and only if its sources are gone and its recorded names exist, stops the plan if and only if its destination or names cannot be resolved or, with no sources, a recorded name is gone, and otherwise gets the sorted sources and expected names |
| Creation.PlanWorkers | internal/controller/vmwarecloudfoundationmigration_controller.go:2163-2236 | A plan covers every unfinished mapping in order, and exists if and only if every mapping can be planned and recorded plus planned names are at most 256 |
| Creation.CreatingBounded | internal/controller/vmwarecloudfoundationmigration_controller.go:2217-2234 | At every point of creation the record is within the planned union and no longer than it |
| Creation.CreatingConsistent | internal/controller/vmwarecloudfoundationmigration_controller.go:2251-2326 | At every exit of creation the names are consistent and no source was touched |
| Creation.CreationAccepted | internal/controller/vmwarecloudfoundationmigration_controller.go:2327-2352 | Working through the whole plan yields a state that Step 1 accepts if and only if the records agree |
| Creation.EntryBase | internal/controller/vmwarecloudfoundationmigration_controller.go:2251-2262 | Each entry's recomputed base is the resolved one and is itself planned |
| Creation.CreationAddsCopies | internal/controller/vmwarecloudfoundationmigration_controller.go:2305-2325 | At every point of creation existing MachineSets are as they were, each new one is an exact copy of one source in the destination workspace, and a recorded one is never back at zero |
| CreationOutcome.CreationResumes | internal/controller/vmwarecloudfoundationmigration_controller.go:2163-2236 | Wherever creation was interrupted, with its names published or lost, the plan it was working through is still the plan, entry by entry |
| CreationOutcome.ResumedUnionSame | internal/controller/vmwarecloudfoundationmigration_controller.go:2217-2234 | Resuming never outgrows the bound: recorded plus planned names are the same set as at the start |
| CreationOutcome.PlanResumes | internal/controller/failuredomains.go:321-373 | What an unfinished creation added changes no mapping's expected names |
| CreationOutcome.PlannedBlocked | internal/controller/vmwarecloudfoundationmigration_controller.go:2251-2346 | With a plan within the bound, creation is blocked if and only if a copy's name is taken, a recorded copy is gone with its source at zero or gone, or two mappings share a source |
| CreationOutcome.NothingContested | internal/controller/vmwarecloudfoundationmigration_controller.go:2255-2259 | Disjoint topologies never make creation find a source assigned twice |
| CreationOutcome.MissingIsUnrecoverable | internal/controller/vmwarecloudfoundationmigration_controller.go:2327-2346 | After all copies are done a planned name is missing if and only if it was missing at the start and no source stands at its position |
| CreationRetry.FreshCreationFree | internal/controller/vmwarecloudfoundationmigration_controller.go:2163-2259 | On a fresh migration creation is blocked if and only if a destination does not exist, more than 256 names would be recorded, or two mappings select one source |
| CreationRetry.RetryNotBlocked | internal/controller/vmwarecloudfoundationmigration_controller.go:2238-2352 | A creation that nothing blocked when it started is not blocked when it is taken up again, wherever it was cut off |
| Recovery.RecoveryKeepsSettled | internal/controller/failuredomains.go:679-694 | Recording recovered names changes neither a layout nor what is expected |
| Recovery.RecoveryConsistent | internal/controller/failuredomains.go:679-694 | Recovered names keep the record consistent |
| Recovery.AcceptedCovers | internal/controller/failuredomains.go:554-599 | Once Step 1 has accepted and the recovered names are recorded, coverage holds if and only if every source falls into at most one failure domain and every running one into a mapped one |
| Recovery.StepsShrink | internal/controller/vmwarecloudfoundationmigration_controller.go:811-872 | What does not regress and is accepted has no more steps left, and strictly fewer if anything advanced |
| WorkerReconciler.WorkerMigration.TargetMachineSetsExist | internal/controller/vmwarecloudfoundationmigration_controller.go:2033-2146 | Reports existence only for an accepted state: every expected name stands and no running source has a swapped copy; it leaves the state settled with every aggregate annotated and recorded. Reports missing or unresolved only if a name does not stand or a copy is swapped; only annotations of recorded MachineSets are added |
| WorkerReconciler.WorkerMigration.EnsureCopy | internal/controller/vmwarecloudfoundationmigration_controller.go:2262-2325 | Makes one copy exist and recorded and adds nothing else; unless a call fails it succeeds if and only if the copy was not blocked: its name on another server, made for another running source, or recorded and gone with its source at zero |
| WorkerReconciler.WorkerMigration.CreateEntry | internal/controller/vmwarecloudfoundationmigration_controller.go:2251-2326 | Creates one mapping's copies in source order; unless a call fails it succeeds if and only if none of them was blocked at the start and no source was claimed before |
| WorkerReconciler.WorkerMigration.CreateMissing | internal/controller/vmwarecloudfoundationmigration_controller.go:2238-2352 | An oversized plan creates and records nothing; existing MachineSets are left alone and each new one is an exact copy of one source in the destination workspace; a recorded one is never brought back at zero; the record stays duplicate-free, within the planned union and at most 256; success is accepted; and unless a call fails it succeeds if and only if nothing blocked it at the start |
| WorkerReconciler.WorkerMigration.OpenGate | internal/controller/vmwarecloudfoundationmigration_controller.go:1083-1111 | Opens only with all expected names recorded, all names published and the gate holding, adding only recovered names; on an accepted state, unless a call fails, it opens if and only if the topology assigns every running source to one mapped failure domain |
| WorkerReconciler.WorkerMigration.ScaleDownSources | internal/controller/vmwarecloudfoundationmigration_controller.go:1073-1130 | Lowers only sources, only after the gate held and the names were published, in the end all to zero; reports scaling exactly if something ran; unless a call fails it gets through if and only if the topology fits |
| WorkerReconciler.WorkerMigration.DeleteSources | internal/openshift/machines.go:326-357 | Deletes only idle sources and nothing while any source has replicas; success means the deletion of every source was accepted; unless a call fails it succeeds if and only if nothing ran |
| WorkerReconciler.WorkerMigration.FinishSteps | internal/controller/vmwarecloudfoundationmigration_controller.go:838-872 | Steps 2 to 8: the control plane is updated only when the workers are ready and the pools have converged; sources are scaled only with the control plane updated before and rolled out, and with ready destination nodes at least the replicas on the source vCenter; deletion is requested only when besides nothing ran and the old machines are gone; it waits only for one of these, and fails only on a failed call or a stated obstacle |
| WorkerReconciler.WorkerMigration.EnsureWorkloadMigrated | internal/controller/vmwarecloudfoundationmigration_controller.go:738-872 | At every exit the initial capacity is still there; a reconcile that neither fails nor waits has strictly fewer steps left; each step is taken only after the waits in front of it are over (pools, rollout, ready workers, idle sources, old machines); completion means no source MachineSet remains; it waits only for one of those or for deletions already accepted; and it fails only if a call failed, a mapping is broken, creation is blocked, the topology leaves a running source uncovered, or a stray copy lacks its base |
| WorkerReconciler.SmallMigrationReady | internal/controller/preflight.go:116-150 | The hypotheses of the workload theorems hold of a small migration that has work to do |
| WorkerReconciler.WorkerMigration.PublishNames | internal/controller/vmwarecloudfoundationmigration_controller.go:1140-1174 | Publication makes exactly the names in memory durable, or changes nothing |
| WorkerReconciler.WorkerMigration.CreateMachineSet | internal/openshift/machines.go:81-135 | Adds one copy of a source with its replicas and identity, or changes nothing |
| WorkerReconciler.WorkerMigration.AnnotateAggregate | internal/openshift/machines.go:274-297 | Adds the annotation, leaves an annotated one alone, or changes nothing |
| StatusSafety.StagesInOrder | internal/controller/vmwarecloudfoundationmigration_controller.go:342-383 | In every version of every interleaving of stale reconcilers, spec edits, deletion and recreation, a stage is true only if all earlier ones are |
| StatusHistory.StatusOnlyGrows | internal/controller/vmwarecloudfoundationmigration_controller.go:1587-1672 | Between any two versions of one object a success is never withdrawn, names are only appended, mappings, source vCenter and start time never change once set, and generations do not go back |
| StatusHistory.ObjectContiguous | internal/controller/vmwarecloudfoundationmigration_controller.go:1596-1605 | An object's versions are contiguous: a name that comes back is another object |
| StatusSafety.StatusWritesStayWithTheirObject | internal/controller/vmwarecloudfoundationmigration_controller.go:1596-1605 | A reconcile's status writes go only to versions of the UID it started on, which existed throughout |
| StatusSafety.FinalizeObeysItsVersion | internal/controller/retention.go:43-67 | The finalizer patch, which compares no UIDs, changes only the finalizer of the version it lands on; it removes it only from one being deleted that is permitted, or Ready with a completion time and the digest of its own spec |
| StatusSafety.FinalizeIsDue | internal/controller/retention.go:43-67 | A finalizer patch is due if and only if the last version is live without it, or being deleted with it and permitted, or Ready with a completion time and the digest of its spec |
| StatusSafety.FinalizeMayReachAnotherObject | internal/controller/retention.go:43-67 | A history in which the patch of a reconcile started on one object lands on its replacement |
| StatusSafety.StaleReconcilePublishesNothing | internal/controller/vmwarecloudfoundationmigration_controller.go:1695-1725 | Once the generation has moved on, a reconcile of an older one publishes no condition, mapping or completion |
| StatusSafety.FinalizerReleased | internal/controller/retention.go:43-67 | The finalizer is removed only from a version being deleted that carries the permission at that moment, or is Ready for a spec equal to one ensureReady completed earlier on that object |
| StatusSafety.ReadyIsBound | internal/controller/vmwarecloudfoundationmigration_controller.go:1388-1525 | A stored Ready success was published by a finished ensureReady of the generation it names |
| StatusSafety.HashIsBound | internal/controller/vmwarecloudfoundationmigration_controller.go:1677-1692 | A recorded completion digest is that of a spec ensureReady completed on the same object |
| ExecutionGate.DriftIsPermanent | internal/controller/execution.go:15-29 | If a later check permits, every check in between would have: once drifted, every later check denies |
| ExecutionGate.PermittedMeansUndisturbed | internal/controller/execution.go:15-29 | A check that permits proves that since the reconcile started the object was never deleted, replaced, edited or paused |
| ExecutionGate.PermitIffUndisturbed | internal/controller/execution.go:15-29 | A check permits if and only if the object runs and in every version since the start was the same, of the same generation and not being deleted |
| ExecutionGate.AtMostOneLateMutation | internal/openshift/machines.go:248-319 | After a drift at most one mutation of an attempt lands, the one already past its check, and it is the last |
| ExecutionGate.HandedIffPermittedOrUnread | internal/controller/vmwarecloudfoundationmigration_controller.go:353-372 | An attempt hands an outcome to the status update if and only if its closing check permits or could not be made |
| ExecutionGate.SuccessMeansUndisturbed | internal/controller/vmwarecloudfoundationmigration_controller.go:359-374 | A success is handed over only if from the start to the closing check the object was never deleted, replaced, edited or paused |
| ExecutionGate.DriftedHandsOverOnlyFailures | internal/controller/vmwarecloudfoundationmigration_controller.go:359-374 | If the object drifted by the closing check, an outcome is handed over if and only if that check could not be made, and then it is a failure |
| ExecutionGate.DriftedPublication | internal/controller/vmwarecloudfoundationmigration_controller.go:1695-1725 | A failure published after a drift adds no success; unless the object is being deleted, the generation guard of the merge drops every condition, mapping and completion |
| ExecutionGate.FailedReadPublishesAfterDrift | internal/controller/vmwarecloudfoundationmigration_controller.go:361-374 | A history in which the handler succeeded, deletion was requested, the closing read failed, and the stage is stored as failed |
| MigrationStatus.LocalSuccess | internal/controller/vmwarecloudfoundationmigration_controller.go:342-383 | A reconcile makes true only the first incomplete stage of its snapshot, at its snapshot's generation |
| MigrationStatus.FirstIncomplete | internal/controller/vmwarecloudfoundationmigration_controller.go:342-347 | The stage found is not true and all before it are |
| MigrationStatus.MergeKeepsTrue | internal/controller/vmwarecloudfoundationmigration_controller.go:1711-1717 | A merge never takes away a stored success |
| MigrationStatus.MergeAddsTrue | internal/controller/vmwarecloudfoundationmigration_controller.go:1699-1725 | A merge adds a success only if the reconcile brought it for the stored generation |
| StatusWrites.MergeStores | internal/controller/vmwarecloudfoundationmigration_controller.go:1699-1725 | One condition through the merge: stored with status, reason, message and observed generation when changed, current and no downgrade of a success; otherwise left as stored |
| StatusWrites.HandledIsStored | internal/controller/vmwarecloudfoundationmigration_controller.go:1607-1692 | A report merged onto the same generation is stored: its verdict on the first incomplete stage unless a success stands, its names, the mappings if none were stored, a start time, and for a finished ensureReady Ready with completion time and digest; a recovered rejection goes, other conditions stay |
| StatusWrites.AnswerIsStored | internal/controller/vmwarecloudfoundationmigration_controller.go:239-323 | A refusal, a pause, a resumption or a start merged onto the same generation is stored in its own condition and changes no other condition, name or mapping |
| StatusWrites.MergedWorkStored | internal/controller/vmwarecloudfoundationmigration_controller.go:1587-1672 | In any history an accepted publication, or one that finds everything in place, has stored its work in the last version |
| StatusHistory.MergeGrows | internal/controller/vmwarecloudfoundationmigration_controller.go:1587-1672 | One merged status update only grows the object |
| StatusStore.MergeConditions | internal/controller/vmwarecloudfoundationmigration_controller.go:1695-1725 | Stores every condition this reconcile changed, observed at or after the stored generation and not undoing a success, with all it says and the transition time of an equal stored status; leaves every other one as stored; reports no change only if there is none |
| StatusStore.Store.UpdateStatus | internal/controller/vmwarecloudfoundationmigration_controller.go:1587-1672 | Under any interference at most one write, onto the version read and the object started from. Written or unchanged, the last version holds the work: verdict, names, mappings, start time and completion. Not found only if the object is gone, superseded only by another one, a conflict only after as many foreign writes as attempts |
| StatusStore.Store.PersistWorkerNames | internal/controller/vmwarecloudfoundationmigration_controller.go:1140-1174 | At most one write, which appends the names to the same object and changes nothing else; unchanged only if some version holds all names; gives up only after as many foreign writes or stale reads as attempts |
| StatusStore.Store.PersistSourceVCenter | internal/controller/vmwarecloudfoundationmigration_controller.go:1344-1370 | Success means some version of the object records exactly that server, a write that it was unset and nothing else changed; a refusal means some version records a different one; gives up only after as many foreign writes or stale reads as attempts |
| StatusStore.Store.UpdateRetentionFinalizer | internal/controller/retention.go:43-67 | At most one write, decided and applied on the same version, whatever object that is. Unchanged means a live version has the finalizer, and one being deleted that has it is neither permitted nor Ready with completion time and the digest of its spec |
| StatusStore.Store.Reconcile | internal/controller/vmwarecloudfoundationmigration_controller.go:184-273 | Handles only a live, running object with an unchanged mapping, at the first incomplete stage, and stores what its attempt behind the gate hands over, which is the handler's own report if every check could be made. It stops only if the gate denies, is unread only if a check failed, and stays idle only without an object to work on, on a changed mapping, or when an opening write found the object gone or lost every attempt |
| StatusStore.Store.Answer | internal/controller/vmwarecloudfoundationmigration_controller.go:220-270 | Deletion, a missing finalizer and pausing get exactly their own answer, at most one write, and no stage is worked on; written or unchanged, the last version carries that answer |
| StatusStore.Store.WorkOnStage | internal/controller/vmwarecloudfoundationmigration_controller.go:342-392 | Its attempt hands an outcome to the store if and only if the checks allow it, stops if and only if they do not, and what is written is stored in the last version; with every check made, the handler's own report is |
| StatusStore.Store.AttemptStage | internal/controller/vmwarecloudfoundationmigration_controller.go:342-374 | An opening check, gated mutations and a closing check that has the last word; it hands over what the attempt allows, nothing only if a check denies, and the handler's own report whenever every check could be made |
| StatusStore.Store.Open | internal/controller/vmwarecloudfoundationmigration_controller.go:300-338 | Goes on only with an unchanged mapping; stops otherwise only if the object is gone or every attempt lost to a foreign write |
| StatusStore.Store.RunHandler | internal/openshift/machines.go:248-319 | Every mutation is submitted after its own check permitted and lands before the next check; a handler gives up only at a check that denied, and overrides its own report only when a check could not be made |
| StatusStore.Store.CheckPermission | internal/controller/execution.go:15-29 | A live read that fails, or permits exactly the same object at the same generation, running and not being deleted |
| Stability.ReadyGate.EnsureReady | internal/controller/vmwarecloudfoundationmigration_controller.go:1388-1525 | Reports Ready if and only if there are six stable calls, each at least 30 s after the one before, with every call since the first stable and at most 90 s after its predecessor, in literal seconds |
| Stability.EnoughCounted | internal/controller/vmwarecloudfoundationmigration_controller.go:1494-1516 | The counter reaches the threshold if and only if such six observations exist |
| Stability.GreedyKeepsUp | internal/controller/vmwarecloudfoundationmigration_controller.go:1494-1508 | Counting the first eligible observation each time counts at least as many as any other choice |
| Stability.SustainedSpan | internal/controller/vmwarecloudfoundationmigration_controller.go:123-140 | The six observations are pairwise at least 30 s apart and span at least 150 s |
| Stability.SustainedIsSix | internal/controller/vmwarecloudfoundationmigration_controller.go:123-140 | Sustained stability in literal numbers: six calls, 30 s, 90 s |
| Cleanup.CleanupSafe | internal/controller/vmwarecloudfoundationmigration_controller.go:1204-1288 | Over any number of attempts, each cut off between any two writes, no destination entry leaves Infrastructure, cloud config or credentials, the recorded source is never a destination and never changes, and a duplicate-free vCenter list does not become empty |
| Cleanup.RemovalEmpties | internal/openshift/infrastructure.go:177-191 | Removal empties the list if and only if it was empty or names the source alone, at least twice |
| Cleanup.KeysApart | internal/openshift/secrets.go:92-100 | Credential keys of different servers never coincide |
| Cleanup.SourceCleanup.ResolveSource | internal/controller/vmwarecloudfoundationmigration_controller.go:1221-1255 | Goes on only with a server that is not a destination, bound to the recorded source even from a stale copy of the status; unless a call or read fails, it goes on if and only if the source can be told: read already, listed first, or recorded behind a destination |
| Cleanup.SourceCleanup.RemoveSourceVCenter | internal/openshift/infrastructure.go:166-208 | Filters exactly the source's entries, or changes nothing; permitted and unless the call fails, it succeeds if and only if a platform exists whose list is not the source alone |
| Cleanup.SourceCleanup.EnsureSourceCleaned | internal/controller/vmwarecloudfoundationmigration_controller.go:1204-1337 | Keeps every destination entry, the binding and the list at every exit; completion removes the entries of the source it was bound to from all four places and nothing else; unless superseded or a call failed it completes if and only if the source can be told, a platform exists and the source is not the only vCenter listed |
| Cleanup.RemovedOf | internal/controller/vmwarecloudfoundationmigration_controller.go:1263-1295 | The three removals together take out exactly the source's vCenters, failure domains, cloud entry and two credential keys |
| Cleanup.AddTargetServers | internal/openshift/infrastructure.go:103-136 | Appends exactly one entry per missing target server, with a datacenter if and only if a target failure domain on that server uses it, keeps the existing entries in place, and changes nothing the second time |
| Cleanup.AddTargetFailureDomains | internal/openshift/infrastructure.go:138-150 | Appends exactly the target failure domains whose names are free, and changes nothing the second time |
| Names.CollapseHyphens | internal/controller/vmwarecloudfoundationmigration_controller.go:1867-1879 | The repeated replacement of double hyphens terminates and collapses every run to one hyphen |
| Names.SanitizeIsLabel | internal/controller/vmwarecloudfoundationmigration_controller.go:1867-1879 | The result has only label characters, no double, leading or trailing hyphen, and keeps the letters and digits in order |
| Names.SanitizeKeepsSurvivors | internal/controller/vmwarecloudfoundationmigration_controller.go:1867-1879 | Without its hyphens the result is exactly the letters, upper case lowered, and digits of the name, in order |
| Names.SanitizeParts | internal/controller/vmwarecloudfoundationmigration_controller.go:1867-1879 | A dropped character parts what stands around it: the sanitised halves, with one hyphen between them if neither is empty |
| Names.SanitizeWhole | internal/controller/vmwarecloudfoundationmigration_controller.go:1867-1879 | A name of letters and digits alone becomes just those in lower case |
| Names.SanitizeIdempotent | internal/controller/vmwarecloudfoundationmigration_controller.go:1867-1879 | Sanitising twice is sanitising once |
| Names.GeneratedNameFits | internal/controller/vmwarecloudfoundationmigration_controller.go:1894-1908 | Below index 999 a name generated without known names has at most 63 bytes |
| Names.BaseNameShape | internal/controller/vmwarecloudfoundationmigration_controller.go:1894-1908 | The base is infrastructure ID, "-worker-" and sanitised name or "default"; it is cut only beyond 59 bytes and when the full name is unknown, to the longest such prefix that ends in no hyphen |
| Names.CopyNameNumbers | internal/controller/failuredomains.go:251-256 | The first copy has the base name, copy number n the base, a hyphen and n in decimal without leading zero |
| Names.SuffixedIffDigits | internal/controller/failuredomains.go:261-275 | The suffix test accepts exactly the base, a hyphen and one or more digits |
| Sums.NameLeqIsByteOrder | internal/controller/vmwarecloudfoundationmigration_controller.go:2208-2210 | The order of the source list is byte order: a prefix first, otherwise the first difference decides |
| Sums.SortedAscends | internal/controller/vmwarecloudfoundationmigration_controller.go:2208-2210 | The sorted source list ascends |
| Names.FamiliesMeetIffOverlap | internal/controller/failuredomains.go:197-244 | Two infinite name families share a name if and only if the pairwise base check fails |
| Names.GeneratedNamesInjective | internal/controller/failuredomains.go:251-256 | Generated names are injective in base and index |
| Names.PreflightSeparatesOwners | internal/controller/failuredomains.go:278-287 | After preflight a name belongs to at most one mapping, whether its base was truncated or not |
| Names.TruncatePreservesOverlap | internal/controller/vmwarecloudfoundationmigration_controller.go:1894-1908 | Truncation cannot hide an overlap from the pairwise check |
| FailureDomains.ValidateTopologyDisjoint | internal/controller/failuredomains.go:168-182 | Accepts if and only if no workspace matches two failure domains |
| FailureDomains.ResolveMappings | internal/controller/failuredomains.go:25-56 | An accepted mapping covers every source and every destination failure domain exactly once, and a rejected one does not |
| FailureDomains.EnsureMappingImmutable | internal/controller/failuredomains.go:99-121 | Later edits are accepted if and only if the list is cleared or a permutation of the recorded pairs |
| FailureDomains.KeyBySource | internal/controller/failuredomains.go:125-131 | The loop builds the specified map |
| Messages.BoundStallNote | internal/controller/vmwarecloudfoundationmigration_controller.go:2483-2514 | The note has at most 1024 bytes, shows a prefix of the parts to which not one more could be added, and shown plus omitted machines equal the total, the omitted count included |
| Messages.FitOmitSuffix | internal/controller/vmwarecloudfoundationmigration_controller.go:2523-2553 | The suffix fits, is complete when it can be, and otherwise lists as many names as fit, or the count alone if not one does |
| Messages.BoundConditionMessage | internal/controller/vmwarecloudfoundationmigration_controller.go:2558-2591 | The message has at most 32768 bytes, is unchanged when it fits, and otherwise ends in an uncut count of the machines left out, at least one, after a cut at the last separator |
| Messages.CountMachines | internal/controller/vmwarecloudfoundationmigration_controller.go:2593-2624 | The scanning loop counts the machines listed in all brackets |
| Messages.BracketCounts | internal/controller/vmwarecloudfoundationmigration_controller.go:2614-2624 | A bracket of k entries joined by ", ", each with its one closing parenthesis, counts k |
| Messages.PlainBracketCounts | internal/controller/vmwarecloudfoundationmigration_controller.go:2614-2624 | So does one of k plain names without parenthesis or comma |
| Messages.StallMessageCounts | internal/controller/vmwarecloudfoundationmigration_controller.go:2593-2613 | A stall message counts exactly the machines its lines list |
| Messages.CutBack | internal/controller/vmwarecloudfoundationmigration_controller.go:2573-2578 | An oversized message is cut at its last "; ", failing that at its last ", ", and otherwise not at all |
| Messages.FittingParts | internal/controller/vmwarecloudfoundationmigration_controller.go:2494-2509 | Parts are included in order up to the first that does not fit together with the notice about the rest |
| Messages.JoinFirst | internal/controller/vmwarecloudfoundationmigration_controller.go:2474-2480 | The separator stands between neighbours and nowhere else |

## Left out

- vSphere sessions, folders, tags, probe VMs and pod restarts: a stage's handler is an arbitrary report, a call may succeed or fail.
- Kubernetes clients, caches, logging, events, metrics and rate limiting, except reads of possibly stale versions and conditional updates.
- JSON and YAML encoding, SHA-256 and provider spec parsing: a digest is injective, a provider spec is unreadable, without a workspace, or placed.
- The control plane update and rollout, machine config pools, cluster operators and machine or node readiness: reported by the environment as booleans and counts.
- Names seeded for an in-flight upgrade from the released operator, and the recovery of mappings it never recorded.
- Progress counts, LastUpdateTime, the singleton name check and metadata secrets: they take part in no decision modelled here.
- The NodeMigration and VMotion API types, for which no workflow handler exists.
- 32-bit replica sums: sums are exact here.
- Path cleaning of compute cluster names, invalid UTF-8 in failure domain names, and messages cut inside a multi-byte character.
- preflight's count of destination MachineSets: the same bound is checked again, and proved, where creation plans.
- FinishSteps: relates ready nodes to removed replicas for one snapshot of the cluster and of the reported counts.
- EnsureWorkloadMigrated: measures progress by the number of steps left on the cluster and the published names; a failed attempt may have done part of a step.
- Reads inside one workload reconcile fail together, at its start; a machine in phase Failed counts as not ready rather than as an error.
