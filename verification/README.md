# AKS operator: verified model

A Kubernetes operator that creates, updates and deletes Azure AKS clusters for `KubernetesCluster`
resources, modelled in Dafny together with the properties its reconcile loop relies on.

| module | models |
|---|---|
| `Lifecycle` | reconcile, finalizer and Azure cluster as one state machine; runs, the no-orphan theorem, the trace of Azure calls |
| `StateStore` | the cluster-state secret under optimistic concurrency: double-checked creation, retry loops, compare-and-swap |
| `CreationLock` | the per-name creation lock for any number of threads and processes |
| `SecretLifecycle` | what every version of the secret says about the cluster, and the writers of its keys |
| `Controller` | the writes of one reconcile in the controller's order, kubeconfig and UID storage, whole runs |
| `NodePools` | purpose hints, VM size resolution and the two node-pool builders |
| `ClusterUpdate` | building the managed cluster, `needsUpdate`, and whether repeated reconciles come to rest |
| `AgentPools` | the diff-and-apply loop over agent pools with a fate for every call |
| `VMSelection` | filter, score, sort and pick of a VM size |
| `StatusConditions`, `Timestamps` | the in-place condition list, the status writes and their order by timestamp |
| `Caches` | the two TTL caches against the listings they stand for |

`Wrappers` and `Text` hold result types and the string tests.

## How the surroundings appear

The other writers, every failure, every stale read and the clock are constant functions from a step
number. Apart from the assumptions below nothing is known about them, so a contract holds for every
such behaviour of the surroundings. A call may be refused, may take effect and lose its reply, or may be
served. A process that stops between two calls is one whose remaining calls are refused. Several contracts
also say what happens when the surroundings are calm (every call served, current reads, no other
writers): then the outcome is determined.

What is assumed:

- One reconcile per resource at a time, as `internal/controller/kubernetescluster_controller.go:332-335` says.
- The secret and status updates compare the resource version. The library that holds `UpdateSecret` is not part of this model.
- Errors arrive classified (not found, conflict, already exists, anything else). A delete that Azure completed leaves nothing.
- `Lifecycle` names four further assumptions as a datatype and proves that they are jointly sufficient and
  each one necessary: reads of the resource do not go back in time, edits keep the resource group and the
  cluster name, nobody else edits the operator's finalizer, and Azure answers "not found" to a delete only
  when nothing exists and nothing is in flight.
- Clocks do not go back (`Caches`).
- Others write the custom resource at any time, but not its UID annotation (`Controller.ClusterResource.edits`) and not its
  status (`StatusConditions.StatusWriter.edits`). `Controller.WrongAnnotationExample` shows what happens when somebody does
  write the annotation.
- `SecretLifecycle` and `Controller`: nobody deletes the secret, other clients leave the operator's keys
  alone, and the guest cluster's kube-system UID is one fixed non-empty string.

## Where the code and its comments disagree

The model follows the code.

- `internal/managers/aks_cluster_manager.go:392-394`: the bound that the comment calls the largest int32 is
  `int(^int32(0))`, which is -1. With it the comparison is true after every successful write as soon as
  replicas is positive (`ClusterUpdate.WrittenCapIsAFixpointIff`), and n reconciles of an unchanged spec
  send n writes (`ClusterUpdate.WritesAfter`). With the bound of the comment one write is enough.
- `internal/managers/aks_cluster_manager.go:422-423`: worker pools are said to be handled separately, but
  they are reconciled only after an update of the cluster. Once the documented bound brings the cluster to
  rest, a changed worker pool is not sent at all; with the bound as written it is sent because every
  reconcile updates (`ClusterUpdate.WorkerChangesReachAzureIff`).
- `internal/managers/machineclass_mapper.go:217`: the refresh does not refresh while the cache is fresh, so a
  class is reported missing without asking the server exactly if it is missing from a cache that is fresh and not empty
  (`Caches.MachineClassMapper.GetMachineClass`, with an instance in `Caches.FreshCacheHidesClass`).
- `internal/managers/vm_size_manager.go:123`: a listing error whose text mentions "not found" is taken for a
  size that does not exist (`Caches.VMSizeManager.ValidateVMSize`, with an instance in `Caches.ErrorHidesSize`).
- `internal/controller/kubernetescluster_credentials.go:64-73`: the annotation is tested for presence only, so a wrong
  one stays when the secret has a UID. When every call is served the right annotation results if and only if there was
  none, it was right already, or the secret had no UID (`Controller.FetchAndStoreKubeSystemUID`); a wrong one survives
  any number of calls (`Controller.WrongAnnotationStays`).
- `internal/controller/kubernetescluster_controller.go:183-191`: the ready flags follow the kubeconfig only in the
  reconcile that stores it. If a flag write fails there, a later reconcile that finds the kubeconfig does
  not repair it (`Controller.ReconcileCluster`): such a secret is reached, and no number of reconciles in a calm
  environment makes it ready (`Controller.FlagsMissingExample`, `Controller.FlagsStayMissing`).
- `internal/controller/kubernetescluster_controller.go:156-159`: the resource group stored in the secret is the spec's
  project even when it is empty, while the cluster manager then uses the namespace
  (`internal/managers/aks_cluster_manager.go:320-325`). The two agree if and only if the project is not empty or the
  namespace is (`Controller.WriteAksState`); every spec with a namespace and no project is an instance
  (`Controller.WrongGroupExample`).
- `internal/managers/agent_pool_manager.go:280-316`: the purpose is read off the labels in the order in which the map is
  iterated, and every update resolves the VM size anew (`:84`). A second successful run under the same mapper
  leaves every pool as it is if and only if each entry that decides a pool names a VM size itself, has a GPU taint, or has
  labels that hint at one purpose only (`AgentPools.SecondRunIsIdentityIff`); a pool with labels for GPU and memory is an
  instance (`AgentPools.MixedHintsAreNotDetermined`, `AgentPools.SecondRunChanges`).
- `internal/managers/aks_cluster_manager.go:195`: the closing log line names the provisioning state that was read before the
  update, while `:372-374` sends an update for a cluster read without properties. The line dereferences a nil exactly
  if an update is sent for a cluster that was read without properties or without a state
  (`ClusterUpdate.ReconcileCluster`); for a cluster that the operator wrote itself there always is one
  (`ClusterUpdate.OwnWritesHaveAState`).
- `internal/controller/kubernetescluster_status.go:154-160`: "most recent first" is decided by comparing strings that carry
  the local offset. `Timestamps.StringOrderIsTimeOrderIff` says for every pair of stamps when that is the order of their
  instants; `Timestamps.OffsetsInvertTheOrder` is an instance at the end of daylight saving time.
- `internal/managers/machineclass_mapper.go:351-352`: a class without cores or without memory makes every score an infinity or
  NaN, so the sort orders nothing and any eligible size may come first (`VMSelection.ZeroRequirementAllowsAny`).

## Model

| member | source | states |
|---|---|---|
| Lifecycle.InvHolds | internal/controller/kubernetescluster_controller.go:67-122 | In every run, with any call failing and failed polls leaving Azure busy, every existing or in-flight cluster belongs to a current resource that carries the finalizer, and the finalizer is being removed only when Azure has nothing left of that identity |
| Lifecycle.InvStep | internal/controller/kubernetescluster_controller.go:88-121 | The same invariant is kept by every single step of user, Azure and operator |
| Lifecycle.NoOrphanEver | internal/controller/kubernetescluster_controller.go:238-288 | No orphan in any reachable state: a cluster that exists or has a write in flight has a resource with the finalizer |
| Lifecycle.NoOrphanIffAssumptions | internal/controller/kubernetescluster_controller.go:67-122 | No run orphans a cluster if and only if all four assumptions about the surroundings hold |
| Lifecycle.OrphanByStaleRead | internal/controller/kubernetescluster_controller.go:72-75 | Without monotone reads there is a run that recreates the cluster of a deleted resource |
| Lifecycle.OrphanByRename | internal/managers/aks_cluster_manager.go:320-329 | If the cluster name or resource group may be edited there is a run that deletes only under the new name |
| Lifecycle.OrphanByStrippedFinalizer | internal/controller/kubernetescluster_controller.go:98-107 | If others may remove the finalizer there is a run that orphans a cluster being created |
| Lifecycle.OrphanByFalseAbsence | internal/managers/aks_cluster_manager.go:88-116 | If a delete may be told "not found" while a create is in flight there is a run that orphans that cluster |
| Lifecycle.GuardedLeavesOnlyWhenGone | internal/controller/kubernetescluster_controller.go:262-282 | A resource with the finalizer loses it or disappears only by the operator's own step, only when marked for deletion, and only when Azure has nothing of it |
| Lifecycle.EveryWriteIsBacked | internal/managers/aks_cluster_manager.go:145-197 | In every run each create directly follows a read that found nothing, each update a read of a cluster at rest and a positive comparison, a report exactly the cluster that was read or compared, and the finalizer goes only after a confirmed deletion |
| Lifecycle.UpdatesOnlyResting | internal/managers/aks_cluster_manager.go:157-185 | In every run an update answers a read and a comparison, and that read showed none of Creating, Updating and Deleting |
| Lifecycle.AnsweredAtOnceIff | internal/managers/aks_cluster_manager.go:157-165 | In every run a read is followed directly by the report of that cluster if and only if its state is Creating, Updating or Deleting |
| Lifecycle.DeletionCanFinish | internal/controller/kubernetescluster_controller.go:238-288 | From every reachable state, whatever failed and whatever the operator was doing, some continuation ends with the resource and its cluster gone |
| Lifecycle.BackedWrite | internal/managers/aks_cluster_manager.go:167-185 | Sending a create or update, and a conflict answered to it, keep that backing |
| Lifecycle.ReconcileInOnePiece | internal/managers/aks_cluster_manager.go:145-197 | Refinement: for every combination of answers the single steps run through exactly the calls of the sequential text to its end, leave exactly its trace, and touch Azure only by an accepted write |
| Lifecycle.DeletionInOnePiece | internal/controller/kubernetescluster_controller.go:238-288 | The same for a deletion: a failed delete or poll ends it before the finalizer, otherwise the finalizer goes, and with it the resource unless another controller holds it |
| Lifecycle.TraceTellsTheTruth | internal/managers/aks_cluster_manager.go:88-130 | What a step logs as read, absent, confirmed or released is so in the state in which it is logged |
| StateStore.NoLostUpdate | internal/services/clusterstate/cluster_state.go:237-268 | At every version every key holds what its last committed writer put there, whatever the interleaving |
| StateStore.SingleCreation | internal/services/clusterstate/cluster_state.go:190-202 | Two creations that took effect have a deletion of the secret between them |
| StateStore.DescendsFromOneCreation | internal/services/clusterstate/cluster_state.go:97-128 | Every version that exists descends from one creation without a deletion in between |
| StateStore.SameCreatedAt | internal/services/clusterstate/cluster_state.go:164-172 | Callers that read two versions of one lifetime hold the same `created_at`, the creator's, if creations write that key and merges leave it alone |
| StateStore.StaysPresent | internal/services/clusterstate/cluster_state.go:190-202 | Without a deletion the secret stays and only merges follow, so a losing creator overwrites nothing |
| StateStore.KeyKept | internal/services/clusterstate/cluster_state.go:237-268 | A key that no merge names keeps its value |
| StateStore.ApiServer.Create | internal/services/clusterstate/cluster_state.go:190-197 | Creation takes effect only on an absent secret, at most once per call; AlreadyExists means nothing changed |
| StateStore.ApiServer.UpdateSecret | internal/services/clusterstate/cluster_state.go:254-265 | Compare-and-swap: a committed update lands directly on the version it was laid over; a conflict changes nothing |
| StateStore.GetStateWithRetry | internal/services/clusterstate/cluster_state.go:132-153 | At most three reads; "not found" only after three of them; it commits nothing and returns a committed version, the newest one when calm |
| StateStore.CreateStateSecret | internal/services/clusterstate/cluster_state.go:156-203 | Creates at most once with the initial data and returns some committed version, which a lagging cache may take from anywhere in the log; when calm the newest, after exactly two calls |
| StateStore.GetOrCreateState | internal/services/clusterstate/cluster_state.go:97-128 | One call commits at most one entry, a creation with the initial data; when calm it returns the newest version and the secret exists, after one call if it existed and four if not |
| StateStore.Overlay | internal/services/clusterstate/cluster_state.go:250-252 | Laying the update map over the copy key by key gives the merge of the two, for every iteration order |
| StateStore.Attempt | internal/services/clusterstate/cluster_state.go:240-266 | One turn of the retry loop commits the update once or not at all and reports it honestly; if calls are served and reads current it conflicts exactly if somebody wrote between its two calls |
| StateStore.UpdateStateMultiple | internal/services/clusterstate/cluster_state.go:237-268 | Ok means committed exactly once, NotFound and Conflict mean not committed; a conflict is returned only after three turns of two calls; if the secret exists, calls are served and reads are current, the update is committed unless others write inside each of the three turns; when calm the content becomes the old content with the updates laid over it |
| CreationLock.OneCreatorPerName | internal/services/clusterstate/cluster_state.go:91-94 | In every run at most one thread of a process is in the creation section of a given name |
| CreationLock.OtherNamesDoNotBlock | internal/services/clusterstate/cluster_state.go:111-114 | A thread waits only for a thread of the same process and the same name |
| CreationLock.WaitsIff | internal/services/clusterstate/cluster_state.go:91-128 | In every run a thread that fetched its lock waits if and only if another thread of its process is creating the same name |
| CreationLock.InvHolds | internal/services/clusterstate/cluster_state.go:91-128 | The lock table is injective and every thread in the section owns the lock of its name, in every run |
| SecretLifecycle.BenignKeeps | internal/services/clusterstate/cluster_state.go:41-70 | A creation or merge by another client keeps the content sound |
| SecretLifecycle.WriteKeepsHealth | internal/services/clusterstate/cluster_state.go:237-268 | If laying the updates over any sound content is sound, then every version after the call is sound, whatever happened in between, and a committed update raises its milestones |
| SecretLifecycle.WriteKeepsReadiness | internal/services/clusterstate/cluster_state.go:237-268 | A write that does not name the readiness keys leaves them as they were, others' writes included |
| SecretLifecycle.ReadKeepsHealth | internal/services/clusterstate/cluster_state.go:97-128 | A read, which may create the secret, keeps every version sound and the readiness keys unchanged |
| SecretLifecycle.OneCreatedAt | internal/services/clusterstate/cluster_state.go:164-172 | Any two versions that exist hold the same `created_at`: no merge of the operator or of a benign client touches it |
| SecretLifecycle.InitialHolds | internal/services/clusterstate/cluster_state.go:164-172 | A created secret holds `created_at` with the time of the creation and six flags, all "false", and nothing else |
| SecretLifecycle.FailedIsSound | internal/services/clusterstate/cluster_state.go:323-333 | Marking the cluster failed keeps sound content sound: "Failed" never meets `cluster_provisioning` true |
| SecretLifecycle.ProvisionedIsSound | internal/services/clusterstate/cluster_state.go:336-345 | Marking it provisioned keeps sound content sound: the three Azure identifiers are stored with the flag |
| SecretLifecycle.Write | internal/services/clusterstate/cluster_state.go:237-268 | A merge that keeps soundness keeps every version sound, is committed at most once, and is committed exactly with its updates when calm |
| SecretLifecycle.SetClusterFailed | internal/services/clusterstate/cluster_state.go:323-333 | Asks for and commits exactly its keys, the reason only if there is one, and keeps the secret sound; when calm the flags are "false", the state is "Failed" and the reason is the one given, or the one from before |
| SecretLifecycle.SetClusterProvisioned | internal/services/clusterstate/cluster_state.go:336-345 | Asks for and commits exactly its five keys and keeps the secret sound; when calm the Azure ID, the cluster name and the group each stand under their own key and the provisioned flag is "true" |
| SecretLifecycle.SetClusterFQDN | internal/services/clusterstate/cluster_state.go:415-417 | Asks for and commits exactly the FQDN and keeps the secret sound; when calm it is what `aks_cluster_fqdn` then holds |
| SecretLifecycle.SetAKSProvisionState | internal/services/clusterstate/cluster_state.go:410-412 | Asks for and commits exactly the provision state and keeps the secret sound; when calm it is what `aks_provision_state` then holds |
| SecretLifecycle.SetKubeconfig | internal/services/clusterstate/cluster_state.go:364-393 | Kubeconfig and its flag are committed together; success makes the kubeconfig a milestone that no later write takes back; when calm `kube.config` then holds the given text |
| SecretLifecycle.SetKubernetesAPIReady | internal/services/clusterstate/cluster_state.go:348-350 | Keeps the secret sound once the kubeconfig is stored |
| SecretLifecycle.SetClusterReady | internal/services/clusterstate/cluster_state.go:353-361 | The three ready flags and `ready_at` are committed together and keep the secret sound once the kubeconfig is stored; when calm the flags are "true" and `ready_at` is the time of the call |
| SecretLifecycle.SetKubeSystemUID | internal/services/clusterstate/cluster_state.go:446-448 | Success makes the guest's UID a milestone; the secret never holds another UID |
| SecretLifecycle.EnsureState | internal/controller/kubernetescluster_controller.go:91-96 | GetOrCreateState at the start of a reconcile keeps every version sound and touches no readiness key; however stale the version it returns, its `created_at` is the current one's |
| SecretLifecycle.GetState | internal/services/clusterstate/cluster_state.go:271-282 | A non-empty answer is the value in some version of the secret; when calm it is non-empty exactly if the current version has a non-empty value |
| Controller.ClusterResource.Update | internal/controller/kubernetescluster_credentials.go:84 | Compare-and-swap of the resource: afterwards the annotation is the old one or the copy's, and on success the copy's |
| Controller.KeyNeverLost | internal/services/clusterstate/cluster_state.go:237-268 | A key that some version of the secret holds is still there in every later one as long as nobody deletes it |
| Controller.UidIsCurrent | internal/services/clusterstate/cluster_state.go:451-453 | A UID read from any version, however stale, is the guest's and is in the current version |
| Controller.FetchAndStoreKubeconfig | internal/controller/kubernetescluster_credentials.go:33-58 | Asks for the kubeconfig merge only if none was found; true means the kubeconfig is stored for good; when calm the branch is determined by the secret and Azure's answer |
| Controller.GetKubeSystemUID | internal/services/clusterstate/cluster_state.go:451-453 | A UID it returns is the guest's, present from then on |
| Controller.FetchUIDFromGuest | internal/controller/kubernetescluster_credentials.go:92-126 | The guest is asked only with a stored kubeconfig; success means its UID is in the secret |
| Controller.Annotate | internal/controller/kubernetescluster_credentials.go:79-88 | Afterwards the annotation is the old one or the UID, and on success the UID |
| Controller.RepairOrFetchUID | internal/controller/kubernetescluster_credentials.go:75-138 | The annotation changes only to the guest's UID and only when the secret holds it, whichever call fails |
| Controller.FetchAndStoreKubeSystemUID | internal/controller/kubernetescluster_credentials.go:63-138 | Across any failure the annotation is unchanged or is the guest's UID with the secret holding it too. When calm the comparison is skipped if and only if the copy has an annotation and the secret a UID, and with the newest copy and a UID that is stored or can be fetched the annotation is right afterwards if and only if there was none, it was right, or no UID was stored |
| Controller.WrongAnnotationStays | internal/controller/kubernetescluster_credentials.go:64-73 | With a UID in the secret a wrong annotation survives any number of successful calls |
| Controller.WrongAnnotationExample | internal/controller/kubernetescluster_credentials.go:64-73 | For every wrong annotation there is such a state, reached by another client's write |
| Controller.ReadyIffSucceeded | internal/controller/kubernetescluster_controller.go:179 | The two tests for a running cluster are one test |
| Controller.RunningIff | internal/controller/kubernetescluster_controller.go:179 | Credentials are stored if and only if a cluster was read whose provisioning state is Succeeded |
| Controller.PhaseIff | internal/controller/kubernetescluster_controller.go:211-235 | Each of the five states of Azure has a phase of its own, every other one and a missing one mean provisioning, and the state text is handed on |
| Controller.UndescribedIff | internal/controller/kubernetescluster_controller.go:145-148 | A cluster that was read is not described again exactly if its phase is Ready, Updating, Deleting or Failed and the status already showed it |
| Controller.WriteAksState | internal/controller/kubernetescluster_controller.go:145-176 | The cluster's description is written in call order, only when the phase calls for it, and never touches the readiness keys; when calm ID, name, FQDN and state are stored as Azure and the spec gave them, and the stored resource group is the one used in Azure if and only if the project is not empty or the namespace is |
| Controller.WrongGroupExample | internal/controller/kubernetescluster_controller.go:156-159 | For every spec with a namespace and no project the stored resource group is empty and the one used in Azure is the namespace |
| Controller.WriteDetails | internal/controller/kubernetescluster_controller.go:164-175 | FQDN and provision state are written as far as Azure reported them, in this order, and leave the stored identifiers alone; when calm each stands under its own key |
| Controller.RecordAnswer | internal/controller/kubernetescluster_controller.go:126-176 | A failure asks for the failure merge only, a cluster for its description, a cluster without properties for nothing; readiness stays as it was |
| Controller.StoreKubeconfigAndFlags | internal/controller/kubernetescluster_controller.go:178-192 | The ready flags are asked for exactly when the kubeconfig was stored now, API flag first; when calm the secret is ready afterwards if and only if it was before or the kubeconfig was stored now |
| Controller.StoreCredentials | internal/controller/kubernetescluster_controller.go:178-198 | Kubeconfig, flags, UID in this order; soundness and annotation agreement hold whatever fails |
| Controller.ReconcileCluster | internal/controller/kubernetescluster_controller.go:125-208 | One reconcile asks for exactly its script of merges, keeps every version of the secret sound, and changes readiness keys only if it stored the kubeconfig itself; when calm its branches are determined, a running cluster's secret is ready if and only if it was or the kubeconfig was stored now, and a known or fetchable UID ends up in the annotation; the cluster ID annotation is written exactly when the cluster is described and the copy lacks it |
| Controller.FlagsStayMissing | internal/controller/kubernetescluster_controller.go:178-192 | With a kubeconfig stored and the ready flags missing, no number of reconciles in a calm environment makes the secret ready |
| Controller.FlagsMissingExample | internal/controller/kubernetescluster_controller.go:178-192 | Such a secret is what a reconcile leaves that stops after storing the kubeconfig, for every kubeconfig and whatever is reconciled afterwards |
| Controller.Run | internal/controller/kubernetescluster_controller.go:67-122 | Over any number of reconciles with any failures every version of the secret is sound and the annotation, when present, equals the secret's UID; when calm the secret exists after the first one |
| NodePools.ClampIsNearest | internal/managers/convert.go:23-31 | The clamp gives the nearest int32, and it is the only nearest one |
| NodePools.DetermineNodePoolPurpose | internal/managers/agent_pool_manager.go:280-316 | For every iteration order of the labels: GPU taint, else first hinting label, else the machine class |
| NodePools.LabelHintIff | internal/managers/agent_pool_manager.go:289-303 | A label hints at GPU if key or value mention it, at compute if they mention that and not GPU, at memory if they mention that and neither of the others |
| NodePools.ClassHintIff | internal/managers/agent_pool_manager.go:305-315 | A machine class hints at GPU before compute ("cpu" or "compute") before memory ("mem") |
| NodePools.ResolutionOrder | internal/managers/agent_pool_manager.go:247-277 | A class named like a VM size stands for itself; otherwise the mapper answers, and the fallback only if there is no mapper or it fails |
| NodePools.PurposeDeterminedIff | internal/managers/agent_pool_manager.go:280-316 | The purpose is the same for every label order if and only if a taint hints GPU or all hinting labels hint the same |
| NodePools.DisagreeingOrders | internal/managers/aks_cluster_manager.go:429-465 | Otherwise there are two orders of the labels that give different purposes |
| NodePools.RenderTaints | internal/managers/agent_pool_manager.go:210-217 | One `key=value:effect` string per taint, in order |
| NodePools.BuildAgentPoolProfile | internal/managers/aks_cluster_manager.go:260-299 | The cluster-level profile carries the pool's clamped counts, bounds only under autoscaling, taints, labels and the resolved size |
| NodePools.BuildAgentPool | internal/managers/agent_pool_manager.go:187-277 | The pool-level object carries the same settings for the size it resolved, plus version and zones |
| NodePools.BuildersAgreeIff | internal/managers/agent_pool_manager.go:187-316 | The two builders send the same settings under every mapper if and only if the machine class is itself a VM size or the purpose is determined |
| NodePools.BuildersDisagree | internal/managers/aks_cluster_manager.go:350-368 | Otherwise there is a mapper and a pair of label orders for which they send different VM sizes |
| ClusterUpdate.BuildInitialAgentPoolProfiles | internal/managers/aks_cluster_manager.go:230-258 | The system profile first, then one profile per node pool in spec order |
| ClusterUpdate.BuildManagedCluster | internal/managers/aks_cluster_manager.go:199-228 | One profile per node pool, by name and in order, behind the only system profile, which is called "system" and has the clamped replicas; the version is the topology's, else the control plane's, else the default; once stored it needs no update under the documented bound, and needs one under the bound as written if and only if replicas is positive |
| ClusterUpdate.NeedsUpdate | internal/managers/aks_cluster_manager.go:371-426 | True exactly if properties are missing, the version differs, or with positive replicas the first pool named "system" has another count or size |
| ClusterUpdate.JustWrittenIsOutOfDateIff | internal/managers/aks_cluster_manager.go:199-258 | What was just stored is out of date if and only if replicas is positive and the bounded count differs from the clamped one |
| ClusterUpdate.DocumentedCapIsAFixpoint | internal/managers/aks_cluster_manager.go:388-394 | With the documented bound no spec needs an update right after it was stored |
| ClusterUpdate.WrittenCapIsAFixpointIff | internal/managers/aks_cluster_manager.go:388-394 | With the bound as written that holds if and only if replicas is not positive |
| ClusterUpdate.WrittenCapRejectsEveryCount | internal/managers/aks_cluster_manager.go:392-403 | With positive replicas every non-negative count that Azure reports for the system pool is called out of date |
| ClusterUpdate.WritesAfter | internal/managers/aks_cluster_manager.go:145-197 | n reconciles of one spec, each with label orders of its own, send one write with the documented bound, and n writes with the bound as written when replicas is positive |
| ClusterUpdate.ReconcileCluster | internal/managers/aks_cluster_manager.go:145-197 | The call leaves what the specification of a reconcile gives, and nothing at all if Azure reports Creating, Updating or Deleting; its closing log line dereferences a nil if and only if an update is sent for a cluster read without properties or without a state |
| ClusterUpdate.OwnWritesHaveAState | internal/managers/aks_cluster_manager.go:188-196 | In every such run the stored cluster has a state, so the log line is defined |
| ClusterUpdate.WorkersDoNotCount | internal/managers/aks_cluster_manager.go:422-425 | Neither a changed worker pool nor another order of its labels changes the answer of the comparison |
| ClusterUpdate.WorkerChangesReachAzureIff | internal/managers/aks_cluster_manager.go:161-197 | From a cluster at rest no number of reconciles sends a changed worker pool under the documented bound; under the bound as written the first one does if and only if replicas is positive |
| AgentPools.Azure.CreateAgentPool | internal/managers/agent_pool_manager.go:48-74 | A size that validates as absent stops the create; a failed validation does not; what is written is the pool resolved and built in this call |
| AgentPools.Azure.UpdateAgentPool | internal/managers/agent_pool_manager.go:77-94 | An update writes the pool resolved and built in this call, without validation |
| AgentPools.Azure.ReconcileAgentPools | internal/managers/agent_pool_manager.go:139-185 | For arbitrary fates every pool ends at the value that a function of its own calls gives, for every order of the deletions; a missing cluster is no error and a failed listing changes nothing |
| AgentPools.FailureIsolation | internal/managers/agent_pool_manager.go:139-185 | A pool's final value depends on its own old value and the fates of its own calls only |
| AgentPools.OldTargetOrDeleted | internal/managers/agent_pool_manager.go:157-181 | Each pool keeps its old value, holds one of its own targets, or was deletable and is gone |
| AgentPools.SystemSurvives | internal/managers/agent_pool_manager.go:175-181 | "system" is never deleted and unchanged unless the spec names it |
| AgentPools.OnlySystemIsSpared | internal/managers/agent_pool_manager.go:175-181 | An undesired pool other than "system" is gone if and only if its delete takes effect, and "system" is unchanged |
| AgentPools.SystemProfileSurvives | internal/managers/aks_cluster_manager.go:230-258 | The pool of the system-mode profile that the cluster builder sends is the one that every run keeps |
| AgentPools.ConvergesToTarget | internal/managers/agent_pool_manager.go:160-172 | When every call succeeds each desired name holds the target of its last entry |
| AgentPools.ConvergesToNames | internal/managers/agent_pool_manager.go:139-185 | When every call succeeds the names are exactly the desired ones and "system" if it existed |
| AgentPools.SecondRunChangesNothing | internal/managers/agent_pool_manager.go:77-94 | A second successful run under the same mapper, with label orders of its own and whatever its validations answer, leaves a pool as it is if the entry that decides it has one possible VM size |
| AgentPools.SecondRunChanges | internal/managers/agent_pool_manager.go:247-316 | For every entry that decides a pool and has two possible VM sizes there are a mapper, label orders and two successful runs of which the second changes the pool |
| AgentPools.SecondRunIsIdentityIff | internal/managers/agent_pool_manager.go:139-185 | The second run is the identity under every mapper and every pair of label orders if and only if every entry that decides a pool names a VM size itself or has a determined purpose |
| AgentPools.MixedHintsAreNotDetermined | internal/managers/agent_pool_manager.go:289-303 | A pool labelled for GPU and for memory is an entry with two possible VM sizes |
| VMSelection.MemoryComparedInBytes | internal/managers/machineclass_mapper.go:126-161 | The comparison in gigabytes is the comparison of memoryMB times 2^20 with the required bytes |
| VMSelection.SeriesOfPurpose | internal/managers/machineclass_mapper.go:307-340 | Each purpose admits exactly the VM sizes of its series, by the letter behind `Standard_` in any letter case |
| VMSelection.GpuOverridesPurpose | internal/managers/machineclass_mapper.go:302-305 | With a GPU requirement the purpose does not matter: GPU series or a name that says so |
| VMSelection.SeriesBonusIff | internal/managers/machineclass_mapper.go:358-367 | The newest series that the name mentions decides the bonus |
| VMSelection.PenaltyIff | internal/managers/machineclass_mapper.go:374-382 | Promotions in any letter case cost 0.3 and the A series without a version 0.5 |
| VMSelection.ScoreBounds | internal/managers/machineclass_mapper.go:343-386 | For an eligible size the score lies between 0.4 times the excess minus 0.2 and 0.4 times the excess plus the penalties |
| VMSelection.OverProvisioningBound | internal/managers/machineclass_mapper.go:343-386 | The chosen size wastes at most 1/2 more than any eligible listed size without penalties and at most 5/2 more than any eligible listed size at all |
| VMSelection.HalfIsReached | internal/managers/machineclass_mapper.go:343-386 | The bound 1/2 is reached by two sizes |
| VMSelection.FiveHalvesIsReached | internal/managers/machineclass_mapper.go:343-386 | The bound 5/2 is reached by two sizes |
| VMSelection.SortByScore | internal/managers/machineclass_mapper.go:174-177 | Sorting in place permutes the candidates into nondecreasing score |
| VMSelection.CandidatesAreTheEligible | internal/managers/machineclass_mapper.go:143-166 | The candidates are exactly the listed sizes that pass the purpose, core and memory tests, with their scores, for every class |
| VMSelection.TopOfRanking | internal/managers/machineclass_mapper.go:174-193 | The first at most four of any ranking are an optimal choice: nothing left out scores below anything returned |
| VMSelection.FirstIsBest | internal/managers/machineclass_mapper.go:179-188 | The first of an optimal choice has the least score of all candidates |
| VMSelection.RankAndCut | internal/managers/machineclass_mapper.go:168-193 | Sorting in place and keeping the best and the next three gives an optimal choice |
| VMSelection.MapMachineClassSpecToVMSize | internal/managers/machineclass_mapper.go:111-208 | The chosen size is listed, eligible and of least score among the eligible; the fallback is taken if and only if no listed size is eligible; alternatives are the next at most three |
| VMSelection.ZeroRequirementAllowsAny | internal/managers/machineclass_mapper.go:351-386 | For a class without cores or memory every eligible listed size is the first of some outcome that the sort allows |
| Timestamps.StampOrder | internal/controller/kubernetescluster_status.go:155-160 | For RFC 3339 stamps (section 5.6) of any offsets, string order is the order of the clock readings, and of the offset texts for equal readings |
| Timestamps.StringOrderIsTimeOrderIff | internal/controller/kubernetescluster_status.go:155-160 | The string order of two stamps is the order of their instants if and only if the readings lie further apart than the offset moved between them, and for equal readings the offset texts agree with the offsets |
| Timestamps.OneOffsetIsTrue | internal/controller/kubernetescluster_status.go:155-160 | With one offset the string order is always the order of the instants |
| Timestamps.OffsetsInvertTheOrder | internal/controller/kubernetescluster_status.go:127 | At the end of daylight saving time a stamp that is 40 minutes older sorts as newer |
| Timestamps.Layout | internal/controller/kubernetescluster_status.go:127 | Every field of a stamp stands at its RFC 3339 position with its separators |
| Timestamps.ClockTicks | internal/controller/kubernetescluster_status.go:127 | On the Gregorian calendar every reading is followed by one whose instant is exactly one second later |
| StatusConditions.SetMeans | internal/controller/kubernetescluster_status.go:126-152 | Setting a condition keeps types distinct and other types untouched, shows what was set, and changes the timestamp if and only if status or message changed |
| StatusConditions.DistinctPermutation | internal/controller/kubernetescluster_status.go:155-160 | A permutation of a list with distinct types has distinct types |
| StatusConditions.GoodAfterSort | internal/controller/kubernetescluster_status.go:109-122 | Sorting keeps the agreement of phase and conditions and establishes the order |
| StatusConditions.SortedIsNewestFirst | internal/controller/kubernetescluster_status.go:154-160 | A condition list in which each two readings lie further apart than the offset moved between them is sorted if and only if its instants descend |
| StatusConditions.OneOffsetIsNewestFirst | internal/controller/kubernetescluster_status.go:154-160 | In particular a list with stamps of one offset |
| StatusConditions.StatusWriter.SetCondition | internal/controller/kubernetescluster_status.go:126-152 | Updates the list in place to exactly the specified list and reports whether anything changed |
| StatusConditions.StatusWriter.SortConditions | internal/controller/kubernetescluster_status.go:155-160 | The list becomes a permutation of itself, sorted by descending timestamp string |
| StatusConditions.StatusWriter.UpdateStatus | internal/controller/kubernetescluster_status.go:109-122 | Compare-and-swap of the status: written only over the version that was read, a conflict changes nothing |
| StatusConditions.StatusWriter.UpdateMetadata | internal/controller/kubernetescluster_status.go:167-181 | An update of the resource leaves the stored status alone and replaces the copy's by it |
| StatusConditions.StatusWriter.UpdatePhaseAndCondition | internal/controller/kubernetescluster_status.go:109-122 | Phase and its one condition reach the server together, sorted and distinct; when calm exactly if the copy is current |
| StatusConditions.StatusWriter.SetRow | internal/controller/kubernetescluster_status.go:240-291 | Sets one condition of the phase's row to its level and message and keeps those set before |
| StatusConditions.StatusWriter.SetAll | internal/controller/kubernetescluster_status.go:240-291 | The five calls leave exactly the row of levels and messages described for the phase |
| StatusConditions.StatusWriter.UpdateConditionsFromState | internal/controller/kubernetescluster_status.go:240-291 | All five conditions show the phase's row of levels and messages |
| StatusConditions.RowsSpelledOut | internal/controller/kubernetescluster_status.go:240-291 | In every persisted status that agrees with its phase: Ready shows five OK; Updating shows the cluster and its node pools working and the rest OK; Provisioning shows provisioning and cluster working and the rest unknown |
| StatusConditions.FullRowsSpelledOut | internal/controller/kubernetescluster_status.go:240-291 | After an update from Azure, Failed shows five errors, and Creating and Deleting show provisioning and cluster working and the rest unknown |
| StatusConditions.TextsSpelledOut | internal/controller/kubernetescluster_status.go:283-333 | The message of each condition in each phase: Azure's state, the caller's message, and the fixed texts of the other three |
| StatusConditions.StatusWriter.UpdateClusterStatus | internal/controller/kubernetescluster_status.go:163-237 | What is written shows the phase with its full row of levels and messages, also after a conflict; when calm even a stale copy gets through |
| StatusConditions.StatusWriter.Perform | internal/controller/kubernetescluster_status.go:109-237 | Each call that reports a write persisted exactly what was asked for: one phase with one condition, or one phase with its row; when calm and with the newest copy every write gets through |
| StatusConditions.StatusWriter.Run | internal/controller/kubernetescluster_status.go:109-291 | Over any sequence of calls with any failures every persisted status has distinct types, is sorted, and its conditions agree with its phase; every call that reports a write has left what it was asked for; when calm every call from a fetch on gets through |
| Caches.VMSizeManager.Set | internal/managers/vm_size_manager.go:69-75 | The sizes are stored for their location with an expiry one TTL away, other locations are untouched, and every entry stays a past client answer for its location |
| Caches.VMSizeManager.Refresh | internal/managers/vm_size_manager.go:91-100 | The client is asked once and what it answers is what the cache then holds |
| Caches.VMSizeManager.ListVMSizes | internal/managers/vm_size_manager.go:86-101 | Returns the client's answer of this call or one stored for this location less than one TTL before, for any interleaving with other threads; an error is the client's; if no other thread stores, the client is not asked if and only if a fresh entry is cached |
| Caches.VMSizeManager.GetVMSize | internal/managers/vm_size_manager.go:104-117 | Finds a size if and only if a current listing has the name up to letter case, and what it returns is that entry of the listing |
| Caches.VMSizeManager.ValidateVMSize | internal/managers/vm_size_manager.go:120-129 | True if and only if a current listing has the name; false without error if and only if it lacks it or the listing failed with a text mentioning "not found" |
| Caches.ErrorHidesSize | internal/managers/vm_size_manager.go:120-129 | A size is invalid while the listing fails with such a text and valid in the very listing that follows |
| Caches.ByNameHolds | internal/managers/machineclass_mapper.go:79-88 | With unique names the stored map holds exactly the listed classes |
| Caches.CachedPathAgrees | internal/managers/machineclass_mapper.go:231-264 | With unique names the cached and the fresh path return the same enabled classes of a snapshot |
| Caches.MachineClassMapper.Set | internal/managers/machineclass_mapper.go:79-88 | The cache becomes the listed snapshot by name, valid for one TTL |
| Caches.MachineClassMapper.ListMachineClasses | internal/managers/machineclass_mapper.go:231-264 | Whatever other threads store in between, it returns the enabled classes of the snapshot that is cached afterwards and only the server's error is an error; if they store nothing, the server is not asked if and only if the cache is fresh and not empty |
| Caches.MachineClassMapper.GetMachineClass | internal/managers/machineclass_mapper.go:211-228 | Whatever other threads store in between, a returned class is from a snapshot stored at most one TTL before; if they store nothing, a name is reported missing without asking the server if and only if it is missing from a fresh non-empty cache |
| Caches.FreshCacheHidesClass | internal/managers/machineclass_mapper.go:211-228 | A class that the server lists is not found after one listing from before, and the server is not asked again |

## Left out

- Azure SDK wrappers and polling intervals: they appear as accepted, refused, conflicting, finished or failed calls.
- Start-up wiring, settings, constants and the initialization service: environment variables and construction only.
- Logging, tags, DNS prefix, endpoint formatting, and the texts of log lines and of errors beyond what a test reads.
- Event predicates and the limit on concurrent reconciles: single-branch facts.
- Static fallback tables: an abstract function; `GetRecommendedVMSizes` and `GetVMSizeSpecs`: simple filters over the listing.
- `GetDefaultPurposeForCategory` and `ValidateMapping`: finite tables.
- Error-text matching: errors are datatypes, assumed to be classified correctly, except for the two texts that `ValidateVMSize` confuses.
- The guest-cluster client: one opaque call that returns a UID or an error.
- Status fields other than phase and conditions, and labels and owner references of the secret.
- Unicode case folding: letter case is folded for ASCII letters only.
- A second operator process on the same resource: the source assumes there is none; the secret's other writers are unrestricted in `StateStore`.
- The delete of the state secret at the end of a deletion: `StateStore` admits deletions at any time, `SecretLifecycle` follows one lifetime of the secret.
- `UpdateState` and `SetKubeconfig` as loops of their own: they repeat the loop of `UpdateStateMultiple`, which stands for all three.
- `SetClusterProvisioning` and `SetNodePoolsConfigured`: nothing in the controller calls them.
- The length of pauses between retries: a retry sees whatever the others did in between.
- The comparison `NeedsUpdate` inside `Lifecycle`: its answer is arbitrary there, so the safety results hold for every comparison; `ClusterUpdate` models it.
- VMSelection.Score: exact reals instead of rounded ones; what a division by zero leaves, an infinity or NaN, is one value that compares below nothing.
- `VMSelection.OverProvisioningBound`: positive cores and memory, because relative excess is not defined otherwise.
- VMSelection.SortByScore: the source calls a library sort that promises no order among equal scores; an insertion sort with the same promise stands in for it.
- StatusConditions.StatusWriter.SortConditions: as above for the library sort of conditions.
- ClusterUpdate.WritesAfter: every call is served and Azure stores what is sent; the pools of the cluster are taken as sent with the cluster.
- Caches.VMSizeManager.ListVMSizes: the read-write lock is modelled as atomic steps, with other threads' stores between any two of them.
- Caches.MachineClassMapper.GetMachineClass: as above.
