# Compose on Kubernetes, verified

A Dafny model of the controller and the aggregated API server that turn compose stacks into
Kubernetes objects, with proofs of what they promise. `dafny verify dfyconfig.toml` checks it.

The model follows the system's own parts:

- **The reconcile pipeline.** `Convert` (with `Pods`, `Volumes`, `HostAliases`, `Placement`, `Services`,
  `Labels`) turns a stack into objects, `Equality` and `Diff` compare them with what is stored, `Cluster`
  applies the difference to an API server, `Controller` is the reconciler that does all three.
  `Fixpoint` proves that a reconcile that reported no error leaves nothing for the next one to do, against
  every server that only defaults, allocates, pins and injects as `Fixpoint.Admissible` allows.
  `Generation` is the expected-generation protocol between controller and server; `Meaning`, `Routing` and
  `Mounts` are about the generated objects, `Meaning` field by field.
- **The concurrent plumbing.** `StringChan`, `Reconciler`, `OwnerCache`, `Signaler` and `LogStreamer` are
  state machines over the atomic steps of the goroutines; their theorems are about every interleaving.
- **The API server.** `Registry` prepares, validates and stores stacks, `Phase` follows a stack's phase across
  API server and controller, `Scale` is the scale subresource, `StackStatus` derives the status.

Code that updates things in place is a class or a method with loops, proved equal to a function; the
theorems are about these functions. `Wrappers`, `Text`, `Compose`, `Kube` and `Platform` hold data types and
helpers. Libraries the code calls (quantity parsing, path functions, the compose loader, the order in which Go
walks a map) are function-valued parameters. A nil collection and an empty one are the same value.

Nine things that a reader might expect turned out false of the code. Each is stated with the exact condition:

- The early return of the log request can drop the lines of pods whose readers finished
  (`LogStreamer.FastReaderLosesItsLine`), in exactly the requests `LogStreamer.EarlyReturnLosesIff` describes.
- Two or more match labels give requirements that depend on the walk of a map (`Placement.OrderMattersFromTwoLabels`).
- An internal service with a port whose stored type gets node ports never settles (`Services.InternalSettlesIff`,
  `Fixpoint.InternalServiceNeverSettles`), nor does a requested update strategy whose other fields the server
  defaults (`Fixpoint.StrategySettlesIff`, `Fixpoint.RollingUpdateNeverSettles`).
- An in-place update changes an assigned cluster IP when the stored service is of type ExternalName
  (`Diff.InPlaceUpdateKeepsClusterIP`).
- Deletions compare no version, so a stale cache can delete what another stack has since created under the
  name (`Cluster.StaleCacheDeletesOtherStack`, `Cluster.ForeignObjectKeptIff`).
- A stack can be reported as running though its spec was never converted: a v1beta1 update that repeats a pending
  file without a status stores an empty phase, which is not dirty, and a stack that is not dirty keeps its
  workloads (`Phase.ResentFileHidesPendingSpec`, `Fixpoint.CleanStackKeepsWorkloads`). The phase means what it says
  exactly as long as no update resends a dirty stack under a status that is not dirty (`Phase.HonestIff`).
- A create that skips validation and whose compose file does not load is stored as pending: the failure that loading
  records is overwritten (`Registry.CreateStores`).
- With several services of one name, a scale update writes the first and a scale get reports the last, so the
  written count is reported exactly where they are the same (`Scale.ReportedAfterUpdate`).
- Converting sorts the services of the stack it is given, in place. So a status write resubmits sorted services, and
  turns a stack stored with unsorted ones pending again (`Phase.StatusSticksIff`); what a validated
  request stores is sorted, because its dry run already converted it (`Phase.ValidatedIsSorted`).

## Model

| member | source | states |
|---|---|---|
| `Fixpoint.ReconcileFixpoint` | internal/controller/stackreconciler.go:135-159 | after a reconcile whose apply reported no error, the next one can convert the stack again and every difference it may compute is empty, for every prior cluster, every admissible server, every walk of maps, dirty or not (a clean stack stays clean) |
| `Controller.SecondReconcileIsIdle` | internal/controller/stackreconciler.go:135-159 | the second reconcile succeeds and leaves every store, clock included, as it was |
| `Fixpoint.ReconcileSucceedsIff` | internal/controller/stackreconciler.go:135-159 | a reconcile of a stack that converts goes through, against a willing server, exactly when no desired name is taken |
| `Fixpoint.DesiredAgain` | internal/convert/stack.go:30-129 | if the first desired state was reached, the second conversion succeeds and agrees with what is stored, object by object |
| `Fixpoint.DesiredProper` | internal/controller/controller.go:25-43 | every desired object is stored under its own key and, if services keep the stack's label, is listed under its stack |
| `Fixpoint.DesiredOwned` | internal/controller/controller.go:25-57 | a reconcile desires exactly what the stack converts to, every object owned by the stack |
| `Fixpoint.DeploymentSettles` | internal/convert/deployment.go:12-50 | converting a Deployment from whatever the server stored of it gives an equal one |
| `Fixpoint.StatefulSetSettles` | internal/convert/stateful-set.go:12-44 | the same for StatefulSets, claim templates included |
| `Fixpoint.DaemonSetSettles` | internal/convert/daemon-set.go:10-18 | the same for DaemonSets |
| `Fixpoint.StrategySettlesIff` | internal/convert/deployment.go:30-50 | against a server that may fill what a strategy leaves open, it is stable exactly if the service asks for none |
| `Fixpoint.RollingUpdateNeverSettles` | internal/convert/deployment.go:30-50 | against a server that does, every version the controller wrote is updated again by every difference computed from its conversion |
| `Fixpoint.InternalServiceNeverSettles` | internal/convert/service.go:152-190 | an internal service with a port, stored with a type for which the server hands out node ports, stays of that type, and every version the controller wrote is updated again by the next difference |
| `Fixpoint.CleanStackKeepsWorkloads` | internal/convert/stack.go:82-126 | converting a stack that is not dirty desires every untouched stored workload as it is, whatever the spec says |
| `Fixpoint.ServicesAgree` | internal/convert/service.go:113-150 | converting a service's up to three Kubernetes services again, from what is stored, gives the same names and equal specs |
| `Fixpoint.AllocatingServerAdmissible` | internal/stackresources/diff/stackstatediff.go:105-119 | a server that stores workloads verbatim and hands out any cluster IPs and node ports is among those the fixpoint is proved for |
| `Controller.StackReconciler.ReconcileChildren` | internal/controller/stackreconciler.go:135-159 | fails, touching nothing, exactly when the stack cannot be converted; otherwise applies a difference between the current and the desired state |
| `Controller.StackReconciler.DeleteStackChildren` | internal/controller/stackreconciler.go:108-123 | if no call failed, no object is listed under the stack any more |
| `Cluster.KindClient.Apply` | internal/controller/resourceupdater.go:58-132 | the three loops with their early exits do what the specification says: deletions, then additions, then updates, up to the first error, a missing object to delete being none |
| `Cluster.ResourceUpdater.ApplyStackDiff` | internal/controller/resourceupdater.go:134-148 | DaemonSets, Deployments, StatefulSets, services, up to the first error |
| `Cluster.ApplyMakesCalls` | internal/controller/resourceupdater.go:58-132 | applying a kind makes the calls of all deletions, then all additions, then all updates, one after the other up to the first that fails |
| `Cluster.KindsInOrder` | internal/controller/resourceupdater.go:134-148 | DaemonSets, Deployments, StatefulSets, services: the first failing call is the last one made, and no later kind is touched |
| `Cluster.ApplyKindEffect` | internal/controller/resourceupdater.go:58-132 | the exact condition under which an apply succeeds, stale or not, and what it leaves under every key |
| `Cluster.ApplySucceedsIff` | internal/controller/resourceupdater.go:134-148 | with an up-to-date cache and a willing server, it succeeds exactly when no desired name is taken by an object outside the stack |
| `Cluster.ApplyReaches` | internal/controller/resourceupdater.go:134-148 | then exactly the desired keys are listed under the stack; equal objects are untouched and all others are what the server made of the desired ones |
| `Cluster.OtherStacksUntouched` | internal/controller/resourceupdater.go:134-148 | whether or not it succeeds, every object not listed under the stack is unchanged |
| `Cluster.ForeignObjectsKept` | internal/controller/resourceupdater.go:58-132 | however stale the difference and whatever fails, an object it does not delete by name and whose version it does not know is unchanged |
| `Cluster.ForeignObjectKeptIff` | internal/controller/resourceupdater.go:58-132 | once the deletions went through, an object whose version the difference does not know is still there exactly if the difference does not name it for deletion, re-creations included |
| `Cluster.StaleCacheDeletesOtherStack` | internal/controller/resourceupdater.go:115-120 | a difference computed from a stale cache deletes the service another stack has since created under the name |
| `Cluster.NamedObjectsDeleted` | internal/controller/resourceupdater.go:58-63 | whatever is stored under a name to delete, and not to add again, is gone, no version being compared |
| `Cluster.DeletionLeavesNothing` | internal/controller/stackreconciler.go:108-123 | applying the difference to the empty state removes all objects of the stack |
| `Cluster.IndexIsExact` | internal/controller/stackstatereconciler.go:96-114 | the index lists exactly the objects of the stack's namespace that carry its label |
| `Kube.ObjKeyInjective` | internal/stackresources/stackstate.go:10-16 | a key identifies namespace and name |
| `Diff.ComputeDiff` | internal/stackresources/diff/stackstatediff.go:199-208 | the difference lists, once each and in any order, exactly the objects to add, to delete and, with the stored version, to update, judged by labels and every field of the spec |
| `Diff.UntouchedIff` | internal/stackresources/diff/stackstatediff.go:121-197 | for all four kinds, an object on both sides is in no list if and only if labels, every spec field and the template up to admission agree |
| `Diff.ComputeKindDiff` | internal/stackresources/diff/stackstatediff.go:121-197 | the two loops for one kind, updates carrying the current version, re-created services in both lists |
| `Diff.EmptyIff` | internal/stackresources/diff/stackstatediff.go:34-47 | a difference is empty exactly when both states have the same keys and, under each, the same labels, spec fields and template up to admission |
| `Diff.ExposedNeverReCreated` | internal/stackresources/diff/stackstatediff.go:111-119 | published and random-port services never need re-creation |
| `Diff.InternalReCreatedIff` | internal/stackresources/diff/stackstatediff.go:175-197 | an internal service with a cluster IP is deleted and added again exactly when its headless choice flips |
| `Diff.InPlaceUpdateKeepsClusterIP` | internal/stackresources/diff/stackstatediff.go:175-197 | an in-place update changes an assigned cluster IP exactly for a flipped ExternalName service |
| `Equality.NormalizePodSpec` | internal/stackresources/diff/stackstatediff.go:59-82 | the loops compute the normal forms that are compared |
| `Equality.EqualObjectsIff` | internal/stackresources/diff/stackstatediff.go:84-109 | the four comparisons hold exactly if labels and each field of the spec are equal, the template up to admission |
| `Equality.TolerationsIff` | internal/stackresources/diff/stackstatediff.go:49-57 | two lists normalise to the same one exactly if both are it with ignored tolerations inserted |
| `Equality.EqualTemplateIff` | internal/stackresources/diff/stackstatediff.go:49-103 | the comparison accepts exactly ignored tolerations anywhere and digests added to images |
| `Equality.AdmittedWorkloadsCompareEqual` | internal/stackresources/diff/stackstatediff.go:84-103 | whatever admission inserts and pins, stored and desired compare equal for all three kinds |
| `Equality.EqualReflexive` | internal/stackresources/diff/stackstatediff.go:84-103 | the comparison is reflexive |
| `Convert.ConvertServices` | internal/convert/stack.go:46-54 | the loop succeeds exactly when every service converts, and then merges their objects, later ones replacing earlier ones |
| `Convert.StackConvertsIff` | internal/convert/stack.go:30-129 | a dirty stack converts, from any stored state, exactly when it has services and each of them has no persistent volume if global, only supported constraint operators, a colon in every extra host, a value for every variable, a known restart condition and pull policy, quantities that parse and absolute bind sources |
| `Convert.PlainServiceConverts` | internal/convert/stack.go:60-129 | a dirty stack of one service that only names an image converts |
| `Meaning.WorkloadsMean` | internal/convert/stack.go:30-129 | of a stack that converts: each service whose name no other bears has exactly one workload, a DaemonSet if global, a StatefulSet if it has a volume, else a Deployment; kept if untouched in a stack that is not waiting, otherwise with the fields of the service; and no other workloads |
| `Meaning.ServicesMean` | internal/convert/service.go:113-216 | it has an internal service, a published and a random-ports one where there are such ports, each with the type, ports, selector and labels of the service unless another service generates the name; and no others |
| `Meaning.DeploymentMeans` | internal/convert/deployment.go:12-60 | name, labels, replicas, history limit, strategy, selector and template of a Deployment, from the compose service and what is stored |
| `Meaning.StatefulSetMeans` | internal/convert/stateful-set.go:12-53 | the same for StatefulSets, with their claims |
| `Meaning.DaemonSetMeans` | internal/convert/daemon-set.go:10-18 | the same for DaemonSets |
| `Meaning.FilledMeans` | internal/convert/pod.go:17-109 | the template: the container of the service with its command, arguments, image, ports, probe, environment, security context and quantities, the other stored containers kept; settings, host aliases, affinity, volumes and the restart policy, forced or not |
| `Meaning.PartsMean` | internal/convert/pod.go:17-53 | what toPodTemplate computes first, each part related to its own compose field |
| `Convert.SortKeepsIff` | internal/convert/stack.go:44 | sorting changes nothing exactly when the services are in order |
| `Convert.AnySortAgrees` | internal/convert/stack.go:44 | whatever sorts services of distinct names by name gives the order the model uses |
| `Generation.FastPathExactlyOnUntouched` | internal/convert/stack.go:149-165 | in every run of controller writes, stale writes and foreign edits, on every version ever stored, the annotation does not exceed the generation and the fast path is taken exactly on objects nobody else changed since the controller's last write |
| `Generation.ConvertedExpects` | internal/convert/stack.go:178-188 | the annotation written is the generation the server will give, also where writing it bumps the generation |
| `Generation.ConversionsFollowProtocol` | internal/convert/stack.go:82-125 | the three conversions write what the protocol's controller writes, and never the zero spec |
| `Pods.FillSettles` | internal/convert/pod.go:17-109 | a stored template converted again is itself, but for the pinned image of the service's container |
| `Pods.ForcedFillSettles` | internal/convert/pod.go:325-331 | the same through the forced restart policy |
| `Pods.PartsOkIff` | internal/convert/pod.go:17-53 | of a service alone: the pod template can be computed exactly under these conditions, whatever the walk of the match labels |
| `Pods.PartsIgnoreOrder` | internal/convert/pod.go:17-53 | with at most one match label, what a service contributes does not depend on any walk of a map |
| `HostAliases.ConvertHostAliases` | internal/convert/pod.go:126-157 | an error exactly if an entry has no colon; else addresses and hostnames strictly increase, each hostname, the text before the first colon, under exactly the address, the text after it, of its last entry |
| `HostAliases.OrderedUnique` | internal/convert/pod.go:126-157 | such a list is determined by what it lists, so the walk of maps cannot show |
| `HostAliases.SplitHosts` | internal/convert/pod.go:131-138 | the first loop maps each hostname to the address of its last entry |
| `HostAliases.GroupByAddress` | internal/convert/pod.go:140-143 | the second loop groups hostnames by address, in any order |
| `HostAliases.CollectAliases` | internal/convert/pod.go:145-156 | the third loop lists every group once, in order |
| `Placement.OrderMattersFromTwoLabels` | internal/convert/placement.go:20-96 | requirements are the same for every walk of the match labels exactly with at most one label or an unsupported operator |
| `Placement.RequirementsMean` | internal/convert/placement.go:20-120 | exactly the requirements of the constraints, each with key, operator and value, and linux and amd64 where no constraint speaks of them |
| `Placement.FailsOnUnsupported` | internal/convert/placement.go:20-96 | the conversion fails exactly on an unsupported operator, whatever the walk |
| `Volumes.ConvertVolumeSpecs` | internal/convert/volumes.go:31-105 | the four loops compute the specified volume specs, and fail exactly when the specification has none |
| `Volumes.ConvertClaims` | internal/convert/pvc.go:12-44 | the two loops compute the claims, keeping what the last stored claim of a name has besides |
| `Volumes.VolumesMean` | internal/convert/volumes.go:31-227 | path, flag, sub path and source of every mount and pod volume: docker socket, git repository, volume, bind mount split at its last slash, tmpfs, secret and config with key and mode |
| `Volumes.ClaimsMean` | internal/convert/pvc.go:12-44 | one claim per volume entry, in order, with its name, annotations, mode and size, the rest from the last stored claim of the name |
| `Volumes.VolumeNamesDistinct` | internal/convert/volumes.go:127-143 | pod volume names are pairwise distinct |
| `Volumes.MountsResolve` | internal/convert/volumes.go:115-143 | every mount names exactly one of a pod volume and a claim if and only if no volume entry of the service has as source the name generated for one of its other mounts, tmpfs, secrets or configs |
| `Volumes.OrdinaryNamesResolve` | internal/convert/volumes.go:31-143 | in particular if no named volume looks like a generated name |
| `Volumes.ClaimsSettle` | internal/convert/pvc.go:12-44 | stored claims converted again are themselves, shared claims included |
| `Mounts.StatefulSetMountsResolve` | internal/convert/stack.go:94-107 | both of these, for the container, volumes and claims of the generated StatefulSet |
| `Mounts.StatelessMountsResolve` | internal/convert/stack.go:78-126 | mounts of generated Deployments and DaemonSets always name a pod volume |
| `Services.SplitPorts` | internal/convert/service.go:64-134 | every port goes to the published or the random list, in order: published ones listen on their number, as port of the load balancer or as node port, the others on their target; with target port, protocol and name, and the stored node port of that name where none is dictated |
| `Services.ExposedMeans` | internal/convert/service.go:192-204 | an exposed service exists exactly if there are such ports; it has the type of the strategy, or NodePort for random ports |
| `Services.InternalMeans` | internal/convert/service.go:152-190 | the internal service is headless, or has its internal ports and an assigned or open cluster IP |
| `Services.InternalSettles` | internal/convert/service.go:152-190 | an internal service not of an exposed type is stable whatever the server fills in |
| `Services.InternalSettlesIff` | internal/convert/service.go:152-190 | it is stable for every such server exactly if its stored type gets no node ports or it has no port |
| `Services.ExposedSettles` | internal/convert/service.go:192-204 | an exposed service with distinct port names is stable, allocated node ports being found by name |
| `Labels.SelectorPicksOwnPods` | api/labels/labels.go:18-32 | a selector matches merged labels exactly for the same stack and service |
| `Labels.OverriddenLabelsMissOwnPods` | internal/convert/stack.go:139-147 | with arbitrary deploy labels a selector finds its own pods exactly if no reserved label is overridden by another value |
| `Routing.RoutesToOwnPods` | internal/convert/stack.go:60-129 | any selector generated for one service, of a service or a converted workload, matches any pod of a converted workload of another exactly if both are the same service of the same stack |
| `StringChan.NoLostWakeup` | internal/deduplication/stringchannel.go:15-64 | in every interleaving an accepted value is delivered later or still inside |
| `StringChan.ContentBounded` | internal/deduplication/stringchannel.go:42-64 | the set is exactly what is pending, buffered or just received, at most two above the buffer size |
| `StringChan.AtMostTwoCopies` | internal/deduplication/stringchannel.go:42-64 | no value has three copies on their way to the output; where there are two, one just received is going to be dropped |
| `StringChan.OutputsKeepOrder` | internal/deduplication/stringchannel.go:15-64 | outputs are accepted inputs in order of acceptance, and nothing overtakes: a value delivered while an earlier acceptance of another one waits was accepted before it as often as it has been delivered |
| `StringChan.OvertakingExample` | internal/deduplication/stringchannel.go:42-64 | no run logs a, b, a accepted and then b delivered before a |
| `StringChan.Drains` | internal/deduplication/stringchannel.go:15-40 | after Close every run is bounded, and one that cannot go on has delivered everything |
| `StringChan.OwedMeaning` | internal/deduplication/stringchannel.go:15-64 | a value is owed exactly if some acceptance of it has no later delivery |
| `StringChan.HoldsStep` | internal/deduplication/stringchannel.go:42-64 | only its own delivery releases a value |
| `Reconciler.WakeupsAreLevelTriggered` | internal/controller/stackreconciler.go:69-84 | in every reachable state each event or conflict is followed by a start of reconcileStack for its key, or the key is in a send, a sleeping retry or one of the two queues |
| `Reconciler.QuiescentMeansAnswered` | internal/controller/stackreconciler.go:69-84 | when nothing but a new event or a deletion can happen, every wakeup has been answered |
| `OwnerCache.StackOwnerCache.SetDirty` | internal/controller/stackownercache.go:75-82 | marks a known key dirty and changes nothing else |
| `OwnerCache.StackOwnerCache.Remove` | internal/controller/stackownercache.go:69-73 | forgets the key and nothing else |
| `OwnerCache.StackOwnerCache.GetWithError` | internal/controller/stackownercache.go:84-113 | the cached, fetched or last known owner, and the cache afterwards, for every answer of the server, on the entries themselves |
| `OwnerCache.RefusedIff` | internal/controller/stackownercache.go:84-113 | a get is refused exactly when the server names no owner and there is no entry, or a dirty one that was not asked for while the stack is not gone |
| `OwnerCache.CleanEntriesAreFresh` | internal/controller/stackownercache.go:69-113 | after any operations an entry that is not dirty holds what a get fetched after the last setDirty of its key |
| `OwnerCache.DirtyReconcileUsesFreshOwner` | internal/controller/resourceupdater.go:23-27 | a reconcile of a dirty stack is granted an owner that it or an earlier get fetched since then, but for the fallback when the stack is gone |
| `Signaler.CallbacksRunOnce` | internal/registry/signaler.go:24-75 | each callback runs at most once, never if unregistered before the trigger, exactly once if not unregistered when Signal has completed |
| `Signaler.FateStep` | internal/registry/signaler.go:39-44 | a registration's fate changes only by its own Unregister or late run |
| `Signaler.ChannelsGetOneToken` | internal/registry/signaler.go:46-75 | every channel has one token once triggered and none before |
| `Signaler.SendsNeverBlock` | internal/registry/signaler.go:59-70 | each send under the mutex finds an empty channel |
| `LogStreamer.ForwardsEverything` | internal/registry/logstreamer.go:137-185 | when forwardLogs returns, each line of each reader that passes the filter is written once, in per-pod order |
| `LogStreamer.ForwardingTerminates` | internal/registry/logstreamer.go:86-185 | every run is bounded, and one that cannot go on has ended the request |
| `LogStreamer.EarlyReturnExact` | internal/registry/logstreamer.go:211-221 | the check before forwarding gives up exactly when no reader is reading, and is right exactly if there was no line to write |
| `LogStreamer.EarlyReturnLosesIff` | internal/registry/logstreamer.go:194-221 | some run of a request loses lines to that check exactly when a line passes the filter and all lines of all its pods fit into the channel |
| `LogStreamer.FastReaderLosesItsLine` | internal/registry/logstreamer.go:211-221 | one pod, one line, read before the check: the line is lost |
| `Registry.CreateStores` | internal/registry/strategy.go:46-99 | a create by a known user stores the submitted stack, up to service order, or what the file loads to, with the file, the user as owner and the pending status; when it is refused; and what skipping validation changes |
| `Registry.OtherCreates` | internal/registry/strategy.go:46-99 | a create under a taken name changes nothing, one by an unknown user is refused or stored as failed |
| `Registry.UpdateStores` | internal/registry/strategy.go:101-162 | file, stack, owner and status that an update of each kind by a known user stores, and exactly when it is refused and changes nothing |
| `Registry.StackObject.PrepareForCreate` | internal/registry/strategy.go:46-74 | the steps with their early exits compute the prepared stack: file kept, owner set, the submitted stack kept or the file loaded, pending unless a step failed |
| `Registry.StackObject.PrepareForUpdate` | internal/registry/strategy.go:101-138 | the same for updates of either API version |
| `Registry.StackObject.PrepareFields` | internal/registry/strategyprepare.go:30-50 | v1beta1 drops or restores the structured stack; later versions restore the file and mark it once |
| `Registry.StackObject.PrepareFromComposeFile` | internal/registry/strategyprepare.go:74-93 | loads the file where there is no structured stack, strictly or leaving a failure status |
| `Registry.ComposeFileCoherence` | internal/registry/strategy.go:46-162 | over every run of authenticated creates, updates, composeFile, scale and status requests the stored file is empty, marked outdated, or loads to the structured stack up to service order |
| `Registry.NeverMarkedTwice` | internal/registry/strategyprepare.go:41-50 | over every run no file carries the marker twice unless a client submitted it so |
| `Registry.StructuredUpdateMarksOnce` | internal/registry/strategyprepare.go:41-50 | a structured update keeps the file, or marks an unmarked, non-empty one when the stack changed |
| `Registry.AnonymousCoherentIff` | internal/registry/strategyprepare.go:17-28 | a request whose user is unknown keeps coherence exactly if it is refused or sends a file and a stack that agree by themselves |
| `Registry.AnonymousRequestBreaksCoherence` | internal/registry/strategyprepare.go:17-28 | such a request that creates a stack and skips validation stores a file without its stack |
| `Phase.PhaseSoundness` | internal/registry/strategy.go:101-138 | in every run whose updates do not resend a dirty stack under a status that is not dirty, a stored stack in a phase that is not dirty, Progressing and Available among them, has a version that was read dirty, converted and applied without error, and its spec is the same from that version on |
| `Phase.HonestIff` | internal/registry/strategy.go:101-138 | the condition is exact: while the stored spec is not converted, an accepted update keeps this true if and only if it meets the condition |
| `Phase.ResentFileHidesPendingSpec` | internal/registry/strategy.go:101-138 | the failing run, for any two files: create and reconcile one, submit the other twice through v1beta1 without a status, reconcile; the reported status is stored, the second file unconverted |
| `Phase.UnconvertedReportsSuccess` | internal/controller/stackreconciler.go:86-175 | from any state where a stack that is not dirty was not converted, a reconcile stores its report and the spec stays unconverted |
| `Phase.SpecChangeDirties` | internal/registry/strategy.go:131-137 | any accepted change of the spec leaves the stack dirty, whoever asks and whatever status is submitted |
| `Phase.StatusSticksIff` | internal/controller/resourceupdater.go:150-161 | a status write reaches the store exactly if services are in order and the owner is unchanged; else the stack is pending again |
| `Phase.ValidatedIsSorted` | internal/registry/strategyvalidate.go:128-161 | what a validated request stores has its services in order |
| `StackStatus.GenerateStatus` | internal/controller/stackstatereconciler.go:44-87 | Available exactly when every service has a Deployment or StatefulSet of its name with the replicas it asks for ready, or a DaemonSet without unavailable pods; else Progressing |
| `Scale.Get` | internal/registry/scale.go:45-59 | a count for each name and no other, that of its last service: -1 if global, 1 if it asks for none |
| `Scale.Update` | internal/registry/scale.go:121-135 | an error exactly if a target is no service; else the first service of each target has its count modulo 2^64 and is otherwise as it was, and so is every other service |
| `Scale.ReportedAfterUpdate` | internal/registry/scale.go:45-135 | what Get reports after an Update: the written count of each target whose last service is also its first and not global, and what it reported before for all else |
| `Scale.ScaleRoundTrip` | internal/registry/scale.go:45-135 | with distinct names, writing back what Get reported leaves all the stack generates unchanged, from any stored state, and Get reports the same |

## Left out

- `install/`, `cmd/`, `api/client`, `api/openapi`, generated code: sequences of client calls or structural claims only.
- The compose loader and the conversions between API versions: the loader is an uninterpreted, deterministic function.
- `internal/keys` and certificates: cryptographic libraries.
- Informer internals, exponential backoff and sleeping: a cache is any earlier version, a sleep an arbitrary delay.
- Foreground deletion: a deleted object is gone at once.
- Follow-mode logs, flushing, client close and write errors; the filter is an arbitrary predicate.
- `internal/patch`, table conversion, the owner subresource: too simple to carry a theorem.
- Deleting secrets and config maps after a stack's children.
- The validation of names and collisions: an arbitrary predicate in `Registry`.
- Status fields of workloads, except as input of `StackStatus.GenerateStatus`.
- toPodTemplate, toInternalService, toExposedService, toDeployment, toStatefulSet and toDaemonSet assign fields of a deep copy; they are record updates here, so aliasing of the copy is not modelled. toNodeAffinity, toEnv and toPorts are functions for the same reason.
- setStackOwnership and NewStackState: functions on maps, their loops being independent per key.
- Convert.SortKeepsIff: services of equal name keep their order, which `sort.Slice` does not promise; for distinct names see `Convert.AnySortAgrees`.
- Durations become whole seconds by exact division, where the code goes through a 64-bit float.
- Generation.FastPathExactlyOnUntouched: generations stay below the largest 64-bit integer.
- Fixpoint.ReconcileFixpoint: asks for distinct port names per exposed service, at most one match label, an internal service not stored with an exposed type, a server that stores a requested update strategy as submitted, and services that keep the stack's label; `Services.InternalSettlesIff`, `Placement.OrderMattersFromTwoLabels` and `Fixpoint.StrategySettlesIff` show what goes wrong without three of these. Service names may collide.
- Phase.PhaseSoundness: specs are compared up to service order, on which the conversion does not depend; runs in which an update resends a dirty stack under a status that is not dirty are excluded, and `Phase.HonestIff` shows that they must be.
- Registry.ComposeFileCoherence: compares up to service order, since the dry run of the validation sorts what is stored.
