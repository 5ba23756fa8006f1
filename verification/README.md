# The fake GPU operator, modelled and proved

The operator turns a `FakeGPUConfig` custom resource into DaemonSets, Deployments, Services, RBAC objects, ConfigMaps and
a RuntimeClass, labels the nodes it selects, writes one topology ConfigMap for each node of its pool, and publishes a
status. When the custom resource is deleted it undoes all of that by label queries and a fixed list of names, and then
removes its own finalizer. This project models the controller as a process that performs one API call at a time against a
store, together with users and other writers who may act between any two calls, calls that fail or whose responses are
lost, reads from a lagging cache, and restarts of the process at any point.

How the files fit together:

- `Basics`, `Api`, `TopologyText`, `Resources`: the data types and the builders of every object (names, labels,
  selectors, service accounts, role references, subjects, topology text).
- `Cluster`: what is stored and what each API call does: optimistic concurrency, immutable fields, silent updates that
  change nothing, finalizers, faults; and what other clients can do.
- `Protocol`: the controller as a list of pending operations. `Perform` does the first one; `Act` is one action of
  anybody; `Replay` is a whole history.
- `Client`, `Script`, `Reconciler`: the controller in its own form, a class whose methods call a mutable API server in
  loops. Each method is proved to perform exactly the operations of the protocol, in order, for any behaviour of the
  surroundings, so the histories the theorems are about are the histories the methods make (`Assurance`).
- `Profiles`, `Blueprint`, `Wiring`, `Setup`: what the builders have to build, told without them: which profile a spec
  asks for, which objects it calls for, how they fit together, and what of that is in the cluster after a run.
- `Naming`, `Safety`, `Erasure`, `Authorship`, `Labelling`, `Honesty`, `Ledger`, `Quiescence`, `Rest`, `Helm`,
  `Convergence`, `Recovery`, `Outcome`, `Refusal`, `Deletion`, `Failures`, `Footprint`, `Integrity`, `Watch`: the
  theorems.
- `Counterexamples`, `StaleReads`: histories that show why some hypotheses are there, and what a lagging cache can do.

Terms used below. A *history* is any list of requests, calls with their answers, actions of other clients and restarts.
A custom resource is *held* while it is stored with the operator's finalizer. The *managed* labels are the six node
labels the operator sets. A run is *undisturbed* if all its calls work, its first read is current and nobody acts in
between; the server lists items in any order it likes. The *goal* of a run is the closed form of the contents it leaves.
A history is *fair* if others do not write at the operator's keys; when a cleanup looks for objects by label, only the
operator's own answer; no first read sends a run off to write objects for a custom resource that is no longer held (a
current read never does); on OpenShift the question about it is answered; and no delete or list of objects fails while a
custom resource is being cleaned up. It is *fair to nodes* if others leave the managed labels alone and no update that
takes them off is refused, that is, nobody writes such a node between the cleanup's list and its update.

A custom resource *can be applied* if it is stored, not being deleted, and its profile resolves. Two such custom
resources `x` and `y` *clash* on a node if `x` has a selector that asks for no managed label and matches the node, and
`y` selects the node as `x` wants it labelled. As long as no selector asks for a managed label, that means they both have
a selector and both match. A custom resource without a selector takes the nodes in its pool and so never clashes: whoever
labels the node takes it out of that pool.

What the proofs found in the code:

- Cleanup ignores failing deletes, failing label queries and refused node updates. `Failures.SurvivesIffRefused` says
  exactly which objects and labels survive for every way the calls of a whole cleanup can be answered.
- If the process forgets its answer about OpenShift and the next question fails, the cleanup takes OpenShift to be
  absent: it reports no error and is complete if and only if no SCC object was stored (`CleanupAfterFailedQuestion`).
  `ForgottenAnswerLeavesScc` is a history from an untouched cluster that ends with the two objects and no custom
  resource.
- A failing list hides a Helm release: the check goes on to apply if and only if nothing of Helm's is stored, or the list
  of secrets fails, or no secret is stored and the list of ConfigMaps fails (`HelmOverlookedIffListFails`). One failing
  list is enough for a whole run over a stored release (`ReleaseOverlooked`).
- A stale first read can set up a custom resource again after it is gone (`StaleReadOrphans`), namely if and only if it
  returns a version with the finalizer and a profile that resolves, not being deleted, while nobody holds the custom
  resource: then something fair can follow it that ends in an orphan, and otherwise nothing can (`HarmlessReadExact`). If
  no Helm release is stored and the process is not mistaken about OpenShift, the calls that follow need only work
  (`HarmfulReadOrphans`).
- A stale first read of a version that was being deleted can clean up a custom resource that has been created again
  since: its service accounts go while its bindings stay (`StaleReadDangles`).
- Two custom resources that clash on a node never come to rest: their runs write it more often than any bound
  (`ClashNeverRests`). Labels that leave no run anything to do exist if and only if no two clash (`RestsIffNoClash`); and
  if no selector asks for a managed label and no two clash, one run of each is enough for good (`UnsharedRests`).
- A cleanup takes objects of other clients for its own if they lie in the operator's namespace, are of a kind it queries,
  and carry the custom resource's name as instance label, or are ConfigMaps labelled as node topology: it removes exactly
  those (`DeletionSpares`).
- A line break in a product, a strategy or a node's name upsets the topology text, and nothing else does
  (`TopologyRoundTrip`).
- With an empty custom resource name the label loop would not add the pool label (`RelabelUnnamed`). The API server
  admits no such name, so the other theorems assume names are non-empty.
- A selector value that is the empty string makes the watch enqueue nodes the list does not return (`WatchExactIff`). The
  watch never misses one (`WatchComplete`).
- The repository's `README.md` says everything is cleaned up on deletion. Switching a component off does not remove its
  objects; only deletion does. And deleting any custom resource removes the shared RuntimeClass and every node topology
  ConfigMap of the namespace, including those of others, until their next run (`DeletionSpares`,
  `RunRestoresAfterDeletion`). The model follows the code.

## Model

| member | source | states |
|---|---|---|
| `TopologyText.BuildNodeTopology` | internal/resources/configmap.go:88-103 | the loop over GPU entries renders exactly the specified text, for any count, also zero or negative |
| `TopologyText.TopologyRoundTrip` | internal/resources/configmap.go:88-103 | a decoder that knows the text only by its field names recovers memory, product, all GPU ids in order and the MIG strategy if and only if product, strategy and, with any GPU at all, the node's name hold no line break |
| `TopologyText.TopologyWording` | internal/resources/configmap.go:88-103 | the text line for line, with every line of each GPU's entry, for every input |
| `TopologyText.PoolRoundTrip` | internal/resources/configmap.go:14-46 | a decoder that knows the pool's text only by its field names recovers pool, label, count, memory, product and strategy if and only if pool, product and strategy hold no line break |
| `TopologyText.GpuIdInjective` | internal/resources/configmap.go:90-96 | `GPU-<node>-<i>` determines node and index, whatever dashes and digits node names hold |
| `Resources.BuildSccSubjects` | internal/resources/rbac.go:117-124 | the loop lists the service accounts of device plugin, metrics exporter and status updater |
| `Resources.BuildSccManifests` | internal/resources/rbac.go:99-138 | the role and the binding with the collected subjects |
| `Resources.BuildNodeTopologyConfigMap` | internal/resources/configmap.go:75-118 | custom values, MIG strategy and the text built by the loop make the specified object |
| `Profiles.ProfileResolves` | internal/controller/fakegpuconfig_controller.go:223-239 | a profile resolves if and only if the spec has a custom one or names one of the seven built-in ones; it is the custom one, with its product and memory, even beside a name, and else the one named |
| `Profiles.BuiltInProducts` | internal/profiles/profiles.go:18-99 | each built-in name stands for its product |
| `Profiles.BuiltInApart` | internal/profiles/profiles.go:18-104 | no two built-in profiles share a product, and each has the memory and architecture of its product |
| `Blueprint.PlanIsCalledFor` | internal/controller/fakegpuconfig_controller.go:121-183 | for every spec, a run writes an object before it looks at nodes if and only if it is called for, by literal name and kind: accounts, roles, bindings, config maps, device plugin, services and runtime class always; status updater, exporter and topology server also when the spec has no `components`; the others only under their switches; the SCC pair only on OpenShift |
| `Blueprint.PlanSpelled` | internal/resources/rbac.go:11-159 | each of these objects is as spelled out: labels, selector, pod labels, account and placement of each workload, role and subjects of each binding, selector of each service, contents of the maps |
| `Wiring.SelectorsApart` | internal/resources/daemonset.go:380-386 | a workload's selector matches the pods of another, of whatever custom resource, if and only if it is the same workload |
| `Wiring.ServicesReach` | internal/resources/service.go:11-56 | a service matches exactly the pods of its own custom resource's exporter or topology server |
| `Wiring.GrantsReachPods` | internal/resources/rbac.go:116-159 | the subject of a component's binding is exactly the account that component's own pods run under; the SCC binding's are exactly the accounts of device plugin, exporter and status updater |
| `Wiring.RolesExist` | internal/resources/rbac.go:140-159 | every binding planned refers to a role planned under its own name with its own labels |
| `Wiring.LandsOnlyOn` | internal/resources/daemonset.go:43-45 | the pods of each DaemonSet run exactly on nodes that carry its own label, which is one the operator manages |
| `Naming.StemNameInjective` | internal/resources/daemonset.go:27-36 | within a kind, an object's name determines its component and its custom resource |
| `Naming.NodeKeysApart` | internal/resources/configmap.go:36-41 | node topology, pool topology and profile ConfigMaps never share a name |
| `Naming.PlanBelongs` | internal/controller/fakegpuconfig_controller.go:121-183 | everything a run writes sits at its own component's key, carries its custom resource's instance label and the expected selector or role reference |
| `Naming.AuthoredFrozenAgree` | internal/resources/daemonset.go:371-386 | two objects the operator writes at one key, for whatever custom resources and specs, agree on selector and role reference |
| `Authorship.UpdatesKeepFrozen` | internal/controller/fakegpuconfig_controller.go:572-598 | in every history in which others write no object at the operator's keys - stale reads, refused calls and restarts included - a pending update agrees with the stored object on all immutable fields, so with a current resourceVersion it is accepted |
| `Footprint.FootprintsMatch` | internal/controller/fakegpuconfig_controller.go:547-566 | for every spec, a run writes a cluster-scoped key if and only if deletion with the same OpenShift answer removes it |
| `Footprint.CleanupNamesEveryWrite` | internal/controller/fakegpuconfig_controller.go:355-365 | within one process, whatever the mapper answers when, every cluster-scoped object about to be written is on the list of any later cleanup |
| `Safety.ReplayKeepsInv` | internal/controller/fakegpuconfig_controller.go:74-194 | every fair history keeps the invariant: every object at the operator's keys is as it writes it, none is orphaned, and a cleanup still has everything it must remove ahead of it |
| `Safety.NoOrphansEver` | internal/controller/fakegpuconfig_controller.go:469-570 | in every state of every fair history an object labelled with an instance exists only while that custom resource is held, any other operator object only while some is; stale reads are allowed unless they set a run off to write objects for what nobody holds |
| `Safety.CurrentReadHarmless` | internal/controller/fakegpuconfig_controller.go:77-83 | a current first read never sets a run off so |
| `StaleReads.HarmlessReadExact` | internal/controller/fakegpuconfig_controller.go:77-119 | that condition on first reads is exact: from any state of the invariant, a read meets it if and only if no fair continuation leads to an orphan |
| `StaleReads.HarmfulReadOrphans` | internal/controller/fakegpuconfig_controller.go:77-119 | if a read does not meet it, the objects are as the operator writes them, no Helm release is stored and a remembered OpenShift answer is right, the calls that follow need only work for the run to write an orphan |
| `StaleReads.StaleReadOrphans` | internal/controller/fakegpuconfig_controller.go:77-94 | a history from an untouched cluster that ends with an orphan |
| `Erasure.RelabelMerges` | internal/controller/fakegpuconfig_controller.go:402-410 | for a named custom resource the label loop is old labels overridden by desired, and it asks for an update exactly when that differs |
| `Erasure.RelabelUnnamed` | internal/controller/fakegpuconfig_controller.go:402-410 | with an empty name the loop merges if and only if the node already has a pool label |
| `Labelling.OnlyOwnTouched` | internal/controller/fakegpuconfig_controller.go:402-416 | in every history in which others write no object at the operator's keys and label none so that a cleanup finds it, the next call leaves every object outside the operator's keys and every unmanaged label of every node as it was |
| `Erasure.NoTraceLeft` | internal/controller/fakegpuconfig_controller.go:121-193 | after any history fair also to nodes that ends with nothing held, objects and node labels are what the other clients alone would have made of the untouched cluster |
| `Erasure.NeverHalfLabelled` | internal/controller/fakegpuconfig_controller.go:384-416 | in every state of every history fair also to nodes, a node with a managed label is in the pool of a held custom resource |
| `Labelling.LabelsSafe` | internal/controller/fakegpuconfig_controller.go:529-545 | with stale reads, faults, restarts and pools set by hand, a node with any managed label has a pool label, and no call ever changes an unmanaged label |
| `Honesty.OnlySaveStatusChanges` | internal/controller/fakegpuconfig_controller.go:462-464 | a stored status changes only when a run commits its own, at the resourceVersion it holds |
| `Honesty.StatusHonest` | internal/controller/fakegpuconfig_controller.go:97-119 | in every history, a status that changes fits the spec stored at that moment, which is the spec the run worked with: available if and only if reconciled, and then with that spec's GPU count and the profile it asks for by name; a Helm conflict or an invalid profile is never available, and an invalid profile is one that spec has |
| `Honesty.CommitHonest` | internal/controller/fakegpuconfig_controller.go:462-464 | the same for every accepted commit, also one that changes nothing |
| `Ledger.AppliedBeforeReported` | internal/controller/fakegpuconfig_controller.go:121-193 | by the time a run commits Available for a spec, the process knows whether this is OpenShift, and since the run was requested the write of every object that spec calls for by that answer, the SCC pair included, has been accepted, and of the topology map of every node of the pool as the run listed it |
| `Setup.AvailableMeansSetUp` | internal/controller/fakegpuconfig_controller.go:121-194 | by the time a run commits an available status, every object called for by the spec has been written and accepted as spelled out since the run was requested |
| `Honesty.ReadyNeverExceedsTotal` | internal/controller/fakegpuconfig_controller.go:443-451 | no stored status ever counts more ready nodes than nodes |
| `Quiescence.LabelDecreases` | internal/controller/fakegpuconfig_controller.go:412-416 | with disjoint selections, labelling a node strictly shrinks the set of pairs of node and label that are not as wanted |
| `Quiescence.NodeWritesBounded` | internal/controller/fakegpuconfig_controller.go:374-420 | no number of requests, faults and restarts makes more node writes than there are such pairs, at most six for each node |
| `Rest.RestsIffNoClash` | internal/controller/fakegpuconfig_controller.go:367-420 | for all custom resources and selectors: some setting of the managed labels leaves no run a node to label if and only if no two custom resources clash |
| `Rest.RestsIffUnshared` | internal/controller/fakegpuconfig_controller.go:367-372 | where no selector asks for a managed label, that is so if and only if no node is selected by two custom resources that both have a selector |
| `Rest.ClashNeverRests` | internal/controller/fakegpuconfig_controller.go:374-420 | if two custom resources clash on a node, undisturbed runs of the two in turn write nodes more often than any bound |
| `Rest.UnsharedRests` | internal/controller/fakegpuconfig_controller.go:374-420 | with no Helm release, custom resources that can all be applied, no selector that asks for a managed label and no node selected by two that have one, one undisturbed run of each custom resource leaves nothing to label, and no later requests, faults or restarts make a node write; custom resources without a selector may share nodes with anybody |
| `Helm.HelmNeverManufactured` | internal/controller/fakegpuconfig_controller.go:196-221 | unless somebody installs Helm's release, no history makes the check see one, whatever others write, however stale reads are and whichever calls fail |
| `Helm.HelmRespected` | internal/controller/fakegpuconfig_controller.go:96-106 | while one object of a release stays Helm's, the lists work and the custom resources runs read are not being deleted, no call writes an object or a node, whatever others do |
| `Helm.HelmOverlookedIffListFails` | internal/controller/fakegpuconfig_controller.go:196-221 | over both lists: the check goes on to apply if and only if nothing of Helm's is stored, or the secrets' list fails, or no secret is there and the ConfigMaps' list fails; otherwise it is about to publish a conflict, as not available |
| `Refusal.HelmStoredIffInstalled` | internal/controller/fakegpuconfig_controller.go:196-221 | what the check looks for is exactly a secret with owner helm and name gpu-operator, or a ConfigMap named topology managed by Helm, in any namespace |
| `Refusal.RefusedRun` | internal/controller/fakegpuconfig_controller.go:96-119 | an undisturbed run with a release stored, or a profile that does not resolve, writes nothing but the condition, not available and with that reason, and the finalizer; it returns an error only for the profile |
| `Counterexamples.ReleaseOverlooked` | internal/controller/fakegpuconfig_controller.go:197-203 | with a release stored, one failing list of secrets lets a run go all the way to its goal |
| `Convergence.RunPlan` | internal/controller/fakegpuconfig_controller.go:121-183 | undisturbed, the conditional list of writes leaves exactly the plan's objects over what was there |
| `Convergence.RunNodes` | internal/controller/fakegpuconfig_controller.go:185-193 | undisturbed, labelling, topology maps and status end with every selected node labelled, every pool node mapped and the counts right |
| `Convergence.StatusIsGoal` | internal/controller/fakegpuconfig_controller.go:443-453 | the loop's counts are the numbers of selected and of ready nodes |
| `Convergence.RunReachesGoal` | internal/controller/fakegpuconfig_controller.go:74-194 | in whatever order the server lists things, an undisturbed run ends, without error, in exactly its goal, with or without the finalizer or a remembered OpenShift answer at the start |
| `Refusal.EveryRun` | internal/controller/fakegpuconfig_controller.go:74-194 | what every undisturbed run comes to: nothing, the cleanup, a refusal for Helm's or the profile's sake, or the goal; it returns an error exactly for the profile |
| `Refusal.ErrorIff` | internal/controller/fakegpuconfig_controller.go:74-119 | when a run ends, whatever its calls are answered, exactly when it returns an error |
| `Refusal.AppliesOrStops` | internal/controller/fakegpuconfig_controller.go:121-193 | a run that applies goes on if a call is taken and else stops with an error: no failed read, write, list or labelling is passed over |
| `Recovery.StruggleAbsorbed` | internal/controller/fakegpuconfig_controller.go:121-193 | no series of runs with any faults and restarts, a failing question about OpenShift included, changes the goal |
| `Recovery.CrashRecovery` | internal/controller/fakegpuconfig_controller.go:121-193 | stop such a series anywhere; after a restart one undisturbed run reaches the goal of the start |
| `Recovery.RunIdempotent` | internal/controller/fakegpuconfig_controller.go:572-598 | a second undisturbed run leaves the contents as the first left them |
| `Outcome.GoalPlacesAndCounts` | internal/controller/fakegpuconfig_controller.go:438-451 | in the goal every selected node carries the placement label of every DaemonSet deployed, and ready equals total |
| `Outcome.GoalCoversTopology` | internal/controller/fakegpuconfig_controller.go:422-436 | in the goal every selected node and every other pool node has a topology map under its name with its labels, which reads as the memory, product, ids and strategy the spec asks for if and only if no line break is in the way |
| `Setup.GoalSetUp` | internal/controller/fakegpuconfig_controller.go:121-183 | in the goal every object called for is stored as spelled out, and every other object but node topology maps is as it was |
| `Setup.GoalPoolText` | internal/resources/configmap.go:14-46 | in the goal the pool's map reads as the spec asks, if and only if no line break is in the way |
| `Setup.GoalLabels` | internal/controller/fakegpuconfig_controller.go:374-420 | in the goal a chosen node has exactly the labels wanted, over its own; every other label of every node is as it was |
| `Setup.LabelledIfLacking` | internal/controller/fakegpuconfig_controller.go:402-416 | a run sends an update to a node if and only if it is chosen and lacks a label wanted |
| `Setup.PodsStayInPools` | internal/resources/daemonset.go:43-45 | in every state of every history fair also to nodes, a node on which the pods of any DaemonSet may run is in the pool of a held custom resource |
| `Outcome.RunsCommute` | internal/controller/fakegpuconfig_controller.go:374-436 | undisturbed runs of two custom resources with disjoint selections commute, in whatever order either lists things: the same node labels, the same statuses, the same objects but the pool topology, the runtime class and a profile both use |
| `Deletion.CleanupReachesDeleted` | internal/controller/fakegpuconfig_controller.go:469-570 | from any state, in whatever order the server lists things, an undisturbed cleanup ends, without error, in exactly the stated contents |
| `Deletion.DeletionRecovers` | internal/controller/fakegpuconfig_controller.go:469-570 | after any faults and crashes, as long as the custom resource is stored, one more undisturbed cleanup leaves what one from the start would have left |
| `Deletion.CleanupNeverCutShort` | internal/controller/fakegpuconfig_controller.go:568-569 | stopped after any number of quiet calls, the custom resource is still stored or everything is done |
| `Refusal.CleanupCutShort` | internal/controller/fakegpuconfig_controller.go:469-545 | a cleanup whose list of nodes fails stops with an error, with exactly what its label queries found gone |
| `Deletion.DeletionExact` | internal/controller/fakegpuconfig_controller.go:475-566 | an object of the custom resource survives if and only if it is an SCC object and the process remembers no OpenShift |
| `Deletion.CompleteIff` | internal/controller/fakegpuconfig_controller.go:556-561 | a cleanup is complete if and only if OpenShift is remembered or no SCC object was stored |
| `Counterexamples.CleanupAfterFailedQuestion` | internal/controller/fakegpuconfig_controller.go:355-365 | a process that remembers no answer about OpenShift and gets none cleans up as if there were none, without error; complete if and only if no SCC object was stored |
| `Counterexamples.ForgottenAnswerLeavesScc` | internal/controller/fakegpuconfig_controller.go:547-569 | a history from an untouched cluster that ends with both SCC objects stored and no custom resource |
| `Deletion.DeletionSpares` | internal/controller/fakegpuconfig_controller.go:472-545 | of other clients' objects exactly those that the label queries find go; of objects of another custom resource only the runtime class goes; every node topology map goes, whoever it was made for; labels of nodes in another's pool stay |
| `Deletion.RunRestoresAfterDeletion` | internal/controller/fakegpuconfig_controller.go:520-527 | after an undisturbed cleanup of one custom resource, one undisturbed run of another leaves at every key of its plan what it would have left without the cleanup; and at the topology map of each node of its pool if and only if that node was not in the other's pool or its selector matches without managed labels |
| `Failures.SurvivesIffRefused` | internal/controller/fakegpuconfig_controller.go:469-570 | for every way the calls of a whole cleanup are answered, with only the node list and the release working: an object survives if and only if every delete naming it is refused; it is named if and only if a query that matches it is listed or its name is on the list; a pool node keeps its labels if and only if its update is refused; no error, and the finalizer goes |
| `Integrity.ApplyProgramOrdered` | internal/controller/fakegpuconfig_controller.go:121-183 | for every combination of switches, each write comes after everything it refers to |
| `StaleReads.StaleReadDangles` | internal/controller/fakegpuconfig_controller.go:77-87 | why the next row bars such stale reads: a fair history from an untouched cluster, in which nobody else removes an object, that ends with a role binding of a stored custom resource, not being deleted, whose service account is gone |
| `Integrity.ReferencesHold` | internal/controller/fakegpuconfig_controller.go:241-289 | in every state of every fair history in which others remove none of the operator's objects and no stale read cleans up what is in use again, every stored workload, role binding or SCC binding of a custom resource that is not being deleted finds its service account, role and subjects stored |
| `Watch.NodeMatchesCfg` | internal/controller/fakegpuconfig_controller.go:631-641 | for any order of the selector's keys, the loop compares as Go reads maps, a missing key as empty |
| `Watch.RequestsFor` | internal/controller/fakegpuconfig_controller.go:619-628 | the loop collects exactly the matching names, in order |
| `Watch.WatchComplete` | internal/controller/fakegpuconfig_controller.go:613-629 | a node a run would list always enqueues that run |
| `Watch.WatchExactOn` | internal/controller/fakegpuconfig_controller.go:631-641 | on one node watch and list agree unless it matches only by lacking a label wanted empty |
| `Watch.WatchExactIff` | internal/controller/fakegpuconfig_controller.go:367-372 | on all nodes they agree if and only if no selector value is empty |
| `Reconciler.BuildDesiredLabels` | internal/controller/fakegpuconfig_controller.go:384-400 | the map built up by conditional inserts is the desired labels |
| `Reconciler.RelabelInPlace` | internal/controller/fakegpuconfig_controller.go:402-410 | for every order of the desired labels, also on a nil map, the loop leaves the specified labels and flags exactly a needed update |
| `Reconciler.CountReadyNodes` | internal/controller/fakegpuconfig_controller.go:445-450 | the loop counts the nodes whose device plugin label reads true |
| `Reconciler.FakeGPUConfigReconciler.constructor` | internal/controller/fakegpuconfig_controller.go:52-57 | a new controller remembers nothing about OpenShift |
| `Reconciler.FakeGPUConfigReconciler.CreateOrUpdate` | internal/controller/fakegpuconfig_controller.go:572-598 | one get, then create or update with the version read, as the protocol does; any error ends it. Serves both functions of the source, which differ only in the empty namespace |
| `Reconciler.FakeGPUConfigReconciler.DetectOpenShift` | internal/controller/fakegpuconfig_controller.go:355-365 | asks at most once, remembers the answer, counts an error as no |
| `Reconciler.FakeGPUConfigReconciler.ReconcileRBAC` | internal/controller/fakegpuconfig_controller.go:241-289 | accounts, roles, bindings and the conditional SCC pair in the protocol's order |
| `Reconciler.FakeGPUConfigReconciler.ReconcileAccountsAndRoles` | internal/controller/fakegpuconfig_controller.go:242-275 | the account loop and the three pairs of role and binding |
| `Reconciler.FakeGPUConfigReconciler.ReconcileWorkloads` | internal/controller/fakegpuconfig_controller.go:125-183 | config maps, workloads, services and runtime class in the protocol's order, stopping at the first error |
| `Reconciler.FakeGPUConfigReconciler.ReconcileOptional` | internal/controller/fakegpuconfig_controller.go:137-154 | status updater, metrics exporter and topology server under their switches |
| `Reconciler.FakeGPUConfigReconciler.ReconcileExtra` | internal/controller/fakegpuconfig_controller.go:160-179 | MIG faker, DRA plugin and compute domain workloads under their switches |
| `Reconciler.FakeGPUConfigReconciler.ReconcileNodeLabels` | internal/controller/fakegpuconfig_controller.go:374-420 | lists, relabels and updates exactly the nodes that need it, as the protocol does |
| `Reconciler.FakeGPUConfigReconciler.ReconcileNodeTopologyConfigMaps` | internal/controller/fakegpuconfig_controller.go:422-436 | one topology map for each node of the pool, as the protocol does |
| `Reconciler.FakeGPUConfigReconciler.SaveConfigStatus` | internal/controller/fakegpuconfig_controller.go:98-104 | commits a status; a failure counts only for the final one |
| `Reconciler.FakeGPUConfigReconciler.UpdateFinalStatus` | internal/controller/fakegpuconfig_controller.go:438-467 | lists, counts and commits the final status, as the protocol does |
| `Reconciler.FakeGPUConfigReconciler.DetectHelmConflict` | internal/controller/fakegpuconfig_controller.go:196-221 | a conflict is a Helm secret, or a ConfigMap named topology managed by Helm, in any namespace; an error is no conflict |
| `Reconciler.FakeGPUConfigReconciler.DeleteListed` | internal/controller/fakegpuconfig_controller.go:475-482 | one label query and a delete for each object found; errors change nothing of what follows |
| `Reconciler.FakeGPUConfigReconciler.DeleteNamespaced` | internal/controller/fakegpuconfig_controller.go:475-527 | the six label queries in order |
| `Reconciler.FakeGPUConfigReconciler.DeleteAll` | internal/controller/fakegpuconfig_controller.go:562-566 | every name is deleted, whatever the others answer |
| `Reconciler.FakeGPUConfigReconciler.RemoveNodeLabels` | internal/controller/fakegpuconfig_controller.go:529-545 | every node of the pool is sent without the six managed labels; only a failed list is an error |
| `Reconciler.FakeGPUConfigReconciler.RemoveClusterScoped` | internal/controller/fakegpuconfig_controller.go:547-566 | the list of names follows the remembered OpenShift answer |
| `Reconciler.FakeGPUConfigReconciler.ReleaseConfig` | internal/controller/fakegpuconfig_controller.go:568-569 | the finalizer is taken off and a refused update is an error |
| `Reconciler.FakeGPUConfigReconciler.HandleDeletion` | internal/controller/fakegpuconfig_controller.go:469-570 | performs exactly the protocol's deletion program |
| `Reconciler.FakeGPUConfigReconciler.ApplyProfile` | internal/controller/fakegpuconfig_controller.go:121-193 | performs exactly the protocol's apply program |
| `Reconciler.FakeGPUConfigReconciler.ReconcileFound` | internal/controller/fakegpuconfig_controller.go:85-119 | deletion, finalizer, Helm check and profile, branch by branch as the protocol |
| `Reconciler.FakeGPUConfigReconciler.Reconcile` | internal/controller/fakegpuconfig_controller.go:74-194 | for any moves of others and any answers, a run makes exactly the protocol's calls, with its effect, its memory of OpenShift and its result |
| `Reconciler.FakeGPUConfigReconciler.NodeToFakeGPUConfig` | internal/controller/fakegpuconfig_controller.go:613-629 | enqueues exactly the stored custom resources the node matches, and none when they cannot be listed |
| `Assurance.CallsAreHistory` | internal/controller/fakegpuconfig_controller.go:74-194 | the calls of a run are a history of the protocol |
| `Assurance.RunKeepsInv` | internal/controller/fakegpuconfig_controller.go:74-194 | at every call of a run under a fair script the no-orphans invariant holds |
| `Assurance.ReconcileUndisturbed` | internal/controller/fakegpuconfig_controller.go:74-194 | undisturbed, `Reconcile` returns no error and leaves exactly the goal |
| `Assurance.ReconcileAny` | internal/controller/fakegpuconfig_controller.go:74-194 | undisturbed, `Reconcile` for any name leaves what that calls for, goal, cleanup, refusal or nothing, and returns an error exactly for a profile that does not resolve |
| `Assurance.CleanUpUndisturbed` | internal/controller/fakegpuconfig_controller.go:469-570 | undisturbed, `Reconcile` for a custom resource being deleted leaves exactly the cleaned contents |

## Left out

- Erasure.NoTraceLeft: assumes others leave the managed labels alone; a pool label a user put on by hand is removed with the operator's own, because deletion does not tell them apart. `LabelsSafe` covers pools set by hand.
- Safety.NoOrphansEver: needs that no delete or list of objects fails during a cleanup, because the code only logs such failures; `Failures.SurvivesIffRefused` shows what happens otherwise. On OpenShift it needs the question about it answered; `ForgottenAnswerLeavesScc` shows why.
- Erasure.NeverHalfLabelled: needs the same, and that no update that takes labels off is refused; `LabelsSafe` needs neither.
- Integrity.ReferencesHold: says nothing about a custom resource being deleted, whose accounts go before its bindings; assumes others do not remove the operator's objects, and that no stale first read starts a cleanup of what is in use again; `StaleReadDangles` shows why.
- Convergence.RunReachesGoal: assumes that a remembered OpenShift answer is the cluster's and that no Helm release is stored. `CleanupReachesDeleted` assumes neither.
- Other clients are assumed to leave the operator's own finalizer alone; removing it by hand abandons the objects.
- The API server is not part of the repository; `Cluster` states the rules of it that the controller relies on. Objects are stored as sent, without defaulted fields, and a deleted object is gone at once, without finalizers or garbage collection of its own.
- Images, volumes, environment, ports, security contexts and the rules inside roles: constants that carry no property here; object bodies keep selector, pod labels, service account, placement, role reference and subjects.
- The quoting inside the GPU profile's text and its constant device count: the model keeps product, architecture and bytes as values.
- Real YAML parsing of the topology text, which happens in another project: the decoder is the model's own.
- Timestamps and messages of the condition, log messages and wrapped errors.
- Integers are unbounded; the source counts nodes and GPUs in 32 bits.
- Owner references: the source passes an owner to `createOrUpdate` and never uses it, so no object has one.
- Finalizers are a set and List results come in any order the server chooses; the order of finalizers is not modelled.
- The cache behind the client: only the first read of the custom resource can be stale; other reads are of the store.
- Retries, back-off and the work queue beyond "a name may be handed over whenever the worker is idle"; there is one worker.
- Metrics, leader election, flags and certificates in `cmd/main.go`.
