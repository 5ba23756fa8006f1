/**
 * The controller itself, as it is written: methods that call the API server one call after another. Every method is
 * proved to perform exactly the operations of the protocol, whatever other clients do and however calls are answered,
 * so everything proved about the protocol's histories holds of what these methods do.
 */
module Reconciler {
  import opened Basics
  import opened Api
  import opened Resources
  import opened Cluster
  import opened Protocol
  import opened Client
  import opened Script
  import opened Watch

  // ---------------------------------------------------------------- labels in place

  /** Go's node.Labels: nil when the node has no label. */
  function Flat(labels: Option<Labels>): Labels {
    if labels.Some? then labels.value else map[]
  }

  /** The labels a run wants on a node, built up as the controller builds them. */
  method BuildDesiredLabels(cfg: Config) returns (labels: Labels)
    ensures labels == Desired(cfg)
  {
    labels := map[NodePool := cfg.name, DeployDevicePlugin := "true", DeployDcgm := "true"];
    if cfg.cr.spec.mig.Some? && cfg.cr.spec.mig.value.enabled {
      labels := labels[DynamicMig := "true"];
    }
    if cfg.cr.spec.components.Some? && cfg.cr.spec.components.value.dra {
      labels := labels[DeployDra := "true"];
    }
    if cfg.cr.spec.components.Some? && cfg.cr.spec.components.value.computeDomainController {
      labels := labels[DeployComputeDomain := "true"];
    }
  }

  /** The desired labels among `keys` that the node reads differently. */
  function Corrections(l: Labels, desired: Labels, keys: set<LabelKey>): Labels {
    map k | k in desired && k in keys && Read(l, k) != desired[k] :: desired[k]
  }

  /** The labels once the keys in `done` have been seen to. */
  function Corrected(l: Labels, desired: Labels, done: set<LabelKey>): Labels {
    l + Corrections(l, desired, done)
  }

  lemma CorrectionsGrow(l: Labels, desired: Labels, done: set<LabelKey>, k: LabelKey)
    requires k in desired && k !in done
    ensures Corrections(l, desired, done + {k}) ==
      if Read(l, k) != desired[k] then Corrections(l, desired, done)[k := desired[k]] else Corrections(l, desired, done)
    ensures k !in Corrections(l, desired, done)
  {
  }

  lemma CorrectOne(l: Labels, desired: Labels, done: set<LabelKey>, k: LabelKey)
    requires k in desired && k !in done
    ensures Read(Corrected(l, desired, done), k) == Read(l, k)
    ensures Read(l, k) == desired[k] ==>
      Corrections(l, desired, done + {k}) == Corrections(l, desired, done)
      && Corrected(l, desired, done + {k}) == Corrected(l, desired, done)
    ensures Read(l, k) != desired[k]
      ==> Corrected(l, desired, done + {k}) == Corrected(l, desired, done)[k := desired[k]]
    ensures Read(l, k) != desired[k] ==> Corrections(l, desired, done + {k}) != map[]
  {
    hide Corrections;
    CorrectionsGrow(l, desired, done, k);
    var some := Corrections(l, desired, done);
    if Read(l, k) != desired[k] {
      assert k in some[k := desired[k]];
      assert l + some[k := desired[k]] == (l + some)[k := desired[k]];
    }
  }

  lemma CorrectAll(l: Labels, desired: Labels)
    ensures Corrections(l, desired, desired.Keys) == WrongLabels(l, desired)
    ensures Corrections(l, desired, {}) == map[] && Corrected(l, desired, {}) == l
    ensures Corrected(l, desired, desired.Keys) == Relabel(l, desired)
  {
  }

  /** The label loop, for any order of the desired labels, with a node map that may be nil. */
  method RelabelInPlace(labels: Option<Labels>, desired: Labels) returns (updated: Option<Labels>, needsUpdate: bool)
    ensures Flat(updated) == Relabel(Flat(labels), desired)
    ensures needsUpdate <==> NeedsUpdate(Flat(labels), desired)
    ensures !needsUpdate ==> updated == labels
  {
    hide Corrected, Corrections, WrongLabels, Relabel;
    updated, needsUpdate := labels, false;
    ghost var before := Flat(labels);
    var keys: set<LabelKey>, done: set<LabelKey> := desired.Keys, {};
    CorrectAll(before, desired);
    while keys != {}
      invariant keys !! done && keys + done == desired.Keys
      invariant Flat(updated) == Corrected(before, desired, done)
      invariant needsUpdate <==> Corrections(before, desired, done) != map[]
      invariant !needsUpdate ==> updated == labels
      decreases |keys|
    {
      var k :| k in keys;
      CorrectOne(before, desired, done, k);
      keys, done := keys - {k}, done + {k};
      if Read(Flat(updated), k) != desired[k] {
        if updated == None {
          updated := Some(map[]);
        }
        updated := Some(updated.value[k := desired[k]]);
        needsUpdate := true;
      }
    }
    assert done == desired.Keys;
  }

  lemma {:induction false} CountReadyAppend(seen: seq<Seen>, one: Seen)
    ensures CountReady(seen + [one]) == CountReady(seen) + if Read(one.labels, DeployDevicePlugin) == "true" then 1
      else 0
    decreases |seen|
  {
    if seen == [] {
      assert [one][1..] == [];
    } else {
      assert (seen + [one])[0] == seen[0] && (seen + [one])[1..] == seen[1..] + [one];
      CountReadyAppend(seen[1..], one);
    }
  }

  method CountReadyNodes(seen: seq<Seen>) returns (ready: nat)
    ensures ready == CountReady(seen)
  {
    ready := 0;
    for i := 0 to |seen|
      invariant ready == CountReady(seen[..i])
    {
      CountReadyAppend(seen[..i], seen[i]);
      assert seen[..i + 1] == seen[..i] + [seen[i]];
      if Read(seen[i].labels, DeployDevicePlugin) == "true" {
        ready := ready + 1;
      }
    }
    assert seen[..|seen|] == seen;
  }

  // ---------------------------------------------------------------- the controller

  class FakeGPUConfigReconciler {
    const client: ApiServer
    const namespace: string
    var isOpenShift: Option<bool>

    constructor (client: ApiServer, namespace: string)
      ensures this.client == client && this.namespace == namespace && isOpenShift == None
    {
      this.client := client;
      this.namespace := namespace;
      isOpenShift := None;
    }

    /** This controller and its cluster as a state of the protocol. */
    function State(todo: seq<Op>, failed: bool): Sys
      reads this, client
    {
      Sys(client.cluster, namespace, isOpenShift, todo, failed)
    }

    /** From state `s` at call `n`, the calls made so far have led here, with `todo` left. */
    ghost predicate Tracks(s: Sys, n: nat, todo: seq<Op>, failed: bool)
      reads this, client
    {
      n <= client.calls && RunTo(client.script, s, n, client.calls) == State(todo, failed)
    }

    method CreateOrUpdate(m: Manifest, ghost owner: string, ghost s: Sys, ghost n: nat, ghost rest: seq<Op>)
        returns (failed: bool)
      requires Tracks(s, n, [Fetch(owner, m)] + rest, false)
      modifies client
      ensures Tracks(s, n, if failed then [] else rest, failed)
    {
      hide Perform, RunTo, ApplyMoves;
      Extend(client.script, s, n, client.calls, client.cluster, namespace, isOpenShift, [Fetch(owner, m)] + rest);
      StepFetch(Sys(client.Now(), namespace, isOpenShift, [Fetch(owner, m)] + rest, false), client.Next(), owner, m,
        rest);
      var rv, reply := client.Get(m.key);
      if reply == NotFound {
        Extend(client.script, s, n, client.calls, client.cluster, namespace, isOpenShift, [Create(owner, m)] + rest);
        StepWrite(Sys(client.Now(), namespace, isOpenShift, [Create(owner, m)] + rest, false), client.Next(),
          Create(owner, m), rest, CreateObject(client.Now(), m.key, m.obj));
        reply := client.Create(m);
        return reply != Ok;
      }
      if reply != Ok {
        return true;
      }
      Extend(client.script, s, n, client.calls, client.cluster, namespace, isOpenShift, [Replace(owner, m, rv)] + rest);
      StepWrite(Sys(client.Now(), namespace, isOpenShift, [Replace(owner, m, rv)] + rest, false), client.Next(),
        Replace(owner, m, rv), rest, UpdateObject(client.Now(), m.key, m.obj, rv));
      reply := client.Update(m, rv);
      return reply != Ok;
    }

    /** Applies the manifests one after another and stops at the first failure. */
    method CreateOrUpdateAll(ms: seq<Manifest>, ghost owner: string, ghost s: Sys, ghost n: nat, ghost rest: seq<Op>)
      returns (failed: bool)
      requires Tracks(s, n, Fetches(owner, ms) + rest, false)
      modifies client
      ensures Tracks(s, n, if failed then [] else rest, failed)
    {
      hide Perform, RunTo, Fetches;
      FetchesNone(owner, ms, rest);
      for i := 0 to |ms|
        invariant Tracks(s, n, Fetches(owner, ms[i..]) + rest, false)
      {
        FetchesFrom(owner, ms, i, rest);
        failed := CreateOrUpdate(ms[i], owner, s, n, Fetches(owner, ms[i + 1..]) + rest);
        if failed { return; }
      }
      failed := false;
    }

    /** Asks once; a failed request counts as no, and the answer is remembered. */
    method DetectOpenShift() returns (openShift: bool)
      modifies this`isOpenShift, client
      ensures isOpenShift == Some(openShift)
      ensures old(isOpenShift).Some? ==>
        isOpenShift == old(isOpenShift) && client.calls == old(client.calls) && client.cluster == old(client.cluster)
      ensures old(isOpenShift).None? ==>
        && client.calls == old(client.calls) + 1 && client.cluster == old(client.Now())
        && openShift == (old(client.Next()).fault == NoFault && client.cluster.openShift)
    {
      if isOpenShift.Some? {
        return isOpenShift.value;
      }
      var reply := client.ResourcesForScc();
      openShift := reply == Ok;
      isOpenShift := Some(openShift);
    }

    method ReconcileRBAC(cfg: Config, ghost s: Sys, ghost n: nat, ghost rest: seq<Op>) returns (failed: bool)
      requires Tracks(s, n, Fetches(cfg.name, RbacManifests(cfg.name, namespace))
        + ((match isOpenShift
            case None => [Probe(cfg)]
            case Some(b) => Fetches(cfg.name, Only(b, SccManifests(cfg.name, namespace)))) + rest), false)
      modifies this`isOpenShift, client
      ensures Tracks(s, n, if failed then [] else rest, failed)
    {
      hide Perform, RunTo, ApplyMoves, Fetches, AccountManifest, RoleManifest, BindingManifest, SccManifests,
        RbacManifests;
      var x := cfg.name;
      ghost var later := (match isOpenShift
        case None => [Probe(cfg)]
        case Some(b) => Fetches(x, Only(b, SccManifests(x, namespace)))) + rest;
      failed := ReconcileAccountsAndRoles(cfg, s, n, later);
      if failed { return; }
      if isOpenShift.None? {
        Extend(client.script, s, n, client.calls, client.cluster, namespace, isOpenShift, later);
        StepProbe(Sys(client.Now(), namespace, isOpenShift, later, false), client.Next(), cfg, rest);
      }
      var openShift := DetectOpenShift();
      assert Tracks(s, n, Fetches(x, Only(openShift, SccManifests(x, namespace))) + rest, false);
      if openShift {
        var scc := BuildSccManifests(x, namespace);
        failed := CreateOrUpdateAll(scc, x, s, n, rest);
      } else {
        FetchesNone(x, [], rest);
      }
    }

    method ReconcileAccountsAndRoles(cfg: Config, ghost s: Sys, ghost n: nat, ghost rest: seq<Op>)
        returns (failed: bool)
      requires Tracks(s, n, Fetches(cfg.name, RbacManifests(cfg.name, namespace)) + rest, false)
      modifies client
      ensures Tracks(s, n, if failed then [] else rest, failed)
    {
      hide Perform, RunTo, Fetches, AccountManifest, RoleAndBinding;
      var x := cfg.name;
      ghost var accounts := Accounts(x, namespace);
      ghost var dp, su, me := RoleAndBinding(x, DevicePlugin, namespace), RoleAndBinding(x, StatusUpdater, namespace),
        RoleAndBinding(x, MetricsExporter, namespace);
      FetchesBoth(x, accounts + dp + su, me, rest);
      FetchesBoth(x, accounts + dp, su, Fetches(x, me) + rest);
      FetchesBoth(x, accounts, dp, Fetches(x, su) + (Fetches(x, me) + rest));
      ghost var roles := Fetches(x, dp) + (Fetches(x, su) + (Fetches(x, me) + rest));
      var components := [DevicePlugin, StatusUpdater, MetricsExporter, TopologyServer];
      FetchesNone(x, accounts, roles);
      for i := 0 to |components|
        invariant Tracks(s, n, Fetches(x, accounts[i..]) + roles, false)
      {
        FetchesFrom(x, accounts, i, roles);
        failed := CreateOrUpdate(AccountManifest(x, components[i], namespace), x, s, n,
          Fetches(x, accounts[i + 1..]) + roles);
        if failed { return; }
      }
      failed := CreateOrUpdateAll(RoleAndBinding(x, DevicePlugin, namespace), x, s, n,
        Fetches(x, su) + (Fetches(x, me) + rest));
      if failed { return; }
      failed := CreateOrUpdateAll(RoleAndBinding(x, StatusUpdater, namespace), x, s, n, Fetches(x, me) + rest);
      if failed { return; }
      failed := CreateOrUpdateAll(RoleAndBinding(x, MetricsExporter, namespace), x, s, n, rest);
    }

    /** The config maps and the device plugin, and then what the spec's switches ask for. */
    method ReconcileWorkloads(cfg: Config, profile: GPUProfile, ghost s: Sys, ghost n: nat, ghost rest: seq<Op>)
        returns (failed: bool)
      requires Tracks(s, n, Fetches(cfg.name, WorkloadManifests(cfg.name, cfg.cr.spec, profile, namespace)) + rest,
        false)
      modifies client
      ensures Tracks(s, n, if failed then [] else rest, failed)
    {
      hide Perform, RunTo, Fetches, WorkloadManifests, OptionalWorkloads, ExtraWorkloads, Services,
        RuntimeClassManifest,
        TopologyConfigMap, GPUProfileConfigMap, DevicePluginDaemonSet;
      var x, spec := cfg.name, cfg.cr.spec;
      WorkloadsInOrder(x, spec, profile, namespace, rest);
      ghost var runtime := Fetches(x, [RuntimeClassManifest(x)]) + rest;
      ghost var extra := Fetches(x, ExtraWorkloads(x, spec, namespace)) + runtime;
      ghost var services := Fetches(x, Services(x, namespace)) + extra;
      ghost var optional := Fetches(x, OptionalWorkloads(x, spec, namespace)) + services;
      ghost var first := ConfigAndDevicePlugin(x, spec, profile, namespace);
      FetchesNone(x, first, optional);
      FetchesFrom(x, first, 0, optional);
      failed := CreateOrUpdate(TopologyConfigMap(x, spec, profile, namespace), x, s, n,
        Fetches(x, first[1..]) + optional);
      if failed { return; }
      FetchesFrom(x, first, 1, optional);
      failed := CreateOrUpdate(GPUProfileConfigMap(x, profile, namespace), x, s, n, Fetches(x, first[2..]) + optional);
      if failed { return; }
      FetchesFrom(x, first, 2, optional);
      failed := CreateOrUpdate(DevicePluginDaemonSet(x, namespace), x, s, n, Fetches(x, first[3..]) + optional);
      if failed { return; }
      failed := ReconcileOptional(cfg, s, n, services);
      if failed { return; }
      failed := CreateOrUpdateAll(Services(x, namespace), x, s, n, extra);
      if failed { return; }
      failed := ReconcileExtra(cfg, s, n, runtime);
      if failed { return; }
      failed := CreateOrUpdateAll([RuntimeClassManifest(x)], x, s, n, rest);
    }

    method ReconcileOptional(cfg: Config, ghost s: Sys, ghost n: nat, ghost rest: seq<Op>) returns (failed: bool)
      requires Tracks(s, n, Fetches(cfg.name, OptionalWorkloads(cfg.name, cfg.cr.spec, namespace)) + rest, false)
      modifies client
      ensures Tracks(s, n, if failed then [] else rest, failed)
    {
      hide Perform, RunTo, Fetches, StatusUpdaterDeployment, MetricsExporterDaemonSet, TopologyServerDeployment;
      var x, components := cfg.name, cfg.cr.spec.components;
      var su, me, ts := StatusUpdaterDeployment(x, namespace), MetricsExporterDaemonSet(x, namespace),
        TopologyServerDeployment(x, namespace);
      var a := components.None? || components.value.statusUpdater;
      var b := components.None? || components.value.metricsExporter;
      var c := components.None? || components.value.topologyServer;
      ghost var last := Fetches(x, Only(c, [ts])) + rest;
      ghost var middle := Fetches(x, Only(b, [me])) + last;
      FetchesBoth(x, Only(a, [su]) + Only(b, [me]), Only(c, [ts]), rest);
      FetchesBoth(x, Only(a, [su]), Only(b, [me]), last);
      FetchesOnly(x, a, su, middle);
      FetchesOnly(x, b, me, last);
      FetchesOnly(x, c, ts, rest);
      failed := false;
      if components.None? || components.value.statusUpdater {
        failed := CreateOrUpdate(su, x, s, n, middle);
        if failed { return; }
      }
      if components.None? || components.value.metricsExporter {
        failed := CreateOrUpdate(me, x, s, n, last);
        if failed { return; }
      }
      if components.None? || components.value.topologyServer {
        failed := CreateOrUpdate(ts, x, s, n, rest);
      }
    }

    method ReconcileExtra(cfg: Config, ghost s: Sys, ghost n: nat, ghost rest: seq<Op>) returns (failed: bool)
      requires Tracks(s, n, Fetches(cfg.name, ExtraWorkloads(cfg.name, cfg.cr.spec, namespace)) + rest, false)
      modifies client
      ensures Tracks(s, n, if failed then [] else rest, failed)
    {
      hide Perform, RunTo, Fetches, MigFakerDaemonSet, DraPluginDaemonSet, ComputeDomainControllerDeployment,
        ComputeDomainDraDaemonSet;
      var x, spec := cfg.name, cfg.cr.spec;
      var mig, dra := MigFakerDaemonSet(x, namespace), DraPluginDaemonSet(x, namespace);
      var controller, domains := ComputeDomainControllerDeployment(x, namespace),
        ComputeDomainDraDaemonSet(x, namespace);
      ghost var pair := Only(spec.ComputeDomains(), [controller, domains]);
      ghost var last := Fetches(x, pair) + rest;
      ghost var middle := Fetches(x, Only(spec.Dra(), [dra])) + last;
      FetchesBoth(x, Only(spec.MigEnabled(), [mig]) + Only(spec.Dra(), [dra]), pair, rest);
      FetchesBoth(x, Only(spec.MigEnabled(), [mig]), Only(spec.Dra(), [dra]), last);
      FetchesOnly(x, spec.MigEnabled(), mig, middle);
      FetchesOnly(x, spec.Dra(), dra, last);
      FetchesPair(x, controller, domains, rest);
      FetchesNone(x, [], rest);
      failed := false;
      if spec.mig.Some? && spec.mig.value.enabled {
        failed := CreateOrUpdate(mig, x, s, n, middle);
        if failed { return; }
      }
      if spec.components.Some? && spec.components.value.dra {
        failed := CreateOrUpdate(dra, x, s, n, last);
        if failed { return; }
      }
      if spec.components.Some? && spec.components.value.computeDomainController {
        failed := CreateOrUpdate(controller, x, s, n, [Fetch(x, domains)] + rest);
        if failed { return; }
        failed := CreateOrUpdate(domains, x, s, n, rest);
      }
    }

    method ReconcileNodeLabels(cfg: Config, ghost s: Sys, ghost n: nat, ghost rest: seq<Op>) returns (failed: bool)
      requires Tracks(s, n, [ListSelected(cfg)] + rest, false)
      modifies client
      ensures Tracks(s, n, if failed then [] else rest, failed)
    {
      hide Perform, RunTo, ApplyMoves, ListNodes, LabelOps, Relabel, NeedsUpdate, Desired;
      Extend(client.script, s, n, client.calls, client.cluster, namespace, isOpenShift, [ListSelected(cfg)] + rest);
      StepList(Sys(client.Now(), namespace, isOpenShift, [ListSelected(cfg)] + rest, false), client.Next(),
        ListSelected(cfg), rest,
        LabelOps(ListNodes(client.Now(), NodeListOption(cfg.name, cfg.cr.spec), client.Next().order), cfg));
      var nodes, reply := client.ListMatchingNodes(NodeListOption(cfg.name, cfg.cr.spec));
      if reply != Ok {
        return true;
      }
      assert nodes[0..] == nodes;
      for i := 0 to |nodes|
        invariant Tracks(s, n, LabelOps(nodes[i..], cfg) + rest, false)
      {
        var labels := BuildDesiredLabels(cfg);
        var current := if nodes[i].labels == map[] then None else Some(nodes[i].labels);
        var updated, needsUpdate := RelabelInPlace(current, labels);
        LabelsFrom(cfg, nodes, i, rest);
        ghost var later := LabelOps(nodes[i + 1..], cfg) + rest;
        if needsUpdate {
          ghost var op := LabelNode(nodes[i], cfg);
          Extend(client.script, s, n, client.calls, client.cluster, namespace, isOpenShift, [op] + later);
          StepWrite(Sys(client.Now(), namespace, isOpenShift, [op] + later, false), client.Next(), op, later,
            UpdateNode(client.Now(), nodes[i].name, nodes[i].rv, Relabel(nodes[i].labels, labels)));
          reply := client.UpdateNodeLabels(nodes[i], Flat(updated));
          if reply != Ok {
            return true;
          }
        } else {
          assert [] + later == later;
        }
      }
      assert nodes[|nodes|..] == [] && LabelOps([], cfg) + rest == rest by { NoLabels(cfg, rest); }
      failed := false;
    }

    method ReconcileNodeTopologyConfigMaps(cfg: Config, profile: GPUProfile, ghost s: Sys, ghost n: nat,
        ghost rest: seq<Op>)
      returns (failed: bool)
      requires Tracks(s, n, [ListPool(cfg, profile)] + rest, false)
      modifies client
      ensures Tracks(s, n, if failed then [] else rest, failed)
    {
      hide Perform, RunTo, ApplyMoves, ListNodes, Fetches, NodeTopologyConfigMap;
      var x, spec := cfg.name, cfg.cr.spec;
      Extend(client.script, s, n, client.calls, client.cluster, namespace, isOpenShift,
        [ListPool(cfg, profile)] + rest);
      StepList(Sys(client.Now(), namespace, isOpenShift, [ListPool(cfg, profile)] + rest, false), client.Next(),
        ListPool(cfg, profile), rest,
        Fetches(x, PoolManifests(ListNodes(client.Now(), PoolLabels(x), client.Next().order), spec, profile,
          namespace)));
      var nodes, reply := client.ListMatchingNodes(map[NodePool := x]);
      if reply != Ok {
        return true;
      }
      ghost var ms := PoolManifests(nodes, spec, profile, namespace);
      FetchesNone(x, ms, rest);
      for i := 0 to |nodes|
        invariant Tracks(s, n, Fetches(x, ms[i..]) + rest, false)
      {
        FetchesFrom(x, ms, i, rest);
        var m := BuildNodeTopologyConfigMap(nodes[i].name, spec, profile, namespace);
        failed := CreateOrUpdate(m, x, s, n, Fetches(x, ms[i + 1..]) + rest);
        if failed { return; }
      }
      failed := false;
    }

    method SaveConfigStatus(cfg: Config, status: Status, ghost s: Sys, ghost n: nat) returns (reply: Reply)
      requires Tracks(s, n, [SaveStatus(cfg, status)], false)
      modifies client
      ensures Tracks(s, n, [], match status.condition
        case Some(Condition(_, HelmConflict)) => false
        case Some(Condition(_, InvalidProfile)) => true
        case _ => reply != Ok)
    {
      hide Perform, RunTo, ApplyMoves, UpdateStatus;
      Extend(client.script, s, n, client.calls, client.cluster, namespace, isOpenShift, [SaveStatus(cfg, status)]);
      StepStatus(Sys(client.Now(), namespace, isOpenShift, [SaveStatus(cfg, status)], false), client.Next(), cfg,
        status);
      SentStatus(client.Now(), cfg, status);
      reply := client.UpdateConfigStatus(cfg.(cr := cfg.cr.(status := status)));
    }

    method UpdateFinalStatus(cfg: Config, profile: GPUProfile, ghost s: Sys, ghost n: nat) returns (failed: bool)
      requires Tracks(s, n, [CountNodes(cfg, profile)], false)
      modifies client
      ensures Tracks(s, n, [], failed)
    {
      hide Perform, RunTo, ApplyMoves, ListNodes;
      ghost var op := CountNodes(cfg, profile);
      assert [op] == [op] + [];
      Extend(client.script, s, n, client.calls, client.cluster, namespace, isOpenShift, [op]);
      StepList(Sys(client.Now(), namespace, isOpenShift, [op], false), client.Next(), op, [],
        [SaveStatus(cfg, FinalStatus(cfg.cr.status,
        ListNodes(client.Now(), NodeListOption(cfg.name, cfg.cr.spec), client.Next().order), cfg.cr.spec, profile))]);
      var nodes, reply := client.ListMatchingNodes(NodeListOption(cfg.name, cfg.cr.spec));
      if reply != Ok {
        return true;
      }
      var status := cfg.cr.status.(totalNodes := |nodes|);
      var ready := CountReadyNodes(nodes);
      status := status.(readyNodes := ready);
      status := status.(gpuProfile := profile.name);
      status := status.(gpuCountPerNode := cfg.cr.spec.gpuCount);
      status := WithCondition(status, true, Reconciled);
      assert status == FinalStatus(cfg.cr.status, nodes, cfg.cr.spec, profile);
      assert [SaveStatus(cfg, status)] + [] == [SaveStatus(cfg, status)];
      reply := SaveConfigStatus(cfg, status, s, n);
      return reply != Ok;
    }

    method DetectHelmConflict(cfg: Config, ghost s: Sys, ghost n: nat) returns (conflict: bool)
      requires Tracks(s, n, [FindHelmSecrets(cfg)], false)
      modifies client
      ensures Tracks(s, n, if conflict then HelmStatus(cfg) else AfterHelm(cfg, namespace, isOpenShift), false)
    {
      hide Perform, RunTo, ApplyMoves, AfterHelm;
      Extend(client.script, s, n, client.calls, client.cluster, namespace, isOpenShift, [FindHelmSecrets(cfg)]);
      StepHelm(Sys(client.Now(), namespace, isOpenShift, [FindHelmSecrets(cfg)], false), client.Next(), cfg);
      var secrets, reply := client.ListEverywhere(Secret, map[HelmOwner := "helm", HelmName := "gpu-operator"]);
      if reply != Ok {
        return false;
      }
      if |secrets| > 0 {
        assert secrets[0] in secrets && IsHelmSecret(secrets[0], client.cluster.objs[secrets[0]]);
        return true;
      }
      Extend(client.script, s, n, client.calls, client.cluster, namespace, isOpenShift, [FindHelmTopology(cfg)]);
      StepHelm(Sys(client.Now(), namespace, isOpenShift, [FindHelmTopology(cfg)], false), client.Next(), cfg);
      var maps;
      maps, reply := client.ListEverywhere(ConfigMap, map[AppManagedBy := "Helm"]);
      if reply != Ok {
        return false;
      }
      for i := 0 to |maps|
        invariant forall j | 0 <= j < i :: maps[j].name != "topology"
      {
        if maps[i].name == "topology" {
          assert maps[i] in maps && IsHelmTopology(maps[i], client.cluster.objs[maps[i]]);
          return true;
        }
      }
      assert !HelmTopologyStored(client.cluster);
      return false;
    }

    // -------------------------------------------------------------- deletion

    method DeleteListed(cfg: Config, kind: Kind, selector: Labels, ghost s: Sys, ghost n: nat, ghost rest: seq<Op>)
      requires Tracks(s, n, [Sweep(cfg, kind, selector)] + rest, false)
      modifies client
      ensures Tracks(s, n, rest, false)
    {
      hide Perform, RunTo, ApplyMoves, ObjectNames, Removes;
      Extend(client.script, s, n, client.calls, client.cluster, namespace, isOpenShift,
        [Sweep(cfg, kind, selector)] + rest);
      StepSweep(Sys(client.Now(), namespace, isOpenShift, [Sweep(cfg, kind, selector)] + rest, false), client.Next(),
        cfg, kind, selector, rest);
      var names, reply := client.List(kind, namespace, selector);
      if reply == Ok {
        DeleteAll(cfg, Keys(kind, namespace, names), s, n, rest);
      } else {
        assert [] + rest == rest;
      }
    }

    /** Deletes each object; a failure is only logged. */
    method DeleteAll(cfg: Config, keys: seq<Key>, ghost s: Sys, ghost n: nat, ghost rest: seq<Op>)
      requires Tracks(s, n, Removes(cfg, keys) + rest, false)
      modifies client
      ensures Tracks(s, n, rest, false)
    {
      hide Perform, RunTo, ApplyMoves, Removes;
      assert keys[0..] == keys;
      for i := 0 to |keys|
        invariant Tracks(s, n, Removes(cfg, keys[i..]) + rest, false)
      {
        RemovesFrom(cfg, keys, i, rest);
        ghost var op, later := Remove(cfg, keys[i]), Removes(cfg, keys[i + 1..]) + rest;
        Extend(client.script, s, n, client.calls, client.cluster, namespace, isOpenShift, [op] + later);
        StepAnyway(Sys(client.Now(), namespace, isOpenShift, [op] + later, false), client.Next(), op, later,
          DeleteObject(client.Now(), keys[i]));
        var _ := client.Delete(keys[i]);
      }
      assert keys[|keys|..] == [] && Removes(cfg, []) + rest == rest by { NoRemoves(cfg, rest); }
    }

    method RemoveNodeLabels(cfg: Config, ghost s: Sys, ghost n: nat, ghost rest: seq<Op>) returns (failed: bool)
      requires Tracks(s, n, [ListPooled(cfg)] + rest, false)
      modifies client
      ensures Tracks(s, n, if failed then [] else rest, failed)
    {
      hide Perform, RunTo, ApplyMoves, ListNodes, UnlabelOps;
      Extend(client.script, s, n, client.calls, client.cluster, namespace, isOpenShift, [ListPooled(cfg)] + rest);
      StepList(Sys(client.Now(), namespace, isOpenShift, [ListPooled(cfg)] + rest, false), client.Next(),
        ListPooled(cfg), rest,
        UnlabelOps(ListNodes(client.Now(), PoolLabels(cfg.name), client.Next().order), cfg));
      var nodes, reply := client.ListMatchingNodes(map[NodePool := cfg.name]);
      if reply != Ok {
        return true;
      }
      assert nodes[0..] == nodes;
      for i := 0 to |nodes|
        invariant Tracks(s, n, UnlabelOps(nodes[i..], cfg) + rest, false)
      {
        var labels := nodes[i].labels - {NodePool};
        labels := labels - {DeployDevicePlugin};
        labels := labels - {DeployDcgm};
        labels := labels - {DynamicMig};
        labels := labels - {DeployDra};
        labels := labels - {DeployComputeDomain};
        assert labels == nodes[i].labels - MANAGED;
        UnlabelsFrom(cfg, nodes, i, rest);
        ghost var op, later := UnlabelNode(nodes[i], cfg), UnlabelOps(nodes[i + 1..], cfg) + rest;
        Extend(client.script, s, n, client.calls, client.cluster, namespace, isOpenShift, [op] + later);
        StepAnyway(Sys(client.Now(), namespace, isOpenShift, [op] + later, false), client.Next(), op, later,
          UpdateNode(client.Now(), nodes[i].name, nodes[i].rv, labels));
        reply := client.UpdateNodeLabels(nodes[i], labels);
      }
      assert nodes[|nodes|..] == [] && UnlabelOps([], cfg) + rest == rest by { NoUnlabels(cfg, rest); }
      failed := false;
    }

    method RemoveClusterScoped(cfg: Config, ghost s: Sys, ghost n: nat, ghost rest: seq<Op>)
      requires Tracks(s, n, ClusterCleanup(cfg, isOpenShift) + rest, false)
      modifies this`isOpenShift, client
      ensures Tracks(s, n, rest, false)
    {
      hide Perform, RunTo, ApplyMoves, RoleKey, BindingKey, Removes;
      var x := cfg.name;
      var keys := [RoleKey(x, DevicePlugin), BindingKey(x, DevicePlugin), RoleKey(x, StatusUpdater),
        BindingKey(x, StatusUpdater),
                   RoleKey(x, MetricsExporter), BindingKey(x, MetricsExporter), RUNTIME_KEY];
      ghost var todo := ClusterCleanup(cfg, isOpenShift) + rest;
      if isOpenShift.None? {
        Extend(client.script, s, n, client.calls, client.cluster, namespace, isOpenShift, todo);
        StepProbeForRemoval(Sys(client.Now(), namespace, isOpenShift, todo, false), client.Next(), cfg, rest);
      }
      var openShift := DetectOpenShift();
      if openShift {
        keys := keys + [RoleKey(x, Scc), BindingKey(x, Scc)];
      }
      assert keys == ClusterKeys(x, openShift);
      DeleteAll(cfg, keys, s, n, rest);
    }

    /** The six label queries and what they find. */
    method DeleteNamespaced(cfg: Config, ghost s: Sys, ghost n: nat, ghost rest: seq<Op>)
      requires Tracks(s, n, Sweeps(cfg) + rest, false)
      modifies client
      ensures Tracks(s, n, rest, false)
    {
      hide Perform, RunTo, ApplyMoves, Sweeps;
      var byInstance := map[AppInstance := cfg.name];
      ghost var nodes := [Sweep(cfg, ConfigMap, NODE_TOPOLOGY)] + rest;
      ghost var maps := [Sweep(cfg, ConfigMap, byInstance)] + nodes;
      ghost var accounts := [Sweep(cfg, ServiceAccount, byInstance)] + maps;
      ghost var services := [Sweep(cfg, Service, byInstance)] + accounts;
      ghost var deployments := [Sweep(cfg, Deployment, byInstance)] + services;
      SweepsInOrder(cfg, rest);
      DeleteListed(cfg, DaemonSet, byInstance, s, n, deployments);
      DeleteListed(cfg, Deployment, byInstance, s, n, services);
      DeleteListed(cfg, Service, byInstance, s, n, accounts);
      DeleteListed(cfg, ServiceAccount, byInstance, s, n, maps);
      DeleteListed(cfg, ConfigMap, byInstance, s, n, nodes);
      DeleteListed(cfg, ConfigMap, map[NodeTopology := "true"], s, n, rest);
    }

    method ReleaseConfig(cfg: Config, ghost s: Sys, ghost n: nat) returns (failed: bool)
      requires Tracks(s, n, [DropFinalizer(cfg)], false)
      modifies client
      ensures Tracks(s, n, [], failed)
    {
      hide Perform, RunTo, ApplyMoves, UpdateCR;
      Extend(client.script, s, n, client.calls, client.cluster, namespace, isOpenShift, [DropFinalizer(cfg)]);
      StepDropFinalizer(Sys(client.Now(), namespace, isOpenShift, [DropFinalizer(cfg)], false), client.Next(), cfg);
      var released := cfg.(cr := cfg.cr.(finalizers := cfg.cr.finalizers - {FINALIZER}));
      var _, reply := client.UpdateConfig(released);
      failed := reply != Ok;
    }

    method HandleDeletion(cfg: Config, ghost s: Sys, ghost n: nat) returns (failed: bool)
      requires Tracks(s, n, DeleteProgram(cfg, isOpenShift), false)
      modifies this`isOpenShift, client
      ensures Tracks(s, n, [], failed)
    {
      hide RunTo, ApplyMoves, ClusterCleanup, DeleteProgram, Sweeps;
      ghost var last := [DropFinalizer(cfg)];
      ghost var cluster := ClusterCleanup(cfg, isOpenShift) + last;
      DeleteInOrder(cfg, isOpenShift);
      DeleteNamespaced(cfg, s, n, [ListPooled(cfg)] + cluster);
      failed := RemoveNodeLabels(cfg, s, n, cluster);
      if failed { return; }
      RemoveClusterScoped(cfg, s, n, last);
      failed := ReleaseConfig(cfg, s, n);
    }

    // -------------------------------------------------------------- a run

    method ApplyProfile(cfg: Config, profile: GPUProfile, ghost s: Sys, ghost n: nat) returns (failed: bool)
      requires Tracks(s, n, ApplyProgram(cfg, profile, namespace, isOpenShift), false)
      modifies this`isOpenShift, client
      ensures Tracks(s, n, [], failed)
    {
      hide Perform, RunTo, ApplyMoves, RbacManifests, SccManifests, WorkloadManifests, Fetches, ApplyProgram;
      ghost var count := [CountNodes(cfg, profile)];
      ghost var nodes := [ListSelected(cfg)] + ([ListPool(cfg, profile)] + count);
      ghost var work := Fetches(cfg.name, WorkloadManifests(cfg.name, cfg.cr.spec, profile, namespace)) + nodes;
      ApplyInOrder(cfg, profile, namespace, isOpenShift);
      failed := ReconcileRBAC(cfg, s, n, work);
      if failed { return; }
      failed := ReconcileWorkloads(cfg, profile, s, n, nodes);
      if failed { return; }
      failed := ReconcileNodeLabels(cfg, s, n, [ListPool(cfg, profile)] + count);
      if failed { return; }
      failed := ReconcileNodeTopologyConfigMaps(cfg, profile, s, n, count);
      if failed { return; }
      failed := UpdateFinalStatus(cfg, profile, s, n);
    }

    /**
     * One run, for any script of other clients' moves and of answers. The calls it makes are exactly those of the
     * protocol's run for the name it was given, down to the order, and so are its effect and its result.
     */
    method Reconcile(name: string) returns (failed: bool)
      modifies this`isOpenShift, client
      ensures client.calls >= old(client.calls)
      ensures RunTo(client.script, old(State([Begin(name)], false)), old(client.calls), client.calls)
        == State([], failed)
    {
      hide Perform, RunTo, ApplyMoves, GetCR, UpdateCR, DeleteProgram, ApplyProgram, AfterHelm;
      ghost var s, n := State([Begin(name)], false), client.calls;
      assert Tracks(s, n, [Begin(name)], false) by { RunToHere(client.script, s, n); }
      Extend(client.script, s, n, client.calls, client.cluster, namespace, isOpenShift, [Begin(name)]);
      StepGet(Sys(client.Now(), namespace, isOpenShift, [Begin(name)], false), client.Next(), name);
      var found, reply := client.GetConfig(name);
      if found.None? {
        return reply != NotFound;
      }
      failed := ReconcileFound(found.value, s, n);
    }

    method ReconcileFound(found: Config, ghost s: Sys, ghost n: nat) returns (failed: bool)
      requires Tracks(s, n, Route(found, isOpenShift), false)
      modifies this`isOpenShift, client
      ensures Tracks(s, n, [], failed)
    {
      hide Perform, RunTo, ApplyMoves, UpdateCR, DeleteProgram, ApplyProgram, ResolveProfile;
      var cfg, reply := found, Ok;
      if cfg.cr.deleting {
        failed := HandleDeletion(cfg, s, n);
        return;
      }
      if FINALIZER !in cfg.cr.finalizers {
        Extend(client.script, s, n, client.calls, client.cluster, namespace, isOpenShift, [SaveFinalizer(cfg)]);
        StepSaveFinalizer(Sys(client.Now(), namespace, isOpenShift, [SaveFinalizer(cfg)], false), client.Next(), cfg);
        cfg, reply := client.UpdateConfig(cfg.(cr := cfg.cr.(finalizers := cfg.cr.finalizers + {FINALIZER})));
        if reply != Ok {
          return true;
        }
      }
      var conflict := DetectHelmConflict(cfg, s, n);
      if conflict {
        reply := SaveConfigStatus(cfg, WithCondition(cfg.cr.status, false, HelmConflict), s, n);
        return false;
      }
      var profile := ResolveProfile(cfg.cr.spec);
      if profile.None? {
        reply := SaveConfigStatus(cfg, WithCondition(cfg.cr.status, false, InvalidProfile), s, n);
        return true;
      }
      failed := ApplyProfile(cfg, profile.value, s, n);
    }

    // -------------------------------------------------------------- the watch

    /** The custom resources a node's event enqueues; none when they cannot be listed. */
    method NodeToFakeGPUConfig(labels: Labels) returns (requests: seq<string>)
      modifies client
      ensures client.calls == old(client.calls) + 1 && client.cluster == old(client.Now())
      ensures old(client.Next()).fault != NoFault ==> requests == []
      ensures old(client.Next()).fault == NoFault ==> forall x :: x in requests <==>
        x in client.cluster.crs && NodeMatches(labels, x, client.cluster.crs[x].spec)
    {
      hide NodeMatches;
      var cfgs, reply := client.ListConfigs();
      if reply != Ok {
        return [];
      }
      requests := RequestsFor(cfgs, labels);
      forall x ensures x in requests
        <==> x in client.cluster.crs && NodeMatches(labels, x, client.cluster.crs[x].spec) {
        EnqueuedIff(cfgs, labels, x);
        if x in client.cluster.crs { assert Stored(client.cluster, x) in cfgs; }
      }
    }
  }
}
