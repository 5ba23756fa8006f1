/**
 * What a run sets up, carried to what is left in the cluster: in the goal of a run every object called for is there and
 * as spelled out, every selected node carries the labels called for; whoever reads Available can count on the former;
 * and no pod ever runs outside the pools.
 */
module Setup {
  import opened Basics
  import opened Api
  import opened Profiles
  import opened Resources
  import opened Naming
  import opened Cluster
  import opened Protocol
  import opened Safety
  import opened Erasure
  import opened Honesty
  import Quiescence
  import opened Convergence
  import opened Recovery
  import opened Outcome
  import opened Blueprint
  import opened Wiring
  import Ledger
  import TopologyText

  // ---------------------------------------------------------------- objects

  lemma {:induction false} PutAllAmong(objs: map<Key, Object>, ms: seq<Manifest>, k: Key)
    requires Writing(ms, k)
    ensures k in PutAll(objs, ms) && exists m :: m in ms && m.key == k && PutAll(objs, ms)[k] == m.obj
    decreases |ms|
  {
    if Writing(ms[1..], k) {
      PutAllAmong(objs[ms[0].key := ms[0].obj], ms[1..], k);
    } else {
      WritingHead(ms, k);
      PutAllOther(objs[ms[0].key := ms[0].obj], ms[1..], k);
    }
  }

  /**
   * In the goal of a run every object called for is stored as spelled out. An object that is not called for, because
   * its component is switched off or it is none of the operator's, is as it was, unless it is a node's topology map.
   */
  lemma GoalSetUp(c: Store, ns: string, x: string, profile: string, k: Key)
    requires Applicable(c, x) && AsksFor(c.crs[x].spec, profile)
    ensures var g, spec, p := Goal(c, ns, x), c.crs[x].spec, ProfileOf(c, x);
      && p.name == profile
      && (CalledFor(x, spec, profile, ns, c.openShift, k) ==> k in g.objs && Spelled(x, spec, p, ns, k, g.objs[k]))
      && (!CalledFor(x, spec, profile, ns, c.openShift, k) && !IsNodeKey(ns, k) ==> At(g.objs, k) == At(c.objs, k))
  {
    hide Plan, PutAll, Labelled, GoalStatus, ResolveProfile, Writes, CalledFor, Spelled, NodeKey;
    var spec, p, os, nodes := c.crs[x].spec, ProfileOf(c, x), c.openShift, Labelled(c.nodes, x, c.crs[x].spec);
    ProfileResolves(spec);
    PlanIsCalledFor(x, spec, p, ns, os, k);
    PlanSpelled(x, spec, p, ns, os);
    if Writing(PlanOf(c, ns, x), k) {
      PlanKeysPlaced(x, spec, p, ns, os, k);
      PutAllAmong(map[], PlanOf(c, ns, x), k);
    }
    if !IsNodeKey(ns, k) { WritesOffNodes(c.objs, nodes, x, spec, p, ns, os, k); }
  }

  /** In the goal the pool's map reads as it should, exactly when no line break upsets its lines. */
  lemma GoalPoolText(c: Store, ns: string, x: string)
    requires Applicable(c, x)
    ensures var g, spec, p, k := Goal(c, ns, x), c.crs[x].spec, ProfileOf(c, x), Key(ConfigMap, ns, "topology");
      && AsksFor(spec, p.name) && k in g.objs && g.objs[k].body.Text? && g.objs[k].body.file == "topology.yml"
      && (TopologyText.DecodePool(g.objs[k].body.text) == Some(TopologyText.PoolTopology(
            StrategyOf(spec), "run.ai/simulated-gpu-node-pool", x, spec.gpuCount, p.memory, p.product))
          <==> TopologyText.OneLine(x) && TopologyText.OneLine(p.product) && TopologyText.OneLine(StrategyOf(spec)))
  {
    hide Goal, ResolveProfile, TopologyText.DecodePool, TopologyText.PoolTopologyText, TopologyText.OneLine, StrategyOf;
    var spec, p, k := c.crs[x].spec, ProfileOf(c, x), Key(ConfigMap, ns, "topology");
    ProfileResolves(spec);
    GoalSetUp(c, ns, x, p.name, k);
    PoolIsNoProfile(p.name);
    TopologyText.PoolRoundTrip(x, spec.gpuCount, p.memory, p.product, StrategyOf(spec));
  }

  lemma PoolIsNoProfile(profile: string)
    ensures "topology" != "gpu-profile-" + profile
  {
    assert ("gpu-profile-" + profile)[0] == 'g';
  }

  /**
   * Whoever reads that a custom resource is available can count on it: when a run is about to commit an available
   * status, every object its spec calls for, OpenShift's pair by the process's answer, has been written and accepted as
   * spelled out since the run was requested. In every history.
   */
  lemma AvailableMeansSetUp(s: Sys, h: seq<Action>, profile: string, k: Key)
    requires HistoryOk(s.c) && s.todo == []
    requires var t := Replay(s, h); t.todo != [] && t.todo[0].SaveStatus? && Claims(t.todo[0].status)
    requires var t := Replay(s, h); var cfg := t.todo[0].cfg;
      AsksFor(cfg.cr.spec, profile) && CalledFor(cfg.name, cfg.cr.spec, profile, t.ns, t.memo == Some(true), k)
    ensures var t, b := Replay(s, h), Ledger.Kept(s, h, Ledger.EMPTY_BOOK); var cfg := t.todo[0].cfg;
      && t.memo.Some? && ResolveProfile(cfg.cr.spec).Some?
      && exists m :: m in b.written && m.key == k
           && Spelled(cfg.name, cfg.cr.spec, ResolveProfile(cfg.cr.spec).value, t.ns, k, m.obj)
  {
    hide Act, CalledFor, Spelled, ResolveProfile, Plan;
    Ledger.AppliedBeforeReported(s, h);
    var t := Replay(s, h);
    var cfg := t.todo[0].cfg;
    ProfileResolves(cfg.cr.spec);
    var p, os := ResolveProfile(cfg.cr.spec).value, t.memo == Some(true);
    PlanIsCalledFor(cfg.name, cfg.cr.spec, p, t.ns, os, k);
    PlanSpelled(cfg.name, cfg.cr.spec, p, t.ns, os);
    var plan := Plan(cfg.name, cfg.cr.spec, p, t.ns, os);
    var i :| 0 <= i < |plan| && plan[i].key == k;
    assert plan[i] in Ledger.Due(cfg, t.ns, t.memo);
  }

  // ---------------------------------------------------------------- node labels

  /** The labels a custom resource wants on its nodes. */
  function LabelFor(x: string, spec: Spec, k: LabelKey): Option<string> {
    match k
    case NodePool => Some(x)
    case DeployDevicePlugin => Some("true")
    case DeployDcgm => Some("true")
    case DynamicMig => if spec.mig.Some? && spec.mig.value.enabled then Some("true") else None
    case DeployDra => if spec.components.Some? && spec.components.value.dra then Some("true") else None
    case DeployComputeDomain =>
      if spec.components.Some? && spec.components.value.computeDomainController then Some("true") else None
    case _ => None
  }

  /** A node is chosen by its labels; without a selector, by its pool. */
  predicate Chosen(x: string, spec: Spec, l: Labels) {
    if spec.nodeSelector == map[] then NodePool in l && l[NodePool] == x
    else forall k | k in spec.nodeSelector :: k in l && l[k] == spec.nodeSelector[k]
  }

  function LabelAt(l: Labels, k: LabelKey): Option<string> { if k in l then Some(l[k]) else None }

  lemma DesiredIsLabelFor(x: string, spec: Spec, k: LabelKey)
    ensures LabelAt(DesiredLabels(x, spec), k) == LabelFor(x, spec, k)
  {
  }

  lemma SelectsIsChosen(x: string, spec: Spec, l: Labels)
    ensures Quiescence.Selects(x, spec, l) <==> Chosen(x, spec, l)
  {
    assert spec.nodeSelector == map[] ==> NodePool in NodeListOption(x, spec);
  }

  /** In the goal of a run a chosen node has every label wanted; beyond that every node's labels are as they were. */
  lemma GoalLabels(c: Store, ns: string, x: string, n: string, k: LabelKey)
    requires Applicable(c, x) && n in c.nodes
    ensures var g, spec := Goal(c, ns, x), c.crs[x].spec;
      n in g.nodes && LabelAt(g.nodes[n], k)
        == if Chosen(x, spec, c.nodes[n]) && LabelFor(x, spec, k).Some? then LabelFor(x, spec, k)
           else LabelAt(c.nodes[n], k)
  {
    hide Plan, PutAll, GoalStatus, ResolveProfile, Writes, Relabel, DesiredLabels, LabelFor, Chosen;
    var spec := c.crs[x].spec;
    SelectsIsChosen(x, spec, c.nodes[n]);
    RelabelMerges(c.nodes[n], x, spec);
    DesiredIsLabelFor(x, spec, k);
  }

  /** The labelling of a run sends an update to exactly the chosen nodes that lack a label wanted. */
  lemma LabelledIfLacking(c: Store, cfg: Config, order: seq<string>, n: string)
    requires cfg.name != ""
    ensures var spec := cfg.cr.spec;
      (exists op :: op in LabelOps(ListNodes(c, NodeListOption(cfg.name, spec), order), cfg)
         && op.LabelNode? && op.seen.name == n)
      <==> n in c.nodes && Chosen(cfg.name, spec, c.nodes[n]) && Lacking(cfg.name, spec, c.nodes[n])
  {
    hide NodeListOption, NeedsUpdate, Chosen, Lacking, LabelOps, Matches, DesiredLabels;
    var spec, selector := cfg.cr.spec, NodeListOption(cfg.name, cfg.cr.spec);
    var names, seen := Arrange(order, NodeNames(c, selector)), ListNodes(c, selector, order);
    LabelOpsIff(seen, cfg, n);
    forall i | 0 <= i < |seen|
      ensures seen[i].name in c.nodes && seen[i].labels == c.nodes[seen[i].name]
        && Chosen(cfg.name, spec, seen[i].labels) && names[i] == seen[i].name
    {
      assert names[i] in NodeNames(c, selector);
      SelectsIsChosen(cfg.name, spec, c.nodes[names[i]]);
    }
    if n in c.nodes {
      NeedsIffLacking(cfg.name, spec, c.nodes[n]);
      SelectsIsChosen(cfg.name, spec, c.nodes[n]);
      if Chosen(cfg.name, spec, c.nodes[n]) {
        assert n in NodeNames(c, selector);
        var i :| 0 <= i < |names| && names[i] == n;
        assert seen[i].name == n;
      }
    }
  }

  ghost predicate Lacking(x: string, spec: Spec, l: Labels) {
    exists k :: LabelFor(x, spec, k).Some? && LabelAt(l, k) != LabelFor(x, spec, k)
  }

  lemma NeedsIffLacking(x: string, spec: Spec, l: Labels)
    requires x != ""
    ensures NeedsUpdate(l, DesiredLabels(x, spec)) <==> Lacking(x, spec, l)
  {
    hide DesiredLabels, LabelFor, NeedsUpdate;
    RelabelMerges(l, x, spec);
    forall k ensures LabelAt(DesiredLabels(x, spec), k) == LabelFor(x, spec, k) { DesiredIsLabelFor(x, spec, k); }
    var d := DesiredLabels(x, spec);
    if Lacking(x, spec, l) {
      var k :| LabelFor(x, spec, k).Some? && LabelAt(l, k) != LabelFor(x, spec, k);
      assert k in d && (l + d)[k] == d[k];
    } else {
      forall k | k in d ensures k in l && l[k] == d[k] { assert LabelAt(d, k) == LabelFor(x, spec, k); }
      assert l + d == l;
    }
  }

  lemma {:induction false} LabelOpsIff(seen: seq<Seen>, cfg: Config, n: string)
    ensures (exists op :: op in LabelOps(seen, cfg) && op.LabelNode? && op.seen.name == n)
      <==> exists i :: 0 <= i < |seen| && seen[i].name == n && NeedsUpdate(seen[i].labels, Desired(cfg))
    decreases |seen|
  {
    hide NeedsUpdate, Desired;
    if seen != [] {
      LabelOpsIff(seen[1..], cfg, n);
      var head := if NeedsUpdate(seen[0].labels, Desired(cfg)) then [LabelNode(seen[0], cfg)] else [];
      assert LabelOps(seen, cfg) == head + LabelOps(seen[1..], cfg);
      if i :| 0 <= i < |seen| && seen[i].name == n && NeedsUpdate(seen[i].labels, Desired(cfg)) {
        if i > 0 { assert seen[1..][i - 1] == seen[i]; } else { assert LabelNode(seen[0], cfg) in LabelOps(seen, cfg); }
      }
      if i :| 0 <= i < |seen[1..]| && seen[1..][i].name == n && NeedsUpdate(seen[1..][i].labels, Desired(cfg)) {
        assert seen[i + 1] == seen[1..][i];
      }
      if op :| op in LabelOps(seen[1..], cfg) && op.LabelNode? && op.seen.name == n {
        assert op in LabelOps(seen, cfg);
      }
    }
  }

  // ---------------------------------------------------------------- where pods ever run

  /**
   * No pod outside the pools: in every state of every history fair also to nodes, a node on which the pods of any
   * DaemonSet of any custom resource may run is in the pool of a custom resource that is held.
   */
  lemma PodsStayInPools(s: Sys, h: seq<Action>, n: string, x: string, spec: Spec, os: bool, m: Manifest)
    requires Untouched(s) && FairHistory(s, h) && FairToNodesHistory(s, h)
    requires InPlan(x, spec, s.ns, os, m) && m.key.kind == DaemonSet
    ensures m.obj.body.Workload?
    ensures var c := Replay(s, h).c;
      n in c.nodes && Matches(m.obj.body.placement, c.nodes[n]) ==>
        NodePool in c.nodes[n] && Held(c, c.nodes[n][NodePool])
  {
    hide Act, FairHistory, FairToNodesHistory, Untouched, InPlan, Matches;
    var k := LandsOnlyOn(x, spec, s.ns, os, m);
    NeverHalfLabelled(s, h, n);
  }
}
