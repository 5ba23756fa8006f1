/** What the goal of a run means: placement, topology coverage, and how runs for different custom resources combine. */
module Outcome {
  import opened Basics
  import opened Api
  import opened Profiles
  import opened Resources
  import opened Naming
  import opened Cluster
  import opened Protocol
  import opened Safety
  import opened Erasure
  import opened Honesty
  import opened Quiescence
  import opened Convergence
  import opened Recovery
  import opened Authorship
  import opened Helm
  import TopologyText

  // ---------------------------------------------------------------- placement

  /** Where a DaemonSet of the plan may be placed is among the labels the same run puts on nodes. */
  ghost predicate Placeable(x: string, spec: Spec, m: Manifest) {
    m.key.kind == DaemonSet ==> m.obj.body.Workload? && Matches(m.obj.body.placement, DesiredLabels(x, spec))
  }

  ghost predicate AllPlaceable(x: string, spec: Spec, ms: seq<Manifest>) {
    forall i | 0 <= i < |ms| :: Placeable(x, spec, ms[i])
  }

  lemma PlaceableConcat(x: string, spec: Spec, a: seq<Manifest>, b: seq<Manifest>)
    requires AllPlaceable(x, spec, a) && AllPlaceable(x, spec, b)
    ensures AllPlaceable(x, spec, a + b)
  {
  }

  lemma RbacPlaceable(x: string, spec: Spec, ns: string)
    ensures AllPlaceable(x, spec, RbacManifests(x, ns))
  {
  }

  lemma SccPlaceable(x: string, spec: Spec, ns: string)
    ensures AllPlaceable(x, spec, SccManifests(x, ns))
  {
  }

  lemma ConfigPlaceable(x: string, spec: Spec, p: GPUProfile, ns: string)
    ensures AllPlaceable(x, spec, ConfigAndDevicePlugin(x, spec, p, ns))
  {
    hide CommonLabels, SelectorLabels, Stem;
    assert Matches(map[DeployDevicePlugin := "true"], DesiredLabels(x, spec));
  }

  lemma OptionalPlaceable(x: string, spec: Spec, ns: string)
    ensures AllPlaceable(x, spec, OptionalWorkloads(x, spec, ns))
  {
  }

  lemma ExtraPlaceable(x: string, spec: Spec, ns: string)
    ensures AllPlaceable(x, spec, ExtraWorkloads(x, spec, ns))
  {
    hide CommonLabels, SelectorLabels, Stem, DesiredLabels, Matches;
    assert spec.MigEnabled()
      ==> Matches(map[DynamicMig := "true"], DesiredLabels(x, spec)) by { OptionalLabels(x, spec); }
    assert spec.Dra() ==> Matches(map[DeployDra := "true"], DesiredLabels(x, spec)) by { OptionalLabels(x, spec); }
    assert spec.ComputeDomains()
      ==> Matches(map[DeployComputeDomain := "true"], DesiredLabels(x, spec)) by { OptionalLabels(x, spec); }
  }

  lemma OptionalLabels(x: string, spec: Spec)
    ensures spec.MigEnabled() ==> Matches(map[DynamicMig := "true"], DesiredLabels(x, spec))
    ensures spec.Dra() ==> Matches(map[DeployDra := "true"], DesiredLabels(x, spec))
    ensures spec.ComputeDomains() ==> Matches(map[DeployComputeDomain := "true"], DesiredLabels(x, spec))
  {
  }

  lemma ServicesPlaceable(x: string, spec: Spec, ns: string)
    ensures AllPlaceable(x, spec, Services(x, ns)) && AllPlaceable(x, spec, [RuntimeClassManifest(x)])
  {
  }

  lemma PlanPlaceable(x: string, spec: Spec, p: GPUProfile, ns: string, os: bool)
    ensures AllPlaceable(x, spec, Plan(x, spec, p, ns, os))
  {
    hide RbacManifests, SccManifests, OptionalWorkloads, ExtraWorkloads, Services, ConfigAndDevicePlugin,
      RuntimeClassManifest, Placeable;
    var rbac, scc := RbacManifests(x, ns), Only(os, SccManifests(x, ns));
    var config, optional := ConfigAndDevicePlugin(x, spec, p, ns), OptionalWorkloads(x, spec, ns);
    RbacPlaceable(x, spec, ns);
    SccPlaceable(x, spec, ns);
    ConfigPlaceable(x, spec, p, ns);
    OptionalPlaceable(x, spec, ns);
    ServicesPlaceable(x, spec, ns);
    ExtraPlaceable(x, spec, ns);
    PlaceableConcat(x, spec, config, optional);
    PlaceableConcat(x, spec, config + optional, Services(x, ns));
    PlaceableConcat(x, spec, config + optional + Services(x, ns), ExtraWorkloads(x, spec, ns));
    PlaceableConcat(x, spec, config + optional + Services(x, ns) + ExtraWorkloads(x, spec, ns),
      [RuntimeClassManifest(x)]);
    PlaceableConcat(x, spec, rbac, scc);
    PlaceableConcat(x, spec, rbac + scc, WorkloadManifests(x, spec, p, ns));
  }

  /** Whatever a custom resource selects after labelling it had selected before, so it carries the desired labels. */
  lemma SelectedIsLabelled(nodes: map<string, Labels>, x: string, spec: Spec, n: string)
    requires x != "" && n in nodes && Selects(x, spec, Labelled(nodes, x, spec)[n])
    ensures Matches(DesiredLabels(x, spec), Labelled(nodes, x, spec)[n])
  {
    hide DesiredLabels, NodeListOption;
    RelabelMerges(nodes[n], x, spec);
  }

  /**
   * Placement and counting. In the goal of a run every node the custom resource selects carries the placement label of
   * every DaemonSet the run deployed, and the status counts all selected nodes as ready.
   */
  lemma GoalPlacesAndCounts(c: Store, ns: string, x: string)
    requires Applicable(c, x)
    ensures var g := Goal(c, ns, x);
      && (forall n, m | n in g.nodes && Selects(x, c.crs[x].spec, g.nodes[n]) && m in PlanOf(c, ns, x)
        && m.key.kind == DaemonSet ::
            m.obj.body.Workload? && Matches(m.obj.body.placement, g.nodes[n]))
      && g.crs[x].status.readyNodes == g.crs[x].status.totalNodes
      && g.crs[x].status.totalNodes == |SelectedNames(g.nodes, x, c.crs[x].spec)|
  {
    hide Plan, ResolveProfile, Labelled, Selects, DesiredLabels, Writes, PutAll;
    var g, spec := Goal(c, ns, x), c.crs[x].spec;
    PlanPlaceable(x, spec, ProfileOf(c, x), ns, c.openShift);
    assert forall m | m in PlanOf(c, ns, x) :: Placeable(x, spec, m);
    DesiredDeploys(x, spec);
    forall n | n in g.nodes && Selects(x, spec, g.nodes[n]) ensures Matches(DesiredLabels(x, spec), g.nodes[n]) {
      LabelledKeys(c.nodes, x, spec);
      SelectedIsLabelled(c.nodes, x, spec, n);
    }
    assert ReadyNames(g.nodes, x, spec) == SelectedNames(g.nodes, x, spec);
  }

  lemma LabelledKeys(nodes: map<string, Labels>, x: string, spec: Spec)
    ensures Labelled(nodes, x, spec).Keys == nodes.Keys
  {
  }

  lemma DesiredDeploys(x: string, spec: Spec)
    ensures DeployDevicePlugin in DesiredLabels(x, spec) && DesiredLabels(x, spec)[DeployDevicePlugin] == "true"
  {
  }

  // ---------------------------------------------------------------- topology coverage

  lemma PoolAfterLabelling(nodes: map<string, Labels>, x: string, spec: Spec, n: string)
    requires x != "" && n in nodes && Selects(x, spec, nodes[n])
    ensures n in PoolNames(Labelled(nodes, x, spec), x)
  {
    hide Selects;
    PoolStays(nodes[n], x, spec);
  }

  /**
   * Topology coverage. Nodes are labelled by the selector and topology maps are made by the pool label, yet in the goal
   * every selected node, and every other node in the pool, has a topology map with the text for it; and that decodes to
   * exactly the resolved memory and product, the spec's number of GPU ids in order, and the MIG strategy, if and only
   * if no line break in product, strategy or node name upsets its lines.
   */
  lemma GoalCoversTopology(c: Store, ns: string, x: string, n: string)
    requires Applicable(c, x) && n in c.nodes
    requires Selects(x, c.crs[x].spec, c.nodes[n]) || Matches(PoolLabels(x), Goal(c, ns, x).nodes[n])
    ensures var g, spec, p, k := Goal(c, ns, x), c.crs[x].spec, ProfileOf(c, x), Key(ConfigMap, ns, "topology-" + n);
      && AsksFor(spec, p.name)
      && k in g.objs && g.objs[k].labels == map[NodeTopology := "true", NodeName := n]
      && g.objs[k].body.Text? && g.objs[k].body.file == "topology.yml"
      && var d := TopologyText.Decode(g.objs[k].body.text);
      (d.Some? && TopologyText.Describes(d.value, n, spec.gpuCount, p.memory, p.product, StrategyOf(spec)))
      <==> TopologyText.OneLine(p.product) && TopologyText.OneLine(StrategyOf(spec))
           && (TopologyText.OneLine(n) || spec.gpuCount <= 0)
  {
    hide Plan, ResolveProfile, Labelled, Selects, DesiredLabels, PutAll, Topologies, GoalStatus, TopologyText.Decode,
      TopologyText.NodeTopologyText, TopologyText.OneLine, TopologyText.Describes, Product, Memory, Strategy,
      StrategyOf, AsksFor;
    var spec, p := c.crs[x].spec, ProfileOf(c, x);
    ProfileResolves(spec);
    ProfileValues(spec, p);
    var nodes := Labelled(c.nodes, x, spec);
    LabelledKeys(c.nodes, x, spec);
    if Selects(x, spec, c.nodes[n]) { PoolAfterLabelling(c.nodes, x, spec, n); }
    assert n in PoolNames(nodes, x);
    PutAllConcat(c.objs, PlanOf(c, ns, x), Topologies(Arrange([], PoolNames(nodes, x)), spec, p, ns));
    TopologyAt(PutAll(c.objs, PlanOf(c, ns, x)), Arrange([], PoolNames(nodes, x)), PoolNames(nodes, x), n, spec, p, ns);
    TopologyText.TopologyRoundTrip(n, spec.gpuCount, Memory(spec, p), Product(spec, p), Strategy(spec));
  }

  // ---------------------------------------------------------------- runs for two custom resources

  /** The store with the goal of a run for `x` as its contents. */
  function After(c: Store, ns: string, x: string): Store
    requires Applicable(c, x)
  {
    var g := Goal(c, ns, x);
    c.(objs := g.objs, nodes := g.nodes, crs := g.crs)
  }

  /** Keys the two custom resources share: the pool topology, the runtime class, and their profile if it is the same. */
  predicate Shared(c: Store, ns: string, x: string, y: string, k: Key)
    requires Applicable(c, x) && Applicable(c, y)
  {
    k == TopologyKey(ns) || k == RUNTIME_KEY
    || (ProfileOf(c, x).name == ProfileOf(c, y).name && k == ProfileKey(ProfileOf(c, x).name, ns))
  }

  predicate Independent(c: Store, x: string, y: string) {
    && x != y && Applicable(c, x) && Applicable(c, y)
    && UnmanagedSelector(c.crs[x].spec) && UnmanagedSelector(c.crs[y].spec)
    && forall n | n in c.nodes :: !(Selects(x, c.crs[x].spec, c.nodes[n]) && Selects(y, c.crs[y].spec, c.nodes[n]))
  }

  lemma IndependentSym(c: Store, x: string, y: string)
    requires Independent(c, x, y)
    ensures Independent(c, y, x)
  {
  }

  /** A run for `x` does not change what `y` selects. */
  lemma SelectionStable(c: Store, ns: string, x: string, y: string, n: string)
    requires Independent(c, x, y) && n in c.nodes
    ensures Labelled(c.nodes, x, c.crs[x].spec).Keys == c.nodes.Keys
    ensures Selects(y, c.crs[y].spec, Labelled(c.nodes, x, c.crs[x].spec)[n]) <==> Selects(y, c.crs[y].spec, c.nodes[n])
    ensures Selects(y, c.crs[y].spec, c.nodes[n]) ==> Labelled(c.nodes, x, c.crs[x].spec)[n] == c.nodes[n]
  {
    hide DesiredLabels;
    var spec := c.crs[x].spec;
    if Selects(x, spec, c.nodes[n]) {
      RelabelMerges(c.nodes[n], x, spec);
      if Selects(y, c.crs[y].spec, c.nodes[n] + DesiredLabels(x, spec)) {
        SelectionAfterLabelling(x, spec, y, c.crs[y].spec, c.nodes[n]);
      }
    }
  }

  lemma AfterIndependent(c: Store, ns: string, x: string, y: string)
    requires Independent(c, x, y)
    ensures Applicable(After(c, ns, x), y) && After(c, ns, x).crs[y] == c.crs[y]
    ensures After(c, ns, x).nodes == Labelled(c.nodes, x, c.crs[x].spec)
  {
    hide PutAll, Writes, Labelled, GoalStatus, ResolveProfile;
  }

  /** Both orders label the nodes alike. */
  lemma LabellingCommutes(c: Store, ns: string, x: string, y: string)
    requires Independent(c, x, y)
    ensures Labelled(Labelled(c.nodes, x, c.crs[x].spec), y, c.crs[y].spec)
         == Labelled(Labelled(c.nodes, y, c.crs[y].spec), x, c.crs[x].spec)
  {
    hide Selects, Relabel, DesiredLabels;
    var sx, sy := c.crs[x].spec, c.crs[y].spec;
    IndependentSym(c, x, y);
    var a, b := Labelled(Labelled(c.nodes, x, sx), y, sy), Labelled(Labelled(c.nodes, y, sy), x, sx);
    forall n | n in c.nodes ensures n in a && n in b && a[n] == b[n] {
      SelectionStable(c, ns, x, y, n);
      SelectionStable(c, ns, y, x, n);
    }
    LabelledKeys(c.nodes, x, sx); LabelledKeys(c.nodes, y, sy);
    LabelledKeys(Labelled(c.nodes, x, sx), y, sy); LabelledKeys(Labelled(c.nodes, y, sy), x, sx);
    assert a == b;
  }

  function At(objs: map<Key, Object>, k: Key): Option<Object> {
    if k in objs then Some(objs[k]) else None
  }

  /** What PutAll leaves at a key: the manifests' own value if they write it, else what was there. */
  lemma {:induction false} PutAllValue(o1: map<Key, Object>, o2: map<Key, Object>, ms: seq<Manifest>, k: Key)
    ensures Writing(ms, k) ==> At(PutAll(o1, ms), k) == At(PutAll(o2, ms), k)
    ensures !Writing(ms, k) ==> At(PutAll(o1, ms), k) == At(o1, k)
    decreases |ms|
  {
    if Writing(ms, k) {
      var o := Object(map[], Plain);
      if Writing(ms[1..], k) {
        PutAllValue(o1[ms[0].key := ms[0].obj], o2[ms[0].key := ms[0].obj], ms[1..], k);
      } else {
        var i :| 0 <= i < |ms| && ms[i].key == k;
        assert i > 0 ==> ms[1..][i - 1].key == k;
        PutAllOther(o1[ms[0].key := ms[0].obj], ms[1..], k);
        PutAllOther(o2[ms[0].key := ms[0].obj], ms[1..], k);
      }
    } else {
      PutAllOther(o1, ms, k);
    }
  }

  lemma PlanKeysPlaced(x: string, spec: Spec, p: GPUProfile, ns: string, os: bool, k: Key)
    requires Writing(Plan(x, spec, p, ns, os), k)
    ensures exists c :: Placed(ns, k, x, c)
    ensures !IsNodeKey(ns, k)
  {
    hide Plan, Placed, NodeKey;
    PlanBelongs(x, spec, p, ns, os);
    var plan := Plan(x, spec, p, ns, os);
    var i :| 0 <= i < |plan| && plan[i].key == k;
    assert Belongs(ns, os, x, plan[i]);
    var c :| AuthoredFor(ns, os, plan[i].key, plan[i].obj, x, c);
    forall n ensures k != NodeKey(n, ns) { NodeKeyNotPlaced(n, ns, x, c); }
  }

  /** These manifests hold no ConfigMap. */
  predicate NoMaps(ms: seq<Manifest>) { forall i | 0 <= i < |ms| :: ms[i].key.kind != ConfigMap }

  lemma RbacNoMaps(x: string, ns: string)
    ensures NoMaps(RbacManifests(x, ns)) && NoMaps(SccManifests(x, ns))
  {
    hide CommonLabels;
  }

  lemma WorkloadsNoMaps(x: string, spec: Spec, ns: string)
    ensures NoMaps(OptionalWorkloads(x, spec, ns)) && NoMaps(ExtraWorkloads(x, spec, ns))
    ensures NoMaps(Services(x, ns)) && NoMaps([RuntimeClassManifest(x)])
  {
    hide CommonLabels, SelectorLabels;
  }

  lemma PlanInFive(x: string, spec: Spec, p: GPUProfile, ns: string, os: bool)
    ensures Plan(x, spec, p, ns, os) ==
      RbacManifests(x, ns) + Only(os, SccManifests(x, ns)) + ConfigAndDevicePlugin(x, spec, p, ns)
      + (OptionalWorkloads(x, spec, ns) + Services(x, ns) + ExtraWorkloads(x, spec, ns) + [RuntimeClassManifest(x)])
  {
    hide RbacManifests, SccManifests, ConfigAndDevicePlugin, OptionalWorkloads, Services, ExtraWorkloads,
      RuntimeClassManifest;
  }

  /** The only ConfigMaps of a plan are the pool topology and its own profile. */
  lemma PlanMaps(x: string, spec: Spec, p: GPUProfile, ns: string, os: bool, k: Key)
    requires Writing(Plan(x, spec, p, ns, os), k) && k.kind == ConfigMap
    ensures k == TopologyKey(ns) || k == ProfileKey(p.name, ns)
  {
    hide RbacManifests, SccManifests, ConfigAndDevicePlugin, OptionalWorkloads, Services, ExtraWorkloads,
      RuntimeClassManifest, Plan;
    RbacNoMaps(x, ns);
    WorkloadsNoMaps(x, spec, ns);
    PlanInFive(x, spec, p, ns, os);
    var before := RbacManifests(x, ns) + Only(os, SccManifests(x, ns));
    var config := ConfigAndDevicePlugin(x, spec, p, ns);
    var after := OptionalWorkloads(x, spec, ns) + Services(x, ns) + ExtraWorkloads(x, spec, ns)
      + [RuntimeClassManifest(x)];
    assert NoMaps(before) && NoMaps(after);
    var plan := before + config + after;
    var i :| 0 <= i < |plan| && plan[i].key == k;
    assert |before| <= i < |before| + |config|;
    ConfigMaps(x, spec, p, ns, config[i - |before|]);
  }

  lemma ConfigMaps(x: string, spec: Spec, p: GPUProfile, ns: string, m: Manifest)
    requires m in ConfigAndDevicePlugin(x, spec, p, ns) && m.key.kind == ConfigMap
    ensures m.key == TopologyKey(ns) || m.key == ProfileKey(p.name, ns)
  {
    hide CommonLabels, SelectorLabels;
  }

  lemma ProfileKeyInjective(p: string, q: string, ns: string)
    requires ProfileKey(p, ns) == ProfileKey(q, ns)
    ensures p == q
  {
    var stem := "gpu-profile-";
    assert p == (stem + p)[|stem|..] && q == (stem + q)[|stem|..];
  }

  /** The plans of two custom resources meet only in what they share. */
  lemma PlansMeetInShared(c: Store, ns: string, x: string, y: string, k: Key)
    requires x != y && Applicable(c, x) && Applicable(c, y)
    requires Writing(PlanOf(c, ns, x), k) && Writing(PlanOf(c, ns, y), k)
    ensures Shared(c, ns, x, y, k)
  {
    hide Plan, Placed, ResolveProfile, ProfileKey, TopologyKey;
    PlanKeysPlaced(x, c.crs[x].spec, ProfileOf(c, x), ns, c.openShift, k);
    PlanKeysPlaced(y, c.crs[y].spec, ProfileOf(c, y), ns, c.openShift, k);
    if k.kind == ConfigMap {
      PlanMaps(x, c.crs[x].spec, ProfileOf(c, x), ns, c.openShift, k);
      PlanMaps(y, c.crs[y].spec, ProfileOf(c, y), ns, c.openShift, k);
      if k != TopologyKey(ns) { ProfileKeyInjective(ProfileOf(c, x).name, ProfileOf(c, y).name, ns); }
    } else {
      var a :| Placed(ns, k, x, a);
      var b :| Placed(ns, k, y, b);
      NamedApart(ns, k, x, a, y, b);
    }
  }

  lemma NamedApart(ns: string, k: Key, x: string, a: Component, y: string, b: Component)
    requires x != y && k.kind != ConfigMap && Placed(ns, k, x, a) && Placed(ns, k, y, b)
    ensures k == RUNTIME_KEY
  {
    if NamedKind(k.kind) { PlacedUnique(ns, k, x, a, y, b); }
  }

  /** The writes of a run at a key that is not a node's topology. */
  lemma WritesOffNodes(objs: map<Key, Object>, nodes: map<string, Labels>, x: string, spec: Spec, p: GPUProfile,
      ns: string, os: bool, k: Key)
    requires !IsNodeKey(ns, k)
    ensures At(PutAll(objs, Writes(nodes, x, spec, p, ns, os)), k) ==
      if Writing(Plan(x, spec, p, ns, os), k) then At(PutAll(map[], Plan(x, spec, p, ns, os)), k) else At(objs, k)
  {
    hide Plan, NodeKey;
    var plan := Plan(x, spec, p, ns, os);
    var topologies := Topologies(Arrange([], PoolNames(nodes, x)), spec, p, ns);
    PutAllConcat(objs, plan, topologies);
    assert !Writing(topologies, k);
    PutAllValue(PutAll(objs, plan), map[], topologies, k);
    PutAllValue(objs, map[], plan, k);
  }

  /** The writes of a run at a node's topology. */
  lemma WritesOnNode(objs: map<Key, Object>, nodes: map<string, Labels>, x: string, spec: Spec, p: GPUProfile,
      ns: string, os: bool, n: string)
    ensures At(PutAll(objs, Writes(nodes, x, spec, p, ns, os)), NodeKey(n, ns)) ==
      if n in PoolNames(nodes, x) then Some(NodeTopologyConfigMap(n, spec, p, ns).obj) else At(objs, NodeKey(n, ns))
  {
    hide Plan;
    var plan, k := Plan(x, spec, p, ns, os), NodeKey(n, ns);
    var order := Arrange([], PoolNames(nodes, x));
    var topologies := Topologies(order, spec, p, ns);
    PutAllConcat(objs, plan, topologies);
    if Writing(plan, k) { PlanKeysPlaced(x, spec, p, ns, os, k); }
    PutAllValue(objs, map[], plan, k);
    if n in PoolNames(nodes, x) {
      TopologyAt(PutAll(objs, plan), order, PoolNames(nodes, x), n, spec, p, ns);
    } else {
      NotAmong(order, n, spec, p, ns);
      PutAllValue(PutAll(objs, plan), map[], topologies, k);
    }
  }

  /** Which pool a node ends in after both runs decides its topology, in either order. */
  lemma PoolsSettle(c: Store, ns: string, x: string, y: string, n: string)
    requires Independent(c, x, y)
    ensures var nx := Labelled(c.nodes, x, c.crs[x].spec); var nxy := Labelled(nx, y, c.crs[y].spec);
      (n in PoolNames(nxy, x) ==> n in PoolNames(nx, x))
        && (n in PoolNames(nx, x) ==> n in PoolNames(nxy, x) || n in PoolNames(nxy, y))
      && !(n in PoolNames(nxy, x) && n in PoolNames(nxy, y))
  {
    hide DesiredLabels, Relabel;
    var nx := Labelled(c.nodes, x, c.crs[x].spec);
    LabelledKeys(c.nodes, x, c.crs[x].spec);
    LabelledKeys(nx, y, c.crs[y].spec);
    assert PoolLabels(x)[NodePool] == x && PoolLabels(y)[NodePool] == y;
    if n in c.nodes && Selects(y, c.crs[y].spec, nx[n]) {
      PoolStays(nx[n], y, c.crs[y].spec);
    }
  }

  /** A run for `x` after one for `y` leaves what `y` selects, and those nodes' labels, as they were. */
  lemma SelectedAlike(c: Store, ns: string, x: string, y: string, n: string)
    requires Independent(c, x, y) && n in c.nodes
    ensures var ny := Labelled(c.nodes, y, c.crs[y].spec); var nyx := Labelled(ny, x, c.crs[x].spec); var spec :=
      c.crs[y].spec;
      && n in ny && n in nyx && (Selects(y, spec, nyx[n]) <==> Selects(y, spec, ny[n]))
      && (Selects(y, spec, ny[n]) ==> nyx[n] == ny[n])
  {
    hide Selects, Relabel, DesiredLabels, Labelled;
    var d := After(c, ns, y);
    IndependentSym(c, x, y);
    AfterIndependent(c, ns, y, x);
    StaysIndependent(c, ns, x, y);
    LabelledKeys(c.nodes, y, c.crs[y].spec);
    LabelledKeys(d.nodes, x, c.crs[x].spec);
    SelectionStable(d, ns, x, y, n);
  }

  lemma StaysIndependent(c: Store, ns: string, x: string, y: string)
    requires Independent(c, x, y)
    ensures var d := After(c, ns, y); Independent(d, x, y) && d.crs[x] == c.crs[x] && d.crs[y].spec == c.crs[y].spec
  {
    hide Selects, Relabel, DesiredLabels, Labelled, PutAll, Writes, GoalStatus, ResolveProfile;
    var d := After(c, ns, y);
    IndependentSym(c, x, y);
    AfterIndependent(c, ns, y, x);
    LabelledKeys(c.nodes, y, c.crs[y].spec);
    forall n | n in d.nodes ensures !(Selects(x, d.crs[x].spec, d.nodes[n]) && Selects(y, d.crs[y].spec, d.nodes[n])) {
      SelectionStable(c, ns, y, x, n);
      if Selects(y, c.crs[y].spec, d.nodes[n]) { SelectedBefore(c, y, n); }
    }
  }

  /** A node selected after labelling had been selected before. */
  lemma SelectedBefore(c: Store, y: string, n: string)
    requires y in c.crs && y != "" && UnmanagedSelector(c.crs[y].spec) && n in c.nodes
    requires Selects(y, c.crs[y].spec, Labelled(c.nodes, y, c.crs[y].spec)[n])
    ensures Selects(y, c.crs[y].spec, c.nodes[n])
  {
    hide Selects;
  }

  /** A status does not depend on which of the two ran last. */
  lemma StatusCommutes(c: Store, ns: string, x: string, y: string, p: GPUProfile)
    requires Independent(c, x, y)
    ensures var ny := Labelled(c.nodes, y, c.crs[y].spec);
      GoalStatus(Labelled(ny, x, c.crs[x].spec), y, c.crs[y].spec, p) == GoalStatus(ny, y, c.crs[y].spec, p)
  {
    hide Selects, Relabel, DesiredLabels, Labelled;
    var spec := c.crs[y].spec;
    var ny := Labelled(c.nodes, y, spec);
    var nyx := Labelled(ny, x, c.crs[x].spec);
    LabelledKeys(c.nodes, y, spec);
    LabelledKeys(ny, x, c.crs[x].spec);
    forall n | n in c.nodes
      ensures (Selects(y, spec, nyx[n]) <==> Selects(y, spec, ny[n])) && (Selects(y, spec, ny[n]) ==> nyx[n] == ny[n])
    {
      SelectedAlike(c, ns, x, y, n);
    }
    assert SelectedNames(nyx, y, spec) == SelectedNames(ny, y, spec);
    assert ReadyNames(nyx, y, spec) == ReadyNames(ny, y, spec);
  }

  lemma CrsCommute(c: Store, ns: string, x: string, y: string)
    requires Independent(c, x, y)
    requires Applicable(After(c, ns, x), y) && Applicable(After(c, ns, y), x)
    ensures Goal(After(c, ns, x), ns, y).crs == Goal(After(c, ns, y), ns, x).crs
  {
    hide Plan, ResolveProfile, Labelled, Writes, PutAll, GoalStatus, Selects;
    IndependentSym(c, x, y);
    AfterIndependent(c, ns, x, y);
    AfterIndependent(c, ns, y, x);
    LabellingCommutes(c, ns, x, y);
    StatusCommutes(c, ns, x, y, ProfileOf(c, y));
    StatusCommutes(c, ns, y, x, ProfileOf(c, x));
  }

  /** What commutes: node labels, custom resources with their statuses, and all objects but those the two share. */
  ghost predicate SameButShared(c: Store, ns: string, x: string, y: string, a: Contents, b: Contents)
    requires Applicable(c, x) && Applicable(c, y)
  {
    a.nodes == b.nodes && a.crs == b.crs && forall k | !Shared(c, ns, x, y, k) :: At(a.objs, k) == At(b.objs, k)
  }

  lemma GoalsCommute(c: Store, ns: string, x: string, y: string)
    requires Independent(c, x, y)
    ensures Applicable(After(c, ns, x), y) && Applicable(After(c, ns, y), x)
    ensures SameButShared(c, ns, x, y, Goal(After(c, ns, x), ns, y), Goal(After(c, ns, y), ns, x))
  {
    hide Plan, ResolveProfile, Labelled, Writes, PutAll, GoalStatus, Shared, At, Selects;
    IndependentSym(c, x, y);
    AfterIndependent(c, ns, x, y);
    AfterIndependent(c, ns, y, x);
    LabellingCommutes(c, ns, x, y);
    CrsCommute(c, ns, x, y);
    forall k | !Shared(c, ns, x, y, k)
      ensures At(Goal(After(c, ns, x), ns, y).objs, k) == At(Goal(After(c, ns, y), ns, x).objs, k)
    {
      GoalsCommuteAt(c, ns, x, y, k);
    }
  }

  lemma GoalsCommuteAt(c: Store, ns: string, x: string, y: string, k: Key)
    requires Independent(c, x, y) && !Shared(c, ns, x, y, k)
    requires Applicable(After(c, ns, x), y) && Applicable(After(c, ns, y), x)
    ensures At(Goal(After(c, ns, x), ns, y).objs, k) == At(Goal(After(c, ns, y), ns, x).objs, k)
  {
    hide Plan, ResolveProfile, Labelled, Writes, PutAll, GoalStatus, Shared, At, Selects, PoolNames,
      NodeTopologyConfigMap, Placed;
    var os, sx, sy, px, py := c.openShift, c.crs[x].spec, c.crs[y].spec, ProfileOf(c, x), ProfileOf(c, y);
    var nx, ny := Labelled(c.nodes, x, sx), Labelled(c.nodes, y, sy);
    var nxy := Labelled(nx, y, sy);
    var ox, oy := PutAll(c.objs, Writes(nx, x, sx, px, ns, os)), PutAll(c.objs, Writes(ny, y, sy, py, ns, os));
    IndependentSym(c, x, y);
    AfterIndependent(c, ns, x, y);
    AfterIndependent(c, ns, y, x);
    LabellingCommutes(c, ns, x, y);
    if IsNodeKey(ns, k) {
      var n :| k == NodeKey(n, ns);
      PoolsSettle(c, ns, x, y, n);
      PoolsSettle(c, ns, y, x, n);
      WritesOnNode(c.objs, nx, x, sx, px, ns, os, n);
      WritesOnNode(ox, nxy, y, sy, py, ns, os, n);
      WritesOnNode(c.objs, ny, y, sy, py, ns, os, n);
      WritesOnNode(oy, nxy, x, sx, px, ns, os, n);
    } else {
      WritesOffNodes(c.objs, nx, x, sx, px, ns, os, k);
      WritesOffNodes(ox, nxy, y, sy, py, ns, os, k);
      WritesOffNodes(c.objs, ny, y, sy, py, ns, os, k);
      WritesOffNodes(oy, nxy, x, sx, px, ns, os, k);
      if Writing(Plan(x, sx, px, ns, os), k) && Writing(Plan(y, sy, py, ns, os), k) {
        PlansMeetInShared(c, ns, x, y, k);
      }
    }
  }

  /** The goal of a run depends on contents only. */
  lemma GoalOfContents(c: Store, d: Store, ns: string, x: string)
    requires Applicable(c, x) && ContentsOf(c) == ContentsOf(d) && c.openShift == d.openShift
    ensures Applicable(d, x) && Goal(d, ns, x) == Goal(c, ns, x)
  {
    hide Plan, ResolveProfile, Labelled, Writes, GoalStatus, PutAll;
  }

  /**
   * Two undisturbed runs one after the other, in whatever order the server lists things, reach the goal of the goal.
   */
  lemma TwoRuns(lists: Order, at: nat, s: Sys, x: string, y: string, i: nat, a: Sys, j: nat, b: Sys)
    requires Startable(s, x) && MemoHonest(s) && Applicable(After(s.c, s.ns, x), y)
    requires Quietly(lists, at, Act(s, Request(x)), i, a) && a.todo == []
    requires Quietly(lists, i, Act(a, Request(y)), j, b) && b.todo == []
    ensures ContentsOf(b.c) == Goal(After(s.c, s.ns, x), s.ns, y)
  {
    hide Quietly, Goal, Neat, Act, HelmStored, Applicable, RvBound;
    var i', a' := RunReachesGoal(lists, at, s, x);
    QuietOutcome(lists, at, Act(s, Request(x)), i, a, i', a');
    RunLeavesOrder(lists, at, s, x, i, a);
    AfterIsReached(s, x, a);
    GoalOfContents(After(s.c, s.ns, x), a.c, s.ns, y);
    var j', b' := RunReachesGoal(lists, i, a, y);
    QuietOutcome(lists, i, Act(a, Request(y)), j, b, j', b');
  }

  lemma AfterIsReached(s: Sys, x: string, a: Sys)
    requires Applicable(s.c, x) && ContentsOf(a.c) == Goal(s.c, s.ns, x) && a.c.openShift == s.c.openShift
    ensures ContentsOf(After(s.c, s.ns, x)) == ContentsOf(a.c) && After(s.c, s.ns, x).openShift == a.c.openShift
  {
    hide Goal;
  }

  /**
   * Commutation. Undisturbed runs for two custom resources whose selections do not overlap commute, in whatever order
   * the server lists things in either: both orders leave the same node labels, the same custom resources with the same
   * statuses, and the same objects at every key but the pool topology, the runtime class and a profile both use.
   */
  lemma RunsCommute(s: Sys, x: string, y: string,
      lists: Order, at: nat, i: nat, a: Sys, j: nat, xy: Sys, others: Order, from: nat, k: nat, b: Sys, l: nat, yx: Sys)
    requires Startable(s, x) && Startable(s, y) && MemoHonest(s) && Independent(s.c, x, y)
    requires Quietly(lists, at, Act(s, Request(x)), i, a) && a.todo == []
    requires Quietly(lists, i, Act(a, Request(y)), j, xy) && xy.todo == []
    requires Quietly(others, from, Act(s, Request(y)), k, b) && b.todo == []
    requires Quietly(others, k, Act(b, Request(x)), l, yx) && yx.todo == []
    ensures SameButShared(s.c, s.ns, x, y, ContentsOf(xy.c), ContentsOf(yx.c))
  {
    hide Quietly, Goal, Neat, Act, HelmStored, RvBound, SameButShared, Independent;
    GoalsCommute(s.c, s.ns, x, y);
    TwoRuns(lists, at, s, x, y, i, a, j, xy);
    TwoRuns(others, from, s, y, x, k, b, l, yx);
  }
}
