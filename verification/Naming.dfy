/** Which keys belong to the operator, and to which custom resource. */
module Naming {
  import opened Basics
  import opened Api
  import opened Resources

  // ---------------------------------------------------------------- names decode uniquely

  lemma ConcatDiffers(p: string, q: string, x: string, y: string, at: nat)
    requires at < |p| && at < |q| && p[at] != q[at]
    ensures p + x != q + y
  {
    assert (p + x)[at] == p[at] && (q + y)[at] == q[at];
  }

  /** Within a kind no component's stem is a prefix of another's. */
  lemma StemsDiffer(kind: Kind, c1: Component, c2: Component) returns (at: nat)
    requires Stem(kind, c1).Some? && Stem(kind, c2).Some? && c1 != c2
    ensures at < |Stem(kind, c1).value| && at < |Stem(kind, c2).value|
    ensures Stem(kind, c1).value[at] != Stem(kind, c2).value[at]
  {
    var s1, s2 := Stem(kind, c1).value, Stem(kind, c2).value;
    if kind == ClusterRole || kind == ClusterRoleBinding {
      at := if s1[9] != s2[9] then 9 else 10;
    } else {
      at := if s1[0] != s2[0] then 0 else 1;
    }
  }

  /** Kind and name together determine component and custom resource. */
  lemma StemNameInjective(kind: Kind, c1: Component, x1: string, c2: Component, x2: string)
    requires Stem(kind, c1).Some? && Stem(kind, c2).Some?
    requires StemName(kind, c1, x1) == StemName(kind, c2, x2)
    ensures c1 == c2 && x1 == x2
  {
    var s1, s2 := Stem(kind, c1).value, Stem(kind, c2).value;
    if c1 != c2 {
      var at := StemsDiffer(kind, c1, c2);
      ConcatDiffers(s1, s2, x1, x2, at);
    }
    assert x1 == (s1 + x1)[|s1|..] && x2 == (s2 + x2)[|s2|..];
  }

  // ---------------------------------------------------------------- the operator's keys

  predicate Namespaced(kind: Kind) {
    kind == DaemonSet || kind == Deployment || kind == Service || kind == ServiceAccount || kind == ConfigMap
  }

  /** `k` is where the operator puts the object of component `c` for custom resource `x`. */
  ghost predicate Placed(ns: string, k: Key, x: string, c: Component) {
    && k.ns == (if Namespaced(k.kind) then ns else "")
    && match k.kind
       case ConfigMap =>
         (c == Topology && k == TopologyKey(ns)) || (c == GpuProfile && exists p :: k == ProfileKey(p, ns))
       case RuntimeClass => c == Runtime && k == RUNTIME_KEY
       case _ => Stem(k.kind, c).Some? && k.name == StemName(k.kind, c, x)
  }

  ghost predicate IsNodeKey(ns: string, k: Key) {
    exists node :: k == NodeKey(node, ns)
  }

  /** Keys the operator may write for some custom resource. */
  ghost predicate Reserved(ns: string, k: Key) {
    IsNodeKey(ns, k) || exists x, c :: Placed(ns, k, x, c)
  }

  /** Kinds whose objects carry the custom resource's own name. */
  predicate NamedKind(kind: Kind) {
    kind != ConfigMap && kind != RuntimeClass
  }

  lemma PlacedUnique(ns: string, k: Key, x1: string, c1: Component, x2: string, c2: Component)
    requires NamedKind(k.kind) && Placed(ns, k, x1, c1) && Placed(ns, k, x2, c2)
    ensures x1 == x2 && c1 == c2
  {
    StemNameInjective(k.kind, c1, x1, c2, x2);
  }

  /** What the operator's frozen part of the object at `k` is. */
  function ExpectedFrozen(k: Key, x: string, c: Component): Frozen {
    if k.kind == DaemonSet || k.kind == Deployment then Selector(SelectorLabels(x, c))
    else if k.kind == ClusterRoleBinding then RoleRef(k.name)
    else Nothing
  }

  /** An object as the operator writes it for custom resource `x`; SCC objects only on OpenShift. */
  ghost predicate AuthoredFor(ns: string, openShift: bool, k: Key, o: Object, x: string, c: Component) {
    && Placed(ns, k, x, c)
    && AppInstance in o.labels && o.labels[AppInstance] == x
    && AppManagedBy in o.labels && o.labels[AppManagedBy] == MANAGED_BY
    && NodeTopology !in o.labels
    && FrozenPart(k, o) == ExpectedFrozen(k, x, c)
    && (c == Scc ==> openShift)
  }

  ghost predicate AuthoredNodeTopology(ns: string, k: Key, o: Object) {
    exists node :: k == NodeKey(node, ns) && o.labels == NodeTopologyLabels(node)
  }

  ghost predicate Authored(ns: string, openShift: bool, k: Key, o: Object) {
    AuthoredNodeTopology(ns, k, o) || exists x, c :: AuthoredFor(ns, openShift, k, o, x, c)
  }

  lemma AuthoredIsReserved(ns: string, openShift: bool, k: Key, o: Object)
    requires Authored(ns, openShift, k, o)
    ensures Reserved(ns, k)
  {
  }

  // ---------------------------------------------------------------- shared ConfigMap names

  lemma NodeKeyInjective(n1: string, n2: string, ns: string)
    requires NodeKey(n1, ns) == NodeKey(n2, ns)
    ensures n1 == n2
  {
    var stem := "topology-";
    assert n1 == (stem + n1)[|stem|..] && n2 == (stem + n2)[|stem|..];
  }

  /** Node topology maps never share a key with the pool topology or a profile. */
  lemma NodeKeysApart(node: string, ns: string, profile: string)
    ensures NodeKey(node, ns) != TopologyKey(ns)
    ensures NodeKey(node, ns) != ProfileKey(profile, ns)
    ensures TopologyKey(ns) != ProfileKey(profile, ns)
  {
    assert |"topology-" + node| > |"topology"|;
    ConcatDiffers("topology-", "gpu-profile-", node, profile, 0);
    ConcatDiffers("topology", "gpu-profile-", "", profile, 0);
    assert "topology" + "" == "topology";
  }

  lemma NodeKeyNotPlaced(node: string, ns: string, x: string, c: Component)
    ensures !Placed(ns, NodeKey(node, ns), x, c)
  {
    if c == GpuProfile && exists p :: NodeKey(node, ns) == ProfileKey(p, ns) {
      var p :| NodeKey(node, ns) == ProfileKey(p, ns);
      NodeKeysApart(node, ns, p);
    }
    NodeKeysApart(node, ns, "");
  }

  // ---------------------------------------------------------------- every manifest is authored

  /** `m` is written on behalf of `x` into namespace `ns`. */
  ghost predicate Belongs(ns: string, openShift: bool, x: string, m: Manifest) {
    exists c :: AuthoredFor(ns, openShift, m.key, m.obj, x, c)
  }

  ghost predicate AllBelong(ns: string, openShift: bool, x: string, ms: seq<Manifest>) {
    forall i | 0 <= i < |ms| :: Belongs(ns, openShift, x, ms[i])
  }

  lemma AccountBelongs(x: string, c: Component, ns: string, os: bool)
    requires Stem(ServiceAccount, c).Some?
    ensures Belongs(ns, os, x, AccountManifest(x, c, ns))
  {
    var m := AccountManifest(x, c, ns);
    assert AuthoredFor(ns, os, m.key, m.obj, x, c);
  }

  lemma RoleBelongs(x: string, c: Component, ns: string, os: bool)
    requires Stem(ClusterRole, c).Some? && Stem(ServiceAccount, c).Some?
    ensures AllBelong(ns, os, x, RoleAndBinding(x, c, ns))
  {
    var m, b := RoleManifest(x, c), BindingManifest(x, c, ns);
    assert AuthoredFor(ns, os, m.key, m.obj, x, c);
    assert AuthoredFor(ns, os, b.key, b.obj, x, c);
  }

  lemma AllBelongConcat(ns: string, os: bool, x: string, a: seq<Manifest>, b: seq<Manifest>)
    requires AllBelong(ns, os, x, a) && AllBelong(ns, os, x, b)
    ensures AllBelong(ns, os, x, a + b)
  {
  }

  lemma AccountsBelong(x: string, ns: string, os: bool)
    ensures AllBelong(ns, os, x, Accounts(x, ns))
  {
    hide Belongs, AccountManifest;
    AccountBelongs(x, DevicePlugin, ns, os); AccountBelongs(x, StatusUpdater, ns, os);
    AccountBelongs(x, MetricsExporter, ns, os); AccountBelongs(x, TopologyServer, ns, os);
  }

  lemma RbacBelongs(x: string, ns: string, os: bool)
    ensures AllBelong(ns, os, x, RbacManifests(x, ns))
  {
    AccountsBelong(x, ns, os);
    RoleBelongs(x, DevicePlugin, ns, os); RoleBelongs(x, StatusUpdater, ns, os); RoleBelongs(x, MetricsExporter, ns,
      os);
    var dp, su, me := RoleAndBinding(x, DevicePlugin, ns), RoleAndBinding(x, StatusUpdater, ns),
      RoleAndBinding(x, MetricsExporter, ns);
    AllBelongConcat(ns, os, x, Accounts(x, ns), dp);
    AllBelongConcat(ns, os, x, Accounts(x, ns) + dp, su);
    AllBelongConcat(ns, os, x, Accounts(x, ns) + dp + su, me);
  }

  lemma SccBelongs(x: string, ns: string)
    ensures AllBelong(ns, true, x, SccManifests(x, ns))
  {
    var ms := SccManifests(x, ns);
    assert AuthoredFor(ns, true, ms[0].key, ms[0].obj, x, Scc);
    assert AuthoredFor(ns, true, ms[1].key, ms[1].obj, x, Scc);
  }

  lemma WorkloadBelongs(kind: Kind, x: string, c: Component, account: string, placement: Labels, ns: string, os: bool)
    requires (kind == DaemonSet || kind == Deployment) && Stem(kind, c).Some?
    ensures Belongs(ns, os, x, WorkloadManifest(kind, x, c, account, placement, ns))
  {
    var m := WorkloadManifest(kind, x, c, account, placement, ns);
    assert AuthoredFor(ns, os, m.key, m.obj, x, c);
  }

  lemma OptionalBelongs(x: string, spec: Spec, ns: string, os: bool)
    ensures AllBelong(ns, os, x, OptionalWorkloads(x, spec, ns))
  {
    var su := Only(spec.components.None? || spec.components.value.statusUpdater, [StatusUpdaterDeployment(x, ns)]);
    var me := Only(spec.components.None? || spec.components.value.metricsExporter, [MetricsExporterDaemonSet(x, ns)]);
    var ts := Only(spec.components.None? || spec.components.value.topologyServer, [TopologyServerDeployment(x, ns)]);
    WorkloadBelongs(Deployment, x, StatusUpdater, "status-updater-" + x, map[], ns, os);
    WorkloadBelongs(DaemonSet, x, MetricsExporter, "metrics-exporter-" + x, map[DeployDcgm := "true"], ns, os);
    WorkloadBelongs(Deployment, x, TopologyServer, "topology-server-" + x, map[], ns, os);
    AllBelongConcat(ns, os, x, su, me);
    AllBelongConcat(ns, os, x, su + me, ts);
  }

  lemma ComputeDomainsBelong(x: string, ns: string, os: bool)
    ensures AllBelong(ns, os, x, [ComputeDomainControllerDeployment(x, ns), ComputeDomainDraDaemonSet(x, ns)])
  {
    hide Belongs, WorkloadManifest;
    WorkloadBelongs(Deployment, x, ComputeDomainController, "device-plugin-" + x, map[], ns, os);
    WorkloadBelongs(DaemonSet, x, ComputeDomainDra, "device-plugin-" + x, map[DeployComputeDomain := "true"], ns, os);
  }

  lemma ExtraBelongs(x: string, spec: Spec, ns: string, os: bool)
    ensures AllBelong(ns, os, x, ExtraWorkloads(x, spec, ns))
  {
    var mig, dra := Only(spec.MigEnabled(), [MigFakerDaemonSet(x, ns)]), Only(spec.Dra(), [DraPluginDaemonSet(x, ns)]);
    var domains :=
      Only(spec.ComputeDomains(), [ComputeDomainControllerDeployment(x, ns), ComputeDomainDraDaemonSet(x, ns)]);
    WorkloadBelongs(DaemonSet, x, MigFaker, "device-plugin-" + x, map[DynamicMig := "true"], ns, os);
    WorkloadBelongs(DaemonSet, x, DraPlugin, "device-plugin-" + x, map[DeployDra := "true"], ns, os);
    ComputeDomainsBelong(x, ns, os);
    AllBelongConcat(ns, os, x, mig, dra);
    AllBelongConcat(ns, os, x, mig + dra, domains);
  }

  lemma ConfigBelongs(x: string, spec: Spec, p: GPUProfile, ns: string, os: bool)
    ensures AllBelong(ns, os, x, ConfigAndDevicePlugin(x, spec, p, ns))
  {
    var t, g := TopologyConfigMap(x, spec, p, ns), GPUProfileConfigMap(x, p, ns);
    assert AuthoredFor(ns, os, t.key, t.obj, x, Topology);
    assert g.key == ProfileKey(p.name, ns);
    assert AuthoredFor(ns, os, g.key, g.obj, x, GpuProfile);
    WorkloadBelongs(DaemonSet, x, DevicePlugin, "device-plugin-" + x, map[DeployDevicePlugin := "true"], ns, os);
  }

  lemma ServicesBelong(x: string, ns: string, os: bool)
    ensures AllBelong(ns, os, x, Services(x, ns))
  {
    var s1, s2 := ServiceManifest(x, MetricsExporter, ns), ServiceManifest(x, TopologyServer, ns);
    assert AuthoredFor(ns, os, s1.key, s1.obj, x, MetricsExporter);
    assert AuthoredFor(ns, os, s2.key, s2.obj, x, TopologyServer);
  }

  lemma RuntimeBelongs(x: string, ns: string, os: bool)
    ensures AllBelong(ns, os, x, [RuntimeClassManifest(x)])
  {
    var r := RuntimeClassManifest(x);
    assert AuthoredFor(ns, os, r.key, r.obj, x, Runtime);
  }

  lemma WorkloadsBelong(x: string, spec: Spec, p: GPUProfile, ns: string, os: bool)
    ensures AllBelong(ns, os, x, WorkloadManifests(x, spec, p, ns))
  {
    var first, optional := ConfigAndDevicePlugin(x, spec, p, ns), OptionalWorkloads(x, spec, ns);
    ConfigBelongs(x, spec, p, ns, os);
    ServicesBelong(x, ns, os);
    RuntimeBelongs(x, ns, os);
    OptionalBelongs(x, spec, ns, os);
    ExtraBelongs(x, spec, ns, os);
    AllBelongConcat(ns, os, x, first, optional);
    AllBelongConcat(ns, os, x, first + optional, Services(x, ns));
    AllBelongConcat(ns, os, x, first + optional + Services(x, ns), ExtraWorkloads(x, spec, ns));
    AllBelongConcat(ns, os, x, first + optional + Services(x, ns) + ExtraWorkloads(x, spec, ns),
      [RuntimeClassManifest(x)]);
  }

  /** Everything a run writes is a well-placed object of its own custom resource. */
  lemma PlanBelongs(x: string, spec: Spec, p: GPUProfile, ns: string, os: bool)
    ensures AllBelong(ns, os, x, Plan(x, spec, p, ns, os))
  {
    var scc := Only(os, SccManifests(x, ns));
    RbacBelongs(x, ns, os);
    if os { SccBelongs(x, ns); }
    WorkloadsBelong(x, spec, p, ns, os);
    AllBelongConcat(ns, os, x, RbacManifests(x, ns), scc);
    AllBelongConcat(ns, os, x, RbacManifests(x, ns) + scc, WorkloadManifests(x, spec, p, ns));
  }

  lemma NodeTopologyAuthored(node: string, spec: Spec, p: GPUProfile, ns: string, os: bool)
    ensures var m := NodeTopologyConfigMap(node, spec, p, ns); Authored(ns, os, m.key, m.obj)
  {
  }

  // ---------------------------------------------------------------- updates keep the frozen part

  /**
   * Two objects the operator writes at one key, for whatever custom resources and specs, agree on what cannot change.
   */
  lemma AuthoredFrozenAgree(ns: string, os: bool, k: Key, o1: Object, o2: Object)
    requires Authored(ns, os, k, o1) && Authored(ns, os, k, o2)
    ensures FrozenPart(k, o1) == FrozenPart(k, o2)
  {
    if k.kind == DaemonSet || k.kind == Deployment || k.kind == ClusterRoleBinding {
      var x1, c1 :| AuthoredFor(ns, os, k, o1, x1, c1);
      var x2, c2 :| AuthoredFor(ns, os, k, o2, x2, c2);
      PlacedUnique(ns, k, x1, c1, x2, c2);
    }
  }
}
