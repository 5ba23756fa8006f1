/**
 * What a run sets up, told without the builders: which objects under which switches, who may do what, which pods belong
 * to which workload, and where they may run.
 */
module Blueprint {
  import opened Basics
  import opened Api
  import opened Profiles
  import opened Resources
  import opened Naming
  import opened Cluster
  import opened Protocol
  import opened Convergence
  import opened Recovery
  import opened Outcome
  import TopologyText

  // ---------------------------------------------------------------- which objects

  /** The objects called for, kind by kind. A missing `components` switches on what is on by default. */
  predicate CalledFor(x: string, spec: Spec, profile: string, ns: string, openShift: bool, k: Key) {
    match k.kind
    case ServiceAccount =>
      k.ns == ns && (k.name == "device-plugin-" + x || k.name == "status-updater-" + x
        || k.name == "metrics-exporter-" + x || k.name == "topology-server-" + x)
    case ClusterRole | ClusterRoleBinding =>
      k.ns == "" && (k.name == "fake-gpu-device-plugin-" + x || k.name == "fake-gpu-status-updater-" + x
        || k.name == "fake-gpu-metrics-exporter-" + x || (openShift && k.name == "fake-gpu-scc-" + x))
    case ConfigMap => k.ns == ns && (k.name == "topology" || k.name == "gpu-profile-" + profile)
    case DaemonSet =>
      k.ns == ns && (k.name == "device-plugin-" + x
        || (k.name == "nvidia-dcgm-exporter-" + x && (spec.components == None || spec.components.value.metricsExporter))
        || (k.name == "mig-faker-" + x && spec.mig.Some? && spec.mig.value.enabled)
        || (k.name == "dra-plugin-" + x && spec.components.Some? && spec.components.value.dra)
        || (k.name == "compute-domain-dra-" + x
            && spec.components.Some? && spec.components.value.computeDomainController))
    case Deployment =>
      k.ns == ns
        && ((k.name == "status-updater-" + x && (spec.components == None || spec.components.value.statusUpdater))
        || (k.name == "topology-server-" + x && (spec.components == None || spec.components.value.topologyServer))
        || (k.name == "compute-domain-controller-" + x
            && spec.components.Some? && spec.components.value.computeDomainController))
    case Service => k.ns == ns && (k.name == "nvidia-dcgm-exporter-" + x || k.name == "topology-server-" + x)
    case RuntimeClass => k.ns == "" && k.name == "nvidia"
    case Secret => false
  }

  lemma WritingOne(included: bool, m: Manifest, k: Key)
    ensures Writing(Only(included, [m]), k) <==> included && m.key == k
  {
    if included && m.key == k { assert [m][0].key == k; }
  }

  lemma WritingTwo(m: Manifest, n: Manifest, k: Key)
    ensures Writing([m, n], k) <==> m.key == k || n.key == k
  {
    assert [m, n][0] == m && [m, n][1] == n;
  }

  lemma AccountsCalled(x: string, ns: string, k: Key)
    ensures Writing(Accounts(x, ns), k) <==>
      k.kind == ServiceAccount && k.ns == ns && (k.name == "device-plugin-" + x || k.name == "status-updater-" + x
        || k.name == "metrics-exporter-" + x || k.name == "topology-server-" + x)
  {
    hide CommonLabels;
    var ms := Accounts(x, ns);
    assert ms[0].key == Key(ServiceAccount, ns, "device-plugin-" + x);
    assert ms[1].key == Key(ServiceAccount, ns, "status-updater-" + x);
    assert ms[2].key == Key(ServiceAccount, ns, "metrics-exporter-" + x);
    assert ms[3].key == Key(ServiceAccount, ns, "topology-server-" + x);
  }

  lemma RolesCalled(x: string, ns: string, k: Key)
    ensures Writing(RoleAndBinding(x, DevicePlugin, ns) + RoleAndBinding(x, StatusUpdater, ns)
              + RoleAndBinding(x, MetricsExporter, ns), k) <==>
      (k.kind == ClusterRole || k.kind == ClusterRoleBinding) && k.ns == ""
        && (k.name == "fake-gpu-device-plugin-" + x || k.name == "fake-gpu-status-updater-" + x
            || k.name == "fake-gpu-metrics-exporter-" + x)
  {
    hide CommonLabels;
    var dp, su, me := RoleAndBinding(x, DevicePlugin, ns), RoleAndBinding(x, StatusUpdater, ns),
      RoleAndBinding(x, MetricsExporter, ns);
    WritingConcat(dp + su, me, k);
    WritingConcat(dp, su, k);
    WritingTwo(RoleManifest(x, DevicePlugin), BindingManifest(x, DevicePlugin, ns), k);
    WritingTwo(RoleManifest(x, StatusUpdater), BindingManifest(x, StatusUpdater, ns), k);
    WritingTwo(RoleManifest(x, MetricsExporter), BindingManifest(x, MetricsExporter, ns), k);
  }

  lemma SccCalled(x: string, ns: string, openShift: bool, k: Key)
    ensures Writing(Only(openShift, SccManifests(x, ns)), k) <==>
      && openShift && (k.kind == ClusterRole || k.kind == ClusterRoleBinding)
      && k.ns == "" && k.name == "fake-gpu-scc-" + x
  {
    hide CommonLabels, SccSubjects;
    WritingTwo(RoleManifest(x, Scc), SccBindingManifest(x, ns), k);
  }

  lemma ConfigCalled(x: string, spec: Spec, p: GPUProfile, ns: string, k: Key)
    ensures Writing(ConfigAndDevicePlugin(x, spec, p, ns), k) <==>
      k.ns == ns && ((k.kind == ConfigMap && (k.name == "topology" || k.name == "gpu-profile-" + p.name))
        || (k.kind == DaemonSet && k.name == "device-plugin-" + x))
  {
    hide CommonLabels, SelectorLabels;
    var ms := ConfigAndDevicePlugin(x, spec, p, ns);
    assert ms[0].key == Key(ConfigMap, ns, "topology") && ms[1].key == Key(ConfigMap, ns, "gpu-profile-" + p.name);
    assert ms[2].key == Key(DaemonSet, ns, "device-plugin-" + x);
  }

  lemma OptionalCalled(x: string, spec: Spec, ns: string, k: Key)
    ensures Writing(OptionalWorkloads(x, spec, ns), k) <==>
      || (k == Key(Deployment, ns, "status-updater-" + x)
          && (spec.components == None || spec.components.value.statusUpdater))
      || (k == Key(DaemonSet, ns, "nvidia-dcgm-exporter-" + x)
          && (spec.components == None || spec.components.value.metricsExporter))
      || (k == Key(Deployment, ns, "topology-server-" + x)
          && (spec.components == None || spec.components.value.topologyServer))
  {
    hide CommonLabels, SelectorLabels;
    var su := Only(spec.components.None? || spec.components.value.statusUpdater, [StatusUpdaterDeployment(x, ns)]);
    var me := Only(spec.components.None? || spec.components.value.metricsExporter, [MetricsExporterDaemonSet(x, ns)]);
    var ts := Only(spec.components.None? || spec.components.value.topologyServer, [TopologyServerDeployment(x, ns)]);
    WritingConcat(su + me, ts, k);
    WritingConcat(su, me, k);
    WritingOne(spec.components.None? || spec.components.value.statusUpdater, StatusUpdaterDeployment(x, ns), k);
    WritingOne(spec.components.None? || spec.components.value.metricsExporter, MetricsExporterDaemonSet(x, ns), k);
    WritingOne(spec.components.None? || spec.components.value.topologyServer, TopologyServerDeployment(x, ns), k);
  }

  lemma ExtraCalled(x: string, spec: Spec, ns: string, k: Key)
    ensures Writing(ExtraWorkloads(x, spec, ns), k) <==>
      || (k == Key(DaemonSet, ns, "mig-faker-" + x) && spec.mig.Some? && spec.mig.value.enabled)
      || (k == Key(DaemonSet, ns, "dra-plugin-" + x) && spec.components.Some? && spec.components.value.dra)
      || ((k == Key(Deployment, ns, "compute-domain-controller-" + x)
           || k == Key(DaemonSet, ns, "compute-domain-dra-" + x))
          && spec.components.Some? && spec.components.value.computeDomainController)
  {
    hide CommonLabels, SelectorLabels;
    var mig, dra := Only(spec.MigEnabled(), [MigFakerDaemonSet(x, ns)]), Only(spec.Dra(), [DraPluginDaemonSet(x, ns)]);
    var controller, domains := ComputeDomainControllerDeployment(x, ns), ComputeDomainDraDaemonSet(x, ns);
    WritingConcat(mig + dra, Only(spec.ComputeDomains(), [controller, domains]), k);
    WritingConcat(mig, dra, k);
    WritingOne(spec.MigEnabled(), MigFakerDaemonSet(x, ns), k);
    WritingOne(spec.Dra(), DraPluginDaemonSet(x, ns), k);
    WritingTwo(controller, domains, k);
  }

  lemma ServicesCalled(x: string, ns: string, k: Key)
    ensures Writing(Services(x, ns), k) <==>
      k.kind == Service && k.ns == ns && (k.name == "nvidia-dcgm-exporter-" + x || k.name == "topology-server-" + x)
  {
    hide CommonLabels, SelectorLabels;
    WritingTwo(ServiceManifest(x, MetricsExporter, ns), ServiceManifest(x, TopologyServer, ns), k);
  }

  lemma RuntimeCalled(x: string, k: Key)
    ensures Writing([RuntimeClassManifest(x)], k) <==> k.kind == RuntimeClass && k.ns == "" && k.name == "nvidia"
  {
    hide CommonLabels;
    assert [RuntimeClassManifest(x)][0].key == Key(RuntimeClass, "", "nvidia");
  }

  lemma PlanInParts(x: string, spec: Spec, p: GPUProfile, ns: string, openShift: bool, k: Key)
    ensures Writing(Plan(x, spec, p, ns, openShift), k) <==>
      || Writing(Accounts(x, ns), k)
      || Writing(RoleAndBinding(x, DevicePlugin, ns) + RoleAndBinding(x, StatusUpdater, ns)
           + RoleAndBinding(x, MetricsExporter, ns), k)
      || Writing(Only(openShift, SccManifests(x, ns)), k) || Writing(ConfigAndDevicePlugin(x, spec, p, ns), k)
      || Writing(OptionalWorkloads(x, spec, ns), k) || Writing(Services(x, ns), k)
      || Writing(ExtraWorkloads(x, spec, ns), k) || Writing([RuntimeClassManifest(x)], k)
  {
    hide Accounts, RoleAndBinding, SccManifests, ConfigAndDevicePlugin, OptionalWorkloads, Services, ExtraWorkloads,
      RuntimeClassManifest, Writing;
    var accounts, dp, su, me := Accounts(x, ns), RoleAndBinding(x, DevicePlugin, ns),
      RoleAndBinding(x, StatusUpdater, ns), RoleAndBinding(x, MetricsExporter, ns);
    var config, optional, services, extra := ConfigAndDevicePlugin(x, spec, p, ns), OptionalWorkloads(x, spec, ns),
      Services(x, ns), ExtraWorkloads(x, spec, ns);
    WritingConcat(RbacManifests(x, ns) + Only(openShift, SccManifests(x, ns)), WorkloadManifests(x, spec, p, ns), k);
    WritingConcat(RbacManifests(x, ns), Only(openShift, SccManifests(x, ns)), k);
    assert RbacManifests(x, ns) == accounts + (dp + su + me);
    WritingConcat(accounts, dp + su + me, k);
    WritingConcat(config + optional + services + extra, [RuntimeClassManifest(x)], k);
    WritingConcat(config + optional + services, extra, k);
    WritingConcat(config + optional, services, k);
    WritingConcat(config, optional, k);
  }

  /** Before it looks at nodes, a run writes exactly the objects called for. */
  lemma PlanIsCalledFor(x: string, spec: Spec, p: GPUProfile, ns: string, openShift: bool, k: Key)
    ensures Writing(Plan(x, spec, p, ns, openShift), k) <==> CalledFor(x, spec, p.name, ns, openShift, k)
  {
    hide Plan, Accounts, RoleAndBinding, SccManifests, ConfigAndDevicePlugin, OptionalWorkloads, Services,
      ExtraWorkloads, RuntimeClassManifest, Writing;
    PlanInParts(x, spec, p, ns, openShift, k);
    AccountsCalled(x, ns, k);
    RolesCalled(x, ns, k);
    SccCalled(x, ns, openShift, k);
    ConfigCalled(x, spec, p, ns, k);
    OptionalCalled(x, spec, ns, k);
    ServicesCalled(x, ns, k);
    ExtraCalled(x, spec, ns, k);
    RuntimeCalled(x, k);
  }

  // ---------------------------------------------------------------- what is in them

  /** The labels by which the pods of one component of one custom resource are found. */
  function PodsOf(x: string, component: string): Labels {
    map[AppName := "fake-gpu-operator", AppInstance := x, AppComponent := component]
  }

  predicate Marked(o: Object, x: string, component: string) {
    o.labels == PodsOf(x, component)[AppManagedBy := "openshift-fake-gpu-operator"]
  }

  /** A workload that finds its own pods, runs them under `account`, and only on nodes with these labels. */
  predicate Runs(o: Object, x: string, component: string, account: string, placement: Labels) {
    Marked(o, x, component) && o.body == Workload(PodsOf(x, component), PodsOf(x, component), account, placement)
  }

  predicate DaemonSetSpelled(x: string, name: string, o: Object) {
    || (name == "device-plugin-" + x
        && Runs(o, x, "device-plugin", "device-plugin-" + x, map[DeployDevicePlugin := "true"]))
    || (name == "nvidia-dcgm-exporter-" + x
        && Runs(o, x, "metrics-exporter", "metrics-exporter-" + x, map[DeployDcgm := "true"]))
    || (name == "mig-faker-" + x && Runs(o, x, "mig-faker", "device-plugin-" + x, map[DynamicMig := "true"]))
    || (name == "dra-plugin-" + x && Runs(o, x, "dra-plugin", "device-plugin-" + x, map[DeployDra := "true"]))
    || (name == "compute-domain-dra-" + x
        && Runs(o, x, "compute-domain-dra", "device-plugin-" + x, map[DeployComputeDomain := "true"]))
  }

  predicate DeploymentSpelled(x: string, name: string, o: Object) {
    || (name == "status-updater-" + x && Runs(o, x, "status-updater", "status-updater-" + x, map[]))
    || (name == "topology-server-" + x && Runs(o, x, "topology-server", "topology-server-" + x, map[]))
    || (name == "compute-domain-controller-" + x
        && Runs(o, x, "compute-domain-controller", "device-plugin-" + x, map[]))
  }

  /** The role of the same name, granted to these service accounts. */
  predicate Grants(o: Object, x: string, component: string, role: string, subjects: seq<Key>) {
    Marked(o, x, component) && o.body == Binding(role, subjects)
  }

  predicate BindingSpelled(x: string, ns: string, name: string, o: Object) {
    || (name == "fake-gpu-device-plugin-" + x
        && Grants(o, x, "device-plugin", name, [Key(ServiceAccount, ns, "device-plugin-" + x)]))
    || (name == "fake-gpu-status-updater-" + x
        && Grants(o, x, "status-updater", name, [Key(ServiceAccount, ns, "status-updater-" + x)]))
    || (name == "fake-gpu-metrics-exporter-" + x
        && Grants(o, x, "metrics-exporter", name, [Key(ServiceAccount, ns, "metrics-exporter-" + x)]))
    || (name == "fake-gpu-scc-" + x
        && Grants(o, x, "scc", name, [Key(ServiceAccount, ns, "device-plugin-" + x),
             Key(ServiceAccount, ns, "metrics-exporter-" + x), Key(ServiceAccount, ns, "status-updater-" + x)]))
  }

  predicate RoleSpelled(x: string, name: string, o: Object) {
    o.body == Rules && (
      || (name == "fake-gpu-device-plugin-" + x && Marked(o, x, "device-plugin"))
      || (name == "fake-gpu-status-updater-" + x && Marked(o, x, "status-updater"))
      || (name == "fake-gpu-metrics-exporter-" + x && Marked(o, x, "metrics-exporter"))
      || (name == "fake-gpu-scc-" + x && Marked(o, x, "scc")))
  }

  predicate AccountSpelled(x: string, name: string, o: Object) {
    o.body == Plain && (
      || (name == "device-plugin-" + x && Marked(o, x, "device-plugin"))
      || (name == "status-updater-" + x && Marked(o, x, "status-updater"))
      || (name == "metrics-exporter-" + x && Marked(o, x, "metrics-exporter"))
      || (name == "topology-server-" + x && Marked(o, x, "topology-server")))
  }

  predicate ServiceSpelled(x: string, name: string, o: Object) {
    || (name == "nvidia-dcgm-exporter-" + x
        && Marked(o, x, "metrics-exporter") && o.body == Endpoint(PodsOf(x, "metrics-exporter")))
    || (name == "topology-server-" + x
        && Marked(o, x, "topology-server") && o.body == Endpoint(PodsOf(x, "topology-server")))
  }

  /** The pool's text can be read back, as far as it is one line each; the profile's map describes the profile. */
  predicate MapSpelled(x: string, spec: Spec, p: GPUProfile, name: string, o: Object) {
    || (name == "topology" && Marked(o, x, "topology") && o.body.Text? && o.body.file == "topology.yml"
        && o.body.text == TopologyText.PoolTopologyText(x, spec.gpuCount, p.memory, p.product, StrategyOf(spec)))
    || (name == "gpu-profile-" + p.name
        && o.labels == PodsOf(x, "gpu-profile")[AppManagedBy := "openshift-fake-gpu-operator"][GpuProfileMark := "true"]
        && o.body == Device(p.product, p.architecture, p.memory * 1048576))
  }

  /** What the object at `k` has to be. */
  predicate Spelled(x: string, spec: Spec, p: GPUProfile, ns: string, k: Key, o: Object) {
    match k.kind
    case DaemonSet => DaemonSetSpelled(x, k.name, o)
    case Deployment => DeploymentSpelled(x, k.name, o)
    case ClusterRoleBinding => BindingSpelled(x, ns, k.name, o)
    case ClusterRole => RoleSpelled(x, k.name, o)
    case ServiceAccount => AccountSpelled(x, k.name, o)
    case Service => ServiceSpelled(x, k.name, o)
    case ConfigMap => MapSpelled(x, spec, p, k.name, o)
    case RuntimeClass => Marked(o, x, "runtime") && o.body == Handler("nvidia")
    case Secret => false
  }

  ghost predicate AllSpelled(x: string, spec: Spec, p: GPUProfile, ns: string, ms: seq<Manifest>) {
    forall m | m in ms :: Spelled(x, spec, p, ns, m.key, m.obj)
  }

  lemma AccountsSpelled(x: string, spec: Spec, p: GPUProfile, ns: string)
    ensures AllSpelled(x, spec, p, ns, Accounts(x, ns))
  {
  }

  lemma RolesSpelled(x: string, spec: Spec, p: GPUProfile, ns: string)
    ensures AllSpelled(x, spec, p, ns, RoleAndBinding(x, DevicePlugin, ns))
    ensures AllSpelled(x, spec, p, ns, RoleAndBinding(x, StatusUpdater, ns))
    ensures AllSpelled(x, spec, p, ns, RoleAndBinding(x, MetricsExporter, ns))
  {
  }

  lemma SccSpelled(x: string, spec: Spec, p: GPUProfile, ns: string)
    ensures AllSpelled(x, spec, p, ns, SccManifests(x, ns))
  {
  }

  lemma PoolMapSpelled(x: string, spec: Spec, p: GPUProfile, ns: string)
    requires ResolveProfile(spec) == Some(p)
    ensures var m := TopologyConfigMap(x, spec, p, ns); Spelled(x, spec, p, ns, m.key, m.obj)
  {
    hide ResolveProfile, Product, Memory, Strategy, StrategyOf, TopologyText.PoolTopologyText;
    ProfileValues(spec, p);
  }

  lemma ProfileMapSpelled(x: string, spec: Spec, p: GPUProfile, ns: string)
    ensures var m := GPUProfileConfigMap(x, p, ns); Spelled(x, spec, p, ns, m.key, m.obj)
  {
    hide StrategyOf, TopologyText.PoolTopologyText;
    assert p.memory * 1024 * 1024 == p.memory * 1048576;
  }

  lemma DevicePluginSpelled(x: string, spec: Spec, p: GPUProfile, ns: string)
    ensures var m := DevicePluginDaemonSet(x, ns); Spelled(x, spec, p, ns, m.key, m.obj)
  {
  }

  lemma OptionalSpelled(x: string, spec: Spec, p: GPUProfile, ns: string)
    ensures AllSpelled(x, spec, p, ns, OptionalWorkloads(x, spec, ns))
  {
  }

  lemma ExtraSpelled(x: string, spec: Spec, p: GPUProfile, ns: string)
    ensures AllSpelled(x, spec, p, ns, ExtraWorkloads(x, spec, ns))
  {
  }

  lemma ServicesSpelled(x: string, spec: Spec, p: GPUProfile, ns: string)
    ensures AllSpelled(x, spec, p, ns, Services(x, ns)) && AllSpelled(x, spec, p, ns, [RuntimeClassManifest(x)])
  {
  }

  /** Everything a run writes before it looks at nodes is as spelled out. */
  lemma PlanSpelled(x: string, spec: Spec, p: GPUProfile, ns: string, openShift: bool)
    requires ResolveProfile(spec) == Some(p)
    ensures AllSpelled(x, spec, p, ns, Plan(x, spec, p, ns, openShift))
  {
    hide Accounts, RoleAndBinding, SccManifests, OptionalWorkloads, Services, ExtraWorkloads, RuntimeClassManifest,
      Spelled, TopologyConfigMap, GPUProfileConfigMap, DevicePluginDaemonSet, ResolveProfile;
    AccountsSpelled(x, spec, p, ns);
    RolesSpelled(x, spec, p, ns);
    SccSpelled(x, spec, p, ns);
    PoolMapSpelled(x, spec, p, ns);
    ProfileMapSpelled(x, spec, p, ns);
    DevicePluginSpelled(x, spec, p, ns);
    OptionalSpelled(x, spec, p, ns);
    ExtraSpelled(x, spec, p, ns);
    ServicesSpelled(x, spec, p, ns);
  }

  /** `m` is in the plan of a run for `x`. */
  ghost predicate InPlan(x: string, spec: Spec, ns: string, os: bool, m: Manifest) {
    ResolveProfile(spec).Some? && m in Plan(x, spec, ResolveProfile(spec).value, ns, os)
  }

  lemma PlannedSpelled(x: string, spec: Spec, ns: string, os: bool, m: Manifest)
    requires InPlan(x, spec, ns, os, m)
    ensures ResolveProfile(spec).Some?
    ensures var p := ResolveProfile(spec).value;
      Spelled(x, spec, p, ns, m.key, m.obj) && CalledFor(x, spec, p.name, ns, os, m.key)
  {
    hide Plan, Spelled, CalledFor, ResolveProfile;
    var p := ResolveProfile(spec).value;
    PlanSpelled(x, spec, p, ns, os);
    var i :| 0 <= i < |Plan(x, spec, p, ns, os)| && Plan(x, spec, p, ns, os)[i] == m;
    PlanIsCalledFor(x, spec, p, ns, os, m.key);
  }
}
