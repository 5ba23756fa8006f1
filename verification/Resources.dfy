/** The objects the operator writes for one custom resource (internal/resources). */
module Resources {
  import opened Basics
  import opened Api
  import TopologyText

  datatype Component =
    | DevicePlugin | StatusUpdater | MetricsExporter | TopologyServer | MigFaker | DraPlugin
    | ComputeDomainController | ComputeDomainDra | Scc | Topology | GpuProfile | Runtime

  function ComponentText(c: Component): string {
    match c
    case DevicePlugin => "device-plugin"
    case StatusUpdater => "status-updater"
    case MetricsExporter => "metrics-exporter"
    case TopologyServer => "topology-server"
    case MigFaker => "mig-faker"
    case DraPlugin => "dra-plugin"
    case ComputeDomainController => "compute-domain-controller"
    case ComputeDomainDra => "compute-domain-dra"
    case Scc => "scc"
    case Topology => "topology"
    case GpuProfile => "gpu-profile"
    case Runtime => "runtime"
  }

  const MANAGED_BY := "openshift-fake-gpu-operator"

  function CommonLabels(name: string, c: Component): Labels {
    map[AppName := "fake-gpu-operator", AppInstance := name,
        AppComponent := ComponentText(c), AppManagedBy := MANAGED_BY]
  }

  function SelectorLabels(name: string, c: Component): Labels {
    map[AppName := "fake-gpu-operator", AppInstance := name, AppComponent := ComponentText(c)]
  }

  // ---------------------------------------------------------------- names

  /** The text before the custom resource's name; None where the component has no object of that kind. */
  function Stem(kind: Kind, c: Component): Option<string> {
    match kind
    case DaemonSet =>
      if c == DevicePlugin then Some("device-plugin-")
      else if c == MetricsExporter then Some("nvidia-dcgm-exporter-")
      else if c == MigFaker then Some("mig-faker-")
      else if c == DraPlugin then Some("dra-plugin-")
      else if c == ComputeDomainDra then Some("compute-domain-dra-")
      else None
    case Deployment =>
      if c == StatusUpdater then Some("status-updater-")
      else if c == TopologyServer then Some("topology-server-")
      else if c == ComputeDomainController then Some("compute-domain-controller-")
      else None
    case Service =>
      if c == MetricsExporter then Some("nvidia-dcgm-exporter-")
      else if c == TopologyServer then Some("topology-server-")
      else None
    case ServiceAccount =>
      if c == DevicePlugin then Some("device-plugin-")
      else if c == StatusUpdater then Some("status-updater-")
      else if c == MetricsExporter then Some("metrics-exporter-")
      else if c == TopologyServer then Some("topology-server-")
      else None
    case ClusterRole | ClusterRoleBinding =>
      if c == DevicePlugin then Some("fake-gpu-device-plugin-")
      else if c == StatusUpdater then Some("fake-gpu-status-updater-")
      else if c == MetricsExporter then Some("fake-gpu-metrics-exporter-")
      else if c == Scc then Some("fake-gpu-scc-")
      else None
    case _ => None
  }

  function StemName(kind: Kind, c: Component, name: string): string
    requires Stem(kind, c).Some?
  {
    Stem(kind, c).value + name
  }

  // ---------------------------------------------------------------- rbac.go

  function AccountKey(name: string, c: Component, ns: string): Key
    requires Stem(ServiceAccount, c).Some?
  {
    Key(ServiceAccount, ns, StemName(ServiceAccount, c, name))
  }

  function AccountManifest(name: string, c: Component, ns: string): Manifest
    requires Stem(ServiceAccount, c).Some?
  {
    Manifest(AccountKey(name, c, ns), Object(CommonLabels(name, c), Plain))
  }

  function RoleKey(name: string, c: Component): Key
    requires Stem(ClusterRole, c).Some?
  {
    Key(ClusterRole, "", StemName(ClusterRole, c, name))
  }

  function RoleManifest(name: string, c: Component): Manifest
    requires Stem(ClusterRole, c).Some?
  {
    Manifest(RoleKey(name, c), Object(CommonLabels(name, c), Rules))
  }

  function BindingKey(name: string, c: Component): Key
    requires Stem(ClusterRole, c).Some?
  {
    Key(ClusterRoleBinding, "", StemName(ClusterRole, c, name))
  }

  function BindingManifest(name: string, c: Component, ns: string): Manifest
    requires Stem(ClusterRole, c).Some? && Stem(ServiceAccount, c).Some?
  {
    Manifest(BindingKey(name, c),
      Object(CommonLabels(name, c), Binding(RoleKey(name, c).name, [AccountKey(name, c, ns)])))
  }

  function SccSubjects(name: string, ns: string): seq<Key> {
    [AccountKey(name, DevicePlugin, ns), AccountKey(name, MetricsExporter, ns), AccountKey(name, StatusUpdater, ns)]
  }

  /** The loop that appends one subject per component. */
  method BuildSccSubjects(name: string, ns: string) returns (subjects: seq<Key>)
    ensures subjects == SccSubjects(name, ns)
  {
    subjects := [];
    var components := [DevicePlugin, MetricsExporter, StatusUpdater];
    for i := 0 to |components|
      invariant subjects == SccSubjects(name, ns)[..i]
    {
      subjects := subjects + [AccountKey(name, components[i], ns)];
    }
  }

  function SccBindingManifest(name: string, ns: string): Manifest {
    Manifest(BindingKey(name, Scc),
      Object(CommonLabels(name, Scc), Binding(RoleKey(name, Scc).name, SccSubjects(name, ns))))
  }

  /** The role, and the binding with the subjects the loop collects. */
  method BuildSccManifests(name: string, ns: string) returns (ms: seq<Manifest>)
    ensures ms == SccManifests(name, ns)
  {
    var subjects := BuildSccSubjects(name, ns);
    ms := [RoleManifest(name, Scc), Manifest(BindingKey(name, Scc),
      Object(CommonLabels(name, Scc), Binding(RoleKey(name, Scc).name, subjects)))];
  }

  // ---------------------------------------------------------------- daemonset.go, deployment.go

  function WorkloadManifest(kind: Kind, name: string, c: Component, account: string, placement: Labels,
      ns: string): Manifest
    requires Stem(kind, c).Some?
  {
    Manifest(Key(kind, ns, StemName(kind, c, name)),
      Object(CommonLabels(name, c),
        Workload(SelectorLabels(name, c), SelectorLabels(name, c), account, placement)))
  }

  function DevicePluginDaemonSet(name: string, ns: string): Manifest {
    WorkloadManifest(DaemonSet, name, DevicePlugin, "device-plugin-" + name, map[DeployDevicePlugin := "true"], ns)
  }

  function MetricsExporterDaemonSet(name: string, ns: string): Manifest {
    WorkloadManifest(DaemonSet, name, MetricsExporter, "metrics-exporter-" + name, map[DeployDcgm := "true"], ns)
  }

  function MigFakerDaemonSet(name: string, ns: string): Manifest {
    WorkloadManifest(DaemonSet, name, MigFaker, "device-plugin-" + name, map[DynamicMig := "true"], ns)
  }

  function DraPluginDaemonSet(name: string, ns: string): Manifest {
    WorkloadManifest(DaemonSet, name, DraPlugin, "device-plugin-" + name, map[DeployDra := "true"], ns)
  }

  function ComputeDomainDraDaemonSet(name: string, ns: string): Manifest {
    WorkloadManifest(DaemonSet, name, ComputeDomainDra, "device-plugin-" + name, map[DeployComputeDomain := "true"], ns)
  }

  function StatusUpdaterDeployment(name: string, ns: string): Manifest {
    WorkloadManifest(Deployment, name, StatusUpdater, "status-updater-" + name, map[], ns)
  }

  function TopologyServerDeployment(name: string, ns: string): Manifest {
    WorkloadManifest(Deployment, name, TopologyServer, "topology-server-" + name, map[], ns)
  }

  function ComputeDomainControllerDeployment(name: string, ns: string): Manifest {
    WorkloadManifest(Deployment, name, ComputeDomainController, "device-plugin-" + name, map[], ns)
  }

  // ---------------------------------------------------------------- service.go, runtimeclass.go

  function ServiceManifest(name: string, c: Component, ns: string): Manifest
    requires Stem(Service, c).Some?
  {
    Manifest(Key(Service, ns, StemName(Service, c, name)),
      Object(CommonLabels(name, c), Endpoint(SelectorLabels(name, c))))
  }

  const RUNTIME_KEY := Key(RuntimeClass, "", "nvidia")

  function RuntimeClassManifest(name: string): Manifest {
    Manifest(RUNTIME_KEY, Object(CommonLabels(name, Runtime), Handler("nvidia")))
  }

  // ---------------------------------------------------------------- configmap.go

  function Product(spec: Spec, profile: GPUProfile): string {
    if spec.custom.Some? then spec.custom.value.product else profile.product
  }

  function Memory(spec: Spec, profile: GPUProfile): int {
    if spec.custom.Some? then spec.custom.value.memory else profile.memory
  }

  function Strategy(spec: Spec): string {
    if spec.MigEnabled() then spec.mig.value.strategy else "none"
  }

  function TopologyKey(ns: string): Key { Key(ConfigMap, ns, "topology") }

  function TopologyConfigMap(name: string, spec: Spec, profile: GPUProfile, ns: string): Manifest {
    Manifest(TopologyKey(ns), Object(CommonLabels(name, Topology), Text("topology.yml",
      TopologyText.PoolTopologyText(name, spec.gpuCount, Memory(spec, profile), Product(spec, profile),
        Strategy(spec)))))
  }

  function ProfileKey(profileName: string, ns: string): Key { Key(ConfigMap, ns, "gpu-profile-" + profileName) }

  function GPUProfileConfigMap(name: string, profile: GPUProfile, ns: string): Manifest {
    Manifest(ProfileKey(profile.name, ns),
      Object(CommonLabels(name, GpuProfile)[GpuProfileMark := "true"],
        Device(profile.product, profile.architecture, profile.memory * 1024 * 1024)))
  }

  function NodeKey(node: string, ns: string): Key { Key(ConfigMap, ns, "topology-" + node) }

  function NodeTopologyLabels(node: string): Labels {
    map[NodeTopology := "true", NodeName := node]
  }

  function NodeTopologyConfigMap(node: string, spec: Spec, profile: GPUProfile, ns: string): Manifest {
    Manifest(NodeKey(node, ns), Object(NodeTopologyLabels(node), Text("topology.yml",
      TopologyText.NodeTopologyText(node, spec.gpuCount, Memory(spec, profile), Product(spec, profile),
        Strategy(spec)))))
  }

  /** The node's topology map, its text built by the loop over GPUs. */
  method BuildNodeTopologyConfigMap(node: string, spec: Spec, profile: GPUProfile, ns: string) returns (m: Manifest)
    ensures m == NodeTopologyConfigMap(node, spec, profile, ns)
  {
    var product, memory, strategy := profile.product, profile.memory, "none";
    if spec.custom.Some? {
      product, memory := spec.custom.value.product, spec.custom.value.memory;
    }
    if spec.mig.Some? && spec.mig.value.enabled {
      strategy := spec.mig.value.strategy;
    }
    var text := TopologyText.BuildNodeTopology(node, spec.gpuCount, memory, product, strategy);
    m := Manifest(NodeKey(node, ns), Object(NodeTopologyLabels(node), Text("topology.yml", text)));
  }

  // ---------------------------------------------------------------- what one run writes, in order

  function Accounts(name: string, ns: string): seq<Manifest> {
    [AccountManifest(name, DevicePlugin, ns), AccountManifest(name, StatusUpdater, ns),
     AccountManifest(name, MetricsExporter, ns), AccountManifest(name, TopologyServer, ns)]
  }

  function RoleAndBinding(name: string, c: Component, ns: string): seq<Manifest>
    requires Stem(ClusterRole, c).Some? && Stem(ServiceAccount, c).Some?
  {
    [RoleManifest(name, c), BindingManifest(name, c, ns)]
  }

  function RbacManifests(name: string, ns: string): seq<Manifest> {
    Accounts(name, ns) + RoleAndBinding(name, DevicePlugin, ns)
    + RoleAndBinding(name, StatusUpdater, ns) + RoleAndBinding(name, MetricsExporter, ns)
  }

  function SccManifests(name: string, ns: string): seq<Manifest> {
    [RoleManifest(name, Scc), SccBindingManifest(name, ns)]
  }

  function Only(included: bool, ms: seq<Manifest>): seq<Manifest> {
    if included then ms else []
  }

  function OptionalWorkloads(name: string, spec: Spec, ns: string): seq<Manifest> {
    Only(spec.components.None? || spec.components.value.statusUpdater, [StatusUpdaterDeployment(name, ns)])
    + Only(spec.components.None? || spec.components.value.metricsExporter, [MetricsExporterDaemonSet(name, ns)])
    + Only(spec.components.None? || spec.components.value.topologyServer, [TopologyServerDeployment(name, ns)])
  }

  function Services(name: string, ns: string): seq<Manifest> {
    [ServiceManifest(name, MetricsExporter, ns), ServiceManifest(name, TopologyServer, ns)]
  }

  function ExtraWorkloads(name: string, spec: Spec, ns: string): seq<Manifest> {
    Only(spec.MigEnabled(), [MigFakerDaemonSet(name, ns)])
    + Only(spec.Dra(), [DraPluginDaemonSet(name, ns)])
    + Only(spec.ComputeDomains(), [ComputeDomainControllerDeployment(name, ns), ComputeDomainDraDaemonSet(name, ns)])
  }

  function ConfigAndDevicePlugin(name: string, spec: Spec, profile: GPUProfile, ns: string): seq<Manifest> {
    [TopologyConfigMap(name, spec, profile, ns), GPUProfileConfigMap(name, profile, ns),
      DevicePluginDaemonSet(name, ns)]
  }

  function WorkloadManifests(name: string, spec: Spec, profile: GPUProfile, ns: string): seq<Manifest> {
    ConfigAndDevicePlugin(name, spec, profile, ns) + OptionalWorkloads(name, spec, ns)
    + Services(name, ns) + ExtraWorkloads(name, spec, ns) + [RuntimeClassManifest(name)]
  }

  /** Everything a run writes before it looks at nodes. */
  function Plan(name: string, spec: Spec, profile: GPUProfile, ns: string, openShift: bool): seq<Manifest> {
    RbacManifests(name, ns) + Only(openShift, SccManifests(name, ns)) + WorkloadManifests(name, spec, profile, ns)
  }

  // ---------------------------------------------------------------- node labels

  function DesiredLabels(name: string, spec: Spec): Labels {
    map[NodePool := name, DeployDevicePlugin := "true", DeployDcgm := "true"]
    + (if spec.MigEnabled() then map[DynamicMig := "true"] else map[])
    + (if spec.Dra() then map[DeployDra := "true"] else map[])
    + (if spec.ComputeDomains() then map[DeployComputeDomain := "true"] else map[])
  }

  /** The nodes a run lists: those matching the selector, or without one those in the pool. */
  function NodeListOption(name: string, spec: Spec): Labels {
    if spec.nodeSelector != map[] then spec.nodeSelector else map[NodePool := name]
  }

  /** The cluster-scoped objects deletion removes by name. */
  function ClusterKeys(name: string, openShift: bool): seq<Key> {
    [RoleKey(name, DevicePlugin), BindingKey(name, DevicePlugin),
     RoleKey(name, StatusUpdater), BindingKey(name, StatusUpdater),
     RoleKey(name, MetricsExporter), BindingKey(name, MetricsExporter),
     RUNTIME_KEY]
    + (if openShift then [RoleKey(name, Scc), BindingKey(name, Scc)] else [])
  }
}
