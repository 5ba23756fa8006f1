/** The custom resource (api/v1alpha1), GPU profiles, labels, and stored objects. */
module Api {
  import opened Basics

  // ---------------------------------------------------------------- labels

  /** Label keys the operator writes or queries; every other key is `Other`. */
  datatype LabelKey =
    | AppName | AppInstance | AppComponent | AppManagedBy   // app.kubernetes.io/...
    | GpuProfileMark                                        // fake-gpu-operator/gpu-profile
    | NodeTopology | NodeName                               // node-topology, node-name
    | HelmOwner | HelmName                                  // owner, name
    | NodePool                                              // run.ai/simulated-gpu-node-pool
    | DeployDevicePlugin                                    // nvidia.com/gpu.deploy.device-plugin
    | DeployDcgm                                            // nvidia.com/gpu.deploy.dcgm-exporter
    | DynamicMig                                            // node-role.kubernetes.io/runai-dynamic-mig
    | DeployDra                                             // nvidia.com/gpu.deploy.dra-plugin-gpu
    | DeployComputeDomain                                   // nvidia.com/gpu.deploy.compute-domain-dra-plugin
    | Other(text: string)

  type Labels = map<LabelKey, string>

  const MANAGED: set<LabelKey> :=
    {NodePool, DeployDevicePlugin, DeployDcgm, DynamicMig, DeployDra, DeployComputeDomain}

  /** Indexing a Go map: a missing key reads as the empty string. */
  function Read(l: Labels, k: LabelKey): string {
    if k in l then l[k] else ""
  }

  /** What a List with matching labels selects: the key must be there. */
  predicate Matches(selector: Labels, l: Labels) {
    forall k | k in selector :: k in l && l[k] == selector[k]
  }

  // ---------------------------------------------------------------- profiles

  datatype GPUProfile = GPUProfile(name: string, product: string, memory: int, architecture: string)

  /** The built-in profile table; MIG capabilities are not read by the operator. */
  function GetProfile(name: string): Option<GPUProfile> {
    if name == "a100" then Some(GPUProfile("a100", "NVIDIA-A100-SXM4-40GB", 40960, "Ampere"))
    else if name == "h100" then Some(GPUProfile("h100", "NVIDIA-H100-80GB-HBM3", 81920, "Hopper"))
    else if name == "h200" then Some(GPUProfile("h200", "NVIDIA-H200", 143771, "Hopper"))
    else if name == "b200" then Some(GPUProfile("b200", "NVIDIA-B200", 196608, "Blackwell"))
    else if name == "gb200" then Some(GPUProfile("gb200", "NVIDIA-GB200-NVL", 196608, "Blackwell"))
    else if name == "l40s" then Some(GPUProfile("l40s", "NVIDIA-L40S", 49152, "Ada Lovelace"))
    else if name == "t4" then Some(GPUProfile("t4", "Tesla-T4", 16384, "Turing"))
    else None
  }

  // ---------------------------------------------------------------- the custom resource

  datatype CustomGPU = CustomGPU(product: string, memory: int)

  datatype Mig = Mig(enabled: bool, strategy: string)

  /** `devicePlugin` is part of the schema but the controller never reads it. */
  datatype Components = Components(
    devicePlugin: bool, metricsExporter: bool, topologyServer: bool,
    statusUpdater: bool, dra: bool, computeDomainController: bool)

  datatype Spec = Spec(
    gpuProfile: string, gpuCount: int, custom: Option<CustomGPU>,
    nodeSelector: Labels, mig: Option<Mig>, components: Option<Components>)
  {
    predicate MigEnabled() { mig.Some? && mig.value.enabled }
    predicate Dra() { components.Some? && components.value.dra }
    predicate ComputeDomains() { components.Some? && components.value.computeDomainController }
  }

  datatype Reason = Reconciled | HelmConflict | InvalidProfile

  /** The one condition the controller sets, "Available". */
  datatype Condition = Condition(available: bool, reason: Reason)

  datatype Status = Status(
    condition: Option<Condition>, readyNodes: nat, totalNodes: nat,
    gpuProfile: string, gpuCountPerNode: int)

  const EMPTY_STATUS := Status(None, 0, 0, "", 0)

  const FINALIZER := "gpu.openshift.io/finalizer"

  datatype FakeGPUConfig = FakeGPUConfig(spec: Spec, status: Status, finalizers: set<string>, deleting: bool)

  /** The custom resource as a process holds it in memory. */
  datatype Config = Config(name: string, rv: nat, cr: FakeGPUConfig)

  function ResolveProfile(spec: Spec): Option<GPUProfile> {
    if spec.custom.Some? then
      Some(GPUProfile("custom", spec.custom.value.product, spec.custom.value.memory, ""))
    else if spec.gpuProfile == "" then None
    else GetProfile(spec.gpuProfile)
  }

  // ---------------------------------------------------------------- stored objects

  datatype Kind =
    | DaemonSet | Deployment | Service | ServiceAccount | ConfigMap | Secret
    | ClusterRole | ClusterRoleBinding | RuntimeClass

  /** Cluster-scoped objects have the empty namespace. */
  datatype Key = Key(kind: Kind, ns: string, name: string)

  datatype Body =
    | Workload(selector: Labels, podLabels: Labels, account: string, placement: Labels)
    | Endpoint(selector: Labels)
    | Text(file: string, text: string)
    | Device(product: string, architecture: string, totalBytes: int)
    | Rules
    | Binding(roleRef: string, subjects: seq<Key>)
    | Handler(handler: string)
    | Plain

  datatype Object = Object(labels: Labels, body: Body)

  datatype Manifest = Manifest(key: Key, obj: Object)

  datatype Frozen = Selector(labels: Labels) | RoleRef(role: string) | Nothing

  /** The part of an object the API server refuses to change on update. */
  function FrozenPart(k: Key, o: Object): Frozen {
    if (k.kind == DaemonSet || k.kind == Deployment) && o.body.Workload? then Selector(o.body.selector)
    else if k.kind == ClusterRoleBinding && o.body.Binding? then RoleRef(o.body.roleRef)
    else Nothing
  }
}
