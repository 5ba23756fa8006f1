/**
 * The controller as a process that performs one API call at a time. What is left of a run is a list of operations;
 * performing the first one calls the API server and may put further operations in front of the rest. Other clients
 * may act between any two calls, a call may fail, and the process may be restarted at any point.
 */
module Protocol {
  import opened Basics
  import opened Api
  import opened Resources
  import opened Cluster

  datatype Op =
    // Reconcile
    | Begin(name: string)
    | SaveFinalizer(cfg: Config)
    | FindHelmSecrets(cfg: Config)
    | FindHelmTopology(cfg: Config)
    | Probe(cfg: Config)
    | Fetch(owner: string, m: Manifest)
    | Create(owner: string, m: Manifest)
    | Replace(owner: string, m: Manifest, rv: nat)
    | ListSelected(cfg: Config)
    | LabelNode(seen: Seen, cfg: Config)
    | ListPool(cfg: Config, profile: GPUProfile)
    | CountNodes(cfg: Config, profile: GPUProfile)
    | SaveStatus(cfg: Config, status: Status)
    // handleDeletion
    | Sweep(cfg: Config, kind: Kind, selector: Labels)
    | Remove(cfg: Config, key: Key)
    | ListPooled(cfg: Config)
    | UnlabelNode(seen: Seen, cfg: Config)
    | ProbeForRemoval(cfg: Config)
    | DropFinalizer(cfg: Config)

  /** The operation carries a manifest that is to be written. */
  predicate Puts(op: Op) { op.Fetch? || op.Create? || op.Replace? }

  /** `memo` is the remembered OpenShift answer; `failed` says the last run returned an error. */
  datatype Sys = Sys(c: Store, ns: string, memo: Option<bool>, todo: seq<Op>, failed: bool)

  // ---------------------------------------------------------------- node labels

  /** Desired labels the node reads differently; a missing label reads as the empty string. */
  function WrongLabels(l: Labels, desired: Labels): Labels {
    map k | k in desired && Read(l, k) != desired[k] :: desired[k]
  }

  predicate NeedsUpdate(l: Labels, desired: Labels) {
    WrongLabels(l, desired) != map[]
  }

  function Relabel(l: Labels, desired: Labels): Labels {
    l + WrongLabels(l, desired)
  }

  function Desired(cfg: Config): Labels { DesiredLabels(cfg.name, cfg.cr.spec) }

  function LabelOps(seen: seq<Seen>, cfg: Config): seq<Op> {
    if seen == [] then []
    else
      (if NeedsUpdate(seen[0].labels, Desired(cfg)) then [LabelNode(seen[0], cfg)] else []) + LabelOps(seen[1..], cfg)
  }

  function UnlabelOps(seen: seq<Seen>, cfg: Config): seq<Op> {
    seq(|seen|, i requires 0 <= i < |seen| => UnlabelNode(seen[i], cfg))
  }

  // ---------------------------------------------------------------- programs

  function Fetches(owner: string, ms: seq<Manifest>): seq<Op> {
    seq(|ms|, i requires 0 <= i < |ms| => Fetch(owner, ms[i]))
  }

  function ApplyProgram(cfg: Config, profile: GPUProfile, ns: string, memo: Option<bool>): seq<Op> {
    Fetches(cfg.name, RbacManifests(cfg.name, ns))
    + (match memo
       case None => [Probe(cfg)]
       case Some(openShift) => Fetches(cfg.name, Only(openShift, SccManifests(cfg.name, ns))))
    + Fetches(cfg.name, WorkloadManifests(cfg.name, cfg.cr.spec, profile, ns))
    + [ListSelected(cfg), ListPool(cfg, profile), CountNodes(cfg, profile)]
  }

  function WithCondition(status: Status, available: bool, reason: Reason): Status {
    status.(condition := Some(Condition(available, reason)))
  }

  /** After the Helm check. */
  function AfterHelm(cfg: Config, ns: string, memo: Option<bool>): seq<Op> {
    match ResolveProfile(cfg.cr.spec)
    case None => [SaveStatus(cfg, WithCondition(cfg.cr.status, false, InvalidProfile))]
    case Some(profile) => ApplyProgram(cfg, profile, ns, memo)
  }

  function HelmStatus(cfg: Config): seq<Op> {
    [SaveStatus(cfg, WithCondition(cfg.cr.status, false, HelmConflict))]
  }

  function InstanceLabels(name: string): Labels { map[AppInstance := name] }

  const NODE_TOPOLOGY: Labels := map[NodeTopology := "true"]

  function Sweeps(cfg: Config): seq<Op> {
    [Sweep(cfg, DaemonSet, InstanceLabels(cfg.name)),
     Sweep(cfg, Deployment, InstanceLabels(cfg.name)),
     Sweep(cfg, Service, InstanceLabels(cfg.name)),
     Sweep(cfg, ServiceAccount, InstanceLabels(cfg.name)),
     Sweep(cfg, ConfigMap, InstanceLabels(cfg.name)),
     Sweep(cfg, ConfigMap, NODE_TOPOLOGY)]
  }

  function Removes(cfg: Config, keys: seq<Key>): seq<Op> {
    seq(|keys|, i requires 0 <= i < |keys| => Remove(cfg, keys[i]))
  }

  function ClusterCleanup(cfg: Config, memo: Option<bool>): seq<Op> {
    match memo
    case None => [ProbeForRemoval(cfg)]
    case Some(openShift) => Removes(cfg, ClusterKeys(cfg.name, openShift))
  }

  function DeleteProgram(cfg: Config, memo: Option<bool>): seq<Op> {
    Sweeps(cfg) + [ListPooled(cfg)] + ClusterCleanup(cfg, memo) + [DropFinalizer(cfg)]
  }

  /** Where a run goes once it has the custom resource. */
  function Route(cfg: Config, memo: Option<bool>): seq<Op> {
    if cfg.cr.deleting then DeleteProgram(cfg, memo)
    else if FINALIZER in cfg.cr.finalizers then [FindHelmSecrets(cfg)]
    else [SaveFinalizer(cfg)]
  }

  function PoolLabels(name: string): Labels { map[NodePool := name] }

  function PoolManifests(seen: seq<Seen>, spec: Spec, profile: GPUProfile, ns: string): seq<Manifest> {
    seq(|seen|, i requires 0 <= i < |seen| => NodeTopologyConfigMap(seen[i].name, spec, profile, ns))
  }

  function CountReady(seen: seq<Seen>): (ready: nat)
    ensures ready <= |seen|
  {
    if seen == [] then 0
    else (if Read(seen[0].labels, DeployDevicePlugin) == "true" then 1 else 0) + CountReady(seen[1..])
  }

  function FinalStatus(status: Status, seen: seq<Seen>, spec: Spec, profile: GPUProfile): Status {
    status.(condition := Some(Condition(true, Reconciled)), readyNodes := CountReady(seen), totalNodes := |seen|,
            gpuProfile := profile.name, gpuCountPerNode := spec.gpuCount)
  }

  // ---------------------------------------------------------------- Helm

  predicate IsHelmSecret(k: Key, o: Object) {
    k.kind == Secret && Matches(map[HelmOwner := "helm", HelmName := "gpu-operator"], o.labels)
  }

  predicate IsHelmTopology(k: Key, o: Object) {
    k.kind == ConfigMap && k.name == "topology" && Matches(map[AppManagedBy := "Helm"], o.labels)
  }

  predicate HelmSecretStored(c: Store) { exists k | k in c.objs :: IsHelmSecret(k, c.objs[k]) }

  predicate HelmTopologyStored(c: Store) { exists k | k in c.objs :: IsHelmTopology(k, c.objs[k]) }

  // ---------------------------------------------------------------- one call

  function Continue(s: Sys, ops: seq<Op>): Sys
    requires s.todo != []
  {
    s.(todo := ops + s.todo[1..])
  }

  /** Reconcile returns: nothing is left to do. */
  function Return(s: Sys, failed: bool): Sys {
    s.(todo := [], failed := failed)
  }

  function PerformGet(s: Sys, name: string, a: Answer): Sys
    requires s.todo != []
  {
    match GetCR(s.c, name, a)
    case (Some(cfg), _) => Continue(s, Route(cfg, s.memo))
    case (None, reply) => Return(s, reply != NotFound)
  }

  function PerformSaveFinalizer(s: Sys, cfg: Config, a: Answer): Sys
    requires s.todo != []
  {
    var wanted := cfg.(cr := cfg.cr.(finalizers := cfg.cr.finalizers + {FINALIZER}));
    var (c, reply) := Effect(a, s.c, UpdateCR(s.c, wanted));
    if reply == Ok && cfg.name in c.crs then Continue(s.(c := c), [FindHelmSecrets(Stored(c, cfg.name))])
    else Return(s.(c := c), true)
  }

  function PerformProbe(s: Sys, cfg: Config, a: Answer): Sys
    requires s.todo != []
  {
    var openShift := a.fault == NoFault && s.c.openShift;
    Continue(s.(memo := Some(openShift)), Fetches(cfg.name, Only(openShift, SccManifests(cfg.name, s.ns))))
  }

  function PerformFetch(s: Sys, owner: string, m: Manifest, a: Answer): Sys
    requires s.todo != []
  {
    if a.fault != NoFault then Return(s, true)
    else if m.key in s.c.objs then Continue(s, [Replace(owner, m, Rv(s.c.objRv, m.key))])
    else Continue(s, [Create(owner, m)])
  }

  /** A write whose failure ends the run. */
  function PerformWrite(s: Sys, a: Answer, done: (Store, Reply)): Sys
    requires s.todo != []
  {
    var (c, reply) := Effect(a, s.c, done);
    if reply == Ok then Continue(s.(c := c), []) else Return(s.(c := c), true)
  }

  /** A deletion step: its failure is logged and the run goes on. */
  function PerformAnyway(s: Sys, a: Answer, done: (Store, Reply)): Sys
    requires s.todo != []
  {
    Continue(s.(c := Effect(a, s.c, done).0), [])
  }

  function PerformSaveStatus(s: Sys, cfg: Config, status: Status, a: Answer): Sys
    requires s.todo != []
  {
    var (c, reply) := Effect(a, s.c, UpdateStatus(s.c, cfg, status));
    match status.condition
    case Some(Condition(_, HelmConflict)) => Return(s.(c := c), false)
    case Some(Condition(_, InvalidProfile)) => Return(s.(c := c), true)
    case _ => Return(s.(c := c), reply != Ok)
  }

  function Keys(kind: Kind, ns: string, names: seq<string>): seq<Key> {
    seq(|names|, i requires 0 <= i < |names| => Key(kind, ns, names[i]))
  }

  function PerformSweep(s: Sys, cfg: Config, kind: Kind, selector: Labels, a: Answer): Sys
    requires s.todo != []
  {
    if a.fault != NoFault then Continue(s, [])
    else Continue(s, Removes(cfg, Keys(kind, s.ns, Arrange(a.order, ObjectNames(s.c, kind, s.ns, selector)))))
  }

  function PerformDropFinalizer(s: Sys, cfg: Config, a: Answer): Sys
    requires s.todo != []
  {
    var wanted := cfg.(cr := cfg.cr.(finalizers := cfg.cr.finalizers - {FINALIZER}));
    var (c, reply) := Effect(a, s.c, UpdateCR(s.c, wanted));
    Return(s.(c := c), reply != Ok)
  }

  function Perform(s: Sys, a: Answer): Sys
    requires s.todo != []
  {
    var ok := a.fault == NoFault;
    match s.todo[0]
    case Begin(name) => PerformGet(s, name, a)
    case SaveFinalizer(cfg) => PerformSaveFinalizer(s, cfg, a)
    case FindHelmSecrets(cfg) =>
      if !ok then Continue(s, AfterHelm(cfg, s.ns, s.memo))
      else if HelmSecretStored(s.c) then Continue(s, HelmStatus(cfg))
      else Continue(s, [FindHelmTopology(cfg)])
    case FindHelmTopology(cfg) =>
      if ok && HelmTopologyStored(s.c) then Continue(s, HelmStatus(cfg)) else Continue(s, AfterHelm(cfg, s.ns, s.memo))
    case Probe(cfg) => PerformProbe(s, cfg, a)
    case Fetch(owner, m) => PerformFetch(s, owner, m, a)
    case Create(_, m) => PerformWrite(s, a, CreateObject(s.c, m.key, m.obj))
    case Replace(_, m, rv) => PerformWrite(s, a, UpdateObject(s.c, m.key, m.obj, rv))
    case ListSelected(cfg) =>
      if !ok then Return(s, true)
      else Continue(s, LabelOps(ListNodes(s.c, NodeListOption(cfg.name, cfg.cr.spec), a.order), cfg))
    case LabelNode(seen, cfg) =>
      PerformWrite(s, a, UpdateNode(s.c, seen.name, seen.rv, Relabel(seen.labels, Desired(cfg))))
    case ListPool(cfg, profile) =>
      if !ok then Return(s, true)
      else Continue(s, Fetches(cfg.name,
        PoolManifests(ListNodes(s.c, PoolLabels(cfg.name), a.order), cfg.cr.spec, profile, s.ns)))
    case CountNodes(cfg, profile) =>
      if !ok then Return(s, true)
      else Continue(s, [SaveStatus(cfg, FinalStatus(cfg.cr.status,
        ListNodes(s.c, NodeListOption(cfg.name, cfg.cr.spec), a.order), cfg.cr.spec, profile))])
    case SaveStatus(cfg, status) => PerformSaveStatus(s, cfg, status, a)
    case Sweep(cfg, kind, selector) => PerformSweep(s, cfg, kind, selector, a)
    case Remove(_, k) => PerformAnyway(s, a, DeleteObject(s.c, k))
    case ListPooled(cfg) =>
      if !ok then Return(s, true)
      else Continue(s, UnlabelOps(ListNodes(s.c, PoolLabels(cfg.name), a.order), cfg))
    case UnlabelNode(seen, _) => PerformAnyway(s, a, UpdateNode(s.c, seen.name, seen.rv, seen.labels - MANAGED))
    case ProbeForRemoval(cfg) =>
      Continue(s.(memo := Some(ok && s.c.openShift)), Removes(cfg, ClusterKeys(cfg.name, ok && s.c.openShift)))
    case DropFinalizer(cfg) => PerformDropFinalizer(s, cfg, a)
  }

  // ---------------------------------------------------------------- histories

  datatype Action =
    | Request(name: string)      // the work queue hands over a name
    | Call(answer: Answer)       // the process performs its next call
    | Elsewhere(move: Move)      // another client acts
    | Restart                    // the process dies and comes back

  function Act(s: Sys, a: Action): Sys {
    match a
    case Request(name) => if s.todo == [] then s.(todo := [Begin(name)], failed := false) else s
    case Call(answer) => if s.todo == [] then s else Perform(s, answer)
    case Elsewhere(m) => s.(c := ApplyMove(s.c, m))
    case Restart => s.(memo := None, todo := [], failed := false)
  }

  function Replay(s: Sys, h: seq<Action>): Sys
    decreases |h|
  {
    if h == [] then s else Replay(Act(s, h[0]), h[1..])
  }

  lemma {:induction false} ReplayConcat(s: Sys, g: seq<Action>, h: seq<Action>)
    ensures Replay(s, g + h) == Replay(Replay(s, g), h)
    decreases |g|
  {
    if g == [] {
      assert g + h == h;
    } else {
      assert (g + h)[0] == g[0] && (g + h)[1..] == g[1..] + h;
      ReplayConcat(Act(s, g[0]), g[1..], h);
    }
  }
}
