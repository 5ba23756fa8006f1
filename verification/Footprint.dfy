/**
 * Footprints: within one process the cluster-scoped names any run can write are the names a cleanup removes, even if
 * the cluster's answer about OpenShift changes between calls.
 */
module Footprint {
  import opened Basics
  import opened Api
  import opened Resources
  import opened Naming
  import opened Cluster
  import opened Protocol
  import opened Safety
  import opened Erasure
  import opened Honesty
  import opened Convergence
  import opened Deletion

  // ---------------------------------------------------------------- names written, names removed

  /** The cluster-scoped keys among these manifests are exactly `keys`. */
  ghost predicate ClusterScoped(ms: seq<Manifest>, keys: set<Key>) {
    && (forall i | 0 <= i < |ms| && !Namespaced(ms[i].key.kind) :: ms[i].key in keys)
    && (forall k | k in keys :: Writing(ms, k) && !Namespaced(k.kind))
  }

  lemma ClusterScopedConcat(a: seq<Manifest>, b: seq<Manifest>, p: set<Key>, q: set<Key>)
    requires ClusterScoped(a, p) && ClusterScoped(b, q)
    ensures ClusterScoped(a + b, p + q)
  {
    forall k | k in p + q ensures Writing(a + b, k) && !Namespaced(k.kind) {
      if k in p {
        var i :| 0 <= i < |a| && a[i].key == k;
        assert (a + b)[i].key == k;
      } else {
        var i :| 0 <= i < |b| && b[i].key == k;
        assert (a + b)[|a| + i].key == k;
      }
    }
  }

  lemma RoleScoped(x: string, c: Component, ns: string)
    requires Stem(ClusterRole, c).Some? && Stem(ServiceAccount, c).Some?
    ensures ClusterScoped(RoleAndBinding(x, c, ns), {RoleKey(x, c), BindingKey(x, c)})
  {
    var ms := RoleAndBinding(x, c, ns);
    assert ms[0].key == RoleKey(x, c) && ms[1].key == BindingKey(x, c);
  }

  function RoleKeys(x: string): set<Key> {
    {RoleKey(x, DevicePlugin), BindingKey(x, DevicePlugin)} + {RoleKey(x, StatusUpdater), BindingKey(x, StatusUpdater)}
    + {RoleKey(x, MetricsExporter), BindingKey(x, MetricsExporter)}
  }

  lemma RbacScoped(x: string, ns: string)
    ensures ClusterScoped(RbacManifests(x, ns), RoleKeys(x))
  {
    hide RoleAndBinding, RoleKey, BindingKey;
    assert ClusterScoped(Accounts(x, ns), {});
    RoleScoped(x, DevicePlugin, ns); RoleScoped(x, StatusUpdater, ns); RoleScoped(x, MetricsExporter, ns);
    var dp, su, me := RoleAndBinding(x, DevicePlugin, ns), RoleAndBinding(x, StatusUpdater, ns),
      RoleAndBinding(x, MetricsExporter, ns);
    var kd, ks, km := {RoleKey(x, DevicePlugin), BindingKey(x, DevicePlugin)},
      {RoleKey(x, StatusUpdater), BindingKey(x, StatusUpdater)},
      {RoleKey(x, MetricsExporter), BindingKey(x, MetricsExporter)};
    ClusterScopedConcat(Accounts(x, ns), dp, {}, kd);
    ClusterScopedConcat(Accounts(x, ns) + dp, su, {} + kd, ks);
    ClusterScopedConcat(Accounts(x, ns) + dp + su, me, {} + kd + ks, km);
    assert {} + kd + ks + km == RoleKeys(x);
  }

  function SccKeys(x: string): set<Key> { {RoleKey(x, Scc), BindingKey(x, Scc)} }

  lemma SccScoped(x: string, ns: string)
    ensures ClusterScoped(SccManifests(x, ns), SccKeys(x))
  {
    var ms := SccManifests(x, ns);
    assert ms[0].key == RoleKey(x, Scc) && ms[1].key == BindingKey(x, Scc);
  }

  lemma WorkloadsScoped(x: string, spec: Spec, p: GPUProfile, ns: string)
    ensures ClusterScoped(WorkloadManifests(x, spec, p, ns), {RUNTIME_KEY})
  {
    hide CommonLabels, SelectorLabels, TopologyConfigMap, Stem, ClusterScoped;
    var first := ConfigAndDevicePlugin(x, spec, p, ns) + OptionalWorkloads(x, spec, ns) + Services(x, ns)
      + ExtraWorkloads(x, spec, ns);
    NoneScoped(x, spec, p, ns);
    assert ClusterScoped([RuntimeClassManifest(x)], {RUNTIME_KEY}) by { RuntimeScoped(x); }
    ClusterScopedConcat(first, [RuntimeClassManifest(x)], {}, {RUNTIME_KEY});
    assert {} + {RUNTIME_KEY} == {RUNTIME_KEY};
  }

  lemma RuntimeScoped(x: string)
    ensures ClusterScoped([RuntimeClassManifest(x)], {RUNTIME_KEY})
  {
    assert [RuntimeClassManifest(x)][0].key == RUNTIME_KEY;
  }

  ghost predicate NoneCluster(ms: seq<Manifest>) {
    forall i | 0 <= i < |ms| :: Namespaced(ms[i].key.kind)
  }

  lemma ConfigNone(x: string, spec: Spec, p: GPUProfile, ns: string)
    ensures NoneCluster(ConfigAndDevicePlugin(x, spec, p, ns)) && NoneCluster(Services(x, ns))
  {
  }

  lemma OptionalNone(x: string, spec: Spec, ns: string)
    ensures NoneCluster(OptionalWorkloads(x, spec, ns)) && NoneCluster(ExtraWorkloads(x, spec, ns))
  {
    hide CommonLabels, SelectorLabels;
  }

  lemma NoneScoped(x: string, spec: Spec, p: GPUProfile, ns: string)
    ensures ClusterScoped(ConfigAndDevicePlugin(x, spec, p, ns) + OptionalWorkloads(x, spec, ns) + Services(x, ns)
                          + ExtraWorkloads(x, spec, ns), {})
  {
    hide ConfigAndDevicePlugin, OptionalWorkloads, Services, ExtraWorkloads;
    ConfigNone(x, spec, p, ns);
    OptionalNone(x, spec, ns);
  }

  lemma ClusterKeysAre(x: string, b: bool, k: Key)
    ensures k in ClusterKeys(x, b) <==> k in RoleKeys(x) + (if b then SccKeys(x) else {}) + {RUNTIME_KEY}
  {
  }

  /**
   * For every spec: a run writes a cluster-scoped key if and only if a cleanup with the same OpenShift answer removes
   * it.
   */
  lemma FootprintsMatch(x: string, spec: Spec, p: GPUProfile, ns: string, openShift: bool, k: Key)
    ensures k in ClusterKeys(x, openShift) <==> Writing(Plan(x, spec, p, ns, openShift), k) && !Namespaced(k.kind)
  {
    hide RbacManifests, SccManifests, WorkloadManifests, RoleKeys, SccKeys, ClusterKeys;
    var rbac, scc := RbacManifests(x, ns), Only(openShift, SccManifests(x, ns));
    var keys := if openShift then SccKeys(x) else {};
    RbacScoped(x, ns);
    SccScoped(x, ns);
    WorkloadsScoped(x, spec, p, ns);
    assert ClusterScoped(scc, keys);
    ClusterScopedConcat(rbac, scc, RoleKeys(x), keys);
    ClusterScopedConcat(rbac + scc, WorkloadManifests(x, spec, p, ns), RoleKeys(x) + keys, {RUNTIME_KEY});
    ClusterKeysAre(x, openShift, k);
  }

  // ---------------------------------------------------------------- within one process

  /** Any cleanup this process starts for `x` removes `k`. */
  predicate WillRemove(memo: Option<bool>, x: string, k: Key) {
    k in ClusterKeys(x, memo == Some(true))
  }

  predicate MemoGrows(a: Option<bool>, b: Option<bool>) { a == None || a == b }

  lemma WillRemoveGrows(a: Option<bool>, b: Option<bool>, x: string, k: Key)
    requires MemoGrows(a, b) && WillRemove(a, x, k)
    ensures WillRemove(b, x, k)
  {
  }

  /** A pending write is namespaced, or at a key every later cleanup removes. */
  predicate Bounded(memo: Option<bool>, op: Op) {
    Puts(op) ==> Namespaced(op.m.key.kind) || WillRemove(memo, op.owner, op.m.key)
  }

  predicate AllBounded(memo: Option<bool>, ops: seq<Op>) {
    forall op | op in ops :: Bounded(memo, op)
  }

  lemma BoundedGrows(a: Option<bool>, b: Option<bool>, ops: seq<Op>)
    requires MemoGrows(a, b) && AllBounded(a, ops)
    ensures AllBounded(b, ops)
  {
  }

  lemma FetchesBounded(memo: Option<bool>, x: string, ms: seq<Manifest>, keys: set<Key>)
    requires ClusterScoped(ms, keys) && forall k | k in keys :: WillRemove(memo, x, k)
    ensures AllBounded(memo, Fetches(x, ms))
  {
    hide WillRemove;
  }

  lemma KeysRemoved(memo: Option<bool>, x: string)
    ensures forall k | k in RoleKeys(x) :: WillRemove(memo, x, k)
    ensures WillRemove(memo, x, RUNTIME_KEY)
    ensures memo == Some(true) ==> forall k | k in SccKeys(x) :: WillRemove(memo, x, k)
  {
  }

  lemma SccBounded(memo: Option<bool>, x: string, ns: string)
    requires memo.Some?
    ensures AllBounded(memo, Fetches(x, Only(memo.value, SccManifests(x, ns))))
  {
  }

  lemma AfterHelmBounded(cfg: Config, ns: string, memo: Option<bool>)
    ensures AllBounded(memo, AfterHelm(cfg, ns, memo))
  {
    hide RbacManifests, SccManifests, WorkloadManifests, WillRemove, ResolveProfile, Fetches, ApplyProgram,
      ClusterScoped, RoleKeys;
    if ResolveProfile(cfg.cr.spec).Some? {
      var x, p := cfg.name, ResolveProfile(cfg.cr.spec).value;
      RbacScoped(x, ns);
      WorkloadsScoped(x, cfg.cr.spec, p, ns);
      KeysRemoved(memo, x);
      FetchesBounded(memo, x, RbacManifests(x, ns), RoleKeys(x));
      FetchesBounded(memo, x, WorkloadManifests(x, cfg.cr.spec, p, ns), {RUNTIME_KEY});
      if memo.Some? { SccBounded(memo, x, ns); }
      ProgramBounded(memo, cfg, p, ns);
    }
  }

  lemma ProgramBounded(memo: Option<bool>, cfg: Config, p: GPUProfile, ns: string)
    requires AllBounded(memo, Fetches(cfg.name, RbacManifests(cfg.name, ns)))
    requires AllBounded(memo, Fetches(cfg.name, WorkloadManifests(cfg.name, cfg.cr.spec, p, ns)))
    requires memo.Some? ==> AllBounded(memo, Fetches(cfg.name, Only(memo.value, SccManifests(cfg.name, ns))))
    ensures AllBounded(memo, ApplyProgram(cfg, p, ns, memo))
  {
    hide RbacManifests, SccManifests, WorkloadManifests, WillRemove, Fetches;
  }

  // ---------------------------------------------------------------- the answer is asked for once

  predicate Probes(op: Op) { op.Probe? || op.ProbeForRemoval? }

  /** Operations that may lead to asking about OpenShift. */
  predicate Lead(op: Op) { op.Begin? || op.SaveFinalizer? || op.FindHelmSecrets? || op.FindHelmTopology? || Probes(op) }

  predicate LeadFree(ops: seq<Op>) { forall op | op in ops :: !Lead(op) }

  predicate OneLead(ops: seq<Op>) { forall i, j | 0 <= i < j < |ops| :: !(Lead(ops[i]) && Lead(ops[j])) }

  /** What may stand in front of the rest once `head` is done, with this memo. */
  predicate PlanOk(memo: Option<bool>, head: Op, ops: seq<Op>) {
    && AllBounded(memo, ops) && OneLead(ops)
    && (forall op | op in ops && Lead(op) :: Lead(head))
    && (forall op | op in ops && Probes(op) :: memo == None)
  }

  lemma LeadFreeOk(memo: Option<bool>, head: Op, ops: seq<Op>)
    requires LeadFree(ops) && AllBounded(memo, ops)
    ensures PlanOk(memo, head, ops)
  {
  }

  /** Operations that neither write manifests nor lead to a probe. */
  lemma PlainOk(memo: Option<bool>, head: Op, ops: seq<Op>)
    requires forall op | op in ops :: !Puts(op) && !Lead(op)
    ensures PlanOk(memo, head, ops)
  {
  }

  lemma SingleOk(memo: Option<bool>, head: Op, op: Op)
    requires Lead(head) && !Puts(op) && !Probes(op)
    ensures PlanOk(memo, head, [op])
  {
  }

  lemma OneLeadConcat(a: seq<Op>, b: seq<Op>)
    requires (OneLead(a) && LeadFree(b)) || (LeadFree(a) && OneLead(b))
    ensures OneLead(a + b)
  {
  }

  lemma ApplyProgramOneLead(cfg: Config, p: GPUProfile, ns: string, memo: Option<bool>)
    ensures OneLead(ApplyProgram(cfg, p, ns, memo))
    ensures forall op | op in ApplyProgram(cfg, p, ns, memo) && Lead(op) :: Probes(op) && memo == None
  {
    hide RbacManifests, SccManifests, WorkloadManifests, OneLead;
    var x := cfg.name;
    var rbac, work := Fetches(x, RbacManifests(x, ns)), Fetches(x, WorkloadManifests(x, cfg.cr.spec, p, ns));
    var nodes := [ListSelected(cfg), ListPool(cfg, p), CountNodes(cfg, p)];
    var scc := match memo case None => [Probe(cfg)] case Some(b) => Fetches(x, Only(b, SccManifests(x, ns)));
    assert OneLead(scc) by { OneLeadSmall(scc); }
    OneLeadConcat(rbac, scc);
    OneLeadConcat(rbac + scc, work);
    OneLeadConcat(rbac + scc + work, nodes);
  }

  lemma OneLeadSmall(ops: seq<Op>)
    requires |ops| <= 1 || LeadFree(ops)
    ensures OneLead(ops)
  {
  }

  lemma AfterHelmOk(head: Op, cfg: Config, ns: string, memo: Option<bool>)
    requires Lead(head)
    ensures PlanOk(memo, head, AfterHelm(cfg, ns, memo))
  {
    hide ApplyProgram, ResolveProfile, Bounded;
    AfterHelmBounded(cfg, ns, memo);
    if ResolveProfile(cfg.cr.spec).Some? {
      ApplyProgramOneLead(cfg, ResolveProfile(cfg.cr.spec).value, ns, memo);
    } else {
      OneLeadSmall(AfterHelm(cfg, ns, memo));
    }
  }

  lemma RouteOk(head: Op, cfg: Config, memo: Option<bool>)
    requires Lead(head)
    ensures PlanOk(memo, head, Route(cfg, memo))
  {
    hide ClusterKeys, OneLead, Sweeps;
    if cfg.cr.deleting {
      var tail := ClusterCleanup(cfg, memo);
      assert LeadFree(Sweeps(cfg) + [ListPooled(cfg)]) by { SweepsPlain(cfg); }
      assert OneLead(tail) by { OneLeadSmall(tail); }
      OneLeadConcat(Sweeps(cfg) + [ListPooled(cfg)], tail);
      OneLeadConcat(Sweeps(cfg) + [ListPooled(cfg)] + tail, [DropFinalizer(cfg)]);
      SweepsPlain(cfg);
    } else {
      OneLeadSmall(Route(cfg, memo));
    }
  }

  lemma SweepsPlain(cfg: Config)
    ensures forall op | op in Sweeps(cfg) :: op.Sweep?
  {
  }

  lemma SccOk(memo: Option<bool>, head: Op, x: string, ns: string)
    requires memo.Some?
    ensures PlanOk(memo, head, Fetches(x, Only(memo.value, SccManifests(x, ns))))
  {
    hide SccManifests, Bounded;
    SccBounded(memo, x, ns);
    LeadFreeOk(memo, head, Fetches(x, Only(memo.value, SccManifests(x, ns))));
  }

  lemma FetchOk(memo: Option<bool>, x: string, m: Manifest, rv: nat)
    requires Bounded(memo, Fetch(x, m))
    ensures PlanOk(memo, Fetch(x, m), [Create(x, m)]) && PlanOk(memo, Fetch(x, m), [Replace(x, m, rv)])
  {
  }

  lemma PoolOk(memo: Option<bool>, head: Op, x: string, seen: seq<Seen>, spec: Spec, p: GPUProfile, ns: string)
    ensures PlanOk(memo, head, Fetches(x, PoolManifests(seen, spec, p, ns)))
  {
    hide WillRemove;
    assert forall i | 0 <= i < |seen| :: NodeTopologyConfigMap(seen[i].name, spec, p, ns).key.kind == ConfigMap;
    LeadFreeOk(memo, head, Fetches(x, PoolManifests(seen, spec, p, ns)));
  }

  ghost predicate Plans(s: Sys, t: Sys, ops: seq<Op>)
    requires s.todo != []
  {
    && (t.todo == ops + s.todo[1..] || t.todo == [])
    && (t.memo == s.memo || Probes(s.todo[0])) && (Probes(s.todo[0]) ==> t.memo.Some?)
    && PlanOk(t.memo, s.todo[0], ops)
  }

  lemma HelmPlans(s: Sys, a: Answer) returns (ops: seq<Op>)
    requires s.todo != [] && (s.todo[0].FindHelmSecrets? || s.todo[0].FindHelmTopology?)
    ensures Plans(s, Perform(s, a), ops)
  {
    hide AfterHelm, HelmSecretStored, HelmTopologyStored, PlanOk;
    var head := s.todo[0];
    var cfg := head.cfg;
    AfterHelmOk(head, cfg, s.ns, s.memo);
    assert PlanOk(s.memo, head, HelmStatus(cfg)) by { PlainOk(s.memo, head, HelmStatus(cfg)); }
    SingleOk(s.memo, head, FindHelmTopology(cfg));
    ops := if Perform(s, a) == Continue(s, AfterHelm(cfg, s.ns, s.memo)) then AfterHelm(cfg, s.ns, s.memo)
           else if Perform(s, a) == Continue(s, HelmStatus(cfg)) then HelmStatus(cfg) else [FindHelmTopology(cfg)];
  }

  lemma ReadsPlan(s: Sys, a: Answer) returns (ops: seq<Op>)
    requires s.todo != [] && Reads(s.todo[0]) && Bounded(s.memo, s.todo[0])
    requires !s.todo[0].FindHelmSecrets? && !s.todo[0].FindHelmTopology?
    ensures Plans(s, Perform(s, a), ops)
  {
    hide Route, ListNodes, LabelOps, ClusterKeys, SccManifests, PoolManifests, Bounded, PlanOk,
      GetCR, Arrange, Keys, NodeListOption, PoolLabels, Desired, ObjectNames, CountReady;
    var head, ok := s.todo[0], a.fault == NoFault;
    PlainOk(s.memo, head, []);
    match head
    case Begin(name) =>
      ops := [];
      if GetCR(s.c, name, a).0.Some? {
        var cfg := GetCR(s.c, name, a).0.value;
        RouteOk(head, cfg, s.memo);
        ops := Route(cfg, s.memo);
      }
    case Probe(cfg) =>
      SccOk(Some(ok && s.c.openShift), head, cfg.name, s.ns);
      ops := Fetches(cfg.name, Only(ok && s.c.openShift, SccManifests(cfg.name, s.ns)));
    case Fetch(x, m) =>
      FetchOk(s.memo, x, m, Rv(s.c.objRv, m.key));
      ops := if m.key in s.c.objs then [Replace(x, m, Rv(s.c.objRv, m.key))] else [Create(x, m)];
    case ListSelected(cfg) =>
      ops := LabelOps(ListNodes(s.c, NodeListOption(cfg.name, cfg.cr.spec), a.order), cfg);
      LabelOpsFacts(ListNodes(s.c, NodeListOption(cfg.name, cfg.cr.spec), a.order), cfg);
      PlainOk(s.memo, head, ops);
    case ListPool(cfg, p) =>
      var seen := ListNodes(s.c, PoolLabels(cfg.name), a.order);
      PoolOk(s.memo, head, cfg.name, seen, cfg.cr.spec, p, s.ns);
      ops := Fetches(cfg.name, PoolManifests(seen, cfg.cr.spec, p, s.ns));
    case CountNodes(cfg, p) =>
      ops := [SaveStatus(cfg,
        FinalStatus(cfg.cr.status, ListNodes(s.c, NodeListOption(cfg.name, cfg.cr.spec), a.order), cfg.cr.spec, p))];
      PlainOk(s.memo, head, ops);
    case Sweep(cfg, kind, selector) =>
      ops := if !ok then []
        else Removes(cfg, Keys(kind, s.ns, Arrange(a.order, ObjectNames(s.c, kind, s.ns, selector))));
      PlainOk(s.memo, head, ops);
    case ListPooled(cfg) =>
      ops := UnlabelOps(ListNodes(s.c, PoolLabels(cfg.name), a.order), cfg);
      PlainOk(s.memo, head, ops);
    case ProbeForRemoval(cfg) =>
      ops := Removes(cfg, ClusterKeys(cfg.name, ok && s.c.openShift));
      PlainOk(Some(ok && s.c.openShift), head, ops);
  }

  lemma WritesPlan(s: Sys, a: Answer) returns (ops: seq<Op>)
    requires s.todo != [] && !Reads(s.todo[0])
    ensures Plans(s, Perform(s, a), ops)
  {
    hide Perform, PlanOk;
    ops := [];
    assert [] + s.todo[1..] == s.todo[1..];
    PlainOk(s.memo, s.todo[0], ops);
    var t := Perform(s, a);
    if s.todo[0].Create? || s.todo[0].Replace? { WriteEffect(s, a); }
    else if s.todo[0].Remove? { RemoveRest(s, a); }
    else if OnNode(s.todo[0]) { NodeWriteEffect(s, a); }
    else {
      CrWriteMemo(s, a);
      var cr := CrWriteShape(s, a);
      if t.todo != [] {
        ops := [t.todo[0]];
        SingleOk(s.memo, s.todo[0], t.todo[0]);
      }
    }
  }

  lemma CrWriteMemo(s: Sys, a: Answer)
    requires s.todo != [] && (s.todo[0].SaveFinalizer? || s.todo[0].SaveStatus? || s.todo[0].DropFinalizer?)
    ensures var t := Perform(s, a); t.memo == s.memo && (t.todo != [] ==> s.todo[0].SaveFinalizer?)
  {
    hide UpdateCR, UpdateStatus;
  }

  // ---------------------------------------------------------------- every step of a process

  predicate WithinInv(s: Sys) {
    AllBounded(s.memo, s.todo) && OneLead(s.todo) && forall op | op in s.todo && Probes(op) :: s.memo == None
  }

  lemma PlannedWithin(s: Sys, t: Sys, ops: seq<Op>)
    requires WithinInv(s) && s.todo != [] && Plans(s, t, ops)
    ensures WithinInv(t) && MemoGrows(s.memo, t.memo)
  {
    hide Bounded, Lead, Probes;
    var head, rest := s.todo[0], s.todo[1..];
    assert head in s.todo;
    assert MemoGrows(s.memo, t.memo);
    BoundedGrows(s.memo, t.memo, s.todo);
    if t.todo != [] {
      assert forall op | op in rest && Lead(head) :: !Lead(op) by {
        forall op | op in rest && Lead(head) ensures !Lead(op) {
          var i :| 0 < i < |s.todo| && s.todo[i] == op;
        }
      }
      assert OneLead(rest);
      ProbesLead(ops + rest);
      ProbesLead([head]);
      if Lead(head) { OneLeadConcat(ops, rest); } else { OneLeadConcat(ops, rest) by { assert LeadFree(ops); } }
    }
  }

  lemma ProbesLead(ops: seq<Op>)
    ensures forall op | op in ops && Probes(op) :: Lead(op)
  {
  }

  lemma ActWithin(s: Sys, a: Action)
    requires WithinInv(s) && !a.Restart?
    ensures WithinInv(Act(s, a)) && MemoGrows(s.memo, Act(s, a).memo)
  {
    hide Perform, Bounded, OneLead, PlanOk;
    match a
    case Request(name) =>
      if s.todo == [] { OneLeadSmall([Begin(name)]); BeginBounded(s.memo, name); }
    case Call(answer) =>
      if s.todo != [] {
        var head := s.todo[0];
        assert head in s.todo;
        var ops: seq<Op>;
        if head.FindHelmSecrets? || head.FindHelmTopology? { ops := HelmPlans(s, answer); }
        else if Reads(head) { ops := ReadsPlan(s, answer); }
        else { ops := WritesPlan(s, answer); }
        PlannedWithin(s, Perform(s, answer), ops);
      }
    case Elsewhere(_) =>
  }

  lemma BeginBounded(memo: Option<bool>, name: string)
    ensures Bounded(memo, Begin(name))
  {
  }

  lemma {:induction false} ReplayWithin(s: Sys, h: seq<Action>)
    requires WithinInv(s) && forall a | a in h :: !a.Restart?
    ensures WithinInv(Replay(s, h)) && MemoGrows(s.memo, Replay(s, h).memo)
    decreases |h|
  {
    hide Act, WithinInv;
    if h != [] {
      assert h[0] in h;
      ActWithin(s, h[0]);
      ReplayWithin(Act(s, h[0]), h[1..]);
    }
  }

  /**
   * Create and delete footprints match within one process. Whenever a process is about to write a cluster-scoped
   * object for a custom resource, then whatever happens until the process starts cleaning up, and whatever answers it
   * gets, the cleanup's list of names holds that object's.
   */
  lemma CleanupNamesEveryWrite(s: Sys, h: seq<Action>, g: seq<Action>)
    requires s.todo == [] && forall a | a in h + g :: !a.Restart?
    requires var t := Replay(s, h); t.todo != [] && Puts(t.todo[0]) && !Namespaced(t.todo[0].m.key.kind)
    ensures var t, u := Replay(s, h), Replay(s, h + g);
      forall b | u.memo.Some? ==> b == u.memo.value :: t.todo[0].m.key in ClusterKeys(t.todo[0].owner, b)
  {
    hide Act, ClusterKeys;
    assert forall a | a in h :: a in h + g;
    assert forall a | a in g :: a in h + g;
    ReplayWithin(s, h);
    var t := Replay(s, h);
    ReplayConcat(s, h, g);
    ReplayWithin(t, g);
    var op := t.todo[0];
    assert op in t.todo && Bounded(t.memo, op);
    WillRemoveGrows(t.memo, Replay(t, g).memo, op.owner, op.m.key);
    ClusterKeysMonotone(op.owner, false, true);
  }
}
