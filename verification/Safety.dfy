/**
 * No orphans: in every reachable state an object of the operator exists only while the custom resource it was
 * written for is stored and holds the operator's finalizer.
 */
module Safety {
  import opened Basics
  import opened Api
  import opened Resources
  import opened Naming
  import opened Cluster
  import opened Protocol

  // ---------------------------------------------------------------- the invariant

  /** `x` is stored and carries the operator's finalizer. */
  predicate Held(c: Store, x: string) {
    x in c.crs && FINALIZER in c.crs[x].finalizers
  }

  ghost predicate SomeHeld(c: Store) {
    exists x :: Held(c, x)
  }

  /** Every object at a key of the operator's is its own. */
  ghost predicate Tidy(c: Store, ns: string) {
    forall k | k in c.objs && Reserved(ns, k) :: Authored(ns, c.openShift, k, c.objs[k])
  }

  ghost predicate Justified(c: Store, o: Object) {
    if AppInstance in o.labels then Held(c, o.labels[AppInstance]) else SomeHeld(c)
  }

  ghost predicate NoOrphans(c: Store, ns: string) {
    forall k | k in c.objs && Reserved(ns, k) :: Justified(c, c.objs[k])
  }

  predicate Cleanup(op: Op) {
    op.Sweep? || op.Remove? || op.ListPooled? || op.UnlabelNode? || op.ProbeForRemoval? || op.DropFinalizer?
  }

  predicate Applying(todo: seq<Op>) {
    forall op | op in todo :: !Cleanup(op) && !op.Begin?
  }

  predicate Cleaning(todo: seq<Op>) {
    && todo != [] && todo[|todo| - 1].DropFinalizer?
    && forall i | 0 <= i < |todo| - 1 ::
         Cleanup(todo[i]) && !todo[i].DropFinalizer? && todo[i].cfg == todo[|todo| - 1].cfg
  }

  predicate Shaped(todo: seq<Op>) {
    Applying(todo) || Cleaning(todo) || (|todo| == 1 && todo[0].Begin?)
  }

  /** A pending write puts an operator's object of a held custom resource. */
  ghost predicate WriteOk(c: Store, ns: string, x: string, m: Manifest) {
    && Held(c, x) && Authored(ns, c.openShift, m.key, m.obj)
    && (AppInstance in m.obj.labels ==> m.obj.labels[AppInstance] == x)
  }

  ghost predicate OpOk(c: Store, ns: string, op: Op) {
    match op
    case Fetch(x, m) => WriteOk(c, ns, x, m)
    case Create(x, m) => WriteOk(c, ns, x, m)
    case Replace(x, m, _) => WriteOk(c, ns, x, m)
    case FindHelmSecrets(cfg) => Held(c, cfg.name) || ResolveProfile(cfg.cr.spec).None?
    case FindHelmTopology(cfg) => Held(c, cfg.name) || ResolveProfile(cfg.cr.spec).None?
    case Probe(cfg) => Held(c, cfg.name)
    case ListSelected(cfg) => Held(c, cfg.name)
    case LabelNode(_, cfg) => Held(c, cfg.name)
    case ListPool(cfg, _) => Held(c, cfg.name)
    case CountNodes(cfg, _) => Held(c, cfg.name)
    case Sweep(cfg, kind, selector) =>
      Namespaced(kind) && (selector == InstanceLabels(cfg.name) || selector == NODE_TOPOLOGY)
    case Remove(_, k) => Reserved(ns, k)
    case _ => true
  }

  ghost predicate OpsOk(c: Store, ns: string, ops: seq<Op>) {
    forall op | op in ops :: OpOk(c, ns, op)
  }

  /** Deleting `x` is meant to remove this object. */
  predicate Claimed(o: Object, x: string) {
    NodeTopology in o.labels || (AppInstance in o.labels && o.labels[AppInstance] == x)
  }

  /** Performing `op` leads to the removal of this object. */
  predicate Clears(ns: string, op: Op, k: Key, o: Object) {
    || (op.Sweep? && op.kind == k.kind && k.ns == ns && Matches(op.selector, o.labels))
    || (op.Remove? && op.key == k)
    || (op.ProbeForRemoval? && k in ClusterKeys(op.cfg.name, true))
  }

  ghost predicate Scheduled(ns: string, todo: seq<Op>, k: Key, o: Object) {
    exists op :: op in todo && Clears(ns, op, k, o)
  }

  ghost predicate Covered(c: Store, ns: string, todo: seq<Op>) {
    Cleaning(todo) ==>
      forall k | k in c.objs && Reserved(ns, k) && Claimed(c.objs[k], todo[|todo| - 1].cfg.name) ::
        Scheduled(ns, todo, k, c.objs[k])
  }

  ghost predicate Inv(s: Sys) {
    && Tidy(s.c, s.ns) && NoOrphans(s.c, s.ns)
    && (s.memo.Some? ==> s.memo.value == s.c.openShift)
    && Shaped(s.todo) && OpsOk(s.c, s.ns, s.todo)
    && Covered(s.c, s.ns, s.todo)
  }

  // ---------------------------------------------------------------- what is assumed of the surroundings

  /** The reply the head operation gets, for the operations whose failure deletion ignores. */
  function CleanupReply(s: Sys, a: Answer): Reply
    requires s.todo != []
  {
    match s.todo[0]
    case Remove(_, k) => Effect(a, s.c, DeleteObject(s.c, k)).1
    case UnlabelNode(seen, _) => Effect(a, s.c, UpdateNode(s.c, seen.name, seen.rv, seen.labels - MANAGED)).1
    case _ => if a.fault == NoFault then Ok else Rejected
  }

  /** The first read sends no run off to write objects for a custom resource that is no longer held. */
  predicate HarmlessRead(s: Sys, a: Answer)
    requires s.todo != []
  {
    s.todo[0].Begin? ==>
      var found := GetCR(s.c, s.todo[0].name, a).0;
      (found.Some? && !found.value.cr.deleting && FINALIZER in found.value.cr.finalizers
       && ResolveProfile(found.value.cr.spec).Some?) ==> Held(s.c, s.todo[0].name)
  }

  /** When a cleanup looks for objects by label, only the operator's own answer. */
  ghost predicate SweepsOwn(s: Sys)
    requires s.todo != []
  {
    s.todo[0].Sweep? ==>
      forall k | k in s.c.objs && k.kind == s.todo[0].kind && k.ns == s.ns
        && Matches(s.todo[0].selector, s.c.objs[k].labels) :: Reserved(s.ns, k)
  }

  /**
   * Others do not write the operator's objects, nor label one of their own so that a cleanup finds it; first reads are
   * harmless, as current ones always are; on OpenShift asking for it works; and while a custom resource is being
   * cleaned up no delete or list of objects fails.
   */
  ghost predicate Fair(s: Sys, a: Action) {
    match a
    case Elsewhere(PutObject(k, o)) => !Reserved(s.ns, k)
    case Call(answer) =>
      s.todo != [] ==>
        && HarmlessRead(s, answer) && SweepsOwn(s)
        && (s.todo[0].Probe? || s.todo[0].ProbeForRemoval? ==> answer.fault == NoFault || !s.c.openShift)
        && (s.todo[0].Sweep? || s.todo[0].Remove? ==> CleanupReply(s, answer) != Rejected)
    case _ => true
  }

  ghost predicate FairHistory(s: Sys, h: seq<Action>)
    decreases |h|
  {
    h == [] || (Fair(s, h[0]) && FairHistory(Act(s, h[0]), h[1..]))
  }

  // ---------------------------------------------------------------- frames

  /** What the object invariants see of the custom resources only grows. */
  ghost predicate HeldGrows(c: Store, d: Store) {
    forall x | Held(c, x) :: Held(d, x)
  }

  lemma HeldGrowsKeeps(c: Store, d: Store, ns: string, o: Object, op: Op)
    requires HeldGrows(c, d) && c.openShift == d.openShift
    ensures Justified(c, o) ==> Justified(d, o)
    ensures OpOk(c, ns, op) ==> OpOk(d, ns, op)
  {
  }

  lemma FrameGrows(s: Sys, t: Sys)
    requires Inv(s) && HeldGrows(s.c, t.c) && s.c.openShift == t.c.openShift && s.ns == t.ns
    requires forall k | k in t.c.objs :: (k in s.c.objs && t.c.objs[k] == s.c.objs[k]) || !Reserved(s.ns, k)
    ensures Tidy(t.c, t.ns) && NoOrphans(t.c, t.ns) && OpsOk(t.c, t.ns, s.todo) && Covered(t.c, t.ns, s.todo)
  {
  }

  lemma SettleHeld(c: Store, name: string, cr: FakeGPUConfig, x: string)
    requires name in c.crs && (FINALIZER in c.crs[name].finalizers ==> FINALIZER in cr.finalizers)
    requires Held(c, x)
    ensures Held(SettleCR(c, name, cr), x)
  {
  }

  lemma MoveHeld(c: Store, m: Move)
    ensures HeldGrows(c, ApplyMove(c, m)) && ApplyMove(c, m).openShift == c.openShift
  {
    forall x | Held(c, x) ensures Held(ApplyMove(c, m), x) {
      match m
      case EditCR(name, spec, finalizers) =>
        if name in c.crs {
          SettleHeld(c, name,
            c.crs[name].(spec := spec, finalizers := KeepFinalizer(c.crs[name].finalizers, finalizers)), x);
        }
      case DeleteCR(name) =>
        if name in c.crs { SettleHeld(c, name, c.crs[name].(deleting := true), x); }
      case _ =>
    }
  }

  lemma MoveKeepsInv(s: Sys, m: Move)
    requires Inv(s) && Fair(s, Elsewhere(m))
    ensures Inv(Act(s, Elsewhere(m)))
  {
    hide Perform, ApplyMove, Authored, Cleaning;
    MoveHeld(s.c, m);
    MoveObjects(s.c, s.ns, m);
    FrameGrows(s, Act(s, Elsewhere(m)));
  }

  lemma MoveObjects(c: Store, ns: string, m: Move)
    requires m.PutObject? ==> !Reserved(ns, m.key)
    ensures var d := ApplyMove(c, m);
      forall k | k in d.objs :: (k in c.objs && d.objs[k] == c.objs[k]) || !Reserved(ns, k)
  {
    hide SettleCR;
    if (m.EditCR? || m.DeleteCR?) && m.name in c.crs {
      SettleEffect(c, m.name, if m.EditCR?
        then c.crs[m.name].(spec := m.spec, finalizers := KeepFinalizer(c.crs[m.name].finalizers, m.finalizers))
                              else c.crs[m.name].(deleting := true));
    }
  }

  // ---------------------------------------------------------------- applying

  lemma ApplyingIsNotCleaning(todo: seq<Op>)
    requires Applying(todo)
    ensures !Cleaning(todo)
  {
    assert todo != [] ==> todo[|todo| - 1] in todo;
  }

  /** A step that only changes what is left to do, while applying. */
  lemma PlanningKeepsInv(s: Sys, t: Sys, ops: seq<Op>)
    requires Inv(s) && s.todo != [] && t.c == s.c && t.ns == s.ns
    requires t.memo == s.memo || (t.memo == Some(s.c.openShift))
    requires Applying(s.todo) && Applying(ops) && OpsOk(s.c, s.ns, ops)
    requires t.todo == ops + s.todo[1..] || t.todo == []
    ensures Inv(t) && Applying(t.todo)
  {
    hide Perform;
    assert Applying(t.todo);
    ApplyingIsNotCleaning(t.todo);
  }

  lemma WriteDispatch(s: Sys, a: Answer)
    requires s.todo != [] && (s.todo[0].Create? || s.todo[0].Replace?)
    ensures var m := s.todo[0].m;
      Perform(s, a) == PerformWrite(s, a, if s.todo[0].Create? then CreateObject(s.c, m.key, m.obj)
                                          else UpdateObject(s.c, m.key, m.obj, s.todo[0].rv))
  {
    hide CreateObject, UpdateObject, PerformWrite;
  }

  lemma WriteEffect(s: Sys, a: Answer)
    requires s.todo != [] && (s.todo[0].Create? || s.todo[0].Replace?)
    ensures var t, m := Perform(s, a), s.todo[0].m;
      && t.ns == s.ns && t.memo == s.memo && t.c.crs == s.c.crs && t.c.openShift == s.c.openShift
      && t.c.crRv == s.c.crRv && t.c.past == s.c.past
      && t.c.nodes == s.c.nodes && t.c.nodeRv == s.c.nodeRv && t.c.rev >= s.c.rev
      && (t.c.objs == s.c.objs || t.c.objs == s.c.objs[m.key := m.obj])
      && (t.todo == s.todo[1..] || t.todo == [])
  {
    hide Perform, FrozenPart;
    WriteDispatch(s, a);
    assert [] + s.todo[1..] == s.todo[1..];
  }

  lemma WriteKeepsInv(s: Sys, a: Answer)
    requires Inv(s) && s.todo != [] && (s.todo[0].Create? || s.todo[0].Replace?)
    ensures Inv(Perform(s, a)) && Applying(Perform(s, a).todo)
  {
    hide Perform, Authored;
    var m, t := s.todo[0].m, Perform(s, a);
    WriteEffect(s, a);
    assert OpOk(s.c, s.ns, s.todo[0]) && !Cleanup(s.todo[0]);
    forall k | k in t.c.objs && Reserved(s.ns, k) ensures Justified(t.c, t.c.objs[k]) {
      HeldGrowsKeeps(s.c, t.c, s.ns, t.c.objs[k], Begin(""));
    }
    forall op | op in t.todo ensures OpOk(t.c, t.ns, op) {
      HeldGrowsKeeps(s.c, t.c, s.ns, Object(map[], Plain), op);
    }
    assert Applying(s.todo);
    ApplyingIsNotCleaning(t.todo);
  }

  lemma FetchesOk(c: Store, ns: string, x: string, ms: seq<Manifest>)
    requires Held(c, x) && AllBelong(ns, c.openShift, x, ms)
    ensures OpsOk(c, ns, Fetches(x, ms)) && Applying(Fetches(x, ms))
  {
  }

  lemma ApplyProgramOk(c: Store, ns: string, memo: Option<bool>, cfg: Config, p: GPUProfile)
    requires Held(c, cfg.name) && (memo.Some? ==> memo.value == c.openShift)
    ensures OpsOk(c, ns, ApplyProgram(cfg, p, ns, memo)) && Applying(ApplyProgram(cfg, p, ns, memo))
  {
    hide RbacManifests, SccManifests, WorkloadManifests;
    RbacBelongs(cfg.name, ns, c.openShift);
    FetchesOk(c, ns, cfg.name, RbacManifests(cfg.name, ns));
    if memo == Some(true) { SccBelongs(cfg.name, ns); }
    if memo.Some? { FetchesOk(c, ns, cfg.name, Only(memo.value, SccManifests(cfg.name, ns))); }
    WorkloadsBelong(cfg.name, cfg.cr.spec, p, ns, c.openShift);
    FetchesOk(c, ns, cfg.name, WorkloadManifests(cfg.name, cfg.cr.spec, p, ns));
  }

  lemma AfterHelmOk(c: Store, ns: string, memo: Option<bool>, cfg: Config)
    requires Held(c, cfg.name) || ResolveProfile(cfg.cr.spec).None?
    requires memo.Some? ==> memo.value == c.openShift
    ensures OpsOk(c, ns, AfterHelm(cfg, ns, memo)) && Applying(AfterHelm(cfg, ns, memo))
  {
    if ResolveProfile(cfg.cr.spec).Some? {
      ApplyProgramOk(c, ns, memo, cfg, ResolveProfile(cfg.cr.spec).value);
    }
  }

  lemma {:induction false} LabelOpsFacts(seen: seq<Seen>, cfg: Config)
    ensures forall op | op in LabelOps(seen, cfg) ::
      op.LabelNode? && op.cfg == cfg && op.seen in seen && NeedsUpdate(op.seen.labels, Desired(cfg))
  {
    if seen != [] { LabelOpsFacts(seen[1..], cfg); }
  }

  lemma PoolManifestsOk(c: Store, ns: string, x: string, seen: seq<Seen>, spec: Spec, p: GPUProfile)
    requires Held(c, x)
    ensures var ops := Fetches(x, PoolManifests(seen, spec, p, ns)); OpsOk(c, ns, ops) && Applying(ops)
  {
    forall i | 0 <= i < |seen| ensures WriteOk(c, ns, x, PoolManifests(seen, spec, p, ns)[i]) {
      NodeTopologyAuthored(seen[i].name, spec, p, ns, c.openShift);
    }
  }

  lemma HelmCheckKeepsInv(s: Sys, a: Answer)
    requires Inv(s) && s.todo != [] && Applying(s.todo)
    requires s.todo[0].FindHelmSecrets? || s.todo[0].FindHelmTopology?
    ensures Inv(Perform(s, a)) && Applying(Perform(s, a).todo)
  {
    hide AfterHelm, HelmSecretStored, HelmTopologyStored, Authored;
    var op, t := s.todo[0], Perform(s, a);
    assert OpOk(s.c, s.ns, op);
    AfterHelmOk(s.c, s.ns, s.memo, op.cfg);
    PlanningKeepsInv(s, t,
      if t == Continue(s, AfterHelm(op.cfg, s.ns, s.memo)) then AfterHelm(op.cfg, s.ns, s.memo)
      else if t == Continue(s, HelmStatus(op.cfg)) then HelmStatus(op.cfg)
      else [FindHelmTopology(op.cfg)]);
  }

  lemma ProbeKeepsInv(s: Sys, a: Answer)
    requires Inv(s) && s.todo != [] && Applying(s.todo) && s.todo[0].Probe?
    requires a.fault == NoFault || !s.c.openShift
    ensures Inv(Perform(s, a)) && Applying(Perform(s, a).todo)
  {
    hide SccManifests, Authored;
    var cfg := s.todo[0].cfg;
    var ms := Only(s.c.openShift, SccManifests(cfg.name, s.ns));
    assert OpOk(s.c, s.ns, s.todo[0]);
    if s.c.openShift { SccBelongs(cfg.name, s.ns); }
    FetchesOk(s.c, s.ns, cfg.name, ms);
    PlanningKeepsInv(s, Perform(s, a), Fetches(cfg.name, ms));
  }

  lemma FetchKeepsInv(s: Sys, a: Answer)
    requires Inv(s) && s.todo != [] && Applying(s.todo) && s.todo[0].Fetch?
    ensures Inv(Perform(s, a)) && Applying(Perform(s, a).todo)
  {
    hide Authored;
    var x, m := s.todo[0].owner, s.todo[0].m;
    assert OpOk(s.c, s.ns, s.todo[0]);
    PlanningKeepsInv(s, Perform(s, a), if m.key in s.c.objs then [Replace(x, m, Rv(s.c.objRv, m.key))]
      else [Create(x, m)]);
  }

  lemma NodeListKeepsInv(s: Sys, a: Answer)
    requires Inv(s) && s.todo != [] && Applying(s.todo)
    requires s.todo[0].ListSelected? || s.todo[0].ListPool? || s.todo[0].CountNodes?
    ensures Inv(Perform(s, a)) && Applying(Perform(s, a).todo)
  {
    hide Authored, ListNodes, NodeTopologyConfigMap, LabelOps, FinalStatus, NodeListOption, PoolLabels, PoolManifests,
      Tidy, NoOrphans;
    var cfg, t := s.todo[0].cfg, Perform(s, a);
    assert OpOk(s.c, s.ns, s.todo[0]);
    var selected := ListNodes(s.c, NodeListOption(cfg.name, cfg.cr.spec), a.order);
    match s.todo[0]
    case ListPool(_, p) =>
      var pooled := ListNodes(s.c, PoolLabels(cfg.name), a.order);
      PoolManifestsOk(s.c, s.ns, cfg.name, pooled, cfg.cr.spec, p);
      PlanningKeepsInv(s, t, Fetches(cfg.name, PoolManifests(pooled, cfg.cr.spec, p, s.ns)));
    case CountNodes(_, p) =>
      PlanningKeepsInv(s, t, [SaveStatus(cfg, FinalStatus(cfg.cr.status, selected, cfg.cr.spec, p))]);
    case _ =>
      LabelOpsFacts(selected, cfg);
      PlanningKeepsInv(s, t, LabelOps(selected, cfg));
  }

  // ---------------------------------------------------------------- steps on nodes and custom resources

  lemma LabelDispatch(s: Sys, a: Answer)
    requires s.todo != [] && s.todo[0].LabelNode?
    ensures var op := s.todo[0];
      Perform(s, a)
        == PerformWrite(s, a, UpdateNode(s.c, op.seen.name, op.seen.rv, Relabel(op.seen.labels, Desired(op.cfg))))
  {
    hide Relabel, Desired, UpdateNode, PerformWrite;
  }

  lemma LabelEffect(s: Sys, a: Answer)
    requires s.todo != [] && s.todo[0].LabelNode?
    ensures var t := Perform(s, a);
      && t.ns == s.ns && t.memo == s.memo && t.c.objs == s.c.objs && t.c.crs == s.c.crs
        && t.c.openShift == s.c.openShift
      && (t.todo == s.todo[1..] || t.todo == [])
  {
    hide Relabel, Desired, Perform;
    LabelDispatch(s, a);
    assert [] + s.todo[1..] == s.todo[1..];
  }

  /** A step that leaves objects alone and takes no finalizer away keeps the invariant of what is left. */
  lemma NodeWriteKeepsInv(s: Sys, a: Answer)
    requires Inv(s) && s.todo != [] && s.todo[0].LabelNode?
    ensures Inv(Perform(s, a)) && Applying(Perform(s, a).todo)
  {
    hide Authored, Perform;
    var t := Perform(s, a);
    LabelEffect(s, a);
    assert !Cleanup(s.todo[0]) && Applying(s.todo);
    FrameGrows(s, t);
    assert Applying(t.todo);
    ApplyingIsNotCleaning(t.todo);
  }

  lemma SaveStatusShape(s: Sys, a: Answer)
    requires s.todo != [] && s.todo[0].SaveStatus?
    ensures var t, cfg, status := Perform(s, a), s.todo[0].cfg, s.todo[0].status;
      && t.ns == s.ns && t.memo == s.memo && t.todo == []
      && (t.c == s.c || (cfg.name in s.c.crs && t.c == SettleCR(s.c, cfg.name, s.c.crs[cfg.name].(status := status))))
  {
    hide SettleCR;
  }

  lemma SaveStatusEffect(s: Sys, a: Answer)
    requires s.todo != [] && s.todo[0].SaveStatus?
    ensures var t := Perform(s, a);
      t.ns == s.ns && t.memo == s.memo && t.todo == [] && t.c.objs == s.c.objs && t.c.openShift == s.c.openShift
      && HeldGrows(s.c, t.c)
  {
    hide Perform, SettleCR;
    SaveStatusShape(s, a);
    var cfg, t := s.todo[0].cfg, Perform(s, a);
    if t.c != s.c {
      var cr := s.c.crs[cfg.name].(status := s.todo[0].status);
      SettleEffect(s.c, cfg.name, cr);
      forall x | Held(s.c, x) ensures Held(t.c, x) { SettleHeld(s.c, cfg.name, cr, x); }
    }
  }

  lemma SaveStatusKeepsInv(s: Sys, a: Answer)
    requires Inv(s) && s.todo != [] && s.todo[0].SaveStatus?
    ensures Inv(Perform(s, a)) && Applying(Perform(s, a).todo)
  {
    hide Authored, Perform;
    SaveStatusEffect(s, a);
    FrameGrows(s, Perform(s, a));
  }

  lemma SaveFinalizerEffect(s: Sys, a: Answer)
    requires s.todo != [] && s.todo[0].SaveFinalizer?
    ensures var t, cfg := Perform(s, a), s.todo[0].cfg;
      && t.ns == s.ns && t.memo == s.memo
      && (t.c == s.c || (cfg.name in s.c.crs
          && t.c == SettleCR(s.c, cfg.name,
            s.c.crs[cfg.name].(spec := cfg.cr.spec, finalizers := cfg.cr.finalizers + {FINALIZER}))))
      && (t.todo == [] || (cfg.name in t.c.crs && t.todo == [FindHelmSecrets(Stored(t.c, cfg.name))] + s.todo[1..]))
      && (t.todo != [] ==> t.c != s.c || (cfg.name in s.c.crs && SettleCR(s.c, cfg.name,
            s.c.crs[cfg.name].(spec := cfg.cr.spec, finalizers := cfg.cr.finalizers + {FINALIZER})) == s.c))
  {
    hide SettleCR;
  }

  lemma SettleKeepsHeld(c: Store, name: string, cr: FakeGPUConfig)
    requires name in c.crs && FINALIZER in cr.finalizers
    ensures var d := SettleCR(c, name, cr);
      HeldGrows(c, d) && Held(d, name) && d.objs == c.objs && d.openShift == c.openShift
  {
  }

  lemma SaveFinalizerKeepsInv(s: Sys, a: Answer)
    requires Inv(s) && s.todo != [] && s.todo[0].SaveFinalizer?
    ensures Inv(Perform(s, a)) && Applying(Perform(s, a).todo)
  {
    hide Authored, Perform, SettleCR, Held;
    var cfg, t := s.todo[0].cfg, Perform(s, a);
    SaveFinalizerEffect(s, a);
    if cfg.name in s.c.crs {
      SettleKeepsHeld(s.c, cfg.name,
        s.c.crs[cfg.name].(spec := cfg.cr.spec, finalizers := cfg.cr.finalizers + {FINALIZER}));
    }
    FrameGrows(s, t);
    assert !Cleanup(s.todo[0]) && Applying(s.todo);
    assert Applying(t.todo);
    ApplyingIsNotCleaning(t.todo);
  }

  lemma BeginEffect(s: Sys, a: Answer)
    requires |s.todo| == 1 && s.todo[0].Begin?
    ensures var got := GetCR(s.c, s.todo[0].name, a);
      Perform(s, a) == if got.0.Some? then s.(todo := Route(got.0.value, s.memo))
                       else s.(todo := [], failed := got.1 != NotFound)
  {
    hide Route, GetCR;
    assert s.todo[1..] == [];
    assert forall ops: seq<Op> :: ops + [] == ops;
  }

  lemma CurrentReadHarmless(s: Sys, a: Answer)
    requires s.todo != [] && a.stale == None
    ensures HarmlessRead(s, a)
  {
  }

  lemma GetKeepsInv(s: Sys, a: Answer)
    requires Inv(s) && s.todo != [] && s.todo[0].Begin? && HarmlessRead(s, a)
    ensures Inv(Perform(s, a))
  {
    hide Authored, DeleteProgram, Perform, GetCR;
    var name, t := s.todo[0].name, Perform(s, a);
    assert !Applying(s.todo) && !Cleaning(s.todo) by { assert s.todo[0] in s.todo; }
    BeginEffect(s, a);
    var found := GetCR(s.c, name, a).0;
    if found.Some? {
      var cfg := found.value;
      assert cfg.name == name by { FoundName(s.c, name, a); }
      if cfg.cr.deleting {
        DeleteProgramKeepsInv(s, cfg);
      } else {
        ApplyingIsNotCleaning(t.todo);
      }
    } else {
      assert !Cleaning(t.todo);
    }
  }

  lemma FoundName(c: Store, name: string, a: Answer)
    ensures var found := GetCR(c, name, a).0; found.Some? ==> found.value.name == name
  {
  }

  // ---------------------------------------------------------------- deleting

  lemma RoleKeysReserved(ns: string, x: string, c: Component)
    requires Stem(ClusterRole, c).Some?
    ensures Reserved(ns, RoleKey(x, c)) && Reserved(ns, BindingKey(x, c))
  {
    assert Placed(ns, RoleKey(x, c), x, c);
    assert Placed(ns, BindingKey(x, c), x, c);
  }

  lemma ClusterKeysReserved(ns: string, x: string, os: bool)
    ensures forall k | k in ClusterKeys(x, os) :: Reserved(ns, k)
  {
    hide Reserved, RoleKey, BindingKey;
    RoleKeysReserved(ns, x, DevicePlugin);
    RoleKeysReserved(ns, x, StatusUpdater);
    RoleKeysReserved(ns, x, MetricsExporter);
    RoleKeysReserved(ns, x, Scc);
    assert Reserved(ns, RUNTIME_KEY) by { RuntimeKeyReserved(ns, x); }
  }

  lemma RuntimeKeyReserved(ns: string, x: string)
    ensures Reserved(ns, RUNTIME_KEY)
  {
    assert Placed(ns, RUNTIME_KEY, x, Runtime);
  }

  /** A cluster-scoped object of `x` is at one of the keys deletion names. */
  lemma ClusterObjectNamed(ns: string, os: bool, k: Key, o: Object, x: string)
    requires Authored(ns, os, k, o) && !Namespaced(k.kind) && Claimed(o, x)
    ensures k in ClusterKeys(x, os)
  {
    var c :| AuthoredFor(ns, os, k, o, x, c);
    assert Placed(ns, k, x, c);
  }

  lemma DeleteProgramShape(cfg: Config, memo: Option<bool>)
    ensures Cleaning(DeleteProgram(cfg, memo))
    ensures DeleteProgram(cfg, memo)[|DeleteProgram(cfg, memo)| - 1] == DropFinalizer(cfg)
    ensures forall i | 0 <= i < 6 :: Sweeps(cfg)[i] in DeleteProgram(cfg, memo)
    ensures ListPooled(cfg) in DeleteProgram(cfg, memo)
    ensures forall op | op in ClusterCleanup(cfg, memo) :: op in DeleteProgram(cfg, memo)
  {
  }

  lemma SweepCovers(ns: string, os: bool, k: Key, o: Object, cfg: Config)
    requires Authored(ns, os, k, o) && Namespaced(k.kind) && Claimed(o, cfg.name)
    ensures exists i | 0 <= i < 6 :: Clears(ns, Sweeps(cfg)[i], k, o)
  {
    var sweeps := Sweeps(cfg);
    if NodeTopology in o.labels {
      var node :| k == NodeKey(node, ns) && o.labels == NodeTopologyLabels(node);
      assert Clears(ns, sweeps[5], k, o);
    } else {
      var i := if k.kind == DaemonSet then 0 else if k.kind == Deployment then 1 else if k.kind == Service then 2
               else if k.kind == ServiceAccount then 3 else 4;
      var x, c :| AuthoredFor(ns, os, k, o, x, c);
      assert Clears(ns, sweeps[i], k, o);
    }
  }

  lemma ReservedIsAuthored(s: Sys, k: Key)
    requires Tidy(s.c, s.ns) && k in s.c.objs && Reserved(s.ns, k)
    ensures Authored(s.ns, s.c.openShift, k, s.c.objs[k])
  {
  }

  /** The deletion program is set up to remove every object of the custom resource. */
  lemma DeleteProgramCovers(s: Sys, cfg: Config)
    requires Tidy(s.c, s.ns) && (s.memo.Some? ==> s.memo.value == s.c.openShift)
    ensures Covered(s.c, s.ns, DeleteProgram(cfg, s.memo))
  {
    hide DeleteProgram, Authored, Reserved, Claimed;
    var todo := DeleteProgram(cfg, s.memo);
    DeleteProgramShape(cfg, s.memo);
    forall k | k in s.c.objs && Reserved(s.ns, k) && Claimed(s.c.objs[k], cfg.name)
      ensures Scheduled(s.ns, todo, k, s.c.objs[k])
    {
      ReservedIsAuthored(s, k);
      if Namespaced(k.kind) {
        SweepCovers(s.ns, s.c.openShift, k, s.c.objs[k], cfg);
        var i :| 0 <= i < 6 && Clears(s.ns, Sweeps(cfg)[i], k, s.c.objs[k]);
        assert Sweeps(cfg)[i] in todo;
      } else {
        ClusterObjectNamed(s.ns, s.c.openShift, k, s.c.objs[k], cfg.name);
        ClusterCleanupClears(s, cfg, k, s.c.objs[k]);
      }
    }
  }

  lemma ClusterCleanupClears(s: Sys, cfg: Config, k: Key, o: Object)
    requires k in ClusterKeys(cfg.name, s.c.openShift) && (s.memo.Some? ==> s.memo.value == s.c.openShift)
    ensures exists op :: op in ClusterCleanup(cfg, s.memo) && Clears(s.ns, op, k, o)
  {
    if s.memo.Some? {
      assert Clears(s.ns, Remove(cfg, k), k, o);
      assert Remove(cfg, k) in Removes(cfg, ClusterKeys(cfg.name, s.memo.value)) by {
        var i :| 0 <= i < |ClusterKeys(cfg.name, s.memo.value)| && ClusterKeys(cfg.name, s.memo.value)[i] == k;
        assert Removes(cfg, ClusterKeys(cfg.name, s.memo.value))[i] == Remove(cfg, k);
      }
    } else {
      assert Clears(s.ns, ProbeForRemoval(cfg), k, o);
    }
  }

  lemma DeleteProgramOk(s: Sys, cfg: Config)
    ensures OpsOk(s.c, s.ns, DeleteProgram(cfg, s.memo))
  {
    hide Reserved, ClusterKeys;
    if s.memo.Some? { ClusterKeysReserved(s.ns, cfg.name, s.memo.value); }
    assert OpsOk(s.c, s.ns, Sweeps(cfg));
  }

  lemma DeleteProgramKeepsInv(s: Sys, cfg: Config)
    requires Inv(s)
    ensures Inv(s.(todo := DeleteProgram(cfg, s.memo)))
  {
    hide DeleteProgram, Authored, Reserved;
    DeleteProgramShape(cfg, s.memo);
    DeleteProgramOk(s, cfg);
    DeleteProgramCovers(s, cfg);
  }

  /** One deletion step: the head is replaced by operations that still clear what the head would have cleared. */
  lemma CleanupStepKeepsInv(s: Sys, t: Sys, ops: seq<Op>)
    requires Inv(s) && Cleaning(s.todo) && !s.todo[0].DropFinalizer?
    requires t.ns == s.ns && t.c.crs == s.c.crs && t.c.openShift == s.c.openShift
    requires t.memo == s.memo || t.memo == Some(s.c.openShift)
    requires t.todo == ops + s.todo[1..] && OpsOk(s.c, s.ns, ops)
    requires forall op | op in ops :: Cleanup(op) && !op.DropFinalizer? && op.cfg == s.todo[0].cfg
    requires forall k | k in t.c.objs :: k in s.c.objs && t.c.objs[k] == s.c.objs[k]
    requires forall k | k in t.c.objs && Reserved(s.ns, k) && Claimed(t.c.objs[k], s.todo[0].cfg.name)
                        && Clears(s.ns, s.todo[0], k, t.c.objs[k]) :: Scheduled(s.ns, ops, k, t.c.objs[k])
    ensures Inv(t)
  {
    hide Authored, Reserved, Claimed, Clears;
    var last := s.todo[|s.todo| - 1];
    assert |s.todo| >= 2 && s.todo[0].cfg == last.cfg && t.todo[|t.todo| - 1] == last;
    FrameGrows(s, t);
    forall k | k in t.c.objs && Reserved(s.ns, k) && Claimed(t.c.objs[k], last.cfg.name)
      ensures Scheduled(s.ns, t.todo, k, t.c.objs[k])
    {
      var op :| op in s.todo && Clears(s.ns, op, k, t.c.objs[k]);
      if op == s.todo[0] {
        var op' :| op' in ops && Clears(s.ns, op', k, t.c.objs[k]);
        assert op' in t.todo;
      } else {
        assert op in t.todo;
      }
    }
    forall op | op in t.todo ensures OpOk(t.c, t.ns, op) {
      HeldGrowsKeeps(s.c, t.c, s.ns, Object(map[], Plain), op);
    }
  }

  lemma SweepKeepsInv(s: Sys, a: Answer)
    requires Inv(s) && Cleaning(s.todo) && s.todo[0].Sweep? && a.fault == NoFault && SweepsOwn(s)
    ensures Inv(Perform(s, a))
  {
    hide Authored, Reserved, Perform, Clears, Scheduled;
    var cfg, kind, selector := s.todo[0].cfg, s.todo[0].kind, s.todo[0].selector;
    var names := Arrange(a.order, ObjectNames(s.c, kind, s.ns, selector));
    var ops := Removes(cfg, Keys(kind, s.ns, names));
    assert OpOk(s.c, s.ns, s.todo[0]);
    SweepPlans(s, a, ops);
    forall i | 0 <= i < |names| ensures Reserved(s.ns, Key(kind, s.ns, names[i])) {
      assert names[i] in ObjectNames(s.c, kind, s.ns, selector);
      assert Key(kind, s.ns, names[i]) in s.c.objs;
    }
    forall k | k in s.c.objs && Clears(s.ns, s.todo[0], k, s.c.objs[k]) ensures Scheduled(s.ns, ops, k, s.c.objs[k]) {
      SweepSchedules(s, a, k, ops);
    }
    CleanupStepKeepsInv(s, Perform(s, a), ops);
  }

  lemma SweepSchedules(s: Sys, a: Answer, k: Key, ops: seq<Op>)
    requires s.todo != [] && s.todo[0].Sweep? && k in s.c.objs && Clears(s.ns, s.todo[0], k, s.c.objs[k])
    requires ops
      == Removes(s.todo[0].cfg,
      Keys(s.todo[0].kind, s.ns, Arrange(a.order, ObjectNames(s.c, s.todo[0].kind, s.ns, s.todo[0].selector))))
    ensures Scheduled(s.ns, ops, k, s.c.objs[k])
  {
    var names := Arrange(a.order, ObjectNames(s.c, s.todo[0].kind, s.ns, s.todo[0].selector));
    assert k.name in ObjectNames(s.c, s.todo[0].kind, s.ns, s.todo[0].selector);
    var i :| 0 <= i < |names| && names[i] == k.name;
    assert ops[i] == Remove(s.todo[0].cfg, k);
    assert Clears(s.ns, ops[i], k, s.c.objs[k]);
  }

  lemma SweepPlans(s: Sys, a: Answer, ops: seq<Op>)
    requires s.todo != [] && s.todo[0].Sweep? && a.fault == NoFault
    requires ops
      == Removes(s.todo[0].cfg,
      Keys(s.todo[0].kind, s.ns, Arrange(a.order, ObjectNames(s.c, s.todo[0].kind, s.ns, s.todo[0].selector))))
    ensures Perform(s, a) == s.(todo := ops + s.todo[1..])
  {
    hide Keys, Arrange, ObjectNames, Removes;
  }

  lemma RemoveKeepsInv(s: Sys, a: Answer)
    requires Inv(s) && Cleaning(s.todo) && s.todo[0].Remove? && CleanupReply(s, a) != Rejected
    ensures Inv(Perform(s, a))
  {
    hide Authored, Reserved;
    CleanupStepKeepsInv(s, Perform(s, a), []);
  }

  lemma NodeCleanupKeepsInv(s: Sys, a: Answer)
    requires Inv(s) && Cleaning(s.todo) && (s.todo[0].ListPooled? || s.todo[0].UnlabelNode?)
    ensures Inv(Perform(s, a))
  {
    hide Authored, Reserved, ListNodes, Perform;
    var t := Perform(s, a);
    NodeCleanupEffect(s, a);
    if s.todo[0].UnlabelNode? {
      CleanupStepKeepsInv(s, t, []);
    } else if a.fault == NoFault {
      CleanupStepKeepsInv(s, t, UnlabelOps(ListNodes(s.c, PoolLabels(s.todo[0].cfg.name), a.order), s.todo[0].cfg));
    } else {
      assert !Cleaning(t.todo);
      FrameGrows(s, t);
    }
  }

  lemma NodeCleanupEffect(s: Sys, a: Answer)
    requires s.todo != [] && (s.todo[0].ListPooled? || s.todo[0].UnlabelNode?)
    ensures var t := Perform(s, a);
      && t.ns == s.ns && t.memo == s.memo && t.c.objs == s.c.objs && t.c.crs == s.c.crs
        && t.c.openShift == s.c.openShift
      && t.todo == if s.todo[0].UnlabelNode? then [] + s.todo[1..]
                   else if a.fault != NoFault then []
                   else UnlabelOps(ListNodes(s.c, PoolLabels(s.todo[0].cfg.name), a.order), s.todo[0].cfg) + s.todo[1..]
  {
    hide ListNodes, UnlabelOps, PoolLabels;
  }

  lemma ProbeForRemovalKeepsInv(s: Sys, a: Answer)
    requires Inv(s) && Cleaning(s.todo) && s.todo[0].ProbeForRemoval?
    requires a.fault == NoFault || !s.c.openShift
    ensures Inv(Perform(s, a))
  {
    hide Authored, Reserved, ClusterKeys;
    var cfg := s.todo[0].cfg;
    var ops := Removes(cfg, ClusterKeys(cfg.name, s.c.openShift));
    ClusterKeysReserved(s.ns, cfg.name, s.c.openShift);
    forall k | k in s.c.objs && Reserved(s.ns, k) && Claimed(s.c.objs[k], cfg.name)
      && Clears(s.ns, s.todo[0], k, s.c.objs[k])
      ensures Scheduled(s.ns, ops, k, s.c.objs[k])
    {
      ReservedIsAuthored(s, k);
      ClusterKeysCluster(cfg.name, k);
      ClusterObjectNamed(s.ns, s.c.openShift, k, s.c.objs[k], cfg.name);
      var i :| 0 <= i < |ClusterKeys(cfg.name, s.c.openShift)| && ClusterKeys(cfg.name, s.c.openShift)[i] == k;
      assert ops[i] == Remove(cfg, k);
      assert Clears(s.ns, ops[i], k, s.c.objs[k]);
    }
    CleanupStepKeepsInv(s, Perform(s, a), ops);
  }

  lemma ClusterKeysCluster(x: string, k: Key)
    requires k in ClusterKeys(x, true)
    ensures !Namespaced(k.kind)
  {
  }

  /** The finalizer goes only when nothing of the custom resource is left. */
  lemma DropFinalizerKeepsInv(s: Sys, a: Answer)
    requires Inv(s) && Cleaning(s.todo) && s.todo[0].DropFinalizer?
    ensures Inv(Perform(s, a))
  {
    hide Authored, Reserved;
    var cfg, t := s.todo[0].cfg, Perform(s, a);
    assert |s.todo| == 1;
    forall k | k in s.c.objs && Reserved(s.ns, k) ensures !Claimed(s.c.objs[k], cfg.name) {
      assert !Scheduled(s.ns, s.todo, k, s.c.objs[k]);
    }
    DropFinalizerEffect(s, a);
    forall k | k in t.c.objs && Reserved(s.ns, k) ensures Justified(t.c, t.c.objs[k]) {
      ReservedIsAuthored(s, k);
      AuthoredLabels(s.ns, s.c.openShift, k, s.c.objs[k]);
    }
  }

  lemma AuthoredLabels(ns: string, os: bool, k: Key, o: Object)
    requires Authored(ns, os, k, o)
    ensures NodeTopology in o.labels <==> AppInstance !in o.labels
  {
  }

  /** Storing or dropping one custom resource changes nothing else. */
  ghost predicate OnlyCR(c: Store, d: Store, name: string) {
    && d.objs == c.objs && d.objRv == c.objRv && d.nodes == c.nodes && d.nodeRv == c.nodeRv
    && d.openShift == c.openShift && d.rev >= c.rev
    && forall x | x != name :: Held(c, x) <==> Held(d, x)
  }

  lemma SettleEffect(c: Store, name: string, cr: FakeGPUConfig)
    ensures OnlyCR(c, SettleCR(c, name, cr), name)
  {
  }

  lemma UpdateCREffect(c: Store, cfg: Config, a: Answer)
    ensures OnlyCR(c, Effect(a, c, UpdateCR(c, cfg)).0, cfg.name)
  {
    hide SettleCR, Held;
    if cfg.name in c.crs {
      SettleEffect(c, cfg.name, c.crs[cfg.name].(spec := cfg.cr.spec, finalizers := cfg.cr.finalizers));
    }
  }

  lemma DropFinalizerEffect(s: Sys, a: Answer)
    requires s.todo != [] && s.todo[0].DropFinalizer?
    ensures var t := Perform(s, a);
      t.ns == s.ns && t.memo == s.memo && t.todo == [] && OnlyCR(s.c, t.c, s.todo[0].cfg.name)
  {
    hide UpdateCR, Effect, OnlyCR;
    var cfg := s.todo[0].cfg;
    UpdateCREffect(s.c, cfg.(cr := cfg.cr.(finalizers := cfg.cr.finalizers - {FINALIZER})), a);
  }

  // ---------------------------------------------------------------- every step, every history

  lemma CallKeepsInv(s: Sys, a: Answer)
    requires Inv(s) && s.todo != [] && Fair(s, Call(a))
    ensures Inv(Perform(s, a)) && (Applying(s.todo) ==> Applying(Perform(s, a).todo))
  {
    hide Perform, Inv, Authored, Reserved;
    var op := s.todo[0];
    assert Shaped(s.todo) by { InvShape(s); }
    assert op in s.todo;
    match op
    case Begin(_) => GetKeepsInv(s, a);
    case SaveFinalizer(_) => SaveFinalizerKeepsInv(s, a);
    case FindHelmSecrets(_) => HelmCheckKeepsInv(s, a);
    case FindHelmTopology(_) => HelmCheckKeepsInv(s, a);
    case Probe(_) => ProbeKeepsInv(s, a);
    case Fetch(_, _) => FetchKeepsInv(s, a);
    case Create(_, _) => WriteKeepsInv(s, a);
    case Replace(_, _, _) => WriteKeepsInv(s, a);
    case ListSelected(_) => NodeListKeepsInv(s, a);
    case LabelNode(_, _) => NodeWriteKeepsInv(s, a);
    case ListPool(_, _) => NodeListKeepsInv(s, a);
    case CountNodes(_, _) => NodeListKeepsInv(s, a);
    case SaveStatus(_, _) => SaveStatusKeepsInv(s, a);
    case Sweep(_, _, _) => SweepKeepsInv(s, a);
    case Remove(_, _) => RemoveKeepsInv(s, a);
    case ListPooled(_) => NodeCleanupKeepsInv(s, a);
    case UnlabelNode(_, _) => NodeCleanupKeepsInv(s, a);
    case ProbeForRemoval(_) => ProbeForRemovalKeepsInv(s, a);
    case DropFinalizer(_) => DropFinalizerKeepsInv(s, a);
  }

  lemma InvShape(s: Sys)
    requires Inv(s)
    ensures Shaped(s.todo)
  {
  }

  lemma ActKeepsInv(s: Sys, a: Action)
    requires Inv(s) && Fair(s, a)
    ensures Inv(Act(s, a))
  {
    hide Perform, Authored, Reserved;
    match a
    case Request(name) =>
      if s.todo == [] { assert !Cleaning([Begin(name)]); }
    case Call(answer) =>
      if s.todo != [] { CallKeepsInv(s, answer); }
    case Elsewhere(m) => MoveKeepsInv(s, m);
    case Restart =>
  }

  lemma {:induction false} ReplayKeepsInv(s: Sys, h: seq<Action>)
    requires Inv(s) && FairHistory(s, h)
    ensures Inv(Replay(s, h))
    decreases |h|
  {
    hide Inv, Act, Fair;
    if h != [] {
      ActKeepsInv(s, h[0]);
      ReplayKeepsInv(Act(s, h[0]), h[1..]);
    }
  }

  /** A cluster the operator has not touched. */
  ghost predicate Pristine(s: Sys) {
    s.todo == [] && s.memo == None && forall k | k in s.c.objs :: !Reserved(s.ns, k)
  }

  /**
   * No orphans. Start anywhere the operator has left no objects; let users, other clients, faults and restarts do
   * what they like at every point. An object labelled with a custom resource's instance exists only while that custom
   * resource is stored with the finalizer, and any other object of the operator only while some custom resource is.
   */
  lemma NoOrphansEver(s: Sys, h: seq<Action>, k: Key)
    requires Pristine(s) && FairHistory(s, h)
    ensures var c := Replay(s, h).c;
      k in c.objs && Reserved(s.ns, k) ==>
        if AppInstance in c.objs[k].labels then Held(c, c.objs[k].labels[AppInstance])
        else NodeTopology in c.objs[k].labels && exists x :: Held(c, x)
  {
    hide Authored, Reserved, Act, Fair;
    assert Inv(s) by { PristineInv(s); }
    ReplayKeepsInv(s, h);
    NamespaceFixed(s, h);
    var t := Replay(s, h);
    if k in t.c.objs && Reserved(s.ns, k) {
      ReservedIsAuthored(t, k);
      AuthoredLabels(t.ns, t.c.openShift, k, t.c.objs[k]);
    }
  }

  lemma PristineInv(s: Sys)
    requires Pristine(s)
    ensures Inv(s)
  {
  }

  lemma {:induction false} NamespaceFixed(s: Sys, h: seq<Action>)
    ensures Replay(s, h).ns == s.ns
    decreases |h|
  {
    if h != [] { NamespaceFixed(Act(s, h[0]), h[1..]); }
  }
}
