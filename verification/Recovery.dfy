/**
 * Crash recovery: whatever an interrupted, faulted or restarted series of runs for a custom resource has written, one
 * clean run afterwards reaches the contents one clean run would have reached from the start.
 */
module Recovery {
  import opened Basics
  import opened Api
  import opened Resources
  import opened Naming
  import opened Cluster
  import opened Protocol
  import opened Safety
  import opened Erasure
  import opened Honesty
  import opened Quiescence
  import opened Helm
  import opened Convergence
  import opened Authorship

  // ---------------------------------------------------------------- a run's own operations

  function ProfileOf(c: Store, x: string): GPUProfile
    requires Applicable(c, x)
  {
    ResolveProfile(c.crs[x].spec).value
  }

  function PlanOf(c: Store, ns: string, x: string): seq<Manifest>
    requires Applicable(c, x)
  {
    Plan(x, c.crs[x].spec, ProfileOf(c, x), ns, c.openShift)
  }

  /** A key the run for `x` writes: in its plan, or the topology of a node in its pool. */
  ghost predicate Target(c: Store, ns: string, x: string, k: Key)
    requires Applicable(c, x)
  {
    Writing(PlanOf(c, ns, x), k) || exists n | n in c.nodes && Matches(PoolLabels(x), c.nodes[n]) :: k == NodeKey(n, ns)
  }

  ghost predicate OwnOp(c: Store, ns: string, x: string, op: Op)
    requires Applicable(c, x)
  {
    match op
    case Begin(name) => name == x
    case SaveFinalizer(cfg) => cfg == Stored(c, x)
    case Fetch(_, m) => Target(c, ns, x, m.key)
    case Create(_, m) => Target(c, ns, x, m.key)
    case Replace(_, m, _) => Target(c, ns, x, m.key)
    case LabelNode(seen, cfg) =>
      cfg.name == x && SpecOk(c, cfg) && SeenOk(c, seen) && Selects(x, cfg.cr.spec, seen.labels)
    case ListPool(cfg, p) => cfg.name == x && SpecOk(c, cfg) && p == ProfileOf(c, x)
    case CountNodes(cfg, p) => cfg.name == x && SpecOk(c, cfg) && p == ProfileOf(c, x)
    case _ => op.cfg.name == x && SpecOk(c, op.cfg) && !Cleanup(op)
  }

  /** Operations that are only ever the whole of what is left. */
  predicate Solo(op: Op) { op.Begin? || op.SaveFinalizer? }

  /** A process never remembers OpenShift where there is none; it may have failed to find out that there is. */
  predicate MemoSound(s: Sys) { s.memo == Some(true) ==> s.c.openShift }

  ghost predicate OwnRun(s: Sys, x: string) {
    && Applicable(s.c, x) && RvBound(s.c) && MemoSound(s)
    && (forall op | op in s.todo :: OwnOp(s.c, s.ns, x, op))
    && (forall op | op in s.todo && Solo(op) :: s.todo == [op])
  }

  /** Runs for `x` only, and current reads; every call may fail, and restarts may strike. */
  predicate Struggling(s: Sys, x: string, a: Action) {
    match a
    case Request(name) => name == x
    case Call(answer) => answer.stale == None
    case Elsewhere(_) => false
    case Restart => true
  }

  predicate Struggle(s: Sys, x: string, h: seq<Action>)
    decreases |h|
  {
    h == [] || (Struggling(s, x, h[0]) && Struggle(Act(s, h[0]), x, h[1..]))
  }

  // ---------------------------------------------------------------- targets are written by the goal

  lemma WritingConcat(a: seq<Manifest>, b: seq<Manifest>, k: Key)
    ensures Writing(a + b, k) <==> Writing(a, k) || Writing(b, k)
  {
    if i :| 0 <= i < |a| && a[i].key == k { assert (a + b)[i].key == k; }
    if i :| 0 <= i < |b| && b[i].key == k { assert (a + b)[|a| + i].key == k; }
  }

  lemma WritingHead(ms: seq<Manifest>, k: Key)
    requires Writing(ms, k)
    ensures ms[0].key == k || Writing(ms[1..], k)
  {
    var i :| 0 <= i < |ms| && ms[i].key == k;
    if i > 0 { assert ms[1..][i - 1].key == k; }
  }

  lemma PoolStays(l: Labels, x: string, spec: Spec)
    requires x != ""
    ensures Matches(PoolLabels(x), Relabel(l, DesiredLabels(x, spec)))
  {
  }

  lemma TopologyWritten(names: set<string>, n: string, spec: Spec, p: GPUProfile, ns: string)
    requires n in names
    ensures Writing(Topologies(Arrange([], names), spec, p, ns), NodeKey(n, ns))
  {
    var order := Arrange([], names);
    assert n in order;
    var i :| 0 <= i < |order| && order[i] == n;
    assert Topologies(order, spec, p, ns)[i].key == NodeKey(n, ns);
  }

  lemma TargetIsWritten(c: Store, ns: string, x: string, k: Key)
    requires Applicable(c, x) && Target(c, ns, x, k)
    ensures Writing(Writes(Labelled(c.nodes, x, c.crs[x].spec), x, c.crs[x].spec, ProfileOf(c, x), ns, c.openShift), k)
  {
    hide Plan, Relabel, Topologies, DesiredLabels, ResolveProfile;
    var spec := c.crs[x].spec;
    var nodes := Labelled(c.nodes, x, spec);
    var topologies := Topologies(Arrange([], PoolNames(nodes, x)), spec, ProfileOf(c, x), ns);
    WritingConcat(PlanOf(c, ns, x), topologies, k);
    if !Writing(PlanOf(c, ns, x), k) {
      var n :| n in c.nodes && Matches(PoolLabels(x), c.nodes[n]) && k == NodeKey(n, ns);
      PoolStays(c.nodes[n], x, spec);
      TopologyWritten(PoolNames(nodes, x), n, spec, ProfileOf(c, x), ns);
    }
  }

  // ---------------------------------------------------------------- absorption, step by step

  ghost predicate Absorbed(s: Sys, t: Sys, x: string)
    requires Applicable(s.c, x)
  {
    OwnRun(t, x) && t.ns == s.ns && t.c.openShift == s.c.openShift && Goal(t.c, t.ns, x) == Goal(s.c, s.ns, x)
  }

  lemma FetchesOwn(c: Store, ns: string, x: string, ms: seq<Manifest>)
    requires Applicable(c, x) && forall i | 0 <= i < |ms| :: Target(c, ns, x, ms[i].key)
    ensures forall op | op in Fetches(x, ms) :: OwnOp(c, ns, x, op)
  {
  }

  lemma PlanTargets(c: Store, ns: string, x: string)
    requires Applicable(c, x)
    ensures var rbac, scc, work := RbacManifests(x, ns), Only(c.openShift, SccManifests(x, ns)),
      WorkloadManifests(x, c.crs[x].spec, ProfileOf(c, x), ns);
      && (forall i | 0 <= i < |rbac| :: Target(c, ns, x, rbac[i].key))
      && (forall i | 0 <= i < |scc| :: Target(c, ns, x, scc[i].key))
      && (forall i | 0 <= i < |work| :: Target(c, ns, x, work[i].key))
  {
    hide RbacManifests, SccManifests, WorkloadManifests, ResolveProfile, Only;
    var rbac, scc, work := RbacManifests(x, ns), Only(c.openShift, SccManifests(x, ns)),
      WorkloadManifests(x, c.crs[x].spec, ProfileOf(c, x), ns);
    var plan := PlanOf(c, ns, x);
    assert plan == rbac + scc + work;
    forall i | 0 <= i < |rbac| ensures Writing(plan, rbac[i].key) { assert plan[i] == rbac[i]; }
    forall i | 0 <= i < |scc| ensures Writing(plan, scc[i].key) { assert plan[|rbac| + i] == scc[i]; }
    forall i | 0 <= i < |work| ensures Writing(plan, work[i].key) { assert plan[|rbac| + |scc| + i] == work[i]; }
  }

  lemma AfterHelmOwn(c: Store, ns: string, x: string, cfg: Config, memo: Option<bool>)
    requires Applicable(c, x) && cfg.name == x && SpecOk(c, cfg) && (memo == Some(true) ==> c.openShift)
    ensures forall op | op in AfterHelm(cfg, ns, memo) :: OwnOp(c, ns, x, op) && !Solo(op)
  {
    hide RbacManifests, SccManifests, WorkloadManifests, ResolveProfile, Target;
    var p := ProfileOf(c, x);
    PlanTargets(c, ns, x);
    FetchesOwn(c, ns, x, RbacManifests(x, ns));
    FetchesOwn(c, ns, x, Only(c.openShift, SccManifests(x, ns)));
    FetchesOwn(c, ns, x, WorkloadManifests(x, cfg.cr.spec, p, ns));
  }

  lemma PlanningAbsorbed(s: Sys, t: Sys, x: string, ops: seq<Op>)
    requires OwnRun(s, x) && s.todo != [] && t.c == s.c && t.ns == s.ns && MemoSound(t) && !Solo(s.todo[0])
    requires t.todo == ops + s.todo[1..] || t.todo == []
    requires forall op | op in ops :: OwnOp(s.c, s.ns, x, op) && !Solo(op)
    ensures Absorbed(s, t, x)
  {
  }

  lemma HelmAbsorbed(s: Sys, a: Answer, x: string)
    requires OwnRun(s, x) && s.todo != [] && (s.todo[0].FindHelmSecrets? || s.todo[0].FindHelmTopology?)
    ensures Absorbed(s, Perform(s, a), x)
  {
    hide AfterHelm, HelmSecretStored, HelmTopologyStored, Goal, Target, ResolveProfile;
    var op, t := s.todo[0], Perform(s, a);
    assert op in s.todo && OwnOp(s.c, s.ns, x, op);
    AfterHelmOwn(s.c, s.ns, x, op.cfg, s.memo);
    PlanningAbsorbed(s, t, x,
      if t == Continue(s, AfterHelm(op.cfg, s.ns, s.memo)) then AfterHelm(op.cfg, s.ns, s.memo)
      else if t == Continue(s, HelmStatus(op.cfg)) then HelmStatus(op.cfg)
      else [FindHelmTopology(op.cfg)]);
  }

  lemma GetAbsorbed(s: Sys, a: Answer, x: string)
    requires OwnRun(s, x) && s.todo == [Begin(x)] && a.stale == None
    ensures Absorbed(s, Perform(s, a), x)
  {
    hide DeleteProgram, Goal, Target, ResolveProfile;
    var t := Perform(s, a);
    assert t.c == s.c && t.ns == s.ns && t.memo == s.memo;
    if a.fault == NoFault {
      assert t.todo == Route(Stored(s.c, x), s.memo);
    }
  }

  lemma ProbeAbsorbed(s: Sys, a: Answer, x: string)
    requires OwnRun(s, x) && s.todo != [] && s.todo[0].Probe?
    ensures Absorbed(s, Perform(s, a), x)
  {
    hide SccManifests, Goal, Target, ResolveProfile;
    assert s.todo[0] in s.todo && OwnOp(s.c, s.ns, x, s.todo[0]);
    PlanTargets(s.c, s.ns, x);
    var b := a.fault == NoFault && s.c.openShift;
    FetchesOwn(s.c, s.ns, x, Only(b, SccManifests(x, s.ns)));
    PlanningAbsorbed(s, Perform(s, a), x, Fetches(x, Only(b, SccManifests(x, s.ns))));
  }

  lemma FetchAbsorbed(s: Sys, a: Answer, x: string)
    requires OwnRun(s, x) && s.todo != [] && s.todo[0].Fetch?
    ensures Absorbed(s, Perform(s, a), x)
  {
    hide Goal, Target, ResolveProfile;
    var owner, m := s.todo[0].owner, s.todo[0].m;
    assert s.todo[0] in s.todo && OwnOp(s.c, s.ns, x, s.todo[0]);
    PlanningAbsorbed(s, Perform(s, a), x, if m.key in s.c.objs then [Replace(owner, m, Rv(s.c.objRv, m.key))]
      else [Create(owner, m)]);
  }

  lemma ListSelectedAbsorbed(s: Sys, a: Answer, x: string)
    requires OwnRun(s, x) && s.todo != [] && s.todo[0].ListSelected?
    ensures Absorbed(s, Perform(s, a), x)
  {
    hide Goal, ListNodes, ResolveProfile, PlanOf, LabelOps, NodeListOption, Absorbed;
    var op := s.todo[0];
    assert op in s.todo && OwnOp(s.c, s.ns, x, op);
    var seen := ListNodes(s.c, NodeListOption(x, op.cfg.cr.spec), a.order);
    ObserveSeen(s.c, NodeListOption(x, op.cfg.cr.spec), a.order);
    LabelOpsFacts(seen, op.cfg);
    PlanningAbsorbed(s, Perform(s, a), x, LabelOps(seen, op.cfg));
  }

  lemma ListPoolAbsorbed(s: Sys, a: Answer, x: string)
    requires OwnRun(s, x) && s.todo != [] && s.todo[0].ListPool?
    ensures Absorbed(s, Perform(s, a), x)
  {
    hide Goal, ListNodes, ResolveProfile, PlanOf, Absorbed;
    var op := s.todo[0];
    assert op in s.todo && OwnOp(s.c, s.ns, x, op);
    var seen := ListNodes(s.c, PoolLabels(x), a.order);
    ObserveSeen(s.c, PoolLabels(x), a.order);
    var ms := PoolManifests(seen, op.cfg.cr.spec, op.profile, s.ns);
    forall i | 0 <= i < |ms| ensures Target(s.c, s.ns, x, ms[i].key) {
      assert seen[i] in seen;
    }
    FetchesOwn(s.c, s.ns, x, ms);
    PlanningAbsorbed(s, Perform(s, a), x, Fetches(x, ms));
  }

  lemma CountAbsorbed(s: Sys, a: Answer, x: string)
    requires OwnRun(s, x) && s.todo != [] && s.todo[0].CountNodes?
    ensures Absorbed(s, Perform(s, a), x)
  {
    hide Goal, ListNodes, ResolveProfile, PlanOf, FinalStatus, NodeListOption, Absorbed;
    var op := s.todo[0];
    assert op in s.todo && OwnOp(s.c, s.ns, x, op);
    PlanningAbsorbed(s, Perform(s, a), x, [SaveStatus(op.cfg, FinalStatus(op.cfg.cr.status,
      ListNodes(s.c, NodeListOption(x, op.cfg.cr.spec), a.order), op.cfg.cr.spec, op.profile))]);
  }

  /** Steps that leave nodes and the custom resources' specs alone keep the run's own operations. */
  lemma OwnOpsStay(s: Sys, t: Sys, x: string)
    requires OwnRun(s, x) && Applicable(t.c, x) && t.ns == s.ns && t.c.openShift == s.c.openShift
    requires t.c.nodes == s.c.nodes && t.c.nodeRv == s.c.nodeRv && t.c.rev >= s.c.rev && SameSpecs(s.c, t.c)
    ensures forall op | op in s.todo && !Solo(op) :: OwnOp(t.c, t.ns, x, op)
    ensures RvBound(t.c)
  {
    hide Plan, ResolveProfile, Selects;
    forall op | op in s.todo && !Solo(op) ensures OwnOp(t.c, t.ns, x, op) {
      assert OwnOp(s.c, s.ns, x, op);
    }
  }

  lemma WriteAbsorbed(s: Sys, a: Answer, x: string)
    requires OwnRun(s, x) && s.todo != [] && (s.todo[0].Create? || s.todo[0].Replace?)
    ensures Absorbed(s, Perform(s, a), x)
  {
    hide Perform, Target, Plan, ResolveProfile, Labelled, Writes, GoalStatus;
    var m, t := s.todo[0].m, Perform(s, a);
    assert s.todo[0] in s.todo && OwnOp(s.c, s.ns, x, s.todo[0]);
    WriteEffect(s, a);
    OwnOpsStay(s, t, x);
    TargetIsWritten(s.c, s.ns, x, m.key);
    PutAllAbsorbs(s.c.objs,
      Writes(Labelled(s.c.nodes, x, s.c.crs[x].spec), x, s.c.crs[x].spec, ProfileOf(s.c, x), s.ns, s.c.openShift),
      m.key, m.obj);
    assert forall op | op in s.todo :: !Solo(op);
  }

  lemma RelabelTwice(l: Labels, x: string, spec: Spec)
    requires x != ""
    ensures Relabel(Relabel(l, DesiredLabels(x, spec)), DesiredLabels(x, spec)) == Relabel(l, DesiredLabels(x, spec))
  {
  }

  /** Labelling one selected node is part of labelling them all. */
  lemma LabelledAbsorbs(nodes: map<string, Labels>, n: string, x: string, spec: Spec)
    requires x != "" && n in nodes && Selects(x, spec, nodes[n])
    ensures Labelled(nodes[n := Relabel(nodes[n], DesiredLabels(x, spec))], x, spec) == Labelled(nodes, x, spec)
  {
    hide Selects, Relabel, DesiredLabels;
    RelabelTwice(nodes[n], x, spec);
  }

  lemma LabelAbsorbed(s: Sys, a: Answer, x: string)
    requires OwnRun(s, x) && s.todo != [] && s.todo[0].LabelNode?
    ensures Absorbed(s, Perform(s, a), x)
  {
    hide Perform, Plan, ResolveProfile, Labelled, Selects, Relabel, DesiredLabels, Writes, GoalStatus;
    var op, t := s.todo[0], Perform(s, a);
    assert op in s.todo && OwnOp(s.c, s.ns, x, op);
    NodeWriteEffect(s, a);
    StoreNodeBound(s.c, op.seen.name, Sent(op));
    if t.c != s.c {
      LabelledAbsorbs(s.c.nodes, op.seen.name, x, op.cfg.cr.spec);
      PoolStays(op.seen.labels, x, op.cfg.cr.spec);
    }
    assert forall later | later in s.todo :: !Solo(later);
    forall later | later in t.todo ensures OwnOp(t.c, t.ns, x, later) {
      assert OwnOp(s.c, s.ns, x, later);
    }
  }

  lemma StoreNodeBound(c: Store, n: string, l: Labels)
    requires RvBound(c)
    ensures RvBound(StoreNode(c, n, l))
  {
  }

  /** Writes of the run's own custom resource touch its finalizers and status only. */
  predicate OnlyHeader(c: Store, d: Store, x: string)
    requires x in c.crs
  {
    && d.objs == c.objs && d.nodes == c.nodes && d.nodeRv == c.nodeRv && d.openShift == c.openShift && d.rev >= c.rev
    && x in d.crs && d.crs == c.crs[x := d.crs[x]]
    && d.crs[x].spec == c.crs[x].spec && d.crs[x].deleting == c.crs[x].deleting
    && (d.crs[x].finalizers == c.crs[x].finalizers || d.crs[x].finalizers == c.crs[x].finalizers + {FINALIZER})
  }

  lemma HeaderGoal(c: Store, d: Store, ns: string, x: string)
    requires Applicable(c, x) && OnlyHeader(c, d, x)
    ensures Applicable(d, x) && Goal(d, ns, x) == Goal(c, ns, x)
  {
    hide Plan, ResolveProfile, Labelled, Writes, GoalStatus;
    var f := c.crs[x].finalizers;
    assert (f + {FINALIZER}) + {FINALIZER} == f + {FINALIZER};
  }

  lemma SettleHeader(c: Store, x: string, cr: FakeGPUConfig)
    requires x in c.crs && !c.crs[x].deleting && !cr.deleting && cr.spec == c.crs[x].spec
    requires cr.finalizers == c.crs[x].finalizers || cr.finalizers == c.crs[x].finalizers + {FINALIZER}
    ensures OnlyHeader(c, SettleCR(c, x, cr), x)
  {
    if c.crs[x] == cr { assert c.crs[x := cr] == c.crs; }
  }

  lemma CrWriteHeader(s: Sys, a: Answer, x: string)
    requires Applicable(s.c, x) && s.todo != [] && (s.todo[0].SaveFinalizer? || s.todo[0].SaveStatus?)
    requires s.todo[0].cfg.name == x
      && (s.todo[0].SaveFinalizer? ==> s.todo == [s.todo[0]] && s.todo[0].cfg == Stored(s.c, x))
    ensures var t := Perform(s, a);
      && t.ns == s.ns && t.memo == s.memo && OnlyHeader(s.c, t.c, x)
      && (t.todo == [] || (t.todo == [FindHelmSecrets(Stored(t.c, x))] && s.todo[0].SaveFinalizer?))
  {
    hide SettleCR, ResolveProfile;
    var cr := s.c.crs[x];
    assert s.c.crs[x := cr] == s.c.crs;
    if s.todo[0].SaveFinalizer? {
      SettleHeader(s.c, x, cr.(finalizers := cr.finalizers + {FINALIZER}));
    } else {
      SettleHeader(s.c, x, cr.(status := s.todo[0].status));
    }
  }

  lemma CrWriteAbsorbed(s: Sys, a: Answer, x: string)
    requires OwnRun(s, x) && s.todo != [] && (s.todo[0].SaveFinalizer? || s.todo[0].SaveStatus?)
    ensures Absorbed(s, Perform(s, a), x)
  {
    hide Perform, Target, Goal, ResolveProfile, OnlyHeader;
    assert s.todo[0] in s.todo && OwnOp(s.c, s.ns, x, s.todo[0]);
    CrWriteHeader(s, a, x);
    HeaderGoal(s.c, Perform(s, a).c, s.ns, x);
    HeaderBound(s.c, Perform(s, a).c, x);
  }

  lemma HeaderBound(c: Store, d: Store, x: string)
    requires x in c.crs && OnlyHeader(c, d, x) && RvBound(c)
    ensures RvBound(d) && d.openShift == c.openShift
  {
  }

  lemma CallAbsorbed(s: Sys, a: Answer, x: string)
    requires OwnRun(s, x) && s.todo != [] && Struggling(s, x, Call(a))
    ensures Absorbed(s, Perform(s, a), x)
  {
    hide Perform, Goal, Target, ResolveProfile, Absorbed;
    var op := s.todo[0];
    assert op in s.todo && OwnOp(s.c, s.ns, x, op);
    match op
    case Begin(_) => GetAbsorbed(s, a, x);
    case SaveFinalizer(_) => CrWriteAbsorbed(s, a, x);
    case FindHelmSecrets(_) => HelmAbsorbed(s, a, x);
    case FindHelmTopology(_) => HelmAbsorbed(s, a, x);
    case Probe(_) => ProbeAbsorbed(s, a, x);
    case Fetch(_, _) => FetchAbsorbed(s, a, x);
    case Create(_, _) => WriteAbsorbed(s, a, x);
    case Replace(_, _, _) => WriteAbsorbed(s, a, x);
    case LabelNode(_, _) => LabelAbsorbed(s, a, x);
    case SaveStatus(_, _) => CrWriteAbsorbed(s, a, x);
    case ListSelected(_) => ListSelectedAbsorbed(s, a, x);
    case ListPool(_, _) => ListPoolAbsorbed(s, a, x);
    case CountNodes(_, _) => CountAbsorbed(s, a, x);
  }

  // ---------------------------------------------------------------- histories

  lemma IdleAbsorbed(s: Sys, x: string, a: Action)
    requires OwnRun(s, x) && Struggling(s, x, a) && (a.Request? || a.Restart?)
    ensures Absorbed(s, Act(s, a), x)
  {
    hide Goal, Target, ResolveProfile;
  }

  lemma {:induction false} StruggleAbsorbed(s: Sys, x: string, h: seq<Action>)
    requires OwnRun(s, x) && Struggle(s, x, h)
    ensures var t := Replay(s, h);
      OwnRun(t, x) && t.ns == s.ns && t.c.openShift == s.c.openShift && Goal(t.c, t.ns, x) == Goal(s.c, s.ns, x)
    decreases |h|
  {
    hide Perform, Goal, OwnRun, Struggling;
    assert Applicable(s.c, x) by { OwnApplicable(s, x); }
    if h != [] {
      assert Absorbed(s, Act(s, h[0]), x) by {
        if h[0].Call? {
          if s.todo != [] { CallAbsorbed(s, h[0].answer, x); }
        } else if h[0].Elsewhere? {
          StrugglingAlone(s, x, h[0]);
        } else {
          IdleAbsorbed(s, x, h[0]);
        }
      }
      StruggleAbsorbed(Act(s, h[0]), x, h[1..]);
    }
  }

  lemma OwnApplicable(s: Sys, x: string)
    requires OwnRun(s, x)
    ensures Applicable(s.c, x)
  {
  }

  lemma StrugglingAlone(s: Sys, x: string, a: Action)
    requires Struggling(s, x, a)
    ensures !a.Elsewhere?
  {
  }

  lemma {:induction false} StruggleAlone(s: Sys, x: string, h: seq<Action>)
    requires Struggle(s, x, h)
    ensures forall a | a in h :: !a.Elsewhere?
    decreases |h|
  {
    hide Act;
    if h != [] {
      StrugglingAlone(s, x, h[0]);
      StruggleAlone(Act(s, h[0]), x, h[1..]);
    }
  }

  /** A state from which a run for `x` can start, with every object at the operator's keys as it writes it. */
  ghost predicate Startable(s: Sys, x: string) {
    Neat(s.c, s.ns) && RvBound(s.c) && s.todo == [] && MemoSound(s) && Applicable(s.c, x) && !HelmStored(s.c)
  }

  lemma StartOwn(s: Sys, x: string)
    requires Startable(s, x)
    ensures OwnRun(s, x)
  {
  }

  /** Struggling changes the goal of nothing, and leaves a state a run can start from. */
  lemma StruggleLeavesOrder(s: Sys, x: string, h: seq<Action>)
    requires Startable(s, x) && Struggle(s, x, h)
    ensures var t := Replay(s, h);
      && Applicable(t.c, x) && Neat(t.c, t.ns) && RvBound(t.c) && NoHelm(t.c) && MemoSound(t)
      && t.ns == s.ns && t.c.openShift == s.c.openShift && Goal(t.c, t.ns, x) == Goal(s.c, s.ns, x)
  {
    hide Perform, Goal, Applicable, HelmStored, Neat, RvBound;
    StartOwn(s, x);
    StruggleAlone(s, x, h);
    StruggleAbsorbed(s, x, h);
    assert NeatInv(s);
    ReplayKeepsNeat(s, h);
    HelmNeverManufactured(s, h);
    OwnFacts(Replay(s, h), x);
  }

  lemma OwnFacts(s: Sys, x: string)
    requires OwnRun(s, x)
    ensures Applicable(s.c, x) && RvBound(s.c) && MemoSound(s)
  {
  }

  /**
   * Crash recovery and convergence. Take any history of runs for `x`, with any faults, lost responses and restarts at
   * any points, and stop it anywhere, even half way through the label or topology loop. If the process then restarts
   * and one run is left undisturbed, the contents are those that a single undisturbed run would have left at the start.
   */
  lemma CrashRecovery(lists: Order, at: nat, s: Sys, x: string, h: seq<Action>) returns (done: nat, t: Sys)
    requires Startable(s, x) && Struggle(s, x, h)
    ensures var crashed := Act(Replay(s, h), Restart);
      && Quietly(lists, at, Act(crashed, Request(x)), done, t) && t.todo == [] && !t.failed
      && ContentsOf(t.c) == Goal(s.c, s.ns, x)
  {
    hide Perform, Goal, Quietly, Applicable, HelmStored, Neat, RvBound;
    StruggleLeavesOrder(s, x, h);
    var crashed := Act(Replay(s, h), Restart);
    done, t := RunReachesGoal(lists, at, crashed, x);
  }

  /**
   * A run is idempotent: a second undisturbed run leaves the contents the first one left, in whatever order either
   * lists.
   */
  lemma RunIdempotent(lists: Order, at: nat, again: Order, from: nat, s: Sys, x: string)
      returns (i: nat, t: Sys, j: nat, u: Sys)
    requires Startable(s, x) && MemoHonest(s)
    ensures Quietly(lists, at, Act(s, Request(x)), i, t) && t.todo == []
    ensures Quietly(again, from, Act(t, Request(x)), j, u) && u.todo == [] && ContentsOf(u.c) == ContentsOf(t.c)
  {
    hide Perform, Act, Goal, Quietly, Applicable, HelmStored, Neat, RvBound;
    i, t := RunReachesGoal(lists, at, s, x);
    QuietlyForward(lists, at, Act(s, Request(x)), i, t);
    RunIsHistory(lists, at, s, x, i, t);
    RunStruggles(lists, at, s, x, i);
    StruggleLeavesOrder(s, x, RunHistory(lists, at, x, i));
    j, u := RunReachesGoal(again, from, t, x);
  }

  lemma {:induction false} QuietStruggle(lists: Order, at: nat, s: Sys, x: string, n: nat)
    ensures Struggle(s, x, QuietCalls(lists, at, n))
    decreases n
  {
    hide Act;
    if n > 0 {
      var h := QuietCalls(lists, at, n);
      assert h[0] == Call(Working(lists, at)) && h[1..] == QuietCalls(lists, at + 1, n - 1);
      QuietStruggle(lists, at + 1, Act(s, Call(Working(lists, at))), x, n - 1);
    }
  }

  lemma RunStruggles(lists: Order, at: nat, s: Sys, x: string, done: nat)
    requires at <= done
    ensures Struggle(s, x, RunHistory(lists, at, x, done))
  {
    hide Act;
    var h := RunHistory(lists, at, x, done);
    assert h[0] == Request(x) && h[1..] == QuietCalls(lists, at, done - at);
    QuietStruggle(lists, at, Act(s, Request(x)), x, done - at);
  }
}
