/**
 * Runs that do not apply: a stored Helm release and a profile that does not resolve are published as what they are,
 * with nothing written but that; what a run returns when it ends; and, put together with the runs that do apply or
 * clean up, what every undisturbed run comes to.
 */
module Refusal {
  import opened Basics
  import opened Api
  import opened Profiles
  import opened Resources
  import opened Cluster
  import opened Protocol
  import opened Safety
  import opened Erasure
  import opened Honesty
  import opened Authorship
  import opened Helm
  import opened Convergence
  import opened Recovery
  import opened Deletion

  // ---------------------------------------------------------------- Helm's release

  /** In whatever namespace: a secret Helm keeps for the chart, or a ConfigMap named topology that Helm manages. */
  predicate InstalledByHelm(k: Key, o: Object) {
    || (k.kind == Secret && HelmOwner in o.labels && o.labels[HelmOwner] == "helm"
        && HelmName in o.labels && o.labels[HelmName] == "gpu-operator")
    || (k.kind == ConfigMap && k.name == "topology" && AppManagedBy in o.labels && o.labels[AppManagedBy] == "Helm")
  }

  ghost predicate HelmInstalled(c: Store) { exists k | k in c.objs :: InstalledByHelm(k, c.objs[k]) }

  lemma HelmIsInstalled(k: Key, o: Object)
    ensures IsHelm(k, o) <==> InstalledByHelm(k, o)
  {
    assert HelmOwner in map[HelmOwner := "helm", HelmName := "gpu-operator"];
    assert HelmName in map[HelmOwner := "helm", HelmName := "gpu-operator"];
    assert AppManagedBy in map[AppManagedBy := "Helm"];
  }

  /** What the check looks for is exactly an installed release. */
  lemma HelmStoredIffInstalled(c: Store)
    ensures HelmStored(c) <==> HelmInstalled(c)
  {
    hide IsHelm, InstalledByHelm;
    NoHelmObjects(c);
    forall k | k in c.objs ensures IsHelm(k, c.objs[k]) <==> InstalledByHelm(k, c.objs[k]) {
      HelmIsInstalled(k, c.objs[k]);
    }
  }

  // ---------------------------------------------------------------- what is published

  /** The custom resource with the operator's finalizer and the condition of a refusal, and otherwise as it was. */
  function Refused(cr: FakeGPUConfig, reason: Reason): FakeGPUConfig {
    cr.(finalizers := cr.finalizers + {FINALIZER},
        status := cr.status.(condition := Some(Condition(false, reason))))
  }

  predicate Resolvable(spec: Spec) { spec.custom.Some? || spec.gpuProfile in BUILT_IN }

  /** A commit that works stores the status, and returns an error exactly for a profile that does not resolve. */
  lemma CommitWorks(lists: Order, at: nat, s: Sys, cfg: Config, status: Status) returns (done: nat, t: Sys)
    requires s.todo == [SaveStatus(cfg, status)] && cfg.name in s.c.crs && cfg == Stored(s.c, cfg.name)
    requires !cfg.cr.deleting && status.condition.Some?
    ensures Quietly(lists, at, s, done, t) && t.todo == [] && t.ns == s.ns && t.memo == s.memo
    ensures t.failed <==> status.condition.value.reason == InvalidProfile
    ensures t.c.objs == s.c.objs && t.c.nodes == s.c.nodes && t.c.openShift == s.c.openShift
    ensures t.c.crs == s.c.crs[cfg.name := cfg.cr.(status := status)]
  {
    hide SettleCR, Perform, Quietly;
    done, t := at + 1, Perform(s, Working(lists, at));
    QuietlyOne(lists, at, s);
    CommitStep(s, cfg, status, Working(lists, at));
    CommitContents(s.c, cfg.name, cfg.cr.(status := status));
  }

  lemma CommitStep(s: Sys, cfg: Config, status: Status, a: Answer)
    requires s.todo == [SaveStatus(cfg, status)] && cfg.name in s.c.crs && cfg == Stored(s.c, cfg.name)
    requires status.condition.Some? && a.fault == NoFault
    ensures Perform(s, a) == s.(c := SettleCR(s.c, cfg.name, cfg.cr.(status := status)), todo := [],
      failed := status.condition.value.reason == InvalidProfile)
  {
    hide SettleCR;
  }

  lemma CommitContents(c: Store, x: string, cr: FakeGPUConfig)
    requires x in c.crs && !cr.deleting
    ensures var d := SettleCR(c, x, cr);
      d.objs == c.objs && d.nodes == c.nodes && d.openShift == c.openShift && d.crs == c.crs[x := cr]
  {
    if c.crs[x] == cr { assert c.crs[x := cr] == c.crs; }
  }

  /** What the check and the profile lead to: a refusal, or the program that applies. */
  lemma Refusals(cfg: Config, ns: string, memo: Option<bool>)
    ensures HelmStatus(cfg)
      == [SaveStatus(cfg, cfg.cr.status.(condition := Some(Condition(false, HelmConflict))))]
    ensures !Resolvable(cfg.cr.spec) ==>
      AfterHelm(cfg, ns, memo) == [SaveStatus(cfg, cfg.cr.status.(condition := Some(Condition(false, InvalidProfile))))]
  {
    hide ApplyProgram;
    ProfileResolves(cfg.cr.spec);
  }

  /** The check of a run, with lists that work. */
  lemma RunCheck(lists: Order, at: nat, s: Sys, cfg: Config) returns (done: nat, t: Sys)
    requires s.todo == [FindHelmSecrets(cfg)]
    ensures Quietly(lists, at, s, done, t)
    ensures t == s.(todo := if HelmInstalled(s.c) then HelmStatus(cfg) else AfterHelm(cfg, s.ns, s.memo))
  {
    hide Perform, HelmSecretStored, HelmTopologyStored, AfterHelm, HelmInstalled, Quietly;
    HelmStoredIffInstalled(s.c);
    var a := Working(lists, at);
    var u := Perform(s, a);
    QuietlyOne(lists, at, s);
    CheckStep(s, cfg, a);
    if HelmSecretStored(s.c) {
      done, t := at + 1, u;
    } else {
      done, t := at + 2, Perform(u, Working(lists, at + 1));
      QuietlyOne(lists, at + 1, u);
      TopologyStep(u, cfg, Working(lists, at + 1));
      QuietlyTrans(lists, at, s, at + 1, u, done, t);
    }
  }

  lemma CheckStep(s: Sys, cfg: Config, a: Answer)
    requires s.todo == [FindHelmSecrets(cfg)] && a.fault == NoFault
    ensures Perform(s, a) == s.(todo := if HelmSecretStored(s.c) then HelmStatus(cfg) else [FindHelmTopology(cfg)])
  {
    hide HelmSecretStored;
    assert s.todo[1..] == [] && HelmStatus(cfg) + [] == HelmStatus(cfg);
  }

  lemma TopologyStep(s: Sys, cfg: Config, a: Answer)
    requires s.todo == [FindHelmTopology(cfg)] && a.fault == NoFault
    ensures Perform(s, a)
      == s.(todo := if HelmTopologyStored(s.c) then HelmStatus(cfg) else AfterHelm(cfg, s.ns, s.memo))
  {
    hide HelmTopologyStored, AfterHelm;
    assert s.todo[1..] == [] && HelmStatus(cfg) + [] == HelmStatus(cfg);
    assert AfterHelm(cfg, s.ns, s.memo) + [] == AfterHelm(cfg, s.ns, s.memo);
  }

  /** A run gets as far as its check, the finalizer added. */
  lemma RunToCheck(lists: Order, at: nat, s: Sys, x: string) returns (done: nat, t: Sys)
    requires s.todo == [Begin(x)] && x in s.c.crs && !s.c.crs[x].deleting
    ensures Quietly(lists, at, s, done, t) && t.ns == s.ns && t.memo == s.memo && t.failed == s.failed
    ensures t.c.objs == s.c.objs && t.c.nodes == s.c.nodes && t.c.openShift == s.c.openShift
    ensures t.c.crs == s.c.crs[x := s.c.crs[x].(finalizers := s.c.crs[x].finalizers + {FINALIZER})]
    ensures t.todo == [FindHelmSecrets(Stored(t.c, x))]
  {
    hide Quietly;
    var cfg := Stored(s.c, x);
    var atB, b := RunGet(lists, at, s, x);
    if FINALIZER in cfg.cr.finalizers {
      done, t := atB, b;
      assert cfg.cr.finalizers + {FINALIZER} == cfg.cr.finalizers;
      assert s.c.crs[x := s.c.crs[x]] == s.c.crs;
    } else {
      done, t := RunSaveFinalizer(lists, atB, b, cfg);
      QuietlyTrans(lists, at, s, atB, b, done, t);
    }
  }

  /**
   * While a release of Helm's is stored, an undisturbed run publishes the conflict, as not available, and writes
   * nothing else; it returns no error. A spec whose profile does not resolve is published as such, as not available,
   * and the run returns an error.
   */
  lemma RefusedRun(lists: Order, at: nat, s: Sys, x: string) returns (done: nat, t: Sys)
    requires s.todo == [] && x in s.c.crs && !s.c.crs[x].deleting
    requires HelmInstalled(s.c) || !Resolvable(s.c.crs[x].spec)
    ensures Quietly(lists, at, Act(s, Request(x)), done, t) && t.todo == [] && t.ns == s.ns && t.memo == s.memo
    ensures t.c.objs == s.c.objs && t.c.nodes == s.c.nodes && t.c.openShift == s.c.openShift
    ensures t.failed <==> !HelmInstalled(s.c)
    ensures t.c.crs
      == s.c.crs[x := Refused(s.c.crs[x], if HelmInstalled(s.c) then HelmConflict else InvalidProfile)]
  {
    hide Quietly, Perform, HelmInstalled, AfterHelm, Resolvable;
    var start := Act(s, Request(x));
    var atB, b := RunToCheck(lists, at, start, x);
    var cfg := Stored(b.c, x);
    SameInstalled(s.c, b.c);
    var atU, u := RunCheck(lists, atB, b, cfg);
    Refusals(cfg, s.ns, s.memo);
    var reason := if HelmInstalled(s.c) then HelmConflict else InvalidProfile;
    done, t := CommitWorks(lists, atU, u, cfg, cfg.cr.status.(condition := Some(Condition(false, reason))));
    QuietlyTrans(lists, at, start, atB, b, atU, u);
    QuietlyTrans(lists, at, start, atU, u, done, t);
  }

  lemma SameInstalled(c: Store, d: Store)
    requires c.objs == d.objs
    ensures HelmInstalled(c) <==> HelmInstalled(d)
  {
  }

  lemma NothingToDo(lists: Order, at: nat, s: Sys, x: string) returns (done: nat, t: Sys)
    requires s.todo == [] && x !in s.c.crs
    ensures Quietly(lists, at, Act(s, Request(x)), done, t) && t.todo == [] && !t.failed && t.c == s.c
  {
    var start := Act(s, Request(x));
    done, t := at + 1, Perform(start, Working(lists, at));
    QuietlyOne(lists, at, start);
  }

  /** The contents every undisturbed run leaves. */
  ghost function RunResult(c: Store, ns: string, x: string, openShift: bool): Contents
    requires "" !in c.crs
  {
    if x !in c.crs then ContentsOf(c)
    else if c.crs[x].deleting then Deleted(c, ns, x, openShift)
    else if HelmInstalled(c) then ContentsOf(c.(crs := c.crs[x := Refused(c.crs[x], HelmConflict)]))
    else if !Resolvable(c.crs[x].spec) then ContentsOf(c.(crs := c.crs[x := Refused(c.crs[x], InvalidProfile)]))
    else (ProfileResolves(c.crs[x].spec); Goal(c, ns, x))
  }

  /**
   * What every undisturbed run comes to, in whatever order the server lists things: nothing if the custom resource is
   * gone, its cleanup if it is being deleted, a refusal for Helm's sake or for its profile's, and else its goal. It
   * returns an error exactly in the case of the profile.
   */
  lemma EveryRun(lists: Order, at: nat, s: Sys, x: string) returns (done: nat, t: Sys)
    requires s.todo == [] && "" !in s.c.crs && Neat(s.c, s.ns) && MemoHonest(s)
    ensures Quietly(lists, at, Act(s, Request(x)), done, t) && t.todo == []
    ensures ContentsOf(t.c) == RunResult(s.c, s.ns, x, s.c.openShift)
    ensures t.failed <==>
      x in s.c.crs && !s.c.crs[x].deleting && !HelmInstalled(s.c) && !Resolvable(s.c.crs[x].spec)
  {
    hide Quietly, Act, HelmInstalled, Neat, Goal, Deleted, ResolveProfile, HelmStored;
    if x !in s.c.crs {
      done, t := NothingToDo(lists, at, s, x);
    } else if s.c.crs[x].deleting {
      done, t := CleanupReachesDeleted(lists, at, s, x);
    } else if HelmInstalled(s.c) || !Resolvable(s.c.crs[x].spec) {
      done, t := RefusedRun(lists, at, s, x);
    } else {
      ProfileResolves(s.c.crs[x].spec);
      HelmStoredIffInstalled(s.c);
      done, t := RunReachesGoal(lists, at, s, x);
    }
  }

  // ---------------------------------------------------------------- what a run returns

  /** The last call of a run: the API server accepted the write it made. */
  predicate CommitAccepted(s: Sys, a: Answer) {
    s.todo != [] && a.fault == NoFault && match s.todo[0]
      case SaveStatus(cfg, status) => cfg.name in s.c.crs && Rv(s.c.crRv, cfg.name) == cfg.rv
      case DropFinalizer(cfg) => cfg.name in s.c.crs && Rv(s.c.crRv, cfg.name) == cfg.rv
      case _ => false
  }

  /**
   * What a run returns, whatever its calls are answered. A run that ends before its last operation returns an error. At
   * its last one it returns an error exactly if that is a first read that fails (a custom resource that is not there is
   * no failure), the finalizer cannot be added, a status to report success or the release of the finalizer is not
   * accepted, or the profile does not resolve; reporting a conflict is never an error, accepted or not.
   */
  lemma ErrorIff(s: Sys, a: Answer)
    requires s.todo != [] && !s.failed && Perform(s, a).todo == []
    requires |s.todo| == 1 ==>
      var op := s.todo[0];
      op.Begin? || op.SaveFinalizer? || op.DropFinalizer? || (op.SaveStatus? && op.status.condition.Some?)
    ensures |s.todo| > 1 ==>
      Perform(s, a).failed || s.todo[0].SaveStatus? || s.todo[0].DropFinalizer? || s.todo[0].Begin?
    ensures |s.todo| == 1 ==> (Perform(s, a).failed <==>
      match s.todo[0]
      case Begin(_) => a.fault != NoFault
      case SaveFinalizer(_) => true
      case DropFinalizer(_) => !CommitAccepted(s, a)
      case SaveStatus(_, status) =>
        match status.condition.value.reason {
          case HelmConflict => false
          case InvalidProfile => true
          case Reconciled => !CommitAccepted(s, a)
        }
      case _ => true)
  {
  }

  predicate Applies(op: Op) {
    op.Fetch? || op.Create? || op.Replace? || op.ListSelected? || op.LabelNode? || op.ListPool? || op.CountNodes?
  }

  /** The API server takes the next call of a run that applies; a write needs the version the run has seen. */
  predicate Taken(s: Sys, a: Answer) {
    s.todo != [] && a.fault == NoFault && match s.todo[0]
      case Create(_, m) => m.key !in s.c.objs
      case Replace(_, m, rv) =>
        && m.key in s.c.objs && Rv(s.c.objRv, m.key) == rv
        && FrozenPart(m.key, s.c.objs[m.key]) == FrozenPart(m.key, m.obj)
      case LabelNode(seen, _) => seen.name in s.c.nodes && Rv(s.c.nodeRv, seen.name) == seen.rv
      case _ => true
  }

  /**
   * A run that applies passes over no failure: it goes on with what is left if the call is taken, and else stops there
   * with an error. The questions whose failure counts as no, about Helm and about OpenShift, are the exceptions.
   */
  lemma AppliesOrStops(s: Sys, a: Answer)
    requires s.todo != [] && Applies(s.todo[0])
    ensures Taken(s, a) ==> Perform(s, a).failed == s.failed && exists ops :: Perform(s, a).todo == ops + s.todo[1..]
    ensures !Taken(s, a) ==> Perform(s, a).failed && Perform(s, a).todo == []
  {
    hide FrozenPart, Relabel, LabelOps, PoolManifests, FinalStatus, ListNodes, NodeListOption, PoolLabels, Desired;
    if Taken(s, a) { GoesOn(s, a); }
  }

  lemma GoesOn(s: Sys, a: Answer)
    requires Taken(s, a) && Applies(s.todo[0])
    ensures exists ops :: Perform(s, a).todo == ops + s.todo[1..]
  {
    hide FrozenPart, Relabel, LabelOps, PoolManifests, FinalStatus, ListNodes, NodeListOption, PoolLabels, Desired,
      StoreObject, StoreNode;
    assert forall ops :: Continue(s, ops).todo == ops + s.todo[1..];
  }

  // ---------------------------------------------------------------- a cleanup that is cut short

  /**
   * A cleanup whose list of nodes fails stops there with an error. What its label queries found is gone by then; what
   * is removed by name, the labels of all nodes and the custom resource with its finalizer are as they were.
   */
  lemma CleanupCutShort(lists: Order, at: nat, s: Sys, x: string, a: Answer) returns (done: nat, u: Sys)
    requires s.todo == [] && Deletable(s.c, x) && a.fault != NoFault
    ensures Quietly(lists, at, Act(s, Request(x)), done, u)
    ensures var t := Act(u, Call(a));
      && t.todo == [] && t.failed && t.c.nodes == s.c.nodes && t.c.crs == s.c.crs
      && t.c.objs == map k | k in s.c.objs && !Swept(s.ns, x, k, s.c.objs[k]) :: s.c.objs[k]
  {
    hide Quietly, Sweeps, Unswept, SweepQueries, ClusterCleanup, Swept;
    var cfg, start := Stored(s.c, x), Act(s, Request(x));
    var atB, b := RunGet(lists, at, start, x);
    var rest := [ListPooled(cfg)] + ClusterCleanup(cfg, s.memo) + [DropFinalizer(cfg)];
    assert b.todo == SweepOps(cfg, SweepQueries(x)) + rest by { SweepsAreQueries(cfg); SweptFirst(cfg, s.memo); }
    done, u := RunSweeps(lists, atB, b, cfg, SweepQueries(x), rest);
    QuietlyTrans(lists, at, start, atB, b, done, u);
    UnsweptIsNotSwept(s.c.objs, s.ns, x);
    assert u.todo[0] == ListPooled(cfg);
  }

  lemma SweptFirst(cfg: Config, memo: Option<bool>)
    requires cfg.cr.deleting
    ensures Route(cfg, memo) == Sweeps(cfg) + ([ListPooled(cfg)] + ClusterCleanup(cfg, memo) + [DropFinalizer(cfg)])
  {
    hide Sweeps, ClusterCleanup;
  }

  lemma UnsweptIsNotSwept(objs: map<Key, Object>, ns: string, x: string)
    ensures Unswept(objs, ns, SweepQueries(x)) == map k | k in objs && !Swept(ns, x, k, objs[k]) :: objs[k]
  {
    hide Swept, Hit, SweepQueries;
    forall k | k in objs
      ensures Swept(ns, x, k, objs[k]) <==> exists q | q in SweepQueries(x) :: Hit(q, ns, k, objs[k]) {
      SweptMeansHit(ns, x, k, objs[k]);
    }
  }
}
