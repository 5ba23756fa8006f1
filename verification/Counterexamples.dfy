/**
 * Histories that show why the hypotheses of other theorems are there: a forgotten and unanswered question about
 * OpenShift, and a failing list that hides a Helm release.
 */
module Counterexamples {
  import opened Basics
  import opened Api
  import opened Resources
  import opened Naming
  import opened Cluster
  import opened Protocol
  import opened Safety
  import opened Erasure
  import opened Honesty
  import opened Authorship
  import opened Helm
  import opened Convergence
  import opened Recovery
  import opened Deletion

  // ---------------------------------------------------------------- composing histories

  lemma Then(s: Sys, g: seq<Action>, t: Sys, h: seq<Action>, u: Sys)
    requires Replay(s, g) == t && Replay(t, h) == u
    ensures Replay(s, g + h) == u
  {
    hide Replay;
    ReplayConcat(s, g, h);
  }

  lemma One(s: Sys, a: Action)
    ensures Replay(s, [a]) == Act(s, a)
  {
    hide Act;
    assert [a][1..] == [];
  }

  lemma Quieted(lists: Order, at: nat, s: Sys, done: nat, t: Sys)
    requires Quietly(lists, at, s, done, t)
    ensures at <= done && Replay(s, QuietCalls(lists, at, done - at)) == t
  {
    hide Act;
    DrainIsReplay(lists, at, s, done - at);
  }

  // ---------------------------------------------------------------- the question about OpenShift

  lemma UnansweredQuestion(s: Sys, cfg: Config, a: Answer, rest: seq<Op>)
    requires s.todo == [ProbeForRemoval(cfg)] + rest && a.fault != NoFault
    ensures Act(s, Call(a)) == s.(memo := Some(false), todo := Removes(cfg, ClusterKeys(cfg.name, false)) + rest)
  {
    hide ClusterKeys, Removes;
    assert s.todo[1..] == rest;
  }

  /** The part of a cleanup that goes by name, when OpenShift is taken to be absent. */
  lemma RunByName(lists: Order, at: nat, s: Sys, cfg: Config) returns (done: nat, t: Sys)
    requires s.todo == Removes(cfg, ClusterKeys(cfg.name, false)) + [DropFinalizer(cfg)]
    requires Deletable(s.c, cfg.name) && cfg == Stored(s.c, cfg.name)
    ensures Quietly(lists, at, s, done, t) && t.todo == [] && !t.failed && t.ns == s.ns && t.memo == s.memo
    ensures t.c.nodes == s.c.nodes && t.c.crs == Released(s.c.crs, cfg.name) && t.c.openShift == s.c.openShift
    ensures t.c.objs == map k | k in s.c.objs && k !in ClusterKeys(cfg.name, false) :: s.c.objs[k]
  {
    hide Quietly, ClusterKeys, Released;
    var atU, u := RunRemoves(lists, at, s, cfg, ClusterKeys(cfg.name, false), [DropFinalizer(cfg)]);
    done, t := RunDropFinalizer(lists, atU, u, cfg);
    QuietlyTrans(lists, at, s, atU, u, done, t);
  }

  /**
   * A process that remembers no answer about OpenShift and gets none cleans up as if there were none; so the cleanup is
   * complete if and only if no SCC object was stored, although it returns no error.
   */
  lemma CleanupAfterFailedQuestion(lists: Order, s: Sys, x: string, a: Answer) returns (h: seq<Action>)
    requires s.todo == [] && s.memo == None && Deletable(s.c, x) && a.fault != NoFault
    ensures var t := Replay(s, h);
      && t.todo == [] && !t.failed && t.ns == s.ns && t.memo == Some(false) && t.c.openShift == s.c.openShift
      && ContentsOf(t.c) == Deleted(s.c, s.ns, x, false)
      && (Tidy(s.c, s.ns) ==>
            ((forall k | k in t.c.objs && Reserved(s.ns, k) :: !Claimed(t.c.objs[k], x))
             <==> RoleKey(x, Scc) !in s.c.objs && BindingKey(x, Scc) !in s.c.objs))
  {
    hide Quietly, Perform, Act, ClusterKeys, Released, Unlabelled, Unswept, Spared, Sweeps, QuietCalls, Tidy,
      Reserved, Claimed,
      RoleKey, BindingKey, Replay;
    var cfg, last := Stored(s.c, x), [DropFinalizer(Stored(s.c, x))];
    var start := Act(s, Request(x));
    Requested(s, x);
    var atB, b := RunGet(lists, 0, start, x);
    ProgramParts(cfg);
    var atV, v := RunByLabels(lists, atB, b, cfg, [ProbeForRemoval(cfg)] + last);
    QuietlyTrans(lists, 0, start, atB, b, atV, v);
    UnansweredQuestion(v, cfg, a, last);
    var w := Act(v, Call(a));
    var done, t := RunByName(lists, atV, w, cfg);
    SparedInTwo(s.c.objs, s.ns, x, false);
    One(s, Request(x));
    Quieted(lists, 0, start, atV, v);
    Then(s, [Request(x)], start, QuietCalls(lists, 0, atV), v);
    One(v, Call(a));
    Then(s, [Request(x)] + QuietCalls(lists, 0, atV), v, [Call(a)], w);
    Quieted(lists, atV, w, done, t);
    h := [Request(x)] + QuietCalls(lists, 0, atV) + [Call(a)] + QuietCalls(lists, atV, done - atV);
    Then(s, [Request(x)] + QuietCalls(lists, 0, atV) + [Call(a)], w, QuietCalls(lists, atV, done - atV), t);
    if Tidy(s.c, s.ns) { CompleteIff(s.c, s.ns, x, false); }
  }

  lemma Requested(s: Sys, x: string)
    requires s.todo == []
    ensures Act(s, Request(x)) == s.(todo := [Begin(x)], failed := false)
  {
  }

  lemma ProgramParts(cfg: Config)
    requires cfg.cr.deleting
    ensures Route(cfg, None) == Sweeps(cfg) + ([ListPooled(cfg)] + ([ProbeForRemoval(cfg)] + [DropFinalizer(cfg)]))
  {
    hide Sweeps;
  }

  lemma PristineIsNeat(s: Sys)
    requires Pristine(s)
    ensures Neat(s.c, s.ns) && NeatInv(s) && MemoHonest(s)
  {
  }

  lemma Created(s: Sys, x: string, spec: Spec, finalizers: set<string>)
    requires x !in s.c.crs && x != ""
    ensures var t := Act(s, Elsewhere(CreateCR(x, spec, finalizers)));
      && t.ns == s.ns && t.todo == s.todo && t.memo == s.memo && t.c.objs == s.c.objs && t.c.openShift == s.c.openShift
      && t.c.nodes == s.c.nodes
      && t.c.crs == s.c.crs[x := FakeGPUConfig(spec, EMPTY_STATUS, finalizers, false)]
      && s.c.rev + 1 in t.c.past
        && t.c.past[s.c.rev + 1] == Version(x, FakeGPUConfig(spec, EMPTY_STATUS, finalizers, false))
  {
  }

  lemma MarkedDeleting(s: Sys, x: string)
    requires x in s.c.crs && s.c.crs[x].finalizers != {}
    ensures var t := Act(s, Elsewhere(DeleteCR(x)));
      && t.ns == s.ns && t.todo == s.todo && t.memo == s.memo && t.c.objs == s.c.objs && t.c.openShift == s.c.openShift
      && x in t.c.crs && t.c.crs[x] == s.c.crs[x].(deleting := true)
  {
  }

  lemma Restarted(s: Sys)
    ensures var t := Act(s, Restart); t.c == s.c && t.ns == s.ns && t.memo == None && t.todo == []
  {
  }

  lemma SccPlanned(x: string, spec: Spec, p: GPUProfile, ns: string, k: Key)
    requires SccKey(x, k)
    ensures Writing(Plan(x, spec, p, ns, true), k)
  {
    hide RbacManifests, WorkloadManifests;
    var plan, at := Plan(x, spec, p, ns, true), |RbacManifests(x, ns)|;
    assert plan[at] == SccManifests(x, ns)[0] && plan[at + 1] == SccManifests(x, ns)[1];
  }

  lemma PlanReached(c: Store, ns: string, x: string, k: Key)
    requires Applicable(c, x) && Writing(PlanOf(c, ns, x), k)
    ensures k in Goal(c, ns, x).objs
  {
    hide Plan, PutAll, Labelled, GoalStatus, ResolveProfile, Topologies, PoolNames;
    var topologies :=
      Topologies(Arrange([], PoolNames(Labelled(c.nodes, x, c.crs[x].spec), x)), c.crs[x].spec, ProfileOf(c, x), ns);
    WritingConcat(PlanOf(c, ns, x), topologies, k);
    PutAllWrites(c.objs, PlanOf(c, ns, x) + topologies, k);
  }

  lemma SccSurvives(c: Store, ns: string, x: string, k: Key)
    requires Deletable(c, x) && SccKey(x, k) && k in c.objs
    ensures k in Deleted(c, ns, x, false).objs
  {
    SccOnlyWhenOpenShift(x, k);
  }

  lemma ReleasedGone(c: Store, ns: string, x: string, b: bool)
    requires Deletable(c, x) && c.crs[x].finalizers == {FINALIZER}
    ensures x !in Deleted(c, ns, x, b).crs
  {
    hide Spared, Unlabelled;
    assert {FINALIZER} - {FINALIZER} == {};
  }

  lemma SccReached(s: Sys, x: string, k: Key, t: Sys)
    requires Applicable(s.c, x) && s.c.openShift && SccKey(x, k) && ContentsOf(t.c) == Goal(s.c, s.ns, x)
    ensures k in t.c.objs
  {
    hide Goal, Plan, ResolveProfile;
    SccPlanned(x, s.c.crs[x].spec, ProfileOf(s.c, x), s.ns, k);
    PlanReached(s.c, s.ns, x, k);
  }

  lemma HeldByFinalizer(s: Sys, x: string, t: Sys)
    requires Applicable(s.c, x) && ContentsOf(t.c) == Goal(s.c, s.ns, x) && s.c.crs[x].finalizers <= {FINALIZER}
    ensures x in t.c.crs && t.c.crs[x].finalizers == {FINALIZER}
  {
    hide Plan, ResolveProfile, Writes, Labelled, PutAll, GoalStatus;
  }

  /**
   * From an untouched OpenShift cluster to two SCC objects nobody will ever remove: a custom resource is created and
   * applied, then deleted; the process restarts and with it forgets its answer about OpenShift; the cleanup's question
   * fails. The cleanup reports no error, the custom resource is gone, the SCC role and binding stay.
   */
  lemma ForgottenAnswerLeavesScc(lists: Order, s: Sys, x: string, spec: Spec, a: Answer) returns (h: seq<Action>)
    requires Pristine(s) && s.c.openShift && !HelmStored(s.c) && x !in s.c.crs && x != "" && ResolveProfile(spec).Some?
    requires a.fault != NoFault
    ensures var t := Replay(s, h);
      t.todo == [] && !t.failed && x !in t.c.crs && RoleKey(x, Scc) in t.c.objs && BindingKey(x, Scc) in t.c.objs
  {
    hide Perform, Act, Replay, Goal, Deleted, Neat, ResolveProfile, HelmStored, Quietly, RoleKey, BindingKey, SccKey,
      Pristine;
    PristineIsNeat(s);
    PristineIdle(s);
    var create := Elsewhere(CreateCR(x, spec, {}));
    var s1 := Act(s, create);
    Created(s, x, spec, {});
    assert Neat(s1.c, s1.ns) by { SameNeat(s, s1); }
    assert NoHelm(s1.c) by { SameNoHelm(s.c, s1.c); }
    var done, t := RunReachesGoal(lists, 0, s1, x);
    assert SccKey(x, RoleKey(x, Scc)) && SccKey(x, BindingKey(x, Scc)) by { SccKeysAre(x); }
    SccReached(s1, x, RoleKey(x, Scc), t);
    SccReached(s1, x, BindingKey(x, Scc), t);
    HeldByFinalizer(s1, x, t);
    var s2 := Act(t, Elsewhere(DeleteCR(x)));
    MarkedDeleting(t, x);
    var s3 := Act(s2, Restart);
    Restarted(s2);
    var g := CleanupAfterFailedQuestion(lists, s3, x, a);
    SccSurvives(s3.c, s3.ns, x, RoleKey(x, Scc));
    SccSurvives(s3.c, s3.ns, x, BindingKey(x, Scc));
    ReleasedGone(s3.c, s3.ns, x, false);
    One(s, create);
    RunIsHistory(lists, 0, s1, x, done, t);
    Then(s, [create], s1, RunHistory(lists, 0, x, done), t);
    One(t, Elsewhere(DeleteCR(x)));
    Then(s, [create] + RunHistory(lists, 0, x, done), t, [Elsewhere(DeleteCR(x))], s2);
    One(s2, Restart);
    Then(s, [create] + RunHistory(lists, 0, x, done) + [Elsewhere(DeleteCR(x))], s2, [Restart], s3);
    h := [create] + RunHistory(lists, 0, x, done) + [Elsewhere(DeleteCR(x))] + [Restart] + g;
    Then(s, [create] + RunHistory(lists, 0, x, done) + [Elsewhere(DeleteCR(x))] + [Restart], s3, g, Replay(s3, g));
  }

  lemma SccKeysAre(x: string)
    ensures SccKey(x, RoleKey(x, Scc)) && SccKey(x, BindingKey(x, Scc))
  {
  }

  lemma PristineIdle(s: Sys)
    requires Pristine(s)
    ensures s.todo == [] && s.memo == None
  {
  }

  lemma SameNeat(s: Sys, t: Sys)
    requires Neat(s.c, s.ns) && t.c.objs == s.c.objs && t.ns == s.ns
    ensures Neat(t.c, t.ns)
  {
  }

  lemma SameNoHelm(c: Store, d: Store)
    requires !HelmStored(c) && d.objs == c.objs
    ensures NoHelm(d)
  {
  }

  // ---------------------------------------------------------------- a failing list hides a release

  lemma CheckFails(s: Sys, cfg: Config, a: Answer)
    requires s.todo == [FindHelmSecrets(cfg)] && a.fault != NoFault && ResolveProfile(cfg.cr.spec).Some?
    ensures Act(s, Call(a)) == s.(todo := ApplyProgram(cfg, ResolveProfile(cfg.cr.spec).value, s.ns, s.memo))
  {
    hide ApplyProgram, ResolveProfile;
    var p := ApplyProgram(cfg, ResolveProfile(cfg.cr.spec).value, s.ns, s.memo);
    assert s.todo[1..] == [] && p + [] == p;
  }

  /** A run for `x` has gone all the way from `s` to `t`, and its own service account is stored. */
  predicate Applied(s: Sys, x: string, t: Sys) {
    && t.todo == [] && !t.failed && Applicable(s.c, x) && ContentsOf(t.c) == Goal(s.c, s.ns, x)
    && AccountKey(x, DevicePlugin, s.ns) in t.c.objs
  }

  /**
   * With a Helm release stored, one failing list of secrets is enough: the run that follows goes all the way to its
   * goal, and has written its own service account into the cluster Helm manages.
   */
  lemma ReleaseOverlooked(lists: Order, s: Sys, x: string, a: Answer) returns (h: seq<Action>)
    requires s.todo == [] && Applicable(s.c, x) && FINALIZER in s.c.crs[x].finalizers && Neat(s.c, s.ns)
      && MemoHonest(s)
    requires HelmStored(s.c) && a.fault != NoFault
    ensures Applied(s, x, Replay(s, h))
  {
    hide Perform, Act, Replay, Goal, Neat, ResolveProfile, HelmStored, Quietly, ApplyProgram, AccountKey;
    var start, cfg := Act(s, Request(x)), Stored(s.c, x);
    Requested(s, x);
    var atB, b := RunGet(lists, 0, start, x);
    var w := Act(b, Call(a));
    CheckFails(b, cfg, a);
    assert Neat(w.c, w.ns) by { SameNeat(s, w); }
    var done, t := RunApply(lists, atB, w, cfg);
    AccountReached(s, x, t);
    One(s, Request(x));
    Quieted(lists, 0, start, atB, b);
    Then(s, [Request(x)], start, QuietCalls(lists, 0, atB), b);
    One(b, Call(a));
    Then(s, [Request(x)] + QuietCalls(lists, 0, atB), b, [Call(a)], w);
    Quieted(lists, atB, w, done, t);
    h := [Request(x)] + QuietCalls(lists, 0, atB) + [Call(a)] + QuietCalls(lists, atB, done - atB);
    Then(s, [Request(x)] + QuietCalls(lists, 0, atB) + [Call(a)], w, QuietCalls(lists, atB, done - atB), t);
  }

  lemma AccountPlanned(x: string, spec: Spec, p: GPUProfile, ns: string, os: bool)
    ensures Writing(Plan(x, spec, p, ns, os), AccountKey(x, DevicePlugin, ns))
  {
    hide WorkloadManifests, SccManifests, AccountKey, CommonLabels;
    assert Plan(x, spec, p, ns, os)[0] == AccountManifest(x, DevicePlugin, ns);
  }

  lemma AccountReached(s: Sys, x: string, t: Sys)
    requires Applicable(s.c, x) && ContentsOf(t.c) == Goal(s.c, s.ns, x)
    ensures AccountKey(x, DevicePlugin, s.ns) in t.c.objs
  {
    hide Goal, Plan, ResolveProfile, AccountKey;
    AccountPlanned(x, s.c.crs[x].spec, ProfileOf(s.c, x), s.ns, s.c.openShift);
    PlanReached(s.c, s.ns, x, AccountKey(x, DevicePlugin, s.ns));
  }
}
