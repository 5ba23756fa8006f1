/**
 * What a stale first read can do: exactly when it lets a run write objects of a custom resource nobody holds, and
 * histories from an untouched cluster that leave an orphan or take away what is in use.
 */
module StaleReads {
  import opened Basics
  import opened Api
  import opened Resources
  import opened Naming
  import opened Cluster
  import opened Protocol
  import opened Safety
  import opened Erasure
  import opened Honesty
  import opened Authorship
  import opened Helm
  import opened Convergence
  import opened Recovery
  import opened Outcome
  import opened Deletion
  import opened Footprint
  import opened Integrity
  import opened Counterexamples

  // ---------------------------------------------------------------- a read that sets up what nobody holds

  /** An object that carries the instance label of a custom resource nobody holds. */
  ghost predicate Orphan(s: Sys, k: Key, x: string) {
    k in s.c.objs && AppInstance in s.c.objs[k].labels && s.c.objs[k].labels[AppInstance] == x && !Held(s.c, x)
  }

  lemma AccountLabelled(c: Store, ns: string, x: string)
    requires Neat(c, ns) && AccountKey(x, DevicePlugin, ns) in c.objs
    ensures var o := c.objs[AccountKey(x, DevicePlugin, ns)]; AppInstance in o.labels && o.labels[AppInstance] == x
  {
    var k := AccountKey(x, DevicePlugin, ns);
    assert Placed(ns, k, x, DevicePlugin) && Reserved(ns, k);
    var y, c' :| AuthoredFor(ns, true, k, c.objs[k], y, c');
    PlacedUnique(ns, k, x, DevicePlugin, y, c');
  }

  /** A run that gets as far as applying for a custom resource nobody holds writes an orphan if its calls work. */
  lemma ApplyingOrphans(lists: Order, at: nat, s: Sys, cfg: Config) returns (done: nat, t: Sys)
    requires ResolveProfile(cfg.cr.spec).Some? && !Held(s.c, cfg.name) && Neat(s.c, s.ns) && MemoHonest(s)
    requires s.todo == ApplyProgram(cfg, ResolveProfile(cfg.cr.spec).value, s.ns, s.memo)
    ensures Quietly(lists, at, s, done, t) && Orphan(t, AccountKey(cfg.name, DevicePlugin, s.ns), cfg.name)
  {
    hide Neat, ResolveProfile, Quietly, ApplyProgram, AccountKey, Plan, PutAll;
    var p := ResolveProfile(cfg.cr.spec).value;
    done, t := RunPlan(lists, at, s, cfg, p);
    AccountPlanned(cfg.name, cfg.cr.spec, p, s.ns, s.c.openShift);
    PutAllWrites(s.c.objs, Plan(cfg.name, cfg.cr.spec, p, s.ns, s.c.openShift),
      AccountKey(cfg.name, DevicePlugin, s.ns));
    AccountLabelled(t.c, s.ns, cfg.name);
  }

  /**
   * A read that is not harmless needs no further fault: if no Helm release is stored and the process is not mistaken
   * about OpenShift, the calls that follow need only work for the run to write an orphan.
   */
  lemma HarmfulReadOrphans(lists: Order, s: Sys, x: string, a: Answer) returns (h: seq<Action>)
    requires s.todo == [Begin(x)] && Neat(s.c, s.ns) && MemoHonest(s) && NoHelm(s.c) && !HarmlessRead(s, a)
    ensures Orphan(Replay(s, [Call(a)] + h), AccountKey(x, DevicePlugin, s.ns), x)
  {
    hide Perform, Act, Replay, Neat, ResolveProfile, Quietly, ApplyProgram, AccountKey, GetCR, Orphan;
    var cfg, b := GetCR(s.c, x, a).0.value, Act(s, Call(a));
    FoundName(s.c, x, a);
    FoundRoute(s, x, a);
    var atU, u := RunChecked(lists, 0, b, cfg);
    var atV, v := RunHelmTopology(lists, atU, u, cfg);
    QuietlyTrans(lists, 0, b, atU, u, atV, v);
    assert Neat(v.c, v.ns) by { SameNeat(s, v); }
    var done, t := ApplyingOrphans(lists, atV, v, cfg);
    QuietlyTrans(lists, 0, b, atV, v, done, t);
    Quieted(lists, 0, b, done, t);
    h := QuietCalls(lists, 0, done);
    One(s, Call(a));
    Then(s, [Call(a)], b, h, t);
  }

  // Calls that work are fair, as long as no label query hits an object of somebody else.

  ghost predicate OwnQuery(s: Sys, op: Op) {
    op.Sweep? ==> forall k | k in s.c.objs && k.kind == op.kind && k.ns == s.ns
      && Matches(op.selector, s.c.objs[k].labels) :: Reserved(s.ns, k)
  }

  /** What is left is either applying or a cleanup whose queries find only the operator's own objects. */
  ghost predicate Tame(s: Sys) {
    || (forall op | op in s.todo :: !op.Begin? && !op.Sweep?)
    || (forall op | op in s.todo :: Cleanup(op) && OwnQuery(s, op))
  }

  /** Only the first call of a run plans label queries, and a cleanup plans nothing but cleaning up. */
  lemma PlansNoSweep(s: Sys, a: Answer, later: Op)
    requires s.todo != [] && !s.todo[0].Begin? && later in Perform(s, a).todo
    ensures later in s.todo || (!later.Begin? && !later.Sweep? && (Cleanup(s.todo[0]) ==> Cleanup(later)))
  {
    hide Perform;
    if Reads(s.todo[0]) { ReadPlansNoSweep(s, a, later); }
    else if s.todo[0].Create? || s.todo[0].Replace? { WriteEffect(s, a); }
    else if s.todo[0].Remove? { RemoveRest(s, a); }
    else if OnNode(s.todo[0]) { NodeWriteEffect(s, a); }
    else { var cr := CrWriteShape(s, a); CrWriteMemo(s, a); }
  }

  lemma ReadPlansNoSweep(s: Sys, a: Answer, later: Op)
    requires s.todo != [] && !s.todo[0].Begin? && Reads(s.todo[0]) && later in Perform(s, a).todo
    ensures later in s.todo || (!later.Begin? && !later.Sweep? && (Cleanup(s.todo[0]) ==> Cleanup(later)))
  {
    hide Perform;
    var op := s.todo[0];
    if op.FindHelmSecrets? || op.FindHelmTopology? { HelmPlansNoSweep(s, a, later); }
    else if op.ListSelected? || op.ListPool? || op.CountNodes? || op.ListPooled? { ListPlansNoSweep(s, a, later); }
    else { OtherPlansNoSweep(s, a, later); }
  }

  lemma HelmPlansNoSweep(s: Sys, a: Answer, later: Op)
    requires s.todo != [] && (s.todo[0].FindHelmSecrets? || s.todo[0].FindHelmTopology?)
    requires later in Perform(s, a).todo
    ensures later in s.todo || (!later.Begin? && !later.Sweep?)
  {
    hide AfterHelm, HelmSecretStored, HelmTopologyStored;
    AfterHelmApplies(s.todo[0].cfg, s.ns, s.memo);
  }

  lemma ListPlansNoSweep(s: Sys, a: Answer, later: Op)
    requires s.todo != [] && later in Perform(s, a).todo
    requires var op := s.todo[0]; op.ListSelected? || op.ListPool? || op.CountNodes? || op.ListPooled?
    ensures later in s.todo || (!later.Begin? && !later.Sweep? && (Cleanup(s.todo[0]) ==> Cleanup(later)))
  {
    hide ListNodes, LabelOps, PoolManifests, NodeListOption, PoolLabels, FinalStatus, Desired;
    var cfg := s.todo[0].cfg;
    LabelOpsFacts(ListNodes(s.c, NodeListOption(cfg.name, cfg.cr.spec), a.order), cfg);
  }

  lemma OtherPlansNoSweep(s: Sys, a: Answer, later: Op)
    requires s.todo != [] && later in Perform(s, a).todo
    requires var op := s.todo[0]; op.Probe? || op.Fetch? || op.Sweep? || op.ProbeForRemoval?
    ensures later in s.todo || (!later.Begin? && !later.Sweep? && (Cleanup(s.todo[0]) ==> Cleanup(later)))
  {
    hide SccManifests, ClusterKeys, Keys, Arrange, ObjectNames;
  }

  lemma CleanupShrinks(s: Sys, a: Answer)
    requires s.todo != [] && Cleanup(s.todo[0])
    ensures var t := Perform(s, a);
      t.ns == s.ns && forall k | k in t.c.objs :: k in s.c.objs && t.c.objs[k] == s.c.objs[k]
  {
    hide Perform;
    NamespaceFixed(s, [Call(a)]);
    assert Replay(s, [Call(a)]) == Perform(s, a);
    if Reads(s.todo[0]) { ReadsOnly(s, a); }
    else if s.todo[0].Remove? { RemoveEffect(s, a); }
    else if OnNode(s.todo[0]) { NodeWriteEffect(s, a); }
    else {
      var cr := CrWriteShape(s, a);
      SettleEffect(s.c, s.todo[0].cfg.name, cr);
    }
  }

  lemma TameStays(s: Sys, a: Answer)
    requires Tame(s) && s.todo != []
    ensures Tame(Perform(s, a))
  {
    hide Perform, Reserved;
    var t := Perform(s, a);
    assert s.todo[0] in s.todo && !s.todo[0].Begin?;
    forall op | op in t.todo
      ensures op in s.todo || (!op.Begin? && !op.Sweep? && (Cleanup(s.todo[0]) ==> Cleanup(op)))
    {
      PlansNoSweep(s, a, op);
    }
    if !forall op | op in s.todo :: !op.Begin? && !op.Sweep? {
      assert Cleanup(s.todo[0]) && OwnQuery(s, s.todo[0]);
      CleanupShrinks(s, a);
    }
  }

  lemma {:induction false} QuietFair(lists: Order, at: nat, s: Sys, n: nat)
    requires Tame(s)
    ensures FairHistory(s, QuietCalls(lists, at, n))
    decreases n
  {
    hide Perform;
    if n > 0 {
      var h := QuietCalls(lists, at, n);
      assert h[0] == Call(Working(lists, at)) && h[1..] == QuietCalls(lists, at + 1, n - 1);
      if s.todo != [] {
        assert s.todo[0] in s.todo;
        TameStays(s, Working(lists, at));
      }
      QuietFair(lists, at + 1, Act(s, h[0]), n - 1);
    }
  }

  lemma TidyIsNeat(c: Store, ns: string)
    requires Tidy(c, ns)
    ensures Neat(c, ns)
  {
    forall k | k in c.objs && Authored(ns, c.openShift, k, c.objs[k]) ensures Authored(ns, true, k, c.objs[k]) {
      if !AuthoredNodeTopology(ns, k, c.objs[k]) {
        var x, a :| AuthoredFor(ns, c.openShift, k, c.objs[k], x, a);
        assert AuthoredFor(ns, true, k, c.objs[k], x, a);
      }
    }
  }

  lemma OrphanBreaks(s: Sys, ns: string, x: string)
    requires Orphan(s, AccountKey(x, DevicePlugin, ns), x)
    ensures !NoOrphans(s.c, ns)
  {
    assert Placed(ns, AccountKey(x, DevicePlugin, ns), x, DevicePlugin);
  }

  lemma ApplyingTame(s: Sys, cfg: Config)
    requires ResolveProfile(cfg.cr.spec).Some?
    requires s.todo == ApplyProgram(cfg, ResolveProfile(cfg.cr.spec).value, s.ns, s.memo)
    ensures Tame(s)
  {
    hide ResolveProfile, ApplyProgram;
    AfterHelmApplies(cfg, s.ns, s.memo);
  }

  /** Past a check for Helm whose first list fails, a read that is not harmless leads to an orphan in a fair way. */
  lemma HarmfulReadUnfolds(s: Sys, x: string, a: Answer) returns (h: seq<Action>)
    requires Inv(s) && s.todo == [Begin(x)] && !HarmlessRead(s, a)
    ensures FairHistory(Act(s, Call(a)), h) && !NoOrphans(Replay(s, [Call(a)] + h).c, s.ns)
  {
    hide Perform, Act, Replay, Neat, ResolveProfile, Quietly, ApplyProgram, AccountKey, GetCR, Orphan, NoOrphans,
      QuietCalls;
    var lists, failing := (i: nat) => [], Answer(Refused, None, []);
    var cfg, b := GetCR(s.c, x, a).0.value, Act(s, Call(a));
    FoundName(s.c, x, a);
    FoundRoute(s, x, a);
    var v := Act(b, Call(failing));
    CheckFails(b, cfg, failing);
    assert Neat(v.c, v.ns) by { TidyIsNeat(s.c, s.ns); }
    var done, t := ApplyingOrphans(lists, 0, v, cfg);
    OrphanBreaks(t, s.ns, x);
    Quieted(lists, 0, v, done, t);
    assert Tame(v) by { ApplyingTame(v, cfg); }
    QuietFair(lists, 0, v, done);
    h := [Call(failing)] + QuietCalls(lists, 0, done);
    assert h[0] == Call(failing) && h[1..] == QuietCalls(lists, 0, done);
    One(s, Call(a));
    One(b, Call(failing));
    Then(b, [Call(failing)], v, QuietCalls(lists, 0, done), t);
    Then(s, [Call(a)], b, h, t);
  }

  /**
   * The condition on first reads is exact. From any state of the invariant, a read is harmless if and only if nothing
   * that can fairly follow it leads to an orphan.
   */
  lemma HarmlessReadExact(s: Sys, x: string, a: Answer)
    requires Inv(s) && s.todo == [Begin(x)]
    ensures HarmlessRead(s, a)
      <==> forall h | FairHistory(Act(s, Call(a)), h) :: NoOrphans(Replay(s, [Call(a)] + h).c, s.ns)
  {
    hide Perform, Act, Replay, FairHistory, GetCR, NoOrphans, Tidy, OpsOk, Covered;
    if HarmlessRead(s, a) {
      ActKeepsInv(s, Call(a));
      forall h | FairHistory(Act(s, Call(a)), h) ensures NoOrphans(Replay(s, [Call(a)] + h).c, s.ns) {
        ReplayKeepsInv(Act(s, Call(a)), h);
        One(s, Call(a));
        Then(s, [Call(a)], Act(s, Call(a)), h, Replay(Act(s, Call(a)), h));
        NamespaceFixed(s, [Call(a)] + h);
      }
    } else {
      var h := HarmfulReadUnfolds(s, x, a);
    }
  }

  lemma FoundRoute(s: Sys, x: string, a: Answer)
    requires s.todo == [Begin(x)] && !HarmlessRead(s, a)
    ensures var cfg := GetCR(s.c, x, a).0.value; Act(s, Call(a)) == s.(todo := [FindHelmSecrets(cfg)]) && !Held(s.c, x)
  {
    hide GetCR, Perform, DeleteProgram;
    BeginEffect(s, a);
  }

  // ---------------------------------------------------------------- fair histories

  /** A cleanup for `x` would find only the operator's own objects by their labels. */
  ghost predicate Unclaimed(c: Store, ns: string, x: string) {
    forall k | k in c.objs && Swept(ns, x, k, c.objs[k]) :: Reserved(ns, k)
  }

  lemma DeletedUnclaimed(c: Store, ns: string, x: string, b: bool, d: Store)
    requires Unclaimed(c, ns, x) && Deletable(c, x) && ContentsOf(d) == Deleted(c, ns, x, b)
    ensures Unclaimed(d, ns, x)
  {
    hide Swept, Reserved;
    forall k | k in d.objs ensures k in c.objs && d.objs[k] == c.objs[k] { DeletedShrinks(c, ns, x, b, k); }
  }

  lemma GoalUnclaimed(c: Store, ns: string, x: string, d: Store)
    requires Unclaimed(c, ns, x) && Applicable(c, x) && ContentsOf(d) == Goal(c, ns, x)
    ensures Unclaimed(d, ns, x)
  {
    hide Swept, Placed, Plan, Writes, Labelled, GoalStatus, ResolveProfile, PutAll, NodeKey;
    var spec, p, nodes := c.crs[x].spec, ProfileOf(c, x), Labelled(c.nodes, x, c.crs[x].spec);
    forall k | k in d.objs && !Reserved(ns, k) ensures At(d.objs, k) == At(c.objs, k) {
      WritesOffNodes(c.objs, nodes, x, spec, p, ns, c.openShift, k);
      if Writing(Plan(x, spec, p, ns, c.openShift), k) { PlanKeysPlaced(x, spec, p, ns, c.openShift, k); }
    }
  }

  /** Nobody else removes an object. */
  predicate RemovesNothing(a: Action) { a.Elsewhere? ==> !a.move.RemoveObject? }

  /** `h` is a fair history from `s` to `t` in which nobody else removes an object. */
  ghost predicate Leads(s: Sys, h: seq<Action>, t: Sys) {
    Replay(s, h) == t && FairHistory(s, h) && forall a | a in h :: RemovesNothing(a)
  }

  lemma {:induction false} FairConcat(s: Sys, g: seq<Action>, h: seq<Action>)
    requires FairHistory(s, g) && FairHistory(Replay(s, g), h)
    ensures FairHistory(s, g + h)
    decreases |g|
  {
    hide Act, Fair;
    if g == [] {
      assert g + h == h;
    } else {
      assert (g + h)[0] == g[0] && (g + h)[1..] == g[1..] + h;
      FairConcat(Act(s, g[0]), g[1..], h);
    }
  }

  lemma LeadsOn(s: Sys, g: seq<Action>, t: Sys, h: seq<Action>, u: Sys)
    requires Leads(s, g, t) && Leads(t, h, u)
    ensures Leads(s, g + h, u)
  {
    hide Replay, FairHistory;
    Then(s, g, t, h, u);
    FairConcat(s, g, h);
  }

  lemma LeadsOne(s: Sys, a: Action)
    requires Fair(s, a) && RemovesNothing(a)
    ensures Leads(s, [a], Act(s, a))
  {
    hide Act, Fair;
    One(s, a);
    assert [a][1..] == [] && FairHistory(Act(s, a), []);
  }

  lemma LeadsQuietly(lists: Order, at: nat, s: Sys, done: nat, t: Sys)
    requires Quietly(lists, at, s, done, t) && Tame(s)
    ensures at <= done && Leads(s, QuietCalls(lists, at, done - at), t)
  {
    hide Act;
    Quieted(lists, at, s, done, t);
    QuietFair(lists, at, s, done - at);
  }

  lemma LeadsMeans(s: Sys, h: seq<Action>, t: Sys)
    requires Leads(s, h, t)
    ensures Replay(s, h) == t && FairHistory(s, h) && forall a | a in h :: RemovesNothing(a)
  {
  }

  /** The first call of an undisturbed run is fair, and what it lays out for a stored custom resource is tame. */
  lemma FirstCall(lists: Order, at: nat, s: Sys, x: string)
    requires s.todo == [Begin(x)] && x in s.c.crs && (s.c.crs[x].deleting ==> Unclaimed(s.c, s.ns, x))
    ensures var a := Call(Working(lists, at)); Fair(s, a) && Tame(Act(s, a))
  {
    hide Perform, DeleteProgram;
    var a := Working(lists, at);
    BeginEffect(s, a);
    if s.c.crs[x].deleting { CleanupTame(Perform(s, a), Stored(s.c, x)); }
  }

  lemma CleanupTame(s: Sys, cfg: Config)
    requires s.todo == DeleteProgram(cfg, s.memo) && Unclaimed(s.c, s.ns, cfg.name)
    ensures Tame(s)
  {
    hide ClusterKeys, Reserved, Matches, OwnQuery;
    assert forall op | op in s.todo && op.Sweep? :: op in Sweeps(cfg);
    forall op | op in Sweeps(cfg) ensures OwnQuery(s, op) { SweepIsOwn(s, cfg, op); }
    forall op | op in s.todo && !op.Sweep? ensures OwnQuery(s, op) { AsksNothing(s, op); }
  }

  lemma AsksNothing(s: Sys, op: Op)
    requires !op.Sweep?
    ensures OwnQuery(s, op)
  {
  }

  lemma SweepIsOwn(s: Sys, cfg: Config, op: Op)
    requires op in Sweeps(cfg) && Unclaimed(s.c, s.ns, cfg.name)
    ensures OwnQuery(s, op)
  {
    hide Reserved, Matches;
  }

  /** One undisturbed run leads from its request to its end. */
  lemma LeadsRun(lists: Order, at: nat, s: Sys, x: string, done: nat, t: Sys)
    requires Quietly(lists, at, Act(s, Request(x)), done, t) && s.todo == [] && x in s.c.crs
    requires s.c.crs[x].deleting ==> Unclaimed(s.c, s.ns, x)
    ensures at <= done && Leads(s, RunHistory(lists, at, x, done), t)
  {
    hide Perform, Unclaimed, Tame, Fair;
    var start, h := Act(s, Request(x)), QuietCalls(lists, at, done - at);
    FirstCall(lists, at, start, x);
    Quieted(lists, at, start, done, t);
    assert FairHistory(start, h) by {
      if done > at {
        assert h[0] == Call(Working(lists, at)) && h[1..] == QuietCalls(lists, at + 1, done - at - 1);
        QuietFair(lists, at + 1, Act(start, h[0]), done - at - 1);
      }
    }
    hide Act;
    assert Leads(start, h, t);
    LeadsOne(s, Request(x)) by { assert Fair(s, Request(x)) by { RequestFair(s, x); } }
    LeadsOn(s, [Request(x)], start, h, t);
  }

  lemma RequestFair(s: Sys, x: string)
    ensures Fair(s, Request(x)) && RemovesNothing(Request(x))
  {
  }

  lemma CreateHonest(s: Sys, x: string, spec: Spec, finalizers: set<string>)
    requires HistoryOk(s.c) && s.todo == []
    ensures HonestInv(Act(s, Elsewhere(CreateCR(x, spec, finalizers))))
  {
    hide Perform, HistoryOk;
    assert HonestInv(s);
    MoveKeepsHonest(s, CreateCR(x, spec, finalizers));
  }

  lemma DeletingRecorded(s: Sys, x: string)
    requires x in s.c.crs && s.c.crs[x].finalizers != {} && !s.c.crs[x].deleting
    ensures var t, v := Act(s, Elsewhere(DeleteCR(x))), s.c.rev + 1;
      v in t.c.past && t.c.past[v] == Version(x, s.c.crs[x].(deleting := true))
  {
  }

  /** A custom resource is created, deleted and cleaned up; its first version and its last stay on record. */
  lemma ComeAndGone(lists: Order, s: Sys, x: string, spec: Spec) returns (h: seq<Action>, t: Sys, first: nat, last: nat)
    requires Pristine(s) && HistoryOk(s.c) && !HelmStored(s.c) && x !in s.c.crs && x != "" && Unclaimed(s.c, s.ns, x)
    ensures Leads(s, h, t) && t.todo == [] && MemoHonest(t) && HistoryOk(t.c) && Neat(t.c, t.ns) && NoHelm(t.c)
    ensures x !in t.c.crs && t.ns == s.ns && Unclaimed(t.c, t.ns, x)
    ensures first in t.c.past && t.c.past[first] == Version(x, FakeGPUConfig(spec, EMPTY_STATUS, {FINALIZER}, false))
    ensures last in t.c.past && t.c.past[last].name == x && t.c.past[last].cr.deleting
  {
    hide Perform, Act, Replay, Deleted, Neat, HelmStored, Quietly, Pristine, HistoryOk, Leads, RunHistory,
      Unclaimed;
    PristineIsNeat(s);
    PristineIdle(s);
    var create, delete := Elsewhere(CreateCR(x, spec, {FINALIZER})), Elsewhere(DeleteCR(x));
    var s1 := Act(s, create);
    Created(s, x, spec, {FINALIZER});
    var s2 := Act(s1, delete);
    first, last := s.c.rev + 1, s1.c.rev + 1;
    MarkedDeleting(s1, x);
    DeletingRecorded(s1, x);
    assert Neat(s2.c, s2.ns) by { SameNeat(s, s2); }
    assert NoHelm(s2.c) by { SameNoHelm(s.c, s2.c); }
    var done;
    done, t := CleanupReachesDeleted(lists, 0, s2, x);
    ReleasedGone(s2.c, s2.ns, x, s2.c.openShift);
    assert Unclaimed(s2.c, s2.ns, x) by { UnclaimedSame(s.c, s2.c, s.ns, x); }
    DeletedUnclaimed(s2.c, s2.ns, x, s2.c.openShift, t.c);
    RunLeavesOrder(lists, 0, s2, x, done, t);
    LeadsRun(lists, 0, s2, x, done, t);
    LeadsOne(s, create);
    LeadsOne(s1, delete);
    assert HonestInv(s1) by { CreateHonest(s, x, spec, {FINALIZER}); }
    LeadsKeepsPast(s1, [delete], s2);
    assert HonestInv(s2) by { MoveKeepsHonest(s1, DeleteCR(x)); }
    LeadsKeepsPast(s2, RunHistory(lists, 0, x, done), t);
    LeadsOn(s, [create], s1, [delete], s2);
    h := [create] + [delete] + RunHistory(lists, 0, x, done);
    LeadsOn(s, [create] + [delete], s2, RunHistory(lists, 0, x, done), t);
  }

  lemma UnclaimedSame(c: Store, d: Store, ns: string, x: string)
    requires Unclaimed(c, ns, x) && d.objs == c.objs
    ensures Unclaimed(d, ns, x)
  {
  }

  lemma LeadsKeepsPast(s: Sys, h: seq<Action>, t: Sys)
    requires HonestInv(s) && Leads(s, h, t)
    ensures PastGrows(s.c, t.c) && HistoryOk(t.c)
  {
    hide Replay, FairHistory;
    ReplayKeepsPast(s, h);
    ReplayKeepsHonest(s, h);
  }

  // ---------------------------------------------------------------- an orphan

  lemma StaleFound(s: Sys, x: string, v: nat, cr: FakeGPUConfig)
    requires s.todo == [Begin(x)] && v in s.c.past && s.c.past[v] == Version(x, cr) && x !in s.c.crs
    requires !cr.deleting && FINALIZER in cr.finalizers && ResolveProfile(cr.spec).Some?
    ensures var a := Answer(NoFault, Some(v), []); GetCR(s.c, x, a).0 == Some(Config(x, v, cr)) && !HarmlessRead(s, a)
  {
  }

  /**
   * From an untouched cluster to an orphan: a custom resource is created, deleted and cleaned up without a fault;
   * then a lagging cache still returns its first version, and the next run sets it up again with nobody to remove it.
   */
  lemma StaleReadOrphans(lists: Order, s: Sys, x: string, spec: Spec) returns (h: seq<Action>)
    requires Pristine(s) && HistoryOk(s.c) && !HelmStored(s.c) && x !in s.c.crs && x != "" && ResolveProfile(spec).Some?
    requires Unclaimed(s.c, s.ns, x)
    ensures Orphan(Replay(s, h), AccountKey(x, DevicePlugin, s.ns), x)
  {
    hide Act, Replay, Neat, ResolveProfile, HelmStored, Pristine, Orphan, HistoryOk, HarmlessRead, GetCR, FairHistory;
    var g, t, v, _ := ComeAndGone(lists, s, x, spec);
    var u, a := Act(t, Request(x)), Answer(NoFault, Some(v), []);
    Requested(t, x);
    StaleFound(u, x, v, FakeGPUConfig(spec, EMPTY_STATUS, {FINALIZER}, false));
    assert Neat(u.c, u.ns) by { SameNeat(t, u); }
    var k := HarmfulReadOrphans(lists, u, x, a);
    One(t, Request(x));
    Then(s, g, t, [Request(x)], u);
    h := g + [Request(x)] + ([Call(a)] + k);
    Then(s, g + [Request(x)], u, [Call(a)] + k, Replay(u, [Call(a)] + k));
  }

  // ---------------------------------------------------------------- a read that cleans up what is in use again

  /** None of these manifests is a role binding. */
  predicate NoBindings(ms: seq<Manifest>) { forall i | 0 <= i < |ms| :: ms[i].key.kind != ClusterRoleBinding }

  lemma WorkloadsNoBindings(x: string, spec: Spec, p: GPUProfile, ns: string)
    ensures NoBindings(WorkloadManifests(x, spec, p, ns))
  {
    hide ConfigAndDevicePlugin, OptionalWorkloads, ExtraWorkloads, Services, RuntimeClassManifest;
    assert NoBindings(ConfigAndDevicePlugin(x, spec, p, ns)) by { ConfigNoBindings(x, spec, p, ns); }
    OthersNoBindings(x, spec, ns);
  }

  lemma ConfigNoBindings(x: string, spec: Spec, p: GPUProfile, ns: string)
    ensures NoBindings(ConfigAndDevicePlugin(x, spec, p, ns))
  {
    hide CommonLabels, SelectorLabels, StemName;
  }

  lemma OthersNoBindings(x: string, spec: Spec, ns: string)
    ensures NoBindings(OptionalWorkloads(x, spec, ns)) && NoBindings(ExtraWorkloads(x, spec, ns))
    ensures NoBindings(Services(x, ns)) && NoBindings([RuntimeClassManifest(x)])
  {
    hide CommonLabels, SelectorLabels, StemName;
  }

  lemma BindingOnce(x: string, ns: string, os: bool, m: Manifest)
    requires m in RbacManifests(x, ns) + Only(os, SccManifests(x, ns)) && m.key == BindingKey(x, DevicePlugin)
    ensures m == BindingManifest(x, DevicePlugin, ns)
  {
    hide CommonLabels, SccSubjects;
  }

  lemma {:induction false} PutAllOnly(objs: map<Key, Object>, ms: seq<Manifest>, m: Manifest)
    requires Writing(ms, m.key) && forall i | 0 <= i < |ms| && ms[i].key == m.key :: ms[i] == m
    ensures At(PutAll(objs, ms), m.key) == Some(m.obj)
    decreases |ms|
  {
    if Writing(ms[1..], m.key) {
      PutAllOnly(objs[ms[0].key := ms[0].obj], ms[1..], m);
    } else {
      WritingHead(ms, m.key);
      PutAllOther(objs[ms[0].key := ms[0].obj], ms[1..], m.key);
    }
  }

  /** In the goal the device plugin's role is bound to its service account. */
  lemma BindingReached(c: Store, ns: string, x: string)
    requires Applicable(c, x)
    ensures var m := BindingManifest(x, DevicePlugin, ns); At(Goal(c, ns, x).objs, m.key) == Some(m.obj)
  {
    hide WorkloadManifests, Writes, Labelled, GoalStatus, ResolveProfile, RbacManifests, SccManifests, BindingManifest,
      PutAll, BindingKey;
    var spec, p, os, m := c.crs[x].spec, ProfileOf(c, x), c.openShift, BindingManifest(x, DevicePlugin, ns);
    var plan, rbac := Plan(x, spec, p, ns, os), RbacManifests(x, ns) + Only(os, SccManifests(x, ns));
    WorkloadsNoBindings(x, spec, p, ns);
    BindingPlanned(x, ns, m);
    forall i | 0 <= i < |plan| && plan[i].key == m.key ensures plan[i] == m {
      assert i < |rbac| && plan[i] == rbac[i];
      BindingOnce(x, ns, os, plan[i]);
    }
    assert plan[5] == m;
    PlanKeysPlaced(x, spec, p, ns, os, m.key);
    WritesOffNodes(c.objs, Labelled(c.nodes, x, spec), x, spec, p, ns, os, m.key);
    PutAllOnly(map[], plan, m);
  }

  lemma BindingPlanned(x: string, ns: string, m: Manifest)
    requires m == BindingManifest(x, DevicePlugin, ns)
    ensures |RbacManifests(x, ns)| > 5 && RbacManifests(x, ns)[5] == m
    ensures m.key.kind == ClusterRoleBinding && m.key == BindingKey(x, DevicePlugin)
  {
    hide CommonLabels;
  }

  /** A binding of `x` that names a service account not stored. */
  ghost predicate Dangling(s: Sys, x: string, k: Key) {
    && Ready(s.c, x) && k in s.c.objs && Reserved(s.ns, k) && Mine(s.c.objs[k], x)
    && !(References(s.ns, s.c.objs[k]) <= s.c.objs.Keys)
  }

  /** `x` is in use: it is stored, not being deleted, and the device plugin's role is bound to its service account. */
  predicate InUse(c: Store, ns: string, x: string) {
    Ready(c, x) && var m := BindingManifest(x, DevicePlugin, ns); At(c.objs, m.key) == Some(m.obj)
  }

  lemma GoalInUse(c: Store, ns: string, x: string, d: Store)
    requires Applicable(c, x) && ContentsOf(d) == Goal(c, ns, x)
    ensures InUse(d, ns, x)
  {
    hide Goal, ResolveProfile, BindingManifest, Applicable, Ready;
    RunKeepsReady(c, ns, x, d);
    BindingReached(c, ns, x);
  }

  /** Sweeping by labels alone leaves bindings without their service accounts. */
  lemma SweptDangles(u: Sys, x: string, t: Sys)
    requires InUse(u.c, u.ns, x) && Neat(u.c, u.ns)
    requires t.ns == u.ns && t.c.crs == u.c.crs && t.c.objs == Unswept(u.c.objs, u.ns, SweepQueries(x))
    ensures Dangling(t, x, BindingKey(x, DevicePlugin))
  {
    hide Neat, AccountKey, BindingManifest, BindingKey, Unswept, Dangling, SweepQueries;
    var m := BindingManifest(x, DevicePlugin, u.ns);
    BindingRefers(x, u.ns);
    BindingUnswept(u.c.objs, u.ns, x, m.key);
    AccountSwept(u.c, u.ns, x);
    LeftDangling(t, x, m);
  }

  lemma LeftDangling(t: Sys, x: string, m: Manifest)
    requires m == BindingManifest(x, DevicePlugin, t.ns) && Ready(t.c, x)
    requires m.key in t.c.objs && t.c.objs[m.key] == m.obj && AccountKey(x, DevicePlugin, t.ns) !in t.c.objs
    ensures Dangling(t, x, m.key)
  {
    hide AccountKey, BindingManifest, BindingKey, References, Reserved;
    BindingRefers(x, t.ns);
  }

  lemma BindingRefers(x: string, ns: string)
    ensures var m := BindingManifest(x, DevicePlugin, ns);
      && m.key == BindingKey(x, DevicePlugin) && m.key.kind == ClusterRoleBinding && Reserved(ns, m.key)
      && Mine(m.obj, x) && AccountKey(x, DevicePlugin, ns) in References(ns, m.obj)
  {
    assert Placed(ns, BindingKey(x, DevicePlugin), x, DevicePlugin);
  }

  lemma BindingUnswept(objs: map<Key, Object>, ns: string, x: string, k: Key)
    requires k in objs && k.kind == ClusterRoleBinding
    ensures var left := Unswept(objs, ns, SweepQueries(x)); k in left && left[k] == objs[k]
  {
    hide Matches;
  }

  lemma AccountSwept(c: Store, ns: string, x: string)
    requires Neat(c, ns)
    ensures AccountKey(x, DevicePlugin, ns) !in Unswept(c.objs, ns, SweepQueries(x))
  {
    hide Neat;
    var account := AccountKey(x, DevicePlugin, ns);
    if account in c.objs {
      AccountLabelled(c, ns, x);
      assert Hit(SweepQueries(x)[3], ns, account, c.objs[account]);
    }
  }

  lemma RunKeepsReady(c: Store, ns: string, x: string, d: Store)
    requires Applicable(c, x) && ContentsOf(d) == Goal(c, ns, x)
    ensures Ready(d, x)
  {
    hide Plan, ResolveProfile, Labelled, Writes, PutAll, GoalStatus;
  }

  /** A stale read of a version that is being deleted starts a cleanup, and is fair. */
  lemma StaleCleanup(s: Sys, x: string, v: nat, cr: FakeGPUConfig)
    requires s.todo == [Begin(x)] && v in s.c.past && s.c.past[v] == Version(x, cr) && cr.deleting
    ensures var a := Answer(NoFault, Some(v), []);
      Fair(s, Call(a)) && Act(s, Call(a)) == s.(todo := DeleteProgram(Config(x, v, cr), s.memo))
  {
    hide DeleteProgram;
    BeginEffect(s, Answer(NoFault, Some(v), []));
  }

  lemma CleanupStarts(cfg: Config, memo: Option<bool>)
    ensures DeleteProgram(cfg, memo)
      == Sweeps(cfg) + ([ListPooled(cfg)] + (ClusterCleanup(cfg, memo) + [DropFinalizer(cfg)]))
  {
    hide Sweeps, ClusterCleanup;
  }

  /** From a custom resource that has been set up, a stale read of a deleted version takes its service accounts away. */
  lemma StaleCleanupDangles(lists: Order, u: Sys, x: string, v: nat, cr: FakeGPUConfig)
      returns (h: seq<Action>, t: Sys)
    requires u.todo == [] && InUse(u.c, u.ns, x) && Neat(u.c, u.ns) && Unclaimed(u.c, u.ns, x)
    requires v in u.c.past && u.c.past[v] == Version(x, cr) && cr.deleting
    ensures Leads(u, h, t) && Dangling(t, x, BindingKey(x, DevicePlugin))
  {
    hide Act, InUse, Neat, Quietly, Leads, Dangling, QuietCalls, DeleteProgram, Sweeps, ClusterCleanup,
      Unclaimed, Tame, Fair, Unswept, SweepQueries, Unlabelled, RemovesNothing, BindingKey;
    var w, a, cfg := Act(u, Request(x)), Answer(NoFault, Some(v), []), Config(x, v, cr);
    Requested(u, x);
    var b := Act(w, Call(a));
    StaleRequest(u, x, v, cr);
    CleanupStarts(cfg, u.memo);
    var done;
    done, t := RunByLabels(lists, 0, b, cfg, ClusterCleanup(cfg, u.memo) + [DropFinalizer(cfg)]);
    SweptDangles(u, x, t);
    assert Tame(b) by { CleanupTame(b, cfg); }
    LeadsQuietly(lists, 0, b, done, t);
    h := [Request(x)] + [Call(a)] + QuietCalls(lists, 0, done);
    LeadsOn(u, [Request(x)] + [Call(a)], b, QuietCalls(lists, 0, done), t);
  }

  lemma StaleRequest(u: Sys, x: string, v: nat, cr: FakeGPUConfig)
    requires u.todo == [] && v in u.c.past && u.c.past[v] == Version(x, cr) && cr.deleting
    ensures var w, a := Act(u, Request(x)), Call(Answer(NoFault, Some(v), [])); var b := Act(w, a);
      && Leads(u, [Request(x)] + [a], b) && b.todo == DeleteProgram(Config(x, v, cr), u.memo)
      && b.c == u.c && b.ns == u.ns && b.memo == u.memo
  {
    hide Act, DeleteProgram, Leads, Fair;
    var w, a := Act(u, Request(x)), Call(Answer(NoFault, Some(v), []));
    Requested(u, x);
    StaleCleanup(w, x, v, cr);
    RequestFair(u, x);
    LeadsOne(u, Request(x));
    LeadsOne(w, a);
    LeadsOn(u, [Request(x)], w, [a], Act(w, a));
  }

  /**
   * Why `ReferencesHold` has to bar some stale reads. From an untouched cluster, by fair steps and with nobody else
   * removing an object: a custom resource is created, deleted and cleaned up, created again and set up; then a lagging
   * cache returns its old version, and the run that cleans it up takes away the service accounts of the new one.
   */
  lemma StaleReadDangles(lists: Order, s: Sys, x: string, spec: Spec) returns (h: seq<Action>)
    requires Pristine(s) && HistoryOk(s.c) && !HelmStored(s.c) && x !in s.c.crs && x != "" && ResolveProfile(spec).Some?
    requires Unclaimed(s.c, s.ns, x)
    ensures FairHistory(s, h) && (forall a | a in h :: RemovesNothing(a))
    ensures Dangling(Replay(s, h), x, BindingKey(x, DevicePlugin))
  {
    hide Perform, Act, Replay, Goal, Neat, ResolveProfile, HelmStored, Quietly, Pristine, HistoryOk, RunHistory,
      Dangling, FairHistory, Unclaimed, InUse;
    var g, t, _, v := ComeAndGone(lists, s, x, spec);
    var create := Elsewhere(CreateCR(x, spec, {}));
    var t1 := Act(t, create);
    Created(t, x, spec, {});
    assert Unclaimed(t1.c, t1.ns, x) by { UnclaimedSame(t.c, t1.c, t.ns, x); }
    assert Neat(t1.c, t1.ns) by { SameNeat(t, t1); }
    assert NoHelm(t1.c) by { SameNoHelm(t.c, t1.c); }
    var done, u := RunReachesGoal(lists, 0, t1, x);
    RunLeavesOrder(lists, 0, t1, x, done, u);
    GoalUnclaimed(t1.c, t1.ns, x, u.c);
    GoalInUse(t1.c, t1.ns, x, u.c);
    hide Leads;
    LeadsRun(lists, 0, t1, x, done, u);
    LeadsOne(t, create);
    LeadsOn(t, [create], t1, RunHistory(lists, 0, x, done), u);
    assert HonestInv(t) by { IdleHonest(t); }
    LeadsKeepsPast(t, [create] + RunHistory(lists, 0, x, done), u);
    var k, w := StaleCleanupDangles(lists, u, x, v, u.c.past[v].cr);
    LeadsOn(s, g, t, [create] + RunHistory(lists, 0, x, done), u);
    h := g + ([create] + RunHistory(lists, 0, x, done)) + k;
    LeadsOn(s, g + ([create] + RunHistory(lists, 0, x, done)), u, k, w);
    assert Leads(s, h, w);
    LeadsMeans(s, h, w);
  }

  lemma IdleHonest(s: Sys)
    requires s.todo == [] && HistoryOk(s.c)
    ensures HonestInv(s)
  {
  }
}
