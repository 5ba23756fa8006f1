/** Helm conflicts: the operator never makes one, and while one is stored and visible it writes nothing. */
module Helm {
  import opened Basics
  import opened Api
  import opened Resources
  import opened Naming
  import opened Cluster
  import opened Protocol
  import opened Safety
  import opened Erasure
  import opened Honesty
  import opened Authorship

  predicate IsHelm(k: Key, o: Object) { IsHelmSecret(k, o) || IsHelmTopology(k, o) }

  predicate HelmStored(c: Store) { HelmSecretStored(c) || HelmTopologyStored(c) }

  lemma NoHelmObjects(c: Store)
    ensures !HelmStored(c) <==> forall k | k in c.objs :: !IsHelm(k, c.objs[k])
  {
    hide IsHelmSecret, IsHelmTopology;
  }

  /** Nothing the operator writes looks like Helm's. */
  lemma AuthoredIsNotHelm(ns: string, os: bool, k: Key, o: Object)
    requires Authored(ns, os, k, o)
    ensures !IsHelm(k, o)
  {
    assert AppManagedBy in map[AppManagedBy := "Helm"];
    assert MANAGED_BY[0] != "Helm"[0];
  }

  /** No pending write puts an object of Helm's. */
  predicate NoneHelm(ops: seq<Op>) {
    forall op | op in ops && Puts(op) :: !IsHelm(op.m.key, op.m.obj)
  }

  lemma NeatIsNotHelm(ns: string, ops: seq<Op>)
    requires AllNeat(ns, ops)
    ensures NoneHelm(ops)
  {
    hide Authored, IsHelm;
    forall op | op in ops && Puts(op) ensures !IsHelm(op.m.key, op.m.obj) {
      assert PlannedNeat(ns, op);
      AuthoredIsNotHelm(ns, true, op.m.key, op.m.obj);
    }
  }

  lemma PlainIsNotHelm(ops: seq<Op>)
    requires forall op | op in ops :: !Puts(op)
    ensures NoneHelm(ops)
  {
  }

  /** Whatever a read plans to write is not Helm's. */
  lemma ReadsNoHelm(s: Sys, a: Answer)
    requires NoneHelm(s.todo) && s.todo != [] && Reads(s.todo[0])
    ensures NoneHelm(Perform(s, a).todo)
  {
    hide AfterHelm, Route, ListNodes, LabelOps, ClusterKeys, SccManifests, PoolManifests, HelmSecretStored, IsHelm,
      HelmStatus,
      HelmTopologyStored, GetCR, Arrange, Keys, NodeListOption, PoolLabels, Desired, ObjectNames, FinalStatus;
    assert s.todo[0] in s.todo;
    match s.todo[0]
    case Begin(name) =>
      if GetCR(s.c, name, a).0.Some? {
        RouteNeat(GetCR(s.c, name, a).0.value, s.ns, s.memo);
        NeatIsNotHelm(s.ns, Route(GetCR(s.c, name, a).0.value, s.memo));
      }
    case FindHelmSecrets(cfg) => HelmPlansNoHelm(s, cfg);
    case FindHelmTopology(cfg) => HelmPlansNoHelm(s, cfg);
    case Probe(cfg) =>
      ProbeNeat(s.ns, cfg, a.fault == NoFault && s.c.openShift);
      NeatIsNotHelm(s.ns, Fetches(cfg.name, Only(a.fault == NoFault && s.c.openShift, SccManifests(cfg.name, s.ns))));
    case ListSelected(cfg) =>
      LabelOpsFacts(ListNodes(s.c, NodeListOption(cfg.name, cfg.cr.spec), a.order), cfg);
    case ListPool(cfg, p) =>
      PoolNeat(s.ns, cfg.name, ListNodes(s.c, PoolLabels(cfg.name), a.order), cfg.cr.spec, p);
      NeatIsNotHelm(s.ns,
        Fetches(cfg.name, PoolManifests(ListNodes(s.c, PoolLabels(cfg.name), a.order), cfg.cr.spec, p, s.ns)));
    case _ =>
  }

  lemma HelmPlansNoHelm(s: Sys, cfg: Config)
    ensures NoneHelm(AfterHelm(cfg, s.ns, s.memo)) && NoneHelm(HelmStatus(cfg))
  {
    AfterHelmNeat(cfg, s.ns, s.memo);
    NeatIsNotHelm(s.ns, AfterHelm(cfg, s.ns, s.memo));
    PlainIsNotHelm(HelmStatus(cfg));
  }

  lemma CallMakesNoHelm(s: Sys, a: Answer)
    requires NoneHelm(s.todo) && s.todo != [] && !HelmStored(s.c)
    ensures !HelmStored(Perform(s, a).c) && NoneHelm(Perform(s, a).todo)
  {
    hide Perform, HelmStored, IsHelm, Sent;
    var op, t := s.todo[0], Perform(s, a);
    NoHelmObjects(s.c);
    NoHelmObjects(t.c);
    assert op in s.todo;
    if Reads(op) { ReadsOnly(s, a); ReadsNoHelm(s, a); }
    else if op.Create? || op.Replace? { WriteEffect(s, a); }
    else if op.Remove? { RemoveEffect(s, a); RemoveRest(s, a); }
    else if OnNode(op) { NodeWriteEffect(s, a); }
    else { CrWriteObjects(s, a); }
  }

  lemma CrWriteObjects(s: Sys, a: Answer)
    requires s.todo != [] && (s.todo[0].SaveFinalizer? || s.todo[0].SaveStatus? || s.todo[0].DropFinalizer?)
    ensures var t := Perform(s, a);
      && t.c.objs == s.c.objs && t.c.nodes == s.c.nodes
      && (t.todo == [] || exists cfg :: t.todo == [FindHelmSecrets(cfg)] + s.todo[1..])
  {
    hide Perform, SettleCR;
    var cr := CrWriteShape(s, a);
    SettleEffect(s.c, s.todo[0].cfg.name, cr);
  }

  /** Other clients do not install Helm's release either. */
  predicate NoHelmInstalled(a: Action) {
    match a
    case Elsewhere(PutObject(k, o)) => !IsHelm(k, o)
    case _ => true
  }

  lemma MoveMakesNoHelm(c: Store, m: Move)
    requires !HelmStored(c) && NoHelmInstalled(Elsewhere(m))
    ensures !HelmStored(ApplyMove(c, m))
  {
    hide HelmStored, IsHelm, SettleCR;
    NoHelmObjects(c);
    NoHelmObjects(ApplyMove(c, m));
    if (m.EditCR? || m.DeleteCR?) && m.name in c.crs {
      SettleEffect(c, m.name, if m.EditCR?
        then c.crs[m.name].(spec := m.spec, finalizers := KeepFinalizer(c.crs[m.name].finalizers, m.finalizers))
        else c.crs[m.name].(deleting := true));
    }
  }

  lemma ActMakesNoHelm(s: Sys, a: Action)
    requires NoneHelm(s.todo) && !HelmStored(s.c) && NoHelmInstalled(a)
    ensures !HelmStored(Act(s, a).c) && NoneHelm(Act(s, a).todo)
  {
    hide Perform, HelmStored, IsHelm;
    match a
    case Call(answer) => if s.todo != [] { CallMakesNoHelm(s, answer); }
    case Elsewhere(m) => MoveMakesNoHelm(s.c, m);
    case _ =>
  }

  /**
   * The operator never manufactures a Helm conflict: none arises in any history in which nobody installs Helm's
   * release, whatever else others write, however stale reads are and whichever calls fail.
   */
  lemma {:induction false} HelmNeverManufactured(s: Sys, h: seq<Action>)
    requires NoneHelm(s.todo) && !HelmStored(s.c) && forall a | a in h :: NoHelmInstalled(a)
    ensures !HelmStored(Replay(s, h).c)
    decreases |h|
  {
    hide Act, HelmStored, NoneHelm, NoHelmInstalled;
    if h != [] {
      assert h[0] in h;
      ActMakesNoHelm(s, h[0]);
      HelmNeverManufactured(Act(s, h[0]), h[1..]);
    }
  }

  // ---------------------------------------------------------------- respecting a conflict

  /** All a run does while `k0` is an object of Helm's. */
  predicate Blocked(s: Sys, k0: Key) {
    && k0 in s.c.objs && IsHelm(k0, s.c.objs[k0]) && |s.todo| <= 1
    && forall op | op in s.todo ::
         || op.Begin? || op.SaveFinalizer? || op.FindHelmSecrets? || op.SaveStatus?
         || (op.FindHelmTopology? && IsHelmTopology(k0, s.c.objs[k0]))
  }

  /**
   * Others may do anything but take `k0` from Helm; the custom resource a run reads is not being deleted; and the two
   * lists of the Helm check work.
   */
  predicate Looking(s: Sys, a: Action, k0: Key) {
    match a
    case Elsewhere(PutObject(k, o)) => k == k0 ==> IsHelm(k, o)
    case Elsewhere(RemoveObject(k)) => k != k0
    case Call(answer) =>
      s.todo != [] ==>
        && (s.todo[0].FindHelmSecrets? || s.todo[0].FindHelmTopology? ==> answer.fault == NoFault)
        && (s.todo[0].Begin? ==>
              var found := GetCR(s.c, s.todo[0].name, answer).0; found.Some? ==> !found.value.cr.deleting)
    case _ => true
  }

  predicate LookingHistory(s: Sys, h: seq<Action>, k0: Key)
    decreases |h|
  {
    h == [] || (Looking(s, h[0], k0) && LookingHistory(Act(s, h[0]), h[1..], k0))
  }

  lemma HelmVisible(c: Store, k0: Key)
    requires k0 in c.objs && IsHelm(k0, c.objs[k0])
    ensures IsHelmSecret(k0, c.objs[k0]) ==> HelmSecretStored(c)
    ensures IsHelmTopology(k0, c.objs[k0]) ==> HelmTopologyStored(c)
  {
    hide IsHelmSecret, IsHelmTopology;
  }

  lemma BlockedRead(s: Sys, a: Answer, k0: Key)
    requires Blocked(s, k0) && s.todo != [] && Looking(s, Call(a), k0) && Reads(s.todo[0])
    ensures Blocked(Perform(s, a), k0) && Perform(s, a).c == s.c
  {
    hide HelmSecretStored, HelmTopologyStored, AfterHelm, DeleteProgram, IsHelmSecret, IsHelmTopology, GetCR;
    assert s.todo[0] in s.todo && s.todo[1..] == [];
    HelmVisible(s.c, k0);
    if s.todo[0].Begin? { BeginEffect(s, a); }
  }

  lemma BlockedCall(s: Sys, a: Answer, k0: Key)
    requires Blocked(s, k0) && s.todo != [] && Looking(s, Call(a), k0)
    ensures var t := Perform(s, a); Blocked(t, k0) && t.c.objs == s.c.objs && t.c.nodes == s.c.nodes
  {
    hide Perform, IsHelmSecret, IsHelmTopology, GetCR;
    var op := s.todo[0];
    assert op in s.todo && s.todo[1..] == [];
    if Reads(op) { BlockedRead(s, a, k0); } else { CrWriteObjects(s, a); }
  }

  lemma BlockedMove(s: Sys, m: Move, k0: Key)
    requires Blocked(s, k0) && Looking(s, Elsewhere(m), k0)
    ensures Blocked(Act(s, Elsewhere(m)), k0)
  {
    hide Perform, SettleCR;
    if (m.EditCR? || m.DeleteCR?) && m.name in s.c.crs {
      SettleEffect(s.c, m.name, if m.EditCR?
        then s.c.crs[m.name].(spec := m.spec, finalizers := KeepFinalizer(s.c.crs[m.name].finalizers, m.finalizers))
        else s.c.crs[m.name].(deleting := true));
    }
  }

  lemma {:induction false} ReplayBlocked(s: Sys, h: seq<Action>, k0: Key)
    requires Blocked(s, k0) && LookingHistory(s, h, k0)
    ensures Blocked(Replay(s, h), k0)
    decreases |h|
  {
    hide Perform, Blocked, Looking;
    if h != [] {
      match h[0] {
        case Call(a) => if s.todo != [] { BlockedCall(s, a, k0); }
        case Elsewhere(m) => BlockedMove(s, m, k0);
        case _ => BlockedIdle(s, h[0], k0);
      }
      ReplayBlocked(Act(s, h[0]), h[1..], k0);
    }
  }

  lemma BlockedIdle(s: Sys, a: Action, k0: Key)
    requires Blocked(s, k0) && (a.Request? || a.Restart?)
    ensures Blocked(Act(s, a), k0)
  {
  }

  /**
   * With one object of a Helm release stored, no call of any run writes an object or a node, whatever others do in
   * between: edit custom resources, change nodes, write objects, even change that object as long as it stays Helm's.
   */
  lemma HelmRespected(s: Sys, h: seq<Action>, k0: Key, a: Answer)
    requires s.todo == [] && k0 in s.c.objs && IsHelm(k0, s.c.objs[k0])
    requires LookingHistory(s, h, k0) && Looking(Replay(s, h), Call(a), k0)
    ensures var t, u := Replay(s, h), Act(Replay(s, h), Call(a)); u.c.objs == t.c.objs && u.c.nodes == t.c.nodes
  {
    hide Perform, Looking;
    ReplayBlocked(s, h, k0);
    var t := Replay(s, h);
    if t.todo != [] { BlockedCall(t, a, k0); }
  }

  // ---------------------------------------------------------------- overlooking a conflict

  /** The Helm check from its first list, with the answer to each list; the second is used only if it is asked for. */
  function CheckHelm(s: Sys, cfg: Config, secrets: Answer, maps: Answer): Sys
    requires s.todo == [FindHelmSecrets(cfg)]
  {
    var t := Perform(s, secrets);
    if t.todo == [FindHelmTopology(cfg)] then Perform(t, maps) else t
  }

  lemma ProgramsDiffer(cfg: Config, ns: string, memo: Option<bool>)
    ensures AfterHelm(cfg, ns, memo) != HelmStatus(cfg) && AfterHelm(cfg, ns, memo) != [FindHelmTopology(cfg)]
  {
    hide ApplyProgram, ResolveProfile;
    if ResolveProfile(cfg.cr.spec).Some? {
      ProgramLength(cfg, ResolveProfile(cfg.cr.spec).value, ns, memo);
    }
  }

  lemma ProgramLength(cfg: Config, p: GPUProfile, ns: string, memo: Option<bool>)
    ensures |ApplyProgram(cfg, p, ns, memo)| >= 3
  {
    hide RbacManifests, SccManifests, WorkloadManifests;
  }

  /**
   * The check goes on to apply if and only if nothing of Helm's is stored or a failing list hides it: the secrets' list
   * fails, or no secret is there and the ConfigMaps' list fails. Otherwise it reports a conflict, as not available.
   */
  lemma HelmOverlookedIffListFails(s: Sys, cfg: Config, secrets: Answer, maps: Answer)
    requires s.todo == [FindHelmSecrets(cfg)]
    ensures var t := CheckHelm(s, cfg, secrets, maps);
      && t.c == s.c
      && (t.todo == AfterHelm(cfg, s.ns, s.memo) <==>
            || !HelmStored(s.c) || secrets.fault != NoFault
            || (!HelmSecretStored(s.c) && maps.fault != NoFault))
      && (t.todo != AfterHelm(cfg, s.ns, s.memo) ==>
            t.todo == [SaveStatus(cfg, cfg.cr.status.(condition := Some(Condition(false, HelmConflict))))])
  {
    hide HelmSecretStored, HelmTopologyStored, AfterHelm;
    ProgramsDiffer(cfg, s.ns, s.memo);
    var after := AfterHelm(cfg, s.ns, s.memo);
    assert s.todo[1..] == [] && after + [] == after && [FindHelmTopology(cfg)][1..] == [];
    assert HelmStatus(cfg) + [] == HelmStatus(cfg) && [FindHelmTopology(cfg)] + [] == [FindHelmTopology(cfg)];
  }
}
