/**
 * Honest status: when "Available" is committed, it speaks about the spec stored at that moment, whatever users edit
 * meanwhile, however stale the first read was, and wherever calls fail.
 */
module Honesty {
  import opened Basics
  import opened Api
  import opened Profiles
  import opened Resources
  import opened Cluster
  import opened Protocol
  import opened Safety
  import opened Erasure

  const AVAILABLE := Some(Condition(true, Reconciled))

  /** The status says the custom resource is available, for whatever reason. */
  predicate Claims(status: Status) { status.condition.Some? && status.condition.value.available }

  /** The status reports this spec: its GPU count, and the profile it asks for. */
  predicate Reports(status: Status, spec: Spec) {
    status.gpuCountPerNode == spec.gpuCount && AsksFor(spec, status.gpuProfile)
  }

  /** The condition is the one its reason calls for, and the reason fits the spec. */
  predicate Founded(status: Status, spec: Spec) {
    status.condition.Some? && match status.condition.value.reason
      case Reconciled => status.condition.value.available && Reports(status, spec)
      case HelmConflict => !status.condition.value.available
      case InvalidProfile => !status.condition.value.available && spec.custom.None? && spec.gpuProfile !in BUILT_IN
  }

  /** Stored versions are the latest of a history without gaps in the future. */
  predicate HistoryOk(c: Store) {
    && (forall v | v in c.past :: v <= c.rev)
    && forall x | x in c.crs :: Rv(c.crRv, x) in c.past && c.past[Rv(c.crRv, x)] == Version(x, c.crs[x])
  }

  /** What a process holds in memory is a version that was once stored. */
  predicate Genuine(c: Store, cfg: Config) {
    cfg.rv in c.past && c.past[cfg.rv] == Version(cfg.name, cfg.cr)
  }

  predicate OpGenuine(c: Store, op: Op) {
    match op
    case Begin(_) => true
    case Fetch(_, _) => true
    case Create(_, _) => true
    case Replace(_, _, _) => true
    case CountNodes(cfg, p) => Genuine(c, cfg) && ResolveProfile(cfg.cr.spec) == Some(p)
    case ListPool(cfg, p) => Genuine(c, cfg) && ResolveProfile(cfg.cr.spec) == Some(p)
    case SaveStatus(cfg, status) => Genuine(c, cfg) && Founded(status, cfg.cr.spec)
    case _ => Genuine(c, op.cfg)
  }

  predicate AllGenuine(c: Store, ops: seq<Op>) {
    forall op | op in ops :: OpGenuine(c, op)
  }

  predicate HonestInv(s: Sys) {
    HistoryOk(s.c) && AllGenuine(s.c, s.todo)
  }

  predicate PastGrows(c: Store, d: Store) {
    forall v | v in c.past :: v in d.past && d.past[v] == c.past[v]
  }

  lemma GenuineGrows(c: Store, d: Store, ops: seq<Op>)
    requires PastGrows(c, d) && AllGenuine(c, ops)
    ensures AllGenuine(d, ops)
  {
  }

  lemma SettleHistory(c: Store, name: string, cr: FakeGPUConfig)
    requires HistoryOk(c)
    ensures HistoryOk(SettleCR(c, name, cr)) && PastGrows(c, SettleCR(c, name, cr))
  {
  }

  lemma GetGenuine(c: Store, name: string, a: Answer)
    requires HistoryOk(c)
    ensures GetCR(c, name, a).0.Some? ==> Genuine(c, GetCR(c, name, a).0.value)
  {
  }

  lemma AfterHelmGenuine(c: Store, cfg: Config, ns: string, memo: Option<bool>)
    requires Genuine(c, cfg)
    ensures AllGenuine(c, AfterHelm(cfg, ns, memo))
  {
    hide RbacManifests, SccManifests, WorkloadManifests, ResolveProfile;
    ProfileResolves(cfg.cr.spec);
  }

  lemma RouteGenuine(c: Store, cfg: Config, memo: Option<bool>)
    requires Genuine(c, cfg)
    ensures AllGenuine(c, Route(cfg, memo))
  {
    hide ClusterKeys;
  }

  lemma {:induction false} LabelOpsGenuine(c: Store, seen: seq<Seen>, cfg: Config)
    requires Genuine(c, cfg)
    ensures AllGenuine(c, LabelOps(seen, cfg))
  {
    LabelOpsFacts(seen, cfg);
  }

  /** Reads plan only with what the run already holds or has just read. */
  lemma ReadsGenuine(s: Sys, a: Answer)
    requires HistoryOk(s.c) && s.todo != [] && Reads(s.todo[0]) && OpGenuine(s.c, s.todo[0])
    ensures forall op | op in Perform(s, a).todo :: op in s.todo[1..] || OpGenuine(s.c, op)
  {
    hide AfterHelm, Route, ListNodes, LabelOps, ClusterKeys, SccManifests, PoolManifests, HelmSecretStored,
      HelmTopologyStored, GetCR, Arrange, Keys, NodeListOption, PoolLabels, Desired, ObjectNames, HistoryOk,
      ResolveProfile, CountReady, Genuine, AsksFor;
    match s.todo[0]
    case Begin(name) =>
      GetGenuine(s.c, name, a);
      if GetCR(s.c, name, a).0.Some? { RouteGenuine(s.c, GetCR(s.c, name, a).0.value, s.memo); }
    case FindHelmSecrets(cfg) => AfterHelmGenuine(s.c, cfg, s.ns, s.memo);
    case FindHelmTopology(cfg) => AfterHelmGenuine(s.c, cfg, s.ns, s.memo);
    case ListSelected(cfg) => LabelOpsGenuine(s.c, ListNodes(s.c, NodeListOption(cfg.name, cfg.cr.spec), a.order), cfg);
    case CountNodes(cfg, _) => ProfileResolves(cfg.cr.spec);
    case _ =>
  }

  /** A write of a custom resource settles it, or changes nothing. */
  lemma CrWriteShape(s: Sys, a: Answer) returns (cr: FakeGPUConfig)
    requires s.todo != [] && (s.todo[0].SaveFinalizer? || s.todo[0].SaveStatus? || s.todo[0].DropFinalizer?)
    ensures var t, x := Perform(s, a), s.todo[0].cfg.name;
      && (t.c == s.c || (x in s.c.crs && t.c == SettleCR(s.c, x, cr)))
      && (t.todo == [] || (x in t.c.crs && t.todo == [FindHelmSecrets(Stored(t.c, x))] + s.todo[1..]))
    ensures var x := s.todo[0].cfg.name; x in s.c.crs ==>
      && cr.deleting == s.c.crs[x].deleting && (cr.spec == s.c.crs[x].spec || cr.spec == s.todo[0].cfg.cr.spec)
      && cr.status == if s.todo[0].SaveStatus? then s.todo[0].status else s.c.crs[x].status
  {
    hide SettleCR;
    var cfg := s.todo[0].cfg;
    if cfg.name !in s.c.crs { cr := cfg.cr; }
    else if s.todo[0].SaveStatus? { cr := s.c.crs[cfg.name].(status := s.todo[0].status); }
    else if s.todo[0].SaveFinalizer? {
      cr := s.c.crs[cfg.name].(spec := cfg.cr.spec, finalizers := cfg.cr.finalizers + {FINALIZER});
    } else {
      cr := s.c.crs[cfg.name].(spec := cfg.cr.spec, finalizers := cfg.cr.finalizers - {FINALIZER});
    }
  }

  lemma CrWriteHonest(s: Sys, a: Answer)
    requires HonestInv(s) && s.todo != []
    requires s.todo[0].SaveFinalizer? || s.todo[0].SaveStatus? || s.todo[0].DropFinalizer?
    ensures HonestInv(Perform(s, a))
  {
    hide SettleCR, Perform, Reports;
    var t := Perform(s, a);
    var cr := CrWriteShape(s, a);
    SettleHistory(s.c, s.todo[0].cfg.name, cr);
    GenuineGrows(s.c, t.c, s.todo);
    forall op | op in t.todo ensures OpGenuine(t.c, op) {
      assert op in s.todo || Genuine(t.c, op.cfg);
    }
  }

  lemma HistorySame(c: Store, d: Store)
    requires HistoryOk(c) && d.crs == c.crs && d.crRv == c.crRv && d.past == c.past && d.rev >= c.rev
    ensures HistoryOk(d) && PastGrows(c, d)
  {
  }

  lemma CallKeepsHonest(s: Sys, a: Answer)
    requires HonestInv(s) && s.todo != []
    ensures HonestInv(Perform(s, a))
  {
    hide Perform, HistoryOk, OpGenuine, Sent;
    var op, t := s.todo[0], Perform(s, a);
    assert op in s.todo;
    if Reads(op) {
      ReadsOnly(s, a);
      ReadsGenuine(s, a);
    } else if op.SaveFinalizer? || op.SaveStatus? || op.DropFinalizer? {
      CrWriteHonest(s, a);
    } else {
      if op.Create? || op.Replace? { WriteEffect(s, a); }
      else if op.Remove? { RemoveEffect(s, a); RemoveRest(s, a); }
      else { NodeWriteEffect(s, a); }
      HistorySame(s.c, t.c);
      GenuineGrows(s.c, t.c, s.todo);
    }
  }

  lemma RemoveRest(s: Sys, a: Answer)
    requires s.todo != [] && s.todo[0].Remove?
    ensures var t := Perform(s, a); t.todo == s.todo[1..] && t.ns == s.ns && t.memo == s.memo
  {
    assert [] + s.todo[1..] == s.todo[1..];
  }

  lemma MoveKeepsHonest(s: Sys, m: Move)
    requires HonestInv(s)
    ensures HonestInv(Act(s, Elsewhere(m)))
  {
    hide Perform, SettleCR, OpGenuine;
    var d := ApplyMove(s.c, m);
    match m
    case CreateCR(name, spec, finalizers) =>
      SettleHistory(s.c, name, FakeGPUConfig(spec, EMPTY_STATUS, finalizers, false));
      CreateSettles(s.c, name, FakeGPUConfig(spec, EMPTY_STATUS, finalizers, false));
      GenuineGrows(s.c, d, s.todo);
    case EditCR(name, spec, finalizers) =>
      if name in s.c.crs {
        SettleHistory(s.c, name,
          s.c.crs[name].(spec := spec, finalizers := KeepFinalizer(s.c.crs[name].finalizers, finalizers)));
      }
      GenuineGrows(s.c, d, s.todo);
    case DeleteCR(name) =>
      if name in s.c.crs { SettleHistory(s.c, name, s.c.crs[name].(deleting := true)); }
      GenuineGrows(s.c, d, s.todo);
    case _ =>
      HistorySame(s.c, d);
      GenuineGrows(s.c, d, s.todo);
  }

  lemma CreateSettles(c: Store, name: string, cr: FakeGPUConfig)
    requires !cr.deleting
    ensures name !in c.crs ==> SettleCR(c, name, cr) == StoreCR(c, name, cr)
  {
  }

  lemma {:induction false} ReplayKeepsHonest(s: Sys, h: seq<Action>)
    requires HonestInv(s)
    ensures HonestInv(Replay(s, h))
    decreases |h|
  {
    hide HonestInv, Perform;
    if h != [] {
      match h[0] {
        case Call(a) => if s.todo != [] { CallKeepsHonest(s, a); }
        case Elsewhere(m) => MoveKeepsHonest(s, m);
        case _ => IdleHonest(s, h[0]);
      }
      ReplayKeepsHonest(Act(s, h[0]), h[1..]);
    }
  }

  lemma IdleHonest(s: Sys, a: Action)
    requires HonestInv(s) && (a.Request? || a.Restart?)
    ensures HonestInv(Act(s, a))
  {
  }

  /** Versions once stored are never forgotten. */
  lemma CallKeepsPast(s: Sys, a: Answer)
    requires HonestInv(s) && s.todo != []
    ensures PastGrows(s.c, Perform(s, a).c)
  {
    hide Perform, HistoryOk, OpGenuine, Sent;
    var op := s.todo[0];
    if Reads(op) {
      ReadsOnly(s, a);
    } else if op.SaveFinalizer? || op.SaveStatus? || op.DropFinalizer? {
      hide SettleCR;
      var cr := CrWriteShape(s, a);
      SettleHistory(s.c, op.cfg.name, cr);
    } else if op.Create? || op.Replace? {
      WriteEffect(s, a);
    } else if op.Remove? {
      RemoveEffect(s, a);
    } else {
      NodeWriteEffect(s, a);
    }
  }

  lemma MoveKeepsPast(c: Store, m: Move)
    requires HistoryOk(c)
    ensures PastGrows(c, ApplyMove(c, m))
  {
    hide SettleCR;
    if (m.EditCR? || m.DeleteCR?) && m.name in c.crs {
      SettleHistory(c, m.name, if m.EditCR?
        then c.crs[m.name].(spec := m.spec, finalizers := KeepFinalizer(c.crs[m.name].finalizers, m.finalizers))
        else c.crs[m.name].(deleting := true));
    }
  }

  lemma {:induction false} ReplayKeepsPast(s: Sys, h: seq<Action>)
    requires HonestInv(s)
    ensures PastGrows(s.c, Replay(s, h).c)
    decreases |h|
  {
    hide HonestInv, Perform;
    if h != [] {
      match h[0] {
        case Call(a) => if s.todo != [] { CallKeepsHonest(s, a); CallKeepsPast(s, a); }
        case Elsewhere(m) => MoveKeepsHonest(s, m); HonestRecords(s); MoveKeepsPast(s.c, m);
        case _ => IdleHonest(s, h[0]);
      }
      ReplayKeepsPast(Act(s, h[0]), h[1..]);
    }
  }

  lemma HonestRecords(s: Sys)
    requires HonestInv(s)
    ensures HistoryOk(s.c)
  {
  }

  /** A status can change only when the run's own last step commits it. */
  lemma OnlySaveStatusChanges(s: Sys, a: Action, x: string)
    requires x in s.c.crs && x in Act(s, a).c.crs && Act(s, a).c.crs[x].status != s.c.crs[x].status
    ensures a.Call? && s.todo != [] && s.todo[0].SaveStatus? && s.todo[0].cfg.name == x
    ensures Rv(s.c.crRv, x) == s.todo[0].cfg.rv
    ensures Act(s, a).c.crs[x] == s.c.crs[x].(status := s.todo[0].status)
  {
    hide Perform;
    match a
    case Elsewhere(m) => MoveKeepsStatus(s.c, m, x);
    case Call(answer) =>
      if s.todo != [] {
        var op := s.todo[0];
        if Reads(op) { ReadsOnly(s, answer); }
        else if op.Create? || op.Replace? { WriteEffect(s, answer); }
        else if op.Remove? { RemoveEffect(s, answer); }
        else if OnNode(op) { NodeWriteEffect(s, answer); }
        else { CrWriteStatus(s, answer, x); }
      }
    case _ =>
  }

  lemma MoveKeepsStatus(c: Store, m: Move, x: string)
    requires x in c.crs && x in ApplyMove(c, m).crs
    ensures ApplyMove(c, m).crs[x].status == c.crs[x].status
  {
    hide SettleCR;
    if (m.EditCR? || m.DeleteCR?) && m.name in c.crs {
      SettleStatus(c, m.name, if m.EditCR?
        then c.crs[m.name].(spec := m.spec, finalizers := KeepFinalizer(c.crs[m.name].finalizers, m.finalizers))
                              else c.crs[m.name].(deleting := true), x);
    }
  }

  lemma SettleStatus(c: Store, name: string, cr: FakeGPUConfig, x: string)
    requires name in c.crs && x in c.crs && x in SettleCR(c, name, cr).crs
    ensures SettleCR(c, name, cr).crs[x] == if x == name then cr else c.crs[x]
  {
  }

  lemma CrWriteStatus(s: Sys, a: Answer, x: string)
    requires s.todo != [] && (s.todo[0].SaveFinalizer? || s.todo[0].SaveStatus? || s.todo[0].DropFinalizer?)
    requires x in s.c.crs && x in Perform(s, a).c.crs
    ensures var t, cfg := Perform(s, a), s.todo[0].cfg;
      t.c.crs[x].status == s.c.crs[x].status ||
      (s.todo[0].SaveStatus? && cfg.name == x && Rv(s.c.crRv, x) == cfg.rv
       && t.c.crs[x] == s.c.crs[x].(status := s.todo[0].status))
  {
    hide SettleCR;
    var cfg, t := s.todo[0].cfg, Perform(s, a);
    if cfg.name in s.c.crs && Rv(s.c.crRv, cfg.name) == cfg.rv && a.fault != Refused {
      var finalizers := if s.todo[0].SaveFinalizer? then cfg.cr.finalizers + {FINALIZER}
        else cfg.cr.finalizers - {FINALIZER};
      SettleStatus(s.c, cfg.name,
        if s.todo[0].SaveStatus? then s.c.crs[cfg.name].(status := s.todo[0].status)
        else s.c.crs[cfg.name].(spec := cfg.cr.spec, finalizers := finalizers), x);
    }
  }

  /**
   * Status honesty. At any point of any history, if an action changes the status of a stored custom resource, then the
   * new one fits the spec stored at that very moment, which is the one the run worked with. It is available if and only
   * if it says reconciled, and then it reports that spec's GPU count and the profile it asks for; a Helm conflict or an
   * invalid profile is never available, and an invalid profile is one that spec really has.
   */
  lemma StatusHonest(s: Sys, h: seq<Action>, a: Action, x: string)
    requires HistoryOk(s.c) && s.todo == []
    requires var t := Replay(s, h); var u := Act(t, a);
      && x in t.c.crs && x in u.c.crs && u.c.crs[x].status != t.c.crs[x].status
    ensures var t := Replay(s, h); var cr := Act(t, a).c.crs[x];
      && Founded(cr.status, cr.spec)
      && t.todo != [] && t.todo[0].SaveStatus? && t.todo[0].cfg.cr.spec == cr.spec
  {
    hide Perform, Act;
    var t := Replay(s, h);
    assert HonestInv(s);
    ReplayKeepsHonest(s, h);
    OnlySaveStatusChanges(t, a, x);
    assert t.todo[0] in t.todo && OpGenuine(t.c, t.todo[0]);
    assert t.c.past[Rv(t.c.crRv, x)] == Version(x, t.c.crs[x]);
  }

  /** The same for every accepted commit, also one that leaves the status as it was. */
  lemma CommitHonest(s: Sys, h: seq<Action>, a: Answer)
    requires HistoryOk(s.c) && s.todo == []
    requires var t := Replay(s, h);
      && t.todo != [] && t.todo[0].SaveStatus? && a.fault != Refused
      && UpdateStatus(t.c, t.todo[0].cfg, t.todo[0].status).1 == Ok
    ensures var t := Replay(s, h); var x, u := t.todo[0].cfg.name, Act(t, Call(a));
      && x in t.c.crs && t.c.crs[x].spec == t.todo[0].cfg.cr.spec && Founded(t.todo[0].status, t.c.crs[x].spec)
      && (x in u.c.crs ==> u.c.crs[x] == t.c.crs[x].(status := t.todo[0].status))
  {
    hide Act, SettleCR, Founded;
    assert HonestInv(s);
    ReplayKeepsHonest(s, h);
    var t := Replay(s, h);
    var cfg, status := t.todo[0].cfg, t.todo[0].status;
    assert t.todo[0] in t.todo && OpGenuine(t.c, t.todo[0]);
    assert t.c.past[Rv(t.c.crRv, cfg.name)] == Version(cfg.name, t.c.crs[cfg.name]);
    CommitStores(t, a);
  }

  lemma CommitStores(t: Sys, a: Answer)
    requires t.todo != [] && t.todo[0].SaveStatus? && a.fault != Refused
    requires UpdateStatus(t.c, t.todo[0].cfg, t.todo[0].status).1 == Ok
    ensures var x, u := t.todo[0].cfg.name, Act(t, Call(a));
      x in t.c.crs && (x in u.c.crs ==> u.c.crs[x] == t.c.crs[x].(status := t.todo[0].status))
  {
    hide SettleCR;
    var x := t.todo[0].cfg.name;
    var cr := t.c.crs[x].(status := t.todo[0].status);
    if x in SettleCR(t.c, x, cr).crs { SettleStatus(t.c, x, cr, x); }
  }

  // ---------------------------------------------------------------- counts

  predicate CountsOk(status: Status) { status.readyNodes <= status.totalNodes }

  predicate PastCounts(c: Store) { forall v | v in c.past :: CountsOk(c.past[v].cr.status) }

  predicate OpCounts(op: Op) { op.SaveStatus? ==> CountsOk(op.status) }

  predicate CountsInv(s: Sys) {
    HonestInv(s) && PastCounts(s.c) && forall op | op in s.todo :: OpCounts(op)
  }

  lemma SettleCounts(c: Store, name: string, cr: FakeGPUConfig)
    requires PastCounts(c) && CountsOk(cr.status)
    ensures PastCounts(SettleCR(c, name, cr))
  {
  }

  lemma ReadsCount(s: Sys, a: Answer)
    requires PastCounts(s.c) && s.todo != [] && Reads(s.todo[0]) && OpGenuine(s.c, s.todo[0])
    ensures forall op | op in Perform(s, a).todo :: op in s.todo[1..] || OpCounts(op)
  {
    hide Route, ListNodes, LabelOps, ClusterKeys, SccManifests, PoolManifests, HelmSecretStored, HelmTopologyStored,
      GetCR,
      Arrange, Keys, NodeListOption, PoolLabels, Desired, ObjectNames, ResolveProfile, AfterHelm;
    match s.todo[0]
    case Begin(name) => if GetCR(s.c, name, a).0.Some? { RouteCounts(GetCR(s.c, name, a).0.value, s.memo); }
    case FindHelmSecrets(cfg) => AfterHelmCounts(s.c, cfg, s.ns, s.memo);
    case FindHelmTopology(cfg) => AfterHelmCounts(s.c, cfg, s.ns, s.memo);
    case ListSelected(cfg) => LabelOpsFacts(ListNodes(s.c, NodeListOption(cfg.name, cfg.cr.spec), a.order), cfg);
    case _ =>
  }

  lemma RouteCounts(cfg: Config, memo: Option<bool>)
    ensures forall op | op in Route(cfg, memo) :: OpCounts(op)
  {
  }

  lemma AfterHelmCounts(c: Store, cfg: Config, ns: string, memo: Option<bool>)
    requires PastCounts(c) && Genuine(c, cfg)
    ensures forall op | op in AfterHelm(cfg, ns, memo) :: OpCounts(op)
    ensures forall op | op in HelmStatus(cfg) :: OpCounts(op)
  {
    hide RbacManifests, SccManifests, WorkloadManifests, ResolveProfile;
  }

  lemma CrWriteCounts(s: Sys, a: Answer)
    requires CountsInv(s) && s.todo != []
    requires s.todo[0].SaveFinalizer? || s.todo[0].SaveStatus? || s.todo[0].DropFinalizer?
    ensures PastCounts(Perform(s, a).c) && forall op | op in Perform(s, a).todo :: op in s.todo || !op.SaveStatus?
  {
    hide SettleCR, Perform;
    var name := s.todo[0].cfg.name;
    assert s.todo[0] in s.todo;
    var cr := CrWriteShape(s, a);
    if name in s.c.crs {
      assert s.c.past[Rv(s.c.crRv, name)].cr == s.c.crs[name];
      SettleCounts(s.c, name, cr);
    }
  }

  lemma CallKeepsCounts(s: Sys, a: Answer)
    requires CountsInv(s) && s.todo != []
    ensures CountsInv(Perform(s, a))
  {
    hide Perform, HonestInv, OpGenuine, Sent, CountsOk;
    var op, t := s.todo[0], Perform(s, a);
    CallKeepsHonest(s, a);
    assert op in s.todo;
    if Reads(op) {
      ReadsOnly(s, a);
      assert OpGenuine(s.c, op) by { HeadGenuine(s); }
      ReadsCount(s, a);
    } else if op.SaveFinalizer? || op.SaveStatus? || op.DropFinalizer? {
      CrWriteCounts(s, a);
    } else if op.Create? || op.Replace? {
      WriteEffect(s, a);
    } else if op.Remove? {
      RemoveEffect(s, a);
      RemoveRest(s, a);
    } else {
      NodeWriteEffect(s, a);
    }
  }

  lemma HeadGenuine(s: Sys)
    requires HonestInv(s) && s.todo != []
    ensures OpGenuine(s.c, s.todo[0])
  {
  }

  lemma MoveKeepsCounts(c: Store, m: Move)
    requires HistoryOk(c) && PastCounts(c)
    ensures PastCounts(ApplyMove(c, m))
  {
    hide SettleCR;
    if (m.EditCR? || m.DeleteCR?) && m.name in c.crs {
      assert CountsOk(c.crs[m.name].status) by { assert c.past[Rv(c.crRv, m.name)].cr == c.crs[m.name]; }
      SettleCounts(c, m.name, if m.EditCR?
        then c.crs[m.name].(spec := m.spec, finalizers := KeepFinalizer(c.crs[m.name].finalizers, m.finalizers))
                              else c.crs[m.name].(deleting := true));
    }
  }

  lemma {:induction false} ReplayKeepsCounts(s: Sys, h: seq<Action>)
    requires CountsInv(s)
    ensures CountsInv(Replay(s, h))
    decreases |h|
  {
    hide HonestInv, Perform, PastCounts;
    if h != [] {
      match h[0] {
        case Call(a) => if s.todo != [] { CallKeepsCounts(s, a); }
        case Elsewhere(m) => MoveKeepsHonest(s, m); HonestRecords(s); MoveKeepsCounts(s.c, m);
        case _ => IdleHonest(s, h[0]);
      }
      ReplayKeepsCounts(Act(s, h[0]), h[1..]);
    }
  }

  /** Whatever interleaves, no stored status ever counts more ready nodes than nodes. */
  lemma ReadyNeverExceedsTotal(s: Sys, h: seq<Action>, x: string)
    requires HistoryOk(s.c) && PastCounts(s.c) && s.todo == []
    ensures var c := Replay(s, h).c; x in c.crs ==> c.crs[x].status.readyNodes <= c.crs[x].status.totalNodes
  {
    hide Perform, Act;
    assert HonestInv(s);
    ReplayKeepsCounts(s, h);
    var c := Replay(s, h).c;
    if x in c.crs { assert c.past[Rv(c.crRv, x)].cr == c.crs[x]; }
  }
}
