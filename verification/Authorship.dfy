/**
 * Who wrote what, in every history in which others leave the operator's keys alone: everything pending and everything
 * stored at a reserved key is as the operator writes it, so its updates never change what is immutable. And if no label
 * query of a cleanup hits an object of somebody else, its calls touch nothing of anybody else's. Reads may be stale,
 * and any call may fail.
 */
module Authorship {
  import opened Basics
  import opened Api
  import opened Resources
  import opened Naming
  import opened Cluster
  import opened Protocol
  import opened Safety
  import opened Erasure
  import opened Honesty

  /** Every object at a key of the operator's is as the operator writes it, on whatever cluster. */
  ghost predicate Neat(c: Store, ns: string) {
    forall k | k in c.objs && Reserved(ns, k) :: Authored(ns, true, k, c.objs[k])
  }

  ghost predicate PlannedNeat(ns: string, op: Op) { Puts(op) ==> Authored(ns, true, op.m.key, op.m.obj) }

  ghost predicate AllNeat(ns: string, ops: seq<Op>) {
    forall op | op in ops :: PlannedNeat(ns, op)
  }

  ghost predicate NeatInv(s: Sys) {
    Neat(s.c, s.ns) && AllNeat(s.ns, s.todo)
  }

  /** Other clients write no object of the operator's. */
  ghost predicate PutsForeign(ns: string, a: Action) {
    match a
    case Elsewhere(PutObject(k, _)) => !Reserved(ns, k)
    case _ => true
  }

  // ---------------------------------------------------------------- what is planned

  lemma FetchesNeat(ns: string, x: string, ms: seq<Manifest>)
    requires AllBelong(ns, true, x, ms)
    ensures AllNeat(ns, Fetches(x, ms))
  {
    hide AuthoredFor;
    forall i | 0 <= i < |ms| ensures Authored(ns, true, ms[i].key, ms[i].obj) {
      assert Belongs(ns, true, x, ms[i]);
    }
  }

  lemma AfterHelmNeat(cfg: Config, ns: string, memo: Option<bool>)
    ensures AllNeat(ns, AfterHelm(cfg, ns, memo))
  {
    hide RbacManifests, SccManifests, WorkloadManifests, ResolveProfile, Authored;
    if ResolveProfile(cfg.cr.spec).Some? {
      var x, p := cfg.name, ResolveProfile(cfg.cr.spec).value;
      RbacBelongs(x, ns, true);
      SccBelongs(x, ns);
      WorkloadsBelong(x, cfg.cr.spec, p, ns, true);
      FetchesNeat(ns, x, RbacManifests(x, ns));
      FetchesNeat(ns, x, SccManifests(x, ns));
      FetchesNeat(ns, x, WorkloadManifests(x, cfg.cr.spec, p, ns));
    }
  }

  lemma RouteNeat(cfg: Config, ns: string, memo: Option<bool>)
    ensures AllNeat(ns, Route(cfg, memo))
  {
    hide ClusterKeys, Authored;
  }

  lemma PoolNeat(ns: string, x: string, seen: seq<Seen>, spec: Spec, p: GPUProfile)
    ensures AllNeat(ns, Fetches(x, PoolManifests(seen, spec, p, ns)))
  {
    hide Authored, NodeTopologyConfigMap;
    forall i | 0 <= i < |seen|
      ensures var m := NodeTopologyConfigMap(seen[i].name, spec, p, ns); Authored(ns, true, m.key, m.obj) {
      NodeTopologyAuthored(seen[i].name, spec, p, ns, true);
    }
  }

  lemma PlainNeat(ns: string, ops: seq<Op>)
    requires forall op | op in ops :: !Puts(op)
    ensures AllNeat(ns, ops)
  {
  }

  /** Whatever a read plans is neat. */
  lemma ReadsNeat(s: Sys, a: Answer)
    requires Neat(s.c, s.ns) && s.todo != [] && Reads(s.todo[0]) && PlannedNeat(s.ns, s.todo[0])
    ensures forall op | op in Perform(s, a).todo :: op in s.todo[1..] || PlannedNeat(s.ns, op)
  {
    hide AfterHelm, Route, ListNodes, LabelOps, ClusterKeys, SccManifests, PoolManifests, HelmSecretStored, PlannedNeat,
      HelmTopologyStored, GetCR, Arrange, Keys, NodeListOption, PoolLabels, Desired, ObjectNames, FinalStatus, Neat;
    match s.todo[0]
    case Begin(name) =>
      if GetCR(s.c, name, a).0.Some? { RouteNeat(GetCR(s.c, name, a).0.value, s.ns, s.memo); }
    case FindHelmSecrets(cfg) => HelmNeat(s, cfg);
    case FindHelmTopology(cfg) => HelmNeat(s, cfg);
    case Probe(cfg) => ProbeNeat(s.ns, cfg, a.fault == NoFault && s.c.openShift);
    case Fetch(x, m) => SamePutNeat(s.ns, x, m, Rv(s.c.objRv, m.key));
    case ListSelected(cfg) =>
      var ops := LabelOps(ListNodes(s.c, NodeListOption(cfg.name, cfg.cr.spec), a.order), cfg);
      LabelOpsFacts(ListNodes(s.c, NodeListOption(cfg.name, cfg.cr.spec), a.order), cfg);
      PlainNeat(s.ns, ops);
    case ListPool(cfg, p) => PoolNeat(s.ns, cfg.name, ListNodes(s.c, PoolLabels(cfg.name), a.order), cfg.cr.spec, p);
    case CountNodes(cfg, p) =>
      PlainNeat(s.ns, [SaveStatus(cfg, FinalStatus(cfg.cr.status,
        ListNodes(s.c, NodeListOption(cfg.name, cfg.cr.spec), a.order), cfg.cr.spec, p))]);
    case Sweep(cfg, kind, selector) =>
      PlainNeat(s.ns, Removes(cfg, Keys(kind, s.ns, Arrange(a.order, ObjectNames(s.c, kind, s.ns, selector)))));
    case ListPooled(cfg) => PlainNeat(s.ns, UnlabelOps(ListNodes(s.c, PoolLabels(cfg.name), a.order), cfg));
    case ProbeForRemoval(cfg) =>
      PlainNeat(s.ns, Removes(cfg, ClusterKeys(cfg.name, a.fault == NoFault && s.c.openShift)));
  }

  lemma HelmNeat(s: Sys, cfg: Config)
    ensures AllNeat(s.ns, AfterHelm(cfg, s.ns, s.memo)) && AllNeat(s.ns, HelmStatus(cfg))
    ensures PlannedNeat(s.ns, FindHelmTopology(cfg))
  {
    hide AfterHelm, Authored, Reserved;
    AfterHelmNeat(cfg, s.ns, s.memo);
    PlainNeat(s.ns, HelmStatus(cfg));
    PlainNeat(s.ns, [FindHelmTopology(cfg)]);
    assert FindHelmTopology(cfg) in [FindHelmTopology(cfg)];
  }

  lemma ProbeNeat(ns: string, cfg: Config, b: bool)
    ensures AllNeat(ns, Fetches(cfg.name, Only(b, SccManifests(cfg.name, ns))))
  {
    hide SccManifests;
    SccBelongs(cfg.name, ns);
    FetchesNeat(ns, cfg.name, SccManifests(cfg.name, ns));
  }

  lemma SamePutNeat(ns: string, x: string, m: Manifest, rv: nat)
    requires PlannedNeat(ns, Fetch(x, m))
    ensures PlannedNeat(ns, Create(x, m)) && PlannedNeat(ns, Replace(x, m, rv))
  {
  }

  // ---------------------------------------------------------------- every step, every history

  /** Objects outside the operator's keys are as they were. */
  ghost predicate ForeignKept(c: Store, d: Store, ns: string) {
    forall k | !Reserved(ns, k) :: (k in d.objs <==> k in c.objs) && (k in c.objs ==> d.objs[k] == c.objs[k])
  }

  lemma CallKeepsNeat(s: Sys, a: Answer)
    requires NeatInv(s) && s.todo != []
    ensures NeatInv(Perform(s, a)) && Perform(s, a).ns == s.ns
    ensures (s.todo[0].Remove? ==> Reserved(s.ns, s.todo[0].key)) ==> ForeignKept(s.c, Perform(s, a).c, s.ns)
  {
    hide Perform, Authored, Reserved, Sent;
    var op, t := s.todo[0], Perform(s, a);
    assert op in s.todo && PlannedNeat(s.ns, op);
    NamespaceFixed(s, [Call(a)]);
    assert Replay(s, [Call(a)]) == Perform(s, a);
    if Reads(op) {
      ReadsOnly(s, a);
      ReadsNeat(s, a);
    } else if op.Create? || op.Replace? {
      WriteEffect(s, a);
      AuthoredIsReserved(s.ns, true, op.m.key, op.m.obj);
    } else if op.Remove? {
      RemoveEffect(s, a);
      RemoveRest(s, a);
    } else if OnNode(op) {
      NodeWriteEffect(s, a);
    } else {
      var cr := CrWriteShape(s, a);
      SettleEffect(s.c, op.cfg.name, cr);
    }
  }

  lemma ActKeepsNeat(s: Sys, a: Action)
    requires NeatInv(s) && PutsForeign(s.ns, a)
    ensures NeatInv(Act(s, a)) && Act(s, a).ns == s.ns
  {
    hide Perform, Authored, Reserved;
    match a
    case Call(answer) => if s.todo != [] { CallKeepsNeat(s, answer); }
    case Elsewhere(m) => MoveObjects(s.c, s.ns, m);
    case _ =>
  }

  lemma {:induction false} ReplayKeepsNeat(s: Sys, h: seq<Action>)
    requires NeatInv(s) && forall a | a in h :: PutsForeign(s.ns, a)
    ensures NeatInv(Replay(s, h)) && Replay(s, h).ns == s.ns
    decreases |h|
  {
    hide Act, NeatInv, PutsForeign;
    if h != [] {
      assert h[0] in h;
      ActKeepsNeat(s, h[0]);
      ReplayKeepsNeat(Act(s, h[0]), h[1..]);
    }
  }

  // ---------------------------------------------------------------- immutable fields

  lemma NeatFrozenAgree(c: Store, ns: string, m: Manifest)
    requires Neat(c, ns) && Authored(ns, true, m.key, m.obj) && m.key in c.objs
    ensures FrozenPart(m.key, c.objs[m.key]) == FrozenPart(m.key, m.obj)
  {
    hide Authored, Reserved, FrozenPart;
    AuthoredIsReserved(ns, true, m.key, m.obj);
    AuthoredFrozenAgree(ns, true, m.key, c.objs[m.key], m.obj);
  }

  /**
   * What cannot be changed never needs to be. In every history in which others put only objects of their own - stale
   * reads, refused calls, lost answers and restarts included - an update the operator is about to issue agrees with the
   * stored object on its selector or role reference; so with a current resourceVersion the API server accepts it.
   */
  lemma UpdatesKeepFrozen(s: Sys, h: seq<Action>)
    requires Neat(s.c, s.ns) && s.todo == [] && forall a | a in h :: PutsForeign(s.ns, a)
    requires var t := Replay(s, h); t.todo != [] && t.todo[0].Replace? && t.todo[0].m.key in t.c.objs
    ensures var t := Replay(s, h); var m := t.todo[0].m;
      && FrozenPart(m.key, t.c.objs[m.key]) == FrozenPart(m.key, m.obj)
      && (Rv(t.c.objRv, m.key) == t.todo[0].rv ==> UpdateObject(t.c, m.key, m.obj, t.todo[0].rv).1 == Ok)
  {
    hide Act, Authored, Neat, PutsForeign, FrozenPart;
    ReplayKeepsNeat(s, h);
    var t := Replay(s, h);
    assert t.todo[0] in t.todo && PlannedNeat(t.ns, t.todo[0]);
    NeatFrozenAgree(t.c, t.ns, t.todo[0].m);
  }

  // ---------------------------------------------------------------- what is to be removed

  ghost predicate RemovesOnlyOwn(ns: string, ops: seq<Op>) {
    forall op | op in ops && op.Remove? :: Reserved(ns, op.key)
  }

  lemma RemovesOwned(ns: string, cfg: Config, keys: seq<Key>)
    requires forall k | k in keys :: Reserved(ns, k)
    ensures RemovesOnlyOwn(ns, Removes(cfg, keys))
  {
    hide Reserved;
  }

  lemma RouteOwned(cfg: Config, ns: string, memo: Option<bool>)
    ensures RemovesOnlyOwn(ns, Route(cfg, memo))
  {
    hide ClusterKeys, Reserved, Removes;
    if memo.Some? {
      ClusterKeysReserved(ns, cfg.name, memo.value);
      RemovesOwned(ns, cfg, ClusterKeys(cfg.name, memo.value));
    }
  }

  lemma SweepOwned(s: Sys, a: Answer)
    requires s.todo != [] && s.todo[0].Sweep? && SweepsOwn(s)
    ensures var op := s.todo[0];
      RemovesOnlyOwn(s.ns, Removes(op.cfg, Keys(op.kind, s.ns, Arrange(a.order,
        ObjectNames(s.c, op.kind, s.ns, op.selector)))))
  {
    hide Reserved;
    var op := s.todo[0];
    var names := Arrange(a.order, ObjectNames(s.c, op.kind, s.ns, op.selector));
    forall i | 0 <= i < |names| ensures Reserved(s.ns, Key(op.kind, s.ns, names[i])) {
      assert names[i] in ObjectNames(s.c, op.kind, s.ns, op.selector);
      assert Key(op.kind, s.ns, names[i]) in s.c.objs;
    }
    RemovesOwned(s.ns, op.cfg, Keys(op.kind, s.ns, names));
  }

  /** Whatever a call adds to what is to be removed is the operator's. */
  lemma CallKeepsOwned(s: Sys, a: Answer)
    requires RemovesOnlyOwn(s.ns, s.todo) && s.todo != [] && SweepsOwn(s)
    ensures RemovesOnlyOwn(s.ns, Perform(s, a).todo)
  {
    hide Perform, Reserved;
    var op, t := s.todo[0], Perform(s, a);
    if op.Begin? || op.Sweep? || op.ProbeForRemoval? {
      RemovalPlans(s, a);
    } else {
      forall later | later in t.todo && later.Remove? ensures later in s.todo { RemovesNotPlanned(s, a, later); }
    }
  }

  lemma RemovalPlans(s: Sys, a: Answer)
    requires RemovesOnlyOwn(s.ns, s.todo) && s.todo != [] && SweepsOwn(s)
    requires s.todo[0].Begin? || s.todo[0].Sweep? || s.todo[0].ProbeForRemoval?
    ensures RemovesOnlyOwn(s.ns, Perform(s, a).todo)
  {
    hide Route, ClusterKeys, GetCR, Arrange, Keys, ObjectNames, Reserved, Removes, SweepsOwn;
    match s.todo[0]
    case Begin(name) =>
      if GetCR(s.c, name, a).0.Some? { RouteOwned(GetCR(s.c, name, a).0.value, s.ns, s.memo); }
    case Sweep(cfg, _, _) => SweepOwned(s, a);
    case ProbeForRemoval(cfg) =>
      var b := a.fault == NoFault && s.c.openShift;
      ClusterKeysReserved(s.ns, cfg.name, b);
      RemovesOwned(s.ns, cfg, ClusterKeys(cfg.name, b));
  }

  lemma RemovesNotPlanned(s: Sys, a: Answer, later: Op)
    requires s.todo != [] && !s.todo[0].Begin? && !s.todo[0].Sweep? && !s.todo[0].ProbeForRemoval?
    requires later in Perform(s, a).todo && later.Remove?
    ensures later in s.todo
  {
    hide AfterHelm, ListNodes, LabelOps, SccManifests, PoolManifests, HelmSecretStored, HelmTopologyStored,
      NodeListOption, PoolLabels, Desired, FinalStatus;
    if s.todo[0].FindHelmSecrets? || s.todo[0].FindHelmTopology? {
      AfterHelmApplies(s.todo[0].cfg, s.ns, s.memo);
    } else if s.todo[0].ListSelected? {
      var cfg := s.todo[0].cfg;
      LabelOpsFacts(ListNodes(s.c, NodeListOption(cfg.name, cfg.cr.spec), a.order), cfg);
    }
  }

  lemma AfterHelmApplies(cfg: Config, ns: string, memo: Option<bool>)
    ensures Applying(AfterHelm(cfg, ns, memo))
  {
    hide RbacManifests, SccManifests, WorkloadManifests, ResolveProfile;
  }

  /** Others write no object of the operator's, and no label query of a cleanup hits one of theirs. */
  ghost predicate Courteous(s: Sys, a: Action) {
    PutsForeign(s.ns, a) && (a.Call? && s.todo != [] ==> SweepsOwn(s))
  }

  ghost predicate CourteousHistory(s: Sys, h: seq<Action>)
    decreases |h|
  {
    h == [] || (Courteous(s, h[0]) && CourteousHistory(Act(s, h[0]), h[1..]))
  }

  lemma {:induction false} ReplayKeepsOwned(s: Sys, h: seq<Action>)
    requires NeatInv(s) && RemovesOnlyOwn(s.ns, s.todo) && CourteousHistory(s, h)
    ensures var t := Replay(s, h); NeatInv(t) && RemovesOnlyOwn(t.ns, t.todo) && t.ns == s.ns
    decreases |h|
  {
    hide Perform, NeatInv, SweepsOwn, Reserved;
    if h != [] {
      ActKeepsNeat(s, h[0]);
      if h[0].Call? && s.todo != [] { CallKeepsOwned(s, h[0].answer); }
      ReplayKeepsOwned(Act(s, h[0]), h[1..]);
    }
  }
}
