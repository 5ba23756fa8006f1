/**
 * No trace: what the operator does is invisible outside its own keys and its own labels, and once no custom resource
 * is held the cluster is exactly what the other clients alone would have made of it.
 */
module Erasure {
  import opened Basics
  import opened Api
  import opened Resources
  import opened Naming
  import opened Cluster
  import opened Protocol
  import opened Safety

  // ---------------------------------------------------------------- label loop

  lemma DesiredNonEmpty(name: string, spec: Spec)
    requires name != ""
    ensures forall k | k in DesiredLabels(name, spec) :: DesiredLabels(name, spec)[k] != ""
  {
  }

  /** For a named custom resource the label loop merges the desired labels into the node's. */
  lemma RelabelMerges(l: Labels, name: string, spec: Spec)
    requires name != ""
    ensures Relabel(l, DesiredLabels(name, spec)) == l + DesiredLabels(name, spec)
    ensures NeedsUpdate(l, DesiredLabels(name, spec)) <==> l + DesiredLabels(name, spec) != l
  {
    hide DesiredLabels;
    var d := DesiredLabels(name, spec);
    var wrong := WrongLabels(l, d);
    DesiredNonEmpty(name, spec);
    assert forall k | k in d && k !in wrong :: k in l && l[k] == d[k];
    assert l + wrong == l + d;
    if k :| k in wrong {
      assert (l + d)[k] == d[k] != Read(l, k);
    }
    if wrong == map[] { assert l + wrong == l; }
  }

  /** With an empty name the loop cannot tell a missing pool label from the desired one. */
  lemma RelabelUnnamed(l: Labels, spec: Spec)
    ensures Relabel(l, DesiredLabels("", spec)) == l + DesiredLabels("", spec) <==> NodePool in l
  {
    var d := DesiredLabels("", spec);
    var wrong := WrongLabels(l, d);
    assert NodePool in d && d[NodePool] == "";
    if NodePool in l {
      assert forall k | k in d && k !in wrong :: k in l && l[k] == d[k];
      assert l + wrong == l + d;
    } else {
      assert NodePool !in wrong;
      assert NodePool in l + d;
    }
  }

  lemma DesiredManaged(name: string, spec: Spec)
    ensures DesiredLabels(name, spec).Keys <= MANAGED
    ensures NodePool in DesiredLabels(name, spec) && DesiredLabels(name, spec)[NodePool] == name
  {
  }

  // ---------------------------------------------------------------- the node invariant

  predicate Managed(l: Labels) {
    exists k | k in MANAGED :: k in l
  }

  /** A node with any managed label is in the pool of a held custom resource. */
  ghost predicate NodesHeld(c: Store) {
    forall n | n in c.nodes && Managed(c.nodes[n]) :: NodePool in c.nodes[n] && Held(c, c.nodes[n][NodePool])
  }

  /** A listed node is as it was listed unless its resourceVersion moved on. */
  predicate SeenOk(c: Store, seen: Seen) {
    && seen.rv <= c.rev
    && (seen.name in c.nodes && Rv(c.nodeRv, seen.name) == seen.rv ==> c.nodes[seen.name] == seen.labels)
  }

  predicate SeenAll(c: Store, todo: seq<Op>) {
    forall op | op in todo && (op.LabelNode? || op.UnlabelNode?) :: SeenOk(c, op.seen)
  }

  predicate RvBound(c: Store) {
    && "" !in c.crs
    && forall n | n in c.nodes :: Rv(c.nodeRv, n) <= c.rev
  }

  predicate Unlabels(op: Op, n: string) {
    op.ListPooled? || (op.UnlabelNode? && op.seen.name == n)
  }

  ghost predicate NodesCovered(c: Store, todo: seq<Op>) {
    Cleaning(todo) ==>
      forall n | n in c.nodes && NodePool in c.nodes[n] && c.nodes[n][NodePool] == todo[|todo| - 1].cfg.name ::
        exists op :: op in todo && Unlabels(op, n)
  }

  ghost predicate NodeInv(s: Sys) {
    RvBound(s.c) && NodesHeld(s.c) && SeenAll(s.c, s.todo) && NodesCovered(s.c, s.todo)
  }

  predicate KeepsManaged(c: Store, n: string, l: Labels) {
    forall k | k in MANAGED ::
      (k in l <==> n in c.nodes && k in c.nodes[n]) && (k in l ==> l[k] == c.nodes[n][k])
  }

  /** Others leave the managed labels alone, and no unlabelling is refused. */
  predicate FairToNodes(s: Sys, a: Action) {
    match a
    case Elsewhere(PutNode(n, l)) => KeepsManaged(s.c, n, l)
    case Call(answer) => s.todo != [] && s.todo[0].UnlabelNode? ==> CleanupReply(s, answer) != Rejected
    case _ => true
  }

  ghost predicate FairToNodesHistory(s: Sys, h: seq<Action>)
    decreases |h|
  {
    h == [] || (FairToNodes(s, h[0]) && FairToNodesHistory(Act(s, h[0]), h[1..]))
  }

  // ---------------------------------------------------------------- what the operator cannot see or touch

  datatype World = World(objs: map<Key, Object>, nodes: map<string, Labels>)

  /** The cluster without the operator's objects and labels. */
  ghost function Bare(c: Store, ns: string): World {
    World(map k | k in c.objs && !Reserved(ns, k) :: c.objs[k], map n | n in c.nodes :: c.nodes[n] - MANAGED)
  }

  function MoveWorld(w: World, m: Move): World {
    match m
    case PutNode(n, l) => w.(nodes := w.nodes[n := l - MANAGED])
    case RemoveNode(n) => w.(nodes := w.nodes - {n})
    case PutObject(k, o) => w.(objs := w.objs[k := o])
    case RemoveObject(k) => w.(objs := w.objs - {k})
    case _ => w
  }

  /** What the other clients' part of a history does to a world without the operator. */
  function Others(w: World, h: seq<Action>): World
    decreases |h|
  {
    if h == [] then w
    else Others(match h[0] case Elsewhere(m) => MoveWorld(w, m) case _ => w, h[1..])
  }

  // ---------------------------------------------------------------- one step

  /** The node part of a step: the same objects and custom resources as far as the node invariant sees. */
  lemma NodesUntouched(s: Sys, t: Sys)
    requires NodeInv(s) && t.c.nodes == s.c.nodes && t.c.nodeRv == s.c.nodeRv && t.c.rev >= s.c.rev
    requires "" !in t.c.crs && HeldGrows(s.c, t.c)
    ensures RvBound(t.c) && NodesHeld(t.c) && SeenAll(t.c, s.todo)
    ensures NodesCovered(t.c, s.todo)
  {
  }

  lemma ObserveSeen(c: Store, selector: Labels, order: seq<string>)
    requires RvBound(c)
    ensures forall seen | seen in ListNodes(c, selector, order) ::
      SeenOk(c, seen) && seen.name in c.nodes && c.nodes[seen.name] == seen.labels
      && Rv(c.nodeRv, seen.name) == seen.rv && Matches(selector, seen.labels)
    ensures forall n | n in c.nodes && Matches(selector, c.nodes[n]) ::
      exists seen :: seen in ListNodes(c, selector, order) && seen.name == n
  {
    var names := Arrange(order, NodeNames(c, selector));
    var list := ListNodes(c, selector, order);
    forall i | 0 <= i < |list| ensures list[i].name in c.nodes && Matches(selector, list[i].labels) {
      assert names[i] in NodeNames(c, selector);
    }
    forall n | n in c.nodes && Matches(selector, c.nodes[n]) ensures exists seen :: seen in list && seen.name == n {
      assert n in NodeNames(c, selector);
      var i :| 0 <= i < |names| && names[i] == n;
      assert list[i] in list && list[i].name == n;
    }
  }

  lemma NodeStep(s: Sys, t: Sys, ops: seq<Op>)
    requires NodeInv(s) && s.todo != [] && t.c.nodes == s.c.nodes && t.c.nodeRv == s.c.nodeRv && t.c.rev >= s.c.rev
    requires "" !in t.c.crs && HeldGrows(s.c, t.c)
    requires t.todo == ops + s.todo[1..] || t.todo == []
    requires forall op | op in ops && (op.LabelNode? || op.UnlabelNode?) :: SeenOk(s.c, op.seen)
    requires Cleaning(t.todo) ==> Cleaning(s.todo) && !s.todo[0].DropFinalizer?
    requires Cleaning(s.todo) ==> !s.todo[0].UnlabelNode?
    requires s.todo[0].ListPooled? ==>
      forall n | n in s.c.nodes && NodePool in s.c.nodes[n] && s.c.nodes[n][NodePool] == s.todo[0].cfg.name ::
        exists op :: op in ops && Unlabels(op, n)
    ensures NodeInv(t)
  {
  }

  lemma CleaningEnds(todo: seq<Op>)
    requires Cleaning(todo)
    ensures todo != [] && todo[|todo| - 1].DropFinalizer?
    ensures !todo[0].DropFinalizer? ==> |todo| >= 2 && todo[0].cfg == todo[|todo| - 1].cfg && Cleanup(todo[0])
    ensures todo[0].DropFinalizer? ==> |todo| == 1
  {
  }

  predicate Reads(op: Op) {
    op.Begin? || op.FindHelmSecrets? || op.FindHelmTopology? || op.Probe? || op.Fetch? || op.ListSelected?
    || op.ListPool? || op.CountNodes? || op.Sweep? || op.ListPooled? || op.ProbeForRemoval?
  }

  /** Reading changes nothing stored. */
  lemma ReadsOnly(s: Sys, a: Answer)
    requires s.todo != [] && Reads(s.todo[0])
    ensures Perform(s, a).c == s.c
  {
    hide AfterHelm, Route, ListNodes, LabelOps, ClusterKeys, SccManifests, PoolManifests, HelmSecretStored,
      HelmTopologyStored, HelmStatus, FinalStatus, GetCR, Fetches, Removes, UnlabelOps, Arrange, Keys, NodeListOption,
      PoolLabels, Desired;
  }

  predicate OnNode(op: Op) { op.LabelNode? || op.UnlabelNode? }

  lemma AfterHelmOffNodes(cfg: Config, ns: string, memo: Option<bool>)
    ensures forall op | op in AfterHelm(cfg, ns, memo) :: !OnNode(op)
  {
    hide RbacManifests, SccManifests, WorkloadManifests;
  }

  lemma RouteOffNodes(cfg: Config, memo: Option<bool>)
    ensures forall op | op in Route(cfg, memo) :: !OnNode(op)
  {
  }

  /** Reads other than node lists put no operation on a node in front. */
  lemma ReadPlans(s: Sys, a: Answer) returns (ops: seq<Op>)
    requires s.todo != [] && Reads(s.todo[0]) && !s.todo[0].ListSelected? && !s.todo[0].ListPooled?
    ensures Perform(s, a).todo == ops + s.todo[1..] || Perform(s, a).todo == []
    ensures forall op | op in ops :: !OnNode(op)
    ensures s.todo[0].Begin? && Perform(s, a).todo != [] ==> exists cfg :: ops == Route(cfg, s.memo)
  {
    hide AfterHelm, Route, ListNodes, LabelOps, ClusterKeys, SccManifests, PoolManifests, HelmSecretStored,
      HelmTopologyStored, FinalStatus, GetCR, Arrange, Keys, NodeListOption, PoolLabels, Desired, ObjectNames;
    var op, rest := s.todo[0], s.todo[1..];
    match op
    case Begin(name) =>
      ops := [];
      if GetCR(s.c, name, a).0.Some? {
        var cfg := GetCR(s.c, name, a).0.value;
        RouteOffNodes(cfg, s.memo);
        ops := Route(cfg, s.memo);
      }
    case FindHelmSecrets(cfg) =>
      AfterHelmOffNodes(cfg, s.ns, s.memo);
      ops := if a.fault != NoFault then AfterHelm(cfg, s.ns, s.memo)
             else if HelmSecretStored(s.c) then HelmStatus(cfg) else [FindHelmTopology(cfg)];
    case FindHelmTopology(cfg) =>
      AfterHelmOffNodes(cfg, s.ns, s.memo);
      ops := if a.fault == NoFault && HelmTopologyStored(s.c) then HelmStatus(cfg) else AfterHelm(cfg, s.ns, s.memo);
    case Probe(cfg) =>
      ops := Fetches(cfg.name, Only(a.fault == NoFault && s.c.openShift, SccManifests(cfg.name, s.ns)));
    case Fetch(x, m) =>
      ops := if m.key in s.c.objs then [Replace(x, m, Rv(s.c.objRv, m.key))] else [Create(x, m)];
    case ListPool(cfg, p) =>
      ops := Fetches(cfg.name, PoolManifests(ListNodes(s.c, PoolLabels(cfg.name), a.order), cfg.cr.spec, p, s.ns));
    case CountNodes(cfg, p) =>
      ops := [SaveStatus(cfg,
        FinalStatus(cfg.cr.status, ListNodes(s.c, NodeListOption(cfg.name, cfg.cr.spec), a.order), cfg.cr.spec, p))];
    case Sweep(cfg, kind, selector) =>
      ops := if a.fault != NoFault then []
        else Removes(cfg, Keys(kind, s.ns, Arrange(a.order, ObjectNames(s.c, kind, s.ns, selector))));
    case ProbeForRemoval(cfg) =>
      ops := Removes(cfg, ClusterKeys(cfg.name, a.fault == NoFault && s.c.openShift));
    case _ => ops := [];
  }

  lemma NamedStays(c: Store, name: string, cr: FakeGPUConfig)
    requires "" !in c.crs && name in c.crs
    ensures "" !in SettleCR(c, name, cr).crs
  {
  }

  lemma CrWriteEffect(s: Sys, a: Answer)
    requires s.todo != [] && "" !in s.c.crs
    requires s.todo[0].SaveFinalizer? || s.todo[0].SaveStatus? || s.todo[0].DropFinalizer?
    ensures var t := Perform(s, a);
      OnlyCR(s.c, t.c, s.todo[0].cfg.name) && "" !in t.c.crs
      && (t.todo == [] || exists cfg :: t.todo == [FindHelmSecrets(cfg)] + s.todo[1..])
  {
    hide SettleCR, OnlyCR;
    var cfg := s.todo[0].cfg;
    if s.todo[0].SaveStatus? {
      if cfg.name in s.c.crs {
        var cr := s.c.crs[cfg.name].(status := s.todo[0].status);
        SettleEffect(s.c, cfg.name, cr);
        NamedStays(s.c, cfg.name, cr);
      }
    } else {
      var finalizers := if s.todo[0].SaveFinalizer? then cfg.cr.finalizers + {FINALIZER}
        else cfg.cr.finalizers - {FINALIZER};
      if cfg.name in s.c.crs {
        var cr := s.c.crs[cfg.name].(spec := cfg.cr.spec, finalizers := finalizers);
        SettleEffect(s.c, cfg.name, cr);
        NamedStays(s.c, cfg.name, cr);
      }
    }
    assert OnlyCR(s.c, s.c, cfg.name) by { OnlyCRSelf(s.c, cfg.name); }
  }

  lemma OnlyCRSelf(c: Store, name: string)
    ensures OnlyCR(c, c, name)
  {
  }

  lemma ShapeFacts(s: Sys)
    requires Inv(s) && s.todo != []
    ensures Cleanup(s.todo[0]) ==> Cleaning(s.todo)
    ensures !Cleanup(s.todo[0]) && !s.todo[0].Begin? ==> Applying(s.todo) && !Cleaning(s.todo)
    ensures s.todo[0].Begin? ==> |s.todo| == 1 && !Cleaning(s.todo)
    ensures Cleaning(s.todo) && s.todo[0].DropFinalizer? ==> |s.todo| == 1
  {
  }

  lemma GetKeepsNodeInv(s: Sys, a: Answer)
    requires Inv(s) && NodeInv(s) && s.todo != [] && s.todo[0].Begin?
    ensures NodeInv(Perform(s, a))
  {
    hide Inv, NodesHeld, Perform, Route, ApplyProgram;
    ShapeFacts(s);
    var t := Perform(s, a);
    ReadsOnly(s, a);
    var ops := ReadPlans(s, a);
    assert t.todo == ops || t.todo == [];
    if Cleaning(t.todo) {
      var cfg :| ops == Route(cfg, s.memo);
      RouteCleaning(cfg, s.memo);
      assert ListPooled(cfg) in t.todo;
    }
  }

  lemma RouteCleaning(cfg: Config, memo: Option<bool>)
    requires Cleaning(Route(cfg, memo))
    ensures ListPooled(cfg) in Route(cfg, memo) && cfg.cr.deleting
  {
  }

  lemma ReadKeepsNodeInv(s: Sys, a: Answer)
    requires Inv(s) && NodeInv(s) && s.todo != [] && Fair(s, Call(a))
    requires Reads(s.todo[0]) && !s.todo[0].Begin? && !s.todo[0].ListSelected? && !s.todo[0].ListPooled?
    ensures NodeInv(Perform(s, a))
  {
    hide Inv, NodesHeld, Perform, NodeInv;
    ShapeFacts(s);
    ReadsOnly(s, a);
    var ops := ReadPlans(s, a);
    CallKeepsInv(s, a);
    if Applying(s.todo) { ApplyingIsNotCleaning(Perform(s, a).todo); }
    assert "" !in s.c.crs by { NodeInvNamed(s); }
    NodeStep(s, Perform(s, a), ops);
  }

  lemma NodeInvNamed(s: Sys)
    requires NodeInv(s)
    ensures "" !in s.c.crs && RvBound(s.c)
  {
  }

  lemma ListSelectedKeepsNodeInv(s: Sys, a: Answer)
    requires Inv(s) && NodeInv(s) && s.todo != [] && s.todo[0].ListSelected? && Fair(s, Call(a))
    ensures NodeInv(Perform(s, a))
  {
    hide Inv, NodesHeld, ListNodes;
    ShapeFacts(s);
    CallKeepsInv(s, a);
    ApplyingIsNotCleaning(Perform(s, a).todo);
    var cfg := s.todo[0].cfg;
    var selector := NodeListOption(cfg.name, cfg.cr.spec);
    ObserveSeen(s.c, selector, a.order);
    LabelOpsFacts(ListNodes(s.c, selector, a.order), cfg);
    NodeStep(s, Perform(s, a), LabelOps(ListNodes(s.c, selector, a.order), cfg));
  }

  lemma ListPooledKeepsNodeInv(s: Sys, a: Answer)
    requires Inv(s) && NodeInv(s) && s.todo != [] && s.todo[0].ListPooled?
    ensures NodeInv(Perform(s, a))
  {
    hide Inv, NodesHeld, ListNodes;
    ShapeFacts(s);
    var cfg := s.todo[0].cfg;
    var seen := ListNodes(s.c, PoolLabels(cfg.name), a.order);
    var ops := UnlabelOps(seen, cfg);
    ObserveSeen(s.c, PoolLabels(cfg.name), a.order);
    forall n | n in s.c.nodes && NodePool in s.c.nodes[n] && s.c.nodes[n][NodePool] == cfg.name
      ensures exists op :: op in ops && Unlabels(op, n)
    {
      assert Matches(PoolLabels(cfg.name), s.c.nodes[n]);
      var one :| one in seen && one.name == n;
      var i :| 0 <= i < |seen| && seen[i] == one;
      assert ops[i] in ops && Unlabels(ops[i], n);
    }
    NodeStep(s, Perform(s, a), ops);
  }

  lemma WriteKeepsNodeInv(s: Sys, a: Answer)
    requires Inv(s) && NodeInv(s) && s.todo != [] && (s.todo[0].Create? || s.todo[0].Replace?)
    ensures NodeInv(Perform(s, a))
  {
    hide Perform, NodesHeld;
    WriteEffect(s, a);
    WriteKeepsInv(s, a);
    ApplyingIsNotCleaning(Perform(s, a).todo);
    assert !Cleaning(s.todo) by { ShapeFacts(s); }
    assert [] + s.todo[1..] == s.todo[1..];
    NodeStep(s, Perform(s, a), []);
  }

  lemma RemoveKeepsNodeInv(s: Sys, a: Answer)
    requires Inv(s) && NodeInv(s) && s.todo != [] && s.todo[0].Remove?
    ensures NodeInv(Perform(s, a))
  {
    hide Inv, NodesHeld;
    ShapeFacts(s);
    NodeStep(s, Perform(s, a), []);
  }

  lemma CrWriteKeepsNodeInv(s: Sys, a: Answer)
    requires Inv(s) && NodeInv(s) && s.todo != [] && (s.todo[0].SaveFinalizer? || s.todo[0].SaveStatus?)
    ensures NodeInv(Perform(s, a))
  {
    hide Perform, Inv, NodesHeld;
    var t := Perform(s, a);
    CrWriteEffect(s, a);
    assert HeldGrows(s.c, t.c) by { CrWriteHeld(s, a); }
    ShapeFacts(s);
    if t.todo != [] {
      var cfg :| t.todo == [FindHelmSecrets(cfg)] + s.todo[1..];
      assert FindHelmSecrets(cfg) == t.todo[0];
      assert !Cleaning(t.todo) by { if |t.todo| == 1 { } else { assert !Cleanup(t.todo[0]); } }
      NodeStep(s, t, [FindHelmSecrets(cfg)]);
    } else {
      NodeStep(s, t, []);
    }
  }

  lemma CrWriteHeld(s: Sys, a: Answer)
    requires s.todo != [] && (s.todo[0].SaveFinalizer? || s.todo[0].SaveStatus?)
    ensures HeldGrows(s.c, Perform(s, a).c)
  {
    hide SettleCR;
    if s.todo[0].SaveStatus? {
      SaveStatusEffect(s, a);
    } else {
      var cfg := s.todo[0].cfg;
      forall x | Held(s.c, x) && cfg.name in s.c.crs
        ensures Held(SettleCR(s.c, cfg.name,
          s.c.crs[cfg.name].(spec := cfg.cr.spec, finalizers := cfg.cr.finalizers + {FINALIZER})), x)
      {
        SettleHeld(s.c, cfg.name,
          s.c.crs[cfg.name].(spec := cfg.cr.spec, finalizers := cfg.cr.finalizers + {FINALIZER}), x);
      }
    }
  }

  /** Unlabelling is complete before the finalizer goes. */
  lemma DropFinalizerKeepsNodeInv(s: Sys, a: Answer)
    requires Inv(s) && NodeInv(s) && s.todo != [] && s.todo[0].DropFinalizer?
    ensures NodeInv(Perform(s, a))
  {
    hide Perform, Inv;
    ShapeFacts(s);
    var cfg, t := s.todo[0].cfg, Perform(s, a);
    CrWriteEffect(s, a);
    DropFinalizerEffect(s, a);
    forall n | n in t.c.nodes && Managed(t.c.nodes[n])
      ensures NodePool in t.c.nodes[n] && Held(t.c, t.c.nodes[n][NodePool])
    {
      assert !exists op :: op in s.todo && Unlabels(op, n);
    }
  }

  // ---------------------------------------------------------------- writing a node

  /** The labels a node operation sends. */
  function Sent(op: Op): Labels
    requires OnNode(op)
  {
    if op.LabelNode? then Relabel(op.seen.labels, Desired(op.cfg)) else op.seen.labels - MANAGED
  }

  lemma NodeWriteEffect(s: Sys, a: Answer)
    requires s.todo != [] && OnNode(s.todo[0])
    ensures var t, n := Perform(s, a), s.todo[0].seen.name;
      && (t.todo == s.todo[1..] || (s.todo[0].LabelNode? && t.todo == []))
      && t.ns == s.ns && t.memo == s.memo
      && (t.c == s.c || t.c == StoreNode(s.c, n, Sent(s.todo[0])))
      && (t.c != s.c ==> n in s.c.nodes && Rv(s.c.nodeRv, n) == s.todo[0].seen.rv && a.fault != Refused)
    ensures var t, n := Perform(s, a), s.todo[0].seen.name;
      s.todo[0].UnlabelNode? && CleanupReply(s, a) != Rejected && n in s.c.nodes ==>
        n in t.c.nodes && t.c.nodes[n] == Sent(s.todo[0])
    ensures s.todo[0].UnlabelNode? && CleanupReply(s, a) != Rejected && s.todo[0].seen.name in s.c.nodes ==>
      Rv(s.c.nodeRv, s.todo[0].seen.name) == s.todo[0].seen.rv
  {
    hide Relabel, Desired;
    assert [] + s.todo[1..] == s.todo[1..];
  }

  lemma SentKeepsRest(op: Op)
    requires OnNode(op) && (op.LabelNode? ==> op.cfg.name != "")
    ensures Sent(op) - MANAGED == op.seen.labels - MANAGED
    ensures op.LabelNode? ==> NodePool in Sent(op) && Sent(op)[NodePool] == op.cfg.name
    ensures op.UnlabelNode? ==> !Managed(Sent(op))
  {
    if op.LabelNode? {
      RelabelMerges(op.seen.labels, op.cfg.name, op.cfg.cr.spec);
      DesiredManaged(op.cfg.name, op.cfg.cr.spec);
    }
  }

  lemma StoreNodeSeen(c: Store, n: string, l: Labels, todo: seq<Op>)
    requires SeenAll(c, todo) && RvBound(c)
    ensures SeenAll(StoreNode(c, n, l), todo) && RvBound(StoreNode(c, n, l))
  {
  }

  lemma LabelKeepsNodeInv(s: Sys, a: Answer)
    requires Inv(s) && NodeInv(s) && s.todo != [] && s.todo[0].LabelNode?
    ensures NodeInv(Perform(s, a))
  {
    hide Perform, Sent;
    var op, t := s.todo[0], Perform(s, a);
    assert OpOk(s.c, s.ns, op) && op in s.todo;
    NodeWriteEffect(s, a);
    SentKeepsRest(op);
    StoreNodeSeen(s.c, op.seen.name, Sent(op), s.todo);
    NodeWriteKeepsInv(s, a);
    ApplyingIsNotCleaning(t.todo);
  }

  lemma UnlabelKeepsNodeInv(s: Sys, a: Answer)
    requires Inv(s) && NodeInv(s) && s.todo != [] && s.todo[0].UnlabelNode? && CleanupReply(s, a) != Rejected
    ensures NodeInv(Perform(s, a))
  {
    hide Perform, Sent, Inv, Cleaning, CleanupReply;
    var op, t := s.todo[0], Perform(s, a);
    NodeWriteEffect(s, a);
    SentKeepsRest(op);
    StoreNodeSeen(s.c, op.seen.name, Sent(op), s.todo);
    ShapeFacts(s);
    CleaningEnds(s.todo);
    assert t.todo[|t.todo| - 1] == s.todo[|s.todo| - 1];
    assert op.seen.name in t.c.nodes ==> !Managed(t.c.nodes[op.seen.name]);
    forall n | n in t.c.nodes && NodePool in t.c.nodes[n] && t.c.nodes[n][NodePool] == op.cfg.name
      ensures exists op' :: op' in t.todo && Unlabels(op', n)
    {
      assert n != op.seen.name;
      var op' :| op' in s.todo && Unlabels(op', n);
      assert op' in t.todo;
    }
  }

  lemma CallKeepsNodeInv(s: Sys, a: Answer)
    requires Inv(s) && NodeInv(s) && s.todo != [] && Fair(s, Call(a)) && FairToNodes(s, Call(a))
    ensures NodeInv(Perform(s, a))
  {
    hide Perform, Inv, NodeInv, CleanupReply;
    var op := s.todo[0];
    if op.Begin? { GetKeepsNodeInv(s, a); }
    else if op.ListSelected? { ListSelectedKeepsNodeInv(s, a); }
    else if op.ListPooled? { ListPooledKeepsNodeInv(s, a); }
    else if Reads(op) { ReadKeepsNodeInv(s, a); }
    else if op.Create? || op.Replace? { WriteKeepsNodeInv(s, a); }
    else if op.Remove? { RemoveKeepsNodeInv(s, a); }
    else if op.LabelNode? { LabelKeepsNodeInv(s, a); }
    else if op.UnlabelNode? { UnlabelKeepsNodeInv(s, a); }
    else if op.DropFinalizer? { DropFinalizerKeepsNodeInv(s, a); }
    else { CrWriteKeepsNodeInv(s, a); }
  }

  lemma MoveKeepsNodeInv(s: Sys, m: Move)
    requires NodeInv(s) && FairToNodes(s, Elsewhere(m))
    ensures NodeInv(Act(s, Elsewhere(m)))
  {
    hide Perform, Cleaning;
    MoveHeld(s.c, m);
    if m.PutNode? || m.RemoveNode? {
      NodeMoveKeepsNodeInv(s, m);
    } else {
      hide NodesHeld, NodesCovered, SeenAll;
      if m.EditCR? || m.DeleteCR? { CrMoveKeepsNodes(s.c, m); }
      NodesUntouched(s, Act(s, Elsewhere(m)));
    }
  }

  lemma NodeMoveKeepsNodeInv(s: Sys, m: Move)
    requires NodeInv(s) && FairToNodes(s, Elsewhere(m)) && (m.PutNode? || m.RemoveNode?)
    ensures NodeInv(Act(s, Elsewhere(m)))
  {
    hide Perform, Cleaning;
    if m.PutNode? { StoreNodeSeen(s.c, m.node, m.labels, s.todo); }
  }

  lemma CrMoveKeepsNodes(c: Store, m: Move)
    requires (m.EditCR? || m.DeleteCR?) && "" !in c.crs
    ensures var d := ApplyMove(c, m); d.nodes == c.nodes && d.nodeRv == c.nodeRv && d.rev >= c.rev && "" !in d.crs
  {
    hide SettleCR;
    if m.name in c.crs {
      var cr := if m.EditCR?
        then c.crs[m.name].(spec := m.spec, finalizers := KeepFinalizer(c.crs[m.name].finalizers, m.finalizers))
                else c.crs[m.name].(deleting := true);
      SettleEffect(c, m.name, cr);
      NamedStays(c, m.name, cr);
    }
  }

  // ---------------------------------------------------------------- erasure

  lemma BareSame(c: Store, d: Store, ns: string)
    requires forall k | !Reserved(ns, k) :: (k in c.objs <==> k in d.objs) && (k in c.objs ==> c.objs[k] == d.objs[k])
    requires c.nodes.Keys == d.nodes.Keys && forall n | n in c.nodes :: c.nodes[n] - MANAGED == d.nodes[n] - MANAGED
    ensures Bare(c, ns) == Bare(d, ns)
  {
  }

  /** No call of the operator changes anything outside its own keys and labels. */
  lemma CallInvisible(s: Sys, a: Answer)
    requires Inv(s) && NodeInv(s) && s.todo != []
    ensures Bare(Perform(s, a).c, s.ns) == Bare(s.c, s.ns)
  {
    hide Perform, Reserved, Authored, Sent, Shaped, Covered, NodesCovered;
    var op, t := s.todo[0], Perform(s, a);
    assert op in s.todo && OpOk(s.c, s.ns, op);
    if Reads(op) {
      ReadsOnly(s, a);
    } else if op.Create? || op.Replace? {
      WriteEffect(s, a);
      AuthoredIsReserved(s.ns, s.c.openShift, op.m.key, op.m.obj);
      BareSame(s.c, t.c, s.ns);
    } else if OnNode(op) {
      NodeWriteEffect(s, a);
      SentKeepsRest(op) by { assert op.LabelNode? ==> Held(s.c, op.cfg.name); }
      assert SeenOk(s.c, op.seen);
      BareSame(s.c, t.c, s.ns);
    } else if op.Remove? {
      RemoveEffect(s, a);
      BareSame(s.c, t.c, s.ns);
    } else {
      CrWriteEffect(s, a);
      BareSame(s.c, t.c, s.ns);
    }
  }

  lemma RemoveEffect(s: Sys, a: Answer)
    requires s.todo != [] && s.todo[0].Remove?
    ensures var d, k := Perform(s, a).c, s.todo[0].key;
      d.nodes == s.c.nodes && d.nodeRv == s.c.nodeRv && d.crs == s.c.crs && d.crRv == s.c.crRv
        && d.openShift == s.c.openShift
      && d.past == s.c.past && d.rev >= s.c.rev && (d.objs == s.c.objs || d.objs == s.c.objs - {k})
      && (a.fault != Refused ==> d.objs == s.c.objs - {k})
  {
    if s.todo[0].key !in s.c.objs { assert s.c.objs - {s.todo[0].key} == s.c.objs; }
  }

  lemma CrMoveInvisible(c: Store, m: Move, ns: string)
    requires m.EditCR? || m.DeleteCR? || m.CreateCR?
    ensures Bare(ApplyMove(c, m), ns) == Bare(c, ns)
  {
    hide Reserved, SettleCR;
    if m.name in c.crs && !m.CreateCR? {
      SettleEffect(c, m.name, if m.EditCR?
        then c.crs[m.name].(spec := m.spec, finalizers := KeepFinalizer(c.crs[m.name].finalizers, m.finalizers))
                              else c.crs[m.name].(deleting := true));
    }
    BareSame(c, ApplyMove(c, m), ns);
  }

  lemma MoveVisible(c: Store, m: Move, ns: string)
    requires m.PutObject? ==> !Reserved(ns, m.key)
    ensures Bare(ApplyMove(c, m), ns) == MoveWorld(Bare(c, ns), m)
  {
    hide Reserved, SettleCR;
    if m.EditCR? || m.DeleteCR? || m.CreateCR? {
      CrMoveInvisible(c, m, ns);
    } else if m.PutNode? {
      PutNodeVisible(c, m.node, m.labels, ns);
    } else if m.RemoveNode? {
      RemoveNodeVisible(c, m.node, ns);
    } else {
      ObjectMoveVisible(c, m, ns);
    }
  }

  lemma PutNodeVisible(c: Store, n: string, l: Labels, ns: string)
    ensures Bare(StoreNode(c, n, l), ns) == MoveWorld(Bare(c, ns), PutNode(n, l))
  {
    hide Reserved;
    var nodes := Bare(c, ns).nodes[n := l - MANAGED];
    assert Bare(StoreNode(c, n, l), ns).nodes == nodes;
    assert Bare(StoreNode(c, n, l), ns).objs == Bare(c, ns).objs;
  }

  lemma RemoveNodeVisible(c: Store, n: string, ns: string)
    ensures Bare(ApplyMove(c, RemoveNode(n)), ns) == MoveWorld(Bare(c, ns), RemoveNode(n))
  {
    hide Reserved;
    var d := ApplyMove(c, RemoveNode(n));
    assert Bare(d, ns).nodes == Bare(c, ns).nodes - {n};
    assert Bare(d, ns).objs == Bare(c, ns).objs;
  }

  lemma ObjectMoveVisible(c: Store, m: Move, ns: string)
    requires m.RemoveObject? || (m.PutObject? && !Reserved(ns, m.key))
    ensures Bare(ApplyMove(c, m), ns) == MoveWorld(Bare(c, ns), m)
  {
    hide Reserved;
    var d, w := ApplyMove(c, m), MoveWorld(Bare(c, ns), m);
    assert d.nodes == c.nodes;
    assert Bare(d, ns).objs == w.objs;
  }

  lemma {:induction false} ReplayErased(s: Sys, h: seq<Action>)
    requires Inv(s) && NodeInv(s) && FairHistory(s, h) && FairToNodesHistory(s, h)
    ensures Inv(Replay(s, h)) && NodeInv(Replay(s, h))
    ensures Bare(Replay(s, h).c, s.ns) == Others(Bare(s.c, s.ns), h)
    decreases |h|
  {
    hide Inv, NodeInv, Bare, Perform;
    if h != [] {
      var t := Act(s, h[0]);
      ActKeepsInv(s, h[0]);
      ActErased(s, h[0]);
      ReplayErased(t, h[1..]);
    }
  }

  lemma ActErased(s: Sys, a: Action)
    requires Inv(s) && NodeInv(s) && Fair(s, a) && FairToNodes(s, a)
    ensures NodeInv(Act(s, a)) && Act(s, a).ns == s.ns
    ensures Bare(Act(s, a).c, s.ns)
      == (match a case Elsewhere(m) => MoveWorld(Bare(s.c, s.ns), m) case _ => Bare(s.c, s.ns))
  {
    hide Inv, NodeInv, Bare, Perform;
    match a
    case Request(name) => assert NodeInv(Act(s, a)) by { IdleNodes(s, Act(s, a)); }
    case Restart => assert NodeInv(Act(s, a)) by { IdleNodes(s, Act(s, a)); }
    case Elsewhere(m) => MoveKeepsNodeInv(s, m); MoveVisible(s.c, m, s.ns);
    case Call(answer) =>
      if s.todo != [] {
        CallKeepsNodeInv(s, answer);
        CallInvisible(s, answer);
        NamespaceFixed(s, [a]);
        assert Replay(s, [a]) == Act(s, a);
      }
  }

  lemma IdleNodes(s: Sys, t: Sys)
    requires NodeInv(s) && t.c == s.c && (t.todo == s.todo || t.todo == [] || exists name :: t.todo == [Begin(name)])
    ensures NodeInv(t)
  {
  }

  /** Nothing of the operator's anywhere: no objects, no managed node label, no unnamed custom resource. */
  ghost predicate Untouched(s: Sys) {
    Pristine(s) && RvBound(s.c) && forall n | n in s.c.nodes :: !Managed(s.c.nodes[n])
  }

  /**
   * No trace. Take any history of custom resources being created, edited and deleted, with every kind of interleaving
   * and restart. If at its end no custom resource holds the finalizer, then objects and node labels are exactly what
   * the other clients alone would have made of the untouched cluster.
   */
  lemma NoTraceLeft(s: Sys, h: seq<Action>)
    requires Untouched(s) && FairHistory(s, h) && FairToNodesHistory(s, h)
    requires forall x :: !Held(Replay(s, h).c, x)
    ensures World(Replay(s, h).c.objs, Replay(s, h).c.nodes) == Others(World(s.c.objs, s.c.nodes), h)
  {
    hide Perform, Reserved, Act, Fair, FairToNodes;
    PristineInv(s);
    BareOfBare(s.c, s.ns);
    ReplayErased(s, h);
    NamespaceFixed(s, h);
    BareOfBare(Replay(s, h).c, s.ns);
  }

  lemma BareOfBare(c: Store, ns: string)
    requires forall k | k in c.objs :: !Reserved(ns, k)
    requires forall n | n in c.nodes :: !Managed(c.nodes[n])
    ensures Bare(c, ns) == World(c.objs, c.nodes)
  {
    hide Reserved;
    assert Bare(c, ns).objs == c.objs;
    forall n | n in c.nodes ensures c.nodes[n] - MANAGED == c.nodes[n] {
      assert forall k | k in c.nodes[n] :: k !in MANAGED;
    }
    assert Bare(c, ns).nodes == c.nodes;
  }

  /** In every reachable state a node with any managed label is in the pool of a custom resource that is held. */
  lemma NeverHalfLabelled(s: Sys, h: seq<Action>, n: string)
    requires Untouched(s) && FairHistory(s, h) && FairToNodesHistory(s, h)
    ensures var c := Replay(s, h).c;
      n in c.nodes && Managed(c.nodes[n]) ==> NodePool in c.nodes[n] && Held(c, c.nodes[n][NodePool])
  {
    hide Perform, Reserved, Act, Fair, FairToNodes;
    PristineInv(s);
    ReplayErased(s, h);
  }
}
