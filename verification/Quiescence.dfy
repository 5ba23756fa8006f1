/**
 * Quiescence: once nobody else acts, the loop from node events back to reconcile runs makes boundedly many node
 * writes, whatever the order of runs, faults and restarts.
 */
module Quiescence {
  import opened Basics
  import opened Api
  import opened Resources
  import opened Cluster
  import opened Protocol
  import opened Safety
  import opened Erasure
  import opened Honesty

  // ---------------------------------------------------------------- what is still wrong

  predicate Selects(x: string, spec: Spec, l: Labels) {
    Matches(NodeListOption(x, spec), l)
  }

  /** Custom resource `x` selects node `n` and wants another value for label `k`. */
  predicate Wants(c: Store, x: string, n: string, k: LabelKey)
    requires x in c.crs && n in c.nodes
  {
    && Selects(x, c.crs[x].spec, c.nodes[n])
    && k in DesiredLabels(x, c.crs[x].spec)
    && Read(c.nodes[n], k) != DesiredLabels(x, c.crs[x].spec)[k]
  }

  ghost predicate Wrong(c: Store, n: string, k: LabelKey)
    requires n in c.nodes
  {
    exists x | x in c.crs :: Wants(c, x, n, k)
  }

  /** The (node, label) pairs that differ from what a custom resource selecting the node wants. */
  ghost function Pending(c: Store): set<(string, LabelKey)> {
    set n, k | n in c.nodes && k in MANAGED && Wrong(c, n, k) :: (n, k)
  }

  // ---------------------------------------------------------------- a settled cluster

  predicate UnmanagedSelector(spec: Spec) {
    spec.nodeSelector.Keys !! MANAGED
  }

  /** No node is selected by two custom resources. */
  predicate Disjoint(c: Store) {
    forall n, x, y | n in c.nodes && x in c.crs && y in c.crs && x != y ::
      !(Selects(x, c.crs[x].spec, c.nodes[n]) && Selects(y, c.crs[y].spec, c.nodes[n]))
  }

  predicate Settled(c: Store) {
    && RvBound(c) && Disjoint(c)
    && forall x | x in c.crs :: !c.crs[x].deleting && UnmanagedSelector(c.crs[x].spec)
  }

  predicate SpecOk(c: Store, cfg: Config) {
    cfg.name in c.crs && c.crs[cfg.name].spec == cfg.cr.spec
  }

  /** What is left of a run works with the stored spec, and labels only nodes that need it. */
  predicate SettledOp(c: Store, op: Op) {
    match op
    case Begin(_) => true
    case Fetch(_, _) => true
    case Create(_, _) => true
    case Replace(_, _, _) => true
    case LabelNode(seen, cfg) =>
      SpecOk(c, cfg) && SeenOk(c, seen) && Selects(cfg.name, cfg.cr.spec, seen.labels)
        && NeedsUpdate(seen.labels, Desired(cfg))
    case _ => SpecOk(c, op.cfg) && !Cleanup(op)
  }

  predicate SettledInv(s: Sys) {
    Settled(s.c) && forall op | op in s.todo :: SettledOp(s.c, op)
  }

  /** Nobody else acts and reads are current; calls may still fail and the process may restart. */
  predicate Undisturbed(a: Action) {
    match a
    case Elsewhere(_) => false
    case Call(answer) => answer.stale == None
    case _ => true
  }

  // ---------------------------------------------------------------- labelling one node

  lemma SelectionAfterLabelling(x: string, spec: Spec, y: string, other: Spec, l: Labels)
    requires x != "" && UnmanagedSelector(other)
    requires Selects(y, other, l + DesiredLabels(x, spec))
    ensures y == x || Selects(y, other, l)
  {
  }

  /** After labelling a node nobody wants anything else of it. */
  lemma LabelSatisfies(c: Store, seen: Seen, cfg: Config)
    requires Settled(c) && SettledOp(c, LabelNode(seen, cfg))
    requires seen.name in c.nodes && Rv(c.nodeRv, seen.name) == seen.rv
    ensures var d := StoreNode(c, seen.name, Relabel(seen.labels, Desired(cfg)));
      Settled(d) && forall k :: !Wrong(d, seen.name, k)
  {
    hide DesiredLabels, NodeListOption, Relabel, NeedsUpdate;
    var n, x, l, want := seen.name, cfg.name, seen.labels, Desired(cfg);
    var d := StoreNode(c, n, Relabel(l, want));
    RelabelMerges(l, x, cfg.cr.spec);
    DesiredManaged(x, cfg.cr.spec);
    assert c.nodes[n] == l && d.nodes[n] == l + want;
    forall y | y in d.crs && Selects(y, d.crs[y].spec, d.nodes[n]) ensures y == x {
      SelectionAfterLabelling(x, cfg.cr.spec, y, d.crs[y].spec, l);
    }
  }

  /** Labelling a node takes all of its pairs off the list and puts nothing on. */
  lemma LabelDecreases(c: Store, seen: Seen, cfg: Config)
    requires Settled(c) && SettledOp(c, LabelNode(seen, cfg))
    requires seen.name in c.nodes && Rv(c.nodeRv, seen.name) == seen.rv
    ensures var d := StoreNode(c, seen.name, Relabel(seen.labels, Desired(cfg)));
      Settled(d) && Pending(d) < Pending(c)
  {
    hide DesiredLabels, Selects, Relabel, NeedsUpdate, Settled;
    var n, x, l, want := seen.name, cfg.name, seen.labels, Desired(cfg);
    var d := StoreNode(c, n, Relabel(l, want));
    LabelSatisfies(c, seen, cfg);
    NeedsMeansWrong(l, want);
    DesiredManaged(x, cfg.cr.spec);
    forall m, k | m in d.nodes && Wrong(d, m, k) ensures m != n && Wrong(c, m, k) {
      var y :| y in d.crs && Wants(d, y, m, k);
      assert Wants(c, y, m, k);
    }
    var k :| k in WrongLabels(l, want);
    assert Wants(c, x, n, k) && (n, k) in Pending(c) && (n, k) !in Pending(d);
  }

  lemma NeedsMeansWrong(l: Labels, want: Labels)
    ensures NeedsUpdate(l, want) <==> exists k :: k in WrongLabels(l, want)
  {
  }

  // ---------------------------------------------------------------- every step

  predicate SameSpecs(c: Store, d: Store) {
    d.crs.Keys == c.crs.Keys
    && forall x | x in c.crs :: d.crs[x].spec == c.crs[x].spec && d.crs[x].deleting == c.crs[x].deleting
  }

  /** A step that writes no node changes nothing that matters here. */
  lemma SameSpecsKeep(c: Store, d: Store, ops: seq<Op>)
    requires Settled(c) && SameSpecs(c, d) && d.nodes == c.nodes && d.nodeRv == c.nodeRv && d.rev >= c.rev
    requires forall op | op in ops :: SettledOp(c, op)
    ensures Settled(d) && Pending(d) == Pending(c)
    ensures forall op | op in ops :: SettledOp(d, op)
  {
    hide NeedsUpdate, Selects, DesiredLabels;
    forall n, k | n in c.nodes ensures Wrong(c, n, k) <==> Wrong(d, n, k) {
      forall x | x in c.crs ensures Wants(c, x, n, k) <==> Wants(d, x, n, k) { }
    }
  }

  lemma AfterHelmSettled(c: Store, cfg: Config, ns: string, memo: Option<bool>)
    requires SpecOk(c, cfg)
    ensures forall op | op in AfterHelm(cfg, ns, memo) :: SettledOp(c, op)
  {
    hide RbacManifests, SccManifests, WorkloadManifests, ResolveProfile, NeedsUpdate, Selects;
  }

  lemma RouteSettled(c: Store, cfg: Config, memo: Option<bool>)
    requires SpecOk(c, cfg) && !cfg.cr.deleting
    ensures forall op | op in Route(cfg, memo) :: SettledOp(c, op)
  {
  }

  lemma ReadsSettled(s: Sys, a: Answer)
    requires SettledInv(s) && s.todo != [] && Reads(s.todo[0]) && SettledOp(s.c, s.todo[0]) && a.stale == None
    ensures forall op | op in Perform(s, a).todo :: op in s.todo[1..] || SettledOp(s.c, op)
  {
    hide AfterHelm, Route, ListNodes, LabelOps, ClusterKeys, SccManifests, PoolManifests, HelmSecretStored,
      HelmTopologyStored, Arrange, Keys, PoolLabels, ObjectNames, FinalStatus, Settled, NeedsUpdate, Selects;
    match s.todo[0]
    case Begin(name) =>
      SettledRunning(s.c, name);
      if name in s.c.crs { RouteSettled(s.c, Stored(s.c, name), s.memo); }
    case FindHelmSecrets(cfg) => AfterHelmSettled(s.c, cfg, s.ns, s.memo);
    case FindHelmTopology(cfg) => AfterHelmSettled(s.c, cfg, s.ns, s.memo);
    case ListSelected(cfg) => ListSelectedSettled(s.c, cfg, a.order);
    case _ =>
  }

  lemma ListSelectedSettled(c: Store, cfg: Config, order: seq<string>)
    requires Settled(c) && SpecOk(c, cfg)
    ensures forall op | op in LabelOps(ListNodes(c, NodeListOption(cfg.name, cfg.cr.spec), order), cfg) ::
      SettledOp(c, op)
  {
    hide ListNodes, NeedsUpdate;
    ObserveSeen(c, NodeListOption(cfg.name, cfg.cr.spec), order);
    LabelOpsFacts(ListNodes(c, NodeListOption(cfg.name, cfg.cr.spec), order), cfg);
  }

  lemma SettledRunning(c: Store, x: string)
    requires Settled(c)
    ensures x in c.crs ==> !c.crs[x].deleting
  {
  }

  lemma CrWriteSameSpecs(s: Sys, a: Answer)
    requires SettledInv(s) && s.todo != [] && (s.todo[0].SaveFinalizer? || s.todo[0].SaveStatus?)
    requires SettledOp(s.c, s.todo[0])
    ensures var t := Perform(s, a);
      SameSpecs(s.c, t.c) && t.c.nodes == s.c.nodes && t.c.nodeRv == s.c.nodeRv && t.c.rev >= s.c.rev
      && forall op | op in t.todo :: op in s.todo[1..] || SettledOp(t.c, op)
  {
    hide Perform, Settled;
    SettledRunning(s.c, s.todo[0].cfg.name);
    var cr := CrWriteShape(s, a);
  }

  ghost predicate Progress(s: Sys, t: Sys) {
    SettledInv(t) && (if t.c.nodes == s.c.nodes then Pending(t.c) == Pending(s.c) else Pending(t.c) < Pending(s.c))
  }

  lemma PendingSame(c: Store, d: Store)
    requires c.nodes == d.nodes && SameSpecs(c, d)
    ensures Pending(c) == Pending(d)
  {
  }

  lemma LabelProgress(s: Sys, a: Answer)
    requires SettledInv(s) && s.todo != [] && s.todo[0].LabelNode?
    ensures Progress(s, Perform(s, a))
  {
    hide Perform, Settled, Pending, NeedsUpdate, Selects, Relabel;
    var op, t := s.todo[0], Perform(s, a);
    assert op in s.todo && SettledOp(s.c, op);
    NodeWriteEffect(s, a);
    forall later | later in t.todo ensures SettledOp(t.c, later) {
      assert SettledOp(s.c, later);
    }
    if t.c != s.c {
      LabelDecreases(s.c, op.seen, op.cfg);
      if t.c.nodes == s.c.nodes { PendingSame(s.c, t.c); }
    }
  }

  lemma ReadProgress(s: Sys, a: Answer)
    requires SettledInv(s) && s.todo != [] && Reads(s.todo[0]) && a.stale == None
    ensures Progress(s, Perform(s, a))
  {
    hide Perform, Settled, Pending, SettledOp;
    ReadsOnly(s, a);
    ReadsSettled(s, a);
  }

  lemma CrProgress(s: Sys, a: Answer)
    requires SettledInv(s) && s.todo != [] && (s.todo[0].SaveFinalizer? || s.todo[0].SaveStatus?)
    ensures Progress(s, Perform(s, a))
  {
    hide Perform, Settled, Pending, SettledOp;
    CrWriteSameSpecs(s, a);
    SameSpecsKeep(s.c, Perform(s, a).c, s.todo);
  }

  lemma WriteProgress(s: Sys, a: Answer)
    requires SettledInv(s) && s.todo != [] && (s.todo[0].Create? || s.todo[0].Replace?)
    ensures Progress(s, Perform(s, a))
  {
    hide Perform, Settled, Pending, SettledOp;
    WriteEffect(s, a);
    SameSpecsKeep(s.c, Perform(s, a).c, s.todo);
  }

  /** Every call keeps the cluster settled; one that writes a node strictly shortens the list of pending pairs. */
  lemma CallProgress(s: Sys, a: Answer)
    requires SettledInv(s) && s.todo != [] && a.stale == None
    ensures Progress(s, Perform(s, a))
  {
    hide Perform, Settled, Progress;
    var op := s.todo[0];
    assert op in s.todo && SettledOp(s.c, op);
    if Reads(op) { ReadProgress(s, a); }
    else if op.LabelNode? { LabelProgress(s, a); }
    else if op.SaveFinalizer? || op.SaveStatus? { CrProgress(s, a); }
    else { WriteProgress(s, a); }
  }

  // ---------------------------------------------------------------- histories

  /** How many actions of a history changed a node. */
  function NodeWrites(s: Sys, h: seq<Action>): nat
    decreases |h|
  {
    if h == [] then 0
    else (if Act(s, h[0]).c.nodes == s.c.nodes then 0 else 1) + NodeWrites(Act(s, h[0]), h[1..])
  }

  lemma SmallerSet<T>(a: set<T>, b: set<T>)
    requires a < b
    ensures |a| < |b|
  {
    assert b == a + (b - a);
    assert b - a != {};
  }

  lemma {:induction false} WritesBounded(s: Sys, h: seq<Action>)
    requires SettledInv(s) && forall a | a in h :: Undisturbed(a)
    ensures SettledInv(Replay(s, h))
    ensures NodeWrites(s, h) + |Pending(Replay(s, h).c)| <= |Pending(s.c)|
    decreases |h|
  {
    hide Perform, Pending, Settled;
    if h != [] {
      var t := Act(s, h[0]);
      assert h[0] in h;
      if h[0].Call? && s.todo != [] {
        CallProgress(s, h[0].answer);
        if t.c.nodes != s.c.nodes { SmallerSet(Pending(t.c), Pending(s.c)); }
      }
      assert SettledInv(t);
      WritesBounded(t, h[1..]);
    }
  }

  ghost function Pairs(nodes: set<string>): set<(string, LabelKey)> {
    set n, k | n in nodes && k in MANAGED :: (n, k)
  }

  lemma ManagedCount()
    ensures |MANAGED| == 6
  {
  }

  lemma {:induction false} PairsCount(nodes: set<string>)
    ensures |Pairs(nodes)| == 6 * |nodes|
  {
    if nodes == {} {
      assert Pairs(nodes) == {};
    } else {
      var n :| n in nodes;
      var row := set k | k in MANAGED :: (n, k);
      PairsCount(nodes - {n});
      assert Pairs(nodes) == Pairs(nodes - {n}) + row;
      RowCount(n, MANAGED);
      ManagedCount();
    }
  }

  lemma {:induction false} RowCount(n: string, keys: set<LabelKey>)
    ensures |set k | k in keys :: (n, k)| == |keys|
  {
    var row := set k | k in keys :: (n, k);
    if keys == {} {
      assert row == {};
    } else {
      var k :| k in keys;
      RowCount(n, keys - {k});
      assert row == (set j | j in keys - {k} :: (n, j)) + {(n, k)};
    }
  }

  lemma SubsetCount<T>(a: set<T>, b: set<T>)
    requires a <= b
    ensures |a| <= |b|
  {
    if a != b { SmallerSet(a, b); }
  }

  /**
   * Bounded node writes. In a settled cluster with selections that do not overlap, no sequence of runs of any custom
   * resources, however often requested, faulted or restarted, writes nodes more often than there are pending pairs,
   * which is at most six for each node; and once none is pending no node is ever written again.
   */
  lemma NodeWritesBounded(s: Sys, h: seq<Action>)
    requires s.todo == [] && Settled(s.c) && forall a | a in h :: Undisturbed(a)
    ensures NodeWrites(s, h) + |Pending(Replay(s, h).c)| <= |Pending(s.c)| <= 6 * |s.c.nodes|
  {
    hide Perform, Act;
    WritesBounded(s, h);
    PairsCount(s.c.nodes.Keys);
    SubsetCount(Pending(s.c), Pairs(s.c.nodes.Keys));
  }
}
