/**
 * Deletion: what an undisturbed cleanup leaves, in closed form; that interrupted cleanups are absorbed by the next one;
 * what it leaves behind when OpenShift was misjudged; and that it spares other custom resources.
 */
module Deletion {
  import opened Basics
  import opened Api
  import opened Resources
  import opened Naming
  import opened Cluster
  import opened Protocol
  import opened Safety
  import opened Erasure
  import opened Honesty
  import opened Quiescence
  import opened Authorship
  import opened Helm
  import opened Convergence
  import opened Recovery
  import opened Outcome

  // ---------------------------------------------------------------- the contents a cleanup leaves

  /** Deletion of `x` finds this object by a label query. */
  predicate Swept(ns: string, x: string, k: Key, o: Object) {
    && Namespaced(k.kind) && k.ns == ns
    && (Matches(InstanceLabels(x), o.labels) || (k.kind == ConfigMap && Matches(NODE_TOPOLOGY, o.labels)))
  }

  predicate Doomed(ns: string, x: string, openShift: bool, k: Key, o: Object) {
    Swept(ns, x, k, o) || k in ClusterKeys(x, openShift)
  }

  function Spared(objs: map<Key, Object>, ns: string, x: string, openShift: bool): map<Key, Object> {
    map k | k in objs && !Doomed(ns, x, openShift, k, objs[k]) :: objs[k]
  }

  function Unlabelled(nodes: map<string, Labels>, x: string): map<string, Labels> {
    map n | n in nodes :: if Matches(PoolLabels(x), nodes[n]) then nodes[n] - MANAGED else nodes[n]
  }

  /** Without the operator's finalizer a custom resource that nothing else holds is gone. */
  function Released(crs: map<string, FakeGPUConfig>, x: string): map<string, FakeGPUConfig>
    requires x in crs && crs[x].deleting
  {
    var cr := crs[x].(finalizers := crs[x].finalizers - {FINALIZER});
    if cr.finalizers == {} then crs - {x} else crs[x := cr]
  }

  predicate Deletable(c: Store, x: string) { x in c.crs && c.crs[x].deleting }

  /** The contents an undisturbed cleanup for `x` leaves, given the remembered answer about OpenShift. */
  function Deleted(c: Store, ns: string, x: string, openShift: bool): Contents
    requires Deletable(c, x)
  {
    Contents(Spared(c.objs, ns, x, openShift), Unlabelled(c.nodes, x), Released(c.crs, x))
  }

  // ---------------------------------------------------------------- sweeping

  datatype Query = Query(kind: Kind, selector: Labels)

  predicate Hit(q: Query, ns: string, k: Key, o: Object) {
    k.kind == q.kind && k.ns == ns && Matches(q.selector, o.labels)
  }

  function Unswept(objs: map<Key, Object>, ns: string, qs: seq<Query>): map<Key, Object> {
    map k | k in objs && (forall q | q in qs :: !Hit(q, ns, k, objs[k])) :: objs[k]
  }

  function SweepQueries(x: string): seq<Query> {
    [Query(DaemonSet, InstanceLabels(x)), Query(Deployment, InstanceLabels(x)), Query(Service, InstanceLabels(x)),
     Query(ServiceAccount, InstanceLabels(x)), Query(ConfigMap, InstanceLabels(x)), Query(ConfigMap, NODE_TOPOLOGY)]
  }

  function SweepOps(cfg: Config, qs: seq<Query>): seq<Op> {
    seq(|qs|, i requires 0 <= i < |qs| => Sweep(cfg, qs[i].kind, qs[i].selector))
  }

  lemma RunRemove(lists: Order, at: nat, s: Sys, cfg: Config, k: Key) returns (done: nat, t: Sys)
    requires s.todo != [] && s.todo[0] == Remove(cfg, k)
    ensures Quietly(lists, at, s, done, t) && t.todo == s.todo[1..] && OnlyObjects(s, t) && t.c.objs == s.c.objs - {k}
  {
    done, t := at + 1, Perform(s, Working(lists, at));
    QuietlyOne(lists, at, s);
    assert [] + s.todo[1..] == s.todo[1..];
    if k !in s.c.objs { assert s.c.objs - {k} == s.c.objs; }
  }

  lemma {:induction false} RunRemoves(lists: Order, at: nat, s: Sys, cfg: Config, keys: seq<Key>, rest: seq<Op>)
      returns (done: nat, t: Sys)
    requires s.todo == Removes(cfg, keys) + rest
    ensures Quietly(lists, at, s, done, t) && t.todo == rest && OnlyObjects(s, t)
    ensures t.c.objs == map k | k in s.c.objs && k !in keys :: s.c.objs[k]
    decreases |keys|
  {
    hide Quietly;
    if keys == [] {
      done, t := at, s;
      QuietlyNone(lists, at, s);
      assert s.todo == rest;
    } else {
      assert s.todo[0] == Remove(cfg, keys[0]);
      var atU, u := RunRemove(lists, at, s, cfg, keys[0]);
      assert u.todo == Removes(cfg, keys[1..]) + rest;
      done, t := RunRemoves(lists, atU, u, cfg, keys[1..], rest);
      QuietlyTrans(lists, at, s, atU, u, done, t);
    }
  }

  lemma RunSweep(lists: Order, at: nat, s: Sys, cfg: Config, q: Query) returns (done: nat, t: Sys)
    requires s.todo != [] && s.todo[0] == Sweep(cfg, q.kind, q.selector)
    ensures Quietly(lists, at, s, done, t) && t.todo == s.todo[1..] && OnlyObjects(s, t)
      && t.c.objs == Unswept(s.c.objs, s.ns, [q])
  {
    hide Quietly, Matches;
    var names := ObjectNames(s.c, q.kind, s.ns, q.selector);
    var keys := Keys(q.kind, s.ns, Arrange(lists(at), names));
    var atU, u := at + 1, Perform(s, Working(lists, at));
    QuietlyOne(lists, at, s);
    done, t := RunRemoves(lists, atU, u, cfg, keys, s.todo[1..]);
    QuietlyTrans(lists, at, s, atU, u, done, t);
    forall k | k in s.c.objs ensures k in keys <==> Hit(q, s.ns, k, s.c.objs[k]) {
      KeysListed(q.kind, s.ns, lists(at), names, k);
    }
  }

  lemma KeysListed(kind: Kind, ns: string, proposed: seq<string>, names: set<string>, k: Key)
    ensures k in Keys(kind, ns, Arrange(proposed, names)) <==> k.kind == kind && k.ns == ns && k.name in names
  {
    var order := Arrange(proposed, names);
    if k.kind == kind && k.ns == ns && k.name in names {
      var i :| 0 <= i < |order| && order[i] == k.name;
      assert Keys(kind, ns, order)[i] == k;
    }
  }

  lemma {:induction false} RunSweeps(lists: Order, at: nat, s: Sys, cfg: Config, qs: seq<Query>, rest: seq<Op>)
      returns (done: nat, t: Sys)
    requires s.todo == SweepOps(cfg, qs) + rest
    ensures Quietly(lists, at, s, done, t) && t.todo == rest && OnlyObjects(s, t)
      && t.c.objs == Unswept(s.c.objs, s.ns, qs)
    decreases |qs|
  {
    hide Quietly, Hit;
    if qs == [] {
      done, t := at, s;
      QuietlyNone(lists, at, s);
      assert s.todo == rest;
    } else {
      assert s.todo[0] == Sweep(cfg, qs[0].kind, qs[0].selector);
      var atU, u := RunSweep(lists, at, s, cfg, qs[0]);
      assert u.todo == SweepOps(cfg, qs[1..]) + rest;
      done, t := RunSweeps(lists, atU, u, cfg, qs[1..], rest);
      QuietlyTrans(lists, at, s, atU, u, done, t);
      assert qs == [qs[0]] + qs[1..];
    }
  }

  lemma SweptMeansHit(ns: string, x: string, k: Key, o: Object)
    ensures Swept(ns, x, k, o) <==> exists q | q in SweepQueries(x) :: Hit(q, ns, k, o)
  {
    hide Matches;
    var qs := SweepQueries(x);
    assert qs[0] in qs && qs[1] in qs && qs[2] in qs && qs[3] in qs && qs[4] in qs && qs[5] in qs;
    assert forall i | 0 <= i < 6 :: Hit(qs[i], ns, k, o) ==> Swept(ns, x, k, o);
  }

  // ---------------------------------------------------------------- unlabelling

  lemma RunUnlabel(lists: Order, at: nat, s: Sys, seen: Seen, cfg: Config) returns (done: nat, t: Sys)
    requires s.todo != [] && s.todo[0] == UnlabelNode(seen, cfg) && Current(s.c, seen)
    ensures Quietly(lists, at, s, done, t) && t.todo == s.todo[1..] && OnlyNodes(s, t)
    ensures t.c.nodes == s.c.nodes[seen.name := seen.labels - MANAGED]
    ensures forall n | n != seen.name :: Rv(t.c.nodeRv, n) == Rv(s.c.nodeRv, n)
  {
    done, t := at + 1, Perform(s, Working(lists, at));
    QuietlyOne(lists, at, s);
    if s.c.nodes[seen.name] == seen.labels - MANAGED {
      assert s.c.nodes[seen.name := s.c.nodes[seen.name]] == s.c.nodes;
    }
    assert [] + s.todo[1..] == s.todo[1..];
  }

  lemma {:induction false} RunUnlabels(lists: Order, at: nat, s: Sys, seen: seq<Seen>, cfg: Config, rest: seq<Op>)
      returns (done: nat, t: Sys)
    requires s.todo == UnlabelOps(seen, cfg) + rest
    requires forall i | 0 <= i < |seen| :: Current(s.c, seen[i])
    requires forall i, j | 0 <= i < j < |seen| :: seen[i].name != seen[j].name
    ensures Quietly(lists, at, s, done, t) && t.todo == rest && OnlyNodes(s, t) && t.c.nodes.Keys == s.c.nodes.Keys
    ensures forall n | n in s.c.nodes && (forall i | 0 <= i < |seen| :: seen[i].name != n) ::
      t.c.nodes[n] == s.c.nodes[n]
    ensures forall i | 0 <= i < |seen| ::
      seen[i].name in t.c.nodes && t.c.nodes[seen[i].name] == seen[i].labels - MANAGED
    decreases |seen|
  {
    hide Quietly;
    if seen == [] {
      done, t := at, s;
      QuietlyNone(lists, at, s);
      assert s.todo == rest;
    } else {
      assert s.todo[0] == UnlabelNode(seen[0], cfg);
      var atU, u := RunUnlabel(lists, at, s, seen[0], cfg);
      assert u.todo == UnlabelOps(seen[1..], cfg) + rest;
      done, t := RunUnlabels(lists, atU, u, seen[1..], cfg, rest);
      QuietlyTrans(lists, at, s, atU, u, done, t);
      assert forall i | 0 < i < |seen| :: seen[i] == seen[1..][i - 1];
    }
  }

  lemma RunPooled(lists: Order, at: nat, s: Sys, cfg: Config) returns (done: nat, t: Sys)
    requires s.todo != [] && s.todo[0] == ListPooled(cfg)
    ensures Quietly(lists, at, s, done, t) && t.todo == s.todo[1..] && OnlyNodes(s, t)
      && t.c.nodes == Unlabelled(s.c.nodes, cfg.name)
  {
    hide Quietly, ListNodes, Matches;
    var seen := ListNodes(s.c, PoolLabels(cfg.name), lists(at));
    ListedNodes(s.c, PoolLabels(cfg.name), lists(at));
    var atU, u := at + 1, Perform(s, Working(lists, at));
    QuietlyOne(lists, at, s);
    done, t := RunUnlabels(lists, atU, u, seen, cfg, s.todo[1..]);
    QuietlyTrans(lists, at, s, atU, u, done, t);
    forall n | n in s.c.nodes ensures t.c.nodes[n] == Unlabelled(s.c.nodes, cfg.name)[n] {
      if i :| 0 <= i < |seen| && seen[i].name == n { assert Current(s.c, seen[i]); }
    }
  }

  // ---------------------------------------------------------------- the whole cleanup

  lemma RunClusterCleanup(lists: Order, at: nat, s: Sys, cfg: Config, rest: seq<Op>) returns (done: nat, t: Sys)
    requires s.todo == ClusterCleanup(cfg, s.memo) + rest
    ensures var b := if s.memo.Some? then s.memo.value else s.c.openShift;
      && Quietly(lists, at, s, done, t) && t.todo == rest && t.memo == Some(b) && OnlyObjects(s.(memo := t.memo), t)
      && t.c.objs == map k | k in s.c.objs && k !in ClusterKeys(cfg.name, b) :: s.c.objs[k]
  {
    hide Quietly, ClusterKeys;
    var b := if s.memo.Some? then s.memo.value else s.c.openShift;
    var atU, u := at, s;
    if s.memo.None? {
      assert s.todo[0] == ProbeForRemoval(cfg) && s.todo[1..] == rest;
      atU, u := at + 1, Perform(s, Working(lists, at));
      QuietlyOne(lists, at, s);
    } else {
      QuietlyNone(lists, at, s);
    }
    done, t := RunRemoves(lists, atU, u, cfg, ClusterKeys(cfg.name, b), rest);
    QuietlyTrans(lists, at, s, atU, u, done, t);
  }

  lemma RunDropFinalizer(lists: Order, at: nat, s: Sys, cfg: Config) returns (done: nat, t: Sys)
    requires s.todo == [DropFinalizer(cfg)] && Deletable(s.c, cfg.name) && cfg == Stored(s.c, cfg.name)
    ensures Quietly(lists, at, s, done, t) && t.todo == [] && !t.failed && t.ns == s.ns && t.memo == s.memo
    ensures t.c.objs == s.c.objs && t.c.nodes == s.c.nodes && t.c.openShift == s.c.openShift
    ensures t.c.crs == Released(s.c.crs, cfg.name)
  {
    done, t := at + 1, Perform(s, Working(lists, at));
    QuietlyOne(lists, at, s);
    var cr := s.c.crs[cfg.name].(finalizers := s.c.crs[cfg.name].finalizers - {FINALIZER});
    if cr == s.c.crs[cfg.name] { assert s.c.crs[cfg.name := cr] == s.c.crs; }
  }

  /** The part of a cleanup that goes by labels. */
  lemma RunByLabels(lists: Order, at: nat, s: Sys, cfg: Config, rest: seq<Op>) returns (done: nat, t: Sys)
    requires s.todo == Sweeps(cfg) + ([ListPooled(cfg)] + rest)
    ensures Quietly(lists, at, s, done, t) && t.todo == rest
    ensures t.ns == s.ns && t.memo == s.memo && t.failed == s.failed && t.c.openShift == s.c.openShift
    ensures t.c.crs == s.c.crs && t.c.crRv == s.c.crRv
    ensures t.c.objs == Unswept(s.c.objs, s.ns, SweepQueries(cfg.name)) && t.c.nodes == Unlabelled(s.c.nodes, cfg.name)
  {
    hide Quietly, Hit, SweepQueries, Unlabelled, Sweeps;
    var qs := SweepQueries(cfg.name);
    SweepsAreQueries(cfg);
    var atU, u := RunSweeps(lists, at, s, cfg, qs, [ListPooled(cfg)] + rest);
    done, t := RunPooled(lists, atU, u, cfg);
    QuietlyTrans(lists, at, s, atU, u, done, t);
  }

  /** Sweeping by labels and removing by name spares what it should. */
  lemma SparedInTwo(objs: map<Key, Object>, ns: string, x: string, b: bool)
    ensures var swept := Unswept(objs, ns, SweepQueries(x));
      (map k | k in swept && k !in ClusterKeys(x, b) :: swept[k]) == Spared(objs, ns, x, b)
  {
    hide ClusterKeys, Swept, Hit, SweepQueries;
    forall k | k in objs
      ensures Swept(ns, x, k, objs[k]) <==> exists q | q in SweepQueries(x) :: Hit(q, ns, k, objs[k]) {
      SweptMeansHit(ns, x, k, objs[k]);
    }
  }

  /** Once the program is laid out. */
  lemma RunDeleteProgram(lists: Order, at: nat, s: Sys, cfg: Config) returns (done: nat, t: Sys)
    requires s.todo == DeleteProgram(cfg, s.memo) && Deletable(s.c, cfg.name) && cfg == Stored(s.c, cfg.name)
    ensures var b := if s.memo.Some? then s.memo.value else s.c.openShift;
      && Quietly(lists, at, s, done, t) && t.todo == [] && !t.failed && t.ns == s.ns && t.memo == Some(b)
      && t.c.openShift == s.c.openShift && ContentsOf(t.c) == Deleted(s.c, s.ns, cfg.name, b)
  {
    hide Quietly, ClusterKeys, ClusterCleanup, Unswept, Unlabelled, Released, Sweeps, Spared;
    var b := if s.memo.Some? then s.memo.value else s.c.openShift;
    var last := [DropFinalizer(cfg)];
    assert s.todo == Sweeps(cfg) + ([ListPooled(cfg)] + (ClusterCleanup(cfg, s.memo) + last));
    var atV, v := RunByLabels(lists, at, s, cfg, ClusterCleanup(cfg, s.memo) + last);
    var atW, w := RunClusterCleanup(lists, atV, v, cfg, last);
    done, t := RunDropFinalizer(lists, atW, w, cfg);
    QuietlyTrans(lists, at, s, atV, v, atW, w);
    QuietlyTrans(lists, at, s, atW, w, done, t);
    SparedInTwo(s.c.objs, s.ns, cfg.name, b);
  }

  lemma SweepsAreQueries(cfg: Config)
    ensures Sweeps(cfg) == SweepOps(cfg, SweepQueries(cfg.name))
  {
  }

  /**
   * What one undisturbed cleanup achieves, from any state at all and in whatever order the server lists things: it
   * comes to an end, returns no error, and leaves exactly the stated contents; cluster-scoped names follow the
   * remembered answer about OpenShift, or a fresh one.
   */
  lemma CleanupReachesDeleted(lists: Order, at: nat, s: Sys, x: string) returns (done: nat, t: Sys)
    requires s.todo == [] && Deletable(s.c, x)
    ensures var b := if s.memo.Some? then s.memo.value else s.c.openShift;
      && Quietly(lists, at, Act(s, Request(x)), done, t) && t.todo == [] && !t.failed && t.memo == Some(b)
      && t.ns == s.ns && t.c.openShift == s.c.openShift
      && ContentsOf(t.c) == Deleted(s.c, s.ns, x, b)
  {
    hide Quietly, Perform, DeleteProgram, Deleted;
    var a := Act(s, Request(x));
    var atB, b := RunGet(lists, at, a, x);
    done, t := RunDeleteProgram(lists, atB, b, Stored(s.c, x));
    QuietlyTrans(lists, at, a, atB, b, done, t);
    DeletedSame(s.c, b.c, s.ns, x);
  }

  lemma DeletedSame(c: Store, d: Store, ns: string, x: string)
    requires Deletable(c, x) && c == d
    ensures Deletable(d, x) && forall b :: Deleted(c, ns, x, b) == Deleted(d, ns, x, b)
  {
  }

  // ---------------------------------------------------------------- interrupted cleanups

  /** What an operation of a cleanup for `x` may still do is part of what the cleanup is to achieve. */
  predicate CleanupOp(c: Store, ns: string, x: string, op: Op) {
    match op
    case Begin(name) => name == x
    case Sweep(cfg, kind, selector) =>
      cfg.name == x && Namespaced(kind)
      && (selector == InstanceLabels(x) || (kind == ConfigMap && selector == NODE_TOPOLOGY))
    case Remove(cfg, k) => cfg.name == x && (k in c.objs ==> Doomed(ns, x, c.openShift, k, c.objs[k]))
    case ListPooled(cfg) => cfg.name == x
    case UnlabelNode(seen, cfg) => cfg.name == x && SeenOk(c, seen) && Matches(PoolLabels(x), seen.labels)
    case ProbeForRemoval(cfg) => cfg.name == x
    case DropFinalizer(cfg) => x in c.crs && cfg == Stored(c, x)
    case _ => false
  }

  ghost predicate CleanupRun(s: Sys, x: string) {
    && Deletable(s.c, x) && RvBound(s.c) && (s.memo == Some(true) ==> s.c.openShift)
    && (forall op | op in s.todo :: CleanupOp(s.c, s.ns, x, op))
    && (forall op | op in s.todo && op.Begin? :: s.todo == [op])
  }

  /** The custom resource is gone and nothing more happens. */
  predicate Finished(s: Sys, x: string) {
    x !in s.c.crs && (s.todo == [] || s.todo == [Begin(x)])
  }

  ghost predicate Same(s: Sys, t: Sys, x: string)
    requires Deletable(s.c, x)
  {
    && t.ns == s.ns && t.c.openShift == s.c.openShift
    && ((CleanupRun(t, x) && Deleted(t.c, t.ns, x, t.c.openShift) == Deleted(s.c, s.ns, x, s.c.openShift))
        || Finished(t, x))
  }

  lemma ClusterKeysMonotone(x: string, b: bool, os: bool)
    requires b ==> os
    ensures forall k | k in ClusterKeys(x, b) :: k in ClusterKeys(x, os)
  {
  }

  lemma ClusterRemovesOk(c: Store, ns: string, x: string, cfg: Config, b: bool)
    requires (b ==> c.openShift) && cfg.name == x
    ensures forall op | op in Removes(cfg, ClusterKeys(x, b)) :: CleanupOp(c, ns, x, op)
  {
  }

  /** A step that plans further cleanup. */
  lemma PlanningSame(s: Sys, t: Sys, x: string, ops: seq<Op>)
    requires CleanupRun(s, x) && s.todo != [] && t.c == s.c && t.ns == s.ns && (t.memo == Some(true) ==> s.c.openShift)
    requires t.todo == ops + s.todo[1..] || t.todo == []
    requires forall op | op in ops :: CleanupOp(s.c, s.ns, x, op) && !op.Begin?
    ensures Same(s, t, x)
  {
  }

  lemma GetSame(s: Sys, a: Answer, x: string)
    requires CleanupRun(s, x) && s.todo != [] && s.todo[0].Begin? && a.stale == None
    ensures Same(s, Perform(s, a), x)
  {
    hide DeleteProgram, Deleted, RvBound;
    var t := Perform(s, a);
    assert s.todo[0] in s.todo && s.todo == [Begin(x)];
    if a.fault == NoFault {
      var cfg := Stored(s.c, x);
      DeleteProgramSame(s.c, s.ns, x, cfg, s.memo);
      PlanningSame(s, t, x, DeleteProgram(cfg, s.memo));
    } else {
      PlanningSame(s, t, x, []);
    }
  }

  lemma DeleteProgramSame(c: Store, ns: string, x: string, cfg: Config, memo: Option<bool>)
    requires x in c.crs && cfg == Stored(c, x) && (memo == Some(true) ==> c.openShift)
    ensures forall op | op in DeleteProgram(cfg, memo) :: CleanupOp(c, ns, x, op) && !op.Begin?
  {
    hide ClusterKeys, Doomed, Removes;
    assert x == cfg.name;
    var ops := DeleteProgram(cfg, memo);
    if memo.Some? {
      ClusterRemovesOk(c, ns, x, cfg, memo.value);
      RemovesOnly(cfg, ClusterKeys(x, memo.value));
    }
    assert forall op | op in Sweeps(cfg) :: CleanupOp(c, ns, x, op) && !op.Begin?;
    assert forall op | op in ClusterCleanup(cfg, memo) :: CleanupOp(c, ns, x, op) && !op.Begin?;
  }

  lemma RemovesOnly(cfg: Config, keys: seq<Key>)
    ensures forall op | op in Removes(cfg, keys) :: op.Remove?
  {
  }

  lemma SweepSame(s: Sys, a: Answer, x: string)
    requires CleanupRun(s, x) && s.todo != [] && s.todo[0].Sweep?
    ensures Same(s, Perform(s, a), x)
  {
    hide Deleted, RvBound, ClusterKeys;
    var op := s.todo[0];
    assert op in s.todo && CleanupOp(s.c, s.ns, x, op);
    var names := Arrange(a.order, ObjectNames(s.c, op.kind, s.ns, op.selector));
    var ops := Removes(op.cfg, Keys(op.kind, s.ns, names));
    forall i | 0 <= i < |ops| ensures CleanupOp(s.c, s.ns, x, ops[i]) {
      assert names[i] in ObjectNames(s.c, op.kind, s.ns, op.selector);
    }
    PlanningSame(s, Perform(s, a), x, if a.fault == NoFault then ops else []);
  }

  lemma ListPooledSame(s: Sys, a: Answer, x: string)
    requires CleanupRun(s, x) && s.todo != [] && s.todo[0].ListPooled?
    ensures Same(s, Perform(s, a), x)
  {
    hide Deleted, ListNodes;
    var cfg := s.todo[0].cfg;
    assert s.todo[0] in s.todo && CleanupOp(s.c, s.ns, x, s.todo[0]);
    var seen := ListNodes(s.c, PoolLabels(x), a.order);
    ObserveSeen(s.c, PoolLabels(x), a.order);
    assert forall i | 0 <= i < |seen| :: seen[i] in seen;
    PlanningSame(s, Perform(s, a), x, UnlabelOps(seen, cfg));
  }

  lemma ProbeSame(s: Sys, a: Answer, x: string)
    requires CleanupRun(s, x) && s.todo != [] && s.todo[0].ProbeForRemoval?
    ensures Same(s, Perform(s, a), x)
  {
    hide Deleted, ClusterKeys, RvBound;
    var cfg := s.todo[0].cfg;
    assert s.todo[0] in s.todo && CleanupOp(s.c, s.ns, x, s.todo[0]);
    var b := a.fault == NoFault && s.c.openShift;
    ClusterRemovesOk(s.c, s.ns, x, cfg, b);
    PlanningSame(s, Perform(s, a), x, Removes(cfg, ClusterKeys(x, b)));
  }

  lemma RemoveSame(s: Sys, a: Answer, x: string)
    requires CleanupRun(s, x) && s.todo != [] && s.todo[0].Remove?
    ensures Same(s, Perform(s, a), x)
  {
    hide Perform, Doomed, Stored;
    var op, t := s.todo[0], Perform(s, a);
    assert op in s.todo && CleanupOp(s.c, s.ns, x, op);
    RemoveEffect(s, a);
    RemoveRest(s, a);
    forall later | later in t.todo ensures CleanupOp(t.c, t.ns, x, later) && !later.Begin? {
      assert later in s.todo && CleanupOp(s.c, s.ns, x, later);
      StoredSame(s.c, t.c, x);
    }
    assert Spared(t.c.objs, s.ns, x, s.c.openShift) == Spared(s.c.objs, s.ns, x, s.c.openShift);
  }

  lemma StoredSame(c: Store, d: Store, x: string)
    requires d.crs == c.crs && d.crRv == c.crRv && x in c.crs
    ensures Stored(d, x) == Stored(c, x)
  {
  }

  lemma UnlabelSame(s: Sys, a: Answer, x: string)
    requires CleanupRun(s, x) && s.todo != [] && s.todo[0].UnlabelNode?
    ensures Same(s, Perform(s, a), x)
  {
    hide Perform, Doomed, Stored, Spared, Released;
    var op, t := s.todo[0], Perform(s, a);
    assert op in s.todo && CleanupOp(s.c, s.ns, x, op);
    NodeWriteEffect(s, a);
    StoreNodeBound(s.c, op.seen.name, Sent(op));
    forall later | later in t.todo ensures CleanupOp(t.c, t.ns, x, later) && !later.Begin? {
      assert later in s.todo && CleanupOp(s.c, s.ns, x, later);
      StoredSame(s.c, t.c, x);
    }
    if t.c != s.c {
      UnlabelledAbsorbs(s.c.nodes, op.seen.name, x);
    }
  }

  /** Unlabelling one node of the pool is part of unlabelling them all. */
  lemma UnlabelledAbsorbs(nodes: map<string, Labels>, n: string, x: string)
    requires n in nodes && Matches(PoolLabels(x), nodes[n])
    ensures Unlabelled(nodes[n := nodes[n] - MANAGED], x) == Unlabelled(nodes, x)
  {
  }

  lemma DropEffect(s: Sys, a: Answer, x: string)
    requires s.todo != [] && s.todo[0].DropFinalizer? && x in s.c.crs && s.todo[0].cfg == Stored(s.c, x)
    ensures var t := Perform(s, a);
      && t.todo == [] && t.ns == s.ns && t.memo == s.memo
      && (t.c == s.c || t.c == SettleCR(s.c, x, s.c.crs[x].(finalizers := s.c.crs[x].finalizers - {FINALIZER})))
  {
    hide SettleCR;
  }

  lemma SettledCrs(c: Store, x: string)
    requires Deletable(c, x)
    ensures SettleCR(c, x, c.crs[x].(finalizers := c.crs[x].finalizers - {FINALIZER})).crs == Released(c.crs, x)
  {
    var cr := c.crs[x].(finalizers := c.crs[x].finalizers - {FINALIZER});
    if cr == c.crs[x] { assert c.crs[x := cr] == c.crs; }
  }

  lemma ReleasedTwice(crs: map<string, FakeGPUConfig>, x: string)
    requires x in crs && crs[x].deleting && x in Released(crs, x)
    ensures Released(crs, x)[x].deleting && Released(Released(crs, x), x) == Released(crs, x)
  {
    var cr := crs[x].(finalizers := crs[x].finalizers - {FINALIZER});
    assert cr.finalizers - {FINALIZER} == cr.finalizers;
    assert crs[x := cr][x := cr] == crs[x := cr];
  }

  /** Releasing is absorbed by releasing. */
  lemma ReleaseAbsorbs(c: Store, x: string)
    requires Deletable(c, x) && RvBound(c)
    ensures var d := SettleCR(c, x, c.crs[x].(finalizers := c.crs[x].finalizers - {FINALIZER}));
      && d.objs == c.objs && d.nodes == c.nodes && d.openShift == c.openShift && RvBound(d)
      && (x in d.crs ==> Deletable(d, x) && Released(d.crs, x) == Released(c.crs, x))
  {
    hide SettleCR, Released;
    var cr := c.crs[x].(finalizers := c.crs[x].finalizers - {FINALIZER});
    SettleEffect(c, x, cr);
    NamedStays(c, x, cr);
    SettledCrs(c, x);
    if x in Released(c.crs, x) { ReleasedTwice(c.crs, x); }
  }

  lemma DropSame(s: Sys, a: Answer, x: string)
    requires CleanupRun(s, x) && s.todo != [] && s.todo[0].DropFinalizer?
    ensures Same(s, Perform(s, a), x)
  {
    hide Perform, Spared, Unlabelled, Released, CleanupOp, SettleCR, RvBound;
    assert s.todo[0] in s.todo && CleanupOp(s.c, s.ns, x, s.todo[0]);
    DropIsStored(s, x, s.todo[0]);
    DropEffect(s, a, x);
    ReleaseAbsorbs(s.c, x);
  }

  lemma DropIsStored(s: Sys, x: string, op: Op)
    requires op.DropFinalizer? && CleanupOp(s.c, s.ns, x, op)
    ensures x in s.c.crs && op.cfg == Stored(s.c, x)
  {
  }

  lemma CallSame(s: Sys, a: Answer, x: string)
    requires CleanupRun(s, x) && s.todo != [] && a.stale == None
    ensures Same(s, Perform(s, a), x)
  {
    hide Perform, Deleted, Same, RvBound;
    var op := s.todo[0];
    assert op in s.todo && CleanupOp(s.c, s.ns, x, op);
    match op
    case Begin(_) => GetSame(s, a, x);
    case Sweep(_, _, _) => SweepSame(s, a, x);
    case Remove(_, _) => RemoveSame(s, a, x);
    case ListPooled(_) => ListPooledSame(s, a, x);
    case UnlabelNode(_, _) => UnlabelSame(s, a, x);
    case ProbeForRemoval(_) => ProbeSame(s, a, x);
    case DropFinalizer(_) => DropSame(s, a, x);
  }

  lemma FinishedStays(s: Sys, x: string, a: Action)
    requires Finished(s, x) && Struggling(s, x, a)
    ensures Finished(Act(s, a), x) && Act(s, a).c == s.c && Act(s, a).ns == s.ns
  {
    hide Route;
  }

  lemma {:induction false} FinishedForGood(s: Sys, x: string, h: seq<Action>)
    requires Finished(s, x) && Struggle(s, x, h)
    ensures Finished(Replay(s, h), x) && Replay(s, h).c == s.c && Replay(s, h).ns == s.ns
    decreases |h|
  {
    hide Act, Finished;
    if h != [] {
      FinishedStays(s, x, h[0]);
      FinishedForGood(Act(s, h[0]), x, h[1..]);
    }
  }

  /** Until the custom resource is gone, cleaning up from here achieves what it would have achieved from the start. */
  lemma {:induction false} CleanupAbsorbed(s: Sys, x: string, h: seq<Action>)
    requires CleanupRun(s, x) && Struggle(s, x, h)
    ensures Same(s, Replay(s, h), x)
    decreases |h|
  {
    hide Perform, Deleted, RvBound, CleanupOp;
    if h != [] {
      var t := Act(s, h[0]);
      assert Same(s, t, x) by {
        match h[0] {
          case Call(a) => if s.todo != [] { CallSame(s, a, x); }
          case Request(_) => BeginOk(s, x);
          case _ =>
        }
      }
      if Finished(t, x) {
        FinishedForGood(t, x, h[1..]);
      } else {
        CleanupAbsorbed(t, x, h[1..]);
      }
    }
  }

  lemma BeginOk(s: Sys, x: string)
    ensures CleanupOp(s.c, s.ns, x, Begin(x))
  {
  }

  /**
   * Cleanups recover too. Take any history of runs for a custom resource being deleted, with any faults and restarts,
   * and stop it anywhere while it is still stored. After a restart one undisturbed run leaves the contents that a
   * single undisturbed cleanup would have left at the start.
   */
  lemma DeletionRecovers(lists: Order, at: nat, s: Sys, x: string, h: seq<Action>) returns (done: nat, t: Sys)
    requires s.todo == [] && (s.memo == Some(true) ==> s.c.openShift) && Deletable(s.c, x) && RvBound(s.c)
    requires Struggle(s, x, h) && x in Replay(s, h).c.crs
    ensures Quietly(lists, at, Act(Act(Replay(s, h), Restart), Request(x)), done, t) && t.todo == [] && !t.failed
    ensures ContentsOf(t.c) == Deleted(s.c, s.ns, x, s.c.openShift)
  {
    hide Perform, Deleted, Quietly, RvBound, CleanupOp, Act;
    CleanupAbsorbed(s, x, h);
    var u := Replay(s, h);
    RestartKeeps(u);
    done, t := CleanupReachesDeleted(lists, at, Act(u, Restart), x);
    DeletedSame(u.c, Act(u, Restart).c, s.ns, x);
  }

  lemma RestartKeeps(s: Sys)
    ensures var t := Act(s, Restart); t.c == s.c && t.ns == s.ns && t.memo == None && t.todo == []
  {
  }

  /** And nothing is cut short: cleaned up without a fault, the custom resource goes only when all of it is done. */
  lemma CleanupNeverCutShort(lists: Order, at: nat, s: Sys, x: string, n: nat)
    requires s.todo == [] && MemoHonest(s) && Deletable(s.c, x) && RvBound(s.c)
    ensures var u := Drain(lists, at, Act(s, Request(x)), n);
      x in u.c.crs || ContentsOf(u.c) == Deleted(s.c, s.ns, x, s.c.openShift)
  {
    hide Perform, Act, Drain, Deleted, RvBound, CleanupOp;
    var start := Act(s, Request(x));
    var done, t := CleanupReachesDeleted(lists, at, s, x);
    var m: nat := done - at;
    var u := Drain(lists, at, start, n);
    if n >= m {
      DrainAdd(lists, at, start, m, n - m);
      DrainIdle(lists, done, t, n - m);
    } else {
      DrainAdd(lists, at, start, n, m - n);
      assert CleanupRun(start, x) by { StartsCleanup(s, x); }
      DrainIsReplay(lists, at, start, n);
      QuietStruggle(lists, at, start, x, n);
      CleanupAbsorbed(start, x, QuietCalls(lists, at, n));
      if Finished(u, x) {
        DrainIsReplay(lists, at + n, u, m - n);
        QuietStruggle(lists, at + n, u, x, m - n);
        FinishedForGood(u, x, QuietCalls(lists, at + n, m - n));
      }
    }
  }

  lemma StartsCleanup(s: Sys, x: string)
    requires s.todo == [] && MemoHonest(s) && Deletable(s.c, x) && RvBound(s.c)
    ensures CleanupRun(Act(s, Request(x)), x)
  {
  }

  // ---------------------------------------------------------------- what is left behind

  predicate SccKey(x: string, k: Key) { k == RoleKey(x, Scc) || k == BindingKey(x, Scc) }

  lemma SccOnlyWhenOpenShift(x: string, k: Key)
    requires SccKey(x, k)
    ensures k in ClusterKeys(x, true) && k !in ClusterKeys(x, false) && !Namespaced(k.kind)
  {
    StemNameInjectiveScc(x, DevicePlugin);
    StemNameInjectiveScc(x, StatusUpdater);
    StemNameInjectiveScc(x, MetricsExporter);
    assert ClusterKeys(x, true)[7] == RoleKey(x, Scc) && ClusterKeys(x, true)[8] == BindingKey(x, Scc);
  }

  lemma StemNameInjectiveScc(x: string, c: Component)
    requires Stem(ClusterRole, c).Some? && c != Scc
    ensures RoleKey(x, c) != RoleKey(x, Scc) && BindingKey(x, c) != BindingKey(x, Scc)
  {
  }

  lemma OtherwiseSame(x: string, k: Key)
    requires k in ClusterKeys(x, true) && !SccKey(x, k)
    ensures k in ClusterKeys(x, false)
  {
  }

  /**
   * Exactly what survives of a custom resource's own objects: nothing, except the two SCC objects when the process
   * remembers that this is not OpenShift.
   */
  lemma DeletionExact(c: Store, ns: string, x: string, openShift: bool, k: Key)
    requires Tidy(c, ns) && Deletable(c, x) && k in c.objs && Reserved(ns, k) && Claimed(c.objs[k], x)
    ensures k in Deleted(c, ns, x, openShift).objs <==> !openShift && SccKey(x, k)
  {
    hide ClusterKeys, Authored, Reserved, SccKey, Released, Unlabelled;
    var o := c.objs[k];
    ReservedIsAuthored(Sys(c, ns, None, [], false), k);
    if Namespaced(k.kind) {
      AuthoredSwept(ns, c.openShift, k, o, x);
      if SccKey(x, k) { SccOnlyWhenOpenShift(x, k); }
    } else {
      ClusterObjectNamed(ns, c.openShift, k, o, x);
      ClusterKeysMonotone(x, c.openShift, true);
      if SccKey(x, k) { SccOnlyWhenOpenShift(x, k); }
        else { OtherwiseSame(x, k); ClusterKeysMonotone(x, false, openShift); }
    }
  }

  lemma AuthoredSwept(ns: string, os: bool, k: Key, o: Object, x: string)
    requires Authored(ns, os, k, o) && Namespaced(k.kind) && Claimed(o, x)
    ensures Swept(ns, x, k, o)
  {
  }

  /** So a cleanup is complete if and only if OpenShift was remembered or no SCC object had been stored. */
  lemma CompleteIff(c: Store, ns: string, x: string, openShift: bool)
    requires Tidy(c, ns) && Deletable(c, x)
    ensures var objs := Deleted(c, ns, x, openShift).objs;
      (forall k | k in objs && Reserved(ns, k) :: !Claimed(objs[k], x))
      <==> openShift || (RoleKey(x, Scc) !in c.objs && BindingKey(x, Scc) !in c.objs)
  {
    hide Authored, Reserved, RoleKey, BindingKey, Deleted, Claimed;
    var objs := Deleted(c, ns, x, openShift).objs;
    forall k ensures (k in objs ==> k in c.objs && objs[k] == c.objs[k]) { DeletedShrinks(c, ns, x, openShift, k); }
    forall k | k in c.objs && Reserved(ns, k) && Claimed(c.objs[k], x)
      ensures k in objs <==> !openShift && SccKey(x, k) {
      DeletionExact(c, ns, x, openShift, k);
    }
    forall k | k in c.objs && SccKey(x, k) ensures Reserved(ns, k) && Claimed(c.objs[k], x) {
      RoleKeysReserved(ns, x, Scc);
      ReservedIsAuthored(Sys(c, ns, None, [], false), k);
      SccClaimed(ns, c.openShift, k, c.objs[k], x);
    }
  }

  lemma DeletedShrinks(c: Store, ns: string, x: string, b: bool, k: Key)
    requires Deletable(c, x)
    ensures var objs := Deleted(c, ns, x, b).objs; k in objs ==> k in c.objs && objs[k] == c.objs[k]
  {
  }

  lemma SccClaimed(ns: string, os: bool, k: Key, o: Object, x: string)
    requires Authored(ns, os, k, o) && SccKey(x, k)
    ensures Claimed(o, x)
  {
    var y, c :| AuthoredFor(ns, os, k, o, y, c);
    StemNameInjective(k.kind, c, y, Scc, x);
  }

  // ---------------------------------------------------------------- what is spared

  lemma ClusterKeysPlaced(ns: string, x: string, b: bool, k: Key)
    requires k in ClusterKeys(x, b) && k != RUNTIME_KEY
    ensures NamedKind(k.kind) && exists c :: Placed(ns, k, x, c)
  {
    hide RoleKey, BindingKey, Placed;
    ClusterKeysMonotone(x, b, true);
    RolePlaced(ns, x, DevicePlugin);
    RolePlaced(ns, x, StatusUpdater);
    RolePlaced(ns, x, MetricsExporter);
    RolePlaced(ns, x, Scc);
  }

  lemma RolePlaced(ns: string, x: string, c: Component)
    requires Stem(ClusterRole, c).Some?
    ensures Placed(ns, RoleKey(x, c), x, c) && Placed(ns, BindingKey(x, c), x, c)
    ensures NamedKind(RoleKey(x, c).kind) && NamedKind(BindingKey(x, c).kind)
  {
  }

  /**
   * Of other clients' objects, deleting one custom resource removes exactly those in the operator's namespace that its
   * label queries find; of the objects of another custom resource it removes the runtime class and no other; it removes
   * every node topology map, whoever it was made for; and it leaves the labels of every node in another's pool as they
   * were.
   */
  lemma DeletionSpares(c: Store, ns: string, x: string, openShift: bool)
    requires Deletable(c, x)
    ensures var d := Deleted(c, ns, x, openShift);
      && (forall k | k in c.objs && !Reserved(ns, k) ::
            (k in d.objs <==> !Swept(ns, x, k, c.objs[k])) && (k in d.objs ==> d.objs[k] == c.objs[k]))
      && (forall k, y, a | k in c.objs && y != x && AuthoredFor(ns, c.openShift, k, c.objs[k], y, a) ::
            (k in d.objs <==> k != RUNTIME_KEY) && (k in d.objs ==> d.objs[k] == c.objs[k]))
      && (forall k | k in c.objs && AuthoredNodeTopology(ns, k, c.objs[k]) :: k !in d.objs)
      && (forall n, y | n in c.nodes && y != x && Matches(PoolLabels(y), c.nodes[n]) :: d.nodes[n] == c.nodes[n])
  {
    hide ClusterKeys, Placed, Released, Reserved;
    assert AppInstance in InstanceLabels(x) && NodeTopology in NODE_TOPOLOGY;
    forall k | k in c.objs && !Reserved(ns, k)
      ensures Doomed(ns, x, openShift, k, c.objs[k]) <==> Swept(ns, x, k, c.objs[k]) {
      ClusterKeysReserved(ns, x, openShift);
    }
    forall k, y, a | k in c.objs && y != x && AuthoredFor(ns, c.openShift, k, c.objs[k], y, a)
      ensures Doomed(ns, x, openShift, k, c.objs[k]) <==> k == RUNTIME_KEY
    {
      RuntimeKeyNamed(x, openShift);
      if k in ClusterKeys(x, openShift) && k != RUNTIME_KEY {
        ClusterKeysPlaced(ns, x, openShift, k);
        var b :| Placed(ns, k, x, b);
        PlacedUnique(ns, k, x, b, y, a);
      }
    }
    assert forall y :: NodePool in PoolLabels(y) && PoolLabels(y)[NodePool] == y;
  }

  lemma RuntimeKeyNamed(x: string, b: bool)
    ensures RUNTIME_KEY in ClusterKeys(x, b)
  {
  }

  /** The store after a cleanup. */
  function Without(c: Store, ns: string, x: string, openShift: bool): Store
    requires Deletable(c, x)
  {
    var g := Deleted(c, ns, x, openShift);
    c.(objs := g.objs, nodes := g.nodes, crs := g.crs)
  }

  /** After a cleanup for `x` and a run for `y`, which nodes of the pool the run would have had are still in it. */
  lemma PoolSurvivesIff(nodes: map<string, Labels>, x: string, y: string, spec: Spec, n: string)
    requires x != y && y != "" && n in PoolNames(Labelled(nodes, y, spec), y)
    ensures n in nodes && (n in PoolNames(Labelled(Unlabelled(nodes, x), y, spec), y)
                           <==> !Matches(PoolLabels(x), nodes[n]) || Selects(y, spec, nodes[n] - MANAGED))
  {
    hide Selects, Relabel, DesiredLabels;
    LabelledKeys(nodes, y, spec);
    LabelledKeys(Unlabelled(nodes, x), y, spec);
    if Matches(PoolLabels(x), nodes[n]) {
      if Selects(y, spec, nodes[n] - MANAGED) { PoolStays(nodes[n] - MANAGED, y, spec); }
      assert NodePool in PoolLabels(y);
    }
  }

  /** One later run restores what another custom resource's plan writes. */
  lemma PlanRestored(c: Store, ns: string, x: string, openShift: bool, y: string, k: Key)
    requires Deletable(c, x) && Applicable(c, y) && x != y && Writing(PlanOf(c, ns, y), k)
    ensures var d := Without(c, ns, x, openShift);
      Applicable(d, y) && k in Goal(d, ns, y).objs && At(Goal(d, ns, y).objs, k) == At(Goal(c, ns, y).objs, k)
  {
    hide Plan, PutAll, Labelled, Spared, GoalStatus, ResolveProfile, PoolNames, Writes, NodeTopologyConfigMap, Placed,
      NodeKey;
    var d, spec, p, os := Without(c, ns, x, openShift), c.crs[y].spec, ProfileOf(c, y), c.openShift;
    PlanKeysPlaced(y, spec, p, ns, os, k);
    WritesOffNodes(c.objs, Labelled(c.nodes, y, spec), y, spec, p, ns, os, k);
    WritesOffNodes(d.objs, Labelled(d.nodes, y, spec), y, spec, p, ns, os, k);
    PutAllWrites(map[], PlanOf(c, ns, y), k);
  }

  lemma NodeMapSwept(c: Store, ns: string, x: string, openShift: bool, n: string)
    requires Deletable(c, x) && Neat(c, ns)
    ensures NodeKey(n, ns) !in Without(c, ns, x, openShift).objs
  {
    hide ClusterKeys, Placed, Unlabelled, Released;
    var k := NodeKey(n, ns);
    forall y, a ensures !Placed(ns, k, y, a) { NodeKeyNotPlaced(n, ns, y, a); }
    assert IsNodeKey(ns, k);
    if k in c.objs { assert AuthoredNodeTopology(ns, k, c.objs[k]); }
  }

  /** And it restores a node's topology map exactly when it still reaches the node. */
  lemma NodeMapRestoredIff(c: Store, ns: string, x: string, openShift: bool, y: string, n: string)
    requires Deletable(c, x) && Applicable(c, y) && x != y && Neat(c, ns)
    requires n in PoolNames(Labelled(c.nodes, y, c.crs[y].spec), y)
    ensures var d, k := Without(c, ns, x, openShift), NodeKey(n, ns);
      && Applicable(d, y) && n in c.nodes && k in Goal(c, ns, y).objs
      && (At(Goal(d, ns, y).objs, k) == At(Goal(c, ns, y).objs, k)
          <==> !Matches(PoolLabels(x), c.nodes[n]) || Selects(y, c.crs[y].spec, c.nodes[n] - MANAGED))
  {
    hide Plan, PutAll, Labelled, Spared, GoalStatus, ResolveProfile, PoolNames, Writes, NodeTopologyConfigMap, Selects,
      NodeKey, Neat;
    var d, spec, p, os := Without(c, ns, x, openShift), c.crs[y].spec, ProfileOf(c, y), c.openShift;
    PoolSurvivesIff(c.nodes, x, y, spec, n);
    WritesOnNode(c.objs, Labelled(c.nodes, y, spec), y, spec, p, ns, os, n);
    WritesOnNode(d.objs, Labelled(d.nodes, y, spec), y, spec, p, ns, os, n);
    NodeMapSwept(c, ns, x, openShift, n);
  }

  lemma ReachedAfterCleanup(lists: Order, at: nat, s: Sys, x: string, i: nat, u: Sys, y: string, j: nat, v: Sys)
    requires s.todo == [] && MemoHonest(s) && Neat(s.c, s.ns) && NoHelm(s.c) && Deletable(s.c, x)
    requires Applicable(Without(s.c, s.ns, x, s.c.openShift), y)
    requires Quietly(lists, at, Act(s, Request(x)), i, u) && u.todo == []
    requires Quietly(lists, i, Act(u, Request(y)), j, v) && v.todo == []
    ensures !v.failed && ContentsOf(v.c) == Goal(Without(s.c, s.ns, x, s.c.openShift), s.ns, y)
  {
    hide Quietly, Goal, Neat, Act, HelmStored, Applicable, Deleted;
    var i', u' := CleanupReachesDeleted(lists, at, s, x);
    QuietOutcome(lists, at, Act(s, Request(x)), i, u, i', u');
    RunLeavesOrder(lists, at, s, x, i, u);
    WithoutIsReached(s, x, u);
    GoalOfContents(Without(s.c, s.ns, x, s.c.openShift), u.c, s.ns, y);
    var j', v' := RunReachesGoal(lists, i, u, y);
    QuietOutcome(lists, i, Act(u, Request(y)), j, v, j', v');
  }

  lemma WithoutIsReached(s: Sys, x: string, u: Sys)
    requires Deletable(s.c, x) && u.c.openShift == s.c.openShift
    requires ContentsOf(u.c) == Deleted(s.c, s.ns, x, s.c.openShift)
    ensures ContentsOf(Without(s.c, s.ns, x, s.c.openShift)) == ContentsOf(u.c)
    ensures Without(s.c, s.ns, x, s.c.openShift).openShift == u.c.openShift
  {
    hide Deleted;
  }

  /**
   * One later run restores another custom resource. Compare a cleanup for `x` followed by a run for `y` with the run
   * for `y` alone, all undisturbed and with lists in any order. At every key of its plan the run leaves the same
   * object; and so it does at the topology map of every node of its pool, if and only if that node was not in the pool
   * of `x` or `y` selects it without managed labels.
   */
  lemma RunRestoresAfterDeletion(s: Sys, x: string, y: string,
      lists: Order, at: nat, i: nat, u: Sys, j: nat, v: Sys, others: Order, from: nat, l: nat, w: Sys)
    requires s.todo == [] && MemoHonest(s) && Neat(s.c, s.ns) && NoHelm(s.c)
    requires Deletable(s.c, x) && Applicable(s.c, y) && x != y
    requires Quietly(lists, at, Act(s, Request(x)), i, u) && u.todo == []
    requires Quietly(lists, i, Act(u, Request(y)), j, v) && v.todo == []
    requires Quietly(others, from, Act(s, Request(y)), l, w) && w.todo == []
    ensures !v.failed
    ensures forall k | Writing(PlanOf(s.c, s.ns, y), k) :: k in v.c.objs && At(v.c.objs, k) == At(w.c.objs, k)
    ensures forall n | n in PoolNames(Labelled(s.c.nodes, y, s.c.crs[y].spec), y) ::
      && n in s.c.nodes && NodeKey(n, s.ns) in w.c.objs
      && (At(v.c.objs, NodeKey(n, s.ns)) == At(w.c.objs, NodeKey(n, s.ns))
          <==> !Matches(PoolLabels(x), s.c.nodes[n]) || Selects(y, s.c.crs[y].spec, s.c.nodes[n] - MANAGED))
  {
    hide Quietly, Goal, Neat, Act, HelmStored, Without, Plan, PoolNames, Labelled, Selects, NodeKey, ResolveProfile,
      Writing, At, Matches;
    var d, os := Without(s.c, s.ns, x, s.c.openShift), s.c.openShift;
    assert Applicable(d, y) by { StillApplicable(s.c, s.ns, x, os, y); }
    ReachedAfterCleanup(lists, at, s, x, i, u, y, j, v);
    var l', w' := RunReachesGoal(others, from, s, y);
    QuietOutcome(others, from, Act(s, Request(y)), l, w, l', w');
    forall k | Writing(PlanOf(s.c, s.ns, y), k) ensures k in v.c.objs && At(v.c.objs, k) == At(w.c.objs, k) {
      PlanRestored(s.c, s.ns, x, os, y, k);
    }
    forall n | n in PoolNames(Labelled(s.c.nodes, y, s.c.crs[y].spec), y)
      ensures n in s.c.nodes && NodeKey(n, s.ns) in w.c.objs
        && (At(v.c.objs, NodeKey(n, s.ns)) == At(w.c.objs, NodeKey(n, s.ns))
            <==> !Matches(PoolLabels(x), s.c.nodes[n]) || Selects(y, s.c.crs[y].spec, s.c.nodes[n] - MANAGED))
    {
      NodeMapRestoredIff(s.c, s.ns, x, os, y, n);
    }
  }

  lemma StillApplicable(c: Store, ns: string, x: string, openShift: bool, y: string)
    requires Deletable(c, x) && Applicable(c, y) && x != y
    ensures Applicable(Without(c, ns, x, openShift), y)
  {
    hide Spared, Unlabelled, ResolveProfile;
  }

  lemma {:induction false} PutAllWrites(objs: map<Key, Object>, ms: seq<Manifest>, k: Key)
    requires Writing(ms, k)
    ensures k in PutAll(objs, ms)
    decreases |ms|
  {
    if ms[0].key == k {
      PutAllKeeps(objs[ms[0].key := ms[0].obj], ms[1..], k);
    } else {
      var i :| 0 <= i < |ms| && ms[i].key == k;
      assert ms[1..][i - 1].key == k;
      PutAllWrites(objs[ms[0].key := ms[0].obj], ms[1..], k);
    }
  }
}
