/**
 * What an undisturbed run achieves, in closed form: it ends, returns no error, and leaves exactly its goal.
 */
module Convergence {
  import opened Basics
  import opened Api
  import opened Resources
  import opened Naming
  import opened Cluster
  import opened Protocol
  import opened Safety
  import opened Erasure
  import opened Honesty
  import opened Quiescence
  import opened Helm
  import opened Authorship

  // ---------------------------------------------------------------- undisturbed execution

  /** The order the server chooses for the items of each call's list. */
  type Order = nat -> seq<string>

  /** A call that works, with a current read and the server's order. */
  function Working(lists: Order, at: nat): Answer { Answer(NoFault, None, lists(at)) }

  /** `n` calls that all work, with nobody else acting, from call number `at` on. */
  function Drain(lists: Order, at: nat, s: Sys, n: nat): Sys
    decreases n
  {
    if n == 0 then s else Drain(lists, at + 1, Act(s, Call(Working(lists, at))), n - 1)
  }

  /** `t` at call number `done` follows from `s` at call number `at` by calls that all work, with nobody else acting. */
  ghost predicate Quietly(lists: Order, at: nat, s: Sys, done: nat, t: Sys) {
    at <= done && Drain(lists, at, s, done - at) == t
  }

  lemma {:induction false} DrainAdd(lists: Order, at: nat, s: Sys, m: nat, n: nat)
    ensures Drain(lists, at, s, m + n) == Drain(lists, at + m, Drain(lists, at, s, m), n)
    decreases m
  {
    hide Act;
    if m > 0 { DrainAdd(lists, at + 1, Act(s, Call(Working(lists, at))), m - 1, n); }
  }

  lemma QuietlyTrans(lists: Order, at: nat, s: Sys, atT: nat, t: Sys, done: nat, u: Sys)
    requires Quietly(lists, at, s, atT, t) && Quietly(lists, atT, t, done, u)
    ensures Quietly(lists, at, s, done, u)
  {
    hide Act, Drain;
    var m, n := atT - at, done - atT;
    DrainAdd(lists, at, s, m, n);
    assert at + m == atT && m + n == done - at;
  }

  lemma QuietlyNone(lists: Order, at: nat, s: Sys)
    ensures Quietly(lists, at, s, at, s)
  {
  }

  lemma QuietlyOne(lists: Order, at: nat, s: Sys)
    requires s.todo != []
    ensures Quietly(lists, at, s, at + 1, Perform(s, Working(lists, at)))
  {
    hide Perform;
    var t := Act(s, Call(Working(lists, at)));
    assert Drain(lists, at, s, 1) == Drain(lists, at + 1, t, 0) == t;
  }

  lemma {:induction false} DrainIdle(lists: Order, at: nat, s: Sys, n: nat)
    requires s.todo == []
    ensures Drain(lists, at, s, n) == s
    decreases n
  {
    if n > 0 { DrainIdle(lists, at + 1, s, n - 1); }
  }

  /** However the server orders its lists, an undisturbed run has one outcome. */
  lemma QuietOutcome(lists: Order, at: nat, s: Sys, i: nat, t: Sys, j: nat, u: Sys)
    requires Quietly(lists, at, s, i, t) && Quietly(lists, at, s, j, u) && t.todo == [] && u.todo == []
    ensures t == u
    decreases i > j
  {
    hide Act, Drain;
    if i <= j {
      DrainAdd(lists, at, s, i - at, j - i);
      DrainIdle(lists, i, t, j - i);
      assert at + (i - at) == i && (i - at) + (j - i) == j - at;
    } else {
      QuietOutcome(lists, at, s, j, u, i, t);
    }
  }

  // ---------------------------------------------------------------- the goal of a run

  function PutAll(objs: map<Key, Object>, ms: seq<Manifest>): map<Key, Object>
    decreases |ms|
  {
    if ms == [] then objs else PutAll(objs[ms[0].key := ms[0].obj], ms[1..])
  }

  function Labelled(nodes: map<string, Labels>, x: string, spec: Spec): map<string, Labels> {
    map n | n in nodes :: if Selects(x, spec, nodes[n]) then Relabel(nodes[n], DesiredLabels(x, spec)) else nodes[n]
  }

  function PoolNames(nodes: map<string, Labels>, x: string): set<string> {
    set n | n in nodes && Matches(PoolLabels(x), nodes[n])
  }

  function SelectedNames(nodes: map<string, Labels>, x: string, spec: Spec): set<string> {
    set n | n in nodes && Selects(x, spec, nodes[n])
  }

  function Topologies(names: seq<string>, spec: Spec, p: GPUProfile, ns: string): seq<Manifest> {
    seq(|names|, i requires 0 <= i < |names| => NodeTopologyConfigMap(names[i], spec, p, ns))
  }

  function ReadyNames(nodes: map<string, Labels>, x: string, spec: Spec): set<string> {
    set n | n in nodes && Selects(x, spec, nodes[n]) && Read(nodes[n], DeployDevicePlugin) == "true"
  }

  function GoalStatus(nodes: map<string, Labels>, x: string, spec: Spec, p: GPUProfile): Status {
    Status(AVAILABLE, |ReadyNames(nodes, x, spec)|, |SelectedNames(nodes, x, spec)|, p.name, spec.gpuCount)
  }

  datatype Contents = Contents(objs: map<Key, Object>, nodes: map<string, Labels>, crs: map<string, FakeGPUConfig>)

  function ContentsOf(c: Store): Contents { Contents(c.objs, c.nodes, c.crs) }

  /** What a run on behalf of `x` is to write, once its nodes are labelled. */
  function Writes(nodes: map<string, Labels>, x: string, spec: Spec, p: GPUProfile, ns: string,
      os: bool): seq<Manifest> {
    Plan(x, spec, p, ns, os) + Topologies(Arrange([], PoolNames(nodes, x)), spec, p, ns)
  }

  /** A custom resource a run can apply. */
  predicate Applicable(c: Store, x: string) {
    && x in c.crs && x != "" && !c.crs[x].deleting && ResolveProfile(c.crs[x].spec).Some?
  }

  /** The contents an undisturbed run for `x` leaves behind. */
  function Goal(c: Store, ns: string, x: string): Contents
    requires Applicable(c, x)
  {
    var cr := c.crs[x];
    var p := ResolveProfile(cr.spec).value;
    var nodes := Labelled(c.nodes, x, cr.spec);
    Contents(
      PutAll(c.objs, Writes(nodes, x, cr.spec, p, ns, c.openShift)),
      nodes,
      c.crs[x := cr.(finalizers := cr.finalizers + {FINALIZER}, status := GoalStatus(nodes, x, cr.spec, p))])
  }

  // ---------------------------------------------------------------- PutAll

  lemma {:induction false} PutAllConcat(objs: map<Key, Object>, a: seq<Manifest>, b: seq<Manifest>)
    ensures PutAll(objs, a + b) == PutAll(PutAll(objs, a), b)
    decreases |a|
  {
    if a == [] {
      assert a + b == b;
    } else {
      assert (a + b)[0] == a[0] && (a + b)[1..] == a[1..] + b;
      PutAllConcat(objs[a[0].key := a[0].obj], a[1..], b);
    }
  }

  ghost predicate Writing(ms: seq<Manifest>, k: Key) {
    exists i :: 0 <= i < |ms| && ms[i].key == k
  }

  /** What was at a key does not matter if it is written. */
  lemma {:induction false} PutAllAbsorbs(objs: map<Key, Object>, ms: seq<Manifest>, k: Key, o: Object)
    requires Writing(ms, k)
    ensures PutAll(objs[k := o], ms) == PutAll(objs, ms)
    decreases |ms|
  {
    var m := ms[0];
    if m.key == k {
      assert objs[k := o][m.key := m.obj] == objs[m.key := m.obj];
    } else {
      var i :| 0 <= i < |ms| && ms[i].key == k;
      assert ms[1..][i - 1].key == k;
      assert objs[k := o][m.key := m.obj] == objs[m.key := m.obj][k := o];
      PutAllAbsorbs(objs[m.key := m.obj], ms[1..], k, o);
    }
  }

  lemma {:induction false} PutAllOther(objs: map<Key, Object>, ms: seq<Manifest>, k: Key)
    requires !Writing(ms, k)
    ensures (k in PutAll(objs, ms) <==> k in objs) && (k in objs ==> PutAll(objs, ms)[k] == objs[k])
    decreases |ms|
  {
    if ms != [] {
      assert ms[0].key != k;
      assert forall i | 0 <= i < |ms[1..]| :: ms[1..][i] == ms[i + 1];
      PutAllOther(objs[ms[0].key := ms[0].obj], ms[1..], k);
    }
  }

  /** The last manifest of a key decides. */
  lemma {:induction false} PutAllAt(objs: map<Key, Object>, ms: seq<Manifest>, i: nat)
    requires i < |ms| && forall j | i < j < |ms| :: ms[j].key != ms[i].key
    ensures ms[i].key in PutAll(objs, ms) && PutAll(objs, ms)[ms[i].key] == ms[i].obj
    decreases |ms|
  {
    if i == 0 {
      PutAllOther(objs[ms[0].key := ms[0].obj], ms[1..], ms[0].key);
    } else {
      PutAllAt(objs[ms[0].key := ms[0].obj], ms[1..], i - 1);
    }
  }

  lemma {:induction false} PutAllKeeps(objs: map<Key, Object>, ms: seq<Manifest>, k: Key)
    requires k in objs
    ensures k in PutAll(objs, ms)
    decreases |ms|
  {
    if ms != [] { PutAllKeeps(objs[ms[0].key := ms[0].obj], ms[1..], k); }
  }

  // ---------------------------------------------------------------- writing manifests

  /** All but the objects (and what follows from writing them) is the same. */
  predicate OnlyObjects(s: Sys, t: Sys) {
    && t.ns == s.ns && t.memo == s.memo && t.failed == s.failed
    && t.c.nodes == s.c.nodes && t.c.nodeRv == s.c.nodeRv && t.c.crs == s.c.crs && t.c.crRv == s.c.crRv
    && t.c.openShift == s.c.openShift && t.c.rev >= s.c.rev
  }

  ghost predicate WritableAll(ns: string, ms: seq<Manifest>) {
    forall i | 0 <= i < |ms| :: Authored(ns, true, ms[i].key, ms[i].obj)
  }

  lemma BelongWritable(ns: string, x: string, ms: seq<Manifest>)
    requires AllBelong(ns, true, x, ms)
    ensures WritableAll(ns, ms)
  {
  }

  lemma PutKeepsNeat(s: Sys, t: Sys, m: Manifest)
    requires Neat(s.c, s.ns) && Authored(s.ns, true, m.key, m.obj)
    requires t.ns == s.ns && t.c.openShift == s.c.openShift && t.c.objs == s.c.objs[m.key := m.obj]
    ensures Neat(t.c, t.ns)
  {
  }

  /** Fetch, then create or replace. */
  lemma FetchThenWrite(s: Sys, x: string, m: Manifest, a: Answer, b: Answer)
    requires a.fault == NoFault && b.fault == NoFault
    requires s.todo != [] && s.todo[0] == Fetch(x, m)
    requires m.key in s.c.objs ==> FrozenPart(m.key, s.c.objs[m.key]) == FrozenPart(m.key, m.obj)
    ensures var u := Perform(s, a);
      && u.todo != []
      && var t := Perform(u, b);
         t.todo == s.todo[1..] && OnlyObjects(s, t) && t.c.objs == s.c.objs[m.key := m.obj]
  {
    hide FrozenPart;
    var u := Perform(s, a);
    assert u.todo[1..] == s.todo[1..];
    assert [] + s.todo[1..] == s.todo[1..];
    if m.key in s.c.objs && s.c.objs[m.key] == m.obj { assert s.c.objs[m.key := m.obj] == s.c.objs; }
  }

  lemma RunFetch(lists: Order, at: nat, s: Sys, x: string, m: Manifest) returns (done: nat, t: Sys)
    requires s.todo != [] && s.todo[0] == Fetch(x, m)
    requires Neat(s.c, s.ns) && Authored(s.ns, true, m.key, m.obj)
    ensures Quietly(lists, at, s, done, t) && t.todo == s.todo[1..] && OnlyObjects(s, t)
    ensures t.c.objs == s.c.objs[m.key := m.obj] && Neat(t.c, t.ns)
  {
    hide Authored, Perform, Neat, FrozenPart;
    if m.key in s.c.objs { NeatFrozenAgree(s.c, s.ns, m); }
    FetchThenWrite(s, x, m, Working(lists, at), Working(lists, at + 1));
    var atU, u := at + 1, Perform(s, Working(lists, at));
    done, t := atU + 1, Perform(u, Working(lists, atU));
    QuietlyOne(lists, at, s);
    QuietlyOne(lists, atU, u);
    QuietlyTrans(lists, at, s, atU, u, done, t);
    PutKeepsNeat(s, t, m);
  }

  lemma {:induction false} RunFetches(lists: Order, at: nat, s: Sys, x: string, ms: seq<Manifest>, rest: seq<Op>)
      returns (done: nat, t: Sys)
    requires s.todo == Fetches(x, ms) + rest && Neat(s.c, s.ns) && WritableAll(s.ns, ms)
    ensures Quietly(lists, at, s, done, t) && t.todo == rest && OnlyObjects(s, t)
    ensures t.c.objs == PutAll(s.c.objs, ms) && Neat(t.c, t.ns)
    decreases |ms|
  {
    hide Authored, Neat, Quietly;
    if ms == [] {
      done, t := at, s;
      QuietlyNone(lists, at, s);
      assert s.todo == rest;
    } else {
      assert s.todo[0] == Fetch(x, ms[0]);
      var atU, u := RunFetch(lists, at, s, x, ms[0]);
      assert u.todo == Fetches(x, ms[1..]) + rest;
      done, t := RunFetches(lists, atU, u, x, ms[1..], rest);
      QuietlyTrans(lists, at, s, atU, u, done, t);
    }
  }

  // ---------------------------------------------------------------- labelling nodes

  predicate Current(c: Store, seen: Seen) {
    seen.name in c.nodes && c.nodes[seen.name] == seen.labels && Rv(c.nodeRv, seen.name) == seen.rv
  }

  function LabelSeen(nodes: map<string, Labels>, seen: seq<Seen>, want: Labels): map<string, Labels>
    decreases |seen|
  {
    if seen == [] then nodes
    else LabelSeen(nodes[seen[0].name := Relabel(seen[0].labels, want)], seen[1..], want)
  }

  predicate OnlyNodes(s: Sys, t: Sys) {
    && t.ns == s.ns && t.memo == s.memo && t.failed == s.failed
    && t.c.objs == s.c.objs && t.c.objRv == s.c.objRv && t.c.crs == s.c.crs && t.c.crRv == s.c.crRv
    && t.c.openShift == s.c.openShift && t.c.rev >= s.c.rev
  }

  lemma RelabelSame(l: Labels, want: Labels)
    requires !NeedsUpdate(l, want)
    ensures Relabel(l, want) == l
  {
  }

  lemma RunLabel(lists: Order, at: nat, s: Sys, seen: Seen, cfg: Config) returns (done: nat, t: Sys)
    requires s.todo != [] && s.todo[0] == LabelNode(seen, cfg) && Current(s.c, seen)
    ensures Quietly(lists, at, s, done, t) && t.todo == s.todo[1..] && OnlyNodes(s, t)
    ensures t.c.nodes == s.c.nodes[seen.name := Relabel(seen.labels, Desired(cfg))]
    ensures forall n | n != seen.name :: Rv(t.c.nodeRv, n) == Rv(s.c.nodeRv, n)
  {
    hide Relabel, Desired;
    done, t := at + 1, Perform(s, Working(lists, at));
    QuietlyOne(lists, at, s);
    if s.c.nodes[seen.name] == Relabel(seen.labels, Desired(cfg)) {
      assert s.c.nodes[seen.name := s.c.nodes[seen.name]] == s.c.nodes;
    }
    assert [] + s.todo[1..] == s.todo[1..];
  }

  lemma {:induction false} RunLabels(lists: Order, at: nat, s: Sys, seen: seq<Seen>, cfg: Config, rest: seq<Op>)
      returns (done: nat, t: Sys)
    requires s.todo == LabelOps(seen, cfg) + rest
    requires forall i | 0 <= i < |seen| :: Current(s.c, seen[i])
    requires forall i, j | 0 <= i < j < |seen| :: seen[i].name != seen[j].name
    ensures Quietly(lists, at, s, done, t) && t.todo == rest && OnlyNodes(s, t)
    ensures t.c.nodes == LabelSeen(s.c.nodes, seen, Desired(cfg))
    decreases |seen|
  {
    hide Relabel, NeedsUpdate, Desired, Quietly;
    if seen == [] {
      done, t := at, s;
      QuietlyNone(lists, at, s);
      assert s.todo == rest;
    } else {
      var atU, u := at, s;
      if NeedsUpdate(seen[0].labels, Desired(cfg)) {
        assert s.todo[0] == LabelNode(seen[0], cfg);
        atU, u := RunLabel(lists, at, s, seen[0], cfg);
      } else {
        QuietlyNone(lists, at, s);
        RelabelSame(seen[0].labels, Desired(cfg));
        assert s.c.nodes[seen[0].name := seen[0].labels] == s.c.nodes;
      }
      assert u.todo == LabelOps(seen[1..], cfg) + rest;
      done, t := RunLabels(lists, atU, u, seen[1..], cfg, rest);
      QuietlyTrans(lists, at, s, atU, u, done, t);
    }
  }

  lemma {:induction false} LabelSeenAt(nodes: map<string, Labels>, seen: seq<Seen>, want: Labels, n: string)
    requires forall i | 0 <= i < |seen| :: seen[i].name in nodes
    requires forall i, j | 0 <= i < j < |seen| :: seen[i].name != seen[j].name
    ensures LabelSeen(nodes, seen, want).Keys == nodes.Keys
    ensures n in nodes && (forall i | 0 <= i < |seen| :: seen[i].name != n)
      ==> LabelSeen(nodes, seen, want)[n] == nodes[n]
    ensures forall i | 0 <= i < |seen| && seen[i].name == n ::
      LabelSeen(nodes, seen, want)[n] == Relabel(seen[i].labels, want)
    decreases |seen|
  {
    hide Relabel;
    if seen != [] {
      LabelSeenAt(nodes[seen[0].name := Relabel(seen[0].labels, want)], seen[1..], want, n);
      assert forall i | 0 < i < |seen| :: seen[i] == seen[1..][i - 1];
    }
  }

  lemma ListedNodes(c: Store, selector: Labels, order: seq<string>)
    ensures var seen := ListNodes(c, selector, order);
      && (forall i | 0 <= i < |seen| :: Current(c, seen[i]) && Matches(selector, seen[i].labels))
      && (forall i, j | 0 <= i < j < |seen| :: seen[i].name != seen[j].name)
      && (forall n | n in c.nodes && Matches(selector, c.nodes[n]) :: exists i :: 0 <= i < |seen| && seen[i].name == n)
  {
    var names := Arrange(order, NodeNames(c, selector));
    var seen := ListNodes(c, selector, order);
    forall i | 0 <= i < |seen| ensures Current(c, seen[i]) && Matches(selector, seen[i].labels) {
      assert names[i] in NodeNames(c, selector);
    }
    forall n | n in c.nodes && Matches(selector, c.nodes[n]) ensures exists i :: 0 <= i < |seen| && seen[i].name == n {
      assert n in NodeNames(c, selector);
      var i :| 0 <= i < |names| && names[i] == n;
      assert seen[i].name == n;
    }
  }

  lemma LabelSeenIsLabelled(c: Store, x: string, spec: Spec, order: seq<string>)
    ensures LabelSeen(c.nodes, ListNodes(c, NodeListOption(x, spec), order), DesiredLabels(x, spec))
      == Labelled(c.nodes, x, spec)
  {
    hide ListNodes, Relabel, DesiredLabels, NodeListOption;
    var seen := ListNodes(c, NodeListOption(x, spec), order);
    ListedNodes(c, NodeListOption(x, spec), order);
    var l := LabelSeen(c.nodes, seen, DesiredLabels(x, spec));
    LabelSeenAt(c.nodes, seen, DesiredLabels(x, spec), "");
    forall n | n in c.nodes ensures l[n] == Labelled(c.nodes, x, spec)[n] {
      LabelSeenAt(c.nodes, seen, DesiredLabels(x, spec), n);
    }
    assert l == Labelled(c.nodes, x, spec);
  }

  // ---------------------------------------------------------------- counting nodes

  lemma {:induction false} ListsCount(s: seq<string>, names: set<string>)
    requires Lists(s, names)
    ensures |s| == |names|
    decreases |s|
  {
    if s == [] {
      assert names == {};
    } else {
      assert s[0] in names;
      forall x | x in s[1..] ensures x in names - {s[0]} {
        var i :| 0 < i < |s| && s[i] == x;
      }
      ListsCount(s[1..], names - {s[0]});
    }
  }

  function ReadyOf(seen: seq<Seen>): set<string> {
    set i | 0 <= i < |seen| && Read(seen[i].labels, DeployDevicePlugin) == "true" :: seen[i].name
  }

  lemma ReadySplit(seen: seq<Seen>)
    requires seen != []
    ensures ReadyOf(seen) ==
      (if Read(seen[0].labels, DeployDevicePlugin) == "true" then {seen[0].name} else {}) + ReadyOf(seen[1..])
  {
  }

  lemma {:induction false} CountReadyIsCount(seen: seq<Seen>)
    requires forall i, j | 0 <= i < j < |seen| :: seen[i].name != seen[j].name
    ensures CountReady(seen) == |ReadyOf(seen)|
    decreases |seen|
  {
    if seen != [] {
      CountReadyIsCount(seen[1..]);
      ReadySplit(seen);
      assert seen[0].name !in ReadyOf(seen[1..]);
    }
  }

  lemma StatusIsGoal(c: Store, x: string, spec: Spec, p: GPUProfile, status: Status, order: seq<string>)
    ensures FinalStatus(status, ListNodes(c, NodeListOption(x, spec), order), spec, p)
      == GoalStatus(c.nodes, x, spec, p)
  {
    var sel := NodeListOption(x, spec);
    var seen := ListNodes(c, sel, order);
    assert |seen| == |SelectedNames(c.nodes, x, spec)| by {
      ListsCount(Arrange(order, NodeNames(c, sel)), NodeNames(c, sel));
      assert NodeNames(c, sel) == SelectedNames(c.nodes, x, spec);
    }
    assert CountReady(seen) == |ReadyNames(c.nodes, x, spec)| by {
      hide ListNodes, NodeListOption;
      ListedNodes(c, sel, order);
      CountReadyIsCount(seen);
      forall n | n in ReadyNames(c.nodes, x, spec) ensures n in ReadyOf(seen) {
        var i :| 0 <= i < |seen| && seen[i].name == n;
      }
      assert ReadyOf(seen) == ReadyNames(c.nodes, x, spec);
    }
  }

  // ---------------------------------------------------------------- the segments of a run

  lemma StepProbe(lists: Order, at: nat, s: Sys, cfg: Config) returns (done: nat, t: Sys)
    requires s.todo != [] && s.todo[0] == Probe(cfg)
    ensures Quietly(lists, at, s, done, t) && t == s.(memo := Some(s.c.openShift),
      todo := Fetches(cfg.name, Only(s.c.openShift, SccManifests(cfg.name, s.ns))) + s.todo[1..])
  {
    hide SccManifests;
    done, t := at + 1, Perform(s, Working(lists, at));
    QuietlyOne(lists, at, s);
  }

  lemma StepListSelected(lists: Order, at: nat, s: Sys, cfg: Config) returns (done: nat, t: Sys)
    requires s.todo != [] && s.todo[0] == ListSelected(cfg)
    ensures Quietly(lists, at, s, done, t)
    ensures t == s.(todo := LabelOps(ListNodes(s.c, NodeListOption(cfg.name, cfg.cr.spec), lists(at)), cfg)
      + s.todo[1..])
  {
    hide ListNodes;
    done, t := at + 1, Perform(s, Working(lists, at));
    QuietlyOne(lists, at, s);
  }

  lemma PoolManifestsAre(c: Store, x: string, spec: Spec, p: GPUProfile, ns: string, order: seq<string>)
    ensures PoolManifests(ListNodes(c, PoolLabels(x), order), spec, p, ns)
         == Topologies(Arrange(order, PoolNames(c.nodes, x)), spec, p, ns)
  {
  }

  lemma StepListPool(lists: Order, at: nat, s: Sys, cfg: Config, p: GPUProfile) returns (done: nat, t: Sys)
    requires s.todo != [] && s.todo[0] == ListPool(cfg, p)
    ensures Quietly(lists, at, s, done, t)
    ensures t == s.(todo :=
      Fetches(cfg.name, Topologies(Arrange(lists(at), PoolNames(s.c.nodes, cfg.name)), cfg.cr.spec, p, s.ns))
        + s.todo[1..])
  {
    hide ListNodes, PoolManifests;
    PoolManifestsAre(s.c, cfg.name, cfg.cr.spec, p, s.ns, lists(at));
    done, t := at + 1, Perform(s, Working(lists, at));
    QuietlyOne(lists, at, s);
  }

  lemma StepCount(lists: Order, at: nat, s: Sys, cfg: Config, p: GPUProfile) returns (done: nat, t: Sys)
    requires s.todo == [CountNodes(cfg, p)]
    ensures Quietly(lists, at, s, done, t)
      && t == s.(todo := [SaveStatus(cfg, GoalStatus(s.c.nodes, cfg.name, cfg.cr.spec, p))])
  {
    hide ListNodes, GoalStatus, FinalStatus;
    StatusIsGoal(s.c, cfg.name, cfg.cr.spec, p, cfg.cr.status, lists(at));
    done, t := at + 1, Perform(s, Working(lists, at));
    QuietlyOne(lists, at, s);
  }

  lemma StepSaveStatus(lists: Order, at: nat, s: Sys, cfg: Config, status: Status) returns (done: nat, t: Sys)
    requires s.todo == [SaveStatus(cfg, status)] && status.condition == AVAILABLE
    requires cfg.name in s.c.crs && Rv(s.c.crRv, cfg.name) == cfg.rv && !s.c.crs[cfg.name].deleting
    ensures Quietly(lists, at, s, done, t) && t.todo == [] && !t.failed && t.ns == s.ns && t.memo == s.memo
    ensures t.c.objs == s.c.objs && t.c.nodes == s.c.nodes && t.c.openShift == s.c.openShift
    ensures t.c.crs == s.c.crs[cfg.name := s.c.crs[cfg.name].(status := status)]
  {
    done, t := at + 1, Perform(s, Working(lists, at));
    QuietlyOne(lists, at, s);
    if s.c.crs[cfg.name].(status := status) == s.c.crs[cfg.name] {
      assert s.c.crs[cfg.name := s.c.crs[cfg.name]] == s.c.crs;
    }
  }

  lemma TopologiesWritable(names: seq<string>, spec: Spec, p: GPUProfile, ns: string)
    ensures WritableAll(ns, Topologies(names, spec, p, ns))
  {
    forall i | 0 <= i < |names|
      ensures var m := NodeTopologyConfigMap(names[i], spec, p, ns); Authored(ns, true, m.key, m.obj) {
      NodeTopologyAuthored(names[i], spec, p, ns, true);
    }
  }

  // ---------------------------------------------------------------- topology maps in any order

  lemma NotAmong(order: seq<string>, n: string, spec: Spec, p: GPUProfile, ns: string)
    requires n !in order
    ensures !Writing(Topologies(order, spec, p, ns), NodeKey(n, ns))
  {
    forall i | 0 <= i < |order| ensures NodeKey(order[i], ns) != NodeKey(n, ns) {
      if NodeKey(order[i], ns) == NodeKey(n, ns) { NodeKeyInjective(order[i], n, ns); }
    }
  }

  lemma TopologyAt(objs: map<Key, Object>, order: seq<string>, names: set<string>, n: string, spec: Spec,
      p: GPUProfile, ns: string)
    requires Lists(order, names) && n in names
    ensures var k, out := NodeKey(n, ns), PutAll(objs, Topologies(order, spec, p, ns));
      k in out && out[k] == NodeTopologyConfigMap(n, spec, p, ns).obj
  {
    assert n in order;
    var i :| 0 <= i < |order| && order[i] == n;
    var ms := Topologies(order, spec, p, ns);
    forall j | i < j < |ms| ensures ms[j].key != ms[i].key {
      if ms[j].key == ms[i].key { NodeKeyInjective(order[j], order[i], ns); }
    }
    PutAllAt(objs, ms, i);
  }

  /** In whatever order the nodes are listed, their topology maps end up the same. */
  lemma TopologiesAnyOrder(objs: map<Key, Object>, a: seq<string>, b: seq<string>, names: set<string>, spec: Spec,
      p: GPUProfile, ns: string)
    requires Lists(a, names) && Lists(b, names)
    ensures PutAll(objs, Topologies(a, spec, p, ns)) == PutAll(objs, Topologies(b, spec, p, ns))
  {
    hide PutAll, Topologies, NodeTopologyConfigMap;
    var x, y := PutAll(objs, Topologies(a, spec, p, ns)), PutAll(objs, Topologies(b, spec, p, ns));
    forall k ensures (k in x <==> k in y) && (k in x ==> x[k] == y[k]) {
      if n :| n in names && NodeKey(n, ns) == k {
        TopologyAt(objs, a, names, n, spec, p, ns);
        TopologyAt(objs, b, names, n, spec, p, ns);
      } else {
        NeverWritten(a, names, k, spec, p, ns);
        NeverWritten(b, names, k, spec, p, ns);
        PutAllOther(objs, Topologies(a, spec, p, ns), k);
        PutAllOther(objs, Topologies(b, spec, p, ns), k);
      }
    }
    assert x == y;
  }

  lemma NeverWritten(order: seq<string>, names: set<string>, k: Key, spec: Spec, p: GPUProfile, ns: string)
    requires Lists(order, names) && forall n | n in names :: NodeKey(n, ns) != k
    ensures !Writing(Topologies(order, spec, p, ns), k)
  {
  }

  /** The manifests before the nodes are looked at. */
  lemma RunPlan(lists: Order, at: nat, s: Sys, cfg: Config, p: GPUProfile) returns (done: nat, t: Sys)
    requires s.todo == ApplyProgram(cfg, p, s.ns, s.memo) && Neat(s.c, s.ns)
    requires s.memo.Some? ==> s.memo.value == s.c.openShift
    ensures Quietly(lists, at, s, done, t) && Neat(t.c, t.ns)
    ensures t.todo == [ListSelected(cfg), ListPool(cfg, p), CountNodes(cfg, p)]
    ensures OnlyObjects(s.(memo := t.memo), t) && t.memo == Some(s.c.openShift)
    ensures t.c.objs == PutAll(s.c.objs, Plan(cfg.name, cfg.cr.spec, p, s.ns, s.c.openShift))
  {
    hide RbacManifests, SccManifests, WorkloadManifests, Neat, Quietly, WritableAll;
    var x, os := cfg.name, s.c.openShift;
    var rbac, scc, work := RbacManifests(x, s.ns), Only(os, SccManifests(x, s.ns)),
      WorkloadManifests(x, cfg.cr.spec, p, s.ns);
    var nodes := [ListSelected(cfg), ListPool(cfg, p), CountNodes(cfg, p)];
    PlanWritable(x, cfg.cr.spec, p, s.ns);
    var atU: nat, u: Sys;
    if s.memo.Some? {
      assert s.todo == Fetches(x, rbac) + (Fetches(x, scc) + (Fetches(x, work) + nodes));
      atU, u := RunFetches(lists, at, s, x, rbac, Fetches(x, scc) + (Fetches(x, work) + nodes));
    } else {
      assert s.todo == Fetches(x, rbac) + ([Probe(cfg)] + (Fetches(x, work) + nodes));
      var atV, v := RunFetches(lists, at, s, x, rbac, [Probe(cfg)] + (Fetches(x, work) + nodes));
      atU, u := StepProbe(lists, atV, v, cfg);
      assert u.todo == Fetches(x, scc) + (Fetches(x, work) + nodes);
      QuietlyTrans(lists, at, s, atV, v, atU, u);
      assert Neat(u.c, u.ns) by { NeatUnchanged(v, u); }
    }
    var atW, w := RunFetches(lists, atU, u, x, scc, Fetches(x, work) + nodes);
    done, t := RunFetches(lists, atW, w, x, work, nodes);
    QuietlyTrans(lists, at, s, atU, u, atW, w);
    QuietlyTrans(lists, at, s, atW, w, done, t);
    PutAllConcat(s.c.objs, rbac, scc);
    PutAllConcat(s.c.objs, rbac + scc, work);
  }

  lemma NeatUnchanged(s: Sys, t: Sys)
    requires Neat(s.c, s.ns) && t.c == s.c && t.ns == s.ns
    ensures Neat(t.c, t.ns)
  {
  }

  lemma PlanWritable(x: string, spec: Spec, p: GPUProfile, ns: string)
    ensures WritableAll(ns, RbacManifests(x, ns))
    ensures forall b :: WritableAll(ns, Only(b, SccManifests(x, ns)))
    ensures WritableAll(ns, WorkloadManifests(x, spec, p, ns))
  {
    hide RbacManifests, SccManifests, WorkloadManifests, Authored;
    RbacBelongs(x, ns, true);
    BelongWritable(ns, x, RbacManifests(x, ns));
    SccBelongs(x, ns);
    BelongWritable(ns, x, SccManifests(x, ns));
    WorkloadsBelong(x, spec, p, ns, true);
    BelongWritable(ns, x, WorkloadManifests(x, spec, p, ns));
  }

  /** Labels, topology maps and status. */
  lemma RunNodes(lists: Order, at: nat, s: Sys, cfg: Config, p: GPUProfile) returns (done: nat, t: Sys)
    requires s.todo == [ListSelected(cfg), ListPool(cfg, p), CountNodes(cfg, p)] && Neat(s.c, s.ns)
    requires cfg.name in s.c.crs && Rv(s.c.crRv, cfg.name) == cfg.rv && !s.c.crs[cfg.name].deleting
    ensures Quietly(lists, at, s, done, t) && t.todo == [] && !t.failed && t.ns == s.ns && t.memo == s.memo
      && t.c.openShift == s.c.openShift
    ensures var nodes := Labelled(s.c.nodes, cfg.name, cfg.cr.spec);
      && t.c.nodes == nodes
      && t.c.objs == PutAll(s.c.objs, Topologies(Arrange([], PoolNames(nodes, cfg.name)), cfg.cr.spec, p, s.ns))
      && t.c.crs == s.c.crs[cfg.name := s.c.crs[cfg.name].(status := GoalStatus(nodes, cfg.name, cfg.cr.spec, p))]
  {
    hide Neat, Quietly, Labelled, LabelSeen, ListNodes, LabelOps, GoalStatus, Topologies, WritableAll;
    var x, spec := cfg.name, cfg.cr.spec;
    var seen := ListNodes(s.c, NodeListOption(x, spec), lists(at));
    ListedNodes(s.c, NodeListOption(x, spec), lists(at));
    var atA, a := StepListSelected(lists, at, s, cfg);
    var atB, b := RunLabels(lists, atA, a, seen, cfg, [ListPool(cfg, p), CountNodes(cfg, p)]);
    LabelSeenIsLabelled(s.c, x, spec, lists(at));
    var atC, c := StepListPool(lists, atB, b, cfg, p);
    var names := PoolNames(c.c.nodes, x);
    var topologies := Topologies(Arrange(lists(atB), names), spec, p, s.ns);
    TopologiesWritable(Arrange(lists(atB), names), spec, p, s.ns);
    TopologiesAnyOrder(s.c.objs, Arrange(lists(atB), names), Arrange([], names), names, spec, p, s.ns);
    assert Neat(c.c, c.ns) by { NeatObjects(s, c); }
    var atD, d := RunFetches(lists, atC, c, x, topologies, [CountNodes(cfg, p)]);
    var atE, e := StepCount(lists, atD, d, cfg, p);
    done, t := StepSaveStatus(lists, atE, e, cfg,
      GoalStatus(d.c.nodes, x, spec, p)) by { GoalAvailable(d.c.nodes, x, spec, p); }
    QuietlyTrans(lists, at, s, atA, a, atB, b);
    QuietlyTrans(lists, at, s, atB, b, atC, c);
    QuietlyTrans(lists, at, s, atC, c, atD, d);
    QuietlyTrans(lists, at, s, atD, d, atE, e);
    QuietlyTrans(lists, at, s, atE, e, done, t);
  }

  lemma GoalAvailable(nodes: map<string, Labels>, x: string, spec: Spec, p: GPUProfile)
    ensures GoalStatus(nodes, x, spec, p).condition == AVAILABLE
  {
  }

  lemma NeatObjects(s: Sys, t: Sys)
    requires Neat(s.c, s.ns) && t.c.objs == s.c.objs && t.c.openShift == s.c.openShift && t.ns == s.ns
    ensures Neat(t.c, t.ns)
  {
  }

  // ---------------------------------------------------------------- the whole run

  predicate NoHelm(c: Store) { !HelmStored(c) }

  predicate MemoHonest(s: Sys) { s.memo.Some? ==> s.memo.value == s.c.openShift }

  /** From the moment the custom resource carries the finalizer. */
  lemma RunChecked(lists: Order, at: nat, s: Sys, cfg: Config) returns (done: nat, t: Sys)
    requires s.todo == [FindHelmSecrets(cfg)] && !HelmSecretStored(s.c)
    ensures Quietly(lists, at, s, done, t) && t == s.(todo := [FindHelmTopology(cfg)])
  {
    hide HelmSecretStored, AfterHelm;
    done, t := at + 1, Perform(s, Working(lists, at));
    QuietlyOne(lists, at, s);
  }

  lemma RunHelmTopology(lists: Order, at: nat, s: Sys, cfg: Config) returns (done: nat, t: Sys)
    requires s.todo == [FindHelmTopology(cfg)] && !HelmTopologyStored(s.c) && ResolveProfile(cfg.cr.spec).Some?
    ensures Quietly(lists, at, s, done, t)
      && t == s.(todo := ApplyProgram(cfg, ResolveProfile(cfg.cr.spec).value, s.ns, s.memo))
  {
    hide HelmTopologyStored, ApplyProgram, ResolveProfile;
    done, t := at + 1, Perform(s, Working(lists, at));
    QuietlyOne(lists, at, s);
    assert t.todo == AfterHelm(cfg, s.ns, s.memo);
  }

  /** From the moment the run starts to apply. */
  lemma RunApply(lists: Order, at: nat, s: Sys, cfg: Config) returns (done: nat, t: Sys)
    requires Applicable(s.c, cfg.name) && cfg == Stored(s.c, cfg.name) && Neat(s.c, s.ns) && MemoHonest(s)
    requires s.todo == ApplyProgram(cfg, ResolveProfile(cfg.cr.spec).value, s.ns, s.memo)
    requires FINALIZER in cfg.cr.finalizers
    ensures Quietly(lists, at, s, done, t) && t.todo == [] && !t.failed && t.ns == s.ns
    ensures MemoHonest(t) && t.c.openShift == s.c.openShift && ContentsOf(t.c) == Goal(s.c, s.ns, cfg.name)
  {
    hide Neat, ApplyProgram, Quietly, Plan, Topologies, Labelled, GoalStatus, ResolveProfile, Perform;
    var x, spec := cfg.name, cfg.cr.spec;
    var p := ResolveProfile(spec).value;
    var atD, d := RunPlan(lists, at, s, cfg, p);
    done, t := RunNodes(lists, atD, d, cfg, p);
    QuietlyTrans(lists, at, s, atD, d, done, t);
    var nodes := Labelled(s.c.nodes, x, spec);
    PutAllConcat(s.c.objs, Plan(x, spec, p, s.ns, s.c.openShift),
      Topologies(Arrange([], PoolNames(nodes, x)), spec, p, s.ns));
    assert s.c.crs[x].finalizers + {FINALIZER} == s.c.crs[x].finalizers;
  }

  lemma RunFromHelm(lists: Order, at: nat, s: Sys, cfg: Config) returns (done: nat, t: Sys)
    requires Applicable(s.c, cfg.name) && cfg == Stored(s.c, cfg.name) && NoHelm(s.c)
    requires s.todo == [FindHelmSecrets(cfg)] && Neat(s.c, s.ns) && MemoHonest(s)
    requires FINALIZER in cfg.cr.finalizers
    ensures Quietly(lists, at, s, done, t) && t.todo == [] && !t.failed && t.ns == s.ns
    ensures MemoHonest(t) && t.c.openShift == s.c.openShift && ContentsOf(t.c) == Goal(s.c, s.ns, cfg.name)
  {
    hide HelmSecretStored, HelmTopologyStored, Neat, AfterHelm, ApplyProgram, Quietly, Goal, ResolveProfile, Perform;
    var atA, a := RunChecked(lists, at, s, cfg);
    var atB, b := RunHelmTopology(lists, atA, a, cfg);
    assert Neat(b.c, b.ns) by { NeatUnchanged(s, b); }
    done, t := RunApply(lists, atB, b, cfg);
    QuietlyTrans(lists, at, s, atA, a, atB, b);
    QuietlyTrans(lists, at, s, atB, b, done, t);
  }

  lemma RunSaveFinalizer(lists: Order, at: nat, s: Sys, cfg: Config) returns (done: nat, t: Sys)
    requires cfg.name in s.c.crs && !cfg.cr.deleting && cfg == Stored(s.c, cfg.name) && s.todo == [SaveFinalizer(cfg)]
    requires FINALIZER !in cfg.cr.finalizers
    ensures Quietly(lists, at, s, done, t) && t.ns == s.ns && t.memo == s.memo && t.failed == s.failed
    ensures t.c.objs == s.c.objs && t.c.nodes == s.c.nodes && t.c.openShift == s.c.openShift
    ensures t.c.crs == s.c.crs[cfg.name := cfg.cr.(finalizers := cfg.cr.finalizers + {FINALIZER})]
    ensures t.todo == [FindHelmSecrets(Stored(t.c, cfg.name))]
  {
    done, t := at + 1, Perform(s, Working(lists, at));
    QuietlyOne(lists, at, s);
  }

  lemma RunGet(lists: Order, at: nat, s: Sys, x: string) returns (done: nat, t: Sys)
    requires x in s.c.crs && s.todo == [Begin(x)]
    ensures Quietly(lists, at, s, done, t) && t == s.(todo := Route(Stored(s.c, x), s.memo))
  {
    hide Route;
    done, t := at + 1, Perform(s, Working(lists, at));
    QuietlyOne(lists, at, s);
  }

  /**
   * What one undisturbed run achieves, from any state in which every object at the operator's keys is as it writes it,
   * and whatever order the server lists things in: it comes to an end, returns no error, and leaves exactly the goal.
   */
  lemma RunReachesGoal(lists: Order, at: nat, s: Sys, x: string) returns (done: nat, t: Sys)
    requires Applicable(s.c, x) && NoHelm(s.c) && Neat(s.c, s.ns) && MemoHonest(s) && s.todo == []
    ensures Quietly(lists, at, Act(s, Request(x)), done, t) && t.todo == [] && !t.failed && t.ns == s.ns
      && MemoHonest(t)
    ensures t.c.openShift == s.c.openShift && ContentsOf(t.c) == Goal(s.c, s.ns, x)
  {
    hide Neat, Quietly, Plan, Topologies, Labelled, GoalStatus, ResolveProfile, Perform, NoHelm, Writes;
    var a := Act(s, Request(x));
    var atB, b := RunGet(lists, at, a, x);
    var cfg := Stored(s.c, x);
    if FINALIZER in cfg.cr.finalizers {
      assert Neat(b.c, b.ns) by { NeatUnchanged(s, b); }
      done, t := RunFromHelm(lists, atB, b, cfg);
    } else {
      var atD, d := RunSaveFinalizer(lists, atB, b, cfg);
      assert Neat(d.c, d.ns) by { NeatObjects(s, d); }
      assert NoHelm(d.c) by { NoHelmSame(s.c, d.c); }
      done, t := RunFromHelm(lists, atD, d, Stored(d.c, x));
      assert ContentsOf(t.c).crs == Goal(s.c, s.ns, x).crs;
      QuietlyTrans(lists, atB, b, atD, d, done, t);
    }
    QuietlyTrans(lists, at, a, atB, b, done, t);
  }

  lemma NoHelmSame(c: Store, d: Store)
    requires NoHelm(c) && d.objs == c.objs
    ensures NoHelm(d)
  {
  }

  // ---------------------------------------------------------------- undisturbed runs are histories

  function QuietCalls(lists: Order, at: nat, n: nat): seq<Action> {
    seq(n, i requires 0 <= i < n => Call(Working(lists, at + i)))
  }

  lemma {:induction false} DrainIsReplay(lists: Order, at: nat, s: Sys, n: nat)
    ensures Replay(s, QuietCalls(lists, at, n)) == Drain(lists, at, s, n)
    decreases n
  {
    hide Act;
    if n > 0 {
      var h := QuietCalls(lists, at, n);
      assert h[0] == Call(Working(lists, at)) && h[1..] == QuietCalls(lists, at + 1, n - 1);
      DrainIsReplay(lists, at + 1, Act(s, Call(Working(lists, at))), n - 1);
    }
  }

  /** The history of one undisturbed run. */
  function RunHistory(lists: Order, at: nat, x: string, done: nat): seq<Action>
    requires at <= done
  {
    [Request(x)] + QuietCalls(lists, at, done - at)
  }

  lemma RunIsHistory(lists: Order, at: nat, s: Sys, x: string, done: nat, t: Sys)
    requires Quietly(lists, at, Act(s, Request(x)), done, t)
    ensures t == Replay(s, RunHistory(lists, at, x, done))
  {
    hide Act;
    var h := RunHistory(lists, at, x, done);
    assert h[0] == Request(x) && h[1..] == QuietCalls(lists, at, done - at);
    DrainIsReplay(lists, at, Act(s, Request(x)), done - at);
  }

  /** After an undisturbed run another one can start. */
  lemma RunLeavesOrder(lists: Order, at: nat, s: Sys, x: string, done: nat, t: Sys)
    requires Quietly(lists, at, Act(s, Request(x)), done, t) && s.todo == [] && Neat(s.c, s.ns) && NoHelm(s.c)
    ensures Neat(t.c, t.ns) && NoHelm(t.c) && t.ns == s.ns
  {
    hide Act, Neat, HelmStored, Quietly;
    var h := RunHistory(lists, at, x,
      done) by { assert at <= done by { QuietlyForward(lists, at, Act(s, Request(x)), done, t); } }
    RunIsHistory(lists, at, s, x, done, t);
    ReplayKeepsNeat(s, h);
    HelmNeverManufactured(s, h);
  }

  lemma QuietlyForward(lists: Order, at: nat, s: Sys, done: nat, t: Sys)
    requires Quietly(lists, at, s, done, t)
    ensures at <= done
  {
  }
}
