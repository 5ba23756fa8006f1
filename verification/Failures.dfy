/**
 * Cleanups whose calls fail: whatever the calls of a cleanup are answered, exactly which objects and which node labels
 * survive it.
 */
module Failures {
  import opened Basics
  import opened Api
  import opened Resources
  import opened Cluster
  import opened Protocol
  import opened Safety
  import opened Erasure
  import opened Honesty
  import opened Convergence
  import opened Deletion

  function Calls(answers: seq<Answer>): seq<Action> {
    seq(|answers|, i requires 0 <= i < |answers| => Call(answers[i]))
  }

  /** The state after these calls. */
  function After(s: Sys, answers: seq<Answer>): Sys
    decreases |answers|
  {
    if answers == [] then s else After(Act(s, Call(answers[0])), answers[1..])
  }

  lemma {:induction false} AfterIsReplay(s: Sys, answers: seq<Answer>)
    ensures After(s, answers) == Replay(s, Calls(answers))
    decreases |answers|
  {
    hide Act;
    if answers != [] {
      assert Calls(answers)[0] == Call(answers[0]) && Calls(answers)[1..] == Calls(answers[1..]);
      AfterIsReplay(Act(s, Call(answers[0])), answers[1..]);
    }
  }

  // ---------------------------------------------------------------- what the calls of a run were

  predicate Deletes(op: Op, k: Key) { op.Remove? && op.key == k }

  predicate Asks(op: Op, q: Query) { op.Sweep? && op.kind == q.kind && op.selector == q.selector }

  predicate SendsNode(op: Op, n: string) { op.UnlabelNode? && op.seen.name == n }

  /** Some call deletes `k`. */
  predicate Named(s: Sys, answers: seq<Answer>, k: Key)
    decreases |answers|
  {
    answers != [] && ((s.todo != [] && Deletes(s.todo[0], k)) || Named(Act(s, Call(answers[0])), answers[1..], k))
  }

  /** Every call that deletes `k` is refused. */
  predicate AllRefused(s: Sys, answers: seq<Answer>, k: Key)
    decreases |answers|
  {
    answers == []
    || ((s.todo != [] && Deletes(s.todo[0], k) ==> answers[0].fault == Refused)
        && AllRefused(Act(s, Call(answers[0])), answers[1..], k))
  }

  /** The list for query `q` works. */
  predicate Listed(s: Sys, answers: seq<Answer>, q: Query)
    decreases |answers|
  {
    answers != []
    && ((s.todo != [] && Asks(s.todo[0], q) && answers[0].fault == NoFault)
        || Listed(Act(s, Call(answers[0])), answers[1..], q))
  }

  /** The update that takes the labels off node `n` is refused. */
  predicate NodeRefused(s: Sys, answers: seq<Answer>, n: string)
    decreases |answers|
  {
    answers != []
    && ((s.todo != [] && SendsNode(s.todo[0], n) && answers[0].fault == Refused)
        || NodeRefused(Act(s, Call(answers[0])), answers[1..], n))
  }

  /** The list of nodes and the release of the custom resource work; nothing is asked of any other call. */
  predicate EndsWell(s: Sys, answers: seq<Answer>)
    decreases |answers|
  {
    answers == []
    || ((s.todo != [] && (s.todo[0].ListPooled? || s.todo[0].DropFinalizer?) ==> answers[0].fault == NoFault)
        && EndsWell(Act(s, Call(answers[0])), answers[1..]))
  }

  // ---------------------------------------------------------------- one call of a cleanup

  /** What a call of a cleanup does: `ops` is what it puts in front of the rest. */
  ghost predicate StepOf(s: Sys, a: Answer, t: Sys, ops: seq<Op>)
    requires s.todo != []
  {
    && t.ns == s.ns && t.c.openShift == s.c.openShift
    && t.c.objs == (if s.todo[0].Remove? && a.fault != Refused then s.c.objs - {s.todo[0].key} else s.c.objs)
    && (!s.todo[0].DropFinalizer? ==> t.c.crs == s.c.crs && t.c.crRv == s.c.crRv)
    && (!s.todo[0].UnlabelNode? ==> t.c.nodes == s.c.nodes && t.c.nodeRv == s.c.nodeRv)
    && (!s.todo[0].ProbeForRemoval? ==> t.memo == s.memo)
    && t.todo == (if s.todo[0].DropFinalizer? then [] else ops + s.todo[1..])
    && (!s.todo[0].DropFinalizer? ==> t.failed == s.failed)
    && match s.todo[0]
       case Sweep(cfg, kind, selector) =>
         if a.fault == NoFault
           then ops == Removes(cfg, Keys(kind, s.ns, Arrange(a.order, ObjectNames(s.c, kind, s.ns, selector))))
         else ops == []
       case ListPooled(cfg) => ops == UnlabelOps(ListNodes(s.c, PoolLabels(cfg.name), a.order), cfg)
       case ProbeForRemoval(cfg) => t.memo.Some? && ops == Removes(cfg, ClusterKeys(cfg.name, t.memo.value))
       case _ => ops == []
  }

  lemma CleanupRead(s: Sys, a: Answer) returns (ops: seq<Op>)
    requires s.todo != [] && (s.todo[0].Sweep? || s.todo[0].ProbeForRemoval? || s.todo[0].ListPooled?)
    requires s.todo[0].ListPooled? ==> a.fault == NoFault
    ensures StepOf(s, a, Perform(s, a), ops)
  {
    hide ObjectNames, Arrange, Keys, ListNodes, PoolLabels, ClusterKeys, Removes, UnlabelOps;
    var op := s.todo[0];
    match op
    case Sweep(cfg, kind, selector) =>
      ops := if a.fault == NoFault
        then Removes(cfg, Keys(kind, s.ns, Arrange(a.order, ObjectNames(s.c, kind, s.ns, selector)))) else [];
    case ListPooled(cfg) => ops := UnlabelOps(ListNodes(s.c, PoolLabels(cfg.name), a.order), cfg);
    case ProbeForRemoval(cfg) => ops := Removes(cfg, ClusterKeys(cfg.name, a.fault == NoFault && s.c.openShift));
  }

  lemma CleanupWrite(s: Sys, a: Answer)
    requires s.todo != [] && (s.todo[0].Remove? || s.todo[0].UnlabelNode?)
    ensures StepOf(s, a, Perform(s, a), [])
  {
    hide Perform, Sent;
    assert [] + s.todo[1..] == s.todo[1..];
    if s.todo[0].Remove? {
      RemoveEffect(s, a);
      RemoveRest(s, a);
      RemoveShape(s, a);
    } else {
      NodeWriteEffect(s, a);
      UnlabelShape(s, a);
    }
  }

  lemma RemoveShape(s: Sys, a: Answer)
    requires s.todo != [] && s.todo[0].Remove?
    ensures var t := Perform(s, a); t.failed == s.failed && (a.fault == Refused ==> t.c == s.c)
  {
  }

  lemma UnlabelShape(s: Sys, a: Answer)
    requires s.todo != [] && s.todo[0].UnlabelNode?
    ensures var t := Perform(s, a); t.failed == s.failed
  {
    hide UpdateNode;
  }

  lemma DropShape(s: Sys, a: Answer)
    requires s.todo != [] && s.todo[0].DropFinalizer?
    ensures StepOf(s, a, Perform(s, a), [])
  {
    hide Perform, SettleCR;
    var cr := CrWriteShape(s, a);
    SettleEffect(s.c, s.todo[0].cfg.name, cr);
    DropRest(s, a);
  }

  lemma DropRest(s: Sys, a: Answer)
    requires s.todo != [] && s.todo[0].DropFinalizer?
    ensures var t := Perform(s, a); t.todo == [] && t.ns == s.ns && t.memo == s.memo
  {
    hide UpdateCR, Effect;
  }

  lemma CleanupStep(s: Sys, a: Answer) returns (ops: seq<Op>)
    requires s.todo != [] && Cleanup(s.todo[0]) && (s.todo[0].ListPooled? ==> a.fault == NoFault)
    ensures StepOf(s, a, Perform(s, a), ops)
  {
    hide Perform, StepOf;
    if s.todo[0].Remove? || s.todo[0].UnlabelNode? { CleanupWrite(s, a); ops := []; }
    else if s.todo[0].DropFinalizer? { DropShape(s, a); ops := []; }
    else { ops := CleanupRead(s, a); }
  }

  // ---------------------------------------------------------------- the shape of what is left

  /** What is left of a cleanup of `cfg`. */
  predicate Left(todo: seq<Op>, cfg: Config) {
    todo == []
    || (todo[|todo| - 1] == DropFinalizer(cfg)
        && forall i | 0 <= i < |todo| - 1 :: Cleanup(todo[i]) && !todo[i].DropFinalizer? && todo[i].cfg == cfg)
  }

  /** Each node is sent at most once, after the one list of nodes; OpenShift is asked about at most once. */
  predicate Once(todo: seq<Op>) {
    forall i, j | 0 <= i < j < |todo| ::
      && !(todo[i].UnlabelNode? && todo[j].UnlabelNode? && todo[i].seen.name == todo[j].seen.name)
      && !((todo[i].UnlabelNode? || todo[i].ListPooled?) && todo[j].ListPooled?)
      && !(todo[i].ProbeForRemoval? && todo[j].ProbeForRemoval?)
      && !(todo[i].ListPooled? && todo[j].UnlabelNode?)
  }

  lemma LeftHead(todo: seq<Op>, cfg: Config)
    requires Left(todo, cfg) && todo != []
    ensures Cleanup(todo[0]) && todo[0].cfg == cfg && (todo[0].DropFinalizer? <==> |todo| == 1)
    ensures |todo| > 1 ==> Left(todo[1..], cfg)
  {
  }

  lemma LeftAfter(s: Sys, a: Answer, t: Sys, ops: seq<Op>, cfg: Config)
    requires s.todo != [] && Left(s.todo, cfg) && StepOf(s, a, t, ops)
    ensures Left(t.todo, cfg)
    ensures forall op | op in ops ::
      Cleanup(op) && !op.DropFinalizer? && !op.ProbeForRemoval? && !op.ListPooled? && !op.Sweep?
  {
    hide ObjectNames, Arrange, Keys, ListNodes, PoolLabels, ClusterKeys;
    LeftHead(s.todo, cfg);
    assert forall i | 0 <= i < |ops| :: Cleanup(ops[i]) && !ops[i].DropFinalizer? && ops[i].cfg == cfg;
  }

  lemma OnceRest(todo: seq<Op>)
    requires Once(todo) && todo != []
    ensures Once(todo[1..])
  {
  }

  // ---------------------------------------------------------------- objects

  /** An object survives if and only if every delete of it is refused. */
  lemma {:induction false} ObjectFate(s: Sys, cfg: Config, answers: seq<Answer>, k: Key)
    requires Left(s.todo, cfg) && EndsWell(s, answers) && k in s.c.objs
    ensures k in After(s, answers).c.objs <==> AllRefused(s, answers, k)
    decreases |answers|
  {
    hide Perform, StepOf, Left;
    if answers != [] {
      var a := answers[0];
      var t := Act(s, Call(a));
      if s.todo != [] {
        LeftHead(s.todo, cfg);
        var ops := CleanupStep(s, a);
        LeftAfter(s, a, t, ops, cfg);
        StepObjects(s, a, t, ops);
      }
      if k in t.c.objs {
        ObjectFate(t, cfg, answers[1..], k);
      } else {
        AbsentStays(t, cfg, answers[1..], k);
      }
    }
  }

  lemma StepObjects(s: Sys, a: Answer, t: Sys, ops: seq<Op>)
    requires s.todo != [] && StepOf(s, a, t, ops)
    ensures t.c.objs == (if s.todo[0].Remove? && a.fault != Refused then s.c.objs - {s.todo[0].key} else s.c.objs)
  {
  }

  lemma {:induction false} AbsentStays(s: Sys, cfg: Config, answers: seq<Answer>, k: Key)
    requires Left(s.todo, cfg) && EndsWell(s, answers) && k !in s.c.objs
    ensures k !in After(s, answers).c.objs
    decreases |answers|
  {
    hide Perform, StepOf, Left;
    if answers != [] {
      var a := answers[0];
      var t := Act(s, Call(a));
      if s.todo != [] {
        LeftHead(s.todo, cfg);
        var ops := CleanupStep(s, a);
        LeftAfter(s, a, t, ops, cfg);
        StepObjects(s, a, t, ops);
      }
      AbsentStays(t, cfg, answers[1..], k);
    }
  }

  /** What leads to a delete of `k`: one already planned, a working list that finds it, or the list of names. */
  ghost predicate Leads(s: Sys, cfg: Config, answers: seq<Answer>, k: Key, o: Object) {
    || Remove(cfg, k) in s.todo
    || (exists q :: Hit(q, s.ns, k, o) && Listed(s, answers, q))
    || (ProbeForRemoval(cfg) in s.todo && After(s, answers).memo.Some?
        && k in ClusterKeys(cfg.name, After(s, answers).memo.value))
  }

  lemma {:induction false} MemoStays(s: Sys, cfg: Config, answers: seq<Answer>)
    requires Left(s.todo, cfg) && EndsWell(s, answers) && forall op | op in s.todo :: !op.ProbeForRemoval?
    ensures After(s, answers).memo == s.memo
    decreases |answers|
  {
    hide Perform, Left;
    if answers != [] {
      var a := answers[0];
      var t := Act(s, Call(a));
      if s.todo != [] {
        LeftHead(s.todo, cfg);
        var ops := CleanupStep(s, a);
        LeftAfter(s, a, t, ops, cfg);
        assert s.todo[0] in s.todo && t.memo == s.memo;
        hide StepOf;
        assert forall op | op in t.todo :: op in ops || op in s.todo by { TodoAfter(s, a, t, ops); }
      }
      MemoStays(t, cfg, answers[1..]);
    }
  }

  lemma TodoAfter(s: Sys, a: Answer, t: Sys, ops: seq<Op>)
    requires s.todo != [] && StepOf(s, a, t, ops)
    ensures forall op | op in t.todo :: op in ops || op in s.todo[1..]
    ensures !s.todo[0].DropFinalizer? ==> forall op | op in ops || op in s.todo[1..] :: op in t.todo
    ensures s.todo[0].DropFinalizer? ==> t.todo == []
  {
  }

  lemma SweepNames(s: Sys, cfg: Config, q: Query, order: seq<string>, k: Key)
    requires k in s.c.objs
    ensures Remove(cfg, k) in Removes(cfg,
      Keys(q.kind, s.ns, Arrange(order, ObjectNames(s.c, q.kind, s.ns, q.selector))))
      <==> Hit(q, s.ns, k, s.c.objs[k])
  {
    hide Matches;
    var names := ObjectNames(s.c, q.kind, s.ns, q.selector);
    var keys := Keys(q.kind, s.ns, Arrange(order, names));
    KeysListed(q.kind, s.ns, order, names, k);
    RemovesHave(cfg, keys, k);
    assert k in keys <==> Hit(q, s.ns, k, s.c.objs[k]);
  }

  lemma RemovesHave(cfg: Config, keys: seq<Key>, k: Key)
    ensures Remove(cfg, k) in Removes(cfg, keys) <==> k in keys
  {
    if k in keys {
      var i :| 0 <= i < |keys| && keys[i] == k;
      assert Removes(cfg, keys)[i] == Remove(cfg, k);
    }
  }

  /** One call keeps what leads to a delete, unless it is the delete. */
  lemma LeadsOn(s: Sys, cfg: Config, answers: seq<Answer>, t: Sys, ops: seq<Op>, k: Key)
    requires Left(s.todo, cfg) && Once(s.todo) && EndsWell(s, answers) && answers != [] && s.todo != []
    requires k in s.c.objs && !Deletes(s.todo[0], k) && t == Act(s, Call(answers[0])) && StepOf(s, answers[0], t, ops)
    ensures Leads(s, cfg, answers, k, s.c.objs[k]) <==> Leads(t, cfg, answers[1..], k, s.c.objs[k])
  {
    hide Perform, Left, Once, ObjectNames, Arrange, Keys, ListNodes, PoolLabels, ClusterKeys, Removes, UnlabelOps, Hit;
    var head, rest, o, a := s.todo[0], s.todo[1..], s.c.objs[k], answers[0];
    LeftHead(s.todo, cfg);
    LeftAfter(s, a, t, ops, cfg);
    TodoAfter(s, a, t, ops);
    assert forall op :: op in s.todo <==> op == head || op in rest;
    match head
    case Sweep(_, kind, selector) =>
      var q := Query(kind, selector);
      SweepNames(s, cfg, q, a.order, k);
      assert Asks(head, q);
      assert forall r | Asks(head, r) :: r == q;
      assert Remove(cfg, k) in ops <==> a.fault == NoFault && Hit(q, s.ns, k, o);
      assert forall r :: Listed(s, answers, r) <==> (r == q && a.fault == NoFault) || Listed(t, answers[1..], r);
    case ProbeForRemoval(_) =>
      RemovesHave(cfg, ClusterKeys(cfg.name, t.memo.value), k);
      NoProbeLeft(s.todo);
      assert forall op | op in t.todo :: !op.ProbeForRemoval?;
      MemoStays(t, cfg, answers[1..]);
      assert head == ProbeForRemoval(cfg);
    case DropFinalizer(_) =>
      assert rest == [];
    case ListPooled(_) => UnlabelsOnly(ListNodes(s.c, PoolLabels(cfg.name), a.order), cfg);
    case _ =>
  }

  lemma UnlabelsOnly(seen: seq<Seen>, cfg: Config)
    ensures forall op | op in UnlabelOps(seen, cfg) :: op.UnlabelNode?
  {
  }

  lemma NoProbeLeft(todo: seq<Op>)
    requires Once(todo) && todo != [] && todo[0].ProbeForRemoval?
    ensures forall op | op in todo[1..] :: !op.ProbeForRemoval?
  {
  }

  /** A stored object is named by some delete if and only if something leads to it. */
  lemma {:induction false} NamedIff(s: Sys, cfg: Config, answers: seq<Answer>, k: Key)
    requires Left(s.todo, cfg) && Once(s.todo) && EndsWell(s, answers) && After(s, answers).todo == [] && k in s.c.objs
    ensures Named(s, answers, k) <==> Leads(s, cfg, answers, k, s.c.objs[k])
    decreases |answers|
  {
    hide Perform, StepOf, Left, Once, Leads;
    if answers == [] {
      NothingLeads(s, cfg, answers, k, s.c.objs[k]);
    } else {
      var a := answers[0];
      var t := Act(s, Call(a));
      if s.todo == [] {
        NamedIff(t, cfg, answers[1..], k);
        NothingLeads(s, cfg, answers, k, s.c.objs[k]);
        IdleNames(s, answers, k);
      } else if Deletes(s.todo[0], k) {
        LeftHead(s.todo, cfg);
        assert s.todo[0] == Remove(cfg, k);
        PlannedLeads(s, cfg, answers, k, s.c.objs[k]);
      } else {
        LeftHead(s.todo, cfg);
        var ops := CleanupStep(s, a);
        LeadsOn(s, cfg, answers, t, ops, k);
        LeftAfter(s, a, t, ops, cfg);
        OnceAfter(s, a, t, ops, cfg);
        StepObjects(s, a, t, ops);
        NamedIff(t, cfg, answers[1..], k);
      }
    }
  }

  lemma PlannedLeads(s: Sys, cfg: Config, answers: seq<Answer>, k: Key, o: Object)
    requires Remove(cfg, k) in s.todo
    ensures Leads(s, cfg, answers, k, o)
  {
  }

  lemma {:induction false} IdleNames(s: Sys, answers: seq<Answer>, k: Key)
    requires s.todo == []
    ensures !Named(s, answers, k)
    decreases |answers|
  {
    if answers != [] { IdleNames(s, answers[1..], k); }
  }

  lemma {:induction false} IdleLists(s: Sys, answers: seq<Answer>, q: Query)
    requires s.todo == []
    ensures !Listed(s, answers, q)
    decreases |answers|
  {
    if answers != [] { IdleLists(s, answers[1..], q); }
  }

  lemma NothingLeads(s: Sys, cfg: Config, answers: seq<Answer>, k: Key, o: Object)
    requires s.todo == []
    ensures !Leads(s, cfg, answers, k, o)
  {
    forall q ensures !Listed(s, answers, q) { IdleLists(s, answers, q); }
  }

  lemma OnceAfter(s: Sys, a: Answer, t: Sys, ops: seq<Op>, cfg: Config)
    requires s.todo != [] && Left(s.todo, cfg) && Once(s.todo) && StepOf(s, a, t, ops)
    ensures Once(t.todo)
  {
    hide ObjectNames, Arrange, Keys, PoolLabels, ClusterKeys, ListNodes;
    OnceRest(s.todo);
    if s.todo[0].ListPooled? {
      SeenDistinct(s.c, PoolLabels(s.todo[0].cfg.name), a.order);
      OncePooled(s.todo, ops, ListNodes(s.c, PoolLabels(s.todo[0].cfg.name), a.order), s.todo[0].cfg);
    } else {
      OncePlain(ops, s.todo[1..]);
    }
  }

  lemma SeenDistinct(c: Store, selector: Labels, order: seq<string>)
    ensures var seen := ListNodes(c, selector, order); forall i, j | 0 <= i < j < |seen| :: seen[i].name != seen[j].name
  {
    ListedNodes(c, selector, order);
  }

  lemma OncePlain(ops: seq<Op>, rest: seq<Op>)
    requires Once(rest) && forall op | op in ops :: op.Remove?
    ensures Once(ops + rest)
  {
    forall i, j | 0 <= i < j < |ops + rest|
      ensures var a, b := (ops + rest)[i], (ops + rest)[j];
        && !(a.UnlabelNode? && b.UnlabelNode? && a.seen.name == b.seen.name)
        && !((a.UnlabelNode? || a.ListPooled?) && b.ListPooled?)
        && !(a.ProbeForRemoval? && b.ProbeForRemoval?) && !(a.ListPooled? && b.UnlabelNode?)
    {
      if i < |ops| { assert (ops + rest)[i] in ops; }
      else { assert (ops + rest)[i] == rest[i - |ops|] && (ops + rest)[j] == rest[j - |ops|]; }
    }
  }

  lemma OncePooled(todo: seq<Op>, ops: seq<Op>, seen: seq<Seen>, cfg: Config)
    requires Once(todo) && todo != [] && todo[0].ListPooled? && ops == UnlabelOps(seen, cfg)
    requires forall i, j | 0 <= i < j < |seen| :: seen[i].name != seen[j].name
    ensures Once(ops + todo[1..])
  {
    var rest := todo[1..];
    assert forall j | 0 <= j < |rest| :: !rest[j].ListPooled? && !rest[j].UnlabelNode? by {
      assert forall j | 0 <= j < |rest| :: rest[j] == todo[j + 1];
    }
    forall i, j | 0 <= i < j < |ops + rest|
      ensures var a, b := (ops + rest)[i], (ops + rest)[j];
        && !(a.UnlabelNode? && b.UnlabelNode? && a.seen.name == b.seen.name)
        && !((a.UnlabelNode? || a.ListPooled?) && b.ListPooled?)
        && !(a.ProbeForRemoval? && b.ProbeForRemoval?) && !(a.ListPooled? && b.UnlabelNode?)
    {
      if i >= |ops| { assert (ops + rest)[i] == todo[i - |ops| + 1] && (ops + rest)[j] == todo[j - |ops| + 1]; }
    }
  }

  // ---------------------------------------------------------------- nodes

  /** Nodes are still as they were listed. */
  predicate Fresh(s: Sys) {
    forall op | op in s.todo && op.UnlabelNode? :: Current(s.c, op.seen)
  }

  /** Node `n` is still to be sent. */
  predicate Pending(s: Sys, cfg: Config, n: string)
    requires n in s.c.nodes
  {
    (exists op | op in s.todo :: SendsNode(op, n))
    || (ListPooled(cfg) in s.todo && Matches(PoolLabels(cfg.name), s.c.nodes[n]))
  }

  lemma UnlabelDispatch(s: Sys, a: Answer)
    requires s.todo != [] && s.todo[0].UnlabelNode?
    ensures var seen := s.todo[0].seen;
      Perform(s, a) == PerformAnyway(s, a, UpdateNode(s.c, seen.name, seen.rv, seen.labels - MANAGED))
  {
    hide UpdateNode, PerformAnyway;
  }

  lemma UpdateNodeEffect(c: Store, seen: Seen, l: Labels, a: Answer)
    requires Current(c, seen)
    ensures var d := Effect(a, c, UpdateNode(c, seen.name, seen.rv, l)).0;
      && (a.fault == Refused ==> d == c)
      && (a.fault != Refused ==> d.nodes == c.nodes[seen.name := l])
      && forall n | n != seen.name :: Rv(d.nodeRv, n) == Rv(c.nodeRv, n)
  {
    if c.nodes[seen.name] == l { assert c.nodes[seen.name := l] == c.nodes; }
  }

  lemma UnlabelStep(s: Sys, a: Answer, n: string)
    requires s.todo != [] && s.todo[0].UnlabelNode? && Current(s.c, s.todo[0].seen) && n in s.c.nodes
    ensures var t, seen := Perform(s, a), s.todo[0].seen;
      && t.c.nodes.Keys == s.c.nodes.Keys
      && t.c.nodes[n] == (if seen.name == n && a.fault != Refused then s.c.nodes[n] - MANAGED else s.c.nodes[n])
      && (seen.name != n ==> Rv(t.c.nodeRv, n) == Rv(s.c.nodeRv, n))
  {
    hide Perform, UpdateNode, Effect;
    UnlabelDispatch(s, a);
    UpdateNodeEffect(s.c, s.todo[0].seen, s.todo[0].seen.labels - MANAGED, a);
  }

  lemma OthersFresh(s: Sys, a: Answer, t: Sys)
    requires s.todo != [] && s.todo[0].UnlabelNode? && Once(s.todo) && Fresh(s) && t == Perform(s, a)
      && t.todo == s.todo[1..]
    ensures Fresh(t)
  {
    hide Perform;
    assert s.todo[0] in s.todo;
    forall op | op in t.todo && op.UnlabelNode? ensures Current(t.c, op.seen) {
      var i :| 0 < i < |s.todo| && s.todo[i] == op;
      UnlabelStep(s, a, op.seen.name);
    }
  }

  lemma FreshAfter(s: Sys, a: Answer, t: Sys, ops: seq<Op>, cfg: Config)
    requires s.todo != [] && Left(s.todo, cfg) && Once(s.todo) && Fresh(s) && t == Perform(s, a) && StepOf(s, a, t, ops)
    ensures Fresh(t) && t.c.nodes.Keys == s.c.nodes.Keys
  {
    hide Perform, Left, ObjectNames, Arrange, Keys, ListNodes, PoolLabels, ClusterKeys;
    assert s.todo[0] in s.todo;
    LeftHead(s.todo, cfg);
    TodoAfter(s, a, t, ops);
    if s.todo[0].UnlabelNode? {
      assert ops == [] && [] + s.todo[1..] == s.todo[1..];
      OthersFresh(s, a, t);
      forall n | n in s.c.nodes ensures n in t.c.nodes { UnlabelStep(s, a, n); }
      if s.c.nodes != map[] { var n :| n in s.c.nodes; UnlabelStep(s, a, n); }
    } else if s.todo[0].ListPooled? {
      ListedFresh(s.c, PoolLabels(s.todo[0].cfg.name), a.order, s.todo[0].cfg);
    } else {
      assert forall op | op in ops :: !op.UnlabelNode?;
    }
  }

  lemma ListedFresh(c: Store, selector: Labels, order: seq<string>, cfg: Config)
    ensures forall op | op in UnlabelOps(ListNodes(c, selector, order), cfg) :: op.UnlabelNode? && Current(c, op.seen)
  {
    ListedNodes(c, selector, order);
  }

  lemma PoolPlanned(c: Store, x: string, order: seq<string>, cfg: Config, n: string)
    requires n in c.nodes
    ensures (exists op | op in UnlabelOps(ListNodes(c, PoolLabels(x), order), cfg) :: SendsNode(op, n))
      <==> Matches(PoolLabels(x), c.nodes[n])
  {
    hide ListNodes, PoolLabels;
    var seen := ListNodes(c, PoolLabels(x), order);
    ListedNodes(c, PoolLabels(x), order);
    if Matches(PoolLabels(x), c.nodes[n]) {
      var i :| 0 <= i < |seen| && seen[i].name == n;
      assert UnlabelOps(seen, cfg)[i] in UnlabelOps(seen, cfg) && SendsNode(UnlabelOps(seen, cfg)[i], n);
    }
    if op :| op in UnlabelOps(seen, cfg) && SendsNode(op, n) {
      var i :| 0 <= i < |seen| && UnlabelOps(seen, cfg)[i] == op;
      assert Current(c, seen[i]);
    }
  }

  /** A call that is not the sending of `n` leaves it as pending as it was. */
  lemma PendingOn(s: Sys, a: Answer, t: Sys, ops: seq<Op>, cfg: Config, n: string)
    requires s.todo != [] && Left(s.todo, cfg) && Once(s.todo) && Fresh(s) && StepOf(s, a, t, ops) && t == Perform(s, a)
    requires n in s.c.nodes && n in t.c.nodes && !SendsNode(s.todo[0], n)
    ensures t.c.nodes[n] == s.c.nodes[n] && (Pending(t, cfg, n) <==> Pending(s, cfg, n))
  {
    hide Perform, Left, Once, ObjectNames, Arrange, Keys, ListNodes, PoolLabels, ClusterKeys, Removes, UnlabelOps,
      Matches;
    var head := s.todo[0];
    assert head in s.todo;
    LeftHead(s.todo, cfg);
    LeftAfter(s, a, t, ops, cfg);
    TodoAfter(s, a, t, ops);
    assert forall op :: op in s.todo <==> op == head || op in s.todo[1..];
    if head.UnlabelNode? {
      UnlabelStep(s, a, n);
    } else if head.ListPooled? {
      NothingPooledLeft(s.todo);
      PoolPlanned(s.c, cfg.name, a.order, cfg, n);
    } else if head.DropFinalizer? {
      assert s.todo[1..] == [];
    } else {
      assert forall op | op in ops :: op.Remove? by { OnlyRemoves(s, a, t, ops); }
    }
  }

  lemma OnlyRemoves(s: Sys, a: Answer, t: Sys, ops: seq<Op>)
    requires s.todo != [] && StepOf(s, a, t, ops) && !s.todo[0].ListPooled?
    ensures forall op | op in ops :: op.Remove?
  {
    hide ObjectNames, Arrange, Keys, ClusterKeys;
  }

  lemma NothingPooledLeft(todo: seq<Op>)
    requires Once(todo) && todo != [] && todo[0].ListPooled?
    ensures forall op | op in todo[1..] :: !op.ListPooled? && !op.UnlabelNode?
  {
  }

  lemma NotAgain(todo: seq<Op>, n: string)
    requires Once(todo) && todo != [] && SendsNode(todo[0], n)
    ensures forall op | op in todo[1..] :: !SendsNode(op, n) && !op.ListPooled?
  {
  }

  /** A node keeps its labels if and only if it is not to be sent or its update is refused. */
  lemma {:induction false} NodeFate(s: Sys, cfg: Config, answers: seq<Answer>, n: string)
    requires Left(s.todo, cfg) && Once(s.todo) && Fresh(s) && EndsWell(s, answers) && After(s, answers).todo == []
    requires n in s.c.nodes
    ensures n in After(s, answers).c.nodes && (NodeRefused(s, answers, n) ==> Pending(s, cfg, n))
    ensures After(s, answers).c.nodes[n] ==
      if Pending(s, cfg, n) && !NodeRefused(s, answers, n) then s.c.nodes[n] - MANAGED else s.c.nodes[n]
    decreases |answers|
  {
    hide Perform, StepOf, Left, Once, Fresh, PoolLabels;
    if answers != [] {
      var a := answers[0];
      var t := Act(s, Call(a));
      if s.todo == [] {
        NodeFate(t, cfg, answers[1..], n);
      } else {
        LeftHead(s.todo, cfg);
        var ops := CleanupStep(s, a);
        LeftAfter(s, a, t, ops, cfg);
        OnceAfter(s, a, t, ops, cfg);
        FreshAfter(s, a, t, ops, cfg);
        NodeFate(t, cfg, answers[1..], n);
        if SendsNode(s.todo[0], n) {
          SentOnce(s, a, t, ops, cfg, n);
        } else {
          PendingOn(s, a, t, ops, cfg, n);
        }
      }
    }
  }

  lemma SentOnce(s: Sys, a: Answer, t: Sys, ops: seq<Op>, cfg: Config, n: string)
    requires s.todo != [] && Once(s.todo) && Fresh(s) && StepOf(s, a, t, ops) && t == Perform(s, a)
    requires n in s.c.nodes && SendsNode(s.todo[0], n)
    ensures Pending(s, cfg, n) && n in t.c.nodes && !Pending(t, cfg, n)
    ensures t.c.nodes[n] == if a.fault != Refused then s.c.nodes[n] - MANAGED else s.c.nodes[n]
  {
    hide Perform, Once, PoolLabels;
    assert s.todo[0] in s.todo;
    UnlabelStep(s, a, n);
    NotAgain(s.todo, n);
    assert t.todo == s.todo[1..] by { assert [] + s.todo[1..] == s.todo[1..]; }
  }

  // ---------------------------------------------------------------- the custom resource

  /** The finalizer goes and no error is returned. */
  lemma {:induction false} ReleaseFate(s: Sys, cfg: Config, answers: seq<Answer>)
    requires Left(s.todo, cfg) && s.todo != [] && EndsWell(s, answers) && After(s, answers).todo == []
    requires Deletable(s.c, cfg.name) && cfg == Stored(s.c, cfg.name)
    ensures var t := After(s, answers); !t.failed && t.c.crs == Released(s.c.crs, cfg.name)
    decreases |answers|
  {
    hide Perform, StepOf, Left, Released, Stored;
    var a := answers[0];
    var t := Act(s, Call(a));
    LeftHead(s.todo, cfg);
    if s.todo[0].DropFinalizer? {
      assert s.todo == [DropFinalizer(cfg)] by { LastDrop(s.todo, cfg); }
      DropAccepted(s, cfg, a);
      IdleStays(t, answers[1..]);
    } else {
      var ops := CleanupStep(s, a);
      LeftAfter(s, a, t, ops, cfg);
      StepKeepsCr(s, a, t, ops, cfg);
      ReleaseFate(t, cfg, answers[1..]);
    }
  }

  lemma LastDrop(todo: seq<Op>, cfg: Config)
    requires Left(todo, cfg) && |todo| == 1
    ensures todo == [DropFinalizer(cfg)]
  {
  }

  lemma StepKeepsCr(s: Sys, a: Answer, t: Sys, ops: seq<Op>, cfg: Config)
    requires s.todo != [] && !s.todo[0].DropFinalizer? && StepOf(s, a, t, ops) && |s.todo| > 1 && cfg.name in s.c.crs
    ensures t.c.crs == s.c.crs && t.todo != [] && Stored(t.c, cfg.name) == Stored(s.c, cfg.name)
  {
  }

  lemma DropAccepted(s: Sys, cfg: Config, a: Answer)
    requires s.todo == [DropFinalizer(cfg)] && Deletable(s.c, cfg.name) && cfg == Stored(s.c, cfg.name)
      && a.fault == NoFault
    ensures var t := Act(s, Call(a)); t.todo == [] && !t.failed && t.c.crs == Released(s.c.crs, cfg.name)
  {
    hide Released, SettleCR, Perform;
    DropSettles(s, cfg, a);
    SettledCrs(s.c, cfg.name);
  }

  lemma DropSettles(s: Sys, cfg: Config, a: Answer)
    requires s.todo == [DropFinalizer(cfg)] && cfg.name in s.c.crs && cfg == Stored(s.c, cfg.name) && a.fault == NoFault
    ensures var t := Perform(s, a);
      && t.todo == [] && !t.failed
      && t.c == SettleCR(s.c, cfg.name, s.c.crs[cfg.name].(finalizers := s.c.crs[cfg.name].finalizers - {FINALIZER}))
  {
    hide SettleCR;
  }

  lemma {:induction false} IdleStays(s: Sys, answers: seq<Answer>)
    requires s.todo == []
    ensures After(s, answers) == s
    decreases |answers|
  {
    if answers != [] { IdleStays(s, answers[1..]); }
  }

  // ---------------------------------------------------------------- a whole cleanup, whatever is answered

  /** The label queries find `k` with a list that works, or its name is on the list of names for what is remembered. */
  ghost predicate Found(s: Sys, x: string, answers: seq<Answer>, k: Key)
    requires k in s.c.objs
  {
    || (exists q | q in SweepQueries(x) :: Hit(q, s.ns, k, s.c.objs[k]) && Listed(s, answers, q))
    || (After(s, answers).memo.Some? && k in ClusterKeys(x, After(s, answers).memo.value))
  }

  /**
   * Whatever the calls of a cleanup are answered, as long as the one list of nodes and the release at the end work: it
   * returns no error and the finalizer goes. An object survives if and only if every delete that names it is refused;
   * some delete names it if and only if a query that matches it is listed successfully or its name is on the list. A
   * node of the pool keeps its managed labels if and only if its update is refused, and no other node is written.
   */
  lemma SurvivesIffRefused(s: Sys, cfg: Config, answers: seq<Answer>)
    requires s.todo == DeleteProgram(cfg, s.memo) && Deletable(s.c, cfg.name) && cfg == Stored(s.c, cfg.name)
    requires EndsWell(s, answers) && Replay(s, Calls(answers)).todo == []
    ensures var t := Replay(s, Calls(answers));
      && !t.failed && t.c.crs == Released(s.c.crs, cfg.name)
      && (forall k | k in s.c.objs ::
            && (k in t.c.objs <==> AllRefused(s, answers, k))
            && (Named(s, answers, k) <==> Found(s, cfg.name, answers, k)))
      && (forall n | n in s.c.nodes :: n in t.c.nodes && t.c.nodes[n] ==
            if Matches(PoolLabels(cfg.name), s.c.nodes[n]) && !NodeRefused(s, answers, n) then s.c.nodes[n] - MANAGED
            else s.c.nodes[n])
  {
    hide DeleteProgram, Left, Once, Fresh, PoolLabels, Released, Pending, Named, AllRefused, NodeRefused, Found,
      EndsWell;
    AfterIsReplay(s, answers);
    ProgramShape(s, cfg);
    ReleaseFate(s, cfg, answers);
    forall k | k in s.c.objs
      ensures (k in After(s, answers).c.objs <==> AllRefused(s, answers, k))
           && (Named(s, answers, k) <==> Found(s, cfg.name, answers, k))
    {
      ObjectFate(s, cfg, answers, k);
      NamedIff(s, cfg, answers, k);
      LeadsIsFound(s, cfg, answers, k);
    }
    forall n | n in s.c.nodes
      ensures n in After(s, answers).c.nodes && After(s, answers).c.nodes[n] ==
        if Matches(PoolLabels(cfg.name), s.c.nodes[n]) && !NodeRefused(s, answers, n) then s.c.nodes[n] - MANAGED
        else s.c.nodes[n]
    {
      NodeFate(s, cfg, answers, n);
      PendingIsPooled(s, cfg, n);
    }
  }

  lemma ProgramShape(s: Sys, cfg: Config)
    requires s.todo == DeleteProgram(cfg, s.memo)
    ensures Left(s.todo, cfg) && Once(s.todo) && Fresh(s) && s.todo != []
  {
    hide ClusterKeys;
  }

  lemma PendingIsPooled(s: Sys, cfg: Config, n: string)
    requires s.todo == DeleteProgram(cfg, s.memo) && n in s.c.nodes
    ensures Pending(s, cfg, n) <==> Matches(PoolLabels(cfg.name), s.c.nodes[n])
  {
    hide ClusterKeys, PoolLabels, Matches;
    DeleteProgramShape(cfg, s.memo);
    assert forall op | op in s.todo :: !op.UnlabelNode?;
  }

  lemma {:induction false} ListedPlanned(s: Sys, cfg: Config, answers: seq<Answer>, q: Query)
    requires Left(s.todo, cfg) && EndsWell(s, answers) && Listed(s, answers, q)
    ensures exists op | op in s.todo :: Asks(op, q)
    decreases |answers|
  {
    hide Perform, StepOf, Left;
    var a := answers[0];
    var t := Act(s, Call(a));
    if s.todo == [] {
      IdleLists(s, answers, q);
      assert false;
    } else {
      assert s.todo[0] in s.todo;
      if !Asks(s.todo[0], q) {
        LeftHead(s.todo, cfg);
        var ops := CleanupStep(s, a);
        LeftAfter(s, a, t, ops, cfg);
        TodoAfter(s, a, t, ops);
        ListedPlanned(t, cfg, answers[1..], q);
      }
    }
  }

  lemma LeadsIsFound(s: Sys, cfg: Config, answers: seq<Answer>, k: Key)
    requires s.todo == DeleteProgram(cfg, s.memo) && k in s.c.objs && Left(s.todo, cfg) && Once(s.todo)
      && EndsWell(s, answers)
    ensures Leads(s, cfg, answers, k, s.c.objs[k]) <==> Found(s, cfg.name, answers, k)
  {
    hide Left, Once, EndsWell, Listed, Hit, ClusterKeys, SweepQueries, After;
    forall q | Listed(s, answers, q) ensures q in SweepQueries(cfg.name) {
      ListedPlanned(s, cfg, answers, q);
      ProgramAsks(cfg, s.memo, q);
    }
    ProgramNames(cfg, s.memo, k);
    if s.memo.Some? { MemoStays(s, cfg, answers) by { ProgramNoProbe(cfg, s.memo); } }
  }

  lemma ProgramNoProbe(cfg: Config, memo: Option<bool>)
    requires memo.Some?
    ensures forall op | op in DeleteProgram(cfg, memo) :: !op.ProbeForRemoval?
  {
    hide ClusterKeys;
  }

  lemma ProgramAsks(cfg: Config, memo: Option<bool>, q: Query)
    requires exists op | op in DeleteProgram(cfg, memo) :: Asks(op, q)
    ensures q in SweepQueries(cfg.name)
  {
    hide ClusterKeys, InstanceLabels;
    var op :| op in DeleteProgram(cfg, memo) && Asks(op, q);
    assert op in Sweeps(cfg);
    var i :| 0 <= i < 6 && Sweeps(cfg)[i] == op;
    assert SweepQueries(cfg.name)[i] == q;
  }

  lemma ProgramNames(cfg: Config, memo: Option<bool>, k: Key)
    ensures Remove(cfg, k) in DeleteProgram(cfg, memo) <==> memo.Some? && k in ClusterKeys(cfg.name, memo.value)
    ensures ProbeForRemoval(cfg) in DeleteProgram(cfg, memo) <==> memo.None?
  {
    hide ClusterKeys, Removes;
    if memo.Some? {
      RemovesHave(cfg, ClusterKeys(cfg.name, memo.value), k);
      assert forall op | op in Removes(cfg, ClusterKeys(cfg.name, memo.value)) :: op.Remove? by {
        RemovesOnly(cfg, ClusterKeys(cfg.name, memo.value));
      }
    }
    assert DeleteProgram(cfg, memo) == Sweeps(cfg) + [ListPooled(cfg)] + ClusterCleanup(cfg, memo)
      + [DropFinalizer(cfg)];
  }
}
