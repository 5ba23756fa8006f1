/**
 * Node labels under any interleaving, including users who put nodes into a pool by hand: no node is left half
 * labelled, and no write of the operator changes a label that is not its own.
 */
module Labelling {
  import opened Basics
  import opened Api
  import opened Resources
  import opened Cluster
  import opened Protocol
  import opened Safety
  import opened Erasure
  import opened Honesty
  import opened Naming
  import opened Authorship

  /** A node with any managed label is in some pool. */
  predicate Pooled(l: Labels) { Managed(l) ==> NodePool in l }

  predicate AllPooled(c: Store) { forall n | n in c.nodes :: Pooled(c.nodes[n]) }

  /** Custom resources have names. */
  predicate PastNamed(c: Store) { forall v | v in c.past :: c.past[v].name != "" }

  predicate LabelInv(s: Sys) {
    HonestInv(s) && RvBound(s.c) && PastNamed(s.c) && SeenAll(s.c, s.todo)
  }

  /** The nodes differ at most in managed labels. */
  predicate OthersKept(c: Store, d: Store) {
    d.nodes.Keys == c.nodes.Keys && forall n | n in c.nodes :: d.nodes[n] - MANAGED == c.nodes[n] - MANAGED
  }

  /** Other clients may put a node into a pool, but set no other managed label without one. */
  predicate PutsPooled(a: Action) {
    match a
    case Elsewhere(PutNode(_, l)) => Pooled(l)
    case _ => true
  }

  lemma SettleNamed(c: Store, name: string, cr: FakeGPUConfig)
    requires PastNamed(c) && name != ""
    ensures PastNamed(SettleCR(c, name, cr))
  {
  }

  lemma SeenKept(s: Sys, t: Sys, ops: seq<Op>)
    requires SeenAll(s.c, s.todo) && s.todo != [] && t.c.nodes == s.c.nodes && t.c.nodeRv == s.c.nodeRv
      && t.c.rev >= s.c.rev
    requires forall op | op in ops && OnNode(op) :: SeenOk(s.c, op.seen)
    requires t.todo == ops + s.todo[1..] || t.todo == []
    ensures SeenAll(t.c, t.todo)
  {
  }

  lemma ReadKeepsSeen(s: Sys, a: Answer)
    requires SeenAll(s.c, s.todo) && RvBound(s.c) && s.todo != [] && Reads(s.todo[0])
    ensures SeenAll(s.c, Perform(s, a).todo) && Perform(s, a).c == s.c
  {
    hide Perform, SeenAll;
    ReadsOnly(s, a);
    if s.todo[0].ListSelected? || s.todo[0].ListPooled? {
      NodeListKeepsSeen(s, a);
    } else {
      var ops := ReadPlans(s, a);
      SeenKept(s, Perform(s, a), ops);
    }
  }

  lemma NodeListKeepsSeen(s: Sys, a: Answer)
    requires SeenAll(s.c, s.todo) && RvBound(s.c) && s.todo != [] && (s.todo[0].ListSelected? || s.todo[0].ListPooled?)
    ensures SeenAll(s.c, Perform(s, a).todo)
  {
    hide SeenAll, ListNodes, LabelOps, NodeListOption, PoolLabels, Desired, RvBound, SeenOk;
    var cfg := s.todo[0].cfg;
    if s.todo[0].ListSelected? {
      var seen := ListNodes(s.c, NodeListOption(cfg.name, cfg.cr.spec), a.order);
      ObserveSeen(s.c, NodeListOption(cfg.name, cfg.cr.spec), a.order);
      LabelOpsFacts(seen, cfg);
      SeenKept(s, Perform(s, a), LabelOps(seen, cfg));
    } else {
      ObserveSeen(s.c, PoolLabels(cfg.name), a.order);
      SeenKept(s, Perform(s, a), UnlabelOps(ListNodes(s.c, PoolLabels(cfg.name), a.order), cfg));
    }
  }

  lemma NodeCallKeeps(s: Sys, a: Answer)
    requires LabelInv(s) && s.todo != [] && OnNode(s.todo[0])
    ensures var t := Perform(s, a);
      && RvBound(t.c) && PastNamed(t.c) && SeenAll(t.c, t.todo) && OthersKept(s.c, t.c)
      && (AllPooled(s.c) ==> AllPooled(t.c))
  {
    hide Perform, Sent, HonestInv, OpGenuine;
    var op, t := s.todo[0], Perform(s, a);
    assert op in s.todo && SeenOk(s.c, op.seen);
    assert op.cfg.name != "" by { HeadNamed(s); }
    NodeWriteEffect(s, a);
    SentKeepsRest(op);
    StoreNodeSeen(s.c, op.seen.name, Sent(op), s.todo);
  }

  lemma HeadNamed(s: Sys)
    requires HonestInv(s) && PastNamed(s.c) && s.todo != [] && OnNode(s.todo[0])
    ensures s.todo[0].cfg.name != ""
  {
    assert s.todo[0] in s.todo && OpGenuine(s.c, s.todo[0]);
  }

  lemma CrCallKeeps(s: Sys, a: Answer)
    requires LabelInv(s) && s.todo != []
      && (s.todo[0].SaveFinalizer? || s.todo[0].SaveStatus? || s.todo[0].DropFinalizer?)
    ensures var t := Perform(s, a);
      && RvBound(t.c) && PastNamed(t.c) && SeenAll(t.c, t.todo) && OthersKept(s.c, t.c)
      && (AllPooled(s.c) ==> AllPooled(t.c))
  {
    hide Perform, HonestInv, SettleCR, SeenAll, SeenOk;
    var t, name := Perform(s, a), s.todo[0].cfg.name;
    var cr := CrWriteShape(s, a);
    CrWriteEffect(s, a);
    if name in s.c.crs { SettleNamed(s.c, name, cr); }
    SeenKept(s, t, if t.todo == [] then [] else [t.todo[0]]);
  }

  lemma CallKeepsLabels(s: Sys, a: Answer)
    requires LabelInv(s) && s.todo != []
    ensures LabelInv(Perform(s, a)) && OthersKept(s.c, Perform(s, a).c)
    ensures AllPooled(s.c) ==> AllPooled(Perform(s, a).c)
  {
    hide Perform, HonestInv, SeenAll, Sent, OpGenuine;
    var op, t := s.todo[0], Perform(s, a);
    CallKeepsHonest(s, a);
    if Reads(op) {
      ReadKeepsSeen(s, a);
    } else if OnNode(op) {
      NodeCallKeeps(s, a);
    } else if op.Create? || op.Replace? {
      WriteEffect(s, a);
      assert [] + s.todo[1..] == s.todo[1..];
      SeenKept(s, t, []);
    } else if op.Remove? {
      RemoveEffect(s, a);
      RemoveRest(s, a);
      assert [] + s.todo[1..] == s.todo[1..];
      SeenKept(s, t, []);
    } else {
      CrCallKeeps(s, a);
    }
  }

  lemma MoveKeepsLabels(s: Sys, m: Move)
    requires LabelInv(s)
    ensures LabelInv(Act(s, Elsewhere(m)))
    ensures AllPooled(s.c) && PutsPooled(Elsewhere(m)) ==> AllPooled(Act(s, Elsewhere(m)).c)
  {
    hide Perform, HonestInv, SettleCR, Pooled;
    MoveKeepsHonest(s, m);
    match m
    case PutNode(n, l) => StoreNodeSeen(s.c, n, l, s.todo);
    case EditCR(name, spec, finalizers) => CrMoveKeepsLabels(s.c, m, s.todo);
    case DeleteCR(name) => CrMoveKeepsLabels(s.c, m, s.todo);
    case _ =>
  }

  lemma CrMoveKeepsLabels(c: Store, m: Move, todo: seq<Op>)
    requires (m.EditCR? || m.DeleteCR?) && RvBound(c) && PastNamed(c) && SeenAll(c, todo)
    ensures var d := ApplyMove(c, m); RvBound(d) && PastNamed(d) && SeenAll(d, todo) && d.nodes == c.nodes
  {
    hide SettleCR, Pooled;
    CrMoveKeepsNodes(c, m);
    if m.name in c.crs {
      SettleNamed(c, m.name, if m.EditCR?
        then c.crs[m.name].(spec := m.spec, finalizers := KeepFinalizer(c.crs[m.name].finalizers, m.finalizers))
                             else c.crs[m.name].(deleting := true));
    }
  }

  lemma IdleKeepsLabels(s: Sys, a: Action)
    requires LabelInv(s) && (a.Request? || a.Restart?)
    ensures LabelInv(Act(s, a))
  {
    hide HonestInv;
    IdleHonest(s, a);
  }

  lemma ActKeepsLabels(s: Sys, a: Action)
    requires LabelInv(s)
    ensures LabelInv(Act(s, a)) && (AllPooled(s.c) && PutsPooled(a) ==> AllPooled(Act(s, a).c))
  {
    hide LabelInv, Perform, AllPooled;
    match a
    case Call(answer) => if s.todo != [] { CallKeepsLabels(s, answer); }
    case Elsewhere(m) => MoveKeepsLabels(s, m);
    case _ => IdleKeepsLabels(s, a);
  }

  lemma {:induction false} ReplayKeepsLabels(s: Sys, h: seq<Action>)
    requires LabelInv(s)
    ensures LabelInv(Replay(s, h))
    ensures AllPooled(s.c) && (forall a | a in h :: PutsPooled(a)) ==> AllPooled(Replay(s, h).c)
    decreases |h|
  {
    hide LabelInv, Act, AllPooled;
    if h != [] {
      ActKeepsLabels(s, h[0]);
      ReplayKeepsLabels(Act(s, h[0]), h[1..]);
    }
  }

  /** Where a history may start: nobody is at work and stored versions are recorded. */
  predicate Recorded(s: Sys) {
    s.todo == [] && HistoryOk(s.c) && RvBound(s.c) && PastNamed(s.c)
  }

  /**
   * In every state of every history - stale reads, faults, restarts, failing deletions, nodes put into pools by hand -
   * a node with any managed label carries a pool label; and the operator's next call, whatever it is and however it is
   * answered, changes no label but managed ones, even if somebody wrote the node after the operator listed it.
   */
  lemma LabelsSafe(s: Sys, h: seq<Action>, a: Answer)
    requires Recorded(s)
    ensures AllPooled(s.c) && (forall b | b in h :: PutsPooled(b)) ==> AllPooled(Replay(s, h).c)
    ensures OthersKept(Replay(s, h).c, Act(Replay(s, h), Call(a)).c)
  {
    hide Perform, Act, AllPooled;
    assert LabelInv(s);
    ReplayKeepsLabels(s, h);
    NextCallKeeps(Replay(s, h), a);
  }

  lemma NextCallKeeps(t: Sys, a: Answer)
    requires LabelInv(t)
    ensures OthersKept(t.c, Act(t, Call(a)).c)
  {
    hide Perform;
    if t.todo != [] { CallKeepsLabels(t, a); }
  }

  /**
   * No call touches anything of anybody else's: in every history in which others put only objects of their own, and
   * label none so that a cleanup finds it, whatever is read, answered, lost or restarted, the next call leaves every
   * object outside the operator's keys and every unmanaged label of every node as it was.
   */
  lemma OnlyOwnTouched(s: Sys, h: seq<Action>, a: Answer)
    requires Recorded(s) && Neat(s.c, s.ns) && CourteousHistory(s, h)
    ensures var c, d := Replay(s, h).c, Act(Replay(s, h), Call(a)).c; ForeignKept(c, d, s.ns) && OthersKept(c, d)
  {
    hide Perform, Neat, CourteousHistory, Reserved;
    LabelsSafe(s, h, a);
    ReplayKeepsOwned(s, h);
    var t := Replay(s, h);
    if t.todo != [] {
      assert t.todo[0] in t.todo;
      CallKeepsNeat(t, a);
    }
  }
}
