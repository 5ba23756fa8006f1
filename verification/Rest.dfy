/**
 * When the loop from node events to runs comes to rest: exactly when no two custom resources clash on a node. If two
 * do, their runs write that node for ever; if none do, one undisturbed run of each is enough for good.
 */
module Rest {
  import opened Basics
  import opened Api
  import opened Resources
  import opened Cluster
  import opened Protocol
  import opened Safety
  import opened Erasure
  import opened Quiescence
  import opened Authorship
  import opened Helm
  import opened Convergence
  import opened Recovery
  import opened Outcome

  // ---------------------------------------------------------------- histories of runs

  lemma {:induction false} WritesAdd(s: Sys, g: seq<Action>, h: seq<Action>)
    ensures NodeWrites(s, g + h) == NodeWrites(s, g) + NodeWrites(Replay(s, g), h)
    decreases |g|
  {
    hide Act;
    if g == [] {
      assert g + h == h;
    } else {
      assert (g + h)[0] == g[0] && (g + h)[1..] == g[1..] + h;
      WritesAdd(Act(s, g[0]), g[1..], h);
    }
  }

  lemma {:induction false} ChangeIsWrite(s: Sys, h: seq<Action>)
    requires Replay(s, h).c.nodes != s.c.nodes
    ensures NodeWrites(s, h) >= 1
    decreases |h|
  {
    hide Act;
    if h != [] && Act(s, h[0]).c.nodes == s.c.nodes { ChangeIsWrite(Act(s, h[0]), h[1..]); }
  }

  lemma RunUndisturbed(lists: Order, at: nat, x: string, done: nat)
    requires at <= done
    ensures forall a | a in RunHistory(lists, at, x, done) :: Undisturbed(a)
  {
    var h := RunHistory(lists, at, x, done);
    forall i | 0 <= i < |h| ensures Undisturbed(h[i]) {
      if i > 0 { assert h[i] == QuietCalls(lists, at, done - at)[i - 1] == Call(Working(lists, at + (i - 1))); }
    }
  }

  /** A state an undisturbed run for `x` can start from, and what that run makes of it. */
  lemma OneRun(lists: Order, at: nat, s: Sys, x: string) returns (done: nat, t: Sys)
    requires Startable(s, x) && MemoHonest(s)
    ensures at <= done && Quietly(lists, at, Act(s, Request(x)), done, t)
      && t == Replay(s, RunHistory(lists, at, x, done))
    ensures t.ns == s.ns && t.c.openShift == s.c.openShift && ContentsOf(t.c) == Goal(s.c, s.ns, x)
    ensures Startable(t, x) && MemoHonest(t)
  {
    hide Act, Goal, Applicable, HelmStored, Neat, RvBound, Quietly;
    done, t := RunReachesGoal(lists, at, s, x);
    QuietlyForward(lists, at, Act(s, Request(x)), done, t);
    RunIsHistory(lists, at, s, x, done, t);
    RunStruggles(lists, at, s, x, done);
    StruggleLeavesOrder(s, x, RunHistory(lists, at, x, done));
  }

  /** A run for `x` changes no spec and takes no custom resource away. */
  lemma RunKeepsOthers(c: Store, ns: string, x: string, d: Store)
    requires Applicable(c, x) && ContentsOf(d) == Goal(c, ns, x)
    ensures d.nodes == Labelled(c.nodes, x, c.crs[x].spec) && d.crs.Keys == c.crs.Keys
    ensures forall y | y in c.crs :: d.crs[y].spec == c.crs[y].spec && (Applicable(c, y) ==> Applicable(d, y))
  {
    hide Plan, ResolveProfile, Labelled, Writes, PutAll, GoalStatus;
  }

  // ---------------------------------------------------------------- clashes

  /** The custom resource selects nodes by labels of their own, none of which the operator sets. */
  predicate OwnSelector(spec: Spec) {
    spec.nodeSelector != map[] && UnmanagedSelector(spec)
  }

  /** The labels of a node the operator has labelled for this custom resource and for no other. */
  function LabelsFor(l: Labels, x: string, spec: Spec): Labels { (l - MANAGED) + DesiredLabels(x, spec) }

  /** `x` selects the node whatever the operator does, and `y` selects it as `x` wants it. */
  predicate Clash(c: Store, n: string, x: string, y: string) {
    && x != y && Applicable(c, x) && Applicable(c, y) && n in c.nodes
    && OwnSelector(c.crs[x].spec) && Selects(x, c.crs[x].spec, c.nodes[n])
    && Selects(y, c.crs[y].spec, LabelsFor(c.nodes[n], x, c.crs[x].spec))
  }

  /** Nothing on any node is other than `x` wants it. */
  ghost predicate Satisfied(c: Store, x: string)
    requires x in c.crs
  {
    forall n, k | n in c.nodes :: !Wants(c, x, n, k)
  }

  /** No run would label a node. */
  ghost predicate AtRest(c: Store) {
    forall x | Applicable(c, x) :: Satisfied(c, x)
  }

  /** `d` differs from `c` at most in the managed labels of nodes. */
  predicate Relabelled(c: Store, d: Store) {
    d.crs == c.crs && d.nodes.Keys == c.nodes.Keys && forall n | n in c.nodes ::
      d.nodes[n] - MANAGED == c.nodes[n] - MANAGED
  }

  lemma UnmanagedAgree(x: string, spec: Spec, l: Labels, m: Labels)
    requires OwnSelector(spec) && l - MANAGED == m - MANAGED
    ensures Selects(x, spec, l) ==> Selects(x, spec, m)
  {
    if Selects(x, spec, l) {
      forall k | k in spec.nodeSelector ensures k in m && m[k] == spec.nodeSelector[k] {
        assert k in l - MANAGED && (l - MANAGED)[k] == l[k];
      }
    }
  }

  /** A selector that matches a node without any managed label asks for none. */
  lemma SelectsBare(x: string, spec: Spec, l: Labels)
    requires Selects(x, spec, l - MANAGED)
    ensures OwnSelector(spec) && Selects(x, spec, l)
  {
    assert spec.nodeSelector == map[] ==> NodePool in NodeListOption(x, spec);
  }

  /** Whoever selects a node as `x` wants it still does when it has further managed labels. */
  lemma SelectsMore(y: string, other: Spec, l: Labels, x: string, spec: Spec, m: Labels)
    requires Selects(y, other, LabelsFor(l, x, spec)) && m - MANAGED == l - MANAGED
    requires forall k | k in DesiredLabels(x, spec) :: k in m && m[k] == DesiredLabels(x, spec)[k]
    ensures Selects(y, other, m)
  {
    hide DesiredLabels;
    forall k | k in NodeListOption(y, other) ensures k in m && m[k] == NodeListOption(y, other)[k] {
      if k !in DesiredLabels(x, spec) { assert k in m - MANAGED && (m - MANAGED)[k] == m[k]; }
    }
  }

  lemma SatisfiedLabels(c: Store, x: string, n: string)
    requires Applicable(c, x) && Satisfied(c, x) && n in c.nodes && Selects(x, c.crs[x].spec, c.nodes[n])
    ensures var want := DesiredLabels(x, c.crs[x].spec);
      forall k | k in want :: k in c.nodes[n] && c.nodes[n][k] == want[k]
  {
    hide DesiredLabels, Selects, ResolveProfile;
    DesiredNonEmpty(x, c.crs[x].spec);
    forall k | k in DesiredLabels(x, c.crs[x].spec)
      ensures k in c.nodes[n] && c.nodes[n][k] == DesiredLabels(x, c.crs[x].spec)[k] {
      assert !Wants(c, x, n, k);
    }
  }

  /** Two custom resources never agree on the pool of a node. */
  lemma NoTwoSatisfied(c: Store, x: string, y: string, n: string)
    requires x != y && Applicable(c, x) && Applicable(c, y) && Satisfied(c, x) && Satisfied(c, y) && n in c.nodes
    ensures !(Selects(x, c.crs[x].spec, c.nodes[n]) && Selects(y, c.crs[y].spec, c.nodes[n]))
  {
    hide DesiredLabels, Selects, ResolveProfile, Satisfied;
    DesiredManaged(x, c.crs[x].spec);
    DesiredManaged(y, c.crs[y].spec);
    if Selects(x, c.crs[x].spec, c.nodes[n]) && Selects(y, c.crs[y].spec, c.nodes[n]) {
      SatisfiedLabels(c, x, n);
      SatisfiedLabels(c, y, n);
    }
  }

  lemma ClashNeverSatisfied(c: Store, d: Store, n: string, x: string, y: string)
    requires Clash(c, n, x, y) && Relabelled(c, d)
    ensures !AtRest(d)
  {
    hide DesiredLabels, Selects, ResolveProfile, Satisfied, OwnSelector, LabelsFor;
    if AtRest(d) {
      UnmanagedAgree(x, c.crs[x].spec, c.nodes[n], d.nodes[n]);
      SatisfiedLabels(d, x, n);
      SelectsMore(y, c.crs[y].spec, c.nodes[n], x, c.crs[x].spec, d.nodes[n]);
      NoTwoSatisfied(d, x, y, n);
    }
  }

  ghost predicate Owns(c: Store, x: string, n: string)
    requires n in c.nodes
  {
    Applicable(c, x) && OwnSelector(c.crs[x].spec) && Selects(x, c.crs[x].spec, c.nodes[n])
  }

  /** Each node labelled for the one that selects it whatever the operator does, or not at all. */
  ghost function OwnerLabels(c: Store, n: string): (l: Labels)
    requires n in c.nodes
    ensures l - MANAGED == c.nodes[n] - MANAGED
    ensures (l == c.nodes[n] - MANAGED && forall x :: !Owns(c, x, n))
      || exists x :: Owns(c, x, n) && l == LabelsFor(c.nodes[n], x, c.crs[x].spec)
  {
    if x :| Owns(c, x, n) then
      DesiredManaged(x, c.crs[x].spec);
      LabelsFor(c.nodes[n], x, c.crs[x].spec)
    else c.nodes[n] - MANAGED
  }

  lemma OwnerSatisfied(c: Store, d: Store, x: string, n: string, k: LabelKey)
    requires d == c.(nodes := map m | m in c.nodes :: OwnerLabels(c, m))
    requires forall m, y, z :: !Clash(c, m, y, z)
    requires Applicable(c, x) && n in c.nodes
    ensures !Wants(d, x, n, k)
  {
    hide Selects, DesiredLabels, ResolveProfile, OwnSelector;
    var spec, l := c.crs[x].spec, d.nodes[n];
    if Selects(x, spec, l) {
      if y :| Owns(c, y, n) && l == LabelsFor(c.nodes[n], y, c.crs[y].spec) {
        assert !Clash(c, n, y, x);
        assert forall j | j in DesiredLabels(x, spec) :: j in l && l[j] == DesiredLabels(x, spec)[j];
      } else {
        assert !Owns(c, x, n);
        SelectsBare(x, spec, c.nodes[n]);
      }
    }
  }

  /**
   * Some setting of the managed labels leaves no run anything to label if and only if no two custom resources clash.
   * Nothing is asked of the custom resources or their selectors.
   */
  lemma RestsIffNoClash(c: Store)
    ensures (exists d :: Relabelled(c, d) && AtRest(d)) <==> forall n, x, y :: !Clash(c, n, x, y)
  {
    hide Applicable, OwnSelector, Selects, LabelsFor;
    if forall n, x, y :: !Clash(c, n, x, y) {
      var d := c.(nodes := map n | n in c.nodes :: OwnerLabels(c, n));
      forall x | Applicable(d, x) ensures x in d.crs && Satisfied(d, x) {
        SameApplicable(c, d, x);
        forall n, k | n in d.nodes ensures !Wants(d, x, n, k) { OwnerSatisfied(c, d, x, n, k); }
      }
      assert Relabelled(c, d) && AtRest(d);
    }
    forall d, n, x, y | Relabelled(c, d) && AtRest(d) ensures !Clash(c, n, x, y) {
      if Clash(c, n, x, y) { ClashNeverSatisfied(c, d, n, x, y); }
    }
  }

  lemma SameApplicable(c: Store, d: Store, x: string)
    requires c.crs == d.crs
    ensures Applicable(c, x) <==> Applicable(d, x)
    ensures Applicable(c, x) ==> x in c.crs
  {
  }

  /** With selectors that ask for no managed label, a clash is two custom resources with selectors on one node. */
  lemma UnmanagedClash(c: Store, n: string, x: string, y: string)
    requires x != y && Applicable(c, x) && Applicable(c, y) && n in c.nodes
    requires UnmanagedSelector(c.crs[x].spec) && UnmanagedSelector(c.crs[y].spec)
    ensures Clash(c, n, x, y)
      <==> OwnSelector(c.crs[x].spec) && OwnSelector(c.crs[y].spec)
           && Selects(x, c.crs[x].spec, c.nodes[n]) && Selects(y, c.crs[y].spec, c.nodes[n])
  {
    hide DesiredLabels, ResolveProfile;
    DesiredManaged(x, c.crs[x].spec);
    var l, m := c.nodes[n], LabelsFor(c.nodes[n], x, c.crs[x].spec);
    assert m - MANAGED == l - MANAGED;
    if OwnSelector(c.crs[y].spec) {
      UnmanagedAgree(y, c.crs[y].spec, l, m);
      UnmanagedAgree(y, c.crs[y].spec, m, l);
    } else {
      assert NodeListOption(y, c.crs[y].spec)[NodePool] == y && m[NodePool] == x;
    }
  }

  /** No node is selected by two custom resources that both have a selector. */
  ghost predicate Unshared(c: Store) {
    forall n, x, y | n in c.nodes && Applicable(c, x) && Applicable(c, y) && x != y
      && c.crs[x].spec.nodeSelector != map[] && c.crs[y].spec.nodeSelector != map[] ::
      !(Selects(x, c.crs[x].spec, c.nodes[n]) && Selects(y, c.crs[y].spec, c.nodes[n]))
  }

  lemma UnsharedNoClash(c: Store)
    requires forall x | Applicable(c, x) :: UnmanagedSelector(c.crs[x].spec)
    ensures Unshared(c) <==> forall n, x, y :: !Clash(c, n, x, y)
  {
    hide Selects, ResolveProfile, DesiredLabels, UnmanagedSelector, LabelsFor;
    forall n, x, y | n in c.nodes && Applicable(c, x) && Applicable(c, y) && x != y
      ensures Clash(c, n, x, y)
        <==> c.crs[x].spec.nodeSelector != map[] && c.crs[y].spec.nodeSelector != map[]
             && Selects(x, c.crs[x].spec, c.nodes[n]) && Selects(y, c.crs[y].spec, c.nodes[n])
    {
      UnmanagedClash(c, n, x, y);
    }
  }

  /**
   * So, as long as no selector asks for a label the operator sets, the loop can rest if and only if no node is selected
   * by two custom resources that both have a selector. A custom resource without one, which takes the nodes of its
   * pool, is never in the way.
   */
  lemma RestsIffUnshared(c: Store)
    requires forall x | Applicable(c, x) :: UnmanagedSelector(c.crs[x].spec)
    ensures (exists d :: Relabelled(c, d) && AtRest(d)) <==> Unshared(c)
  {
    hide Applicable, Clash, AtRest, Relabelled, Unshared;
    RestsIffNoClash(c);
    UnsharedNoClash(c);
  }

  // ---------------------------------------------------------------- a clash

  lemma RelabelFor(l: Labels, x: string, spec: Spec)
    requires x != ""
    ensures var m := Relabel(l, DesiredLabels(x, spec));
      && m - MANAGED == l - MANAGED && NodePool in m && m[NodePool] == x
      && forall k | k in DesiredLabels(x, spec) :: k in m && m[k] == DesiredLabels(x, spec)[k]
  {
    hide DesiredLabels;
    RelabelMerges(l, x, spec);
    DesiredManaged(x, spec);
  }

  lemma SameRest(l: Labels, m: Labels, x: string, spec: Spec)
    requires l - MANAGED == m - MANAGED
    ensures LabelsFor(l, x, spec) == LabelsFor(m, x, spec)
  {
  }

  /** Relabelling for whomever keeps a clash. */
  lemma ClashStays(c: Store, d: Store, n: string, x: string, y: string)
    requires Clash(c, n, x, y) && n in d.nodes && d.nodes[n] - MANAGED == c.nodes[n] - MANAGED
    requires Applicable(d, x) && Applicable(d, y) && d.crs[x].spec == c.crs[x].spec && d.crs[y].spec == c.crs[y].spec
    ensures Clash(d, n, x, y)
  {
    hide Selects, DesiredLabels, ResolveProfile, LabelsFor;
    UnmanagedAgree(x, c.crs[x].spec, c.nodes[n], d.nodes[n]);
    SameRest(c.nodes[n], d.nodes[n], x, c.crs[x].spec);
  }

  /** A run for `x` or `y` keeps the clash and puts the node in its own pool, if it selects it. */
  lemma RunKeepsClash(c: Store, ns: string, n: string, x: string, y: string, z: string, d: Store)
    requires Clash(c, n, x, y) && (z == x || z == y) && ContentsOf(d) == Goal(c, ns, z)
    ensures Clash(d, n, x, y)
    ensures Selects(z, c.crs[z].spec, c.nodes[n]) ==> NodePool in d.nodes[n] && d.nodes[n][NodePool] == z
    ensures z == x ==> Selects(y, d.crs[y].spec, d.nodes[n])
  {
    hide Goal, ResolveProfile, Selects, Relabel, DesiredLabels, LabelsFor;
    RunKeepsOthers(c, ns, z, d);
    RelabelFor(c.nodes[n], z, c.crs[z].spec);
    ClashStays(c, d, n, x, y);
    if z == x { SelectsMore(y, c.crs[y].spec, c.nodes[n], x, c.crs[x].spec, d.nodes[n]); }
  }

  lemma StartableToo(s: Sys, x: string, y: string)
    requires Startable(s, x) && Applicable(s.c, y)
    ensures Startable(s, y)
  {
  }

  lemma StartableOnly(s: Sys, x: string)
    requires Startable(s, x)
    ensures Applicable(s.c, x) && s.todo == []
  {
  }

  /** A run for `y` after one for `x` writes the node they clash on. */
  lemma HandoverWrites(lists: Order, at: nat, s: Sys, x: string, y: string, n: string)
      returns (done: nat, t: Sys, h: seq<Action>)
    requires Startable(s, x) && MemoHonest(s) && Clash(s.c, n, x, y)
    ensures t == Replay(s, h) && (forall a | a in h :: Undisturbed(a)) && NodeWrites(s, h) >= 1
    ensures Startable(t, x) && MemoHonest(t) && Clash(t.c, n, x, y)
  {
    hide Act, Goal, Startable, Quietly, ResolveProfile, Selects, RunHistory, Replay, NodeWrites;
    StartableOnly(s, x);
    var i, u := OneRun(lists, at, s, x);
    RunKeepsClash(s.c, s.ns, n, x, y, x, u.c);
    StartableToo(u, x, y);
    StartableOnly(u, y);
    done, t := OneRun(lists, i, u, y);
    RunKeepsClash(u.c, u.ns, n, x, y, y, t.c);
    StartableToo(t, y, x);
    var g, k := RunHistory(lists, at, x, i), RunHistory(lists, i, y, done);
    h := g + k;
    RunUndisturbed(lists, at, x, i);
    RunUndisturbed(lists, i, y, done);
    ReplayConcat(s, g, k);
    ChangeIsWrite(u, k);
    WritesAdd(s, g, k);
  }

  /**
   * Two custom resources that clash never come to rest: from wherever they are, runs of the two in turn, with nobody
   * else acting and every call working, write nodes more often than any bound.
   */
  lemma {:induction false} ClashNeverRests(lists: Order, at: nat, s: Sys, x: string, y: string, n: string, bound: nat)
      returns (h: seq<Action>)
    requires Startable(s, x) && MemoHonest(s) && Clash(s.c, n, x, y)
    ensures (forall a | a in h :: Undisturbed(a)) && NodeWrites(s, h) >= bound && Clash(Replay(s, h).c, n, x, y)
    decreases bound
  {
    hide Act, Startable, Clash;
    if bound == 0 {
      h := [];
    } else {
      var i, t, g := HandoverWrites(lists, at, s, x, y, n);
      var k := ClashNeverRests(lists, i, t, x, y, n, bound - 1);
      h := g + k;
      ReplayConcat(s, g, k);
      WritesAdd(s, g, k);
    }
  }

  // ---------------------------------------------------------------- no clash

  /**
   * A cluster in which every custom resource can be run, no selector asks for a managed label, and no node is selected
   * by two custom resources that have a selector. Custom resources without one may share nodes with anybody.
   */
  ghost predicate Calm(s: Sys) {
    && s.todo == [] && MemoHonest(s) && Neat(s.c, s.ns) && !HelmStored(s.c) && RvBound(s.c) && Unshared(s.c)
    && forall x | x in s.c.crs :: Applicable(s.c, x) && UnmanagedSelector(s.c.crs[x].spec)
  }

  lemma CalmFacts(s: Sys, x: string)
    requires Calm(s) && x in s.c.crs
    ensures Startable(s, x) && MemoHonest(s) && Applicable(s.c, x) && UnmanagedSelector(s.c.crs[x].spec)
  {
  }

  lemma WantsNothing(l: Labels, x: string, spec: Spec, k: LabelKey)
    requires x != "" && k in DesiredLabels(x, spec)
    ensures Read(Relabel(l, DesiredLabels(x, spec)), k) == DesiredLabels(x, spec)[k]
  {
    RelabelMerges(l, x, spec);
  }

  /** A run satisfies its own custom resource. */
  lemma RunSatisfies(c: Store, ns: string, x: string, d: Store)
    requires Applicable(c, x) && UnmanagedSelector(c.crs[x].spec) && ContentsOf(d) == Goal(c, ns, x)
    ensures x in d.crs && Satisfied(d, x)
  {
    hide Goal, ResolveProfile, Selects, Relabel, DesiredLabels;
    RunKeepsOthers(c, ns, x, d);
    LabelledKeys(c.nodes, x, c.crs[x].spec);
    forall n, k | n in d.nodes ensures !Wants(d, x, n, k) {
      if Selects(x, c.crs[x].spec, d.nodes[n]) {
        SelectedBefore(c, x, n);
        if k in DesiredLabels(x, c.crs[x].spec) { WantsNothing(c.nodes[n], x, c.crs[x].spec, k); }
      }
    }
  }

  lemma PoolSelected(x: string, spec: Spec, l: Labels)
    requires Selects(x, spec, l)
    ensures spec.nodeSelector == map[] ==> NodePool in l && l[NodePool] == x
  {
    assert spec.nodeSelector == map[] ==> NodePool in NodeListOption(x, spec);
  }

  /** A node that another's run relabels is no longer selected by a custom resource that was satisfied. */
  lemma TakenOver(c: Store, x: string, y: string, n: string)
    requires x != y && Applicable(c, x) && Applicable(c, y) && Satisfied(c, y) && Unshared(c) && n in c.nodes
    requires UnmanagedSelector(c.crs[y].spec) && Selects(x, c.crs[x].spec, c.nodes[n])
    ensures !Selects(y, c.crs[y].spec, Relabel(c.nodes[n], DesiredLabels(x, c.crs[x].spec)))
  {
    hide ResolveProfile, Relabel, DesiredLabels, Satisfied;
    var l, m := c.nodes[n], Relabel(c.nodes[n], DesiredLabels(x, c.crs[x].spec));
    RelabelFor(l, x, c.crs[x].spec);
    DesiredManaged(y, c.crs[y].spec);
    if Selects(y, c.crs[y].spec, m) {
      PoolSelected(y, c.crs[y].spec, m);
      UnmanagedAgree(y, c.crs[y].spec, m, l);
      PoolSelected(x, c.crs[x].spec, l);
      SatisfiedLabels(c, y, n);
    }
  }

  lemma RunKeepsSatisfied(c: Store, ns: string, x: string, y: string, d: Store)
    requires x != y && Applicable(c, x) && Applicable(c, y) && Unshared(c) && UnmanagedSelector(c.crs[y].spec)
    requires Satisfied(c, y) && ContentsOf(d) == Goal(c, ns, x)
    ensures y in d.crs && Satisfied(d, y)
  {
    hide Goal, ResolveProfile, Selects, Relabel, DesiredLabels, Unshared, UnmanagedSelector;
    RunKeepsOthers(c, ns, x, d);
    LabelledKeys(c.nodes, x, c.crs[x].spec);
    forall n, k | n in d.nodes ensures !Wants(d, y, n, k) {
      if Selects(x, c.crs[x].spec, c.nodes[n]) { TakenOver(c, x, y, n); } else { assert !Wants(c, y, n, k); }
    }
  }

  /** A run leaves no node shared that was not. */
  lemma RunKeepsUnshared(c: Store, ns: string, x: string, d: Store)
    requires Applicable(c, x) && Unshared(c) && ContentsOf(d) == Goal(c, ns, x)
    requires forall y | y in c.crs :: Applicable(c, y) && UnmanagedSelector(c.crs[y].spec)
    ensures Unshared(d)
  {
    hide Goal, ResolveProfile, Selects, Relabel, DesiredLabels;
    RunKeepsOthers(c, ns, x, d);
    LabelledKeys(c.nodes, x, c.crs[x].spec);
    forall n, y | n in c.nodes && y in c.crs && OwnSelector(c.crs[y].spec)
      ensures Selects(y, c.crs[y].spec, d.nodes[n]) ==> Selects(y, c.crs[y].spec, c.nodes[n])
    {
      RelabelFor(c.nodes[n], x, c.crs[x].spec);
      UnmanagedAgree(y, c.crs[y].spec, d.nodes[n], c.nodes[n]);
    }
    forall n, y, z | n in d.nodes && Applicable(d, y) && Applicable(d, z) && y != z
      && d.crs[y].spec.nodeSelector != map[] && d.crs[z].spec.nodeSelector != map[]
      ensures !(Selects(y, d.crs[y].spec, d.nodes[n]) && Selects(z, d.crs[z].spec, d.nodes[n]))
    {
      assert y in c.crs && z in c.crs && Applicable(c, y) && Applicable(c, z);
    }
  }

  lemma RunKeepsCalm(lists: Order, at: nat, s: Sys, x: string) returns (done: nat, t: Sys)
    requires Calm(s) && x in s.c.crs
    ensures at <= done && t == Replay(s, RunHistory(lists, at, x, done)) && Calm(t) && t.c.crs.Keys == s.c.crs.Keys
    ensures x in t.c.crs && Satisfied(t.c, x)
    ensures forall y | y in s.c.crs && Satisfied(s.c, y) :: Satisfied(t.c, y)
  {
    hide Act, Goal, Quietly, RunHistory, Unshared, Neat, HelmStored, RvBound, Satisfied, ResolveProfile, Replay,
      UnmanagedSelector;
    CalmFacts(s, x);
    done, t := OneRun(lists, at, s, x);
    RunKeepsOthers(s.c, s.ns, x, t.c);
    RunSatisfies(s.c, s.ns, x, t.c);
    RunKeepsUnshared(s.c, s.ns, x, t.c);
    StartableOnly(t, x);
    forall y | y in s.c.crs && y != x && Satisfied(s.c, y) ensures Satisfied(t.c, y) {
      CalmFacts(s, y);
      RunKeepsSatisfied(s.c, s.ns, x, y, t.c);
    }
  }

  /** The history of one undisturbed run of each of `names` in turn. */
  lemma {:induction false} RunAll(lists: Order, at: nat, s: Sys, names: seq<string>)
      returns (done: nat, t: Sys, h: seq<Action>)
    requires Calm(s) && forall x | x in names :: x in s.c.crs
    ensures t == Replay(s, h) && Calm(t) && t.c.crs.Keys == s.c.crs.Keys && forall a | a in h :: Undisturbed(a)
    ensures forall y | y in s.c.crs && (y in names || Satisfied(s.c, y)) :: Satisfied(t.c, y)
    decreases |names|
  {
    hide Act, Calm, Satisfied, RunHistory;
    if names == [] {
      done, t, h := at, s, [];
    } else {
      var i, u := RunKeepsCalm(lists, at, s, names[0]);
      var k;
      done, t, k := RunAll(lists, i, u, names[1..]);
      h := RunHistory(lists, at, names[0], i) + k;
      RunUndisturbed(lists, at, names[0], i);
      ReplayConcat(s, RunHistory(lists, at, names[0], i), k);
    }
  }

  lemma NothingPending(c: Store)
    requires forall x | x in c.crs :: Satisfied(c, x)
    ensures Pending(c) == {}
  {
    hide Wants;
    forall n, k | n in c.nodes ensures !Wrong(c, n, k) { }
  }

  /**
   * Without a clash the loop comes to rest: one undisturbed run of each custom resource, in any order and however
   * often, leaves nothing pending; and from then on no number of requests, faults and restarts makes a single node
   * write.
   */
  lemma UnsharedRests(lists: Order, at: nat, s: Sys, names: seq<string>) returns (done: nat, t: Sys, h: seq<Action>)
    requires Calm(s) && forall x :: x in names <==> x in s.c.crs
    ensures t == Replay(s, h) && (forall a | a in h :: Undisturbed(a)) && Pending(t.c) == {}
    ensures forall g | (forall a | a in g :: Undisturbed(a)) :: NodeWrites(t, g) == 0
  {
    hide Act, Calm, Satisfied, NodeWrites, Settled;
    done, t, h := RunAll(lists, at, s, names);
    NothingPending(t.c);
    AllSatisfiedSettled(t);
    forall g | (forall a | a in g :: Undisturbed(a)) ensures NodeWrites(t, g) == 0 { NodeWritesBounded(t, g); }
  }

  lemma AllSatisfiedSettled(s: Sys)
    requires Calm(s) && forall x | x in s.c.crs :: Satisfied(s.c, x)
    ensures s.todo == [] && Settled(s.c)
  {
    hide Satisfied, Selects, ResolveProfile;
    forall n, x, y | n in s.c.nodes && x in s.c.crs && y in s.c.crs && x != y
      ensures !(Selects(x, s.c.crs[x].spec, s.c.nodes[n]) && Selects(y, s.c.crs[y].spec, s.c.nodes[n]))
    {
      NoTwoSatisfied(s.c, x, y, n);
    }
  }
}
