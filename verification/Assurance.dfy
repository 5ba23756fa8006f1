/** What the protocol's theorems say about the controller's methods. */
module Assurance {
  import opened Basics
  import opened Api
  import opened Cluster
  import opened Protocol
  import opened Client
  import opened Script
  import opened Reconciler
  import opened Safety
  import opened Authorship
  import opened Convergence
  import opened Deletion
  import Refusal

  /** A run along a script is a history of the protocol that starts with the request. */
  lemma CallsAreHistory(script: nat -> Turn, s: Sys, name: string, i: nat, j: nat)
    requires i <= j && s.todo == []
    ensures RunTo(script, s.(todo := [Begin(name)], failed := false), i, j)
      == Replay(s, [Request(name)] + Actions(script, i, j))
  {
    hide Perform, RunTo, Actions;
    var start := s.(todo := [Begin(name)], failed := false);
    ReplayConcat(s, [Request(name)], Actions(script, i, j));
    assert Replay(s, [Request(name)]) == Replay(Act(s, Request(name)), []) == start;
    RunToIsReplay(script, start, i, j);
  }

  /** Whatever a fair script makes of a run, at every call the no-orphans invariant holds. */
  lemma RunKeepsInv(script: nat -> Turn, s: Sys, name: string, i: nat, j: nat)
    requires i <= j && s.todo == [] && Inv(s)
    requires FairHistory(s, [Request(name)] + Actions(script, i, j))
    ensures Inv(RunTo(script, s.(todo := [Begin(name)], failed := false), i, j))
  {
    hide Inv, RunTo, Actions, FairHistory;
    CallsAreHistory(script, s, name, i, j);
    ReplayKeepsInv(s, [Request(name)] + Actions(script, i, j));
  }

  /** Nobody else acts, every call works and first reads are current; lists come in any order. */
  ghost predicate Quiet(script: nat -> Turn) {
    forall i: nat :: script(i).moves == [] && script(i).answer.fault == NoFault && script(i).answer.stale == None
  }

  /** The order a script's answers list things in. */
  function OrderOf(script: nat -> Turn): Order { (i: nat) => script(i).answer.order }

  lemma {:induction false} QuietIsDrain(script: nat -> Turn, s: Sys, i: nat, j: nat)
    requires i <= j && Quiet(script)
    ensures RunTo(script, s, i, j) == Drain(OrderOf(script), i, s, j - i)
    decreases j - i
  {
    hide Act;
    if i < j {
      assert script(i) == Turn([], Working(OrderOf(script), i));
      assert s.(c := ApplyMoves(s.c, [])) == s;
      QuietIsDrain(script, Act(s, Call(script(i).answer)), i + 1, j);
    }
  }

  lemma QuietEnd(script: nat -> Turn, s: Sys, i: nat, j: nat, done: nat, t: Sys)
    requires i <= j && Quiet(script) && RunTo(script, s, i, j).todo == []
    requires Quietly(OrderOf(script), i, s, done, t) && t.todo == []
    ensures RunTo(script, s, i, j) == t
  {
    hide RunTo, Drain;
    QuietIsDrain(script, s, i, j);
    QuietOutcome(OrderOf(script), i, s, j, RunTo(script, s, i, j), done, t);
  }

  /** One undisturbed run of the controller reaches its goal, in whatever order the server lists things. */
  method ReconcileUndisturbed(r: FakeGPUConfigReconciler, name: string) returns (failed: bool)
    requires Quiet(r.client.script) && Applicable(r.client.cluster, name) && NoHelm(r.client.cluster)
    requires Neat(r.client.cluster, r.namespace) && MemoHonest(r.State([], false))
    modifies r`isOpenShift, r.client
    ensures !failed && ContentsOf(r.client.cluster) == Goal(old(r.client.cluster), r.namespace, name)
  {
    hide Perform, RunTo, Goal, Quiet, NoHelm, Neat, Quietly;
    ghost var s, n := r.State([], false), r.client.calls;
    ghost var done, t := RunReachesGoal(OrderOf(r.client.script), n, s, name);
    failed := r.Reconcile(name);
    QuietEnd(r.client.script, s.(todo := [Begin(name)]), n, r.client.calls, done, t);
  }

  /**
   * Whatever a custom resource is like, one undisturbed run of the controller leaves what it calls for: its goal, its
   * cleanup, a refusal, or nothing; and it returns an error exactly for a profile that does not resolve.
   */
  method ReconcileAny(r: FakeGPUConfigReconciler, name: string) returns (failed: bool)
    requires Quiet(r.client.script) && "" !in r.client.cluster.crs
    requires Neat(r.client.cluster, r.namespace) && MemoHonest(r.State([], false))
    modifies r`isOpenShift, r.client
    ensures var c := old(r.client.cluster);
      && ContentsOf(r.client.cluster) == Refusal.RunResult(c, r.namespace, name, c.openShift)
      && (failed <==> name in c.crs && !c.crs[name].deleting && !Refusal.HelmInstalled(c)
                        && !Refusal.Resolvable(c.crs[name].spec))
  {
    hide Perform, RunTo, Quiet, Neat, Quietly;
    ghost var s, n := r.State([], false), r.client.calls;
    ghost var done, t := Refusal.EveryRun(OrderOf(r.client.script), n, s, name);
    failed := r.Reconcile(name);
    QuietEnd(r.client.script, s.(todo := [Begin(name)]), n, r.client.calls, done, t);
  }

  /** One undisturbed run for a custom resource being deleted cleans up all of it, in whatever order lists come. */
  method CleanUpUndisturbed(r: FakeGPUConfigReconciler, name: string) returns (failed: bool)
    requires Quiet(r.client.script) && Deletable(r.client.cluster, name)
    modifies r`isOpenShift, r.client
    ensures !failed && r.isOpenShift.Some? && (old(r.isOpenShift).Some? ==> r.isOpenShift == old(r.isOpenShift))
    ensures ContentsOf(r.client.cluster) == Deleted(old(r.client.cluster), r.namespace, name, r.isOpenShift.value)
  {
    hide Perform, RunTo, Deleted, Quiet, Quietly;
    ghost var s, n := r.State([], false), r.client.calls;
    ghost var done, t := CleanupReachesDeleted(OrderOf(r.client.script), n, s, name);
    failed := r.Reconcile(name);
    QuietEnd(r.client.script, s.(todo := [Begin(name)]), n, r.client.calls, done, t);
  }
}
