/**
 * The protocol along a script of turns: what each further call of the controller does to the protocol's state, and how
 * what is left of a run splits into its next operation and the rest.
 */
module Script {
  import opened Basics
  import opened Api
  import opened Resources
  import opened Cluster
  import opened Protocol
  import opened Client

  // ---------------------------------------------------------------- the protocol alongside a script

  function Step(s: Sys, t: Turn): Sys {
    Act(s.(c := ApplyMoves(s.c, t.moves)), Call(t.answer))
  }

  /** The protocol's state after the calls number `i` up to `j`. */
  function RunTo(script: nat -> Turn, s: Sys, i: nat, j: nat): Sys
    requires i <= j
    decreases j - i
  {
    if i == j then s else RunTo(script, Step(s, script(i)), i + 1, j)
  }

  lemma {:induction false} RunToNext(script: nat -> Turn, s: Sys, i: nat, j: nat)
    requires i <= j
    ensures RunTo(script, s, i, j + 1) == Step(RunTo(script, s, i, j), script(j))
    decreases j - i
  {
    hide Step;
    if i == j {
      assert RunTo(script, Step(s, script(i)), i + 1, i + 1) == Step(s, script(i));
    } else {
      RunToNext(script, Step(s, script(i)), i + 1, j);
    }
  }

  function Elsewheres(moves: seq<Move>): seq<Action> {
    seq(|moves|, i requires 0 <= i < |moves| => Elsewhere(moves[i]))
  }

  /** The history those calls make. */
  function Actions(script: nat -> Turn, i: nat, j: nat): seq<Action>
    requires i <= j
    decreases j - i
  {
    if i == j then [] else Elsewheres(script(i).moves) + [Call(script(i).answer)] + Actions(script, i + 1, j)
  }

  lemma {:induction false} MovesAreActions(s: Sys, moves: seq<Move>)
    ensures Replay(s, Elsewheres(moves)) == s.(c := ApplyMoves(s.c, moves))
    decreases |moves|
  {
    if moves != [] {
      assert Elsewheres(moves)[0] == Elsewhere(moves[0]) && Elsewheres(moves)[1..] == Elsewheres(moves[1..]);
      MovesAreActions(Act(s, Elsewhere(moves[0])), moves[1..]);
    }
  }

  /** Following the script is replaying a history. */
  lemma {:induction false} RunToIsReplay(script: nat -> Turn, s: Sys, i: nat, j: nat)
    requires i <= j
    ensures RunTo(script, s, i, j) == Replay(s, Actions(script, i, j))
    decreases j - i
  {
    hide Act;
    if i < j {
      var turn := script(i);
      var moves, call := Elsewheres(turn.moves), [Call(turn.answer)];
      MovesAreActions(s, turn.moves);
      ReplayConcat(s, moves, call);
      ReplayConcat(s, moves + call, Actions(script, i + 1, j));
      var u := s.(c := ApplyMoves(s.c, turn.moves));
      assert Replay(u, call) == Replay(Act(u, call[0]), call[1..]) == Act(u, call[0]);
      RunToIsReplay(script, Step(s, turn), i + 1, j);
    }
  }

  /** One more call. */
  lemma Extend(script: nat -> Turn, s: Sys, i: nat, j: nat, c: Store, ns: string, memo: Option<bool>, todo: seq<Op>)
    requires i <= j && todo != [] && RunTo(script, s, i, j) == Sys(c, ns, memo, todo, false)
    ensures RunTo(script, s, i, j + 1)
      == Perform(Sys(ApplyMoves(c, script(j).moves), ns, memo, todo, false), script(j).answer)
  {
    hide Perform, RunTo;
    RunToNext(script, s, i, j);
  }

  // ---------------------------------------------------------------- single steps, in the form the methods use

  lemma StepFetch(s: Sys, a: Answer, owner: string, m: Manifest, rest: seq<Op>)
    requires s.todo == [Fetch(owner, m)] + rest
    ensures Perform(s, a) ==
      if a.fault != NoFault then s.(todo := [], failed := true)
      else if m.key in s.c.objs then s.(todo := [Replace(owner, m, Rv(s.c.objRv, m.key))] + rest)
      else s.(todo := [Create(owner, m)] + rest)
  {
    assert s.todo[1..] == rest;
  }

  lemma StepWrite(s: Sys, a: Answer, op: Op, rest: seq<Op>, done: (Store, Reply))
    requires s.todo == [op] + rest
    requires (op.Create? && done == CreateObject(s.c, op.m.key, op.m.obj))
          || (op.Replace? && done == UpdateObject(s.c, op.m.key, op.m.obj, op.rv))
          || (op.LabelNode?
            && done == UpdateNode(s.c, op.seen.name, op.seen.rv, Relabel(op.seen.labels, Desired(op.cfg))))
    ensures var (c, reply) := Effect(a, s.c, done);
      Perform(s, a) == if reply == Ok then s.(c := c, todo := rest) else s.(c := c, todo := [], failed := true)
  {
    hide CreateObject, UpdateObject, UpdateNode, Effect, Relabel, Desired;
    assert s.todo[1..] == rest && [] + rest == rest;
  }

  lemma StepAnyway(s: Sys, a: Answer, op: Op, rest: seq<Op>, done: (Store, Reply))
    requires s.todo == [op] + rest
    requires (op.Remove? && done == DeleteObject(s.c, op.key))
          || (op.UnlabelNode? && done == UpdateNode(s.c, op.seen.name, op.seen.rv, op.seen.labels - MANAGED))
    ensures Perform(s, a) == s.(c := Effect(a, s.c, done).0, todo := rest)
  {
    hide DeleteObject, UpdateNode, Effect;
    assert s.todo[1..] == rest && [] + rest == rest;
  }

  lemma StepStatus(s: Sys, a: Answer, cfg: Config, status: Status)
    requires s.todo == [SaveStatus(cfg, status)]
    ensures var (c, reply) := Effect(a, s.c, UpdateStatus(s.c, cfg, status));
      Perform(s, a) == s.(c := c, todo := [], failed := match status.condition
        case Some(Condition(_, HelmConflict)) => false
        case Some(Condition(_, InvalidProfile)) => true
        case _ => reply != Ok)
  {
    hide UpdateStatus, Effect;
  }

  lemma StepProbe(s: Sys, a: Answer, cfg: Config, rest: seq<Op>)
    requires s.todo == [Probe(cfg)] + rest
    ensures var openShift := a.fault == NoFault && s.c.openShift;
      Perform(s, a)
        == s.(memo := Some(openShift), todo := Fetches(cfg.name, Only(openShift, SccManifests(cfg.name, s.ns))) + rest)
  {
    hide SccManifests;
    assert s.todo[1..] == rest;
  }

  lemma StepProbeForRemoval(s: Sys, a: Answer, cfg: Config, rest: seq<Op>)
    requires s.todo == [ProbeForRemoval(cfg)] + rest
    ensures var openShift := a.fault == NoFault && s.c.openShift;
      Perform(s, a) == s.(memo := Some(openShift), todo := Removes(cfg, ClusterKeys(cfg.name, openShift)) + rest)
  {
    hide ClusterKeys;
    assert s.todo[1..] == rest;
  }

  lemma StepList(s: Sys, a: Answer, op: Op, rest: seq<Op>, ops: seq<Op>)
    requires s.todo == [op] + rest
    requires (op.ListSelected?
      && ops == LabelOps(ListNodes(s.c, NodeListOption(op.cfg.name, op.cfg.cr.spec), a.order), op.cfg))
          || (op.ListPool? && ops == Fetches(op.cfg.name,
                PoolManifests(ListNodes(s.c, PoolLabels(op.cfg.name), a.order), op.cfg.cr.spec, op.profile, s.ns)))
          || (op.CountNodes? && ops == [SaveStatus(op.cfg, FinalStatus(op.cfg.cr.status,
                ListNodes(s.c, NodeListOption(op.cfg.name, op.cfg.cr.spec), a.order), op.cfg.cr.spec, op.profile))])
          || (op.ListPooled? && ops == UnlabelOps(ListNodes(s.c, PoolLabels(op.cfg.name), a.order), op.cfg))
    ensures Perform(s, a) == if a.fault == NoFault then s.(todo := ops + rest) else s.(todo := [], failed := true)
  {
    hide ListNodes, LabelOps, PoolManifests, FinalStatus, NodeListOption, PoolLabels, UnlabelOps;
    assert s.todo[1..] == rest;
  }

  lemma StepSweep(s: Sys, a: Answer, cfg: Config, kind: Kind, selector: Labels, rest: seq<Op>)
    requires s.todo == [Sweep(cfg, kind, selector)] + rest
    ensures Perform(s, a) == s.(todo := (if a.fault == NoFault
      then Removes(cfg, Keys(kind, s.ns, Arrange(a.order, ObjectNames(s.c, kind, s.ns, selector)))) else []) + rest)
  {
    hide ObjectNames, Arrange, Keys;
    assert s.todo[1..] == rest;
  }

  lemma StepHelm(s: Sys, a: Answer, cfg: Config)
    requires s.todo == [FindHelmSecrets(cfg)] || s.todo == [FindHelmTopology(cfg)]
    ensures Perform(s, a) == s.(todo :=
      if a.fault != NoFault then AfterHelm(cfg, s.ns, s.memo)
      else if s.todo[0].FindHelmSecrets?
        then (if HelmSecretStored(s.c) then HelmStatus(cfg) else [FindHelmTopology(cfg)])
      else (if HelmTopologyStored(s.c) then HelmStatus(cfg) else AfterHelm(cfg, s.ns, s.memo)))
  {
    hide AfterHelm, HelmSecretStored, HelmTopologyStored;
    assert s.todo[1..] == [];
    assert AfterHelm(cfg, s.ns, s.memo) + [] == AfterHelm(cfg, s.ns, s.memo);
  }

  lemma StepGet(s: Sys, a: Answer, name: string)
    requires s.todo == [Begin(name)]
    ensures var (found, reply) := GetCR(s.c, name, a);
      Perform(s, a) == if found.Some? then s.(todo := Route(found.value, s.memo))
        else s.(todo := [], failed := reply != NotFound)
  {
    hide Route, GetCR;
    assert forall ops: seq<Op> :: ops + [] == ops;
    assert s.todo[1..] == [];
  }

  /** Saving the finalizer hands back the stored custom resource. */
  lemma StepSaveFinalizer(s: Sys, a: Answer, cfg: Config)
    requires s.todo == [SaveFinalizer(cfg)]
    ensures var wanted := cfg.(cr := cfg.cr.(finalizers := cfg.cr.finalizers + {FINALIZER}));
      var (c, reply) := Effect(a, s.c, UpdateCR(s.c, wanted));
      && (reply == Ok ==> cfg.name in c.crs)
      && Perform(s, a) == if reply == Ok then s.(c := c, todo := [FindHelmSecrets(Stored(c, cfg.name))])
                          else s.(c := c, todo := [], failed := true)
  {
    assert s.todo[1..] == [];
  }

  lemma StepDropFinalizer(s: Sys, a: Answer, cfg: Config)
    requires s.todo == [DropFinalizer(cfg)]
    ensures var wanted := cfg.(cr := cfg.cr.(finalizers := cfg.cr.finalizers - {FINALIZER}));
      var (c, reply) := Effect(a, s.c, UpdateCR(s.c, wanted));
      Perform(s, a) == s.(c := c, todo := [], failed := reply != Ok)
  {
    hide UpdateCR, Effect;
  }

  // ---------------------------------------------------------------- splitting what is left

  lemma FetchesFrom(x: string, ms: seq<Manifest>, i: nat, rest: seq<Op>)
    requires i < |ms|
    ensures Fetches(x, ms[i..]) + rest == [Fetch(x, ms[i])] + (Fetches(x, ms[i + 1..]) + rest)
  {
  }

  lemma FetchesNone(x: string, ms: seq<Manifest>, rest: seq<Op>)
    ensures Fetches(x, ms[|ms|..]) + rest == rest && ms[0..] == ms
  {
  }

  lemma FetchesBoth(x: string, a: seq<Manifest>, b: seq<Manifest>, rest: seq<Op>)
    ensures Fetches(x, a + b) + rest == Fetches(x, a) + (Fetches(x, b) + rest)
  {
  }

  lemma FetchesOnly(x: string, included: bool, m: Manifest, rest: seq<Op>)
    ensures Fetches(x, Only(included, [m])) + rest == if included then [Fetch(x, m)] + rest else rest
  {
  }

  lemma FetchesPair(x: string, a: Manifest, b: Manifest, rest: seq<Op>)
    ensures Fetches(x, [a, b]) + rest == [Fetch(x, a)] + ([Fetch(x, b)] + rest)
  {
  }

  lemma RemovesFrom(cfg: Config, keys: seq<Key>, i: nat, rest: seq<Op>)
    requires i < |keys|
    ensures Removes(cfg, keys[i..]) + rest == [Remove(cfg, keys[i])] + (Removes(cfg, keys[i + 1..]) + rest)
  {
  }

  lemma UnlabelsFrom(cfg: Config, seen: seq<Seen>, i: nat, rest: seq<Op>)
    requires i < |seen|
    ensures UnlabelOps(seen[i..], cfg) + rest == [UnlabelNode(seen[i], cfg)] + (UnlabelOps(seen[i + 1..], cfg) + rest)
  {
  }

  lemma LabelsFrom(cfg: Config, seen: seq<Seen>, i: nat, rest: seq<Op>)
    requires i < |seen|
    ensures LabelOps(seen[i..], cfg) + rest ==
      (if NeedsUpdate(seen[i].labels, Desired(cfg)) then [LabelNode(seen[i], cfg)] else [])
        + (LabelOps(seen[i + 1..], cfg) + rest)
  {
  }

  lemma NoLabels(cfg: Config, rest: seq<Op>)
    ensures LabelOps([], cfg) + rest == rest
  {
  }

  lemma NoRemoves(cfg: Config, rest: seq<Op>)
    ensures Removes(cfg, []) + rest == rest
  {
  }

  lemma NoUnlabels(cfg: Config, rest: seq<Op>)
    ensures UnlabelOps([], cfg) + rest == rest
  {
  }

  /** Only the status of what is sent counts. */
  lemma SentStatus(c: Store, cfg: Config, status: Status)
    ensures UpdateStatus(c, cfg.(cr := cfg.cr.(status := status)), status) == UpdateStatus(c, cfg, status)
  {
  }

  lemma RunToHere(script: nat -> Turn, s: Sys, i: nat)
    ensures RunTo(script, s, i, i) == s
  {
  }

  lemma DeleteInOrder(cfg: Config, memo: Option<bool>)
    ensures DeleteProgram(cfg, memo) ==
      Sweeps(cfg) + ([ListPooled(cfg)] + (ClusterCleanup(cfg, memo) + [DropFinalizer(cfg)]))
  {
  }

  lemma SweepsInOrder(cfg: Config, rest: seq<Op>)
    ensures var byInstance := InstanceLabels(cfg.name);
      Sweeps(cfg) + rest == [Sweep(cfg, DaemonSet, byInstance)] + ([Sweep(cfg, Deployment, byInstance)]
        + ([Sweep(cfg, Service, byInstance)]
          + ([Sweep(cfg, ServiceAccount, byInstance)] + ([Sweep(cfg, ConfigMap, byInstance)]
        + ([Sweep(cfg, ConfigMap, NODE_TOPOLOGY)] + rest)))))
  {
  }

  lemma ApplyInOrder(cfg: Config, p: GPUProfile, ns: string, memo: Option<bool>)
    ensures ApplyProgram(cfg, p, ns, memo) ==
      Fetches(cfg.name, RbacManifests(cfg.name, ns))
      + ((match memo case None => [Probe(cfg)] case Some(b) => Fetches(cfg.name, Only(b, SccManifests(cfg.name, ns))))
      + (Fetches(cfg.name, WorkloadManifests(cfg.name, cfg.cr.spec, p, ns))
      + ([ListSelected(cfg)] + ([ListPool(cfg, p)] + [CountNodes(cfg, p)]))))
  {
    hide RbacManifests, SccManifests, WorkloadManifests, Fetches;
  }

  /** The workloads as the controller goes through them. */
  lemma WorkloadsInOrder(x: string, spec: Spec, p: GPUProfile, ns: string, rest: seq<Op>)
    ensures Fetches(x, WorkloadManifests(x, spec, p, ns)) + rest ==
      Fetches(x, ConfigAndDevicePlugin(x, spec, p, ns)) + (Fetches(x, OptionalWorkloads(x, spec, ns))
      + (Fetches(x, Services(x, ns))
        + (Fetches(x, ExtraWorkloads(x, spec, ns)) + (Fetches(x, [RuntimeClassManifest(x)]) + rest))))
  {
    hide ConfigAndDevicePlugin, OptionalWorkloads, Services, ExtraWorkloads, RuntimeClassManifest, Fetches;
    var a, b, c, d, e := ConfigAndDevicePlugin(x, spec, p, ns), OptionalWorkloads(x, spec, ns), Services(x, ns),
      ExtraWorkloads(x, spec, ns), [RuntimeClassManifest(x)];
    FetchesBoth(x, a + b + c + d, e, rest);
    FetchesBoth(x, a + b + c, d, Fetches(x, e) + rest);
    FetchesBoth(x, a + b, c, Fetches(x, d) + (Fetches(x, e) + rest));
    FetchesBoth(x, a, b, Fetches(x, c) + (Fetches(x, d) + (Fetches(x, e) + rest)));
  }
}
