/**
 * Referential integrity: while a custom resource is stored and not being deleted, every workload of its that is stored
 * names a stored service account, and every binding a stored role and stored subjects, at every point of every run.
 */
module Integrity {
  import opened Basics
  import opened Api
  import opened Resources
  import opened Naming
  import opened Cluster
  import opened Protocol
  import opened Safety
  import opened Erasure
  import opened Honesty
  import opened Authorship
  import opened Deletion
  import opened Footprint

  // ---------------------------------------------------------------- references

  /** The keys an object refers to. */
  function References(ns: string, o: Object): set<Key> {
    match o.body
    case Workload(_, _, account, _) => {Key(ServiceAccount, ns, account)}
    case Binding(role, subjects) => {Key(ClusterRole, "", role)} + (set k | k in subjects)
    case _ => {}
  }

  predicate Mine(o: Object, x: string) { AppInstance in o.labels && o.labels[AppInstance] == x }

  /** References lead to service accounts and roles of the same custom resource. */
  ghost predicate Proper(ns: string, o: Object) {
    forall k | k in References(ns, o) ::
      AppInstance in o.labels && NamedKind(k.kind) && exists c :: Placed(ns, k, o.labels[AppInstance], c)
  }

  ghost predicate Integral(c: Store, ns: string, x: string) {
    forall k | k in c.objs && Reserved(ns, k) && Mine(c.objs[k], x) :: References(ns, c.objs[k]) <= c.objs.Keys
  }

  // ---------------------------------------------------------------- pending writes are in order

  function Needs(ns: string, op: Op): set<Key> {
    match op
    case Fetch(_, m) => References(ns, m.obj)
    case Create(_, m) => References(ns, m.obj)
    case Replace(_, m, _) => References(ns, m.obj)
    case Probe(cfg) => set k | k in SccSubjects(cfg.name, ns)
    case _ => {}
  }

  function Provides(op: Op): set<Key> {
    if Puts(op) then {op.m.key} else {}
  }

  function ProvidesAll(ops: seq<Op>): set<Key> {
    set op | op in ops && Puts(op) :: op.m.key
  }

  /** Each operation finds what it needs stored, or written by an earlier one. */
  predicate Ordered(ns: string, have: set<Key>, ops: seq<Op>)
    decreases |ops|
  {
    ops == [] || (Needs(ns, ops[0]) <= have && Ordered(ns, have + Provides(ops[0]), ops[1..]))
  }

  lemma {:induction false} OrderedGrows(ns: string, have: set<Key>, more: set<Key>, ops: seq<Op>)
    requires Ordered(ns, have, ops) && have <= more
    ensures Ordered(ns, more, ops)
    decreases |ops|
  {
    if ops != [] { OrderedGrows(ns, have + Provides(ops[0]), more + Provides(ops[0]), ops[1..]); }
  }

  lemma {:induction false} OrderedConcat(ns: string, have: set<Key>, a: seq<Op>, b: seq<Op>)
    requires Ordered(ns, have, a) && Ordered(ns, have + ProvidesAll(a), b)
    ensures Ordered(ns, have, a + b)
    decreases |a|
  {
    if a == [] {
      assert a + b == b && have + ProvidesAll(a) == have;
    } else {
      assert (a + b)[0] == a[0] && (a + b)[1..] == a[1..] + b;
      assert have + ProvidesAll(a) == have + Provides(a[0]) + ProvidesAll(a[1..]) by { assert a == [a[0]] + a[1..]; }
      OrderedConcat(ns, have + Provides(a[0]), a[1..], b);
    }
  }

  /** Operations that all find what they need stored already. */
  lemma {:induction false} OrderedAtOnce(ns: string, have: set<Key>, ops: seq<Op>)
    requires forall op | op in ops :: Needs(ns, op) <= have
    ensures Ordered(ns, have, ops)
    decreases |ops|
  {
    hide Needs;
    if ops != [] {
      assert ops[0] in ops;
      OrderedAtOnce(ns, have + Provides(ops[0]), ops[1..]);
    }
  }

  // ---------------------------------------------------------------- the plan is in order

  function AccountKeys(x: string, ns: string): set<Key> {
    {AccountKey(x, DevicePlugin, ns), AccountKey(x, StatusUpdater, ns), AccountKey(x, MetricsExporter, ns),
      AccountKey(x, TopologyServer, ns)}
  }

  /** These manifests refer to service accounts of `x` only. */
  ghost predicate OnAccounts(x: string, ns: string, ms: seq<Manifest>) {
    forall i | 0 <= i < |ms| :: References(ns, ms[i].obj) <= AccountKeys(x, ns) && Mine(ms[i].obj, x)
  }

  lemma OnAccountsConcat(x: string, ns: string, a: seq<Manifest>, b: seq<Manifest>)
    requires OnAccounts(x, ns, a) && OnAccounts(x, ns, b)
    ensures OnAccounts(x, ns, a + b)
  {
  }

  lemma ServicesOnAccounts(x: string, ns: string)
    ensures OnAccounts(x, ns, Services(x, ns)) && OnAccounts(x, ns, [RuntimeClassManifest(x)])
  {
  }

  lemma ConfigOnAccounts(x: string, spec: Spec, p: GPUProfile, ns: string)
    ensures OnAccounts(x, ns, ConfigAndDevicePlugin(x, spec, p, ns))
  {
    assert AccountKey(x, DevicePlugin, ns).name == "device-plugin-" + x;
  }

  lemma OptionalOnAccounts(x: string, spec: Spec, ns: string)
    ensures OnAccounts(x, ns, OptionalWorkloads(x, spec, ns))
  {
    hide SelectorLabels;
  }

  lemma ExtraOnAccounts(x: string, spec: Spec, ns: string)
    ensures OnAccounts(x, ns, ExtraWorkloads(x, spec, ns))
  {
    hide SelectorLabels;
    assert AccountKey(x, DevicePlugin, ns).name == "device-plugin-" + x;
  }

  lemma WorkloadsOnAccounts(x: string, spec: Spec, p: GPUProfile, ns: string)
    ensures OnAccounts(x, ns, WorkloadManifests(x, spec, p, ns))
  {
    hide ConfigAndDevicePlugin, OptionalWorkloads, Services, ExtraWorkloads, RuntimeClassManifest, OnAccounts;
    ConfigOnAccounts(x, spec, p, ns);
    ServicesOnAccounts(x, ns);
    OptionalOnAccounts(x, spec, ns);
    ExtraOnAccounts(x, spec, ns);
    var a, b, c, d := ConfigAndDevicePlugin(x, spec, p, ns), OptionalWorkloads(x, spec, ns), Services(x, ns),
      ExtraWorkloads(x, spec, ns);
    OnAccountsConcat(x, ns, a, b);
    OnAccountsConcat(x, ns, a + b, c);
    OnAccountsConcat(x, ns, a + b + c, d);
    OnAccountsConcat(x, ns, a + b + c + d, [RuntimeClassManifest(x)]);
  }

  lemma OnAccountsOrdered(x: string, ns: string, have: set<Key>, ms: seq<Manifest>)
    requires OnAccounts(x, ns, ms) && AccountKeys(x, ns) <= have
    ensures Ordered(ns, have, Fetches(x, ms)) && AllProper(ns, Fetches(x, ms))
  {
    hide AccountKeys, References;
    OrderedAtOnce(ns, have, Fetches(x, ms));
    AccountsProper(x, ns);
  }

  ghost predicate AllProper(ns: string, ops: seq<Op>) {
    forall op | op in ops && Puts(op) :: Proper(ns, op.m.obj)
  }

  lemma AccountsProper(x: string, ns: string)
    ensures forall k | k in AccountKeys(x, ns) :: NamedKind(k.kind) && exists c :: Placed(ns, k, x, c)
  {
    assert Placed(ns, AccountKey(x, DevicePlugin, ns), x, DevicePlugin);
    assert Placed(ns, AccountKey(x, StatusUpdater, ns), x, StatusUpdater);
    assert Placed(ns, AccountKey(x, MetricsExporter, ns), x, MetricsExporter);
    assert Placed(ns, AccountKey(x, TopologyServer, ns), x, TopologyServer);
  }

  lemma AccountsFirst(x: string, ns: string, have: set<Key>)
    ensures Ordered(ns, have, Fetches(x, Accounts(x, ns))) && AllProper(ns, Fetches(x, Accounts(x, ns)))
    ensures AccountKeys(x, ns) <= ProvidesAll(Fetches(x, Accounts(x, ns)))
  {
    hide AccountKey, CommonLabels;
    var ops := Fetches(x, Accounts(x, ns));
    OrderedAtOnce(ns, have, ops);
    forall i | 0 <= i < 4 ensures ops[i].m.key in ProvidesAll(ops) { assert ops[i] in ops; }
    assert ops[0].m.key == AccountKey(x, DevicePlugin, ns) && ops[1].m.key == AccountKey(x, StatusUpdater, ns)
      && ops[2].m.key == AccountKey(x, MetricsExporter, ns) && ops[3].m.key == AccountKey(x, TopologyServer, ns);
  }

  lemma BindingProper(x: string, c: Component, ns: string, o: Object, subjects: seq<Key>)
    requires Stem(ClusterRole, c).Some? && forall k | k in subjects :: k in AccountKeys(x, ns)
    requires o.body == Binding(RoleKey(x, c).name, subjects) && Mine(o, x)
    ensures Proper(ns, o)
  {
    hide AccountKeys;
    AccountsProper(x, ns);
    assert Placed(ns, RoleKey(x, c), x, c);
  }

  lemma CommonMine(x: string, c: Component)
    ensures forall body :: Mine(Object(CommonLabels(x, c), body), x)
  {
  }

  /** A role, and then a binding to it whose subjects are stored accounts. */
  lemma PairOrdered(x: string, c: Component, ns: string, have: set<Key>, b: Manifest, subjects: seq<Key>)
    requires Stem(ClusterRole, c).Some? && (set k | k in subjects) <= have && forall k | k in subjects ::
      k in AccountKeys(x, ns)
    requires b.obj == Object(CommonLabels(x, c), Binding(RoleKey(x, c).name, subjects))
    ensures var ops := Fetches(x, [RoleManifest(x, c), b]); Ordered(ns, have, ops) && AllProper(ns, ops)
  {
    hide AccountKeys, Stem, CommonLabels, Proper;
    var ops := Fetches(x, [RoleManifest(x, c), b]);
    assert ops[1..][1..] == [];
    assert ops[1..][0] == Fetch(x, b);
    assert ops[0] == Fetch(x, RoleManifest(x, c)) && Provides(ops[0]) == {RoleKey(x, c)};
    assert References(ns, b.obj) == {RoleKey(x, c)} + (set k | k in subjects);
    assert Ordered(ns, have + {RoleKey(x, c)}, ops[1..]);
    CommonMine(x, c);
    BindingProper(x, c, ns, b.obj, subjects);
    assert Proper(ns, RoleManifest(x, c).obj) by { RulesProper(ns, RoleManifest(x, c).obj); }
  }

  lemma RulesProper(ns: string, o: Object)
    requires o.body.Rules?
    ensures Proper(ns, o)
  {
  }

  lemma RolesOrdered(x: string, c: Component, ns: string, have: set<Key>)
    requires Stem(ClusterRole, c).Some? && Stem(ServiceAccount, c).Some? && AccountKeys(x, ns) <= have
    ensures var ops := Fetches(x, RoleAndBinding(x, c, ns)); Ordered(ns, have, ops) && AllProper(ns, ops)
  {
    assert AccountKey(x, c, ns) in AccountKeys(x, ns);
    PairOrdered(x, c, ns, have, BindingManifest(x, c, ns), [AccountKey(x, c, ns)]);
  }

  lemma SccOrdered(x: string, ns: string, have: set<Key>, included: bool)
    requires (set k | k in SccSubjects(x, ns)) <= have
    ensures var ops := Fetches(x, Only(included, SccManifests(x, ns))); Ordered(ns, have, ops) && AllProper(ns, ops)
  {
    hide AccountKey, AccountKeys, CommonLabels, RoleKey, BindingKey;
    if included {
      SccPairOrdered(x, ns, have);
    }
  }

  lemma SccPairOrdered(x: string, ns: string, have: set<Key>)
    requires (set k | k in SccSubjects(x, ns)) <= have
    ensures var ops := Fetches(x, SccManifests(x, ns)); Ordered(ns, have, ops) && AllProper(ns, ops)
  {
    PairOrdered(x, Scc, ns, have, SccBindingManifest(x, ns), SccSubjects(x, ns));
  }

  lemma FetchesConcat(x: string, a: seq<Manifest>, b: seq<Manifest>)
    ensures Fetches(x, a + b) == Fetches(x, a) + Fetches(x, b)
  {
  }

  lemma AppendOrdered(ns: string, have: set<Key>, base: set<Key>, a: seq<Op>, b: seq<Op>)
    requires Ordered(ns, have, a) && AllProper(ns, a) && base <= have + ProvidesAll(a)
    requires Ordered(ns, base, b) && AllProper(ns, b)
    ensures Ordered(ns, have, a + b) && AllProper(ns, a + b) && base <= have + ProvidesAll(a + b)
  {
    hide Proper, Needs;
    OrderedGrows(ns, base, have + ProvidesAll(a), b);
    OrderedConcat(ns, have, a, b);
    assert ProvidesAll(a) <= ProvidesAll(a + b);
  }

  lemma RbacOrdered(x: string, ns: string, have: set<Key>)
    ensures var ops := Fetches(x, RbacManifests(x, ns));
      Ordered(ns, have, ops) && AllProper(ns, ops) && AccountKeys(x, ns) <= have + ProvidesAll(ops)
  {
    hide Accounts, RoleAndBinding, AccountKeys, Ordered, AllProper, ProvidesAll;
    var accounts, base := Fetches(x, Accounts(x, ns)), AccountKeys(x, ns);
    var dp, su, me := RoleAndBinding(x, DevicePlugin, ns), RoleAndBinding(x, StatusUpdater, ns),
      RoleAndBinding(x, MetricsExporter, ns);
    AccountsFirst(x, ns, have);
    RolesOrdered(x, DevicePlugin, ns, base); RolesOrdered(x, StatusUpdater, ns, base); RolesOrdered(x,
      MetricsExporter, ns, base);
    FetchesConcat(x, Accounts(x, ns), dp);
    FetchesConcat(x, Accounts(x, ns) + dp, su);
    FetchesConcat(x, Accounts(x, ns) + dp + su, me);
    AppendOrdered(ns, have, base, accounts, Fetches(x, dp));
    AppendOrdered(ns, have, base, accounts + Fetches(x, dp), Fetches(x, su));
    AppendOrdered(ns, have, base, accounts + Fetches(x, dp) + Fetches(x, su), Fetches(x, me));
  }

  lemma SubjectsAreAccounts(x: string, ns: string)
    ensures (set k | k in SccSubjects(x, ns)) <= AccountKeys(x, ns)
  {
  }

  /** The program of a run is in order whatever is stored when it starts. */
  lemma ApplyProgramOrdered(cfg: Config, p: GPUProfile, ns: string, memo: Option<bool>, have: set<Key>)
    ensures Ordered(ns, have, ApplyProgram(cfg, p, ns, memo)) && AllProper(ns, ApplyProgram(cfg, p, ns, memo))
  {
    hide RbacManifests, SccManifests, WorkloadManifests, AccountKeys, AllProper, ProvidesAll, SccSubjects;
    var x, base := cfg.name, AccountKeys(cfg.name, ns);
    var rbac, work := Fetches(x, RbacManifests(x, ns)), Fetches(x, WorkloadManifests(x, cfg.cr.spec, p, ns));
    var nodes := [ListSelected(cfg), ListPool(cfg, p), CountNodes(cfg, p)];
    var scc := match memo case None => [Probe(cfg)] case Some(b) => Fetches(x, Only(b, SccManifests(x, ns)));
    RbacOrdered(x, ns, have);
    SubjectsAreAccounts(x, ns);
    if memo.Some? { SccOrdered(x, ns, base, memo.value); }
    else { OrderedAtOnce(ns, base, scc); NothingProper(ns, scc); }
    WorkloadsOnAccounts(x, cfg.cr.spec, p, ns);
    OnAccountsOrdered(x, ns, base, WorkloadManifests(x, cfg.cr.spec, p, ns));
    OrderedAtOnce(ns, base, nodes);
    NothingProper(ns, nodes);
    hide Ordered;
    AppendOrdered(ns, have, base, rbac, scc);
    AppendOrdered(ns, have, base, rbac + scc, work);
    AppendOrdered(ns, have, base, rbac + scc + work, nodes);
  }

  lemma NothingProper(ns: string, ops: seq<Op>)
    requires forall op | op in ops :: !Puts(op)
    ensures AllProper(ns, ops)
  {
  }

  // ---------------------------------------------------------------- the invariant

  predicate Ready(c: Store, x: string) { x in c.crs && !c.crs[x].deleting }

  ghost predicate Bereft(c: Store, ns: string, x: string) {
    forall k | k in c.objs && Reserved(ns, k) :: !Mine(c.objs[k], x)
  }

  /** A pending removal of a named object is of the custom resource being cleaned up. */
  ghost predicate RemovesOwn(ns: string, ops: seq<Op>) {
    forall op | op in ops && op.Remove? && NamedKind(op.key.kind) :: exists c :: Placed(ns, op.key, op.cfg.name, c)
  }

  predicate CleaningFor(todo: seq<Op>, x: string) { Cleaning(todo) && todo[|todo| - 1].cfg.name == x }

  ghost predicate StoredProper(c: Store, ns: string) {
    forall k | k in c.objs && Reserved(ns, k) :: Proper(ns, c.objs[k])
  }

  ghost predicate Referenced(s: Sys, x: string) {
    && Ordered(s.ns, s.c.objs.Keys, s.todo) && AllProper(s.ns, s.todo) && RemovesOwn(s.ns, s.todo)
    && StoredProper(s.c, s.ns)
    && (Ready(s.c, x) ==> Integral(s.c, s.ns, x))
    && (CleaningFor(s.todo, x) ==> !Ready(s.c, x) || Bereft(s.c, s.ns, x))
  }

  /** What may be put in front of the rest in place of `head`. */
  ghost predicate Replaces(ns: string, have: set<Key>, head: Op, ops: seq<Op>) {
    && Ordered(ns, have, ops) && AllProper(ns, ops) && RemovesOwn(ns, ops) && Provides(head) <= ProvidesAll(ops)
  }

  /** A step that leaves the objects alone. */
  lemma PlanReferenced(s: Sys, t: Sys, x: string, ops: seq<Op>)
    requires Referenced(s, x) && s.todo != [] && t.c.objs == s.c.objs && t.ns == s.ns
      && (Ready(t.c, x) ==> Ready(s.c, x))
    requires t.todo == ops + s.todo[1..] || t.todo == []
    requires Replaces(s.ns, s.c.objs.Keys, s.todo[0], ops)
    requires CleaningFor(t.todo, x) ==> CleaningFor(s.todo, x) || !Ready(t.c, x)
    ensures Referenced(t, x)
  {
    hide Proper, Needs, CleaningFor, Reserved, Mine, References;
    if t.todo != [] {
      OrderedGrows(s.ns, s.c.objs.Keys + Provides(s.todo[0]), s.c.objs.Keys + ProvidesAll(ops), s.todo[1..]);
      OrderedConcat(s.ns, s.c.objs.Keys, ops, s.todo[1..]);
    }
  }

  /** Operations that refer to nothing, write nothing and remove nothing. */
  lemma PlainReplaces(ns: string, have: set<Key>, head: Op, ops: seq<Op>)
    requires !Puts(head) && forall op | op in ops :: !Puts(op) && !op.Remove? && !op.Probe?
    ensures Replaces(ns, have, head, ops)
  {
    OrderedAtOnce(ns, have, ops);
  }

  lemma RemovesReplace(ns: string, have: set<Key>, head: Op, cfg: Config, keys: seq<Key>)
    requires !Puts(head) && forall k | k in keys && NamedKind(k.kind) :: exists c :: Placed(ns, k, cfg.name, c)
    ensures Replaces(ns, have, head, Removes(cfg, keys))
  {
    OrderedAtOnce(ns, have, Removes(cfg, keys));
  }

  lemma ClusterKeysOwn(ns: string, x: string, b: bool)
    ensures forall k | k in ClusterKeys(x, b) && NamedKind(k.kind) :: exists c :: Placed(ns, k, x, c)
  {
    hide ClusterKeys, Placed;
    forall k | k in ClusterKeys(x, b) && NamedKind(k.kind) ensures exists c :: Placed(ns, k, x, c) {
      ClusterKeysPlaced(ns, x, b, k);
    }
  }

  lemma AfterHelmReplaces(ns: string, have: set<Key>, head: Op, cfg: Config, memo: Option<bool>)
    requires !Puts(head)
    ensures Replaces(ns, have, head, AfterHelm(cfg, ns, memo))
  {
    hide ApplyProgram, ResolveProfile, Ordered, AllProper, Placed;
    if ResolveProfile(cfg.cr.spec).Some? {
      ApplyProgramOrdered(cfg, ResolveProfile(cfg.cr.spec).value, ns, memo, have);
      AfterHelmApplies(cfg, ns, memo);
    } else {
      PlainReplaces(ns, have, head, AfterHelm(cfg, ns, memo));
    }
  }

  lemma CleanupReplaces(ns: string, have: set<Key>, head: Op, ops: seq<Op>)
    requires !Puts(head) && RemovesOwn(ns, ops) && forall op | op in ops :: Cleanup(op)
    ensures Replaces(ns, have, head, ops)
  {
    hide RemovesOwn;
    OrderedAtOnce(ns, have, ops);
  }

  lemma DeleteProgramReplaces(ns: string, have: set<Key>, head: Op, cfg: Config, memo: Option<bool>)
    requires !Puts(head)
    ensures Replaces(ns, have, head, DeleteProgram(cfg, memo))
  {
    hide DeleteProgram, ClusterKeys, Placed, Replaces;
    var ops := DeleteProgram(cfg, memo);
    DeleteProgramShape(cfg, memo);
    DeleteProgramRemoves(cfg, memo);
    if memo.Some? { ClusterKeysOwn(ns, cfg.name, memo.value); }
    assert RemovesOwn(ns, ops);
    assert forall op | op in ops :: Cleanup(op);
    CleanupReplaces(ns, have, head, ops);
  }

  lemma DeleteProgramRemoves(cfg: Config, memo: Option<bool>)
    ensures forall op | op in DeleteProgram(cfg, memo) && op.Remove? ::
      op.cfg == cfg && memo.Some? && op.key in ClusterKeys(cfg.name, memo.value)
  {
  }

  // ---------------------------------------------------------------- steps

  /** A first read that starts a cleanup is of a custom resource that is not in use again. */
  predicate CleansNoOther(s: Sys, a: Answer)
    requires s.todo != []
  {
    s.todo[0].Begin? ==>
      var found := GetCR(s.c, s.todo[0].name, a).0;
      found.Some? && found.value.cr.deleting ==> !Ready(s.c, s.todo[0].name)
  }

  lemma GetReferenced(s: Sys, a: Answer, x: string)
    requires Inv(s) && Referenced(s, x) && s.todo != [] && s.todo[0].Begin? && CleansNoOther(s, a)
    ensures Referenced(Perform(s, a), x)
  {
    hide DeleteProgram, Inv, Referenced, Replaces, Cleaning, Perform, GetCR, Ready;
    ShapeFacts(s);
    BeginEffect(s, a);
    var name, head, t := s.todo[0].name, s.todo[0], Perform(s, a);
    var have, found := s.c.objs.Keys, GetCR(s.c, name, a).0;
    if found.Some? {
      var cfg := found.value;
      FoundName(s.c, name, a);
      assert t.todo == Route(cfg, s.memo) + s.todo[1..] by { assert s.todo[1..] == []; }
      if cfg.cr.deleting {
        DeleteProgramReplaces(s.ns, have, head, cfg, s.memo);
        DeleteProgramShape(cfg, s.memo);
        assert t.todo == DeleteProgram(cfg, s.memo);
      } else {
        PlainReplaces(s.ns, have, head, Route(cfg, s.memo));
        assert !Cleaning(t.todo) by { NotCleaning(t.todo); }
      }
      PlanReferenced(s, t, x, Route(cfg, s.memo));
    } else {
      PlainReplaces(s.ns, have, head, []);
      NotCleaning(t.todo);
      PlanReferenced(s, t, x, []);
    }
  }

  lemma NotCleaning(todo: seq<Op>)
    requires todo == [] || !todo[|todo| - 1].DropFinalizer?
    ensures !Cleaning(todo)
  {
  }

  lemma ProbeReplaces(s: Sys, a: Answer, x: string)
    requires Referenced(s, x) && s.todo != [] && s.todo[0].Probe?
    ensures var cfg := s.todo[0].cfg;
      Replaces(s.ns, s.c.objs.Keys, s.todo[0],
        Fetches(cfg.name, Only(a.fault == NoFault && s.c.openShift, SccManifests(cfg.name, s.ns))))
  {
    hide SccManifests, SccSubjects, Proper;
    SccOrdered(s.todo[0].cfg.name, s.ns, s.c.objs.Keys, a.fault == NoFault && s.c.openShift);
  }

  lemma FetchReplaces(s: Sys, x: string, rv: nat)
    requires Referenced(s, x) && s.todo != [] && s.todo[0].Fetch?
    ensures var owner, m := s.todo[0].owner, s.todo[0].m;
      Replaces(s.ns, s.c.objs.Keys, s.todo[0], [Create(owner, m)])
        && Replaces(s.ns, s.c.objs.Keys, s.todo[0], [Replace(owner, m, rv)])
  {
  }

  lemma PoolReplaces(ns: string, have: set<Key>, head: Op, x: string, seen: seq<Seen>, spec: Spec, p: GPUProfile)
    requires !Puts(head)
    ensures Replaces(ns, have, head, Fetches(x, PoolManifests(seen, spec, p, ns)))
  {
    var ops := Fetches(x, PoolManifests(seen, spec, p, ns));
    assert forall i | 0 <= i < |ops| :: References(ns, ops[i].m.obj) == {};
    OrderedAtOnce(ns, have, ops);
  }

  /** Reads of a run that applies. */
  lemma ApplyReadReferenced(s: Sys, a: Answer, x: string)
    requires Inv(s) && Referenced(s, x) && s.todo != [] && Fair(s, Call(a))
    requires Reads(s.todo[0]) && !Cleanup(s.todo[0]) && !s.todo[0].Begin?
    ensures Referenced(Perform(s, a), x)
  {
    hide Inv, Referenced, Replaces, Applying, AfterHelm, HelmSecretStored, HelmTopologyStored, SccManifests,
      PoolManifests,
      ListNodes, LabelOps, NodeListOption, PoolLabels, FinalStatus, Desired;
    var head, t, have := s.todo[0], Perform(s, a), s.c.objs.Keys;
    ShapeFacts(s);
    CallKeepsInv(s, a);
    ApplyingIsNotCleaning(t.todo);
    PlainReplaces(s.ns, have,
      SaveFinalizer(Config("", 0, FakeGPUConfig(Spec("", 0, None, map[], None, None), EMPTY_STATUS, {}, false))), []);
    var ops: seq<Op> := [];
    match head {
      case FindHelmSecrets(cfg) =>
        AfterHelmReplaces(s.ns, have, head, cfg, s.memo);
        PlainReplaces(s.ns, have, head, HelmStatus(cfg));
        PlainReplaces(s.ns, have, head, [FindHelmTopology(cfg)]);
        ops := if a.fault != NoFault then AfterHelm(cfg, s.ns, s.memo)
               else if HelmSecretStored(s.c) then HelmStatus(cfg) else [FindHelmTopology(cfg)];
      case FindHelmTopology(cfg) =>
        AfterHelmReplaces(s.ns, have, head, cfg, s.memo);
        PlainReplaces(s.ns, have, head, HelmStatus(cfg));
        ops := if a.fault == NoFault && HelmTopologyStored(s.c) then HelmStatus(cfg) else AfterHelm(cfg, s.ns, s.memo);
      case Probe(cfg) =>
        ProbeReplaces(s, a, x);
        ops := Fetches(cfg.name, Only(a.fault == NoFault && s.c.openShift, SccManifests(cfg.name, s.ns)));
      case Fetch(owner, m) =>
        FetchReplaces(s, x, Rv(s.c.objRv, m.key));
        ops := if m.key in s.c.objs then [Replace(owner, m, Rv(s.c.objRv, m.key))] else [Create(owner, m)];
      case ListSelected(cfg) =>
        ops := LabelOps(ListNodes(s.c, NodeListOption(cfg.name, cfg.cr.spec), a.order), cfg);
        LabelOpsFacts(ListNodes(s.c, NodeListOption(cfg.name, cfg.cr.spec), a.order), cfg);
        PlainReplaces(s.ns, have, head, ops);
      case ListPool(cfg, p) =>
        var seen := ListNodes(s.c, PoolLabels(cfg.name), a.order);
        PoolReplaces(s.ns, have, head, cfg.name, seen, cfg.cr.spec, p);
        ops := Fetches(cfg.name, PoolManifests(seen, cfg.cr.spec, p, s.ns));
      case CountNodes(cfg, p) =>
        ops := [SaveStatus(cfg,
          FinalStatus(cfg.cr.status, ListNodes(s.c, NodeListOption(cfg.name, cfg.cr.spec), a.order), cfg.cr.spec, p))];
        PlainReplaces(s.ns, have, head, ops);
    }
    PlanReferenced(s, t, x, ops);
  }

  lemma WriteStores(s: Sys, a: Answer)
    requires s.todo != [] && (s.todo[0].Create? || s.todo[0].Replace?) && Perform(s, a).todo != []
    ensures s.todo[0].m.key in Perform(s, a).c.objs
  {
  }

  lemma WriteReferenced(s: Sys, a: Answer, x: string)
    requires Inv(s) && Referenced(s, x) && s.todo != [] && (s.todo[0].Create? || s.todo[0].Replace?)
    ensures Referenced(Perform(s, a), x)
  {
    hide Perform, Inv, Proper, References, Cleaning, Reserved;
    var m, t := s.todo[0].m, Perform(s, a);
    assert s.todo[0] in s.todo;
    WriteEffect(s, a);
    WriteKeepsInv(s, a);
    ApplyingIsNotCleaning(t.todo);
    assert References(s.ns, m.obj) <= s.c.objs.Keys;
    if t.todo != [] {
      WriteStores(s, a);
      OrderedGrows(s.ns, s.c.objs.Keys + {m.key}, t.c.objs.Keys, t.todo);
    }
  }

  lemma SettleReady(c: Store, name: string, cr: FakeGPUConfig, x: string)
    requires name in c.crs && cr.deleting == c.crs[name].deleting
    ensures Ready(SettleCR(c, name, cr), x) ==> Ready(c, x)
  {
  }

  lemma CrWriteReferenced(s: Sys, a: Answer, x: string)
    requires Inv(s) && Referenced(s, x) && s.todo != []
    requires s.todo[0].SaveFinalizer? || s.todo[0].SaveStatus? || s.todo[0].DropFinalizer?
    ensures Referenced(Perform(s, a), x)
  {
    hide Perform, Inv, Referenced, Replaces, SettleCR;
    var t, name, have := Perform(s, a), s.todo[0].cfg.name, s.c.objs.Keys;
    var cr := CrWriteShape(s, a);
    CrWriteMemo(s, a);
    CrWritePlain(s, a);
    if name in s.c.crs {
      SettleReady(s.c, name, cr, x);
      SettleEffect(s.c, name, cr);
    }
    PlainReplaces(s.ns, have, s.todo[0], []);
    NotCleaning([]);
    if t.todo == [] {
      PlanReferenced(s, t, x, []);
    } else {
      PlainReplaces(s.ns, have, s.todo[0], [t.todo[0]]);
      ShapeFacts(s);
      CleaningCons(t.todo[0], s.todo[1..]);
      PlanReferenced(s, t, x, [t.todo[0]]);
    }
  }

  lemma CrWritePlain(s: Sys, a: Answer)
    requires s.todo != [] && (s.todo[0].SaveFinalizer? || s.todo[0].SaveStatus? || s.todo[0].DropFinalizer?)
    ensures Perform(s, a).ns == s.ns
  {
    hide UpdateCR, UpdateStatus;
  }

  lemma CleaningCons(op: Op, rest: seq<Op>)
    requires !Cleanup(op)
    ensures !Cleaning([op] + rest)
  {
    var todo := [op] + rest;
    assert todo[0] == op;
  }

  lemma LabelReferenced(s: Sys, a: Answer, x: string)
    requires Inv(s) && Referenced(s, x) && s.todo != [] && s.todo[0].LabelNode?
    ensures Referenced(Perform(s, a), x)
  {
    hide Perform, Inv, Referenced, Replaces;
    var t := Perform(s, a);
    NodeWriteEffect(s, a);
    NodeWriteKeepsInv(s, a);
    ApplyingIsNotCleaning(t.todo);
    PlainReplaces(s.ns, s.c.objs.Keys, s.todo[0], []);
    assert [] + s.todo[1..] == s.todo[1..];
    PlanReferenced(s, t, x, []);
  }

  lemma SweepOwn(s: Sys, cfg: Config, kind: Kind, selector: Labels, order: seq<string>)
    requires Tidy(s.c, s.ns) && Namespaced(kind) && (selector == InstanceLabels(cfg.name) || selector == NODE_TOPOLOGY)
    requires forall k | k in s.c.objs && k.kind == kind && k.ns == s.ns && Matches(selector, s.c.objs[k].labels) ::
      Reserved(s.ns, k)
    ensures forall k | k in Keys(kind, s.ns, Arrange(order, ObjectNames(s.c, kind, s.ns, selector)))
      && NamedKind(k.kind) ::
      exists c :: Placed(s.ns, k, cfg.name, c)
  {
    hide Placed;
    var names := Arrange(order, ObjectNames(s.c, kind, s.ns, selector));
    assert AppInstance in InstanceLabels(cfg.name) && NodeTopology in NODE_TOPOLOGY;
    forall i | 0 <= i < |names| && NamedKind(kind)
      ensures exists c :: Placed(s.ns, Key(kind, s.ns, names[i]), cfg.name, c) {
      var k := Key(kind, s.ns, names[i]);
      assert names[i] in ObjectNames(s.c, kind, s.ns, selector);
      ReservedIsAuthored(s, k);
      assert !AuthoredNodeTopology(s.ns, k, s.c.objs[k]);
      var y, c :| AuthoredFor(s.ns, s.c.openShift, k, s.c.objs[k], y, c);
    }
  }

  /** Steps of a cleanup that read. */
  lemma CleanupReadReferenced(s: Sys, a: Answer, x: string)
    requires Inv(s) && Referenced(s, x) && s.todo != [] && SweepsOwn(s)
      && (s.todo[0].Sweep? || s.todo[0].ListPooled? || s.todo[0].ProbeForRemoval?)
    ensures Referenced(Perform(s, a), x)
  {
    hide Inv, Referenced, Replaces, ListNodes, ObjectNames, Keys, Arrange, ClusterKeys, PoolLabels, Cleaning;
    ShapeFacts(s);
    CleaningEnds(s.todo);
    var head, t, have := s.todo[0], Perform(s, a), s.c.objs.Keys;
    var cfg := head.cfg;
    var ops: seq<Op> := [];
    PlainReplaces(s.ns, have, head, []);
    match head {
      case Sweep(_, kind, selector) =>
        var keys := Keys(kind, s.ns, Arrange(a.order, ObjectNames(s.c, kind, s.ns, selector)));
        assert Tidy(s.c, s.ns) && OpOk(s.c, s.ns, head) by { InvHead(s); }
        SweepOwn(s, cfg, kind, selector, a.order);
        RemovesReplace(s.ns, have, head, cfg, keys);
        ops := if a.fault == NoFault then Removes(cfg, keys) else [];
      case ListPooled(_) =>
        ops := UnlabelOps(ListNodes(s.c, PoolLabels(cfg.name), a.order), cfg);
        PlainReplaces(s.ns, have, head, ops);
      case ProbeForRemoval(_) =>
        var b := a.fault == NoFault && s.c.openShift;
        ClusterKeysOwn(s.ns, cfg.name, b);
        RemovesReplace(s.ns, have, head, cfg, ClusterKeys(cfg.name, b));
        ops := Removes(cfg, ClusterKeys(cfg.name, b));
    }
    NotCleaning([]);
    assert t.todo != [] ==> t.todo[|t.todo| - 1] == s.todo[|s.todo| - 1];
    PlanReferenced(s, t, x, ops);
  }

  lemma InvHead(s: Sys)
    requires Inv(s) && s.todo != []
    ensures Tidy(s.c, s.ns) && OpOk(s.c, s.ns, s.todo[0])
  {
  }

  lemma UnlabelReferenced(s: Sys, a: Answer, x: string)
    requires Inv(s) && Referenced(s, x) && s.todo != [] && s.todo[0].UnlabelNode?
    ensures Referenced(Perform(s, a), x)
  {
    hide Perform, Inv, Referenced, Replaces, Cleaning;
    var t := Perform(s, a);
    NodeWriteEffect(s, a);
    ShapeFacts(s);
    CleaningEnds(s.todo);
    PlainReplaces(s.ns, s.c.objs.Keys, s.todo[0], []);
    assert [] + s.todo[1..] == s.todo[1..];
    assert t.todo[|t.todo| - 1] == s.todo[|s.todo| - 1];
    PlanReferenced(s, t, x, []);
  }

  /** Removing something of one custom resource breaks no reference of another. */
  lemma RemoveKeepsIntegral(c: Store, d: Store, ns: string, x: string, y: string, k: Key)
    requires x != y && Integral(c, ns, x) && StoredProper(c, ns) && (d.objs == c.objs || d.objs == c.objs - {k})
    requires NamedKind(k.kind) ==> exists a :: Placed(ns, k, y, a)
    ensures Integral(d, ns, x)
  {
    hide References, Placed, Reserved;
    forall j | j in d.objs && Reserved(ns, j) && Mine(d.objs[j], x) ensures References(ns, d.objs[j]) <= d.objs.Keys {
      if k in References(ns, d.objs[j]) {
        assert Proper(ns, c.objs[j]);
        var a :| Placed(ns, k, y, a);
        var b :| Placed(ns, k, x, b);
        PlacedUnique(ns, k, x, b, y, a);
      }
    }
  }

  lemma RemoveReferenced(s: Sys, a: Answer, x: string)
    requires Inv(s) && Referenced(s, x) && s.todo != [] && s.todo[0].Remove?
    ensures Referenced(Perform(s, a), x)
  {
    hide Perform, Inv, References, Proper, Placed, Reserved, Cleaning, Needs;
    var head, t := s.todo[0], Perform(s, a);
    assert head in s.todo;
    RemoveEffect(s, a);
    RemoveRest(s, a);
    ShapeFacts(s);
    CleaningEnds(s.todo);
    assert t.todo[|t.todo| - 1] == s.todo[|s.todo| - 1];
    assert Ordered(t.ns, t.c.objs.Keys, t.todo) by { CleaningNeedsNothing(s.ns, t.c.objs.Keys, s.todo); }
    if Ready(t.c, x) && head.cfg.name != x {
      RemoveKeepsIntegral(s.c, t.c, s.ns, x, head.cfg.name, head.key);
    }
  }

  lemma CleaningNeedsNothing(ns: string, have: set<Key>, todo: seq<Op>)
    requires Cleaning(todo)
    ensures Ordered(ns, have, todo[1..])
  {
    forall op | op in todo ensures Cleanup(op) {
      var i :| 0 <= i < |todo| && todo[i] == op;
    }
    OrderedAtOnce(ns, have, todo[1..]);
  }

  lemma CallReferenced(s: Sys, a: Answer, x: string)
    requires Inv(s) && Referenced(s, x) && s.todo != [] && Fair(s, Call(a)) && CleansNoOther(s, a)
    ensures Referenced(Perform(s, a), x)
  {
    hide Perform, Inv, Referenced;
    var op := s.todo[0];
    match op
    case Begin(_) => GetReferenced(s, a, x);
    case SaveFinalizer(_) => CrWriteReferenced(s, a, x);
    case SaveStatus(_, _) => CrWriteReferenced(s, a, x);
    case DropFinalizer(_) => CrWriteReferenced(s, a, x);
    case Create(_, _) => WriteReferenced(s, a, x);
    case Replace(_, _, _) => WriteReferenced(s, a, x);
    case LabelNode(_, _) => LabelReferenced(s, a, x);
    case UnlabelNode(_, _) => UnlabelReferenced(s, a, x);
    case Remove(_, _) => RemoveReferenced(s, a, x);
    case Sweep(_, _, _) => CleanupReadReferenced(s, a, x);
    case ListPooled(_) => CleanupReadReferenced(s, a, x);
    case ProbeForRemoval(_) => CleanupReadReferenced(s, a, x);
    case _ => ApplyReadReferenced(s, a, x);
  }

  // ---------------------------------------------------------------- other clients, histories

  /** Other clients do not remove the operator's objects, and no stale read cleans up what is in use again. */
  ghost predicate Gentle(s: Sys, a: Action) {
    match a
    case Elsewhere(RemoveObject(k)) => !Reserved(s.ns, k)
    case Call(answer) => s.todo != [] ==> CleansNoOther(s, answer)
    case _ => true
  }

  ghost predicate GentleHistory(s: Sys, h: seq<Action>)
    decreases |h|
  {
    h == [] || (Gentle(s, h[0]) && GentleHistory(Act(s, h[0]), h[1..]))
  }

  lemma NotHeldBereft(s: Sys, x: string)
    requires Inv(s) && x !in s.c.crs
    ensures Bereft(s.c, s.ns, x)
  {
  }

  lemma MoveReady(c: Store, m: Move, x: string)
    ensures Ready(ApplyMove(c, m), x) ==> Ready(c, x) || x !in c.crs
  {
    hide Perform;
  }

  lemma ReservedMoves(c: Store, ns: string, m: Move)
    requires (m.RemoveObject? ==> !Reserved(ns, m.key)) && (m.PutObject? ==> !Reserved(ns, m.key))
    ensures var d := ApplyMove(c, m); forall k | Reserved(ns, k) ::
      (k in d.objs <==> k in c.objs) && (k in c.objs ==> d.objs[k] == c.objs[k])
  {
    hide Reserved, SettleCR;
    if (m.EditCR? || m.DeleteCR?) && m.name in c.crs {
      SettleEffect(c, m.name, if m.EditCR?
        then c.crs[m.name].(spec := m.spec, finalizers := KeepFinalizer(c.crs[m.name].finalizers, m.finalizers))
                              else c.crs[m.name].(deleting := true));
    }
  }

  /** What is in order stays in order as long as everything reserved is still there. */
  lemma {:induction false} OrderedReserved(ns: string, have: set<Key>, now: set<Key>, todo: seq<Op>)
    requires Ordered(ns, have, todo) && forall k | k in have && Reserved(ns, k) :: k in now
    requires forall op | op in todo :: forall k | k in Needs(ns, op) :: Reserved(ns, k)
    ensures Ordered(ns, now, todo)
    decreases |todo|
  {
    hide Needs, Reserved;
    if todo != [] {
      assert todo[0] in todo;
      OrderedReserved(ns, have + Provides(todo[0]), now + Provides(todo[0]), todo[1..]);
    }
  }

  lemma NeedsReserved(ns: string, op: Op)
    requires Puts(op) ==> Proper(ns, op.m.obj)
    ensures forall k | k in Needs(ns, op) :: Reserved(ns, k)
  {
    hide Placed, AccountKeys;
    if op.Probe? { AccountsProper(op.cfg.name, ns); SubjectsAreAccounts(op.cfg.name, ns); }
  }

  lemma MoveReferenced(s: Sys, m: Move, x: string)
    requires Inv(s) && Referenced(s, x) && Fair(s, Elsewhere(m)) && Gentle(s, Elsewhere(m))
    ensures Referenced(Act(s, Elsewhere(m)), x)
  {
    hide Perform, Inv, Proper, References, Reserved, Cleaning, Needs, ApplyMove;
    var t := Act(s, Elsewhere(m));
    ReservedMoves(s.c, s.ns, m);
    MoveReady(s.c, m, x);
    if x !in s.c.crs { NotHeldBereft(s, x); }
    forall op | op in s.todo ensures forall k | k in Needs(s.ns, op) :: Reserved(s.ns, k) {
      NeedsReserved(s.ns, op);
    }
    OrderedReserved(s.ns, s.c.objs.Keys, t.c.objs.Keys, s.todo);
    if Ready(t.c, x) {
      forall k | k in t.c.objs && Reserved(s.ns, k) && Mine(t.c.objs[k], x)
        ensures References(s.ns, t.c.objs[k]) <= t.c.objs.Keys {
        ProperReserved(s.ns, t.c.objs[k]);
      }
    }
  }

  lemma ProperReserved(ns: string, o: Object)
    requires Proper(ns, o)
    ensures forall k | k in References(ns, o) :: Reserved(ns, k)
  {
  }

  lemma ActReferenced(s: Sys, a: Action, x: string)
    requires Inv(s) && Referenced(s, x) && Fair(s, a) && Gentle(s, a)
    ensures Referenced(Act(s, a), x) && Act(s, a).ns == s.ns
  {
    hide Perform, Inv, Proper, References, Reserved, Cleaning, Needs;
    NamespaceFixed(s, [a]);
    assert Replay(s, [a]) == Act(s, a);
    match a
    case Request(name) =>
      if s.todo == [] {
        OrderedAtOnce(s.ns, s.c.objs.Keys,
          [Begin(name)]) by { assert Needs(s.ns, Begin(name)) == {} by { BeginNeedsNothing(s.ns, name); } }
        NotCleaning([Begin(name)]);
      }
    case Call(answer) => if s.todo != [] { CallReferenced(s, answer, x); }
    case Elsewhere(m) => MoveReferenced(s, m, x);
    case Restart => NotCleaning([]);
  }

  lemma BeginNeedsNothing(ns: string, name: string)
    ensures Needs(ns, Begin(name)) == {}
  {
  }

  lemma {:induction false} ReplayReferenced(s: Sys, h: seq<Action>, x: string)
    requires Inv(s) && Referenced(s, x) && FairHistory(s, h) && GentleHistory(s, h)
    ensures Referenced(Replay(s, h), x)
    decreases |h|
  {
    hide Act, Inv, Referenced, Fair, Gentle;
    if h != [] {
      ActReferenced(s, h[0], x);
      ActKeepsInv(s, h[0]);
      ReplayReferenced(Act(s, h[0]), h[1..], x);
    }
  }

  /**
   * Referential integrity at every intermediate state. Start with none of the operator's objects; let custom resources
   * be created, edited and deleted, calls fail and the process restart at any point. While a custom resource is stored
   * and not being deleted, each object of its that is stored finds everything it refers to stored as well.
   */
  lemma ReferencesHold(s: Sys, h: seq<Action>, x: string, k: Key)
    requires Pristine(s) && FairHistory(s, h) && GentleHistory(s, h)
    ensures var c := Replay(s, h).c;
      Ready(c, x) && k in c.objs && Reserved(s.ns, k) && Mine(c.objs[k], x) ==>
        References(s.ns, c.objs[k]) <= c.objs.Keys
  {
    hide Act, Fair, Gentle, References, Reserved, Proper;
    assert Referenced(s, x) by { PristineReferenced(s, x); }
    PristineInv(s);
    NamespaceFixed(s, h);
    ReplayReferenced(s, h, x);
  }

  lemma PristineReferenced(s: Sys, x: string)
    requires Pristine(s)
    ensures Referenced(s, x)
  {
  }
}
