/**
 * What a run reports it has applied: by the time it commits Available for a spec, the API server has accepted, since
 * the run was requested, the write of every object that spec calls for, and of a topology map for every node of the
 * pool as the run listed it.
 */
module Ledger {
  import opened Basics
  import opened Api
  import opened Resources
  import opened Cluster
  import opened Protocol
  import opened Safety
  import opened Erasure
  import opened Honesty
  import opened Footprint

  // ---------------------------------------------------------------- what is due, and what is written

  /** What a run for this spec writes before it looks at nodes, by the remembered answer about OpenShift. */
  function Due(cfg: Config, ns: string, memo: Option<bool>): seq<Manifest> {
    match ResolveProfile(cfg.cr.spec)
    case None => []
    case Some(p) => Plan(cfg.name, cfg.cr.spec, p, ns, memo == Some(true))
  }

  /** The nodes of the pool as a run listed them, and what it listed them for. */
  datatype Pool = Pool(cfg: Config, profile: GPUProfile, seen: seq<Seen>)

  function PoolDue(pool: Option<Pool>, ns: string): seq<Manifest> {
    match pool
    case None => []
    case Some(p) => PoolManifests(p.seen, p.cfg.cr.spec, p.profile, ns)
  }

  /** Since the last request was taken up: the manifests accepted, and the pool last listed. */
  datatype Book = Book(written: set<Manifest>, pool: Option<Pool>)

  const EMPTY_BOOK := Book({}, None)

  /** The next call writes an object and the API server accepts it. */
  predicate Accepted(s: Sys, a: Answer) {
    s.todo != [] && match s.todo[0]
      case Create(_, m) => Effect(a, s.c, CreateObject(s.c, m.key, m.obj)).1 == Ok
      case Replace(_, m, rv) => Effect(a, s.c, UpdateObject(s.c, m.key, m.obj, rv)).1 == Ok
      case _ => false
  }

  function NoteCall(s: Sys, a: Answer, b: Book): Book
    requires s.todo != []
  {
    match s.todo[0]
    case Create(_, m) => if Accepted(s, a) then b.(written := b.written + {m}) else b
    case Replace(_, m, _) => if Accepted(s, a) then b.(written := b.written + {m}) else b
    case ListPool(cfg, p) =>
      if a.fault == NoFault then b.(pool := Some(Pool(cfg, p, ListNodes(s.c, PoolLabels(cfg.name), a.order)))) else b
    case _ => b
  }

  function Note(s: Sys, a: Action, b: Book): Book {
    match a
    case Request(_) => if s.todo == [] then EMPTY_BOOK else b
    case Call(answer) => if s.todo == [] then b else NoteCall(s, answer, b)
    case Elsewhere(_) => b
    case Restart => EMPTY_BOOK
  }

  function Kept(s: Sys, h: seq<Action>, b: Book): Book
    decreases |h|
  {
    if h == [] then b else Kept(Act(s, h[0]), h[1..], Note(s, h[0], b))
  }

  // ---------------------------------------------------------------- the invariant

  /** Operations that come after the writes of a run. */
  predicate Concludes(op: Op) {
    op.ListSelected? || op.LabelNode? || op.ListPool? || Late(op)
  }

  /** Operations that come after the pool is listed. */
  predicate Late(op: Op) {
    op.CountNodes? || (op.SaveStatus? && Claims(op.status))
  }

  /** Operations a run starts with; each is all there is to do. */
  predicate Early(op: Op) {
    op.Begin? || op.SaveFinalizer? || op.FindHelmSecrets? || op.FindHelmTopology?
  }

  /** Operations nothing is left after. */
  predicate Alone(op: Op) {
    Early(op) || op.CountNodes? || op.SaveStatus? || op.DropFinalizer?
  }

  predicate Tail(todo: seq<Op>) { forall i | 0 <= i < |todo| - 1 :: !Alone(todo[i]) }

  predicate Asks(op: Op) { op.Probe? || op.ListPool? || op.ProbeForRemoval? }

  predicate Planned(todo: seq<Op>, m: Manifest) {
    exists op | op in todo :: Puts(op) && op.m == m
  }

  predicate Listing(todo: seq<Op>) { exists op | op in todo :: op.ListPool? }

  /** Whatever is due before an operation that concludes a run for `cfg` is written or still planned. */
  predicate BookedFor(s: Sys, b: Book, cfg: Config, late: bool) {
    && (forall m | m in Due(cfg, s.ns, s.memo) :: m in b.written || Planned(s.todo, m))
    && (s.memo.Some? || Probe(cfg) in s.todo)
    && (forall p | p in s.todo && Asks(p) :: !p.ProbeForRemoval? && p.cfg == cfg)
    && (late ==> (b.pool.Some? && b.pool.value.cfg == cfg) || Listing(s.todo))
    && (forall m | m in PoolDue(b.pool, s.ns) :: m in b.written || Planned(s.todo, m))
  }

  predicate Booked(s: Sys, b: Book) {
    && Tail(s.todo)
    && (forall op | op in s.todo && Early(op) :: |s.todo| == 1 && b.pool == None)
    && forall op | op in s.todo && Concludes(op) :: BookedFor(s, b, op.cfg, Late(op))
  }

  // ---------------------------------------------------------------- steps

  lemma TailStep(todo: seq<Op>, ops: seq<Op>)
    requires todo != [] && Tail(todo) && Tail(ops) && (Alone(todo[0]) || forall op | op in ops :: !Alone(op))
    ensures Tail(ops + todo[1..])
  {
    hide Alone;
    var later := ops + todo[1..];
    assert Alone(todo[0]) ==> todo[1..] == [];
    forall i | 0 <= i < |later| - 1 ensures !Alone(later[i]) {
      if i < |ops| { assert later[i] == ops[i] && ops[i] in ops; } else { assert later[i] == todo[i - |ops| + 1]; }
    }
  }

  /** What is still planned after a step that puts `ops` in front of the rest. */
  lemma PlannedStep(todo: seq<Op>, ops: seq<Op>, m: Manifest)
    requires todo != []
    ensures Planned(ops, m) ==> Planned(ops + todo[1..], m)
    ensures Planned(todo, m) ==> (Puts(todo[0]) && todo[0].m == m) || Planned(ops + todo[1..], m)
  {
    if Planned(ops, m) {
      var op :| op in ops && Puts(op) && op.m == m;
      assert op in ops + todo[1..];
    }
    if Planned(todo, m) {
      var op :| op in todo && Puts(op) && op.m == m;
      if op != todo[0] { assert op in ops + todo[1..]; }
    }
  }

  lemma NoLongerEarly(s: Sys, b: Book)
    requires Booked(s, b) && s.todo != [] && !Early(s.todo[0])
    ensures forall op | op in s.todo :: !Early(op)
  {
    hide BookedFor, Early, Concludes;
    assert forall op | op in s.todo :: Early(op) ==> s.todo == [op];
  }

  lemma NothingBooked(s: Sys, b: Book)
    requires s.todo == []
    ensures Booked(s, b)
  {
  }

  /** What a program laid out in one step has to bring along. */
  predicate Fresh(ops: seq<Op>, ns: string, memo: Option<bool>) {
    && Tail(ops)
    && (forall op | op in ops && Early(op) :: |ops| == 1)
    && forall op | op in ops && Concludes(op) ::
         && (forall m | m in Due(op.cfg, ns, memo) :: Planned(ops, m))
         && (memo.Some? || Probe(op.cfg) in ops)
         && (forall p | p in ops && Asks(p) :: !p.ProbeForRemoval? && p.cfg == op.cfg)
         && (Late(op) ==> Listing(ops))
  }

  lemma FreshBooked(s: Sys, t: Sys, ops: seq<Op>, b: Book)
    requires Booked(s, b) && s.todo != [] && Early(s.todo[0]) && t.ns == s.ns && t.memo == s.memo
    requires t.todo == ops + s.todo[1..] && Fresh(ops, s.ns, s.memo)
    ensures Booked(t, b)
  {
    hide Due, Concludes, Early, Alone;
    assert s.todo[0] in s.todo;
    assert t.todo == ops;
  }

  /** What is booked stays booked when the step asks nothing and what it was to write is written or still planned. */
  lemma BookedForStep(s: Sys, t: Sys, ops: seq<Op>, b: Book, d: Book, cfg: Config, late: bool)
    requires BookedFor(s, b, cfg, late) && s.todo != []
    requires t.ns == s.ns && t.memo == s.memo && t.todo == ops + s.todo[1..]
    requires d.pool == b.pool && b.written <= d.written
    requires Puts(s.todo[0]) ==> s.todo[0].m in d.written || Planned(ops, s.todo[0].m)
    requires !Asks(s.todo[0]) && forall p | p in ops :: !Asks(p)
    ensures BookedFor(t, d, cfg, late)
  {
    hide Due, PoolDue, Planned;
    forall m | Planned(s.todo, m) ensures m in d.written || Planned(t.todo, m) { PlannedStep(s.todo, ops, m); }
    assert s.memo.None? ==> Probe(cfg) in s.todo && Probe(cfg) != s.todo[0];
    ListingStep(s.todo, ops);
  }

  lemma ListingStep(todo: seq<Op>, ops: seq<Op>)
    requires todo != [] && !todo[0].ListPool?
    ensures Listing(todo) ==> Listing(ops + todo[1..])
  {
    if Listing(todo) {
      var p :| p in todo && p.ListPool?;
      assert p in ops + todo[1..];
    }
  }

  /** A step within a run that asks nothing and writes nothing. */
  lemma StepBooked(s: Sys, t: Sys, ops: seq<Op>, b: Book)
    requires Booked(s, b) && s.todo != [] && !Early(s.todo[0]) && !Asks(s.todo[0]) && t.ns == s.ns && t.memo == s.memo
    requires t.todo == ops + s.todo[1..]
    requires Puts(s.todo[0]) ==> Planned(ops, s.todo[0].m)
    requires Tail(ops) && (Alone(s.todo[0]) || forall op | op in ops :: !Alone(op))
    requires forall op | op in ops :: !Early(op) && !Asks(op)
    requires forall op | op in ops && Concludes(op) ::
      Concludes(s.todo[0]) && op.cfg == s.todo[0].cfg && (Late(op) ==> Late(s.todo[0]))
    ensures Booked(t, b)
  {
    hide Due, PoolDue, Alone, Early, Planned, Puts;
    TailStep(s.todo, ops);
    assert s.todo[0] in s.todo;
    forall op | op in t.todo && Concludes(op) ensures BookedFor(t, b, op.cfg, Late(op)) {
      var origin := if op in ops then s.todo[0] else op;
      assert BookedFor(s, b, op.cfg, Late(origin));
      BookedForStep(s, t, ops, b, b, op.cfg, Late(origin));
    }
    NoLongerEarly(s, b);
  }

  /** A step of a cleanup. */
  lemma IdleBooked(s: Sys, t: Sys, ops: seq<Op>, b: Book)
    requires Booked(s, b) && s.todo != [] && s.todo[0].ProbeForRemoval? && t.ns == s.ns
    requires t.todo == ops + s.todo[1..] && forall op | op in ops :: op.Remove?
    ensures Booked(t, b)
  {
    hide Due, PoolDue, Planned;
    assert Tail(ops) by { forall i | 0 <= i < |ops| ensures !Alone(ops[i]) { assert ops[i] in ops; } }
    TailStep(s.todo, ops);
    assert s.todo[0] in s.todo;
    NoLongerEarly(s, b);
  }

  lemma SccDue(cfg: Config, ns: string, memo: Option<bool>, m: Manifest)
    requires m in Due(cfg, ns, memo)
    ensures m in Due(cfg, ns, None) || (memo == Some(true) && m in SccManifests(cfg.name, ns))
  {
    hide RbacManifests, SccManifests, WorkloadManifests, ResolveProfile;
  }

  lemma ProbeBooked(s: Sys, a: Answer, b: Book)
    requires Booked(s, b) && s.todo != [] && s.todo[0].Probe?
    ensures Booked(Perform(s, a), b)
  {
    hide Due, PoolDue, SccManifests, Planned;
    var cfg, t := s.todo[0].cfg, Perform(s, a);
    var scc := Only(a.fault == NoFault && s.c.openShift, SccManifests(cfg.name, s.ns));
    var ops := Fetches(cfg.name, scc);
    assert t.todo == ops + s.todo[1..];
    TailStep(s.todo, ops);
    assert s.todo[0] in s.todo;
    forall op | op in t.todo && Concludes(op) ensures BookedFor(t, b, op.cfg, Late(op)) {
      FetchesConcludeNothing(cfg.name, scc);
      AnsweredFor(s, t, b, op.cfg, Late(op), scc);
    }
    NoLongerEarly(s, b);
  }

  /** The question answered, the SCC pair is planned if that is called for. */
  lemma AnsweredFor(s: Sys, t: Sys, b: Book, cfg: Config, late: bool, scc: seq<Manifest>)
    requires BookedFor(s, b, cfg, late) && s.todo != [] && s.todo[0].Probe? && s.todo[0].cfg == cfg
    requires t.memo.Some? && t.ns == s.ns && scc == Only(t.memo.value, SccManifests(cfg.name, s.ns))
    requires t.todo == Fetches(cfg.name, scc) + s.todo[1..]
    ensures BookedFor(t, b, cfg, late)
  {
    hide Due, PoolDue, Planned, SccManifests;
    var ops := Fetches(cfg.name, scc);
    forall m | m in Due(cfg, s.ns, t.memo) ensures m in b.written || Planned(t.todo, m) {
      SccDue(cfg, s.ns, t.memo, m);
      PlannedStep(s.todo, ops, m);
      if m in scc { FetchPlanned(cfg.name, scc, m); }
      if m in Due(cfg, s.ns, None) { DueGrows(cfg, s.ns, s.memo, m); }
    }
    forall m | m in PoolDue(b.pool, s.ns) ensures m in b.written || Planned(t.todo, m) {
      PlannedStep(s.todo, ops, m);
    }
    ListingStep(s.todo, ops);
  }

  lemma DueGrows(cfg: Config, ns: string, memo: Option<bool>, m: Manifest)
    requires m in Due(cfg, ns, None)
    ensures m in Due(cfg, ns, memo)
  {
    hide RbacManifests, SccManifests, WorkloadManifests, ResolveProfile;
  }

  lemma FetchesConcludeNothing(x: string, ms: seq<Manifest>)
    ensures forall op | op in Fetches(x, ms) :: !Concludes(op)
  {
  }

  lemma FetchPlanned(x: string, ms: seq<Manifest>, m: Manifest)
    requires m in ms
    ensures Fetch(x, m) in Fetches(x, ms) && Planned(Fetches(x, ms), m)
  {
    var i :| 0 <= i < |ms| && ms[i] == m;
    assert Fetches(x, ms)[i] == Fetch(x, m);
  }

  /** The pool listed, its maps are planned. */
  lemma ListedFor(s: Sys, t: Sys, b: Book, d: Book, cfg: Config, late: bool, ms: seq<Manifest>)
    requires BookedFor(s, b, cfg, late) && s.todo != [] && s.todo[0].ListPool?
    requires t.ns == s.ns && t.memo == s.memo && t.todo == Fetches(cfg.name, ms) + s.todo[1..]
    requires d.written == b.written && d.pool.Some? && d.pool.value.cfg == cfg && PoolDue(d.pool, s.ns) == ms
    ensures BookedFor(t, d, cfg, late)
  {
    hide Due, PoolDue, Planned;
    forall m | m in Due(cfg, s.ns, t.memo) ensures m in d.written || Planned(t.todo, m) {
      PlannedStep(s.todo, Fetches(cfg.name, ms), m);
    }
    forall m | m in ms ensures Planned(t.todo, m) {
      FetchPlanned(cfg.name, ms, m);
      PlannedStep(s.todo, Fetches(cfg.name, ms), m);
    }
  }

  lemma ListPoolBooked(s: Sys, a: Answer, b: Book)
    requires Booked(s, b) && s.todo != [] && s.todo[0].ListPool?
    ensures Booked(Perform(s, a), NoteCall(s, a, b))
  {
    hide Due, ListNodes, PoolManifests, PoolLabels, Planned;
    var cfg, t, d := s.todo[0].cfg, Perform(s, a), NoteCall(s, a, b);
    if a.fault == NoFault {
      var ms := PoolManifests(ListNodes(s.c, PoolLabels(cfg.name), a.order), cfg.cr.spec, s.todo[0].profile, s.ns);
      var ops := Fetches(cfg.name, ms);
      assert t.todo == ops + s.todo[1..];
      TailStep(s.todo, ops);
      assert s.todo[0] in s.todo && Asks(s.todo[0]);
      forall op | op in t.todo && Concludes(op) ensures BookedFor(t, d, op.cfg, Late(op)) {
        assert op in s.todo by { FetchesConcludeNothing(cfg.name, ms); }
        assert BookedFor(s, b, op.cfg, Late(op)) && op.cfg == cfg;
        ListedFor(s, t, b, d, cfg, Late(op), ms);
      }
      NoLongerEarly(s, b);
    } else {
      NothingBooked(t, d);
    }
  }

  /** What may stand in an apply program: everything that concludes or asks is for the one custom resource. */
  lemma ApplyProgramOps(cfg: Config, p: GPUProfile, ns: string, memo: Option<bool>)
    ensures var ops := ApplyProgram(cfg, p, ns, memo);
      && Tail(ops) && ListPool(cfg, p) in ops && (memo.None? ==> Probe(cfg) in ops)
      && forall op | op in ops :: !Early(op) && !op.ProbeForRemoval? && (Concludes(op) || Asks(op) ==> op.cfg == cfg)
  {
    hide RbacManifests, SccManifests, WorkloadManifests;
  }

  lemma AfterHelmFresh(cfg: Config, ns: string, memo: Option<bool>)
    ensures Fresh(AfterHelm(cfg, ns, memo), ns, memo)
  {
    hide ApplyProgram, ResolveProfile, Planned, Plan;
    if ResolveProfile(cfg.cr.spec).Some? {
      var p := ResolveProfile(cfg.cr.spec).value;
      ApplyProgramOps(cfg, p, ns, memo);
      forall m | m in Due(cfg, ns, memo) ensures Planned(ApplyProgram(cfg, p, ns, memo), m) {
        DuePlanned(cfg, p, ns, memo, m);
      }
    } else {
      hide Fresh;
      NothingConcludes(AfterHelm(cfg, ns, memo), ns, memo);
    }
  }

  lemma DuePlanned(cfg: Config, p: GPUProfile, ns: string, memo: Option<bool>, m: Manifest)
    requires m in Plan(cfg.name, cfg.cr.spec, p, ns, memo == Some(true))
    ensures Planned(ApplyProgram(cfg, p, ns, memo), m)
  {
    hide RbacManifests, SccManifests, WorkloadManifests;
    var rbac, scc, work := RbacManifests(cfg.name, ns), Only(memo == Some(true), SccManifests(cfg.name, ns)),
      WorkloadManifests(cfg.name, cfg.cr.spec, p, ns);
    if m in rbac { FetchPlanned(cfg.name, rbac, m); }
    else if m in scc { FetchPlanned(cfg.name, scc, m); }
    else { FetchPlanned(cfg.name, work, m); }
    assert Fetch(cfg.name, m) in ApplyProgram(cfg, p, ns, memo);
  }

  lemma NothingConcludes(ops: seq<Op>, ns: string, memo: Option<bool>)
    requires Tail(ops) && forall op | op in ops :: !Concludes(op) && (Early(op) ==> |ops| == 1)
    ensures Fresh(ops, ns, memo)
  {
    hide Due, Planned;
  }

  lemma SmallFresh(cfg: Config, ns: string, memo: Option<bool>)
    ensures Fresh(HelmStatus(cfg), ns, memo) && Fresh([FindHelmTopology(cfg)], ns, memo)
    ensures Fresh([FindHelmSecrets(cfg)], ns, memo)
  {
    hide Fresh;
    NothingConcludes(HelmStatus(cfg), ns, memo);
    NothingConcludes([FindHelmTopology(cfg)], ns, memo);
    NothingConcludes([FindHelmSecrets(cfg)], ns, memo);
  }

  lemma RouteFresh(cfg: Config, ns: string, memo: Option<bool>)
    ensures Fresh(Route(cfg, memo), ns, memo)
  {
    hide ClusterKeys, Fresh;
    NothingConcludes(Route(cfg, memo), ns, memo);
  }

  lemma BeginBooked(s: Sys, a: Answer, b: Book)
    requires Booked(s, b) && s.todo != [] && s.todo[0].Begin?
    ensures Booked(Perform(s, a), b)
  {
    hide Booked, Fresh, Route, GetCR;
    var found := GetCR(s.c, s.todo[0].name, a).0;
    if found.Some? {
      RouteFresh(found.value, s.ns, s.memo);
      FreshBooked(s, Perform(s, a), Route(found.value, s.memo), b);
    } else {
      NothingBooked(Perform(s, a), b);
    }
  }

  lemma HelmBooked(s: Sys, a: Answer, b: Book)
    requires Booked(s, b) && s.todo != [] && (s.todo[0].FindHelmSecrets? || s.todo[0].FindHelmTopology?)
    ensures Booked(Perform(s, a), b)
  {
    hide AfterHelm, HelmSecretStored, HelmTopologyStored, Booked, Fresh;
    var cfg, t := s.todo[0].cfg, Perform(s, a);
    AfterHelmFresh(cfg, s.ns, s.memo);
    SmallFresh(cfg, s.ns, s.memo);
    FreshBooked(s, t, if t == Continue(s, AfterHelm(cfg, s.ns, s.memo)) then AfterHelm(cfg, s.ns, s.memo)
      else if t == Continue(s, HelmStatus(cfg)) then HelmStatus(cfg) else [FindHelmTopology(cfg)], b);
  }

  lemma NodesBooked(s: Sys, a: Answer, b: Book)
    requires Booked(s, b) && s.todo != [] && (s.todo[0].ListSelected? || s.todo[0].CountNodes?)
    ensures Booked(Perform(s, a), b)
  {
    hide ListNodes, LabelOps, FinalStatus, NodeListOption, Desired, Booked, Due;
    var op, t := s.todo[0], Perform(s, a);
    var cfg := op.cfg;
    if a.fault != NoFault {
      NothingBooked(t, b);
    } else if op.ListSelected? {
      var ops := LabelOps(ListNodes(s.c, NodeListOption(cfg.name, cfg.cr.spec), a.order), cfg);
      LabelOpsFacts(ListNodes(s.c, NodeListOption(cfg.name, cfg.cr.spec), a.order), cfg);
      assert Tail(ops) by { forall i | 0 <= i < |ops| ensures !Alone(ops[i]) { assert ops[i] in ops; } }
      StepBooked(s, t, ops, b);
    } else {
      StepBooked(s, t, [SaveStatus(cfg, FinalStatus(cfg.cr.status,
        ListNodes(s.c, NodeListOption(cfg.name, cfg.cr.spec), a.order), cfg.cr.spec, op.profile))], b);
    }
  }

  lemma OtherReadBooked(s: Sys, a: Answer, b: Book)
    requires Booked(s, b) && s.todo != []
    requires var op := s.todo[0]; op.Fetch? || op.Sweep? || op.ListPooled? || op.ProbeForRemoval?
    ensures Booked(Perform(s, a), b)
  {
    hide ListNodes, ClusterKeys, Arrange, Keys, PoolLabels, ObjectNames, Booked, Due;
    var t := Perform(s, a);
    match s.todo[0]
    case Fetch(x, m) =>
      if a.fault != NoFault {
        NothingBooked(t, b);
      } else {
        var op := if m.key in s.c.objs then Replace(x, m, Rv(s.c.objRv, m.key)) else Create(x, m);
        assert op in [op] && Planned([op], m);
        StepBooked(s, t, [op], b);
      }
    case Sweep(cfg, kind, selector) =>
      StepBooked(s, t, if a.fault == NoFault
        then Removes(cfg, Keys(kind, s.ns, Arrange(a.order, ObjectNames(s.c, kind, s.ns, selector)))) else [], b);
    case ListPooled(cfg) =>
      if a.fault != NoFault { NothingBooked(t, b); }
      else { StepBooked(s, t, UnlabelOps(ListNodes(s.c, PoolLabels(cfg.name), a.order), cfg), b); }
    case ProbeForRemoval(cfg) =>
      IdleBooked(s, t, Removes(cfg, ClusterKeys(cfg.name, a.fault == NoFault && s.c.openShift)), b);
  }

  lemma WriteAccepted(s: Sys, a: Answer)
    requires s.todo != [] && (s.todo[0].Create? || s.todo[0].Replace?)
    ensures Perform(s, a).todo != [] ==> Accepted(s, a)
  {
    hide Perform, FrozenPart;
    WriteDispatch(s, a);
  }

  /** What an accepted write was planned for is on the books. */
  lemma PutBooked(s: Sys, t: Sys, b: Book, m: Manifest)
    requires Booked(s, b) && s.todo != [] && Puts(s.todo[0]) && s.todo[0].m == m
    requires t.ns == s.ns && t.memo == s.memo && t.todo == s.todo[1..]
    ensures Booked(t, b.(written := b.written + {m}))
  {
    hide Due, PoolDue, Alone, Planned, BookedFor;
    var d := b.(written := b.written + {m});
    assert t.todo == [] + s.todo[1..];
    forall i | 0 <= i < |t.todo| - 1 ensures !Alone(t.todo[i]) { assert t.todo[i] == s.todo[i + 1]; }
    forall op | op in t.todo && Concludes(op) ensures BookedFor(t, d, op.cfg, Late(op)) {
      BookedForStep(s, t, [], b, d, op.cfg, Late(op));
    }
    NoLongerEarly(s, b);
  }

  lemma ObjectWriteBooked(s: Sys, a: Answer, b: Book)
    requires Booked(s, b) && s.todo != [] && (s.todo[0].Create? || s.todo[0].Replace?)
    ensures Booked(Perform(s, a), NoteCall(s, a, b))
  {
    hide Perform, Accepted, Booked;
    var t := Perform(s, a);
    WriteEffect(s, a);
    if t.todo == [] {
      NothingBooked(t, NoteCall(s, a, b));
    } else {
      WriteAccepted(s, a);
      PutBooked(s, t, b, s.todo[0].m);
    }
  }

  lemma OtherWriteBooked(s: Sys, a: Answer, b: Book)
    requires Booked(s, b) && s.todo != [] && !Reads(s.todo[0]) && !s.todo[0].Create? && !s.todo[0].Replace?
    ensures Booked(Perform(s, a), b)
  {
    hide Perform, Due, Booked;
    var t := Perform(s, a);
    NamespaceFixed(s, [Call(a)]);
    assert Replay(s, [Call(a)]) == t;
    assert [] + s.todo[1..] == s.todo[1..];
    if s.todo[0].Remove? {
      RemoveRest(s, a);
      StepBooked(s, t, [], b);
    } else if OnNode(s.todo[0]) {
      NodeWriteEffect(s, a);
      if t.todo == [] { NothingBooked(t, b); } else { StepBooked(s, t, [], b); }
    } else {
      var cr := CrWriteShape(s, a);
      CrWriteMemo(s, a);
      if t.todo == [] {
        NothingBooked(t, b);
      } else {
        SmallFresh(t.todo[0].cfg, s.ns, s.memo);
        FreshBooked(s, t, [t.todo[0]], b);
      }
    }
  }

  lemma CallBooked(s: Sys, a: Answer, b: Book)
    requires Booked(s, b) && s.todo != []
    ensures Booked(Perform(s, a), NoteCall(s, a, b))
  {
    hide Perform, Booked, Accepted;
    if s.todo[0].Create? || s.todo[0].Replace? { ObjectWriteBooked(s, a, b); }
    else if !Reads(s.todo[0]) { OtherWriteBooked(s, a, b); }
    else if s.todo[0].ListPool? { ListPoolBooked(s, a, b); }
    else if s.todo[0].Probe? { ProbeBooked(s, a, b); }
    else if s.todo[0].Begin? { BeginBooked(s, a, b); }
    else if Early(s.todo[0]) { HelmBooked(s, a, b); }
    else if s.todo[0].ListSelected? || s.todo[0].CountNodes? { NodesBooked(s, a, b); }
    else { OtherReadBooked(s, a, b); }
  }

  lemma ActBooked(s: Sys, a: Action, b: Book)
    requires Booked(s, b)
    ensures Booked(Act(s, a), Note(s, a, b))
  {
    hide Perform, Due, PoolDue, NoteCall;
    match a
    case Call(answer) => if s.todo != [] { CallBooked(s, answer, b); }
    case _ =>
  }

  lemma {:induction false} ReplayBooked(s: Sys, h: seq<Action>, b: Book)
    requires Booked(s, b)
    ensures Booked(Replay(s, h), Kept(s, h, b))
    decreases |h|
  {
    hide Act, Booked, Note;
    if h != [] {
      ActBooked(s, h[0], b);
      ReplayBooked(Act(s, h[0]), h[1..], Note(s, h[0], b));
    }
  }

  /**
   * When a run is about to commit Available for a spec, the process knows whether this is OpenShift; every object that
   * spec calls for by that answer - accounts, roles and bindings, the SCC pair, config maps, workloads under their
   * switches, services and the runtime class - has been written and accepted since the run was requested; and so has a
   * topology map for every node of the pool as the run listed it. In every history, with whatever faults, stale reads
   * and restarts.
   */
  lemma AppliedBeforeReported(s: Sys, h: seq<Action>)
    requires s.todo == []
    requires var t := Replay(s, h); t.todo != [] && t.todo[0].SaveStatus? && Claims(t.todo[0].status)
    ensures var t, b := Replay(s, h), Kept(s, h, EMPTY_BOOK);
      && t.memo.Some? && (forall m | m in Due(t.todo[0].cfg, t.ns, t.memo) :: m in b.written)
      && b.pool.Some? && b.pool.value.cfg == t.todo[0].cfg
      && forall m | m in PoolDue(b.pool, t.ns) :: m in b.written
  {
    hide Act, Due, PoolDue;
    ReplayBooked(s, h, EMPTY_BOOK);
    var t, b := Replay(s, h), Kept(s, h, EMPTY_BOOK);
    assert |t.todo| == 1 && t.todo[0] in t.todo;
    assert BookedFor(t, b, t.todo[0].cfg, true);
  }
}
