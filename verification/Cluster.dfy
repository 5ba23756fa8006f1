/** The API server: what is stored, what each call does, and what other clients do. */
module Cluster {
  import opened Basics
  import opened Api

  datatype Version = Version(name: string, cr: FakeGPUConfig)

  /**
   * Contents and resourceVersions are kept apart, so that "the same up to resourceVersions" is equality of the
   * content maps. `past` remembers every version of a custom resource ever stored.
   */
  datatype Store = Store(
    objs: map<Key, Object>, objRv: map<Key, nat>,
    nodes: map<string, Labels>, nodeRv: map<string, nat>,
    crs: map<string, FakeGPUConfig>, crRv: map<string, nat>,
    past: map<nat, Version>, rev: nat, openShift: bool)

  function Rv<K>(m: map<K, nat>, k: K): nat {
    if k in m then m[k] else 0
  }

  datatype Reply = Ok | NotFound | Rejected

  // ---------------------------------------------------------------- objects

  function StoreObject(c: Store, k: Key, o: Object): Store {
    c.(objs := c.objs[k := o], objRv := c.objRv[k := c.rev + 1], rev := c.rev + 1)
  }

  function CreateObject(c: Store, k: Key, o: Object): (Store, Reply) {
    if k in c.objs then (c, Rejected) else (StoreObject(c, k, o), Ok)
  }

  /** Refused on a stale resourceVersion or a changed frozen part; silent when nothing changes. */
  function UpdateObject(c: Store, k: Key, o: Object, rv: nat): (Store, Reply) {
    if k !in c.objs then (c, NotFound)
    else if Rv(c.objRv, k) != rv || FrozenPart(k, c.objs[k]) != FrozenPart(k, o) then (c, Rejected)
    else if c.objs[k] == o then (c, Ok)
    else (StoreObject(c, k, o), Ok)
  }

  function DropObject(c: Store, k: Key): Store {
    c.(objs := c.objs - {k}, rev := c.rev + 1)
  }

  function DeleteObject(c: Store, k: Key): (Store, Reply) {
    if k in c.objs then (DropObject(c, k), Ok) else (c, NotFound)
  }

  /** The names a List of one kind in one namespace with matching labels returns. */
  function ObjectNames(c: Store, kind: Kind, ns: string, selector: Labels): set<string> {
    set k | k in c.objs && k.kind == kind && k.ns == ns && Matches(selector, c.objs[k].labels) :: k.name
  }

  // ---------------------------------------------------------------- nodes

  /** A node as a List returned it. */
  datatype Seen = Seen(name: string, rv: nat, labels: Labels)

  function StoreNode(c: Store, n: string, l: Labels): Store {
    c.(nodes := c.nodes[n := l], nodeRv := c.nodeRv[n := c.rev + 1], rev := c.rev + 1)
  }

  function UpdateNode(c: Store, n: string, rv: nat, l: Labels): (Store, Reply) {
    if n !in c.nodes then (c, NotFound)
    else if Rv(c.nodeRv, n) != rv then (c, Rejected)
    else if c.nodes[n] == l then (c, Ok)
    else (StoreNode(c, n, l), Ok)
  }

  function NodeNames(c: Store, selector: Labels): set<string> {
    set n | n in c.nodes && Matches(selector, c.nodes[n])
  }

  function Observe(c: Store, names: seq<string>): seq<Seen>
    requires forall n | n in names :: n in c.nodes
  {
    seq(|names|, i requires 0 <= i < |names| => Seen(names[i], Rv(c.nodeRv, names[i]), c.nodes[names[i]]))
  }

  function ListNodes(c: Store, selector: Labels, order: seq<string>): seq<Seen> {
    Observe(c, Arrange(order, NodeNames(c, selector)))
  }

  // ---------------------------------------------------------------- custom resources

  function StoreCR(c: Store, name: string, cr: FakeGPUConfig): Store {
    c.(crs := c.crs[name := cr], crRv := c.crRv[name := c.rev + 1],
       past := c.past[c.rev + 1 := Version(name, cr)], rev := c.rev + 1)
  }

  function DropCR(c: Store, name: string): Store {
    c.(crs := c.crs - {name}, rev := c.rev + 1)
  }

  /** Store `cr`, or remove it once it is being deleted and nothing holds it. */
  function SettleCR(c: Store, name: string, cr: FakeGPUConfig): Store {
    if cr.deleting && cr.finalizers == {} then DropCR(c, name)
    else if name in c.crs && c.crs[name] == cr then c
    else StoreCR(c, name, cr)
  }

  /** Update of everything but the status. */
  function UpdateCR(c: Store, cfg: Config): (Store, Reply) {
    if cfg.name !in c.crs then (c, NotFound)
    else if Rv(c.crRv, cfg.name) != cfg.rv then (c, Rejected)
    else (SettleCR(c, cfg.name, c.crs[cfg.name].(spec := cfg.cr.spec, finalizers := cfg.cr.finalizers)), Ok)
  }

  /** Update of the status alone. */
  function UpdateStatus(c: Store, cfg: Config, status: Status): (Store, Reply) {
    if cfg.name !in c.crs then (c, NotFound)
    else if Rv(c.crRv, cfg.name) != cfg.rv then (c, Rejected)
    else (SettleCR(c, cfg.name, c.crs[cfg.name].(status := status)), Ok)
  }

  function Stored(c: Store, name: string): Config
    requires name in c.crs
  {
    Config(name, Rv(c.crRv, name), c.crs[name])
  }

  // ---------------------------------------------------------------- faults

  /** A call works; or is refused; or takes effect while its response is lost. */
  datatype Fault = NoFault | Refused | Lost

  /**
   * How one call is answered: its fault, for a Get the earlier version a lagging cache returns, and for a List the
   * order of its items.
   */
  datatype Answer = Answer(fault: Fault, stale: Option<nat>, order: seq<string>)

  function Effect(a: Answer, c: Store, done: (Store, Reply)): (Store, Reply) {
    match a.fault
    case NoFault => done
    case Refused => (c, Rejected)
    case Lost => (done.0, Rejected)
  }

  /** Get of a custom resource, possibly from a lagging cache. */
  function GetCR(c: Store, name: string, a: Answer): (Option<Config>, Reply) {
    if a.fault != NoFault then (None, Rejected)
    else if a.stale.Some? && a.stale.value in c.past && c.past[a.stale.value].name == name then
      (Some(Config(name, a.stale.value, c.past[a.stale.value].cr)), Ok)
    else if name in c.crs then (Some(Stored(c, name)), Ok)
    else (None, NotFound)
  }

  // ---------------------------------------------------------------- other clients

  datatype Move =
    | CreateCR(name: string, spec: Spec, finalizers: set<string>)
    | EditCR(name: string, spec: Spec, finalizers: set<string>)
    | DeleteCR(name: string)
    | PutNode(node: string, labels: Labels)
    | RemoveNode(node: string)
    | PutObject(key: Key, obj: Object)
    | RemoveObject(key: Key)

  /** Other clients leave the operator's own finalizer alone. */
  function KeepFinalizer(current: set<string>, wanted: set<string>): set<string> {
    (wanted - {FINALIZER}) + (current * {FINALIZER})
  }

  function ApplyMove(c: Store, m: Move): Store {
    match m
    case CreateCR(name, spec, finalizers) =>
      if name in c.crs || name == "" then c
      else StoreCR(c, name, FakeGPUConfig(spec, EMPTY_STATUS, finalizers, false))
    case EditCR(name, spec, finalizers) =>
      if name !in c.crs then c
      else SettleCR(c, name,
        c.crs[name].(spec := spec, finalizers := KeepFinalizer(c.crs[name].finalizers, finalizers)))
    case DeleteCR(name) =>
      if name !in c.crs then c else SettleCR(c, name, c.crs[name].(deleting := true))
    case PutNode(n, l) => StoreNode(c, n, l)
    case RemoveNode(n) => c.(nodes := c.nodes - {n}, rev := c.rev + 1)
    case PutObject(k, o) => StoreObject(c, k, o)
    case RemoveObject(k) => DropObject(c, k)
  }

  function ApplyMoves(c: Store, moves: seq<Move>): Store
    decreases |moves|
  {
    if moves == [] then c else ApplyMoves(ApplyMove(c, moves[0]), moves[1..])
  }
}
