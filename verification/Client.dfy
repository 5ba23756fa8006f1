/** The API server as the controller's client meets it: each call first lets other clients act, then is answered. */
module Client {
  import opened Basics
  import opened Api
  import opened Cluster

  /** What happens around one call: what others do before it, and how it is answered. */
  datatype Turn = Turn(moves: seq<Move>, answer: Answer)

  class ApiServer {
    const script: nat -> Turn
    var calls: nat
    var cluster: Store

    constructor (cluster: Store, script: nat -> Turn)
      ensures this.cluster == cluster && this.script == script && calls == 0
    {
      this.cluster := cluster;
      this.script := script;
      calls := 0;
    }

    /** The cluster the next call finds. */
    function Now(): Store
      reads this
    {
      ApplyMoves(cluster, script(calls).moves)
    }

    function Next(): Answer
      reads this
    {
      script(calls).answer
    }

    // -------------------------------------------------------------- custom resources

    method GetConfig(name: string) returns (found: Option<Config>, reply: Reply)
      modifies this
      ensures calls == old(calls) + 1 && cluster == old(Now())
      ensures (found, reply) == GetCR(old(Now()), name, old(Next()))
    {
      var answer := Next();
      cluster, calls := Now(), calls + 1;
      var got := GetCR(cluster, name, answer);
      found, reply := got.0, got.1;
    }

    /** On success the caller's copy is the stored one. */
    method UpdateConfig(cfg: Config) returns (updated: Config, reply: Reply)
      modifies this
      ensures calls == old(calls) + 1
      ensures (cluster, reply) == Effect(old(Next()), old(Now()), UpdateCR(old(Now()), cfg))
      ensures updated == if reply == Ok && cfg.name in cluster.crs then Stored(cluster, cfg.name) else cfg
    {
      var done := Effect(Next(), Now(), UpdateCR(Now(), cfg));
      cluster, reply, calls := done.0, done.1, calls + 1;
      updated := cfg;
      if reply == Ok && cfg.name in cluster.crs {
        updated := Stored(cluster, cfg.name);
      }
    }

    method UpdateConfigStatus(cfg: Config) returns (reply: Reply)
      modifies this
      ensures calls == old(calls) + 1
      ensures (cluster, reply) == Effect(old(Next()), old(Now()), UpdateStatus(old(Now()), cfg, cfg.cr.status))
    {
      var done := Effect(Next(), Now(), UpdateStatus(Now(), cfg, cfg.cr.status));
      cluster, reply, calls := done.0, done.1, calls + 1;
    }

    /** All custom resources, in some order. */
    method ListConfigs() returns (cfgs: seq<Config>, reply: Reply)
      modifies this
      ensures calls == old(calls) + 1 && cluster == old(Now())
      ensures reply == Ok <==> old(Next()).fault == NoFault
      ensures reply == Ok ==> forall cfg :: cfg in cfgs <==> cfg.name in cluster.crs && cfg == Stored(cluster, cfg.name)
    {
      var answer := Next();
      cluster, calls := Now(), calls + 1;
      cfgs := [];
      if answer.fault != NoFault { return [], Rejected; }
      var names := Sorted(cluster.crs.Keys);
      for i := 0 to |names|
        invariant calls == old(calls) + 1 && cluster == old(Now())
        invariant forall cfg ::
          cfg in cfgs <==> cfg.name in names[..i] && cfg.name in cluster.crs && cfg == Stored(cluster, cfg.name)
      {
        assert names[i] in cluster.crs.Keys;
        cfgs := cfgs + [Stored(cluster, names[i])];
        assert names[..i + 1] == names[..i] + [names[i]];
      }
      assert names[..|names|] == names;
      reply := Ok;
    }

    // -------------------------------------------------------------- objects

    /** The resourceVersion of a stored object. */
    method Get(k: Key) returns (rv: nat, reply: Reply)
      modifies this
      ensures calls == old(calls) + 1 && cluster == old(Now())
      ensures reply == if old(Next()).fault != NoFault then Rejected else if k in cluster.objs then Ok else NotFound
      ensures reply == Ok ==> rv == Rv(cluster.objRv, k)
    {
      var answer := Next();
      cluster, calls := Now(), calls + 1;
      rv := Rv(cluster.objRv, k);
      reply := if answer.fault != NoFault then Rejected else if k in cluster.objs then Ok else NotFound;
    }

    method Create(m: Manifest) returns (reply: Reply)
      modifies this
      ensures calls == old(calls) + 1
      ensures (cluster, reply) == Effect(old(Next()), old(Now()), CreateObject(old(Now()), m.key, m.obj))
    {
      var done := Effect(Next(), Now(), CreateObject(Now(), m.key, m.obj));
      cluster, reply, calls := done.0, done.1, calls + 1;
    }

    method Update(m: Manifest, rv: nat) returns (reply: Reply)
      modifies this
      ensures calls == old(calls) + 1
      ensures (cluster, reply) == Effect(old(Next()), old(Now()), UpdateObject(old(Now()), m.key, m.obj, rv))
    {
      var done := Effect(Next(), Now(), UpdateObject(Now(), m.key, m.obj, rv));
      cluster, reply, calls := done.0, done.1, calls + 1;
    }

    method Delete(k: Key) returns (reply: Reply)
      modifies this
      ensures calls == old(calls) + 1
      ensures (cluster, reply) == Effect(old(Next()), old(Now()), DeleteObject(old(Now()), k))
    {
      var done := Effect(Next(), Now(), DeleteObject(Now(), k));
      cluster, reply, calls := done.0, done.1, calls + 1;
    }

    /** The objects of one kind in one namespace with matching labels. */
    method List(kind: Kind, ns: string, selector: Labels) returns (names: seq<string>, reply: Reply)
      modifies this
      ensures calls == old(calls) + 1 && cluster == old(Now())
      ensures reply == if old(Next()).fault == NoFault then Ok else Rejected
      ensures reply == Ok ==> names == Arrange(old(Next()).order, ObjectNames(cluster, kind, ns, selector))
    {
      var answer := Next();
      cluster, calls := Now(), calls + 1;
      names := Arrange(answer.order, ObjectNames(cluster, kind, ns, selector));
      reply := if answer.fault == NoFault then Ok else Rejected;
    }

    /** The objects of one kind with matching labels in all namespaces, in some order. */
    method ListEverywhere(kind: Kind, selector: Labels) returns (items: seq<Key>, reply: Reply)
      modifies this
      ensures calls == old(calls) + 1 && cluster == old(Now())
      ensures reply == if old(Next()).fault == NoFault then Ok else Rejected
      ensures reply == Ok ==>
        forall k :: k in items <==> k in cluster.objs && k.kind == kind && Matches(selector, cluster.objs[k].labels)
    {
      var answer := Next();
      cluster, calls := Now(), calls + 1;
      items := [];
      reply := if answer.fault == NoFault then Ok else Rejected;
      var found := set k | k in cluster.objs && k.kind == kind && Matches(selector, cluster.objs[k].labels);
      var left := found;
      while left != {}
        invariant calls == old(calls) + 1 && cluster == old(Now())
        invariant left <= found && forall k :: k in items <==> k in found && k !in left
        decreases |left|
      {
        var k :| k in left;
        items := items + [k];
        left := left - {k};
      }
    }

    // -------------------------------------------------------------- nodes

    method ListMatchingNodes(selector: Labels) returns (seen: seq<Seen>, reply: Reply)
      modifies this
      ensures calls == old(calls) + 1 && cluster == old(Now())
      ensures reply == if old(Next()).fault == NoFault then Ok else Rejected
      ensures reply == Ok ==> seen == ListNodes(cluster, selector, old(Next()).order)
    {
      var answer := Next();
      cluster, calls := Now(), calls + 1;
      seen := ListNodes(cluster, selector, answer.order);
      reply := if answer.fault == NoFault then Ok else Rejected;
    }

    method UpdateNodeLabels(node: Seen, labels: Labels) returns (reply: Reply)
      modifies this
      ensures calls == old(calls) + 1
      ensures (cluster, reply) == Effect(old(Next()), old(Now()), UpdateNode(old(Now()), node.name, node.rv, labels))
    {
      var done := Effect(Next(), Now(), UpdateNode(Now(), node.name, node.rv, labels));
      cluster, reply, calls := done.0, done.1, calls + 1;
    }

    // -------------------------------------------------------------- discovery

    /** Does the REST mapper know security context constraints? */
    method ResourcesForScc() returns (reply: Reply)
      modifies this
      ensures calls == old(calls) + 1 && cluster == old(Now())
      ensures reply == Ok <==> old(Next()).fault == NoFault && cluster.openShift
    {
      var answer := Next();
      cluster, calls := Now(), calls + 1;
      reply := if answer.fault == NoFault && cluster.openShift then Ok else NotFound;
    }
  }
}
