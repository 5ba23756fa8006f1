/** From node events back to custom resources: what the watch enqueues against what a run lists. */
module Watch {
  import opened Basics
  import opened Api
  import opened Resources
  import opened Quiescence

  /** A label selector read the way Go reads maps: a missing label counts as the empty string. */
  predicate ReadsAs(selector: Labels, l: Labels) {
    forall k | k in selector :: Read(l, k) == selector[k]
  }

  /** What the watch takes for a match. */
  predicate NodeMatches(l: Labels, x: string, spec: Spec) {
    ReadsAs(NodeListOption(x, spec), l)
  }

  /** The comparison loop, for any order of the selector's keys. */
  method NodeMatchesCfg(l: Labels, x: string, spec: Spec) returns (matches: bool)
    ensures matches <==> NodeMatches(l, x, spec)
  {
    if spec.nodeSelector != map[] {
      var keys := spec.nodeSelector.Keys;
      while keys != {}
        invariant keys <= spec.nodeSelector.Keys
        invariant forall k | k in spec.nodeSelector && k !in keys :: Read(l, k) == spec.nodeSelector[k]
        decreases |keys|
      {
        var k :| k in keys;
        if Read(l, k) != spec.nodeSelector[k] {
          return false;
        }
        keys := keys - {k};
      }
      return true;
    }
    assert NodeListOption(x, spec) == map[NodePool := x];
    assert NodePool in map[NodePool := x];
    return Read(l, NodePool) == x;
  }

  /** The custom resources a node's event enqueues, in the order they were listed. */
  function Enqueued(cfgs: seq<Config>, l: Labels): seq<string>
    decreases |cfgs|
  {
    if cfgs == [] then []
    else (if NodeMatches(l, cfgs[0].name, cfgs[0].cr.spec) then [cfgs[0].name] else []) + Enqueued(cfgs[1..], l)
  }

  lemma {:induction false} EnqueuedAppend(cfgs: seq<Config>, cfg: Config, l: Labels)
    ensures Enqueued(cfgs + [cfg], l) == Enqueued(cfgs, l)
      + (if NodeMatches(l, cfg.name, cfg.cr.spec) then [cfg.name] else [])
    decreases |cfgs|
  {
    hide NodeMatches;
    if cfgs == [] {
      assert [cfg][1..] == [] && cfgs + [cfg] == [cfg];
    } else {
      assert (cfgs + [cfg])[0] == cfgs[0] && (cfgs + [cfg])[1..] == cfgs[1..] + [cfg];
      EnqueuedAppend(cfgs[1..], cfg, l);
    }
  }

  /** The loop that collects the requests. */
  method RequestsFor(cfgs: seq<Config>, l: Labels) returns (requests: seq<string>)
    ensures requests == Enqueued(cfgs, l)
  {
    requests := [];
    for i := 0 to |cfgs|
      invariant requests == Enqueued(cfgs[..i], l)
    {
      var matches := NodeMatchesCfg(l, cfgs[i].name, cfgs[i].cr.spec);
      EnqueuedAppend(cfgs[..i], cfgs[i], l);
      assert cfgs[..i + 1] == cfgs[..i] + [cfgs[i]];
      if matches {
        requests := requests + [cfgs[i].name];
      }
    }
    assert cfgs[..|cfgs|] == cfgs;
  }

  lemma {:induction false} EnqueuedIff(cfgs: seq<Config>, l: Labels, x: string)
    ensures x in Enqueued(cfgs, l) <==> exists cfg | cfg in cfgs :: cfg.name == x && NodeMatches(l, x, cfg.cr.spec)
    decreases |cfgs|
  {
    hide NodeMatches;
    if cfgs != [] {
      EnqueuedIff(cfgs[1..], l, x);
      assert forall cfg :: cfg in cfgs <==> cfg == cfgs[0] || cfg in cfgs[1..];
    }
  }

  /** The watch misses nothing: a node a run for a custom resource would list enqueues that custom resource. */
  lemma WatchComplete(cfgs: seq<Config>, l: Labels, cfg: Config)
    requires cfg in cfgs && Selects(cfg.name, cfg.cr.spec, l)
    ensures cfg.name in Enqueued(cfgs, l)
  {
  }

  /** On one node the watch and the list agree unless the node reads as a match only by lacking a key wanted empty. */
  lemma WatchExactOn(l: Labels, x: string, spec: Spec)
    ensures var sel := NodeListOption(x, spec);
      (NodeMatches(l, x, spec) <==> Selects(x, spec, l))
      <==> !(NodeMatches(l, x, spec) && exists k | k in sel :: k !in l && sel[k] == "")
  {
  }

  /** On all nodes they agree if and only if the selector wants no label to be empty. */
  lemma WatchExactIff(x: string, spec: Spec)
    ensures (forall l: Labels :: NodeMatches(l, x, spec) <==> Selects(x, spec, l))
      <==> forall k | k in NodeListOption(x, spec) :: NodeListOption(x, spec)[k] != ""
  {
    var sel := NodeListOption(x, spec);
    if k :| k in sel && sel[k] == "" {
      var l := sel - {k};
      assert NodeMatches(l, x, spec) && !Selects(x, spec, l);
    }
  }
}
