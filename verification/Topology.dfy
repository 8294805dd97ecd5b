/** Reachability in a workflow: who depends on whom, one sweep against recursive search,
    and the layers nodes can run in. */
module Topology {
  import opened Workflow

  /** b depends on a, directly or through other nodes. */
  predicate DependsOn(doc: Document, b: NodeId, a: NodeId)
    requires Ordered(doc) && b < |doc.nodes|
    decreases b
  {
    exists d :: d in doc.nodes[b].dependsOn && (d == a || DependsOn(doc, d, a))
  }

  /** A chain of direct dependencies, each node depending on the one before it. */
  ghost predicate Chain(doc: Document, path: seq<NodeId>)
  {
    && |path| >= 2
    && (forall i :: 0 <= i < |path| ==> path[i] < |doc.nodes|)
    && (forall i :: 0 <= i < |path| - 1 ==> path[i] in doc.nodes[path[i + 1]].dependsOn)
  }

  lemma {:induction false} ChainOf(doc: Document, a: NodeId, b: NodeId) returns (path: seq<NodeId>)
    requires Ordered(doc) && b < |doc.nodes| && DependsOn(doc, b, a)
    ensures Chain(doc, path) && path[0] == a && path[|path| - 1] == b
    decreases b
  {
    var d :| d in doc.nodes[b].dependsOn && (d == a || DependsOn(doc, d, a));
    if d == a {
      path := [a, b];
    } else {
      path := ChainOf(doc, a, d);
      path := path + [b];
    }
  }

  lemma {:induction false} ChainDepends(doc: Document, path: seq<NodeId>)
    requires Ordered(doc) && Chain(doc, path)
    ensures DependsOn(doc, path[|path| - 1], path[0])
    decreases |path|
  {
    var n := |path|;
    if n > 2 {
      assert forall i :: 0 <= i < n - 1 ==> path[..n - 1][i] == path[i];
      ChainDepends(doc, path[..n - 1]);
      assert path[n - 2] in doc.nodes[path[n - 1]].dependsOn;
    } else {
      assert path[0] in doc.nodes[path[1]].dependsOn;
    }
  }

  /** Dependence is exactly the existence of a chain. */
  lemma DependenceIsChains(doc: Document, a: NodeId, b: NodeId)
    requires Ordered(doc) && b < |doc.nodes|
    ensures DependsOn(doc, b, a) <==> exists path :: Chain(doc, path) && path[0] == a && path[|path| - 1] == b
  {
    if DependsOn(doc, b, a) {
      var path := ChainOf(doc, a, b);
    }
    if path :| Chain(doc, path) && path[0] == a && path[|path| - 1] == b { ChainDepends(doc, path); }
  }

  lemma {:induction false} DependsOnEarlier(doc: Document, b: NodeId, a: NodeId)
    requires Ordered(doc) && b < |doc.nodes| && DependsOn(doc, b, a)
    ensures a < b
    decreases b
  {
    var d :| d in doc.nodes[b].dependsOn && (d == a || DependsOn(doc, d, a));
    if d != a { DependsOnEarlier(doc, d, a); }
  }

  lemma {:induction false} DependsOnTransitive(doc: Document, c: NodeId, b: NodeId, a: NodeId)
    requires Ordered(doc) && c < |doc.nodes| && b < |doc.nodes| && DependsOn(doc, c, b) && DependsOn(doc, b, a)
    ensures DependsOn(doc, c, a)
    decreases c
  {
    var d :| d in doc.nodes[c].dependsOn && (d == b || DependsOn(doc, d, b));
    if d != b { DependsOnTransitive(doc, d, b, a); }
    assert d in doc.nodes[c].dependsOn && DependsOn(doc, d, a);
  }

  // ----- the sweep that plans a downstream reset -----

  ghost function Downstream(doc: Document, target: NodeId): set<NodeId>
    requires Ordered(doc)
  {
    set b | 0 <= b < |doc.nodes| && DependsOn(doc, b, target)
  }

  /** One sweep of the topological order finds every transitive dependent and no more. */
  method SweepDownstream(doc: Document, target: NodeId) returns (descendants: set<NodeId>)
    requires Ordered(doc) && target < |doc.nodes|
    ensures descendants == Downstream(doc, target)
    ensures target !in descendants
  {
    descendants := {target};
    var id := 0;
    while id < |doc.nodes|
      invariant 0 <= id <= |doc.nodes|
      invariant descendants == {target} + set b | 0 <= b < id && DependsOn(doc, b, target)
    {
      var deps, k := doc.nodes[id].dependsOn, 0;
      ghost var before := descendants;
      while k < |deps|
        invariant 0 <= k <= |deps|
        invariant descendants == before + if exists d :: d in deps[..k] && d in before then {id} else {}
      {
        assert deps[..k + 1] == deps[..k] + [deps[k]] && deps[k] in deps;
        if deps[k] in descendants { descendants := descendants + {id}; }
        k := k + 1;
      }
      assert deps[..k] == deps;
      assert (exists d :: d in deps && d in before) <==> DependsOn(doc, id, target) by {
        if DependsOn(doc, id, target) {
          var d :| d in deps && (d == target || DependsOn(doc, d, target));
          assert d in before;
        }
      }
      id := id + 1;
    }
    if DependsOn(doc, target, target) { DependsOnEarlier(doc, target, target); }
    descendants := descendants - {target};
  }

  // ----- the recursive search for ancestors -----

  ghost function Upstream(doc: Document, node: NodeId): set<NodeId>
    requires Ordered(doc) && node < |doc.nodes|
  {
    set a | 0 <= a < node && DependsOn(doc, node, a)
  }

  ghost predicate ClosedBelow(doc: Document, seen: set<NodeId>, bound: NodeId)
    requires Ordered(doc) && bound < |doc.nodes|
  {
    forall x :: x in seen && x < bound ==> Upstream(doc, x) <= seen
  }

  ghost predicate Valid(doc: Document, nodes: seq<NodeId>) { forall k :: 0 <= k < |nodes| ==> nodes[k] < |doc.nodes| }

  ghost function UpstreamVia(doc: Document, deps: seq<NodeId>): set<NodeId>
    requires Ordered(doc) && Valid(doc, deps)
  {
    if deps == [] then {} else UpstreamVia(doc, deps[..|deps| - 1]) + {deps[|deps| - 1]} + Upstream(doc, deps[|deps| - 1])
  }

  lemma {:induction false} UpstreamViaMeans(doc: Document, deps: seq<NodeId>, x: NodeId)
    requires Ordered(doc) && Valid(doc, deps)
    ensures x in UpstreamVia(doc, deps) <==> exists d :: d in deps && (d == x || DependsOn(doc, d, x))
  {
    if deps != [] {
      var n := |deps| - 1;
      assert deps == deps[..n] + [deps[n]];
      UpstreamViaMeans(doc, deps[..n], x);
      if DependsOn(doc, deps[n], x) { DependsOnEarlier(doc, deps[n], x); }
      if x in UpstreamVia(doc, deps) {
        assert x in UpstreamVia(doc, deps[..n]) || x == deps[n] || DependsOn(doc, deps[n], x);
        assert forall d :: d in deps[..n] ==> d in deps;
        assert deps[n] in deps;
      }
    }
  }

  lemma UpstreamByDependencies(doc: Document, node: NodeId)
    requires Ordered(doc) && node < |doc.nodes| && Valid(doc, doc.nodes[node].dependsOn)
    ensures UpstreamVia(doc, doc.nodes[node].dependsOn) == Upstream(doc, node)
  {
    forall x ensures x in UpstreamVia(doc, doc.nodes[node].dependsOn) <==> x in Upstream(doc, node) {
      if x >= 0 {
        UpstreamViaMeans(doc, doc.nodes[node].dependsOn, x);
        if DependsOn(doc, node, x) { DependsOnEarlier(doc, node, x); }
      }
    }
  }

  /** Marks everything the node depends on. What was seen before is skipped, which is
      safe because whatever is seen and earlier has had its own dependencies marked. */
  method Visit(doc: Document, node: NodeId, seen: set<NodeId>) returns (all: set<NodeId>)
    requires Ordered(doc) && node < |doc.nodes| && ClosedBelow(doc, seen, node)
    ensures all == seen + Upstream(doc, node)
    decreases node
  {
    all := seen;
    var deps, k := doc.nodes[node].dependsOn, 0;
    assert forall j :: 0 <= j < |deps| ==> deps[j] in deps;
    while k < |deps|
      invariant 0 <= k <= |deps| && forall j :: 0 <= j < |deps| ==> deps[j] < node
      invariant all == seen + UpstreamVia(doc, deps[..k])
      invariant ClosedBelow(doc, all, node)
    {
      var d := deps[k];
      assert deps[..k + 1][..k] == deps[..k] && deps[..k + 1][k] == d;
      ghost var before := all;
      if d !in all {
        all := all + {d};
        all := Visit(doc, d, all);
      }
      assert all == before + {d} + Upstream(doc, d);
      ClosedAfter(doc, before, d, node);
      k := k + 1;
    }
    assert deps[..k] == deps;
    UpstreamByDependencies(doc, node);
  }

  lemma ClosedAfter(doc: Document, seen: set<NodeId>, d: NodeId, bound: NodeId)
    requires Ordered(doc) && d < bound < |doc.nodes| && ClosedBelow(doc, seen, bound)
    ensures ClosedBelow(doc, seen + {d} + Upstream(doc, d), bound)
  {
    forall x, a | x in Upstream(doc, d) && a in Upstream(doc, x) ensures a in Upstream(doc, d) {
      DependsOnTransitive(doc, d, x, a);
      DependsOnEarlier(doc, d, a);
    }
  }

  method AncestorSet(doc: Document, node: NodeId) returns (ancestors: set<NodeId>)
    requires Ordered(doc) && node < |doc.nodes|
    ensures ancestors == Upstream(doc, node)
  {
    ancestors := Visit(doc, node, {});
  }

  /** The sweep and the search are converses of each other. */
  lemma SweepIsConverse(doc: Document, a: NodeId, b: NodeId)
    requires Ordered(doc) && a < |doc.nodes| && b < |doc.nodes|
    ensures b in Downstream(doc, a) <==> a in Upstream(doc, b)
  {
    if DependsOn(doc, b, a) { DependsOnEarlier(doc, b, a); }
  }

  // ----- layers -----

  /** The largest number of dependencies on a chain that ends at the node. */
  ghost function Depth(doc: Document, node: NodeId): nat
    requires Ordered(doc) && node < |doc.nodes|
    decreases node, |doc.nodes[node].dependsOn| + 1
  {
    DeepestOf(doc, node, |doc.nodes[node].dependsOn|)
  }

  ghost function DeepestOf(doc: Document, node: NodeId, k: nat): nat
    requires Ordered(doc) && node < |doc.nodes| && k <= |doc.nodes[node].dependsOn|
    decreases node, k
  {
    if k == 0 then 0
    else
      var d := doc.nodes[node].dependsOn[k - 1];
      assert d in doc.nodes[node].dependsOn;
      var rest, here := DeepestOf(doc, node, k - 1), Depth(doc, d) + 1;
      if here > rest then here else rest
  }

  lemma {:induction false} DeepestIsMax(doc: Document, node: NodeId, k: nat)
    requires Ordered(doc) && node < |doc.nodes| && k <= |doc.nodes[node].dependsOn|
    ensures forall j :: 0 <= j < k ==>
              doc.nodes[node].dependsOn[j] in doc.nodes[node].dependsOn && Depth(doc, doc.nodes[node].dependsOn[j]) < DeepestOf(doc, node, k)
    ensures DeepestOf(doc, node, k) > 0 ==>
              exists j :: 0 <= j < k && doc.nodes[node].dependsOn[j] in doc.nodes[node].dependsOn
                            && Depth(doc, doc.nodes[node].dependsOn[j]) == DeepestOf(doc, node, k) - 1
  {
    if k > 0 {
      DeepestIsMax(doc, node, k - 1);
      assert doc.nodes[node].dependsOn[k - 1] in doc.nodes[node].dependsOn;
    }
  }

  lemma {:induction false} ChainDepth(doc: Document, path: seq<NodeId>)
    requires Ordered(doc) && Chain(doc, path)
    ensures |path| - 1 <= Depth(doc, path[|path| - 1]) - Depth(doc, path[0])
    decreases |path|
  {
    var n := |path|;
    var deps := doc.nodes[path[n - 1]].dependsOn;
    DeepestIsMax(doc, path[n - 1], |deps|);
    assert path[n - 2] in deps;
    var j :| 0 <= j < |deps| && deps[j] == path[n - 2];
    if n > 2 {
      assert forall i :: 0 <= i < n - 1 ==> path[..n - 1][i] == path[i];
      ChainDepth(doc, path[..n - 1]);
    }
  }

  lemma {:induction false} DeepestChain(doc: Document, node: NodeId) returns (path: seq<NodeId>)
    requires Ordered(doc) && node < |doc.nodes| && Depth(doc, node) > 0
    ensures Chain(doc, path) && path[|path| - 1] == node && |path| == Depth(doc, node) + 1
    decreases node
  {
    var deps := doc.nodes[node].dependsOn;
    DeepestIsMax(doc, node, |deps|);
    var j :| 0 <= j < |deps| && deps[j] in deps && Depth(doc, deps[j]) == Depth(doc, node) - 1;
    if Depth(doc, deps[j]) == 0 {
      path := [deps[j], node];
    } else {
      path := DeepestChain(doc, deps[j]);
      path := path + [node];
    }
  }

  /** Depth is the longest chain: no chain to the node is longer, and one is that long. */
  lemma DepthIsLongestChain(doc: Document, node: NodeId, n: nat)
    requires Ordered(doc) && node < |doc.nodes| && n > 0
    ensures n <= Depth(doc, node) <==> exists path :: Chain(doc, path) && path[|path| - 1] == node && |path| == n + 1
  {
    if n <= Depth(doc, node) {
      var path := DeepestChain(doc, node);
      var short := path[|path| - 1 - n..];
      assert forall i :: 0 <= i < |short| ==> short[i] == path[|path| - 1 - n + i];
      assert Chain(doc, short) && short[|short| - 1] == node && |short| == n + 1;
    }
    if path :| Chain(doc, path) && path[|path| - 1] == node && |path| == n + 1 { ChainDepth(doc, path); }
  }

  ghost function LayerOf(doc: Document, level: nat, n: nat): seq<NodeId>
    requires Ordered(doc) && n <= |doc.nodes|
  {
    if n == 0 then [] else LayerOf(doc, level, n - 1) + if Depth(doc, n - 1) == level then [n - 1] else []
  }

  ghost predicate LayersUpTo(doc: Document, layers: seq<seq<NodeId>>, n: nat)
    requires Ordered(doc) && n <= |doc.nodes|
  {
    && (forall level :: 0 <= level < |layers| ==> layers[level] == LayerOf(doc, level, n) && layers[level] != [])
    && (forall i :: 0 <= i < n ==> Depth(doc, i) < |layers|)
  }

  /** Lays the nodes out in layers: a node's layer is its depth, and no layer is empty. */
  method TopologyProjection(doc: Document) returns (levels: seq<nat>, layers: seq<seq<NodeId>>)
    requires Ordered(doc)
    ensures |levels| == |doc.nodes| && forall i :: 0 <= i < |levels| ==> levels[i] == Depth(doc, i)
    ensures LayersUpTo(doc, layers, |doc.nodes|)
  {
    levels, layers := [], [];
    while |levels| < |doc.nodes|
      invariant |levels| <= |doc.nodes| && forall i :: 0 <= i < |levels| ==> levels[i] == Depth(doc, i)
      invariant LayersUpTo(doc, layers, |levels|)
    {
      var node, level, k := |levels|, 0, 0;
      var deps := doc.nodes[node].dependsOn;
      while k < |deps|
        invariant 0 <= k <= |deps| && level == DeepestOf(doc, node, k)
      {
        assert deps[k] in deps;
        if levels[deps[k]] + 1 > level { level := levels[deps[k]] + 1; }
        k := k + 1;
      }
      NoGap(doc, node, layers);
      ghost var before := layers;
      if |layers| <= level { layers := layers + [[]]; }
      layers := layers[level := layers[level] + [node]];
      OneMoreNode(doc, node, before, level, layers);
      levels := levels + [level];
    }
  }

  /** A new node opens at most one new layer, just above the highest one. */
  lemma NoGap(doc: Document, node: NodeId, layers: seq<seq<NodeId>>)
    requires Ordered(doc) && node < |doc.nodes| && LayersUpTo(doc, layers, node)
    ensures Depth(doc, node) <= |layers|
    ensures Depth(doc, node) == |layers| ==> LayerOf(doc, Depth(doc, node), node) == []
  {
    DeepestIsMax(doc, node, |doc.nodes[node].dependsOn|);
    if Depth(doc, node) == |layers| { EmptyLayer(doc, |layers|, node); }
  }

  /** Adding a node to its layer, which may be new. */
  lemma OneMoreNode(doc: Document, node: NodeId, layers: seq<seq<NodeId>>, level: nat, after: seq<seq<NodeId>>)
    requires Ordered(doc) && node < |doc.nodes| && LayersUpTo(doc, layers, node) && level == Depth(doc, node)
    requires |after| == if level < |layers| then |layers| else |layers| + 1
    requires level < |after| && after[level] == LayerOf(doc, level, node) + [node]
    requires forall l :: 0 <= l < |layers| && l != level ==> after[l] == layers[l]
    requires level <= |layers|
    ensures LayersUpTo(doc, after, node + 1)
  {
    hide Depth, DeepestOf;
    forall l | 0 <= l < |after| ensures after[l] == LayerOf(doc, l, node + 1) && after[l] != [] {
      NextInLayer(doc, l, node);
    }
  }

  lemma NextInLayer(doc: Document, level: nat, node: NodeId)
    requires Ordered(doc) && node < |doc.nodes|
    ensures LayerOf(doc, level, node + 1) == LayerOf(doc, level, node) + if Depth(doc, node) == level then [node] else []
  {
    hide Depth, DeepestOf;
  }

  lemma {:induction false} EmptyLayer(doc: Document, level: nat, n: nat)
    requires Ordered(doc) && n <= |doc.nodes| && forall i :: 0 <= i < n ==> Depth(doc, i) != level
    ensures LayerOf(doc, level, n) == []
  {
    if n > 0 { EmptyLayer(doc, level, n - 1); }
  }

  lemma {:induction false} LayerMembers(doc: Document, level: nat, n: nat)
    requires Ordered(doc) && n <= |doc.nodes|
    ensures forall i :: i in LayerOf(doc, level, n) <==> 0 <= i < n && Depth(doc, i) == level
  {
    if n > 0 { LayerMembers(doc, level, n - 1); }
  }

  /** Two nodes of one layer can run together: neither depends on the other. */
  lemma LayersAreIndependent(doc: Document, a: NodeId, b: NodeId)
    requires Ordered(doc) && a < |doc.nodes| && b < |doc.nodes| && DependsOn(doc, b, a)
    ensures Depth(doc, a) < Depth(doc, b)
  {
    var path := ChainOf(doc, a, b);
    ChainDepth(doc, path);
  }
}
