/** The check that a sink really goes back to the source under analysis: a backward walk over the
    constraint graph whose results are kept for each sink. */
module SrcSnk {
  import opened Options

  type Node = nat
  type Cons = nat

  /** inEdges: the nodes that flow directly into a constraint node. def: the value-flow node that defines
      a constraint node, if there is one. consOf: the constraint node of a sink. */
  datatype Constraints = Constraints(nodes: set<Cons>, inEdges: Cons -> seq<Cons>, def: Cons -> Option<Node>,
                                     consOf: Node -> Cons, nullStore: Node -> bool)
  {
    ghost predicate Valid() {
      forall c, d :: d in inEdges(c) ==> d in nodes
    }
  }

  // ---- the sources of a sink

  ghost predicate FlowsInto(g: Constraints, c: Cons, d: Cons) {
    d in g.inEdges(c)
  }

  ghost predicate IsTrail(g: Constraints, w: seq<Cons>) {
    w != [] && forall i :: 0 < i < |w| ==> FlowsInto(g, w[i - 1], w[i])
  }

  /** Going backward from constraint node c leads to d. */
  ghost predicate Behind(g: Constraints, c: Cons, d: Cons) {
    exists w :: IsTrail(g, w) && w[0] == c && w[|w| - 1] == d
  }

  ghost predicate Defines(g: Constraints, c: Cons, src: Node) {
    g.inEdges(c) == [] && g.def(c) == Some(src)
  }

  /** src defines a constraint node that nothing flows into and that lies behind the sink. */
  ghost predicate IsSource(g: Constraints, snk: Node, src: Node) {
    exists c :: Behind(g, g.consOf(snk), c) && Defines(g, c, src)
  }

  ghost predicate AllSources(g: Constraints, snk: Node, srcs: set<Node>) {
    forall src :: src in srcs <==> IsSource(g, snk, src)
  }

  ghost predicate Verified(g: Constraints, snk: Node, src: Node) {
    g.nullStore(snk) || IsSource(g, snk, src)
  }

  lemma BehindSelf(g: Constraints, c: Cons)
    ensures Behind(g, c, c)
  {
    assert IsTrail(g, [c]) && [c][0] == c;
  }

  lemma BehindStep(g: Constraints, c: Cons, d: Cons, e: Cons)
    requires Behind(g, c, d) && FlowsInto(g, d, e)
    ensures Behind(g, c, e)
  {
    var w :| IsTrail(g, w) && w[0] == c && w[|w| - 1] == d;
    var x := w + [e];
    forall i | 0 < i < |x| ensures FlowsInto(g, x[i - 1], x[i]) {
      if i < |w| { assert x[i - 1] == w[i - 1] && x[i] == w[i]; }
    }
    assert IsTrail(g, x) && x[0] == c && x[|x| - 1] == e;
  }

  // ---- the walk

  /** Node c has been left: its source is collected and all before it visited. */
  ghost predicate Left(g: Constraints, visited: set<Cons>, srcs: set<Node>, c: Cons) {
    && (forall src :: Defines(g, c, src) ==> src in srcs)
    && (forall d :: FlowsInto(g, c, d) ==> d in visited)
  }

  ghost predicate Walking(g: Constraints, snk: Node, list: seq<Cons>, visited: set<Cons>, srcs: set<Node>) {
    && visited <= g.nodes
    && (forall c :: c in list || c in visited ==> Behind(g, g.consOf(snk), c))
    && (forall c :: c in visited + {g.consOf(snk)} ==> c in list || Left(g, visited, srcs, c))
    && (forall src :: src in srcs ==> IsSource(g, snk, src))
  }

  lemma WalkDone(g: Constraints, snk: Node, visited: set<Cons>, srcs: set<Node>)
    requires Walking(g, snk, [], visited, srcs)
    ensures AllSources(g, snk, srcs)
  {
    forall src | IsSource(g, snk, src) ensures src in srcs {
      var c :| Behind(g, g.consOf(snk), c) && Defines(g, c, src);
      var w :| IsTrail(g, w) && w[0] == g.consOf(snk) && w[|w| - 1] == c;
      TrailVisited(g, snk, visited, srcs, w);
    }
  }

  lemma {:induction false} TrailVisited(g: Constraints, snk: Node, visited: set<Cons>, srcs: set<Node>, w: seq<Cons>)
    requires Walking(g, snk, [], visited, srcs) && IsTrail(g, w) && w[0] == g.consOf(snk)
    ensures w[|w| - 1] in visited + {g.consOf(snk)}
  {
    if |w| > 1 {
      TrailVisited(g, snk, visited, srcs, w[..|w| - 1]);
      assert FlowsInto(g, w[|w| - 2], w[|w| - 1]);
    }
  }

  /** Visiting the nodes that flow into c. */
  ghost predicate Spread(g: Constraints, c: Cons, list: seq<Cons>, visited: set<Cons>,
                         list': seq<Cons>, visited': set<Cons>)
  {
    && list <= list' && visited <= visited'
    && (forall d :: d in list' && d !in list ==> FlowsInto(g, c, d))
    && (forall d :: d in visited' && d !in visited ==> d in list' && FlowsInto(g, c, d))
    && (visited == visited' ==> list == list')
  }

  lemma SpreadKeeps(g: Constraints, snk: Node, list: seq<Cons>, visited: set<Cons>, srcs: set<Node>,
                    list': seq<Cons>, visited': set<Cons>, srcs': set<Node>)
    requires g.Valid() && list != [] && Walking(g, snk, list, visited, srcs)
    requires Spread(g, list[0], list[1..], visited, list', visited') && Left(g, visited', srcs', list[0])
    requires srcs <= srcs' && forall src :: src in srcs' && src !in srcs ==> Defines(g, list[0], src)
    ensures Walking(g, snk, list', visited', srcs')
  {
    assert list == [list[0]] + list[1..];
    forall c | c in list' || c in visited' ensures Behind(g, g.consOf(snk), c) {
      if c !in list && c !in visited {
        BehindStep(g, g.consOf(snk), list[0], c);
      }
    }
    forall c | c in visited' + {g.consOf(snk)} ensures c in list' || Left(g, visited', srcs', c) {
      if c != list[0] && c !in list && c in visited + {g.consOf(snk)} {
        assert Left(g, visited, srcs, c);
      }
    }
  }

  class SrcSnkAnalysis {
    const g: Constraints
    var sinkToSrcNodes: map<Node, set<Node>>

    constructor (g: Constraints)
      ensures this.g == g && CacheIsSound()
    {
      this.g := g;
      sinkToSrcNodes := map[];
    }

    /** An entry is empty or complete. */
    ghost predicate CacheIsSound()
      reads this
    {
      forall snk :: snk in sinkToSrcNodes ==> sinkToSrcNodes[snk] == {} || AllSources(g, snk, sinkToSrcNodes[snk])
    }

    /** Puts the nodes flowing into c on the list, unless they were there before. */
    method VisitInEdges(c: Cons, list: seq<Cons>, visited: set<Cons>) returns (list': seq<Cons>, visited': set<Cons>)
      ensures Spread(g, c, list, visited, list', visited')
      ensures forall d :: FlowsInto(g, c, d) ==> d in visited'
    {
      list', visited' := list, visited;
      var edges := g.inEdges(c);
      for i := 0 to |edges|
        invariant Spread(g, c, list, visited, list', visited')
        invariant forall k :: 0 <= k < i ==> edges[k] in visited'
      {
        if edges[i] !in visited' {
          assert FlowsInto(g, c, edges[i]);
          visited' := visited' + {edges[i]};
          list' := list' + [edges[i]];
        }
      }
    }

    /** Walks backward from the sink's constraint node. The node itself starts unvisited, so that a cycle
        puts it on the list once more. */
    method CollectSources(snk: Node, known: set<Node>) returns (srcs: set<Node>)
      requires g.Valid() && (known == {} || AllSources(g, snk, known))
      ensures AllSources(g, snk, srcs)
    {
      srcs := known;
      var worklist: seq<Cons> := [g.consOf(snk)];
      var visitedSet: set<Cons> := {};
      BehindSelf(g, g.consOf(snk));
      while worklist != []
        invariant Walking(g, snk, worklist, visitedSet, srcs)
        decreases g.nodes - visitedSet, |worklist|
      {
        ghost var list, visited, srcs' := worklist, visitedSet, srcs;
        var c := worklist[0];
        if g.inEdges(c) == [] && g.def(c).Some? {
          srcs := srcs + {g.def(c).value};
        }
        worklist, visitedSet := VisitInEdges(c, worklist[1..], visitedSet);
        SpreadKeeps(g, snk, list, visited, srcs', worklist, visitedSet, srcs);
      }
      WalkDone(g, snk, visitedSet, srcs);
    }

    method VerifySrcSnk(src: Node, snk: Node) returns (ok: bool)
      requires g.Valid() && CacheIsSound()
      modifies this
      ensures CacheIsSound() && snk in sinkToSrcNodes
      ensures ok <==> Verified(g, snk, src)
      ensures !g.nullStore(snk) ==> AllSources(g, snk, sinkToSrcNodes[snk])
      ensures g.nullStore(snk) ==> sinkToSrcNodes[snk] == if snk in old(sinkToSrcNodes) then old(sinkToSrcNodes)[snk] else {}
      ensures sinkToSrcNodes == old(sinkToSrcNodes)[snk := sinkToSrcNodes[snk]]
    {
      var srcSet := if snk in sinkToSrcNodes then sinkToSrcNodes[snk] else {};
      sinkToSrcNodes := sinkToSrcNodes[snk := srcSet];
      if (|srcSet| > 0 && src in srcSet) || g.nullStore(snk) {
        return true;
      }
      srcSet := CollectSources(snk, srcSet);
      sinkToSrcNodes := sinkToSrcNodes[snk := srcSet];
      return src in srcSet;
    }

    /** A whole run of queries (source, sink): each is answered as if none had been asked before, and leaves a complete
        entry for a sink that stores no null. */
    method VerifyAll(queries: seq<(Node, Node)>) returns (answers: seq<bool>)
      requires g.Valid() && CacheIsSound()
      modifies this
      ensures CacheIsSound() && |answers| == |queries|
      ensures forall i :: 0 <= i < |queries| && !g.nullStore(queries[i].1) ==>
                queries[i].1 in sinkToSrcNodes && AllSources(g, queries[i].1, sinkToSrcNodes[queries[i].1])
      ensures forall i :: 0 <= i < |queries| ==> (answers[i] <==> Verified(g, queries[i].1, queries[i].0))
    {
      answers := [];
      for i := 0 to |queries|
        invariant CacheIsSound() && |answers| == i
        invariant forall k :: 0 <= k < i && !g.nullStore(queries[k].1) ==>
                    queries[k].1 in sinkToSrcNodes && AllSources(g, queries[k].1, sinkToSrcNodes[queries[k].1])
        invariant forall k :: 0 <= k < i ==> (answers[k] <==> Verified(g, queries[k].1, queries[k].0))
      {
        var ok := VerifySrcSnk(queries[i].0, queries[i].1);
        answers := answers + [ok];
      }
    }
  }
}
