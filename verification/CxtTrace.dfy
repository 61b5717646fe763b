/** The mutable trace of an item: a set of visits beside a map from visits to positions. */
module CxtTraces {
  import opened Traces

  /** The order of the set of visits: by context, then by node. */
  predicate Less(u: Visit, v: Visit) {
    u.cxt < v.cxt || (u.cxt == v.cxt && u.node < v.node)
  }

  ghost predicate IsLeast(v: Visit, s: set<Visit>) {
    v in s && forall u :: u in s && u != v ==> Less(v, u)
  }

  lemma {:induction false} LeastVisit(s: set<Visit>)
    requires s != {}
    ensures exists v :: IsLeast(v, s)
  {
    var v := Pick(s);
    if s == {v} {
      assert IsLeast(v, s);
    } else {
      LeastVisit(s - {v});
      var u :| IsLeast(u, s - {v});
      var w := if Less(u, v) then u else v;
      forall x | x in s && x != w ensures Less(w, x) {
        assert x == v || x == u || Less(u, x);
      }
      assert IsLeast(w, s);
    }
  }

  /** The visits of a set below visit v. */
  ghost function Below(s: set<Visit>, v: Visit): set<Visit> {
    set u | u in s && Less(u, v)
  }

  class CxtTrace {
    var visited: set<Visit>
    var order: map<Visit, int>

    constructor ()
      ensures visited == {} && order == map[]
      ensures Encodes(visited, order, [])
    {
      visited, order := {}, map[];
    }

    method HasVisited(v: Visit) returns (found: bool)
      ensures found <==> v in visited
      ensures forall t :: Encodes(visited, order, t) ==> (found <==> v in t)
    {
      found := v in visited;
    }

    /** Appends a visit the trace does not hold yet. */
    method AddToVisited(v: Visit)
      modifies this
      ensures visited == old(visited) + {v} && order == AddOrder(old(visited), old(order), v)
      ensures forall t :: old(Encodes(visited, order, t)) && v !in t ==> Encodes(visited, order, t + [v])
    {
      visited := visited + {v};
      order := order[v := |visited| - 1];
      forall t | old(Encodes(visited, order, t)) && v !in t ensures Encodes(visited, order, t + [v]) {
        AddAppends(old(visited), old(order), t, v);
      }
    }

    /** Walks the visits in unknown context in increasing order and gives each the call site c;
        stops at the first node that was visited through c as well. */
    method ResolveUnknownCxts(c: CallSite) returns (ok: bool, ghost stop: nat)
      requires c != 0
      modifies this
      ensures ok <==> Resolvable(old(visited), c)
      ensures ok ==> BoundsNodes(old(visited), stop)
      ensures ok ==> visited == SetBelow(old(visited), c, stop) == RenameSet(old(visited), c)
      ensures ok ==> order == OrderBelow(old(visited), old(order), c, stop)
      ensures ok ==> forall t :: old(Encodes(visited, order, t)) ==> Encodes(visited, order, Rename(t, c))
      ensures !ok ==> FirstClash(old(visited), c, stop)
      ensures !ok ==> visited == SetBelow(old(visited), c, stop)
      ensures !ok ==> order == OrderBelow(old(visited), old(order), c, stop + 1)
    {
      ghost var s, o := visited, order;
      ghost var bound := NodeBound(s);
      ghost var m := 0;
      NothingBelow(s, o, c);
      while exists v :: v in visited && v.cxt == 0
        invariant m <= bound && ResolvedBelow(s, o, c, m, visited, order)
        decreases bound - m
      {
        var n: NodeId := LeastUnknown(visited);
        NextZero(s, o, c, m, n, visited, order);
        NodeIsBounded(s, bound, n);
        var pos := Position(order, Visit(0, n));
        order := (order - {Visit(0, n)})[Visit(c, n) := pos];
        if Visit(c, n) in visited {
          ClashIsFinal(s, c, n);
          return false, n;
        }
        visited := visited + {Visit(c, n)} - {Visit(0, n)};
        m := n + 1;
      }
      NoZeroLeft(s, o, c, m, bound, visited, order);
      return true, bound;
    }

    /** Joins the trace of a finished function to this one; fails on the least visit both hold, and then
        only those below it have been taken over. */
    method Merge(other: CxtTrace) returns (ok: bool, ghost stop: Visit)
      requires other != this
      modifies this
      ensures ok <==> old(visited) !! other.visited
      ensures order == ShiftOrder(other.order, |old(visited)|) + old(order)
      ensures ok ==> visited == old(visited) + other.visited
      ensures !ok ==> IsLeast(stop, old(visited) * other.visited)
      ensures !ok ==> visited == old(visited) + Below(other.visited, stop)
      ensures ok ==> forall t, u :: old(Encodes(visited, order, t)) && Encodes(other.visited, other.order, u) ==>
                Encodes(visited, order, t + u)
    {
      ghost var v1, o1 := visited, order;
      order := ShiftOrder(other.order, |visited|) + order;
      ok, stop := MergeVisitedNodes(other.visited);
      if ok {
        forall t, u | Encodes(v1, o1, t) && Encodes(other.visited, other.order, u)
          ensures Encodes(visited, order, t + u)
        {
          MergeConcatenates(v1, o1, t, other.visited, other.order, u);
        }
      }
    }

    method MergeVisitedNodes(nodes: set<Visit>) returns (ok: bool, ghost stop: Visit)
      modifies `visited
      ensures ok <==> old(visited) !! nodes
      ensures ok ==> visited == old(visited) + nodes
      ensures !ok ==> IsLeast(stop, old(visited) * nodes) && visited == old(visited) + Below(nodes, stop)
    {
      var rest := nodes;
      stop := Visit(0, 0);
      while rest != {}
        invariant rest <= nodes && nodes - rest !! old(visited)
        invariant visited == old(visited) + (nodes - rest)
        invariant forall u, v :: u in nodes - rest && v in rest ==> Less(u, v)
      {
        LeastVisit(rest);
        var v :| v in rest && forall u :: u in rest && u != v ==> Less(v, u);
        if v in visited {
          forall u | u in nodes ensures Less(u, v) <==> u !in rest {
            assert u in rest && u != v ==> Less(v, u);
          }
          assert IsLeast(v, old(visited) * nodes);
          return false, v;
        }
        visited := visited + {v};
        rest := rest - {v};
      }
      return true, stop;
    }

    /** The visits in the order of their positions: the trace itself. */
    method GetVisitedPath() returns (path: seq<Visit>)
      ensures forall t :: Encodes(visited, order, t) ==> path == t
    {
      var byPosition: map<int, Visit> := map[];
      var rest := order.Keys;
      while rest != {}
        invariant rest <= order.Keys
        invariant forall p :: p in byPosition ==> byPosition[p] in order.Keys - rest && order[byPosition[p]] == p
        invariant forall v :: v in order.Keys - rest ==> order[v] in byPosition
      {
        var v :| v in rest;
        if order[v] !in byPosition {
          byPosition := byPosition[order[v] := v];
        }
        rest := rest - {v};
      }
      path := [];
      var todo := byPosition.Keys;
      forall t | Encodes(visited, order, t) ensures Lists(byPosition, todo, path, t) {
        forall i | 0 <= i < |t| ensures i in byPosition && byPosition[i] == t[i] {
          assert t[i] in order;
          if byPosition[i] != t[i] {
            PositionsDiffer(visited, order, t, byPosition[i], t[i]);
          }
        }
      }
      while todo != {}
        invariant todo <= byPosition.Keys
        invariant forall t :: Encodes(visited, order, t) ==> Lists(byPosition, todo, path, t)
      {
        LeastOf(todo);
        var p :| p in todo && forall q :: q in todo ==> p <= q;
        forall t | Encodes(visited, order, t) ensures Lists(byPosition, todo - {p}, path + [byPosition[p]], t) {
          ListsNext(byPosition, todo, path, t, p);
        }
        todo := todo - {p};
        path := path + [byPosition[p]];
      }
      forall t | Encodes(visited, order, t) ensures path == t {
        assert Lists(byPosition, todo, path, t);
        assert |path| < |t| ==> |path| in todo;
      }
    }
  }

  /** The positions not in todo have been listed. */
  ghost predicate Lists(byPosition: map<int, Visit>, todo: set<int>, path: seq<Visit>, t: seq<Visit>) {
    && (forall p :: p in byPosition ==> 0 <= p < |t| && byPosition[p] == t[p])
    && path <= t
    && (forall p :: p in todo <==> |path| <= p < |t|)
  }

  lemma ListsNext(byPosition: map<int, Visit>, todo: set<int>, path: seq<Visit>, t: seq<Visit>, p: int)
    requires Lists(byPosition, todo, path, t) && todo <= byPosition.Keys
    requires p in todo && forall q :: q in todo ==> p <= q
    ensures Lists(byPosition, todo - {p}, path + [byPosition[p]], t)
  {
    assert |path| in todo;
    assert p == |path|;
  }

  /** The first visit of an ordered set whose least elements are those in unknown context. */
  method LeastUnknown(visited: set<Visit>) returns (n: NodeId)
    requires exists v :: v in visited && v.cxt == 0
    ensures Visit(0, n) in visited && forall k: NodeId :: k < n ==> Visit(0, k) !in visited
  {
    ghost var least := LeastZero(visited);
    var v :| v in visited && v.cxt == 0 && forall u :: u in visited && u.cxt == 0 ==> v.node <= u.node;
    n := v.node;
  }

  /** What holds when every unknown context of a node below m has been replaced. */
  ghost predicate ResolvedBelow(s: set<Visit>, o: map<Visit, int>, c: CallSite, m: nat,
                                visited: set<Visit>, order: map<Visit, int>)
    requires c != 0
  {
    visited == SetBelow(s, c, m) && order == OrderBelow(s, o, c, m) && NoClashBelow(s, c, m)
  }

  lemma NodeBound(s: set<Visit>) returns (m: nat)
    ensures BoundsNodes(s, m)
  {
    m := 0;
    var rest := s;
    while rest != {}
      invariant rest <= s && BoundsNodes(s - rest, m)
    {
      var v :| v in rest;
      rest, m := rest - {v}, if v.node < m then m else v.node + 1;
    }
  }

  lemma NodeIsBounded(s: set<Visit>, m: nat, n: NodeId)
    requires BoundsNodes(s, m) && Visit(0, n) in s
    ensures n + 1 <= m
  {
    assert Visit(0, n).node < m;
  }

  lemma ClashIsFinal(s: set<Visit>, c: CallSite, n: NodeId)
    requires FirstClash(s, c, n)
    ensures !Resolvable(s, c)
  {
  }

  lemma NextZeroSet(s: set<Visit>, c: CallSite, m: nat, n: NodeId)
    requires c != 0 && NoClashBelow(s, c, m)
    requires Visit(0, n) in SetBelow(s, c, m)
    requires forall k: NodeId :: k < n ==> Visit(0, k) !in SetBelow(s, c, m)
    ensures m <= n && Visit(0, n) in s && NoClashBelow(s, c, n)
    ensures Visit(c, n) in SetBelow(s, c, m) <==> Clash(s, c, n)
    ensures SetBelow(s, c, n) == SetBelow(s, c, m)
    ensures !Clash(s, c, n) ==> SetBelow(s, c, n + 1) == SetBelow(s, c, m) + {Visit(c, n)} - {Visit(0, n)}
    ensures forall k: NodeId :: m <= k < n ==> Visit(0, k) !in s
  {
  }

  lemma NextZeroOrder(s: set<Visit>, o: map<Visit, int>, c: CallSite, m: nat, n: NodeId)
    requires c != 0 && m <= n && Visit(0, n) in s
    requires forall k: NodeId :: m <= k < n ==> Visit(0, k) !in s
    ensures OrderBelow(s, o, c, n + 1) ==
            (OrderBelow(s, o, c, m) - {Visit(0, n)})[Visit(c, n) := Position(OrderBelow(s, o, c, m), Visit(0, n))]
  {
    assert RenameVisit(Visit(0, n), c) in RenameSet(s, c);
  }

  /** One more unknown context replaced, or the first clash met. */
  lemma NextZero(s: set<Visit>, o: map<Visit, int>, c: CallSite, m: nat, n: NodeId,
                 visited: set<Visit>, order: map<Visit, int>)
    requires c != 0 && ResolvedBelow(s, o, c, m, visited, order)
    requires Visit(0, n) in visited && forall k: NodeId :: k < n ==> Visit(0, k) !in visited
    ensures m <= n && Visit(0, n) in s
    ensures var order' := (order - {Visit(0, n)})[Visit(c, n) := Position(order, Visit(0, n))];
            if Visit(c, n) in visited
            then FirstClash(s, c, n) && visited == SetBelow(s, c, n) && order' == OrderBelow(s, o, c, n + 1)
            else ResolvedBelow(s, o, c, n + 1, visited + {Visit(c, n)} - {Visit(0, n)}, order')
  {
    NextZeroSet(s, c, m, n);
    NextZeroOrder(s, o, c, m, n);
  }

  lemma NoZeroLeft(s: set<Visit>, o: map<Visit, int>, c: CallSite, m: nat, bound: nat,
                   visited: set<Visit>, order: map<Visit, int>)
    requires c != 0 && m <= bound && BoundsNodes(s, bound) && ResolvedBelow(s, o, c, m, visited, order)
    requires forall v :: v in visited ==> v.cxt != 0
    ensures Resolvable(s, c)
    ensures visited == SetBelow(s, c, bound) == RenameSet(s, c) && order == OrderBelow(s, o, c, bound)
    ensures forall t :: Encodes(s, o, t) ==> Encodes(visited, order, Rename(t, c))
  {
    AllResolved(s, c, m, bound, visited);
    OrderIsFinal(s, o, c, m, bound);
    forall t | Encodes(s, o, t) ensures Encodes(visited, order, Rename(t, c)) {
      ResolveRenames(s, o, t, c, bound);
    }
  }

  lemma AllResolved(s: set<Visit>, c: CallSite, m: nat, bound: nat, visited: set<Visit>)
    requires c != 0 && m <= bound && BoundsNodes(s, bound) && visited == SetBelow(s, c, m) && NoClashBelow(s, c, m)
    requires forall v :: v in visited ==> v.cxt != 0
    ensures Resolvable(s, c) && visited == SetBelow(s, c, bound) == RenameSet(s, c)
    ensures forall n: NodeId :: Visit(0, n) in s ==> n < m
  {
  }

  lemma OrderIsFinal(s: set<Visit>, o: map<Visit, int>, c: CallSite, m: nat, bound: nat)
    requires c != 0 && m <= bound && forall n: NodeId :: Visit(0, n) in s ==> n < m
    ensures OrderBelow(s, o, c, m) == OrderBelow(s, o, c, bound)
  {
  }

  lemma NothingBelow(s: set<Visit>, o: map<Visit, int>, c: CallSite)
    requires c != 0
    ensures ResolvedBelow(s, o, c, 0, s, o)
  {
  }
}
