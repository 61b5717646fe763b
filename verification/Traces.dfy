/** The trace an item of the use-after-return analysis carries: the nodes it visited, each with
    the call site through which the function of the node was entered. Context 0 means that the
    call site is not known yet. */
module Traces {

  type NodeId = nat
  type CallSite = nat

  datatype Visit = Visit(cxt: CallSite, node: NodeId)

  // ---- the meaning of a trace: a sequence without duplicates

  ghost predicate Distinct(t: seq<Visit>) {
    forall i, j :: 0 <= i < j < |t| ==> t[i] != t[j]
  }

  function Visits(t: seq<Visit>): (s: set<Visit>) {
    set v | v in t
  }

  function RenameVisit(v: Visit, c: CallSite): (r: Visit) {
    if v.cxt == 0 then Visit(c, v.node) else v
  }

  /** The trace with call site c in place of every unknown context. */
  function Rename(t: seq<Visit>, c: CallSite): (r: seq<Visit>)
    ensures |r| == |t|
    ensures forall i :: 0 <= i < |t| ==> r[i] == RenameVisit(t[i], c)
  {
    seq(|t|, i requires 0 <= i < |t| => RenameVisit(t[i], c))
  }

  function RenameSet(s: set<Visit>, c: CallSite): (r: set<Visit>) {
    set v | v in s :: RenameVisit(v, c)
  }

  /** Node n was visited both in the unknown context and through call site c. */
  predicate Clash(s: set<Visit>, c: CallSite, n: NodeId) {
    Visit(0, n) in s && Visit(c, n) in s
  }

  ghost predicate Resolvable(s: set<Visit>, c: CallSite) {
    forall n: NodeId :: !Clash(s, c, n)
  }

  lemma DistinctCount(t: seq<Visit>)
    requires Distinct(t)
    ensures |Visits(t)| == |t|
  {
    if t != [] {
      var front := t[..|t| - 1];
      DistinctCount(front);
      assert Visits(t) == Visits(front) + {t[|t| - 1]};
    }
  }

  /** Renaming a trace keeps it free of duplicates exactly when no node was visited both in the
      unknown context and through c. */
  lemma RenameDistinct(t: seq<Visit>, c: CallSite)
    requires Distinct(t) && c != 0
    ensures Distinct(Rename(t, c)) <==> Resolvable(Visits(t), c)
  {
    var r := Rename(t, c);
    if !Resolvable(Visits(t), c) {
      var n: NodeId :| Clash(Visits(t), c, n);
      var i :| 0 <= i < |t| && t[i] == Visit(0, n);
      var j :| 0 <= j < |t| && t[j] == Visit(c, n);
      assert r[i] == r[j];
    }
    if !Distinct(r) {
      var i, j :| 0 <= i < j < |r| && r[i] == r[j];
      assert Clash(Visits(t), c, t[i].node);
    }
  }

  lemma RenameVisits(t: seq<Visit>, c: CallSite)
    ensures Visits(Rename(t, c)) == RenameSet(Visits(t), c)
  {
  }

  lemma RenameConcat(a: seq<Visit>, b: seq<Visit>, c: CallSite)
    ensures Rename(a + b, c) == Rename(a, c) + Rename(b, c)
  {
  }

  /** A call site that is known stays: the outer return does not touch an inner context. */
  lemma RenameTwice(t: seq<Visit>, c: CallSite, d: CallSite)
    requires c != 0
    ensures Rename(Rename(t, c), d) == Rename(t, c)
  {
  }

  lemma DistinctOfRename(t: seq<Visit>, c: CallSite)
    requires Distinct(Rename(t, c))
    ensures Distinct(t)
  {
  }

  lemma VisitsConcat(a: seq<Visit>, b: seq<Visit>)
    ensures Visits(a + b) == Visits(a) + Visits(b)
  {
  }

  lemma DistinctConcat(a: seq<Visit>, b: seq<Visit>)
    ensures Distinct(a + b) <==> Distinct(a) && Distinct(b) && Visits(a) !! Visits(b)
  {
    var c := a + b;
    if Distinct(c) {
      forall i, j | 0 <= i < j < |a| ensures a[i] != a[j] { assert c[i] != c[j]; }
      forall i, j | 0 <= i < j < |b| ensures b[i] != b[j] { assert c[|a| + i] != c[|a| + j]; }
      forall i, j | 0 <= i < |a| && 0 <= j < |b| ensures a[i] != b[j] { assert c[i] != c[|a| + j]; }
    }
    if Distinct(a) && Distinct(b) && Visits(a) !! Visits(b) {
      forall i, j | 0 <= i < j < |c| ensures c[i] != c[j] {
        if i < |a| <= j {
          assert c[i] in Visits(a) && c[j] in Visits(b);
        }
      }
    }
  }

  // ---- the representation: a set of visits and the position of each visit

  /** The set and the position map stand for the sequence t. */
  ghost predicate Encodes(visited: set<Visit>, order: map<Visit, int>, t: seq<Visit>) {
    && Distinct(t)
    && visited == Visits(t)
    && order.Keys == visited
    && forall i :: 0 <= i < |t| ==> order[t[i]] == i
  }

  /** What addToVisited leaves in the position map. */
  function AddOrder(visited: set<Visit>, order: map<Visit, int>, v: Visit): (r: map<Visit, int>) {
    order[v := |visited + {v}| - 1]
  }

  lemma EncodesUnique(visited: set<Visit>, order: map<Visit, int>, t: seq<Visit>, u: seq<Visit>)
    requires Encodes(visited, order, t) && Encodes(visited, order, u)
    ensures t == u
  {
    DistinctCount(t);
    DistinctCount(u);
    forall i | 0 <= i < |t| ensures t[i] == u[i] {
      assert u[i] in Visits(t);
      var j :| 0 <= j < |t| && t[j] == u[i];
      assert order[t[j]] == j && order[u[i]] == i;
    }
  }

  lemma PositionsDiffer(visited: set<Visit>, order: map<Visit, int>, t: seq<Visit>, v: Visit, w: Visit)
    requires Encodes(visited, order, t) && v in visited && w in visited && v != w
    ensures order[v] != order[w]
  {
  }

  lemma AddedPositions(visited: set<Visit>, order: map<Visit, int>, t: seq<Visit>, v: Visit)
    requires Encodes(visited, order, t) && v !in visited
    ensures var u, o := t + [v], AddOrder(visited, order, v);
            Visits([v]) == {v} && o.Keys == visited + {v} && forall i :: 0 <= i < |u| ==> u[i] in o && o[u[i]] == i
  {
    DistinctCount(t);
    assert |visited + {v}| == |t| + 1;
    assert forall i :: 0 <= i < |t| ==> t[i] in Visits(t);
  }

  /** Adding a visit the trace does not hold appends it. */
  lemma AddAppends(visited: set<Visit>, order: map<Visit, int>, t: seq<Visit>, v: Visit)
    requires Encodes(visited, order, t) && v !in visited
    ensures Encodes(visited + {v}, AddOrder(visited, order, v), t + [v])
  {
    DistinctConcat(t, [v]);
    VisitsConcat(t, [v]);
    AddedPositions(visited, order, t, v);
  }

  /** Adding a visit again, unless it is the last one, leaves two visits at one position: the
      result stands for no trace at all. This is why every addToVisited needs the test before it. */
  lemma AddAgainBreaks(visited: set<Visit>, order: map<Visit, int>, t: seq<Visit>, v: Visit, u: seq<Visit>)
    requires Encodes(visited, order, t) && v in visited && v != t[|t| - 1]
    ensures !Encodes(visited + {v}, AddOrder(visited, order, v), u)
  {
    DistinctCount(t);
    assert visited + {v} == visited;
    var last := t[|t| - 1];
    var ord := AddOrder(visited, order, v);
    assert ord[v] == |t| - 1 == ord[last];
    if Encodes(visited, ord, u) {
      PositionsDiffer(visited, ord, u, v, last);
    }
  }

  // ---- replacing the unknown context, node by node in increasing order

  /** Visit k is what an unknown context of a node below m became. */
  predicate Moved(s: set<Visit>, c: CallSite, m: nat, k: Visit) {
    k.cxt == c && k.node < m && Visit(0, k.node) in s
  }

  /** The set after all unknown contexts of nodes below m were replaced by c. */
  function SetBelow(s: set<Visit>, c: CallSite, m: nat): (r: set<Visit>)
    requires c != 0
  {
    set v | v in s + RenameSet(s, c) &&
            (if v.cxt == 0 then v in s && m <= v.node else v in s || Moved(s, c, m, v))
  }

  function Position(order: map<Visit, int>, v: Visit): int {
    if v in order then order[v] else 0
  }

  /** The position map after all unknown contexts of nodes below m were replaced by c. */
  function OrderBelow(s: set<Visit>, order: map<Visit, int>, c: CallSite, m: nat): (r: map<Visit, int>)
    requires c != 0
  {
    map k | k in order.Keys + RenameSet(s, c) &&
            (if k.cxt == 0 then k in order && (m <= k.node || k !in s) else k in order || Moved(s, c, m, k)) ::
      if Moved(s, c, m, k) then Position(order, Visit(0, k.node)) else Position(order, k)
  }

  ghost predicate NoClashBelow(s: set<Visit>, c: CallSite, m: nat) {
    forall n: NodeId :: n < m ==> !Clash(s, c, n)
  }

  ghost predicate FirstClash(s: set<Visit>, c: CallSite, n: NodeId) {
    Clash(s, c, n) && NoClashBelow(s, c, n)
  }

  ghost predicate BoundsNodes(s: set<Visit>, m: nat) {
    forall v :: v in s ==> v.node < m
  }

  lemma AllRenamed(s: set<Visit>, c: CallSite, m: nat)
    requires c != 0 && BoundsNodes(s, m)
    ensures SetBelow(s, c, m) == RenameSet(s, c)
  {
  }

  /** After a successful replacement the pair stands for the renamed trace. */
  lemma ResolveRenames(visited: set<Visit>, order: map<Visit, int>, t: seq<Visit>, c: CallSite, m: nat)
    requires Encodes(visited, order, t) && c != 0 && Resolvable(visited, c) && BoundsNodes(visited, m)
    ensures Encodes(SetBelow(visited, c, m), OrderBelow(visited, order, c, m), Rename(t, c))
  {
    RenameDistinct(t, c);
    RenameVisits(t, c);
    AllRenamed(visited, c, m);
    var r := Rename(t, c);
    var ord := OrderBelow(visited, order, c, m);
    assert ord.Keys == SetBelow(visited, c, m);
    forall i | 0 <= i < |r| ensures ord[r[i]] == i {
      assert t[i] in visited && r[i] in RenameSet(visited, c);
      assert !Clash(visited, c, t[i].node);
    }
  }

  /** A failed replacement leaves a visit in the set that has lost its position: whoever ignores
      the failure works on a pair that stands for no trace. */
  lemma FailedResolveBreaks(visited: set<Visit>, order: map<Visit, int>, t: seq<Visit>, c: CallSite, n: NodeId,
                            u: seq<Visit>)
    requires Encodes(visited, order, t) && c != 0 && FirstClash(visited, c, n)
    ensures !Encodes(SetBelow(visited, c, n), OrderBelow(visited, order, c, n + 1), u)
  {
    assert Visit(0, n) in SetBelow(visited, c, n);
    assert Visit(0, n) !in OrderBelow(visited, order, c, n + 1);
  }

  // ---- merging

  function ShiftOrder(order: map<Visit, int>, shift: int): (r: map<Visit, int>) {
    map v | v in order :: order[v] + shift
  }

  lemma MergedPositions(v1: set<Visit>, o1: map<Visit, int>, t1: seq<Visit>,
                        v2: set<Visit>, o2: map<Visit, int>, t2: seq<Visit>)
    requires Encodes(v1, o1, t1) && Encodes(v2, o2, t2) && v1 !! v2
    ensures var t, o := t1 + t2, ShiftOrder(o2, |t1|) + o1;
            o.Keys == v1 + v2 && forall i :: 0 <= i < |t| ==> t[i] in o && o[t[i]] == i
  {
  }

  /** Joining two disjoint traces concatenates them. */
  lemma MergeConcatenates(v1: set<Visit>, o1: map<Visit, int>, t1: seq<Visit>,
                          v2: set<Visit>, o2: map<Visit, int>, t2: seq<Visit>)
    requires Encodes(v1, o1, t1) && Encodes(v2, o2, t2) && v1 !! v2
    ensures Encodes(v1 + v2, ShiftOrder(o2, |v1|) + o1, t1 + t2)
  {
    DistinctCount(t1);
    DistinctConcat(t1, t2);
    VisitsConcat(t1, t2);
    MergedPositions(v1, o1, t1, v2, o2, t2);
  }

  lemma LeastZero(s: set<Visit>) returns (n: NodeId)
    requires exists v :: v in s && v.cxt == 0
    ensures Visit(0, n) in s && forall m: NodeId :: m < n ==> Visit(0, m) !in s
  {
    var v :| v in s && v.cxt == 0;
    n := v.node;
    while exists m: NodeId :: m < n && Visit(0, m) in s
      invariant Visit(0, n) in s
      decreases n
    {
      var m: NodeId :| m < n && Visit(0, m) in s;
      n := m;
    }
  }

  lemma Pick<T>(s: set<T>) returns (x: T)
    requires s != {}
    ensures x in s
  {
    x :| x in s;
  }

  lemma LeastOf(s: set<int>)
    requires s != {}
    ensures exists p :: p in s && forall q :: q in s ==> p <= q
  {
    var p := Pick(s);
    var rest := s - {p};
    if rest != {} {
      LeastOf(rest);
      var q :| q in rest && forall r :: r in rest ==> q <= r;
      assert forall r :: r in s ==> r == p || r in rest;
      assert (if p < q then p else q) in s;
    } else {
      assert s == {p};
    }
  }
}
