/** Whether the sink of one path may run before that of another: a walk over both paths from the source that
    looks for the edges by which the two leave the function they shared last. */
module PathReach {

  type NodeId = nat

  /** The edge of a path goes from the parent to the child, and the source comes last. */
  datatype Edge = Edge(child: NodeId, parent: NodeId)

  /** The function of a node, the calls and returns, and which instruction may run after which. */
  datatype World = World(funcOf: NodeId -> string,
                         isCall: (NodeId, NodeId) -> bool,
                         isRet: (NodeId, NodeId) -> bool,
                         reach: (Edge, Edge) -> bool)

  /** OutOfRange stands for reading an index the path does not have. */
  datatype Answer =
    | OutOfRange
    | Returned
    | Compared(i: nat, j: nat, yes: bool)

  // ---- the two paths, seen from the source

  /** The edge at distance t from the source, and the first one from there on. */
  function At(p: seq<Edge>, t: nat): Edge
    requires p != []
  {
    p[if t < |p| then |p| - 1 - t else 0]
  }

  /** The index of the walk in one path, whether it is at the path's end, and the index it keeps. */
  datatype Side = Side(j: int, found: bool, last: int)

  datatype Two = Two(w: World, p: seq<Edge>, q: seq<Edge>)
  {
    /** At distance t from the source both paths go on, into the same function. */
    predicate Meet(t: nat) {
      t + 1 < |p| && t + 1 < |q| && w.funcOf(At(p, t).child) == w.funcOf(At(q, t).child)
    }

    /** The function of the last meeting before distance t. */
    function Shared(t: nat): string {
      if t == 0 then "" else if Meet(t - 1) then w.funcOf(At(p, t - 1).child) else Shared(t - 1)
    }

    /** Edge i of one of the paths returns from the function shared last. */
    predicate Returns(r: seq<Edge>, i: nat)
      requires i < |r|
    {
      !Meet(|r| - 1 - i) && Shared(|r| - 1 - i) == w.funcOf(r[i].parent) && w.isRet(r[i].parent, r[i].child)
    }

    /** Edge i of one of the paths calls out of the function shared last, or the path ends there. */
    predicate Leaves(r: seq<Edge>, i: nat)
      requires i < |r|
    {
      && !Meet(|r| - 1 - i)
      && ((Shared(|r| - 1 - i) == w.funcOf(r[i].parent) && w.isCall(r[i].parent, r[i].child))
          || (i == 0 && Shared(|r| - 1) == w.funcOf(r[0].child)))
    }

    /** i is the first edge to leave, counted from the end of the path, or the edge at the source if none does. */
    ghost predicate LastToLeave(r: seq<Edge>, i: nat) {
      && i < |r|
      && (forall h :: 0 <= h < i ==> !Leaves(r, h))
      && (Leaves(r, i) || i == |r| - 1)
    }

    ghost function LastFrom(r: seq<Edge>, m: nat): nat
      requires m <= |r| && r != []
      decreases |r| - m
    {
      if m == |r| then |r| - 1 else if Leaves(r, m) then m else LastFrom(r, m + 1)
    }

    ghost predicate NoReturn(r: seq<Edge>, m: nat) {
      forall i :: m <= i < |r| ==> !Returns(r, i)
    }

    /** What the walk knows of a path when it is at distance t from the source. */
    ghost function Passed(r: seq<Edge>, t: nat): Side
      requires r != []
    {
      if t < |r| then Side(|r| - 1 - t, false, LastFrom(r, |r| - t)) else Side(0, true, LastFrom(r, 0))
    }

    ghost predicate Clear(r: seq<Edge>, t: nat) {
      NoReturn(r, if t < |r| then |r| - t else 0)
    }

    ghost predicate Answered(a: Answer) {
      match a
      case OutOfRange => p == [] || q == []
      case Returned => p != [] && q != [] && (!NoReturn(p, 0) || !NoReturn(q, 0))
      case Compared(i, j, yes) =>
        && NoReturn(p, 0) && NoReturn(q, 0)
        && LastToLeave(p, i) && LastToLeave(q, j) && (yes <==> w.reach(p[i], q[j]))
    }
  }

  /** Ends for every two paths. */
  method IsReachable(w: World, p: seq<Edge>, q: seq<Edge>) returns (answer: Answer)
    ensures Two(w, p, q).Answered(answer)
  {
    ghost var both := Two(w, p, q);
    ghost var t: nat := 0;
    var foundEdge1, foundEdge2 := false, false;
    var j1: int, j2: int := |p| - 1, |q| - 1;
    var last1, last2 := j1, j2;
    var common := "";
    ghost var a, b := Side(j1, false, j1), Side(j2, false, j2);
    GoStart(both);
    while !foundEdge1 || !foundEdge2
      invariant p == [] || q == [] ==> j1 == |p| - 1 && j2 == |q| - 1 && !foundEdge1 && !foundEdge2
      invariant a == Side(j1, foundEdge1, last1) && b == Side(j2, foundEdge2, last2)
      invariant p != [] && q != [] ==> Going(both, t, common, a, b)
      decreases |p| + |q| - t
    {
      if !(0 <= j1 < |p|) || !(0 <= j2 < |q|) {
        return OutOfRange;
      }
      var e1, e2 := p[j1], q[j2];
      var prev1, prev2 := w.funcOf(e1.parent), w.funcOf(e2.parent);
      var cur1, cur2 := w.funcOf(e1.child), w.funcOf(e2.child);
      if j1 > 0 && j2 > 0 && (e1.child == e2.child || (!foundEdge1 && !foundEdge2 && cur1 == cur2)) {
        GoOnTogether(both, t, common, a, b);
        common := cur1;
        j1, j2 := j1 - 1, j2 - 1;
        a, b, t := a.(j := j1), b.(j := j2), t + 1;
        continue;
      } else if common == prev1 && w.isRet(e1.parent, e1.child) {
        GoBack(both, t, common, a, b);
        return Returned;
      } else if common == prev2 && w.isRet(e2.parent, e2.child) {
        GoBack(both, t, common, a, b);
        return Returned;
      }
      ghost var c, d := Next(w, p, a, common), Next(w, q, b, common);
      GoOnApart(both, t, common, a, b, c, d);
      if common == prev1 && !foundEdge1 && w.isCall(e1.parent, e1.child) {
        last1 := j1;
      }
      if common == prev2 && !foundEdge2 && w.isCall(e2.parent, e2.child) {
        last2 := j2;
      } else if common == cur2 && foundEdge2 {
        last2 := 0;
      }
      if j1 == 0 {
        foundEdge1 := true;
        if common == cur1 {
          last1 := 0;
        }
      } else {
        j1 := j1 - 1;
      }
      assert Side(j1, foundEdge1, last1) == c;
      if j2 == 0 {
        foundEdge2 := true;
        if common == cur2 {
          last2 := 0;
        }
      } else {
        j2 := j2 - 1;
      }
      assert Side(j2, foundEdge2, last2) == d;
      a, b, t := c, d, t + 1;
    }
    WalkDone(both, t, common, a, b);
    answer := Compared(last1, last2, w.reach(p[last1], q[last2]));
  }

  /** The walk is at distance t from the source. */
  ghost predicate Going(both: Two, t: nat, common: string, a: Side, b: Side) {
    && both.p != [] && both.q != [] && common == both.Shared(t)
    && a == both.Passed(both.p, t) && b == both.Passed(both.q, t)
    && both.Clear(both.p, t) && both.Clear(both.q, t)
  }

  /** What it knows of a path after a step on which the two do not meet. */
  function Next(w: World, r: seq<Edge>, a: Side, common: string): Side
    requires 0 <= a.j < |r|
  {
    var e := r[a.j];
    Side(if a.j == 0 then 0 else a.j - 1, a.found || a.j == 0,
         if a.j == 0 && common == w.funcOf(e.child) then 0
         else if common == w.funcOf(e.parent) && !a.found && w.isCall(e.parent, e.child) then a.j
         else a.last)
  }

  ghost predicate Back(w: World, r: seq<Edge>, a: Side, common: string)
    requires 0 <= a.j < |r|
  {
    common == w.funcOf(r[a.j].parent) && w.isRet(r[a.j].parent, r[a.j].child)
  }

  lemma {:induction false} LastFromLeaves(both: Two, r: seq<Edge>, m: nat)
    requires m <= |r| && r != []
    ensures var i := both.LastFrom(r, m);
            i < |r| && (forall h :: m <= h < i ==> !both.Leaves(r, h)) && ((m <= i && both.Leaves(r, i)) || i == |r| - 1)
    decreases |r| - m
  {
    if m < |r| && !both.Leaves(r, m) {
      LastFromLeaves(both, r, m + 1);
    }
  }

  /** Once one path is at its end the two do not meet again. */
  lemma {:induction false} SharedStays(both: Two, r: seq<Edge>, t: nat)
    requires r != [] && (r == both.p || r == both.q) && t + 1 >= |r|
    ensures both.Shared(t) == both.Shared(|r| - 1) && !both.Meet(t)
  {
    if t >= |r| {
      SharedStays(both, r, t - 1);
    }
  }

  lemma MeetIff(both: Two, t: nat)
    requires both.p != [] && both.q != []
    ensures var j1, j2 := both.Passed(both.p, t).j, both.Passed(both.q, t).j;
            && 0 <= j1 < |both.p| && 0 <= j2 < |both.q|
            && (both.Meet(t) <==> j1 > 0 && j2 > 0 && both.w.funcOf(both.p[j1].child) == both.w.funcOf(both.q[j2].child))
            && both.Shared(t + 1) == if both.Meet(t) then both.w.funcOf(both.p[j1].child) else both.Shared(t)
  {
  }

  lemma MeetStep(both: Two, t: nat, r: seq<Edge>)
    requires r != [] && (r == both.p || r == both.q) && both.Meet(t) && both.Clear(r, t)
    ensures both.Passed(r, t + 1) == both.Passed(r, t).(j := both.Passed(r, t).j - 1) && both.Clear(r, t + 1)
  {
    var i := |r| - 1 - t;
    assert !both.Leaves(r, i) && !both.Returns(r, i);
  }

  lemma PartStep(both: Two, t: nat, r: seq<Edge>)
    requires r != [] && (r == both.p || r == both.q) && !both.Meet(t) && both.Clear(r, t)
    requires 0 <= both.Passed(r, t).j < |r|
    requires !Back(both.w, r, both.Passed(r, t), both.Shared(t))
    ensures both.Passed(r, t + 1) == Next(both.w, r, both.Passed(r, t), both.Shared(t)) && both.Clear(r, t + 1)
  {
    if t >= |r| {
      SharedStays(both, r, t);
      SharedStays(both, r, |r| - 1);
    } else {
      assert !both.Returns(r, |r| - 1 - t);
    }
  }

  lemma ReturnFound(both: Two, t: nat, r: seq<Edge>)
    requires r != [] && (r == both.p || r == both.q) && !both.Meet(t) && 0 <= both.Passed(r, t).j < |r|
    requires Back(both.w, r, both.Passed(r, t), both.Shared(t))
    ensures !both.NoReturn(r, 0)
  {
    if t >= |r| {
      SharedStays(both, r, t);
      SharedStays(both, r, |r| - 1);
    }
    assert both.Returns(r, both.Passed(r, t).j);
  }

  lemma GoStart(both: Two)
    ensures both.p != [] && both.q != [] ==>
              Going(both, 0, "", Side(|both.p| - 1, false, |both.p| - 1), Side(|both.q| - 1, false, |both.q| - 1))
  {
  }

  lemma GoOnTogether(both: Two, t: nat, common: string, a: Side, b: Side)
    requires Going(both, t, common, a, b) && 0 < a.j < |both.p| && 0 < b.j < |both.q|
    requires both.w.funcOf(both.p[a.j].child) == both.w.funcOf(both.q[b.j].child)
    ensures Going(both, t + 1, both.w.funcOf(both.p[a.j].child), a.(j := a.j - 1), b.(j := b.j - 1))
  {
    MeetIff(both, t);
    MeetStep(both, t, both.p);
    MeetStep(both, t, both.q);
  }

  lemma GoBack(both: Two, t: nat, common: string, a: Side, b: Side)
    requires Going(both, t, common, a, b) && 0 <= a.j < |both.p| && 0 <= b.j < |both.q|
    requires !(a.j > 0 && b.j > 0 && both.w.funcOf(both.p[a.j].child) == both.w.funcOf(both.q[b.j].child))
    requires Back(both.w, both.p, a, common) || Back(both.w, both.q, b, common)
    ensures both.Answered(Returned)
  {
    MeetIff(both, t);
    if Back(both.w, both.p, a, common) {
      ReturnFound(both, t, both.p);
    } else {
      ReturnFound(both, t, both.q);
    }
  }

  lemma GoOnApart(both: Two, t: nat, common: string, a: Side, b: Side, c: Side, d: Side)
    requires Going(both, t, common, a, b) && 0 <= a.j < |both.p| && 0 <= b.j < |both.q|
    requires !(a.j > 0 && b.j > 0 && both.w.funcOf(both.p[a.j].child) == both.w.funcOf(both.q[b.j].child))
    requires !Back(both.w, both.p, a, common) && !Back(both.w, both.q, b, common)
    requires c == Next(both.w, both.p, a, common) && d == Next(both.w, both.q, b, common)
    ensures Going(both, t + 1, common, c, d)
  {
    MeetIff(both, t);
    PartStep(both, t, both.p);
    PartStep(both, t, both.q);
  }

  lemma WalkDone(both: Two, t: nat, common: string, a: Side, b: Side)
    requires Going(both, t, common, a, b) && a.found && b.found
    ensures 0 <= a.last < |both.p| && 0 <= b.last < |both.q|
    ensures both.Answered(Compared(a.last, b.last, both.w.reach(both.p[a.last], both.q[b.last])))
  {
    LastFromLeaves(both, both.p, 0);
    LastFromLeaves(both, both.q, 0);
  }

  // ---- the function shared last

  /** As many edges behind the source, and not at the end of either, both paths go on into function c. */
  ghost predicate BothInto(both: Two, t: nat, c: string) {
    && t + 1 < |both.p| && t + 1 < |both.q|
    && both.w.funcOf(both.p[|both.p| - 1 - t].child) == c
    && both.w.funcOf(both.q[|both.q| - 1 - t].child) == c
  }

  ghost predicate BothIntoOne(both: Two, t: nat) {
    exists c :: BothInto(both, t, c)
  }

  /** The function shared last is that of the last distance at which both paths go on into the same one, also if
      they had been in different ones before; the empty name if there is no such distance. */
  lemma {:induction false} SharedIsLast(both: Two, t: nat) returns (u: nat)
    ensures both.Meet(t) <==> BothIntoOne(both, t)
    ensures u <= t && forall v :: u <= v < t ==> !BothIntoOne(both, v)
    ensures if u == 0 then both.Shared(t) == "" else BothInto(both, u - 1, both.Shared(t))
  {
    assert both.Meet(t) ==> BothInto(both, t, both.w.funcOf(At(both.p, t).child));
    u := t;
    if t > 0 {
      var v := SharedIsLast(both, t - 1);
      if both.Meet(t - 1) {
        assert BothInto(both, t - 1, both.Shared(t));
      } else {
        u := v;
      }
    }
  }

  // ---- paths that part once

  /** Both paths go on into the same function n times, the last time into c, and never again after that. */
  ghost predicate PartBehind(both: Two, n: nat, c: string) {
    && 0 < n < |both.p| && n < |both.q|
    && (forall t :: 0 <= t < n ==> both.w.funcOf(At(both.p, t).child) == both.w.funcOf(At(both.q, t).child))
    && both.w.funcOf(At(both.p, n - 1).child) == c
    && forall t :: n <= t && t + 1 < |both.p| && t + 1 < |both.q| ==>
         both.w.funcOf(At(both.p, t).child) != both.w.funcOf(At(both.q, t).child)
  }

  lemma {:induction false} SharedBehind(both: Two, n: nat, c: string, t: nat)
    requires PartBehind(both, n, c) && n <= t
    ensures both.Shared(t) == c && !both.Meet(t)
  {
    assert both.Meet(n - 1);
    if n < t {
      SharedBehind(both, n, c, t - 1);
    }
  }

  /** Edge i of the path calls out of function c behind the shared part. */
  ghost predicate CallsOut(w: World, r: seq<Edge>, n: nat, c: string, i: nat) {
    i < |r| - n && w.funcOf(r[i].parent) == c && w.isCall(r[i].parent, r[i].child)
  }

  /** Edge i of the path is the last call out of function c behind the shared part, or its first edge if there is
      none; if the path ends in c, it is its last edge. */
  ghost predicate IsLastOut(w: World, r: seq<Edge>, n: nat, c: string, i: nat)
    requires r != []
  {
    if w.funcOf(r[0].child) == c then i == 0
    else (forall h :: 0 <= h < i ==> !CallsOut(w, r, n, c, h)) && (CallsOut(w, r, n, c, i) || i == |r| - 1)
  }

  ghost predicate GoesBackFrom(w: World, r: seq<Edge>, n: nat, c: string) {
    exists h :: 0 <= h < |r| - n && w.funcOf(r[h].parent) == c && w.isRet(r[h].parent, r[h].child)
  }

  lemma BehindEdge(both: Two, n: nat, c: string, r: seq<Edge>, i: nat)
    requires PartBehind(both, n, c) && (r == both.p || r == both.q) && i < |r|
    ensures both.Leaves(r, i) <==> CallsOut(both.w, r, n, c, i) || (i == 0 && both.w.funcOf(r[0].child) == c)
    ensures both.Returns(r, i) <==> i < |r| - n && both.w.funcOf(r[i].parent) == c && both.w.isRet(r[i].parent, r[i].child)
  {
    if i < |r| - n {
      SharedBehind(both, n, c, |r| - 1 - i);
    } else {
      assert both.Meet(|r| - 1 - i);
    }
  }

  lemma BehindSide(both: Two, n: nat, c: string, r: seq<Edge>)
    requires PartBehind(both, n, c) && (r == both.p || r == both.q)
    ensures both.NoReturn(r, 0) <==> !GoesBackFrom(both.w, r, n, c)
    ensures forall i :: both.LastToLeave(r, i) ==> IsLastOut(both.w, r, n, c, i)
  {
    forall i: nat | i < |r|
      ensures both.Leaves(r, i) <==> CallsOut(both.w, r, n, c, i) || (i == 0 && both.w.funcOf(r[0].child) == c)
      ensures both.Returns(r, i) <==>
              i < |r| - n && both.w.funcOf(r[i].parent) == c && both.w.isRet(r[i].parent, r[i].child)
    {
      BehindEdge(both, n, c, r, i);
    }
  }

  /** Two paths that part once: the walk answers false exactly if one of them returns from the function shared
      last; otherwise it compares the edges by which the paths leave that function, or end in it. */
  lemma PartOnce(both: Two, n: nat, c: string, a: Answer)
    requires PartBehind(both, n, c) && both.Answered(a)
    ensures !a.OutOfRange?
    ensures a.Returned? <==> GoesBackFrom(both.w, both.p, n, c) || GoesBackFrom(both.w, both.q, n, c)
    ensures a.Compared? ==>
              && IsLastOut(both.w, both.p, n, c, a.i) && IsLastOut(both.w, both.q, n, c, a.j)
              && (a.yes <==> both.w.reach(both.p[a.i], both.q[a.j]))
  {
    BehindSide(both, n, c, both.p);
    BehindSide(both, n, c, both.q);
  }

  /** Path r stays in function f, without calls and returns. */
  ghost predicate StaysIn(w: World, r: seq<Edge>, f: string) {
    forall e :: e in r ==>
      w.funcOf(e.child) == f && w.funcOf(e.parent) == f && !w.isCall(e.parent, e.child) && !w.isRet(e.parent, e.child)
  }

  /** Paths within one function are compared at their ends, unless one of them is a single edge: then the other
      is compared at its first edge. */
  lemma WithinFunction(both: Two, f: string, a: Answer)
    requires both.p != [] && both.q != [] && f != "" && StaysIn(both.w, both.p, f) && StaysIn(both.w, both.q, f)
    requires both.Answered(a)
    ensures |both.p| > 1 && |both.q| > 1 ==> a == Compared(0, 0, both.w.reach(both.p[0], both.q[0]))
    ensures |both.p| == 1 || |both.q| == 1 ==>
              a == Compared(|both.p| - 1, |both.q| - 1, both.w.reach(both.p[|both.p| - 1], both.q[|both.q| - 1]))
  {
    assert both.NoReturn(both.p, 0) && both.NoReturn(both.q, 0);
    var n := (if |both.p| < |both.q| then |both.p| else |both.q|) - 1;
    if n > 0 {
      assert PartBehind(both, n, f);
      PartOnce(both, n, f, a);
    } else {
      NeverTogether(both, |both.p| - 1);
      NeverTogether(both, |both.q| - 1);
    }
  }

  lemma {:induction false} NeverTogether(both: Two, t: nat)
    requires |both.p| == 1 || |both.q| == 1
    ensures both.Shared(t) == "" && !both.Meet(t)
  {
    if t > 0 {
      NeverTogether(both, t - 1);
    }
  }
}
