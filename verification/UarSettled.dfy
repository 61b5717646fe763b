/** Graphs for which the schedule does not matter. Either the called functions have an order, so that a
    visited set tells the walk behind it with all flags; or the rules look at the node only. */
module UarSettled {
  import opened Options
  import opened Traces
  import opened Svfg
  import opened UarState
  import opened UarFlags
  import opened UarSound
  import opened UarExact

  // ---- ordered functions

  /** Set body holds the nodes of the function entered at n, and of all it calls. */
  ghost predicate Body(g: Graph, n: NodeId, body: set<NodeId>) {
    && n in body
    && (forall e: Edge :: Follows(g, e, e.src) && e.src in body ==> Stays(g, body, e))
  }

  /** Edge e stays in the body, or returns to a call site the body does not have. */
  ghost predicate Stays(g: Graph, body: set<NodeId>, e: Edge) {
    e.dst in body
    || (e.kind.IsCall() && e.dst in g.sinks)
    || (e.kind.IsRet() && forall c :: CallInto(g, c) && c.src in body ==> c.kind.cs != e.kind.cs)
  }

  /** Visits have an order that every edge in the body goes along. */
  ghost predicate Ranked(g: Graph, body: set<NodeId>, rank: Visit -> nat) {
    forall e: Edge :: Follows(g, e, e.src) && e.src in body && e.dst in body ==> forall c :: Climbs(rank, e, c)
  }

  /** Edge e, met with innermost call c, or returning to it, goes up. */
  predicate Climbs(rank: Visit -> nat, e: Edge, c: CallSite) {
    if e.kind.IsCall() then rank(Visit(c, e.src)) < rank(Visit(e.kind.cs, e.dst))
    else if e.kind.IsRet() then rank(Visit(e.kind.cs, e.src)) < rank(Visit(c, e.dst))
    else rank(Visit(c, e.src)) < rank(Visit(c, e.dst))
  }

  ghost predicate OrderedFrom(g: Graph, n: NodeId, body: set<NodeId>, rank: Visit -> nat) {
    Body(g, n, body) && Ranked(g, body, rank)
  }

  ghost predicate NoParallel(g: Graph) {
    forall d: Edge, e: Edge :: Follows(g, d, d.src) && Follows(g, e, d.src) && d.dst == e.dst ==> d == e
  }

  /** No function that is called runs through a visit twice, two edges never join the same nodes, and no
      function is called both directly and indirectly. */
  ghost predicate Ordered(g: Graph) {
    && (forall c :: CallInto(g, c) ==> exists body, rank :: OrderedFrom(g, c.dst, body, rank))
    && NoParallel(g)
    && (forall d, e :: CallInto(g, d) && CallInto(g, e) && d.dst == e.dst ==> d.kind.IndCall? == e.kind.IndCall?)
  }

  ghost predicate Rising(rank: Visit -> nat, t: seq<Visit>) {
    forall i :: 0 < i < |t| ==> rank(t[i - 1]) < rank(t[i])
  }

  lemma RisingApart(rank: Visit -> nat, t: seq<Visit>, i: nat, j: nat)
    requires Rising(rank, t) && i < j < |t|
    ensures rank(t[i]) < rank(t[j])
  {
    if i < j - 1 {
      RisingApart(rank, t, i, j - 1);
    }
  }

  lemma SomeVisit(t: seq<Visit>)
    ensures t != [] ==> Visits(t) != {}
  {
    if t != [] {
      assert t[0] in Visits(t);
    }
  }

  /** Two rising traces of one visited set are the same. */
  lemma {:induction false} RisingUnique(rank: Visit -> nat, t: seq<Visit>, u: seq<Visit>)
    requires Rising(rank, t) && Rising(rank, u) && Visits(t) == Visits(u)
    ensures t == u
  {
    if t != [] && u != [] {
      LastIsTop(rank, t, u);
      LastIsTop(rank, u, t);
      ButLast(rank, t);
      ButLast(rank, u);
      RisingUnique(rank, t[..|t| - 1], u[..|u| - 1]);
    } else {
      SomeVisit(t);
      SomeVisit(u);
    }
  }

  lemma LastIsTop(rank: Visit -> nat, t: seq<Visit>, u: seq<Visit>)
    requires Rising(rank, t) && Rising(rank, u) && Visits(t) == Visits(u) && t != [] && u != []
    ensures t[|t| - 1] == u[|u| - 1] || rank(t[|t| - 1]) < rank(u[|u| - 1])
  {
    var v := t[|t| - 1];
    assert v in Visits(u);
    var i :| 0 <= i < |u| && u[i] == v;
    if i < |u| - 1 {
      RisingApart(rank, u, i, |u| - 1);
    }
  }

  lemma ButLast(rank: Visit -> nat, t: seq<Visit>)
    requires Rising(rank, t) && t != []
    ensures Rising(rank, t[..|t| - 1]) && Visits(t[..|t| - 1]) == Visits(t) - {t[|t| - 1]}
  {
    forall i | 0 <= i < |t| - 1 ensures t[i] != t[|t| - 1] {
      RisingApart(rank, t, i, |t| - 1);
    }
  }

  /** A walk from inside the body stays inside. */
  lemma {:induction false} WalkInside(g: Graph, body: set<NodeId>, w: Walk, from: NodeId, n: NodeId)
    requires ValidGraph(g) && Body(g, n, body) && from in body && ValidWalk(g, w, from)
    ensures WalkEnd(w, from) in body
  {
    match w
    case Start =>
    case Hop(b, e) =>
      WalkInside(g, body, b, from, n);
      assert Stays(g, body, e);
    case Round(b, c, i, r) =>
      WalkInside(g, body, b, from, n);
      assert Stays(g, body, c) && CallInto(g, c);
      WalkInside(g, body, i, c.dst, n);
      assert Stays(g, body, r);
  }

  lemma RisingConcat(rank: Visit -> nat, t: seq<Visit>, u: seq<Visit>)
    requires Rising(rank, t) && Rising(rank, u) && t != [] && u != []
    requires rank(t[|t| - 1]) < rank(u[0])
    ensures Rising(rank, t + u)
  {
  }

  lemma RisingRound(rank: Visit -> nat, t: seq<Visit>, u: seq<Visit>, v: Visit)
    requires Rising(rank, t) && Rising(rank, u) && t != [] && u != []
    requires rank(t[|t| - 1]) < rank(u[0]) && rank(u[|u| - 1]) < rank(v)
    ensures Rising(rank, t + u + [v])
  {
    RisingConcat(rank, t, u);
    RisingConcat(rank, t + u, [v]);
  }

  /** The visits of a walk with those of its start before them, seen with innermost call c. */
  ghost function Trail(w: Walk, from: NodeId, c: CallSite): seq<Visit> {
    [Visit(c, from)] + Rename(WalkVisits(w), c)
  }

  lemma HopTrail(b: Walk, e: Edge, from: NodeId, c: CallSite)
    ensures Trail(Hop(b, e), from, c) == Trail(b, from, c) + [Visit(c, e.dst)]
  {
    RenameConcat(WalkVisits(b), [Visit(0, e.dst)], c);
    assert Rename([Visit(0, e.dst)], c) == [Visit(c, e.dst)];
  }

  lemma RoundTrail(b: Walk, c: Edge, i: Walk, r: Edge, from: NodeId, d: CallSite)
    requires c.kind.IsCall() && c.kind.cs != 0
    ensures Trail(Round(b, c, i, r), from, d) == Trail(b, from, d) + Trail(i, c.dst, c.kind.cs) + [Visit(d, r.dst)]
  {
    RoundVisits(b, c, i, r, d);
  }

  /** Along a walk inside the body the visits rise. */
  lemma {:induction false} WalkRises(g: Graph, n: NodeId, body: set<NodeId>, rank: Visit -> nat, w: Walk, from: NodeId,
                                     c: CallSite)
    requires ValidGraph(g) && OrderedFrom(g, n, body, rank) && from in body && ValidWalk(g, w, from)
    ensures Rising(rank, Trail(w, from, c))
    ensures Trail(w, from, c)[|Trail(w, from, c)| - 1] == Visit(c, WalkEnd(w, from))
    decreases w, 1
  {
    WalkInside(g, body, w, from, n);
    match w
    case Start =>
    case Hop(b, e) =>
      WalkRises(g, n, body, rank, b, from, c);
      WalkInside(g, body, b, from, n);
      assert Climbs(rank, e, c);
      HopTrail(b, e, from, c);
      RisingConcat(rank, Trail(b, from, c), [Visit(c, e.dst)]);
    case Round(b, d, i, r) =>
      RoundRises(g, n, body, rank, w, from, c);
  }

  lemma RoundClimbs(g: Graph, n: NodeId, body: set<NodeId>, rank: Visit -> nat, w: Walk, from: NodeId, c: CallSite)
    requires ValidGraph(g) && OrderedFrom(g, n, body, rank) && from in body && ValidWalk(g, w, from) && w.Round?
    requires WalkEnd(w, from) in body
    ensures w.call.kind.IsCall() && w.call.kind.cs != 0 && w.call.dst in body
    ensures rank(Visit(c, WalkEnd(w.before, from))) < rank(Visit(w.call.kind.cs, w.call.dst))
    ensures rank(Visit(w.call.kind.cs, WalkEnd(w.inner, w.call.dst))) < rank(Visit(c, w.ret.dst))
  {
    WalkInside(g, body, w.before, from, n);
    assert GoodEdge(g, w.call) && Stays(g, body, w.call);
    WalkInside(g, body, w.inner, w.call.dst, n);
    assert Climbs(rank, w.call, c) && Climbs(rank, w.ret, c);
  }

  lemma RoundRises(g: Graph, n: NodeId, body: set<NodeId>, rank: Visit -> nat, w: Walk, from: NodeId, c: CallSite)
    requires ValidGraph(g) && OrderedFrom(g, n, body, rank) && from in body && ValidWalk(g, w, from) && w.Round?
    requires WalkEnd(w, from) in body
    ensures Rising(rank, Trail(w, from, c))
    ensures Trail(w, from, c)[|Trail(w, from, c)| - 1] == Visit(c, WalkEnd(w, from))
    decreases w, 0
  {
    var b, d, i, r := w.before, w.call, w.inner, w.ret;
    RoundClimbs(g, n, body, rank, w, from, c);
    WalkRises(g, n, body, rank, b, from, c);
    WalkRises(g, n, body, rank, i, d.dst, d.kind.cs);
    RoundTrail(b, d, i, r, from, c);
    RisingRound(rank, Trail(b, from, c), Trail(i, d.dst, d.kind.cs), Visit(c, r.dst));
  }

  lemma LastVisit(st: seq<CallSite>, p: seq<Edge>)
    requires p != [] && Stack(st, p).Some?
    ensures Stack(st, p[..|p| - 1]).Some?
    ensures var t := PathVisits(st, p);
            t != [] && t[..|t| - 1] == PathVisits(st, p[..|p| - 1]) && t[|t| - 1].node == p[|p| - 1].dst
  {
  }

  /** Where no two edges join the same nodes, the visits tell the edges. */
  lemma {:induction false} VisitsTellEdges(g: Graph, from: NodeId, st: seq<CallSite>, p: seq<Edge>, q: seq<Edge>)
    requires ValidGraph(g) && NoParallel(g) && IsPath(g, from, p) && IsPath(g, from, q)
    requires Stack(st, p).Some? && Stack(st, q).Some? && PathVisits(st, p) == PathVisits(st, q)
    ensures p == q
  {
    if p != [] && q != [] {
      var v, w := p[..|p| - 1], q[..|q| - 1];
      LastVisit(st, p);
      LastVisit(st, q);
      VisitsTellEdges(g, from, st, v, w);
      assert p == v + [p[|p| - 1]] && q == w + [q[|q| - 1]];
    }
  }

  /** The path of a walk out of a function called through cs, below that call. */
  lemma LeavingPath(g: Graph, n: NodeId, cs: CallSite, w: Walk, r: Edge)
    requires ValidGraph(g) && ValidWalk(g, w, n) && Follows(g, r, WalkEnd(w, n)) && r.kind.IsRet() && r.kind.cs == cs
    ensures IsPath(g, n, Flatten(w) + [r])
    ensures Stack([cs], Flatten(w) + [r]) == Some([])
    ensures PathVisits([cs], Flatten(w) + [r]) == LeftTrace(w, r)
  {
    WalkIsPath(g, w, n);
    WalkIsBalanced(g, w, n, [cs]);
    OneEdge(g, WalkEnd(w, n), r);
    PathConcat(g, n, Flatten(w), [r]);
    OneStep([cs], r);
    StackConcat([cs], Flatten(w), [r]);
  }

  /** A rising trace is told by its set. */
  lemma TraceOfSet(g: Graph, n: NodeId, body: set<NodeId>, rank: Visit -> nat, v: Walk, q: Edge, w: Walk, r: Edge)
    requires ValidGraph(g) && OrderedFrom(g, n, body, rank) && ValidWalk(g, v, n) && ValidWalk(g, w, n)
    requires q.kind.IsRet() && r.kind.IsRet() && q.kind.cs == r.kind.cs && q.dst == r.dst
    requires Distinct(LeftTrace(v, q)) && Distinct(LeftTrace(w, r))
    requires Visits(LeftTrace(v, q)) == Visits(LeftTrace(w, r))
    ensures LeftTrace(v, q) == LeftTrace(w, r)
  {
    var cs := r.kind.cs;
    var t, u, back := Rename(WalkVisits(v), cs), Rename(WalkVisits(w), cs), [Visit(0, r.dst)];
    WalkRises(g, n, body, rank, v, n, cs);
    WalkRises(g, n, body, rank, w, n, cs);
    TailRises(rank, Visit(cs, n), t);
    TailRises(rank, Visit(cs, n), u);
    DistinctConcat(t, back);
    DistinctConcat(u, back);
    VisitsConcat(t, back);
    VisitsConcat(u, back);
    assert Visits(t) == Visits(t + back) - Visits(back) == Visits(u);
    RisingUnique(rank, t, u);
  }

  lemma TailRises(rank: Visit -> nat, v: Visit, t: seq<Visit>)
    requires Rising(rank, [v] + t)
    ensures Rising(rank, t)
  {
    forall i | 0 < i < |t| ensures rank(t[i - 1]) < rank(t[i]) {
      assert ([v] + t)[i + 1] == t[i] && ([v] + t)[i] == t[i - 1];
    }
  }

  /** Where functions are ordered, a stored return stands for one walk, with one spot. */
  lemma OrderedConfluent(g: Graph)
    requires ValidGraph(g) && Ordered(g)
    ensures KindsAlike(g) && Confluent(g)
  {
    forall d, e | CallInto(g, d) && CallInto(g, e) && d.dst == e.dst
      ensures Alike(g, CalledIndirectly(g), SpotOf(EntryItem(d)), SpotOf(EntryItem(e)))
    {
      assert EntryItem(d) == EntryItem(e);
    }
    forall c, v, q, a, w, r, b | CallInto(g, c) && Leaves(g, c.dst, c.kind.cs, v, q, a) &&
      Leaves(g, c.dst, c.kind.cs, w, r, b) && q.dst == r.dst && Visits(LeftTrace(v, q)) == Visits(LeftTrace(w, r))
      ensures Alike(g, CalledIndirectly(g), a, b)
    {
      OneWalk(g, c, v, q, w, r);
    }
  }

  lemma OneWalk(g: Graph, c: Edge, v: Walk, q: Edge, w: Walk, r: Edge)
    requires ValidGraph(g) && Ordered(g) && CallInto(g, c) && ValidWalk(g, v, c.dst) && ValidWalk(g, w, c.dst)
    requires Follows(g, q, WalkEnd(v, c.dst)) && Follows(g, r, WalkEnd(w, c.dst)) && q.kind.IsRet() && r.kind.IsRet()
    requires q.kind.cs == r.kind.cs && q.dst == r.dst
    requires Distinct(LeftTrace(v, q)) && Distinct(LeftTrace(w, r))
    requires Visits(LeftTrace(v, q)) == Visits(LeftTrace(w, r))
    ensures Flatten(v) + [q] == Flatten(w) + [r]
  {
    OneTrace(g, c, v, q, w, r);
    OnePath(g, c.dst, v, q, w, r);
  }

  lemma OneTrace(g: Graph, c: Edge, v: Walk, q: Edge, w: Walk, r: Edge)
    requires ValidGraph(g) && Ordered(g) && CallInto(g, c) && ValidWalk(g, v, c.dst) && ValidWalk(g, w, c.dst)
    requires q.kind.IsRet() && r.kind.IsRet() && q.kind.cs == r.kind.cs && q.dst == r.dst
    requires Distinct(LeftTrace(v, q)) && Distinct(LeftTrace(w, r))
    requires Visits(LeftTrace(v, q)) == Visits(LeftTrace(w, r))
    ensures LeftTrace(v, q) == LeftTrace(w, r)
  {
    var body, rank :| OrderedFrom(g, c.dst, body, rank);
    TraceOfSet(g, c.dst, body, rank, v, q, w, r);
  }

  lemma OnePath(g: Graph, n: NodeId, v: Walk, q: Edge, w: Walk, r: Edge)
    requires ValidGraph(g) && NoParallel(g) && ValidWalk(g, v, n) && ValidWalk(g, w, n)
    requires Follows(g, q, WalkEnd(v, n)) && Follows(g, r, WalkEnd(w, n)) && q.kind.IsRet() && r.kind.IsRet()
    requires q.kind.cs == r.kind.cs && LeftTrace(v, q) == LeftTrace(w, r)
    ensures Flatten(v) + [q] == Flatten(w) + [r]
  {
    LeavingPath(g, n, q.kind.cs, v, q);
    LeavingPath(g, n, q.kind.cs, w, r);
    VisitsTellEdges(g, n, [q.kind.cs], Flatten(v) + [q], Flatten(w) + [r]);
  }

  /** In a graph with ordered functions all schedules that finish record exactly the nodes that a
      walk the rules let through leaves to, whatever the rules make of the flags. */
  lemma OrderedIsExact(g: Graph, one: seq<nat>, two: seq<nat>)
    requires ValidGraph(g) && Ordered(g) && Run(g, one).worklist == [] && Run(g, two).worklist == []
    ensures forall n :: n in Run(g, one).oosNodes <==> LetOutAt(g, CalledIndirectly(g), n, false)
    ensures forall n :: n in Run(g, one).dirOosNodes <==> LetOutAt(g, CalledIndirectly(g), n, true)
    ensures Run(g, one).oosNodes == Run(g, two).oosNodes && Run(g, one).dirOosNodes == Run(g, two).dirOosNodes
  {
    OrderedConfluent(g);
    ForwardPhaseExact(g, one);
    ScheduleIndependent(g, one, two);
  }

  // ---- rules that look at the node only

  /** The rules let items pass node n, whichever other node they come from and whatever their flags. */
  ghost predicate Accepts(g: Graph, n: NodeId) {
    forall p, f :: p != n ==> g.rules(p, n, f).Some?
  }

  ghost predicate Rejects(g: Graph, n: NodeId) {
    forall p, f :: p != n ==> g.rules(p, n, f).None?
  }

  /** The rules decide by the node, except that they may drop an item that stays where it is. No edge
      is a loop, and none leads to the null node. */
  ghost predicate DecidesByNode(g: Graph) {
    && (forall n :: Accepts(g, n) || Rejects(g, n))
    && g.source != 0
    && forall n, e :: n in g.out && e in g.out[n] ==> e.dst != n && e.dst != 0
  }

  lemma CheckedByNode(g: Graph, a: Spot)
    requires DecidesByNode(g) && a.prev != a.cur
    ensures Checked(g, a).Some? <==> Accepts(g, a.cur)
  {
    assert Accepts(g, a.cur) || Rejects(g, a.cur);
  }

  lemma {:induction false} AlongByNode(g: Graph, a: Spot, b: Spot, p: seq<Edge>)
    requires ValidGraph(g) && DecidesByNode(g) && a.cur == b.cur && a.prev != a.cur && b.prev != b.cur
    requires IsPath(g, a.cur, p)
    ensures var all := CalledIndirectly(g);
            var c, d := Along(g, all, a, p), Along(g, all, b, p);
            if c.None? then d.None?
            else && d.Some? && c.value.cur == d.value.cur == EndOf(a.cur, p)
                 && c.value.cur !in {c.value.prev, d.value.prev}
  {
    if p != [] {
      var all, init := CalledIndirectly(g), p[..|p| - 1];
      AlongByNode(g, a, b, init);
      if Along(g, all, a, init).Some? {
        CheckedByNode(g, Along(g, all, a, init).value);
        CheckedByNode(g, Along(g, all, b, init).value);
      }
    }
  }

  lemma AlikeByNode(g: Graph, a: Spot, b: Spot)
    requires ValidGraph(g) && DecidesByNode(g) && a.cur == b.cur && a.prev != a.cur && b.prev != b.cur
    ensures Alike(g, CalledIndirectly(g), a, b)
  {
    var all := CalledIndirectly(g);
    forall p | IsPath(g, a.cur, p) ensures Passes(g, all, a, p) <==> Passes(g, all, b, p) {
      AlongByNode(g, a, b, p);
      if Along(g, all, a, p).Some? {
        CheckedByNode(g, Along(g, all, a, p).value);
        CheckedByNode(g, Along(g, all, b, p).value);
      }
    }
  }

  lemma LeavesBehind(g: Graph, n: NodeId, cs: CallSite, w: Walk, r: Edge, a: Spot)
    requires ValidGraph(g) && DecidesByNode(g) && Leaves(g, n, cs, w, r, a)
    ensures a.cur == r.dst && a.prev != a.cur
  {
    var all := CalledIndirectly(g);
    LeaveIsMove(g, all, n, w, r);
    WalkIsPath(g, w, n);
    AlongEnds(g, all, RootSpot(g, all, n), Flatten(w));
  }

  /** Rules that decide by the node make nothing of flags and schedules. */
  lemma ByNodeConfluent(g: Graph)
    requires ValidGraph(g) && DecidesByNode(g)
    ensures KindsAlike(g) && Confluent(g)
  {
    forall d, e | CallInto(g, d) && CallInto(g, e) && d.dst == e.dst
      ensures Alike(g, CalledIndirectly(g), SpotOf(EntryItem(d)), SpotOf(EntryItem(e)))
    {
      AlikeByNode(g, SpotOf(EntryItem(d)), SpotOf(EntryItem(e)));
    }
    forall c, v, q, a, w, r, b | CallInto(g, c) && Leaves(g, c.dst, c.kind.cs, v, q, a) &&
      Leaves(g, c.dst, c.kind.cs, w, r, b) && q.dst == r.dst && Visits(LeftTrace(v, q)) == Visits(LeftTrace(w, r))
      ensures Alike(g, CalledIndirectly(g), a, b)
    {
      LeavesBehind(g, c.dst, c.kind.cs, v, q, a);
      LeavesBehind(g, c.dst, c.kind.cs, w, r, b);
      AlikeByNode(g, a, b);
    }
  }

  /** All nodes of a path from the local variable are accepted. */
  ghost predicate Clear(g: Graph, p: seq<Edge>) {
    Accepts(g, g.source) && forall e :: e in p ==> Accepts(g, e.dst)
  }

  lemma {:induction false} PassesIfClear(g: Graph, p: seq<Edge>)
    requires ValidGraph(g) && DecidesByNode(g) && IsPath(g, g.source, p)
    ensures Passes(g, CalledIndirectly(g), RootSpot(g, CalledIndirectly(g), g.source), p) <==> Clear(g, p)
  {
    var all := CalledIndirectly(g);
    var a := RootSpot(g, all, g.source);
    AlongByNode(g, a, a, p);
    if p == [] {
      CheckedByNode(g, a);
    } else {
      var init, e := p[..|p| - 1], p[|p| - 1];
      PassesIfClear(g, init);
      assert p == init + [e];
      if Along(g, all, a, p).Some? {
        CheckedByNode(g, Along(g, all, a, p).value);
      }
    }
  }

  ghost predicate ClearOutAt(g: Graph, n: NodeId, direct: bool) {
    exists p, e :: Escapes(g, p, e) && Clear(g, p + [e]) && e.dst == n && e.kind.DirRet? == direct
  }

  lemma ClearIsLetOut(g: Graph, n: NodeId, direct: bool)
    requires ValidGraph(g) && DecidesByNode(g)
    ensures ClearOutAt(g, n, direct) <==> LetOutAt(g, CalledIndirectly(g), n, direct)
  {
    forall p, e | Escapes(g, p, e) ensures Clear(g, p + [e]) <==> LetOut(g, CalledIndirectly(g), p, e) {
      OneEdge(g, EndOf(g.source, p), e);
      PathConcat(g, g.source, p, [e]);
      PassesIfClear(g, p + [e]);
    }
  }

  /** If the rules look at the node only, all schedules that finish record exactly the nodes that a
      walk through accepted nodes leaves to. */
  lemma ByNodeIsExact(g: Graph, one: seq<nat>, two: seq<nat>)
    requires ValidGraph(g) && DecidesByNode(g) && Run(g, one).worklist == [] && Run(g, two).worklist == []
    ensures forall n :: n in Run(g, one).oosNodes <==> ClearOutAt(g, n, false)
    ensures forall n :: n in Run(g, one).dirOosNodes <==> ClearOutAt(g, n, true)
    ensures Run(g, one).oosNodes == Run(g, two).oosNodes && Run(g, one).dirOosNodes == Run(g, two).dirOosNodes
  {
    ByNodeConfluent(g);
    ForwardPhaseExact(g, one);
    ScheduleIndependent(g, one, two);
    forall n, d ensures ClearOutAt(g, n, d) <==> LetOutAt(g, CalledIndirectly(g), n, d) {
      ClearIsLetOut(g, n, d);
    }
  }
}
