/** The sparse value-flow graph the analysis walks, and what a realisable walk through it is. */
module Svfg {
  import opened Traces
  import opened Options

  datatype EdgeKind =
    | Intra
    | DirCall(cs: CallSite)
    | IndCall(cs: CallSite)
    | DirRet(cs: CallSite)
    | IndRet(cs: CallSite)
  {
    predicate IsCall() { DirCall? || IndCall? }
    predicate IsRet() { DirRet? || IndRet? }
  }

  datatype Edge = Edge(src: NodeId, dst: NodeId, kind: EdgeKind)

  datatype Flags = Flags(firstAsgnm: bool, deref: bool, directRet: bool)

  /** The graph, the local variable the analysis starts from, the entries of the functions taken as
      sinks, and the statement rules: a filter that may drop an item or change its flags, given the
      previous node and the current node. */
  datatype Graph = Graph(out: map<NodeId, seq<Edge>>,
                         source: NodeId,
                         sinks: set<NodeId>,
                         rules: (NodeId, NodeId, Flags) -> Option<Flags>)

  ghost predicate GoodEdge(g: Graph, e: Edge) {
    && e.dst in g.out
    && (!e.kind.Intra? ==> e.kind.cs != 0)
    && (e.kind.IsCall() ==> e.dst != g.source)
  }

  /** Call sites are numbered from 1, edges stay inside the graph, and a local variable is not the
      entry of a function. */
  ghost predicate ValidGraph(g: Graph) {
    && g.source in g.out
    && forall n, e :: n in g.out && e in g.out[n] ==> e.src == n && GoodEdge(g, e)
  }

  predicate Entered(g: Graph, e: Edge) {
    e.kind.IsCall() && e.dst !in g.sinks
  }

  predicate Follows(g: Graph, e: Edge, at: NodeId) {
    at in g.out && e in g.out[at]
  }

  // ---- the reference definition: a flat path of edges with a stack of open calls

  function EndOf(from: NodeId, p: seq<Edge>): NodeId {
    if p == [] then from else p[|p| - 1].dst
  }

  /** Every edge leaves the node the one before it reached, and no sink is entered. */
  ghost predicate IsPath(g: Graph, from: NodeId, p: seq<Edge>) {
    p == [] || (var init, e := p[..|p| - 1], p[|p| - 1];
                IsPath(g, from, init) && Follows(g, e, EndOf(from, init)) && (e.kind.IsCall() ==> Entered(g, e)))
  }

  /** A call opens; a return closes the call opened last and must come back through its call site. */
  function StackStep(st: seq<CallSite>, k: EdgeKind): Option<seq<CallSite>> {
    if k.Intra? then Some(st)
    else if k.IsCall() then Some(st + [k.cs])
    else if st != [] && st[|st| - 1] == k.cs then Some(st[..|st| - 1])
    else None
  }

  /** The open calls after path p, or None if a return did not match. */
  function Stack(st: seq<CallSite>, p: seq<Edge>): Option<seq<CallSite>> {
    if p == [] then Some(st)
    else
      var before := Stack(st, p[..|p| - 1]);
      if before.None? then None else StackStep(before.value, p[|p| - 1].kind)
  }

  function Top(st: seq<CallSite>): CallSite {
    if st == [] then 0 else st[|st| - 1]
  }

  /** The nodes path p reaches, each with the innermost call that is open there. */
  function PathVisits(st: seq<CallSite>, p: seq<Edge>): seq<Visit>
    requires Stack(st, p).Some?
  {
    if p == [] then []
    else PathVisits(st, p[..|p| - 1]) + [Visit(Top(Stack(st, p).value), p[|p| - 1].dst)]
  }

  // ---- the shape the engine builds: balanced walks as trees

  datatype Walk =
    | Start
    | Hop(before: Walk, edge: Edge)
    | Round(before: Walk, call: Edge, inner: Walk, ret: Edge)

  function WalkEnd(w: Walk, from: NodeId): NodeId {
    match w
    case Start => from
    case Hop(_, e) => e.dst
    case Round(_, _, _, r) => r.dst
  }

  ghost predicate ValidWalk(g: Graph, w: Walk, from: NodeId) {
    match w
    case Start => from in g.out
    case Hop(b, e) => ValidWalk(g, b, from) && Follows(g, e, WalkEnd(b, from)) && e.kind.Intra?
    case Round(b, c, i, r) =>
      && ValidWalk(g, b, from)
      && Follows(g, c, WalkEnd(b, from)) && Entered(g, c)
      && ValidWalk(g, i, c.dst)
      && Follows(g, r, WalkEnd(i, c.dst)) && r.kind.IsRet() && r.kind.cs == c.kind.cs
  }

  /** The visits of a walk, seen from its own frame: context 0 is the frame itself. */
  function WalkVisits(w: Walk): seq<Visit> {
    match w
    case Start => []
    case Hop(b, e) => WalkVisits(b) + [Visit(0, e.dst)]
    case Round(b, c, i, r) =>
      if c.kind.Intra? then []
      else WalkVisits(b) + [Visit(c.kind.cs, c.dst)] + Rename(WalkVisits(i), c.kind.cs) + [Visit(0, r.dst)]
  }

  function Flatten(w: Walk): seq<Edge> {
    match w
    case Start => []
    case Hop(b, e) => Flatten(b) + [e]
    case Round(b, c, i, r) => Flatten(b) + [c] + Flatten(i) + [r]
  }

  // ---- trees are paths

  lemma StackConcat(st: seq<CallSite>, p: seq<Edge>, q: seq<Edge>)
    requires Stack(st, p).Some?
    ensures Stack(st, p + q) == Stack(Stack(st, p).value, q)
    ensures Stack(st, p + q).Some? ==>
              PathVisits(st, p + q) == PathVisits(st, p) + PathVisits(Stack(st, p).value, q)
  {
    if q == [] {
      assert p + q == p;
    } else {
      var r := q[..|q| - 1];
      StackConcat(st, p, r);
      assert (p + q)[..|p + q| - 1] == p + r;
    }
  }

  lemma PathConcat(g: Graph, from: NodeId, p: seq<Edge>, q: seq<Edge>)
    requires IsPath(g, from, p) && IsPath(g, EndOf(from, p), q)
    ensures IsPath(g, from, p + q) && EndOf(from, p + q) == EndOf(EndOf(from, p), q)
  {
    if q == [] {
      assert p + q == p;
    } else {
      PathConcat(g, from, p, q[..|q| - 1]);
      assert (p + q)[..|p + q| - 1] == p + q[..|q| - 1];
    }
  }

  lemma OneEdge(g: Graph, from: NodeId, e: Edge)
    requires Follows(g, e, from) && (e.kind.IsCall() ==> Entered(g, e))
    ensures IsPath(g, from, [e]) && EndOf(from, [e]) == e.dst
  {
    assert [e][..0] == [] && IsPath(g, from, []) && EndOf(from, []) == from;
  }

  lemma OneStep(st: seq<CallSite>, e: Edge)
    ensures Stack(st, [e]) == StackStep(st, e.kind)
    ensures Stack(st, [e]).Some? ==> PathVisits(st, [e]) == [Visit(Top(Stack(st, [e]).value), e.dst)]
  {
    assert [e][..0] == [];
    assert Stack(st, []) == Some(st);
  }

  /** A walk is a path of the graph that ends where the walk does. */
  lemma {:induction false} WalkIsPath(g: Graph, w: Walk, from: NodeId)
    requires ValidWalk(g, w, from)
    ensures IsPath(g, from, Flatten(w)) && EndOf(from, Flatten(w)) == WalkEnd(w, from)
  {
    match w
    case Start =>
    case Hop(b, e) =>
      WalkIsPath(g, b, from);
      OneEdge(g, WalkEnd(b, from), e);
      PathConcat(g, from, Flatten(b), [e]);
    case Round(b, c, i, r) =>
      WalkIsPath(g, b, from);
      WalkIsPath(g, i, c.dst);
      OneEdge(g, WalkEnd(b, from), c);
      OneEdge(g, WalkEnd(i, c.dst), r);
      PathConcat(g, from, Flatten(b), [c]);
      PathConcat(g, from, Flatten(b) + [c], Flatten(i));
      PathConcat(g, from, Flatten(b) + [c] + Flatten(i), [r]);
  }

  lemma BracketIsBalanced(st: seq<CallSite>, c: Edge, inner: seq<Edge>, r: Edge)
    requires c.kind.IsCall() && r.kind.IsRet() && r.kind.cs == c.kind.cs
    requires Stack(st + [c.kind.cs], inner) == Some(st + [c.kind.cs])
    ensures Stack(st, [c] + inner + [r]) == Some(st)
    ensures PathVisits(st, [c] + inner + [r]) ==
            [Visit(c.kind.cs, c.dst)] + PathVisits(st + [c.kind.cs], inner) + [Visit(Top(st), r.dst)]
  {
    var inside := st + [c.kind.cs];
    assert inside[..|inside| - 1] == st;
    OneStep(st, c);
    StackConcat(st, [c], inner);
    OneStep(inside, r);
    StackConcat(st, [c] + inner, [r]);
  }

  lemma RoundVisits(b: Walk, c: Edge, i: Walk, r: Edge, d: CallSite)
    requires c.kind.IsCall() && c.kind.cs != 0
    ensures Rename(WalkVisits(Round(b, c, i, r)), d) ==
            Rename(WalkVisits(b), d)
              + ([Visit(c.kind.cs, c.dst)] + Rename(WalkVisits(i), c.kind.cs) + [Visit(d, r.dst)])
  {
    var cs := c.kind.cs;
    var mid := Rename(WalkVisits(i), cs);
    assert WalkVisits(Round(b, c, i, r)) == WalkVisits(b) + ([Visit(cs, c.dst)] + mid + [Visit(0, r.dst)]);
    RenameConcat(WalkVisits(b), [Visit(cs, c.dst)] + mid + [Visit(0, r.dst)], d);
    RenameConcat([Visit(cs, c.dst)] + mid, [Visit(0, r.dst)], d);
    RenameConcat([Visit(cs, c.dst)], mid, d);
    RenameTwice(WalkVisits(i), cs, d);
    assert Rename([Visit(0, r.dst)], d) == [Visit(d, r.dst)];
    assert Rename([Visit(cs, c.dst)], d) == [Visit(cs, c.dst)];
  }

  ghost predicate BalancedFrom(w: Walk, st: seq<CallSite>) {
    Stack(st, Flatten(w)) == Some(st) && PathVisits(st, Flatten(w)) == Rename(WalkVisits(w), Top(st))
  }

  lemma RoundIsBalanced(b: Walk, c: Edge, i: Walk, r: Edge, st: seq<CallSite>)
    requires c.kind.IsCall() && c.kind.cs != 0 && r.kind.IsRet() && r.kind.cs == c.kind.cs
    requires BalancedFrom(b, st) && BalancedFrom(i, st + [c.kind.cs])
    ensures BalancedFrom(Round(b, c, i, r), st)
  {
    var bracket := [c] + Flatten(i) + [r];
    BracketIsBalanced(st, c, Flatten(i), r);
    StackConcat(st, Flatten(b), bracket);
    RoundVisits(b, c, i, r, Top(st));
    FlatRound(b, c, i, r);
  }

  lemma FlatRound(b: Walk, c: Edge, i: Walk, r: Edge)
    ensures Flatten(Round(b, c, i, r)) == Flatten(b) + ([c] + Flatten(i) + [r])
  {
  }

  /** Started below any open calls, a walk leaves them as they were, and its visits are those of its
      own frame with the innermost open call in place of the unknown context. */
  lemma {:induction false} WalkIsBalanced(g: Graph, w: Walk, from: NodeId, st: seq<CallSite>)
    requires ValidGraph(g) && ValidWalk(g, w, from)
    ensures BalancedFrom(w, st)
  {
    match w
    case Start =>
    case Hop(b, e) =>
      WalkIsBalanced(g, b, from, st);
      OneStep(st, e);
      StackConcat(st, Flatten(b), [e]);
      RenameConcat(WalkVisits(b), [Visit(0, e.dst)], Top(st));
    case Round(b, c, i, r) =>
      assert GoodEdge(g, c);
      WalkIsBalanced(g, b, from, st);
      WalkIsBalanced(g, i, c.dst, st + [c.kind.cs]);
      RoundIsBalanced(b, c, i, r, st);
  }

  // ---- paths are trees

  /** A path with open calls: one balanced walk per frame. */
  datatype Frames =
    | Base(walk: Walk)
    | Frame(below: Frames, call: Edge, walk: Walk)

  function FrameStart(f: Frames, from: NodeId): NodeId {
    if f.Base? then from else f.call.dst
  }

  function FramesEnd(f: Frames, from: NodeId): NodeId {
    WalkEnd(f.walk, FrameStart(f, from))
  }

  ghost predicate ValidFrames(g: Graph, f: Frames, from: NodeId) {
    && ValidWalk(g, f.walk, FrameStart(f, from))
    && (f.Frame? ==>
          ValidFrames(g, f.below, from) && Follows(g, f.call, FramesEnd(f.below, from)) && Entered(g, f.call))
  }

  function FramesStack(f: Frames): seq<CallSite> {
    if f.Base? || f.call.kind.Intra? then [] else FramesStack(f.below) + [f.call.kind.cs]
  }

  function FramesVisits(f: Frames): seq<Visit> {
    if f.Base? || f.call.kind.Intra? then WalkVisits(f.walk)
    else FramesVisits(f.below) + [Visit(f.call.kind.cs, f.call.dst)] + Rename(WalkVisits(f.walk), f.call.kind.cs)
  }

  function FramesPath(f: Frames): seq<Edge> {
    if f.Base? then Flatten(f.walk) else FramesPath(f.below) + [f.call] + Flatten(f.walk)
  }

  function WithWalk(f: Frames, w: Walk): Frames {
    if f.Base? then Base(w) else Frame(f.below, f.call, w)
  }

  lemma RenameZero(t: seq<Visit>)
    ensures Rename(t, 0) == t
  {
  }

  /** Every path whose returns match is a stack of balanced walks. */
  lemma {:induction false} Parse(g: Graph, from: NodeId, p: seq<Edge>) returns (f: Frames)
    requires ValidGraph(g) && from in g.out && IsPath(g, from, p) && Stack([], p).Some?
    ensures ValidFrames(g, f, from) && FramesEnd(f, from) == EndOf(from, p)
    ensures FramesStack(f) == Stack([], p).value && FramesVisits(f) == PathVisits([], p) && FramesPath(f) == p
    decreases |p|
  {
    if p == [] {
      return Base(Start);
    }
    var h := Parse(g, from, p[..|p| - 1]);
    f := ParseEdge(g, from, h, p[|p| - 1]);
    assert p == p[..|p| - 1] + [p[|p| - 1]];
  }

  /** One more edge at the end of a stack of balanced walks. */
  lemma ParseEdge(g: Graph, from: NodeId, h: Frames, e: Edge) returns (f: Frames)
    requires ValidGraph(g) && ValidFrames(g, h, from) && Follows(g, e, FramesEnd(h, from))
    requires (e.kind.IsCall() ==> Entered(g, e)) && StackStep(FramesStack(h), e.kind).Some?
    ensures ValidFrames(g, f, from) && FramesEnd(f, from) == e.dst
    ensures StackStep(FramesStack(h), e.kind) == Some(FramesStack(f))
    ensures FramesVisits(f) == FramesVisits(h) + [Visit(Top(FramesStack(f)), e.dst)]
    ensures FramesPath(f) == FramesPath(h) + [e]
  {
    assert GoodEdge(g, e);
    match e.kind
    case Intra =>
      f := WithWalk(h, Hop(h.walk, e));
      if h.Frame? {
        assert GoodEdge(g, h.call);
        RenameConcat(WalkVisits(h.walk), [Visit(0, e.dst)], h.call.kind.cs);
      }
    case DirCall(_) => f := Frame(h, e, Start);
    case IndCall(_) => f := Frame(h, e, Start);
    case _ => f := CloseFrame(g, h, e, from);
  }

  lemma CloseFrame(g: Graph, h: Frames, e: Edge, from: NodeId) returns (f: Frames)
    requires ValidGraph(g) && ValidFrames(g, h, from) && Follows(g, e, FramesEnd(h, from)) && e.kind.IsRet()
    requires StackStep(FramesStack(h), e.kind).Some?
    ensures ValidFrames(g, f, from) && FramesEnd(f, from) == e.dst
    ensures StackStep(FramesStack(h), e.kind) == Some(FramesStack(f))
    ensures FramesVisits(f) == FramesVisits(h) + [Visit(Top(FramesStack(f)), e.dst)]
    ensures FramesPath(f) == FramesPath(h) + [e]
  {
    assert h.Frame? && GoodEdge(g, h.call);
    if h.below.Frame? {
      assert GoodEdge(g, h.below.call);
    }
    f := WithWalk(h.below, Round(h.below.walk, h.call, h.walk, e));
    CloseCall(h.below, h.call, h.walk, e);
    ClosePath(h.below, h.call, h.walk, e);
  }

  lemma ClosePath(b: Frames, c: Edge, w: Walk, e: Edge)
    ensures FramesPath(WithWalk(b, Round(b.walk, c, w, e))) == FramesPath(Frame(b, c, w)) + [e]
  {
    FlatRound(b.walk, c, w, e);
  }

  lemma CloseCall(b: Frames, c: Edge, w: Walk, e: Edge)
    requires c.kind.IsCall() && c.kind.cs != 0 && e.kind.IsRet() && (b.Frame? ==> b.call.kind.IsCall())
    ensures var f := WithWalk(b, Round(b.walk, c, w, e));
            && FramesStack(f) == FramesStack(b)
            && FramesVisits(f) == FramesVisits(Frame(b, c, w)) + [Visit(Top(FramesStack(b)), e.dst)]
  {
    if b.Frame? {
      RoundVisits(b.walk, c, w, e, b.call.kind.cs);
    }
  }
}
