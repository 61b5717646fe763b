/** What the statement rules see: an item meets them at a node, with the node it came from and its flags.
    Along a path these are threaded by the rules themselves, start afresh at every call, and come back
    from the callee at every return. */
module UarFlags {
  import opened Options
  import opened Traces
  import opened Svfg
  import opened UarState

  datatype Spot = Spot(prev: NodeId, cur: NodeId, flags: Flags)

  function SpotOf(x: Item): Spot {
    Spot(x.prev, x.cur, x.flags)
  }

  /** The flags with which the rules let an item pass, if they do. */
  function Checked(g: Graph, a: Spot): Option<Flags> {
    match g.rules(a.prev, a.cur, a.flags)
    case None => None
    case Some(f) => Some(f.(directRet := a.flags.directRet))
  }

  /** Where edge e leads an item that passed with flags f; ind are the functions that start with the flags
      of an indirect call. */
  function Arrive(ind: set<NodeId>, at: NodeId, e: Edge, f: Flags): Spot {
    if e.kind.IsCall() then Spot(0, e.dst, EntryFlags(e.dst in ind))
    else if e.kind.IsRet() then Spot(at, e.dst, f.(directRet := e.kind.DirRet?))
    else Spot(at, e.dst, f)
  }

  function Move(g: Graph, ind: set<NodeId>, a: Spot, e: Edge): Option<Spot> {
    match Checked(g, a)
    case None => None
    case Some(f) => Some(Arrive(ind, a.cur, e, f))
  }

  /** The spot at the end of path p, if the rules let an item that starts at spot a pass every node before. */
  function Along(g: Graph, ind: set<NodeId>, a: Spot, p: seq<Edge>): Option<Spot> {
    if p == [] then Some(a) else
      match Along(g, ind, a, p[..|p| - 1])
      case None => None
      case Some(b) => Move(g, ind, b, p[|p| - 1])
  }

  /** The spot at which the exploration of a function, or of the local variable, starts. */
  function RootSpot(g: Graph, ind: set<NodeId>, root: NodeId): Spot {
    Spot(0, root, if root == g.source then NO_FLAGS else EntryFlags(root in ind))
  }

  lemma {:induction false} AlongConcat(g: Graph, ind: set<NodeId>, a: Spot, p: seq<Edge>, q: seq<Edge>)
    ensures Along(g, ind, a, p + q) ==
            (match Along(g, ind, a, p) case None => None case Some(b) => Along(g, ind, b, q))
  {
    if q == [] {
      assert p + q == p;
    } else {
      AlongConcat(g, ind, a, p, q[..|q| - 1]);
      assert (p + q)[..|p + q| - 1] == p + q[..|q| - 1];
    }
  }

  lemma AlongEnds(g: Graph, ind: set<NodeId>, a: Spot, p: seq<Edge>)
    ensures Along(g, ind, a, p).Some? ==> Along(g, ind, a, p).value.cur == EndOf(a.cur, p)
  {
  }

  lemma AlongEdge(g: Graph, ind: set<NodeId>, a: Spot, e: Edge)
    ensures Along(g, ind, a, [e]) == Move(g, ind, a, e)
  {
    assert [e][..0] == [];
    assert Along(g, ind, a, []) == Some(a);
  }

  /** Going through a function: in by call c, along path i, and out by return r. */
  lemma AlongRound(g: Graph, ind: set<NodeId>, a: Spot, b: seq<Edge>, c: Edge, i: seq<Edge>, r: Edge)
    requires c.kind.IsCall() && c.dst != g.source
    ensures Along(g, ind, a, b + [c] + i + [r]) ==
            if Along(g, ind, a, b + [c]).Some? then Along(g, ind, RootSpot(g, ind, c.dst), i + [r]) else None
    ensures Along(g, ind, a, b + [c]).Some? ==> Along(g, ind, a, b).Some? && Checked(g, Along(g, ind, a, b).value).Some?
  {
    AlongConcat(g, ind, a, b, [c]);
    if Along(g, ind, a, b).Some? {
      AlongEdge(g, ind, Along(g, ind, a, b).value, c);
    }
    AlongConcat(g, ind, a, b + [c], i + [r]);
    assert b + [c] + (i + [r]) == b + [c] + i + [r];
  }

  /** The rules let an item that starts at spot a pass every node of path p, the last one included. */
  ghost predicate Passes(g: Graph, ind: set<NodeId>, a: Spot, p: seq<Edge>) {
    match Along(g, ind, a, p)
    case None => false
    case Some(b) => Checked(g, b).Some?
  }

  /** No path tells the two spots apart. */
  ghost predicate Alike(g: Graph, ind: set<NodeId>, a: Spot, b: Spot) {
    a.cur == b.cur && forall p :: IsPath(g, a.cur, p) ==> (Passes(g, ind, a, p) <==> Passes(g, ind, b, p))
  }

  lemma AlikeChecks(g: Graph, ind: set<NodeId>, a: Spot, b: Spot)
    requires Alike(g, ind, a, b)
    ensures Checked(g, a).Some? <==> Checked(g, b).Some?
  {
    assert IsPath(g, a.cur, []);
    assert Passes(g, ind, a, []) <==> Passes(g, ind, b, []);
  }

  lemma AlikeTrans(g: Graph, ind: set<NodeId>, a: Spot, b: Spot, c: Spot)
    requires Alike(g, ind, a, b) && Alike(g, ind, b, c)
    ensures Alike(g, ind, a, c)
  {
    forall p | IsPath(g, a.cur, p) ensures Passes(g, ind, a, p) <==> Passes(g, ind, c, p) {
      assert Passes(g, ind, a, p) <==> Passes(g, ind, b, p);
    }
  }

  lemma PassesOn(g: Graph, ind: set<NodeId>, a: Spot, e: Edge, p: seq<Edge>)
    requires Checked(g, a).Some?
    ensures Passes(g, ind, a, [e] + p) <==> Passes(g, ind, Move(g, ind, a, e).value, p)
  {
    AlongConcat(g, ind, a, [e], p);
    AlongEdge(g, ind, a, e);
  }

  /** Spots that are alike stay so along an edge. */
  lemma AlikeMoves(g: Graph, ind: set<NodeId>, a: Spot, b: Spot, e: Edge)
    requires Alike(g, ind, a, b) && Follows(g, e, a.cur) && (e.kind.IsCall() ==> Entered(g, e))
    requires Checked(g, a).Some?
    ensures Checked(g, b).Some? && Alike(g, ind, Move(g, ind, a, e).value, Move(g, ind, b, e).value)
  {
    AlikeChecks(g, ind, a, b);
    OneEdge(g, a.cur, e);
    var c, d := Move(g, ind, a, e).value, Move(g, ind, b, e).value;
    forall p | IsPath(g, e.dst, p) ensures Passes(g, ind, c, p) <==> Passes(g, ind, d, p) {
      PathConcat(g, a.cur, [e], p);
      assert Passes(g, ind, a, [e] + p) <==> Passes(g, ind, b, [e] + p);
      PassesOn(g, ind, a, e, p);
      PassesOn(g, ind, b, e, p);
    }
  }

  lemma SameChecks(g: Graph, x: Item)
    ensures ForwardChecks(g, x) ==
            (match Checked(g, SpotOf(x)) case None => None case Some(f) => Some(x.(flags := f)))
  {
  }

  // ---- how functions were started

  /** Edge e calls a function that is explored. */
  ghost predicate CallInto(g: Graph, e: Edge) {
    Follows(g, e, e.src) && Entered(g, e)
  }

  /** Every function that calls lead into starts as for one of them. */
  ghost predicate Legit(g: Graph, ind: set<NodeId>) {
    forall e :: CallInto(g, e) ==> StartedAs(g, e.dst, e.dst in ind)
  }

  ghost predicate StartedAs(g: Graph, n: NodeId, indirect: bool) {
    exists e :: CallInto(g, e) && e.dst == n && e.kind.IndCall? == indirect
  }

  /** State s started its functions as ind says. */
  ghost predicate Agrees(ind: set<NodeId>, s: State) {
    forall n :: n in s.started ==> (n in s.indirect <==> n in ind)
  }

  ghost predicate StartsLegit(g: Graph, s: State) {
    s.indirect <= s.started && forall n :: n in s.started ==> StartedAs(g, n, n in s.indirect)
  }

  ghost function CalledIndirectly(g: Graph): set<NodeId> {
    set n | n in g.out && StartedAs(g, n, true)
  }

  /** How the run that led to s started its functions, and any other function could be. */
  ghost function Starts(g: Graph, s: State): set<NodeId> {
    set n | n in g.out && if n in s.started then n in s.indirect else n in CalledIndirectly(g)
  }

  /** Called directly or indirectly, a function lets through the same. */
  ghost predicate KindsAlike(g: Graph) {
    forall d, e :: CallInto(g, d) && CallInto(g, e) && d.dst == e.dst ==>
      Alike(g, CalledIndirectly(g), SpotOf(EntryItem(d)), SpotOf(EntryItem(e)))
  }

  lemma IndirectlyLegit(g: Graph)
    requires ValidGraph(g)
    ensures Legit(g, CalledIndirectly(g))
  {
    forall e | CallInto(g, e) ensures StartedAs(g, e.dst, e.dst in CalledIndirectly(g)) {
      assert GoodEdge(g, e);
    }
  }

  lemma RootsAlike(g: Graph, ind: set<NodeId>, e: Edge)
    requires ValidGraph(g) && KindsAlike(g) && Legit(g, ind) && CallInto(g, e)
    ensures Alike(g, CalledIndirectly(g), RootSpot(g, ind, e.dst), RootSpot(g, CalledIndirectly(g), e.dst))
  {
    var all := CalledIndirectly(g);
    IndirectlyLegit(g);
    assert StartedAs(g, e.dst, e.dst in ind) && StartedAs(g, e.dst, e.dst in all) && GoodEdge(g, e);
    var c :| CallInto(g, c) && c.dst == e.dst && c.kind.IndCall? == (e.dst in ind);
    var d :| CallInto(g, d) && d.dst == e.dst && d.kind.IndCall? == (e.dst in all);
    assert SpotOf(EntryItem(c)) == RootSpot(g, ind, e.dst) && SpotOf(EntryItem(d)) == RootSpot(g, all, e.dst);
  }

  /** However its functions were started, a path comes to a spot that is alike. */
  lemma {:induction false} AlongAlike(g: Graph, ind: set<NodeId>, a: Spot, b: Spot, p: seq<Edge>)
    requires ValidGraph(g) && KindsAlike(g) && Legit(g, ind) && Alike(g, CalledIndirectly(g), a, b)
    requires IsPath(g, a.cur, p) && Along(g, ind, a, p).Some?
    ensures Along(g, CalledIndirectly(g), b, p).Some?
    ensures Alike(g, CalledIndirectly(g), Along(g, ind, a, p).value, Along(g, CalledIndirectly(g), b, p).value)
  {
    if p != [] {
      var all, init, e := CalledIndirectly(g), p[..|p| - 1], p[|p| - 1];
      AlongAlike(g, ind, a, b, init);
      AlongEnds(g, ind, a, init);
      var m, n := Along(g, ind, a, init).value, Along(g, all, b, init).value;
      AlikeMoves(g, all, m, n, e);
      if e.kind.IsCall() {
        assert CallInto(g, e) && GoodEdge(g, e);
        RootsAlike(g, ind, e);
        AlikeTrans(g, all, Move(g, ind, m, e).value, Move(g, all, m, e).value, Move(g, all, n, e).value);
      }
    }
  }

  lemma StartsAgree(g: Graph, s: State)
    requires ValidGraph(g) && StartsLegit(g, s)
    ensures Agrees(Starts(g, s), s) && Legit(g, Starts(g, s))
  {
    forall n | n in s.started ensures n in s.indirect <==> n in Starts(g, s) {
      var e :| CallInto(g, e) && e.dst == n && e.kind.IndCall? == (n in s.indirect);
      assert GoodEdge(g, e);
    }
    forall e | CallInto(g, e) ensures StartedAs(g, e.dst, e.dst in Starts(g, s)) {
      assert GoodEdge(g, e);
      if e.dst !in s.started && e.dst !in CalledIndirectly(g) {
        assert !e.kind.IndCall?;
      }
    }
  }

  lemma EdgeStarts(g: Graph, s: State, x: Item, e: Edge)
    requires ValidGraph(g) && Follows(g, e, x.cur)
    ensures StartsLegit(g, s) ==> StartsLegit(g, ForwardPropagate(g, s, x, e))
    ensures forall ind :: Agrees(ind, ForwardPropagate(g, s, x, e)) ==> Agrees(ind, s)
  {
    if e.kind.IsCall() && Enters(g, x, e) {
      assert CallInto(g, e);
      var t := ForwardPropagate(g, s, x, e);
      if StartsLegit(g, s) {
        forall n | n in t.started ensures StartedAs(g, n, n in t.indirect) {
          if n in s.started {
            assert StartedAs(g, n, n in s.indirect);
          }
        }
      }
    }
  }
}
