/** Variants of the graph: without the loop in the function the schedule does not matter; with nothing to find
    it does not either, although returns that are the same to the store are not alike. */
module UarVariants {
  import opened Options
  import opened Traces
  import opened Svfg
  import opened UarState
  import opened UarFlags
  import opened UarSound
  import opened UarExact
  import opened UarSettled
  import opened UarRaceSteps

  // ---- without the loop

  /** The same graph without the way back from EXIT and LOAD2. */
  function CutOut(n: NodeId): seq<Edge> {
    if n == EXIT then [Edge(EXIT, BACK, IndRet(1))]
    else if n == LOAD2 then [Edge(LOAD2, EXIT, Intra)]
    else Out(n)
  }

  const CUT: Graph := GRAPH.(out := map n: NodeId | 1 <= n <= 16 :: CutOut(n))

  const CALLEE: set<NodeId> := {ENTRY, EXIT, LOAD1, LOAD2, STORE}

  function Place(v: Visit): nat {
    if v.node == ENTRY then 0 else if v.node == LOAD1 then 1 else if v.node == STORE then 2
    else if v.node == LOAD2 then 3 else 4
  }

  lemma CalleeHasOrder()
    ensures OrderedFrom(CUT, ENTRY, CALLEE, Place)
  {
    forall e: Edge | Follows(CUT, e, e.src) && e.src in CALLEE
      ensures Stays(CUT, CALLEE, e) && (e.dst in CALLEE ==> forall c :: Climbs(Place, e, c))
    {
      assert e in CutOut(e.src);
      forall c | CallInto(CUT, c) ensures c.src == CALL {
        assert c in CutOut(c.src);
      }
    }
  }

  lemma CutIsValid()
    ensures ValidGraph(CUT)
  {
    forall n, e | n in CUT.out && e in CUT.out[n] ensures e.src == n && GoodEdge(CUT, e) {
      assert e in CutOut(n);
    }
  }

  lemma CutHasNoParallel()
    ensures NoParallel(CUT)
  {
    forall d: Edge, e: Edge | Follows(CUT, d, d.src) && Follows(CUT, e, d.src) && d.dst == e.dst ensures d == e {
      assert d in CutOut(d.src) && e in CutOut(d.src);
    }
  }

  lemma CutHasOneCall(c: Edge)
    requires CallInto(CUT, c)
    ensures c == Edge(CALL, ENTRY, IndCall(1))
  {
    assert c in CutOut(c.src);
  }

  /** There the called function has an order, with its stores and loads, and so no schedule makes a difference. */
  lemma CutIsOrdered()
    ensures ValidGraph(CUT) && Ordered(CUT)
  {
    CutIsValid();
    CutHasNoParallel();
    CalleeHasOrder();
    forall c | CallInto(CUT, c) ensures c == Edge(CALL, ENTRY, IndCall(1)) {
      CutHasOneCall(c);
    }
  }

  // ---- with nothing to find

  /** The same graph, but the way to OUTSIDE stays in the frame of the local variable. */
  function CalmOut(n: NodeId): seq<Edge> {
    if n == BACK then [Edge(BACK, CALL, Intra), Edge(BACK, OUTSIDE, Intra)] else Out(n)
  }

  const CALM: Graph := GRAPH.(out := map n: NodeId | 1 <= n <= 16 :: CalmOut(n))

  lemma CalmIsValid()
    ensures ValidGraph(CALM)
  {
    forall n, e | n in CALM.out && e in CALM.out[n] ensures e.src == n && GoodEdge(CALM, e) {
      assert e in CalmOut(n);
    }
  }

  /** Edges stay inside the function or outside it, but for the one call and its returns. */
  lemma CalmEdge(e: Edge)
    requires e in CalmOut(e.src)
    ensures e.kind.Intra? ==> (e.src in CALLEE <==> e.dst in CALLEE)
    ensures e.kind.IsCall() ==> e.kind.cs == 1 && e.src !in CALLEE && e.dst in CALLEE
    ensures e.kind.IsRet() ==> e.kind.cs == 1 && e.src in CALLEE && e.dst !in CALLEE
  {
  }

  lemma CalmFollows(e: Edge)
    requires 1 <= e.src <= 16 && e in CalmOut(e.src)
    ensures Follows(CALM, e, e.src)
  {
  }

  lemma {:induction false} OpenThere(st: seq<CallSite>, e: Edge)
    requires e in CalmOut(e.src) && st == (if e.src in CALLEE then [1] else [])
    ensures StackStep(st, e.kind) == Some(if e.dst in CALLEE then [1] else [])
  {
    CalmEdge(e);
    var open: seq<CallSite> := [1];
    assert open[..0] == [] && [] + open == open;
  }

  /** Inside the function exactly its call is open, elsewhere none. */
  lemma {:induction false} WhereItIs(p: seq<Edge>)
    requires IsPath(CALM, LOCAL, p) && Stack([], p).Some?
    ensures if EndOf(LOCAL, p) in CALLEE then Stack([], p) == Some([1]) else Stack([], p) == Some([])
  {
    if p != [] {
      var init, e := p[..|p| - 1], p[|p| - 1];
      WhereItIs(init);
      var at := EndOf(LOCAL, init);
      assert at in CALM.out && e in CalmOut(at);
      CalmIsValid();
      assert e.src == at;
      OpenThere(Stack([], init).value, e);
    }
  }

  lemma NothingEscapes(p: seq<Edge>, e: Edge)
    ensures !Escapes(CALM, p, e)
  {
    if Escapes(CALM, p, e) {
      WhereItIs(p);
      assert e in CalmOut(EndOf(LOCAL, p));
    }
  }

  lemma NothingRecorded(picks: seq<nat>)
    ensures Run(CALM, picks).oosNodes == {} && Run(CALM, picks).dirOosNodes == {}
  {
    CalmIsValid();
    OnlyEscapes(CALM, picks);
    forall n, d, ind ensures !LetOutAt(CALM, ind, n, d) {
      NothingIsLetOut(ind, n, d);
    }
  }

  lemma NothingIsLetOut(ind: set<NodeId>, n: NodeId, direct: bool)
    ensures !LetOutAt(CALM, ind, n, direct)
  {
    forall p, e ensures !Escapes(CALM, p, e) {
      NothingEscapes(p, e);
    }
  }

  // ---- the two ways through the function are not alike all the same

  const GOOD2: Walk := Hop(Hop(Start, Edge(ENTRY, LOAD1, Intra)), Edge(LOAD1, STORE, Intra))
  const GOOD: Walk := Hop(Hop(GOOD2, Edge(STORE, LOAD2, Intra)), Edge(LOAD2, EXIT, Intra))
  const BAD2: Walk := Hop(Hop(Start, Edge(ENTRY, EXIT, Intra)), Edge(EXIT, LOAD2, Intra))
  const BAD: Walk := Hop(Hop(BAD2, Edge(LOAD2, LOAD1, Intra)), Edge(LOAD1, STORE, Intra))

  ghost function All(): set<NodeId> {
    CalledIndirectly(CALM)
  }

  /** Walk w through the function is let through and comes to spot a. */
  ghost predicate ComesTo(w: Walk, a: Spot) {
    forall v :: v == w ==>
      ValidWalk(CALM, v, ENTRY) && a.cur == WalkEnd(v, ENTRY) && WalkSpot(CALM, All(), ENTRY, v) == Some(a)
  }

  /** It goes on over an edge that the rules let it take. */
  lemma HopsOn(w: Walk, a: Spot, e: Edge, f: Flags)
    requires ComesTo(w, a) && e.src == a.cur && 1 <= a.cur <= 16 && e in CalmOut(a.cur) && e.kind.Intra?
    requires Rules(a.prev, a.cur, a.flags) == Some(f) && f.directRet == a.flags.directRet
    ensures ComesTo(Hop(w, e), Spot(a.cur, e.dst, f))
  {
    CalmFollows(e);
    assert ValidWalk(CALM, w, ENTRY);
    HopFacts(w, a, e, f);
  }

  lemma HopFacts(w: Walk, a: Spot, e: Edge, f: Flags)
    requires ValidWalk(CALM, w, ENTRY) && a.cur == WalkEnd(w, ENTRY) && WalkSpot(CALM, All(), ENTRY, w) == Some(a)
    requires Follows(CALM, e, a.cur) && e.kind.Intra?
    requires Rules(a.prev, a.cur, a.flags) == Some(f) && f.directRet == a.flags.directRet
    ensures ValidWalk(CALM, Hop(w, e), ENTRY) && WalkEnd(Hop(w, e), ENTRY) == e.dst
    ensures WalkSpot(CALM, All(), ENTRY, Hop(w, e)) == Some(Spot(a.cur, e.dst, f))
  {
    HopIsMove(w, e, a, f);
  }

  lemma HopIsMove(w: Walk, e: Edge, a: Spot, f: Flags)
    requires WalkSpot(CALM, All(), ENTRY, w) == Some(a) && !e.kind.IsCall()
    requires Rules(a.prev, a.cur, a.flags) == Some(f) && f.directRet == a.flags.directRet
    ensures LeaveSpot(CALM, All(), ENTRY, w, e) == Some(Arrive(All(), a.cur, e, f))
  {
    LeaveIsMove(CALM, All(), ENTRY, w, e);
    assert Checked(CALM, a) == Some(f);
  }

  lemma EntrySpot()
    ensures ComesTo(Start, Spot(0, ENTRY, USED)) && CallInto(CALM, Edge(CALL, ENTRY, IndCall(1)))
  {
    var c := Edge(CALL, ENTRY, IndCall(1));
    assert c in CalmOut(CALL) && CallInto(CALM, c);
    assert ENTRY in CALM.out && StartedAs(CALM, ENTRY, true);
    assert Along(CALM, All(), RootSpot(CALM, All(), ENTRY), []) == Some(RootSpot(CALM, All(), ENTRY));
    assert WalkEnd(Start, ENTRY) == ENTRY;
  }

  lemma GoodSpot()
    ensures ComesTo(GOOD, Spot(LOAD2, EXIT, DEREF))
  {
    EntrySpot();
    HopsOn(Start, Spot(0, ENTRY, USED), Edge(ENTRY, LOAD1, Intra), USED);
    HopsOn(Hop(Start, Edge(ENTRY, LOAD1, Intra)), Spot(ENTRY, LOAD1, USED), Edge(LOAD1, STORE, Intra), DEREF);
    HopsOn(GOOD2, Spot(LOAD1, STORE, DEREF), Edge(STORE, LOAD2, Intra), USED);
    HopsOn(Hop(GOOD2, Edge(STORE, LOAD2, Intra)), Spot(STORE, LOAD2, USED), Edge(LOAD2, EXIT, Intra), DEREF);
  }

  lemma BadSpot()
    ensures ComesTo(BAD, Spot(LOAD1, STORE, DEREF))
  {
    EntrySpot();
    HopsOn(Start, Spot(0, ENTRY, USED), Edge(ENTRY, EXIT, Intra), USED);
    HopsOn(Hop(Start, Edge(ENTRY, EXIT, Intra)), Spot(ENTRY, EXIT, USED), Edge(EXIT, LOAD2, Intra), USED);
    HopsOn(BAD2, Spot(EXIT, LOAD2, USED), Edge(LOAD2, LOAD1, Intra), DEREF);
    HopsOn(Hop(BAD2, Edge(LOAD2, LOAD1, Intra)), Spot(LOAD2, LOAD1, DEREF), Edge(LOAD1, STORE, Intra), DEREF);
  }

  const LEAVE1: Edge := Edge(EXIT, BACK, IndRet(1))
  const LEAVE2: Edge := Edge(STORE, BACK, IndRet(1))

  lemma TheirTraces()
    ensures Distinct(LeftTrace(GOOD, LEAVE1)) && Distinct(LeftTrace(BAD, LEAVE2))
    ensures Visits(LeftTrace(GOOD, LEAVE1)) == Visits(LeftTrace(BAD, LEAVE2))
  {
    var a, b, c, d, back := Visit(1, LOAD1), Visit(1, STORE), Visit(1, LOAD2), Visit(1, EXIT), Visit(0, BACK);
    assert LeftTrace(GOOD, LEAVE1) == [a, b, c, d, back] && LeftTrace(BAD, LEAVE2) == [d, c, a, b, back];
  }

  lemma LeavesThere(w: Walk, a: Spot, r: Edge, f: Flags)
    requires ComesTo(w, a) && r.src == a.cur && 1 <= a.cur <= 16 && r in CalmOut(a.cur) && r.kind == IndRet(1)
    requires Rules(a.prev, a.cur, a.flags) == Some(f) && !f.directRet && !a.flags.directRet && Distinct(LeftTrace(w, r))
    ensures Leaves(CALM, ENTRY, 1, w, r, Spot(a.cur, r.dst, f))
  {
    CalmFollows(r);
    assert ValidWalk(CALM, w, ENTRY);
    HopIsMove(w, r, a, f);
  }

  /** Only behind the good way does a store let the item pass. */
  lemma NotAlike()
    ensures !Alike(CALM, All(), Spot(EXIT, BACK, DEREF), Spot(STORE, BACK, USED))
  {
    var out := Edge(BACK, OUTSIDE, Intra);
    assert out in CalmOut(BACK) && Follows(CALM, out, BACK);
    OneEdge(CALM, BACK, out);
    AlongEdge(CALM, All(), Spot(EXIT, BACK, DEREF), out);
    AlongEdge(CALM, All(), Spot(STORE, BACK, USED), out);
    assert Passes(CALM, All(), Spot(EXIT, BACK, DEREF), [out]);
    assert !Passes(CALM, All(), Spot(STORE, BACK, USED), [out]);
  }

  lemma CalmIsNotConfluent()
    ensures !Confluent(CALM)
  {
    GoodSpot();
    BadSpot();
    TheirTraces();
    EntrySpot();
    LeavesThere(GOOD, Spot(LOAD2, EXIT, DEREF), LEAVE1, DEREF);
    LeavesThere(BAD, Spot(LOAD1, STORE, DEREF), LEAVE2, USED);
    NotAlike();
  }

  /** That returns with the same visits are alike is not necessary: here they are not, and yet every run records
      exactly what a walk let through leaves to, namely nothing. */
  lemma ConfluenceIsNotNecessary(picks: seq<nat>)
    ensures ValidGraph(CALM) && !Confluent(CALM)
    ensures forall n :: n in Run(CALM, picks).oosNodes <==> LetOutAt(CALM, All(), n, false)
    ensures forall n :: n in Run(CALM, picks).dirOosNodes <==> LetOutAt(CALM, All(), n, true)
  {
    CalmIsValid();
    CalmIsNotConfluent();
    NothingRecorded(picks);
    forall n, d ensures !LetOutAt(CALM, All(), n, d) {
      NothingIsLetOut(All(), n, d);
    }
  }
}
