/** A join that interleaved sections lose for good. Two call sites lead into one function; the first starts it,
    and the function returns to the second while that is between its look and its wait. */
module TwoCalls {
  import opened Options
  import opened Traces
  import opened Svfg
  import opened UarState
  import opened UarFlags
  import opened UarSound
  import opened UarExact
  import opened UarSettled
  import opened UarTermination
  import Handshake

  const LOCAL: NodeId := 1
  const CALL1: NodeId := 2
  const CALL2: NodeId := 3
  const ENTRY: NodeId := 4
  const BACK: NodeId := 5
  const OUTSIDE: NodeId := 6

  const STEP: Edge := Edge(LOCAL, CALL2, Intra)
  const ENTER: Edge := Edge(CALL2, ENTRY, DirCall(2))
  const LEAVE: Edge := Edge(ENTRY, BACK, DirRet(2))
  const ESCAPE: Edge := Edge(BACK, OUTSIDE, IndRet(9))

  function Out(n: NodeId): seq<Edge> {
    if n == LOCAL then [Edge(LOCAL, CALL1, Intra), STEP]
    else if n == CALL1 then [Edge(CALL1, ENTRY, DirCall(1))]
    else if n == CALL2 then [ENTER]
    else if n == ENTRY then [LEAVE]
    else if n == BACK then [ESCAPE]
    else []
  }

  /** The rules drop only items that stay where they are. */
  function Rules(prev: NodeId, cur: NodeId, f: Flags): Option<Flags> {
    if prev == cur then None else Some(f)
  }

  const GRAPH: Graph := Graph(map n: NodeId | 1 <= n <= 6 :: Out(n), LOCAL, {}, Rules)

  const KEY: Key := Key(2, ENTRY)

  lemma GraphIsValid()
    ensures ValidGraph(GRAPH) && DecidesByNode(GRAPH)
  {
    forall n, e | n in GRAPH.out && e in GRAPH.out[n]
      ensures e.src == n && GoodEdge(GRAPH, e) && e.dst != n && e.dst != 0
    {
      assert e in Out(n);
    }
    forall n ensures Accepts(GRAPH, n) {}
  }

  /** The walk through the second call site, out of the frame of the local variable. */
  const WALK: Walk := Round(Hop(Start, STEP), ENTER, Start, LEAVE)

  lemma WalkIsValid()
    ensures ValidWalk(GRAPH, WALK, LOCAL) && WalkEnd(WALK, LOCAL) == BACK && Follows(GRAPH, ESCAPE, BACK)
  {
    assert STEP in Out(LOCAL) && ENTER in Out(CALL2) && LEAVE in Out(ENTRY) && ESCAPE in Out(BACK);
    assert WalkEnd(Start, LOCAL) == LOCAL && WalkEnd(Start, ENTRY) == ENTRY;
    assert WalkEnd(Hop(Start, STEP), LOCAL) == CALL2;
    assert ValidWalk(GRAPH, Start, LOCAL) && ValidWalk(GRAPH, Start, ENTRY);
    assert ValidWalk(GRAPH, Hop(Start, STEP), LOCAL);
  }

  lemma WalkEscapes()
    ensures ClearOutAt(GRAPH, OUTSIDE, false)
  {
    GraphIsValid();
    WalkIsValid();
    assert WalkVisits(Hop(Start, STEP)) == [Visit(0, CALL2)];
    assert Rename([], 2) == [];
    var t := [Visit(0, LOCAL), Visit(0, CALL2), Visit(2, ENTRY), Visit(0, BACK)];
    assert [Visit(0, LOCAL)] + WalkVisits(WALK) == t;
    assert Rename(t, 9) == [Visit(9, LOCAL), Visit(9, CALL2), Visit(2, ENTRY), Visit(9, BACK)];
    EscapesBy(GRAPH, WALK, ESCAPE);
    assert Clear(GRAPH, Flatten(WALK) + [ESCAPE]);
  }

  /** As long as items are handled one after the other, every schedule that finishes finds the escape. */
  lemma WholeItemsFindIt(picks: seq<nat>)
    requires Run(GRAPH, picks).worklist == []
    ensures OUTSIDE in Run(GRAPH, picks).oosNodes
  {
    GraphIsValid();
    WalkEscapes();
    ByNodeIsExact(GRAPH, picks, picks);
  }

  // ---- the run up to the point where two threads take the last two items

  const SECOND: Item := Item(CALL2, LOCAL, LOCAL, [Visit(0, LOCAL), Visit(0, CALL2)], 0, NO_FLAGS)
  const FUNCTION: Item := Item(ENTRY, 0, ENTRY, [], 0, NO_FLAGS)

  lemma OneEdgeOnly(s: State, x: Item, e: Edge)
    ensures PropagateAll(GRAPH, s, x, [e]) == ForwardPropagate(GRAPH, s, x, e)
  {
    assert [e][..0] == [];
  }

  lemma FirstStep()
    ensures var s := Run(GRAPH, [0]);
            && |s.worklist| == 2 && s.worklist[1] == SECOND
            && s.worklist[0] == Item(CALL1, LOCAL, LOCAL, [Visit(0, LOCAL), Visit(0, CALL1)], 0, NO_FLAGS)
            && s.waiting == map[] && s.rets == map[] && s.started == {} && s.oosNodes == {} == s.dirOosNodes
  {
    var s, x := Pop(Init(GRAPH), 0), SourceItem(GRAPH);
    assert [0][..0] == [] && Run(GRAPH, []) == Init(GRAPH);
    var a := Edge(LOCAL, CALL1, Intra);
    assert [a, STEP][..1] == [a];
    OneEdgeOnly(s, x, a);
    assert PropagateAll(GRAPH, s, x, [a, STEP]) == ForwardPropagate(GRAPH, ForwardPropagate(GRAPH, s, x, a), x, STEP);
  }

  lemma SecondStep()
    ensures var s := Run(GRAPH, [0, 0]);
            && s.worklist == [SECOND, FUNCTION] && s.started == {ENTRY}
            && At(s.waiting, KEY) == [] == At(s.rets, KEY) && s.oosNodes == {} == s.dirOosNodes
  {
    FirstStep();
    assert [0, 0][..1] == [0];
    var r := Run(GRAPH, [0]);
    var x, s := r.worklist[0], Pop(r, 0);
    OneEdgeOnly(s, x, Edge(CALL1, ENTRY, DirCall(1)));
    assert s.worklist == [SECOND];
  }

  // ---- the sections of the two items

  /** What the two items bring: the caller that is to wait, and the return. */
  const WAITER: Item := CallerOf(SECOND, ENTER)
  const RETURN: Item := ReturnOf(FUNCTION, LEAVE)

  /** The caller looks, the return is stored and wakes, the caller waits. */
  const SECTIONS: seq<Handshake.Section> :=
    [Handshake.Looks(KEY, WAITER), Handshake.Stores(Handshake.Return(KEY, RETURN)), Handshake.Wakes(0),
     Handshake.Waits(0)]

  /** The state in which both items have been taken. */
  ghost function Taken(): State {
    var s := Run(GRAPH, [0, 0]);
    if s.worklist == [SECOND, FUNCTION] then Pop(Pop(s, 0), 0) else s
  }

  lemma TakenState()
    ensures var s := Taken();
            && s.worklist == [] && s.started == {ENTRY}
            && At(s.waiting, KEY) == [] == At(s.rets, KEY) && s.oosNodes == {} == s.dirOosNodes
            && s.done == Run(GRAPH, [0, 0]).done + [SECOND] + [FUNCTION]
  {
    SecondStep();
  }

  /** Handled one after the other, the items do exactly these sections. */
  lemma SectionsOfItems(s: State)
    requires ENTRY in s.started
    ensures ForwardChecks(GRAPH, SECOND) == Some(SECOND) && EdgesOf(GRAPH, CALL2) == [ENTER]
    ensures ForwardChecks(GRAPH, FUNCTION) == Some(FUNCTION) && EdgesOf(GRAPH, ENTRY) == [LEAVE]
    ensures ForwardPropagate(GRAPH, s, SECOND, ENTER) == Await(Replay(s, KEY, WAITER), KEY, WAITER)
    ensures ForwardPropagate(GRAPH, s, FUNCTION, LEAVE) == Wake(Record(s, KEY, RETURN), KEY, RETURN)
  {
  }

  lemma NotYetJoined(s: State)
    requires s == Taken()
    ensures Handshake.New(s, KEY, WAITER, RETURN)
  {
    TakenState();
    TheTwoJoin();
    DoneSoFar();
    assert !Pushed(s, Join(WAITER, RETURN));
  }

  lemma TheTwoJoin()
    ensures Joinable(WAITER, RETURN) && Join(WAITER, RETURN).cur == BACK
  {
    assert WAITER.trace == [Visit(0, LOCAL), Visit(0, CALL2), Visit(2, ENTRY)];
    assert RETURN.trace == [Visit(0, BACK)];
  }

  lemma DoneSoFar()
    ensures forall x :: x in Run(GRAPH, [0, 0]).done ==> x.cur == LOCAL || x.cur == CALL1
  {
    FirstStep();
    assert [0, 0][..1] == [0] && [0][..0] == [];
    DoneGrows(GRAPH, Run(GRAPH, [0]), 0);
    DoneGrows(GRAPH, Init(GRAPH), 0);
  }

  /** Two threads take the last two items, and their sections interleave so that the join is missing: the
      phase is over, no return and no call is under way, and nothing is recorded. Handled one after the other,
      in any schedule, the items lead to OUTSIDE. */
  lemma JoinIsLost()
    ensures Run(GRAPH, [0, 0]).worklist == [SECOND, FUNCTION] && ENTRY in Taken().started
    ensures var t := Handshake.Run(Taken(), SECTIONS);
            && t.calls == [] && t.rets == [] && Handshake.Missing(t.s, Handshake.Pair(KEY, WAITER, RETURN))
            && t.s.worklist == [] && t.s.oosNodes == {} && t.s.dirOosNodes == {}
    ensures forall picks :: Run(GRAPH, picks).worklist == [] ==> OUTSIDE in Run(GRAPH, picks).oosNodes
  {
    SecondStep();
    TakenState();
    NotYetJoined(Taken());
    Handshake.SectionsLose(Taken(), KEY, WAITER, RETURN);
    forall picks | Run(GRAPH, picks).worklist == [] ensures OUTSIDE in Run(GRAPH, picks).oosNodes {
      WholeItemsFindIt(picks);
    }
  }
}
