/** How a function was called first can decide what is found. One function with a store is called directly and
    indirectly; started by the direct call it is walked through, started by the indirect one it is not. */
module TwoKinds {
  import opened Options
  import opened Traces
  import opened Svfg
  import opened UarState
  import opened UarFlags
  import opened UarSound
  import opened UarExact

  const LOCAL: NodeId := 1
  const CALL1: NodeId := 2
  const CALL2: NodeId := 3
  const ENTRY: NodeId := 4
  const STORE: NodeId := 5
  const BACK: NodeId := 6
  const OUTSIDE: NodeId := 7

  const ENTER1: Edge := Edge(CALL1, ENTRY, DirCall(1))
  const ENTER2: Edge := Edge(CALL2, ENTRY, IndCall(2))
  const WRITE: Edge := Edge(ENTRY, STORE, Intra)
  const LEAVE: Edge := Edge(STORE, BACK, DirRet(1))
  const ESCAPE: Edge := Edge(BACK, OUTSIDE, IndRet(9))

  function Out(n: NodeId): seq<Edge> {
    if n == LOCAL then [Edge(LOCAL, CALL1, Intra), Edge(LOCAL, CALL2, Intra)]
    else if n == CALL1 then [ENTER1]
    else if n == CALL2 then [ENTER2]
    else if n == ENTRY then [WRITE]
    else if n == STORE then [LEAVE]
    else if n == BACK then [ESCAPE]
    else []
  }

  /** A store passes once; later ones need a dereference before them, and use it up. */
  function Rules(prev: NodeId, cur: NodeId, f: Flags): Option<Flags> {
    if prev == cur then None
    else if cur != STORE then Some(f)
    else if !f.firstAsgnm then Some(f.(firstAsgnm := true, deref := false))
    else if !f.deref then None
    else Some(f.(deref := false))
  }

  const GRAPH: Graph := Graph(map n: NodeId | 1 <= n <= 7 :: Out(n), LOCAL, {}, Rules)

  const KEY: Key := Key(1, ENTRY)

  const USED: Flags := Flags(true, false, false)

  lemma GraphIsValid()
    ensures ValidGraph(GRAPH)
  {
    forall n, e | n in GRAPH.out && e in GRAPH.out[n] ensures e.src == n && GoodEdge(GRAPH, e) {
      assert e in Out(n);
    }
  }

  /** What a schedule is at: the items left, and beside them the waiters and returns of the first call site, what
      was started and what was recorded. */
  datatype Side = Side(waiters: seq<Item>, rets: seq<Item>, started: set<NodeId>, recorded: set<NodeId>)

  ghost predicate Looks(s: State, work: seq<Item>, z: Side) {
    && s.worklist == work
    && At(s.waiting, KEY) == z.waiters && At(s.rets, KEY) == z.rets && At(s.rets, Key(2, ENTRY)) == []
    && s.started == z.started && s.oosNodes == z.recorded && s.dirOosNodes == {}
  }

  /** The quantifier keeps proofs about schedules from unfolding the run. */
  ghost predicate RunLooks(picks: seq<nat>, work: seq<Item>, z: Side) {
    forall p :: p == picks ==> Looks(Run(GRAPH, p), work, z)
  }

  lemma PopLooks(s: State, u: seq<Item>, x: Item, v: seq<Item>, z: Side)
    requires Looks(s, u + [x] + v, z)
    ensures |u| < |s.worklist| && s.worklist[|u|] == x && Looks(Pop(s, |u|), u + v, z)
  {
    assert (u + [x] + v)[|u|] == x;
    assert (u + [x] + v)[..|u|] + (u + [x] + v)[|u| + 1..] == u + v;
  }

  lemma OneEdgeOnly(s: State, x: Item, e: Edge)
    ensures PropagateAll(GRAPH, s, x, [e]) == ForwardPropagate(GRAPH, s, x, e)
  {
    assert [e][..0] == [];
  }

  lemma RunMore(picks: seq<nat>, k: nat)
    ensures Run(GRAPH, picks + [k]) == Step(GRAPH, Run(GRAPH, picks), k)
  {
    assert (picks + [k])[..|picks|] == picks;
  }

  /** The state after item x, which the rules make y and which has one edge to follow, was taken. */
  lemma Takes(picks: seq<nat>, u: seq<Item>, x: Item, v: seq<Item>, z: Side, y: Item, e: Edge) returns (s: State)
    requires RunLooks(picks, u + [x] + v, z) && ForwardChecks(GRAPH, x) == Some(y) && y.scope >= 0
    requires 1 <= y.cur <= 7 && Out(y.cur) == [e]
    ensures Looks(s, u + v, z) && Run(GRAPH, picks + [|u|]) == ForwardPropagate(GRAPH, s, y, e)
  {
    assert Looks(Run(GRAPH, picks), u + [x] + v, z);
    RunMore(picks, |u|);
    s := Pop(Run(GRAPH, picks), |u|);
    PopLooks(Run(GRAPH, picks), u, x, v, z);
    assert EdgesOf(GRAPH, y.cur) == [e];
    OneEdgeOnly(s, y, e);
  }

  const FIRST: Item := Item(CALL1, LOCAL, LOCAL, [Visit(0, LOCAL), Visit(0, CALL1)], 0, NO_FLAGS)
  const SECOND: Item := Item(CALL2, LOCAL, LOCAL, [Visit(0, LOCAL), Visit(0, CALL2)], 0, NO_FLAGS)

  function AtEntry(f: Flags): Item {
    Item(ENTRY, 0, ENTRY, [], 0, f)
  }

  function AtStore(f: Flags): Item {
    Item(STORE, ENTRY, ENTRY, [Visit(0, STORE)], 0, f)
  }

  lemma LocalForks(s: State)
    requires s.worklist == []
    ensures PropagateAll(GRAPH, s, SourceItem(GRAPH), Out(LOCAL)) == s.(worklist := [FIRST, SECOND])
  {
    var x := SourceItem(GRAPH);
    var a, b := Edge(LOCAL, CALL1, Intra), Edge(LOCAL, CALL2, Intra);
    assert [a, b][..1] == [a];
    OneEdgeOnly(s, x, a);
    assert [Visit(0, LOCAL)] + [Visit(0, CALL1)] == [Visit(0, LOCAL), Visit(0, CALL1)];
    assert ForwardPropagate(GRAPH, s, x, a) == s.(worklist := [FIRST]);
    assert [Visit(0, LOCAL)] + [Visit(0, CALL2)] == [Visit(0, LOCAL), Visit(0, CALL2)];
    assert [FIRST] + [SECOND] == [FIRST, SECOND];
    assert ForwardPropagate(GRAPH, s.(worklist := [FIRST]), x, b) == s.(worklist := [FIRST, SECOND]);
  }

  lemma Starts()
    ensures RunLooks([0], [FIRST] + [SECOND], Side([], [], {}, {}))
  {
    var x, s := SourceItem(GRAPH), Pop(Init(GRAPH), 0);
    assert [] + [0] == [0] && Run(GRAPH, []) == Init(GRAPH);
    RunMore([], 0);
    assert ForwardChecks(GRAPH, x) == Some(x) && EdgesOf(GRAPH, LOCAL) == Out(LOCAL);
    assert [x][..0] + [x][1..] == [];
    LocalForks(s);
    assert Run(GRAPH, [0]) == s.(worklist := [FIRST, SECOND]);
    assert Looks(Run(GRAPH, [0]), [FIRST] + [SECOND], Side([], [], {}, {}));
  }

  /** A call starts the function with its flags, unless the other one has. */
  lemma CallsFirst(picks: seq<nat>, u: seq<Item>, v: seq<Item>, z: Side)
    requires RunLooks(picks, u + [FIRST] + v, z) && z.waiters == [] && z.rets == []
    ensures RunLooks(picks + [|u|], u + v + if ENTRY in z.started then [] else [AtEntry(NO_FLAGS)],
                     z.(waiters := [CallerOf(FIRST, ENTER1)], started := z.started + {ENTRY}))
  {
    var s := Takes(picks, u, FIRST, v, z, FIRST, ENTER1);
    FirstLooks(s, u + v, z);
  }

  lemma FirstLooks(s: State, work: seq<Item>, z: Side)
    requires Looks(s, work, z) && z.waiters == [] && z.rets == []
    ensures Looks(ForwardPropagate(GRAPH, s, FIRST, ENTER1),
                  work + if ENTRY in z.started then [] else [AtEntry(NO_FLAGS)],
                  z.(waiters := [CallerOf(FIRST, ENTER1)], started := z.started + {ENTRY}))
  {
    var w := CallerOf(FIRST, ENTER1);
    assert JoinsOfWaiter(w, []) == [] && Insert([], w) == [w];
    assert UarState.Enters(GRAPH, FIRST, ENTER1);
    var m := Await(Replay(s, KEY, w), KEY, w);
    assert Looks(m, work, z.(waiters := [w]));
    StartLooks(m, work, z.(waiters := [w]), ENTER1);
  }

  lemma StartLooks(s: State, work: seq<Item>, z: Side, e: Edge)
    requires Looks(s, work, z) && e.dst == ENTRY && e.kind.IsCall()
    ensures Looks(StartFunction(s, e), work + if ENTRY in z.started then [] else [EntryItem(e)],
                  z.(started := z.started + {ENTRY}))
  {
    assert ENTRY in z.started ==> z.started + {ENTRY} == z.started;
  }

  lemma CallsSecond(picks: seq<nat>, u: seq<Item>, v: seq<Item>, z: Side)
    requires RunLooks(picks, u + [SECOND] + v, z)
    ensures RunLooks(picks + [|u|], u + v + if ENTRY in z.started then [] else [AtEntry(USED)],
                     z.(started := z.started + {ENTRY}))
  {
    var s := Takes(picks, u, SECOND, v, z, SECOND, ENTER2);
    SecondLooks(s, u + v, z);
  }

  lemma SecondLooks(s: State, work: seq<Item>, z: Side)
    requires Looks(s, work, z)
    ensures Looks(ForwardPropagate(GRAPH, s, SECOND, ENTER2),
                  work + if ENTRY in z.started then [] else [AtEntry(USED)], z.(started := z.started + {ENTRY}))
  {
    var w, k := CallerOf(SECOND, ENTER2), Key(2, ENTRY);
    assert JoinsOfWaiter(w, []) == [] && UarState.Enters(GRAPH, SECOND, ENTER2);
    var m := Await(Replay(s, k, w), k, w);
    assert Looks(m, work, z);
    StartLooks(m, work, z, ENTER2);
  }

  lemma Enters(picks: seq<nat>, u: seq<Item>, v: seq<Item>, z: Side, f: Flags)
    requires RunLooks(picks, u + [AtEntry(f)] + v, z)
    ensures RunLooks(picks + [|u|], u + v + [AtStore(f)], z)
  {
    var s := Takes(picks, u, AtEntry(f), v, z, AtEntry(f), WRITE);
    assert [] + [Visit(0, STORE)] == [Visit(0, STORE)];
  }

  /** Behind an indirect call the store drops the item. */
  lemma IsDropped(picks: seq<nat>, u: seq<Item>, v: seq<Item>, z: Side)
    requires RunLooks(picks, u + [AtStore(USED)] + v, z)
    ensures RunLooks(picks + [|u|], u + v, z)
  {
    assert Looks(Run(GRAPH, picks), u + [AtStore(USED)] + v, z);
    RunMore(picks, |u|);
    PopLooks(Run(GRAPH, picks), u, AtStore(USED), v, z);
  }

  // ---- the direct call comes first

  const WAITER: Item := CallerOf(FIRST, ENTER1)
  const RETURN: Item := ReturnOf(AtStore(USED), LEAVE)
  const JOINED: Item := Join(WAITER, RETURN)
  const ESCAPED: Item := EscapeOf(JOINED, ESCAPE)

  lemma TheTwoJoin()
    ensures Joinable(WAITER, RETURN) && CanResolve(AtStore(USED).trace, 1)
    ensures Visit(0, BACK) !in Returning(AtStore(USED), LEAVE).trace
    ensures CanResolve(JOINED.trace, 9) && JoinsOfReturn([WAITER], RETURN) == [JOINED]
  {
    assert WAITER.trace == [Visit(0, LOCAL), Visit(0, CALL1), Visit(1, ENTRY)];
    assert RETURN.trace == [Visit(1, STORE), Visit(0, BACK)];
    assert JOINED.trace == [Visit(0, LOCAL), Visit(0, CALL1), Visit(1, ENTRY), Visit(1, STORE), Visit(0, BACK)];
    assert [WAITER][..0] == [];
  }

  lemma Returns(picks: seq<nat>, u: seq<Item>, v: seq<Item>, z: Side)
    requires RunLooks(picks, u + [AtStore(NO_FLAGS)] + v, z) && z.waiters == [WAITER] && z.rets == []
    ensures RunLooks(picks + [|u|], u + v + [JOINED], z.(rets := [RETURN]))
  {
    var s := Takes(picks, u, AtStore(NO_FLAGS), v, z, AtStore(USED), LEAVE);
    TheTwoJoin();
    assert Insert([], RETURN) == [RETURN];
  }

  lemma GoesOut(picks: seq<nat>, u: seq<Item>, v: seq<Item>, z: Side)
    requires RunLooks(picks, u + [JOINED] + v, z)
    ensures RunLooks(picks + [|u|], u + v + [ESCAPED], z)
  {
    TheTwoJoin();
    var s := Takes(picks, u, JOINED, v, z, JOINED, ESCAPE);
  }

  lemma IsRecorded(picks: seq<nat>, u: seq<Item>, v: seq<Item>, z: Side)
    requires RunLooks(picks, u + [ESCAPED] + v, z)
    ensures RunLooks(picks + [|u|], u + v, z.(recorded := z.recorded + {OUTSIDE}))
  {
    assert Looks(Run(GRAPH, picks), u + [ESCAPED] + v, z);
    RunMore(picks, |u|);
    PopLooks(Run(GRAPH, picks), u, ESCAPED, v, z);
  }

  lemma Alone(x: Item)
    ensures [] + [x] + [] == [x] && [] + [] + [x] == [x]
  {
  }

  lemma DirectFirst() returns (picks: seq<nat>)
    ensures Run(GRAPH, picks).worklist == [] && Run(GRAPH, picks).oosNodes == {OUTSIDE}
  {
    var z := Side([], [], {}, {});
    Starts();
    assert [] + [FIRST] + [SECOND] == [FIRST] + [SECOND];
    CallsFirst([0], [], [SECOND], z);
    z := Side([WAITER], [], {ENTRY}, {});
    assert {} + {ENTRY} == {ENTRY} && [] + [SECOND] == [] + [SECOND] + [];
    picks := [0] + [0];
    assert [] + [SECOND] + [AtEntry(NO_FLAGS)] == [] + [SECOND] + ([AtEntry(NO_FLAGS)] + []);
    CallsSecond(picks, [], [AtEntry(NO_FLAGS)], z);
    assert {ENTRY} + {ENTRY} == {ENTRY} && [] + [AtEntry(NO_FLAGS)] + [] == [] + [AtEntry(NO_FLAGS)] + [];
    picks := DirectEnters(picks + [0]);
  }

  lemma DirectEnters(start: seq<nat>) returns (picks: seq<nat>)
    requires RunLooks(start, [] + [AtEntry(NO_FLAGS)] + [], Side([WAITER], [], {ENTRY}, {}))
    ensures Run(GRAPH, picks).worklist == [] && Run(GRAPH, picks).oosNodes == {OUTSIDE}
  {
    var z := Side([WAITER], [], {ENTRY}, {});
    Enters(start, [], [], z, NO_FLAGS);
    Alone(AtStore(NO_FLAGS));
    Returns(start + [0], [], [], z);
    Alone(JOINED);
    GoesOut(start + [0] + [0], [], [], z.(rets := [RETURN]));
    Alone(ESCAPED);
    IsRecorded(start + [0] + [0] + [0], [], [], z.(rets := [RETURN]));
    picks := start + [0] + [0] + [0] + [0];
    assert Looks(Run(GRAPH, picks), [] + [], z.(rets := [RETURN], recorded := {} + {OUTSIDE}));
  }

  // ---- the indirect call comes first

  lemma IndirectFirst() returns (picks: seq<nat>)
    ensures Run(GRAPH, picks).worklist == [] && Run(GRAPH, picks).oosNodes == {} == Run(GRAPH, picks).dirOosNodes
  {
    var z := Side([], [], {}, {});
    Starts();
    assert [FIRST] + [SECOND] + [] == [FIRST] + [SECOND];
    CallsSecond([0], [FIRST], [], z);
    z := Side([], [], {ENTRY}, {});
    assert {} + {ENTRY} == {ENTRY} && [FIRST] + [] + [AtEntry(USED)] == [] + [FIRST] + [AtEntry(USED)];
    picks := [0] + [1];
    CallsFirst(picks, [], [AtEntry(USED)], z);
    z := Side([WAITER], [], {ENTRY}, {});
    assert {ENTRY} + {ENTRY} == {ENTRY} && [] + [AtEntry(USED)] + [] == [] + [AtEntry(USED)] + [];
    picks := picks + [0];
    Enters(picks, [], [], z, USED);
    Alone(AtStore(USED));
    IsDropped(picks + [0], [], [], z);
    picks := picks + [0] + [0];
    assert Looks(Run(GRAPH, picks), [] + [], z);
  }

  // ---- how the function starts is all that matters

  ghost function All(): set<NodeId> {
    CalledIndirectly(GRAPH)
  }

  lemma StartsIndirectly()
    ensures RootSpot(GRAPH, All(), ENTRY) == Spot(0, ENTRY, USED)
  {
    assert ENTER2 in Out(CALL2) && CallInto(GRAPH, ENTER2);
    assert ENTRY in GRAPH.out && StartedAs(GRAPH, ENTRY, true);
  }

  /** Started by an indirect call, no item gets past the store. */
  lemma {:induction false} StopsAtStore(p: seq<Edge>)
    requires IsPath(GRAPH, ENTRY, p) && Along(GRAPH, All(), Spot(0, ENTRY, USED), p).Some?
    ensures Along(GRAPH, All(), Spot(0, ENTRY, USED), p).value
            == if p == [] then Spot(0, ENTRY, USED) else Spot(ENTRY, STORE, USED)
  {
    if p != [] {
      var init, e := p[..|p| - 1], p[|p| - 1];
      StopsAtStore(init);
      AlongEnds(GRAPH, All(), Spot(0, ENTRY, USED), init);
      assert Checked(GRAPH, Spot(ENTRY, STORE, USED)).None?;
      assert EndOf(ENTRY, init) == ENTRY && e in Out(ENTRY);
    }
  }

  lemma NothingLeaves(w: Walk, r: Edge)
    requires ValidWalk(GRAPH, w, ENTRY) && Follows(GRAPH, r, WalkEnd(w, ENTRY)) && r.kind.IsRet()
    ensures LeaveSpot(GRAPH, All(), ENTRY, w, r).None?
  {
    StartsIndirectly();
    var p := Flatten(w) + [r];
    LeavesByPath(w, r);
    if Along(GRAPH, All(), Spot(0, ENTRY, USED), p).Some? {
      StopsAtStore(p);
      AlongEnds(GRAPH, All(), Spot(0, ENTRY, USED), p);
    }
  }

  lemma LeavesByPath(w: Walk, r: Edge)
    requires ValidWalk(GRAPH, w, ENTRY) && Follows(GRAPH, r, WalkEnd(w, ENTRY)) && r.kind.IsRet()
    ensures IsPath(GRAPH, ENTRY, Flatten(w) + [r]) && EndOf(ENTRY, Flatten(w) + [r]) !in {ENTRY, STORE}
  {
    WalkIsPath(GRAPH, w, ENTRY);
    OneEdge(GRAPH, WalkEnd(w, ENTRY), r);
    PathConcat(GRAPH, ENTRY, Flatten(w), [r]);
    assert r in Out(WalkEnd(w, ENTRY));
  }

  lemma GraphIsConfluent()
    ensures Confluent(GRAPH)
  {
    forall c, w, r, a | CallInto(GRAPH, c) ensures !Leaves(GRAPH, c.dst, c.kind.cs, w, r, a) {
      NoWayOut(c, w, r, a);
    }
  }

  lemma NoWayOut(c: Edge, w: Walk, r: Edge, a: Spot)
    requires CallInto(GRAPH, c)
    ensures !Leaves(GRAPH, c.dst, c.kind.cs, w, r, a)
  {
    assert c in Out(c.src) && c.dst == ENTRY;
    if Leaves(GRAPH, ENTRY, c.kind.cs, w, r, a) {
      NothingLeaves(w, r);
    }
  }

  /** All returns with the same visits are alike, and yet two schedules that both finish record different nodes:
      the function lets through something else when it is called the other way. */
  lemma KindsMatter() returns (one: seq<nat>, two: seq<nat>)
    ensures ValidGraph(GRAPH) && Run(GRAPH, one).worklist == [] && Run(GRAPH, two).worklist == []
    ensures Run(GRAPH, one).oosNodes == {OUTSIDE} && Run(GRAPH, two).oosNodes == {}
    ensures Confluent(GRAPH) && !KindsAlike(GRAPH)
  {
    GraphIsValid();
    GraphIsConfluent();
    one := DirectFirst();
    two := IndirectFirst();
    if KindsAlike(GRAPH) {
      ScheduleIndependent(GRAPH, one, two);
    }
  }
}
