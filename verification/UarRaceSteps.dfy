/** A graph with store and load rules as the checker has them, and what taking one item does to a run on it. */
module UarRaceSteps {
  import opened Options
  import opened Traces
  import opened Svfg
  import opened UarState
  import opened UarFlags

  // ---- the graph

  const LOCAL: NodeId := 1
  const INIT: NodeId := 2
  const CALL: NodeId := 3
  const BACK: NodeId := 4
  const ENTRY: NodeId := 5
  const EXIT: NodeId := 6
  const LOAD1: NodeId := 7
  const LOAD2: NodeId := 8
  const STORE: NodeId := 9
  const OUTSIDE: NodeId := 10

  /** Nodes 11 to 16 only make the direct way to the call longer. */
  const SLOW: NodeId := 10
  const DELAY: nat := 6

  /** A store passes once; later ones need a dereference before them, and use it up. */
  function StoreRule(f: Flags): Option<Flags> {
    if !f.firstAsgnm then Some(f.(firstAsgnm := true, deref := false))
    else if !f.deref then None
    else Some(f.(deref := false))
  }

  function LoadRule(f: Flags): Option<Flags> {
    Some(f.(deref := true))
  }

  function Rules(prev: NodeId, cur: NodeId, f: Flags): Option<Flags> {
    if prev == cur then None
    else if cur == INIT || cur == STORE || cur == OUTSIDE then StoreRule(f)
    else if cur == LOAD1 || cur == LOAD2 then LoadRule(f)
    else Some(f)
  }

  /** The function entered at ENTRY can be walked as LOAD1, STORE, LOAD2, EXIT and as EXIT, LOAD2, LOAD1,
      STORE: the same visits, but only the first way leaves it with a dereference. */
  function Out(n: NodeId): seq<Edge> {
    if n == LOCAL then [Edge(LOCAL, INIT, Intra)]
    else if n == INIT then [Edge(INIT, BACK, Intra), Edge(INIT, SLOW + 1, Intra)]
    else if SLOW < n < SLOW + DELAY then [Edge(n, n + 1, Intra)]
    else if n == SLOW + DELAY then [Edge(n, CALL, Intra)]
    else if n == CALL then [Edge(CALL, ENTRY, IndCall(1))]
    else if n == BACK then [Edge(BACK, CALL, Intra), Edge(BACK, OUTSIDE, IndRet(9))]
    else if n == ENTRY then [Edge(ENTRY, EXIT, Intra), Edge(ENTRY, LOAD1, Intra)]
    else if n == EXIT then [Edge(EXIT, LOAD2, Intra), Edge(EXIT, BACK, IndRet(1))]
    else if n == LOAD1 then [Edge(LOAD1, STORE, Intra)]
    else if n == LOAD2 then [Edge(LOAD2, EXIT, Intra), Edge(LOAD2, LOAD1, Intra)]
    else if n == STORE then [Edge(STORE, LOAD2, Intra), Edge(STORE, BACK, IndRet(1))]
    else []
  }

  const GRAPH: Graph := Graph(map n: NodeId | 1 <= n <= 16 :: Out(n), LOCAL, {}, Rules)

  const KEY: Key := Key(1, ENTRY)

  /** The flags behind the first store, without and with a dereference. */
  const USED: Flags := Flags(true, false, false)
  const DEREF: Flags := Flags(true, true, false)

  lemma GraphIsValid()
    ensures ValidGraph(GRAPH)
  {
    forall n, e | n in GRAPH.out && e in GRAPH.out[n] ensures e.src == n && GoodEdge(GRAPH, e) {
      assert e in Out(n);
    }
  }

  // ---- items by their paths

  function Zeros(path: seq<NodeId>): (t: seq<Visit>)
    ensures |t| == |path| && forall i :: 0 <= i < |t| ==> t[i] == Visit(0, path[i])
  {
    seq(|path|, i requires 0 <= i < |path| => Visit(0, path[i]))
  }

  /** The item that came along path, which starts at its root. */
  function OnPath(path: seq<NodeId>, f: Flags): Item
    requires path != []
  {
    Item(path[|path| - 1], if |path| == 1 then 0 else path[|path| - 2], path[0],
         if path[0] == LOCAL then Zeros(path) else Zeros(path[1..]), 0, f)
  }

  /** The return of the item that came along path. */
  function ReturnFrom(path: seq<NodeId>, f: Flags): Item
    requires path != []
  {
    Item(BACK, path[|path| - 1], ENTRY, Rename(Zeros(path[1..]), 1) + [Visit(0, BACK)], 0, f)
  }

  /** Beside the worklist: the waiters and returns of the one call, and what was started and recorded. */
  datatype Side = Side(waiters: seq<Item>, rets: seq<Item>, started: set<NodeId>, recorded: set<NodeId>)

  ghost predicate Looks(s: State, work: seq<Item>, z: Side) {
    && s.worklist == work && At(s.waiting, KEY) == z.waiters && At(s.rets, KEY) == z.rets
    && s.started == z.started && s.oosNodes == z.recorded && s.dirOosNodes == {}
  }

  // ---- edges

  function HopOf(x: Item, e: Edge): seq<Item> {
    if Visit(0, e.dst) in x.trace then [] else [Visited(Advance(x, e), Visit(0, e.dst))]
  }

  lemma HopLooks(s: State, work: seq<Item>, z: Side, x: Item, e: Edge)
    requires Looks(s, work, z) && e.kind.Intra?
    ensures Looks(ForwardPropagate(GRAPH, s, x, e), work + HopOf(x, e), z)
  {
  }

  function Next(path: seq<NodeId>, f: Flags, n: NodeId): seq<Item>
    requires path != []
  {
    if n in path then [] else [OnPath(path + [n], f)]
  }

  lemma HopOnPath(path: seq<NodeId>, f: Flags, e: Edge)
    requires path != [] && e.dst != path[0] && e.src == path[|path| - 1]
    ensures HopOf(OnPath(path, f), e) == Next(path, f, e.dst)
  {
    var x := OnPath(path, f);
    var own := if path[0] == LOCAL then path else path[1..];
    assert x.trace == Zeros(own);
    assert Zeros(own) + [Visit(0, e.dst)] == Zeros(own + [e.dst]);
    if e.dst in path {
      var i :| 0 <= i < |path| && path[i] == e.dst;
      assert own[i - (|path| - |own|)] == e.dst;
      assert x.trace[i - (|path| - |own|)] == Visit(0, e.dst);
    }
    assert (path + [e.dst])[1..] == path[1..] + [e.dst];
  }

  lemma ReturnOnPath(path: seq<NodeId>, f: Flags, e: Edge)
    requires |path| > 1 && path[0] == ENTRY && BACK !in path && e.kind == IndRet(1) && e.dst == BACK && !f.directRet
    ensures var x := OnPath(path, f);
            && CanResolve(x.trace, 1) && Visit(0, BACK) !in Returning(x, e).trace
            && ReturnOf(x, e) == ReturnFrom(path, f) && KeyOfReturn(x, e) == KEY
  {
  }

  /** A return from path is recorded and wakes the waiters. */
  function Woken(z: Side, path: seq<NodeId>, f: Flags): seq<Item>
    requires path != []
  {
    JoinsOfReturn(z.waiters, ReturnFrom(path, f))
  }

  function Stored(z: Side, path: seq<NodeId>, f: Flags): Side
    requires path != []
  {
    z.(rets := Insert(z.rets, ReturnFrom(path, f)))
  }

  lemma ReturnLooks(s: State, work: seq<Item>, z: Side, path: seq<NodeId>, f: Flags, e: Edge)
    requires Looks(s, work, z)
    requires |path| > 1 && path[0] == ENTRY && BACK !in path && e.kind == IndRet(1) && e.dst == BACK && !f.directRet
    ensures Looks(ForwardPropagate(GRAPH, s, OnPath(path, f), e), work + Woken(z, path, f), Stored(z, path, f))
  {
    ReturnOnPath(path, f, e);
  }

  /** The caller that came along path. */
  function Caller(path: seq<NodeId>): Item
    requires path != []
  {
    CallerOf(OnPath(path, USED), Edge(CALL, ENTRY, IndCall(1)))
  }

  /** What a call from path pushes. */
  function Called(z: Side, path: seq<NodeId>): seq<Item>
    requires path != []
  {
    JoinsOfWaiter(Caller(path), z.rets) + if ENTRY in z.started then [] else [OnPath([ENTRY], USED)]
  }

  function Waits(z: Side, path: seq<NodeId>): Side
    requires path != []
  {
    z.(waiters := Insert(z.waiters, Caller(path)), started := z.started + {ENTRY})
  }

  lemma EntersByCall(path: seq<NodeId>, e: Edge)
    requires path != [] && path[0] == LOCAL && e == Edge(CALL, ENTRY, IndCall(1))
    ensures Enters(GRAPH, OnPath(path, USED), e) && KeyOfCall(e) == KEY && EntryItem(e) == OnPath([ENTRY], USED)
  {
    assert Zeros([ENTRY][1..]) == [];
  }

  lemma CallLooks(s: State, work: seq<Item>, z: Side, path: seq<NodeId>, e: Edge)
    requires Looks(s, work, z) && path != [] && path[0] == LOCAL && e == Edge(CALL, ENTRY, IndCall(1))
    ensures Looks(ForwardPropagate(GRAPH, s, OnPath(path, USED), e), work + Called(z, path), Waits(z, path))
  {
    EntersByCall(path, e);
    var w := Caller(path);
    var m := Await(Replay(s, KEY, w), KEY, w);
    assert Looks(m, work + JoinsOfWaiter(w, z.rets), z.(waiters := Insert(z.waiters, w)));
    EntryLooks(m, work + JoinsOfWaiter(w, z.rets), z.(waiters := Insert(z.waiters, w)), e);
    assert work + JoinsOfWaiter(w, z.rets) + (if ENTRY in z.started then [] else [OnPath([ENTRY], USED)])
        == work + Called(z, path);
  }

  lemma EntryLooks(s: State, work: seq<Item>, z: Side, e: Edge)
    requires Looks(s, work, z) && e == Edge(CALL, ENTRY, IndCall(1)) && EntryItem(e) == OnPath([ENTRY], USED)
    ensures Looks(StartFunction(s, e), work + if ENTRY in z.started then [] else [OnPath([ENTRY], USED)],
                  z.(started := z.started + {ENTRY}))
  {
    if ENTRY in z.started {
      assert z.started + {ENTRY} == z.started;
    }
  }

  // ---- steps: an item between others is taken and leaves others behind

  /** The run behind picks looks like this. The quantifier keeps proofs about long schedules from unfolding
      the run. */
  ghost predicate RunLooks(picks: seq<nat>, work: seq<Item>, z: Side) {
    forall p :: p == picks ==> Looks(Run(GRAPH, p), work, z)
  }

  lemma TwoEdges(s: State, x: Item, a: Edge, b: Edge)
    ensures PropagateAll(GRAPH, s, x, [a]) == ForwardPropagate(GRAPH, s, x, a)
    ensures PropagateAll(GRAPH, s, x, [a, b]) == ForwardPropagate(GRAPH, ForwardPropagate(GRAPH, s, x, a), x, b)
  {
    assert [a][..0] == [] && [a, b][..1] == [a];
  }

  lemma PopLooks(s: State, u: seq<Item>, x: Item, v: seq<Item>, z: Side)
    requires Looks(s, u + [x] + v, z)
    ensures |u| < |s.worklist| && s.worklist[|u|] == x && Looks(Pop(s, |u|), u + v, z)
  {
    assert (u + [x] + v)[|u|] == x;
    assert (u + [x] + v)[..|u|] + (u + [x] + v)[|u| + 1..] == u + v;
  }

  /** The state after item x, which the rules make y, was taken. */
  lemma Takes(picks: seq<nat>, u: seq<Item>, x: Item, v: seq<Item>, z: Side, y: Item) returns (s: State)
    requires RunLooks(picks, u + [x] + v, z) && ForwardChecks(GRAPH, x) == Some(y) && y.scope >= 0 && 1 <= y.cur <= 16
    ensures Looks(s, u + v, z) && Run(GRAPH, picks + [|u|]) == PropagateAll(GRAPH, s, y, Out(y.cur))
  {
    assert (picks + [|u|])[..|picks|] == picks;
    s := Pop(Run(GRAPH, picks), |u|);
    PopLooks(Run(GRAPH, picks), u, x, v, z);
  }

  lemma Grouped(a: seq<Item>, b: seq<Item>, c: seq<Item>)
    ensures a + b + c == a + (b + c)
  {
  }

  ghost predicate PassesAs(path: seq<NodeId>, f: Flags, h: Flags) {
    path != [] && Rules(if |path| == 1 then 0 else path[|path| - 2], path[|path| - 1], f) == Some(h)
  }

  /** The path ends at a node with one edge, inside its function. */
  predicate IsSingle(path: seq<NodeId>) {
    path != [] && path[0] in {LOCAL, ENTRY} &&
    var n := path[|path| - 1];
    n == LOCAL || n == LOAD1 || SLOW < n <= SLOW + DELAY
  }

  /** What an item at the end of such a path leaves. */
  function Hopped(path: seq<NodeId>, f: Flags): seq<Item>
    requires IsSingle(path)
  {
    Next(path, f, Out(path[|path| - 1])[0].dst)
  }

  lemma OneHop(picks: seq<nat>, u: seq<Item>, v: seq<Item>, z: Side, path: seq<NodeId>, f: Flags, h: Flags)
    requires IsSingle(path) && PassesAs(path, f, h) && RunLooks(picks, u + [OnPath(path, f)] + v, z)
    ensures RunLooks(picks + [|u|], u + v + Hopped(path, h), z)
  {
    var y := OnPath(path, h);
    var a := Out(y.cur)[0];
    var s := Takes(picks, u, OnPath(path, f), v, z, y);
    TwoEdges(s, y, a, a);
    HopLooks(s, u + v, z, y, a);
    HopOnPath(path, h, a);
  }

  /** The path ends at a node with two edges, both inside its function. */
  predicate IsFork(path: seq<NodeId>) {
    path != [] && path[0] in {LOCAL, ENTRY} && path[|path| - 1] in {INIT, ENTRY, LOAD2}
  }

  function Forked(path: seq<NodeId>, f: Flags): seq<Item>
    requires IsFork(path)
  {
    Next(path, f, Out(path[|path| - 1])[0].dst) + Next(path, f, Out(path[|path| - 1])[1].dst)
  }

  lemma TwoHops(picks: seq<nat>, u: seq<Item>, v: seq<Item>, z: Side, path: seq<NodeId>, f: Flags, h: Flags)
    requires IsFork(path) && PassesAs(path, f, h) && RunLooks(picks, u + [OnPath(path, f)] + v, z)
    ensures RunLooks(picks + [|u|], u + v + Forked(path, h), z)
  {
    var y := OnPath(path, h);
    var a, b := Out(y.cur)[0], Out(y.cur)[1];
    var s := Takes(picks, u, OnPath(path, f), v, z, y);
    TwoEdges(s, y, a, b);
    HopLooks(s, u + v, z, y, a);
    HopOnPath(path, h, a);
    HopLooks(ForwardPropagate(GRAPH, s, y, a), u + v + HopOf(y, a), z, y, b);
    HopOnPath(path, h, b);
    Grouped(u + v, HopOf(y, a), HopOf(y, b));
  }

  /** The path ends at a node from which the function is left. */
  predicate IsExit(path: seq<NodeId>) {
    |path| > 1 && path[0] == ENTRY && path[|path| - 1] in {EXIT, STORE} && BACK !in path
  }

  lemma HopAndReturn(picks: seq<nat>, u: seq<Item>, v: seq<Item>, z: Side, path: seq<NodeId>, f: Flags, h: Flags)
    requires IsExit(path) && PassesAs(path, f, h) && !h.directRet && RunLooks(picks, u + [OnPath(path, f)] + v, z)
    ensures RunLooks(picks + [|u|], u + v + (Next(path, h, LOAD2) + Woken(z, path, h)), Stored(z, path, h))
  {
    var y := OnPath(path, h);
    var a, b := Out(y.cur)[0], Out(y.cur)[1];
    var s := Takes(picks, u, OnPath(path, f), v, z, y);
    TwoEdges(s, y, a, b);
    HopLooks(s, u + v, z, y, a);
    HopOnPath(path, h, a);
    ReturnLooks(ForwardPropagate(GRAPH, s, y, a), u + v + HopOf(y, a), z, path, h, b);
    Grouped(u + v, HopOf(y, a), Woken(z, path, h));
  }

  lemma Calls(picks: seq<nat>, u: seq<Item>, v: seq<Item>, z: Side, path: seq<NodeId>)
    requires PassesAs(path, USED, USED) && path[|path| - 1] == CALL && path[0] == LOCAL
    requires RunLooks(picks, u + [OnPath(path, USED)] + v, z)
    ensures RunLooks(picks + [|u|], u + v + Called(z, path), Waits(z, path))
  {
    var y := OnPath(path, USED);
    var a := Out(CALL)[0];
    var s := Takes(picks, u, y, v, z, y);
    TwoEdges(s, y, a, a);
    CallLooks(s, u + v, z, path, a);
  }

  /** The item that left the frame of the local variable. */
  function Escaped(x: Item): Item {
    EscapeOf(x, Edge(BACK, OUTSIDE, IndRet(9)))
  }

  ghost predicate CanLeave(x: Item) {
    x.cur == BACK != x.prev && x.root == LOCAL && x.scope >= 0 && forall v :: v in x.trace ==> v.cxt != 9
  }

  lemma GoesBack(picks: seq<nat>, u: seq<Item>, v: seq<Item>, z: Side, x: Item)
    requires RunLooks(picks, u + [x] + v, z) && CanLeave(x)
    ensures RunLooks(picks + [|u|], u + v + (HopOf(x, Out(BACK)[0]) + [Escaped(x)]), z)
  {
    var a, b := Out(BACK)[0], Out(BACK)[1];
    var s := Takes(picks, u, x, v, z, x);
    TwoEdges(s, x, a, b);
    HopLooks(s, u + v, z, x, a);
    assert Visit(9, BACK) !in x.trace && CanResolve(x.trace, 9);
    Grouped(u + v, HopOf(x, a), [Escaped(x)]);
  }

  lemma IsOutside(picks: seq<nat>, u: seq<Item>, v: seq<Item>, z: Side, x: Item)
    requires RunLooks(picks, u + [Escaped(x)] + v, z) && x.cur == BACK && x.flags in {USED, DEREF}
    ensures RunLooks(picks + [|u|], u + v, if x.flags == USED then z else z.(recorded := z.recorded + {OUTSIDE}))
  {
    assert (picks + [|u|])[..|picks|] == picks;
    PopLooks(Run(GRAPH, picks), u, Escaped(x), v, z);
  }

  // ---- waiters and returns

  /** The first k nodes on the direct way to the call. */
  function Slow(k: nat): (p: seq<NodeId>)
    requires 1 <= k <= DELAY
    ensures |p| == k + 2 && p[0] == LOCAL && p[1] == INIT && forall i :: 2 <= i < |p| ==> p[i] == SLOW + i - 1
  {
    if k == 1 then [LOCAL, INIT, SLOW + 1] else Slow(k - 1) + [SLOW + k]
  }

  const DIRECT: seq<NodeId> := Slow(DELAY) + [CALL]
  const AROUND: seq<NodeId> := [LOCAL, INIT, BACK, CALL]

  /** The caller that came directly, and the one that came through BACK. */
  const FIRST: Item := Caller(DIRECT)
  const LATER: Item := Caller(AROUND)

  lemma ReturnVisits(path: seq<NodeId>, f: Flags)
    requires path != []
    ensures forall n :: Visit(1, n) in ReturnFrom(path, f).trace <==> n in path[1..]
    ensures forall n :: Visit(0, n) in ReturnFrom(path, f).trace <==> n == BACK
    ensures forall v :: v in ReturnFrom(path, f).trace ==> v.cxt == 0 || v.cxt == 1
  {
    var own := path[1..];
    var t := Rename(Zeros(own), 1);
    assert ReturnFrom(path, f).trace[|own|] == Visit(0, BACK);
    forall n | n in own ensures Visit(1, n) in t {
      var i :| 0 <= i < |own| && own[i] == n;
      assert t[i] == Visit(1, n);
    }
  }

  lemma ReturnsDiffer(p: seq<NodeId>, f: Flags, q: seq<NodeId>, h: Flags, n: NodeId)
    requires p != [] && q != [] && (n in p[1..] <==> n !in q[1..])
    ensures !Same(ReturnFrom(p, f), ReturnFrom(q, h))
  {
    ReturnVisits(p, f);
    ReturnVisits(q, h);
    assert Visit(1, n) in Visits(ReturnFrom(p, f).trace) <==> Visit(1, n) !in Visits(ReturnFrom(q, h).trace);
  }

  lemma ReturnsSame(p: seq<NodeId>, f: Flags, q: seq<NodeId>, h: Flags)
    requires p != [] && q != [] && forall n :: n in p[1..] <==> n in q[1..]
    ensures Same(ReturnFrom(p, f), ReturnFrom(q, h))
  {
    ReturnVisits(p, f);
    ReturnVisits(q, h);
    forall v ensures v in ReturnFrom(p, f).trace <==> v in ReturnFrom(q, h).trace {
      assert v == Visit(v.cxt, v.node);
    }
  }

  lemma FirstTrace()
    ensures FIRST.root == LOCAL && FIRST.scope >= 0 && Visit(0, CALL) in FIRST.trace
    ensures forall v :: v in FIRST.trace ==> v == Visit(1, ENTRY) || (v.cxt == 0 && v.node != BACK)
  {
    assert FIRST.trace == Zeros(DIRECT) + [Visit(1, ENTRY)];
    assert FIRST.trace[DELAY + 2] == Visit(0, CALL);
  }

  /** The caller that came through BACK cannot go there again. */
  lemma LaterJoinsNone(path: seq<NodeId>, f: Flags)
    requires path != []
    ensures JoinsOfReturn([LATER], ReturnFrom(path, f)) == []
  {
    ReturnVisits(path, f);
    assert LATER.trace[2] == Visit(0, BACK);
    assert Visit(0, BACK) in Visits(LATER.trace) && Visit(0, BACK) in Visits(ReturnFrom(path, f).trace);
    assert [LATER][..0] == [];
  }

  lemma FirstJoinable(path: seq<NodeId>, f: Flags)
    requires path != [] && ENTRY !in path[1..]
    ensures Joinable(FIRST, ReturnFrom(path, f))
    ensures JoinsOfReturn([FIRST], ReturnFrom(path, f)) == [Join(FIRST, ReturnFrom(path, f))]
  {
    ReturnVisits(path, f);
    FirstTrace();
    assert [FIRST][..0] == [];
  }

  /** A joined caller goes out with the flags of the return. */
  lemma JoinedGoesOut(path: seq<NodeId>, f: Flags)
    requires |path| > 1 && BACK !in path
    ensures var x := Join(FIRST, ReturnFrom(path, f));
            CanLeave(x) && x.flags == f && HopOf(x, Out(BACK)[0]) == []
  {
    ReturnVisits(path, f);
    FirstTrace();
  }
}
