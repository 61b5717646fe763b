/** With rules that look at flags, the schedule can decide what is found. Two schedules of one graph both
    finish: one records a node the local variable escapes to; the other, which is that of a single thread,
    records nothing. */
module UarRace {
  import opened Options
  import opened Traces
  import opened Svfg
  import opened UarState
  import opened UarFlags
  import opened UarExact
  import opened UarRaceSteps

  const GOOD: seq<NodeId> := [ENTRY, LOAD1, STORE, LOAD2, EXIT]
  const BAD: seq<NodeId> := [ENTRY, EXIT, LOAD2, LOAD1, STORE]
  const LOADED: seq<NodeId> := [ENTRY, LOAD1]
  const SHORT: seq<NodeId> := [ENTRY, LOAD1, STORE]
  const EMPTY: seq<NodeId> := [ENTRY, EXIT]
  const HALF: seq<NodeId> := [ENTRY, LOAD1, STORE, LOAD2]
  const TURN: seq<NodeId> := [ENTRY, EXIT, LOAD2]
  const ROUND: seq<NodeId> := [ENTRY, EXIT, LOAD2, LOAD1]

  const START: Side := Side([], [], {}, {})

  // ---- what happens at the end of each of these paths

  lemma AtEntry()
    ensures IsFork([ENTRY]) && PassesAs([ENTRY], USED, USED)
    ensures Forked([ENTRY], USED) == [OnPath(EMPTY, USED)] + [OnPath(LOADED, USED)]
  {
    assert [ENTRY] + [EXIT] == EMPTY && [ENTRY] + [LOAD1] == LOADED;
  }

  lemma AtEmpty()
    ensures IsExit(EMPTY) && PassesAs(EMPTY, USED, USED) && Next(EMPTY, USED, LOAD2) == [OnPath(TURN, USED)]
  {
    assert EMPTY + [LOAD2] == TURN;
  }

  lemma AtLoaded()
    ensures IsSingle(LOADED) && PassesAs(LOADED, USED, DEREF) && Hopped(LOADED, DEREF) == [OnPath(SHORT, DEREF)]
  {
    assert LOADED + [STORE] == SHORT;
  }

  lemma AtShort()
    ensures IsExit(SHORT) && PassesAs(SHORT, DEREF, USED) && Next(SHORT, USED, LOAD2) == [OnPath(HALF, USED)]
  {
    assert SHORT + [LOAD2] == HALF;
  }

  lemma AtHalf()
    ensures IsFork(HALF) && PassesAs(HALF, USED, DEREF) && Forked(HALF, DEREF) == [OnPath(GOOD, DEREF)]
  {
    assert HALF + [EXIT] == GOOD;
  }

  lemma AtGood()
    ensures IsExit(GOOD) && PassesAs(GOOD, DEREF, DEREF) && Next(GOOD, DEREF, LOAD2) == []
  {
    assert GOOD[3] == LOAD2;
  }

  lemma AtTurn()
    ensures IsFork(TURN) && PassesAs(TURN, USED, DEREF) && Forked(TURN, DEREF) == [OnPath(ROUND, DEREF)]
  {
    assert TURN + [LOAD1] == ROUND;
  }

  lemma AtRound()
    ensures IsSingle(ROUND) && PassesAs(ROUND, DEREF, DEREF) && Hopped(ROUND, DEREF) == [OnPath(BAD, DEREF)]
  {
    assert ROUND + [STORE] == BAD;
  }

  lemma AtBad()
    ensures IsExit(BAD) && PassesAs(BAD, DEREF, USED) && Next(BAD, USED, LOAD2) == []
  {
    assert BAD[2] == LOAD2;
  }

  /** The item k nodes down the direct way, and what follows it. */
  function Slowly(k: nat): Item
    requires 1 <= k <= DELAY
  {
    OnPath(Slow(k), USED)
  }

  function AfterSlow(k: nat): Item
    requires 1 <= k <= DELAY
  {
    if k < DELAY then Slowly(k + 1) else OnPath(DIRECT, USED)
  }

  lemma AtSlow(k: nat)
    requires 1 <= k <= DELAY
    ensures IsSingle(Slow(k)) && PassesAs(Slow(k), USED, USED) && Hopped(Slow(k), USED) == [AfterSlow(k)]
  {
    SlowPasses(k);
    SlowEdge(k);
    SlowNext(k);
  }

  lemma SlowPasses(k: nat)
    requires 1 <= k <= DELAY
    ensures IsSingle(Slow(k)) && Slow(k)[|Slow(k)| - 1] == SLOW + k && PassesAs(Slow(k), USED, USED)
  {
    SlowEnds(k);
  }

  lemma SlowEnds(k: nat)
    requires 1 <= k <= DELAY
    ensures Slow(k)[|Slow(k)| - 1] == SLOW + k
    ensures Slow(k)[|Slow(k)| - 2] == if k == 1 then INIT else SLOW + k - 1
  {
  }

  lemma SlowEdge(k: nat)
    requires 1 <= k <= DELAY
    ensures Out(SLOW + k)[0].dst == if k < DELAY then SLOW + k + 1 else CALL
  {
  }

  lemma SlowNext(k: nat)
    requires 1 <= k <= DELAY
    ensures Next(Slow(k), USED, if k < DELAY then SLOW + k + 1 else CALL) == [AfterSlow(k)]
  {
    var d := if k < DELAY then SLOW + k + 1 else CALL;
    assert forall i :: 0 <= i < |Slow(k)| ==> Slow(k)[i] != d;
  }

  // ---- one thread: always the item at the front

  /** What a single thread picks in n steps: its list is first-in-first-out. */
  function Fifo(n: nat): (picks: seq<nat>)
    ensures |picks| == n && forall i :: 0 <= i < n ==> picks[i] == 0
  {
    if n == 0 then [] else Fifo(n - 1) + [0]
  }

  ghost predicate Queue(n: nat, q: seq<Item>, z: Side) {
    RunLooks(Fifo(n), q, z)
  }

  lemma Front(n: nat, x: Item, v: seq<Item>, z: Side)
    requires Queue(n, [x] + v, z)
    ensures RunLooks(Fifo(n), [] + [x] + v, z) && Fifo(n) + [0] == Fifo(n + 1) && [] + v == v
  {
    assert [] + [x] + v == [x] + v;
  }

  lemma FrontHops(n: nat, v: seq<Item>, z: Side, path: seq<NodeId>, f: Flags, h: Flags)
    requires IsSingle(path) && PassesAs(path, f, h) && Queue(n, [OnPath(path, f)] + v, z)
    ensures Queue(n + 1, v + Hopped(path, h), z)
  {
    Front(n, OnPath(path, f), v, z);
    OneHop(Fifo(n), [], v, z, path, f, h);
  }

  lemma FrontForks(n: nat, v: seq<Item>, z: Side, path: seq<NodeId>, f: Flags, h: Flags)
    requires IsFork(path) && PassesAs(path, f, h) && Queue(n, [OnPath(path, f)] + v, z)
    ensures Queue(n + 1, v + Forked(path, h), z)
  {
    Front(n, OnPath(path, f), v, z);
    TwoHops(Fifo(n), [], v, z, path, f, h);
  }

  lemma FrontReturns(n: nat, v: seq<Item>, z: Side, path: seq<NodeId>, f: Flags, h: Flags)
    requires IsExit(path) && PassesAs(path, f, h) && !h.directRet
    requires Queue(n, [OnPath(path, f)] + v, z) && z.waiters == [LATER]
    ensures Queue(n + 1, v + Next(path, h, LOAD2), Stored(z, path, h))
  {
    Front(n, OnPath(path, f), v, z);
    HopAndReturn(Fifo(n), [], v, z, path, f, h);
    LaterJoinsNone(path, h);
    assert Next(path, h, LOAD2) + [] == Next(path, h, LOAD2);
  }

  lemma FrontCalls(n: nat, v: seq<Item>, z: Side, path: seq<NodeId>)
    requires PassesAs(path, USED, USED) && Queue(n, [OnPath(path, USED)] + v, z)
    requires path[|path| - 1] == CALL && path[0] == LOCAL
    ensures Queue(n + 1, v + Called(z, path), Waits(z, path))
  {
    Front(n, OnPath(path, USED), v, z);
    Calls(Fifo(n), [], v, z, path);
  }

  lemma FrontGoesBack(n: nat, v: seq<Item>, z: Side, x: Item)
    requires Queue(n, [x] + v, z) && CanLeave(x)
    ensures Queue(n + 1, v + (HopOf(x, Out(BACK)[0]) + [Escaped(x)]), z)
  {
    Front(n, x, v, z);
    GoesBack(Fifo(n), [], v, z, x);
  }

  lemma FrontDrops(n: nat, v: seq<Item>, z: Side, x: Item)
    requires Queue(n, [Escaped(x)] + v, z) && x.cur == BACK && x.flags == USED
    ensures Queue(n + 1, v, z)
  {
    Front(n, Escaped(x), v, z);
    IsOutside(Fifo(n), [], v, z, x);
  }

  lemma FrontIsSlow(n: nat, v: seq<Item>, z: Side, k: nat)
    requires 1 <= k <= DELAY && Queue(n, [Slowly(k)] + v, z)
    ensures Queue(n + 1, v + [AfterSlow(k)], z)
  {
    AtSlow(k);
    FrontHops(n, v, z, Slow(k), USED, USED);
  }

  // ---- the single thread inside the function

  lemma FrontEnters(n: nat, v: seq<Item>, z: Side)
    requires Queue(n, [OnPath([ENTRY], USED)] + v, z)
    ensures Queue(n + 1, v + ([OnPath(EMPTY, USED)] + [OnPath(LOADED, USED)]), z)
  {
    AtEntry();
    FrontForks(n, v, z, [ENTRY], USED, USED);
  }

  lemma FrontLoads(n: nat, v: seq<Item>, z: Side)
    requires Queue(n, [OnPath(LOADED, USED)] + v, z)
    ensures Queue(n + 1, v + [OnPath(SHORT, DEREF)], z)
  {
    AtLoaded();
    FrontHops(n, v, z, LOADED, USED, DEREF);
  }

  lemma FrontTurns(n: nat, v: seq<Item>, z: Side)
    requires Queue(n, [OnPath(TURN, USED)] + v, z)
    ensures Queue(n + 1, v + [OnPath(ROUND, DEREF)], z)
  {
    AtTurn();
    FrontForks(n, v, z, TURN, USED, DEREF);
  }

  lemma FrontRounds(n: nat, v: seq<Item>, z: Side)
    requires Queue(n, [OnPath(ROUND, DEREF)] + v, z)
    ensures Queue(n + 1, v + [OnPath(BAD, DEREF)], z)
  {
    AtRound();
    FrontHops(n, v, z, ROUND, DEREF, DEREF);
  }

  lemma FrontFinds(n: nat, v: seq<Item>, z: Side)
    requires Queue(n, [OnPath(HALF, USED)] + v, z)
    ensures Queue(n + 1, v + [OnPath(GOOD, DEREF)], z)
  {
    AtHalf();
    FrontForks(n, v, z, HALF, USED, DEREF);
  }

  lemma FrontReturnsEmpty(n: nat, v: seq<Item>, z: Side)
    requires Queue(n, [OnPath(EMPTY, USED)] + v, z) && z.waiters == [LATER]
    ensures Queue(n + 1, v + [OnPath(TURN, USED)], Stored(z, EMPTY, USED))
  {
    AtEmpty();
    FrontReturns(n, v, z, EMPTY, USED, USED);
  }

  lemma FrontReturnsShort(n: nat, v: seq<Item>, z: Side)
    requires Queue(n, [OnPath(SHORT, DEREF)] + v, z) && z.waiters == [LATER]
    ensures Queue(n + 1, v + [OnPath(HALF, USED)], Stored(z, SHORT, USED))
  {
    AtShort();
    FrontReturns(n, v, z, SHORT, DEREF, USED);
  }

  lemma FrontReturnsBad(n: nat, v: seq<Item>, z: Side)
    requires Queue(n, [OnPath(BAD, DEREF)] + v, z) && z.waiters == [LATER]
    ensures Queue(n + 1, v, Stored(z, BAD, USED))
  {
    AtBad();
    FrontReturns(n, v, z, BAD, DEREF, USED);
    assert v + [] == v;
  }

  lemma FrontReturnsGood(n: nat, v: seq<Item>, z: Side)
    requires Queue(n, [OnPath(GOOD, DEREF)] + v, z) && z.waiters == [LATER]
    ensures Queue(n + 1, v, Stored(z, GOOD, DEREF))
  {
    AtGood();
    FrontReturns(n, v, z, GOOD, DEREF, DEREF);
    assert v + [] == v;
  }

  // ---- the run of the single thread

  lemma Roll(a: Item, b: Item, c: Item)
    ensures [a, b] + [c] == [a] + [b, c]
  {
  }

  const TO_BACK: Item := OnPath([LOCAL, INIT, BACK], USED)

  lemma AtLocal()
    ensures SourceItem(GRAPH) == OnPath([LOCAL], NO_FLAGS)
    ensures IsSingle([LOCAL]) && PassesAs([LOCAL], NO_FLAGS, NO_FLAGS)
    ensures Hopped([LOCAL], NO_FLAGS) == [OnPath([LOCAL, INIT], NO_FLAGS)]
  {
    assert Zeros([LOCAL]) == [Visit(0, LOCAL)] && [LOCAL] + [INIT] == [LOCAL, INIT];
  }

  lemma AtInit()
    ensures IsFork([LOCAL, INIT]) && PassesAs([LOCAL, INIT], NO_FLAGS, USED)
    ensures Forked([LOCAL, INIT], USED) == [TO_BACK] + [Slowly(1)]
  {
    assert [LOCAL, INIT] + [BACK] == [LOCAL, INIT, BACK] && [LOCAL, INIT] + [SLOW + 1] == Slow(1);
  }

  lemma FifoBegins()
    ensures Queue(0, [OnPath([LOCAL], NO_FLAGS)] + [], START)
  {
    AtLocal();
    assert Run(GRAPH, []) == Init(GRAPH);
    assert [OnPath([LOCAL], NO_FLAGS)] + [] == [OnPath([LOCAL], NO_FLAGS)];
  }

  lemma FifoStarts()
    ensures Queue(2, [TO_BACK] + [Slowly(1)], START)
  {
    FifoBegins();
    AtLocal();
    FrontHops(0, [], START, [LOCAL], NO_FLAGS, NO_FLAGS);
    var y := OnPath([LOCAL, INIT], NO_FLAGS);
    assert [] + [y] == [y] + [];
    AtInit();
    FrontForks(1, [], START, [LOCAL, INIT], NO_FLAGS, USED);
    assert [] + ([TO_BACK] + [Slowly(1)]) == [TO_BACK] + [Slowly(1)];
  }

  lemma FifoGoesRound()
    ensures Queue(4, [OnPath(AROUND, USED)] + [Escaped(TO_BACK), Slowly(2)], START)
  {
    FifoStarts();
    var call, out := OnPath(AROUND, USED), Escaped(TO_BACK);
    FrontGoesBack(2, [Slowly(1)], START, TO_BACK);
    HopOnPath([LOCAL, INIT, BACK], USED, Out(BACK)[0]);
    assert [LOCAL, INIT, BACK] + [CALL] == AROUND;
    assert [Slowly(1)] + ([call] + [out]) == [Slowly(1)] + [call, out];
    FrontIsSlow(3, [call, out], START, 1);
    Roll(call, out, Slowly(2));
  }

  /** The call through BACK has started the function. */
  const WAITING: Side := Side([LATER], [], {ENTRY}, {})

  lemma FirstCall()
    ensures Waits(START, AROUND) == WAITING && Called(START, AROUND) == [OnPath([ENTRY], USED)]
  {
    assert Insert([], LATER) == [LATER] && {} + {ENTRY} == {ENTRY};
    assert JoinsOfWaiter(LATER, []) == [];
  }

  lemma FifoCallsAround()
    ensures Queue(6, [Slowly(2)] + [OnPath([ENTRY], USED)], WAITING)
  {
    FifoGoesRound();
    FirstCall();
    var out, e := Escaped(TO_BACK), OnPath([ENTRY], USED);
    FrontCalls(4, [out, Slowly(2)], START, AROUND);
    Roll(out, Slowly(2), e);
    FrontDrops(5, [Slowly(2), e], WAITING, TO_BACK);
    assert [Slowly(2), e] == [Slowly(2)] + [e];
  }

  lemma FifoEnters()
    ensures Queue(8, [Slowly(3)] + [OnPath(EMPTY, USED), OnPath(LOADED, USED)], WAITING)
  {
    FifoCallsAround();
    FrontIsSlow(6, [OnPath([ENTRY], USED)], WAITING, 2);
    FrontEnters(7, [Slowly(3)], WAITING);
  }

  lemma FifoReturnsEmpty()
    ensures Queue(11, [Slowly(4)] + [OnPath(TURN, USED), OnPath(SHORT, DEREF)], Stored(WAITING, EMPTY, USED))
  {
    FifoEnters();
    var o, l, t, z := OnPath(EMPTY, USED), OnPath(LOADED, USED), OnPath(TURN, USED), Stored(WAITING, EMPTY, USED);
    FrontIsSlow(8, [o, l], WAITING, 3);
    Roll(o, l, Slowly(4));
    FrontReturnsEmpty(9, [l, Slowly(4)], WAITING);
    Roll(l, Slowly(4), t);
    FrontLoads(10, [Slowly(4), t], z);
    Roll(Slowly(4), t, OnPath(SHORT, DEREF));
  }

  lemma FifoTurns(z: Side)
    requires Queue(11, [Slowly(4)] + [OnPath(TURN, USED), OnPath(SHORT, DEREF)], z) && z.waiters == [LATER]
    ensures Queue(14, [Slowly(5)] + [OnPath(ROUND, DEREF), OnPath(HALF, USED)], Stored(z, SHORT, USED))
  {
    var t, h, r := OnPath(TURN, USED), OnPath(SHORT, DEREF), OnPath(ROUND, DEREF);
    FrontIsSlow(11, [t, h], z, 4);
    Roll(t, h, Slowly(5));
    FrontTurns(12, [h, Slowly(5)], z);
    Roll(h, Slowly(5), r);
    FrontReturnsShort(13, [Slowly(5), r], z);
    Roll(Slowly(5), r, OnPath(HALF, USED));
  }

  lemma FifoRounds(z: Side)
    requires Queue(14, [Slowly(5)] + [OnPath(ROUND, DEREF), OnPath(HALF, USED)], z)
    ensures Queue(17, [Slowly(6)] + [OnPath(BAD, DEREF), OnPath(GOOD, DEREF)], z)
  {
    var r, h, b := OnPath(ROUND, DEREF), OnPath(HALF, USED), OnPath(BAD, DEREF);
    FrontIsSlow(14, [r, h], z, 5);
    Roll(r, h, Slowly(6));
    FrontRounds(15, [h, Slowly(6)], z);
    Roll(h, Slowly(6), b);
    FrontFinds(16, [Slowly(6), b], z);
    Roll(Slowly(6), b, OnPath(GOOD, DEREF));
  }

  lemma FifoReturnsBad(z: Side)
    requires Queue(17, [Slowly(6)] + [OnPath(BAD, DEREF), OnPath(GOOD, DEREF)], z) && z.waiters == [LATER]
    ensures Queue(20, [OnPath(DIRECT, USED)] + [], Stored(Stored(z, BAD, USED), GOOD, DEREF))
  {
    var b, g, d := OnPath(BAD, DEREF), OnPath(GOOD, DEREF), OnPath(DIRECT, USED);
    FrontIsSlow(17, [b, g], z, 6);
    Roll(b, g, d);
    FrontReturnsBad(18, [g, d], z);
    assert [g, d] == [g] + [d] && [d] == [d] + [];
    FrontReturnsGood(19, [d], Stored(z, BAD, USED));
  }

  /** What the store keeps: the good way comes too late. */
  const KEPT: seq<Item> := [ReturnFrom(EMPTY, USED), ReturnFrom(SHORT, USED), ReturnFrom(BAD, USED)]

  const ALL_WAIT: Side := Side([LATER], KEPT, {ENTRY}, {})

  lemma KeptInOrder()
    ensures Insert(Insert(Insert([], KEPT[0]), KEPT[1]), KEPT[2]) == KEPT
  {
    ReturnsDiffer(EMPTY, USED, BAD, USED, STORE);
    ReturnsDiffer(EMPTY, USED, SHORT, USED, STORE);
    ReturnsDiffer(SHORT, USED, BAD, USED, EXIT);
    ThreeInOrder(KEPT[0], KEPT[1], KEPT[2]);
  }

  lemma ThreeInOrder(x: Item, y: Item, z: Item)
    requires !Same(x, y) && !Same(x, z) && !Same(y, z)
    ensures Insert(Insert(Insert([], x), y), z) == [x, y, z]
  {
    assert Insert([x], y) == [x, y];
  }

  lemma GoodIsNotKept()
    ensures Insert(KEPT, ReturnFrom(GOOD, DEREF)) == KEPT
  {
    ReturnsSame(BAD, USED, GOOD, DEREF);
    assert Same(KEPT[2], ReturnFrom(GOOD, DEREF));
  }

  lemma FifoIsStored()
    ensures Queue(20, [OnPath(DIRECT, USED)] + [], ALL_WAIT)
  {
    FifoReturnsEmpty();
    var z := Stored(WAITING, EMPTY, USED);
    FifoTurns(z);
    z := Stored(z, SHORT, USED);
    FifoRounds(z);
    FifoReturnsBad(z);
    KeptInOrder();
    GoodIsNotKept();
  }

  function Joined(path: seq<NodeId>, f: Flags): Item
    requires path != []
  {
    Join(FIRST, ReturnFrom(path, f))
  }

  lemma JoinsWithKept()
    ensures JoinsOfWaiter(FIRST, KEPT) == [Joined(EMPTY, USED)] + [Joined(SHORT, USED), Joined(BAD, USED)]
  {
    FirstJoinable(EMPTY, USED);
    FirstJoinable(BAD, USED);
    FirstJoinable(SHORT, USED);
    assert KEPT[..2] == [KEPT[0], KEPT[1]] && KEPT[..2][..1] == [KEPT[0]] && KEPT[..2][..1][..0] == [];
    assert JoinsOfWaiter(FIRST, KEPT[..2][..1]) == [Join(FIRST, KEPT[0])];
    assert JoinsOfWaiter(FIRST, KEPT[..2]) == [Join(FIRST, KEPT[0])] + [Join(FIRST, KEPT[1])];
  }

  lemma FifoCallsLate()
    ensures Queue(21, [Joined(EMPTY, USED)] + [Joined(SHORT, USED), Joined(BAD, USED)], Waits(ALL_WAIT, DIRECT))
  {
    FifoIsStored();
    FrontCalls(20, [], ALL_WAIT, DIRECT);
    JoinsWithKept();
    var q := [Joined(EMPTY, USED)] + [Joined(SHORT, USED), Joined(BAD, USED)];
    assert [] + (q + []) == q;
  }

  lemma FrontLeaves(n: nat, v: seq<Item>, z: Side, path: seq<NodeId>, f: Flags)
    requires |path| > 1 && BACK !in path && Queue(n, [Joined(path, f)] + v, z)
    ensures Queue(n + 1, v + [Escaped(Joined(path, f))], z)
  {
    JoinedGoesOut(path, f);
    FrontGoesBack(n, v, z, Joined(path, f));
    assert [] + [Escaped(Joined(path, f))] == [Escaped(Joined(path, f))];
  }

  lemma FrontIsDropped(n: nat, v: seq<Item>, z: Side, path: seq<NodeId>)
    requires |path| > 1 && BACK !in path && Queue(n, [Escaped(Joined(path, USED))] + v, z)
    ensures Queue(n + 1, v, z)
  {
    JoinedGoesOut(path, USED);
    FrontDrops(n, v, z, Joined(path, USED));
  }

  /** The single thread stops after 27 steps and has recorded nothing: the direct caller came last and met the
      stored returns only. */
  lemma SingleThreadFindsNothing()
    ensures var s := Run(GRAPH, Fifo(27)); s.worklist == [] && s.oosNodes == {} && s.dirOosNodes == {}
  {
    FifoCallsLate();
    var a, b, c, z := Joined(EMPTY, USED), Joined(SHORT, USED), Joined(BAD, USED), Waits(ALL_WAIT, DIRECT);
    FrontLeaves(21, [b, c], z, EMPTY, USED);
    Roll(b, c, Escaped(a));
    FrontLeaves(22, [c, Escaped(a)], z, SHORT, USED);
    Roll(c, Escaped(a), Escaped(b));
    FrontLeaves(23, [Escaped(a), Escaped(b)], z, BAD, USED);
    AllAreDropped(z);
  }

  lemma AllAreDropped(z: Side)
    requires Queue(24, [Escaped(Joined(EMPTY, USED)), Escaped(Joined(SHORT, USED))] + [Escaped(Joined(BAD, USED))], z)
    ensures Queue(27, [], z)
  {
    var a, b, c := Escaped(Joined(EMPTY, USED)), Escaped(Joined(SHORT, USED)), Escaped(Joined(BAD, USED));
    Roll(a, b, c);
    FrontIsDropped(24, [b, c], z, EMPTY);
    assert [b, c] == [b] + [c] && [c] == [c] + [];
    FrontIsDropped(25, [c], z, SHORT);
    FrontIsDropped(26, [], z, BAD);
  }

  // ---- another schedule: the direct caller comes first

  lemma SlowDown(k: nat) returns (picks: seq<nat>)
    requires 1 <= k <= DELAY
    ensures RunLooks(picks, [TO_BACK] + [Slowly(k)] + [], START)
  {
    if k == 1 {
      SlowStarts();
      picks := Fifo(2);
    } else {
      var before := SlowDown(k - 1);
      SlowStep(before, k - 1);
      picks := before + [1];
    }
  }

  lemma SlowStarts()
    ensures RunLooks(Fifo(2), [TO_BACK] + [Slowly(1)] + [], START)
  {
    FifoStarts();
    AtEnd([TO_BACK], Slowly(1));
  }

  /** What is left of the last item, or of the last before v, in the ways the steps write it. */
  lemma AtEnd(u: seq<Item>, x: Item)
    ensures u + [] + [x] == u + [x] + [] && u + [x] + [] == u + [x] && u + [] == u
  {
  }

  lemma AtEndOf(u: seq<Item>, a: seq<Item>, b: seq<Item>)
    ensures u + [] + (a + b) == u + a + b && u + ([] + b) == u + b && u + [] + ([] + b) == u + b
  {
  }

  lemma SlowStep(picks: seq<nat>, k: nat)
    requires 1 <= k <= DELAY && RunLooks(picks, [TO_BACK] + [Slowly(k)] + [], START)
    ensures RunLooks(picks + [1], [TO_BACK] + [AfterSlow(k)] + [], START)
  {
    AtSlow(k);
    OneHop(picks, [TO_BACK], [], START, Slow(k), USED, USED);
    AtEnd([TO_BACK], AfterSlow(k));
  }

  const DIRECT_WAITS: Side := Side([FIRST], [], {ENTRY}, {})

  lemma DirectCall()
    ensures Waits(START, DIRECT) == DIRECT_WAITS && Called(START, DIRECT) == [OnPath([ENTRY], USED)]
  {
    assert Insert([], FIRST) == [FIRST] && {} + {ENTRY} == {ENTRY};
    assert JoinsOfWaiter(FIRST, []) == [];
  }

  lemma DirectCalls() returns (picks: seq<nat>)
    ensures RunLooks(picks, [TO_BACK] + [OnPath([ENTRY], USED)] + [], DIRECT_WAITS)
  {
    picks := SlowDown(DELAY);
    SlowStep(picks, DELAY);
    assert AfterSlow(DELAY) == OnPath(DIRECT, USED);
    picks := picks + [1];
    Calls(picks, [TO_BACK], [], START, DIRECT);
    DirectCall();
    AtEnd([TO_BACK], OnPath([ENTRY], USED));
    picks := picks + [1];
  }

  lemma DirectEnters() returns (picks: seq<nat>)
    ensures RunLooks(picks, [TO_BACK, OnPath(EMPTY, USED)] + [OnPath(LOADED, USED)] + [], DIRECT_WAITS)
  {
    picks := DirectCalls();
    AtEntry();
    TwoHops(picks, [TO_BACK], [], DIRECT_WAITS, [ENTRY], USED, USED);
    var o, l := OnPath(EMPTY, USED), OnPath(LOADED, USED);
    assert [TO_BACK] + [] + ([o] + [l]) == [TO_BACK, o] + [l] + [];
    picks := picks + [1];
  }

  lemma LoadsFirst(picks: seq<nat>, u: seq<Item>, z: Side)
    requires RunLooks(picks, u + [OnPath(LOADED, USED)] + [], z)
    ensures RunLooks(picks + [|u|], u + [OnPath(SHORT, DEREF)] + [], z)
  {
    AtLoaded();
    OneHop(picks, u, [], z, LOADED, USED, DEREF);
    AtEnd(u, OnPath(SHORT, DEREF));
  }

  lemma ReturnsShort(picks: seq<nat>, u: seq<Item>, z: Side)
    requires RunLooks(picks, u + [OnPath(SHORT, DEREF)] + [], z)
    ensures RunLooks(picks + [|u|], u + [OnPath(HALF, USED)] + Woken(z, SHORT, USED), Stored(z, SHORT, USED))
  {
    AtShort();
    HopAndReturn(picks, u, [], z, SHORT, DEREF, USED);
    AtEndOf(u, [OnPath(HALF, USED)], Woken(z, SHORT, USED));
  }

  lemma LoadsSecond(picks: seq<nat>, u: seq<Item>, v: seq<Item>, z: Side)
    requires RunLooks(picks, u + [OnPath(HALF, USED)] + v, z)
    ensures RunLooks(picks + [|u|], u + v + [OnPath(GOOD, DEREF)] + [], z)
  {
    AtHalf();
    TwoHops(picks, u, v, z, HALF, USED, DEREF);
    AtEnd(u + v, OnPath(GOOD, DEREF));
  }

  lemma ReturnsGood(picks: seq<nat>, u: seq<Item>, z: Side)
    requires RunLooks(picks, u + [OnPath(GOOD, DEREF)] + [], z)
    ensures RunLooks(picks + [|u|], u + Woken(z, GOOD, DEREF), Stored(z, GOOD, DEREF))
  {
    AtGood();
    HopAndReturn(picks, u, [], z, GOOD, DEREF, DEREF);
    AtEndOf(u, [], Woken(z, GOOD, DEREF));
  }

  lemma LeavesGood(picks: seq<nat>, u: seq<Item>, z: Side)
    requires RunLooks(picks, u + [Joined(GOOD, DEREF)], z)
    ensures RunLooks(picks + [|u|], u + [Escaped(Joined(GOOD, DEREF))] + [], z)
  {
    var x := Joined(GOOD, DEREF);
    JoinedGoesOut(GOOD, DEREF);
    AtEnd(u, x);
    GoesBack(picks, u, [], z, x);
    AtEndOf(u, [], [Escaped(x)]);
    AtEnd(u, Escaped(x));
  }

  /** The direct caller calls first and meets every return: the node outside is recorded. */
  lemma DirectFirst() returns (picks: seq<nat>)
    ensures OUTSIDE in Run(GRAPH, picks).oosNodes
  {
    picks := DirectEnters();
    var u, z := [TO_BACK, OnPath(EMPTY, USED)], DIRECT_WAITS;
    LoadsFirst(picks, u, z);
    ReturnsShort(picks + [|u|], u, z);
    picks := picks + [|u|] + [|u|];
    picks := DirectFinds(picks, u, Woken(z, SHORT, USED), Stored(z, SHORT, USED));
  }

  lemma DirectFinds(start: seq<nat>, u: seq<Item>, v: seq<Item>, z: Side) returns (picks: seq<nat>)
    requires RunLooks(start, u + [OnPath(HALF, USED)] + v, z) && z.waiters == [FIRST]
    ensures OUTSIDE in Run(GRAPH, picks).oosNodes
  {
    LoadsSecond(start, u, v, z);
    picks := start + [|u|];
    FirstJoinable(GOOD, DEREF);
    ReturnsGood(picks, u + v, z);
    picks := picks + [|u + v|];
    picks := GoodEscapes(picks, u + v, Stored(z, GOOD, DEREF));
  }

  lemma GoodEscapes(start: seq<nat>, u: seq<Item>, z: Side) returns (picks: seq<nat>)
    requires RunLooks(start, u + [Joined(GOOD, DEREF)], z)
    ensures OUTSIDE in Run(GRAPH, picks).oosNodes
  {
    LeavesGood(start, u, z);
    picks := start + [|u|];
    JoinedGoesOut(GOOD, DEREF);
    IsOutside(picks, u, [], z, Joined(GOOD, DEREF));
    picks := picks + [|u|];
  }

  /** Two schedules that both finish record different nodes: the returns of the one function that are the
      same to the store are not alike to the rules. The second is that of a single thread. */
  lemma SchedulesDiffer() returns (one: seq<nat>)
    ensures ValidGraph(GRAPH) && Run(GRAPH, one).worklist == [] && Run(GRAPH, Fifo(27)).worklist == []
    ensures OUTSIDE in Run(GRAPH, one).oosNodes && LetOutAt(GRAPH, Starts(GRAPH, Run(GRAPH, one)), OUTSIDE, false)
    ensures Run(GRAPH, Fifo(27)).oosNodes == {} && Run(GRAPH, Fifo(27)).dirOosNodes == {}
    ensures KindsAlike(GRAPH) && !Confluent(GRAPH)
  {
    GraphIsValid();
    one := DirectFirst();
    one := CanFinish(GRAPH, one);
    OnlyEscapes(GRAPH, one);
    SingleThreadFindsNothing();
    OneCallOnly();
    if Confluent(GRAPH) {
      ScheduleIndependent(GRAPH, one, Fifo(27));
    }
  }

  lemma OneCallOnly()
    ensures KindsAlike(GRAPH)
  {
    forall d, e | CallInto(GRAPH, d) && CallInto(GRAPH, e) && d.dst == e.dst
      ensures Alike(GRAPH, CalledIndirectly(GRAPH), SpotOf(EntryItem(d)), SpotOf(EntryItem(e)))
    {
      OneCall(d);
      OneCall(e);
    }
  }

  lemma OneCall(e: Edge)
    requires CallInto(GRAPH, e)
    ensures e == Edge(CALL, ENTRY, IndCall(1))
  {
    assert e in Out(e.src);
  }
}
