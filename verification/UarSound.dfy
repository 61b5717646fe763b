/** Every item of the forward phase stands for a real walk through the graph in which each return
    comes back through the call site it was entered by. */
module UarSound {
  import opened Options
  import opened Traces
  import opened Svfg
  import opened UarState
  import opened UarFlags
  import opened UarTermination

  /** The trace of the local variable starts with its own node; a function entry is listed by its caller. */
  ghost function Prefix(g: Graph, root: NodeId): seq<Visit> {
    if root == g.source then [Visit(0, g.source)] else []
  }

  /** Item x walked w: a balanced walk from its root to its current node. */
  ghost predicate Walked(g: Graph, x: Item, w: Walk) {
    && ValidWalk(g, w, x.root)
    && x.cur == WalkEnd(w, x.root)
    && x.trace == Prefix(g, x.root) + WalkVisits(w)
  }

  /** Waiter x walked w and then entered a function: exactly one call is open. */
  ghost predicate WaitsAfter(g: Graph, key: Key, x: Item, w: Walk, call: Edge) {
    && x.scope >= 0
    && ValidWalk(g, w, x.root)
    && Follows(g, call, WalkEnd(w, x.root)) && Entered(g, call)
    && call.kind.cs == key.cs && call.dst == key.entry == x.cur
    && x.trace == Prefix(g, x.root) + WalkVisits(w) + [Visit(key.cs, key.entry)]
  }

  /** Return x walked w inside the function and left it: exactly one return is unmatched. */
  ghost predicate ReturnsAfter(g: Graph, key: Key, x: Item, w: Walk, ret: Edge) {
    && x.root == key.entry != g.source
    && ValidWalk(g, w, key.entry)
    && Follows(g, ret, WalkEnd(w, key.entry)) && ret.kind.IsRet()
    && ret.kind.cs == key.cs && x.cur == ret.dst
    && x.trace == Rename(WalkVisits(w), key.cs) + [Visit(0, ret.dst)]
  }

  /** Item x left the frame of the local variable by a return nothing in its walk entered. */
  ghost predicate EscapedAfter(g: Graph, x: Item, w: Walk, ret: Edge) {
    && x.root == g.source
    && ValidWalk(g, w, g.source)
    && Follows(g, ret, WalkEnd(w, g.source)) && ret.kind.IsRet()
    && x.cur == ret.dst && x.flags.directRet == ret.kind.DirRet?
    && x.trace == Rename(Prefix(g, g.source) + WalkVisits(w), ret.kind.cs)
                  + (if ret.kind.DirRet? then [] else [Visit(0, ret.dst)])
  }

  // ---- with the flags the rules gave it on the way

  ghost predicate ItemSound(g: Graph, ind: set<NodeId>, x: Item) {
    if x.scope >= 0 then exists w :: Walked(g, x, w) && WalkSpot(g, ind, x.root, w) == Some(SpotOf(x))
    else exists w, ret :: EscapedAfter(g, x, w, ret) && LeaveSpot(g, ind, x.root, w, ret) == Some(SpotOf(x))
  }

  ghost predicate WaiterSound(g: Graph, ind: set<NodeId>, key: Key, x: Item) {
    exists w, call :: WaitsAfter(g, key, x, w, call) && LeaveSpot(g, ind, x.root, w, call).Some?
  }

  ghost predicate ReturnSound(g: Graph, ind: set<NodeId>, key: Key, x: Item) {
    exists w, ret :: ReturnsAfter(g, key, x, w, ret) && LeaveSpot(g, ind, key.entry, w, ret) == Some(SpotOf(x))
  }

  ghost predicate AllSound(g: Graph, ind: set<NodeId>, items: seq<Item>) {
    forall x :: x in items ==> ItemSound(g, ind, x)
  }

  ghost predicate WaitersSound(g: Graph, ind: set<NodeId>, s: State, key: Key) {
    forall x :: x in At(s.waiting, key) ==> WaiterSound(g, ind, key, x)
  }

  ghost predicate ReturnsSound(g: Graph, ind: set<NodeId>, s: State, key: Key) {
    forall x :: x in At(s.rets, key) ==> ReturnSound(g, ind, key, x)
  }

  /** An item that left the frame of the local variable passed the rules at node n. */
  ghost predicate LeftAt(g: Graph, s: State, n: NodeId, direct: bool, x: Item) {
    x in s.done && x.scope < 0 && x.cur == n && x.flags.directRet == direct && ForwardChecks(g, x).Some?
  }

  ghost predicate OosSound(g: Graph, s: State) {
    && (forall n :: n in s.oosNodes ==> exists x :: LeftAt(g, s, n, false, x))
    && (forall n :: n in s.dirOosNodes ==> exists x :: LeftAt(g, s, n, true, x))
    && (forall n, t :: n in s.oosPaths && t in s.oosPaths[n] ==>
          exists x :: x in s.done && x.scope < 0 && x.cur == n && x.trace == t)
  }

  ghost predicate Sound(g: Graph, ind: set<NodeId>, s: State) {
    && AllSound(g, ind, s.worklist) && AllSound(g, ind, s.done)
    && (forall k :: WaitersSound(g, ind, s, k))
    && (forall k :: ReturnsSound(g, ind, s, k))
    && OosSound(g, s)
  }

  /** The spot at the end of walk w from root. */
  ghost function WalkSpot(g: Graph, ind: set<NodeId>, root: NodeId, w: Walk): Option<Spot> {
    Along(g, ind, RootSpot(g, ind, root), Flatten(w))
  }

  /** The spot behind edge e at the end of walk w. */
  ghost function LeaveSpot(g: Graph, ind: set<NodeId>, root: NodeId, w: Walk, e: Edge): Option<Spot> {
    Along(g, ind, RootSpot(g, ind, root), Flatten(w) + [e])
  }

  lemma LeaveIsMove(g: Graph, ind: set<NodeId>, root: NodeId, w: Walk, e: Edge)
    ensures LeaveSpot(g, ind, root, w, e) ==
            (match WalkSpot(g, ind, root, w) case None => None case Some(a) => Move(g, ind, a, e))
  {
    var p := Flatten(w) + [e];
    assert p[..|p| - 1] == Flatten(w) && p[|p| - 1] == e;
  }

  lemma RoundSpot(g: Graph, ind: set<NodeId>, root: NodeId, b: Walk, c: Edge, i: Walk, r: Edge)
    requires c.kind.IsCall() && c.dst != g.source
    ensures WalkSpot(g, ind, root, Round(b, c, i, r)) ==
            if LeaveSpot(g, ind, root, b, c).Some? then LeaveSpot(g, ind, c.dst, i, r) else None
  {
    AlongRound(g, ind, RootSpot(g, ind, root), Flatten(b), c, Flatten(i), r);
  }

  // ---- joins

  lemma Regroup<T>(a: seq<T>, b: seq<T>, c: seq<T>, d: seq<T>, e: seq<T>)
    ensures (a + b + c) + (d + e) == a + (b + c + d + e)
  {
  }

  lemma JoinSound(g: Graph, ind: set<NodeId>, key: Key, w: Item, r: Item)
    requires ValidGraph(g) && WaiterSound(g, ind, key, w) && ReturnSound(g, ind, key, r)
    ensures ItemSound(g, ind, Join(w, r))
  {
    var b, call :| WaitsAfter(g, key, w, b, call) && LeaveSpot(g, ind, w.root, b, call).Some?;
    var i, ret :| ReturnsAfter(g, key, r, i, ret) && LeaveSpot(g, ind, key.entry, i, ret) == Some(SpotOf(r));
    var round := Round(b, call, i, ret);
    Regroup(Prefix(g, w.root), WalkVisits(b), [Visit(key.cs, key.entry)],
            Rename(WalkVisits(i), key.cs), [Visit(0, ret.dst)]);
    RoundSpot(g, ind, w.root, b, call, i, ret);
    assert Walked(g, Join(w, r), round);
  }

  lemma {:induction false} JoinsOfWaiterSound(g: Graph, ind: set<NodeId>, key: Key, w: Item, rets: seq<Item>)
    requires ValidGraph(g) && WaiterSound(g, ind, key, w) && forall r :: r in rets ==> ReturnSound(g, ind, key, r)
    ensures AllSound(g, ind, JoinsOfWaiter(w, rets))
  {
    if rets != [] {
      JoinsOfWaiterSound(g, ind, key, w, rets[..|rets| - 1]);
      JoinSound(g, ind, key, w, rets[|rets| - 1]);
    }
  }

  lemma {:induction false} JoinsOfReturnSound(g: Graph, ind: set<NodeId>, key: Key, waiters: seq<Item>, r: Item)
    requires ValidGraph(g) && ReturnSound(g, ind, key, r) && forall w :: w in waiters ==> WaiterSound(g, ind, key, w)
    ensures AllSound(g, ind, JoinsOfReturn(waiters, r))
  {
    if waiters != [] {
      JoinsOfReturnSound(g, ind, key, waiters[..|waiters| - 1], r);
      JoinSound(g, ind, key, waiters[|waiters| - 1], r);
    }
  }

  // ---- the handlers

  /** Waiting sets, summaries and what was recorded are the same. */
  ghost predicate SameSets(s: State, t: State) {
    && s.done == t.done && s.waiting == t.waiting && s.rets == t.rets
    && s.oosNodes == t.oosNodes && s.dirOosNodes == t.dirOosNodes && s.oosPaths == t.oosPaths
  }

  lemma SameSetsSound(g: Graph, ind: set<NodeId>, s: State, t: State)
    requires Sound(g, ind, s) && SameSets(s, t) && AllSound(g, ind, t.worklist)
    ensures Sound(g, ind, t)
  {
    forall k ensures WaitersSound(g, ind, t, k) && ReturnsSound(g, ind, t, k) {
      assert WaitersSound(g, ind, s, k) && ReturnsSound(g, ind, s, k);
    }
    SameOos(g, s, t);
  }

  lemma SameOos(g: Graph, s: State, t: State)
    requires OosSound(g, s) && s.done == t.done
    requires s.oosNodes == t.oosNodes && s.dirOosNodes == t.dirOosNodes && s.oosPaths == t.oosPaths
    ensures OosSound(g, t)
  {
    forall n, x, d ensures LeftAt(g, s, n, d, x) <==> LeftAt(g, t, n, d, x) {}
  }

  lemma PushSound(g: Graph, ind: set<NodeId>, s: State, items: seq<Item>)
    requires Sound(g, ind, s) && AllSound(g, ind, items)
    ensures Sound(g, ind, Push(s, items))
  {
    SameSetsSound(g, ind, s, Push(s, items));
  }

  lemma AwaitSound(g: Graph, ind: set<NodeId>, s: State, key: Key, w: Item)
    requires Sound(g, ind, s) && WaiterSound(g, ind, key, w)
    ensures Sound(g, ind, Await(s, key, w))
  {
    var t := Await(s, key, w);
    forall k ensures WaitersSound(g, ind, t, k) && ReturnsSound(g, ind, t, k) {
      assert WaitersSound(g, ind, s, k) && ReturnsSound(g, ind, s, k);
    }
    SameOos(g, s, t);
  }

  lemma RecordSound(g: Graph, ind: set<NodeId>, s: State, key: Key, r: Item)
    requires Sound(g, ind, s) && ReturnSound(g, ind, key, r)
    ensures Sound(g, ind, Record(s, key, r))
  {
    var t := Record(s, key, r);
    forall k ensures WaitersSound(g, ind, t, k) && ReturnsSound(g, ind, t, k) {
      assert WaitersSound(g, ind, s, k) && ReturnsSound(g, ind, s, k);
    }
    SameOos(g, s, t);
  }

  lemma StartSound(g: Graph, ind: set<NodeId>, s: State, e: Edge)
    requires ValidGraph(g) && Sound(g, ind, s) && GoodEdge(g, e) && e.kind.IsCall()
    requires s.indirect <= s.started && Agrees(ind, StartFunction(s, e))
    ensures Sound(g, ind, StartFunction(s, e))
  {
    if e.dst !in s.started {
      SameSetsSound(g, ind, s, Started(s, e));
      assert e.dst in Started(s, e).started && (e.dst in ind <==> e.kind.IndCall?);
      assert Walked(g, EntryItem(e), Start) && WalkSpot(g, ind, e.dst, Start) == Some(SpotOf(EntryItem(e)));
      PushSound(g, ind, Started(s, e), [EntryItem(e)]);
    }
  }

  /** Item x passed the rules and became y. */
  ghost predicate PassedAs(g: Graph, ind: set<NodeId>, x: Item, y: Item, w: Walk) {
    && Walked(g, x, w) && WalkSpot(g, ind, x.root, w) == Some(SpotOf(x))
    && x.scope >= 0 && ForwardChecks(g, x) == Some(y)
  }

  /** An item that passed goes on over edge e to the spot the rules give it. */
  lemma PassedLeaves(g: Graph, ind: set<NodeId>, x: Item, y: Item, w: Walk, e: Edge)
    requires PassedAs(g, ind, x, y, w)
    ensures Walked(g, y, w)
    ensures LeaveSpot(g, ind, x.root, w, e) == Some(Arrive(ind, x.cur, e, y.flags))
  {
    SameChecks(g, x);
    LeaveIsMove(g, ind, x.root, w, e);
  }

  lemma EntrySound(g: Graph, ind: set<NodeId>, s: State, x: Item, y: Item, w: Walk, e: Edge)
    requires ValidGraph(g) && Sound(g, ind, s) && PassedAs(g, ind, x, y, w) && Follows(g, e, y.cur) && e.kind.IsCall()
    requires s.indirect <= s.started && Agrees(ind, HandleFunctionEntry(g, s, y, e))
    ensures Sound(g, ind, HandleFunctionEntry(g, s, y, e))
  {
    if Enters(g, y, e) {
      assert GoodEdge(g, e);
      PassedLeaves(g, ind, x, y, w, e);
      var z, key := CallerOf(y, e), KeyOfCall(e);
      assert WaitsAfter(g, key, z, w, e);
      assert ReturnsSound(g, ind, s, key);
      JoinsOfWaiterSound(g, ind, key, z, At(s.rets, key));
      PushSound(g, ind, s, JoinsOfWaiter(z, At(s.rets, key)));
      AwaitSound(g, ind, Replay(s, key, z), key, z);
      StartSound(g, ind, Await(Replay(s, key, z), key, z), e);
    }
  }

  lemma EscapeSound(g: Graph, ind: set<NodeId>, x: Item, y: Item, w: Walk, e: Edge)
    requires PassedAs(g, ind, x, y, w) && Follows(g, e, y.cur) && e.kind.IsRet() && x.root == g.source
    ensures ItemSound(g, ind, EscapeOf(y, e))
  {
    PassedLeaves(g, ind, x, y, w, e);
    assert Rename(y.trace, e.kind.cs) + [] == Rename(y.trace, e.kind.cs);
    assert EscapedAfter(g, EscapeOf(y, e), w, e);
  }

  lemma ReturnEdgeSound(g: Graph, ind: set<NodeId>, s: State, x: Item, y: Item, w: Walk, e: Edge)
    requires ValidGraph(g) && Sound(g, ind, s) && PassedAs(g, ind, x, y, w) && Follows(g, e, y.cur) && e.kind.IsRet()
    ensures Sound(g, ind, HandleFunctionReturn(g, s, y, e))
  {
    if CanResolve(y.trace, e.kind.cs) {
      if y.root == g.source {
        EscapeSound(g, ind, x, y, w, e);
        PushSound(g, ind, s, [EscapeOf(y, e)]);
      } else {
        PassedLeaves(g, ind, x, y, w, e);
        var r, key := ReturnOf(y, e), KeyOfReturn(y, e);
        assert [] + WalkVisits(w) == WalkVisits(w);
        assert ReturnsAfter(g, key, r, w, e) && SpotOf(r) == Arrive(ind, x.cur, e, y.flags);
        assert WaitersSound(g, ind, s, key);
        RecordSound(g, ind, s, key, r);
        JoinsOfReturnSound(g, ind, key, At(s.waiting, key), r);
        PushSound(g, ind, Record(s, key, r), JoinsOfReturn(At(s.waiting, key), r));
      }
    }
  }

  lemma HopSound(g: Graph, ind: set<NodeId>, x: Item, y: Item, w: Walk, e: Edge)
    requires PassedAs(g, ind, x, y, w) && Follows(g, e, y.cur) && e.kind.Intra?
    ensures ItemSound(g, ind, Visited(Advance(y, e), Visit(0, e.dst)))
  {
    PassedLeaves(g, ind, x, y, w, e);
    var z := Visited(Advance(y, e), Visit(0, e.dst));
    assert z.trace == Prefix(g, x.root) + WalkVisits(Hop(w, e));
    assert Walked(g, z, Hop(w, e));
  }

  lemma EdgeSound(g: Graph, ind: set<NodeId>, s: State, x: Item, y: Item, w: Walk, e: Edge)
    requires ValidGraph(g) && Sound(g, ind, s) && PassedAs(g, ind, x, y, w) && Follows(g, e, y.cur)
    requires StartsLegit(g, s) && Agrees(ind, ForwardPropagate(g, s, y, e))
    ensures Sound(g, ind, ForwardPropagate(g, s, y, e))
  {
    if e.kind.IsCall() {
      EntrySound(g, ind, s, x, y, w, e);
    } else if e.kind.IsRet() {
      ReturnEdgeSound(g, ind, s, x, y, w, e);
    } else if Visit(0, e.dst) !in y.trace {
      HopSound(g, ind, x, y, w, e);
      PushSound(g, ind, s, [Visited(Advance(y, e), Visit(0, e.dst))]);
    }
  }

  lemma {:induction false} EdgesSound(g: Graph, ind: set<NodeId>, s: State, x: Item, y: Item, w: Walk, edges: seq<Edge>)
    requires ValidGraph(g) && Sound(g, ind, s) && PassedAs(g, ind, x, y, w)
    requires StartsLegit(g, s) && Agrees(ind, PropagateAll(g, s, y, edges))
    requires forall e :: e in edges ==> Follows(g, e, y.cur)
    ensures Sound(g, ind, PropagateAll(g, s, y, edges)) && StartsLegit(g, PropagateAll(g, s, y, edges))
    ensures Agrees(ind, s)
  {
    if edges != [] {
      var init, last := edges[..|edges| - 1], edges[|edges| - 1];
      EdgeStarts(g, PropagateAll(g, s, y, init), y, last);
      EdgesSound(g, ind, s, x, y, w, init);
      EdgeSound(g, ind, PropagateAll(g, s, y, init), x, y, w, last);
    }
  }

  lemma PopSound(g: Graph, ind: set<NodeId>, s: State, k: nat)
    requires Sound(g, ind, s) && k < |s.worklist|
    ensures Sound(g, ind, Pop(s, k))
  {
    var t := Pop(s, k);
    forall key ensures WaitersSound(g, ind, t, key) && ReturnsSound(g, ind, t, key) {
      assert WaitersSound(g, ind, s, key) && ReturnsSound(g, ind, s, key);
    }
    forall n, x, d | LeftAt(g, s, n, d, x) ensures LeftAt(g, t, n, d, x) {}
  }

  lemma OosNodeSound(g: Graph, ind: set<NodeId>, s: State, x: Item, y: Item)
    requires Sound(g, ind, s) && x in s.done && x.scope < 0 && Some(y) == ForwardChecks(g, x)
    ensures Sound(g, ind, HandleOosNode(s, y))
  {
    var t := HandleOosNode(s, y);
    forall key ensures WaitersSound(g, ind, t, key) && ReturnsSound(g, ind, t, key) {
      assert WaitersSound(g, ind, s, key) && ReturnsSound(g, ind, s, key);
    }
    forall n, z, d | LeftAt(g, s, n, d, z) ensures LeftAt(g, t, n, d, z) {}
    assert LeftAt(g, t, y.cur, y.flags.directRet, x);
  }

  lemma StepSound(g: Graph, ind: set<NodeId>, s: State, k: nat)
    requires ValidGraph(g) && Sound(g, ind, s) && k < |s.worklist|
    requires StartsLegit(g, s) && Agrees(ind, Step(g, s, k))
    ensures Sound(g, ind, Step(g, s, k))
  {
    var x := s.worklist[k];
    assert x in s.worklist;
    PopSound(g, ind, s, k);
    match ForwardChecks(g, x)
    case None =>
    case Some(y) =>
      if y.scope < 0 {
        OosNodeSound(g, ind, Pop(s, k), x, y);
      } else {
        assert ItemSound(g, ind, x);
        var w :| Walked(g, x, w) && WalkSpot(g, ind, x.root, w) == Some(SpotOf(x));
        EdgesSound(g, ind, Pop(s, k), x, y, w, EdgesOf(g, y.cur));
      }
  }

  /** Every step starts functions only as some call does, and once for all. */
  lemma StepStarts(g: Graph, s: State, k: nat)
    requires ValidGraph(g) && StartsLegit(g, s) && k < |s.worklist|
    ensures StartsLegit(g, Step(g, s, k))
    ensures forall ind :: Agrees(ind, Step(g, s, k)) ==> Agrees(ind, s)
  {
    match ForwardChecks(g, s.worklist[k])
    case None =>
    case Some(y) =>
      if y.scope >= 0 {
        EdgesStart(g, Pop(s, k), y, EdgesOf(g, y.cur));
      }
  }

  lemma {:induction false} EdgesStart(g: Graph, s: State, x: Item, edges: seq<Edge>)
    requires ValidGraph(g) && StartsLegit(g, s) && forall e :: e in edges ==> Follows(g, e, x.cur)
    ensures StartsLegit(g, PropagateAll(g, s, x, edges))
    ensures forall ind :: Agrees(ind, PropagateAll(g, s, x, edges)) ==> Agrees(ind, s)
  {
    if edges != [] {
      EdgesStart(g, s, x, edges[..|edges| - 1]);
      EdgeStarts(g, PropagateAll(g, s, x, edges[..|edges| - 1]), x, edges[|edges| - 1]);
    }
  }

  lemma {:induction false} RunStarts(g: Graph, picks: seq<nat>)
    requires ValidGraph(g)
    ensures StartsLegit(g, Run(g, picks))
  {
    if picks != [] {
      RunStarts(g, picks[..|picks| - 1]);
      if picks[|picks| - 1] < |Run(g, picks[..|picks| - 1]).worklist| {
        StepStarts(g, Run(g, picks[..|picks| - 1]), picks[|picks| - 1]);
      }
    }
  }

  /** In every run each item stands for a real walk, along which the rules let it pass with its flags. */
  lemma {:induction false} RunSound(g: Graph, ind: set<NodeId>, picks: seq<nat>)
    requires ValidGraph(g) && Agrees(ind, Run(g, picks))
    ensures Sound(g, ind, Run(g, picks))
  {
    if picks == [] {
      assert SourceItem(g).trace == Prefix(g, g.source) + WalkVisits(Start);
      assert Walked(g, SourceItem(g), Start);
      assert WalkSpot(g, ind, g.source, Start) == Some(SpotOf(SourceItem(g)));
    } else {
      var init := picks[..|picks| - 1];
      RunStarts(g, init);
      if picks[|picks| - 1] < |Run(g, init).worklist| {
        StepStarts(g, Run(g, init), picks[|picks| - 1]);
        RunSound(g, ind, init);
        StepSound(g, ind, Run(g, init), picks[|picks| - 1]);
      } else {
        RunSound(g, ind, init);
      }
    }
  }
}
