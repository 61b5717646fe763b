/** The forward phase finds exactly the nodes at which a realisable walk leaves the frame of the
    local variable, whatever the schedule. */
module UarExact {
  import opened Options
  import opened Traces
  import opened Svfg
  import opened UarState
  import opened UarTermination
  import opened UarSound
  import opened UarFlags
  import opened UarJoins

  /** p is a path from the local variable whose calls and returns match, which visits nothing twice
      in one context, and e leaves the frame of the variable at its end. */
  ghost predicate Escapes(g: Graph, p: seq<Edge>, e: Edge) {
    && IsPath(g, g.source, p) && Stack([], p) == Some([])
    && Distinct([Visit(0, g.source)] + PathVisits([], p))
    && Follows(g, e, EndOf(g.source, p)) && e.kind.IsRet()
    && Resolvable(Visits([Visit(0, g.source)] + PathVisits([], p)), e.kind.cs)
  }

  /** The rules let an item pass along the path and past the node left to, if functions start as ind says. */
  ghost predicate LetOut(g: Graph, ind: set<NodeId>, p: seq<Edge>, e: Edge) {
    Passes(g, ind, RootSpot(g, ind, g.source), p + [e])
  }

  ghost predicate LetOutAt(g: Graph, ind: set<NodeId>, n: NodeId, direct: bool) {
    exists p, e :: Escapes(g, p, e) && LetOut(g, ind, p, e) && e.dst == n && e.kind.DirRet? == direct
  }

  // ---- soundness

  lemma EscapedEscapes(g: Graph, ind: set<NodeId>, x: Item)
    requires ValidGraph(g) && Fits(g, x) && x.scope < 0 && ItemSound(g, ind, x) && ForwardChecks(g, x).Some?
    ensures LetOutAt(g, ind, x.cur, x.flags.directRet)
  {
    var w, e :| EscapedAfter(g, x, w, e) && LeaveSpot(g, ind, x.root, w, e) == Some(SpotOf(x));
    DistinctConcat(Rename([Visit(0, g.source)] + WalkVisits(w), e.kind.cs),
                   if e.kind.DirRet? then [] else [Visit(0, e.dst)]);
    EscapesBy(g, w, e);
    SameChecks(g, x);
    assert LetOut(g, ind, Flatten(w), e);
  }

  lemma EscapesBy(g: Graph, w: Walk, e: Edge)
    requires ValidGraph(g) && ValidWalk(g, w, g.source) && Follows(g, e, WalkEnd(w, g.source)) && e.kind.IsRet()
    requires Distinct(Rename([Visit(0, g.source)] + WalkVisits(w), e.kind.cs))
    ensures Escapes(g, Flatten(w), e)
  {
    var t := [Visit(0, g.source)] + WalkVisits(w);
    assert GoodEdge(g, e);
    DistinctOfRename(t, e.kind.cs);
    RenameDistinct(t, e.kind.cs);
    WalkIsPath(g, w, g.source);
    WalkIsBalanced(g, w, g.source, []);
    RenameZero(WalkVisits(w));
  }

  lemma DoneFits(g: Graph, picks: seq<nat>, x: Item)
    requires ValidGraph(g) && x in Run(g, picks).done
    ensures Fits(g, x)
  {
    var init := picks[..|picks| - 1];
    var s := Run(g, init);
    RunBounded(g, init);
    if x in s.done {
      DoneFits(g, init, x);
    } else {
      DoneGrows(g, s, picks[|picks| - 1]);
    }
  }

  lemma DoneGrows(g: Graph, s: State, k: nat)
    requires k < |s.worklist|
    ensures Step(g, s, k).done == s.done + [s.worklist[k]]
  {
    var p := Pop(s, k);
    match ForwardChecks(g, s.worklist[k])
    case None =>
    case Some(y) => if y.scope >= 0 { DoneKept(g, p, y, EdgesOf(g, y.cur)); }
  }

  lemma {:induction false} DoneKept(g: Graph, s: State, x: Item, edges: seq<Edge>)
    ensures PropagateAll(g, s, x, edges).done == s.done
  {
    if edges != [] {
      DoneKept(g, s, x, edges[..|edges| - 1]);
    }
  }

  /** Whatever the statement rules are and whatever the schedule: a node is recorded as left only if a
      realisable walk leaves there that the rules let through, node by node, with the flags they gave it. */
  lemma OnlyEscapes(g: Graph, picks: seq<nat>)
    requires ValidGraph(g)
    ensures var s := Run(g, picks);
            && Legit(g, Starts(g, s)) && Agrees(Starts(g, s), s)
            && (forall n :: n in s.oosNodes ==> LetOutAt(g, Starts(g, s), n, false))
            && (forall n :: n in s.dirOosNodes ==> LetOutAt(g, Starts(g, s), n, true))
  {
    var s := Run(g, picks);
    var ind := Starts(g, s);
    RunStarts(g, picks);
    StartsAgree(g, s);
    RunSound(g, ind, picks);
    forall n, d: bool, x | LeftAt(g, s, n, d, x) ensures LetOutAt(g, ind, n, d) {
      DoneFits(g, picks, x);
      EscapedEscapes(g, ind, x);
    }
  }

  // ---- what completeness needs of the rules

  /** Walk w through the function entered at n is left by return r to call site cs, at spot a. */
  ghost predicate Leaves(g: Graph, n: NodeId, cs: CallSite, w: Walk, r: Edge, a: Spot) {
    && ValidWalk(g, w, n) && Follows(g, r, WalkEnd(w, n)) && r.kind.IsRet() && r.kind.cs == cs
    && Distinct(LeftTrace(w, r)) && LeaveSpot(g, CalledIndirectly(g), n, w, r) == Some(a)
  }

  /** The trace with which a function is left. */
  ghost function LeftTrace(w: Walk, r: Edge): seq<Visit>
    requires r.kind.IsRet()
  {
    Rename(WalkVisits(w), r.kind.cs) + [Visit(0, r.dst)]
  }

  /** Two ways through a function that are one to the stored returns are alike to the rules. */
  ghost predicate Confluent(g: Graph) {
    forall c, v, q, a, w, r, b ::
      CallInto(g, c) && Leaves(g, c.dst, c.kind.cs, v, q, a) && Leaves(g, c.dst, c.kind.cs, w, r, b) && q.dst == r.dst
        && Visits(LeftTrace(v, q)) == Visits(LeftTrace(w, r))
      ==> Alike(g, CalledIndirectly(g), a, b)
  }

  // ---- completeness

  /** What a finished run looks like. */
  ghost predicate Finished(g: Graph, ind: set<NodeId>, s: State) {
    && ValidGraph(g) && KindsAlike(g) && Confluent(g)
    && Legit(g, ind) && Sound(g, ind, s) && Closed(g, s) && Bounded(g, s)
    && s.worklist == [] && SourceItem(g) in s.done
  }

  /** Some handled item stands for walk w from root. */
  ghost predicate Represented(g: Graph, s: State, root: NodeId, w: Walk, x: Item) {
    && x in s.done && x.scope >= 0 && x.root == root && x.cur == WalkEnd(w, root)
    && Visits(x.trace) == Visits(Prefix(g, root) + WalkVisits(w))
    && AlikeTo(g, x, WalkSpot(g, CalledIndirectly(g), root, w))
  }

  ghost predicate AlikeTo(g: Graph, x: Item, a: Option<Spot>) {
    a.Some? && Alike(g, CalledIndirectly(g), SpotOf(x), a.value)
  }

  lemma AlikeToChecks(g: Graph, x: Item, a: Option<Spot>)
    requires AlikeTo(g, x, a) && Checked(g, a.value).Some?
    ensures ForwardChecks(g, x).Some?
  {
    AlikeChecks(g, CalledIndirectly(g), SpotOf(x), a.value);
    SameChecks(g, x);
  }

  /** The item over edge e is alike to the walk over edge e. */
  lemma AlikeToMoves(g: Graph, x: Item, root: NodeId, w: Walk, e: Edge, z: Item)
    requires AlikeTo(g, x, WalkSpot(g, CalledIndirectly(g), root, w)) && Follows(g, e, x.cur)
    requires !e.kind.IsCall() && LeaveSpot(g, CalledIndirectly(g), root, w, e).Some?
    requires ForwardChecks(g, x).Some? && SpotOf(z) == Arrive({}, x.cur, e, ForwardChecks(g, x).value.flags)
    ensures AlikeTo(g, z, LeaveSpot(g, CalledIndirectly(g), root, w, e))
  {
    var all := CalledIndirectly(g);
    SameChecks(g, x);
    LeaveIsMove(g, all, root, w, e);
    AlikeMoves(g, all, SpotOf(x), WalkSpot(g, all, root, w).value, e);
  }

  lemma LeavingPasses(g: Graph, ind: set<NodeId>, root: NodeId, w: Walk, e: Edge)
    requires LeaveSpot(g, ind, root, w, e).Some?
    ensures WalkSpot(g, ind, root, w).Some? && Checked(g, WalkSpot(g, ind, root, w).value).Some?
  {
    LeaveIsMove(g, ind, root, w, e);
  }

  lemma HandledAtEnd(g: Graph, ind: set<NodeId>, s: State, root: NodeId, w: Walk, x: Item, e: Edge) returns (y: Item)
    requires Finished(g, ind, s) && Represented(g, s, root, w, x) && Follows(g, e, x.cur)
    requires LeaveSpot(g, CalledIndirectly(g), root, w, e).Some?
    ensures ForwardChecks(g, x) == Some(y) && y == x.(flags := y.flags) && Handled(g, s, y, e)
  {
    LeavingPasses(g, CalledIndirectly(g), root, w, e);
    AlikeToChecks(g, x, WalkSpot(g, CalledIndirectly(g), root, w));
    y := ForwardChecks(g, x).value;
    assert Done(g, s, x);
    assert e in EdgesOf(g, y.cur);
  }

  /** A step inside the frame is taken unless it repeats a visit. */
  lemma HopRepresented(g: Graph, ind: set<NodeId>, s: State, root: NodeId, b: Walk, e: Edge, x: Item) returns (z: Item)
    requires Finished(g, ind, s) && Represented(g, s, root, b, x)
    requires Follows(g, e, WalkEnd(b, root)) && e.kind.Intra?
    requires LeaveSpot(g, CalledIndirectly(g), root, b, e).Some?
    requires Distinct(Prefix(g, root) + WalkVisits(Hop(b, e)))
    ensures Represented(g, s, root, Hop(b, e), z)
  {
    HopIsNew(Prefix(g, root), b, e, x.trace);
    var y := HandledAtEnd(g, ind, s, root, b, x, e);
    z := Visited(Advance(y, e), Visit(0, e.dst));
    assert Pushed(s, z);
    AlikeToMoves(g, x, root, b, e, z);
  }

  lemma HopIsNew(prefix: seq<Visit>, b: Walk, e: Edge, t: seq<Visit>)
    requires Visits(t) == Visits(prefix + WalkVisits(b)) && Distinct(prefix + WalkVisits(Hop(b, e)))
    ensures Visit(0, e.dst) !in t
    ensures Visits(t + [Visit(0, e.dst)]) == Visits(prefix + WalkVisits(Hop(b, e)))
  {
    var u, v := prefix + WalkVisits(b), Visit(0, e.dst);
    assert prefix + WalkVisits(Hop(b, e)) == u + [v];
    DistinctConcat(u, [v]);
    VisitsConcat(u, [v]);
    VisitsConcat(t, [v]);
    assert v in Visits([v]) && v !in Visits(t);
  }

  /** A handled caller waits for the function it called. */
  lemma CallerWaits(g: Graph, ind: set<NodeId>, s: State, root: NodeId, b: Walk, x: Item, c: Edge) returns (w: Item)
    requires Finished(g, ind, s) && Represented(g, s, root, b, x) && Follows(g, c, x.cur) && Entered(g, c)
    requires LeaveSpot(g, CalledIndirectly(g), root, b, c).Some? && Visit(c.kind.cs, c.dst) !in Visits(x.trace)
    ensures w in At(s.waiting, Key(c.kind.cs, c.dst)) && w.root == x.root && w.scope >= 0 && c.dst in s.started
    ensures Visits(w.trace) == Visits(x.trace) + Visits([Visit(c.kind.cs, c.dst)])
  {
    var key := Key(c.kind.cs, c.dst);
    var y := HandledAtEnd(g, ind, s, root, b, x, c);
    var iw :| 0 <= iw < |At(s.waiting, key)| && Same(At(s.waiting, key)[iw], CallerOf(y, c));
    w := At(s.waiting, key)[iw];
    assert WaitersSound(g, ind, s, key) && WaiterSound(g, ind, key, w);
    VisitsConcat(x.trace, [Visit(c.kind.cs, c.dst)]);
  }

  /** A handled item at the end of a called function has left its return, or one alike. */
  lemma ReturnIsKept(g: Graph, ind: set<NodeId>, s: State, c: Edge, i: Walk, r: Edge, u: Item) returns (ret: Item)
    requires Finished(g, ind, s) && Represented(g, s, c.dst, i, u) && CallInto(g, c) && ValidWalk(g, i, c.dst)
    requires Follows(g, r, WalkEnd(i, c.dst)) && r.kind.IsRet() && r.kind.cs == c.kind.cs
    requires LeaveSpot(g, CalledIndirectly(g), c.dst, i, r).Some? && Distinct(LeftTrace(i, r))
    ensures ret in At(s.rets, Key(c.kind.cs, c.dst)) && ret.cur == r.dst && Visits(ret.trace) == Visits(LeftTrace(i, r))
    ensures AlikeTo(g, ret, LeaveSpot(g, CalledIndirectly(g), c.dst, i, r))
  {
    assert GoodEdge(g, c);
    var key := Key(c.kind.cs, c.dst);
    var q := HandledAtEnd(g, ind, s, c.dst, i, u, r);
    ReturnIsRecorded(g, i, r, c, q);
    var ir :| 0 <= ir < |At(s.rets, key)| && Same(At(s.rets, key)[ir], ReturnOf(q, r));
    ret := At(s.rets, key)[ir];
    assert ReturnsSound(g, ind, s, key);
    assert FitSet(g, s.rets[key]) && Fits(g, ret);
    StoredIsAlike(g, ind, c, i, r, ret);
  }

  /** A stored return is alike to every way through the function that is the same to the store. */
  lemma StoredIsAlike(g: Graph, ind: set<NodeId>, c: Edge, i: Walk, r: Edge, ret: Item)
    requires ValidGraph(g) && KindsAlike(g) && Confluent(g) && Legit(g, ind) && CallInto(g, c)
    requires r.kind.IsRet() && LeaveSpot(g, CalledIndirectly(g), c.dst, i, r).Some?
    requires Leaves(g, c.dst, c.kind.cs, i, r, LeaveSpot(g, CalledIndirectly(g), c.dst, i, r).value)
    requires ReturnSound(g, ind, Key(c.kind.cs, c.dst), ret) && Distinct(ret.trace)
    requires ret.cur == r.dst && Visits(ret.trace) == Visits(LeftTrace(i, r))
    ensures AlikeTo(g, ret, LeaveSpot(g, CalledIndirectly(g), c.dst, i, r))
  {
    var b := LeaveSpot(g, CalledIndirectly(g), c.dst, i, r).value;
    var v, q, a := StoredWalk(g, ind, c, ret);
    assert Alike(g, CalledIndirectly(g), a, b);
    AlikeTrans(g, CalledIndirectly(g), SpotOf(ret), a, b);
  }

  /** The walk a stored return stands for, and its spot if functions start as any of their calls. */
  lemma StoredWalk(g: Graph, ind: set<NodeId>, c: Edge, ret: Item) returns (v: Walk, q: Edge, a: Spot)
    requires ValidGraph(g) && KindsAlike(g) && Legit(g, ind) && CallInto(g, c)
    requires ReturnSound(g, ind, Key(c.kind.cs, c.dst), ret) && Distinct(ret.trace)
    ensures Leaves(g, c.dst, c.kind.cs, v, q, a) && Alike(g, CalledIndirectly(g), SpotOf(ret), a)
    ensures ret.cur == q.dst && ret.trace == LeftTrace(v, q)
  {
    var all, key := CalledIndirectly(g), Key(c.kind.cs, c.dst);
    v, q :| ReturnsAfter(g, key, ret, v, q) && LeaveSpot(g, ind, c.dst, v, q) == Some(SpotOf(ret));
    LeavingAlike(g, ind, c, v, q);
    a := LeaveSpot(g, all, c.dst, v, q).value;
  }

  lemma LeavingIsPath(g: Graph, n: NodeId, v: Walk, q: Edge)
    requires ValidWalk(g, v, n) && Follows(g, q, WalkEnd(v, n)) && q.kind.IsRet()
    ensures IsPath(g, n, Flatten(v) + [q])
  {
    WalkIsPath(g, v, n);
    OneEdge(g, WalkEnd(v, n), q);
    PathConcat(g, n, Flatten(v), [q]);
  }

  lemma LeavingAlike(g: Graph, ind: set<NodeId>, c: Edge, v: Walk, q: Edge)
    requires ValidGraph(g) && KindsAlike(g) && Legit(g, ind) && CallInto(g, c)
    requires ValidWalk(g, v, c.dst) && Follows(g, q, WalkEnd(v, c.dst)) && q.kind.IsRet()
    requires LeaveSpot(g, ind, c.dst, v, q).Some?
    ensures LeaveSpot(g, CalledIndirectly(g), c.dst, v, q).Some?
    ensures Alike(g, CalledIndirectly(g), LeaveSpot(g, ind, c.dst, v, q).value,
                  LeaveSpot(g, CalledIndirectly(g), c.dst, v, q).value)
  {
    LeavingIsPath(g, c.dst, v, q);
    RootsAlike(g, ind, c);
    AlongAlike(g, ind, RootSpot(g, ind, c.dst), RootSpot(g, CalledIndirectly(g), c.dst), Flatten(v) + [q]);
  }

  lemma JoinIsDone(g: Graph, ind: set<NodeId>, s: State, key: Key, w: Item, ret: Item)
    requires Finished(g, ind, s) && w in At(s.waiting, key) && ret in At(s.rets, key) && Joinable(w, ret)
    ensures Join(w, ret) in s.done && Visits(Join(w, ret).trace) == Visits(w.trace) + Visits(ret.trace)
  {
  }

  /** A call is joined with the walk of its function and the return. */
  lemma RoundRepresented(g: Graph, ind: set<NodeId>, s: State, root: NodeId, w: Walk, x: Item, u: Item)
    returns (z: Item)
    requires Finished(g, ind, s) && ValidWalk(g, w, root) && w.Round?
    requires Represented(g, s, root, w.before, x) && Represented(g, s, w.call.dst, w.inner, u)
    requires WalkSpot(g, CalledIndirectly(g), root, w).Some? && Distinct(Prefix(g, root) + WalkVisits(w))
    ensures Represented(g, s, root, w, z)
  {
    var b, c, i, r := w.before, w.call, w.inner, w.ret;
    assert GoodEdge(g, c) && CallInto(g, c);
    var cs := c.kind.cs;
    var outer, entry := Prefix(g, root) + WalkVisits(b), [Visit(cs, c.dst)];
    var inner, back := Rename(WalkVisits(i), cs), [Visit(0, r.dst)];
    Regroup(Prefix(g, root), WalkVisits(b), entry, inner, back);
    RoundVisitSets(outer, entry, inner, back);
    RoundSpot(g, CalledIndirectly(g), root, b, c, i, r);
    var v := CallerWaits(g, ind, s, root, b, x, c);
    var ret := ReturnIsKept(g, ind, s, c, i, r, u);
    JoinIsDone(g, ind, s, Key(cs, c.dst), v, ret);
    z := Join(v, ret);
    assert SpotOf(z) == SpotOf(ret);
  }

  lemma RoundVisitSets(outer: seq<Visit>, entry: seq<Visit>, inner: seq<Visit>, back: seq<Visit>)
    requires Distinct((outer + entry) + (inner + back))
    ensures Distinct(inner + back) && Visits(outer) !! Visits(entry)
    ensures Visits(outer) + Visits(entry) !! Visits(inner + back)
    ensures Visits((outer + entry) + (inner + back)) == Visits(outer) + Visits(entry) + Visits(inner + back)
    ensures forall v :: v in entry ==> v !in Visits(outer)
  {
    DistinctConcat(outer + entry, inner + back);
    DistinctConcat(outer, entry);
    VisitsConcat(outer, entry);
    VisitsConcat(outer + entry, inner + back);
  }

  lemma ReturnIsRecorded(g: Graph, i: Walk, r: Edge, c: Edge, q: Item)
    requires GoodEdge(g, c) && c.kind.IsCall() && r.kind.IsRet() && r.kind.cs == c.kind.cs
    requires q.root == c.dst && Visits(q.trace) == Visits(Prefix(g, c.dst) + WalkVisits(i))
    requires Distinct(LeftTrace(i, r))
    ensures CanResolve(q.trace, r.kind.cs) && Visit(0, r.dst) !in Returning(q, r).trace
    ensures Visits(ReturnOf(q, r).trace) == Visits(LeftTrace(i, r))
  {
    var cs, t, back := c.kind.cs, WalkVisits(i), [Visit(0, r.dst)];
    assert Prefix(g, c.dst) + t == t;
    DistinctConcat(Rename(t, cs), back);
    DistinctOfRename(t, cs);
    RenameDistinct(t, cs);
    CanResolveIsResolvable(q.trace, cs);
    RenameVisits(t, cs);
    RenameVisits(q.trace, cs);
    VisitsConcat(Rename(t, cs), back);
    VisitsConcat(Rename(q.trace, cs), back);
  }

  /** A function that was started is represented at its entry. */
  lemma EntryRepresented(g: Graph, ind: set<NodeId>, s: State, c: Edge) returns (z: Item)
    requires Finished(g, ind, s) && CallInto(g, c) && c.dst in s.started
    ensures Represented(g, s, c.dst, Start, z)
  {
    assert GoodEdge(g, c);
    z :| Pushed(s, z) && z.cur == c.dst && z.root == c.dst && z.trace == [] && z.scope == 0;
    assert ItemSound(g, ind, z);
    var w :| Walked(g, z, w) && WalkSpot(g, ind, z.root, w) == Some(SpotOf(z));
    RootsAlike(g, ind, c);
  }

  /** Every balanced walk that repeats no visit and that the rules let through is found. */
  lemma {:induction false} Complete(g: Graph, ind: set<NodeId>, s: State, root: NodeId, w: Walk, x: Item)
    returns (z: Item)
    requires Finished(g, ind, s) && ValidWalk(g, w, root) && Represented(g, s, root, Start, x)
    requires Distinct(Prefix(g, root) + WalkVisits(w)) && WalkSpot(g, CalledIndirectly(g), root, w).Some?
    ensures Represented(g, s, root, w, z)
    decreases w
  {
    match w
    case Start => z := x;
    case Hop(b, e) =>
      assert Prefix(g, root) + WalkVisits(w) == Prefix(g, root) + WalkVisits(b) + [Visit(0, e.dst)];
      DistinctConcat(Prefix(g, root) + WalkVisits(b), [Visit(0, e.dst)]);
      LeavingPasses(g, CalledIndirectly(g), root, b, e);
      var y := Complete(g, ind, s, root, b, x);
      z := HopRepresented(g, ind, s, root, b, e, y);
    case Round(b, c, i, r) =>
      assert GoodEdge(g, c);
      RoundParts(Prefix(g, root), b, c, i, r);
      RoundSpot(g, CalledIndirectly(g), root, b, c, i, r);
      LeavingPasses(g, CalledIndirectly(g), root, b, c);
      LeavingPasses(g, CalledIndirectly(g), c.dst, i, r);
      var y := Complete(g, ind, s, root, b, x);
      var v := CallerWaits(g, ind, s, root, b, y, c);
      var entry := EntryRepresented(g, ind, s, c);
      var u := Complete(g, ind, s, c.dst, i, entry);
      z := RoundRepresented(g, ind, s, root, w, y, u);
  }

  /** A round that repeats no visit is made of parts that repeat none. */
  lemma RoundParts(prefix: seq<Visit>, b: Walk, c: Edge, i: Walk, r: Edge)
    requires c.kind.IsCall() && Distinct(prefix + WalkVisits(Round(b, c, i, r)))
    ensures Distinct(prefix + WalkVisits(b)) && Visit(c.kind.cs, c.dst) !in Visits(prefix + WalkVisits(b))
    ensures Distinct(WalkVisits(i)) && Distinct([] + WalkVisits(i))
  {
    var outer, entry := prefix + WalkVisits(b), [Visit(c.kind.cs, c.dst)];
    var inner, back := Rename(WalkVisits(i), c.kind.cs), [Visit(0, r.dst)];
    Regroup(prefix, WalkVisits(b), entry, inner, back);
    DistinctConcat(outer + entry, inner + back);
    DistinctConcat(outer, entry);
    DistinctConcat(inner, back);
    DistinctOfRename(WalkVisits(i), c.kind.cs);
    assert entry[0] in Visits(entry);
    assert [] + WalkVisits(i) == WalkVisits(i);
  }

  lemma SourceRepresented(g: Graph, s: State)
    requires SourceItem(g) in s.done
    ensures Represented(g, s, g.source, Start, SourceItem(g))
  {
    assert Along(g, CalledIndirectly(g), RootSpot(g, CalledIndirectly(g), g.source), []).Some?;
    assert [Visit(0, g.source)] + [] == [Visit(0, g.source)];
  }

  lemma EscapeIsRecorded(g: Graph, ind: set<NodeId>, s: State, p: seq<Edge>, e: Edge)
    requires Finished(g, ind, s) && Escapes(g, p, e) && LetOut(g, CalledIndirectly(g), p, e)
    ensures if e.kind.DirRet? then e.dst in s.dirOosNodes else e.dst in s.oosNodes
  {
    var f := Parse(g, g.source, p);
    SourceRepresented(g, s);
    LeavingPasses(g, CalledIndirectly(g), g.source, f.walk, e);
    var x := Complete(g, ind, s, g.source, f.walk, SourceItem(g));
    var y := HandledAtEnd(g, ind, s, g.source, f.walk, x, e);
    CanResolveIsResolvable(y.trace, e.kind.cs);
    var z := EscapeOf(y, e);
    assert z in s.done;
    AlikeToMoves(g, x, g.source, f.walk, e, z);
    AlikeToChecks(g, z, LeaveSpot(g, CalledIndirectly(g), g.source, f.walk, e));
    assert Done(g, s, z);
  }

  lemma {:induction false} SourceIsPushed(g: Graph, picks: seq<nat>)
    ensures Pushed(Run(g, picks), SourceItem(g))
  {
    if picks != [] {
      var s, k := Run(g, picks[..|picks| - 1]), picks[|picks| - 1];
      SourceIsPushed(g, picks[..|picks| - 1]);
      if k < |s.worklist| {
        NoLostJoins(g, picks[..|picks| - 1]);
        PopKeeps(s, k);
        ProcessCloses(g, Pop(s, k), s.worklist[k]);
      }
    }
  }

  /** Every run can be finished, and what it has recorded stays recorded. */
  lemma {:induction false} CanFinish(g: Graph, picks: seq<nat>) returns (more: seq<nat>)
    requires ValidGraph(g)
    ensures picks <= more && Run(g, more).worklist == []
    ensures Run(g, picks).oosNodes <= Run(g, more).oosNodes && Run(g, picks).dirOosNodes <= Run(g, more).dirOosNodes
    decreases Measure(g, Run(g, picks))
  {
    var s := Run(g, picks);
    if s.worklist == [] {
      return picks;
    }
    RunBounded(g, picks);
    StepDecreases(g, s, 0);
    NoLostJoins(g, picks);
    PopKeeps(s, 0);
    ProcessCloses(g, Pop(s, 0), s.worklist[0]);
    assert (picks + [0])[..|picks|] == picks;
    more := CanFinish(g, picks + [0]);
  }

  /** A path that the rules let out when functions start as ind says, they let out anyway. */
  lemma LetOutAlike(g: Graph, ind: set<NodeId>, n: NodeId, direct: bool)
    requires ValidGraph(g) && KindsAlike(g) && Legit(g, ind) && LetOutAt(g, ind, n, direct)
    ensures LetOutAt(g, CalledIndirectly(g), n, direct)
  {
    var all := CalledIndirectly(g);
    var p, e :| Escapes(g, p, e) && LetOut(g, ind, p, e) && e.dst == n && e.kind.DirRet? == direct;
    var a := RootSpot(g, all, g.source);
    OneEdge(g, EndOf(g.source, p), e);
    PathConcat(g, g.source, p, [e]);
    AlongAlike(g, ind, a, a, p + [e]);
    AlikeChecks(g, all, Along(g, ind, a, p + [e]).value, Along(g, all, a, p + [e]).value);
    assert LetOut(g, all, p, e);
  }

  /** When the worklist is empty, the recorded nodes are exactly those at which a realisable walk that
      the rules let through leaves the frame of the local variable. */
  lemma ForwardPhaseExact(g: Graph, picks: seq<nat>)
    requires ValidGraph(g) && KindsAlike(g) && Confluent(g) && Run(g, picks).worklist == []
    ensures forall n :: n in Run(g, picks).oosNodes <==> LetOutAt(g, CalledIndirectly(g), n, false)
    ensures forall n :: n in Run(g, picks).dirOosNodes <==> LetOutAt(g, CalledIndirectly(g), n, true)
    ensures forall n, d :: LetOutAt(g, CalledIndirectly(g), n, d) ==> PathsAt(Run(g, picks).oosPaths, n) != []
  {
    RunRecordsPaths(g, picks);
    var s, all := Run(g, picks), CalledIndirectly(g);
    var ind := Starts(g, s);
    NoLostJoins(g, picks);
    OnlyEscapes(g, picks);
    RunSound(g, ind, picks);
    RunBounded(g, picks);
    SourceIsPushed(g, picks);
    forall n, d: bool | LetOutAt(g, all, n, d) ensures if d then n in s.dirOosNodes else n in s.oosNodes {
      var p, e :| Escapes(g, p, e) && LetOut(g, all, p, e) && e.dst == n && e.kind.DirRet? == d;
      EscapeIsRecorded(g, ind, s, p, e);
    }
    forall n, d | LetOutAt(g, ind, n, d) ensures LetOutAt(g, all, n, d) {
      LetOutAlike(g, ind, n, d);
    }
  }

  /** Two schedules of the threads that both finish record the same nodes. */
  lemma ScheduleIndependent(g: Graph, one: seq<nat>, two: seq<nat>)
    requires ValidGraph(g) && KindsAlike(g) && Confluent(g)
    requires Run(g, one).worklist == [] && Run(g, two).worklist == []
    ensures Run(g, one).oosNodes == Run(g, two).oosNodes
    ensures Run(g, one).dirOosNodes == Run(g, two).dirOosNodes
  {
    ForwardPhaseExact(g, one);
    ForwardPhaseExact(g, two);
  }

  // ---- the recorded paths

  /** The traces of the handled items that left the frame at node n and passed the rules there. */
  ghost function PathsOf(g: Graph, done: seq<Item>, n: NodeId): seq<seq<Visit>> {
    if done == [] then [] else
      var x := done[|done| - 1];
      PathsOf(g, done[..|done| - 1], n) +
      if x.scope < 0 && x.cur == n && ForwardChecks(g, x).Some? then [x.trace] else []
  }

  /** The paths recorded for a node are these, and the nodes that have one are the recorded ones. */
  ghost predicate PathsRecorded(g: Graph, s: State) {
    && (forall n :: PathsAt(s.oosPaths, n) == PathsOf(g, s.done, n))
    && (forall n :: n in s.oosNodes || n in s.dirOosNodes <==> PathsOf(g, s.done, n) != [])
  }

  lemma {:induction false} EdgesKeepPaths(g: Graph, s: State, x: Item, edges: seq<Edge>)
    ensures var t := PropagateAll(g, s, x, edges);
            t.oosPaths == s.oosPaths && t.done == s.done && t.oosNodes == s.oosNodes && t.dirOosNodes == s.dirOosNodes
  {
    if edges != [] {
      EdgesKeepPaths(g, s, x, edges[..|edges| - 1]);
    }
  }

  lemma PathsOfMore(g: Graph, s: State, k: nat, n: NodeId)
    requires k < |s.worklist|
    ensures var x := s.worklist[k];
            PathsOf(g, Pop(s, k).done, n) ==
            PathsOf(g, s.done, n) + if x.scope < 0 && x.cur == n && ForwardChecks(g, x).Some? then [x.trace] else []
  {
    assert Pop(s, k).done[..|s.done|] == s.done;
  }

  lemma NodeRecordsPath(g: Graph, s: State, x: Item, y: Item, n: NodeId)
    requires x.scope < 0 && Some(y) == ForwardChecks(g, x)
    ensures var t := HandleOosNode(s, y);
            && PathsAt(t.oosPaths, n) == PathsAt(s.oosPaths, n) + (if x.cur == n then [x.trace] else [])
            && t.done == s.done
            && (n in t.oosNodes || n in t.dirOosNodes <==> n in s.oosNodes || n in s.dirOosNodes || x.cur == n)
  {
  }

  lemma StepRecordsPaths(g: Graph, s: State, k: nat)
    requires k < |s.worklist| && PathsRecorded(g, s)
    ensures PathsRecorded(g, Step(g, s, k))
  {
    var x, p, t := s.worklist[k], Pop(s, k), Step(g, s, k);
    forall n
      ensures PathsAt(t.oosPaths, n) == PathsOf(g, t.done, n)
      ensures n in t.oosNodes || n in t.dirOosNodes <==> PathsOf(g, t.done, n) != []
    {
      PathsOfMore(g, s, k, n);
      match ForwardChecks(g, x)
      case None =>
      case Some(y) =>
        if y.scope >= 0 {
          EdgesKeepPaths(g, p, y, EdgesOf(g, y.cur));
        } else {
          NodeRecordsPath(g, p, x, y, n);
        }
    }
  }

  /** In every run exactly the traces of the items that left are recorded, in the order they were handled. */
  lemma {:induction false} RunRecordsPaths(g: Graph, picks: seq<nat>)
    ensures PathsRecorded(g, Run(g, picks))
  {
    if picks != [] {
      RunRecordsPaths(g, picks[..|picks| - 1]);
      if picks[|picks| - 1] < |Run(g, picks[..|picks| - 1]).worklist| {
        StepRecordsPaths(g, Run(g, picks[..|picks| - 1]), picks[|picks| - 1]);
      }
    }
  }

  /** Every recorded path is the trace of a walk that leaves the frame there. */
  lemma PathsAreWalks(g: Graph, picks: seq<nat>, n: NodeId, t: seq<Visit>) returns (x: Item, w: Walk, ret: Edge)
    requires ValidGraph(g) && t in PathsAt(Run(g, picks).oosPaths, n)
    ensures EscapedAfter(g, x, w, ret) && x.cur == n && x.trace == t
  {
    var s := Run(g, picks);
    var ind := Starts(g, s);
    OnlyEscapes(g, picks);
    RunSound(g, ind, picks);
    x :| x in s.done && x.scope < 0 && x.cur == n && x.trace == t;
    assert ItemSound(g, ind, x);
    w, ret :| EscapedAfter(g, x, w, ret) && LeaveSpot(g, ind, x.root, w, ret) == Some(SpotOf(x));
  }
}
