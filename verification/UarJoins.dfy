/** No join is lost: whichever of a waiter and a return comes first, both meet, and every handled
    item leaves all its consequences behind. */
module UarJoins {
  import opened Options
  import opened Traces
  import opened Svfg
  import opened UarState

  /** Every waiter and every recorded return of one key that can be joined have been joined. */
  ghost predicate JoinsClosed(s: State) {
    forall k, w, r :: w in At(s.waiting, k) && r in At(s.rets, k) && Joinable(w, r) ==> Pushed(s, Join(w, r))
  }

  /** A function that was started has had its own item pushed. */
  ghost predicate StartedClosed(s: State) {
    forall n :: n in s.started ==>
      exists x :: Pushed(s, x) && x.cur == n && x.root == n && x.trace == [] && x.scope == 0
  }

  /** What following edge e from item x must have left behind. */
  ghost predicate Handled(g: Graph, s: State, x: Item, e: Edge) {
    if e.kind.IsCall() then
      Enters(g, x, e) ==> Holds(At(s.waiting, KeyOfCall(e)), CallerOf(x, e)) && e.dst in s.started
    else if e.kind.IsRet() then
      CanResolve(x.trace, e.kind.cs) ==>
        if x.root == g.source then Pushed(s, EscapeOf(x, e))
        else Visit(0, e.dst) !in Returning(x, e).trace ==> Holds(At(s.rets, KeyOfReturn(x, e)), ReturnOf(x, e))
    else
      Visit(0, e.dst) !in x.trace ==> Pushed(s, Visited(Advance(x, e), Visit(0, e.dst)))
  }

  /** What handling item x must have left behind. */
  ghost predicate Done(g: Graph, s: State, x: Item) {
    match ForwardChecks(g, x)
    case None => true
    case Some(y) =>
      if y.scope < 0 then
        && (if y.flags.directRet then y.cur in s.dirOosNodes else y.cur in s.oosNodes)
        && x.trace in PathsAt(s.oosPaths, x.cur)
      else forall e :: e in EdgesOf(g, y.cur) ==> Handled(g, s, y, e)
  }

  ghost predicate Closed(g: Graph, s: State) {
    && JoinsClosed(s) && StartedClosed(s)
    && forall x :: x in s.done ==> Done(g, s, x)
  }

  /** t holds everything s holds. */
  ghost predicate Extends(s: State, t: State) {
    && (forall x :: Pushed(s, x) ==> Pushed(t, x))
    && (forall k :: At(s.waiting, k) <= At(t.waiting, k))
    && (forall k :: At(s.rets, k) <= At(t.rets, k))
    && s.started <= t.started && s.oosNodes <= t.oosNodes && s.dirOosNodes <= t.dirOosNodes
    && (forall n :: PathsAt(s.oosPaths, n) <= PathsAt(t.oosPaths, n))
    && s.done == t.done
  }

  lemma ExtendsTrans(s: State, t: State, u: State)
    requires Extends(s, t) && Extends(t, u)
    ensures Extends(s, u)
  {
  }

  lemma HoldsMore(a: seq<Item>, b: seq<Item>, x: Item)
    requires a <= b && Holds(a, x)
    ensures Holds(b, x)
  {
  }

  lemma HandledStays(g: Graph, s: State, t: State, x: Item, e: Edge)
    requires Extends(s, t) && Handled(g, s, x, e)
    ensures Handled(g, t, x, e)
  {
  }

  lemma DoneStays(g: Graph, s: State, t: State, x: Item)
    requires Extends(s, t) && Done(g, s, x)
    ensures Done(g, t, x)
  {
  }

  lemma InsertHolds(items: seq<Item>, x: Item)
    ensures Holds(Insert(items, x), x) && items <= Insert(items, x)
    ensures forall y :: y in Insert(items, x) ==> y in items || y == x
  {
    if !Holds(items, x) {
      assert Same(Insert(items, x)[|items|], x);
    }
  }

  // ---- joins are pushed

  lemma {:induction false} AllJoinsOfWaiter(w: Item, rets: seq<Item>, r: Item)
    requires r in rets && Joinable(w, r)
    ensures Join(w, r) in JoinsOfWaiter(w, rets)
  {
    var front, last := rets[..|rets| - 1], rets[|rets| - 1];
    if r != last {
      AllJoinsOfWaiter(w, front, r);
    }
  }

  lemma {:induction false} AllJoinsOfReturn(waiters: seq<Item>, w: Item, r: Item)
    requires w in waiters && Joinable(w, r)
    ensures Join(w, r) in JoinsOfReturn(waiters, r)
  {
    var front, last := waiters[..|waiters| - 1], waiters[|waiters| - 1];
    if w != last {
      AllJoinsOfReturn(front, w, r);
    }
  }

  lemma PushExtends(s: State, items: seq<Item>)
    ensures Extends(s, Push(s, items))
    ensures forall y :: y in items ==> Pushed(Push(s, items), y)
    ensures JoinsClosed(s) ==> JoinsClosed(Push(s, items))
    ensures StartedClosed(s) ==> StartedClosed(Push(s, items))
  {
  }

  /** Replaying the recorded returns before waiting: the new waiter has met every return so far. */
  lemma ReplayThenAwait(s: State, key: Key, w: Item)
    requires JoinsClosed(s) && StartedClosed(s)
    ensures var t := Await(Replay(s, key, w), key, w);
            JoinsClosed(t) && StartedClosed(t) && Extends(s, t) && Holds(At(t.waiting, key), w)
  {
    var m := Replay(s, key, w);
    var t := Await(m, key, w);
    PushExtends(s, JoinsOfWaiter(w, At(s.rets, key)));
    InsertHolds(At(m.waiting, key), w);
    forall x ensures Pushed(t, x) == Pushed(m, x) {}
    forall k, v, r | v in At(t.waiting, k) && r in At(t.rets, k) && Joinable(v, r) ensures Pushed(t, Join(v, r)) {
      if v in At(m.waiting, k) {
        assert Pushed(m, Join(v, r));
      } else {
        assert k == key && v == w;
        AllJoinsOfWaiter(w, At(s.rets, key), r);
      }
    }
  }

  /** Recording the return before waking: the new return meets every waiter so far. */
  lemma RecordThenWake(s: State, key: Key, r: Item)
    requires JoinsClosed(s) && StartedClosed(s)
    ensures var t := Wake(Record(s, key, r), key, r);
            JoinsClosed(t) && StartedClosed(t) && Extends(s, t) && Holds(At(t.rets, key), r)
  {
    var m := Record(s, key, r);
    var t := Wake(m, key, r);
    InsertHolds(At(s.rets, key), r);
    forall x ensures Pushed(m, x) == Pushed(s, x) {}
    PushExtends(m, JoinsOfReturn(At(m.waiting, key), r));
    forall k ensures At(s.waiting, k) <= At(t.waiting, k) && At(s.rets, k) <= At(t.rets, k) {}
    forall k, w, q | w in At(t.waiting, k) && q in At(t.rets, k) && Joinable(w, q) ensures Pushed(t, Join(w, q)) {
      if q in At(s.rets, k) {
        assert Pushed(s, Join(w, q));
      } else {
        assert k == key && q == r;
        AllJoinsOfReturn(At(s.waiting, key), w, r);
      }
    }
  }

  lemma StartCloses(s: State, e: Edge)
    requires JoinsClosed(s) && StartedClosed(s)
    ensures var t := StartFunction(s, e);
            JoinsClosed(t) && StartedClosed(t) && Extends(s, t) && e.dst in t.started
  {
  }

  /** Following one edge leaves its consequences behind and loses no join. */
  lemma EdgeHandled(g: Graph, s: State, x: Item, e: Edge)
    requires JoinsClosed(s) && StartedClosed(s)
    ensures var t := ForwardPropagate(g, s, x, e);
            JoinsClosed(t) && StartedClosed(t) && Extends(s, t) && Handled(g, t, x, e)
  {
    if e.kind.IsCall() {
      if Enters(g, x, e) {
        var w, key := CallerOf(x, e), KeyOfCall(e);
        var m := Await(Replay(s, key, w), key, w);
        ReplayThenAwait(s, key, w);
        StartCloses(m, e);
        var t := StartFunction(m, e);
        ExtendsTrans(s, m, t);
        assert At(m.waiting, key) <= At(t.waiting, key);
        HoldsMore(At(m.waiting, key), At(t.waiting, key), w);
      }
    } else if e.kind.IsRet() {
      if CanResolve(x.trace, e.kind.cs) {
        if x.root == g.source {
          PushExtends(s, [EscapeOf(x, e)]);
        } else {
          RecordThenWake(s, KeyOfReturn(x, e), ReturnOf(x, e));
        }
      }
    } else {
      PushExtends(s, [Visited(Advance(x, e), Visit(0, e.dst))]);
    }
  }

  lemma {:induction false} EdgesHandled(g: Graph, s: State, x: Item, edges: seq<Edge>)
    requires JoinsClosed(s) && StartedClosed(s)
    ensures var t := PropagateAll(g, s, x, edges);
            JoinsClosed(t) && StartedClosed(t) && Extends(s, t) && forall e :: e in edges ==> Handled(g, t, x, e)
  {
    if edges != [] {
      var init, last := edges[..|edges| - 1], edges[|edges| - 1];
      EdgesHandled(g, s, x, init);
      var m := PropagateAll(g, s, x, init);
      var t := ForwardPropagate(g, m, x, last);
      EdgeHandled(g, m, x, last);
      ExtendsTrans(s, m, t);
      forall e | e in edges ensures Handled(g, t, x, e) {
        if e in init {
          HandledStays(g, m, t, x, e);
        }
      }
    }
  }

  lemma PopKeeps(s: State, k: nat)
    requires k < |s.worklist|
    ensures forall x :: Pushed(Pop(s, k), x) <==> Pushed(s, x)
    ensures JoinsClosed(s) ==> JoinsClosed(Pop(s, k))
    ensures StartedClosed(s) ==> StartedClosed(Pop(s, k))
  {
  }

  lemma DoneSurvivesPop(g: Graph, s: State, k: nat, x: Item)
    requires k < |s.worklist| && Done(g, s, x)
    ensures Done(g, Pop(s, k), x)
  {
  }

  lemma ProcessCloses(g: Graph, s: State, x: Item)
    requires JoinsClosed(s) && StartedClosed(s)
    ensures var t := ProcessItem(g, s, x);
            JoinsClosed(t) && StartedClosed(t) && Extends(s, t) && Done(g, t, x)
  {
    match ForwardChecks(g, x)
    case None =>
    case Some(y) =>
      if y.scope >= 0 {
        EdgesHandled(g, s, y, EdgesOf(g, y.cur));
      } else {
        var t := HandleOosNode(s, y);
        forall z ensures Pushed(t, z) == Pushed(s, z) {}
        forall n | n in t.started
          ensures exists x :: Pushed(t, x) && x.cur == n && x.root == n && x.trace == [] && x.scope == 0
        {
          var z :| Pushed(s, z) && z.cur == n && z.root == n && z.trace == [] && z.scope == 0;
          assert Pushed(t, z);
        }
      }
  }

  lemma StepCloses(g: Graph, s: State, k: nat)
    requires Closed(g, s) && k < |s.worklist|
    ensures Closed(g, Step(g, s, k))
  {
    var x, p := s.worklist[k], Pop(s, k);
    PopKeeps(s, k);
    ProcessCloses(g, p, x);
    var t := ProcessItem(g, p, x);
    forall z | z in t.done ensures Done(g, t, z) {
      if z != x {
        assert z in s.done;
        DoneSurvivesPop(g, s, k, z);
        DoneStays(g, p, t, z);
      }
    }
  }

  /** After any number of steps, in any order of the items, no join has been lost. */
  lemma {:induction false} NoLostJoins(g: Graph, picks: seq<nat>)
    ensures Closed(g, Run(g, picks))
  {
    if picks != [] {
      var init := picks[..|picks| - 1];
      NoLostJoins(g, init);
      if picks[|picks| - 1] < |Run(g, init).worklist| {
        StepCloses(g, Run(g, init), picks[|picks| - 1]);
      }
    }
  }
}
