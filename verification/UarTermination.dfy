/** The forward phase stops on every schedule: an item pushed while another is handled has a longer
    trace, unless it starts a function that was never started before. */
module UarTermination {
  import opened Traces
  import opened Svfg
  import opened UarState
  import opened SetFacts

  ghost function Sites(g: Graph): set<CallSite> {
    set n, e | n in g.out && e in g.out[n] && !e.kind.Intra? :: e.kind.cs
  }

  /** Every visit a trace can hold. */
  ghost function Universe(g: Graph): set<Visit> {
    set c, n | c in Sites(g) + {0} && n in g.out :: Visit(c, n)
  }

  datatype Id = Id(cur: NodeId, root: NodeId, visits: set<Visit>)

  ghost function IdOf(x: Item): Id {
    Id(x.cur, x.root, Visits(x.trace))
  }

  /** Every item an item set can hold, up to the order of items. */
  ghost function AllIds(g: Graph): set<Id> {
    set c, r, v | c in g.out && r in g.out && v <= Universe(g) :: Id(c, r, v)
  }

  ghost predicate Fits(g: Graph, x: Item) {
    x.cur in g.out && x.root in g.out && Distinct(x.trace) && Visits(x.trace) <= Universe(g)
  }

  ghost predicate FitAll(g: Graph, items: seq<Item>) {
    forall x :: x in items ==> Fits(g, x)
  }

  /** A stored set: its items fit and no two of them are the same to the set. */
  ghost predicate FitSet(g: Graph, items: seq<Item>) {
    && FitAll(g, items)
    && forall i, j :: 0 <= i < j < |items| ==> !Same(items[i], items[j])
  }

  ghost predicate Bounded(g: Graph, s: State) {
    && FitAll(g, s.worklist)
    && (forall k :: k in s.waiting ==> FitSet(g, s.waiting[k]))
    && (forall k :: k in s.rets ==> FitSet(g, s.rets[k]))
    && s.started <= g.out.Keys
  }

  // ---- the measure

  ghost function Size(g: Graph): nat { |Universe(g)| }

  ghost function MaxOut(out: map<NodeId, seq<Edge>>): (d: nat)
    ensures forall n :: n in out ==> |out[n]| <= d
  {
    if out == map[] then 0
    else
      var n :| n in out;
      var d := MaxOut(out - {n});
      assert forall m :: m in out && m != n ==> m in out - {n} && out[m] == (out - {n})[m];
      if d < |out[n]| then |out[n]| else d
  }

  /** How many items handling one edge can push. */
  ghost function PerEdge(g: Graph): nat { |AllIds(g)| + 1 }

  ghost function Weight(g: Graph, k: nat): (w: nat)
    ensures w >= 1
  {
    if k == 0 then 1 else 1 + MaxOut(g.out) * (PerEdge(g) * Weight(g, k - 1))
  }

  ghost function ItemWeight(g: Graph, x: Item): nat {
    if x.scope < 0 || |x.trace| > Size(g) then 1 else Weight(g, Size(g) + 1 - |x.trace|)
  }

  ghost function ListWeight(g: Graph, items: seq<Item>): nat {
    if items == [] then 0 else ListWeight(g, items[..|items| - 1]) + ItemWeight(g, items[|items| - 1])
  }

  ghost function Measure(g: Graph, s: State): nat {
    ListWeight(g, s.worklist) + |g.out.Keys - s.started| * Weight(g, Size(g) + 1)
  }

  // ---- arithmetic of the measure

  lemma MulMonotone(a: nat, b: nat, c: nat)
    requires b <= c
    ensures a * b <= a * c
  {
  }

  lemma AddOne(n: nat, m: nat, a: nat)
    requires m == n + 1
    ensures m * a == n * a + a
  {
  }

  lemma {:induction false} WeightMonotone(g: Graph, a: nat, b: nat)
    requires a <= b
    ensures Weight(g, a) <= Weight(g, b)
  {
    if a != 0 {
      WeightMonotone(g, a - 1, b - 1);
      MulMonotone(PerEdge(g), Weight(g, a - 1), Weight(g, b - 1));
      MulMonotone(MaxOut(g.out), PerEdge(g) * Weight(g, a - 1), PerEdge(g) * Weight(g, b - 1));
    }
  }

  lemma {:induction false} ListWeightConcat(g: Graph, a: seq<Item>, b: seq<Item>)
    ensures ListWeight(g, a + b) == ListWeight(g, a) + ListWeight(g, b)
  {
    if b == [] {
      assert a + b == a;
    } else {
      ListWeightConcat(g, a, b[..|b| - 1]);
      assert (a + b)[..|a + b| - 1] == a + b[..|b| - 1];
    }
  }

  lemma {:induction false} ListWeightBound(g: Graph, items: seq<Item>, w: nat)
    requires forall y :: y in items ==> ItemWeight(g, y) <= w
    ensures ListWeight(g, items) <= |items| * w
  {
    if items != [] {
      ListWeightBound(g, items[..|items| - 1], w);
      AddOne(|items| - 1, |items|, w);
    }
  }

  lemma ListWeightPop(g: Graph, items: seq<Item>, k: nat)
    requires k < |items|
    ensures ListWeight(g, items) == ListWeight(g, items[..k] + items[k + 1..]) + ItemWeight(g, items[k])
  {
    assert items == items[..k] + [items[k]] + items[k + 1..];
    ListWeightAround(g, items[..k], items[k], items[k + 1..]);
  }

  lemma ListWeightAround(g: Graph, a: seq<Item>, x: Item, b: seq<Item>)
    ensures ListWeight(g, a + [x] + b) == ListWeight(g, a + b) + ItemWeight(g, x)
  {
    ListWeightConcat(g, a, b);
    ListWeightConcat(g, a, [x]);
    ListWeightConcat(g, a + [x], b);
    assert [x][..0] == [];
  }

  // ---- item sets are bounded

  lemma {:induction false} FitSetSize(g: Graph, items: seq<Item>)
    requires FitSet(g, items)
    ensures |items| <= |AllIds(g)|
  {
    var ids := IdsOf(g, items);
    SubsetSize(ids, AllIds(g));
  }

  lemma {:induction false} IdsOf(g: Graph, items: seq<Item>) returns (ids: set<Id>)
    requires FitSet(g, items)
    ensures |ids| == |items| && ids <= AllIds(g)
    ensures forall d :: d in ids <==> exists i :: 0 <= i < |items| && d == IdOf(items[i])
  {
    if items == [] {
      return {};
    }
    var front, last := items[..|items| - 1], items[|items| - 1];
    var rest := IdsOf(g, front);
    if IdOf(last) in rest {
      var i :| 0 <= i < |front| && IdOf(last) == IdOf(front[i]);
      assert Same(items[i], items[|items| - 1]);
    }
    assert last in items;
    ids := rest + {IdOf(last)};
    forall d | d in ids ensures exists i :: 0 <= i < |items| && d == IdOf(items[i]) {
      if d == IdOf(last) {
        assert d == IdOf(items[|items| - 1]);
      } else {
        var i :| 0 <= i < |front| && d == IdOf(front[i]);
        assert d == IdOf(items[i]);
      }
    }
    forall i | 0 <= i < |items| ensures IdOf(items[i]) in ids {
      if i < |front| { assert items[i] == front[i]; }
    }
  }

  // ---- what is pushed fits and is longer

  lemma FitLength(g: Graph, x: Item)
    requires Fits(g, x)
    ensures |x.trace| <= Size(g)
  {
    DistinctCount(x.trace);
    SubsetSize(Visits(x.trace), Universe(g));
  }

  lemma VisitedFits(g: Graph, x: Item, v: Visit)
    requires Fits(g, x) && v !in x.trace && v in Universe(g)
    ensures Fits(g, Visited(x, v))
  {
  }

  lemma JoinFits(g: Graph, w: Item, r: Item)
    requires Fits(g, w) && Fits(g, r) && Joinable(w, r)
    ensures Fits(g, Join(w, r))
  {
    DistinctConcat(w.trace, r.trace);
    VisitsConcat(w.trace, r.trace);
  }

  lemma LongerIsLighter(g: Graph, y: Item, n: nat)
    requires Fits(g, y) && |y.trace| > n && n <= Size(g)
    ensures ItemWeight(g, y) <= Weight(g, Size(g) - n)
  {
    FitLength(g, y);
    WeightMonotone(g, Size(g) + 1 - |y.trace|, Size(g) - n);
  }

  lemma {:induction false} JoinsOfWaiterFit(g: Graph, w: Item, rets: seq<Item>, n: nat)
    requires Fits(g, w) && FitAll(g, rets) && |w.trace| > n && n <= Size(g)
    ensures var l := JoinsOfWaiter(w, rets);
            FitAll(g, l) && |l| <= |rets| && forall y :: y in l ==> ItemWeight(g, y) <= Weight(g, Size(g) - n)
  {
    if rets != [] {
      JoinsOfWaiterFit(g, w, rets[..|rets| - 1], n);
      var last := rets[|rets| - 1];
      if Joinable(w, last) {
        JoinFits(g, w, last);
        LongerIsLighter(g, Join(w, last), n);
      }
    }
  }

  lemma {:induction false} JoinsOfReturnFit(g: Graph, waiters: seq<Item>, r: Item, n: nat)
    requires FitAll(g, waiters) && Fits(g, r) && |r.trace| > n && n <= Size(g)
    ensures var l := JoinsOfReturn(waiters, r);
            FitAll(g, l) && |l| <= |waiters| && forall y :: y in l ==> ItemWeight(g, y) <= Weight(g, Size(g) - n)
  {
    if waiters != [] {
      JoinsOfReturnFit(g, waiters[..|waiters| - 1], r, n);
      var last := waiters[|waiters| - 1];
      if Joinable(last, r) {
        JoinFits(g, last, r);
        LongerIsLighter(g, Join(last, r), n);
      }
    }
  }

  lemma PushWeight(g: Graph, s: State, items: seq<Item>, w: nat)
    requires FitAll(g, s.worklist) && FitAll(g, items) && |items| <= PerEdge(g)
    requires forall y :: y in items ==> ItemWeight(g, y) <= w
    ensures FitAll(g, Push(s, items).worklist)
    ensures Measure(g, Push(s, items)) <= Measure(g, s) + PerEdge(g) * w
  {
    ListWeightConcat(g, s.worklist, items);
    ListWeightBound(g, items, w);
    MulMonotone(w, |items|, PerEdge(g));
  }

  lemma CanResolveIsResolvable(t: seq<Visit>, c: CallSite)
    ensures CanResolve(t, c) <==> Resolvable(Visits(t), c)
  {
    if !CanResolve(t, c) {
      var v :| v in t && v.cxt == 0 && Visit(c, v.node) in t;
      assert Clash(Visits(t), c, v.node);
    }
    if !Resolvable(Visits(t), c) {
      var n: NodeId :| Clash(Visits(t), c, n);
    }
  }

  lemma ReturningFits(g: Graph, x: Item, e: Edge)
    requires ValidGraph(g) && Fits(g, x) && Follows(g, e, x.cur) && e.kind.IsRet() && CanResolve(x.trace, e.kind.cs)
    ensures Fits(g, Returning(x, e)) && Visit(0, e.dst) !in Returning(x, e).trace
    ensures Fits(g, ReturnOf(x, e)) && Fits(g, EscapeOf(x, e))
  {
    var c := e.kind.cs;
    assert GoodEdge(g, e) && c in Sites(g);
    CanResolveIsResolvable(x.trace, c);
    RenameDistinct(x.trace, c);
    RenameVisits(x.trace, c);
    forall v | v in Rename(x.trace, c) ensures v in Universe(g) && v.cxt != 0 {
      var u :| u in Visits(x.trace) && v == RenameVisit(u, c);
    }
    assert Visit(0, e.dst) in Universe(g);
    VisitedFits(g, Returning(x, e), Visit(0, e.dst));
  }

  ghost function Allowance(g: Graph, x: Item): nat
    requires |x.trace| <= Size(g)
  {
    PerEdge(g) * Weight(g, Size(g) - |x.trace|)
  }

  /** From s to t at most n was added to the measure. */
  ghost predicate Costs(g: Graph, s: State, t: State, n: nat) {
    Bounded(g, t) && Measure(g, t) <= Measure(g, s) + n
  }

  lemma AwaitCost(g: Graph, s: State, key: Key, w: Item)
    requires Bounded(g, s) && Fits(g, w)
    ensures Costs(g, s, Await(s, key, w), 0)
  {
  }

  lemma RecordCost(g: Graph, s: State, key: Key, r: Item)
    requires Bounded(g, s) && Fits(g, r)
    ensures Costs(g, s, Record(s, key, r), 0)
  {
  }

  /** Starting a function uses up what the measure set aside for it. */
  lemma StartCost(g: Graph, s: State, e: Edge)
    requires ValidGraph(g) && Bounded(g, s) && GoodEdge(g, e)
    ensures Costs(g, s, StartFunction(s, e), 0)
  {
    if e.dst !in s.started {
      StartedCost(g, s, e);
      EntryWeight(g, Started(s, e), EntryItem(e));
    }
  }

  lemma StartedCost(g: Graph, s: State, e: Edge)
    requires Bounded(g, s) && e.dst in g.out && e.dst !in s.started
    ensures Bounded(g, Started(s, e)) && Measure(g, Started(s, e)) + Weight(g, Size(g) + 1) == Measure(g, s)
  {
    FewerToStart(g.out.Keys, s.started, e.dst);
    AddOne(|g.out.Keys - (s.started + {e.dst})|, |g.out.Keys - s.started|, Weight(g, Size(g) + 1));
  }

  lemma EntryWeight(g: Graph, s: State, y: Item)
    requires Bounded(g, s) && Fits(g, y) && y.trace == [] && y.scope >= 0
    ensures Costs(g, s, Push(s, [y]), Weight(g, Size(g) + 1))
  {
    ListWeightConcat(g, s.worklist, [y]);
    assert [y][..0] == [];
  }

  lemma FewerToStart(all: set<NodeId>, started: set<NodeId>, n: NodeId)
    requires n in all && n !in started
    ensures |all - started| == |all - (started + {n})| + 1
  {
    assert all - started == all - (started + {n}) + {n};
  }

  lemma ReplayCost(g: Graph, s: State, key: Key, w: Item, x: Item)
    requires Bounded(g, s) && Fits(g, w) && |w.trace| > |x.trace| && |x.trace| <= Size(g)
    ensures Costs(g, s, Replay(s, key, w), Allowance(g, x))
  {
    var rets := At(s.rets, key);
    JoinsOfWaiterFit(g, w, rets, |x.trace|);
    FitSetSize(g, rets);
    PushWeight(g, s, JoinsOfWaiter(w, rets), Weight(g, Size(g) - |x.trace|));
  }

  lemma WakeCost(g: Graph, s: State, key: Key, r: Item, x: Item)
    requires Bounded(g, s) && Fits(g, r) && |r.trace| > |x.trace| && |x.trace| <= Size(g)
    ensures Costs(g, s, Wake(s, key, r), Allowance(g, x))
  {
    var waiters := At(s.waiting, key);
    JoinsOfReturnFit(g, waiters, r, |x.trace|);
    FitSetSize(g, waiters);
    PushWeight(g, s, JoinsOfReturn(waiters, r), Weight(g, Size(g) - |x.trace|));
  }

  lemma EscapeCost(g: Graph, s: State, y: Item, x: Item)
    requires Bounded(g, s) && Fits(g, y) && y.scope < 0 && |x.trace| <= Size(g)
    ensures Costs(g, s, Push(s, [y]), Allowance(g, x))
  {
    PushWeight(g, s, [y], Weight(g, Size(g) - |x.trace|));
  }

  lemma EntryCost(g: Graph, s: State, x: Item, e: Edge)
    requires ValidGraph(g) && Bounded(g, s) && Fits(g, x) && |x.trace| <= Size(g)
    requires Follows(g, e, x.cur) && e.kind.IsCall()
    ensures Costs(g, s, HandleFunctionEntry(g, s, x, e), Allowance(g, x))
  {
    if Enters(g, x, e) {
      assert GoodEdge(g, e) && e.kind.cs in Sites(g);
      var w, key := CallerOf(x, e), KeyOfCall(e);
      VisitedFits(g, Advance(x, e), Visit(e.kind.cs, e.dst));
      ReplayCost(g, s, key, w, x);
      AwaitCost(g, Replay(s, key, w), key, w);
      StartCost(g, Await(Replay(s, key, w), key, w), e);
    }
  }

  lemma ReturnCost(g: Graph, s: State, x: Item, e: Edge)
    requires ValidGraph(g) && Bounded(g, s) && Fits(g, x) && |x.trace| <= Size(g)
    requires Follows(g, e, x.cur) && e.kind.IsRet()
    ensures Costs(g, s, HandleFunctionReturn(g, s, x, e), Allowance(g, x))
  {
    if CanResolve(x.trace, e.kind.cs) {
      ReturningFits(g, x, e);
      if x.root == g.source {
        EscapeCost(g, s, EscapeOf(x, e), x);
      } else {
        var r, key := ReturnOf(x, e), KeyOfReturn(x, e);
        RecordCost(g, s, key, r);
        WakeCost(g, Record(s, key, r), key, r, x);
      }
    }
  }

  lemma EdgeCost(g: Graph, s: State, x: Item, e: Edge)
    requires ValidGraph(g) && Bounded(g, s) && Fits(g, x) && |x.trace| <= Size(g) && Follows(g, e, x.cur)
    ensures Costs(g, s, ForwardPropagate(g, s, x, e), Allowance(g, x))
  {
    if e.kind.IsCall() {
      EntryCost(g, s, x, e);
    } else if e.kind.IsRet() {
      ReturnCost(g, s, x, e);
    } else if Visit(0, e.dst) !in x.trace {
      assert GoodEdge(g, e);
      var y := Visited(Advance(x, e), Visit(0, e.dst));
      VisitedFits(g, Advance(x, e), Visit(0, e.dst));
      LongerIsLighter(g, y, |x.trace|);
      PushWeight(g, s, [y], Weight(g, Size(g) - |x.trace|));
    }
  }

  lemma {:induction false} EdgesCost(g: Graph, s: State, x: Item, edges: seq<Edge>, a: nat)
    requires ValidGraph(g) && Bounded(g, s) && Fits(g, x) && |x.trace| <= Size(g) && a == Allowance(g, x)
    requires forall e :: e in edges ==> Follows(g, e, x.cur)
    ensures Costs(g, s, PropagateAll(g, s, x, edges), |edges| * a)
  {
    if edges != [] {
      var init := edges[..|edges| - 1];
      EdgesCost(g, s, x, init, a);
      EdgeCost(g, PropagateAll(g, s, x, init), x, edges[|edges| - 1]);
      AddOne(|init|, |edges|, a);
    }
  }

  lemma PopCost(g: Graph, s: State, k: nat)
    requires Bounded(g, s) && k < |s.worklist|
    ensures Bounded(g, Pop(s, k))
    ensures Measure(g, Pop(s, k)) + ItemWeight(g, s.worklist[k]) == Measure(g, s)
  {
    ListWeightPop(g, s.worklist, k);
  }

  lemma ProcessCost(g: Graph, s: State, x: Item)
    requires ValidGraph(g) && Bounded(g, s) && Fits(g, x)
    ensures Bounded(g, ProcessItem(g, s, x))
    ensures Measure(g, ProcessItem(g, s, x)) < Measure(g, s) + ItemWeight(g, x)
  {
    match ForwardChecks(g, x)
    case None =>
    case Some(y) =>
      if y.scope >= 0 {
        AllEdgesCost(g, s, y);
      } else {
        var r := HandleOosNode(s, y);
        assert r.worklist == s.worklist && r.started == s.started && r.waiting == s.waiting && r.rets == s.rets;
      }
  }

  lemma AllEdgesCost(g: Graph, s: State, y: Item)
    requires ValidGraph(g) && Bounded(g, s) && Fits(g, y) && y.scope >= 0
    ensures Bounded(g, PropagateAll(g, s, y, EdgesOf(g, y.cur)))
    ensures Measure(g, PropagateAll(g, s, y, EdgesOf(g, y.cur))) < Measure(g, s) + ItemWeight(g, y)
  {
    FitLength(g, y);
    var edges, a := EdgesOf(g, y.cur), Allowance(g, y);
    EdgesCost(g, s, y, edges, a);
    MulMonotone(a, |edges|, MaxOut(g.out));
    assert ItemWeight(g, y) == 1 + MaxOut(g.out) * a;
  }

  /** Every step keeps the traces finite and lowers the measure, whichever item is taken. */
  lemma StepDecreases(g: Graph, s: State, k: nat)
    requires ValidGraph(g) && Bounded(g, s) && k < |s.worklist|
    ensures Bounded(g, Step(g, s, k)) && Measure(g, Step(g, s, k)) < Measure(g, s)
  {
    PopCost(g, s, k);
    ProcessCost(g, Pop(s, k), s.worklist[k]);
  }

  lemma InitBounded(g: Graph)
    requires ValidGraph(g)
    ensures Bounded(g, Init(g))
  {
  }

  lemma {:induction false} RunBounded(g: Graph, picks: seq<nat>)
    requires ValidGraph(g)
    ensures Bounded(g, Run(g, picks))
  {
    if picks == [] {
      InitBounded(g);
    } else {
      var s := Run(g, picks[..|picks| - 1]);
      RunBounded(g, picks[..|picks| - 1]);
      if picks[|picks| - 1] < |s.worklist| {
        StepDecreases(g, s, picks[|picks| - 1]);
      }
    }
  }

  /** Every pick takes an item that is there. */
  ghost predicate Proper(g: Graph, picks: seq<nat>) {
    forall i :: 0 <= i < |picks| ==> picks[i] < |Run(g, picks[..i]).worklist|
  }

  /** One number bounds the length of every schedule: the forward phase terminates. */
  lemma {:induction false} RunsAreShort(g: Graph, picks: seq<nat>)
    requires ValidGraph(g) && Proper(g, picks)
    ensures |picks| + Measure(g, Run(g, picks)) <= Measure(g, Init(g))
  {
    if picks != [] {
      var init := picks[..|picks| - 1];
      forall i | 0 <= i < |init| ensures init[i] < |Run(g, init[..i]).worklist| {
        assert init[..i] == picks[..i];
      }
      RunsAreShort(g, init);
      RunBounded(g, init);
      StepDecreases(g, Run(g, init), picks[|picks| - 1]);
    }
  }
}
