/** The items of the forward phase carry the sequence a set and a position map stand for. In every run the pair
    that the operations of the source leave behind stands for exactly that sequence. */
module UarEncoding {
  import opened Traces
  import opened Svfg
  import opened UarState
  import opened UarTermination
  import opened UarExact

  /** What an item holds in the source: the visited set and the position of each visit. */
  datatype Held = Held(visited: set<Visit>, order: map<Visit, int>)

  ghost predicate Carries(x: Item, h: Held) {
    Encodes(h.visited, h.order, x.trace)
  }

  /** addToVisited */
  function Add(h: Held, v: Visit): Held {
    Held(h.visited + {v}, AddOrder(h.visited, h.order, v))
  }

  /** resolveUnkownCxts, when it succeeds; m is above all nodes visited. */
  function Resolve(h: Held, c: CallSite, m: nat): Held
    requires c != 0
  {
    Held(SetBelow(h.visited, c, m), OrderBelow(h.visited, h.order, c, m))
  }

  /** merge, when it succeeds. */
  function Merge(h: Held, k: Held): Held {
    Held(h.visited + k.visited, ShiftOrder(k.order, |h.visited|) + h.order)
  }

  // ---- the tests of the handlers can be read off the pair

  lemma TestsAgree(x: Item, h: Held, y: Item, k: Held, v: Visit, c: CallSite)
    requires Carries(x, h) && Carries(y, k)
    ensures v in h.visited <==> v in x.trace
    ensures Resolvable(h.visited, c) <==> CanResolve(x.trace, c)
    ensures h.visited !! k.visited <==> Joinable(x, y)
    ensures h.visited == k.visited && x.cur == y.cur && x.root == y.root <==> Same(x, y)
  {
    CanResolveIsResolvable(x.trace, c);
  }

  // ---- what the handlers leave behind

  lemma HopCarries(x: Item, e: Edge, h: Held)
    requires Carries(x, h) && Visit(0, e.dst) !in x.trace
    ensures Carries(Visited(Advance(x, e), Visit(0, e.dst)), Add(h, Visit(0, e.dst)))
  {
    AddAppends(h.visited, h.order, x.trace, Visit(0, e.dst));
  }

  lemma CallerCarries(g: Graph, x: Item, e: Edge, h: Held)
    requires e.kind.IsCall() && Enters(g, x, e) && Carries(x, h)
    ensures Carries(CallerOf(x, e), Add(h, Visit(e.kind.cs, e.dst)))
  {
    AddAppends(h.visited, h.order, x.trace, Visit(e.kind.cs, e.dst));
  }

  lemma EntryCarries(e: Edge)
    ensures Carries(EntryItem(e), Held({}, map[]))
  {
  }

  /** The replacement, and then the node returned to, which is never there already. */
  lemma ReturnCarries(g: Graph, x: Item, e: Edge, h: Held, m: nat)
    requires ValidGraph(g) && Fits(g, x) && Follows(g, e, x.cur) && e.kind.IsRet() && CanResolve(x.trace, e.kind.cs)
    requires Carries(x, h) && BoundsNodes(h.visited, m) && e.kind.cs != 0
    ensures Carries(Returning(x, e), Resolve(h, e.kind.cs, m))
    ensures Carries(ReturnOf(x, e), Add(Resolve(h, e.kind.cs, m), Visit(0, e.dst)))
    ensures Carries(EscapeOf(x, e),
                    if e.kind.DirRet? then Resolve(h, e.kind.cs, m) else Add(Resolve(h, e.kind.cs, m), Visit(0, e.dst)))
  {
    CanResolveIsResolvable(x.trace, e.kind.cs);
    ResolveRenames(h.visited, h.order, x.trace, e.kind.cs, m);
    ReturningFits(g, x, e);
    var r := Resolve(h, e.kind.cs, m);
    AddAppends(r.visited, r.order, Returning(x, e).trace, Visit(0, e.dst));
  }

  lemma JoinCarries(w: Item, r: Item, h: Held, k: Held)
    requires Carries(w, h) && Carries(r, k) && Joinable(w, r)
    ensures Carries(Join(w, r), Merge(h, k))
  {
    MergeConcatenates(h.visited, h.order, w.trace, k.visited, k.order, r.trace);
  }

  // ---- every run

  function HeldOf(t: seq<Visit>): Held {
    if t == [] then Held({}, map[]) else Add(HeldOf(t[..|t| - 1]), t[|t| - 1])
  }

  lemma {:induction false} HeldEncodes(t: seq<Visit>)
    requires Distinct(t)
    ensures Encodes(HeldOf(t).visited, HeldOf(t).order, t)
  {
    if t != [] {
      var front, v := t[..|t| - 1], t[|t| - 1];
      LastIsNew(t);
      HeldEncodes(front);
      AddAppends(HeldOf(front).visited, HeldOf(front).order, front, v);
    }
  }

  lemma LastIsNew(t: seq<Visit>)
    requires Distinct(t) && t != []
    ensures Distinct(t[..|t| - 1]) && t[|t| - 1] !in Visits(t[..|t| - 1]) && t == t[..|t| - 1] + [t[|t| - 1]]
  {
  }

  /** At most one pair stands for a sequence. */
  lemma OnePair(h: Held, k: Held, t: seq<Visit>)
    requires Encodes(h.visited, h.order, t) && Encodes(k.visited, k.order, t)
    ensures h == k
  {
    assert forall v :: v in h.order ==> v in Visits(t) && h.order[v] == k.order[v];
    assert h.order == k.order;
  }

  ghost predicate Present(s: State, x: Item) {
    Pushed(s, x) || (exists k :: x in At(s.waiting, k)) || exists k :: x in At(s.rets, k)
  }

  /** In every run each item, waiter and recorded return carries one pair, and that is the one its visits added one
      by one would leave. */
  lemma RunCarries(g: Graph, picks: seq<nat>, x: Item)
    requires ValidGraph(g) && Present(Run(g, picks), x)
    ensures Carries(x, HeldOf(x.trace)) && forall h :: Carries(x, h) ==> h == HeldOf(x.trace)
  {
    var s := Run(g, picks);
    RunBounded(g, picks);
    if x in s.done {
      DoneFits(g, picks, x);
    } else if k :| x in At(s.waiting, k) {
      assert FitSet(g, s.waiting[k]);
    } else if k :| x in At(s.rets, k) {
      assert FitSet(g, s.rets[k]);
    }
    assert Fits(g, x);
    HeldEncodes(x.trace);
    forall h | Carries(x, h) ensures h == HeldOf(x.trace) {
      OnePair(h, HeldOf(x.trace), x.trace);
    }
  }
}
