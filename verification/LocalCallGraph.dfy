/** The depth-bounded walk over the call graph that collects the functions and global variables
    relevant to one start function. */
module LocalCallGraph {
  import opened Options
  import opened CallGraph

  datatype Item = Item(cur: Func, depth: nat)

  /** The worklist, the functions ever put there, and the globals recorded. */
  datatype View = View(list: seq<Item>, seen: set<Func>, known: set<Global>)

  // ---- what walking a value does

  /** Items were only added, one of the given depth for each function seen since. */
  ghost predicate Added(a: View, b: View, depth: nat) {
    && a.list <= b.list && a.seen <= b.seen && a.known <= b.known
    && (forall i :: |a.list| <= i < |b.list| ==>
          b.list[i].depth == depth && b.list[i].cur in b.seen && b.list[i].cur !in a.seen)
    && (forall f :: f in b.seen && f !in a.seen ==> Item(f, depth) in b.list)
  }

  /** The function of value v is seen and its global recorded. */
  ghost predicate Settled(p: Program, broad: bool, s: View, v: Val) {
    && (forall f :: broad && MentionsFun(v, f) ==> f in s.seen)
    && (forall g :: MentionsGlobal(p, v, g) ==> g in s.known)
  }

  /** Every value global g leads to has been walked. */
  ghost predicate Explored(p: Program, broad: bool, s: View, g: Global) {
    forall v :: InGlobal(p, g, v) ==> Settled(p, broad, s, v)
  }

  /** From a to b value v was walked: what is new comes from v, and new globals are explored, except
      for those still being walked. */
  ghost predicate Grown(p: Program, broad: bool, depth: nat, v: Val, a: View, b: View, open: set<Global>) {
    && Added(a, b, depth)
    && b.known <= p.names
    && (forall f :: f in b.seen && f !in a.seen ==> broad && f in p.funcs && Refers(p, v, f))
    && (forall g :: g in b.known && g !in a.known ==> ReachesGlobal(p, v, g))
    && (forall g :: g in b.known && g !in a.known && g !in open ==> Explored(p, broad, b, g))
  }

  lemma AddedTrans(a: View, b: View, c: View, depth: nat)
    requires Added(a, b, depth) && Added(b, c, depth)
    ensures Added(a, c, depth)
  {
  }

  lemma AddedMarks(a: View, b: View, depth: nat)
    requires Added(a, b, depth)
    ensures |a.list| < |b.list| ==> a.seen != b.seen
  {
    if |a.list| < |b.list| {
      assert b.list[|a.list|].cur in b.seen && b.list[|a.list|].cur !in a.seen;
    }
  }

  lemma SettledStays(p: Program, broad: bool, a: View, b: View, v: Val)
    requires Settled(p, broad, a, v) && a.seen <= b.seen && a.known <= b.known
    ensures Settled(p, broad, b, v)
  {
  }

  lemma ExploredStays(p: Program, broad: bool, a: View, b: View, g: Global)
    requires Explored(p, broad, a, g) && a.seen <= b.seen && a.known <= b.known
    ensures Explored(p, broad, b, g)
  {
  }

  lemma GrownRefl(p: Program, broad: bool, depth: nat, v: Val, a: View, open: set<Global>)
    requires a.known <= p.names
    ensures Grown(p, broad, depth, v, a, a, open)
  {
  }

  lemma GrownTrans(p: Program, broad: bool, depth: nat, v: Val, a: View, b: View, c: View, open: set<Global>)
    requires Grown(p, broad, depth, v, a, b, open) && Grown(p, broad, depth, v, b, c, open)
    ensures Grown(p, broad, depth, v, a, c, open)
  {
  }

  /** Walking a value that global g leads to is part of walking a value that mentions g. */
  lemma GrownInside(p: Program, broad: bool, depth: nat, v: Val, g: Global, u: Val, a: View, b: View, open: set<Global>)
    requires Grown(p, broad, depth, u, a, b, {}) && MentionsGlobal(p, v, g) && InGlobal(p, g, u)
    ensures Grown(p, broad, depth, v, a, b, open)
  {
    forall f | f in b.seen && f !in a.seen ensures Refers(p, v, f) {
      RefersStep(p, v, g, u, f);
    }
    forall h | h in b.known && h !in a.known ensures ReachesGlobal(p, v, h) {
      GlobalStep(p, v, g, u, h);
    }
  }

  lemma GepSame(p: Program, v: Val)
    requires v.Gep?
    ensures forall f :: MentionsFun(v, f) <==> MentionsFun(v.inner, f)
    ensures forall g :: MentionsGlobal(p, v, g) <==> MentionsGlobal(p, v.inner, g)
    ensures forall f :: Refers(p, v, f) <==> Refers(p, v.inner, f)
    ensures forall g :: ReachesGlobal(p, v, g) <==> ReachesGlobal(p, v.inner, g)
  {
  }

  class LocalCallGraphAnalysis {
    const p: Program
    const blocked: set<Func>
    var broad: bool
    var relevantGlobalVars: set<Global>
    var forwardFuncSlice: set<Func>
    var visitedSet: set<Func>
    var worklist: seq<Item>

    constructor (p: Program, blocked: set<Func>)
      ensures this.p == p && this.blocked == blocked && worklist == []
    {
      this.p, this.blocked := p, blocked;
      broad, relevantGlobalVars, forwardFuncSlice, visitedSet, worklist := true, {}, {}, {}, [];
    }

    ghost function Now(): View
      reads this
    {
      View(worklist, visitedSet, relevantGlobalVars)
    }

    /** Puts a function on the worklist unless it was there before. */
    method ForwardPropagate(depth: nat, f: Func)
      modifies `visitedSet, `worklist
      ensures Added(old(Now()), Now(), depth) && visitedSet == old(visitedSet) + {f}
    {
      if f !in visitedSet {
        visitedSet := visitedSet + {f};
        worklist := worklist + [Item(f, depth)];
      }
    }

    /** Walks a value: through its casts and field accesses to a function or a global variable, and
        through a global met for the first time to all it leads to. */
    method HandleCE(depth: nat, v: Val)
      requires ValidProgram(p) && KnownVal(p, v) && relevantGlobalVars <= p.names
      modifies `visitedSet, `worklist, `relevantGlobalVars
      ensures Grown(p, broad, depth, v, old(Now()), Now(), {}) && Settled(p, broad, Now(), v)
      decreases p.names - relevantGlobalVars, 0, v
    {
      match v
      case NonConst(fun) => HandleFunction(depth, v);
      case Gep(inner) =>
        GepSame(p, v);
        HandleCE(depth, inner);
      case Const(fun) => HandleFunction(depth, v);
      case GlobalRef(g, fun) =>
        HandleFunction(depth, v);
        if g !in relevantGlobalVars && !p.globalOf(g).funPtr {
          ghost var a := Now();
          relevantGlobalVars := relevantGlobalVars + {g};
          GlobalSelf(p, v, g);
          assert Grown(p, broad, depth, v, a, Now(), {g});
          ghost var b := Now();
          HandleGlobalCE(depth, g, v);
          GrownTrans(p, broad, depth, v, a, b, Now(), {g});
          assert Grown(p, broad, depth, v, a, Now(), {});
          GrownTrans(p, broad, depth, v, old(Now()), a, Now(), {});
        }
    }

    method HandleFunction(depth: nat, v: Val)
      requires !v.Gep? && KnownVal(p, v) && relevantGlobalVars <= p.names
      modifies `visitedSet, `worklist
      ensures Grown(p, broad, depth, v, old(Now()), Now(), {})
      ensures forall f :: broad && MentionsFun(v, f) ==> f in visitedSet
    {
      if v.fun.Some? && broad {
        assert Refers(p, v, v.fun.value);
        ForwardPropagate(depth, v.fun.value);
      }
    }

    /** Walks the users and the initialiser of a recorded global; v is the value that mentioned it. */
    method HandleGlobalCE(depth: nat, g: Global, ghost v: Val)
      requires ValidProgram(p) && MentionsGlobal(p, v, g) && relevantGlobalVars <= p.names
      modifies `visitedSet, `worklist, `relevantGlobalVars
      ensures Grown(p, broad, depth, v, old(Now()), Now(), {g}) && Explored(p, broad, Now(), g)
      decreases p.names - relevantGlobalVars, 2
    {
      var d := p.globalOf(g);
      GrownRefl(p, broad, depth, v, Now(), {g});
      if d.expands {
        for i := 0 to |d.users|
          invariant relevantGlobalVars <= p.names && old(relevantGlobalVars) <= relevantGlobalVars
          invariant Grown(p, broad, depth, v, old(Now()), Now(), {g})
          invariant forall k :: 0 <= k < i ==> Settled(p, broad, Now(), d.users[k])
        {
          ghost var b := Now();
          assert InGlobal(p, g, d.users[i]);
          HandleCE(depth, d.users[i]);
          GrownInside(p, broad, depth, v, g, d.users[i], b, Now(), {g});
          GrownTrans(p, broad, depth, v, old(Now()), b, Now(), {g});
          forall k | 0 <= k < i ensures Settled(p, broad, Now(), d.users[k]) {
            SettledStays(p, broad, b, Now(), d.users[k]);
          }
        }
      }
      ghost var b := Now();
      HandleGlobalInitializerCE(depth, d.init, g, v);
      GrownTrans(p, broad, depth, v, old(Now()), b, Now(), {g});
      forall u | InGlobal(p, g, u) ensures Settled(p, broad, Now(), u) {
        if !InInit(d.init, u) {
          SettledStays(p, broad, b, Now(), u);
        }
      }
    }

    method HandleGlobalInitializerCE(depth: nat, c: Init, ghost g: Global, ghost v: Val)
      requires ValidProgram(p) && MentionsGlobal(p, v, g) && relevantGlobalVars <= p.names
      requires forall u :: InInit(c, u) ==> InGlobal(p, g, u)
      modifies `visitedSet, `worklist, `relevantGlobalVars
      ensures Grown(p, broad, depth, v, old(Now()), Now(), {g})
      ensures forall u :: InInit(c, u) ==> Settled(p, broad, Now(), u)
      decreases p.names - relevantGlobalVars, 1, c
    {
      GrownRefl(p, broad, depth, v, Now(), {g});
      match c
      case NoInit =>
      case Scalar =>
      case Pointer(val) =>
        assert InInit(c, val);
        HandleCE(depth, val);
        GrownInside(p, broad, depth, v, g, val, old(Now()), Now(), {g});
      case Aggregate(elems) =>
        for i := 0 to |elems|
          invariant relevantGlobalVars <= p.names && old(relevantGlobalVars) <= relevantGlobalVars
          invariant Grown(p, broad, depth, v, old(Now()), Now(), {g})
          invariant forall k, u :: 0 <= k < i && InInit(elems[k], u) ==> Settled(p, broad, Now(), u)
        {
          ghost var b := Now();
          HandleGlobalInitializerCE(depth, elems[i], g, v);
          GrownTrans(p, broad, depth, v, old(Now()), b, Now(), {g});
          forall k, u | 0 <= k < i && InInit(elems[k], u) ensures Settled(p, broad, Now(), u) {
            SettledStays(p, broad, b, Now(), u);
          }
        }
    }

    /** Scans the operands of all instructions of a function. */
    method HandleOperands(depth: nat, f: Func)
      requires ValidProgram(p) && relevantGlobalVars <= p.names && visitedSet <= p.funcs
      modifies `visitedSet, `worklist, `relevantGlobalVars
      ensures Scanned(p, broad, depth, f, old(Now()), Now())
      ensures forall v :: v in p.operands(f) ==> Settled(p, broad, Now(), v)
    {
      var vals := p.operands(f);
      for i := 0 to |vals|
        invariant relevantGlobalVars <= p.names
        invariant Scanned(p, broad, depth, f, old(Now()), Now())
        invariant forall k :: 0 <= k < i ==> Settled(p, broad, Now(), vals[k])
      {
        ghost var b := Now();
        HandleCE(depth, vals[i]);
        ScannedMore(p, broad, depth, f, vals[i], old(Now()), b, Now());
        forall k | 0 <= k < i ensures Settled(p, broad, Now(), vals[k]) {
          SettledStays(p, broad, b, Now(), vals[k]);
        }
      }
    }

    method HandleEdges(depth: nat, f: Func)
      requires ValidProgram(p) && relevantGlobalVars <= p.names && visitedSet <= p.funcs
      modifies `visitedSet, `worklist
      ensures Scanned(p, broad, depth, f, old(Now()), Now())
      ensures forall h :: h in p.callees(f) ==> h in visitedSet
    {
      var callees := p.callees(f);
      for i := 0 to |callees|
        invariant Scanned(p, broad, depth, f, old(Now()), Now())
        invariant forall k :: 0 <= k < i ==> callees[k] in visitedSet
      {
        ghost var b := Now();
        assert Calls(p, broad, f, callees[i]);
        ForwardPropagate(depth, callees[i]);
        AddedTrans(old(Now()), b, Now(), depth);
      }
    }

    /** Takes a function into the slice and goes on to all it leads to. */
    method ForwardProcess(depth: nat, f: Func)
      requires ValidProgram(p) && relevantGlobalVars <= p.names && visitedSet <= p.funcs
      modifies `visitedSet, `worklist, `relevantGlobalVars, `forwardFuncSlice
      ensures forwardFuncSlice == old(forwardFuncSlice) + {f}
      ensures ScannedAll(p, broad, depth, f, old(Now()), Now())
    {
      forwardFuncSlice := forwardFuncSlice + {f};
      HandleOperands(depth, f);
      ghost var c := Now();
      HandleEdges(depth, f);
      ScannedTrans(p, broad, depth, f, old(Now()), c, Now());
      forall v | v in p.operands(f) ensures Settled(p, broad, Now(), v) {
        SettledStays(p, broad, c, Now(), v);
      }
    }

    /** One round of the loop: takes the first item and scans its function unless a check drops it. */
    method ForwardStep(maxDepth: nat, ghost q: Query, ghost dist: map<Func, nat>)
      returns (ghost dist': map<Func, nat>)
      requires ValidProgram(p) && worklist != []
      requires q.p == p && q.broad == broad && q.blocked == blocked && q.maxDepth == maxDepth
      requires Bfs(q, Now(), forwardFuncSlice, dist)
      modifies `visitedSet, `worklist, `relevantGlobalVars, `forwardFuncSlice
      ensures Advanced(q, old(Now()), Now(), forwardFuncSlice, dist')
    {
      ghost var a, slice := Now(), forwardFuncSlice;
      var item := worklist[0];
      worklist := worklist[1..];
      dist' := dist;
      BfsBounds(q, a, slice, dist);
      if item.depth > maxDepth || item.cur in blocked {
        BfsSkip(q, a, slice, dist);
      } else {
        ForwardProcess(item.depth + 1, item.cur);
        dist' := ScanDone(q, a, slice, dist, item, Now());
      }
    }

    method ForwardTraverse(start: Func, maxDepth: nat)
      requires ValidProgram(p) && worklist == []
      modifies `visitedSet, `worklist, `relevantGlobalVars, `forwardFuncSlice
      ensures worklist == []
      ensures forall n :: n in forwardFuncSlice <==> InSlice(p, broad, blocked, start, n, maxDepth)
      ensures forall g :: g in relevantGlobalVars <==> exists n :: n in forwardFuncSlice && UsesGlobal(p, n, g)
    {
      relevantGlobalVars, forwardFuncSlice, visitedSet := {}, {}, {};
      worklist := [Item(start, 0)];
      ghost var q := Query(p, broad, blocked, start, maxDepth);
      ghost var dist: map<Func, nat> := map[start := 0];
      BfsStarts(q);
      while worklist != []
        invariant q == Query(p, broad, blocked, start, maxDepth)
        invariant Bfs(q, Now(), forwardFuncSlice, dist)
        decreases p.funcs - visitedSet, |worklist|
      {
        dist := ForwardStep(maxDepth, q, dist);
      }
      BfsDone(q, Now(), forwardFuncSlice, dist);
    }

    /** analyze(startFunc, true, broad, maxDepth); None stands for a name no function has. */
    method Analyze(start: Option<Func>, broad: bool, maxDepth: nat)
      requires ValidProgram(p) && worklist == []
      modifies this
      ensures worklist == [] && this.broad == broad
      ensures forall n :: n in forwardFuncSlice <==> start.Some? && InSlice(p, broad, blocked, start.value, n, maxDepth)
      ensures forall g :: g in relevantGlobalVars <==> exists n :: n in forwardFuncSlice && UsesGlobal(p, n, g)
    {
      this.broad := broad;
      if start.None? {
        relevantGlobalVars, forwardFuncSlice := {}, {};
        return;
      }
      ForwardTraverse(start.value, maxDepth);
    }
  }

  // ---- scanning one function

  /** From a to b function f was scanned: what is new, f calls or uses. */
  ghost predicate Scanned(p: Program, broad: bool, depth: nat, f: Func, a: View, b: View) {
    && Added(a, b, depth)
    && b.known <= p.names && b.seen <= p.funcs
    && (forall h :: h in b.seen && h !in a.seen ==> Calls(p, broad, f, h))
    && (forall g :: g in b.known && g !in a.known ==> UsesGlobal(p, f, g) && Explored(p, broad, b, g))
  }

  /** Nothing f calls or uses was left out. */
  ghost predicate ScannedAll(p: Program, broad: bool, depth: nat, f: Func, a: View, b: View) {
    && Scanned(p, broad, depth, f, a, b)
    && (forall v :: v in p.operands(f) ==> Settled(p, broad, b, v))
    && (forall h :: h in p.callees(f) ==> h in b.seen)
  }

  lemma ScannedTrans(p: Program, broad: bool, depth: nat, f: Func, a: View, b: View, c: View)
    requires Scanned(p, broad, depth, f, a, b) && Scanned(p, broad, depth, f, b, c)
    ensures Scanned(p, broad, depth, f, a, c)
  {
  }

  lemma ScannedMore(p: Program, broad: bool, depth: nat, f: Func, v: Val, a: View, b: View, c: View)
    requires Scanned(p, broad, depth, f, a, b) && Grown(p, broad, depth, v, b, c, {}) && v in p.operands(f)
    ensures Scanned(p, broad, depth, f, a, c)
  {
  }

  // ---- the search

  datatype Query = Query(p: Program, broad: bool, blocked: set<Func>, start: Func, maxDepth: nat)
  {
    ghost predicate Near(n: Func, k: nat) { Within(p, broad, blocked, start, n, k) }
    ghost predicate Edge(n: Func, h: Func) { Calls(p, broad, n, h) }
    ghost predicate Wanted(n: Func) { InSlice(p, broad, blocked, start, n, maxDepth) }
  }

  function Extend(dist: map<Func, nat>, seen: set<Func>, d: nat): (r: map<Func, nat>) {
    map n | n in dist.Keys + seen :: if n in dist then dist[n] else d
  }

  /** All that function n leads to has been taken up, no further away than one step from n. */
  ghost predicate Processed(q: Query, s: View, slice: set<Func>, dist: map<Func, nat>, n: Func)
    requires n in dist
  {
    n !in q.blocked && dist[n] <= q.maxDepth ==>
      && n in slice
      && (forall h :: q.Edge(n, h) ==> h in dist && dist[h] <= dist[n] + 1)
      && (forall g :: UsesGlobal(q.p, n, g) ==> g in s.known)
  }

  ghost predicate Queued(q: Query, s: View, dist: map<Func, nat>, x: Item) {
    x.cur in dist && q.Near(x.cur, x.depth) && (x.depth == dist[x.cur] || x.cur == q.start)
  }

  ghost predicate InOrder(list: seq<Item>) {
    forall i, j :: 0 <= i <= j < |list| ==> list[i].depth <= list[j].depth <= list[0].depth + 1
  }

  /** The search keeps a first-in-first-out list of two consecutive depths. dist is the depth at which
      a function was seen first; the start is at depth 0 although it is not marked as visited. */
  ghost predicate Bfs(q: Query, s: View, slice: set<Func>, dist: map<Func, nat>) {
    && dist.Keys == s.seen + {q.start} && dist[q.start] == 0
    && s.seen <= q.p.funcs && s.known <= q.p.names
    && InOrder(s.list)
    && (forall x :: x in s.list ==> Queued(q, s, dist, x))
    && (s.list != [] ==> forall n :: n in dist ==> dist[n] <= s.list[0].depth + 1)
    && (forall n :: n in dist ==> Item(n, dist[n]) in s.list || Processed(q, s, slice, dist, n))
    && (forall n :: n in slice ==> q.Wanted(n))
    && GlobalsKnown(q, s, slice)
  }

  ghost predicate GlobalsKnown(q: Query, s: View, slice: set<Func>) {
    forall g :: g in s.known ==> Explored(q.p, q.broad, s, g) && exists n :: n in slice && UsesGlobal(q.p, n, g)
  }

  /** With all recorded globals explored, walking a value has reached everything it leads to: meeting
      a recorded global again loses nothing. */
  lemma SettledReaches(p: Program, broad: bool, s: View, v: Val)
    requires Settled(p, broad, s, v) && forall g :: g in s.known ==> Explored(p, broad, s, g)
    ensures forall g :: ReachesGlobal(p, v, g) ==> g in s.known
    ensures forall f :: broad && Refers(p, v, f) ==> f in s.seen
  {
    forall g | ReachesGlobal(p, v, g) ensures g in s.known {
      var c :| IsGlobalChain(p, c) && MentionsGlobal(p, v, c[0]) && c[|c| - 1] == g;
      ChainKnown(p, broad, s, c);
    }
    forall f | broad && Refers(p, v, f) ensures f in s.seen {
      if !MentionsFun(v, f) {
        var g, u :| ReachesGlobal(p, v, g) && InGlobal(p, g, u) && MentionsFun(u, f);
        assert Explored(p, broad, s, g) && Settled(p, broad, s, u);
      }
    }
  }

  lemma {:induction false} ChainKnown(p: Program, broad: bool, s: View, c: seq<Global>)
    requires IsGlobalChain(p, c) && c[0] in s.known && forall g :: g in s.known ==> Explored(p, broad, s, g)
    ensures c[|c| - 1] in s.known
  {
    if |c| > 1 {
      var init := c[..|c| - 1];
      ChainKnown(p, broad, s, init);
      assert LeadsTo(p, c[|c| - 2], c[|c| - 1]);
      var v :| InGlobal(p, c[|c| - 2], v) && MentionsGlobal(p, v, c[|c| - 1]);
      assert Explored(p, broad, s, c[|c| - 2]) && Settled(p, broad, s, v);
    }
  }

  lemma BfsStarts(q: Query)
    ensures Bfs(q, View([Item(q.start, 0)], {}, {}), {}, map[q.start := 0])
  {
    WithinStart(q.p, q.broad, q.blocked, q.start, 0);
  }

  lemma BfsBounds(q: Query, a: View, slice: set<Func>, dist: map<Func, nat>)
    requires Bfs(q, a, slice, dist)
    ensures a.seen <= q.p.funcs && a.known <= q.p.names
  {
  }

  /** One round led from a to b: more functions are seen, or the list is shorter. */
  ghost predicate Advanced(q: Query, a: View, b: View, slice: set<Func>, dist: map<Func, nat>) {
    Bfs(q, b, slice, dist) && a.seen <= b.seen <= q.p.funcs && (a.seen == b.seen ==> |b.list| < |a.list|)
  }

  lemma BfsSkip(q: Query, a: View, slice: set<Func>, dist: map<Func, nat>)
    requires Bfs(q, a, slice, dist) && a.list != []
    requires a.list[0].depth > q.maxDepth || a.list[0].cur in q.blocked
    ensures Advanced(q, a, a.(list := a.list[1..]), slice, dist)
  {
    var x, b := a.list[0], a.(list := a.list[1..]);
    assert a.list == [x] + b.list;
    assert Queued(q, a, dist, x);
    forall n | n in dist ensures Item(n, dist[n]) in b.list || Processed(q, b, slice, dist, n) {
      if Item(n, dist[n]) !in b.list && Item(n, dist[n]) != x {
        assert Processed(q, a, slice, dist, n);
      }
    }
    forall y | y in b.list ensures Queued(q, b, dist, y) {
      assert Queued(q, a, dist, y);
    }
    forall g | g in b.known ensures Explored(q.p, q.broad, b, g) {
      ExploredStays(q.p, q.broad, a, b, g);
    }
  }

  lemma ListStaysInOrder(a: seq<Item>, b: seq<Item>)
    requires a != [] && InOrder(a) && a[1..] <= b
    requires forall i :: |a| - 1 <= i < |b| ==> b[i].depth == a[0].depth + 1
    ensures InOrder(b)
    ensures b != [] ==> a[0].depth <= b[0].depth
  {
  }

  /** What taking item x from the list and scanning its function does to the search. */
  ghost predicate Scan(q: Query, a: View, slice: set<Func>, dist: map<Func, nat>, x: Item, b: View) {
    && Bfs(q, a, slice, dist) && a.list != [] && x == a.list[0]
    && x.depth <= q.maxDepth && x.cur !in q.blocked
    && ScannedAll(q.p, q.broad, x.depth + 1, x.cur, a.(list := a.list[1..]), b)
  }

  lemma ScanKnowsGlobals(q: Query, a: View, slice: set<Func>, dist: map<Func, nat>, x: Item, b: View)
    requires Scan(q, a, slice, dist, x, b)
    ensures GlobalsKnown(q, b, slice + {x.cur})
  {
  }

  lemma ScanQueues(q: Query, a: View, slice: set<Func>, dist: map<Func, nat>, x: Item, b: View)
    requires Scan(q, a, slice, dist, x, b)
    ensures InOrder(b.list)
    ensures forall y :: y in b.list ==> Queued(q, b, Extend(dist, b.seen, x.depth + 1), y)
    ensures b.list != [] ==> x.depth <= b.list[0].depth
  {
    ListStaysInOrder(a.list, b.list);
    assert Queued(q, a, dist, x);
    var rest := a.list[1..];
    forall y | y in b.list ensures Queued(q, b, Extend(dist, b.seen, x.depth + 1), y) {
      var i :| 0 <= i < |b.list| && b.list[i] == y;
      if i < |rest| {
        assert y == a.list[i + 1];
        assert Queued(q, a, dist, y);
      } else {
        WithinStep(q.p, q.broad, q.blocked, q.start, x.cur, y.cur, x.depth);
      }
    }
  }

  lemma ScanProcesses(q: Query, a: View, slice: set<Func>, dist: map<Func, nat>, x: Item, b: View)
    requires Scan(q, a, slice, dist, x, b) && x.cur in dist && dist[x.cur] == x.depth
    ensures Processed(q, b, slice + {x.cur}, Extend(dist, b.seen, x.depth + 1), x.cur)
  {
    ScanKnowsGlobals(q, a, slice, dist, x, b);
    var e := Extend(dist, b.seen, x.depth + 1);
    forall h | q.Edge(x.cur, h) ensures h in b.seen && e[h] <= x.depth + 1 {
      if h !in q.p.callees(x.cur) {
        var v :| v in q.p.operands(x.cur) && Refers(q.p, v, h);
        SettledReaches(q.p, q.broad, b, v);
      }
    }
    forall g | UsesGlobal(q.p, x.cur, g) ensures g in b.known {
      var v :| v in q.p.operands(x.cur) && ReachesGlobal(q.p, v, g);
      SettledReaches(q.p, q.broad, b, v);
    }
  }

  lemma ScanKeepsProcessed(q: Query, a: View, slice: set<Func>, dist: map<Func, nat>, x: Item, b: View, n: Func)
    requires Scan(q, a, slice, dist, x, b) && n in dist && Processed(q, a, slice, dist, n)
    ensures Processed(q, b, slice + {x.cur}, Extend(dist, b.seen, x.depth + 1), n)
  {
  }

  lemma ScanAccounts(q: Query, a: View, slice: set<Func>, dist: map<Func, nat>, x: Item, b: View, n: Func)
    requires Scan(q, a, slice, dist, x, b) && n in Extend(dist, b.seen, x.depth + 1)
    ensures var e := Extend(dist, b.seen, x.depth + 1);
            Item(n, e[n]) in b.list || Processed(q, b, slice + {x.cur}, e, n)
  {
    if n in dist {
      if Item(n, dist[n]) == x {
        ScanProcesses(q, a, slice, dist, x, b);
      } else if Item(n, dist[n]) in a.list {
        assert a.list == [x] + a.list[1..];
        assert Item(n, dist[n]) in a.list[1..];
      } else {
        ScanKeepsProcessed(q, a, slice, dist, x, b, n);
      }
    }
  }

  lemma ScanIsWanted(q: Query, a: View, slice: set<Func>, dist: map<Func, nat>, x: Item, b: View)
    requires Scan(q, a, slice, dist, x, b)
    ensures forall n :: n in slice + {x.cur} ==> q.Wanted(n)
  {
    assert Queued(q, a, dist, x);
    WithinMore(q.p, q.broad, q.blocked, q.start, x.cur, x.depth, q.maxDepth);
  }

  lemma BfsStep(q: Query, a: View, slice: set<Func>, dist: map<Func, nat>, x: Item, b: View)
    requires Scan(q, a, slice, dist, x, b)
    ensures Bfs(q, b, slice + {x.cur}, Extend(dist, b.seen, x.depth + 1))
  {
    var e := Extend(dist, b.seen, x.depth + 1);
    ScanKnowsGlobals(q, a, slice, dist, x, b);
    ScanQueues(q, a, slice, dist, x, b);
    ScanIsWanted(q, a, slice, dist, x, b);
    ScanDepths(q, a, slice, dist, x, b);
    ScanAccountsAll(q, a, slice, dist, x, b);
  }

  lemma ScanAccountsAll(q: Query, a: View, slice: set<Func>, dist: map<Func, nat>, x: Item, b: View)
    requires Scan(q, a, slice, dist, x, b)
    ensures var e := Extend(dist, b.seen, x.depth + 1);
            forall n :: n in e ==> Item(n, e[n]) in b.list || Processed(q, b, slice + {x.cur}, e, n)
  {
    var e := Extend(dist, b.seen, x.depth + 1);
    forall n | n in e ensures Item(n, e[n]) in b.list || Processed(q, b, slice + {x.cur}, e, n) {
      ScanAccounts(q, a, slice, dist, x, b, n);
    }
  }

  lemma ScanDepths(q: Query, a: View, slice: set<Func>, dist: map<Func, nat>, x: Item, b: View)
    requires Scan(q, a, slice, dist, x, b) && (b.list != [] ==> x.depth <= b.list[0].depth)
    ensures var e := Extend(dist, b.seen, x.depth + 1);
            && e.Keys == b.seen + {q.start} && e[q.start] == 0 && b.seen <= q.p.funcs && b.known <= q.p.names
            && (b.list != [] ==> forall n :: n in e ==> e[n] <= b.list[0].depth + 1)
  {
  }

  lemma ScanDone(q: Query, a: View, slice: set<Func>, dist: map<Func, nat>, x: Item, b: View)
    returns (e: map<Func, nat>)
    requires Bfs(q, a, slice, dist) && a.list != [] && x == a.list[0]
    requires x.depth <= q.maxDepth && x.cur !in q.blocked
    requires ScannedAll(q.p, q.broad, x.depth + 1, x.cur, a.(list := a.list[1..]), b)
    ensures Advanced(q, a, b, slice + {x.cur}, e)
  {
    e := Extend(dist, b.seen, x.depth + 1);
    BfsStep(q, a, slice, dist, x, b);
    ScanAdds(q, a, x, b);
  }

  lemma ScanAdds(q: Query, a: View, x: Item, b: View)
    requires a.list != [] && ScannedAll(q.p, q.broad, x.depth + 1, x.cur, a.(list := a.list[1..]), b)
    ensures a.seen <= b.seen <= q.p.funcs && (a.seen == b.seen ==> |b.list| < |a.list|)
  {
    AddedMarks(a.(list := a.list[1..]), b, x.depth + 1);
  }

  lemma BfsDone(q: Query, s: View, slice: set<Func>, dist: map<Func, nat>)
    requires Bfs(q, s, slice, dist) && s.list == []
    ensures forall n :: n in slice <==> q.Wanted(n)
    ensures forall g :: g in s.known <==> exists n :: n in slice && UsesGlobal(q.p, n, g)
  {
    forall n | q.Wanted(n) ensures n in slice {
      var w :| IsWalk(q.p, q.broad, q.blocked, w) && w[0] == q.start && w[|w| - 1] == n && |w| <= q.maxDepth + 1;
      WalkNear(q, s, slice, dist, w);
      assert Processed(q, s, slice, dist, n);
    }
    forall g | exists n :: n in slice && UsesGlobal(q.p, n, g) ensures g in s.known {
      var n :| n in slice && UsesGlobal(q.p, n, g);
      var w :| IsWalk(q.p, q.broad, q.blocked, w) && w[0] == q.start && w[|w| - 1] == n && |w| <= q.maxDepth + 1;
      WalkNear(q, s, slice, dist, w);
      assert Processed(q, s, slice, dist, n);
    }
  }

  /** No function is seen later than the shortest walk to it allows. */
  lemma {:induction false} WalkNear(q: Query, s: View, slice: set<Func>, dist: map<Func, nat>, w: seq<Func>)
    requires Bfs(q, s, slice, dist) && s.list == []
    requires IsWalk(q.p, q.broad, q.blocked, w) && w[0] == q.start && |w| <= q.maxDepth + 1
    ensures w[|w| - 1] in dist && dist[w[|w| - 1]] <= |w| - 1
  {
    if |w| > 1 {
      WalkNear(q, s, slice, dist, w[..|w| - 1]);
      assert MovesOn(q.p, q.broad, q.blocked, w[|w| - 2], w[|w| - 1]);
      assert Processed(q, s, slice, dist, w[|w| - 2]);
      assert q.Edge(w[|w| - 2], w[|w| - 1]);
    }
  }
}
