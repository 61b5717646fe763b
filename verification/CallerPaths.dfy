/** The walk from one function back through its callers, which saves the call chains it followed, and
    the chain to the API taken from it. */
module CallerPaths {
  import opened Options
  import opened CallGraph

  type Path = seq<Func>

  // ---- reverse call chains

  /** The walk goes on from function f, which is not an API function, to its caller h. */
  ghost predicate GoesBack(p: Program, filter: set<Func>, f: Func, h: Func) {
    f !in filter && h in p.callers(f)
  }

  ghost predicate IsCallerPath(p: Program, filter: set<Func>, start: Func, w: Path) {
    w != [] && w[0] == start && forall i :: 0 < i < |w| ==> GoesBack(p, filter, w[i - 1], w[i])
  }

  ghost predicate EndsAt(w: Path, n: Func) {
    w != [] && w[|w| - 1] == n
  }

  /** n calls start, directly or through functions that are not in the filter. */
  ghost predicate Reaches(p: Program, filter: set<Func>, start: Func, n: Func) {
    exists w :: IsCallerPath(p, filter, start, w) && EndsAt(w, n)
  }

  // ---- the tree of the walk

  function Front(w: Path): Path
    requires w != []
  {
    w[..|w| - 1]
  }

  function Last(w: Path): Func
    requires w != []
  {
    w[|w| - 1]
  }

  datatype Query = Query(p: Program, filter: set<Func>, start: Func)
  {
    ghost predicate Chain(w: Path) { IsCallerPath(p, filter, start, w) }

    ghost predicate Leads(tree: set<Path>, h: Func, n: nat) {
      exists v :: v in tree && 1 < |v| <= n && Last(v) == h
    }

    /** Caller number i of the function at the end of w had been met before. */
    ghost predicate Skips(tree: set<Path>, w: Path, i: nat)
      requires w != []
    {
      var cs := p.callers(Last(w));
      i < |cs| && (w + [cs[i]] !in tree || cs[i] in cs[..i])
    }

    /** The path ends at an API function or at one nobody calls, or one of the callers had been met before. */
    ghost predicate Stops(tree: set<Path>, w: Path)
      requires w != []
    {
      Last(w) in filter || p.callers(Last(w)) == [] || exists i: nat :: Skips(tree, w, i)
    }

    /** A set of paths back from the start: one, and a shortest one, for every function there is a path of several
        functions to, besides the start alone. */
    ghost predicate SearchTree(tree: set<Path>) {
      && [start] in tree
      && (forall w :: w in tree ==> Chain(w))
      && (forall w {:trigger Front(w)} :: w in tree && |w| > 1 ==> Front(w) in tree)
      && Unique(tree)
      && (forall u :: Chain(u) && |u| > 1 ==> Leads(tree, Last(u), |u|))
    }

    /** Of a search tree exactly the paths that stop are saved. */
    ghost predicate Saves(tree: set<Path>, paths: set<Path>) {
      && SearchTree(tree)
      && (forall w :: w in paths ==> Chain(w))
      && (forall w :: w in tree ==> (w in paths <==> Stops(tree, w)))
      && paths <= tree
    }

    /** The saved paths are reverse call chains. Each API function that reaches the start ends one; each other function
        that does lies on one, and these are the slice. */
    ghost predicate Covers(slice: set<Func>, paths: set<Path>) {
      && (forall w :: w in paths ==> IsCallerPath(p, filter, start, w))
      && (forall n :: n in filter && Reaches(p, filter, start, n) ==> exists w :: w in paths && EndsAt(w, n))
      && (forall n :: n !in filter && Reaches(p, filter, start, n) ==> exists w :: w in paths && n in w)
      && (forall n :: n in slice <==> n !in filter && Reaches(p, filter, start, n))
    }
  }

  // ---- what holds between two steps of the walk

  /** tree holds the paths ever put on the list. */
  datatype View = View(list: seq<Path>, seen: set<Func>, slice: set<Func>, paths: set<Path>, tree: set<Path>)

  /** Each path of the tree goes on from one that was taken off the list, and each function met ends one. */
  ghost predicate Grown(q: Query, s: View) {
    && [q.start] in s.tree && s.seen <= q.p.funcs
    && (forall w :: w in s.tree ==> q.Chain(w))
    && (forall w {:trigger Parted(s, w)} :: w in s.tree && |w| > 1 ==> Parted(s, w))
    && Unique(s.tree)
    && (forall h :: h in s.seen ==> Met(s.tree, h))
  }

  ghost predicate Parted(s: View, w: Path)
    requires w != []
  {
    Front(w) in s.tree && Front(w) !in s.list && Last(w) in s.seen
  }

  ghost predicate Unique(tree: set<Path>) {
    forall v, w :: v in tree && w in tree && |v| > 1 && |w| > 1 && Last(v) == Last(w) ==> v == w
  }

  ghost predicate Met(tree: set<Path>, h: Func) {
    exists v :: v in tree && |v| > 1 && Last(v) == h
  }

  /** The list holds paths of the tree, each once, shorter ones first. */
  ghost predicate Queued(s: View) {
    && (forall w :: w in s.list ==> w in s.tree)
    && (forall i, j :: 0 <= i < j < |s.list| ==> s.list[i] != s.list[j] && |s.list[i]| <= |s.list[j]|)
    && (forall w :: w in s.paths ==> w in s.tree && w !in s.list)
    && (forall n :: n in s.slice ==> exists w :: w in s.tree && w !in s.list && EndsAt(w, n))
  }

  /** Path w was taken off the list. */
  ghost predicate Handled(q: Query, s: View, w: Path)
    requires w != []
  {
    && (w in s.paths <==> q.Stops(s.tree, w))
    && (Last(w) in q.filter || Last(w) in s.slice)
    && (Last(w) !in q.filter ==> forall h :: h in q.p.callers(Last(w)) ==> q.Leads(s.tree, h, |w| + 1))
  }

  ghost predicate AllHandled(q: Query, s: View, but: set<Path>)
    requires Grown(q, s)
  {
    && (forall w {:trigger Handled(q, s, w)} :: w in s.tree && w !in s.list && w !in but ==> Handled(q, s, w))
    && (forall n :: n in s.slice ==> n !in q.filter)
  }

  ghost predicate Walking(q: Query, s: View) {
    && Grown(q, s) && Queued(s) && AllHandled(q, s, {})
    && (s.list != [] ==> forall w :: w in s.tree ==> |w| <= |s.list[0]| + 1)
  }

  /** The walk has gone on from the end of path w to the first i callers. */
  ghost predicate Expanding(q: Query, s: View, w: Path, i: nat) {
    && Grown(q, s) && Queued(s) && AllHandled(q, s, {w}) && AtFront(s, w)
    && w in s.tree && w !in s.list && Last(w) !in q.filter && Last(w) in s.slice
    && Followed(q, s, w, i)
  }

  ghost predicate AtFront(s: View, w: Path) {
    (forall v :: v in s.list ==> |w| <= |v|) && forall v :: v in s.tree ==> |v| <= |w| + 1
  }

  ghost predicate Followed(q: Query, s: View, w: Path, i: nat)
    requires w != []
  {
    var cs := q.p.callers(Last(w));
    && i <= |cs|
    && (forall k :: 0 <= k < i ==> cs[k] in s.seen)
    && (forall h :: w + [h] in s.tree ==> h in cs[..i])
    && (w in s.paths <==> cs == [] || exists k: nat :: k < i && q.Skips(s.tree, w, k))
  }

  class CallerAnalysis {
    const p: Program
    const filter: set<Func>
    var visitedSet: set<Func>
    var worklist: seq<Path>
    var backwardFuncSlice: set<Func>
    var backwardFuncPaths: set<Path>
    ghost var tree: set<Path>

    constructor (p: Program, filter: set<Func>)
      ensures this.p == p && this.filter == filter
      ensures worklist == []
    {
      this.p, this.filter := p, filter;
      visitedSet, worklist, backwardFuncSlice, backwardFuncPaths, tree := {}, [], {}, {}, {};
    }

    ghost function Now(): View
      reads this
    {
      View(worklist, visitedSet, backwardFuncSlice, backwardFuncPaths, tree)
    }

    /** Follows one caller of the function at the end of a path; a caller met before ends the path. */
    method BackwardPropagate(path: Path, h: Func)
      modifies `visitedSet, `worklist, `backwardFuncPaths, `tree
      ensures Now() == Propagated(old(Now()), path, h)
    {
      if h in visitedSet {
        backwardFuncPaths := backwardFuncPaths + {path};
        return;
      }
      visitedSet := visitedSet + {h};
      worklist := worklist + [path + [h]];
      tree := tree + {path + [h]};
    }

    /** One round of the loop: takes the first path and goes on from its end, unless that is an API
        function. */
    method BackwardStep(ghost q: Query)
      requires ValidProgram(p) && worklist != [] && q.p == p && q.filter == filter
      requires Walking(q, Now())
      modifies this
      ensures Walking(q, Now())
      ensures old(visitedSet) <= visitedSet <= p.funcs
      ensures visitedSet == old(visitedSet) ==> |worklist| < |old(worklist)|
    {
      ghost var a := Now();
      var path := worklist[0];
      worklist := worklist[1..];
      assert q.Chain(path);
      if path[|path| - 1] in filter {
        backwardFuncPaths := backwardFuncPaths + {path};
        StopKeeps(q, a);
        assert Now() == Taken(a, {}, {path});
      } else {
        assert Now() == Taken(a, {}, {});
        BackwardProcess(q, a, path);
        PropagateToCallers(q, path);
      }
    }

    /** Takes up the function at the end of a path, and saves a path that does not go on. */
    method BackwardProcess(ghost q: Query, ghost a: View, path: Path)
      requires q.p == p && q.filter == filter && Walking(q, a) && a.list != [] && Now() == Taken(a, {}, {})
      requires path != [] && path == a.list[0] && Last(path) !in filter
      modifies `backwardFuncSlice, `backwardFuncPaths
      ensures Expanding(q, Now(), path, 0)
    {
      var n := path[|path| - 1];
      backwardFuncSlice := backwardFuncSlice + {n};
      if p.callers(n) == [] {
        backwardFuncPaths := backwardFuncPaths + {path};
      }
      assert Now() == Taken(a, {n}, Unextended(p, path));
      assert q.Chain(path);
      StartExpanding(q, a);
    }

    method PropagateToCallers(ghost q: Query, path: Path)
      requires ValidProgram(p) && q.p == p && q.filter == filter && path != [] && Expanding(q, Now(), path, 0)
      modifies `visitedSet, `worklist, `backwardFuncPaths, `tree
      ensures Walking(q, Now())
      ensures old(visitedSet) <= visitedSet
      ensures visitedSet == old(visitedSet) ==> |worklist| == |old(worklist)|
    {
      var callers := p.callers(path[|path| - 1]);
      for i := 0 to |callers|
        invariant Expanding(q, Now(), path, i)
        invariant old(visitedSet) <= visitedSet
        invariant visitedSet == old(visitedSet) ==> |worklist| == |old(worklist)|
      {
        ExpandOne(q, Now(), path, i);
        BackwardPropagate(path, callers[i]);
      }
      Expanded(q, Now(), path);
    }

    method BackwardTraverse(start: Func)
      requires ValidProgram(p) && worklist == []
      modifies this
      ensures worklist == []
      ensures Query(p, filter, start).Saves(tree, backwardFuncPaths)
      ensures Query(p, filter, start).Covers(backwardFuncSlice, backwardFuncPaths)
    {
      backwardFuncSlice, backwardFuncPaths, visitedSet := {}, {}, {};
      worklist, tree := [[start]], {[start]};
      ghost var q := Query(p, filter, start);
      WalkStarts(q, Now());
      while worklist != []
        invariant Walking(q, Now())
        decreases p.funcs - visitedSet, |worklist|
      {
        BackwardStep(q);
      }
      WalkDone(q, Now());
    }

    /** analyze(startFunc, false, ...); None stands for a name no function has. */
    method Analyze(start: Option<Func>)
      requires ValidProgram(p) && worklist == []
      modifies this
      ensures worklist == []
      ensures start.None? ==> backwardFuncPaths == {} && backwardFuncSlice == {}
      ensures start.Some? ==> Query(p, filter, start.value).Saves(tree, backwardFuncPaths)
      ensures start.Some? ==> Query(p, filter, start.value).Covers(backwardFuncSlice, backwardFuncPaths)
    {
      if start.None? {
        backwardFuncSlice, backwardFuncPaths := {}, {};
        return;
      }
      BackwardTraverse(start.value);
    }
  }

  function Propagated(s: View, path: Path, h: Func): View {
    if h in s.seen then
      s.(paths := s.paths + {path})
    else
      s.(seen := s.seen + {h}, list := s.list + [path + [h]], tree := s.tree + {path + [h]})
  }

  // ---- the steps

  lemma WalkStarts(q: Query, s: View)
    requires s == View([[q.start]], {}, {}, {}, {[q.start]})
    ensures Walking(q, s)
  {
    assert [q.start] in s.list && |[q.start]| == 1;
  }

  function Taken(a: View, slice: set<Func>, paths: set<Path>): View
    requires a.list != []
  {
    a.(list := a.list[1..], slice := a.slice + slice, paths := a.paths + paths)
  }

  function Unextended(p: Program, w: Path): set<Path>
    requires w != []
  {
    if p.callers(Last(w)) == [] then {w} else {}
  }

  lemma TakenIsGrown(q: Query, a: View, slice: set<Func>, paths: set<Path>)
    requires Walking(q, a) && a.list != []
    ensures Grown(q, Taken(a, slice, paths))
    ensures a.list[0] !in a.list[1..]
  {
    forall w | w in a.tree && |w| > 1 ensures Parted(Taken(a, slice, paths), w) {
      assert Parted(a, w);
    }
  }

  lemma TakenIsQueued(q: Query, a: View, slice: set<Func>, paths: set<Path>)
    requires Walking(q, a) && a.list != [] && paths <= {a.list[0]} && forall n :: n in slice ==> EndsAt(a.list[0], n)
    ensures Queued(Taken(a, slice, paths))
  {
    var w, s := a.list[0], Taken(a, slice, paths);
    assert w in a.list;
    forall n | n in s.slice ensures exists v :: v in s.tree && v !in s.list && EndsAt(v, n) {
      if n in a.slice {
        var v :| v in a.tree && v !in a.list && EndsAt(v, n);
        assert v !in s.list;
      } else {
        assert EndsAt(w, n);
      }
    }
  }

  /** What was handled stays so while the other paths of the tree are saved. */
  lemma OthersHandled(q: Query, a: View, slice: set<Func>, paths: set<Path>)
    requires Walking(q, a) && a.list != [] && paths <= {a.list[0]} && slice !! q.filter
    ensures Grown(q, Taken(a, slice, paths)) && AllHandled(q, Taken(a, slice, paths), {a.list[0]})
  {
    TakenIsGrown(q, a, slice, paths);
    var s := Taken(a, slice, paths);
    forall v | v in s.tree && v !in s.list && v !in {a.list[0]} ensures Handled(q, s, v) {
      assert v !in a.list;
      assert Handled(q, a, v);
    }
  }

  lemma StopKeeps(q: Query, a: View)
    requires Walking(q, a) && a.list != [] && q.Chain(a.list[0]) && Last(a.list[0]) in q.filter
    ensures Walking(q, Taken(a, {}, {a.list[0]}))
  {
    var w, s := a.list[0], Taken(a, {}, {a.list[0]});
    TakenIsGrown(q, a, {}, {w});
    TakenIsQueued(q, a, {}, {w});
    OthersHandled(q, a, {}, {w});
    assert Handled(q, s, w);
  }

  lemma StartExpanding(q: Query, a: View)
    requires Walking(q, a) && a.list != [] && q.Chain(a.list[0]) && Last(a.list[0]) !in q.filter
    ensures var w := a.list[0];
            Expanding(q, Taken(a, {Last(w)}, Unextended(q.p, w)), w, 0)
  {
    var w := a.list[0];
    var paths := Unextended(q.p, w);
    var s := Taken(a, {Last(w)}, paths);
    TakenIsGrown(q, a, {Last(w)}, paths);
    TakenIsQueued(q, a, {Last(w)}, paths);
    OthersHandled(q, a, {Last(w)}, paths);
    assert w in a.list && w !in a.paths;
    forall h ensures w + [h] !in a.tree {
      assert Front(w + [h]) == w;
      assert w + [h] in a.tree ==> Parted(a, w + [h]);
    }
    assert forall v :: v in s.list ==> v in a.list;
  }

  lemma SkipIsFollowed(q: Query, s: View, w: Path, i: nat)
    requires w != [] && Followed(q, s, w, i) && i < |q.p.callers(Last(w))| && q.p.callers(Last(w))[i] in s.seen
    ensures Followed(q, s.(paths := s.paths + {w}), w, i + 1)
  {
    var cs, t := q.p.callers(Last(w)), s.(paths := s.paths + {w});
    assert w + [cs[i]] in s.tree ==> cs[i] in cs[..i];
    assert q.Skips(t.tree, w, i);
    assert forall h :: h in cs[..i] ==> h in cs[..i + 1];
  }

  lemma GrowIsFollowed(q: Query, s: View, w: Path, i: nat)
    requires w != [] && Followed(q, s, w, i) && i < |q.p.callers(Last(w))| && q.p.callers(Last(w))[i] !in s.seen
    requires w + [q.p.callers(Last(w))[i]] !in s.tree
    ensures Followed(q, Propagated(s, w, q.p.callers(Last(w))[i]), w, i + 1)
  {
    var cs := q.p.callers(Last(w));
    var h := cs[i];
    var t := Propagated(s, w, h);
    forall k: nat | k < i + 1 ensures q.Skips(t.tree, w, k) <==> k < i && q.Skips(s.tree, w, k) {
      if k < i {
        assert cs[k] in s.seen && (w + [cs[k]])[|w|] == cs[k] && (w + [h])[|w|] == h;
      } else {
        assert forall l :: 0 <= l < i ==> cs[l] in s.seen;
      }
    }
    forall g | w + [g] in t.tree ensures g in cs[..i + 1] {
      if w + [g] in s.tree {
        assert g in cs[..i];
      } else {
        assert (w + [g])[|w|] == (w + [h])[|w|];
        assert cs[..i + 1][i] == h;
      }
    }
  }

  /** A caller met before ends the path. */
  lemma SkipOne(q: Query, s: View, w: Path, i: nat)
    requires Expanding(q, s, w, i) && i < |q.p.callers(Last(w))| && q.p.callers(Last(w))[i] in s.seen
    ensures Expanding(q, s.(paths := s.paths + {w}), w, i + 1)
  {
    var t := s.(paths := s.paths + {w});
    SkipIsFollowed(q, s, w, i);
    forall v | v in t.tree && |v| > 1 ensures Parted(t, v) {
      assert Parted(s, v);
    }
    forall v | v in t.tree && v !in t.list && v !in {w} ensures Handled(q, t, v) {
      assert Handled(q, s, v);
    }
  }

  lemma MetStays(a: set<Path>, b: set<Path>, h: Func)
    requires Met(a, h) && a <= b
    ensures Met(b, h)
  {
  }

  lemma GrowIsUnique(s: View, x: Path)
    requires Unique(s.tree) && |x| > 1 && Last(x) !in s.seen && forall w :: w in s.tree && |w| > 1 ==> Parted(s, w)
    ensures Unique(s.tree + {x})
  {
    assert forall w :: w in s.tree && |w| > 1 ==> Last(w) in s.seen;
  }

  lemma GrowIsChain(q: Query, w: Path, h: Func)
    requires q.Chain(w) && GoesBack(q.p, q.filter, Last(w), h)
    ensures q.Chain(w + [h])
  {
  }

  /** A new caller makes the tree grow by one path. */
  lemma GrowIsGrown(q: Query, s: View, w: Path, h: Func)
    requires ValidProgram(q.p) && Grown(q, s) && w in s.tree && w !in s.list && Last(w) !in q.filter
    requires h in q.p.callers(Last(w)) && h !in s.seen
    ensures Grown(q, Propagated(s, w, h)) && w + [h] !in s.tree
  {
    var t, x := Propagated(s, w, h), w + [h];
    assert Front(x) == w && Last(x) == h && x in t.tree;
    GrowIsChain(q, w, h);
    assert x !in s.tree by {
      assert x in s.tree ==> Parted(s, x);
    }
    forall v | v in t.tree && |v| > 1 ensures Parted(t, v) {
      if v != x {
        assert Parted(s, v);
      }
    }
    GrowIsUnique(s, x);
    forall g | g in t.seen ensures Met(t.tree, g) {
      if g in s.seen {
        MetStays(s.tree, t.tree, g);
      }
    }
  }

  lemma GrowIsQueued(q: Query, s: View, w: Path, h: Func)
    requires Queued(s) && w + [h] !in s.tree && h !in s.seen
    requires forall v :: v in s.tree ==> |v| <= |w| + 1
    ensures Queued(Propagated(s, w, h))
  {
    var t, x := Propagated(s, w, h), w + [h];
    forall i, j | 0 <= i < j < |t.list| ensures t.list[i] != t.list[j] && |t.list[i]| <= |t.list[j]| {
      assert s.list[i] in s.list;
    }
    forall n | n in t.slice ensures exists v :: v in t.tree && v !in t.list && EndsAt(v, n) {
      var v :| v in s.tree && v !in s.list && EndsAt(v, n);
      assert v != x;
    }
  }

  /** What was handled before is not touched by a path that goes on from w. */
  lemma GrowKeepsHandled(q: Query, s: View, w: Path, h: Func, v: Path)
    requires v != [] && Handled(q, s, v) && v != w && h !in s.seen
    ensures Handled(q, Propagated(s, w, h), v)
  {
    var t := Propagated(s, w, h);
    forall g | Last(v) !in q.filter && g in q.p.callers(Last(v)) ensures q.Leads(t.tree, g, |v| + 1) {
      var u :| u in s.tree && 1 < |u| <= |v| + 1 && Last(u) == g;
      assert u in t.tree;
    }
    forall i: nat ensures q.Skips(t.tree, v, i) <==> q.Skips(s.tree, v, i) {
      var cs := q.p.callers(Last(v));
      if i < |cs| {
        assert Front(v + [cs[i]]) == v && Front(w + [h]) == w;
      }
    }
  }

  lemma GrowKeepsAllHandled(q: Query, s: View, w: Path, h: Func)
    requires Grown(q, s) && AllHandled(q, s, {w}) && h !in s.seen && Grown(q, Propagated(s, w, h))
    ensures AllHandled(q, Propagated(s, w, h), {w})
  {
    var t := Propagated(s, w, h);
    forall v | v in t.tree && v !in t.list && v !in {w} ensures Handled(q, t, v) {
      assert v != w + [h];
      GrowKeepsHandled(q, s, w, h, v);
    }
  }

  lemma GrowOne(q: Query, s: View, w: Path, i: nat)
    requires ValidProgram(q.p) && Expanding(q, s, w, i) && i < |q.p.callers(Last(w))|
    requires q.p.callers(Last(w))[i] !in s.seen
    ensures Expanding(q, Propagated(s, w, q.p.callers(Last(w))[i]), w, i + 1)
  {
    var cs := q.p.callers(Last(w));
    var h := cs[i];
    var t := Propagated(s, w, h);
    GrowIsGrown(q, s, w, h);
    GrowIsQueued(q, s, w, h);
    GrowKeepsAllHandled(q, s, w, h);
    GrowIsFollowed(q, s, w, i);
    assert w != w + [h];
  }

  lemma ExpandOne(q: Query, s: View, w: Path, i: nat)
    requires ValidProgram(q.p) && Expanding(q, s, w, i) && i < |q.p.callers(Last(w))|
    ensures Expanding(q, Propagated(s, w, q.p.callers(Last(w))[i]), w, i + 1)
  {
    if q.p.callers(Last(w))[i] in s.seen {
      SkipOne(q, s, w, i);
    } else {
      GrowOne(q, s, w, i);
    }
  }

  lemma Expanded(q: Query, s: View, w: Path)
    requires w != [] && Expanding(q, s, w, |q.p.callers(Last(w))|)
    ensures Walking(q, s)
  {
    var cs := q.p.callers(Last(w));
    forall h | h in cs ensures q.Leads(s.tree, h, |w| + 1) {
      var v :| v in s.tree && |v| > 1 && Last(v) == h;
    }
    assert forall k: nat :: q.Skips(s.tree, w, k) ==> k < |cs|;
    assert Handled(q, s, w);
    if s.list != [] {
      assert s.list[0] in s.list;
    }
  }

  // ---- when the list is empty

  lemma {:induction false} EverythingIsLed(q: Query, s: View, u: Path)
    requires Walking(q, s) && s.list == [] && q.Chain(u) && |u| > 1
    ensures q.Leads(s.tree, Last(u), |u|)
  {
    var f := Front(u);
    assert GoesBack(q.p, q.filter, u[|u| - 2], u[|u| - 1]) && Last(f) == u[|u| - 2];
    var v := [q.start];
    if |f| > 1 {
      assert q.Chain(f);
      EverythingIsLed(q, s, f);
      v :| v in s.tree && 1 < |v| <= |f| && Last(v) == Last(f);
    } else {
      assert f == v;
    }
    assert Handled(q, s, v);
    var x :| x in s.tree && 1 < |x| <= |v| + 1 && Last(x) == Last(u);
  }

  lemma EndIsInTree(q: Query, s: View, n: Func) returns (v: Path)
    requires Walking(q, s) && s.list == [] && Reaches(q.p, q.filter, q.start, n)
    ensures v in s.tree && EndsAt(v, n) && Handled(q, s, v)
  {
    var u :| IsCallerPath(q.p, q.filter, q.start, u) && EndsAt(u, n);
    if |u| > 1 {
      EverythingIsLed(q, s, u);
      v :| v in s.tree && 1 < |v| <= |u| && Last(v) == Last(u);
    } else {
      v := [q.start];
      assert u == v;
    }
  }

  /** Every path of the tree is the beginning of a saved one. */
  lemma {:induction false} GoesOnToSaved(q: Query, s: View, v: Path) returns (w: Path)
    requires Walking(q, s) && s.list == [] && v in s.tree
    ensures w in s.paths && v <= w
    decreases set u | u in s.tree && |u| > |v|
  {
    if v in s.paths {
      return v;
    }
    assert Handled(q, s, v);
    var cs := q.p.callers(Last(v));
    assert !q.Skips(s.tree, v, 0);
    var x := v + [cs[0]];
    ghost var longer, rest := set u | u in s.tree && |u| > |v|, set u | u in s.tree && |u| > |x|;
    assert x in longer && x !in rest && rest <= longer;
    w := GoesOnToSaved(q, s, x);
    assert v == x[..|v|] && x == w[..|x|];
  }

  lemma TreeIsSearchTree(q: Query, s: View)
    requires Walking(q, s) && s.list == []
    ensures q.Saves(s.tree, s.paths)
  {
    forall u | q.Chain(u) && |u| > 1 ensures q.Leads(s.tree, Last(u), |u|) {
      EverythingIsLed(q, s, u);
    }
    forall w | w in s.tree && |w| > 1 ensures Front(w) in s.tree {
      assert Parted(s, w);
    }
    forall w | w in s.tree ensures w in s.paths <==> q.Stops(s.tree, w) {
      assert Handled(q, s, w);
    }
  }

  lemma WalkDone(q: Query, s: View)
    requires Walking(q, s) && s.list == []
    ensures q.Saves(s.tree, s.paths) && q.Covers(s.slice, s.paths)
  {
    TreeIsSearchTree(q, s);
    forall n | Reaches(q.p, q.filter, q.start, n)
      ensures n in q.filter ==> exists w :: w in s.paths && EndsAt(w, n)
      ensures n !in q.filter ==> n in s.slice && exists w :: w in s.paths && n in w
    {
      var v := EndIsInTree(q, s, n);
      var w := GoesOnToSaved(q, s, v);
      assert n == w[|v| - 1];
    }
    forall n | n in s.slice ensures n !in q.filter && Reaches(q.p, q.filter, q.start, n) {
      var w :| w in s.tree && w !in s.list && EndsAt(w, n);
      assert q.Chain(w);
    }
  }

  // ---- the path to the API

  ghost predicate FromApi(p: Program, api: set<Func>, f: Func) {
    exists n :: n in api && Reaches(p, api, f, n)
  }

  /** The chain from the source's function to an API function. A chain found earlier is kept. */
  method GetApiPath(p: Program, api: set<Func>, source: Option<Func>, cached: Path) returns (apiPath: Path)
    requires ValidProgram(p)
    ensures cached != [] ==> apiPath == cached
    ensures cached == [] ==> (apiPath != [] <==> source.Some? && FromApi(p, api, source.value))
    ensures cached == [] && apiPath != [] ==>
              IsCallerPath(p, api, source.value, apiPath) && apiPath[|apiPath| - 1] in api
  {
    if cached != [] {
      return cached;
    }
    var analysis := new CallerAnalysis(p, api);
    analysis.Analyze(source);
    apiPath := [];
    var paths := analysis.backwardFuncPaths;
    while paths != {}
      invariant paths <= analysis.backwardFuncPaths
      invariant forall w, n :: w in analysis.backwardFuncPaths && w !in paths && EndsAt(w, n) ==> n !in api
      invariant apiPath == []
    {
      var path :| path in paths;
      paths := paths - {path};
      if path[|path| - 1] in api {
        apiPath := path;
        assert EndsAt(path, path[|path| - 1]);
        break;
      }
    }
  }
}
