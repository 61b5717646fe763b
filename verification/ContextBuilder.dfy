/** The context of a system call or driver: the functions and globals its roots lead to, and the
    search for the greatest call depth that keeps it below the function limit. */
module ContextBuilder {
  import opened Options
  import opened CallGraph
  import LocalCallGraph
  import opened SetFacts

  /** The greatest unsigned 32-bit number. */
  const MAX_DEPTH: nat := 0xFFFF_FFFF

  /** The program, the blacklist and the names of the roots; None is a name no function has. */
  datatype Scope = Scope(p: Program, broad: bool, blocked: set<Func>, roots: seq<Option<Func>>)
  {
    ghost predicate Valid() {
      ValidProgram(p) && forall i :: 0 <= i < |roots| && roots[i].Some? ==> roots[i].value in p.funcs
    }

    /** n is in the slice of one of the first k roots. */
    ghost predicate InUnion(k: nat, n: Func, depth: nat)
      requires k <= |roots|
    {
      exists i :: 0 <= i < k && roots[i].Some? && InSlice(p, broad, blocked, roots[i].value, n, depth)
    }

    ghost function Funcs(depth: nat): (fs: set<Func>) {
      set n | n in p.funcs && InUnion(|roots|, n, depth)
    }

    ghost predicate IsUsed(depth: nat, g: Global) {
      exists n :: n in Funcs(depth) && UsesGlobal(p, n, g)
    }
  }

  // ---- unions of slices

  lemma WalkStaysInProgram(p: Program, broad: bool, blocked: set<Func>, w: seq<Func>)
    requires ValidProgram(p) && IsWalk(p, broad, blocked, w) && w[0] in p.funcs
    ensures w[|w| - 1] in p.funcs
  {
    if |w| > 1 {
      assert MovesOn(p, broad, blocked, w[|w| - 2], w[|w| - 1]);
      CalledIsKnown(p, broad, w[|w| - 2], w[|w| - 1]);
    }
  }

  lemma CalledIsKnown(p: Program, broad: bool, f: Func, h: Func)
    requires ValidProgram(p) && Calls(p, broad, f, h)
    ensures h in p.funcs
  {
    if h !in p.callees(f) {
      var v :| v in p.operands(f) && Refers(p, v, h);
      assert KnownVal(p, v);
      if !MentionsFun(v, h) {
        var g, u :| ReachesGlobal(p, v, g) && InGlobal(p, g, u) && MentionsFun(u, h);
        assert KnownVal(p, u);
      }
    }
  }

  lemma UnionIsFuncs(s: Scope, n: Func, depth: nat)
    requires s.Valid()
    ensures s.InUnion(|s.roots|, n, depth) <==> n in s.Funcs(depth)
  {
    if s.InUnion(|s.roots|, n, depth) {
      var i :| 0 <= i < |s.roots| && s.roots[i].Some? && InSlice(s.p, s.broad, s.blocked, s.roots[i].value, n, depth);
      var w :| IsWalk(s.p, s.broad, s.blocked, w) && w[0] == s.roots[i].value && w[|w| - 1] == n;
      WalkStaysInProgram(s.p, s.broad, s.blocked, w);
    }
  }

  lemma UnionGrows(s: Scope, d: nat, e: nat)
    requires d <= e
    ensures s.Funcs(d) <= s.Funcs(e) && |s.Funcs(d)| <= |s.Funcs(e)|
  {
    forall n | n in s.Funcs(d) ensures n in s.Funcs(e) {
      var i :| 0 <= i < |s.roots| && s.roots[i].Some? && InSlice(s.p, s.broad, s.blocked, s.roots[i].value, n, d);
      WithinMore(s.p, s.broad, s.blocked, s.roots[i].value, n, d, e);
      assert InSlice(s.p, s.broad, s.blocked, s.roots[i].value, n, e);
    }
    SubsetSize(s.Funcs(d), s.Funcs(e));
  }

  /** At depth 0 only the roots themselves are left. */
  lemma DepthZero(s: Scope, n: Func)
    requires s.Valid()
    ensures n in s.Funcs(0) <==> n !in s.blocked && Some(n) in s.roots
  {
    if n in s.Funcs(0) {
      var i :| 0 <= i < |s.roots| && s.roots[i].Some? && InSlice(s.p, s.broad, s.blocked, s.roots[i].value, n, 0);
      assert s.roots[i] == Some(n);
    }
    if n !in s.blocked && Some(n) in s.roots {
      var i :| 0 <= i < |s.roots| && s.roots[i] == Some(n);
      WithinStart(s.p, s.broad, s.blocked, n, 0);
      assert InSlice(s.p, s.broad, s.blocked, s.roots[i].value, n, 0);
    }
  }

  // ---- depth beyond the number of functions

  ghost predicate Reachable(s: Scope, n: Func) {
    exists depth :: s.InUnion(|s.roots|, n, depth)
  }

  /** A program has no longer shortest walk than it has functions, so that many steps bound nothing. */
  lemma DepthIsNoBound(s: Scope, n: Func, depth: nat)
    requires s.Valid() && |s.p.funcs| <= depth
    ensures n in s.Funcs(depth) <==> Reachable(s, n)
  {
    UnionIsFuncs(s, n, depth);
    if Reachable(s, n) {
      var d :| s.InUnion(|s.roots|, n, d);
      var i :| 0 <= i < |s.roots| && s.roots[i].Some? && InSlice(s.p, s.broad, s.blocked, s.roots[i].value, n, d);
      var w :| IsWalk(s.p, s.broad, s.blocked, w) && w[0] == s.roots[i].value && w[|w| - 1] == n;
      var x := Shortened(s.p, s.broad, s.blocked, w);
      assert InSlice(s.p, s.broad, s.blocked, s.roots[i].value, n, depth);
    }
  }

  ghost predicate UsedByReachable(s: Scope, g: Global) {
    exists n :: Reachable(s, n) && UsesGlobal(s.p, n, g)
  }

  lemma NothingIsCutOff(s: Scope, depth: nat)
    requires s.Valid() && |s.p.funcs| <= depth
    ensures forall n :: n in s.Funcs(depth) <==> Reachable(s, n)
    ensures forall g :: s.IsUsed(depth, g) <==> UsedByReachable(s, g)
  {
    forall n ensures n in s.Funcs(depth) <==> Reachable(s, n) {
      DepthIsNoBound(s, n, depth);
    }
  }

  /** Cutting out what lies between two visits of a function leaves a walk. */
  lemma {:induction false} Shortened(p: Program, broad: bool, blocked: set<Func>, w: seq<Func>) returns (x: seq<Func>)
    requires ValidProgram(p) && IsWalk(p, broad, blocked, w) && w[0] in p.funcs
    ensures IsWalk(p, broad, blocked, x) && x[0] == w[0] && x[|x| - 1] == w[|w| - 1]
    ensures |x| <= |p.funcs|
    decreases |w|
  {
    if i, j :| 0 <= i < j < |w| && w[i] == w[j] {
      var y := w[..i] + w[j..];
      forall k | 0 < k < |y| ensures MovesOn(p, broad, blocked, y[k - 1], y[k]) {
        if k < i {
          assert y[k - 1] == w[k - 1] && y[k] == w[k];
        } else if k == i {
          assert y[k - 1] == w[i - 1] && y[k] == w[i];
        } else {
          var m := k - i + j;
          assert y[k - 1] == w[m - 1] && y[k] == w[m];
        }
      }
      x := Shortened(p, broad, blocked, y);
    } else {
      x := w;
      forall k | 0 <= k < |w| ensures w[k] in p.funcs {
        WalkStaysInProgram(p, broad, blocked, w[..k + 1]);
      }
      NoRepeatIsShort(w, p.funcs);
    }
  }

  lemma {:induction false} NoRepeatIsShort(w: seq<Func>, fs: set<Func>)
    requires forall i, j :: 0 <= i < j < |w| ==> w[i] != w[j]
    requires forall k :: 0 <= k < |w| ==> w[k] in fs
    ensures |w| <= |fs|
  {
    if w != [] {
      NoRepeatIsShort(w[1..], fs - {w[0]});
    }
  }

  // ---- the depth the minimisation stops at

  /** The loop counts down from the greatest depth and stops at the first union below the limit. */
  ghost predicate StopsAt(s: Scope, maxDepth: nat, limit: nat, depth: nat) {
    && depth <= maxDepth && |s.Funcs(depth)| < limit
    && forall d :: depth < d <= maxDepth ==> |s.Funcs(d)| >= limit
  }

  /** The unsigned counter after k rounds. */
  function DepthAfter(maxDepth: nat, k: nat): (d: nat)
    requires maxDepth <= MAX_DEPTH
    ensures d <= MAX_DEPTH
    ensures k <= maxDepth ==> d == maxDepth - k
  {
    (maxDepth - k) % (MAX_DEPTH + 1)
  }

  /** Some round stops the loop exactly if the roots alone stay below the limit: a counter that passes
      zero wraps round and never finds a smaller union. */
  lemma StopsIffRootsFit(s: Scope, maxDepth: nat, limit: nat)
    requires maxDepth <= MAX_DEPTH
    ensures (exists k :: |s.Funcs(DepthAfter(maxDepth, k))| < limit) <==> |s.Funcs(0)| < limit
  {
    if k :| |s.Funcs(DepthAfter(maxDepth, k))| < limit {
      UnionGrows(s, 0, DepthAfter(maxDepth, k));
    }
    assert DepthAfter(maxDepth, maxDepth) == 0;
  }

  /** A program of one function, which is the root. */
  function OneRoot(): Scope {
    Scope(Program({0}, {}, g => GlobalVar(false, [], NoInit, false), f => [], f => [], f => []), false, {}, [Some(0)])
  }

  /** With a limit of one function no round ever stops. */
  lemma OneRootNeverStops(maxDepth: nat, k: nat)
    requires maxDepth <= MAX_DEPTH
    ensures OneRoot().Valid() && |OneRoot().Funcs(DepthAfter(maxDepth, k))| >= 1
  {
    var s := OneRoot();
    assert ValidProgram(s.p);
    assert s.roots[0] == Some(0);
    DepthZero(s, 0);
    UnionGrows(s, 0, DepthAfter(maxDepth, k));
    SubsetSize({0}, s.Funcs(0));
  }

  /** The first round that stops the loop is the one with the greatest depth that stays below. */
  lemma FirstStopIsGreatest(s: Scope, maxDepth: nat, limit: nat, k: nat)
    requires maxDepth <= MAX_DEPTH
    requires |s.Funcs(DepthAfter(maxDepth, k))| < limit
    requires forall j :: 0 <= j < k ==> |s.Funcs(DepthAfter(maxDepth, j))| >= limit
    ensures StopsAt(s, maxDepth, limit, DepthAfter(maxDepth, k))
  {
    assert DepthAfter(maxDepth, maxDepth) == 0;
    UnionGrows(s, 0, DepthAfter(maxDepth, k));
    forall d | DepthAfter(maxDepth, k) < d <= maxDepth ensures |s.Funcs(d)| >= limit {
      assert DepthAfter(maxDepth, maxDepth - d) == d;
    }
  }

  // ---- the builder

  class KernelContextObj {
    const roots: seq<Option<Func>>
    var functions: set<Func>
    var globalvars: set<Global>
    var maxCGDepth: nat

    constructor (roots: seq<Option<Func>>, maxCGDepth: nat)
      ensures this.roots == roots && this.maxCGDepth == maxCGDepth
      ensures functions == {} && globalvars == {}
    {
      this.roots, this.maxCGDepth, functions, globalvars := roots, maxCGDepth, {}, {};
    }
  }

  /** Collects the slices of all roots at one depth. */
  method CollectSlices(s: Scope, depth: nat) returns (funcs: set<Func>, globals: set<Global>)
    requires s.Valid()
    ensures funcs == s.Funcs(depth)
    ensures forall g :: g in globals <==> s.IsUsed(depth, g)
  {
    var analysis := new LocalCallGraph.LocalCallGraphAnalysis(s.p, s.blocked);
    funcs, globals := {}, {};
    for i := 0 to |s.roots|
      invariant analysis.p == s.p && analysis.blocked == s.blocked && analysis.worklist == []
      invariant forall n :: n in funcs <==> s.InUnion(i, n, depth)
      invariant forall g :: g in globals <==> exists n :: n in funcs && UsesGlobal(s.p, n, g)
    {
      ghost var funcs', globals' := funcs, globals;
      analysis.Analyze(s.roots[i], s.broad, depth);
      funcs := funcs + analysis.forwardFuncSlice;
      globals := globals + analysis.relevantGlobalVars;
      OneMoreRoot(s, depth, i, funcs', analysis.forwardFuncSlice);
    }
    forall n ensures n in funcs <==> n in s.Funcs(depth) {
      UnionIsFuncs(s, n, depth);
    }
  }

  lemma OneMoreRoot(s: Scope, depth: nat, i: nat, funcs: set<Func>, slice: set<Func>)
    requires i < |s.roots|
    requires forall n :: n in funcs <==> s.InUnion(i, n, depth)
    requires forall n :: n in slice <==>
               s.roots[i].Some? && InSlice(s.p, s.broad, s.blocked, s.roots[i].value, n, depth)
    ensures forall n :: n in funcs + slice <==> s.InUnion(i + 1, n, depth)
  {
  }

  /** Fills a context with everything its roots lead to. */
  method CreateContext(s: Scope, context: KernelContextObj)
    requires s.Valid() && s.broad && context.roots == s.roots
    modifies context
    ensures context.functions == old(context.functions) + s.Funcs(MAX_DEPTH)
    ensures forall g :: g in context.globalvars <==> g in old(context.globalvars) || s.IsUsed(MAX_DEPTH, g)
    ensures context.maxCGDepth == old(context.maxCGDepth)
    ensures |s.p.funcs| <= 0xFFFF_FFFF ==>
              && (forall n :: n in context.functions <==> n in old(context.functions) || Reachable(s, n))
              && (forall g :: g in context.globalvars <==> g in old(context.globalvars) || UsedByReachable(s, g))
  {
    var funcs, globals := CollectSlices(s, MAX_DEPTH);
    context.functions := context.functions + funcs;
    context.globalvars := context.globalvars + globals;
    if |s.p.funcs| <= 0xFFFF_FFFF {
      NothingIsCutOff(s, MAX_DEPTH);
    }
  }

  datatype Outcome = Small | StoppedAt(depth: nat) | NeverStops

  /** Reduces the depth as long as the union of the slices is not below the limit. NeverStops stands for
      the loop whose counter wraps round at zero (see StopsIffRootsFit). */
  method ReduceDepth(s: Scope, maxDepth: nat, limit: nat)
    returns (outcome: Outcome, funcs: set<Func>, globals: set<Global>)
    requires s.Valid()
    ensures !outcome.Small? && (outcome.NeverStops? <==> |s.Funcs(0)| >= limit)
    ensures outcome.StoppedAt? ==>
              && StopsAt(s, maxDepth, limit, outcome.depth) && funcs == s.Funcs(outcome.depth)
              && forall g :: g in globals <==> s.IsUsed(outcome.depth, g)
  {
    var depth: nat := maxDepth;
    funcs, globals := CollectSlices(s, depth);
    while |funcs| >= limit
      invariant depth <= maxDepth && funcs == s.Funcs(depth)
      invariant forall g :: g in globals <==> s.IsUsed(depth, g)
      invariant forall d :: depth < d <= maxDepth ==> |s.Funcs(d)| >= limit
      decreases depth
    {
      if depth == 0 {
        return NeverStops, {}, {};
      }
      depth := depth - 1;
      funcs, globals := CollectSlices(s, depth);
    }
    UnionGrows(s, 0, depth);
    outcome := StoppedAt(depth);
  }

  /** Cuts a context down to the functions near its roots. */
  method MinimizeContext(s: Scope, context: KernelContextObj, limit: nat) returns (outcome: Outcome)
    requires s.Valid() && !s.broad && context.roots == s.roots && context.maxCGDepth <= MAX_DEPTH
    modifies context
    ensures outcome.Small? <==> |old(context.functions)| < limit
    ensures !outcome.Small? ==> (outcome.NeverStops? <==> |s.Funcs(0)| >= limit)
    ensures !outcome.StoppedAt? ==>
              context.functions == old(context.functions) && context.globalvars == old(context.globalvars)
    ensures outcome.StoppedAt? ==>
              && StopsAt(s, context.maxCGDepth, limit, outcome.depth)
              && context.functions == old(context.functions) * s.Funcs(outcome.depth)
              && |context.functions| < limit
              && forall g :: g in context.globalvars <==> g in old(context.globalvars) && s.IsUsed(outcome.depth, g)
    ensures context.maxCGDepth == old(context.maxCGDepth)
  {
    if |context.functions| < limit {
      return Small;
    }
    var funcs, globals;
    outcome, funcs, globals := ReduceDepth(s, context.maxCGDepth, limit);
    if outcome.NeverStops? {
      return;
    }
    SubsetSize(context.functions * funcs, funcs);
    context.functions := context.functions * funcs;
    context.globalvars := context.globalvars * globals;
  }
}
