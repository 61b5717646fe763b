/** The program as the call-graph analysis sees it: functions, their calls and operands, and global
    variables whose users and initialisers mention functions and further globals. */
module CallGraph {
  import opened Options

  type Func = nat
  type Global = nat

  /** A value after its casts were stripped. fun is the function of that name, if there is one. */
  datatype Val =
    | NonConst(fun: Option<Func>)
    | Gep(inner: Val)
    | Const(fun: Option<Func>)
    | GlobalRef(global: Global, fun: Option<Func>)

  datatype Init =
    | NoInit
    | Pointer(val: Val)
    | Aggregate(elems: seq<Init>)
    | Scalar

  /** users are walked only for structs and arrays; a function pointer is not a relevant global. */
  datatype GlobalVar = GlobalVar(expands: bool, users: seq<Val>, init: Init, funPtr: bool)

  datatype Program = Program(funcs: set<Func>,
                             names: set<Global>,
                             globalOf: Global -> GlobalVar,
                             callees: Func -> seq<Func>,
                             callers: Func -> seq<Func>,
                             operands: Func -> seq<Val>)

  // ---- values

  function Core(v: Val): (c: Val)
    ensures !c.Gep?
  {
    if v.Gep? then Core(v.inner) else v
  }

  ghost predicate MentionsFun(v: Val, f: Func) {
    Core(v).fun == Some(f)
  }

  ghost predicate MentionsGlobal(p: Program, v: Val, g: Global) {
    Core(v).GlobalRef? && Core(v).global == g && !p.globalOf(g).funPtr
  }

  ghost predicate InInit(i: Init, v: Val) {
    match i
    case Pointer(w) => v == w
    case Aggregate(es) => exists k :: 0 <= k < |es| && InInit(es[k], v)
    case _ => false
  }

  /** The values a global leads to. */
  ghost predicate InGlobal(p: Program, g: Global, v: Val) {
    var d := p.globalOf(g);
    (d.expands && v in d.users) || InInit(d.init, v)
  }

  ghost predicate KnownVal(p: Program, v: Val) {
    && (Core(v).GlobalRef? ==> Core(v).global in p.names)
    && (Core(v).fun.Some? ==> Core(v).fun.value in p.funcs)
  }

  ghost predicate ValidProgram(p: Program) {
    && (forall g, v :: InGlobal(p, g, v) ==> KnownVal(p, v))
    && (forall f, v :: v in p.operands(f) ==> KnownVal(p, v))
    && (forall f, h :: h in p.callees(f) ==> h in p.funcs)
    && (forall f, h :: h in p.callers(f) ==> h in p.funcs)
  }

  // ---- the reference definition of what a function refers to

  ghost predicate LeadsTo(p: Program, g: Global, h: Global) {
    exists v :: InGlobal(p, g, v) && MentionsGlobal(p, v, h)
  }

  ghost predicate IsGlobalChain(p: Program, c: seq<Global>) {
    c != [] && forall i :: 0 < i < |c| ==> LeadsTo(p, c[i - 1], c[i])
  }

  /** Value v leads to global g through a chain of globals. */
  ghost predicate ReachesGlobal(p: Program, v: Val, g: Global) {
    exists c :: IsGlobalChain(p, c) && MentionsGlobal(p, v, c[0]) && c[|c| - 1] == g
  }

  /** Value v refers to function f, directly or through globals. */
  ghost predicate Refers(p: Program, v: Val, f: Func) {
    MentionsFun(v, f) || exists g, u :: ReachesGlobal(p, v, g) && InGlobal(p, g, u) && MentionsFun(u, f)
  }

  ghost predicate UsesGlobal(p: Program, f: Func, g: Global) {
    exists v :: v in p.operands(f) && ReachesGlobal(p, v, g)
  }

  /** From function f the analysis goes on to h: by a call, and in broad mode by a reference. */
  ghost predicate Calls(p: Program, broad: bool, f: Func, h: Func) {
    h in p.callees(f) || (broad && exists v :: v in p.operands(f) && Refers(p, v, h))
  }

  ghost predicate MovesOn(p: Program, broad: bool, blocked: set<Func>, f: Func, h: Func) {
    f !in blocked && Calls(p, broad, f, h)
  }

  ghost predicate IsWalk(p: Program, broad: bool, blocked: set<Func>, w: seq<Func>) {
    w != [] && forall i :: 0 < i < |w| ==> MovesOn(p, broad, blocked, w[i - 1], w[i])
  }

  /** n is reached from start in at most k steps through functions that are not blocked. */
  ghost predicate Within(p: Program, broad: bool, blocked: set<Func>, start: Func, n: Func, k: nat) {
    exists w :: IsWalk(p, broad, blocked, w) && w[0] == start && w[|w| - 1] == n && |w| <= k + 1
  }

  /** n belongs to the slice of start of the given depth. */
  ghost predicate InSlice(p: Program, broad: bool, blocked: set<Func>, start: Func, n: Func, depth: nat) {
    n !in blocked && Within(p, broad, blocked, start, n, depth)
  }

  // ---- facts about chains and walks

  lemma GlobalSelf(p: Program, v: Val, g: Global)
    requires MentionsGlobal(p, v, g)
    ensures ReachesGlobal(p, v, g)
  {
    assert IsGlobalChain(p, [g]) && [g][0] == g;
  }

  lemma GlobalStep(p: Program, v: Val, g: Global, u: Val, h: Global)
    requires MentionsGlobal(p, v, g) && InGlobal(p, g, u) && ReachesGlobal(p, u, h)
    ensures ReachesGlobal(p, v, h)
  {
    var c :| IsGlobalChain(p, c) && MentionsGlobal(p, u, c[0]) && c[|c| - 1] == h;
    var d := [g] + c;
    forall i | 0 < i < |d| ensures LeadsTo(p, d[i - 1], d[i]) {
      if i > 1 { assert d[i - 1] == c[i - 2] && d[i] == c[i - 1]; }
    }
    assert IsGlobalChain(p, d) && d[|d| - 1] == h;
  }

  lemma RefersStep(p: Program, v: Val, g: Global, u: Val, f: Func)
    requires MentionsGlobal(p, v, g) && InGlobal(p, g, u) && Refers(p, u, f)
    ensures Refers(p, v, f)
  {
    GlobalSelf(p, v, g);
    if !MentionsFun(u, f) {
      var h, x :| ReachesGlobal(p, u, h) && InGlobal(p, h, x) && MentionsFun(x, f);
      GlobalStep(p, v, g, u, h);
    }
  }

  lemma WithinStart(p: Program, broad: bool, blocked: set<Func>, start: Func, k: nat)
    ensures Within(p, broad, blocked, start, start, k)
  {
    assert IsWalk(p, broad, blocked, [start]) && [start][0] == start;
  }

  lemma WithinStep(p: Program, broad: bool, blocked: set<Func>, start: Func, f: Func, h: Func, k: nat)
    requires Within(p, broad, blocked, start, f, k) && f !in blocked && Calls(p, broad, f, h)
    ensures Within(p, broad, blocked, start, h, k + 1)
  {
    var w :| IsWalk(p, broad, blocked, w) && w[0] == start && w[|w| - 1] == f && |w| <= k + 1;
    var x := w + [h];
    forall i | 0 < i < |x| ensures MovesOn(p, broad, blocked, x[i - 1], x[i]) {
      if i < |w| { assert x[i - 1] == w[i - 1] && x[i] == w[i]; }
    }
    assert IsWalk(p, broad, blocked, x) && x[0] == start && x[|x| - 1] == h;
  }

  lemma WithinMore(p: Program, broad: bool, blocked: set<Func>, start: Func, n: Func, k: nat, l: nat)
    requires Within(p, broad, blocked, start, n, k) && k <= l
    ensures Within(p, broad, blocked, start, n, l)
  {
  }
}
