/** The pre-analysis of the initcalls: groups them, analyses group by group in the order of the levels,
    and leaves each variable to the lowest level that may define it. */
module InitcallFactory {
  import opened Initcalls

  /** The names through which the analysis within a group, given by its number, finds a variable to be used. */
  type Users = (nat, string) -> set<string>

  /** The levels of all initcalls and what the precise analysis of each finds. */
  datatype Findings = Findings(level: map<string, nat>, precise: string -> Initcall)
  {
    ghost predicate Found(n: string, v: string) {
      n in level && v in precise(n).nondefvars
    }

    ghost predicate FoundBySome(v: string) {
      exists n :: Found(n, v)
    }

    /** The analysis of n found variable v and that of no initcall of a lower level did. */
    ghost predicate Owns(n: string, v: string) {
      Found(n, v) && forall m :: m in level && level[m] < level[n] ==> !Found(m, v)
    }

    ghost function Final(n: string): Initcall
      requires n in level
    {
      precise(n).(name := n, level := level[n], nondefvars := set v | v in precise(n).nondefvars && Owns(n, v))
    }
  }

  // ---- ownership

  lemma {:induction false} LowestOwns(f: Findings, n: string, v: string) returns (m: string)
    requires f.Found(n, v)
    ensures f.Owns(m, v) && f.level[m] <= f.level[n]
    decreases f.level[n]
  {
    if l :| l in f.level && f.level[l] < f.level[n] && f.Found(l, v) {
      m := LowestOwns(f, l, v);
    } else {
      m := n;
    }
  }

  /** No variable is left to initcalls of two levels. */
  lemma LevelsAreDisjoint(f: Findings, n: string, m: string)
    requires n in f.level && m in f.level && f.level[n] != f.level[m]
    ensures f.Final(n).nondefvars !! f.Final(m).nondefvars
  {
  }

  /** Every variable found for some initcall is left to one. */
  lemma NothingIsLost(f: Findings, v: string)
    ensures f.FoundBySome(v) <==> exists n :: n in f.level && v in f.Final(n).nondefvars
  {
    if n :| f.Found(n, v) {
      var m := LowestOwns(f, n, v);
      assert v in f.Final(m).nondefvars;
    }
  }

  // ---- the state while the groups are handled

  ghost predicate Settled(f: Findings, g: Group, ics: InitcallMap) {
    Gathers(g, ics) && forall n :: n in g.initcalls ==> n in f.level && ics[n] == f.Final(n)
  }

  ghost predicate Arranged(f: Findings, gs: seq<Group>) {
    && Numbered(gs) && Partitions(gs, f.level.Keys) && ByLevel(gs)
    && forall i, n :: 0 <= i < |gs| && n in gs[i].initcalls ==> n in f.level && f.level[n] == gs[i].level
  }

  ghost predicate Levelled(f: Findings, ics: InitcallMap) {
    ics.Keys == f.level.Keys && forall n :: n in ics ==> ics[n].level == f.level[n]
  }

  /** The first k groups have been handled. */
  ghost predicate Progress(f: Findings, gs: seq<Group>, ics: InitcallMap, k: nat) {
    && k <= |gs| && Arranged(f, gs) && Levelled(f, ics)
    && forall i :: 0 <= i < k ==> Settled(f, gs[i], ics)
  }

  ghost predicate InLowerGroup(gs: seq<Group>, level: nat, v: string) {
    exists i :: 0 <= i < |gs| && gs[i].level < level && v in gs[i].nondefvars
  }

  /** What the handled groups of lower levels kept is what lower levels found at all: whatever one of
      them lost, a still lower one has. */
  lemma LowerGroupsHoldAll(f: Findings, gs: seq<Group>, ics: InitcallMap, k: nat, v: string)
    requires k < |gs| && Progress(f, gs, ics, k)
    ensures InLowerGroup(gs, gs[k].level, v) <==>
              exists m :: m in f.level && f.level[m] < gs[k].level && f.Found(m, v)
  {
    if i :| 0 <= i < |gs| && gs[i].level < gs[k].level && v in gs[i].nondefvars {
      assert i < k && Settled(f, gs[i], ics);
      var m :| m in gs[i].initcalls && v in ics[m].nondefvars;
      assert f.Found(m, v);
    }
    if l :| l in f.level && f.level[l] < gs[k].level && f.Found(l, v) {
      var i := OwnerIsHandled(f, gs, ics, k, v, l);
    }
  }

  lemma OwnerIsHandled(f: Findings, gs: seq<Group>, ics: InitcallMap, k: nat, v: string, l: string) returns (i: nat)
    requires k < |gs| && Progress(f, gs, ics, k) && f.Found(l, v) && f.level[l] < gs[k].level
    ensures i < k && gs[i].level < gs[k].level && v in gs[i].nondefvars
  {
    var m := LowestOwns(f, l, v);
    i := GroupOf(f, gs, m);
    assert gs[i].level < gs[k].level && i < k;
    assert Settled(f, gs[i], ics) && v in ics[m].nondefvars;
  }

  ghost predicate Filtered(f: Findings, gs: seq<Group>, k: nat, d: InitcallMap)
    requires k < |gs|
  {
    && d.Keys == gs[k].initcalls
    && forall n :: n in d ==> n in f.level && d[n] == f.precise(n).(name := n, level := f.level[n],
         nondefvars := set v | v in f.precise(n).nondefvars && !InLowerGroup(gs, f.level[n], v))
  }

  lemma FilteredIsFinal(f: Findings, gs: seq<Group>, ics: InitcallMap, k: nat, d: InitcallMap)
    requires k < |gs| && Progress(f, gs, ics, k) && Filtered(f, gs, k, d)
    ensures forall n :: n in d ==> d[n] == f.Final(n)
  {
    forall n | n in d ensures d[n] == f.Final(n) {
      forall v | v in f.precise(n).nondefvars ensures !InLowerGroup(gs, f.level[n], v) <==> f.Owns(n, v) {
        LowerGroupsHoldAll(f, gs, ics, k, v);
      }
      assert d[n].nondefvars == f.Final(n).nondefvars;
    }
  }

  /** The assignment does nothing between initcalls that differ at most in their levels. */
  function Assigned(ics: InitcallMap, name: string, ic: Initcall): Initcall {
    if name in ics && ics[name].(level := ic.level) == ic then ics[name] else ic
  }

  function Replaced(ics: InitcallMap, d: InitcallMap): InitcallMap {
    map n | n in ics.Keys + d.Keys :: if n in d then Assigned(ics, n, d[n]) else ics[n]
  }

  /** Where no initcall changes its level, the new ones replace the old ones. */
  lemma ReplacedKeepsLevels(ics: InitcallMap, d: InitcallMap)
    requires forall n :: n in ics && n in d ==> ics[n].level == d[n].level
    ensures Replaced(ics, d) == ics + d
  {
    forall n | n in d && n in ics ensures Assigned(ics, n, d[n]) == d[n] {
      if ics[n].(level := d[n].level) == d[n] {
        assert ics[n] == ics[n].(level := d[n].level);
      }
    }
  }

  /** Handling group k replaces its initcalls and gathers the group anew. */
  lemma HandledOneMore(f: Findings, gs: seq<Group>, ics: InitcallMap, k: nat, d: InitcallMap, g: Group)
    requires k < |gs| && Progress(f, gs, ics, k) && Filtered(f, gs, k, d)
    requires g.id == gs[k].id && g.level == gs[k].level && g.initcalls == gs[k].initcalls && Gathers(g, ics + d)
    ensures Progress(f, gs[k := g], ics + d, k + 1)
  {
    RearrangedSame(f, gs, k, g);
    NewIsSettled(f, gs, ics, k, d, g);
    var r := gs[k := g];
    forall i | 0 <= i < k + 1 ensures Settled(f, r[i], ics + d) {
      if i < k {
        OthersUntouched(f, gs, ics, k, d, i);
      }
    }
  }

  lemma NewIsSettled(f: Findings, gs: seq<Group>, ics: InitcallMap, k: nat, d: InitcallMap, g: Group)
    requires k < |gs| && Progress(f, gs, ics, k) && Filtered(f, gs, k, d)
    requires g.initcalls == gs[k].initcalls && Gathers(g, ics + d)
    ensures Settled(f, g, ics + d) && Levelled(f, ics + d)
  {
    FilteredIsFinal(f, gs, ics, k, d);
  }

  lemma OthersUntouched(f: Findings, gs: seq<Group>, ics: InitcallMap, k: nat, d: InitcallMap, i: nat)
    requires i < k < |gs| && Progress(f, gs, ics, k) && d.Keys == gs[k].initcalls
    ensures Settled(f, gs[i], ics + d)
  {
    assert gs[i] in gs && gs[k] in gs && gs[i].id != gs[k].id;
    assert forall n :: n in gs[i].initcalls ==> n !in d && (ics + d)[n] == ics[n];
  }

  lemma RearrangedSame(f: Findings, gs: seq<Group>, k: nat, g: Group)
    requires k < |gs| && Arranged(f, gs)
    requires g.id == gs[k].id && g.level == gs[k].level && g.initcalls == gs[k].initcalls
    ensures Arranged(f, gs[k := g])
  {
    var r := gs[k := g];
    forall n | n in f.level ensures exists h :: h in r && n in h.initcalls {
      var h :| h in gs && n in h.initcalls;
      var i :| 0 <= i < |gs| && gs[i] == h;
      assert r[i] in r && n in r[i].initcalls;
    }
    forall h, n | h in r && n in h.initcalls ensures n in f.level {
      var i :| 0 <= i < |r| && r[i] == h;
    }
    forall a, b, n | a in r && b in r && n in a.initcalls && n in b.initcalls ensures a == b {
      var i :| 0 <= i < |r| && r[i] == a;
      var j :| 0 <= j < |r| && r[j] == b;
      assert gs[i] in gs && gs[j] in gs && n in gs[i].initcalls && n in gs[j].initcalls;
      assert gs[i].id == gs[j].id;
    }
  }

  // ---- the maps of users

  /** The entries of both maps, united. */
  function Merged(m: UserMap, d: UserMap): UserMap {
    map v | v in m.Keys + d.Keys :: Get(m, v) + Get(d, v)
  }

  lemma MergedMore(m: UserMap, d: UserMap, rest: set<string>, v: string)
    requires v in rest && rest <= d.Keys
    ensures Merged(m, d - (rest - {v})) == Merged(m, d - rest)[v := Get(Merged(m, d - rest), v) + d[v]]
  {
    var a, b := Merged(m, d - (rest - {v})), Merged(m, d - rest)[v := Get(Merged(m, d - rest), v) + d[v]];
    assert a.Keys == b.Keys;
    forall x | x in a ensures a[x] == b[x] {
      assert Get(m, x) + {} == Get(m, x);
    }
  }

  lemma MergedNothing(m: UserMap)
    ensures Merged(m, map[]) == m
  {
    forall x | x in m ensures Merged(m, map[])[x] == m[x] {
      assert m[x] + {} == m[x];
    }
  }

  /** The map lists the variables of the first k groups, each with what the analyses within those of the groups
      that list it found. */
  ghost predicate Collected(gs: seq<Group>, k: nat, users: Users, m: UserMap)
    requires k <= |gs|
  {
    && (forall v :: v in m <==> exists i :: 0 <= i < k && v in gs[i].nondefvars)
    && (forall v, x :: v in m ==>
         (x in m[v] <==> exists i :: 0 <= i < k && v in gs[i].nondefvars && x in users(gs[i].id, v)))
  }

  lemma CollectedMore(gs: seq<Group>, k: nat, g: Group, users: Users, m: UserMap)
    requires k < |gs| && Collected(gs, k, users, m)
    ensures Collected(gs[k := g], k + 1, users, Merged(m, map v | v in g.nondefvars :: users(g.id, v)))
  {
    var r := gs[k := g];
    var n := Merged(m, map v | v in g.nondefvars :: users(g.id, v));
    assert r[k] == g && forall i :: 0 <= i < k ==> r[i] == gs[i];
    forall v ensures v in n <==> exists i :: 0 <= i < k + 1 && v in r[i].nondefvars {
      if v in m {
        var i :| 0 <= i < k && v in gs[i].nondefvars;
        assert v in r[i].nondefvars;
      }
    }
    forall v, x | v in n
      ensures x in n[v] <==> exists i :: 0 <= i < k + 1 && v in r[i].nondefvars && x in users(r[i].id, v)
    {
      if v in m && x in m[v] {
        var i :| 0 <= i < k && v in gs[i].nondefvars && x in users(gs[i].id, v);
        assert v in r[i].nondefvars && x in users(r[i].id, v);
      }
    }
  }

  // ---- the factory

  class InitcallFactory {
    var initcalls: InitcallMap
    var initcallGroups: seq<Group>
    var nonDefVarFuncs: UserMap
    var nonDefVarGVs: UserMap

    constructor (initcalls: InitcallMap)
      ensures this.initcalls == initcalls && initcallGroups == []
      ensures nonDefVarFuncs == map[] && nonDefVarGVs == map[]
    {
      this.initcalls, initcallGroups, nonDefVarFuncs, nonDefVarGVs := initcalls, [], map[], map[];
    }

    /** The position of the first group of the level with room, which is a new one if there is none. */
    method GetNextFreeInitcallGroup(level: nat, funcs: set<string>) returns (i: nat)
      modifies `initcallGroups
      ensures FirstFit(old(initcallGroups), level, funcs, i)
      ensures i < |initcallGroups|
      ensures initcallGroups ==
                if i < |old(initcallGroups)| then old(initcallGroups)
                else old(initcallGroups) + [Group(i, level, {}, {}, {}, {})]
    {
      i := 0;
      while i < |initcallGroups|
        invariant i <= |initcallGroups|
        invariant forall j :: 0 <= j < i ==> !Fits(initcallGroups[j], level, funcs)
      {
        var group := initcallGroups[i];
        if group.level == level && |group.functions| + (|funcs| - |group.functions * funcs|) <= FUNC_LIMIT {
          return;
        }
        i := i + 1;
      }
      initcallGroups := initcallGroups + [Group(|initcallGroups|, level, {}, {}, {}, {})];
    }

    /** Adds one more initcall to the group it fits into; names are those already in a group. */
    method JoinGroup(ics: InitcallMap, ghost names: set<string>, name: string)
      requires name in ics && name !in names
      requires Positioned(initcallGroups) && Grouped(initcallGroups, ics, names)
      modifies `initcallGroups
      ensures Positioned(initcallGroups) && Grouped(initcallGroups, ics, names + {name})
    {
      ghost var gs := initcallGroups;
      var i := GetNextFreeInitcallGroup(ics[name].level, ics[name].functions);
      JoinIsUpdate(gs, ics[name], name, i);
      initcallGroups := initcallGroups[i := With(initcallGroups[i], ics[name], name)];
      JoinKeepsGrouping(gs, ics, names, name, i);
    }

    method GroupInitcallsByLevel(ics: InitcallMap)
      requires initcallGroups == []
      modifies `initcallGroups
      ensures Grouped(initcallGroups, ics, ics.Keys) && ByLevel(initcallGroups) && ByLevelAndAge(initcallGroups)
    {
      var rest := ics.Keys;
      while rest != {}
        invariant rest <= ics.Keys && Positioned(initcallGroups)
        invariant Grouped(initcallGroups, ics, ics.Keys - rest)
      {
        var name :| name in rest;
        JoinGroup(ics, ics.Keys - rest, name);
        assert ics.Keys - (rest - {name}) == ics.Keys - rest + {name};
        rest := rest - {name};
      }
      assert ics.Keys - rest == ics.Keys;
      SortKeepsGrouping(initcallGroups, ics, ics.Keys);
      SortIsStable(initcallGroups);
      initcallGroups := SortedByLevel(initcallGroups);
    }

    /** Takes from an initcall's variables those that groups of lower levels define. */
    method FilterNonDefVars(nonDefVars: set<string>, level: nat) returns (left: set<string>)
      ensures forall v :: v in left <==> v in nonDefVars && !InLowerGroup(initcallGroups, level, v)
    {
      left := nonDefVars;
      for i := 0 to |initcallGroups|
        invariant forall v :: v in left <==>
                    && v in nonDefVars
                    && forall j :: 0 <= j < i && initcallGroups[j].level < level ==> v !in initcallGroups[j].nondefvars
      {
        if initcallGroups[i].level < level {
          left := left - initcallGroups[i].nondefvars;
        }
      }
    }

    /** Analyses the initcalls of group k precisely and filters their variables. */
    method AnalyzeGroup(f: Findings, k: nat) returns (d: InitcallMap)
      requires k < |initcallGroups| && Progress(f, initcallGroups, initcalls, k)
      ensures Filtered(f, initcallGroups, k, d)
    {
      d := map[];
      var rest := initcallGroups[k].initcalls;
      while rest != {}
        invariant rest <= initcallGroups[k].initcalls && d.Keys == initcallGroups[k].initcalls - rest
        invariant forall n :: n in d ==> n in f.level && d[n] == f.precise(n).(name := n, level := f.level[n],
                    nondefvars := set v | v in f.precise(n).nondefvars && !InLowerGroup(initcallGroups, f.level[n], v))
      {
        var n :| n in rest;
        rest := rest - {n};
        assert n in f.level && n in initcalls;
        var level := initcalls[n].level;
        var found := f.precise(n);
        var left := FilterNonDefVars(found.nondefvars, level);
        assert left == set v | v in found.nondefvars && !InLowerGroup(initcallGroups, level, v);
        d := d[n := found.(name := n, level := level, nondefvars := left)];
      }
    }

    method UpdateInitcallGroup(k: nat)
      requires k < |initcallGroups| && initcallGroups[k].initcalls <= initcalls.Keys
      modifies `initcallGroups
      ensures |initcallGroups| == |old(initcallGroups)| && Gathers(initcallGroups[k], initcalls)
      ensures initcallGroups == old(initcallGroups)[k := initcallGroups[k]]
      ensures initcallGroups[k].id == old(initcallGroups[k].id)
      ensures initcallGroups[k].level == old(initcallGroups[k].level)
      ensures initcallGroups[k].initcalls == old(initcallGroups[k].initcalls)
    {
      var group := initcallGroups[k];
      var g := Group(group.id, group.level, {}, {}, {}, {});
      var rest := group.initcalls;
      while rest != {}
        invariant rest <= group.initcalls && g.initcalls == group.initcalls - rest && Gathers(g, initcalls)
        invariant g.id == group.id && g.level == group.level && initcallGroups == old(initcallGroups)
      {
        var n :| n in rest;
        rest := rest - {n};
        GathersMore(g, initcalls, n);
        g := With(g, initcalls[n], n);
      }
      assert g.initcalls == group.initcalls;
      initcallGroups := initcallGroups[k := g];
    }

    method ReplaceInitcalls(d: InitcallMap)
      modifies `initcalls
      ensures initcalls == Replaced(old(initcalls), d)
    {
      var left := d.Keys;
      while left != {}
        invariant left <= d.Keys && initcalls.Keys == old(initcalls).Keys + (d.Keys - left)
        invariant forall n :: n in initcalls ==>
                    initcalls[n] == if n in d.Keys - left then Assigned(old(initcalls), n, d[n]) else old(initcalls)[n]
      {
        var name :| name in left;
        left := left - {name};
        initcalls := initcalls[name := Assigned(initcalls, name, d[name])];
      }
    }

    /** Looks up the users of each variable of a group. */
    method FindFunctionsToPtr(id: nat, vars: set<string>, funcsOf: Users, gvsOf: Users)
      modifies `nonDefVarFuncs, `nonDefVarGVs
      ensures nonDefVarFuncs == Merged(old(nonDefVarFuncs), map v | v in vars :: funcsOf(id, v))
      ensures nonDefVarGVs == Merged(old(nonDefVarGVs), map v | v in vars :: gvsOf(id, v))
    {
      MergeNonDefVarFunctions(map v | v in vars :: funcsOf(id, v), map v | v in vars :: gvsOf(id, v));
    }

    method MergeNonDefVarFunctions(funcs: UserMap, gvs: UserMap)
      modifies `nonDefVarFuncs, `nonDefVarGVs
      ensures nonDefVarFuncs == Merged(old(nonDefVarFuncs), funcs)
      ensures nonDefVarGVs == Merged(old(nonDefVarGVs), gvs)
    {
      nonDefVarFuncs := MergeInto(nonDefVarFuncs, funcs);
      nonDefVarGVs := MergeInto(nonDefVarGVs, gvs);
    }

    static method MergeInto(m: UserMap, d: UserMap) returns (r: UserMap)
      ensures r == Merged(m, d)
    {
      r := m;
      var rest := d.Keys;
      MergedNothing(m);
      assert d - rest == map[];
      while rest != {}
        invariant rest <= d.Keys && r == Merged(m, d - rest)
      {
        var v :| v in rest;
        MergedMore(m, d, rest, v);
        rest := rest - {v};
        r := r[v := Get(r, v) + d[v]];
      }
    }

    /** Replaces the initcalls of group k by what their precise analysis finds. */
    method RefineGroup(f: Findings, k: nat)
      requires k < |initcallGroups| && Progress(f, initcallGroups, initcalls, k)
      modifies `initcalls, `initcallGroups
      ensures |initcallGroups| == |old(initcallGroups)| && Progress(f, initcallGroups, initcalls, k + 1)
      ensures initcallGroups == old(initcallGroups)[k := initcallGroups[k]]
    {
      ghost var gs, ics := initcallGroups, initcalls;
      var d := AnalyzeGroup(f, k);
      ReplaceInitcalls(d);
      ReplacedKeepsLevels(ics, d);
      UpdateInitcallGroup(k);
      HandledOneMore(f, gs, ics, k, d, initcallGroups[k]);
    }

    method HandleInitcallGroup(f: Findings, funcsOf: Users, gvsOf: Users, k: nat)
      requires k < |initcallGroups| && Progress(f, initcallGroups, initcalls, k)
      requires Collected(initcallGroups, k, funcsOf, nonDefVarFuncs) && Collected(initcallGroups, k, gvsOf, nonDefVarGVs)
      modifies this
      ensures |initcallGroups| == |old(initcallGroups)| && Progress(f, initcallGroups, initcalls, k + 1)
      ensures Collected(initcallGroups, k + 1, funcsOf, nonDefVarFuncs)
      ensures Collected(initcallGroups, k + 1, gvsOf, nonDefVarGVs)
    {
      ghost var gs, funcs, gvs := initcallGroups, nonDefVarFuncs, nonDefVarGVs;
      RefineGroup(f, k);
      var group := initcallGroups[k];
      CollectedMore(gs, k, group, funcsOf, funcs);
      CollectedMore(gs, k, group, gvsOf, gvs);
      FindFunctionsToPtr(group.id, group.nondefvars, funcsOf, gvsOf);
    }

    /** coarse: what the first analysis found for every initcall; funcsOf and gvsOf: through which functions and
        globals the analysis within a group finds a variable to be used. */
    method PreAnalysis(coarse: InitcallMap, f: Findings, funcsOf: Users, gvsOf: Users)
      requires initcallGroups == [] && nonDefVarFuncs == map[] && nonDefVarGVs == map[]
      requires Levelled(f, initcalls) && Levelled(f, coarse)
      modifies this
      ensures initcalls.Keys == f.level.Keys && forall n :: n in initcalls ==> initcalls[n] == f.Final(n)
      ensures nonDefVarFuncs.Keys == nonDefVarGVs.Keys
      ensures forall v :: v in nonDefVarFuncs <==> f.FoundBySome(v)
      ensures Progress(f, initcallGroups, initcalls, |initcallGroups|)
      ensures Collected(initcallGroups, |initcallGroups|, funcsOf, nonDefVarFuncs)
      ensures Collected(initcallGroups, |initcallGroups|, gvsOf, nonDefVarGVs)
    {
      GroupInitcallsByLevel(coarse);
      StartsArranged(f, initcallGroups, coarse, initcalls);
      var n := |initcallGroups|;
      for k := 0 to n
        invariant |initcallGroups| == n && Progress(f, initcallGroups, initcalls, k)
        invariant Collected(initcallGroups, k, funcsOf, nonDefVarFuncs) && Collected(initcallGroups, k, gvsOf, nonDefVarGVs)
      {
        HandleInitcallGroup(f, funcsOf, gvsOf, k);
      }
      AllHandled(f, initcallGroups, initcalls, funcsOf, nonDefVarFuncs, gvsOf, nonDefVarGVs);
    }
  }

  lemma StartsArranged(f: Findings, gs: seq<Group>, coarse: InitcallMap, ics: InitcallMap)
    requires Grouped(gs, coarse, coarse.Keys) && ByLevel(gs) && Levelled(f, coarse) && Levelled(f, ics)
    ensures Progress(f, gs, ics, 0) && forall users :: Collected(gs, 0, users, map[])
  {
    GroupedIsArranged(f, gs, coarse);
  }

  lemma GroupedIsArranged(f: Findings, gs: seq<Group>, ics: InitcallMap)
    requires Grouped(gs, ics, ics.Keys) && ByLevel(gs) && Levelled(f, ics)
    ensures Arranged(f, gs)
  {
  }

  lemma GroupOf(f: Findings, gs: seq<Group>, n: string) returns (i: nat)
    requires Arranged(f, gs) && n in f.level
    ensures i < |gs| && n in gs[i].initcalls
  {
    var g :| g in gs && n in g.initcalls;
    i :| 0 <= i < |gs| && gs[i] == g;
  }

  lemma AllFinal(f: Findings, gs: seq<Group>, ics: InitcallMap)
    requires Progress(f, gs, ics, |gs|)
    ensures forall n :: n in ics ==> n in f.level && ics[n] == f.Final(n)
  {
    forall n | n in ics ensures ics[n] == f.Final(n) {
      var i := GroupOf(f, gs, n);
      assert Settled(f, gs[i], ics);
    }
  }

  lemma AllListed(f: Findings, gs: seq<Group>, ics: InitcallMap, users: Users, m: UserMap)
    requires Progress(f, gs, ics, |gs|) && Collected(gs, |gs|, users, m)
    ensures forall v :: v in m <==> f.FoundBySome(v)
  {
    forall v ensures v in m <==> f.FoundBySome(v) {
      VariablesOfGroups(f, gs, ics, v);
    }
  }

  lemma AllHandled(f: Findings, gs: seq<Group>, ics: InitcallMap, funcsOf: Users, funcs: UserMap,
                   gvsOf: Users, gvs: UserMap)
    requires Progress(f, gs, ics, |gs|) && Collected(gs, |gs|, funcsOf, funcs) && Collected(gs, |gs|, gvsOf, gvs)
    ensures ics.Keys == f.level.Keys && forall n :: n in ics ==> ics[n] == f.Final(n)
    ensures funcs.Keys == gvs.Keys && forall v :: v in funcs <==> f.FoundBySome(v)
  {
    AllFinal(f, gs, ics);
    AllListed(f, gs, ics, funcsOf, funcs);
    AllListed(f, gs, ics, gvsOf, gvs);
  }

  lemma VariablesOfGroups(f: Findings, gs: seq<Group>, ics: InitcallMap, v: string)
    requires Progress(f, gs, ics, |gs|)
    ensures (exists i :: 0 <= i < |gs| && v in gs[i].nondefvars) <==> f.FoundBySome(v)
  {
    NothingIsLost(f, v);
    if n :| n in f.level && v in f.Final(n).nondefvars {
      var i := GroupOf(f, gs, n);
      assert Settled(f, gs[i], ics) && v in ics[n].nondefvars;
    }
    if i :| 0 <= i < |gs| && v in gs[i].nondefvars {
      assert Settled(f, gs[i], ics);
      var n :| n in gs[i].initcalls && v in ics[n].nondefvars;
      assert f.Found(n, v);
    }
  }
}
