/** The initcalls with what each of them uses, and their distribution into groups of one level. */
module Initcalls {
  import opened SetFacts

  datatype Initcall = Initcall(name: string, level: nat, functions: set<string>, globalvars: set<string>,
                               nondefvars: set<string>, maxCGDepth: nat)

  datatype Group = Group(id: nat, level: nat, initcalls: set<string>, functions: set<string>,
                         globalvars: set<string>, nondefvars: set<string>)

  type InitcallMap = map<string, Initcall>

  /** The functions, or the globals, through which a variable is used. */
  type UserMap = map<string, set<string>>

  const FUNC_LIMIT: nat := 20000

  function Get(m: UserMap, v: string): set<string> {
    if v in m then m[v] else {}
  }

  // ---- groups

  /** A group holds exactly what its initcalls use. */
  ghost predicate Gathers(g: Group, ics: InitcallMap) {
    && g.initcalls <= ics.Keys
    && (forall f :: f in g.functions <==> exists n :: n in g.initcalls && f in ics[n].functions)
    && (forall v :: v in g.globalvars <==> exists n :: n in g.initcalls && v in ics[n].globalvars)
    && (forall v :: v in g.nondefvars <==> exists n :: n in g.initcalls && v in ics[n].nondefvars)
  }

  ghost predicate OfOneLevel(g: Group, ics: InitcallMap) {
    g.initcalls <= ics.Keys && forall n :: n in g.initcalls ==> ics[n].level == g.level
  }

  ghost predicate Numbered(gs: seq<Group>) {
    forall i, j :: 0 <= i < j < |gs| ==> gs[i].id != gs[j].id
  }

  /** Each of the given names is in exactly one group. */
  ghost predicate Partitions(gs: seq<Group>, names: set<string>) {
    && (forall n :: n in names <==> exists g :: g in gs && n in g.initcalls)
    && (forall g, h, n :: g in gs && h in gs && n in g.initcalls && n in h.initcalls ==> g == h)
  }

  /** A group stays below the limit unless it consists of one initcall. */
  ghost predicate Limited(g: Group) {
    |g.functions| <= FUNC_LIMIT || |g.initcalls| == 1
  }

  /** Two groups of a level could not have been one. */
  ghost predicate Apart(g: Group, h: Group) {
    g.level == h.level ==> |g.functions + h.functions| > FUNC_LIMIT
  }

  ghost predicate Packed(gs: seq<Group>) {
    && (forall i :: 0 <= i < |gs| ==> Limited(gs[i]))
    && (forall i, j :: 0 <= i < j < |gs| ==> Apart(gs[i], gs[j]))
  }

  ghost predicate Filled(gs: seq<Group>, ics: InitcallMap) {
    forall g :: g in gs ==> g.initcalls != {} && OfOneLevel(g, ics) && Gathers(g, ics)
  }

  ghost predicate Grouped(gs: seq<Group>, ics: InitcallMap, names: set<string>) {
    Numbered(gs) && Partitions(gs, names) && Packed(gs) && Filled(gs, ics)
  }

  predicate Fits(g: Group, level: nat, funcs: set<string>) {
    g.level == level && |g.functions| + (|funcs| - |g.functions * funcs|) <= FUNC_LIMIT
  }

  function With(g: Group, ic: Initcall, name: string): Group {
    Group(g.id, g.level, g.initcalls + {name}, g.functions + ic.functions, g.globalvars + ic.globalvars,
          g.nondefvars + ic.nondefvars)
  }

  lemma GathersMore(g: Group, ics: InitcallMap, name: string)
    requires name in ics && Gathers(g, ics)
    ensures Gathers(With(g, ics[name], name), ics)
  {
  }

  // ---- sorting by level

  ghost predicate ByLevel(gs: seq<Group>) {
    forall i, j :: 0 <= i <= j < |gs| ==> gs[i].level <= gs[j].level
  }

  /** Puts a group behind those of its own and of lower levels. */
  function Put(gs: seq<Group>, g: Group): seq<Group> {
    if gs == [] || gs[|gs| - 1].level <= g.level then gs + [g]
    else Put(gs[..|gs| - 1], g) + [gs[|gs| - 1]]
  }

  function SortedByLevel(gs: seq<Group>): seq<Group> {
    if gs == [] then [] else Put(SortedByLevel(gs[..|gs| - 1]), gs[|gs| - 1])
  }

  /** The list r is gs with group g added, sorted and numbered as gs is. */
  ghost predicate Extended(gs: seq<Group>, g: Group, r: seq<Group>) {
    ByLevel(r) && Numbered(r) && |r| == |gs| + 1 && forall h :: h in r <==> h in gs || h == g
  }

  ghost predicate IsNew(gs: seq<Group>, g: Group) {
    forall h :: h in gs ==> h.id != g.id
  }

  lemma AppendExtends(gs: seq<Group>, g: Group)
    requires ByLevel(gs) && Numbered(gs) && IsNew(gs, g) && forall h :: h in gs ==> h.level <= g.level
    ensures Extended(gs, g, gs + [g])
  {
  }

  lemma LastIsNew(gs: seq<Group>)
    requires Numbered(gs) && gs != []
    ensures Numbered(gs[..|gs| - 1]) && IsNew(gs[..|gs| - 1], gs[|gs| - 1])
    ensures forall h :: h in gs <==> h in gs[..|gs| - 1] || h == gs[|gs| - 1]
  {
  }

  lemma {:induction false} PutSorts(gs: seq<Group>, g: Group)
    requires ByLevel(gs) && Numbered(gs) && IsNew(gs, g)
    ensures Extended(gs, g, Put(gs, g))
  {
    if gs == [] || gs[|gs| - 1].level <= g.level {
      AppendExtends(gs, g);
    } else {
      var front, last := gs[..|gs| - 1], gs[|gs| - 1];
      LastIsNew(gs);
      PutSorts(front, g);
      forall h | h in front ensures h.level <= last.level {
        var i :| 0 <= i < |front| && gs[i] == h;
      }
      AppendExtends(Put(front, g), last);
    }
  }

  lemma {:induction false} SortKeepsGroups(gs: seq<Group>)
    requires Numbered(gs)
    ensures ByLevel(SortedByLevel(gs)) && Numbered(SortedByLevel(gs)) && |SortedByLevel(gs)| == |gs|
    ensures forall g :: g in SortedByLevel(gs) <==> g in gs
  {
    if gs != [] {
      LastIsNew(gs);
      SortKeepsGroups(gs[..|gs| - 1]);
      PutSorts(SortedByLevel(gs[..|gs| - 1]), gs[|gs| - 1]);
    }
  }

  lemma SortKeepsGrouping(gs: seq<Group>, ics: InitcallMap, names: set<string>)
    requires Grouped(gs, ics, names)
    ensures Grouped(SortedByLevel(gs), ics, names) && ByLevel(SortedByLevel(gs))
  {
    var r := SortedByLevel(gs);
    SortKeepsGroups(gs);
    SamePartition(gs, r, names);
    SamePacking(gs, r);
  }

  /** By level, and within a level in the order in which the groups were made. */
  ghost predicate ByLevelAndAge(gs: seq<Group>) {
    forall i, j :: 0 <= i < j < |gs| ==> InFrontOf(gs[i], gs[j])
  }

  ghost predicate InFrontOf(g: Group, h: Group) {
    g.level < h.level || (g.level == h.level && g.id < h.id)
  }

  lemma AppendByAge(gs: seq<Group>, g: Group)
    requires ByLevelAndAge(gs) && forall h :: h in gs ==> InFrontOf(h, g)
    ensures ByLevelAndAge(gs + [g])
  {
  }

  lemma {:induction false} PutByAge(gs: seq<Group>, g: Group)
    requires ByLevelAndAge(gs) && forall h :: h in gs ==> h.id < g.id
    ensures ByLevelAndAge(Put(gs, g)) && forall h :: h in Put(gs, g) <==> h in gs || h == g
  {
    if gs == [] || gs[|gs| - 1].level <= g.level {
      forall h | h in gs ensures InFrontOf(h, g) {
        var i :| 0 <= i < |gs| && gs[i] == h;
        assert i < |gs| - 1 ==> gs[i].level <= gs[|gs| - 1].level;
      }
      AppendByAge(gs, g);
    } else {
      var front, last := gs[..|gs| - 1], gs[|gs| - 1];
      assert gs == front + [last];
      PutByAge(front, g);
      forall h | h in front ensures InFrontOf(h, last) {
        var i :| 0 <= i < |front| && front[i] == h;
      }
      AppendByAge(Put(front, g), last);
    }
  }

  /** The sort is stable. */
  lemma {:induction false} SortIsStable(gs: seq<Group>)
    requires Positioned(gs)
    ensures ByLevelAndAge(SortedByLevel(gs)) && forall g :: g in SortedByLevel(gs) <==> g in gs
  {
    if gs != [] {
      var front, last := gs[..|gs| - 1], gs[|gs| - 1];
      SortIsStable(front);
      assert gs == front + [last];
      PutByAge(SortedByLevel(front), last);
    }
  }

  lemma SamePartition(gs: seq<Group>, r: seq<Group>, names: set<string>)
    requires Partitions(gs, names) && forall g :: g in r <==> g in gs
    ensures Partitions(r, names)
  {
  }

  lemma SamePacking(gs: seq<Group>, r: seq<Group>)
    requires Packed(gs) && Numbered(r) && forall g :: g in r <==> g in gs
    ensures Packed(r)
  {
    forall i | 0 <= i < |r| ensures Limited(r[i]) {
      assert r[i] in gs;
    }
    forall i, j | 0 <= i < j < |r| ensures Apart(r[i], r[j]) {
      assert r[i] in gs && r[j] in gs;
      var k :| 0 <= k < |gs| && gs[k] == r[i];
      var l :| 0 <= l < |gs| && gs[l] == r[j];
      assert k < l || l < k;
      assert r[i].functions + r[j].functions == r[j].functions + r[i].functions;
    }
  }

  // ---- first fit

  /** The first n groups' ids are their positions, so that a new group gets a new one. */
  ghost predicate Positioned(gs: seq<Group>) {
    forall i :: 0 <= i < |gs| ==> gs[i].id == i
  }

  ghost predicate FirstFit(gs: seq<Group>, level: nat, funcs: set<string>, i: nat) {
    i <= |gs| && (i < |gs| ==> Fits(gs[i], level, funcs)) && forall j :: 0 <= j < i ==> !Fits(gs[j], level, funcs)
  }

  function Joined(gs: seq<Group>, ic: Initcall, name: string, i: nat): seq<Group>
    requires i <= |gs|
  {
    if i < |gs| then gs[i := With(gs[i], ic, name)]
    else gs + [With(Group(|gs|, ic.level, {}, {}, {}, {}), ic, name)]
  }

  lemma JoinIsUpdate(gs: seq<Group>, ic: Initcall, name: string, i: nat)
    requires i <= |gs|
    ensures var r := if i < |gs| then gs else gs + [Group(i, ic.level, {}, {}, {}, {})];
            r[i := With(r[i], ic, name)] == Joined(gs, ic, name, i)
  {
  }

  /** First fit puts one more initcall into a group and keeps the groups as they should be. */
  lemma JoinKeepsGrouping(gs: seq<Group>, ics: InitcallMap, names: set<string>, name: string, i: nat)
    requires Positioned(gs) && Grouped(gs, ics, names) && name in ics && name !in names
    requires FirstFit(gs, ics[name].level, ics[name].functions, i)
    ensures Positioned(Joined(gs, ics[name], name, i)) && Grouped(Joined(gs, ics[name], name, i), ics, names + {name})
  {
    var r := Joined(gs, ics[name], name, i);
    JoinPositions(gs, ics[name], name, i);
    JoinPartitions(gs, ics, names, name, i);
    JoinPacks(gs, ics[name], name, i);
    JoinFills(gs, ics, name, i);
  }

  lemma JoinFills(gs: seq<Group>, ics: InitcallMap, name: string, i: nat)
    requires Filled(gs, ics) && name in ics && FirstFit(gs, ics[name].level, ics[name].functions, i)
    ensures Filled(Joined(gs, ics[name], name, i), ics)
  {
  }

  lemma JoinPartitions(gs: seq<Group>, ics: InitcallMap, names: set<string>, name: string, i: nat)
    requires Positioned(gs) && Partitions(gs, names) && name in ics && name !in names && i <= |gs|
    ensures Partitions(Joined(gs, ics[name], name, i), names + {name})
  {
  }

  lemma JoinLimits(gs: seq<Group>, ic: Initcall, name: string, i: nat, k: nat)
    requires Packed(gs) && FirstFit(gs, ic.level, ic.functions, i) && k < |Joined(gs, ic, name, i)|
    ensures Limited(Joined(gs, ic, name, i)[k])
  {
  }

  lemma JoinPacks(gs: seq<Group>, ic: Initcall, name: string, i: nat)
    requires Packed(gs) && FirstFit(gs, ic.level, ic.functions, i)
    ensures Packed(Joined(gs, ic, name, i))
  {
    var r := Joined(gs, ic, name, i);
    forall k | 0 <= k < |r| ensures Limited(r[k]) {
      JoinLimits(gs, ic, name, i, k);
    }
    forall k, l | 0 <= k < l < |r| ensures Apart(r[k], r[l]) {
      PairStaysApart(gs, ic, name, i, k, l);
    }
  }

  lemma PairStaysApart(gs: seq<Group>, ic: Initcall, name: string, i: nat, k: nat, l: nat)
    requires Packed(gs) && FirstFit(gs, ic.level, ic.functions, i)
    requires k < l < |Joined(gs, ic, name, i)|
    ensures Apart(Joined(gs, ic, name, i)[k], Joined(gs, ic, name, i)[l])
  {
    var r := Joined(gs, ic, name, i);
    if r[k].level == r[l].level {
      if l < |gs| {
        assert Apart(gs[k], gs[l]);
        SubsetSize(gs[k].functions + gs[l].functions, r[k].functions + r[l].functions);
      } else {
        assert !Fits(gs[k], ic.level, ic.functions);
        UnionSize(gs[k].functions, ic.functions);
        assert r[l].functions == ic.functions;
      }
    }
  }

  lemma JoinPositions(gs: seq<Group>, ic: Initcall, name: string, i: nat)
    requires Positioned(gs) && i <= |gs|
    ensures Positioned(Joined(gs, ic, name, i)) && Numbered(Joined(gs, ic, name, i))
  {
  }
}
