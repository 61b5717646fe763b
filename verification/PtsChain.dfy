/** Collecting the global objects: a memoised walk over points-to chains that publishes the cache
    entry of an object before it is complete. */
module PtsChain {

  type NodeId = nat

  /** The memory model: the base object of a node, the fields of a base object and what a node points
      to, both in the order in which they are visited, and the finite set of base objects. */
  datatype Memory = Memory(baseOf: NodeId -> NodeId,
                           fieldsOf: NodeId -> seq<NodeId>,
                           ptsOf: NodeId -> seq<NodeId>,
                           bases: set<NodeId>)

  function Fields(m: Memory, b: NodeId): set<NodeId> {
    set n | n in m.fieldsOf(b)
  }

  ghost predicate ValidMemory(m: Memory) {
    forall n :: m.baseOf(n) in m.bases
  }

  // ---- the reference definition

  /** A field of object b points into object c. */
  ghost predicate PointsInto(m: Memory, b: NodeId, c: NodeId) {
    exists f, o :: f in m.fieldsOf(b) && o in m.ptsOf(f) && m.baseOf(o) == c
  }

  ghost predicate IsChain(m: Memory, p: seq<NodeId>) {
    p != [] && forall i :: 0 < i < |p| ==> PointsInto(m, p[i - 1], p[i])
  }

  /** Object c is reached from object b through a chain of pointers. */
  ghost predicate Reaches(m: Memory, b: NodeId, c: NodeId) {
    exists p :: IsChain(m, p) && p[0] == b && p[|p| - 1] == c
  }

  /** Node n is a field of an object reached from b. */
  ghost predicate InClosure(m: Memory, b: NodeId, n: NodeId) {
    exists c :: Reaches(m, b, c) && n in m.fieldsOf(c)
  }

  /** Node n belongs to the globals: it is a global, or a field of an object reached from one. */
  ghost predicate IsGlobalMemory(m: Memory, ids: seq<NodeId>, n: NodeId) {
    n in ids || exists id, o :: id in ids && o in m.ptsOf(id) && InClosure(m, m.baseOf(o), n)
  }

  lemma ReachesSelf(m: Memory, b: NodeId)
    ensures Reaches(m, b, b)
  {
    assert IsChain(m, [b]) && [b][0] == b;
  }

  lemma ReachesStep(m: Memory, b: NodeId, c: NodeId, d: NodeId)
    requires PointsInto(m, b, c) && Reaches(m, c, d)
    ensures Reaches(m, b, d)
  {
    var p :| IsChain(m, p) && p[0] == c && p[|p| - 1] == d;
    var q := [b] + p;
    forall i | 0 < i < |q| ensures PointsInto(m, q[i - 1], q[i]) {
      if i > 1 { assert q[i - 1] == p[i - 2] && q[i] == p[i - 1]; }
    }
    assert IsChain(m, q) && q[0] == b && q[|q| - 1] == d;
  }

  lemma ClosureStep(m: Memory, b: NodeId, c: NodeId, n: NodeId)
    requires PointsInto(m, b, c) && InClosure(m, c, n)
    ensures InClosure(m, b, n)
  {
    var d :| Reaches(m, c, d) && n in m.fieldsOf(d);
    ReachesStep(m, b, c, d);
  }

  /** All objects that s's objects point into are in s. */
  ghost predicate ClosedUnder(m: Memory, s: set<NodeId>) {
    forall b, c :: b in s && PointsInto(m, b, c) ==> c in s
  }

  lemma {:induction false} ChainStays(m: Memory, s: set<NodeId>, p: seq<NodeId>)
    requires ClosedUnder(m, s) && IsChain(m, p) && p[0] in s
    ensures p[|p| - 1] in s
  {
    if |p| > 1 {
      ChainStays(m, s, p[..|p| - 1]);
      assert PointsInto(m, p[|p| - 2], p[|p| - 1]);
    }
  }

  // ---- the builder

  type Cache = map<NodeId, set<NodeId>>

  /** No entry holds too much, and each holds at least the object's own fields. */
  ghost predicate EntriesSound(m: Memory, cache: Cache) {
    && cache.Keys <= m.bases
    && forall b :: b in cache ==> Fields(m, b) <= cache[b] && forall n :: n in cache[b] ==> InClosure(m, b, n)
  }

  /** An object whose entry was added since then has all its pointees in the cache. */
  ghost predicate Explored(m: Memory, cache: Cache, before: set<NodeId>, b: NodeId) {
    b !in before ==> forall c :: PointsInto(m, b, c) ==> c in cache
  }

  /** While base is being explored: older entries are untouched, newer ones are finished, and the
      entry of base has the fields of everything found on the way. */
  ghost predicate Progress(m: Memory, cache: Cache, before: Cache, base: NodeId) {
    && EntriesSound(m, cache)
    && base !in before && base in cache
    && (forall b :: b in before ==> b in cache && cache[b] == before[b])
    && (forall b :: b in cache && b != base ==> Explored(m, cache, before.Keys, b))
    && (forall b :: b in cache && b !in before ==> Fields(m, b) <= cache[base])
  }

  /** A finished call: older entries are untouched, newer ones are finished, and the result has the
      fields of everything found. */
  ghost predicate Collected(m: Memory, cache: Cache, before: Cache, base: NodeId, result: set<NodeId>) {
    && EntriesSound(m, cache)
    && base in cache && result == cache[base]
    && (forall b :: b in before ==> b in cache && cache[b] == before[b])
    && (forall b :: b in cache ==> Explored(m, cache, before.Keys, b))
    && (forall b :: b in cache && b !in before ==> Fields(m, b) <= result)
  }

  /** Between two calls the cache is closed under pointers, and the fields of all its objects have
      been accumulated. */
  ghost predicate Accumulated(m: Memory, cache: Cache, globs: set<NodeId>, ids: seq<NodeId>) {
    && EntriesSound(m, cache)
    && ClosedUnder(m, cache.Keys)
    && (forall b :: b in cache ==> Fields(m, b) <= globs)
    && (forall n :: n in globs ==> IsGlobalMemory(m, ids, n))
  }

  /** Uniting what one more pointee led to into the entry of base. */
  lemma ChainAdded(m: Memory, before: Cache, base: NodeId, o: NodeId, cache: Cache, cache': Cache, chain: set<NodeId>)
    requires ValidMemory(m) && Progress(m, cache, before, base) && PointsInto(m, base, m.baseOf(o))
    requires Collected(m, cache', cache, m.baseOf(o), chain)
    ensures Progress(m, cache'[base := cache'[base] + chain], before, base)
  {
    var r := cache'[base := cache'[base] + chain];
    forall n | n in chain ensures InClosure(m, base, n) {
      ClosureStep(m, base, m.baseOf(o), n);
    }
    forall b | b in r && b != base ensures Explored(m, r, before.Keys, b) {
      assert b in cache ==> Explored(m, cache, before.Keys, b);
      assert Explored(m, cache', cache.Keys, b);
    }
  }

  lemma MoreAccumulated(m: Memory, before: Cache, cache: Cache, globs: set<NodeId>, ids: seq<NodeId>,
                        id: NodeId, o: NodeId, chain: set<NodeId>)
    requires Accumulated(m, before, globs, ids) && Collected(m, cache, before, m.baseOf(o), chain)
    requires id in ids && o in m.ptsOf(id)
    ensures Accumulated(m, cache, globs + chain, ids)
  {
  }

  /** All pointees of the first i fields are in the cache. */
  ghost predicate FieldsDone(m: Memory, cache: Cache, fields: seq<NodeId>, i: nat)
    requires i <= |fields|
  {
    forall k, o :: 0 <= k < i && o in m.ptsOf(fields[k]) ==> m.baseOf(o) in cache
  }

  lemma ExploredAll(m: Memory, cache: Cache, before: Cache, base: NodeId)
    requires Progress(m, cache, before, base) && FieldsDone(m, cache, m.fieldsOf(base), |m.fieldsOf(base)|)
    ensures Collected(m, cache, before, base, cache[base])
  {
  }

  // ---- the walk as a function of the cache

  /** All that the given fields point to, in the order of the walk. */
  function Pointees(m: Memory, fields: seq<NodeId>): seq<NodeId> {
    if fields == [] then [] else m.ptsOf(fields[0]) + Pointees(m, fields[1..])
  }

  /** The cache after a call for node id. */
  ghost function After(m: Memory, cache: Cache, id: NodeId): (r: Cache)
    requires ValidMemory(m)
    ensures cache.Keys <= r.Keys && m.baseOf(id) in r
    decreases m.bases - cache.Keys, 0, 0
  {
    var b := m.baseOf(id);
    if b in cache then cache
    else Walk(m, cache[b := Fields(m, b)], b, Pointees(m, m.fieldsOf(b)))
  }

  /** The cache after the pointees still to visit have been united into the entry of base. */
  ghost function Walk(m: Memory, cache: Cache, base: NodeId, todo: seq<NodeId>): (r: Cache)
    requires ValidMemory(m) && base in cache
    ensures cache.Keys <= r.Keys
    decreases m.bases - cache.Keys, 1, |todo|
  {
    if todo == [] then cache
    else
      var c := After(m, cache, todo[0]);
      assert m.bases - c.Keys == m.bases - cache.Keys || m.bases - c.Keys < m.bases - cache.Keys;
      Walk(m, c[base := c[base] + c[m.baseOf(todo[0])]], base, todo[1..])
  }

  class KernelSvfgBuilder {
    const m: Memory
    var cachedPts: Cache
    var globs: set<NodeId>

    constructor (m: Memory)
      ensures this.m == m && cachedPts == map[] && globs == {}
    {
      this.m := m;
      cachedPts, globs := map[], {};
    }

    /** The entry of the object of id. It is published with the object's own fields only, so a walk
        around a cycle reads what it holds so far; whatever else the walk discovers still ends up in the
        result of this call. */
    method CollectPtsChain(id: NodeId) returns (result: set<NodeId>)
      requires ValidMemory(m) && EntriesSound(m, cachedPts)
      modifies `cachedPts
      ensures cachedPts == After(m, old(cachedPts), id)
      ensures Collected(m, cachedPts, old(cachedPts), m.baseOf(id), result)
      decreases m.bases - cachedPts.Keys, 0
    {
      var base := m.baseOf(id);
      if base in cachedPts {
        return cachedPts[base];
      }
      ghost var before, after := cachedPts, After(m, cachedPts, id);
      var fields := m.fieldsOf(base);
      cachedPts := cachedPts[base := Fields(m, base)];
      ReachesSelf(m, base);
      assert fields[0..] == fields;
      for i := 0 to |fields|
        invariant Progress(m, cachedPts, before, base) && FieldsDone(m, cachedPts, fields, i)
        invariant Walk(m, cachedPts, base, Pointees(m, fields[i..])) == after
      {
        assert fields[i..][0] == fields[i] && fields[i..][1..] == fields[i + 1..] && fields[i] in fields;
        AddPointees(base, fields[i], before, Pointees(m, fields[i + 1..]));
      }
      result := cachedPts[base];
      ExploredAll(m, cachedPts, before, base);
    }

    /** Unites what is reached through the field f into the entry of base; rest is left to visit. */
    method AddPointees(base: NodeId, f: NodeId, ghost before: Cache, ghost rest: seq<NodeId>)
      requires ValidMemory(m) && Progress(m, cachedPts, before, base) && f in m.fieldsOf(base)
      modifies `cachedPts
      ensures Progress(m, cachedPts, before, base)
      ensures forall o :: o in m.ptsOf(f) ==> m.baseOf(o) in cachedPts
      ensures old(cachedPts.Keys) <= cachedPts.Keys
      ensures Walk(m, cachedPts, base, rest) == Walk(m, old(cachedPts), base, m.ptsOf(f) + rest)
      decreases m.bases - cachedPts.Keys, 2
    {
      var pts := m.ptsOf(f);
      assert pts[0..] == pts;
      for i := 0 to |pts|
        invariant Progress(m, cachedPts, before, base) && old(cachedPts.Keys) <= cachedPts.Keys
        invariant forall k :: 0 <= k < i ==> m.baseOf(pts[k]) in cachedPts
        invariant Walk(m, cachedPts, base, pts[i..] + rest) == Walk(m, old(cachedPts), base, pts + rest)
      {
        assert PointsInto(m, base, m.baseOf(pts[i]));
        assert (pts[i..] + rest)[0] == pts[i] && (pts[i..] + rest)[1..] == pts[i + 1..] + rest;
        AddChain(base, pts[i], before);
      }
      assert pts[|pts|..] + rest == rest;
    }

    /** Unites what is reached through o into the entry of base. */
    method AddChain(base: NodeId, o: NodeId, ghost before: Cache)
      requires ValidMemory(m) && Progress(m, cachedPts, before, base) && PointsInto(m, base, m.baseOf(o))
      modifies `cachedPts
      ensures Progress(m, cachedPts, before, base) && m.baseOf(o) in cachedPts
      ensures old(cachedPts.Keys) <= cachedPts.Keys
      ensures var c := After(m, old(cachedPts), o);
              base in c && cachedPts == c[base := c[base] + c[m.baseOf(o)]]
      decreases m.bases - cachedPts.Keys, 1
    {
      var chain := CollectPtsChain(o);
      ChainAdded(m, before, base, o, old(cachedPts), cachedPts, chain);
      cachedPts := cachedPts[base := cachedPts[base] + chain];
    }

    /** Adds one global and all that is reached through it. */
    method AddGlobal(ghost ids: seq<NodeId>, id: NodeId)
      requires ValidMemory(m) && Accumulated(m, cachedPts, globs, ids) && id in ids
      modifies this
      ensures Accumulated(m, cachedPts, globs, ids) && old(globs) + {id} <= globs
      ensures old(cachedPts.Keys) <= cachedPts.Keys && forall o :: o in m.ptsOf(id) ==> m.baseOf(o) in cachedPts
    {
      globs := globs + {id};
      var pts := m.ptsOf(id);
      for k := 0 to |pts|
        invariant Accumulated(m, cachedPts, globs, ids) && old(globs) + {id} <= globs
        invariant old(cachedPts.Keys) <= cachedPts.Keys && forall j :: 0 <= j < k ==> m.baseOf(pts[j]) in cachedPts
      {
        ghost var before := cachedPts;
        var chain := CollectPtsChain(pts[k]);
        MoreAccumulated(m, before, cachedPts, globs, ids, id, pts[k], chain);
        globs := globs + chain;
      }
    }

    /** The accumulated set is exact although single cache entries need not be. */
    method CollectGlobals(ids: seq<NodeId>)
      requires ValidMemory(m) && cachedPts == map[] && globs == {}
      modifies this
      ensures forall n :: n in globs <==> IsGlobalMemory(m, ids, n)
    {
      var worklist := ids;
      while worklist != []
        invariant worklist <= ids
        invariant Accumulated(m, cachedPts, globs, ids)
        invariant forall id, o :: id in ids[|worklist|..] && o in m.ptsOf(id) ==> m.baseOf(o) in cachedPts
        invariant forall id :: id in ids[|worklist|..] ==> id in globs
        decreases |worklist|
      {
        var id := worklist[|worklist| - 1];
        worklist := worklist[..|worklist| - 1];
        assert ids[|worklist|..] == [id] + ids[|worklist| + 1..];
        AddGlobal(ids, id);
      }
      assert ids[0..] == ids;
      forall n | IsGlobalMemory(m, ids, n) ensures n in globs {
        if n !in ids {
          var id, o :| id in ids && o in m.ptsOf(id) && InClosure(m, m.baseOf(o), n);
          var c :| Reaches(m, m.baseOf(o), c) && n in m.fieldsOf(c);
          var p :| IsChain(m, p) && p[0] == m.baseOf(o) && p[|p| - 1] == c;
          ChainStays(m, cachedPts.Keys, p);
        }
      }
    }

    /** A node accesses global memory if it is part of it or points to a part of it. */
    method AccessGlobal(ids: seq<NodeId>, node: NodeId) returns (yes: bool)
      requires forall n :: n in globs <==> IsGlobalMemory(m, ids, n)
      ensures yes <==> exists n :: (n == node || n in m.ptsOf(node)) && IsGlobalMemory(m, ids, n)
    {
      var pts := (set n | n in m.ptsOf(node)) + {node};
      yes := pts * globs != {};
      if yes {
        var n :| n in pts * globs;
        assert IsGlobalMemory(m, ids, n);
      } else {
        forall n | n == node || n in m.ptsOf(node) ensures !IsGlobalMemory(m, ids, n) {
          assert n !in pts * globs;
        }
      }
    }
  }

  // ---- single entries

  /** The first entry, which nothing was cached for, is exact. */
  lemma FirstEntryIsExact(m: Memory, cache: Cache, base: NodeId, result: set<NodeId>)
    requires Collected(m, cache, map[], base, result)
    ensures forall n :: n in result <==> InClosure(m, base, n)
  {
    forall n | InClosure(m, base, n) ensures n in result {
      var c :| Reaches(m, base, c) && n in m.fieldsOf(c);
      var p :| IsChain(m, p) && p[0] == base && p[|p| - 1] == c;
      ClosedCache(m, cache);
      ChainStays(m, cache.Keys, p);
    }
  }

  lemma ClosedCache(m: Memory, cache: Cache)
    requires forall b :: b in cache ==> Explored(m, cache, {}, b)
    ensures ClosedUnder(m, cache.Keys)
  {
  }

  /** The entry of object b is its closure. */
  ghost predicate Exact(m: Memory, cache: Cache, b: NodeId)
    requires b in cache
  {
    forall n :: n in cache[b] <==> InClosure(m, b, n)
  }

  ghost predicate ExactBut(m: Memory, cache: Cache, open: set<NodeId>) {
    forall b :: b in cache && b !in open ==> Exact(m, cache, b)
  }

  /** No pointers go round through several objects: they lead to objects of lower rank, or back into the
      same object. */
  ghost predicate Ranked(m: Memory, rank: NodeId -> nat) {
    forall b, c :: PointsInto(m, b, c) && b != c ==> rank(c) < rank(b)
  }

  lemma {:induction false} ChainParts(m: Memory, p: seq<NodeId>, n: NodeId) returns (c: NodeId)
    requires IsChain(m, p) && n in m.fieldsOf(p[|p| - 1]) && n !in m.fieldsOf(p[0])
    ensures c != p[0] && PointsInto(m, p[0], c) && InClosure(m, c, n)
  {
    assert PointsInto(m, p[0], p[1]);
    var q := p[1..];
    forall i | 0 < i < |q| ensures PointsInto(m, q[i - 1], q[i]) {
      assert PointsInto(m, p[i], p[i + 1]);
    }
    assert IsChain(m, q) && q[|q| - 1] == p[|p| - 1];
    if p[1] == p[0] {
      c := ChainParts(m, q, n);
    } else {
      c := p[1];
      assert Reaches(m, c, p[|p| - 1]);
    }
  }

  /** A closure is made of the object's own fields and the closures of the other objects it points into. */
  lemma ClosureParts(m: Memory, b: NodeId, n: NodeId) returns (c: NodeId)
    requires InClosure(m, b, n) && n !in m.fieldsOf(b)
    ensures c != b && PointsInto(m, b, c) && InClosure(m, c, n)
  {
    var d :| Reaches(m, b, d) && n in m.fieldsOf(d);
    var p :| IsChain(m, p) && p[0] == b && p[|p| - 1] == d;
    c := ChainParts(m, p, n);
  }

  /** What the entry of base still lacks is behind the pointees to visit. */
  ghost predicate Lacks(m: Memory, cache: Cache, base: NodeId, todo: seq<NodeId>)
    requires base in cache
  {
    && (forall n :: n in cache[base] ==> InClosure(m, base, n))
    && (forall n :: InClosure(m, base, n) && n !in cache[base] ==> Behind(m, base, todo, n))
  }

  ghost predicate Behind(m: Memory, base: NodeId, todo: seq<NodeId>, n: NodeId) {
    exists o :: o in todo && m.baseOf(o) != base && InClosure(m, m.baseOf(o), n)
  }

  lemma {:induction false} PointeesOf(m: Memory, fields: seq<NodeId>)
    ensures forall o :: o in Pointees(m, fields) <==> exists f :: f in fields && o in m.ptsOf(f)
  {
    if fields != [] {
      PointeesOf(m, fields[1..]);
      assert fields == [fields[0]] + fields[1..];
    }
  }

  lemma LacksAtFirst(m: Memory, cache: Cache, b: NodeId)
    requires b in cache && cache[b] == Fields(m, b)
    ensures Lacks(m, cache, b, Pointees(m, m.fieldsOf(b)))
  {
    var todo := Pointees(m, m.fieldsOf(b));
    PointeesOf(m, m.fieldsOf(b));
    ReachesSelf(m, b);
    forall n | InClosure(m, b, n) && n !in cache[b] ensures Behind(m, b, todo, n) {
      var c := ClosureParts(m, b, n);
      var f, o :| f in m.fieldsOf(b) && o in m.ptsOf(f) && m.baseOf(o) == c;
      assert o in todo;
    }
  }

  /** Uniting an exact entry into that of base. */
  lemma LacksLess(m: Memory, c: Cache, base: NodeId, todo: seq<NodeId>)
    requires todo != [] && base in c && m.baseOf(todo[0]) in c && PointsInto(m, base, m.baseOf(todo[0]))
    requires Lacks(m, c, base, todo) && (m.baseOf(todo[0]) == base || Exact(m, c, m.baseOf(todo[0])))
    ensures Lacks(m, c[base := c[base] + c[m.baseOf(todo[0])]], base, todo[1..])
  {
    var o := todo[0];
    var r := c[base := c[base] + c[m.baseOf(o)]];
    forall n | n in c[m.baseOf(o)] ensures InClosure(m, base, n) {
      if m.baseOf(o) != base {
        ClosureStep(m, base, m.baseOf(o), n);
      }
    }
    forall n | InClosure(m, base, n) && n !in r[base] ensures Behind(m, base, todo[1..], n) {
      var q :| q in todo && m.baseOf(q) != base && InClosure(m, m.baseOf(q), n);
      assert todo == [o] + todo[1..];
    }
  }

  ghost predicate Above(rank: NodeId -> nat, open: set<NodeId>, r: nat) {
    forall x :: x in open ==> rank(x) >= r
  }

  /** While the objects in open are being explored, a call for an object of lower rank makes its entry exact. */
  lemma {:induction false} AfterExact(m: Memory, rank: NodeId -> nat, cache: Cache, id: NodeId, open: set<NodeId>)
    requires ValidMemory(m) && Ranked(m, rank) && ExactBut(m, cache, open)
    requires Above(rank, open, rank(m.baseOf(id)) + 1)
    ensures ExactBut(m, After(m, cache, id), open)
    ensures forall b :: b in cache ==> After(m, cache, id)[b] == cache[b]
    decreases m.bases - cache.Keys, 0, 0
  {
    var b := m.baseOf(id);
    if b !in cache {
      var todo := Pointees(m, m.fieldsOf(b));
      LacksAtFirst(m, cache[b := Fields(m, b)], b);
      PointeesOf(m, m.fieldsOf(b));
      WalkExact(m, rank, cache[b := Fields(m, b)], b, todo, open + {b});
    }
  }

  lemma {:induction false} WalkExact(m: Memory, rank: NodeId -> nat, cache: Cache, base: NodeId, todo: seq<NodeId>,
                                     open: set<NodeId>)
    requires ValidMemory(m) && Ranked(m, rank) && ExactBut(m, cache, open)
    requires base in cache && base in open && Above(rank, open, rank(base)) && Lacks(m, cache, base, todo)
    requires forall o :: o in todo ==> PointsInto(m, base, m.baseOf(o))
    ensures ExactBut(m, Walk(m, cache, base, todo), open - {base})
    ensures forall b :: b in cache && b != base ==> Walk(m, cache, base, todo)[b] == cache[b]
    decreases m.bases - cache.Keys, 1, |todo|
  {
    if todo == [] {
      assert Exact(m, cache, base);
    } else {
      var o := todo[0];
      var c := After(m, cache, o);
      if m.baseOf(o) != base {
        AfterExact(m, rank, cache, o, open);
      }
      LacksLess(m, c, base, todo);
      assert m.bases - c.Keys == m.bases - cache.Keys || m.bases - c.Keys < m.bases - cache.Keys;
      WalkExact(m, rank, c[base := c[base] + c[m.baseOf(o)]], base, todo[1..], open);
    }
  }

  /** Where no pointers go round through several objects, every entry of every call is exact. */
  lemma RankedEntriesAreExact(m: Memory, rank: NodeId -> nat, cache: Cache, id: NodeId)
    requires ValidMemory(m) && Ranked(m, rank) && forall b :: b in cache ==> Exact(m, cache, b)
    ensures var r := After(m, cache, id); m.baseOf(id) in r && forall b :: b in r ==> Exact(m, r, b)
  {
    AfterExact(m, rank, cache, id, {});
  }

  /** Object 0 points to objects 1 and 2, which both point back. */
  function TwoCycles(): Memory {
    Memory(n => if n < 3 then n else 0, n => [n],
           n => if n == 0 then [1, 2] else if n < 3 then [0] else [], {0, 1, 2})
  }

  lemma OneReachesTwo()
    ensures InClosure(TwoCycles(), 1, 2)
  {
    var m := TwoCycles();
    assert 0 in m.fieldsOf(0) && 2 in m.ptsOf(0) && m.baseOf(2) == 2;
    assert 1 in m.fieldsOf(1) && 0 in m.ptsOf(1) && m.baseOf(0) == 0;
    ReachesSelf(m, 2);
    ReachesStep(m, 0, 2, 2);
    ReachesStep(m, 1, 0, 2);
  }

  lemma TwoCyclesPointees()
    ensures var m := TwoCycles();
            && Pointees(m, [0]) == [1, 2] && Pointees(m, [1]) == [0] && Pointees(m, [2]) == [0]
            && Fields(m, 0) == {0} && Fields(m, 1) == {1} && Fields(m, 2) == {2}
  {
  }

  /** Visiting object n, which points back to 0 only. */
  lemma BackEdge(cache: Cache, n: NodeId, r: Cache)
    requires 0 in cache && n !in cache && (n == 1 || n == 2) && r == cache[n := {n} + cache[0]]
    ensures After(TwoCycles(), cache, n) == r
  {
    TwoCyclesPointees();
    OneMore(TwoCycles(), cache[n := {n}], n, 0, [], cache[n := {n}], r);
  }

  lemma FirstHalf(c0: Cache, c1: Cache, c2: Cache)
    requires c0 == map[0 := {0}] && c1 == c0[1 := {1} + {0}] && c2 == c1[0 := c1[0] + c1[1]]
    ensures Walk(TwoCycles(), c0, 0, [1, 2]) == Walk(TwoCycles(), c2, 0, [2])
    ensures c2 == map[0 := {0, 1}, 1 := {0, 1}]
  {
    TwoCyclesPointees();
    BackEdge(c0, 1, c1);
    OneMore(TwoCycles(), c0, 0, 1, [2], c1, c2);
    assert c2[0] == {0, 1} && c2[1] == {0, 1} && c2.Keys == {0, 1};
  }

  lemma SecondHalf(c2: Cache, c3: Cache, c4: Cache)
    requires c2 == map[0 := {0, 1}, 1 := {0, 1}] && c3 == c2[2 := {2} + c2[0]] && c4 == c3[0 := c3[0] + c3[2]]
    ensures Walk(TwoCycles(), c2, 0, [2]) == c4 == map[0 := {0, 1, 2}, 1 := {0, 1}, 2 := {0, 1, 2}]
  {
    TwoCyclesPointees();
    BackEdge(c2, 2, c3);
    OneMore(TwoCycles(), c2, 0, 2, [], c3, c4);
    assert c4[0] == {0, 1, 2} && c4[1] == {0, 1} && c4[2] == {0, 1, 2} && c4.Keys == {0, 1, 2};
  }

  /** Not every entry is: when 1 is walked, 0 is open and 2 not yet met, so the finished entry of 1
      misses 2 although 1 reaches it. */
  lemma EntryCanBeStale()
    ensures ValidMemory(TwoCycles()) && InClosure(TwoCycles(), 1, 2)
    ensures After(TwoCycles(), map[], 0) == map[0 := {0, 1, 2}, 1 := {0, 1}, 2 := {0, 1, 2}]
  {
    var m := TwoCycles();
    OneReachesTwo();
    TwoCyclesPointees();
    var c0: Cache := map[0 := {0}];
    var c1 := c0[1 := {1} + {0}];
    var c2 := c1[0 := c1[0] + c1[1]];
    FirstHalf(c0, c1, c2);
    var c3 := c2[2 := {2} + c2[0]];
    SecondHalf(c2, c3, c3[0 := c3[0] + c3[2]]);
  }

  lemma OneMore(m: Memory, cache: Cache, base: NodeId, o: NodeId, todo: seq<NodeId>, c: Cache, r: Cache)
    requires ValidMemory(m) && base in cache && c == After(m, cache, o) && r == c[base := c[base] + c[m.baseOf(o)]]
    ensures Walk(m, cache, base, [o] + todo) == Walk(m, r, base, todo)
  {
  }

  /** Two objects that point to each other. */
  function Pair(): Memory {
    Memory(n => if n < 2 then n else 0, n => [n], n => if n == 0 then [1] else if n == 1 then [0] else [], {0, 1})
  }

  lemma PairClosure(b: NodeId)
    requires b < 2
    ensures forall n :: n in {0, 1} <==> InClosure(Pair(), b, n)
  {
    var m := Pair();
    assert b in m.fieldsOf(b) && 1 - b in m.ptsOf(b) && m.baseOf(1 - b) == 1 - b;
    ReachesSelf(m, b);
    ReachesSelf(m, 1 - b);
    ReachesStep(m, b, 1 - b, 1 - b);
    assert b in m.fieldsOf(b) && 1 - b in m.fieldsOf(1 - b);
    forall n | InClosure(m, b, n) ensures n in {0, 1} {
      NothingElse(b, n);
    }
  }

  lemma NothingElse(b: NodeId, n: NodeId)
    requires b < 2 && InClosure(Pair(), b, n)
    ensures n in {0, 1}
  {
    var m := Pair();
    var c :| Reaches(m, b, c) && n in m.fieldsOf(c);
    var p :| IsChain(m, p) && p[0] == b && p[|p| - 1] == c;
    ChainStays(m, {0, 1}, p);
  }

  lemma PairEntries()
    ensures ValidMemory(Pair()) && After(Pair(), map[], 0) == map[0 := {0, 1}, 1 := {0, 1}]
  {
    var m := Pair();
    assert Pointees(m, [0]) == [1] && Pointees(m, [1]) == [0] && Fields(m, 0) == {0} && Fields(m, 1) == {1};
    var c0: Cache := map[0 := {0}];
    var c1 := c0[1 := {1} + {0}];
    OneMore(m, c0[1 := {1}], 1, 0, [], c0[1 := {1}], c1);
    OneMore(m, c0, 0, 1, [], c1, c1[0 := c1[0] + c1[1]]);
    var c2 := c1[0 := c1[0] + c1[1]];
    assert c2[0] == {0, 1} && c2[1] == {0, 1} && c2.Keys == {0, 1};
  }

  /** The rank is not necessary: here there is none, and both entries are exact. */
  lemma CyclesCanBeExact()
    ensures ValidMemory(Pair()) && forall rank :: !Ranked(Pair(), rank)
    ensures var r := After(Pair(), map[], 0); r.Keys == {0, 1} && Exact(Pair(), r, 0) && Exact(Pair(), r, 1)
  {
    PairEntries();
    PairClosure(0);
    PairClosure(1);
    var m := Pair();
    assert 0 in m.fieldsOf(0) && 1 in m.ptsOf(0) && m.baseOf(1) == 1;
    assert 1 in m.fieldsOf(1) && 0 in m.ptsOf(1) && m.baseOf(0) == 0;
    assert PointsInto(m, 0, 1) && PointsInto(m, 1, 0);
  }
}
