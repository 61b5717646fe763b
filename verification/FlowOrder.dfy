/** The sink paths of one source and the list that puts them into the order of the program flow. */
module FlowOrder {

  /** A sink node and the number of the path that found it. */
  datatype Key = Key(node: nat, path: nat)

  /** The recorded paths, which path's sink may run before another's, and the sinks that store null. */
  datatype Sinks = Sinks(keys: set<Key>, reach: (Key, Key) -> bool, nullStore: nat -> bool)
  {
    predicate IsNull(k: Key) { nullStore(k.node) }

    /** Key k belongs before entry e. */
    predicate Before(k: Key, e: Key) { k.node != e.node && reach(k, e) }

    /** An entry that k belongs before ends the scan, unless only k stores null and e may also run first. */
    predicate Ends(k: Key, e: Key) {
      Before(k, e) && (!IsNull(k) || IsNull(e) || !reach(e, k))
    }
  }

  // ---- what one insertion does

  /** A copy of key k is put directly before entry j of the list. */
  ghost predicate Placed(s: Sinks, k: Key, fs: seq<Key>, j: nat)
    requires j < |fs|
  {
    s.Before(k, fs[j]) && forall i :: 0 <= i < j ==> !s.Ends(k, fs[i])
  }

  ghost predicate PlacedBelow(s: Sinks, k: Key, fs: seq<Key>, n: nat)
    requires n <= |fs|
  {
    exists j :: 0 <= j < n && Placed(s, k, fs, j)
  }

  /** The first n entries with the copies of k put in. */
  ghost function Woven(s: Sinks, k: Key, fs: seq<Key>, n: nat): seq<Key>
    requires n <= |fs|
  {
    if n == 0 then [] else
      Woven(s, k, fs, n - 1) + if Placed(s, k, fs, n - 1) then [k, fs[n - 1]] else [fs[n - 1]]
  }

  ghost function Inserted(s: Sinks, k: Key, fs: seq<Key>): seq<Key> {
    if PlacedBelow(s, k, fs, |fs|) then Woven(s, k, fs, |fs|) else fs + [k]
  }

  lemma {:induction false} NothingMore(s: Sinks, k: Key, fs: seq<Key>, m: nat, n: nat)
    requires m <= n <= |fs| && forall j :: m <= j < n ==> !Placed(s, k, fs, j)
    ensures Woven(s, k, fs, n) == Woven(s, k, fs, m) + fs[m..n]
  {
    if m < n {
      NothingMore(s, k, fs, m, n - 1);
      assert fs[m..n] == fs[m..n - 1] + [fs[n - 1]];
    }
  }

  /** The scan stands at index i of the list, behind the first m of the entries fs it started with. */
  ghost predicate Scanned(s: Sinks, k: Key, fs: seq<Key>, m: nat, i: nat, list: seq<Key>, added: bool) {
    && m <= |fs| && i == |Woven(s, k, fs, m)| && list == Woven(s, k, fs, m) + fs[m..]
    && (added <==> PlacedBelow(s, k, fs, m))
    && forall j :: 0 <= j < m ==> !s.Ends(k, fs[j])
  }

  lemma ScanStart(s: Sinks, k: Key, fs: seq<Key>)
    ensures Scanned(s, k, fs, 0, 0, fs, false)
    ensures fs == [] ==> Inserted(s, k, fs) == [k]
  {
  }

  lemma ScanEnd(s: Sinks, k: Key, fs: seq<Key>, m: nat, i: nat, list: seq<Key>, added: bool)
    requires Scanned(s, k, fs, m, i, list, added) && i >= |list|
    ensures Inserted(s, k, fs) == if added then list else list + [k]
  {
    assert |list| == i + |fs| - m && m == |fs| && fs[m..] == [];
    if !added {
      NothingMore(s, k, fs, 0, |fs|);
    }
  }

  lemma ScanStep(s: Sinks, k: Key, fs: seq<Key>, m: nat, i: nat, list: seq<Key>, added: bool)
    requires Scanned(s, k, fs, m, i, list, added) && i < |list|
    ensures m < |fs| && list[i] == fs[m]
    ensures s.Before(k, fs[m]) && s.Ends(k, fs[m]) ==> list[..i] + [k] + list[i..] == Inserted(s, k, fs)
    ensures s.Before(k, fs[m]) && !s.Ends(k, fs[m]) ==>
              Scanned(s, k, fs, m + 1, i + 2, list[..i] + [k] + list[i..], true)
    ensures !s.Before(k, fs[m]) ==> Scanned(s, k, fs, m + 1, i + 1, list, added)
  {
    var w := Woven(s, k, fs, m);
    assert fs[m..] == [fs[m]] + fs[m + 1..];
    assert list[..i] == w && list[i..] == fs[m..];
    if s.Before(k, fs[m]) {
      assert Placed(s, k, fs, m);
      assert w + [k] + fs[m..] == w + [k, fs[m]] + fs[m + 1..];
      if s.Ends(k, fs[m]) {
        NothingMore(s, k, fs, m + 1, |fs|);
        assert fs[m + 1..] == fs[m + 1..|fs|];
      }
    } else {
      assert w + fs[m..] == w + [fs[m]] + fs[m + 1..];
    }
  }

  class SrcSnkAnalysisContext {
    var sinkPaths: set<Key>
    var numPathMap: map<nat, nat>
    var fsSinkPaths: seq<Key>
    const reach: (Key, Key) -> bool
    const nullStore: nat -> bool

    constructor (reach: (Key, Key) -> bool, nullStore: nat -> bool)
      ensures this.reach == reach && this.nullStore == nullStore
      ensures sinkPaths == {} && fsSinkPaths == [] && Numbered()
    {
      this.reach, this.nullStore := reach, nullStore;
      sinkPaths, numPathMap, fsSinkPaths := {}, map[], [];
    }

    function Recorded(): Sinks
      reads this
    {
      Sinks(sinkPaths, reach, nullStore)
    }

    /** The paths of each sink are numbered from 0 without a gap, as long as none was filtered out. */
    ghost predicate Numbered()
      reads this
    {
      forall k :: k in sinkPaths <==> k.node in numPathMap && k.path < numPathMap[k.node]
    }

    /** Records a path to a sink under a number no path of that sink has. */
    method AddSinkPath(node: nat)
      requires Numbered()
      modifies `sinkPaths, `numPathMap
      ensures Numbered()
      ensures exists k: Key :: k.node == node && k !in old(sinkPaths) && sinkPaths == old(sinkPaths) + {k}
    {
      var pathID := if node in numPathMap then numPathMap[node] else 0;
      numPathMap := numPathMap[node := pathID + 1];
      sinkPaths := sinkPaths + {Key(node, pathID)};
      assert Key(node, pathID) !in old(sinkPaths);
    }

    /** Drops the paths whose sink has an unsatisfiable condition. */
    method FilterUnreachablePaths(unsat: nat -> bool)
      modifies `sinkPaths
      ensures sinkPaths == set k | k in old(sinkPaths) && !unsat(k.node)
    {
      var left := sinkPaths;
      while left != {}
        invariant left <= sinkPaths <= old(sinkPaths)
        invariant forall k :: k in old(sinkPaths) && k !in left ==> (k in sinkPaths <==> !unsat(k.node))
      {
        var k :| k in left;
        left := left - {k};
        if unsat(k.node) {
          sinkPaths := sinkPaths - {k};
        }
      }
    }

    /** Scans the list, putting key before the entries it belongs before. The list grows while it is
        scanned. */
    method AddToFlowSensSinkPaths(key: Key)
      requires key in sinkPaths && forall k :: k in fsSinkPaths ==> k in sinkPaths
      modifies `fsSinkPaths
      ensures fsSinkPaths == Inserted(Recorded(), key, old(fsSinkPaths))
    {
      ghost var fs, s := fsSinkPaths, Recorded();
      ScanStart(s, key, fs);
      if fsSinkPaths == [] {
        fsSinkPaths := [key];
        return;
      }
      var newPathAdded := false;
      var i := 0;
      ghost var m: nat := 0;
      while i < |fsSinkPaths|
        invariant Scanned(s, key, fs, m, i, fsSinkPaths, newPathAdded)
        decreases |fsSinkPaths| - i
      {
        var sortedKey := fsSinkPaths[i];
        ScanStep(s, key, fs, m, i, fsSinkPaths, newPathAdded);
        if key.node != sortedKey.node && reach(key, sortedKey) {
          fsSinkPaths := fsSinkPaths[..i] + [key] + fsSinkPaths[i..];
          newPathAdded := true;
          if !nullStore(key.node) || nullStore(sortedKey.node) || !reach(sortedKey, key) {
            assert s.Ends(key, fs[m]);
            return;
          }
          assert !s.Ends(key, fs[m]);
          i := i + 1;
        }
        m := m + 1;
        i := i + 1;
        assert Scanned(s, key, fs, m, i, fsSinkPaths, newPathAdded);
      }
      ScanEnd(s, key, fs, m, i, fsSinkPaths, newPathAdded);
      if !newPathAdded {
        fsSinkPaths := fsSinkPaths + [key];
      }
    }

    /** Sorts the recorded paths: first those that do not store null, then those that do. keys lists
        them in the order of the map. */
    method SortPaths(keys: seq<Key>)
      requires fsSinkPaths == [] && Lists(keys, sinkPaths)
      modifies `fsSinkPaths
      ensures fsSinkPaths == Sorted(Recorded(), keys)
    {
      for i := 0 to |keys|
        invariant fsSinkPaths == Taken(Recorded(), keys[..i], false, [])
      {
        assert keys[..i + 1][..i] == keys[..i];
        OnlyKeys(Recorded(), keys[..i], false, []);
        if !nullStore(keys[i].node) {
          AddToFlowSensSinkPaths(keys[i]);
        }
      }
      assert keys[..|keys|] == keys;
      ghost var fs := fsSinkPaths;
      for i := 0 to |keys|
        invariant fsSinkPaths == Taken(Recorded(), keys[..i], true, fs)
      {
        assert keys[..i + 1][..i] == keys[..i];
        OnlyKeys(Recorded(), keys, false, []);
        OnlyKeys(Recorded(), keys[..i], true, fs);
        if nullStore(keys[i].node) {
          AddToFlowSensSinkPaths(keys[i]);
        }
      }
      assert keys[..|keys|] == keys;
    }
  }

  // ---- the whole sort

  ghost predicate NoneTwice(keys: seq<Key>) {
    forall i, j :: 0 <= i < j < |keys| ==> keys[i] != keys[j]
  }

  ghost predicate Lists(keys: seq<Key>, all: set<Key>) {
    && (forall k :: k in all <==> k in keys)
    && NoneTwice(keys)
  }

  /** The keys of one kind inserted one after the other. */
  ghost function Taken(s: Sinks, keys: seq<Key>, nulls: bool, fs: seq<Key>): seq<Key> {
    if keys == [] then fs else
      var rest := Taken(s, keys[..|keys| - 1], nulls, fs);
      var k := keys[|keys| - 1];
      if s.IsNull(k) == nulls then Inserted(s, k, rest) else rest
  }

  ghost function Sorted(s: Sinks, keys: seq<Key>): seq<Key> {
    Taken(s, keys, true, Taken(s, keys, false, []))
  }

  /** The entries of the list that are in the given set, in their order. */
  function Only(fs: seq<Key>, ks: set<Key>): seq<Key> {
    if fs == [] then [] else Only(fs[..|fs| - 1], ks) + if fs[|fs| - 1] in ks then [fs[|fs| - 1]] else []
  }

  function Count(fs: seq<Key>, k: Key): nat {
    |Only(fs, {k})|
  }

  // ---- an insertion adds only copies of its key

  lemma {:induction false} OnlyConcat(a: seq<Key>, b: seq<Key>, ks: set<Key>)
    ensures Only(a + b, ks) == Only(a, ks) + Only(b, ks)
  {
    if b == [] {
      assert a + b == a;
    } else {
      var front := b[..|b| - 1];
      OnlyConcat(a, front, ks);
      assert (a + b)[..|a + b| - 1] == a + front;
    }
  }

  lemma OnlyOne(e: Key, ks: set<Key>)
    ensures Only([e], ks) == if e in ks then [e] else []
  {
  }

  lemma {:induction false} CountIn(fs: seq<Key>, k: Key)
    ensures k in fs <==> Count(fs, k) > 0
  {
    if fs != [] {
      CountIn(fs[..|fs| - 1], k);
      assert fs == fs[..|fs| - 1] + [fs[|fs| - 1]];
    }
  }

  lemma CountConcat(a: seq<Key>, b: seq<Key>, e: Key)
    ensures Count(a + b, e) == Count(a, e) + Count(b, e)
  {
    OnlyConcat(a, b, {e});
  }

  /** What one more entry adds to the list and to the list with the copies put in. */
  lemma OnlyStep(s: Sinks, k: Key, fs: seq<Key>, n: nat, ks: set<Key>)
    requires 0 < n <= |fs|
    ensures var placed := if Placed(s, k, fs, n - 1) && k in ks then [k] else [];
            Only(Woven(s, k, fs, n), ks) == Only(Woven(s, k, fs, n - 1), ks) + placed + Only([fs[n - 1]], ks)
    ensures Only(fs[..n], ks) == Only(fs[..n - 1], ks) + Only([fs[n - 1]], ks)
  {
    var w, e := Woven(s, k, fs, n - 1), fs[n - 1];
    assert fs[..n] == fs[..n - 1] + [e];
    OnlyConcat(fs[..n - 1], [e], ks);
    OnlyOne(k, ks);
    OnlyConcat(w, [e], ks);
    OnlyConcat(w + [k], [e], ks);
    OnlyConcat(w, [k], ks);
    assert w + [k, e] == w + [k] + [e];
  }

  lemma {:induction false} WovenKeepsOrder(s: Sinks, k: Key, fs: seq<Key>, n: nat, ks: set<Key>)
    requires n <= |fs| && k !in ks
    ensures Only(Woven(s, k, fs, n), ks) == Only(fs[..n], ks)
  {
    if n > 0 {
      WovenKeepsOrder(s, k, fs, n - 1, ks);
      OnlyStep(s, k, fs, n, ks);
    }
  }

  lemma {:induction false} WovenCounts(s: Sinks, k: Key, fs: seq<Key>, n: nat)
    requires n <= |fs|
    ensures Count(Woven(s, k, fs, n), k) >= Count(fs[..n], k)
    ensures PlacedBelow(s, k, fs, n) ==> Count(Woven(s, k, fs, n), k) > Count(fs[..n], k)
  {
    if n > 0 {
      WovenCounts(s, k, fs, n - 1);
      OnlyStep(s, k, fs, n, {k});
      assert PlacedBelow(s, k, fs, n) ==> PlacedBelow(s, k, fs, n - 1) || Placed(s, k, fs, n - 1);
    }
  }

  /** An insertion keeps the order of all other entries. */
  lemma InsertedKeepsOrder(s: Sinks, k: Key, fs: seq<Key>, ks: set<Key>)
    requires k !in ks
    ensures Only(Inserted(s, k, fs), ks) == Only(fs, ks)
  {
    WovenKeepsOrder(s, k, fs, |fs|, ks);
    assert fs[..|fs|] == fs;
    OnlyConcat(fs, [k], ks);
    OnlyOne(k, ks);
  }

  /** An insertion puts the new key in at least once, and no other entry. */
  lemma InsertedAdds(s: Sinks, k: Key, fs: seq<Key>)
    ensures forall e :: e != k ==> Count(Inserted(s, k, fs), e) == Count(fs, e)
    ensures Count(Inserted(s, k, fs), k) > Count(fs, k)
  {
    forall e | e != k ensures Count(Inserted(s, k, fs), e) == Count(fs, e) {
      InsertedKeepsOrder(s, k, fs, {e});
    }
    WovenCounts(s, k, fs, |fs|);
    assert fs[..|fs|] == fs;
    CountConcat(fs, [k], k);
    OnlyOne(k, {k});
  }

  /** Every entry that k belongs before ends the scan, as it always does for a key that stores no null. */
  ghost predicate Stops(s: Sinks, k: Key, fs: seq<Key>) {
    forall e :: e in fs && s.Before(k, e) ==> s.Ends(k, e)
  }

  /** Then the key is put in once, directly before the first entry it belongs before, or at the end if
      there is none. */
  lemma InsertedOnce(s: Sinks, k: Key, fs: seq<Key>) returns (p: nat)
    requires Stops(s, k, fs)
    ensures p <= |fs| && Inserted(s, k, fs) == fs[..p] + [k] + fs[p..]
    ensures forall i :: 0 <= i < p ==> !s.Before(k, fs[i])
    ensures p < |fs| ==> s.Before(k, fs[p])
  {
    p := 0;
    while p < |fs| && !s.Before(k, fs[p])
      invariant p <= |fs| && forall i :: 0 <= i < p ==> !s.Before(k, fs[i])
    {
      p := p + 1;
    }
    NothingMore(s, k, fs, 0, p);
    if p < |fs| {
      assert Placed(s, k, fs, p);
      assert s.Ends(k, fs[p]);
      NothingMore(s, k, fs, p + 1, |fs|);
    }
  }

  /** The first entry that k belongs before gets a copy. */
  lemma FirstIsPlaced(s: Sinks, k: Key, fs: seq<Key>, a: nat) returns (p: nat)
    requires a < |fs| && s.Before(k, fs[a])
    ensures p <= a && Placed(s, k, fs, p)
  {
    p := 0;
    while !s.Before(k, fs[p])
      invariant p <= a && forall i :: 0 <= i < p ==> !s.Before(k, fs[i])
      decreases a - p
    {
      p := p + 1;
    }
  }

  function Flat(parts: seq<seq<Key>>): seq<Key> {
    if parts == [] then [] else Flat(parts[..|parts| - 1]) + parts[|parts| - 1]
  }

  /** The key reaches entry i, and of each entry in front of i that it reaches, the key stores null, the entry does not,
      and the entry reaches the key. */
  ghost predicate DirectlyBefore(s: Sinks, k: Key, fs: seq<Key>, i: nat)
    requires i < |fs|
  {
    && k.node != fs[i].node && s.reach(k, fs[i])
    && forall h :: 0 <= h < i && k.node != fs[h].node && s.reach(k, fs[h]) ==>
         s.nullStore(k.node) && !s.nullStore(fs[h].node) && s.reach(fs[h], k)
  }

  lemma PlacedIsDirectlyBefore(s: Sinks, k: Key, fs: seq<Key>, i: nat)
    requires i < |fs|
    ensures Placed(s, k, fs, i) <==> DirectlyBefore(s, k, fs, i)
  {
  }

  /** What an insertion makes of the list, entry by entry: a copy of the key stands directly before those entries and
      nowhere else; if the key reaches no entry of another sink, it stands at the end. */
  lemma InsertedCopies(s: Sinks, k: Key, fs: seq<Key>) returns (parts: seq<seq<Key>>, end: seq<Key>)
    ensures Inserted(s, k, fs) == Flat(parts) + end
    ensures |parts| == |fs|
    ensures forall i :: 0 <= i < |fs| ==>
              parts[i] == if DirectlyBefore(s, k, fs, i) then [k, fs[i]] else [fs[i]]
    ensures end == if exists e :: e in fs && k.node != e.node && s.reach(k, e) then [] else [k]
  {
    parts := WovenIsFlat(s, k, fs, |fs|);
    forall i | 0 <= i < |fs| ensures Placed(s, k, fs, i) <==> DirectlyBefore(s, k, fs, i) {
      PlacedIsDirectlyBefore(s, k, fs, i);
    }
    if e :| e in fs && k.node != e.node && s.reach(k, e) {
      var a :| 0 <= a < |fs| && fs[a] == e;
      var p := FirstIsPlaced(s, k, fs, a);
      end := [];
    } else {
      NothingMore(s, k, fs, 0, |fs|);
      end := [k];
    }
  }

  lemma {:induction false} WovenIsFlat(s: Sinks, k: Key, fs: seq<Key>, n: nat) returns (parts: seq<seq<Key>>)
    requires n <= |fs|
    ensures |parts| == n && Woven(s, k, fs, n) == Flat(parts)
    ensures forall i :: 0 <= i < n ==> parts[i] == if Placed(s, k, fs, i) then [k, fs[i]] else [fs[i]]
  {
    parts := [];
    if n > 0 {
      var front := WovenIsFlat(s, k, fs, n - 1);
      parts := front + [if Placed(s, k, fs, n - 1) then [k, fs[n - 1]] else [fs[n - 1]]];
      assert parts[..n - 1] == front;
    }
  }

  lemma CountsOnce(s: Sinks, k: Key, fs: seq<Key>)
    requires Stops(s, k, fs)
    ensures Count(Inserted(s, k, fs), k) == Count(fs, k) + 1
  {
    var p := InsertedOnce(s, k, fs);
    assert fs == fs[..p] + fs[p..];
    CountConcat(fs[..p], fs[p..], k);
    CountConcat(fs[..p], [k], k);
    CountConcat(fs[..p] + [k], fs[p..], k);
    OnlyOne(k, {k});
  }

  // ---- the keys of the sorted list

  lemma {:induction false} TakenCounts(s: Sinks, keys: seq<Key>, nulls: bool, fs: seq<Key>)
    requires NoneTwice(keys)
    ensures forall e :: e !in keys || s.IsNull(e) != nulls ==> Count(Taken(s, keys, nulls, fs), e) == Count(fs, e)
    ensures forall e :: e in keys && s.IsNull(e) == nulls ==> Count(Taken(s, keys, nulls, fs), e) > Count(fs, e)
    ensures forall e :: e in keys && s.IsNull(e) == nulls && !nulls ==>
              Count(Taken(s, keys, nulls, fs), e) == Count(fs, e) + 1
  {
    if keys != [] {
      var front, k := keys[..|keys| - 1], keys[|keys| - 1];
      var rest := Taken(s, front, nulls, fs);
      TakenCounts(s, front, nulls, fs);
      assert keys == front + [k] && k !in front;
      if s.IsNull(k) == nulls {
        InsertedAdds(s, k, rest);
        if !nulls {
          CountsOnce(s, k, rest);
        }
      }
    }
  }

  lemma OnlyKeys(s: Sinks, keys: seq<Key>, nulls: bool, fs: seq<Key>)
    requires NoneTwice(keys)
    ensures forall e :: e in Taken(s, keys, nulls, fs) ==> e in keys || e in fs
  {
    TakenCounts(s, keys, nulls, fs);
    forall e | e in Taken(s, keys, nulls, fs) ensures e in keys || e in fs {
      CountIn(Taken(s, keys, nulls, fs), e);
      CountIn(fs, e);
    }
  }

  /** The sorted list holds every recorded key and nothing else, and keys that store no null once. */
  lemma SortedHasAllKeys(s: Sinks, keys: seq<Key>)
    requires Lists(keys, s.keys)
    ensures forall e :: e in Sorted(s, keys) <==> e in s.keys
    ensures forall e :: e in s.keys && !s.IsNull(e) ==> Count(Sorted(s, keys), e) == 1
  {
    var fs := Taken(s, keys, false, []);
    TakenCounts(s, keys, false, []);
    TakenCounts(s, keys, true, fs);
    forall e ensures e in Sorted(s, keys) <==> e in s.keys {
      CountIn(Sorted(s, keys), e);
    }
  }

  lemma CountTwice(fs: seq<Key>, k: Key, i: nat, j: nat)
    requires i < j < |fs| && fs[i] == k && fs[j] == k
    ensures Count(fs, k) > 1
  {
    assert fs == fs[..j] + fs[j..];
    CountConcat(fs[..j], fs[j..], k);
    assert fs[..j][i] == k && fs[j..][0] == k;
    CountIn(fs[..j], k);
    CountIn(fs[j..], k);
  }

  /** Later insertions never change the order of the keys already listed. */
  lemma {:induction false} TakenKeepsOrder(s: Sinks, keys: seq<Key>, nulls: bool, fs: seq<Key>, ks: set<Key>)
    requires forall k :: k in keys && s.IsNull(k) == nulls ==> k !in ks
    ensures Only(Taken(s, keys, nulls, fs), ks) == Only(fs, ks)
  {
    if keys != [] {
      var front, k := keys[..|keys| - 1], keys[|keys| - 1];
      TakenKeepsOrder(s, front, nulls, fs, ks);
      if s.IsNull(k) == nulls {
        InsertedKeepsOrder(s, k, Taken(s, front, nulls, fs), ks);
      }
    }
  }

  // ---- when the list is in flow order

  /** No entry belongs before one that stands in front of it. */
  ghost predicate InFlowOrder(s: Sinks, fs: seq<Key>) {
    forall i, j :: 0 <= i < j < |fs| ==> !s.Before(fs[j], fs[i])
  }

  /** Entry a stands in front of entry b. */
  ghost predicate Ahead(fs: seq<Key>, a: Key, b: Key) {
    exists i, j :: 0 <= i < j < |fs| && fs[i] == a && fs[j] == b
  }

  lemma AheadIn(fs: seq<Key>, a: Key, b: Key, more: seq<Key>)
    requires Ahead(fs, a, b)
    ensures Ahead(fs + more, a, b)
  {
    var i, j :| 0 <= i < j < |fs| && fs[i] == a && fs[j] == b;
    assert (fs + more)[i] == a && (fs + more)[j] == b;
  }

  lemma AheadAtEnd(fs: seq<Key>, a: Key, b: Key)
    requires a in fs
    ensures Ahead(fs + [b], a, b)
  {
    var i :| 0 <= i < |fs| && fs[i] == a;
    assert (fs + [b])[i] == a && (fs + [b])[|fs|] == b;
  }

  /** Dropping other entries changes nothing about who stands in front of whom. */
  lemma {:induction false} AheadOnly(fs: seq<Key>, ks: set<Key>, a: Key, b: Key)
    requires a in ks && b in ks
    ensures Ahead(Only(fs, ks), a, b) <==> Ahead(fs, a, b)
    ensures a in Only(fs, ks) <==> a in fs
  {
    if fs != [] {
      var front, e := fs[..|fs| - 1], fs[|fs| - 1];
      AheadOnly(front, ks, a, b);
      assert fs == front + [e];
      AheadLast(front, e, a, b);
      if e in ks {
        AheadLast(Only(front, ks), e, a, b);
        assert Only(fs, ks) == Only(front, ks) + [e];
      } else {
        assert Only(fs, ks) == Only(front, ks);
      }
    }
  }

  lemma AheadLast(fs: seq<Key>, e: Key, a: Key, b: Key)
    ensures Ahead(fs + [e], a, b) <==> Ahead(fs, a, b) || (a in fs && e == b)
  {
    if Ahead(fs, a, b) {
      AheadIn(fs, a, b, [e]);
    }
    if a in fs && e == b {
      AheadAtEnd(fs, a, b);
    }
  }

  /** Behind the place where k was put in first, all entries stand behind k. */
  lemma {:induction false} WovenAhead(s: Sinks, k: Key, fs: seq<Key>, p: nat, b: nat, n: nat)
    requires p <= b < n <= |fs| && Placed(s, k, fs, p)
    ensures k in Woven(s, k, fs, n) && Ahead(Woven(s, k, fs, n), k, fs[b])
  {
    var w, e := Woven(s, k, fs, n - 1), fs[n - 1];
    if b < n - 1 {
      WovenAhead(s, k, fs, p, b, n - 1);
      AheadIn(w, k, fs[b], if Placed(s, k, fs, n - 1) then [k, e] else [e]);
    } else if p < n - 1 {
      WovenAhead(s, k, fs, p, p, n - 1);
      AheadAtEnd(w, k, e);
      AheadAtEnd(w + [k], k, e);
      assert w + [k] + [e] == w + [k, e];
    } else {
      AheadAtEnd(w + [k], k, e);
      assert w + [k] + [e] == w + [k, e];
    }
  }

  /** A key stands in front of every entry it belongs before, and of all entries behind that one. */
  lemma InsertedAhead(s: Sinks, k: Key, fs: seq<Key>, a: nat, b: nat)
    requires a <= b < |fs| && s.Before(k, fs[a])
    ensures Ahead(Inserted(s, k, fs), k, fs[b])
  {
    var p := FirstIsPlaced(s, k, fs, a);
    WovenAhead(s, k, fs, p, b, |fs|);
  }

  /** No entry from the first one on that k belongs before belongs before k. */
  ghost predicate NoneBehind(s: Sinks, k: Key, fs: seq<Key>) {
    forall i, j :: 0 <= i <= j < |fs| && s.Before(k, fs[i]) ==> !s.Before(fs[j], k)
  }

  /** An insertion keeps the flow order exactly if no entry from its place on belongs before the key,
      whether the key stores null or not. */
  lemma InsertKeepsFlowOrder(s: Sinks, k: Key, fs: seq<Key>)
    requires InFlowOrder(s, fs)
    ensures InFlowOrder(s, Inserted(s, k, fs)) <==> NoneBehind(s, k, fs)
  {
    if NoneBehind(s, k, fs) {
      assert Stops(s, k, fs);
      var p := InsertedOnce(s, k, fs);
      var r := Inserted(s, k, fs);
      forall i, j | 0 <= i < j < |r| ensures !s.Before(r[j], r[i]) {
        assert r[i] == if i < p then fs[i] else if i == p then k else fs[i - 1];
        assert r[j] == if j < p then fs[j] else if j == p then k else fs[j - 1];
      }
    } else {
      var i, j :| 0 <= i <= j < |fs| && s.Before(k, fs[i]) && s.Before(fs[j], k);
      InsertedAhead(s, k, fs, i, j);
    }
  }

  /** What belongs before a key belongs before all the key belongs before; with f == e, that no two keys
      belong before each other. */
  predicate Transits(s: Sinks, f: Key, k: Key, e: Key) {
    s.Before(f, k) && s.Before(k, e) ==> s.Before(f, e)
  }

  /** Asked of keys that store no null, and of all keys around one that does. */
  ghost predicate Ordered(s: Sinks) {
    forall f, k, e :: f in s.keys && k in s.keys && e in s.keys && (s.IsNull(k) || (!s.IsNull(f) && !s.IsNull(e))) ==>
      Transits(s, f, k, e)
  }

  lemma OrderedInsert(s: Sinks, k: Key, fs: seq<Key>)
    requires Ordered(s) && InFlowOrder(s, fs) && k in s.keys && forall e :: e in fs ==> e in s.keys
    requires s.IsNull(k) || forall e :: e in fs ==> !s.IsNull(e)
    ensures InFlowOrder(s, Inserted(s, k, fs))
  {
    forall i, j | 0 <= i <= j < |fs| && s.Before(k, fs[i]) ensures !s.Before(fs[j], k) {
      assert Transits(s, fs[j], k, fs[i]);
    }
    InsertKeepsFlowOrder(s, k, fs);
  }

  lemma InsertedKeys(s: Sinks, k: Key, fs: seq<Key>)
    ensures forall e :: e in Inserted(s, k, fs) <==> e in fs || e == k
  {
    InsertedAdds(s, k, fs);
    forall e ensures e in Inserted(s, k, fs) <==> e in fs || e == k {
      CountIn(Inserted(s, k, fs), e);
      CountIn(fs, e);
    }
  }

  lemma {:induction false} OrderedTaken(s: Sinks, keys: seq<Key>, nulls: bool, fs: seq<Key>)
    requires Ordered(s) && InFlowOrder(s, fs) && forall e :: e in keys || e in fs ==> e in s.keys
    requires nulls || forall e :: e in fs ==> !s.IsNull(e)
    ensures InFlowOrder(s, Taken(s, keys, nulls, fs))
    ensures forall e :: e in Taken(s, keys, nulls, fs) ==> e in s.keys && (nulls || !s.IsNull(e))
  {
    if keys != [] {
      var front, k := keys[..|keys| - 1], keys[|keys| - 1];
      OrderedTaken(s, front, nulls, fs);
      if s.IsNull(k) == nulls {
        OrderedInsert(s, k, Taken(s, front, nulls, fs));
        InsertedKeys(s, k, Taken(s, front, nulls, fs));
      }
    }
  }

  /** Where the keys are ordered the sorted list is in flow order, whatever the order they are listed in. */
  lemma SortedIsInFlowOrder(s: Sinks, keys: seq<Key>)
    requires Ordered(s) && Lists(keys, s.keys)
    ensures InFlowOrder(s, Sorted(s, keys))
  {
    OrderedTaken(s, keys, false, []);
    OrderedTaken(s, keys, true, Taken(s, keys, false, []));
  }

  /** Then looking only at later entries misses no pair of sinks one of which may run before the other. */
  lemma NoPairIsMissed(s: Sinks, keys: seq<Key>, a: Key, b: Key)
    requires Ordered(s) && Lists(keys, s.keys) && a in s.keys && b in s.keys && s.Before(a, b)
    ensures Ahead(Sorted(s, keys), a, b)
  {
    SortedHasAllKeys(s, keys);
    SortedIsInFlowOrder(s, keys);
    var i :| 0 <= i < |Sorted(s, keys)| && Sorted(s, keys)[i] == a;
    var j :| 0 <= j < |Sorted(s, keys)| && Sorted(s, keys)[j] == b;
  }

  // ---- and only then

  /** Every list of keys can be continued to a listing of all. */
  lemma {:induction false} ListingFrom(first: seq<Key>, all: set<Key>) returns (rest: seq<Key>)
    requires NoneTwice(first) && forall k :: k in first ==> k in all
    ensures Lists(first + rest, all) && forall x :: x in rest ==> x !in first
    decreases all - set k | k in first
  {
    var left := all - set k | k in first;
    if left == {} {
      forall k | k in all ensures k in first {
        assert k !in left;
      }
      assert first + [] == first;
      return [];
    }
    var k :| k in left;
    assert (all - set x | x in first + [k]) == left - {k};
    rest := ListingFrom(first + [k], all);
    assert first + [k] + rest == first + ([k] + rest);
    assert forall x :: x in rest ==> x !in first + [k];
    rest := [k] + rest;
  }

  lemma {:induction false} TakenConcat(s: Sinks, a: seq<Key>, b: seq<Key>, nulls: bool, fs: seq<Key>)
    ensures Taken(s, a + b, nulls, fs) == Taken(s, b, nulls, Taken(s, a, nulls, fs))
  {
    if b == [] {
      assert a + b == a;
    } else {
      TakenConcat(s, a, b[..|b| - 1], nulls, fs);
      assert (a + b)[..|a + b| - 1] == a + b[..|b| - 1];
    }
  }

  /** What stands in front of what, later keys do not change. */
  lemma TakenKeepsAhead(s: Sinks, keys: seq<Key>, nulls: bool, fs: seq<Key>, a: Key, b: Key)
    requires Ahead(fs, a, b) && forall k :: k in keys && s.IsNull(k) == nulls ==> k != a && k != b
    ensures Ahead(Taken(s, keys, nulls, fs), a, b)
  {
    TakenKeepsOrder(s, keys, nulls, fs, {a, b});
    AheadOnly(fs, {a, b}, a, b);
    AheadOnly(Taken(s, keys, nulls, fs), {a, b}, a, b);
  }

  /** One or two keys that store no null, the second not before the first, are listed as they come. */
  lemma TakenAsListed(s: Sinks, e: Key, f: Key) returns (fs: seq<Key>)
    requires !s.IsNull(e) && !s.IsNull(f) && !s.Before(f, e)
    ensures fs == if e == f then [e] else [e, f]
    ensures Taken(s, fs, false, []) == fs
  {
    assert [] + [e] == [e] && [e] + [f] == [e, f];
    fs := [e];
    OneTaken(s, [], e, [], [e]);
    if e != f {
      fs := [e, f];
      OneTaken(s, [e], f, [e], [e, f]);
    }
  }

  /** A key behind the two is put in front of both. */
  lemma TakenAhead(s: Sinks, keys: seq<Key>, nulls: bool, fs: seq<Key>, e: Key, k: Key, f: Key)
    requires s.IsNull(k) == nulls && s.Before(k, e) && (e == f || Ahead(fs, e, f)) && f in fs
    requires forall x :: x in keys && s.IsNull(x) == nulls ==> x != k && x != f
    ensures Ahead(Taken(s, keys, nulls, Inserted(s, k, fs)), k, f)
  {
    if e == f {
      var i :| 0 <= i < |fs| && fs[i] == e;
      InsertedAhead(s, k, fs, i, i);
    } else {
      var i, j :| 0 <= i < j < |fs| && fs[i] == e && fs[j] == f;
      InsertedAhead(s, k, fs, i, j);
    }
    TakenKeepsAhead(s, keys, nulls, Inserted(s, k, fs), k, f);
  }

  /** Keys that store no null and are not ordered around some key have a listing that is sorted out of order. */
  lemma Disordered(s: Sinks, f: Key, k: Key, e: Key) returns (keys: seq<Key>)
    requires f in s.keys && k in s.keys && e in s.keys && !s.IsNull(f) && !s.IsNull(e) && !Transits(s, f, k, e)
    ensures Lists(keys, s.keys) && !InFlowOrder(s, Sorted(s, keys))
  {
    var fs := TakenAsListed(s, e, f);
    TwoOrThree(fs, e, f, k);
    var rest := ListingFrom(fs + [k], s.keys);
    keys := fs + [k] + rest;
    KeyIsAhead(s, fs, rest, f, k, e);
    AheadDisorders(s, Sorted(s, keys), k, f);
  }

  lemma TwoOrThree(fs: seq<Key>, e: Key, f: Key, k: Key)
    requires fs == (if e == f then [e] else [e, f]) && k != e && k != f
    ensures NoneTwice(fs + [k]) && forall x :: x in fs + [k] <==> x == e || x == f || x == k
  {
    assert fs + [k] == if e == f then [e, k] else [e, f, k];
  }

  lemma AheadDisorders(s: Sinks, fs: seq<Key>, k: Key, f: Key)
    requires Ahead(fs, k, f) && s.Before(f, k)
    ensures !InFlowOrder(s, fs)
  {
  }

  /** Listed behind the two, the key ends up in front of f, which belongs before it. */
  lemma KeyIsAhead(s: Sinks, fs: seq<Key>, rest: seq<Key>, f: Key, k: Key, e: Key)
    requires !s.IsNull(f) && !s.IsNull(e) && s.Before(k, e) && k != f
    requires fs == (if e == f then [e] else [e, f]) && Taken(s, fs, false, []) == fs
    requires forall x :: x in rest ==> x != e && x != k && x != f
    ensures Ahead(Sorted(s, fs + [k] + rest), k, f)
  {
    var keys := fs + [k] + rest;
    var one := Taken(s, keys, false, []);
    TakenConcat(s, fs + [k], rest, false, []);
    assert (fs + [k])[..|fs|] == fs && fs[|fs| - 1] == f && fs[0] == e;
    assert e != f ==> Ahead(fs, e, f);
    if s.IsNull(k) {
      TakenFront(s, fs, rest, e, f);
      TakenConcat(s, fs + [k], rest, true, one);
      NotTaken(s, fs, true, one);
      TakenAhead(s, rest, true, one, e, k, f);
    } else {
      TakenAhead(s, rest, false, fs, e, k, f);
      TakenKeepsAhead(s, keys, true, one, k, f);
    }
  }

  /** Two keys at the front stay in their order in the first pass. */
  lemma TakenFront(s: Sinks, fs: seq<Key>, rest: seq<Key>, e: Key, f: Key)
    requires fs == (if e == f then [e] else [e, f]) && forall x :: x in rest ==> x != e && x != f
    ensures f in Taken(s, rest, false, fs) && (e == f || Ahead(Taken(s, rest, false, fs), e, f))
  {
    var one := Taken(s, rest, false, fs);
    assert fs[|fs| - 1] == f;
    if e != f {
      assert fs[0] == e && fs[1] == f;
      TakenKeepsAhead(s, rest, false, fs, e, f);
    }
    TakenKeepsOrder(s, rest, false, fs, {f});
    AheadOnly(fs, {f}, f, f);
    AheadOnly(one, {f}, f, f);
  }

  lemma {:induction false} NotTaken(s: Sinks, keys: seq<Key>, nulls: bool, fs: seq<Key>)
    requires forall k :: k in keys ==> s.IsNull(k) != nulls
    ensures Taken(s, keys, nulls, fs) == fs
  {
    if keys != [] {
      NotTaken(s, keys[..|keys| - 1], nulls, fs);
    }
  }

  /** No null store runs before another. */
  ghost predicate NullsApart(s: Sinks) {
    forall a, b :: a in s.keys && b in s.keys && s.IsNull(a) && s.IsNull(b) ==> !s.Before(a, b)
  }

  /** Where no null store runs before another, and so where there is none, all listings of the keys are
      sorted into flow order exactly if the keys are ordered. */
  lemma FlowOrderIff(s: Sinks)
    requires NullsApart(s)
    ensures (forall keys :: Lists(keys, s.keys) ==> InFlowOrder(s, Sorted(s, keys))) <==> Ordered(s)
  {
    if Ordered(s) {
      forall keys | Lists(keys, s.keys) ensures InFlowOrder(s, Sorted(s, keys)) {
        SortedIsInFlowOrder(s, keys);
      }
    } else {
      var f, k, e :| f in s.keys && k in s.keys && e in s.keys &&
        (s.IsNull(k) || (!s.IsNull(f) && !s.IsNull(e))) && !Transits(s, f, k, e);
      var keys := Disordered(s, f, k, e);
    }
  }

  // ---- null stores in loops

  /** A stands in front of n and n in front of b. */
  ghost predicate Between(fs: seq<Key>, a: Key, n: Key, b: Key) {
    exists l :: 0 <= l < |fs| && fs[l] == b && Ahead(fs[..l], a, n)
  }

  lemma BetweenLast(fs: seq<Key>, e: Key, a: Key, n: Key, b: Key)
    ensures Between(fs + [e], a, n, b) <==> Between(fs, a, n, b) || (e == b && Ahead(fs, a, n))
  {
    var r := fs + [e];
    assert r[..|fs|] == fs && r[|fs|] == e;
    if l :| 0 <= l < |fs| && fs[l] == b && Ahead(fs[..l], a, n) {
      assert r[l] == b && r[..l] == fs[..l];
    }
    if l :| 0 <= l < |r| && r[l] == b && Ahead(r[..l], a, n) {
      assert l < |fs| ==> r[..l] == fs[..l] && fs[l] == b;
    }
  }

  lemma {:induction false} BetweenOnly(fs: seq<Key>, a: Key, n: Key, b: Key)
    ensures Between(Only(fs, {a, n, b}), a, n, b) <==> Between(fs, a, n, b)
  {
    if fs != [] {
      var ks, front, e := {a, n, b}, fs[..|fs| - 1], fs[|fs| - 1];
      BetweenOnly(front, a, n, b);
      AheadOnly(front, ks, a, n);
      assert fs == front + [e];
      BetweenLast(front, e, a, n, b);
      if e in ks {
        BetweenLast(Only(front, ks), e, a, n, b);
        assert Only(fs, ks) == Only(front, ks) + [e];
      } else {
        assert Only(fs, ks) == Only(front, ks);
      }
    }
  }

  /** A key none of whose targets ends the scan is put directly before each of them. */
  lemma BetweenInserted(s: Sinks, a: Key, n: Key, b: Key, fs: seq<Key>)
    requires Ahead(fs, a, b) && s.Before(n, b) && a != n
    requires forall e :: e in fs ==> !s.Ends(n, e)
    ensures Between(Inserted(s, n, fs), a, n, b)
  {
    var i, j :| 0 <= i < j < |fs| && fs[i] == a && fs[j] == b;
    assert Placed(s, n, fs, j);
    WovenBetween(s, a, n, b, fs, i, j);
    BetweenWoven(s, n, fs, a, b, j + 1, |fs|);
  }

  lemma WovenBetween(s: Sinks, a: Key, n: Key, b: Key, fs: seq<Key>, i: nat, j: nat)
    requires i < j < |fs| && fs[i] == a && fs[j] == b && Placed(s, n, fs, j) && a != n
    ensures Between(Woven(s, n, fs, j + 1), a, n, b)
  {
    var w := Woven(s, n, fs, j);
    WovenKeepsOrder(s, n, fs, j, {a});
    AheadOnly(w, {a}, a, a);
    AheadOnly(fs[..j], {a}, a, a);
    assert fs[..j][i] == a;
    AheadAtEnd(w, a, n);
    BetweenLast(w + [n], b, a, n, b);
    assert w + [n, b] == w + [n] + [b];
  }

  lemma {:induction false} BetweenWoven(s: Sinks, n: Key, fs: seq<Key>, a: Key, b: Key, i: nat, j: nat)
    requires i <= j <= |fs| && Between(Woven(s, n, fs, i), a, n, b)
    ensures Between(Woven(s, n, fs, j), a, n, b)
  {
    if i < j {
      BetweenWoven(s, n, fs, a, b, i, j - 1);
      var w, e := Woven(s, n, fs, j - 1), fs[j - 1];
      BetweenLast(w, n, a, n, b);
      BetweenLast(w + [n], e, a, n, b);
      BetweenLast(w, e, a, n, b);
      assert w + [n, e] == w + [n] + [e];
    }
  }

  /** The pass over the null stores, up to n, with n, and behind it. */
  lemma SplitAt(s: Sinks, keys: seq<Key>, n: Key, one: seq<Key>) returns (front: seq<Key>, rest: seq<Key>)
    requires n in keys && NoneTwice(keys) && s.IsNull(n)
    ensures keys == front + [n] + rest && NoneTwice(front) && n !in rest
    ensures Taken(s, keys, true, one) == Taken(s, rest, true, Inserted(s, n, Taken(s, front, true, one)))
  {
    var p :| 0 <= p < |keys| && keys[p] == n;
    front, rest := keys[..p], keys[p + 1..];
    assert keys == front + [n] + rest && (front + [n])[..p] == front;
    TakenConcat(s, front + [n], rest, true, one);
  }

  lemma AheadStays(s: Sinks, n: Key, rest: seq<Key>, fs: seq<Key>, a: Key, b: Key)
    requires a != n && b != n && !s.IsNull(a) && !s.IsNull(b)
    ensures Ahead(Taken(s, rest, true, Inserted(s, n, fs)), a, b) <==> Ahead(fs, a, b)
  {
    TakenKeepsOrder(s, rest, true, Inserted(s, n, fs), {a, b});
    InsertedKeepsOrder(s, n, fs, {a, b});
    AheadOnly(Taken(s, rest, true, Inserted(s, n, fs)), {a, b}, a, b);
    AheadOnly(fs, {a, b}, a, b);
  }

  lemma BetweenStays(s: Sinks, rest: seq<Key>, fs: seq<Key>, a: Key, n: Key, b: Key)
    requires n !in rest && !s.IsNull(a) && !s.IsNull(b) && Between(fs, a, n, b)
    ensures Between(Taken(s, rest, true, fs), a, n, b)
  {
    TakenKeepsOrder(s, rest, true, fs, {a, n, b});
    BetweenOnly(fs, a, n, b);
    BetweenOnly(Taken(s, rest, true, fs), a, n, b);
  }

  /** A null store that may run before a sink b, and that all it may run before reach, none of which stores null,
      stands between b and every sink listed in front of b: it is seen between any two of them. */
  lemma NullStoreBetween(s: Sinks, keys: seq<Key>, a: Key, n: Key, b: Key)
    requires Lists(keys, s.keys) && n in s.keys && s.IsNull(n) && !s.IsNull(a) && !s.IsNull(b)
    requires n.node != b.node && s.reach(n, b)
    requires forall e :: e in s.keys && n.node != e.node && s.reach(n, e) ==> !s.nullStore(e.node) && s.reach(e, n)
    requires Ahead(Sorted(s, keys), a, b)
    ensures Between(Sorted(s, keys), a, n, b)
  {
    var one := Taken(s, keys, false, []);
    var front, rest := SplitAt(s, keys, n, one);
    var two := Taken(s, front, true, one);
    AheadStays(s, n, rest, two, a, b);
    OnlyKeys(s, keys, false, []);
    OnlyKeys(s, front, true, one);
    forall e | e in two ensures !s.Ends(n, e) {
      assert e in keys;
    }
    BetweenInserted(s, a, n, b, two);
    BetweenStays(s, rest, Inserted(s, n, two), a, n, b);
  }

  // ---- one listing

  /** No insertion on the way finds an entry behind its place that belongs before the key. */
  ghost predicate Smooth(s: Sinks, keys: seq<Key>, nulls: bool, fs: seq<Key>) {
    keys == [] ||
    (var front, k := keys[..|keys| - 1], keys[|keys| - 1];
     Smooth(s, front, nulls, fs) && (s.IsNull(k) == nulls ==> NoneBehind(s, k, Taken(s, front, nulls, fs))))
  }

  /** What is out of order stays so. */
  lemma StaysDisordered(s: Sinks, k: Key, fs: seq<Key>)
    requires k !in fs && !InFlowOrder(s, fs)
    ensures !InFlowOrder(s, Inserted(s, k, fs))
  {
    var i, j :| 0 <= i < j < |fs| && s.Before(fs[j], fs[i]);
    var ks := {fs[i], fs[j]};
    InsertedKeepsOrder(s, k, fs, ks);
    AheadOnly(fs, ks, fs[i], fs[j]);
    AheadOnly(Inserted(s, k, fs), ks, fs[i], fs[j]);
  }

  lemma {:induction false} TakenIff(s: Sinks, keys: seq<Key>, nulls: bool, fs: seq<Key>)
    requires NoneTwice(keys) && forall k :: k in keys && s.IsNull(k) == nulls ==> k !in fs
    ensures InFlowOrder(s, Taken(s, keys, nulls, fs)) <==> InFlowOrder(s, fs) && Smooth(s, keys, nulls, fs)
  {
    if keys != [] {
      var front, k := keys[..|keys| - 1], keys[|keys| - 1];
      var rest := Taken(s, front, nulls, fs);
      TakenIff(s, front, nulls, fs);
      if s.IsNull(k) == nulls {
        OnlyKeys(s, front, nulls, fs);
        if InFlowOrder(s, rest) {
          InsertKeepsFlowOrder(s, k, rest);
        } else {
          StaysDisordered(s, k, rest);
        }
      }
    }
  }

  /** A listing, such as the ascending one of the map, is sorted into flow order exactly if every insertion finds
      no entry behind its place that belongs before the key. */
  lemma ListingIff(s: Sinks, keys: seq<Key>)
    requires Lists(keys, s.keys)
    ensures InFlowOrder(s, Sorted(s, keys)) <==>
            Smooth(s, keys, false, []) && Smooth(s, keys, true, Taken(s, keys, false, []))
  {
    var fs := Taken(s, keys, false, []);
    TakenIff(s, keys, false, []);
    TakenCounts(s, keys, false, []);
    forall k | k in keys && s.IsNull(k) ensures k !in fs {
      CountIn(fs, k);
    }
    TakenIff(s, keys, true, fs);
  }

  function OfKind(s: Sinks, keys: seq<Key>, nulls: bool): seq<Key> {
    if keys == [] then [] else
      var k := keys[|keys| - 1];
      OfKind(s, keys[..|keys| - 1], nulls) + if s.nullStore(k.node) == nulls then [k] else []
  }

  lemma {:induction false} TakenUnrelated(s: Sinks, keys: seq<Key>, nulls: bool, fs: seq<Key>)
    requires forall a, b :: a in keys && (b in keys || b in fs) ==> !s.Before(a, b)
    ensures Taken(s, keys, nulls, fs) == fs + OfKind(s, keys, nulls)
  {
    if keys != [] {
      var front, k := keys[..|keys| - 1], keys[|keys| - 1];
      TakenUnrelated(s, front, nulls, fs);
      OfKindIn(s, front, nulls);
      var rest := fs + OfKind(s, front, nulls);
      NothingMore(s, k, rest, 0, |rest|);
    }
  }

  lemma {:induction false} OfKindIn(s: Sinks, keys: seq<Key>, nulls: bool)
    ensures forall k :: k in OfKind(s, keys, nulls) ==> k in keys
  {
    if keys != [] {
      OfKindIn(s, keys[..|keys| - 1], nulls);
    }
  }

  /** Sinks none of which may run before another stay as they are listed, those that store null last. */
  lemma UnrelatedStayAsListed(s: Sinks, keys: seq<Key>)
    requires forall a, b :: a in keys && b in keys && a.node != b.node ==> !s.reach(a, b)
    ensures Sorted(s, keys) == OfKind(s, keys, false) + OfKind(s, keys, true)
  {
    OfKindIn(s, keys, false);
    TakenUnrelated(s, keys, false, []);
    assert [] + OfKind(s, keys, false) == OfKind(s, keys, false);
    TakenUnrelated(s, keys, true, OfKind(s, keys, false));
  }

  /** Three sinks, of which 2 reaches 3 and 3 reaches 1, but 2 does not reach 1. */
  function Chain(): Sinks {
    Sinks({Key(1, 0), Key(2, 0), Key(3, 0)},
          (x: Key, y: Key) => (x.node == 3 && y.node == 1) || (x.node == 2 && y.node == 3), n => false)
  }

  /** Reachability is not transitive in general, and then the list can be out of order although no two
      sinks reach each other: sink 2 belongs before sink 3 but ends up behind it. */
  lemma FlowOrderCanFail()
    ensures var keys := [Key(1, 0), Key(2, 0), Key(3, 0)];
            Lists(keys, Chain().keys) && !InFlowOrder(Chain(), Sorted(Chain(), keys))
    ensures forall a, b :: Chain().Before(a, b) ==> !Chain().reach(b, a)
  {
    var s, a, b, c := Chain(), Key(1, 0), Key(2, 0), Key(3, 0);
    assert [] + [a] == [a] && [a] + [b] == [a, b] && [a, b] + [c] == [a, b, c] && [c] + [a, b] == [c, a, b];
    OneTaken(s, [], a, [], [a]);
    OneTaken(s, [a], b, [a], [a, b]);
    OneTaken(s, [a, b], c, [a, b], [c, a, b]);
    NotTaken(s, [a, b, c], true, [c, a, b]);
    assert s.Before([c, a, b][2], [c, a, b][0]);
  }

  lemma OneTaken(s: Sinks, keys: seq<Key>, k: Key, fs: seq<Key>, r: seq<Key>)
    requires Taken(s, keys, false, []) == fs && !s.IsNull(k)
    requires (r == fs + [k] && forall i :: 0 <= i < |fs| ==> !s.Before(k, fs[i])) ||
             (r == [k] + fs && fs != [] && s.Before(k, fs[0]))
    ensures Taken(s, keys + [k], false, []) == r
  {
    assert (keys + [k])[..|keys + [k]| - 1] == keys;
    var p := InsertedOnce(s, k, fs);
    assert fs[..p] + [k] + fs[p..] == r;
  }
}
