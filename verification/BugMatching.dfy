/** The loops that pair up the sinks of one source, in flow order, and select the pairs to report. */
module BugMatching {
  import opened FlowOrder

  /** The positions of two sinks in the flow-ordered list. */
  datatype Report = Report(first: nat, second: nat)

  predicate Earlier(a: Report, b: Report) {
    a.first < b.first || (a.first == b.first && a.second < b.second)
  }

  /** Every pair that qualifies is reported, once and in the order of the list. */
  ghost predicate Complete(reports: seq<Report>, wanted: (nat, nat) -> bool, n: nat, i: nat, j: nat) {
    && (forall r :: r in reports ==>
          r.first < r.second < n && Earlier(r, Report(i, j)) && wanted(r.first, r.second))
    && (forall a: nat, b: nat :: a < b < n && Earlier(Report(a, b), Report(i, j)) && wanted(a, b) ==>
          Report(a, b) in reports)
    && (forall k, l :: 0 <= k < l < |reports| ==> Earlier(reports[k], reports[l]))
  }

  ghost predicate ReportsExactly(reports: seq<Report>, wanted: (nat, nat) -> bool, n: nat) {
    && (forall r :: r in reports ==> r.first < r.second < n)
    && (forall a: nat, b: nat :: a < b < n ==> (Report(a, b) in reports <==> wanted(a, b)))
    && (forall k, l :: 0 <= k < l < |reports| ==> Earlier(reports[k], reports[l]))
  }

  lemma NextPair(reports: seq<Report>, wanted: (nat, nat) -> bool, n: nat, i: nat, j: nat)
    requires i < j < n && Complete(reports, wanted, n, i, j)
    ensures wanted(i, j) ==> Complete(reports + [Report(i, j)], wanted, n, i, j + 1)
    ensures !wanted(i, j) ==> Complete(reports, wanted, n, i, j + 1)
  {
  }

  lemma NextRow(reports: seq<Report>, wanted: (nat, nat) -> bool, n: nat, i: nat)
    requires Complete(reports, wanted, n, i, n)
    ensures Complete(reports, wanted, n, i + 1, i + 2)
  {
  }

  lemma LastRow(reports: seq<Report>, wanted: (nat, nat) -> bool, n: nat)
    requires n > 0 && Complete(reports, wanted, n, n - 1, n)
    ensures ReportsExactly(reports, wanted, n)
  {
  }

  // ---- locks

  datatype Locks = Locks(lock: Key -> bool, unlock: Key -> bool, fieldCxt: Key -> nat,
                         reach: (Key, Key) -> bool, dominates: (Key, Key) -> bool)
  {
    /** The unlock z releases what lock a took: same field, reached from a, and not a lock itself. */
    ghost predicate Releases(a: Key, z: Key) {
      lock(a) && !lock(z) && unlock(z) && fieldCxt(a) == fieldCxt(z) && reach(a, z)
    }

    /** Two locks of the same field one after the other, with no unlock on every way between them. */
    ghost predicate DoubleLock(fs: seq<Key>, i: nat, j: nat) {
      && i < j < |fs| && lock(fs[i]) && lock(fs[j]) && fieldCxt(fs[i]) == fieldCxt(fs[j]) && reach(fs[i], fs[j])
      && forall z :: i < z < j ==> !(Releases(fs[i], fs[z]) && dominates(fs[z], fs[j]))
    }

    ghost function Wanted(fs: seq<Key>): (nat, nat) -> bool {
      (i: nat, j: nat) => DoubleLock(fs, i, j)
    }

    /** The sinks some unlock before position j protects from being reported after lock i. */
    ghost predicate NonCritical(fs: seq<Key>, i: nat, j: nat, k: Key)
      requires j <= |fs|
    {
      exists y, z :: i < y < j && y < z < |fs| && Releases(fs[i], fs[y]) && fs[z] == k && dominates(fs[y], k)
    }
  }

  class DoubleLockChecker {
    var reports: seq<Report>

    constructor ()
      ensures reports == []
    {
      reports := [];
    }

    /** Looks at the sinks behind position i for a second lock. */
    method EvaluateFrom(s: Locks, fs: seq<Key>, i: nat)
      requires i < |fs| && Complete(reports, s.Wanted(fs), |fs|, i, i + 1)
      modifies this
      ensures Complete(reports, s.Wanted(fs), |fs|, i, |fs|)
    {
      var cur := fs[i];
      var nonCriticalPaths: set<Key> := {};
      for j := i + 1 to |fs|
        invariant Complete(reports, s.Wanted(fs), |fs|, i, j)
        invariant Marks(s, fs, i, j, nonCriticalPaths)
      {
        var next := fs[j];
        NextPair(reports, s.Wanted(fs), |fs|, i, j);
        PairDecided(s, fs, i, j, nonCriticalPaths);
        MarksNext(s, fs, i, j, nonCriticalPaths);
        if s.fieldCxt(cur) == s.fieldCxt(next) {
          if s.lock(cur) && s.lock(next) {
            if next !in nonCriticalPaths && s.reach(cur, next) {
              reports := reports + [Report(i, j)];
            }
          } else if s.lock(cur) && s.unlock(next) && s.reach(cur, next) {
            nonCriticalPaths := MarkDominated(s, fs, j, nonCriticalPaths);
          }
        }
      }
    }

    /** No lock that the unlock at position j dominates is critical any more. */
    static method MarkDominated(s: Locks, fs: seq<Key>, j: nat, marked: set<Key>) returns (r: set<Key>)
      requires j < |fs|
      ensures Dominated(s, fs, j, |fs|, marked, r)
    {
      r := marked;
      for z := j + 1 to |fs|
        invariant Dominated(s, fs, j, z, marked, r)
      {
        if s.dominates(fs[j], fs[z]) {
          r := r + {fs[z]};
        }
      }
    }

    method Evaluate(s: Locks, fs: seq<Key>)
      modifies this
      ensures ReportsExactly(reports, s.Wanted(fs), |fs|)
    {
      reports := [];
      if fs == [] {
        return;
      }
      for i := 0 to |fs| - 1
        invariant Complete(reports, s.Wanted(fs), |fs|, i, i + 1)
      {
        EvaluateFrom(s, fs, i);
        NextRow(reports, s.Wanted(fs), |fs|, i);
      }
      LastRow(reports, s.Wanted(fs), |fs|);
    }
  }

  /** The set marked holds what the unlocks before position j protect from lock i. */
  ghost predicate Marks(s: Locks, fs: seq<Key>, i: nat, j: nat, marked: set<Key>)
    requires j <= |fs|
  {
    forall k :: k in marked <==> s.NonCritical(fs, i, j, k)
  }

  /** r adds to the marked sinks those at positions from j + 1 to z that the sink at j dominates. */
  ghost predicate Dominated(s: Locks, fs: seq<Key>, j: nat, z: nat, marked: set<Key>, r: set<Key>)
    requires j < |fs| && z <= |fs|
  {
    forall k :: k in r <==> k in marked || exists x :: j < x < z && fs[x] == k && s.dominates(fs[j], k)
  }

  /** What decides the pair of positions i and j, also if the list holds a sink more than once. */
  lemma PairDecided(s: Locks, fs: seq<Key>, i: nat, j: nat, marked: set<Key>)
    requires i < j < |fs| && Marks(s, fs, i, j, marked)
    ensures s.DoubleLock(fs, i, j) <==>
              && s.fieldCxt(fs[i]) == s.fieldCxt(fs[j]) && s.lock(fs[i]) && s.lock(fs[j])
              && fs[j] !in marked && s.reach(fs[i], fs[j])
  {
  }

  lemma MarksNext(s: Locks, fs: seq<Key>, i: nat, j: nat, marked: set<Key>)
    requires i < j < |fs| && Marks(s, fs, i, j, marked)
    ensures !s.Releases(fs[i], fs[j]) ==> Marks(s, fs, i, j + 1, marked)
    ensures forall r :: s.Releases(fs[i], fs[j]) && Dominated(s, fs, j, |fs|, marked, r) ==> Marks(s, fs, i, j + 1, r)
  {
  }

  // ---- frees

  datatype Frees = Frees(dealloc: Key -> bool, nullStore: Key -> bool, reach: (Key, Key) -> bool)
  {
    /** Two frees one after the other, with no null store reached from the first between them. */
    ghost predicate DoubleFree(fs: seq<Key>, i: nat, j: nat) {
      && i < j < |fs| && dealloc(fs[i]) && dealloc(fs[j]) && reach(fs[i], fs[j])
      && forall z :: i < z < j ==> !Kills(fs, i, z)
    }

    ghost predicate Kills(fs: seq<Key>, i: nat, z: nat)
      requires i < |fs| && z < |fs|
    {
      dealloc(fs[i]) && !dealloc(fs[z]) && nullStore(fs[z]) && reach(fs[i], fs[z])
    }

    ghost function Wanted(fs: seq<Key>): (nat, nat) -> bool {
      (i: nat, j: nat) => DoubleFree(fs, i, j)
    }
  }

  class DoubleFreeChecker {
    var reports: seq<Report>

    constructor ()
      ensures reports == []
    {
      reports := [];
    }

    /** Looks at the sinks behind position i for a second free, up to the first null store reached. */
    method EvaluateFrom(s: Frees, fs: seq<Key>, i: nat)
      requires i < |fs| && Complete(reports, s.Wanted(fs), |fs|, i, i + 1)
      modifies this
      ensures Complete(reports, s.Wanted(fs), |fs|, i, |fs|)
    {
      for j := i + 1 to |fs|
        invariant Complete(reports, s.Wanted(fs), |fs|, i, j)
        invariant NoKill(s, fs, i, j)
      {
        NextPair(reports, s.Wanted(fs), |fs|, i, j);
        FreeDecided(s, fs, i, j);
        if s.dealloc(fs[i]) && s.dealloc(fs[j]) {
          if s.reach(fs[i], fs[j]) {
            reports := reports + [Report(i, j)];
          }
        } else if s.dealloc(fs[i]) && s.nullStore(fs[j]) {
          if s.reach(fs[i], fs[j]) {
            NothingBehind(reports, s, fs, i, j);
            break;
          }
        }
      }
    }

    method Evaluate(s: Frees, fs: seq<Key>)
      modifies this
      ensures ReportsExactly(reports, s.Wanted(fs), |fs|)
    {
      reports := [];
      if fs == [] {
        return;
      }
      for i := 0 to |fs| - 1
        invariant Complete(reports, s.Wanted(fs), |fs|, i, i + 1)
      {
        EvaluateFrom(s, fs, i);
        NextRow(reports, s.Wanted(fs), |fs|, i);
      }
      LastRow(reports, s.Wanted(fs), |fs|);
    }
  }

  ghost predicate NoKill(s: Frees, fs: seq<Key>, i: nat, j: nat)
    requires i < |fs| && j <= |fs|
  {
    forall z :: i < z < j ==> !s.Kills(fs, i, z)
  }

  lemma FreeDecided(s: Frees, fs: seq<Key>, i: nat, j: nat)
    requires i < j < |fs| && NoKill(s, fs, i, j)
    ensures s.DoubleFree(fs, i, j) <==> s.dealloc(fs[i]) && s.dealloc(fs[j]) && s.reach(fs[i], fs[j])
    ensures !s.Kills(fs, i, j) ==> NoKill(s, fs, i, j + 1)
  {
  }

  /** Behind a null store that free i reaches nothing is reported for i. */
  lemma NothingBehind(reports: seq<Report>, s: Frees, fs: seq<Key>, i: nat, j: nat)
    requires i < j < |fs| && s.Kills(fs, i, j) && Complete(reports, s.Wanted(fs), |fs|, i, j)
    ensures Complete(reports, s.Wanted(fs), |fs|, i, |fs|)
  {
  }

  /** A null store in a loop with all it may run before keeps every pair of frees from being reported of which it may
      run before the second and the first may run before it, wherever the two are listed. */
  lemma LoopedStoreKills(s: Sinks, keys: seq<Key>, f: Frees, n: Key, i: nat, j: nat)
    requires Lists(keys, s.keys) && n in s.keys && s.IsNull(n) && f.nullStore(n) && !f.dealloc(n)
    requires forall e :: e in s.keys && n.node != e.node && s.reach(n, e) ==> !s.nullStore(e.node) && s.reach(e, n)
    requires i < j < |Sorted(s, keys)|
    requires var a, b := Sorted(s, keys)[i], Sorted(s, keys)[j];
             !s.IsNull(a) && !s.IsNull(b) && n.node != b.node && s.reach(n, b) && f.reach(a, n)
    ensures !f.DoubleFree(Sorted(s, keys), i, j)
  {
    var fs := Sorted(s, keys);
    var a, b := fs[i], fs[j];
    NullStoreBetween(s, keys, a, n, b);
    var l :| 0 <= l < |fs| && fs[l] == b && Ahead(fs[..l], a, n);
    var h, m :| 0 <= h < m < l && fs[..l][h] == a && fs[..l][m] == n;
    OnlyAt(s, keys, h, i);
    OnlyAt(s, keys, l, j);
    assert f.dealloc(fs[i]) ==> f.Kills(fs, i, m);
  }

  lemma OnlyAt(s: Sinks, keys: seq<Key>, i: nat, j: nat)
    requires Lists(keys, s.keys) && i < |Sorted(s, keys)| && j < |Sorted(s, keys)|
    requires Sorted(s, keys)[i] == Sorted(s, keys)[j] && !s.IsNull(Sorted(s, keys)[i])
    ensures i == j
  {
    SortedHasAllKeys(s, keys);
    var k := Sorted(s, keys)[i];
    assert k in s.keys;
    if i < j {
      CountTwice(Sorted(s, keys), k, i, j);
    } else if j < i {
      CountTwice(Sorted(s, keys), k, j, i);
    }
  }
}
