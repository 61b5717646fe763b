/** The handshake of a call with a return, one step for each part that other threads can come between. A call
    looks at the recorded returns and then joins the waiters, a return is stored and then wakes the waiters,
    and these sections of several threads interleave. */
module Handshake {
  import opened UarState
  import opened UarJoins

  // ---- one call and one return

  datatype Move = Look | Wait | Store | Wake

  function Do(s: State, key: Key, w: Item, r: Item, m: Move): State {
    match m
    case Look => Replay(s, key, w)
    case Wait => Await(s, key, w)
    case Store => Record(s, key, r)
    case Wake => UarState.Wake(s, key, r)
  }

  function DoAll(s: State, key: Key, w: Item, r: Item, order: seq<Move>): State {
    if order == [] then s
    else Do(DoAll(s, key, w, r, order[..|order| - 1]), key, w, r, order[|order| - 1])
  }

  /** The call's sections in their order, and the return's in theirs. */
  const ORDERS: set<seq<Move>> :=
    {[Look, Wait, Store, Wake], [Look, Store, Wait, Wake], [Look, Store, Wake, Wait],
     [Store, Look, Wait, Wake], [Store, Look, Wake, Wait], [Store, Wake, Look, Wait]}

  /** Caller and return are new to their sets and can be joined, and nothing else makes their join. */
  ghost predicate New(s: State, key: Key, w: Item, r: Item) {
    && !Holds(At(s.waiting, key), w) && !Holds(At(s.rets, key), r) && Joinable(w, r)
    && !Pushed(s, Join(w, r))
    && Join(w, r) !in JoinsOfWaiter(w, At(s.rets, key)) && Join(w, r) !in JoinsOfReturn(At(s.waiting, key), r)
  }

  lemma OneMoreReturn(w: Item, rets: seq<Item>, r: Item)
    requires Joinable(w, r)
    ensures JoinsOfWaiter(w, rets + [r]) == JoinsOfWaiter(w, rets) + [Join(w, r)]
  {
    var more := rets + [r];
    assert more[..|more| - 1] == rets && more[|more| - 1] == r;
  }

  lemma OneMoreWaiter(waiters: seq<Item>, w: Item, r: Item)
    requires Joinable(w, r)
    ensures JoinsOfReturn(waiters + [w], r) == JoinsOfReturn(waiters, r) + [Join(w, r)]
  {
    var more := waiters + [w];
    assert more[..|more| - 1] == waiters && more[|more| - 1] == w;
  }

  /** How far the two are: the return is stored, the call waits, the join is made. */
  datatype Progress = Progress(stored: bool, waits: bool, made: bool)
  {
    function On(m: Move): Progress {
      match m
      case Look => this.(made := made || stored)
      case Wait => this.(waits := true)
      case Store => this.(stored := true)
      case Wake => this.(made := made || waits)
    }
  }

  ghost predicate CameTo(s: State, t: State, key: Key, w: Item, r: Item, p: Progress) {
    && At(t.rets, key) == At(s.rets, key) + (if p.stored then [r] else [])
    && At(t.waiting, key) == At(s.waiting, key) + (if p.waits then [w] else [])
    && (Pushed(t, Join(w, r)) <==> p.made)
  }

  function After(order: seq<Move>): (p: Progress)
    ensures (p.waits <==> Wait in order) && (p.stored <==> Store in order)
  {
    if order == [] then Progress(false, false, false) else After(order[..|order| - 1]).On(order[|order| - 1])
  }

  lemma PushedMore(t: State, items: seq<Item>, x: Item)
    ensures Pushed(Push(t, items), x) <==> Pushed(t, x) || x in items
  {
  }

  lemma LookMakes(w: Item, rets: seq<Item>, r: Item, stored: bool)
    requires Joinable(w, r) && Join(w, r) !in JoinsOfWaiter(w, rets)
    ensures Join(w, r) in JoinsOfWaiter(w, rets + if stored then [r] else []) <==> stored
  {
    OneMoreReturn(w, rets, r);
    assert rets + [] == rets;
  }

  lemma WakeMakes(waiters: seq<Item>, w: Item, r: Item, waits: bool)
    requires Joinable(w, r) && Join(w, r) !in JoinsOfReturn(waiters, r)
    ensures Join(w, r) in JoinsOfReturn(waiters + if waits then [w] else [], r) <==> waits
  {
    OneMoreWaiter(waiters, w, r);
    assert waiters + [] == waiters;
  }

  lemma LookComesTo(s: State, t: State, key: Key, w: Item, r: Item, p: Progress)
    requires New(s, key, w, r) && CameTo(s, t, key, w, r, p)
    ensures CameTo(s, Replay(t, key, w), key, w, r, p.On(Look))
  {
    var n, items, rets := Replay(t, key, w), JoinsOfWaiter(w, At(t.rets, key)), At(s.rets, key);
    assert n.rets == t.rets && n.waiting == t.waiting;
    PushedMore(t, items, Join(w, r));
    LookMakes(w, rets, r, p.stored);
  }

  lemma WakeComesTo(s: State, t: State, key: Key, w: Item, r: Item, p: Progress)
    requires New(s, key, w, r) && CameTo(s, t, key, w, r, p)
    ensures CameTo(s, UarState.Wake(t, key, r), key, w, r, p.On(Wake))
  {
    var n, items, waiters := UarState.Wake(t, key, r), JoinsOfReturn(At(t.waiting, key), r), At(s.waiting, key);
    assert n.rets == t.rets && n.waiting == t.waiting;
    PushedMore(t, items, Join(w, r));
    WakeMakes(waiters, w, r, p.waits);
  }

  lemma DoComesTo(s: State, t: State, key: Key, w: Item, r: Item, p: Progress, m: Move)
    requires New(s, key, w, r) && CameTo(s, t, key, w, r, p)
    requires (m.Wait? ==> !p.waits) && (m.Store? ==> !p.stored)
    ensures CameTo(s, Do(t, key, w, r, m), key, w, r, p.On(m))
  {
    match m
    case Look => LookComesTo(s, t, key, w, r, p);
    case Wake => WakeComesTo(s, t, key, w, r, p);
    case Wait =>
      assert At(s.waiting, key) + [] == At(s.waiting, key);
      assert !Holds(At(t.waiting, key), w);
    case Store =>
      assert At(s.rets, key) + [] == At(s.rets, key);
      assert !Holds(At(t.rets, key), r);
  }

  lemma {:induction false} OrderComesTo(s: State, key: Key, w: Item, r: Item, order: seq<Move>)
    requires New(s, key, w, r) && forall i, j :: 0 <= i < j < |order| ==> order[i] != order[j]
    ensures CameTo(s, DoAll(s, key, w, r, order), key, w, r, After(order))
  {
    if order == [] {
      assert At(s.rets, key) + [] == At(s.rets, key) && At(s.waiting, key) + [] == At(s.waiting, key);
    } else {
      var front := order[..|order| - 1];
      OrderComesTo(s, key, w, r, front);
      DoComesTo(s, DoAll(s, key, w, r, front), key, w, r, After(front), order[|order| - 1]);
    }
  }

  lemma FourMoves(a: Move, b: Move, c: Move, d: Move)
    ensures After([a, b, c, d]) == Progress(false, false, false).On(a).On(b).On(c).On(d)
  {
    assert [a, b, c, d][..3] == [a, b, c] && [a, b, c][..2] == [a, b] && [a, b][..1] == [a] && [a][..0] == [];
    assert After([a]) == Progress(false, false, false).On(a);
    assert After([a, b]) == Progress(false, false, false).On(a).On(b);
  }

  lemma MadeIn(order: seq<Move>)
    requires order in ORDERS
    ensures After(order).stored && After(order).waits
    ensures After(order).made <==> order != [Look, Store, Wake, Wait]
  {
    FourMoves(Look, Wait, Store, Wake);
    FourMoves(Look, Store, Wait, Wake);
    FourMoves(Look, Store, Wake, Wait);
    FourMoves(Store, Look, Wait, Wake);
    FourMoves(Store, Look, Wake, Wait);
    FourMoves(Store, Wake, Look, Wait);
  }

  lemma NoMoveTwice(order: seq<Move>)
    requires order in ORDERS
    ensures forall i, j :: 0 <= i < j < |order| ==> order[i] != order[j]
  {
  }

  /** The join is made in every order but one: the return must not be stored and wake while the call is
      between its look and its wait. */
  lemma LostInOneOrder(s: State, key: Key, w: Item, r: Item, order: seq<Move>)
    requires New(s, key, w, r) && order in ORDERS
    ensures var t := DoAll(s, key, w, r, order);
            && w in At(t.waiting, key) && r in At(t.rets, key)
            && (Pushed(t, Join(w, r)) <==> order != [Look, Store, Wake, Wait])
  {
    MadeIn(order);
    NoMoveTwice(order);
    OrderComesTo(s, key, w, r, order);
    assert r in At(s.rets, key) + [r] && w in At(s.waiting, key) + [w];
  }

  // ---- any number of calls and returns

  /** A call that has looked and does not wait yet; since are the returns of its key stored after it looked. */
  datatype Call = Call(key: Key, waiter: Item, since: set<Item>)

  /** A return that is stored and has not woken the waiters yet. */
  datatype Return = Return(key: Key, item: Item)

  datatype Pair = Pair(key: Key, waiter: Item, item: Item)

  /** The shared state, the calls and returns between their two sections, and the pairs of a call and a
      return of which the return was stored and woke inside the call. */
  datatype Threads = Threads(s: State, calls: seq<Call>, rets: seq<Return>, nested: set<Pair>)

  datatype Section =
    | Looks(key: Key, waiter: Item)
    | Waits(i: nat)
    | Stores(ret: Return)
    | Wakes(j: nat)
    | Takes(k: nat)

  function Without<T>(a: seq<T>, i: nat): seq<T>
    requires i < |a|
  {
    a[..i] + a[i + 1..]
  }

  function Notes(c: Call, r: Return): Call {
    if c.key == r.key then c.(since := c.since + {r.item}) else c
  }

  function NoteAll(calls: seq<Call>, r: Return): (n: seq<Call>)
    ensures |n| == |calls| && forall i :: 0 <= i < |n| ==> n[i] == Notes(calls[i], r)
  {
    seq(|calls|, i requires 0 <= i < |calls| => Notes(calls[i], r))
  }

  function NestedIn(calls: seq<Call>, r: Return): set<Pair> {
    set c | c in calls && c.key == r.key && r.item in c.since :: Pair(r.key, c.waiter, r.item)
  }

  /** One section of some thread, in the order of the source. A section that is not there changes nothing. */
  function Next(t: Threads, a: Section): Threads {
    match a
    case Looks(key, w) => t.(s := Replay(t.s, key, w), calls := t.calls + [Call(key, w, {})])
    case Waits(i) =>
      if i < |t.calls| then t.(s := Await(t.s, t.calls[i].key, t.calls[i].waiter), calls := Without(t.calls, i))
      else t
    case Stores(r) =>
      t.(s := Record(t.s, r.key, r.item), calls := NoteAll(t.calls, r), rets := t.rets + [r])
    case Wakes(j) =>
      if j < |t.rets| then
        t.(s := UarState.Wake(t.s, t.rets[j].key, t.rets[j].item), rets := Without(t.rets, j),
           nested := t.nested + NestedIn(t.calls, t.rets[j]))
      else t
    case Takes(k) => if k < |t.s.worklist| then t.(s := Pop(t.s, k)) else t
  }

  function Run(s: State, sections: seq<Section>): Threads {
    if sections == [] then Threads(s, [], [], {})
    else Next(Run(s, sections[..|sections| - 1]), sections[|sections| - 1])
  }

  /** The join of p is there, or the return of p has still to wake, or p is nested. */
  ghost predicate Explained(t: Threads, p: Pair) {
    Pushed(t.s, Join(p.waiter, p.item)) || Return(p.key, p.item) in t.rets || p in t.nested
  }

  ghost predicate WaitersMet(t: Threads) {
    forall k, w, r :: w in At(t.s.waiting, k) && r in At(t.s.rets, k) && Joinable(w, r) ==> Explained(t, Pair(k, w, r))
  }

  /** A call that has looked has met the returns stored before, and knows those stored since. */
  ghost predicate CallMet(t: Threads, c: Call) {
    forall r :: r in At(t.s.rets, c.key) && Joinable(c.waiter, r) ==>
      Pushed(t.s, Join(c.waiter, r)) || (r in c.since && Explained(t, Pair(c.key, c.waiter, r)))
  }

  ghost predicate Accounted(t: Threads) {
    WaitersMet(t) && forall c :: c in t.calls ==> CallMet(t, c)
  }

  lemma WithoutOne<T>(a: seq<T>, i: nat, x: T)
    requires i < |a|
    ensures x in a ==> x in Without(a, i) || x == a[i]
    ensures x in Without(a, i) ==> x in a
  {
  }

  lemma LooksAccounted(t: Threads, key: Key, w: Item)
    requires Accounted(t)
    ensures Accounted(Next(t, Looks(key, w)))
  {
    var n := Next(t, Looks(key, w));
    PushExtends(t.s, JoinsOfWaiter(w, At(t.s.rets, key)));
    forall k, v, r | v in At(n.s.waiting, k) && r in At(n.s.rets, k) && Joinable(v, r)
      ensures Explained(n, Pair(k, v, r))
    {
      assert Explained(t, Pair(k, v, r));
    }
    forall c | c in n.calls ensures CallMet(n, c) {
      if c in t.calls {
        assert CallMet(t, c);
      } else {
        forall r | r in At(n.s.rets, key) && Joinable(w, r) ensures Pushed(n.s, Join(w, r)) {
          AllJoinsOfWaiter(w, At(t.s.rets, key), r);
        }
      }
    }
  }

  lemma WaitsAccounted(t: Threads, i: nat)
    requires Accounted(t) && i < |t.calls|
    ensures Accounted(Next(t, Waits(i)))
  {
    var c, n := t.calls[i], Next(t, Waits(i));
    InsertHolds(At(t.s.waiting, c.key), c.waiter);
    forall x ensures Pushed(n.s, x) <==> Pushed(t.s, x) {}
    assert CallMet(t, c);
    forall k, w, r | w in At(n.s.waiting, k) && r in At(n.s.rets, k) && Joinable(w, r)
      ensures Explained(n, Pair(k, w, r))
    {
      if w in At(t.s.waiting, k) {
        assert Explained(t, Pair(k, w, r));
      }
    }
    forall d | d in n.calls ensures CallMet(n, d) {
      WithoutOne(t.calls, i, d);
      assert CallMet(t, d);
    }
  }

  lemma StoresAccounted(t: Threads, r: Return)
    requires Accounted(t)
    ensures Accounted(Next(t, Stores(r)))
  {
    var n := Next(t, Stores(r));
    InsertHolds(At(t.s.rets, r.key), r.item);
    assert r in n.rets && forall x :: x in t.rets ==> x in n.rets;
    forall x ensures Pushed(n.s, x) <==> Pushed(t.s, x) {}
    forall k, w, q | w in At(n.s.waiting, k) && q in At(n.s.rets, k) && Joinable(w, q)
      ensures Explained(n, Pair(k, w, q))
    {
      assert q in At(t.s.rets, k) ==> Explained(t, Pair(k, w, q));
    }
    forall d | d in n.calls ensures CallMet(n, d) {
      var i :| 0 <= i < |n.calls| && n.calls[i] == d;
      assert CallMet(t, t.calls[i]);
      NotedMet(t, n, t.calls[i], r);
    }
  }

  lemma NotedMet(t: Threads, n: Threads, c: Call, r: Return)
    requires CallMet(t, c) && n.s == Record(t.s, r.key, r.item) && n.rets == t.rets + [r] && n.nested == t.nested
    ensures CallMet(n, Notes(c, r))
  {
    InsertHolds(At(t.s.rets, r.key), r.item);
    assert r in n.rets && forall x :: x in t.rets ==> x in n.rets;
    forall x ensures Pushed(n.s, x) <==> Pushed(t.s, x) {}
  }

  lemma WakesAccounted(t: Threads, j: nat)
    requires Accounted(t) && j < |t.rets|
    ensures Accounted(Next(t, Wakes(j)))
  {
    var q, n := t.rets[j], Next(t, Wakes(j));
    PushExtends(t.s, JoinsOfReturn(At(t.s.waiting, q.key), q.item));
    forall k, w, r | w in At(n.s.waiting, k) && r in At(n.s.rets, k) && Joinable(w, r)
      ensures Explained(n, Pair(k, w, r))
    {
      assert Explained(t, Pair(k, w, r));
      WithoutOne(t.rets, j, Return(k, r));
      if Return(k, r) == q {
        AllJoinsOfReturn(At(t.s.waiting, k), w, r);
      }
    }
    forall c | c in n.calls ensures CallMet(n, c) {
      assert CallMet(t, c);
      WokenMet(t, j, c);
    }
  }

  lemma WokenMet(t: Threads, j: nat, c: Call)
    requires j < |t.rets| && c in t.calls && CallMet(t, c)
    ensures CallMet(Next(t, Wakes(j)), c)
  {
    var q, n := t.rets[j], Next(t, Wakes(j));
    PushExtends(t.s, JoinsOfReturn(At(t.s.waiting, q.key), q.item));
    forall r | r in At(n.s.rets, c.key) && Joinable(c.waiter, r) && !Pushed(n.s, Join(c.waiter, r))
      ensures r in c.since && Explained(n, Pair(c.key, c.waiter, r))
    {
      WithoutOne(t.rets, j, Return(c.key, r));
      if Return(c.key, r) == q {
        assert Pair(c.key, c.waiter, r) in NestedIn(t.calls, q);
      }
    }
  }

  lemma TakesAccounted(t: Threads, k: nat)
    requires Accounted(t) && k < |t.s.worklist|
    ensures Accounted(Next(t, Takes(k)))
  {
    var n := Next(t, Takes(k));
    PopKeeps(t.s, k);
    forall p ensures Explained(n, p) <==> Explained(t, p) {}
    forall c | c in n.calls ensures CallMet(n, c) {
      assert CallMet(t, c);
    }
  }

  lemma {:induction false} AlwaysAccounted(s: State, sections: seq<Section>)
    requires JoinsClosed(s)
    ensures Accounted(Run(s, sections))
  {
    if sections != [] {
      var t := Run(s, sections[..|sections| - 1]);
      AlwaysAccounted(s, sections[..|sections| - 1]);
      match sections[|sections| - 1]
      case Looks(key, w) => LooksAccounted(t, key, w);
      case Waits(i) => if i < |t.calls| { WaitsAccounted(t, i); }
      case Stores(r) => StoresAccounted(t, r);
      case Wakes(j) => if j < |t.rets| { WakesAccounted(t, j); }
      case Takes(k) => if k < |t.s.worklist| { TakesAccounted(t, k); }
    }
  }

  /** The join of a waiter and a return that are both kept is not there. */
  ghost predicate Missing(s: State, p: Pair) {
    p.waiter in At(s.waiting, p.key) && p.item in At(s.rets, p.key) && Joinable(p.waiter, p.item)
    && !Pushed(s, Join(p.waiter, p.item))
  }

  /** Whatever the interleaving, when no return is under way only joins of nested pairs can be missing. */
  lemma OnlyNestedAreMissing(s: State, sections: seq<Section>, p: Pair)
    requires JoinsClosed(s) && Run(s, sections).rets == [] && Missing(Run(s, sections).s, p)
    ensures p in Run(s, sections).nested
  {
    AlwaysAccounted(s, sections);
    assert Explained(Run(s, sections), Pair(p.key, p.waiter, p.item));
  }

  /** So no join is missing exactly if every nested pair that was kept was joined by some other section. */
  lemma ClosedIffNestedAreJoined(s: State, sections: seq<Section>)
    requires JoinsClosed(s) && Run(s, sections).rets == []
    ensures var t := Run(s, sections); JoinsClosed(t.s) <==> forall p :: p in t.nested ==> !Missing(t.s, p)
  {
    var t := Run(s, sections);
    if !JoinsClosed(t.s) {
      var k, w, r :| w in At(t.s.waiting, k) && r in At(t.s.rets, k) && Joinable(w, r) && !Pushed(t.s, Join(w, r));
      assert Missing(t.s, Pair(k, w, r));
      OnlyNestedAreMissing(s, sections, Pair(k, w, r));
    }
  }

  lemma RunMore(s: State, sections: seq<Section>, a: Section)
    ensures Run(s, sections + [a]) == Next(Run(s, sections), a)
  {
    var more := sections + [a];
    assert more[..|more| - 1] == sections && more[|more| - 1] == a;
  }

  lemma DoMore(s: State, key: Key, w: Item, r: Item, order: seq<Move>, m: Move)
    ensures DoAll(s, key, w, r, order + [m]) == Do(DoAll(s, key, w, r, order), key, w, r, m)
  {
    var more := order + [m];
    assert more[..|more| - 1] == order && more[|more| - 1] == m;
  }

  lemma Prefixes<T>(a: T, b: T, c: T, d: T)
    ensures [] + [a] == [a] && [a] + [b] == [a, b] && [a, b] + [c] == [a, b, c] && [a, b, c] + [d] == [a, b, c, d]
  {
  }

  lemma RunFour(s: State, a: Section, b: Section, c: Section, d: Section)
    ensures Run(s, [a, b, c, d]) == Next(Next(Next(Next(Threads(s, [], [], {}), a), b), c), d)
  {
    Prefixes(a, b, c, d);
    RunMore(s, [], a);
    RunMore(s, [a], b);
    RunMore(s, [a, b], c);
    RunMore(s, [a, b, c], d);
  }

  lemma DoFour(s: State, key: Key, w: Item, r: Item, a: Move, b: Move, c: Move, d: Move)
    ensures DoAll(s, key, w, r, [a, b, c, d]) ==
            Do(Do(Do(Do(s, key, w, r, a), key, w, r, b), key, w, r, c), key, w, r, d)
  {
    Prefixes(a, b, c, d);
    DoMore(s, key, w, r, [], a);
    DoMore(s, key, w, r, [a], b);
    DoMore(s, key, w, r, [a, b], c);
    DoMore(s, key, w, r, [a, b, c], d);
  }

  lemma FirstLooks(s: State, key: Key, w: Item)
    ensures Next(Threads(s, [], [], {}), Looks(key, w)) == Threads(Replay(s, key, w), [Call(key, w, {})], [], {})
  {
    assert [] + [Call(key, w, {})] == [Call(key, w, {})];
  }

  lemma ThenStores(s: State, c: Call, r: Return)
    requires c.key == r.key
    ensures Next(Threads(s, [c], [], {}), Stores(r)) == Threads(Record(s, r.key, r.item), [Notes(c, r)], [r], {})
  {
    OneCallNested(c, r);
    assert [] + [r] == [r];
  }

  lemma ThenWakes(s: State, c: Call, r: Return)
    requires c.key == r.key && r.item in c.since
    ensures Next(Threads(s, [c], [r], {}), Wakes(0))
            == Threads(UarState.Wake(s, r.key, r.item), [c], [], {Pair(r.key, c.waiter, r.item)})
  {
    assert Notes(c, r).since == c.since;
    assert Notes(c, r) == c;
    OneCallNested(c, r);
    assert Without([r], 0) == [];
    assert {} + {Pair(r.key, c.waiter, r.item)} == {Pair(r.key, c.waiter, r.item)};
  }

  lemma LastWaits(s: State, c: Call, n: set<Pair>)
    ensures Next(Threads(s, [c], [], n), Waits(0)) == Threads(Await(s, c.key, c.waiter), [], [], n)
  {
    assert Without([c], 0) == [];
  }

  /** The order that loses a join is that of a nested pair. */
  lemma LosingSections(s: State, key: Key, w: Item, r: Item)
    ensures Run(s, [Looks(key, w), Stores(Return(key, r)), Wakes(0), Waits(0)])
            == Threads(DoAll(s, key, w, r, [Look, Store, Wake, Wait]), [], [], {Pair(key, w, r)})
  {
    var c, ret := Call(key, w, {}), Return(key, r);
    RunFour(s, Looks(key, w), Stores(ret), Wakes(0), Waits(0));
    DoFour(s, key, w, r, Look, Store, Wake, Wait);
    FirstLooks(s, key, w);
    ThenStores(Replay(s, key, w), c, ret);
    ThenWakes(Record(Replay(s, key, w), key, r), Notes(c, ret), ret);
    LastWaits(UarState.Wake(Record(Replay(s, key, w), key, r), key, r), Notes(c, ret), {Pair(key, w, r)});
  }

  /** Where nobody waits and nothing is stored, they leave nothing to do, and a join missing. */
  lemma SectionsLose(s: State, key: Key, w: Item, r: Item)
    requires New(s, key, w, r) && At(s.waiting, key) == [] == At(s.rets, key)
    ensures var t := Run(s, [Looks(key, w), Stores(Return(key, r)), Wakes(0), Waits(0)]);
            && t.calls == [] && t.rets == [] && t.nested == {Pair(key, w, r)} && Missing(t.s, Pair(key, w, r))
            && t.s.worklist == s.worklist && t.s.oosNodes == s.oosNodes && t.s.dirOosNodes == s.dirOosNodes
  {
    LosingSections(s, key, w, r);
    LostInOneOrder(s, key, w, r, [Look, Store, Wake, Wait]);
    DoFour(s, key, w, r, Look, Store, Wake, Wait);
    NothingPushed(s, key, w, r);
  }

  lemma NothingPushed(s: State, key: Key, w: Item, r: Item)
    requires At(s.waiting, key) == [] == At(s.rets, key)
    ensures var t := Await(UarState.Wake(Record(Replay(s, key, w), key, r), key, r), key, w);
            t.worklist == s.worklist && t.oosNodes == s.oosNodes && t.dirOosNodes == s.dirOosNodes
  {
    assert JoinsOfWaiter(w, []) == [] && JoinsOfReturn([], r) == [] && s.worklist + [] + [] == s.worklist;
  }

  lemma OneCallNested(c: Call, r: Return)
    requires c.key == r.key
    ensures NoteAll([c], r) == [Notes(c, r)]
    ensures NestedIn([Notes(c, r)], r) == {Pair(r.key, c.waiter, r.item)}
  {
    assert Notes(c, r) in [Notes(c, r)];
  }

  /** No return wakes while a call is between its sections. */
  ghost predicate CallsAreAlone(s: State, sections: seq<Section>) {
    forall i :: 0 <= i < |sections| && sections[i].Wakes? ==> Run(s, sections[..i]).calls == []
  }

  lemma {:induction false} AloneNestsNothing(s: State, sections: seq<Section>)
    requires CallsAreAlone(s, sections)
    ensures Run(s, sections).nested == {}
  {
    if sections != [] {
      var init := sections[..|sections| - 1];
      forall i | 0 <= i < |init| && init[i].Wakes? ensures Run(s, init[..i]).calls == [] {
        assert init[..i] == sections[..i] && sections[i] == init[i];
      }
      AloneNestsNothing(s, init);
    }
  }

  /** Then no join is missing: one thread, or one lock around the sections of a call and around a wake, is enough. */
  lemma AloneLosesNothing(s: State, sections: seq<Section>)
    requires JoinsClosed(s) && CallsAreAlone(s, sections) && Run(s, sections).rets == []
    ensures JoinsClosed(Run(s, sections).s)
  {
    AloneNestsNothing(s, sections);
    ClosedIffNestedAreJoined(s, sections);
  }
}
