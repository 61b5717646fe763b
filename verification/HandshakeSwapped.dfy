/** A remark on the handshake: if a call joined the waiters first and looked at the recorded returns second,
    no interleaving would lose a join. */
module HandshakeSwapped {
  import opened UarState
  import opened UarJoins

  datatype Call = Call(key: Key, waiter: Item)
  datatype Return = Return(key: Key, item: Item)

  /** The shared state, and the calls and returns that are between their two sections. */
  datatype Threads = Threads(s: State, calls: seq<Call>, rets: seq<Return>)

  datatype Section =
    | Waits(call: Call)
    | Looks(i: nat)
    | Stores(ret: Return)
    | Wakes(j: nat)
    | Takes(k: nat)

  function Without<T>(a: seq<T>, i: nat): seq<T>
    requires i < |a|
  {
    a[..i] + a[i + 1..]
  }

  /** One section of some thread. A section that is not there changes nothing. */
  function Next(t: Threads, a: Section): Threads {
    match a
    case Waits(c) => t.(s := Await(t.s, c.key, c.waiter), calls := t.calls + [c])
    case Looks(i) =>
      if i < |t.calls| then
        t.(s := Replay(t.s, t.calls[i].key, t.calls[i].waiter), calls := Without(t.calls, i))
      else t
    case Stores(r) => t.(s := Record(t.s, r.key, r.item), rets := t.rets + [r])
    case Wakes(j) =>
      if j < |t.rets| then
        t.(s := Wake(t.s, t.rets[j].key, t.rets[j].item), rets := Without(t.rets, j))
      else t
    case Takes(k) => if k < |t.s.worklist| then t.(s := Pop(t.s, k)) else t
  }

  function Run(s: State, sections: seq<Section>): Threads {
    if sections == [] then Threads(s, [], [])
    else Next(Run(s, sections[..|sections| - 1]), sections[|sections| - 1])
  }

  /** A join that is still missing will be made by the caller or by the return, which has a section to go. */
  ghost predicate Accounted(t: Threads) {
    forall k, w, r :: w in At(t.s.waiting, k) && r in At(t.s.rets, k) && Joinable(w, r) ==>
      Pushed(t.s, Join(w, r)) || Call(k, w) in t.calls || Return(k, r) in t.rets
  }

  lemma WithoutOne<T>(a: seq<T>, i: nat, x: T)
    requires i < |a|
    ensures x in a ==> x in Without(a, i) || x == a[i]
  {
  }

  lemma WaitsAccounted(t: Threads, c: Call)
    requires Accounted(t)
    ensures Accounted(Next(t, Waits(c)))
  {
    var n := Next(t, Waits(c));
    InsertHolds(At(t.s.waiting, c.key), c.waiter);
    assert c in n.calls && forall x :: x in t.calls ==> x in n.calls;
    forall x ensures Pushed(n.s, x) <==> Pushed(t.s, x) {}
  }

  lemma StoresAccounted(t: Threads, r: Return)
    requires Accounted(t)
    ensures Accounted(Next(t, Stores(r)))
  {
    var n := Next(t, Stores(r));
    InsertHolds(At(t.s.rets, r.key), r.item);
    assert r in n.rets && forall x :: x in t.rets ==> x in n.rets;
    forall x ensures Pushed(n.s, x) <==> Pushed(t.s, x) {}
  }

  lemma LooksAccounted(t: Threads, i: nat)
    requires Accounted(t) && i < |t.calls|
    ensures Accounted(Next(t, Looks(i)))
  {
    var c, n := t.calls[i], Next(t, Looks(i));
    PushExtends(t.s, JoinsOfWaiter(c.waiter, At(t.s.rets, c.key)));
    forall k, w, r | w in At(n.s.waiting, k) && r in At(n.s.rets, k) && Joinable(w, r) && !Pushed(n.s, Join(w, r))
      ensures Call(k, w) in n.calls || Return(k, r) in n.rets
    {
      WithoutOne(t.calls, i, Call(k, w));
      if Call(k, w) == c {
        AllJoinsOfWaiter(w, At(t.s.rets, k), r);
      }
    }
  }

  lemma WakesAccounted(t: Threads, j: nat)
    requires Accounted(t) && j < |t.rets|
    ensures Accounted(Next(t, Wakes(j)))
  {
    var q, n := t.rets[j], Next(t, Wakes(j));
    PushExtends(t.s, JoinsOfReturn(At(t.s.waiting, q.key), q.item));
    forall k, w, r | w in At(n.s.waiting, k) && r in At(n.s.rets, k) && Joinable(w, r) && !Pushed(n.s, Join(w, r))
      ensures Call(k, w) in n.calls || Return(k, r) in n.rets
    {
      WithoutOne(t.rets, j, Return(k, r));
      if Return(k, r) == q {
        AllJoinsOfReturn(At(t.s.waiting, k), w, r);
      }
    }
  }

  lemma NextAccounted(t: Threads, a: Section)
    requires Accounted(t)
    ensures Accounted(Next(t, a))
  {
    match a
    case Waits(c) => WaitsAccounted(t, c);
    case Looks(i) => if i < |t.calls| { LooksAccounted(t, i); }
    case Stores(r) => StoresAccounted(t, r);
    case Wakes(j) => if j < |t.rets| { WakesAccounted(t, j); }
    case Takes(k) => if k < |t.s.worklist| { PopKeeps(t.s, k); }
  }

  lemma NothingUnderWay(t: Threads)
    requires Accounted(t) && t.calls == [] && t.rets == []
    ensures JoinsClosed(t.s)
  {
  }

  /** Whatever the interleaving: when no call and no return is between its sections, no join is missing. */
  lemma NoneSlipsThrough(s: State, sections: seq<Section>)
    requires JoinsClosed(s)
    ensures var t := Run(s, sections); t.calls == [] && t.rets == [] ==> JoinsClosed(t.s)
  {
    AlwaysAccounted(s, sections);
    var t := Run(s, sections);
    if t.calls == [] && t.rets == [] {
      NothingUnderWay(t);
    }
  }

  lemma {:induction false} AlwaysAccounted(s: State, sections: seq<Section>)
    requires JoinsClosed(s)
    ensures Accounted(Run(s, sections))
  {
    if sections != [] {
      AlwaysAccounted(s, sections[..|sections| - 1]);
      NextAccounted(Run(s, sections[..|sections| - 1]), sections[|sections| - 1]);
    }
  }
}
