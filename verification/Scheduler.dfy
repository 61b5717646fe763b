/** How the threads of the checker share their work and find out that there is none left: one list
    per thread, one list for all, one flag per thread, and the critical sections that guard them.
    Every step below is one critical section or one access to a shared variable. */
module Scheduler {
  import UarState

  type Item = UarState.Item

  /** Where a thread is in its loop. */
  datatype Pc =
    | Idle                                           // about to take an item
    | Popped(item: Item)                             // holds the lock of the shared list, flag not reset yet
    | Cleared(item: Item)                            // holds the lock, flag reset
    | Busy(item: Item)                               // handles its item
    | Wanting(item: Item, next: Item)                // is about to enter the section of the started functions
    | Pushing(item: Item, next: Item, shared: bool, guarded: bool) // has read which list the new item goes to
    | Missed                                         // found both lists empty
    | Flagged                                        // has set its flag
    | Signalled                                      // has asked the others to share
    | Finished
  {
    predicate Locks() { Popped? || Cleared? }
    predicate Guards() { Pushing? && guarded }
    predicate Holds() { Popped? || Cleared? || Busy? || Wanting? || Pushing? }
    predicate Failed() { Missed? || Flagged? || Signalled? || Finished? }
  }

  /** pushed and handled count the items over the whole run. */
  datatype Pool = Pool(global: seq<Item>,
                       local: seq<seq<Item>>,
                       idle: seq<bool>,
                       dispatcher: bool,
                       pc: seq<Pc>,
                       pushed: multiset<Item>,
                       handled: multiset<Item>)

  datatype Action =
    | TakeLocal(fifo: bool)
    | TakeGlobal(fifo: bool)
    | ClearFlag
    | Release
    | Miss
    | SetFlag
    | Signal
    | Check
    | Choose(next: Item)
    | Want(next: Item)
    | Guard
    | Skip
    | Put
    | Complete

  predicate Shaped(s: Pool) {
    |s.local| == |s.idle| == |s.pc|
  }

  predicate LockFree(s: Pool) {
    forall t :: 0 <= t < |s.pc| ==> !s.pc[t].Locks()
  }

  /** No thread is inside the section of the started functions. */
  predicate GuardFree(s: Pool) {
    forall t :: 0 <= t < |s.pc| ==> !s.pc[t].Guards()
  }

  predicate AllIdle(s: Pool) {
    forall t :: 0 <= t < |s.idle| ==> s.idle[t]
  }

  predicate Enabled(s: Pool, t: nat, a: Action)
    requires Shaped(s)
  {
    t < |s.pc| &&
    var p := s.pc[t];
    match a
    case TakeLocal(_) => p.Idle? && s.local[t] != []
    case TakeGlobal(_) => p.Idle? && s.local[t] == [] && LockFree(s) && s.global != []
    case ClearFlag => p.Popped?
    case Release => p.Cleared?
    case Miss => p.Idle? && s.local[t] == [] && LockFree(s) && s.global == []
    case SetFlag => p.Missed?
    case Signal => p.Flagged?
    case Check => p.Signalled?
    case Choose(_) => p.Busy?
    case Want(_) => p.Busy?
    case Guard => p.Wanting? && GuardFree(s)
    case Skip => p.Wanting? && GuardFree(s)
    case Put => p.Pushing? && (p.shared ==> LockFree(s))
    case Complete => p.Busy?
  }

  function First(l: seq<Item>, fifo: bool): Item
    requires l != []
  {
    if fifo then l[0] else l[|l| - 1]
  }

  function Rest(l: seq<Item>, fifo: bool): seq<Item>
    requires l != []
  {
    if fifo then l[1..] else l[..|l| - 1]
  }

  function Goto(s: Pool, t: nat, p: Pc): Pool
    requires t < |s.pc|
  {
    s.(pc := s.pc[t := p])
  }

  function Next(s: Pool, t: nat, a: Action): Pool
    requires Shaped(s) && Enabled(s, t, a)
  {
    var p := s.pc[t];
    match a
    case TakeLocal(fifo) =>
      Goto(s, t, Busy(First(s.local[t], fifo))).(local := s.local[t := Rest(s.local[t], fifo)])
    case TakeGlobal(fifo) =>
      Goto(s, t, Popped(First(s.global, fifo))).(global := Rest(s.global, fifo))
    case ClearFlag => Goto(s, t, Cleared(p.item)).(idle := s.idle[t := false])
    case Release => Goto(s, t, Busy(p.item)).(dispatcher := false)
    case Miss => Goto(s, t, Missed)
    case SetFlag => Goto(s, t, Flagged).(idle := s.idle[t := true])
    case Signal => Goto(s, t, Signalled).(dispatcher := true)
    case Check => Goto(s, t, if AllIdle(s) then Finished else Idle)
    case Choose(y) => Goto(s, t, Pushing(p.item, y, s.dispatcher, false))
    case Want(y) => Goto(s, t, Wanting(p.item, y))
    case Guard => Goto(s, t, Pushing(p.item, p.next, s.dispatcher, true))
    case Skip => Goto(s, t, Busy(p.item))
    case Put =>
      var s1 := Goto(s, t, Busy(p.item)).(pushed := s.pushed + multiset{p.next});
      if p.shared then s1.(global := s.global + [p.next])
      else s1.(local := s.local[t := s.local[t] + [p.next]])
    case Complete => Goto(s, t, Idle).(handled := s.handled + multiset{p.item})
  }

  /** The start of a phase: one item in the shared list; the flags are whatever the phase before left. */
  ghost predicate Initial(s: Pool) {
    && Shaped(s) && |s.pc| > 0 && |s.global| == 1
    && (forall t :: 0 <= t < |s.pc| ==> s.pc[t].Idle? && s.local[t] == [])
    && s.pushed == multiset(s.global) && s.handled == multiset{}
  }

  /** A run of the threads: any interleaving of their steps. */
  ghost predicate Execution(run: seq<Pool>) {
    && run != [] && Initial(run[0])
    && forall i :: 0 < i < |run| ==> StepTo(run[i - 1], run[i])
  }

  ghost predicate StepTo(r: Pool, s: Pool) {
    exists t, a :: Moves(r, t, a, s)
  }

  ghost predicate Moves(r: Pool, t: nat, a: Action, s: Pool) {
    Shaped(r) && Enabled(r, t, a) && s == Next(r, t, a)
  }

  // ---- what is still to do

  function Total(counts: seq<nat>): nat {
    if counts == [] then 0 else Total(counts[..|counts| - 1]) + counts[|counts| - 1]
  }

  /** Copies of x in each thread's own list. */
  function InLists(local: seq<seq<Item>>, x: Item): (c: seq<nat>) {
    seq(|local|, i requires 0 <= i < |local| => multiset(local[i])[x])
  }

  function Held(p: Pc, x: Item): nat {
    if p.Holds() && p.item == x then 1 else 0
  }

  /** Copies of x in each thread's hands. */
  function InHands(pc: seq<Pc>, x: Item): (c: seq<nat>) {
    seq(|pc|, i requires 0 <= i < |pc| => Held(pc[i], x))
  }

  function Copies(s: Pool, x: Item): nat {
    multiset(s.global)[x] + Total(InLists(s.local, x)) + Total(InHands(s.pc, x))
  }

  /** No item is left anywhere. */
  ghost predicate Quiet(s: Pool)
    requires Shaped(s)
  {
    && s.global == []
    && forall t :: 0 <= t < |s.pc| ==> s.local[t] == [] && !s.pc[t].Holds()
  }

  // ---- the invariant

  /** A thread that has work has its flag down, except between taking an item and lowering the flag,
      and then it holds the lock of the shared list. */
  ghost predicate WorkersFlagged(s: Pool)
    requires Shaped(s)
  {
    forall t :: 0 <= t < |s.pc| ==> WorkerFlagged(s.pc[t], s.local[t], s.idle[t])
  }

  predicate WorkerFlagged(p: Pc, local: seq<Item>, idle: bool) {
    && ((p.Holds() && !p.Popped?) || local != [] ==> !idle && !p.Failed())
    && (p.Popped? ==> local == [])
  }

  ghost predicate OneLock(s: Pool) {
    forall t, u :: 0 <= t < u < |s.pc| ==> Exclusive(s.pc[t], s.pc[u])
  }

  predicate Exclusive(p: Pc, q: Pc) {
    !(p.Locks() && q.Locks()) && !(p.Guards() && q.Guards())
  }

  /** Thread v has not given up and its flag is down. */
  ghost predicate Live(s: Pool, v: int)
    requires Shaped(s)
  {
    0 <= v < |s.pc| && !s.pc[v].Failed() && !s.idle[v]
  }

  ghost predicate SomeoneFailed(s: Pool) {
    exists t :: 0 <= t < |s.pc| && s.pc[t].Failed()
  }

  ghost predicate SomeoneLive(s: Pool)
    requires Shaped(s)
  {
    exists v :: Live(s, v)
  }

  /** If some thread found nothing although there is work, some thread that has not given up has its
      flag down. */
  ghost predicate WorkIsShown(s: Pool)
    requires Shaped(s)
  {
    SomeoneFailed(s) && !Quiet(s) ==> SomeoneLive(s)
  }

  /** Of every item, as many copies were pushed as have been handled or are still somewhere. */
  ghost predicate Conserved(s: Pool) {
    forall x :: s.pushed[x] == s.handled[x] + Copies(s, x)
  }

  ghost predicate Inv(s: Pool) {
    && Shaped(s)
    && WorkersFlagged(s)
    && OneLock(s)
    && WorkIsShown(s)
    && Conserved(s)
  }

  // ---- conservation of items

  lemma {:induction false} TotalUpdate(counts: seq<nat>, t: nat, n: nat)
    requires t < |counts|
    ensures Total(counts[t := n]) + counts[t] == Total(counts) + n
  {
    var init, last := counts[..|counts| - 1], counts[|counts| - 1];
    var upd := counts[t := n];
    if t == |counts| - 1 {
      assert upd[..|upd| - 1] == init;
    } else {
      TotalUpdate(init, t, n);
      assert upd[..|upd| - 1] == init[t := n] && upd[|upd| - 1] == last;
    }
  }

  lemma ListUpdate(local: seq<seq<Item>>, t: nat, l: seq<Item>, x: Item)
    requires t < |local|
    ensures Total(InLists(local[t := l], x)) + multiset(local[t])[x] == Total(InLists(local, x)) + multiset(l)[x]
  {
    TotalUpdate(InLists(local, x), t, multiset(l)[x]);
    assert InLists(local[t := l], x) == InLists(local, x)[t := multiset(l)[x]];
  }

  lemma HandUpdate(pc: seq<Pc>, t: nat, p: Pc, x: Item)
    requires t < |pc|
    ensures Total(InHands(pc[t := p], x)) + Held(pc[t], x) == Total(InHands(pc, x)) + Held(p, x)
  {
    TotalUpdate(InHands(pc, x), t, Held(p, x));
    assert InHands(pc[t := p], x) == InHands(pc, x)[t := Held(p, x)];
  }

  lemma {:induction false} TotalOfNothing(counts: seq<nat>)
    requires forall t :: 0 <= t < |counts| ==> counts[t] == 0
    ensures Total(counts) == 0
  {
    if counts != [] { TotalOfNothing(counts[..|counts| - 1]); }
  }

  lemma TakeSplits(l: seq<Item>, fifo: bool, x: Item)
    requires l != []
    ensures multiset(l)[x] == multiset(Rest(l, fifo))[x] + (if First(l, fifo) == x then 1 else 0)
  {
    if fifo {
      assert l == [l[0]] + l[1..];
    } else {
      assert l == l[..|l| - 1] + [l[|l| - 1]];
    }
  }

  lemma NothingLeft(s: Pool, x: Item)
    requires Shaped(s) && forall t :: 0 <= t < |s.pc| ==> s.local[t] == [] && !s.pc[t].Holds()
    ensures Copies(s, x) == multiset(s.global)[x]
  {
    TotalOfNothing(InLists(s.local, x));
    TotalOfNothing(InHands(s.pc, x));
  }

  lemma QuietIsEmpty(s: Pool)
    requires Shaped(s) && Quiet(s) && Conserved(s)
    ensures s.pushed == s.handled
  {
    forall x ensures s.pushed[x] == s.handled[x] {
      NothingLeft(s, x);
    }
  }

  /** What a step adds to the copies of x: one when it puts x down, minus one when it completes x. */
  lemma CopiesChange(s: Pool, t: nat, a: Action, x: Item)
    requires Shaped(s) && Enabled(s, t, a)
    ensures var r := Next(s, t, a);
            Copies(r, x) == Copies(s, x) + (if a.Put? && s.pc[t].next == x then 1 else 0)
                                         - (if a.Complete? && s.pc[t].item == x then 1 else 0)
  {
    match a
    case TakeLocal(fifo) => TakingKeepsCopies(s, t, a, fifo, x);
    case TakeGlobal(fifo) => TakingKeepsCopies(s, t, a, fifo, x);
    case Put => PuttingAddsCopy(s, t, x);
    case _ => MovingKeepsLists(s, t, a, x);
  }

  lemma MovingKeepsLists(s: Pool, t: nat, a: Action, x: Item)
    requires Shaped(s) && Enabled(s, t, a) && !a.TakeLocal? && !a.TakeGlobal? && !a.Put?
    ensures Copies(Next(s, t, a), x) + (if a.Complete? && s.pc[t].item == x then 1 else 0) == Copies(s, x)
  {
    var r := Next(s, t, a);
    HandUpdate(s.pc, t, r.pc[t], x);
    assert r.pc == s.pc[t := r.pc[t]] && r.local == s.local && r.global == s.global;
    assert Held(r.pc[t], x) + (if a.Complete? && s.pc[t].item == x then 1 else 0) == Held(s.pc[t], x);
  }

  lemma TakingKeepsCopies(s: Pool, t: nat, a: Action, fifo: bool, x: Item)
    requires Shaped(s) && Enabled(s, t, a) && (a == TakeLocal(fifo) || a == TakeGlobal(fifo))
    ensures Copies(Next(s, t, a), x) == Copies(s, x)
  {
    var r := Next(s, t, a);
    HandUpdate(s.pc, t, r.pc[t], x);
    if a.TakeLocal? {
      TakeSplits(s.local[t], fifo, x);
      ListUpdate(s.local, t, Rest(s.local[t], fifo), x);
    } else {
      TakeSplits(s.global, fifo, x);
    }
  }

  lemma PuttingAddsCopy(s: Pool, t: nat, x: Item)
    requires Shaped(s) && Enabled(s, t, Put)
    ensures Copies(Next(s, t, Put), x) == Copies(s, x) + (if s.pc[t].next == x then 1 else 0)
  {
    HandUpdate(s.pc, t, Next(s, t, Put).pc[t], x);
    if !s.pc[t].shared { ListUpdate(s.local, t, s.local[t] + [s.pc[t].next], x); }
  }

  /** Every step moves items about or pushes or completes one; none is lost and none is doubled. */
  lemma ItemsConserved(s: Pool, t: nat, a: Action)
    requires Shaped(s) && Enabled(s, t, a) && Conserved(s)
    ensures Conserved(Next(s, t, a))
  {
    var r := Next(s, t, a);
    forall x ensures r.pushed[x] == r.handled[x] + Copies(r, x) {
      CopiesChange(s, t, a, x);
    }
  }

  // ---- the invariant is kept

  lemma WorkersStayFlagged(s: Pool, t: nat, a: Action)
    requires Shaped(s) && WorkersFlagged(s) && Enabled(s, t, a)
    ensures WorkersFlagged(Next(s, t, a))
  {
    var r := Next(s, t, a);
    assert WorkerFlagged(s.pc[t], s.local[t], s.idle[t]);
    forall u | 0 <= u < |r.pc| ensures WorkerFlagged(r.pc[u], r.local[u], r.idle[u]) {
      assert WorkerFlagged(s.pc[u], s.local[u], s.idle[u]);
    }
  }

  lemma LockStaysSingle(s: Pool, t: nat, a: Action)
    requires Shaped(s) && OneLock(s) && Enabled(s, t, a)
    ensures OneLock(Next(s, t, a))
  {
    var r := Next(s, t, a);
    forall u, v | 0 <= u < v < |r.pc| ensures Exclusive(r.pc[u], r.pc[v]) {
      assert Exclusive(s.pc[u], s.pc[v]);
    }
  }

  /** The heart of the argument: a thread that finds both lists empty does so while no other thread
      is between taking an item and lowering its flag, so whoever still has work shows it. */
  lemma MissSeesWork(s: Pool, t: nat)
    requires Inv(s) && Enabled(s, t, Miss) && !Quiet(s)
    ensures exists v :: Live(s, v) && v != t
  {
    var u :| 0 <= u < |s.pc| && (s.local[u] != [] || s.pc[u].Holds());
    assert Live(s, u) && u != t;
  }

  lemma QuietStep(s: Pool, t: nat, a: Action)
    requires Shaped(s) && Quiet(s) && Enabled(s, t, a)
    ensures Quiet(Next(s, t, a))
    ensures Next(s, t, a).pushed == s.pushed && Next(s, t, a).handled == s.handled
  {
  }

  lemma LiveStays(s: Pool, t: nat, a: Action, v: int)
    requires Shaped(s) && Enabled(s, t, a) && Live(s, v) && (a.Miss? ==> v != t)
    ensures Live(Next(s, t, a), v)
  {
  }

  lemma FailedBefore(s: Pool, t: nat, a: Action)
    requires Shaped(s) && Enabled(s, t, a) && SomeoneFailed(Next(s, t, a)) && !a.Miss?
    ensures SomeoneFailed(s)
  {
  }

  lemma WorkStaysShown(s: Pool, t: nat, a: Action)
    requires Inv(s) && Enabled(s, t, a)
    ensures WorkIsShown(Next(s, t, a))
  {
    var r := Next(s, t, a);
    if SomeoneFailed(r) && !Quiet(r) {
      if Quiet(s) {
        QuietStep(s, t, a);
      } else if a.Miss? {
        MissSeesWork(s, t);
        var v :| Live(s, v) && v != t;
        LiveStays(s, t, a, v);
      } else {
        FailedBefore(s, t, a);
        var v :| Live(s, v);
        LiveStays(s, t, a, v);
      }
    }
  }

  lemma InvKept(s: Pool, t: nat, a: Action)
    requires Inv(s) && Enabled(s, t, a)
    ensures Inv(Next(s, t, a))
  {
    ItemsConserved(s, t, a);
    WorkersStayFlagged(s, t, a);
    LockStaysSingle(s, t, a);
    WorkStaysShown(s, t, a);
  }

  lemma InvStep(r: Pool, s: Pool)
    requires Inv(r) && StepTo(r, s)
    ensures Inv(s)
  {
    var t, a :| Moves(r, t, a, s);
    InvKept(r, t, a);
  }

  lemma InvAtStart(s: Pool)
    requires Initial(s)
    ensures Inv(s)
  {
    forall x ensures s.pushed[x] == s.handled[x] + Copies(s, x) {
      NothingLeft(s, x);
    }
  }

  lemma {:induction false} InvAlways(run: seq<Pool>)
    requires Execution(run)
    ensures Inv(run[|run| - 1])
  {
    var init := run[..|run| - 1];
    if init == [] {
      InvAtStart(run[0]);
    } else {
      InvAlways(init);
      InvStep(init[|init| - 1], run[|run| - 1]);
    }
  }

  // ---- the results

  /** No item is left and every flag is set. */
  ghost predicate Over(s: Pool) {
    Shaped(s) && Quiet(s) && AllIdle(s)
  }

  /** A thread that sees all flags set after it found both lists empty is right: no item is left in
      any list or any hand, and every item pushed has been handled exactly once. */
  lemma TerminationIsDetected(run: seq<Pool>, t: nat)
    requires Execution(run)
    requires var s := run[|run| - 1]; t < |s.pc| && t < |s.idle| && s.pc[t].Signalled? && AllIdle(s)
    ensures var s := run[|run| - 1]; Over(s) && s.pushed == s.handled
  {
    var s := run[|run| - 1];
    InvAlways(run);
    assert SomeoneFailed(s) && !SomeoneLive(s);
    QuietIsEmpty(s);
  }

  /** Steps a thread has left once all flags are set for good. */
  function Left(p: Pc): nat {
    match p
    case Finished => 0
    case Signalled => 1
    case Flagged => 2
    case Missed => 3
    case _ => 4
  }

  function AllLeft(pc: seq<Pc>): nat {
    if pc == [] then 0 else AllLeft(pc[..|pc| - 1]) + Left(pc[|pc| - 1])
  }

  lemma {:induction false} LeftUpdate(pc: seq<Pc>, t: nat, p: Pc)
    requires t < |pc|
    ensures AllLeft(pc[t := p]) + Left(pc[t]) == AllLeft(pc) + Left(p)
  {
    var init := pc[..|pc| - 1];
    if t == |pc| - 1 {
      assert pc[t := p][..|pc| - 1] == init;
    } else {
      LeftUpdate(init, t, p);
      assert pc[t := p][..|pc| - 1] == init[t := p];
    }
  }

  /** Once the work is over it stays over, nobody's check can fail any more, and every further step
      brings some thread closer to its end. */
  lemma OverIsStable(s: Pool, t: nat, a: Action)
    requires Over(s) && Enabled(s, t, a)
    ensures Over(Next(s, t, a))
    ensures a.Check? ==> Next(s, t, a).pc[t].Finished?
    ensures AllLeft(Next(s, t, a).pc) < AllLeft(s.pc)
  {
    QuietStep(s, t, a);
    LeftUpdate(s.pc, t, Next(s, t, a).pc[t]);
  }

  lemma StopsByCheck(r: Pool, s: Pool, t: nat)
    requires StepTo(r, s) && t < |s.pc| && s.pc[t].Finished?
    ensures t < |r.pc| && t < |r.idle| && (r.pc[t].Finished? || (r.pc[t].Signalled? && AllIdle(r)))
  {
    var u, a :| Moves(r, u, a, s);
    FinishedByCheck(r, u, a, t);
  }

  lemma FinishedByCheck(r: Pool, u: nat, a: Action, t: nat)
    requires Shaped(r) && Enabled(r, u, a) && t < |r.pc| && Next(r, u, a).pc[t].Finished?
    ensures r.pc[t].Finished? || (a.Check? && r.pc[t].Signalled? && AllIdle(r))
  {
  }

  lemma OverStep(r: Pool, s: Pool)
    requires Over(r) && StepTo(r, s)
    ensures Over(s)
  {
  }

  /** As soon as one thread has stopped, the work is over, in every continuation of the run. */
  lemma {:induction false} StoppedMeansOver(run: seq<Pool>, t: nat)
    requires Execution(run) && t < |run[|run| - 1].pc| && run[|run| - 1].pc[t].Finished?
    ensures Over(run[|run| - 1])
  {
    var init := run[..|run| - 1];
    if init != [] {
      var r, s := init[|init| - 1], run[|run| - 1];
      assert StepTo(r, s);
      StopsByCheck(r, s, t);
      if r.pc[t].Finished? {
        StoppedMeansOver(init, t);
      } else {
        TerminationIsDetected(init, t);
      }
      OverStep(r, s);
    }
  }

  // ---- without work, all flags come to be set

  /** A thread that has set its flag has its flag set. */
  ghost predicate FlagsShown(s: Pool)
    requires Shaped(s)
  {
    forall t :: 0 <= t < |s.pc| && (s.pc[t].Flagged? || s.pc[t].Signalled? || s.pc[t].Finished?) ==> s.idle[t]
  }

  lemma FlagsStayShown(s: Pool, t: nat, a: Action)
    requires Shaped(s) && FlagsShown(s) && Enabled(s, t, a)
    ensures FlagsShown(Next(s, t, a))
  {
    var r := Next(s, t, a);
    assert forall u :: 0 <= u < |r.pc| && u != t ==> r.pc[u] == s.pc[u] && r.idle[u] == s.idle[u];
  }

  lemma {:induction false} FlagsAlwaysShown(run: seq<Pool>)
    requires Execution(run)
    ensures Shaped(run[|run| - 1]) && FlagsShown(run[|run| - 1])
  {
    var init := run[..|run| - 1];
    if init != [] {
      FlagsAlwaysShown(init);
      var r, s := init[|init| - 1], run[|run| - 1];
      assert StepTo(r, s);
      var t, a :| Moves(r, t, a, s);
      FlagsStayShown(r, t, a);
    }
  }

  /** Steps a thread has left until its flag is set. */
  function ToFlag(p: Pc, idle: bool): nat {
    if idle then 0 else if p.Missed? then 1 else 2
  }

  function AllToFlag(pc: seq<Pc>, idle: seq<bool>): nat
    requires |pc| == |idle|
  {
    if pc == [] then 0
    else AllToFlag(pc[..|pc| - 1], idle[..|pc| - 1]) + ToFlag(pc[|pc| - 1], idle[|pc| - 1])
  }

  lemma {:induction false} ToFlagUpdate(pc: seq<Pc>, idle: seq<bool>, t: nat, p: Pc, b: bool)
    requires t < |pc| == |idle|
    ensures AllToFlag(pc[t := p], idle[t := b]) + ToFlag(pc[t], idle[t]) == AllToFlag(pc, idle) + ToFlag(p, b)
  {
    var n := |pc| - 1;
    if t == n {
      assert pc[t := p][..n] == pc[..n] && idle[t := b][..n] == idle[..n];
    } else {
      ToFlagUpdate(pc[..n], idle[..n], t, p, b);
      assert pc[t := p][..n] == pc[..n][t := p] && idle[t := b][..n] == idle[..n][t := b];
    }
  }

  lemma {:induction false} NoneToFlag(pc: seq<Pc>, idle: seq<bool>)
    requires |pc| == |idle|
    ensures AllToFlag(pc, idle) == 0 <==> forall t :: 0 <= t < |idle| ==> idle[t]
  {
    if pc != [] {
      NoneToFlag(pc[..|pc| - 1], idle[..|pc| - 1]);
      assert idle == idle[..|pc| - 1] + [idle[|pc| - 1]];
    }
  }

  /** Once no work is left, each step of a thread whose flag is down brings it closer to being set, no other step
      takes a flag back, and the work is over when nothing is missing: wherever no thread is kept from its steps, the
      threads come to see that they are done. */
  lemma QuietSettles(s: Pool, t: nat, a: Action)
    requires Shaped(s) && Quiet(s) && FlagsShown(s) && Enabled(s, t, a)
    ensures var r := Next(s, t, a);
            && Quiet(r) && FlagsShown(r) && AllToFlag(r.pc, r.idle) <= AllToFlag(s.pc, s.idle)
            && (!s.idle[t] ==> AllToFlag(r.pc, r.idle) < AllToFlag(s.pc, s.idle))
            && (AllToFlag(s.pc, s.idle) == 0 <==> Over(s))
  {
    var r := Next(s, t, a);
    QuietStep(s, t, a);
    NoneToFlag(s.pc, s.idle);
    ToFlagUpdate(s.pc, s.idle, t, r.pc[t], r.idle[t]);
    assert r.pc == s.pc[t := r.pc[t]] && r.idle == s.idle[t := r.idle[t]];
  }

  // ---- where items are put

  /** The steps of a run, one between any two states. */
  ghost predicate Labelled(run: seq<Pool>, steps: seq<(nat, Action)>) {
    && |run| == |steps| + 1 && Shaped(run[0])
    && forall i :: 0 <= i < |steps| ==> Moves(run[i], steps[i].0, steps[i].1, run[i + 1])
  }

  /** Of the first n steps that ask to share or take from the shared list, the last one asked. */
  ghost predicate Asked(run: seq<Pool>, steps: seq<(nat, Action)>, n: nat)
    requires n <= |steps| && run != []
  {
    if n == 0 then run[0].dispatcher
    else steps[n - 1].1.Signal? || (!steps[n - 1].1.Release? && Asked(run, steps, n - 1))
  }

  lemma {:induction false} DispatcherTells(run: seq<Pool>, steps: seq<(nat, Action)>, n: nat)
    requires Labelled(run, steps) && n <= |steps|
    ensures Shaped(run[n]) && (run[n].dispatcher <==> Asked(run, steps, n))
  {
    if n > 0 {
      DispatcherTells(run, steps, n - 1);
      assert Moves(run[n - 1], steps[n - 1].0, steps[n - 1].1, run[n - 1 + 1]);
    }
  }

  lemma {:induction false} ChoiceStays(run: seq<Pool>, steps: seq<(nat, Action)>, t: nat, m: nat, n: nat)
    requires Labelled(run, steps) && m <= n <= |steps| && t < |run[m].pc| && run[m].pc[t].Pushing?
    requires forall i :: m <= i < n ==> steps[i] != (t, Put)
    ensures t < |run[n].pc| && run[n].pc[t] == run[m].pc[t]
  {
    if m < n {
      ChoiceStays(run, steps, t, m, n - 1);
      assert Moves(run[n - 1], steps[n - 1].0, steps[n - 1].1, run[n - 1 + 1]);
    }
  }

  /** Thread t decides at step m to push item y and does so at step n. The item goes to the end of the shared list
      exactly if at step m the last word on sharing was that of a thread without work, and else to the end of the
      thread's own list. All other lists stay as they are. */
  lemma PutGoesWhereAsked(run: seq<Pool>, steps: seq<(nat, Action)>, t: nat, y: Item, m: nat, n: nat)
    requires Labelled(run, steps) && m < n < |steps| && steps[n] == (t, Put)
    requires steps[m].0 == t && t < |run[m + 1].pc| && run[m + 1].pc[t].Pushing? && run[m + 1].pc[t].next == y
    requires forall i :: m < i < n ==> steps[i] != (t, Put)
    ensures Shaped(run[n]) && t < |run[n].local|
    ensures run[n + 1].global == run[n].global + if Asked(run, steps, m) then [y] else []
    ensures run[n + 1].local == if Asked(run, steps, m) then run[n].local
                                else run[n].local[t := run[n].local[t] + [y]]
  {
    DispatcherTells(run, steps, m);
    assert Moves(run[m], steps[m].0, steps[m].1, run[m + 1]);
    ChoiceStays(run, steps, t, m + 1, n);
    assert Moves(run[n], steps[n].0, steps[n].1, run[n + 1]);
  }

  /** A thread takes the item that is first in its own list, or in the shared list if its own is empty, and leaves
      all others in their order. */
  lemma TakesTheFirst(s: Pool, t: nat)
    requires Shaped(s)
    ensures Enabled(s, t, TakeLocal(true)) ==>
              var r := Next(s, t, TakeLocal(true));
              && r.pc[t].Busy? && s.local[t] == [r.pc[t].item] + r.local[t] && r.local == s.local[t := r.local[t]]
              && r.global == s.global
    ensures Enabled(s, t, TakeGlobal(true)) ==>
              var r := Next(s, t, TakeGlobal(true));
              && s.local[t] == [] && r.pc[t].Popped? && s.global == [r.pc[t].item] + r.global && r.local == s.local
  {
  }

  // ---- nobody waits for ever

  ghost predicate CanStep(s: Pool, t: nat)
    requires Shaped(s)
  {
    exists a: Action :: Enabled(s, t, a)
  }

  /** A thread that has not stopped can go on, or some thread inside a section can: one that waits for
      another section inside its own waits for a thread that does not. */
  lemma NoDeadlock(s: Pool, t: nat)
    requires Shaped(s) && t < |s.pc| && !s.pc[t].Finished?
    ensures CanStep(s, t) || exists u: nat :: u < |s.pc| && (s.pc[u].Locks() || s.pc[u].Guards()) && CanStep(s, u)
  {
    if LockFree(s) && s.pc[t].Wanting? {
      if GuardFree(s) {
        assert Enabled(s, t, Guard);
      } else {
        var u: nat :| u < |s.pc| && s.pc[u].Guards();
        assert Enabled(s, u, Put);
      }
    } else if LockFree(s) {
      var a: Action := match s.pc[t]
        case Idle => if s.local[t] != [] then TakeLocal(true) else if s.global != [] then TakeGlobal(true) else Miss
        case Popped(_) => ClearFlag
        case Cleared(_) => Release
        case Busy(_) => Complete
        case Pushing(_, _, _, _) => Put
        case Missed => SetFlag
        case Flagged => Signal
        case Signalled => Check
        case _ => Miss;
      assert Enabled(s, t, a);
    } else {
      var u: nat :| u < |s.pc| && s.pc[u].Locks();
      assert Enabled(s, u, if s.pc[u].Popped? then ClearFlag else Release);
    }
  }
}
