/** The forward phase of the use-after-return checker: its state, and what handling one work item
    does to it. A call suspends the caller as a waiter; a function entry is explored once per local
    variable; each return is recorded and joined with the waiters of its call site. */
module UarState {
  import opened Options
  import opened Traces
  import opened Svfg

  datatype Item = Item(cur: NodeId, prev: NodeId, root: NodeId, trace: seq<Visit>, scope: int, flags: Flags)

  datatype Key = Key(cs: CallSite, entry: NodeId)

  /** worklist and done together are the items ever pushed; indirect are those of the started functions
      whose item was made for an indirect call. */
  datatype State = State(worklist: seq<Item>,
                         done: seq<Item>,
                         waiting: map<Key, seq<Item>>,
                         rets: map<Key, seq<Item>>,
                         started: set<NodeId>,
                         indirect: set<NodeId>,
                         oosNodes: set<NodeId>,
                         dirOosNodes: set<NodeId>,
                         oosPaths: map<NodeId, seq<seq<Visit>>>)

  const NO_FLAGS := Flags(false, false, false)

  function NewItem(node: NodeId, trace: seq<Visit>): Item {
    Item(node, 0, node, trace, 0, NO_FLAGS)
  }

  function SourceItem(g: Graph): Item {
    NewItem(g.source, [Visit(0, g.source)])
  }

  function Init(g: Graph): State {
    State([SourceItem(g)], [], map[], map[], {}, {}, {}, {}, map[])
  }

  // ---- item sets: ordered by current node, root and visited set only

  predicate Same(a: Item, b: Item) {
    a.cur == b.cur && a.root == b.root && Visits(a.trace) == Visits(b.trace)
  }

  predicate Holds(items: seq<Item>, x: Item) {
    exists i :: 0 <= i < |items| && Same(items[i], x)
  }

  function Insert(items: seq<Item>, x: Item): (r: seq<Item>) {
    if Holds(items, x) then items else items + [x]
  }

  function At(m: map<Key, seq<Item>>, k: Key): seq<Item> {
    if k in m then m[k] else []
  }

  // ---- joining a waiter and a return

  predicate Joinable(w: Item, r: Item) {
    Visits(w.trace) !! Visits(r.trace)
  }

  /** The waiter goes on where the function returned to. */
  function Join(w: Item, r: Item): Item {
    Item(r.cur, r.prev, w.root, w.trace + r.trace, w.scope, r.flags)
  }

  function JoinsOfWaiter(w: Item, rets: seq<Item>): (r: seq<Item>) {
    if rets == [] then []
    else
      var front, last := rets[..|rets| - 1], rets[|rets| - 1];
      JoinsOfWaiter(w, front) + (if Joinable(w, last) then [Join(w, last)] else [])
  }

  function JoinsOfReturn(waiters: seq<Item>, ret: Item): (r: seq<Item>) {
    if waiters == [] then []
    else
      var front, last := waiters[..|waiters| - 1], waiters[|waiters| - 1];
      JoinsOfReturn(front, ret) + (if Joinable(last, ret) then [Join(last, ret)] else [])
  }

  // ---- the handlers

  function Push(s: State, items: seq<Item>): State {
    s.(worklist := s.worklist + items)
  }

  function Advance(x: Item, e: Edge): Item {
    x.(cur := e.dst, prev := x.cur)
  }

  function Visited(x: Item, v: Visit): Item {
    x.(trace := x.trace + [v])
  }

  function CallerOf(x: Item, e: Edge): Item
    requires e.kind.IsCall()
  {
    Visited(Advance(x, e), Visit(e.kind.cs, e.dst))
  }

  /** The flags an item starts a function with. */
  function EntryFlags(indirect: bool): Flags {
    NO_FLAGS.(firstAsgnm := indirect)
  }

  function EntryItem(e: Edge): Item {
    NewItem(e.dst, []).(flags := EntryFlags(e.kind.IndCall?))
  }

  /** A late caller is joined with the returns recorded so far. */
  function Replay(s: State, key: Key, w: Item): State {
    Push(s, JoinsOfWaiter(w, At(s.rets, key)))
  }

  function Await(s: State, key: Key, w: Item): State {
    s.(waiting := s.waiting[key := Insert(At(s.waiting, key), w)])
  }

  function Started(s: State, e: Edge): State {
    s.(started := s.started + {e.dst}, indirect := s.indirect + if e.kind.IndCall? then {e.dst} else {})
  }

  /** A function is explored by one item of its own, whoever calls it. */
  function StartFunction(s: State, e: Edge): State {
    if e.dst in s.started then s
    else Push(Started(s, e), [EntryItem(e)])
  }

  predicate Enters(g: Graph, x: Item, e: Edge)
    requires e.kind.IsCall()
  {
    e.dst !in g.sinks && Visit(e.kind.cs, e.dst) !in x.trace
  }

  function KeyOfCall(e: Edge): Key
    requires e.kind.IsCall()
  {
    Key(e.kind.cs, e.dst)
  }

  function HandleFunctionEntry(g: Graph, s: State, x: Item, e: Edge): State
    requires e.kind.IsCall()
  {
    if !Enters(g, x, e) then s
    else StartFunction(Await(Replay(s, KeyOfCall(e), CallerOf(x, e)), KeyOfCall(e), CallerOf(x, e)), e)
  }

  predicate CanResolve(t: seq<Visit>, c: CallSite) {
    forall v :: v in t && v.cxt == 0 ==> Visit(c, v.node) !in t
  }

  function Returning(x: Item, e: Edge): Item
    requires e.kind.IsRet()
  {
    Advance(x, e).(trace := Rename(x.trace, e.kind.cs), flags := x.flags.(directRet := e.kind.DirRet?))
  }

  /** The item that left the function of its root. */
  function ReturnOf(x: Item, e: Edge): Item
    requires e.kind.IsRet()
  {
    Visited(Returning(x, e), Visit(0, e.dst))
  }

  /** The item that left the frame of the local variable itself. */
  function EscapeOf(x: Item, e: Edge): Item
    requires e.kind.IsRet()
  {
    (if e.kind.DirRet? then Returning(x, e) else ReturnOf(x, e)).(scope := -1)
  }

  function Record(s: State, key: Key, r: Item): State {
    s.(rets := s.rets[key := Insert(At(s.rets, key), r)])
  }

  /** The callers that wait for the function are joined with the new return. */
  function Wake(s: State, key: Key, r: Item): State {
    Push(s, JoinsOfReturn(At(s.waiting, key), r))
  }

  function KeyOfReturn(x: Item, e: Edge): Key
    requires e.kind.IsRet()
  {
    Key(e.kind.cs, x.root)
  }

  function HandleFunctionReturn(g: Graph, s: State, x: Item, e: Edge): State
    requires e.kind.IsRet()
  {
    if !CanResolve(x.trace, e.kind.cs) then s
    else if x.root == g.source then Push(s, [EscapeOf(x, e)])
    else if Visit(0, e.dst) in Returning(x, e).trace then s
    else Wake(Record(s, KeyOfReturn(x, e), ReturnOf(x, e)), KeyOfReturn(x, e), ReturnOf(x, e))
  }

  function ForwardPropagate(g: Graph, s: State, x: Item, e: Edge): State {
    if e.kind.IsCall() then HandleFunctionEntry(g, s, x, e)
    else if e.kind.IsRet() then HandleFunctionReturn(g, s, x, e)
    else if Visit(0, e.dst) in x.trace then s
    else Push(s, [Visited(Advance(x, e), Visit(0, e.dst))])
  }

  function PropagateAll(g: Graph, s: State, x: Item, edges: seq<Edge>): State {
    if edges == [] then s
    else ForwardPropagate(g, PropagateAll(g, s, x, edges[..|edges| - 1]), x, edges[|edges| - 1])
  }

  function PathsAt(m: map<NodeId, seq<seq<Visit>>>, n: NodeId): seq<seq<Visit>> {
    if n in m then m[n] else []
  }

  function HandleOosNode(s: State, x: Item): State {
    var s1 := if x.flags.directRet then s.(dirOosNodes := s.dirOosNodes + {x.cur})
              else s.(oosNodes := s.oosNodes + {x.cur});
    s1.(oosPaths := s1.oosPaths[x.cur := PathsAt(s1.oosPaths, x.cur) + [x.trace]])
  }

  function EdgesOf(g: Graph, n: NodeId): seq<Edge> {
    if n in g.out then g.out[n] else []
  }

  /** What the statement rules leave of an item: nothing, or the item with new flags. */
  function ForwardChecks(g: Graph, x: Item): Option<Item> {
    match g.rules(x.prev, x.cur, x.flags)
    case None => None
    case Some(f) => Some(x.(flags := f.(directRet := x.flags.directRet)))
  }

  function ProcessItem(g: Graph, s: State, x: Item): State {
    match ForwardChecks(g, x)
    case None => s
    case Some(y) =>
      if y.scope < 0 then HandleOosNode(s, y) else PropagateAll(g, s, y, EdgesOf(g, y.cur))
  }

  function Pop(s: State, k: nat): State
    requires k < |s.worklist|
  {
    s.(worklist := s.worklist[..k] + s.worklist[k + 1..], done := s.done + [s.worklist[k]])
  }

  /** One item is taken and handled. Which one is left to the schedule of the threads. */
  function Step(g: Graph, s: State, k: nat): State {
    if k < |s.worklist| then ProcessItem(g, Pop(s, k), s.worklist[k]) else s
  }

  function Run(g: Graph, picks: seq<nat>): State {
    if picks == [] then Init(g) else Step(g, Run(g, picks[..|picks| - 1]), picks[|picks| - 1])
  }

  ghost predicate Pushed(s: State, x: Item) {
    x in s.worklist || x in s.done
  }
}
