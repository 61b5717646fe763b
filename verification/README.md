# K-Miner: a verified model of its graph algorithms

K-Miner analyses a whole operating-system kernel. LLVM and SVF hand it graphs: a sparse value-flow graph, a
call graph, a constraint graph, points-to sets. What K-Miner adds is a set of algorithms over these graphs,
written as worklists, caches and summary tables that are updated in place. This project models those
algorithms in Dafny and proves what they are for. The graphs are finite data; the statement rules, the
reachability of instructions and the dominator trees are uninterpreted parameters.

Check it with `dafny verify dfyconfig.toml` (Dafny 4.11).

## What is modelled

**The trace of an item** (`Traces`, `CxtTraces`). An item of the use-after-return analysis remembers the
nodes it visited as a set of (call site, node) pairs beside a map from pairs to positions. The pair of set
and map stands for a sequence without repetitions. Adding after a failed test appends, replacing the unknown
context renames exactly if the renaming repeats nothing, and merging concatenates exactly if the traces are
disjoint. Adding without the test, and ignoring a failed replacement, leave a pair that stands for nothing.

**The use-after-return forward phase** (`Svfg`, `UarState`, `UarTermination`, `UarFlags`, `UarSound`,
`UarJoins`, `UarExact`, `UarSettled`, `UarEncoding`, `UarRaceSteps`, `UarRace`, `UarVariants`, `TwoKinds`,
`UarChecker`). A call suspends its caller as a waiter, a function is explored once per local variable,
returns are recorded and joined with waiters in either order. The step functions of `UarState` are the
specification, and the methods of `UarChecker.UseAfterReturnChecker`, which update the worklist, the waiting
sets and the summaries in place, are proved equal to them. A schedule is an arbitrary sequence of choices of
the item handled next; every result holds for every schedule. The statement rules are a parameter that may
look at the previous node, the node and the flags, and may change the flags.

* Every schedule ends: one number, computed from the graph, bounds the length of all of them.
* Every item, waiter and recorded return stands for a real walk in which each return comes back through the
  call site it was entered by, and along which the rules let it pass, with the previous node and the flags
  the rules themselves left at every node: fresh at every call, the callee's at every return.
* No join is lost: after every step each waiter and each return of one key whose traces are disjoint have
  had their join pushed.
* For any rules, a node is recorded as out of scope only if a walk with matching calls and returns leaves
  the frame of the local variable there and the rules let it through, step by step. The right-hand side is
  stated over flat paths with a stack of open calls, independently of the engine.
* The recorded paths are exactly the traces of the handled items that left, node by node and in their order;
  each is the trace of a walk that leaves there, and each recorded node has one.
* The converse, and that two schedules record the same nodes, is false of the code: `UarRace` gives a graph
  with store and load rules and two schedules that both finish, of which one records a node and the other
  records nothing. The second is the schedule of a single thread, which takes its items first-in-first-out.
  A stored return stands for all returns with the same visits, whatever their flags. `TwoKinds` gives a
  second reason: a function is explored with the flags of whichever call came first.
* Both hold where returns that are the same to the store are alike to the rules (`UarExact.Confluent`), and
  where a function called both directly and indirectly lets through the same either way
  (`UarFlags.KindsAlike`); see `UarExact.ForwardPhaseExact`. Two conditions that can be read off the graph
  give this. Either the visits of each called function and all it calls have an order that its edges go
  along, no two edges join the same nodes and no function is called both directly and indirectly
  (`UarSettled.Ordered`): then any rules will do, and loops in the frame of the local variable itself are
  allowed. Or the rules look at the node only (`UarSettled.DecidesByNode`). That returns are alike is not
  necessary (`UarVariants.ConfluenceIsNotNecessary`).
* In every run the pair of set and position map an item holds in the source stands for the trace it has here
  (`UarEncoding`).

**The handshake of the threads** (`Handshake`, `TwoCalls`). A call looks at the recorded returns and then
joins the waiters, a return is stored and then wakes the waiters, and each of these four parts is a step of
its own, between which other threads can come. Of the six orders of one call and one return exactly one
loses their join: the return is stored and wakes while the call is between its look and its wait. For any
number of threads, only such nested pairs can be missing when no return is under way, and no join is missing
exactly if each nested pair that was kept was joined by some other section. If no return wakes while a call
is between its sections, as with one thread, none is nested. `TwoCalls` shows the loss at a reachable state:
two call sites lead into one function, the first starts it, and the function returns to the second inside
its call. The phase is then over with nothing recorded, while every schedule of whole items records the
escape. A remark: if calls waited first and looked second, no interleaving would lose a join
(`HandshakeSwapped.NoneSlipsThrough`).

**The work sharing of the threads** (`Scheduler`). The threads' lists, flags, lock and dispatcher index form
a state machine with one step per critical section or shared access. In every interleaving, from arbitrary
initial flags, a thread that sees all flags set after a failed pop is right: no item is left in any list or
any hand, and every item pushed was handled exactly once. This stays so, and no thread is stuck. Conversely,
once no work is left, every step of a thread whose flag is down brings it closer to being set, and no step takes
one back. A pushed item goes to the shared list exactly if a thread without work asked for it after the last
item was taken from there.

**Collecting the globals** (`PtsChain`). The memoised recursion publishes a cache entry before it is
complete. The accumulated set is exact, and so is the first entry; a concrete memory shows that an entry
finished inside a cycle can miss part of its own closure. Where no pointers go round through several
objects, so that objects have a rank, every entry is exact. The rank is not necessary: two objects that
point at each other have none, and both get exact entries, because the second is finished when the first
lacks nothing but the second's own fields.

**Walking the call graph** (`CallGraph`, `LocalCallGraph`, `CallerPaths`, `ContextBuilder`). The forward
slice is exactly the set of functions at shortest distance at most the given depth, where in broad mode
references through chains of globals count as steps; a global met before is skipped without losing a
function or a depth. The paths of the backward walk form a tree of shortest reverse call chains, one to each
function, and exactly those are saved at whose end the tree stops or skips a caller it met before. So each API
function that reaches the start ends a saved path, and every other function that reaches it lies on one. A new
context is cut off nowhere. The minimisation stops at the greatest depth below the limit, and loops
forever exactly if the roots alone are too many, as in a program of one function with a limit of one.

**Flow order and bug matching** (`FlowOrder`, `PathReach`, `BugMatching`, `SrcSnk`). The list of sink paths
is inserted into while it is scanned. What one insertion makes of every entry, the contents and the preserved
order are proved. A null store in a loop with all the sinks it may run before is listed between any two of them,
and keeps their pairs from being reported. An insertion keeps the flow order exactly if no entry from its place on belongs before the key.
Where no null store runs before another null store, every listing of the keys is sorted into flow order
exactly if, for keys that store no null around any key, to belong before is transitive; a concrete input
shows that it need not be. The walk that compares two paths, from the source on, finds the edges by which they
leave the function they shared last; if they part once these are the last calls out of it, or their ends. Within
one function it compares the ends, unless one path is a single edge. The pairing loops report exactly the pairs their declarative specification names,
and the cached source check answers every sequence of queries as if nothing were cached.

**The initcall pre-analysis** (`Initcalls`, `InitcallFactory`, `KernelContext`, `InitcallFormat`,
`InitcallStreams`). First-fit grouping is a partition into groups of one level. Handling the groups in level
order leaves a variable to an initcall exactly if its own analysis found it and that of no lower level did.
Both user maps list exactly the variables found, each with all users that the analyses of its groups found and
no others, so the later lookups succeed. The text form is read back to what was
written exactly if no name holds white space.

## Reading the model

* A `Key`, `Visit`, `Edge` or `Initcall` is a value and a datatype. Objects the source updates in place are
  classes; their methods are proved equal to functions of the old state, or against an outright
  specification, and the lemmas are about those functions.
* `std::set` of items is ordered by the current node, the root and the visited set only: the clause of
  `operator<` about the previous node compares it with itself (include/Util/KDPItem.h:475). Sets of items
  are kept as sequences without equivalent elements; the element inserted first stays.
* Where the source iterates over a set or a map in the order of its elements and the result depends on it,
  the order is modelled (`InitcallFormat.Listed`, the position-by-position walk of
  `InitcallStreams.Output.PutUsers`, the field order of `PtsChain`). Elsewhere an arbitrary element is taken
  next, which includes the source's order.
* Call sites are numbered from 1 (include/SVF/Util/PTACallGraph.h:190); 0 is the unknown context. A call
  edge never enters the node of a local variable (`Svfg.GoodEdge`).
* `setCompletedFunctions` is never called, so the early return at
  lib/Checker/UseAfterReturnChecker.cpp:355-356 is never taken and is not modelled.
* The check marked as perhaps unnecessary at lib/Checker/UseAfterReturnChecker.cpp:421-423 is kept in the
  step functions and proved never to fire (`UarTermination.ReturningFits`).
* The start function of a call-graph walk is put on the list but not among the visited functions, so a cycle
  makes the walk handle it once more. This is modelled.
* `KernelContext::isAPIFunction` and membership in `getAPIFunctions` agree
  (include/KernelModels/KernelContext.h:56-82), so `CallerPaths` uses one set for both.

## Model

| member | source | states |
|---|---|---|
| Traces.AddAppends | include/Util/KDPItem.h:164-168 | adding a visit that is not in the trace appends it to the sequence the set and map stand for |
| Traces.AddAgainBreaks | include/Util/KDPItem.h:164-168 | adding a visit again, unless it is the last, leaves a pair that stands for no sequence |
| Traces.EncodesUnique | include/Util/KDPItem.h:245-255 | a set and a position map stand for at most one sequence |
| Traces.RenameDistinct | include/Util/KDPItem.h:198-223 | renaming the unknown context repeats no visit exactly if no node was visited in both contexts |
| Traces.ResolveRenames | include/Util/KDPItem.h:202-223 | a successful replacement maps the renaming over the sequence |
| Traces.FailedResolveBreaks | include/Util/KDPItem.h:211-217 | a failed replacement leaves a pair that stands for no sequence |
| Traces.MergeConcatenates | include/Util/KDPItem.h:413-429 | merging disjoint traces concatenates the sequences |
| CxtTraces.CxtTrace.HasVisited | include/Util/KDPItem.h:174-177 | answers membership in the sequence |
| CxtTraces.CxtTrace.AddToVisited | include/Util/KDPItem.h:164-168 | the whole new state, and that it appends to the sequence |
| CxtTraces.CxtTrace.ResolveUnknownCxts | include/Util/KDPItem.h:202-223 | succeeds exactly if the renaming repeats nothing and then renames; on failure the exact state left at the first clash in iteration order |
| CxtTraces.CxtTrace.Merge | include/Util/KDPItem.h:413-429 | succeeds exactly on disjoint traces and then concatenates; otherwise all positions are taken over, but only the visits below the least common one |
| CxtTraces.CxtTrace.MergeVisitedNodes | include/Util/KDPItem.h:402-411 | true exactly if nothing was inserted twice, and then the union; otherwise the visits below the least common one were inserted |
| CxtTraces.CxtTrace.GetVisitedPath | include/Util/KDPItem.h:245-255 | returns the sequence the pair stands for |
| Svfg.WalkIsPath | lib/Checker/UseAfterReturnChecker.cpp:320-484 | a walk put together from calls joined with returns is a path of the graph |
| Svfg.WalkIsBalanced | lib/Checker/UseAfterReturnChecker.cpp:320-484 | its returns match its calls below any stack of open calls, and its visits are those of the path with the innermost open call as context |
| Svfg.Parse | lib/Checker/UseAfterReturnChecker.cpp:320-484 | conversely every path whose returns match is a stack of such walks with the same edges and visits |
| UarTermination.ReturningFits | lib/Checker/UseAfterReturnChecker.cpp:402-425 | after a successful replacement the node returned to is not in the trace: the check marked as perhaps unnecessary never fires |
| UarTermination.FitSetSize | include/Util/KDPItem.h:470-479 | a stored set of items holds no more items than there are nodes, roots and visited sets |
| UarTermination.StepDecreases | lib/Checker/UseAfterReturnChecker.cpp:173-234 | handling any item of the worklist lowers the measure and keeps all traces without repetition |
| UarTermination.RunBounded | lib/Checker/UseAfterReturnChecker.cpp:173-234 | in every run all traces stay without repetition and inside the graph |
| UarTermination.RunsAreShort | lib/Checker/UseAfterReturnChecker.cpp:173-234 | one number bounds the length of every schedule: the forward phase terminates |
| UarSound.JoinSound | include/Util/KDPItem.h:413-429 | joining a waiter with a return of its key closes exactly the one open call, and goes on with the flags of the return |
| UarSound.EntrySound | lib/Checker/UseAfterReturnChecker.cpp:320-377 | a waiter stands for a walk with exactly one open call that the rules let through, a function item for the empty walk from the entry with the flags of its first call |
| UarSound.ReturnEdgeSound | lib/Checker/UseAfterReturnChecker.cpp:379-437 | a recorded return stands for a walk of its function with one unmatched return, let through with the flags it carries; an item leaves its scope only by an unmatched return from the source's own frame |
| UarSound.OosNodeSound | include/Checker/UseAfterReturnChecker.h:213-231 | a node is recorded, by the kind of its return, only for an item that left the frame and passed the rules there |
| UarSound.StepSound | lib/Checker/UseAfterReturnChecker.cpp:204-230 | every step keeps every item, waiter, return and out-of-scope node genuine, with its previous node and flags |
| UarSound.RunSound | lib/Checker/UseAfterReturnChecker.cpp:173-234 | so does every run, under any rules |
| UarSound.RunStarts | lib/Checker/UseAfterReturnChecker.cpp:327-374 | in every run each function was started once, with the flags of one of its calls |
| UarFlags.AlongAlike | lib/Checker/UseAfterReturnChecker.cpp:327-337 | if a function called both ways lets through the same, every path leads to spots that no continuation tells apart, whichever way its functions were started |
| UarJoins.ReplayThenAwait | lib/Checker/UseAfterReturnChecker.cpp:347-362 | a late caller is joined with the returns recorded before and then waits: no join of it is missing |
| UarJoins.RecordThenWake | lib/Checker/UseAfterReturnChecker.cpp:427-436 | a return is recorded and then joined with those waiting: no join of it is missing |
| UarJoins.EdgeHandled | lib/Checker/UseAfterReturnChecker.cpp:296-318 | what following an edge leaves behind: the waiter, the return, the escape or the next item |
| UarJoins.StepCloses | lib/Checker/UseAfterReturnChecker.cpp:204-230 | every step keeps all joins pushed and all handled items accounted for, with the nodes and paths of those that left |
| UarJoins.NoLostJoins | lib/Checker/UseAfterReturnChecker.cpp:173-234 | in every run each waiter and return of one key with disjoint traces have had their join pushed |
| UarExact.OnlyEscapes | include/Checker/UseAfterReturnChecker.h:213-231 | for any rules and any schedule, a node is recorded as out of scope only if a realisable walk leaves there that the rules let through node by node, with the flags they gave it |
| UarExact.Complete | lib/Checker/UseAfterReturnChecker.cpp:173-484 | at the end of a run every balanced walk that repeats no visit and is let through is stood for by an item alike to it, if returns with the same visits are alike |
| UarExact.ForwardPhaseExact | lib/Checker/UseAfterReturnChecker.cpp:173-484 | under that condition the recorded nodes are exactly those at which a realisable walk that the rules let through leaves the local variable's frame, and each has a recorded path |
| UarExact.ScheduleIndependent | lib/Checker/UseAfterReturnChecker.cpp:173-234 | under that condition two finished schedules record the same nodes |
| UarExact.CanFinish | lib/Checker/UseAfterReturnChecker.cpp:173-234 | every run can be finished, and what it recorded stays recorded |
| UarExact.RunRecordsPaths | include/Checker/UseAfterReturnChecker.h:213-231 | in every run the paths of a node are exactly the traces of the handled items that left there and passed the rules, in their order, and the nodes with a path are the recorded ones |
| UarExact.PathsAreWalks | include/Checker/UseAfterReturnChecker.h:229-230 | every recorded path is the trace of a walk that leaves the frame at its node |
| UarSettled.WalkRises | lib/Checker/UseAfterReturnChecker.cpp:320-484 | along every walk inside a function with an order the visits go up |
| UarSettled.OrderedConfluent | include/Util/KDPItem.h:470-479 | where functions have an order, equal visited sets mean equal walks, and so equal flags |
| UarSettled.OrderedIsExact | lib/Checker/UseAfterReturnChecker.cpp:173-484 | there, under any rules, all finished schedules record exactly the nodes that a walk let through leaves to |
| UarSettled.ByNodeIsExact | lib/Checker/UseAfterReturnChecker.cpp:173-484 | if the rules look at the node only, all finished schedules record exactly the nodes that a walk through accepted nodes leaves to |
| UarRace.SchedulesDiffer | lib/Checker/UseAfterReturnChecker.cpp:246-262 | with the store and load rules two schedules of one graph finish, one with a recorded node that a walk let through leaves to; the other, which always takes the front of the list, with none |
| UarRace.SingleThreadFindsNothing | lib/Checker/UseAfterReturnChecker.cpp:180-230 | there a single thread, whose list is first-in-first-out, is done after 27 items and has recorded nothing |
| TwoKinds.KindsMatter | lib/Checker/UseAfterReturnChecker.cpp:327-337 | with a store in a function called both directly and indirectly two schedules finish and record different nodes, although all returns with the same visits are alike |
| UarVariants.CutIsOrdered | lib/Checker/UseAfterReturnChecker.cpp:246-262 | without the loop in the called function the same graph, with its stores and loads, meets the condition under which no schedule makes a difference |
| UarVariants.ConfluenceIsNotNecessary | include/Util/KDPItem.h:470-479 | in a variant of the graph returns with the same visits are not alike, and yet every run records exactly what a walk let through leaves to |
| UarEncoding.TestsAgree | include/Util/KDPItem.h:174-223 | the tests of the handlers on a trace are those on the set that stands for it |
| UarEncoding.EntryCarries | lib/Checker/UseAfterReturnChecker.cpp:320-337 | a function's own item starts with the empty pair |
| UarEncoding.HopCarries | lib/Checker/UseAfterReturnChecker.cpp:296-318 | adding the next node to an item's pair gives the pair of the next item |
| UarEncoding.CallerCarries | lib/Checker/UseAfterReturnChecker.cpp:339-345 | adding the entry to a caller's pair gives the pair of the waiter |
| UarEncoding.ReturnCarries | lib/Checker/UseAfterReturnChecker.cpp:402-425 | replacing the unknown contexts of an item's pair and adding the node returned to gives the pair of the return |
| UarEncoding.JoinCarries | include/Util/KDPItem.h:413-429 | merging the pairs of a waiter and a return gives the pair of their join |
| UarEncoding.RunCarries | lib/Checker/UseAfterReturnChecker.cpp:173-234 | in every run each item, waiter and recorded return has exactly one pair that stands for its trace |
| Handshake.LostInOneOrder | lib/Checker/UseAfterReturnChecker.cpp:347-362 | of the six orders of look and wait against store and wake, only look, store, wake, wait loses the join of a new caller and a new return |
| Handshake.OnlyNestedAreMissing | lib/Checker/UseAfterReturnChecker.cpp:427-436 | in every interleaving of any number of threads, when no return is under way only pairs are missing whose return was stored and woke between the look and the wait of the call |
| Handshake.ClosedIffNestedAreJoined | lib/Checker/UseAfterReturnChecker.cpp:347-436 | so no join is missing exactly if each of these pairs that was kept was joined by some other section |
| Handshake.AloneLosesNothing | lib/Checker/UseAfterReturnChecker.cpp:347-436 | none is, if no return wakes while a call is between its two sections |
| TwoCalls.JoinIsLost | lib/Checker/UseAfterReturnChecker.cpp:347-374 | at a reachable state of a concrete graph the sections of two items interleave so that the phase ends with a join missing and nothing recorded, while every schedule of whole items records the node |
| TwoCalls.SectionsOfItems | lib/Checker/UseAfterReturnChecker.cpp:320-437 | handled one after the other, the two items do exactly these sections |
| UarChecker.UseAfterReturnChecker.constructor | lib/Checker/UseAfterReturnChecker.cpp:173-175 | the phase starts from the one item of the local variable |
| UarChecker.UseAfterReturnChecker.HandleVisitedFunction | lib/Checker/UseAfterReturnChecker.cpp:439-457 | is the replay of all recorded returns of the key |
| UarChecker.UseAfterReturnChecker.HandleFunctionEntry | lib/Checker/UseAfterReturnChecker.cpp:320-377 | is the entry step: replay, wait, start the function once |
| UarChecker.UseAfterReturnChecker.HandleWaitingFuncEntryNodes | lib/Checker/UseAfterReturnChecker.cpp:459-484 | is the joining of all waiters of the key with the new return |
| UarChecker.UseAfterReturnChecker.HandleFunctionReturn | lib/Checker/UseAfterReturnChecker.cpp:379-437 | is the return step: resolve, escape or record and wake |
| UarChecker.UseAfterReturnChecker.ForwardPropagate | lib/Checker/UseAfterReturnChecker.cpp:296-318 | is the step along one edge |
| UarChecker.UseAfterReturnChecker.Process | lib/Checker/UseAfterReturnChecker.cpp:212-229 | is the handling of one item |
| UarChecker.UseAfterReturnChecker.ForwardTraverse | lib/Checker/UseAfterReturnChecker.cpp:173-234 | terminates with an empty worklist in the state of a proper run of the step functions |
| Scheduler.CopiesChange | lib/Checker/UseAfterReturnChecker.cpp:486-527 | a step adds a copy of an item only by pushing it and removes one only by completing it |
| Scheduler.ItemsConserved | lib/Checker/UseAfterReturnChecker.cpp:173-234 | of every item as many copies were pushed as were handled or are still held |
| Scheduler.WorkersStayFlagged | lib/Checker/UseAfterReturnChecker.cpp:507-523 | a thread with work has its flag down, except under the lock between pop and reset |
| Scheduler.MissSeesWork | lib/Checker/UseAfterReturnChecker.cpp:495-527 | if a thread finds nothing while work is left, another thread shows it by its flag |
| Scheduler.InvAlways | lib/Checker/UseAfterReturnChecker.cpp:179-234 | the invariants hold in every state of every interleaving |
| Scheduler.TerminationIsDetected | lib/Checker/UseAfterReturnChecker.cpp:190-205 | all flags set after a failed pop means no item is left anywhere and every pushed item was handled once |
| Scheduler.OverIsStable | lib/Checker/UseAfterReturnChecker.cpp:190-207 | then no step makes new work, every check succeeds, and every step brings a thread closer to its end |
| Scheduler.StoppedMeansOver | lib/Checker/UseAfterReturnChecker.cpp:204-205 | once a thread has stopped, no item is left in any continuation |
| Scheduler.QuietSettles | lib/Checker/UseAfterReturnChecker.cpp:190-207 | once no work is left, a step of a thread whose flag is down brings it closer to being set, no step takes a flag back, and when none is missing the work is over |
| Scheduler.PutGoesWhereAsked | lib/Checker/UseAfterReturnChecker.cpp:486-493 | a pushed item goes to the end of the shared list exactly if, when the list was chosen, a thread without work had asked since an item was last taken from there; else to the end of the thread's own list; no other list changes |
| Scheduler.TakesTheFirst | lib/Checker/UseAfterReturnChecker.cpp:495-527 | a thread takes the first item of its own list, or of the shared one if its own is empty, and leaves the others in their order |
| Scheduler.NoDeadlock | lib/Checker/UseAfterReturnChecker.cpp:366-527 | a thread can go on, or waits for a section that a thread which can go on is inside of, also where a push is made inside the section of the started functions |
| PtsChain.KernelSvfgBuilder.CollectPtsChain | lib/KernelModels/KernelSVFGBuilder.cpp:237-262 | terminates; leaves the cache the recursion defines; older entries untouched, all new objects explored, and their fields in the result; no entry too large |
| PtsChain.KernelSvfgBuilder.AddPointees | lib/KernelModels/KernelSVFGBuilder.cpp:252-258 | takes up all pointees of one field |
| PtsChain.KernelSvfgBuilder.AddChain | lib/KernelModels/KernelSVFGBuilder.cpp:255-257 | unites what one pointee leads to into the entry being built |
| PtsChain.KernelSvfgBuilder.AddGlobal | lib/KernelModels/KernelSVFGBuilder.cpp:226-234 | keeps the cache closed under pointers and the accumulated set sound |
| PtsChain.KernelSvfgBuilder.CollectGlobals | lib/KernelModels/KernelSVFGBuilder.cpp:211-235 | collects exactly the globals and the fields of all objects reached from them |
| PtsChain.KernelSvfgBuilder.AccessGlobal | lib/KernelModels/KernelSVFGBuilder.cpp:264-271 | true exactly if the node or something it points to is global memory |
| PtsChain.FirstEntryIsExact | lib/KernelModels/KernelSVFGBuilder.cpp:245-259 | the entry of the first call is exactly the closure of its object |
| PtsChain.EntryCanBeStale | lib/KernelModels/KernelSVFGBuilder.cpp:241-257 | an entry finished inside a cycle can be strictly smaller than the closure of its object |
| PtsChain.RankedEntriesAreExact | lib/KernelModels/KernelSVFGBuilder.cpp:237-262 | where no pointers go round through several objects, a call leaves every cache entry exactly the closure of its object |
| PtsChain.CyclesCanBeExact | lib/KernelModels/KernelSVFGBuilder.cpp:237-262 | that is not necessary: two objects that point at each other get exact entries |
| LocalCallGraph.LocalCallGraphAnalysis.ForwardPropagate | lib/Util/CallGraphAnalysis.cpp:154-166 | a function is put on the list once, at the depth of its first discovery |
| LocalCallGraph.LocalCallGraphAnalysis.HandleCE | lib/Util/CallGraphAnalysis.cpp:266-299 | terminates on cyclic globals; what is new comes from the value, and every newly recorded global is explored |
| LocalCallGraph.LocalCallGraphAnalysis.HandleGlobalCE | lib/Util/CallGraphAnalysis.cpp:301-330 | all users and initialiser values of a recorded global are walked |
| LocalCallGraph.LocalCallGraphAnalysis.HandleGlobalInitializerCE | lib/Util/CallGraphAnalysis.cpp:332-362 | all pointers of an initialiser are walked, through nested arrays and structs |
| LocalCallGraph.SettledReaches | lib/Util/CallGraphAnalysis.cpp:288-291 | skipping a recorded global loses no function and no global a value refers to |
| LocalCallGraph.LocalCallGraphAnalysis.ForwardProcess | lib/Util/CallGraphAnalysis.cpp:93-131 | all operands and calls of a function are taken up, one step further away |
| LocalCallGraph.BfsStep | lib/Util/CallGraphAnalysis.cpp:71-90 | scanning keeps the list ordered by two consecutive depths and every seen function queued or finished |
| LocalCallGraph.WalkNear | lib/Util/CallGraphAnalysis.cpp:65-91 | no function is seen later than the shortest walk to it allows |
| LocalCallGraph.LocalCallGraphAnalysis.ForwardStep | lib/Util/CallGraphAnalysis.cpp:71-90 | one round keeps the search invariant and makes progress |
| LocalCallGraph.LocalCallGraphAnalysis.ForwardTraverse | lib/Util/CallGraphAnalysis.cpp:65-91 | the slice is exactly the functions at shortest distance at most the depth through functions that are not blocked; the globals are exactly those the slice uses |
| LocalCallGraph.LocalCallGraphAnalysis.Analyze | lib/Util/CallGraphAnalysis.cpp:16-46 | the same for a start function by name, and empty results for an unknown name |
| CallerPaths.CallerAnalysis.BackwardStep | lib/Util/CallGraphAnalysis.cpp:193-210 | one round: the paths ever listed stay a tree of shortest chains, and a path taken off the list is saved exactly if the tree stops there |
| CallerPaths.CallerAnalysis.BackwardTraverse | lib/Util/CallGraphAnalysis.cpp:187-211 | the paths ever listed are a search tree: one shortest reverse call chain to each function that reaches the start through functions outside the filter; saved are exactly those whose end is in the filter, has no callers, or has a caller met before; each filter function that reaches the start ends a saved path, each other one lies on one, and these are the slice |
| CallerPaths.EverythingIsLed | lib/Util/CallGraphAnalysis.cpp:193-210 | when the list is empty no function has been met by a longer chain than there is |
| CallerPaths.GoesOnToSaved | lib/Util/CallGraphAnalysis.cpp:213-237 | every path of the tree is the beginning of a saved one: no function of it is lost |
| CallerPaths.CallerAnalysis.Analyze | lib/Util/CallGraphAnalysis.cpp:16-46 | the same by name, nothing for an unknown name |
| CallerPaths.GetApiPath | lib/Checker/SrcSnkAnalysis.cpp:205-235 | a path is found exactly if an API function reaches the source's function, it is a genuine chain to one, and a path found earlier is kept |
| ContextBuilder.CollectSlices | lib/KernelModels/ContextBuilder.cpp:117-127 | the union of the slices of all roots at one depth, and the globals it uses |
| ContextBuilder.CreateContext | lib/KernelModels/ContextBuilder.cpp:9-35 | adds the union over all roots and the globals it uses; in a program of at most 2^32 - 1 functions, exactly what the roots reach at any depth |
| ContextBuilder.DepthIsNoBound | lib/KernelModels/ContextBuilder.cpp:23 | a depth of at least the number of functions cuts nothing off |
| ContextBuilder.DepthZero | lib/Util/CallGraphAnalysis.cpp:65-91 | at depth 0 the union is the roots that are not blocked |
| ContextBuilder.StopsIffRootsFit | lib/KernelModels/ContextBuilder.cpp:114-137 | with the counter wrapping at zero, some round stops the loop exactly if the roots alone are below the limit |
| ContextBuilder.OneRootNeverStops | lib/KernelModels/ContextBuilder.cpp:114-137 | in a program of one function, the root, no round stops under a limit of one |
| ContextBuilder.FirstStopIsGreatest | lib/KernelModels/ContextBuilder.cpp:114-137 | the first round that stops has the greatest depth below the limit |
| ContextBuilder.ReduceDepth | lib/KernelModels/ContextBuilder.cpp:109-137 | finds that depth and its union, or tells that there is none |
| ContextBuilder.MinimizeContext | lib/KernelModels/ContextBuilder.cpp:97-145 | leaves a small context alone; otherwise intersects it with the union at that depth, which leaves fewer functions than the limit |
| FlowOrder.SrcSnkAnalysisContext.AddSinkPath | include/Util/AnalysisContext.h:530-542 | records a path of the sink under a key no path had |
| FlowOrder.SrcSnkAnalysisContext.FilterUnreachablePaths | lib/Util/AnalysisContext.cpp:233-244 | erasing while it walks the map, it keeps exactly the paths whose sink can be reached |
| FlowOrder.SrcSnkAnalysisContext.AddToFlowSensSinkPaths | lib/Util/AnalysisContext.cpp:146-180 | terminates although the list grows, and makes of the list what `InsertedCopies` says |
| FlowOrder.InsertedOnce | lib/Util/AnalysisContext.cpp:167-179 | a key is put in once, directly before the first entry it belongs before, if every such entry ends the scan, as it always does for a key that stores no null |
| FlowOrder.InsertedCopies | lib/Util/AnalysisContext.cpp:156-179 | entry by entry: a copy of the key stands directly before an entry exactly if the two are paths to different sinks, the key reaches the entry, and of every such entry in front of it the key stores null, the entry does not, and the entry reaches the key; at the end if there is no such entry |
| FlowOrder.InsertedKeepsOrder | lib/Util/AnalysisContext.cpp:146-180 | an insertion keeps the order of all other entries |
| FlowOrder.InsertedAdds | lib/Util/AnalysisContext.cpp:146-180 | an insertion adds the key at least once and no other entry |
| FlowOrder.SrcSnkAnalysisContext.SortPaths | lib/Util/AnalysisContext.cpp:182-202 | inserts the keys that store no null first, then those that do |
| FlowOrder.SortedHasAllKeys | lib/Util/AnalysisContext.cpp:182-202 | the list holds exactly the recorded keys, those that store no null once |
| FlowOrder.UnrelatedStayAsListed | lib/Util/AnalysisContext.cpp:182-202 | sinks none of which reaches another stay in the order of the map, those that store null behind the others |
| FlowOrder.NullStoreBetween | lib/Util/AnalysisContext.cpp:167-174 | a null store that reaches a sink, and that is reached by all it reaches, none of which stores null, stands between that sink and every sink listed in front of it |
| FlowOrder.TakenKeepsOrder | lib/Util/AnalysisContext.cpp:182-202 | later insertions never change the order of earlier keys |
| FlowOrder.InsertKeepsFlowOrder | lib/Util/AnalysisContext.cpp:146-180 | an insertion, of a null store or not, keeps the flow order exactly if no entry from the first one the key belongs before on belongs before the key |
| FlowOrder.SortedIsInFlowOrder | lib/Util/AnalysisContext.cpp:182-202 | if keys that store no null, and all keys around one that does, belong before each other transitively, every listing is sorted into flow order |
| FlowOrder.Disordered | lib/Util/AnalysisContext.cpp:182-202 | for two keys that store no null and fail this around any third key there is a listing that is sorted out of order |
| FlowOrder.FlowOrderIff | lib/Util/AnalysisContext.cpp:182-202 | where no null store runs before another, all listings are sorted into flow order exactly if the keys are ordered so |
| FlowOrder.ListingIff | lib/Util/AnalysisContext.cpp:182-202 | one listing, such as the ascending one of the map, is sorted into flow order exactly if every insertion finds no entry behind its place that belongs before the key |
| FlowOrder.NoPairIsMissed | lib/Checker/DoubleFreeChecker.cpp:32-36 | then, looking only at later entries misses no pair |
| FlowOrder.FlowOrderCanFail | lib/Util/AnalysisContext.cpp:146-180 | without transitivity the list can be out of order although no two sinks reach each other |
| PathReach.IsReachable | lib/Util/AnalysisContext.cpp:73-144 | ends for every two paths; reads an index out of range exactly if one of them is empty; stops with false exactly if a path returns from the function shared last; otherwise compares the last edge of each path that calls out of the function shared last before it, or the path's end there, or its first edge |
| PathReach.SharedIsLast | lib/Util/AnalysisContext.cpp:98-117 | the function shared last is that of the last distance from the source at which both paths go on into the same function, also if they had parted before; the empty name if there is none |
| PathReach.PartOnce | lib/Util/AnalysisContext.cpp:98-142 | if two paths go the same way through functions and then never again, the walk fails exactly if one returns from the function they shared last, and otherwise compares the last call of each out of it, or the end of a path that ends in it |
| PathReach.WithinFunction | lib/Util/AnalysisContext.cpp:98-142 | paths inside one function are compared at their ends, unless one of them is a single edge: then at their first edges |
| BugMatching.DoubleLockChecker.Evaluate | lib/Checker/DoubleLockChecker.cpp:23-73 | reports exactly the pairs of locks of one field, the first reaching the second, with no unlock of the field between them that the first reaches and that dominates the second; each once, in order |
| BugMatching.PairDecided | lib/Checker/DoubleLockChecker.cpp:44-54 | the set of protected sinks decides a pair as the declarative specification does, also for repeated keys |
| BugMatching.DoubleLockChecker.MarkDominated | lib/Checker/DoubleLockChecker.cpp:59-68 | adds the later sinks the unlock dominates |
| BugMatching.DoubleFreeChecker.Evaluate | lib/Checker/DoubleFreeChecker.cpp:22-60 | reports exactly the pairs of frees, the first reaching the second, with no null store between them that the first reaches; each once, in order |
| BugMatching.NothingBehind | lib/Checker/DoubleFreeChecker.cpp:53-57 | leaving the loop at a reached null store loses no pair |
| BugMatching.LoopedStoreKills | lib/Checker/DoubleFreeChecker.cpp:53-57 | with the sorted list, a null store in a loop with all the frees it reaches keeps each pair from being reported whose first free reaches it and whose second it reaches |
| SrcSnk.SrcSnkAnalysis.CollectSources | lib/Checker/SrcSnkAnalysis.cpp:168-200 | the walk terminates and collects exactly the nodes defining an in-edge-free constraint node behind the sink |
| SrcSnk.SrcSnkAnalysis.VerifySrcSnk | lib/Checker/SrcSnkAnalysis.cpp:152-203 | true exactly if the sink stores null or the source is one of its sources, whatever the cache holds; leaves a complete entry for a sink that stores no null, and all other entries as they are |
| SrcSnk.SrcSnkAnalysis.VerifyAll | lib/Checker/SrcSnkAnalysis.cpp:152-203 | a whole sequence of queries is answered as if nothing were cached, and leaves a complete entry for each sink that stores no null |
| InitcallFactory.InitcallFactory.GetNextFreeInitcallGroup | include/KernelModels/InitcallFactory.h:116-138 | the first group of the level with room, or a new one |
| SetFacts.UnionSize | include/KernelModels/InitcallFactory.h:123-128 | the sizes compared with the limit add up to the size of the union |
| Initcalls.JoinKeepsGrouping | include/KernelModels/InitcallFactory.h:116-138 | first fit keeps the partition, the levels, the unions and the limit |
| Initcalls.SortKeepsGrouping | lib/KernelModels/InitcallFactory.cpp:119-120 | sorting by level keeps all of it |
| Initcalls.SortIsStable | lib/KernelModels/InitcallFactory.cpp:119-120 | within a level the groups keep the order in which they were made |
| InitcallFactory.InitcallFactory.GroupInitcallsByLevel | lib/KernelModels/InitcallFactory.cpp:101-124 | each initcall in exactly one group, of its level; the group's sets are the unions; over the limit only groups of one initcall; no two groups of a level could be one; in level order |
| InitcallFactory.InitcallFactory.FilterNonDefVars | lib/KernelModels/InitcallFactory.cpp:214-236 | keeps exactly the variables no group of a lower level defines |
| InitcallFactory.InitcallFactory.UpdateInitcallGroup | lib/KernelModels/InitcallFactory.cpp:126-141 | the group's sets become the unions of its initcalls' sets, nothing else changes |
| InitcallFactory.InitcallFactory.ReplaceInitcalls | include/KernelModels/InitcallFactory.h:170-176 | entry by entry, the new initcalls replace those of the same names, unless they differ at most in the level |
| InitcallFactory.ReplacedKeepsLevels | include/KernelModels/Initcall.h:106-124 | where no initcall changes its level the new ones take the place of the old ones |
| InitcallFactory.LowerGroupsHoldAll | lib/KernelModels/InitcallFactory.cpp:220-234 | what the handled lower groups kept is what lower levels found at all |
| InitcallFactory.FilteredIsFinal | lib/KernelModels/InitcallFactory.cpp:214-236 | so filtering against the groups leaves exactly the variables no lower level found |
| InitcallFactory.LevelsAreDisjoint | lib/KernelModels/InitcallFactory.cpp:214-236 | no variable is left to two levels |
| InitcallFactory.NothingIsLost | lib/KernelModels/InitcallFactory.cpp:214-236 | every variable found is left to some initcall |
| InitcallFactory.InitcallFactory.MergeNonDefVarFunctions | include/KernelModels/InitcallFactory.h:152-165 | both maps become the entrywise unions |
| InitcallFactory.CollectedMore | include/KernelModels/InitcallFactory.h:152-165 | uniting the maps with those of one more group adds its variables and, to each of them, the users found within that group |
| InitcallFactory.InitcallFactory.FindFunctionsToPtr | lib/KernelModels/InitcallFactory.cpp:238-293 | both maps get the users of the same variables |
| InitcallFactory.InitcallFactory.HandleInitcallGroup | lib/KernelModels/InitcallFactory.cpp:143-187 | settles the group's initcalls, and both maps hold exactly the variables of the handled groups with all their users found within those groups |
| InitcallFactory.InitcallFactory.PreAnalysis | lib/KernelModels/InitcallFactory.cpp:189-212 | each initcall keeps a variable exactly if its own analysis found it and that of no lower level did; both maps list exactly the variables found, each with exactly the users the analyses within its groups found |
| KernelContext.PreAnalysisCovers | lib/KernelModels/KernelContext.cpp:136-172 | so every later lookup of a variable succeeds |
| KernelContext.KernelContext.GetNonDefVarFunctions | lib/KernelModels/KernelContext.cpp:136-154 | the initcall itself and those of its functions that use one of the variables |
| KernelContext.KernelContext.GetNonDefVarGlobalVars | lib/KernelModels/KernelContext.cpp:156-172 | those of its globals that are used with one of the variables |
| KernelContext.KernelContext.FilterRelevantInitcalls | lib/KernelModels/KernelPartitioner.cpp:142-176 | erases exactly the initcalls that share no variable with the API, reduces the others to what the shared variables need, and keeps every lookup possible |
| InitcallFormat.ReadsWord | lib/KernelModels/Initcall.cpp:3-21 | a written name without white space is read back and the stream goes on behind it |
| InitcallFormat.ReadsNum | lib/KernelModels/Initcall.cpp:3-14 | a written 32-bit number is read back |
| InitcallFormat.LessIsLexicographic | lib/KernelModels/Initcall.cpp:3-9 | names are walked in lexicographic order: the first position that differs decides, and a name comes before its continuations |
| InitcallFormat.FileTextExample | lib/KernelModels/InitcallFactory.cpp:479-530 | the file for one initcall and one variable, character by character |
| InitcallFormat.ListsUnique | lib/KernelModels/InitcallFactory.cpp:499-507 | equal sets are iterated in the same order, so walking two maps by position pairs equal keys |
| InitcallFormat.ReadsInitcall | lib/KernelModels/Initcall.cpp:23-43 | a written initcall is read back field by field |
| InitcallFormat.ImportRestores | lib/KernelModels/InitcallFactory.cpp:423-530 | importing an export into a new factory restores all initcalls, numbers and both maps |
| InitcallFormat.ImportsCleanNames | lib/KernelModels/InitcallFactory.cpp:436-471 | whatever the text, no imported name holds white space |
| InitcallFormat.RestoredIffClean | lib/KernelModels/InitcallFactory.cpp:423-530 | with names that are not empty the round trip succeeds exactly if no name holds white space |
| InitcallStreams.Output.PutSet | lib/KernelModels/Initcall.cpp:3-9 | writes the size line and one line for each element in order |
| InitcallStreams.Output.PutInitcall | lib/KernelModels/Initcall.cpp:34-43 | writes the text form of an initcall |
| InitcallStreams.Output.PutUsers | lib/KernelModels/InitcallFactory.cpp:499-521 | writes both maps position by position |
| InitcallStreams.Input.ReadWords | lib/KernelModels/Initcall.cpp:16-20 | reads the counted words as the specification does, also behind a failure |
| InitcallStreams.Input.ReadInitcall | lib/KernelModels/Initcall.cpp:23-32 | reads an initcall as the specification does |
| InitcallStreams.Input.ReadUsers | lib/KernelModels/InitcallFactory.cpp:449-469 | reads both maps as the specification does, keeping the last size when one cannot be read |
| InitcallStreams.InitcallResults.ImportPreAnalysisResults | lib/KernelModels/InitcallFactory.cpp:423-477 | the results read from the file; false for an empty file or without initcalls |
| InitcallStreams.InitcallResults.ExportPreAnalysisResults | lib/KernelModels/InitcallFactory.cpp:479-530 | writes the text form of the results; false, and nothing written, if the file cannot be opened |
| InitcallStreams.ExportThenImport | lib/KernelModels/InitcallFactory.cpp:423-530 | what one factory exports a new one imports; it reports success unless there was no initcall |

## Left out

- UarExact.ForwardPhaseExact: one way only. That returns with the same visits are alike is sufficient, not necessary (`UarVariants.ConfluenceIsNotNecessary`): what tells two returns apart may be out of reach behind them, or be found on another walk. An exact condition would have to compare all walks to a node.
- UarExact.ScheduleIndependent: the same condition.
- UarExact.Complete: the same condition.
- UarSettled.OrderedIsExact: sufficient, not necessary. An order of the visits is asked for each called function with all it calls, not only the absence of cycles with summaries in each frame: two rounds through one call site can exchange visits of one context, and then the visited set does not tell the walks.
- UarRace.SchedulesDiffer: of the statement rules of `forwardChecks` only those about stores, loads and the flags are used; the ones about pointer operands and copies do not apply to this graph.
- UarJoins.ReplayThenAwait: replay and wait are one step here; `Handshake` has them as two.
- UarJoins.RecordThenWake: record and wake are one step here; `Handshake` has them as two.
- UarJoins.NoLostJoins: one popped item is one atomic step. With several threads the sections interleave; `Handshake` says exactly which joins are lost then, and `TwoCalls.JoinIsLost` shows one.
- Handshake.LostInOneOrder: a look, and the joins of a wake, go through shared sets without a lock in the source; each is one step here.
- TwoCalls.JoinIsLost: the other sections of the two items, the section of the started functions among them, change nothing there.
- UarChecker.UseAfterReturnChecker.PopFromWorkList: one worklist and a free choice stand for the lists of all threads; the lists themselves are in `Scheduler`.
- CxtTraces.CxtTrace.Merge: the current node, the previous node and the flags are not fields of this class; what they become is in `UarState.Join`.
- ContextBuilder.MinimizeContext: `minimizeModule` and the pointer analysis that give the reduced program are not part of this model; the program is the one after them.
- ContextBuilder.ReduceDepth: an endless loop is modelled as the outcome `NeverStops`, at the point where the unsigned counter would wrap.
- LocalCallGraph.LocalCallGraphAnalysis.ForwardTraverse: the forward paths, the call-site instructions and the actual depth, which nothing above uses, are not collected. One class of the source is split into a forward and a backward one.
- PtsChain.RankedEntriesAreExact: sufficient, not necessary (`PtsChain.CyclesCanBeExact`); which entries inside a cycle are incomplete depends on the order of the pointers and is given by the recursion (`PtsChain.After`).
- FlowOrder.SortedIsInFlowOrder: where a null store may run before another the condition is sufficient only: a null store that belongs before one entry stands in front of all entries behind that one, whether it reaches them or not. Elsewhere it is exact (`FlowOrder.FlowOrderIff`).
- InitcallFormat.GetNum: signs in front of a number and hexadecimal forms are not modelled; the writer produces neither.
- InitcallFormat.GetInitcall: a level that cannot be read is 0 in the model and left uninitialised in the source.
- InitcallFactory.InitcallFactory.FindFunctionsToPtr: the pointer and caller analysis that finds the users of a variable is a parameter.
- InitcallFactory.InitcallFactory.HandleInitcallGroup: the precise analysis of an initcall is a parameter, and the greatest depth is not kept.
- InitcallFactory.InitcallFactory.PreAnalysis: the coarse and the precise analysis of an initcall and the users of a variable are parameters; the greatest depth and the two totals are not computed.
- InitcallFactory.InitcallFactory.ReplaceInitcalls: an initcall under a new name is taken over as it is; in the source it is assigned to an empty one, which makes a difference only for an initcall with an empty name and empty sets.
- The backward phase of the use-after-return checker: it ignores a failed context replacement (lib/Checker/UseAfterReturnChecker.cpp:698-699), and `Traces.FailedResolveBreaks` shows that its trace then stands for nothing.
- The forward slices of out-of-scope nodes, which are unions of visited sets; the paths are kept.
- Time limits, the limits on paths and path lengths, and path conditions.
- PathReach.IsReachable: which instruction may run after which, and which dominates which, are parameters, here and in `FlowOrder` and `BugMatching`.
- The use-after-free and memory-leak evaluation loops and the lite use-after-return checker, which are variants of what is modelled.
- `groupInitcallsByLimit`, which is not called, and `getLevelOfName`.
- LLVM, SVF, the bug reports, the statistics and all other input and output.
