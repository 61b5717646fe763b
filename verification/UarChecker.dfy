/** The forward phase as the checker runs it: worklist, waiting sets and summaries are fields that
    the handlers update in place. Every method is tied to the step function it implements. */
module UarChecker {
  import opened Options
  import opened Traces
  import opened Svfg
  import opened UarState
  import opened UarTermination

  class UseAfterReturnChecker {
    const g: Graph
    var worklist: seq<Item>
    ghost var done: seq<Item>
    var waiting: map<Key, seq<Item>>
    var cxtToFuncRetItems: map<Key, seq<Item>>
    var funcWorkSet: set<NodeId>
    ghost var indirect: set<NodeId>
    var oosNodes: set<NodeId>
    var dirOosNodes: set<NodeId>
    var oosToForwardPaths: map<NodeId, seq<seq<Visit>>>

    ghost function Model(): State
      reads this
    {
      State(worklist, done, waiting, cxtToFuncRetItems, funcWorkSet, indirect, oosNodes, dirOosNodes, oosToForwardPaths)
    }

    constructor (g: Graph)
      ensures this.g == g && Model() == Init(g)
    {
      this.g := g;
      worklist, done := [SourceItem(g)], [];
      waiting, cxtToFuncRetItems, funcWorkSet, indirect := map[], map[], {}, {};
      oosNodes, dirOosNodes, oosToForwardPaths := {}, {}, map[];
    }

    method PushIntoWorkList(x: Item)
      modifies `worklist
      ensures Model() == Push(old(Model()), [x])
    {
      worklist := worklist + [x];
    }

    /** Takes the item the schedule chose. */
    method PopFromWorkList(k: nat) returns (x: Item)
      requires k < |worklist|
      modifies `worklist, `done
      ensures x == old(worklist[k]) && Model() == Pop(old(Model()), k)
    {
      x := worklist[k];
      done := done + [x];
      worklist := worklist[..k] + worklist[k + 1..];
    }

    method HandleVisitedFunction(w: Item, key: Key)
      modifies `worklist
      ensures Model() == Replay(old(Model()), key, w)
    {
      if key in cxtToFuncRetItems {
        var rets := cxtToFuncRetItems[key];
        for i := 0 to |rets|
          invariant rets == cxtToFuncRetItems[key]
          invariant worklist == old(worklist) + JoinsOfWaiter(w, rets[..i])
        {
          assert rets[..i + 1][..i] == rets[..i];
          if Joinable(w, rets[i]) {
            PushIntoWorkList(Join(w, rets[i]));
          }
        }
        assert rets[..|rets|] == rets;
      }
    }

    method HandleFunctionEntry(x: Item, e: Edge)
      requires e.kind.IsCall()
      modifies this
      ensures Model() == UarState.HandleFunctionEntry(g, old(Model()), x, e)
    {
      var key := Key(e.kind.cs, e.dst);
      if e.dst in g.sinks || Visit(e.kind.cs, e.dst) in x.trace {
        return;
      }
      var w := CallerOf(x, e);
      HandleVisitedFunction(w, key);
      waiting := waiting[key := Insert(At(waiting, key), w)];
      if e.dst !in funcWorkSet {
        funcWorkSet := funcWorkSet + {e.dst};
        indirect := indirect + if e.kind.IndCall? then {e.dst} else {};
        PushIntoWorkList(EntryItem(e));
      }
    }

    method HandleWaitingFuncEntryNodes(r: Item, key: Key)
      modifies `worklist
      ensures Model() == Wake(old(Model()), key, r)
    {
      if key in waiting {
        var waiters := waiting[key];
        for i := 0 to |waiters|
          invariant waiters == waiting[key]
          invariant worklist == old(worklist) + JoinsOfReturn(waiters[..i], r)
        {
          assert waiters[..i + 1][..i] == waiters[..i];
          if Joinable(waiters[i], r) {
            PushIntoWorkList(Join(waiters[i], r));
          }
        }
        assert waiters[..|waiters|] == waiters;
      }
    }

    method HandleFunctionReturn(x: Item, e: Edge)
      requires e.kind.IsRet()
      modifies this
      ensures Model() == UarState.HandleFunctionReturn(g, old(Model()), x, e)
    {
      if !CanResolve(x.trace, e.kind.cs) {
        return;
      }
      var ret := Returning(x, e);
      if x.root == g.source {
        ret := ret.(scope := -1);
        if !ret.flags.directRet {
          ret := Visited(ret, Visit(0, e.dst));
        }
        PushIntoWorkList(ret);
        return;
      }
      if Visit(0, e.dst) in ret.trace {
        return;
      }
      ret := Visited(ret, Visit(0, e.dst));
      var key := Key(e.kind.cs, x.root);
      cxtToFuncRetItems := cxtToFuncRetItems[key := Insert(At(cxtToFuncRetItems, key), ret)];
      HandleWaitingFuncEntryNodes(ret, key);
    }

    method ForwardPropagate(x: Item, e: Edge)
      modifies this
      ensures Model() == UarState.ForwardPropagate(g, old(Model()), x, e)
    {
      if e.kind.IsCall() {
        HandleFunctionEntry(x, e);
      } else if e.kind.IsRet() {
        HandleFunctionReturn(x, e);
      } else if Visit(0, e.dst) !in x.trace {
        PushIntoWorkList(Visited(Advance(x, e), Visit(0, e.dst)));
      }
    }

    method HandleOosNode(x: Item)
      modifies `oosNodes, `dirOosNodes, `oosToForwardPaths
      ensures Model() == UarState.HandleOosNode(old(Model()), x)
    {
      if x.flags.directRet {
        dirOosNodes := dirOosNodes + {x.cur};
      } else {
        oosNodes := oosNodes + {x.cur};
      }
      oosToForwardPaths := oosToForwardPaths[x.cur := PathsAt(oosToForwardPaths, x.cur) + [x.trace]];
    }

    /** Handles the item taken last. */
    method Process(x: Item)
      modifies this
      ensures Model() == ProcessItem(g, old(Model()), x)
    {
      var checked := ForwardChecks(g, x);
      if checked.None? {
        return;
      }
      var y := checked.value;
      if y.scope < 0 {
        HandleOosNode(y);
        return;
      }
      var edges := EdgesOf(g, y.cur);
      for i := 0 to |edges|
        invariant Model() == PropagateAll(g, old(Model()), y, edges[..i])
      {
        assert edges[..i + 1][..i] == edges[..i];
        ForwardPropagate(y, edges[i]);
      }
      assert edges[..|edges|] == edges;
    }

    /** Handles items until none is left, in whatever order the threads take them. */
    method ForwardTraverse() returns (ghost picks: seq<nat>)
      requires ValidGraph(g) && Model() == Init(g)
      modifies this
      ensures worklist == [] && Proper(g, picks) && Model() == Run(g, picks)
    {
      picks := [];
      InitBounded(g);
      while worklist != []
        invariant Proper(g, picks) && Model() == Run(g, picks) && Bounded(g, Model())
        decreases Measure(g, Model())
      {
        var k: nat :| k < |worklist|;
        StepDecreases(g, Model(), k);
        var x := PopFromWorkList(k);
        Process(x);
        OneMorePick(g, picks, k);
        picks := picks + [k];
      }
    }
  }

  lemma OneMorePick(g: Graph, picks: seq<nat>, k: nat)
    requires Proper(g, picks) && k < |Run(g, picks).worklist|
    ensures Proper(g, picks + [k]) && Run(g, picks + [k]) == UarState.Step(g, Run(g, picks), k)
  {
    var more := picks + [k];
    assert more[..|picks|] == picks;
    forall i | 0 <= i < |more| ensures more[i] < |Run(g, more[..i]).worklist| {
      if i < |picks| {
        assert more[..i] == picks[..i];
      }
    }
  }
}
