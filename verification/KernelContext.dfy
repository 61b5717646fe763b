/** The kernel context of one system call or driver: the initcalls that may define what it uses, cut down
    to what that takes. */
module KernelContext {
  import opened Initcalls
  import opened InitcallFactory

  /** Every variable of every initcall has an entry in both maps. */
  ghost predicate Covers(ics: InitcallMap, funcs: UserMap, gvs: UserMap) {
    && funcs.Keys == gvs.Keys
    && forall n, v :: n in ics && v in ics[n].nondefvars ==> v in funcs
  }

  /** x is used through one of the given variables. */
  ghost predicate UsedBy(m: UserMap, vars: set<string>, x: string) {
    exists v :: v in vars && v in m && x in m[v]
  }

  /** What is left of an initcall: the variables the API uses too, with what the initcall needs for them. */
  ghost predicate Reduced(ic: Initcall, r: Initcall, api: set<string>, funcs: UserMap, gvs: UserMap) {
    && r.name == ic.name && r.level == ic.level && r.maxCGDepth == ic.maxCGDepth
    && r.nondefvars == ic.nondefvars * api
    && (forall x :: x in r.functions <==> x == ic.name || (x in ic.functions && UsedBy(funcs, r.nondefvars, x)))
    && (forall x :: x in r.globalvars <==> x in r.nondefvars || (x in ic.globalvars && UsedBy(gvs, r.nondefvars, x)))
  }

  class KernelContext {
    var initcalls: InitcallMap
    var nonDefVarFuncs: UserMap
    var nonDefVarGVs: UserMap

    constructor (initcalls: InitcallMap, nonDefVarFuncs: UserMap, nonDefVarGVs: UserMap)
      ensures this.initcalls == initcalls
      ensures this.nonDefVarFuncs == nonDefVarFuncs && this.nonDefVarGVs == nonDefVarGVs
    {
      this.initcalls, this.nonDefVarFuncs, this.nonDefVarGVs := initcalls, nonDefVarFuncs, nonDefVarGVs;
    }

    /** The part of a set that is used through one of the variables; a variable without an entry would
        be an out-of-range error. */
    static method UsedPart(all: set<string>, m: UserMap, vars: set<string>) returns (r: set<string>)
      requires vars <= m.Keys
      ensures forall x :: x in r <==> x in all && UsedBy(m, vars, x)
    {
      r := {};
      var rest := vars;
      while rest != {}
        invariant rest <= vars
        invariant forall x :: x in r <==> x in all && UsedBy(m, vars - rest, x)
      {
        var v :| v in rest;
        UsedByMore(m, vars - rest, v);
        assert vars - (rest - {v}) == vars - rest + {v};
        rest := rest - {v};
        r := r + all * m[v];
      }
      assert vars - rest == vars;
    }

    method GetNonDefVarFunctions(ic: Initcall, vars: set<string>) returns (r: set<string>)
      requires vars <= nonDefVarFuncs.Keys
      ensures forall x :: x in r <==> x == ic.name || (x in ic.functions && UsedBy(nonDefVarFuncs, vars, x))
    {
      r := UsedPart(ic.functions, nonDefVarFuncs, vars);
      r := r + {ic.name};
    }

    method GetNonDefVarGlobalVars(ic: Initcall, vars: set<string>) returns (r: set<string>)
      requires vars <= nonDefVarGVs.Keys
      ensures forall x :: x in r <==> x in ic.globalvars && UsedBy(nonDefVarGVs, vars, x)
    {
      r := UsedPart(ic.globalvars, nonDefVarGVs, vars);
    }

    /** Drops the initcalls that share no variable with the API and reduces the others. */
    method FilterRelevantInitcalls(api: set<string>)
      requires Covers(initcalls, nonDefVarFuncs, nonDefVarGVs)
      modifies `initcalls
      ensures forall n :: n in initcalls <==> n in old(initcalls) && old(initcalls)[n].nondefvars * api != {}
      ensures forall n :: n in initcalls ==> Reduced(old(initcalls)[n], initcalls[n], api, nonDefVarFuncs, nonDefVarGVs)
      ensures Covers(initcalls, nonDefVarFuncs, nonDefVarGVs)
    {
      var all := initcalls;
      var rest := all.Keys;
      while rest != {}
        invariant rest <= all.Keys && rest <= initcalls.Keys
        invariant forall n :: n in rest ==> initcalls[n] == all[n]
        invariant forall n :: n !in rest ==> (n in initcalls <==> n in all && all[n].nondefvars * api != {})
        invariant forall n :: n in initcalls && n !in rest ==>
                    Reduced(all[n], initcalls[n], api, nonDefVarFuncs, nonDefVarGVs)
      {
        var n :| n in rest;
        rest := rest - {n};
        var ic := initcalls[n];
        var inter := ic.nondefvars * api;
        if inter == {} {
          initcalls := initcalls - {n};
        } else {
          var funcs := GetNonDefVarFunctions(ic, inter);
          var gvs := GetNonDefVarGlobalVars(ic, inter);
          initcalls := initcalls[n := ic.(functions := funcs, globalvars := gvs + inter, nondefvars := inter)];
        }
      }
    }
  }

  lemma UsedByMore(m: UserMap, vars: set<string>, v: string)
    requires v in m
    ensures forall x :: UsedBy(m, vars + {v}, x) <==> UsedBy(m, vars, x) || x in m[v]
  {
  }

  /** After the pre-analysis every lookup of a variable's users succeeds. */
  lemma PreAnalysisCovers(f: Findings, ics: InitcallMap, funcs: UserMap, gvs: UserMap)
    requires ics.Keys == f.level.Keys && forall n :: n in ics ==> ics[n] == f.Final(n)
    requires funcs.Keys == gvs.Keys && forall v :: v in funcs <==> f.FoundBySome(v)
    ensures Covers(ics, funcs, gvs)
  {
  }
}
