/** The streams the pre-analysis results are written to and read from. */
module InitcallStreams {
  import opened Options
  import opened Initcalls
  import opened InitcallFormat

  class Output {
    var text: string

    constructor ()
      ensures text == ""
    {
      text := "";
    }

    method PutLine(s: string)
      modifies this
      ensures text == old(text) + Line(s)
    {
      text := text + s + "\n";
    }

    method PutSet(s: set<string>)
      modifies this
      ensures text == old(text) + SetText(s)
    {
      PutLine(Digits(|s|));
      var xs := InOrder(s);
      ghost var head := text;
      for i := 0 to |xs|
        invariant text + Lines(xs[i..]) == head + Lines(xs)
      {
        assert xs[i..][1..] == xs[i + 1..];
        Assoc(text, Line(xs[i]), Lines(xs[i + 1..]));
        PutLine(xs[i]);
      }
      assert text == head + Lines(xs);
      Assoc(old(text), Line(Digits(|s|)), Lines(xs));
    }

    method PutInitcall(ic: Initcall)
      modifies this
      ensures text == old(text) + InitcallText(ic)
    {
      PutLine(ic.name);
      PutLine(Digits(ic.level));
      PutSet(ic.functions);
      PutSet(ic.globalvars);
      PutSet(ic.nondefvars);
      PutLine(Digits(ic.maxCGDepth));
      RegroupLeft(old(text), Line(ic.name), Line(Digits(ic.level)), SetText(ic.functions), SetText(ic.globalvars),
                  SetText(ic.nondefvars), Line(Digits(ic.maxCGDepth)));
    }

    method PutInitcalls(ics: InitcallMap)
      modifies this
      ensures text == old(text) + InitcallsText(ics, Listed(ics.Keys))
    {
      var ks := InOrder(ics.Keys);
      for i := 0 to |ks|
        invariant text + InitcallsText(ics, ks[i..]) == old(text) + InitcallsText(ics, ks)
      {
        assert ks[i] in ks && ks[i..][1..] == ks[i + 1..];
        Assoc(text, InitcallText(ics[ks[i]]), InitcallsText(ics, ks[i + 1..]));
        PutInitcall(ics[ks[i]]);
      }
    }

    /** Walks both maps position by position; equal key sets pair equal keys. */
    method PutUsers(funcs: UserMap, gvs: UserMap)
      requires funcs.Keys == gvs.Keys
      modifies this
      ensures text == old(text) + UsersText(funcs, gvs, Listed(funcs.Keys), Listed(gvs.Keys))
    {
      var fs := InOrder(funcs.Keys);
      var gs := InOrder(gvs.Keys);
      ghost var whole := text + UsersText(funcs, gvs, fs, gs);
      for i := 0 to |fs|
        invariant text + UsersText(funcs, gvs, fs[i..], gs[i..]) == whole
      {
        UsersTextStep(funcs, gvs, fs, gs, i);
        PutUser(fs[i], funcs[fs[i]], gvs[gs[i]], UsersText(funcs, gvs, fs[i + 1..], gs[i + 1..]));
      }
    }

    /** Writes one entry of both maps; rest is what is still to write. */
    method PutUser(v: string, functions: set<string>, globalvars: set<string>, ghost rest: string)
      modifies this
      ensures text + rest == old(text) + (Line(v) + (SetText(functions) + (SetText(globalvars) + rest)))
    {
      ghost var head := text;
      PutLine(v);
      PutSet(functions);
      PutSet(globalvars);
      UserLeft(head, Line(v), SetText(functions), SetText(globalvars), rest);
    }
  }

  lemma UsersTextStep(funcs: UserMap, gvs: UserMap, fs: seq<string>, gs: seq<string>, i: nat)
    requires |fs| == |gs| && i < |fs| && (forall k :: k in fs ==> k in funcs) && (forall k :: k in gs ==> k in gvs)
    ensures fs[i] in funcs && gs[i] in gvs
    ensures UsersText(funcs, gvs, fs[i..], gs[i..]) ==
            Line(fs[i]) + (SetText(funcs[fs[i]]) + (SetText(gvs[gs[i]]) +
              UsersText(funcs, gvs, fs[i + 1..], gs[i + 1..])))
  {
    assert fs[i..][1..] == fs[i + 1..] && gs[i..][1..] == gs[i + 1..];
  }

  /** The elements of a set in the order of its iteration. */
  method InOrder(s: set<string>) returns (xs: seq<string>)
    ensures xs == Listed(s)
  {
    xs := [];
    var rest := s;
    while rest != {}
      invariant rest <= s && Lists(xs, s - rest)
    {
      var x :| x in rest;
      PlaceLists(xs, s - rest, x);
      assert s - (rest - {x}) == s - rest + {x};
      rest := rest - {x};
      xs := Place(xs, x);
    }
    assert s - rest == s;
    ListsUnique(xs, Listed(s), s);
  }

  lemma UserLeft(t: string, a: string, b: string, c: string, r: string)
    ensures ((t + a) + b) + c + r == t + (a + (b + (c + r)))
  {
  }

  lemma RegroupLeft(t: string, a: string, b: string, c: string, d: string, e: string, f: string)
    ensures ((((((t + a) + b) + c) + d) + e) + f) == t + (a + (b + (c + (d + (e + f)))))
  {
  }

  lemma Sevenfold(a: string, b: string, c: string, d: string, e: string, f: string, g: string)
    ensures (((((("" + a) + b) + c) + d) + e) + f) + g == a + (b + (c + (d + (e + (f + g)))))
  {
  }

  class Input {
    var rest: string
    var ok: bool

    constructor (text: string)
      ensures Now() == Stream(text, true)
    {
      rest, ok := text, true;
    }

    function Now(): Stream
      reads this
    {
      Stream(rest, ok)
    }

    method ReadWord(old': string) returns (w: string)
      modifies this
      ensures (w, Now()) == GetWord(old(Now()), old')
    {
      if !ok {
        return old';
      }
      rest := Skipped(rest);
      if rest == [] {
        ok := false;
        return old';
      }
      w := FirstWord(rest);
      rest := rest[|w|..];
    }

    method ReadNum(old': nat) returns (n: nat)
      modifies this
      ensures (n, Now()) == GetNum(old(Now()), old')
    {
      if !ok {
        return old';
      }
      rest := Skipped(rest);
      var d := FirstNumber(rest);
      if d == [] {
        ok := false;
        return if rest == [] then old' else 0;
      }
      rest := rest[|d|..];
      n := Value(d);
      if n > MAX {
        ok := false;
        n := MAX;
      }
    }

    method ReadWords(n: nat, acc: set<string>) returns (s: set<string>)
      modifies this
      ensures (s, Now()) == GetWords(old(Now()), n, acc)
    {
      s := acc;
      for i := 0 to n
        invariant GetWords(Now(), n - i, s) == GetWords(old(Now()), n, acc)
      {
        var w := ReadWord("");
        s := s + {w};
      }
    }

    method ReadSet() returns (s: set<string>)
      modifies this
      ensures (s, Now()) == GetSet(old(Now()), {})
    {
      var n := ReadNum(0);
      s := ReadWords(n, {});
    }

    method ReadInitcall() returns (ic: Initcall)
      modifies this
      ensures (ic, Now()) == GetInitcall(old(Now()))
    {
      var name := ReadWord("");
      var level := ReadNum(0);
      var functions := ReadSet();
      var globalvars := ReadSet();
      var nondefvars := ReadSet();
      var depth := ReadNum(0);
      ic := Initcall(name, level, functions, globalvars, nondefvars, depth);
    }

    method ReadInitcalls(n: nat, acc: InitcallMap) returns (ics: InitcallMap)
      modifies this
      ensures (ics, Now()) == GetInitcalls(old(Now()), n, acc)
    {
      ics := acc;
      for i := 0 to n
        invariant GetInitcalls(Now(), n - i, ics) == GetInitcalls(old(Now()), n, acc)
      {
        var ic := ReadInitcall();
        ics := ics[ic.name := ic];
      }
    }

    method ReadUser(f: nat, g: nat, funcs: UserMap, gvs: UserMap) returns (u: User)
      modifies this
      ensures u == GetUser(old(Now()), f, g, funcs, gvs) && u.rest == Now()
    {
      var v := ReadWord("");
      var f' := ReadNum(f);
      var fs := ReadWords(f', Get(funcs, v));
      var g' := ReadNum(g);
      var gs := ReadWords(g', Get(gvs, v));
      u := User(v, fs, gs, f', g', Now());
    }

    method ReadUsers(n: nat, funcs: UserMap, gvs: UserMap) returns (funcs': UserMap, gvs': UserMap)
      modifies this
      ensures (funcs', gvs', Now()) == GetUsers(old(Now()), n, 0, 0, funcs, gvs)
    {
      funcs', gvs' := funcs, gvs;
      var f: nat, g: nat := 0, 0;
      for i := 0 to n
        invariant GetUsers(Now(), n - i, f, g, funcs', gvs') == GetUsers(old(Now()), n, 0, 0, funcs, gvs)
      {
        var u := ReadUser(f, g, funcs', gvs');
        f, g := u.f, u.g;
        funcs', gvs' := funcs'[u.name := u.functions], gvs'[u.name := u.globalvars];
      }
    }
  }

  class InitcallResults {
    var results: Results

    constructor ()
      ensures results == EMPTY
    {
      results := EMPTY;
    }

    /** None stands for a file that cannot be opened. */
    method ImportPreAnalysisResults(file: Option<string>) returns (ok: bool)
      modifies this
      ensures results == ImportedFrom(file, old(results))
      ensures file == Some("") ==> !ok
      ensures file != Some("") ==> (ok <==> results.initcalls != map[])
    {
      if file.Some? {
        if file.value == "" {
          return false;
        }
        var input := new Input(file.value);
        var n := input.ReadNum(0);
        var ics := input.ReadInitcalls(n, results.initcalls);
        var d := input.ReadNum(results.maxCGDepth);
        var mf := input.ReadNum(results.maxNumFunctions);
        var mg := input.ReadNum(results.maxNumGlobalVars);
        var k := input.ReadNum(0);
        var funcs, gvs := input.ReadUsers(k, results.funcs, results.gvs);
        results := Results(ics, d, mf, mg, funcs, gvs);
      }
      ok := |results.initcalls| > 0;
    }

    /** Writes the results to the file, unless it cannot be opened. */
    method ExportPreAnalysisResults(writable: bool) returns (ok: bool, text: string)
      requires results.funcs.Keys == results.gvs.Keys
      ensures ok == writable && text == if writable then FileText(results) else ""
    {
      if !writable {
        return false, "";
      }
      var output := new Output();
      var r := results;
      output.PutLine(Digits(|r.initcalls|));
      output.PutInitcalls(r.initcalls);
      output.PutLine(Digits(r.maxCGDepth));
      output.PutLine(Digits(r.maxNumFunctions));
      output.PutLine(Digits(r.maxNumGlobalVars));
      output.PutLine(Digits(|r.funcs|));
      output.PutUsers(r.funcs, r.gvs);
      ghost var users := UsersText(r.funcs, r.gvs, Listed(r.funcs.Keys), Listed(r.gvs.Keys));
      Sevenfold(Line(Digits(|r.initcalls|)), InitcallsText(r.initcalls, Listed(r.initcalls.Keys)),
                Line(Digits(r.maxCGDepth)), Line(Digits(r.maxNumFunctions)), Line(Digits(r.maxNumGlobalVars)),
                Line(Digits(|r.funcs|)), users);
      ok, text := true, output.text;
    }
  }

  function ImportedFrom(file: Option<string>, r: Results): Results {
    if file.None? || file.value == "" then r else Imported(Stream(file.value, true), r).0
  }

  lemma ExportedIsImported(r: Results)
    requires Exportable(r)
    ensures FileText(r) != "" && ImportedFrom(Some(FileText(r)), EMPTY) == r
  {
    assert Line(Digits(|r.initcalls|)) != "";
    ImportRestores(r);
  }

  /** What one factory exports a new one imports, unless there was no initcall to export. */
  method ExportThenImport(from: InitcallResults) returns (to: InitcallResults, ok: bool)
    requires Exportable(from.results)
    ensures fresh(to) && to.results == from.results && (ok <==> from.results.initcalls != map[])
  {
    var written, text := from.ExportPreAnalysisResults(true);
    ExportedIsImported(from.results);
    to := new InitcallResults();
    ok := to.ImportPreAnalysisResults(Some(text));
  }
}
