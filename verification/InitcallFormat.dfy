/** The text form of the pre-analysis results: a size line before every collection, one line for every
    name or number, read back word by word. */
module InitcallFormat {
  import opened Initcalls

  const MAX: nat := 0xFFFF_FFFF

  // ---- characters and numbers

  predicate IsSpace(c: char) {
    c == ' ' || '\t' <= c <= '\r'
  }

  predicate IsDigit(c: char) {
    '0' <= c <= '9'
  }

  /** A string that holds no white space. */
  predicate Clean(s: string) {
    forall i :: 0 <= i < |s| ==> !IsSpace(s[i])
  }

  predicate Word(s: string) {
    s != [] && Clean(s)
  }

  predicate Blank(s: string) {
    forall i :: 0 <= i < |s| ==> IsSpace(s[i])
  }

  predicate AllDigits(s: string) {
    forall i :: 0 <= i < |s| ==> IsDigit(s[i])
  }

  function Digits(n: nat): (s: string)
    ensures s != [] && AllDigits(s)
  {
    if n < 10 then ['0' + n as char] else Digits(n / 10) + ['0' + (n % 10) as char]
  }

  function Value(s: string): nat
    requires AllDigits(s)
  {
    if s == [] then 0 else Value(s[..|s| - 1]) * 10 + (s[|s| - 1] - '0') as nat
  }

  lemma {:induction false} ValueOfDigits(n: nat)
    ensures Value(Digits(n)) == n
  {
    if n >= 10 {
      ValueOfDigits(n / 10);
      var s := Digits(n / 10);
      assert Digits(n)[..|Digits(n)| - 1] == s;
    }
  }

  /** The length of the longest prefix of characters of the kind p. */
  function Span(s: string, p: char -> bool): (n: nat)
    ensures n <= |s| && (forall i :: 0 <= i < n ==> p(s[i])) && (n < |s| ==> !p(s[n]))
  {
    if s == [] || !p(s[0]) then 0 else 1 + Span(s[1..], p)
  }

  lemma SpanIs(s: string, p: char -> bool, n: nat)
    requires n <= |s| && (forall i :: 0 <= i < n ==> p(s[i])) && (n < |s| ==> !p(s[n]))
    ensures Span(s, p) == n
  {
  }

  // ---- reading a word or a number

  /** What is left to read, and whether all reads so far succeeded. */
  datatype Stream = Stream(rest: string, ok: bool)

  function Skipped(s: string): string {
    s[Span(s, IsSpace)..]
  }

  function FirstWord(s: string): string {
    s[..Span(s, c => !IsSpace(c))]
  }

  function FirstNumber(s: string): string {
    s[..Span(s, IsDigit)]
  }

  /** Reads a word; a stream that failed or has ended leaves the old value. */
  function GetWord(st: Stream, old': string): (string, Stream) {
    var s := Skipped(st.rest);
    if !st.ok then (old', st)
    else if s == [] then (old', Stream([], false))
    else (FirstWord(s), Stream(s[|FirstWord(s)|..], true))
  }

  /** Reads an unsigned 32-bit number; no digit gives 0 and too many give the greatest number. */
  function GetNum(st: Stream, old': nat): (nat, Stream) {
    var s := Skipped(st.rest);
    if !st.ok then (old', st)
    else if s == [] then (old', Stream([], false))
    else
      var d := FirstNumber(s);
      if d == [] then (0, Stream(s, false))
      else if Value(d) > MAX then (MAX, Stream(s[|d|..], false))
      else (Value(d), Stream(s[|d|..], true))
  }

  /** The stream goes on with the text, up to white space in front. */
  ghost predicate Ready(st: Stream, text: string) {
    st.ok && exists lead :: Blank(lead) && st.rest == lead + text
  }

  function Line(s: string): string {
    s + "\n"
  }

  lemma SkipsLead(st: Stream, w: string, text: string)
    requires Word(w) && Ready(st, Line(w) + text)
    ensures Skipped(st.rest) == w + ("\n" + text)
  {
    var lead :| Blank(lead) && st.rest == lead + (Line(w) + text);
    SpanIs(st.rest, IsSpace, |lead|);
    assert Line(w) + text == w + ("\n" + text);
  }

  lemma ReadyBehind(st: Stream, text: string)
    requires st.ok && st.rest == "\n" + text
    ensures Ready(st, text)
  {
  }

  lemma ReadsWord(st: Stream, w: string, text: string, old': string)
    requires Word(w) && Ready(st, Line(w) + text)
    ensures GetWord(st, old').0 == w && Ready(GetWord(st, old').1, text)
  {
    SkipsLead(st, w, text);
    var s := w + ("\n" + text);
    SpanIs(s, c => !IsSpace(c), |w|);
    assert FirstWord(s) == w && s[|w|..] == "\n" + text;
    ReadyBehind(GetWord(st, old').1, text);
  }

  lemma ReadsNum(st: Stream, n: nat, text: string, old': nat)
    requires n <= MAX && Ready(st, Line(Digits(n)) + text)
    ensures GetNum(st, old').0 == n && Ready(GetNum(st, old').1, text)
  {
    var w := Digits(n);
    DigitsAreWord(n);
    SkipsLead(st, w, text);
    var s := w + ("\n" + text);
    SpanIs(s, IsDigit, |w|);
    assert FirstNumber(s) == w && s[|w|..] == "\n" + text;
    ValueOfDigits(n);
    ReadyBehind(GetNum(st, old').1, text);
  }

  lemma DigitsAreWord(n: nat)
    ensures Word(Digits(n))
  {
  }

  // ---- the order of a set of strings

  predicate Less(a: string, b: string) {
    b != [] && (a == [] || a[0] < b[0] || (a[0] == b[0] && Less(a[1..], b[1..])))
  }

  /** The first position where two names differ decides, and a name comes before its continuations. */
  lemma {:induction false} LessIsLexicographic(a: string, b: string)
    ensures Less(a, b) <==> (a <= b && |a| < |b|) || exists k: nat :: k < |a| && k < |b| && a[..k] == b[..k] && a[k] < b[k]
  {
    if a != [] && b != [] && a[0] == b[0] {
      LessIsLexicographic(a[1..], b[1..]);
      assert a <= b <==> a[1..] <= b[1..];
      if k: nat :| k < |a[1..]| && k < |b[1..]| && a[1..][..k] == b[1..][..k] && a[1..][k] < b[1..][k] {
        assert a[..k + 1] == [a[0]] + a[1..][..k] && b[..k + 1] == [b[0]] + b[1..][..k];
        assert a[k + 1] < b[k + 1];
      }
      if k: nat :| k < |a| && k < |b| && a[..k] == b[..k] && a[k] < b[k] {
        assert k > 0 && a[1..][..k - 1] == a[..k][1..] && b[1..][..k - 1] == b[..k][1..];
      }
    } else if a != [] && b != [] && a[0] < b[0] {
      assert a[..0] == b[..0];
    } else if a != [] && b != [] {
      if k: nat :| k < |a| && k < |b| && a[..k] == b[..k] && a[k] < b[k] {
        assert k > 0 ==> a[..k][0] == b[..k][0];
      }
    }
  }

  lemma {:induction false} LessTotal(a: string, b: string)
    ensures Less(a, b) || a == b || Less(b, a)
  {
    if a != [] && b != [] && a[0] == b[0] {
      LessTotal(a[1..], b[1..]);
      assert a == [a[0]] + a[1..] && b == [b[0]] + b[1..];
    }
  }

  lemma {:induction false} LessTransitive(a: string, b: string, c: string)
    requires Less(a, b) && Less(b, c)
    ensures Less(a, c)
  {
    if a != [] && a[0] == b[0] && b[0] == c[0] {
      LessTransitive(a[1..], b[1..], c[1..]);
    }
  }

  lemma {:induction false} LessIrreflexive(a: string)
    ensures !Less(a, a)
  {
    if a != [] {
      LessIrreflexive(a[1..]);
    }
  }

  ghost predicate Ascending(xs: seq<string>) {
    forall i, j :: 0 <= i < j < |xs| ==> Less(xs[i], xs[j])
  }

  ghost predicate Lists(xs: seq<string>, s: set<string>) {
    Ascending(xs) && (forall x :: x in xs <==> x in s) && |xs| == |s|
  }

  function Place(xs: seq<string>, x: string): (r: seq<string>) {
    if xs == [] || Less(x, xs[0]) then [x] + xs else [xs[0]] + Place(xs[1..], x)
  }

  lemma {:induction false} PlaceLists(xs: seq<string>, s: set<string>, x: string)
    requires Lists(xs, s) && x !in s
    ensures Lists(Place(xs, x), s + {x})
  {
    if xs == [] {
      assert s == {};
    } else if Less(x, xs[0]) {
      forall j | 0 < j < |xs| ensures Less(x, xs[j]) {
        LessTransitive(x, xs[0], xs[j]);
      }
      InFront(x, xs, s);
    } else {
      LessTotal(x, xs[0]);
      TailLists(xs, s);
      PlaceLists(xs[1..], s - {xs[0]}, x);
      forall y | y in s - {xs[0]} + {x} ensures Less(xs[0], y) {
        if y != x {
          var j :| 0 <= j < |xs| && xs[j] == y;
        }
      }
      InFront(xs[0], Place(xs[1..], x), s - {xs[0]} + {x});
      assert s - {xs[0]} + {x} + {xs[0]} == s + {x};
    }
  }

  lemma InFront(x: string, xs: seq<string>, s: set<string>)
    requires Lists(xs, s) && x !in s && forall y :: y in s ==> Less(x, y)
    ensures Lists([x] + xs, s + {x})
  {
  }

  lemma TailLists(xs: seq<string>, s: set<string>)
    requires Lists(xs, s) && xs != []
    ensures Lists(xs[1..], s - {xs[0]})
  {
    forall x ensures x in xs[1..] <==> x in s - {xs[0]} {
      LessIrreflexive(xs[0]);
      assert xs == [xs[0]] + xs[1..];
      if x in xs[1..] {
        var j :| 0 <= j < |xs[1..]| && xs[1..][j] == x;
        assert xs[j + 1] == x;
      }
    }
  }

  /** The elements of a set in the order in which the set is iterated. */
  ghost function Listed(s: set<string>): (xs: seq<string>)
    ensures Lists(xs, s)
  {
    if s == {} then [] else
      var x :| x in s;
      var rest := Listed(s - {x});
      PlaceLists(rest, s - {x}, x);
      assert s - {x} + {x} == s;
      Place(rest, x)
  }

  lemma {:induction false} ListsUnique(xs: seq<string>, ys: seq<string>, s: set<string>)
    requires Lists(xs, s) && Lists(ys, s)
    ensures xs == ys
  {
    if xs != [] {
      FirstIsLeast(xs, ys, s);
      FirstIsLeast(ys, xs, s);
      LessTotal(xs[0], ys[0]);
      if Less(xs[0], ys[0]) {
        LessTransitive(xs[0], ys[0], xs[0]);
      }
      LessIrreflexive(xs[0]);
      TailLists(xs, s);
      TailLists(ys, s);
      ListsUnique(xs[1..], ys[1..], s - {xs[0]});
    }
  }

  lemma FirstIsLeast(xs: seq<string>, ys: seq<string>, s: set<string>)
    requires Lists(xs, s) && Lists(ys, s) && xs != [] && ys != []
    ensures xs[0] == ys[0] || Less(xs[0], ys[0])
  {
    assert ys[0] in xs;
  }

  // ---- the text

  function Lines(xs: seq<string>): string {
    if xs == [] then "" else Line(xs[0]) + Lines(xs[1..])
  }

  ghost function SetText(s: set<string>): string {
    Line(Digits(|s|)) + Lines(Listed(s))
  }

  ghost function InitcallText(ic: Initcall): string {
    Line(ic.name) + (Line(Digits(ic.level)) + (SetText(ic.functions) + (SetText(ic.globalvars) +
      (SetText(ic.nondefvars) + Line(Digits(ic.maxCGDepth))))))
  }

  ghost function InitcallsText(ics: InitcallMap, ks: seq<string>): string
    requires forall k :: k in ks ==> k in ics
  {
    if ks == [] then "" else InitcallText(ics[ks[0]]) + InitcallsText(ics, ks[1..])
  }

  /** The entries of both maps side by side: the two are walked position by position. */
  ghost function UsersText(funcs: UserMap, gvs: UserMap, fs: seq<string>, gs: seq<string>): string
    requires |fs| == |gs| && (forall k :: k in fs ==> k in funcs) && (forall k :: k in gs ==> k in gvs)
  {
    if fs == [] then "" else
      Line(fs[0]) + (SetText(funcs[fs[0]]) + (SetText(gvs[gs[0]]) + UsersText(funcs, gvs, fs[1..], gs[1..])))
  }

  datatype Results = Results(initcalls: InitcallMap, maxCGDepth: nat, maxNumFunctions: nat, maxNumGlobalVars: nat,
                             funcs: UserMap, gvs: UserMap)

  const EMPTY: Results := Results(map[], 0, 0, 0, map[], map[])

  ghost function FileText(r: Results): string
    requires r.funcs.Keys == r.gvs.Keys
  {
    Line(Digits(|r.initcalls|)) + (InitcallsText(r.initcalls, Listed(r.initcalls.Keys)) +
      (Line(Digits(r.maxCGDepth)) + (Line(Digits(r.maxNumFunctions)) + (Line(Digits(r.maxNumGlobalVars)) +
      (Line(Digits(|r.funcs|)) + UsersText(r.funcs, r.gvs, Listed(r.funcs.Keys), Listed(r.gvs.Keys)))))))
  }

  // ---- an example of the text

  lemma ListedOne(x: string)
    ensures Listed({x}) == [x] && |{x}| == 1
  {
    var s := {x};
    assert x in Listed(s) && |Listed(s)| == 1;
  }

  lemma OneLine(x: string)
    ensures Lines([x]) == x + "\n" && SetText({x}) == "1\n" + x + "\n"
  {
    ListedOne(x);
    assert Lines([x]) == Line(x) + Lines([]);
    assert Digits(1) == "1";
  }

  lemma TwoLines()
    ensures SetText({"h", "g"}) == "2\ng\nh\n"
  {
    var s := {"h", "g"};
    LessIrreflexive("g");
    assert Less("g", "h") && "g" != "h" && |s| == 2;
    assert Lists(["g", "h"], s);
    ListsUnique(Listed(s), ["g", "h"], s);
    OneLine("h");
    assert ["g", "h"][1..] == ["h"];
    assert Digits(2) == "2";
  }

  lemma DigitLine(n: nat)
    requires n < 10
    ensures Line(Digits(n)) == ['0' + n as char, '\n']
  {
  }

  lemma InitcallTextExample(ics: InitcallMap)
    requires ics == map["i" := Initcall("i", 4, {"f"}, {"k"}, {"v"}, 23)]
    ensures InitcallsText(ics, ["i"]) == "i\n4\n1\nf\n1\nk\n1\nv\n23\n"
  {
    OneLine("f");
    OneLine("k");
    OneLine("v");
    DigitLine(4);
    assert Digits(2) == "2";
    assert Line(Digits(23)) == "23\n";
    assert InitcallText(ics["i"]) == "i\n4\n1\nf\n1\nk\n1\nv\n23\n";
    assert InitcallsText(ics, ["i"]) == InitcallText(ics["i"]) + InitcallsText(ics, []);
  }

  lemma UsersTextExample(funcs: UserMap, gvs: UserMap)
    requires funcs == map["v" := {"f"}] && gvs == map["v" := {"h", "g"}]
    ensures UsersText(funcs, gvs, ["v"], ["v"]) == "v\n1\nf\n2\ng\nh\n"
  {
    OneLine("f");
    TwoLines();
    assert UsersText(funcs, gvs, ["v"], ["v"]) ==
           Line("v") + (SetText({"f"}) + (SetText({"h", "g"}) + UsersText(funcs, gvs, [], [])));
  }

  /** The file for one initcall and one variable, which function f and globals g and h use. */
  lemma FileTextExample()
    ensures FileText(Results(map["i" := Initcall("i", 4, {"f"}, {"k"}, {"v"}, 23)], 5, 6, 7,
                             map["v" := {"f"}], map["v" := {"h", "g"}])) ==
            "1\n" + ("i\n4\n1\nf\n1\nk\n1\nv\n23\n" + ("5\n" + ("6\n" + ("7\n" + ("1\n" + "v\n1\nf\n2\ng\nh\n")))))
  {
    var ics := map["i" := Initcall("i", 4, {"f"}, {"k"}, {"v"}, 23)];
    var funcs, gvs := map["v" := {"f"}], map["v" := {"h", "g"}];
    ListedOne("i");
    ListedOne("v");
    assert ics.Keys == {"i"} && funcs.Keys == {"v"} && gvs.Keys == {"v"};
    assert |ics| == 1 && |funcs| == 1;
    InitcallTextExample(ics);
    UsersTextExample(funcs, gvs);
    DigitLine(1);
    DigitLine(5);
    DigitLine(6);
    DigitLine(7);
    assert Line(Digits(1)) == "1\n" && Line(Digits(5)) == "5\n" && Line(Digits(6)) == "6\n" && Line(Digits(7)) == "7\n";
  }

  // ---- reading the text

  function GetWords(st: Stream, n: nat, acc: set<string>): (set<string>, Stream)
    decreases n
  {
    if n == 0 then (acc, st) else
      var (w, st') := GetWord(st, "");
      GetWords(st', n - 1, acc + {w})
  }

  /** Reads a size and then that many words. A size that cannot be read keeps its old value. */
  function GetCounted(st: Stream, old': nat, acc: set<string>): (nat, set<string>, Stream) {
    var (n, st') := GetNum(st, old');
    var (s, st2) := GetWords(st', n, acc);
    (n, s, st2)
  }

  function GetSet(st: Stream, acc: set<string>): (set<string>, Stream) {
    var (_, s, st') := GetCounted(st, 0, acc);
    (s, st')
  }

  function GetInitcall(st: Stream): (Initcall, Stream) {
    var (name, s1) := GetWord(st, "");
    var (level, s2) := GetNum(s1, 0);
    var (functions, s3) := GetSet(s2, {});
    var (globalvars, s4) := GetSet(s3, {});
    var (nondefvars, s5) := GetSet(s4, {});
    var (depth, s6) := GetNum(s5, 0);
    (Initcall(name, level, functions, globalvars, nondefvars, depth), s6)
  }

  function GetInitcalls(st: Stream, n: nat, acc: InitcallMap): (InitcallMap, Stream)
    decreases n
  {
    if n == 0 then (acc, st) else
      var (ic, st') := GetInitcall(st);
      GetInitcalls(st', n - 1, acc[ic.name := ic])
  }

  /** One entry of both maps with the sizes read, and what is left of the stream. */
  datatype User = User(name: string, functions: set<string>, globalvars: set<string>, f: nat, g: nat, rest: Stream)

  /** Reads one entry, adding to what the maps have. A size that cannot be read keeps its old value. */
  function GetUser(st: Stream, f: nat, g: nat, funcs: UserMap, gvs: UserMap): User {
    var (v, s1) := GetWord(st, "");
    var (f', fs, s2) := GetCounted(s1, f, Get(funcs, v));
    var (g', gs, s3) := GetCounted(s2, g, Get(gvs, v));
    User(v, fs, gs, f', g', s3)
  }

  function GetUsers(st: Stream, n: nat, f: nat, g: nat, funcs: UserMap, gvs: UserMap): (UserMap, UserMap, Stream)
    decreases n
  {
    if n == 0 then (funcs, gvs, st) else
      var u := GetUser(st, f, g, funcs, gvs);
      GetUsers(u.rest, n - 1, u.f, u.g, funcs[u.name := u.functions], gvs[u.name := u.globalvars])
  }

  function Imported(st: Stream, r: Results): (Results, Stream) {
    var (n, s1) := GetNum(st, 0);
    var (ics, s2) := GetInitcalls(s1, n, r.initcalls);
    var (d, s3) := GetNum(s2, r.maxCGDepth);
    var (mf, s4) := GetNum(s3, r.maxNumFunctions);
    var (mg, s5) := GetNum(s4, r.maxNumGlobalVars);
    var (k, s6) := GetNum(s5, 0);
    var (funcs, gvs, s7) := GetUsers(s6, k, 0, 0, r.funcs, r.gvs);
    (Results(ics, d, mf, mg, funcs, gvs), s7)
  }

  // ---- what was written is read back

  predicate Words(s: set<string>) {
    forall x :: x in s ==> Word(x)
  }

  predicate Sizes(ic: Initcall) {
    ic.level <= MAX && ic.maxCGDepth <= MAX && |ic.functions| <= MAX && |ic.globalvars| <= MAX && |ic.nondefvars| <= MAX
  }

  predicate Named(ic: Initcall) {
    Word(ic.name) && Words(ic.functions) && Words(ic.globalvars) && Words(ic.nondefvars)
  }

  lemma {:induction false} ReadsWords(st: Stream, n: nat, xs: seq<string>, text: string, acc: set<string>)
    returns (r: (set<string>, Stream))
    requires Ready(st, Lines(xs) + text) && n == |xs| && forall x :: x in xs ==> Word(x)
    ensures r == GetWords(st, n, acc) && r.0 == acc + (set x | x in xs) && Ready(r.1, text)
    decreases n
  {
    if n == 0 {
      assert Lines(xs) + text == text;
      r := (acc, st);
    } else {
      var st' := ReadsFirstWord(st, xs, text);
      r := ReadsWords(st', n - 1, xs[1..], text, acc + {xs[0]});
      WordsStep(st, n, acc);
      OneMoreElement(acc, xs);
    }
  }

  lemma ReadsFirstWord(st: Stream, xs: seq<string>, text: string) returns (st': Stream)
    requires xs != [] && Word(xs[0]) && Ready(st, Lines(xs) + text)
    ensures GetWord(st, "") == (xs[0], st') && Ready(st', Lines(xs[1..]) + text)
  {
    Assoc(Line(xs[0]), Lines(xs[1..]), text);
    ReadsWord(st, xs[0], Lines(xs[1..]) + text, "");
    st' := GetWord(st, "").1;
  }

  lemma WordsStep(st: Stream, n: nat, acc: set<string>)
    requires n > 0
    ensures GetWords(st, n, acc) == GetWords(GetWord(st, "").1, n - 1, acc + {GetWord(st, "").0})
  {
  }

  lemma OneMoreElement(acc: set<string>, xs: seq<string>)
    requires xs != []
    ensures acc + {xs[0]} + (set x | x in xs[1..]) == acc + set x | x in xs
  {
  }

  lemma Assoc(a: string, b: string, c: string)
    ensures (a + b) + c == a + (b + c)
  {
  }

  lemma ReadsBlock(st: Stream, xs: seq<string>, text: string, old': nat)
    requires (forall x :: x in xs ==> Word(x)) && |xs| <= MAX && Ready(st, Line(Digits(|xs|)) + (Lines(xs) + text))
    ensures var r := GetCounted(st, old', {}); r.0 == |xs| && r.1 == (set x | x in xs) && Ready(r.2, text)
  {
    ReadsNum(st, |xs|, Lines(xs) + text, old');
    var r := ReadsWords(GetNum(st, old').1, |xs|, xs, text, {});
  }

  lemma ReadsCounted(st: Stream, s: set<string>, text: string, old': nat)
    requires Words(s) && |s| <= MAX && Ready(st, SetText(s) + text)
    ensures var r := GetCounted(st, old', {}); r.0 == |s| && r.1 == s && Ready(r.2, text)
  {
    var xs := Listed(s);
    Assoc(Line(Digits(|s|)), Lines(xs), text);
    ReadsBlock(st, xs, text, old');
    assert s == set x | x in xs;
  }

  lemma ReadsListed(st: Stream, s: set<string>, text: string)
    requires Words(s) && |s| <= MAX && Ready(st, SetText(s) + text)
    ensures GetSet(st, {}).0 == s && Ready(GetSet(st, {}).1, text)
  {
    ReadsCounted(st, s, text, 0);
  }

  lemma Regroup(a: string, b: string, c: string, d: string, e: string, f: string, t: string)
    ensures (a + (b + (c + (d + (e + f))))) + t == a + (b + (c + (d + (e + (f + t)))))
  {
  }

  lemma ReadsInitcall(st: Stream, ic: Initcall, text: string)
    requires Sizes(ic) && Named(ic) && Ready(st, InitcallText(ic) + text)
    ensures GetInitcall(st).0 == ic && Ready(GetInitcall(st).1, text)
  {
    var t6 := Line(Digits(ic.maxCGDepth)) + text;
    var t5 := SetText(ic.nondefvars) + t6;
    var t4 := SetText(ic.globalvars) + t5;
    var t3 := SetText(ic.functions) + t4;
    var t2 := Line(Digits(ic.level)) + t3;
    Regroup(Line(ic.name), Line(Digits(ic.level)), SetText(ic.functions), SetText(ic.globalvars),
            SetText(ic.nondefvars), Line(Digits(ic.maxCGDepth)), text);
    ReadsWord(st, ic.name, t2, "");
    var s1 := GetWord(st, "").1;
    ReadsNum(s1, ic.level, t3, 0);
    var s2 := GetNum(s1, 0).1;
    ReadsListed(s2, ic.functions, t4);
    var s3 := GetSet(s2, {}).1;
    ReadsListed(s3, ic.globalvars, t5);
    var s4 := GetSet(s3, {}).1;
    ReadsListed(s4, ic.nondefvars, t6);
    var s5 := GetSet(s4, {}).1;
    ReadsNum(s5, ic.maxCGDepth, text, 0);
  }

  /** The entries of a map under the listed keys. */
  function Part<V>(m: map<string, V>, ks: seq<string>): map<string, V>
    requires forall k :: k in ks ==> k in m
  {
    map k | k in ks :: m[k]
  }

  lemma PartStep<V>(acc: map<string, V>, m: map<string, V>, ks: seq<string>)
    requires ks != [] && forall k :: k in ks ==> k in m
    ensures acc[ks[0] := m[ks[0]]] + Part(m, ks[1..]) == acc + Part(m, ks)
  {
  }

  lemma {:induction false} ReadsInitcalls(st: Stream, ics: InitcallMap, ks: seq<string>, text: string, acc: InitcallMap)
    requires forall k :: k in ks ==> k in ics && ics[k].name == k && Sizes(ics[k]) && Named(ics[k])
    requires Ready(st, InitcallsText(ics, ks) + text)
    ensures GetInitcalls(st, |ks|, acc).0 == acc + Part(ics, ks)
    ensures Ready(GetInitcalls(st, |ks|, acc).1, text)
    decreases |ks|
  {
    if ks == [] {
      assert InitcallsText(ics, ks) + text == text;
    } else {
      var k, tail := ks[0], InitcallsText(ics, ks[1..]) + text;
      Assoc(InitcallText(ics[k]), InitcallsText(ics, ks[1..]), text);
      ReadsInitcall(st, ics[k], tail);
      var st' := GetInitcall(st).1;
      ReadsInitcalls(st', ics, ks[1..], text, acc[k := ics[k]]);
      PartStep(acc, ics, ks);
    }
  }

  ghost predicate UsersFit(funcs: UserMap, gvs: UserMap) {
    && funcs.Keys == gvs.Keys
    && forall v :: v in funcs ==> Word(v) && Words(funcs[v]) && Words(gvs[v]) && |funcs[v]| <= MAX && |gvs[v]| <= MAX
  }

  /** Reading the users of a variable that neither map has yet. */
  lemma ReadsUser(st: Stream, v: string, fs: set<string>, gs: set<string>, text: string, f: nat, g: nat,
                  accF: UserMap, accG: UserMap)
    requires Word(v) && Words(fs) && Words(gs) && |fs| <= MAX && |gs| <= MAX && v !in accF && v !in accG
    requires Ready(st, Line(v) + (SetText(fs) + (SetText(gs) + text)))
    ensures var u := GetUser(st, f, g, accF, accG);
            u == User(v, fs, gs, |fs|, |gs|, u.rest) && Ready(u.rest, text)
  {
    ReadsWord(st, v, SetText(fs) + (SetText(gs) + text), "");
    var s1 := GetWord(st, "").1;
    ReadsCounted(s1, fs, SetText(gs) + text, f);
    var s2 := GetCounted(s1, f, {}).2;
    ReadsCounted(s2, gs, text, g);
  }

  lemma UsersStep(st: Stream, n: nat, f: nat, g: nat, accF: UserMap, accG: UserMap, u: User)
    requires n > 0 && u == GetUser(st, f, g, accF, accG)
    ensures GetUsers(st, n, f, g, accF, accG) ==
            GetUsers(u.rest, n - 1, u.f, u.g, accF[u.name := u.functions], accG[u.name := u.globalvars])
  {
  }

  lemma ReadsFirstUser(st: Stream, funcs: UserMap, gvs: UserMap, ks: seq<string>, f: nat, g: nat,
                       accF: UserMap, accG: UserMap) returns (u: User)
    requires UsersFit(funcs, gvs) && accF.Keys == accG.Keys && ks != []
    requires forall k :: k in ks ==> k in funcs && k !in accF
    requires Ready(st, UsersText(funcs, gvs, ks, ks))
    ensures u == GetUser(st, f, g, accF, accG) && u.name == ks[0]
    ensures u.functions == funcs[ks[0]] && u.globalvars == gvs[ks[0]]
    ensures Ready(u.rest, UsersText(funcs, gvs, ks[1..], ks[1..]))
  {
    var k := ks[0];
    ReadsUser(st, k, funcs[k], gvs[k], UsersText(funcs, gvs, ks[1..], ks[1..]), f, g, accF, accG);
    u := GetUser(st, f, g, accF, accG);
  }

  lemma HeadIsFresh(ks: seq<string>)
    requires Ascending(ks) && ks != []
    ensures Ascending(ks[1..]) && ks[0] !in ks[1..]
  {
    LessIrreflexive(ks[0]);
  }

  lemma {:induction false} ReadsUsers(st: Stream, n: nat, funcs: UserMap, gvs: UserMap, ks: seq<string>, f: nat, g: nat,
                                      accF: UserMap, accG: UserMap)
    returns (r: (UserMap, UserMap, Stream))
    requires UsersFit(funcs, gvs) && Ascending(ks) && accF.Keys == accG.Keys && n == |ks|
    requires forall k :: k in ks ==> k in funcs && k !in accF
    requires Ready(st, UsersText(funcs, gvs, ks, ks))
    ensures r == GetUsers(st, n, f, g, accF, accG)
    ensures r.0 == accF + Part(funcs, ks) && r.1 == accG + Part(gvs, ks)
    decreases n
  {
    if n == 0 {
      r := (accF, accG, st);
    } else {
      var u := ReadsFirstUser(st, funcs, gvs, ks, f, g, accF, accG);
      UsersStep(st, n, f, g, accF, accG, u);
      HeadIsFresh(ks);
      r := ReadsUsers(u.rest, n - 1, funcs, gvs, ks[1..], u.f, u.g,
                      accF[u.name := u.functions], accG[u.name := u.globalvars]);
      PartStep(accF, funcs, ks);
      PartStep(accG, gvs, ks);
    }
  }

  ghost predicate NumbersFit(r: Results) {
    && |r.initcalls| <= MAX && |r.funcs| <= MAX
    && r.maxCGDepth <= MAX && r.maxNumFunctions <= MAX && r.maxNumGlobalVars <= MAX
  }

  /** What can be exported so that it is read back: keys are names, both maps list the same variables,
      all names are words and all numbers fit. */
  ghost predicate Exportable(r: Results) {
    && UsersFit(r.funcs, r.gvs)
    && (forall k :: k in r.initcalls ==> r.initcalls[k].name == k && Sizes(r.initcalls[k]) && Named(r.initcalls[k]))
    && NumbersFit(r)
  }

  /** Importing the text of exported results into a new factory restores them. */
  lemma ImportRestores(r: Results)
    requires Exportable(r)
    ensures Imported(Stream(FileText(r), true), EMPTY).0 == r
  {
    var s5 := ReadsHead(Stream(FileText(r), true), r);
    ReadsTail(s5, r);
  }

  /** Reads the users, behind everything else. */
  lemma ReadsTail(s5: Stream, r: Results)
    requires Exportable(r)
    requires var ks := Listed(r.funcs.Keys);
             Ready(s5, Line(Digits(|r.funcs|)) + UsersText(r.funcs, r.gvs, ks, ks))
    ensures var (k, s6) := GetNum(s5, 0);
            var (funcs, gvs, s7) := GetUsers(s6, k, 0, 0, map[], map[]);
            funcs == r.funcs && gvs == r.gvs
  {
    var ks := Listed(r.funcs.Keys);
    assert |ks| == |r.funcs.Keys| == |r.funcs|;
    ReadsNum(s5, |r.funcs|, UsersText(r.funcs, r.gvs, ks, ks), 0);
    var users := ReadsUsers(GetNum(s5, 0).1, |r.funcs|, r.funcs, r.gvs, ks, 0, 0, map[], map[]);
    WholeMap(r.funcs, ks);
    WholeMap(r.gvs, ks);
  }

  lemma WholeMap<V>(m: map<string, V>, ks: seq<string>)
    requires forall k :: k in ks <==> k in m
    ensures map[] + Part(m, ks) == m
  {
  }

  /** Reads everything in front of the users. */
  lemma ReadsHead(st: Stream, r: Results) returns (s5: Stream)
    requires Exportable(r) && st == Stream(FileText(r), true)
    ensures var (n, s1) := GetNum(st, 0); var (ics, s2) := GetInitcalls(s1, n, map[]);
            var (d, s3) := GetNum(s2, 0); var (mf, s4) := GetNum(s3, 0);
            && ics == r.initcalls && d == r.maxCGDepth && mf == r.maxNumFunctions
            && GetNum(s4, 0) == (r.maxNumGlobalVars, s5)
    ensures var ks := Listed(r.funcs.Keys);
            Ready(s5, Line(Digits(|r.funcs|)) + UsersText(r.funcs, r.gvs, ks, ks))
  {
    var ks := Listed(r.funcs.Keys);
    var t5 := Line(Digits(|r.funcs|)) + UsersText(r.funcs, r.gvs, ks, ks);
    var t4 := Line(Digits(r.maxNumGlobalVars)) + t5;
    var t3 := Line(Digits(r.maxNumFunctions)) + t4;
    var t2 := Line(Digits(r.maxCGDepth)) + t3;
    assert Blank("") && st.rest == "" + FileText(r);
    var s2 := ReadsAllInitcalls(st, r.initcalls, t2);
    s5 := ReadsNumbers(s2, r.maxCGDepth, r.maxNumFunctions, r.maxNumGlobalVars, t5);
  }

  lemma ReadsAllInitcalls(st: Stream, ics: InitcallMap, text: string) returns (s2: Stream)
    requires |ics| <= MAX && forall k :: k in ics ==> ics[k].name == k && Sizes(ics[k]) && Named(ics[k])
    requires Ready(st, Line(Digits(|ics|)) + (InitcallsText(ics, Listed(ics.Keys)) + text))
    ensures var (n, s1) := GetNum(st, 0);
            n == |ics| && GetInitcalls(s1, n, map[]) == (ics, s2) && Ready(s2, text)
  {
    var ks := Listed(ics.Keys);
    assert |ks| == |ics.Keys| == |ics|;
    ReadsNum(st, |ics|, InitcallsText(ics, ks) + text, 0);
    var s1 := GetNum(st, 0).1;
    ReadsInitcalls(s1, ics, ks, text, map[]);
    WholeMap(ics, ks);
    s2 := GetInitcalls(s1, |ics|, map[]).1;
  }

  lemma ReadsNumbers(st: Stream, a: nat, b: nat, c: nat, text: string) returns (r: Stream)
    requires a <= MAX && b <= MAX && c <= MAX
    requires Ready(st, Line(Digits(a)) + (Line(Digits(b)) + (Line(Digits(c)) + text)))
    ensures var (x, s1) := GetNum(st, 0); var (y, s2) := GetNum(s1, 0);
            x == a && y == b && GetNum(s2, 0) == (c, r) && Ready(r, text)
  {
    ReadsNum(st, a, Line(Digits(b)) + (Line(Digits(c)) + text), 0);
    var s1 := GetNum(st, 0).1;
    ReadsNum(s1, b, Line(Digits(c)) + text, 0);
    var s2 := GetNum(s1, 0).1;
    ReadsNum(s2, c, text, 0);
    r := GetNum(s2, 0).1;
  }

  // ---- names that are not words are not read back

  predicate CleanSet(s: set<string>) {
    forall x :: x in s ==> Clean(x)
  }

  predicate CleanInitcall(ic: Initcall) {
    Clean(ic.name) && CleanSet(ic.functions) && CleanSet(ic.globalvars) && CleanSet(ic.nondefvars)
  }

  ghost predicate CleanUsers(m: UserMap) {
    forall v :: v in m ==> Clean(v) && CleanSet(m[v])
  }

  ghost predicate CleanResults(r: Results) {
    (forall k :: k in r.initcalls ==> CleanInitcall(r.initcalls[k])) && CleanUsers(r.funcs) && CleanUsers(r.gvs)
  }

  lemma {:induction false} GetsCleanWords(st: Stream, n: nat, acc: set<string>)
    requires CleanSet(acc)
    ensures CleanSet(GetWords(st, n, acc).0)
    decreases n
  {
    if n > 0 {
      var (w, st') := GetWord(st, "");
      GetsCleanWords(st', n - 1, acc + {w});
    }
  }

  lemma GetsCleanCounted(st: Stream, old': nat, acc: set<string>)
    requires CleanSet(acc)
    ensures CleanSet(GetCounted(st, old', acc).1)
  {
    var (n, st') := GetNum(st, old');
    GetsCleanWords(st', n, acc);
  }

  lemma GetsCleanInitcall(st: Stream)
    ensures CleanInitcall(GetInitcall(st).0)
  {
    var (name, s1) := GetWord(st, "");
    var s2 := GetNum(s1, 0).1;
    GetsCleanCounted(s2, 0, {});
    var s3 := GetSet(s2, {}).1;
    GetsCleanCounted(s3, 0, {});
    var s4 := GetSet(s3, {}).1;
    GetsCleanCounted(s4, 0, {});
  }

  lemma {:induction false} GetsCleanInitcalls(st: Stream, n: nat, acc: InitcallMap)
    requires forall k :: k in acc ==> CleanInitcall(acc[k])
    ensures forall k :: k in GetInitcalls(st, n, acc).0 ==> CleanInitcall(GetInitcalls(st, n, acc).0[k])
    decreases n
  {
    if n > 0 {
      var (ic, st') := GetInitcall(st);
      GetsCleanInitcall(st);
      GetsCleanInitcalls(st', n - 1, acc[ic.name := ic]);
    }
  }

  lemma GetsCleanUser(st: Stream, f: nat, g: nat, funcs: UserMap, gvs: UserMap)
    requires CleanUsers(funcs) && CleanUsers(gvs)
    ensures var u := GetUser(st, f, g, funcs, gvs); Clean(u.name) && CleanSet(u.functions) && CleanSet(u.globalvars)
  {
    var (v, s1) := GetWord(st, "");
    GetsCleanCounted(s1, f, Get(funcs, v));
    var s2 := GetCounted(s1, f, Get(funcs, v)).2;
    GetsCleanCounted(s2, g, Get(gvs, v));
  }

  lemma {:induction false} GetsCleanUsers(st: Stream, n: nat, f: nat, g: nat, funcs: UserMap, gvs: UserMap)
    requires CleanUsers(funcs) && CleanUsers(gvs)
    ensures CleanUsers(GetUsers(st, n, f, g, funcs, gvs).0) && CleanUsers(GetUsers(st, n, f, g, funcs, gvs).1)
    decreases n
  {
    if n > 0 {
      var u := GetUser(st, f, g, funcs, gvs);
      GetsCleanUser(st, f, g, funcs, gvs);
      GetsCleanUsers(u.rest, n - 1, u.f, u.g, funcs[u.name := u.functions], gvs[u.name := u.globalvars]);
    }
  }

  /** Whatever the text, no imported name holds white space. */
  lemma ImportsCleanNames(st: Stream)
    ensures CleanResults(Imported(st, EMPTY).0)
  {
    var (n, s1) := GetNum(st, 0);
    var (ics, s2) := GetInitcalls(s1, n, map[]);
    GetsCleanInitcalls(s1, n, map[]);
    var s5 := GetNum(GetNum(GetNum(s2, 0).1, 0).1, 0).1;
    var (k, s6) := GetNum(s5, 0);
    GetsCleanUsers(s6, k, 0, 0, map[], map[]);
  }

  predicate NotEmptyNames(ic: Initcall) {
    ic.name != "" && "" !in ic.functions && "" !in ic.globalvars && "" !in ic.nondefvars
  }

  ghost predicate UsersSized(funcs: UserMap, gvs: UserMap) {
    && funcs.Keys == gvs.Keys
    && forall v :: v in funcs ==> v != "" && "" !in funcs[v] && "" !in gvs[v] && |funcs[v]| <= MAX && |gvs[v]| <= MAX
  }

  /** No name is empty, all numbers fit, and the maps belong together. */
  ghost predicate WellFormed(r: Results) {
    && UsersSized(r.funcs, r.gvs)
    && (forall k :: k in r.initcalls ==>
          r.initcalls[k].name == k && Sizes(r.initcalls[k]) && NotEmptyNames(r.initcalls[k]))
    && NumbersFit(r)
  }

  lemma CleanIsExportable(r: Results)
    requires WellFormed(r) && CleanResults(r)
    ensures Exportable(r)
  {
  }

  /** Results are restored exactly if no name holds white space. */
  lemma RestoredIffClean(r: Results)
    requires WellFormed(r)
    ensures Imported(Stream(FileText(r), true), EMPTY).0 == r <==> CleanResults(r)
  {
    ImportsCleanNames(Stream(FileText(r), true));
    if CleanResults(r) {
      CleanIsExportable(r);
      ImportRestores(r);
    }
  }
}
