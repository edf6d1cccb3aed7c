/**
 Where spaces matter on a command line: around operators and at the ends not at all, between
 arguments in a way the grammar does not say.
 */
module Spacing {
  import opened ParseSpec
  import opened Grammar
  import opened Parser
  import opened RoundTrip
  import opened LineLaws

  // ----- around operators -----

  /** Between x and y there is an operator on one side, or nothing. */
  predicate Boundary(x: string, y: string) {
    x == "" || y == "" || IsOp(x[|x| - 1]) || IsOp(y[0])
  }

  lemma CommandIs(a: string, t: string, s: string)
    requires Opless(a) && s == a + t && (t == "" || IsOp(t[0]))
    ensures CommandText(s) == Trim(a)
  {
    hide Trim, FindOp;
    BeforeFirst(a, t, s);
  }

  lemma CommandSameBefore(x: string, w: string, y: string)
    requires AllBlank(w) && Opless(x) && (x == "" || y == "" || IsOp(y[0]))
    ensures CommandText(x + w + y) == CommandText(x + y)
  {
    hide Trim, FindOp, CommandText;
    var y0, t := y[..FindOp(y)], y[FindOp(y)..];
    Halves(y, FindOp(y));
    assert x + w + y == (x + w + y0) + t && x + y == (x + y0) + t;
    CommandIs(x + w + y0, t, x + w + y);
    CommandIs(x + y0, t, x + y);
    if x == "" {
      TrimHead(w, y0);
      assert x + w + y0 == w + y0 && x + y0 == y0;
    } else {
      assert y0 == "";
      TrimTail(x, w);
      assert x + w + y0 == x + w && x + y0 == x;
    }
  }

  lemma CommandSame(x: string, w: string, y: string)
    requires AllBlank(w) && Boundary(x, y)
    ensures CommandText(x + w + y) == CommandText(x + y)
  {
    hide Trim, FindOp, CommandText;
    if Opless(x) {
      CommandSameBefore(x, w, y);
    } else {
      var a, m := FirstOp(x);
      var t := [x[FindOp(x)]] + m;
      assert x + w + y == a + (t + w + y) && x + y == a + (t + y);
      CommandIs(a, t + w + y, x + w + y);
      CommandIs(a, t + y, x + y);
    }
  }

  /** The file behind an operator is what a command would be there. */
  lemma FileIs(op: char, a: string, m: string, s: string)
    requires op !in a && s == a + ([op] + m)
    ensures FileAfter(op, s) == Some(CommandText(m))
  {
    hide Trim, FindOp, Find;
    FindAfter(a, op, [op] + m);
    assert s[|a|] == op && s[|a| + 1..] == m;
  }

  lemma NoFileAfter(op: char, s: string)
    requires op !in s
    ensures FileAfter(op, s) == None
  {
  }

  lemma CutAt(op: char, s: string) returns (a: string, m: string)
    requires op in s
    ensures op !in a && s == a + ([op] + m) && (m != "" ==> m[|m| - 1] == s[|s| - 1])
  {
    hide Find;
    var i := Find(s, op);
    FindBound(s, op);
    a, m := s[..i], s[i + 1..];
    assert s[i..] == [op] + m;
    Halves(s, i);
  }

  lemma FileSame(op: char, x: string, w: string, y: string)
    requires AllBlank(w) && Boundary(x, y) && IsOp(op)
    ensures FileAfter(op, x + w + y) == FileAfter(op, x + y)
  {
    hide FileAfter, CommandText;
    assert op !in w;
    if op in x {
      var a, m := CutAt(op, x);
      assert x + w + y == a + ([op] + (m + w + y)) && x + y == a + ([op] + (m + y));
      FileIs(op, a, m + w + y, x + w + y);
      FileIs(op, a, m + y, x + y);
      CommandSame(m, w, y);
    } else if op in y {
      var a, m := CutAt(op, y);
      assert x + w + y == (x + w + a) + ([op] + m) && x + y == (x + a) + ([op] + m);
      FileIs(op, x + w + a, m, x + w + y);
      FileIs(op, x + a, m, x + y);
    } else {
      NoFileAfter(op, x + w + y);
      NoFileAfter(op, x + y);
    }
  }

  lemma BlankUnmarked(w: string)
    requires AllBlank(w)
    ensures Unmarked(w)
  {
  }

  lemma MarksSame(x: string, w: string, y: string)
    requires Unmarked(w)
    ensures OneOfEach(x + w + y) <==> OneOfEach(x + y)
  {
    assert multiset(x + w + y) == multiset(x) + multiset(w) + multiset(y) && multiset(x + y) == multiset(x) + multiset(y);
  }

  lemma CommandParsesSame(q: char, s: string, t: string)
    requires CommandText(s) == CommandText(t)
    ensures ParseCommand(q, s[..FindOp(s)]) == ParseCommand(q, t[..FindOp(t)])
  {
    hide Trim, FindOp;
  }

  lemma UnitSame(q: char, x: string, w: string, y: string)
    requires AllBlank(w) && Boundary(x, y) && '|' !in x && '|' !in y
    ensures ParseUnit(q, x + w + y) == ParseUnit(q, x + y)
  {
    hide ParseUnit, ParseCommand, FileAfter, CommandText, FindOp, OneOfEach, Boundary;
    BlankUnmarked(w);
    MarksSame(x, w, y);
    if OneOfEach(x + y) {
      UnitIs(q, x + y);
      UnitIs(q, x + w + y);
      CommandSame(x, w, y);
      CommandParsesSame(q, x + w + y, x + y);
      FileSame('<', x, w, y);
      FileSame('>', x, w, y);
    } else {
      UnitRefusedFor(q, x + y);
      UnitRefusedFor(q, x + w + y);
    }
  }

  lemma {:induction false} NonEmptyAppend(xs: seq<string>, ys: seq<string>)
    ensures NonEmpty(xs + ys) == NonEmpty(xs) + NonEmpty(ys)
  {
    if xs == [] {
      assert xs + ys == ys;
    } else {
      assert (xs + ys)[1..] == xs[1..] + ys;
      NonEmptyAppend(xs[1..], ys);
    }
  }

  lemma {:induction false} EachSame(q: char, pre: seq<string>, u: string, v: string, post: seq<string>)
    requires forall c :: ParseUnit(c, u) == ParseUnit(c, v)
    ensures ParseEach(q, pre + ([u] + post)) == ParseEach(q, pre + ([v] + post))
  {
    hide ParseUnit;
    if pre == [] {
      EachStep(q, u, post);
      EachStep(q, v, post);
      assert pre + ([u] + post) == [u] + post && pre + ([v] + post) == [v] + post;
    } else {
      assert (pre + ([u] + post))[1..] == pre[1..] + ([u] + post);
      assert (pre + ([v] + post))[1..] == pre[1..] + ([v] + post);
      EachSame(NUL, pre[1..], u, v, post);
    }
  }

  /** The segments of two texts in a row: the last of one and the first of the other are one. */
  lemma {:induction false} SegmentsConcat(a: string, b: string)
    ensures var xs, ys := Segments(a), Segments(b);
      Segments(a + b) == xs[..|xs| - 1] + ([xs[|xs| - 1] + ys[0]] + ys[1..])
    decreases |a|
  {
    hide Segments, Find;
    var i := Find(a, '|');
    var ys := Segments(b);
    if i < |a| {
      var u, r := a[..i], a[i + 1..];
      SegmentsStep(a, i);
      SegmentsConcat(r, b);
      Assoc(u, ['|'] + r, b);
      Assoc(['|'], r, b);
      SegmentsCons(u, r + b, a + b);
      var xs := Segments(r);
      assert ([u] + xs)[..|xs|] == [u] + xs[..|xs| - 1];
      assert [u] + (xs[..|xs| - 1] + ([xs[|xs| - 1] + ys[0]] + ys[1..])) == ([u] + xs[..|xs| - 1]) + ([xs[|xs| - 1] + ys[0]] + ys[1..]);
    } else {
      NoBars(a);
      SegmentsHead(a, b);
      assert [a][..0] == [];
    }
  }

  /** The last segment of a is empty only behind a bar, and shares its last character; likewise the first of b. */
  lemma SegmentEnds(a: string)
    ensures var xs := Segments(a); var x, y := xs[|xs| - 1], xs[0];
      && '|' !in x && '|' !in y
      && (if x == "" then a == "" || a[|a| - 1] == '|' else a != "" && x[|x| - 1] == a[|a| - 1])
      && (if y == "" then a == "" || a[0] == '|' else a != "" && y[0] == a[0])
  {
    hide Find, Segments;
    SegmentsJoin(a);
    LastOfJoin(Segments(a));
    FirstOfJoin(Segments(a));
  }

  lemma {:induction false} LastOfJoin(xs: seq<string>)
    requires xs != []
    ensures var x, s := xs[|xs| - 1], JoinBars(xs);
      if x == "" then s == "" || s[|s| - 1] == '|' else s != "" && s[|s| - 1] == x[|x| - 1]
  {
    if |xs| > 1 {
      LastOfJoin(xs[1..]);
    }
  }

  lemma FirstOfJoin(xs: seq<string>)
    requires xs != []
    ensures var y, s := xs[0], JoinBars(xs);
      if y == "" then s == "" || s[0] == '|' else s != "" && s[0] == y[0]
  {
  }

  /** Two bars with nothing between them: blanks there would make a unit. */
  predicate BetweenBars(a: string, b: string) {
    a != "" && b != "" && a[|a| - 1] == '|' && b[0] == '|'
  }

  /** The units of a text in which blanks are put next to an operator. */
  lemma UnitsSame(q: char, a: string, w: string, b: string)
    requires AllBlank(w) && a != "" && b != "" && Boundary(a, b) && !BetweenBars(a, b) && a[0] != '|'
    ensures Units(q, a + w + b) == Units(q, a + b)
  {
    hide Units, ParseUnit, ParseEach, NonEmpty, Segments;
    var xs, ys := Segments(a), Segments(b);
    var x, y := xs[|xs| - 1], ys[0];
    var pre, post := xs[..|xs| - 1], ys[1..];
    SegmentEnds(a);
    SegmentEnds(b);
    SegmentsConcat(a, b);
    SegmentsConcat(a, w + b);
    SegmentsHead(w, b);
    assert a + w + b == a + (w + b) && x + (w + y) == x + w + y;
    NonEmptyStep(x + y, post);
    NonEmptyStep(x + w + y, post);
    NonEmptyAppend(pre, [x + y] + post);
    NonEmptyAppend(pre, [x + w + y] + post);
    forall c ensures ParseUnit(c, x + w + y) == ParseUnit(c, x + y) {
      UnitSame(c, x, w, y);
    }
    EachSame(q, NonEmpty(pre), x + w + y, x + y, NonEmpty(post));
    UnitsAre(q, a + b);
    UnitsAre(q, a + w + b);
  }

  lemma StartSame(guard: char, a: string, w: string, b: string, stray: bool, background: bool)
    requires AllBlank(w) && a != "" && b != ""
    ensures Start(guard, a + w + b, stray, background) == Start(guard, a + b, stray, background)
    ensures a[0] == '|' ==> Start(guard, a + b, stray, background).invalidSyntax
  {
    CountAppend('|', a, b);
    CountAppend('|', a + w, b);
    CountAppend('|', a, w);
    CountAbsent('|', w);
  }

  lemma OuterBlanks(s: string) returns (x: string, core: string, y: string)
    requires !AllBlank(s)
    ensures AllBlank(x) && AllBlank(y) && Solid(core) && s == x + core + y
  {
    x, y := Trimmed(s);
    core := Trim(s);
    assert core == "" ==> s == x + y;
  }

  lemma AddedSame(guard: char, a: string, w: string, b: string, stray: bool, background: bool)
    requires AllBlank(w) && a != "" && b != "" && Boundary(a, b) && !BetweenBars(a, b)
    ensures AddAll(Start(guard, a + w + b, stray, background), Units(guard, a + w + b), 0)
            == AddAll(Start(guard, a + b, stray, background), Units(guard, a + b), 0)
  {
    hide Units, AddAll, Start, Boundary, BetweenBars;
    StartSame(guard, a, w, b, stray, background);
    if a[0] == '|' {
      AddAllKeepsBackground(Start(guard, a + b, stray, background), Units(guard, a + b), 0);
      AddAllKeepsBackground(Start(guard, a + b, stray, background), Units(guard, a + w + b), 0);
      RefusedAtOnce(Start(guard, a + b, stray, background), Units(guard, a + b), Units(guard, a + w + b));
    } else {
      UnitsSame(guard, a, w, b);
    }
  }

  lemma RefusedAtOnce(p: Parse, us: seq<Unit>, vs: seq<Unit>)
    requires p.invalidSyntax
    ensures AddAll(p, us, 0) == AddAll(p, vs, 0)
  {
  }

  /** A text without blanks at its front, and one without blanks at its end. */
  lemma TrimOuter(x: string, a: string, b: string, y: string)
    requires AllBlank(x) && AllBlank(y) && a != "" && !IsSpace(a[0]) && b != "" && !IsSpace(b[|b| - 1])
    ensures Trim(x + a + b + y) == a + b
  {
    assert x + a + b + y == x + (a + b) + y;
    TrimPadded(x, a + b, y);
  }

  lemma BodySame(guard: char, a: string, w: string, b: string, stray: bool, background: bool)
    requires AllBlank(w) && Boundary(a, b) && !BetweenBars(a, b)
    ensures var s, t := Trim(a + w + b), Trim(a + b);
      AddAll(Start(guard, s, stray, background), Units(guard, s), 0) == AddAll(Start(guard, t, stray, background), Units(guard, t), 0)
  {
    hide Trim, Units, AddAll, Start;
    if AllBlank(a) {
      TrimHead(a + w, b);
      TrimHead(a, b);
    } else if AllBlank(b) {
      assert a + w + b == a + (w + b);
      TrimTail(a, w + b);
      TrimTail(a, b);
    } else {
      var x, c, x' := OuterBlanks(a);
      var y', d, y := OuterBlanks(b);
      var front, back := c + x', y' + d;
      assert a == x + front && b == back + y;
      assert a + w + b == x + front + (w + back) + y && a + b == x + front + back + y;
      TrimOuter(x, front, w + back, y);
      TrimOuter(x, front, back, y);
      assert front + (w + back) == front + w + back;
      AddedSame(guard, front, w, back, stray, background);
    }
  }

  lemma OnlyTrimmed(guard: char, s: string, t: string)
    requires Trim(s) == Trim(t)
    ensures ParseCmdline(guard, s) == ParseCmdline(guard, t)
  {
    hide Trim;
  }

  lemma LastOfTrim(s: string, t: string)
    requires Trim(t) != ""
    ensures Trim(s + t) != "" && Trim(s + t)[|Trim(s + t)| - 1] == Trim(t)[|Trim(t)| - 1]
  {
    hide Trim;
    var a, b := Trimmed(t);
    var c, d := Trimmed(s);
    var core := Trim(t);
    if Trim(s) == "" {
      assert s + t == (c + d + a) + core + b;
      TrimPadded(c + d + a, core, b);
    } else {
      SolidBetween(Trim(s), d + a, core);
      assert s + t == c + (Trim(s) + (d + a) + core) + b;
      TrimPadded(c, Trim(s) + (d + a) + core, b);
    }
  }

  /** Blanks next to an operator or at either end of the line make no difference. */
  lemma BlanksAroundMarks(guard: char, a: string, w: string, b: string)
    requires AllBlank(w) && Boundary(a, b) && !BetweenBars(a, b)
    ensures ParseCmdline(guard, a + w + b) == ParseCmdline(guard, a + b)
  {
    hide ParseCmdline, Trim, AddAll, Units, Start;
    if Trim(b) == "" {
      var x, y := Trimmed(b);
      assert b == x + y;
      assert a + w + b == a + (w + b);
      TrimTail(a, w + b);
      TrimTail(a, b);
      OnlyTrimmed(guard, a + w + b, a + b);
    } else {
      var body, background := LineReads(b);
      LastOfTrim(a, b);
      LastOfTrim(a + w, b);
      if background {
        var blanks :| AllBlank(blanks) && b == body + ("&" + blanks);
        assert a + b == (a + body) + ("&" + blanks) && a + w + b == (a + w + body) + ("&" + blanks);
      }
      LineIs(guard, a + b, a + body, background);
      LineIs(guard, a + w + b, a + w + body, background);
      assert '&' !in w;
      BodySame(guard, a, w, body, '&' in a + body, background);
    }
  }

  // ----- between arguments -----

  /** Arguments with any number of spaces in front of each. */
  function Spread(args: seq<Arg>, gaps: seq<nat>): string
    requires |gaps| == |args|
  {
    if args == [] then "" else Spaces(gaps[0]) + (ShowArg(args[0]) + Spread(args[1..], gaps[1..]))
  }

  function OddGaps(gaps: seq<nat>): nat {
    if gaps == [] then 0 else gaps[0] % 2 + OddGaps(gaps[1..])
  }

  lemma {:induction false} OddGapsAll(gaps: seq<nat>)
    ensures OddGaps(gaps) <= |gaps|
    ensures OddGaps(gaps) == |gaps| <==> forall k :: 0 <= k < |gaps| ==> gaps[k] % 2 == 1
  {
    if gaps != [] {
      OddGapsAll(gaps[1..]);
      assert forall k :: 1 <= k < |gaps| ==> gaps[k] == gaps[1..][k - 1];
    }
  }

  lemma TwoSpaces(z: string, s: string)
    requires s == [' ', ' '] + z
    ensures CountArgs(s) == CountArgs(z)
  {
    assert s[2..] == z;
  }

  /** count_args() reads spaces two by two: of an even number it sees nothing, of an odd number one. */
  lemma {:induction false} SpacesPair(n: nat, r: string)
    requires n % 2 == 0
    ensures CountArgs(Spaces(n) + r) == CountArgs(r)
    ensures CountArgs(Spaces(n + 1) + r) == CountArgs(" " + r)
    decreases n
  {
    hide CountArgs;
    if n == 0 {
      assert Spaces(0) + r == r && Spaces(1) + r == " " + r;
    } else {
      SpacesPair(n - 2, r);
      TwoSpaces(Spaces(n - 2) + r, Spaces(n) + r);
      TwoSpaces(Spaces(n - 1) + r, Spaces(n + 1) + r);
    }
  }

  lemma CountOne(a: Arg, r: string)
    requires ValidArg(a)
    ensures CountArgs(" " + (ShowArg(a) + r)) == AddOne(CountArgs(r))
  {
    hide CountArgs;
    var s := [' '] + ShowArg(a) + r;
    assert " " + (ShowArg(a) + r) == s;
    match a
    case Word(text) => CountWord(text, r, s);
    case Phrase(quote, text) => CountPhrase(quote, text, r, s);
  }

  lemma CountSpaced(a: Arg, n: nat, r: string)
    requires ValidArg(a) && n % 2 == 1
    ensures CountArgs(Spaces(n) + (ShowArg(a) + r)) == AddOne(CountArgs(r))
  {
    hide *;
    var m: nat := n - 1;
    SpacesPair(m, ShowArg(a) + r);
    CountOne(a, r);
    assert n == m + 1;
  }

  lemma CountUnspaced(text: string, n: nat, r: string)
    requires ValidWord(text) && n % 2 == 0
    ensures CountArgs(Spaces(n) + (text + r)) == CountArgs(r)
  {
    hide CountArgs;
    SpacesPair(n, text + r);
    CountArgsSkips(text, r);
  }

  lemma {:induction false} CountSpread(args: seq<Arg>, gaps: seq<nat>)
    requires |gaps| == |args| && forall k :: 0 <= k < |args| ==> ValidArg(args[k]) && (args[k].Word? || gaps[k] % 2 == 1)
    ensures CountArgs(Spread(args, gaps)) == Some(OddGaps(gaps))
  {
    hide CountArgs, ShowArg;
    if args == [] {
      assert CountArgs("") == Some(0) by {
        NothingToCount();
      }
    } else {
      var r := Spread(args[1..], gaps[1..]);
      CountSpread(args[1..], gaps[1..]);
      if gaps[0] % 2 == 1 {
        CountSpaced(args[0], gaps[0], r);
      } else {
        assert ShowArg(args[0]) == args[0].text by {
          WordShown(args[0]);
        }
        CountUnspaced(args[0].text, gaps[0], r);
      }
    }
  }

  lemma NothingToCount()
    ensures CountArgs("") == Some(0)
  {
  }

  lemma WordShown(a: Arg)
    requires a.Word?
    ensures ShowArg(a) == a.text
  {
  }

  lemma {:induction false} TokensSkipSpaces(n: nat, s: string)
    ensures Tokens(NUL, Spaces(n) + s) == Tokens(NUL, s)
  {
    hide Tokens;
    if n == 0 {
      assert Spaces(0) + s == s;
    } else {
      TokensSkipSpaces(n - 1, s);
      TokensSkipSpace(Spaces(n - 1) + s);
      assert Spaces(n) + s == [' '] + (Spaces(n - 1) + s);
    }
  }

  lemma SpreadStarts(args: seq<Arg>, gaps: seq<nat>)
    requires |gaps| == |args| && forall k :: 0 <= k < |gaps| ==> gaps[k] >= 1
    ensures Spread(args, gaps) == "" || Spread(args, gaps)[0] == ' '
  {
  }

  lemma {:induction false} TokensSpread(args: seq<Arg>, gaps: seq<nat>)
    requires |gaps| == |args| && forall k :: 0 <= k < |args| ==> ValidArg(args[k]) && gaps[k] >= 1
    ensures Tokens(NUL, Spread(args, gaps)) == Texts(args)
  {
    hide Tokens, ShowArg;
    if args == [] {
      NoToken(NUL, "");
    } else {
      var r := Spread(args[1..], gaps[1..]);
      TokensSpread(args[1..], gaps[1..]);
      SpreadStarts(args[1..], gaps[1..]);
      TokenArg(args[0], r);
      TokensSkipSpaces(gaps[0], ShowArg(args[0]) + r);
    }
  }

  lemma {:induction false} SpreadInert(args: seq<Arg>, gaps: seq<nat>)
    requires |gaps| == |args| && forall k :: 0 <= k < |args| ==> ValidArg(args[k])
    ensures Inert(Spread(args, gaps))
    ensures args != [] ==> Spread(args, gaps) != "" && !IsSpace(Spread(args, gaps)[|Spread(args, gaps)| - 1])
  {
    if args != [] {
      ShowArgInert(args[0]);
      SpreadInert(args[1..], gaps[1..]);
    }
  }

  /** Arguments that can be printed, each behind a space at least. */
  predicate Separated(args: seq<Arg>, gaps: seq<nat>) {
    |gaps| == |args| && forall k :: 0 <= k < |args| ==> ValidArg(args[k]) && gaps[k] >= 1
  }

  lemma SpreadSolid(c: Command, gaps: seq<nat>)
    requires ValidWord(c.name) && Separated(c.args, gaps)
    ensures var s := c.name + Spread(c.args, gaps); Inert(s) && Solid(s)
  {
    SpreadInert(c.args, gaps);
  }

  lemma TokensOfSpread(c: Command, gaps: seq<nat>, q: char)
    requires ValidWord(c.name) && Separated(c.args, gaps) && Quote(q) == NUL
    ensures Tokens(q, c.name + Spread(c.args, gaps)) == Argv(c)
  {
    hide Tokens;
    SpreadStarts(c.args, gaps);
    TokenWord(q, c.name, Spread(c.args, gaps), c.name + Spread(c.args, gaps));
    TokensSpread(c.args, gaps);
  }

  /**
   argtok() splits at any number of spaces, count_args() sees an argument only behind an odd number. With
   odd numbers any command parses to its argv; a command of words with an even number anywhere overruns it.
   */
  lemma SpacesExactly(c: Command, gaps: seq<nat>, q: char)
    requires ValidWord(c.name) && Separated(c.args, gaps) && Quote(q) == NUL
    requires forall k :: 0 <= k < |gaps| ==> c.args[k].Word? || gaps[k] % 2 == 1
    ensures ParseCommand(q, c.name + Spread(c.args, gaps))
            == if forall k :: 0 <= k < |gaps| ==> gaps[k] % 2 == 1 then Some(Argv(c)) else None
  {
    hide Tokens, CountArgs, Trim;
    var s := c.name + Spread(c.args, gaps);
    SpreadSolid(c, gaps);
    SolidTrims(s);
    CountArgsSkips(c.name, Spread(c.args, gaps));
    CountSpread(c.args, gaps);
    OddGapsAll(gaps);
    TokensOfSpread(c, gaps, q);
    TextsLength(c.args);
  }

  lemma CleanUnmarked(s: string)
    requires CleanText(s)
    ensures Unmarked(s) && '&' !in s
  {
  }

  lemma CleanAppend(a: string, b: string)
    requires CleanText(a) && CleanText(b)
    ensures CleanText(a + b)
  {
    hide Clean;
  }

  lemma WordsQuoteless(c: Command, gaps: seq<nat>)
    requires ValidWord(c.name) && Separated(c.args, gaps) && forall k :: 0 <= k < |gaps| ==> c.args[k].Word?
    ensures Unmarked(c.name + Spread(c.args, gaps)) && '&' !in c.name + Spread(c.args, gaps)
  {
    hide Unmarked, Clean, Spread;
    SpreadPlain(c.args, gaps);
    CleanAppend(c.name, Spread(c.args, gaps));
    CleanUnmarked(c.name + Spread(c.args, gaps));
  }

  lemma {:induction false} SpreadPlain(args: seq<Arg>, gaps: seq<nat>)
    requires Separated(args, gaps) && forall k :: 0 <= k < |gaps| ==> args[k].Word?
    ensures CleanText(Spread(args, gaps))
  {
    if args != [] {
      SpreadPlain(args[1..], gaps[1..]);
    }
  }

  /** A line of one unit without redirections. */
  lemma PlainLine(s: string, guard: char)
    requires Solid(s) && Unmarked(s) && '&' !in s
    ensures Units(guard, s) == [ParseUnit(guard, s)] && ParseCmdline(guard, s) == AddAll(Parse(NoTasks(1), None, None, false, false), [ParseUnit(guard, s)], 0)
  {
    hide ParseCmdline, Trim, ParseUnit, Units, AddAll;
    SolidTrims(s);
    LineIs(guard, s, s, false);
    LastUnit(guard, s);
    OneUnit(guard, s);
    CountAbsent('|', s);
  }

  lemma PlainUnit(s: string, q: char)
    requires Unmarked(s)
    ensures ParseUnit(q, s) == match ParseCommand(q, s) case None => Undefined case Some(argv) => Unit(argv, None, None)
  {
    hide ParseUnit, ParseCommand, FindOp;
    assert s + "" == s;
    BeforeFirst(s, "", s);
    NoFileAfter('<', s);
    NoFileAfter('>', s);
    assert OneOfEach(s);
    UnitIs(q, s);
  }

  /** So a line of words is executed as one task, or goes wrong, as the numbers of spaces between the words have it. */
  lemma WordsOnALine(c: Command, gaps: seq<nat>, guard: char)
    requires ValidWord(c.name) && Separated(c.args, gaps) && Quote(guard) == NUL
    requires forall k :: 0 <= k < |gaps| ==> c.args[k].Word?
    ensures ParseCmdline(guard, c.name + Spread(c.args, gaps))
            == if forall k :: 0 <= k < |gaps| ==> gaps[k] % 2 == 1 then Parsed(Parse([Some(Argv(c))], None, None, false, false)) else Broken
  {
    hide ParseCmdline, ParseUnit, ParseCommand, Units, AddAll, Spread;
    var s := c.name + Spread(c.args, gaps);
    SpreadSolid(c, gaps);
    WordsQuoteless(c, gaps);
    PlainLine(s, guard);
    PlainUnit(s, guard);
    SpacesExactly(c, gaps, guard);
    OneTask(Argv(c), ParseUnit(guard, s));
  }

  lemma OneUnit(q: char, s: string)
    requires s != ""
    ensures ParseEach(q, NonEmpty([s])) == [ParseUnit(q, s)]
  {
    hide ParseUnit;
    NonEmptyStep(s, []);
    assert [s] + [] == [s];
    EachStep(q, s, []);
  }

  lemma OneTask(argv: seq<string>, u: Unit)
    requires u == Undefined || (u == Unit(argv, None, None) && argv != [] && argv[0] != "")
    ensures AddAll(Parse(NoTasks(1), None, None, false, false), [u], 0)
            == if u == Undefined then Broken else Parsed(Parse([Some(argv)], None, None, false, false))
  {
    var p := Parse(NoTasks(1), None, None, false, false);
    assert [u] + [] == [u];
    AddStep(p, u, [], 0);
    assert p.tasks[0 := Some(argv)] == [Some(argv)];
  }

  // ----- count_args(), one character at a time -----

  /** Outside quotes, behind an even or an odd number of spaces; or inside a pair of quotes. */
  datatype Scan = Outside(odd: bool) | Inside(quote: char)

  /** An argument starts behind an odd number of spaces; a quote there opens a phrase. None when the text ends too early. */
  function Arguments(at: Scan, s: string): Option<nat>
    decreases |s|
  {
    if s == "" then if at == Outside(false) then Some(0) else None
    else
      match at
      case Inside(quote) => if s[0] == quote then AddOne(Arguments(Outside(false), s[1..])) else Arguments(at, s[1..])
      case Outside(odd) =>
        if IsSpace(s[0]) then Arguments(Outside(!odd), s[1..])
        else if !odd then Arguments(Outside(false), s[1..])
        else if s[0] == '\"' || s[0] == '\'' then Arguments(Inside(s[0]), s[1..])
        else AddOne(Arguments(Outside(false), s[1..]))
  }

  lemma {:induction false} InsideQuotes(q: char, s: string)
    ensures Arguments(Inside(q), s) == if Find(s, q) == |s| then None else AddOne(Arguments(Outside(false), s[Find(s, q) + 1..]))
  {
    if s != "" && s[0] != q {
      InsideQuotes(q, s[1..]);
      assert Find(s, q) < |s| ==> s[1..][Find(s[1..], q) + 1..] == s[Find(s, q) + 1..];
    }
  }

  lemma BehindASpace(s: string)
    requires |s| >= 2 && IsSpace(s[0])
    ensures Arguments(Outside(false), s)
            == if IsSpace(s[1]) then Arguments(Outside(false), s[2..])
               else if Quote(s[1]) != NUL then Arguments(Inside(s[1]), s[2..])
               else AddOne(Arguments(Outside(false), s[2..]))
  {
    assert s[1..][0] == s[1] && s[1..][1..] == s[2..];
  }

  /** The scan of count_args(), with its look ahead and its inner loops, counts just those arguments, in any text. */
  lemma {:induction false} CountArgsExactly(s: string)
    ensures CountArgs(s) == Arguments(Outside(false), s)
    decreases |s|
  {
    if s == "" {
    } else if !IsSpace(s[0]) {
      CountArgsExactly(s[1..]);
    } else if |s| >= 2 {
      hide Arguments, Find;
      BehindASpace(s);
      if Quote(s[1]) != NUL {
        InsideQuotes(s[1], s[2..]);
        if Find(s[2..], s[1]) < |s[2..]| {
          CountArgsExactly(s[2..][Find(s[2..], s[1]) + 1..]);
        }
      } else {
        CountArgsExactly(s[2..]);
      }
    }
  }

  // ----- two bars with nothing between them -----

  lemma WordAccepted(q: char, x: string, first: bool, last: bool)
    requires ValidWord(x) && Quote(q) == NUL
    ensures UnitAccepted(q, x, first, last) && CommandText(x) == x && Tokens(q, x) == [x]
    ensures FileAfter('<', x) == None && FileAfter('>', x) == None
  {
    hide Tokens, Trim, FindOp, CommandText, FileAfter;
    assert x + "" == x;
    CommandIs(x, "", x);
    SolidTrims(x);
    NoFileAfter('<', x);
    NoFileAfter('>', x);
    TokenWord(q, x, "", x);
    NoToken(NUL, "");
    CountArgsSkips(x, "");
    NothingToCount();
    assert OneOfEach(x);
  }

  lemma DoubleBarSegments(x: string, y: string)
    requires '|' !in x && '|' !in y
    ensures Segments(x + "||" + y) == [x, "", y]
  {
    hide Segments;
    OneSegment(y);
    SegmentsCons("", y, "|" + y);
    SegmentsCons(x, "|" + y, x + "||" + y);
  }

  /** Two words with two bars between them are accepted as three tasks, of which the third is never filled in. */
  lemma DoubleBarAccepted(x: string, y: string, guard: char)
    requires ValidWord(x) && ValidWord(y) && Quote(guard) == NUL
    ensures ParseCmdline(guard, x + "||" + y) == Parsed(Parse([Some([x]), Some([y]), None], None, None, false, false))
  {
    hide ParseCmdline, Trim, Segments, Tokens, CommandText, FileAfter, UnitAccepted;
    var s := x + "||" + y;
    SolidTrims(s);
    DoubleBarSegments(x, y);
    NonEmptyStep(x, ["", y]);
    NonEmptyStep("", [y]);
    NonEmptyStep(y, []);
    assert [x] + ["", y] == [x, "", y] && [""] + [y] == ["", y] && [y] + [] == [y];
    var us := NonEmpty(Segments(s));
    assert us == [x, y];
    WordAccepted(guard, x, true, false);
    WordAccepted(NUL, y, false, false);
    assert '&' !in s;
    AcceptsExactly(guard, s, s, false);
    assert Meaning(guard, s, false).tasks == [Some([x]), Some([y]), None];
  }

  /** An ampersand alone is accepted too, as one task that is never filled in. */
  lemma AmpersandAlone(guard: char)
    requires guard != '|'
    ensures ParseCmdline(guard, "&") == Parsed(Parse([None], None, None, true, false))
  {
    hide ParseCmdline, Trim, AddAll, Units;
    assert "&" == "" + ("&" + "") && AllBlank("");
    TrimAll("");
    LineIs(guard, "&", "", true);
    NoUnits(guard);
    assert NoTasks(1) == [None];
    NoneAdded(Start(guard, "", false, true), [], 0);
  }

  // ----- tokens, told from the text -----

  /** The character that ends a token: the quote in front of it, or else a space. */
  function Ender(before: char): char {
    if Quote(before) == NUL then ' ' else before
  }

  /** s is gaps and tokens in turn; q is the byte in front of it. A token ends in front of the first ender, which is dropped. */
  ghost predicate Splits(q: char, s: string, toks: seq<string>)
    decreases |toks|
  {
    if toks == [] then forall k :: 0 <= k < |s| ==> IsGap(s[k])
    else exists g, r :: SplitsOff(q, s, g, toks[0], r) && Splits(NUL, if r == "" then "" else r[1..], toks[1..])
  }

  predicate SplitsOff(q: char, s: string, g: string, tok: string, r: string) {
    var ender := Ender(if g == "" then q else g[|g| - 1]);
    && s == g + (tok + r)
    && (forall k :: 0 <= k < |g| ==> IsGap(g[k]))
    && tok != "" && !IsGap(tok[0]) && ender !in tok && (r == "" || r[0] == ender)
  }

  lemma SplitOffIs(q: char, s: string, g: string, tok: string, r: string)
    requires SplitsOff(q, s, g, tok, r)
    ensures Tokens(q, s) == [tok] + Tokens(NUL, if r == "" then "" else r[1..])
  {
    hide Tokens, GapSpan, Find;
    var k, e := |g|, |g| + |tok|;
    assert s[k] == tok[0] && s[..k] == g;
    GapSpanIs(s, k);
    assert s[k..] == tok + r && s[k..e] == tok;
    FindAfter(tok, Ender(if g == "" then q else g[|g| - 1]), r);
    assert k > 0 ==> s[k - 1] == g[k - 1];
    FirstToken(q, s, k, e);
    assert RestAfter(s, e) == if r == "" then "" else r[1..];
  }

  /** There is one way to split a text, and it is the one argtok() finds. */
  lemma TokensExactly(q: char, s: string, toks: seq<string>)
    ensures Splits(q, s, toks) <==> toks == Tokens(q, s)
  {
    hide Tokens, GapSpan, Find;
    if Splits(q, s, toks) {
      SplitsAreTokens(q, s, toks);
    }
    TokensSplit(q, s);
  }

  lemma {:induction false} SplitsAreTokens(q: char, s: string, toks: seq<string>)
    requires Splits(q, s, toks)
    ensures toks == Tokens(q, s)
    decreases |toks|
  {
    hide Tokens, GapSpan, Find;
    if toks == [] {
      GapSpanIs(s, |s|);
      NoToken(q, s);
    } else {
      var g, r :| SplitsOff(q, s, g, toks[0], r) && Splits(NUL, if r == "" then "" else r[1..], toks[1..]);
      SplitOffIs(q, s, g, toks[0], r);
      SplitsAreTokens(NUL, if r == "" then "" else r[1..], toks[1..]);
    }
  }

  /** A text that does not start with a gap, up to the first ender. */
  lemma UpTo(u: string, ender: char) returns (tok: string, r: string)
    requires u != "" && u[0] != ender
    ensures u == tok + r && tok != "" && tok[0] == u[0] && ender !in tok && (r == "" || r[0] == ender) && |r| < |u|
  {
    hide Find;
    var n := Find(u, ender);
    tok, r := u[..n], u[n..];
  }

  lemma FirstSplitsOff(q: char, s: string) returns (g: string, tok: string, r: string)
    requires GapSpan(s) < |s|
    ensures SplitsOff(q, s, g, tok, r) && |r| < |s|
  {
    hide GapSpan;
    var k := GapSpan(s);
    g := s[..k];
    tok, r := UpTo(s[k..], Ender(if k == 0 then q else s[k - 1]));
    Halves(s, k);
  }

  lemma {:induction false} TokensSplit(q: char, s: string)
    ensures Splits(q, s, Tokens(q, s))
    decreases |s|
  {
    hide Tokens, GapSpan, Find, SplitsOff;
    if GapSpan(s) == |s| {
      NoToken(q, s);
    } else {
      var g, tok, r := FirstSplitsOff(q, s);
      SplitOffIs(q, s, g, tok, r);
      TokensSplit(NUL, if r == "" then "" else r[1..]);
      var toks := Tokens(q, s);
      assert toks[0] == tok && toks[1..] == Tokens(NUL, if r == "" then "" else r[1..]);
    }
  }
}
