/**
 What the parser makes of a line, told from the line alone: its texts between bars, each with what
 stands before the first operator and after each of the two redirections. Nothing here is blanked
 out, cut or added step by step.
 */
module LineLaws {
  import opened ParseSpec
  import opened Grammar
  import opened Parser
  import opened RoundTrip

  // ----- blanks at the ends of a text -----

  lemma TrimAll(s: string)
    requires AllBlank(s)
    ensures Trim(s) == ""
  {
    TrimIs(s, |s|, |s|);
  }

  lemma Halves(s: string, i: nat)
    requires i <= |s|
    ensures s == s[..i] + s[i..]
  {
  }

  /** A text is what trimming leaves, between blanks. */
  lemma Trimmed(s: string) returns (a: string, b: string)
    ensures AllBlank(a) && AllBlank(b) && s == a + Trim(s) + b && (Trim(s) == "" || Solid(Trim(s)))
  {
    var left := s[SpaceSpan(s)..];
    a, b := s[..SpaceSpan(s)], left[SolidEnd(left)..];
    TrimmedIsSolid(s);
    Halves(s, SpaceSpan(s));
    Halves(left, SolidEnd(left));
    Assoc(a, Trim(s), b);
  }

  lemma TrimBlanks(a: string, s: string, b: string)
    requires AllBlank(a) && AllBlank(b)
    ensures Trim(a + s + b) == Trim(s)
  {
    var c, d := Trimmed(s);
    var t := Trim(s);
    if t == "" {
      TrimAll(a + s + b);
    } else {
      assert a + s + b == (a + c) + t + (d + b);
      TrimPadded(a + c, t, d + b);
    }
  }

  lemma TrimTail(s: string, b: string)
    requires AllBlank(b)
    ensures Trim(s + b) == Trim(s)
  {
    TrimBlanks("", s, b);
    assert "" + s + b == s + b;
  }

  lemma TrimHead(a: string, s: string)
    requires AllBlank(a)
    ensures Trim(a + s) == Trim(s)
  {
    TrimBlanks(a, s, "");
    assert a + s + "" == a + s;
  }

  // ----- one unit -----

  /** What stands between op and the next operator, without the spaces around it. */
  function FileAfter(op: char, s: string): Option<string> {
    if op !in s then None
    else
      var rest := s[Find(s, op) + 1..];
      Some(Trim(rest[..FindOp(rest)]))
  }

  /** What stands before the first operator, without the spaces around it. */
  function CommandText(s: string): string {
    Trim(s[..FindOp(s)])
  }

  predicate OneOfEach(s: string) {
    multiset(s)['<'] <= 1 && multiset(s)['>'] <= 1 && multiset(s)['\''] % 2 == 0 && multiset(s)['\"'] % 2 == 0
  }

  lemma {:induction false} CountIsMultiset(c: char, s: string)
    ensures CountChar(c, s) == multiset(s)[c]
  {
    if s != "" {
      assert s == [s[0]] + s[1..];
      CountIsMultiset(c, s[1..]);
    }
  }

  lemma CommandPadded(q: char, a: string, b: string)
    requires AllBlank(b)
    ensures ParseCommand(q, a + b) == ParseCommand(q, a)
  {
    TrimTail(a, b);
  }

  predicate Opless(s: string) {
    forall k :: 0 <= k < |s| ==> !IsOp(s[k])
  }

  lemma CountSplit(c: char, a: string, d: char, b: string, s: string)
    requires s == a + ([d] + b)
    ensures CountChar(c, s) == CountChar(c, a) + (if c == d then 1 else 0) + CountChar(c, b)
  {
    CountAppend(c, a, [d] + b);
    assert ([d] + b)[1..] == b;
  }

  lemma {:induction false} Counted(c: char, s: string)
    requires c in s
    ensures CountChar(c, s) >= 1
  {
    CountIsMultiset(c, s);
  }

  /** The other operator, of the two that a unit may hold. */
  function OtherOp(op: char): char {
    if op == '<' then '>' else '<'
  }

  lemma BeforeFirst(a: string, t: string, s: string)
    requires Opless(a) && s == a + t && (t == "" || IsOp(t[0]))
    ensures FindOp(s) == |a| && s[..FindOp(s)] == a
  {
    FindOpAfter(a, t);
  }

  /** The file behind the first op of s. */
  lemma FileAt(op: char, pre: string, m: string, r: string, s: string)
    requires IsOp(op) && op !in pre && Opless(m) && (r == "" || IsOp(r[0])) && s == pre + (([op] + m) + r)
    ensures FileAfter(op, s) == Some(Trim(m))
  {
    hide Trim;
    FindAfter(pre, op, ([op] + m) + r);
    assert s[|pre|] == op && s[|pre| + 1..] == m + r;
    BeforeFirst(m, r, m + r);
  }

  lemma ParsedAt(op: char, pre: string, m: string, r: string, s: string)
    requires IsOp(op) && op !in pre && Opless(m) && (r == "" || IsOp(r[0])) && s == pre + (([op] + m) + r)
    ensures ParseUnary(op, s) == (Some(Trim(m)), (pre + Spaces(|m| + 1)) + r)
  {
    hide Trim, Operand, BlankedOut, Find;
    UnaryOn(op, pre, m, r, s);
  }

  /** s with one redirection op and no other operator. */
  lemma OneOp(op: char, a: string, m: string, s: string)
    requires (op == '<' || op == '>') && s == a + ([op] + m) && Opless(a) && Opless(m)
    ensures OtherOp(op) !in s && FindOp(s) == |a| && s[..FindOp(s)] == a
    ensures FileAfter(op, s) == Some(Trim(m)) && ParseUnary(op, s) == (Some(Trim(m)), a + Spaces(|m| + 1))
  {
    hide FileAfter, ParseUnary, FindOp, Find, Trim;
    BeforeFirst(a, [op] + m, s);
    assert ([op] + m) + "" == [op] + m;
    FileAt(op, a, m, "", s);
    ParsedAt(op, a, m, "", s);
    assert (a + Spaces(|m| + 1)) + "" == a + Spaces(|m| + 1);
  }

  /** s with both redirections, op first. */
  lemma TwoOps(op: char, a: string, m: string, n: string, s: string)
    requires (op == '<' || op == '>') && s == a + (([op] + m) + ([OtherOp(op)] + n)) && Opless(a) && Opless(m) && Opless(n)
    ensures FindOp(s) == |a| && s[..FindOp(s)] == a
    ensures FileAfter(op, s) == Some(Trim(m)) && FileAfter(OtherOp(op), s) == Some(Trim(n))
    ensures ParseUnary(op, s) == (Some(Trim(m)), (a + Spaces(|m| + 1)) + ([OtherOp(op)] + n))
    ensures ParseUnary(OtherOp(op), s) == (Some(Trim(n)), ((a + [op]) + m) + Spaces(|n| + 1))
  {
    hide FileAfter, ParseUnary, FindOp, Find, Trim;
    var r := [OtherOp(op)] + n;
    BeforeFirst(a, ([op] + m) + r, s);
    FileAt(op, a, m, r, s);
    ParsedAt(op, a, m, r, s);
    var pre := (a + [op]) + m;
    assert s == pre + r;
    assert r + "" == r;
    FileAt(OtherOp(op), pre, n, "", s);
    ParsedAt(OtherOp(op), pre, n, "", s);
    assert (pre + Spaces(|n| + 1)) + "" == pre + Spaces(|n| + 1);
  }

  predicate IsRedirection(op: char) {
    op == '<' || op == '>'
  }

  predicate OneShape(op: char, a: string, m: string, s: string) {
    IsRedirection(op) && s == a + ([op] + m) && Opless(a) && Opless(m)
  }

  predicate TwoShape(op: char, a: string, m: string, n: string, s: string) {
    IsRedirection(op) && s == a + (([op] + m) + ([OtherOp(op)] + n)) && Opless(a) && Opless(m) && Opless(n)
  }

  lemma FirstOp(s: string) returns (a: string, m: string)
    requires !Opless(s)
    ensures FindOp(s) < |s| && a == s[..FindOp(s)] && Opless(a) && IsOp(s[FindOp(s)]) && m == s[FindOp(s) + 1..]
    ensures s == a + ([s[FindOp(s)]] + m)
  {
    a, m := s[..FindOp(s)], s[FindOp(s) + 1..];
  }

  /** Behind the last redirection a text without bars has no operator. */
  lemma NoneLeft(s: string)
    requires '|' !in s && CountChar('<', s) == 0 && CountChar('>', s) == 0
    ensures Opless(s)
  {
    forall k | 0 <= k < |s| ensures !IsOp(s[k]) {
      if IsOp(s[k]) {
        Counted(s[k], s);
      }
    }
  }

  /** No operator, or one, or one of each. */
  lemma UnitShape(s: string) returns (op: char, a: string, m: string, n: string)
    requires '|' !in s && CountChar('<', s) <= 1 && CountChar('>', s) <= 1
    ensures Opless(s) || OneShape(op, a, m, s) || TwoShape(op, a, m, n, s)
  {
    hide CountChar, FindOp;
    op, a, m, n := '<', "", "", "";
    if !Opless(s) {
      a, m := FirstOp(s);
      op := s[FindOp(s)];
      CountSplit('<', a, op, m, s);
      CountSplit('>', a, op, m, s);
      assert '|' !in m && IsRedirection(op);
      if !Opless(m) {
        var t := m;
        m, n := FirstOp(t);
        var o := t[FindOp(t)];
        CountSplit('<', m, o, n, t);
        CountSplit('>', m, o, n, t);
        NoneLeft(n);
        Assoc([op], m, [o] + n);
      }
    }
  }

  /** A unit is read off its text: the command in front of the first operator, and the two files. */
  function Reading(q: char, s: string): Unit {
    var argv := ParseCommand(q, s[..FindOp(s)]);
    if argv == None then Undefined else Unit(argv.value, FileAfter('<', s), FileAfter('>', s))
  }

  lemma NoOpReads(q: char, s: string)
    requires Opless(s) && OneOfEach(s)
    ensures ParseUnit(q, s) == Reading(q, s)
  {
    BeforeFirst(s, "", s + "");
    assert s + "" == s;
    CountAbsent('<', s);
    CountAbsent('>', s);
    CountIsMultiset('\'', s);
    CountIsMultiset('\"', s);
  }

  lemma OneOpReads(q: char, op: char, a: string, m: string, s: string)
    requires OneShape(op, a, m, s) && OneOfEach(s)
    ensures ParseUnit(q, s) == Reading(q, s)
  {
    hide FileAfter, ParseUnary, ParseCommand, CountChar, FindOp;
    OneOp(op, a, m, s);
    CountAbsent(OtherOp(op), s);
    assert s[|a|] == op;
    Counted(op, s);
    CountIsMultiset(op, s);
    CountIsMultiset('\'', s);
    CountIsMultiset('\"', s);
    CommandPadded(q, a, Spaces(|m| + 1));
    assert FileAfter(OtherOp(op), s) == None by {
      NoFile(OtherOp(op), s);
    }
  }

  lemma NoFile(op: char, s: string)
    requires op !in s
    ensures FileAfter(op, s) == None
  {
  }

  lemma UnitIs(q: char, s: string)
    requires '|' !in s && OneOfEach(s)
    ensures ParseUnit(q, s) == Reading(q, s)
  {
    CountIsMultiset('<', s);
    CountIsMultiset('>', s);
    var op, a, m, n := UnitShape(s);
    if Opless(s) {
      NoOpReads(q, s);
    } else if OneShape(op, a, m, s) {
      OneOpReads(q, op, a, m, s);
    } else {
      TwoOpsRead(q, op, a, m, n, s);
    }
  }

  /** Input redirection first: it is blanked out, and then the other one. */
  lemma InThenOut(q: char, a: string, m: string, n: string, s: string)
    requires TwoShape('<', a, m, n, s)
    ensures ParseUnary('<', s).0 == Some(Trim(m)) && ParseUnary('>', ParseUnary('<', s).1).0 == Some(Trim(n))
    ensures ParseCommand(q, ParseUnary('>', ParseUnary('<', s).1).1) == ParseCommand(q, a)
  {
    hide FileAfter, ParseUnary, ParseCommand, FindOp, Trim;
    TwoOps('<', a, m, n, s);
    OneOpLeft(q, '>', a, Spaces(|m| + 1), n, "", ParseUnary('<', s).1);
  }

  /** Output redirection first: the other one is blanked out, and the blanks are part of its operand. */
  lemma OutThenIn(q: char, a: string, m: string, n: string, s: string)
    requires TwoShape('>', a, m, n, s)
    ensures ParseUnary('<', s).0 == Some(Trim(n)) && ParseUnary('>', ParseUnary('<', s).1).0 == Some(Trim(m))
    ensures ParseCommand(q, ParseUnary('>', ParseUnary('<', s).1).1) == ParseCommand(q, a)
  {
    hide FileAfter, ParseUnary, ParseCommand, FindOp, Trim;
    TwoOps('>', a, m, n, s);
    var blanks := Spaces(|n| + 1);
    var s1 := ((a + ['>']) + m) + blanks;
    Assoc(a + ['>'], m, blanks);
    Assoc(a, ['>'], m + blanks);
    assert a + "" == a;
    OneOpLeft(q, '>', a, "", m, blanks, s1);
  }

  lemma BothCounted(op: char, a: string, m: string, n: string, s: string)
    requires TwoShape(op, a, m, n, s) && OneOfEach(s)
    ensures CountChar('<', s) == 1 && CountChar('>', s) == 1 && CountChar('\'', s) % 2 == 0 && CountChar('\"', s) % 2 == 0
  {
    hide CountChar;
    assert s[|a|] == op && s[|a| + 1 + |m|] == OtherOp(op);
    Counted('<', s);
    Counted('>', s);
    CountIsMultiset('<', s);
    CountIsMultiset('>', s);
    CountIsMultiset('\'', s);
    CountIsMultiset('\"', s);
  }

  lemma TwoOpsRead(q: char, op: char, a: string, m: string, n: string, s: string)
    requires TwoShape(op, a, m, n, s) && OneOfEach(s)
    ensures ParseUnit(q, s) == Reading(q, s)
  {
    hide FileAfter, ParseUnary, ParseCommand, CountChar, FindOp, Trim, OneOfEach;
    TwoOps(op, a, m, n, s);
    BothCounted(op, a, m, n, s);
    if op == '<' {
      InThenOut(q, a, m, n, s);
    } else {
      OutThenIn(q, a, m, n, s);
    }
  }

  /** What parse_unary() makes of the output redirection once the input redirection has been blanked out. */
  lemma OneOpLeft(q: char, op: char, a: string, b: string, m: string, c: string, s: string)
    requires IsRedirection(op) && Opless(a) && Opless(m) && Opless(b) && Opless(c) && AllBlank(b) && AllBlank(c)
    requires s == (a + b) + ([op] + (m + c)) || (c == "" && s == (a + b) + ([op] + m))
    ensures ParseUnary(op, s).0 == Some(Trim(m)) && ParseCommand(q, ParseUnary(op, s).1) == ParseCommand(q, a)
  {
    hide ParseCommand, FileAfter, ParseUnary, FindOp, Trim;
    assert c == "" ==> m + c == m;
    OneOp(op, a + b, m + c, s);
    TrimTail(m, c);
    var blanks := Spaces(|m + c| + 1);
    Assoc(a, b, blanks);
    CommandPadded(q, a, b + blanks);
  }

  lemma UnitRefusedFor(q: char, s: string)
    requires !OneOfEach(s)
    ensures ParseUnit(q, s) == Rejected
  {
    CountIsMultiset('<', s);
    CountIsMultiset('>', s);
    CountIsMultiset('\'', s);
    CountIsMultiset('\"', s);
  }

  // ----- the texts between bars -----

  function Segments(s: string): (r: seq<string>)
    ensures r != []
  {
    var i := Find(s, '|');
    if i == |s| then [s] else [s[..i]] + Segments(s[i + 1..])
  }

  function JoinBars(xs: seq<string>): string {
    if xs == [] then "" else if |xs| == 1 then xs[0] else xs[0] + ("|" + JoinBars(xs[1..]))
  }

  lemma SegmentsAre(s: string)
    ensures Segments(s) == if Find(s, '|') == |s| then [s] else [s[..Find(s, '|')]] + Segments(s[Find(s, '|') + 1..])
  {
    hide Find;
  }

  lemma CutAtBar(s: string, i: nat)
    requires i == Find(s, '|') < |s|
    ensures '|' !in s[..i] && s == s[..i] + (['|'] + s[i + 1..])
  {
    hide Find;
    var t := s[i..];
    Halves(s, i);
    assert t == ['|'] + s[i + 1..];
  }

  lemma SegmentsStep(s: string, i: nat)
    requires i == Find(s, '|') < |s|
    ensures Segments(s) == [s[..i]] + Segments(s[i + 1..]) && '|' !in s[..i] && s == s[..i] + (['|'] + s[i + 1..])
  {
    hide Find, Segments;
    SegmentsAre(s);
    CutAtBar(s, i);
  }

  lemma NoBars(s: string)
    requires Find(s, '|') == |s|
    ensures Segments(s) == [s] && '|' !in s
  {
    assert s[..|s|] == s;
  }

  /** The segments are what the bars divide the text into, and there is one more of them than there are bars. */
  lemma {:induction false} SegmentsJoin(s: string)
    ensures JoinBars(Segments(s)) == s
    ensures forall k :: 0 <= k < |Segments(s)| ==> '|' !in Segments(s)[k]
    ensures |Segments(s)| == CountChar('|', s) + 1
  {
    hide Find, CountChar, Segments;
    var i := Find(s, '|');
    if i < |s| {
      SegmentsStep(s, i);
      SegmentsJoin(s[i + 1..]);
      CountSplit('|', s[..i], '|', s[i + 1..], s);
      CountAbsent('|', s[..i]);
    } else {
      NoBars(s);
      CountAbsent('|', s);
    }
  }

  /** strtok_r() passes over empty texts. */
  function NonEmpty(xs: seq<string>): seq<string> {
    if xs == [] then [] else (if xs[0] == "" then [] else [xs[0]]) + NonEmpty(xs[1..])
  }

  /** Units parsed one by one; q is the byte in front of the first. */
  function ParseEach(q: char, xs: seq<string>): seq<Unit> {
    if xs == [] then [] else [ParseUnit(q, xs[0])] + ParseEach(NUL, xs[1..])
  }

  lemma {:induction false} EachAt(q: char, xs: seq<string>)
    ensures |ParseEach(q, xs)| == |xs|
    ensures forall k :: 0 <= k < |xs| ==> ParseEach(q, xs)[k] == ParseUnit(if k == 0 then q else NUL, xs[k])
  {
    hide ParseUnit;
    if xs != [] {
      EachAt(NUL, xs[1..]);
    }
  }

  /** The byte in front of a text matters only if it is a quote. */
  lemma FrontByte(q: char, s: string)
    requires Quote(q) == NUL
    ensures Tokens(q, s) == Tokens(NUL, s)
  {
    hide Tokens, GapSpan, Find;
    var k := GapSpan(s);
    if k < |s| {
      assert TokenEnd(q, s, k) == TokenEnd(NUL, s, k);
      FirstToken(q, s, k, TokenEnd(q, s, k));
      FirstToken(NUL, s, k, TokenEnd(q, s, k));
    } else {
      NoToken(q, s);
      NoToken(NUL, s);
    }
  }

  lemma FrontByteOfUnit(q: char, s: string)
    requires Quote(q) == NUL
    ensures ParseUnit(q, s) == ParseUnit(NUL, s)
  {
    hide Tokens;
    var s1 := Unary('<', s).1;
    FrontByte(q, Trim(if CountChar('>', s) > 0 then ParseUnary('>', s1).1 else s1));
  }

  lemma BarMoves(r: string, s: string)
    requires s == "|" + r
    ensures BarSpan(s) == BarSpan(r) + 1
    ensures BarSpan(r) < |r| ==> UnitEnd(s) == UnitEnd(r) + 1
  {
    assert s[1..] == r;
    var a := BarSpan(r);
    assert s[a + 1..] == r[a..];
  }

  lemma CutMoves(r: string, s: string, a: nat, b: nat)
    requires s == "|" + r && a <= b <= |r|
    ensures s[a + 1..b + 1] == r[a..b] && RestAfter(s, b + 1) == RestAfter(r, b)
  {
    if b < |r| {
      assert s[b + 2..] == r[b + 1..];
    }
  }

  lemma UnitsFirst(q: char, s: string)
    requires BarSpan(s) < |s|
    ensures Units(q, s) == [ParseUnit(if BarSpan(s) == 0 then q else '|', s[BarSpan(s)..UnitEnd(s)])] + Units(NUL, RestAfter(s, UnitEnd(s)))
  {
  }

  lemma SkipBar(q: char, r: string, s: string)
    requires Quote(q) == NUL && s == "|" + r
    ensures Units(q, s) == Units(NUL, r)
  {
    hide Units, ParseUnit, BarSpan, UnitEnd, RestAfter;
    BarMoves(r, s);
    if BarSpan(r) < |r| {
      CutMoves(r, s, BarSpan(r), UnitEnd(r));
      UnitsFirst(q, s);
      UnitsFirst(NUL, r);
      FrontByteOfUnit('|', r[BarSpan(r)..UnitEnd(r)]);
    } else {
      UnitsNone(q, s);
      UnitsNone(NUL, r);
    }
  }

  lemma FirstCut(q: char, u: string, r: string, s: string)
    requires u != "" && '|' !in u && (r == "" || r[0] == '|') && s == u + r
    ensures Units(q, s) == [ParseUnit(q, u)] + Units(NUL, if r == "" then "" else r[1..])
  {
    assert s[0] == u[0];
    assert s[0..] == s;
    FindAfter(u, '|', r);
    assert BarSpan(s) == 0 && UnitEnd(s) == |u| && s[0..|u|] == u;
    if r != "" {
      assert s[|u| + 1..] == r[1..];
    }
  }

  lemma NonEmptyStep(u: string, xs: seq<string>)
    ensures NonEmpty([u] + xs) == (if u == "" then [] else [u]) + NonEmpty(xs)
  {
    assert ([u] + xs)[1..] == xs;
  }

  lemma EachStep(q: char, u: string, xs: seq<string>)
    ensures ParseEach(q, [u] + xs) == [ParseUnit(q, u)] + ParseEach(NUL, xs)
  {
    assert ([u] + xs)[1..] == xs;
  }

  /** The units of a line are its non-empty segments, parsed where they stand. */
  lemma {:induction false} UnitsAre(q: char, s: string)
    requires s != "" && s[0] == '|' ==> Quote(q) == NUL
    ensures Units(q, s) == ParseEach(q, NonEmpty(Segments(s)))
    decreases |s|
  {
    hide Units, ParseUnit, ParseEach, NonEmpty, Segments, Find;
    var i := Find(s, '|');
    if i < |s| {
      var u, r := s[..i], s[i + 1..];
      SegmentsStep(s, i);
      NonEmptyStep(u, Segments(r));
      UnitsAre(NUL, r);
      if i == 0 {
        assert s == "|" + r;
        SkipBar(q, r, s);
        assert [] + NonEmpty(Segments(r)) == NonEmpty(Segments(r));
        EachFrom(q, NonEmpty(Segments(r)));
      } else {
        FirstCut(q, u, ['|'] + r, s);
        assert (['|'] + r)[1..] == r;
        EachStep(q, u, NonEmpty(Segments(r)));
      }
    } else {
      NoBars(s);
      LastUnit(q, s);
    }
  }

  lemma LastUnit(q: char, s: string)
    requires '|' !in s
    ensures Units(q, s) == ParseEach(q, NonEmpty([s]))
  {
    hide Units, ParseUnit, Find;
    NonEmptyStep(s, []);
    assert [s] + [] == [s];
    NoUnits(q);
    NoUnits(NUL);
    if s != "" {
      assert s + "" == s;
      FirstCut(q, s, "", s);
    }
  }

  lemma EachFrom(q: char, xs: seq<string>)
    requires Quote(q) == NUL
    ensures ParseEach(q, xs) == ParseEach(NUL, xs)
  {
    if xs != [] {
      FrontByteOfUnit(q, xs[0]);
    }
  }

  // ----- the ampersand -----

  /** line is body with nothing behind it, or with an ampersand and blanks that make it a background job. */
  ghost predicate Reads(line: string, body: string, background: bool) {
    if background then exists blanks :: AllBlank(blanks) && line == body + ("&" + blanks)
    else line == body && Trim(line) != "" && Trim(line)[|Trim(line)| - 1] != '&'
  }

  lemma SolidBetween(core: string, b: string, c: string)
    requires Solid(core) && AllBlank(b) && c != "" && !IsSpace(c[|c| - 1])
    ensures Solid(core + b + c)
  {
  }

  /** What is_background() leaves, whatever stands before the ampersand. */
  lemma AmpersandTaken(line: string, body: string, blanks: string)
    requires AllBlank(blanks) && line == body + ("&" + blanks)
    ensures Trim(line) != "" && Trim(line)[|Trim(line)| - 1] == '&' && Background(Trim(line)).0
    ensures Trim(Background(Trim(line)).1) == Trim(body)
    ensures '&' in Background(Trim(line)).1 <==> '&' in body
  {
    hide Trim;
    var a, b := Trimmed(body);
    var core := Trim(body);
    if core == "" {
      assert line == (a + b) + "&" + blanks;
      TrimPadded(a + b, "&", blanks);
      SolidTrims("&");
      TrimAll("");
    } else {
      SolidBetween(core, b, "&");
      assert line == a + (core + b + "&") + blanks;
      TrimPadded(a, core + b + "&", blanks);
      SolidTrims(core + b + "&");
      assert (core + b + "&")[..|core + b|] == core + b;
      TrimTail(core, b);
      SolidTrims(core);
    }
  }

  lemma BackgroundIs(line: string, body: string, background: bool)
    requires Reads(line, body, background)
    ensures Trim(line) != "" && Background(Trim(line)).0 == background
    ensures Trim(Background(Trim(line)).1) == Trim(body)
    ensures '&' in Background(Trim(line)).1 <==> '&' in body
  {
    hide Trim;
    if background {
      var blanks :| AllBlank(blanks) && line == body + ("&" + blanks);
      AmpersandTaken(line, body, blanks);
    } else {
      TrimTwice(line);
      var a, b := Trimmed(line);
    }
  }

  /** Every line that is not blank reads as a body with or without an ampersand. */
  lemma LineReads(line: string) returns (body: string, background: bool)
    requires Trim(line) != ""
    ensures Reads(line, body, background)
  {
    hide Trim;
    var t := Trim(line);
    background := t[|t| - 1] == '&';
    body := line;
    if background {
      var a, b := Trimmed(line);
      var m := t[..|t| - 1];
      assert t == m + "&";
      body := a + m;
      assert line == body + ("&" + b);
    }
  }

  function InBackground(o: Outcome): Outcome {
    if o.Parsed? then Parsed(o.parse.(background := true)) else o
  }

  lemma {:induction false} AddAllInBackground(p: Parse, us: seq<Unit>, i: nat)
    ensures AddAll(p.(background := true), us, i) == InBackground(AddAll(p, us, i))
    decreases |us|
  {
    if !p.invalidSyntax && us != [] && us[0] != Undefined && i < |p.tasks| {
      assert AddUnit(p.(background := true), us[0], i) == AddUnit(p, us[0], i).(background := true);
      AddAllInBackground(AddUnit(p, us[0], i), us[1..], i + 1);
    }
  }

  lemma {:induction false} AddAllKeepsBackground(p: Parse, us: seq<Unit>, i: nat)
    ensures var o := AddAll(p, us, i); o.Parsed? ==> o.parse.background == p.background && (p.invalidSyntax ==> o.parse == p)
    decreases |us|
  {
    if !p.invalidSyntax && us != [] && us[0] != Undefined && i < |p.tasks| {
      AddAllKeepsBackground(AddUnit(p, us[0], i), us[1..], i + 1);
    }
  }

  /** What the tests on the whole line start from, for a body b trimmed and an ampersand or none. */
  function Start(guard: char, b: string, stray: bool, background: bool): Parse {
    if stray || HasTrailingBar(guard, b) then Parse([], None, None, background, true)
    else Parse(NoTasks(CountChar('|', b) + 1), None, None, background, false)
  }

  lemma LineIs(guard: char, line: string, body: string, background: bool)
    requires Reads(line, body, background)
    ensures ParseCmdline(guard, line) == AddAll(Start(guard, Trim(body), '&' in body, background), Units(guard, Trim(body)), 0)
  {
    hide Trim, AddAll, Units, Reads;
    TrimTwice(line);
    BackgroundIs(line, body, background);
    CountIsMultiset('&', Background(Trim(line)).1);
  }

  /** An ampersand at the end, blanks in front of it or not, runs the line in the background and changes nothing else. */
  lemma AmpersandRunsInBackground(guard: char, body: string, blanks: string)
    requires Trim(body) != "" && '&' !in body && AllBlank(blanks)
    ensures ParseCmdline(guard, body + ("&" + blanks)) == InBackground(ParseCmdline(guard, body))
  {
    hide AddAll, Units, ParseCmdline, HasTrailingBar;
    var a, b := Trimmed(body);
    assert Reads(body, body, false) by {
      assert forall c :: c in Trim(body) ==> c in body;
    }
    LineIs(guard, body, body, false);
    LineIs(guard, body + ("&" + blanks), body, true);
    AddAllInBackground(Start(guard, Trim(body), false, false), Units(guard, Trim(body)), 0);
  }

  /** Whatever the line, the background flag says whether it ends in an ampersand, and a second ampersand is refused. */
  lemma AmpersandExactly(guard: char, line: string, body: string, background: bool)
    requires Reads(line, body, background)
    ensures var o := ParseCmdline(guard, line);
      && (o.Parsed? ==> o.parse.background == background)
      && ('&' in body ==> o == Parsed(Parse([], None, None, background, true)))
  {
    hide Units, ParseCmdline, HasTrailingBar;
    LineIs(guard, line, body, background);
    var p := Start(guard, Trim(body), '&' in body, background);
    AddAllKeepsBackground(p, Units(guard, Trim(body)), 0);
  }

  // ----- exactly the lines that are accepted, and what they come to -----

  ghost predicate AllPass(n: nat, us: seq<Unit>, i: nat) {
    forall k :: 0 <= k < |us| ==> ValidSyntax(Parse(NoTasks(n), None, None, false, false), us[k], i + k)
  }

  function Infile(us: seq<Unit>): Option<string> {
    if us != [] && us[0].Unit? then us[0].infile else None
  }

  /** The outfile of the last of n units. */
  function Outfile(us: seq<Unit>, n: nat): Option<string> {
    if 0 < |us| == n && us[n - 1].Unit? then us[n - 1].outfile else None
  }

  function Filled(us: seq<Unit>, n: nat): (ts: seq<Option<seq<string>>>)
    ensures |ts| == n
  {
    seq(n, k requires 0 <= k < n => if k < |us| && us[k].Unit? then Some(us[k].argv) else None)
  }

  lemma PassTail(n: nat, us: seq<Unit>, i: nat)
    requires us != []
    ensures AllPass(n, us, i) <==> ValidSyntax(Parse(NoTasks(n), None, None, false, false), us[0], i) && AllPass(n, us[1..], i + 1)
  {
    var p := Parse(NoTasks(n), None, None, false, false);
    hide ValidSyntax;
    if AllPass(n, us, i) {
      forall k | 0 <= k < |us| - 1 ensures ValidSyntax(p, us[1..][k], (i + 1) + k) {
        assert ValidSyntax(p, us[k + 1], i + (k + 1));
      }
      assert ValidSyntax(p, us[0], i + 0);
    }
    if ValidSyntax(p, us[0], i) && AllPass(n, us[1..], i + 1) {
      forall k | 0 <= k < |us| ensures ValidSyntax(p, us[k], i + k) {
        if k > 0 {
          assert ValidSyntax(p, us[1..][k - 1], (i + 1) + (k - 1));
        }
      }
    }
  }

  /** The record after the first i of us. */
  function Recorded(us: seq<Unit>, n: nat, i: nat, background: bool): Parse
    requires i <= |us| <= n
  {
    Parse(Filled(us[..i], n), Infile(us[..i]), Outfile(us[..i], n), background, false)
  }

  lemma AddNext(us: seq<Unit>, n: nat, i: nat, background: bool)
    requires i < |us| <= n && ValidSyntax(Parse(NoTasks(n), None, None, false, false), us[i], i)
    ensures AddUnit(Recorded(us, n, i, background), us[i], i) == Recorded(us, n, i + 1, background)
  {
    assert us[..i + 1] == us[..i] + [us[i]];
    var t := Filled(us[..i], n)[i := Some(us[i].argv)];
    assert t == Filled(us[..i + 1], n);
    if i > 0 {
      assert us[..i + 1][0] == us[..i][0];
    }
  }

  /** The loop over units ends in a valid record exactly when every unit passes, and the record then holds them all. */
  lemma {:induction false} AddAllExactly(us: seq<Unit>, n: nat, i: nat, background: bool)
    requires i <= |us| <= n
    ensures var o := AddAll(Recorded(us, n, i, background), us[i..], i);
      && (o.Parsed? && !o.parse.invalidSyntax <==> AllPass(n, us[i..], i))
      && (AllPass(n, us[i..], i) ==> o == Parsed(Recorded(us, n, |us|, background)))
    decreases |us| - i
  {
    hide Recorded, AddUnit, AllPass, ValidSyntax, AddAll;
    var p := Recorded(us, n, i, background);
    assert !p.invalidSyntax && |p.tasks| == n by {
      RecordedShape(us, n, i, background);
    }
    if i == |us| {
      NonePass(n, us[i..], i);
      NoneAdded(p, us[i..], i);
    } else {
      assert us[i..] == [us[i]] + us[i + 1..];
      PassTail(n, us[i..], i);
      AddStep(p, us[i], us[i + 1..], i);
      if ValidSyntax(Parse(NoTasks(n), None, None, false, false), us[i], i) {
        AddNext(us, n, i, background);
        PassedUnit(p, us[i], i);
        AddAllExactly(us, n, i + 1, background);
      } else {
        RefusedStays(p, us[i], us[i + 1..], i);
      }
    }
  }

  lemma RecordedShape(us: seq<Unit>, n: nat, i: nat, background: bool)
    requires i <= |us| <= n
    ensures !Recorded(us, n, i, background).invalidSyntax && |Recorded(us, n, i, background).tasks| == n
  {
  }

  lemma NonePass(n: nat, us: seq<Unit>, i: nat)
    requires us == []
    ensures AllPass(n, us, i)
  {
  }

  lemma NoneAdded(p: Parse, us: seq<Unit>, i: nat)
    requires us == []
    ensures AddAll(p, us, i) == Parsed(p)
  {
  }

  lemma PassedUnit(p: Parse, u: Unit, i: nat)
    requires ValidSyntax(Parse(NoTasks(|p.tasks|), None, None, false, false), u, i)
    ensures u != Undefined
  {
  }

  lemma RefusedStays(p: Parse, u: Unit, rest: seq<Unit>, i: nat)
    requires i < |p.tasks| && !ValidSyntax(Parse(NoTasks(|p.tasks|), None, None, false, false), u, i)
    ensures AddAll(AddUnit(p, u, i), rest, i + 1) == Parsed(p.(invalidSyntax := true))
  {
  }

  /** The byte in front of unit k: that of the buffer, or the terminator of the unit before. */
  function Front(guard: char, k: nat): char {
    if k == 0 then guard else NUL
  }

  /** One redirection of a kind, quotes in pairs, as many tokens as count_args makes room for, and files with names at their own ends. */
  predicate UnitAccepted(q: char, u: string, first: bool, last: bool) {
    var room, infile, outfile := CountArgs(CommandText(u)), FileAfter('<', u), FileAfter('>', u);
    && OneOfEach(u)
    && room != None && |Tokens(q, CommandText(u))| == room.value + 1
    && (infile != None ==> first && infile.value != "")
    && (outfile != None ==> last && outfile.value != "")
  }

  /** No ampersand within, no bar at an end, and every text between bars a unit in its place. */
  predicate Acceptable(guard: char, body: string) {
    var b := Trim(body);
    var n, us := |Segments(b)|, NonEmpty(Segments(b));
    && '&' !in body
    && (if b == "" then guard != '|' else b[0] != '|' && b[|b| - 1] != '|')
    && forall k :: 0 <= k < |us| ==> UnitAccepted(Front(guard, k), us[k], k == 0, k + 1 == n)
  }

  /** A task for every text between bars, the last ones unfilled if some of those texts are empty. */
  function Meaning(guard: char, body: string, background: bool): Parse {
    var n, us := |Segments(Trim(body))|, NonEmpty(Segments(Trim(body)));
    Parse(seq(n, k requires 0 <= k < n => if k < |us| then Some(Tokens(Front(guard, k), CommandText(us[k]))) else None),
          if us == [] then None else FileAfter('<', us[0]),
          if 0 < |us| == n then FileAfter('>', us[n - 1]) else None,
          background, false)
  }

  lemma FilesTrimmed(op: char, u: string)
    ensures FileAfter(op, u) != None ==> Trim(FileAfter(op, u).value) == FileAfter(op, u).value
  {
    if op in u {
      var rest := u[Find(u, op) + 1..];
      TrimTwice(rest[..FindOp(rest)]);
    }
  }

  lemma UnitPasses(q: char, u: string, i: nat, n: nat)
    requires '|' !in u
    ensures ValidSyntax(Parse(NoTasks(n), None, None, false, false), ParseUnit(q, u), i) <==> UnitAccepted(q, u, i == 0, i + 1 == n)
    ensures UnitAccepted(q, u, i == 0, i + 1 == n) ==>
              ParseUnit(q, u) == Unit(Tokens(q, CommandText(u)), FileAfter('<', u), FileAfter('>', u))
  {
    hide ParseUnit, FileAfter, Tokens, CountArgs, FindOp;
    if OneOfEach(u) {
      UnitIs(q, u);
      FilesTrimmed('<', u);
      FilesTrimmed('>', u);
      var toks := Tokens(q, CommandText(u));
      TokensStartable(q, CommandText(u));
      assert toks != [] ==> toks[0] in toks;
    } else {
      UnitRefusedFor(q, u);
    }
  }

  lemma {:induction false} NonEmptyFrom(xs: seq<string>)
    ensures |NonEmpty(xs)| <= |xs|
    ensures forall u :: u in NonEmpty(xs) <==> u in xs && u != ""
  {
    if xs != [] {
      NonEmptyFrom(xs[1..]);
      assert xs == [xs[0]] + xs[1..];
    }
  }

  /** The units of b pass the loop exactly when they are acceptable. */
  lemma UnitsPass(guard: char, b: string)
    ensures var n, us := |Segments(b)|, NonEmpty(Segments(b));
      && |us| <= n
      && (AllPass(n, ParseEach(guard, us), 0) <==> forall k :: 0 <= k < |us| ==> UnitAccepted(Front(guard, k), us[k], k == 0, k + 1 == n))
  {
    hide ValidSyntax, UnitAccepted, ParseUnit, ParseEach, Segments, NonEmpty;
    var n, us := |Segments(b)|, NonEmpty(Segments(b));
    var v := ParseEach(guard, us);
    var p := Parse(NoTasks(n), None, None, false, false);
    NonEmptyFrom(Segments(b));
    SegmentsJoin(b);
    EachAt(guard, us);
    forall k | 0 <= k < |us| ensures ValidSyntax(p, v[k], 0 + k) <==> UnitAccepted(Front(guard, k), us[k], k == 0, k + 1 == n) {
      assert us[k] in us;
      UnitPasses(Front(guard, k), us[k], k, n);
    }
  }

  lemma UnitsMean(guard: char, body: string, background: bool)
    requires Acceptable(guard, body)
    ensures var n, us := |Segments(Trim(body))|, NonEmpty(Segments(Trim(body)));
      |us| <= n && |ParseEach(guard, us)| == |us| && Recorded(ParseEach(guard, us), n, |us|, background) == Meaning(guard, body, background)
  {
    hide UnitAccepted, ParseUnit, ParseEach, Segments, NonEmpty, Trim, FileAfter, CommandText;
    var n, us := |Segments(Trim(body))|, NonEmpty(Segments(Trim(body)));
    var v := ParseEach(guard, us);
    NonEmptyFrom(Segments(Trim(body)));
    SegmentsJoin(Trim(body));
    EachAt(guard, us);
    forall k | 0 <= k < |us|
      ensures v[k] == Unit(Tokens(Front(guard, k), CommandText(us[k])), FileAfter('<', us[k]), FileAfter('>', us[k]))
    {
      assert us[k] in us;
      UnitPasses(Front(guard, k), us[k], k, n);
    }
    assert v[..|us|] == v;
  }

  /**
   For every line and every byte in front of it: exactly the acceptable lines are accepted, and what
   is recorded is what their text means.
   */
  lemma AcceptsExactly(guard: char, line: string, body: string, background: bool)
    requires Reads(line, body, background)
    ensures var o := ParseCmdline(guard, line);
      && (o.Parsed? && !o.parse.invalidSyntax <==> Acceptable(guard, body))
      && (Acceptable(guard, body) ==> o == Parsed(Meaning(guard, body, background)))
  {
    hide ParseCmdline, AddAll, Units, Segments, NonEmpty, ParseEach, Trim, UnitAccepted, Meaning, Recorded;
    var b := Trim(body);
    var p := Start(guard, b, '&' in body, background);
    LineIs(guard, line, body, background);
    if p.invalidSyntax {
      AddAllKeepsBackground(p, Units(guard, b), 0);
    } else {
      var n, us := |Segments(b)|, NonEmpty(Segments(b));
      UnitsAre(guard, b);
      UnitsPass(guard, b);
      SegmentsJoin(b);
      var v := ParseEach(guard, us);
      EachAt(guard, us);
      assert v[0..] == v;
      assert p == Recorded(v, n, 0, background) by {
        NothingRecorded(v, n, background);
      }
      AddAllExactly(v, n, 0, background);
      if Acceptable(guard, body) {
        UnitsMean(guard, body, background);
      }
    }
  }

  lemma NothingRecorded(us: seq<Unit>, n: nat, background: bool)
    requires |us| <= n
    ensures Recorded(us, n, 0, background) == Parse(NoTasks(n), None, None, background, false)
  {
    assert Filled([], n) == NoTasks(n);
  }

  // ----- what is refused wherever it stands -----

  lemma SegmentsCons(u: string, r: string, s: string)
    requires '|' !in u && s == u + (['|'] + r)
    ensures Segments(s) == [u] + Segments(r)
  {
    hide Segments, Find;
    FindAfter(u, '|', ['|'] + r);
    SegmentsAre(s);
    assert s[..|u|] == u && s[|u| + 1..] == r;
  }

  lemma OneSegment(u: string)
    requires '|' !in u
    ensures Segments(u) == [u]
  {
    hide Find;
    assert u + "" == u;
    FindAfter(u, '|', "");
  }

  /** Text without bars in front of s is text in front of its first segment. */
  lemma SegmentsHead(x: string, s: string)
    requires '|' !in x
    ensures Segments(x + s) == [x + Segments(s)[0]] + Segments(s)[1..]
  {
    hide Segments, Find;
    var i := Find(s, '|');
    if i < |s| {
      SegmentsStep(s, i);
      Assoc(x, s[..i], ['|'] + s[i + 1..]);
      SegmentsCons(x + s[..i], s[i + 1..], x + s);
      assert Segments(s)[1..] == Segments(s[i + 1..]);
    } else {
      NoBars(s);
      OneSegment(x + s);
      assert [s][1..] == [];
    }
  }

  /** Text without bars behind s is text behind its last segment. */
  lemma {:induction false} SegmentsTail(s: string, y: string)
    requires '|' !in y
    ensures var xs := Segments(s); Segments(s + y) == xs[..|xs| - 1] + [xs[|xs| - 1] + y]
    decreases |s|
  {
    hide Segments, Find;
    var i := Find(s, '|');
    if i < |s| {
      var u, r := s[..i], s[i + 1..];
      SegmentsStep(s, i);
      SegmentsTail(r, y);
      Assoc(u, ['|'] + r, y);
      Assoc(['|'], r, y);
      SegmentsCons(u, r + y, s + y);
      var xs := Segments(r);
      assert ([u] + xs)[..|xs|] == [u] + xs[..|xs| - 1];
    } else {
      NoBars(s);
      OneSegment(s + y);
      assert [s][..0] == [];
    }
  }

  /** Nothing that parse_unit() counts. */
  predicate Unmarked(s: string) {
    '|' !in s && '<' !in s && '>' !in s && '\'' !in s && '\"' !in s
  }

  lemma OneOfEachPadded(x: string, u: string, y: string)
    requires Unmarked(x) && Unmarked(y)
    ensures OneOfEach(x + u + y) <==> OneOfEach(u)
  {
    assert multiset(x + u + y) == multiset(x) + multiset(u) + multiset(y);
  }

  lemma HeadPadded(x: string, s: string, k: nat)
    requires Unmarked(x) && k < |Segments(x + s)|
    ensures k < |Segments(s)| && (OneOfEach(Segments(x + s)[k]) <==> OneOfEach(Segments(s)[k]))
  {
    hide Segments, OneOfEach;
    SegmentsHead(x, s);
    if k == 0 {
      var u := Segments(s)[0];
      OneOfEachPadded(x, u, "");
      assert x + u + "" == x + u;
    }
  }

  lemma TailPadded(s: string, y: string, k: nat)
    requires Unmarked(y) && k < |Segments(s + y)|
    ensures k < |Segments(s)| && (OneOfEach(Segments(s + y)[k]) <==> OneOfEach(Segments(s)[k]))
  {
    hide Segments, OneOfEach;
    SegmentsTail(s, y);
    if k == |Segments(s)| - 1 {
      var u := Segments(s)[k];
      OneOfEachPadded("", u, y);
      assert "" + u + y == u + y;
    }
  }

  lemma SegmentsPadded(x: string, s: string, y: string, k: nat)
    requires Unmarked(x) && Unmarked(y) && k < |Segments(x + s + y)|
    ensures k < |Segments(s)| && (OneOfEach(Segments(x + s + y)[k]) <==> OneOfEach(Segments(s)[k]))
  {
    hide Segments, OneOfEach, Unmarked;
    TailPadded(x + s, y, k);
    HeadPadded(x, s, k);
  }

  lemma {:induction false} SegmentAt(a: string, seg: string, b: string) returns (k: nat)
    requires '|' !in seg && (a == "" || a[|a| - 1] == '|') && (b == "" || b[0] == '|')
    ensures k < |Segments(a + seg + b)| && Segments(a + seg + b)[k] == seg
    decreases |a|
  {
    hide Segments, Find;
    if a == "" {
      k := 0;
      assert a + seg + b == seg + b;
      if b == "" {
        assert seg + b == seg;
        OneSegment(seg);
      } else {
        assert b == ['|'] + b[1..];
        SegmentsCons(seg, b[1..], seg + b);
      }
    } else {
      var i := Find(a, '|');
      FindBound(a, '|');
      CutAtBar(a, i);
      var u, r := a[..i], a[i + 1..];
      assert r != "" ==> r[|r| - 1] == a[|a| - 1];
      k := SegmentAt(r, seg, b);
      Assoc(u, ['|'] + r, seg + b);
      assert a + seg + b == u + (['|'] + (r + seg + b));
      SegmentsCons(u, r + seg + b, a + seg + b);
      k := k + 1;
    }
  }

  lemma FindBound(s: string, c: char)
    requires c in s
    ensures Find(s, c) < |s|
  {
    hide Find;
    assert s[..|s|] == s;
  }

  /** The parts of a line that the body, trimmed, leaves out: blanks, and an ampersand. */
  lemma LeftOut(line: string, body: string, background: bool) returns (x: string, y: string)
    requires Reads(line, body, background)
    ensures line == x + Trim(body) + y && Unmarked(x) && Unmarked(y)
  {
    hide Trim;
    var a, b := Trimmed(body);
    x, y := a, b;
    if background {
      var blanks :| AllBlank(blanks) && line == body + ("&" + blanks);
      y := b + ("&" + blanks);
      assert line == a + Trim(body) + y;
    }
  }

  lemma NotBlank(line: string, seg: string)
    requires !OneOfEach(seg) && forall c :: c in seg ==> c in line
    ensures Trim(line) != ""
  {
    var a, b := Trimmed(line);
    assert '<' in seg || '>' in seg || '\'' in seg || '\"' in seg;
    var c :| c in seg && !IsSpace(c);
    assert c in a + Trim(line) + b;
  }

  lemma NotAcceptable(guard: char, body: string, u: string)
    requires u in NonEmpty(Segments(Trim(body))) && !OneOfEach(u)
    ensures !Acceptable(guard, body)
  {
    hide Trim, Segments, NonEmpty, OneOfEach;
    var us := NonEmpty(Segments(Trim(body)));
    var j :| 0 <= j < |us| && us[j] == u;
    assert !UnitAccepted(Front(guard, j), us[j], j == 0, j + 1 == |Segments(Trim(body))|);
  }

  /** Two redirections of one kind, or a quote without its pair, anywhere between two bars: the line is never accepted. */
  lemma RefusedBetweenBars(guard: char, a: string, seg: string, b: string)
    requires '|' !in seg && (a == "" || a[|a| - 1] == '|') && (b == "" || b[0] == '|') && !OneOfEach(seg)
    ensures var o := ParseCmdline(guard, a + seg + b); !(o.Parsed? && !o.parse.invalidSyntax)
  {
    hide ParseCmdline, Trim, Segments, NonEmpty, OneOfEach, Reads, Acceptable;
    var line := a + seg + b;
    NotBlank(line, seg);
    var body, background := LineReads(line);
    var x, y := LeftOut(line, body, background);
    var k := SegmentAt(a, seg, b);
    SegmentsPadded(x, Trim(body), y, k);
    var u := Segments(Trim(body))[k];
    EmptyHasOne();
    NonEmptyFrom(Segments(Trim(body)));
    NotAcceptable(guard, body, u);
    AcceptsExactly(guard, line, body, background);
  }

  lemma EmptyHasOne()
    ensures OneOfEach("")
  {
  }

  /** So is a line with a bar at either end, in front of the ampersand or not. */
  lemma RefusedBarAtEnd(guard: char, line: string, body: string, background: bool)
    requires Reads(line, body, background) && Trim(body) != ""
    requires Trim(body)[0] == '|' || Trim(body)[|Trim(body)| - 1] == '|'
    ensures ParseCmdline(guard, line) == Parsed(Parse([], None, None, background, true))
  {
    hide ParseCmdline, Trim, Units, Reads;
    LineIs(guard, line, body, background);
    AddAllKeepsBackground(Start(guard, Trim(body), '&' in body, background), Units(guard, Trim(body)), 0);
  }

  // ----- tasks that are never filled in -----

  lemma {:induction false} NonEmptyAll(xs: seq<string>)
    ensures |NonEmpty(xs)| == |xs| <==> "" !in xs
  {
    if xs != [] {
      NonEmptyAll(xs[1..]);
      NonEmptyFrom(xs[1..]);
      assert xs == [xs[0]] + xs[1..];
    }
  }

  /** An accepted line fills in all its tasks exactly when no two of its bars are adjacent and it is more than an ampersand. */
  lemma TasksFilledExactly(guard: char, line: string, body: string, background: bool)
    requires Reads(line, body, background) && Acceptable(guard, body)
    ensures var o := ParseCmdline(guard, line);
      && o.Parsed? && |o.parse.tasks| == |Segments(Trim(body))|
      && ((forall k :: 0 <= k < |o.parse.tasks| ==> o.parse.tasks[k] != None) <==> "" !in Segments(Trim(body)))
  {
    hide ParseCmdline, Trim, Segments, NonEmpty, Reads, Acceptable;
    AcceptsExactly(guard, line, body, background);
    NonEmptyAll(Segments(Trim(body)));
    NonEmptyFrom(Segments(Trim(body)));
    var n, us := |Segments(Trim(body))|, NonEmpty(Segments(Trim(body)));
    if |us| < n {
      assert Meaning(guard, body, background).tasks[|us|] == None;
    }
  }
}
