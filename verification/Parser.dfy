/**
 The command-line parser as it runs: C strings in one char buffer, trimmed, blanked and cut in
 place. A pointer is an index into the buffer. Every method is proved to compute its counterpart in
 ParseSpec and to touch no byte outside the string it was given.
 */
module Parser {
  import opened ParseSpec

  /** The buffer holds the NUL-terminated string s at p. */
  ghost predicate CStr(buf: array<char>, p: int, s: string)
    reads buf
  {
    && 0 <= p && p + |s| < buf.Length && buf[p + |s|] == NUL
    && forall k :: 0 <= k < |s| ==> buf[p + k] == s[k] && s[k] != NUL
  }

  /** Reading a string at u gives its character, or the terminator at its end and nowhere else. */
  lemma Look(buf: array<char>, p: int, s: string, u: nat)
    requires CStr(buf, p, s) && u <= |s|
    ensures if buf[p + u] == NUL then u == |s| else u < |s| && buf[p + u] == s[u]
  {
    if u < |s| {
      assert buf[p + u] == s[u];
    }
  }

  method StrLen(buf: array<char>, p: nat, ghost s: string) returns (n: nat)
    requires CStr(buf, p, s)
    ensures n == |s|
  {
    n := 0;
    while buf[p + n] != NUL
      invariant n <= |s|
      decreases |s| - n
    {
      Look(buf, p, s, n);
      n := n + 1;
    }
    Look(buf, p, s, n);
  }

  /** memmove() to a lower address. */
  method MoveDown(buf: array<char>, p: nat, start: nat, n: nat)
    requires p + start + n <= buf.Length
    modifies buf
    ensures forall j :: p <= j < p + n ==> buf[j] == old(buf[j + start])
    ensures forall j :: 0 <= j < buf.Length && !(p <= j < p + n) ==> buf[j] == old(buf[j])
  {
    for k := p to p + n
      invariant forall j :: p <= j < k ==> buf[j] == old(buf[j + start])
      invariant forall j :: 0 <= j < buf.Length && !(p <= j < k) ==> buf[j] == old(buf[j])
    {
      buf[k] := buf[k + start];
    }
  }

  /** Trimming cuts at the first and after the last character that is not a space. */
  lemma TrimIs(s: string, start: nat, end: nat)
    requires start <= end <= |s|
    requires forall k :: 0 <= k < start || end <= k < |s| ==> IsSpace(s[k])
    requires if start == end then end == |s| else !IsSpace(s[start]) && !IsSpace(s[end - 1])
    ensures Trim(s) == s[start..end]
  {
    var left := s[start..];
    assert SpaceSpan(s) == start;
    assert SolidEnd(left) == end - start;
    assert left[..end - start] == s[start..end];
  }

  /** Makes s[start..end] the string at p. */
  method Shift(buf: array<char>, p: nat, start: nat, end: nat, ghost s: string)
    requires CStr(buf, p, s) && start <= end <= |s|
    modifies buf
    ensures CStr(buf, p, s[start..end])
    ensures forall j :: 0 <= j < buf.Length && !(p <= j <= p + |s|) ==> buf[j] == old(buf[j])
    ensures buf[p + |s|] == NUL
  {
    ghost var t := s[start..end];
    forall k | 0 <= k < |t| ensures buf[(p + k) + start] == t[k] && t[k] != NUL {
      assert buf[p + (start + k)] == s[start + k];
    }
    MoveDown(buf, p, start, end - start);
    buf[p + (end - start)] := NUL;
  }

  /** trim(): where the text starts and ends. */
  method FindSolid(buf: array<char>, p: nat, ghost s: string) returns (start: nat, end: nat)
    requires CStr(buf, p, s)
    ensures start <= end <= |s| && Trim(s) == s[start..end]
  {
    end := StrLen(buf, p, s);
    start := 0;
    while IsSpace(buf[p + start])
      invariant start <= |s| && forall k :: 0 <= k < start ==> IsSpace(s[k])
      decreases |s| - start
    {
      assert buf[p + start] == s[start];
      start := start + 1;
    }
    if buf[p + start] != NUL {
      assert !IsSpace(s[start]);
      while end > 0 && IsSpace(buf[p + end - 1])
        invariant start < end <= |s| && forall k :: end <= k < |s| ==> IsSpace(s[k])
      {
        assert buf[p + (end - 1)] == s[end - 1];
        end := end - 1;
      }
      assert buf[p + (end - 1)] == s[end - 1];
    }
    TrimIs(s, start, end);
  }

  method TrimInPlace(buf: array<char>, p: nat, ghost s: string)
    requires CStr(buf, p, s)
    modifies buf
    ensures CStr(buf, p, Trim(s))
    ensures forall j :: 0 <= j < buf.Length && !(p <= j < p + |s|) ==> buf[j] == old(buf[j])
  {
    var start, end := FindSolid(buf, p, s);
    Shift(buf, p, start, end, s);
  }

  method Count(needle: char, buf: array<char>, p: nat, ghost s: string) returns (c: nat)
    requires CStr(buf, p, s)
    ensures c == CountChar(needle, s)
  {
    c := 0;
    var u := 0;
    while buf[p + u] != NUL
      invariant u <= |s| && c + CountChar(needle, s[u..]) == CountChar(needle, s)
      decreases |s| - u
    {
      Look(buf, p, s, u);
      assert s[u..][1..] == s[u + 1..];
      if buf[p + u] == needle {
        c := c + 1;
      }
      u := u + 1;
    }
    Look(buf, p, s, u);
  }

  /** The scan for a quote, an operator or a bar: where it is, or that the text ends first. */
  method FindChar(buf: array<char>, p: nat, i: nat, c: char, ghost s: string) returns (found: bool, j: nat)
    requires CStr(buf, p, s) && i <= |s| && c != NUL
    ensures i <= j <= |s| && j == i + Find(s[i..], c) && (found <==> j < |s|)
  {
    j := i;
    while buf[p + j] != NUL && buf[p + j] != c
      invariant i <= j <= |s| && Find(s[i..], c) == (j - i) + Find(s[j..], c)
      decreases |s| - j
    {
      Look(buf, p, s, j);
      assert s[j..][1..] == s[j + 1..];
      j := j + 1;
    }
    Look(buf, p, s, j);
    found := buf[p + j] == c;
  }

  lemma PlainStep(s: string, u: nat)
    requires u < |s| && !IsSpace(s[u])
    ensures CountArgs(s[u..]) == CountArgs(s[u + 1..])
  {
    assert s[u..][1..] == s[u + 1..];
  }

  /** What the scan does at a space in front of anything but a quote. */
  lemma SpaceStep(s: string, u: nat)
    requires u < |s| && IsSpace(s[u])
    ensures u + 1 == |s| ==> CountArgs(s[u..]) == None
    ensures u + 1 < |s| && Quote(s[u + 1]) == NUL ==>
              CountArgs(s[u..]) == if IsSpace(s[u + 1]) then CountArgs(s[u + 2..]) else AddOne(CountArgs(s[u + 2..]))
  {
    if u + 1 < |s| {
      assert s[u..][2..] == s[u + 2..];
      assert s[u..][1] == s[u + 1];
    }
  }

  /** And in front of a quote: it goes on behind the closing one. */
  lemma QuoteStep(s: string, u: nat, j: nat)
    requires u + 1 < |s| && IsSpace(s[u]) && Quote(s[u + 1]) != NUL && j == u + 2 + Find(s[u + 2..], s[u + 1])
    ensures CountArgs(s[u..]) == if j == |s| then None else AddOne(CountArgs(s[j + 1..]))
  {
    var t, f := s[u..], j - u - 2;
    assert t[2..] == s[u + 2..] && t[1] == s[u + 1];
    if j < |s| {
      assert t[2..][f + 1..] == s[j + 1..];
    }
  }

  ghost function Plus(n: nat, r: Option<nat>): Option<nat> {
    if r == None then None else Some(n + r.value)
  }

  lemma PlusSum(n: nat, d: nat, r: Option<nat>)
    ensures Plus(n, Plus(d, r)) == Plus(n + d, r)
  {
  }

  /** The scan over a quoted phrase that follows the space at u. */
  method CountQuoted(buf: array<char>, p: nat, u: nat, ghost s: string) returns (ok: bool, v: nat)
    requires CStr(buf, p, s) && u + 1 < |s| && IsSpace(s[u]) && Quote(s[u + 1]) != NUL
    ensures !ok ==> CountArgs(s[u..]) == None
    ensures ok ==> u < v <= |s| && CountArgs(s[u..]) == AddOne(CountArgs(s[v..]))
  {
    Look(buf, p, s, u + 1);
    ok, v := FindChar(buf, p, u + 2, buf[p + u + 1], s);
    QuoteStep(s, u, v);
    v := v + 1;
  }

  /** One turn of count_args() at a space: where it goes on, and what it has counted; not ok when it leaves the text. */
  method CountAtSpace(buf: array<char>, p: nat, u: nat, ghost s: string) returns (ok: bool, v: nat, d: nat)
    requires CStr(buf, p, s) && u < |s| && IsSpace(s[u])
    ensures !ok ==> CountArgs(s[u..]) == None
    ensures ok ==> u < v <= |s| && CountArgs(s[u..]) == Plus(d, CountArgs(s[v..]))
  {
    Look(buf, p, s, u + 1);
    if buf[p + u + 1] != NUL && Quote(buf[p + u + 1]) != NUL {
      ok, v := CountQuoted(buf, p, u, s);
      d := 1;
    } else {
      SpaceStep(s, u);
      ok, v, d := buf[p + u + 1] != NUL, u + 2, if IsSpace(buf[p + u + 1]) then 0 else 1;
    }
  }

  /** count_args(); None when the scan leaves the text. */
  method CountArguments(buf: array<char>, p: nat, ghost s: string) returns (r: Option<nat>)
    requires CStr(buf, p, s)
    ensures r == CountArgs(s)
  {
    var u, n := 0, 0;
    assert s[0..] == s;
    while buf[p + u] != NUL
      invariant u <= |s| && CountArgs(s) == Plus(n, CountArgs(s[u..]))
      decreases |s| - u
    {
      Look(buf, p, s, u);
      if IsSpace(buf[p + u]) {
        var ok, v, d := CountAtSpace(buf, p, u, s);
        if !ok {
          return None;
        }
        PlusSum(n, d, CountArgs(s[v..]));
        u, n := v, n + d;
      } else {
        PlainStep(s, u);
        u := u + 1;
      }
    }
    Look(buf, p, s, u);
    return Some(n);
  }

  method FindOperator(buf: array<char>, p: nat, start: nat, ghost s: string) returns (end: nat)
    requires CStr(buf, p, s) && start <= |s|
    ensures start <= end <= |s| && end == start + FindOp(s[start..])
  {
    end := start;
    while buf[p + end] != NUL && !IsOp(buf[p + end])
      invariant start <= end <= |s| && FindOp(s[start..]) == (end - start) + FindOp(s[end..])
      decreases |s| - end
    {
      Look(buf, p, s, end);
      assert s[end..][1..] == s[end + 1..];
      end := end + 1;
    }
    Look(buf, p, s, end);
  }

  lemma BlankedOutIs(op: char, s: string, i: nat, end: nat)
    requires NUL !in s && i == Find(s, op) < |s| && end == i + 1 + FindOp(s[i + 1..])
    ensures |BlankedOut(op, s)| == |s|
    ensures forall k :: 0 <= k < |s| ==> BlankedOut(op, s)[k] == (if i <= k < end then ' ' else s[k])
    ensures Operand(op, s) == s[i + 1..end]
  {
    var n := FindOp(s[i + 1..]);
    BlankedAt(s, i, n);
  }

  lemma BlankedAt(s: string, i: nat, n: nat)
    requires i + 1 + n <= |s|
    ensures var r := s[..i] + Spaces(n + 1) + s[i + 1 + n..];
      |r| == |s| && forall k :: 0 <= k < |s| ==> r[k] == (if i <= k < i + 1 + n then ' ' else s[k])
  {
  }

  /** memset() with spaces, inside a string. */
  method Blank(buf: array<char>, p: nat, i: nat, end: nat, ghost s: string, ghost r: string)
    requires CStr(buf, p, s) && i <= end <= |s| == |r|
    requires forall k :: 0 <= k < |s| ==> r[k] == (if i <= k < end then ' ' else s[k])
    modifies buf
    ensures CStr(buf, p, r)
    ensures forall j :: 0 <= j < buf.Length && !(p <= j < p + |s|) ==> buf[j] == old(buf[j])
  {
    for k := p + i to p + end
      invariant forall j :: 0 <= j < buf.Length ==> buf[j] == if p + i <= j < k then ' ' else old(buf[j])
    {
      buf[k] := ' ';
    }
    forall k | 0 <= k < |r| ensures buf[p + k] == r[k] && r[k] != NUL {
      assert s[k] != NUL;
    }
  }

  /** parse_unary(): copies out the operand and blanks the redirection. */
  method CutUnary(op: char, buf: array<char>, p: nat, ghost s: string) returns (arg: Option<string>)
    requires CStr(buf, p, s) && op != NUL
    modifies buf
    ensures arg == ParseUnary(op, s).0 && CStr(buf, p, ParseUnary(op, s).1)
    ensures |ParseUnary(op, s).1| == |s|
    ensures forall j :: 0 <= j < buf.Length && !(p <= j < p + |s|) ==> buf[j] == old(buf[j])
  {
    assert s[0..] == s;
    var found, i := FindChar(buf, p, 0, op, s);
    if !found {
      return None;
    }
    var end := FindOperator(buf, p, i + 1, s);
    var text := CopyTrimmed(buf, p, i + 1, end, s);
    BlankedOutIs(op, s, i, end);
    arg := Some(text);
    Blank(buf, p, i, end, s, BlankedOut(op, s));
  }

  /** strndup() and trim(). */
  method CopyTrimmed(buf: array<char>, p: nat, i: nat, j: nat, ghost s: string) returns (t: string)
    requires CStr(buf, p, s) && i <= j <= |s|
    ensures t == Trim(s[i..j])
  {
    CopyText(buf, p, s, i, j);
    t := Trim(buf[p + i..p + j]);
  }

  lemma CopyText(buf: array<char>, p: nat, s: string, i: nat, j: nat)
    requires CStr(buf, p, s) && i <= j <= |s|
    ensures buf[p + i..p + j] == s[i..j]
  {
    forall k | 0 <= k < j - i ensures buf[p + i..p + j][k] == s[i..j][k] {
      assert s[i..j][k] == s[i + k];
      assert buf[p + (i + k)] == s[i + k];
    }
  }

  // ----- tokens -----

  method SkipGap(buf: array<char>, p: nat, ghost s: string) returns (k: nat)
    requires CStr(buf, p, s)
    ensures k == GapSpan(s)
  {
    k := 0;
    while IsGap(buf[p + k])
      invariant k <= |s| && GapSpan(s) == k + GapSpan(s[k..])
      decreases |s| - k
    {
      Look(buf, p, s, k);
      assert s[k..][1..] == s[k + 1..];
      k := k + 1;
    }
    Look(buf, p, s, k);
  }

  /** Ends the string at e, if it does not end there already, and steps over the cut. */
  method Cut(buf: array<char>, p: nat, e: nat, ghost s: string) returns (next: nat)
    requires CStr(buf, p, s) && e <= |s|
    modifies buf
    ensures CStr(buf, p, s[..e]) && CStr(buf, next, RestAfter(s, e)) && p + e <= next <= p + |s|
    ensures next == p + e + (if e < |s| then 1 else 0) && (e < |s| ==> buf[next - 1] == NUL)
    ensures forall j :: 0 <= j < buf.Length && j != p + e ==> buf[j] == old(buf[j])
    ensures buf[p + e] == NUL
  {
    Look(buf, p, s, e);
    next := p + e;
    if buf[next] != NUL {
      ghost var r := s[e + 1..];
      forall k | 0 <= k < |r| ensures buf[(next + 1) + k] == r[k] && r[k] != NUL {
        assert buf[p + (e + 1 + k)] == s[e + 1 + k];
      }
      buf[next] := NUL;
      next := next + 1;
    }
  }

  /** Where the next token starts and ends. */
  method FindToken(buf: array<char>, str: nat, ghost s: string) returns (found: bool, k: nat, e: nat)
    requires str >= 1 && CStr(buf, str, s)
    ensures k == GapSpan(s) && (found <==> k < |s|)
    ensures found ==> e == TokenEnd(buf[str - 1], s, k)
  {
    k := SkipGap(buf, str, s);
    e := 0;
    Look(buf, str, s, k);
    found := buf[str + k] != NUL;
    if found {
      if k > 0 {
        Look(buf, str, s, k - 1);
      }
      var quote := Quote(buf[str + k - 1]);
      var closed, j := FindChar(buf, str, k, if quote == NUL then ' ' else quote, s);
      e := j;
    }
  }

  /** argtok(): the next token, cut out of the string, and where to go on. */
  method ArgTok(buf: array<char>, str: nat, ghost s: string) returns (tok: Option<string>, state: nat)
    requires str >= 1 && CStr(buf, str, s)
    modifies buf
    ensures tok == None <==> GapSpan(s) == |s|
    ensures tok != None ==>
              var e := TokenEnd(old(buf[str - 1]), s, GapSpan(s));
              && tok == Some(s[GapSpan(s)..e])
              && str < state && CStr(buf, state, RestAfter(s, e)) && state + |RestAfter(s, e)| <= str + |s|
              && (RestAfter(s, e) != "" ==> buf[state - 1] == NUL)
    ensures forall j :: 0 <= j < buf.Length && !(str <= j < str + |s|) ==> buf[j] == old(buf[j])
  {
    var found, k, e := FindToken(buf, str, s);
    if !found {
      return None, str;
    }
    CopyText(buf, str, s, k, e);
    tok := Some(buf[str + k..str + e]);
    state := Cut(buf, str, e, s);
  }

  lemma Regroup(a: seq<string>, x: string, b: seq<string>)
    ensures a + ([x] + b) == (a + [x]) + b
  {
  }

  /** Tokens after the first do not depend on a byte in front of an empty rest. */
  lemma TokensStep(q: char, s: string, q': char)
    requires GapSpan(s) < |s|
    requires var rest := RestAfter(s, TokenEnd(q, s, GapSpan(s))); rest == "" || q' == NUL
    ensures var e := TokenEnd(q, s, GapSpan(s)); Tokens(q, s) == [s[GapSpan(s)..e]] + Tokens(q', RestAfter(s, e))
  {
  }

  /** parse_command(): argv with room for what count_args finds, filled with what argtok yields. */
  method ParseCommandLine(buf: array<char>, p: nat, ghost s: string) returns (argv: Option<seq<string>>)
    requires p >= 1 && CStr(buf, p, s)
    modifies buf
    ensures argv == ParseCommand(old(buf[p - 1]), s)
    ensures forall j :: 0 <= j < buf.Length && !(p <= j < p + |s|) ==> buf[j] == old(buf[j])
  {
    ghost var q := buf[p - 1];
    TrimInPlace(buf, p, s);
    ghost var t := Trim(s);
    TrimShorter(s);
    var count := CountArguments(buf, p, t);
    if count == None {
      return None;
    }
    argv := FillArgv(buf, p, count.value + 1, t);
  }

  lemma TrimShorter(s: string)
    ensures |Trim(s)| <= |s|
  {
  }

  /** argtok(), with toks the tokens found so far and those still to come. */
  method NextArg(buf: array<char>, str: nat, ghost cur: string, ghost got: seq<string>, ghost toks: seq<string>)
    returns (tok: Option<string>, state: nat, ghost rest: string)
    requires str >= 1 && CStr(buf, str, cur) && toks == got + Tokens(buf[str - 1], cur)
    modifies buf
    ensures tok == None ==> toks == got
    ensures tok != None ==>
              && str <= state && CStr(buf, state, rest) && state + |rest| <= str + |cur| && |rest| < |cur|
              && state >= 1 && toks == (got + [tok.value]) + Tokens(buf[state - 1], rest)
    ensures forall j :: 0 <= j < buf.Length && !(str <= j < str + |cur|) ==> buf[j] == old(buf[j])
  {
    ghost var q := buf[str - 1];
    tok, state := ArgTok(buf, str, cur);
    rest := "";
    if tok == None {
      assert Tokens(q, cur) == [];
    } else {
      rest := RestAfter(cur, TokenEnd(q, cur, GapSpan(cur)));
      TokensStep(q, cur, buf[state - 1]);
      Regroup(got, tok.value, Tokens(buf[state - 1], rest));
    }
  }

  /** The loop over argtok(), storing into an array with room for argc entries and the NULL after them. */
  method FillArgv(buf: array<char>, p: nat, argc: nat, ghost t: string) returns (argv: Option<seq<string>>)
    requires p >= 1 && CStr(buf, p, t)
    modifies buf
    ensures argv == (var toks := Tokens(old(buf[p - 1]), t); if |toks| != argc then None else Some(toks))
    ensures forall j :: 0 <= j < buf.Length && !(p <= j < p + |t|) ==> buf[j] == old(buf[j])
  {
    var str := p;
    var stored: seq<string> := [];
    ghost var cur, toks := t, Tokens(buf[p - 1], t);
    while true
      invariant p <= str && CStr(buf, str, cur) && str + |cur| <= p + |t|
      invariant toks == stored + Tokens(buf[str - 1], cur)
      invariant forall j :: 0 <= j < buf.Length && !(p <= j < p + |t|) ==> buf[j] == old(buf[j])
      decreases |cur|
    {
      var tok, state, rest := NextArg(buf, str, cur, stored, toks);
      if tok == None {
        break;
      }
      if |stored| > argc {
        return None;
      }
      stored, str, cur := stored + [tok.value], state, rest;
    }
    argv := if |stored| != argc then None else Some(stored);
  }

  // ----- units and lines -----

  /** Blanks and returns a redirection's operand, if the text has one. */
  method CutRedirection(op: char, present: bool, buf: array<char>, p: nat, ghost s: string) returns (arg: Option<string>, ghost t: string)
    requires CStr(buf, p, s) && op != NUL
    modifies buf
    ensures (arg, t) == if present then ParseUnary(op, s) else (None, s)
    ensures CStr(buf, p, t) && |t| == |s|
    ensures forall j :: 0 <= j < buf.Length && !(p <= j < p + |s|) ==> buf[j] == old(buf[j])
  {
    arg, t := None, s;
    if present {
      arg := CutUnary(op, buf, p, s);
      t := ParseUnary(op, s).1;
    }
  }

  /** The counts parse_unit() checks before it takes a unit apart. */
  method CheckCounts(buf: array<char>, p: nat, ghost s: string) returns (ok: bool, infiles: nat, outfiles: nat)
    requires CStr(buf, p, s)
    ensures infiles == CountChar('<', s) && outfiles == CountChar('>', s)
    ensures ok <==> infiles <= 1 && outfiles <= 1 && CountChar('\'', s) % 2 == 0 && CountChar('\"', s) % 2 == 0
  {
    infiles := Count('<', buf, p, s);
    outfiles := Count('>', buf, p, s);
    var singles := Count('\'', buf, p, s);
    var doubles := Count('\"', buf, p, s);
    ok := infiles <= 1 && outfiles <= 1 && singles % 2 == 0 && doubles % 2 == 0;
  }

  /** parse_unit() */
  method ParseUnitAt(buf: array<char>, p: nat, ghost s: string) returns (u: Unit)
    requires p >= 1 && CStr(buf, p, s)
    modifies buf
    ensures u == ParseUnit(old(buf[p - 1]), s)
    ensures forall j :: 0 <= j < buf.Length && !(p <= j < p + |s|) ==> buf[j] == old(buf[j])
  {
    var ok, infiles, outfiles := CheckCounts(buf, p, s);
    if !ok {
      return Rejected;
    }
    var infile, s1 := CutRedirection('<', infiles > 0, buf, p, s);
    var outfile, s2 := CutRedirection('>', outfiles > 0, buf, p, s1);
    var argv := ParseCommandLine(buf, p, s2);
    u := if argv == None then Undefined else Unit(argv.value, infile, outfile);
  }

  /** The Parse structure, filled in unit by unit. */
  class Record {
    var tasks: seq<Option<seq<string>>>
    var infile: Option<string>
    var outfile: Option<string>
    var background: bool
    var invalidSyntax: bool

    ghost function Snapshot(): Parse
      reads this
    {
      Parse(tasks, infile, outfile, background, invalidSyntax)
    }

    constructor ()
      ensures Snapshot() == Parse([], None, None, false, false)
    {
      tasks, infile, outfile, background, invalidSyntax := [], None, None, false, false;
    }

    /** parse_add_unit() */
    method Add(u: Unit, i: nat)
      requires i < |tasks|
      modifies this
      ensures Snapshot() == AddUnit(old(Snapshot()), u, i)
    {
      if !u.Unit? || (u.infile != None && (i != 0 || Trim(u.infile.value) == ""))
         || (u.outfile != None && (i != |tasks| - 1 || Trim(u.outfile.value) == ""))
         || u.argv == [] || u.argv[0] == ""
      {
        invalidSyntax := true;
        return;
      }
      tasks := tasks[i := Some(u.argv)];
      if u.infile != None {
        infile := u.infile;
      }
      if u.outfile != None {
        outfile := u.outfile;
      }
    }
  }

  method SkipBars(buf: array<char>, p: nat, ghost s: string) returns (a: nat)
    requires CStr(buf, p, s)
    ensures a == BarSpan(s) && (a > 0 ==> buf[p + a - 1] == '|')
  {
    a := 0;
    while buf[p + a] == '|'
      invariant a <= |s| && BarSpan(s) == a + BarSpan(s[a..]) && (a > 0 ==> buf[p + a - 1] == '|')
      decreases |s| - a
    {
      Look(buf, p, s, a);
      assert s[a..][1..] == s[a + 1..];
      a := a + 1;
    }
    Look(buf, p, s, a);
  }

  lemma Suffix(buf: array<char>, p: nat, s: string, a: nat)
    requires CStr(buf, p, s) && a <= |s|
    ensures CStr(buf, p + a, s[a..])
  {
    forall k | 0 <= k < |s| - a ensures buf[(p + a) + k] == s[a..][k] != NUL {
      assert buf[p + (a + k)] == s[a + k];
    }
  }

  /** Cuts out the token that starts at a and ends at b. */
  method CutToken(buf: array<char>, str: nat, a: nat, b: nat, ghost s: string) returns (next: nat)
    requires str >= 1 && CStr(buf, str, s) && a < b <= |s|
    modifies buf
    ensures CStr(buf, str + a, s[a..b])
    ensures str + b <= next && CStr(buf, next, RestAfter(s, b)) && next + |RestAfter(s, b)| <= str + |s|
    ensures RestAfter(s, b) != "" ==> buf[next - 1] == NUL && next == str + b + 1
    ensures forall j :: 0 <= j < buf.Length && !(str + a <= j < str + |s|) ==> buf[j] == old(buf[j])
  {
    next := Cut(buf, str, b, s);
    Suffix(buf, str, s[..b], a);
  }

  method CutUnit(buf: array<char>, str: nat, a: nat, ghost s: string) returns (b: nat, next: nat)
    requires str >= 1 && CStr(buf, str, s) && a == BarSpan(s) < |s|
    modifies buf
    ensures a < b == UnitEnd(s) && CStr(buf, str + a, s[a..b])
    ensures str + b <= next && CStr(buf, next, RestAfter(s, b)) && next + |RestAfter(s, b)| <= str + |s|
    ensures RestAfter(s, b) != "" ==> buf[next - 1] == NUL && next == str + b + 1
    ensures forall j :: 0 <= j < buf.Length && !(str + a <= j < str + |s|) ==> buf[j] == old(buf[j])
  {
    var closed;
    closed, b := FindChar(buf, str, a, '|', s);
    assert b == UnitEnd(s);
    next := CutToken(buf, str, a, b, s);
  }

  /** strtok_r() on '|' */
  method StrTok(buf: array<char>, str: nat, ghost s: string) returns (found: bool, tok: nat, next: nat)
    requires str >= 1 && CStr(buf, str, s)
    modifies buf
    ensures found <==> BarSpan(s) < |s|
    ensures found ==>
              var a, b := BarSpan(s), UnitEnd(s);
              && tok == str + a && CStr(buf, tok, s[a..b]) && buf[tok - 1] == (if a > 0 then '|' else old(buf[str - 1]))
              && str + b <= next && CStr(buf, next, RestAfter(s, b)) && next + |RestAfter(s, b)| <= str + |s|
              && (RestAfter(s, b) != "" ==> buf[next - 1] == NUL && next == str + b + 1)
    ensures forall j :: 0 <= j < buf.Length && !(str <= j < str + |s|) ==> buf[j] == old(buf[j])
  {
    var a := SkipBars(buf, str, s);
    Look(buf, str, s, a);
    tok, next, found := str + a, str, buf[str + a] != NUL;
    if found {
      var b;
      b, next := CutUnit(buf, str, a, s);
    }
  }

  /** The byte in front of an empty rest does not matter. */
  lemma UnitsStep(q: char, s: string, q': char)
    requires BarSpan(s) < |s| && (RestAfter(s, UnitEnd(s)) == "" || q' == NUL)
    ensures Units(q, s) == [FirstUnit(q, s)] + Units(q', RestAfter(s, UnitEnd(s)))
  {
    NoUnits(NUL);
    NoUnits(q');
  }

  lemma NoUnits(q: char)
    ensures Units(q, "") == []
  {
  }

  lemma AddStep(p: Parse, u: Unit, us: seq<Unit>, i: nat)
    requires !p.invalidSyntax
    ensures AddAll(p, [u] + us, i) == if u == Undefined || i >= |p.tasks| then Broken else AddAll(AddUnit(p, u, i), us, i + 1)
  {
    assert ([u] + us)[1..] == us;
  }

  /** Cuts off the next unit and parses it in place. */
  method NextUnit(buf: array<char>, str: nat, ghost s: string) returns (found: bool, u: Unit, next: nat)
    requires str >= 1 && CStr(buf, str, s)
    modifies buf
    ensures found <==> BarSpan(s) < |s|
    ensures found ==>
              && u == FirstUnit(old(buf[str - 1]), s)
              && str < next && CStr(buf, next, RestAfter(s, UnitEnd(s)))
              && next + |RestAfter(s, UnitEnd(s))| <= str + |s|
              && (RestAfter(s, UnitEnd(s)) == "" || buf[next - 1] == NUL)
    ensures forall j :: 0 <= j < buf.Length && !(str <= j < str + |s|) ==> buf[j] == old(buf[j])
  {
    var tok;
    found, tok, next := StrTok(buf, str, s);
    u := Rejected;
    if found {
      ghost var unit, rest := s[BarSpan(s)..UnitEnd(s)], RestAfter(s, UnitEnd(s));
      label cut:
      u := ParseUnitAt(buf, tok, unit);
      forall k | 0 <= k < |rest| ensures buf[next + k] == rest[k] && rest[k] != NUL {
        assert old@cut(buf[next + k]) == rest[k];
      }
    }
  }

  /** Parses the next unit and adds it to the record; false when there is none. */
  method AddNextUnit(buf: array<char>, str: nat, P: Record, i: nat, ghost s: string) returns (found: bool, broken: bool, next: nat)
    requires str >= 1 && CStr(buf, str, s) && !P.invalidSyntax
    modifies buf, P
    ensures found <==> BarSpan(s) < |s|
    ensures !found ==> P.Snapshot() == old(P.Snapshot())
    ensures found && broken ==> AddAll(old(P.Snapshot()), Units(old(buf[str - 1]), s), i) == Broken
    ensures found && !broken ==>
              && str < next && CStr(buf, next, RestAfter(s, UnitEnd(s))) && next + |RestAfter(s, UnitEnd(s))| <= str + |s|
              && AddAll(old(P.Snapshot()), Units(old(buf[str - 1]), s), i) == AddAll(P.Snapshot(), Units(buf[next - 1], RestAfter(s, UnitEnd(s))), i + 1)
    ensures forall j :: 0 <= j < buf.Length && !(str <= j < str + |s|) ==> buf[j] == old(buf[j])
  {
    ghost var q := buf[str - 1];
    var isUnit, u, n := NextUnit(buf, str, s);
    found, broken, next := isUnit, false, n;
    if found {
      UnitsStep(q, s, buf[next - 1]);
      AddStep(P.Snapshot(), u, Units(buf[next - 1], RestAfter(s, UnitEnd(s))), i);
      if u == Undefined || i >= |P.tasks| {
        broken := true;
      } else {
        P.Add(u, i);
      }
    }
  }

  /** The loop of parse_cmdline(). */
  method AddUnits(buf: array<char>, p: nat, P: Record, ghost s: string) returns (o: Outcome)
    requires p >= 1 && p < buf.Length && (!P.invalidSyntax ==> CStr(buf, p, s))
    modifies buf, P
    ensures o == AddAll(old(P.Snapshot()), Units(old(buf[p - 1]), s), 0)
    ensures forall j :: 0 <= j < buf.Length && !(p <= j < p + |s|) ==> buf[j] == old(buf[j])
  {
    var i, str := 0, p;
    ghost var rest := s;
    while !P.invalidSyntax
      invariant p <= str < buf.Length && str + |rest| <= p + |s| && (!P.invalidSyntax ==> CStr(buf, str, rest))
      invariant AddAll(P.Snapshot(), Units(buf[str - 1], rest), i) == AddAll(old(P.Snapshot()), Units(old(buf[p - 1]), s), 0)
      invariant forall j :: 0 <= j < buf.Length && !(p <= j < p + |s|) ==> buf[j] == old(buf[j])
      decreases |rest|
    {
      var found, broken, next := AddNextUnit(buf, str, P, i, rest);
      if !found {
        break;
      }
      if broken {
        return Broken;
      }
      i, str, rest := i + 1, next, RestAfter(rest, UnitEnd(rest));
    }
    o := Parsed(Parse(P.tasks, P.infile, P.outfile, P.background, P.invalidSyntax));
  }

  lemma TrimTwice(s: string)
    ensures Trim(Trim(s)) == Trim(s)
  {
    var t := Trim(s);
    if t != "" {
      var left := s[SpaceSpan(s)..];
      assert t == left[..SolidEnd(left)];
      assert !IsSpace(left[0]) && !IsSpace(left[SolidEnd(left) - 1]);
      TrimIs(t, 0, |t|);
      assert t[0..|t|] == t;
    }
  }

  /** is_background(): trims, and takes a trailing ampersand off. */
  method IsBackground(buf: array<char>, p: nat, ghost s: string) returns (background: bool)
    requires CStr(buf, p, s) && Trim(s) != ""
    modifies buf
    ensures background <==> Trim(s)[|Trim(s)| - 1] == '&'
    ensures Background(s).1 == if background then Trim(s)[..|Trim(s)| - 1] else Trim(s)
    ensures background == Background(s).0 && CStr(buf, p, Background(s).1) && |Background(s).1| <= |s|
    ensures forall j :: 0 <= j < buf.Length && !(p <= j < p + |s|) ==> buf[j] == old(buf[j])
  {
    TrimInPlace(buf, p, s);
    TrimShorter(s);
    ghost var t := Trim(s);
    var n := StrLen(buf, p, t);
    var last := n - 1;
    Look(buf, p, t, last);
    background := buf[p + last] == '&';
    if background {
      buf[p + last] := NUL;
    }
  }

  /** has_trailing() for '|': trims, and looks at both ends; the end of an empty string is the byte in front of it. */
  method HasTrailing(buf: array<char>, p: nat, ghost s: string) returns (b: bool)
    requires p >= 1 && CStr(buf, p, s)
    modifies buf
    ensures b == HasTrailingBar(old(buf[p - 1]), Trim(s)) && CStr(buf, p, Trim(s))
    ensures forall j :: 0 <= j < buf.Length && !(p <= j < p + |s|) ==> buf[j] == old(buf[j])
  {
    TrimInPlace(buf, p, s);
    ghost var t := Trim(s);
    var n := StrLen(buf, p, t);
    Look(buf, p, t, 0);
    if n > 0 {
      Look(buf, p, t, n - 1);
    }
    b := buf[p] == '|' || buf[p + n - 1] == '|';
  }

  /** parse_init(); the record is left invalid when the line is. */
  method ParseInit(buf: array<char>, p: nat, P: Record, ghost s: string)
    requires p >= 1 && CStr(buf, p, s) && Trim(s) != "" && P.Snapshot() == Parse([], None, None, false, false)
    modifies buf, P
    ensures P.Snapshot() == InitialParse(old(buf[p - 1]), s)
    ensures !P.invalidSyntax ==> CStr(buf, p, Trim(Background(s).1)) && |Trim(Background(s).1)| <= |s|
    ensures forall j :: 0 <= j < buf.Length && !(p <= j < p + |s|) ==> buf[j] == old(buf[j])
  {
    var background := IsBackground(buf, p, s);
    ghost var t := Background(s).1;
    P.background := background;
    var ampersands := Count('&', buf, p, t);
    if ampersands > 0 {
      P.invalidSyntax := true;
      return;
    }
    var trailing := HasTrailing(buf, p, t);
    if trailing {
      P.invalidSyntax := true;
      return;
    }
    TrimShorter(t);
    var bars := Count('|', buf, p, Trim(t));
    P.tasks := NoTasks(bars + 1);
  }

  /** parse_cmdline(): for every line, and whatever byte precedes the buffer, the outcome ParseSpec gives. */
  method ParseCommandLineText(buf: array<char>, p: nat, ghost line: string) returns (o: Outcome)
    requires p >= 1 && CStr(buf, p, line)
    modifies buf
    ensures o == ParseCmdline(old(buf[p - 1]), line)
    ensures forall j :: 0 <= j < buf.Length && !(p <= j < p + |line|) ==> buf[j] == old(buf[j])
  {
    TrimInPlace(buf, p, line);
    TrimTwice(line);
    TrimShorter(line);
    var n := StrLen(buf, p, Trim(line));
    if n == 0 {
      return Empty;
    }
    var P := new Record();
    ParseInit(buf, p, P, Trim(line));
    o := AddUnits(buf, p, P, Trim(Background(Trim(line)).1));
  }
}
