/** Parsing undoes printing, for every line of the grammar. */
module RoundTrip {
  import opened ParseSpec
  import opened Grammar
  import opened Parser

  // ----- scanning concatenations -----

  lemma {:induction false} CountAppend(c: char, a: string, b: string)
    ensures CountChar(c, a + b) == CountChar(c, a) + CountChar(c, b)
  {
    if a == "" {
      assert a + b == b;
    } else {
      assert (a + b)[1..] == a[1..] + b;
      CountAppend(c, a[1..], b);
    }
  }

  lemma {:induction false} CountAbsent(c: char, s: string)
    requires c !in s
    ensures CountChar(c, s) == 0
  {
    if s != "" {
      CountAbsent(c, s[1..]);
    }
  }

  lemma {:induction false} FindAfter(a: string, c: char, r: string)
    requires c !in a && (r == "" || r[0] == c)
    ensures Find(a + r, c) == |a|
  {
    if a == "" {
      assert a + r == r;
    } else {
      assert (a + r)[1..] == a[1..] + r;
      FindAfter(a[1..], c, r);
    }
  }

  lemma {:induction false} FindOpAfter(m: string, r: string)
    requires (forall k :: 0 <= k < |m| ==> !IsOp(m[k])) && (r == "" || IsOp(r[0]))
    ensures FindOp(m + r) == |m|
  {
    if m == "" {
      assert m + r == r;
    } else {
      assert (m + r)[1..] == m[1..] + r;
      FindOpAfter(m[1..], r);
    }
  }

  predicate AllBlank(s: string) {
    forall k :: 0 <= k < |s| ==> IsSpace(s[k])
  }

  lemma TrimPadded(a: string, s: string, b: string)
    requires AllBlank(a) && AllBlank(b) && Solid(s)
    ensures Trim(a + s + b) == s
  {
    var t := a + s + b;
    assert t[|a|] == s[0] && t[|a| + |s| - 1] == s[|s| - 1];
    TrimIs(t, |a|, |a| + |s|);
    assert t[|a|..|a| + |s|] == s;
  }

  // ----- redirections -----

  lemma Pieces(a: string, c: char, m: string, r: string)
    ensures var s := a + ([c] + m + r); s[..|a|] == a && s[|a| + 1..] == m + r && s[|a| + 1 + |m|..] == r
    ensures (m + r)[..|m|] == m
  {
  }

  /** One redirection: a before it, m its operand, r what follows from the next operator on. */
  lemma UnaryOn(op: char, a: string, m: string, r: string, s: string)
    requires IsOp(op) && op !in a && (forall k :: 0 <= k < |m| ==> !IsOp(m[k])) && (r == "" || IsOp(r[0]))
    requires s == a + ([op] + m + r)
    ensures Find(s, op) == |a| < |s|
    ensures Operand(op, s) == m
    ensures BlankedOut(op, s) == a + Spaces(|m| + 1) + r
  {
    FindAfter(a, op, [op] + m + r);
    Pieces(a, op, m, r);
    FindOpAfter(m, r);
  }

  /** Nothing in s ends a string, redirects, pipes or backgrounds. */
  predicate Inert(s: string) {
    forall k :: 0 <= k < |s| ==> s[k] != NUL && !IsOp(s[k]) && s[k] != '&'
  }

  lemma Assoc(a: string, b: string, c: string)
    ensures (a + b) + c == a + (b + c)
  {
  }

  /** A printed redirection as parse_unary() sees it: a space, the operator, the operand with its spaces, the rest. */
  lemma Marked(op: char, f: string, x: string, r: string)
    ensures (([' ', op, ' '] + f) + x) + r == [' '] + (([op] + (([' '] + f) + x)) + r)
  {
    var a, b, m := [' '], [op], ([' '] + f) + x;
    assert [' ', op, ' '] == (a + b) + [' '];
    Assoc(a + b, [' '], f);
    Assoc(a + b, [' '] + f, x);
    Assoc(a + b, m, r);
    Assoc(a, b, m + r);
    Assoc(b, m, r);
  }

  lemma OperandInert(f: string, x: string)
    requires Inert(f) && Inert(x)
    ensures Inert(([' '] + f) + x)
  {
  }

  /** A printed redirection, with x the space after its operand and r the next redirection if there is one. */
  lemma RedirectionOn(op: char, pre: string, f: string, x: string, r: string, s: string) returns (b: string)
    requires IsOp(op) && op !in pre && Solid(f) && Inert(f) && AllBlank(x) && Inert(x) && (r == "" || IsOp(r[0]))
    requires s == pre + ((([' ', op, ' '] + f) + x) + r)
    ensures AllBlank(b) && Inert(b) && ParseUnary(op, s) == (Some(f), (pre + (b + [' '])) + r)
  {
    var a, m := [' '], ([' '] + f) + x;
    Marked(op, f, x, r);
    Assoc(pre, a, ([op] + m) + r);
    OperandInert(f, x);
    UnaryOn(op, pre + a, m, r, s);
    TrimPadded([' '], f, x);
    b := a + Spaces(|m|);
    Assoc(pre, a, Spaces(|m| + 1));
    Assoc(a, Spaces(|m|), [' ']);
    assert Spaces(|m|) + [' '] == Spaces(|m| + 1);
  }

  lemma CountRedirection(c: char, op: char, f: Option<string>)
    requires ValidFile(f) && !Clean(c) && c != ' ' && IsOp(op)
    ensures CountChar(c, ShowRedirection(op, f)) == if f != None && c == op then 1 else 0
  {
    if f != None {
      CountAppend(c, [' ', op, ' '], f.value);
      CountAbsent(c, f.value);
      assert [' ', op, ' '][1..] == [op, ' '] && [op, ' '][1..] == [' '] && [' '][1..] == "";
      assert CountChar(c, [' ']) == 0;
    }
  }

  /** How often a special character occurs in a unit: in its command, and once for its own redirection. */
  lemma CountUnit(c: char, pre: string, infile: Option<string>, outfile: Option<string>, x: string)
    requires ValidFile(infile) && ValidFile(outfile) && !Clean(c) && c != ' ' && c !in x
    ensures CountChar(c, pre + ((ShowRedirection('<', infile) + ShowRedirection('>', outfile)) + x))
            == CountChar(c, pre) + (if infile != None && c == '<' then 1 else 0) + (if outfile != None && c == '>' then 1 else 0)
  {
    var i, o := ShowRedirection('<', infile), ShowRedirection('>', outfile);
    CountAppend(c, pre, (i + o) + x);
    CountAppend(c, i + o, x);
    CountAppend(c, i, o);
    CountRedirection(c, '<', infile);
    CountRedirection(c, '>', outfile);
    CountAbsent(c, x);
  }

  lemma JoinBlanks(pre: string, b: string, c: string)
    requires AllBlank(b) && AllBlank(c)
    ensures AllBlank(b + c) && (pre + b) + c == pre + (b + c)
  {
  }

  /** A unit with one redirection. */
  lemma OneRedirection(op: char, pre: string, f: string, x: string, s: string) returns (b: string)
    requires IsOp(op) && Inert(pre) && ValidFile(Some(f)) && AllBlank(x) && Inert(x)
    requires s == pre + (([' ', op, ' '] + f) + x)
    ensures AllBlank(b) && ParseUnary(op, s) == (Some(f), pre + b)
  {
    var t := ([' ', op, ' '] + f) + x;
    assert t + "" == t;
    var b' := RedirectionOn(op, pre, f, x, "", s);
    b := b' + [' '];
    assert (pre + b) + "" == pre + b;
  }

  lemma SplitBoth(m: string, f: string, g: string, x: string)
    ensures ((m + f) + ([' ', '>', ' '] + g)) + x == ((m + f) + [' ']) + ((['>', ' '] + g) + x)
    ensures [' '] + ((['>', ' '] + g) + x) == ([' ', '>', ' '] + g) + x
  {
    var a, t := [' '], ['>', ' '];
    assert [' ', '>', ' '] == a + t;
    Assoc(a, t, g);
    Assoc(m + f, a, t + g);
    Assoc((m + f) + a, t + g, x);
    Assoc(a, t + g, x);
  }

  /** A unit with both redirections: the second is still there once the first is blanked. */
  lemma BothRedirections(pre: string, f: string, g: string, x: string, s: string) returns (b: string)
    requires Inert(pre) && ValidFile(Some(f)) && ValidFile(Some(g)) && AllBlank(x) && Inert(x)
    requires s == pre + ((([' ', '<', ' '] + f) + ([' ', '>', ' '] + g)) + x)
    ensures AllBlank(b) && ParseUnary('<', s).0 == Some(f) && ParseUnary('>', ParseUnary('<', s).1) == (Some(g), pre + b)
  {
    var r := (['>', ' '] + g) + x;
    SplitBoth([' ', '<', ' '], f, g, x);
    var b1 := RedirectionOn('<', pre, f, [' '], r, s);
    var s1 := ParseUnary('<', s).1;
    Assoc(pre, b1, [' ']);
    Assoc(pre + b1, [' '], r);
    var b2 := OneRedirection('>', pre + b1, g, x, s1);
    JoinBlanks(pre, b1, b2);
    b := b1 + b2;
  }

  /** What parse_unit() makes of the redirections after pre: the two files, and pre followed by blanks. */
  lemma RedirectionsParse(pre: string, infile: Option<string>, outfile: Option<string>, x: string, s: string) returns (b: string)
    requires Inert(pre) && ValidFile(infile) && ValidFile(outfile) && AllBlank(x) && Inert(x)
    requires s == pre + ((ShowRedirection('<', infile) + ShowRedirection('>', outfile)) + x)
    ensures AllBlank(b)
    ensures var (f, s1) := if infile == None then (None, s) else ParseUnary('<', s);
      f == infile && (if outfile == None then (None, s1) else ParseUnary('>', s1)) == (outfile, pre + b)
  {
    var i, o := ShowRedirection('<', infile), ShowRedirection('>', outfile);
    if infile == None {
      assert i + o == o;
      if outfile == None {
        assert o + x == x;
        b := x;
      } else {
        b := OneRedirection('>', pre, outfile.value, x, s);
      }
    } else if outfile == None {
      assert i + o == i;
      b := OneRedirection('<', pre, infile.value, x, s);
    } else {
      b := BothRedirections(pre, infile.value, outfile.value, x, s);
    }
  }

  // ----- the command and its arguments -----

  lemma ShowArgInert(a: Arg)
    requires ValidArg(a)
    ensures Inert(ShowArg(a)) && ShowArg(a) != "" && !IsSpace(ShowArg(a)[|ShowArg(a)| - 1])
  {
  }

  /** Printed arguments contain nothing special but quotes, and end in something other than a space. */
  lemma {:induction false} ShowArgsInert(args: seq<Arg>)
    requires forall k :: 0 <= k < |args| ==> ValidArg(args[k])
    ensures Inert(ShowArgs(args))
    ensures args != [] ==> ShowArgs(args) != "" && ShowArgs(args)[0] == ' ' && !IsSpace(ShowArgs(args)[|ShowArgs(args)| - 1])
  {
    if args != [] {
      ShowArgInert(args[0]);
      ShowArgsInert(args[1..]);
    }
  }

  lemma ShowCommandInert(c: Command)
    requires ValidCommand(c)
    ensures Inert(ShowCommand(c)) && Solid(ShowCommand(c))
  {
    ShowArgsInert(c.args);
  }

  /** Quotes come in pairs. */
  lemma {:induction false} ArgsQuotesEven(args: seq<Arg>, q: char)
    requires (forall k :: 0 <= k < |args| ==> ValidArg(args[k])) && Quote(q) == q && q != NUL
    ensures CountChar(q, ShowArgs(args)) % 2 == 0
  {
    if args != [] {
      var a := args[0];
      CountAppend(q, " " + ShowArg(a), ShowArgs(args[1..]));
      CountAppend(q, " ", ShowArg(a));
      if a.Phrase? {
        CountAppend(q, [a.quote] + a.text, [a.quote]);
        CountAppend(q, [a.quote], a.text);
      }
      CountAbsent(q, a.text);
      ArgsQuotesEven(args[1..], q);
    }
  }

  lemma QuotesEven(c: Command, q: char)
    requires ValidCommand(c) && Quote(q) == q && q != NUL
    ensures CountChar(q, ShowCommand(c)) % 2 == 0
  {
    CountAppend(q, c.name, ShowArgs(c.args));
    CountAbsent(q, c.name);
    ArgsQuotesEven(c.args, q);
  }

  lemma {:induction false} CountArgsSkips(w: string, r: string)
    requires forall k :: 0 <= k < |w| ==> !IsSpace(w[k])
    ensures CountArgs(w + r) == CountArgs(r)
  {
    if w == "" {
      assert w + r == r;
    } else {
      assert (w + r)[1..] == w[1..] + r;
      CountArgsSkips(w[1..], r);
    }
  }

  /** A space and a word count as one argument. */
  lemma CountWord(w: string, r: string, s: string)
    requires ValidWord(w) && s == [' '] + w + r
    ensures CountArgs(s) == AddOne(CountArgs(r))
  {
    assert s[1] == w[0] && s[2..] == w[1..] + r;
    CountArgsSkips(w[1..], r);
  }

  /** A space and a quoted phrase count as one argument, whatever spaces the phrase holds. */
  lemma CountPhrase(q: char, text: string, r: string, s: string)
    requires Quote(q) == q && q != NUL && CleanText(text) && s == [' '] + ([q] + text + [q]) + r
    ensures CountArgs(s) == AddOne(CountArgs(r))
  {
    assert s[1] == q && s[2..] == text + ([q] + r);
    FindAfter(text, q, [q] + r);
    assert s[2..][|text| + 1..] == r;
  }

  /** count_args() finds every argument. */
  lemma {:induction false} CountArgsOfArgs(args: seq<Arg>)
    requires forall k :: 0 <= k < |args| ==> ValidArg(args[k])
    ensures CountArgs(ShowArgs(args)) == Some(|args|)
  {
    if args != [] {
      CountArgsOfArgs(args[1..]);
      match args[0]
      case Word(text) => CountWord(text, ShowArgs(args[1..]), ShowArgs(args));
      case Phrase(quote, text) => CountPhrase(quote, text, ShowArgs(args[1..]), ShowArgs(args));
    }
  }

  lemma CountArgsOfCommand(c: Command)
    requires ValidCommand(c)
    ensures CountArgs(ShowCommand(c)) == Some(|c.args|)
  {
    CountArgsSkips(c.name, ShowArgs(c.args));
    CountArgsOfArgs(c.args);
  }

  /** A space in front of the text moves everything in it along by one. */
  lemma SlicesMove(s: string, t: string, k: nat, e: nat)
    requires t == [' '] + s && k <= e <= |s|
    ensures t[k + 1..] == s[k..] && t[k + 1..e + 1] == s[k..e] && RestAfter(t, e + 1) == RestAfter(s, e)
  {
    if e < |s| {
      assert t[e + 2..] == s[e + 1..];
    }
  }

  lemma GapMoves(s: string, t: string)
    requires t == [' '] + s
    ensures GapSpan(t) == GapSpan(s) + 1
  {
    assert t[1..] == s;
  }

  lemma TokenEndMoves(s: string, t: string, k: nat)
    requires t == [' '] + s && k == GapSpan(s) < |s| && GapSpan(t) == k + 1
    ensures TokenEnd(NUL, t, k + 1) == TokenEnd(NUL, s, k) + 1
  {
    SlicesMove(s, t, k, k);
    assert t[k] == if k == 0 then ' ' else s[k - 1];
  }

  lemma FirstToken(q: char, s: string, k: nat, e: nat)
    requires k == GapSpan(s) < |s| && e == TokenEnd(q, s, k)
    ensures Tokens(q, s) == [s[k..e]] + Tokens(NUL, RestAfter(s, e))
  {
  }

  lemma NoToken(q: char, s: string)
    requires GapSpan(s) == |s|
    ensures Tokens(q, s) == []
  {
  }

  /** It makes no difference to the tokens. */
  lemma TokensSkipSpace(s: string)
    ensures Tokens(NUL, [' '] + s) == Tokens(NUL, s)
  {
    hide *;
    var t, k := [' '] + s, GapSpan(s);
    GapMoves(s, t);
    if k < |s| {
      var e := TokenEnd(NUL, s, k);
      TokenEndMoves(s, t, k);
      SlicesMove(s, t, k, e);
      calc {
        Tokens(NUL, t);
      ==  { FirstToken(NUL, t, k + 1, e + 1); }
        [t[k + 1..e + 1]] + Tokens(NUL, RestAfter(t, e + 1));
      ==
        [s[k..e]] + Tokens(NUL, RestAfter(s, e));
      ==  { FirstToken(NUL, s, k, e); }
        Tokens(NUL, s);
      }
    } else {
      NoToken(NUL, s);
      NoToken(NUL, t);
    }
  }

  lemma TokensAfterSpace(r: string)
    requires r == "" || r[0] == ' '
    ensures Tokens(NUL, if r == "" then "" else r[1..]) == Tokens(NUL, r)
  {
    if r != "" {
      assert [' '] + r[1..] == r;
      TokensSkipSpace(r[1..]);
    }
  }

  lemma WordBounds(q: char, w: string, r: string, s: string)
    requires ValidWord(w) && Quote(q) == NUL && s == w + r && (r == "" || r[0] == ' ')
    ensures GapSpan(s) == 0 && TokenEnd(q, s, 0) == |w| && s[0..|w|] == w
    ensures RestAfter(s, |w|) == if r == "" then "" else r[1..]
  {
    assert s[0] == w[0];
    assert s[0..] == w + r;
    FindAfter(w, ' ', r);
    if r != "" {
      assert s[|w| + 1..] == r[1..];
    }
  }

  /** A bare word in front of a space or the end is the next token. */
  lemma TokenWord(q: char, w: string, r: string, s: string)
    requires ValidWord(w) && Quote(q) == NUL && s == w + r && (r == "" || r[0] == ' ')
    ensures Tokens(q, s) == [w] + Tokens(NUL, r)
  {
    WordBounds(q, w, r, s);
    TokensAfterSpace(r);
  }

  lemma PhraseBounds(quote: char, text: string, r: string, s: string)
    requires (quote == '\"' || quote == '\'') && text != "" && CleanText(text) && text[0] != ' '
    requires s == ([quote] + text + [quote]) + r
    ensures GapSpan(s) == 1 && TokenEnd(NUL, s, 1) == 1 + |text| && s[1..1 + |text|] == text
    ensures RestAfter(s, 1 + |text|) == r
  {
    assert s[0] == quote && s[1] == text[0];
    assert s[1..] == text + ([quote] + r);
    assert !IsGap(s[1..][0]) && GapSpan(s[1..]) == 0;
    FindAfter(text, quote, [quote] + r);
    assert s[1 + |text| + 1..] == r;
  }

  /** A quoted phrase is the next token, without its quotes. */
  lemma TokenPhrase(quote: char, text: string, r: string, s: string)
    requires (quote == '\"' || quote == '\'') && text != "" && CleanText(text) && text[0] != ' '
    requires s == ([quote] + text + [quote]) + r
    ensures Tokens(NUL, s) == [text] + Tokens(NUL, r)
  {
    PhraseBounds(quote, text, r, s);
  }

  lemma TokenArg(a: Arg, r: string)
    requires ValidArg(a) && (r == "" || r[0] == ' ')
    ensures Tokens(NUL, ShowArg(a) + r) == [a.text] + Tokens(NUL, r)
  {
    match a
    case Word(text) => TokenWord(NUL, text, r, text + r);
    case Phrase(quote, text) => TokenPhrase(quote, text, r, ShowArg(a) + r);
  }

  /** argtok() yields the arguments' texts, in order. */
  lemma {:induction false} TokensOfArgs(args: seq<Arg>)
    requires forall k :: 0 <= k < |args| ==> ValidArg(args[k])
    ensures Tokens(NUL, ShowArgs(args)) == Texts(args)
  {
    if args != [] {
      var r := ShowArgs(args[1..]);
      TokensOfArgs(args[1..]);
      ShowArgsInert(args[1..]);
      TokenArg(args[0], r);
      Assoc([' '], ShowArg(args[0]), r);
      TokensSkipSpace(ShowArg(args[0]) + r);
    }
  }

  lemma TokensOfCommand(c: Command, q: char)
    requires ValidCommand(c) && Quote(q) == NUL
    ensures Tokens(q, ShowCommand(c)) == Argv(c)
  {
    ShowArgsInert(c.args);
    TokenWord(q, c.name, ShowArgs(c.args), ShowCommand(c));
    TokensOfArgs(c.args);
  }

  lemma {:induction false} TextsLength(args: seq<Arg>)
    ensures |Texts(args)| == |args|
  {
    if args != [] {
      TextsLength(args[1..]);
    }
  }

  /** A command among blanks parses to its argv: as many tokens as count_args() made room for. */
  lemma CommandParses(c: Command, q: char, a: string, b: string)
    requires ValidCommand(c) && Quote(q) == NUL && AllBlank(a) && AllBlank(b)
    ensures ParseCommand(q, a + ShowCommand(c) + b) == Some(Argv(c))
  {
    ShowCommandInert(c);
    TrimPadded(a, ShowCommand(c), b);
    CountArgsOfCommand(c);
    TokensOfCommand(c, q);
    TextsLength(c.args);
  }

  // ----- a unit -----

  function Lead(i: nat): string {
    if i == 0 then "" else " "
  }

  function Trail(l: Line, i: nat): string {
    if i + 1 == |l.stages| then "" else " "
  }

  lemma ShowUnitIs(l: Line, i: nat)
    requires i < |l.stages|
    ensures ShowUnit(l, i) == (Lead(i) + ShowCommand(l.stages[i].command))
                              + ((ShowRedirection('<', l.stages[i].infile) + ShowRedirection('>', l.stages[i].outfile)) + Trail(l, i))
  {
  }

  lemma LeadInert(lead: string, c: Command)
    requires ValidCommand(c) && (lead == "" || lead == " ")
    ensures Inert(lead + ShowCommand(c)) && AllBlank(lead) && Inert(lead)
  {
    ShowCommandInert(c);
  }

  lemma LeadCount(q: char, lead: string, c: Command)
    requires ValidCommand(c) && (lead == "" || lead == " ") && Quote(q) == q && q != NUL
    ensures CountChar(q, lead + ShowCommand(c)) % 2 == 0
  {
    CountAppend(q, lead, ShowCommand(c));
    CountAbsent(q, lead);
    QuotesEven(c, q);
  }

  /** The counts parse_unit() looks at before it parses. */
  lemma UnitCounts(lead: string, c: Command, infile: Option<string>, outfile: Option<string>, x: string, s: string)
    requires ValidCommand(c) && ValidFile(infile) && ValidFile(outfile)
    requires (lead == "" || lead == " ") && (x == "" || x == " ")
    requires s == (lead + ShowCommand(c)) + ((ShowRedirection('<', infile) + ShowRedirection('>', outfile)) + x)
    ensures CountChar('<', s) == (if infile == None then 0 else 1) && CountChar('>', s) == (if outfile == None then 0 else 1)
    ensures CountChar('\'', s) % 2 == 0 && CountChar('\"', s) % 2 == 0
  {
    var pre := lead + ShowCommand(c);
    LeadInert(lead, c);
    CountAbsent('<', pre);
    CountAbsent('>', pre);
    LeadCount('\'', lead, c);
    LeadCount('\"', lead, c);
    CountUnit('<', pre, infile, outfile, x);
    CountUnit('>', pre, infile, outfile, x);
    CountUnit('\'', pre, infile, outfile, x);
    CountUnit('\"', pre, infile, outfile, x);
  }

  /** A printed unit parses to its own command and its own redirections. */
  lemma UnitParses(l: Line, i: nat, q: char)
    requires ValidLine(l) && i < |l.stages| && Quote(q) == NUL
    ensures ParseUnit(q, ShowUnit(l, i)) == Unit(Argv(l.stages[i].command), l.stages[i].infile, l.stages[i].outfile)
  {
    var c, s := l.stages[i].command, ShowUnit(l, i);
    ShowUnitIs(l, i);
    LeadInert(Lead(i), c);
    UnitCounts(Lead(i), c, l.stages[i].infile, l.stages[i].outfile, Trail(l, i), s);
    var b := RedirectionsParse(Lead(i) + ShowCommand(c), l.stages[i].infile, l.stages[i].outfile, Trail(l, i), s);
    CommandParses(c, q, Lead(i), b);
  }

  // ----- the pipeline -----

  /** Nothing in s separates units, backgrounds the line or ends the string. */
  predicate Barless(s: string) {
    forall k :: 0 <= k < |s| ==> s[k] != NUL && s[k] != '|' && s[k] != '&'
  }

  lemma BarlessAppend(a: string, b: string)
    requires Barless(a) && Barless(b)
    ensures Barless(a + b)
  {
  }

  lemma RedirectionBarless(op: char, f: Option<string>)
    requires ValidFile(f) && (op == '<' || op == '>')
    ensures Barless(ShowRedirection(op, f))
    ensures f != None ==> ShowRedirection(op, f) != "" && !IsSpace(ShowRedirection(op, f)[|ShowRedirection(op, f)| - 1])
  {
  }

  lemma UnitBarless(l: Line, i: nat)
    requires ValidLine(l) && i < |l.stages|
    ensures Barless(ShowUnit(l, i)) && ShowUnit(l, i) != ""
  {
    ShowUnitIs(l, i);
    LeadInert(Lead(i), l.stages[i].command);
    ShowCommandInert(l.stages[i].command);
    var f, g := ShowRedirection('<', l.stages[i].infile), ShowRedirection('>', l.stages[i].outfile);
    RedirectionBarless('<', l.stages[i].infile);
    RedirectionBarless('>', l.stages[i].outfile);
    BarlessAppend(f, g);
    BarlessAppend(f + g, Trail(l, i));
    BarlessAppend(Lead(i) + ShowCommand(l.stages[i].command), (f + g) + Trail(l, i));
  }

  /** strtok_r() hands over exactly the printed unit. */
  lemma UnitCut(u: string, r: string, s: string)
    requires u != "" && Barless(u) && (r == "" || r[0] == '|') && s == u + r
    ensures BarSpan(s) == 0 && UnitEnd(s) == |u| && s[0..|u|] == u && s != ""
    ensures RestAfter(s, |u|) == if r == "" then "" else r[1..]
  {
    assert s[0] == u[0];
    assert s[0..] == s;
    FindAfter(u, '|', r);
    if r != "" {
      assert s[|u| + 1..] == r[1..];
    }
  }

  /** The files of the line that have been seen after i units. */
  function Partial(l: Line, i: nat): Parse
    requires i <= |l.stages|
  {
    Parse(Argvs(l, i), if i == 0 then None else l.stages[0].infile,
          if 0 < i == |l.stages| then l.stages[i - 1].outfile else None, l.background, false)
  }

  lemma SolidTrims(f: string)
    requires Solid(f)
    ensures Trim(f) == f
  {
    TrimPadded("", f, "");
    assert "" + f + "" == f;
  }

  /** A parsed unit takes its place among the tasks. */
  lemma UnitAdds(l: Line, i: nat)
    requires ValidLine(l) && i < |l.stages| && PlacedAt(l, i)
    ensures AddUnit(Partial(l, i), Unit(Argv(l.stages[i].command), l.stages[i].infile, l.stages[i].outfile), i) == Partial(l, i + 1)
  {
    if l.stages[i].infile != None {
      SolidTrims(l.stages[i].infile.value);
    }
    if l.stages[i].outfile != None {
      SolidTrims(l.stages[i].outfile.value);
    }
    assert Argvs(l, i)[i := Some(Argv(l.stages[i].command))] == Argvs(l, i + 1);
  }

  /** What follows unit i on the line. */
  function After(l: Line, i: nat): string
    requires i < |l.stages|
  {
    if i + 1 == |l.stages| then "" else "|" + ShowFrom(l, i + 1)
  }

  /** What the units of a line should parse to, from unit i on. */
  function ParsedUnits(l: Line, i: nat): seq<Unit>
    requires i <= |l.stages|
    decreases |l.stages| - i
  {
    if i == |l.stages| then []
    else [Unit(Argv(l.stages[i].command), l.stages[i].infile, l.stages[i].outfile)] + ParsedUnits(l, i + 1)
  }

  lemma ParsedUnitsAt(l: Line, i: nat)
    requires i < |l.stages|
    ensures ParsedUnits(l, i) == [Unit(Argv(l.stages[i].command), l.stages[i].infile, l.stages[i].outfile)] + ParsedUnits(l, i + 1)
  {
  }

  /** The first unit of a text that starts with the text of one. */
  lemma UnitsOf(q: char, u: string, r: string, s: string)
    requires u != "" && Barless(u) && (r == "" || r[0] == '|') && s == u + r
    ensures Units(q, s) == [ParseUnit(q, u)] + Units(NUL, if r == "" then "" else r[1..])
  {
    UnitCut(u, r, s);
  }

  lemma UnitsFrom(l: Printable, i: nat, q: char)
    requires i < |l.stages| && Quote(q) == NUL
    ensures Units(q, ShowFrom(l, i)) == [Unit(Argv(l.stages[i].command), l.stages[i].infile, l.stages[i].outfile)]
                                        + if i + 1 == |l.stages| then [] else Units(NUL, ShowFrom(l, i + 1))
  {
    UnitBarless(l, i);
    UnitParses(l, i, q);
    UnitsOf(q, ShowUnit(l, i), After(l, i), ShowFrom(l, i));
    assert After(l, i) != "" ==> After(l, i)[1..] == ShowFrom(l, i + 1);
    NoUnits(NUL);
  }

  /** The loop over units finds every printed unit. */
  lemma {:induction false} UnitsParse(l: Printable, i: nat, q: char)
    requires i < |l.stages| && Quote(q) == NUL
    ensures Units(q, ShowFrom(l, i)) == ParsedUnits(l, i)
    decreases |l.stages| - i
  {
    UnitsFrom(l, i, q);
    if i + 1 < |l.stages| {
      UnitsParse(l, i + 1, NUL);
    }
  }

  /** A misplaced redirection ends the loop. */
  lemma UnitRefused(l: Line, i: nat, rest: seq<Unit>)
    requires i < |l.stages| && !PlacedAt(l, i)
    ensures var u := Unit(Argv(l.stages[i].command), l.stages[i].infile, l.stages[i].outfile);
      AddAll(Partial(l, i), [u] + rest, i) == Parsed(Partial(l, i).(invalidSyntax := true))
  {
    var u := Unit(Argv(l.stages[i].command), l.stages[i].infile, l.stages[i].outfile);
    AddStep(Partial(l, i), u, rest, i);
  }

  /** What a line should come to: its structure, or a refusal. */
  predicate Judged(l: Line, o: Outcome)
    requires l.stages != []
  {
    if Placed(l) then o == Parsed(Structure(l)) else o.Parsed? && o.parse.invalidSyntax
  }

  lemma RebuiltAtEnd(l: Line)
    requires l.stages != [] && Placed(l)
    ensures Judged(l, AddAll(Partial(l, |l.stages|), ParsedUnits(l, |l.stages|), |l.stages|))
  {
  }

  /** Added one by one, the units rebuild the line, unless one is refused. */
  lemma {:induction false} UnitsRebuild(l: Printable, i: nat)
    requires i <= |l.stages| && forall k :: 0 <= k < i ==> PlacedAt(l, k)
    ensures Judged(l, AddAll(Partial(l, i), ParsedUnits(l, i), i))
    decreases |l.stages| - i
  {
    if i == |l.stages| {
      RebuiltAtEnd(l);
    } else if PlacedAt(l, i) {
      hide Judged, AddAll, AddUnit;
      UnitAdds(l, i);
      AddStep(Partial(l, i), ParsedUnits(l, i)[0], ParsedUnits(l, i + 1), i);
      UnitsRebuild(l, i + 1);
    } else {
      hide AddAll, AddUnit, ParsedUnits;
      ParsedUnitsAt(l, i);
      UnitRefused(l, i, ParsedUnits(l, i + 1));
    }
  }

  // ----- the whole line -----

  /** What the tests on the whole line look at: how many bars, no ampersand, the end solid. */
  predicate Shaped(s: string, bars: nat) {
    CountChar('|', s) == bars && CountChar('&', s) == 0 && s != "" && !IsSpace(s[|s| - 1]) && s[|s| - 1] != '|'
  }

  lemma ShapeOfLast(u: string)
    requires Barless(u) && u != "" && !IsSpace(u[|u| - 1])
    ensures Shaped(u, 0)
  {
    CountAbsent('|', u);
    CountAbsent('&', u);
  }

  lemma ShapeStep(u: string, r: string, bars: nat)
    requires Barless(u) && Shaped(r, bars)
    ensures Shaped(u + ("|" + r), bars + 1)
  {
    var s := u + ("|" + r);
    BarBetween('|', u, r, s);
    BarBetween('&', u, r, s);
  }

  lemma ShapeAtEnd(l: Printable)
    ensures Shaped(ShowFrom(l, |l.stages| - 1), 0)
  {
    var u := ShowUnit(l, |l.stages| - 1);
    UnitBarless(l, |l.stages| - 1);
    LastUnitEnds(l);
    ShapeOfLast(u);
    assert u + "" == u;
  }

  /** ts[i] is what is printed from unit i on, us[i] the unit itself. */
  lemma {:induction false} ShapeAll(ts: seq<string>, us: seq<string>, i: nat)
    requires i < |ts| == |us| && Shaped(ts[|ts| - 1], 0)
    requires forall k :: 0 <= k < |us| - 1 ==> Barless(us[k]) && ts[k] == us[k] + ("|" + ts[k + 1])
    ensures Shaped(ts[i], |ts| - 1 - i)
    decreases |ts| - i
  {
    if i + 1 < |ts| {
      ShapeAll(ts, us, i + 1);
      ShapeStep(us[i], ts[i + 1], |ts| - 2 - i);
    }
  }

  lemma LinePieces(l: Printable, ts: seq<string>, us: seq<string>)
    requires |ts| == |us| == |l.stages|
    requires forall k :: 0 <= k < |ts| ==> ts[k] == ShowFrom(l, k) && us[k] == ShowUnit(l, k)
    ensures forall k :: 0 <= k < |us| - 1 ==> Barless(us[k]) && ts[k] == us[k] + ("|" + ts[k + 1])
  {
    forall k | 0 <= k < |us| - 1 ensures Barless(us[k]) && ts[k] == us[k] + ("|" + ts[k + 1]) {
      UnitBarless(l, k);
    }
  }

  lemma PiecesShaped(l: Printable, ts: seq<string>, us: seq<string>)
    requires |ts| == |us| == |l.stages|
    requires forall k :: 0 <= k < |ts| ==> ts[k] == ShowFrom(l, k) && us[k] == ShowUnit(l, k)
    ensures Shaped(ts[0], |ts| - 1)
  {
    ShapeAtEnd(l);
    LinePieces(l, ts, us);
    ShapeAll(ts, us, 0);
  }

  lemma LineShape(l: Printable)
    ensures Shaped(ShowFrom(l, 0), |l.stages| - 1)
  {
    var n := |l.stages|;
    var ts := seq(n, k requires 0 <= k < n => ShowFrom(l, k));
    PiecesShaped(l, ts, seq(n, k requires 0 <= k < n => ShowUnit(l, k)));
  }

  lemma BarBetween(c: char, u: string, r: string, s: string)
    requires s == u + ("|" + r) && r != "" && c !in u
    ensures CountChar(c, s) == (if c == '|' then 1 else 0) + CountChar(c, r)
    ensures s != "" && s[|s| - 1] == r[|r| - 1]
  {
    CountAppend(c, u, "|" + r);
    CountAbsent(c, u);
    assert ("|" + r)[1..] == r;
  }

  /** The last unit ends in a file name or in an argument. */
  lemma LastUnitEnds(l: Line)
    requires ValidLine(l)
    ensures var u := ShowUnit(l, |l.stages| - 1); u != "" && !IsSpace(u[|u| - 1])
  {
    var i := |l.stages| - 1;
    ShowUnitIs(l, i);
    UnitBarless(l, i);
    LeadEnds(Lead(i), l.stages[i].command);
    RedirectionBarless('<', l.stages[i].infile);
    RedirectionBarless('>', l.stages[i].outfile);
    EndOfThree(Lead(i) + ShowCommand(l.stages[i].command), ShowRedirection('<', l.stages[i].infile), ShowRedirection('>', l.stages[i].outfile));
  }

  lemma LeadEnds(lead: string, c: Command)
    requires ValidCommand(c)
    ensures var s := lead + ShowCommand(c); s != "" && !IsSpace(s[|s| - 1])
  {
    ShowCommandInert(c);
  }

  lemma EndOfThree(a: string, b: string, c: string)
    requires a != "" && !IsSpace(a[|a| - 1])
    requires b != "" ==> !IsSpace(b[|b| - 1])
    requires c != "" ==> !IsSpace(c[|c| - 1])
    ensures var s := a + ((b + c) + ""); !IsSpace(s[|s| - 1])
  {
    assert (b + c) + "" == b + c;
    if c == "" {
      assert b + c == b;
    }
  }

  lemma LineStarts(l: Line)
    requires ValidLine(l)
    ensures ShowFrom(l, 0) != "" && !IsSpace(ShowFrom(l, 0)[0]) && ShowFrom(l, 0)[0] != '|'
  {
    ShowUnitIs(l, 0);
    ShowCommandInert(l.stages[0].command);
    var c := ShowCommand(l.stages[0].command);
    assert Lead(0) + c == c;
    assert ShowFrom(l, 0)[0] == c[0];
  }

  /** A trailing ampersand is told apart from the line in front of it. */
  lemma BackgroundOf(body: string, background: bool, s: string)
    requires Solid(body) && CountChar('&', body) == 0 && s == body + if background then " &" else ""
    ensures Trim(s) == s != "" && Background(s).0 == background && Trim(Background(s).1) == body
    ensures CountChar('&', Background(s).1) == 0
  {
    SolidTrims(s);
    if background {
      assert s[..|s| - 1] == body + " ";
      TrimPadded("", body, " ");
      assert "" + body + " " == body + " ";
      CountAppend('&', body, " ");
    } else {
      assert s == body;
      SolidTrims(body);
      NotCounted('&', body, |body| - 1);
    }
  }

  lemma {:induction false} NotCounted(c: char, s: string, k: nat)
    requires k < |s| && CountChar(c, s) == 0
    ensures s[k] != c
  {
    if k > 0 {
      NotCounted(c, s[1..], k - 1);
    }
  }

  lemma InitialIs(guard: char, line: string, l: Printable, body: string)
    requires Background(line).0 == l.background && Trim(Background(line).1) == body && CountChar('&', Background(line).1) == 0
    requires !HasTrailingBar(guard, body) && CountChar('|', body) + 1 == |l.stages|
    ensures InitialParse(guard, line) == Partial(l, 0)
  {
    assert NoTasks(|l.stages|) == Argvs(l, 0);
  }

  lemma LineJudged(l: Printable, guard: char)
    requires Quote(guard) == NUL
    ensures Judged(l, ParseCmdline(guard, Show(l)))
  {
    hide ShowFrom, Units, AddAll, Trim, Judged;
    var body := ShowFrom(l, 0);
    LineShape(l);
    LineStarts(l);
    BackgroundOf(body, l.background, Show(l));
    InitialIs(guard, Show(l), l, body);
    UnitsParse(l, 0, guard);
    UnitsRebuild(l, 0);
  }

  /** The main result: a line of the grammar parses back to the very structure it was printed from. */
  lemma ParseUndoesShow(l: Printable, guard: char)
    requires Placed(l) && Quote(guard) == NUL
    ensures ParseCmdline(guard, Show(l)) == Parsed(Structure(l))
  {
    LineJudged(l, guard);
  }

  /** A line with redirections anywhere is accepted if and only if they stand where the grammar has them. */
  lemma AcceptedExactly(l: Printable, guard: char)
    requires Quote(guard) == NUL
    ensures var o := ParseCmdline(guard, Show(l)); o.Parsed? && (!o.parse.invalidSyntax <==> Placed(l))
  {
    LineJudged(l, guard);
  }

  predicate SaySame(g: Stage, h: Stage) {
    Argv(g.command) == Argv(h.command) && g.infile == h.infile && g.outfile == h.outfile
  }

  lemma StructureDetermines(l: Line, m: Line)
    requires l.stages != [] && m.stages != [] && Placed(l) && Placed(m) && Structure(l) == Structure(m)
    ensures |l.stages| == |m.stages| && forall k :: 0 <= k < |l.stages| ==> SaySame(l.stages[k], m.stages[k])
  {
    var n := |l.stages|;
    assert |Argvs(l, n)| == |Argvs(m, |m.stages|)|;
    forall k | 0 <= k < n ensures SaySame(l.stages[k], m.stages[k]) {
      assert Argvs(l, n)[k] == Argvs(m, n)[k];
      assert PlacedAt(l, k) && PlacedAt(m, k);
    }
  }

  /** Two lines of the grammar that print alike say the same: the text of a line loses nothing but the kind of quotes. */
  lemma ShowDetermines(l: Printable, m: Printable)
    requires Placed(l) && Placed(m) && Show(l) == Show(m)
    ensures l.background == m.background && |l.stages| == |m.stages|
    ensures forall k :: 0 <= k < |l.stages| ==> SaySame(l.stages[k], m.stages[k])
  {
    ParseUndoesShow(l, NUL);
    ParseUndoesShow(m, NUL);
    StructureDetermines(l, m);
  }

  // ----- exactly which lines survive -----

  predicate Startable(t: string) {
    t != "" && !IsGap(t[0])
  }

  /** argtok() never yields an empty token or one that starts with a space or a quote. */
  lemma {:induction false} TokensStartable(q: char, s: string)
    ensures forall t :: t in Tokens(q, s) ==> Startable(t)
    decreases |s|
  {
    var k := GapSpan(s);
    if k < |s| {
      var e := TokenEnd(q, s, k);
      FirstToken(q, s, k, e);
      assert Startable(s[k..e]);
      TokensStartable(NUL, RestAfter(s, e));
    }
  }

  lemma TrimmedIsSolid(s: string)
    ensures Trim(s) == "" || Solid(Trim(s))
  {
  }

  predicate SolidFile(f: Option<string>) {
    f != None ==> f.value == "" || Solid(f.value)
  }

  predicate ReadableUnit(u: Unit) {
    u.Unit? ==> (forall k :: 0 <= k < |u.argv| ==> Startable(u.argv[k])) && SolidFile(u.infile) && SolidFile(u.outfile)
  }

  lemma UnaryIsTrimmed(op: char, s: string)
    ensures SolidFile(ParseUnary(op, s).0)
  {
    if Find(s, op) < |s| {
      TrimmedIsSolid(Operand(op, s));
    }
  }

  lemma UnitIsReadable(q: char, s: string)
    ensures ReadableUnit(ParseUnit(q, s))
  {
    var s1 := Unary('<', s).1;
    var s2 := if CountChar('>', s) > 0 then ParseUnary('>', s1).1 else s1;
    UnaryIsTrimmed('<', s);
    UnaryIsTrimmed('>', s1);
    TokensStartable(q, Trim(s2));
  }

  predicate Readable(p: Parse) {
    && (forall k, j :: 0 <= k < |p.tasks| && p.tasks[k] != None && 0 <= j < |p.tasks[k].value| ==> Startable(p.tasks[k].value[j]))
    && (p.infile != None ==> Solid(p.infile.value)) && (p.outfile != None ==> Solid(p.outfile.value))
  }

  type ReadableParse = p: Parse | Readable(p) witness Parse([], None, None, false, false)

  lemma EmptyTrims()
    ensures Trim("") == ""
  {
  }

  lemma AddKeepsReadable(p: ReadableParse, u: Unit, i: nat) returns (r: ReadableParse)
    requires ReadableUnit(u) && i < |p.tasks|
    ensures r == AddUnit(p, u, i)
  {
    EmptyTrims();
    r := AddUnit(p, u, i);
  }

  lemma FirstIsReadable(q: char, s: string)
    requires BarSpan(s) < |s|
    ensures ReadableUnit(FirstUnit(q, s))
  {
    UnitIsReadable(if BarSpan(s) == 0 then q else '|', s[BarSpan(s)..UnitEnd(s)]);
  }

  lemma {:induction false} UnitsReadable(q: char, s: string)
    ensures forall k :: 0 <= k < |Units(q, s)| ==> ReadableUnit(Units(q, s)[k])
    decreases |s|
  {
    if BarSpan(s) < |s| {
      FirstIsReadable(q, s);
      UnitsReadable(NUL, RestAfter(s, UnitEnd(s)));
    }
  }

  lemma {:induction false} AllReadable(p: ReadableParse, us: seq<Unit>, i: nat)
    requires forall k :: 0 <= k < |us| ==> ReadableUnit(us[k])
    ensures var o := AddAll(p, us, i); o.Parsed? ==> Readable(o.parse)
    decreases |us|
  {
    if !p.invalidSyntax && us != [] && i < |p.tasks| {
      var r := AddKeepsReadable(p, us[0], i);
      AllReadable(r, us[1..], i + 1);
    }
  }

  lemma InitialReadable(guard: char, s: string)
    ensures Readable(InitialParse(guard, s))
  {
  }

  /** Whatever the line, no argument of the result starts with a space or a quote, and no file name with a space. */
  lemma ParsedIsReadable(guard: char, line: string)
    ensures var o := ParseCmdline(guard, line); o.Parsed? ==> Readable(o.parse)
  {
    var s := Trim(line);
    InitialReadable(guard, s);
    UnitsReadable(guard, Trim(Background(s).1));
    AllReadable(InitialParse(guard, s), Units(guard, Trim(Background(s).1)), 0);
  }

  lemma {:induction false} TextsAt(args: seq<Arg>, k: nat)
    requires k < |args|
    ensures |Texts(args)| == |args| && Texts(args)[k] == args[k].text
  {
    TextsLength(args);
    if k > 0 {
      TextsAt(args[1..], k - 1);
    }
  }

  lemma ReadableIsValid(l: Line)
    requires WellFormedLine(l) && Placed(l) && Readable(Structure(l))
    ensures ValidLine(l)
  {
    forall k | 0 <= k < |l.stages| ensures ValidStage(l.stages[k]) {
      assert PlacedAt(l, k);
      var c := l.stages[k].command;
      forall j | 0 <= j < |c.args| ensures ValidArg(c.args[j]) {
        TextsAt(c.args, j);
        assert Structure(l).tasks[k] == Some(Argv(c)) && Argv(c)[j + 1] == c.args[j].text;
        assert Startable(Structure(l).tasks[k].value[j + 1]);
      }
    }
  }

  /**
   A line of the grammar, of clean words, phrases and file names, parses back to itself if and only if
   every phrase has text that does not start with a space and every file name starts and ends with a
   character other than a space.
   */
  lemma RoundTripsExactly(l: Line, guard: char)
    requires WellFormedLine(l) && Placed(l) && Quote(guard) == NUL
    ensures ParseCmdline(guard, Show(l)) == Parsed(Structure(l)) <==> ValidLine(l)
  {
    if ValidLine(l) {
      ParseUndoesShow(l, guard);
    }
    ParsedIsReadable(guard, Show(l));
    if ParseCmdline(guard, Show(l)) == Parsed(Structure(l)) {
      ReadableIsValid(l);
    }
  }

  lemma GapSpanIs(s: string, k: nat)
    requires k <= |s| && (forall j :: 0 <= j < k ==> IsGap(s[j])) && (k < |s| ==> !IsGap(s[k]))
    ensures GapSpan(s) == k
  {
  }

  const LEADING_SPACE := Line([Stage(Command("a", [Phrase('\"', " b")]), None, None)], false)

  lemma LeadingSpacePrinted()
    ensures Show(LEADING_SPACE) == "a \" b\""
  {
    var args := LEADING_SPACE.stages[0].command.args;
    assert ShowArgs(args[1..]) == "";
    assert ShowArgs(args) == " " + "\" b\"" + "";
  }

  lemma LeadingSpaceTokens(q: char)
    requires Quote(q) == NUL
    ensures Tokens(q, "a \" b\"") == ["a", "b\""]
  {
    hide Tokens, GapSpan, Find;
    TokenWord(q, "a", " \" b\"", "a \" b\"");
    var s := " \" b\"";
    GapSpanIs(s, 3);
    assert s[3..] == "b\"" + "";
    FindAfter("b\"", ' ', "");
    FirstToken(NUL, s, 3, 5);
    assert s[3..5] == "b\"";
    NoToken(NUL, "");
    assert ["a"] + (["b\""] + []) == ["a", "b\""];
  }

  /** argtok() drops the space behind the opening quote: a line whose argument is a quoted space and b yields b and a stray quote. */
  lemma LeadingSpaceIsLost(guard: char)
    requires Quote(guard) == NUL
    ensures WellFormedLine(LEADING_SPACE) && Placed(LEADING_SPACE)
    ensures ParseCmdline(guard, Show(LEADING_SPACE)) != Parsed(Structure(LEADING_SPACE))
    ensures Tokens(guard, Show(LEADING_SPACE)) == ["a", "b\""]
  {
    hide Tokens, ParseCmdline;
    var stage := LEADING_SPACE.stages[0];
    assert PlacedAt(LEADING_SPACE, 0) && WellFormedStage(stage);
    assert !ValidArg(stage.command.args[0]) && !ValidStage(stage);
    LeadingSpacePrinted();
    LeadingSpaceTokens(guard);
    RoundTripsExactly(LEADING_SPACE, guard);
  }

  // ----- the array of tasks has room for every unit -----

  lemma CutCounts(s: string, b: nat)
    requires b < |s| && s[b] == '|'
    ensures CountChar('|', s) >= 1 + CountChar('|', s[b + 1..])
  {
    assert s == s[..b] + s[b..];
    CountAppend('|', s[..b], s[b..]);
    assert s[b..][1..] == s[b + 1..];
  }

  lemma UnitsCons(q: char, s: string)
    requires BarSpan(s) < |s|
    ensures |Units(q, s)| == 1 + |Units(NUL, RestAfter(s, UnitEnd(s)))|
    ensures UnitEnd(s) < |s| ==> s[UnitEnd(s)] == '|'
  {
  }

  lemma UnitsNone(q: char, s: string)
    requires BarSpan(s) == |s|
    ensures Units(q, s) == []
  {
  }

  lemma {:induction false} UnitsFit(q: char, s: string)
    ensures |Units(q, s)| <= CountChar('|', s) + 1
    decreases |s|
  {
    hide Units, CountChar, BarSpan, UnitEnd;
    if BarSpan(s) < |s| {
      var b := UnitEnd(s);
      UnitsCons(q, s);
      if b < |s| {
        UnitsFit(NUL, s[b + 1..]);
        CutCounts(s, b);
      } else {
        NoUnits(NUL);
      }
    } else {
      UnitsNone(q, s);
    }
  }

  /** Unit k of us is undefined, and no earlier one is refused. */
  ghost predicate Derails(p: Parse, us: seq<Unit>, i: nat, k: nat) {
    k < |us| && us[k] == Undefined && forall j :: 0 <= j < k ==> ValidSyntax(p, us[j], i + j)
  }

  lemma {:induction false} DerailedBreaks(p: Parse, us: seq<Unit>, i: nat, k: nat)
    requires !p.invalidSyntax && i + |us| <= |p.tasks| && Derails(p, us, i, k)
    ensures AddAll(p, us, i) == Broken
    decreases k
  {
    if k > 0 {
      assert ValidSyntax(p, us[0], i + 0);
      var r := AddUnit(p, us[0], i);
      forall j | 0 <= j < k - 1 ensures ValidSyntax(r, us[1..][j], (i + 1) + j) {
        assert ValidSyntax(p, us[j + 1], i + (j + 1));
      }
      DerailedBreaks(r, us[1..], i + 1, k - 1);
    }
  }

  lemma {:induction false} BrokenDerails(p: Parse, us: seq<Unit>, i: nat) returns (k: nat)
    requires !p.invalidSyntax && i + |us| <= |p.tasks| && AddAll(p, us, i) == Broken
    ensures Derails(p, us, i, k)
    decreases |us|
  {
    k := 0;
    if us[0] != Undefined {
      assert ValidSyntax(p, us[0], i);
      var r := AddUnit(p, us[0], i);
      k := BrokenDerails(r, us[1..], i + 1);
      forall j | 0 < j < k + 1 ensures ValidSyntax(p, us[j], i + j) {
        assert ValidSyntax(r, us[1..][j - 1], (i + 1) + (j - 1));
      }
      k := k + 1;
    }
  }

  /**
   For every input line: the loop never stores past the end of tasks[], and it goes wrong exactly when
   it reaches, with nothing refused before, a unit whose tokens do not fit its own argv.
   */
  lemma BrokenExactly(guard: char, line: string)
    ensures var s := Trim(line);
      var p, us := InitialParse(guard, s), Units(guard, Trim(Background(s).1));
      && (!p.invalidSyntax ==> |us| <= |p.tasks|)
      && (ParseCmdline(guard, line) == Broken <==> s != "" && !p.invalidSyntax && exists k: nat :: Derails(p, us, 0, k))
  {
    var s := Trim(line);
    var p, us := InitialParse(guard, s), Units(guard, Trim(Background(s).1));
    UnitsFit(guard, Trim(Background(s).1));
    if !p.invalidSyntax {
      if k: nat :| Derails(p, us, 0, k) {
        DerailedBreaks(p, us, 0, k);
      } else if AddAll(p, us, 0) == Broken {
        var k := BrokenDerails(p, us, 0);
      }
    }
  }

  /** So the program, given the printed line in a buffer, recovers the structure or refuses the line. */
  method ParsePrinted(buf: array<char>, p: nat, ghost l: Printable) returns (o: Outcome)
    requires p >= 1 && CStr(buf, p, Show(l)) && Quote(buf[p - 1]) == NUL
    modifies buf
    ensures if Placed(l) then o == Parsed(Structure(l)) else o.Parsed? && o.parse.invalidSyntax
    ensures forall j :: 0 <= j < buf.Length && !(p <= j < p + |Show(l)|) ==> buf[j] == old(buf[j])
  {
    LineJudged(l, buf[p - 1]);
    o := ParseCommandLineText(buf, p, Show(l));
  }
}
