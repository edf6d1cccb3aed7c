/**
 What each step of the command-line parser computes, over the text a char buffer holds.

 The functions are total. Where the program scans past the end of the text it was given, or fills
 argv with more or fewer tokens than it made room for, it is not followed further: the result is
 None, Undefined or Broken.
 */
module ParseSpec {

  const NUL := '\0'

  datatype Option<T> = None | Some(value: T)

  predicate IsSpace(c: char) {
    c == ' ' || c == '\t' || c == '\n' || c == '\r' || c == '\U{0B}' || c == '\U{0C}'
  }

  predicate IsOp(c: char) {
    c == '>' || c == '<' || c == '|'
  }

  /** The characters argtok skips in front of a token. */
  predicate IsGap(c: char) {
    c == ' ' || c == '\"' || c == '\''
  }

  /** The quote a byte stands for, if it is one. */
  function Quote(c: char): char {
    if c == '\"' || c == '\'' then c else NUL
  }

  // ----- scanning -----

  function Find(s: string, c: char): (i: nat)
    ensures i <= |s| && c !in s[..i] && (i < |s| ==> s[i] == c)
  {
    if s == [] || s[0] == c then 0 else 1 + Find(s[1..], c)
  }

  function FindOp(s: string): (i: nat)
    ensures i <= |s| && (forall k :: 0 <= k < i ==> !IsOp(s[k])) && (i < |s| ==> IsOp(s[i]))
  {
    if s == [] || IsOp(s[0]) then 0 else 1 + FindOp(s[1..])
  }

  function SpaceSpan(s: string): (i: nat)
    ensures i <= |s| && (forall k :: 0 <= k < i ==> IsSpace(s[k])) && (i < |s| ==> !IsSpace(s[i]))
  {
    if s == [] || !IsSpace(s[0]) then 0 else 1 + SpaceSpan(s[1..])
  }

  function GapSpan(s: string): (i: nat)
    ensures i <= |s| && (forall k :: 0 <= k < i ==> IsGap(s[k])) && (i < |s| ==> !IsGap(s[i]))
  {
    if s == [] || !IsGap(s[0]) then 0 else 1 + GapSpan(s[1..])
  }

  function CountChar(c: char, s: string): nat {
    if s == [] then 0 else (if s[0] == c then 1 else 0) + CountChar(c, s[1..])
  }

  /** The length of s without its trailing spaces. */
  function SolidEnd(s: string): (n: nat)
    ensures n <= |s| && (forall k :: n <= k < |s| ==> IsSpace(s[k])) && (n > 0 ==> !IsSpace(s[n - 1]))
  {
    if s == [] || !IsSpace(s[|s| - 1]) then |s| else SolidEnd(s[..|s| - 1])
  }

  function Trim(s: string): string {
    var left := s[SpaceSpan(s)..];
    left[..SolidEnd(left)]
  }

  function Spaces(n: nat): (s: string)
    ensures |s| == n && forall k :: 0 <= k < n ==> s[k] == ' '
  {
    if n == 0 then "" else " " + Spaces(n - 1)
  }

  /** What follows the byte at e, which is overwritten to end the string in front of it. */
  function RestAfter(s: string, e: nat): string {
    if e < |s| then s[e + 1..] else ""
  }

  // ----- one unit of a pipeline -----

  /** Words and quoted phrases after the command word; None when the scan runs past the terminator. */
  function CountArgs(s: string): Option<nat>
    decreases |s|
  {
    if s == [] then Some(0)
    else if !IsSpace(s[0]) then CountArgs(s[1..])
    else if |s| == 1 then None
    else if Quote(s[1]) != NUL then
      var j := Find(s[2..], s[1]);
      if j == |s[2..]| then None else AddOne(CountArgs(s[2..][j + 1..]))
    else if !IsSpace(s[1]) then AddOne(CountArgs(s[2..]))
    else CountArgs(s[2..])
  }

  function AddOne(n: Option<nat>): Option<nat> {
    if n == None then None else Some(n.value + 1)
  }

  /** Where the token that starts at index k of s ends: at its closing quote, or at a space. */
  function TokenEnd(q: char, s: string, k: nat): (e: nat)
    requires k < |s| && GapSpan(s) == k
    ensures k < e <= |s|
  {
    var quote := Quote(if k == 0 then q else s[k - 1]);
    k + Find(s[k..], if quote == NUL then ' ' else quote)
  }

  /** The tokens argtok yields; q is the byte in front of s. */
  function Tokens(q: char, s: string): seq<string>
    decreases |s|
  {
    var k := GapSpan(s);
    if k == |s| then []
    else
      var e := TokenEnd(q, s, k);
      [s[k..e]] + Tokens(NUL, RestAfter(s, e))
  }

  /** From after the operator up to the next operator. */
  function Operand(op: char, s: string): string
    requires Find(s, op) < |s|
  {
    var rest := s[Find(s, op) + 1..];
    rest[..FindOp(rest)]
  }

  /** The text with the operator and its operand overwritten by spaces. */
  function BlankedOut(op: char, s: string): string
    requires Find(s, op) < |s|
  {
    var i := Find(s, op);
    var n := FindOp(s[i + 1..]);
    s[..i] + Spaces(n + 1) + s[i + 1 + n..]
  }

  /** The operand of a redirection, and the text with the redirection blanked out. */
  function ParseUnary(op: char, s: string): (Option<string>, string) {
    if Find(s, op) == |s| then (None, s) else (Some(Trim(Operand(op, s))), BlankedOut(op, s))
  }

  datatype Unit = Rejected | Undefined | Unit(argv: seq<string>, infile: Option<string>, outfile: Option<string>)

  /** argv is sized by CountArgs and filled by Tokens; it is well formed only if the two agree. */
  function ParseCommand(q: char, s: string): Option<seq<string>> {
    var argc := CountArgs(Trim(s));
    var toks := Tokens(q, Trim(s));
    if argc == None || |toks| != argc.value + 1 then None else Some(toks)
  }

  function Unary(op: char, s: string): (Option<string>, string) {
    if CountChar(op, s) > 0 then ParseUnary(op, s) else (None, s)
  }

  function ParseUnit(q: char, s: string): Unit {
    if CountChar('<', s) > 1 || CountChar('>', s) > 1 then Rejected
    else if CountChar('\'', s) % 2 != 0 || CountChar('\"', s) % 2 != 0 then Rejected
    else
      var (infile, s1) := Unary('<', s);
      var (outfile, s2) := if CountChar('>', s) > 0 then ParseUnary('>', s1) else (None, s1);
      var argv := ParseCommand(q, s2);
      if argv == None then Undefined else Unit(argv.value, infile, outfile)
  }

  // ----- the whole line -----

  /** tasks holds the argv of each task once it has been filled in; cmd is argv[0]. */
  datatype Parse = Parse(
    tasks: seq<Option<seq<string>>>,
    infile: Option<string>,
    outfile: Option<string>,
    background: bool,
    invalidSyntax: bool)

  datatype Outcome = Empty | Broken | Parsed(parse: Parse)

  /** A redirection is allowed only at its own end of the pipeline and needs a file name. */
  predicate ValidSyntax(p: Parse, u: Unit, i: nat) {
    && u.Unit?
    && (u.infile != None ==> i == 0 && Trim(u.infile.value) != "")
    && (u.outfile != None ==> i + 1 == |p.tasks| && Trim(u.outfile.value) != "")
    && u.argv != [] && u.argv[0] != ""
  }

  function AddUnit(p: Parse, u: Unit, i: nat): Parse
    requires i < |p.tasks|
  {
    if !ValidSyntax(p, u, i) then p.(invalidSyntax := true)
    else p.(tasks := p.tasks[i := Some(u.argv)],
            infile := if u.infile != None then u.infile else p.infile,
            outfile := if u.outfile != None then u.outfile else p.outfile)
  }

  /** strtok_r on '|': where the next token starts and ends; none if it starts at the end. */
  function BarSpan(s: string): (i: nat)
    ensures i <= |s| && (forall k :: 0 <= k < i ==> s[k] == '|') && (i < |s| ==> s[i] != '|')
  {
    if s == [] || s[0] != '|' then 0 else 1 + BarSpan(s[1..])
  }

  /** Where the first unit of s ends. */
  function UnitEnd(s: string): (b: nat)
    requires BarSpan(s) < |s|
    ensures BarSpan(s) < b <= |s|
  {
    BarSpan(s) + Find(s[BarSpan(s)..], '|')
  }

  function FirstUnit(q: char, s: string): Unit
    requires BarSpan(s) < |s|
  {
    ParseUnit(if BarSpan(s) == 0 then q else '|', s[BarSpan(s)..UnitEnd(s)])
  }

  /** The units of a line, each parsed where it stands; q is the byte in front of s. */
  function Units(q: char, s: string): seq<Unit>
    decreases |s|
  {
    if BarSpan(s) == |s| then [] else [FirstUnit(q, s)] + Units(NUL, RestAfter(s, UnitEnd(s)))
  }

  /** The loop over units, which ends early when one is refused. */
  function AddAll(p: Parse, us: seq<Unit>, i: nat): Outcome
    decreases |us|
  {
    if p.invalidSyntax || us == [] then Parsed(p)
    else if us[0] == Undefined || i >= |p.tasks| then Broken
    else AddAll(AddUnit(p, us[0], i), us[1..], i + 1)
  }

  function Background(s: string): (bool, string) {
    var t := Trim(s);
    if t != "" && t[|t| - 1] == '&' then (true, t[..|t| - 1]) else (false, t)
  }

  /** guard is the byte in front of the buffer, which the last test reads when nothing is left of the line. */
  predicate HasTrailingBar(guard: char, s: string) {
    if s == "" then guard == '|' else s[0] == '|' || s[|s| - 1] == '|'
  }

  /** The record before any unit is added: invalid already for a stray ampersand or a bar at either end. */
  function InitialParse(guard: char, s: string): Parse {
    var (background, t) := Background(s);
    if CountChar('&', t) > 0 || HasTrailingBar(guard, Trim(t)) then Parse([], None, None, background, true)
    else Parse(NoTasks(CountChar('|', Trim(t)) + 1), None, None, background, false)
  }

  function ParseCmdline(guard: char, line: string): Outcome {
    if Trim(line) == "" then Empty
    else AddAll(InitialParse(guard, Trim(line)), Units(guard, Trim(Background(Trim(line)).1)), 0)
  }

  function NoTasks(n: nat): (ts: seq<Option<seq<string>>>)
    ensures |ts| == n && forall k :: 0 <= k < n ==> ts[k] == None
  {
    seq(n, _ => None)
  }
}
