/** Command lines as structures, and how they are printed in the grammar the parser documents. */
module Grammar {
  import opened ParseSpec

  /** An argument is a bare word or a phrase between a pair of quotes. */
  datatype Arg = Word(text: string) | Phrase(quote: char, text: string)

  datatype Command = Command(name: string, args: seq<Arg>)

  /** A command with the redirections written after it. */
  datatype Stage = Stage(command: Command, infile: Option<string>, outfile: Option<string>)

  datatype Line = Line(stages: seq<Stage>, background: bool)

  /** Characters with no meaning to the parser, spaces included. */
  predicate Clean(c: char) {
    c != NUL && !IsOp(c) && c != '&' && Quote(c) == NUL
  }

  predicate CleanText(s: string) {
    forall k :: 0 <= k < |s| ==> Clean(s[k])
  }

  predicate ValidWord(s: string) {
    s != "" && CleanText(s) && forall k :: 0 <= k < |s| ==> !IsSpace(s[k])
  }

  /** Starts and ends with something other than a space. */
  predicate Solid(s: string) {
    s != "" && !IsSpace(s[0]) && !IsSpace(s[|s| - 1])
  }

  /** Arguments that can be printed at all. */
  predicate WellFormedArg(a: Arg) {
    match a
    case Word(text) => ValidWord(text)
    case Phrase(quote, text) => (quote == '\"' || quote == '\'') && CleanText(text)
  }

  /** Arguments that can be told from their print: argtok() skips spaces behind an opening quote too. */
  predicate ValidArg(a: Arg) {
    WellFormedArg(a) && (a.Phrase? ==> a.text != "" && a.text[0] != ' ')
  }

  predicate WellFormedCommand(c: Command) {
    ValidWord(c.name) && forall k :: 0 <= k < |c.args| ==> WellFormedArg(c.args[k])
  }

  predicate ValidCommand(c: Command) {
    ValidWord(c.name) && forall k :: 0 <= k < |c.args| ==> ValidArg(c.args[k])
  }

  predicate WellFormedFile(f: Option<string>) {
    f != None ==> CleanText(f.value)
  }

  predicate ValidFile(f: Option<string>) {
    f != None ==> Solid(f.value) && CleanText(f.value)
  }

  predicate WellFormedStage(g: Stage) {
    WellFormedCommand(g.command) && WellFormedFile(g.infile) && WellFormedFile(g.outfile)
  }

  predicate ValidStage(g: Stage) {
    ValidCommand(g.command) && ValidFile(g.infile) && ValidFile(g.outfile)
  }

  predicate WellFormedLine(l: Line) {
    l.stages != [] && forall k :: 0 <= k < |l.stages| ==> WellFormedStage(l.stages[k])
  }

  predicate ValidLine(l: Line) {
    l.stages != [] && forall k :: 0 <= k < |l.stages| ==> ValidStage(l.stages[k])
  }

  /** The grammar has an input redirection after the first command and an output redirection after the last. */
  predicate PlacedAt(l: Line, i: nat)
    requires i < |l.stages|
  {
    (l.stages[i].infile != None ==> i == 0) && (l.stages[i].outfile != None ==> i + 1 == |l.stages|)
  }

  predicate Placed(l: Line) {
    forall k :: 0 <= k < |l.stages| ==> PlacedAt(l, k)
  }

  /** The lines that can be told from their print. */
  type Printable = l: Line | ValidLine(l) witness Line([Stage(Command("a", []), None, None)], false)

  // ----- printing -----

  function ShowArg(a: Arg): string {
    match a
    case Word(text) => text
    case Phrase(quote, text) => [quote] + text + [quote]
  }

  function ShowArgs(args: seq<Arg>): string {
    if args == [] then "" else " " + ShowArg(args[0]) + ShowArgs(args[1..])
  }

  function ShowCommand(c: Command): string {
    c.name + ShowArgs(c.args)
  }

  function ShowRedirection(op: char, f: Option<string>): string {
    if f == None then "" else [' ', op, ' '] + f.value
  }

  /** Command i with its redirections and its share of the spaces around the bars. */
  function ShowUnit(l: Line, i: nat): string
    requires i < |l.stages|
  {
    (if i == 0 then "" else " ") + ShowCommand(l.stages[i].command)
    + (ShowRedirection('<', l.stages[i].infile) + ShowRedirection('>', l.stages[i].outfile)
       + (if i + 1 == |l.stages| then "" else " "))
  }

  function ShowFrom(l: Line, i: nat): string
    requires i < |l.stages|
    decreases |l.stages| - i
  {
    ShowUnit(l, i) + if i + 1 == |l.stages| then "" else "|" + ShowFrom(l, i + 1)
  }

  /** command_1 [< infile] [| command_n]* [> outfile] [&], with single spaces, if l is Placed. */
  function Show(l: Line): string
    requires l.stages != []
  {
    ShowFrom(l, 0) + if l.background then " &" else ""
  }

  // ----- the structure a line should parse to -----

  function Texts(args: seq<Arg>): seq<string> {
    if args == [] then [] else [args[0].text] + Texts(args[1..])
  }

  function Argv(c: Command): seq<string> {
    [c.name] + Texts(c.args)
  }

  function Argvs(l: Line, n: nat): (ts: seq<Option<seq<string>>>)
    requires n <= |l.stages|
    ensures |ts| == |l.stages|
    ensures forall k :: 0 <= k < |ts| ==> ts[k] == if k < n then Some(Argv(l.stages[k].command)) else None
  {
    seq(|l.stages|, k requires 0 <= k < |l.stages| => if k < n then Some(Argv(l.stages[k].command)) else None)
  }

  function Structure(l: Line): Parse
    requires l.stages != []
  {
    Parse(Argvs(l, |l.stages|), l.stages[0].infile, l.stages[|l.stages| - 1].outfile, l.background, false)
  }
}
