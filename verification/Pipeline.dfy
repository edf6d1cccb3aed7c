/**
 The shell's pipeline builder: a loop that makes a pipe, forks a child that redirects and execs, and
 closes what the shell no longer needs. A process is its table of open file descriptors; fork copies
 the table, and open and pipe take the lowest free descriptors.
 */
module Pipeline {

  /** Pipe k connects task k to task k + 1. */
  datatype File = PipeRead(k: nat) | PipeWrite(k: nat) | InFile | OutFile | Other(id: int)

  type Table = map<nat, File>

  const STDIN: nat := 0
  const STDOUT: nat := 1

  function LowestFrom(t: Table, i: nat): (fd: nat)
    ensures fd >= i && fd !in t && forall j :: i <= j < fd ==> j in t
    decreases |set k | k in t && k >= i|
  {
    if i in t then
      assert (set k | k in t && k >= i) == (set k | k in t && k >= i + 1) + {i};
      LowestFrom(t, i + 1)
    else i
  }

  /** What task t of n reads: the infile or the shell's own input, or the pipe before it. */
  function StdinOf(table: Table, infile: bool, t: nat): File
    requires STDIN in table
  {
    if t > 0 then PipeRead(t - 1) else if infile then InFile else table[STDIN]
  }

  function StdoutOf(table: Table, outfile: bool, t: nat, n: nat): File
    requires STDOUT in table
  {
    if t + 1 < n then PipeWrite(t) else if outfile then OutFile else table[STDOUT]
  }

  /** The table task t should exec with: the shell's, with descriptors 0 and 1 replaced. */
  function TaskTable(table: Table, infile: bool, outfile: bool, t: nat, n: nat): Table
    requires STDIN in table && STDOUT in table
  {
    table[STDIN := StdinOf(table, infile, t)][STDOUT := StdoutOf(table, outfile, t, n)]
  }

  ghost predicate NoPipes(table: Table) {
    forall fd :: fd in table ==> !table[fd].PipeRead? && !table[fd].PipeWrite?
  }

  /** The tables the tasks exec with, one per task. */
  ghost predicate ExecsFor(execs: seq<Table>, table: Table, infile: bool, outfile: bool) {
    && STDIN in table && STDOUT in table
    && forall t :: 0 <= t < |execs| ==> execs[t] == TaskTable(table, infile, outfile, t, |execs|)
  }

  /** Where descriptor fd of task t may be an end of a pipe: the stdout of all but the last, the stdin of all but the first. */
  ghost predicate EndInPlace(execs: seq<Table>, t: nat, fd: nat)
    requires t < |execs| && fd in execs[t]
  {
    && (execs[t][fd].PipeWrite? ==> fd == STDOUT && execs[t][fd].k == t && t + 1 < |execs|)
    && (execs[t][fd].PipeRead? ==> fd == STDIN && execs[t][fd].k + 1 == t)
  }

  /** Pipe k joins task k to task k + 1. */
  ghost predicate Joined(execs: seq<Table>, k: nat)
    requires k + 1 < |execs|
  {
    && STDOUT in execs[k] && execs[k][STDOUT] == PipeWrite(k)
    && STDIN in execs[k + 1] && execs[k + 1][STDIN] == PipeRead(k)
  }

  /** Task t starts with the shell's descriptors in all places but its stdin and its stdout. */
  ghost predicate OthersKept(execs: seq<Table>, table: Table, t: nat)
    requires t < |execs|
  {
    && execs[t].Keys == table.Keys
    && forall fd :: fd in table && fd != STDIN && fd != STDOUT ==> execs[t][fd] == table[fd]
  }

  /** The first task reads the infile and the last writes the outfile, or else what the shell does; pipes join the rest. */
  ghost predicate InPlace(execs: seq<Table>, table: Table, infile: bool, outfile: bool) {
    && execs != [] && STDIN in table && STDOUT in table
    && (forall t: nat :: t < |execs| ==> OthersKept(execs, table, t))
    && OthersKept(execs, table, 0) && OthersKept(execs, table, |execs| - 1)
    && execs[0][STDIN] == (if infile then InFile else table[STDIN])
    && execs[|execs| - 1][STDOUT] == (if outfile then OutFile else table[STDOUT])
    && (forall k: nat :: k + 1 < |execs| ==> Joined(execs, k))
  }

  lemma EndsAndPipes(execs: seq<Table>, table: Table, infile: bool, outfile: bool)
    requires execs != [] && ExecsFor(execs, table, infile, outfile)
    ensures InPlace(execs, table, infile, outfile)
  {
  }

  /** Every pipe has exactly one writer and one reader among all descriptors of all tasks: the two it joins. */
  ghost predicate OneEach(execs: seq<Table>) {
    && (forall k: nat :: k + 1 < |execs| ==> Joined(execs, k))
    && (forall t: nat, fd: nat :: t < |execs| && fd in execs[t] ==> EndInPlace(execs, t, fd))
  }

  lemma OneWriterOneReader(execs: seq<Table>, table: Table, infile: bool, outfile: bool)
    requires ExecsFor(execs, table, infile, outfile) && NoPipes(table)
    ensures OneEach(execs)
  {
    forall t: nat, fd: nat | t < |execs| && fd in execs[t] ensures EndInPlace(execs, t, fd) {
      if fd != STDIN && fd != STDOUT {
        assert execs[t][fd] == table[fd];
      }
    }
  }

  /** Descriptor fd holds f on top of table, or is the shell's own standard descriptor std. */
  ghost predicate Holding(files: Table, table: Table, fd: nat, std: nat, f: File) {
    if fd == std then files == table && std in table && table[std] == f
    else fd !in table && files == table[fd := f]
  }

  class Process {
    var files: Table

    constructor (files: Table)
      ensures this.files == files
    {
      this.files := files;
    }

    /** fork(): the child gets a copy of the table. */
    method Fork() returns (child: Process)
      ensures fresh(child) && child.files == files
    {
      child := new Process(files);
    }

    /** open() and creat(). */
    method Open(f: File) returns (fd: nat)
      modifies this
      ensures fd !in old(files) && (forall j :: 0 <= j < fd ==> j in old(files)) && files == old(files)[fd := f]
    {
      fd := LowestFrom(files, 0);
      files := files[fd := f];
    }

    method Pipe(k: nat) returns (r: nat, w: nat)
      modifies this
      ensures r !in old(files) && w !in old(files) && r != w
      ensures files == old(files)[r := PipeRead(k)][w := PipeWrite(k)]
    {
      r := Open(PipeRead(k));
      w := Open(PipeWrite(k));
    }

    method Close(fd: nat)
      modifies this
      ensures files == old(files) - {fd}
    {
      files := files - {fd};
    }

    method Dup2(from: nat, to: nat)
      requires from in files
      modifies this
      ensures files == old(files)[to := old(files)[from]]
    {
      files := files[to := files[from]];
    }

    /** Make descriptor fdOld refer to fdNew's file and drop fdNew. */
    method Redirect(fdOld: nat, fdNew: nat)
      requires fdNew in files
      modifies this
      ensures files == if fdNew == fdOld then old(files) else old(files)[fdOld := old(files)[fdNew]] - {fdNew}
    {
      if fdNew != fdOld {
        Dup2(fdNew, fdOld);
        Close(fdNew);
      }
    }

    method CloseSafe(fd: nat)
      modifies this
      ensures files == if fd == STDIN || fd == STDOUT then old(files) else old(files) - {fd}
    {
      if fd != STDIN && fd != STDOUT {
        Close(fd);
      }
    }

    /** run(): redirect and exec; the result is the table the program starts with. */
    method Run(input: nat, output: nat, ghost table: Table, ghost fin: File, ghost fout: File) returns (exec: Table)
      requires STDIN in table && STDOUT in table
      requires input != STDOUT && output != STDIN && input != output
      requires if input == STDIN then table[STDIN] == fin else input !in table
      requires if output == STDOUT then table[STDOUT] == fout else output !in table
      requires files == table[input := fin][output := fout]
      modifies this
      ensures exec == table[STDIN := fin][STDOUT := fout]
    {
      Redirect(STDIN, input);
      assert files == table[STDIN := fin][output := fout];
      Redirect(STDOUT, output);
      exec := files;
    }

    /** Task t of the loop: pipe, fork, run in the child, and hand the read end on. */
    method StartTask(t: nat, input: nat, ghost table: Table, ghost fin: File) returns (exec: Table, next: nat)
      requires STDIN in table && STDOUT in table && input != STDOUT
      requires Holding(files, table, input, STDIN, fin)
      modifies this
      ensures exec == table[STDIN := fin][STDOUT := PipeWrite(t)]
      ensures next != STDIN && Holding(files, table, next, STDIN, PipeRead(t))
    {
      var r, w := Pipe(t);
      var child := Fork();
      child.Close(r);
      assert child.files == table[input := fin][w := PipeWrite(t)];
      exec := child.Run(input, w, table, fin, PipeWrite(t));
      Close(w);
      CloseSafe(input);
      next := r;
      assert files == table[r := PipeRead(t)];
    }

    /** execute_tasks(), for n >= 1 tasks; execs lists the tables the tasks start with. */
    method ExecuteTasks(n: nat, infile: bool, outfile: bool) returns (execs: seq<Table>)
      requires n >= 1 && STDIN in files && STDOUT in files
      modifies this
      ensures files == old(files)
      ensures |execs| == n && ExecsFor(execs, old(files), infile, outfile)
      ensures InPlace(execs, old(files), infile, outfile)
      ensures NoPipes(old(files)) ==> OneEach(execs)
    {
      ghost var table := files;
      execs := [];
      var input := STDIN;
      if infile {
        input := Open(InFile);
      }
      for t := 0 to n - 1
        invariant input != STDOUT && Holding(files, table, input, STDIN, StdinOf(table, infile, t))
        invariant |execs| == t
        invariant forall j :: 0 <= j < t ==> execs[j] == TaskTable(table, infile, outfile, j, n)
      {
        var exec, next := StartTask(t, input, table, StdinOf(table, infile, t));
        execs, input := execs + [exec], next;
      }
      var last := StartLast(input, outfile, table, StdinOf(table, infile, n - 1));
      execs := execs + [last];
      EndsAndPipes(execs, table, infile, outfile);
      if NoPipes(table) {
        OneWriterOneReader(execs, table, infile, outfile);
      }
    }

    /** The task after the loop: it writes to the outfile or the shell's own output. */
    method StartLast(input: nat, outfile: bool, ghost table: Table, ghost fin: File) returns (exec: Table)
      requires STDIN in table && STDOUT in table && input != STDOUT
      requires Holding(files, table, input, STDIN, fin)
      modifies this
      ensures exec == table[STDIN := fin][STDOUT := if outfile then OutFile else table[STDOUT]]
      ensures files == table
    {
      var output := STDOUT;
      if outfile {
        output := Open(OutFile);
      }
      ghost var fout := if outfile then OutFile else table[STDOUT];
      assert files == table[input := fin][output := fout];
      var child := Fork();
      exec := child.Run(input, output, table, fin, fout);
      CloseSafe(input);
      CloseSafe(output);
    }
  }
}
