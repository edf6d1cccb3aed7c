/**
 The System V shared-memory transfer: a writer copies its input, in chunks of whatever size read()
 returns, into a shared segment; a reader copies the segment to its output. Two semaphores pass the
 turn back and forth, and the writer removes both IPC objects at the end.
 */
module SharedMemory {

  datatype WriterPC =
    | Reserve | Read | Release         // reserveSem(WRITE_SEM); read(); releaseSem(READ_SEM)
    | TestEof | Account                // outside the turn: count == 0?; xfrs++, nbytes += count
    | FinalReserve | RemoveSem | Detach | RemoveShm
    | WriterExit

  datatype ReaderPC =
    | Attach
    | Await | TestCount | AddBytes | Write | GiveTurn
    | Leave | FinalRelease
    | ReaderExit

  datatype State = State(
    writeSem: int,
    readSem: int,
    semAlive: bool,
    shmAlive: bool,
    attached: bool,       // the reader has the segment mapped
    mapped: bool,         // the writer has
    count: int,           // shmp->count
    buf: seq<int>,        // the first count bytes of shmp->buf
    w: WriterPC,
    r: ReaderPC,
    pos: int,             // bytes the writer has read so far
    wBytes: int, wXfrs: int,
    rBytes: int, rXfrs: int,
    chunks: int,          // non-empty reads so far
    input: seq<int>,
    out: seq<int>,
    bufSize: int)         // BUF_SIZE

  /** A writer step says how many bytes read() returns, if it is at a read. */
  datatype Event = Writer(n: nat) | Reader

  ghost predicate Init(s: State) {
    && s.writeSem == 1 && s.readSem == 0 && s.semAlive && s.shmAlive && !s.attached && s.mapped
    && s.count == 0 && s.buf == [] && s.w == Reserve && s.r == Attach
    && s.pos == 0 && s.wBytes == 0 && s.wXfrs == 0 && s.rBytes == 0 && s.rXfrs == 0 && s.chunks == 0 && s.out == []
    && s.bufSize >= 1
  }

  /** read() returns 0 at the end of the input, and otherwise between 1 and bufSize of the bytes left. */
  predicate ReadReturns(s: State, n: nat) {
    && 0 <= s.pos && s.pos + n <= |s.input| && n <= s.bufSize
    && (n == 0 <==> s.pos == |s.input|)
  }

  predicate Enabled(s: State, e: Event) {
    match e
    case Writer(n) =>
      (match s.w
       case Reserve | FinalReserve => s.writeSem > 0
       case Read => ReadReturns(s, n)
       case WriterExit => false
       case _ => true)
    case Reader =>
      match s.r
      case Await => s.readSem > 0
      case ReaderExit => false
      case _ => true
  }

  function Next(s: State, e: Event): State
    requires Enabled(s, e)
  {
    match e
    case Writer(n) => NextWriter(s, n)
    case Reader => NextReader(s)
  }

  function NextWriter(s: State, n: nat): State
    requires Enabled(s, Writer(n))
  {
    match s.w
    case Reserve => s.(w := Read, writeSem := s.writeSem - 1)
    case Read => s.(w := Release, count := n, buf := s.input[s.pos..s.pos + n], pos := s.pos + n,
                    chunks := s.chunks + if n > 0 then 1 else 0)
    case Release => s.(w := TestEof, readSem := s.readSem + 1)
    case TestEof => s.(w := if s.count == 0 then FinalReserve else Account)
    case Account => s.(w := Reserve, wXfrs := s.wXfrs + 1, wBytes := s.wBytes + s.count)
    case FinalReserve => s.(w := RemoveSem, writeSem := s.writeSem - 1)
    case RemoveSem => s.(w := Detach, semAlive := false)
    case Detach => s.(w := RemoveShm, mapped := false)
    case RemoveShm => s.(w := WriterExit, shmAlive := false)
  }

  function NextReader(s: State): State
    requires Enabled(s, Reader)
  {
    match s.r
    case Attach => s.(r := Await, attached := true)
    case Await => s.(r := TestCount, readSem := s.readSem - 1)
    case TestCount => s.(r := if s.count == 0 then Leave else AddBytes)
    case AddBytes => s.(r := Write, rBytes := s.rBytes + s.count)
    case Write => s.(r := GiveTurn, out := s.out + s.buf)
    case GiveTurn => s.(r := Await, writeSem := s.writeSem + 1, rXfrs := s.rXfrs + 1)
    case Leave => s.(r := FinalRelease, attached := false)
    case FinalRelease => s.(r := ReaderExit, writeSem := s.writeSem + 1)
  }

  ghost predicate Leads(s: State, es: seq<Event>, t: State)
    decreases |es|
  {
    if es == [] then s == t else Enabled(s, es[0]) && Leads(Next(s, es[0]), es[1..], t)
  }

  // ----- the invariant -----

  predicate Over(w: WriterPC) {
    w.FinalReserve? || Cleaning(w)
  }

  predicate Cleaning(w: WriterPC) {
    w.RemoveSem? || w.Detach? || w.RemoveShm? || w.WriterExit?
  }

  predicate WriterTurn(w: WriterPC) {
    w.Read? || w.Release? || Cleaning(w)
  }

  predicate ReaderTurn(r: ReaderPC) {
    r.TestCount? || r.AddBytes? || r.Write? || r.GiveTurn? || r.Leave? || r.FinalRelease?
  }

  predicate ReaderLeaving(r: ReaderPC) {
    r.Leave? || r.FinalRelease? || r.ReaderExit?
  }

  /** The chunk in the segment has not reached the output. */
  predicate InTransit(s: State) {
    s.w.Release? || s.readSem == 1 || s.r.TestCount? || s.r.AddBytes? || s.r.Write?
  }

  /** Exactly one of: either semaphore is up, the writer has the turn, the reader has the turn. */
  ghost predicate TurnInv(s: State) {
    && s.writeSem >= 0 && s.readSem >= 0
    && s.writeSem + s.readSem + (if WriterTurn(s.w) then 1 else 0) + (if ReaderTurn(s.r) then 1 else 0) == 1
  }

  ghost predicate DataInv(s: State) {
    && s.bufSize >= 1 && 0 <= s.pos <= |s.input| && |s.buf| == s.count
    && s.out + (if InTransit(s) then s.buf else []) == s.input[..s.pos]
  }

  /** An empty chunk means the end of the input, and only then do the two sides stop. */
  ghost predicate EofInv(s: State) {
    && (InTransit(s) && s.count == 0 ==> s.pos == |s.input| && (s.w.Release? || s.w.TestEof? || s.w.FinalReserve?))
    && (s.w.TestEof? && s.count == 0 ==> s.pos == |s.input|)
    && (s.w.Account? ==> s.count > 0)
    && (s.r.AddBytes? || s.r.Write? ==> s.count > 0)
    && (s.r.GiveTurn? ==> s.count > 0 && !Over(s.w))
    && (Over(s.w) || ReaderLeaving(s.r) ==> s.count == 0 && s.pos == |s.input|)
    && (ReaderLeaving(s.r) ==> s.readSem == 0 && (s.w.TestEof? || Over(s.w)))
    && (s.w.FinalReserve? || (s.w.TestEof? && s.count == 0) ==> InTransit(s) || ReaderLeaving(s.r))
  }

  ghost predicate CountInv(s: State) {
    && s.wBytes == s.pos - (if s.w.Release? || s.w.TestEof? || s.w.Account? then s.count else 0)
    && s.wXfrs == s.chunks - (if (s.w.Release? || s.w.TestEof? || s.w.Account?) && s.count > 0 then 1 else 0)
    && s.rBytes == |s.out| + (if s.r.Write? then s.count else 0)
    && s.rXfrs == s.chunks - (if s.r.GiveTurn? || (InTransit(s) && s.count > 0) then 1 else 0)
  }

  ghost predicate IpcInv(s: State) {
    && (Cleaning(s.w) ==> s.r == ReaderExit)
    && (s.semAlive <==> !Cleaning(s.w) || s.w.RemoveSem?)
    && (s.shmAlive <==> s.w != WriterExit)
    && (s.mapped <==> !s.w.RemoveShm? && !s.w.WriterExit?)
    && (s.attached <==> s.r != Attach && s.r != FinalRelease && s.r != ReaderExit)
    && (s.w.FinalReserve? && s.writeSem == 1 ==> s.r == ReaderExit)
  }

  ghost predicate Inv(s: State) {
    TurnInv(s) && DataInv(s) && EofInv(s) && CountInv(s) && IpcInv(s)
  }

  lemma TakeMore(xs: seq<int>, k: nat, n: nat)
    requires k + n <= |xs|
    ensures xs[..k + n] == xs[..k] + xs[k..k + n]
  {
  }

  lemma WriterData(s: State, n: nat)
    requires Inv(s) && Enabled(s, Writer(n))
    ensures DataInv(NextWriter(s, n)) && NextWriter(s, n).input == s.input
  {
    if s.w == Read {
      TakeMore(s.input, s.pos, n);
    }
  }

  lemma WriterCounts(s: State, n: nat)
    requires Inv(s) && Enabled(s, Writer(n))
    ensures TurnInv(NextWriter(s, n)) && CountInv(NextWriter(s, n))
  {
  }

  lemma WriterStep(s: State, n: nat)
    requires Inv(s) && Enabled(s, Writer(n))
    ensures EofInv(NextWriter(s, n)) && IpcInv(NextWriter(s, n))
  {
  }

  lemma ReaderData(s: State)
    requires Inv(s) && Enabled(s, Reader)
    ensures DataInv(NextReader(s)) && NextReader(s).input == s.input
  {
  }

  lemma ReaderStep(s: State)
    requires Inv(s) && Enabled(s, Reader)
    ensures var t := NextReader(s); TurnInv(t) && EofInv(t) && CountInv(t) && IpcInv(t)
  {
  }

  lemma StepInv(s: State, e: Event)
    requires Inv(s) && Enabled(s, e)
    ensures Inv(Next(s, e)) && Next(s, e).input == s.input
  {
    hide NextWriter, NextReader, DataInv, TurnInv, CountInv, EofInv, IpcInv;
    match e
    case Writer(n) => WriterData(s, n); WriterCounts(s, n); WriterStep(s, n);
    case Reader => ReaderData(s); ReaderStep(s);
  }

  lemma {:induction false} LeadsInv(s: State, es: seq<Event>, t: State)
    requires Inv(s) && Leads(s, es, t)
    ensures Inv(t) && t.input == s.input
    decreases |es|
  {
    if es != [] {
      StepInv(s, es[0]);
      LeadsInv(Next(s, es[0]), es[1..], t);
    }
  }

  // ----- what every run satisfies -----

  lemma InitInv(s: State)
    requires Init(s)
    ensures Inv(s)
  {
  }

  /** The reader's output is always a prefix of the writer's input, and the turn is always in exactly one place. */
  lemma OutputIsPrefix(s: State, es: seq<Event>, t: State)
    requires Init(s) && Leads(s, es, t)
    ensures t.out <= s.input
    ensures t.writeSem + t.readSem + (if WriterTurn(t.w) then 1 else 0) + (if ReaderTurn(t.r) then 1 else 0) == 1
  {
    LeadsInv(s, es, t);
    assert t.out == (t.out + if InTransit(t) then t.buf else [])[..|t.out|];
  }

  /** When the reader is gone it has written the whole input; once both are gone their byte and transfer counts agree. */
  lemma TransferComplete(s: State, es: seq<Event>, t: State)
    requires Init(s) && Leads(s, es, t) && t.r == ReaderExit
    ensures t.out == s.input && t.rBytes == |s.input| && t.rXfrs == t.chunks
    ensures t.w == WriterExit ==> t.wBytes == t.rBytes && t.wXfrs == t.rXfrs
  {
    LeadsInv(s, es, t);
    assert s.input[..|s.input|] == s.input;
  }

  /** The IPC objects go away only after the reader has detached and used the semaphores for the last time. */
  lemma RemovedAfterDetach(s: State, es: seq<Event>, t: State)
    requires Init(s) && Leads(s, es, t)
    ensures !t.semAlive || !t.shmAlive ==> !t.attached && t.r == ReaderExit
    ensures t.r != ReaderExit ==> t.semAlive && t.shmAlive
  {
    LeadsInv(s, es, t);
  }

  predicate UsesSemaphores(w: WriterPC, r: ReaderPC) {
    w.Reserve? || w.Release? || w.FinalReserve? || w.RemoveSem? || r.Await? || r.GiveTurn? || r.FinalRelease?
  }

  /** Whoever is about to touch the segment has it mapped, and nobody touches an object that has been removed. */
  lemma ThereWhenUsed(s: State, es: seq<Event>, t: State)
    requires Init(s) && Leads(s, es, t)
    ensures t.w.Read? || t.w.TestEof? || t.w.Account? || t.w.Detach? ==> t.mapped && t.shmAlive
    ensures t.r.TestCount? || t.r.AddBytes? || t.r.Write? || t.r.Leave? ==> t.attached && t.shmAlive
    ensures UsesSemaphores(t.w, t.r) ==> t.semAlive
  {
    LeadsInv(s, es, t);
  }

  /** A writer that has ended has removed the semaphores and the segment, which nobody has mapped. */
  lemma NothingLeftBehind(s: State, es: seq<Event>, t: State)
    requires Init(s) && Leads(s, es, t) && t.w == WriterExit
    ensures !t.semAlive && !t.shmAlive && !t.mapped && !t.attached
  {
    LeadsInv(s, es, t);
  }

  ghost predicate CanMove(s: State) {
    exists e :: Enabled(s, e)
  }

  lemma InvCanMove(s: State)
    requires Inv(s) && !(s.w == WriterExit && s.r == ReaderExit)
    ensures CanMove(s)
  {
    var left := |s.input| - s.pos;
    var n: nat := if left < s.bufSize then left else s.bufSize;
    assert Enabled(s, Reader) || Enabled(s, Writer(n));
  }

  // ----- every run ends -----

  function WriterRank(w: WriterPC): int {
    match w
    case Release => 20
    case TestEof => 13
    case Account => 12
    case Reserve => 11
    case Read => 10
    case FinalReserve => 9
    case RemoveSem => 3
    case Detach => 2
    case RemoveShm => 1
    case WriterExit => 0
  }

  function ReaderRank(r: ReaderPC): int {
    match r
    case TestCount => 6
    case AddBytes => 5
    case Write => 4
    case GiveTurn => 3
    case Attach => 3
    case Await => 2
    case Leave => 2
    case FinalRelease => 1
    case ReaderExit => 0
  }

  predicate EofRead(s: State) {
    Over(s.w) || ((s.w.Release? || s.w.TestEof?) && s.count == 0)
  }

  function Rank(s: State): int {
    20 * (|s.input| - s.pos) + (if EofRead(s) then 0 else 20) + 5 * s.readSem + WriterRank(s.w) + ReaderRank(s.r)
  }

  lemma StepRank(s: State, e: Event)
    requires Inv(s) && Enabled(s, e)
    ensures Rank(Next(s, e)) < Rank(s)
  {
  }

  lemma {:induction false} RunLength(s: State, es: seq<Event>, t: State)
    requires Inv(s) && Leads(s, es, t)
    ensures |es| <= Rank(s) - Rank(t) && 0 <= Rank(t)
    decreases |es|
  {
    if es != [] {
      StepInv(s, es[0]);
      StepRank(s, es[0]);
      RunLength(Next(s, es[0]), es[1..], t);
    }
  }

  /**
   Whatever sizes read() returns, a run takes at most 20 steps per input byte and 34 more, and a run
   that cannot go on has ended on both sides with the input copied and nothing left behind.
   */
  lemma EveryRunCompletes(s: State, es: seq<Event>, t: State)
    requires Init(s) && Leads(s, es, t)
    ensures |es| <= 20 * |s.input| + 34
    ensures !CanMove(t) ==> t.w == WriterExit && t.r == ReaderExit && t.out == s.input
    ensures !CanMove(t) ==> !t.semAlive && !t.shmAlive && !t.mapped && !t.attached
  {
    LeadsInv(s, es, t);
    RunLength(s, es, t);
    if !CanMove(t) {
      if !(t.w == WriterExit && t.r == ReaderExit) {
        InvCanMove(t);
      }
      TransferComplete(s, es, t);
      NothingLeftBehind(s, es, t);
    }
  }

  lemma {:induction false} LeadsAppend(s: State, es: seq<Event>, t: State, e: Event)
    requires Leads(s, es, t) && Enabled(t, e)
    ensures Leads(s, es + [e], Next(t, e))
    decreases |es|
  {
    if es == [] {
      assert (es + [e])[1..] == [];
    } else {
      assert (es + [e])[1..] == es[1..] + [e];
      LeadsAppend(Next(s, es[0]), es[1..], t, e);
    }
  }

  // ----- the segment and the two processes, updated in place -----

  class Transfer {
    const input: seq<int>
    const buf: array<int>
    var count: nat
    var writeSem: int
    var readSem: int
    var semAlive: bool
    var shmAlive: bool
    var attached: bool
    var mapped: bool
    var w: WriterPC
    var r: ReaderPC
    var pos: nat
    var wBytes: int
    var wXfrs: int
    var rBytes: int
    var rXfrs: int
    var out: seq<int>
    var chunks: int

    ghost predicate Valid()
      reads this
    {
      count <= buf.Length && pos <= |input|
    }

    function Snapshot(): State
      reads this, buf
      requires Valid()
    {
      State(writeSem, readSem, semAlive, shmAlive, attached, mapped, count, buf[..count], w, r, pos,
            wBytes, wXfrs, rBytes, rXfrs, chunks, input, out, buf.Length)
    }

    constructor (input: seq<int>, bufSize: nat)
      requires bufSize >= 1
      ensures Valid() && Init(Snapshot()) && Snapshot().input == input && Snapshot().bufSize == bufSize && fresh(buf)
    {
      this.input := input;
      buf := new int[bufSize];
      count, writeSem, readSem, semAlive, shmAlive, attached, mapped := 0, 1, 0, true, true, false, true;
      w, r, pos, wBytes, wXfrs, rBytes, rXfrs, chunks, out := Reserve, Attach, 0, 0, 0, 0, 0, 0, [];
    }

    /** read(STDIN_FILENO, shmp->buf, BUF_SIZE) returning n bytes. */
    method ReadChunk(n: nat)
      requires Valid() && pos + n <= |input| && n <= buf.Length
      modifies this`pos, this`count, buf
      ensures Valid() && count == n && pos == old(pos) + n && buf[..n] == input[old(pos)..old(pos) + n]
    {
      for k := 0 to n
        invariant pos == old(pos) && count == old(count)
        invariant buf[..k] == input[pos..pos + k]
      {
        buf[k] := input[pos + k];
      }
      count, pos := n, pos + n;
    }

    /** The writer's turn: a chunk of the input goes into the segment. */
    method FillSegment(n: nat)
      requires Valid() && w == Read && Enabled(Snapshot(), Writer(n))
      modifies this`w, this`pos, this`count, this`chunks, buf
      ensures Valid() && Snapshot() == NextWriter(old(Snapshot()), n)
    {
      ReadChunk(n);
      w, chunks := Release, chunks + if n > 0 then 1 else 0;
    }

    /** The writer after the last chunk: wait for the reader, and remove what was created. */
    method CleanUp()
      requires Valid() && (w.FinalReserve? || Cleaning(w)) && Enabled(Snapshot(), Writer(0))
      modifies this`writeSem, this`semAlive, this`mapped, this`shmAlive, this`w
      ensures Valid() && Snapshot() == NextWriter(old(Snapshot()), 0)
    {
      match w {
        case FinalReserve => writeSem, w := writeSem - 1, RemoveSem;
        case RemoveSem => semAlive, w := false, Detach;
        case Detach => mapped, w := false, RemoveShm;
        case RemoveShm => shmAlive, w := false, WriterExit;
      }
    }

    method StepWriter(n: nat)
      requires Valid() && Enabled(Snapshot(), Writer(n))
      modifies this, buf
      ensures Valid() && Snapshot() == NextWriter(old(Snapshot()), n)
    {
      if w.FinalReserve? || Cleaning(w) {
        CleanUp();
        return;
      }
      match w {
        case Reserve => writeSem, w := writeSem - 1, Read;
        case Read => FillSegment(n);
        case Release => readSem, w := readSem + 1, TestEof;
        case TestEof => w := if count == 0 then FinalReserve else Account;
        case Account => wXfrs, wBytes, w := wXfrs + 1, wBytes + count, Reserve;
      }
    }

    /** The reader at the chunk in the segment. */
    method Drain()
      requires Valid() && (r.TestCount? || r.AddBytes? || r.Write?)
      modifies this`r, this`rBytes, this`out
      ensures Valid() && Snapshot() == NextReader(old(Snapshot()))
    {
      match r {
        case TestCount => r := if count == 0 then Leave else AddBytes;
        case AddBytes => rBytes, r := rBytes + count, Write;
        case Write => out, r := out + buf[..count], GiveTurn;
      }
    }

    method StepReader()
      requires Valid() && Enabled(Snapshot(), Reader)
      modifies this
      ensures Valid() && Snapshot() == NextReader(old(Snapshot()))
    {
      if r.TestCount? || r.AddBytes? || r.Write? {
        Drain();
        return;
      }
      match r {
        case Attach => attached, r := true, Await;
        case Await => readSem, r := readSem - 1, TestCount;
        case GiveTurn => writeSem, rXfrs, r := writeSem + 1, rXfrs + 1, Await;
        case Leave => attached, r := false, FinalRelease;
        case FinalRelease => writeSem, r := writeSem + 1, ReaderExit;
      }
    }

    /** Run both processes under any schedule and any sizes of reads; an event that cannot happen is passed over. */
    method Run(schedule: seq<Event>) returns (ghost es: seq<Event>)
      requires Valid() && Init(Snapshot())
      modifies this, buf
      ensures Valid() && Leads(old(Snapshot()), es, Snapshot())
      ensures Inv(Snapshot()) && out <= input
    {
      hide NextWriter, NextReader, Inv;
      es := [];
      for k := 0 to |schedule|
        invariant Valid() && Leads(old(Snapshot()), es, Snapshot())
      {
        if Enabled(Snapshot(), schedule[k]) {
          LeadsAppend(old(Snapshot()), es, Snapshot(), schedule[k]);
          match schedule[k] {
            case Writer(n) => StepWriter(n);
            case Reader => StepReader();
          }
          es := es + [schedule[k]];
        }
      }
      InitInv(old(Snapshot()));
      LeadsInv(old(Snapshot()), es, Snapshot());
      OutputIsPrefix(old(Snapshot()), es, Snapshot());
    }
  }
}
