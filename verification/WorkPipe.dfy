/**
 Many producers, one consumer: each producer writes its number into a non-blocking pipe and signals
 after unlocking; the consumer waits for work, drains it, and stops once it takes a unit with no
 producer left. cap is how many units the pipe holds; a producer that finds it full gives up.
 A blocked consumer may also wake by itself.
 */
module WorkPipe {
  import opened SeqMath

  const FREE := -1

  datatype ProducerPC =
    | Lock | Write | CountAvail | CountProducers | Unlock | Signal | Exit

  datatype ConsumerPC =
    | Outer | Acquire | TestAvail | Wait | Blocked | Relock
    | Inner | ReadUnit | CheckProducers | Release | Finish

  datatype State = State(
    avail: int,
    producers: int,
    pipe: seq<int>,
    owner: int,               // mtx: producer i, or |prod| for the consumer
    prod: seq<ProducerPC>,
    con: ConsumerPC,
    unit: int,                // work_unit: what the consumer last read
    sum: int,
    finished: bool,
    cap: int,
    written: seq<int>)        // every unit the pipe has accepted, in order

  datatype Event = Producer(i: nat) | Consumer | Wake

  ghost predicate Init(s: State) {
    && s.avail == 0 && s.producers == |s.prod| && s.pipe == [] && s.owner == FREE
    && (forall i :: 0 <= i < |s.prod| ==> s.prod[i] == Lock)
    && s.con == Outer && s.sum == 0 && !s.finished && s.cap >= 0 && s.written == []
  }

  predicate Enabled(s: State, e: Event) {
    match e
    case Producer(i) => i < |s.prod| && (s.prod[i] == Lock ==> s.owner == FREE) && s.prod[i] != Exit
    case Consumer =>
      (match s.con
       case Acquire | Relock => s.owner == FREE
       case Blocked | Finish => false
       case _ => true)
    case Wake => s.con == Blocked
  }

  function Next(s: State, e: Event): State
    requires Enabled(s, e)
  {
    match e
    case Producer(i) => NextProducer(s, i)
    case Consumer => NextConsumer(s)
    case Wake => s.(con := Relock)
  }

  function NextProducer(s: State, i: nat): State
    requires Enabled(s, Producer(i))
  {
    match s.prod[i]
    case Lock => s.(prod := s.prod[i := Write], owner := i)
    case Write =>
      if |s.pipe| < s.cap then s.(prod := s.prod[i := CountAvail], pipe := s.pipe + [i], written := s.written + [i])
      else s.(prod := s.prod[i := Unlock])
    case CountAvail => s.(prod := s.prod[i := CountProducers], avail := s.avail + 1)
    case CountProducers => s.(prod := s.prod[i := Unlock], producers := s.producers - 1)
    case Unlock => s.(prod := s.prod[i := Signal], owner := FREE)
    case Signal => s.(prod := s.prod[i := Exit], con := if s.con == Blocked then Relock else s.con)
  }

  function NextConsumer(s: State): State
    requires Enabled(s, Consumer)
  {
    match s.con
    case Outer => s.(con := if s.finished then Finish else Acquire)
    case Acquire | Relock => s.(con := TestAvail, owner := |s.prod|)
    case TestAvail => s.(con := if s.avail == 0 then Wait else Inner)
    case Wait => s.(con := Blocked, owner := FREE)
    case Inner => s.(con := if s.avail > 0 then ReadUnit else Release)
    case ReadUnit =>
      // a failed read gives -1, which the unsigned ret turns into a success: the old unit counts again
      var unit := if s.pipe == [] then s.unit else s.pipe[0];
      s.(con := CheckProducers, pipe := if s.pipe == [] then [] else s.pipe[1..], unit := unit, sum := s.sum + unit, avail := s.avail - 1)
    case CheckProducers => s.(con := Inner, finished := s.finished || s.producers == 0)
    case Release => s.(con := Outer, owner := FREE)
  }

  ghost predicate Leads(s: State, es: seq<Event>, t: State)
    decreases |es|
  {
    if es == [] then s == t else Enabled(s, es[0]) && Leads(Next(s, es[0]), es[1..], t)
  }

  // ----- the invariant -----

  predicate HoldsP(p: ProducerPC) { p.Write? || p.CountAvail? || p.CountProducers? || p.Unlock? }

  predicate HoldsC(c: ConsumerPC) {
    c.TestAvail? || c.Wait? || c.Inner? || c.ReadUnit? || c.CheckProducers? || c.Release?
  }

  predicate Wrote(p: ProducerPC) { !p.Lock? && !p.Write? }

  /** Has written, and not yet counted its unit in avail. */
  predicate Uncounted(p: ProducerPC) { p.CountAvail? }

  /** Still counted in producers. */
  predicate Active(p: ProducerPC) { p.Lock? || p.Write? || p.CountAvail? || p.CountProducers? }

  predicate OwesSignal(p: ProducerPC) { p.CountProducers? || p.Unlock? || p.Signal? }

  /** The sum of the units written so far: producer i writes i. */
  ghost function Work(prod: seq<ProducerPC>): int {
    if prod == [] then 0
    else Work(prod[..|prod| - 1]) + if Wrote(prod[|prod| - 1]) then |prod| - 1 else 0
  }

  lemma {:induction false} WorkUpdate(prod: seq<ProducerPC>, i: nat, p: ProducerPC)
    requires i < |prod|
    ensures Work(prod[i := p]) == Work(prod) - (if Wrote(prod[i]) then i else 0) + (if Wrote(p) then i else 0)
  {
    var n := |prod| - 1;
    if i == n {
      assert prod[i := p][..n] == prod[..n];
    } else {
      assert prod[i := p][..n] == prod[..n][i := p];
      WorkUpdate(prod[..n], i, p);
    }
  }

  lemma {:induction false} WorkNone(prod: seq<ProducerPC>)
    requires forall i :: 0 <= i < |prod| ==> !Wrote(prod[i])
    ensures Work(prod) == 0
  {
    if prod != [] {
      WorkNone(prod[..|prod| - 1]);
    }
  }

  lemma {:induction false} WorkAll(prod: seq<ProducerPC>)
    requires forall i :: 0 <= i < |prod| ==> Wrote(prod[i])
    ensures 2 * Work(prod) == |prod| * (|prod| - 1)
  {
    if prod != [] {
      WorkAll(prod[..|prod| - 1]);
    }
  }

  ghost predicate LockInv(s: State) {
    && FREE <= s.owner <= |s.prod|
    && (forall i :: 0 <= i < |s.prod| ==> (HoldsP(s.prod[i]) <==> s.owner == i))
    && (HoldsC(s.con) <==> s.owner == |s.prod|)
  }

  ghost predicate LastOf(pipe: seq<int>, written: seq<int>) {
    |pipe| <= |written| && pipe == written[|written| - |pipe|..]
  }

  /** Whatever the capacity: avail counts the units in the pipe, and they are the last ones written. */
  ghost predicate PipeInv(s: State) {
    && s.avail >= 0
    && |s.pipe| == s.avail + Count(s.prod, Uncounted)
    && LastOf(s.pipe, s.written)
    && s.sum + Sum(s.pipe) == Sum(s.written)
    && (s.con == ReadUnit ==> s.avail > 0)
  }

  /** A unit is written by its own producer, at most once. */
  ghost predicate WrittenInv(prod: seq<ProducerPC>, written: seq<int>) {
    && (forall k :: 0 <= k < |written| ==> 0 <= written[k] < |prod| && Wrote(prod[written[k]]))
    && (forall j, k :: 0 <= j < k < |written| ==> written[j] != written[k])
  }

  /** With room for every unit, every producer that has tried has written. */
  ghost predicate RoomInv(s: State) {
    && s.cap >= |s.prod|
    && |s.pipe| <= Count(s.prod, Wrote)
    && s.producers == Count(s.prod, Active)
    && Sum(s.written) == Work(s.prod)
  }

  ghost predicate FinishInv(s: State) {
    && (s.finished ==> s.producers == 0)
    && (s.producers == 0 && !s.finished ==> s.avail > 0 || s.con == CheckProducers)
    && (forall i :: 0 <= i < |s.prod| && s.prod[i] == CountProducers ==> s.avail > 0)
    && (s.finished ==> s.con.Inner? || s.con.ReadUnit? || s.con.CheckProducers? || s.con.Release? || s.con.Outer? || s.con.Finish?)
    && (s.con == Release || (s.finished && (s.con == Outer || s.con == Finish)) ==> s.avail == 0)
    && (s.con == Finish ==> s.finished)
  }

  ghost predicate SignalOwed(s: State) {
    exists i :: 0 <= i < |s.prod| && OwesSignal(s.prod[i])
  }

  ghost predicate WakeInv(s: State) {
    && (s.con == Wait ==> s.avail == 0)
    && (s.con == Blocked && s.avail > 0 ==> SignalOwed(s))
  }

  /** What holds for every capacity. */
  ghost predicate BaseInv(s: State) {
    LockInv(s) && PipeInv(s) && WrittenInv(s.prod, s.written) && WakeInv(s)
  }

  ghost predicate Inv(s: State) {
    |s.prod| >= 1 && BaseInv(s) && RoomInv(s) && FinishInv(s)
  }

  lemma InitBase(s: State)
    requires Init(s)
    ensures BaseInv(s)
  {
    CountBound(s.prod, Uncounted);
  }

  lemma InitInv(s: State)
    requires Init(s) && |s.prod| >= 1 && s.cap >= |s.prod|
    ensures Inv(s)
  {
    InitBase(s);
    CountBound(s.prod, Wrote);
    CountBound(s.prod, Active);
    WorkNone(s.prod);
  }

  lemma ProducerCounts(prod: seq<ProducerPC>, i: nat, p: ProducerPC)
    requires i < |prod|
    ensures !Wrote(prod[i]) ==> Count(prod, Wrote) < |prod|
    ensures Count(prod[i := p], Uncounted) == Count(prod, Uncounted) - (if Uncounted(prod[i]) then 1 else 0) + (if Uncounted(p) then 1 else 0)
    ensures Count(prod[i := p], Wrote) == Count(prod, Wrote) - (if Wrote(prod[i]) then 1 else 0) + (if Wrote(p) then 1 else 0)
    ensures Count(prod[i := p], Active) == Count(prod, Active) - (if Active(prod[i]) then 1 else 0) + (if Active(p) then 1 else 0)
    ensures Work(prod[i := p]) == Work(prod) - (if Wrote(prod[i]) then i else 0) + (if Wrote(p) then i else 0)
  {
    CountBound(prod, Wrote);
    CountUpdate(prod, i, p, Uncounted);
    CountUpdate(prod, i, p, Wrote);
    CountUpdate(prod, i, p, Active);
    WorkUpdate(prod, i, p);
  }

  lemma Singleton(i: int)
    ensures Sum([i]) == i
  {
    assert [i][1..] == [];
  }

  lemma LastAppend(pipe: seq<int>, written: seq<int>, i: int)
    requires LastOf(pipe, written)
    ensures LastOf(pipe + [i], written + [i])
  {
    var k := |written| - |pipe|;
    assert (written + [i])[k..] == written[k..] + [i];
  }

  lemma ProducerPipe(s: State, i: nat)
    requires PipeInv(s) && Enabled(s, Producer(i))
    ensures PipeInv(NextProducer(s, i))
  {
    hide Count, Sum, LastOf;
    var t := NextProducer(s, i);
    LastAppend(s.pipe, s.written, i);
    ProducerCounts(s.prod, i, t.prod[i]);
    SumAppend(s.pipe, [i]);
    SumAppend(s.written, [i]);
    Singleton(i);
  }

  lemma ProducerWritten(s: State, i: nat)
    requires WrittenInv(s.prod, s.written) && Enabled(s, Producer(i))
    ensures WrittenInv(NextProducer(s, i).prod, NextProducer(s, i).written)
  {
  }

  lemma ProducerRoom(s: State, i: nat)
    requires RoomInv(s) && Enabled(s, Producer(i))
    ensures RoomInv(NextProducer(s, i))
  {
    var t := NextProducer(s, i);
    ProducerCounts(s.prod, i, t.prod[i]);
    SumAppend(s.written, [i]);
    Singleton(i);
  }

  lemma ProducerLock(s: State, i: nat)
    requires LockInv(s) && Enabled(s, Producer(i))
    ensures |NextProducer(s, i).prod| == |s.prod| && LockInv(NextProducer(s, i))
  {
  }

  lemma ProducerFinish(s: State, i: nat)
    requires Inv(s) && Enabled(s, Producer(i))
    ensures FinishInv(NextProducer(s, i))
  {
    CountBound(s.prod, Active);
    CountBound(s.prod, Wrote);
  }

  lemma ProducerWake(s: State, i: nat)
    requires WakeInv(s) && Enabled(s, Producer(i)) && (s.prod[i] == CountAvail ==> s.con != Wait)
    ensures WakeInv(NextProducer(s, i))
  {
    var t := NextProducer(s, i);
    if t.con == Blocked && t.avail > 0 {
      if s.prod[i] != CountAvail {
        var k :| 0 <= k < |s.prod| && OwesSignal(s.prod[k]);
        assert OwesSignal(t.prod[k]);
      } else {
        assert OwesSignal(t.prod[i]);
      }
    }
  }

  /** The pipe is never empty where the consumer reads it. */
  lemma PipeHasAUnit(s: State)
    requires PipeInv(s) && s.con == ReadUnit
    ensures s.pipe != []
  {
    CountBound(s.prod, Uncounted);
  }

  lemma ConsumerPipe(s: State)
    requires PipeInv(s) && Enabled(s, Consumer)
    ensures PipeInv(NextConsumer(s))
  {
    hide Count;
    if s.con == ReadUnit {
      PipeHasAUnit(s);
      assert s.pipe == [s.pipe[0]] + s.pipe[1..];
    }
  }

  lemma ConsumerStep(s: State)
    requires LockInv(s) && WakeInv(s) && Enabled(s, Consumer)
    ensures var t := NextConsumer(s); |t.prod| == |s.prod| && LockInv(t) && WakeInv(t)
  {
  }

  lemma ConsumerFinish(s: State)
    requires Inv(s) && Enabled(s, Consumer)
    ensures RoomInv(NextConsumer(s)) && FinishInv(NextConsumer(s))
  {
    if s.con == ReadUnit {
      PipeHasAUnit(s);
    }
  }

  lemma StepBase(s: State, e: Event)
    requires BaseInv(s) && Enabled(s, e)
    ensures BaseInv(Next(s, e)) && |Next(s, e).prod| == |s.prod|
  {
    hide Count, Sum, LastOf;
    match e
    case Producer(i) => ProducerPipe(s, i); ProducerWritten(s, i); ProducerLock(s, i); ProducerWake(s, i);
    case Consumer => ConsumerPipe(s); ConsumerStep(s);
    case Wake =>
  }

  lemma {:induction false} LeadsBase(s: State, es: seq<Event>, t: State)
    requires BaseInv(s) && Leads(s, es, t)
    ensures BaseInv(t) && |t.prod| == |s.prod|
    decreases |es|
  {
    if es != [] {
      StepBase(s, es[0]);
      LeadsBase(Next(s, es[0]), es[1..], t);
    }
  }

  lemma StepInv(s: State, e: Event)
    requires Inv(s) && Enabled(s, e)
    ensures Inv(Next(s, e)) && |Next(s, e).prod| == |s.prod|
  {
    StepBase(s, e);
    match e
    case Producer(i) => ProducerRoom(s, i); ProducerFinish(s, i);
    case Consumer => ConsumerFinish(s);
    case Wake =>
  }

  lemma {:induction false} LeadsInv(s: State, es: seq<Event>, t: State)
    requires Inv(s) && Leads(s, es, t)
    ensures Inv(t) && |t.prod| == |s.prod|
    decreases |es|
  {
    if es != [] {
      StepInv(s, es[0]);
      LeadsInv(Next(s, es[0]), es[1..], t);
    }
  }

  // ----- what every run satisfies -----

  /**
   For every capacity: with the mutex free, avail is the number of units in the pipe; the pipe holds the
   last units written and the rest were consumed; and a unit is written at most once, by its producer.
   */
  lemma WorkConserved(s: State, es: seq<Event>, t: State)
    requires Init(s) && Leads(s, es, t)
    ensures t.sum + Sum(t.pipe) == Sum(t.written)
    ensures LastOf(t.pipe, t.written) && WrittenInv(t.prod, t.written)
    ensures t.owner == FREE ==> t.avail == |t.pipe|
  {
    InitBase(s);
    LeadsBase(s, es, t);
    CountBound(t.prod, Uncounted);
  }

  /** With room for every unit, what was written is the work of every producer that has tried. */
  lemma AllWorkWritten(s: State, es: seq<Event>, t: State)
    requires Init(s) && |s.prod| >= 1 && s.cap >= |s.prod| && Leads(s, es, t)
    ensures Sum(t.written) == Work(t.prod)
  {
    InitInv(s);
    LeadsInv(s, es, t);
  }

  /** For every capacity: the consumer is never asleep with work available unless a signal is still owed. */
  lemma NoLostWakeup(s: State, es: seq<Event>, t: State)
    requires Init(s) && Leads(s, es, t)
    requires t.con == Blocked && t.avail > 0
    ensures SignalOwed(t)
  {
    InitBase(s);
    LeadsBase(s, es, t);
  }

  /** For every capacity: the consumer never reads an empty pipe, although it would take the failed read for a unit. */
  lemma NeverReadsEmptyPipe(s: State, es: seq<Event>, t: State)
    requires Init(s) && Leads(s, es, t) && t.con == ReadUnit
    ensures t.pipe != [] && t.avail > 0
  {
    InitBase(s);
    LeadsBase(s, es, t);
    PipeHasAUnit(t);
  }

  /** The consumer stops only when every producer has written and every unit is consumed: the total is 0 + 1 + ... + (N - 1). */
  lemma FinishedMeansEverything(s: State, es: seq<Event>, t: State)
    requires Init(s) && |s.prod| >= 1 && s.cap >= |s.prod| && Leads(s, es, t) && t.con == Finish
    ensures t.producers == 0 && t.avail == 0 && t.pipe == []
    ensures 2 * t.sum == |s.prod| * (|s.prod| - 1)
  {
    InitInv(s);
    LeadsInv(s, es, t);
    CountBound(t.prod, Active);
    CountBound(t.prod, Uncounted);
    WorkAll(t.prod);
  }

  /** Some thread can move other than by a spurious wakeup. */
  ghost predicate CanMove(s: State) {
    exists e :: Enabled(s, e) && !e.Wake?
  }

  ghost predicate AllOver(s: State) {
    s.con == Finish && forall i :: 0 <= i < |s.prod| ==> s.prod[i] == Exit
  }

  lemma InvCanMove(s: State)
    requires Inv(s) && !AllOver(s)
    ensures CanMove(s)
  {
    CountBound(s.prod, Active);
    if 0 <= s.owner < |s.prod| {
      assert Enabled(s, Producer(s.owner));
    } else if i: nat :| i < |s.prod| && s.prod[i] != Exit && Enabled(s, Producer(i)) {
    } else {
      assert Enabled(s, Consumer);
    }
  }

  ghost predicate NeverStuck(s: State) {
    forall es, t :: Leads(s, es, t) && !AllOver(t) ==> CanMove(t)
  }

  // ----- every run ends -----

  function ProducerRank(p: ProducerPC): nat {
    match p
    case Lock => 40
    case Write => 39
    case CountAvail => 38
    case CountProducers => 20
    case Unlock => 19
    case Signal => 18
    case Exit => 0
  }

  function ConsumerRank(c: ConsumerPC, avail: int): nat {
    match c
    case CheckProducers => 27
    case Inner => if avail > 0 then 15 else 20
    case Release => 19
    case Outer => 18
    case Acquire | Relock => 17
    case TestAvail => 16
    case Wait => 15
    case Blocked => 14
    case ReadUnit => 14
    case Finish => 0
  }

  ghost function Ranks(prod: seq<ProducerPC>): (r: nat)
    ensures r <= 40 * |prod|
  {
    if prod == [] then 0 else ProducerRank(prod[0]) + Ranks(prod[1..])
  }

  lemma {:induction false} RanksUpdate(prod: seq<ProducerPC>, i: nat, p: ProducerPC)
    requires i < |prod|
    ensures Ranks(prod[i := p]) == Ranks(prod) - ProducerRank(prod[i]) + ProducerRank(p)
  {
    if i == 0 {
      assert prod[i := p][1..] == prod[1..];
    } else {
      assert prod[i := p][1..] == prod[1..][i - 1 := p];
      RanksUpdate(prod[1..], i - 1, p);
    }
  }

  ghost function Rank(s: State): int {
    Ranks(s.prod) + 14 * s.avail + ConsumerRank(s.con, s.avail)
  }

  lemma ProducerStepRank(s: State, i: nat)
    requires s.avail >= 0 && Enabled(s, Producer(i))
    ensures Rank(NextProducer(s, i)) < Rank(s)
  {
    RanksUpdate(s.prod, i, NextProducer(s, i).prod[i]);
  }

  lemma StepRank(s: State, e: Event)
    requires Inv(s) && Enabled(s, e) && !e.Wake?
    ensures Rank(Next(s, e)) < Rank(s)
  {
    match e
    case Producer(i) => ProducerStepRank(s, i);
    case Consumer => if s.con == ReadUnit { PipeHasAUnit(s); }
  }

  ghost predicate NoWake(es: seq<Event>) {
    forall k :: 0 <= k < |es| ==> !es[k].Wake?
  }

  lemma {:induction false} RunLength(s: State, es: seq<Event>, t: State)
    requires Inv(s) && Leads(s, es, t) && NoWake(es)
    ensures |es| <= Rank(s) - Rank(t) && Rank(t) >= 0
    decreases |es|
  {
    if es != [] {
      StepInv(s, es[0]);
      StepRank(s, es[0]);
      RunLength(Next(s, es[0]), es[1..], t);
    }
  }

  /** With room for every unit, each run is bounded and one that cannot go on has consumed 0 + 1 + ... + (N - 1). */
  lemma EveryRunFinishes(s: State, es: seq<Event>, t: State)
    requires Init(s) && |s.prod| >= 1 && s.cap >= |s.prod| && Leads(s, es, t) && NoWake(es)
    ensures |es| <= 40 * |s.prod| + 18
    ensures !CanMove(t) ==> AllOver(t) && 2 * t.sum == |s.prod| * (|s.prod| - 1)
  {
    InitInv(s);
    LeadsInv(s, es, t);
    RunLength(s, es, t);
    if !CanMove(t) {
      if !AllOver(t) {
        InvCanMove(t);
      }
      FinishedMeansEverything(s, es, t);
    }
  }

  // ----- exactly when the consumer cannot be left waiting -----

  lemma Prepend(s: State, e: Event, es: seq<Event>, t: State) returns (r: seq<Event>)
    requires Enabled(s, e) && Leads(Next(s, e), es, t)
    ensures Leads(s, r, t)
  {
    r := [e] + es;
    assert r[1..] == es;
  }

  lemma {:induction false} Chain(s: State, es: seq<Event>, m: State, fs: seq<Event>, t: State)
    requires Leads(s, es, m) && Leads(m, fs, t)
    ensures Leads(s, es + fs, t)
    decreases |es|
  {
    if es == [] {
      assert es + fs == fs;
    } else {
      assert (es + fs)[1..] == es[1..] + fs;
      Chain(Next(s, es[0]), es[1..], m, fs, t);
    }
  }

  /** The first k producers have run to completion and nothing has been consumed; the pipe kept what it could. */
  ghost predicate Filled(s: State, k: nat) {
    var kept := if k < s.cap then k else s.cap;
    && k <= |s.prod| && s.cap >= 0
    && s.owner == FREE && s.con == Outer && !s.finished
    && |s.pipe| == s.avail == kept && s.producers == |s.prod| - kept
    && forall j :: 0 <= j < |s.prod| ==> s.prod[j] == if j < k then Exit else Lock
  }

  /** The last steps of a producer that has counted its unit. */
  lemma Closes(s: State, k: nat) returns (es: seq<Event>, t: State)
    requires k < |s.prod| && s.prod[k] == CountProducers && s.con != Blocked
    ensures Leads(s, es, t) && t == s.(prod := s.prod[k := Exit], producers := s.producers - 1, owner := FREE)
  {
    var e := Producer(k);
    var s1 := s.(prod := s.prod[k := Unlock], producers := s.producers - 1);
    var s2 := s1.(prod := s1.prod[k := Signal], owner := FREE);
    t := s2.(prod := s2.prod[k := Exit]);
    es := Prepend(s2, e, [], t);
    es := Prepend(s1, e, es, t);
    es := Prepend(s, e, es, t);
  }

  lemma KeepsUnit(s: State, k: nat) returns (es: seq<Event>, t: State)
    requires Filled(s, k) && k < |s.prod| && k < s.cap
    ensures Leads(s, es, t) && Filled(t, k + 1) && |t.prod| == |s.prod| && t.cap == s.cap
  {
    var e := Producer(k);
    var s1 := s.(prod := s.prod[k := Write], owner := k);
    var s2 := s1.(prod := s1.prod[k := CountAvail], pipe := s.pipe + [k], written := s.written + [k]);
    var s3 := s2.(prod := s2.prod[k := CountProducers], avail := s.avail + 1);
    es, t := Closes(s3, k);
    es := Prepend(s2, e, es, t);
    es := Prepend(s1, e, es, t);
    es := Prepend(s, e, es, t);
  }

  /** The pipe is full: the unit is dropped and the producer stays counted. */
  lemma DropsUnit(s: State, k: nat) returns (es: seq<Event>, t: State)
    requires Filled(s, k) && k < |s.prod| && k >= s.cap
    ensures Leads(s, es, t) && Filled(t, k + 1) && |t.prod| == |s.prod| && t.cap == s.cap
  {
    var e := Producer(k);
    var s1 := s.(prod := s.prod[k := Write], owner := k);
    var s2 := s1.(prod := s1.prod[k := Unlock]);
    var s3 := s2.(prod := s2.prod[k := Signal], owner := FREE);
    t := s3.(prod := s3.prod[k := Exit]);
    es := Prepend(s3, e, [], t);
    es := Prepend(s2, e, es, t);
    es := Prepend(s1, e, es, t);
    es := Prepend(s, e, es, t);
  }

  lemma {:induction false} ProducersFirst(s: State, k: nat) returns (es: seq<Event>, t: State)
    requires Filled(s, 0) && k <= |s.prod|
    ensures Leads(s, es, t) && Filled(t, k) && |t.prod| == |s.prod| && t.cap == s.cap
  {
    if k == 0 {
      es, t := [], s;
    } else {
      var fs, m := ProducersFirst(s, k - 1);
      if k - 1 < s.cap {
        es, t := KeepsUnit(m, k - 1);
      } else {
        es, t := DropsUnit(m, k - 1);
      }
      Chain(s, fs, m, es, t);
      es := fs + es;
    }
  }

  /** The consumer at its inner loop, every producer gone but some still counted. */
  ghost predicate Draining(s: State) {
    && s.con == Inner && s.owner == |s.prod| && !s.finished
    && |s.pipe| == s.avail && s.producers != 0
    && forall j :: 0 <= j < |s.prod| ==> s.prod[j] == Exit
  }

  /** Out of work, out of producers, and waiting for both. */
  ghost predicate Stranded(s: State) {
    s.con == Blocked && s.owner == FREE && forall j :: 0 <= j < |s.prod| ==> s.prod[j] == Exit
  }

  lemma WaitsForever(s: State) returns (es: seq<Event>, t: State)
    requires s.con == Outer && s.owner == FREE && !s.finished && s.avail == 0
    requires forall j :: 0 <= j < |s.prod| ==> s.prod[j] == Exit
    ensures Leads(s, es, t) && Stranded(t)
  {
    var s1 := s.(con := Acquire);
    var s2 := s.(con := TestAvail, owner := |s.prod|);
    var s3 := s2.(con := Wait);
    t := s.(con := Blocked);
    es := Prepend(s3, Consumer, [], t);
    es := Prepend(s2, Consumer, es, t);
    es := Prepend(s1, Consumer, es, t);
    es := Prepend(s, Consumer, es, t);
  }

  lemma {:induction false} DrainsThenWaits(s: State) returns (es: seq<Event>, t: State)
    requires Draining(s)
    ensures Leads(s, es, t) && Stranded(t)
    decreases s.avail
  {
    if s.avail == 0 {
      var s1 := s.(con := Release);
      var s2 := s1.(con := Outer, owner := FREE);
      es, t := WaitsForever(s2);
      es := Prepend(s1, Consumer, es, t);
      es := Prepend(s, Consumer, es, t);
    } else {
      var s1 := s.(con := ReadUnit);
      var s2 := s1.(con := CheckProducers, pipe := s.pipe[1..], unit := s.pipe[0], sum := s.sum + s.pipe[0], avail := s.avail - 1);
      var s3 := s2.(con := Inner);
      es, t := DrainsThenWaits(s3);
      es := Prepend(s2, Consumer, es, t);
      es := Prepend(s1, Consumer, es, t);
      es := Prepend(s, Consumer, es, t);
    }
  }

  lemma ConsumerStrands(s: State) returns (es: seq<Event>, t: State)
    requires Filled(s, |s.prod|) && (s.cap < |s.prod| || |s.prod| == 0)
    ensures Leads(s, es, t) && Stranded(t)
  {
    if s.avail == 0 {
      es, t := WaitsForever(s);
    } else {
      var s1 := s.(con := Acquire);
      var s2 := s1.(con := TestAvail, owner := |s.prod|);
      var s3 := s2.(con := Inner);
      es, t := DrainsThenWaits(s3);
      es := Prepend(s2, Consumer, es, t);
      es := Prepend(s1, Consumer, es, t);
      es := Prepend(s, Consumer, es, t);
    }
  }

  /** No interleaving leaves the consumer waiting for ever exactly when there are producers and the pipe holds a unit from each. */
  lemma NeverStuckExactly(s: State)
    requires Init(s)
    ensures NeverStuck(s) <==> 1 <= |s.prod| <= s.cap
  {
    if 1 <= |s.prod| <= s.cap {
      forall es, t | Leads(s, es, t) && !AllOver(t) ensures CanMove(t) {
        InitInv(s);
        LeadsInv(s, es, t);
        InvCanMove(t);
      }
    } else {
      var es, m := ProducersFirst(s, |s.prod|);
      var fs, t := ConsumerStrands(m);
      Chain(s, es, m, fs, t);
      assert Leads(s, es + fs, t) && !AllOver(t) && !CanMove(t);
    }
  }

  lemma LeadsAppend(s: State, es: seq<Event>, t: State, e: Event)
    requires Leads(s, es, t) && Enabled(t, e)
    ensures Leads(s, es + [e], Next(t, e))
  {
    assert Leads(t, [e], Next(t, e)) by {
      assert [e][1..] == [];
    }
    Chain(s, es, t, [e], Next(t, e));
  }

  // ----- the shared data, updated in place -----

  class Shared {
    const cap: int
    var avail: int
    var producers: int
    var workPipe: seq<int>
    var mtx: int
    var prod: seq<ProducerPC>
    var con: ConsumerPC
    var workUnit: int
    var sum: int
    var finished: bool
    var written: seq<int>

    function Snapshot(): State
      reads this
    {
      State(avail, producers, workPipe, mtx, prod, con, workUnit, sum, finished, cap, written)
    }

    constructor (n: nat, cap: nat, garbage: int)
      ensures Init(Snapshot()) && |prod| == n && Snapshot().cap == cap
    {
      this.cap := cap;
      avail, producers, workPipe, mtx := 0, n, [], FREE;
      prod := seq(n, _ => Lock);
      con, workUnit, sum, finished, written := Outer, garbage, 0, false, [];
    }

    method StepProducer(i: nat)
      requires Enabled(Snapshot(), Producer(i))
      modifies this
      ensures Snapshot() == NextProducer(old(Snapshot()), i)
    {
      match prod[i] {
        case Lock => mtx, prod := i, prod[i := Write];
        case Write =>
          if |workPipe| < cap {
            workPipe, written, prod := workPipe + [i], written + [i], prod[i := CountAvail];
          } else {
            prod := prod[i := Unlock];
          }
        case CountAvail => avail, prod := avail + 1, prod[i := CountProducers];
        case CountProducers => producers, prod := producers - 1, prod[i := Unlock];
        case Unlock => mtx, prod := FREE, prod[i := Signal];
        case Signal =>
          if con == Blocked {
            con := Relock;
          }
          prod := prod[i := Exit];
      }
    }

    method StepConsumer()
      requires Enabled(Snapshot(), Consumer)
      modifies this
      ensures Snapshot() == NextConsumer(old(Snapshot()))
    {
      match con {
        case Outer => con := if finished then Finish else Acquire;
        case Acquire | Relock => mtx, con := |prod|, TestAvail;
        case TestAvail => con := if avail == 0 then Wait else Inner;
        case Wait => mtx, con := FREE, Blocked;
        case Inner => con := if avail > 0 then ReadUnit else Release;
        case ReadUnit =>
          if |workPipe| > 0 {
            workUnit, workPipe := workPipe[0], workPipe[1..];
          }
          sum, avail, con := sum + workUnit, avail - 1, CheckProducers;
        case CheckProducers =>
          if producers == 0 {
            finished := true;
          }
          con := Inner;
        case Release => mtx, con := FREE, Outer;
      }
    }

    /** Run all threads under any schedule; an event that cannot happen is passed over. */
    method Run(schedule: seq<Event>) returns (ghost es: seq<Event>)
      requires Init(Snapshot())
      modifies this
      ensures Leads(old(Snapshot()), es, Snapshot()) && BaseInv(Snapshot())
      ensures 1 <= |prod| <= cap ==> Inv(Snapshot())
    {
      es := [];
      for k := 0 to |schedule|
        invariant Leads(old(Snapshot()), es, Snapshot())
      {
        if Enabled(Snapshot(), schedule[k]) {
          LeadsAppend(old(Snapshot()), es, Snapshot(), schedule[k]);
          match schedule[k] {
            case Producer(i) => StepProducer(i);
            case Consumer => StepConsumer();
            case Wake => con := Relock;
          }
          es := es + [schedule[k]];
        }
      }
      InitBase(old(Snapshot()));
      LeadsBase(old(Snapshot()), es, Snapshot());
      if 1 <= |prod| <= cap {
        InitInv(old(Snapshot()));
        LeadsInv(old(Snapshot()), es, Snapshot());
      }
    }
  }
}
