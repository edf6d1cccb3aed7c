/**
 The barrier built from a mutex, a condition variable and a counter, reused for every iteration.

 pthread_cond_wait is two steps: give up the mutex and block, then, once woken, take the mutex
 again. A broadcast wakes every blocked thread. Whether the condition variable may also wake a
 thread that nobody signalled is a parameter: the wait does not re-test anything, because
 pthread_cond_wait returns 0 on such a wakeup too.
 */
module Barrier {
  import opened SeqMath

  const FREE := -1

  datatype PC =
    | Loop                                      // for (i = 0; i < num_iterations; i++)
    | Lock | Increment | Compare                // mutex, counter++, counter == num_threads?
    | Reset | Broadcast                         // the last thread in
    | Wait | Blocked | Relock                   // pthread_cond_wait
    | Unlock
    | Done

  datatype State = State(
    owner: int,         // mutex
    counter: int,
    pc: seq<PC>,
    iter: seq<int>,     // barrier_sync calls each thread has returned from
    round: int,         // broadcasts announced so far
    rounds: int,        // num_iterations
    spurious: bool)     // may a blocked thread wake by itself?

  datatype Event = Thread(i: nat) | Wake(i: nat)

  predicate Shaped(s: State) {
    |s.pc| == |s.iter| >= 1
  }

  ghost predicate Init(s: State) {
    && Shaped(s) && s.owner == FREE && s.counter == 0 && s.round == 0 && s.rounds >= 0
    && forall i :: 0 <= i < |s.pc| ==> s.pc[i] == Loop && s.iter[i] == 0
  }

  predicate Enabled(s: State, e: Event) {
    && Shaped(s) && e.i < |s.pc|
    && match e
       case Wake(i) => s.spurious && s.pc[i] == Blocked
       case Thread(i) =>
         match s.pc[i]
         case Lock | Relock => s.owner == FREE
         case Blocked | Done => false
         case _ => true
  }

  function WakeAll(pc: seq<PC>): (r: seq<PC>)
    ensures |r| == |pc| && forall i :: 0 <= i < |r| ==> r[i] == if pc[i] == Blocked then Relock else pc[i]
  {
    seq(|pc|, i requires 0 <= i < |pc| => if pc[i] == Blocked then Relock else pc[i])
  }

  function Next(s: State, e: Event): State
    requires Enabled(s, e)
  {
    var i := e.i;
    if e.Wake? then s.(pc := s.pc[i := Relock]) else
    match s.pc[i]
    case Loop => s.(pc := s.pc[i := if s.iter[i] < s.rounds then Lock else Done])
    case Lock => s.(pc := s.pc[i := Increment], owner := i)
    case Increment => s.(pc := s.pc[i := Compare], counter := s.counter + 1)
    case Compare => s.(pc := s.pc[i := if s.counter == |s.pc| then Reset else Wait])
    case Reset => s.(pc := s.pc[i := Broadcast], counter := 0, round := s.round + 1)
    case Broadcast => s.(pc := WakeAll(s.pc)[i := Unlock])
    case Wait => s.(pc := s.pc[i := Blocked], owner := FREE)
    case Relock => s.(pc := s.pc[i := Unlock], owner := i)
    case Unlock => s.(pc := s.pc[i := Loop], owner := FREE, iter := s.iter[i := s.iter[i] + 1])
  }

  ghost predicate Leads(s: State, es: seq<Event>, t: State)
    decreases |es|
  {
    if es == [] then s == t else Enabled(s, es[0]) && Leads(Next(s, es[0]), es[1..], t)
  }

  /** Rounds a thread has entered: those it left, and the one whose counter it has incremented. */
  function Entered(s: State, i: nat): int
    requires Shaped(s) && i < |s.pc|
  {
    s.iter[i] + match s.pc[i] case Loop | Lock | Increment | Done => 0 case _ => 1
  }

  /** No thread has left a round that some thread has not entered. */
  ghost predicate Separated(s: State) {
    Shaped(s) && forall i, j :: 0 <= i < |s.pc| && 0 <= j < |s.pc| ==> s.iter[i] <= Entered(s, j)
  }

  // ----- the invariant without spurious wakeups -----

  predicate Holds(p: PC) {
    p.Increment? || p.Compare? || p.Reset? || p.Broadcast? || p.Wait? || p.Unlock?
  }

  /** Counted in the open round. */
  predicate InRound(p: PC) {
    p.Compare? || p.Reset? || p.Wait? || p.Blocked?
  }

  ghost predicate ThreadInv(s: State, i: nat)
    requires Shaped(s) && i < |s.pc|
  {
    && (Holds(s.pc[i]) <==> s.owner == i)
    && 0 <= s.iter[i] <= s.rounds
    && (s.pc[i] != Loop && s.pc[i] != Done ==> s.iter[i] < s.rounds)
    && (s.pc[i] == Done ==> s.iter[i] == s.rounds)
    && s.iter[i] == (if s.pc[i].Broadcast? || s.pc[i].Relock? || s.pc[i].Unlock? || (s.pc[i].Blocked? && Flushing(s))
                     then s.round - 1 else s.round)
  }

  /** The last thread in has reset the counter and is about to broadcast. */
  ghost predicate Flushing(s: State) {
    0 <= s.owner < |s.pc| && s.pc[s.owner] == Broadcast
  }

  ghost predicate CounterInv(s: State) {
    && Shaped(s)
    && (if Flushing(s) then s.counter == 0 else s.counter == Count(s.pc, InRound))
    && ((0 <= s.owner < |s.pc| && (s.pc[s.owner].Compare? || s.pc[s.owner].Reset?)) || s.counter < |s.pc|)
    && (0 <= s.owner < |s.pc| && s.pc[s.owner].Reset? ==> s.counter == |s.pc|)
    && (Flushing(s) ==> forall j :: 0 <= j < |s.pc| && j != s.owner ==> s.pc[j] == Blocked)
  }

  ghost predicate Inv(s: State) {
    && Shaped(s) && !s.spurious && FREE <= s.owner < |s.pc|
    && CounterInv(s)
    && forall i :: 0 <= i < |s.pc| ==> ThreadInv(s, i)
  }

  lemma InitInv(s: State)
    requires Init(s) && !s.spurious
    ensures Inv(s)
  {
    CountBound(s.pc, InRound);
  }

  /** When the counter shows everybody, everybody but the holder of the mutex is blocked. */
  lemma LastOneIn(s: State, i: nat)
    requires Inv(s) && i < |s.pc| && s.pc[i] == Reset
    ensures forall j :: 0 <= j < |s.pc| && j != i ==> s.pc[j] == Blocked
  {
    assert ThreadInv(s, i);
    CountBound(s.pc, InRound);
    forall j | 0 <= j < |s.pc| && j != i ensures s.pc[j] == Blocked {
      assert ThreadInv(s, j) && InRound(s.pc[j]);
    }
  }

  lemma CounterStep(s: State, i: nat)
    requires Inv(s) && Enabled(s, Thread(i))
    ensures CounterInv(Next(s, Thread(i)))
  {
    hide Count;
    var t := Next(s, Thread(i));
    assert ThreadInv(s, i);
    CountBound(s.pc, InRound);
    if s.pc[i] == Reset {
      LastOneIn(s, i);
    } else if s.pc[i] == Broadcast {
      CountBound(t.pc, InRound);
    } else {
      CountUpdate(s.pc, i, t.pc[i], InRound);
    }
  }

  lemma ThreadStep(s: State, i: nat, j: nat)
    requires Inv(s) && Enabled(s, Thread(i)) && j < |s.pc|
    ensures var t := Next(s, Thread(i)); Shaped(t) && |t.pc| == |s.pc| && ThreadInv(t, j)
  {
    assert ThreadInv(s, i) && ThreadInv(s, j);
    if s.pc[i] == Reset {
      LastOneIn(s, i);
    }
  }

  lemma StepInv(s: State, e: Event)
    requires Inv(s) && Enabled(s, e)
    ensures Inv(Next(s, e)) && |Next(s, e).pc| == |s.pc| && Next(s, e).rounds == s.rounds
  {
    assert ThreadInv(s, e.i);
    CounterStep(s, e.i);
    forall j | 0 <= j < |s.pc| ensures ThreadInv(Next(s, e), j) {
      ThreadStep(s, e.i, j);
    }
  }

  lemma {:induction false} LeadsInv(s: State, es: seq<Event>, t: State)
    requires Inv(s) && Leads(s, es, t)
    ensures Inv(t) && |t.pc| == |s.pc| && t.rounds == s.rounds
    decreases |es|
  {
    if es != [] {
      StepInv(s, es[0]);
      LeadsInv(Next(s, es[0]), es[1..], t);
    }
  }

  // ----- what every run satisfies -----

  lemma InvSeparated(s: State)
    requires Inv(s)
    ensures Separated(s)
  {
    forall i, j | 0 <= i < |s.pc| && 0 <= j < |s.pc| ensures s.iter[i] <= Entered(s, j) {
      assert ThreadInv(s, i) && ThreadInv(s, j);
    }
  }

  /** The rounds any two threads have completed differ by at most one. */
  lemma RoundsInStep(s: State, es: seq<Event>, t: State, i: nat, j: nat)
    requires Init(s) && !s.spurious && Leads(s, es, t) && i < |t.pc| && j < |t.pc|
    ensures |t.pc| == |t.iter| && t.iter[i] <= t.iter[j] + 1
  {
    InitInv(s);
    LeadsInv(s, es, t);
    assert ThreadInv(t, i) && ThreadInv(t, j);
  }

  predicate IsBlocked(p: PC) {
    p.Blocked?
  }

  lemma {:induction false} SameCount(pc: seq<PC>)
    requires forall i :: 0 <= i < |pc| ==> (InRound(pc[i]) <==> IsBlocked(pc[i]))
    ensures Count(pc, InRound) == Count(pc, IsBlocked)
  {
    if pc != [] {
      SameCount(pc[1..]);
    }
  }

  /** With the mutex free, the counter is the number of threads blocked, and never all of them. */
  lemma CounterCountsTheBlocked(s: State, es: seq<Event>, t: State)
    requires Init(s) && !s.spurious && Leads(s, es, t) && t.owner == FREE
    ensures t.counter == Count(t.pc, IsBlocked) < |t.pc|
  {
    InitInv(s);
    LeadsInv(s, es, t);
    forall i | 0 <= i < |t.pc| ensures InRound(t.pc[i]) <==> IsBlocked(t.pc[i]) {
      assert ThreadInv(t, i);
    }
    SameCount(t.pc);
  }

  /** No reachable state is stuck before every thread has finished its iterations. */
  lemma NoDeadlock(s: State, es: seq<Event>, t: State, k: nat)
    requires Init(s) && !s.spurious && Leads(s, es, t) && k < |t.pc| && t.pc[k] != Done
    ensures exists e :: Enabled(t, e)
  {
    InitInv(s);
    LeadsInv(s, es, t);
    assert ThreadInv(t, k);
    if t.owner != FREE {
      assert ThreadInv(t, t.owner) && Enabled(t, Thread(t.owner));
    } else {
      CountBound(t.pc, InRound);
      var d: nat :| d < |t.pc| && !InRound(t.pc[d]);
      assert ThreadInv(t, d);
      assert Enabled(t, Thread(if t.pc[d] == Done then k else d));
    }
  }

  // ----- without spurious wakeups every run ends -----

  function PcRank(p: PC): nat {
    match p
    case Loop => 7
    case Lock => 6
    case Increment => 5
    case Compare => 4
    case Reset | Wait => 3
    case Broadcast | Blocked | Relock => 2
    case Unlock => 1
    case Done => 0
  }

  function ThreadRank(s: State, i: nat): int
    requires Shaped(s) && i < |s.pc|
  {
    7 * (s.rounds - s.iter[i]) + PcRank(s.pc[i])
  }

  ghost function Ranks(s: State): (r: seq<int>)
    requires Shaped(s)
    ensures |r| == |s.pc| && forall i :: 0 <= i < |r| ==> r[i] == ThreadRank(s, i)
  {
    seq(|s.pc|, i requires 0 <= i < |s.pc| => ThreadRank(s, i))
  }

  /** A step brings its own thread closer to the end and no other further away: a broadcast wakes the blocked for nothing. */
  lemma ThreadRankStep(s: State, e: Event, j: nat)
    requires Enabled(s, e) && !e.Wake? && j < |s.pc|
    ensures Shaped(Next(s, e)) && |Next(s, e).pc| == |s.pc|
    ensures if j == e.i then ThreadRank(Next(s, e), j) < ThreadRank(s, j) else ThreadRank(Next(s, e), j) == ThreadRank(s, j)
  {
  }

  lemma StepRank(s: State, e: Event)
    requires Inv(s) && Enabled(s, e)
    ensures Shaped(Next(s, e)) && Sum(Ranks(Next(s, e))) < Sum(Ranks(s))
  {
    hide Next, ThreadRank, PcRank;
    var t, i := Next(s, e), e.i;
    forall j: nat | j < |s.pc|
      ensures Shaped(t) && |t.pc| == |s.pc| && if j == i then ThreadRank(t, j) < ThreadRank(s, j) else ThreadRank(t, j) == ThreadRank(s, j)
    {
      ThreadRankStep(s, e, j);
    }
    assert Shaped(t) && |t.pc| == |s.pc| by {
      ThreadRankStep(s, e, i);
    }
    assert Ranks(t) == Ranks(s)[i := Ranks(t)[i]];
    SumUpdate(Ranks(s), i, Ranks(t)[i]);
  }

  lemma {:induction false} SumBounds(r: seq<int>, m: int)
    requires forall i :: 0 <= i < |r| ==> 0 <= r[i] <= m
    ensures 0 <= Sum(r) <= |r| * m
  {
    if r != [] {
      SumBounds(r[1..], m);
    }
  }

  lemma RanksBound(s: State)
    requires Inv(s)
    ensures 0 <= Sum(Ranks(s)) <= |s.pc| * (7 * s.rounds + 7)
  {
    forall i | 0 <= i < |s.pc| ensures 0 <= Ranks(s)[i] <= 7 * s.rounds + 7 {
      assert ThreadInv(s, i);
    }
    SumBounds(Ranks(s), 7 * s.rounds + 7);
  }

  lemma {:induction false} RunLength(s: State, es: seq<Event>, t: State)
    requires Inv(s) && Leads(s, es, t)
    ensures Inv(t) && |es| <= Sum(Ranks(s)) - Sum(Ranks(t))
    decreases |es|
  {
    if es != [] {
      StepInv(s, es[0]);
      StepRank(s, es[0]);
      RunLength(Next(s, es[0]), es[1..], t);
    }
  }

  /** Each run is at most 7 (K + 1) steps per thread long, and one that cannot go on has taken every thread through its K rounds. */
  lemma EveryRunEnds(s: State, es: seq<Event>, t: State)
    requires Init(s) && !s.spurious && Leads(s, es, t)
    ensures |es| <= |s.pc| * (7 * s.rounds + 7)
    ensures (forall e :: !Enabled(t, e)) ==> |t.pc| == |t.iter| && forall i :: 0 <= i < |t.pc| ==> t.pc[i] == Done && t.iter[i] == s.rounds
  {
    InitInv(s);
    LeadsInv(s, es, t);
    RunLength(s, es, t);
    RanksBound(s);
    RanksBound(t);
    if forall e :: !Enabled(t, e) {
      forall i | 0 <= i < |t.pc| ensures t.pc[i] == Done && t.iter[i] == s.rounds {
        assert ThreadInv(t, i);
        if t.pc[i] != Done {
          NoDeadlock(s, es, t, i);
        }
      }
    }
  }

  // ----- exactly when rounds stay separate -----

  /** Without any assumption on wakeups: a thread never runs past its last iteration. */
  ghost predicate WeakInv(s: State) {
    && Shaped(s)
    && forall i :: 0 <= i < |s.pc| ==> 0 <= s.iter[i] <= s.rounds && (s.pc[i] != Loop && s.pc[i] != Done ==> s.iter[i] < s.rounds)
  }

  lemma {:induction false} LeadsWeak(s: State, es: seq<Event>, t: State)
    requires WeakInv(s) && Leads(s, es, t)
    ensures WeakInv(t) && |t.pc| == |s.pc| && t.rounds == s.rounds
    decreases |es|
  {
    if es != [] {
      assert WeakInv(Next(s, es[0]));
      LeadsWeak(Next(s, es[0]), es[1..], t);
    }
  }

  ghost predicate AlwaysSeparated(s: State) {
    forall es, t :: Leads(s, es, t) ==> Separated(t)
  }

  /**
   The comment at the wait says that other wakeups send the thread back to sleep. They do not:
   rounds stay separate in every run exactly when there are no such wakeups, or nothing to separate.
   */
  lemma SeparatedExactlyWithoutSpuriousWakeups(s: State)
    requires Init(s)
    ensures AlwaysSeparated(s) <==> !s.spurious || |s.pc| == 1 || s.rounds == 0
  {
    if !s.spurious {
      forall es, t | Leads(s, es, t) ensures Separated(t) {
        InitInv(s);
        LeadsInv(s, es, t);
        InvSeparated(t);
      }
    } else if |s.pc| == 1 || s.rounds == 0 {
      forall es, t | Leads(s, es, t) ensures Separated(t) {
        LeadsWeak(s, es, t);
      }
    } else {
      var es, t := SpuriousEscape(s);
      assert Leads(s, es, t) && !Separated(t);
    }
  }

  /** One thread enters, wakes by itself and leaves round 0 while another has not arrived. */
  lemma SpuriousEscape(s: State) returns (es: seq<Event>, t: State)
    requires Init(s) && s.spurious && |s.pc| >= 2 && s.rounds >= 1
    ensures Leads(s, es, t) && !Separated(t)
  {
    var m := s.(pc := s.pc[0 := Blocked], counter := 1);
    var fs := FirstBlocks(s);
    es, t := WakesAndLeaves(m);
    Chain(s, fs, m, es, t);
    es := fs + es;
    assert t.iter[0] == 1 && Entered(t, 1) == 0;
  }

  lemma WakesAndLeaves(m: State) returns (es: seq<Event>, t: State)
    requires Shaped(m) && m.spurious && m.owner == FREE && m.pc[0] == Blocked
    ensures Leads(m, es, t) && t == m.(pc := m.pc[0 := Loop], iter := m.iter[0 := m.iter[0] + 1])
  {
    var m1 := m.(pc := m.pc[0 := Relock]);
    var m2 := m1.(pc := m1.pc[0 := Unlock], owner := 0);
    t := m2.(pc := m2.pc[0 := Loop], owner := FREE, iter := m2.iter[0 := m2.iter[0] + 1]);
    es := Prepend(m2, Thread(0), [], t);
    es := Prepend(m1, Thread(0), es, t);
    es := Prepend(m, Wake(0), es, t);
  }

  lemma Prepend(s: State, e: Event, es: seq<Event>, t: State) returns (r: seq<Event>)
    requires Enabled(s, e) && Leads(Next(s, e), es, t)
    ensures Leads(s, r, t)
  {
    r := [e] + es;
    assert r[1..] == es;
  }

  lemma {:induction false} Chain(s: State, es: seq<Event>, m: State, fs: seq<Event>, t: State)
    requires Leads(s, es, m) && Leads(m, fs, t)
    ensures Leads(s, es + fs, t)
    decreases |es|
  {
    if es == [] {
      assert es + fs == fs;
    } else {
      assert (es + fs)[1..] == es[1..] + fs;
      Chain(Next(s, es[0]), es[1..], m, fs, t);
    }
  }

  lemma FirstArrives(s: State) returns (es: seq<Event>)
    requires Init(s) && |s.pc| >= 2 && s.rounds >= 1
    ensures Leads(s, es, s.(pc := s.pc[0 := Compare], owner := 0, counter := 1))
  {
    var step := Thread(0);
    var s1 := s.(pc := s.pc[0 := Lock]);
    var s2 := s.(pc := s.pc[0 := Increment], owner := 0);
    var s3 := s.(pc := s.pc[0 := Compare], owner := 0, counter := 1);
    assert Next(s2, step) == s3;
    es := Prepend(s2, step, [], s3);
    assert Next(s1, step) == s2;
    es := Prepend(s1, step, es, s3);
    es := Prepend(s, step, es, s3);
  }

  /** The first thread to arrive, of at least two, blocks. */
  lemma FirstBlocks(s: State) returns (es: seq<Event>)
    requires Init(s) && |s.pc| >= 2 && s.rounds >= 1
    ensures Leads(s, es, s.(pc := s.pc[0 := Blocked], counter := 1))
  {
    var step := Thread(0);
    var s3 := s.(pc := s.pc[0 := Compare], owner := 0, counter := 1);
    var s4 := s3.(pc := s3.pc[0 := Wait]);
    var m := s4.(pc := s4.pc[0 := Blocked], owner := FREE);
    assert m == s.(pc := s.pc[0 := Blocked], counter := 1);
    var fs := FirstArrives(s);
    es := Prepend(s4, step, [], m);
    assert Next(s3, step) == s4;
    es := Prepend(s3, step, es, m);
    Chain(s, fs, s3, es, m);
    es := fs + es;
  }

  lemma LeadsAppend(s: State, es: seq<Event>, t: State, e: Event)
    requires Leads(s, es, t) && Enabled(t, e)
    ensures Leads(s, es + [e], Next(t, e))
  {
    var u := Next(t, e);
    assert Leads(t, [e], u) by {
      assert [e][1..] == [];
    }
    Chain(s, es, t, [e], u);
  }

  // ----- the shared barrier, updated in place -----

  class Shared {
    const rounds: int
    const spurious: bool
    var mutex: int
    var counter: int
    var pc: seq<PC>
    var iter: seq<int>
    var round: int

    function Snapshot(): State
      reads this
    {
      State(mutex, counter, pc, iter, round, rounds, spurious)
    }

    constructor (threads: nat, rounds: nat, spurious: bool)
      requires threads >= 1
      ensures Init(Snapshot()) && |pc| == threads && Snapshot().rounds == rounds && Snapshot().spurious == spurious
    {
      this.rounds, this.spurious := rounds, spurious;
      mutex, counter, round := FREE, 0, 0;
      pc := seq(threads, _ => Loop);
      iter := seq(threads, _ => 0);
    }

    /** Thread i executes its next statement. */
    method Step(i: nat)
      requires Enabled(Snapshot(), Thread(i))
      modifies this
      ensures Snapshot() == Next(old(Snapshot()), Thread(i))
    {
      match pc[i] {
        case Loop => pc := pc[i := if iter[i] < rounds then Lock else Done];
        case Lock => mutex, pc := i, pc[i := Increment];
        case Increment => counter, pc := counter + 1, pc[i := Compare];
        case Compare => pc := pc[i := if counter == |pc| then Reset else Wait];
        case Reset => counter, pc := 0, pc[i := Broadcast]; round := round + 1;
        case Broadcast => pc := WakeAll(pc)[i := Unlock];
        case Wait => mutex, pc := FREE, pc[i := Blocked];
        case Relock => mutex, pc := i, pc[i := Unlock];
        case Unlock => mutex, iter, pc := FREE, iter[i := iter[i] + 1], pc[i := Loop];
      }
    }

    /** Run the threads under any schedule; an event that cannot happen is passed over. */
    method Run(schedule: seq<Event>) returns (ghost es: seq<Event>)
      requires Init(Snapshot())
      modifies this
      ensures Leads(old(Snapshot()), es, Snapshot())
      ensures !spurious ==> Inv(Snapshot()) && Separated(Snapshot())
    {
      es := [];
      for k := 0 to |schedule|
        invariant Leads(old(Snapshot()), es, Snapshot())
      {
        if Enabled(Snapshot(), schedule[k]) {
          LeadsAppend(old(Snapshot()), es, Snapshot(), schedule[k]);
          match schedule[k] {
            case Thread(i) => Step(i);
            case Wake(i) => pc := pc[i := Relock];
          }
          es := es + [schedule[k]];
        }
      }
      if !spurious {
        InitInv(old(Snapshot()));
        LeadsInv(old(Snapshot()), es, Snapshot());
        InvSeparated(Snapshot());
      }
    }
  }
}
