/**
 One producer and one consumer over the circular buffer: a mutex, two condition variables waited on
 in loops, and signals sent after the mutex is released. A blocked thread may also wake by itself.
 */
module ProducerConsumer {
  import opened RingBuffer

  datatype PC =
    | Loop | Lock | Test             // for; mutex; while (full) or while (empty)
    | Wait | Blocked | Relock        // pthread_cond_wait
    | Access | Unlock | Signal       // add or remove; mutex; signal the other side
    | Done

  datatype Side = Producer | Consumer

  datatype Owner = Free | By(side: Side)

  datatype State = State(
    ring: Ring,
    owner: Owner,
    p: PC,
    c: PC,
    made: int,          // the producer's i
    taken: int,         // the consumer's i
    items: seq<int>,    // what the producer will produce
    out: seq<int>)      // what the consumer has consumed

  datatype Event = Step(side: Side) | Wake(side: Side)

  ghost predicate Init(s: State) {
    && Valid(s.ring) && Contents(s.ring) == []
    && s.owner == Free && s.p == Loop && s.c == Loop && s.made == 0 && s.taken == 0 && s.out == []
  }

  function PcOf(s: State, side: Side): PC {
    if side == Producer then s.p else s.c
  }

  function Goto(s: State, side: Side, pc: PC): State {
    if side == Producer then s.(p := pc) else s.(c := pc)
  }

  /** The source's own demand on its queue operations: add to a buffer that is not full, remove from one that is not empty. */
  ghost predicate Enabled(s: State, e: Event) {
    match e
    case Wake(side) => PcOf(s, side) == Blocked
    case Step(side) =>
      match PcOf(s, side)
      case Lock | Relock => s.owner == Free
      case Access => Valid(s.ring) && (if side == Producer then !s.ring.full && 0 <= s.made < |s.items| else !s.ring.empty)
      case Blocked | Done => false
      case _ => true
  }

  ghost function Next(s: State, e: Event): State
    requires Enabled(s, e)
  {
    match e
    case Wake(side) => Goto(s, side, Relock)
    case Step(side) =>
      var i := if side == Producer then s.made else s.taken;
      var must := if side == Producer then s.ring.full else s.ring.empty;
      match PcOf(s, side)
      case Loop => Goto(s, side, if i < |s.items| then Lock else Done)
      case Lock | Relock => Goto(s, side, Test).(owner := By(side))
      case Test => Goto(s, side, if must then Wait else Access)
      case Wait => Goto(s, side, Blocked).(owner := Free)
      case Access =>
        if side == Producer then s.(p := Unlock, ring := Add(s.ring, s.items[s.made]))
        else s.(c := Unlock, ring := Remove(s.ring).0, out := s.out + [Remove(s.ring).1])
      case Unlock => Goto(s, side, Signal).(owner := Free)
      case Signal =>
        if side == Producer then s.(p := Loop, made := s.made + 1, c := if s.c == Blocked then Relock else s.c)
        else s.(c := Loop, taken := s.taken + 1, p := if s.p == Blocked then Relock else s.p)
  }

  ghost predicate Leads(s: State, es: seq<Event>, t: State)
    decreases |es|
  {
    if es == [] then s == t else Enabled(s, es[0]) && Leads(Next(s, es[0]), es[1..], t)
  }

  // ----- the invariant -----

  predicate Holds(p: PC) {
    p.Test? || p.Wait? || p.Access? || p.Unlock?
  }

  /** Has changed the buffer and still owes the other side a signal. */
  predicate Owes(p: PC) {
    p.Unlock? || p.Signal?
  }

  ghost predicate CountInv(pc: PC, i: int, n: int) {
    && 0 <= i <= n
    && (pc != Loop && pc != Done ==> i < n)
    && (pc == Done ==> i == n)
  }

  function Produced(s: State): int {
    s.made + if Owes(s.p) then 1 else 0
  }

  /** Consumed, then buffered, is what has been produced so far. */
  ghost predicate StreamInv(s: State) {
    && Valid(s.ring)
    && CountInv(s.p, s.made, |s.items|) && CountInv(s.c, s.taken, |s.items|)
    && |s.out| == s.taken + (if Owes(s.c) then 1 else 0)
    && s.out + Contents(s.ring) == s.items[..Produced(s)]
  }

  /** A blocked thread whose condition has come true is still owed a signal. */
  ghost predicate WakeInv(s: State) {
    && (s.owner == By(Producer) <==> Holds(s.p)) && (s.owner == By(Consumer) <==> Holds(s.c))
    && (s.p == Access ==> !s.ring.full) && (s.p == Wait ==> s.ring.full)
    && (s.c == Access ==> !s.ring.empty) && (s.c == Wait ==> s.ring.empty)
    && (s.p == Blocked && !s.ring.full ==> Owes(s.c))
    && (s.c == Blocked && !s.ring.empty ==> Owes(s.p))
  }

  ghost predicate Inv(s: State) {
    StreamInv(s) && WakeInv(s)
  }

  lemma Assoc(a: seq<int>, b: seq<int>, c: seq<int>)
    ensures (a + b) + c == a + (b + c)
  {
  }

  lemma AddStep(s: State)
    requires StreamInv(s) && Enabled(s, Step(Producer)) && s.p == Access
    ensures StreamInv(Next(s, Step(Producer)))
  {
    var t := Next(s, Step(Producer));
    assert s.items[..s.made + 1] == s.items[..s.made] + [s.items[s.made]];
    Assoc(s.out, Contents(s.ring), [s.items[s.made]]);
    assert t.out == s.out && Contents(t.ring) == Contents(s.ring) + [s.items[s.made]];
  }

  lemma RemoveStep(s: State)
    requires StreamInv(s) && Enabled(s, Step(Consumer)) && s.c == Access
    ensures StreamInv(Next(s, Step(Consumer)))
  {
    var t := Next(s, Step(Consumer));
    var item := Remove(s.ring).1;
    assert t.out == s.out + [item] && [item] + Contents(t.ring) == Contents(s.ring);
    Assoc(s.out, [item], Contents(t.ring));
  }

  /** Every other step leaves the stream alone. */
  lemma OtherStep(s: State, e: Event)
    requires Enabled(s, e) && (e.Step? ==> PcOf(s, e.side) != Access)
    ensures var t := Next(s, e);
      && t.ring == s.ring && t.out == s.out && t.items == s.items && Produced(t) == Produced(s)
      && t.taken + (if Owes(t.c) then 1 else 0) == s.taken + (if Owes(s.c) then 1 else 0)
  {
  }

  lemma CountStep(s: State, e: Event)
    requires Enabled(s, e) && (e.Step? ==> PcOf(s, e.side) != Access)
    requires CountInv(s.p, s.made, |s.items|) && CountInv(s.c, s.taken, |s.items|)
    ensures var t := Next(s, e); CountInv(t.p, t.made, |s.items|) && CountInv(t.c, t.taken, |s.items|)
  {
  }

  lemma StreamStep(s: State, e: Event)
    requires StreamInv(s) && Enabled(s, e)
    ensures StreamInv(Next(s, e))
  {
    if e == Step(Producer) && s.p == Access {
      AddStep(s);
    } else if e == Step(Consumer) && s.c == Access {
      RemoveStep(s);
    } else {
      OtherStep(s, e);
      CountStep(s, e);
    }
  }

  lemma WakeStep(s: State, e: Event)
    requires Inv(s) && Enabled(s, e)
    ensures WakeInv(Next(s, e))
  {
  }

  lemma {:induction false} LeadsInv(s: State, es: seq<Event>, t: State)
    requires Inv(s) && Leads(s, es, t)
    ensures Inv(t) && t.items == s.items && |t.ring.buffer| == |s.ring.buffer|
    decreases |es|
  {
    if es != [] {
      StreamStep(s, es[0]);
      WakeStep(s, es[0]);
      LeadsInv(Next(s, es[0]), es[1..], t);
    }
  }

  // ----- what every run satisfies -----

  /** What has been consumed is always a prefix of what has been produced; the rest is in the buffer. */
  lemma ConsumedInOrder(s: State, es: seq<Event>, t: State)
    requires Init(s) && Leads(s, es, t)
    ensures Valid(t.ring) && 0 <= Produced(t) <= |s.items|
    ensures t.out + Contents(t.ring) == s.items[..Produced(t)]
    ensures t.out <= s.items
  {
    LeadsInv(s, es, t);
    assert t.out == s.items[..|t.out|] by {
      assert t.out == (t.out + Contents(t.ring))[..|t.out|];
    }
  }

  /** The producer never adds to a full buffer and the consumer never removes from an empty one. */
  lemma AccessIsSafe(s: State, es: seq<Event>, t: State)
    requires Init(s) && Leads(s, es, t)
    ensures t.p == Access ==> Enabled(t, Step(Producer)) && t.owner == By(Producer)
    ensures t.c == Access ==> Enabled(t, Step(Consumer)) && t.owner == By(Consumer)
  {
    LeadsInv(s, es, t);
  }

  /** No wakeup is lost: nobody sleeps on a condition that holds unless the signal is still to come. */
  lemma NoLostWakeup(s: State, es: seq<Event>, t: State)
    requires Init(s) && Leads(s, es, t)
    ensures t.p == Blocked && !t.ring.full ==> Owes(t.c)
    ensures t.c == Blocked && !t.ring.empty ==> Owes(t.p)
  {
    LeadsInv(s, es, t);
  }

  /** Without help from spurious wakeups, no reachable state is stuck before both threads are done. */
  lemma NoDeadlock(s: State, es: seq<Event>, t: State)
    requires Init(s) && Leads(s, es, t) && !(t.p == Done && t.c == Done)
    ensures Enabled(t, Step(Producer)) || Enabled(t, Step(Consumer))
  {
    LeadsInv(s, es, t);
  }

  /** When both threads are done, everything was consumed, in order, and the buffer is empty. */
  lemma EverythingConsumed(s: State, es: seq<Event>, t: State)
    requires Init(s) && Leads(s, es, t) && t.p == Done && t.c == Done
    ensures t.out == s.items && t.ring.empty
  {
    LeadsInv(s, es, t);
    assert s.items[..|s.items|] == s.items;
    assert |Contents(t.ring)| == 0;
  }

  // ----- without spurious wakeups every run ends -----

  ghost predicate NoWake(es: seq<Event>) {
    forall k :: 0 <= k < |es| ==> !es[k].Wake?
  }

  function PcRank(p: PC): nat {
    match p
    case Loop => 6
    case Lock | Relock => 5
    case Test => 4
    case Wait | Access => 3
    case Blocked | Unlock => 2
    case Signal => 1
    case Done => 0
  }

  /** An item still to come pays for one wakeup of the other side. */
  ghost function Rank(s: State): int {
    9 * (|s.items| - s.made) + PcRank(s.p) + 9 * (|s.items| - s.taken) + PcRank(s.c)
  }

  lemma StepRank(s: State, e: Event)
    requires Enabled(s, e) && !e.Wake?
    ensures Rank(Next(s, e)) < Rank(s) && Next(s, e).items == s.items
  {
  }

  lemma {:induction false} RunLength(s: State, es: seq<Event>, t: State)
    requires Leads(s, es, t) && NoWake(es)
    ensures |es| <= Rank(s) - Rank(t)
    decreases |es|
  {
    if es != [] {
      StepRank(s, es[0]);
      RunLength(Next(s, es[0]), es[1..], t);
    }
  }

  /** Each run is at most 18 steps per item and 12 more long, and one that cannot go on has consumed everything. */
  lemma EveryRunEnds(s: State, es: seq<Event>, t: State)
    requires Init(s) && Leads(s, es, t) && NoWake(es)
    ensures |es| <= 18 * |s.items| + 12
    ensures !Enabled(t, Step(Producer)) && !Enabled(t, Step(Consumer)) ==> t.p == Done && t.c == Done && t.out == s.items
  {
    LeadsInv(s, es, t);
    RunLength(s, es, t);
    if !Enabled(t, Step(Producer)) && !Enabled(t, Step(Consumer)) {
      if !(t.p == Done && t.c == Done) {
        NoDeadlock(s, es, t);
      }
      EverythingConsumed(s, es, t);
    }
  }

  lemma {:induction false} LeadsAppend(s: State, es: seq<Event>, t: State, e: Event)
    requires Leads(s, es, t) && Enabled(t, e)
    ensures Leads(s, es + [e], Next(t, e))
    decreases |es|
  {
    if es == [] {
      assert (es + [e])[1..] == [];
    } else {
      assert (es + [e])[1..] == es[1..] + [e];
      LeadsAppend(Next(s, es[0]), es[1..], t, e);
    }
  }

  // ----- the threads, over the queue updated in place -----

  class Threads {
    const queue: Queue
    const items: seq<int>
    var lock: Owner
    var p: PC
    var c: PC
    var made: int
    var taken: int
    var out: seq<int>

    ghost function Snapshot(): State
      reads this, queue, queue.buffer
    {
      State(queue.Snapshot(), lock, p, c, made, taken, items, out)
    }

    constructor (size: nat, items: seq<int>)
      requires size >= 1
      ensures Init(Snapshot()) && Snapshot().items == items && queue.buffer.Length == size
      ensures fresh(queue) && fresh(queue.buffer)
    {
      queue := new Queue(size);
      this.items := items;
      lock, p, c, made, taken, out := Free, Loop, Loop, 0, 0, [];
    }

    method StepProducer()
      requires Enabled(Snapshot(), Step(Producer))
      modifies this, queue, queue.buffer
      ensures Snapshot() == Next(old(Snapshot()), Step(Producer))
    {
      match p {
        case Loop => p := if made < |items| then Lock else Done;
        case Lock | Relock => lock, p := By(Producer), Test;
        case Test => p := if queue.full then Wait else Access;
        case Wait => lock, p := Free, Blocked;
        case Access => queue.AddToQueue(items[made]); p := Unlock;
        case Unlock => lock, p := Free, Signal;
        case Signal =>
          if c == Blocked {
            c := Relock;
          }
          made, p := made + 1, Loop;
      }
    }

    method StepConsumer()
      requires Enabled(Snapshot(), Step(Consumer))
      modifies this, queue
      ensures Snapshot() == Next(old(Snapshot()), Step(Consumer))
    {
      match c {
        case Loop => c := if taken < |items| then Lock else Done;
        case Lock | Relock => lock, c := By(Consumer), Test;
        case Test => c := if queue.empty then Wait else Access;
        case Wait => lock, c := Free, Blocked;
        case Access =>
          var item := queue.RemoveFromQueue();
          out, c := out + [item], Unlock;
        case Unlock => lock, c := Free, Signal;
        case Signal =>
          if p == Blocked {
            p := Relock;
          }
          taken, c := taken + 1, Loop;
      }
    }

    /** Whether a side can execute its next statement; where it could not access the buffer is never reached. */
    method CanStep(side: Side) returns (b: bool)
      requires Inv(Snapshot())
      ensures b == Enabled(Snapshot(), Step(side))
    {
      match if side == Producer then p else c {
        case Lock | Relock => b := lock == Free;
        case Blocked | Done => b := false;
        case _ => b := true;
      }
    }

    /** One statement of one side, or a blocked side waking by itself; an event that cannot happen is passed over. */
    method Try(e: Event) returns (ok: bool)
      requires Inv(Snapshot())
      modifies this, queue, queue.buffer
      ensures ok <==> Enabled(old(Snapshot()), e)
      ensures Snapshot() == if ok then Next(old(Snapshot()), e) else old(Snapshot())
    {
      match e {
        case Step(side) =>
          ok := CanStep(side);
          if ok && side == Producer {
            StepProducer();
          } else if ok {
            StepConsumer();
          }
        case Wake(side) =>
          ok := (if side == Producer then p else c) == Blocked;
          if ok && side == Producer {
            p := Relock;
          } else if ok {
            c := Relock;
          }
      }
    }

    /** Run both threads under any schedule. */
    method Run(schedule: seq<Event>) returns (ghost es: seq<Event>)
      requires Init(Snapshot())
      modifies this, queue, queue.buffer
      ensures Leads(old(Snapshot()), es, Snapshot())
      ensures Inv(Snapshot()) && out <= items
    {
      es := [];
      for k := 0 to |schedule|
        invariant Leads(old(Snapshot()), es, Snapshot()) && Inv(Snapshot())
      {
        ghost var s := Snapshot();
        var ok := Try(schedule[k]);
        if ok {
          LeadsAppend(old(Snapshot()), es, s, schedule[k]);
          es := es + [schedule[k]];
          LeadsInv(old(Snapshot()), es, Snapshot());
        }
      }
      ConsumedInOrder(old(Snapshot()), es, Snapshot());
    }
  }
}
