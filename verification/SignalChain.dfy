/**
 One signal that must reach every waiter: the signaller sets a flag and signals once, and each
 waiter that sees the flag signals again before it leaves. A signal wakes at most one thread; a
 blocked thread may also wake by itself.
 */
module SignalChain {
  const FREE := -1

  datatype WaiterPC =
    | Lock | Test | Wait | Blocked | Relock | Signal | Unlock | Done

  datatype SignallerPC =
    | SLock | SetActive | SSignal | SUnlock | SDone

  datatype State = State(active: bool, owner: int, sig: SignallerPC, pc: seq<WaiterPC>)

  /** A step of waiter i, of the signaller, or a waiter waking by itself; woken is whom a signal reaches. */
  datatype Event = Waiter(i: nat, woken: int) | Signaller(woken: int) | Wake(i: nat)

  ghost predicate Init(s: State) {
    !s.active && s.owner == FREE && s.sig == SLock && forall i :: 0 <= i < |s.pc| ==> s.pc[i] == Lock
  }

  /** pthread_cond_signal reaches some blocked thread if there is one. */
  predicate MayReach(pc: seq<WaiterPC>, woken: int) {
    if Blocked in pc then 0 <= woken < |pc| && pc[woken] == Blocked else woken == FREE
  }

  function Reach(pc: seq<WaiterPC>, woken: int): (r: seq<WaiterPC>)
    requires MayReach(pc, woken)
    ensures |r| == |pc|
  {
    if Blocked in pc then pc[woken := Relock] else pc
  }

  predicate Enabled(s: State, e: Event) {
    match e
    case Wake(i) => i < |s.pc| && s.pc[i] == Blocked
    case Waiter(i, woken) => i < |s.pc| &&
      (match s.pc[i]
       case Lock | Relock => s.owner == FREE
       case Signal => MayReach(s.pc, woken)
       case Blocked | Done => false
       case _ => true)
    case Signaller(woken) =>
      match s.sig
      case SLock => s.owner == FREE
      case SSignal => MayReach(s.pc, woken)
      case SDone => false
      case _ => true
  }

  function Next(s: State, e: Event): State
    requires Enabled(s, e)
  {
    match e
    case Wake(i) => s.(pc := s.pc[i := Relock])
    case Waiter(i, woken) => NextWaiter(s, i, woken)
    case Signaller(woken) => NextSignaller(s, woken)
  }

  function NextWaiter(s: State, i: nat, woken: int): State
    requires Enabled(s, Waiter(i, woken))
  {
    match s.pc[i]
    case Lock | Relock => s.(pc := s.pc[i := Test], owner := i)
    case Test => s.(pc := s.pc[i := if s.active then Signal else Wait])
    case Wait => s.(pc := s.pc[i := Blocked], owner := FREE)
    case Signal => s.(pc := Reach(s.pc, woken)[i := Unlock])
    case Unlock => s.(pc := s.pc[i := Done], owner := FREE)
  }

  function NextSignaller(s: State, woken: int): State
    requires Enabled(s, Signaller(woken))
  {
    match s.sig
    case SLock => s.(sig := SetActive, owner := |s.pc|)
    case SetActive => s.(sig := SSignal, active := true)
    case SSignal => s.(sig := SUnlock, pc := Reach(s.pc, woken))
    case SUnlock => s.(sig := SDone, owner := FREE)
  }

  ghost predicate Leads(s: State, es: seq<Event>, t: State)
    decreases |es|
  {
    if es == [] then s == t else Enabled(s, es[0]) && Leads(Next(s, es[0]), es[1..], t)
  }

  // ----- the invariant -----

  predicate Holds(p: WaiterPC) {
    p.Test? || p.Wait? || p.Signal? || p.Unlock?
  }

  /** Awake, and will signal before leaving. */
  predicate YetToSignal(p: WaiterPC) {
    p.Lock? || p.Test? || p.Relock? || p.Signal?
  }

  ghost predicate WaiterInv(s: State, i: nat)
    requires i < |s.pc|
  {
    && (Holds(s.pc[i]) <==> s.owner == i)
    && (s.pc[i] == Wait ==> !s.active)
    && (s.pc[i] == Signal || s.pc[i] == Unlock || s.pc[i] == Done ==> s.active)
  }

  ghost predicate SomeoneWillSignal(s: State) {
    exists i :: 0 <= i < |s.pc| && YetToSignal(s.pc[i])
  }

  ghost predicate Inv(s: State) {
    && FREE <= s.owner <= |s.pc|
    && (forall i :: 0 <= i < |s.pc| ==> WaiterInv(s, i))
    && (s.owner == |s.pc| <==> s.sig.SetActive? || s.sig.SSignal? || s.sig.SUnlock?)
    && (s.active <==> s.sig.SSignal? || s.sig.SUnlock? || s.sig.SDone?)
    && ((s.sig.SUnlock? || s.sig.SDone?) && Blocked in s.pc ==> SomeoneWillSignal(s))
  }

  lemma WaiterInvStep(s: State, e: Event, j: nat)
    requires Inv(s) && Enabled(s, e) && j < |s.pc|
    ensures |Next(s, e).pc| == |s.pc| && WaiterInv(Next(s, e), j)
  {
    assert WaiterInv(s, j);
    if e.Waiter? {
      assert WaiterInv(s, e.i);
    }
  }

  lemma ChainStep(s: State, e: Event)
    requires Inv(s) && Enabled(s, e)
    ensures var t := Next(s, e); (t.sig.SUnlock? || t.sig.SDone?) && Blocked in t.pc ==> SomeoneWillSignal(t)
  {
    var t := Next(s, e);
    match e
    case Wake(i) => assert YetToSignal(t.pc[i]);
    case Signaller(woken) =>
      if s.sig == SSignal && Blocked in s.pc {
        assert YetToSignal(t.pc[woken]);
      }
    case Waiter(i, woken) =>
      assert WaiterInv(s, i);
      if s.pc[i] == Signal {
        if Blocked in s.pc {
          assert YetToSignal(t.pc[woken]);
        }
      } else if (t.sig.SUnlock? || t.sig.SDone?) && Blocked in t.pc {
        assert Blocked in s.pc;
        var k :| 0 <= k < |s.pc| && YetToSignal(s.pc[k]);
        assert YetToSignal(t.pc[k]);
      }
  }

  lemma StepInv(s: State, e: Event)
    requires Inv(s) && Enabled(s, e)
    ensures Inv(Next(s, e)) && |Next(s, e).pc| == |s.pc|
  {
    forall j | 0 <= j < |s.pc| ensures |Next(s, e).pc| == |s.pc| && WaiterInv(Next(s, e), j) {
      WaiterInvStep(s, e, j);
    }
    ChainStep(s, e);
    if e.Waiter? {
      assert WaiterInv(s, e.i);
    }
  }

  lemma {:induction false} LeadsInv(s: State, es: seq<Event>, t: State)
    requires Inv(s) && Leads(s, es, t)
    ensures Inv(t) && |t.pc| == |s.pc|
    decreases |es|
  {
    if es != [] {
      StepInv(s, es[0]);
      LeadsInv(Next(s, es[0]), es[1..], t);
    }
  }

  // ----- what every run satisfies -----

  /** Once the one signal is out, a blocked waiter always has an awake one ahead of it that will signal. */
  lemma BlockedMeansSomeoneWillSignal(s: State, es: seq<Event>, t: State, i: nat)
    requires Init(s) && Leads(s, es, t) && i < |t.pc| && t.pc[i] == Blocked
    ensures t.active && t.sig != SSignal ==> SomeoneWillSignal(t)
  {
    LeadsInv(s, es, t);
  }

  /** Some thread can move other than by a spurious wakeup. */
  ghost predicate CanMove(s: State) {
    exists e :: Enabled(s, e) && !e.Wake?
  }

  lemma InvCanMove(s: State, i: nat)
    requires Inv(s) && (s.sig != SDone || (i < |s.pc| && s.pc[i] != Done))
    ensures CanMove(s)
  {
    var woken := if j: nat :| j < |s.pc| && s.pc[j] == Blocked then j else FREE;
    if s.owner == |s.pc| || (s.owner == FREE && s.sig == SLock) {
      assert Enabled(s, Signaller(woken));
    } else if s.owner != FREE {
      assert WaiterInv(s, s.owner);
      assert Enabled(s, Waiter(s.owner, woken));
    } else {
      assert WaiterInv(s, i);
      if s.pc[i] == Blocked {
        var k: nat :| k < |s.pc| && YetToSignal(s.pc[k]);
        assert WaiterInv(s, k);
        assert Enabled(s, Waiter(k, woken));
      } else {
        assert Enabled(s, Waiter(i, woken));
      }
    }
  }

  /** No run, with or without spurious wakeups, gets stuck while a thread has not finished. */
  lemma NobodyLeftBehind(s: State, es: seq<Event>, t: State)
    requires Init(s) && Leads(s, es, t)
    requires t.sig != SDone || exists i :: 0 <= i < |t.pc| && t.pc[i] != Done
    ensures CanMove(t)
  {
    LeadsInv(s, es, t);
    if t.sig != SDone {
      InvCanMove(t, 0);
    } else {
      var i :| 0 <= i < |t.pc| && t.pc[i] != Done;
      InvCanMove(t, i);
    }
  }

  // ----- without spurious wakeups every run ends -----

  ghost predicate NoWake(es: seq<Event>) {
    forall k :: 0 <= k < |es| ==> !es[k].Wake?
  }

  /** Only signals wake anybody, so whoever is awake again finds the flag set. */
  ghost predicate WokenBySignal(s: State) {
    forall i :: 0 <= i < |s.pc| && s.pc[i] == Relock ==> s.active
  }

  function WaiterRank(p: WaiterPC, active: bool): nat {
    match p
    case Lock => 9
    case Test => if active then 4 else 8
    case Wait => 7
    case Blocked => 6
    case Relock => 5
    case Signal => 3
    case Unlock => 2
    case Done => 0
  }

  function SignallerRank(p: SignallerPC): nat {
    match p
    case SLock => 4
    case SetActive => 3
    case SSignal => 2
    case SUnlock => 1
    case SDone => 0
  }

  ghost function Ranks(pc: seq<WaiterPC>, active: bool): (r: nat)
    ensures r <= 9 * |pc|
  {
    if pc == [] then 0 else WaiterRank(pc[0], active) + Ranks(pc[1..], active)
  }

  lemma {:induction false} RanksUpdate(pc: seq<WaiterPC>, i: nat, p: WaiterPC, active: bool)
    requires i < |pc|
    ensures Ranks(pc[i := p], active) == Ranks(pc, active) - WaiterRank(pc[i], active) + WaiterRank(p, active)
  {
    if i == 0 {
      assert pc[i := p][1..] == pc[1..];
    } else {
      assert pc[i := p][1..] == pc[1..][i - 1 := p];
      RanksUpdate(pc[1..], i - 1, p, active);
    }
  }

  lemma {:induction false} RanksActive(pc: seq<WaiterPC>)
    ensures Ranks(pc, true) <= Ranks(pc, false)
  {
    if pc != [] {
      RanksActive(pc[1..]);
    }
  }

  lemma RanksReach(pc: seq<WaiterPC>, woken: int, active: bool)
    requires MayReach(pc, woken)
    ensures Ranks(Reach(pc, woken), active) <= Ranks(pc, active)
  {
    if Blocked in pc {
      RanksUpdate(pc, woken, Relock, active);
    }
  }

  ghost function Rank(s: State): nat {
    Ranks(s.pc, s.active) + SignallerRank(s.sig)
  }

  lemma SignallerRankStep(s: State, woken: int)
    requires Enabled(s, Signaller(woken))
    ensures Rank(NextSignaller(s, woken)) < Rank(s)
  {
    hide Ranks, Reach;
    RanksActive(s.pc);
    if s.sig == SSignal {
      RanksReach(s.pc, woken, s.active);
    }
  }

  /** A waiter that signals loses more than the one it wakes gains. */
  lemma SignalRankStep(s: State, i: nat, woken: int)
    requires Enabled(s, Waiter(i, woken)) && s.pc[i] == Signal
    ensures Rank(NextWaiter(s, i, woken)) < Rank(s)
  {
    var pc := Reach(s.pc, woken);
    assert pc[i] == Signal;
    hide Ranks, Reach;
    RanksReach(s.pc, woken, s.active);
    RanksUpdate(pc, i, Unlock, s.active);
  }

  lemma WaiterRankStep(s: State, i: nat, woken: int)
    requires Enabled(s, Waiter(i, woken)) && WaiterInv(s, i) && WokenBySignal(s) && s.pc[i] != Signal
    ensures Rank(NextWaiter(s, i, woken)) < Rank(s)
  {
    hide Ranks;
    RanksUpdate(s.pc, i, NextWaiter(s, i, woken).pc[i], s.active);
  }

  lemma WokenStep(s: State, e: Event)
    requires Inv(s) && WokenBySignal(s) && Enabled(s, e) && !e.Wake?
    ensures WokenBySignal(Next(s, e))
  {
    if e.Waiter? {
      assert WaiterInv(s, e.i);
    }
  }

  lemma StepRank(s: State, e: Event)
    requires Inv(s) && WokenBySignal(s) && Enabled(s, e) && !e.Wake?
    ensures Rank(Next(s, e)) < Rank(s) && WokenBySignal(Next(s, e))
  {
    WokenStep(s, e);
    match e
    case Signaller(woken) =>
      hide Rank, NextSignaller, WokenBySignal;
      SignallerRankStep(s, woken);
    case Waiter(i, woken) =>
      assert WaiterInv(s, i);
      hide Rank, NextWaiter, WokenBySignal;
      if s.pc[i] == Signal {
        SignalRankStep(s, i, woken);
      } else {
        WaiterRankStep(s, i, woken);
      }
  }

  lemma {:induction false} RunLength(s: State, es: seq<Event>, t: State)
    requires Inv(s) && WokenBySignal(s) && Leads(s, es, t) && NoWake(es)
    ensures |es| <= Rank(s)
    decreases |es|
  {
    if es != [] {
      StepInv(s, es[0]);
      StepRank(s, es[0]);
      RunLength(Next(s, es[0]), es[1..], t);
    }
  }

  /** One signal frees everybody: each run is bounded, and one that cannot go on has finished every thread. */
  lemma EverybodyFinishes(s: State, es: seq<Event>, t: State)
    requires Init(s) && Leads(s, es, t) && NoWake(es)
    ensures |es| <= 9 * |s.pc| + 4
    ensures !CanMove(t) ==> t.sig == SDone && forall i :: 0 <= i < |t.pc| ==> t.pc[i] == Done
  {
    LeadsInv(s, es, t);
    RunLength(s, es, t);
    if !CanMove(t) && (t.sig != SDone || exists i :: 0 <= i < |t.pc| && t.pc[i] != Done) {
      NobodyLeftBehind(s, es, t);
    }
  }

  lemma {:induction false} LeadsAppend(s: State, es: seq<Event>, t: State, e: Event)
    requires Leads(s, es, t) && Enabled(t, e)
    ensures Leads(s, es + [e], Next(t, e))
    decreases |es|
  {
    if es == [] {
      assert (es + [e])[1..] == [];
    } else {
      assert (es + [e])[1..] == es[1..] + [e];
      LeadsAppend(Next(s, es[0]), es[1..], t, e);
    }
  }

  // ----- the shared signal, updated in place -----

  class Shared {
    var active: bool
    var mutex: int
    var sig: SignallerPC
    var pc: seq<WaiterPC>

    function Snapshot(): State
      reads this
    {
      State(active, mutex, sig, pc)
    }

    constructor (waiters: nat)
      ensures Init(Snapshot()) && |pc| == waiters
    {
      active, mutex, sig := false, FREE, SLock;
      pc := seq(waiters, _ => Lock);
    }

    method StepWaiter(i: nat, woken: int)
      requires Enabled(Snapshot(), Waiter(i, woken))
      modifies this
      ensures Snapshot() == NextWaiter(old(Snapshot()), i, woken)
    {
      match pc[i] {
        case Lock | Relock => mutex, pc := i, pc[i := Test];
        case Test => pc := pc[i := if active then Signal else Wait];
        case Wait => mutex, pc := FREE, pc[i := Blocked];
        case Signal => pc := Reach(pc, woken)[i := Unlock];
        case Unlock => mutex, pc := FREE, pc[i := Done];
      }
    }

    method StepSignaller(woken: int)
      requires Enabled(Snapshot(), Signaller(woken))
      modifies this
      ensures Snapshot() == NextSignaller(old(Snapshot()), woken)
    {
      match sig {
        case SLock => mutex, sig := |pc|, SetActive;
        case SetActive => active, sig := true, SSignal;
        case SSignal => pc, sig := Reach(pc, woken), SUnlock;
        case SUnlock => mutex, sig := FREE, SDone;
      }
    }

    /** Run all threads under any schedule; an event that cannot happen is passed over. */
    method Run(schedule: seq<Event>) returns (ghost es: seq<Event>)
      requires Init(Snapshot())
      modifies this
      ensures Leads(old(Snapshot()), es, Snapshot()) && Inv(Snapshot())
    {
      es := [];
      for k := 0 to |schedule|
        invariant Leads(old(Snapshot()), es, Snapshot())
      {
        if Enabled(Snapshot(), schedule[k]) {
          LeadsAppend(old(Snapshot()), es, Snapshot(), schedule[k]);
          match schedule[k] {
            case Waiter(i, woken) => StepWaiter(i, woken);
            case Signaller(woken) => StepSignaller(woken);
            case Wake(i) => pc := pc[i := Relock];
          }
          es := es + [schedule[k]];
        }
      }
      LeadsInv(old(Snapshot()), es, Snapshot());
    }
  }
}
