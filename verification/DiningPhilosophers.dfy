/**
 The dining philosophers: a flag and a mutex per chopstick, a meal counter behind its own
 mutex, and a loop test that reads that counter without the mutex.

 A philosopher is a program counter into a fixed program (OpAt, Succ), one instruction for each
 statement that touches shared memory. Mutex j holds the index of the philosopher that locked it,
 or FREE.
 */
module DiningPhilosophers {
  import opened SeqMath

  const FREE := -1

  datatype PC =
    | Test                                            // while (curr_num_meals < MAX)
    | LockL | CheckL | TakeL | DropLockL              // try the left chopstick
    | LockR | CheckR | TakeR | DropLockR              // try the right chopstick
    | Eat | LockMeals | AddMeal | UnlockMeals         // two meal counters
    | RelockL | RelockR | FreeL | FreeR | UnlockL | UnlockR  // give both back, nested locks
    | BusyR | GiveUpLock | GiveUpFree | GiveUpUnlock  // right chopstick unavailable
    | BusyL                                           // left chopstick unavailable
    | Done

  datatype Side = Left | Right

  datatype Op =
    | TestMeals
    | Lock(side: Side)
    | Unlock(side: Side)
    | TestChop(side: Side)
    | SetChop(side: Side, flag: int)
    | CountMeal
    | LockTotal
    | AddTotal
    | UnlockTotal
    | Exit

  function OpAt(p: PC): Op {
    match p
    case Test => TestMeals
    case LockL | RelockL | GiveUpLock => Lock(Left)
    case LockR | RelockR => Lock(Right)
    case DropLockL | UnlockL | GiveUpUnlock | BusyL => Unlock(Left)
    case DropLockR | UnlockR | BusyR => Unlock(Right)
    case CheckL => TestChop(Left)
    case CheckR => TestChop(Right)
    case TakeL => SetChop(Left, 0)
    case TakeR => SetChop(Right, 0)
    case FreeL | GiveUpFree => SetChop(Left, 1)
    case FreeR => SetChop(Right, 1)
    case Eat => CountMeal
    case LockMeals => LockTotal
    case AddMeal => AddTotal
    case UnlockMeals => UnlockTotal
    case Done => Exit
  }

  /** Where control goes next; ok is the outcome of a test and is ignored elsewhere. */
  function Succ(p: PC, ok: bool): PC {
    match p
    case Test => if ok then LockL else Done
    case LockL => CheckL
    case CheckL => if ok then TakeL else BusyL
    case TakeL => DropLockL
    case DropLockL => LockR
    case LockR => CheckR
    case CheckR => if ok then TakeR else BusyR
    case TakeR => DropLockR
    case DropLockR => Eat
    case Eat => LockMeals
    case LockMeals => AddMeal
    case AddMeal => UnlockMeals
    case UnlockMeals => RelockL
    case RelockL => RelockR
    case RelockR => FreeL
    case FreeL => FreeR
    case FreeR => UnlockL
    case UnlockL => UnlockR
    case UnlockR => Test
    case BusyR => GiveUpLock
    case GiveUpLock => GiveUpFree
    case GiveUpFree => GiveUpUnlock
    case GiveUpUnlock => Test
    case BusyL => Test
    case Done => Done
  }

  datatype State = State(
    chop: seq<int>,       // chopstick[]: 1 free, 0 in use
    owner: seq<int>,      // chopstick_lock[]
    pc: seq<PC>,
    meals: seq<int>,      // num_meals_consumed[]
    total: int,           // curr_num_meals
    mealOwner: int,       // curr_num_meals_lock
    max: int)             // MAX_NUM_MEALS

  function RightOf(n: nat, i: nat): (r: nat)
    requires i < n
    ensures r < n
  {
    if i + 1 == n then 0 else i + 1
  }

  /** The program writes the right neighbour as (i + 1) % NUM_PHILOSOPHERS. */
  lemma RightIsModulo(n: nat, i: nat)
    requires i < n
    ensures RightOf(n, i) == (i + 1) % n
  {
  }

  function LeftOf(n: nat, j: nat): (l: nat)
    requires j < n
    ensures l < n && RightOf(n, l) == j && (n >= 2 ==> l != j)
  {
    if j == 0 then n - 1 else j - 1
  }

  function At(n: nat, i: nat, side: Side): (j: nat)
    requires i < n
    ensures j < n
  {
    if side == Left then i else RightOf(n, i)
  }

  predicate Shaped(s: State) {
    |s.pc| == |s.chop| == |s.owner| == |s.meals| && |s.pc| >= 2
  }

  ghost predicate Init(s: State) {
    && Shaped(s) && s.max >= 0
    && s.total == 0 && s.mealOwner == FREE
    && forall i :: 0 <= i < |s.pc| ==> s.chop[i] == 1 && s.owner[i] == FREE && s.pc[i] == Test && s.meals[i] == 0
  }

  predicate Enabled(s: State, i: nat) {
    && Shaped(s) && i < |s.pc|
    && match OpAt(s.pc[i])
       case Exit => false
       case Lock(side) => s.owner[At(|s.pc|, i, side)] == FREE
       case LockTotal => s.mealOwner == FREE
       case _ => true
  }

  /** Philosopher i executes one instruction. */
  function Next(s: State, i: nat): State
    requires Enabled(s, i)
  {
    var n, p := |s.pc|, s.pc[i];
    match OpAt(p)
    case TestMeals => s.(pc := s.pc[i := Succ(p, s.total < s.max)])
    case TestChop(side) => s.(pc := s.pc[i := Succ(p, s.chop[At(n, i, side)] == 1)])
    case Lock(side) => s.(pc := s.pc[i := Succ(p, true)], owner := s.owner[At(n, i, side) := i])
    case Unlock(side) => s.(pc := s.pc[i := Succ(p, true)], owner := s.owner[At(n, i, side) := FREE])
    case SetChop(side, flag) => s.(pc := s.pc[i := Succ(p, true)], chop := s.chop[At(n, i, side) := flag])
    case CountMeal => s.(pc := s.pc[i := Succ(p, true)], meals := s.meals[i := s.meals[i] + 1])
    case LockTotal => s.(pc := s.pc[i := Succ(p, true)], mealOwner := i)
    case AddTotal => s.(pc := s.pc[i := Succ(p, true)], total := s.total + 1)
    case UnlockTotal => s.(pc := s.pc[i := Succ(p, true)], mealOwner := FREE)
  }

  /** t is reached from s when the philosophers listed in who step in that order. */
  ghost predicate Leads(s: State, who: seq<nat>, t: State)
    decreases |who|
  {
    if who == [] then s == t else Enabled(s, who[0]) && Leads(Next(s, who[0]), who[1..], t)
  }

  // ----- who owns what, by program counter -----

  /** Owns both chopsticks, from taking the right one to having both mutexes again. */
  predicate Eating(p: PC) {
    p.DropLockR? || p.Eat? || p.LockMeals? || p.AddMeal? || p.UnlockMeals? || p.RelockL? || p.RelockR? || p.FreeL?
  }

  predicate OwnsL(p: PC) {
    p.DropLockL? || p.LockR? || p.CheckR? || p.TakeR? || p.BusyR? || p.GiveUpLock? || p.GiveUpFree? || Eating(p)
  }

  predicate OwnsR(p: PC) {
    Eating(p) || p.FreeR?
  }

  predicate LocksL(p: PC) {
    p.CheckL? || p.TakeL? || p.DropLockL? || p.BusyL? || p.RelockR? || p.FreeL? || p.FreeR? || p.UnlockL?
    || p.GiveUpFree? || p.GiveUpUnlock?
  }

  predicate LocksR(p: PC) {
    p.CheckR? || p.TakeR? || p.DropLockR? || p.BusyR? || p.FreeL? || p.FreeR? || p.UnlockL? || p.UnlockR?
  }

  predicate LocksMeals(p: PC) {
    p.AddMeal? || p.UnlockMeals?
  }

  /** Mutex j is held by the philosopher on one of its two sides, or by nobody. */
  ghost predicate LockInv(s: State, j: nat)
    requires Shaped(s) && j < |s.pc|
  {
    var l := LeftOf(|s.pc|, j);
    && s.owner[j] == (if LocksL(s.pc[j]) then j else if LocksR(s.pc[l]) then l else FREE)
    && !(LocksL(s.pc[j]) && LocksR(s.pc[l]))
  }

  /** Flag j is 0 exactly when one of the two neighbours owns chopstick j. */
  ghost predicate ChopInv(s: State, j: nat)
    requires Shaped(s) && j < |s.pc|
  {
    var l := LeftOf(|s.pc|, j);
    && s.chop[j] == (if OwnsL(s.pc[j]) || OwnsR(s.pc[l]) then 0 else 1)
    && !(OwnsL(s.pc[j]) && OwnsR(s.pc[l]))
    && !(s.pc[j] == TakeL && OwnsR(s.pc[l]))
    && !(s.pc[l] == TakeR && OwnsL(s.pc[j]))
  }

  ghost predicate MealLockInv(s: State) {
    forall i :: 0 <= i < |s.pc| ==> (LocksMeals(s.pc[i]) <==> s.mealOwner == i)
  }

  ghost predicate OwnershipInv(s: State) {
    && Shaped(s)
    && (forall j :: 0 <= j < |s.pc| ==> LockInv(s, j))
    && (forall j :: 0 <= j < |s.pc| ==> ChopInv(s, j))
    && MealLockInv(s) && FREE <= s.mealOwner < |s.pc|
  }

  /** A step of i changes only i's program counter and the mutexes and flags on its two sides. */
  lemma StepFrame(s: State, i: nat)
    requires Enabled(s, i)
    ensures var t := Next(s, i);
      && Shaped(t) && |t.pc| == |s.pc| && t.pc == s.pc[i := t.pc[i]]
      && forall j :: 0 <= j < |s.pc| && j != i && j != RightOf(|s.pc|, i) ==> t.owner[j] == s.owner[j] && t.chop[j] == s.chop[j]
  {
  }

  lemma FarAway(s: State, t: State, i: nat, j: nat)
    requires Shaped(s) && Shaped(t) && i < |s.pc| == |t.pc| && t.pc == s.pc[i := t.pc[i]]
    requires j < |s.pc| && j != i && j != RightOf(|s.pc|, i)
    requires t.owner[j] == s.owner[j] && t.chop[j] == s.chop[j]
    requires LockInv(s, j) && ChopInv(s, j)
    ensures LockInv(t, j) && ChopInv(t, j)
  {
    assert LeftOf(|s.pc|, j) != i;
  }

  lemma LeftLock(s: State, i: nat)
    requires Enabled(s, i) && LockInv(s, i)
    ensures Shaped(Next(s, i)) && |Next(s, i).pc| == |s.pc| && LockInv(Next(s, i), i)
  {
  }

  lemma LeftChop(s: State, i: nat)
    requires Enabled(s, i) && LockInv(s, i) && ChopInv(s, i)
    ensures Shaped(Next(s, i)) && |Next(s, i).pc| == |s.pc| && ChopInv(Next(s, i), i)
  {
  }

  lemma RightLock(s: State, i: nat)
    requires Enabled(s, i) && LockInv(s, RightOf(|s.pc|, i))
    ensures Shaped(Next(s, i)) && |Next(s, i).pc| == |s.pc| && LockInv(Next(s, i), RightOf(|s.pc|, i))
  {
    assert LeftOf(|s.pc|, RightOf(|s.pc|, i)) == i;
  }

  lemma RightChop(s: State, i: nat)
    requires Enabled(s, i) && LockInv(s, RightOf(|s.pc|, i)) && ChopInv(s, RightOf(|s.pc|, i))
    ensures Shaped(Next(s, i)) && |Next(s, i).pc| == |s.pc| && ChopInv(Next(s, i), RightOf(|s.pc|, i))
  {
    assert LeftOf(|s.pc|, RightOf(|s.pc|, i)) == i;
  }

  lemma MealLockStep(s: State, i: nat)
    requires OwnershipInv(s) && Enabled(s, i)
    ensures MealLockInv(Next(s, i)) && FREE <= Next(s, i).mealOwner < |s.pc|
  {
  }

  lemma OwnershipStep(s: State, i: nat)
    requires OwnershipInv(s) && Enabled(s, i)
    ensures OwnershipInv(Next(s, i))
  {
    var t := Next(s, i);
    StepFrame(s, i);
    LeftLock(s, i); LeftChop(s, i); RightLock(s, i); RightChop(s, i); MealLockStep(s, i);
    forall j | 0 <= j < |s.pc| && j != i && j != RightOf(|s.pc|, i) ensures LockInv(t, j) && ChopInv(t, j) {
      FarAway(s, t, i, j);
    }
  }

  // ----- no deadlock -----

  predicate Blocked(s: State, i: nat) {
    Shaped(s) && i < |s.pc| && s.pc[i] != Done && !Enabled(s, i)
  }

  /** The philosopher holding the mutex that i waits for. */
  function Blocker(s: State, i: nat): int
    requires Blocked(s, i)
  {
    match OpAt(s.pc[i])
    case Lock(side) => s.owner[At(|s.pc|, i, side)]
    case _ => s.mealOwner
  }

  /** Only a philosopher that owns both chopsticks waits for a mutex while holding one. */
  lemma WaitingWhileHolding(s: State, i: nat)
    requires OwnershipInv(s) && Blocked(s, i) && (LocksL(s.pc[i]) || LocksR(s.pc[i]) || LocksMeals(s.pc[i]))
    ensures s.pc[i] == RelockR
  {
  }

  lemma BlockerHolds(s: State, i: nat)
    requires OwnershipInv(s) && Blocked(s, i)
    ensures var k := Blocker(s, i);
      && 0 <= k < |s.pc| && k != i && s.pc[k] != Done
      && (LocksL(s.pc[k]) || LocksR(s.pc[k]) || LocksMeals(s.pc[k]))
      && (s.pc[i] == RelockR ==> k == RightOf(|s.pc|, i) && LocksL(s.pc[k]) && !OwnsL(s.pc[k]))
  {
    var n := |s.pc|;
    assert LockInv(s, i) && LockInv(s, RightOf(n, i)) && ChopInv(s, RightOf(n, i));
    assert LeftOf(n, RightOf(n, i)) == i;
  }

  /**
   Every waits-for chain ends after at most two hops at a philosopher that can move, so no set of
   philosophers can wait for each other in a cycle.
   */
  lemma WaitChainsEnd(s: State, i: nat)
    requires OwnershipInv(s) && Blocked(s, i)
    ensures var k := Blocker(s, i);
      && 0 <= k < |s.pc| && k != i
      && (Enabled(s, k) || (Blocked(s, k) && 0 <= Blocker(s, k) < |s.pc| && Enabled(s, Blocker(s, k))))
  {
    BlockerHolds(s, i);
    var k := Blocker(s, i);
    if Blocked(s, k) {
      WaitingWhileHolding(s, k);
      BlockerHolds(s, k);
      var m := Blocker(s, k);
      if Blocked(s, m) {
        WaitingWhileHolding(s, m);
      }
    }
  }

  // ----- meals -----

  /** Counted in num_meals_consumed, not yet in curr_num_meals. */
  predicate Owing(p: PC) {
    p.LockMeals? || p.AddMeal?
  }

  /** Passed the loop test and may still add to curr_num_meals before the next test. */
  predicate Committed(p: PC) {
    p.LockL? || p.CheckL? || p.TakeL? || p.DropLockL? || p.LockR? || p.CheckR? || p.TakeR? || p.DropLockR? || p.Eat?
    || Owing(p)
  }

  ghost predicate MealInv(s: State) {
    && Shaped(s)
    && Sum(s.meals) == s.total + Count(s.pc, Owing)
    && s.total + Count(s.pc, Committed) <= s.max + |s.pc| - 1
    && ((exists i :: 0 <= i < |s.pc| && s.pc[i] == Done) ==> s.total >= s.max)
  }

  lemma MealSumStep(s: State, i: nat)
    requires Enabled(s, i) && Sum(s.meals) == s.total + Count(s.pc, Owing)
    ensures Sum(Next(s, i).meals) == Next(s, i).total + Count(Next(s, i).pc, Owing)
  {
    CountUpdate(s.pc, i, Next(s, i).pc[i], Owing);
    SumUpdate(s.meals, i, s.meals[i] + 1);
  }

  lemma MealBoundStep(s: State, i: nat)
    requires Enabled(s, i) && s.total + Count(s.pc, Committed) <= s.max + |s.pc| - 1
    ensures Next(s, i).total + Count(Next(s, i).pc, Committed) <= s.max + |s.pc| - 1
  {
    hide Count;
    CountUpdate(s.pc, i, Next(s, i).pc[i], Committed);
    CountBound(Next(s, i).pc, Committed);
  }

  lemma MealStep(s: State, i: nat)
    requires MealInv(s) && Enabled(s, i)
    ensures MealInv(Next(s, i))
  {
    StepFrame(s, i);
    MealSumStep(s, i);
    MealBoundStep(s, i);
  }

  // ----- whole runs -----

  ghost predicate Inv(s: State) {
    OwnershipInv(s) && MealInv(s)
  }

  lemma InitInv(s: State)
    requires Init(s)
    ensures Inv(s)
  {
    forall j | 0 <= j < |s.pc| ensures LockInv(s, j) && ChopInv(s, j) {
    }
    SumZero(s.meals);
    CountBound(s.pc, Owing);
    CountBound(s.pc, Committed);
  }

  lemma {:induction false} LeadsInv(s: State, who: seq<nat>, t: State)
    requires Inv(s) && Leads(s, who, t)
    ensures Inv(t) && |t.pc| == |s.pc| && t.max == s.max
    decreases |who|
  {
    if who != [] {
      OwnershipStep(s, who[0]);
      MealStep(s, who[0]);
      StepFrame(s, who[0]);
      LeadsInv(Next(s, who[0]), who[1..], t);
    }
  }

  /** In every reachable state two neighbours never both own their two chopsticks. */
  lemma NeighboursNeverBothEat(s: State, who: seq<nat>, t: State, i: nat)
    requires Init(s) && Leads(s, who, t) && i < |t.pc|
    ensures !(Eating(t.pc[i]) && Eating(t.pc[RightOf(|t.pc|, i)]))
  {
    InitInv(s);
    LeadsInv(s, who, t);
    assert ChopInv(t, RightOf(|t.pc|, i)) && LeftOf(|t.pc|, RightOf(|t.pc|, i)) == i;
  }

  /** A chopstick's flag is 0 exactly when one, and then only one, of its neighbours owns it. */
  lemma FlagsMatchOwners(s: State, who: seq<nat>, t: State, j: nat)
    requires Init(s) && Leads(s, who, t) && j < |t.pc|
    ensures var l := LeftOf(|t.pc|, j);
      && Shaped(t)
      && (t.chop[j] == 0 <==> OwnsL(t.pc[j]) || OwnsR(t.pc[l]))
      && !(OwnsL(t.pc[j]) && OwnsR(t.pc[l]))
  {
    InitInv(s);
    LeadsInv(s, who, t);
    assert ChopInv(t, j);
  }

  /** No reachable state is stuck: while somebody has not left, somebody can move. */
  lemma NoDeadlock(s: State, who: seq<nat>, t: State, i: nat)
    requires Init(s) && Leads(s, who, t) && i < |t.pc| && t.pc[i] != Done
    ensures exists k: nat :: Enabled(t, k)
  {
    InitInv(s);
    LeadsInv(s, who, t);
    if Blocked(t, i) {
      WaitChainsEnd(t, i);
    }
  }

  /** The per-philosopher meals always sum to the shared counter plus the increments under way. */
  lemma MealsAddUp(s: State, who: seq<nat>, t: State)
    requires Init(s) && Leads(s, who, t)
    ensures Sum(t.meals) == t.total + Count(t.pc, Owing)
  {
    InitInv(s);
    LeadsInv(s, who, t);
  }

  /** When everybody has left, the unlocked test has let at most N - 1 extra meals through. */
  lemma FinalMeals(s: State, who: seq<nat>, t: State)
    requires Init(s) && Leads(s, who, t)
    requires forall i :: 0 <= i < |t.pc| ==> t.pc[i] == Done
    ensures s.max <= Sum(t.meals) <= s.max + |s.pc| - 1
  {
    InitInv(s);
    LeadsInv(s, who, t);
    CountBound(t.pc, Owing);
    assert |t.pc| >= 2 && t.pc[0] == Done;
  }

  lemma {:induction false} LeadsAppend(s: State, who: seq<nat>, t: State, i: nat)
    requires Leads(s, who, t) && Enabled(t, i)
    ensures Leads(s, who + [i], Next(t, i))
    decreases |who|
  {
    if who == [] {
      assert (who + [i])[1..] == [];
    } else {
      assert (who + [i])[1..] == who[1..] + [i];
      LeadsAppend(Next(s, who[0]), who[1..], t, i);
    }
  }

  lemma {:induction false} Chain(s: State, who: seq<nat>, m: State, more: seq<nat>, t: State)
    requires Leads(s, who, m) && Leads(m, more, t)
    ensures Leads(s, who + more, t)
    decreases |who|
  {
    if who == [] {
      assert who + more == more;
    } else {
      assert (who + more)[1..] == who[1..] + more;
      Chain(Next(s, who[0]), who[1..], m, more, t);
    }
  }

  lemma Prepend(s: State, i: nat, more: seq<nat>, t: State)
    requires Enabled(s, i) && Leads(Next(s, i), more, t)
    ensures Leads(s, [i] + more, t)
  {
    assert ([i] + more)[1..] == more;
  }

  // ----- every reachable state can still be brought to an end -----

  /** Outside one turn of the loop: holds nothing. */
  predicate Quiet(p: PC) {
    p.Test? || p.Done?
  }

  /** The most statements there are to the end of this turn of the loop. */
  function Distance(p: PC): nat {
    match p
    case Test | Done => 0
    case LockL => 18
    case CheckL => 17
    case TakeL => 16
    case DropLockL => 15
    case LockR => 14
    case CheckR => 13
    case TakeR => 12
    case DropLockR => 11
    case Eat => 10
    case LockMeals => 9
    case AddMeal => 8
    case UnlockMeals => 7
    case RelockL => 6
    case RelockR => 5
    case FreeL => 4
    case FreeR => 3
    case UnlockL => 2
    case UnlockR => 1
    case BusyR => 4
    case GiveUpLock => 3
    case GiveUpFree => 2
    case GiveUpUnlock | BusyL => 1
  }

  ghost function Distances(pc: seq<PC>): nat {
    if pc == [] then 0 else Distance(pc[0]) + Distances(pc[1..])
  }

  lemma {:induction false} DistancesUpdate(pc: seq<PC>, i: nat, p: PC)
    requires i < |pc|
    ensures Distances(pc[i := p]) == Distances(pc) - Distance(pc[i]) + Distance(p)
  {
    if i == 0 {
      assert pc[i := p][1..] == pc[1..];
    } else {
      assert pc[i := p][1..] == pc[1..][i - 1 := p];
      DistancesUpdate(pc[1..], i - 1, p);
    }
  }

  lemma StepInv(s: State, i: nat)
    requires Inv(s) && Enabled(s, i)
    ensures Inv(Next(s, i)) && |Next(s, i).pc| == |s.pc| && Next(s, i).max == s.max
    ensures Next(s, i).pc == s.pc[i := Next(s, i).pc[i]] && Next(s, i).total >= s.total
  {
    OwnershipStep(s, i);
    MealStep(s, i);
    StepFrame(s, i);
  }

  lemma TurnGoesOn(s: State, i: nat)
    requires Enabled(s, i) && !Quiet(s.pc[i])
    ensures |Next(s, i).pc| == |s.pc| && Distance(Next(s, i).pc[i]) < Distance(s.pc[i])
  {
  }

  /** While somebody is inside a turn of the loop, somebody inside one can move. */
  lemma SomebodyInside(s: State, i: nat) returns (k: nat)
    requires Inv(s) && i < |s.pc| && !Quiet(s.pc[i])
    ensures Enabled(s, k) && !Quiet(s.pc[k])
  {
    k := i;
    if Blocked(s, k) {
      BlockerHolds(s, k);
      WaitChainsEnd(s, k);
      k := Blocker(s, k);
      if Blocked(s, k) {
        BlockerHolds(s, k);
        k := Blocker(s, k);
      }
    }
  }

  ghost predicate AllQuiet(s: State) {
    Shaped(s) && forall i :: 0 <= i < |s.pc| ==> Quiet(s.pc[i])
  }

  /** Everybody can be brought to the loop test. */
  lemma {:induction false} Settle(s: State) returns (who: seq<nat>, t: State)
    requires Inv(s)
    ensures Leads(s, who, t) && Inv(t) && AllQuiet(t) && |t.pc| == |s.pc| && t.max == s.max && t.total >= s.total
    decreases Distances(s.pc)
  {
    hide Next, Enabled, Inv, Quiet;
    if AllQuiet(s) {
      who, t := [], s;
    } else {
      InvShaped(s);
      var i: nat :| i < |s.pc| && !Quiet(s.pc[i]);
      var k := SomebodyInside(s, i);
      EnabledBound(s, k);
      StepInv(s, k);
      TurnGoesOn(s, k);
      DistancesUpdate(s.pc, k, Next(s, k).pc[k]);
      who, t := Settle(Next(s, k));
      Prepend(s, k, who, t);
      who := [k] + who;
    }
  }

  lemma InvShaped(s: State)
    requires Inv(s)
    ensures OwnershipInv(s) && Shaped(s)
  {
  }

  lemma EnabledBound(s: State, i: nat)
    requires Enabled(s, i)
    ensures i < |s.pc|
  {
  }

  ghost predicate OnlyInside(s: State, i: nat) {
    Shaped(s) && i < |s.pc| && forall j :: 0 <= j < |s.pc| && j != i ==> Quiet(s.pc[j])
  }

  /** A philosopher who is alone in the loop waits for nobody. */
  lemma AloneMoves(s: State, i: nat)
    requires Inv(s) && OnlyInside(s, i) && Committed(s.pc[i])
    ensures Enabled(s, i)
  {
    if Blocked(s, i) {
      BlockerHolds(s, i);
    }
  }

  /** He finds both chopsticks. */
  lemma AloneFinds(s: State, i: nat)
    requires OwnershipInv(s) && OnlyInside(s, i)
    ensures s.pc[i] == CheckL ==> s.chop[i] == 1
    ensures s.pc[i] == CheckR ==> s.chop[RightOf(|s.pc|, i)] == 1
  {
    var n := |s.pc|;
    assert ChopInv(s, i) && ChopInv(s, RightOf(n, i)) && LeftOf(n, RightOf(n, i)) == i;
  }

  lemma AloneStep(s: State, i: nat)
    requires Enabled(s, i) && Committed(s.pc[i])
    requires s.pc[i] == CheckL ==> s.chop[i] == 1
    requires s.pc[i] == CheckR ==> s.chop[RightOf(|s.pc|, i)] == 1
    ensures |Next(s, i).pc| == |s.pc|
    ensures if s.pc[i] == AddMeal then Next(s, i).total == s.total + 1 else Committed(Next(s, i).pc[i]) && Next(s, i).total == s.total
  {
  }

  /** So a philosopher who is alone eats. */
  lemma {:induction false} AloneEats(s: State, i: nat) returns (who: seq<nat>, t: State)
    requires Inv(s) && OnlyInside(s, i) && Committed(s.pc[i])
    ensures Leads(s, who, t) && Inv(t) && AllQuiet(t) && |t.pc| == |s.pc| && t.max == s.max && t.total > s.total
    decreases Distance(s.pc[i])
  {
    hide Next, Enabled, Inv, Committed, OwnershipInv;
    AloneMoves(s, i);
    InvShaped(s);
    AloneFinds(s, i);
    AloneStep(s, i);
    StepInv(s, i);
    if s.pc[i] == AddMeal {
      who, t := Settle(Next(s, i));
    } else {
      NotQuiet(s.pc[i]);
      TurnGoesOn(s, i);
      InvShaped(Next(s, i));
      who, t := AloneEats(Next(s, i), i);
    }
    Prepend(s, i, who, t);
    who := [i] + who;
  }

  lemma NotQuiet(p: PC)
    requires Committed(p)
    ensures !Quiet(p)
  {
  }

  ghost predicate AllDone(s: State) {
    forall i :: 0 <= i < |s.pc| ==> s.pc[i] == Done
  }

  predicate AtTest(p: PC) {
    p.Test?
  }

  /** With enough meals eaten, everybody at the test leaves. */
  lemma {:induction false} EverybodyLeaves(s: State) returns (who: seq<nat>, t: State)
    requires AllQuiet(s) && s.total >= s.max
    ensures Leads(s, who, t) && AllDone(t)
    decreases Count(s.pc, AtTest)
  {
    if AllDone(s) {
      who, t := [], s;
    } else {
      var i: nat :| i < |s.pc| && s.pc[i] != Done;
      assert Enabled(s, i);
      CountUpdate(s.pc, i, Done, AtTest);
      who, t := EverybodyLeaves(Next(s, i));
      Prepend(s, i, who, t);
      who := [i] + who;
    }
  }

  lemma QuietNotEnough(s: State)
    requires Inv(s) && AllQuiet(s) && s.total < s.max
    ensures Enabled(s, 0) && OnlyInside(Next(s, 0), 0) && Committed(Next(s, 0).pc[0])
  {
    assert s.pc[0] != Done;
  }

  lemma {:induction false} CanEnd(s: State) returns (who: seq<nat>, t: State)
    requires Inv(s)
    ensures Leads(s, who, t) && AllDone(t)
    decreases if s.max > s.total then s.max - s.total else 0
  {
    hide Next, Enabled, Inv, OnlyInside, Committed, AllQuiet;
    var w1, m := Settle(s);
    if m.total >= m.max {
      var w2, u := EverybodyLeaves(m);
      Chain(s, w1, m, w2, u);
      who, t := w1 + w2, u;
    } else {
      QuietNotEnough(m);
      StepInv(m, 0);
      var w2, u := AloneEats(Next(m, 0), 0);
      Prepend(m, 0, w2, u);
      var w3, v := CanEnd(u);
      Chain(m, [0] + w2, u, w3, v);
      Chain(s, w1, m, ([0] + w2) + w3, v);
      who, t := w1 + (([0] + w2) + w3), v;
    }
  }

  /** From every reachable state a run exists in which everybody leaves, and so at least MAX meals are eaten. */
  lemma EverybodyCanLeave(s: State, who: seq<nat>, t: State)
    requires Init(s) && Leads(s, who, t)
    ensures exists more, u :: Leads(t, more, u) && AllDone(u) && |u.pc| == |s.pc| && s.max <= Sum(u.meals)
  {
    InitInv(s);
    LeadsInv(s, who, t);
    var more, u := CanEnd(t);
    LeadsInv(t, more, u);
    Chain(s, who, t, more, u);
    FinalMeals(s, who + more, u);
  }

  // ----- a meal for every time both chopsticks were taken -----

  /** How philosopher i's step changes the flag of the chopstick on his right from one value to another. */
  predicate Flips(s: State, k: nat, i: nat, from: int, to: int)
    requires Enabled(s, k)
  {
    k == i && s.chop[RightOf(|s.pc|, i)] == from && |Next(s, i).chop| == |s.pc| && Next(s, i).chop[RightOf(|s.pc|, i)] == to
  }

  /** How often philosopher i, in the run who from s, takes the chopstick on his right (1 to 0) or puts it back (0 to 1). */
  ghost function Flipped(s: State, who: seq<nat>, i: nat, from: int, to: int): nat
    decreases |who|
  {
    if who == [] || !Enabled(s, who[0]) then 0
    else (if Flips(s, who[0], i, from, to) then 1 else 0) + Flipped(Next(s, who[0]), who[1..], i, from, to)
  }

  predicate AboutToEat(p: PC) {
    p.DropLockR? || p.Eat?
  }

  predicate HasEaten(p: PC) {
    p.LockMeals? || p.AddMeal? || p.UnlockMeals? || p.RelockL? || p.RelockR? || p.FreeL? || p.FreeR?
  }

  /** The chopstick on his right is free when he takes it, and his when he puts it back. */
  predicate RightFlag(s: State, i: nat)
    requires Shaped(s) && i < |s.pc|
  {
    && (s.pc[i] == TakeR ==> s.chop[RightOf(|s.pc|, i)] == 1)
    && (s.pc[i] == FreeR ==> s.chop[RightOf(|s.pc|, i)] == 0)
  }

  lemma RightFlagHolds(s: State, i: nat)
    requires OwnershipInv(s) && i < |s.pc|
    ensures RightFlag(s, i)
  {
    var n := |s.pc|;
    assert ChopInv(s, RightOf(n, i)) && LeftOf(n, RightOf(n, i)) == i;
  }

  lemma TakenStep(s: State, k: nat, i: nat)
    requires Enabled(s, k) && i < |s.pc| && RightFlag(s, i)
    ensures var t := Next(s, k);
      && Shaped(t) && |t.pc| == |s.pc|
      && t.meals[i] + (if AboutToEat(t.pc[i]) then 1 else 0)
         == s.meals[i] + (if AboutToEat(s.pc[i]) then 1 else 0) + (if Flips(s, k, i, 1, 0) then 1 else 0)
  {
  }

  lemma BackStep(s: State, k: nat, i: nat)
    requires Enabled(s, k) && i < |s.pc| && RightFlag(s, i)
    ensures var t := Next(s, k);
      && Shaped(t) && |t.pc| == |s.pc|
      && t.meals[i] - (if HasEaten(t.pc[i]) then 1 else 0)
         == s.meals[i] - (if HasEaten(s.pc[i]) then 1 else 0) + (if Flips(s, k, i, 0, 1) then 1 else 0)
  {
  }

  lemma {:induction false} FlipsCounted(s: State, who: seq<nat>, t: State, i: nat)
    requires Inv(s) && Leads(s, who, t) && i < |s.pc|
    ensures |t.pc| == |t.meals| == |s.pc| == |s.meals|
    ensures t.meals[i] + (if AboutToEat(t.pc[i]) then 1 else 0)
            == s.meals[i] + (if AboutToEat(s.pc[i]) then 1 else 0) + Flipped(s, who, i, 1, 0)
    ensures t.meals[i] - (if HasEaten(t.pc[i]) then 1 else 0)
            == s.meals[i] - (if HasEaten(s.pc[i]) then 1 else 0) + Flipped(s, who, i, 0, 1)
    decreases |who|
  {
    hide Next, Enabled, Flips, AboutToEat, HasEaten, RightFlag;
    if who != [] {
      RightFlagHolds(s, i);
      TakenStep(s, who[0], i);
      BackStep(s, who[0], i);
      StepInv(s, who[0]);
      FlipsCounted(Next(s, who[0]), who[1..], t, i);
    }
  }

  /**
   Between taking the chopstick on his right and putting it back a philosopher eats exactly one meal:
   his meals are never ahead of the one count nor behind the other, and the counts differ by at most one.
   */
  lemma OneMealEachTime(s: State, who: seq<nat>, t: State, i: nat)
    requires Init(s) && Leads(s, who, t) && i < |s.pc|
    ensures |t.meals| == |t.pc| == |s.pc|
    ensures var taken, back := Flipped(s, who, i, 1, 0), Flipped(s, who, i, 0, 1);
      && back <= t.meals[i] <= taken <= back + 1
      && (t.pc[i] == Test || t.pc[i] == Done ==> back == t.meals[i] == taken)
  {
    InitInv(s);
    FlipsCounted(s, who, t, i);
  }

  // ----- the shared memory, updated in place -----

  class Table {
    const max: int
    const chopstick: array<int>
    const chopstickLock: array<int>
    const pc: array<PC>
    const numMealsConsumed: array<int>
    var currNumMeals: int
    var currNumMealsLock: int

    ghost predicate Valid()
      reads this, chopstick, chopstickLock, pc, numMealsConsumed
    {
      && chopstick != chopstickLock && chopstick != numMealsConsumed && chopstickLock != numMealsConsumed
      && Shaped(Snapshot())
    }

    ghost function Snapshot(): State
      reads this, chopstick, chopstickLock, pc, numMealsConsumed
    {
      State(chopstick[..], chopstickLock[..], pc[..], numMealsConsumed[..], currNumMeals, currNumMealsLock, max)
    }

    constructor (n: nat, max: nat)
      requires n >= 2
      ensures Valid() && Init(Snapshot()) && |Snapshot().pc| == n && Snapshot().max == max
      ensures fresh(chopstick) && fresh(chopstickLock) && fresh(pc) && fresh(numMealsConsumed)
    {
      this.max := max;
      chopstick := new int[n](_ => 1);
      chopstickLock := new int[n](_ => FREE);
      pc := new PC[n](_ => Test);
      numMealsConsumed := new int[n](_ => 0);
      currNumMeals, currNumMealsLock := 0, FREE;
    }

    /** Whether philosopher i can execute its next statement. */
    method CanStep(i: nat) returns (b: bool)
      requires Valid()
      ensures b == Enabled(Snapshot(), i)
    {
      if i >= pc.Length { return false; }
      match OpAt(pc[i])
      case Exit => b := false;
      case Lock(side) => b := chopstickLock[At(pc.Length, i, side)] == FREE;
      case LockTotal => b := currNumMealsLock == FREE;
      case _ => b := true;
    }

    /** Philosopher i executes its next statement. */
    method Step(i: nat)
      requires Valid() && Enabled(Snapshot(), i)
      modifies this, chopstick, chopstickLock, pc, numMealsConsumed
      ensures Valid() && Snapshot() == Next(old(Snapshot()), i)
    {
      var p, ok := pc[i], true;
      match OpAt(p) {
        case TestMeals => ok := currNumMeals < max;
        case TestChop(side) => ok := chopstick[At(pc.Length, i, side)] == 1;
        case Lock(side) => chopstickLock[At(pc.Length, i, side)] := i;
        case Unlock(side) => chopstickLock[At(pc.Length, i, side)] := FREE;
        case SetChop(side, flag) => chopstick[At(pc.Length, i, side)] := flag;
        case CountMeal => numMealsConsumed[i] := numMealsConsumed[i] + 1;
        case LockTotal => currNumMealsLock := i;
        case AddTotal => currNumMeals := currNumMeals + 1;
        case UnlockTotal => currNumMealsLock := FREE;
      }
      pc[i] := Succ(p, ok);
    }

    /** Run the philosophers under any schedule; one that cannot move is passed over. */
    method Dine(schedule: seq<nat>) returns (ghost who: seq<nat>)
      requires Valid() && Init(Snapshot())
      modifies this, chopstick, chopstickLock, pc, numMealsConsumed
      ensures Valid() && Leads(old(Snapshot()), who, Snapshot())
      ensures Inv(Snapshot())
    {
      who := [];
      for k := 0 to |schedule|
        invariant Valid() && Leads(old(Snapshot()), who, Snapshot())
      {
        var b := CanStep(schedule[k]);
        if b {
          LeadsAppend(old(Snapshot()), who, Snapshot(), schedule[k]);
          Step(schedule[k]);
          who := who + [schedule[k]];
        }
      }
      InitInv(old(Snapshot()));
      LeadsInv(old(Snapshot()), who, Snapshot());
    }
  }
}
