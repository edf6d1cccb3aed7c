/**
 The contractor and its worker crew: a token semaphore counting available work, a binary semaphore
 around the work list, and a shutdown that cancels the workers while the contractor still holds
 that semaphore.

 sem_wait, printf and sleep are cancellation points, so a worker with a pending cancellation may die
 at either of its two waits, and while it works on an item unless it has disabled cancellation; it
 dies at pthread_testcancel if one is pending there.
 */
module WorkCrew {
  import opened SeqMath
  import WorkQueue

  const NONE := -1

  datatype WorkerPC =
    | WaitWork | WaitLock | Remove | Unlock   // sem_wait, sem_wait, remove_item, sem_post
    | Disable | Process | TestCancel          // cancellation off; work and free; on again and test
    | Dead
    | Crashed                                 // remove_item returned NULL and was dereferenced

  datatype BossPC =
    | Make | LockAdd | Add | UnlockAdd | PostToken
    | LockPoll | Poll | UnlockPoll
    | Cancel | Join | Exit

  datatype State = State(
    tokens: int,                 // work_available
    lockSem: int,                // work_queue_lock
    queue: seq<int>,             // the work list, by item id
    boss: BossPC,
    made: int,                   // i in the creation loop
    joined: int,                 // i in the cancel loop
    pc: seq<WorkerPC>,
    hand: seq<int>,              // the item a worker has removed and not yet freed, or NONE
    pending: seq<bool>,          // cancellation requested
    masked: seq<bool>,           // cancellation disabled
    processed: seq<int>,         // items worked on, in order
    items: int)                  // NUM_ITEMS

  datatype Event = Boss | Worker(w: nat) | Die(w: nat)

  predicate Shaped(s: State) {
    |s.pc| == |s.hand| == |s.pending| == |s.masked| && 0 <= s.joined <= |s.pc|
  }

  ghost predicate Init(s: State) {
    && Shaped(s)
    && s.tokens == 0 && s.lockSem == 1 && s.queue == []
    && s.boss == Make && s.made == 0 && s.joined == 0 && s.items >= 0
    && s.processed == []
    && forall w :: 0 <= w < |s.pc| ==> s.pc[w] == WaitWork && s.hand[w] == NONE && !s.pending[w] && !s.masked[w]
  }

  predicate Enabled(s: State, e: Event) {
    && Shaped(s)
    && match e
       case Boss =>
         (match s.boss
          case LockAdd | LockPoll => s.lockSem > 0
          case Join => s.joined < |s.pc| && s.pc[s.joined] == Dead
          case Exit => false
          case _ => true)
       case Worker(w) => w < |s.pc| &&
         (match s.pc[w]
          case WaitWork => s.tokens > 0
          case WaitLock => s.lockSem > 0
          case Dead | Crashed => false
          case _ => true)
       case Die(w) => w < |s.pc| && s.pending[w] && !s.masked[w] && (s.pc[w].WaitWork? || s.pc[w].WaitLock? || s.pc[w].Process?)
  }

  function Next(s: State, e: Event): State
    requires Enabled(s, e)
  {
    match e
    case Boss => NextBoss(s)
    case Worker(w) => NextWorker(s, w)
    case Die(w) => s.(pc := s.pc[w := Dead])
  }

  function NextBoss(s: State): State
    requires Enabled(s, Boss)
  {
    match s.boss
    case Make => s.(boss := if s.made < s.items then LockAdd else LockPoll)
    case LockAdd => s.(boss := Add, lockSem := s.lockSem - 1)
    case Add => s.(boss := UnlockAdd, queue := s.queue + [s.made])
    case UnlockAdd => s.(boss := PostToken, lockSem := s.lockSem + 1)
    case PostToken => s.(boss := Make, tokens := s.tokens + 1, made := s.made + 1)
    case LockPoll => s.(boss := Poll, lockSem := s.lockSem - 1)
    case Poll => s.(boss := if |s.queue| > 0 then UnlockPoll else Cancel)
    case UnlockPoll => s.(boss := LockPoll, lockSem := s.lockSem + 1)
    case Cancel => if s.joined < |s.pc| then s.(boss := Join, pending := s.pending[s.joined := true]) else s.(boss := Exit)
    case Join => s.(boss := Cancel, joined := s.joined + 1)
  }

  function NextWorker(s: State, w: nat): State
    requires Enabled(s, Worker(w))
  {
    match s.pc[w]
    case WaitWork => s.(pc := s.pc[w := WaitLock], tokens := s.tokens - 1)
    case WaitLock => s.(pc := s.pc[w := Remove], lockSem := s.lockSem - 1)
    case Remove =>
      if s.queue == [] then s.(pc := s.pc[w := Crashed])
      else s.(pc := s.pc[w := Unlock], queue := s.queue[1..], hand := s.hand[w := s.queue[0]])
    case Unlock => s.(pc := s.pc[w := Disable], lockSem := s.lockSem + 1)
    case Disable => s.(pc := s.pc[w := Process], masked := s.masked[w := true])
    case Process => s.(pc := s.pc[w := TestCancel], processed := s.processed + [s.hand[w]], hand := s.hand[w := NONE])
    case TestCancel => s.(pc := s.pc[w := if s.pending[w] then Dead else WaitWork], masked := s.masked[w := false])
  }

  ghost predicate Leads(s: State, es: seq<Event>, t: State)
    decreases |es|
  {
    if es == [] then s == t else Enabled(s, es[0]) && Leads(Next(s, es[0]), es[1..], t)
  }

  // ----- the invariant -----

  predicate HoldsLock(p: WorkerPC) {
    p.Remove? || p.Unlock?
  }

  /** Took a token and has not removed an item for it yet. */
  predicate HasToken(p: WorkerPC) {
    p.WaitLock? || p.Remove?
  }

  predicate HasItem(p: WorkerPC) {
    p.Unlock? || p.Disable? || p.Process?
  }

  predicate BossHoldsLock(b: BossPC) {
    b.Add? || b.UnlockAdd? || b.Poll? || b.UnlockPoll? || ShuttingDown(b)
  }

  /** Past the break of the polling loop. */
  predicate ShuttingDown(b: BossPC) {
    b.Cancel? || b.Join? || b.Exit?
  }

  /** How often id occurs in xs. */
  ghost function Occ(xs: seq<int>, id: int): nat {
    if xs == [] then 0 else (if xs[0] == id then 1 else 0) + Occ(xs[1..], id)
  }

  lemma {:induction false} OccUpdate(xs: seq<int>, w: nat, v: int, id: int)
    requires w < |xs|
    ensures Occ(xs[w := v], id) == Occ(xs, id) - (if xs[w] == id then 1 else 0) + (if v == id then 1 else 0)
  {
    if w == 0 {
      assert xs[w := v][1..] == xs[1..];
    } else {
      assert xs[w := v][1..] == xs[1..][w - 1 := v];
      OccUpdate(xs[1..], w - 1, v, id);
    }
  }

  lemma {:induction false} OccAppend(xs: seq<int>, v: int, id: int)
    ensures Occ(xs + [v], id) == Occ(xs, id) + (if v == id then 1 else 0)
  {
    if xs != [] {
      assert (xs + [v])[1..] == xs[1..] + [v];
      OccAppend(xs[1..], v, id);
    }
  }

  lemma {:induction false} OccAbsent(xs: seq<int>, id: int)
    requires forall w :: 0 <= w < |xs| ==> xs[w] != id
    ensures Occ(xs, id) == 0
  {
    if xs != [] {
      OccAbsent(xs[1..], id);
    }
  }

  /** Each of the n items made so far is in exactly one place, once. */
  ghost predicate Conserved(queue: seq<int>, hand: seq<int>, processed: seq<int>, n: int) {
    forall id {:trigger Occ(queue, id)} :: id >= 0 ==> Occ(queue, id) + Occ(hand, id) + Occ(processed, id) == if id < n then 1 else 0
  }

  lemma ConservedAdd(queue: seq<int>, hand: seq<int>, processed: seq<int>, n: int)
    requires Conserved(queue, hand, processed, n) && n >= 0
    ensures Conserved(queue + [n], hand, processed, n + 1)
  {
    forall id | id >= 0 ensures Occ(queue + [n], id) + Occ(hand, id) + Occ(processed, id) == if id < n + 1 then 1 else 0 {
      assert Occ(queue, id) >= 0;
      OccAppend(queue, n, id);
    }
  }

  lemma ConservedTake(queue: seq<int>, hand: seq<int>, processed: seq<int>, n: int, w: nat)
    requires Conserved(queue, hand, processed, n) && queue != [] && w < |hand| && hand[w] == NONE
    ensures Conserved(queue[1..], hand[w := queue[0]], processed, n)
  {
    forall id | id >= 0 ensures Occ(queue[1..], id) + Occ(hand[w := queue[0]], id) + Occ(processed, id) == if id < n then 1 else 0 {
      assert Occ(queue, id) >= 0;
      OccUpdate(hand, w, queue[0], id);
    }
  }

  lemma ConservedFinish(queue: seq<int>, hand: seq<int>, processed: seq<int>, n: int, w: nat)
    requires Conserved(queue, hand, processed, n) && w < |hand|
    ensures Conserved(queue, hand[w := NONE], processed + [hand[w]], n)
  {
    forall id | id >= 0 ensures Occ(queue, id) + Occ(hand[w := NONE], id) + Occ(processed + [hand[w]], id) == if id < n then 1 else 0 {
      OccUpdate(hand, w, NONE, id);
      OccAppend(processed, hand[w], id);
    }
  }

  /** Exactly one thread holds the list lock, or it is free. */
  ghost predicate LockInv(s: State) {
    s.lockSem >= 0 && s.lockSem + Count(s.pc, HoldsLock) + (if BossHoldsLock(s.boss) then 1 else 0) == 1
  }

  /** Tokens in the semaphore, in workers' hands and not yet posted account for the whole list. */
  ghost predicate TokenInv(s: State) {
    && s.tokens >= 0
    && s.tokens + Count(s.pc, HasToken) + (if s.boss.UnlockAdd? || s.boss.PostToken? then 1 else 0) == |s.queue|
    && (ShuttingDown(s.boss) ==> s.queue == [])
  }

  ghost function Created(s: State): int {
    s.made + if s.boss.UnlockAdd? || s.boss.PostToken? then 1 else 0
  }

  /** Every item made is in the list, in one worker's hands or processed. */
  ghost predicate ItemInv(s: State) {
    && 0 <= s.made <= s.items
    && (s.boss.LockAdd? || s.boss.Add? || s.boss.UnlockAdd? || s.boss.PostToken? ==> s.made < s.items)
    && (s.boss.LockPoll? || s.boss.Poll? || s.boss.UnlockPoll? || ShuttingDown(s.boss) ==> s.made == s.items)
    && Conserved(s.queue, s.hand, s.processed, Created(s))
  }

  /** The list, the workers holding an item and the items processed add up to the items made. */
  ghost predicate SizeInv(s: State) {
    |s.queue| + Count(s.pc, HasItem) + |s.processed| == Created(s)
  }

  /** Only the workers reached by the cancel loop are cancelled, and the ones before it are gone. */
  ghost predicate WorkerInv(s: State, w: nat)
    requires Shaped(s) && w < |s.pc|
  {
    && (s.pending[w] <==> w < s.joined || (w == s.joined && s.boss.Join?))
    && (s.pc[w] == Dead ==> s.pending[w])
    && (w < s.joined ==> s.pc[w] == Dead)
    && s.pc[w] != Crashed
    && (!HasItem(s.pc[w]) ==> s.hand[w] == NONE)
    && (s.masked[w] <==> s.pc[w].Process? || s.pc[w].TestCancel?)
  }

  ghost predicate Inv(s: State) {
    && Shaped(s)
    && (s.joined > 0 ==> ShuttingDown(s.boss))
    && (s.boss.Join? ==> s.joined < |s.pc|)
    && (s.boss.Exit? ==> s.joined == |s.pc|)
    && LockInv(s) && TokenInv(s) && ItemInv(s) && SizeInv(s)
    && forall w :: 0 <= w < |s.pc| ==> WorkerInv(s, w)
  }

  lemma InitInv(s: State)
    requires Init(s)
    ensures Inv(s)
  {
    CountBound(s.pc, HoldsLock);
    CountBound(s.pc, HasToken);
    CountBound(s.pc, HasItem);
    forall id | id >= 0 ensures Occ([], id) + Occ(s.hand, id) + Occ(s.processed, id) == 0 {
      OccAbsent(s.hand, id);
    }
  }

  /** During shutdown the contractor keeps the lock and no worker is, or can get, between token and lock. */
  lemma NobodyAtTheLock(s: State, w: nat)
    requires Inv(s) && ShuttingDown(s.boss) && w < |s.pc|
    ensures s.tokens == 0 && s.lockSem == 0
    ensures !s.pc[w].WaitLock? && !s.pc[w].Remove? && !s.pc[w].Unlock?
  {
    CountBound(s.pc, HoldsLock);
    CountBound(s.pc, HasToken);
  }

  lemma BossCounts(s: State)
    requires Inv(s) && Enabled(s, Boss)
    ensures LockInv(NextBoss(s)) && TokenInv(NextBoss(s)) && SizeInv(NextBoss(s))
  {
  }

  lemma BossItems(s: State)
    requires ItemInv(s) && Enabled(s, Boss)
    ensures ItemInv(NextBoss(s))
  {
    ConservedAdd(s.queue, s.hand, s.processed, Created(s));
  }

  lemma BossStep(s: State)
    requires Inv(s) && Enabled(s, Boss)
    ensures Inv(NextBoss(s))
  {
    BossCounts(s);
    BossItems(s);
    var t := NextBoss(s);
    forall w | 0 <= w < |t.pc| ensures WorkerInv(t, w) {
      assert WorkerInv(s, w);
    }
  }

  /** A worker at remove_item holds a token for it, so the list is not empty. */
  lemma RemoveFindsAnItem(s: State, w: nat)
    requires Inv(s) && w < |s.pc| && s.pc[w].Remove?
    ensures s.queue != []
  {
    CountBound(s.pc, HasToken);
  }

  lemma WorkerLock(s: State, w: nat)
    requires LockInv(s) && Enabled(s, Worker(w)) && (s.pc[w].Remove? ==> s.queue != [])
    ensures LockInv(NextWorker(s, w))
  {
    hide Count;
    CountUpdate(s.pc, w, NextWorker(s, w).pc[w], HoldsLock);
  }

  lemma WorkerTokens(s: State, w: nat)
    requires TokenInv(s) && Enabled(s, Worker(w)) && (s.pc[w].Remove? ==> s.queue != [])
    ensures TokenInv(NextWorker(s, w))
  {
    hide Count;
    CountUpdate(s.pc, w, NextWorker(s, w).pc[w], HasToken);
  }

  lemma WorkerSizes(s: State, w: nat)
    requires SizeInv(s) && Enabled(s, Worker(w)) && (s.pc[w].Remove? ==> s.queue != [])
    ensures SizeInv(NextWorker(s, w))
  {
    hide Count;
    CountUpdate(s.pc, w, NextWorker(s, w).pc[w], HasItem);
  }

  lemma WorkerCounts(s: State, w: nat)
    requires Inv(s) && Enabled(s, Worker(w))
    ensures LockInv(NextWorker(s, w)) && TokenInv(NextWorker(s, w)) && SizeInv(NextWorker(s, w))
  {
    hide NextWorker, LockInv, TokenInv, SizeInv, ItemInv, WorkerInv;
    if s.pc[w].Remove? {
      RemoveFindsAnItem(s, w);
    }
    WorkerLock(s, w);
    WorkerTokens(s, w);
    WorkerSizes(s, w);
  }

  /** Removing the head of the list, or processing the item in hand, moves it and loses nothing. */
  lemma WorkerItems(s: State, w: nat)
    requires ItemInv(s) && Enabled(s, Worker(w)) && WorkerInv(s, w) && (s.pc[w].Remove? ==> s.queue != [])
    ensures ItemInv(NextWorker(s, w))
  {
    if s.pc[w].Remove? {
      ConservedTake(s.queue, s.hand, s.processed, Created(s), w);
    }
    ConservedFinish(s.queue, s.hand, s.processed, Created(s), w);
  }

  lemma WorkerStep(s: State, w: nat)
    requires Inv(s) && Enabled(s, Worker(w))
    ensures Inv(NextWorker(s, w))
  {
    WorkerCounts(s, w);
    if s.pc[w].Remove? {
      RemoveFindsAnItem(s, w);
    }
    assert WorkerInv(s, w);
    WorkerItems(s, w);
    var t := NextWorker(s, w);
    forall v | 0 <= v < |t.pc| ensures WorkerInv(t, v) {
      assert WorkerInv(s, v);
    }
  }

  lemma DieStep(s: State, w: nat)
    requires Inv(s) && Enabled(s, Die(w))
    ensures Inv(Next(s, Die(w)))
  {
    var t := Next(s, Die(w));
    assert WorkerInv(s, w);
    NobodyAtTheLock(s, w);
    CountUpdate(s.pc, w, Dead, HoldsLock);
    CountUpdate(s.pc, w, Dead, HasToken);
    CountUpdate(s.pc, w, Dead, HasItem);
    forall v | 0 <= v < |t.pc| ensures WorkerInv(t, v) {
      assert WorkerInv(s, v);
    }
  }

  lemma StepInv(s: State, e: Event)
    requires Inv(s) && Enabled(s, e)
    ensures Inv(Next(s, e)) && |Next(s, e).pc| == |s.pc| && Next(s, e).items == s.items
  {
    match e
    case Boss => BossStep(s);
    case Worker(w) => WorkerStep(s, w);
    case Die(w) => DieStep(s, w);
  }

  lemma {:induction false} LeadsInv(s: State, es: seq<Event>, t: State)
    requires Inv(s) && Leads(s, es, t)
    ensures Inv(t) && |t.pc| == |s.pc| && t.items == s.items
    decreases |es|
  {
    if es != [] {
      StepInv(s, es[0]);
      LeadsInv(Next(s, es[0]), es[1..], t);
    }
  }

  // ----- what every run satisfies -----

  /** The contractor leaves its polling loop holding the lock; no worker is waiting for it or ever will. */
  lemma ShutdownNeverBlocksAWorker(s: State, es: seq<Event>, t: State, w: nat)
    requires Init(s) && Leads(s, es, t) && ShuttingDown(t.boss) && w < |t.pc|
    ensures t.lockSem == 0 && t.queue == [] && t.tokens == 0
    ensures !t.pc[w].WaitLock? && !t.pc[w].Remove? && !t.pc[w].Unlock?
  {
    InitInv(s);
    LeadsInv(s, es, t);
    NobodyAtTheLock(t, w);
  }

  /** remove_item never returns NULL to a worker. */
  lemma NoNullItem(s: State, es: seq<Event>, t: State, w: nat)
    requires Init(s) && Leads(s, es, t) && w < |t.pc|
    ensures t.pc[w] != Crashed && (t.pc[w].Remove? ==> t.queue != [])
  {
    InitInv(s);
    LeadsInv(s, es, t);
    assert WorkerInv(t, w);
    if t.pc[w].Remove? {
      RemoveFindsAnItem(t, w);
    }
  }

  /** A cancellation never reaches a worker with an item in hand: it works on the item with cancellation disabled. */
  lemma NobodyDiesWithAnItem(s: State, es: seq<Event>, t: State, w: nat)
    requires Init(s) && Leads(s, es, t) && Enabled(t, Die(w))
    ensures t.hand[w] == NONE && !HasItem(t.pc[w])
  {
    InitInv(s);
    LeadsInv(s, es, t);
    assert WorkerInv(t, w);
  }

  ghost predicate CanMove(s: State) {
    exists e :: Enabled(s, e)
  }

  lemma InvCanMove(s: State)
    requires Inv(s) && s.boss != Exit
    ensures CanMove(s)
  {
    if !Enabled(s, Boss) {
      if s.boss.Join? {
        var w := s.joined;
        assert WorkerInv(s, w);
        NobodyAtTheLock(s, w);
        assert Enabled(s, Worker(w)) || Enabled(s, Die(w));
      } else {
        CountBound(s.pc, HoldsLock);
        var w :| 0 <= w < |s.pc| && HoldsLock(s.pc[w]);
        assert Enabled(s, Worker(w));
      }
    }
  }

  /** Until the contractor has joined every worker, some thread can move, and with a worker on the crew the run can be finished from there. */
  lemma NoDeadlock(s: State, es: seq<Event>, t: State)
    requires Init(s) && Leads(s, es, t) && t.boss != Exit
    ensures CanMove(t)
    ensures |s.pc| >= 1 || s.items == 0 ==> CanFinish(t)
  {
    InitInv(s);
    LeadsInv(s, es, t);
    InvCanMove(t);
    if |s.pc| >= 1 || s.items == 0 {
      CanReachExit(t);
    }
  }

  /** When the contractor exits, every worker is gone and every item was processed exactly once. */
  lemma EveryItemOnce(s: State, es: seq<Event>, t: State, id: int)
    requires Init(s) && Leads(s, es, t) && t.boss == Exit
    ensures forall w :: 0 <= w < |t.pc| ==> t.pc[w] == Dead
    ensures |t.processed| == s.items
    ensures id >= 0 ==> Occ(t.processed, id) == if id < s.items then 1 else 0
  {
    InitInv(s);
    LeadsInv(s, es, t);
    forall w | 0 <= w < |t.pc| ensures t.pc[w] == Dead && t.hand[w] == NONE {
      assert WorkerInv(t, w);
    }
    CountBound(t.pc, HasItem);
    if id >= 0 {
      assert Occ(t.queue, id) == 0;
      OccAbsent(t.hand, id);
    }
  }

  // ----- the shutdown terminates -----

  function WorkerRank(p: WorkerPC): nat {
    match p
    case Disable => 4
    case Process => 3
    case TestCancel => 2
    case WaitWork => 1
    case _ => 0
  }

  ghost function Ranks(pc: seq<WorkerPC>): nat {
    if pc == [] then 0 else WorkerRank(pc[0]) + Ranks(pc[1..])
  }

  lemma {:induction false} RanksUpdate(pc: seq<WorkerPC>, w: nat, p: WorkerPC)
    requires w < |pc|
    ensures Ranks(pc[w := p]) == Ranks(pc) - WorkerRank(pc[w]) + WorkerRank(p)
  {
    if w == 0 {
      assert pc[w := p][1..] == pc[1..];
    } else {
      assert pc[w := p][1..] == pc[1..][w - 1 := p];
      RanksUpdate(pc[1..], w - 1, p);
    }
  }

  ghost function Rank(s: State): nat
    requires Shaped(s)
  {
    Ranks(s.pc) + 2 * (|s.pc| - s.joined) + if s.boss.Cancel? then 2 else if s.boss.Join? then 1 else 0
  }

  lemma ShutdownStep(s: State, e: Event)
    requires Inv(s) && ShuttingDown(s.boss) && Enabled(s, e)
    ensures ShuttingDown(Next(s, e).boss) && Inv(Next(s, e)) && Rank(Next(s, e)) < Rank(s)
  {
    StepInv(s, e);
    match e
    case Boss =>
    case Worker(w) =>
      NobodyAtTheLock(s, w);
      RanksUpdate(s.pc, w, Next(s, e).pc[w]);
    case Die(w) =>
      NobodyAtTheLock(s, w);
      RanksUpdate(s.pc, w, Dead);
  }

  /** From the break on, no schedule can run longer than Rank steps; NoDeadlock says it ends joined. */
  lemma {:induction false} ShutdownTerminates(s: State, es: seq<Event>, t: State)
    requires Inv(s) && ShuttingDown(s.boss) && Leads(s, es, t)
    ensures |es| <= Rank(s) && (CanMove(t) || t.boss == Exit)
    decreases |es|
  {
    if es == [] {
      if s.boss != Exit { InvCanMove(s); }
    } else {
      ShutdownStep(s, es[0]);
      ShutdownTerminates(Next(s, es[0]), es[1..], t);
    }
  }

  // ----- the shutdown can always be reached -----

  ghost predicate CanFinish(s: State) {
    exists es, t :: Leads(s, es, t) && t.boss == Exit
  }

  lemma FinishAfter(s: State, e: Event)
    requires Enabled(s, e) && CanFinish(Next(s, e))
    ensures CanFinish(s)
  {
    var es, t :| Leads(Next(s, e), es, t) && t.boss == Exit;
    assert ([e] + es)[1..] == es;
    assert Leads(s, [e] + es, t);
  }

  lemma {:induction false} FinishShutdown(s: State)
    requires Inv(s) && ShuttingDown(s.boss)
    ensures CanFinish(s)
    decreases Rank(s)
  {
    if s.boss == Exit {
      assert Leads(s, [], s);
    } else {
      InvCanMove(s);
      var e :| Enabled(s, e);
      ShutdownStep(s, e);
      FinishShutdown(Next(s, e));
      FinishAfter(s, e);
    }
  }

  lemma NobodyCancelled(s: State, w: nat)
    requires Inv(s) && !ShuttingDown(s.boss) && w < |s.pc|
    ensures !s.pending[w] && s.pc[w] != Dead && s.pc[w] != Crashed
  {
    assert WorkerInv(s, w);
  }

  lemma LockHolderMoves(s: State) returns (w: nat)
    requires Inv(s) && s.lockSem == 0 && !BossHoldsLock(s.boss)
    ensures Enabled(s, Worker(w))
  {
    CountBound(s.pc, HoldsLock);
    w :| w < |s.pc| && HoldsLock(s.pc[w]);
  }

  /** With items on the list and the contractor off the lock, there is work a worker can do now. */
  lemma WorkersCanMove(s: State) returns (w: nat)
    requires Inv(s) && !BossHoldsLock(s.boss) && s.queue != [] && |s.pc| >= 1 && !s.boss.PostToken?
    ensures Enabled(s, Worker(w))
  {
    if s.lockSem == 0 {
      w := LockHolderMoves(s);
    } else if s.tokens > 0 {
      w := 0;
      NobodyCancelled(s, w);
    } else {
      CountBound(s.pc, HasToken);
      w :| w < |s.pc| && HasToken(s.pc[w]);
    }
  }

  function TurnRank(p: WorkerPC): nat {
    match p
    case Unlock => 6
    case Disable => 5
    case Process => 4
    case TestCancel => 3
    case WaitWork => 2
    case WaitLock => 1
    case _ => 0
  }

  ghost function Turns(pc: seq<WorkerPC>): nat {
    if pc == [] then 0 else TurnRank(pc[0]) + Turns(pc[1..])
  }

  lemma {:induction false} TurnsUpdate(pc: seq<WorkerPC>, w: nat, p: WorkerPC)
    requires w < |pc|
    ensures Turns(pc[w := p]) == Turns(pc) - TurnRank(pc[w]) + TurnRank(p)
  {
    if w == 0 {
      assert pc[w := p][1..] == pc[1..];
    } else {
      assert pc[w := p][1..] == pc[1..][w - 1 := p];
      TurnsUpdate(pc[1..], w - 1, p);
    }
  }

  function BossRank(s: State): nat {
    match s.boss
    case Make => 12
    case LockAdd => 11
    case Add => 10
    case UnlockAdd => 2
    case PostToken => 1
    case LockPoll => 4
    case Poll => if s.queue == [] then 3 else 6
    case UnlockPoll => 5
    case _ => 0
  }

  /** What is left to do before the break, if the contractor polls only an empty list. */
  ghost function Left(s: State): int {
    12 * (s.items - s.made) + 7 * |s.queue| + Turns(s.pc) + BossRank(s)
  }

  lemma BossLeft(s: State)
    requires Inv(s) && Enabled(s, Boss) && !ShuttingDown(s.boss) && (s.boss.LockPoll? ==> s.queue == [])
    ensures Left(NextBoss(s)) < Left(s)
  {
  }

  lemma WorkerLeft(s: State, w: nat)
    requires Inv(s) && Enabled(s, Worker(w)) && !ShuttingDown(s.boss)
    ensures Left(NextWorker(s, w)) < Left(s)
  {
    NobodyCancelled(s, w);
    if s.pc[w].Remove? {
      RemoveFindsAnItem(s, w);
    }
    TurnsUpdate(s.pc, w, NextWorker(s, w).pc[w]);
  }

  /** A step that brings the break closer: the contractor's, unless it would poll for nothing or wait for the lock. */
  lemma UsefulStep(s: State) returns (e: Event)
    requires Inv(s) && !ShuttingDown(s.boss) && (|s.pc| >= 1 || s.items == 0)
    ensures Enabled(s, e) && Left(Next(s, e)) < Left(s)
  {
    if s.boss.LockPoll? && s.queue != [] {
      var w := WorkersCanMove(s);
      WorkerLeft(s, w);
      e := Worker(w);
    } else if Enabled(s, Boss) {
      BossLeft(s);
      e := Boss;
    } else {
      var w := LockHolderMoves(s);
      WorkerLeft(s, w);
      e := Worker(w);
    }
  }

  lemma LeftIsNatural(s: State)
    requires Inv(s)
    ensures Left(s) >= 0
  {
  }

  lemma {:induction false} CanReachExit(s: State)
    requires Inv(s) && (|s.pc| >= 1 || s.items == 0)
    ensures CanFinish(s)
    decreases Left(s)
  {
    if ShuttingDown(s.boss) {
      FinishShutdown(s);
    } else {
      var e := UsefulStep(s);
      StepInv(s, e);
      LeftIsNatural(s);
      LeftIsNatural(Next(s, e));
      CanReachExit(Next(s, e));
      FinishAfter(s, e);
    }
  }

  lemma {:induction false} NobodyWorks(s: State, es: seq<Event>, t: State)
    requires Inv(s) && |s.pc| == 0 && Leads(s, es, t)
    ensures t.processed == s.processed
    decreases |es|
  {
    if es != [] {
      StepInv(s, es[0]);
      NobodyWorks(Next(s, es[0]), es[1..], t);
    }
  }

  /** Whatever has happened, the contractor can still get to its exit. */
  ghost predicate AlwaysCanFinish(s: State) {
    forall es, t :: Leads(s, es, t) ==> CanFinish(t)
  }

  /** From every reachable state a run to the exit exists, exactly when there is a worker or nothing to do. */
  lemma CanFinishExactly(s: State)
    requires Init(s)
    ensures AlwaysCanFinish(s) <==> |s.pc| >= 1 || s.items == 0
  {
    InitInv(s);
    if |s.pc| >= 1 || s.items == 0 {
      forall es, t | Leads(s, es, t) ensures CanFinish(t) {
        LeadsInv(s, es, t);
        CanReachExit(t);
      }
    } else if AlwaysCanFinish(s) {
      assert Leads(s, [], s);
      var es, t :| Leads(s, es, t) && t.boss == Exit;
      NobodyWorks(s, es, t);
      EveryItemOnce(s, es, t, 0);
      assert false;
    }
  }

  /** In every reachable state with items on the list, some worker can move unless the contractor has the lock or a token still to post. */
  lemma WorkersNeverAllStuck(s: State, es: seq<Event>, t: State)
    requires Init(s) && Leads(s, es, t) && |t.pc| >= 1 && t.queue != [] && !BossHoldsLock(t.boss) && !t.boss.PostToken?
    ensures exists w: nat :: Enabled(t, Worker(w))
  {
    InitInv(s);
    LeadsInv(s, es, t);
    var w := WorkersCanMove(t);
  }

  lemma {:induction false} LeadsAppend(s: State, es: seq<Event>, t: State, e: Event)
    requires Leads(s, es, t) && Enabled(t, e)
    ensures Leads(s, es + [e], Next(t, e))
    decreases |es|
  {
    if es == [] {
      assert (es + [e])[1..] == [];
    } else {
      assert (es + [e])[1..] == es[1..] + [e];
      LeadsAppend(Next(s, es[0]), es[1..], t, e);
    }
  }

  // ----- the program, on the real linked list -----

  class Crew {
    const items: int
    const workQueue: WorkQueue.Queue
    var workAvailable: int
    var workQueueLock: int
    var boss: BossPC
    var made: int
    var joined: int
    var pc: seq<WorkerPC>
    var thisItem: seq<WorkQueue.Item?>   // each worker's this_item while it owns one
    var pending: seq<bool>
    var masked: seq<bool>
    var processed: seq<int>

    ghost predicate Valid()
      reads this, workQueue, workQueue.nodes
    {
      && workQueue.Valid()
      && |pc| == |thisItem| == |pending| == |masked| && 0 <= joined <= |pc|
      && (forall w :: 0 <= w < |pc| ==> (HasItem(pc[w]) <==> thisItem[w] != null))
      && (forall w :: 0 <= w < |pc| ==> (pc[w] == Process ==> masked[w]))
      && Apart(thisItem, workQueue.nodes, workQueue.freed)
    }

    /** Items in hand are pairwise distinct, off the list and not freed. */
    static ghost predicate Apart(xs: seq<WorkQueue.Item?>, nodes: seq<WorkQueue.Item>, freed: set<WorkQueue.Item>) {
      && (forall w :: 0 <= w < |xs| && xs[w] != null ==> xs[w] !in nodes && xs[w] !in freed)
      && (forall v, w :: 0 <= v < w < |xs| && xs[v] != null ==> xs[v] != xs[w])
    }

    /** free() was called on item, unless that is null, and on nothing else. */
    static ghost predicate Freed(before: set<WorkQueue.Item>, after: set<WorkQueue.Item>, item: WorkQueue.Item?) {
      if item == null then after == before else item !in before && after == before + {item}
    }

    static ghost function HandIds(xs: seq<WorkQueue.Item?>): (ids: seq<int>)
      ensures |ids| == |xs| && forall k :: 0 <= k < |xs| ==> ids[k] == if xs[k] == null then NONE else xs[k].id
    {
      seq(|xs|, k requires 0 <= k < |xs| => if xs[k] == null then NONE else xs[k].id)
    }

    ghost function Snapshot(): State
      reads this, workQueue
    {
      State(workAvailable, workQueueLock, WorkQueue.Ids(workQueue.nodes), boss, made, joined,
            pc, HandIds(thisItem), pending, masked, processed, items)
    }

    constructor (workers: nat, items: nat)
      ensures Valid() && Init(Snapshot()) && |pc| == workers && Snapshot().items == items
      ensures fresh(workQueue) && workQueue.freed == {}
    {
      this.items := items;
      workQueue := new WorkQueue.Queue();
      workAvailable, workQueueLock, boss, made, joined := 0, 1, Make, 0, 0;
      pc := seq(workers, _ => WaitWork);
      thisItem := seq(workers, _ => null);
      pending := seq(workers, _ => false);
      masked := seq(workers, _ => false);
      processed := [];
    }

    static lemma AppendId(nodes: seq<WorkQueue.Item>, item: WorkQueue.Item)
      ensures WorkQueue.Ids(nodes + [item]) == WorkQueue.Ids(nodes) + [item.id]
    {
    }

    static lemma TakeId(xs: seq<WorkQueue.Item?>, nodes: seq<WorkQueue.Item>, freed: set<WorkQueue.Item>, w: nat)
      requires Apart(xs, nodes, freed) && w < |xs| && xs[w] == null && nodes != []
      requires forall i, j :: 0 <= i < j < |nodes| ==> nodes[i] != nodes[j]
      requires nodes[0] !in freed
      ensures Apart(xs[w := nodes[0]], nodes[1..], freed)
    {
      assert forall n :: n in nodes[1..] ==> n in nodes;
      assert nodes[0] !in nodes[1..];
    }

    static lemma TakeIds(xs: seq<WorkQueue.Item?>, nodes: seq<WorkQueue.Item>, w: nat)
      requires w < |xs| && nodes != []
      ensures WorkQueue.Ids(nodes[1..]) == WorkQueue.Ids(nodes)[1..]
      ensures HandIds(xs[w := nodes[0]]) == HandIds(xs)[w := nodes[0].id]
    {
    }

    static lemma InHand(xs: seq<WorkQueue.Item?>, nodes: seq<WorkQueue.Item>, freed: set<WorkQueue.Item>, w: nat)
      requires Apart(xs, nodes, freed) && w < |xs| && xs[w] != null
      ensures xs[w] !in nodes && xs[w] !in freed && HandIds(xs)[w] == xs[w].id
    {
    }

    static lemma FreeId(xs: seq<WorkQueue.Item?>, nodes: seq<WorkQueue.Item>, freed: set<WorkQueue.Item>, w: nat)
      requires Apart(xs, nodes, freed) && w < |xs| && xs[w] != null
      ensures Apart(xs[w := null], nodes, freed + {xs[w]})
      ensures HandIds(xs[w := null]) == HandIds(xs)[w := NONE]
    {
    }

    /** The contractor appends a new item to the work list. */
    method AddNewItem()
      requires Valid() && boss == Add
      modifies this`boss, workQueue, workQueue.nodes
      ensures Valid() && Snapshot() == NextBoss(old(Snapshot())) && workQueue.freed == old(workQueue.freed)
      ensures fresh(set n | n in workQueue.nodes && n !in old(workQueue.nodes))
    {
      ghost var before := workQueue.nodes;
      var item := new WorkQueue.Item(made, 0);
      assert Apart(thisItem, before + [item], workQueue.freed);
      workQueue.AddItem(item);
      AppendId(before, item);
      boss := UnlockAdd;
    }

    /** The contractor's statements up to the break, other than the append. */
    method StepLoop()
      requires Enabled(Snapshot(), Boss) && boss != Add && !ShuttingDown(boss) && workQueue.numItems == |workQueue.nodes|
      modifies this`workQueueLock, this`workAvailable, this`made, this`boss
      ensures Snapshot() == NextBoss(old(Snapshot()))
    {
      match boss {
        case Make => boss := if made < items then LockAdd else LockPoll;
        case LockAdd => workQueueLock, boss := workQueueLock - 1, Add;
        case UnlockAdd => workQueueLock, boss := workQueueLock + 1, PostToken;
        case PostToken => workAvailable, made, boss := workAvailable + 1, made + 1, Make;
        case LockPoll => workQueueLock, boss := workQueueLock - 1, Poll;
        case Poll => boss := if workQueue.numItems > 0 then UnlockPoll else Cancel;
        case UnlockPoll => workQueueLock, boss := workQueueLock + 1, LockPoll;
      }
    }

    /** The cancel loop. */
    method StepShutdown()
      requires Enabled(Snapshot(), Boss) && ShuttingDown(boss)
      modifies this`pending, this`joined, this`boss
      ensures Snapshot() == NextBoss(old(Snapshot())) && |pending| == old(|pending|) && 0 <= joined <= |pc|
    {
      if boss == Join {
        joined, boss := joined + 1, Cancel;
      } else if joined < |pc| {
        pending, boss := pending[joined := true], Join;
      } else {
        boss := Exit;
      }
    }

    /** The contractor's statements other than the append. */
    method StepAside()
      requires Valid() && Enabled(Snapshot(), Boss) && boss != Add
      modifies this`workQueueLock, this`workAvailable, this`made, this`boss, this`pending, this`joined
      ensures Valid() && Snapshot() == NextBoss(old(Snapshot()))
    {
      hide NextBoss, HandIds, Apart, WorkQueue.Ids, WorkQueue.Queue.Valid;
      assert workQueue.numItems == |workQueue.nodes| by {
        WorkQueue.ListLength(workQueue);
      }
      if ShuttingDown(boss) {
        StepShutdown();
      } else {
        StepLoop();
      }
    }

    /** The contractor executes its next statement. */
    method StepBoss()
      requires Valid() && Enabled(Snapshot(), Boss)
      modifies this, workQueue, workQueue.nodes
      ensures Valid() && Snapshot() == NextBoss(old(Snapshot()))
      ensures workQueue.freed == old(workQueue.freed) && processed == old(processed)
      ensures fresh(set n | n in workQueue.nodes && n !in old(workQueue.nodes))
    {
      if boss == Add {
        AddNewItem();
      } else {
        StepAside();
      }
    }

    /** remove_item takes nothing else away from anybody. */
    method Pop(w: nat) returns (item: WorkQueue.Item?)
      requires Valid() && w < |pc| && thisItem[w] == null
      modifies workQueue
      ensures workQueue.freed == old(workQueue.freed)
      ensures Valid() && (item != null ==> Apart(thisItem[w := item], workQueue.nodes, workQueue.freed))
      ensures if old(workQueue.nodes) == [] then item == null && workQueue.nodes == []
              else item == old(workQueue.nodes)[0] && workQueue.nodes == old(workQueue.nodes)[1..]
    {
      if workQueue.nodes != [] {
        TakeId(thisItem, workQueue.nodes, workQueue.freed, w);
      }
      item := workQueue.RemoveItem();
    }

    /** remove_item: NULL when the list is empty. */
    method TakeItem(w: nat)
      requires Valid() && w < |pc| && pc[w] == Remove
      modifies this`pc, this`thisItem, workQueue
      ensures Valid() && Snapshot() == NextWorker(old(Snapshot()), w) && workQueue.freed == old(workQueue.freed)
      ensures forall n :: n in workQueue.nodes ==> n in old(workQueue.nodes)
    {
      if workQueue.nodes != [] {
        TakeIds(thisItem, workQueue.nodes, w);
      }
      var item := Pop(w);
      if item == null {
        Advance(w, Crashed);
      } else {
        Hold(w, item);
      }
    }

    /** The removed node is the worker's own from here on. */
    method Hold(w: nat, item: WorkQueue.Item)
      requires Valid() && w < |pc| && !HasItem(pc[w]) && Apart(thisItem[w := item], workQueue.nodes, workQueue.freed)
      modifies this`pc, this`thisItem
      ensures Valid() && thisItem == old(thisItem)[w := item] && pc == old(pc)[w := Unlock]
    {
      thisItem, pc := thisItem[w := item], pc[w := Unlock];
    }

    /** Work on the item in hand and free it. */
    method FinishItem(w: nat)
      requires Valid() && w < |pc| && pc[w] == Process
      modifies this`pc, this`thisItem, this`processed, workQueue
      ensures Valid() && Snapshot() == NextWorker(old(Snapshot()), w)
      ensures workQueue.nodes == old(workQueue.nodes)
      ensures old(thisItem)[w] != null && old(thisItem)[w] !in old(workQueue.freed)
      ensures workQueue.freed == old(workQueue.freed) + {old(thisItem)[w]} && |processed| == old(|processed|) + 1
    {
      hide HandIds, Apart, WorkQueue.Ids;
      FreeId(thisItem, workQueue.nodes, workQueue.freed, w);
      InHand(thisItem, workQueue.nodes, workQueue.freed, w);
      processed := processed + [thisItem[w].id];
      workQueue.Free(thisItem[w]);
      thisItem, pc := thisItem[w := null], pc[w := TestCancel];
    }

    method Advance(w: nat, p: WorkerPC)
      requires Valid() && w < |pc| && HasItem(p) == HasItem(pc[w]) && p != Process
      modifies this`pc
      ensures Valid() && pc == old(pc)[w := p]
    {
      pc := pc[w := p];
    }

    /** The statements of worker w that leave the list alone. */
    method StepAlone(w: nat)
      requires Enabled(Snapshot(), Worker(w)) && pc[w] != Remove && pc[w] != Process
      requires |masked| == |pc| && forall v :: 0 <= v < |pc| && pc[v] == Process ==> masked[v]
      modifies this`workAvailable, this`workQueueLock, this`masked, this`pc
      ensures Snapshot() == NextWorker(old(Snapshot()), w)
      ensures |pc| == old(|pc|) && forall v :: 0 <= v < |pc| ==> HasItem(pc[v]) == HasItem(old(pc)[v])
      ensures |masked| == |pc| && forall v :: 0 <= v < |pc| && pc[v] == Process ==> masked[v]
    {
      match pc[w] {
        case WaitWork => workAvailable, pc := workAvailable - 1, pc[w := WaitLock];
        case WaitLock => workQueueLock, pc := workQueueLock - 1, pc[w := Remove];
        case Unlock => workQueueLock, pc := workQueueLock + 1, pc[w := Disable];
        case Disable => masked, pc := masked[w := true], pc[w := Process];
        case TestCancel => masked, pc := masked[w := false], pc[w := if pending[w] then Dead else WaitWork];
      }
    }

    /** Worker w executes its next statement; the item it has processed is freed, and nothing else is. */
    method StepWorker(w: nat)
      requires Valid() && Enabled(Snapshot(), Worker(w))
      modifies this, workQueue
      ensures Valid() && Snapshot() == NextWorker(old(Snapshot()), w)
      ensures |workQueue.freed| - |processed| == old(|workQueue.freed| - |processed|)
      ensures Freed(old(workQueue.freed), workQueue.freed, if old(pc)[w] == Process then old(thisItem)[w] else null)
      ensures forall n :: n in workQueue.nodes ==> n in old(workQueue.nodes)
    {
      hide NextWorker, HandIds, Apart, WorkQueue.Ids, WorkQueue.Queue.Valid;
      if pc[w] == Remove {
        TakeItem(w);
      } else if pc[w] == Process {
        FinishItem(w);
      } else {
        StepAlone(w);
      }
    }

    /** A cancelled worker dies at a sem_wait. */
    method Cancelled(w: nat)
      requires Valid() && Enabled(Snapshot(), Die(w))
      modifies this`pc
      ensures Valid() && Snapshot() == Next(old(Snapshot()), Die(w))
    {
      pc := pc[w := Dead];
    }

    /** Whether e can happen now. */
    method CanHappen(e: Event) returns (b: bool)
      requires Valid()
      ensures b == Enabled(Snapshot(), e)
    {
      match e {
        case Boss =>
          match boss {
            case LockAdd | LockPoll => b := workQueueLock > 0;
            case Join => b := joined < |pc| && pc[joined] == Dead;
            case Exit => b := false;
            case _ => b := true;
          }
        case Worker(w) =>
          if w >= |pc| {
            return false;
          }
          match pc[w] {
            case WaitWork => b := workAvailable > 0;
            case WaitLock => b := workQueueLock > 0;
            case Dead | Crashed => b := false;
            case _ => b := true;
          }
        case Die(w) => b := w < |pc| && pending[w] && !masked[w] && (pc[w].WaitWork? || pc[w].WaitLock? || pc[w].Process?);
      }
    }

    /** One step of the contractor or of a worker, or the death of a cancelled worker. */
    method Perform(e: Event)
      requires Valid() && Enabled(Snapshot(), e)
      modifies this, workQueue, workQueue.nodes
      ensures Valid() && Snapshot() == Next(old(Snapshot()), e)
      ensures |workQueue.freed| - |processed| == old(|workQueue.freed| - |processed|)
      ensures fresh(set n | n in workQueue.nodes && n !in old(workQueue.nodes))
    {
      hide NextBoss, NextWorker, HandIds, Apart, WorkQueue.Ids, WorkQueue.Queue.Valid;
      match e {
        case Boss => StepBoss();
        case Worker(w) => StepWorker(w);
        case Die(w) => Cancelled(w);
      }
    }

    /** Run the contractor and the workers under any schedule; an event that cannot happen is passed over. */
    method Run(schedule: seq<Event>) returns (ghost es: seq<Event>)
      requires Valid() && Init(Snapshot())
      modifies this, workQueue, workQueue.nodes
      ensures Valid() && Leads(old(Snapshot()), es, Snapshot()) && Inv(Snapshot())
      ensures |workQueue.freed| - |processed| == old(|workQueue.freed| - |processed|)
    {
      hide Next, Enabled, Init, Inv, HandIds, Apart, WorkQueue.Ids, WorkQueue.Queue.Valid;
      es := [];
      for k := 0 to |schedule|
        invariant Valid() && Leads(old(Snapshot()), es, Snapshot())
        invariant |workQueue.freed| - |processed| == old(|workQueue.freed| - |processed|)
        invariant fresh(set n | n in workQueue.nodes && n !in old(workQueue.nodes))
      {
        var b := CanHappen(schedule[k]);
        if b {
          LeadsAppend(old(Snapshot()), es, Snapshot(), schedule[k]);
          Perform(schedule[k]);
          es := es + [schedule[k]];
        }
      }
      InitInv(old(Snapshot()));
      LeadsInv(old(Snapshot()), es, Snapshot());
    }
  }
}
