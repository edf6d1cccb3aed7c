/**
 The sleeping barber: four counting semaphores, a closing flag read without a lock, and a main
 thread that joins the customers, raises the flag and wakes the barber one last time.
 */
module SleepingBarber {
  import opened SeqMath

  datatype CustomerPC =
    | WaitRoom | WaitSeat | PostRoom | PostBed | WaitDone | PostSeat | Gone

  datatype BarberPC =
    | TestFlag | WaitBed | CheckFlag | CutHair | PostDone | Home

  datatype MainPC =
    | JoinCustomers | RaiseFlag | WakeBarber | JoinBarber | End

  datatype State = State(
    room: int,              // waiting_room
    seat: int,              // barber_seat
    done: int,              // done_with_customer
    bed: int,               // barber_bed
    flag: bool,             // done_with_all_customers
    cust: seq<CustomerPC>,
    barber: BarberPC,
    main: MainPC,
    joined: int,
    haircuts: int,
    chairs: int)            // num_waiting_chairs

  datatype Event = Customer(i: nat) | Barber | Main

  ghost predicate Init(s: State) {
    && s.room == s.chairs >= 0 && s.seat == 1 && s.done == 0 && s.bed == 0 && !s.flag
    && (forall i :: 0 <= i < |s.cust| ==> s.cust[i] == WaitRoom)
    && s.barber == TestFlag && s.main == JoinCustomers && s.joined == 0 && s.haircuts == 0
  }

  predicate Enabled(s: State, e: Event) {
    match e
    case Customer(i) => i < |s.cust| &&
      (match s.cust[i]
       case WaitRoom => s.room > 0
       case WaitSeat => s.seat > 0
       case WaitDone => s.done > 0
       case Gone => false
       case _ => true)
    case Barber => (s.barber == WaitBed ==> s.bed > 0) && s.barber != Home
    case Main =>
      match s.main
      case JoinCustomers => 0 <= s.joined && (s.joined < |s.cust| ==> s.cust[s.joined] == Gone)
      case JoinBarber => s.barber == Home
      case End => false
      case _ => true
  }

  function Next(s: State, e: Event): State
    requires Enabled(s, e)
  {
    match e
    case Customer(i) => NextCustomer(s, i)
    case Barber => NextBarber(s)
    case Main => NextMain(s)
  }

  function NextCustomer(s: State, i: nat): State
    requires Enabled(s, Customer(i))
  {
    match s.cust[i]
    case WaitRoom => s.(cust := s.cust[i := WaitSeat], room := s.room - 1)
    case WaitSeat => s.(cust := s.cust[i := PostRoom], seat := s.seat - 1)
    case PostRoom => s.(cust := s.cust[i := PostBed], room := s.room + 1)
    case PostBed => s.(cust := s.cust[i := WaitDone], bed := s.bed + 1)
    case WaitDone => s.(cust := s.cust[i := PostSeat], done := s.done - 1)
    case PostSeat => s.(cust := s.cust[i := Gone], seat := s.seat + 1)
  }

  function NextBarber(s: State): State
    requires Enabled(s, Barber)
  {
    match s.barber
    case TestFlag => s.(barber := if s.flag then Home else WaitBed)
    case WaitBed => s.(barber := CheckFlag, bed := s.bed - 1)
    case CheckFlag => s.(barber := if s.flag then TestFlag else CutHair)
    case CutHair => s.(barber := PostDone, haircuts := s.haircuts + 1)
    case PostDone => s.(barber := TestFlag, done := s.done + 1)
  }

  function NextMain(s: State): State
    requires Enabled(s, Main)
  {
    match s.main
    case JoinCustomers => if s.joined < |s.cust| then s.(joined := s.joined + 1) else s.(main := RaiseFlag)
    case RaiseFlag => s.(main := WakeBarber, flag := true)
    case WakeBarber => s.(main := JoinBarber, bed := s.bed + 1)
    case JoinBarber => s.(main := End)
  }

  ghost predicate Leads(s: State, es: seq<Event>, t: State)
    decreases |es|
  {
    if es == [] then s == t else Enabled(s, es[0]) && Leads(Next(s, es[0]), es[1..], t)
  }

  // ----- the invariant -----

  predicate OnChair(c: CustomerPC) { c.WaitSeat? || c.PostRoom? }

  predicate InSeat(c: CustomerPC) { c.PostRoom? || c.PostBed? || c.WaitDone? || c.PostSeat? }

  predicate Waiting(c: CustomerPC) { c.WaitDone? }

  predicate Trimmed(c: CustomerPC) { c.PostSeat? || c.Gone? }

  /** The barber took a wake-up and has not yet answered it. */
  predicate Busy(b: BarberPC) { b.CheckFlag? || b.CutHair? || b.PostDone? }

  ghost predicate SeatInv(s: State) {
    && s.room >= 0 && s.room + Count(s.cust, OnChair) == s.chairs
    && s.seat >= 0 && s.seat + Count(s.cust, InSeat) == 1
  }

  /** Until closing time, the wake-up, the cut or the done signal of exactly the waiting customer is under way. */
  ghost predicate SignalInv(s: State) {
    && s.bed >= 0 && s.done >= 0
    && (if s.main.JoinBarber? || s.main.End?
        then s.done == 0 && !s.barber.CutHair? && !s.barber.PostDone? && (s.barber == WaitBed ==> s.bed == 1)
        else s.bed + s.done + (if Busy(s.barber) then 1 else 0) == Count(s.cust, Waiting))
    && (s.main.WakeBarber? ==> !Busy(s.barber) && s.bed == 0 && s.done == 0)
  }

  ghost predicate ClosingInv(s: State) {
    && 0 <= s.joined <= |s.cust|
    && (forall i :: 0 <= i < s.joined ==> s.cust[i] == Gone)
    && (s.main != JoinCustomers ==> s.joined == |s.cust|)
    && (s.flag <==> s.main.WakeBarber? || s.main.JoinBarber? || s.main.End?)
    && (s.barber == Home ==> s.flag)
    && (s.main == End ==> s.barber == Home)
  }

  ghost predicate HaircutInv(s: State) {
    s.haircuts == Count(s.cust, Trimmed) + s.done + (if s.barber.PostDone? then 1 else 0)
  }

  ghost predicate Inv(s: State) {
    SeatInv(s) && SignalInv(s) && ClosingInv(s) && HaircutInv(s)
  }

  lemma InitInv(s: State)
    requires Init(s)
    ensures Inv(s)
  {
    CountBound(s.cust, OnChair);
    CountBound(s.cust, InSeat);
    CountBound(s.cust, Waiting);
    CountBound(s.cust, Trimmed);
  }

  /** Whoever waits for a cut is in the seat, so there is at most one. */
  lemma {:induction false} WaitingInSeat(cust: seq<CustomerPC>)
    ensures Count(cust, Waiting) <= Count(cust, InSeat)
  {
    if cust != [] {
      WaitingInSeat(cust[1..]);
    }
  }

  lemma AllGone(s: State)
    requires ClosingInv(s) && s.main != JoinCustomers
    ensures Count(s.cust, Waiting) == 0 && Count(s.cust, Trimmed) == |s.cust|
  {
    CountBound(s.cust, Waiting);
    CountBound(s.cust, Trimmed);
  }

  lemma CustomerStep(s: State, i: nat)
    requires Inv(s) && Enabled(s, Customer(i))
    ensures Inv(NextCustomer(s, i))
  {
    var t := NextCustomer(s, i);
    CountUpdate(s.cust, i, t.cust[i], OnChair);
    CountUpdate(s.cust, i, t.cust[i], InSeat);
    CountUpdate(s.cust, i, t.cust[i], Waiting);
    CountUpdate(s.cust, i, t.cust[i], Trimmed);
  }

  lemma BarberStep(s: State)
    requires Inv(s) && Enabled(s, Barber)
    ensures Inv(NextBarber(s))
  {
  }

  lemma MainStep(s: State)
    requires Inv(s) && Enabled(s, Main)
    ensures Inv(NextMain(s))
  {
    if s.main != JoinCustomers {
      AllGone(s);
    }
  }

  lemma StepInv(s: State, e: Event)
    requires Inv(s) && Enabled(s, e)
    ensures Inv(Next(s, e)) && |Next(s, e).cust| == |s.cust| && Next(s, e).chairs == s.chairs
  {
    match e
    case Customer(i) => CustomerStep(s, i);
    case Barber => BarberStep(s);
    case Main => MainStep(s);
  }

  lemma {:induction false} LeadsInv(s: State, es: seq<Event>, t: State)
    requires Inv(s) && Leads(s, es, t)
    ensures Inv(t) && |t.cust| == |s.cust| && t.chairs == s.chairs
    decreases |es|
  {
    if es != [] {
      StepInv(s, es[0]);
      LeadsInv(Next(s, es[0]), es[1..], t);
    }
  }

  // ----- what every run satisfies -----

  /** Two customers are never in the seat together. */
  lemma OneInTheSeat(s: State, es: seq<Event>, t: State, i: nat, j: nat)
    requires Init(s) && Leads(s, es, t) && i < j < |t.cust|
    ensures !(InSeat(t.cust[i]) && InSeat(t.cust[j]))
  {
    InitInv(s);
    LeadsInv(s, es, t);
    if InSeat(t.cust[i]) && InSeat(t.cust[j]) {
      CountUnique(t.cust, InSeat, i, j);
    }
  }

  /** While a customer waits for a cut the shop is open, and exactly one signal for that customer is under way. */
  lemma WaitingIsServed(s: State, es: seq<Event>, t: State, i: nat)
    requires Init(s) && Leads(s, es, t) && i < |t.cust| && t.cust[i] == WaitDone
    ensures !t.flag && t.barber != Home
    ensures t.bed + t.done + (if Busy(t.barber) then 1 else 0) == 1
  {
    InitInv(s);
    LeadsInv(s, es, t);
    CountBound(t.cust, Waiting);
    WaitingInSeat(t.cust);
    if t.flag {
      AllGone(t);
    }
  }

  /** When the main thread ends, the barber is home and has cut every customer's hair once. */
  lemma EverybodyServed(s: State, es: seq<Event>, t: State)
    requires Init(s) && Leads(s, es, t) && t.barber == Home
    ensures t.haircuts == |s.cust| && t.flag && forall i :: 0 <= i < |t.cust| ==> t.cust[i] == Gone
  {
    InitInv(s);
    LeadsInv(s, es, t);
    AllGone(t);
  }

  ghost predicate CanMove(s: State) {
    exists e :: Enabled(s, e)
  }

  lemma CustomersMove(s: State)
    requires Inv(s) && s.chairs >= 1 && s.main == JoinCustomers && !Enabled(s, Main)
    ensures CanMove(s)
  {
    CountBound(s.cust, OnChair);
    CountBound(s.cust, InSeat);
    CountBound(s.cust, Waiting);
    if i: nat :| i < |s.cust| && s.cust[i] == WaitDone {
      assert Enabled(s, Customer(i)) || Enabled(s, Barber);
    } else if i: nat :| i < |s.cust| && InSeat(s.cust[i]) {
      assert Enabled(s, Customer(i));
    } else if i: nat :| i < |s.cust| && OnChair(s.cust[i]) {
      assert Enabled(s, Customer(i));
    } else {
      assert Enabled(s, Customer(s.joined));
    }
  }

  lemma InvCanMove(s: State)
    requires Inv(s) && s.main != End && (s.chairs >= 1 || |s.cust| == 0)
    ensures CanMove(s)
  {
    if !Enabled(s, Main) {
      if s.main == JoinCustomers {
        CustomersMove(s);
      } else {
        assert Enabled(s, Barber);
      }
    }
  }

  ghost predicate NeverStuck(s: State) {
    forall es, t :: Leads(s, es, t) && t.main != End ==> CanMove(t)
  }

  /** With no chair the first customer can never enter. */
  lemma NoChairs(s: State)
    requires Init(s) && s.chairs == 0 && |s.cust| >= 1
    ensures !NeverStuck(s)
  {
    var t := s.(barber := WaitBed);
    assert Leads(t, [], t);
    assert [Barber][1..] == [];
    assert Leads(s, [Barber], t);
    assert !CanMove(t);
  }

  /** No reachable state is deadlocked exactly when there is a chair or nobody comes. */
  lemma DeadlockFreeExactly(s: State)
    requires Init(s)
    ensures NeverStuck(s) <==> s.chairs >= 1 || |s.cust| == 0
  {
    if s.chairs >= 1 || |s.cust| == 0 {
      forall es, t | Leads(s, es, t) && t.main != End ensures CanMove(t) {
        InitInv(s);
        LeadsInv(s, es, t);
        InvCanMove(t);
      }
    } else {
      NoChairs(s);
    }
  }

  // ----- every run ends -----

  function CustomerRank(c: CustomerPC): nat {
    match c
    case WaitRoom => 12
    case WaitSeat => 11
    case PostRoom => 10
    case PostBed => 9
    case WaitDone => 2
    case PostSeat => 1
    case Gone => 0
  }

  ghost function Ranks(cust: seq<CustomerPC>): (r: nat)
    ensures r <= 12 * |cust|
  {
    if cust == [] then 0 else CustomerRank(cust[0]) + Ranks(cust[1..])
  }

  lemma {:induction false} RanksUpdate(cust: seq<CustomerPC>, i: nat, c: CustomerPC)
    requires i < |cust|
    ensures Ranks(cust[i := c]) == Ranks(cust) - CustomerRank(cust[i]) + CustomerRank(c)
  {
    if i == 0 {
      assert cust[i := c][1..] == cust[1..];
    } else {
      assert cust[i := c][1..] == cust[1..][i - 1 := c];
      RanksUpdate(cust[1..], i - 1, c);
    }
  }

  function BarberRank(b: BarberPC): nat {
    match b
    case CheckFlag => 4
    case CutHair => 3
    case PostDone => 2
    case TestFlag => 1
    case WaitBed | Home => 0
  }

  function MainRank(s: State): int {
    match s.main
    case JoinCustomers => 10 + |s.cust| - s.joined
    case RaiseFlag => 9
    case WakeBarber => 8
    case JoinBarber => 1
    case End => 0
  }

  ghost function Rank(s: State): int {
    Ranks(s.cust) + 5 * s.bed + BarberRank(s.barber) + MainRank(s)
  }

  lemma CustomerRankStep(s: State, i: nat)
    requires Enabled(s, Customer(i))
    ensures Rank(NextCustomer(s, i)) < Rank(s)
  {
    hide Ranks;
    RanksUpdate(s.cust, i, NextCustomer(s, i).cust[i]);
  }

  lemma StepRank(s: State, e: Event)
    requires Inv(s) && Enabled(s, e)
    ensures Rank(Next(s, e)) < Rank(s)
  {
    match e
    case Customer(i) => CustomerRankStep(s, i);
    case Barber =>
    case Main =>
  }

  lemma {:induction false} RunLength(s: State, es: seq<Event>, t: State)
    requires Inv(s) && Leads(s, es, t)
    ensures |es| <= Rank(s) - Rank(t)
    decreases |es|
  {
    if es != [] {
      StepInv(s, es[0]);
      StepRank(s, es[0]);
      RunLength(Next(s, es[0]), es[1..], t);
    }
  }

  /** Every run is at most 13 steps per customer and 11 more long, and one that cannot go on has closed the shop. */
  lemma EveryRunCloses(s: State, es: seq<Event>, t: State)
    requires Init(s) && Leads(s, es, t) && (s.chairs >= 1 || |s.cust| == 0)
    ensures |es| <= 13 * |s.cust| + 11
    ensures !CanMove(t) ==> t.main == End && t.barber == Home && t.haircuts == |s.cust|
  {
    InitInv(s);
    LeadsInv(s, es, t);
    RunLength(s, es, t);
    if !CanMove(t) {
      if t.main != End {
        InvCanMove(t);
      } else {
        EverybodyServed(s, es, t);
      }
    }
  }

  lemma {:induction false} LeadsAppend(s: State, es: seq<Event>, t: State, e: Event)
    requires Leads(s, es, t) && Enabled(t, e)
    ensures Leads(s, es + [e], Next(t, e))
    decreases |es|
  {
    if es == [] {
      assert (es + [e])[1..] == [];
    } else {
      assert (es + [e])[1..] == es[1..] + [e];
      LeadsAppend(Next(s, es[0]), es[1..], t, e);
    }
  }

  // ----- the shop, updated in place -----

  class Shop {
    const chairs: int
    var waitingRoom: int
    var barberSeat: int
    var doneWithCustomer: int
    var barberBed: int
    var doneWithAllCustomers: bool
    var cust: seq<CustomerPC>
    var barber: BarberPC
    var main: MainPC
    var joined: int
    var haircuts: int

    function Snapshot(): State
      reads this
    {
      State(waitingRoom, barberSeat, doneWithCustomer, barberBed, doneWithAllCustomers, cust, barber, main, joined, haircuts, chairs)
    }

    constructor (customers: nat, chairs: nat)
      ensures Init(Snapshot()) && |cust| == customers && Snapshot().chairs == chairs
    {
      this.chairs := chairs;
      waitingRoom, barberSeat, doneWithCustomer, barberBed := chairs, 1, 0, 0;
      doneWithAllCustomers := false;
      cust := seq(customers, _ => WaitRoom);
      barber, main, joined, haircuts := TestFlag, JoinCustomers, 0, 0;
    }

    method StepCustomer(i: nat)
      requires Enabled(Snapshot(), Customer(i))
      modifies this
      ensures Snapshot() == NextCustomer(old(Snapshot()), i)
    {
      match cust[i] {
        case WaitRoom => waitingRoom, cust := waitingRoom - 1, cust[i := WaitSeat];
        case WaitSeat => barberSeat, cust := barberSeat - 1, cust[i := PostRoom];
        case PostRoom => waitingRoom, cust := waitingRoom + 1, cust[i := PostBed];
        case PostBed => barberBed, cust := barberBed + 1, cust[i := WaitDone];
        case WaitDone => doneWithCustomer, cust := doneWithCustomer - 1, cust[i := PostSeat];
        case PostSeat => barberSeat, cust := barberSeat + 1, cust[i := Gone];
      }
    }

    method StepBarber()
      requires Enabled(Snapshot(), Barber)
      modifies this
      ensures Snapshot() == NextBarber(old(Snapshot()))
    {
      match barber {
        case TestFlag => barber := if doneWithAllCustomers then Home else WaitBed;
        case WaitBed => barberBed, barber := barberBed - 1, CheckFlag;
        case CheckFlag => barber := if doneWithAllCustomers then TestFlag else CutHair;
        case CutHair => haircuts, barber := haircuts + 1, PostDone;
        case PostDone => doneWithCustomer, barber := doneWithCustomer + 1, TestFlag;
      }
    }

    method StepMain()
      requires Enabled(Snapshot(), Main)
      modifies this
      ensures Snapshot() == NextMain(old(Snapshot()))
    {
      match main {
        case JoinCustomers =>
          if joined < |cust| {
            joined := joined + 1;
          } else {
            main := RaiseFlag;
          }
        case RaiseFlag => doneWithAllCustomers, main := true, WakeBarber;
        case WakeBarber => barberBed, main := barberBed + 1, JoinBarber;
        case JoinBarber => main := End;
      }
    }

    /** Run the customers, the barber and the main thread under any schedule; an event that cannot happen is passed over. */
    method Run(schedule: seq<Event>) returns (ghost es: seq<Event>)
      requires Init(Snapshot())
      modifies this
      ensures Leads(old(Snapshot()), es, Snapshot()) && Inv(Snapshot())
    {
      es := [];
      for k := 0 to |schedule|
        invariant Leads(old(Snapshot()), es, Snapshot())
      {
        if Enabled(Snapshot(), schedule[k]) {
          LeadsAppend(old(Snapshot()), es, Snapshot(), schedule[k]);
          match schedule[k] {
            case Customer(i) => StepCustomer(i);
            case Barber => StepBarber();
            case Main => StepMain();
          }
          es := es + [schedule[k]];
        }
      }
      InitInv(old(Snapshot()));
      LeadsInv(old(Snapshot()), es, Snapshot());
    }
  }
}
