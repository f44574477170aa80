/**
 Where the recovery protocol stops being safe, and with that exactly when it is: with a second buyer, and
 with a departure that passes between an item's look at it and the scan.
 */
module RecoveryRaces {
  import opened Wrappers
  import opened Recovery
  import opened RecoverySafety

  // ---------------------------------------------------------------- taking steps

  lemma Extend(n: nat, timely: bool, s: State, step: Step, t: State)
    requires Reachable(n, timely, s) && Next(s, step) == Some(t) && (timely ==> Timely(s, step))
    ensures Reachable(n, timely, t)
  {
    hide Next, Timely, Initial;
    var init, steps :| Initial(init, n) && Run(init, steps) == Some(s) && (timely ==> TimelyRun(init, steps));
    RunAppends(init, steps, step);
    assert Run(init, steps + [step]) == Some(t) && (timely ==> TimelyRun(init, steps + [step]));
  }

  lemma BuyerTakes(n: nat, s: State, k: nat, step: BuyerStep) returns (t: State)
    requires Reachable(n, true, s) && BuyerNext(s, k, step).Some?
    ensures t == BuyerNext(s, k, step).value && Reachable(n, true, t)
  {
    hide Reachable, BuyerNext;
    t := BuyerNext(s, k, step).value;
    Extend(n, true, s, ByBuyer(k, step), t);
  }

  lemma CycleTakes(n: nat, s: State, step: CycleStep) returns (t: State)
    requires Reachable(n, true, s) && CycleNext(s, step).Some?
    ensures t == CycleNext(s, step).value && Reachable(n, true, t)
  {
    hide Reachable, CycleNext;
    t := CycleNext(s, step).value;
    Extend(n, true, s, ByCycle(step), t);
  }

  lemma TaskTakes(n: nat, timely: bool, s: State, step: TaskStep) returns (t: State)
    requires Reachable(n, timely, s) && TaskNext(s, step).Some?
    ensures t == TaskNext(s, step).value && Reachable(n, timely, t)
  {
    hide Reachable, TaskNext;
    t := TaskNext(s, step).value;
    Extend(n, timely, s, ByTask(step), t);
  }

  lemma WorldTakes(n: nat, s: State, step: WorldStep) returns (t: State)
    requires Reachable(n, false, s) && WorldNext(s, step).Some?
    ensures t == WorldNext(s, step).value && Reachable(n, false, t)
  {
    hide Reachable, WorldNext;
    t := WorldNext(s, step).value;
    Extend(n, false, s, ByWorld(step), t);
  }

  /** A timely run is one of all runs. */
  lemma TimelyIsReachable(n: nat, s: State)
    requires Reachable(n, true, s)
    ensures Reachable(n, false, s)
  {
    hide Run, TimelyRun, Initial;
  }

  // ---------------------------------------------------------------- two buyers

  /** One booking with this status, and n buyers. */
  function Scene(status: Status, buyers: seq<Buyer>): State {
    State(map[0 := Booking(0, status, None)], {}, {}, {}, {}, [], buyers, Idle, None, {}, {}, 5)
  }

  /** n buyers, the first of them at b. */
  function First(n: nat, b: Buyer): seq<Buyer>
    requires n >= 1
  {
    seq(n, _ => Free)[0 := b]
  }

  function Second(n: nat, b: Buyer): seq<Buyer>
    requires n >= 2
  {
    seq(n, _ => Free)[1 := b]
  }

  /** The recoverer works on the booking's record. */
  function On(s: State, phase: Phase, handled: set<Id>, at: Stage): State {
    s.(phase := phase, handled := handled, task := Some(Task(Record(0, None, 0), at)))
  }

  function Pushed(n: nat): State
    requires n >= 1
  {
    Scene(Buying, First(n, Parking(0))).(queue := [Record(0, None, 0)])
  }

  lemma RecordIsPushed(n: nat)
    requires n >= 1
    ensures Reachable(n, true, Pushed(n))
  {
    var s := Scene(Pending, seq(n, _ => Free));
    assert Reachable(n, true, s) by {
      assert Initial(s, n) && Run(s, []) == Some(s) && TimelyRun(s, []);
    }
    hide Reachable;
    var t := BuyerTakes(n, s, 0, Start(0));
    var u := BuyerTakes(n, t, 0, PushRecord(false));
    assert u.queue == [Record(0, None, 0)];
    assert u == Pushed(n);
  }

  function Popped(n: nat): State
    requires n >= 1
  {
    On(Scene(Buying, First(n, Parking(0))), Draining(0), {0}, Fetch)
  }

  /** The record is popped while its buyer has still to make the transition. */
  lemma RecordIsPopped(n: nat)
    requires n >= 1
    ensures Reachable(n, true, Popped(n))
  {
    RecordIsPushed(n);
    hide Reachable;
    var s := CycleTakes(n, Pushed(n), BeginDrain);
    s := CycleTakes(n, s, Pop);
    assert s.handled == {0} && s.queue == [];
    assert s == Popped(n);
  }

  function Recycling(n: nat): State
    requires n >= 1
  {
    On(Scene(Recovering, First(n, Parking(0))), Draining(0), {0}, Recycle)
  }

  lemma RecordIsTriaged(n: nat)
    requires n >= 1
    ensures Reachable(n, true, On(Scene(Recovering, First(n, Parking(0))), Draining(0), {0}, Triage))
  {
    RecordIsPopped(n);
    hide Reachable;
    var s := TaskTakes(n, true, Popped(n), GetBooking);
    s := TaskTakes(n, true, s, MarkRecovering);
    assert s.bookings == map[0 := Booking(0, Recovering, None)];
  }

  lemma NothingIsFound(n: nat)
    requires n >= 1
    ensures Reachable(n, true, Recycling(n))
  {
    RecordIsTriaged(n);
    hide Reachable;
    var s := On(Scene(Recovering, First(n, Parking(0))), Draining(0), {0}, Triage);
    s := TaskTakes(n, true, s, StillAhead);
    s := TaskTakes(n, true, s, ScanFindsNothing);
    assert s == Recycling(n);
  }

  function Recycled(n: nat): State
    requires n >= 1
  {
    Scene(Pending, First(n, Parking(0))).(phase := Drained, handled := {0}, recycled := {0})
  }

  lemma BookingIsRecycled(n: nat)
    requires n >= 1
    ensures Reachable(n, true, Recycled(n))
  {
    NothingIsFound(n);
    hide Reachable;
    var s := TaskTakes(n, true, Recycling(n), RecycleDone);
    s := CycleTakes(n, s, EndDrain);
    assert s.bookings == map[0 := Booking(0, Pending, None)] && s.recycled == {0};
  }

  function BoughtAgain(n: nat): State
    requires n >= 2
  {
    Scene(Buying, First(n, Parking(0))[1 := Purchasing(0)]).(handled := {0}, recycled := {0})
  }

  /** A second buyer buys the booking again while the first has still to make the transition. */
  lemma BookingIsBoughtAgain(n: nat)
    requires n >= 2
    ensures Reachable(n, true, BoughtAgain(n))
  {
    BookingIsRecycled(n);
    hide Reachable;
    var s := CycleTakes(n, Recycled(n), EndCycle);
    s := BuyerTakes(n, s, 1, Start(0));
    assert s.bookings == map[0 := Booking(0, Buying, None)];
  }

  function Stuck(n: nat): State
    requires n >= 2
  {
    Scene(Recovering, Second(n, Purchasing(0))).(phase := Draining(0), recycled := {0})
  }

  /** The late transition lands on the purchase under way. */
  lemma BookingIsStuck(n: nat)
    requires n >= 2
    ensures Reachable(n, true, Stuck(n))
  {
    BookingIsBoughtAgain(n);
    hide Reachable;
    var s := BuyerTakes(n, BoughtAgain(n), 0, Transition);
    assert s.bookings == map[0 := Booking(0, Recovering, None)];
    s := CycleTakes(n, s, BeginDrain);
    assert s.buyers == Second(n, Purchasing(0));
  }

  function Collided(n: nat, at: Stage): State
    requires n >= 2
  {
    On(Scene(Recovering, Second(n, Purchasing(0))).(recycled := {0}), Sweeping([]), {}, at)
  }

  lemma BookingIsListed(n: nat)
    requires n >= 2
    ensures Reachable(n, true, Stuck(n).(phase := Listed([0])))
  {
    BookingIsStuck(n);
    hide Reachable;
    var s := CycleTakes(n, Stuck(n), EndDrain);
    s := CycleTakes(n, s, List([0]));
  }

  lemma BookingIsSwept(n: nat)
    requires n >= 2
    ensures Reachable(n, true, Collided(n, Fetch))
  {
    BookingIsListed(n);
    hide Reachable;
    var s := CycleTakes(n, Stuck(n).(phase := Listed([0])), ReadQueue);
    assert Unhandled([0], {}, []) == [0] + Unhandled([0][1..], {}, []);
    s := CycleTakes(n, s, TakeNext);
    assert s == Collided(n, Fetch);
  }

  /** With two buyers the recoverer can work on a booking whose purchase is under way ... */
  lemma TwoBuyersCanCollide(n: nat)
    requires n >= 2
    ensures exists s :: Reachable(n, true, s) && !NeverCollides(s)
  {
    BookingIsSwept(n);
    hide Reachable;
    var s := Collided(n, Fetch);
    assert InFlight(s, 0) by {
      assert BuysFor(s.buyers[1], 0);
    }
    assert Reachable(n, true, s) && !NeverCollides(s);
  }

  /** ... the buyer can queue its record while the sweep already works on the booking ... */
  lemma TwoBuyersCanQueueTheSwept(n: nat)
    requires n >= 2
    ensures exists s :: Reachable(n, true, s) && !SweepLeavesLiveRecords(s)
  {
    BookingIsSwept(n);
    hide Reachable;
    var s := BuyerTakes(n, Collided(n, Fetch), 1, PushRecord(false));
    assert Record(0, None, 0) in s.queue;
    assert Reachable(n, true, s) && !SweepLeavesLiveRecords(s);
  }

  function PaidFor(s: State, buyers: seq<Buyer>): State {
    var ticket := Ticket(7, 0, Some(0));
    s.(account := {ticket}, issued := {7}, bought := {ticket}, buyers := buyers)
  }

  lemma SweptBookingIsScanned(n: nat)
    requires n >= 2
    ensures Reachable(n, true, Collided(n, Scan))
  {
    BookingIsSwept(n);
    hide Reachable;
    var s := TaskTakes(n, true, Collided(n, Fetch), GetBooking);
    s := TaskTakes(n, true, s, StillAhead);
    assert s == Collided(n, Scan);
  }

  lemma TicketIsPaidAfterTheScan(n: nat)
    requires n >= 2
    ensures Reachable(n, true, PaidFor(Collided(n, Recycle), Second(n, Paid(0, 7))))
  {
    SweptBookingIsScanned(n);
    hide Reachable;
    var s := TaskTakes(n, true, Collided(n, Scan), ScanFindsNothing);
    s := BuyerTakes(n, s, 1, Purchase(7));
    assert s.buyers == Second(n, Paid(0, 7)) && s.account == {Ticket(7, 0, Some(0))} == s.bought && s.issued == {7};
  }

  /** ... and refund the ticket that purchase captures. */
  lemma TwoBuyersCanLoseATicket(n: nat)
    requires n >= 2
    ensures exists s :: Reachable(n, true, s) && !NoPaidTicketRefunded(s)
  {
    TicketIsPaidAfterTheScan(n);
    hide Reachable;
    var s := PaidFor(Collided(n, Recycle), Second(n, Paid(0, 7)));
    s := TaskTakes(n, true, s, RetriesExhausted);
    s := TaskTakes(n, true, s, MarkDuplicate);
    assert Has(s, 0, Duplicate) && Ticket(7, 0, Some(0)) in s.bought && !Recorded(s, 7);
  }

  // ---------------------------------------------------------------- a departure between look and scan

  lemma TicketIsPaid(n: nat)
    requires n >= 1
    ensures Reachable(n, true, PaidFor(Scene(Buying, []), First(n, Paid(0, 7))))
  {
    var s := Scene(Pending, seq(n, _ => Free));
    assert Reachable(n, true, s) by {
      assert Initial(s, n) && Run(s, []) == Some(s) && TimelyRun(s, []);
    }
    hide Reachable;
    s := BuyerTakes(n, s, 0, Start(0));
    s := BuyerTakes(n, s, 0, Purchase(7));
    assert s.buyers == First(n, Paid(0, 7)) && s.account == {Ticket(7, 0, Some(0))} == s.bought && s.issued == {7};
    assert s.bookings == map[0 := Booking(0, Buying, None)];
  }

  /** A captured ticket whose record lacks a number, waiting to be drained. */
  function Waiting(n: nat): State
    requires n >= 1
  {
    PaidFor(Scene(Recovering, []), First(n, Free)).(queue := [Record(0, None, 0)])
  }

  lemma PaidRecordIsPushed(n: nat)
    requires n >= 1
    ensures Reachable(n, true, PaidFor(Scene(Buying, []), First(n, Parking(0))).(queue := [Record(0, None, 0)]))
  {
    TicketIsPaid(n);
    hide Reachable;
    var s := BuyerTakes(n, PaidFor(Scene(Buying, []), First(n, Paid(0, 7))), 0, PushRecord(false));
    assert s.queue == [Record(0, None, 0)] && s.buyers == First(n, Parking(0));
  }

  lemma PaidBookingIsParked(n: nat)
    requires n >= 1
    ensures Reachable(n, true, Waiting(n))
  {
    PaidRecordIsPushed(n);
    hide Reachable;
    var s := PaidFor(Scene(Buying, []), First(n, Parking(0))).(queue := [Record(0, None, 0)]);
    s := BuyerTakes(n, s, 0, Transition);
    assert s.bookings == map[0 := Booking(0, Recovering, None)] && s.buyers == First(n, Free);
  }

  function LookedAt(n: nat, at: Stage): State
    requires n >= 1
  {
    On(PaidFor(Scene(Recovering, []), First(n, Free)), Draining(0), {0}, at)
  }

  lemma PaidBookingIsPopped(n: nat)
    requires n >= 1
    ensures Reachable(n, true, LookedAt(n, Fetch))
  {
    PaidBookingIsParked(n);
    hide Reachable;
    var s := CycleTakes(n, Waiting(n), BeginDrain);
    s := CycleTakes(n, s, Pop);
    assert s.handled == {0} && s.queue == [];
    assert s == LookedAt(n, Fetch);
  }

  lemma DepartureIsAhead(n: nat)
    requires n >= 1
    ensures Reachable(n, false, LookedAt(n, Scan))
  {
    PaidBookingIsPopped(n);
    TimelyIsReachable(n, LookedAt(n, Fetch));
    hide Reachable;
    var s := TaskTakes(n, false, LookedAt(n, Fetch), GetBooking);
    s := TaskTakes(n, false, s, StillAhead);
    assert s == LookedAt(n, Scan);
  }

  lemma TicketDeparts(n: nat)
    requires n >= 1
    ensures Reachable(n, false, LookedAt(n, Scan).(departed := {0}, account := {}))
  {
    DepartureIsAhead(n);
    hide Reachable;
    var s := WorldTakes(n, LookedAt(n, Scan), Depart(0));
    s := WorldTakes(n, s, TicketGone(Ticket(7, 0, Some(0))));
    assert s.account == {} && s.departed == {0};
  }

  function Missed(n: nat, at: Stage): State
    requires n >= 1
  {
    LookedAt(n, at).(departed := {0}, account := {})
  }

  lemma DepartedTicketIsMissed(n: nat)
    requires n >= 1
    ensures Reachable(n, false, Missed(n, Recycle))
  {
    TicketDeparts(n);
    hide Reachable;
    var s := TaskTakes(n, false, Missed(n, Scan), ScanFindsNothing);
    assert s == Missed(n, Recycle);
  }

  lemma RecyclingIsRefused(n: nat)
    requires n >= 1
    ensures Reachable(n, false, Missed(n, Refund))
  {
    DepartedTicketIsMissed(n);
    hide Reachable;
    var s := TaskTakes(n, false, Missed(n, Recycle), RetriesExhausted);
    assert s == Missed(n, Refund);
  }

  /** A departure that passes between the look at it and the scan can have a paid ticket refunded. */
  lemma LateDepartureCanLoseATicket(n: nat)
    requires n >= 1
    ensures exists s :: Reachable(n, false, s) && !NoPaidTicketRefunded(s)
  {
    RecyclingIsRefused(n);
    hide Reachable;
    var s := TaskTakes(n, false, Missed(n, Refund), MarkDuplicate);
    assert Has(s, 0, Duplicate) && Ticket(7, 0, Some(0)) in s.bought && !Recorded(s, 7);
  }

  // ---------------------------------------------------------------- exactly when it is safe

  lemma StepWithoutBuyers(s: State, step: Step, t: State)
    requires s.buyers == [] && s.bought == {} && Next(s, step) == Some(t)
    ensures t.buyers == [] && t.bought == {}
  {
  }

  lemma {:induction false} NothingBoughtWithoutBuyers(s: State, steps: seq<Step>, t: State)
    requires s.buyers == [] && s.bought == {} && Run(s, steps) == Some(t)
    ensures t.bought == {}
    decreases |steps|
  {
    hide Next;
    if steps != [] {
      var u := Next(s, steps[0]).value;
      StepWithoutBuyers(s, steps[0], u);
      NothingBoughtWithoutBuyers(u, steps[1..], t);
    }
  }

  lemma AtMostOneBuyer(n: nat, timely: bool, s: State)
    requires n <= 1 && Reachable(n, timely, s)
    ensures NeverCollides(s) && SweepLeavesLiveRecords(s)
    ensures n == 0 || timely ==> NoPaidTicketRefunded(s)
  {
    var init, steps :| Initial(init, n) && Run(init, steps) == Some(s) && (timely ==> TimelyRun(init, steps));
    hide NeverCollides, SweepLeavesLiveRecords;
    SingleBuyerIsOrderly(init, steps);
    OrderlyRunsAreSafe(n, init, steps, s);
    if n == 0 {
      NothingBoughtWithoutBuyers(init, steps, s);
    }
  }

  /**
   Over all runs, or all with timely departures: the recoverer keeps clear of purchases, and its sweep of live
   records, exactly when there is at most one buyer; and no paid ticket is refunded exactly when there is none,
   or one and departures are timely.
   */
  lemma SafeExactlyWhen(n: nat, timely: bool)
    ensures (forall s | Reachable(n, timely, s) :: NeverCollides(s)) <==> n <= 1
    ensures (forall s | Reachable(n, timely, s) :: SweepLeavesLiveRecords(s)) <==> n <= 1
    ensures (forall s | Reachable(n, timely, s) :: NoPaidTicketRefunded(s)) <==> n == 0 || (n == 1 && timely)
  {
    hide NeverCollides, SweepLeavesLiveRecords, NoPaidTicketRefunded, Reachable;
    if n <= 1 {
      forall s | Reachable(n, timely, s)
        ensures NeverCollides(s) && SweepLeavesLiveRecords(s) && (n == 0 || timely ==> NoPaidTicketRefunded(s))
      {
        AtMostOneBuyer(n, timely, s);
      }
    } else {
      TwoBuyersCanCollide(n);
      var s :| Reachable(n, true, s) && !NeverCollides(s);
      TimelyIsReachable(n, s);
      TwoBuyersCanQueueTheSwept(n);
      var r :| Reachable(n, true, r) && !SweepLeavesLiveRecords(r);
      TimelyIsReachable(n, r);
      TwoBuyersCanLoseATicket(n);
      var t :| Reachable(n, true, t) && !NoPaidTicketRefunded(t);
      TimelyIsReachable(n, t);
    }
    if n >= 1 && !timely {
      LateDepartureCanLoseATicket(n);
    }
  }
}
