/** What every orderly run of the recovery protocol keeps: who works on what, and whose ticket is paid for. */
module RecoverySafety {
  import opened Wrappers
  import opened Recovery

  // ---------------------------------------------------------------- who works on what

  ghost predicate Live(s: State, id: Id) {
    Queued(s.queue, id) || (s.task.Some? && s.task.value.record.id == id)
  }

  predicate BuysFor(b: Buyer, id: Id) {
    (b.Purchasing? || b.Paid?) && b.id == id
  }

  ghost predicate InFlight(s: State, id: Id) {
    exists k :: 0 <= k < |s.buyers| && BuysFor(s.buyers[k], id)
  }

  /** At most one live record per booking. */
  ghost predicate OneRecord(s: State) {
    && (forall i, j | 0 <= i < j < |s.queue| :: s.queue[i].id != s.queue[j].id)
    && (s.task.Some? ==> !Queued(s.queue, s.task.value.record.id))
    && (s.task.Some? && s.task.value.at.Push? ==> s.task.value.at.record.id == s.task.value.record.id)
  }

  /** A booking being bought is marked Buying and has no live record. */
  ghost predicate BuyersApart(s: State) {
    forall k | 0 <= k < |s.buyers| && (s.buyers[k].Purchasing? || s.buyers[k].Paid?) ::
      Has(s, s.buyers[k].id, Buying) && !Live(s, s.buyers[k].id)
  }

  ghost predicate PendingApart(s: State) {
    forall id | Has(s, id, Pending) :: !Live(s, id)
  }

  /** The sweep's list: stuck bookings, none of which anyone else can reach. */
  ghost predicate ListApart(s: State) {
    match s.phase
    case Listed(ids) => s.task.None? && Distinct(ids) && (forall id | id in ids :: Has(s, id, Recovering))
    case Sweeping(todo) =>
      && Distinct(todo)
      && (forall id | id in todo :: Has(s, id, Recovering) && !Live(s, id) && id !in s.handled)
      && (s.task.Some? ==> s.task.value.record.id !in s.handled)
    case Draining(_) => s.task.Some? ==> s.task.value.record.id in s.handled
    case _ => s.task.None?
  }

  predicate Works(b: Buyer, id: Id) {
    !b.Free? && b.id == id
  }

  /** Whoever buys a booking is the only buyer concerned with it. */
  ghost predicate OneBuyerEach(s: State) {
    forall j, k | 0 <= j < |s.buyers| && 0 <= k < |s.buyers| && j != k
                  && (s.buyers[k].Purchasing? || s.buyers[k].Paid?) ::
      !Works(s.buyers[j], s.buyers[k].id)
  }

  ghost predicate Apart(s: State) {
    && OneBuyerEach(s)
    && OneRecord(s) && BuyersApart(s) && PendingApart(s) && ListApart(s)
  }

  lemma QueuedAfterPush(queue: seq<Record>, r: Record)
    ensures forall id :: Queued(queue + [r], id) <==> Queued(queue, id) || r.id == id
  {
    forall id
      ensures Queued(queue + [r], id) <==> Queued(queue, id) || r.id == id
    {
      assert r in queue + [r];
      assert forall x :: x in queue + [r] <==> x in queue || x == r;
    }
  }

  lemma QueuedAfterLoss(queue: seq<Record>, i: nat)
    requires i < |queue|
    ensures forall id :: Queued(queue[..i] + queue[i + 1..], id) ==> Queued(queue, id)
    ensures forall id :: Queued(queue, id) ==> Queued(queue[..i] + queue[i + 1..], id) || id == queue[i].id
  {
    var rest := queue[..i] + queue[i + 1..];
    assert queue == queue[..i] + [queue[i]] + queue[i + 1..];
    assert forall x :: x in queue <==> x in rest || x == queue[i];
  }

  lemma HeadIsGone(queue: seq<Record>)
    requires queue != [] && forall i, j | 0 <= i < j < |queue| :: queue[i].id != queue[j].id
    ensures !Queued(queue[1..], queue[0].id)
    ensures forall id :: Queued(queue[1..], id) ==> Queued(queue, id)
  {
    assert forall i | 0 <= i < |queue[1..]| :: queue[1..][i].id != queue[0].id;
    assert forall r | r in queue[1..] :: r in queue;
    assert queue[0] in queue;
  }

  /** No purchase of a booking begins while a buyer is still parking it. */
  predicate Orderly(s: State, step: Step) {
    step.ByBuyer? && step.buyer.Start? ==> forall b | b in s.buyers :: b != Parking(step.buyer.id)
  }

  lemma BuyersStayOneEach(s: State, k: nat, step: BuyerStep, t: State)
    requires Orderly(s, ByBuyer(k, step)) && OneBuyerEach(s) && BuyersApart(s) && BuyerNext(s, k, step) == Some(t)
    ensures OneBuyerEach(t)
  {
    forall i, j | 0 <= i < |t.buyers| && 0 <= j < |t.buyers| && i != j && (t.buyers[j].Purchasing? || t.buyers[j].Paid?)
      ensures !Works(t.buyers[i], t.buyers[j].id)
    {
      if step.Start? {
        assert forall m | 0 <= m < |s.buyers| :: s.buyers[m] in s.buyers;
      }
    }
  }

  lemma BuyerKeepsRecords(s: State, k: nat, step: BuyerStep, t: State)
    requires Apart(s) && BuyerNext(s, k, step) == Some(t)
    ensures OneRecord(t) && PendingApart(t) && ListApart(t)
    ensures forall id | Live(t, id) :: Live(s, id) || (step.PushRecord? && BuysFor(s.buyers[k], id))
  {
    BuyerQueues(s, k, step, t);
    BuyerLeavesTheList(s, k, step, t);
    hide OneBuyerEach, BuyerNext;
  }

  /** A buyer's step leaves the queue alone, or pushes one record of the booking it buys. */
  lemma BuyerQueues(s: State, k: nat, step: BuyerStep, t: State)
    requires BuyerNext(s, k, step) == Some(t)
    ensures t.task == s.task && k < |s.buyers|
    ensures step.PushRecord? ==>
              && t.queue == s.queue + [t.queue[|s.queue|]]
              && (s.buyers[k].Purchasing? || s.buyers[k].Paid?) && s.buyers[k].id == t.queue[|s.queue|].id
    ensures !step.PushRecord? ==> t.queue == s.queue
    ensures forall id | Live(t, id) :: Live(s, id) || (step.PushRecord? && BuysFor(s.buyers[k], id))
  {
    if step.PushRecord? {
      QueuedAfterPush(s.queue, t.queue[|s.queue|]);
    }
  }

  /** Nor does it take a booking out of Recovering, or make one Pending but the one it buys. */
  lemma BuyerLeavesTheList(s: State, k: nat, step: BuyerStep, t: State)
    requires BuyerNext(s, k, step) == Some(t) && BuyersApart(s)
    ensures t.phase == s.phase && t.handled == s.handled
    ensures forall id | Has(s, id, Recovering) :: Has(t, id, Recovering)
    ensures forall id | Has(t, id, Pending) :: Has(s, id, Pending) || (step.Revert? && !Live(s, id))
  {
  }

  lemma BuyerKeepsBuyersApart(s: State, k: nat, step: BuyerStep, t: State)
    requires OneBuyerEach(s) && BuyersApart(s) && PendingApart(s) && BuyerNext(s, k, step) == Some(t)
    requires forall id | Live(t, id) :: Live(s, id) || (step.PushRecord? && BuysFor(s.buyers[k], id))
    ensures BuyersApart(t)
  {
    hide Live;
    forall j | 0 <= j < |t.buyers| && (t.buyers[j].Purchasing? || t.buyers[j].Paid?)
      ensures Has(t, t.buyers[j].id, Buying) && !Live(t, t.buyers[j].id)
    {
      if j != k {
        assert !Works(s.buyers[k], s.buyers[j].id);
      }
    }
  }

  lemma BuyerKeepsApart(s: State, k: nat, step: BuyerStep, t: State)
    requires Orderly(s, ByBuyer(k, step)) && Apart(s) && BuyerNext(s, k, step) == Some(t)
    ensures Apart(t)
  {
    BuyersStayOneEach(s, k, step, t);
    BuyerKeepsRecords(s, k, step, t);
    BuyerKeepsBuyersApart(s, k, step, t);
  }

  lemma CycleKeepsApart(s: State, step: CycleStep, t: State)
    requires Apart(s) && CycleNext(s, step) == Some(t)
    ensures Apart(t)
  {
    match step {
      case Pop =>
        HeadIsGone(s.queue);
        assert s.queue[0] in s.queue;
        assert forall id | Live(t, id) :: Live(s, id);
      case TakeNext =>
        var todo := s.phase.todo;
        assert todo[0] in todo;
        assert forall id | Live(t, id) :: Live(s, id) || id == todo[0];
        assert forall id | id in todo[1..] :: id in todo;
      case ReadQueue =>
        assert forall id | Live(t, id) :: Live(s, id);
      case _ =>
        assert forall id | Live(t, id) :: Live(s, id);
    }
  }

  lemma TaskKeepsRecords(s: State, step: TaskStep, t: State)
    requires Apart(s) && TaskNext(s, step) == Some(t)
    ensures OneRecord(t) && ListApart(t)
    ensures forall id | Live(t, id) :: Live(s, id)
  {
    hide OneBuyerEach, BuyersApart, PendingApart;
    if step.PushDone? {
      QueuedAfterPush(s.queue, s.task.value.at.record);
    }
    assert forall id | Live(t, id) :: Live(s, id);
  }

  lemma TaskKeepsApart(s: State, step: TaskStep, t: State)
    requires Apart(s) && TaskNext(s, step) == Some(t)
    ensures Apart(t)
  {
    TaskKeepsRecords(s, step, t);
    hide ListApart;
    forall id | Has(t, id, Pending)
      ensures !Live(t, id)
    {
      assert Has(s, id, Pending) || (step.RecycleDone? && id == s.task.value.record.id);
    }
  }

  lemma WorldKeepsApart(s: State, step: WorldStep, t: State)
    requires Apart(s) && WorldNext(s, step) == Some(t)
    ensures Apart(t)
  {
    if step.LoseRecord? {
      QueuedAfterLoss(s.queue, step.i);
    }
    assert forall id | Live(t, id) :: Live(s, id);
  }

  // ---------------------------------------------------------------- money

  /** Every ticket ever bought for this booking is recorded on some Completed booking. */
  ghost predicate Settled(s: State, id: Id) {
    forall x | x in s.bought && x.buyer == Some(id) :: Recorded(s, x.no)
  }

  ghost predicate AccountSound(s: State) {
    && OneTicketPerKey(s)
    && (forall x | x in s.bought ::
          x.buyer.Some? && x.buyer.value in s.bookings && x.key == s.bookings[x.buyer.value].key)
    // what we paid for and nobody recorded is on the list until it departs
    && (forall x | x in s.bought :: x in s.account || x.key in s.departed || Recorded(s, x.no))
  }

  ghost predicate TaskSound(s: State) {
    s.task.Some? ==>
      var id := s.task.value.record.id;
      match s.task.value.at
      case Scan => id in s.bookings ==> s.bookings[id].key !in s.departed
      case Claim(no) => forall x | x in s.bought && x.buyer == Some(id) :: x.no == no || Recorded(s, x.no)
      case Recycle => Settled(s, id)
      case Refund => Settled(s, id)
      case _ => true
  }

  ghost predicate Money(s: State) {
    && AccountSound(s) && TaskSound(s)
    && (forall k | 0 <= k < |s.buyers| && s.buyers[k].Purchasing? :: Settled(s, s.buyers[k].id))
    && (forall id | Has(s, id, Pending) || Has(s, id, Duplicate) :: Settled(s, id))
  }

  /** No step forgets a booking, changes what it is for, or undoes a completion. */
  ghost predicate Grows(s: State, t: State) {
    && t.bookings.Keys == s.bookings.Keys
    && (forall id | id in s.bookings :: t.bookings[id].key == s.bookings[id].key)
    && (forall id | Has(s, id, Completed) :: t.bookings[id] == s.bookings[id])
  }

  lemma BuyerGrows(s: State, k: nat, step: BuyerStep, t: State)
    requires BuyerNext(s, k, step) == Some(t)
    ensures Grows(s, t)
  {
  }

  lemma TaskGrows(s: State, step: TaskStep, t: State)
    requires TaskNext(s, step) == Some(t)
    ensures Grows(s, t)
  {
  }

  lemma EveryStepGrows(s: State, step: Step, t: State)
    requires Next(s, step) == Some(t)
    ensures Grows(s, t)
  {
    match step
    case ByBuyer(k, b) => BuyerGrows(s, k, b, t);
    case ByTask(call) => TaskGrows(s, call, t);
    case _ =>
  }

  lemma RecordedStays(s: State, t: State)
    requires Grows(s, t)
    ensures forall no: Number | Recorded(s, no) :: Recorded(t, no)
  {
    forall no: Number | Recorded(s, no)
      ensures Recorded(t, no)
    {
      var c :| c in s.bookings && Has(s, c, Completed) && s.bookings[c].captured == Some(no);
      assert Has(t, c, Completed);
    }
  }

  /** A settled booking stays so while nothing is bought for it. */
  lemma SettledStays(s: State, t: State)
    requires Grows(s, t) && s.bought <= t.bought
    ensures forall id: Id | Settled(s, id) && (forall x | x in t.bought - s.bought :: x.buyer != Some(id)) ::
              Settled(t, id)
  {
    RecordedStays(s, t);
    hide Recorded, Grows;
  }

  /** What a buyer's step does to the tickets: a purchase adds one, of its own booking. */
  lemma BuyerBuys(s: State, k: nat, step: BuyerStep, t: State)
    requires BuyerNext(s, k, step) == Some(t)
    ensures s.bought <= t.bought && t.departed == s.departed && t.task == s.task
    ensures t.bought != s.bought ==> k < |s.buyers| && s.buyers[k].Purchasing? && !t.buyers[k].Purchasing?
    ensures forall x | x in t.bought - s.bought ::
              s.buyers[k].Purchasing? && x.buyer == Some(s.buyers[k].id) && x in t.account
              && s.buyers[k].id in s.bookings && x.key == s.bookings[s.buyers[k].id].key
    ensures s.account <= t.account && (OneTicketPerKey(s) ==> OneTicketPerKey(t))
  {
  }

  /** Whom a buyer's step makes Pending or Duplicate, and whom it goes on to buy. */
  lemma BuyerMoves(s: State, k: nat, step: BuyerStep, t: State)
    requires BuyerNext(s, k, step) == Some(t)
    ensures forall id | Has(t, id, Pending) || Has(t, id, Duplicate) ::
              Has(s, id, Pending) || Has(s, id, Duplicate) || (s.buyers[k] == Purchasing(id) && t.bought == s.bought)
    ensures |t.buyers| == |s.buyers|
    ensures forall j | 0 <= j < |s.buyers| && t.buyers[j].Purchasing? ::
              t.buyers[j] == s.buyers[j] || (Has(s, t.buyers[j].id, Pending) && t.bought == s.bought)
  {
  }

  lemma BuyerKeepsAccountSound(s: State, k: nat, step: BuyerStep, t: State)
    requires BuyersApart(s) && Money(s) && BuyerNext(s, k, step) == Some(t) && Grows(s, t)
    ensures AccountSound(t) && TaskSound(t)
  {
    BuyerBuys(s, k, step, t);
    RecordedStays(s, t);
    SettledStays(s, t);
    assert s.task.Some? && s.buyers[k].Purchasing? ==> s.task.value.record.id != s.buyers[k].id by {
      assert s.buyers[k].Purchasing? ==> !Live(s, s.buyers[k].id);
    }
    hide BuyerNext, Recorded, Settled, OneTicketPerKey;
  }

  lemma BuyerKeepsMoney(s: State, k: nat, step: BuyerStep, t: State)
    requires Apart(s) && Money(s) && BuyerNext(s, k, step) == Some(t)
    ensures Money(t)
  {
    BuyerGrows(s, k, step, t);
    BuyerKeepsAccountSound(s, k, step, t);
    BuyerBuys(s, k, step, t);
    BuyerMoves(s, k, step, t);
    SettledStays(s, t);
    hide BuyerNext, AccountSound, TaskSound, Settled, Grows;
    forall id | Has(t, id, Pending) || Has(t, id, Duplicate)
      ensures Settled(t, id)
    {
    }
    forall j | 0 <= j < |t.buyers| && t.buyers[j].Purchasing?
      ensures Settled(t, t.buyers[j].id)
    {
      if t.bought != s.bought {
        assert j != k && !Works(s.buyers[j], s.buyers[k].id);
      }
    }
  }

  /** What a call leaves alone. */
  lemma TaskLeaves(s: State, step: TaskStep, t: State)
    requires TaskNext(s, step) == Some(t)
    ensures t.account == s.account && t.bought == s.bought && t.departed == s.departed && t.buyers == s.buyers
    ensures t.task.Some? ==> t.task.value.record == s.task.value.record
  {
  }

  /** A ticket found before its departure is the only one of the booking that may be unrecorded. */
  lemma FoundIsTheOne(s: State, id: Id, t: Ticket)
    requires AccountSound(s) && Shows(s, id, t) && s.bookings[id].key !in s.departed
    ensures forall x | x in s.bought && x.buyer == Some(id) :: x.no == t.no || Recorded(s, x.no)
  {
  }

  /** With none found before its departure, everything bought for it is recorded. */
  lemma AbsentIsSettled(s: State, id: Id)
    requires AccountSound(s) && id in s.bookings && s.bookings[id].key !in s.departed
    requires forall t | t in s.account :: !Shows(s, id, t)
    ensures Settled(s, id)
  {
  }

  lemma TaskStaysSound(s: State, step: TaskStep, t: State)
    requires Money(s) && TaskNext(s, step) == Some(t) && Grows(s, t)
    ensures AccountSound(t) && TaskSound(t)
  {
    TaskLeaves(s, step, t);
    RecordedStays(s, t);
    SettledStays(s, t);
    var id := s.task.value.record.id;
    match step {
      case ScanFindsNothing => AbsentIsSettled(s, id);
      case ScanFinds(found) => FoundIsTheOne(s, id, found);
      case FindsClaimant(owner) => assert owner in s.bookings && Has(s, owner, Completed);
      case _ =>
    }
    hide Settled, Recorded, OneTicketPerKey;
  }

  /** A call that makes a booking Pending or Duplicate does so to its own, which was fit for it. */
  lemma TaskStatuses(s: State, step: TaskStep, t: State)
    requires TaskSound(s) && TaskNext(s, step) == Some(t)
    ensures forall id | Has(t, id, Pending) || Has(t, id, Duplicate) ::
              Has(s, id, Pending) || Has(s, id, Duplicate) || Settled(s, id)
  {
    hide Settled, Recorded;
  }

  lemma TaskKeepsMoney(s: State, step: TaskStep, t: State)
    requires Money(s) && TaskNext(s, step) == Some(t)
    ensures Money(t)
  {
    TaskGrows(s, step, t);
    TaskStaysSound(s, step, t);
    TaskLeaves(s, step, t);
    TaskStatuses(s, step, t);
    SettledStays(s, t);
    hide TaskNext, TaskSound, AccountSound, Grows, Has, Settled;
  }

  lemma CycleKeepsMoney(s: State, step: CycleStep, t: State)
    requires Money(s) && CycleNext(s, step) == Some(t)
    ensures Money(t)
  {
    assert t.bookings == s.bookings && t.account == s.account && t.bought == s.bought && t.departed == s.departed;
    assert t.buyers == s.buyers && (t.task == s.task || t.task.None? || t.task.value.at.Fetch?);
    SameBookings(s, t);
    hide CycleNext, Recorded;
  }

  lemma SameBookings(s: State, t: State)
    requires t.bookings == s.bookings
    ensures forall no: Number :: Recorded(t, no) <==> Recorded(s, no)
    ensures forall id, status :: Has(t, id, status) <==> Has(s, id, status)
  {
    assert forall id, status :: Has(t, id, status) <==> Has(s, id, status);
  }

  lemma WorldKeepsMoney(s: State, step: WorldStep, t: State)
    requires Money(s) && WorldNext(s, step) == Some(t) && Timely(s, ByWorld(step))
    ensures Money(t)
  {
    EveryStepGrows(s, ByWorld(step), t);
    RecordedStays(s, t);
    SettledStays(s, t);
    assert forall id | Has(t, id, Pending) || Has(t, id, Duplicate) :: Has(s, id, Pending) || Has(s, id, Duplicate);
    hide Settled, Has;
    assert t.bought == s.bought && t.task == s.task && t.buyers == s.buyers;
  }

  // ---------------------------------------------------------------- over whole runs

  predicate OrderlyRun(s: State, steps: seq<Step>)
    decreases |steps|
  {
    steps == [] ||
    (Next(s, steps[0]).Some? ==> Orderly(s, steps[0]) && OrderlyRun(Next(s, steps[0]).value, steps[1..]))
  }

  lemma StepKeepsApart(s: State, step: Step, t: State)
    requires Orderly(s, step) && Apart(s) && Next(s, step) == Some(t)
    ensures Apart(t)
  {
    hide Apart;
    match step {
      case ByBuyer(k, b) => BuyerKeepsApart(s, k, b, t);
      case ByCycle(c) => CycleKeepsApart(s, c, t);
      case ByTask(call) => TaskKeepsApart(s, call, t);
      case ByWorld(w) => WorldKeepsApart(s, w, t);
    }
  }

  lemma StepKeepsMoney(s: State, step: Step, t: State)
    requires Timely(s, step) && Apart(s) && Money(s) && Next(s, step) == Some(t)
    ensures Money(t)
  {
    hide Apart, Money, Timely;
    match step {
      case ByBuyer(k, b) => BuyerKeepsMoney(s, k, b, t);
      case ByCycle(c) => CycleKeepsMoney(s, c, t);
      case ByTask(call) => TaskKeepsMoney(s, call, t);
      case ByWorld(w) => WorldKeepsMoney(s, w, t);
    }
  }

  lemma {:induction false} RunKeepsBoth(s: State, steps: seq<Step>, t: State)
    requires OrderlyRun(s, steps) && Apart(s) && Run(s, steps) == Some(t)
    ensures Apart(t)
    ensures TimelyRun(s, steps) && Money(s) ==> Money(t)
    decreases |steps|
  {
    hide Apart, Money, Orderly, Timely;
    if steps != [] {
      var u := Next(s, steps[0]).value;
      StepKeepsApart(s, steps[0], u);
      if TimelyRun(s, steps) && Money(s) {
        StepKeepsMoney(s, steps[0], u);
      }
      RunKeepsBoth(u, steps[1..], t);
    }
  }

  // ---------------------------------------------------------------- the claims

  /** The recoverer never works on a booking while its purchase is under way. */
  ghost predicate NeverCollides(s: State) {
    s.task.Some? ==> !InFlight(s, s.task.value.record.id)
  }

  /** Every ticket ever bought for a refunded booking is recorded on some Completed one. */
  ghost predicate NoPaidTicketRefunded(s: State) {
    forall id | Has(s, id, Duplicate) :: Settled(s, id)
  }

  /** What the sweep works on has no record on the queue. */
  ghost predicate SweepLeavesLiveRecords(s: State) {
    s.phase.Sweeping? ==>
      && (s.task.Some? ==> !Queued(s.queue, s.task.value.record.id))
      && (forall id | id in s.phase.todo :: !Queued(s.queue, id))
  }

  /** What the sweep works on was not drained this cycle. */
  ghost predicate SweepLeavesDrained(s: State) {
    s.phase.Sweeping? ==>
      && (s.task.Some? ==> s.task.value.record.id !in s.handled)
      && (forall id | id in s.phase.todo :: id !in s.handled)
  }

  /**
   Any number of buyers: in every run in which nobody re-buys a booking still being parked, the recoverer
   keeps clear of purchases and live records; and if besides no departure falls between an item's look
   at it and the scan, no booking is refunded whose ticket was paid for, on the list or not.
   */
  lemma OrderlyRunsAreSafe(n: nat, init: State, steps: seq<Step>, s: State)
    requires Initial(init, n) && OrderlyRun(init, steps) && Run(init, steps) == Some(s)
    ensures NeverCollides(s) && SweepLeavesLiveRecords(s)
    ensures TimelyRun(init, steps) ==> NoPaidTicketRefunded(s)
  {
    assert Apart(init) && Money(init);
    RunKeepsBoth(init, steps, s);
  }

  /** The sweep's list avoids what was drained, and outside drain and sweep no item is worked on. */
  ghost predicate SweepsFresh(s: State) {
    && SweepLeavesDrained(s)
    && (s.task.Some? ==> s.phase.Draining? || s.phase.Sweeping?)
  }

  /** Only the cycle itself turns its pages. */
  lemma OthersLeaveTheCycle(s: State, step: Step, t: State)
    requires !step.ByCycle? && Next(s, step) == Some(t)
    ensures t.phase == s.phase && t.handled == s.handled
    ensures t.task.Some? ==> s.task.Some? && t.task.value.record == s.task.value.record
  {
  }

  lemma CycleSweepsFresh(s: State, step: CycleStep, t: State)
    requires SweepsFresh(s) && CycleNext(s, step) == Some(t)
    ensures SweepsFresh(t)
  {
    if step.TakeNext? {
      assert s.phase.todo[0] in s.phase.todo;
      assert forall id | id in s.phase.todo[1..] :: id in s.phase.todo;
    }
  }

  lemma {:induction false} RunSweepsFresh(s: State, steps: seq<Step>, t: State)
    requires SweepsFresh(s) && Run(s, steps) == Some(t)
    ensures SweepsFresh(t)
    decreases |steps|
  {
    if steps != [] {
      var u := Next(s, steps[0]).value;
      if steps[0].ByCycle? {
        CycleSweepsFresh(s, steps[0].cycle, u);
      } else {
        OthersLeaveTheCycle(s, steps[0], u);
      }
      hide Next;
      RunSweepsFresh(u, steps[1..], t);
    }
  }

  /** In every run whatsoever, with any number of buyers, the sweep leaves alone what was drained this cycle. */
  lemma SweepNeverRevisits(n: nat, timely: bool, s: State)
    requires Reachable(n, timely, s)
    ensures SweepLeavesDrained(s)
  {
    hide Run;
    var init, steps :| Initial(init, n) && Run(init, steps) == Some(s);
    RunSweepsFresh(init, steps, s);
  }

  lemma {:induction false} SingleBuyerIsOrderly(s: State, steps: seq<Step>)
    requires |s.buyers| <= 1
    ensures OrderlyRun(s, steps)
    decreases |steps|
  {
    if steps != [] {
      assert Next(s, steps[0]).Some? ==> Orderly(s, steps[0]);
      if Next(s, steps[0]).Some? {
        SingleBuyerIsOrderly(Next(s, steps[0]).value, steps[1..]);
      }
    }
  }
}
