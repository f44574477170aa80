/**
 What the recovery protocol achieves: how an item nobody disturbs is resolved, what a purchase ends in, what a
 cycle takes up; and, in any company, what leaving each stage means.
 */
module RecoveryOutcomes {
  import opened Wrappers
  import opened Recovery

  // ---------------------------------------------------------------- how a booking ends up

  /** The item is done and its booking has this status and number; nothing else about it changed. */
  ghost predicate Left(s: State, id: Id, status: Status, captured: Option<Number>, t: State) {
    && id in s.bookings
    && t == s.(task := None, bookings := s.bookings[id := Booking(s.bookings[id].key, status, captured)])
  }

  /** Uncaptured and marked Buying or Recovering: there is something to recover. */
  ghost predicate Open(s: State, id: Id) {
    id in s.bookings && s.bookings[id].captured.None? && s.bookings[id].status in {Buying, Recovering}
  }

  /** The list shows this ticket for the booking. */
  ghost predicate Listed(s: State, id: Id, x: Ticket) {
    id in s.bookings && x in s.account && x.key == s.bookings[id].key
  }

  /** A Completed booking of the same passenger and departure has this number. */
  ghost predicate Claimed(s: State, id: Id, no: Number) {
    exists c | c in s.bookings :: id in s.bookings && s.bookings[c] == Booking(s.bookings[id].key, Completed, Some(no))
  }

  /** zinc has put the booking back to Pending, and marked it as recycled. */
  ghost predicate PutBack(s: State, id: Id, t: State) {
    Left(s, id, Pending, None, t.(recycled := s.recycled)) && t.recycled == s.recycled + {id}
  }

  /** No ticket is listed for it: zinc recycles it, unless it has done so often enough. */
  ghost predicate GoesBack(s: State, id: Id, calls: seq<TaskStep>, t: State) {
    && (forall x :: !Listed(s, id, x))
    && (PutBack(s, id, t) || (Left(s, id, Duplicate, None, t) && RetriesExhausted in calls))
  }

  /** A ticket is listed for it: ours, unless another booking has it. */
  ghost predicate IsTicketed(s: State, id: Id, x: Ticket, t: State) {
    && Listed(s, id, x)
    && if Claimed(s, id, x.no) then Left(s, id, Duplicate, None, t) else Left(s, id, Completed, Some(x.no), t)
  }

  /** What becomes of an open booking whose record carries no numbers; a past departure is for a human. */
  ghost predicate Judged(s: State, id: Id, calls: seq<TaskStep>, t: State) {
    && id in s.bookings
    && var past := s.bookings[id].key in s.departed;
       || (Left(s, id, Manual, None, t) && (past || UnreadableDeparture in calls))
       || (!past && (GoesBack(s, id, calls, t) || exists x :: IsTicketed(s, id, x, t)))
  }

  /** How an item for this record is resolved. */
  ghost predicate Resolved(s: State, r: Record, calls: seq<TaskStep>, t: State) {
    if r.id !in s.bookings || s.bookings[r.id].status in {Completed, Duplicate, Closed, Manual}
    then t == s.(task := None)
    else if !Open(s, r.id) then Left(s, r.id, Manual, s.bookings[r.id].captured, t)
    else if r.no.Some? then Left(s, r.id, Completed, r.no, t)
    else Judged(s, r.id, calls, t)
  }

  // ---------------------------------------------------------------- the calls of one item

  /** These calls, all of them successful, resolve the item, undisturbed. */
  ghost predicate Resolves(s: State, calls: seq<TaskStep>, t: State)
    decreases |calls|
  {
    && calls != [] && !calls[0].CallFails?
    && var u := TaskNext(s, calls[0]);
       && u.Some?
       && if u.value.task.None? then calls == calls[..1] && t == u.value else Resolves(u.value, calls[1..], t)
  }

  lemma {:induction false} FromPark(s: State, calls: seq<TaskStep>, t: State)
    requires Resolves(s, calls, t) && s.task.Some? && s.task.value.at.Park?
    ensures s.task.value.record.id in s.bookings
    ensures Left(s, s.task.value.record.id, Manual, s.bookings[s.task.value.record.id].captured, t)
  {
  }

  lemma {:induction false} FromCapture(s: State, calls: seq<TaskStep>, t: State)
    requires Resolves(s, calls, t) && s.task.Some? && s.task.value.at.Capture?
    ensures Left(s, s.task.value.record.id, Completed, Some(s.task.value.at.no), t)
  {
  }

  lemma {:induction false} FromRefund(s: State, calls: seq<TaskStep>, t: State)
    requires Resolves(s, calls, t) && s.task.Some? && s.task.value.at.Refund?
    ensures Left(s, s.task.value.record.id, Duplicate, None, t)
  {
  }

  /** A later stage looks at the same bookings, so what it leaves is left of the earlier one. */
  lemma StageOnly(s: State, stage: Stage)
    requires s.task.Some?
    ensures Goto(s, stage) == s.(task := Some(Task(s.task.value.record, stage)))
  {
  }

  lemma {:induction false} FromRecycle(s: State, calls: seq<TaskStep>, t: State)
    requires Resolves(s, calls, t) && s.task.Some? && s.task.value.at.Recycle? && Open(s, s.task.value.record.id)
    requires s.bookings[s.task.value.record.id].status == Recovering
    ensures var id := s.task.value.record.id;
            PutBack(s, id, t) || (Left(s, id, Duplicate, None, t) && RetriesExhausted in calls)
  {
    if calls[0].RetriesExhausted? {
      FromRefund(TaskNext(s, calls[0]).value, calls[1..], t);
    }
  }

  lemma {:induction false} FromClaim(s: State, calls: seq<TaskStep>, t: State)
    requires Resolves(s, calls, t) && s.task.Some? && s.task.value.at.Claim? && Open(s, s.task.value.record.id)
    ensures var id, no := s.task.value.record.id, s.task.value.at.no;
            if Claimed(s, id, no) then Left(s, id, Duplicate, None, t) else Left(s, id, Completed, Some(no), t)
  {
    var id, no := s.task.value.record.id, s.task.value.at.no;
    var u := TaskNext(s, calls[0]).value;
    if calls[0].FindsClaimant? {
      assert s.bookings[calls[0].owner] == Booking(s.bookings[id].key, Completed, Some(no));
      FromRefund(u, calls[1..], t);
    } else {
      assert forall c | c in s.bookings :: !Claims(s, c, id, no);
      FromCapture(u, calls[1..], t);
    }
  }

  lemma {:induction false} FromScan(s: State, calls: seq<TaskStep>, t: State)
    requires Resolves(s, calls, t) && s.task.Some? && s.task.value.at.Scan? && Open(s, s.task.value.record.id)
    requires s.bookings[s.task.value.record.id].status == Recovering
    requires s.bookings[s.task.value.record.id].key !in s.departed
    ensures Judged(s, s.task.value.record.id, calls, t)
  {
    var id := s.task.value.record.id;
    var u := TaskNext(s, calls[0]).value;
    if calls[0].ScanFindsNothing? {
      assert forall x :: !Listed(s, id, x) by {
        assert forall x | x in s.account :: !Shows(s, id, x);
      }
      FromRecycle(u, calls[1..], t);
    } else {
      var x := calls[0].t;
      FromClaim(u, calls[1..], t);
      assert Claimed(u, id, x.no) <==> Claimed(s, id, x.no);
      assert IsTicketed(s, id, x, t);
    }
  }

  lemma {:induction false} FromTriage(s: State, calls: seq<TaskStep>, t: State)
    requires Resolves(s, calls, t) && s.task.Some? && s.task.value.at.Triage? && Open(s, s.task.value.record.id)
    requires s.bookings[s.task.value.record.id].status == Recovering
    ensures var r := s.task.value.record;
            if r.no.Some? then Left(s, r.id, Completed, r.no, t) else Judged(s, r.id, calls, t)
  {
    var u := TaskNext(s, calls[0]).value;
    if calls[0].UseIdentifiers? {
      FromCapture(u, calls[1..], t);
    } else if calls[0].StillAhead? {
      FromScan(u, calls[1..], t);
      JudgedAlike(s, u, calls, t);
    } else {
      FromPark(u, calls[1..], t);
    }
  }

  /** The judgment looks at the world, not at the stage or the booking's way into Recovering. */
  lemma JudgedAlike(s: State, u: State, calls: seq<TaskStep>, t: State)
    requires s.task.Some? && u.task.Some? && calls != [] && Open(s, s.task.value.record.id)
    requires var id := s.task.value.record.id;
             && Judged(u, id, calls[1..], t)
             && u == s.(task := u.task, bookings := u.bookings)
             && u.bookings == s.bookings[id := Booking(s.bookings[id].key, Recovering, None)]
    ensures Judged(s, s.task.value.record.id, calls, t)
  {
    var id := s.task.value.record.id;
    assert forall status, no :: u.bookings[id := Booking(u.bookings[id].key, status, no)] ==
                                s.bookings[id := Booking(s.bookings[id].key, status, no)];
    assert forall x :: Listed(u, id, x) <==> Listed(s, id, x);
    forall no: Number
      ensures Claimed(u, id, no) <==> Claimed(s, id, no)
    {
      assert forall c | c in s.bookings :: c != id ==> u.bookings[c] == s.bookings[c];
    }
    assert forall call | call in calls[1..] :: call in calls;
    assert forall status, no :: Left(u, id, status, no, t) ==> Left(s, id, status, no, t);
    assert PutBack(u, id, t) ==> PutBack(s, id, t);
    if x :| IsTicketed(u, id, x, t) {
      assert IsTicketed(s, id, x, t);
    }
  }

  lemma {:induction false} FromMark(s: State, calls: seq<TaskStep>, t: State)
    requires Resolves(s, calls, t) && s.task.Some? && s.task.value.at.Mark? && Open(s, s.task.value.record.id)
    ensures var r := s.task.value.record;
            if r.no.Some? then Left(s, r.id, Completed, r.no, t) else Judged(s, r.id, calls, t)
  {
    var r := s.task.value.record;
    var u := TaskNext(s, calls[0]).value;
    assert u.bookings == s.bookings[r.id := Booking(s.bookings[r.id].key, Recovering, None)];
    FromTriage(u, calls[1..], t);
    if r.no.Some? {
      assert u.bookings[r.id := Booking(s.bookings[r.id].key, Completed, r.no)] ==
             s.bookings[r.id := Booking(s.bookings[r.id].key, Completed, r.no)];
    } else {
      JudgedAlike(s, u, calls, t);
    }
  }

  /**
   However its calls go, an item whose calls all succeed and that nobody disturbs ends exactly as the decision
   tree has it.
   */
  lemma {:induction false} ItemIsResolved(s: State, r: Record, calls: seq<TaskStep>, t: State)
    requires s.task == Some(Task(r, Fetch)) && Resolves(s, calls, t)
    ensures Resolved(s, r, calls, t)
  {
    var u := TaskNext(s, calls[0]).value;
    if u.task.Some? {
      if u.task.value.at.Park? {
        FromPark(u, calls[1..], t);
      } else if u.task.value.at.Mark? {
        FromMark(u, calls[1..], t);
        FetchedAlike(s, u, calls, t);
      } else {
        FromTriage(u, calls[1..], t);
        FetchedAlike(s, u, calls, t);
      }
    }
  }

  lemma FetchedAlike(s: State, u: State, calls: seq<TaskStep>, t: State)
    requires s.task.Some? && u == s.(task := u.task) && calls != []
    ensures var id := s.task.value.record.id;
            && (forall status, no :: Left(u, id, status, no, t) ==> Left(s, id, status, no, t))
            && (Judged(u, id, calls[1..], t) ==> Judged(s, id, calls, t))
  {
    var id := s.task.value.record.id;
    assert forall x :: Listed(u, id, x) <==> Listed(s, id, x);
    assert forall no: Number :: Claimed(u, id, no) <==> Claimed(s, id, no);
    assert forall call | call in calls[1..] :: call in calls;
    assert forall status, no :: Left(u, id, status, no, t) ==> Left(s, id, status, no, t);
    assert PutBack(u, id, t) ==> PutBack(s, id, t);
    if x :| IsTicketed(u, id, x, t) {
      assert IsTicketed(s, id, x, t);
    }
  }

  // ---------------------------------------------------------------- it can be resolved

  lemma OneMore(s: State, call: TaskStep, calls: seq<TaskStep>, t: State)
    requires !call.CallFails? && TaskNext(s, call).Some? && TaskNext(s, call).value.task.Some?
    requires Resolves(TaskNext(s, call).value, calls, t)
    ensures Resolves(s, [call] + calls, t)
  {
    hide TaskNext;
    assert ([call] + calls)[1..] == calls;
  }

  lemma LastOne(s: State, call: TaskStep)
    requires !call.CallFails? && TaskNext(s, call).Some? && TaskNext(s, call).value.task.None?
    ensures Resolves(s, [call], TaskNext(s, call).value)
  {
    hide TaskNext;
  }

  lemma {:induction false} OpenCanEnd(s: State) returns (calls: seq<TaskStep>, t: State)
    requires s.task.Some? && s.task.value.at.Triage? && Open(s, s.task.value.record.id)
    requires s.bookings[s.task.value.record.id].status == Recovering
    ensures Resolves(s, calls, t)
  {
    var r := s.task.value.record;
    var first :=
      if r.no.Some? then UseIdentifiers
      else if s.bookings[r.id].key in s.departed then PastDeparture
      else StillAhead;
    var u := TaskNext(s, first).value;
    if first.UseIdentifiers? {
      LastOne(u, CompleteBooking);
      calls, t := [CompleteBooking], TaskNext(u, CompleteBooking).value;
    } else if first.PastDeparture? {
      LastOne(u, MarkManual);
      calls, t := [MarkManual], TaskNext(u, MarkManual).value;
    } else {
      calls, t := ScanCanEnd(u);
    }
    OneMore(s, first, calls, t);
    calls := [first] + calls;
  }

  lemma {:induction false} ScanCanEnd(s: State) returns (calls: seq<TaskStep>, t: State)
    requires s.task.Some? && s.task.value.at.Scan? && Open(s, s.task.value.record.id)
    requires s.bookings[s.task.value.record.id].status == Recovering
    ensures Resolves(s, calls, t)
  {
    var id := s.task.value.record.id;
    var first := ScanFindsNothing;
    if x :| x in s.account && Shows(s, id, x) {
      first := ScanFinds(x);
      var u := TaskNext(s, first).value;
      calls, t := ClaimCanEnd(u);
    } else {
      var u := TaskNext(s, first).value;
      LastOne(u, RecycleDone);
      calls, t := [RecycleDone], TaskNext(u, RecycleDone).value;
    }
    OneMore(s, first, calls, t);
    calls := [first] + calls;
  }

  lemma {:induction false} ClaimCanEnd(s: State) returns (calls: seq<TaskStep>, t: State)
    requires s.task.Some? && s.task.value.at.Claim? && Open(s, s.task.value.record.id)
    requires s.bookings[s.task.value.record.id].status == Recovering
    ensures Resolves(s, calls, t)
  {
    var id, no := s.task.value.record.id, s.task.value.at.no;
    var first, last := FindsNoClaimant, CompleteBooking;
    if owner :| owner in s.bookings && Claims(s, owner, id, no) {
      first, last := FindsClaimant(owner), MarkDuplicate;
    }
    var u := TaskNext(s, first).value;
    LastOne(u, last);
    t := TaskNext(u, last).value;
    OneMore(s, first, [last], t);
    calls := [first] + [last];
  }

  /** Every item can be resolved, whatever its booking and record. */
  lemma {:induction false} ItemCanBeResolved(s: State, r: Record) returns (calls: seq<TaskStep>, t: State)
    requires s.task == Some(Task(r, Fetch))
    ensures Resolves(s, calls, t)
  {
    var u := TaskNext(s, GetBooking).value;
    if u.task.None? {
      LastOne(s, GetBooking);
      calls, t := [GetBooking], u;
      return;
    }
    if u.task.value.at.Park? {
      LastOne(u, MarkManual);
      calls, t := [MarkManual], TaskNext(u, MarkManual).value;
    } else if u.task.value.at.Mark? {
      var v := TaskNext(u, MarkRecovering).value;
      calls, t := OpenCanEnd(v);
      OneMore(u, MarkRecovering, calls, t);
      calls := [MarkRecovering] + calls;
    } else {
      calls, t := OpenCanEnd(u);
    }
    OneMore(s, GetBooking, calls, t);
    calls := [GetBooking] + calls;
  }

  // ---------------------------------------------------------------- in any company

  /**
   What leaving a stage means, whoever else is at work: unless the call fails or the recoverer crashes, a capture
   records its number, a refund makes the booking a duplicate, a park leaves it to a human, a recycle puts it back.
   */
  lemma {:induction false} LeavingAStage(s: State, e: Step, t: State)
    requires s.task.Some? && Next(s, e) == Some(t) && t.task != s.task
    requires e != ByCycle(Crash) && e != ByTask(CallFails)
    ensures var id := s.task.value.record.id;
            match s.task.value.at
            case Capture(no) =>
              t.task.None? && Has(t, id, Completed) && t.bookings[id].captured == Some(no) && Recorded(t, no)
            case Refund => t.task.None? && Has(t, id, Duplicate)
            case Park => t.task.None? && Has(t, id, Manual)
            case Recycle =>
              || (t.task.None? && Has(t, id, Pending) && id in t.recycled)
              || (t.task.None? && !Has(s, id, Recovering) && t.bookings == s.bookings)
              || (t.task == Some(Task(s.task.value.record, Refund)) && t.bookings == s.bookings)
            case Mark =>
              Has(s, id, Buying) && Has(t, id, Recovering) && t.task == Some(Task(s.task.value.record, Triage))
            case Push(again) =>
              t.task.None? && (t.queue == s.queue + [again] || t.queue == s.queue) &&
              (t.bookings == s.bookings || Has(t, id, Manual))
            case _ => t.bookings == s.bookings && t.queue == s.queue
  {
  }

  /** A failed call touches nothing and sends the item back: it is pushed again with one attempt more, or lost. */
  lemma {:induction false} FailureGoesBack(s: State, calls: seq<TaskStep>, t: State)
    requires s.task.Some? && s.task.value.at.Failed? && Resolves(s, calls, t)
    ensures var r := s.task.value.record;
            var again := Record(r.id, r.no, r.attempts + 1);
            || t == s.(task := None, queue := s.queue + [again])
            || (t == s.(task := None) && PushLost in calls)
            || (again.attempts >= s.maxAttempts && r.id in s.bookings
                && Left(s, r.id, Manual, s.bookings[r.id].captured, t))
  {
    var u := TaskNext(s, calls[0]).value;
    assert calls[1..][0] in calls;
  }

  lemma {:induction false} AnyCallMayFail(s: State)
    requires s.task.Some? && !s.task.value.at.Failed? && !s.task.value.at.Push?
    ensures TaskNext(s, CallFails) == Some(s.(task := Some(Task(s.task.value.record, Failed))))
  {
  }

  // ---------------------------------------------------------------- one purchase

  /** The rest of one buyer's work on a booking, to its end, undisturbed and without giving up. */
  ghost predicate Buys(s: State, k: nat, steps: seq<BuyerStep>, t: State)
    decreases |steps|
  {
    && steps != [] && !steps[0].GiveUp?
    && var u := BuyerNext(s, k, steps[0]);
       && u.Some? && |u.value.buyers| == |s.buyers|
       && k < |s.buyers|
       && if u.value.buyers[k].Free? then steps == steps[..1] && t == u.value else Buys(u.value, k, steps[1..], t)
  }

  /** Booking id has this status and number, this was queued, and the buyer is free; the account is as given. */
  ghost predicate Bought(
    s: State, k: nat, id: Id, status: Status, captured: Option<Number>, queue: seq<Record>, t: State)
  {
    && id in s.bookings && k < |s.buyers|
    && t == s.(bookings := s.bookings[id := Booking(s.bookings[id].key, status, captured)],
               queue := s.queue + queue, buyers := s.buyers[k := Free])
  }

  /** The ticket is on the account, KTMB will not issue its number again, and we have paid for it. */
  function WithTicket(s: State, x: Ticket): State {
    s.(account := s.account + {x}, issued := s.issued + {x.no}, bought := s.bought + {x})
  }

  lemma {:induction false} ParkingEnds(s: State, k: nat, steps: seq<BuyerStep>, t: State)
    requires Buys(s, k, steps, t) && s.buyers[k].Parking? && Has(s, s.buyers[k].id, Buying)
    ensures Bought(s, k, s.buyers[k].id, Recovering, s.bookings[s.buyers[k].id].captured, [], t)
  {
  }

  /** A captured payment ends in zinc under its number, or in a record with the booking in Recovering. */
  lemma {:induction false} PaidEnds(s: State, k: nat, steps: seq<BuyerStep>, t: State)
    requires Buys(s, k, steps, t) && s.buyers[k].Paid? && Has(s, s.buyers[k].id, Buying)
    ensures var id, no, was := s.buyers[k].id, s.buyers[k].no, s.bookings[s.buyers[k].id].captured;
            || Bought(s, k, id, Completed, Some(no), [], t)
            || Bought(s, k, id, Recovering, was, [Record(id, Some(no), 0)], t)
            || (Bought(s, k, id, Recovering, was, [Record(id, None, 0)], t) && PushRecord(false) in steps)
  {
    if steps[0].PushRecord? {
      var u := BuyerNext(s, k, steps[0]).value;
      ParkingEnds(u, k, steps[1..], t);
      assert t.buyers == s.buyers[k := Free];
    } else {
      assert steps[0].Report?;
    }
  }

  /**
   A buyer that takes up a Pending booking, undisturbed: without a purchase the booking is back as it was or
   parked; with one the ticket is on the account, and recorded in zinc or in a record on the queue.
   */
  lemma {:induction false} PurchaseEnds(s: State, k: nat, id: Id, steps: seq<BuyerStep>, t: State)
    requires k < |s.buyers| && s.buyers[k].Free? && Buys(s, k, steps, t) && steps[0] == Start(id)
    ensures Has(s, id, Pending)
    ensures var was := s.bookings[id].captured;
            || Bought(s, k, id, Pending, was, [], t)
            || Bought(s, k, id, Recovering, was, [Record(id, None, 0)], t)
            || exists no: Number ::
                 && no !in s.issued
                 && var paid := WithTicket(s, Ticket(no, s.bookings[id].key, Some(id)));
                    || Bought(paid, k, id, Completed, Some(no), [], t)
                    || Bought(paid, k, id, Recovering, was, [Record(id, Some(no), 0)], t)
                    || (Bought(paid, k, id, Recovering, was, [Record(id, None, 0)], t) && PushRecord(false) in steps)
  {
    var u := BuyerNext(s, k, steps[0]).value;
    var rest := steps[1..];
    var v := BuyerNext(u, k, rest[0]).value;
    assert forall x | x in rest[1..] :: x in steps;
    assert u.bookings == s.bookings[id := Booking(s.bookings[id].key, Buying, s.bookings[id].captured)];
    if rest[0].Purchase? {
      var no := rest[0].no;
      PaidEnds(v, k, rest[1..], t);
      assert s.buyers[k := Purchasing(id)][k := Paid(id, no)][k := Free] == s.buyers[k := Free];
    } else if rest[0].PushRecord? {
      ParkingEnds(v, k, rest[1..], t);
      assert s.buyers[k := Purchasing(id)][k := Parking(id)][k := Free] == s.buyers[k := Free];
    } else {
      assert rest[0].Revert?;
      assert s.buyers[k := Purchasing(id)][k := Free] == s.buyers[k := Free];
    }
  }

  lemma BuysMore(s: State, k: nat, step: BuyerStep, steps: seq<BuyerStep>, t: State)
    requires k < |s.buyers| && !step.GiveUp? && BuyerNext(s, k, step).Some?
    requires |BuyerNext(s, k, step).value.buyers| == |s.buyers| && !BuyerNext(s, k, step).value.buyers[k].Free?
    requires Buys(BuyerNext(s, k, step).value, k, steps, t)
    ensures Buys(s, k, [step] + steps, t)
  {
    hide BuyerNext;
    assert ([step] + steps)[1..] == steps;
  }

  /** A Pending booking that KTMB will sell a ticket for can be bought and completed. */
  lemma {:induction false} PurchaseCanComplete(s: State, k: nat, id: Id, no: Number)
    returns (steps: seq<BuyerStep>, t: State)
    requires k < |s.buyers| && s.buyers[k].Free? && Has(s, id, Pending) && s.bookings[id].captured.None?
    requires no !in s.issued && forall x | x in s.account :: x.key != s.bookings[id].key
    ensures steps == [Start(id), Purchase(no), Report] && Buys(s, k, steps, t)
    ensures Has(t, id, Completed) && t.bookings[id].captured == Some(no) && Recorded(t, no)
  {
    var u := BuyerNext(s, k, Start(id)).value;
    var v := BuyerNext(u, k, Purchase(no)).value;
    t := BuyerNext(v, k, Report).value;
    assert Buys(v, k, [Report], t);
    BuysMore(u, k, Purchase(no), [Report], t);
    BuysMore(s, k, Start(id), [Purchase(no)] + [Report], t);
    steps := [Start(id)] + ([Purchase(no)] + [Report]);
    assert Has(t, id, Completed);
  }

  // ---------------------------------------------------------------- one cycle

  /** These cycle steps, one after the other with no item in between, undisturbed. */
  ghost predicate Turns(s: State, steps: seq<CycleStep>, t: State)
    decreases |steps|
  {
    if steps == [] then t == s
    else CycleNext(s, steps[0]).Some? && Turns(CycleNext(s, steps[0]).value, steps[1..], t)
  }

  /** A drain starts with the whole queue before it and nothing handled. */
  lemma {:induction false} DrainStarts(s: State, t: State)
    requires CycleNext(s, BeginDrain) == Some(t)
    ensures t == s.(phase := Draining(|s.queue|), handled := {}) && s.phase.Idle? && s.task.None?
  {
  }

  /** Each turn of it takes the head of the queue as an item and notes its booking, as often as it counted. */
  lemma {:induction false} DrainTakes(s: State, t: State)
    requires s.phase.Draining? && s.task.None?
    ensures CycleNext(s, Pop).Some? <==> s.phase.left > 0 && s.queue != []
    ensures CycleNext(s, Pop) == Some(t) ==>
              && s.queue == [t.task.value.record] + t.queue && t.task == Some(Task(s.queue[0], Fetch))
              && t.handled == s.handled + {s.queue[0].id} && t.phase == Draining(s.phase.left - 1)
              && t == s.(task := t.task, queue := t.queue, handled := t.handled, phase := t.phase)
  {
  }

  /** The sweep's list, undisturbed, is exactly the stuck bookings neither drained nor queued, each once. */
  lemma {:induction false} SweepLists(s: State, ids: seq<Id>, t: State)
    requires s.phase.Drained? && Turns(s, [List(ids), ReadQueue], t)
    ensures t.phase.Sweeping? && t == s.(phase := t.phase)
    ensures forall id :: id in t.phase.todo <==> Has(s, id, Recovering) && id !in s.handled && !Queued(s.queue, id)
    ensures forall i, j | 0 <= i < j < |t.phase.todo| :: t.phase.todo[i] != t.phase.todo[j]
  {
    var u := CycleNext(s, List(ids)).value;
    assert [List(ids), ReadQueue][1..] == [ReadQueue];
    assert Turns(u, [ReadQueue], t);
    assert [ReadQueue][1..] == [];
    assert t == CycleNext(u, ReadQueue).value;
  }

  /** It takes them one by one, rebuilding a record without numbers, until none is left. */
  lemma {:induction false} SweepTakes(s: State, t: State)
    requires s.phase.Sweeping? && s.task.None?
    ensures CycleNext(s, TakeNext).Some? <==> s.phase.todo != []
    ensures CycleNext(s, TakeNext) == Some(t) ==>
              && t.phase.Sweeping? && s.phase.todo == [t.task.value.record.id] + t.phase.todo
              && t.task == Some(Task(Record(s.phase.todo[0], None, 0), Fetch))
              && t == s.(task := t.task, phase := t.phase)
  {
  }

  /** Between the two, and at the end, the cycle only turns the page; a crash loses the item at hand. */
  lemma {:induction false} CycleTurnsThePage(s: State, t: State)
    ensures CycleNext(s, EndDrain) == Some(t) ==> s.phase.Draining? && t == s.(phase := Drained)
    ensures CycleNext(s, EndCycle) == Some(t) ==> s.task.None? && t == s.(phase := Idle)
    ensures CycleNext(s, Crash) == Some(s.(phase := Idle, task := None))
  {
  }

  // ---------------------------------------------------------------- the world around

  /** The world may lose any record, list any new ticket, let any departure pass and drop what it may. */
  lemma {:induction false} WorldMay(s: State, i: nat, no: Number, key: Key, x: Ticket, id: Id)
    ensures i < |s.queue| ==> WorldNext(s, LoseRecord(i)) == Some(s.(queue := s.queue[..i] + s.queue[i + 1..]))
    ensures no !in s.issued && (forall y | y in s.account :: y.key != key) ==>
              WorldNext(s, TicketAppears(no, key)) ==
              Some(s.(account := s.account + {Ticket(no, key, None)}, issued := s.issued + {no}))
    ensures WorldNext(s, Depart(key)) == Some(s.(departed := s.departed + {key}))
    ensures x.buyer.None? || x.key in s.departed || Recorded(s, x.no) ==>
              WorldNext(s, TicketGone(x)) == Some(s.(account := s.account - {x}))
    ensures Has(s, id, Pending) && id in s.recycled ==>
              WorldNext(s, ExpireRecycled(id)) ==
              Some(s.(bookings := s.bookings[id := Booking(s.bookings[id].key, Duplicate, s.bookings[id].captured)]))
  {
  }
}
