/**
 Buying a ticket for a reserved seat, and what happens to the booking when a stage goes wrong.

 Every reply of KTMB, zinc and Redis is given by a `World`; what the program does to the outside is
 returned as a journal of the calls that had an effect there, in order.
 */
module Buyer {
  import opened Wrappers
  import opened Text

  datatype Config = Config(
    conflictPatterns: seq<string>, revertPatterns: seq<string>, completeRetries: int, parkRetries: int)

  datatype Answer<T> = CallFailed | Refused(messages: seq<string>) | Accepted(value: T)

  datatype CompleteRes = CompleteRes(bookingNo: string, trips: seq<seq<string>>)

  datatype Lookup = LookupFailed | NoBooking | Unreadable | Reserved(id: string)

  datatype World = World(
    reserved: Lookup,
    marksBuying: bool,
    start: Answer<nat>,             // how many passenger slots the reply carries
    setPassenger: Answer<()>,
    pay: Answer<()>,
    complete: Answer<CompleteRes>,
    prints: bool,
    cancels: bool,
    reverts: bool,
    completes: nat -> bool,         // does the n-th attempt succeed?
    encrypts: bool,
    pushes: nat -> bool,
    transitions: nat -> bool)

  datatype Record = Record(id: string, bookingNo: string, ticketNo: string, attempts: nat)

  datatype Event =
    | MarkedBuying(id: string)
    | PaymentCaptured(bookingNo: string)
    | ZincCompleted(id: string, bookingNo: string, ticketNo: string)
    | RecordPushed(record: Record)
    | MovedToRecovering(id: string)
    | RevertedToPending(id: string)
    | CancelRequested               // release the KTMB reservation, whether or not KTMB agrees

  type Journal = seq<Event>

  /** Some message contains some non-empty pattern, ignoring case. */
  ghost predicate Mentions(messages: seq<string>, patterns: seq<string>) {
    exists m, p :: m in messages && p in patterns && Mentioned(m, p)
  }

  ghost predicate Mentioned(m: string, p: string) {
    p != "" && exists i: nat :: ReadsAt(m, p, i)
  }

  method MatchesConflict(patterns: seq<string>, messages: seq<string>) returns (r: bool)
    ensures r <==> Mentions(messages, patterns)
  {
    hide Mentioned;
    for i := 0 to |messages|
      invariant !Mentions(messages[..i], patterns)
    {
      var m := messages[i];
      assert messages[..i + 1] == messages[..i] + [m];
      for j := 0 to |patterns|
        invariant forall p | p in patterns[..j] :: !Mentioned(m, p)
      {
        var p := patterns[j];
        assert patterns[..j + 1] == patterns[..j] + [p];
        ContainsMeans(m, p);
        MentionedWhen(m, p);
        if p != "" && Contains(ToUpper(m), ToUpper(p)) {
          return true;
        }
      }
      assert patterns[..|patterns|] == patterns;
    }
    assert messages[..|messages|] == messages;
    r := false;
  }

  lemma MentionedWhen(m: string, p: string)
    ensures Mentioned(m, p) <==> p != "" && exists i: nat :: ReadsAt(m, p, i)
  {
  }

  // ---------------------------------------------------------------- the KTMB purchase

  datatype Purchase =
    | Bought(bookingNo: string, ticketNo: string)
    | PurchasedError(bookingNo: string, ticketNo: string)
    | ConflictError
    | RevertError
    | Failed

  /** The booking number is kept even when the ticket number is missing. */
  function TicketIdsOf(c: CompleteRes): (string, Option<string>) {
    if c.trips == [] || c.trips[0] == [] then (c.bookingNo, None) else (c.bookingNo, Some(c.trips[0][0]))
  }

  /** KTMB captured the payment: every stage before was accepted and so was the completion. */
  ghost predicate Captured(w: World) {
    w.start.Accepted? && w.start.value > 0 && w.setPassenger.Accepted? && w.pay.Accepted? && w.complete.Accepted?
  }

  /** The completed purchase lists a ticket on its first trip. */
  ghost predicate HasTicket(c: CompleteRes) {
    c.trips != [] && c.trips[0] != []
  }

  /** The ticket number KTMB gave, empty when it gave none. */
  ghost function TicketNoOf(w: World): (no: string)
    requires w.complete.Accepted?
  {
    if HasTicket(w.complete.value) then w.complete.value.trips[0][0] else ""
  }

  /** KTMB refused the passenger with a message that means they hold a ticket already. */
  ghost predicate Conflicts(w: World, c: Config) {
    && w.start.Accepted? && w.start.value > 0
    && w.setPassenger.Refused? && Mentions(w.setPassenger.messages, c.conflictPatterns)
  }

  /** KTMB refused the payment with a message that means nothing was bought. */
  ghost predicate Reverts(w: World, c: Config) {
    && w.start.Accepted? && w.start.value > 0 && w.setPassenger.Accepted?
    && w.pay.Refused? && Mentions(w.pay.messages, c.revertPatterns)
  }

  method Buy(w: World, c: Config) returns (p: Purchase, journal: Journal)
    ensures journal == if Captured(w) then [PaymentCaptured(w.complete.value.bookingNo)] else []
    // a captured payment is never reported as a failed purchase, and the other way round
    ensures p.Bought? || p.PurchasedError? <==> Captured(w)
    ensures Captured(w) ==> p.bookingNo == w.complete.value.bookingNo
    // with the first ticket of the first trip, or without a number when there is none
    ensures Captured(w) && HasTicket(w.complete.value) ==> p.ticketNo == w.complete.value.trips[0][0]
    ensures Captured(w) && !HasTicket(w.complete.value) ==> p == PurchasedError(w.complete.value.bookingNo, "")
    ensures p.Bought? <==> Captured(w) && HasTicket(w.complete.value) && w.prints
    ensures p.ConflictError? <==> Conflicts(w, c)
    ensures p.RevertError? <==> Reverts(w, c)
  {
    journal := [];
    if !w.start.Accepted? || w.start.value == 0 {
      return Failed, journal;
    }
    hide Mentions;
    if !w.setPassenger.Accepted? {
      if w.setPassenger.Refused? {
        var conflict := MatchesConflict(c.conflictPatterns, w.setPassenger.messages);
        if conflict {
          return ConflictError, journal;
        }
      }
      return Failed, journal;
    }
    if !w.pay.Accepted? {
      if w.pay.Refused? {
        var revert := MatchesConflict(c.revertPatterns, w.pay.messages);
        if revert {
          return RevertError, journal;
        }
      }
      return Failed, journal;
    }
    if !w.complete.Accepted? {
      return Failed, journal;
    }
    journal := [PaymentCaptured(w.complete.value.bookingNo)];
    var (bookingNo, ticketNo) := TicketIdsOf(w.complete.value);
    if ticketNo.None? {
      return PurchasedError(bookingNo, ""), journal;
    }
    if !w.prints {
      return PurchasedError(bookingNo, ticketNo.value), journal;
    }
    p := Bought(bookingNo, ticketNo.value);
  }

  // ---------------------------------------------------------------- retries

  function Attempts(retries: int): (n: nat)
    ensures retries >= 1 ==> n == retries
    ensures retries < 1 ==> n == 1
  {
    if retries < 1 then 1 else retries
  }

  predicate AllFail(op: nat -> bool, n: nat) {
    forall i | 0 <= i < n :: !op(i)
  }

  /** Up to `retries` attempts, at least one; stops at the first success. */
  method RetryBackoff(retries: int, op: nat -> bool) returns (ok: bool, tries: nat)
    ensures 1 <= tries <= Attempts(retries)
    ensures ok ==> op(tries - 1) && AllFail(op, tries - 1)
    ensures !ok ==> tries == Attempts(retries) && AllFail(op, tries)
  {
    tries := 0;
    while tries < Attempts(retries)
      invariant tries <= Attempts(retries) && AllFail(op, tries)
    {
      tries := tries + 1;
      if op(tries - 1) {
        return true, tries;
      }
    }
    ok := false;
  }

  // ---------------------------------------------------------------- parking

  /** The record could not be stored: it did not encrypt, or no push got through. */
  predicate ParkFails(w: World, c: Config) {
    !w.encrypts || AllFail(w.pushes, Attempts(c.parkRetries))
  }

  /** The record first; then, if zinc takes it, the transition; then the reservation when it is to be freed. */
  ghost function Parked(w: World, c: Config, record: Record, release: bool): Journal {
    var moved := if AllFail(w.transitions, Attempts(c.parkRetries)) then [] else [MovedToRecovering(record.id)];
    var released := if release then [CancelRequested] else [];
    if ParkFails(w, c) then [] else [RecordPushed(record)] + moved + released
  }

  /** e, standing in a journal, is neither of the events only a purchase brings about. */
  predicate Ordinary(e: Event) {
    !e.PaymentCaptured? && !e.ZincCompleted?
  }

  lemma InParked(w: World, c: Config, record: Record, release: bool)
    ensures var j := Parked(w, c, record, release);
            && (RecordPushed(record) in j <==> !ParkFails(w, c))
            && (CancelRequested in j <==> release && !ParkFails(w, c))
            && (forall e | e in j :: Ordinary(e))
            && (forall i | 0 <= i < |j| && j[i].MovedToRecovering? :: 0 < i && j[i - 1].RecordPushed?)
  {
  }

  /** A failed transition or release does not undo the record. */
  method Park(w: World, c: Config, record: Record, release: bool) returns (ok: bool, journal: Journal)
    ensures ok <==> !ParkFails(w, c)
    ensures journal == Parked(w, c, record, release)
  {
    journal := [];
    if !w.encrypts {
      return false, journal;
    }
    var pushed, n := RetryBackoff(c.parkRetries, w.pushes);
    if !pushed {
      return false, journal;
    }
    journal := journal + [RecordPushed(record)];
    var moved, m := RetryBackoff(c.parkRetries, w.transitions);
    if moved {
      journal := journal + [MovedToRecovering(record.id)];
    }
    if release {
      journal := journal + [CancelRequested];
    }
    ok := true;
  }

  // ---------------------------------------------------------------- one queue item

  /** A captured payment ends recorded in zinc, or on the recover queue with its numbers, or in a failed park. */
  ghost predicate Recorded(journal: Journal, ok: bool, id: string, w: World, c: Config)
    requires Captured(w)
  {
    || (ok && ZincCompleted(id, w.complete.value.bookingNo, TicketNoOf(w)) in journal)
    || (ok && RecordPushed(Record(id, w.complete.value.bookingNo, TicketNoOf(w), 0)) in journal)
    || (!ok && ParkFails(w, c))
  }

  /** The journal after the purchase of booking id ended as p, and whether it counts as a success. */
  method Settle(w: World, c: Config, id: string, p: Purchase) returns (ok: bool, more: Journal)
    ensures p.Failed? ==> !ok && more == []
    ensures p.RevertError? ==>
              && ok == w.reverts
              && more == if w.reverts then [RevertedToPending(id), CancelRequested] else []
    ensures p.ConflictError? ==> ok == !ParkFails(w, c) && more == Parked(w, c, Record(id, "", "", 0), true)
    ensures p.Bought? && !AllFail(w.completes, Attempts(c.completeRetries)) ==>
              ok && more == [ZincCompleted(id, p.bookingNo, p.ticketNo)]
    ensures p.PurchasedError? || (p.Bought? && AllFail(w.completes, Attempts(c.completeRetries))) ==>
              ok == !ParkFails(w, c) && more == Parked(w, c, Record(id, p.bookingNo, p.ticketNo, 0), false)
  {
    match p {
      case RevertError =>
        if !w.reverts {
          return false, [];
        }
        return true, [RevertedToPending(id), CancelRequested];
      case ConflictError =>
        ok, more := Park(w, c, Record(id, "", "", 0), true);
      case PurchasedError(bookingNo, ticketNo) =>
        ok, more := Park(w, c, Record(id, bookingNo, ticketNo, 0), false);
      case Failed =>
        return false, [];
      case Bought(bookingNo, ticketNo) =>
        var done, n := RetryBackoff(c.completeRetries, w.completes);
        if done {
          return true, [ZincCompleted(id, bookingNo, ticketNo)];
        }
        ok, more := Park(w, c, Record(id, bookingNo, ticketNo, 0), false);
    }
  }

  /** The booking is reserved, marked and its purchase attempted. */
  predicate Attempted(w: World) {
    w.reserved.Reserved? && w.marksBuying
  }

  method HandleReservation(w: World, c: Config) returns (ok: bool, journal: Journal)
    // before a purchase is attempted
    ensures w.reserved.NoBooking? ==> ok == w.cancels && journal == [CancelRequested]
    ensures !w.reserved.NoBooking? && !Attempted(w) ==> !ok && journal == []
    // an attempt that fails without a conflict, a revert or a capture leaves the booking marked
    ensures Attempted(w) && !Captured(w) && !Conflicts(w, c) && (Reverts(w, c) ==> !w.reverts) ==>
              !ok && journal == [MarkedBuying(w.reserved.id)]
    // once the payment is captured the reservation is never cancelled, and the purchase is on record
    ensures (exists e | e in journal :: e.PaymentCaptured?) <==> Attempted(w) && Captured(w)
    ensures Attempted(w) && Captured(w) ==> CancelRequested !in journal && Recorded(journal, ok, w.reserved.id, w, c)
    // with a printed ticket zinc is told, if any attempt at it gets through
    ensures Attempted(w) && Captured(w) && w.prints && HasTicket(w.complete.value)
            && !AllFail(w.completes, Attempts(c.completeRetries)) ==>
              ZincCompleted(w.reserved.id, w.complete.value.bookingNo, TicketNoOf(w)) in journal
    // a conflict is parked without a ticket and frees the reservation
    ensures Attempted(w) && Conflicts(w, c) ==>
              if ParkFails(w, c) then !ok
              else ok && RecordPushed(Record(w.reserved.id, "", "", 0)) in journal && CancelRequested in journal
    // a cancellation is asked for exactly with no booking, after parking a conflict, or after a revert
    ensures CancelRequested in journal <==>
              || w.reserved.NoBooking?
              || (Attempted(w) && Conflicts(w, c) && !ParkFails(w, c))
              || (Attempted(w) && Reverts(w, c) && w.reverts)
    ensures Attempted(w) && Reverts(w, c) && w.reverts ==>
              journal == [MarkedBuying(w.reserved.id), RevertedToPending(w.reserved.id), CancelRequested]
    // zinc is told of a completed ticket only with the numbers KTMB gave
    ensures forall e | e in journal && e.ZincCompleted? ::
              && Captured(w) && e.bookingNo == w.complete.value.bookingNo
              && HasTicket(w.complete.value) && e.ticketNo == w.complete.value.trips[0][0]
    // the record is on the queue before the booking is moved
    ensures forall i | 0 <= i < |journal| && journal[i].MovedToRecovering? :: 0 < i && journal[i - 1].RecordPushed?
  {
    hide Mentions, AllFail, ParkFails, Parked;
    journal := [];
    match w.reserved {
      case LookupFailed | Unreadable =>
        return false, journal;
      case NoBooking =>
        journal := [CancelRequested];
        return w.cancels, journal;
      case Reserved(id) =>
        if !w.marksBuying {
          return false, journal;
        }
        journal := [MarkedBuying(id)];
        var p, bought := Buy(w, c);
        journal := journal + bought;
        ghost var before := journal;
        InParked(w, c, Record(id, "", "", 0), true);
        if Captured(w) {
          InParked(w, c, Record(id, p.bookingNo, p.ticketNo, 0), false);
        }
        var more;
        ok, more := Settle(w, c, id, p);
        journal := journal + more;
        InBoth(before, more);
        assert Captured(w) ==> before[1] == PaymentCaptured(w.complete.value.bookingNo);
    }
  }

  /** What is in a journal made of two, none of the first moving a booking. */
  lemma InBoth(before: Journal, more: Journal)
    requires forall e | e in before :: !e.MovedToRecovering?
    requires forall i | 0 <= i < |more| && more[i].MovedToRecovering? :: 0 < i && more[i - 1].RecordPushed?
    ensures forall e :: e in before + more <==> e in before || e in more
    ensures var journal := before + more;
            forall i | 0 <= i < |journal| && journal[i].MovedToRecovering? :: 0 < i && journal[i - 1].RecordPushed?
  {
  }
}
