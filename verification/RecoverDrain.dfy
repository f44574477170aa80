/**
 One drain of the recover queue, while buyers keep pushing to it.

 The queue is first in, first out: pushes go to the end and a pop takes the front. What the rest of
 the world does during one turn of the loop is given by a `Turn`.
 */
module RecoverDrain {
  import opened Wrappers

  datatype Dto = Dto(bookingId: string, bookingNo: string, ticketNo: string, attempts: nat)

  /** A raw queue entry: not even the envelope reads, only the envelope reads, or a record. */
  datatype Entry = BrokenEnvelope | Unreadable | Item(dto: Dto)

  datatype Turn = Turn(
    before: seq<Entry>,       // pushed by buyers before this pop
    popFails: bool,
    during: seq<Entry>,       // pushed by buyers while the item is processed
    processed: bool,          // ProcessItem returned no error
    parked: bool,             // the manual-intervention endpoint answered
    encrypted: bool,
    pushed: nat -> bool,      // did the n-th re-queue push succeed?
    cancelled: nat -> bool)   // was the context done while waiting after it?

  type World = nat -> Turn

  const REQUEUE_RETRIES: nat := 3

  /** Some attempt within the retries succeeds before the context ends. */
  predicate Pushes(t: Turn) {
    t.encrypted &&
    exists n | 0 <= n < REQUEUE_RETRIES :: t.pushed(n) && forall m | 0 <= m < n :: !t.pushed(m) && !t.cancelled(m)
  }

  /** What re-queueing a failed item adds to the queue. */
  function Requeued(dto: Dto, maxAttempts: nat, t: Turn): seq<Entry> {
    if dto.attempts + 1 >= maxAttempts && t.parked then []
    else if Pushes(t) then [Item(dto.(attempts := dto.attempts + 1))]
    else []
  }

  /** What the turn that takes this entry adds to the queue. */
  function Added(e: Entry, maxAttempts: nat, t: Turn): seq<Entry> {
    t.before + AddedAfterPop(e, maxAttempts, t)
  }

  function AddedAfterPop(e: Entry, maxAttempts: nat, t: Turn): seq<Entry> {
    t.during + if e.Item? && !t.processed then Requeued(e.dto, maxAttempts, t) else []
  }

  /** What taking these entries in order adds to the queue, starting at turn `from`. */
  function Trail(taken: seq<Entry>, maxAttempts: nat, w: World, from: nat): seq<Entry> {
    if taken == [] then []
    else Added(taken[0], maxAttempts, w(from)) + Trail(taken[1..], maxAttempts, w, from + 1)
  }

  /** How many entries a drain takes: it stops before a failing pop and after a broken envelope. */
  function Taken(queue: seq<Entry>, w: World, from: nat): (n: nat)
    ensures n <= |queue|
  {
    if queue == [] || w(from).popFails then 0
    else if queue[0].BrokenEnvelope? then 1
    else 1 + Taken(queue[1..], w, from + 1)
  }

  /** It gets through the whole queue. */
  predicate Completes(queue: seq<Entry>, w: World, from: nat) {
    queue == [] || (!w(from).popFails && !queue[0].BrokenEnvelope? && Completes(queue[1..], w, from + 1))
  }

  /** The queue after a drain: what was not taken, then everything pushed meanwhile. */
  function Drained(queue: seq<Entry>, maxAttempts: nat, w: World): seq<Entry> {
    var n := Taken(queue, w, 0);
    var late := if n < |queue| && StopsAtPop(queue, w, 0) then w(n).before else [];
    queue[n..] + Trail(queue[..n], maxAttempts, w, 0) + late
  }

  /** What stops a drain short is a failing pop, not a broken envelope. */
  predicate StopsAtPop(queue: seq<Entry>, w: World, from: nat) {
    queue != [] && (w(from).popFails || (!queue[0].BrokenEnvelope? && StopsAtPop(queue[1..], w, from + 1)))
  }

  function Ids(entries: seq<Entry>): set<string> {
    set e | e in entries && e.Item? :: e.dto.bookingId
  }

  lemma {:induction false} TrailGrows(taken: seq<Entry>, e: Entry, maxAttempts: nat, w: World, from: nat)
    ensures Trail(taken + [e], maxAttempts, w, from) ==
            Trail(taken, maxAttempts, w, from) + Added(e, maxAttempts, w(from + |taken|))
  {
    if taken == [] {
      assert ([e])[1..] == [];
    } else {
      assert (taken + [e])[1..] == taken[1..] + [e];
      TrailGrows(taken[1..], e, maxAttempts, w, from + 1);
    }
  }

  lemma IdsGrow(entries: seq<Entry>, e: Entry)
    ensures Ids(entries + [e]) == Ids(entries) + if e.Item? then {e.dto.bookingId} else {}
  {
    assert forall x :: x in entries + [e] <==> x in entries || x == e;
  }

  /** Turn i pops entry i of the snapshot and leaves the rest ahead of everything pushed since. */
  lemma TurnMovesOn(q0: seq<Entry>, i: nat, queue: seq<Entry>, maxAttempts: nat, w: World)
    requires i < |q0| && queue == q0[i..] + Trail(q0[..i], maxAttempts, w, 0)
    ensures (queue + w(i).before)[0] == q0[i]
    ensures (queue + w(i).before)[1..] + AddedAfterPop(q0[i], maxAttempts, w(i)) ==
            q0[i + 1..] + Trail(q0[..i] + [q0[i]], maxAttempts, w, 0)
    ensures q0[..i] + [q0[i]] == q0[..i + 1]
  {
    TrailGrows(q0[..i], q0[i], maxAttempts, w, 0);
    hide Trail, AddedAfterPop;
    var e, rest, trail := q0[i], q0[i + 1..], Trail(q0[..i], maxAttempts, w, 0);
    assert q0[i..] == [e] + rest;
    HeadGoes(e, rest, trail, w(i).before, AddedAfterPop(e, maxAttempts, w(i)));
  }

  lemma HeadGoes(e: Entry, rest: seq<Entry>, trail: seq<Entry>, before: seq<Entry>, after: seq<Entry>)
    ensures ([e] + rest + trail + before)[0] == e
    ensures ([e] + rest + trail + before)[1..] + after == rest + (trail + (before + after))
  {
    assert [e] + rest + trail + before == [e] + (rest + trail + before);
  }

  class Recoverer {
    var queue: seq<Entry>
    var handled: set<string>
    const maxAttempts: nat

    constructor (maxAttempts: nat)
      ensures queue == [] && handled == {} && this.maxAttempts == maxAttempts
    {
      queue, handled := [], {};
      this.maxAttempts := maxAttempts;
    }

    /** Push the item back with one more attempt; past the cap park it for a human instead. */
    method Requeue(dto: Dto, t: Turn)
      modifies this`queue
      ensures queue == old(queue) + Requeued(dto, maxAttempts, t)
    {
      var next := dto.(attempts := dto.attempts + 1);
      if next.attempts >= maxAttempts && t.parked {
        return;
      }
      if !t.encrypted {
        return;
      }
      for n := 0 to REQUEUE_RETRIES
        invariant queue == old(queue)
        invariant forall m | 0 <= m < n :: !t.pushed(m) && !t.cancelled(m)
      {
        if t.pushed(n) {
          queue := queue + [Item(next)];
          return;
        }
        if t.cancelled(n) {
          return;
        }
      }
    }

    /** Pop the front entry and process it; None when the pop fails or the queue is empty. */
    method TakeOne(t: Turn) returns (taken: Option<Entry>, ok: bool)
      modifies this
      ensures (old(queue) + t.before == [] || t.popFails) <==> taken.None?
      ensures taken.None? ==> queue == old(queue) + t.before && handled == old(handled) && ok == !t.popFails
      ensures taken.Some? ==>
                && taken.value == (old(queue) + t.before)[0]
                && queue == (old(queue) + t.before)[1..] + AddedAfterPop(taken.value, maxAttempts, t)
                && handled == old(handled) + (if taken.value.Item? then {taken.value.dto.bookingId} else {})
                && ok == !taken.value.BrokenEnvelope?
    {
      queue := queue + t.before;
      if t.popFails {
        return None, false;
      }
      if queue == [] {
        return None, true;
      }
      var entry := queue[0];
      queue := queue[1..] + t.during;
      if entry.Item? {
        handled := handled + {entry.dto.bookingId};
        if !t.processed {
          Requeue(entry.dto, t);
        }
      }
      return Some(entry), !entry.BrokenEnvelope?;
    }

    /** Take every entry that was queued at the start, each once and in order. */
    method Drain(lengthFails: bool, w: World) returns (ok: bool, ghost taken: seq<Entry>)
      modifies this
      // the entries taken are the first of the snapshot, in queue order
      ensures taken == (if lengthFails then [] else old(queue)[..Taken(old(queue), w, 0)]) && handled == Ids(taken)
      ensures queue == if lengthFails then old(queue) else Drained(old(queue), maxAttempts, w)
      // all of them, unless the length could not be read, a pop failed or an envelope did not read
      ensures ok <==> !lengthFails && Completes(old(queue), w, 0)
    {
      handled, taken := {}, [];
      if lengthFails {
        return false, taken;
      }
      hide Taken, Completes, StopsAtPop, Trail, Ids;
      NothingTaken(maxAttempts, w);
      var length := |queue|;
      ghost var q0 := queue;
      for i := 0 to length
        invariant taken == q0[..i] && handled == Ids(taken)
        invariant queue == q0[i..] + Trail(taken, maxAttempts, w, 0)
        invariant Taken(q0, w, 0) == i + Taken(q0[i..], w, i)
        invariant Completes(q0, w, 0) <==> Completes(q0[i..], w, i)
        invariant StopsAtPop(q0, w, 0) <==> StopsAtPop(q0[i..], w, i)
      {
        TurnMovesOn(q0, i, queue, maxAttempts, w);
        TurnEnds(q0[i..], w, i);
        assert q0[i..][1..] == q0[i + 1..];
        var entry;
        entry, ok := TakeOne(w(i));
        if entry.None? {
          return false, taken;
        }
        IdsGrow(taken, entry.value);
        taken := taken + [entry.value];
        assert taken == q0[..i + 1];
        if !ok {
          return false, taken;
        }
      }
      assert q0[length..] == [] && q0[..length] == q0;
      QueueIsDone(w, length);
      ok := true;
    }
  }

  lemma NothingTaken(maxAttempts: nat, w: World)
    ensures Ids([]) == {} && Trail([], maxAttempts, w, 0) == []
  {
  }

  lemma QueueIsDone(w: World, from: nat)
    ensures Taken([], w, from) == 0 && Completes([], w, from) && !StopsAtPop([], w, from)
  {
  }

  /** How one turn ends a drain, or leaves it to the rest. */
  lemma TurnEnds(queue: seq<Entry>, w: World, from: nat)
    requires queue != []
    ensures w(from).popFails ==> Taken(queue, w, from) == 0 && !Completes(queue, w, from) && StopsAtPop(queue, w, from)
    ensures !w(from).popFails && queue[0].BrokenEnvelope? ==>
              Taken(queue, w, from) == 1 && !Completes(queue, w, from) && !StopsAtPop(queue, w, from)
    ensures !w(from).popFails && !queue[0].BrokenEnvelope? ==>
              && Taken(queue, w, from) == 1 + Taken(queue[1..], w, from + 1)
              && (Completes(queue, w, from) <==> Completes(queue[1..], w, from + 1))
              && (StopsAtPop(queue, w, from) <==> StopsAtPop(queue[1..], w, from + 1))
  {
  }

  // ---------------------------------------------------------------- over the cycles

  /** One cycle: its drain, and what is pushed until the next. */
  datatype Cycle = Cycle(lengthFails: bool, w: World, after: seq<Entry>)

  function AfterCycle(queue: seq<Entry>, maxAttempts: nat, c: Cycle): seq<Entry> {
    (if c.lengthFails then queue else Drained(queue, maxAttempts, c.w)) + c.after
  }

  function Cycles(queue: seq<Entry>, maxAttempts: nat, cs: seq<Cycle>): seq<Entry>
    decreases |cs|
  {
    if cs == [] then queue else Cycles(AfterCycle(queue, maxAttempts, cs[0]), maxAttempts, cs[1..])
  }

  /** Every record of the booking has failed at least `low` times and fewer than `cap`. */
  ghost predicate Failed(entries: seq<Entry>, id: string, low: nat, cap: nat) {
    forall e | e in entries && e.Item? && e.dto.bookingId == id :: low <= e.dto.attempts < cap
  }

  ghost predicate NoRecord(entries: seq<Entry>, id: string) {
    forall e | e in entries && e.Item? :: e.dto.bookingId != id
  }

  /** The drain of this cycle takes every record of the booking it finds, wherever it stops after that. */
  ghost predicate Reaches(queue: seq<Entry>, c: Cycle, id: string) {
    !c.lengthFails && NoRecord(queue[Taken(queue, c.w, 0)..], id)
  }

  /** How many of these cycles do. */
  ghost function Reaching(queue: seq<Entry>, maxAttempts: nat, cs: seq<Cycle>, id: string): nat
    decreases |cs|
  {
    if cs == [] then 0
    else
      (if Reaches(queue, cs[0], id) then 1 else 0)
      + Reaching(AfterCycle(queue, maxAttempts, cs[0]), maxAttempts, cs[1..], id)
  }

  /** The manual-intervention endpoint always answers. */
  ghost predicate ParkingWorks(w: World) {
    forall i: nat :: w(i).parked
  }

  /** Nobody pushes a record of this booking meanwhile; of others, and unreadable ones, anybody may. */
  ghost predicate Quiet(c: Cycle, id: string) {
    NoRecord(c.after, id) && forall i: nat :: NoRecord(c.w(i).before, id) && NoRecord(c.w(i).during, id)
  }

  ghost predicate AttemptsBelow(entries: seq<Entry>, cap: nat) {
    forall e | e in entries && e.Item? :: e.dto.attempts < cap
  }

  /** With parking working, no record ever carries as many failures as the cap. */
  lemma {:induction false} AttemptsStayBelowCap(queue: seq<Entry>, maxAttempts: nat, w: World, from: nat)
    requires maxAttempts > 0 && ParkingWorks(w) && AttemptsBelow(queue, maxAttempts)
    requires forall i: nat :: AttemptsBelow(w(i).before, maxAttempts) && AttemptsBelow(w(i).during, maxAttempts)
    ensures AttemptsBelow(Trail(queue, maxAttempts, w, from), maxAttempts)
  {
    if queue != [] {
      AttemptsStayBelowCap(queue[1..], maxAttempts, w, from + 1);
      assert w(from).parked;
    }
  }

  /** What taking entries puts back of a booking has failed once more. */
  lemma {:induction false} EveryTurnCounts(taken: seq<Entry>, id: string, low: nat, maxAttempts: nat, c: Cycle,
                                           from: nat)
    requires maxAttempts > 0 && ParkingWorks(c.w) && Quiet(c, id) && Failed(taken, id, low, maxAttempts)
    ensures Failed(Trail(taken, maxAttempts, c.w, from), id, low + 1, maxAttempts)
  {
    if taken != [] {
      EveryTurnCounts(taken[1..], id, low, maxAttempts, c, from + 1);
      assert c.w(from).parked && NoRecord(c.w(from).before, id) && NoRecord(c.w(from).during, id);
    }
  }

  /** One of the three pushes succeeds, with none before it succeeding or cut off by the context. */
  lemma {:induction false} PushesWhen(t: Turn)
    ensures Pushes(t) <==>
            t.encrypted
            && (t.pushed(0)
                || (!t.cancelled(0) && (t.pushed(1)
                    || (!t.cancelled(1) && t.pushed(2)))))
  {
    assert Pushes(t) <==> t.encrypted && (PushesAt(t, 0) || PushesAt(t, 1) || PushesAt(t, 2));
  }

  ghost predicate PushesAt(t: Turn, n: nat) {
    t.pushed(n) && forall m | 0 <= m < n :: !t.pushed(m) && !t.cancelled(m)
  }

  /**
   A failed item that was taken comes back with one attempt more: unless it has used up its attempts and a human
   takes over, and as long as it can be pushed. Whatever was pushed meanwhile is there too.
   */
  lemma {:induction false} FailedItemComesBack(taken: seq<Entry>, i: nat, maxAttempts: nat, w: World, from: nat)
    requires i < |taken|
    ensures forall e | e in w(from + i).before || e in w(from + i).during :: e in Trail(taken, maxAttempts, w, from)
    ensures var t := w(from + i);
            taken[i].Item? && !t.processed && (taken[i].dto.attempts + 1 < maxAttempts || !t.parked) && Pushes(t) ==>
              var d := taken[i].dto;
              Item(Dto(d.bookingId, d.bookingNo, d.ticketNo, d.attempts + 1)) in Trail(taken, maxAttempts, w, from)
  {
    hide Pushes;
    if i > 0 {
      FailedItemComesBack(taken[1..], i - 1, maxAttempts, w, from + 1);
      assert taken[1..][i - 1] == taken[i] && from + 1 + (i - 1) == from + i;
    }
  }

  /** Where a drain stops: before the first failing pop, or behind the first broken envelope it meets. */
  lemma {:induction false} StopsWhere(queue: seq<Entry>, w: World, from: nat)
    ensures var n := Taken(queue, w, from);
            && (forall t: nat | from <= t < from + n :: !w(t).popFails)
            && (forall i | 0 <= i < n - 1 :: !queue[i].BrokenEnvelope?)
            && (Completes(queue, w, from) ==> n == |queue| && (n > 0 ==> !queue[n - 1].BrokenEnvelope?))
            && (!Completes(queue, w, from) ==>
                  if StopsAtPop(queue, w, from) then n < |queue| && w(from + n).popFails
                  else n > 0 && queue[n - 1].BrokenEnvelope?)
  {
    if queue != [] && !w(from).popFails && !queue[0].BrokenEnvelope? {
      var rest := queue[1..];
      StopsWhere(rest, w, from + 1);
      assert forall i | 0 < i < |queue| :: queue[i] == rest[i - 1];
    }
  }

  lemma {:induction false} CompleteReaches(queue: seq<Entry>, c: Cycle, id: string)
    requires !c.lengthFails && Completes(queue, c.w, 0)
    ensures Reaches(queue, c, id)
  {
    StopsWhere(queue, c.w, 0);
  }

  /** A cycle never lowers a booking's failures, and raises them when its drain takes all of its records. */
  lemma CycleCounts(queue: seq<Entry>, id: string, low: nat, maxAttempts: nat, c: Cycle)
    requires maxAttempts > 0 && ParkingWorks(c.w) && Quiet(c, id) && Failed(queue, id, low, maxAttempts)
    ensures Failed(AfterCycle(queue, maxAttempts, c), id, if Reaches(queue, c, id) then low + 1 else low, maxAttempts)
  {
    if !c.lengthFails {
      var n := Taken(queue, c.w, 0);
      EveryTurnCounts(queue[..n], id, low, maxAttempts, c, 0);
      assert NoRecord(c.w(n).before, id);
      hide Taken, Completes, StopsAtPop, Trail, Quiet, ParkingWorks;
    }
  }

  /**
   A booking nobody pushes again is off the queue after as many drains that took its records as the cap leaves
   it attempts, whatever fails, whatever else is pushed, and wherever those and other drains are cut short.
   */
  lemma {:induction false} LeavesWithinMaxAttempts(queue: seq<Entry>, id: string, failures: nat, maxAttempts: nat,
                                                   cs: seq<Cycle>)
    requires maxAttempts > 0 && Failed(queue, id, failures, maxAttempts)
    requires forall c | c in cs :: ParkingWorks(c.w) && Quiet(c, id)
    requires failures + Reaching(queue, maxAttempts, cs, id) >= maxAttempts
    ensures NoRecord(Cycles(queue, maxAttempts, cs), id)
    decreases |cs|
  {
    if cs != [] {
      CycleCounts(queue, id, failures, maxAttempts, cs[0]);
      hide AfterCycle, Reaches, Quiet, ParkingWorks;
      var next := AfterCycle(queue, maxAttempts, cs[0]);
      var failed := if Reaches(queue, cs[0], id) then failures + 1 else failures;
      LeavesWithinMaxAttempts(next, id, failed, maxAttempts, cs[1..]);
    }
  }
}
