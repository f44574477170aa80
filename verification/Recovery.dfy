/**
 The recovery protocol: buyers park bookings on a queue while one recoverer drains that queue and
 sweeps zinc for bookings stuck in Recovering.

 Every Redis, zinc or KTMB call is one step, so the buyers and the recoverer interleave between any
 two of their calls. A call that fails has no effect. zinc's transition guards are part of the steps.
 */
module Recovery {
  import opened Wrappers

  type Id = nat

  /** A KTMB booking number; non-empty and never reused. */
  type Number = nat

  /** What the scan matches on: the passenger's passport and the departure. */
  type Key = nat

  /** Closed stands for the cancelled, refunded and terminated bookings. */
  datatype Status = Pending | Buying | Completed | Recovering | Duplicate | Manual | Closed

  datatype Booking = Booking(key: Key, status: Status, captured: Option<Number>)

  /** A ticket on our KTMB account; `buyer` is the booking it was bought for, which no program reads. */
  datatype Ticket = Ticket(no: Number, key: Key, buyer: Option<Id>)

  /** A recover-queue record; `no` only when both ticket identifiers are known. */
  datatype Record = Record(id: Id, no: Option<Number>, attempts: nat)

  // ---------------------------------------------------------------- program counters

  datatype Buyer =
    | Free
    | Purchasing(id: Id)            // marked Buying in zinc, the KTMB purchase is under way
    | Paid(id: Id, no: Number)      // KTMB has captured the payment, zinc does not know yet
    | Parking(id: Id)               // the record is on the queue, the transition is still to be made

  datatype Stage =
    | Fetch
    | Mark                          // drive Buying -> Recovering
    | Triage                        // use the identifiers, or look at the departure
    | Scan                          // the departure was still ahead
    | Claim(no: Number)             // the scan found this ticket
    | Recycle                       // the scan proved absence
    | Refund
    | Capture(no: Number)
    | Park
    | Failed                        // an error is returned: the caller re-queues
    | Push(record: Record)

  datatype Task = Task(record: Record, at: Stage)

  datatype Phase =
    | Idle
    | Draining(left: nat)           // pops left of the length observed at the start
    | Drained
    | Listed(ids: seq<Id>)
    | Sweeping(todo: seq<Id>)

  datatype State = State(
    bookings: map<Id, Booking>,
    account: set<Ticket>,           // KTMB's list of upcoming tickets
    issued: set<Number>,
    bought: set<Ticket>,            // every ticket ever bought by a buyer, which no program reads
    departed: set<Key>,             // whose departure has passed
    queue: seq<Record>,
    buyers: seq<Buyer>,
    phase: Phase,
    task: Option<Task>,
    handled: set<Id>,
    recycled: set<Id>,              // zinc's mark of bookings once recycled
    maxAttempts: nat)

  // ---------------------------------------------------------------- zinc's guards

  predicate Terminal(status: Status) {
    status in {Completed, Duplicate, Closed}
  }

  predicate Has(s: State, id: Id, status: Status) {
    id in s.bookings && s.bookings[id].status == status
  }

  function Move(s: State, id: Id, status: Status): State
    requires id in s.bookings
  {
    s.(bookings := s.bookings[id := s.bookings[id].(status := status)])
  }

  predicate MayComplete(s: State, id: Id) {
    id in s.bookings && s.bookings[id].status in {Pending, Buying, Recovering} && s.bookings[id].captured.None?
  }

  function Complete(s: State, id: Id, no: Number): State
    requires id in s.bookings
  {
    s.(bookings := s.bookings[id := s.bookings[id].(status := Completed, captured := Some(no))])
  }

  predicate MayDuplicate(s: State, id: Id) {
    id in s.bookings && s.bookings[id].status in {Recovering, Manual} && s.bookings[id].captured.None?
  }

  predicate MayPark(s: State, id: Id) {
    id in s.bookings && !Terminal(s.bookings[id].status)
  }

  // ---------------------------------------------------------------- steps

  datatype BuyerStep =
    | Start(id: Id)                 // zinc moves Pending -> Buying
    | Purchase(no: Number)          // KTMB captures the payment and issues the ticket
    | Report                        // zinc records the captured ticket
    | Revert                        // nothing was captured: zinc moves Buying -> Pending
    | PushRecord(complete: bool)    // the record carries both identifiers, or not
    | Transition                    // zinc moves Buying -> Recovering, or its guard refuses
    | GiveUp                        // every other ending, a crash at any point included

  function BuyerNext(s: State, k: nat, step: BuyerStep): Option<State> {
    if k >= |s.buyers| then None
    else
      match (step, s.buyers[k])
      case (Start(id), Free) =>
        if Has(s, id, Pending) then Some(Move(s, id, Buying).(buyers := s.buyers[k := Purchasing(id)])) else None
      case (Purchase(no), Purchasing(id)) =>
        // KTMB refuses a second ticket for the same passport and departure
        if id in s.bookings && no !in s.issued && (forall t | t in s.account :: t.key != s.bookings[id].key) then
          var ticket := Ticket(no, s.bookings[id].key, Some(id));
          Some(s.(account := s.account + {ticket}, issued := s.issued + {no}, bought := s.bought + {ticket},
                  buyers := s.buyers[k := Paid(id, no)]))
        else None
      case (Report, Paid(id, no)) =>
        if MayComplete(s, id) then Some(Complete(s, id, no).(buyers := s.buyers[k := Free])) else None
      case (Revert, Purchasing(id)) =>
        if Has(s, id, Buying) && s.bookings[id].captured.None?
        then Some(Move(s, id, Pending).(buyers := s.buyers[k := Free])) else None
      case (PushRecord(_), Purchasing(id)) =>
        Some(s.(queue := s.queue + [Record(id, None, 0)], buyers := s.buyers[k := Parking(id)]))
      case (PushRecord(complete), Paid(id, no)) =>
        Some(s.(queue := s.queue + [Record(id, if complete then Some(no) else None, 0)],
                buyers := s.buyers[k := Parking(id)]))
      case (Transition, Parking(id)) =>
        var moved := if Has(s, id, Buying) then Move(s, id, Recovering) else s;
        Some(moved.(buyers := s.buyers[k := Free]))
      case (GiveUp, _) =>
        Some(s.(buyers := s.buyers[k := Free]))
      case _ => None
  }

  /** The cycle around the items: drain, then sweep. */
  datatype CycleStep =
    | BeginDrain                    // reads the queue length
    | Pop
    | EndDrain                      // all popped, queue empty, or a Redis error
    | List(ids: seq<Id>)            // zinc's Recovering bookings
    | ReadQueue                     // drop those handled this cycle or still on the queue
    | TakeNext
    | EndCycle                      // done, or a failed list or read
    | Crash

  predicate Queued(queue: seq<Record>, id: Id) {
    exists r | r in queue :: r.id == id
  }

  predicate Distinct(ids: seq<Id>) {
    forall i, j | 0 <= i < j < |ids| :: ids[i] != ids[j]
  }

  predicate IsRecoveringList(s: State, ids: seq<Id>) {
    && (forall id | id in ids :: Has(s, id, Recovering))
    && (forall id | id in s.bookings :: Has(s, id, Recovering) ==> id in ids)
  }

  function Unhandled(ids: seq<Id>, handled: set<Id>, queue: seq<Record>): (todo: seq<Id>)
    ensures forall id :: id in todo <==> id in ids && id !in handled && !Queued(queue, id)
    ensures Distinct(ids) ==> Distinct(todo)
  {
    if ids == [] then []
    else
      var rest := Unhandled(ids[1..], handled, queue);
      if ids[0] in handled || Queued(queue, ids[0]) then rest else [ids[0]] + rest
  }

  function CycleNext(s: State, step: CycleStep): Option<State> {
    if step.Crash? then Some(s.(phase := Idle, task := None))
    else if s.task.Some? then None
    else
      match (step, s.phase)
      case (BeginDrain, Idle) => Some(s.(phase := Draining(|s.queue|), handled := {}))
      case (Pop, Draining(left)) =>
        if left > 0 && s.queue != [] then
          Some(s.(phase := Draining(left - 1), queue := s.queue[1..],
                  handled := s.handled + {s.queue[0].id}, task := Some(Task(s.queue[0], Fetch))))
        else None
      case (EndDrain, Draining(_)) => Some(s.(phase := Drained))
      case (List(ids), Drained) =>
        if Distinct(ids) && IsRecoveringList(s, ids) then Some(s.(phase := Listed(ids))) else None
      case (ReadQueue, Listed(ids)) => Some(s.(phase := Sweeping(Unhandled(ids, s.handled, s.queue))))
      case (TakeNext, Sweeping(todo)) =>
        if todo != [] then
          Some(s.(phase := Sweeping(todo[1..]), task := Some(Task(Record(todo[0], None, 0), Fetch))))
        else None
      case (EndCycle, _) => Some(s.(phase := Idle))
      case _ => None
  }

  /** The calls that resolve one item, each with the outcomes it can have. */
  datatype TaskStep =
    | CallFails
    | GetBooking
    | MarkRecovering
    | UseIdentifiers                // the record carries the ticket: capture it without a scan
    | UnreadableDeparture           // a human must look
    | PastDeparture                 // the list shows upcoming tickets only: a human must look
    | StillAhead
    | ScanFindsNothing
    | ScanFinds(t: Ticket)
    | FindsClaimant(owner: Id)      // a Completed booking of the same passenger and slot has the number
    | FindsNoClaimant
    | RecycleDone
    | RetriesExhausted
    | RecycleRefused                // the status changed under us: drop the item
    | MarkDuplicate
    | CompleteBooking
    | MarkManual
    | Requeue                       // count the attempt; past the cap try to park it instead
    | PushDone
    | PushLost                      // encryption or every push attempt failed

  function Goto(s: State, stage: Stage): State
    requires s.task.Some?
  {
    s.(task := Some(s.task.value.(at := stage)))
  }

  function Finish(s: State): State {
    s.(task := None)
  }

  predicate Shows(s: State, id: Id, t: Ticket) {
    id in s.bookings && t in s.account && t.key == s.bookings[id].key
  }

  predicate Claims(s: State, owner: Id, id: Id, no: Number) {
    && owner in s.bookings && id in s.bookings
    && s.bookings[owner].status == Completed && s.bookings[owner].captured == Some(no)
    && s.bookings[owner].key == s.bookings[id].key
  }

  function FetchNext(s: State, id: Id): State
    requires s.task.Some?
  {
    if id !in s.bookings || Terminal(s.bookings[id].status) || s.bookings[id].status == Manual then Finish(s)
    else if s.bookings[id].captured.Some? then Goto(s, Park)
    else if s.bookings[id].status == Buying then Goto(s, Mark)
    else if s.bookings[id].status == Recovering then Goto(s, Triage)
    else Goto(s, Park)
  }

  function TaskNext(s: State, step: TaskStep): Option<State> {
    if s.task.None? then None
    else
      var record := s.task.value.record;
      var id := record.id;
      match (step, s.task.value.at)
      case (GetBooking, Fetch) => Some(FetchNext(s, id))
      case (MarkRecovering, Mark) =>
        if Has(s, id, Buying) then Some(Goto(Move(s, id, Recovering), Triage)) else None
      case (UseIdentifiers, Triage) =>
        if record.no.Some? then Some(Goto(s, Capture(record.no.value))) else None
      case (UnreadableDeparture, Triage) =>
        if record.no.None? then Some(Goto(s, Park)) else None
      case (PastDeparture, Triage) =>
        if record.no.None? && id in s.bookings && s.bookings[id].key in s.departed then Some(Goto(s, Park)) else None
      case (StillAhead, Triage) =>
        if record.no.None? && id in s.bookings && s.bookings[id].key !in s.departed then Some(Goto(s, Scan)) else None
      case (ScanFindsNothing, Scan) =>
        if id in s.bookings && forall t | t in s.account :: !Shows(s, id, t) then Some(Goto(s, Recycle)) else None
      case (ScanFinds(t), Scan) =>
        if Shows(s, id, t) then Some(Goto(s, Claim(t.no))) else None
      case (FindsClaimant(owner), Claim(no)) =>
        if Claims(s, owner, id, no) then Some(Goto(s, Refund)) else None
      case (FindsNoClaimant, Claim(no)) =>
        if forall owner | owner in s.bookings :: !Claims(s, owner, id, no) then Some(Goto(s, Capture(no))) else None
      case (RecycleDone, Recycle) =>
        if Has(s, id, Recovering)
        then Some(Finish(Move(s, id, Pending)).(recycled := s.recycled + {id})) else None
      case (RetriesExhausted, Recycle) =>
        if Has(s, id, Recovering) then Some(Goto(s, Refund)) else None
      case (RecycleRefused, Recycle) =>
        if !Has(s, id, Recovering) then Some(Finish(s)) else None
      case (MarkDuplicate, Refund) =>
        if MayDuplicate(s, id) then Some(Finish(Move(s, id, Duplicate))) else None
      case (CompleteBooking, Capture(no)) =>
        if MayComplete(s, id) then Some(Finish(Complete(s, id, no))) else None
      case (MarkManual, Park) =>
        if MayPark(s, id) then Some(Finish(Move(s, id, Manual))) else None
      case (Requeue, Failed) =>
        Some(Goto(s, Push(record.(attempts := record.attempts + 1))))
      case (MarkManual, Push(next)) =>
        if next.attempts >= s.maxAttempts && MayPark(s, id) then Some(Finish(Move(s, id, Manual))) else None
      case (PushDone, Push(next)) =>
        Some(Finish(s.(queue := s.queue + [next])))
      case (PushLost, Push(_)) => Some(Finish(s))
      case (CallFails, Failed) => None
      case (CallFails, Push(_)) => None
      case (CallFails, _) => Some(Goto(s, Failed))
      case _ => None
  }

  /** What happens around the two programs. */
  datatype WorldStep =
    | LoseRecord(i: nat)            // dropped, malformed or undecryptable
    | ExpireRecycled(id: Id)        // zinc ends a recycled booking that never found a seat
    | TicketAppears(no: Number, key: Key)
    | TicketGone(t: Ticket)         // one of ours only after its departure, or once it is recorded
    | Depart(key: Key)

  /** The number is recorded on a Completed booking. */
  predicate Recorded(s: State, no: Number) {
    exists c | c in s.bookings :: Has(s, c, Completed) && s.bookings[c].captured == Some(no)
  }

  function WorldNext(s: State, step: WorldStep): Option<State> {
    match step
    case LoseRecord(i) =>
      if i < |s.queue| then Some(s.(queue := s.queue[..i] + s.queue[i + 1..])) else None
    case ExpireRecycled(id) =>
      if Has(s, id, Pending) && id in s.recycled then Some(Move(s, id, Duplicate)) else None
    case TicketAppears(no, key) =>
      if no !in s.issued && (forall t | t in s.account :: t.key != key) then
        Some(s.(account := s.account + {Ticket(no, key, None)}, issued := s.issued + {no}))
      else None
    case TicketGone(t) =>
      if t.buyer.None? || t.key in s.departed || Recorded(s, t.no) then Some(s.(account := s.account - {t})) else None
    case Depart(key) => Some(s.(departed := s.departed + {key}))
  }

  datatype Step =
    | ByBuyer(k: nat, buyer: BuyerStep)
    | ByCycle(cycle: CycleStep)
    | ByTask(call: TaskStep)
    | ByWorld(world: WorldStep)

  function Next(s: State, step: Step): Option<State> {
    match step
    case ByBuyer(k, b) => BuyerNext(s, k, b)
    case ByCycle(c) => CycleNext(s, c)
    case ByTask(t) => TaskNext(s, t)
    case ByWorld(w) => WorldNext(s, w)
  }

  /** The state after a run, when every step of it can be taken. */
  function Run(s: State, steps: seq<Step>): Option<State>
    decreases |steps|
  {
    if steps == [] then Some(s)
    else
      var t := Next(s, steps[0]);
      if t.None? then None else Run(t.value, steps[1..])
  }

  /** n buyers at rest, nothing queued, no duplicate declared and no ticket of theirs on the account yet. */
  ghost predicate Initial(s: State, n: nat) {
    && |s.buyers| == n && (forall k | 0 <= k < n :: s.buyers[k].Free?)
    && s.queue == [] && s.phase == Idle && s.task.None? && s.bought == {} && s.recycled == {}
    && (forall id :: !Has(s, id, Duplicate))
    && (forall t | t in s.account :: t.buyer.None? && t.no in s.issued)
    && OneTicketPerKey(s)
  }

  ghost predicate OneTicketPerKey(s: State) {
    forall t, u | t in s.account && u in s.account && t.key == u.key :: t == u
  }

  /** A departure passing is timely unless an item has looked at it and not yet scanned the list. */
  predicate Timely(s: State, step: Step) {
    step.ByWorld? && step.world.Depart? && s.task.Some? && s.task.value.at.Scan? ==>
      s.task.value.record.id in s.bookings ==> s.bookings[s.task.value.record.id].key != step.world.key
  }

  predicate TimelyRun(s: State, steps: seq<Step>)
    decreases |steps|
  {
    steps == [] ||
    (Next(s, steps[0]).Some? ==> Timely(s, steps[0]) && TimelyRun(Next(s, steps[0]).value, steps[1..]))
  }

  /** s ends a run of n buyers; with `timely`, one in which every departure passes timely. */
  ghost predicate Reachable(n: nat, timely: bool, s: State) {
    exists init, steps :: Initial(init, n) && Run(init, steps) == Some(s) && (timely ==> TimelyRun(init, steps))
  }

  lemma {:induction false} RunAppends(s: State, steps: seq<Step>, last: Step)
    ensures Run(s, steps + [last]) ==
            var m := Run(s, steps);
            if m.None? then None else Next(m.value, last)
    ensures TimelyRun(s, steps + [last]) <==>
            TimelyRun(s, steps) && (Run(s, steps).Some? && Next(Run(s, steps).value, last).Some? ==>
              Timely(Run(s, steps).value, last))
    decreases |steps|
  {
    hide Next, Timely;
    if steps == [] {
      assert (steps + [last])[1..] == [];
    } else {
      assert (steps + [last])[1..] == steps[1..] + [last];
      if Next(s, steps[0]).Some? {
        RunAppends(Next(s, steps[0]).value, steps[1..], last);
      }
    }
  }
}
