/**
 Why a booking became a duplicate: the calls of the very item that declared it, found in the run itself.
 Any number of buyers, any run.
 */
module RecoveryVerdicts {
  import opened Wrappers
  import opened Recovery

  /** Step j is a call made for booking id on the item still being resolved at the end of the run. */
  ghost predicate CalledAt(init: State, steps: seq<Step>, j: nat, call: TaskStep, id: Id) {
    && j < |steps| && steps[j] == ByTask(call)
    && (forall i | j < i < |steps| :: !steps[i].ByCycle?)
    && Run(init, steps[..j]).Some?
    && var u := Run(init, steps[..j]).value;
       u.task.Some? && u.task.value.record.id == id && id in u.bookings
  }

  /** The state in which step j was taken. */
  ghost function StateAt(init: State, steps: seq<Step>, j: nat): State
    requires j < |steps| && Run(init, steps[..j]).Some?
  {
    Run(init, steps[..j]).value
  }

  /** Call c saw the departure still ahead. */
  ghost predicate LookedAt(init: State, steps: seq<Step>, c: nat, id: Id) {
    CalledAt(init, steps, c, StillAhead, id) &&
    var u := StateAt(init, steps, c);
    u.bookings[id].key !in u.departed
  }

  /** Call j scanned a list that held no ticket for the booking. */
  ghost predicate AbsentAt(init: State, steps: seq<Step>, j: nat, id: Id) {
    CalledAt(init, steps, j, ScanFindsNothing, id) &&
    var u := StateAt(init, steps, j);
    forall x | x in u.account :: x.key != u.bookings[id].key
  }

  /** Call j scanned a list that held ticket x for the booking. */
  ghost predicate FoundAt(init: State, steps: seq<Step>, j: nat, x: Ticket, id: Id) {
    CalledAt(init, steps, j, ScanFinds(x), id) &&
    var u := StateAt(init, steps, j);
    x in u.account && x.key == u.bookings[id].key
  }

  /** Call j saw that number recorded on a Completed booking of the same passenger and departure. */
  ghost predicate ClaimedAt(init: State, steps: seq<Step>, j: nat, no: Number, owner: Id, id: Id) {
    CalledAt(init, steps, j, FindsClaimant(owner), id) &&
    Claims(StateAt(init, steps, j), owner, id, no)
  }

  /** The item looked at the departure and then scanned a list without a ticket for the booking. */
  ghost predicate AbsenceProven(init: State, steps: seq<Step>, id: Id) {
    exists c: nat, j: nat :: c < j && LookedAt(init, steps, c, id) && AbsentAt(init, steps, j, id)
  }

  /** The item scanned a ticket and then saw it recorded on another booking. */
  ghost predicate ClaimProven(init: State, steps: seq<Step>, id: Id) {
    exists f: nat, j: nat, x: Ticket, owner: Id ::
      f < j && FoundAt(init, steps, f, x, id) && ClaimedAt(init, steps, j, x.no, owner, id)
  }

  // ---------------------------------------------------------------- the calls behind each stage

  lemma CallsStay(init: State, steps: seq<Step>, e: Step, j: nat, call: TaskStep, id: Id)
    requires CalledAt(init, steps, j, call, id) && !e.ByCycle?
    ensures CalledAt(init, steps + [e], j, call, id)
    ensures StateAt(init, steps + [e], j) == StateAt(init, steps, j)
  {
    assert (steps + [e])[..j] == steps[..j];
  }

  lemma CallIsMade(init: State, steps: seq<Step>, s: State, call: TaskStep)
    requires Run(init, steps) == Some(s) && s.task.Some? && s.task.value.record.id in s.bookings
    ensures CalledAt(init, steps + [ByTask(call)], |steps|, call, s.task.value.record.id)
    ensures StateAt(init, steps + [ByTask(call)], |steps|) == s
  {
    assert (steps + [ByTask(call)])[..|steps|] == steps;
  }

  lemma LookStays(init: State, steps: seq<Step>, e: Step, id: Id)
    requires !e.ByCycle?
    ensures forall c: nat | LookedAt(init, steps, c, id) :: LookedAt(init, steps + [e], c, id)
    ensures forall j: nat | AbsentAt(init, steps, j, id) :: AbsentAt(init, steps + [e], j, id)
  {
    hide CalledAt;
    forall c: nat | LookedAt(init, steps, c, id)
      ensures LookedAt(init, steps + [e], c, id)
    {
      CallsStay(init, steps, e, c, StillAhead, id);
    }
    forall j: nat | AbsentAt(init, steps, j, id)
      ensures AbsentAt(init, steps + [e], j, id)
    {
      CallsStay(init, steps, e, j, ScanFindsNothing, id);
    }
  }

  lemma FindStays(init: State, steps: seq<Step>, e: Step, id: Id)
    requires !e.ByCycle?
    ensures forall f: nat, x | FoundAt(init, steps, f, x, id) :: FoundAt(init, steps + [e], f, x, id)
    ensures forall j: nat, no, owner | ClaimedAt(init, steps, j, no, owner, id) ::
              ClaimedAt(init, steps + [e], j, no, owner, id)
  {
    hide CalledAt;
    forall f: nat, x | FoundAt(init, steps, f, x, id)
      ensures FoundAt(init, steps + [e], f, x, id)
    {
      CallsStay(init, steps, e, f, ScanFinds(x), id);
    }
    forall j: nat, no, owner | ClaimedAt(init, steps, j, no, owner, id)
      ensures ClaimedAt(init, steps + [e], j, no, owner, id)
    {
      CallsStay(init, steps, e, j, FindsClaimant(owner), id);
    }
  }

  /** What stands behind the stage an item has reached. */
  ghost predicate Backed(init: State, steps: seq<Step>, s: State) {
    s.task.Some? ==>
      var id := s.task.value.record.id;
      match s.task.value.at
      case Scan => exists c: nat :: LookedAt(init, steps, c, id)
      case Claim(no) => exists f: nat, x: Ticket :: FoundAt(init, steps, f, x, id) && x.no == no
      case Recycle => AbsenceProven(init, steps, id)
      case Refund => AbsenceProven(init, steps, id) || ClaimProven(init, steps, id)
      case _ => true
  }

  /** Backing outlasts what buyers and the world do. */
  lemma BackingStays(init: State, steps: seq<Step>, s: State, e: Step, t: State)
    requires Backed(init, steps, s) && !e.ByCycle? && t.task == s.task
    ensures Backed(init, steps + [e], t)
  {
    if s.task.Some? {
      var id := s.task.value.record.id;
      LookStays(init, steps, e, id);
      FindStays(init, steps, e, id);
      hide LookedAt, AbsentAt, FoundAt, ClaimedAt;
    }
  }

  lemma LookIsMade(init: State, steps: seq<Step>, s: State)
    requires Run(init, steps) == Some(s) && TaskNext(s, StillAhead).Some?
    ensures LookedAt(init, steps + [ByTask(StillAhead)], |steps|, s.task.value.record.id)
  {
    CallIsMade(init, steps, s, StillAhead);
    hide CalledAt, StateAt, Run;
  }

  lemma AbsenceIsSeen(init: State, steps: seq<Step>, s: State)
    requires Run(init, steps) == Some(s) && TaskNext(s, ScanFindsNothing).Some? && Backed(init, steps, s)
    ensures AbsenceProven(init, steps + [ByTask(ScanFindsNothing)], s.task.value.record.id)
  {
    var e, id := ByTask(ScanFindsNothing), s.task.value.record.id;
    CallIsMade(init, steps, s, ScanFindsNothing);
    LookStays(init, steps, e, id);
    var c: nat :| LookedAt(init, steps, c, id);
    assert forall x | x in s.account :: !Shows(s, id, x);
    hide CalledAt, StateAt, Run;
    assert AbsentAt(init, steps + [e], |steps|, id);
    assert LookedAt(init, steps + [e], c, id) && c < |steps| by {
      LookedIsEarlier(init, steps, c, id);
    }
  }

  lemma LookedIsEarlier(init: State, steps: seq<Step>, c: nat, id: Id)
    requires LookedAt(init, steps, c, id)
    ensures c < |steps|
  {
  }

  lemma TicketIsSeen(init: State, steps: seq<Step>, s: State, x: Ticket)
    requires Run(init, steps) == Some(s) && TaskNext(s, ScanFinds(x)).Some?
    ensures FoundAt(init, steps + [ByTask(ScanFinds(x))], |steps|, x, s.task.value.record.id)
  {
    CallIsMade(init, steps, s, ScanFinds(x));
    hide CalledAt, StateAt, Run;
  }

  lemma ClaimIsSeen(init: State, steps: seq<Step>, s: State, owner: Id)
    requires Run(init, steps) == Some(s) && TaskNext(s, FindsClaimant(owner)).Some? && Backed(init, steps, s)
    ensures ClaimProven(init, steps + [ByTask(FindsClaimant(owner))], s.task.value.record.id)
  {
    var e, id := ByTask(FindsClaimant(owner)), s.task.value.record.id;
    CallIsMade(init, steps, s, FindsClaimant(owner));
    FindStays(init, steps, e, id);
    var f: nat, x: Ticket :| FoundAt(init, steps, f, x, id) && x.no == s.task.value.at.no;
    assert f < |steps|;
    hide CalledAt, StateAt, Run;
    assert ClaimedAt(init, steps + [e], |steps|, x.no, owner, id);
  }

  lemma TaskKeepsBacking(init: State, steps: seq<Step>, s: State, call: TaskStep, t: State)
    requires Run(init, steps) == Some(s) && Backed(init, steps, s) && TaskNext(s, call) == Some(t)
    ensures Backed(init, steps + [ByTask(call)], t)
  {
    hide Run, LookedAt, AbsenceProven, FoundAt, ClaimProven;
    match call {
      case StillAhead => LookIsMade(init, steps, s);
      case ScanFindsNothing => AbsenceIsSeen(init, steps, s);
      case ScanFinds(x) => TicketIsSeen(init, steps, s, x);
      case FindsClaimant(owner) => ClaimIsSeen(init, steps, s, owner);
      case RetriesExhausted => BackingStays(init, steps, s, ByTask(call), s);
      case _ =>
    }
  }

  lemma StepKeepsBacking(init: State, steps: seq<Step>, s: State, e: Step, t: State)
    requires Run(init, steps) == Some(s) && Backed(init, steps, s) && Next(s, e) == Some(t)
    ensures Backed(init, steps + [e], t)
  {
    if e.ByTask? {
      TaskKeepsBacking(init, steps, s, e.call, t);
    } else {
      OtherStepsAndTasks(s, e, t);
      hide Next;
      if !e.ByCycle? {
        BackingStays(init, steps, s, e, t);
      }
    }
  }

  lemma OtherStepsAndTasks(s: State, e: Step, t: State)
    requires !e.ByTask? && Next(s, e) == Some(t)
    ensures if e.ByCycle? then t.task.None? || t.task.value.at.Fetch? || t.task == s.task == None else t.task == s.task
    ensures e.ByCycle? ==> t.recycled == s.recycled && t.bookings == s.bookings
  {
  }

  // ---------------------------------------------------------------- how a booking became a duplicate

  /** Step r recycled booking id, by an item that had proven absence. */
  ghost predicate RecycledAt(init: State, steps: seq<Step>, r: nat, id: Id) {
    && r < |steps| && steps[r] == ByTask(RecycleDone)
    && Run(init, steps[..r]).Some?
    && var u := Run(init, steps[..r]).value;
       u.task.Some? && u.task.value.record.id == id && AbsenceProven(init, steps[..r], id)
  }

  /**
   Step m made booking id a duplicate: an item marked it that had itself proven absence or a claim, or zinc
   expired it after an earlier item had proven absence and recycled it.
   */
  ghost predicate EndedAt(init: State, steps: seq<Step>, m: nat, id: Id) {
    && m < |steps| && Run(init, steps[..m]).Some?
    && var u := Run(init, steps[..m]).value;
       || (steps[m] == ByTask(MarkDuplicate) && u.task.Some? && u.task.value.record.id == id
           && (AbsenceProven(init, steps[..m], id) || ClaimProven(init, steps[..m], id)))
       || (steps[m] == ByWorld(ExpireRecycled(id)) && exists r: nat :: r < m && RecycledAt(init, steps, r, id))
  }

  ghost predicate Explained(init: State, steps: seq<Step>, s: State) {
    && Backed(init, steps, s)
    && (forall id | id in s.recycled :: exists r: nat :: RecycledAt(init, steps, r, id))
    && (forall id | Has(s, id, Duplicate) :: exists m: nat :: EndedAt(init, steps, m, id))
  }

  lemma HistoryStays(init: State, steps: seq<Step>, e: Step, id: Id)
    ensures forall r: nat | RecycledAt(init, steps, r, id) :: RecycledAt(init, steps + [e], r, id) && r < |steps|
    ensures forall m: nat | EndedAt(init, steps, m, id) :: EndedAt(init, steps + [e], m, id)
  {
    hide AbsenceProven, ClaimProven, Run;
    forall r: nat | RecycledAt(init, steps, r, id)
      ensures RecycledAt(init, steps + [e], r, id)
    {
      assert (steps + [e])[..r] == steps[..r];
    }
    forall m: nat | EndedAt(init, steps, m, id)
      ensures EndedAt(init, steps + [e], m, id)
    {
      assert (steps + [e])[..m] == steps[..m];
    }
  }

  /** Who may recycle a booking, and who may make it a duplicate. */
  ghost predicate Ends(s: State, e: Step, t: State) {
    && (forall id | id in t.recycled && id !in s.recycled ::
          e == ByTask(RecycleDone) && s.task.Some? && s.task.value.at.Recycle? && s.task.value.record.id == id)
    && (forall id | Has(t, id, Duplicate) && !Has(s, id, Duplicate) ::
          || (e == ByTask(MarkDuplicate) && s.task.Some? && s.task.value.at.Refund? && s.task.value.record.id == id)
          || (e == ByWorld(ExpireRecycled(id)) && id in s.recycled))
  }

  lemma BuyerEndsNothing(s: State, k: nat, b: BuyerStep, t: State)
    requires BuyerNext(s, k, b) == Some(t)
    ensures Ends(s, ByBuyer(k, b), t)
  {
  }

  lemma CallEnds(s: State, call: TaskStep, t: State)
    requires TaskNext(s, call) == Some(t)
    ensures Ends(s, ByTask(call), t)
  {
  }

  lemma WhoEnds(s: State, e: Step, t: State)
    requires Next(s, e) == Some(t)
    ensures Ends(s, e, t)
  {
    match e {
      case ByBuyer(k, b) => BuyerEndsNothing(s, k, b, t);
      case ByTask(call) => CallEnds(s, call, t);
      case _ => hide BuyerNext, TaskNext;
    }
  }

  lemma StepIsExplained(init: State, steps: seq<Step>, s: State, e: Step, t: State)
    requires Run(init, steps) == Some(s) && Explained(init, steps, s) && Next(s, e) == Some(t)
    ensures Explained(init, steps + [e], t)
  {
    StepKeepsBacking(init, steps, s, e, t);
    WhoEnds(s, e, t);
    assert (steps + [e])[..|steps|] == steps;
    hide Run, Next, Has, AbsenceProven, ClaimProven;
    forall id | id in t.recycled
      ensures exists r: nat :: RecycledAt(init, steps + [e], r, id)
    {
      HistoryStays(init, steps, e, id);
      if id !in s.recycled {
        assert RecycledAt(init, steps + [e], |steps|, id);
      }
    }
    forall id | Has(t, id, Duplicate)
      ensures exists m: nat :: EndedAt(init, steps + [e], m, id)
    {
      HistoryStays(init, steps, e, id);
      if !Has(s, id, Duplicate) {
        assert EndedAt(init, steps + [e], |steps|, id);
      }
    }
  }

  lemma {:induction false} RunIsExplained(n: nat, init: State, steps: seq<Step>, s: State)
    requires Initial(init, n) && Run(init, steps) == Some(s)
    ensures Explained(init, steps, s)
  {
    if steps != [] {
      var last := |steps| - 1;
      assert steps == steps[..last] + [steps[last]];
      RunAppends(init, steps[..last], steps[last]);
      var u := Run(init, steps[..last]).value;
      hide Run, Next, Explained, Initial;
      RunIsExplained(n, init, steps[..last], u);
      StepIsExplained(init, steps[..last], u, steps[last], s);
    }
  }

  /**
   In every run, however many buyers there are: a booking that is a duplicate was made one by a step of that
   run, on the strength of what the same item, or the item that recycled it, had itself seen.
   */
  lemma {:induction false} DuplicatesAreProven(n: nat, init: State, steps: seq<Step>, s: State, id: Id)
    requires Initial(init, n) && Run(init, steps) == Some(s) && Has(s, id, Duplicate)
    ensures exists m: nat :: EndedAt(init, steps, m, id)
  {
    hide Run, Initial, EndedAt;
    RunIsExplained(n, init, steps, s);
  }
}
