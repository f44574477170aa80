/**
 The seat differ: it remembers the seat count last reported for each slot and sends on the change. A slot
 whose demand rises is forgotten, so that its next report counts from zero.
 */
module Differ {
  import opened Wrappers
  import opened Demand

  datatype Diff = Diff(slot: Slot, count: int, prev: int, delta: int)

  /** Demand is keyed by "HH:MM:SS", seats by "HH:MM". */
  const SECONDS := ":00"

  predicate EndsWith(s: string, suffix: string) {
    |s| >= |suffix| && s[|s| - |suffix|..] == suffix
  }

  function TrimSuffix(s: string, suffix: string): string {
    if EndsWith(s, suffix) then s[..|s| - |suffix|] else s
  }

  function DemandOf(demand: Count, s: Slot): int {
    Get(demand, s.(time := s.time + SECONDS))
  }

  /** The demand for a seat slot is filed under its time with ":00" seconds; what is missing reads as none. */
  lemma DemandHasSeconds(relevant: Count, s: Slot)
    ensures var filed := Slot(s.dir, s.date, s.time + ":00");
            DemandOf(relevant, s) == if Lookup(relevant, filed).Some? then Lookup(relevant, filed).value else 0
  {
  }

  /** Trimming undoes that, and leaves any other time alone. */
  lemma {:induction false} TrimUndoesSeconds(time: string)
    ensures TrimSuffix(time + ":00", SECONDS) == time
    ensures (forall t: string :: time != t + ":00") ==> TrimSuffix(time, SECONDS) == time
  {
    var filed := time + ":00";
    assert filed[|filed| - 3..] == ":00" && filed[..|filed| - 3] == time;
    if EndsWith(time, SECONDS) {
      assert time == time[..|time| - 3] + ":00";
    }
  }

  // ---------------------------------------------------------------- what is remembered

  type Memory = imap<Slot, int>

  ghost function MemoryOf(c: Count): Memory {
    imap s: Slot | Lookup(c, s).Some? :: Lookup(c, s).value
  }

  ghost function Recall(m: Memory, s: Slot): int {
    if s in m then m[s] else 0
  }

  predicate Rose(last: Count, next: Count, s: Slot) {
    Lookup(next, s).Some? && Get(next, s) > Get(last, s)
  }

  /** Slot s of the seat counts is re-armed by some slot of the demand. */
  ghost predicate Rearmed(last: Count, next: Count, s: Slot) {
    exists t :: Rose(last, next, s.(time := t)) && TrimSuffix(t, SECONDS) == s.time
  }

  ghost function AfterRearm(m: Memory, last: Count, next: Count): Memory {
    imap s: Slot | s in m && !Rearmed(last, next, s) :: m[s]
  }

  /** The slots of one report that are in demand. */
  predicate Counts(demand: Count, dir: string, date: string, rx: map<string, int>, s: Slot) {
    s.dir == dir && s.date == date && s.time in rx && DemandOf(demand, s) != 0
  }

  ghost function AfterReport(m: Memory, demand: Count, dir: string, date: string, rx: map<string, int>): Memory {
    imap s: Slot | Counts(demand, dir, date, rx, s) || (s in m && !(s.dir == dir && s.date == date)) ::
      if Counts(demand, dir, date, rx, s) then rx[s.time] else m[s]
  }

  /** One message for each slot in demand whose reported count differs from the remembered one, and no other. */
  ghost predicate Sends(m: Memory, demand: Count, dir: string, date: string, rx: map<string, int>, sent: seq<Diff>) {
    && (forall i | 0 <= i < |sent| ::
          && Counts(demand, dir, date, rx, sent[i].slot)
          && sent[i].count == rx[sent[i].slot.time] != sent[i].prev
          && sent[i].prev == Recall(m, sent[i].slot)
          && sent[i].delta == sent[i].count - sent[i].prev)
    && (forall i, j | 0 <= i < j < |sent| :: sent[i].slot != sent[j].slot)
    && (forall s | Counts(demand, dir, date, rx, s) && rx[s.time] != Recall(m, s) ::
          exists i :: 0 <= i < |sent| && sent[i].slot == s)
  }

  // ---------------------------------------------------------------- the ledger of a run

  datatype Event = Forgot(slots: iset<Slot>) | Sent(diff: Diff)

  /** The sum of the deltas sent for a slot since it was last forgotten. */
  ghost function Balance(log: seq<Event>, s: Slot): int {
    if log == [] then 0
    else
      var before := log[..|log| - 1];
      match log[|log| - 1]
      case Forgot(slots) => if s in slots then 0 else Balance(before, s)
      case Sent(diff) => Balance(before, s) + if diff.slot == s then diff.delta else 0
  }

  ghost function Gone(before: Memory, after: Memory): iset<Slot> {
    iset s | s in before && s !in after
  }

  ghost predicate Balanced(log: seq<Event>, m: Memory) {
    forall s :: Balance(log, s) == Recall(m, s)
  }

  ghost function Messages(sent: seq<Diff>): seq<Event> {
    seq(|sent|, i requires 0 <= i < |sent| => Sent(sent[i]))
  }

  /** Messages on other slots leave a balance alone; a slot's own message adds its delta. */
  lemma {:induction false} BalanceOfMessages(log: seq<Event>, sent: seq<Diff>, s: Slot)
    requires forall i, j | 0 <= i < j < |sent| :: sent[i].slot != sent[j].slot
    ensures forall i | 0 <= i < |sent| && sent[i].slot == s ::
              Balance(log + Messages(sent), s) == Balance(log, s) + sent[i].delta
    ensures (forall i | 0 <= i < |sent| :: sent[i].slot != s) ==> Balance(log + Messages(sent), s) == Balance(log, s)
  {
    if sent == [] {
      assert log + Messages(sent) == log;
    } else {
      var before := sent[..|sent| - 1];
      var all := log + Messages(sent);
      assert all[..|all| - 1] == log + Messages(before);
      assert all[|all| - 1] == Sent(sent[|sent| - 1]);
      BalanceOfMessages(log, before, s);
      forall i | 0 <= i < |sent| && sent[i].slot == s
        ensures Balance(all, s) == Balance(log, s) + sent[i].delta
      {
        if i < |before| {
          assert before[i].slot == s;
        } else {
          assert forall j | 0 <= j < |before| :: before[j].slot != s;
        }
      }
    }
  }

  lemma {:induction false} LedgerAfterForgetting(log: seq<Event>, before: Memory, after: Memory)
    requires Balanced(log, before)
    requires forall s | s in after :: s in before && after[s] == before[s]
    ensures Balanced(log + [Forgot(Gone(before, after))], after)
  {
    var all := log + [Forgot(Gone(before, after))];
    assert all[..|all| - 1] == log;
  }

  lemma {:induction false} LedgerAfterReport(log: seq<Event>, m: Memory, demand: Count, dir: string,
                                             date: string, rx: map<string, int>, sent: seq<Diff>)
    requires Balanced(log, m) && Sends(m, demand, dir, date, rx, sent)
    ensures var after := AfterReport(m, demand, dir, date, rx);
            Balanced(log + [Forgot(Gone(m, after))] + Messages(sent), after)
  {
    hide Counts;
    var after := AfterReport(m, demand, dir, date, rx);
    var forgot := log + [Forgot(Gone(m, after))];
    assert forgot[..|forgot| - 1] == log;
    forall s
      ensures Balance(forgot + Messages(sent), s) == Recall(after, s)
    {
      BalanceOfMessages(forgot, sent, s);
      if i :| 0 <= i < |sent| && sent[i].slot == s {
        assert Balance(forgot + Messages(sent), s) == Balance(forgot, s) + sent[i].delta;
      }
    }
  }

  // ---------------------------------------------------------------- the steps on the maps

  method Rearm(prev: Count, last: Count, next: Count) returns (kept: Count, rearmed: set<Slot>)
    ensures MemoryOf(kept) == AfterRearm(MemoryOf(prev), last, next)
    ensures forall s :: s in rearmed <==> Rose(last, next, s)
  {
    hide Lookup, Get, Rose, TrimSuffix, Without, AfterRearm, Rearmed, MemoryOf;
    kept, rearmed := prev, {};
    WithoutNone(prev);
    RiseIsListed(last, next);
    var dirs := next.Keys;
    while dirs != {}
      invariant dirs <= next.Keys
      invariant forall s :: s in rearmed <==> Rose(last, next, s) && s.dir !in dirs
      invariant Without(prev, kept, rearmed)
      decreases |dirs|
    {
      var dir :| dir in dirs;
      var dates := next[dir].Keys;
      while dates != {}
        invariant dates <= next[dir].Keys
        invariant forall s :: s in rearmed <==>
                    && Rose(last, next, s)
                    && (s.dir !in dirs || (s.dir == dir && s.date !in dates))
        invariant Without(prev, kept, rearmed)
        decreases |dates|
      {
        var date :| date in dates;
        var times := next[dir][date].Keys;
        while times != {}
          invariant times <= next[dir][date].Keys
          invariant forall s :: s in rearmed <==>
                      && Rose(last, next, s)
                      && (s.dir !in dirs || (s.dir == dir
                          && (s.date !in dates || (s.date == date && s.time !in times))))
          invariant Without(prev, kept, rearmed)
          decreases |times|
        {
          var t :| t in times;
          times := times - {t};
          var slot := Slot(dir, date, t);
          RoseHere(last, next, slot);
          if next[dir][date][t] <= Get(last, slot) {
            continue;
          }
          var key := TrimSuffix(t, SECONDS);
          WithoutMore(prev, kept, rearmed, slot);
          kept := Delete(kept, slot.(time := key));
          rearmed := rearmed + {slot};
        }
        dates := dates - {date};
      }
      dirs := dirs - {dir};
    }
    WithoutAll(prev, kept, last, next, rearmed);
  }

  lemma RiseIsListed(last: Count, next: Count)
    ensures forall s | Rose(last, next, s) :: s.dir in next && s.date in next[s.dir] && s.time in next[s.dir][s.date]
  {
  }

  lemma RoseHere(last: Count, next: Count, s: Slot)
    requires s.dir in next && s.date in next[s.dir] && s.time in next[s.dir][s.date]
    ensures Rose(last, next, s) <==> next[s.dir][s.date][s.time] > Get(last, s)
  {
  }

  lemma WithoutNone(prev: Count)
    ensures Without(prev, prev, {})
  {
  }

  lemma WithoutMore(prev: Count, kept: Count, rearmed: set<Slot>, s: Slot)
    requires Without(prev, kept, rearmed)
    ensures Without(prev, Delete(kept, s.(time := TrimSuffix(s.time, SECONDS))), rearmed + {s})
  {
    hide Lookup, TrimSuffix;
  }

  lemma WithoutAll(prev: Count, kept: Count, last: Count, next: Count, rearmed: set<Slot>)
    requires Without(prev, kept, rearmed)
    requires forall s :: s in rearmed <==> Rose(last, next, s)
    ensures MemoryOf(kept) == AfterRearm(MemoryOf(prev), last, next)
  {
    hide Lookup, TrimSuffix, Rose;
    forall s
      ensures Rearmed(last, next, s) <==> exists r :: r in rearmed && r.(time := TrimSuffix(r.time, SECONDS)) == s
    {
      if t :| Rose(last, next, s.(time := t)) && TrimSuffix(t, SECONDS) == s.time {
        assert s.(time := t) in rearmed;
      }
      if r :| r in rearmed && r.(time := TrimSuffix(r.time, SECONDS)) == s {
        assert s.(time := r.time) == r;
      }
    }
  }

  /** kept is prev without the seat slots the re-armed demand slots stand for. */
  ghost predicate Without(prev: Count, kept: Count, rearmed: set<Slot>) {
    forall s :: Lookup(kept, s) ==
                if exists r :: r in rearmed && r.(time := TrimSuffix(r.time, SECONDS)) == s
                then None else Lookup(prev, s)
  }

  function Delete(c: Count, s: Slot): (r: Count)
    ensures forall x :: Lookup(r, x) == if x == s then None else Lookup(c, x)
  {
    if Lookup(c, s).Some? then c[s.dir := c[s.dir][s.date := c[s.dir][s.date] - {s.time}]] else c
  }

  /** The reported times in demand. */
  method Filter(filterCheck: map<string, int>, rx: map<string, int>) returns (filtered: map<string, int>)
    ensures forall t :: t in filtered <==> t in rx && t + SECONDS in filterCheck && filterCheck[t + SECONDS] != 0
    ensures forall t | t in filtered :: filtered[t] == rx[t]
  {
    filtered := map[];
    var times := rx.Keys;
    while times != {}
      invariant times <= rx.Keys
      invariant forall t :: t in filtered <==>
                  t in rx && t !in times && t + SECONDS in filterCheck && filterCheck[t + SECONDS] != 0
      invariant forall t | t in filtered :: filtered[t] == rx[t]
      decreases |times|
    {
      var t :| t in times;
      times := times - {t};
      var key := t + SECONDS;
      if key in filterCheck && filterCheck[key] != 0 {
        filtered := filtered[t := rx[t]];
      }
    }
  }

  /** Go reads a missing inner map as an empty one; here it is put in. */
  function WithChannel(c: Count, dir: string, date: string): (r: Count)
    ensures dir in r && date in r[dir]
    ensures forall s :: Lookup(r, s) == Lookup(c, s)
  {
    var withDir := if dir in c then c else c[dir := map[]];
    if date in withDir[dir] then withDir else withDir[dir := withDir[dir][date := map[]]]
  }

  /** Compare one channel's new counts with the remembered ones, and remember them instead. */
  method DiffAgainst(dir: string, date: string, prevState: Count, newState: map<string, int>)
    returns (kept: Count, diffs: seq<Diff>)
    ensures forall s :: Lookup(kept, s) ==
                if s.dir == dir && s.date == date
                then (if s.time in newState then Some(newState[s.time]) else None)
                else Lookup(prevState, s)
    ensures Changes(dir, date, prevState, newState, {}, diffs)
  {
    hide Changes;
    kept := WithChannel(prevState, dir, date);
    NothingChangedYet(dir, date, prevState, newState);
    var prev := kept[dir][date];
    diffs := [];
    var times := newState.Keys;
    while times != {}
      invariant times <= newState.Keys
      invariant Changes(dir, date, prevState, newState, times, diffs)
      decreases |times|
    {
      var time :| time in times;
      ChangesMore(dir, date, prevState, newState, times, diffs, time);
      times := times - {time};
      var count := newState[time];
      var pCount := if time in prev then prev[time] else 0;
      assert pCount == Get(kept, Slot(dir, date, time));
      if pCount != count {
        diffs := diffs + [Diff(Slot(dir, date, time), count, pCount, count - pCount)];
      }
    }
    kept := kept[dir := kept[dir][date := newState]];
  }

  /** One diff for each changed time outside `left`. */
  ghost predicate Changes(dir: string, date: string, prevState: Count, newState: map<string, int>,
                          left: set<string>, diffs: seq<Diff>) {
    && (forall i | 0 <= i < |diffs| ::
          && diffs[i].slot.dir == dir && diffs[i].slot.date == date
          && diffs[i].slot.time in newState && diffs[i].slot.time !in left
          && diffs[i].count == newState[diffs[i].slot.time] != diffs[i].prev
          && diffs[i].prev == Get(prevState, diffs[i].slot)
          && diffs[i].delta == diffs[i].count - diffs[i].prev)
    && (forall i, j | 0 <= i < j < |diffs| :: diffs[i].slot != diffs[j].slot)
    && (forall t | t in newState && t !in left && newState[t] != Get(prevState, Slot(dir, date, t)) ::
          exists i :: 0 <= i < |diffs| && diffs[i].slot.time == t)
  }

  lemma NothingChangedYet(dir: string, date: string, prevState: Count, newState: map<string, int>)
    ensures Changes(dir, date, prevState, newState, newState.Keys, [])
  {
  }

  lemma ChangesMore(dir: string, date: string, prevState: Count, newState: map<string, int>, left: set<string>,
                    diffs: seq<Diff>, t: string)
    requires Changes(dir, date, prevState, newState, left, diffs) && t in left && t in newState
    ensures var prev := Get(prevState, Slot(dir, date, t));
            Changes(dir, date, prevState, newState, left - {t},
                    if prev == newState[t] then diffs
                    else diffs + [Diff(Slot(dir, date, t), newState[t], prev, newState[t] - prev)])
  {
    hide Get;
    var prev := Get(prevState, Slot(dir, date, t));
    if prev != newState[t] {
      var more := diffs + [Diff(Slot(dir, date, t), newState[t], prev, newState[t] - prev)];
      forall u | u in newState && u !in left - {t} && newState[u] != Get(prevState, Slot(dir, date, u))
        ensures exists i :: 0 <= i < |more| && more[i].slot.time == u
      {
        if u == t {
          assert more[|diffs|].slot.time == u;
        } else {
          var i :| 0 <= i < |diffs| && diffs[i].slot.time == u;
          assert more[i].slot.time == u;
        }
      }
    }
  }

  ghost predicate IsFiltered(demand: Count, dir: string, date: string,
                             rx: map<string, int>, filtered: map<string, int>)
  {
    && (forall t :: t in filtered <==> Counts(demand, dir, date, rx, Slot(dir, date, t)))
    && (forall t | t in filtered :: t in rx && filtered[t] == rx[t])
  }

  /** Remembering the filtered counts instead is what a report does to the memory. */
  lemma MemoryAfterReport(demand: Count, dir: string, date: string, rx: map<string, int>, filtered: map<string, int>,
                          before: Count, after: Count)
    requires IsFiltered(demand, dir, date, rx, filtered)
    requires forall s :: Lookup(after, s) ==
                if s.dir == dir && s.date == date
                then (if s.time in filtered then Some(filtered[s.time]) else None)
                else Lookup(before, s)
    ensures MemoryOf(after) == AfterReport(MemoryOf(before), demand, dir, date, rx)
  {
    hide Lookup, DemandOf;
    var want := AfterReport(MemoryOf(before), demand, dir, date, rx);
    forall s
      ensures s in MemoryOf(after) <==> s in want
      ensures s in want ==> MemoryOf(after)[s] == want[s]
    {
      if s.dir == dir && s.date == date {
        assert s == Slot(dir, date, s.time);
      }
    }
  }

  /** Comparing them sends what a report is to send. */
  lemma ChangesAreSent(demand: Count, dir: string, date: string, rx: map<string, int>, filtered: map<string, int>,
                       before: Count, diffs: seq<Diff>)
    requires IsFiltered(demand, dir, date, rx, filtered)
    requires Changes(dir, date, before, filtered, {}, diffs)
    ensures Sends(MemoryOf(before), demand, dir, date, rx, diffs)
  {
    hide Counts, MemoryOf, Get, Recall;
    forall s
      ensures Get(before, s) == Recall(MemoryOf(before), s)
      ensures Counts(demand, dir, date, rx, s) ==> s == Slot(dir, date, s.time)
    {
      GetIsRecall(before, s);
      CountsOnChannel(demand, dir, date, rx, s);
    }
    forall s | Counts(demand, dir, date, rx, s) && filtered[s.time] != Recall(MemoryOf(before), s)
      ensures exists i :: 0 <= i < |diffs| && diffs[i].slot == s
    {
      var i :| 0 <= i < |diffs| && diffs[i].slot.time == s.time;
      assert diffs[i].slot == s;
    }
  }

  lemma GetIsRecall(c: Count, s: Slot)
    ensures Get(c, s) == Recall(MemoryOf(c), s)
  {
  }

  lemma CountsOnChannel(demand: Count, dir: string, date: string, rx: map<string, int>, s: Slot)
    ensures Counts(demand, dir, date, rx, s) ==> s == Slot(dir, date, s.time)
  {
  }

  /** Reading the demand through one channel's inner map is reading the demand. */
  lemma FilteredIsDemanded(relevant: Count, demand: Count, dir: string, date: string, rx: map<string, int>)
    requires dir in relevant && date in relevant[dir] && forall s :: Lookup(relevant, s) == Lookup(demand, s)
    ensures forall t :: Counts(demand, dir, date, rx, Slot(dir, date, t)) <==>
                && t in rx && t + SECONDS in relevant[dir][date] && relevant[dir][date][t + SECONDS] != 0
  {
    forall t
      ensures DemandOf(demand, Slot(dir, date, t)) == Get(relevant, Slot(dir, date, t + SECONDS))
    {
    }
  }

  class Differ {
    var prev: Count
    /** The demand the subscription works with; it gains empty maps as reports come in. */
    var relevant: Count
    /** The demand as it was received. */
    var last: Count
    ghost var log: seq<Event>

    ghost function Memory(): Memory
      reads this
    {
      MemoryOf(prev)
    }

    /** Every slot's deltas since it was last forgotten add up to what is remembered of it. */
    ghost predicate Valid()
      reads this
    {
      && (forall s :: Lookup(relevant, s) == Lookup(last, s))
      && Balanced(log, Memory())
    }

    constructor (count: Count)
      ensures Valid() && Memory() == imap[] && last == count && log == []
    {
      prev, relevant, last, log := map[], count, count, [];
    }

    /** A new demand arrives: forget the slots it rises on. */
    method NewCount(count: Count) returns (rearmed: set<Slot>)
      requires Valid()
      modifies this
      ensures Valid()
      ensures Memory() == AfterRearm(old(Memory()), old(last), count)
      ensures last == count
      ensures forall s :: s in rearmed <==> Rose(old(last), count, s)
      ensures log == old(log) + [Forgot(Gone(old(Memory()), Memory()))]
    {
      ghost var m := Memory();
      prev, rearmed := Rearm(prev, last, count);
      relevant, last := count, count;
      LedgerAfterForgetting(log, m, Memory());
      log := log + [Forgot(Gone(m, Memory()))];
    }

    /** A seat report arrives on the channel of one direction and date. */
    method Report(dir: string, date: string, rx: map<string, int>) returns (sent: seq<Diff>)
      requires Valid()
      modifies this
      ensures Valid()
      ensures Sends(old(Memory()), last, dir, date, rx, sent)
      ensures Memory() == AfterReport(old(Memory()), last, dir, date, rx)
      ensures last == old(last)
      ensures log == old(log) + [Forgot(Gone(old(Memory()), Memory()))] + Messages(sent)
    {
      hide Sends, Changes, AfterReport, MemoryOf, Counts, Balanced;
      ghost var m := Memory();
      ghost var before := prev;
      relevant := WithChannel(relevant, dir, date);
      var filtered := Filter(relevant[dir][date], rx);
      FilteredIsDemanded(relevant, last, dir, date, rx);
      prev, sent := DiffAgainst(dir, date, prev, filtered);
      MemoryAfterReport(last, dir, date, rx, filtered, before, prev);
      ChangesAreSent(last, dir, date, rx, filtered, before, sent);
      LedgerAfterReport(log, m, last, dir, date, rx, sent);
      log := log + [Forgot(Gone(m, Memory()))] + Messages(sent);
    }
  }

  // ---------------------------------------------------------------- re-arming over a run

  /**
   A seat slot is re-armed when the demand for it rose, or, where its own time does not end in ":00",
   when the demand filed under the very same time did.
   */
  lemma {:induction false} RearmedWhen(last: Count, next: Count, s: Slot)
    ensures Rearmed(last, next, s) <==>
              || Rose(last, next, s.(time := s.time + SECONDS))
              || (!EndsWith(s.time, SECONDS) && Rose(last, next, s))
  {
    assert TrimSuffix(s.time + SECONDS, SECONDS) == s.time;
    if t :| Rose(last, next, s.(time := t)) && TrimSuffix(t, SECONDS) == s.time {
      if EndsWith(t, SECONDS) {
        assert t == s.time + SECONDS;
      } else {
        assert s.(time := t) == s;
      }
    }
    if !EndsWith(s.time, SECONDS) && Rose(last, next, s) {
      assert s.(time := s.time) == s;
    }
  }

  /** With demand on whole minutes, what is forgotten is exactly where demand rose. */
  lemma {:induction false} WholeMinutesForgetTheRisen(m: Memory, last: Count, next: Count, s: Slot)
    requires forall x | Lookup(next, x).Some? :: EndsWith(x.time, SECONDS)
    requires s in m
    ensures s !in AfterRearm(m, last, next) <==> Rose(last, next, s.(time := s.time + SECONDS))
    ensures s in AfterRearm(m, last, next) ==> AfterRearm(m, last, next)[s] == m[s]
  {
    RearmedWhen(last, next, s);
  }

  datatype Step = NewDemand(next: Count) | SeatReport(dir: string, date: string, rx: map<string, int>)

  datatype State = State(memory: Memory, demand: Count)

  ghost function After(st: State, step: Step): State {
    match step
    case NewDemand(next) => State(AfterRearm(st.memory, st.demand, next), next)
    case SeatReport(dir, date, rx) => st.(memory := AfterReport(st.memory, st.demand, dir, date, rx))
  }

  ghost function Run(st: State, steps: seq<Step>): State
    decreases |steps|
  {
    if steps == [] then st else Run(After(st, steps[0]), steps[1..])
  }

  /** No report of this run shows the slot in demand with a seat count other than 0. */
  ghost predicate Unseen(st: State, steps: seq<Step>, s: Slot)
    decreases |steps|
  {
    steps == [] ||
    (!Shows(st, steps[0], s) && Unseen(After(st, steps[0]), steps[1..], s))
  }

  ghost predicate Shows(st: State, step: Step, s: Slot) {
    step.SeatReport? && Counts(st.demand, step.dir, step.date, step.rx, s) && step.rx[s.time] != 0
  }

  /** Until such a report nothing is remembered of it but at most a 0. */
  lemma {:induction false} NothingUntilShown(st: State, steps: seq<Step>, s: Slot)
    requires Recall(st.memory, s) == 0 && Unseen(st, steps, s)
    ensures Recall(Run(st, steps).memory, s) == 0
    decreases |steps|
  {
    if steps != [] {
      assert Recall(After(st, steps[0]).memory, s) == 0;
      NothingUntilShown(After(st, steps[0]), steps[1..], s);
    }
  }

  /**
   Demand rises on a slot. However long it then goes without seats, missing from reports or shown with 0, and
   whatever else is reported and demanded: the first report to show it with seats while it is in demand is
   sent as a rise from nothing by all its seats.
   */
  lemma {:induction false} RisenSlotStartsOver(st: State, next: Count, s: Slot, steps: seq<Step>,
                                               rx: map<string, int>, sent: seq<Diff>)
    requires Rose(st.demand, next, s.(time := s.time + SECONDS))
    requires Unseen(After(st, NewDemand(next)), steps, s)
    requires s.time in rx && rx[s.time] != 0
    requires DemandOf(Run(After(st, NewDemand(next)), steps).demand, s) != 0
    requires var end := Run(After(st, NewDemand(next)), steps);
             Sends(end.memory, end.demand, s.dir, s.date, rx, sent)
    ensures Diff(s, rx[s.time], 0, rx[s.time]) in sent
  {
    RearmedWhen(st.demand, next, s);
    NothingUntilShown(After(st, NewDemand(next)), steps, s);
    var end := Run(After(st, NewDemand(next)), steps);
    assert Counts(end.demand, s.dir, s.date, rx, s);
    var i :| 0 <= i < |sent| && sent[i].slot == s;
    assert sent[i] == Diff(s, rx[s.time], 0, rx[s.time]);
  }
}
