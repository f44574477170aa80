/**
 One prober job: it polls KTMB Reserve for a slot until it has enough holds, hands each hold to the
 buyers' queue, and cancels or durably records every hold it cannot hand over.

 KTMB's replies and every other outcome a poll depends on come from a script with one turn per
 request. A script may end anywhere: that is the deadline, the maintenance wait or the context
 stopping the loop, all of which return before a request is made.
 */
module Prober {
  import opened Wrappers
  import opened Text

  datatype Config = Config(
    dryRun: bool,
    errorLimit: int,
    releaseDrainLimit: int,
    sessionPatterns: seq<string>,
    staleDataPatterns: seq<string>,
    rateLimitPatterns: seq<string>,
    soldOutPatterns: seq<string>,
    releaseTerminalPatterns: seq<string>)

  /** A hold as it is passed on: whose session made it, KTMB's handle on it, and the slot. */
  datatype Hold = Hold(userData: string, bookingData: string, slot: string)

  datatype Reply =
    | Answer(ok: bool, bookingData: string, messages: seq<string>)
    | HttpError(status: int, body: string)
    | NetworkError

  datatype Turn = Turn(
    reply: Reply,
    refreshes: bool,          // re-enrichment returns complete data
    sleeps: bool,             // the pause ends before the context does
    encrypts: bool,
    enqueues: bool,
    cancel: Reply,
    encryptsRelease: bool,
    persists: bool,
    signals: bool)            // a dead-session signal is stored

  datatype Tally = Tally(
    polls: nat, holds: nat, soldOut: nat, stale: nat, errors: nat,
    rateLimited: nat, sessionDead: nat, skipped: nat, releaseFailed: nat)

  // ---------------------------------------------------------------- reading a reply

  datatype Class = Granted | Blank | Dead | Stale | RateLimited | SoldOut | Unclassified

  predicate SessionRejected(reply: Reply, c: Config) {
    match reply
    case Answer(ok, _, messages) => !ok && Matches(messages, c.sessionPatterns)
    case HttpError(status, body) => status == 401 || status == 403 || Matches([body], c.sessionPatterns)
    case NetworkError => false
  }

  function Messages(reply: Reply): seq<string> {
    match reply
    case Answer(_, _, messages) => messages
    case HttpError(_, body) => [body]
    case NetworkError => []
  }

  function Classify(reply: Reply, c: Config): (class_: Class)
    ensures class_.Granted? || class_.Blank? <==> reply.Answer? && reply.ok
    ensures class_.Granted? ==> reply.bookingData != ""
    ensures class_.Dead? <==> SessionRejected(reply, c)
  {
    if reply.NetworkError? then Unclassified
    else if reply.Answer? && reply.ok then (if reply.bookingData == "" then Blank else Granted)
    else if SessionRejected(reply, c) then Dead
    else if Matches(Messages(reply), c.staleDataPatterns) then Stale
    else if (reply.HttpError? && reply.status == 429) || Matches(Messages(reply), c.rateLimitPatterns) then RateLimited
    else if Matches(Messages(reply), c.soldOutPatterns) then SoldOut
    else Unclassified
  }

  // ---------------------------------------------------------------- what a reply says

  /** KTMB's answer or error body matches one of the patterns. */
  ghost predicate Says(reply: Reply, patterns: seq<string>) {
    || (reply.Answer? && Matches(reply.messages, patterns))
    || (reply.HttpError? && Matches([reply.body], patterns))
  }

  /** KTMB answered, and did not accept. */
  ghost predicate Refuses(reply: Reply) {
    reply.HttpError? || (reply.Answer? && !reply.ok)
  }

  ghost predicate IsDead(reply: Reply, c: Config) {
    && Refuses(reply)
    && (Says(reply, c.sessionPatterns) || (reply.HttpError? && (reply.status == 401 || reply.status == 403)))
  }

  ghost predicate IsStale(reply: Reply, c: Config) {
    Refuses(reply) && !IsDead(reply, c) && Says(reply, c.staleDataPatterns)
  }

  ghost predicate IsRateLimited(reply: Reply, c: Config) {
    && Refuses(reply) && !IsDead(reply, c) && !IsStale(reply, c)
    && (Says(reply, c.rateLimitPatterns) || (reply.HttpError? && reply.status == 429))
  }

  ghost predicate IsSoldOut(reply: Reply, c: Config) {
    && Refuses(reply) && !IsDead(reply, c) && !IsStale(reply, c) && !IsRateLimited(reply, c)
    && Says(reply, c.soldOutPatterns)
  }

  ghost predicate IsUnclassified(reply: Reply, c: Config) {
    || reply.NetworkError?
    || (Refuses(reply) && !IsDead(reply, c) && !IsStale(reply, c) && !IsRateLimited(reply, c) && !IsSoldOut(reply, c))
  }

  /**
   Each reading by what the reply itself says: a dead session before stale data, that before a limit, that before
   sold out.
   */
  lemma {:induction false} ClassifyMeans(reply: Reply, c: Config)
    ensures Classify(reply, c).Granted? <==> reply.Answer? && reply.ok && reply.bookingData != ""
    ensures Classify(reply, c).Blank? <==> reply.Answer? && reply.ok && reply.bookingData == ""
    ensures Classify(reply, c).Dead? <==> IsDead(reply, c)
    ensures Classify(reply, c).Stale? <==> IsStale(reply, c)
    ensures Classify(reply, c).RateLimited? <==> IsRateLimited(reply, c)
    ensures Classify(reply, c).SoldOut? <==> IsSoldOut(reply, c)
    ensures Classify(reply, c).Unclassified? <==> IsUnclassified(reply, c)
    ensures SessionRejected(reply, c) <==> IsDead(reply, c)
  {
    hide Matches;
  }

  /** How many of the turns brought such a reply. */
  ghost function Count(script: seq<Turn>, p: Turn -> bool): nat {
    if script == [] then 0 else Count(script[..|script| - 1], p) + if p(script[|script| - 1]) then 1 else 0
  }

  function ErrorLimit(c: Config): (limit: nat)
    ensures limit > 0
    ensures c.errorLimit > 0 ==> limit == c.errorLimit
    ensures c.errorLimit <= 0 ==> limit == 5
  {
    if c.errorLimit <= 0 then 5 else c.errorLimit
  }

  // ---------------------------------------------------------------- where the holds are

  /** Where the holds of one slot run ended up, in the order KTMB granted them. */
  datatype Ledger = Ledger(delivered: seq<Hold>, cancelled: seq<Hold>, pending: seq<Hold>, lost: seq<Hold>)

  const EMPTY := Ledger([], [], [], [])

  function Everything(l: Ledger): seq<Hold> {
    l.delivered + l.cancelled + l.pending + l.lost
  }

  /** The holds KTMB accepted over these turns; a hold exists as soon as it does, even without bookingData. */
  function Accepted(script: seq<Turn>, userData: string, slot: string): seq<Hold> {
    if script == [] then []
    else
      var before := Accepted(script[..|script| - 1], userData, slot);
      var reply := script[|script| - 1].reply;
      if reply.Answer? && reply.ok then before + [Hold(userData, reply.bookingData, slot)] else before
  }

  /** The last of these turns was an acceptance without bookingData. */
  predicate EndsBlank(script: seq<Turn>) {
    script != [] &&
    var reply := script[|script| - 1].reply;
    reply.Answer? && reply.ok && reply.bookingData == ""
  }

  datatype Place = Delivered | Cancelled | Pending | Lost

  predicate CancelConfirmed(t: Turn) {
    t.cancel.Answer? && t.cancel.ok
  }

  /** Where a hold goes that is to be released. */
  function Released(t: Turn): Place {
    if CancelConfirmed(t) then Cancelled
    else if t.encryptsRelease && t.persists then Pending
    else Lost
  }

  /** Where an accepted hold goes: a dry run releases it, a live run delivers it if it can. */
  function Fate(t: Turn, c: Config): Place {
    if !c.dryRun && t.encrypts && t.enqueues then Delivered else Released(t)
  }

  function Placed(hold: Hold, place: Place): Ledger {
    match place
    case Delivered => Ledger([hold], [], [], [])
    case Cancelled => Ledger([], [hold], [], [])
    case Pending => Ledger([], [], [hold], [])
    case Lost => Ledger([], [], [], [hold])
  }

  /** Where the holds of these turns went, each by what its own turn brought. */
  function Fates(script: seq<Turn>, c: Config, userData: string, slot: string): Ledger {
    if script == [] then EMPTY
    else
      var before := Fates(script[..|script| - 1], c, userData, slot);
      var t := script[|script| - 1];
      if t.reply.Answer? && t.reply.ok && t.reply.bookingData != ""
      then Join(before, Placed(Hold(userData, t.reply.bookingData, slot), Fate(t, c)))
      else before
  }

  datatype Entry = Sealed(hold: Hold) | Garbage

  function SealAll(holds: seq<Hold>): (entries: seq<Entry>)
    ensures |entries| == |holds| && forall i | 0 <= i < |holds| :: entries[i] == Sealed(holds[i])
  {
    seq(|holds|, i requires 0 <= i < |holds| => Sealed(holds[i]))
  }

  /** The ledger a run may have while it still goes on: nothing has failed yet. */
  ghost predicate Running(l: Ledger, c: Config) {
    && l.pending == [] && l.lost == []
    && (if c.dryRun then l.delivered == [] else l.cancelled == [])
  }

  /** At most one hold fails: in a live run to be delivered, in a dry run to be released. */
  ghost predicate AtMostOneFails(l: Ledger, c: Config) {
    if c.dryRun then l.delivered == [] && |l.pending| + |l.lost| <= 1
    else |l.cancelled| + |l.pending| + |l.lost| <= 1
  }

  function Sum(t: Tally): nat {
    t.holds + t.soldOut + t.stale + t.rateLimited + t.sessionDead + t.errors
  }

  /** What every tally of a slot run satisfies. */
  ghost predicate Balanced(t: Tally, needed: nat, limit: nat) {
    && t.polls <= Sum(t) <= t.polls + 1
    && t.holds <= needed && t.stale <= 2 && t.sessionDead <= 1 && t.releaseFailed <= 1
    && t.errors <= Budget(t.holds, limit)
  }

  /** Errors one run can count: fewer than the limit between two holds, the limit after the last. */
  function Budget(holds: nat, limit: nat): int {
    if holds == 0 then limit else Budget(holds - 1, limit) + limit - 1
  }

  lemma {:induction false} BudgetInClosedForm(holds: nat, limit: nat)
    ensures Budget(holds, limit) == holds * (limit - 1) + limit
  {
    if holds > 0 {
      BudgetInClosedForm(holds - 1, limit);
    }
  }

  /** The tally after one more poll that was read as `class`. */
  function Polled(t: Tally, class_: Class): Tally {
    var p := t.(polls := t.polls + 1);
    match class_
    case Granted => p.(holds := p.holds + 1)
    case Dead => p.(sessionDead := p.sessionDead + 1)
    case Stale => p.(stale := p.stale + 1)
    case RateLimited => p.(rateLimited := p.rateLimited + 1)
    case SoldOut => p.(soldOut := p.soldOut + 1)
    case Blank | Unclassified => p.(errors := p.errors + 1)
  }

  /** How many of these turns were read as `class_`. */
  function Reads(script: seq<Turn>, c: Config, class_: Class): nat {
    if script == [] then 0
    else Reads(script[..|script| - 1], c, class_) + if Classify(script[|script| - 1].reply, c) == class_ then 1 else 0
  }

  /** The readings counted are the replies that said so. */
  lemma {:induction false} ReadsAreReplies(script: seq<Turn>, c: Config)
    ensures Reads(script, c, Granted) ==
            Count(script, (t: Turn) => t.reply.Answer? && t.reply.ok && t.reply.bookingData != "")
    ensures Reads(script, c, Dead) == Count(script, (t: Turn) => IsDead(t.reply, c))
    ensures Reads(script, c, Stale) == Count(script, (t: Turn) => IsStale(t.reply, c))
    ensures Reads(script, c, RateLimited) == Count(script, (t: Turn) => IsRateLimited(t.reply, c))
    ensures Reads(script, c, SoldOut) == Count(script, (t: Turn) => IsSoldOut(t.reply, c))
  {
    if script != [] {
      ReadsAreReplies(script[..|script| - 1], c);
      ClassifyMeans(script[|script| - 1].reply, c);
      hide Classify, IsDead, IsStale, IsRateLimited, IsSoldOut, IsUnclassified, SessionRejected;
    }
  }

  /** Each poll is counted for what it was; all but the two kinds of error have a count of their own. */
  ghost predicate Counted(t: Tally, script: seq<Turn>, c: Config) {
    && t.holds == Reads(script, c, Granted)
    && t.soldOut == Reads(script, c, SoldOut)
    && t.stale == Reads(script, c, Stale)
    && t.rateLimited == Reads(script, c, RateLimited)
    && t.sessionDead == Reads(script, c, Dead)
  }

  lemma PolledOnce(t: Tally, class_: Class)
    ensures Sum(Polled(t, class_)) == Sum(t) + 1
    ensures forall failed :: Sum(Erred(Polled(t, class_), failed)) == Sum(t) + 2
    ensures var p := Polled(t, class_);
            && p.polls == t.polls + 1 && p.skipped == t.skipped && p.releaseFailed == t.releaseFailed
            && p.holds == t.holds + (if class_.Granted? then 1 else 0)
            && p.stale == t.stale + (if class_.Stale? then 1 else 0)
            && p.sessionDead == t.sessionDead + (if class_.Dead? then 1 else 0)
  {
  }

  lemma CountedMovesOn(t: Tally, script: seq<Turn>, i: nat, c: Config)
    requires i < |script| && Counted(t, script[..i], c)
    ensures Counted(Polled(t, Classify(script[i].reply, c)), script[..i + 1], c)
    ensures t.holds == Reads(script[..i], c, Granted)
    ensures Reads(script[..i + 1], c, Stale) == t.stale + if Classify(script[i].reply, c).Stale? then 1 else 0
  {
    hide Classify;
    assert script[..i + 1][..i] == script[..i];
  }

  /** The unclassified replies since the last hold. */
  function ErrorsSinceHold(script: seq<Turn>, c: Config): nat {
    if script == [] then 0
    else
      var before := ErrorsSinceHold(script[..|script| - 1], c);
      match Classify(script[|script| - 1].reply, c)
      case Granted => 0
      case Unclassified => before + 1
      case _ => before
  }

  /** The last of these turns ends the run, however many holds are still needed. */
  predicate Ends(script: seq<Turn>, c: Config) {
    script != [] &&
    var t := script[|script| - 1];
    match Classify(t.reply, c)
    case Dead | Blank => true
    case Granted => Fate(t, c) != if c.dryRun then Cancelled else Delivered
    case Unclassified => !t.sleeps || ErrorsSinceHold(script, c) >= ErrorLimit(c)
    case Stale => !t.refreshes || Reads(script, c, Stale) >= 2
    case SoldOut => !t.sleeps
    case RateLimited => false
  }

  /** ... with an error counted beside the reply itself: data still stale, or a hold that failed. */
  predicate EndsWithError(script: seq<Turn>, c: Config) {
    Ends(script, c) &&
    var class_ := Classify(script[|script| - 1].reply, c);
    class_.Stale? || class_.Granted?
  }

  /** None of the first n - 1 turns ended the run or completed it. */
  ghost predicate Unfinished(script: seq<Turn>, n: nat, c: Config, needed: nat)
    requires n <= |script|
  {
    forall k | 0 <= k < n :: !Ends(script[..k], c) && Reads(script[..k], c, Granted) < needed
  }

  lemma UnfinishedMovesOn(script: seq<Turn>, n: nat, c: Config, needed: nat)
    requires n < |script| && Unfinished(script, n, c, needed)
    requires !Ends(script[..n], c) && Reads(script[..n], c, Granted) < needed
    ensures Unfinished(script, n + 1, c, needed)
  {
    hide Ends, Reads;
  }

  /** How turn i bears on the end of the run. */
  lemma EndsWhen(script: seq<Turn>, i: nat, c: Config)
    requires i < |script|
    ensures var t, upTo := script[i], script[..i + 1];
            var reading := Classify(t.reply, c);
            && ErrorsSinceHold(upTo, c) ==
               (if reading.Granted? then 0
                else ErrorsSinceHold(script[..i], c) + if reading.Unclassified? then 1 else 0)
            && (Ends(upTo, c) <==>
                  || reading.Dead? || reading.Blank?
                  || (reading.Granted? && Fate(t, c) != if c.dryRun then Cancelled else Delivered)
                  || (reading.Unclassified? && (!t.sleeps || ErrorsSinceHold(upTo, c) >= ErrorLimit(c)))
                  || (reading.Stale? && (!t.refreshes || Reads(upTo, c, Stale) >= 2))
                  || (reading.SoldOut? && !t.sleeps))
            && (EndsWithError(upTo, c) <==> Ends(upTo, c) && (reading.Stale? || reading.Granted?))
  {
    hide Classify, Fate, Reads, ErrorLimit;
    assert script[..i + 1][..i] == script[..i];
  }

  function Erred(t: Tally, releaseFailed: nat): Tally {
    t.(errors := t.errors + 1, releaseFailed := t.releaseFailed + releaseFailed)
  }

  /** What the tally satisfies while the run goes on. */
  ghost predicate Ongoing(t: Tally, needed: nat, limit: nat, refreshed: bool, errorsSeen: nat) {
    && Sum(t) == t.polls && t.holds <= needed && errorsSeen < limit
    && t.errors <= Budget(t.holds, limit) - limit + errorsSeen
    && t.stale == (if refreshed then 1 else 0)
    && t.sessionDead == 0 && t.releaseFailed == 0
  }

  lemma OngoingIsBalanced(t: Tally, needed: nat, limit: nat, refreshed: bool, errorsSeen: nat)
    requires Ongoing(t, needed, limit, refreshed, errorsSeen)
    ensures Balanced(t, needed, limit)
  {
  }

  /** How each reading of a poll may leave the tally: stopped and balanced, or ongoing. */
  lemma PollMovesOn(t: Tally, needed: nat, limit: nat, refreshed: bool, errorsSeen: nat, c: Class)
    requires Ongoing(t, needed, limit, refreshed, errorsSeen) && t.holds < needed
    ensures Balanced(Polled(t, c), needed, limit)
    ensures c.Stale? ==> Balanced(Erred(Polled(t, c), 0), needed, limit)
    ensures c.Granted? ==>
              && Balanced(Erred(Polled(t, c), 0), needed, limit)
              && Balanced(Erred(Polled(t, c), 1), needed, limit)
    ensures c.Stale? && !refreshed ==> Ongoing(Polled(t, c), needed, limit, true, errorsSeen)
    ensures c.RateLimited? || c.SoldOut? ==> Ongoing(Polled(t, c), needed, limit, refreshed, errorsSeen)
    ensures c.Unclassified? && errorsSeen + 1 < limit ==>
            Ongoing(Polled(t, c), needed, limit, refreshed, errorsSeen + 1)
    ensures c.Granted? ==> Ongoing(Polled(t, c), needed, limit, refreshed, 0)
  {
  }

  function Join(a: Ledger, b: Ledger): Ledger {
    Ledger(a.delivered + b.delivered, a.cancelled + b.cancelled, a.pending + b.pending, a.lost + b.lost)
  }

  /** Adding where one more hold went: it comes last, and if it did not fail the run goes on. */
  lemma JoinAppends(a: Ledger, b: Ledger, c: Config)
    requires Running(a, c) && |Everything(b)| == 1 && (c.dryRun ==> b.delivered == [])
    ensures Everything(Join(a, b)) == Everything(a) + Everything(b)
    ensures AtMostOneFails(Join(a, b), c) && Join(a, b).pending == b.pending && Join(a, b).lost == b.lost
    ensures Join(a, b).delivered == a.delivered + b.delivered
    ensures (if c.dryRun then b.cancelled != [] else b.delivered != []) ==> Running(Join(a, b), c)
  {
    JoinKeepsOrder(a, b, c);
    hide Everything;
    OnePlace(b);
    assert a.pending + b.pending == b.pending && a.lost + b.lost == b.lost;
    if c.dryRun {
      assert a.delivered + b.delivered == [];
    } else {
      assert a.cancelled + b.cancelled == b.cancelled;
    }
  }

  /** The ledger after one more hold, which `ok` and `failed` tell the fate of. */
  lemma HoldMovesOn(a: Ledger, b: Ledger, c: Config, hold: Hold, ok: bool, failed: bool)
    requires Running(a, c) && Everything(b) == [hold] && (c.dryRun ==> b.delivered == [])
    requires ok <==> if c.dryRun then b.cancelled == [hold] else b.delivered == [hold]
    requires failed <==> b.pending != [] || b.lost != []
    ensures var l := Join(a, b);
            && Everything(l) == Everything(a) + [hold]
            && AtMostOneFails(l, c) && |l.pending| + |l.lost| == (if failed then 1 else 0)
            && l.delivered == a.delivered + b.delivered && l.pending == b.pending
            && (ok ==> !failed && b.pending == [] && Running(l, c))
  {
    OneHoldIsSomewhere(b, hold);
    JoinAppends(a, b, c);
    hide Everything, Running, AtMostOneFails, Join;
  }

  lemma OnePlace(b: Ledger)
    requires |Everything(b)| == 1
    ensures |b.delivered| + |b.cancelled| + |b.pending| + |b.lost| == 1
  {
  }

  lemma JoinKeepsOrder(a: Ledger, b: Ledger, c: Config)
    requires Running(a, c) && (c.dryRun ==> b.delivered == [])
    requires |b.delivered| + |b.cancelled| + |b.pending| + |b.lost| == 1 || |Everything(b)| == 1
    ensures Everything(Join(a, b)) == Everything(a) + Everything(b)
  {
    if c.dryRun {
      assert Everything(a) == a.cancelled;
    } else {
      assert Everything(a) == a.delivered;
    }
  }

  lemma NothingYet(c: Config, userData: string, slot: string, t: Tally, needed: nat, limit: nat)
    requires t.polls == t.holds == t.soldOut == t.stale == t.errors == 0 && limit > 0
    requires t.rateLimited == t.sessionDead == t.releaseFailed == 0
    ensures Running(EMPTY, c) && Everything(EMPTY) == [] && Accepted([], userData, slot) == [] && !EndsBlank([])
    ensures Ongoing(t, needed, limit, false, 0) && Sum(t) == 0
    ensures Balanced(t.(errors := 1, skipped := 1), needed, limit)
  {
  }

  lemma NothingCountedYet(t: Tally, c: Config)
    requires t.holds == t.soldOut == t.stale == t.rateLimited == t.sessionDead == 0
    ensures Counted(t, [], c)
  {
  }

  lemma NothingDoneYet(script: seq<Turn>, c: Config, userData: string, slot: string, needed: nat)
    ensures ErrorsSinceHold([], c) == 0 && !Ends([], c) && !EndsWithError([], c)
    ensures Fates([], c, userData, slot) == EMPTY && Unfinished(script, 0, c, needed)
  {
  }

  lemma ErrorsCountApart(t: Tally, script: seq<Turn>, c: Config)
    requires Counted(t, script, c)
    ensures forall failed :: Counted(Erred(t, failed), script, c)
    ensures forall errors, skipped :: Counted(t.(errors := errors, skipped := skipped), script, c)
  {
    hide Reads;
  }

  lemma AcceptedGrow(script: seq<Turn>, i: nat, c: Config, userData: string, slot: string)
    requires i < |script|
    ensures var reading := Classify(script[i].reply, c);
            && (reading.Granted? || reading.Blank? ==> script[i].reply.Answer?)
            && Accepted(script[..i + 1], userData, slot) ==
               Accepted(script[..i], userData, slot) +
               (if reading.Granted? || reading.Blank? then [Hold(userData, script[i].reply.bookingData, slot)] else [])
            && (EndsBlank(script[..i + 1]) <==> reading.Blank?)
            && (reading.Blank? ==> script[i].reply.bookingData == "")
  {
    assert script[..i + 1][..i] == script[..i];
  }

  lemma FatesGrow(script: seq<Turn>, i: nat, c: Config, userData: string, slot: string)
    requires i < |script|
    ensures var t := script[i];
            Fates(script[..i + 1], c, userData, slot) ==
            if Classify(t.reply, c).Granted?
            then Join(Fates(script[..i], c, userData, slot),
                      Placed(Hold(userData, t.reply.bookingData, slot), Fate(t, c)))
            else Fates(script[..i], c, userData, slot)
  {
    hide Join, Placed, Fate, SessionRejected;
    assert script[..i + 1][..i] == script[..i];
  }

  lemma RunningHasNoFailure(l: Ledger, c: Config)
    requires Running(l, c)
    ensures AtMostOneFails(l, c) && |l.pending| + |l.lost| == 0
  {
  }

  lemma OneHoldIsSomewhere(l: Ledger, hold: Hold)
    requires Everything(l) == [hold]
    ensures |l.pending| + |l.lost| == if l.pending != [] || l.lost != [] then 1 else 0
    ensures l.cancelled == [hold] || l.delivered == [hold] ==> l.pending == [] && l.lost == []
  {
  }

  lemma NothingToSeal(releases: seq<Entry>)
    ensures SealAll([]) + releases == releases
  {
  }

  // ---------------------------------------------------------------- a job's total

  function Plus(a: Tally, b: Tally): Tally {
    Tally(a.polls + b.polls, a.holds + b.holds, a.soldOut + b.soldOut, a.stale + b.stale, a.errors + b.errors,
          a.rateLimited + b.rateLimited, a.sessionDead + b.sessionDead, a.skipped + b.skipped,
          a.releaseFailed + b.releaseFailed)
  }

  function Total(slots: seq<Tally>): Tally {
    if slots == [] then Tally(0, 0, 0, 0, 0, 0, 0, 0, 0)
    else Plus(Total(slots[..|slots| - 1]), slots[|slots| - 1])
  }

  method SumTallies(slots: seq<Tally>) returns (total: Tally)
    ensures total == Total(slots)
  {
    total := Tally(0, 0, 0, 0, 0, 0, 0, 0, 0);
    for i := 0 to |slots|
      invariant total == Total(slots[..i])
    {
      assert slots[..i + 1][..i] == slots[..i];
      total := Plus(total, slots[i]);
    }
    assert slots[..|slots|] == slots;
  }

  ghost function Added(slots: seq<Tally>, field: Tally -> nat): nat {
    if slots == [] then 0 else Added(slots[..|slots| - 1], field) + field(slots[|slots| - 1])
  }

  /** A total adds up each count on its own. */
  lemma {:induction false} TotalsAdd(slots: seq<Tally>)
    ensures Total(slots).polls == Added(slots, (t: Tally) => t.polls)
    ensures Total(slots).holds == Added(slots, (t: Tally) => t.holds)
    ensures Total(slots).soldOut == Added(slots, (t: Tally) => t.soldOut)
    ensures Total(slots).stale == Added(slots, (t: Tally) => t.stale)
    ensures Total(slots).errors == Added(slots, (t: Tally) => t.errors)
    ensures Total(slots).rateLimited == Added(slots, (t: Tally) => t.rateLimited)
    ensures Total(slots).sessionDead == Added(slots, (t: Tally) => t.sessionDead)
    ensures Total(slots).skipped == Added(slots, (t: Tally) => t.skipped)
    ensures Total(slots).releaseFailed == Added(slots, (t: Tally) => t.releaseFailed)
  {
    if slots != [] {
      TotalsAdd(slots[..|slots| - 1]);
    }
  }

  /** The balance of a total over n slots. */
  ghost predicate TotalBalanced(t: Tally, n: nat, needed: nat) {
    && t.polls <= Sum(t) <= t.polls + n
    && t.releaseFailed <= n && t.sessionDead <= n && t.holds <= needed
  }

  lemma PlusBalances(a: Tally, n: nat, others: nat, b: Tally, needed: nat, limit: nat)
    requires TotalBalanced(a, n, others) && Balanced(b, needed, limit)
    ensures TotalBalanced(Plus(a, b), n + 1, others + needed)
  {
    hide Budget;
  }

  /** A job's total is out of balance by at most one per slot, and so are its failures. */
  lemma {:induction false} TotalsBalance(slots: seq<Tally>, needed: seq<nat>, limit: nat)
    requires |needed| == |slots|
    requires forall i | 0 <= i < |slots| :: Balanced(slots[i], needed[i], limit)
    ensures TotalBalanced(Total(slots), |slots|, SumOf(needed))
  {
    if slots == [] {
      NoSlots(needed);
    } else {
      hide Balanced, TotalBalanced, Plus;
      var last := |slots| - 1;
      TotalsBalance(slots[..last], needed[..last], limit);
      PlusBalances(Total(slots[..last]), last, SumOf(needed[..last]), slots[last], needed[last], limit);
    }
  }

  lemma NoSlots(needed: seq<nat>)
    requires needed == []
    ensures TotalBalanced(Total([]), 0, SumOf(needed))
  {
  }

  function SumOf(needed: seq<nat>): nat {
    if needed == [] then 0 else SumOf(needed[..|needed| - 1]) + needed[|needed| - 1]
  }

  // ---------------------------------------------------------------- the durable release list

  /** One retried release: still within the time budget, KTMB's reply, and the Redis outcomes. */
  datatype Retry = Retry(inTime: bool, reply: Reply, removes: bool, signals: bool)

  datatype Verdict = Unreadable | Confirmed | SessionLost | Ended | Kept

  /** KTMB rejected the session the release was tried with. */
  ghost predicate Rejects(e: Entry, reply: Reply, c: Config) {
    e.Sealed? && IsDead(reply, c)
  }

  /** Nothing remains to be released, or nothing that can be read. */
  ghost predicate MayLeave(e: Entry, reply: Reply, c: Config) {
    || e.Garbage?
    || (reply.Answer? && reply.ok)
    || (reply.Answer? && !IsDead(reply, c) && Matches(reply.messages, c.releaseTerminalPatterns))
  }

  function Judge(e: Entry, reply: Reply, c: Config): (v: Verdict)
    ensures v.SessionLost? <==> Rejects(e, reply, c)
    ensures Removable(v) <==> MayLeave(e, reply, c)
  {
    ClassifyMeans(reply, c);
    if e.Garbage? then Unreadable
    else if reply.Answer? && reply.ok then Confirmed
    else if SessionRejected(reply, c) then SessionLost
    else if reply.Answer? && Matches(reply.messages, c.releaseTerminalPatterns) then Ended
    else Kept
  }

  predicate Removable(v: Verdict) {
    v.Unreadable? || v.Confirmed? || v.Ended?
  }

  function DrainLimit(c: Config): (limit: nat)
    ensures c.releaseDrainLimit > 0 ==> limit == c.releaseDrainLimit
    ensures c.releaseDrainLimit <= 0 ==> limit == 10
  {
    if c.releaseDrainLimit <= 0 then 10 else c.releaseDrainLimit
  }

  /** Entry n is reached within the limit and in time. */
  predicate Tries(entries: seq<Entry>, w: nat -> Retry, c: Config, n: nat) {
    n < |entries| && n < DrainLimit(c) && w(n).inTime
  }

  ghost predicate FailsToRemove(e: Entry, t: Retry, c: Config) {
    MayLeave(e, t.reply, c) && !t.removes
  }

  /** Of the first n entries, those that may leave the list. */
  ghost function Leaving(entries: seq<Entry>, w: nat -> Retry, c: Config, n: nat): seq<Entry>
    requires n <= |entries|
  {
    if n == 0 then []
    else
      var before := Leaving(entries, w, c, n - 1);
      if MayLeave(entries[n - 1], w(n - 1).reply, c) then before + [entries[n - 1]] else before
  }

  /** LREM with count 1: the first equal entry goes. */
  function RemoveFirst(entries: seq<Entry>, e: Entry): (r: seq<Entry>)
    ensures multiset(r) == multiset(entries) - multiset{e}
  {
    if entries == [] then []
    else if entries[0] == e then
      assert entries == [entries[0]] + entries[1..];
      entries[1..]
    else
      assert entries == [entries[0]] + entries[1..];
      [entries[0]] + RemoveFirst(entries[1..], e)
  }

  /** Entries still listed: all but those of the first n that may leave. */
  ghost predicate Remaining(releases: seq<Entry>, entries: seq<Entry>, w: nat -> Retry, c: Config, n: nat)
    requires n <= |entries|
  {
    multiset(releases) == multiset(entries) - multiset(Leaving(entries, w, c, n))
  }

  lemma RemainingMovesOn(releases: seq<Entry>, entries: seq<Entry>, w: nat -> Retry, c: Config, n: nat)
    requires n < |entries| && Remaining(releases, entries, w, c, n)
    ensures if MayLeave(entries[n], w(n).reply, c)
            then Remaining(RemoveFirst(releases, entries[n]), entries, w, c, n + 1)
            else Remaining(releases, entries, w, c, n + 1)
  {
    hide MayLeave;
  }

  /** Even with a terminal message a rejected release stays. */
  lemma RejectedStays(e: Entry, reply: Reply, c: Config)
    requires Rejects(e, reply, c)
    ensures !MayLeave(e, reply, c)
  {
  }

  lemma NothingLeavesAtFirst(entries: seq<Entry>, w: nat -> Retry, c: Config)
    ensures Remaining(entries, entries, w, c, 0)
  {
  }

  lemma {:induction false} LeavingIsThere(entries: seq<Entry>, w: nat -> Retry, c: Config, n: nat)
    requires n <= |entries|
    ensures multiset(Leaving(entries, w, c, n)) <= multiset(entries[..n])
  {
    if n > 0 {
      LeavingIsThere(entries, w, c, n - 1);
      assert entries[..n] == entries[..n - 1] + [entries[n - 1]];
    }
  }

  class Runner {
    const config: Config
    var reserverQueue: seq<Hold>
    var releases: seq<Entry>        // newest first
    var deadSessions: set<string>

    constructor (config: Config)
      ensures this.config == config && reserverQueue == [] && releases == [] && deadSessions == {}
    {
      this.config := config;
      reserverQueue, releases, deadSessions := [], [], {};
    }

    /** Confirm the cancellation, or record the hold durably; `failed` means it was not confirmed. */
    method CompensateHold(hold: Hold, t: Turn) returns (failed: bool, ok: bool, ghost l: Ledger)
      modifies this`releases
      ensures Everything(l) == [hold] && l == Placed(hold, Released(t))
      ensures l.cancelled == [hold] <==> CancelConfirmed(t)
      ensures l.pending == [hold] <==> !CancelConfirmed(t) && t.encryptsRelease && t.persists
      ensures failed <==> !CancelConfirmed(t)
      ensures ok <==> config.dryRun && !failed
      ensures releases == SealAll(l.pending) + old(releases)
    {
      if t.cancel.Answer? && t.cancel.ok {
        return false, config.dryRun, Ledger([], [hold], [], []);
      }
      if !t.encryptsRelease || !t.persists {
        assert SealAll([]) + releases == releases;
        return true, false, Ledger([], [], [], [hold]);
      }
      releases := [Sealed(hold)] + releases;
      return true, false, Ledger([], [], [hold], []);
    }

    method AcceptHold(hold: Hold, t: Turn) returns (failed: bool, ok: bool, ghost l: Ledger)
      modifies this`releases, this`reserverQueue
      ensures Everything(l) == [hold] && l == Placed(hold, Fate(t, config))
      ensures l.delivered == [hold] <==> !config.dryRun && t.encrypts && t.enqueues
      // a dry run never enqueues; a live run goes on only after delivering
      ensures config.dryRun ==> l.delivered == []
      ensures ok <==> if config.dryRun then l.cancelled == [hold] else l.delivered == [hold]
      ensures ok <==> Fate(t, config) == if config.dryRun then Cancelled else Delivered
      ensures failed <==> l.pending != [] || l.lost != []
      ensures reserverQueue == old(reserverQueue) + l.delivered
      ensures releases == SealAll(l.pending) + old(releases)
    {
      if config.dryRun || !t.encrypts || !t.enqueues {
        failed, ok, l := CompensateHold(hold, t);
        return;
      }
      reserverQueue := reserverQueue + [hold];
      return false, true, Ledger([hold], [], [], []);
    }

    /** Poll one slot until it has the holds it needs, or something stops it. */
    method ProbeSlot(userData: string, slot: string, needed: nat, seeded: bool, seeds: bool, script: seq<Turn>)
      returns (tally: Tally, epochCancelled: bool, ghost l: Ledger)
      modifies this
      ensures Balanced(tally, needed, ErrorLimit(config)) && tally.polls <= |script|
      ensures Counted(tally, script[..tally.polls], config)
      ensures tally.skipped == (if seeded || seeds then 0 else 1) && (tally.skipped == 1 ==> tally.polls == 0)
      // it goes on while holds are needed and no turn ends it, and stops at the first that does
      ensures Unfinished(script, tally.polls, config, needed)
      ensures tally.skipped == 0 && tally.holds < needed && tally.polls < |script| ==>
                Ends(script[..tally.polls], config)
      ensures tally.skipped == 0 ==>
                Sum(tally) == tally.polls + if EndsWithError(script[..tally.polls], config) then 1 else 0
      // every hold is where its own turn sent it
      ensures l == Fates(script[..tally.polls], config, userData, slot)
      // every hold KTMB accepted is in exactly one place, and at most one of them failed, but for a last one
      // that came without bookingData: that one is nowhere
      ensures Accepted(script[..tally.polls], userData, slot) ==
              Everything(l) + if EndsBlank(script[..tally.polls]) then [Hold(userData, "", slot)] else []
      ensures Accepted(script[..tally.polls], userData, slot) == Everything(l) <==> !EndsBlank(script[..tally.polls])
      ensures AtMostOneFails(l, config)
      ensures tally.holds == |Everything(l)| && tally.releaseFailed == |l.pending| + |l.lost|
      ensures reserverQueue == old(reserverQueue) + l.delivered
      ensures releases == SealAll(l.pending) + old(releases)
      // the epoch is cancelled exactly when KTMB rejected the session
      ensures epochCancelled <==> tally.sessionDead == 1
      ensures epochCancelled ==> tally.polls > 0
      ensures deadSessions ==
              old(deadSessions) + if epochCancelled && script[tally.polls - 1].signals then {userData} else {}
    {
      hide Classify, Ongoing, Balanced, Counted, Polled, Reads, Accepted, EndsBlank, Everything, Running,
        AtMostOneFails, SealAll, Join, Fates, Fate, Placed, Ends, EndsWithError, Unfinished, ErrorsSinceHold,
        ErrorLimit, Sum, SessionRejected, Matches;
      var limit := ErrorLimit(config);
      tally, epochCancelled, l := Tally(0, 0, 0, 0, 0, 0, 0, 0, 0), false, EMPTY;
      NothingYet(config, userData, slot, tally, needed, limit);
      assert script[..0] == [];
      NothingCountedYet(tally, config);
      NothingDoneYet(script, config, userData, slot, needed);
      ErrorsCountApart(tally, [], config);
      RunningHasNoFailure(l, config);
      NothingToSeal(releases);
      if !seeded && !seeds {
        tally := tally.(errors := 1, skipped := 1);
        return;
      }
      var errorsSeen, refreshed, i := 0, false, 0;
      while tally.holds < needed && i < |script|
        invariant i == tally.polls == Sum(tally) && i <= |script|
        invariant Ongoing(tally, needed, limit, refreshed, errorsSeen)
        invariant Counted(tally, script[..i], config) && tally.stale == (if refreshed then 1 else 0)
        invariant tally.sessionDead == 0 && tally.releaseFailed == 0 && tally.skipped == 0 && !epochCancelled
        invariant Running(l, config) && tally.holds == |Everything(l)|
        invariant Everything(l) == Accepted(script[..i], userData, slot) && !EndsBlank(script[..i])
        invariant reserverQueue == old(reserverQueue) + l.delivered && releases == old(releases)
        invariant deadSessions == old(deadSessions)
        invariant errorsSeen == ErrorsSinceHold(script[..i], config)
        invariant l == Fates(script[..i], config, userData, slot)
        invariant Unfinished(script, i, config, needed)
        invariant !Ends(script[..i], config) && !EndsWithError(script[..i], config)
      {
        var t := script[i];
        var reading := Classify(t.reply, config);
        AcceptedGrow(script, i, config, userData, slot);
        EndsWhen(script, i, config);
        CountedMovesOn(tally, script, i, config);
        UnfinishedMovesOn(script, i, config, needed);
        FatesGrow(script, i, config, userData, slot);
        PollMovesOn(tally, needed, limit, refreshed, errorsSeen, reading);
        PolledOnce(tally, reading);
        RunningHasNoFailure(l, config);
        i := i + 1;
        tally := Polled(tally, reading);
        ErrorsCountApart(tally, script[..i], config);
        match reading {
          case Dead =>
            epochCancelled := true;
            if t.signals {
              deadSessions := deadSessions + {userData};
            }
            return;
          case Stale =>
            if refreshed || !t.refreshes {
              tally := Erred(tally, 0);
              return;
            }
            refreshed := true;
          case RateLimited =>
          case SoldOut =>
            if !t.sleeps {
              return;
            }
          case Unclassified =>
            errorsSeen := errorsSeen + 1;
            if errorsSeen >= limit || !t.sleeps {
              return;
            }
          case Blank =>
            return;
          case Granted =>
            ghost var before := l;
            ghost var one;
            var failed, ok;
            failed, ok, one := AcceptHold(Hold(userData, t.reply.bookingData, slot), t);
            HoldMovesOn(before, one, config, Hold(userData, t.reply.bookingData, slot), ok, failed);
            l := Join(before, one);
            if !ok {
              tally := Erred(tally, if failed then 1 else 0);
              return;
            }
            errorsSeen := 0;
        }
      }
      OngoingIsBalanced(tally, needed, limit, refreshed, errorsSeen);
      RunningHasNoFailure(l, config);
    }

    /** Retry the recorded releases, newest first, within the count and time budgets. */
    method DrainReleases(lists: bool, w: nat -> Retry, currentUserData: string) returns (ok: bool, ghost seen: nat)
      modifies this`releases, this`deadSessions
      ensures seen <= |old(releases)| && seen <= DrainLimit(config)
      // of those seen exactly the ones that may leave are gone, a rejected session keeping even a terminal one
      ensures Remaining(releases, old(releases), w, config, seen)
      ensures forall i | 0 <= i < seen ::
                && w(i).inTime && !Rejects(old(releases)[i], w(i).reply, config)
                && (MayLeave(old(releases)[i], w(i).reply, config) ==> w(i).removes)
      // it fails exactly when the list cannot be read or a removal fails
      ensures !ok <==>
                !lists || (Tries(old(releases), w, config, seen) && FailsToRemove(old(releases)[seen], w(seen), config))
      // and otherwise ends early only for want of time or for a rejected session, which is signalled
      ensures ok && seen < |old(releases)| && seen < DrainLimit(config) ==>
                !w(seen).inTime || Rejects(old(releases)[seen], w(seen).reply, config)
      ensures deadSessions == old(deadSessions) +
              if lists && Tries(old(releases), w, config, seen)
                 && Rejects(old(releases)[seen], w(seen).reply, config) && w(seen).signals
              then {ReleasingUser(old(releases)[seen], currentUserData)} else {}
    {
      hide Judge, Remaining, Removable, MayLeave, Rejects, RemoveFirst, ReleasingUser;
      seen := 0;
      NothingLeavesAtFirst(releases, w, config);
      if !lists {
        return false, 0;
      }
      var limit := DrainLimit(config);
      var values := if limit < |releases| then releases[..limit] else releases;
      ghost var entries := releases;
      for i := 0 to |values|
        invariant seen == i && deadSessions == old(deadSessions)
        invariant Remaining(releases, entries, w, config, i)
        invariant forall j | 0 <= j < i ::
                    && w(j).inTime && !Rejects(entries[j], w(j).reply, config)
                    && (MayLeave(entries[j], w(j).reply, config) ==> w(j).removes)
      {
        var t := w(i);
        if !t.inTime {
          break;
        }
        var e := values[i];
        var verdict := Judge(e, t.reply, config);
        if verdict.SessionLost? {
          RejectedStays(e, t.reply, config);
          if t.signals {
            deadSessions := deadSessions + {ReleasingUser(e, currentUserData)};
          }
          return true, i;
        }
        RemainingMovesOn(releases, entries, w, config, i);
        if Removable(verdict) {
          if !t.removes {
            return false, i;
          }
          releases := RemoveFirst(releases, e);
        }
        seen := i + 1;
      }
      ok := true;
    }
  }

  /** A newer session of the same account may release a hold of an older one. */
  function ReleasingUser(e: Entry, currentUserData: string): (user: string)
    ensures currentUserData != "" ==> user == currentUserData
    ensures currentUserData == "" && e.Sealed? ==> user == e.hold.userData
  {
    if currentUserData != "" || e.Garbage? then currentUserData else e.hold.userData
  }
}
