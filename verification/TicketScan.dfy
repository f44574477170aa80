/**
 The search for a passenger's ticket on the account's upcoming-ticket list.

 The list is paged and ascending by departure. Each row shows a departure text that may not
 parse; what the row really departs at is known only to the ghost `account`. "Absent" leads to a
 refund, so it has to mean absence from the real list, not from what happened to be readable.
 */
module TicketScan {
  import opened Wrappers
  import opened Text

  datatype Ticket = Ticket(ticketNo: string, passportNo: string)

  datatype Trip = Trip(tickets: seq<Ticket>)

  datatype Booking = Booking(bookingNo: string, departure: string, fromStation: string, trips: seq<Trip>)

  /** A row of the real list: what is shown, and when it truly departs. */
  datatype Row = Row(shown: Booking, departs: int)

  type Account = seq<seq<Row>>

  datatype Reply = Failed | Page(totalPage: int, bookings: seq<Booking>)

  /** The page fetcher: the n-th call of the scan, asking for one 1-based page. */
  type Fetcher = (nat, int) -> Reply

  /** Reading a departure text; the parser is the standard library's. */
  type Clock = string -> Option<int>

  datatype Query = Query(target: int, direction: string, passport: string)

  datatype Outcome =
    | Found(bookingNo: string, ticketNo: string)
    | Absent
    | Inconclusive

  datatype PageMatch = Hit(bookingNo: string, ticketNo: string) | NoMatch | Ambiguous

  datatype Presence = Present | NotPresent | Unclear

  // ---------------------------------------------------------------- rows

  function FirstTicket(tickets: seq<Ticket>, passport: string): Option<string> {
    if tickets == [] then None
    else if EqualFold(TrimSpace(tickets[0].passportNo), TrimSpace(passport)) then Some(tickets[0].ticketNo)
    else FirstTicket(tickets[1..], passport)
  }

  function TicketInTrips(trips: seq<Trip>, passport: string): Option<string> {
    if trips == [] then None
    else
      var here := FirstTicket(trips[0].tickets, passport);
      if here.Some? then here else TicketInTrips(trips[1..], passport)
  }

  function TicketForPassport(b: Booking, passport: string): Option<string> {
    TicketInTrips(b.trips, passport)
  }

  predicate SamePassport(t: Ticket, passport: string) {
    EqualFold(TrimSpace(t.passportNo), TrimSpace(passport))
  }

  lemma {:induction false} FirstTicketFinds(tickets: seq<Ticket>, passport: string)
    ensures FirstTicket(tickets, passport).Some? <==> exists t :: t in tickets && SamePassport(t, passport)
    ensures FirstTicket(tickets, passport).Some? ==>
              exists t :: t in tickets && SamePassport(t, passport) &&
                          FirstTicket(tickets, passport) == Some(t.ticketNo)
  {
    if tickets != [] {
      assert tickets[0] in tickets;
      FirstTicketFinds(tickets[1..], passport);
    }
  }

  /** A booking carries the passport exactly when one of its trips has a ticket in that name. */
  lemma {:induction false} TicketForPassportFinds(b: Booking, passport: string)
    ensures TicketForPassport(b, passport).Some? <==>
            exists trip, t :: trip in b.trips && t in trip.tickets && SamePassport(t, passport)
    ensures TicketForPassport(b, passport).Some? ==>
              exists trip, t :: trip in b.trips && t in trip.tickets && SamePassport(t, passport)
                                && TicketForPassport(b, passport) == Some(t.ticketNo)
  {
    hide SamePassport;
    TripsFind(b.trips, passport);
  }

  lemma {:induction false} TripsFind(trips: seq<Trip>, passport: string)
    ensures TicketInTrips(trips, passport).Some? <==>
            exists trip, t :: trip in trips && t in trip.tickets && SamePassport(t, passport)
    ensures TicketInTrips(trips, passport).Some? ==>
              exists trip, t :: trip in trips && t in trip.tickets && SamePassport(t, passport)
                                && TicketInTrips(trips, passport) == Some(t.ticketNo)
  {
    if trips != [] {
      assert trips[0] in trips;
      FirstTicketFinds(trips[0].tickets, passport);
      TripsFind(trips[1..], passport);
    }
  }

  /** Tri-state: a direction only when the origin station is positively identified. */
  function ClassifyDirection(station: string): Option<string> {
    var upper := ToUpper(station);
    if Contains(upper, "WOODLANDS") then Some("WToJ")
    else if Contains(upper, "SENTRAL") || Contains(upper, "JOHOR") then Some("JToW")
    else None
  }

  /** The station's name contains the token, in whatever case. */
  ghost predicate Names(station: string, token: string) {
    exists i: nat :: ReadsAt(station, token, i)
  }

  /** "WToJ" from Woodlands; "JToW" from JB Sentral or Johor, and only then; else no direction. */
  lemma {:induction false} DirectionByOrigin(station: string)
    ensures ClassifyDirection(station) == Some("WToJ") <==> Names(station, "WOODLANDS")
    ensures ClassifyDirection(station) == Some("JToW") <==>
            !Names(station, "WOODLANDS") && (Names(station, "SENTRAL") || Names(station, "JOHOR"))
    ensures ClassifyDirection(station).Some? ==>
            ClassifyDirection(station) == Some("WToJ") || ClassifyDirection(station) == Some("JToW")
  {
    TokenIsNamed(station, "WOODLANDS");
    TokenIsNamed(station, "SENTRAL");
    TokenIsNamed(station, "JOHOR");
    hide Contains, ToUpper, Names;
  }

  lemma TokenIsNamed(station: string, token: string)
    requires forall k | 0 <= k < |token| :: 'A' <= token[k] <= 'Z'
    ensures Contains(ToUpper(station), token) <==> Names(station, token)
  {
    assert ToUpper(token) == token;
    ContainsMeans(station, token);
  }

  /** The origin is one the wanted direction starts from. */
  ghost predicate StartsRight(station: string, direction: string) {
    || (direction == "WToJ" && Names(station, "WOODLANDS"))
    || (direction == "JToW" && !Names(station, "WOODLANDS") && (Names(station, "SENTRAL") || Names(station, "JOHOR")))
  }

  lemma {:induction false} ClassifiedStartsRight(station: string, direction: string)
    ensures ClassifyDirection(station) == Some(direction) <==> StartsRight(station, direction)
  {
    DirectionByOrigin(station);
    hide Names, ClassifyDirection;
  }

  /** The booking departs at the target in the passenger's name, whatever its direction. */
  predicate ShownOurs(b: Booking, q: Query, clock: Clock) {
    clock(b.departure) == Some(q.target) && TicketForPassport(b, q.passport).Some?
  }

  /** ... and its origin is positively the wanted direction. */
  ghost predicate Confirmed(b: Booking, q: Query, clock: Clock) {
    ShownOurs(b, q, clock) && StartsRight(b.fromStation, q.direction)
  }

  ghost predicate Carries(b: Booking, q: Query, clock: Clock, bookingNo: string, ticketNo: string) {
    Confirmed(b, q, clock) && b.bookingNo == bookingNo && TicketForPassport(b, q.passport) == Some(ticketNo)
  }

  // ---------------------------------------------------------------- the real list

  ghost predicate TrulyOurs(row: Row, q: Query) {
    row.departs == q.target && TicketForPassport(row.shown, q.passport).Some?
  }

  ghost function PageOf(account: Account, page: int): seq<Row> {
    if 1 <= page <= |account| then account[page - 1] else []
  }

  /** Ascending by true departure, within each page and from page to page. */
  ghost predicate Sorted(account: Account) {
    forall p, r | p <= r :: Ordered(PageOf(account, p), PageOf(account, r), p == r)
  }

  ghost predicate Ordered(a: seq<Row>, b: seq<Row>, samePage: bool) {
    forall i, j | 0 <= i < |a| && 0 <= j < |b| && (samePage ==> i <= j) :: a[i].departs <= b[j].departs
  }

  /** A departure text that parses tells the truth. */
  ghost predicate Truthful(account: Account, clock: Clock) {
    forall page :: TruthfulRows(PageOf(account, page), clock)
  }

  ghost predicate TruthfulRows(rows: seq<Row>, clock: Clock) {
    forall i | 0 <= i < |rows| :: TruthfulRow(rows[i], clock)
  }

  ghost predicate TruthfulRow(row: Row, clock: Clock) {
    clock(row.shown.departure).Some? ==> clock(row.shown.departure).value == row.departs
  }

  ghost function Shown(rows: seq<Row>): (s: seq<Booking>)
    ensures |s| == |rows|
    ensures forall i | 0 <= i < |rows| :: s[i] == rows[i].shown
  {
    seq(|rows|, i requires 0 <= i < |rows| => rows[i].shown)
  }

  /** A call fails, comes back blank, or shows the real page; blanks and failures may come and go. */
  ghost predicate Honest(fetch: Fetcher, account: Account) {
    forall n: nat, page: int :: HonestReply(fetch(n, page), account, page)
  }

  ghost predicate HonestReply(reply: Reply, account: Account, page: int) {
    reply.Page? && reply.bookings != [] ==>
      reply.bookings == Shown(PageOf(account, page)) &&
      (page == 1 ==> reply.totalPage <= 0 || reply.totalPage == |account|)
  }

  /** Nothing goes wrong: every page answers, every row reads, every own row is confirmed. */
  ghost predicate Clean(fetch: Fetcher, account: Account, q: Query, clock: Clock) {
    && account != []
    && (forall n: nat, page: int | 1 <= page <= |account| ::
          fetch(n, page).Page? && fetch(n, page).bookings != [] && fetch(n, page).totalPage == |account|)
    && (forall page | 1 <= page <= |account| :: CleanRows(PageOf(account, page), q, clock))
  }

  ghost predicate CleanRows(rows: seq<Row>, q: Query, clock: Clock) {
    forall i | 0 <= i < |rows| :: CleanRow(rows[i], q, clock)
  }

  ghost predicate CleanRow(row: Row, q: Query, clock: Clock) {
    clock(row.shown.departure).Some? && (ShownOurs(row.shown, q, clock) ==> Confirmed(row.shown, q, clock))
  }

  // ---------------------------------------------------------------- one page

  method MatchPage(bookings: seq<Booking>, q: Query, clock: Clock) returns (m: PageMatch)
    ensures m.Hit? <==> exists b :: b in bookings && Confirmed(b, q, clock)
    ensures m.Hit? ==> exists b :: b in bookings && Carries(b, q, clock, m.bookingNo, m.ticketNo)
    ensures m.NoMatch? <==>
            forall b | b in bookings :: clock(b.departure).Some? && !ShownOurs(b, q, clock)
  {
    hide StartsRight, ClassifyDirection, TicketForPassport;
    var ambiguous := false;
    for i := 0 to |bookings|
      invariant forall b | b in bookings[..i] :: !Confirmed(b, q, clock)
      invariant ambiguous <==> exists b :: b in bookings[..i] && (clock(b.departure).None? || ShownOurs(b, q, clock))
    {
      var b := bookings[i];
      assert bookings[..i + 1] == bookings[..i] + [b];
      var depart := clock(b.departure);
      if depart.None? {
        ambiguous := true;
        continue;
      }
      if depart.value != q.target {
        continue;
      }
      var ticketNo := TicketForPassport(b, q.passport);
      if ticketNo.None? {
        continue;
      }
      ClassifiedStartsRight(b.fromStation, q.direction);
      if ClassifyDirection(b.fromStation) != Some(q.direction) {
        ambiguous := true;
        continue;
      }
      assert Carries(b, q, clock, b.bookingNo, ticketNo.value);
      return Hit(b.bookingNo, ticketNo.value);
    }
    assert bookings[..|bookings|] == bookings;
    m := if ambiguous then Ambiguous else NoMatch;
  }

  method PageContainsDatetime(bookings: seq<Booking>, target: int, clock: Clock) returns (r: Presence)
    ensures r.Present? <==> exists b :: b in bookings && clock(b.departure) == Some(target)
    ensures r.NotPresent? <==>
            forall b | b in bookings :: clock(b.departure).Some? && clock(b.departure).value != target
  {
    var malformed := false;
    for i := 0 to |bookings|
      invariant forall b | b in bookings[..i] :: clock(b.departure) != Some(target)
      invariant malformed <==> exists b :: b in bookings[..i] && clock(b.departure).None?
    {
      var b := bookings[i];
      assert bookings[..i + 1] == bookings[..i] + [b];
      var depart := clock(b.departure);
      if depart.None? {
        malformed := true;
        continue;
      }
      if depart.value == target {
        return Present;
      }
    }
    assert bookings[..|bookings|] == bookings;
    r := if malformed then Unclear else NotPresent;
  }

  // ---------------------------------------------------------------- the scan

  /** Page 1 is answered from the first reply; every other page is a call of its own. */
  function GetPage(fetch: Fetcher, first: Reply, calls: nat, page: int): (reply: Reply)
    ensures page == 1 ==> reply == first
    ensures page != 1 ==> reply == fetch(calls, page)
  {
    if page == 1 then first else fetch(calls, page)
  }

  function CallsAfter(calls: nat, page: int): (after: nat)
    ensures page == 1 ==> after == calls
    ensures page != 1 ==> after == calls + 1
  {
    if page == 1 then calls else calls + 1
  }

  function Log2(n: nat): nat {
    if n <= 1 then 0 else 1 + Log2(n / 2)
  }

  function Power2(k: nat): nat {
    if k == 0 then 1 else 2 * Power2(k - 1)
  }

  lemma {:induction false} Log2IsFloor(n: nat)
    requires n >= 1
    ensures Power2(Log2(n)) <= n < 2 * Power2(Log2(n))
  {
    if n > 1 {
      Log2IsFloor(n / 2);
    }
  }

  lemma {:induction false} Log2Monotone(a: nat, b: nat)
    requires a <= b
    ensures Log2(a) <= Log2(b)
  {
    if a > 1 {
      Log2Monotone(a / 2, b / 2);
    }
  }

  /** What holds once the first reply has been accepted. */
  ghost predicate Started(fetch: Fetcher, first: Reply, account: Account, clock: Clock) {
    Sorted(account) && Readable(fetch, first, account, clock)
  }

  ghost predicate Readable(fetch: Fetcher, first: Reply, account: Account, clock: Clock) {
    && Honest(fetch, account) && Truthful(account, clock)
    && first.Page? && first.bookings != [] && first.totalPage == |account|
    && HonestReply(first, account, 1)
  }

  ghost predicate NoneOurs(rows: seq<Row>, q: Query) {
    forall i | 0 <= i < |rows| :: !TrulyOurs(rows[i], q)
  }

  ghost predicate AllBefore(rows: seq<Row>, t: int) {
    forall i | 0 <= i < |rows| :: rows[i].departs < t
  }

  ghost predicate AllAfter(rows: seq<Row>, t: int) {
    forall i | 0 <= i < |rows| :: t < rows[i].departs
  }

  ghost predicate Spans(rows: seq<Row>, t: int) {
    rows != [] && rows[0].departs <= t <= rows[|rows| - 1].departs
  }

  ghost predicate Holds(rows: seq<Row>, t: int) {
    exists i | 0 <= i < |rows| :: rows[i].departs == t
  }

  /** Every page strictly between low and high holds a departure at t. */
  ghost predicate Run(account: Account, t: int, low: int, high: int) {
    forall p | low < p < high :: Holds(PageOf(account, p), t)
  }

  /** The pages a row of which departs at t. */
  ghost function PagesHolding(account: Account, t: int): set<int> {
    set page | 1 <= page <= |account| && Holds(PageOf(account, page), t)
  }

  lemma LaterPagesAreAfter(account: Account, mid: int, t: int)
    requires Sorted(account) && PageOf(account, mid) != [] && t < PageOf(account, mid)[0].departs
    ensures forall p | mid <= p <= |account| :: AllAfter(PageOf(account, p), t)
  {
    forall p, i | mid <= p <= |account| && 0 <= i < |PageOf(account, p)|
      ensures t < PageOf(account, p)[i].departs
    {
      assert Ordered(PageOf(account, mid), PageOf(account, p), mid == p);
    }
  }

  lemma EarlierPagesAreBefore(account: Account, mid: int, t: int)
    requires Sorted(account) && PageOf(account, mid) != []
    requires PageOf(account, mid)[|PageOf(account, mid)| - 1].departs < t
    ensures forall p | 1 <= p <= mid :: AllBefore(PageOf(account, p), t)
  {
    forall p, i | 1 <= p <= mid && 0 <= i < |PageOf(account, p)|
      ensures PageOf(account, p)[i].departs < t
    {
      assert Ordered(PageOf(account, p), PageOf(account, mid), p == mid);
    }
  }

  /** The readings of a page's ends are its true first and last departures. */
  lemma EndsAreTrue(account: Account, clock: Clock, reply: Reply, page: int, q: Query)
    requires Truthful(account, clock) && HonestReply(reply, account, page)
    requires reply.Page? && reply.bookings != []
    ensures var rows := PageOf(account, page);
            var first := clock(reply.bookings[0].departure);
            var last := clock(reply.bookings[|reply.bookings| - 1].departure);
            && |rows| == |reply.bookings|
            && (first.Some? ==> first.value == rows[0].departs)
            && (last.Some? ==> last.value == rows[|rows| - 1].departs)
            && (CleanRows(rows, q, clock) ==> first.Some? && last.Some?)
  {
    var rows := PageOf(account, page);
    assert TruthfulRows(rows, clock) && TruthfulRow(rows[0], clock) && TruthfulRow(rows[|rows| - 1], clock);
    assert CleanRows(rows, q, clock) ==> CleanRow(rows[0], q, clock) && CleanRow(rows[|rows| - 1], q, clock);
  }

  datatype Side = Below | Above | Here | Lost

  /** Which side of one page the target lies on. */
  method Probe(reply: Reply, q: Query, clock: Clock, ghost account: Account, ghost page: int) returns (s: Side)
    requires Sorted(account) && Truthful(account, clock) && HonestReply(reply, account, page)
    ensures s.Below? ==> forall p | page <= p <= |account| :: AllAfter(PageOf(account, p), q.target)
    ensures s.Above? ==> forall p | 1 <= p <= page :: AllBefore(PageOf(account, p), q.target)
    ensures s.Here? ==> Spans(PageOf(account, page), q.target)
    ensures s.Lost? ==> reply.Failed? || reply.bookings == [] || !CleanRows(PageOf(account, page), q, clock)
  {
    if reply.Failed? || reply.bookings == [] {
      return Lost;
    }
    EndsAreTrue(account, clock, reply, page, q);
    var first := clock(reply.bookings[0].departure);
    if first.None? {
      return Lost;
    }
    var last := clock(reply.bookings[|reply.bookings| - 1].departure);
    if last.None? {
      return Lost;
    }
    if q.target < first.value {
      LaterPagesAreAfter(account, page, q.target);
      s := Below;
    } else if q.target > last.value {
      EarlierPagesAreBefore(account, page, q.target);
      s := Above;
    } else {
      s := Here;
    }
  }

  datatype Search = Spanning(page: int) | Outside | Broken

  /** Find a page whose first and last departures enclose the target. */
  method Bisect(fetch: Fetcher, first: Reply, q: Query, clock: Clock, before: nat, ghost account: Account)
    returns (s: Search, calls: nat)
    requires Started(fetch, first, account, clock)
    ensures s.Spanning? ==> 1 <= s.page <= |account| && Spans(PageOf(account, s.page), q.target)
    ensures s.Outside? ==> forall p | 1 <= p <= |account| :: !Holds(PageOf(account, p), q.target)
    ensures s.Broken? ==> !Clean(fetch, account, q, clock)
    ensures before <= calls <= before + Log2(|account|) + 1
  {
    hide Honest, Truthful, HonestReply, CleanRows;
    ReplyIsHonest(fetch, first, account, clock);
    var lo, hi := 1, first.totalPage;
    calls := before;
    ghost var rounds: nat := 0;
    while lo <= hi
      invariant 1 <= lo <= hi + 1 <= |account| + 1
      invariant forall p | 1 <= p < lo :: AllBefore(PageOf(account, p), q.target)
      invariant forall p | hi < p <= |account| :: AllAfter(PageOf(account, p), q.target)
      invariant before <= calls <= before + rounds
      invariant rounds <= Log2(|account|) + 1
      invariant lo <= hi ==> rounds + Log2(hi - lo + 1) <= Log2(|account|)
      decreases hi - lo
    {
      var mid := (lo + hi) / 2;
      var page := GetPage(fetch, first, calls, mid);
      calls := CallsAfter(calls, mid);
      ghost var width: nat := hi - lo + 1;
      rounds := rounds + 1;
      var side := Probe(page, q, clock, account, mid);
      match side {
        case Lost => return Broken, calls;
        case Here => return Spanning(mid), calls;
        case Below => hi := mid - 1;
        case Above => lo := mid + 1;
      }
      if lo <= hi {
        Log2Monotone(hi - lo + 1, width / 2);
      }
    }
    s := Outside;
  }

  datatype PageScan = Stop(outcome: Outcome) | Extends | Ends

  /** One page of the contiguous scan: stop with an answer, go on, or find the run's end. */
  method ScanPage(reply: Reply, q: Query, clock: Clock, ghost account: Account, ghost page: int) returns (s: PageScan)
    requires Truthful(account, clock) && 1 <= page <= |account| && HonestReply(reply, account, page)
    ensures s.Stop? ==> !s.outcome.Absent?
    ensures s.Stop? && s.outcome.Found? ==> IsTicket(account, page, q, clock, s.outcome)
    ensures s.Stop? && s.outcome.Inconclusive? ==>
              reply.Failed? || reply.bookings == [] || !CleanRows(PageOf(account, page), q, clock)
    ensures !s.Stop? ==> PageOf(account, page) != [] && NoneOurs(PageOf(account, page), q)
    ensures s.Extends? ==> Holds(PageOf(account, page), q.target)
    ensures s.Ends? ==> !Holds(PageOf(account, page), q.target)
  {
    if reply.Failed? || reply.bookings == [] {
      return Stop(Inconclusive);
    }
    ghost var rows := PageOf(account, page);
    assert reply.bookings == Shown(rows);
    assert forall i | 0 <= i < |rows| :: rows[i].shown in reply.bookings;
    var m := MatchPage(reply.bookings, q, clock);
    if m.Hit? {
      return Stop(Found(m.bookingNo, m.ticketNo));
    }
    if m.Ambiguous? {
      return Stop(Inconclusive);
    }
    var presence := PageContainsDatetime(reply.bookings, q.target, clock);
    match presence
    case Present => s := Extends;
    case NotPresent => s := Ends;
    case Unclear => s := Stop(Inconclusive);
  }

  /** The outcome is a row of that page, confirmed, under the ticket's own numbers. */
  ghost predicate IsTicket(account: Account, page: int, q: Query, clock: Clock, outcome: Outcome) {
    outcome.Found? && 1 <= page <= |account| &&
    exists row :: row in PageOf(account, page) && TrulyOurs(row, q)
                  && Carries(row.shown, q, clock, outcome.bookingNo, outcome.ticketNo)
  }

  /** None of the pages from..end-1 has a row of ours. */
  ghost predicate Clear(account: Account, q: Query, from: int, end: int) {
    forall p | from <= p < end :: NoneOurs(PageOf(account, p), q)
  }

  /** A page with rows, none of them at the target: the target's entries extend no further. */
  ghost predicate RunEnds(account: Account, q: Query, page: int) {
    PageOf(account, page) != [] && !Holds(PageOf(account, page), q.target)
  }

  /** On a page the target runs up to but not onto, every earlier departure is before the target. */
  lemma LeftOfRun(account: Account, q: Query, page: int, hit: int)
    requires Sorted(account) && 1 <= page <= hit <= |account|
    requires Spans(PageOf(account, hit), q.target) && RunEnds(account, q, page)
    ensures Clear(account, q, 1, page)
  {
    var here := PageOf(account, page);
    assert here[0].departs != q.target;
    assert here[0].departs <= q.target by {
      if page < hit {
        assert Ordered(PageOf(account, page), PageOf(account, hit), page == hit);
      }
    }
    forall p, i | 1 <= p < page && 0 <= i < |PageOf(account, p)|
      ensures !TrulyOurs(PageOf(account, p)[i], q)
    {
      assert Ordered(PageOf(account, p), PageOf(account, page), p == page);
    }
  }

  lemma RightOfRun(account: Account, q: Query, page: int, hit: int)
    requires Sorted(account) && 1 <= hit <= page <= |account|
    requires Spans(PageOf(account, hit), q.target) && RunEnds(account, q, page)
    ensures Clear(account, q, page + 1, |account| + 1)
  {
    var here := PageOf(account, page);
    var last := |here| - 1;
    assert here[last].departs != q.target;
    assert here[last].departs >= q.target by {
      if page > hit {
        assert Ordered(PageOf(account, hit), PageOf(account, page), hit == page);
      }
    }
    forall p, i | page + 1 <= p < |account| + 1 && 0 <= i < |PageOf(account, p)|
      ensures !TrulyOurs(PageOf(account, p)[i], q)
    {
      assert Ordered(PageOf(account, page), PageOf(account, p), page == p);
    }
  }

  lemma OffThePages(account: Account, q: Query)
    ensures forall p | p < 1 || p > |account| :: NoneOurs(PageOf(account, p), q)
  {
  }

  lemma ReplyIsHonest(fetch: Fetcher, first: Reply, account: Account, clock: Clock)
    requires Readable(fetch, first, account, clock)
    ensures Truthful(account, clock) && first.Page? && first.bookings != [] && first.totalPage == |account|
    ensures forall calls, page :: HonestReply(GetPage(fetch, first, calls, page), account, page)
  {
  }

  lemma StopIsJustified(fetch: Fetcher, first: Reply, account: Account, q: Query, clock: Clock,
                        calls: nat, page: int, outcome: Outcome)
    requires first.Page? && first.bookings != [] && 1 <= page <= |account| && !outcome.Absent?
    requires outcome.Found? ==> IsTicket(account, page, q, clock, outcome)
    requires outcome.Inconclusive? ==>
               var reply := GetPage(fetch, first, calls, page);
               reply.Failed? || reply.bookings == [] || !CleanRows(PageOf(account, page), q, clock)
    ensures Justified(fetch, account, q, clock, Some(outcome))
  {
  }

  /** Scan pages hit, hit - 1, ... while they hold the target; None means none of pages 1..hit is ours. */
  method ScanLeft(fetch: Fetcher, first: Reply, q: Query, clock: Clock, before: nat, hit: int, ghost account: Account)
    returns (stop: Option<Outcome>, calls: nat, ghost edge: int)
    requires Readable(fetch, first, account, clock) && 1 <= hit <= |account|
    ensures Justified(fetch, account, q, clock, stop)
    ensures stop.None? ==> Clear(account, q, edge, hit + 1) && (edge >= 1 ==> RunEnds(account, q, edge))
    ensures 0 <= edge <= hit && Run(account, q.target, edge, hit + 1)
    ensures before <= calls <= before + (hit - edge) + 1
  {
    hide Readable, Truthful, HonestReply, PageOf, NoneOurs, Holds, IsTicket, CleanRows;
    ReplyIsHonest(fetch, first, account, clock);
    OffThePages(account, q);
    var page := hit;
    calls := before;
    while page >= 1
      invariant 0 <= page <= hit
      invariant Clear(account, q, page + 1, hit + 1)
      invariant Run(account, q.target, page, hit + 1)
      invariant before <= calls <= before + (hit - page)
    {
      ghost var called := calls;
      var reply := GetPage(fetch, first, calls, page);
      calls := CallsAfter(calls, page);
      var s := ScanPage(reply, q, clock, account, page);
      if s.Stop? {
        StopIsJustified(fetch, first, account, q, clock, called, page, s.outcome);
        return Some(s.outcome), calls, page;
      }
      if s.Ends? {
        break;
      }
      page := page - 1;
    }
    stop, edge := None, page;
  }

  method ScanRight(fetch: Fetcher, first: Reply, q: Query, clock: Clock, before: nat, hit: int, ghost account: Account)
    returns (stop: Option<Outcome>, calls: nat, ghost edge: int)
    requires Readable(fetch, first, account, clock) && 1 <= hit <= |account|
    ensures Justified(fetch, account, q, clock, stop)
    ensures stop.None? ==> Clear(account, q, hit + 1, edge + 1) && (edge <= |account| ==> RunEnds(account, q, edge))
    ensures hit < edge <= |account| + 1 && Run(account, q.target, hit, edge)
    ensures before <= calls <= before + (edge - hit - 1) + 1
  {
    hide Readable, Truthful, HonestReply, PageOf, NoneOurs, Holds, IsTicket, CleanRows;
    ReplyIsHonest(fetch, first, account, clock);
    OffThePages(account, q);
    var page := hit + 1;
    calls := before;
    while page <= first.totalPage
      invariant hit < page <= |account| + 1
      invariant Clear(account, q, hit + 1, page)
      invariant Run(account, q.target, hit, page)
      invariant before <= calls <= before + (page - hit - 1)
    {
      ghost var called := calls;
      var reply := GetPage(fetch, first, calls, page);
      calls := CallsAfter(calls, page);
      var s := ScanPage(reply, q, clock, account, page);
      if s.Stop? {
        StopIsJustified(fetch, first, account, q, clock, called, page, s.outcome);
        return Some(s.outcome), calls, page;
      }
      if s.Ends? {
        break;
      }
      page := page + 1;
    }
    stop, edge := None, page;
  }

  /** A found ticket is a real confirmed row; an inconclusive answer means something did go wrong. */
  ghost predicate Justified(fetch: Fetcher, account: Account, q: Query, clock: Clock, stop: Option<Outcome>) {
    stop.Some? ==>
      match stop.value
      case Found(_, _) => (exists page :: IsTicket(account, page, q, clock, stop.value))
      case Inconclusive => !Clean(fetch, account, q, clock)
      case Absent => false
  }

  /** What a linear scan of the whole list would return. */
  ghost predicate LinearScanFinds(account: Account, q: Query, clock: Clock) {
    exists page, row :: row in PageOf(account, page) && Confirmed(row.shown, q, clock)
  }

  method FindTicketIn(fetch: Fetcher, q: Query, clock: Clock, ghost account: Account)
    returns (outcome: Outcome, calls: nat)
    requires Honest(fetch, account) && Sorted(account) && Truthful(account, clock)
    // "Absent" is absence from the real list, in either direction
    ensures outcome.Absent? ==> forall page, row | row in PageOf(account, page) :: !TrulyOurs(row, q)
    // a returned ticket is a real row of the list in the confirmed direction
    ensures outcome.Found? ==> exists page :: IsTicket(account, page, q, clock, outcome)
    // when nothing goes wrong it decides exactly as a linear scan would
    ensures Clean(fetch, account, q, clock) ==>
              !outcome.Inconclusive? && (outcome.Found? <==> LinearScanFinds(account, q, clock))
    // and it always stops within this many page fetches
    ensures calls <= 1 + (Log2(|account|) + 1) + |PagesHolding(account, q.target)| + 2
  {
    var first := fetch(0, 1);
    calls := 1;
    assert HonestReply(first, account, 1);
    if first.Failed? || first.totalPage <= 0 || first.bookings == [] {
      return Inconclusive, calls;
    }
    var s;
    s, calls := Bisect(fetch, first, q, clock, calls, account);
    match s {
      case Broken =>
        return Inconclusive, calls;
      case Outside =>
        AbsenceDecides(fetch, account, q, clock);
        return Absent, calls;
      case Spanning(hit) =>
        var stop;
        ghost var left, right := hit, hit + 1;
        stop, calls, left := ScanLeft(fetch, first, q, clock, calls, hit, account);
        if stop.None? {
          stop, calls, right := ScanRight(fetch, first, q, clock, calls, hit, account);
        }
        RunIsWithinBound(account, q.target, left, right);
        if stop.Some? {
          outcome := stop.value;
        } else {
          if left >= 1 {
            LeftOfRun(account, q, left, hit);
          }
          if right <= |account| {
            RightOfRun(account, q, right, hit);
          }
          AbsenceDecides(fetch, account, q, clock);
          outcome := Absent;
        }
    }
  }

  lemma RunIsWithinBound(account: Account, t: int, low: int, high: int)
    requires 0 <= low < high <= |account| + 1 && Run(account, t, low, high)
    ensures high - low - 1 <= |PagesHolding(account, t)|
  {
    var run := Pages(low, high);
    SubsetIsNoLarger(run, PagesHolding(account, t));
  }

  ghost function Pages(low: int, high: int): (s: set<int>)
    requires low < high
    ensures |s| == high - low - 1
    ensures forall p :: p in s <==> low < p < high
    decreases high - low
  {
    if high == low + 1 then {} else Pages(low, high - 1) + {high - 1}
  }

  lemma {:induction false} SubsetIsNoLarger<T>(a: set<T>, b: set<T>)
    requires a <= b
    ensures |a| <= |b|
  {
    if x :| x in a {
      SubsetIsNoLarger(a - {x}, b - {x});
    }
  }

  /** With no row of ours on any page there is nothing to find, read linearly or otherwise. */
  lemma AbsenceDecides(fetch: Fetcher, account: Account, q: Query, clock: Clock)
    requires Truthful(account, clock) && Clear(account, q, 1, |account| + 1)
    ensures forall page, row | row in PageOf(account, page) :: !TrulyOurs(row, q)
    ensures !LinearScanFinds(account, q, clock)
  {
    forall page, row | row in PageOf(account, page)
      ensures !TrulyOurs(row, q) && !Confirmed(row.shown, q, clock)
    {
      assert 1 <= page < |account| + 1;
      var i :| 0 <= i < |PageOf(account, page)| && PageOf(account, page)[i] == row;
      assert TruthfulRows(PageOf(account, page), clock) && TruthfulRow(PageOf(account, page)[i], clock);
    }
  }
}
