/**
 Refund policies: which ticket a termination refunds and which amount it reports. The ticket is picked
 by its first mention in the policy, the amount by its last, so the two agree exactly when those do.
 */
module RefundPolicy {
  import opened Wrappers
  import opened Refund

  datatype PolicyTicket = PolicyTicket(ticketNo: string, ticketData: string, refundAmount: real, currencyCode: string)

  datatype Policy = Policy(
    bookingData: string,
    trips: seq<seq<PolicyTicket>>,
    totalRefundAmount: real,
    currencyCode: string)

  // ---------------------------------------------------------------- what a policy says

  ghost function Flatten(trips: seq<seq<PolicyTicket>>): seq<PolicyTicket> {
    if trips == [] then [] else Flatten(trips[..|trips| - 1]) + trips[|trips| - 1]
  }

  ghost function Tickets(policy: Policy): seq<PolicyTicket> {
    Flatten(policy.trips)
  }

  ghost predicate FirstNamed(ts: seq<PolicyTicket>, ticketNo: string, i: nat) {
    i < |ts| && ts[i].ticketNo == ticketNo && forall j | 0 <= j < i :: ts[j].ticketNo != ticketNo
  }

  ghost predicate LastNamed(ts: seq<PolicyTicket>, ticketNo: string, i: nat) {
    i < |ts| && ts[i].ticketNo == ticketNo && forall j | i < j < |ts| :: ts[j].ticketNo != ticketNo
  }

  ghost predicate Named(ts: seq<PolicyTicket>, ticketNo: string) {
    exists i | 0 <= i < |ts| :: ts[i].ticketNo == ticketNo
  }

  ghost predicate Distinct(ts: seq<PolicyTicket>) {
    forall i, j | 0 <= i < j < |ts| :: ts[i].ticketNo != ts[j].ticketNo
  }

  /** What the policy says a ticket is worth on its own. */
  ghost function Own(policy: Policy, t: PolicyTicket): Option<Amount> {
    if t.refundAmount > 0.0
    then Some(Amount(t.refundAmount, NormalizeCurrency(t.currencyCode, policy.currencyCode)))
    else None
  }

  ghost function Total(policy: Policy): Option<Amount> {
    if policy.totalRefundAmount > 0.0
    then Some(Amount(policy.totalRefundAmount, NormalizeCurrency(policy.currencyCode, "")))
    else None
  }

  /** What refunding ticket t, listed among ts, brings in as far as the policy tells. */
  ghost function Worth(policy: Policy, ts: seq<PolicyTicket>, t: PolicyTicket): Option<Amount> {
    if Own(policy, t).Some? then Own(policy, t)
    else if |ts| == 1 then Total(policy)
    else None
  }

  /**
   The amount attributed to a ticket number: what its last mention is worth, or, without one, the total
   of a policy that lists no ticket at all.
   */
  ghost predicate Attributed(policy: Policy, ts: seq<PolicyTicket>, ticketNo: string, r: Option<Amount>) {
    if Named(ts, ticketNo) then exists i: nat :: LastNamed(ts, ticketNo, i) && r == Worth(policy, ts, ts[i])
    else r == if |ts| == 0 then Total(policy) else None
  }

  /** The ticket a termination refunds: the first one named so, or the only one when it bears no number. */
  ghost predicate Refundable(ts: seq<PolicyTicket>, ticketNo: string, r: Option<PolicyTicket>) {
    if Named(ts, ticketNo)
    then exists i: nat :: FirstNamed(ts, ticketNo, i) && r == if ts[i].ticketData == "" then None else Some(ts[i])
    else r == if |ts| == 1 && ts[0].ticketNo == "" && ts[0].ticketData != "" then Some(ts[0]) else None
  }

  lemma {:induction false} LastExists(ts: seq<PolicyTicket>, ticketNo: string) returns (i: nat)
    requires Named(ts, ticketNo)
    ensures LastNamed(ts, ticketNo, i)
  {
    i := |ts| - 1;
    while ts[i].ticketNo != ticketNo
      invariant i < |ts| && forall j | i < j < |ts| :: ts[j].ticketNo != ticketNo
      decreases i
    {
      i := i - 1;
    }
  }

  // ---------------------------------------------------------------- reading the amount

  /** The scan both readers of the amount start with. */
  method LastMatch(trips: seq<seq<PolicyTicket>>, ticketNo: string) returns (matched: Option<PolicyTicket>,
                   ticketCount: nat)
    ensures ticketCount == |Flatten(trips)|
    ensures forall i: nat | LastNamed(Flatten(trips), ticketNo, i) :: matched == Some(Flatten(trips)[i])
    ensures matched.Some? <==> Named(Flatten(trips), ticketNo)
  {
    matched, ticketCount := None, 0;
    for m := 0 to |trips|
      invariant ticketCount == |Flatten(trips[..m])|
      invariant forall i: nat | LastNamed(Flatten(trips[..m]), ticketNo, i) :: matched == Some(Flatten(trips[..m])[i])
      invariant matched.Some? <==> Named(Flatten(trips[..m]), ticketNo)
    {
      var trip := trips[m];
      ghost var before := Flatten(trips[..m]);
      assert trips[..m + 1][..m] == trips[..m];
      assert before + trip[..0] == before;
      for n := 0 to |trip|
        invariant ticketCount == |before| + n
        invariant forall i: nat | LastNamed(before + trip[..n], ticketNo, i) :: matched == Some((before + trip[..n])[i])
        invariant matched.Some? <==> Named(before + trip[..n], ticketNo)
      {
        ghost var seen := before + trip[..n];
        assert before + trip[..n + 1] == seen + [trip[n]];
        ticketCount := ticketCount + 1;
        if trip[n].ticketNo == ticketNo {
          matched := Some(trip[n]);
          assert (seen + [trip[n]])[|seen|] == trip[n];
        } else if matched.Some? {
          ghost var at := LastExists(seen, ticketNo);
          assert (seen + [trip[n]])[at] == seen[at];
        }
        LastAfter(seen, trip[n], ticketNo);
      }
      assert trip[..|trip|] == trip;
    }
    assert trips[..|trips|] == trips;
  }

  /** One more ticket is the last named so, or leaves the last one where it was. */
  lemma LastAfter(seen: seq<PolicyTicket>, t: PolicyTicket, ticketNo: string)
    ensures forall i: nat | LastNamed(seen + [t], ticketNo, i) ::
              if t.ticketNo == ticketNo then i == |seen| else LastNamed(seen, ticketNo, i)
    ensures Named(seen + [t], ticketNo) <==> (t.ticketNo == ticketNo || Named(seen, ticketNo))
  {
    var ts := seen + [t];
    assert ts[|seen|] == t;
    forall i: nat | LastNamed(ts, ticketNo, i)
      ensures if t.ticketNo == ticketNo then i == |seen| else LastNamed(seen, ticketNo, i)
    {
      if t.ticketNo != ticketNo {
        assert forall j | i < j < |seen| :: ts[j] == seen[j];
      }
    }
    if Named(seen, ticketNo) {
      var i :| 0 <= i < |seen| && seen[i].ticketNo == ticketNo;
      assert ts[i].ticketNo == ticketNo;
    }
  }

  /** The cost sync's reading of a policy. */
  method RefundFromPolicy(policy: Policy, ticketNo: string) returns (r: Option<Amount>)
    ensures Attributed(policy, Tickets(policy), ticketNo, r)
  {
    var matched, ticketCount := LastMatch(policy.trips, ticketNo);
    if matched.Some? {
      ghost var last := LastExists(Tickets(policy), ticketNo);
    }
    if matched.Some? && matched.value.refundAmount > 0.0 {
      var currency := NormalizeCurrency(matched.value.currencyCode, policy.currencyCode);
      return Some(Amount(matched.value.refundAmount, currency));
    }
    if policy.totalRefundAmount > 0.0 && (ticketCount == 0 || (ticketCount == 1 && matched.Some?)) {
      return Some(Amount(policy.totalRefundAmount, NormalizeCurrency(policy.currencyCode, "")));
    }
    return None;
  }

  /** The terminator's reading, which the program writes out a second time. */
  method RefundAmount(policy: Policy, ticketNo: string) returns (r: Option<Amount>)
    ensures Attributed(policy, Tickets(policy), ticketNo, r)
  {
    var matched, ticketCount := LastMatch(policy.trips, ticketNo);
    if matched.Some? {
      ghost var last := LastExists(Tickets(policy), ticketNo);
    }
    if matched.Some? && matched.value.refundAmount > 0.0 {
      r := Some(Amount(matched.value.refundAmount, NormalizeCurrency(matched.value.currencyCode, policy.currencyCode)));
    } else if policy.totalRefundAmount > 0.0 && (ticketCount == 0 || (ticketCount == 1 && matched.Some?)) {
      r := Some(Amount(policy.totalRefundAmount, NormalizeCurrency(policy.currencyCode, "")));
    } else {
      r := None;
    }
  }

  /** So the two agree on every policy. */
  lemma {:induction false} ReadersAgree(policy: Policy, ts: seq<PolicyTicket>, ticketNo: string,
                                        one: Option<Amount>, other: Option<Amount>)
    requires Attributed(policy, ts, ticketNo, one) && Attributed(policy, ts, ticketNo, other)
    ensures one == other
  {
    if Named(ts, ticketNo) {
      var i := LastExists(ts, ticketNo);
    }
  }

  // ---------------------------------------------------------------- picking the ticket

  method RefundTicket(policy: Policy, ticketNo: string) returns (r: Option<PolicyTicket>)
    ensures Refundable(Tickets(policy), ticketNo, r)
  {
    var sole: Option<PolicyTicket>, ticketCount := None, 0;
    for m := 0 to |policy.trips|
      invariant ticketCount == |Flatten(policy.trips[..m])|
      invariant !Named(Flatten(policy.trips[..m]), ticketNo)
      invariant ticketCount == 1 ==> sole == Some(Flatten(policy.trips[..m])[0])
    {
      var trip := policy.trips[m];
      ghost var before := Flatten(policy.trips[..m]);
      assert policy.trips[..m + 1][..m] == policy.trips[..m];
      for n := 0 to |trip|
        invariant ticketCount == |before| + n
        invariant !Named(before + trip[..n], ticketNo)
        invariant ticketCount == 1 ==> sole == Some((before + trip[..n])[0])
      {
        ghost var seen := before + trip[..n];
        assert before + trip[..n + 1] == seen + [trip[n]];
        LastAfter(seen, trip[n], ticketNo);
        ticketCount := ticketCount + 1;
        if trip[n].ticketNo == ticketNo {
          ghost var at := FirstHere(policy.trips, m, n, ticketNo);
          r := if trip[n].ticketData == "" then None else Some(trip[n]);
          assert Refundable(Tickets(policy), ticketNo, r) by {
            hide Flatten;
            assert FirstNamed(Tickets(policy), ticketNo, at);
          }
          return;
        }
        sole := Some(trip[n]);
      }
      assert trip[..|trip|] == trip;
    }
    assert policy.trips[..|policy.trips|] == policy.trips;
    if ticketCount == 1 && sole.value.ticketNo == "" && sole.value.ticketData != "" {
      return sole;
    }
    return None;
  }

  lemma {:induction false} FlattenStartsWith(trips: seq<seq<PolicyTicket>>, m: nat)
    requires m <= |trips|
    ensures Flatten(trips[..m]) <= Flatten(trips)
  {
    if m == |trips| {
      assert trips[..m] == trips;
    } else {
      FlattenStartsWith(trips[..|trips| - 1], m);
      assert trips[..|trips| - 1][..m] == trips[..m];
    }
  }

  /** Ticket n of trip m is the first named so when nothing before it is. */
  lemma {:induction false} FirstHere(trips: seq<seq<PolicyTicket>>, m: nat, n: nat, ticketNo: string) returns (at: nat)
    requires m < |trips| && n < |trips[m]|
    requires trips[m][n].ticketNo == ticketNo && !Named(Flatten(trips[..m]) + trips[m][..n], ticketNo)
    ensures Named(Flatten(trips), ticketNo)
    ensures FirstNamed(Flatten(trips), ticketNo, at) && Flatten(trips)[at] == trips[m][n]
  {
    at := |Flatten(trips[..m])| + n;
    FlattenStartsWith(trips, m + 1);
    assert trips[..m + 1][..m] == trips[..m];
    assert Flatten(trips)[at] == trips[m][n];
    forall j | 0 <= j < at
      ensures Flatten(trips)[j].ticketNo != ticketNo
    {
      assert Flatten(trips)[j] == (Flatten(trips[..m]) + trips[m][..n])[j];
    }
  }

  // ---------------------------------------------------------------- terminating a booking

  /** The KTMB side: what a policy request and a refund request answer; None and false are failures. */
  datatype Ktmb = Ktmb(
    policyOf: (string, string) -> Option<Policy>,
    refund: (string, string) -> bool)

  /** What one termination did: the ticket it refunded, if any, and the amount it went on to report. */
  datatype Termination = Termination(policy: Option<Policy>, refunded: Option<PolicyTicket>, reported: Option<Amount>)

  method Terminate(ktmb: Ktmb, bookingData: string, ticketData: string, ticketNo: string) returns (t: Termination)
    ensures t.policy == ktmb.policyOf(bookingData, ticketData)
    // nothing is refunded but the ticket picked, through the policy's own booking
    ensures t.refunded.Some? ==>
              && t.policy.Some?
              && Refundable(Tickets(t.policy.value), ticketNo, t.refunded)
              && ktmb.refund(t.policy.value.bookingData, t.refunded.value.ticketData)
    // it is refunded whenever it can be
    ensures t.policy.Some? && t.refunded.None? ==>
              || Refundable(Tickets(t.policy.value), ticketNo, None)
              || exists p :: Refundable(Tickets(t.policy.value), ticketNo, Some(p)) &&
                             !ktmb.refund(t.policy.value.bookingData, p.ticketData)
    // nothing is reported without a refund, and after one what is attributed to the number is
    ensures t.refunded.None? ==> t.reported.None?
    ensures t.refunded.Some? ==> Attributed(t.policy.value, Tickets(t.policy.value), ticketNo, t.reported)
  {
    t := Termination(ktmb.policyOf(bookingData, ticketData), None, None);
    if t.policy.None? {
      return;
    }
    var policy := t.policy.value;
    var ticket := RefundTicket(policy, ticketNo);
    if ticket.None? || !ktmb.refund(policy.bookingData, ticket.value.ticketData) {
      return;
    }
    var amount := RefundAmount(policy, ticketNo);
    t := t.(refunded := ticket, reported := amount);
  }

  /**
   Of a policy listing ts: what is reported is what the refunded ticket is worth exactly when the ticket bears
   the number and its first and last mention are worth the same; a ticket without the number reports nothing.
   */
  lemma {:induction false} ReportMatchesRefund(policy: Policy, ts: seq<PolicyTicket>, ticketNo: string,
                                               refunded: PolicyTicket, reported: Option<Amount>)
    returns (first: nat, last: nat)
    requires Refundable(ts, ticketNo, Some(refunded)) && Attributed(policy, ts, ticketNo, reported)
    ensures refunded.ticketNo != ticketNo ==> reported == None && !Named(ts, ticketNo)
    ensures refunded.ticketNo == ticketNo ==>
              && FirstNamed(ts, ticketNo, first) && LastNamed(ts, ticketNo, last)
              && (reported == Worth(policy, ts, refunded) <==> Own(policy, ts[first]) == Own(policy, ts[last]))
  {
    first, last := 0, 0;
    hide Named, FirstNamed, LastNamed, Own, Total;
    if Named(ts, ticketNo) {
      first :| FirstNamed(ts, ticketNo, first) &&
        Some(refunded) == if ts[first].ticketData == "" then None else Some(ts[first]);
      last :| LastNamed(ts, ticketNo, last) && reported == Worth(policy, ts, ts[last]);
      NamedWithin(ts, ticketNo, first, last);
    } else {
      NotNamed(ts, ticketNo);
    }
  }

  lemma NamedWithin(ts: seq<PolicyTicket>, ticketNo: string, first: nat, last: nat)
    requires FirstNamed(ts, ticketNo, first) && LastNamed(ts, ticketNo, last)
    ensures first <= last < |ts| && ts[first].ticketNo == ticketNo && (|ts| == 1 ==> first == last)
  {
  }

  lemma NotNamed(ts: seq<PolicyTicket>, ticketNo: string)
    requires !Named(ts, ticketNo)
    ensures forall t | t in ts :: t.ticketNo != ticketNo
  {
  }

  /** With distinct numbers the report is the refunded ticket's own amount, or the total it makes up alone. */
  lemma {:induction false} DistinctNumbersReportTheRefund(policy: Policy, ts: seq<PolicyTicket>, ticketNo: string,
                                                          refunded: PolicyTicket, reported: Option<Amount>)
    requires Refundable(ts, ticketNo, Some(refunded)) && Attributed(policy, ts, ticketNo, reported)
    requires Distinct(ts)
    ensures reported.Some? ==>
              && refunded.ticketNo == ticketNo
              && (reported == Own(policy, refunded) || (ts == [refunded] && reported == Total(policy)))
    ensures refunded.ticketNo == ticketNo ==> reported == Worth(policy, ts, refunded)
  {
    var first, last := ReportMatchesRefund(policy, ts, ticketNo, refunded, reported);
    if refunded.ticketNo == ticketNo {
      assert ts[first] == refunded;
      assert first == last;
    }
  }

  /** A number listed twice: the first mention is refunded, the second one's amount is reported. */
  lemma {:induction false} RepeatedNumberMisreports()
    returns (policy: Policy, refunded: PolicyTicket, reported: Option<Amount>)
    ensures Refundable(Tickets(policy), "T1", Some(refunded)) && Attributed(policy, Tickets(policy), "T1", reported)
    ensures refunded.refundAmount == 5.0 && reported.Some? && reported.value.value == 30.0
  {
    refunded := PolicyTicket("T1", "outbound", 5.0, "MYR");
    var other := PolicyTicket("T1", "return", 30.0, "MYR");
    policy := Policy("B1", [[refunded, other]], 35.0, "MYR");
    reported := Own(policy, other);
    OneTrip([refunded, other]);
    hide Flatten, NormalizeCurrency;
    TwoOfANumber(policy, refunded, other);
  }

  lemma OneTrip(trip: seq<PolicyTicket>)
    ensures Flatten([trip]) == trip
  {
    assert [trip][..0] == [];
  }

  lemma TwoOfANumber(policy: Policy, first: PolicyTicket, second: PolicyTicket)
    requires first.ticketNo == second.ticketNo && first.ticketData != "" && Own(policy, second).Some?
    ensures Refundable([first, second], first.ticketNo, Some(first))
    ensures Attributed(policy, [first, second], first.ticketNo, Own(policy, second))
  {
    hide Own;
    var ts := [first, second];
    assert FirstNamed(ts, first.ticketNo, 0) && LastNamed(ts, first.ticketNo, 1);
    assert ts[0].ticketNo == first.ticketNo;
  }
}
