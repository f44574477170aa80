/**
 The poller's watch tiers: the earliest targets and the earliest freshly released ones are watched at full
 power, the next ones lightly, and the rest not at all.
 */
module PollerTiers {
  import opened Sharding
  import opened Sorting

  datatype Target = Target(date: string, from: string)

  datatype Tiers = Tiers(maxStreams: int, maxBoost: int, maxLight: int)

  // ---------------------------------------------------------------- choosing from a list

  ghost function Chosen(s: seq<Target>, p: Target -> bool): seq<Target> {
    if s == [] then [] else (if p(s[0]) then [s[0]] else []) + Chosen(s[1..], p)
  }

  ghost function FirstOf(s: seq<Target>, limit: int): seq<Target> {
    if limit <= 0 then [] else if |s| <= limit then s else s[..limit]
  }

  /** s without the first `limit` of the elements p chooses. */
  ghost function Beyond(s: seq<Target>, p: Target -> bool, limit: int): seq<Target> {
    if s == [] then []
    else if p(s[0]) && limit > 0 then Beyond(s[1..], p, limit - 1)
    else [s[0]] + Beyond(s[1..], p, limit)
  }

  ghost function Window(s: seq<Target>, cap: int): seq<Target> {
    if cap > 0 then FirstOf(s, cap) else s
  }

  ghost function Rest(s: seq<Target>, cap: int): seq<Target> {
    s[|Window(s, cap)|..]
  }

  // ---------------------------------------------------------------- one target more

  lemma NoneLeft(p: Target -> bool, limit: int)
    ensures Chosen([], p) == [] && FirstOf([], limit) == [] && Beyond([], p, limit) == []
  {
  }

  lemma ChosenOfMore(x: Target, s: seq<Target>, p: Target -> bool)
    ensures Chosen([x] + s, p) == (if p(x) then [x] else []) + Chosen(s, p)
  {
    assert ([x] + s)[0] == x && ([x] + s)[1..] == s;
  }

  lemma BeyondOfMore(x: Target, s: seq<Target>, p: Target -> bool, limit: int)
    ensures Beyond([x] + s, p, limit) ==
            if p(x) && limit > 0 then Beyond(s, p, limit - 1) else [x] + Beyond(s, p, limit)
  {
    assert ([x] + s)[0] == x && ([x] + s)[1..] == s;
  }

  lemma FirstOfMore(x: Target, s: seq<Target>, limit: int)
    ensures FirstOf([x] + s, limit) == if limit <= 0 then [] else [x] + FirstOf(s, limit - 1)
  {
    if 0 < limit < |s| + 1 {
      assert ([x] + s)[..limit] == [x] + s[..limit - 1];
    }
  }

  lemma NoneOf(s: seq<Target>, limit: int)
    ensures limit <= 0 ==> FirstOf(s, limit) == []
  {
  }

  lemma Choose(s: seq<Target>, p: Target -> bool, limit: int)
    requires s != [] && p(s[0]) && limit > 0
    ensures FirstOf(Chosen(s, p), limit) == [s[0]] + FirstOf(Chosen(s[1..], p), limit - 1)
    ensures Beyond(s, p, limit) == Beyond(s[1..], p, limit - 1)
  {
    hide *;
    var x, tail := s[0], s[1..];
    assert s == [x] + tail;
    ChosenOfMore(x, tail, p);
    BeyondOfMore(x, tail, p, limit);
    FirstOfMore(x, Chosen(tail, p), limit);
  }

  lemma PassOver(s: seq<Target>, p: Target -> bool, limit: int)
    requires s != [] && !(p(s[0]) && limit > 0)
    ensures FirstOf(Chosen(s, p), limit) == FirstOf(Chosen(s[1..], p), limit)
    ensures Beyond(s, p, limit) == [s[0]] + Beyond(s[1..], p, limit)
  {
    hide *;
    var x, tail := s[0], s[1..];
    assert s == [x] + tail;
    ChosenOfMore(x, tail, p);
    BeyondOfMore(x, tail, p, limit);
    if p(x) {
      NoneOf(Chosen(s, p), limit);
      NoneOf(Chosen(tail, p), limit);
    } else {
      assert [] + Chosen(tail, p) == Chosen(tail, p);
    }
  }

  /** The list is made up of these two, target for target. */
  ghost predicate Splits(s: seq<Target>, few: seq<Target>, others: seq<Target>) {
    multiset(s) == multiset(few) + multiset(others)
  }

  /** One more target on either side of a split list. */
  lemma SplitOfMore(x: Target, tail: seq<Target>, few: seq<Target>, others: seq<Target>)
    requires Splits(tail, few, others)
    ensures Splits([x] + tail, [x] + few, others) && Splits([x] + tail, few, [x] + others)
  {
  }

  /** What is chosen first and what lies beyond make up the list. */
  lemma {:induction false} ChosenAndBeyond(s: seq<Target>, p: Target -> bool, limit: int)
    ensures Splits(s, FirstOf(Chosen(s, p), limit), Beyond(s, p, limit))
  {
    if s == [] {
      NoneLeft(p, limit);
    } else {
      hide *;
      var x, tail := s[0], s[1..];
      assert s == [x] + tail;
      if p(x) && limit > 0 {
        ChosenAndBeyond(tail, p, limit - 1);
        Choose(s, p, limit);
        SplitOfMore(x, tail, FirstOf(Chosen(tail, p), limit - 1), Beyond(tail, p, limit - 1));
      } else {
        ChosenAndBeyond(tail, p, limit);
        PassOver(s, p, limit);
        SplitOfMore(x, tail, FirstOf(Chosen(tail, p), limit), Beyond(tail, p, limit));
      }
    }
  }

  // ---------------------------------------------------------------- the order of targets

  /** Earlier date first, then direction; `when` is the parsed date, the zero time when it does not parse. */
  function Earlier(when: string -> int): (Target, Target) -> bool {
    (a: Target, b: Target) =>
      if when(a.date) == when(b.date) then Before(a.from, b.from) else when(a.date) < when(b.date)
  }

  /** A smaller date comes first, and on one date the smaller direction. */
  lemma {:induction false} EarlierMeans(when: string -> int, a: Target, b: Target)
    ensures when(a.date) < when(b.date) ==> Earlier(when)(a, b) && !Earlier(when)(b, a)
    ensures when(a.date) == when(b.date) ==> (Earlier(when)(a, b) <==> Before(a.from, b.from))
  {
    hide Before;
  }

  lemma EarlierIsStrictWeak(when: string -> int)
    ensures StrictWeakOrder(Earlier(when))
  {
    var less := Earlier(when);
    forall x, y | less(x, y)
      ensures !less(y, x)
    {
      BeforeIsTotal(x.from, y.from);
    }
    forall x, y, z | less(x, z)
      ensures less(x, y) || less(y, z)
    {
      BeforeIsTotal(x.from, y.from);
      if Before(y.from, x.from) && Before(x.from, z.from) {
        BeforeIsTransitive(y.from, x.from, z.from);
      }
    }
  }

  /** Sort the targets in place, earliest first and ties as they were; the first n are the window. */
  method CapStreams(jobs: array<Target>, cap: int, when: string -> int) returns (n: nat)
    modifies jobs
    ensures Sorted(jobs[..], Earlier(when)) && multiset(jobs[..]) == multiset(old(jobs[..]))
    ensures forall k :: Ties(jobs[..], k, Earlier(when)) == Ties(old(jobs[..]), k, Earlier(when))
    ensures n <= jobs.Length && jobs[..n] == Window(jobs[..], cap)
  {
    EarlierIsStrictWeak(when);
    ghost var was := jobs[..];
    var sorted := Sort(jobs[..], Earlier(when));
    forall i | 0 <= i < jobs.Length {
      jobs[i] := sorted[i];
    }
    assert jobs[..] == sorted;
    n := jobs.Length;
    if cap > 0 && jobs.Length > cap {
      n := cap;
    }
  }

  // ---------------------------------------------------------------- the tiers

  /** A released date's boost lasts until its expiry. */
  function Boosted(boost: map<string, int>, now: int): Target -> bool {
    (t: Target) => t.date in boost && boost[t.date] > now
  }

  method SelectTargets(jobs: array<Target>, boost: map<string, int>, now: int, tiers: Tiers, when: string -> int)
    returns (full: seq<Target>, light: seq<Target>, ghost dropped: seq<Target>)
    modifies jobs
    // the list is sorted in place
    ensures Sorted(jobs[..], Earlier(when)) && multiset(jobs[..]) == multiset(old(jobs[..]))
    ensures forall k :: Ties(jobs[..], k, Earlier(when)) == Ties(old(jobs[..]), k, Earlier(when))
    // the window and then the earliest boosted targets outside it; the earliest of what remains
    ensures var rest := Rest(jobs[..], tiers.maxStreams);
            var remaining := Beyond(rest, Boosted(boost, now), tiers.maxBoost);
            && full == Window(jobs[..], tiers.maxStreams) + FirstOf(Chosen(rest, Boosted(boost, now)), tiers.maxBoost)
            && light == FirstOf(remaining, tiers.maxLight)
            && light + dropped == remaining
    // nothing is lost or watched twice
    ensures multiset(full) + multiset(light) + multiset(dropped) == multiset(old(jobs[..]))
  {
    hide Earlier, Boosted, Chosen, Beyond, FirstOf, Sorted, Ties, Window;
    var n := CapStreams(jobs, tiers.maxStreams, when);
    ghost var sorted := jobs[..];
    var window, rest := jobs[..n], jobs[n..];
    full, light, dropped := FillTiers(window, rest, boost, now, tiers);
    ghost var p := Boosted(boost, now);
    assert Rest(sorted, tiers.maxStreams) == rest;
    ChosenAndBeyond(rest, p, tiers.maxBoost);
    assert sorted == window + rest;
    assert multiset(Beyond(rest, p, tiers.maxBoost)) == multiset(light) + multiset(dropped);
  }

  /** The pass over the targets outside the window. */
  method FillTiers(window: seq<Target>, rest: seq<Target>, boost: map<string, int>, now: int, tiers: Tiers)
    returns (full: seq<Target>, light: seq<Target>, ghost dropped: seq<Target>)
    ensures full == window + FirstOf(Chosen(rest, Boosted(boost, now)), tiers.maxBoost)
    ensures light == FirstOf(Beyond(rest, Boosted(boost, now), tiers.maxBoost), tiers.maxLight)
    ensures light + dropped == Beyond(rest, Boosted(boost, now), tiers.maxBoost)
  {
    hide Chosen, Beyond, FirstOf, Filled;
    full, light, dropped := window, [], [];
    var boosted := 0;
    ghost var p := Boosted(boost, now);
    ghost var extra, remaining := [], [];
    FilledAtFirst(rest, p, tiers);
    for i := 0 to |rest|
      invariant full == window + extra && |extra| == boosted
      invariant Filled(rest, i, p, tiers.maxBoost, extra, remaining)
      invariant light == FirstOf(remaining, tiers.maxLight) && light + dropped == remaining
    {
      var j := rest[i];
      FilledMovesOn(rest, i, p, tiers.maxBoost, extra, remaining);
      if j.date in boost && boost[j.date] > now && boosted < tiers.maxBoost {
        full, extra := full + [j], extra + [j];
        boosted := boosted + 1;
        continue;
      }
      OneMore(remaining, j, tiers.maxLight);
      remaining := remaining + [j];
      if tiers.maxLight > 0 && |light| < tiers.maxLight {
        light := light + [j];
      } else {
        dropped := dropped + [j];
      }
    }
    FilledAtLast(rest, p, tiers.maxBoost, extra, remaining);
  }

  /** After i targets, `extra` and `remaining` hold what is chosen and passed over of them. */
  ghost predicate Filled(rest: seq<Target>, i: nat, p: Target -> bool, maxBoost: int,
                         extra: seq<Target>, remaining: seq<Target>)
    requires i <= |rest|
  {
    && extra + FirstOf(Chosen(rest[i..], p), maxBoost - |extra|) == FirstOf(Chosen(rest, p), maxBoost)
    && remaining + Beyond(rest[i..], p, maxBoost - |extra|) == Beyond(rest, p, maxBoost)
  }

  lemma FilledAtFirst(rest: seq<Target>, p: Target -> bool, tiers: Tiers)
    ensures Filled(rest, 0, p, tiers.maxBoost, [], [])
    ensures FirstOf([], tiers.maxLight) == []
  {
    assert rest[0..] == rest;
    NoneLeft(p, tiers.maxLight);
    hide Chosen, Beyond, FirstOf;
  }

  lemma FilledMovesOn(rest: seq<Target>, i: nat, p: Target -> bool, maxBoost: int,
                      extra: seq<Target>, remaining: seq<Target>)
    requires i < |rest| && Filled(rest, i, p, maxBoost, extra, remaining)
    ensures if p(rest[i]) && |extra| < maxBoost then Filled(rest, i + 1, p, maxBoost, extra + [rest[i]], remaining)
            else Filled(rest, i + 1, p, maxBoost, extra, remaining + [rest[i]])
  {
    hide Chosen, Beyond, FirstOf;
    var x, left := rest[i], maxBoost - |extra|;
    assert rest[i..][0] == x && rest[i..][1..] == rest[i + 1..];
    if p(x) && left > 0 {
      Choose(rest[i..], p, left);
      Regroup(extra, x, FirstOf(Chosen(rest[i + 1..], p), left - 1), []);
    } else {
      PassOver(rest[i..], p, left);
      Regroup(remaining, x, Beyond(rest[i + 1..], p, left), []);
    }
  }

  lemma FilledAtLast(rest: seq<Target>, p: Target -> bool, maxBoost: int, extra: seq<Target>, remaining: seq<Target>)
    requires Filled(rest, |rest|, p, maxBoost, extra, remaining)
    ensures extra == FirstOf(Chosen(rest, p), maxBoost) && remaining == Beyond(rest, p, maxBoost)
  {
    assert rest[|rest|..] == [];
    NoneLeft(p, maxBoost - |extra|);
    hide Chosen, Beyond, FirstOf;
  }

  lemma Regroup(a: seq<Target>, x: Target, b: seq<Target>, c: seq<Target>)
    ensures a + ([x] + b) == (a + [x]) + b
    ensures [x] + (b + c) == ([x] + b) + c
  {
  }

  lemma OneMore(s: seq<Target>, x: Target, limit: int)
    ensures var few := FirstOf(s, limit);
            FirstOf(s + [x], limit) == if limit > 0 && |few| < limit then few + [x] else few
    ensures limit > 0 && |FirstOf(s, limit)| < limit ==> FirstOf(s, limit) == s
  {
  }

  // ---------------------------------------------------------------- what the tiers promise

  /** No element of `later` is earlier than one of `earlier`. */
  ghost predicate NoneEarlier(earlier: seq<Target>, later: seq<Target>, less: (Target, Target) -> bool) {
    forall x, y | x in earlier && y in later :: !less(y, x)
  }

  lemma PrependSorted(s: seq<Target>, part: seq<Target>, less: (Target, Target) -> bool)
    requires s != [] && Sorted(s, less) && Sorted(part, less) && forall x | x in part :: x in s[1..]
    ensures Sorted([s[0]] + part, less)
  {
    forall j | 0 <= j < |part|
      ensures !less(part[j], s[0])
    {
      assert part[j] in s[1..];
    }
  }

  lemma {:induction false} ChosenStaySorted(s: seq<Target>, p: Target -> bool, less: (Target, Target) -> bool)
    requires Sorted(s, less)
    ensures Sorted(Chosen(s, p), less) && forall x | x in Chosen(s, p) :: x in s && p(x)
  {
    if s != [] {
      ChosenStaySorted(s[1..], p, less);
      PrependSorted(s, Chosen(s[1..], p), less);
    }
  }

  lemma {:induction false} BeyondStaysSorted(s: seq<Target>, p: Target -> bool, limit: int,
                                             less: (Target, Target) -> bool)
    requires Sorted(s, less)
    ensures Sorted(Beyond(s, p, limit), less) && forall x | x in Beyond(s, p, limit) :: x in s
  {
    if s != [] {
      if p(s[0]) && limit > 0 {
        BeyondStaysSorted(s[1..], p, limit - 1, less);
      } else {
        BeyondStaysSorted(s[1..], p, limit, less);
        PrependSorted(s, Beyond(s[1..], p, limit), less);
      }
    }
  }

  /** The choice left beyond the limit is the rest of the choice. */
  lemma {:induction false} ChoiceBeyond(s: seq<Target>, p: Target -> bool, limit: int)
    ensures Chosen(s, p) == FirstOf(Chosen(s, p), limit) + Chosen(Beyond(s, p, limit), p)
  {
    if s == [] {
      NoneLeft(p, limit);
    } else {
      hide *;
      var x, tail := s[0], s[1..];
      assert s == [x] + tail;
      ChosenOfMore(x, tail, p);
      if p(x) && limit > 0 {
        Choose(s, p, limit);
        ChoiceBeyond(tail, p, limit - 1);
        Regroup([], x, FirstOf(Chosen(tail, p), limit - 1), Chosen(Beyond(tail, p, limit - 1), p));
      } else {
        PassOver(s, p, limit);
        ChoiceBeyond(tail, p, limit);
        ChosenOfMore(x, Beyond(tail, p, limit), p);
        NoneOf(Chosen(tail, p), limit);
        NoneBefore(Chosen(tail, p), Chosen(Beyond(tail, p, limit), p));
      }
    }
  }

  lemma NoneBefore(a: seq<Target>, b: seq<Target>)
    ensures [] + a == a && [] + b == b
  {
  }

  lemma {:induction false} IsChosen(s: seq<Target>, p: Target -> bool, x: Target)
    requires x in s && p(x)
    ensures x in Chosen(s, p)
  {
    if x != s[0] {
      IsChosen(s[1..], p, x);
    }
  }

  lemma SplitSorted(a: seq<Target>, b: seq<Target>, less: (Target, Target) -> bool)
    requires Sorted(a + b, less)
    ensures NoneEarlier(a, b, less) && Sorted(b, less)
  {
    var s := a + b;
    forall x, y | x in a && y in b
      ensures !less(y, x)
    {
      var i :| 0 <= i < |a| && a[i] == x;
      var j :| 0 <= j < |b| && b[j] == y;
      assert s[i] == x && s[|a| + j] == y;
    }
    forall i, j | 0 <= i < j < |b|
      ensures !less(b[j], b[i])
    {
      assert s[|a| + i] == b[i] && s[|a| + j] == b[j];
    }
  }

  /**
   Whoever is left out of a tier gave way to no later one, and only because the tier was full: the window
   before the rest, the boosted targets in `extra` before the boosted ones that remain, the light before
   the dropped.
   */
  lemma {:induction false} TiersTakeTheEarliest(s: seq<Target>, n: nat, p: Target -> bool, maxBoost: int,
                                                  maxLight: int, less: (Target, Target) -> bool)
    requires n <= |s| && Sorted(s, less)
    ensures var extra := FirstOf(Chosen(s[n..], p), maxBoost);
            var remaining := Beyond(s[n..], p, maxBoost);
            var light := FirstOf(remaining, maxLight);
            && NoneEarlier(s[..n], s[n..], less)
            && NoneEarlier(extra, Chosen(remaining, p), less)
            && (forall y | y in remaining && p(y) :: |extra| >= maxBoost)
            && NoneEarlier(light, remaining[|light|..], less)
            && (|light| < |remaining| ==> |light| >= maxLight)
  {
    var rest := s[n..];
    var remaining := Beyond(rest, p, maxBoost);
    assert s == s[..n] + rest;
    SplitSorted(s[..n], rest, less);
    BoostTakesTheEarliest(rest, p, maxBoost, less);
    BeyondStaysSorted(rest, p, maxBoost, less);
    hide Sorted, Chosen, Beyond, NoneEarlier;
    FirstAreEarliest(remaining, maxLight, less);
  }

  lemma BoostTakesTheEarliest(rest: seq<Target>, p: Target -> bool, maxBoost: int, less: (Target, Target) -> bool)
    requires Sorted(rest, less)
    ensures var extra := FirstOf(Chosen(rest, p), maxBoost);
            var remaining := Beyond(rest, p, maxBoost);
            NoneEarlier(extra, Chosen(remaining, p), less) && forall y | y in remaining && p(y) :: |extra| >= maxBoost
  {
    hide Sorted, NoneEarlier, Beyond, Chosen;
    var extra := FirstOf(Chosen(rest, p), maxBoost);
    var remaining := Beyond(rest, p, maxBoost);
    ChosenStaySorted(rest, p, less);
    ChoiceBeyond(rest, p, maxBoost);
    SplitSorted(extra, Chosen(remaining, p), less);
    forall y | y in remaining && p(y)
      ensures |extra| >= maxBoost
    {
      IsChosen(remaining, p, y);
    }
  }

  lemma FirstAreEarliest(s: seq<Target>, limit: int, less: (Target, Target) -> bool)
    requires Sorted(s, less)
    ensures var few := FirstOf(s, limit);
            few <= s && NoneEarlier(few, s[|few|..], less) && (|few| < |s| ==> |few| >= limit)
  {
    hide Sorted, NoneEarlier;
    var few := FirstOf(s, limit);
    assert s == few + s[|few|..];
    SplitSorted(few, s[|few|..], less);
  }

  // ---------------------------------------------------------------- sharding a tier

  /** The shards reproduce the tier in order, however it is cut. */
  method ShardTargets(targets: seq<Target>, size: int) returns (shards: seq<seq<Target>>)
    ensures Concat(shards) == targets
    ensures size > 0 && targets != [] ==> IsSharding(targets, size, shards)
    ensures size <= 0 || targets == [] ==> shards == [targets]
  {
    if size <= 0 || |targets| <= size {
      shards := [targets];
      assert Concat(shards[1..]) == [];
      return;
    }
    shards := Cut(targets, size);
  }
}
