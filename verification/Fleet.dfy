/**
 Planning a prober epoch: the demanded slots in one fixed order, cut into shards, each shard probed by
 `fanout` jobs whose names tell them apart.
 */
module Fleet {
  import opened Wrappers
  import opened Demand
  import opened Sharding
  import opened Sorting

  datatype Target = Target(direction: string, date: string, time: string, needed: int)

  function SlotOf(t: Target): Slot {
    Slot(t.direction, t.date, t.time)
  }

  ghost predicate IsDemanded(counts: Count, t: Target) {
    t.needed > 0 && Lookup(counts, SlotOf(t)) == Some(t.needed)
  }

  // ---------------------------------------------------------------- the target list

  predicate TargetLess(a: Target, b: Target) {
    if a.date != b.date then Before(a.date, b.date)
    else if a.direction != b.direction then Before(a.direction, b.direction)
    else Before(a.time, b.time)
  }

  ghost predicate StrictlySorted(targets: seq<Target>) {
    forall i, j | 0 <= i < j < |targets| :: TargetLess(targets[i], targets[j])
  }

  /** The list a snapshot stands for: its demanded slots, by date, direction and time. */
  ghost predicate IsTargetList(counts: Count, targets: seq<Target>) {
    StrictlySorted(targets) && forall t :: t in targets <==> IsDemanded(counts, t)
  }

  /** By date, then direction, then time. */
  lemma TargetLessMeans(a: Target, b: Target)
    ensures a.date != b.date ==> (TargetLess(a, b) <==> Before(a.date, b.date))
    ensures a.date == b.date && a.direction != b.direction ==> (TargetLess(a, b) <==> Before(a.direction, b.direction))
    ensures a.date == b.date && a.direction == b.direction ==> (TargetLess(a, b) <==> Before(a.time, b.time))
  {
    hide Before;
  }

  lemma TargetsAreOrdered(a: Target, b: Target)
    ensures !(TargetLess(a, b) && TargetLess(b, a))
    ensures !TargetLess(a, a)
    ensures SlotOf(a) != SlotOf(b) ==> TargetLess(a, b) || TargetLess(b, a)
  {
    BeforeIsTotal(a.date, b.date);
    BeforeIsTotal(a.direction, b.direction);
    BeforeIsTotal(a.time, b.time);
    NotBeforeItself(a.time);
  }

  lemma TargetLessIsTransitive(a: Target, b: Target, c: Target)
    requires TargetLess(a, b) && TargetLess(b, c)
    ensures TargetLess(a, c)
  {
    hide Before;
    if a.date != b.date && b.date != c.date {
      BeforeIsTotal(a.date, b.date);
      BeforeIsTransitive(a.date, b.date, c.date);
    } else if a.date == b.date == c.date && a.direction != b.direction && b.direction != c.direction {
      BeforeIsTotal(a.direction, b.direction);
      BeforeIsTransitive(a.direction, b.direction, c.direction);
    } else if a.date == b.date == c.date && a.direction == b.direction == c.direction {
      BeforeIsTransitive(a.time, b.time, c.time);
    }
  }

  lemma TargetLessIsStrictWeak()
    ensures StrictWeakOrder(TargetLess)
  {
    hide TargetLess;
    forall x, y | TargetLess(x, y)
      ensures !TargetLess(y, x)
    {
      TargetsAreOrdered(x, y);
    }
    forall x, y, z | TargetLess(x, z)
      ensures TargetLess(x, y) || TargetLess(y, z)
    {
      WeakOrder(x, y, z);
    }
  }

  lemma WeakOrder(x: Target, y: Target, z: Target)
    requires TargetLess(x, z)
    ensures TargetLess(x, y) || TargetLess(y, z)
  {
    if SlotOf(x) == SlotOf(y) {
      assert TargetLess(y, z);
    } else {
      hide TargetLess;
      TargetsAreOrdered(x, y);
      if TargetLess(y, x) {
        TargetLessIsTransitive(y, x, z);
      }
    }
  }

  method TargetsFromCount(counts: Count) returns (targets: seq<Target>)
    ensures IsTargetList(counts, targets)
  {
    targets := [];
    DemandIsListed(counts);
    hide IsDemanded;
    var directions := counts.Keys;
    while directions != {}
      invariant directions <= counts.Keys
      invariant Apart(targets)
      invariant forall t :: t in targets <==> IsDemanded(counts, t) && t.direction !in directions
      decreases |directions|
    {
      var direction :| direction in directions;
      var dates := counts[direction].Keys;
      while dates != {}
        invariant dates <= counts[direction].Keys
        invariant Apart(targets)
        invariant forall t :: t in targets <==>
                    && IsDemanded(counts, t)
                    && (t.direction !in directions || (t.direction == direction && t.date !in dates))
        decreases |dates|
      {
        var date :| date in dates;
        var times := counts[direction][date].Keys;
        while times != {}
          invariant times <= counts[direction][date].Keys
          invariant Apart(targets)
          invariant forall t :: t in targets <==>
                      && IsDemanded(counts, t)
                      && (t.direction !in directions || (t.direction == direction
                          && (t.date !in dates || (t.date == date && t.time !in times))))
          decreases |times|
        {
          var departure :| departure in times;
          times := times - {departure};
          var needed := counts[direction][date][departure];
          DemandedHere(counts, direction, date, departure);
          if needed > 0 {
            targets := targets + [Target(direction, date, departure, needed)];
          }
        }
        dates := dates - {date};
      }
      directions := directions - {direction};
    }
    targets := SortTargets(targets);
  }

  lemma DemandIsListed(counts: Count)
    ensures forall t | IsDemanded(counts, t) ::
              t.direction in counts && t.date in counts[t.direction] && t.time in counts[t.direction][t.date]
  {
  }

  lemma DemandedHere(counts: Count, direction: string, date: string, time: string)
    requires direction in counts && date in counts[direction] && time in counts[direction][date]
    ensures var needed := counts[direction][date][time];
            forall t | SlotOf(t) == Slot(direction, date, time) ::
              IsDemanded(counts, t) <==> needed > 0 && t == Target(direction, date, time, needed)
  {
  }

  ghost predicate Apart(targets: seq<Target>) {
    forall i, j | 0 <= i < j < |targets| :: SlotOf(targets[i]) != SlotOf(targets[j])
  }

  method SortTargets(targets: seq<Target>) returns (sorted: seq<Target>)
    requires Apart(targets)
    ensures StrictlySorted(sorted) && forall t :: t in sorted <==> t in targets
  {
    TargetLessIsStrictWeak();
    sorted := Sort(targets, TargetLess);
    SameElements(targets, sorted);
    ApartSurvives(targets, sorted);
    hide TargetLess;
    forall i, j | 0 <= i < j < |sorted|
      ensures TargetLess(sorted[i], sorted[j])
    {
      TargetsAreOrdered(sorted[i], sorted[j]);
    }
  }

  lemma SameElements<T>(a: seq<T>, b: seq<T>)
    requires multiset(a) == multiset(b)
    ensures forall t :: t in a <==> t in b
  {
    forall t
      ensures t in a <==> t in b
    {
      assert t in multiset(a) <==> t in multiset(b);
    }
  }

  lemma {:induction false} ApartSurvives(a: seq<Target>, b: seq<Target>)
    requires Apart(a) && multiset(a) == multiset(b)
    ensures Apart(b)
  {
    forall i, j | 0 <= i < j < |b|
      ensures SlotOf(b[i]) != SlotOf(b[j])
    {
      SameElements(a, b);
      if b[i] == b[j] {
        assert b == b[..i] + [b[i]] + b[i + 1..j] + [b[j]] + b[j + 1..];
        assert multiset(b)[b[i]] >= 2;
        OnceIfApart(a, b[i]);
      } else {
        assert b[i] in a && b[j] in a;
      }
    }
  }

  lemma {:induction false} OnceIfApart(a: seq<Target>, t: Target)
    requires Apart(a)
    ensures multiset(a)[t] == if t in a then 1 else 0
  {
    if a != [] {
      assert a == [a[0]] + a[1..];
      OnceIfApart(a[1..], t);
    }
  }

  /** The list does not depend on the order the snapshot's maps are walked in. */
  lemma {:induction false} TargetListIsUnique(counts: Count, a: seq<Target>, b: seq<Target>)
    requires IsTargetList(counts, a) && IsTargetList(counts, b)
    ensures a == b
  {
    SameSortedList(a, b);
  }

  lemma {:induction false} SameSortedList(a: seq<Target>, b: seq<Target>)
    requires StrictlySorted(a) && StrictlySorted(b) && forall t :: t in a <==> t in b
    ensures a == b
  {
    hide TargetLess;
    assert a != [] ==> a[0] in b;
    assert b != [] ==> b[0] in a;
    if a != [] {
      if a[0] != b[0] {
        assert a[0] in b && b[0] in a;
        TargetsAreOrdered(a[0], b[0]);
        assert false;
      }
      forall t
        ensures t in a[1..] <==> t in b[1..]
      {
        TargetsAreOrdered(a[0], t);
        if t in a[1..] {
          assert t in b && t != b[0];
        }
        if t in b[1..] {
          assert t in a && t != a[0];
        }
      }
      SameSortedList(a[1..], b[1..]);
      assert a == [a[0]] + a[1..] && b == [b[0]] + b[1..];
    }
  }

  // ---------------------------------------------------------------- job names

  function Digit(d: nat): char
    requires d < 10
  {
    ('0' as int + d) as char
  }

  function Decimal(n: nat): string {
    if n < 10 then [Digit(n)] else Decimal(n / 10) + [Digit(n % 10)]
  }

  /** The number a string of digits spells. */
  ghost function Reading(s: string): int {
    if s == "" then 0 else 10 * Reading(s[..|s| - 1]) + (s[|s| - 1] as int - '0' as int)
  }

  lemma {:induction false} DecimalReadsBack(n: nat)
    ensures Reading(Decimal(n)) == n
    ensures '-' !in Decimal(n)
    ensures Decimal(n) != "" && (forall i | 0 <= i < |Decimal(n)| :: '0' <= Decimal(n)[i] <= '9')
    ensures n > 0 ==> Decimal(n)[0] != '0'
  {
    var s := Decimal(n);
    if n < 10 {
      assert s[..0] == "";
    } else {
      DecimalReadsBack(n / 10);
      assert s[..|s| - 1] == Decimal(n / 10);
    }
  }

  function JobName(epoch: nat, shard: nat, fanout: nat): string {
    "tin-prober-" + (Decimal(epoch) + "-" + (Decimal(shard) + "-" + Decimal(fanout)))
  }

  lemma {:induction false} SplitAtDash(a: string, b: string, c: string, d: string)
    requires '-' !in a && '-' !in c && a + "-" + b == c + "-" + d
    ensures a == c && b == d
  {
    var s := a + "-" + b;
    assert s == c + "-" + d;
    assert s[|a|] == '-' && s[|c|] == '-';
    assert a == s[..|a|] && c == s[..|c|];
    assert b == s[|a| + 1..] && d == s[|c| + 1..];
  }

  /** The prefix and the three numbers in decimal, without leading zeros, each after a dash. */
  lemma {:induction false} JobNameReads(epoch: nat, shard: nat, fanout: nat) returns (e: string, s: string, f: string)
    ensures JobName(epoch, shard, fanout) == "tin-prober-" + e + "-" + s + "-" + f
    ensures Reading(e) == epoch && Reading(s) == shard && Reading(f) == fanout
    ensures forall i | 0 <= i < |e| :: '0' <= e[i] <= '9'
    ensures forall i | 0 <= i < |s| :: '0' <= s[i] <= '9'
    ensures forall i | 0 <= i < |f| :: '0' <= f[i] <= '9'
  {
    e, s, f := Decimal(epoch), Decimal(shard), Decimal(fanout);
    DecimalReadsBack(epoch);
    DecimalReadsBack(shard);
    DecimalReadsBack(fanout);
    hide Decimal, Reading;
    assert JobName(epoch, shard, fanout) == "tin-prober-" + e + "-" + s + "-" + f;
  }

  lemma {:induction false} JobNamesAreInjective(e: nat, s: nat, f: nat, e': nat, s': nat, f': nat)
    requires JobName(e, s, f) == JobName(e', s', f')
    ensures e == e' && s == s' && f == f'
  {
    DecimalReadsBack(e); DecimalReadsBack(e');
    DecimalReadsBack(s); DecimalReadsBack(s');
    DecimalReadsBack(f); DecimalReadsBack(f');
    hide Decimal, Reading;
    var prefix := "tin-prober-";
    var tail := Decimal(s) + "-" + Decimal(f);
    var tail' := Decimal(s') + "-" + Decimal(f');
    var rest := Decimal(e) + "-" + tail;
    var rest' := Decimal(e') + "-" + tail';
    assert rest == JobName(e, s, f)[|prefix|..];
    assert rest' == JobName(e', s', f')[|prefix|..];
    SplitAtDash(Decimal(e), tail, Decimal(e'), tail');
    SplitAtDash(Decimal(s), Decimal(f), Decimal(s'), Decimal(f'));
  }

  // ---------------------------------------------------------------- the plan of an epoch

  /** One creation: the arguments it is made with. */
  datatype Job = Job(epoch: nat, shard: nat, fanout: nat, targets: seq<Target>)

  function NameOf(job: Job): string {
    JobName(job.epoch, job.shard, job.fanout)
  }

  /** The first `fanout` jobs of one shard. */
  ghost function Row(epoch: nat, shard: nat, targets: seq<Target>, fanout: nat): seq<Job> {
    if fanout == 0 then []
    else Row(epoch, shard, targets, fanout - 1) + [Job(epoch, shard, fanout - 1, targets)]
  }

  /** The jobs of the first n shards. */
  ghost function Jobs(epoch: nat, shards: seq<seq<Target>>, n: nat, fanout: nat): seq<Job>
    requires n <= |shards|
  {
    if n == 0 then [] else Jobs(epoch, shards, n - 1, fanout) + Row(epoch, n - 1, shards[n - 1], fanout)
  }

  ghost function Names(jobs: seq<Job>): seq<string> {
    seq(|jobs|, i requires 0 <= i < |jobs| => NameOf(jobs[i]))
  }

  /** How many times the jobs probe a target between them. */
  ghost function Probed(jobs: seq<Job>, t: Target): nat {
    if jobs == [] then 0 else Probed(jobs[..|jobs| - 1], t) + multiset(jobs[|jobs| - 1].targets)[t]
  }

  ghost predicate IsPlan(counts: Count, epoch: nat, size: nat, fanout: nat, jobs: seq<Job>) {
    exists targets: seq<Target>, shards: seq<seq<Target>> ::
      && IsTargetList(counts, targets) && IsSharding(targets, size, shards)
      && jobs == Jobs(epoch, shards, |shards|, fanout)
  }

  /** Replicas that see the same snapshot plan the same jobs under the same names. */
  lemma {:induction false} ReplicasAgree(counts: Count, epoch: nat, size: nat, fanout: nat, one: seq<Job>,
                                         other: seq<Job>)
    requires IsPlan(counts, epoch, size, fanout, one) && IsPlan(counts, epoch, size, fanout, other)
    ensures one == other
  {
    hide IsTargetList, IsSharding;
    var targets: seq<Target>, shards: seq<seq<Target>> :|
      && IsTargetList(counts, targets) && IsSharding(targets, size, shards)
      && one == Jobs(epoch, shards, |shards|, fanout);
    var targets': seq<Target>, shards': seq<seq<Target>> :|
      && IsTargetList(counts, targets') && IsSharding(targets', size, shards')
      && other == Jobs(epoch, shards', |shards'|, fanout);
    TargetListIsUnique(counts, targets, targets');
    ShardingIsUnique(targets, size, shards, shards');
  }

  lemma {:induction false} ProbedByMore(jobs: seq<Job>, more: seq<Job>, t: Target)
    ensures Probed(jobs + more, t) == Probed(jobs, t) + Probed(more, t)
  {
    if more == [] {
      assert jobs + more == jobs;
    } else {
      assert (jobs + more)[..|jobs + more| - 1] == jobs + more[..|more| - 1];
      ProbedByMore(jobs, more[..|more| - 1], t);
    }
  }

  lemma Distribute(a: nat, b: nat, c: nat)
    ensures a * c + b * c == (a + b) * c
  {
  }

  lemma {:induction false} RowProbes(epoch: nat, shard: nat, targets: seq<Target>, fanout: nat, t: Target)
    ensures Probed(Row(epoch, shard, targets, fanout), t) == fanout * multiset(targets)[t]
    ensures |Row(epoch, shard, targets, fanout)| == fanout
  {
    if fanout > 0 {
      RowProbes(epoch, shard, targets, fanout - 1, t);
      Distribute(fanout - 1, 1, multiset(targets)[t]);
      var row := Row(epoch, shard, targets, fanout);
      assert row[..|row| - 1] == Row(epoch, shard, targets, fanout - 1);
    }
  }

  /** Mentions of a target in the first n shards. */
  ghost function Mentions(shards: seq<seq<Target>>, n: nat, t: Target): nat
    requires n <= |shards|
  {
    multiset(Concat(shards[..n]))[t]
  }

  lemma MentionsInOneMore(shards: seq<seq<Target>>, n: nat, t: Target)
    requires n < |shards|
    ensures Mentions(shards, n + 1, t) == Mentions(shards, n, t) + multiset(shards[n])[t]
  {
    assert shards[..n + 1] == shards[..n] + [shards[n]];
    ConcatMore(shards[..n], shards[n]);
  }

  lemma {:induction false} JobsProbe(epoch: nat, shards: seq<seq<Target>>, n: nat, fanout: nat, t: Target)
    requires n <= |shards|
    ensures Probed(Jobs(epoch, shards, n, fanout), t) == fanout * Mentions(shards, n, t)
  {
    hide Row, Probed, Mentions;
    if n == 0 {
      NoneMentioned(shards, t);
    } else {
      JobsProbe(epoch, shards, n - 1, fanout, t);
      RowProbes(epoch, n - 1, shards[n - 1], fanout, t);
      ProbedByMore(Jobs(epoch, shards, n - 1, fanout), Row(epoch, n - 1, shards[n - 1], fanout), t);
      MentionsInOneMore(shards, n - 1, t);
      Distribute(Mentions(shards, n - 1, t), multiset(shards[n - 1])[t], fanout);
    }
  }

  lemma NoneMentioned(shards: seq<seq<Target>>, t: Target)
    ensures Mentions(shards, 0, t) == 0 == Probed([], t)
  {
  }

  /** Every demanded slot is probed exactly `fanout` times, for as many seats as it needs, and nothing else is. */
  lemma {:induction false} PlanCoversDemand(counts: Count, epoch: nat, size: nat, fanout: nat, jobs: seq<Job>,
                                            t: Target)
    requires IsPlan(counts, epoch, size, fanout, jobs)
    ensures Probed(jobs, t) == if IsDemanded(counts, t) then fanout else 0
  {
    var targets: seq<Target>, shards: seq<seq<Target>> :|
      && IsTargetList(counts, targets) && IsSharding(targets, size, shards)
      && jobs == Jobs(epoch, shards, |shards|, fanout);
    hide *;
    JobsProbe(epoch, shards, |shards|, fanout, t);
    MentionedOnce(counts, targets, size, shards, t);
    var m := Mentions(shards, |shards|, t);
    assert m == 0 ==> fanout * m == 0;
    assert m == 1 ==> fanout * m == fanout;
  }

  lemma MentionedOnce(counts: Count, targets: seq<Target>, size: nat, shards: seq<seq<Target>>, t: Target)
    requires IsTargetList(counts, targets) && IsSharding(targets, size, shards)
    ensures Mentions(shards, |shards|, t) == if IsDemanded(counts, t) then 1 else 0
  {
    hide Concat, IsDemanded, TargetLess;
    assert shards[..|shards|] == shards;
    SortedIsApart(targets);
    OnceIfApart(targets, t);
  }

  lemma SortedIsApart(targets: seq<Target>)
    requires StrictlySorted(targets)
    ensures Apart(targets)
  {
    forall i, j | 0 <= i < j < |targets|
      ensures SlotOf(targets[i]) != SlotOf(targets[j])
    {
      NotBeforeItself(targets[i].time);
    }
  }

  lemma {:induction false} NamesOfRow(epoch: nat, shard: nat, targets: seq<Target>, fanout: nat)
    ensures |Row(epoch, shard, targets, fanout)| == fanout
    ensures forall f | 0 <= f < fanout ::
              Row(epoch, shard, targets, fanout)[f] == Job(epoch, shard, f, targets)
  {
    if fanout > 0 {
      NamesOfRow(epoch, shard, targets, fanout - 1);
    }
  }

  ghost predicate IsJob(job: Job, epoch: nat, shards: seq<seq<Target>>, s: nat, f: nat) {
    s < |shards| && job == Job(epoch, s, f, shards[s])
  }

  lemma {:induction false} WhichJob(epoch: nat, shards: seq<seq<Target>>, n: nat, fanout: nat,
                                    i: nat) returns (s: nat, f: nat)
    requires n <= |shards| && i < |Jobs(epoch, shards, n, fanout)|
    ensures s < n && f < fanout && IsJob(Jobs(epoch, shards, n, fanout)[i], epoch, shards, s, f)
  {
    hide JobName;
    var before := Jobs(epoch, shards, n - 1, fanout);
    if i < |before| {
      s, f := WhichJob(epoch, shards, n - 1, fanout, i);
    } else {
      s, f := n - 1, i - |before|;
      NamesOfRow(epoch, n - 1, shards[n - 1], fanout);
    }
  }

  lemma {:induction false} NamesDiffer(epoch: nat, shards: seq<seq<Target>>, n: nat, fanout: nat, i: nat, j: nat)
    requires n <= |shards| && i < j < |Jobs(epoch, shards, n, fanout)|
    ensures NameOf(Jobs(epoch, shards, n, fanout)[i]) != NameOf(Jobs(epoch, shards, n, fanout)[j])
  {
    hide JobName;
    var jobs := Jobs(epoch, shards, n, fanout);
    var before := Jobs(epoch, shards, n - 1, fanout);
    if j < |before| {
      NamesDiffer(epoch, shards, n - 1, fanout, i, j);
    } else {
      NamesOfRow(epoch, n - 1, shards[n - 1], fanout);
      var s, f := n - 1, i - |before|;
      if i < |before| {
        s, f := WhichJob(epoch, shards, n - 1, fanout, i);
      }
      if NameOf(jobs[i]) == NameOf(jobs[j]) {
        JobNamesAreInjective(epoch, s, f, epoch, n - 1, j - |before|);
        assert false;
      }
    }
  }

  /** No two jobs share a name, and none is given more than `size` targets. */
  lemma {:induction false} PlanIsWellFormed(counts: Count, epoch: nat, size: nat, fanout: nat, jobs: seq<Job>)
    requires IsPlan(counts, epoch, size, fanout, jobs)
    ensures forall i, j | 0 <= i < j < |jobs| :: NameOf(jobs[i]) != NameOf(jobs[j])
    ensures forall i | 0 <= i < |jobs| :: 0 < |jobs[i].targets| <= size
  {
    hide JobName, IsTargetList;
    var targets: seq<Target>, shards: seq<seq<Target>> :|
      && IsTargetList(counts, targets) && IsSharding(targets, size, shards)
      && jobs == Jobs(epoch, shards, |shards|, fanout);
    forall i, j | 0 <= i < j < |jobs|
      ensures NameOf(jobs[i]) != NameOf(jobs[j])
    {
      NamesDiffer(epoch, shards, |shards|, fanout, i, j);
    }
    forall i | 0 <= i < |jobs|
      ensures 0 < |jobs[i].targets| <= size
    {
      var s, f := WhichJob(epoch, shards, |shards|, fanout, i);
    }
  }

  // ---------------------------------------------------------------- spawning an epoch

  method ShardTargets(targets: seq<Target>, size: int) returns (shards: seq<seq<Target>>)
    ensures size > 0 ==> IsSharding(targets, size, shards)
    ensures size <= 0 ==> shards == if targets == [] then [] else [targets]
  {
    if targets == [] {
      return [];
    }
    if size <= 0 || size >= |targets| {
      shards := [targets];
      assert Concat(shards[1..]) == [];
      return;
    }
    shards := Cut(targets, size);
  }

  datatype Config = Config(epochMinutes: int, jobMinutes: int, slotsPerJob: int, fanout: int)

  predicate ValidConfig(cfg: Config) {
    cfg.epochMinutes > 0 && cfg.jobMinutes > 0 && cfg.slotsPerJob > 0 && cfg.fanout > 0
  }

  function EpochOf(cfg: Config, now: nat): nat
    requires ValidConfig(cfg)
  {
    Quotient(now, 60 * cfg.epochMinutes)
  }

  function Quotient(a: nat, d: nat): nat
    requires d > 0
  {
    a / d
  }

  /** The moment lies in its epoch. */
  lemma {:induction false} EpochHoldsNow(cfg: Config, now: nat)
    requires ValidConfig(cfg)
    ensures During(now, EpochOf(cfg, now), 60 * cfg.epochMinutes)
  {
    var d := 60 * cfg.epochMinutes;
    var q := Quotient(now, d);
    assert q * d <= now < q * d + d;
    assert (q + 1) * d == q * d + d;
  }

  /** What the outside answers in one epoch; `snapshot` is an error, no demand, or a demand. */
  datatype Outside = Outside(
    snapshot: Option<Option<Count>>,
    sessionOk: bool,
    seedsOk: bool,
    writeOk: bool,
    createOk: string -> bool)

  datatype Spawned = Spawned(ok: bool, tallyEpoch: Option<int>, expected: Option<seq<string>>, attempted: seq<Job>)

  ghost predicate HasDemand(out: Outside) {
    out.snapshot.Some? && out.snapshot.value.Some? && exists t :: IsDemanded(out.snapshot.value.value, t)
  }

  lemma ListHoldsTheDemand(counts: Count, targets: seq<Target>)
    requires IsTargetList(counts, targets)
    ensures forall t :: IsDemanded(counts, t) <==> t in targets
  {
  }

  method Spawn(cfg: Config, now: nat, out: Outside) returns (r: Spawned)
    ensures !ValidConfig(cfg) ==> r == Spawned(false, None, None, [])
    // the epoch whose tally is inspected
    ensures ValidConfig(cfg) ==>
              && r.tallyEpoch.Some?
              && forall e: int ::
                   SurelyOver(e, EpochOf(cfg, now), 60 * cfg.epochMinutes, 60 * cfg.jobMinutes) <==>
                   e <= r.tallyEpoch.value
    // every job of the plan is attempted, whichever fail, once the names to expect are written
    ensures ValidConfig(cfg) && HasDemand(out) && out.sessionOk && out.seedsOk && out.writeOk ==>
              && IsPlan(out.snapshot.value.value, EpochOf(cfg, now), cfg.slotsPerJob, cfg.fanout, r.attempted)
              && r.expected == Some(Names(r.attempted))
              && (r.ok <==> forall i | 0 <= i < |r.attempted| :: out.createOk(NameOf(r.attempted[i])))
    // and otherwise none
    ensures ValidConfig(cfg) && !(HasDemand(out) && out.sessionOk && out.seedsOk && out.writeOk) ==>
              && r.attempted == [] && r.expected.None?
              && (r.ok <==> out.snapshot.Some? && !HasDemand(out))
  {
    var epochSeconds := cfg.epochMinutes * 60;
    if epochSeconds <= 0 || cfg.jobMinutes <= 0 || cfg.slotsPerJob <= 0 || cfg.fanout <= 0 {
      return Spawned(false, None, None, []);
    }
    hide IsDemanded, TargetLess, SurelyOver, EpochOf, IsTargetList, IsSharding;
    var epoch := EpochOf(cfg, now);
    var overlap := (cfg.jobMinutes + cfg.epochMinutes - 1) / cfg.epochMinutes;
    r := Spawned(true, Some(epoch - overlap - 1), None, []);
    forall e: int
      ensures SurelyOver(e, epoch, epochSeconds, 60 * cfg.jobMinutes) <==> e <= epoch - overlap - 1
    {
      NewestEpochOver(e, epoch, cfg.epochMinutes, cfg.jobMinutes);
    }
    if out.snapshot.None? {
      r := r.(ok := false);
      return;
    }
    if out.snapshot.value.None? {
      return;
    }
    var counts := out.snapshot.value.value;
    var targets := TargetsFromCount(counts);
    ListHoldsTheDemand(counts, targets);
    if targets == [] {
      return;
    }
    assert targets[0] in targets;
    if !out.sessionOk || !out.seedsOk {
      r := r.(ok := false);
      return;
    }
    var shards := ShardTargets(targets, cfg.slotsPerJob);
    var expected := ExpectedNames(epoch, shards, cfg.fanout);
    if !out.writeOk {
      r := r.(ok := false);
      return;
    }
    var allCreated, attempted := CreateJobs(epoch, shards, cfg.fanout, out.createOk);
    r := r.(ok := allCreated, expected := Some(expected), attempted := attempted);
  }

  method ExpectedNames(epoch: nat, shards: seq<seq<Target>>, fanout: nat) returns (expected: seq<string>)
    ensures expected == Names(Jobs(epoch, shards, |shards|, fanout))
  {
    hide JobName;
    expected := [];
    for shard := 0 to |shards|
      invariant expected == Names(Jobs(epoch, shards, shard, fanout))
    {
      for f := 0 to fanout
        invariant expected == Names(Jobs(epoch, shards, shard, fanout) + Row(epoch, shard, shards[shard], f))
      {
        expected := expected + [JobName(epoch, shard, f)];
      }
    }
  }

  /** A failing creation is noted and the rest are still attempted. */
  method CreateJobs(epoch: nat, shards: seq<seq<Target>>, fanout: nat, createOk: string -> bool)
    returns (allCreated: bool, attempted: seq<Job>)
    ensures attempted == Jobs(epoch, shards, |shards|, fanout)
    ensures allCreated <==> forall i | 0 <= i < |attempted| :: createOk(NameOf(attempted[i]))
  {
    hide JobName;
    allCreated, attempted := true, [];
    for shard := 0 to |shards|
      invariant attempted == Jobs(epoch, shards, shard, fanout)
      invariant allCreated <==> forall i | 0 <= i < |attempted| :: createOk(NameOf(attempted[i]))
    {
      for f := 0 to fanout
        invariant attempted == Jobs(epoch, shards, shard, fanout) + Row(epoch, shard, shards[shard], f)
        invariant allCreated <==> forall i | 0 <= i < |attempted| :: createOk(NameOf(attempted[i]))
      {
        var job := Job(epoch, shard, f, shards[shard]);
        var name := NameOf(job);
        ghost var before := attempted;
        attempted := attempted + [job];
        assert forall i | 0 <= i < |before| :: attempted[i] == before[i];
        assert NameOf(attempted[|before|]) == name;
        assert (forall i | 0 <= i < |attempted| :: createOk(NameOf(attempted[i]))) <==>
               (forall i | 0 <= i < |before| :: createOk(NameOf(before[i]))) && createOk(name);
        if !createOk(name) {
          allCreated := false;
        }
      }
    }
  }

  // ---------------------------------------------------------------- which epoch is over

  /**
   Whenever in epoch e a job was created, and whenever in the current epoch one looks, its lifetime (in
   seconds) has passed.
   */
  ghost predicate SurelyOver(e: int, current: int, epochSeconds: int, lifetime: int) {
    forall created, now | During(created, e, epochSeconds) && During(now, current, epochSeconds) ::
      created + lifetime <= now
  }

  ghost predicate During(time: int, epoch: int, epochSeconds: int) {
    epoch * epochSeconds <= time < (epoch + 1) * epochSeconds
  }

  /** The last moment of epoch e and the first of the current one decide. */
  lemma {:induction false} SurelyOverWhen(e: int, current: int, epochSeconds: int, lifetime: int)
    requires epochSeconds > 0
    ensures SurelyOver(e, current, epochSeconds, lifetime) <==>
            (e + 1) * epochSeconds - 1 + lifetime <= current * epochSeconds
  {
    var last := (e + 1) * epochSeconds - 1;
    var first := current * epochSeconds;
    assert During(last, e, epochSeconds) by { assert (e + 1) * epochSeconds == e * epochSeconds + epochSeconds; }
    assert During(first, current, epochSeconds) by { assert (current + 1) * epochSeconds == first + epochSeconds; }
  }

  /** k whole epochs hold a lifetime exactly when k is at least its length in epochs, rounded up. */
  lemma {:induction false} RoundedUp(k: int, epochs: int, length: int)
    requires epochs > 0 && length > 0
    ensures k * epochs >= length <==> k >= (length + epochs - 1) / epochs
  {
    var q := (length + epochs - 1) / epochs;
    assert length <= q * epochs <= length + epochs - 1;
    if k >= q {
      assert k * epochs >= q * epochs;
    } else {
      assert k * epochs <= (q - 1) * epochs;
      assert (q - 1) * epochs == q * epochs - epochs;
    }
  }

  /** The epoch inspected is the newest whose jobs are all past the time they probe for. */
  lemma {:induction false} NewestEpochOver(e: int, current: int, epochMinutes: int, jobMinutes: int)
    requires epochMinutes > 0 && jobMinutes > 0
    ensures SurelyOver(e, current, epochMinutes * 60, 60 * jobMinutes) <==>
            e <= current - (jobMinutes + epochMinutes - 1) / epochMinutes - 1
  {
    SurelyOverWhen(e, current, epochMinutes * 60, 60 * jobMinutes);
    RoundedUp(current - e - 1, epochMinutes, jobMinutes);
    EpochGap(e, current, epochMinutes);
  }

  lemma EpochGap(e: int, current: int, epochMinutes: int)
    ensures current * (epochMinutes * 60) - (e + 1) * (epochMinutes * 60) == 60 * ((current - e - 1) * epochMinutes)
  {
  }

  /** What Kubernetes allows a job on top of its probing time. */
  const GRACE_SECONDS := 125

  /**
   It may still hold jobs that Kubernetes lets run: their own deadline has surely passed only when rounding
   the job length up to whole epochs leaves three minutes, which epochs shorter than four minutes never do.
   */
  lemma {:induction false} NewestEpochMayStillFlush(current: int, epochMinutes: int, jobMinutes: int)
    requires epochMinutes > 0 && jobMinutes > 0
    ensures var overlap := (jobMinutes + epochMinutes - 1) / epochMinutes;
            && (SurelyOver(current - overlap - 1, current, epochMinutes * 60, 60 * jobMinutes + GRACE_SECONDS) <==>
                overlap * epochMinutes >= jobMinutes + 3)
            && (epochMinutes <= 3 ==>
                !SurelyOver(current - overlap - 1, current, epochMinutes * 60, 60 * jobMinutes + GRACE_SECONDS))
  {
    var overlap := (jobMinutes + epochMinutes - 1) / epochMinutes;
    var e := current - overlap - 1;
    SurelyOverWhen(e, current, epochMinutes * 60, 60 * jobMinutes + GRACE_SECONDS);
    EpochGap(e, current, epochMinutes);
    assert overlap * epochMinutes <= jobMinutes + epochMinutes - 1;
  }
}
