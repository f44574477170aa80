/** Splitting a list into consecutive shards, as the prober fleet and the poller each do. */
module Sharding {

  ghost function Concat<T>(shards: seq<seq<T>>): seq<T> {
    if shards == [] then [] else shards[0] + Concat(shards[1..])
  }

  /** The shards put together are the list, each but the last is full, and none is empty or too long. */
  ghost predicate IsSharding<T>(targets: seq<T>, size: nat, shards: seq<seq<T>>) {
    && Concat(shards) == targets
    && (forall k | 0 <= k < |shards| :: 0 < |shards[k]| <= size)
    && (forall k | 0 <= k < |shards| - 1 :: |shards[k]| == size)
  }

  lemma {:induction false} ConcatMore<T>(shards: seq<seq<T>>, last: seq<T>)
    ensures Concat(shards + [last]) == Concat(shards) + last
  {
    if shards == [] {
      assert shards + [last] == [last];
      assert Concat([last][1..]) == [];
    } else {
      assert (shards + [last])[1..] == shards[1..] + [last];
      ConcatMore(shards[1..], last);
    }
  }

  /** There is one way to shard a list. */
  lemma {:induction false} ShardingIsUnique<T>(targets: seq<T>, size: nat, a: seq<seq<T>>, b: seq<seq<T>>)
    requires IsSharding(targets, size, a) && IsSharding(targets, size, b)
    ensures a == b
    decreases |a|
  {
    if a == [] || b == [] {
      assert targets == [];
      assert a == b == [];
    } else {
      FirstShard(targets, size, a);
      FirstShard(targets, size, b);
      assert a[0] == b[0];
      ShardingIsUnique(targets[|a[0]|..], size, a[1..], b[1..]);
      assert a == [a[0]] + a[1..] && b == [b[0]] + b[1..];
    }
  }

  lemma {:induction false} FirstShard<T>(targets: seq<T>, size: nat, a: seq<seq<T>>)
    requires IsSharding(targets, size, a) && a != []
    ensures |a[0]| == (if |targets| < size then |targets| else size) && a[0] == targets[..|a[0]|]
    ensures IsSharding(targets[|a[0]|..], size, a[1..])
  {
    assert targets == a[0] + Concat(a[1..]);
    assert targets[|a[0]|..] == Concat(a[1..]);
    forall k | 0 <= k < |a[1..]|
      ensures 0 < |a[1..][k]| <= size && (k < |a[1..]| - 1 ==> |a[1..][k]| == size)
    {
      assert a[1..][k] == a[k + 1];
    }
    if |a| == 1 {
      assert a[1..] == [];
    }
  }

  /** The loop both programs run; `size` may exceed the list. */
  method Cut<T>(targets: seq<T>, size: nat) returns (shards: seq<seq<T>>)
    requires size > 0
    ensures IsSharding(targets, size, shards)
  {
    shards := [];
    var start := 0;
    while start < |targets|
      invariant 0 <= start && Concat(shards) == targets[..if start < |targets| then start else |targets|]
      invariant forall k | 0 <= k < |shards| :: 0 < |shards[k]| <= size
      invariant forall k | 0 <= k < |shards| - 1 :: |shards[k]| == size
      invariant start < |targets| ==> forall k | 0 <= k < |shards| :: |shards[k]| == size
    {
      var end := start + size;
      if end > |targets| {
        end := |targets|;
      }
      ConcatMore(shards, targets[start..end]);
      assert targets[..start] + targets[start..end] == targets[..end];
      shards := shards + [targets[start..end]];
      start := start + size;
    }
    assert targets[..|targets|] == targets;
  }
}
