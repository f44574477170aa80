/** Stable sorting by a strict weak order, and the order of strings. */
module Sorting {

  ghost predicate StrictWeakOrder<T(!new)>(less: (T, T) -> bool) {
    && (forall x, y :: less(x, y) ==> !less(y, x))
    && (forall x, y, z :: less(x, z) ==> less(x, y) || less(y, z))
  }

  ghost predicate Sorted<T>(s: seq<T>, less: (T, T) -> bool) {
    forall i, j | 0 <= i < j < |s| :: !less(s[j], s[i])
  }

  /** The elements tied with k, in their order. */
  ghost function Ties<T>(s: seq<T>, k: T, less: (T, T) -> bool): seq<T> {
    if s == [] then []
    else (if less(s[0], k) || less(k, s[0]) then [] else [s[0]]) + Ties(s[1..], k, less)
  }

  function Insert<T>(s: seq<T>, x: T, less: (T, T) -> bool): (r: seq<T>)
    ensures |r| == |s| + 1
    ensures multiset(r) == multiset(s) + multiset{x}
  {
    if s == [] || less(x, s[0]) then [x] + s
    else
      assert s == [s[0]] + s[1..];
      [s[0]] + Insert(s[1..], x, less)
  }

  lemma {:induction false} InsertKeepsSorted<T(!new)>(s: seq<T>, x: T, less: (T, T) -> bool)
    requires StrictWeakOrder(less) && Sorted(s, less)
    ensures Sorted(Insert(s, x, less), less)
  {
    var r := Insert(s, x, less);
    if s != [] && !less(x, s[0]) {
      InsertKeepsSorted(s[1..], x, less);
      forall j | 0 < j < |r|
        ensures !less(r[j], s[0])
      {
        assert r[j] in multiset(Insert(s[1..], x, less));
        assert r[j] in multiset(s[1..]) + multiset{x};
        if r[j] != x {
          assert r[j] in s[1..];
        }
      }
    }
  }

  lemma TiesOfFirst<T>(x: T, s: seq<T>, k: T, less: (T, T) -> bool)
    ensures Ties([x] + s, k, less) == (if less(x, k) || less(k, x) then [] else [x]) + Ties(s, k, less)
  {
    assert ([x] + s)[0] == x && ([x] + s)[1..] == s;
  }

  lemma TiesOfOne<T>(x: T, k: T, less: (T, T) -> bool)
    ensures Ties([x], k, less) == if less(x, k) || less(k, x) then [] else [x]
  {
    assert [x][1..] == [] && Ties<T>([], k, less) == [];
  }

  lemma InsertFirst<T>(s: seq<T>, x: T, less: (T, T) -> bool)
    requires s == [] || less(x, s[0])
    ensures Insert(s, x, less) == [x] + s
  {
  }

  lemma InsertLater<T>(y: T, tail: seq<T>, x: T, less: (T, T) -> bool)
    requires !less(x, y)
    ensures Insert([y] + tail, x, less) == [y] + Insert(tail, x, less)
  {
    assert ([y] + tail)[0] == y && ([y] + tail)[1..] == tail;
  }

  /** A new element goes behind those it is tied with. */
  lemma {:induction false} InsertGoesLast<T(!new)>(s: seq<T>, x: T, k: T, less: (T, T) -> bool)
    requires StrictWeakOrder(less) && Sorted(s, less)
    ensures Ties(Insert(s, x, less), k, less) == Ties(s, k, less) + Ties([x], k, less)
  {
    hide Ties, Insert;
    TiesOfOne(x, k, less);
    if s == [] || less(x, s[0]) {
      InsertFirst(s, x, less);
      TiesOfFirst(x, s, k, less);
      if !less(x, k) && !less(k, x) {
        AboveIsAbove(s, x, k, less);
        NoTiesAbove(s, k, less);
      }
    } else {
      var y, tail := s[0], s[1..];
      assert s == [y] + tail;
      InsertLater(y, tail, x, less);
      TiesOfFirst(y, tail, k, less);
      TiesOfFirst(y, Insert(tail, x, less), k, less);
      InsertGoesLast(tail, x, k, less);
    }
  }

  /** Everything behind one that x precedes lies above what x is tied with. */
  lemma AboveIsAbove<T(!new)>(s: seq<T>, x: T, k: T, less: (T, T) -> bool)
    requires StrictWeakOrder(less) && Sorted(s, less) && (s == [] || less(x, s[0])) && !less(x, k)
    ensures forall i | 0 <= i < |s| :: less(k, s[i])
  {
    forall i | 0 <= i < |s|
      ensures less(k, s[i])
    {
      assert less(x, s[i]);
    }
  }

  lemma {:induction false} NoTiesAbove<T(!new)>(s: seq<T>, k: T, less: (T, T) -> bool)
    requires StrictWeakOrder(less) && forall i | 0 <= i < |s| :: less(k, s[i])
    ensures Ties(s, k, less) == []
  {
    if s != [] {
      NoTiesAbove(s[1..], k, less);
    }
  }

  lemma {:induction false} TiesOfMore<T>(s: seq<T>, x: T, k: T, less: (T, T) -> bool)
    ensures Ties(s + [x], k, less) == Ties(s, k, less) + Ties([x], k, less)
  {
    if s == [] {
      assert s + [x] == [x];
    } else {
      assert (s + [x])[1..] == s[1..] + [x];
      TiesOfMore(s[1..], x, k, less);
    }
  }

  /** The library's stable sort: in order, the same elements, ties left as they were. */
  method Sort<T(!new)>(s: seq<T>, less: (T, T) -> bool) returns (r: seq<T>)
    requires StrictWeakOrder(less)
    ensures Sorted(r, less) && multiset(r) == multiset(s) && |r| == |s|
    ensures forall k :: Ties(r, k, less) == Ties(s, k, less)
  {
    r := [];
    for i := 0 to |s|
      invariant Sorted(r, less) && multiset(r) == multiset(s[..i]) && |r| == i
      invariant forall k :: Ties(r, k, less) == Ties(s[..i], k, less)
    {
      assert s[..i + 1] == s[..i] + [s[i]];
      forall k
        ensures Ties(Insert(r, s[i], less), k, less) == Ties(s[..i + 1], k, less)
      {
        InsertGoesLast(r, s[i], k, less);
        TiesOfMore(s[..i], s[i], k, less);
      }
      InsertKeepsSorted(r, s[i], less);
      r := Insert(r, s[i], less);
    }
    assert s[..|s|] == s;
  }

  // ---------------------------------------------------------------- strings

  predicate Before(a: string, b: string) {
    if b == "" then false
    else if a == "" then true
    else a[0] < b[0] || (a[0] == b[0] && Before(a[1..], b[1..]))
  }

  /** At the first place where they differ a has the smaller character, or a is the shorter there. */
  ghost predicate DiffersBelow(a: string, b: string, n: nat) {
    n <= |a| && n < |b| && a[..n] == b[..n] && (n < |a| ==> a[n] < b[n])
  }

  lemma {:induction false} BeforeMeans(a: string, b: string)
    ensures Before(a, b) <==> exists n: nat :: DiffersBelow(a, b, n)
  {
    if a != "" && b != "" && a[0] == b[0] {
      BeforeMeans(a[1..], b[1..]);
      if n: nat :| DiffersBelow(a[1..], b[1..], n) {
        assert a[..n + 1] == [a[0]] + a[1..][..n] && b[..n + 1] == [b[0]] + b[1..][..n];
        assert DiffersBelow(a, b, n + 1);
      }
      if n: nat :| DiffersBelow(a, b, n) {
        assert n > 0;
        assert a[1..][..n - 1] == a[..n][1..] && b[1..][..n - 1] == b[..n][1..];
        assert DiffersBelow(a[1..], b[1..], n - 1);
      }
    } else if b != "" {
      if Before(a, b) {
        assert a[..0] == b[..0];
        assert DiffersBelow(a, b, 0);
      }
      forall n: nat | DiffersBelow(a, b, n)
        ensures n == 0
      {
      }
    }
  }

  lemma {:induction false} BeforeIsTotal(a: string, b: string)
    ensures !(Before(a, b) && Before(b, a))
    ensures a == b || Before(a, b) || Before(b, a)
    ensures !Before(a, a)
  {
    if a != "" && b != "" {
      BeforeIsTotal(a[1..], b[1..]);
      assert a == [a[0]] + a[1..] && b == [b[0]] + b[1..];
    }
    NotBeforeItself(a);
  }

  lemma {:induction false} NotBeforeItself(a: string)
    ensures !Before(a, a)
  {
    if a != "" {
      NotBeforeItself(a[1..]);
    }
  }

  lemma {:induction false} BeforeIsTransitive(a: string, b: string, c: string)
    requires Before(a, b) && Before(b, c)
    ensures Before(a, c)
  {
    if a != "" && a[0] == b[0] == c[0] {
      BeforeIsTransitive(a[1..], b[1..], c[1..]);
    }
  }
}
