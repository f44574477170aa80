/** The string operations the matching rules rest on, over ASCII letters and blanks. */
module Text {

  function UpperChar(c: char): (u: char)
    ensures 'a' <= c <= 'z' ==> 'A' <= u <= 'Z' && u as int - 'A' as int == c as int - 'a' as int
    ensures !('a' <= c <= 'z') ==> u == c
  {
    if 'a' <= c <= 'z' then (c as int - 'a' as int + 'A' as int) as char else c
  }

  function ToUpper(s: string): (r: string)
    ensures |r| == |s| && forall i | 0 <= i < |s| :: r[i] == UpperChar(s[i])
  {
    seq(|s|, i requires 0 <= i < |s| => UpperChar(s[i]))
  }

  /** A space, or one of tab, newline, vertical tab, form feed and carriage return. */
  predicate IsBlank(c: char)
    ensures IsBlank(c) <==> c as int in {9, 10, 11, 12, 13, 32}
  {
    c == ' ' || '\t' <= c <= '\r'
  }

  function TrimLeft(s: string): string {
    if s != "" && IsBlank(s[0]) then TrimLeft(s[1..]) else s
  }

  function TrimRight(s: string): string {
    if s != "" && IsBlank(s[|s| - 1]) then TrimRight(s[..|s| - 1]) else s
  }

  function TrimSpace(s: string): string {
    TrimRight(TrimLeft(s))
  }

  predicate EqualFold(a: string, b: string) {
    ToUpper(a) == ToUpper(b)
  }

  predicate OccursAt(s: string, part: string, i: nat) {
    i + |part| <= |s| && s[i..i + |part|] == part
  }

  predicate Contains(s: string, part: string) {
    exists i | 0 <= i <= |s| :: OccursAt(s, part, i)
  }

  /** Some message contains some non-blank pattern, ignoring case. */
  predicate Matches(messages: seq<string>, patterns: seq<string>) {
    exists m, p | m in messages && p in patterns ::
      TrimSpace(p) != "" && Contains(ToUpper(m), ToUpper(TrimSpace(p)))
  }

  // ---------------------------------------------------------------- what they mean

  ghost predicate AllBlank(s: string) {
    forall i | 0 <= i < |s| :: IsBlank(s[i])
  }

  lemma {:induction false} TrimLeftMeans(s: string) returns (i: nat)
    ensures i <= |s| && TrimLeft(s) == s[i..] && AllBlank(s[..i]) && (i < |s| ==> !IsBlank(s[i]))
  {
    if s != "" && IsBlank(s[0]) {
      var j := TrimLeftMeans(s[1..]);
      i := j + 1;
      assert s[1..][j..] == s[i..];
      assert forall k | 0 < k < i :: s[..i][k] == s[1..][..j][k - 1];
    } else {
      i := 0;
    }
  }

  lemma {:induction false} TrimRightMeans(s: string) returns (j: nat)
    ensures j <= |s| && TrimRight(s) == s[..j] && AllBlank(s[j..]) && (j > 0 ==> !IsBlank(s[j - 1]))
  {
    if s != "" && IsBlank(s[|s| - 1]) {
      var most := s[..|s| - 1];
      j := TrimRightMeans(most);
      assert most[..j] == s[..j];
      assert forall k | 0 <= k < |s| - 1 - j :: s[j..][k] == most[j..][k];
    } else {
      j := |s|;
    }
  }

  /** Trimming takes exactly the blanks off both ends. */
  lemma {:induction false} TrimSpaceMeans(s: string) returns (i: nat, j: nat)
    ensures i <= j <= |s| && TrimSpace(s) == s[i..j] && AllBlank(s[..i]) && AllBlank(s[j..])
    ensures i < j ==> !IsBlank(s[i]) && !IsBlank(s[j - 1])
  {
    i := TrimLeftMeans(s);
    var left := s[i..];
    var k := TrimRightMeans(left);
    j := i + k;
    assert left[..k] == s[i..j] && left[k..] == s[j..];
    if k > 0 {
      assert left[k - 1] == s[j - 1];
    }
  }

  /** From position i on, m reads as p does, ignoring case. */
  ghost predicate ReadsAt(m: string, p: string, i: nat) {
    i + |p| <= |m| && forall k | 0 <= k < |p| :: UpperChar(m[i + k]) == UpperChar(p[k])
  }

  lemma ContainsMeans(m: string, p: string)
    ensures Contains(ToUpper(m), ToUpper(p)) <==> exists i: nat :: ReadsAt(m, p, i)
  {
    var um, up := ToUpper(m), ToUpper(p);
    if Contains(um, up) {
      var i :| 0 <= i <= |um| && OccursAt(um, up, i);
      var window := um[i..i + |up|];
      assert forall k | 0 <= k < |p| :: window[k] == um[i + k];
      assert ReadsAt(m, p, i);
    }
    if i: nat :| ReadsAt(m, p, i) {
      assert um[i..i + |up|] == up;
      assert OccursAt(um, up, i);
    }
  }

  /** A message matches when somewhere in it a pattern reads, trimmed and ignoring case; blank patterns never do. */
  lemma MatchesMeans(messages: seq<string>, patterns: seq<string>)
    ensures Matches(messages, patterns) <==>
            exists m, p, i: nat :: m in messages && p in patterns && TrimSpace(p) != "" && ReadsAt(m, TrimSpace(p), i)
  {
    forall m, p
      ensures Contains(ToUpper(m), ToUpper(TrimSpace(p))) <==> exists i: nat :: ReadsAt(m, TrimSpace(p), i)
    {
      ContainsMeans(m, TrimSpace(p));
    }
  }

  lemma EqualFoldMeans(a: string, b: string)
    ensures EqualFold(a, b) <==> |a| == |b| && forall i | 0 <= i < |a| :: UpperChar(a[i]) == UpperChar(b[i])
  {
    var ua, ub := ToUpper(a), ToUpper(b);
    if ua == ub {
      assert forall i | 0 <= i < |a| :: ua[i] == ub[i];
    }
  }
}
