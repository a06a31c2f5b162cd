/** Go's string ordering and `sort.Strings`.
    Go compares strings byte by byte; on valid UTF-8 that agrees with comparing
    code points one by one, which is what `Less` does on `seq<char>`. */
module Strings {

  /** Strict lexicographic order: `a < b` on Go strings. */
  predicate Less(a: string, b: string)
    decreases |a|
  {
    if |a| == 0 then |b| > 0
    else if |b| == 0 then false
    else if a[0] != b[0] then a[0] < b[0]
    else Less(a[1..], b[1..])
  }

  lemma {:induction false} LessIrreflexive(a: string)
    ensures !Less(a, a)
    decreases |a|
  {
    if |a| > 0 { LessIrreflexive(a[1..]); }
  }

  lemma {:induction false} LessTransitive(a: string, b: string, c: string)
    requires Less(a, b) && Less(b, c)
    ensures Less(a, c)
    decreases |a|
  {
    if |a| > 0 && |b| > 0 && |c| > 0 && a[0] == b[0] == c[0] {
      LessTransitive(a[1..], b[1..], c[1..]);
    }
  }

  /** Any two different strings are ordered one way or the other. */
  lemma {:induction false} LessTotal(a: string, b: string)
    requires a != b
    ensures Less(a, b) || Less(b, a)
    decreases |a|
  {
    if |a| > 0 && |b| > 0 && a[0] == b[0] {
      assert a == [a[0]] + a[1..] && b == [b[0]] + b[1..];
      LessTotal(a[1..], b[1..]);
    }
  }

  /** A common prefix does not change the order. */
  lemma {:induction false} LessPrefix(p: string, a: string, b: string)
    ensures Less(p + a, p + b) <==> Less(a, b)
    decreases |p|
  {
    if |p| > 0 {
      assert (p + a)[0] == p[0] == (p + b)[0];
      assert (p + a)[1..] == p[1..] + a;
      assert (p + b)[1..] == p[1..] + b;
      assert Less(p + a, p + b) == Less((p + a)[1..], (p + b)[1..]);
      LessPrefix(p[1..], a, b);
    } else {
      assert p + a == a && p + b == b;
    }
  }

  /** `!Less(b, a)` is transitive: the "not after" relation used by Sorted. */
  lemma NotLessTransitive(a: string, b: string, c: string)
    requires !Less(b, a) && !Less(c, b)
    ensures !Less(c, a)
  {
    if Less(c, a) {
      if a == b {
      } else {
        LessTotal(a, b);
        LessTransitive(c, a, b);
      }
    }
  }

  /** Ascending order, as `sort.Strings` leaves a slice. */
  ghost predicate Sorted(s: seq<string>)
  {
    forall i, j :: 0 <= i < j < |s| ==> !Less(s[j], s[i])
  }

  /** Strictly ascending order: sorted and free of duplicates. */
  ghost predicate StrictlySorted(s: seq<string>)
  {
    forall i, j :: 0 <= i < j < |s| ==> Less(s[i], s[j])
  }

  /** The head of a sorted sequence comes before or equals every member. */
  lemma HeadIsLeast(s: seq<string>, x: string)
    requires Sorted(s) && x in multiset(s)
    ensures |s| > 0 && !Less(x, s[0])
  {
    var i :| 0 <= i < |s| && s[i] == x;
    if i == 0 { LessIrreflexive(x); }
  }

  lemma SortedTail(s: seq<string>)
    requires Sorted(s) && |s| > 0
    ensures Sorted(s[1..])
    ensures multiset(s[1..]) == multiset(s) - multiset{s[0]}
  {
    assert s == [s[0]] + s[1..];
    forall i, j | 0 <= i < j < |s| - 1 ensures !Less(s[1..][j], s[1..][i]) {
      assert s[1..][j] == s[j + 1] && s[1..][i] == s[i + 1];
    }
  }

  /** Two sorted sequences holding the same strings start alike. */
  lemma SortedSameHead(a: seq<string>, b: seq<string>)
    requires Sorted(a) && Sorted(b) && |a| > 0
    requires multiset(a) == multiset(b)
    ensures |b| > 0 && a[0] == b[0]
  {
    assert a[0] in multiset(b);
    HeadIsLeast(b, a[0]);
    HeadIsLeast(a, b[0]);
    if a[0] != b[0] { LessTotal(a[0], b[0]); }
  }

  /** Two sorted sequences holding the same strings are equal: sorting has one answer. */
  lemma {:induction false} SortedUnique(a: seq<string>, b: seq<string>)
    requires Sorted(a) && Sorted(b)
    requires multiset(a) == multiset(b)
    ensures a == b
    decreases |a|
  {
    if |a| == 0 {
      assert |b| == |multiset(b)| == 0;
    } else {
      SortedSameHead(a, b);
      SortedTail(a);
      SortedTail(b);
      SortedUnique(a[1..], b[1..]);
      assert a == [a[0]] + a[1..] && b == [b[0]] + b[1..];
    }
  }

  /** The smallest string of a non-empty finite set. */
  ghost function Minimum(s: set<string>): (m: string)
    requires s != {}
    ensures m in s && forall x :: x in s ==> !Less(x, m)
    decreases |s|
  {
    var x :| x in s;
    if s == {x} then
      LessIrreflexive(x);
      x
    else
      var m' := Minimum(s - {x});
      if Less(x, m') then
        assert forall y :: y in s - {x} ==> !Less(y, x) by {
          forall y | y in s - {x} ensures !Less(y, x) {
            if Less(y, x) { LessTransitive(y, x, m'); }
          }
        }
        LessIrreflexive(x);
        x
      else
        m'
  }

  lemma MinimumBeforeRest(s: set<string>, rest: seq<string>)
    requires s != {} && multiset(rest) == multiset(s - {Minimum(s)})
    ensures forall k :: 0 <= k < |rest| ==> Less(Minimum(s), rest[k])
    ensures multiset([Minimum(s)] + rest) == multiset(s)
  {
    var m := Minimum(s);
    forall k | 0 <= k < |rest| ensures Less(m, rest[k]) {
      assert rest[k] in multiset(s - {m});
      LessTotal(m, rest[k]);
    }
    assert s == {m} + (s - {m});
  }

  /** The keys of a map, listed in ascending order: what collecting the keys
      in any order and then calling `sort.Strings` yields. */
  ghost function SortedKeys(s: set<string>): (r: seq<string>)
    ensures StrictlySorted(r)
    ensures multiset(r) == multiset(s)
    decreases |s|
  {
    if s == {} then []
    else
      var m := Minimum(s);
      var rest := SortedKeys(s - {m});
      MinimumBeforeRest(s, rest);
      [m] + rest
  }

  /** The listing holds each key once. */
  lemma {:induction false} SortedKeysMembers(s: set<string>)
    ensures |SortedKeys(s)| == |s|
    ensures forall x :: x in SortedKeys(s) <==> x in s
    decreases |s|
  {
    var r := SortedKeys(s);
    forall x ensures x in r <==> x in s {
      assert x in r <==> x in multiset(r);
    }
    if s != {} {
      var m := Minimum(s);
      SortedKeysMembers(s - {m});
      assert r == [m] + SortedKeys(s - {m});
    }
  }

  lemma StrictlySortedIsSorted(s: seq<string>)
    requires StrictlySorted(s)
    ensures Sorted(s)
  {
    forall i, j | 0 <= i < j < |s| ensures !Less(s[j], s[i]) {
      if Less(s[j], s[i]) { LessTransitive(s[i], s[j], s[i]); LessIrreflexive(s[i]); }
    }
  }

  /** A strictly ascending listing of exactly the strings of `s` is `SortedKeys(s)`. */
  lemma SortedKeysUnique(r: seq<string>, s: set<string>)
    requires StrictlySorted(r) && multiset(r) == multiset(s)
    ensures r == SortedKeys(s)
  {
    StrictlySortedIsSorted(r);
    StrictlySortedIsSorted(SortedKeys(s));
    SortedUnique(r, SortedKeys(s));
  }

  /** `s` is sorted apart from the element at `j`, and that element is not
      after anything to its right: the state while `s[j]` moves left. */
  ghost predicate Inserting(s: seq<string>, j: int)
  {
    && 0 <= j < |s|
    && (forall p, q :: 0 <= p < q < |s| && p != j && q != j ==> !Less(s[q], s[p]))
    && (forall q :: j < q < |s| ==> !Less(s[q], s[j]))
  }

  lemma InsertingStart(s: seq<string>)
    requires |s| > 0 && Sorted(s[..|s| - 1])
    ensures Inserting(s, |s| - 1)
  {
    forall p, q | 0 <= p < q < |s| - 1 ensures !Less(s[q], s[p]) {
      assert s[q] == s[..|s| - 1][q] && s[p] == s[..|s| - 1][p];
    }
  }

  /** Swapping the moving element with its left neighbour, which it is before. */
  lemma InsertingStep(s: seq<string>, j: int)
    requires Inserting(s, j) && j > 0 && Less(s[j], s[j - 1])
    ensures Inserting(s[j - 1 := s[j]][j := s[j - 1]], j - 1)
  {
    var t := s[j - 1 := s[j]][j := s[j - 1]];
    assert !Less(t[j], t[j - 1]) by {
      if Less(t[j], t[j - 1]) { LessTransitive(t[j], t[j - 1], t[j]); LessIrreflexive(t[j]); }
    }
    forall q | j - 1 < q < |t| ensures !Less(t[q], t[j - 1]) {
      if q != j {
        NotLessTransitive(t[j - 1], t[j], t[q]);
      }
    }
  }

  /** The moving element has stopped: the whole sequence is sorted. */
  lemma InsertingDone(s: seq<string>, j: int)
    requires Inserting(s, j) && (j == 0 || !Less(s[j], s[j - 1]))
    ensures Sorted(s)
  {
    forall p, q | 0 <= p < q < |s| ensures !Less(s[q], s[p]) {
      if q == j && p < j - 1 {
        NotLessTransitive(s[p], s[j - 1], s[j]);
      }
    }
  }

  /** One pass of the insertion sort: moves `a[i]` left into the sorted prefix. */
  method InsertAt(a: array<string>, i: int)
    requires 0 < i < a.Length && Sorted(a[..i])
    modifies a
    ensures Sorted(a[..i + 1])
    ensures a[i + 1..] == old(a[i + 1..])
    ensures multiset(a[..]) == old(multiset(a[..]))
  {
    InsertingStart(a[..i + 1]);
    var j := i;
    while j > 0 && Less(a[j], a[j - 1])
      invariant Inserting(a[..i + 1], j)
      invariant a[i + 1..] == old(a[i + 1..])
      invariant multiset(a[..]) == old(multiset(a[..]))
      decreases j
    {
      InsertingStep(a[..i + 1], j);
      a[j - 1], a[j] := a[j], a[j - 1];
      j := j - 1;
    }
    InsertingDone(a[..i + 1], j);
  }

  /** `sort.Strings`: sorts the slice in place (an insertion sort here; Go's
      algorithm differs, but a sorted permutation is unique by SortedUnique). */
  method SortStrings(a: array<string>)
    modifies a
    ensures Sorted(a[..])
    ensures multiset(a[..]) == old(multiset(a[..]))
  {
    if a.Length < 2 { return; }
    var i := 1;
    while i < a.Length
      invariant 1 <= i <= a.Length
      invariant Sorted(a[..i])
      invariant multiset(a[..]) == old(multiset(a[..]))
    {
      InsertAt(a, i);
      i := i + 1;
    }
    assert a[..a.Length] == a[..];
  }
}
