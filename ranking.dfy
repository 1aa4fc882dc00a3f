/** Ordering recommendations by match score: `list.sort((a, b) => b.matchScore - a.matchScore)`.
    `Array.prototype.sort` is stable, so the result is the list in non-increasing score
    order with phones of equal score in their original relative order. */
module Ranking {
  import opened Types

  type Phone = PhoneRecommendation

  /** Non-increasing by match score. */
  predicate SortedByScore(s: seq<Phone>) {
    forall i, j | 0 <= i < j < |s| :: s[i].matchScore >= s[j].matchScore
  }

  /** The phones of `s` that have score `k`, in their order in `s`. */
  function WithScore(s: seq<Phone>, k: int): seq<Phone> {
    if s == [] then []
    else if s[0].matchScore == k then [s[0]] + WithScore(s[1..], k)
    else WithScore(s[1..], k)
  }

  /** Places `x` after every phone whose score is at least its own. */
  function InsertByScore(s: seq<Phone>, x: Phone): seq<Phone> {
    if s == [] then [x]
    else if s[0].matchScore < x.matchScore then [x] + s
    else [s[0]] + InsertByScore(s[1..], x)
  }

  /** Insertion adds exactly the one phone. */
  lemma {:induction false} InsertByScorePermutes(s: seq<Phone>, x: Phone)
    ensures multiset(InsertByScore(s, x)) == multiset(s) + multiset{x}
  {
    if s != [] && s[0].matchScore >= x.matchScore {
      InsertByScorePermutes(s[1..], x);
      assert s == [s[0]] + s[1..];
    }
  }

  /** The stable sort by descending score, as insertion of each phone in turn. */
  function SortByScore(s: seq<Phone>): seq<Phone> {
    if s == [] then [] else InsertByScore(SortByScore(s[..|s| - 1]), s[|s| - 1])
  }

  lemma {:induction false} WithScoreAppend(a: seq<Phone>, b: seq<Phone>, k: int)
    ensures WithScore(a + b, k) == WithScore(a, k) + WithScore(b, k)
  {
    if a == [] {
      assert a + b == b;
    } else {
      var rest := a[1..] + b;
      WithScoreAppend(a[1..], b, k);
      assert (a + b)[0] == a[0] && (a + b)[1..] == rest;
      var head := if a[0].matchScore == k then [a[0]] else [];
      assert WithScore(a + b, k) == head + WithScore(rest, k);
      assert WithScore(a, k) == head + WithScore(a[1..], k);
    }
  }

  lemma {:induction false} InsertByScoreSorted(s: seq<Phone>, x: Phone)
    requires SortedByScore(s)
    ensures SortedByScore(InsertByScore(s, x))
  {
    if s != [] && s[0].matchScore >= x.matchScore {
      var t := InsertByScore(s[1..], x);
      InsertByScoreSorted(s[1..], x);
      assert s[0].matchScore >= t[0].matchScore by {
        assert |s| > 1 ==> s[0].matchScore >= s[1..][0].matchScore;
      }
      var r := [s[0]] + t;
      forall j | 0 < j < |r| ensures r[0].matchScore >= r[j].matchScore {
        assert r[j] == t[j - 1];
      }
    }
  }

  lemma {:induction false} InsertByScoreStable(s: seq<Phone>, x: Phone, k: int)
    requires SortedByScore(s)
    ensures WithScore(InsertByScore(s, x), k) ==
            if x.matchScore == k then WithScore(s, k) + [x] else WithScore(s, k)
  {
    if s == [] {
      assert [x][1..] == [];
    } else if s[0].matchScore < x.matchScore {
      assert ([x] + s)[1..] == s;
      if x.matchScore == k {
        NoneAbove(s, k);
      }
    } else {
      InsertByScoreStable(s[1..], x, k);
      var t := InsertByScore(s[1..], x);
      assert ([s[0]] + t)[1..] == t;
    }
  }

  /** In a sorted list whose first score is below `k`, no phone has score `k`. */
  lemma {:induction false} NoneAbove(s: seq<Phone>, k: int)
    requires SortedByScore(s)
    requires s != [] ==> s[0].matchScore < k
    ensures WithScore(s, k) == []
  {
    if s != [] {
      if |s| > 1 {
        assert s[1].matchScore <= s[0].matchScore;
      }
      NoneAbove(s[1..], k);
    }
  }

  /** The sort yields a non-increasing permutation of its input. */
  lemma {:induction false} SortByScoreSorted(s: seq<Phone>)
    ensures SortedByScore(SortByScore(s))
    ensures multiset(SortByScore(s)) == multiset(s)
  {
    if s != [] {
      var init := s[..|s| - 1];
      SortByScoreSorted(init);
      InsertByScoreSorted(SortByScore(init), s[|s| - 1]);
      InsertByScorePermutes(SortByScore(init), s[|s| - 1]);
      assert s == init + [s[|s| - 1]];
    }
  }

  /** The sort is stable: for every score, the phones with that score keep their order. */
  lemma {:induction false} SortByScoreStable(s: seq<Phone>, k: int)
    ensures WithScore(SortByScore(s), k) == WithScore(s, k)
  {
    if s != [] {
      var init, x := s[..|s| - 1], s[|s| - 1];
      SortByScoreStable(init, k);
      SortByScoreSorted(init);
      InsertByScoreStable(SortByScore(init), x, k);
      assert s == init + [x];
      WithScoreAppend(init, [x], k);
      assert [x][1..] == [];
    }
  }

  /** Non-increasing order and the per-score order together determine a list: two sorted
      lists that agree on the phones of every score are equal. */
  lemma {:induction false} SortedUnique(a: seq<Phone>, b: seq<Phone>)
    requires SortedByScore(a) && SortedByScore(b)
    requires forall k :: WithScore(a, k) == WithScore(b, k)
    ensures a == b
    decreases |a| + |b|
  {
    WithScoreHeadPresent(a);
    WithScoreHeadPresent(b);
    if a == [] || b == [] {
      // a non-empty list has phones of its head's score, an empty list has none
    } else {
      var m := a[0].matchScore;
      WithScoreHead(a);
      WithScoreHead(b);
      // both heads carry the top score
      WithScoreIn(b, m);
      WithScoreIn(a, b[0].matchScore);
      assert b[0].matchScore == m;
      assert a[0] == WithScore(a, m)[0] == WithScore(b, m)[0] == b[0];
      forall k ensures WithScore(a[1..], k) == WithScore(b[1..], k) {
        if k != m {
          assert WithScore(a, k) == WithScore(a[1..], k);
          assert WithScore(b, k) == WithScore(b[1..], k);
        } else {
          assert WithScore(a[1..], k) == WithScore(a, k)[1..];
          assert WithScore(b[1..], k) == WithScore(b, k)[1..];
        }
      }
      SortedUnique(a[1..], b[1..]);
      assert a == [a[0]] + a[1..] && b == [b[0]] + b[1..];
    }
  }

  lemma WithScoreHeadPresent(s: seq<Phone>)
    ensures s != [] ==> WithScore(s, s[0].matchScore) != []
  {
  }

  lemma WithScoreHead(s: seq<Phone>)
    requires s != []
    ensures WithScore(s, s[0].matchScore) == [s[0]] + WithScore(s[1..], s[0].matchScore)
  {
  }

  /** When some phone has score `k`, the head of a sorted list scores at least `k`. */
  lemma {:induction false} WithScoreIn(s: seq<Phone>, k: int)
    requires SortedByScore(s) && s != []
    requires WithScore(s, k) != []
    ensures s[0].matchScore >= k
  {
    if s[0].matchScore != k {
      WithScoreIn'(s[1..], k);
      var i :| 0 <= i < |s[1..]| && s[1..][i].matchScore == k;
      assert s[i + 1].matchScore == k;
    }
  }

  lemma {:induction false} WithScoreIn'(s: seq<Phone>, k: int)
    requires WithScore(s, k) != []
    ensures exists i | 0 <= i < |s| :: s[i].matchScore == k
  {
    if s[0].matchScore != k {
      WithScoreIn'(s[1..], k);
      var i :| 0 <= i < |s[1..]| && s[1..][i].matchScore == k;
      assert s[i + 1].matchScore == k;
    }
  }

  /** Sorting a list that is already in non-increasing order leaves it unchanged, so a
      second sort of sorted output changes nothing. */
  lemma SortByScoreOfSorted(s: seq<Phone>)
    requires SortedByScore(s)
    ensures SortByScore(s) == s
  {
    SortByScoreSorted(s);
    forall k ensures WithScore(SortByScore(s), k) == WithScore(s, k) {
      SortByScoreStable(s, k);
    }
    SortedUnique(SortByScore(s), s);
  }

  lemma SortByScoreIdempotent(s: seq<Phone>)
    ensures SortByScore(SortByScore(s)) == SortByScore(s)
  {
    SortByScoreSorted(s);
    SortByScoreOfSorted(SortByScore(s));
  }

  /** Where insertion places `x` in a sorted list: after the phones scoring at least its
      score, before those scoring less. */
  lemma {:induction false} InsertByScoreAt(s: seq<Phone>, x: Phone, j: nat)
    requires j <= |s|
    requires forall k | 0 <= k < j :: s[k].matchScore >= x.matchScore
    requires j < |s| ==> s[j].matchScore < x.matchScore
    ensures InsertByScore(s, x) == s[..j] + [x] + s[j..]
  {
    if j > 0 {
      InsertByScoreAt(s[1..], x, j - 1);
      assert s[1..][..j - 1] == s[1..j];
      assert s[..j] == [s[0]] + s[1..j];
    }
  }

  /** `a.sort((p, q) => q.matchScore - p.matchScore)` in place, as an insertion sort. */
  method SortInPlace(a: array<Phone>)
    modifies a
    ensures a[..] == SortByScore(old(a[..]))
  {
    ghost var input := a[..];
    var i := 0;
    while i < a.Length
      invariant 0 <= i <= a.Length
      invariant a[..i] == SortByScore(input[..i])
      invariant forall k | i <= k < a.Length :: a[k] == input[k]
    {
      SortByScoreSorted(input[..i]);
      InsertNext(a, i);
      assert input[..i + 1][..i] == input[..i];
      i := i + 1;
    }
    assert input[..a.Length] == input;
  }

  /** One pass of the insertion sort: moves `a[i]` back past the phones of lower score. */
  method InsertNext(a: array<Phone>, i: nat)
    requires i < a.Length
    requires SortedByScore(a[..i])
    modifies a
    ensures a[..i + 1] == InsertByScore(old(a[..i]), old(a[i]))
    ensures forall k | i < k < a.Length :: a[k] == old(a[k])
  {
    ghost var done := a[..i];
    var x := a[i];
    var j := ShiftLower(a, i);
    a[j] := x;
    ShiftedIsInserted(a[..i + 1], done, x, j);
  }

  /** The shifting loop of one pass: moves the phones before `a[i]` that score lower than
      it one place on, and returns the position left free for it. */
  method ShiftLower(a: array<Phone>, i: nat) returns (j: nat)
    requires i < a.Length
    modifies a
    ensures j <= i
    ensures forall k | 0 <= k < j :: a[k] == old(a[k])
    ensures forall k | j < k <= i :: a[k] == old(a[k - 1])
    ensures forall k | i < k < a.Length :: a[k] == old(a[k])
    ensures forall k | j <= k < i :: old(a[k]).matchScore < old(a[i]).matchScore
    ensures j > 0 ==> a[j - 1].matchScore >= old(a[i]).matchScore
  {
    var x := a[i];
    j := i;
    while j > 0 && a[j - 1].matchScore < x.matchScore
      invariant j <= i
      invariant forall k | 0 <= k < j :: a[k] == old(a[k])
      invariant forall k | j < k <= i :: a[k] == old(a[k - 1])
      invariant forall k | i < k < a.Length :: a[k] == old(a[k])
      invariant forall k | j <= k < i :: old(a[k]).matchScore < x.matchScore
    {
      a[j] := a[j - 1];
      j := j - 1;
    }
  }

  /** The array after the shifting loop: the phones before position `j` in place, `x` at
      `j`, the rest one place further on, is the insertion of `x`. */
  lemma ShiftedIsInserted(b: seq<Phone>, done: seq<Phone>, x: Phone, j: nat)
    requires SortedByScore(done)
    requires j <= |done| && |b| == |done| + 1
    requires forall k | 0 <= k < j :: b[k] == done[k]
    requires b[j] == x
    requires forall k | j < k < |b| :: b[k] == done[k - 1]
    requires forall k | j <= k < |done| :: done[k].matchScore < x.matchScore
    requires j > 0 ==> done[j - 1].matchScore >= x.matchScore
    ensures b == InsertByScore(done, x)
  {
    InsertByScoreAt(done, x, j);
    var inserted := done[..j] + [x] + done[j..];
    forall k | 0 <= k < |b| ensures b[k] == inserted[k] {
      if k < j {
        assert inserted[k] == done[k];
      } else if k > j {
        assert inserted[k] == done[k - 1];
      }
    }
  }
}
