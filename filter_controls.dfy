/** The brand and operating-system filter panel (components/FilterControls.tsx): the
    options offered are the distinct values found in the recommendations, in ascending
    string order, after an "all" choice; the clear button shows while a filter is set;
    nothing is shown for an empty list. */
module FilterControls {
  import opened Wrappers
  import opened Types
  import opened App

  /** The order of `Array.prototype.sort` without a comparator on strings: lexicographic
      by character, a proper prefix before its extensions. */
  predicate LexLess(a: string, b: string) {
    if a == [] then b != []
    else if b == [] then false
    else if a[0] != b[0] then a[0] < b[0]
    else LexLess(a[1..], b[1..])
  }

  lemma {:induction false} LexLessIrreflexive(a: string)
    ensures !LexLess(a, a)
  {
    if a != [] {
      LexLessIrreflexive(a[1..]);
    }
  }

  lemma {:induction false} LexLessTransitive(a: string, b: string, c: string)
    requires LexLess(a, b) && LexLess(b, c)
    ensures LexLess(a, c)
  {
    if a != [] && a[0] == b[0] && b[0] == c[0] {
      LexLessTransitive(a[1..], b[1..], c[1..]);
    }
  }

  /** Two different strings are ordered one way or the other. */
  lemma {:induction false} LexLessTotal(a: string, b: string)
    ensures a == b || LexLess(a, b) || LexLess(b, a)
  {
    if a != [] && b != [] && a[0] == b[0] {
      LexLessTotal(a[1..], b[1..]);
      if a[1..] == b[1..] {
        assert a == [a[0]] + a[1..] && b == [b[0]] + b[1..];
      }
    }
  }

  lemma LexLessAsymmetric(a: string, b: string)
    ensures !(LexLess(a, b) && LexLess(b, a))
  {
    if LexLess(a, b) && LexLess(b, a) {
      LexLessTransitive(a, b, a);
      LexLessIrreflexive(a);
    }
  }

  /** Ascending, each value once. */
  predicate StrictlySorted(s: seq<string>) {
    forall i, j | 0 <= i < j < |s| :: LexLess(s[i], s[j])
  }

  predicate Distinct(s: seq<string>) {
    forall i, j | 0 <= i < j < |s| :: s[i] != s[j]
  }

  /** `[...new Set(xs)]`: each value once, at its first occurrence. */
  function Dedupe(xs: seq<string>): (r: seq<string>)
    ensures Distinct(r)
    ensures forall y :: y in r <==> y in xs
    ensures |r| <= |xs|
  {
    if xs == [] then []
    else
      var init, last := xs[..|xs| - 1], xs[|xs| - 1];
      assert xs == init + [last];
      var d := Dedupe(init);
      if last in d then d else d + [last]
  }

  /** Places `x` before the first value that comes after it. */
  function InsertString(s: seq<string>, x: string): (r: seq<string>)
    ensures forall y :: y in r <==> y in s || y == x
    ensures |r| == |s| + 1
  {
    if s == [] then [x]
    else if LexLess(x, s[0]) then [x] + s
    else [s[0]] + InsertString(s[1..], x)
  }

  /** `.sort()`, as insertion of each value in turn. */
  function SortStrings(xs: seq<string>): (r: seq<string>)
    ensures forall y :: y in r <==> y in xs
    ensures |r| == |xs|
  {
    if xs == [] then []
    else
      assert xs == xs[..|xs| - 1] + [xs[|xs| - 1]];
      InsertString(SortStrings(xs[..|xs| - 1]), xs[|xs| - 1])
  }

  lemma {:induction false} InsertStringSorted(s: seq<string>, x: string)
    requires StrictlySorted(s) && x !in s
    ensures StrictlySorted(InsertString(s, x))
  {
    if s != [] {
      if LexLess(x, s[0]) {
        var r := [x] + s;
        forall j | 0 < j < |r| ensures LexLess(r[0], r[j]) {
          if j > 1 {
            LexLessTransitive(x, s[0], s[j - 1]);
          }
        }
      } else {
        LexLessTotal(x, s[0]);
        var tail := s[1..];
        assert StrictlySorted(tail) by {
          forall i, j | 0 <= i < j < |tail| ensures LexLess(tail[i], tail[j]) {
            assert tail[i] == s[i + 1] && tail[j] == s[j + 1];
          }
        }
        InsertStringSorted(tail, x);
        var t := InsertString(tail, x);
        var r := [s[0]] + t;
        forall j | 0 < j < |r| ensures LexLess(r[0], r[j]) {
          assert r[j] == t[j - 1];
          if t[j - 1] != x {
            assert t[j - 1] in t;
            var k :| 0 <= k < |tail| && tail[k] == t[j - 1];
            assert s[k + 1] == t[j - 1];
          }
        }
      }
    }
  }

  lemma {:induction false} SortStringsSorted(xs: seq<string>)
    requires Distinct(xs)
    ensures StrictlySorted(SortStrings(xs))
  {
    if xs != [] {
      var init := xs[..|xs| - 1];
      assert Distinct(init) by {
        forall i, j | 0 <= i < j < |init| ensures init[i] != init[j] {
          assert init[i] == xs[i] && init[j] == xs[j];
        }
      }
      SortStringsSorted(init);
      assert xs[|xs| - 1] !in init by {
        forall k | 0 <= k < |init| ensures init[k] != xs[|xs| - 1] {
          assert init[k] == xs[k];
        }
      }
      InsertStringSorted(SortStrings(init), xs[|xs| - 1]);
    }
  }

  /** `[...new Set(xs)].sort()`: the distinct values of `xs`, ascending. */
  function FacetValues(xs: seq<string>): (r: seq<string>)
    ensures StrictlySorted(r)
    ensures forall y :: y in r <==> y in xs
  {
    var d := Dedupe(xs);
    SortStringsSorted(d);
    SortStrings(d)
  }

  /** The smallest value of an ascending list is its head. */
  lemma HeadIsLeast(s: seq<string>, y: string)
    requires StrictlySorted(s) && y in s
    ensures y == s[0] || LexLess(s[0], y)
  {
  }

  /** Past the head of an ascending list are the list's other values. */
  lemma TailMembers(s: seq<string>)
    requires StrictlySorted(s) && s != []
    ensures forall y :: y in s[1..] <==> y in s && y != s[0]
  {
    forall y ensures y in s[1..] <==> y in s && y != s[0] {
      if y in s[1..] {
        var k :| 0 <= k < |s[1..]| && s[1..][k] == y;
        assert LexLess(s[0], s[k + 1]);
        LexLessIrreflexive(y);
      }
      if y in s && y != s[0] {
        var k :| 0 <= k < |s| && s[k] == y;
        assert s[1..][k - 1] == y;
      }
    }
  }

  /** An ascending list of distinct values is determined by the values alone: the options
      do not depend on the order in which the recommendations arrive. */
  lemma {:induction false} StrictlySortedUnique(a: seq<string>, b: seq<string>)
    requires StrictlySorted(a) && StrictlySorted(b)
    requires forall y :: y in a <==> y in b
    ensures a == b
  {
    assert a != [] ==> a[0] in b;
    assert b != [] ==> b[0] in a;
    if a != [] && b != [] {
      HeadIsLeast(a, b[0]);
      HeadIsLeast(b, a[0]);
      LexLessAsymmetric(a[0], b[0]);
      var ta, tb := a[1..], b[1..];
      TailMembers(a);
      TailMembers(b);
      assert StrictlySorted(ta) by {
        forall i, j | 0 <= i < j < |ta| ensures LexLess(ta[i], ta[j]) {
          assert ta[i] == a[i + 1] && ta[j] == a[j + 1];
        }
      }
      assert StrictlySorted(tb) by {
        forall i, j | 0 <= i < j < |tb| ensures LexLess(tb[i], tb[j]) {
          assert tb[i] == b[i + 1] && tb[j] == b[j + 1];
        }
      }
      StrictlySortedUnique(ta, tb);
      assert a == [a[0]] + ta && b == [b[0]] + tb;
    }
  }

  /** `recommendations.map(r => r.brand)` and `recommendations.map(r => r.os)`. */
  function BrandsOf(recs: seq<PhoneRecommendation>): seq<string> {
    seq(|recs|, i requires 0 <= i < |recs| => recs[i].brand)
  }

  function OsesOf(recs: seq<PhoneRecommendation>): seq<string> {
    seq(|recs|, i requires 0 <= i < |recs| => recs[i].os)
  }

  predicate BrandOccurs(recs: seq<PhoneRecommendation>, b: string) {
    exists i | 0 <= i < |recs| :: recs[i].brand == b
  }

  predicate OsOccurs(recs: seq<PhoneRecommendation>, o: string) {
    exists i | 0 <= i < |recs| :: recs[i].os == o
  }

  /** What the panel shows: each select's choices, "all" first, and whether the clear
      button is there. */
  datatype FilterPanel = FilterPanel(brandChoices: seq<string>, osChoices: seq<string>, showClearButton: bool)

  /** `FilterControls`: nothing for an empty list; otherwise "all" followed by the distinct
      brands (operating systems) of the list in ascending order, and the clear button
      exactly when a filter is set. */
  function Render(recs: seq<PhoneRecommendation>, filters: ActiveFilters): (r: Option<FilterPanel>)
    ensures r.None? <==> recs == []
    ensures r.Some? ==> |r.value.brandChoices| >= 1 && |r.value.osChoices| >= 1
    ensures r.Some? ==> r.value.brandChoices[0] == All && StrictlySorted(r.value.brandChoices[1..])
    ensures r.Some? ==> forall b :: b in r.value.brandChoices[1..] <==>
                          BrandOccurs(recs, b)
    ensures r.Some? ==> r.value.osChoices[0] == All && StrictlySorted(r.value.osChoices[1..])
    ensures r.Some? ==> forall o :: o in r.value.osChoices[1..] <==>
                          OsOccurs(recs, o)
    ensures r.Some? ==> (r.value.showClearButton <==> filters.brand != All || filters.os != All)
  {
    if recs == [] then None
    else
      var brands, oses := FacetValues(BrandsOf(recs)), FacetValues(OsesOf(recs));
      assert ([All] + brands)[1..] == brands && ([All] + oses)[1..] == oses;
      assert forall b :: b in BrandsOf(recs) <==> BrandOccurs(recs, b) by {
        forall b | b in BrandsOf(recs) ensures BrandOccurs(recs, b) {
          var i :| 0 <= i < |recs| && BrandsOf(recs)[i] == b;
          assert recs[i].brand == b;
        }
        forall b | BrandOccurs(recs, b) ensures b in BrandsOf(recs) {
          var i :| 0 <= i < |recs| && recs[i].brand == b;
          assert BrandsOf(recs)[i] == b;
        }
      }
      assert forall o :: o in OsesOf(recs) <==> OsOccurs(recs, o) by {
        forall o | o in OsesOf(recs) ensures OsOccurs(recs, o) {
          var i :| 0 <= i < |recs| && OsesOf(recs)[i] == o;
          assert recs[i].os == o;
        }
        forall o | OsOccurs(recs, o) ensures o in OsesOf(recs) {
          var i :| 0 <= i < |recs| && recs[i].os == o;
          assert OsesOf(recs)[i] == o;
        }
      }
      Some(FilterPanel([All] + brands, [All] + oses, filters.brand != All || filters.os != All))
  }

  /** The choices depend only on which brands and systems occur, not on the order or the
      repetition of the recommendations. */
  lemma RenderDependsOnValuesOnly(recs: seq<PhoneRecommendation>, other: seq<PhoneRecommendation>, filters: ActiveFilters)
    requires recs != [] && other != []
    requires forall b :: BrandOccurs(recs, b) <==> BrandOccurs(other, b)
    requires forall o :: OsOccurs(recs, o) <==> OsOccurs(other, o)
    ensures Render(recs, filters) == Render(other, filters)
  {
    var r, q := Render(recs, filters).value, Render(other, filters).value;
    StrictlySortedUnique(r.brandChoices[1..], q.brandChoices[1..]);
    StrictlySortedUnique(r.osChoices[1..], q.osChoices[1..]);
    assert r.brandChoices == [All] + r.brandChoices[1..];
    assert q.brandChoices == [All] + q.brandChoices[1..];
    assert r.osChoices == [All] + r.osChoices[1..];
    assert q.osChoices == [All] + q.osChoices[1..];
  }

  /** With no filter set (right after a search or a clear), the clear button is hidden. */
  lemma NoFiltersNoClearButton(recs: seq<PhoneRecommendation>)
    requires recs != []
    ensures !Render(recs, NoFilters).value.showClearButton
  {
  }
}
