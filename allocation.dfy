/**
 * What several components derive the same way from a client recommendation: the portfolio's
 * positive entries largest first (`.filter(v > 0).sort((a, b) => b - a)`), how many there are,
 * and the rationales whose asset holds a positive allocation.
 */
module Allocation {
  import opened Wrappers
  import opened Schema
  import opened Ordering

  /** The percentage of a portfolio entry. */
  function Percentage(e: (string, real)): real {
    e.1
  }

  /** `.filter(v => v > 0)` on rows whose value is `value(row)`. */
  function Positives<T(!new)>(s: seq<T>, value: T -> real): (r: seq<T>)
    ensures |r| <= |s|
    ensures forall x :: x in r ==> value(x) > 0.0
  {
    Filter(s, x => value(x) > 0.0)
  }

  /** The rows with a positive value, largest first; rows of equal value keep their order. */
  function RankedBy<T(!new)>(s: seq<T>, value: T -> real): (r: seq<T>)
    ensures |r| == |Positives(s, value)|
    ensures forall x :: x in r ==> value(x) > 0.0
    ensures NonIncreasing(r, value)
  {
    var f := Positives(s, value);
    var r := SortDescending(f, value);
    assert forall x :: x in r ==> x in multiset(r);
    r
  }

  /** Ranking keeps each positive row as often as it occurs and drops every other row. */
  lemma RankedMultiset<T(!new)>(s: seq<T>, value: T -> real)
    ensures forall x :: multiset(RankedBy(s, value))[x] == if value(x) > 0.0 then multiset(s)[x] else 0
  {
    FilterMultiset(s, x => value(x) > 0.0);
    assert Positives(s, value) == Filter(s, x => value(x) > 0.0);
  }

  /** Rows of equal positive value appear in the ranking in the order they had. */
  lemma RankedStable<T(!new)>(s: seq<T>, value: T -> real, v: real)
    requires v > 0.0
    ensures WithKey(RankedBy(s, value), value, v) == WithKey(s, value, v)
  {
    var p := x => value(x) > 0.0;
    assert Positives(s, value) == Filter(s, p);
    SortDescendingStable(Filter(s, p), value, v);
    WithKeyFilter(s, value, p, v);
  }

  /** The positive entries of a client portfolio, largest first. */
  function RankedAllocations(p: Portfolio): seq<(string, real)> {
    RankedBy(Entries(p), Percentage)
  }

  /** `Object.entries(portfolio).filter(([, v]) => v > 0).length`. */
  function PositiveCount(p: Portfolio): (n: nat)
    ensures n <= 6
  {
    |Positives(Entries(p), Percentage)|
  }

  /** `portfolio[asset] > 0`, where a missing asset reads as `undefined`, which is not positive. */
  predicate HasPositiveAllocation(p: Portfolio, asset: string) {
    ValueOrZero(Entries(p), asset) > 0.0
  }

  /** The rationale filter's test, as a value that can be passed around. */
  function AllocatedIn(p: Portfolio): ((string, string)) -> bool {
    (x: (string, string)) => HasPositiveAllocation(p, x.0)
  }

  /** `Object.entries(rationale).filter(([asset]) => portfolio[asset] > 0)`. */
  function RationaleWithAllocation(r: ClientRecommendation): (shown: seq<(string, string)>)
    ensures |shown| <= |r.rationale|
    ensures forall x :: x in shown ==> HasPositiveAllocation(r.portfolio, x.0)
  {
    Filter(r.rationale, AllocatedIn(r.portfolio))
  }

  /** Every rationale whose asset has a positive allocation is kept, in the order of the rationale. */
  lemma RationaleWithAllocationKeepsOrder(r: ClientRecommendation, i: nat, j: nat)
    requires i < j < |r.rationale|
    requires HasPositiveAllocation(r.portfolio, r.rationale[i].0)
    requires HasPositiveAllocation(r.portfolio, r.rationale[j].0)
    ensures exists a, b :: 0 <= a < b < |RationaleWithAllocation(r)|
                           && RationaleWithAllocation(r)[a] == r.rationale[i]
                           && RationaleWithAllocation(r)[b] == r.rationale[j]
  {
    var p := AllocatedIn(r.portfolio);
    FilterIndex(r.rationale, p, i);
    FilterIndex(r.rationale, p, j);
    FilterPrefixGrows(r.rationale, p, i, j);
    var a, b := |Filter(r.rationale[..i], p)|, |Filter(r.rationale[..j], p)|;
    assert RationaleWithAllocation(r)[a] == r.rationale[i];
    assert RationaleWithAllocation(r)[b] == r.rationale[j];
  }

  /** A rationale entry is shown exactly when it is in the rationale and its asset is allocated. */
  lemma RationaleWithAllocationMember(r: ClientRecommendation, x: (string, string))
    ensures x in RationaleWithAllocation(r) <==> x in r.rationale && HasPositiveAllocation(r.portfolio, x.0)
  {
    FilterMultiset(r.rationale, AllocatedIn(r.portfolio));
    assert x in RationaleWithAllocation(r) <==> x in multiset(RationaleWithAllocation(r));
    assert x in r.rationale <==> x in multiset(r.rationale);
  }

  /** Keeping the positive rows is filtering on any test that says a row is positive. */
  lemma PositivesAsFilter<T(!new)>(s: seq<T>, value: T -> real, q: T -> bool)
    requires forall x :: q(x) == (value(x) > 0.0)
    ensures Positives(s, value) == Filter(s, q)
  {
    FilterSameTest(s, x => value(x) > 0.0, q);
  }

  /** Ranking rows mapped to new rows of the same value is mapping the ranked rows. */
  lemma RankedCommutesWithMap<T(!new), U(!new)>(s: seq<T>, value: T -> real, f: T -> U, fvalue: U -> real)
    requires forall x :: fvalue(f(x)) == value(x)
    ensures RankedBy(Map(s, f), fvalue) == Map(RankedBy(s, value), f)
  {
    var p := x => fvalue(x) > 0.0;
    var q := x => value(x) > 0.0;
    assert Positives(Map(s, f), fvalue) == Filter(Map(s, f), p);
    assert Positives(s, value) == Filter(s, q);
    FilterCommutesWithMap(s, f, p, q);
    SortCommutesWithMap(Positives(s, value), value, f, fvalue);
  }
}
