/**
 * The diversification radar: one point per asset class, the level its score earns, the single
 * tip shown for that level, and the breakdown of the classes that hold something.
 */
module DiversificationRadar {
  import opened Wrappers
  import opened JsText
  import opened Schema
  import opened Ordering
  import opened Allocation

  /** A point of the radar: its label, the allocation, and the axis maximum. */
  datatype RadarPoint = RadarPoint(asset: string, value: real, fullMark: real)

  function PointValue(x: RadarPoint): real {
    x.value
  }

  /** `{ asset: capitalised name, value: portfolio[asset] || 0, fullMark: 100 }`. */
  function PointFor(p: Portfolio): string -> RadarPoint {
    asset => RadarPoint(Capitalize(asset), ValueOrZero(Entries(p), asset), 100.0)
  }

  /** The radar's points, one per asset class in the fixed order. */
  function RadarData(p: Portfolio): (points: seq<RadarPoint>)
    ensures |points| == |AssetTypes| == 6
    ensures forall i :: 0 <= i < 6 ==> points[i].fullMark == 100.0
  {
    Map(AssetTypes, PointFor(p))
  }

  /** The three required classes are drawn at their allocations. */
  lemma RadarRequiredValues(p: Portfolio)
    ensures RadarData(p)[0].value == p.stocks && RadarData(p)[1].value == p.bonds
    ensures RadarData(p)[2].value == p.etfs
  {
    EntriesLookupRequired(p);
  }

  /** An optional class is drawn at its allocation, or at 0 when the portfolio leaves it out. */
  lemma RadarOptionalValues(p: Portfolio)
    ensures RadarData(p)[3].value == p.crypto.GetOr(0.0)
    ensures RadarData(p)[4].value == p.reits.GetOr(0.0)
    ensures RadarData(p)[5].value == p.commodities.GetOr(0.0)
  {
    EntriesLookupOptional(p);
  }

  /** Each label is its key with the first letter capitalised, so ETFs and REITs read "Etfs" and "Reits" here. */
  lemma RadarLabels(p: Portfolio)
    ensures forall i :: 0 <= i < 6 ==> RadarData(p)[i].asset == Capitalize(AssetTypes[i])
    ensures RadarData(p)[0].asset == "Stocks" && RadarData(p)[1].asset == "Bonds"
    ensures RadarData(p)[2].asset == "Etfs" && RadarData(p)[3].asset == "Crypto"
    ensures RadarData(p)[4].asset == "Reits" && RadarData(p)[5].asset == "Commodities"
  {
    forall i | 0 <= i < 6 ensures RadarData(p)[i].asset == Capitalize(AssetTypes[i]) {
      assert RadarData(p)[i] == PointFor(p)(AssetTypes[i]);
    }
    CapitalizedAssetTypes();
  }

  lemma CapitalizedAssetTypes()
    ensures Capitalize(AssetTypes[0]) == "Stocks" && Capitalize(AssetTypes[1]) == "Bonds"
    ensures Capitalize(AssetTypes[2]) == "Etfs" && Capitalize(AssetTypes[3]) == "Crypto"
    ensures Capitalize(AssetTypes[4]) == "Reits" && Capitalize(AssetTypes[5]) == "Commodities"
  {
    assert Capitalize("stocks") == ['S'] + "tocks";
    assert Capitalize("bonds") == ['B'] + "onds";
    assert Capitalize("etfs") == ['E'] + "tfs";
    assert Capitalize("crypto") == ['C'] + "rypto";
    assert Capitalize("reits") == ['R'] + "eits";
    assert Capitalize("commodities") == ['C'] + "ommodities";
  }

  datatype Level = Excellent | Good | Fair | Poor

  /** `getDiversificationLevel`: cut-points 8, 6 and 4. */
  function LevelOf(score: real): (l: Level)
    ensures l == Excellent <==> score >= 8.0
    ensures l == Good <==> 6.0 <= score < 8.0
    ensures l == Fair <==> 4.0 <= score < 6.0
    ensures l == Poor <==> score < 4.0
  {
    if score >= 8.0 then Excellent
    else if score >= 6.0 then Good
    else if score >= 4.0 then Fair
    else Poor
  }

  /** The four conditional tips of the analysis box. */
  datatype Tip = SpreadReducesRisk | RoomForImprovement | AddAssetClasses | Concentrated

  function TipFor(l: Level): Tip {
    match l
    case Excellent => SpreadReducesRisk
    case Good => RoomForImprovement
    case Fair => AddAssetClasses
    case Poor => Concentrated
  }

  /** The tips whose guard holds, in the order they are written. */
  function TipsShown(score: real): seq<Tip> {
    (if score >= 8.0 then [SpreadReducesRisk] else [])
    + (if score >= 6.0 && score < 8.0 then [RoomForImprovement] else [])
    + (if score >= 4.0 && score < 6.0 then [AddAssetClasses] else [])
    + (if score < 4.0 then [Concentrated] else [])
  }

  /** The guards do not overlap and leave no gap: exactly one tip shows, the one for the level. */
  lemma ExactlyOneTip(score: real)
    ensures TipsShown(score) == [TipFor(LevelOf(score))]
  {
  }

  /** The "Asset Distribution" list: points above 0, largest first. */
  function Breakdown(p: Portfolio): (items: seq<RadarPoint>)
    ensures |items| <= 6
    ensures forall x :: x in items ==> x.value > 0.0
    ensures NonIncreasing(items, PointValue)
  {
    RankedBy(RadarData(p), PointValue)
  }

  /** A portfolio entry as a radar point. */
  function EntryPoint(e: (string, real)): RadarPoint {
    RadarPoint(Capitalize(e.0), e.1, 100.0)
  }

  /** The breakdown lists the same classes in the same order as every other ranked allocation. */
  lemma BreakdownMatchesAllocations(p: Portfolio)
    ensures Breakdown(p) == Map(RankedAllocations(p), EntryPoint)
  {
    var e := Entries(p);
    PositivePointsAgree(p);
    assert RankedBy(RadarData(p), PointValue) == RankedBy(Map(e, EntryPoint), PointValue);
    RankedCommutesWithMap(e, Percentage, EntryPoint, PointValue);
  }

  /** The radar's points above 0 are the portfolio's entries above 0, as points. */
  lemma PositivePointsAgree(p: Portfolio)
    ensures Positives(RadarData(p), PointValue) == Positives(Map(Entries(p), EntryPoint), PointValue)
  {
    var q := x => PointValue(x) > 0.0;
    FilterPointsAgree(p, q);
    PositivesAsFilter(RadarData(p), PointValue, q);
    PositivesAsFilter(Map(Entries(p), EntryPoint), PointValue, q);
  }

  lemma FilterPointsAgree(p: Portfolio, q: RadarPoint -> bool)
    requires forall x :: q(x) == (PointValue(x) > 0.0)
    ensures Filter(RadarData(p), q) == Filter(Map(Entries(p), EntryPoint), q)
  {
    var f := PointFor(p);
    RadarDataSplit(p);
    EntriesSplit(p);
    OptionalPointsAgree(p, q);
    FilterOfSplit(RadarData(p), Map(Entries(p), EntryPoint), Map(Entries(p)[..3], EntryPoint),
                  [f("crypto")], [f("reits")], [f("commodities")],
                  Map(OptionalEntry("crypto", p.crypto), EntryPoint),
                  Map(OptionalEntry("reits", p.reits), EntryPoint),
                  Map(OptionalEntry("commodities", p.commodities), EntryPoint), q);
  }

  lemma FilterOfSplit<T(!new)>(s: seq<T>, t: seq<T>, head: seq<T>, a: seq<T>, b: seq<T>, c: seq<T>,
                               x: seq<T>, y: seq<T>, z: seq<T>, q: T -> bool)
    requires s == head + a + b + c && t == head + x + y + z
    requires Filter(a, q) == Filter(x, q) && Filter(b, q) == Filter(y, q) && Filter(c, q) == Filter(z, q)
    ensures Filter(s, q) == Filter(t, q)
  {
    FilterOfFour(head, a, b, c, q);
    FilterOfFour(head, x, y, z, q);
  }

  lemma OptionalPointsAgree(p: Portfolio, q: RadarPoint -> bool)
    requires forall x :: q(x) == (PointValue(x) > 0.0)
    ensures Filter([PointFor(p)("crypto")], q) == Filter(Map(OptionalEntry("crypto", p.crypto), EntryPoint), q)
    ensures Filter([PointFor(p)("reits")], q) == Filter(Map(OptionalEntry("reits", p.reits), EntryPoint), q)
    ensures Filter([PointFor(p)("commodities")], q)
            == Filter(Map(OptionalEntry("commodities", p.commodities), EntryPoint), q)
  {
    EntriesLookupOptional(p);
    OptionalPointAgrees(p, "crypto", p.crypto, q);
    OptionalPointAgrees(p, "reits", p.reits, q);
    OptionalPointAgrees(p, "commodities", p.commodities, q);
  }

  lemma FilterOfFour<T(!new)>(w: seq<T>, x: seq<T>, y: seq<T>, z: seq<T>, q: T -> bool)
    ensures Filter(w + x + y + z, q) == Filter(w, q) + Filter(x, q) + Filter(y, q) + Filter(z, q)
  {
    FilterAppend(w + x + y, z, q);
    FilterAppend(w + x, y, q);
    FilterAppend(w, x, q);
  }

  /** The radar's points: the three required classes as entries, then one point per optional class. */
  lemma RadarDataSplit(p: Portfolio)
    ensures RadarData(p) == Map(Entries(p)[..3], EntryPoint)
              + [PointFor(p)("crypto")] + [PointFor(p)("reits")] + [PointFor(p)("commodities")]
  {
    var f := PointFor(p);
    MapOfSix(AssetTypes, f);
    RequiredPointsAgree(p);
    assert AssetTypes[3] == "crypto" && AssetTypes[4] == "reits" && AssetTypes[5] == "commodities";
  }

  lemma MapOfSix<T, U>(s: seq<T>, f: T -> U)
    requires |s| == 6
    ensures Map(s, f) == Map(s[..3], f) + [f(s[3])] + [f(s[4])] + [f(s[5])]
  {
  }

  lemma RequiredPointsAgree(p: Portfolio)
    ensures Map(AssetTypes[..3], PointFor(p)) == Map(Entries(p)[..3], EntryPoint)
  {
    EntriesLookupRequired(p);
    var e := Entries(p)[..3];
    var a := AssetTypes[..3];
    var f := PointFor(p);
    assert a == ["stocks", "bonds", "etfs"];
    assert f(a[0]) == EntryPoint(e[0]);
    assert f(a[1]) == EntryPoint(e[1]);
    assert f(a[2]) == EntryPoint(e[2]);
    MapPointwise(a, e, f, EntryPoint);
  }

  lemma MapPointwise<T, S, U>(s: seq<T>, t: seq<S>, f: T -> U, g: S -> U)
    requires |s| == |t| && forall i :: 0 <= i < |s| ==> f(s[i]) == g(t[i])
    ensures Map(s, f) == Map(t, g)
  {
  }

  lemma EntriesSplit(p: Portfolio)
    ensures Map(Entries(p), EntryPoint)
            == Map(Entries(p)[..3], EntryPoint) + Map(OptionalEntry("crypto", p.crypto), EntryPoint)
               + Map(OptionalEntry("reits", p.reits), EntryPoint)
               + Map(OptionalEntry("commodities", p.commodities), EntryPoint)
  {
    var head := Entries(p)[..3];
    var c := OptionalEntry("crypto", p.crypto);
    var r := OptionalEntry("reits", p.reits);
    var m := OptionalEntry("commodities", p.commodities);
    assert Entries(p) == head + c + r + m;
    MapAppend(head + c + r, m, EntryPoint);
    MapAppend(head + c, r, EntryPoint);
    MapAppend(head, c, EntryPoint);
  }

  lemma OptionalPointAgrees(p: Portfolio, key: string, v: Option<real>, q: RadarPoint -> bool)
    requires ValueOrZero(Entries(p), key) == v.GetOr(0.0)
    requires forall x :: q(x) == (PointValue(x) > 0.0)
    ensures Filter([PointFor(p)(key)], q) == Filter(Map(OptionalEntry(key, v), EntryPoint), q)
  {
    assert [PointFor(p)(key)][1..] == [];
    if v.Some? {
      assert Map(OptionalEntry(key, v), EntryPoint) == [PointFor(p)(key)];
    }
  }
}
