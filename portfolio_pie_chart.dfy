/**
 * The portfolio pie chart: one slice per asset class above 0, named and coloured by class,
 * largest first, with a percentage label only on slices of at least 5% of the pie.
 */
module PortfolioPieChart {
  import opened JsText
  import opened Schema
  import opened Ordering
  import opened Allocation

  /** `colors[name] || '#6B7280'`. */
  function SliceColour(asset: string): (colour: string)
    ensures asset !in AssetTypes ==> colour == "#6B7280"
  {
    match asset
    case "stocks" => "#3B82F6"
    case "bonds" => "#10B981"
    case "etfs" => "#8B5CF6"
    case "crypto" => "#F59E0B"
    case "reits" => "#14B8A6"
    case "commodities" => "#EF4444"
    case _ => "#6B7280"
  }

  /** `assetNames[name] || name.charAt(0).toUpperCase() + name.slice(1)`. */
  function SliceName(asset: string): (name: string)
    ensures asset !in AssetTypes ==> name == Capitalize(asset)
  {
    match asset
    case "stocks" => "Stocks"
    case "bonds" => "Bonds"
    case "etfs" => "ETFs"
    case "crypto" => "Crypto"
    case "reits" => "REITs"
    case "commodities" => "Commodities"
    case _ => Capitalize(asset)
  }

  /** Each asset class has its own colour, and none is the fallback grey. */
  lemma SliceColoursDistinct(a: string, b: string)
    requires a in AssetTypes && b in AssetTypes
    ensures SliceColour(a) != "#6B7280"
    ensures a != b ==> SliceColour(a) != SliceColour(b)
  {
  }

  /** A slice: its label, its value, its colour, and the percentage the legend shows. */
  datatype Slice = Slice(name: string, value: real, colour: string, percentage: real)

  function SliceValue(s: Slice): real {
    s.value
  }

  function SliceOf(e: (string, real)): Slice {
    Slice(SliceName(e.0), e.1, SliceColour(e.0), e.1)
  }

  /** `chartData`: entries above 0, made into slices, sorted by value largest first. */
  function ChartData(p: Portfolio): (slices: seq<Slice>)
    ensures |slices| == PositiveCount(p)
    ensures forall x :: x in slices ==> x.value > 0.0 && x.percentage == x.value
    ensures NonIncreasing(slices, SliceValue)
  {
    var positives := Positives(Entries(p), Percentage);
    var mapped := Map(positives, SliceOf);
    var slices := SortDescending(mapped, SliceValue);
    assert forall x :: x in slices ==> x in multiset(mapped);
    assert forall i :: 0 <= i < |positives| ==> positives[i] in positives;
    slices
  }

  /** Sorting after making slices gives the ranked allocations, each made into a slice. */
  lemma ChartDataMatchesAllocations(p: Portfolio)
    ensures ChartData(p) == Map(RankedAllocations(p), SliceOf)
  {
    SortCommutesWithMap(Positives(Entries(p), Percentage), Percentage, SliceOf, SliceValue);
  }

  /** `percent < 0.05` hides the label. */
  predicate LabelShown(percent: real) {
    !(percent < 0.05)
  }

  /** A slice is labelled exactly when it is at least a twentieth of the pie. */
  lemma LabelShownIff(value: real, total: real)
    requires total > 0.0
    ensures LabelShown(value / total) <==> 20.0 * value >= total
  {
    if value / total < 0.05 {
      assert value == (value / total) * total;
      assert value < 0.05 * total;
    } else {
      assert value == (value / total) * total;
      assert value >= 0.05 * total;
    }
  }
}
