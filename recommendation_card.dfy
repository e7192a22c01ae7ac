/**
 * The recommendation card shown in the chat: its portfolio reads, the risk colour and badge, the
 * allocation list, and the two-line rationale summary with its "more" note. Themes only choose
 * shades of the same colour and are not modelled.
 */
module RecommendationCard {
  import opened Wrappers
  import opened Schema
  import opened Ordering
  import opened Allocation
  import RiskMeter
  import Dashboard

  /** `portfolio[asset] || 0`. */
  function PortfolioValue(p: Portfolio, asset: string): (v: real)
    ensures asset == "stocks" ==> v == p.stocks
    ensures asset == "bonds" ==> v == p.bonds
    ensures asset == "etfs" ==> v == p.etfs
    ensures asset == "crypto" ==> v == p.crypto.GetOr(0.0)
    ensures asset == "reits" ==> v == p.reits.GetOr(0.0)
    ensures asset == "commodities" ==> v == p.commodities.GetOr(0.0)
    ensures asset !in AssetTypes ==> v == 0.0
  {
    EntriesLookupRequired(p);
    EntriesLookupOptional(p);
    ValueOrZero(Entries(p), asset)
  }

  /** A key the card shows a rationale for is exactly one whose value reads above 0. */
  lemma PortfolioValuePositive(p: Portfolio, asset: string)
    ensures PortfolioValue(p, asset) > 0.0 <==> HasPositiveAllocation(p, asset)
  {
  }

  /** `assetNames[asset] || asset`. */
  function AssetName(asset: string): (name: string)
    ensures asset !in AssetTypes ==> name == asset
    ensures asset in AssetTypes ==> |name| > 0
  {
    match asset
    case "stocks" => "Stocks"
    case "bonds" => "Bonds"
    case "etfs" => "ETFs"
    case "crypto" => "Cryptocurrency"
    case "reits" => "REITs"
    case "commodities" => "Commodities"
    case _ => asset
  }

  /** No two asset classes share a display name. */
  lemma AssetNamesDistinct(a: string, b: string)
    requires a in AssetTypes && b in AssetTypes && a != b
    ensures AssetName(a) != AssetName(b)
  {
  }

  /** The three tones the card's risk colour and badge are drawn in. */
  datatype RiskTone = Green | Yellow | Red

  /** `getRiskColor`. */
  function RiskColor(score: real): (t: RiskTone)
    ensures t == Green <==> score <= 3.0
    ensures t == Yellow <==> 3.0 < score <= 6.0
    ensures t == Red <==> 6.0 < score
  {
    if score <= 3.0 then Green else if score <= 6.0 then Yellow else Red
  }

  datatype RiskBadge = RiskBadge(text: string, tone: RiskTone)

  /** `getRiskBadge`. */
  function RiskBadgeOf(score: real): (b: RiskBadge)
    ensures b.text == "Conservative" <==> score <= 3.0
    ensures b.text == "Balanced" <==> 3.0 < score <= 6.0
    ensures b.text == "Aggressive" <==> 6.0 < score
  {
    if score <= 3.0 then RiskBadge("Conservative", Green)
    else if score <= 6.0 then RiskBadge("Balanced", Yellow)
    else RiskBadge("Aggressive", Red)
  }

  function ToneOf(band: RiskMeter.RiskBand): RiskTone {
    match band
    case LowRisk => Green
    case ModerateRisk => Yellow
    case HighRisk => Red
  }

  /** The badge is drawn in the score's colour, and both follow the risk gauge's bands. */
  lemma RiskBadgeMatchesColour(score: real)
    ensures RiskBadgeOf(score).tone == RiskColor(score)
    ensures RiskColor(score) == ToneOf(RiskMeter.RiskLevel(score))
  {
  }

  function NamedEntry(e: (string, real)): (string, real) {
    (AssetName(e.0), e.1)
  }

  /** The card's allocation list: positive entries largest first, under their display names. */
  function AllocationList(p: Portfolio): (list: seq<(string, real)>)
    ensures |list| == PositiveCount(p)
    ensures forall i :: 0 <= i < |list| ==> list[i].1 > 0.0
    ensures NonIncreasing(list, Percentage)
    ensures forall i :: 0 <= i < |list| ==>
              list[i] == (AssetName(RankedAllocations(p)[i].0), RankedAllocations(p)[i].1)
  {
    var ranked := RankedAllocations(p);
    assert forall i :: 0 <= i < |ranked| ==> ranked[i] in ranked;
    Map(ranked, NamedEntry)
  }

  /** The card lists the same percentages in the same order as the dashboard's report. */
  lemma AllocationListMatchesReport(p: Portfolio)
    ensures |AllocationList(p)| == |Dashboard.ReportAllocations(p)|
    ensures forall i :: 0 <= i < |AllocationList(p)| ==>
              AllocationList(p)[i].1 == Dashboard.ReportAllocations(p)[i].percentage
  {
  }

  /** The card's summary: the first two rationales whose asset holds a positive allocation. */
  function RationaleSummary(r: ClientRecommendation): (s: seq<(string, string)>)
    ensures |s| <= 2 && |s| <= |RationaleWithAllocation(r)|
    ensures forall x :: x in s ==> HasPositiveAllocation(r.portfolio, x.0)
    ensures s == RationaleWithAllocation(r)[..|s|]
    ensures |s| == 2 || s == RationaleWithAllocation(r)
  {
    Take(RationaleWithAllocation(r), 2)
  }

  function RationaleKey(x: (string, string)): string {
    x.0
  }

  function AllocatedKey(p: Portfolio): string -> bool {
    k => PortfolioValue(p, k) > 0.0
  }

  /** `Object.keys(rationale).filter(asset => getPortfolioValue(asset) > 0).length`. */
  function ExplainedCount(r: ClientRecommendation): nat {
    |Filter(Map(r.rationale, RationaleKey), AllocatedKey(r.portfolio))|
  }

  /** The "+ n more" note: shown only when more than two rationales qualify. */
  function MoreCount(r: ClientRecommendation): Option<nat> {
    var n := ExplainedCount(r);
    if n > 2 then Some(n - 2) else None
  }

  /** Counting the keys counts exactly the rationales the dashboard lists. */
  lemma ExplainedCountIsShown(r: ClientRecommendation)
    ensures ExplainedCount(r) == |RationaleWithAllocation(r)|
  {
    forall x ensures AllocatedIn(r.portfolio)(x) == AllocatedKey(r.portfolio)(RationaleKey(x)) {
      PortfolioValuePositive(r.portfolio, x.0);
    }
    FilterMapLength(r.rationale, RationaleKey, AllocatedKey(r.portfolio), AllocatedIn(r.portfolio));
  }

  /** The summary and the note together account for every qualifying rationale, none twice. */
  lemma SummaryAndMoreCoverAll(r: ClientRecommendation)
    ensures MoreCount(r).Some? <==> |RationaleWithAllocation(r)| > 2
    ensures |RationaleSummary(r)| + MoreCount(r).GetOr(0) == |RationaleWithAllocation(r)|
  {
    ExplainedCountIsShown(r);
  }
}
