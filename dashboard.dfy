/**
 * The dashboard's derived figures: its four score classifiers, the report's and the share text's
 * allocation lists, the asset count, and the guards of the export and share actions. The report's
 * text layout and the browser side of exporting and sharing are not modelled.
 */
module Dashboard {
  import opened Wrappers
  import opened JsText
  import opened Schema
  import opened Ordering
  import opened Allocation
  import Server
  import Api

  datatype RiskLevel = Conservative | Moderate | Aggressive | VeryAggressive {
    function Rank(): nat {
      match this
      case Conservative => 0
      case Moderate => 1
      case Aggressive => 2
      case VeryAggressive => 3
    }
  }

  /** `getRiskLevel`: cut-points 3, 6 and 8, the rest very aggressive. */
  function RiskLevelOf(score: real): (l: RiskLevel)
    ensures l == Conservative <==> score <= 3.0
    ensures l == Moderate <==> 3.0 < score <= 6.0
    ensures l == Aggressive <==> 6.0 < score <= 8.0
    ensures l == VeryAggressive <==> 8.0 < score
  {
    if score <= 3.0 then Conservative
    else if score <= 6.0 then Moderate
    else if score <= 8.0 then Aggressive
    else VeryAggressive
  }

  lemma RiskLevelMonotone(a: real, b: real)
    requires a <= b
    ensures RiskLevelOf(a).Rank() <= RiskLevelOf(b).Rank()
  {
  }

  datatype DiversificationQuality = Excellent | Good | Fair | NeedsImprovement

  /** `getDiversificationQuality`: cut-points 80, 70 and 60. */
  function DiversificationQualityOf(score: real): (q: DiversificationQuality)
    ensures q == Excellent <==> score >= 80.0
    ensures q == Good <==> 70.0 <= score < 80.0
    ensures q == Fair <==> 60.0 <= score < 70.0
    ensures q == NeedsImprovement <==> score < 60.0
  {
    if score >= 80.0 then Excellent
    else if score >= 70.0 then Good
    else if score >= 60.0 then Fair
    else NeedsImprovement
  }

  /** The scores the model is asked for run from 1 to 10, and every one of them needs improvement. */
  lemma TenPointScoresNeedImprovement(score: real)
    requires score <= 10.0
    ensures DiversificationQualityOf(score) == NeedsImprovement
  {
  }

  datatype RiskReturnProfile = ConservativeGrowth | BalancedGrowth | GrowthFocused | AggressiveGrowth {
    function Rank(): nat {
      match this
      case ConservativeGrowth => 0
      case BalancedGrowth => 1
      case GrowthFocused => 2
      case AggressiveGrowth => 3
    }
  }

  /**
   * `getRiskReturnProfile(risk, projections['5year']?.expected)`: a first-match cascade. A missing
   * expected return is `undefined`, which fails every comparison.
   */
  function RiskReturnProfileOf(risk: real, expected: Option<real>): RiskReturnProfile {
    if risk <= 4.0 && expected.Some? && expected.value <= 6.0 then ConservativeGrowth
    else if risk <= 6.0 && expected.Some? && expected.value <= 9.0 then BalancedGrowth
    else if risk <= 8.0 && expected.Some? && expected.value <= 12.0 then GrowthFocused
    else AggressiveGrowth
  }

  /** How far up the risk scale the profile cut-points put a risk score. */
  function RiskStep(risk: real): nat {
    if risk <= 4.0 then 0 else if risk <= 6.0 then 1 else if risk <= 8.0 then 2 else 3
  }

  /** How far up the return scale the profile cut-points put an expected return; none is the top. */
  function ReturnStep(expected: Option<real>): nat {
    if expected.None? then 3
    else if expected.value <= 6.0 then 0
    else if expected.value <= 9.0 then 1
    else if expected.value <= 12.0 then 2
    else 3
  }

  /** The cascade picks the profile of whichever of risk and return is the higher step. */
  lemma RiskReturnProfileIsHigherStep(risk: real, expected: Option<real>)
    ensures RiskReturnProfileOf(risk, expected).Rank()
            == if RiskStep(risk) >= ReturnStep(expected) then RiskStep(risk) else ReturnStep(expected)
  {
  }

  /** Without a five-year projection the profile is always the default. */
  lemma MissingReturnIsAggressive(risk: real)
    ensures RiskReturnProfileOf(risk, None) == AggressiveGrowth
  {
  }

  /** `getReviewPeriod`, in months. */
  function ReviewPeriod(risk: real): (months: nat)
    ensures months == 12 <==> RiskLevelOf(risk) == Conservative
    ensures months == 6 <==> RiskLevelOf(risk) == Moderate
    ensures months == 3 <==> RiskLevelOf(risk).Rank() >= 2
  {
    if risk <= 3.0 then 12 else if risk <= 6.0 then 6 else 3
  }

  /** More risk never lengthens the review period. */
  lemma ReviewPeriodNonIncreasing(a: real, b: real)
    requires a <= b
    ensures ReviewPeriod(a) >= ReviewPeriod(b)
  {
  }

  /** `Math.round(x)`: the nearest integer, halves rounded up. */
  function Round(x: real): (n: int)
    ensures x - 0.5 < n as real <= x + 0.5
  {
    (x + 0.5).Floor
  }

  /** A report allocation line: the asset in upper case, its percentage, and how many bar characters follow. */
  datatype ReportLine = ReportLine(asset: string, percentage: real, bars: int)

  function ReportLineOf(e: (string, real)): ReportLine {
    ReportLine(ToUpperCase(e.0), e.1, Round(e.1 / 5.0))
  }

  function LinePercentage(l: ReportLine): real {
    l.percentage
  }

  /** The report's allocation section: positive entries, largest first, one bar per 5 points. */
  function ReportAllocations(p: Portfolio): (lines: seq<ReportLine>)
    ensures |lines| == PositiveCount(p)
    ensures forall i :: 0 <= i < |lines| ==>
              lines[i].percentage > 0.0 && lines[i].bars >= 0
              && lines[i].percentage / 5.0 - 0.5 < lines[i].bars as real <= lines[i].percentage / 5.0 + 0.5
    ensures NonIncreasing(lines, LinePercentage)
    ensures forall i :: 0 <= i < |lines| ==>
              lines[i].asset == ToUpperCase(RankedAllocations(p)[i].0)
              && lines[i].percentage == RankedAllocations(p)[i].1
  {
    var ranked := RankedAllocations(p);
    ReportLinesOfRanked(ranked);
    Map(ranked, ReportLineOf)
  }

  /** Report lines of a positive list sorted largest first are positive, sorted, and have their bars. */
  lemma ReportLinesOfRanked(ranked: seq<(string, real)>)
    requires forall x :: x in ranked ==> x.1 > 0.0
    requires NonIncreasing(ranked, Percentage)
    ensures forall i :: 0 <= i < |ranked| ==>
              Map(ranked, ReportLineOf)[i].percentage > 0.0 && Map(ranked, ReportLineOf)[i].bars >= 0
    ensures NonIncreasing(Map(ranked, ReportLineOf), LinePercentage)
  {
    var lines := Map(ranked, ReportLineOf);
    forall i | 0 <= i < |ranked|
      ensures lines[i].percentage > 0.0 && lines[i].bars >= 0
    {
      assert ranked[i] in ranked;
    }
    forall i, j | 0 <= i < j < |lines|
      ensures LinePercentage(lines[i]) >= LinePercentage(lines[j])
    {
      assert Percentage(ranked[i]) >= Percentage(ranked[j]);
    }
  }

  /** `totalAssets` in the report and `assetCount` on the page: the entries above 0. */
  function AssetCount(p: Portfolio): (n: nat)
    ensures n <= 6
    ensures n == |RankedAllocations(p)|
  {
    PositiveCount(p)
  }

  /** The share text's allocations: the first three of the report's list. */
  function ShareTopAllocations(p: Portfolio): (top: seq<(string, real)>)
    ensures |top| <= 3 && |top| <= AssetCount(p)
    ensures forall x :: x in top ==> x.1 > 0.0
    ensures NonIncreasing(top, Percentage)
    ensures top == RankedAllocations(p)[..|top|]
    ensures |top| == 3 || |top| == AssetCount(p)
  {
    Take(RankedAllocations(p), 3)
  }

  /** No entry left out of the share text is larger than one that made it in. */
  lemma ShareTopAllocationsAreLargest(p: Portfolio, i: nat, j: nat)
    requires i < |ShareTopAllocations(p)| <= j < |RankedAllocations(p)|
    ensures ShareTopAllocations(p)[i].1 >= RankedAllocations(p)[j].1
  {
  }

  /** `projections['5year']?.expected || 'N/A'`: a missing horizon and a zero both read N/A. */
  function ShareExpectedReturn(projections: seq<(string, Projection)>): (shown: Option<real>)
    ensures shown.None? <==> Lookup(projections, "5year").None? || Lookup(projections, "5year").value.expected == 0.0
    ensures shown.Some? ==> shown.value == Lookup(projections, "5year").value.expected
  {
    match Lookup(projections, "5year")
    case None => None
    case Some(h) => if h.expected == 0.0 then None else Some(h.expected)
  }

  /** The key of a portfolio entry. */
  function Key(e: (string, real)): string {
    e.0
  }

  /** `k => portfolio[k] > 0` over the entries `e`. */
  function PositiveIn(e: seq<(string, real)>): string -> bool {
    k => ValueOrZero(e, k) > 0.0
  }

  /** `Object.keys(portfolio).filter(k => portfolio[k] > 0).length`, the share text's asset count. */
  function PositiveKeyCount(p: Portfolio): nat {
    |Filter(Map(Entries(p), Key), PositiveIn(Entries(p)))|
  }

  /** Counting keys by looking each one up gives the same count as counting entries. */
  lemma PositiveKeyCountIsAssetCount(p: Portfolio)
    ensures PositiveKeyCount(p) == AssetCount(p)
  {
    var e := Entries(p);
    forall x | x in e ensures ValueOrZero(e, x.0) == x.1 {
      var i :| 0 <= i < |e| && e[i] == x;
      LookupDistinct(e, i);
    }
    KeyFilterLength(e, e);
  }

  lemma {:induction false} KeyFilterLength(e: seq<(string, real)>, rest: seq<(string, real)>)
    requires forall x :: x in rest ==> ValueOrZero(e, x.0) == x.1
    ensures |Filter(Map(rest, Key), PositiveIn(e))| == |Positives(rest, Percentage)|
  {
    if rest != [] {
      assert Map(rest, Key)[1..] == Map(rest[1..], Key);
      assert rest[0] in rest;
      assert forall x :: x in rest[1..] ==> x in rest;
      KeyFilterLength(e, rest[1..]);
      assert Map(rest, Key)[0] == rest[0].0;
      assert PositiveIn(e)(rest[0].0) == (Percentage(rest[0]) > 0.0);
    }
  }

  /** The report: the figures the export writes out, without its layout. */
  /** A line of the report's return projections: the relabelled period and its three figures. */
  datatype ProjectionLine = ProjectionLine(period: string, conservative: real, expected: real, optimistic: real)

  function ProjectionLineOf(h: (string, Projection)): ProjectionLine {
    ProjectionLine(ReplaceFirst(h.0, "year", " Year"), h.1.conservative, h.1.expected, h.1.optimistic)
  }

  /** The report's return projections: every horizon in the order the record lists them, unsorted. */
  function ReportProjections(projections: seq<(string, Projection)>): (lines: seq<ProjectionLine>)
    ensures |lines| == |projections|
    ensures forall i :: 0 <= i < |lines| ==>
              lines[i].period == ReplaceFirst(projections[i].0, "year", " Year")
              && lines[i].conservative == projections[i].1.conservative
              && lines[i].expected == projections[i].1.expected
              && lines[i].optimistic == projections[i].1.optimistic
  {
    Map(projections, ProjectionLineOf)
  }

  /** A horizon key `<n>year` is printed as `<n> Year` in the report. */
  lemma ReportPeriodLabel(digits: string)
    requires forall k :: 0 <= k < |digits| ==> '0' <= digits[k] <= '9'
    ensures ProjectionLineOf((digits + "year", Projection(0.0, 0.0, 0.0))).period == digits + " Year"
  {
    ReplaceAfterDigits(digits, "year", " Year");
  }

  /**
   * The report's figures. The three risk-assessment texts are read by key, and a key the record
   * lacks is `None`, which the report prints as "undefined".
   */
  datatype Report = Report(riskScore: real, riskLevel: RiskLevel, diversificationScore: real,
                           totalAssets: nat, aiPowered: bool, allocations: seq<ReportLine>,
                           marketVolatility: Option<string>, liquidityRisk: Option<string>,
                           inflationProtection: Option<string>, projections: seq<ProjectionLine>,
                           rationale: seq<(string, string)>, userInput: Option<string>,
                           quality: DiversificationQuality, profile: RiskReturnProfile,
                           reviewMonths: nat)

  /** `generateReportContent`. */
  function ReportOf(r: ClientRecommendation): Report {
    var fiveYear := Lookup(r.projections, "5year");
    Report(r.riskScore, RiskLevelOf(r.riskScore), r.diversificationScore, AssetCount(r.portfolio),
           r.isAI == Some(true), ReportAllocations(r.portfolio),
           Lookup(r.riskAssessment, "marketVolatility"), Lookup(r.riskAssessment, "liquidityRisk"),
           Lookup(r.riskAssessment, "inflationProtection"), ReportProjections(r.projections),
           r.rationale, r.userInput,
           DiversificationQualityOf(r.diversificationScore),
           RiskReturnProfileOf(r.riskScore, if fiveYear.Some? then Some(fiveYear.value.expected) else None),
           ReviewPeriod(r.riskScore))
  }

  /** The report counts exactly the assets it lists. */
  lemma ReportCountsItsLines(r: ClientRecommendation)
    ensures ReportOf(r).totalAssets == |ReportOf(r).allocations|
  {
  }

  /** `handleExportReport`: nothing happens without a current recommendation. */
  function ExportReport(current: Option<ClientRecommendation>): (report: Option<Report>)
    ensures report.None? <==> current.None?
    ensures report.Some? ==> report.value.riskScore == current.value.riskScore
                             && report.value.totalAssets == AssetCount(current.value.portfolio)
  {
    if current.None? then None else Some(ReportOf(current.value))
  }

  /** The share text: the figures `generateShareText` writes out. */
  datatype ShareText = ShareText(top: seq<(string, real)>, expected: Option<real>, riskLevel: RiskLevel,
                                 riskScore: real, diversificationScore: real, positiveAssets: nat,
                                 marketVolatility: Option<string>, inflationProtection: Option<string>)

  function ShareTextOf(r: ClientRecommendation): ShareText {
    ShareText(ShareTopAllocations(r.portfolio), ShareExpectedReturn(r.projections),
              RiskLevelOf(r.riskScore), r.riskScore, r.diversificationScore, PositiveKeyCount(r.portfolio),
              Lookup(r.riskAssessment, "marketVolatility"), Lookup(r.riskAssessment, "inflationProtection"))
  }

  /** `handleSharePortfolio`: nothing happens without a current recommendation. */
  function SharePortfolio(current: Option<ClientRecommendation>): (text: Option<ShareText>)
    ensures text.None? <==> current.None?
    ensures text.Some? ==> |text.value.top| <= 3
  {
    if current.None? then None else Some(ShareTextOf(current.value))
  }

  /** The share text agrees with the report: same risk level, same count, and its top three lead the report's list. */
  lemma ShareAgreesWithReport(r: ClientRecommendation)
    ensures ShareTextOf(r).riskLevel == ReportOf(r).riskLevel
    ensures ShareTextOf(r).positiveAssets == ReportOf(r).totalAssets
    ensures forall i :: 0 <= i < |ShareTextOf(r).top| ==>
              ToUpperCase(ShareTextOf(r).top[i].0) == ReportOf(r).allocations[i].asset
              && ShareTextOf(r).top[i].1 == ReportOf(r).allocations[i].percentage
  {
    PositiveKeyCountIsAssetCount(r.portfolio);
  }

  /**
   * The mock's risk assessment uses other keys than the ones the dashboard reads. So a report or
   * share text of the mock prints "undefined" for market volatility and inflation protection,
   * and prints the mock's liquidity text.
   */
  lemma MockReadsUndefinedRisks()
    ensures var r := Api.ConvertToRecommendation(Server.MockRecommendation());
            ReportOf(r).marketVolatility.None? && ReportOf(r).inflationProtection.None?
            && ReportOf(r).liquidityRisk == Some("High liquidity with ability to exit positions quickly")
            && ShareTextOf(r).marketVolatility.None? && ShareTextOf(r).inflationProtection.None?
  {
    var a := Server.MockRecommendation().riskAssessment;
    Server.MockRiskAssessmentKeys();
    assert a[2] == ("liquidityRisk", "High liquidity with ability to exit positions quickly");
    assert a[0].0 != "liquidityRisk" && a[1].0 != "liquidityRisk";
    assert forall i :: 0 <= i < |a| ==> a[i].0 != "inflationProtection";
  }
}
