/**
 * The risk gauge: its three risk bands, the needle angle, and the three five-bar rows of the
 * risk breakdown, whose lit counts come from `Math.ceil`.
 */
module RiskMeter {

  datatype RiskBand = LowRisk | ModerateRisk | HighRisk {
    function Label(): string {
      match this
      case LowRisk => "Low Risk"
      case ModerateRisk => "Moderate Risk"
      case HighRisk => "High Risk"
    }

    function Colour(): string {
      match this
      case LowRisk => "#10B981"
      case ModerateRisk => "#F59E0B"
      case HighRisk => "#EF4444"
    }

    function Rank(): nat {
      match this
      case LowRisk => 0
      case ModerateRisk => 1
      case HighRisk => 2
    }
  }

  /** `getRiskLevel`: at most 3 is low, at most 6 moderate, anything above is high. */
  function RiskLevel(score: real): (b: RiskBand)
    ensures b == LowRisk <==> score <= 3.0
    ensures b == ModerateRisk <==> 3.0 < score <= 6.0
    ensures b == HighRisk <==> 6.0 < score
  {
    if score <= 3.0 then LowRisk else if score <= 6.0 then ModerateRisk else HighRisk
  }

  /** A higher score never lands in a lower band. */
  lemma RiskLevelMonotone(a: real, b: real)
    requires a <= b
    ensures RiskLevel(a).Rank() <= RiskLevel(b).Rank()
  {
  }

  /** `Math.min(Math.max(score, 0), 10)`. */
  function NormalizedScore(score: real): (n: real)
    ensures 0.0 <= n <= 10.0
    ensures 0.0 <= score <= 10.0 ==> n == score
    ensures score < 0.0 ==> n == 0.0
    ensures score > 10.0 ==> n == 10.0
  {
    if score < 0.0 then 0.0 else if score > 10.0 then 10.0 else score
  }

  /** Where the needle points, in degrees along the semicircle. */
  function Angle(score: real): (a: real)
    ensures 0.0 <= a <= 180.0
  {
    NormalizedScore(score) / 10.0 * 180.0
  }

  /** A higher score never moves the needle back. */
  lemma AngleMonotone(a: real, b: real)
    requires a <= b
    ensures Angle(a) <= Angle(b)
  {
  }

  /** `Math.ceil(x)`: the least integer not below `x`. */
  function Ceil(x: real): (c: int)
    ensures x <= c as real < x + 1.0
  {
    -((-x).Floor)
  }

  /** Bar `i` of a row (1 to 5) is lit when `i` does not exceed the row's threshold. */
  function Lit(threshold: int): (row: seq<bool>)
    ensures |row| == 5
    ensures forall i :: 0 <= i < 5 ==> (row[i] <==> i + 1 <= threshold)
  {
    seq(5, i => i + 1 <= threshold)
  }

  function CountLit(row: seq<bool>): nat {
    if row == [] then 0 else (if row[0] then 1 else 0) + CountLit(row[1..])
  }

  /** The threshold clamped to the five bars there are. */
  function Clamp(threshold: int): int {
    if threshold < 0 then 0 else if threshold > 5 then 5 else threshold
  }

  /** Lit bars always form a prefix, and there are as many as the clamped threshold. */
  lemma LitCount(threshold: int)
    ensures CountLit(Lit(threshold)) == Clamp(threshold)
  {
    var row := Lit(threshold);
    assert row == [1 <= threshold, 2 <= threshold, 3 <= threshold, 4 <= threshold, 5 <= threshold];
    assert row[1..] == [2 <= threshold, 3 <= threshold, 4 <= threshold, 5 <= threshold];
    assert row[2..] == [3 <= threshold, 4 <= threshold, 5 <= threshold];
    assert row[3..] == [4 <= threshold, 5 <= threshold];
    assert row[4..] == [5 <= threshold];
    assert row[4..][1..] == [];
    assert CountLit(row[4..]) == if 5 <= threshold then 1 else 0;
    assert CountLit(row[3..]) == (if 4 <= threshold then 1 else 0) + CountLit(row[4..]);
    assert CountLit(row[2..]) == (if 3 <= threshold then 1 else 0) + CountLit(row[3..]);
    assert CountLit(row[1..]) == (if 2 <= threshold then 1 else 0) + CountLit(row[2..]);
  }

  /** Market risk: bar `i` is lit when `i <= ceil(score / 2)`. */
  function MarketThreshold(score: real): int {
    Ceil(score / 2.0)
  }

  /** Volatility: bar `i` is lit when `i <= ceil((score + 1) / 2)`. */
  function VolatilityThreshold(score: real): int {
    Ceil((score + 1.0) / 2.0)
  }

  /** Liquidity: bar `i` is lit when `i <= max(1, 6 - ceil(score / 2))`. */
  function LiquidityThreshold(score: real): (t: int)
    ensures t >= 1
  {
    var t := 6 - Ceil(score / 2.0);
    if t < 1 then 1 else t
  }

  /** The volatility row never shows fewer lit bars than the market row, and at most one more. */
  lemma VolatilityCoversMarket(score: real)
    ensures MarketThreshold(score) <= VolatilityThreshold(score) <= MarketThreshold(score) + 1
    ensures CountLit(Lit(MarketThreshold(score))) <= CountLit(Lit(VolatilityThreshold(score)))
  {
    LitCount(MarketThreshold(score));
    LitCount(VolatilityThreshold(score));
  }

  /** At least one liquidity bar is lit whatever the score. */
  lemma LiquidityAlwaysLit(score: real)
    ensures CountLit(Lit(LiquidityThreshold(score))) >= 1
    ensures Lit(LiquidityThreshold(score))[0]
  {
    LitCount(LiquidityThreshold(score));
  }

  /** On the 0-10 scale the market and liquidity rows light complementary counts: 6 bars between them. */
  lemma MarketAndLiquidityComplement(score: real)
    requires 0.0 < score <= 10.0
    ensures CountLit(Lit(MarketThreshold(score))) + CountLit(Lit(LiquidityThreshold(score))) == 6
  {
    LitCount(MarketThreshold(score));
    LitCount(LiquidityThreshold(score));
  }
}
