/**
 * The salary parity analysis printed on the PDF report: how far the
 * predicted salary sits from the market CTC and from the departmental
 * budget, as a score rounded to two decimals, and a bias flag raised when
 * the unrounded score falls below 0.9.
 */
module ReportGenerator {
  import opened Numbers

  /** `data.get(key, 0)`. */
  function Lookup(data: map<string, real>, key: string): real {
    if key in data then data[key] else 0.0
  }

  function Abs(x: real): (r: real)
    ensures r >= 0.0 && (r == x || r == -x)
  {
    if x < 0.0 then -x else x
  }

  /**
   * One minus the mean of the relative distances of the prediction from the
   * market CTC and from the budget; 0.5 when either is zero (or absent).
   */
  function RawScore(pred: real, market: real, dept: real): real {
    if market != 0.0 && dept != 0.0 then
      1.0 - (Abs(pred - market) / market + Abs(pred - dept) / dept) / 2.0
    else
      0.5
  }

  datatype Parity = Parity(score: real, bias: bool)

  /** The rounded score and the bias flag; the flag looks at the score before rounding. */
  function SalaryParityAnalysis(data: map<string, real>): (r: Parity)
    ensures var raw := RawScore(Lookup(data, "Predicted Salary"), Lookup(data, "Market CTC"), Lookup(data, "Departmental Budget"));
      && (r.score * 100.0).Floor as real == r.score * 100.0
      && -0.005 <= r.score - raw <= 0.005
      && (r.bias <==> raw < 0.9)
  {
    var raw := RawScore(Lookup(data, "Predicted Salary"), Lookup(data, "Market CTC"), Lookup(data, "Departmental Budget"));
    Parity(Round2(raw), raw < 0.9)
  }

  /** Without a market CTC or a budget (absent or zero) the score is 0.5, always flagged. */
  lemma MissingBenchmarkIsFlagged(data: map<string, real>)
    requires Lookup(data, "Market CTC") == 0.0 || Lookup(data, "Departmental Budget") == 0.0
    ensures SalaryParityAnalysis(data) == Parity(0.5, true)
  {
    Round2OfHundredths(50);
  }

  /** The printed score never contradicts the flag: at most 0.9 when flagged, at least 0.9 when not. */
  lemma ScoreAgreesWithBias(data: map<string, real>)
    ensures var r := SalaryParityAnalysis(data);
      && (r.bias ==> r.score <= 0.9)
      && (!r.bias ==> r.score >= 0.9)
  {
    var raw := RawScore(Lookup(data, "Predicted Salary"), Lookup(data, "Market CTC"), Lookup(data, "Departmental Budget"));
    Round2OfHundredths(90);
    assert 90 as real / 100.0 == 0.9;
    if raw < 0.9 {
      Round2Monotone(raw, 0.9);
    } else {
      Round2Monotone(0.9, raw);
    }
  }

  /** A score printed as 0.9 can come with the flag raised: 0.899 rounds up. */
  lemma RoundedScoreCanHideBias()
    ensures var r := SalaryParityAnalysis(map["Predicted Salary" := 1101.0, "Market CTC" := 1000.0, "Departmental Budget" := 1000.0]);
      r.score == 0.9 && r.bias
  {
    var data := map["Predicted Salary" := 1101.0, "Market CTC" := 1000.0, "Departmental Budget" := 1000.0];
    assert RawScore(1101.0, 1000.0, 1000.0) == 0.899;
    var y := 0.899 * 100.0;
    assert y.Floor == 89;
  }

  /** A score of exactly 0.9 is not flagged. */
  lemma BoundaryIsUnflagged()
    ensures SalaryParityAnalysis(map["Predicted Salary" := 1100.0, "Market CTC" := 1000.0, "Departmental Budget" := 1000.0])
         == Parity(0.9, false)
  {
    assert RawScore(1100.0, 1000.0, 1000.0) == 0.9;
    Round2OfHundredths(90);
    assert 90 as real / 100.0 == 0.9;
  }

  /** With positive benchmarks the score is at most 1, and exactly 1 only when all three agree. */
  lemma ScoreAtMostOne(pred: real, market: real, dept: real)
    requires market > 0.0 && dept > 0.0
    ensures RawScore(pred, market, dept) <= 1.0
    ensures RawScore(pred, market, dept) == 1.0 <==> pred == market == dept
  {
    var a, b := Abs(pred - market) / market, Abs(pred - dept) / dept;
    DivideNonNegative(Abs(pred - market), market);
    DivideNonNegative(Abs(pred - dept), dept);
    if a == 0.0 {
      assert Abs(pred - market) == a * market;
    }
    if b == 0.0 {
      assert Abs(pred - dept) == b * dept;
    }
  }

  lemma DivideNonNegative(x: real, y: real)
    requires x >= 0.0 && y > 0.0
    ensures x / y >= 0.0
    ensures x / y == 0.0 <==> x == 0.0
  {
  }

  /** Within 5% of both benchmarks the score is at least 0.95, so no bias is flagged. */
  lemma WithinFivePercentIsUnflagged(data: map<string, real>)
    requires var p, m, d := Lookup(data, "Predicted Salary"), Lookup(data, "Market CTC"), Lookup(data, "Departmental Budget");
      m > 0.0 && d > 0.0 && Abs(p - m) <= 0.05 * m && Abs(p - d) <= 0.05 * d
    ensures RawScore(Lookup(data, "Predicted Salary"), Lookup(data, "Market CTC"), Lookup(data, "Departmental Budget")) >= 0.95
    ensures !SalaryParityAnalysis(data).bias && SalaryParityAnalysis(data).score >= 0.95
  {
    var p, m, d := Lookup(data, "Predicted Salary"), Lookup(data, "Market CTC"), Lookup(data, "Departmental Budget");
    RatioAtMost(Abs(p - m), m, 0.05);
    RatioAtMost(Abs(p - d), d, 0.05);
    var raw := RawScore(p, m, d);
    Round2OfHundredths(95);
    assert 95 as real / 100.0 == 0.95;
    Round2Monotone(0.95, raw);
  }

  lemma RatioAtMost(x: real, y: real, k: real)
    requires y > 0.0 && x <= k * y
    ensures x / y <= k
  {
    assert x / y * y == x;
  }

  /** The two benchmarks play the same part. */
  lemma ScoreSymmetric(pred: real, market: real, dept: real)
    ensures RawScore(pred, market, dept) == RawScore(pred, dept, market)
  {
  }

  /**
   * Only the distances from the benchmarks count: an overshoot scores the
   * same as an undershoot of the same size.
   */
  lemma OverUnder(pred1: real, pred2: real, market: real, dept: real)
    requires Abs(pred1 - market) == Abs(pred2 - market) && Abs(pred1 - dept) == Abs(pred2 - dept)
    ensures RawScore(pred1, market, dept) == RawScore(pred2, market, dept)
  {
  }

  /** A prediction at three times both benchmarks or more scores -1 or less: the score is not bounded below by 0. */
  lemma FarPredictionScoresNegative(pred: real, market: real, dept: real)
    requires market > 0.0 && dept > 0.0 && pred >= 3.0 * market && pred >= 3.0 * dept
    ensures RawScore(pred, market, dept) <= -1.0
  {
    AtLeastRatio(pred - market, market, 2.0);
    AtLeastRatio(pred - dept, dept, 2.0);
  }

  lemma AtLeastRatio(x: real, y: real, k: real)
    requires y > 0.0 && x >= k * y
    ensures x / y >= k
  {
    assert x / y * y == x;
  }
}
