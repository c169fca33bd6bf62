/**
 * The adjustment step of `predict_salary`: every raw prediction is paired
 * with the same-numbered row of the ID-gated frame, the employee's figures
 * are read with their fallbacks, a base salary is chosen and scaled, and a
 * low / optimal / high range is cut between the departmental budget and the
 * market CTC.
 *
 * The figures are Python floats, which may be NaN.  `Number` keeps NaN apart
 * so that `min`, `max` and the comparisons behave as Python's do on it:
 * every comparison with NaN is false, and `min`/`max` keep the first
 * argument unless a later one compares strictly smaller/larger.
 */
module ModelEngine {
  import opened Wrappers
  import opened Frames
  import DataProcessing

  /** A float as the adjustment sees it: a finite value or NaN. */
  datatype Number = Fin(x: real) | NaN

  /** One cell as a float: NaN stays NaN, a boolean counts as 1 or 0, a string is not a number. */
  function AsNumber(c: Cell): (n: Option<Number>)
    ensures n.None? <==> c.Some? && c.value.Text?
  {
    match c
    case None => Some(NaN)
    case Some(Num(x)) => Some(Fin(x))
    case Some(Flag(b)) => Some(Fin(if b then 1.0 else 0.0))
    case Some(Text(_)) => None
  }

  /** Reading a cell for arithmetic: a string there raises, naming the column. */
  function Read(c: Cell, column: string): (r: Result<Number, string>)
    ensures r.Err? <==> AsNumber(c).None?
    ensures r.Err? ==> r.error == column
  {
    match AsNumber(c)
    case None => Err(column)
    case Some(n) => Ok(n)
  }

  /** `a < b` on floats. */
  predicate Below(a: Number, b: Number) {
    a.Fin? && b.Fin? && a.x < b.x
  }

  /** Python's two-argument `min`: the second argument only when it is strictly smaller. */
  function Min(a: Number, b: Number): (r: Number)
    ensures r == a || r == b
    ensures a.Fin? && b.Fin? ==> r.Fin? && r.x <= a.x && r.x <= b.x
  {
    if Below(b, a) then b else a
  }

  /** Python's two-argument `max`: the second argument only when it is strictly larger. */
  function Max(a: Number, b: Number): (r: Number)
    ensures r == a || r == b
    ensures a.Fin? && b.Fin? ==> r.Fin? && r.x >= a.x && r.x >= b.x
  {
    if Below(a, b) then b else a
  }

  function Times(a: Number, b: Number): (r: Number)
    ensures r.Fin? <==> a.Fin? && b.Fin?
  {
    if a.Fin? && b.Fin? then Fin(a.x * b.x) else NaN
  }

  /** The multiplier for a performance rating: 2.5% per point above 3 (and below it, a cut). */
  function RatingFactor(rating: Number): Number {
    if rating.Fin? then Fin(1.0 + (rating.x - 3.0) * 0.025) else NaN
  }

  // ---------------------------------------------------------------------
  // One employee.

  /** The figures of one employee after the fallbacks, as cells (they are recorded as read). */
  datatype Inputs = Inputs(
    deptBudget: Cell,
    marketCtc: Cell,
    previousSalary: Cell,
    experience: Cell,
    promotion: Cell,
    currentCtc: Cell,
    perfRating: Cell,
    teamSize: Cell)

  /** One record of the adjusted output. */
  datatype Adjustment = Adjustment(low: Number, optimal: Number, high: Number, raw: real, inputs: Inputs)

  /** The cell of `column` in `row` when the frame has that column, else the fallback. */
  function Pick(columns: seq<string>, row: Row, column: string, fallback: Cell): Cell {
    if column in columns then Get(row, column) else fallback
  }

  /**
   * The figures for one row: budget, market CTC and previous salary fall
   * back to the prediction, current CTC to the previous salary, experience
   * to 0, promotion to False, rating to 3 and team size to 1.
   */
  function Resolve(columns: seq<string>, row: Row, pred: real): (e: Inputs)
    ensures "Departmental Budget" in columns ==> e.deptBudget == Get(row, "Departmental Budget")
    ensures "Market CTC" in columns ==> e.marketCtc == Get(row, "Market CTC")
    ensures "Previous Salary" in columns ==> e.previousSalary == Get(row, "Previous Salary")
    ensures "Experience" in columns ==> e.experience == Get(row, "Experience")
    ensures "Promotion" in columns ==> e.promotion == Get(row, "Promotion")
    ensures "Current CTC" in columns ==> e.currentCtc == Get(row, "Current CTC")
    ensures "Performance Rating" in columns ==> e.perfRating == Get(row, "Performance Rating")
    ensures "Team Size" in columns ==> e.teamSize == Get(row, "Team Size")
  {
    var previous := Pick(columns, row, "Previous Salary", Some(Num(pred)));
    Inputs(
      Pick(columns, row, "Departmental Budget", Some(Num(pred))),
      Pick(columns, row, "Market CTC", Some(Num(pred))),
      previous,
      Pick(columns, row, "Experience", Some(Num(0.0))),
      Pick(columns, row, "Promotion", Some(Flag(false))),
      Pick(columns, row, "Current CTC", previous),
      Pick(columns, row, "Performance Rating", Some(Num(3.0))),
      Pick(columns, row, "Team Size", Some(Num(1.0))))
  }

  /**
   * The fallbacks for absent columns: the prediction for the three money
   * figures, the resolved previous salary for current CTC (so the prediction
   * when both are absent), 0 years, no promotion, rating 3 and a team of 1.
   */
  lemma ResolveFallbacks(columns: seq<string>, row: Row, pred: real)
    ensures var e := Resolve(columns, row, pred);
      && ("Departmental Budget" !in columns ==> e.deptBudget == Some(Num(pred)))
      && ("Market CTC" !in columns ==> e.marketCtc == Some(Num(pred)))
      && ("Previous Salary" !in columns ==> e.previousSalary == Some(Num(pred)))
      && ("Experience" !in columns ==> e.experience == Some(Num(0.0)))
      && ("Promotion" !in columns ==> e.promotion == Some(Flag(false)))
      && ("Current CTC" !in columns ==> e.currentCtc == e.previousSalary)
      && ("Previous Salary" !in columns && "Current CTC" !in columns ==> e.currentCtc == Some(Num(pred)))
      && ("Performance Rating" !in columns ==> e.perfRating == Some(Num(3.0)))
      && ("Team Size" !in columns ==> e.teamSize == Some(Num(1.0)))
  {
  }

  /**
   * The base before the multipliers: for a fresher (experience at most 1)
   * the lower of budget and market CTC, otherwise the highest of the
   * prediction, the previous salary and the current CTC.
   */
  function StartingBase(pred: real, e: Inputs, experience: Number): Result<Number, string> {
    if experience.Fin? && experience.x <= 1.0 then
      var budget :- Read(e.deptBudget, "Departmental Budget");
      var market :- Read(e.marketCtc, "Market CTC");
      Ok(Min(budget, market))
    else
      var previous :- Read(e.previousSalary, "Previous Salary");
      var current :- Read(e.currentCtc, "Current CTC");
      Ok(Max(Max(Fin(pred), previous), current))
  }

  /** The base after the promotion (15%), rating and team-size (5% above five) multipliers. */
  function BaseSalary(pred: real, e: Inputs): Result<Number, string> {
    var experience :- Read(e.experience, "Experience");
    var start :- StartingBase(pred, e, experience);
    var promoted := if Truthy(e.promotion) then Times(start, Fin(1.15)) else start;
    var rating :- Read(e.perfRating, "Performance Rating");
    var rated := Times(promoted, RatingFactor(rating));
    var team :- Read(e.teamSize, "Team Size");
    Ok(if Below(Fin(5.0), team) then Times(rated, Fin(1.05)) else rated)
  }

  /** The range for one employee, or the column whose string value makes the arithmetic raise. */
  function Recommend(pred: real, e: Inputs): Result<Adjustment, string> {
    var base :- BaseSalary(pred, e);
    var budget :- Read(e.deptBudget, "Departmental Budget");
    var market :- Read(e.marketCtc, "Market CTC");
    Ok(Adjustment(
      Max(budget, Times(base, Fin(0.95))),
      Min(Max(base, budget), market),
      Min(market, Times(base, Fin(1.10))),
      pred,
      e))
  }

  /** The per-row body of the loop, updating the base salary step by step. */
  method AdjustRow(pred: real, e: Inputs) returns (r: Result<Adjustment, string>)
    ensures r == Recommend(pred, e)
  {
    var experience := Read(e.experience, "Experience");
    if experience.Err? {
      return Err(experience.error);
    }
    var base: Number;
    if experience.value.Fin? && experience.value.x <= 1.0 {
      var budget := Read(e.deptBudget, "Departmental Budget");
      if budget.Err? {
        return Err(budget.error);
      }
      var market := Read(e.marketCtc, "Market CTC");
      if market.Err? {
        return Err(market.error);
      }
      base := Min(budget.value, market.value);
    } else {
      var previous := Read(e.previousSalary, "Previous Salary");
      if previous.Err? {
        return Err(previous.error);
      }
      var current := Read(e.currentCtc, "Current CTC");
      if current.Err? {
        return Err(current.error);
      }
      base := Max(Max(Fin(pred), previous.value), current.value);
    }
    if Truthy(e.promotion) {
      base := Times(base, Fin(1.15));
    }
    var rating := Read(e.perfRating, "Performance Rating");
    if rating.Err? {
      return Err(rating.error);
    }
    base := Times(base, RatingFactor(rating.value));
    var team := Read(e.teamSize, "Team Size");
    if team.Err? {
      return Err(team.error);
    }
    if Below(Fin(5.0), team.value) {
      base := Times(base, Fin(1.05));
    }
    var budget := Read(e.deptBudget, "Departmental Budget");
    if budget.Err? {
      return Err(budget.error);
    }
    var low := Max(budget.value, Times(base, Fin(0.95)));
    var market := Read(e.marketCtc, "Market CTC");
    if market.Err? {
      return Err(market.error);
    }
    var high := Min(market.value, Times(base, Fin(1.10)));
    var optimal := Min(Max(base, budget.value), market.value);
    return Ok(Adjustment(low, optimal, high, pred, e));
  }

  // ---------------------------------------------------------------------
  // The whole call.

  datatype EngineError =
    | RowMissing(index: nat)                   // `df.iloc[i]` past the last row
    | NotNumeric(index: nat, column: string)   // a string where the arithmetic wants a number

  /** Without a frame the raw predictions come back; with one, one record per prediction. */
  datatype Prediction = Unadjusted(preds: seq<real>) | Adjusted(records: seq<Adjustment>)

  /** The record for prediction `i` against row `i` of the gated table `g`. */
  function RowRecord(g: Table, i: nat, pred: real): Result<Adjustment, EngineError> {
    if i >= |g.rows| then Err(RowMissing(i))
    else
      match Recommend(pred, Resolve(g.columns, g.rows[i], pred))
      case Err(column) => Err(NotNumeric(i, column))
      case Ok(a) => Ok(a)
  }

  /** What the loop body yields for each prediction, row by row. */
  function Outcomes(preds: seq<real>, g: Table): (rs: seq<Result<Adjustment, EngineError>>)
    ensures |rs| == |preds|
  {
    seq(|preds|, i requires 0 <= i < |preds| => RowRecord(g, i, preds[i]))
  }

  /** The first `n` outcomes gathered in order; the first error aborts the loop. */
  function Collect<T, E>(rs: seq<Result<T, E>>, n: nat): Result<seq<T>, E>
    requires n <= |rs|
  {
    if n == 0 then Ok([])
    else
      var done :- Collect(rs, n - 1);
      var a :- rs[n - 1];
      Ok(done + [a])
  }

  function Predict(preds: seq<real>, df: Option<Table>): Result<Prediction, EngineError> {
    match df
    case None => Ok(Unadjusted(preds))
    case Some(t) =>
      var records :- Collect(Outcomes(preds, GateIds(t)), |preds|);
      Ok(Adjusted(records))
  }

  /** One iteration of the loop: `df.iloc[i]`, the fallbacks, and the adjustment. */
  method AdjustAt(g: Frame, i: nat, pred: real) returns (r: Result<Adjustment, EngineError>)
    ensures r == RowRecord(g.View(), i, pred)
  {
    if i >= |g.rows| {
      return Err(RowMissing(i));
    }
    var a := AdjustRow(pred, Resolve(g.columns, g.rows[i], pred));
    if a.Err? {
      return Err(NotNumeric(i, a.error));
    }
    return Ok(a.value);
  }

  /**
   * `predict_salary` given the model's predictions: without a frame they
   * come back as they are; with one, the caller's frame has its ID column
   * coerced in place, and the gated copy supplies one row per prediction.
   */
  method PredictSalary(preds: seq<real>, df: Frame?) returns (r: Result<Prediction, EngineError>)
    modifies df
    ensures df == null ==> r == Ok(Unadjusted(preds))
    ensures df != null ==> r == Predict(preds, Some(old(df.View())))
    ensures df != null ==> df.View() == CoercedIds(old(df.View()))
  {
    if df == null {
      return Ok(Unadjusted(preds));
    }
    var g := CoerceIds(df);
    var records := AdjustAll(preds, g);
    if records.Err? {
      return Err(records.error);
    }
    return Ok(Adjusted(records.value));
  }

  /** The loop over the predictions: one record each, stopping at the first row that raises. */
  method AdjustAll(preds: seq<real>, g: Frame) returns (r: Result<seq<Adjustment>, EngineError>)
    ensures r == Collect(Outcomes(preds, g.View()), |preds|)
  {
    ghost var rs := Outcomes(preds, g.View());
    var records: seq<Adjustment> := [];
    var i := 0;
    while i < |preds|
      invariant 0 <= i <= |preds|
      invariant Collect(rs, i) == Ok(records)
    {
      var a := AdjustAt(g, i, preds[i]);
      CollectStep(rs, i);
      if a.Err? {
        CollectStopsAtError(rs, i + 1, |preds|);
        return Err(a.error);
      }
      records := records + [a.value];
      i := i + 1;
    }
    return Ok(records);
  }

  /** One more outcome: its error, or its value appended. */
  lemma CollectStep<T, E>(rs: seq<Result<T, E>>, i: nat)
    requires i < |rs| && Collect(rs, i).Ok?
    ensures rs[i].Err? ==> Collect(rs, i + 1) == Err(rs[i].error)
    ensures rs[i].Ok? ==> Collect(rs, i + 1) == Ok(Collect(rs, i).value + [rs[i].value])
  {
  }

  /** Once a prefix fails, every longer prefix fails with the same error. */
  lemma {:induction false} CollectStopsAtError<T, E>(rs: seq<Result<T, E>>, m: nat, n: nat)
    requires m <= n <= |rs|
    requires Collect(rs, m).Err?
    ensures Collect(rs, n) == Collect(rs, m)
  {
    if n > m {
      CollectStopsAtError(rs, m, n - 1);
    }
  }

  // ---------------------------------------------------------------------
  // What the loop produces.

  /**
   * Gathering succeeds exactly when every outcome up to `n` does; then it
   * holds their values, in order.
   */
  lemma {:induction false} CollectSpec<T, E>(rs: seq<Result<T, E>>, n: nat)
    requires n <= |rs|
    ensures Collect(rs, n).Ok? <==> forall i | 0 <= i < n :: rs[i].Ok?
    ensures Collect(rs, n).Ok? ==>
              && |Collect(rs, n).value| == n
              && forall i | 0 <= i < n :: Ok(Collect(rs, n).value[i]) == rs[i]
  {
    if n > 0 {
      CollectSpec(rs, n - 1);
      var prev := Collect(rs, n - 1);
      if prev.Ok? && rs[n - 1].Ok? {
        var all := Collect(rs, n).value;
        assert all == prev.value + [rs[n - 1].value];
        forall i | 0 <= i < n ensures Ok(all[i]) == rs[i] {
          if i < n - 1 {
            assert all[i] == prev.value[i];
          }
        }
      }
    }
  }

  /** The first failing outcome decides the error. */
  lemma {:induction false} CollectFailsAt<T, E>(rs: seq<Result<T, E>>, n: nat, j: nat)
    requires j < n <= |rs| && rs[j].Err?
    requires forall i | 0 <= i < j :: rs[i].Ok?
    ensures Collect(rs, n) == Err(rs[j].error)
  {
    if n - 1 == j {
      CollectSpec(rs, j);
    } else {
      CollectFailsAt(rs, n - 1, j);
    }
  }

  /** A failing loop reports the first row that fails; every earlier row succeeds. */
  lemma {:induction false} BatchFailsAtFirstError(preds: seq<real>, g: Table, n: nat)
    requires n <= |preds| && Collect(Outcomes(preds, g), n).Err?
    ensures var e := Collect(Outcomes(preds, g), n).error;
      && e.index < n
      && RowRecord(g, e.index, preds[e.index]) == Err(e)
      && forall i | 0 <= i < e.index :: RowRecord(g, i, preds[i]).Ok?
  {
    var rs := Outcomes(preds, g);
    var j := CollectFirstError(rs, n);
    RecordErrorIndex(g, j, preds[j]);
    forall i | 0 <= i < j ensures RowRecord(g, i, preds[i]).Ok? {
      assert rs[i] == RowRecord(g, i, preds[i]);
    }
  }

  /** A failed gathering names some outcome's error, and every outcome before it succeeded. */
  lemma {:induction false} CollectFirstError<T, E>(rs: seq<Result<T, E>>, n: nat) returns (j: nat)
    requires n <= |rs| && Collect(rs, n).Err?
    ensures j < n && rs[j] == Err(Collect(rs, n).error)
    ensures forall i | 0 <= i < j :: rs[i].Ok?
  {
    if Collect(rs, n - 1).Err? {
      j := CollectFirstError(rs, n - 1);
    } else {
      CollectSpec(rs, n - 1);
      j := n - 1;
    }
  }

  /** A row's error carries that row's index. */
  lemma RecordErrorIndex(g: Table, i: nat, pred: real)
    requires RowRecord(g, i, pred).Err?
    ensures RowRecord(g, i, pred).error.index == i
  {
  }

  lemma RecordKeepsPrediction(g: Table, i: nat, pred: real)
    requires RowRecord(g, i, pred).Ok?
    ensures RowRecord(g, i, pred).value.raw == pred
    ensures i < |g.rows| && RowRecord(g, i, pred).value.inputs == Resolve(g.columns, g.rows[i], pred)
  {
  }

  /** A row index past the end of the gated frame is the only way to get `RowMissing`. */
  lemma RowMissingIffShort(g: Table, i: nat, pred: real)
    ensures RowRecord(g, i, pred).Err? && RowRecord(g, i, pred).error.RowMissing? <==> i >= |g.rows|
  {
  }

  /**
   * With a frame, the call returns one record per prediction, in order,
   * exactly when the gated frame has enough rows and none of them raises.
   */
  lemma PredictSpec(preds: seq<real>, t: Table)
    ensures var r, g := Predict(preds, Some(t)), GateIds(t);
      && (r.Ok? <==> |preds| <= |g.rows| && forall i | 0 <= i < |preds| :: RowRecord(g, i, preds[i]).Ok?)
      && (r.Ok? ==> r.value.Adjusted? && |r.value.records| == |preds|
                    && forall i | 0 <= i < |preds| :: r.value.records[i].raw == preds[i]
                         && r.value.records[i].inputs == Resolve(g.columns, g.rows[i], preds[i]))
  {
    var g := GateIds(t);
    var rs := Outcomes(preds, g);
    CollectSpec(rs, |preds|);
    assert forall i | 0 <= i < |preds| :: rs[i] == RowRecord(g, i, preds[i]);
    forall i | 0 <= i < |preds| && RowRecord(g, i, preds[i]).Ok? ensures RowRecord(g, i, preds[i]).value.raw == preds[i]
      && RowRecord(g, i, preds[i]).value.inputs == Resolve(g.columns, g.rows[i], preds[i])
    {
      RecordKeepsPrediction(g, i, preds[i]);
    }
    if |preds| > |g.rows| {
      RowMissingIffShort(g, |g.rows|, preds[|g.rows|]);
    }
  }

  /**
   * A frame that has been through the preprocessor passes the ID gate
   * unchanged, so prediction `i` meets row `i` of the preprocessed frame.
   */
  lemma PreprocessedFrameStaysAligned(t: Table)
    ensures GateIds(DataProcessing.Preprocess(t)) == DataProcessing.Preprocess(t)
  {
    GateIdsIdempotent(DataProcessing.Normalized(t));
  }

  // ---------------------------------------------------------------------
  // The base salary.

  /** For a fresher the base ignores the prediction (given figures not defaulted to it). */
  lemma FresherIgnoresPrediction(pred1: real, pred2: real, e: Inputs, years: real)
    requires e.experience == Some(Num(years)) && years <= 1.0
    ensures BaseSalary(pred1, e) == BaseSalary(pred2, e)
    ensures Recommend(pred1, e).Ok? <==> Recommend(pred2, e).Ok?
    ensures Recommend(pred1, e).Ok? ==> Recommend(pred2, e).value == Recommend(pred1, e).value.(raw := pred2)
  {
  }

  /** A fresher starts from the lower of budget and market CTC. */
  lemma FresherStartsAtLowerBound(pred: real, e: Inputs, years: real, b: real, m: real)
    requires e.experience == Some(Num(years)) && years <= 1.0
    requires e.deptBudget == Some(Num(b)) && e.marketCtc == Some(Num(m))
    ensures StartingBase(pred, e, Fin(years)) == Ok(Fin(if m < b then m else b))
  {
  }

  /** Otherwise the start is the highest of the prediction, the previous salary and the current CTC. */
  lemma ExperiencedStartDominates(pred: real, e: Inputs, years: real, previous: real, current: real)
    requires e.experience == Some(Num(years)) && years > 1.0
    requires e.previousSalary == Some(Num(previous)) && e.currentCtc == Some(Num(current))
    ensures var s := StartingBase(pred, e, Fin(years));
      && s.Ok? && s.value.Fin?
      && s.value.x >= pred && s.value.x >= previous && s.value.x >= current
      && (s.value.x == pred || s.value.x == previous || s.value.x == current)
  {
  }

  /** NaN experience counts as experienced (the comparison is false). */
  lemma MissingExperienceIsExperienced(pred: real, e: Inputs)
    requires e.experience == None
    ensures Read(e.experience, "Experience") == Ok(NaN)
    ensures StartingBase(pred, e, NaN) == (
      var previous :- Read(e.previousSalary, "Previous Salary");
      var current :- Read(e.currentCtc, "Current CTC");
      Ok(Max(Max(Fin(pred), previous), current)))
  {
  }

  /** Multipliers can be applied in either order, NaN or not. */
  lemma TimesSwap(a: Number, b: Number, c: Number)
    ensures Times(Times(a, b), c) == Times(Times(a, c), b)
  {
    if a.Fin? && b.Fin? && c.Fin? {
      assert a.x * b.x * c.x == a.x * c.x * b.x;
    }
  }

  /** A truthy promotion cell scales the base by exactly 15%. */
  lemma PromotionAddsFifteenPercent(pred: real, e: Inputs)
    requires Truthy(e.promotion)
    ensures var plain := BaseSalary(pred, e.(promotion := Some(Flag(false))));
      && (BaseSalary(pred, e).Ok? <==> plain.Ok?)
      && (plain.Ok? ==> BaseSalary(pred, e).value == Times(plain.value, Fin(1.15)))
  {
    var p := e.(promotion := Some(Flag(false)));
    var experience := Read(e.experience, "Experience");
    if experience.Ok? && StartingBase(pred, e, experience.value).Ok? {
      var start := StartingBase(pred, e, experience.value).value;
      assert StartingBase(pred, p, experience.value) == Ok(start);
      var rating := Read(e.perfRating, "Performance Rating");
      if rating.Ok? {
        var factor := RatingFactor(rating.value);
        TimesSwap(start, Fin(1.15), factor);
        TimesSwap(Times(start, factor), Fin(1.15), Fin(1.05));
      }
    }
  }

  /** With a positive start, a higher rating gives a strictly higher base. */
  lemma HigherRatingHigherBase(pred: real, e: Inputs, r1: real, r2: real, start: real)
    requires e.perfRating == Some(Num(r1)) && r1 < r2
    requires Read(e.experience, "Experience").Ok?
    requires StartingBase(pred, e, Read(e.experience, "Experience").value) == Ok(Fin(start)) && start > 0.0
    requires AsNumber(e.teamSize).Some?
    ensures var b1, b2 := BaseSalary(pred, e), BaseSalary(pred, e.(perfRating := Some(Num(r2))));
      b1.Ok? && b2.Ok? && b1.value.Fin? && b2.value.Fin? && b1.value.x < b2.value.x
  {
    var e2 := e.(perfRating := Some(Num(r2)));
    var experience := Read(e.experience, "Experience").value;
    assert StartingBase(pred, e2, experience) == Ok(Fin(start));
    var promoted := if Truthy(e.promotion) then Times(Fin(start), Fin(1.15)) else Fin(start);
    assert promoted.Fin? && promoted.x > 0.0;
    var q1, q2 := Times(promoted, RatingFactor(Fin(r1))), Times(promoted, RatingFactor(Fin(r2)));
    RatingFactorIncreases(promoted.x, r1, r2);
    var team := AsNumber(e.teamSize).value;
    assert BaseSalary(pred, e) == Ok(if Below(Fin(5.0), team) then Times(q1, Fin(1.05)) else q1);
    assert BaseSalary(pred, e2) == Ok(if Below(Fin(5.0), team) then Times(q2, Fin(1.05)) else q2);
    MultiplyStrictly(1.05, q1.x, q2.x);
  }

  /** A rating of `r` scales the base a rating of 3 would give by exactly `1 + (r - 3) * 0.025`. */
  lemma RatingScalesBase(pred: real, e: Inputs, r: real)
    ensures var rated, plain := BaseSalary(pred, e.(perfRating := Some(Num(r)))), BaseSalary(pred, e.(perfRating := Some(Num(3.0))));
      && (rated.Ok? <==> plain.Ok?)
      && (plain.Ok? ==> rated.value == Times(plain.value, Fin(1.0 + (r - 3.0) * 0.025)))
  {
    var er, e3 := e.(perfRating := Some(Num(r))), e.(perfRating := Some(Num(3.0)));
    var experience := Read(e.experience, "Experience");
    if experience.Ok? && StartingBase(pred, e, experience.value).Ok? {
      var start := StartingBase(pred, e, experience.value).value;
      assert StartingBase(pred, er, experience.value) == Ok(start);
      assert StartingBase(pred, e3, experience.value) == Ok(start);
      var promoted := if Truthy(e.promotion) then Times(start, Fin(1.15)) else start;
      var factor := Fin(1.0 + (r - 3.0) * 0.025);
      assert Times(promoted, Fin(1.0)) == promoted;
      TimesSwap(promoted, factor, Fin(1.05));
    }
  }

  lemma RatingFactorIncreases(p: real, r1: real, r2: real)
    requires p > 0.0 && r1 < r2
    ensures var q1, q2 := Times(Fin(p), RatingFactor(Fin(r1))), Times(Fin(p), RatingFactor(Fin(r2)));
      q1.Fin? && q2.Fin? && q1.x < q2.x
  {
    MultiplyStrictly(p, 1.0 + (r1 - 3.0) * 0.025, 1.0 + (r2 - 3.0) * 0.025);
  }

  lemma MultiplyStrictly(p: real, a: real, b: real)
    requires p > 0.0 && a < b
    ensures p * a < p * b && a * p < b * p
  {
  }

  /** A team above five adds exactly 5%; five or fewer, nothing. */
  lemma TeamBump(pred: real, e: Inputs, size: real)
    requires e.teamSize == Some(Num(size))
    ensures var plain := BaseSalary(pred, e.(teamSize := Some(Num(1.0))));
      && (BaseSalary(pred, e).Ok? <==> plain.Ok?)
      && (plain.Ok? ==> BaseSalary(pred, e).value == if size > 5.0 then Times(plain.value, Fin(1.05)) else plain.value)
  {
    var experience := Read(e.experience, "Experience");
    if experience.Ok? {
      assert StartingBase(pred, e, experience.value) == StartingBase(pred, e.(teamSize := Some(Num(1.0))), experience.value);
    }
  }

  // ---------------------------------------------------------------------
  // The range.

  /**
   * With a finite budget `b`, market CTC `m` and base `x`: the low end is
   * the larger of `b` and 95% of `x`, the high end the smaller of `m` and
   * 110% of `x`, and the optimum is `x` clamped to `[b, m]` (ending at `m`
   * when the two cross).
   */
  lemma RangeBounds(pred: real, e: Inputs, b: real, m: real, x: real)
    requires e.deptBudget == Some(Num(b)) && e.marketCtc == Some(Num(m))
    requires BaseSalary(pred, e) == Ok(Fin(x))
    ensures Recommend(pred, e).Ok?
    ensures var a := Recommend(pred, e).value;
      && a.low.Fin? && a.low.x >= b && a.low.x >= 0.95 * x && (a.low.x == b || a.low.x == 0.95 * x)
      && a.high.Fin? && a.high.x <= m && a.high.x <= 1.10 * x && (a.high.x == m || a.high.x == 1.10 * x)
      && a.optimal.Fin? && a.optimal.x <= m
      && (b <= m ==> b <= a.optimal.x)
      && (b <= x <= m ==> a.optimal.x == x)
      && (x < b <= m ==> a.optimal.x == b)
      && (m < x ==> a.optimal.x == m)
      && (m < b ==> a.optimal.x == m)
  {
  }

  /** The range is in order exactly when budget, market CTC and the two scaled bases do not cross. */
  lemma RangeOrdered(pred: real, e: Inputs, b: real, m: real, x: real)
    requires e.deptBudget == Some(Num(b)) && e.marketCtc == Some(Num(m))
    requires BaseSalary(pred, e) == Ok(Fin(x)) && x >= 0.0
    ensures Recommend(pred, e).Ok?
    ensures var a := Recommend(pred, e).value;
      a.low.x <= a.high.x <==> b <= m && b <= 1.10 * x && 0.95 * x <= m
  {
    RangeBounds(pred, e, b, m, x);
  }

  /** A NaN market CTC leaves no ceiling: the high end is NaN and the optimum is the base raised to the budget. */
  lemma MissingMarketLeavesNoCeiling(pred: real, e: Inputs)
    requires e.marketCtc == None && Recommend(pred, e).Ok?
    ensures Recommend(pred, e).value.high == NaN
    ensures Recommend(pred, e).value.optimal == Max(BaseSalary(pred, e).value, AsNumber(e.deptBudget).value)
  {
  }

  /** A NaN budget leaves no floor: the low end is NaN and the optimum is the base capped at the market CTC. */
  lemma MissingBudgetLeavesNoFloor(pred: real, e: Inputs)
    requires e.deptBudget == None && Recommend(pred, e).Ok?
    ensures Recommend(pred, e).value.low == NaN
    ensures Recommend(pred, e).value.optimal == Min(BaseSalary(pred, e).value, AsNumber(e.marketCtc).value)
  {
  }

  // ---------------------------------------------------------------------
  // Worked cases.

  /** A fresher: the prediction above both bounds is ignored and the optimum is the budget. */
  lemma FresherExample()
    ensures var e := Inputs(Some(Num(500000.0)), Some(Num(600000.0)), Some(Num(0.0)), Some(Num(1.0)),
                            Some(Flag(false)), Some(Num(0.0)), Some(Num(3.0)), Some(Num(1.0)));
      Recommend(700000.0, e) == Ok(Adjustment(Fin(500000.0), Fin(500000.0), Fin(550000.0), 700000.0, e))
  {
  }

  /** An experienced employee, not promoted, rating 3, team of 2. */
  lemma ExperiencedExample()
    ensures var e := Inputs(Some(Num(600000.0)), Some(Num(900000.0)), Some(Num(750000.0)), Some(Num(5.0)),
                            Some(Flag(false)), Some(Num(780000.0)), Some(Num(3.0)), Some(Num(2.0)));
      Recommend(800000.0, e) == Ok(Adjustment(Fin(760000.0), Fin(800000.0), Fin(880000.0), 800000.0, e))
  {
  }

  /** The same employee promoted: the base becomes 920000, so the optimum is 900000 (the market CTC). */
  lemma PromotedExample()
    ensures var e := Inputs(Some(Num(600000.0)), Some(Num(900000.0)), Some(Num(750000.0)), Some(Num(5.0)),
                            Some(Flag(true)), Some(Num(780000.0)), Some(Num(3.0)), Some(Num(2.0)));
      Recommend(800000.0, e) == Ok(Adjustment(Fin(874000.0), Fin(900000.0), Fin(900000.0), 800000.0, e))
  {
  }

  /** Promotion, rating 5 and a team of 6 compound: 800000 * 1.15 * 1.05 * 1.05 = 1014300. */
  lemma CompoundedExample()
    ensures var e := Inputs(Some(Num(600000.0)), Some(Num(2000000.0)), Some(Num(750000.0)), Some(Num(5.0)),
                            Some(Flag(true)), Some(Num(780000.0)), Some(Num(5.0)), Some(Num(6.0)));
      && BaseSalary(800000.0, e) == Ok(Fin(1014300.0))
      && Recommend(800000.0, e) == Ok(Adjustment(Fin(963585.0), Fin(1014300.0), Fin(1115730.0), 800000.0, e))
  {
  }

  /** A budget above the market CTC: the low end passes the high end. */
  lemma InvertedBoundsExample()
    ensures var e := Inputs(Some(Num(900000.0)), Some(Num(400000.0)), Some(Num(500000.0)), Some(Num(4.0)),
                            Some(Flag(false)), Some(Num(500000.0)), Some(Num(3.0)), Some(Num(1.0)));
      Recommend(500000.0, e) == Ok(Adjustment(Fin(900000.0), Fin(400000.0), Fin(400000.0), 500000.0, e))
  {
  }

  /** A string in the Team Size column makes the row raise. */
  lemma TextTeamSizeRaises(pred: real, e: Inputs)
    requires e.teamSize == Some(Text("five"))
    requires Read(e.experience, "Experience").Ok?
    requires StartingBase(pred, e, Read(e.experience, "Experience").value).Ok?
    requires Read(e.perfRating, "Performance Rating").Ok?
    ensures Recommend(pred, e) == Err("Team Size")
  {
  }
}
