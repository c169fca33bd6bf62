# Employee salary prediction: preprocessing, salary adjustment and parity score

This project models the deterministic core of the EmployeeSalaryPrediction pipeline in Dafny and proves properties of the model. The core has three parts:

- **`preprocess_employee_data`** (`DataProcessing`, built on `Frames`):
  - adds each of the nineteen recognised columns the upload lacks, holding its default;
  - gives every string-defaulted column the category dtype;
  - fills each column's missing cells by its dtype: "Unknown" for category and object columns, 0 for the rest;
  - passes the table through the ID gate. The gate coerces `ID` to numbers, drops the rows whose `ID` does not parse, and truncates the rest to integers.

  The caller's frame is changed in place. The frame returned is a new one.
- **`predict_salary`** (`ModelEngine`): for each prediction `i`, row `i` of the ID-gated frame is read with its fallbacks. A base salary is then chosen:
  - for a fresher (experience at most 1), the lower of budget and market CTC;
  - otherwise, the highest of the prediction, the previous salary and the current CTC.

  The base is scaled for promotion (15%), rating (2.5% per point from 3) and a team above five (5%). It is then cut into a low / optimal / high range between the departmental budget and the market CTC. Without a frame, the predictions come back unchanged.
- **`salary_parity_analysis`** (`ReportGenerator`): one minus the mean relative distance of the prediction from the market CTC and from the budget, rounded to two decimals. It is 0.5 when either benchmark is zero or absent. The bias flag is raised when the unrounded score is below 0.9.

A pandas DataFrame is the class `Frames.Frame`: ordered column names, a dtype kind per column, and rows mapping each column to a cell. A missing cell (NaN) is `None`. Each pandas statement of the pipeline is a method that updates the frame's fields. It is proved equal to a function on the `Table` value the frame holds. The loops of the preprocessor and of the prediction step are `while` loops whose invariants tie them to those functions.

Floats that may be NaN are `ModelEngine.Number`. Python's `min`, `max` and comparisons are modelled on it as Python evaluates them: NaN compares false, so `min` and `max` keep their first argument. A string where the arithmetic needs a number is the `TypeError` the source would raise, modelled as `Err`.

Where the code and its comments disagree, the model follows the code:

- The parity comment promises a score of 1 within 5% of both benchmarks. The code gives at least 0.95 there, and 1 only when all three figures agree (`ScoreAtMostOne`, `WithinFivePercentIsUnflagged`).
- The bias flag compares the score before rounding, so a score printed as 0.9 can come with the flag raised (`RoundedScoreCanHideBias`). An unrounded score of exactly 0.9 is not flagged (`BoundaryIsUnflagged`).
- `low` has no ceiling and `high` has no floor. For a non-negative base, the range is in order exactly when budget ≤ market, budget ≤ 110% of the base, and 95% of the base ≤ market (`RangeOrdered`). An inverted budget/market pair, or a base far above the market CTC, gives `low > high`. This is reproduced, not repaired.

## Model

| member | source | states |
|---|---|---|
| `DataProcessing.PreprocessEmployeeData` | scripts/data_processing.py:11-67 | The caller's frame ends as the normalised table with its ID column coerced (NaN where unparsable). The returned frame is new and equals `Preprocess` of the input. |
| `DataProcessing.AddRequiredColumns` | scripts/data_processing.py:37-39 | The loop leaves the frame well formed and equal to `AddDefaults` of the frame it started with. |
| `DataProcessing.CategorizeColumns` | scripts/data_processing.py:42-44 | The loop leaves the frame well formed and equal to `Categorize` of the frame it started with. |
| `DataProcessing.FillMissingCells` | scripts/data_processing.py:47-55 | The loop leaves the frame equal to `FillColumns` over the frame's own column list, fixed when the loop starts. |
| `DataProcessing.AddIfAbsentShape` | scripts/data_processing.py:38-39 | One pass of the first loop keeps the table well formed and its row count. An absent column is appended after the existing ones, which keep their order. |
| `DataProcessing.AddIfAbsentCells` | scripts/data_processing.py:38-39 | One pass keeps every dtype and every existing cell. An absent column holds its default in every row, with the default's dtype. |
| `DataProcessing.AssignKeepsWellFormed` | scripts/data_processing.py:39 | Assigning a scalar column keeps column names distinct and every row keyed by exactly the columns. |
| `DataProcessing.AddDefaultsColumns` | scripts/data_processing.py:37-39 | After the first loop the table is well formed with the same row count. The columns are the input's, in place, followed by the missing required ones, and the column set is the input's plus every required name. |
| `DataProcessing.AddDefaultsShape` | scripts/data_processing.py:37-39 | The first loop keeps the table well formed, its row count, and the input columns in their places. |
| `DataProcessing.AddDefaultsColumnSet` | scripts/data_processing.py:37-39 | After the first loop the column set is the input's plus every required name. |
| `DataProcessing.AddDefaultsKeeps` | scripts/data_processing.py:37-39 | The first loop keeps every input column's dtype and every input cell. |
| `DataProcessing.AddDefaultsFills` | scripts/data_processing.py:37-39 | A required column the input lacked holds its default in every row, with the default's dtype (object for a string, numeric otherwise). |
| `DataProcessing.CategorizeSpec` | scripts/data_processing.py:42-44 | Only dtypes change: a present string-defaulted column becomes category, and every other dtype, the columns and the rows are kept. |
| `DataProcessing.FillStepSpec` | scripts/data_processing.py:48-55 | One fill pass fills exactly that column's missing cells with "Unknown" (category or object) or 0 (any other dtype), and nothing else. |
| `DataProcessing.FillColumnsSpec` | scripts/data_processing.py:47-55 | After the fill loop, every cell of a listed column is its old cell or, when missing, its dtype's fill value. Other cells, the columns and the dtypes are unchanged. |
| `DataProcessing.NormalizedByShape` | scripts/data_processing.py:37-55 | For any required-column list, the three loops give a well-formed table with the same row count, the input columns first and in order, and the required names added. |
| `DataProcessing.NormalizedByKind` | scripts/data_processing.py:41-44 | An input column ends category when string-defaulted and keeps its dtype otherwise. |
| `DataProcessing.NormalizedByCell` | scripts/data_processing.py:37-55 | An input cell is kept when present and filled by its column's final dtype when missing. |
| `DataProcessing.NormalizedByDefault` | scripts/data_processing.py:37-55 | For distinct required names, a required column the input lacked holds its default in every row (a present default is never refilled). |
| `DataProcessing.NormalizedShape` | scripts/data_processing.py:14-55 | The same shape facts for the nineteen columns of the source. |
| `DataProcessing.NormalizedKind` | scripts/data_processing.py:14-44 | An input column's dtype before the gate is category when it is one of the string-defaulted required columns, else its own. |
| `DataProcessing.RequiredDistinct` | scripts/data_processing.py:14-34 | The nineteen required names are pairwise distinct. |
| `DataProcessing.NameIndexDecodes` | scripts/data_processing.py:14-34 | Each required name is told apart from the others by its first letter and length, and maps back to its own position. |
| `DataProcessing.IdIsRequiredString` | scripts/data_processing.py:16 | `ID` is a required column, and its default "0" is a string. |
| `DataProcessing.IdInNormalized` | scripts/data_processing.py:16-39 | The ID column is always present before the gate, so the gate always runs. |
| `DataProcessing.PreprocessColumns` | scripts/data_processing.py:11-67 | The result has every required column and keeps every input column in place (no projection). Its ID dtype is numeric, and it has at most as many rows as the input. |
| `DataProcessing.NormalizedId` | scripts/data_processing.py:42-51 | The ID cell the gate sees is the input's, filled with "Unknown" when missing (ID is a category column). Without an input ID column it is "0". |
| `DataProcessing.NormalizedCell` | scripts/data_processing.py:47-55 | A cell the input had is, before the gate, that cell filled by the column's final dtype. |
| `DataProcessing.NormalizedDefault` | scripts/data_processing.py:37-39 | A required column the input lacked holds its default before the gate. |
| `DataProcessing.FilledIdParses` | scripts/data_processing.py:51-59 | Filling a missing ID with "Unknown" never makes it parse. |
| `DataProcessing.DefaultIdParses` | scripts/data_processing.py:16-59 | The default ID "0" parses as 0. |
| `DataProcessing.NormalizedIdParses` | scripts/data_processing.py:47-59 | A normalised row's ID parses exactly when the input row's did. Without an input ID column it always parses. |
| `DataProcessing.GateOnNormalized` | scripts/data_processing.py:58-61 | The result has one row per surviving index. Indices are increasing, and an index survives iff its normalised ID parses. |
| `DataProcessing.PreprocessRow` | scripts/data_processing.py:58-61 | Result row `k` is the normalised row of its surviving index, whose ID parses, with that ID made an integer. |
| `DataProcessing.PreprocessKeepsParsableIds` | scripts/data_processing.py:58-61 | With an ID column, exactly the input rows whose ID parses survive, in their original order (both directions). |
| `DataProcessing.PreprocessKeepsAllRows` | scripts/data_processing.py:16-61 | Without an ID column every row survives, in place. |
| `DataProcessing.PreprocessWithoutIds` | scripts/data_processing.py:16-61 | Without an ID column the result has as many rows as the input, each with ID 0. |
| `DataProcessing.PreprocessIntegerIds` | scripts/data_processing.py:61 | Every ID of the result is a whole number. |
| `DataProcessing.PreprocessCells` | scripts/data_processing.py:47-55 | A non-ID cell of result row `k` is the cell of the input row it came from when present. When missing it is "Unknown" for a string-defaulted, category or object column, and 0 otherwise. |
| `DataProcessing.PreprocessAbsentColumn` | scripts/data_processing.py:37-39 | A required column the input lacked holds its default in every result row. |
| `DataProcessing.NameDefaults` | scripts/data_processing.py:15-51 | An absent Name column gives "Employee". A missing Name cell gives "Unknown". |
| `DataProcessing.RatingDefaults` | scripts/data_processing.py:27-55 | An absent Performance Rating gives 3. A missing cell of a numeric Performance Rating column gives 0. |
| `DataProcessing.TeamSizeDefaults` | scripts/data_processing.py:32-55 | An absent Team Size gives 1. A missing cell of a numeric Team Size column gives 0. |
| `DataProcessing.NumericKeysAreNotStringKeys` | scripts/data_processing.py:27-32 | Performance Rating and Team Size are not string-defaulted, so they are not made categories. |
| `Frames.Frame.Assign` | scripts/data_processing.py:39 | The frame becomes `AssignColumn` of its old value: the scalar in every row, and the column appended if new. |
| `Frames.Frame.AsCategory` | scripts/data_processing.py:44 | Only the column's dtype changes, to category. |
| `Frames.Frame.FillNa` | scripts/data_processing.py:51-55 | The column's missing cells get the value and nothing else changes. |
| `Frames.Frame.ToNumeric` | scripts/data_processing.py:59 | The column is coerced cell by cell. Unparsable cells become NaN and the dtype becomes numeric. |
| `Frames.Frame.DropNa` | scripts/data_processing.py:60 | A fresh frame with the same columns and dtypes holding only the rows whose cell is present. The original is unchanged. |
| `Frames.Frame.AsInt` | scripts/data_processing.py:61 | The column's numbers are truncated toward zero. |
| `Frames.CoerceIds` | scripts/data_processing.py:58-61 | The caller's frame gets its ID column coerced. The returned frame is the gated table (a new frame when there is an ID column, the same one otherwise). |
| `Frames.DropMissingKeeps` | scripts/data_processing.py:60 | The kept rows are exactly those with a present cell, in increasing original order (both directions). |
| `Frames.KeptSpec` | scripts/data_processing.py:60 | The kept indices are in range, increasing, and exactly those of the rows with a present cell. |
| `Frames.DropMissingRows` | scripts/data_processing.py:60 | `dropna` yields one row per kept index, each equal to the input row at that index. |
| `Frames.CoercedKeptAreSurvivors` | scripts/data_processing.py:59-60 | After coercion, a row has a present ID exactly when its original ID parses. |
| `Frames.GateIdsSpec` | scripts/data_processing.py:58-61 | The gate keeps the columns, makes ID numeric, and keeps exactly the rows whose ID parses, in order. Each kept row has its ID truncated. |
| `Frames.GateIdsShape` | scripts/data_processing.py:58-61 | The gate keeps the columns, makes ID numeric, and has one row per survivor; survivors are increasing and are exactly the rows whose ID parses. |
| `Frames.GateIdsRow` | scripts/data_processing.py:58-61 | Gated row `k` is the `k`-th surviving input row with its ID truncated to an integer. |
| `Frames.GateIdsLength` | scripts/data_processing.py:58-61 | The gate yields one row per survivor. |
| `Frames.GateIdsYieldsIntegers` | scripts/data_processing.py:61 | Every ID after the gate is a whole number. |
| `Frames.GateIdsIdempotent` | scripts/model_engine.py:47-51 | A second pass of the gate changes nothing. |
| `Frames.AllSurvive` | scripts/data_processing.py:60 | When every ID parses, every row survives in place. |
| `Numbers.ParseNatRoundTrip` | scripts/data_processing.py:59 | The decimal rendering of a natural number parses back to that number. |
| `Numbers.DigitsRoundTrip` | scripts/data_processing.py:59 | The digits of a natural number read back as that number. |
| `Numbers.LetterDoesNotParse` | scripts/data_processing.py:59 | Text starting with a capital letter (such as "Unknown") does not parse, so it coerces to NaN. |
| `Numbers.Trunc` | scripts/data_processing.py:61 | Integer conversion truncates toward zero: within one unit of the value, on the side of zero. |
| `Numbers.TruncOfInteger` | scripts/data_processing.py:61 | Truncation leaves whole numbers unchanged. |
| `Numbers.Round2` | scripts/report_generator.py:64 | The result is a whole number of hundredths, at most 0.005 from the value. |
| `Numbers.Round2OfHundredths` | scripts/report_generator.py:64 | Rounding leaves a value that is already a whole number of hundredths unchanged. |
| `Numbers.Round2Monotone` | scripts/report_generator.py:64 | Rounding never reverses an order. |
| `ModelEngine.AsNumber` | scripts/model_engine.py:71-83 | A cell fails to be a float exactly when it holds a string. |
| `ModelEngine.Read` | scripts/model_engine.py:71-83 | Reading a cell for arithmetic raises, naming the column, exactly when it holds a string. |
| `ModelEngine.Min` | scripts/model_engine.py:82-83 | Python's `min` returns one of its arguments, no larger than either when both are finite. |
| `ModelEngine.Max` | scripts/model_engine.py:74 | Python's `max` returns one of its arguments, no smaller than either when both are finite. |
| `ModelEngine.Resolve` | scripts/model_engine.py:55-62 | Each figure whose column the frame has is read from the row. |
| `ModelEngine.ResolveFallbacks` | scripts/model_engine.py:55-62 | An absent column's figure falls back: budget, market CTC and previous salary to the prediction; current CTC to the resolved previous salary, so to the prediction when both are absent; experience to 0, promotion to False, rating to 3 and team size to 1. |
| `ModelEngine.AdjustRow` | scripts/model_engine.py:70-97 | The step-by-step update of the base salary and the range equals `Recommend`. |
| `ModelEngine.AdjustAt` | scripts/model_engine.py:54-97 | One iteration equals `RowRecord`: `RowMissing` past the last row, `NotNumeric` for a string figure, else the record. |
| `ModelEngine.AdjustAll` | scripts/model_engine.py:52-97 | The loop over the predictions equals `Collect` of the per-row outcomes over all of them. |
| `ModelEngine.PredictSalary` | scripts/model_engine.py:42-100 | Without a frame, the predictions are returned as they are. With one, the caller's frame has its ID column coerced, and the result is `Predict` of the old frame. |
| `ModelEngine.CollectStopsAtError` | scripts/model_engine.py:53-97 | Once a prefix of the loop raises, the whole call raises the same error. |
| `ModelEngine.CollectSpec` | scripts/model_engine.py:52-97 | The loop succeeds iff every row up to `n` does. Then it holds one record per prediction, in order, each equal to that row's outcome. |
| `ModelEngine.CollectFailsAt` | scripts/model_engine.py:52-97 | When row `j` is the first to raise, the call raises row `j`'s error. |
| `ModelEngine.CollectFirstError` | scripts/model_engine.py:53-97 | A loop that raises raised at some row whose error it reports, and every row before that one succeeded. |
| `ModelEngine.BatchFailsAtFirstError` | scripts/model_engine.py:53-97 | A failing loop reports the error of the first row that fails; all earlier rows succeed. |
| `ModelEngine.RecordErrorIndex` | scripts/model_engine.py:54-97 | An error raised for row `i` carries index `i`. |
| `ModelEngine.TimesSwap` | scripts/model_engine.py:75-79 | The salary multipliers commute, with NaN or without. |
| `ModelEngine.RecordKeepsPrediction` | scripts/model_engine.py:88-96 | A record's `raw` is its prediction, and its echoed figures are the ones resolved for its row. |
| `ModelEngine.RowMissingIffShort` | scripts/model_engine.py:54 | `RowMissing` happens exactly when the index is past the gated frame's last row. |
| `ModelEngine.PredictSpec` | scripts/model_engine.py:46-99 | With a frame, the call succeeds iff the gated frame has a row for every prediction and none raises. Then it holds one record per prediction, in order, with `raw` equal to it and the figures resolved from row `i` of the gated frame echoed. |
| `ModelEngine.PreprocessedFrameStaysAligned` | scripts/model_engine.py:47-51 | A preprocessed frame passes the ID gate unchanged, so prediction `i` meets row `i` of it. |
| `ModelEngine.FresherIgnoresPrediction` | scripts/model_engine.py:71-72 | For experience at most 1, the base and the range do not depend on the prediction. |
| `ModelEngine.FresherStartsAtLowerBound` | scripts/model_engine.py:71-72 | A fresher starts from the lower of budget and market CTC. |
| `ModelEngine.ExperiencedStartDominates` | scripts/model_engine.py:73-74 | Above one year, the start is at least the prediction, the previous salary and the current CTC, and equal to one of them. |
| `ModelEngine.MissingExperienceIsExperienced` | scripts/model_engine.py:71-74 | A missing experience cell reads as NaN, and NaN takes the experienced branch. |
| `ModelEngine.PromotionAddsFifteenPercent` | scripts/model_engine.py:75-76 | A truthy promotion multiplies the fully scaled base by exactly 1.15, compared with the same inputs unpromoted. Both succeed or fail together. |
| `ModelEngine.HigherRatingHigherBase` | scripts/model_engine.py:77 | With a positive start, a higher rating gives a strictly higher base, whatever the (numeric or NaN) team size. |
| `ModelEngine.RatingScalesBase` | scripts/model_engine.py:77 | A rating of r gives exactly the rating-3 base times 1 + (r − 3)·0.025, and both succeed or fail together. |
| `ModelEngine.RatingFactorIncreases` | scripts/model_engine.py:77 | The rating multiplier increases strictly with the rating. |
| `ModelEngine.TeamBump` | scripts/model_engine.py:78-79 | A team above five multiplies the base by exactly 1.05; five or fewer leaves it unchanged. |
| `ModelEngine.RangeBounds` | scripts/model_engine.py:81-83 | `low` is at least both budget and 95% of the base, and equal to one. `high` is at most both market and 110% of the base, and equal to one. `optimal` never exceeds the market CTC, reaches at least the budget when budget ≤ market, and is the base clamped to [budget, market], ending at the market CTC whenever the base or the budget exceeds it. |
| `ModelEngine.RangeOrdered` | scripts/model_engine.py:81-83 | For a non-negative base, `low ≤ high` iff budget ≤ market, budget ≤ 110% of base, and 95% of base ≤ market. |
| `ModelEngine.MissingMarketLeavesNoCeiling` | scripts/model_engine.py:82-83 | A NaN market CTC gives a NaN `high` and an `optimal` of the base raised to the budget. |
| `ModelEngine.MissingBudgetLeavesNoFloor` | scripts/model_engine.py:81-83 | A NaN budget gives a NaN `low` and an `optimal` of the base capped at the market CTC. |
| `ModelEngine.FresherExample` | scripts/model_engine.py:70-97 | Budget 500000, market 600000, prediction 700000, fresher: optimal 500000. |
| `ModelEngine.ExperiencedExample` | scripts/model_engine.py:70-97 | Prediction 800000, previous 750000, current 780000, rating 3, team 2, budget 600000, market 900000: low 760000, optimal 800000, high 880000. |
| `ModelEngine.PromotedExample` | scripts/model_engine.py:70-97 | The same employee promoted: base 920000, optimal 900000 (the market CTC). |
| `ModelEngine.CompoundedExample` | scripts/model_engine.py:70-83 | Promotion, rating 5 and a team of 6 compound: base 800000 · 1.15 · 1.05 · 1.05 = 1014300, range 963585 / 1014300 / 1115730. |
| `ModelEngine.InvertedBoundsExample` | scripts/model_engine.py:81-83 | Budget 900000 above market 400000: low 900000 > high 400000. |
| `ModelEngine.TextTeamSizeRaises` | scripts/model_engine.py:78 | A string team size raises at the team-size comparison. |
| `ReportGenerator.SalaryParityAnalysis` | scripts/report_generator.py:56-64 | The score is a whole number of hundredths within 0.005 of the unrounded score, and the flag is raised iff the unrounded score is below 0.9. |
| `ReportGenerator.MissingBenchmarkIsFlagged` | scripts/report_generator.py:58-63 | An absent or zero market CTC or budget gives score 0.5, flagged. |
| `ReportGenerator.ScoreAgreesWithBias` | scripts/report_generator.py:63-64 | A flagged score prints at most 0.9, and an unflagged one at least 0.9. |
| `ReportGenerator.RoundedScoreCanHideBias` | scripts/report_generator.py:62-64 | Unrounded 0.899 prints as 0.9 with the flag raised. |
| `ReportGenerator.BoundaryIsUnflagged` | scripts/report_generator.py:62-64 | An unrounded score of exactly 0.9 is not flagged. |
| `ReportGenerator.ScoreAtMostOne` | scripts/report_generator.py:62 | With positive benchmarks the score is at most 1, and equals 1 iff prediction, market and budget agree. |
| `ReportGenerator.WithinFivePercentIsUnflagged` | scripts/report_generator.py:61-63 | Within 5% of both positive benchmarks the score is at least 0.95 and not flagged. |
| `ReportGenerator.ScoreSymmetric` | scripts/report_generator.py:62 | Swapping market CTC and budget leaves the score unchanged. |
| `ReportGenerator.OverUnder` | scripts/report_generator.py:62 | Only the distances from the benchmarks count: an overshoot and an undershoot of the same size score the same. |
| `ReportGenerator.FarPredictionScoresNegative` | scripts/report_generator.py:62 | A prediction at least three times both benchmarks scores -1 or less: no clamping at 0. |

## Left out

- Floating point: figures are exact reals, so there is no rounding error, overflow or infinity. NaN is kept apart only in the adjustment step.
- `Numbers.Round2` is round-half-even on the exact value; Python rounds the binary float, so ties that are not exact in binary can round differently.
- `Numbers.ParseNumber` reads only an optional sign followed by a plain decimal literal. Exponents, surrounding whitespace and the spellings of infinity and NaN are read as unparsable, unlike pandas.
- `ReportGenerator.SalaryParityAnalysis` takes its data as numbers with absent keys read as 0. NaN and non-numeric values in the dictionary are not modelled.
- `ModelEngine.Recommend` reports the first column read that holds a string. Python raises its `TypeError` at the first operation that mixes a string with a number, which can be a later line (a fresher's `min` of two strings, for example). The model and Python raise on exactly the same rows; only the column named can differ.
- Dtype inference is not modelled: each column's kind (category, object or numeric) is an input, and all non-category, non-object dtypes are one kind. `astype(int)` keeps the model's numeric kind.
- The category list of a category column is not modelled; adding "Unknown" to it (lines 49-50 of scripts/data_processing.py) affects only the dtype metadata, and the model tracks the cells.
- pandas copy semantics: the gated frame inside `predict_salary` is modelled as its own frame; the copy-versus-view warning pandas can give there is not.
- `model.predict(X)` is a parameter (the sequence of predictions); training, saving and loading the model, and logging, are not part of this model.
- The report renderers, the market-salary scraper and the Streamlit app (including its positional pairing of predictions with the upload's rows after the ID drop, in app/main.py) are not part of this model.
