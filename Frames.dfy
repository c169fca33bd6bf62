/**
 * A pandas DataFrame as the salary pipeline uses it: an ordered list of
 * column names, a dtype kind per column, and rows that map every column
 * name to a cell.  A missing cell (NaN) is `None`.
 *
 * The ID gate shared by the preprocessor and the prediction step lives here:
 * coerce the `ID` column to numbers (unparsable cells become NaN), drop the
 * rows whose `ID` is NaN, and truncate the surviving IDs to integers.
 */
module Frames {
  import opened Wrappers
  import opened Numbers

  /** A non-missing cell value: a number, a string, or a boolean. */
  datatype Value = Num(x: real) | Text(s: string) | Flag(b: bool)

  type Cell = Option<Value>

  type Row = map<string, Cell>

  /**
   * The dtype of a column, as far as the fill step can tell them apart:
   * `category`, `object`, and `Numeric` for every other dtype.
   */
  datatype Kind = Category | Object | Numeric

  datatype Table = Table(columns: seq<string>, kinds: map<string, Kind>, rows: seq<Row>)

  const IdColumn: string := "ID"

  function ColumnSet(columns: seq<string>): set<string> {
    set c | c in columns
  }

  predicate Distinct(columns: seq<string>) {
    forall i, j | 0 <= i < j < |columns| :: columns[i] != columns[j]
  }

  /** What every DataFrame satisfies: unique column names, one dtype and one cell per column. */
  predicate WellFormed(t: Table) {
    && Distinct(t.columns)
    && t.kinds.Keys == ColumnSet(t.columns)
    && forall k | 0 <= k < |t.rows| :: t.rows[k].Keys == ColumnSet(t.columns)
  }

  function Get(r: Row, column: string): Cell {
    if column in r then r[column] else None
  }

  /** Python truthiness of a cell; NaN is truthy. */
  predicate Truthy(c: Cell) {
    match c
    case None => true
    case Some(Num(x)) => x != 0.0
    case Some(Text(s)) => s != ""
    case Some(Flag(b)) => b
  }

  /** One cell through `pd.to_numeric(errors='coerce')`. */
  function ToNumber(c: Cell): Option<real> {
    match c
    case None => None
    case Some(Num(x)) => Some(x)
    case Some(Flag(b)) => Some(if b then 1.0 else 0.0)
    case Some(Text(s)) => ParseNumber(s)
  }

  function NumberCell(n: Option<real>): Cell {
    match n
    case None => None
    case Some(x) => Some(Num(x))
  }

  /** The value `fillna` is given for a column of kind `k`: `'Unknown'` for category and object columns, 0 for the rest. */
  function FillValue(k: Kind): Value {
    if k == Numeric then Num(0.0) else Text("Unknown")
  }

  /** One cell of a column of kind `k` after the fill step. */
  function FillCell(k: Kind, c: Cell): Cell {
    if c.Some? then c else Some(FillValue(k))
  }

  /** One cell through `astype(int)`. */
  function TruncateCell(c: Cell): Cell {
    match c
    case Some(Num(x)) => Some(Num(Trunc(x) as real))
    case _ => c
  }

  // ---------------------------------------------------------------------
  // Whole-column operations, one per pandas statement of the pipeline.

  /** Assigning one scalar to a column: every row gets `v`; a column the frame lacks is appended. */
  function AssignColumn(t: Table, column: string, v: Value, k: Kind): Table {
    Table(if column in t.columns then t.columns else t.columns + [column],
          t.kinds[column := k],
          seq(|t.rows|, i requires 0 <= i < |t.rows| => t.rows[i][column := Some(v)]))
  }

  /** A dtype change that keeps the values. */
  function RetypeColumn(t: Table, column: string, k: Kind): Table {
    t.(kinds := t.kinds[column := k])
  }

  /** The cell-wise column operations: filling gaps, coercion to numbers, truncation to integers. */
  datatype ColumnMap = Fill(v: Value) | Coerce | Truncate

  function ApplyMap(mode: ColumnMap, c: Cell): Cell {
    match mode
    case Fill(v) => if c.Some? then c else Some(v)
    case Coerce => NumberCell(ToNumber(c))
    case Truncate => TruncateCell(c)
  }

  function MapColumn(rows: seq<Row>, column: string, mode: ColumnMap): (r: seq<Row>)
    ensures |r| == |rows|
  {
    seq(|rows|, i requires 0 <= i < |rows| =>
      if column in rows[i] then rows[i][column := ApplyMap(mode, rows[i][column])] else rows[i])
  }

  /** Filling the gaps of one column with `v`. */
  function FillColumn(t: Table, column: string, v: Value): Table {
    t.(rows := MapColumn(t.rows, column, Fill(v)))
  }

  /** Coercing one column to numbers; unparsable cells become NaN. */
  function CoerceColumn(t: Table, column: string): Table {
    Table(t.columns, t.kinds[column := Numeric], MapColumn(t.rows, column, Coerce))
  }

  /** Truncating one numeric column to integers. */
  function TruncateColumn(t: Table, column: string): Table {
    Table(t.columns, t.kinds[column := Numeric], MapColumn(t.rows, column, Truncate))
  }

  /** The rows whose `column` cell is present, in their original order. */
  function DropMissing(rows: seq<Row>, column: string): (r: seq<Row>)
    ensures |r| <= |rows|
  {
    if rows == [] then []
    else
      var last := rows[|rows| - 1];
      DropMissing(rows[..|rows| - 1], column) + if Get(last, column).Some? then [last] else []
  }

  /** The ID gate as the pipeline writes it, step by step. */
  function GateIds(t: Table): Table {
    if IdColumn in t.columns then
      var coerced := CoerceColumn(t, IdColumn);
      TruncateColumn(coerced.(rows := DropMissing(coerced.rows, IdColumn)), IdColumn)
    else
      t
  }

  // ---------------------------------------------------------------------
  // An independent description of the gate: which rows survive and what they become.

  predicate IdParses(r: Row) {
    ToNumber(Get(r, IdColumn)).Some?
  }

  /** The indices of the rows whose `column` cell is present, in increasing order. */
  function Kept(rows: seq<Row>, column: string): seq<nat> {
    if rows == [] then []
    else Kept(rows[..|rows| - 1], column) + if Get(rows[|rows| - 1], column).Some? then [|rows| - 1] else []
  }

  /** The indices of the rows whose ID parses as a number. */
  function Survivors(rows: seq<Row>): seq<nat> {
    if rows == [] then []
    else Survivors(rows[..|rows| - 1]) + if IdParses(rows[|rows| - 1]) then [|rows| - 1] else []
  }

  /** A surviving row: its ID replaced by the integer it parses to, truncated. */
  function WithIntegerId(r: Row): Row
    requires IdParses(r)
  {
    r[IdColumn := Some(Num(Trunc(ToNumber(Get(r, IdColumn)).value) as real))]
  }

  predicate Increasing(s: seq<nat>) {
    forall a, b | 0 <= a < b < |s| :: s[a] < s[b]
  }

  /** The kept indices are in range, increasing, and exactly those of the rows with a present cell. */
  lemma {:induction false} KeptSpec(rows: seq<Row>, column: string)
    ensures forall k | 0 <= k < |Kept(rows, column)| :: Kept(rows, column)[k] < |rows|
    ensures Increasing(Kept(rows, column))
    ensures forall j | 0 <= j < |rows| :: j in Kept(rows, column) <==> Get(rows[j], column).Some?
  {
    if rows != [] {
      var init := rows[..|rows| - 1];
      KeptSpec(init, column);
      var ki := Kept(init, column);
      forall j | 0 <= j < |init| ensures rows[j] == init[j] && (j in Kept(rows, column) <==> j in ki) {
      }
    }
  }

  /** `dropna` keeps exactly the rows with a present cell, in their original order. */
  lemma DropMissingKeeps(rows: seq<Row>, column: string)
    ensures |DropMissing(rows, column)| == |Kept(rows, column)|
    ensures Increasing(Kept(rows, column))
    ensures forall k | 0 <= k < |Kept(rows, column)| ::
              Kept(rows, column)[k] < |rows| && DropMissing(rows, column)[k] == rows[Kept(rows, column)[k]]
    ensures forall j | 0 <= j < |rows| :: j in Kept(rows, column) <==> Get(rows[j], column).Some?
  {
    KeptSpec(rows, column);
    DropMissingRows(rows, column);
  }

  lemma {:induction false} DropMissingRows(rows: seq<Row>, column: string)
    ensures |DropMissing(rows, column)| == |Kept(rows, column)|
    ensures forall k | 0 <= k < |Kept(rows, column)| ::
              Kept(rows, column)[k] < |rows| && DropMissing(rows, column)[k] == rows[Kept(rows, column)[k]]
  {
    if rows != [] {
      var init := rows[..|rows| - 1];
      DropMissingRows(init, column);
      var ki, di := Kept(init, column), DropMissing(init, column);
      forall k | 0 <= k < |ki| ensures Kept(rows, column)[k] == ki[k] < |init| && DropMissing(rows, column)[k] == di[k] == init[ki[k]] {
      }
    }
  }

  /** A row survives coercion's NaN exactly when its ID parses. */
  lemma {:induction false} CoercedKeptAreSurvivors(rows: seq<Row>)
    ensures Kept(MapColumn(rows, IdColumn, Coerce), IdColumn) == Survivors(rows)
  {
    if rows != [] {
      var n := |rows|;
      var coerced := MapColumn(rows, IdColumn, Coerce);
      assert coerced[..n - 1] == MapColumn(rows[..n - 1], IdColumn, Coerce);
      CoercedKeptAreSurvivors(rows[..n - 1]);
      assert Get(coerced[n - 1], IdColumn).Some? == IdParses(rows[n - 1]);
    }
  }

  /**
   * The ID gate drops exactly the rows whose ID does not parse, keeps the
   * others in their original order with an integer ID, and changes nothing else.
   */
  lemma GateIdsSpec(t: Table)
    requires IdColumn in t.columns
    ensures var g, s := GateIds(t), Survivors(t.rows);
      && g.columns == t.columns
      && g.kinds == t.kinds[IdColumn := Numeric]
      && |g.rows| == |s| <= |t.rows|
      && Increasing(s)
      && (forall j | 0 <= j < |t.rows| :: j in s <==> IdParses(t.rows[j]))
      && forall k | 0 <= k < |s| :: s[k] < |t.rows| && IdParses(t.rows[s[k]])
                                    && g.rows[k] == WithIntegerId(t.rows[s[k]])
  {
    GateIdsShape(t);
    forall k | 0 <= k < |Survivors(t.rows)|
      ensures var s := Survivors(t.rows);
        s[k] < |t.rows| && IdParses(t.rows[s[k]]) && GateIds(t).rows[k] == WithIntegerId(t.rows[s[k]])
    {
      GateIdsRow(t, k);
    }
  }

  /** The gate keeps the columns, makes the ID numeric and keeps one row per survivor. */
  lemma GateIdsShape(t: Table)
    requires IdColumn in t.columns
    ensures var g, s := GateIds(t), Survivors(t.rows);
      && g.columns == t.columns
      && g.kinds == t.kinds[IdColumn := Numeric]
      && |g.rows| == |s| <= |t.rows|
      && Increasing(s)
      && (forall j | 0 <= j < |t.rows| :: j in s <==> IdParses(t.rows[j]))
  {
    var coerced := MapColumn(t.rows, IdColumn, Coerce);
    KeptSpec(coerced, IdColumn);
    DropMissingRows(coerced, IdColumn);
    CoercedKeptAreSurvivors(t.rows);
    forall j | 0 <= j < |t.rows| ensures Get(coerced[j], IdColumn).Some? == IdParses(t.rows[j]) {
    }
  }

  /** The `k`-th row out of the gate is the `k`-th survivor with its ID made an integer. */
  lemma GateIdsRow(t: Table, k: nat)
    requires IdColumn in t.columns && k < |Survivors(t.rows)|
    ensures var s := Survivors(t.rows);
      s[k] < |t.rows| && IdParses(t.rows[s[k]]) && k < |GateIds(t).rows|
      && GateIds(t).rows[k] == WithIntegerId(t.rows[s[k]])
  {
    var coerced := MapColumn(t.rows, IdColumn, Coerce);
    KeptSpec(coerced, IdColumn);
    DropMissingRows(coerced, IdColumn);
    CoercedKeptAreSurvivors(t.rows);
    var s := Survivors(t.rows);
    assert s[k] in Kept(coerced, IdColumn);
    var row := DropMissing(coerced, IdColumn)[k];
    assert row == coerced[s[k]];
    assert IdParses(t.rows[s[k]]);
  }

  predicate IsWholeNumber(c: Cell) {
    c.Some? && c.value.Num? && c.value.x.Floor as real == c.value.x
  }

  /** Every ID that comes out of the gate is a whole number. */
  lemma GateIdsYieldsIntegers(t: Table, k: nat)
    requires IdColumn in t.columns && k < |GateIds(t).rows|
    ensures IsWholeNumber(Get(GateIds(t).rows[k], IdColumn))
  {
    GateIdsLength(t);
    GateIdsRow(t, k);
  }

  /** One row out of the gate per survivor. */
  lemma GateIdsLength(t: Table)
    requires IdColumn in t.columns
    ensures |GateIds(t).rows| == |Survivors(t.rows)|
  {
    DropMissingRows(MapColumn(t.rows, IdColumn, Coerce), IdColumn);
    CoercedKeptAreSurvivors(t.rows);
  }

  /** Running the gate a second time drops nothing and changes nothing. */
  lemma GateIdsIdempotent(t: Table)
    ensures GateIds(GateIds(t)) == GateIds(t)
  {
    if IdColumn in t.columns {
      var g := GateIds(t);
      GateIdsLength(t);
      forall k | 0 <= k < |g.rows| ensures IdParses(g.rows[k]) && WithIntegerId(g.rows[k]) == g.rows[k] {
        GateIdsYieldsIntegers(t, k);
        TruncOfInteger(Get(g.rows[k], IdColumn).value.x.Floor);
      }
      AllSurvive(g.rows);
      GateIdsLength(g);
      var gg := GateIds(g);
      forall k | 0 <= k < |g.rows| ensures gg.rows[k] == g.rows[k] {
        GateIdsRow(g, k);
      }
    }
  }

  /** When every ID parses, every row survives in place. */
  lemma {:induction false} AllSurvive(rows: seq<Row>)
    requires forall k | 0 <= k < |rows| :: IdParses(rows[k])
    ensures |Survivors(rows)| == |rows|
    ensures forall k | 0 <= k < |rows| :: Survivors(rows)[k] == k
  {
    if rows != [] {
      AllSurvive(rows[..|rows| - 1]);
    }
  }

  // ---------------------------------------------------------------------
  // The DataFrame object, updated in place by the pipeline.

  class Frame {
    var columns: seq<string>
    var kinds: map<string, Kind>
    var rows: seq<Row>

    function View(): Table
      reads this
    {
      Table(columns, kinds, rows)
    }

    constructor (t: Table)
      ensures View() == t
    {
      columns, kinds, rows := t.columns, t.kinds, t.rows;
    }

    /** Assigns the scalar `v` to `column`, appending the column when absent. */
    method Assign(column: string, v: Value, k: Kind)
      modifies this
      ensures View() == AssignColumn(old(View()), column, v, k)
    {
      rows := seq(|rows|, i requires 0 <= i < |rows| reads this => rows[i][column := Some(v)]);
      kinds := kinds[column := k];
      if column !in columns {
        columns := columns + [column];
      }
    }

    /** Gives `column` the category dtype. */
    method AsCategory(column: string)
      modifies this
      ensures View() == RetypeColumn(old(View()), column, Category)
    {
      kinds := kinds[column := Category];
    }

    /** Fills the gaps of `column` with `v`. */
    method FillNa(column: string, v: Value)
      modifies this
      ensures View() == FillColumn(old(View()), column, v)
    {
      rows := MapColumn(rows, column, Fill(v));
    }

    /** Coerces `column` to numbers, NaN where a cell does not parse. */
    method ToNumeric(column: string)
      modifies this
      ensures View() == CoerceColumn(old(View()), column)
    {
      rows := MapColumn(rows, column, Coerce);
      kinds := kinds[column := Numeric];
    }

    /** A new frame with only the rows whose `column` cell is present; this one is left as it is. */
    method DropNa(column: string) returns (out: Frame)
      ensures fresh(out)
      ensures out.View() == View().(rows := DropMissing(rows, column))
    {
      out := new Frame(View().(rows := DropMissing(rows, column)));
    }

    /** Truncates `column` to integers. */
    method AsInt(column: string)
      modifies this
      ensures View() == TruncateColumn(old(View()), column)
    {
      rows := MapColumn(rows, column, Truncate);
      kinds := kinds[column := Numeric];
    }
  }

  /** What the ID gate leaves in the caller's frame: its ID column coerced, unparsable IDs NaN. */
  function CoercedIds(t: Table): Table {
    if IdColumn in t.columns then CoerceColumn(t, IdColumn) else t
  }

  /**
   * The ID gate on a frame.  The caller's frame is coerced in place (its
   * unparsable IDs become NaN); the rows that survive go to a new frame.
   */
  method CoerceIds(df: Frame) returns (out: Frame)
    modifies df
    ensures df.View() == CoercedIds(old(df.View()))
    ensures out.View() == GateIds(old(df.View()))
    ensures if IdColumn in old(df.columns) then fresh(out) else out == df
  {
    if IdColumn in df.columns {
      df.ToNumeric(IdColumn);
      out := df.DropNa(IdColumn);
      out.AsInt(IdColumn);
    } else {
      out := df;
    }
  }
}
