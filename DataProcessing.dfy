/**
 * `preprocess_employee_data`: make sure the nineteen recognised columns
 * exist, give the string-defaulted ones the category dtype, fill every
 * missing cell by its column's dtype, and pass the table through the ID gate.
 */
module DataProcessing {
  import opened Wrappers
  import opened Numbers
  import opened Frames

  /** `required_cols`: the recognised columns and their defaults, in declaration order. */
  function Required(): seq<(string, Value)> {
    seq(19, i => RequiredAt(i))
  }

  /** The `i`-th recognised column and its default. */
  function RequiredAt(i: int): (string, Value) {
    match i
    case 0 => ("Name", Text("Employee"))
    case 1 => ("ID", Text("0"))
    case 2 => ("Experience", Num(0.0))
    case 3 => ("Education", Text("Unknown"))
    case 4 => ("Job Role", Text("Unknown"))
    case 5 => ("Department", Text("Unknown"))
    case 6 => ("Location", Text("Unknown"))
    case 7 => ("Skills", Text("Unknown"))
    case 8 => ("Certifications", Text("Unknown"))
    case 9 => ("Previous Salary", Num(0.0))
    case 10 => ("Departmental Budget", Num(0.0))
    case 11 => ("Current CTC", Num(0.0))
    case 12 => ("Performance Rating", Num(3.0))
    case 13 => ("Internal/External", Text("Unknown"))
    case 14 => ("Market CTC", Num(0.0))
    case 15 => ("Company Size", Text("Unknown"))
    case 16 => ("Business Unit", Text("Unknown"))
    case 17 => ("Team Size", Num(1.0))
    case _ => ("Age", Num(0.0))
  }

  function KeysOf(req: seq<(string, Value)>): set<string> {
    set j | 0 <= j < |req| :: req[j].0
  }

  /** The columns whose default is a string: these get the category dtype. */
  function StringKeys(req: seq<(string, Value)>): set<string> {
    set j | 0 <= j < |req| && req[j].1.Text? :: req[j].0
  }

  predicate DistinctKeys(req: seq<(string, Value)>) {
    forall a, b | 0 <= a < b < |req| :: req[a].0 != req[b].0
  }

  /** The dtype pandas gives a column filled with one scalar: object for a string, numeric otherwise. */
  function DefaultKind(v: Value): Kind {
    if v.Text? then Object else Numeric
  }

  // ---------------------------------------------------------------------
  // The three loops of the preprocessor, each as a function of the table before it.

  /** The first loop: add each absent required column, holding its default. */
  function AddDefaults(t: Table, req: seq<(string, Value)>): Table
    decreases |req|
  {
    if req == [] then t
    else
      AddDefaults(AddIfAbsent(t, req[0].0, req[0].1), req[1..])
  }

  /** One pass of the first loop: a column the table lacks is assigned its default. */
  function AddIfAbsent(t: Table, column: string, default: Value): Table {
    if column in t.columns then t else AssignColumn(t, column, default, DefaultKind(default))
  }

  /** The second loop: give every present string-defaulted column the category dtype. */
  function Categorize(t: Table, req: seq<(string, Value)>): Table
    decreases |req|
  {
    if req == [] then t
    else
      var (column, default) := req[0];
      Categorize(if column in t.columns && default.Text? then RetypeColumn(t, column, Category) else t, req[1..])
  }

  /** One pass of the fill loop: `fillna` with the value the column's dtype calls for. */
  function FillStep(t: Table, column: string): Table {
    if column in t.kinds then FillColumn(t, column, FillValue(t.kinds[column])) else t
  }

  /** The third loop: the fill step for each column in turn. */
  function FillColumns(t: Table, columns: seq<string>): Table
    decreases |columns|
  {
    if columns == [] then t else FillColumns(FillStep(t, columns[0]), columns[1..])
  }

  /** The table before the ID gate: defaults added, dtypes set, gaps filled. */
  function Normalized(t: Table): Table {
    NormalizedBy(t, Required())
  }

  /** The three loops, for a given list of required columns. */
  function NormalizedBy(t: Table, req: seq<(string, Value)>): Table {
    var c := Categorize(AddDefaults(t, req), req);
    FillColumns(c, c.columns)
  }

  /** The frame `preprocess_employee_data` returns. */
  function Preprocess(t: Table): Table {
    GateIds(Normalized(t))
  }

  /** The dtype a column of the input ends up with before the gate. */
  function FinalKind(t: Table, column: string): Kind
    requires column in t.kinds
  {
    KindBy(t, Required(), column)
  }

  function KindBy(t: Table, req: seq<(string, Value)>, column: string): Kind
    requires column in t.kinds
  {
    if column in StringKeys(req) then Category else t.kinds[column]
  }

  // ---------------------------------------------------------------------
  // The preprocessor on a frame, as the source runs it.

  /**
   * The caller's frame is changed in place (columns added, dtypes set, gaps
   * filled, ID coerced with NaN for unparsable IDs); the frame returned is a
   * new one holding only the rows whose ID parses.
   */
  method PreprocessEmployeeData(df: Frame) returns (out: Frame)
    requires WellFormed(df.View())
    modifies df
    ensures df.View() == CoerceColumn(Normalized(old(df.View())), IdColumn)
    ensures out.View() == Preprocess(old(df.View()))
    ensures fresh(out)
  {
    ghost var input := df.View();
    AddRequiredColumns(df, Required());
    ghost var added := df.View();
    CategorizeColumns(df, Required());
    ghost var typed := df.View();
    FillMissingCells(df);
    assert df.View() == FillColumns(typed, typed.columns);
    assert typed == Categorize(added, Required());
    assert df.View() == Normalized(input);
    IdInNormalized(input);
    out := CoerceIds(df);
  }

  /** Every required column the frame lacks is appended, holding its default in every row. */
  method AddRequiredColumns(df: Frame, req: seq<(string, Value)>)
    requires WellFormed(df.View())
    modifies df
    ensures WellFormed(df.View())
    ensures df.View() == AddDefaults(old(df.View()), req)
  {
    var i := 0;
    while i < |req|
      invariant 0 <= i <= |req|
      invariant WellFormed(df.View())
      invariant AddDefaults(df.View(), req[i..]) == AddDefaults(old(df.View()), req)
    {
      var (column, default) := req[i];
      if column !in df.columns {
        AssignKeepsWellFormed(df.View(), column, default, DefaultKind(default));
        df.Assign(column, default, DefaultKind(default));
      }
      assert req[i..][1..] == req[i + 1..];
      i := i + 1;
    }
  }

  /** Every required column whose default is a string is given the category dtype. */
  method CategorizeColumns(df: Frame, req: seq<(string, Value)>)
    requires WellFormed(df.View())
    modifies df
    ensures WellFormed(df.View())
    ensures df.View() == Categorize(old(df.View()), req)
  {
    var i := 0;
    while i < |req|
      invariant 0 <= i <= |req|
      invariant WellFormed(df.View())
      invariant Categorize(df.View(), req[i..]) == Categorize(old(df.View()), req)
    {
      var (column, default) := req[i];
      if column in df.columns && default.Text? {
        df.AsCategory(column);
      }
      assert req[i..][1..] == req[i + 1..];
      i := i + 1;
    }
  }

  /** Every column's missing cells are filled: "Unknown" for category and object columns, 0 otherwise. */
  method FillMissingCells(df: Frame)
    requires WellFormed(df.View())
    modifies df
    ensures df.View() == FillColumns(old(df.View()), old(df.columns))
  {
    var columns := df.columns;
    ghost var filled := FillColumns(df.View(), columns);
    var i := 0;
    while i < |columns|
      invariant 0 <= i <= |columns|
      invariant WellFormed(df.View()) && df.columns == columns
      invariant FillColumns(df.View(), columns[i..]) == filled
    {
      var column := columns[i];
      assert column in ColumnSet(df.columns);
      var fill: Value;
      match df.kinds[column] {
        case Category =>
          // the category list is widened first when needed; only the cells are modelled
          fill := Text("Unknown");
        case Object =>
          fill := Text("Unknown");
        case Numeric =>
          fill := Num(0.0);
      }
      ghost var before := df.View();
      assert fill == FillValue(before.kinds[column]);
      FillColumnsUnroll(before, columns[i..]);
      FillKeepsWellFormed(before, column, fill);
      df.FillNa(column, fill);
      assert columns[i..][1..] == columns[i + 1..];
      i := i + 1;
      assert FillColumns(df.View(), columns[i..]) == filled;
    }
  }

  lemma FillKeepsWellFormed(t: Table, column: string, v: Value)
    requires WellFormed(t)
    ensures WellFormed(FillColumn(t, column, v)) && FillColumn(t, column, v).columns == t.columns
  {
    var f := FillColumn(t, column, v);
    forall k | 0 <= k < |f.rows| ensures f.rows[k].Keys == t.rows[k].Keys {
    }
  }

  lemma FillColumnsUnroll(t: Table, columns: seq<string>)
    requires columns != [] && columns[0] in t.kinds
    ensures FillColumns(t, columns) == FillColumns(FillColumn(t, columns[0], FillValue(t.kinds[columns[0]])), columns[1..])
  {
  }

  // ---------------------------------------------------------------------
  // What each stage guarantees.

  /** The recognised column names are pairwise distinct. */
  lemma RequiredDistinct()
    ensures DistinctKeys(Required())
  {
    forall a, b | 0 <= a < b < |Required()| ensures Required()[a].0 != Required()[b].0 {
      NameIndexDecodes(a);
      NameIndexDecodes(b);
    }
  }

  /** A name's first letter and length. */
  function NameShape(name: string): (char, nat) {
    (if name == [] then ' ' else name[0], |name|)
  }

  /** The position of a recognised column, told apart by first letter and length; -1 for any other shape. */
  function NameIndex(name: string): int {
    match NameShape(name)
    case ('N', 4) => 0
    case ('I', 2) => 1
    case ('E', 10) => 2
    case ('E', 9) => 3
    case ('J', 8) => 4
    case ('D', 10) => 5
    case ('L', 8) => 6
    case ('S', 6) => 7
    case ('C', 14) => 8
    case ('P', 15) => 9
    case ('D', 19) => 10
    case ('C', 11) => 11
    case ('P', 18) => 12
    case ('I', 17) => 13
    case ('M', 10) => 14
    case ('C', 12) => 15
    case ('B', 13) => 16
    case ('T', 9) => 17
    case ('A', 3) => 18
    case _ => -1
  }
  /** Each recognised name is found at its own position, so no two positions share a name. */
  lemma NameIndexDecodes(i: int)
    requires 0 <= i < 19
    ensures NameIndex(RequiredAt(i).0) == i
  {
    match i
    case 0 => case 1 => case 2 => case 3 => case 4 => case 5 => case 6 => case 7 => case 8 => case 9 =>
    case 10 => case 11 => case 12 => case 13 => case 14 => case 15 => case 16 => case 17 => case 18 =>
  }

  lemma AssignKeepsWellFormed(t: Table, column: string, v: Value, k: Kind)
    requires WellFormed(t)
    ensures WellFormed(AssignColumn(t, column, v, k))
  {
    var a := AssignColumn(t, column, v, k);
    assert ColumnSet(a.columns) == ColumnSet(t.columns) + {column};
  }

  /** One pass of the first loop keeps the frame well formed and appends the column when absent. */
  lemma AddIfAbsentShape(t: Table, column: string, default: Value)
    requires WellFormed(t)
    ensures var a := AddIfAbsent(t, column, default);
      && WellFormed(a)
      && |a.rows| == |t.rows|
      && ColumnSet(a.columns) == ColumnSet(t.columns) + {column}
      && |t.columns| <= |a.columns| && a.columns[..|t.columns|] == t.columns
  {
    AssignKeepsWellFormed(t, column, default, DefaultKind(default));
    if column !in t.columns {
      assert ColumnSet(t.columns + [column]) == ColumnSet(t.columns) + {column};
    }
  }

  /** One pass of the first loop keeps every dtype and cell; an absent column gets its default everywhere. */
  lemma AddIfAbsentCells(t: Table, column: string, default: Value)
    requires WellFormed(t)
    ensures var a := AddIfAbsent(t, column, default);
      && |a.rows| == |t.rows|
      && (forall c | c in t.kinds :: a.kinds[c] == t.kinds[c])
      && (forall k, c | 0 <= k < |t.rows| && c in t.rows[k] :: a.rows[k][c] == t.rows[k][c])
      && (column !in t.kinds ==> a.kinds[column] == DefaultKind(default)
                                  && forall k | 0 <= k < |t.rows| :: a.rows[k][column] == Some(default))
  {
    assert column in t.columns <==> column in t.kinds by {
      assert column in t.columns <==> column in ColumnSet(t.columns);
    }
  }

  lemma KeysOfCons(req: seq<(string, Value)>)
    requires req != []
    ensures KeysOf(req) == KeysOf(req[1..]) + {req[0].0}
  {
    var rest := req[1..];
    forall c | c in KeysOf(req) ensures c in KeysOf(rest) + {req[0].0} {
      var j :| 0 <= j < |req| && req[j].0 == c;
      if j > 0 { assert rest[j - 1].0 == c; }
    }
    forall c | c in KeysOf(rest) ensures c in KeysOf(req) {
      var j :| 0 <= j < |rest| && rest[j].0 == c;
      assert req[j + 1].0 == c;
    }
  }

  /** Every required column is present afterwards, after the input's own columns, which keep their order. */
  lemma AddDefaultsColumns(t: Table, req: seq<(string, Value)>)
    requires WellFormed(t)
    ensures var a := AddDefaults(t, req);
      && WellFormed(a)
      && |a.rows| == |t.rows|
      && ColumnSet(a.columns) == ColumnSet(t.columns) + KeysOf(req)
      && |t.columns| <= |a.columns| && a.columns[..|t.columns|] == t.columns
  {
    AddDefaultsShape(t, req);
    AddDefaultsColumnSet(t, req);
  }

  lemma {:induction false} AddDefaultsShape(t: Table, req: seq<(string, Value)>)
    requires WellFormed(t)
    ensures var a := AddDefaults(t, req);
      && WellFormed(a)
      && |a.rows| == |t.rows|
      && |t.columns| <= |a.columns| && a.columns[..|t.columns|] == t.columns
    decreases |req|
  {
    if req != [] {
      var t' := AddIfAbsent(t, req[0].0, req[0].1);
      AddIfAbsentShape(t, req[0].0, req[0].1);
      AddDefaultsShape(t', req[1..]);
      var a := AddDefaults(t, req);
      assert a.columns[..|t'.columns|][..|t.columns|] == a.columns[..|t.columns|];
    }
  }

  lemma {:induction false} AddDefaultsColumnSet(t: Table, req: seq<(string, Value)>)
    requires WellFormed(t)
    ensures ColumnSet(AddDefaults(t, req).columns) == ColumnSet(t.columns) + KeysOf(req)
    decreases |req|
  {
    if req != [] {
      var t' := AddIfAbsent(t, req[0].0, req[0].1);
      AddIfAbsentShape(t, req[0].0, req[0].1);
      AddDefaultsColumnSet(t', req[1..]);
      KeysOfCons(req);
    }
  }

  /** The input's own cells and dtypes are left as they are. */
  lemma {:induction false} AddDefaultsKeeps(t: Table, req: seq<(string, Value)>)
    requires WellFormed(t)
    ensures var a := AddDefaults(t, req);
      && |a.rows| == |t.rows|
      && (forall c | c in t.kinds :: c in a.kinds && a.kinds[c] == t.kinds[c])
      && (forall k, c | 0 <= k < |t.rows| && c in t.rows[k] :: c in a.rows[k] && a.rows[k][c] == t.rows[k][c])
    decreases |req|
  {
    if req != [] {
      var t' := AddIfAbsent(t, req[0].0, req[0].1);
      AddIfAbsentShape(t, req[0].0, req[0].1);
      AddIfAbsentCells(t, req[0].0, req[0].1);
      AddDefaultsKeeps(t', req[1..]);
    }
  }

  /** An absent required column holds its default in every row, with the dtype of that default. */
  lemma {:induction false} AddDefaultsFills(t: Table, req: seq<(string, Value)>, j: nat)
    requires WellFormed(t) && DistinctKeys(req)
    requires j < |req| && req[j].0 !in t.kinds
    ensures var a := AddDefaults(t, req);
      && req[j].0 in a.kinds && a.kinds[req[j].0] == DefaultKind(req[j].1)
      && |a.rows| == |t.rows|
      && forall k | 0 <= k < |t.rows| :: req[j].0 in a.rows[k] && a.rows[k][req[j].0] == Some(req[j].1)
    decreases |req|
  {
    var t' := AddIfAbsent(t, req[0].0, req[0].1);
    AddIfAbsentShape(t, req[0].0, req[0].1);
    AddIfAbsentCells(t, req[0].0, req[0].1);
    if j == 0 {
      AddDefaultsKeeps(t', req[1..]);
    } else {
      assert req[1..][j - 1] == req[j];
      assert req[0].0 != req[j].0;
      AddDefaultsFills(t', req[1..], j - 1);
    }
  }

  /** The category dtype goes to exactly the present string-defaulted columns; nothing else changes. */
  lemma {:induction false} CategorizeSpec(t: Table, req: seq<(string, Value)>)
    requires WellFormed(t)
    ensures var c := Categorize(t, req);
      && c.columns == t.columns && c.rows == t.rows && c.kinds.Keys == t.kinds.Keys
      && forall column | column in t.kinds ::
           c.kinds[column] == if column in StringKeys(req) then Category else t.kinds[column]
    decreases |req|
  {
    if req != [] {
      var (column, default) := req[0];
      var t' := if column in t.columns && default.Text? then RetypeColumn(t, column, Category) else t;
      var rest := req[1..];
      assert WellFormed(t');
      CategorizeSpec(t', rest);
      assert StringKeys(req) == StringKeys(rest) + (if default.Text? then {column} else {}) by {
        forall c | c in StringKeys(req) ensures c in StringKeys(rest) + (if default.Text? then {column} else {}) {
          var j :| 0 <= j < |req| && req[j].1.Text? && req[j].0 == c;
          if j > 0 { assert rest[j - 1] == req[j]; }
        }
        forall c | c in StringKeys(rest) ensures c in StringKeys(req) {
          var j :| 0 <= j < |rest| && rest[j].1.Text? && rest[j].0 == c;
          assert req[j + 1] == rest[j];
        }
      }
    }
  }

  /** Each listed column is filled by its dtype; every other cell is untouched. */
  lemma {:induction false} FillColumnsSpec(t: Table, columns: seq<string>)
    ensures var f := FillColumns(t, columns);
      && f.columns == t.columns && f.kinds == t.kinds && |f.rows| == |t.rows|
      && (forall k | 0 <= k < |t.rows| :: f.rows[k].Keys == t.rows[k].Keys)
      && forall k, c | 0 <= k < |t.rows| && c in t.rows[k] ::
           f.rows[k][c] == if c in columns && c in t.kinds then FillCell(t.kinds[c], t.rows[k][c]) else t.rows[k][c]
    decreases |columns|
  {
    if columns != [] {
      var t' := FillStep(t, columns[0]);
      FillStepSpec(t, columns[0]);
      FillColumnsSpec(t', columns[1..]);
      var f := FillColumns(t, columns);
      forall k, c | 0 <= k < |t.rows| && c in t.rows[k]
        ensures f.rows[k][c] == if c in columns && c in t.kinds then FillCell(t.kinds[c], t.rows[k][c]) else t.rows[k][c]
      {
        assert c in columns <==> c == columns[0] || c in columns[1..];
      }
    }
  }

  lemma FillStepSpec(t: Table, column: string)
    ensures var f := FillStep(t, column);
      && f.columns == t.columns && f.kinds == t.kinds && |f.rows| == |t.rows|
      && (forall k | 0 <= k < |t.rows| :: f.rows[k].Keys == t.rows[k].Keys)
      && forall k, c | 0 <= k < |t.rows| && c in t.rows[k] ::
           f.rows[k][c] == if c == column && c in t.kinds then FillCell(t.kinds[c], t.rows[k][c]) else t.rows[k][c]
  {
  }

  /**
   * The three loops keep the table well formed and its row count; the
   * columns are the input's, in their places, followed by the missing required ones.
   */
  lemma NormalizedByShape(t: Table, req: seq<(string, Value)>)
    requires WellFormed(t)
    ensures var n := NormalizedBy(t, req);
      && WellFormed(n)
      && |n.rows| == |t.rows|
      && ColumnSet(n.columns) == ColumnSet(t.columns) + KeysOf(req)
      && |t.columns| <= |n.columns| && n.columns[..|t.columns|] == t.columns
  {
    var a := AddDefaults(t, req);
    AddDefaultsColumns(t, req);
    var c := Categorize(a, req);
    CategorizeSpec(a, req);
    FillColumnsSpec(c, c.columns);
    var n := NormalizedBy(t, req);
    forall k | 0 <= k < |n.rows| ensures n.rows[k].Keys == ColumnSet(n.columns) {
      assert n.rows[k].Keys == a.rows[k].Keys;
    }
  }

  /** A column of the input keeps its dtype, unless it is string-defaulted: then it is category. */
  lemma NormalizedByKind(t: Table, req: seq<(string, Value)>, column: string)
    requires WellFormed(t) && column in t.kinds
    ensures column in NormalizedBy(t, req).kinds && NormalizedBy(t, req).kinds[column] == KindBy(t, req, column)
  {
    var a := AddDefaults(t, req);
    AddDefaultsColumns(t, req);
    AddDefaultsKeeps(t, req);
    var c := Categorize(a, req);
    CategorizeSpec(a, req);
    FillColumnsSpec(c, c.columns);
  }

  /** A cell the input had is kept when present, and filled by its column's final dtype when missing. */
  lemma NormalizedByCell(t: Table, req: seq<(string, Value)>, k: nat, column: string)
    requires WellFormed(t) && k < |t.rows| && column in t.kinds
    ensures var n := NormalizedBy(t, req);
      && k < |n.rows| && column in n.rows[k]
      && n.rows[k][column] == FillCell(KindBy(t, req, column), t.rows[k][column])
  {
    var a := AddDefaults(t, req);
    AddDefaultsColumns(t, req);
    AddDefaultsKeeps(t, req);
    var c := Categorize(a, req);
    CategorizeSpec(a, req);
    FillColumnsSpec(c, c.columns);
    assert column in ColumnSet(t.columns);
    assert column in ColumnSet(c.columns);
    assert column in a.rows[k] && column in c.columns;
  }

  /** A required column the input lacked holds its default in every row. */
  lemma NormalizedByDefault(t: Table, req: seq<(string, Value)>, j: nat, k: nat)
    requires WellFormed(t) && DistinctKeys(req) && j < |req| && req[j].0 !in t.kinds && k < |t.rows|
    ensures var n := NormalizedBy(t, req);
      k < |n.rows| && req[j].0 in n.rows[k] && n.rows[k][req[j].0] == Some(req[j].1)
  {
    var a := AddDefaults(t, req);
    AddDefaultsColumns(t, req);
    AddDefaultsFills(t, req, j);
    var c := Categorize(a, req);
    CategorizeSpec(a, req);
    FillColumnsSpec(c, c.columns);
  }

  /** `NormalizedByShape` for the recognised columns. */
  lemma NormalizedShape(t: Table)
    requires WellFormed(t)
    ensures var n := Normalized(t);
      && WellFormed(n)
      && |n.rows| == |t.rows|
      && ColumnSet(n.columns) == ColumnSet(t.columns) + KeysOf(Required())
      && |t.columns| <= |n.columns| && n.columns[..|t.columns|] == t.columns
  {
    NormalizedByShape(t, Required());
  }

  /** The dtype of an input column before the gate. */
  lemma NormalizedKind(t: Table, column: string)
    requires WellFormed(t) && column in t.kinds
    ensures column in Normalized(t).kinds && Normalized(t).kinds[column] == FinalKind(t, column)
  {
    NormalizedByKind(t, Required(), column);
  }

  // ---------------------------------------------------------------------
  // What `preprocess_employee_data` guarantees about the frame it returns.

  lemma IdIsRequiredString()
    ensures IdColumn in KeysOf(Required()) && IdColumn in StringKeys(Required())
  {
    assert Required()[1] == (IdColumn, Text("0"));
  }

  lemma IdInNormalized(t: Table)
    requires WellFormed(t)
    ensures IdColumn in Normalized(t).columns
  {
    NormalizedShape(t);
    IdIsRequiredString();
    assert IdColumn in ColumnSet(Normalized(t).columns);
  }

  /**
   * Every required column is present; every column of the input is kept,
   * in its place (no projection); the row count can only go down.
   */
  lemma PreprocessColumns(t: Table)
    requires WellFormed(t)
    ensures var p := Preprocess(t);
      && ColumnSet(p.columns) == ColumnSet(t.columns) + KeysOf(Required())
      && |t.columns| <= |p.columns| && p.columns[..|t.columns|] == t.columns
      && (forall j | 0 <= j < |Required()| :: Required()[j].0 in p.columns)
      && IdColumn in p.kinds && p.kinds[IdColumn] == Numeric
      && |p.rows| <= |t.rows|
  {
    NormalizedShape(t);
    IdInNormalized(t);
    GateIdsShape(Normalized(t));
    var p := Preprocess(t);
    forall j | 0 <= j < |Required()| ensures Required()[j].0 in p.columns {
      assert Required()[j].0 in KeysOf(Required());
      assert Required()[j].0 in ColumnSet(p.columns);
    }
  }

  /** The ID cell the gate sees for input row `j`. */
  lemma NormalizedId(t: Table, j: nat)
    requires WellFormed(t) && j < |t.rows|
    ensures |Normalized(t).rows| == |t.rows|
    ensures IdColumn in t.kinds ==>
              Get(Normalized(t).rows[j], IdColumn) == FillCell(Category, t.rows[j][IdColumn])
    ensures IdColumn !in t.kinds ==> Get(Normalized(t).rows[j], IdColumn) == Some(Text("0"))
  {
    NormalizedShape(t);
    IdIsRequiredString();
    if IdColumn in t.kinds {
      NormalizedCell(t, j, IdColumn);
    } else {
      NamedColumns();
      NormalizedDefault(t, 1, j);
    }
  }

  /** One cell of the normalised table that the input already had. */
  lemma NormalizedCell(t: Table, j: nat, c: string)
    requires WellFormed(t) && j < |t.rows| && c in t.kinds
    ensures j < |Normalized(t).rows|
    ensures Get(Normalized(t).rows[j], c) == FillCell(FinalKind(t, c), t.rows[j][c])
  {
    NormalizedByCell(t, Required(), j, c);
  }

  /** One cell of the normalised table in a required column the input lacked. */
  lemma NormalizedDefault(t: Table, i: nat, j: nat)
    requires WellFormed(t) && i < |Required()| && Required()[i].0 !in t.kinds && j < |t.rows|
    ensures j < |Normalized(t).rows|
    ensures Get(Normalized(t).rows[j], Required()[i].0) == Some(Required()[i].1)
  {
    RequiredDistinct();
    NormalizedByDefault(t, Required(), i, j);
  }

  /** Which rows of the normalised table survive the gate. */
  lemma GateOnNormalized(t: Table)
    requires WellFormed(t)
    ensures var n, s := Normalized(t), Survivors(Normalized(t).rows);
      && |n.rows| == |t.rows|
      && |Preprocess(t).rows| == |s| <= |t.rows|
      && Increasing(s)
      && (forall j | 0 <= j < |t.rows| :: j in s <==> IdParses(n.rows[j]))
  {
    NormalizedShape(t);
    IdInNormalized(t);
    GateIdsShape(Normalized(t));
  }

  /** Row `k` of the result is the normalised row it comes from, with an integer ID. */
  lemma PreprocessRow(t: Table, k: nat)
    requires WellFormed(t) && k < |Preprocess(t).rows|
    ensures var n, s := Normalized(t), Survivors(Normalized(t).rows);
      && |n.rows| == |t.rows| && k < |s| && s[k] < |t.rows| && IdParses(n.rows[s[k]])
      && Preprocess(t).rows[k] == WithIntegerId(n.rows[s[k]])
  {
    var n := Normalized(t);
    NormalizedShape(t);
    IdInNormalized(t);
    GateIdsLength(n);
    GateIdsRow(n, k);
  }

  /** The input row that row `k` of the result comes from. */
  function Origin(t: Table, k: nat): Row {
    var s := Survivors(Normalized(t).rows);
    if k < |s| && s[k] < |t.rows| then t.rows[s[k]] else map[]
  }

  /**
   * The ID gate of the preprocessor when the input has an ID column:
   * exactly the rows whose ID parses survive, in their original order (a
   * missing ID is filled with "Unknown" first, so it never survives).
   */
  lemma PreprocessKeepsParsableIds(t: Table)
    requires WellFormed(t) && IdColumn in t.kinds
    ensures var s := Survivors(Normalized(t).rows);
      && |Preprocess(t).rows| == |s| <= |t.rows|
      && Increasing(s)
      && forall j | 0 <= j < |t.rows| :: j in s <==> IdParses(t.rows[j])
  {
    var n := Normalized(t);
    GateOnNormalized(t);
    forall j | 0 <= j < |t.rows| ensures IdParses(n.rows[j]) <==> IdParses(t.rows[j]) {
      NormalizedIdParses(t, j);
    }
  }

  /** Without an ID column every row survives, in its place. */
  lemma PreprocessKeepsAllRows(t: Table)
    requires WellFormed(t) && IdColumn !in t.kinds
    ensures var s := Survivors(Normalized(t).rows);
      && |Preprocess(t).rows| == |s| == |t.rows|
      && forall k | 0 <= k < |t.rows| :: s[k] == k
  {
    var n := Normalized(t);
    GateOnNormalized(t);
    forall j | 0 <= j < |t.rows| ensures IdParses(n.rows[j]) {
      NormalizedIdParses(t, j);
    }
    AllSurvive(n.rows);
  }

  /** Whether the ID of input row `j` parses once normalised: as before, or always when the input had no ID. */
  lemma NormalizedIdParses(t: Table, j: nat)
    requires WellFormed(t) && j < |t.rows|
    ensures j < |Normalized(t).rows|
    ensures IdColumn in t.kinds ==> (IdParses(Normalized(t).rows[j]) <==> IdParses(t.rows[j]))
    ensures IdColumn !in t.kinds ==> IdParses(Normalized(t).rows[j])
  {
    NormalizedId(t, j);
    if IdColumn in t.kinds {
      FilledIdParses(t.rows[j][IdColumn]);
      assert Get(t.rows[j], IdColumn) == t.rows[j][IdColumn];
    } else {
      DefaultIdParses();
    }
  }

  /** Filling a missing ID with "Unknown" never makes it parse. */
  lemma FilledIdParses(c: Cell)
    ensures ToNumber(FillCell(Category, c)).Some? <==> ToNumber(c).Some?
  {
    if c.None? {
      LetterDoesNotParse("Unknown");
    }
  }

  /** The default ID "0" parses. */
  lemma DefaultIdParses()
    ensures ToNumber(Some(Text("0"))) == Some(0.0)
  {
    ParseNatRoundTrip(0);
  }


  /**
   * A cell of the result outside the ID column is the input's cell from the
   * row it came from: left as it is when present; when missing, "Unknown"
   * for a string-defaulted, category or object column and 0 for any other.
   */
  lemma PreprocessCells(t: Table, k: nat, c: string)
    requires WellFormed(t) && c in t.kinds && c != IdColumn
    requires k < |Preprocess(t).rows|
    ensures var before, after := Get(Origin(t, k), c), Get(Preprocess(t).rows[k], c);
      && (before.Some? ==> after == before)
      && (before.None? && (c in StringKeys(Required()) || t.kinds[c] != Numeric) ==> after == Some(Text("Unknown")))
      && (before.None? && c !in StringKeys(Required()) && t.kinds[c] == Numeric ==> after == Some(Num(0.0)))
  {
    PreprocessRow(t, k);
    NormalizedCell(t, Survivors(Normalized(t).rows)[k], c);
  }

  /** A required column the input lacks holds its default in every row of the result. */
  lemma PreprocessAbsentColumn(t: Table, j: nat, k: nat)
    requires WellFormed(t) && j < |Required()| && Required()[j].0 !in t.kinds && Required()[j].0 != IdColumn
    requires k < |Preprocess(t).rows|
    ensures Get(Preprocess(t).rows[k], Required()[j].0) == Some(Required()[j].1)
  {
    PreprocessRow(t, k);
    NormalizedDefault(t, j, Survivors(Normalized(t).rows)[k]);
  }

  /** Without an ID column every row survives, holding ID 0. */
  lemma PreprocessWithoutIds(t: Table)
    requires WellFormed(t) && IdColumn !in t.kinds
    ensures |Preprocess(t).rows| == |t.rows|
    ensures forall k | 0 <= k < |t.rows| :: Get(Preprocess(t).rows[k], IdColumn) == Some(Num(0.0))
  {
    PreprocessKeepsAllRows(t);
    forall k | 0 <= k < |t.rows| ensures Get(Preprocess(t).rows[k], IdColumn) == Some(Num(0.0)) {
      PreprocessRow(t, k);
      NormalizedId(t, k);
      ParseNatRoundTrip(0);
    }
  }

  /** Every ID of the result is a whole number. */
  lemma PreprocessIntegerIds(t: Table, k: nat)
    requires WellFormed(t) && k < |Preprocess(t).rows|
    ensures IsWholeNumber(Get(Preprocess(t).rows[k], IdColumn))
  {
    IdInNormalized(t);
    GateIdsYieldsIntegers(Normalized(t), k);
  }

  /** The defaults the source spells out: an absent Name is "Employee", a missing Name cell is "Unknown". */
  lemma NameDefaults(t: Table, k: nat)
    requires WellFormed(t) && k < |Preprocess(t).rows|
    ensures "Name" !in t.kinds ==> Get(Preprocess(t).rows[k], "Name") == Some(Text("Employee"))
    ensures "Name" in t.kinds && Get(Origin(t, k), "Name").None? ==>
              Get(Preprocess(t).rows[k], "Name") == Some(Text("Unknown"))
  {
    NamedColumns();
    if "Name" !in t.kinds {
      PreprocessAbsentColumn(t, 0, k);
    } else {
      assert "Name" in StringKeys(Required());
      PreprocessCells(t, k, "Name");
    }
  }

  /** An absent Performance Rating column gives 3; a missing cell of a numeric one gives 0. */
  lemma RatingDefaults(t: Table, k: nat)
    requires WellFormed(t) && k < |Preprocess(t).rows|
    ensures "Performance Rating" !in t.kinds ==> Get(Preprocess(t).rows[k], "Performance Rating") == Some(Num(3.0))
    ensures "Performance Rating" in t.kinds && t.kinds["Performance Rating"] == Numeric
            && Get(Origin(t, k), "Performance Rating").None? ==>
              Get(Preprocess(t).rows[k], "Performance Rating") == Some(Num(0.0))
  {
    if "Performance Rating" !in t.kinds {
      NamedColumns();
      PreprocessAbsentColumn(t, 12, k);
    } else {
      NumericKeysAreNotStringKeys();
      PreprocessCells(t, k, "Performance Rating");
    }
  }

  /** An absent Team Size column gives 1; a missing cell of a numeric one gives 0. */
  lemma TeamSizeDefaults(t: Table, k: nat)
    requires WellFormed(t) && k < |Preprocess(t).rows|
    ensures "Team Size" !in t.kinds ==> Get(Preprocess(t).rows[k], "Team Size") == Some(Num(1.0))
    ensures "Team Size" in t.kinds && t.kinds["Team Size"] == Numeric
            && Get(Origin(t, k), "Team Size").None? ==>
              Get(Preprocess(t).rows[k], "Team Size") == Some(Num(0.0))
  {
    if "Team Size" !in t.kinds {
      NamedColumns();
      PreprocessAbsentColumn(t, 17, k);
    } else {
      NumericKeysAreNotStringKeys();
      PreprocessCells(t, k, "Team Size");
    }
  }

  /** The recognised columns the lemmas above name. */
  lemma NamedColumns()
    ensures Required()[0] == ("Name", Text("Employee")) && Required()[1] == (IdColumn, Text("0"))
    ensures Required()[12] == ("Performance Rating", Num(3.0)) && Required()[17] == ("Team Size", Num(1.0))
  {
  }

  lemma NumericKeysAreNotStringKeys()
    ensures "Performance Rating" !in StringKeys(Required()) && "Team Size" !in StringKeys(Required())
  {
    RequiredDistinct();
    forall j | 0 <= j < |Required()| && Required()[j].1.Text?
      ensures Required()[j].0 != "Performance Rating" && Required()[j].0 != "Team Size"
    {
      assert Required()[12].0 == "Performance Rating" && Required()[17].0 == "Team Size";
    }
  }
}
