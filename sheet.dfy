/** The grid as a value: its dimensions and, per cell, the stored formula
    body and the display value.  The engine's class keeps its cells in step
    with one of these. */
module Sheets {
  import opened Faults
  import opened JavaText
  import opened Numbers
  import opened Addresses

  datatype SheetData = SheetData(
    rows: nat, cols: nat,
    formulas: seq<seq<string>>,
    values: seq<seq<string>>)

  /** Every (row, column) of the grid has exactly one formula and one value. */
  predicate Rectangular(d: SheetData) {
    && |d.formulas| == d.rows && |d.values| == d.rows
    && (forall r :: 0 <= r < d.rows ==> |d.formulas[r]| == d.cols)
    && (forall r :: 0 <= r < d.rows ==> |d.values[r]| == d.cols)
  }

  type Sheet = d: SheetData | Rectangular(d) witness SheetData(0, 0, [], [])

  /** A rows x cols grid of empty strings: what the constructor creates. */
  function Blank(rows: nat, cols: nat): (g: seq<seq<string>>)
    ensures |g| == rows
    ensures forall r :: 0 <= r < rows ==> |g[r]| == cols && forall c :: 0 <= c < cols ==> g[r][c] == ""
  {
    seq(rows, _ => seq(cols, _ => ""))
  }

  function EmptySheet(rows: nat, cols: nat): (s: Sheet)
    ensures s.rows == rows && s.cols == cols
    ensures forall r, c :: 0 <= r < rows && 0 <= c < cols ==> s.formulas[r][c] == "" && s.values[r][c] == ""
  {
    SheetData(rows, cols, Blank(rows, cols), Blank(rows, cols))
  }

  /** Both grids have the same shape and agree on every cell but (r, c). */
  predicate AgreeOutside(s: Sheet, t: Sheet, r: nat, c: nat) {
    && s.rows == t.rows && s.cols == t.cols
    && forall i, j :: 0 <= i < s.rows && 0 <= j < s.cols && (i, j) != (r, c) ==>
         t.values[i][j] == s.values[i][j] && t.formulas[i][j] == s.formulas[i][j]
  }

  /** The sheet with one value replaced. */
  function SetValue(s: Sheet, r: nat, c: nat, v: string): (t: Sheet)
    requires r < s.rows && c < s.cols
    ensures t.rows == s.rows && t.cols == s.cols && t.formulas == s.formulas
    ensures t.values[r][c] == v
    ensures forall i, j :: 0 <= i < s.rows && 0 <= j < s.cols && (i, j) != (r, c) ==>
      t.values[i][j] == s.values[i][j]
  {
    s.(values := s.values[r := s.values[r][c := v]])
  }

  /** The sheet with one formula replaced. */
  function SetFormula(s: Sheet, r: nat, c: nat, f: string): (t: Sheet)
    requires r < s.rows && c < s.cols
    ensures t.rows == s.rows && t.cols == s.cols && t.values == s.values
    ensures t.formulas[r][c] == f
    ensures forall i, j :: 0 <= i < s.rows && 0 <= j < s.cols && (i, j) != (r, c) ==>
      t.formulas[i][j] == s.formulas[i][j]
  {
    s.(formulas := s.formulas[r := s.formulas[r][c := f]])
  }

  /** The operand text a referenced cell's trimmed value stands for: "0"
      for an empty cell; an error code or any text that is not a long is a
      fault. */
  function OperandText(v: string): (r: Result<string>)
    ensures r.Ok? <==> v == [] || (v[0] != '#' && ParseLongStrict(v).Ok?)
    ensures r.Ok? ==> r.value == (if v == [] then "0" else v) && ParseLongStrict(r.value).Ok?
    ensures r.Err? ==> r.fault == Illegal(if v != [] && v[0] == '#' then ReferenceError else NotAnInteger)
  {
    if v == [] then
      ZeroLiteral();
      Ok("0")
    else if v[0] == '#' then Err(Illegal(ReferenceError))
    else
      var _ :- ParseLongStrict(v);
      Ok(v)
  }

  /** resolveRef: the referenced cell's value as an operand. */
  function ResolveRef(s: Sheet, ref: string): Result<string> {
    var (row, col) :- ParseAddress(ref, s.rows, s.cols);
    OperandText(Trim(s.values[row][col]))
  }

  /** A reference to a cell holding a number formula's result reads that
      number back. */
  lemma ReferenceReadsValue(s: Sheet, row: nat, col: nat, n: int)
    requires row < s.rows <= MaxInt && col < s.cols && col < 26
    requires InLong(n) && s.values[row][col] == Decimal(n)
    ensures ResolveRef(s, Render(row, col)) == Ok(Decimal(n))
    ensures ParseLongStrict(Decimal(n)) == Ok(n)
  {
    ParseRender(row, col, s.rows, s.cols);
    DecimalRoundTrip(n);
    DecimalUntrimmed(n);
    assert OperandText(Decimal(n)) == Ok(Decimal(n));
  }

  lemma DecimalUntrimmed(n: int)
    requires InLong(n)
    ensures Trim(Decimal(n)) == Decimal(n) && Decimal(n) != [] && Decimal(n)[0] != '#'
  {
    DecimalRoundTrip(n);
    var d := Decimal(n);
    assert !IsTrimmable(d[0]) && !IsTrimmable(d[|d| - 1]);
  }
}
