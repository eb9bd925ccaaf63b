/** The demo driver's grid: the numbers 1 and 123 in A2 and A3, the range
    functions SUMME, MAX and MITTELWERT over `A2:A3` in column C, and the
    product in J5.  Range-function calls over any two-corner range are
    handled first, in general. */
module Demo {
  import opened Faults
  import opened JavaText
  import opened Numbers
  import opened Addresses
  import opened Sheets
  import opened Lexer
  import opened PostfixEval
  import opened Aggregates
  import opened Formulas
  import opened RangeCalls
  import opened Scenarios

  // ----- Range-function calls -----

  /** A call spelled `NAME(...` is dispatched to that range function. */
  lemma CallDispatch(g: RangeFunction, rest: string)
    ensures RangeFunctionOf(Name(g) + "(" + rest) == Some(g)
  {
    var f := Name(g) + "(" + rest;
    assert f[..|Name(g)| + 1] == Name(g) + "(";
    match g
    case Summe =>
    case Minimum =>
      assert f[0] == 'M';
    case Maximum =>
      assert f[0] == 'M' && f[1] == 'A';
    case Mittelwert =>
      assert f[0] == 'M' && f[1] == 'I' && f[2] == 'T';
  }

  /** The dispatcher recognises the call `NAME(a:b)` as a call of `NAME`. */
  lemma CallRecognised(g: RangeFunction, a: string, b: string)
    requires IsRefShape(a) && IsRefShape(b)
    ensures RangeFunctionOf(ToUpper(Name(g) + "(" + (a + ":" + b) + ")")) == Some(g)
  {
    var arg := a + ":" + b;
    var f := Name(g) + "(" + arg + ")";
    assert f == Name(g) + "(" + (arg + ")");
    CallDispatch(g, arg + ")");
    CallChars(g, a, b);
  }

  /** The range-function branch on `NAME(a:b)` reduces the numbers of `a:b`. */
  lemma CallRangeValue(s: Sheet, g: RangeFunction, a: string, b: string, vals: seq<int>)
    requires IsRefShape(a) && IsRefShape(b)
    requires ValuesOf(s, a + ":" + b) == Ok(vals)
    ensures var f := Name(g) + "(" + (a + ":" + b) + ")";
      |Name(g)| < |f| && f[|Name(g)|] == '(' && RangeValue(s, g, f) == Reduce(g, vals)
  {
    CallArgument(g, a, b);
  }

  /** A cell whose trimmed formula calls a range function shows that
      function's value, or `#ERR` when the call fails. */
  lemma RangeCell(s: Sheet, power: Power, f: string, g: RangeFunction)
    requires Trim(f) == f && RangeFunctionOf(ToUpper(f)) == Some(g)
    requires |Name(g)| < |f| && f[|Name(g)|] == '('
    ensures var r := RangeValue(s, g, f);
      CellValue(s, power, f) == if r.Ok? then Decimal(r.value) else "#ERR"
  {
    RangePath(s, power, f, g);
    TrimmedCell(s, power, f, Dispatch(s, power, f, Some(g)));
    DispatchShows(s, power, f, g);
  }

  /** A cell holding `f`, the call `NAME(a:b)` over the range text `range`, shows the range function
      applied to the numbers of the range, or `#ERR` when the function
      refuses them. */
  lemma RangeCallCell(s: Sheet, power: Power, g: RangeFunction, a: string, b: string,
                       range: string, f: string, vals: seq<int>)
    requires IsRefShape(a) && IsRefShape(b) && range == a + ":" + b
    requires f == Name(g) + "(" + range + ")"
    requires ValuesOf(s, range) == Ok(vals)
    ensures var r := Reduce(g, vals);
      CellValue(s, power, f) == if r.Ok? then Decimal(r.value) else "#ERR"
  {
    CallRangeValue(s, g, a, b, vals);
    CallChars(g, a, b);
    CallRecognised(g, a, b);
    RangeCell(s, power, f, g);
  }

  // ----- The demo grid -----

  /** The decimal texts the demo grid holds and shows. */
  lemma DemoDecimals()
    ensures Decimal(1) == "1" && Decimal(123) == "123"
    ensures Decimal(124) == "124" && Decimal(62) == "62"
  {
    assert Digits(12) == "12";
    assert Digits(123) == "123";
    assert Digits(124) == "124";
    assert Digits(62) == "62";
  }

  /** The addresses of the demo grid's cells. */
  lemma DemoNames()
    ensures Render(1, 0) == "A2" && Render(2, 0) == "A3"
    ensures Render(1, 0) + ":" + Render(2, 0) == "A2:A3"
  {
    assert Render(1, 0) == "A2" && Render(2, 0) == "A3";
  }

  /** Column A of the demo grid: `1` in A2 and `123` in A3. */
  predicate ColumnAFilled(s: Sheet) {
    3 <= s.rows <= MaxInt && 1 <= s.cols && s.values[1][0] == "1" && s.values[2][0] == "123"
  }

  /** The range `A2:A3` of the demo grid holds the numbers 1 and 123. */
  lemma DemoRange(s: Sheet)
    requires ColumnAFilled(s)
    ensures ValuesOf(s, "A2:A3") == Ok([1, 123])
  {
    DemoNames();
    ColumnRange(1, 2, 0, s.rows, s.cols);
    DemoDecimals();
    ColumnPair(s, 1, 0, "A2:A3", 1, 123);
  }

  /** SUMME, MAX and MITTELWERT of the numbers 1 and 123. */
  lemma DemoReductions()
    ensures Reduce(Summe, [1, 123]) == Ok(124)
    ensures Reduce(Maximum, [1, 123]) == Ok(123)
    ensures Reduce(Mittelwert, [1, 123]) == Ok(62)
  {
    assert [1, 123][..1] == [1] && [1][..0] == [];
    assert ExactSum([1, 123]) == 124;
    var m := Reduce(Mittelwert, [1, 123]).value;
    assert 4 * m <= 250 < 4 * (m + 1);
  }

  /** The three range cells of column C and their callers' shapes. */
  lemma DemoCalls()
    ensures IsRefShape("A2") && IsRefShape("A3") && "A2:A3" == "A2" + ":" + "A3"
    ensures "SUMME(A2:A3)" == Name(Summe) + "(" + "A2:A3" + ")"
    ensures "MAX(A2:A3)" == Name(Maximum) + "(" + "A2:A3" + ")"
    ensures "MITTELWERT(A2:A3)" == Name(Mittelwert) + "(" + "A2:A3" + ")"
  {
    assert Render(1, 0) == "A2" && Render(2, 0) == "A3";
  }

  /** C1 `=SUMME(A2:A3)` shows 124. */
  lemma SummeCell(s: Sheet, power: Power)
    requires ColumnAFilled(s)
    ensures CellValue(s, power, "SUMME(A2:A3)") == "124"
  {
    DemoDecimals();
    DemoReductions();
    DemoCalls();
    DemoRange(s);
    RangeCallCell(s, power, Summe, "A2", "A3", "A2:A3", "SUMME(A2:A3)", [1, 123]);
  }

  /** C2 `=MAX(A2:A3)` shows 123. */
  lemma MaxCell(s: Sheet, power: Power)
    requires ColumnAFilled(s)
    ensures CellValue(s, power, "MAX(A2:A3)") == "123"
  {
    DemoDecimals();
    DemoReductions();
    DemoCalls();
    DemoRange(s);
    RangeCallCell(s, power, Maximum, "A2", "A3", "A2:A3", "MAX(A2:A3)", [1, 123]);
  }

  /** C3 `=MITTELWERT(A2:A3)` shows 62, the mean 62 of 1 and 123. */
  lemma MittelwertCell(s: Sheet, power: Power)
    requires ColumnAFilled(s)
    ensures CellValue(s, power, "MITTELWERT(A2:A3)") == "62"
  {
    DemoDecimals();
    DemoReductions();
    DemoCalls();
    DemoRange(s);
    RangeCallCell(s, power, Mittelwert, "A2", "A3", "A2:A3", "MITTELWERT(A2:A3)", [1, 123]);
  }

  /** J5 `=7*6` shows 42. */
  lemma ProductCell(s: Sheet, power: Power)
    ensures CellValue(s, power, "7*6") == "42"
  {
    assert Decimal(42) == "42" by { TwoDigits(42); }
    Reads(7, "7");
    Reads(6, "6");
    OneOperatorValue(s, power, "7*6", "7", Times, Num("6"), "6");
    LeadsNoPrefix("7*6");
    ExpressionCell(s, power, "7*6", Ok(42));
  }
}
