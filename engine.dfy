/** The Spreadsheet class: a rows x cols grid of Cell objects updated in
    place.  Every method is proved against the value model: the ghost field
    `sheet` mirrors the cells, and each method's result or new state is
    the corresponding function of that sheet. */
module Engine {
  import opened Faults
  import opened JavaText
  import opened Numbers
  import opened Addresses
  import opened Cells
  import opened Sheets
  import opened Lexer
  import opened ShuntingYard
  import opened PostfixEval
  import opened Aggregates
  import opened Formulas

  /** Position (i, j) comes before (r, c) in row-major order. */
  predicate Before(i: int, j: int, r: int, c: int) {
    i < r || (i == r && j < c)
  }

  /** The cells of a grid, as a set of objects. */
  ghost function CellsOf(a: array2<Cell>): set<Cell>
    reads a
  {
    set i, j | 0 <= i < a.Length0 && 0 <= j < a.Length1 :: a[i, j]
  }

  /** No Cell object sits at two positions of the grid. */
  ghost predicate Distinct(a: array2<Cell>)
    reads a
  {
    forall i, j, k, l ::
      (0 <= i < a.Length0 && 0 <= j < a.Length1 && 0 <= k < a.Length0 && 0 <= l < a.Length1 &&
       (i, j) != (k, l)) ==> a[i, j] != a[k, l]
  }

  /** The constructor's loops have filled every position before (r, c)
      with a new, empty cell of its own; the rest still hold `blank`. */
  ghost predicate Filled(a: array2<Cell>, blank: Cell, r: int, c: int)
    reads a, CellsOf(a)
  {
    && (forall i, j :: 0 <= i < a.Length0 && 0 <= j < a.Length1 ==>
          if Before(i, j, r, c) then a[i, j] != blank && a[i, j].formula == "" && a[i, j].value == ""
          else a[i, j] == blank)
    && (forall i, j, k, l ::
          (0 <= i < a.Length0 && 0 <= j < a.Length1 && 0 <= k < a.Length0 && 0 <= l < a.Length1 &&
           Before(i, j, r, c) && Before(k, l, r, c) && (i, j) != (k, l)) ==> a[i, j] != a[k, l])
  }

  // ----- The inner loops of toRPN -----

  /** An operator token: pop to the output every stacked operator that
      yields to it, then push it. */
  method PushOperator(output0: seq<RpnItem>, ops0: seq<StackItem>, op: Operator)
    returns (output: seq<RpnItem>, ops: seq<StackItem>)
    ensures var p := PopOperators(State(output0, ops0), op);
      output == p.output && ops == p.ops + [Pending(op)]
  {
    output, ops := output0, ops0;
    while ops != [] && ops[|ops| - 1].Pending? &&
      (|| Precedence(ops[|ops| - 1].op) > Precedence(op)
       || (Precedence(ops[|ops| - 1].op) == Precedence(op) && IsLeftAssoc(op)))
      invariant PopOperators(State(output, ops), op) == PopOperators(State(output0, ops0), op)
      decreases |ops|
    {
      var top := ops[|ops| - 1];
      PopYielding(State(output, ops), op);
      output := output + [Operation(top.op)];
      ops := ops[..|ops| - 1];
    }
    PopStops(State(output, ops), op);
    ops := ops + [Pending(op)];
  }

  /** A closing parenthesis: pop operators to the output down to the
      innermost `(`, which is dropped; an empty stack means the
      parentheses do not match. */
  method CloseParen(output0: seq<RpnItem>, ops0: seq<StackItem>) returns (r: Result<State>)
    ensures r == PopToOpen(State(output0, ops0))
  {
    var output, ops := output0, ops0;
    while ops != [] && ops[|ops| - 1] != OpenParen
      invariant PopToOpen(State(output, ops)) == PopToOpen(State(output0, ops0))
      decreases |ops|
    {
      CloseOne(State(output, ops));
      output := output + [Operation(ops[|ops| - 1].op)];
      ops := ops[..|ops| - 1];
    }
    if ops == [] {
      return Err(Illegal(MismatchedParens));
    }
    CloseAtOpen(State(output, ops));
    r := Ok(State(output, ops[..|ops| - 1]));
  }

  /** After the last token: pop every operator to the output; a `(` still
      on the stack was never closed. */
  method DrainStack(output0: seq<RpnItem>, ops0: seq<StackItem>) returns (r: Result<seq<RpnItem>>)
    ensures r == Drain(State(output0, ops0))
  {
    var output, ops := output0, ops0;
    while ops != []
      invariant Drain(State(output, ops)) == Drain(State(output0, ops0))
      decreases |ops|
    {
      var top := ops[|ops| - 1];
      if top == OpenParen {
        DrainOpen(State(output, ops));
        return Err(Illegal(MismatchedParens));
      }
      DrainOne(State(output, ops));
      ops := ops[..|ops| - 1];
      output := output + [Operation(top.op)];
    }
    assert output + Unwind([]) == output;
    r := Ok(output);
  }

  // ----- The accumulator loops of sum, min, max and avg -----

  /** sum's loop: a `long` accumulator from 0 that wraps at every step. */
  method Total(vals: seq<int>) returns (s: int)
    ensures s == RunningSum(vals)
  {
    s := 0;
    for i := 0 to |vals|
      invariant s == RunningSum(vals[..i])
    {
      SumStep(vals, i);
      s := Wrap(s + vals[i]);
    }
    assert vals[..|vals|] == vals;
  }

  /** min's loop and check: Math.min from Long.MAX_VALUE, and no value
      at all fails. */
  method Smallest(vals: seq<int>) returns (r: Result<int>)
    requires forall i :: 0 <= i < |vals| ==> InLong(vals[i])
    ensures r == Reduce(Minimum, vals)
  {
    var best, any := MaxLong, false;
    for i := 0 to |vals|
      invariant any <==> i > 0
      invariant any ==> best == Least(vals[..i])
      invariant !any ==> best == MaxLong
    {
      LeastStep(vals, i);
      best := if best <= vals[i] then best else vals[i];
      any := true;
    }
    if !any {
      return Err(Illegal(EmptyRange));
    }
    assert vals[..|vals|] == vals;
    r := Ok(best);
  }

  /** max's loop and check: Math.max from Long.MIN_VALUE, and no value
      at all fails. */
  method Largest(vals: seq<int>) returns (r: Result<int>)
    requires forall i :: 0 <= i < |vals| ==> InLong(vals[i])
    ensures r == Reduce(Maximum, vals)
  {
    var best, any := MinLong, false;
    for i := 0 to |vals|
      invariant any <==> i > 0
      invariant any ==> best == Greatest(vals[..i])
      invariant !any ==> best == MinLong
    {
      GreatestStep(vals, i);
      best := if best >= vals[i] then best else vals[i];
      any := true;
    }
    if !any {
      return Err(Illegal(EmptyRange));
    }
    assert vals[..|vals|] == vals;
    r := Ok(best);
  }

  /** avg's loop and check: the wrapping sum and the count, then
      Math.round of their quotient; no value at all fails. */
  method Mean(vals: seq<int>) returns (r: Result<int>)
    requires forall i :: 0 <= i < |vals| ==> InLong(vals[i])
    ensures r == Reduce(Mittelwert, vals)
  {
    var s, n := 0, 0;
    for i := 0 to |vals|
      invariant s == RunningSum(vals[..i]) && n == i
    {
      SumStep(vals, i);
      s := Wrap(s + vals[i]);
      n := n + 1;
    }
    if n == 0 {
      return Err(Illegal(EmptyRange));
    }
    assert vals[..|vals|] == vals;
    r := Ok(RoundedQuotient(s, n));
  }

  class Spreadsheet {
    const rows: nat
    const cols: nat
    /** Math.pow followed by the `(long)` cast's input: the host's
        floating-point power, fixed for the lifetime of the grid. */
    const power: Power
    const cells: array2<Cell>
    /** The grid as a value: formula and display value per cell. */
    ghost var sheet: Sheet

    ghost function Objects(): set<Cell>
      reads this, cells
    {
      CellsOf(cells)
    }

    ghost predicate Valid()
      reads this, cells, Objects()
    {
      && cells.Length0 == rows && cells.Length1 == cols
      && sheet.rows == rows && sheet.cols == cols
      && Distinct(cells)
      && forall i, j :: 0 <= i < rows && 0 <= j < cols ==>
           cells[i, j].formula == sheet.formulas[i][j] && cells[i, j].value == sheet.values[i][j]
    }

    /** A grid of new, empty cells.  The sizes are not checked. */
    constructor (rows: nat, cols: nat, power: Power)
      ensures Valid()
      ensures this.rows == rows && this.cols == cols && this.power == power
      ensures sheet == EmptySheet(rows, cols)
      ensures fresh(cells) && fresh(Objects())
    {
      var blank := new Cell();
      var a := new Cell[rows, cols]((_, _) => blank);
      var r := 0;
      while r < rows
        invariant 0 <= r <= rows
        invariant Filled(a, blank, r, 0)
        invariant fresh(blank)
        invariant forall i, j :: 0 <= i < rows && 0 <= j < cols ==> fresh(a[i, j])
      {
        var c := 0;
        while c < cols
          invariant 0 <= c <= cols
          invariant Filled(a, blank, r, c)
          invariant forall i, j :: 0 <= i < rows && 0 <= j < cols ==> fresh(a[i, j])
        {
          a[r, c] := new Cell();
          c := c + 1;
        }
        assert Filled(a, blank, r + 1, 0);
        r := r + 1;
      }
      this.rows := rows;
      this.cols := cols;
      this.power := power;
      cells := a;
      sheet := EmptySheet(rows, cols);
    }

    // ----- Expressions -----

    /** resolveRef: the referenced cell's trimmed value as an operand. */
    method ResolveRef(ref: string) returns (r: Result<string>)
      requires Valid()
      ensures r == Sheets.ResolveRef(sheet, ref)
    {
      var rc :- ParseAddress(ref, rows, cols);
      var v := cells[rc.0, rc.1].GetValue();
      v := Trim(v);
      if v == [] {
        return Ok("0");
      }
      if v[0] == '#' {
        return Err(Illegal(ReferenceError));
      }
      var n :- ParseLongStrict(v);
      r := Ok(v);
    }

    /** One pass of toRPN's main loop. */
    method StepToken(t: Token, output: seq<RpnItem>, ops: seq<StackItem>) returns (r: Result<State>)
      requires Valid()
      ensures r == Step(SheetResolver(sheet), State(output, ops), t)
    {
      match t {
        case Ref(name) =>
          var v :- ResolveRef(name);
          r := Ok(State(output + [Operand(v)], ops));
        case Num(digits) =>
          r := Ok(State(output + [Operand(digits)], ops));
        case Op(op) =>
          var out, stack := PushOperator(output, ops, op);
          r := Ok(State(out, stack));
        case Paren(open) =>
          if open {
            r := Ok(State(output, ops + [OpenParen]));
          } else {
            r := CloseParen(output, ops);
          }
        case Colon =>
          r := Err(Illegal(UnexpectedToken));
        case Comma =>
          r := Err(Illegal(UnexpectedToken));
      }
    }

    /** toRPN: the upper-cased formula without white space, tokenised and
        converted to postfix, references read from the grid. */
    method ToRpn(expr: string) returns (r: Result<seq<RpnItem>>)
      requires Valid()
      ensures r == ToPostfix(sheet, Tokenize(StripSpaces(ToUpper(expr))))
    {
      var ts := Tokenize(StripSpaces(ToUpper(expr)));
      var output: seq<RpnItem> := [];
      var ops: seq<StackItem> := [];
      var i := 0;
      assert ts[0..] == ts;
      while i < |ts|
        invariant 0 <= i <= |ts|
        invariant Run(SheetResolver(sheet), State([], []), ts)
               == Run(SheetResolver(sheet), State(output, ops), ts[i..])
      {
        RunAt(SheetResolver(sheet), State(output, ops), ts, i);
        var next :- StepToken(ts[i], output, ops);
        output, ops := next.output, next.ops;
        i := i + 1;
      }
      assert ts[i..] == [];
      r := DrainStack(output, ops);
    }

    /** evalRPN: an operand stack, top last; an operator pops `b`, then
        `a`, and pushes `a op b`. */
    method EvalRpn(items: seq<RpnItem>) returns (r: Result<int>)
      ensures r == EvalPostfix(power, items)
    {
      var st: seq<int> := [];
      var i := 0;
      assert items[0..] == items;
      while i < |items|
        invariant 0 <= i <= |items|
        invariant EvalFrom(power, [], items) == EvalFrom(power, st, items[i..])
      {
        EvalAt(power, st, items, i);
        match items[i] {
          case Operation(op) =>
            if |st| < 2 {
              return Err(Illegal(MalformedExpression));
            }
            var b := st[|st| - 1];
            var a := st[|st| - 2];
            st := st[..|st| - 2];
            match op {
              case Plus => st := st + [Wrap(a + b)];
              case Minus => st := st + [Wrap(a - b)];
              case Times => st := st + [Wrap(a * b)];
              case Slash =>
                if b == 0 {
                  return Err(DivideByZero);
                }
                st := st + [Wrap(TruncDiv(a, b))];
              case Caret => st := st + [Clamp(power(a, b))];
            }
          case Operand(text) =>
            var v :- ParseLongStrict(text);
            st := st + [v];
        }
        i := i + 1;
      }
      assert items[i..] == [];
      if |st| != 1 {
        return Err(Illegal(MalformedExpression));
      }
      r := Ok(st[0]);
    }

    // ----- Range functions -----

    /** valuesOf: the numbers of a range, row by row, left to right; blank
        cells are skipped and the first text that is not a long fails. */
    method ValuesOf(arg: string) returns (r: Result<seq<int>>)
      requires Valid()
      ensures r == Aggregates.ValuesOf(sheet, arg)
    {
      var box :- ParseRange(arg, rows, cols);
      r := Collect(box.0, box.1, box.2, box.3);
    }

    /** valuesOf's outer loop over the rows of the block from (r1, c1) to
        (r2, c2). */
    method Collect(r1: nat, c1: nat, r2: nat, c2: nat) returns (r: Result<seq<int>>)
      requires Valid()
      requires r1 <= r2 < rows && c1 <= c2 < cols
      ensures r == RangeValues(sheet, r1, c1, r2, c2)
    {
      var vals: seq<int> := [];
      var rr := r1;
      while rr <= r2
        invariant r1 <= rr <= r2 + 1
        invariant BoxValues(sheet, r1, c1, rr, c2 + 1) == Ok(vals)
      {
        var next := AddRow(r1, c1, rr, r2, c2, vals);
        if next.Err? {
          return next;
        }
        vals := next.value;
        rr := rr + 1;
      }
      r := Ok(vals);
    }

    /** One pass of valuesOf's outer loop: row `rr` appended to the numbers
        of the rows above it, or the fault that ends the whole block. */
    method AddRow(r1: nat, c1: nat, rr: nat, r2: nat, c2: nat, vals: seq<int>) returns (r: Result<seq<int>>)
      requires Valid()
      requires r1 <= rr <= r2 < rows && c1 <= c2 < cols
      requires BoxValues(sheet, r1, c1, rr, c2 + 1) == Ok(vals)
      ensures r.Ok? ==> r == BoxValues(sheet, r1, c1, rr + 1, c2 + 1)
      ensures r.Err? ==> r == RangeValues(sheet, r1, c1, r2, c2)
    {
      var row := CollectRow(rr, c1, c2);
      if row.Err? {
        BlockFails(sheet, r1, c1, rr, r2 + 1, c2 + 1);
        return Err(Illegal(NotAnInteger));
      }
      BoxStep(sheet, r1, c1, rr, c2 + 1, vals, row.value);
      r := Ok(vals + row.value);
    }

    /** valuesOf's inner loop over row `rr`, columns c1 to c2. */
    method CollectRow(rr: nat, c1: nat, c2: nat) returns (r: Result<seq<int>>)
      requires Valid()
      requires rr < rows && c1 <= c2 < cols
      ensures r == RowValues(sheet.values[rr], c1, c2 + 1)
    {
      ghost var row := sheet.values[rr];
      var vals: seq<int> := [];
      var cc := c1;
      while cc <= c2
        invariant c1 <= cc <= c2 + 1
        invariant RowValues(row, c1, cc) == Ok(vals)
      {
        RowStep(row, c1, cc, vals);
        var txt := cells[rr, cc].GetValue();
        txt := Trim(txt);
        if txt != [] {
          var x := ParseLongStrict(txt);
          if x.Err? {
            RowFails(row, c1, cc, c2 + 1);
            return Err(x.fault);
          }
          vals := vals + [x.value];
        }
        cc := cc + 1;
      }
      r := Ok(vals);
    }

    /** sum: a wrapping `long` accumulator from 0. */
    method Sum(arg: string) returns (r: Result<int>)
      requires Valid()
      ensures r == (var v :- Aggregates.ValuesOf(sheet, arg); Reduce(Summe, v))
    {
      var vals :- ValuesOf(arg);
      var s := Total(vals);
      r := Ok(s);
    }

    /** min over the numbers of a range. */
    method Min(arg: string) returns (r: Result<int>)
      requires Valid()
      ensures r == (var v :- Aggregates.ValuesOf(sheet, arg); Reduce(Minimum, v))
    {
      var vals :- ValuesOf(arg);
      r := Smallest(vals);
    }

    /** max over the numbers of a range. */
    method Max(arg: string) returns (r: Result<int>)
      requires Valid()
      ensures r == (var v :- Aggregates.ValuesOf(sheet, arg); Reduce(Maximum, v))
    {
      var vals :- ValuesOf(arg);
      r := Largest(vals);
    }

    /** avg over the numbers of a range. */
    method Avg(arg: string) returns (r: Result<int>)
      requires Valid()
      ensures r == (var v :- Aggregates.ValuesOf(sheet, arg); Reduce(Mittelwert, v))
    {
      var vals :- ValuesOf(arg);
      r := Mean(vals);
    }

    /** The range-function branch of evaluateCell for `g`, whose name and
        `(` open the trimmed formula `f`. */
    method RangeCall(g: RangeFunction, f: string) returns (r: Result<int>)
      requires Valid()
      requires |Name(g)| < |f| && f[|Name(g)|] == '('
      ensures r == RangeValue(sheet, g, f)
    {
      var inner :- InsideOf(f, Name(g));
      match g {
        case Summe => r := Sum(inner);
        case Minimum => r := Min(inner);
        case Maximum => r := Max(inner);
        case Mittelwert => r := Avg(inner);
      }
    }

    // ----- evaluateCell -----

    /** evalExpression: toRPN, then evalRPN, then the value as text. */
    method EvalExpression(f: string) returns (r: Result<string>)
      requires Valid()
      ensures r == (var v :- ExpressionValue(sheet, power, f); Ok(Decimal(v)))
    {
      var items :- ToRpn(f);
      var v :- EvalRpn(items);
      r := Ok(Decimal(v));
    }

    /** The try block of evaluateCell on the trimmed formula `f`: the four
        prefix tests in order, then the expression, then the empty text. */
    method EvaluateFormula(f: string) returns (r: Result<string>)
      requires Valid()
      ensures r == Evaluate(sheet, power, f)
    {
      var u := ToUpper(f);
      if StartsWith(u, "SUMME(") {
        PrefixParen(f, "SUMME");
        var v :- RangeCall(Summe, f);
        r := Ok(Decimal(v));
      } else if StartsWith(u, "MIN(") {
        PrefixParen(f, "MIN");
        var v :- RangeCall(Minimum, f);
        r := Ok(Decimal(v));
      } else if StartsWith(u, "MAX(") {
        PrefixParen(f, "MAX");
        var v :- RangeCall(Maximum, f);
        r := Ok(Decimal(v));
      } else if StartsWith(u, "MITTELWERT(") {
        PrefixParen(f, "MITTELWERT");
        var v :- RangeCall(Mittelwert, f);
        r := Ok(Decimal(v));
      } else if f != [] {
        r := EvalExpression(f);
      } else {
        r := Ok("");
      }
    }

    /** evaluateCell: evaluates the cell's trimmed formula against the grid
        and stores the outcome, a fault turned into its display code. */
    method EvaluateCell(row: nat, col: nat)
      requires Valid() && row < rows && col < cols
      modifies this, cells[row, col]
      ensures Valid()
      ensures sheet == Sheets.SetValue(old(sheet), row, col,
        CellValue(old(sheet), power, old(sheet).formulas[row][col]))
    {
      var cell := cells[row, col];
      var f := cell.GetFormula();
      f := Trim(f);
      var outcome := EvaluateFormula(f);
      var shown: string;
      match outcome {
        case Ok(v) => shown := v;
        case Err(DivideByZero) => shown := "#DIV/0!";
        case Err(Illegal(_)) => shown := "#ERR";
      }
      cell.SetValue(shown);
      sheet := Sheets.SetValue(sheet, row, col, shown);
    }

    // ----- put and get -----

    /** The private put(row, col, input): a literal becomes the value (the
        formula stays, setFormula("") doing nothing); a formula is stored
        and evaluated. */
    method PutAt(row: nat, col: nat, input: Option<string>)
      requires Valid() && row < rows && col < cols
      modifies this, cells[row, col]
      ensures Valid()
      ensures sheet == Formulas.PutAt(old(sheet), power, row, col, input)
    {
      var x := if input.None? then "" else Trim(input.value);
      var cell := cells[row, col];
      if !StartsWith(x, "=") {
        cell.SetFormula("");
        cell.SetValue(x);
        sheet := Sheets.SetValue(sheet, row, col, x);
      } else {
        cell.SetFormula(x);
        sheet := Sheets.SetFormula(sheet, row, col, ToUpper(x)[1..]);
        EvaluateCell(row, col);
      }
    }

    /** put(cellName, value): a name that is not an address of the grid is
        the only fault; the grid is then left as it was. */
    method Put(name: Option<string>, input: Option<string>) returns (r: Result<()>)
      requires Valid()
      modifies this, Objects()
      ensures Valid()
      ensures Formulas.Put(old(sheet), power, name, input).Err? ==>
        r == Err(Formulas.Put(old(sheet), power, name, input).fault) && sheet == old(sheet)
      ensures Formulas.Put(old(sheet), power, name, input).Ok? ==>
        r == Ok(()) && sheet == Formulas.Put(old(sheet), power, name, input).value
    {
      if name.None? {
        return Err(Illegal(InvalidAddress));
      }
      var rc :- ParseAddress(name.value, rows, cols);
      PutAt(rc.0, rc.1, input);
      r := Ok(());
    }

    /** The private get(row, col): the cell's current value. */
    method GetAt(row: nat, col: nat) returns (v: string)
      requires Valid() && row < rows && col < cols
      ensures v == sheet.values[row][col]
    {
      v := cells[row, col].GetValue();
    }

    /** get(cellName): the value of the named cell, or the fault of a name
        that is not an address of the grid. */
    method Get(name: Option<string>) returns (r: Result<string>)
      requires Valid()
      ensures r == Formulas.Get(sheet, name)
    {
      if name.None? {
        return Err(Illegal(InvalidAddress));
      }
      var rc :- ParseAddress(name.value, rows, cols);
      var v := GetAt(rc.0, rc.1);
      r := Ok(v);
    }
  }
}
