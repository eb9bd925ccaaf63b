/** evaluateCell, put and get over the grid as a value: which path a formula
    takes, the display codes faults turn into, and what a put leaves in the
    grid. */
module Formulas {
  import opened Faults
  import opened JavaText
  import opened Numbers
  import opened Addresses
  import opened Sheets
  import opened Lexer
  import opened ShuntingYard
  import opened PostfixEval
  import opened Expressions
  import opened Aggregates

  // ----- evaluateCell -----

  /** The range function whose `NAME(` opens the upper-cased formula, the
      prefixes tried in the order SUMME, MIN, MAX, MITTELWERT. */
  function RangeFunctionOf(u: string): (r: Option<RangeFunction>)
    ensures r.Some? ==> StartsWith(u, Name(r.value) + "(")
    ensures r.None? <==> forall g: RangeFunction :: !StartsWith(u, Name(g) + "(")
  {
    if StartsWith(u, "SUMME(") then Some(Summe)
    else if StartsWith(u, "MIN(") then Some(Minimum)
    else if StartsWith(u, "MAX(") then Some(Maximum)
    else if StartsWith(u, "MITTELWERT(") then Some(Mittelwert)
    else
      NoPrefix(u);
      None
  }

  lemma NoPrefix(u: string)
    requires !StartsWith(u, "SUMME(") && !StartsWith(u, "MIN(")
    requires !StartsWith(u, "MAX(") && !StartsWith(u, "MITTELWERT(")
    ensures forall g: RangeFunction :: !StartsWith(u, Name(g) + "(")
  {
    forall g: RangeFunction
      ensures !StartsWith(u, Name(g) + "(")
    {
      match g
      case Summe =>
      case Minimum =>
      case Maximum =>
      case Mittelwert =>
    }
  }

  /** Upper-casing changes no `(`, so the prefix the upper-cased formula
      starts with has its `(` in the formula itself. */
  lemma PrefixParen(f: string, name: string)
    requires StartsWith(ToUpper(f), name + "(")
    ensures |name| < |f| && f[|name|] == '('
  {
    assert ToUpper(f)[|name|] == (name + "(")[|name|] == '(';
  }

  /** evalExpression, with toRPN's normalisation: upper-cased, white space
      removed, tokenised, converted to postfix and evaluated. */
  function ExpressionValue(s: Sheet, power: Power, f: string): (r: Result<int>)
    ensures r.Ok? ==> InLong(r.value)
  {
    var items :- ToPostfix(s, Tokenize(StripSpaces(ToUpper(f))));
    EvalPostfix(power, items)
  }

  /** The range-function branch of evaluateCell: the argument between the
      parentheses, the numbers of that range, and the function applied to
      them, the first fault ending the evaluation. */
  function RangeValue(s: Sheet, g: RangeFunction, f: string): (r: Result<int>)
    requires |Name(g)| < |f| && f[|Name(g)|] == '('
    ensures r.Ok? ==> InLong(r.value)
    ensures r.Err? ==>
      && r.fault.Illegal?
      && r.fault.reason in {InvalidFunctionSyntax, InvalidRange, InvalidAddress, NotAnInteger, EmptyRange}
  {
    var arg :- InsideOf(f, Name(g));
    var vals :- ValuesOf(s, arg);
    Reduce(g, vals)
  }

  /** The try block of evaluateCell on the trimmed formula `f`: the
      prefix test picks a range function, if any, and Dispatch follows it. */
  function Evaluate(s: Sheet, power: Power, f: string): (r: Result<string>)
    ensures f == [] ==> r == Ok([])
    ensures r.Ok? && f != [] ==> IsCanonicalInteger(r.value)
  {
    var g := RangeFunctionOf(ToUpper(f));
    if g.Some? then PrefixParen(f, Name(g.value)); Dispatch(s, power, f, g)
    else Dispatch(s, power, f, g)
  }

  /** evaluateCell once the prefix test has chosen `g`: that range
      function, or else the expression path (the empty text for an empty
      formula). */
  function Dispatch(s: Sheet, power: Power, f: string, g: Option<RangeFunction>): (r: Result<string>)
    requires g.Some? ==> |Name(g.value)| < |f| && f[|Name(g.value)|] == '('
    ensures f == [] && g.None? ==> r == Ok([])
    ensures r.Ok? && f != [] ==> IsCanonicalInteger(r.value)
  {
    match g
    case Some(fn) =>
      var v :- RangeValue(s, fn, f);
      DecimalRoundTrip(v);
      Ok(Decimal(v))
    case None =>
      if f == [] then Ok([])
      else
        var v :- ExpressionValue(s, power, f);
        DecimalRoundTrip(v);
        Ok(Decimal(v))
  }

  /** A formula with no range-function prefix takes the expression path. */
  lemma ExpressionPath(s: Sheet, power: Power, f: string)
    requires f != [] && RangeFunctionOf(ToUpper(f)).None?
    ensures Evaluate(s, power, f) == (var v :- ExpressionValue(s, power, f); Ok(Decimal(v)))
  {
  }

  /** Every range function's name starts with S or M, so a formula whose
      first letter is neither has no range-function prefix. */
  lemma LeadsNoPrefix(f: string)
    requires f != [] && UpperChar(f[0]) != 'S' && UpperChar(f[0]) != 'M'
    ensures RangeFunctionOf(ToUpper(f)).None?
  {
    var u := ToUpper(f);
    assert u[0] == UpperChar(f[0]);
    assert !StartsWith(u, "SUMME(") by { assert "SUMME("[0] == 'S'; }
    assert !StartsWith(u, "MIN(") by { assert "MIN("[0] == 'M'; }
    assert !StartsWith(u, "MAX(") by { assert "MAX("[0] == 'M'; }
    assert !StartsWith(u, "MITTELWERT(") by { assert "MITTELWERT("[0] == 'M'; }
  }

  /** A formula opening with `NAME(` is dispatched to that range function. */
  lemma RangePath(s: Sheet, power: Power, f: string, g: RangeFunction)
    requires RangeFunctionOf(ToUpper(f)) == Some(g)
    requires |Name(g)| < |f| && f[|Name(g)|] == '('
    ensures Evaluate(s, power, f) == Dispatch(s, power, f, Some(g))
  {
  }

  /** The range-function path: the function's value as a canonical
      decimal, or the first fault on the way to it. */
  lemma DispatchRange(s: Sheet, power: Power, f: string, g: RangeFunction)
    requires |Name(g)| < |f| && f[|Name(g)|] == '('
    ensures RangeValue(s, g, f).Err? ==> Dispatch(s, power, f, Some(g)) == Err(RangeValue(s, g, f).fault)
    ensures RangeValue(s, g, f).Ok? ==> Dispatch(s, power, f, Some(g)) == Ok(Decimal(RangeValue(s, g, f).value))
  {
  }

  /** What a cell shows for the range-function path: the function's value,
      or `#ERR` for any fault on the way to it. */
  lemma DispatchShows(s: Sheet, power: Power, f: string, g: RangeFunction)
    requires |Name(g)| < |f| && f[|Name(g)|] == '('
    ensures var r := RangeValue(s, g, f);
      Display(Dispatch(s, power, f, Some(g))) == if r.Ok? then Decimal(r.value) else "#ERR"
  {
    DispatchRange(s, power, f, g);
  }

  /** No range function divides: a `#DIV/0!` comes from the expression
      path only. */
  lemma DivisionOnlyInExpressions(s: Sheet, power: Power, f: string)
    requires Evaluate(s, power, f) == Err(DivideByZero)
    ensures RangeFunctionOf(ToUpper(f)).None?
  {
  }

  /** The catch clauses: an arithmetic fault shows `#DIV/0!`, every other
      fault `#ERR`. */
  function Display(r: Result<string>): string {
    match r
    case Ok(v) => v
    case Err(DivideByZero) => "#DIV/0!"
    case Err(Illegal(_)) => "#ERR"
  }

  /** The value evaluateCell stores for a cell holding `formula`: a
      canonical decimal, the empty text exactly for an empty formula, or
      one of the two error codes. */
  function CellValue(s: Sheet, power: Power, formula: string): (v: string)
    ensures v == [] <==> Trim(formula) == []
    ensures v == [] || v == "#DIV/0!" || v == "#ERR" || IsCanonicalInteger(v)
  {
    Display(Evaluate(s, power, Trim(formula)))
  }

  /** An already trimmed formula shows what it evaluates to. */
  lemma TrimmedCell(s: Sheet, power: Power, f: string, r: Result<string>)
    requires Trim(f) == f && Evaluate(s, power, f) == r
    ensures CellValue(s, power, f) == Display(r)
  {
  }

  /** `#DIV/0!` shows exactly a zero divisor and `#ERR` exactly every other
      fault; no computed number looks like either code. */
  lemma DisplayCodes(s: Sheet, power: Power, formula: string)
    ensures var r := Evaluate(s, power, Trim(formula));
      && (CellValue(s, power, formula) == "#DIV/0!" <==> r == Err(DivideByZero))
      && (CellValue(s, power, formula) == "#ERR" <==> r.Err? && r.fault.Illegal?)
  {
    var r := Evaluate(s, power, Trim(formula));
    assert r.Ok? && r.value != [] ==> r.value[0] != '#';
  }

  // ----- put and get -----

  /** put's reading of its input: null counts as "", anything else is
      trimmed. */
  function InputText(input: Option<string>): string {
    match input
    case None => ""
    case Some(x) => Trim(x)
  }

  /** The formula branch of put: setFormula stores the input upper-cased
      without its `=`, then evaluateCell computes the value against the grid
      in which the target cell still holds its old value. */
  function PutFormula(s: Sheet, power: Power, row: nat, col: nat, x: string): (t: Sheet)
    requires row < s.rows && col < s.cols && StartsWith(x, "=")
    ensures AgreeOutside(s, t, row, col)
    ensures var body := ToUpper(x)[1..];
      t.formulas[row][col] == body &&
      t.values[row][col] == CellValue(SetFormula(s, row, col, body), power, body)
  {
    var s1 := SetFormula(s, row, col, ToUpper(x)[1..]);
    SetValue(s1, row, col, CellValue(s1, power, s1.formulas[row][col]))
  }

  /** The private put(row, col, input): a literal becomes the value and the
      old formula stays (setFormula("") does nothing); a formula goes
      through PutFormula. */
  function PutAt(s: Sheet, power: Power, row: nat, col: nat, input: Option<string>): (t: Sheet)
    requires row < s.rows && col < s.cols
    ensures AgreeOutside(s, t, row, col)
    ensures !StartsWith(InputText(input), "=") ==>
      t.values[row][col] == InputText(input) && t.formulas[row][col] == s.formulas[row][col]
    ensures StartsWith(InputText(input), "=") ==> t == PutFormula(s, power, row, col, InputText(input))
  {
    var x := InputText(input);
    if !StartsWith(x, "=") then SetValue(s, row, col, x) else PutFormula(s, power, row, col, x)
  }

  /** parseAddress on put's or get's cell name; a null name fails like a
      malformed one. */
  function Locate(s: Sheet, name: Option<string>): (r: Result<(nat, nat)>)
    ensures r.Ok? ==> r.value.0 < s.rows && r.value.1 < s.cols
    ensures r.Err? ==> r.fault == Illegal(InvalidAddress)
  {
    match name
    case None => Err(Illegal(InvalidAddress))
    case Some(n) => ParseAddress(n, s.rows, s.cols)
  }

  /** get(cellName): the value of the named cell. */
  function Get(s: Sheet, name: Option<string>): (r: Result<string>)
    ensures r.Err? <==> Locate(s, name).Err?
    ensures r.Err? ==> r.fault == Illegal(InvalidAddress)
    ensures r.Ok? ==> r.value == s.values[Locate(s, name).value.0][Locate(s, name).value.1]
  {
    var (row, col) :- Locate(s, name);
    Ok(s.values[row][col])
  }

  /** put(cellName, value): only a bad address escapes as a fault; every
      fault of the formula itself ends up as a display code in the cell. */
  function Put(s: Sheet, power: Power, name: Option<string>, input: Option<string>): (r: Result<Sheet>)
    ensures r.Err? <==> Locate(s, name).Err?
    ensures r.Err? ==> r.fault == Illegal(InvalidAddress)
    ensures r.Ok? ==> r.value == PutAt(s, power, Locate(s, name).value.0, Locate(s, name).value.1, input)
  {
    var (row, col) :- Locate(s, name);
    Ok(PutAt(s, power, row, col, input))
  }

  /** After putting a literal, get returns the trimmed literal. */
  lemma GetAfterPutLiteral(s: Sheet, power: Power, name: Option<string>, input: Option<string>)
    requires Put(s, power, name, input).Ok?
    requires !StartsWith(InputText(input), "=")
    ensures Get(Put(s, power, name, input).value, name) == Ok(InputText(input))
  {
    var (row, col) := Locate(s, name).value;
    assert Locate(Put(s, power, name, input).value, name) == Locate(s, name);
  }

  /** Putting into one cell leaves what get returns for every other cell. */
  lemma GetAfterPutElsewhere(s: Sheet, power: Power, name: Option<string>, input: Option<string>, other: Option<string>)
    requires Put(s, power, name, input).Ok? && Locate(s, other).Ok?
    requires Locate(s, other) != Locate(s, name)
    ensures Get(Put(s, power, name, input).value, other) == Get(s, other)
  {
    assert Locate(Put(s, power, name, input).value, other) == Locate(s, other);
  }

  /** What a put leaves in its cell: the trimmed literal, or one of the four
      kinds of formula result. */
  lemma PutValueShape(s: Sheet, power: Power, row: nat, col: nat, input: Option<string>)
    requires row < s.rows && col < s.cols
    ensures var v := PutAt(s, power, row, col, input).values[row][col];
      if StartsWith(InputText(input), "=") then
        v == [] || v == "#DIV/0!" || v == "#ERR" || IsCanonicalInteger(v)
      else v == InputText(input)
  {
  }

  /** A literal put over a formula cell keeps the stale formula while the
      value becomes the literal. */
  lemma LiteralKeepsStaleFormula(s: Sheet, power: Power, row: nat, col: nat, formula: string, literal: string)
    requires row < s.rows && col < s.cols
    requires StartsWith(Trim(formula), "=") && !StartsWith(Trim(literal), "=")
    ensures var m := PutAt(s, power, row, col, Some(formula));
      && m.rows == s.rows && m.cols == s.cols
      && var t := PutAt(m, power, row, col, Some(literal));
      && t.formulas[row][col] == ToUpper(Trim(formula))[1..]
      && t.values[row][col] == Trim(literal)
  {
  }

  // ----- formula text and the expression it denotes -----

  /** Text that upper-casing and white-space removal leave alone. */
  predicate Plain(s: string) {
    forall i :: 0 <= i < |s| ==> !('a' <= s[i] <= 'z') && !IsRegexSpace(s[i])
  }

  lemma LexemePlain(t: Token)
    requires WellFormed(t)
    ensures Plain(Lexeme(t))
  {
    if t.Ref? {
      RefShapeChars(t.name);
    }
  }

  lemma {:induction false} SpellPlain(ts: seq<Token>)
    requires forall i :: 0 <= i < |ts| ==> WellFormed(ts[i])
    ensures Plain(Spell(ts))
  {
    if ts != [] {
      LexemePlain(ts[0]);
      SpellPlain(ts[1..]);
      var a, b := Lexeme(ts[0]), Spell(ts[1..]);
      assert Spell(ts) == a + b;
      assert forall i :: |a| <= i < |a + b| ==> (a + b)[i] == b[i - |a|];
    }
  }

  /** A formula spelled from well-formed, separable tokens is evaluated as
      those tokens: the normalisation and the scanner give them back. */
  lemma ExpressionOfSpelling(s: Sheet, power: Power, ts: seq<Token>)
    requires forall i :: 0 <= i < |ts| ==> WellFormed(ts[i])
    requires Separable(ts)
    ensures ExpressionValue(s, power, Spell(ts)) ==
      (var items :- ToPostfix(s, ts); EvalPostfix(power, items))
  {
    SpellPlain(ts);
    ToUpperOfUpper(Spell(ts));
    StripSpacesOfSpaceless(Spell(ts));
    TokenizeSpell(ts);
  }

  /** Every literal of the tree is a digit run. */
  predicate Numeric(e: Expr) {
    match e
    case Literal(digits) => digits != [] && AllDigits(digits)
    case Binary(_, left, right) => Numeric(left) && Numeric(right)
  }

  /** Well-formed tokens, none of them a reference. */
  predicate NumericTokens(ts: seq<Token>) {
    forall i :: 0 <= i < |ts| ==> WellFormed(ts[i]) && !ts[i].Ref?
  }

  /** Every number is followed by an operator or `)`, and the last token is
      a number or `)`. */
  predicate NumbersClosed(ts: seq<Token>) {
    && ts != []
    && (forall i :: 0 <= i < |ts| - 1 && ts[i].Num? ==> ts[i + 1].Op? || ts[i + 1] == Paren(false))
    && (ts[|ts| - 1].Num? || ts[|ts| - 1] == Paren(false))
  }

  function Framed(op: Operator, l: seq<Token>, r: seq<Token>): seq<Token> {
    [Paren(true)] + l + [Op(op)] + r + [Paren(false)]
  }

  lemma FramedTokens(op: Operator, l: seq<Token>, r: seq<Token>)
    requires NumericTokens(l) && NumericTokens(r)
    ensures NumericTokens(Framed(op, l, r))
  {
    var ts := Framed(op, l, r);
    var m, n := |l|, |r|;
    forall i | 0 <= i < |ts|
      ensures WellFormed(ts[i]) && !ts[i].Ref?
    {
      if 1 <= i <= m {
        assert ts[i] == l[i - 1];
      } else if 2 + m <= i < 2 + m + n {
        assert ts[i] == r[i - 2 - m];
      }
    }
  }

  lemma FramedClosed(op: Operator, l: seq<Token>, r: seq<Token>)
    requires NumbersClosed(l) && NumbersClosed(r)
    ensures NumbersClosed(Framed(op, l, r))
  {
    var ts := Framed(op, l, r);
    var m, n := |l|, |r|;
    forall i | 0 <= i < |ts| - 1 && ts[i].Num?
      ensures ts[i + 1].Op? || ts[i + 1] == Paren(false)
    {
      if 1 <= i < m {
        assert ts[i] == l[i - 1] && ts[i + 1] == l[i];
      } else if i == m {
        assert ts[i] == l[m - 1] && ts[i + 1] == Op(op);
      } else if 2 + m <= i < 1 + m + n {
        assert ts[i] == r[i - 2 - m] && ts[i + 1] == r[i - 1 - m];
      } else if i == 1 + m + n {
        assert ts[i + 1] == Paren(false);
      }
    }
  }

  /** The parenthesized spelling of a numeric tree is made of well-formed
      tokens, and a number is always followed by an operator or `)`. */
  lemma {:induction false} ParenthesizedTokens(e: Expr)
    requires Numeric(e)
    ensures NumericTokens(Parenthesized(e)) && NumbersClosed(Parenthesized(e))
    decreases e
  {
    match e
    case Literal(_) =>
    case Binary(op, left, right) =>
      ParenthesizedTokens(left);
      ParenthesizedTokens(right);
      assert Parenthesized(e) == Framed(op, Parenthesized(left), Parenthesized(right));
      FramedTokens(op, Parenthesized(left), Parenthesized(right));
      FramedClosed(op, Parenthesized(left), Parenthesized(right));
  }

  /** A fully parenthesized formula over numbers evaluates to the value of
      the tree it writes out, whatever the grid. */
  lemma ExpressionOfParenthesized(s: Sheet, power: Power, e: Expr)
    requires Numeric(e)
    ensures ExpressionValue(s, power, Spell(Parenthesized(e))) == Value(power, e)
  {
    var ts := Parenthesized(e);
    ParenthesizedTokens(e);
    assert Separable(ts);
    ExpressionOfSpelling(s, power, ts);
    EvaluateParenthesized(SheetResolver(s), power, e);
  }
}
