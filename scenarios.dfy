/** Concrete formulas and what their cells show: integer division, the two
    error codes and the order in which faults are found, skipped
    characters, unary minus, and a formula that refers to its own cell. */
module Scenarios {
  import opened Faults
  import opened JavaText
  import opened Numbers
  import opened Addresses
  import opened Sheets
  import opened Lexer
  import opened ShuntingYard
  import opened PostfixEval
  import opened Expressions
  import opened Aggregates
  import opened Formulas
  import opened ConversionLaws

  /** A long written in canonical form is read back by parseLongStrict. */
  lemma Reads(n: int, t: string)
    requires InLong(n) && Decimal(n) == t
    ensures ParseLongStrict(t) == Ok(n)
  {
    DecimalRoundTrip(n);
  }

  /** A formula that evaluateCell sends to the expression path shows the
      expression's value, or its fault's code. */
  lemma ExpressionCell(s: Sheet, power: Power, f: string, r: Result<int>)
    requires f != [] && !IsTrimmable(f[0]) && !IsTrimmable(f[|f| - 1])
    requires RangeFunctionOf(ToUpper(f)).None?
    requires ExpressionValue(s, power, f) == r
    ensures CellValue(s, power, f) == Display(var v :- r; Ok(Decimal(v)))
  {
    ExpressionPath(s, power, f);
  }

  /** The expression `a op y`, for a number `a` and a number or reference
      `y` that stands for the text `b`, has the value of the operation on
      the two texts. */
  lemma OneOperatorValue(s: Sheet, power: Power, f: string, a: string, op: Operator, y: Token, b: string)
    requires a != [] && AllDigits(a) && WellFormed(y) && StandsFor(SheetResolver(s), y, b)
    requires f == a + [Symbol(op)] + Lexeme(y)
    ensures ExpressionValue(s, power, f) == Value(power, Binary(op, Literal(a), Literal(b)))
  {
    var ts := [Num(a), Op(op), y];
    OperationTokens(Num(a), op, y);
    ExpressionOfSpelling(s, power, ts);
    EvaluateOneOperator(SheetResolver(s), power, Num(a), op, y, a, b);
  }

  /** A cell computing `a op name`, a number and a reference, shows the
      operation applied to the number and the text the reference reads. */
  lemma ReferenceOperandCell(s: Sheet, power: Power, f: string, a: string, op: Operator, name: string, b: string)
    requires a != [] && AllDigits(a) && IsRefShape(name) && ResolveRef(s, name) == Ok(b)
    requires f == a + [Symbol(op)] + name
    ensures CellValue(s, power, f) ==
      Display(var v :- Value(power, Binary(op, Literal(a), Literal(b))); Ok(Decimal(v)))
  {
    NumberOpReferenceEnds(a, op, name);
    assert f != [] && IsDigit(f[0]) && IsDigit(f[|f| - 1]);
    assert StandsFor(SheetResolver(s), Ref(name), b);
    var r := Value(power, Binary(op, Literal(a), Literal(b)));
    OneOperatorValue(s, power, f, a, op, Ref(name), b);
    assert ExpressionValue(s, power, f) == r;
    LeadsNoPrefix(f);
    ExpressionCell(s, power, f, r);
  }

  /** `=3/2` shows 1: division truncates. */
  lemma ThreeHalves(s: Sheet, power: Power)
    ensures CellValue(s, power, "3/2") == "1"
  {
    assert Decimal(1) == "1";
    Reads(3, "3");
    Reads(2, "2");
    OneOperatorValue(s, power, "3/2", "3", Slash, Num("2"), "2");
    LeadsNoPrefix("3/2");
    ExpressionCell(s, power, "3/2", Ok(1));
  }

  /** `=7/0` shows the arithmetic error code. */
  lemma SevenByZero(s: Sheet, power: Power)
    ensures CellValue(s, power, "7/0") == "#DIV/0!"
  {
    Reads(7, "7");
    Reads(0, "0");
    OneOperatorValue(s, power, "7/0", "7", Slash, Num("0"), "0");
    LeadsNoPrefix("7/0");
    ExpressionCell(s, power, "7/0", Err(DivideByZero));
  }

  /** The decimal text of a two-digit number. */
  lemma TwoDigits(n: int)
    requires 10 <= n < 100
    ensures Decimal(n) == [DigitChar(n / 10), DigitChar(n % 10)]
  {
    assert n / 10 < 10;
    assert Digits(n / 10) == [DigitChar(n / 10)];
  }

  /** `a o1 b o2 c` over three number tokens evaluates as the tree the
      precedence and associativity rules group it into. */
  lemma TwoOperatorExpression(s: Sheet, power: Power, f: string,
                              a: string, o1: Operator, b: string, o2: Operator, c: string)
    requires a != [] && AllDigits(a) && b != [] && AllDigits(b) && c != [] && AllDigits(c)
    requires f == a + [Symbol(o1)] + b + [Symbol(o2)] + c
    ensures ExpressionValue(s, power, f) == Value(power, Associate(Literal(a), o1, Literal(b), o2, Literal(c)))
  {
    var ts := [Num(a), Op(o1), Num(b), Op(o2), Num(c)];
    TwoOperationTokens(a, o1, b, o2, c);
    ExpressionOfSpelling(s, power, ts);
    EvaluateTwoOperators(SheetResolver(s), power, a, o1, b, o2, c);
  }

  /** The tree of `2+3*4` has the value 14. */
  lemma TimesBeforePlusTree(power: Power)
    ensures Value(power, Associate(Literal("2"), Plus, Literal("3"), Times, Literal("4"))) == Ok(14)
  {
    var product := Binary(Times, Literal("3"), Literal("4"));
    assert Associate(Literal("2"), Plus, Literal("3"), Times, Literal("4")) == Binary(Plus, Literal("2"), product);
    assert Value(power, product) == Ok(12) by {
      Reads(3, "3");
      Reads(4, "4");
    }
    Reads(2, "2");
  }

  /** `2+3*4` evaluates to 14: `*` binds tighter than `+`. */
  lemma TimesBeforePlusValue(s: Sheet, power: Power)
    ensures ExpressionValue(s, power, "2+3*4") == Ok(14)
  {
    TwoOperatorExpression(s, power, "2+3*4", "2", Plus, "3", Times, "4");
    TimesBeforePlusTree(power);
  }

  /** `=2+3*4` shows 14. */
  lemma TimesBeforePlus(s: Sheet, power: Power)
    ensures CellValue(s, power, "2+3*4") == "14"
  {
    assert Decimal(14) == "14" by {
      TwoDigits(14);
    }
    TimesBeforePlusValue(s, power);
    LeadsNoPrefix("2+3*4");
    ExpressionCell(s, power, "2+3*4", Ok(14));
  }

  /** The tree of `8-3-2` has the value 3. */
  lemma MinusGroupsLeftTree(power: Power)
    ensures Value(power, Associate(Literal("8"), Minus, Literal("3"), Minus, Literal("2"))) == Ok(3)
  {
    var difference := Binary(Minus, Literal("8"), Literal("3"));
    assert Associate(Literal("8"), Minus, Literal("3"), Minus, Literal("2")) == Binary(Minus, difference, Literal("2"));
    assert Value(power, difference) == Ok(5) by {
      Reads(8, "8");
      Reads(3, "3");
    }
    Reads(2, "2");
  }

  /** `8-3-2` evaluates to 3: operators of equal precedence group to the
      left. */
  lemma MinusGroupsLeftValue(s: Sheet, power: Power)
    ensures ExpressionValue(s, power, "8-3-2") == Ok(3)
  {
    TwoOperatorExpression(s, power, "8-3-2", "8", Minus, "3", Minus, "2");
    MinusGroupsLeftTree(power);
  }

  /** `=8-3-2` shows 3. */
  lemma MinusGroupsLeft(s: Sheet, power: Power)
    ensures CellValue(s, power, "8-3-2") == "3"
  {
    MinusGroupsLeftValue(s, power);
    LeadsNoPrefix("8-3-2");
    ExpressionCell(s, power, "8-3-2", Ok(3));
    assert Decimal(3) == "3";
  }

  /** `2^3^2` groups to the right: the host power is applied to 3 and 2
      first, then to 2 and that result. */
  lemma CaretGroupsRight(s: Sheet, power: Power)
    ensures ExpressionValue(s, power, "2^3^2") == Ok(Clamp(power(2, Clamp(power(3, 2)))))
  {
    TwoOperatorExpression(s, power, "2^3^2", "2", Caret, "3", Caret, "2");
    Reads(2, "2");
    Reads(3, "3");
  }

  /** An open parenthesis that is never closed fails the conversion. */
  lemma UnclosedParenPostfix(s: Sheet)
    ensures ToPostfix(s, [Paren(true), Num("1"), Op(Slash), Num("0")]) == Err(Illegal(MismatchedParens))
  {
    var ts := [Paren(true), Num("1"), Op(Slash), Num("0")];
    assert Net(ts[3..]) == 0 by { assert ts[3..][1..] == []; }
    assert Net(ts[2..]) == 0 by { assert ts[2..][1..] == ts[3..]; }
    assert Net(ts[1..]) == 0 by { assert ts[1..][1..] == ts[2..]; }
    assert Net(ts) == 1;
    assert Arithmetic(ts);
    ConvertBalanced(SheetResolver(s), ts);
  }

  /** `(1/0` is refused by the conversion, for its unclosed parenthesis. */
  lemma UnclosedParenValue(s: Sheet, power: Power)
    ensures ExpressionValue(s, power, "(1/0") == Err(Illegal(MismatchedParens))
  {
    var ts := [Paren(true), Num("1"), Op(Slash), Num("0")];
    assert Spell(ts) == "(1/0" by {
      assert Spell(ts[3..]) == "0" + [];
      assert Spell(ts[2..]) == "/" + ("0" + []);
      assert Spell(ts[1..]) == "1" + ("/" + ("0" + []));
    }
    ExpressionOfSpelling(s, power, ts);
    UnclosedParenPostfix(s);
  }

  /** `=(1/0` shows `#ERR`, not `#DIV/0!` as `=7/0` does: the unclosed
      parenthesis is found by the conversion, before any division is
      evaluated. */
  lemma ParenFaultBeforeDivision(s: Sheet, power: Power)
    ensures CellValue(s, power, "(1/0") == "#ERR"
  {
    UnclosedParenValue(s, power);
    LeadsNoPrefix("(1/0");
    ExpressionCell(s, power, "(1/0", Err(Illegal(MismatchedParens)));
  }

  /** A leading minus is an operator token, not a sign. */
  lemma UnaryMinusPostfix(s: Sheet)
    ensures ToPostfix(s, [Op(Minus), Num("5")]) == Ok([Operand("5"), Operation(Minus)])
  {
    var r := SheetResolver(s);
    PopNothing([], [], Minus);
    assert [] + [Pending(Minus)] == [Pending(Minus)];
    assert [] + [Operand("5")] == [Operand("5")];
    RunCons(r, State([], []), Op(Minus), [Num("5")], State([], [Pending(Minus)]));
    RunCons(r, State([], [Pending(Minus)]), Num("5"), [], State([Operand("5")], [Pending(Minus)]));
    assert [Num("5")] + [] == [Num("5")];
    assert [Op(Minus), Num("5")] == [Op(Minus)] + [Num("5")];
    assert Run(r, State([], []), [Op(Minus), Num("5")]) == Ok(State([Operand("5")], [Pending(Minus)]));
    assert Unwind([Pending(Minus)]) == [Operation(Minus)] by {
      assert [Pending(Minus)][..0] == [];
    }
    assert [Operand("5")] + [Operation(Minus)] == [Operand("5"), Operation(Minus)];
  }

  /** The postfix list of `-5` leaves the minus one operand short. */
  lemma UnaryMinusEval(power: Power)
    ensures EvalPostfix(power, [Operand("5"), Operation(Minus)]) == Err(Illegal(MalformedExpression))
  {
    Reads(5, "5");
    assert [Operand("5"), Operation(Minus)] == [Operand("5")] + [Operation(Minus)];
    OperandPush(power, [], "5", 5, [Operation(Minus)]);
    assert [Operation(Minus)] == [Operation(Minus)] + [];
    OperatorUnderflow(power, [] + [5], Minus, []);
  }

  /** `-5` is malformed: the minus finds one operand only. */
  lemma UnaryMinusValue(s: Sheet, power: Power)
    ensures ExpressionValue(s, power, "-5") == Err(Illegal(MalformedExpression))
  {
    var ts := [Op(Minus), Num("5")];
    SpellPair(Op(Minus), Num("5"));
    assert Spell(ts) == "-5";
    ExpressionOfSpelling(s, power, ts);
    UnaryMinusPostfix(s);
    UnaryMinusEval(power);
  }

  /** `=-5` shows `#ERR`: numbers are unsigned. */
  lemma UnaryMinus(s: Sheet, power: Power)
    ensures CellValue(s, power, "-5") == "#ERR"
  {
    UnaryMinusValue(s, power);
    LeadsNoPrefix("-5");
    ExpressionCell(s, power, "-5", Err(Illegal(MalformedExpression)));
  }

  /** The scanner skips a character that starts no token. */
  lemma PercentSkipped()
    ensures Tokenize("%3") == [Num("3")]
  {
    assert Tokenize("3") == [Num("3")] by {
      DigitRunIs("3", 1);
      assert "3"[..1] == "3" && "3"[1..] == [];
    }
    assert "%3"[1..] == "3";
  }

  /** The scanner skips `%`: `5%3` gives two number tokens. */
  lemma SkippedCharacterTokens()
    ensures Tokenize(StripSpaces(ToUpper("5%3"))) == [Num("5"), Num("3")]
  {
    var f := "5%3";
    assert ToUpper(f) == f by {
      ToUpperOfUpper(f);
    }
    assert StripSpaces(f) == f by {
      StripSpacesOfSpaceless(f);
    }
    PercentSkipped();
    DigitRunIs(f, 1);
    assert f[..1] == "5" && f[1..] == "%3";
  }

  /** Two numbers and no operator convert to the two operands. */
  lemma TwoNumbersPostfix(s: Sheet)
    ensures ToPostfix(s, [Num("5"), Num("3")]) == Ok([Operand("5"), Operand("3")])
  {
    var r := SheetResolver(s);
    var ts := [Num("5"), Num("3")];
    var items := [Operand("5"), Operand("3")];
    assert [] + [Operand("5")] == [Operand("5")];
    RunHead(r, State([], []), ts, State([Operand("5")], []));
    assert [Operand("5")] + [Operand("3")] == items;
    RunHead(r, State([Operand("5")], []), ts[1..], State(items, []));
    assert ts[1..][1..] == [];
    assert items + Unwind([]) == items;
  }

  /** Two operands leave two values on the stack. */
  lemma TwoNumbersEval(power: Power)
    ensures EvalPostfix(power, [Operand("5"), Operand("3")]) == Err(Illegal(MalformedExpression))
  {
    Reads(5, "5");
    Reads(3, "3");
    assert [Operand("5"), Operand("3")] == [Operand("5")] + [Operand("3")];
    OperandPush(power, [], "5", 5, [Operand("3")]);
    assert [Operand("3")] == [Operand("3")] + [];
    OperandPush(power, [] + [5], "3", 3, []);
    assert [] + [5] + [3] == [5, 3];
  }

  /** Two numbers and no operator leave two values on the stack. */
  lemma TwoNumbersValue(s: Sheet, power: Power)
    ensures (var items :- ToPostfix(s, [Num("5"), Num("3")]); EvalPostfix(power, items))
         == Err(Illegal(MalformedExpression))
  {
    TwoNumbersPostfix(s);
    TwoNumbersEval(power);
  }

  /** `=5%3` shows `#ERR`: the skipped `%` leaves a malformed expression. */
  lemma SkippedCharacter(s: Sheet, power: Power)
    ensures CellValue(s, power, "5%3") == "#ERR"
  {
    SkippedCharacterTokens();
    TwoNumbersValue(s, power);
    LeadsNoPrefix("5%3");
    ExpressionCell(s, power, "5%3", Err(Illegal(MalformedExpression)));
  }
  /** On a 1 x 1 grid the name `A1` locates the only cell. */
  lemma LocateA1(s: Sheet)
    requires s.rows == 1 && s.cols == 1
    ensures Render(0, 0) == "A1" && Locate(s, Some("A1")) == Ok((0, 0))
  {
    assert Render(0, 0) == "A1" by { assert Digits(1) == "1"; }
    ParseRender(0, 0, 1, 1);
  }

  /** A blank A1 reads as the operand 0. */
  lemma EmptyReadsZero(s: Sheet)
    requires s.rows == 1 && s.cols == 1 && s.values[0][0] == ""
    ensures ResolveRef(s, "A1") == Ok("0") && ParseLongStrict("0") == Ok(0)
  {
    LocateA1(s);
    RefShapeNormalized("A1");
    ZeroLiteral();
  }

  /** `1+b` for a text b holding the long n, when n + 1 does not wrap. */
  lemma OnePlusValue(power: Power, b: string, n: int, m: int)
    requires ParseLongStrict(b) == Ok(n) && m == n + 1 && InLong(m)
    ensures Value(power, Binary(Plus, Literal("1"), Literal(b))) == Ok(m)
  {
    Reads(1, "1");
    assert Value(power, Literal("1")) == Ok(1);
    assert Value(power, Literal(b)) == Ok(n);
    assert Apply(power, Plus, 1, n) == Ok(m);
  }

  /** The input `=1+A1` is kept by trim and stored as the body `1+A1`. */
  lemma OnePlusSelfInput()
    ensures InputText(Some("=1+A1")) == "=1+A1" && StartsWith("=1+A1", "=")
    ensures ToUpper("=1+A1")[1..] == "1+A1"
  {
  }

  /** The body `1+A1` shows one more than the number A1 reads as. */
  lemma OnePlusSelfCell(s: Sheet, power: Power, b: string, n: int, m: int)
    requires ResolveRef(s, "A1") == Ok(b) && ParseLongStrict(b) == Ok(n) && m == n + 1 && InLong(m)
    ensures CellValue(s, power, "1+A1") == Decimal(m)
  {
    OnePlusValue(power, b, n, m);
    ReferenceOperandCell(s, power, "1+A1", "1", Plus, "A1", b);
  }

  /** Putting `=1+A1` into A1 of a 1 x 1 grid stores the body `1+A1` and
      shows one more than the number A1 read as before the put. */
  lemma PutOnePlusSelf(s: Sheet, power: Power, b: string, n: int, m: int) returns (t: Sheet)
    requires s.rows == 1 && s.cols == 1
    requires ResolveRef(s, "A1") == Ok(b) && ParseLongStrict(b) == Ok(n) && m == n + 1 && InLong(m)
    ensures Put(s, power, Some("A1"), Some("=1+A1")) == Ok(t)
    ensures t.rows == 1 && t.cols == 1 && t.formulas[0][0] == "1+A1" && t.values[0][0] == Decimal(m)
  {
    OnePlusSelfInput();
    LocateA1(s);
    t := PutAt(s, power, 0, 0, Some("=1+A1"));
    var t0 := SetFormula(s, 0, 0, "1+A1");
    assert ResolveRef(t0, "A1") == Ok(b) by { assert t0.values == s.values; }
    OnePlusSelfCell(t0, power, b, n, m);
  }

  /** A1 showing the long n reads as n. */
  lemma A1Reads(s: Sheet, n: int)
    requires s.rows == 1 && s.cols == 1 && InLong(n) && s.values[0][0] == Decimal(n)
    ensures ResolveRef(s, "A1") == Ok(Decimal(n)) && ParseLongStrict(Decimal(n)) == Ok(n)
  {
    LocateA1(s);
    ReferenceReadsValue(s, 0, 0, n);
  }

  /** The first put of `=1+A1` into a blank A1 shows 1. */
  lemma PutSelfOnBlank(s0: Sheet, power: Power) returns (s1: Sheet)
    requires s0.rows == 1 && s0.cols == 1 && s0.values[0][0] == ""
    ensures Put(s0, power, Some("A1"), Some("=1+A1")) == Ok(s1)
    ensures s1.rows == 1 && s1.cols == 1 && s1.values[0][0] == Decimal(1)
  {
    EmptyReadsZero(s0);
    s1 := PutOnePlusSelf(s0, power, "0", 0, 1);
  }

  /** The same put over an A1 that shows 1 shows 2. */
  lemma PutSelfOnOne(s1: Sheet, power: Power) returns (s2: Sheet)
    requires s1.rows == 1 && s1.cols == 1 && s1.values[0][0] == Decimal(1)
    ensures Put(s1, power, Some("A1"), Some("=1+A1")) == Ok(s2)
    ensures s2.rows == 1 && s2.cols == 1 && s2.values[0][0] == Decimal(2)
  {
    A1Reads(s1, 1);
    s2 := PutOnePlusSelf(s1, power, Decimal(1), 1, 2);
  }

  /** get("A1") on a 1 x 1 grid returns what A1 shows. */
  lemma GetA1(s: Sheet, n: int, text: string)
    requires s.rows == 1 && s.cols == 1 && s.values[0][0] == Decimal(n) && Decimal(n) == text
    ensures Get(s, Some("A1")) == Ok(text)
  {
    LocateA1(s);
  }

  /** `=1+A1` put into A1 reads A1's own value from before the put: on a
      1 x 1 grid whose cell is blank, such as a new one, the first put shows
      1 and the same put again shows 2, so putting a self-referencing
      formula is not idempotent. */
  lemma SelfReferenceNotIdempotent(s0: Sheet, power: Power) returns (s1: Sheet, s2: Sheet)
    requires s0.rows == 1 && s0.cols == 1 && s0.values[0][0] == ""
    ensures Put(s0, power, Some("A1"), Some("=1+A1")) == Ok(s1) && Get(s1, Some("A1")) == Ok("1")
    ensures Put(s1, power, Some("A1"), Some("=1+A1")) == Ok(s2) && Get(s2, Some("A1")) == Ok("2")
  {
    s1 := PutSelfOnBlank(s0, power);
    s2 := PutSelfOnOne(s1, power);
    assert Decimal(1) == "1" && Decimal(2) == "2";
    GetA1(s1, 1, "1");
    GetA1(s2, 2, "2");
  }
}
