/** What the shunting-yard conversion and the postfix evaluation mean
    together: infix text denotes an expression tree, and converting then
    evaluating computes the tree's value. */
module Expressions {
  import opened Faults
  import opened Numbers
  import opened Lexer
  import opened ShuntingYard
  import opened PostfixEval

  datatype Expr = Literal(digits: string) | Binary(op: Operator, left: Expr, right: Expr)

  /** The tree's value: operands left to right, the first fault wins. */
  function Value(power: Power, e: Expr): (r: Result<int>)
    ensures r.Ok? ==> InLong(r.value)
  {
    match e
    case Literal(digits) => ParseLongStrict(digits)
    case Binary(op, left, right) =>
      var a :- Value(power, left);
      var b :- Value(power, right);
      Apply(power, op, a, b)
  }

  /** The tree in postfix order. */
  function PostfixOf(e: Expr): seq<RpnItem> {
    match e
    case Literal(digits) => [Operand(digits)]
    case Binary(op, left, right) => PostfixOf(left) + PostfixOf(right) + [Operation(op)]
  }

  /** The tree written infix with every operation in parentheses. */
  function Parenthesized(e: Expr): seq<Token> {
    match e
    case Literal(digits) => [Num(digits)]
    case Binary(op, left, right) =>
      [Paren(true)] + Parenthesized(left) + [Op(op)] + Parenthesized(right) + [Paren(false)]
  }

  lemma Regroup<T>(a: seq<T>, b: seq<T>, c: seq<T>, d: seq<T>, e: seq<T>)
    ensures a + b + c + d + e == a + (b + (c + (d + e)))
    ensures a + b + c + d == a + (b + c + d)
  {
  }

  /** The main loop takes its first token and goes on from there. */
  lemma RunCons(resolve: Resolver, st: State, t: Token, rest: seq<Token>, next: State)
    requires Step(resolve, st, t) == Ok(next)
    ensures Run(resolve, st, [t] + rest) == Run(resolve, next, rest)
  {
    assert ([t] + rest)[1..] == rest;
  }

  /** The main loop on a non-empty token list: its first token, then the rest. */
  lemma RunHead(resolve: Resolver, st: State, ts: seq<Token>, next: State)
    requires ts != [] && Step(resolve, st, ts[0]) == Ok(next)
    ensures Run(resolve, st, ts) == Run(resolve, next, ts[1..])
  {
  }

  /** A prefix the main loop gets through hands its state on to the rest. */
  lemma {:induction false} RunThen(resolve: Resolver, st: State, a: seq<Token>, mid: State, b: seq<Token>)
    requires Run(resolve, st, a) == Ok(mid)
    ensures Run(resolve, st, a + b) == Run(resolve, mid, b)
    decreases |a|
  {
    if a == [] {
      assert a + b == b;
    } else {
      assert (a + b)[0] == a[0] && (a + b)[1..] == a[1..] + b;
      var next := Step(resolve, st, a[0]);
      assert next.Ok?;
      assert Run(resolve, st, a) == Run(resolve, next.value, a[1..]);
      assert Run(resolve, st, a + b) == Run(resolve, next.value, a[1..] + b);
      RunThen(resolve, next.value, a[1..], mid, b);
    }
  }

  /** An operator right after an open parenthesis pops nothing. */
  lemma StepOpAfterOpen(resolve: Resolver, out: seq<RpnItem>, ops: seq<StackItem>, op: Operator)
    ensures Step(resolve, State(out, ops + [OpenParen]), Op(op)) == Ok(State(out, ops + [OpenParen, Pending(op)]))
  {
    var open := ops + [OpenParen];
    assert YieldCount(open, op) == 0;
    assert open[|open|..] == [] && open[..|open|] == open;
    assert Unwind([]) == [];
    assert open + [Pending(op)] == ops + [OpenParen, Pending(op)];
    assert out + [] == out;
  }

  /** A closing parenthesis right after one operator outputs that operator
      and removes the parenthesis. */
  lemma StepCloseAfterOp(resolve: Resolver, out: seq<RpnItem>, ops: seq<StackItem>, op: Operator)
    ensures Step(resolve, State(out, ops + [OpenParen, Pending(op)]), Paren(false)) == Ok(State(out + [Operation(op)], ops))
  {
    var withOp := ops + [OpenParen, Pending(op)];
    assert LastOpen(withOp) == Some(|ops|);
    assert withOp[|ops| + 1..] == [Pending(op)];
    assert withOp[..|ops|] == ops;
    assert Unwind([Pending(op)]) == [Operation(op)];
  }

  /** An open parenthesis, the left operand's tokens and the operator. */
  lemma RunLeftHalf(resolve: Resolver, out: seq<RpnItem>, ops: seq<StackItem>, op: Operator,
                    l: seq<Token>, pl: seq<RpnItem>, rest: seq<Token>)
    requires Run(resolve, State(out, ops + [OpenParen]), l) == Ok(State(out + pl, ops + [OpenParen]))
    ensures Run(resolve, State(out, ops), [Paren(true)] + (l + ([Op(op)] + rest)))
         == Run(resolve, State(out + pl, ops + [OpenParen, Pending(op)]), rest)
  {
    var open := ops + [OpenParen];
    var s1 := State(out, open);
    RunCons(resolve, State(out, ops), Paren(true), l + ([Op(op)] + rest), s1);
    var s2 := State(out + pl, open);
    RunThen(resolve, s1, l, s2, [Op(op)] + rest);
    StepOpAfterOpen(resolve, s2.output, ops, op);
    RunCons(resolve, s2, Op(op), rest, State(s2.output, ops + [OpenParen, Pending(op)]));
  }

  /** The right operand's tokens and the closing parenthesis. */
  lemma RunRightHalf(resolve: Resolver, out: seq<RpnItem>, ops: seq<StackItem>, op: Operator,
                     r: seq<Token>, pr: seq<RpnItem>)
    requires Run(resolve, State(out, ops + [OpenParen, Pending(op)]), r)
          == Ok(State(out + pr, ops + [OpenParen, Pending(op)]))
    ensures Run(resolve, State(out, ops + [OpenParen, Pending(op)]), r + [Paren(false)])
         == Ok(State(out + pr + [Operation(op)], ops))
  {
    var withOp := ops + [OpenParen, Pending(op)];
    var s4 := State(out + pr, withOp);
    RunThen(resolve, State(out, withOp), r, s4, [Paren(false)]);
    StepCloseAfterOp(resolve, s4.output, ops, op);
    RunHead(resolve, s4, [Paren(false)], State(s4.output + [Operation(op)], ops));
    assert [Paren(false)][1..] == [];
  }

  /** The tokens of a parenthesized operation, given what the main loop
      does with each operand's tokens. */
  lemma RunBinary(resolve: Resolver, st: State, op: Operator, l: seq<Token>, r: seq<Token>, pl: seq<RpnItem>, pr: seq<RpnItem>)
    requires Run(resolve, State(st.output, st.ops + [OpenParen]), l) == Ok(State(st.output + pl, st.ops + [OpenParen]))
    requires Run(resolve, State(st.output + pl, st.ops + [OpenParen, Pending(op)]), r)
          == Ok(State(st.output + pl + pr, st.ops + [OpenParen, Pending(op)]))
    ensures Run(resolve, st, [Paren(true)] + l + [Op(op)] + r + [Paren(false)])
         == Ok(State(st.output + (pl + pr + [Operation(op)]), st.ops))
  {
    Regroup([Paren(true)], l, [Op(op)], r, [Paren(false)]);
    RunLeftHalf(resolve, st.output, st.ops, op, l, pl, r + [Paren(false)]);
    RunRightHalf(resolve, st.output + pl, st.ops, op, r, pr);
    Regroup(st.output, pl, pr, [Operation(op)], []);
  }

  /** The conversion of a parenthesized tree appends its postfix form to the
      output and leaves the operator stack as it was. */
  lemma {:induction false} RunParenthesized(resolve: Resolver, st: State, e: Expr)
    ensures Run(resolve, st, Parenthesized(e)) == Ok(State(st.output + PostfixOf(e), st.ops))
    decreases e
  {
    match e
    case Literal(digits) =>
    case Binary(op, left, right) =>
      var pl := PostfixOf(left);
      RunParenthesized(resolve, State(st.output, st.ops + [OpenParen]), left);
      RunParenthesized(resolve, State(st.output + pl, st.ops + [OpenParen, Pending(op)]), right);
      RunBinary(resolve, st, op, Parenthesized(left), Parenthesized(right), pl, PostfixOf(right));
  }

  /** A fully parenthesized expression converts to its postfix form. */
  lemma ConvertParenthesized(resolve: Resolver, e: Expr)
    ensures Convert(resolve, Parenthesized(e)) == Ok(PostfixOf(e))
  {
    RunParenthesized(resolve, State([], []), e);
    var st := State([] + PostfixOf(e), []);
    assert Run(resolve, State([], []), Parenthesized(e)) == Ok(st);
    assert Drain(st) == Ok(PostfixOf(e)) by {
      assert OpenParen !in st.ops;
      assert Unwind(st.ops) == [];
      assert st.output + [] == PostfixOf(e);
    }
  }

  /** Evaluating a tree's postfix form pushes the tree's value, or stops with
      its fault. */
  lemma {:induction false} EvalPostfixOf(power: Power, st: seq<int>, e: Expr, rest: seq<RpnItem>)
    ensures EvalFrom(power, st, PostfixOf(e) + rest) ==
      match Value(power, e)
      case Err(f) => Err(f)
      case Ok(v) => EvalFrom(power, st + [v], rest)
    decreases e
  {
    match e
    case Literal(digits) =>
      assert (PostfixOf(e) + rest)[1..] == rest;
    case Binary(op, left, right) =>
      assert PostfixOf(e) + rest == PostfixOf(left) + (PostfixOf(right) + ([Operation(op)] + rest));
      EvalPostfixOf(power, st, left, PostfixOf(right) + ([Operation(op)] + rest));
      var a := Value(power, left);
      if a.Ok? {
        EvalPostfixOf(power, st + [a.value], right, [Operation(op)] + rest);
        var b := Value(power, right);
        if b.Ok? {
          var st2 := st + [a.value] + [b.value];
          assert st2[..|st2| - 2] == st;
          assert ([Operation(op)] + rest)[1..] == rest;
        }
      }
  }

  /** Converting a fully parenthesized expression and evaluating the result
      computes the expression's value. */
  lemma EvaluateParenthesized(resolve: Resolver, power: Power, e: Expr)
    ensures (var items :- Convert(resolve, Parenthesized(e)); EvalPostfix(power, items)) == Value(power, e)
  {
    ConvertParenthesized(resolve, e);
    EvalPostfixOf(power, [], e, []);
    assert PostfixOf(e) + [] == PostfixOf(e);
  }

  /** The tree `a o1 b o2 c` denotes: the first operator is applied first
      exactly when it yields to the second. */
  function Associate(a: Expr, o1: Operator, b: Expr, o2: Operator, c: Expr): (e: Expr)
    ensures Precedence(o1) > Precedence(o2) || (Precedence(o1) == Precedence(o2) && o2 != Caret) ==>
      e == Binary(o2, Binary(o1, a, b), c)
    ensures Precedence(o1) < Precedence(o2) || (Precedence(o1) == Precedence(o2) && o2 == Caret) ==>
      e == Binary(o1, a, Binary(o2, b, c))
  {
    if Yields(Pending(o1), o2) then Binary(o2, Binary(o1, a, b), c) else Binary(o1, a, Binary(o2, b, c))
  }

  lemma PopNothing(out: seq<RpnItem>, ops: seq<StackItem>, op: Operator)
    requires YieldCount(ops, op) == 0
    ensures PopOperators(State(out, ops), op) == State(out, ops)
  {
    assert ops[|ops|..] == [] && ops[..|ops|] == ops;
    assert out + Unwind([]) == out;
  }

  lemma PopOne(out: seq<RpnItem>, o1: Operator, o2: Operator)
    requires Yields(Pending(o1), o2)
    ensures PopOperators(State(out, [Pending(o1)]), o2) == State(out + [Operation(o1)], [])
  {
    var ops := [Pending(o1)];
    assert YieldCount(ops, o2) == 1 by {
      assert ops[..0] == [];
    }
    assert ops[0..] == ops && ops[..0] == [];
    assert Unwind(ops) == [Operation(o1)];
  }

  /** The state after the main loop over `a o1 b o2 c`. */
  function TwoOperatorState(a: string, o1: Operator, b: string, o2: Operator, c: string): State {
    var A, B, C := Operand(a), Operand(b), Operand(c);
    if Yields(Pending(o1), o2) then State([A, B, Operation(o1), C], [Pending(o2)])
    else State([A, B, C], [Pending(o1), Pending(o2)])
  }

  /** The first operand, operator and operand of `a o1 b ...`. */
  lemma RunFirstOperation(resolve: Resolver, a: string, o1: Operator, b: string, rest: seq<Token>)
    ensures Run(resolve, State([], []), [Num(a), Op(o1), Num(b)] + rest)
         == Run(resolve, State([Operand(a), Operand(b)], [Pending(o1)]), rest)
  {
    var A, B := Operand(a), Operand(b);
    var ts := [Num(a), Op(o1), Num(b)] + rest;
    assert ts == [Num(a)] + ([Op(o1)] + ([Num(b)] + rest));
    var st1 := State([A], []);
    assert [] + [A] == [A];
    RunCons(resolve, State([], []), Num(a), [Op(o1)] + ([Num(b)] + rest), st1);
    PopNothing([A], [], o1);
    var st2 := State([A], [Pending(o1)]);
    assert [] + [Pending(o1)] == [Pending(o1)];
    RunCons(resolve, st1, Op(o1), [Num(b)] + rest, st2);
    assert [A] + [B] == [A, B];
    RunCons(resolve, st2, Num(b), rest, State([A, B], [Pending(o1)]));
  }

  /** The second operator pops the first when the first yields to it... */
  lemma StepSecondYields(resolve: Resolver, A: RpnItem, B: RpnItem, o1: Operator, o2: Operator)
    requires Yields(Pending(o1), o2)
    ensures Step(resolve, State([A, B], [Pending(o1)]), Op(o2)) == Ok(State([A, B, Operation(o1)], [Pending(o2)]))
  {
    PopOne([A, B], o1, o2);
    assert [A, B] + [Operation(o1)] == [A, B, Operation(o1)] && [] + [Pending(o2)] == [Pending(o2)];
  }

  /** ... and is stacked above it otherwise. */
  lemma StepSecondStacks(resolve: Resolver, A: RpnItem, B: RpnItem, o1: Operator, o2: Operator)
    requires !Yields(Pending(o1), o2)
    ensures Step(resolve, State([A, B], [Pending(o1)]), Op(o2)) == Ok(State([A, B], [Pending(o1), Pending(o2)]))
  {
    assert YieldCount([Pending(o1)], o2) == 0;
    PopNothing([A, B], [Pending(o1)], o2);
    assert [Pending(o1)] + [Pending(o2)] == [Pending(o1), Pending(o2)];
  }

  /** The state after the main loop over `a o1 b o2`. */
  function SecondOperatorState(a: string, o1: Operator, b: string, o2: Operator): State {
    var A, B := Operand(a), Operand(b);
    if Yields(Pending(o1), o2) then State([A, B, Operation(o1)], [Pending(o2)])
    else State([A, B], [Pending(o1), Pending(o2)])
  }

  /** The second operator, after `a o1 b`. */
  lemma StepSecondOperator(resolve: Resolver, a: string, o1: Operator, b: string, o2: Operator)
    ensures Step(resolve, State([Operand(a), Operand(b)], [Pending(o1)]), Op(o2))
         == Ok(SecondOperatorState(a, o1, b, o2))
  {
    if Yields(Pending(o1), o2) {
      StepSecondYields(resolve, Operand(a), Operand(b), o1, o2);
    } else {
      StepSecondStacks(resolve, Operand(a), Operand(b), o1, o2);
    }
  }

  /** The last operand, after `a o1 b o2`. */
  lemma StepLastOperand(resolve: Resolver, a: string, o1: Operator, b: string, o2: Operator, c: string)
    ensures Step(resolve, SecondOperatorState(a, o1, b, o2), Num(c)) == Ok(TwoOperatorState(a, o1, b, o2, c))
  {
    var A, B, C := Operand(a), Operand(b), Operand(c);
    assert [A, B, Operation(o1)] + [C] == [A, B, Operation(o1), C];
    assert [A, B] + [C] == [A, B, C];
  }

  /** The second operator and the last operand. */
  lemma RunSecondOperation(resolve: Resolver, a: string, o1: Operator, b: string, o2: Operator, c: string)
    ensures Run(resolve, State([Operand(a), Operand(b)], [Pending(o1)]), [Op(o2), Num(c)])
         == Ok(TwoOperatorState(a, o1, b, o2, c))
  {
    var st3 := State([Operand(a), Operand(b)], [Pending(o1)]);
    var st4 := SecondOperatorState(a, o1, b, o2);
    var ts := [Op(o2), Num(c)];
    StepSecondOperator(resolve, a, o1, b, o2);
    RunHead(resolve, st3, ts, st4);
    StepLastOperand(resolve, a, o1, b, o2, c);
    RunHead(resolve, st4, ts[1..], TwoOperatorState(a, o1, b, o2, c));
    assert ts[1..][1..] == [];
  }

  /** The final loop after `a o1 b o2 c`. */
  lemma DrainTwoOperators(a: string, o1: Operator, b: string, o2: Operator, c: string)
    ensures Drain(TwoOperatorState(a, o1, b, o2, c))
         == Ok(PostfixOf(Associate(Literal(a), o1, Literal(b), o2, Literal(c))))
  {
    if Yields(Pending(o1), o2) {
      DrainLeftGrouped(a, o1, b, o2, c);
    } else {
      DrainRightGrouped(a, o1, b, o2, c);
    }
  }

  lemma DrainLeftGrouped(a: string, o1: Operator, b: string, o2: Operator, c: string)
    ensures var A, B, C := Operand(a), Operand(b), Operand(c);
      Drain(State([A, B, Operation(o1), C], [Pending(o2)]))
      == Ok(PostfixOf(Binary(o2, Binary(o1, Literal(a), Literal(b)), Literal(c))))
  {
    var A, B, C := Operand(a), Operand(b), Operand(c);
    assert Unwind([Pending(o2)]) == [Operation(o2)];
    assert PostfixOf(Binary(o1, Literal(a), Literal(b))) == [A, B, Operation(o1)];
    assert [A, B, Operation(o1), C] + [Operation(o2)] == [A, B, Operation(o1)] + [C] + [Operation(o2)];
  }

  lemma DrainRightGrouped(a: string, o1: Operator, b: string, o2: Operator, c: string)
    ensures var A, B, C := Operand(a), Operand(b), Operand(c);
      Drain(State([A, B, C], [Pending(o1), Pending(o2)]))
      == Ok(PostfixOf(Binary(o1, Literal(a), Binary(o2, Literal(b), Literal(c)))))
  {
    var A, B, C := Operand(a), Operand(b), Operand(c);
    var ops := [Pending(o1), Pending(o2)];
    assert ops[..1] == [Pending(o1)] && Unwind(ops[..1]) == [Operation(o1)];
    assert Unwind(ops) == [Operation(o2), Operation(o1)];
    assert PostfixOf(Binary(o2, Literal(b), Literal(c))) == [B, C, Operation(o2)];
    assert [A, B, C] + [Operation(o2), Operation(o1)] == [A] + [B, C, Operation(o2)] + [Operation(o1)];
  }

  /** Two operators without parentheses are grouped by precedence and
      associativity. */
  lemma ConvertTwoOperators(resolve: Resolver, a: string, o1: Operator, b: string, o2: Operator, c: string)
    ensures Convert(resolve, [Num(a), Op(o1), Num(b), Op(o2), Num(c)])
         == Ok(PostfixOf(Associate(Literal(a), o1, Literal(b), o2, Literal(c))))
  {
    RunFirstOperation(resolve, a, o1, b, [Op(o2), Num(c)]);
    assert [Num(a), Op(o1), Num(b)] + [Op(o2), Num(c)] == [Num(a), Op(o1), Num(b), Op(o2), Num(c)];
    RunSecondOperation(resolve, a, o1, b, o2, c);
    DrainTwoOperators(a, o1, b, o2, c);
  }

  /** ... and evaluate to the value of the tree that grouping denotes. */
  lemma EvaluateTwoOperators(resolve: Resolver, power: Power, a: string, o1: Operator, b: string, o2: Operator, c: string)
    ensures (var items :- Convert(resolve, [Num(a), Op(o1), Num(b), Op(o2), Num(c)]); EvalPostfix(power, items))
         == Value(power, Associate(Literal(a), o1, Literal(b), o2, Literal(c)))
  {
    var e := Associate(Literal(a), o1, Literal(b), o2, Literal(c));
    ConvertTwoOperators(resolve, a, o1, b, o2, c);
    EvalPostfixOf(power, [], e, []);
    assert PostfixOf(e) + [] == PostfixOf(e);
  }

  /** The token `t` stands for the operand text `a`: a number, or a
      reference the resolver reads as `a`. */
  predicate StandsFor(resolve: Resolver, t: Token, a: string) {
    t == Num(a) || (t.Ref? && resolve(t.name) == Ok(a))
  }

  lemma StepStandsFor(resolve: Resolver, st: State, t: Token, a: string)
    requires StandsFor(resolve, t, a)
    ensures Step(resolve, st, t) == Ok(State(st.output + [Operand(a)], st.ops))
  {
  }

  /** A single operation between two operands converts to the operands
      followed by the operator. */
  lemma ConvertOneOperator(resolve: Resolver, x: Token, op: Operator, y: Token, a: string, b: string)
    requires StandsFor(resolve, x, a) && StandsFor(resolve, y, b)
    ensures Convert(resolve, [x, Op(op), y]) == Ok(PostfixOf(Binary(op, Literal(a), Literal(b))))
  {
    RunOneOperator(resolve, x, op, y, a, b);
    assert Unwind([Pending(op)]) == [Operation(op)];
    assert [Operand(a), Operand(b)] + [Operation(op)] == PostfixOf(Binary(op, Literal(a), Literal(b)));
  }

  /** The main loop over `x op y` holds both operands and the operator. */
  lemma RunOneOperator(resolve: Resolver, x: Token, op: Operator, y: Token, a: string, b: string)
    requires StandsFor(resolve, x, a) && StandsFor(resolve, y, b)
    ensures Run(resolve, State([], []), [x, Op(op), y]) == Ok(State([Operand(a), Operand(b)], [Pending(op)]))
  {
    var A, B := Operand(a), Operand(b);
    var ts := [x, Op(op), y];
    StepStandsFor(resolve, State([], []), x, a);
    assert [] + [A] == [A];
    RunHead(resolve, State([], []), ts, State([A], []));
    PopNothing([A], [], op);
    assert [] + [Pending(op)] == [Pending(op)];
    RunHead(resolve, State([A], []), ts[1..], State([A], [Pending(op)]));
    StepStandsFor(resolve, State([A], [Pending(op)]), y, b);
    assert [A] + [B] == [A, B];
    RunHead(resolve, State([A], [Pending(op)]), ts[1..][1..], State([A, B], [Pending(op)]));
    assert ts[1..][1..][1..] == [];
  }

  /** ... and evaluates to the operation applied to the two operands. */
  lemma EvaluateOneOperator(resolve: Resolver, power: Power, x: Token, op: Operator, y: Token, a: string, b: string)
    requires StandsFor(resolve, x, a) && StandsFor(resolve, y, b)
    ensures (var items :- Convert(resolve, [x, Op(op), y]); EvalPostfix(power, items))
         == Value(power, Binary(op, Literal(a), Literal(b)))
  {
    var e := Binary(op, Literal(a), Literal(b));
    ConvertOneOperator(resolve, x, op, y, a, b);
    EvalPostfixOf(power, [], e, []);
    assert PostfixOf(e) + [] == PostfixOf(e);
  }
}
