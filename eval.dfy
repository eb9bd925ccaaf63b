/** evalRPN as a function: a stack machine over the postfix list, with the
    64-bit arithmetic of Java's `long`. */
module PostfixEval {
  import opened Faults
  import opened Numbers
  import opened Lexer
  import opened ShuntingYard

  /** Math.pow followed by the `(long)` cast: the floating-point power is the
      host's, so it is a parameter; the cast saturates (see Clamp). */
  type Power = (int, int) -> int

  /** One operator applied to the two topmost values, `a` below `b`. */
  function Apply(power: Power, op: Operator, a: int, b: int): (r: Result<int>)
    ensures r.Ok? ==> InLong(r.value)
    ensures r.Err? <==> op == Slash && b == 0
    ensures r.Err? ==> r.fault == DivideByZero
  {
    match op
    case Plus => Ok(Wrap(a + b))
    case Minus => Ok(Wrap(a - b))
    case Times => Ok(Wrap(a * b))
    case Slash => if b == 0 then Err(DivideByZero) else Ok(Wrap(TruncDiv(a, b)))
    case Caret => Ok(Clamp(power(a, b)))
  }

  predicate AllLong(st: seq<int>) {
    forall i :: 0 <= i < |st| ==> InLong(st[i])
  }

  /** The loop over the postfix list from a given stack (top last). */
  function EvalFrom(power: Power, st: seq<int>, items: seq<RpnItem>): (r: Result<seq<int>>)
    ensures AllLong(st) && r.Ok? ==> AllLong(r.value)
    decreases |items|
  {
    if items == [] then Ok(st)
    else
      match items[0]
      case Operand(text) =>
        var v :- ParseLongStrict(text);
        EvalFrom(power, st + [v], items[1..])
      case Operation(op) =>
        if |st| < 2 then Err(Illegal(MalformedExpression))
        else
          var n := |st|;
          var v :- Apply(power, op, st[n - 2], st[n - 1]);
          EvalFrom(power, st[..n - 2] + [v], items[1..])
  }

  /** evalRPN: exactly one value must be left on the stack. */
  function EvalPostfix(power: Power, items: seq<RpnItem>): (r: Result<int>)
    ensures r.Ok? ==> InLong(r.value)
  {
    var st :- EvalFrom(power, [], items);
    if |st| != 1 then Err(Illegal(MalformedExpression)) else Ok(st[0])
  }

  /** An operand pushes its value. */
  lemma OperandPush(power: Power, st: seq<int>, text: string, v: int, rest: seq<RpnItem>)
    requires ParseLongStrict(text) == Ok(v)
    ensures EvalFrom(power, st, [Operand(text)] + rest) == EvalFrom(power, st + [v], rest)
  {
    assert ([Operand(text)] + rest)[1..] == rest;
  }

  /** An operator with fewer than two values below it is malformed. */
  lemma OperatorUnderflow(power: Power, st: seq<int>, op: Operator, rest: seq<RpnItem>)
    requires |st| < 2
    ensures EvalFrom(power, st, [Operation(op)] + rest) == Err(Illegal(MalformedExpression))
  {
    assert ([Operation(op)] + rest)[0] == Operation(op);
  }

  /** The loop at position `i`: pop `b`, then `a`, for an operator; push
      the parsed value for an operand. */
  lemma EvalAt(power: Power, st: seq<int>, items: seq<RpnItem>, i: nat)
    requires i < |items|
    ensures items[i].Operand? ==>
      EvalFrom(power, st, items[i..]) ==
        (var v :- ParseLongStrict(items[i].text); EvalFrom(power, st + [v], items[i + 1..]))
    ensures items[i].Operation? && |st| < 2 ==>
      EvalFrom(power, st, items[i..]) == Err(Illegal(MalformedExpression))
    ensures items[i].Operation? && |st| >= 2 ==>
      var n := |st|;
      EvalFrom(power, st, items[i..]) ==
        (var v :- Apply(power, items[i].op, st[n - 2], st[n - 1]); EvalFrom(power, st[..n - 2] + [v], items[i + 1..]))
  {
    assert items[i..][0] == items[i] && items[i..][1..] == items[i + 1..];
  }

  function OperandCount(items: seq<RpnItem>): nat {
    if items == [] then 0
    else (if items[0].Operand? then 1 else 0) + OperandCount(items[1..])
  }

  function OperationCount(items: seq<RpnItem>): nat {
    if items == [] then 0
    else (if items[0].Operation? then 1 else 0) + OperationCount(items[1..])
  }

  /** Every operand pushes one value and every operator replaces two by one. */
  lemma {:induction false} EvalFromDepth(power: Power, st: seq<int>, items: seq<RpnItem>)
    requires EvalFrom(power, st, items).Ok?
    ensures |EvalFrom(power, st, items).value| + OperationCount(items) == |st| + OperandCount(items)
    decreases |items|
  {
    if items != [] {
      match items[0]
      case Operand(text) =>
        EvalFromDepth(power, st + [ParseLongStrict(text).value], items[1..]);
      case Operation(op) =>
        var n := |st|;
        EvalFromDepth(power, st[..n - 2] + [Apply(power, op, st[n - 2], st[n - 1]).value], items[1..]);
    }
  }

  /** A postfix list that evaluates has one operand more than operators. */
  lemma EvalPostfixBalanced(power: Power, items: seq<RpnItem>)
    requires EvalPostfix(power, items).Ok?
    ensures OperandCount(items) == OperationCount(items) + 1
  {
    EvalFromDepth(power, [], items);
  }
}
