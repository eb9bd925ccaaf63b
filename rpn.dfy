/** toRPN as a function: Dijkstra's shunting-yard algorithm over the tokens
    of a formula.  References are resolved to their cell's value as they are
    met; `:` and `,` are not allowed in an expression. */
module ShuntingYard {
  import opened Faults
  import opened Lexer
  import opened Sheets

  /** An entry of the operator stack: an open parenthesis or an operator. */
  datatype StackItem = OpenParen | Pending(op: Operator)

  /** An entry of the output list: an operand's text or an operator. */
  datatype RpnItem = Operand(text: string) | Operation(op: Operator)

  function Precedence(op: Operator): (p: nat)
    ensures 1 <= p <= 3
    ensures p == 3 <==> op == Caret
    ensures p == 1 <==> op == Plus || op == Minus
  {
    match op
    case Caret => 3
    case Times => 2
    case Slash => 2
    case Plus => 1
    case Minus => 1
  }

  /** `^` is the only right-associative operator. */
  predicate IsLeftAssoc(op: Operator) { op != Caret }

  /** The stack top is moved to the output before `incoming` is pushed: it is
      an operator that binds tighter, or as tight and `incoming` is
      left-associative. */
  predicate Yields(top: StackItem, incoming: Operator) {
    && top.Pending?
    && (|| Precedence(top.op) > Precedence(incoming)
        || (Precedence(top.op) == Precedence(incoming) && IsLeftAssoc(incoming)))
  }

  /** The output so far and the operator stack, its top last. */
  datatype State = State(output: seq<RpnItem>, ops: seq<StackItem>)

  /** The operators of a stack segment in the order they are popped (top
      first); parentheses contribute nothing. */
  function Unwind(items: seq<StackItem>): (r: seq<RpnItem>)
    ensures |r| <= |items|
  {
    if items == [] then []
    else
      var last := items[|items| - 1];
      (if last.Pending? then [Operation(last.op)] else []) + Unwind(items[..|items| - 1])
  }

  /** How many operators on top of the stack yield to `incoming`. */
  function YieldCount(ops: seq<StackItem>, incoming: Operator): (k: nat)
    ensures k <= |ops|
  {
    if ops == [] || !Yields(ops[|ops| - 1], incoming) then 0
    else 1 + YieldCount(ops[..|ops| - 1], incoming)
  }

  /** The popped operators are exactly the yielding run on top of the
      stack: every one of them yields, and the item below them does not. */
  lemma {:induction false} YieldingRun(ops: seq<StackItem>, incoming: Operator)
    ensures var k := YieldCount(ops, incoming);
      && (forall i :: |ops| - k <= i < |ops| ==> Yields(ops[i], incoming))
      && (k < |ops| ==> !Yields(ops[|ops| - k - 1], incoming))
  {
    if ops != [] && Yields(ops[|ops| - 1], incoming) {
      var rest := ops[..|ops| - 1];
      YieldingRun(rest, incoming);
      forall i | |ops| - YieldCount(ops, incoming) <= i < |ops|
        ensures Yields(ops[i], incoming)
      {
        if i < |ops| - 1 { assert ops[i] == rest[i]; }
      }
      var k := YieldCount(ops, incoming);
      if k < |ops| { assert ops[|ops| - k - 1] == rest[|rest| - (k - 1) - 1]; }
    }
  }

  /** The inner loop for an operator token: pop while the top yields. */
  function PopOperators(st: State, incoming: Operator): State {
    var m := |st.ops| - YieldCount(st.ops, incoming);
    State(st.output + Unwind(st.ops[m..]), st.ops[..m])
  }

  /** Where the innermost open parenthesis sits on the stack, if anywhere. */
  function LastOpen(ops: seq<StackItem>): (r: Option<nat>)
    ensures r.None? <==> OpenParen !in ops
    ensures r.Some? ==> r.value < |ops| && ops[r.value] == OpenParen
    ensures r.Some? ==> forall i :: r.value < i < |ops| ==> ops[i].Pending?
  {
    if ops == [] then None
    else if ops[|ops| - 1] == OpenParen then Some(|ops| - 1)
    else
      assert ops == ops[..|ops| - 1] + [ops[|ops| - 1]];
      LastOpen(ops[..|ops| - 1])
  }

  /** A closing parenthesis: pop down to the matching open one and drop it;
      with none on the stack the parentheses do not match. */
  function PopToOpen(st: State): Result<State> {
    match LastOpen(st.ops)
    case None => Err(Illegal(MismatchedParens))
    case Some(j) => Ok(State(st.output + Unwind(st.ops[j + 1..]), st.ops[..j]))
  }

  /** How a cell reference becomes an operand's text (resolveRef). */
  type Resolver = string -> Result<string>

  /** One iteration of the main loop. */
  function Step(resolve: Resolver, st: State, t: Token): (r: Result<State>)
    ensures t.Colon? || t.Comma? ==> r == Err(Illegal(UnexpectedToken))
    ensures t.Num? || t.Op? || t == Paren(true) ==> r.Ok?
  {
    match t
    case Ref(name) =>
      var v :- resolve(name);
      Ok(State(st.output + [Operand(v)], st.ops))
    case Num(digits) => Ok(State(st.output + [Operand(digits)], st.ops))
    case Op(op) =>
      var p := PopOperators(st, op);
      Ok(State(p.output, p.ops + [Pending(op)]))
    case Paren(open) =>
      if open then Ok(State(st.output, st.ops + [OpenParen])) else PopToOpen(st)
    case Colon => Err(Illegal(UnexpectedToken))
    case Comma => Err(Illegal(UnexpectedToken))
  }

  /** The main loop over the tokens; the first failing token ends it. */
  function Run(resolve: Resolver, st: State, ts: seq<Token>): Result<State>
    decreases |ts|
  {
    if ts == [] then Ok(st)
    else
      var next :- Step(resolve, st, ts[0]);
      Run(resolve, next, ts[1..])
  }

  /** The final loop: pop every remaining operator; a parenthesis left on
      the stack was never closed. */
  function Drain(st: State): Result<seq<RpnItem>> {
    if OpenParen in st.ops then Err(Illegal(MismatchedParens))
    else Ok(st.output + Unwind(st.ops))
  }

  /** The whole conversion, given how references resolve. */
  function Convert(resolve: Resolver, ts: seq<Token>): Result<seq<RpnItem>> {
    var st :- Run(resolve, State([], []), ts);
    Drain(st)
  }

  /** resolveRef against a given grid. */
  function SheetResolver(s: Sheet): Resolver {
    ref => ResolveRef(s, ref)
  }

  /** toRPN on the tokens of a formula, references read from the sheet. */
  function ToPostfix(s: Sheet, ts: seq<Token>): Result<seq<RpnItem>> {
    Convert(SheetResolver(s), ts)
  }

  // ----- The loops of toRPN, one pop at a time -----

  /** The top operator of a segment is popped first. */
  lemma UnwindTop(items: seq<StackItem>)
    requires items != [] && items[|items| - 1].Pending?
    ensures Unwind(items) == [Operation(items[|items| - 1].op)] + Unwind(items[..|items| - 1])
  {
  }

  /** Unwinding the part of a stack above position m starts with its top. */
  lemma UnwindAbove(output: seq<RpnItem>, ops: seq<StackItem>, m: nat)
    requires m < |ops| && ops[|ops| - 1].Pending?
    ensures var n := |ops|;
      output + Unwind(ops[m..]) == output + [Operation(ops[n - 1].op)] + Unwind(ops[..n - 1][m..])
  {
    var seg := ops[m..];
    assert seg[..|seg| - 1] == ops[..|ops| - 1][m..];
    UnwindTop(seg);
  }

  /** Popping one yielding operator to the output leaves the rest of the
      inner loop's work unchanged. */
  lemma PopYielding(st: State, incoming: Operator)
    requires st.ops != [] && Yields(st.ops[|st.ops| - 1], incoming)
    ensures var n := |st.ops|;
      PopOperators(st, incoming)
      == PopOperators(State(st.output + [Operation(st.ops[n - 1].op)], st.ops[..n - 1]), incoming)
  {
    var ops := st.ops;
    var n := |ops|;
    var rest := ops[..n - 1];
    var k := YieldCount(ops, incoming);
    assert k == 1 + YieldCount(rest, incoming);
    var m := n - k;
    UnwindAbove(st.output, ops, m);
    assert ops[..m] == rest[..m];
  }

  /** The inner loop stops at an empty stack or a top that does not yield. */
  lemma PopStops(st: State, incoming: Operator)
    requires st.ops == [] || !Yields(st.ops[|st.ops| - 1], incoming)
    ensures PopOperators(st, incoming) == st
  {
    var n := |st.ops|;
    assert st.ops[n..] == [] && st.ops[..n] == st.ops;
    assert st.output + [] == st.output;
  }

  /** Moving an operator above the innermost `(` to the output leaves the
      closing parenthesis' work unchanged. */
  lemma CloseOne(st: State)
    requires st.ops != [] && st.ops[|st.ops| - 1].Pending?
    ensures var n := |st.ops|;
      PopToOpen(st) == PopToOpen(State(st.output + [Operation(st.ops[n - 1].op)], st.ops[..n - 1]))
  {
    var ops := st.ops;
    var n := |ops|;
    var rest := ops[..n - 1];
    assert LastOpen(ops) == LastOpen(rest);
    if LastOpen(ops).Some? {
      var j := LastOpen(ops).value;
      assert j < n - 1;
      UnwindAbove(st.output, ops, j + 1);
      assert ops[..j] == rest[..j];
    }
  }

  /** A `(` on top of the stack is the one a closing parenthesis removes. */
  lemma CloseAtOpen(st: State)
    requires st.ops != [] && st.ops[|st.ops| - 1] == OpenParen
    ensures PopToOpen(st) == Ok(State(st.output, st.ops[..|st.ops| - 1]))
  {
    var n := |st.ops|;
    assert st.ops[n..] == [];
    assert st.output + [] == st.output;
  }

  /** The final loop moves the top operator to the output... */
  lemma DrainOne(st: State)
    requires st.ops != [] && st.ops[|st.ops| - 1].Pending?
    ensures var n := |st.ops|;
      Drain(st) == Drain(State(st.output + [Operation(st.ops[n - 1].op)], st.ops[..n - 1]))
  {
    var ops := st.ops;
    var n := |ops|;
    assert ops == ops[..n - 1] + [ops[n - 1]];
    assert OpenParen in ops <==> OpenParen in ops[..n - 1];
    assert st.output + Unwind(ops) == st.output + [Operation(ops[n - 1].op)] + Unwind(ops[..n - 1]);
  }

  /** ... and fails at a `(` that was never closed. */
  lemma DrainOpen(st: State)
    requires st.ops != [] && st.ops[|st.ops| - 1] == OpenParen
    ensures Drain(st) == Err(Illegal(MismatchedParens))
  {
    assert st.ops[|st.ops| - 1] in st.ops;
  }

  /** The main loop at position `i`: one step, then the rest. */
  lemma RunAt(resolve: Resolver, st: State, ts: seq<Token>, i: nat)
    requires i < |ts|
    ensures Run(resolve, st, ts[i..]) == (var next :- Step(resolve, st, ts[i]); Run(resolve, next, ts[i + 1..]))
  {
    assert ts[i..][0] == ts[i] && ts[i..][1..] == ts[i + 1..];
  }
}
