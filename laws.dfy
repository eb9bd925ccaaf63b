/** What the shunting-yard conversion keeps and what makes it fail:
    parentheses must balance, `:` and `,` are rejected, operands keep their
    order and every operator reaches the output exactly once. */
module ConversionLaws {
  import opened Faults
  import opened Lexer
  import opened ShuntingYard

  // ----- Parentheses -----

  /** Only numbers, operators and parentheses: no reference to resolve and
      nothing the conversion rejects outright. */
  predicate Arithmetic(ts: seq<Token>) {
    forall i :: 0 <= i < |ts| ==> ts[i].Num? || ts[i].Op? || ts[i].Paren?
  }

  function Depth(t: Token): int {
    if t == Paren(true) then 1 else if t == Paren(false) then -1 else 0
  }

  /** The change of nesting depth over the tokens. */
  function Net(ts: seq<Token>): int {
    if ts == [] then 0 else Depth(ts[0]) + Net(ts[1..])
  }

  /** Starting at depth `d`, no prefix of the tokens closes more
      parentheses than are open. */
  predicate NeverBelow(d: int, ts: seq<Token>)
    decreases |ts|
  {
    ts == [] || (d + Depth(ts[0]) >= 0 && NeverBelow(d + Depth(ts[0]), ts[1..]))
  }

  predicate Balanced(ts: seq<Token>) {
    NeverBelow(0, ts) && Net(ts) == 0
  }

  function OpenCount(ops: seq<StackItem>): nat {
    multiset(ops)[OpenParen]
  }

  lemma PopOperatorsKeepsParens(st: State, op: Operator)
    ensures OpenCount(PopOperators(st, op).ops) == OpenCount(st.ops)
  {
    var m := |st.ops| - YieldCount(st.ops, op);
    YieldingRun(st.ops, op);
    PendingAbove(st.ops, m);
  }

  /** Dropping operators from the top of a stack keeps its `(`s. */
  lemma PendingAbove(ops: seq<StackItem>, m: nat)
    requires m <= |ops| && forall i :: m <= i < |ops| ==> ops[i].Pending?
    ensures OpenCount(ops[..m]) == OpenCount(ops)
  {
    var above := ops[m..];
    assert OpenParen !in above by {
      forall i | 0 <= i < |above| ensures above[i].Pending? {
        assert above[i] == ops[m + i];
      }
    }
    assert ops == ops[..m] + above;
    assert multiset(ops) == multiset(ops[..m]) + multiset(above);
  }

  lemma PopToOpenParens(st: State)
    ensures PopToOpen(st).Ok? <==> OpenCount(st.ops) > 0
    ensures PopToOpen(st).Ok? ==> OpenCount(PopToOpen(st).value.ops) == OpenCount(st.ops) - 1
  {
    match LastOpen(st.ops)
    case None =>
    case Some(j) =>
      assert st.ops == st.ops[..j] + [OpenParen] + st.ops[j + 1..];
      assert OpenParen !in st.ops[j + 1..];
  }

  /** One token moves the count of open parentheses on the stack by its
      depth, and fails only by closing one that is not open. */
  lemma StepParens(resolve: Resolver, st: State, t: Token)
    requires t.Num? || t.Op? || t.Paren?
    ensures Step(resolve, st, t).Ok? <==> OpenCount(st.ops) + Depth(t) >= 0
    ensures Step(resolve, st, t).Ok? ==> OpenCount(Step(resolve, st, t).value.ops) == OpenCount(st.ops) + Depth(t)
  {
    match t
    case Num(_) =>
    case Op(op) =>
      var p := PopOperators(st, op);
      PopOperatorsKeepsParens(st, op);
      assert multiset(p.ops + [Pending(op)]) == multiset(p.ops) + multiset{Pending(op)};
    case Paren(open) =>
      if open {
        assert multiset(st.ops + [OpenParen]) == multiset(st.ops) + multiset{OpenParen};
      } else {
        PopToOpenParens(st);
      }
  }

  lemma {:induction false} RunParens(resolve: Resolver, st: State, ts: seq<Token>)
    requires Arithmetic(ts)
    ensures Run(resolve, st, ts).Ok? <==> NeverBelow(OpenCount(st.ops), ts)
    ensures Run(resolve, st, ts).Ok? ==> OpenCount(Run(resolve, st, ts).value.ops) == OpenCount(st.ops) + Net(ts)
    decreases |ts|
  {
    if ts != [] {
      StepParens(resolve, st, ts[0]);
      var next := Step(resolve, st, ts[0]);
      if next.Ok? {
        assert Arithmetic(ts[1..]) by {
          forall i | 0 <= i < |ts[1..]|
            ensures ts[1..][i].Num? || ts[1..][i].Op? || ts[1..][i].Paren?
          {
            assert ts[1..][i] == ts[i + 1];
          }
        }
        RunParens(resolve, next.value, ts[1..]);
      }
    }
  }

  /** An arithmetic formula converts exactly when its parentheses balance:
      a `)` without an open `(`, or a `(` never closed, is a mismatch. */
  lemma ConvertBalanced(resolve: Resolver, ts: seq<Token>)
    requires Arithmetic(ts)
    ensures Convert(resolve, ts).Ok? <==> Balanced(ts)
    ensures Convert(resolve, ts).Err? ==> Convert(resolve, ts).fault == Illegal(MismatchedParens)
  {
    RunParens(resolve, State([], []), ts);
    assert OpenCount([]) == 0;
    var r := Run(resolve, State([], []), ts);
    if r.Ok? {
      assert OpenParen in r.value.ops <==> OpenCount(r.value.ops) > 0;
    } else {
      RunFailsOnParens(resolve, State([], []), ts);
    }
  }

  /** Whatever the token, a step that succeeds moves the count of open
      parentheses by the token's depth, which therefore never goes negative. */
  lemma StepParensAny(resolve: Resolver, st: State, t: Token)
    ensures Step(resolve, st, t).Ok? ==>
      && OpenCount(st.ops) + Depth(t) >= 0
      && OpenCount(Step(resolve, st, t).value.ops) == OpenCount(st.ops) + Depth(t)
  {
    if t.Num? || t.Op? || t.Paren? {
      StepParens(resolve, st, t);
    }
  }

  /** For any tokens, references included, a main loop that succeeds never
      closed a parenthesis that was not open, and ends with the open count
      moved by the tokens' net depth. */
  lemma {:induction false} RunParensAny(resolve: Resolver, st: State, ts: seq<Token>)
    ensures Run(resolve, st, ts).Ok? ==>
      && NeverBelow(OpenCount(st.ops), ts)
      && OpenCount(Run(resolve, st, ts).value.ops) == OpenCount(st.ops) + Net(ts)
    decreases |ts|
  {
    if ts != [] {
      StepParensAny(resolve, st, ts[0]);
      var next := Step(resolve, st, ts[0]);
      if next.Ok? {
        RunParensAny(resolve, next.value, ts[1..]);
      }
    }
  }

  /** A formula whose parentheses do not balance never converts, whatever
      its references read: a `)` without an open `(` fails the main loop,
      and a `(` never closed fails the final drain. */
  lemma ConvertUnbalancedFails(resolve: Resolver, ts: seq<Token>)
    requires !Balanced(ts)
    ensures Convert(resolve, ts).Err?
  {
    RunParensAny(resolve, State([], []), ts);
    assert OpenCount([]) == 0;
    var r := Run(resolve, State([], []), ts);
    if r.Ok? {
      assert OpenParen in r.value.ops <==> OpenCount(r.value.ops) > 0;
    }
  }

  /** Between arithmetic tokens the main loop can only fail on a
      parenthesis. */
  lemma {:induction false} RunFailsOnParens(resolve: Resolver, st: State, ts: seq<Token>)
    requires Arithmetic(ts)
    ensures Run(resolve, st, ts).Err? ==> Run(resolve, st, ts).fault == Illegal(MismatchedParens)
    decreases |ts|
  {
    if ts != [] {
      var next := Step(resolve, st, ts[0]);
      if next.Ok? {
        assert Arithmetic(ts[1..]) by {
          forall i | 0 <= i < |ts[1..]|
            ensures ts[1..][i].Num? || ts[1..][i].Op? || ts[1..][i].Paren?
          {
            assert ts[1..][i] == ts[i + 1];
          }
        }
        RunFailsOnParens(resolve, next.value, ts[1..]);
      }
    }
  }

  // ----- Separators -----

  /** `:` and `,` belong in ranges and argument lists: an expression with
      one fails to convert, whatever comes before it. */
  lemma {:induction false} RunRejectsSeparator(resolve: Resolver, st: State, ts: seq<Token>, k: nat)
    requires k < |ts| && (ts[k].Colon? || ts[k].Comma?)
    ensures Run(resolve, st, ts).Err?
    decreases |ts|
  {
    var next := Step(resolve, st, ts[0]);
    if next.Ok? && k > 0 {
      assert ts[1..][k - 1] == ts[k];
      RunRejectsSeparator(resolve, next.value, ts[1..], k - 1);
    }
  }

  lemma ConvertRejectsSeparator(resolve: Resolver, ts: seq<Token>, k: nat)
    requires k < |ts| && (ts[k].Colon? || ts[k].Comma?)
    ensures Convert(resolve, ts).Err?
  {
    RunRejectsSeparator(resolve, State([], []), ts, k);
  }

  // ----- Operands and operators -----

  /** The operand texts of a postfix list, in order. */
  function Operands(items: seq<RpnItem>): seq<string> {
    if items == [] then []
    else (if items[0].Operand? then [items[0].text] else []) + Operands(items[1..])
  }

  /** The operand text a token stands for, if any. */
  function TokenOperand(resolve: Resolver, t: Token): seq<string> {
    if t.Num? then [t.digits]
    else if t.Ref? && resolve(t.name).Ok? then [resolve(t.name).value]
    else []
  }

  /** The operand texts the tokens stand for, references resolved. */
  function TokenOperands(resolve: Resolver, ts: seq<Token>): seq<string> {
    if ts == [] then [] else TokenOperand(resolve, ts[0]) + TokenOperands(resolve, ts[1..])
  }

  /** The operators of a postfix list, as a bag. */
  function OpBag(items: seq<RpnItem>): multiset<Operator> {
    if items == [] then multiset{}
    else (if items[0].Operation? then multiset{items[0].op} else multiset{}) + OpBag(items[1..])
  }

  /** The operators waiting on a stack, as a bag. */
  function StackBag(ops: seq<StackItem>): multiset<Operator> {
    if ops == [] then multiset{}
    else
      var last := ops[|ops| - 1];
      (if last.Pending? then multiset{last.op} else multiset{}) + StackBag(ops[..|ops| - 1])
  }

  function TokenOp(t: Token): multiset<Operator> {
    if t.Op? then multiset{t.op} else multiset{}
  }

  /** The operator tokens, as a bag. */
  function TokenBag(ts: seq<Token>): multiset<Operator> {
    if ts == [] then multiset{} else TokenOp(ts[0]) + TokenBag(ts[1..])
  }

  lemma {:induction false} OperandsAppend(a: seq<RpnItem>, b: seq<RpnItem>)
    ensures Operands(a + b) == Operands(a) + Operands(b)
    decreases |a|
  {
    if a == [] {
      assert a + b == b;
    } else {
      assert (a + b)[0] == a[0] && (a + b)[1..] == a[1..] + b;
      OperandsAppend(a[1..], b);
    }
  }

  lemma {:induction false} OpBagAppend(a: seq<RpnItem>, b: seq<RpnItem>)
    ensures OpBag(a + b) == OpBag(a) + OpBag(b)
    decreases |a|
  {
    if a == [] {
      assert a + b == b;
    } else {
      assert (a + b)[0] == a[0] && (a + b)[1..] == a[1..] + b;
      OpBagAppend(a[1..], b);
    }
  }

  /** Popping operators outputs no operand and exactly the operators that
      were waiting. */
  lemma {:induction false} UnwindContents(ops: seq<StackItem>)
    ensures Operands(Unwind(ops)) == []
    ensures OpBag(Unwind(ops)) == StackBag(ops)
    decreases |ops|
  {
    if ops != [] {
      var last := ops[|ops| - 1];
      var head: seq<RpnItem> := if last.Pending? then [Operation(last.op)] else [];
      UnwindContents(ops[..|ops| - 1]);
      OperandsAppend(head, Unwind(ops[..|ops| - 1]));
      OpBagAppend(head, Unwind(ops[..|ops| - 1]));
    }
  }

  lemma {:induction false} StackBagAppend(a: seq<StackItem>, b: seq<StackItem>)
    ensures StackBag(a + b) == StackBag(a) + StackBag(b)
    decreases |b|
  {
    if b == [] {
      assert a + b == a;
    } else {
      assert (a + b)[..|a + b| - 1] == a + b[..|b| - 1];
      StackBagAppend(a, b[..|b| - 1]);
    }
  }

  /** The bag of operators in the output and on the stack together. */
  function Held(st: State): multiset<Operator> {
    OpBag(st.output) + StackBag(st.ops)
  }

  lemma StepOperand(st: State, text: string)
    ensures Operands(st.output + [Operand(text)]) == Operands(st.output) + [text]
    ensures OpBag(st.output + [Operand(text)]) == OpBag(st.output)
  {
    OperandsAppend(st.output, [Operand(text)]);
    OpBagAppend(st.output, [Operand(text)]);
    assert [Operand(text)][1..] == [];
  }

  /** Moving the top segment `hi` of the stack to the output and pushing
      `op` keeps the operands and adds `op` to what is held. */
  lemma MoveOperators(out: seq<RpnItem>, lo: seq<StackItem>, hi: seq<StackItem>, op: Operator)
    ensures Operands(out + Unwind(hi)) == Operands(out)
    ensures OpBag(out + Unwind(hi)) + StackBag(lo + [Pending(op)])
         == OpBag(out) + StackBag(lo + hi) + multiset{op}
  {
    UnwindContents(hi);
    OperandsAppend(out, Unwind(hi));
    OpBagAppend(out, Unwind(hi));
    StackBagAppend(lo, hi);
    StackBagAppend(lo, [Pending(op)]);
    assert StackBag([Pending(op)]) == multiset{op} by {
      assert [Pending(op)][..0] == [];
    }
  }

  lemma StepOperator(st: State, op: Operator)
    ensures var p := PopOperators(st, op);
      && Operands(p.output) == Operands(st.output)
      && OpBag(p.output) + StackBag(p.ops + [Pending(op)]) == Held(st) + multiset{op}
  {
    var m := |st.ops| - YieldCount(st.ops, op);
    var lo, hi := st.ops[..m], st.ops[m..];
    assert lo + hi == st.ops;
    MoveOperators(st.output, lo, hi, op);
  }

  lemma StepOpen(st: State)
    ensures StackBag(st.ops + [OpenParen]) == StackBag(st.ops)
  {
    StackBagAppend(st.ops, [OpenParen]);
    assert StackBag([OpenParen]) == multiset{} by {
      assert [OpenParen][..0] == [];
    }
  }

  /** Moving the segment `hi` above an open parenthesis to the output and
      dropping the parenthesis keeps the operands and what is held. */
  lemma CloseSegment(out: seq<RpnItem>, lo: seq<StackItem>, hi: seq<StackItem>)
    ensures Operands(out + Unwind(hi)) == Operands(out)
    ensures OpBag(out + Unwind(hi)) + StackBag(lo) == OpBag(out) + StackBag(lo + [OpenParen] + hi)
  {
    UnwindContents(hi);
    OperandsAppend(out, Unwind(hi));
    OpBagAppend(out, Unwind(hi));
    StackBagAppend(lo + [OpenParen], hi);
    StepOpen(State(out, lo));
  }

  lemma StepClose(st: State)
    requires PopToOpen(st).Ok?
    ensures Operands(PopToOpen(st).value.output) == Operands(st.output)
    ensures Held(PopToOpen(st).value) == Held(st)
  {
    var j := LastOpen(st.ops).value;
    var lo, hi := st.ops[..j], st.ops[j + 1..];
    assert st.ops == lo + [OpenParen] + hi;
    CloseSegment(st.output, lo, hi);
  }

  /** One token adds its operand to the output and its operator to what is
      held. */
  lemma StepContents(resolve: Resolver, st: State, t: Token)
    requires Step(resolve, st, t).Ok?
    ensures Operands(Step(resolve, st, t).value.output) == Operands(st.output) + TokenOperand(resolve, t)
    ensures Held(Step(resolve, st, t).value) == Held(st) + TokenOp(t)
  {
    match t
    case Ref(name) => StepOperand(st, resolve(name).value);
    case Num(digits) => StepOperand(st, digits);
    case Op(op) => StepOperator(st, op);
    case Paren(open) =>
      if open {
        StepOpen(st);
      } else {
        StepClose(st);
      }
  }

  lemma {:induction false} RunContents(resolve: Resolver, st: State, ts: seq<Token>)
    requires Run(resolve, st, ts).Ok?
    ensures Operands(Run(resolve, st, ts).value.output) == Operands(st.output) + TokenOperands(resolve, ts)
    ensures Held(Run(resolve, st, ts).value) == Held(st) + TokenBag(ts)
    decreases |ts|
  {
    if ts == [] {
      assert Operands(st.output) + [] == Operands(st.output);
    } else {
      var next := Step(resolve, st, ts[0]).value;
      var last := Run(resolve, next, ts[1..]).value;
      assert Run(resolve, st, ts).value == last;
      StepContents(resolve, st, ts[0]);
      RunContents(resolve, next, ts[1..]);
      Accumulate(Operands(st.output), TokenOperand(resolve, ts[0]), TokenOperands(resolve, ts[1..]),
        Operands(next.output), Operands(last.output));
      AccumulateBag(Held(st), TokenOp(ts[0]), TokenBag(ts[1..]), Held(next), Held(last));
    }
  }

  lemma Accumulate<T>(x0: seq<T>, a: seq<T>, b: seq<T>, x1: seq<T>, x2: seq<T>)
    requires x1 == x0 + a && x2 == x1 + b
    ensures x2 == x0 + (a + b)
  {
  }

  lemma AccumulateBag<T>(x0: multiset<T>, a: multiset<T>, b: multiset<T>, x1: multiset<T>, x2: multiset<T>)
    requires x1 == x0 + a && x2 == x1 + b
    ensures x2 == x0 + (a + b)
  {
  }

  /** The conversion keeps the operands in their order and outputs every
      operator of the formula exactly once. */
  lemma ConvertContents(resolve: Resolver, ts: seq<Token>)
    requires Convert(resolve, ts).Ok?
    ensures Operands(Convert(resolve, ts).value) == TokenOperands(resolve, ts)
    ensures OpBag(Convert(resolve, ts).value) == TokenBag(ts)
  {
    var st := Run(resolve, State([], []), ts).value;
    RunContents(resolve, State([], []), ts);
    UnwindContents(st.ops);
    OperandsAppend(st.output, Unwind(st.ops));
    OpBagAppend(st.output, Unwind(st.ops));
  }
}
