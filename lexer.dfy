// The tokeniser behind TOKEN_PATTERN: repeated Matcher.find with the six
// alternatives  [A-Z]+[0-9]+  |  :  |  [0-9]+  |  one of + - * / ^  |
// ( or )  |  ,  over the upper-cased formula with its white space removed.
// One token constructor per group of the pattern; a character that no group
// matches is skipped.
module Lexer {
  import opened Faults
  import opened JavaText
  import opened Numbers
  import opened Addresses

  datatype Operator = Plus | Minus | Times | Slash | Caret

  datatype Token =
    | Ref(name: string)     // group 1: a cell reference
    | Colon                 // group 2
    | Num(digits: string)   // group 3: an unsigned digit run
    | Op(op: Operator)      // group 4
    | Paren(open: bool)     // group 5
    | Comma                 // group 6

  function Symbol(op: Operator): char {
    match op
    case Plus => '+'
    case Minus => '-'
    case Times => '*'
    case Slash => '/'
    case Caret => '^'
  }

  function OperatorOf(c: char): (r: Option<Operator>)
    ensures r.Some? <==> c in "+-*/^"
    ensures r.Some? ==> Symbol(r.value) == c
  {
    if c == '+' then Some(Plus)
    else if c == '-' then Some(Minus)
    else if c == '*' then Some(Times)
    else if c == '/' then Some(Slash)
    else if c == '^' then Some(Caret)
    else None
  }

  /** The text a token was matched from. */
  function Lexeme(t: Token): string {
    match t
    case Ref(name) => name
    case Colon => ":"
    case Num(digits) => digits
    case Op(op) => [Symbol(op)]
    case Paren(open) => if open then "(" else ")"
    case Comma => ","
  }

  /** Every token carries a lexeme of its own group. */
  predicate WellFormed(t: Token) {
    match t
    case Ref(name) => IsRefShape(name)
    case Num(digits) => digits != [] && AllDigits(digits)
    case _ => true
  }

  /** The tokens `Matcher.find` reports, left to right.  At each position the
      first group that matches wins; the greedy `[A-Z]+[0-9]+` fails at a
      letter run with no digit after it, so the scan moves on one character. */
  function Tokenize(s: string): (ts: seq<Token>)
    ensures forall i :: 0 <= i < |ts| ==> WellFormed(ts[i])
    decreases |s|
  {
    if s == [] then []
    else if IsUpper(s[0]) then
      var k := LetterRun(s);
      if k < |s| && IsDigit(s[k]) then
        var m := k + DigitRun(s[k..]);
        RefPrefix(s, k, m);
        [Ref(s[..m])] + Tokenize(s[m..])
      else Tokenize(s[1..])
    else if IsDigit(s[0]) then
      var m := DigitRun(s);
      [Num(s[..m])] + Tokenize(s[m..])
    else if s[0] == ':' then [Colon] + Tokenize(s[1..])
    else if OperatorOf(s[0]).Some? then [Op(OperatorOf(s[0]).value)] + Tokenize(s[1..])
    else if s[0] == '(' || s[0] == ')' then [Paren(s[0] == '(')] + Tokenize(s[1..])
    else if s[0] == ',' then [Comma] + Tokenize(s[1..])
    else Tokenize(s[1..])
  }

  lemma RefPrefix(s: string, k: nat, m: nat)
    requires 0 < k < |s| && k == LetterRun(s) && IsDigit(s[k])
    requires m == k + DigitRun(s[k..])
    ensures k < m <= |s| && IsRefShape(s[..m])
  {
    assert s[k..][0] == s[k];
    var t := s[..m];
    assert LetterRun(t) == k by {
      LetterRunPrefix(s, m);
    }
    assert t[k..] == s[k..][..DigitRun(s[k..])];
    RefShapeSplit(t);
  }

  lemma LetterRunPrefix(s: string, m: nat)
    requires LetterRun(s) < m <= |s|
    ensures LetterRun(s[..m]) == LetterRun(s)
  {
    var k := LetterRun(s);
    var t := s[..m];
    LetterRunIs(t, k);
  }

  /** LetterRun is pinned down by its postconditions. */
  lemma LetterRunIs(s: string, k: nat)
    requires k <= |s|
    requires forall i :: 0 <= i < k ==> IsUpper(s[i])
    requires k < |s| ==> !IsUpper(s[k])
    ensures LetterRun(s) == k
  {
  }

  /** DigitRun is pinned down by its postconditions. */
  lemma {:induction false} DigitRunIs(s: string, k: nat)
    requires k <= |s| && AllDigits(s[..k])
    requires k < |s| ==> !IsDigit(s[k])
    ensures DigitRun(s) == k
  {
    var j := DigitRun(s);
    if j < k {
      assert false;
    } else if k < j {
      assert false;
    }
  }

  /** The text the tokens were matched from, skipped characters aside. */
  function Spell(ts: seq<Token>): string {
    if ts == [] then [] else Lexeme(ts[0]) + Spell(ts[1..])
  }

  /** A number, an operator and a reference written together: the text
      starts with a digit and ends with one. */
  lemma NumberOpReferenceEnds(a: string, op: Operator, name: string)
    requires a != [] && AllDigits(a) && IsRefShape(name)
    ensures var f := a + [Symbol(op)] + name;
      && f == a + [Symbol(op)] + Lexeme(Ref(name))
      && f != [] && IsDigit(f[0]) && IsDigit(f[|f| - 1])
  {
    var f := a + [Symbol(op)] + name;
    RefShapeChars(name);
    assert f[|f| - 1] == name[|name| - 1];
    assert f[0] == a[0];
  }

  /** Three digit runs with an operator between each two: their spelling,
      and nothing in them fuses. */
  lemma TwoOperationTokens(a: string, o1: Operator, b: string, o2: Operator, c: string)
    requires a != [] && AllDigits(a) && b != [] && AllDigits(b) && c != [] && AllDigits(c)
    ensures var ts := [Num(a), Op(o1), Num(b), Op(o2), Num(c)];
      && (forall i :: 0 <= i < |ts| ==> WellFormed(ts[i]))
      && Separable(ts)
      && Spell(ts) == a + [Symbol(o1)] + b + [Symbol(o2)] + c
  {
    TwoOperationSpell(a, o1, b, o2, c);
  }

  lemma TwoOperationSpell(a: string, o1: Operator, b: string, o2: Operator, c: string)
    ensures Spell([Num(a), Op(o1), Num(b), Op(o2), Num(c)]) == a + [Symbol(o1)] + b + [Symbol(o2)] + c
  {
    var ts := [Num(a), Op(o1), Num(b), Op(o2), Num(c)];
    assert Spell(ts[4..]) == c + [];
    assert Spell(ts[3..]) == [Symbol(o2)] + (c + []);
    assert Spell(ts[2..]) == b + ([Symbol(o2)] + (c + []));
    assert Spell(ts[1..]) == [Symbol(o1)] + (b + ([Symbol(o2)] + (c + [])));
  }

  /** Two tokens are spelled one after the other. */
  lemma SpellPair(x: Token, y: Token)
    ensures Spell([x, y]) == Lexeme(x) + Lexeme(y)
  {
    assert Spell([x, y][1..]) == Lexeme(y) + [];
  }

  /** Three tokens with an operator in the middle: their spelling, and
      nothing in them fuses. */
  lemma OperationTokens(x: Token, op: Operator, y: Token)
    requires WellFormed(x) && WellFormed(y)
    ensures var ts := [x, Op(op), y];
      && (forall i :: 0 <= i < |ts| ==> WellFormed(ts[i]))
      && Separable(ts)
      && Spell(ts) == Lexeme(x) + [Symbol(op)] + Lexeme(y)
  {
    var ts := [x, Op(op), y];
    assert Spell(ts[2..]) == Lexeme(y) + [];
    assert Spell(ts[1..]) == [Symbol(op)] + (Lexeme(y) + []);
  }

  /** No reference or number is followed by a number: written next to each
      other such lexemes would fuse into one token. */
  predicate Separable(ts: seq<Token>) {
    forall i :: 0 <= i < |ts| - 1 && (ts[i].Ref? || ts[i].Num?) ==> !ts[i + 1].Num?
  }

  lemma {:induction false} SpellStart(ts: seq<Token>)
    requires forall i :: 0 <= i < |ts| ==> WellFormed(ts[i])
    ensures ts == [] <==> Spell(ts) == []
    ensures ts != [] ==> Lexeme(ts[0]) != [] && Spell(ts)[0] == Lexeme(ts[0])[0]
  {
    if ts != [] && ts[0].Ref? {
      RefShapeChars(ts[0].name);
    }
  }

  /** The first token of a spelling is scanned back, up to the rest. */
  lemma TokenizeHead(t: Token, rest: string)
    requires WellFormed(t)
    requires (t.Ref? || t.Num?) && rest != [] ==> !IsDigit(rest[0])
    ensures Tokenize(Lexeme(t) + rest) == [t] + Tokenize(rest)
  {
    match t
    case Ref(name) => TokenizeRef(name, rest);
    case Num(digits) => TokenizeNum(digits, rest);
    case Op(op) => TokenizeOp(op, rest);
    case _ => TokenizeSingle(t, rest);
  }

  lemma TokenizeNum(digits: string, rest: string)
    requires digits != [] && AllDigits(digits)
    requires rest != [] ==> !IsDigit(rest[0])
    ensures Tokenize(digits + rest) == [Num(digits)] + Tokenize(rest)
  {
    var s := digits + rest;
    assert s[..|digits|] == digits;
    DigitRunIs(s, |digits|);
    assert s[|digits|..] == rest;
  }

  lemma TokenizeOp(op: Operator, rest: string)
    ensures Tokenize([Symbol(op)] + rest) == [Op(op)] + Tokenize(rest)
  {
    var s := [Symbol(op)] + rest;
    assert s[1..] == rest;
    assert OperatorOf(s[0]) == Some(op);
  }

  lemma TokenizeSingle(t: Token, rest: string)
    requires t.Colon? || t.Paren? || t.Comma?
    ensures Tokenize(Lexeme(t) + rest) == [t] + Tokenize(rest)
  {
    var s := Lexeme(t) + rest;
    assert s[1..] == rest;
  }

  lemma TokenizeRef(name: string, rest: string)
    requires IsRefShape(name)
    requires rest != [] ==> !IsDigit(rest[0])
    ensures Tokenize(name + rest) == [Ref(name)] + Tokenize(rest)
  {
    var s := name + rest;
    RefShapeSplit(name);
    var k := LetterRun(name);
    assert s[..|name|] == name;
    LetterRunIs(s, k);
    assert s[k] == name[k..][0];
    assert s[k..][..|name| - k] == name[k..];
    DigitRunIs(s[k..], |name| - k);
    assert s[|name|..] == rest;
  }

  /** Tokenising the spelling of well-formed, separable tokens gives them
      back. */
  lemma {:induction false} TokenizeSpell(ts: seq<Token>)
    requires forall i :: 0 <= i < |ts| ==> WellFormed(ts[i])
    requires Separable(ts)
    ensures Tokenize(Spell(ts)) == ts
  {
    if ts != [] {
      var t, rest := ts[0], Spell(ts[1..]);
      var s := Spell(ts);
      assert s == Lexeme(t) + rest;
      assert Separable(ts[1..]) by {
        forall i | 0 <= i < |ts[1..]| - 1 && (ts[1..][i].Ref? || ts[1..][i].Num?)
          ensures !ts[1..][i + 1].Num?
        {
          assert ts[1..][i] == ts[i + 1];
        }
      }
      TokenizeSpell(ts[1..]);
      SpellStart(ts[1..]);
      assert (t.Ref? || t.Num?) && rest != [] ==> !IsDigit(rest[0]) by {
        if (t.Ref? || t.Num?) && rest != [] {
          assert !ts[1].Num?;
          if ts[1].Ref? {
            RefShapeChars(ts[1].name);
          }
        }
      }
      TokenizeHead(t, rest);
    }
  }
}
