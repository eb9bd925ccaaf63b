/** Range-function calls over a range of two corners, and two-cell
    column ranges: the facts about their text that the dispatcher and the
    range reader rely on. */
module RangeCalls {
  import opened Faults
  import opened JavaText
  import opened Numbers
  import opened Addresses
  import opened Sheets
  import opened Aggregates

  /** A call `name(arg)` has no lower-case letter when neither part has. */
  lemma CallNoLower(name: string, arg: string)
    requires forall i :: 0 <= i < |name| ==> !('a' <= name[i] <= 'z')
    requires forall i :: 0 <= i < |arg| ==> !('a' <= arg[i] <= 'z')
    ensures var f := name + "(" + arg + ")";
      forall i :: 0 <= i < |f| ==> !('a' <= f[i] <= 'z')
  {
    var f := name + "(" + arg + ")";
    forall i | 0 <= i < |f|
      ensures !('a' <= f[i] <= 'z')
    {
      if i < |name| {
        assert f[i] == name[i];
      } else if i == |name| || i == |f| - 1 {
      } else {
        var head := name + "(";
        assert f[i] == (head + arg)[i];
        assert (head + arg)[i] == arg[i - |head|];
      }
    }
  }

  /** A call over the range `a:b` reads the same upper-cased and trimmed. */
  lemma CallChars(g: RangeFunction, a: string, b: string)
    requires IsRefShape(a) && IsRefShape(b)
    ensures var f := Name(g) + "(" + (a + ":" + b) + ")";
      ToUpper(f) == f && Trim(f) == f
  {
    var arg := a + ":" + b;
    var f := Name(g) + "(" + arg + ")";
    JoinedChars(a, b);
    assert forall i :: 0 <= i < |Name(g)| ==> 'A' <= Name(g)[i] <= 'Z';
    CallNoLower(Name(g), arg);
    ToUpperOfUpper(f);
    assert f[0] == Name(g)[0];
  }

  /** The argument text of the call `NAME(a:b)` is `a:b`. */
  lemma CallArgument(g: RangeFunction, a: string, b: string)
    requires IsRefShape(a) && IsRefShape(b)
    ensures var f := Name(g) + "(" + (a + ":" + b) + ")";
      |Name(g)| < |f| && f[|Name(g)|] == '(' && InsideOf(f, Name(g)) == Ok(a + ":" + b)
  {
    var arg := a + ":" + b;
    JoinedTrim(a, b);
    assert Trim(arg) == arg;
    InsideOfCall(Name(g), arg);
  }

  /** A range between two parsed corners, the first above and left of the
      second, spans exactly those corners. */
  lemma OrderedCorners(a: string, b: string, rows: nat, cols: nat, p: (nat, nat), q: (nat, nat))
    requires IsRefShape(a) && IsRefShape(b)
    requires ParseAddress(a, rows, cols) == Ok(p) && ParseAddress(b, rows, cols) == Ok(q)
    requires p.0 <= q.0 && p.1 <= q.1
    ensures ParseRange(a + ":" + b, rows, cols) == Ok((p.0, p.1, q.0, q.1))
  {
    ParseRangeCorners(a, b, rows, cols);
  }

  /** The range from a cell down to another cell of its column. */
  lemma ColumnRange(r1: nat, r2: nat, c: nat, rows: nat, cols: nat)
    requires r1 <= r2 < rows <= MaxInt && c < cols && c < 26
    ensures ParseRange(Render(r1, c) + ":" + Render(r2, c), rows, cols) == Ok((r1, c, r2, c))
  {
    ParseRender(r1, c, rows, cols);
    ParseRender(r2, c, rows, cols);
    OrderedCorners(Render(r1, c), Render(r2, c), rows, cols, (r1, c), (r2, c));
  }

  /** The texts of a one-column, two-row block, when neither is blank. */
  lemma PairTexts(s: Sheet, r: nat, c: nat)
    requires r + 1 < s.rows && c < s.cols
    requires Trim(s.values[r][c]) != [] && Trim(s.values[r + 1][c]) != []
    ensures RangeTexts(s, r, c, r + 1, c) == [Trim(s.values[r][c]), Trim(s.values[r + 1][c])]
  {
    var upper := RowTexts(s.values[r], c, c + 1);
    var lower := RowTexts(s.values[r + 1], c, c + 1);
    assert RowTexts(s.values[r], c, c) == [] && RowTexts(s.values[r + 1], c, c) == [];
    assert upper == [] + [Trim(s.values[r][c])];
    assert lower == [] + [Trim(s.values[r + 1][c])];
    assert BoxTexts(s, r, c, r + 1, c + 1) == [] + upper;
    assert RangeTexts(s, r, c, r + 1, c) == BoxTexts(s, r, c, r + 1, c + 1) + lower;
  }

  /** Collecting two texts that parse to `x` and `y` yields `[x, y]`. */
  lemma CollectsPair(v: Result<seq<int>>, tx: string, ty: string, x: int, y: int)
    requires ParseLongStrict(tx) == Ok(x) && ParseLongStrict(ty) == Ok(y)
    requires Collects(v, [tx, ty])
    ensures v == Ok([x, y])
  {
    assert AllParse([tx, ty]);
    assert |v.value| == 2;
    assert v.value[0] == x && v.value[1] == y;
    assert v.value == [x, y];
  }

  /** The numbers of a range spanning two non-blank cells one above the
      other are collected from their two texts. */
  lemma ColumnTexts(s: Sheet, r: nat, c: nat, range: string)
    requires r + 1 < s.rows && c < s.cols
    requires ParseRange(range, s.rows, s.cols) == Ok((r, c, r + 1, c))
    requires Trim(s.values[r][c]) != [] && Trim(s.values[r + 1][c]) != []
    ensures Collects(ValuesOf(s, range), [Trim(s.values[r][c]), Trim(s.values[r + 1][c])])
  {
    ValuesOfBlock(s, range, r, c, r + 1, c);
    PairTexts(s, r, c);
  }

  /** A range spanning two cells one above the other, holding the canonical
      texts of `x` and `y`, has the numbers `[x, y]`. */
  lemma ColumnPair(s: Sheet, r: nat, c: nat, range: string, x: int, y: int)
    requires r + 1 < s.rows && c < s.cols
    requires ParseRange(range, s.rows, s.cols) == Ok((r, c, r + 1, c))
    requires InLong(x) && InLong(y)
    requires s.values[r][c] == Decimal(x) && s.values[r + 1][c] == Decimal(y)
    ensures ValuesOf(s, range) == Ok([x, y])
  {
    DecimalUntrimmed(x);
    DecimalUntrimmed(y);
    DecimalRoundTrip(x);
    DecimalRoundTrip(y);
    ColumnTexts(s, r, c, range);
    CollectsPair(ValuesOf(s, range), Decimal(x), Decimal(y), x, y);
  }
}
