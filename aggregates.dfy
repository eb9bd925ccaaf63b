/** The range functions SUMME, MIN, MAX and MITTELWERT: the argument text
    inside the parentheses, the numbers collected from the range, and the
    four reductions over them. */
module Aggregates {
  import opened Faults
  import opened JavaText
  import opened Numbers
  import opened Addresses
  import opened Sheets

  /** insideOf: the trimmed text between `name(` and the final `)`.  The
      caller has already matched the prefix `name(`. */
  function InsideOf(f: string, name: string): (r: Result<string>)
    requires |name| < |f| && f[|name|] == '('
    ensures r.Ok? <==> EndsWith(f, ")")
    ensures r.Err? ==> r.fault == Illegal(InvalidFunctionSyntax)
  {
    if !EndsWith(f, ")") then Err(Illegal(InvalidFunctionSyntax))
    else Ok(Trim(f[|name| + 1..|f| - 1]))
  }

  /** A call written out is taken apart again. */
  lemma InsideOfCall(name: string, arg: string)
    ensures InsideOf(name + "(" + arg + ")", name) == Ok(Trim(arg))
  {
    var f := name + "(" + arg + ")";
    assert f[|name|] == '(';
    assert f[|f| - 1..] == ")";
    assert f[|name| + 1..|f| - 1] == arg;
  }

  // ----- valuesOf -----

  /** The numbers of one row, columns `c1` up to but excluding `c`, left to
      right; blank cells are skipped and the first text that is not a long
      is a fault. */
  function RowValues(row: seq<string>, c1: nat, c: nat): (v: Result<seq<int>>)
    requires c1 <= c <= |row|
    ensures v.Ok? ==> |v.value| <= c - c1 && forall i :: 0 <= i < |v.value| ==> InLong(v.value[i])
    ensures v.Err? ==> v.fault == Illegal(NotAnInteger)
    decreases c
  {
    if c == c1 then Ok([])
    else
      var prev :- RowValues(row, c1, c - 1);
      var t := Trim(row[c - 1]);
      if t == [] then Ok(prev)
      else
        var x :- ParseLongStrict(t);
        Ok(prev + [x])
  }

  /** The numbers of rows `r1` up to but excluding `r`, in row-major order. */
  function BoxValues(s: Sheet, r1: nat, c1: nat, r: nat, c: nat): (v: Result<seq<int>>)
    requires r1 <= r <= s.rows && c1 <= c <= s.cols
    ensures v.Ok? ==> forall i :: 0 <= i < |v.value| ==> InLong(v.value[i])
    ensures v.Err? ==> v.fault == Illegal(NotAnInteger)
    decreases r
  {
    if r == r1 then Ok([])
    else
      var prev :- BoxValues(s, r1, c1, r - 1, c);
      var row :- RowValues(s.values[r - 1], c1, c);
      Ok(prev + row)
  }

  /** valuesOf: the numbers in a range, row by row. */
  function ValuesOf(s: Sheet, arg: string): (v: Result<seq<int>>)
    ensures v.Ok? ==> forall i :: 0 <= i < |v.value| ==> InLong(v.value[i])
    ensures v.Err? ==> v.fault.Illegal? && v.fault.reason in {InvalidRange, InvalidAddress, NotAnInteger}
  {
    var b :- ParseRange(arg, s.rows, s.cols);
    RangeValues(s, b.0, b.1, b.2, b.3)
  }

  /** The numbers of the block from (r1, c1) to (r2, c2), both included. */
  function RangeValues(s: Sheet, r1: nat, c1: nat, r2: nat, c2: nat): Result<seq<int>>
    requires r1 <= r2 < s.rows && c1 <= c2 < s.cols
  {
    BoxValues(s, r1, c1, r2 + 1, c2 + 1)
  }

  /** The non-blank trimmed texts of a row segment, left to right. */
  function RowTexts(row: seq<string>, c1: nat, c: nat): seq<string>
    requires c1 <= c <= |row|
    decreases c
  {
    if c == c1 then []
    else
      var t := Trim(row[c - 1]);
      RowTexts(row, c1, c - 1) + (if t == [] then [] else [t])
  }

  /** The non-blank trimmed texts of the rows `r1` up to but excluding `r`,
      row by row. */
  function BoxTexts(s: Sheet, r1: nat, c1: nat, r: nat, c: nat): seq<string>
    requires r1 <= r <= s.rows && c1 <= c <= s.cols
    decreases r
  {
    if r == r1 then [] else BoxTexts(s, r1, c1, r - 1, c) + RowTexts(s.values[r - 1], c1, c)
  }

  /** All the texts are longs. */
  predicate AllParse(texts: seq<string>) {
    forall i :: 0 <= i < |texts| ==> ParseLongStrict(texts[i]).Ok?
  }

  /** The numbers are the texts, parsed one by one. */
  predicate ParsedFrom(v: seq<int>, texts: seq<string>) {
    |v| == |texts| && forall i :: 0 <= i < |v| ==> ParseLongStrict(texts[i]) == Ok(v[i])
  }

  lemma ParsedAppend(v1: seq<int>, t1: seq<string>, v2: seq<int>, t2: seq<string>)
    requires ParsedFrom(v1, t1) && ParsedFrom(v2, t2)
    ensures ParsedFrom(v1 + v2, t1 + t2)
  {
  }

  lemma AllParseAppend(t1: seq<string>, t2: seq<string>)
    ensures AllParse(t1 + t2) <==> AllParse(t1) && AllParse(t2)
  {
    if AllParse(t1) && AllParse(t2) {
      forall i | 0 <= i < |t1 + t2|
        ensures ParseLongStrict((t1 + t2)[i]).Ok?
      {
        if i >= |t1| {
          assert (t1 + t2)[i] == t2[i - |t1|];
        }
      }
    }
    if AllParse(t1 + t2) {
      forall i | 0 <= i < |t1|
        ensures ParseLongStrict(t1[i]).Ok?
      {
        assert (t1 + t2)[i] == t1[i];
      }
      forall i | 0 <= i < |t2|
        ensures ParseLongStrict(t2[i]).Ok?
      {
        assert (t1 + t2)[|t1| + i] == t2[i];
      }
    }
  }

  /** `v` is what collecting `texts` yields: their values in order, or a
      fault exactly when one of them is not a long. */
  predicate Collects(v: Result<seq<int>>, texts: seq<string>) {
    && (v.Ok? <==> AllParse(texts))
    && (v.Ok? ==> ParsedFrom(v.value, texts))
  }

  /** Collecting two stretches one after the other collects their
      concatenation. */
  lemma CollectsAppend(v1: Result<seq<int>>, t1: seq<string>, v2: Result<seq<int>>, t2: seq<string>)
    requires Collects(v1, t1) && Collects(v2, t2)
    ensures Collects(if v1.Err? then v1 else if v2.Err? then v2 else Ok(v1.value + v2.value), t1 + t2)
  {
    AllParseAppend(t1, t2);
    if v1.Ok? && v2.Ok? {
      ParsedAppend(v1.value, t1, v2.value, t2);
    }
  }

  lemma CollectsOne(t: string)
    ensures Collects(var x :- ParseLongStrict(t); Ok([x]), [t])
  {
    assert [t][0] == t;
  }

  /** A row segment yields its non-blank texts parsed, and fails exactly
      when one of them is not a long. */
  lemma {:induction false} RowValuesTexts(row: seq<string>, c1: nat, c: nat)
    requires c1 <= c <= |row|
    ensures Collects(RowValues(row, c1, c), RowTexts(row, c1, c))
    decreases c
  {
    if c > c1 {
      var prev := RowValues(row, c1, c - 1);
      RowValuesTexts(row, c1, c - 1);
      var t := Trim(row[c - 1]);
      if t == [] {
        assert RowTexts(row, c1, c) == RowTexts(row, c1, c - 1) + [] == RowTexts(row, c1, c - 1);
        assert RowValues(row, c1, c) == prev;
      } else {
        assert RowTexts(row, c1, c) == RowTexts(row, c1, c - 1) + [t];
        var one := var x :- ParseLongStrict(t); Ok([x]);
        assert RowValues(row, c1, c) ==
          if prev.Err? then prev else if one.Err? then one else Ok(prev.value + one.value);
        CollectsOne(t);
        CollectsAppend(prev, RowTexts(row, c1, c - 1), one, [t]);
      }
    }
  }

  /** The same for a block of whole rows. */
  lemma {:induction false} BoxValuesTexts(s: Sheet, r1: nat, c1: nat, r: nat, c: nat)
    requires r1 <= r <= s.rows && c1 <= c <= s.cols
    ensures Collects(BoxValues(s, r1, c1, r, c), BoxTexts(s, r1, c1, r, c))
    decreases r
  {
    if r > r1 {
      BoxValuesTexts(s, r1, c1, r - 1, c);
      var row := s.values[r - 1];
      RowValuesTexts(row, c1, c);
      CollectsAppend(BoxValues(s, r1, c1, r - 1, c), BoxTexts(s, r1, c1, r - 1, c),
        RowValues(row, c1, c), RowTexts(row, c1, c));
    }
  }

  /** The non-blank trimmed texts of the block from (r1, c1) to (r2, c2). */
  function RangeTexts(s: Sheet, r1: nat, c1: nat, r2: nat, c2: nat): seq<string>
    requires r1 <= r2 < s.rows && c1 <= c2 < s.cols
  {
    BoxTexts(s, r1, c1, r2 + 1, c2 + 1)
  }

  lemma RangeValuesTexts(s: Sheet, r1: nat, c1: nat, r2: nat, c2: nat)
    requires r1 <= r2 < s.rows && c1 <= c2 < s.cols
    ensures Collects(RangeValues(s, r1, c1, r2, c2), RangeTexts(s, r1, c1, r2, c2))
  {
    BoxValuesTexts(s, r1, c1, r2 + 1, c2 + 1);
  }

  /** The numbers of a range that parses to a given block are collected
      from that block's texts. */
  lemma ValuesOfBlock(s: Sheet, arg: string, r1: nat, c1: nat, r2: nat, c2: nat)
    requires ParseRange(arg, s.rows, s.cols) == Ok((r1, c1, r2, c2))
    ensures r1 <= r2 < s.rows && c1 <= c2 < s.cols
    ensures Collects(ValuesOf(s, arg), RangeTexts(s, r1, c1, r2, c2))
  {
    RangeValuesTexts(s, r1, c1, r2, c2);
  }

  // ----- The loops of valuesOf -----

  lemma RowFaultNext(row: seq<string>, c1: nat, c: nat)
    requires c1 <= c < |row| && RowValues(row, c1, c).Err?
    ensures RowValues(row, c1, c + 1).Err?
  {
  }

  lemma BoxFaultNext(s: Sheet, r1: nat, c1: nat, r: nat, c: nat)
    requires r1 <= r < s.rows && c1 <= c <= s.cols && BoxValues(s, r1, c1, r, c).Err?
    ensures BoxValues(s, r1, c1, r + 1, c).Err?
  {
  }

  /** valuesOf's inner loop, one cell at a time: a blank is skipped and a
      long is appended. */
  lemma RowStep(row: seq<string>, c1: nat, c: nat, w: seq<int>)
    requires c1 <= c < |row| && RowValues(row, c1, c) == Ok(w)
    ensures Trim(row[c]) == [] ==> RowValues(row, c1, c + 1) == Ok(w)
    ensures Trim(row[c]) != [] && ParseLongStrict(Trim(row[c])).Ok? ==>
      RowValues(row, c1, c + 1) == Ok(w + [ParseLongStrict(Trim(row[c])).value])
  {
  }

  /** valuesOf's outer loop, one row at a time. */
  lemma BoxStep(s: Sheet, r1: nat, c1: nat, r: nat, c: nat, w: seq<int>, x: seq<int>)
    requires r1 <= r < s.rows && c1 <= c <= s.cols
    requires BoxValues(s, r1, c1, r, c) == Ok(w) && RowValues(s.values[r], c1, c) == Ok(x)
    ensures BoxValues(s, r1, c1, r + 1, c) == Ok(w + x)
  {
  }

  /** The first non-blank text that is not a long fails the row. */
  lemma RowFaultAt(row: seq<string>, c1: nat, c: nat)
    requires c1 <= c < |row| && RowValues(row, c1, c).Ok?
    requires Trim(row[c]) != [] && ParseLongStrict(Trim(row[c])).Err?
    ensures RowValues(row, c1, c + 1).Err?
  {
  }

  /** A failing row fails the block it closes. */
  lemma BoxFaultAt(s: Sheet, r1: nat, c1: nat, r: nat, c: nat)
    requires r1 <= r < s.rows && c1 <= c <= s.cols
    requires BoxValues(s, r1, c1, r, c).Ok? && RowValues(s.values[r], c1, c).Err?
    ensures BoxValues(s, r1, c1, r + 1, c).Err?
  {
  }

  /** Once a text of the row fails to parse, the rest of the row is not read. */
  lemma {:induction false} RowFaultStays(row: seq<string>, c1: nat, c: nat, d: nat)
    requires c1 <= c <= d <= |row| && RowValues(row, c1, c).Err?
    ensures RowValues(row, c1, d).Err?
    decreases d
  {
    if d == c {
      assert RowValues(row, c1, d).Err?;
    } else {
      RowFaultStays(row, c1, c, d - 1);
      RowFaultNext(row, c1, d - 1);
      assert RowValues(row, c1, d).Err?;
    }
  }

  /** Once a row fails, the rows below it are not read. */
  lemma {:induction false} BoxFaultStays(s: Sheet, r1: nat, c1: nat, r: nat, d: nat, c: nat)
    requires r1 <= r <= d <= s.rows && c1 <= c <= s.cols && BoxValues(s, r1, c1, r, c).Err?
    ensures BoxValues(s, r1, c1, d, c).Err?
    decreases d
  {
    if d == r {
      assert BoxValues(s, r1, c1, d, c).Err?;
    } else {
      BoxFaultStays(s, r1, c1, r, d - 1, c);
      BoxFaultNext(s, r1, c1, d - 1, c);
      assert BoxValues(s, r1, c1, d, c).Err?;
    }
  }

  /** A text that is not a long fails its row from there on. */
  lemma RowFails(row: seq<string>, c1: nat, c: nat, d: nat)
    requires c1 <= c < d <= |row| && RowValues(row, c1, c).Ok?
    requires Trim(row[c]) != [] && ParseLongStrict(Trim(row[c])).Err?
    ensures RowValues(row, c1, d).Err?
  {
    RowFaultAt(row, c1, c);
    RowFaultStays(row, c1, c + 1, d);
  }

  /** A failing row fails every block that contains it. */
  lemma BlockFails(s: Sheet, r1: nat, c1: nat, r: nat, d: nat, c: nat)
    requires r1 <= r < d <= s.rows && c1 <= c <= s.cols
    requires BoxValues(s, r1, c1, r, c).Ok? && RowValues(s.values[r], c1, c).Err?
    ensures BoxValues(s, r1, c1, d, c) == Err(Illegal(NotAnInteger))
  {
    BoxFaultAt(s, r1, c1, r, c);
    BoxFaultStays(s, r1, c1, r + 1, d, c);
  }

  /** A text of row `r` at column `c` that is not a long is the fault of
      every block reaching past it. */
  lemma CellFault(s: Sheet, r1: nat, c1: nat, r: nat, c: nat, r2: nat, c2: nat)
    requires r1 <= r <= r2 < s.rows && c1 <= c <= c2 < s.cols
    requires BoxValues(s, r1, c1, r, c2 + 1).Ok? && RowValues(s.values[r], c1, c).Ok?
    requires Trim(s.values[r][c]) != [] && ParseLongStrict(Trim(s.values[r][c])).Err?
    ensures BoxValues(s, r1, c1, r2 + 1, c2 + 1) == Err(Illegal(NotAnInteger))
  {
    var row := s.values[r];
    RowFails(row, c1, c, c2 + 1);
    assert RowValues(row, c1, c2 + 1).Err?;
    BlockFails(s, r1, c1, r, r2 + 1, c2 + 1);
  }

  // ----- The reductions -----

  function ExactSum(v: seq<int>): int {
    if v == [] then 0 else ExactSum(v[..|v| - 1]) + v[|v| - 1]
  }

  /** sum: the `long` accumulator wraps at every step. */
  function RunningSum(v: seq<int>): (s: int)
    ensures InLong(s)
  {
    if v == [] then 0 else Wrap(RunningSum(v[..|v| - 1]) + v[|v| - 1])
  }

  /** Wrapping at every step is wrapping once at the end. */
  lemma {:induction false} RunningSumWraps(v: seq<int>)
    ensures RunningSum(v) == Wrap(ExactSum(v))
  {
    if v != [] {
      var init := v[..|v| - 1];
      RunningSumWraps(init);
      WrapAdd(ExactSum(init), v[|v| - 1]);
    }
  }

  /** min: the least value. */
  function Least(v: seq<int>): (m: int)
    requires v != []
    ensures m in v && forall i :: 0 <= i < |v| ==> m <= v[i]
  {
    if |v| == 1 then v[0]
    else
      var rest := Least(v[..|v| - 1]);
      if v[|v| - 1] < rest then v[|v| - 1] else rest
  }

  /** max: the greatest value. */
  function Greatest(v: seq<int>): (m: int)
    requires v != []
    ensures m in v && forall i :: 0 <= i < |v| ==> v[i] <= m
  {
    if |v| == 1 then v[0]
    else
      var rest := Greatest(v[..|v| - 1]);
      if rest < v[|v| - 1] then v[|v| - 1] else rest
  }

  /** Math.round(s / n): the integer nearest to s/n, halves rounded up. */
  function RoundedQuotient(s: int, n: nat): (q: int)
    requires n > 0
    ensures 2 * n * q <= 2 * s + n < 2 * n * (q + 1)
  {
    (2 * s + n) / (2 * n)
  }

  lemma MulMonotone(a: int, b: int, c: int)
    requires a >= 0 && b <= c
    ensures a * b <= a * c
  {
  }

  /** The rounded mean of a long lies between 0 and the sum, so it is a long. */
  lemma RoundedQuotientBounds(s: int, n: nat)
    requires n > 0
    ensures s >= 0 ==> 0 <= RoundedQuotient(s, n) <= s
    ensures s < 0 ==> s <= RoundedQuotient(s, n) <= 0
  {
    var q := RoundedQuotient(s, n);
    var m := 2 * n;
    assert m * q <= 2 * s + n < m * (q + 1);
    if s >= 0 {
      if q + 1 <= 0 {
        MulMonotone(m, q + 1, 0);
      }
      if s + 1 <= q {
        MulMonotone(m, s + 1, q);
        MulMonotone(s, 1, n);
      }
    } else {
      if 1 <= q {
        MulMonotone(m, 1, q);
      }
      if q + 1 <= s {
        MulMonotone(m, q + 1, s);
        MulMonotone(-s, 1, n);
      }
    }
  }

  // ----- The accumulator loops, one value at a time -----

  lemma SumStep(v: seq<int>, i: nat)
    requires i < |v|
    ensures RunningSum(v[..i + 1]) == Wrap(RunningSum(v[..i]) + v[i])
  {
    assert v[..i + 1][..i] == v[..i];
  }

  /** Math.min against the first value, or against the least so far. */
  lemma LeastStep(v: seq<int>, i: nat)
    requires i < |v|
    ensures i == 0 ==> Least(v[..1]) == v[0]
    ensures i > 0 ==> Least(v[..i + 1]) == if Least(v[..i]) <= v[i] then Least(v[..i]) else v[i]
  {
    assert v[..i + 1][..i] == v[..i];
  }

  /** Math.max against the first value, or against the greatest so far. */
  lemma GreatestStep(v: seq<int>, i: nat)
    requires i < |v|
    ensures i == 0 ==> Greatest(v[..1]) == v[0]
    ensures i > 0 ==> Greatest(v[..i + 1]) == if Greatest(v[..i]) >= v[i] then Greatest(v[..i]) else v[i]
  {
    assert v[..i + 1][..i] == v[..i];
  }

  /** The four range functions, in the order the dispatcher tries them. */
  datatype RangeFunction = Summe | Minimum | Maximum | Mittelwert

  function Name(f: RangeFunction): string {
    match f
    case Summe => "SUMME"
    case Minimum => "MIN"
    case Maximum => "MAX"
    case Mittelwert => "MITTELWERT"
  }

  /** A range function applied to the collected numbers; only SUMME accepts
      none. */
  function Reduce(f: RangeFunction, v: seq<int>): (r: Result<int>)
    requires forall i :: 0 <= i < |v| ==> InLong(v[i])
    ensures r.Err? <==> v == [] && f != Summe
    ensures r.Err? ==> r.fault == Illegal(EmptyRange)
    ensures r.Ok? ==> InLong(r.value)
    ensures f == Summe ==> r == Ok(Wrap(ExactSum(v)))
    ensures f == Minimum && v != [] ==> r.value in v && forall i :: 0 <= i < |v| ==> r.value <= v[i]
    ensures f == Maximum && v != [] ==> r.value in v && forall i :: 0 <= i < |v| ==> v[i] <= r.value
    ensures f == Mittelwert && v != [] ==>
      var s := Wrap(ExactSum(v));
      2 * |v| * r.value <= 2 * s + |v| < 2 * |v| * (r.value + 1)
  {
    RunningSumWraps(v);
    match f
    case Summe => Ok(RunningSum(v))
    case Minimum => if v == [] then Err(Illegal(EmptyRange)) else Ok(Least(v))
    case Maximum => if v == [] then Err(Illegal(EmptyRange)) else Ok(Greatest(v))
    case Mittelwert =>
      if v == [] then Err(Illegal(EmptyRange))
      else
        RoundedQuotientBounds(RunningSum(v), |v|);
        Ok(RoundedQuotient(RunningSum(v), |v|))
  }
}
