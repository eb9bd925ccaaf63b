/** Resolution of cell addresses such as `B2` and ranges such as `A1:C3` to
    zero-based (row, column) coordinates of a `rows` x `cols` grid. */
module Addresses {
  import opened Faults
  import opened JavaText
  import opened Numbers

  /** The end of the run of upper-case letters that starts at `from`. */
  function LetterRunFrom(s: string, from: nat): (k: nat)
    requires from <= |s|
    ensures from <= k <= |s|
    ensures forall i :: from <= i < k ==> IsUpper(s[i])
    ensures k < |s| ==> !IsUpper(s[k])
    decreases |s| - from
  {
    if from < |s| && IsUpper(s[from]) then LetterRunFrom(s, from + 1) else from
  }

  /** The number of leading upper-case letters. */
  function LetterRun(s: string): (k: nat)
    ensures k <= |s|
    ensures forall i :: 0 <= i < k ==> IsUpper(s[i])
    ensures k < |s| ==> !IsUpper(s[k])
  {
    LetterRunFrom(s, 0)
  }

  /** The number of leading decimal digits. */
  function DigitRun(s: string): (k: nat)
    ensures k <= |s|
    ensures AllDigits(s[..k])
    ensures k < |s| ==> !IsDigit(s[k])
  {
    if s != [] && IsDigit(s[0]) then
      assert s[..1 + DigitRun(s[1..])][1..] == s[1..][..DigitRun(s[1..])];
      1 + DigitRun(s[1..])
    else 0
  }

  /** `s[from..]` matches `[A-Z]*[0-9]+`. */
  predicate LettersThenDigits(s: string, from: nat)
    requires from <= |s|
    decreases |s| - from
  {
    from < |s| && if IsUpper(s[from]) then LettersThenDigits(s, from + 1) else AllDigits(s[from..])
  }

  /** The whole string matches `[A-Z]+[0-9]+`. */
  predicate IsRefShape(s: string) {
    s != [] && IsUpper(s[0]) && LettersThenDigits(s, 1)
  }

  lemma {:induction false} LettersThenDigitsSplit(s: string, from: nat)
    requires from <= |s|
    ensures var k := LetterRunFrom(s, from);
      LettersThenDigits(s, from) <==> k < |s| && AllDigits(s[k..])
    decreases |s| - from
  {
    if from < |s| && IsUpper(s[from]) {
      LettersThenDigitsSplit(s, from + 1);
    }
  }

  /** The pattern splits into the leading letter run and a digit run. */
  lemma RefShapeSplit(s: string)
    ensures var k := LetterRun(s); IsRefShape(s) <==> 0 < k < |s| && AllDigits(s[k..])
  {
    if s != [] && IsUpper(s[0]) {
      LettersThenDigitsSplit(s, 1);
    }
  }

  /** The part of the text a pattern anchored with `^` and `$` must match:
      Java's `$` also matches just before one final line terminator, and
      `trim` does not remove U+0085, U+2028 or U+2029. */
  function AnchoredBody(s: string): (b: string)
    ensures b == s || (s != [] && b == s[..|s| - 1] && IsTrailingTerminator(s[|s| - 1]))
  {
    if s != [] && IsTrailingTerminator(s[|s| - 1]) then s[..|s| - 1] else s
  }

  /** The text of an address after `trim().toUpperCase()`, as the anchored
      pattern sees it. */
  function Normalized(s: string): string {
    AnchoredBody(ToUpper(Trim(s)))
  }

  /** colStringToIndex: only the single letters A to Z are columns. */
  function ColStringToIndex(col: string): (r: Result<nat>)
    ensures r.Ok? <==> |col| == 1 && IsUpper(col[0])
    ensures r.Ok? ==> r.value < 26 && r.value == col[0] as int - 'A' as int
    ensures r.Err? ==> r.fault == Illegal(InvalidAddress)
  {
    if |col| != 1 then Err(Illegal(InvalidAddress))
    else if col[0] < 'A' || col[0] > 'Z' then Err(Illegal(InvalidAddress))
    else Ok(col[0] as int - 'A' as int)
  }

  /** parseAddress: a single letter and a 1-based row number, case-insensitive
      and trimmed, inside the grid.  Leading zeros in the row are accepted. */
  function ParseAddress(name: string, rows: nat, cols: nat): (r: Result<(nat, nat)>)
    ensures r.Ok? ==> r.value.0 < rows && r.value.1 < cols
    ensures r.Err? ==> r.fault == Illegal(InvalidAddress)
  {
    var s := Normalized(name);
    if !IsRefShape(s) then Err(Illegal(InvalidAddress))
    else
      RefShapeSplit(s);
      var k := LetterRun(s);
      var col :- ColStringToIndex(s[..k]);
      var n := DigitsValue(s[k..]);
      if n > MaxInt then Err(Illegal(InvalidAddress)) // Integer.parseInt overflows
      else if n - 1 < 0 || n - 1 >= rows || col >= cols then Err(Illegal(InvalidAddress))
      else Ok((n - 1, col))
  }

  /** One letter followed by a non-empty digit run. */
  predicate IsSingleLetterAddress(s: string) {
    |s| >= 2 && IsUpper(s[0]) && AllDigits(s[1..])
  }

  lemma SingleLetterShape(s: string)
    ensures IsRefShape(s) && LetterRun(s) == 1 <==> IsSingleLetterAddress(s)
  {
    RefShapeSplit(s);
    if IsSingleLetterAddress(s) {
      assert IsDigit(s[1..][0]);
      assert LetterRunFrom(s, 1) == 1;
    }
  }

  /** parseAddress accepts, after trimming and upper-casing, exactly one
      letter and a digit run whose value is a row of the grid (and fits an
      int), the letter naming a column of the grid; it returns the row
      number minus one and the letter's offset from `A`. */
  lemma ParseAddressAccepts(name: string, rows: nat, cols: nat)
    ensures var s := Normalized(name);
      var r := ParseAddress(name, rows, cols);
      && (r.Ok? <==>
           IsSingleLetterAddress(s) &&
           1 <= DigitsValue(s[1..]) <= MaxInt && DigitsValue(s[1..]) <= rows &&
           s[0] as int - 'A' as int < cols)
      && (r.Ok? ==>
           IsSingleLetterAddress(s) && r.value == (DigitsValue(s[1..]) - 1, s[0] as int - 'A' as int))
  {
    var s := Normalized(name);
    SingleLetterShape(s);
    if IsRefShape(s) {
      var k := LetterRun(s);
      if k != 1 {
        assert ColStringToIndex(s[..k]).Err?;
      } else {
        assert s[..k] == [s[0]];
      }
    }
  }

  /** The canonical text of an address: its column letter and its 1-based row. */
  function Render(row: nat, col: nat): (s: string)
    requires col < 26
    ensures IsRefShape(s)
  {
    var d := Digits(row + 1);
    var s := [('A' as int + col) as char] + d;
    assert s[1..] == d;
    s
  }

  lemma {:induction false} ToUpperOfUpper(s: string)
    requires forall i :: 0 <= i < |s| ==> !('a' <= s[i] <= 'z')
    ensures ToUpper(s) == s
  {
  }

  /** The characters of an address-shaped text are upper-case letters and
      digits, and it ends in a digit. */
  lemma RefShapeChars(s: string)
    requires IsRefShape(s)
    ensures forall i :: 0 <= i < |s| ==> IsUpper(s[i]) || IsDigit(s[i])
    ensures IsDigit(s[|s| - 1])
  {
    RefShapeSplit(s);
    var k := LetterRun(s);
    forall i | 0 <= i < |s|
      ensures IsUpper(s[i]) || IsDigit(s[i])
    {
      if i >= k {
        assert s[k..][i - k] == s[i];
      }
    }
    assert s[k..][|s| - 1 - k] == s[|s| - 1];
  }

  /** An address-shaped text is left alone by trimming, upper-casing and
      anchoring, and holds no `:`. */
  lemma RefShapeNormalized(s: string)
    requires IsRefShape(s)
    ensures Normalized(s) == s
    ensures forall i :: 0 <= i < |s| ==> s[i] != ':'
  {
    RefShapeChars(s);
    ToUpperOfUpper(s);
  }

  /** A rendered address is one letter, the column's, and the decimal
      digits of the 1-based row. */
  lemma RenderShape(row: nat, col: nat)
    requires col < 26
    ensures var s := Render(row, col);
      && Normalized(s) == s && IsSingleLetterAddress(s)
      && s[0] as int - 'A' as int == col && DigitsValue(s[1..]) == row + 1
  {
    var s := Render(row, col);
    RefShapeNormalized(s);
    assert s[1..] == Digits(row + 1);
    DigitsValueOfDigits(row + 1);
  }

  /** Rendering coordinates and parsing the text back gives the coordinates. */
  lemma ParseRender(row: nat, col: nat, rows: nat, cols: nat)
    requires row < rows <= MaxInt && col < cols && col < 26
    ensures ParseAddress(Render(row, col), rows, cols) == Ok((row, col))
  {
    RenderShape(row, col);
    ParseAddressAccepts(Render(row, col), rows, cols);
  }

  /** The position of the first `:`, if any. */
  function IndexOfColon(s: string): (r: Option<nat>)
    ensures r.Some? ==>
      r.value < |s| && s[r.value] == ':' && forall i :: 0 <= i < r.value ==> s[i] != ':'
    ensures r.None? ==> forall i :: 0 <= i < |s| ==> s[i] != ':'
  {
    if s == [] then None
    else if s[0] == ':' then Some(0)
    else match IndexOfColon(s[1..])
      case None => None
      case Some(i) => Some(i + 1)
  }

  function Min(a: int, b: int): int { if a <= b then a else b }

  function Max(a: int, b: int): int { if a <= b then b else a }

  /** parseRange: `addr:addr`, returned as (top row, left column, bottom row,
      right column) whatever the order of the two corners. */
  function ParseRange(range: string, rows: nat, cols: nat): (r: Result<(nat, nat, nat, nat)>)
    ensures r.Ok? ==> r.value.0 <= r.value.2 < rows && r.value.1 <= r.value.3 < cols
    ensures r.Err? ==> r.fault == Illegal(InvalidRange) || r.fault == Illegal(InvalidAddress)
  {
    ParseCorners(Normalized(range), rows, cols)
  }

  /** The anchored pattern `([A-Z]+[0-9]+):([A-Z]+[0-9]+)` on normalised text,
      then both corners resolved and ordered. */
  function ParseCorners(s: string, rows: nat, cols: nat): (r: Result<(nat, nat, nat, nat)>)
    ensures r.Ok? ==> r.value.0 <= r.value.2 < rows && r.value.1 <= r.value.3 < cols
    ensures r.Err? ==> r.fault == Illegal(InvalidRange) || r.fault == Illegal(InvalidAddress)
  {
    match IndexOfColon(s)
    case None => Err(Illegal(InvalidRange))
    case Some(i) =>
      if !IsRefShape(s[..i]) || !IsRefShape(s[i + 1..]) then Err(Illegal(InvalidRange))
      else BoundingBox(ParseAddress(s[..i], rows, cols), ParseAddress(s[i + 1..], rows, cols))
  }

  /** The normalised range spanned by two resolved corners; the first
      corner's fault wins. */
  function BoundingBox(a: Result<(nat, nat)>, b: Result<(nat, nat)>): (r: Result<(nat, nat, nat, nat)>)
    ensures r.Ok? <==> a.Ok? && b.Ok?
    ensures r.Ok? ==>
      && r.value.0 <= r.value.2 && r.value.1 <= r.value.3
      && r.value.0 in {a.value.0, b.value.0} && r.value.2 in {a.value.0, b.value.0}
      && r.value.1 in {a.value.1, b.value.1} && r.value.3 in {a.value.1, b.value.1}
    ensures r.Ok? ==>
      && r.value.0 <= a.value.0 && r.value.0 <= b.value.0
      && a.value.0 <= r.value.2 && b.value.0 <= r.value.2
      && r.value.1 <= a.value.1 && r.value.1 <= b.value.1
      && a.value.1 <= r.value.3 && b.value.1 <= r.value.3
    ensures r.Err? ==> r.fault == (if a.Err? then a.fault else b.fault)
  {
    var p :- a;
    var q :- b;
    Ok((Min(p.0, q.0), Min(p.1, q.1), Max(p.0, q.0), Max(p.1, q.1)))
  }

  /** On `a:b` with two address-shaped corners, parseRange is the bounding
      box of the two parsed corners, and fails exactly when one corner does. */
  lemma ParseRangeCorners(a: string, b: string, rows: nat, cols: nat)
    requires IsRefShape(a) && IsRefShape(b)
    ensures ParseRange(a + ":" + b, rows, cols) ==
      BoundingBox(ParseAddress(a, rows, cols), ParseAddress(b, rows, cols))
  {
    var s := a + ":" + b;
    JoinedNormalized(a, b);
    assert s[..|a|] == a;
    assert s[|a| + 1..] == b;
    assert ParseRange(s, rows, cols) == ParseCorners(s, rows, cols);
  }

  /** The normalised text has the shape `([A-Z]+[0-9]+):([A-Z]+[0-9]+)`,
      split at position i. */
  predicate IsRangeShapeAt(s: string, i: nat) {
    i < |s| && s[i] == ':' && IsRefShape(s[..i]) && IsRefShape(s[i + 1..])
  }

  /** parseRange in both directions: it succeeds exactly when the trimmed,
      upper-cased text is two address-shaped corners around a `:` that both
      lie inside the grid, and then gives their bounding box; text of any
      other shape is `InvalidRange`. */
  lemma ParseRangeAccepts(range: string, rows: nat, cols: nat)
    ensures var s := Normalized(range);
      var r := ParseRange(range, rows, cols);
      && (r.Ok? <==> exists i: nat ::
            IsRangeShapeAt(s, i) &&
            ParseAddress(s[..i], rows, cols).Ok? && ParseAddress(s[i + 1..], rows, cols).Ok?)
      && ((forall i: nat :: !IsRangeShapeAt(s, i)) ==> r == Err(Illegal(InvalidRange)))
      && (forall i: nat ::
            IsRangeShapeAt(s, i) ==> r == BoundingBox(ParseAddress(s[..i], rows, cols), ParseAddress(s[i + 1..], rows, cols)))
  {
    var s := Normalized(range);
    assert ParseRange(range, rows, cols) == ParseCorners(s, rows, cols);
    forall i: nat | IsRangeShapeAt(s, i)
      ensures IndexOfColon(s) == Some(i)
    {
      RefShapeChars(s[..i]);
      assert forall j :: 0 <= j < i ==> s[j] == s[..i][j];
      IndexOfColonAt(s, i);
    }
    match IndexOfColon(s)
    case None =>
    case Some(k) =>
      if IsRefShape(s[..k]) && IsRefShape(s[k + 1..]) {
        assert IsRangeShapeAt(s, k);
      }
  }

  lemma JoinedNormalized(a: string, b: string)
    requires IsRefShape(a) && IsRefShape(b)
    ensures Normalized(a + ":" + b) == a + ":" + b
    ensures IndexOfColon(a + ":" + b) == Some(|a|)
  {
    var s := a + ":" + b;
    JoinedTrim(a, b);
    JoinedUpper(a, b);
    JoinedAnchored(a, b);
    NormalizedFixed(s);
    JoinedColon(a, b);
  }

  lemma JoinedColon(a: string, b: string)
    requires IsRefShape(a) && IsRefShape(b)
    ensures IndexOfColon(a + ":" + b) == Some(|a|)
  {
    JoinedChars(a, b);
    IndexOfColonAt(a + ":" + b, |a|);
  }

  lemma JoinedAnchored(a: string, b: string)
    requires IsRefShape(b)
    ensures AnchoredBody(a + ":" + b) == a + ":" + b
  {
    RefShapeChars(b);
    assert (a + ":" + b)[|a| + |b|] == b[|b| - 1];
  }

  lemma NormalizedFixed(s: string)
    requires Trim(s) == s && ToUpper(s) == s && AnchoredBody(s) == s
    ensures Normalized(s) == s
  {
  }

  lemma JoinedUpper(a: string, b: string)
    requires IsRefShape(a) && IsRefShape(b)
    ensures ToUpper(a + ":" + b) == a + ":" + b
  {
    JoinedChars(a, b);
    ToUpperOfUpper(a + ":" + b);
  }

  lemma JoinedTrim(a: string, b: string)
    requires IsRefShape(a) && IsRefShape(b)
    ensures Trim(a + ":" + b) == a + ":" + b
  {
    var s := a + ":" + b;
    RefShapeChars(b);
    assert s[0] == a[0];
    assert s[|s| - 1] == b[|b| - 1];
  }

  lemma JoinedChars(a: string, b: string)
    requires IsRefShape(a) && IsRefShape(b)
    ensures forall i :: 0 <= i < |a| + 1 + |b| ==>
      var c := (a + ":" + b)[i]; (i == |a|) == (c == ':') && !('a' <= c <= 'z')
  {
    var s := a + ":" + b;
    RefShapeChars(a);
    RefShapeChars(b);
    forall i | 0 <= i < |s|
      ensures (i == |a|) == (s[i] == ':') && !('a' <= s[i] <= 'z')
    {
      if i < |a| {
        assert s[i] == a[i];
      } else if i > |a| {
        assert s[i] == b[i - |a| - 1];
      }
    }
  }

  lemma IndexOfColonAt(s: string, k: nat)
    requires k < |s| && s[k] == ':' && forall i :: 0 <= i < k ==> s[i] != ':'
    ensures IndexOfColon(s) == Some(k)
  {
  }

  /** The order in which the two corners are written does not matter. */
  lemma ParseRangeSwap(a: string, b: string, rows: nat, cols: nat)
    requires IsRefShape(a) && IsRefShape(b)
    ensures ParseRange(a + ":" + b, rows, cols) == ParseRange(b + ":" + a, rows, cols)
  {
    ParseRangeCorners(a, b, rows, cols);
    ParseRangeCorners(b, a, rows, cols);
    BoundingBoxSwap(ParseAddress(a, rows, cols), ParseAddress(b, rows, cols));
  }

  lemma BoundingBoxSwap(a: Result<(nat, nat)>, b: Result<(nat, nat)>)
    requires a.Err? ==> a.fault == Illegal(InvalidAddress)
    requires b.Err? ==> b.fault == Illegal(InvalidAddress)
    ensures BoundingBox(a, b) == BoundingBox(b, a)
  {
  }
}
