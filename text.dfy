/** The java.lang.String operations the engine relies on, over ASCII. */
module JavaText {

  predicate IsDigit(c: char) { '0' <= c <= '9' }

  predicate IsUpper(c: char) { 'A' <= c <= 'Z' }

  /** The characters `String.trim` removes: every code point up to U+0020. */
  predicate IsTrimmable(c: char) { c <= ' ' }

  /** The class `\s` of java.util.regex: space, \t, \n, \x0B, \f, \r. */
  predicate IsRegexSpace(c: char) {
    c == ' ' || c == '\t' || c == '\n' || c == '\U{B}' || c == '\U{C}' || c == '\r'
  }

  /** The line terminators that Java's `$` may stand before at the very end
      of the input and that `trim` leaves in place. */
  predicate IsTrailingTerminator(c: char) {
    c == '\U{85}' || c == '\U{2028}' || c == '\U{2029}'
  }

  /** String.trim: drops every character up to U+0020 from both ends. */
  function Trim(s: string): (r: string)
    ensures r != [] ==> !IsTrimmable(r[0]) && !IsTrimmable(r[|r| - 1])
    ensures |r| <= |s|
    ensures s == [] || (!IsTrimmable(s[0]) && !IsTrimmable(s[|s| - 1])) ==> r == s
    decreases |s|
  {
    if s != [] && IsTrimmable(s[0]) then Trim(s[1..])
    else if s != [] && IsTrimmable(s[|s| - 1]) then Trim(s[..|s| - 1])
    else s
  }

  /** Trim keeps an infix of its input and removes only trimmable characters. */
  lemma {:induction false} TrimIsInfix(s: string) returns (a: nat, b: nat)
    ensures a <= b <= |s| && Trim(s) == s[a..b]
    ensures forall i :: 0 <= i < a || b <= i < |s| ==> IsTrimmable(s[i])
    decreases |s|
  {
    if s != [] && IsTrimmable(s[0]) {
      var a', b' := TrimIsInfix(s[1..]);
      a, b := a' + 1, b' + 1;
      assert s[1..][a'..b'] == s[a..b];
      forall i | 0 <= i < a || b <= i < |s|
        ensures IsTrimmable(s[i])
      {
        if i > 0 { assert s[i] == s[1..][i - 1]; }
      }
    } else if s != [] && IsTrimmable(s[|s| - 1]) {
      var t := s[..|s| - 1];
      a, b := TrimIsInfix(t);
      assert t[a..b] == s[a..b];
      forall i | 0 <= i < a || b <= i < |s|
        ensures IsTrimmable(s[i])
      {
        if i < |t| { assert s[i] == t[i]; }
      }
    } else {
      a, b := 0, |s|;
    }
  }

  function UpperChar(c: char): (u: char)
    ensures IsUpper(u) <==> IsUpper(c) || 'a' <= c <= 'z'
    ensures !('a' <= c <= 'z') ==> u == c
  {
    if 'a' <= c <= 'z' then (c as int - 32) as char else c
  }

  /** String.toUpperCase restricted to the ASCII letters. */
  function ToUpper(s: string): (r: string)
    ensures |r| == |s|
    ensures forall i :: 0 <= i < |s| ==> r[i] == UpperChar(s[i])
  {
    if s == [] then [] else [UpperChar(s[0])] + ToUpper(s[1..])
  }

  /** `replaceAll("\\s+", "")`: the input without its `\s` characters. */
  function StripSpaces(s: string): (r: string)
    ensures |r| <= |s|
    ensures forall i :: 0 <= i < |r| ==> !IsRegexSpace(r[i])
    ensures forall i :: 0 <= i < |s| && !IsRegexSpace(s[i]) ==> s[i] in r
    ensures |s| == 1 ==> r == (if IsRegexSpace(s[0]) then [] else s)
  {
    if s == [] then []
    else if IsRegexSpace(s[0]) then StripSpaces(s[1..])
    else [s[0]] + StripSpaces(s[1..])
  }

  predicate StartsWith(s: string, prefix: string) {
    |prefix| <= |s| && s[..|prefix|] == prefix
  }

  predicate EndsWith(s: string, suffix: string) {
    |suffix| <= |s| && s[|s| - |suffix|..] == suffix
  }

  lemma {:induction false} ToUpperIdempotent(s: string)
    ensures ToUpper(ToUpper(s)) == ToUpper(s)
  {
    if s != [] {
      ToUpperIdempotent(s[1..]);
    }
  }

  /** Stripping works piece by piece: together with the one-character case
      this says the result is the input's non-space characters, in order
      and each as often as it occurs. */
  lemma {:induction false} StripSpacesAppend(a: string, b: string)
    ensures StripSpaces(a + b) == StripSpaces(a) + StripSpaces(b)
  {
    if a == [] {
      assert a + b == b;
    } else {
      assert (a + b)[0] == a[0];
      assert (a + b)[1..] == a[1..] + b;
      StripSpacesAppend(a[1..], b);
    }
  }

  /** Text without white space is left alone by `replaceAll("\\s+", "")`. */
  lemma {:induction false} StripSpacesOfSpaceless(s: string)
    requires forall i :: 0 <= i < |s| ==> !IsRegexSpace(s[i])
    ensures StripSpaces(s) == s
  {
    if s != [] {
      StripSpacesOfSpaceless(s[1..]);
    }
  }
}
