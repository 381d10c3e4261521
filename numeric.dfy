/** The strings Python's `float(s)` accepts without raising ValueError, over
    ASCII digits: surrounding white space, an optional sign, then either
    `inf`, `infinity` or `nan` in any case, or a decimal literal whose digit
    groups may be separated by single underscores, with an optional
    fraction and an optional exponent. */
module Numeric {
  import opened Text

  predicate IsDigit(c: char) { '0' <= c <= '9' }

  /** One digit group: digits, with single underscores allowed between two
      digits (`1_000`). */
  predicate DigitRun(s: string) {
    && s != ""
    && IsDigit(s[0])
    && IsDigit(s[|s| - 1])
    && (forall i :: 0 <= i < |s| ==> IsDigit(s[i]) || s[i] == '_')
    && (forall i :: 0 <= i < |s| - 1 ==> s[i] == '_' ==> IsDigit(s[i + 1]))
  }

  /** The index of the first character of `s` satisfying `p`, or `|s|`. */
  function FindChar(s: string, p: char -> bool): (i: nat)
    ensures i <= |s|
    ensures i < |s| ==> p(s[i])
    ensures forall j :: 0 <= j < i ==> !p(s[j])
  {
    if s == "" then 0 else if p(s[0]) then 0 else 1 + FindChar(s[1..], p)
  }

  predicate IsSign(c: char) { c == '+' || c == '-' }
  predicate IsExponentMark(c: char) { c == 'e' || c == 'E' }
  predicate IsPoint(c: char) { c == '.' }

  /** Digits with an optional decimal point; at least one side of the point
      holds digits (`1.`, `.5`, `1.5`, but not `.`). */
  predicate IsMantissa(m: string) {
    var d := FindChar(m, IsPoint);
    if d == |m| then DigitRun(m)
    else
      var left := m[..d];
      var right := m[d + 1..];
      && (left == "" || DigitRun(left))
      && (right == "" || DigitRun(right))
      && (left != "" || right != "")
  }

  /** The part after `e`/`E`: an optional sign, then digits. */
  predicate IsExponent(x: string) {
    var y := if x != "" && IsSign(x[0]) then x[1..] else x;
    DigitRun(y)
  }

  predicate IsDecimal(u: string) {
    var e := FindChar(u, IsExponentMark);
    IsMantissa(u[..e]) && (e == |u| || IsExponent(u[e + 1..]))
  }

  predicate IsSpecial(w: string) {
    w == "inf" || w == "infinity" || w == "nan"
  }

  /** The literal after stripping white space and one leading sign. */
  function Unsigned(s: string): string {
    var t := Strip(s);
    if t != "" && IsSign(t[0]) then t[1..] else t
  }

  /** `float(s)` succeeds. */
  predicate IsNumeric(s: string) {
    var u := Unsigned(s);
    IsSpecial(Lower(u)) || IsDecimal(u)
  }

  /** A string that starts with a character that is neither white space nor
      able to begin a number cannot be parsed as a number; in particular one
      that starts with a double quote, `[` or `{`. */
  lemma NotNumericByFirst(s: string)
    requires s != ""
    requires !IsSpace(s[0]) && !IsSign(s[0]) && !IsDigit(s[0]) && !IsPoint(s[0])
    requires LowerChar(s[0]) != 'i' && LowerChar(s[0]) != 'n'
    ensures !IsNumeric(s)
  {
    var t := Strip(s);
    StripShape(s);
    assert LeadingSpace(s) == 0;
    assert t != "" && t[0] == s[0] by {
      assert s[..1] == [s[0]];
      var r := TrimStart(s, IsSpace);
      assert r == s;
      if t == "" {
        StripEmptyIffBlank(s);
      }
    }
    var u := Unsigned(s);
    assert u == t;
    assert Lower(u)[0] == LowerChar(s[0]);
    var e := FindChar(u, IsExponentMark);
    var m := u[..e];
    if e > 0 {
      assert m[0] == s[0];
      var d := FindChar(m, IsPoint);
      assert d > 0;
      assert m[..d][0] == s[0];
    }
  }
}
