/**
 * String predicates and transformations that the screens apply to what staff type:
 * white-space tests (`trim()` and the regular-expression class `\s`), ASCII lower-casing
 * (`toLowerCase()`), substring search (`includes`), the customer-name rule, the two price
 * filters of the sale screens, and the numeric reading of the texts those filters let through.
 */
module Text {

  /** The characters that `String.prototype.trim` strips and `\s` matches (the Unicode
      space separators beyond U+00A0 are not modelled). */
  predicate IsSpace(c: char) {
    c == ' ' || c == '\t' || c == '\n' || c == '\r' || c == '\U{000B}' || c == '\U{000C}'
    || c == '\U{00A0}' || c == '\U{FEFF}' || c == '\U{2028}' || c == '\U{2029}'
  }

  predicate IsDigit(c: char) { '0' <= c <= '9' }

  /** `[a-zA-Z]` */
  predicate IsLetter(c: char) { 'a' <= c <= 'z' || 'A' <= c <= 'Z' }

  /** `s.trim() === ""`, equivalently `!s.trim()`: nothing but white space. */
  predicate IsBlank(s: string) {
    forall i :: 0 <= i < |s| ==> IsSpace(s[i])
  }

  /** The customer-name rule of both sale screens:
      `customer.trim()` is non-empty and `/^[a-zA-Z\s]+$/` matches. */
  predicate IsCustomerName(s: string) {
    !IsBlank(s) && |s| > 0 && forall i :: 0 <= i < |s| ==> IsLetter(s[i]) || IsSpace(s[i])
  }

  /** An accepted customer name always holds at least one letter. */
  lemma CustomerNameHasLetter(s: string)
    requires IsCustomerName(s)
    ensures exists i :: 0 <= i < |s| && IsLetter(s[i])
  {
    var i :| 0 <= i < |s| && !IsSpace(s[i]);
    assert IsLetter(s[i]);
  }

  /** ASCII `toLowerCase` of one character. */
  function LowerChar(c: char): char {
    if 'A' <= c <= 'Z' then (c as int + 32) as char else c
  }

  /** `s.toLowerCase()`, restricted to ASCII letters. */
  function Lower(s: string): (r: string)
    ensures |r| == |s|
    ensures forall i :: 0 <= i < |s| ==> r[i] == LowerChar(s[i])
  {
    if s == [] then [] else [LowerChar(s[0])] + Lower(s[1..])
  }

  /** `s.includes(sub)`: `sub` occurs in `s` starting at some position. */
  predicate Contains(s: string, sub: string)
    decreases |s|
  {
    sub <= s || (|s| > 0 && Contains(s[1..], sub))
  }

  /** `sub` occurs in `s` at position `i`. */
  predicate OccursAt(s: string, sub: string, i: int) {
    0 <= i <= |s| - |sub| && s[i..i + |sub|] == sub
  }

  /** `includes` holds exactly when `sub` occurs at some position of `s`. */
  lemma {:induction false} ContainsIff(s: string, sub: string)
    ensures Contains(s, sub) <==> exists i :: OccursAt(s, sub, i)
    decreases |s|
  {
    if sub <= s {
      assert OccursAt(s, sub, 0);
    } else if |s| > 0 {
      ContainsIff(s[1..], sub);
      if Contains(s[1..], sub) {
        var i :| OccursAt(s[1..], sub, i);
        assert s[1..][i..i + |sub|] == s[i + 1..i + 1 + |sub|];
        assert OccursAt(s, sub, i + 1);
      }
      if exists i :: OccursAt(s, sub, i) {
        var i :| OccursAt(s, sub, i);
        assert i != 0;
        assert s[1..][i - 1..i - 1 + |sub|] == s[i..i + |sub|];
        assert OccursAt(s[1..], sub, i - 1);
      }
    }
  }

  /** The empty search text is contained in every string. */
  lemma ContainsEmpty(s: string)
    ensures Contains(s, "")
  {
  }

  // ---------------------------------------------------------------------------------------
  // Digits and the two price filters
  // ---------------------------------------------------------------------------------------

  predicate AllDigits(s: string) {
    forall i :: 0 <= i < |s| ==> IsDigit(s[i])
  }

  /** The length of the run of digits that starts `s`. */
  function DigitRun(s: string): (n: nat)
    ensures n <= |s|
    ensures AllDigits(s[..n])
    ensures n < |s| ==> !IsDigit(s[n])
  {
    if s == [] || !IsDigit(s[0]) then 0 else 1 + DigitRun(s[1..])
  }

  /** A leading digit run is the same however much of `s` after it is kept. */
  lemma {:induction false} DigitRunPrefix(s: string, m: nat)
    requires DigitRun(s) <= m <= |s|
    ensures DigitRun(s[..m]) == DigitRun(s)
  {
    if s != [] && IsDigit(s[0]) {
      assert s[..m][1..] == s[1..][..m - 1];
      DigitRunPrefix(s[1..], m - 1);
    }
  }

  /** A string made only of digits is its own digit run. */
  lemma {:induction false} DigitRunAll(s: string)
    requires AllDigits(s)
    ensures DigitRun(s) == |s|
  {
    if s != [] {
      DigitRunAll(s[1..]);
    }
  }

  /** The separators the character class `[\.|\,]` of the sale screen admits. */
  predicate IsSeparator(c: char) { c == '.' || c == '|' || c == ',' }

  function Min(a: nat, b: nat): nat { if a <= b then a else b }

  /**
   * `value.match(/([0-9]*[\.|\,]{0,1}[0-9]{0,2})/s)[0]`. The pattern can match the empty
   * string, so the first match starts at position 0; each part is greedy and the later parts
   * can all match nothing, so the match is the leading digits, then one separator if one
   * follows, then at most two digits after it.
   */
  function DecimalPrefix(s: string): string {
    var n := DigitRun(s);
    if n < |s| && IsSeparator(s[n]) then s[..n + 1 + Min(2, DigitRun(s[n + 1..]))] else s[..n]
  }

  /** The shape of a text the price filter can produce: digits, then optionally one
      separator followed by at most two digits. */
  predicate IsDecimalText(r: string) {
    var n := DigitRun(r);
    n == |r| || (IsSeparator(r[n]) && |r| - (n + 1) <= 2 && AllDigits(r[n + 1..]))
  }

  /** The filter returns a prefix of what was typed, and that prefix has the decimal shape. */
  lemma DecimalPrefixShape(s: string)
    ensures DecimalPrefix(s) <= s
    ensures IsDecimalText(DecimalPrefix(s))
  {
    var n := DigitRun(s);
    var r := DecimalPrefix(s);
    if n < |s| && IsSeparator(s[n]) {
      var m := Min(2, DigitRun(s[n + 1..]));
      assert r == s[..n + 1 + m];
      DigitRunPrefix(s, n + 1 + m);
      assert r[n + 1..] == s[n + 1..][..m];
    } else {
      DigitRunPrefix(s, n);
    }
  }

  /** A text that already has the decimal shape passes the filter unchanged. */
  lemma DecimalPrefixFixes(r: string)
    requires IsDecimalText(r)
    ensures DecimalPrefix(r) == r
  {
    var n := DigitRun(r);
    if n < |r| {
      DigitRunAll(r[n + 1..]);
    }
  }

  /** Applying the filter twice is the same as applying it once. */
  lemma DecimalPrefixIdempotent(s: string)
    ensures DecimalPrefix(DecimalPrefix(s)) == DecimalPrefix(s)
  {
    DecimalPrefixShape(s);
    DecimalPrefixFixes(DecimalPrefix(s));
  }

  /** The filter keeps everything typed when the text is already in shape and drops
      the rest otherwise: it never keeps a letter. */
  lemma DecimalPrefixNoLetters(s: string)
    ensures forall i :: 0 <= i < |DecimalPrefix(s)| ==> IsDigit(DecimalPrefix(s)[i]) || IsSeparator(DecimalPrefix(s)[i])
  {
    DecimalPrefixShape(s);
    var r := DecimalPrefix(s);
    var n := DigitRun(r);
    forall i | 0 <= i < |r| ensures IsDigit(r[i]) || IsSeparator(r[i]) {
      if i < n {
        assert r[..n][i] == r[i];
      } else if i > n {
        assert r[n + 1..][i - n - 1] == r[i];
      }
    }
  }

  /** `/^\d*\.?\d*$/.test(value)`: digits with at most one '.' among them. */
  predicate IsPriceText(s: string) {
    var n := DigitRun(s);
    n == |s| || (s[n] == '.' && AllDigits(s[n + 1..]))
  }

  // ---------------------------------------------------------------------------------------
  // Numeric reading of price texts
  // ---------------------------------------------------------------------------------------

  function DigitValue(c: char): nat requires IsDigit(c) { c as int - '0' as int }

  /** The natural number a run of decimal digits denotes. */
  function DigitsValue(s: string): nat
    requires AllDigits(s)
  {
    if s == [] then 0 else DigitsValue(s[..|s| - 1]) * 10 + DigitValue(s[|s| - 1])
  }

  /** The decimal text of a number, as a template literal writes it: no sign, no leading
      zero, and read back it is the number. */
  function NatText(n: nat): (s: string)
    ensures s != [] && AllDigits(s) && DigitsValue(s) == n
    ensures |s| > 1 ==> s[0] != '0'
  {
    var last := ('0' as int + n % 10) as char;
    if n < 10 then [last]
    else
      var s := NatText(n / 10) + [last];
      assert s[..|s| - 1] == NatText(n / 10);
      s
  }

  function Pow10(n: nat): (p: nat)
    ensures p >= 1
  {
    if n == 0 then 1 else 10 * Pow10(n - 1)
  }

  /** The value of digits `d[..]` read as the fraction after a decimal point. */
  function FractionValue(d: string): real
    requires AllDigits(d)
  {
    DigitsValue(d) as real / Pow10(|d|) as real
  }
}
