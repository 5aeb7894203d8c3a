/**
 * Character and string helpers shared by the screens: the ASCII digit filter
 * (`filter { it.isDigit() }`), decimal rendering (`%d`, `%02d`, `toString()`),
 * decimal parsing (`toIntOrNull`, `toLongOrNull`), case-insensitive equality
 * (`equals(ignoreCase = true)`) and Kotlin's `isBlank`.
 */
module Text {
  import opened Wrappers

  const IntMin: int := -0x8000_0000
  const IntMax: int := 0x7FFF_FFFF
  const LongMin: int := -0x8000_0000_0000_0000
  const LongMax: int := 0x7FFF_FFFF_FFFF_FFFF

  /** Kotlin's `Int` addition: the exact sum wrapped into 32-bit two's complement. */
  function IntPlus(x: int, y: int): (r: int)
    ensures IntMin <= r <= IntMax
    ensures IntMin <= x + y <= IntMax ==> r == x + y
    ensures (r - (x + y)) % 0x1_0000_0000 == 0
  {
    (x + y - IntMin) % 0x1_0000_0000 + IntMin
  }

  /** One past `Int.MAX_VALUE` is `Int.MIN_VALUE`. */
  lemma IntPlusWraps()
    ensures IntPlus(IntMax, 1) == IntMin
  {
  }

  predicate IsDigit(c: char) {
    '0' <= c <= '9'
  }

  predicate AllDigits(s: string) {
    forall i :: 0 <= i < |s| ==> IsDigit(s[i])
  }

  /** Keeps the digits of `s`, in order, and drops every other character. */
  function DigitsOnly(s: string): (r: string)
    ensures AllDigits(r)
    ensures |r| <= |s|
    ensures AllDigits(s) ==> r == s
    ensures forall c {:trigger multiset(r)[c]} ::
      multiset(r)[c] == if IsDigit(c) then multiset(s)[c] else 0
  {
    if s == [] then []
    else
      var init := s[..|s| - 1];
      assert s == init + [s[|s| - 1]];
      DigitsOnly(init) + (if IsDigit(s[|s| - 1]) then [s[|s| - 1]] else [])
  }

  /** Typing one more character adds it to the filtered text exactly when it is a digit. */
  lemma DigitsOnlySnoc(s: string, c: char)
    ensures DigitsOnly(s + [c]) == DigitsOnly(s) + (if IsDigit(c) then [c] else [])
  {
    assert (s + [c])[..|s + [c]| - 1] == s;
  }

  /** The filter commutes with concatenation, so it keeps the digits' order. */
  lemma {:induction false} DigitsOnlyAppend(a: string, b: string)
    ensures DigitsOnly(a + b) == DigitsOnly(a) + DigitsOnly(b)
    decreases |b|
  {
    if b == [] {
      assert a + b == a;
    } else {
      var b' := b[..|b| - 1];
      assert a + b == (a + b') + [b[|b| - 1]];
      assert (a + b)[..|a + b| - 1] == a + b';
      DigitsOnlyAppend(a, b');
    }
  }

  /** The first `n` characters of `s`, or all of them: Kotlin's `take(n)`. */
  function Take(s: string, n: nat): (r: string)
    ensures |r| == if |s| < n then |s| else n
    ensures r <= s
  {
    if |s| <= n then s else s[..n]
  }

  function DigitValue(c: char): nat
    requires IsDigit(c)
  {
    c as nat - '0' as nat
  }

  function DigitChar(d: nat): (c: char)
    requires d < 10
    ensures IsDigit(c) && DigitValue(c) == d
  {
    ('0' as nat + d) as char
  }

  function Pow10(n: nat): (p: nat)
    ensures p >= 1
  {
    if n == 0 then 1 else 10 * Pow10(n - 1)
  }

  /** The number a string of decimal digits denotes. */
  function DecimalValue(s: string): (v: nat)
    requires AllDigits(s)
    ensures v < Pow10(|s|)
  {
    if s == [] then 0
    else
      var init := s[..|s| - 1];
      var d := DigitValue(s[|s| - 1]);
      assert DecimalValue(init) <= Pow10(|init|) - 1;
      assert DecimalValue(init) * 10 <= Pow10(|s|) - 10;
      DecimalValue(init) * 10 + d
  }

  lemma DecimalValueSnoc(s: string, c: char)
    requires AllDigits(s) && IsDigit(c)
    ensures AllDigits(s + [c])
    ensures DecimalValue(s + [c]) == DecimalValue(s) * 10 + DigitValue(c)
  {
    assert (s + [c])[..|s + [c]| - 1] == s;
  }

  /** Leading zeros do not change the value. */
  lemma {:induction false} DecimalValueLeadingZero(s: string)
    requires AllDigits(s)
    ensures AllDigits("0" + s) && DecimalValue("0" + s) == DecimalValue(s)
    decreases |s|
  {
    if s != [] {
      var init := s[..|s| - 1];
      var c := s[|s| - 1];
      assert s == init + [c];
      DecimalValueLeadingZero(init);
      assert "0" + s == ("0" + init) + [c];
      DecimalValueSnoc("0" + init, c);
      DecimalValueSnoc(init, c);
    }
  }

  /** Decimal rendering of a natural number, without leading zeros: `n.toString()`. */
  function NatToString(n: nat): (r: string)
    ensures |r| >= 1 && AllDigits(r)
    ensures DecimalValue(r) == n
    ensures r[0] == '0' ==> n == 0
    ensures n < 10 <==> |r| == 1
  {
    if n < 10 then [DigitChar(n)]
    else
      var p := NatToString(n / 10);
      DecimalValueSnoc(p, DigitChar(n % 10));
      p + [DigitChar(n % 10)]
  }

  /** A canonical decimal string (no leading zero) is the rendering of its value. */
  lemma {:induction false} NatToStringOfDecimalValue(s: string)
    requires |s| >= 1 && AllDigits(s) && (s[0] == '0' ==> |s| == 1)
    ensures NatToString(DecimalValue(s)) == s
    decreases |s|
  {
    if |s| > 1 {
      var init := s[..|s| - 1];
      var c := s[|s| - 1];
      assert init[0] == s[0];
      NatToStringOfDecimalValue(init);
      assert s == init + [c];
      NatToStringAppendDigit(init, c);
    } else {
      assert DigitChar(DigitValue(s[0])) == s[0];
      assert s == [s[0]];
    }
  }

  /** A canonical string that renders its own value still does with one more digit. */
  lemma NatToStringAppendDigit(init: string, c: char)
    requires |init| >= 1 && AllDigits(init) && init[0] != '0' && IsDigit(c)
    requires NatToString(DecimalValue(init)) == init
    ensures AllDigits(init + [c]) && NatToString(DecimalValue(init + [c])) == init + [c]
  {
    var q, d := DecimalValue(init), DigitValue(c);
    DecimalValueSnoc(init, c);
    DecimalValueAtLeast(init);
    assert DigitChar(d) == c;
    NatToStringSnoc(q, d);
  }

  /** The rendering of `10q + d` is that of `q` followed by the digit `d`. */
  lemma NatToStringSnoc(q: nat, d: nat)
    requires q >= 1 && d < 10
    ensures NatToString(q * 10 + d) == NatToString(q) + [DigitChar(d)]
  {
    LastDigit(q, d);
  }

  /** Appending a digit is undone by `/ 10` and recovered by `% 10`. */
  lemma LastDigit(q: nat, d: nat)
    requires d < 10
    ensures (q * 10 + d) / 10 == q && (q * 10 + d) % 10 == d
  {
  }

  /** A decimal string whose first digit is not zero is at least 10^(length - 1). */
  lemma {:induction false} DecimalValueAtLeast(s: string)
    requires |s| >= 1 && AllDigits(s) && s[0] != '0'
    ensures DecimalValue(s) >= Pow10(|s| - 1)
    decreases |s|
  {
    if |s| > 1 {
      var init := s[..|s| - 1];
      DecimalValueAtLeast(init);
    }
  }

  /** `String.format("%02d", n)`: at least two characters, zero-padded, with a sign when negative. */
  function Format02(n: int): (r: string)
    ensures |r| >= 2
    ensures n >= 0 ==> AllDigits(r) && DecimalValue(r) == n
    ensures 0 <= n < 100 ==> |r| == 2
    ensures n < 0 <==> r[0] == '-'
  {
    if n < 0 then "-" + NatToString(-n)
    else if n < 10 then
      DecimalValueLeadingZero(NatToString(n));
      "0" + NatToString(n)
    else NatToString(n)
  }

  /** Kotlin's `Int.toString()` (and string interpolation of an `Int`). */
  function IntToString(n: int): (r: string)
    ensures |r| >= 1
    ensures n >= 0 ==> AllDigits(r) && DecimalValue(r) == n
    ensures n < 0 ==> r[0] == '-' && AllDigits(r[1..]) && DecimalValue(r[1..]) == -n
  {
    if n >= 0 then NatToString(n)
    else
      var r := "-" + NatToString(-n);
      assert r[1..] == NatToString(-n);
      r
  }

  /**
   * `toIntOrNull()` / `toLongOrNull()` for the range [lo, hi]: an optional
   * sign followed by at least one digit, whose value lies in the range.
   */
  function ParseInteger(s: string, lo: int, hi: int): (r: Option<int>)
    requires lo <= 0 <= hi
    ensures r.Some? ==> lo <= r.value <= hi
    ensures s == [] ==> r.None?
    ensures s != [] && AllDigits(s) ==>
              r == if DecimalValue(s) <= hi then Some(DecimalValue(s)) else None
  {
    if s == [] then None
    else if AllDigits(s) then
      (if DecimalValue(s) <= hi then Some(DecimalValue(s)) else None)
    else if |s| >= 2 && (s[0] == '-' || s[0] == '+') && AllDigits(s[1..]) then
      var m: int := DecimalValue(s[1..]);
      var v := if s[0] == '-' then -m else m;
      if lo <= v <= hi then Some(v) else None
    else None
  }

  /** `s.toIntOrNull() ?: 0`. */
  function IntOrZero(s: string): (r: int)
    ensures IntMin <= r <= IntMax
    ensures s == [] ==> r == 0
    ensures AllDigits(s) && |s| <= 9 ==> r == DecimalValue(s)
  {
    var v := ParseInteger(s, IntMin, IntMax).OrElse(0);
    if AllDigits(s) && |s| <= 9 then
      assert Pow10(9) == 1_000_000_000;
      ShortDigitsParse(s, 9, IntMin, IntMax);
      v
    else v
  }

  /** `s.toLongOrNull() ?: 0L`. */
  function LongOrZero(s: string): (r: int)
    ensures LongMin <= r <= LongMax
    ensures s == [] ==> r == 0
    ensures AllDigits(s) && |s| <= 16 ==> r == DecimalValue(s)
  {
    var v := ParseInteger(s, LongMin, LongMax).OrElse(0);
    if AllDigits(s) && |s| <= 16 then
      assert Pow10(4) == 10_000;
      assert Pow10(8) == 100_000_000;
      assert Pow10(12) == 1_000_000_000_000;
      assert Pow10(16) == 10_000_000_000_000_000;
      ShortDigitsParse(s, 16, LongMin, LongMax);
      v
    else v
  }

  /** A digit string of at most `n` characters parses to its value when 10^n - 1 fits the range. */
  lemma ShortDigitsParse(s: string, n: nat, lo: int, hi: int)
    requires AllDigits(s) && |s| <= n && Pow10(n) <= hi + 1 && lo <= 0
    ensures ParseInteger(s, lo, hi).OrElse(0) == DecimalValue(s)
  {
    Pow10Monotone(|s|, n);
  }

  lemma {:induction false} Pow10Monotone(a: nat, b: nat)
    requires a <= b
    ensures Pow10(a) <= Pow10(b)
    decreases b
  {
    if a < b {
      Pow10Monotone(a, b - 1);
    }
  }

  // ---- case-insensitive comparison (ASCII letters) ----

  function UpperAscii(c: char): char {
    if 'a' <= c <= 'z' then (c as int - 32) as char else c
  }

  function LowerAscii(c: char): char {
    if 'A' <= c <= 'Z' then (c as int + 32) as char else c
  }

  /** Kotlin's `Char.equals(other, ignoreCase = true)`: equal after upper-casing, or after upper- then lower-casing. */
  predicate CharEqualsIgnoreCase(a: char, b: char) {
    a == b || UpperAscii(a) == UpperAscii(b) || LowerAscii(UpperAscii(a)) == LowerAscii(UpperAscii(b))
  }

  /** Kotlin's `String.equals(other, ignoreCase = true)`. */
  function EqualsIgnoreCase(a: string, b: string): (r: bool)
    ensures a == b ==> r
    ensures r ==> |a| == |b| && AllDigits(a) == AllDigits(b)
  {
    |a| == |b| && forall i :: 0 <= i < |a| ==> CharEqualsIgnoreCase(a[i], b[i])
  }

  function Lowercase(s: string): (r: string)
    ensures |r| == |s|
    ensures forall i :: 0 <= i < |s| ==> r[i] == LowerAscii(s[i])
  {
    if s == [] then [] else [LowerAscii(s[0])] + Lowercase(s[1..])
  }

  lemma CharEqualsIgnoreCaseIsLowerEquality(a: char, b: char)
    ensures CharEqualsIgnoreCase(a, b) <==> LowerAscii(a) == LowerAscii(b)
  {
  }

  /** Case-insensitive equality is equality of the lower-cased strings. */
  lemma EqualsIgnoreCaseIsLowercaseEquality(a: string, b: string)
    ensures EqualsIgnoreCase(a, b) <==> Lowercase(a) == Lowercase(b)
  {
    if Lowercase(a) == Lowercase(b) {
      forall i | 0 <= i < |a| ensures CharEqualsIgnoreCase(a[i], b[i]) {
        assert Lowercase(a)[i] == Lowercase(b)[i];
        CharEqualsIgnoreCaseIsLowerEquality(a[i], b[i]);
      }
    }
    if EqualsIgnoreCase(a, b) {
      forall i | 0 <= i < |a| ensures Lowercase(a)[i] == Lowercase(b)[i] {
        CharEqualsIgnoreCaseIsLowerEquality(a[i], b[i]);
      }
    }
  }

  // ---- Kotlin's isBlank ----

  /** Kotlin's `Char.isWhitespace()` on the JVM: `Character.isWhitespace(c) || Character.isSpaceChar(c)`. */
  function IsWhitespace(c: char): (r: bool)
    ensures c == ' ' || c == '\t' || c == '\n' ==> r
    ensures r ==> !IsDigit(c) && !('A' <= c <= 'Z') && !('a' <= c <= 'z')
  {
    || '\U{0009}' <= c <= '\U{000D}'
    || '\U{001C}' <= c <= '\U{0020}'
    || c == '\U{00A0}' || c == '\U{1680}'
    || '\U{2000}' <= c <= '\U{200A}'
    || c == '\U{2028}' || c == '\U{2029}' || c == '\U{202F}' || c == '\U{205F}' || c == '\U{3000}'
  }

  /** `isNullOrBlank()`: absent, empty, or whitespace only. */
  function IsNullOrBlank(s: Option<string>): (r: bool)
    ensures s.None? || s == Some("") ==> r
    ensures s.Some? && (exists i :: 0 <= i < |s.value| && IsDigit(s.value[i])) ==> !r
  {
    s.None? || forall i :: 0 <= i < |s.value| ==> IsWhitespace(s.value[i])
  }

  /** Kotlin's string interpolation of a nullable string: `"$x"` prints `null` for null. */
  function Interpolate(s: Option<string>): string {
    s.OrElse("null")
  }
}
