/**
 * The two text conversions every ledger value goes through: `sprintf("%f")`
 * when a `double` is stored in a map or a store record, and `atof` when it
 * is read back. Values are exact reals here; `%f` keeps six decimals, and
 * the lemmas below say exactly what survives a write followed by a read.
 */
module Formats {
  import opened Basics

  function Pow10(n: nat): (p: nat)
    ensures p > 0
  {
    if n == 0 then 1 else 10 * Pow10(n - 1)
  }

  const Scale: nat := 1000000

  function Abs(x: real): (a: real)
    ensures a >= 0.0 && (a == x || a == -x)
  {
    if x < 0.0 then -x else x
  }

  /** The magnitude of `x` in millionths, rounded to nearest (halves away from zero). */
  function Scaled(x: real): nat {
    (Abs(x) * Scale as real + 0.5).Floor as nat
  }

  /** The value `%f` keeps of `x`: `x` rounded to six decimals. */
  function Round6(x: real): real {
    var r := Scaled(x) as real / Scale as real;
    if x < 0.0 then -r else r
  }

  /** `s` left-padded with '0' to at least `w` characters. */
  function ZeroPad(s: string, w: nat): (t: string)
    ensures |t| == if |s| < w then w else |s|
  {
    if |s| < w then seq(w - |s|, _ => '0') + s else s
  }

  /** `sprintf("%f", x)`: optional '-', the integer part, '.', exactly six decimals. */
  function FormatFixed(x: real): string {
    var m := Scaled(x);
    var body := NatToString(m / Scale) + "." + ZeroPad(NatToString(m % Scale), 6);
    if x < 0.0 then "-" + body else body
  }

  /** Value of an unsigned decimal `ddd[.ddd]` prefix of `s`, as `atof` reads it. */
  function UnsignedDecimal(s: string): real {
    var n := DigitPrefixLength(s);
    DigitPrefixAllDigits(s);
    var whole := DigitsValue(s[..n]) as real;
    if n < |s| && s[n] == '.' then
      var f := s[n + 1..];
      var k := DigitPrefixLength(f);
      DigitPrefixAllDigits(f);
      whole + DigitsValue(f[..k]) as real / Pow10(k) as real
    else
      whole
  }

  /** `atof` on the fixed-point texts the tracer writes: optional sign, then a decimal. */
  function Atof(s: string): real {
    if |s| > 0 && s[0] == '-' then -UnsignedDecimal(s[1..])
    else if |s| > 0 && s[0] == '+' then UnsignedDecimal(s[1..])
    else UnsignedDecimal(s)
  }

  lemma {:induction false} ScaledBounds(x: real)
    ensures Scaled(x) as real <= Abs(x) * Scale as real + 0.5 < Scaled(x) as real + 1.0
  {
  }

  /** `%f` moves a value by at most half a millionth. */
  lemma {:induction false} Round6Error(x: real)
    ensures Abs(Round6(x) - x) <= 0.5 / Scale as real
  {
    ScaledBounds(x);
  }

  /** A whole number survives `%f` unchanged (every counter-valued ledger entry is one). */
  lemma {:induction false} Round6Whole(k: int)
    ensures Round6(k as real) == k as real
  {
    var a: int := if k < 0 then -k else k;
    assert Abs(k as real) == a as real;
    ScaledBounds(k as real);
    assert Scaled(k as real) == a * Scale;
  }

  lemma {:induction false} DigitsValueAppend(a: string, b: string)
    requires AllDigits(a) && AllDigits(b)
    ensures AllDigits(a + b)
    ensures DigitsValue(a + b) == DigitsValue(a) * Pow10(|b|) + DigitsValue(b)
    decreases |b|
  {
    if b != [] {
      var b' := b[..|b| - 1];
      var d := DigitValue(b[|b| - 1]);
      assert (a + b)[..|a + b| - 1] == a + b';
      DigitsValueAppend(a, b');
      var x, y := DigitsValue(a), DigitsValue(b');
      calc {
        DigitsValue(a + b);
        DigitsValue(a + b') * 10 + d;
        (x * Pow10(|b'|) + y) * 10 + d;
        { MulDistributes(x * Pow10(|b'|), y, 10); }
        x * Pow10(|b'|) * 10 + y * 10 + d;
        { MulAssociates(x, Pow10(|b'|), 10); }
        x * Pow10(|b|) + DigitsValue(b);
      }
    } else {
      assert a + b == a;
    }
  }

  lemma {:induction false} MulDistributes(x: int, y: int, z: int)
    ensures (x + y) * z == x * z + y * z
  {
  }

  lemma {:induction false} MulAssociates(x: int, y: int, z: int)
    ensures x * y * z == x * (z * y)
  {
  }

  lemma {:induction false} ZerosValue(n: nat)
    ensures AllDigits(seq(n, _ => '0')) && DigitsValue(seq(n, _ => '0')) == 0
  {
    if n > 0 {
      assert seq(n, _ => '0')[..n - 1] == seq(n - 1, _ => '0');
      ZerosValue(n - 1);
    }
  }

  lemma {:induction false} ZeroPadValue(s: string, w: nat)
    requires AllDigits(s)
    ensures AllDigits(ZeroPad(s, w)) && DigitsValue(ZeroPad(s, w)) == DigitsValue(s)
  {
    if |s| < w {
      ZerosValue(w - |s|);
      DigitsValueAppend(seq(w - |s|, _ => '0'), s);
    }
  }

  lemma {:induction false} DigitPrefixStopsAt(a: string, b: string)
    requires AllDigits(a) && b != [] && !IsDigit(b[0])
    ensures DigitPrefixLength(a + b) == |a|
  {
    if a != [] {
      assert (a + b)[1..] == a[1..] + b;
      DigitPrefixStopsAt(a[1..], b);
    }
  }

  /** The digits a NatToString of at most `Pow10(w)` writes fit in `w` padded places. */
  lemma {:induction false} NatToStringShort(n: nat, w: nat)
    requires n < Pow10(w)
    ensures |NatToString(n)| <= w || (w == 0 && n == 0)
  {
    if n >= 10 {
      NatToStringShort(n / 10, w - 1);
    }
  }

  /** Reading the unsigned part of a `%f` text gives back the scaled value. */
  lemma {:induction false} UnsignedOfFixed(m: nat)
    ensures UnsignedDecimal(NatToString(m / Scale) + "." + ZeroPad(NatToString(m % Scale), 6))
            == m as real / Scale as real
  {
    FixedParts(m / Scale, m % Scale);
    ScaledSplit(m);
  }

  /** The text `q.rrrrrr` reads back as `q` plus `r` millionths. */
  lemma {:induction false} FixedParts(q: nat, r: nat)
    requires r < Scale
    ensures UnsignedDecimal(NatToString(q) + "." + ZeroPad(NatToString(r), 6)) == q as real + r as real / Scale as real
  {
    var w := NatToString(q);
    var p := ZeroPad(NatToString(r), 6);
    var s := w + "." + p;
    NatToStringDigits(q);
    NatToStringDigits(r);
    ZeroPadValue(NatToString(r), 6);
    assert Pow10(6) == Scale;
    NatToStringShort(r, 6);
    assert |p| == 6;
    DigitPrefixStopsAt(w, "." + p);
    assert s == w + ("." + p);
    assert s[..|w|] == w;
    assert s[|w|] == '.';
    assert s[|w| + 1..] == p;
    DigitPrefixOfDigits(p);
    assert p[..6] == p;
  }

  /** `m / 10^6` as a real is its whole part plus its remainder in millionths. */
  lemma ScaledSplit(m: nat)
    ensures m as real / Scale as real == (m / Scale) as real + (m % Scale) as real / Scale as real
  {
    var q, r := m / Scale, m % Scale;
    assert m == q * Scale + r;
    assert m as real == q as real * Scale as real + r as real;
  }

  /** `atof` of what `%f` wrote is the value rounded to six decimals. */
  lemma {:induction false} AtofFormatFixed(x: real)
    ensures Atof(FormatFixed(x)) == Round6(x)
  {
    var m := Scaled(x);
    var body := NatToString(m / Scale) + "." + ZeroPad(NatToString(m % Scale), 6);
    UnsignedOfFixed(m);
    NatToStringDigits(m / Scale);
    if x < 0.0 {
      assert FormatFixed(x) == "-" + body;
      assert ("-" + body)[1..] == body;
    } else {
      assert FormatFixed(x) == body;
      assert body[0] != '-' && body[0] != '+';
    }
  }

  /** A `%f` text is never empty and never contains the '+' separator of records. */
  lemma {:induction false} FormatFixedAlphabet(x: real)
    ensures |FormatFixed(x)| > 0
    ensures forall k :: 0 <= k < |FormatFixed(x)| ==> FormatFixed(x)[k] != '+'
  {
    var m := Scaled(x);
    var w := NatToString(m / Scale);
    var p := ZeroPad(NatToString(m % Scale), 6);
    NatToStringDigits(m / Scale);
    NatToStringDigits(m % Scale);
    ZeroPadValue(NatToString(m % Scale), 6);
    var body := w + "." + p;
    assert forall k :: 0 <= k < |body| ==> IsDigit(body[k]) || body[k] == '.';
  }
}
