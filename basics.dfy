/**
 * Small shared vocabulary of the vulnerability tracer: the optional-value
 * wrapper, C-string helpers (decimal and hexadecimal formatting as done by
 * `sprintf("%d")` / `sprintf("%llx")`, `atoi`-style parsing, `strtok_r`
 * tokenising) and the engine-wide constants.
 */
module Basics {

  /** Number of tracked hardware threads (MAX_THREADS). */
  const MaxThreads: nat := 8

  /** Threshold of remote events before indirect propagation (REMOTE_THRESHOLD). */
  const RemoteThreshold: real := 100.0

  /** Decay applied to an indirect fan edge (PWEIGHT). */
  const PropagationWeight: real := 0.8

  datatype Option<+T> = None | Some(value: T) {
    function GetOr(default: T): T {
      match this
      case Some(v) => v
      case None => default
    }
  }

  /** A triple of per-resource-class quantities: ALU, register, memory. */
  datatype Triple = Triple(alu: real, reg: real, mem: real) {
    function Plus(o: Triple): Triple {
      Triple(alu + o.alu, reg + o.reg, mem + o.mem)
    }
  }

  const Zero: Triple := Triple(0.0, 0.0, 0.0)

  predicate IsDigit(c: char) {
    '0' <= c <= '9'
  }

  function DigitChar(d: nat): (c: char)
    requires d < 10
    ensures IsDigit(c)
  {
    ['0', '1', '2', '3', '4', '5', '6', '7', '8', '9'][d]
  }

  function DigitValue(c: char): (d: nat)
    requires IsDigit(c)
    ensures d < 10
  {
    (c as int) - ('0' as int)
  }

  predicate AllDigits(s: string) {
    forall i :: 0 <= i < |s| ==> IsDigit(s[i])
  }

  /** Decimal rendering of a natural number, without leading zeros. */
  function NatToString(n: nat): (s: string)
    decreases n
  {
    if n < 10 then [DigitChar(n)] else NatToString(n / 10) + [DigitChar(n % 10)]
  }

  /** `sprintf("%d")` / `sprintf("%lld")`. */
  function IntToString(i: int): string {
    if i < 0 then "-" + NatToString(-i) else NatToString(i)
  }

  function HexDigit(d: nat): char
    requires d < 16
  {
    "0123456789abcdef"[d]
  }

  /** `sprintf("%llx")`: lower-case hexadecimal without leading zeros. */
  function HexString(n: nat): string
    decreases n
  {
    if n < 16 then [HexDigit(n)] else HexString(n / 16) + [HexDigit(n % 16)]
  }

  /** Value of a string made only of decimal digits. */
  function DigitsValue(s: string): nat
    requires AllDigits(s)
  {
    if s == [] then 0 else DigitsValue(s[..|s| - 1]) * 10 + DigitValue(s[|s| - 1])
  }

  /** Length of the longest prefix of `s` made of decimal digits. */
  function DigitPrefixLength(s: string): (n: nat)
    ensures n <= |s|
  {
    if s == [] || !IsDigit(s[0]) then 0 else 1 + DigitPrefixLength(s[1..])
  }

  /** `atoi` / `atoll` on unbounded integers: optional sign, then the leading digits. */
  function Atoi(s: string): int {
    if |s| > 0 && (s[0] == '-' || s[0] == '+') then
      var n := DigitPrefixLength(s[1..]);
      DigitPrefixAllDigits(s[1..]);
      var v: int := DigitsValue(s[1..][..n]);
      if s[0] == '-' then -v else v
    else
      var n := DigitPrefixLength(s);
      DigitPrefixAllDigits(s);
      DigitsValue(s[..n])
  }

  lemma {:induction false} DigitPrefixAllDigits(s: string)
    ensures AllDigits(s[..DigitPrefixLength(s)])
  {
    if s != [] && IsDigit(s[0]) {
      DigitPrefixAllDigits(s[1..]);
      assert s[..DigitPrefixLength(s)] == [s[0]] + s[1..][..DigitPrefixLength(s[1..])];
    }
  }

  lemma {:induction false} DigitPrefixOfDigits(s: string)
    requires AllDigits(s)
    ensures DigitPrefixLength(s) == |s|
  {
    if s != [] {
      DigitPrefixOfDigits(s[1..]);
    }
  }

  lemma {:induction false} NatToStringDigits(n: nat)
    ensures |NatToString(n)| > 0 && AllDigits(NatToString(n))
    ensures DigitsValue(NatToString(n)) == n
    decreases n
  {
    if n >= 10 {
      NatToStringDigits(n / 10);
      var s := NatToString(n);
      assert s[..|s| - 1] == NatToString(n / 10);
    }
  }

  /** `atoi` reads back exactly what `%d` wrote. */
  lemma {:induction false} AtoiIntToString(i: int)
    ensures Atoi(IntToString(i)) == i
  {
    if i < 0 {
      NatToStringDigits(-i);
      var s := IntToString(i);
      assert s[1..] == NatToString(-i);
      DigitPrefixOfDigits(s[1..]);
      assert s[1..][..|s[1..]|] == s[1..];
    } else {
      NatToStringDigits(i);
      var s := IntToString(i);
      DigitPrefixOfDigits(s);
      assert s[..|s|] == s;
    }
  }

  /** Decimal renderings never contain a character other than digits and '-'. */
  lemma {:induction false} IntToStringAlphabet(i: int)
    ensures |IntToString(i)| > 0
    ensures forall k :: 0 <= k < |IntToString(i)| ==> IsDigit(IntToString(i)[k]) || IntToString(i)[k] == '-'
  {
    if i < 0 { NatToStringDigits(-i); } else { NatToStringDigits(i); }
  }

  /** Drops the leading characters that belong to `delims`. */
  function SkipDelims(s: string, delims: set<char>): (t: string)
    ensures |t| <= |s| && t == s[|s| - |t|..]
    ensures t != [] ==> t[0] !in delims
  {
    if s != [] && s[0] in delims then SkipDelims(s[1..], delims) else s
  }

  /** Index of the first character of `s` that is in `delims`, or |s|. */
  function FirstDelim(s: string, delims: set<char>): (i: nat)
    ensures i <= |s|
    ensures forall k :: 0 <= k < i ==> s[k] !in delims
    ensures i < |s| ==> s[i] in delims
  {
    if s == [] then 0 else if s[0] in delims then 0 else 1 + FirstDelim(s[1..], delims)
  }

  /**
   * `strtok_r`: skips leading delimiters, returns the next token (None when
   * only delimiters are left) and the text after the delimiter that ends it.
   */
  function StrTok(s: string, delims: set<char>): (r: (Option<string>, string))
    ensures r.0.Some? ==> |r.0.value| > 0 && forall k :: 0 <= k < |r.0.value| ==> r.0.value[k] !in delims
    ensures |r.1| < |s| || (r.1 == [] && r.0.None?)
  {
    var t := SkipDelims(s, delims);
    if t == [] then (None, [])
    else
      var i := FirstDelim(t, delims);
      (Some(t[..i]), if i < |t| then t[i + 1..] else [])
  }
}
