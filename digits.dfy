/** Decimal rendering of non-negative integers as JavaScript's `String(n)` and
    `padStart` produce it, the winner format built on them, and the shape of a
    payment reference. */
module Digits {

  function Pow10(k: nat): (r: nat)
    ensures r >= 1
  {
    if k == 0 then 1 else 10 * Pow10(k - 1)
  }

  /** 10^10: the exclusive upper bound of `crypto.randomInt(0, 10000000000)`. */
  const WinnerBound: nat := 10000000000
  const WinnerLength: nat := 10

  predicate IsDigit(c: char) {
    '0' <= c <= '9'
  }

  predicate AllDigits(s: string) {
    forall i :: 0 <= i < |s| ==> IsDigit(s[i])
  }

  function DigitChar(d: nat): (c: char)
    requires d < 10
    ensures IsDigit(c)
  {
    ('0' as int + d) as char
  }

  function DigitValue(c: char): (d: nat)
    requires IsDigit(c)
    ensures d < 10 && DigitChar(d) == c
  {
    (c as int - '0' as int) as nat
  }

  /** The number a string of decimal digits denotes, most significant digit first. */
  function Value(s: string): (v: nat)
    requires AllDigits(s)
  {
    if s == [] then 0 else Value(s[..|s| - 1]) * 10 + DigitValue(s[|s| - 1])
  }

  /** A string of k digits denotes a number below 10^k. */
  lemma {:induction false} ValueBound(s: string)
    requires AllDigits(s)
    ensures Value(s) < Pow10(|s|)
  {
    if s != [] {
      ValueBound(s[..|s| - 1]);
    }
  }

  /** `String(n)` for a non-negative integer: its shortest decimal form. JavaScript
      switches to exponent notation from 10^21 on; the clock readings, draws and
      random parts the server formats are far below that. */
  function DecimalString(n: nat): (s: string)
    ensures |s| >= 1 && AllDigits(s)
    ensures n > 0 ==> s[0] != '0'
  {
    if n < 10 then [DigitChar(n)] else DecimalString(n / 10) + [DigitChar(n % 10)]
  }

  /** `String(n)` denotes `n`. */
  lemma {:induction false} DecimalStringValue(n: nat)
    ensures Value(DecimalString(n)) == n
  {
    if n >= 10 {
      DecimalStringValue(n / 10);
      var t := DecimalString(n);
      assert t[..|t| - 1] == DecimalString(n / 10);
    }
  }

  function Repeat(c: char, k: nat): (r: string)
    ensures |r| == k
    ensures forall i :: 0 <= i < k ==> r[i] == c
  {
    if k == 0 then [] else [c] + Repeat(c, k - 1)
  }

  /** `s.padStart(len, c)`: prefix copies of `c` up to length `len`; a string
      already that long is returned as it is. */
  function PadStart(s: string, len: nat, c: char): (r: string)
    ensures |r| == if |s| >= len then |s| else len
    ensures r[|r| - |s|..] == s
    ensures forall i :: 0 <= i < |r| - |s| ==> r[i] == c
  {
    if len <= |s| then s else Repeat(c, len - |s|) + s
  }

  /** `String(n).padStart(10, '0')`, the winner that `generate10Digit` returns
      for the random draw `n`: always ten decimal digits. */
  function Generate10Digit(n: nat): (w: string)
    requires n < WinnerBound
    ensures |w| == WinnerLength && AllDigits(w)
  {
    WinnerBoundIsPow10();
    DecimalStringLength(n, WinnerLength);
    ZeroPadValue(DecimalString(n), WinnerLength);
    PadStart(DecimalString(n), WinnerLength, '0')
  }

  /** The winner's decimal value is the draw it came from. */
  lemma Generate10DigitValue(n: nat)
    requires n < WinnerBound
    ensures Value(Generate10Digit(n)) == n
  {
    WinnerBoundIsPow10();
    DecimalStringValue(n);
    DecimalStringLength(n, WinnerLength);
    ZeroPadValue(DecimalString(n), WinnerLength);
  }

  lemma WinnerBoundIsPow10()
    ensures Pow10(WinnerLength) == WinnerBound
  {
  }

  /** Zero-padding a digit string to a length it does not exceed keeps it a
      digit string of that length with the same value. */
  lemma ZeroPadValue(s: string, k: nat)
    requires AllDigits(s) && |s| <= k
    ensures |PadStart(s, k, '0')| == k && AllDigits(PadStart(s, k, '0'))
    ensures Value(PadStart(s, k, '0')) == Value(s)
  {
    assert PadStart(s, k, '0') == Repeat('0', k - |s|) + s;
    ZerosValue(k - |s|, s);
  }

  /** A number below 10^k has at most k decimal digits. */
  lemma {:induction false} DecimalStringLength(n: nat, k: nat)
    requires k >= 1 && n < Pow10(k)
    ensures |DecimalString(n)| <= k
  {
    if n >= 10 {
      assert k >= 2;
      DecimalStringLength(n / 10, k - 1);
    }
  }

  /** Leading zeros do not change the value of a digit string. */
  lemma {:induction false} ZerosValue(k: nat, s: string)
    requires AllDigits(s)
    ensures AllDigits(Repeat('0', k) + s)
    ensures Value(Repeat('0', k) + s) == Value(s)
    decreases |s|, k
  {
    var z := Repeat('0', k);
    if s == [] {
      assert z + s == z;
      if k > 0 {
        assert z[..k - 1] == Repeat('0', k - 1);
        ZerosValue(k - 1, []);
        assert Repeat('0', k - 1) + [] == Repeat('0', k - 1);
      }
    } else {
      var u := s[..|s| - 1];
      ZerosValue(k, u);
      assert (z + s)[..|z + s| - 1] == z + u;
    }
  }

  /** A digit string whose value is zero consists of zeros only. */
  lemma {:induction false} ZeroValueIsZeros(s: string)
    requires AllDigits(s) && Value(s) == 0
    ensures s == Repeat('0', |s|)
  {
    if s != [] {
      var u := s[..|s| - 1];
      ZeroValueIsZeros(u);
      assert DigitValue(s[|s| - 1]) == 0;
      assert s == u + [s[|s| - 1]];
      RepeatSnoc(|u|);
    }
  }

  lemma {:induction false} RepeatSnoc(k: nat)
    ensures Repeat('0', k) + ['0'] == Repeat('0', k + 1)
  {
    if k > 0 {
      RepeatSnoc(k - 1);
      assert Repeat('0', k) + ['0'] == ['0'] + (Repeat('0', k - 1) + ['0']);
    }
  }

  /** Appending a digit to a positive number's shortest form appends it to the string. */
  lemma DecimalStringSnoc(v: nat, d: nat, n: nat)
    requires v > 0 && d < 10 && n == v * 10 + d
    ensures DecimalString(n) == DecimalString(v) + [DigitChar(d)]
  {
    assert n / 10 == v && n % 10 == d;
  }

  lemma PadSnoc(t: string, k: nat, c: char)
    requires |t| <= k
    ensures PadStart(t + [c], k + 1, '0') == PadStart(t, k, '0') + [c]
  {
    assert PadStart(t + [c], k + 1, '0') == Repeat('0', k - |t|) + (t + [c]);
  }

  lemma ValueSnoc(u: string, c: char)
    requires AllDigits(u) && IsDigit(c)
    ensures AllDigits(u + [c])
    ensures Value(u + [c]) == Value(u) * 10 + DigitValue(c)
  {
    assert (u + [c])[..|u|] == u;
  }

  /** A number below ten is written as one digit. */
  lemma SingleDigit(d: nat)
    requires d < 10
    ensures DecimalString(d) == [DigitChar(d)]
  {
  }

  lemma PadSingle(k: nat, c: char)
    ensures PadStart([c], k + 1, '0') == Repeat('0', k) + [c]
  {
  }

  /** A single digit after zeros only: padding its value gives the string back. */
  lemma PadDigit(u: string, c: char)
    requires AllDigits(u) && Value(u) == 0 && IsDigit(c)
    ensures AllDigits(u + [c])
    ensures PadStart(DecimalString(Value(u + [c])), |u| + 1, '0') == u + [c]
  {
    ValueSnoc(u, c);
    var d := DigitValue(c);
    var n := Value(u + [c]);
    assert n == d;
    SingleDigit(d);
    ZeroValueIsZeros(u);
    PadSingle(|u|, c);
  }

  /** A digit after a string of positive value: the step of the induction. */
  lemma PadDigitAfter(u: string, c: char)
    requires AllDigits(u) && Value(u) > 0 && IsDigit(c)
    requires PadStart(DecimalString(Value(u)), |u|, '0') == u
    ensures AllDigits(u + [c])
    ensures PadStart(DecimalString(Value(u + [c])), |u| + 1, '0') == u + [c]
  {
    var v, d, t := Value(u), DigitValue(c), DecimalString(Value(u));
    ValueSnoc(u, c);
    var n := Value(u + [c]);
    DecimalStringSnoc(v, d, n);
    assert DigitChar(d) == c;
    assert DecimalString(n) == t + [c];
    assert |t| <= |u|;
    PadSnoc(t, |u|, c);
  }

  /** Padding the shortest form of a digit string's value back to the string's
      own length gives the string again. */
  lemma {:induction false} PadDecimalValue(s: string)
    requires AllDigits(s) && |s| >= 1
    ensures PadStart(DecimalString(Value(s)), |s|, '0') == s
    decreases |s|
  {
    var u := s[..|s| - 1];
    var c := s[|s| - 1];
    assert s == u + [c];
    if Value(u) == 0 {
      PadDigit(u, c);
    } else {
      PadDecimalValue(u);
      PadDigitAfter(u, c);
    }
  }

  /** Every 10-digit string is the winner for exactly one draw: `generate10Digit`
      maps [0, 10^10) one-to-one onto the 10-digit strings. */
  lemma Generate10DigitOnto(w: string)
    requires |w| == WinnerLength && AllDigits(w)
    ensures Value(w) < WinnerBound
    ensures Generate10Digit(Value(w)) == w
  {
    WinnerBoundIsPow10();
    ValueBound(w);
    PadDecimalValue(w);
  }

  /** The reference `'ankwata_' + Date.now() + '_' + Math.floor(Math.random()*1000)`,
      from the clock reading `refTime` and the random draw `rand`. */
  function TxRef(refTime: nat, rand: nat): (t: string)
    ensures |t| >= 11 && t[..8] == "ankwata_"
  {
    "ankwata_" + DecimalString(refTime) + "_" + DecimalString(rand)
  }

  lemma SeparatorAt(x: string, y: string)
    ensures (x + "_" + y)[|x|] == '_'
  {
  }

  /** A digit string followed by `_` is recovered from the concatenation. */
  lemma SplitAtSeparator(x: string, y: string, x': string, y': string)
    requires AllDigits(x) && AllDigits(x')
    requires x + "_" + y == x' + "_" + y'
    ensures x == x' && y == y'
  {
    var l := x + "_" + y;
    if |x| < |x'| {
      SeparatorAt(x, y);
      assert false;
    } else if |x'| < |x| {
      SeparatorAt(x', y');
      assert false;
    }
    assert x == l[..|x|] == x';
    assert y == l[|x| + 1..] == y';
  }

  /** Distinct numbers have distinct decimal forms. */
  lemma DecimalStringInjective(a: nat, c: nat)
    ensures DecimalString(a) == DecimalString(c) ==> a == c
  {
    DecimalStringValue(a);
    DecimalStringValue(c);
  }

  lemma DropPrefix(p: string, l: string, r: string)
    requires p + l == p + r
    ensures l == r
  {
    assert l == (p + l)[|p|..];
    assert r == (p + r)[|p|..];
  }

  /** Two references are equal exactly when they come from the same clock
      reading and the same random draw. */
  lemma TxRefInjective(a: nat, b: nat, c: nat, d: nat)
    ensures TxRef(a, b) == TxRef(c, d) <==> a == c && b == d
  {
    if TxRef(a, b) == TxRef(c, d) {
      var x, y := DecimalString(a), DecimalString(b);
      var x', y' := DecimalString(c), DecimalString(d);
      assert TxRef(a, b) == "ankwata_" + (x + "_" + y);
      assert TxRef(c, d) == "ankwata_" + (x' + "_" + y');
      DropPrefix("ankwata_", x + "_" + y, x' + "_" + y');
      SplitAtSeparator(x, y, x', y');
      DecimalStringInjective(a, c);
      DecimalStringInjective(b, d);
    }
  }
}
