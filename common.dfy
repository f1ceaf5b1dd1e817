/** Shared value types and small helpers used by every stage of the trading pipeline. */
module Common {

  datatype Option<T> = None | Some(value: T)

  /** The value of an operation that may raise: a Python exception becomes Err(message). */
  datatype Result<T> = Ok(value: T) | Err(message: string)

  /** An operation with no value that may raise. */
  datatype Outcome = Pass | Fail(message: string)

  function Max(a: int, b: int): int { if a < b then b else a }

  function Min(a: int, b: int): int { if a < b then a else b }

  /** Python's `sum` over a list of floats. */
  function Sum(xs: seq<real>): real
  {
    if xs == [] then 0.0 else xs[0] + Sum(xs[1..])
  }

  lemma {:induction false} SumAppend(xs: seq<real>, ys: seq<real>)
    ensures Sum(xs + ys) == Sum(xs) + Sum(ys)
  {
    if xs != [] {
      assert (xs + ys)[1..] == xs[1..] + ys;
      SumAppend(xs[1..], ys);
    } else {
      assert xs + ys == ys;
    }
  }

  /** A sum of values between lo and hi lies between |xs|*lo and |xs|*hi. */
  lemma {:induction false} SumBounds(xs: seq<real>, lo: real, hi: real)
    requires forall i :: 0 <= i < |xs| ==> lo <= xs[i] <= hi
    ensures |xs| as real * lo <= Sum(xs) <= |xs| as real * hi
  {
    if xs != [] {
      SumBounds(xs[1..], lo, hi);
    }
  }

  /** A non-empty sum of strictly positive values is strictly positive. */
  lemma {:induction false} SumPositive(xs: seq<real>)
    requires |xs| > 0
    requires forall i :: 0 <= i < |xs| ==> xs[i] > 0.0
    ensures Sum(xs) > 0.0
  {
    if |xs| > 1 {
      SumPositive(xs[1..]);
    } else {
      assert xs[1..] == [];
    }
  }

  /** A sum of non-negative values is non-negative. */
  lemma {:induction false} SumNonNegative(xs: seq<real>)
    requires forall i :: 0 <= i < |xs| ==> xs[i] >= 0.0
    ensures Sum(xs) >= 0.0
  {
    if xs != [] {
      SumNonNegative(xs[1..]);
    }
  }

  /** The sum of the slice xs[from..to] of values between lo and hi lies between (to - from)*lo and (to - from)*hi. */
  lemma SliceSumBounds(xs: seq<real>, from: int, to: int, lo: real, hi: real)
    requires 0 <= from <= to <= |xs|
    requires forall k :: from <= k < to ==> lo <= xs[k] <= hi
    ensures (to - from) as real * lo <= Sum(xs[from..to]) <= (to - from) as real * hi
  {
    var s := xs[from..to];
    forall k | 0 <= k < |s| ensures lo <= s[k] <= hi {
      assert s[k] == xs[from + k];
    }
    SumBounds(s, lo, hi);
  }

  /** A mean r of n values whose total lies in [n * lo, n * hi] lies in [lo, hi]. */
  lemma MeanBounds(r: real, n: real, total: real, lo: real, hi: real)
    requires n > 0.0 && r * n == total && n * lo <= total <= n * hi
    ensures lo <= r <= hi
  {
    assert (r - lo) * n == total - n * lo;
    assert (hi - r) * n == n * hi - total;
    NonNegativeFactor(r - lo, n);
    NonNegativeFactor(hi - r, n);
  }

  /** A product with a positive factor is non-negative only when the other factor is. */
  lemma NonNegativeFactor(x: real, n: real)
    requires n > 0.0 && x * n >= 0.0
    ensures x >= 0.0
  {
  }

  predicate IsDigit(c: char) { '0' <= c <= '9' }

  function DigitChar(d: nat): (c: char)
    requires d < 10
    ensures IsDigit(c)
  {
    (48 + d) as char
  }

  function DigitValue(c: char): (d: nat)
    requires IsDigit(c)
    ensures d < 10 && DigitChar(d) == c
  {
    c as int - 48
  }

  /** Python's `str(n)` for a non-negative integer: decimal digits, no leading zeros. */
  function NatToString(n: nat): (s: string)
    ensures |s| > 0
    ensures forall i :: 0 <= i < |s| ==> IsDigit(s[i])
  {
    if n < 10 then [DigitChar(n)] else NatToString(n / 10) + [DigitChar(n % 10)]
  }

  /** The value of a string of decimal digits (the inverse of NatToString). */
  function DecimalValue(s: string): nat
    requires forall i :: 0 <= i < |s| ==> IsDigit(s[i])
  {
    if s == [] then 0 else DecimalValue(s[..|s| - 1]) * 10 + DigitValue(s[|s| - 1])
  }

  lemma {:induction false} NatToStringRoundTrip(n: nat)
    ensures DecimalValue(NatToString(n)) == n
  {
    var s := NatToString(n);
    if n >= 10 {
      NatToStringRoundTrip(n / 10);
      assert s[..|s| - 1] == NatToString(n / 10);
    }
  }

  /** Different numbers print differently. */
  lemma NatToStringInjective(m: nat, n: nat)
    requires m != n
    ensures NatToString(m) != NatToString(n)
  {
    NatToStringRoundTrip(m);
    NatToStringRoundTrip(n);
  }

  /**
   * Python's `f"{x:.2f}"`: the sign, the integer part and two decimals.
   * Rounding is to the nearest hundredth with halves rounded up.
   */
  function Fixed2(x: real): (s: string)
    ensures |s| >= 4 && s[|s| - 3] == '.'
    ensures IsDigit(s[|s| - 2]) && IsDigit(s[|s| - 1])
    ensures (s[0] == '-') <==> x < 0.0
  {
    var a := if x < 0.0 then -x else x;
    var cents := (a * 100.0 + 0.5).Floor;
    assert cents >= 0;
    var whole := NatToString(cents / 100);
    (if x < 0.0 then "-" else "") + whole + "." + [DigitChar(cents % 100 / 10), DigitChar(cents % 10)]
  }

  /** ASCII lower-casing, Python's `str.lower` on the status names. */
  function Lower(s: string): (r: string)
    ensures |r| == |s|
    ensures forall i :: 0 <= i < |s| ==> r[i] == if 'A' <= s[i] <= 'Z' then (s[i] as int + 32) as char else s[i]
  {
    if s == [] then [] else [if 'A' <= s[0] <= 'Z' then (s[0] as int + 32) as char else s[0]] + Lower(s[1..])
  }
}
