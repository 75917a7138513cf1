/**
 Go's `time.Duration` is a signed count of nanoseconds. This module fixes the
 units the load tester relies on and Go's integer division, which truncates
 toward zero (Dafny's `/` on `int` is Euclidean instead).
 */
module Durations {

  const Nanosecond: int := 1
  const Microsecond: int := 1000 * Nanosecond
  const Millisecond: int := 1000 * Microsecond
  const Second: int := 1000 * Millisecond
  /** `time.Minute`, the receiver's starting value for the shortest latency */
  const Minute: int := 60 * Second

  /**
   Go's `a / b` on signed integers for a positive divisor: the exact quotient
   rounded toward zero, so `q * b` lies between zero and `a`, less than one
   divisor away from `a`.
   */
  function TruncDiv(a: int, b: int): (q: int)
    requires b > 0
    ensures a >= 0 ==> 0 <= q * b <= a < q * b + b
    ensures a < 0 ==> q * b - b < a <= q * b <= 0
  {
    if a >= 0 then
      DivBounds(a, b);
      a / b
    else
      var m := (-a) / b;
      DivBounds(-a, b);
      assert (-m) * b == -(m * b);
      -m
  }

  lemma DivBounds(n: int, b: int)
    requires n >= 0 && b > 0
    ensures 0 <= (n / b) * b <= n < (n / b) * b + b
  {
    var q, r := n / b, n % b;
    assert n == q * b + r && 0 <= r < b;
    assert q * b >= 0;
  }

  lemma MulCancelLe(x: int, y: int, b: int)
    requires b > 0 && x * b <= y * b
    ensures x <= y
  {
  }

  lemma MulCancelLt(x: int, y: int, b: int)
    requires b > 0 && x * b < y * b
    ensures x < y
  {
  }

  lemma MulSucc(x: int, b: int)
    ensures (x + 1) * b == x * b + b
  {
  }

  /**
   Rounding toward zero never leaves an integer interval that holds the exact
   quotient: `lo * b <= a <= hi * b` gives `lo <= a / b <= hi` in Go.
   */
  lemma TruncDivBetween(a: int, b: int, lo: int, hi: int)
    requires b > 0
    requires lo * b <= a <= hi * b
    ensures lo <= TruncDiv(a, b) <= hi
  {
    var q := TruncDiv(a, b);
    if a >= 0 {
      MulCancelLe(q, hi, b);
      MulSucc(q, b);
      MulCancelLt(lo, q + 1, b);
    } else {
      MulCancelLe(lo, q, b);
      MulSucc(q - 1, b);
      MulCancelLt(q - 1, hi, b);
    }
  }
}
