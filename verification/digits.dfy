/**
 * The decimal digit list of a non-negative integer, most significant digit
 * first, as `[int(d) for d in str(n)]` spells it.
 */
module DecimalDigits {

  /** 10 to the power n. */
  function Pow10(n: nat): (p: nat)
    ensures p >= 1
    ensures n >= 1 ==> p >= 10
  {
    if n == 0 then 1 else 10 * Pow10(n - 1)
  }

  /** The number a digit list denotes. */
  function Value(ds: seq<nat>): nat
  {
    if ds == [] then 0 else 10 * Value(ds[..|ds| - 1]) + ds[|ds| - 1]
  }

  /** The decimal digits of n; zero is the single digit 0. */
  function Digits(n: nat): (ds: seq<nat>)
    ensures 1 <= |ds|
    ensures forall i :: 0 <= i < |ds| ==> ds[i] < 10
    ensures ds[0] == 0 <==> n == 0
    ensures Value(ds) == n
    decreases n
  {
    if n < 10 then [n] else Digits(n / 10) + [n % 10]
  }

  /** n has exactly `len` digits exactly when it lies in [10^(len-1), 10^len - 1]
      (for one digit the lower bound is 0). */
  lemma {:induction false} DigitsLength(n: nat, len: nat)
    requires 1 <= len
    ensures |Digits(n)| == len <==> n < Pow10(len) && (len == 1 || Pow10(len - 1) <= n)
    decreases n
  {
    if n < 10 {
      assert |Digits(n)| == 1;
      if len >= 2 {
        assert Pow10(len - 1) >= 10;
      }
    } else {
      var q := n / 10;
      assert |Digits(n)| == |Digits(q)| + 1;
      assert n == 10 * q + n % 10 && 0 <= n % 10 < 10;
      if len >= 2 {
        DigitsLength(q, len - 1);
        assert Pow10(len) == 10 * Pow10(len - 1);
        assert q < Pow10(len - 1) <==> n < Pow10(len);
        if len >= 3 {
          assert Pow10(len - 1) == 10 * Pow10(len - 2);
          assert Pow10(len - 2) <= q <==> Pow10(len - 1) <= n;
        }
      } else {
        assert |Digits(q)| >= 1;
      }
    }
  }

  /** Two numbers of the same digit length `len` have digit lists of length `len`. */
  lemma SameLength(k1: nat, k2: nat, len: nat)
    requires 1 <= len
    requires Pow10(len - 1) <= k1 <= Pow10(len) - 1
    requires Pow10(len - 1) <= k2 <= Pow10(len) - 1
    ensures |Digits(k1)| == |Digits(k2)| == len
  {
    DigitsLength(k1, len);
    DigitsLength(k2, len);
  }
}
