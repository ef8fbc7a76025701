/**
 * The proof-derivation function `tokenize(key1, key2, seed)`.
 *
 * The digit split, the length check, the integer term `a * seed^b`, the
 * zero branch and the loop order are modelled exactly. The floating-point
 * primitives are inputs: a `FloatOps` value supplies them, so that the
 * state machine relies only on the derivation being a function of its
 * arguments.
 */
module ProofDerivation {
  import opened Wrappers
  import opened DecimalDigits

  /** Digit length of every key; also the significant digits of a token. */
  const KEY_LENGTH: nat := 4

  /** The range `random.randint` draws keys from. */
  predicate InKeyRange(k: int) {
    Pow10(KEY_LENGTH - 1) <= k <= Pow10(KEY_LENGTH) - 1
  }

  /** The ValueErrors tokenize can raise. */
  datatype TokenError =
    | NotADigit       // a character of str(key) is not a digit ('-', or 'N' of None)
    | LengthMismatch  // "Keys must be the same length."
    | MathDomain      // math.log of a negative term

  /** The floating-point primitives of one platform. */
  datatype FloatOps = FloatOps(
    mantissa: nat -> real,       // 10 ** (math.log(t, 10) % 1), for t > 0
    sin: real -> real,           // math.sin
    tan: real -> real,           // math.tan
    overflows: nat -> bool,      // the float step for term t > 0 raises OverflowError
    add: (real, real) -> real,   // float addition
    roundNonzero: real -> real)  // round(x, KEY_LENGTH - 1 - floor(log10 |x|)), x != 0

  /** Integer power; Python's `seed ** b` with `0 ** 0 == 1`. */
  function Pow(b: int, e: nat): (p: int)
    ensures b >= 0 ==> p >= 0
    ensures b != 0 ==> p != 0
  {
    if e == 0 then 1 else b * Pow(b, e - 1)
  }

  /** The exact integer `tval` of one digit position. */
  function TVal(a: nat, b: nat, seed: int): int {
    a * Pow(seed, b)
  }

  /** The amount added to the running sum at position i, or the error raised there. */
  function Term(ops: FloatOps, i: nat, a: nat, b: nat, seed: int): Result<real, TokenError>
  {
    var t := TVal(a, b, seed);
    if t < 0 then Failure(MathDomain)
    else if t > 0 && ops.overflows(t) then Success(0.0)
    else
      var v := if t == 0 then 0.0 else ops.mantissa(t);
      Success(if i % 2 == 0 then ops.sin(v) else ops.tan(v))
  }

  /** The running sum after the first n positions, added left to right. */
  function Accumulate(ops: FloatOps, l1: seq<nat>, l2: seq<nat>, seed: int, n: nat): Result<real, TokenError>
    requires n <= |l1| == |l2|
  {
    if n == 0 then Success(0.0)
    else match Accumulate(ops, l1, l2, seed, n - 1)
      case Failure(e) => Failure(e)
      case Success(acc) =>
        match Term(ops, n - 1, l1[n - 1], l2[n - 1], seed)
        case Failure(e) => Failure(e)
        case Success(x) => Success(ops.add(acc, x))
  }

  /** round_sig(x, KEY_LENGTH): zero stays exactly zero. */
  function RoundSig(ops: FloatOps, x: real): (r: real)
    ensures x == 0.0 ==> r == 0.0
    ensures x != 0.0 ==> r == ops.roundNonzero(x)
  {
    if x == 0.0 then 0.0 else ops.roundNonzero(x)
  }

  /** The token tokenize(key1, key2, seed) returns or the error it raises. */
  function TokenOf(ops: FloatOps, key1: int, key2: int, seed: int): Result<real, TokenError>
  {
    if key1 < 0 || key2 < 0 then Failure(NotADigit)
    else if |Digits(key1)| != |Digits(key2)| then Failure(LengthMismatch)
    else match Accumulate(ops, Digits(key1), Digits(key2), seed, |Digits(key1)|)
      case Failure(e) => Failure(e)
      case Success(sum) => Success(RoundSig(ops, sum))
  }

  /** The only error the loop raises is a math-domain error, and it raises one
      exactly when some position's term is negative. */
  lemma {:induction false} AccumulateOutcome(ops: FloatOps, l1: seq<nat>, l2: seq<nat>, seed: int, n: nat)
    requires n <= |l1| == |l2|
    ensures Accumulate(ops, l1, l2, seed, n).Failure? ==> Accumulate(ops, l1, l2, seed, n).error == MathDomain
    ensures Accumulate(ops, l1, l2, seed, n).Success? <==> forall k :: 0 <= k < n ==> TVal(l1[k], l2[k], seed) >= 0
  {
    if n > 0 {
      AccumulateOutcome(ops, l1, l2, seed, n - 1);
    }
  }

  /** Once the loop has raised, later positions do not change the outcome. */
  lemma {:induction false} AccumulateFailureSticks(ops: FloatOps, l1: seq<nat>, l2: seq<nat>, seed: int, i: nat, n: nat)
    requires i <= n <= |l1| == |l2|
    requires Accumulate(ops, l1, l2, seed, i).Failure?
    ensures Accumulate(ops, l1, l2, seed, n) == Accumulate(ops, l1, l2, seed, i)
    decreases n
  {
    if i < n {
      AccumulateFailureSticks(ops, l1, l2, seed, i, n - 1);
    }
  }

  /** tokenize as written: split, check lengths, sum the terms in order, round. */
  method Tokenize(ops: FloatOps, key1: int, key2: int, seed: int) returns (r: Result<real, TokenError>)
    ensures r == TokenOf(ops, key1, key2, seed)
  {
    if key1 < 0 || key2 < 0 {
      return Failure(NotADigit);
    }
    var l1 := Digits(key1);
    var l2 := Digits(key2);
    if |l1| != |l2| {
      return Failure(LengthMismatch);
    }
    var result := 0.0;
    var i := 0;
    while i < |l1|
      invariant 0 <= i <= |l1|
      invariant Accumulate(ops, l1, l2, seed, i) == Success(result)
    {
      var tval := l1[i] * Pow(seed, l2[i]);
      if tval < 0 {
        AccumulateFailureSticks(ops, l1, l2, seed, i + 1, |l1|);
        return Failure(MathDomain);
      }
      var temp: real;
      if tval > 0 && ops.overflows(tval) {
        temp := 0.0;
      } else {
        var val := if tval == 0 then 0.0 else ops.mantissa(tval);
        temp := if i % 2 == 0 then ops.sin(val) else ops.tan(val);
      }
      result := ops.add(result, temp);
      i := i + 1;
    }
    r := Success(RoundSig(ops, result));
  }

  /** tokenize raises the length error exactly when both keys are non-negative
      and their digit lists differ in length. */
  lemma LengthMismatchExactly(ops: FloatOps, key1: int, key2: int, seed: int)
    ensures TokenOf(ops, key1, key2, seed) == Failure(LengthMismatch)
      <==> key1 >= 0 && key2 >= 0 && |Digits(key1)| != |Digits(key2)|
  {
    if key1 >= 0 && key2 >= 0 && |Digits(key1)| == |Digits(key2)| {
      AccumulateOutcome(ops, Digits(key1), Digits(key2), seed, |Digits(key1)|);
    }
  }

  /** tokenize raises on a non-digit character exactly when a key is negative. */
  lemma NotADigitExactly(ops: FloatOps, key1: int, key2: int, seed: int)
    ensures TokenOf(ops, key1, key2, seed) == Failure(NotADigit) <==> key1 < 0 || key2 < 0
  {
    if key1 >= 0 && key2 >= 0 && |Digits(key1)| == |Digits(key2)| {
      AccumulateOutcome(ops, Digits(key1), Digits(key2), seed, |Digits(key1)|);
    }
  }

  /** Two keys drawn from the key range, with a non-negative seed, always yield a token. */
  lemma KeysAlwaysTokenize(ops: FloatOps, key1: int, key2: int, seed: int)
    requires InKeyRange(key1) && InKeyRange(key2) && seed >= 0
    ensures TokenOf(ops, key1, key2, seed).Success?
  {
    SameLength(key1, key2, KEY_LENGTH);
    var l1, l2 := Digits(key1), Digits(key2);
    forall k | 0 <= k < |l1|
      ensures TVal(l1[k], l2[k], seed) >= 0
    {
      assert Pow(seed, l2[k]) >= 0;
    }
    AccumulateOutcome(ops, l1, l2, seed, |l1|);
  }

  /** The two examples of the derivation's length rule: 12 against 123 fails,
      12 against 34 does not. */
  lemma LengthExamples(ops: FloatOps, seed: int)
    ensures TokenOf(ops, 12, 123, seed) == Failure(LengthMismatch)
    ensures seed >= 0 ==> TokenOf(ops, 12, 34, seed).Success?
  {
    DigitsLength(12, 2);
    DigitsLength(123, 3);
    DigitsLength(34, 2);
    if seed >= 0 {
      var l1, l2 := Digits(12), Digits(34);
      forall k | 0 <= k < |l1|
        ensures TVal(l1[k], l2[k], seed) >= 0
      {
        assert Pow(seed, l2[k]) >= 0;
      }
      AccumulateOutcome(ops, l1, l2, seed, 2);
    }
  }
}
