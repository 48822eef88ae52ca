/** Scalar arithmetic of the generator: the abstract transcendental
    functions, the logistic sigmoid built on `exp`, exact powers and the
    clamping helpers of `<algorithm>`. */
module Numerics {

  /** The float functions the generator calls but whose bodies are not part
      of this model: `std::exp`, `std::sqrt`, and `tanh_func` / `d_tanh_func`
      of the activation-function header. */
  datatype Primitives = Primitives(
    exp: real -> real,
    sqrt: real -> real,
    tanh: real -> real,
    dtanh: real -> real)

  /** The only facts about the primitives the model relies on: `exp` is
      positive and `sqrt` of a nonnegative number is nonnegative. */
  ghost predicate Lawful(f: Primitives) {
    && (forall x :: 0.0 < f.exp(x))
    && (forall x :: 0.0 <= x ==> 0.0 <= f.sqrt(x))
  }

  /** `1 / (1 + exp(-x))`, strictly between 0 and 1. */
  function Sigmoid(f: Primitives, x: real): (r: real)
    requires Lawful(f)
    ensures 0.0 < r < 1.0
  {
    var e := f.exp(-x);
    assert 1.0 < 1.0 + e;
    1.0 / (1.0 + e)
  }

  /** `std::pow(b, n)` for a natural exponent, computed exactly. */
  function Pow(b: real, n: nat): real {
    if n == 0 then 1.0 else b * Pow(b, n - 1)
  }

  /** Powers of a decay rate in (0, 1) stay in (0, 1] and drop below 1 from
      the first power on, so `1 - pow(beta, t)` is a safe divisor once t >= 1. */
  lemma {:induction false} PowOfRate(b: real, n: nat)
    requires 0.0 < b < 1.0
    ensures 0.0 < Pow(b, n) <= 1.0
    ensures 1 <= n ==> Pow(b, n) < 1.0
  {
    if n > 0 {
      PowOfRate(b, n - 1);
      var p := Pow(b, n - 1);
      assert b * p <= b * 1.0;
      assert 0.0 < b * p;
    }
  }

  function Max(a: real, b: real): (r: real)
    ensures a <= r && b <= r && (r == a || r == b)
  {
    if a < b then b else a
  }

  function Min(a: real, b: real): (r: real)
    ensures r <= a && r <= b && (r == a || r == b)
  {
    if b < a then b else a
  }

  /** `std::clamp(v, lo, hi)`: lands in [lo, hi] and leaves values already
      there alone. */
  function Clamp(v: real, lo: real, hi: real): (r: real)
    requires lo <= hi
    ensures lo <= r <= hi
    ensures lo <= v <= hi ==> r == v
    ensures v < lo ==> r == lo
    ensures hi < v ==> r == hi
  {
    if v < lo then lo else if hi < v then hi else v
  }
}
