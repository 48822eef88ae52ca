/** Dense real vectors and matrices, and the element-wise operations the
    threshold generator's backward pass needs. Matrices are row-major
    sequences of rows. */
module Tensors {

  type Vector = seq<real>
  type Matrix = seq<seq<real>>

  /** `w` has exactly `rows` rows of exactly `cols` entries each. */
  predicate IsMatrix(w: Matrix, rows: nat, cols: nat) {
    |w| == rows && forall i :: 0 <= i < |w| ==> |w[i]| == cols
  }

  predicate AllZero(v: Vector) {
    forall i :: 0 <= i < |v| ==> v[i] == 0.0
  }

  predicate AllZeroMatrix(w: Matrix) {
    forall i, j :: 0 <= i < |w| && 0 <= j < |w[i]| ==> w[i][j] == 0.0
  }

  predicate NonNegative(v: Vector) {
    forall i :: 0 <= i < |v| ==> 0.0 <= v[i]
  }

  predicate NonNegativeMatrix(w: Matrix) {
    forall i, j :: 0 <= i < |w| && 0 <= j < |w[i]| ==> 0.0 <= w[i][j]
  }

  /** `std::vector<float>(n, 0.0f)` */
  function Zeros(n: nat): (r: Vector)
    ensures |r| == n && AllZero(r)
  {
    seq(n, _ => 0.0)
  }

  /** `std::vector<std::vector<float>>(rows, std::vector<float>(cols, 0.0f))` */
  function ZeroMatrix(rows: nat, cols: nat): (r: Matrix)
    ensures IsMatrix(r, rows, cols) && AllZeroMatrix(r)
  {
    seq(rows, _ => Zeros(cols))
  }

  function Add(a: Vector, b: Vector): (r: Vector)
    requires |a| == |b|
    ensures |r| == |a|
    ensures forall i :: 0 <= i < |r| ==> r[i] == a[i] + b[i]
    ensures AllZero(a) && AllZero(b) ==> AllZero(r)
  {
    seq(|a|, i requires 0 <= i < |a| => a[i] + b[i])
  }

  function Mul(a: Vector, b: Vector): (r: Vector)
    requires |a| == |b|
    ensures |r| == |a|
    ensures forall i :: 0 <= i < |r| ==> r[i] == a[i] * b[i]
    ensures AllZero(a) || AllZero(b) ==> AllZero(r)
  {
    seq(|a|, i requires 0 <= i < |a| => a[i] * b[i])
  }

  /** `f` applied to every entry. */
  function Map(f: real -> real, v: Vector): (r: Vector)
    ensures |r| == |v|
    ensures forall i :: 0 <= i < |r| ==> r[i] == f(v[i])
  {
    seq(|v|, i requires 0 <= i < |v| => f(v[i]))
  }

  /** `std::accumulate(v.begin(), v.end(), 0.0f)`, adding left to right. A
      sum of nonnegative entries is nonnegative, and the sum of zeros is zero. */
  function Sum(v: Vector): (r: real)
    ensures NonNegative(v) ==> 0.0 <= r
    ensures AllZero(v) ==> r == 0.0
  {
    if |v| == 0 then 0.0 else Sum(v[..|v| - 1]) + v[|v| - 1]
  }

  function Dot(a: Vector, b: Vector): real
    requires |a| == |b|
  {
    if |a| == 0 then 0.0 else a[0] * b[0] + Dot(a[1..], b[1..])
  }

  /** A dot product with an all-zero right operand is zero, whatever the left one. */
  lemma {:induction false} DotZero(a: Vector, b: Vector)
    requires |a| == |b| && AllZero(b)
    ensures Dot(a, b) == 0.0
  {
    if |a| > 0 {
      assert AllZero(b[1..]) by {
        forall i | 0 <= i < |b[1..]| ensures b[1..][i] == 0.0 {
          assert b[1..][i] == b[i + 1];
        }
      }
      DotZero(a[1..], b[1..]);
      assert b[0] == 0.0;
    }
  }

  /** `matrix_vector_mul`: one dot product per row. A zero vector maps to a
      zero vector of the matrix's height. */
  function MatVec(w: Matrix, v: Vector): (r: Vector)
    requires forall i :: 0 <= i < |w| ==> |w[i]| == |v|
    ensures |r| == |w|
    ensures forall i :: 0 <= i < |r| ==> r[i] == Dot(w[i], v)
    ensures AllZero(v) ==> AllZero(r)
  {
    var r := seq(|w|, i requires 0 <= i < |w| => Dot(w[i], v));
    assert AllZero(v) ==> AllZero(r) by {
      if AllZero(v) {
        forall i | 0 <= i < |r| ensures r[i] == 0.0 {
          DotZero(w[i], v);
        }
      }
    }
    r
  }
}
