/** `backward_step` of the threshold generator, modelled as written.

    Three traits of the source are kept: every time step re-runs
    `forward_step` from the same initial `h_prev` and `c_prev` rather than
    from that step's own previous state; the gradient flowing to the previous
    step is `W_hh * dxh` (no transpose); and only column 0 of the
    input-to-hidden gradient is written, because each time step feeds a single
    scalar. The returned cell-state gradient `dc` is never assigned after its
    zero initialisation. */
module Backward {
  import opened Tensors
  import opened Numerics
  import opened Lstm
  import opened Outcomes

  /** What `backward_step` returns: `dh`, `dc` and the four parameter
      gradients. */
  datatype Gradients = Gradients(dh: Vector, dc: Vector, d: GateTensors)

  /** `s * (1 - s)` entry by entry: the slope of a sigmoid at activation `s`. */
  function SigmoidSlope(s: Vector): (r: Vector)
    ensures |r| == |s|
  {
    seq(|s|, k requires 0 <= k < |s| => s[k] * (1.0 - s[k]))
  }

  /** `1 - g * g` entry by entry: the slope of tanh at activation `g`. */
  function TanhSlope(g: Vector): (r: Vector)
    ensures |r| == |g|
  {
    seq(|g|, k requires 0 <= k < |g| => 1.0 - g[k] * g[k])
  }

  /** `dxh_t = (di_t + df_t) + (do_t + dg_t)` for one time step, from the
      gate activations, the previous cell state, the (all-zero) `dc` and the
      incoming `dh`. It vanishes when `dh` does. */
  function CombinedGradient(f: Primitives, gates: Gates, cPrev: Vector, dc: Vector, dh: Vector): (r: Vector)
    requires GatesShaped(gates, |dh|) && |cPrev| == |dh| && |dc| == |dh| && AllZero(dc)
    ensures |r| == |dh|
    ensures AllZero(dh) ==> AllZero(r)
  {
    var doT := Mul(Mul(dh, Map(f.tanh, gates.c)), SigmoidSlope(gates.o));
    var dcT := Add(dc, Mul(dh, Mul(gates.o, Map(f.dtanh, gates.c))));
    var diT := Mul(Mul(dcT, gates.g), SigmoidSlope(gates.i));
    var dfT := Mul(Mul(dcT, cPrev), SigmoidSlope(gates.f));
    var dgT := Mul(Mul(dcT, gates.i), TanhSlope(gates.g));
    Add(Add(diT, dfT), Add(doT, dgT))
  }

  /** `dw_ih[i][0] += dxh[i] * x`: only column 0 moves. */
  function AddToColumnZero(w: Matrix, d: Vector, x: real, cols: nat): (r: Matrix)
    requires 1 <= cols && IsMatrix(w, |d|, cols)
    ensures IsMatrix(r, |d|, cols)
    ensures forall i :: 0 <= i < |d| ==> r[i][0] == w[i][0] + d[i] * x
    ensures forall i, j :: 0 <= i < |d| && 1 <= j < cols ==> r[i][j] == w[i][j]
    ensures AllZeroMatrix(w) && AllZero(d) ==> AllZeroMatrix(r)
  {
    seq(|d|, i requires 0 <= i < |d| =>
      seq(cols, j requires 0 <= j < cols => if j == 0 then w[i][0] + d[i] * x else w[i][j]))
  }

  /** `dw_hh[i][j] += dxh[i] * h_prev[j]` over the full width of `dw_hh`. */
  function AddOuter(w: Matrix, d: Vector, h: Vector, cols: nat): (r: Matrix)
    requires IsMatrix(w, |d|, cols) && cols <= |h|
    ensures IsMatrix(r, |d|, cols)
    ensures forall i, j :: 0 <= i < |d| && 0 <= j < cols ==> r[i][j] == w[i][j] + d[i] * h[j]
    ensures AllZeroMatrix(w) && AllZero(d) ==> AllZeroMatrix(r)
  {
    seq(|d|, i requires 0 <= i < |d| =>
      seq(cols, j requires 0 <= j < cols => w[i][j] + d[i] * h[j]))
  }

  /** Zero tensors shaped like the parameters: the gradients before the
      first time step. */
  function ZeroGradients(p: GateTensors, hidden: nat, inputs: nat): (r: GateTensors)
    requires 1 <= hidden && Shaped(p, hidden, inputs)
    ensures Shaped(r, hidden, inputs) && AllZeroTensors(r)
  {
    GateTensors(ZeroMatrix(|p.wIh|, |p.wIh[0]|), ZeroMatrix(|p.wHh|, |p.wHh[0]|), Zeros(|p.bIh|), Zeros(|p.bHh|))
  }

  /** Every column of `w` but column 0 is zero: what `dw_ih` looks like
      when each time step feeds one scalar. */
  predicate ColumnZeroOnly(w: Matrix, rows: nat, cols: nat)
    requires IsMatrix(w, rows, cols)
  {
    forall i, j :: 0 <= i < rows && 1 <= j < cols ==> w[i][j] == 0.0
  }

  /** The state of the reverse walk: the parameter gradients accumulated so
      far and the gradient `dh` flowing to the step before. */
  datatype Walk = Walk(d: GateTensors, dh: Vector)

  /** One time step of the reverse walk, on input `x`: the gates are
      recomputed from `h_prev` and `c_prev`, `dxh` is accumulated into the
      four gradients, and `W_hh * dxh` flows on. The two bias gradients stay
      equal, `dw_ih` stays zero outside column 0, and a zero `dh` adds
      nothing and passes on zero. */
  function BackStep(cell: Cell, f: Primitives, p: GateTensors, inputs: nat,
                    x: real, hPrev: Vector, cPrev: Vector, w: Walk): (r: Walk)
    requires WellShaped(cell) && 1 <= cell.hidden && 1 <= inputs
    requires Shaped(p, cell.hidden, inputs)
    requires |hPrev| == cell.hidden && |cPrev| == cell.hidden
    requires Shaped(w.d, cell.hidden, inputs) && |w.dh| == cell.hidden
    ensures Shaped(r.d, cell.hidden, inputs) && |r.dh| == cell.hidden
    ensures w.d.bIh == w.d.bHh ==> r.d.bIh == r.d.bHh
    ensures ColumnZeroOnly(w.d.wIh, cell.hidden, inputs) ==> ColumnZeroOnly(r.d.wIh, cell.hidden, inputs)
    ensures AllZero(w.dh) && AllZeroTensors(w.d) ==> AllZero(r.dh) && AllZeroTensors(r.d)
  {
    var gates := ForwardStep(cell, p, x, hPrev, cPrev);
    var dxh := CombinedGradient(f, gates, cPrev, Zeros(|cPrev|), w.dh);
    Walk(GateTensors(AddToColumnZero(w.d.wIh, dxh, x, inputs),
                     AddOuter(w.d.wHh, dxh, hPrev, cell.hidden),
                     Add(w.d.bIh, dxh),
                     Add(w.d.bHh, dxh)),
         MatVec(p.wHh, dxh))
  }

  /** Time steps `t - 1` down to 0 applied to `w`. It fails, with a
      dimension mismatch, exactly when there is a step and the incoming `dh`
      is not hidden-sized (every later `dh` is `W_hh * dxh`, which is). The
      bias gradients stay equal, `dw_ih` stays zero outside column 0, and a
      walk that starts from all zeros stays at all zeros. */
  function WalkBack(cell: Cell, f: Primitives, p: GateTensors, inputs: nat,
                    input: Vector, hPrev: Vector, cPrev: Vector, t: nat, w: Walk): (r: Result<Walk>)
    requires WellShaped(cell) && 1 <= cell.hidden && 1 <= inputs
    requires Shaped(p, cell.hidden, inputs)
    requires |hPrev| == cell.hidden && |cPrev| == cell.hidden
    requires Shaped(w.d, cell.hidden, inputs) && t <= |input|
    ensures r.Failure? <==> 0 < t && |w.dh| != cell.hidden
    ensures r.Failure? ==> r.error == DimensionMismatch
    ensures r.Success? ==> Shaped(r.value.d, cell.hidden, inputs)
    ensures r.Success? && t == 0 ==> r.value == w
    ensures r.Success? && 0 < t ==> |r.value.dh| == cell.hidden
    ensures r.Success? && w.d.bIh == w.d.bHh ==> r.value.d.bIh == r.value.d.bHh
    ensures r.Success? && ColumnZeroOnly(w.d.wIh, cell.hidden, inputs) ==> ColumnZeroOnly(r.value.d.wIh, cell.hidden, inputs)
    ensures r.Success? && AllZero(w.dh) && AllZeroTensors(w.d) ==> AllZero(r.value.dh) && AllZeroTensors(r.value.d)
    decreases t
  {
    if t == 0 then Success(w)
    else if |w.dh| != cell.hidden then Failure(DimensionMismatch)
    else WalkBack(cell, f, p, inputs, input, hPrev, cPrev, t - 1,
                  BackStep(cell, f, p, inputs, input[t - 1], hPrev, cPrev, w))
  }

  /** One unfolding of the walk: a step with a hidden-sized `dh` is
      `BackStep` on the input at that step, then the rest of the walk. */
  lemma WalkBackUnfold(cell: Cell, f: Primitives, p: GateTensors, inputs: nat,
                       input: Vector, hPrev: Vector, cPrev: Vector, t: nat, w: Walk)
    requires WellShaped(cell) && 1 <= cell.hidden && 1 <= inputs
    requires Shaped(p, cell.hidden, inputs)
    requires |hPrev| == cell.hidden && |cPrev| == cell.hidden
    requires Shaped(w.d, cell.hidden, inputs) && 0 < t <= |input| && |w.dh| == cell.hidden
    ensures WalkBack(cell, f, p, inputs, input, hPrev, cPrev, t, w)
         == WalkBack(cell, f, p, inputs, input, hPrev, cPrev, t - 1,
                     BackStep(cell, f, p, inputs, input[t - 1], hPrev, cPrev, w))
  {
  }

  /** The value `backward_step` returns, as a function: the reverse walk over
      the whole input from zero gradients and `dh = doutput`, with `dc` all
      zeros of the cell state's length. */
  function Backward(cell: Cell, f: Primitives, p: GateTensors, inputs: nat,
                    input: Vector, hPrev: Vector, cPrev: Vector, dOutput: Vector): (r: Result<Gradients>)
    requires WellShaped(cell) && 1 <= cell.hidden && 1 <= inputs
    requires Shaped(p, cell.hidden, inputs)
    requires |hPrev| == cell.hidden && |cPrev| == cell.hidden
    ensures r.Failure? <==> 0 < |input| && |dOutput| != cell.hidden
    ensures r.Failure? ==> r.error == DimensionMismatch
    ensures r.Success? ==>
      && Shaped(r.value.d, cell.hidden, inputs)
      && r.value.d.bIh == r.value.d.bHh
      && (forall i, j :: 0 <= i < cell.hidden && 1 <= j < inputs ==> r.value.d.wIh[i][j] == 0.0)
      && r.value.dc == Zeros(|cPrev|)
      && (|input| == 0 ==> r.value.dh == dOutput && AllZeroTensors(r.value.d))
      && (0 < |input| ==> |r.value.dh| == cell.hidden)
      && (AllZero(dOutput) ==> AllZero(r.value.dh) && AllZeroTensors(r.value.d))
  {
    var start := Walk(ZeroGradients(p, cell.hidden, inputs), dOutput);
    assert start.d.bIh == start.d.bHh;
    assert ColumnZeroOnly(start.d.wIh, cell.hidden, inputs);
    var w := WalkBack(cell, f, p, inputs, input, hPrev, cPrev, |input|, start);
    if w.Failure? then Failure(w.error) else Success(Gradients(w.value.dh, Zeros(|cPrev|), w.value.d))
  }

  /** `backward_step(input, h_prev, c_prev, doutput)`: walks the input from
      its last element to its first, accumulating one contribution per time
      step, and returns what `Backward` defines. The gradients come back
      shaped like the parameters, the two bias gradients are identical, the
      input-to-hidden gradient is zero outside column 0, `dc` is all zeros of
      the cell state's length, and a zero `doutput` gives zero gradients. An
      element-wise product of vectors of different lengths (a `doutput` whose
      length is not the hidden size, met on the first time step) is a
      dimension mismatch. */
  method BackwardStep(cell: Cell, f: Primitives, p: GateTensors, inputs: nat,
                      input: Vector, hPrev: Vector, cPrev: Vector, dOutput: Vector)
    returns (r: Result<Gradients>)
    requires WellShaped(cell) && 1 <= cell.hidden && 1 <= inputs
    requires Shaped(p, cell.hidden, inputs)
    requires |hPrev| == cell.hidden && |cPrev| == cell.hidden
    ensures r == Backward(cell, f, p, inputs, input, hPrev, cPrev, dOutput)
  {
    var w := Walk(ZeroGradients(p, cell.hidden, inputs), dOutput);
    ghost var start := w;
    var t := |input|;
    while t > 0
      invariant 0 <= t <= |input| && Shaped(w.d, cell.hidden, inputs)
      invariant WalkBack(cell, f, p, inputs, input, hPrev, cPrev, |input|, start)
             == WalkBack(cell, f, p, inputs, input, hPrev, cPrev, t, w)
    {
      t := t - 1;
      if |w.dh| != cell.hidden {
        return Failure(DimensionMismatch);
      }
      WalkBackUnfold(cell, f, p, inputs, input, hPrev, cPrev, t + 1, w);
      w := BackStep(cell, f, p, inputs, input[t], hPrev, cPrev, w);
    }
    return Success(Gradients(w.dh, Zeros(|cPrev|), w.d));
  }
}
