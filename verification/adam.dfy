/** The threshold generator's optimisers: Adam (`update_parameters_adam`),
    plain gradient descent (`update_parameters`), the shared gradient clip,
    and the zero moments `init_adam_parameters` allocates.

    Both optimisers in the source walk the weight matrices with one loop
    whose column bound is `weight_ih[i].size()` (the input size) and update
    `weight_hh[i][j]` in the same loop. `weight_hh` is `hidden x hidden`, so
    its columns from the input size on are never touched. The functions
    below take the number of W_hh columns to update as `hhCols`: the
    as-written members pass the input size, the corrected ones every column. */
module Adam {
  import opened Tensors
  import opened Numerics
  import opened Lstm

  /** `beta1`, `beta2`, `epsilon`: members of the generator whose declared
      values are not part of this model; `Defaults` holds the usual ones. */
  datatype Config = Config(beta1: real, beta2: real, epsilon: real) {
    predicate Valid() {
      0.0 < beta1 < 1.0 && 0.0 < beta2 < 1.0 && 0.0 < epsilon
    }
  }

  const Defaults: Config := Config(0.9, 0.999, 0.00000001)

  /** The eight moment tensors (first moments `m`, second moments `v`) and
      the step counter `t`. */
  datatype State = State(m: GateTensors, v: GateTensors, t: nat)

  predicate NonNegativeTensors(x: GateTensors) {
    NonNegativeMatrix(x.wIh) && NonNegativeMatrix(x.wHh) && NonNegative(x.bIh) && NonNegative(x.bHh)
  }

  /** Moments shaped like the parameters; second moments never negative. */
  predicate Wellformed(s: State, hidden: nat, inputs: nat) {
    Shaped(s.m, hidden, inputs) && Shaped(s.v, hidden, inputs) && NonNegativeTensors(s.v)
  }

  const ClipValue: real := 5.0

  /** The `clip_gradient` lambda: `max(min(grad, 5), -5)`. It is `std::clamp`
      to [-5, 5], the identity inside that range, and zero exactly at zero. */
  function ClipGradient(g: real): (r: real)
    ensures -ClipValue <= r <= ClipValue
    ensures -ClipValue <= g <= ClipValue ==> r == g
    ensures r == Clamp(g, -ClipValue, ClipValue)
    ensures r == 0.0 <==> g == 0.0
  {
    Max(Min(g, ClipValue), -ClipValue)
  }

  /** `init_adam_parameters`: zero tensors whose row counts are those of the
      parameters and whose row widths are those of each parameter's row 0. */
  function ZeroMoments(p: GateTensors, hidden: nat, inputs: nat): (z: GateTensors)
    requires 1 <= hidden && Shaped(p, hidden, inputs)
    ensures Shaped(z, hidden, inputs)
    ensures AllZeroTensors(z)
  {
    GateTensors(
      ZeroMatrix(|p.wIh|, |p.wIh[0]|),
      ZeroMatrix(|p.wHh|, |p.wHh[0]|),
      Zeros(|p.bIh|),
      Zeros(|p.bHh|))
  }

  /** The optimiser state right after the hyperparameter constructor. */
  function InitialState(p: GateTensors, hidden: nat, inputs: nat): (s: State)
    requires 1 <= hidden && Shaped(p, hidden, inputs)
    ensures Wellformed(s, hidden, inputs)
    ensures s.t == 0 && AllZeroTensors(s.m) && AllZeroTensors(s.v)
  {
    var z := ZeroMoments(p, hidden, inputs);
    State(z, z, 0)
  }

  /** `alpha_t = lr * sqrt(1 - beta2^t) / (1 - beta1^t)`: the bias-corrected
      step size. Both corrections are positive, so it has the sign of the
      learning rate and vanishes with it. */
  function Alpha(cfg: Config, f: Primitives, lr: real, t: nat): (r: real)
    requires cfg.Valid() && 1 <= t
    ensures Lawful(f) && 0.0 <= lr ==> 0.0 <= r
    ensures lr == 0.0 ==> r == 0.0
  {
    PowOfRate(cfg.beta1, t);
    PowOfRate(cfg.beta2, t);
    var root := f.sqrt(1.0 - Pow(cfg.beta2, t));
    var den := 1.0 - Pow(cfg.beta1, t);
    assert Lawful(f) && 0.0 <= lr ==> 0.0 <= lr * root;
    lr * root / den
  }

  /** One parameter together with its two moments. */
  datatype Entry = Entry(param: real, m: real, v: real)

  /** `beta2 * v + (1 - beta2) * g * g`: a convex mix of a nonnegative
      moment and a square, hence nonnegative. */
  function SecondMoment(cfg: Config, v: real, g: real): (r: real)
    requires cfg.Valid() && 0.0 <= v
    ensures 0.0 <= r
  {
    var decayed := cfg.beta2 * v;
    var square := g * g;
    assert 0.0 <= decayed;
    assert 0.0 <= (1.0 - cfg.beta2) * square;
    decayed + (1.0 - cfg.beta2) * square
  }

  /** `v / (1 - beta2^t)`: the bias-corrected second moment, nonnegative. */
  function CorrectedSecond(cfg: Config, t: nat, v: real): (r: real)
    requires cfg.Valid() && 1 <= t && 0.0 <= v
    ensures 0.0 <= r
  {
    PowOfRate(cfg.beta2, t);
    var d := 1.0 - Pow(cfg.beta2, t);
    assert 0.0 < d;
    assert 0.0 <= v / d;
    v / d
  }

  /** `alpha_t * m_hat / (sqrt(v_hat) + epsilon)`, before the extra clipped
      gradient factor. */
  function Ratio(cfg: Config, f: Primitives, alpha: real, t: nat, m: real, v: real): real
    requires cfg.Valid() && Lawful(f) && 1 <= t && 0.0 <= v
  {
    PowOfRate(cfg.beta1, t);
    var mHat := m / (1.0 - Pow(cfg.beta1, t));
    var root := f.sqrt(CorrectedSecond(cfg, t, v));
    assert 0.0 <= root;
    alpha * mHat / (root + cfg.epsilon)
  }

  /** The per-entry Adam rule of the source, including its extra factor: the
      bias-corrected ratio is multiplied by the clipped raw gradient. A zero
      gradient therefore leaves the parameter where it is, and the second
      moment stays nonnegative. */
  function AdamEntry(cfg: Config, f: Primitives, alpha: real, t: nat, p: real, m: real, v: real, g: real): (r: Entry)
    requires cfg.Valid() && Lawful(f) && 1 <= t && 0.0 <= v
    ensures 0.0 <= r.v
    ensures g == 0.0 ==> r.param == p
  {
    var m' := cfg.beta1 * m + (1.0 - cfg.beta1) * g;
    var v' := SecondMoment(cfg, v, g);
    var clipped := ClipGradient(g);
    Entry(p - Ratio(cfg, f, alpha, t, m', v') * clipped, m', v')
  }

  /** Every entry of `p2`/`m2`/`v2` whose column is below `cols` is the
      Adam rule applied to the matching entry of `p`/`m`/`v` and gradient
      `g`; the entries in the other columns keep their value and moments. */
  ghost predicate MatrixStepped(cfg: Config, f: Primitives, alpha: real, t: nat,
                                p: Matrix, m: Matrix, v: Matrix, g: Matrix,
                                p2: Matrix, m2: Matrix, v2: Matrix, rows: nat, width: nat, cols: nat)
    requires cfg.Valid() && Lawful(f) && 1 <= t
    requires IsMatrix(p, rows, width) && IsMatrix(m, rows, width) && IsMatrix(v, rows, width)
    requires IsMatrix(g, rows, width) && NonNegativeMatrix(v)
    requires IsMatrix(p2, rows, width) && IsMatrix(m2, rows, width) && IsMatrix(v2, rows, width)
  {
    forall i, j :: 0 <= i < rows && 0 <= j < width ==>
      Entry(p2[i][j], m2[i][j], v2[i][j])
        == if j < cols then AdamEntry(cfg, f, alpha, t, p[i][j], m[i][j], v[i][j], g[i][j])
           else Entry(p[i][j], m[i][j], v[i][j])
  }

  /** Every entry of `p2`/`m2`/`v2` is the Adam rule applied to the matching
      entry of `p`/`m`/`v` and gradient `g`. */
  ghost predicate VectorStepped(cfg: Config, f: Primitives, alpha: real, t: nat,
                                p: Vector, m: Vector, v: Vector, g: Vector,
                                p2: Vector, m2: Vector, v2: Vector)
    requires cfg.Valid() && Lawful(f) && 1 <= t
    requires |m| == |p| && |v| == |p| && |g| == |p| && NonNegative(v)
    requires |p2| == |p| && |m2| == |p| && |v2| == |p|
  {
    forall i :: 0 <= i < |p| ==>
      Entry(p2[i], m2[i], v2[i]) == AdamEntry(cfg, f, alpha, t, p[i], m[i], v[i], g[i])
  }

  /** The Adam rule on the entries of one matrix row whose column is below
      `cols`; the other entries and their moments are left as they were. */
  function StepRow(cfg: Config, f: Primitives, alpha: real, t: nat,
                   p: Vector, m: Vector, v: Vector, g: Vector, cols: nat): (r: (Vector, Vector, Vector))
    requires cfg.Valid() && Lawful(f) && 1 <= t && cols <= |p|
    requires |m| == |p| && |v| == |p| && |g| == |p| && NonNegative(v)
    ensures |r.0| == |p| && |r.1| == |p| && |r.2| == |p|
    ensures NonNegative(r.2)
    ensures forall j :: 0 <= j < cols ==>
      Entry(r.0[j], r.1[j], r.2[j]) == AdamEntry(cfg, f, alpha, t, p[j], m[j], v[j], g[j])
    ensures forall j :: cols <= j < |p| ==> r.0[j] == p[j] && r.1[j] == m[j] && r.2[j] == v[j]
  {
    var e := seq(|p|, j requires 0 <= j < |p| =>
      if j < cols then AdamEntry(cfg, f, alpha, t, p[j], m[j], v[j], g[j]) else Entry(p[j], m[j], v[j]));
    (seq(|p|, j requires 0 <= j < |p| => e[j].param),
     seq(|p|, j requires 0 <= j < |p| => e[j].m),
     seq(|p|, j requires 0 <= j < |p| => e[j].v))
  }

  /** The Adam rule on the entries whose column is below `cols`; the other
      entries and their moments are left as they were. */
  function StepMatrix(cfg: Config, f: Primitives, alpha: real, t: nat,
                      p: Matrix, m: Matrix, v: Matrix, g: Matrix,
                      rows: nat, width: nat, cols: nat): (r: (Matrix, Matrix, Matrix))
    requires cfg.Valid() && Lawful(f) && 1 <= t && cols <= width
    requires IsMatrix(p, rows, width) && IsMatrix(m, rows, width) && IsMatrix(v, rows, width)
    requires IsMatrix(g, rows, width) && NonNegativeMatrix(v)
    ensures IsMatrix(r.0, rows, width) && IsMatrix(r.1, rows, width) && IsMatrix(r.2, rows, width)
    ensures NonNegativeMatrix(r.2)
    ensures forall i, j :: 0 <= i < rows && 0 <= j < cols ==>
      Entry(r.0[i][j], r.1[i][j], r.2[i][j]) == AdamEntry(cfg, f, alpha, t, p[i][j], m[i][j], v[i][j], g[i][j])
    ensures forall i, j :: 0 <= i < rows && cols <= j < width ==>
      r.0[i][j] == p[i][j] && r.1[i][j] == m[i][j] && r.2[i][j] == v[i][j]
  {
    var stepped := seq(rows, i requires 0 <= i < rows => StepRow(cfg, f, alpha, t, p[i], m[i], v[i], g[i], cols));
    (seq(rows, i requires 0 <= i < rows => stepped[i].0),
     seq(rows, i requires 0 <= i < rows => stepped[i].1),
     seq(rows, i requires 0 <= i < rows => stepped[i].2))
  }

  /** The Adam rule on every entry of a bias vector. */
  function StepVector(cfg: Config, f: Primitives, alpha: real, t: nat,
                      p: Vector, m: Vector, v: Vector, g: Vector): (r: (Vector, Vector, Vector))
    requires cfg.Valid() && Lawful(f) && 1 <= t
    requires |m| == |p| && |v| == |p| && |g| == |p| && NonNegative(v)
    ensures |r.0| == |p| && |r.1| == |p| && |r.2| == |p|
    ensures NonNegative(r.2)
    ensures forall i :: 0 <= i < |p| ==>
      Entry(r.0[i], r.1[i], r.2[i]) == AdamEntry(cfg, f, alpha, t, p[i], m[i], v[i], g[i])
  {
    var e := (i: int) requires 0 <= i < |p| => AdamEntry(cfg, f, alpha, t, p[i], m[i], v[i], g[i]);
    (seq(|p|, i requires 0 <= i < |p| => e(i).param),
     seq(|p|, i requires 0 <= i < |p| => e(i).m),
     seq(|p|, i requires 0 <= i < |p| => e(i).v))
  }

  /** New parameters and new optimiser state. */
  datatype Step = Step(params: GateTensors, state: State)

  /** `r` is one Adam step from parameters `p`, state `s` and gradient `g`:
      the counter becomes `s.t + 1`; W_ih and both biases follow the Adam
      rule entry by entry; W_hh follows it in its first `hhCols` columns and
      keeps the others with their moments. */
  ghost predicate Stepped(cfg: Config, f: Primitives, lr: real, p: GateTensors, s: State, g: GateTensors,
                          r: Step, hidden: nat, inputs: nat, hhCols: nat)
    requires cfg.Valid() && Lawful(f)
    requires Shaped(p, hidden, inputs) && Wellformed(s, hidden, inputs) && Shaped(g, hidden, inputs)
    requires Shaped(r.params, hidden, inputs) && Wellformed(r.state, hidden, inputs)
  {
    var t := s.t + 1;
    var alpha := Alpha(cfg, f, lr, t);
    && r.state.t == t
    && MatrixStepped(cfg, f, alpha, t, p.wIh, s.m.wIh, s.v.wIh, g.wIh,
                     r.params.wIh, r.state.m.wIh, r.state.v.wIh, hidden, inputs, inputs)
    && MatrixStepped(cfg, f, alpha, t, p.wHh, s.m.wHh, s.v.wHh, g.wHh,
                     r.params.wHh, r.state.m.wHh, r.state.v.wHh, hidden, hidden, hhCols)
    && VectorStepped(cfg, f, alpha, t, p.bIh, s.m.bIh, s.v.bIh, g.bIh, r.params.bIh, r.state.m.bIh, r.state.v.bIh)
    && VectorStepped(cfg, f, alpha, t, p.bHh, s.m.bHh, s.v.bHh, g.bHh, r.params.bHh, r.state.m.bHh, r.state.v.bHh)
  }

  /** One Adam step that updates W_hh only in its first `hhCols` columns. */
  function StepCovering(cfg: Config, f: Primitives, p: GateTensors, s: State, g: GateTensors,
                        lr: real, hidden: nat, inputs: nat, hhCols: nat): (r: Step)
    requires cfg.Valid() && Lawful(f) && hhCols <= hidden
    requires Shaped(p, hidden, inputs) && Wellformed(s, hidden, inputs) && Shaped(g, hidden, inputs)
    ensures Shaped(r.params, hidden, inputs) && Wellformed(r.state, hidden, inputs)
    ensures Stepped(cfg, f, lr, p, s, g, r, hidden, inputs, hhCols)
  {
    var t := s.t + 1;
    var alpha := Alpha(cfg, f, lr, t);
    var wIh := StepMatrix(cfg, f, alpha, t, p.wIh, s.m.wIh, s.v.wIh, g.wIh, hidden, inputs, inputs);
    var wHh := StepMatrix(cfg, f, alpha, t, p.wHh, s.m.wHh, s.v.wHh, g.wHh, hidden, hidden, hhCols);
    var bIh := StepVector(cfg, f, alpha, t, p.bIh, s.m.bIh, s.v.bIh, g.bIh);
    var bHh := StepVector(cfg, f, alpha, t, p.bHh, s.m.bHh, s.v.bHh, g.bHh);
    Step(GateTensors(wIh.0, wHh.0, bIh.0, bHh.0),
         State(GateTensors(wIh.1, wHh.1, bIh.1, bHh.1), GateTensors(wIh.2, wHh.2, bIh.2, bHh.2), t))
  }

  /** `update_parameters_adam` as written: `t` goes up by one, W_ih and both
      biases follow the Adam rule entry by entry, and W_hh follows it only in
      its first `inputs` columns; the others keep their value and moments.
      (The source indexes past W_hh's rows, undefined behaviour, when
      `inputs` exceeds `hidden`, hence the precondition.) */
  function UpdateAsWritten(cfg: Config, f: Primitives, p: GateTensors, s: State, g: GateTensors,
                           lr: real, hidden: nat, inputs: nat): (r: Step)
    requires cfg.Valid() && Lawful(f) && inputs <= hidden
    requires Shaped(p, hidden, inputs) && Wellformed(s, hidden, inputs) && Shaped(g, hidden, inputs)
    ensures Shaped(r.params, hidden, inputs) && Wellformed(r.state, hidden, inputs)
    ensures Stepped(cfg, f, lr, p, s, g, r, hidden, inputs, inputs)
    ensures r.state.t == s.t + 1
    ensures forall i, j :: 0 <= i < hidden && inputs <= j < hidden ==>
      r.params.wHh[i][j] == p.wHh[i][j] && r.state.m.wHh[i][j] == s.m.wHh[i][j]
  {
    var r := StepCovering(cfg, f, p, s, g, lr, hidden, inputs, inputs);
    assert forall i, j :: 0 <= i < hidden && inputs <= j < hidden ==>
      Entry(r.params.wHh[i][j], r.state.m.wHh[i][j], r.state.v.wHh[i][j])
        == Entry(p.wHh[i][j], s.m.wHh[i][j], s.v.wHh[i][j]);
    r
  }

  /** `update_parameters_adam` with its W_hh loop covering every column:
      `t` goes up by one, every entry of all four tensors follows the Adam
      rule for its own gradient, shapes are kept and second moments stay
      nonnegative. */
  function Update(cfg: Config, f: Primitives, p: GateTensors, s: State, g: GateTensors,
                  lr: real, hidden: nat, inputs: nat): (r: Step)
    requires cfg.Valid() && Lawful(f)
    requires Shaped(p, hidden, inputs) && Wellformed(s, hidden, inputs) && Shaped(g, hidden, inputs)
    ensures Shaped(r.params, hidden, inputs) && Wellformed(r.state, hidden, inputs)
    ensures Stepped(cfg, f, lr, p, s, g, r, hidden, inputs, hidden)
    ensures r.state.t == s.t + 1
  {
    StepCovering(cfg, f, p, s, g, lr, hidden, inputs, hidden)
  }

  /** Two matrices of the same dimensions that agree entry by entry are equal. */
  lemma MatrixEq(a: Matrix, b: Matrix, rows: nat, cols: nat)
    requires IsMatrix(a, rows, cols) && IsMatrix(b, rows, cols)
    requires forall i, j :: 0 <= i < rows && 0 <= j < cols ==> a[i][j] == b[i][j]
    ensures a == b
  {
    forall i | 0 <= i < rows ensures a[i] == b[i] {
      assert |a[i]| == cols && |b[i]| == cols;
    }
  }

  /** An all-zero gradient leaves every weight and bias where it was, however
      many W_hh columns the step covers. */
  lemma ZeroGradientKeepsCovered(cfg: Config, f: Primitives, p: GateTensors, s: State,
                                 g: GateTensors, lr: real, hidden: nat, inputs: nat, hhCols: nat)
    requires cfg.Valid() && Lawful(f) && hhCols <= hidden
    requires Shaped(p, hidden, inputs) && Wellformed(s, hidden, inputs) && Shaped(g, hidden, inputs)
    requires AllZeroTensors(g)
    ensures StepCovering(cfg, f, p, s, g, lr, hidden, inputs, hhCols).params == p
  {
    var r := StepCovering(cfg, f, p, s, g, lr, hidden, inputs, hhCols);
    var t := s.t + 1;
    var alpha := Alpha(cfg, f, lr, t);
    assert Stepped(cfg, f, lr, p, s, g, r, hidden, inputs, hhCols);
    forall i, j | 0 <= i < hidden && 0 <= j < inputs ensures r.params.wIh[i][j] == p.wIh[i][j] {
      assert g.wIh[i][j] == 0.0;
      assert Entry(r.params.wIh[i][j], r.state.m.wIh[i][j], r.state.v.wIh[i][j])
          == AdamEntry(cfg, f, alpha, t, p.wIh[i][j], s.m.wIh[i][j], s.v.wIh[i][j], g.wIh[i][j]);
    }
    forall i, j | 0 <= i < hidden && 0 <= j < hidden ensures r.params.wHh[i][j] == p.wHh[i][j] {
      if j < hhCols {
        assert g.wHh[i][j] == 0.0;
        assert Entry(r.params.wHh[i][j], r.state.m.wHh[i][j], r.state.v.wHh[i][j])
            == AdamEntry(cfg, f, alpha, t, p.wHh[i][j], s.m.wHh[i][j], s.v.wHh[i][j], g.wHh[i][j]);
      } else {
        assert Entry(r.params.wHh[i][j], r.state.m.wHh[i][j], r.state.v.wHh[i][j])
            == Entry(p.wHh[i][j], s.m.wHh[i][j], s.v.wHh[i][j]);
      }
    }
    MatrixEq(r.params.wIh, p.wIh, hidden, inputs);
    MatrixEq(r.params.wHh, p.wHh, hidden, hidden);
    forall i | 0 <= i < hidden ensures r.params.bIh[i] == p.bIh[i] && r.params.bHh[i] == p.bHh[i] {
      assert g.bIh[i] == 0.0 && g.bHh[i] == 0.0;
      assert Entry(r.params.bIh[i], r.state.m.bIh[i], r.state.v.bIh[i])
          == AdamEntry(cfg, f, alpha, t, p.bIh[i], s.m.bIh[i], s.v.bIh[i], g.bIh[i]);
      assert Entry(r.params.bHh[i], r.state.m.bHh[i], r.state.v.bHh[i])
          == AdamEntry(cfg, f, alpha, t, p.bHh[i], s.m.bHh[i], s.v.bHh[i], g.bHh[i]);
    }
  }

  /** With an all-zero gradient, an Adam step (as written or corrected)
      leaves every weight and bias unchanged; the moments still decay and
      `t` still advances. */
  lemma ZeroGradientKeepsParameters(cfg: Config, f: Primitives, p: GateTensors, s: State,
                                    g: GateTensors, lr: real, hidden: nat, inputs: nat)
    requires cfg.Valid() && Lawful(f)
    requires Shaped(p, hidden, inputs) && Wellformed(s, hidden, inputs) && Shaped(g, hidden, inputs)
    requires AllZeroTensors(g)
    ensures Update(cfg, f, p, s, g, lr, hidden, inputs).params == p
    ensures inputs <= hidden ==> UpdateAsWritten(cfg, f, p, s, g, lr, hidden, inputs).params == p
  {
    ZeroGradientKeepsCovered(cfg, f, p, s, g, lr, hidden, inputs, hidden);
    if inputs <= hidden {
      ZeroGradientKeepsCovered(cfg, f, p, s, g, lr, hidden, inputs, inputs);
    }
  }

  /** Parameters, zero moments and a unit gradient for a generator with one
      input and two hidden units. */
  function TinyTensors(x: real): GateTensors {
    GateTensors([[x], [x]], [[x, x], [x, x]], [x, x], [x, x])
  }

  /** The as-written Adam step on a 1-input, 2-hidden generator with a unit
      gradient everywhere: the first moment of W_hh[0][1] stays 0 although
      the rule asks for `(1 - beta1) * 1`, and W_hh[0][1] does not move, while
      the corrected step does update that moment. */
  lemma AsWrittenSkipsRecurrentColumn(f: Primitives, lr: real)
    requires Lawful(f)
    ensures var r := UpdateAsWritten(Defaults, f, TinyTensors(0.0), State(TinyTensors(0.0), TinyTensors(0.0), 0),
                                     TinyTensors(1.0), lr, 2, 1);
      r.state.m.wHh[0][1] == 0.0 && r.params.wHh[0][1] == 0.0
    ensures var r := Update(Defaults, f, TinyTensors(0.0), State(TinyTensors(0.0), TinyTensors(0.0), 0),
                            TinyTensors(1.0), lr, 2, 1);
      r.state.m.wHh[0][1] == (1.0 - Defaults.beta1) * 1.0
  {
    var z := TinyTensors(0.0);
    var s := State(z, z, 0);
    var g := TinyTensors(1.0);
    assert Shaped(z, 2, 1) && Wellformed(s, 2, 1) && Shaped(g, 2, 1);
    var r := Update(Defaults, f, z, s, g, lr, 2, 1);
    var alpha := Alpha(Defaults, f, lr, 1);
    assert Entry(r.params.wHh[0][1], r.state.m.wHh[0][1], r.state.v.wHh[0][1])
        == AdamEntry(Defaults, f, alpha, 1, z.wHh[0][1], z.wHh[0][1], z.wHh[0][1], g.wHh[0][1]);
  }

  /** Plain gradient descent on the entries whose column is below `cols`. */
  function SgdMatrix(p: Matrix, g: Matrix, lr: real, rows: nat, width: nat, cols: nat): (r: Matrix)
    requires cols <= width && IsMatrix(p, rows, width) && IsMatrix(g, rows, width)
    ensures IsMatrix(r, rows, width)
    ensures forall i, j :: 0 <= i < rows && 0 <= j < cols ==> r[i][j] == p[i][j] - lr * g[i][j]
    ensures forall i, j :: 0 <= i < rows && cols <= j < width ==> r[i][j] == p[i][j]
  {
    seq(rows, i requires 0 <= i < rows =>
      seq(width, j requires 0 <= j < width => if j < cols then p[i][j] - lr * g[i][j] else p[i][j]))
  }

  /** Plain gradient descent on every entry of a bias vector. */
  function SgdVector(p: Vector, g: Vector, lr: real): (r: Vector)
    requires |g| == |p|
    ensures |r| == |p|
    ensures forall i :: 0 <= i < |p| ==> r[i] == p[i] - lr * g[i]
  {
    seq(|p|, i requires 0 <= i < |p| => p[i] - lr * g[i])
  }

  /** One descent step that moves W_hh only in its first `hhCols` columns:
      every other entry of every tensor moves by `-lr` times its gradient. */
  function SgdCovering(p: GateTensors, g: GateTensors, lr: real, hidden: nat, inputs: nat, hhCols: nat): (r: GateTensors)
    requires hhCols <= hidden && Shaped(p, hidden, inputs) && Shaped(g, hidden, inputs)
    ensures Shaped(r, hidden, inputs)
    ensures forall i, j :: 0 <= i < hidden && 0 <= j < inputs ==> r.wIh[i][j] == p.wIh[i][j] - lr * g.wIh[i][j]
    ensures forall i, j :: 0 <= i < hidden && 0 <= j < hidden ==>
      r.wHh[i][j] == if j < hhCols then p.wHh[i][j] - lr * g.wHh[i][j] else p.wHh[i][j]
    ensures forall i :: 0 <= i < hidden ==> r.bIh[i] == p.bIh[i] - lr * g.bIh[i] && r.bHh[i] == p.bHh[i] - lr * g.bHh[i]
  {
    GateTensors(
      SgdMatrix(p.wIh, g.wIh, lr, hidden, inputs, inputs),
      SgdMatrix(p.wHh, g.wHh, lr, hidden, hidden, hhCols),
      SgdVector(p.bIh, g.bIh, lr),
      SgdVector(p.bHh, g.bHh, lr))
  }

  /** `update_parameters` as written: W_ih and both biases move by `-lr`
      times their gradient, W_hh only in its first `inputs` columns. */
  function SgdUpdateAsWritten(p: GateTensors, g: GateTensors, lr: real, hidden: nat, inputs: nat): (r: GateTensors)
    requires inputs <= hidden && Shaped(p, hidden, inputs) && Shaped(g, hidden, inputs)
    ensures Shaped(r, hidden, inputs)
    ensures forall i, j :: 0 <= i < hidden && 0 <= j < inputs ==> r.wIh[i][j] == p.wIh[i][j] - lr * g.wIh[i][j]
    ensures forall i, j :: 0 <= i < hidden && 0 <= j < inputs ==> r.wHh[i][j] == p.wHh[i][j] - lr * g.wHh[i][j]
    ensures forall i, j :: 0 <= i < hidden && inputs <= j < hidden ==> r.wHh[i][j] == p.wHh[i][j]
    ensures forall i :: 0 <= i < hidden ==> r.bIh[i] == p.bIh[i] - lr * g.bIh[i] && r.bHh[i] == p.bHh[i] - lr * g.bHh[i]
  {
    SgdCovering(p, g, lr, hidden, inputs, inputs)
  }

  /** `update_parameters` with every W_hh column covered: each entry of each
      tensor moves by `-lr` times its own gradient. */
  function SgdUpdate(p: GateTensors, g: GateTensors, lr: real, hidden: nat, inputs: nat): (r: GateTensors)
    requires Shaped(p, hidden, inputs) && Shaped(g, hidden, inputs)
    ensures Shaped(r, hidden, inputs)
    ensures forall i, j :: 0 <= i < hidden && 0 <= j < inputs ==> r.wIh[i][j] == p.wIh[i][j] - lr * g.wIh[i][j]
    ensures forall i, j :: 0 <= i < hidden && 0 <= j < hidden ==> r.wHh[i][j] == p.wHh[i][j] - lr * g.wHh[i][j]
    ensures forall i :: 0 <= i < hidden ==> r.bIh[i] == p.bIh[i] - lr * g.bIh[i] && r.bHh[i] == p.bHh[i] - lr * g.bHh[i]
  {
    SgdCovering(p, g, lr, hidden, inputs, hidden)
  }

  /** A descent step undone by the opposite step: `SgdUpdate` is invertible. */
  lemma SgdRoundTrip(p: GateTensors, g: GateTensors, lr: real, hidden: nat, inputs: nat)
    requires Shaped(p, hidden, inputs) && Shaped(g, hidden, inputs)
    ensures SgdUpdate(SgdUpdate(p, g, lr, hidden, inputs), g, -lr, hidden, inputs) == p
  {
    var q := SgdUpdate(SgdUpdate(p, g, lr, hidden, inputs), g, -lr, hidden, inputs);
    MatrixEq(q.wIh, p.wIh, hidden, inputs);
    MatrixEq(q.wHh, p.wHh, hidden, hidden);
    assert q.bIh == p.bIh;
    assert q.bHh == p.bHh;
  }

  /** The as-written descent step on a 1-input, 2-hidden generator with a
      unit gradient leaves W_hh[0][1] at 0; the corrected step moves it to
      `-lr`. */
  lemma SgdAsWrittenSkipsRecurrentColumn(lr: real)
    requires lr != 0.0
    ensures SgdUpdateAsWritten(TinyTensors(0.0), TinyTensors(1.0), lr, 2, 1).wHh[0][1] == 0.0
    ensures SgdUpdate(TinyTensors(0.0), TinyTensors(1.0), lr, 2, 1).wHh[0][1] == -lr
  {
    assert Shaped(TinyTensors(0.0), 2, 1) && Shaped(TinyTensors(1.0), 2, 1);
  }
}
