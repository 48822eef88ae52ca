/** `AnomalousThresholdGenerator`: an LSTM over a window of recent
    prediction errors whose output becomes an anomaly threshold, trained
    online with Adam. The record `Generator` holds the members of the class;
    each operation returns the updated record. */
module ThresholdGenerator {
  import opened Tensors
  import opened Numerics
  import opened Lstm
  import opened Outcomes
  import Adam
  import Backward

  datatype Generator = Generator(
    lookbackLen: nat,
    predictionLen: int,
    lowerBound: real,
    upperBound: real,
    params: GateTensors,   // the LSTM's input-gate tensors
    adam: Adam.State,
    h: Vector,
    c: Vector,
    output: Vector)        // the last forward output kept by `generate` / `generate_threshold`

  /** Parameters `hidden x lookbackLen` / `hidden x hidden`, moments shaped
      like them with nonnegative second moments, state vectors of the hidden
      size. */
  predicate Valid(cell: Cell, g: Generator) {
    && Shaped(g.params, cell.hidden, g.lookbackLen)
    && Adam.Wellformed(g.adam, cell.hidden, g.lookbackLen)
    && |g.h| == cell.hidden
    && |g.c| == cell.hidden
  }

  /** What an operation keeps: configuration and learned parameters. */
  predicate SameModel(g: Generator, g2: Generator) {
    && g2.lookbackLen == g.lookbackLen
    && g2.predictionLen == g.predictionLen
    && g2.lowerBound == g.lowerBound
    && g2.upperBound == g.upperBound
    && g2.params == g.params
    && g2.adam == g.adam
  }

  /** The hyperparameter constructor. The LSTM's own constructor (not part of
      this model) supplies the initial tensors `init`; `t` starts at 0, the
      eight moment tensors are zeros shaped like the parameters, and `h`, `c`
      are zero vectors of the hidden size. */
  function New(cell: Cell, lookbackLen: nat, predictionLen: int, lowerBound: real, upperBound: real,
               init: GateTensors): (g: Generator)
    requires 1 <= cell.hidden && Shaped(init, cell.hidden, lookbackLen)
    ensures Valid(cell, g)
    ensures g.lookbackLen == lookbackLen && g.predictionLen == predictionLen
    ensures g.lowerBound == lowerBound && g.upperBound == upperBound
    ensures g.params == init
    ensures g.adam.t == 0 && AllZeroTensors(g.adam.m) && AllZeroTensors(g.adam.v)
    ensures AllZero(g.h) && AllZero(g.c)
  {
    Generator(lookbackLen, predictionLen, lowerBound, upperBound, init,
              Adam.InitialState(init, cell.hidden, lookbackLen),
              Zeros(cell.hidden), Zeros(cell.hidden), [])
  }

  /** `generate(prediction_errors, minimal_threshold)`. A window that is
      empty or not `lookback_len` long yields exactly the minimal threshold
      and leaves the generator untouched. Otherwise the forward pass runs,
      its output and final state are kept, and the result is the sigmoid of
      the first output floored at the minimal threshold (or the minimal
      threshold itself when the output is empty). The result is never below
      the minimal threshold. */
  function Generate(cell: Cell, f: Primitives, g: Generator, errors: Vector, minimalThreshold: real)
    : (r: (real, Generator))
    requires WellShaped(cell) && Lawful(f) && Valid(cell, g)
    ensures Valid(cell, r.1) && SameModel(g, r.1)
    ensures minimalThreshold <= r.0
    ensures r.0 == minimalThreshold || r.0 < 1.0
    ensures |errors| == 0 || |errors| != g.lookbackLen ==> r == (minimalThreshold, g)
    ensures 0 < |errors| == g.lookbackLen ==>
      var fw := ForwardPass(cell, g.params, errors, g.h, g.c);
      && r.1 == g.(output := fw.output, h := fw.h, c := fw.c)
      && (|fw.output| == 0 ==> r.0 == minimalThreshold)
      && (0 < |fw.output| ==> r.0 == Max(minimalThreshold, Sigmoid(f, fw.output[0])))
  {
    if |errors| == 0 || |errors| != g.lookbackLen then
      (minimalThreshold, g)
    else
      var window := errors[|errors| - g.lookbackLen..];
      assert window == errors;
      var fw := ForwardPass(cell, g.params, window, g.h, g.c);
      var g2 := g.(output := fw.output, h := fw.h, c := fw.c);
      if |fw.output| == 0 then
        (minimalThreshold, g2)
      else
        (Max(minimalThreshold, Sigmoid(f, fw.output[0])), g2)
  }

  /** `generate_threshold(new_input)`. A window that is not `lookback_len`
      long raises invalid-argument before anything changes. Otherwise the
      forward pass runs, its output and final state are kept, and the mean of
      the output clamped into [lower_bound, upper_bound] is returned; a mean
      already in range comes back unchanged. */
  function GenerateThreshold(cell: Cell, g: Generator, input: Vector): (r: (Result<real>, Generator))
    requires WellShaped(cell) && Valid(cell, g)
    requires 1 <= cell.outputLen && g.lowerBound <= g.upperBound
    ensures Valid(cell, r.1) && SameModel(g, r.1)
    ensures r.0.Failure? <==> |input| != g.lookbackLen
    ensures r.0.Failure? ==> r.0.error == InvalidArgument && r.1 == g
    ensures r.0.Success? ==> g.lowerBound <= r.0.value <= g.upperBound
    ensures r.0.Success? ==>
      var fw := ForwardPass(cell, g.params, input, g.h, g.c);
      var mean := Sum(fw.output) / (|fw.output| as real);
      && r.1 == g.(output := fw.output, h := fw.h, c := fw.c)
      && (g.lowerBound <= mean <= g.upperBound ==> r.0.value == mean)
      && (mean < g.lowerBound ==> r.0.value == g.lowerBound)
      && (g.upperBound < mean ==> r.0.value == g.upperBound)
  {
    if |input| != g.lookbackLen then
      (Failure(InvalidArgument), g)
    else
      var fw := ForwardPass(cell, g.params, input, g.h, g.c);
      var mean := Sum(fw.output) / (|fw.output| as real);
      (Success(Clamp(mean, g.lowerBound, g.upperBound)), g.(output := fw.output, h := fw.h, c := fw.c))
  }

  /** `generate_thresholds(input_sequence)`: `generate_threshold` on each
      window in order, each call starting from the state the previous one
      left. It succeeds exactly when every window has `lookback_len`
      entries, and then returns one in-bounds threshold per window. The first
      bad window raises, keeping the state changes of the windows before it. */
  function GenerateThresholds(cell: Cell, g: Generator, windows: seq<Vector>): (r: (Result<seq<real>>, Generator))
    requires WellShaped(cell) && Valid(cell, g)
    requires 1 <= cell.outputLen && g.lowerBound <= g.upperBound
    ensures Valid(cell, r.1) && SameModel(g, r.1)
    ensures r.0.Success? <==> forall k :: 0 <= k < |windows| ==> |windows[k]| == g.lookbackLen
    ensures r.0.Failure? ==> r.0.error == InvalidArgument
    ensures r.0.Success? ==> |r.0.value| == |windows|
    ensures r.0.Success? ==> forall k :: 0 <= k < |r.0.value| ==> g.lowerBound <= r.0.value[k] <= g.upperBound
    ensures |windows| == 0 ==> r == (Success([]), g)
    decreases |windows|
  {
    if |windows| == 0 then
      (Success([]), g)
    else
      var (first, g1) := GenerateThreshold(cell, g, windows[0]);
      if first.Failure? then
        (Failure(first.error), g1)
      else
        var (rest, g2) := GenerateThresholds(cell, g1, windows[1..]);
        if rest.Failure? then
          (Failure(rest.error), g2)
        else
          (Success([first.value] + rest.value), g2)
  }

  /** The state is threaded: after a run of good windows `ws`, one more
      window `w` continues from the state `ws` left, exactly as a single
      `GenerateThreshold` call would, and on success its threshold is
      appended to those of `ws`. With `GenerateThresholds(cell, g, []).1 == g`
      this determines the final state of every run of good windows. */
  lemma {:induction false} ThresholdsSnoc(cell: Cell, g: Generator, ws: seq<Vector>, w: Vector)
    requires WellShaped(cell) && Valid(cell, g)
    requires 1 <= cell.outputLen && g.lowerBound <= g.upperBound
    requires forall k :: 0 <= k < |ws| ==> |ws[k]| == g.lookbackLen
    decreases |ws|
    ensures var before := GenerateThresholds(cell, g, ws);
      && Valid(cell, before.1) && SameModel(g, before.1)
      && GenerateThresholds(cell, g, ws + [w]).1 == GenerateThreshold(cell, before.1, w).1
      && (|w| == g.lookbackLen ==>
            GenerateThresholds(cell, g, ws + [w]).0.value
              == before.0.value + [GenerateThreshold(cell, before.1, w).0.value])
  {
    if |ws| == 0 {
      assert ws + [w] == [w];
    } else {
      var (first, g1) := GenerateThreshold(cell, g, ws[0]);
      assert (ws + [w])[0] == ws[0];
      assert (ws + [w])[1..] == ws[1..] + [w];
      ThresholdsSnoc(cell, g1, ws[1..], w);
    }
  }

  /** A run stops at its first bad window: the result is invalid-argument,
      and the state is the one the good windows before it left. */
  lemma {:induction false} ThresholdsStopAtFirstBad(cell: Cell, g: Generator, windows: seq<Vector>, i: nat)
    requires WellShaped(cell) && Valid(cell, g)
    requires 1 <= cell.outputLen && g.lowerBound <= g.upperBound
    requires i < |windows| && |windows[i]| != g.lookbackLen
    requires forall k :: 0 <= k < i ==> |windows[k]| == g.lookbackLen
    decreases i
    ensures GenerateThresholds(cell, g, windows).0 == Failure(InvalidArgument)
    ensures GenerateThresholds(cell, g, windows).1 == GenerateThresholds(cell, g, windows[..i]).1
  {
    if i == 0 {
      assert windows[..0] == [];
    } else {
      var (first, g1) := GenerateThreshold(cell, g, windows[0]);
      ThresholdsStopAtFirstBad(cell, g1, windows[1..], i - 1);
      assert windows[..i][0] == windows[0];
      assert windows[..i][1..] == windows[1..][..i - 1];
    }
  }

  /** The k-th threshold of a successful `GenerateThresholds` is what
      `GenerateThreshold` gives on window k from the state left by the first k
      windows: the state is threaded through the calls in input order. */
  lemma {:induction false} ThresholdsThreadState(cell: Cell, g: Generator, windows: seq<Vector>, k: nat)
    requires WellShaped(cell) && Valid(cell, g)
    requires 1 <= cell.outputLen && g.lowerBound <= g.upperBound
    requires GenerateThresholds(cell, g, windows).0.Success?
    requires k < |windows|
    decreases k
    ensures var before := GenerateThresholds(cell, g, windows[..k]).1;
      && Valid(cell, before) && SameModel(g, before)
      && GenerateThresholds(cell, g, windows).0.value[k] == GenerateThreshold(cell, before, windows[k]).0.value
  {
    var (first, g1) := GenerateThreshold(cell, g, windows[0]);
    if k == 0 {
      assert windows[..0] == [];
    } else {
      ThresholdsThreadState(cell, g1, windows[1..], k - 1);
      assert windows[..k][0] == windows[0];
      assert windows[..k][1..] == windows[1..][..k - 1];
      assert windows[1..][k - 1] == windows[k];
    }
  }

  /** The clipped MSE gradient of `update`: `2 * (output[i] - target) / n`
      clamped to [-5, 5]. Entries in range are kept, entries beyond it
      saturate at the violated bound, and an entry is zero exactly when that
      output already equals the target. */
  function OutputGradient(output: Vector, target: real): (r: Vector)
    ensures |r| == |output|
    ensures forall i :: 0 <= i < |r| ==> -Adam.ClipValue <= r[i] <= Adam.ClipValue
    ensures forall i :: 0 <= i < |r| ==>
      var raw := 2.0 * (output[i] - target) / (|output| as real);
      -Adam.ClipValue <= raw <= Adam.ClipValue ==> r[i] == raw
    ensures forall i :: 0 <= i < |r| ==>
      var raw := 2.0 * (output[i] - target) / (|output| as real);
      && (raw < -Adam.ClipValue ==> r[i] == -Adam.ClipValue)
      && (Adam.ClipValue < raw ==> r[i] == Adam.ClipValue)
    ensures forall i :: 0 <= i < |r| ==> (r[i] == 0.0 <==> output[i] == target)
  {
    seq(|output|, i requires 0 <= i < |output| =>
      Clamp(2.0 * (output[i] - target) / (|output| as real), -Adam.ClipValue, Adam.ClipValue))
  }

  /** The `doutput` of `update`: the clipped MSE gradient of the forward
      output against the newest error, one entry per output. It is zero
      when every output already equals that error. */
  function LossGradient(output: Vector, pastErrors: Vector): (r: Vector)
    requires 0 < |pastErrors| || |output| == 0
    ensures |r| == |output|
    ensures 0 < |output| ==> r == OutputGradient(output, pastErrors[|pastErrors| - 1])
    ensures (forall i :: 0 <= i < |output| ==> output[i] == pastErrors[|pastErrors| - 1]) ==> AllZero(r)
  {
    if |output| == 0 then [] else OutputGradient(output, pastErrors[|pastErrors| - 1])
  }

  /** `update(learning_rate, past_errors)`: forward pass from the current
      state, clipped MSE gradient against the newest error, `backward_step`
      from the current (not the new) state, one Adam step as the source
      writes it, then the new `h` and `c` are kept. The stored `output` is
      not touched. The new parameters and moments are one as-written Adam
      step along the gradients `Backward.Backward` computes from
      `LossGradient`; when the forward output already equals the newest
      error that gradient is zero and the weights and biases do not move. A
      loss gradient whose length is not the hidden size makes the backward
      pass fail. The lookback length may not exceed the hidden size: the source's
      Adam loop indexes past W_hh's rows otherwise. */
  method Update(cell: Cell, f: Primitives, cfg: Adam.Config, g: Generator, learningRate: real, pastErrors: Vector)
    returns (r: Result<Generator>)
    requires WellShaped(cell) && Lawful(f) && cfg.Valid() && Valid(cell, g)
    requires 1 <= cell.hidden && 1 <= g.lookbackLen <= cell.hidden
    requires 0 < |pastErrors| || cell.outputLen == 0
    ensures r.Failure? <==> 0 < |pastErrors| && cell.outputLen != cell.hidden
    ensures r.Failure? ==> r.error == DimensionMismatch
    ensures r.Success? ==>
      var fw := ForwardPass(cell, g.params, pastErrors, g.h, g.c);
      && Valid(cell, r.value)
      && r.value.adam.t == g.adam.t + 1
      && r.value.h == fw.h && r.value.c == fw.c && r.value.output == g.output
      && r.value.lookbackLen == g.lookbackLen && r.value.predictionLen == g.predictionLen
      && r.value.lowerBound == g.lowerBound && r.value.upperBound == g.upperBound
      && ((forall i :: 0 <= i < |fw.output| ==> fw.output[i] == pastErrors[|pastErrors| - 1])
            ==> r.value.params == g.params)
    ensures r.Success? ==>
      var fw := ForwardPass(cell, g.params, pastErrors, g.h, g.c);
      var back := Backward.Backward(cell, f, g.params, g.lookbackLen, pastErrors, g.h, g.c,
                                    LossGradient(fw.output, pastErrors));
      && back.Success?
      && Shaped(back.value.d, cell.hidden, g.lookbackLen)
      && back.value.d.bIh == back.value.d.bHh
      && Adam.Step(r.value.params, r.value.adam)
           == Adam.UpdateAsWritten(cfg, f, g.params, g.adam, back.value.d, learningRate, cell.hidden, g.lookbackLen)
  {
    var fw := ForwardPass(cell, g.params, pastErrors, g.h, g.c);
    var dOutput := LossGradient(fw.output, pastErrors);
    var back := Backward.BackwardStep(cell, f, g.params, g.lookbackLen, pastErrors, g.h, g.c, dOutput);
    if back.Failure? {
      return Failure(back.error);
    }
    var grads := back.value.d;
    var step := Adam.UpdateAsWritten(cfg, f, g.params, g.adam, grads, learningRate, cell.hidden, g.lookbackLen);
    if forall i :: 0 <= i < |fw.output| ==> fw.output[i] == pastErrors[|pastErrors| - 1] {
      assert AllZero(dOutput);
      Adam.ZeroGradientKeepsParameters(cfg, f, g.params, g.adam, grads, learningRate, cell.hidden, g.lookbackLen);
    }
    r := Success(g.(params := step.params, adam := step.state, h := fw.h, c := fw.c));
    assert Adam.Step(r.value.params, r.value.adam) == step;
  }
}
