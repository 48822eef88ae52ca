# Anomalous threshold generator and driver: a Dafny model

This project models two parts of a streaming anomaly detector for a
univariate sensor series.

- **`AnomalousThresholdGenerator`** (`src/anomalous_threshold_generator.cpp`):
  an LSTM reads a window of recent prediction errors and emits an anomaly
  threshold. The model covers the bookkeeping around that LSTM:
  - input validation and the minimal-threshold fallback of `generate`;
  - the exception of `generate_threshold`, its mean-and-clamp, and the
    state threading of `generate_thresholds`;
  - the clipped MSE gradient of `update`;
  - the gradients `backward_step` accumulates, step by step;
  - the Adam update (`update_parameters_adam`) with its zero-initialised
    moments and step counter;
  - the plain descent step `update_parameters`;
  - the hyperparameter constructor.
- **The driver** (`src/main.cpp`):
  - the confusion-matrix tally and scores of `calculate_metrics`;
  - the field split and label trim of `load_csv_values`;
  - the startup checks and the warm-up/decision dispatch of `main`.

Everything is over Dafny `real`. The generator is an immutable record
(`ThresholdGenerator.Generator`) holding the class's members: lookback
length, bounds, the LSTM's input-gate tensors, the Adam state, `h`, `c`
and the last output. Each operation returns the updated record.

The LSTM is a `Lstm.Cell`: a record of two function values for `forward`
and `forward_step`. Its only promise (`Lstm.WellShaped`) is the shape of
what the two functions return. `std::exp`, `std::sqrt`, `tanh_func` and
`d_tanh_func` are function values in `Numerics.Primitives`. The model
assumes only that `exp` is positive and that `sqrt` of a nonnegative number
is nonnegative. `std::pow(beta, t)` is exact real exponentiation.

Modules: `Outcomes` (results and error kinds), `Tensors` (vectors,
matrices and the element-wise operations of `include/matrix_utils.hpp`),
`Numerics`, `Lstm`, `Adam`, `Backward`, `ThresholdGenerator`, `Metrics`,
`Csv`, `Driver`.

`backward_step` is modelled as the code computes it, which is not textbook
backpropagation through time:

- **Previous-step gradient.** The code computes the gradient for the previous
  time step as `W_hh * dxh`. Backpropagation through time would use
  `W_hh^T * dxh`.
- **Gate activations.** The code re-runs `forward_step` at every time step
  from the same initial `h_prev` and `c_prev`, rather than from the state
  each step actually started from.
- **Trained gate.** The generator reads and updates only the LSTM's
  input-gate tensors; the forget, output and cell gates are never trained.
- **Cell-state gradient.** `dc` is never updated.

## Model

| member | source | states |
|---|---|---|
| Tensors.MatVec | include/matrix_utils.hpp:6 | the product has one entry per matrix row, each the row's dot product with the vector; a zero vector maps to a zero vector |
| Tensors.Add | include/matrix_utils.hpp:7 | element-wise sum of equal-length vectors; the sum of two zero vectors is zero |
| Tensors.Mul | include/matrix_utils.hpp:8 | element-wise product of equal-length vectors; zero when either factor is zero |
| Tensors.Sum | src/anomalous_threshold_generator.cpp:268 | `std::accumulate` from 0: the sum of nonnegative entries is nonnegative, and the sum of zeros is zero |
| Tensors.DotZero | include/matrix_utils.hpp:6 | a dot product against an all-zero vector is zero, whatever the other operand |
| Numerics.Sigmoid | src/anomalous_threshold_generator.cpp:252 | `1 / (1 + exp(-x))` lies strictly between 0 and 1 |
| Numerics.PowOfRate | src/anomalous_threshold_generator.cpp:297 | for a decay rate in (0, 1), `pow(beta, t)` is in (0, 1] and below 1 once t >= 1, so `1 - pow(beta, t)` is a positive divisor |
| Adam.Alpha | src/anomalous_threshold_generator.cpp:297 | the bias-corrected step size `alpha_t` is nonnegative for a nonnegative learning rate and zero for a zero one |
| Numerics.Clamp | src/anomalous_threshold_generator.cpp:271 | `std::clamp` lands in [lo, hi], is the identity on values already there, and returns the violated bound otherwise |
| Adam.ClipGradient | src/anomalous_threshold_generator.cpp:290-294 | `max(min(g, 5), -5)` lies in [-5, 5], is the identity inside that range, agrees with `std::clamp` to [-5, 5], and is zero exactly at zero |
| Adam.ZeroMoments | src/anomalous_threshold_generator.cpp:67-82 | `init_adam_parameters` allocates all-zero tensors with the same shapes as the four input-gate parameters |
| Adam.InitialState | src/anomalous_threshold_generator.cpp:62-63 | after construction `t = 0` and all eight moment tensors are zero, shaped like the parameters, with nonnegative second moments |
| Adam.SecondMoment | src/anomalous_threshold_generator.cpp:312-313 | the updated second moment `beta2 * v + (1 - beta2) * g^2` is nonnegative when the old one is |
| Adam.CorrectedSecond | src/anomalous_threshold_generator.cpp:320-321 | the bias-corrected second moment is nonnegative, so its square root plus epsilon is a positive divisor |
| Adam.AdamEntry | src/anomalous_threshold_generator.cpp:307-329 | one entry's Adam step, including the extra clipped-gradient factor, keeps the second moment nonnegative and does not move the parameter when the gradient is zero |
| Adam.StepVector | src/anomalous_threshold_generator.cpp:334-358 | every bias entry and its two moments follow the per-entry Adam rule for their own gradient; second moments stay nonnegative |
| Adam.StepMatrix | src/anomalous_threshold_generator.cpp:305-331 | entries in the covered columns follow the per-entry Adam rule; entries in other columns keep their value and moments |
| Adam.UpdateAsWritten | src/anomalous_threshold_generator.cpp:285-365 | the source's Adam step: `t` goes up by one; every entry of W_ih, both biases and the first input-size columns of W_hh follows the Adam rule for its own gradient; the other W_hh columns keep their value and moments |
| Adam.Update | src/anomalous_threshold_generator.cpp:285-365 | the corrected Adam step: `t` goes up by exactly one, every entry of all four tensors follows the Adam rule for its own gradient, shapes are kept and second moments stay nonnegative |
| Adam.ZeroGradientKeepsParameters | src/anomalous_threshold_generator.cpp:324-329 | with an all-zero gradient, the Adam step (both as written and corrected) leaves every weight and bias unchanged |
| Adam.AsWrittenSkipsRecurrentColumn | src/anomalous_threshold_generator.cpp:305-313 | with 1 input, 2 hidden units and a unit gradient, the as-written step leaves W_hh[0][1] and its first moment at 0, while the corrected step sets that moment to `1 - beta1` |
| Adam.SgdMatrix | src/anomalous_threshold_generator.cpp:214-219 | covered entries move by `-lr` times their gradient; the others stay |
| Adam.SgdVector | src/anomalous_threshold_generator.cpp:222-225 | every bias entry moves by `-lr` times its gradient |
| Adam.SgdUpdateAsWritten | src/anomalous_threshold_generator.cpp:203-232 | the source's descent step: W_ih, both biases and the first input-size columns of W_hh move by `-lr` times their gradient; the other W_hh columns never move |
| Adam.SgdUpdate | src/anomalous_threshold_generator.cpp:203-232 | the corrected descent step moves every entry of all four tensors by `-lr` times its own gradient |
| Adam.SgdRoundTrip | src/anomalous_threshold_generator.cpp:213-225 | a descent step with rate `lr` followed by one with `-lr` gives back the original parameters |
| Adam.SgdAsWrittenSkipsRecurrentColumn | src/anomalous_threshold_generator.cpp:214-219 | with 1 input, 2 hidden units and a unit gradient, the as-written step leaves W_hh[0][1] at 0, while the corrected one moves it to `-lr` |
| Backward.CombinedGradient | src/anomalous_threshold_generator.cpp:148-184 | the per-step gradient summed over the four gates has the hidden size and is zero whenever the incoming `dh` is zero |
| Backward.AddToColumnZero | src/anomalous_threshold_generator.cpp:188 | accumulating one time step into `dw_ih` changes column 0 only |
| Backward.AddOuter | src/anomalous_threshold_generator.cpp:189-191 | accumulating one time step into `dw_hh` adds `dxh[i] * h_prev[j]` to each entry |
| Backward.BackStep | src/anomalous_threshold_generator.cpp:146-197 | one time step keeps the gradients shaped like the parameters and the passed-on `dh` hidden-sized; equal bias gradients stay equal; a `dw_ih` zero outside column 0 stays so; zero gradients and a zero `dh` stay zero |
| Backward.WalkBack | src/anomalous_threshold_generator.cpp:144-198 | the reverse walk over steps `t - 1` down to 0 fails exactly when there is a step and the incoming `dh` is not hidden-sized; otherwise it keeps the shapes, the equal bias gradients, column-0-only `dw_ih`, and all-zero state |
| Backward.Backward | src/anomalous_threshold_generator.cpp:133-200 | fails, with a dimension mismatch, exactly when there is a time step and `doutput` is not hidden-sized; on success the gradients are shaped like the parameters, `db_ih == db_hh`, `dw_ih` is zero outside column 0, `dc` is zeros of `c_prev`'s length, an empty input returns `doutput` and zero gradients, and a zero `doutput` gives zero gradients and `dh` |
| Backward.BackwardStep | src/anomalous_threshold_generator.cpp:123-201 | the loop returns exactly `Backward.Backward` of its arguments; gradients come back shaped like the parameters; `db_ih == db_hh`; `dw_ih` is zero outside column 0; `dc` is zeros of `c_prev`'s length; a zero `doutput` gives zero gradients and `dh`; it fails with a dimension mismatch exactly when there is a time step and `doutput` is not hidden-sized |
| ThresholdGenerator.New | src/anomalous_threshold_generator.cpp:49-64 | the hyperparameter constructor keeps its arguments, starts `t` at 0 with zero moments shaped like the parameters, and zeroes `h` and `c` |
| ThresholdGenerator.Generate | src/anomalous_threshold_generator.cpp:234-257 | an empty or wrong-length window returns exactly the minimal threshold and changes nothing; otherwise the forward output and state are kept and the result is the sigmoid of the first output floored at the minimal threshold; the result is never below the minimal threshold |
| ThresholdGenerator.GenerateThreshold | src/anomalous_threshold_generator.cpp:259-272 | a wrong-length window raises invalid-argument and changes nothing; otherwise the result is the output's mean clamped into [lower_bound, upper_bound], equal to the mean when it is in range |
| ThresholdGenerator.GenerateThresholds | src/anomalous_threshold_generator.cpp:274-283 | succeeds exactly when every window has the lookback length, then yields one in-bounds threshold per window; an empty run returns no thresholds and the state unchanged; parameters and bounds are untouched |
| ThresholdGenerator.ThresholdsSnoc | src/anomalous_threshold_generator.cpp:278-280 | after good windows `ws`, the run over `ws + [w]` ends in the state one `generate_threshold(w)` leaves from the state after `ws`, and on success appends that call's threshold |
| ThresholdGenerator.ThresholdsStopAtFirstBad | src/anomalous_threshold_generator.cpp:260-280 | a run raises invalid-argument at its first bad window, keeping the state the good windows before it left |
| ThresholdGenerator.ThresholdsThreadState | src/anomalous_threshold_generator.cpp:278-280 | the k-th threshold is what `generate_threshold` gives on window k from the state left by the first k windows |
| ThresholdGenerator.OutputGradient | src/anomalous_threshold_generator.cpp:89-103 | every clipped MSE gradient entry lies in [-5, 5]; it equals the raw gradient when that is in range and the violated bound when it is not; it is zero exactly when that output equals the target |
| ThresholdGenerator.LossGradient | src/anomalous_threshold_generator.cpp:90-103 | the `doutput` of `update` has one entry per output, is the clipped MSE gradient against `past_errors.back()`, and is zero when every output equals that error |
| ThresholdGenerator.Update | src/anomalous_threshold_generator.cpp:85-118 | the new parameters and moments are exactly one as-written Adam step along the gradients `Backward.Backward` computes from the current `h`, `c` and `LossGradient` of the forward output; `t` goes up by exactly one; the new `h`, `c` are the forward pass's; configuration and stored output are kept; the weights do not move when the output already equals the newest error; it fails exactly when `past_errors` is nonempty and the output length is not the hidden size |
| Metrics.CountsPartition | src/main.cpp:76-81 | every index is in exactly one of the four buckets, so TP + FP + TN + FN equals the number of predictions |
| Metrics.CountOutcomes | src/main.cpp:74-81 | the if/else-if chain counts each bucket exactly, and the counts add up to the number of predictions |
| Metrics.Ratio | src/main.cpp:83-85 | a ratio exists exactly when its denominator is nonzero, and lies in [0, 1] when the numerator is at most the denominator |
| Metrics.Harmonic | src/main.cpp:86 | `f1_score` exists exactly when both scores exist and their sum is nonzero; for two positive scores it is positive and lies between them |
| Metrics.HarmonicBetween | src/main.cpp:86 | the harmonic mean `2ab / (a + b)` of two positive numbers is positive and lies between them |
| Metrics.Score | src/main.cpp:83-86 | accuracy exists iff there is a prediction, precision and recall iff their denominators are nonzero, F1 iff TP > 0; accuracy, precision and recall lie in [0, 1], F1 in (0, 1]; when TP > 0, F1 is `2TP / (2TP + FP + FN)` |
| Metrics.HarmonicOfFractions | src/main.cpp:86 | the harmonic mean of `a/x` and `a/y` is `2a / (x + y)` |
| Metrics.HarmonicOfRatios | src/main.cpp:86 | F1 of precision `a/x` and recall `a/y` exists and equals `2a / (x + y)` |
| Metrics.F1FromCounts | src/main.cpp:84-86 | when TP > 0, the harmonic mean of precision `TP / (TP + FP)` and recall `TP / (TP + FN)` is `2TP / (2TP + FP + FN)`, which lies in (0, 1] |
| Metrics.CalculateMetrics | src/main.cpp:73-89 | over the tallied counts: accuracy exists iff there is a prediction and is `(TP + TN) / n`; precision exists iff TP + FP > 0 and is `TP / (TP + FP)`; recall exists iff TP + FN > 0 and is `TP / (TP + FN)`; F1 exists iff TP > 0 and is `2TP / (2TP + FP + FN)`, in (0, 1] |
| Csv.TrimStart | src/main.cpp:50 | the result is a suffix of the input that does not start with a space, and only spaces were dropped |
| Csv.TrimEnd | src/main.cpp:51 | the result is a prefix of the input that does not end with a space, and only spaces were dropped |
| Csv.Trim | src/main.cpp:50-51 | the trimmed field neither starts nor ends with one of `" \n\r\t"` |
| Csv.TrimIsInfix | src/main.cpp:50-51 | the trimmed field is one contiguous piece of the input, preceded only by spaces |
| Csv.TrimDropsTrailingSpaces | src/main.cpp:51 | everything after the kept piece is a space |
| Csv.IsAnomalyLabel | src/main.cpp:53-54 | the label is true iff the trimmed field is `"1"`; the `"1\n"`, `"1\r"` and `"1\r\n"` alternatives can never match |
| Csv.UpToComma | src/main.cpp:42 | one `getline(ss, field, ',')` returns the comma-free text up to the first comma or the end |
| Csv.AfterComma | src/main.cpp:42-44 | what the next `getline` sees: the text after the first comma, or nothing when there is no comma |
| Csv.Field | src/main.cpp:42-44 | the k-th `getline(ss, field, ',')` never yields a comma, and a line without a comma has no second or later field |
| Csv.ThirdFieldOfRow | src/main.cpp:42-44 | in a line `a,b,c` or `a,b,c,...` with comma-free fields, the third field read is exactly `c` |
| Csv.CommaFreePrefix | src/main.cpp:42-43 | a comma-free field and its comma are consumed exactly |
| Csv.UpToCommaOfPrefix | src/main.cpp:44 | reading stops at the comma after a comma-free field |
| Csv.ParseRow | src/main.cpp:38-59 | a row exists iff its value field parses; it carries the first field as timestamp, and it is an anomaly iff the trimmed third field is `"1"` |
| Csv.LineRow | src/main.cpp:38-59 | a line yields a row exactly when it is nonempty and its row parses, and then that row |
| Csv.ParseLines | src/main.cpp:35-61 | the read loop yields at most one row per line; a single line yields exactly the row its reader gives, or nothing when the reader gives none (for the file's reader `RowReader`, an empty or unparsable line) |
| Csv.ParseLinesAppend | src/main.cpp:35-61 | the loop is a filter: the rows of two consecutive runs of lines are those of the first run followed by those of the second |
| Csv.ParseLinesKeepsGoodRows | src/main.cpp:35-61 | when every line is nonempty and parses, each line yields its row, in file order |
| Csv.LoadCsvValues | src/main.cpp:31-35 | an empty file yields nothing, and a nonempty one fewer rows than it has lines |
| Csv.HeaderIgnored | src/main.cpp:31-35 | the first line never contributes a row, whatever it holds: a file yields exactly the rows of the lines after it |
| Driver.Values | src/main.cpp:114-117 | the observed values are the points' measured values, in order |
| Driver.Drive | src/main.cpp:110-131 | one dispatch per point: train exactly at the point where the observed count equals `train_size`, on exactly the values seen so far; decide on every later point with its own value and label; warm up before |
| Driver.TrainFiresOnce | src/main.cpp:120-123 | training happens exactly once when `1 <= train_size <= n`, and never otherwise |
| Driver.DecisionsAfterWarmup | src/main.cpp:124-126 | `max(0, n - train_size)` points go to `is_anomalous` and `clean` |
| Driver.Run | src/main.cpp:97-131 | a zero minimal threshold and an empty data set are refused before any point is processed; otherwise every point is dispatched as `Drive` dispatches it (training data, values and labels included), with the train and decide counts above |

## Findings

| source | as written | input that shows it | evidently intended | confidence | as-written member | corrected member |
|---|---|---|---|---|---|---|
| src/anomalous_threshold_generator.cpp:305-313 | the W_hh Adam update runs inside the loop over `weight_ih[i].size()` (the input size) | lookback length 1, hidden size 2, gradient 1 everywhere: W_hh[0][1] and its moments are never updated (for input size > hidden size the loop indexes past the end of W_hh's rows, undefined behaviour) | every entry of the `hidden x hidden` W_hh follows the Adam rule | high; not executed | Adam.UpdateAsWritten, Adam.AsWrittenSkipsRecurrentColumn | Adam.Update |
| src/anomalous_threshold_generator.cpp:214-219 | the W_hh descent update runs inside the loop over `weight_ih[i].size()` | lookback length 1, hidden size 2, gradient 1 everywhere: W_hh[0][1] stays 0 instead of moving to `-lr` | every W_hh entry moves by `-lr` times its gradient | high; not executed | Adam.SgdUpdateAsWritten, Adam.SgdAsWrittenSkipsRecurrentColumn | Adam.SgdUpdate |

`ThresholdGenerator.Update` models `update` as the source calls it, so it
uses `Adam.UpdateAsWritten`; `Adam.Update` and `Adam.SgdUpdate` are the
corrected steps, and `Adam.ZeroGradientKeepsParameters` holds for both Adam
variants.

## Left out

- **Float arithmetic.** IEEE rounding, NaN and infinity are not modelled; everything is over `real`.
- **Transcendental functions.** `std::exp`, `std::sqrt`, `tanh_func` and `d_tanh_func` are abstract. Their bodies are not part of this model.
- **The LSTM generator.** The bodies of `forward` and `forward_step`, the getters and setters, and the other three gates' parameters are not part of this model. The two passes are abstract functions whose only property is the shape of their results.
- **Matrix utilities.** The bodies in `include/matrix_utils.hpp` are not part of this model. The operations `backward_step` needs are defined directly. An element-wise operation on vectors of different lengths is a `DimensionMismatch` failure, as an invalid-argument error would report it.
- **Adam constants.** `beta1`, `beta2` and `epsilon` are declared in a header that is not part of this model. They are an `Adam.Config` parameter, with `Adam.Defaults` holding 0.9, 0.999 and 1e-8.
- **Logging.** All `std::cout`/`std::cerr` output is left out, including the loss `update` prints. The loss is computed only for that output.
- **CSV I/O.** Opening the file and reading lines are I/O. `std::stof` is a float parser passed in as a parameter.
- **Unshown components.** The `AdapAD` controller, `init_predictor_config`, `init_value_range_config` and JSON loading are not part of this model. The driver's calls into `AdapAD` are modelled as the events `Driver.Drive` emits.
- **Weight-loading constructor.** The constructor at src/anomalous_threshold_generator.cpp:13-45 is not modelled. It does not call `init_adam_parameters`, so the moment vectors stay empty and a later Adam step would index past their end; whether `t` has an in-class initialiser depends on a header that is not part of this model.
- **Integer widths.** The `int` counters of `calculate_metrics` and the `size_t` sizes are unbounded naturals, so overflow is not modelled. A negative `lookback_len` is not representable.
- ThresholdGenerator.GenerateThreshold: requires a nonempty forward output. With an empty output the float mean is 0/0 = NaN, and `std::clamp` passes NaN through; reals cannot express that.
- ThresholdGenerator.GenerateThreshold: requires `lower_bound <= upper_bound`. `std::clamp` is undefined otherwise.
- ThresholdGenerator.Update: requires a nonempty `past_errors` unless the forward output is empty. `past_errors.back()` on an empty vector is undefined behaviour.
- ThresholdGenerator.Update: requires a hidden size and lookback length of at least 1. `backward_step` reads `weight_ih[0]` and writes column 0 of `dw_ih`.
- Backward.BackwardStep: requires `h_prev` and `c_prev` of the hidden size. Those are the shapes the generator's state always has.
- ThresholdGenerator.Update: requires a lookback length no larger than the hidden size. The source's Adam loop (src/anomalous_threshold_generator.cpp:305-331) indexes past the end of W_hh's rows otherwise (undefined behaviour).
- Adam.UpdateAsWritten: requires input size <= hidden size. Otherwise the source indexes past the end of W_hh's rows (undefined behaviour).
- Adam.SgdUpdateAsWritten: requires input size <= hidden size, for the same reason.
