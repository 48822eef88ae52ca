/** The LSTM generator the threshold generator wraps. Its forward pass is
    not part of this model: it is an abstract function whose only promise is
    the shape of what it returns. */
module Lstm {
  import opened Tensors

  /** The four tensors of the input gate (`weight_ih_input`,
      `weight_hh_input`, `bias_ih_input`, `bias_hh_input`): the only
      parameters the threshold generator reads and writes through the LSTM's
      getters and setters. The same record carries gradients and Adam
      moments, which have the parameters' shapes. */
  datatype GateTensors = GateTensors(wIh: Matrix, wHh: Matrix, bIh: Vector, bHh: Vector)

  /** Input-to-hidden weights are `hidden x inputs`, hidden-to-hidden weights
      `hidden x hidden`, both biases have length `hidden`. */
  predicate Shaped(x: GateTensors, hidden: nat, inputs: nat) {
    && IsMatrix(x.wIh, hidden, inputs)
    && IsMatrix(x.wHh, hidden, hidden)
    && |x.bIh| == hidden
    && |x.bHh| == hidden
  }

  predicate AllZeroTensors(x: GateTensors) {
    AllZeroMatrix(x.wIh) && AllZeroMatrix(x.wHh) && AllZero(x.bIh) && AllZero(x.bHh)
  }

  /** Result of `forward(sequence, h, c)`: the output vector and the final
      hidden and cell state. */
  datatype Forward = Forward(output: Vector, h: Vector, c: Vector)

  /** Result of `forward_step(x, h, c)`: the four gate activations, the new
      cell state and the new hidden state. */
  datatype Gates = Gates(i: Vector, f: Vector, o: Vector, g: Vector, c: Vector, h: Vector)

  /** The generator as seen from the threshold generator: its hidden size
      (`config::LSTM_size`), the length of the output its forward pass emits,
      and its two passes. The other three gates' parameters never change in
      this class and are folded into the two functions. */
  datatype Cell = Cell(
    hidden: nat,
    outputLen: nat,
    forward: (GateTensors, Vector, Vector, Vector) -> Forward,
    forwardStep: (GateTensors, real, Vector, Vector) -> Gates)

  predicate ForwardShaped(r: Forward, outputLen: nat, hidden: nat) {
    |r.output| == outputLen && |r.h| == hidden && |r.c| == hidden
  }

  predicate GatesShaped(r: Gates, hidden: nat) {
    && |r.i| == hidden && |r.f| == hidden && |r.o| == hidden
    && |r.g| == hidden && |r.c| == hidden && |r.h| == hidden
  }

  /** `generator.forward(sequence, h, c)` with the current input-gate tensors. */
  function ForwardPass(cell: Cell, p: GateTensors, x: Vector, h: Vector, c: Vector): Forward {
    cell.forward(p, x, h, c)
  }

  /** `generator.forward_step(x, h, c)` with the current input-gate tensors. */
  function ForwardStep(cell: Cell, p: GateTensors, x: real, h: Vector, c: Vector): Gates {
    cell.forwardStep(p, x, h, c)
  }

  /** The shape promises of the two passes, for every input. */
  ghost predicate WellShaped(cell: Cell) {
    && (forall p, x, h, c :: ForwardShaped(ForwardPass(cell, p, x, h, c), cell.outputLen, cell.hidden))
    && (forall p, x, h, c :: GatesShaped(ForwardStep(cell, p, x, h, c), cell.hidden))
  }
}
