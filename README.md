# Feed-forward neural network — a Dafny model

This project models the forward pass of a small feed-forward neural network
(the Java implementation in `neuralNetwork.java`) and proves its shape and
wiring properties.

- A **neuron** holds one weight per input and a bias. Activating it checks that
  the input vector has as many entries as there are weights. It then folds
  `bias + w[0]*x[0] + w[1]*x[1] + ...` from left to right and applies the
  activation function.
- A **layer** is an ordered list of neurons. Activating it applies every neuron
  to the same input vector, in order, and fails as soon as one neuron fails.
- A **network** is an ordered list of at least two layers built from a list of
  layer sizes. Layer 0 takes as many inputs as it has neurons (the
  "self-feeding" convention). Layer i > 0 takes as many inputs as layer i-1 has
  neurons. `forward` checks the input size against layer 0's first neuron. It
  then passes the current vector through every layer and records a trace:
  the input first, then one vector per layer.

Modelling choices:

- Weights, biases and inputs are Dafny `real`s, so the weighted sum is exact.
- Neurons, layers and networks are classes whose fields are `const`. The Java
  code fills its lists only inside the constructors and never changes them
  afterwards.
- Each random Gaussian draw is `NextGaussian`, which returns an arbitrary real.
  No contract depends on the values drawn.
- The sigmoid is a parameter `act: real -> real` of every member that
  evaluates the network. Nothing is assumed about it.
- Exceptions are `Err` values of a `Result` type. Each of the Java code's
  failure paths has its own `Error` constructor.

Behaviour of the code worth knowing:

- The code rejects fewer than two layer sizes (`neuralNetwork.java:160`).
- A layer size of zero is accepted at construction. If layer 0 has no
  neurons, `forward` then fails on `get(0)` with an index-out-of-bounds error
  (`IndexOutOfBounds`).
- A negative layer size makes the `ArrayList` capacity argument negative, so
  the Java library throws when that layer is built. This is
  `IllegalCapacity`, carrying the first negative size.
- No claim is made that outputs lie in (0, 1); see "Left out".

## Model

| member | source | states |
|---|---|---|
| `NeuralNetwork.Neuron.constructor` | neuralNetwork.java:48-55 | a neuron built for `numInputs` inputs has exactly `numInputs` weights; they are `const`, so they never change afterwards |
| `NeuralNetwork.Neuron.Activate` | neuralNetwork.java:62-72 | fails exactly when the input count differs from the weight count; otherwise returns `act(bias + Σ_{i<n} weights[i]*inputs[i])`; the loop keeps `sum == bias + Σ_{k<i} weights[k]*inputs[k]` |
| `NeuralNetwork.Layer.constructor` | neuralNetwork.java:112-117 | the layer has `numNeurons` neurons, each expecting `numInputsPerNeuron` inputs |
| `NeuralNetwork.Layer.ActivateLayer` | neuralNetwork.java:124-130 | succeeds exactly when every neuron accepts the input size; the output has one entry per neuron, and entry j is neuron j's activation, in order; otherwise fails with the neuron's mismatch error |
| `NeuralNetwork.Network.constructor` | neuralNetwork.java:164-173 | for at least two non-negative sizes: one layer per size, layer i has `layerSizes[i]` neurons, layer 0's neurons take `layerSizes[0]` inputs, and layer i>0's neurons take `layerSizes[i-1]` inputs (the wiring invariant `Valid`) |
| `NeuralNetwork.Network.Create` | neuralNetwork.java:159-173 | fewer than two sizes fail with `TooFewLayers` before anything is built; otherwise construction succeeds exactly when no size is negative, and fails with the capacity error of the first negative size; a built network satisfies the wiring invariant with exactly the requested sizes |
| `NeuralNetwork.Network.Default` | neuralNetwork.java:151-153 | the default network is wired and has layer sizes exactly `[3, 3, 3]` |
| `NeuralNetwork.Network.NextLayerAccepts` | neuralNetwork.java:170-173 | under the wiring invariant, layer i+1 accepts whatever layer i outputs |
| `NeuralNetwork.Network.Forward` | neuralNetwork.java:181-196 | fails with an index error when layer 0 is empty, and with `InputSizeMismatch` exactly when the input size differs from layer 0's first neuron's weight count (so the only accepted size is layer 0's neuron count); otherwise no layer fails, the trace has `layers+1` vectors, `trace[0]` is the input, `trace[i+1]` is layer i's output on `trace[i]`, and `|trace[i+1]|` is layer i's size |
| `NeuralNetwork.Network.TracesAgreeAt` | neuralNetwork.java:189-194 | two traces of the same network from the same input agree at every layer boundary k (induction on k) |
| `NeuralNetwork.Network.TraceUnique` | neuralNetwork.java:186-195 | the trace is determined by the input: two valid traces from the same input are equal, so `forward` is deterministic |
| `NeuralNetworkTest.TestForwardPropagation` | neuralNetwork.java:227-229 | on the default network a data set succeeds exactly when it has 3 entries (otherwise `InputSizeMismatch`); the trace has 4 vectors of length 3, the first being the data set |
| `NeuralNetworkTest.TestCustomNetwork` | neuralNetwork.java:242-248 | a data set whose size is not `inputNeurons` is rejected before any network is built; otherwise a negative hidden or output size gives its capacity error and an empty input layer the index error. Every other case succeeds with a trace of lengths `[in, in, hidden, out]` starting with the data set |

## Left out

- `Utils.consoleLog` (console output paced by `Thread.sleep`) is left out: it is I/O and timing.
- `saveAsJson` is left out: it writes to a file.
- `main` and the printing and saving steps of the two test drivers are left out. The drivers return the trace instead of printing it.
- `projectN/neuralNetwork.cpp` only calls into a C++ header that is not part of this model.
- The random Gaussian initialisation is left out. Each draw is an arbitrary real, and no contract depends on its value.
- The sigmoid is left abstract (`act`). The Java computation `1.0 / (1.0 + Math.exp(-x))` runs in IEEE doubles. There, large inputs round to exactly 0.0 or 1.0, so "strictly between 0 and 1" is not claimed.
- Floating-point rounding of the weighted sum is not modelled. The sum is exact over the reals.
- `getWeights`, `getBias` and `getNeurons` are the public `const` fields `weights`, `bias` and `neurons`. Java returns the live mutable list, which a caller could change; that aliasing is not modelled.
- NeuralNetwork.Neuron.constructor: takes a `nat` count. In Java a negative count makes `new ArrayList<>(numInputs)` throw. Inside the network this case is reported by `Network.Create` as `IllegalCapacity`.
- NeuralNetwork.Layer.constructor: takes `nat` counts. In Java a negative `numNeurons` makes `new ArrayList<>(numNeurons)` throw. A negative `numInputsPerNeuron` throws only when at least one neuron is built; `Layer(0, k)` with `k < 0` returns an empty layer. The network constructor never makes such a call, because a negative size throws at its own layer (`neuralNetwork.java:168`, `:172`) before it becomes the next layer's input count. `Network.Create` reports that negative size as `IllegalCapacity`.
- NeuralNetwork.Network.constructor: requires at least two non-negative sizes. The Java constructor's exceptions for the other inputs are modelled by `Network.Create`.
- Java `int` overflow and `null` list elements are not modelled. Sizes and counts are unbounded integers.
