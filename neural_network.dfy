/**
 * A feed-forward neural network: neurons compute a weighted sum of their
 * inputs plus a bias and pass it through an activation function, layers
 * apply each of their neurons to one shared input vector, and a network
 * threads a vector through its layers, recording every intermediate vector.
 *
 * Weights and biases are set once, when an object is constructed, and never
 * change afterwards, so they are `const` fields.  The activation function
 * (a sigmoid over IEEE doubles in the Java code) is a parameter `act` of every
 * member that evaluates the network; nothing is assumed about its values.
 */
module NeuralNetwork {

  /** The exceptions the network code can raise. */
  datatype Error =
    | InputsMismatchWeights   // Neuron.activate: input count differs from weight count
    | TooFewLayers            // network constructor: fewer than two layer sizes
    | IllegalCapacity(capacity: int)  // a list allocated with a negative capacity
    | InputSizeMismatch       // forward: input size differs from layer 0's input size
    | IndexOutOfBounds        // forward: layer 0 has no neuron to read the input size from
    | DataSizeMismatch        // testCustomNetwork: data size differs from the input neuron count

  /** Either a value or the exception raised instead. */
  datatype Result<T> = Ok(value: T) | Err(error: Error)

  /** Sum of w[i] * x[i] over i < k, accumulated from left to right. */
  function Dot(w: seq<real>, x: seq<real>, k: nat): real
    requires k <= |w| && k <= |x|
  {
    if k == 0 then 0.0 else Dot(w, x, k - 1) + w[k - 1] * x[k - 1]
  }

  /**
   * Stands for one draw of `java.util.Random.nextGaussian`: an arbitrary
   * real, about which the model promises nothing.
   */
  method NextGaussian() returns (g: real)
  {
    g :| true;
  }

  class Neuron {
    /** One weight per input connection. */
    const weights: seq<real>
    const bias: real

    /** Draws `numInputs` weights and then the bias. */
    constructor (numInputs: nat)
      ensures |weights| == numInputs
    {
      var w: seq<real> := [];
      for i := 0 to numInputs
        invariant |w| == i
      {
        var g := NextGaussian();
        w := w + [g];
      }
      var b := NextGaussian();
      weights, bias := w, b;
    }

    /** The activation of this neuron on an input vector of the right size. */
    function Output(act: real -> real, x: seq<real>): real
      requires |x| == |weights|
    {
      act(bias + Dot(weights, x, |weights|))
    }

    /** Checks the input size, then folds the weighted sum into `sum`. */
    method Activate(act: real -> real, inputs: seq<real>) returns (r: Result<real>)
      ensures r.Err? <==> |inputs| != |weights|
      ensures r.Err? ==> r.error == InputsMismatchWeights
      ensures r.Ok? ==> r.value == act(bias + Dot(weights, inputs, |weights|))
    {
      if |inputs| != |weights| {
        return Err(InputsMismatchWeights);
      }
      var sum := bias;
      for i := 0 to |weights|
        invariant sum == bias + Dot(weights, inputs, i)
      {
        sum := sum + weights[i] * inputs[i];
      }
      return Ok(act(sum));
    }
  }

  class Layer {
    /** The neurons, in the order their outputs appear. */
    const neurons: seq<Neuron>

    /** Every neuron of the layer expects `k` inputs. */
    predicate Takes(k: nat)
    {
      forall j :: 0 <= j < |neurons| ==> |neurons[j].weights| == k
    }

    constructor (numNeurons: nat, numInputsPerNeuron: nat)
      ensures |neurons| == numNeurons
      ensures Takes(numInputsPerNeuron)
    {
      var ns: seq<Neuron> := [];
      for i := 0 to numNeurons
        invariant |ns| == i
        invariant forall j :: 0 <= j < i ==> |ns[j].weights| == numInputsPerNeuron
      {
        var n := new Neuron(numInputsPerNeuron);
        ns := ns + [n];
      }
      neurons := ns;
    }

    /** The outputs of all neurons on one input vector, in neuron order. */
    function Output(act: real -> real, x: seq<real>): seq<real>
      requires Takes(|x|)
    {
      seq(|neurons|, j requires 0 <= j < |neurons| => neurons[j].Output(act, x))
    }

    /** Activates every neuron on the same input; the first mismatch aborts. */
    method ActivateLayer(act: real -> real, inputs: seq<real>) returns (r: Result<seq<real>>)
      ensures r.Ok? <==> Takes(|inputs|)
      ensures r.Err? ==> r.error == InputsMismatchWeights
      ensures r.Ok? ==> |r.value| == |neurons|
      ensures r.Ok? ==> forall j :: 0 <= j < |neurons| ==> r.value[j] == neurons[j].Output(act, inputs)
    {
      var outputs: seq<real> := [];
      for j := 0 to |neurons|
        invariant |outputs| == j
        invariant forall k :: 0 <= k < j ==> |neurons[k].weights| == |inputs|
        invariant forall k :: 0 <= k < j ==> outputs[k] == neurons[k].Output(act, inputs)
      {
        var o := neurons[j].Activate(act, inputs);
        if o.Err? {
          return Err(o.error);
        }
        outputs := outputs + [o.value];
      }
      return Ok(outputs);
    }
  }

  /** Index of the first negative entry of `s` is `i`. */
  predicate FirstNegativeAt(s: seq<int>, i: int)
  {
    0 <= i < |s| && s[i] < 0 && forall k :: 0 <= k < i ==> s[k] >= 0
  }

  class Network {
    const layers: seq<Layer>

    /** The neuron count of every layer. */
    function Sizes(): seq<nat>
    {
      seq(|layers|, i requires 0 <= i < |layers| => |layers[i].neurons|)
    }

    /**
     * The wiring invariant: at least two layers; layer 0 takes as many
     * inputs as it has neurons, and layer i > 0 takes layer i-1's neuron count.
     */
    predicate Valid()
    {
      && |layers| >= 2
      && layers[0].Takes(|layers[0].neurons|)
      && forall i :: 0 < i < |layers| ==> layers[i].Takes(|layers[i - 1].neurons|)
    }

    /**
     * `trace` starts a forward pass through all layers: one vector per layer
     * boundary, each layer accepting the vector before it and producing the
     * vector after it.
     */
    predicate IsTrace(act: real -> real, trace: seq<seq<real>>)
    {
      && |trace| == |layers| + 1
      && forall i :: 0 <= i < |layers| ==>
           layers[i].Takes(|trace[i]|) && trace[i + 1] == layers[i].Output(act, trace[i])
    }

    /** Builds and wires the layers; the size guards are in `Create`. */
    constructor (layerSizes: seq<int>)
      requires |layerSizes| >= 2
      requires forall i :: 0 <= i < |layerSizes| ==> layerSizes[i] >= 0
      ensures Valid()
      ensures Sizes() == layerSizes
      ensures layers[0].Takes(layerSizes[0])
      ensures forall i :: 0 < i < |layerSizes| ==> layers[i].Takes(layerSizes[i - 1])
    {
      var first := new Layer(layerSizes[0], layerSizes[0]);
      var ls := [first];
      for i := 1 to |layerSizes|
        invariant |ls| == i
        invariant forall k :: 0 <= k < i ==> |ls[k].neurons| == layerSizes[k]
        invariant ls[0].Takes(layerSizes[0])
        invariant forall k :: 0 < k < i ==> ls[k].Takes(layerSizes[k - 1])
      {
        var layer := new Layer(layerSizes[i], layerSizes[i - 1]);
        ls := ls + [layer];
      }
      layers := ls;
    }

    /**
     * The list constructor with its failure paths: fewer than two sizes are
     * rejected before any layer is built, and a negative size fails when the
     * neuron list of its layer is allocated.
     */
    static method Create(layerSizes: seq<int>) returns (r: Result<Network>)
      ensures |layerSizes| < 2 ==> r == Err(TooFewLayers)
      ensures |layerSizes| >= 2 ==>
                (r.Ok? <==> forall i :: 0 <= i < |layerSizes| ==> layerSizes[i] >= 0)
      ensures r.Err? && |layerSizes| >= 2 ==>
                exists i :: FirstNegativeAt(layerSizes, i) && r.error == IllegalCapacity(layerSizes[i])
      ensures r.Ok? ==> r.value.Valid() && r.value.Sizes() == layerSizes
    {
      if |layerSizes| < 2 {
        return Err(TooFewLayers);
      }
      for i := 0 to |layerSizes|
        invariant forall k :: 0 <= k < i ==> layerSizes[k] >= 0
      {
        if layerSizes[i] < 0 {
          assert FirstNegativeAt(layerSizes, i);
          return Err(IllegalCapacity(layerSizes[i]));
        }
      }
      var net := new Network(layerSizes);
      return Ok(net);
    }

    /** The default constructor: three layers of three neurons. */
    static method Default() returns (net: Network)
      ensures net.Valid()
      ensures net.Sizes() == [3, 3, 3]
    {
      net := new Network([3, 3, 3]);
    }

    /** Under the wiring invariant, layer i+1 accepts whatever layer i outputs. */
    lemma NextLayerAccepts(act: real -> real, i: nat, x: seq<real>)
      requires Valid()
      requires i + 1 < |layers|
      requires layers[i].Takes(|x|)
      ensures layers[i + 1].Takes(|layers[i].Output(act, x)|)
    {
    }

    /**
     * Checks the input size against layer 0's first neuron, then threads the
     * current vector through the layers, recording input and outputs.
     */
    method Forward(act: real -> real, inputs: seq<real>) returns (r: Result<seq<seq<real>>>)
      requires Valid()
      ensures |layers[0].neurons| == 0 ==> r == Err(IndexOutOfBounds)
      ensures |layers[0].neurons| > 0 && |inputs| != |layers[0].neurons[0].weights| ==>
                r == Err(InputSizeMismatch)
      ensures |layers[0].neurons| > 0 && |inputs| == |layers[0].neurons[0].weights| ==> r.Ok?
      ensures r.Ok? <==> |layers[0].neurons| > 0 && |inputs| == |layers[0].neurons|
      ensures r.Ok? ==> IsTrace(act, r.value) && r.value[0] == inputs
      ensures r.Ok? ==> forall i :: 0 <= i < |layers| ==> |r.value[i + 1]| == Sizes()[i]
    {
      if |layers[0].neurons| == 0 {
        return Err(IndexOutOfBounds);
      }
      if |inputs| != |layers[0].neurons[0].weights| {
        return Err(InputSizeMismatch);
      }
      var trace := [inputs];
      var current := inputs;
      for i := 0 to |layers|
        invariant |trace| == i + 1 && trace[0] == inputs && current == trace[i]
        invariant i < |layers| ==> layers[i].Takes(|current|)
        invariant forall k :: 0 <= k < i ==>
                    layers[k].Takes(|trace[k]|) && trace[k + 1] == layers[k].Output(act, trace[k])
      {
        var out := layers[i].ActivateLayer(act, current);
        // The wiring invariant rules out activateLayer's exception here.
        current := out.value;
        trace := trace + [current];
      }
      return Ok(trace);
    }

    /** A forward pass is determined by its input: two traces from one input agree. */
    lemma {:induction false} TraceUnique(act: real -> real, t1: seq<seq<real>>, t2: seq<seq<real>>)
      requires IsTrace(act, t1) && IsTrace(act, t2)
      requires t1[0] == t2[0]
      ensures t1 == t2
    {
      forall k | 0 <= k < |t1|
        ensures t1[k] == t2[k]
      {
        TracesAgreeAt(act, t1, t2, k);
      }
    }

    lemma {:induction false} TracesAgreeAt(act: real -> real, t1: seq<seq<real>>, t2: seq<seq<real>>, k: nat)
      requires IsTrace(act, t1) && IsTrace(act, t2)
      requires t1[0] == t2[0]
      requires k <= |layers|
      ensures t1[k] == t2[k]
    {
      if k > 0 {
        TracesAgreeAt(act, t1, t2, k - 1);
      }
    }
  }
}
