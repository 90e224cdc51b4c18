/**
 * The two demonstration drivers: each builds a network, runs one forward
 * pass and hands back the trace (the Java code then prints the last vector
 * and writes the trace to a file).
 */
module NeuralNetworkTest {
  import opened NeuralNetwork

  /** Forward propagation through the default 3-3-3 network. */
  method TestForwardPropagation(act: real -> real, dataSet: seq<real>) returns (r: Result<seq<seq<real>>>)
    ensures r.Ok? <==> |dataSet| == 3
    ensures r.Err? ==> r.error == InputSizeMismatch
    ensures r.Ok? ==> |r.value| == 4 && r.value[0] == dataSet
    ensures r.Ok? ==> forall k :: 0 <= k < 4 ==> |r.value[k]| == 3
  {
    var nn := Network.Default();
    assert nn.Sizes()[0] == 3 && nn.Sizes()[1] == 3 && nn.Sizes()[2] == 3;
    r := nn.Forward(act, dataSet);
  }

  /**
   * Forward propagation through a custom input-hidden-output network; the
   * data size is checked against the input neuron count before anything is built.
   */
  method TestCustomNetwork(act: real -> real, inputNeurons: int, hiddenNeurons: int, outputNeurons: int,
                           dataSet: seq<real>)
    returns (r: Result<seq<seq<real>>>)
    ensures |dataSet| != inputNeurons ==> r == Err(DataSizeMismatch)
    ensures |dataSet| == inputNeurons && hiddenNeurons < 0 ==> r == Err(IllegalCapacity(hiddenNeurons))
    ensures |dataSet| == inputNeurons && hiddenNeurons >= 0 && outputNeurons < 0 ==>
              r == Err(IllegalCapacity(outputNeurons))
    ensures |dataSet| == inputNeurons == 0 && hiddenNeurons >= 0 && outputNeurons >= 0 ==>
              r == Err(IndexOutOfBounds)
    ensures r.Ok? <==> |dataSet| == inputNeurons > 0 && hiddenNeurons >= 0 && outputNeurons >= 0
    ensures r.Ok? ==> |r.value| == 4 && r.value[0] == dataSet
    ensures r.Ok? ==> |r.value[1]| == inputNeurons && |r.value[2]| == hiddenNeurons
                      && |r.value[3]| == outputNeurons
  {
    if |dataSet| != inputNeurons {
      return Err(DataSizeMismatch);
    }
    var sizes := [inputNeurons, hiddenNeurons, outputNeurons];
    var created := Network.Create(sizes);
    if created.Err? {
      ghost var i :| FirstNegativeAt(sizes, i) && created.error == IllegalCapacity(sizes[i]);
      assert i == 1 || i == 2;
      assert i == 2 ==> sizes[1] >= 0;
      return Err(created.error);
    }
    var nn := created.value;
    assert nn.Sizes()[0] == inputNeurons && nn.Sizes()[1] == hiddenNeurons && nn.Sizes()[2] == outputNeurons;
    r := nn.Forward(act, dataSet);
  }
}
