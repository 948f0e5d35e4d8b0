/**
  The stand-alone ReLU neuron: a weight vector whose last entry doubles as the
  bias weight when a bias input is requested. Nothing else in the network uses it.
*/
module Neurons {
  import opened Prelude
  import opened Vectors

  datatype Neuron = Neuron(weights: seq<real>)

  /** Builds a neuron around the given weights. */
  function New(weights: seq<real>): (n: Neuron)
    ensures n.weights == weights
  {
    Neuron(weights)
  }

  /**
    The sum the impulse clamps: every input times the weight at its position, plus
    the last weight when `bias` is set. Indexing needs as many weights as inputs,
    and at least one weight for the bias.
  */
  function ImpulseSum(neuron: Neuron, inputs: seq<real>, bias: bool): real
    requires |inputs| <= |neuron.weights|
    requires bias ==> |neuron.weights| >= 1
  {
    Dot(inputs, neuron.weights, |inputs|)
      + (if bias then neuron.weights[|neuron.weights| - 1] else 0.0)
  }

  /** The neuron's ReLU output: its weighted input sum clamped below at 0. */
  method Impulse(neuron: Neuron, inputs: seq<real>, bias: bool) returns (r: real)
    requires |inputs| <= |neuron.weights|
    requires bias ==> |neuron.weights| >= 1
    ensures r >= 0.0
    ensures r >= ImpulseSum(neuron, inputs, bias)
    ensures r == 0.0 || r == ImpulseSum(neuron, inputs, bias)
  {
    var x := 0.0;
    for i := 0 to |inputs|
      invariant x == Dot(inputs, neuron.weights, i)
    {
      x := x + inputs[i] * neuron.weights[i];
    }
    if bias {
      x := x + neuron.weights[|neuron.weights| - 1];
    }
    r := Max(0.0, x);
  }

  /**
    With as many weights as inputs, the bias weight is also the weight of the last
    input, so it enters the sum twice: once times the last input, once on its own.
  */
  lemma BiasCountedTwice(neuron: Neuron, inputs: seq<real>)
    requires |inputs| == |neuron.weights| >= 1
    ensures var last := |inputs| - 1;
      ImpulseSum(neuron, inputs, true)
        == Dot(inputs, neuron.weights, last) + neuron.weights[last] * (inputs[last] + 1.0)
  {
  }

  /**
    With more weights than inputs, the bias weight sits past the inputs and is added
    exactly once, as a separate bias term.
  */
  lemma BiasSeparate(neuron: Neuron, inputs: seq<real>)
    requires |inputs| < |neuron.weights|
    ensures ImpulseSum(neuron, inputs, true)
      == ImpulseSum(neuron, inputs, false) + neuron.weights[|neuron.weights| - 1]
  {
  }
}
