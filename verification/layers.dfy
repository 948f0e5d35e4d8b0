/**
  A layer: an ordered list of neurons, each stored as its bias and its weight
  vector. Weight `i` connects to output `i` of the previous layer; the bias is the
  weight of a constant input 1.
*/
module Layers {
  import opened Vectors

  datatype BiasedNeuron = BiasedNeuron(bias: real, weights: seq<real>)

  datatype Layer = Layer(neurons: seq<BiasedNeuron>)

  /** Builds a layer from its neurons. */
  function From(neurons: seq<BiasedNeuron>): (layer: Layer)
    ensures layer.neurons == neurons
  {
    Layer(neurons)
  }

  /**
    The layer can read an input vector of this width: no neuron has more weights
    than there are inputs (otherwise indexing the inputs panics).
  */
  predicate Accepts(layer: Layer, width: nat)
  {
    forall j :: 0 <= j < |layer.neurons| ==> |layer.neurons[j].weights| <= width
  }

  /** A neuron's pre-activation: weight `i` times input `i` over its weights, plus the bias. */
  function Weighted(neuron: BiasedNeuron, inputs: seq<real>): real
    requires |neuron.weights| <= |inputs|
  {
    Dot(neuron.weights, inputs, |neuron.weights|) + neuron.bias
  }

  /** Maps each neuron of the list to its activation, in order. */
  function ActivateEach(neurons: seq<BiasedNeuron>, inputs: seq<real>, f: real -> real): (outs: seq<real>)
    requires forall j :: 0 <= j < |neurons| ==> |neurons[j].weights| <= |inputs|
    ensures |outs| == |neurons|
    ensures forall j :: 0 <= j < |neurons| ==> outs[j] == f(Weighted(neurons[j], inputs))
    decreases |neurons|
  {
    if |neurons| == 0 then []
    else [f(Weighted(neurons[0], inputs))] + ActivateEach(neurons[1..], inputs, f)
  }

  /** The layer's output: one activation per neuron, in neuron order. */
  function Activations(layer: Layer, inputs: seq<real>, f: real -> real): (outs: seq<real>)
    requires Accepts(layer, |inputs|)
    ensures |outs| == |layer.neurons|
    ensures forall j :: 0 <= j < |outs| ==>
      outs[j] == f(Dot(layer.neurons[j].weights, inputs, |layer.neurons[j].weights|) + layer.neurons[j].bias)
    ensures forall j :: 0 <= j < |outs| && |layer.neurons[j].weights| == 0 ==> outs[j] == f(layer.neurons[j].bias)
  {
    ActivateEach(layer.neurons, inputs, f)
  }

  /** Inputs beyond a neuron's weight count are never read: appending more changes nothing. */
  lemma ActivationsIgnoreExtra(layer: Layer, inputs: seq<real>, extra: seq<real>, f: real -> real)
    requires Accepts(layer, |inputs|)
    ensures Accepts(layer, |inputs + extra|)
    ensures Activations(layer, inputs + extra, f) == Activations(layer, inputs, f)
  {
    var a := Activations(layer, inputs, f);
    var b := Activations(layer, inputs + extra, f);
    forall j | 0 <= j < |a|
      ensures a[j] == b[j]
    {
      var w := layer.neurons[j].weights;
      assert (inputs + extra)[..|w|] == inputs[..|w|];
      DotPrefix(w, inputs, w, inputs + extra, |w|);
    }
  }
}
