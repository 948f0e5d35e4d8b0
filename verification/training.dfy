/**
  The training-side computations of the network: the forward pass that
  keeps every layer's activations, the output-layer partial deltas, and the
  output-layer bias and weight changes. The training loop that would drive them
  is not part of this model.
*/
module Training {
  import opened Vectors
  import opened Layers
  import opened Networks
  import opened Classify
  import ActivationStrategy
  import Prelude

  /**
    Position `base + k` of the trace holds layer `k`'s output on position
    `base + k - 1`, which that layer can read.
  */
  predicate Step(layers: seq<Layer>, trace: seq<seq<real>>, base: nat, k: nat, f: real -> real)
  {
    && 1 <= base && k < |layers| && base + k < |trace|
    && Accepts(layers[k], |trace[base + k - 1]|)
    && trace[base + k] == Activations(layers[k], trace[base + k - 1], f)
  }

  /**
    Left fold that appends, to the activation vectors gathered so far, each
    layer's output on the most recent one.
  */
  function Trace(layers: seq<Layer>, acc: seq<seq<real>>, f: real -> real): (trace: seq<seq<real>>)
    requires |acc| > 0 && Feeds(layers, |acc[|acc| - 1]|)
    ensures |trace| == |acc| + |layers|
    ensures trace[..|acc|] == acc
    ensures forall k :: 0 <= k < |layers| ==> Step(layers, trace, |acc|, k, f)
    ensures trace[|trace| - 1] == Fold(layers, acc[|acc| - 1], f)
    decreases |layers|
  {
    if |layers| == 0 then acc
    else
      var first := Activations(layers[0], acc[|acc| - 1], f);
      var acc' := acc + [first];
      assert acc'[|acc'| - 1] == first;
      var trace := Trace(layers[1..], acc', f);
      assert trace[..|acc|] == acc by {
        assert trace[..|acc|] == trace[..|acc'|][..|acc|];
      }
      assert trace[|acc|] == first && trace[|acc| - 1] == acc[|acc| - 1] by {
        assert trace[|acc|] == trace[..|acc'|][|acc|];
        assert trace[|acc| - 1] == trace[..|acc'|][|acc| - 1];
      }
      assert Step(layers, trace, |acc|, 0, f);
      assert forall k :: 1 <= k < |layers| ==> Step(layers, trace, |acc|, k, f) by {
        forall k | 1 <= k < |layers|
          ensures Step(layers, trace, |acc|, k, f)
        {
          assert Step(layers[1..], trace, |acc'|, k - 1, f);
          assert layers[1..][k - 1] == layers[k];
        }
      }
      trace
  }

  /**
    Every layer's activations for the input: the input itself first, then the
    output of each layer in order.
  */
  function CalculateActivations(net: Network, inputs: seq<real>): (acts: seq<seq<real>>)
    requires Feeds(net.layers, |inputs|)
    ensures |acts| == |net.layers| + 1
    ensures acts[0] == inputs
    ensures forall k :: 0 <= k < |net.layers| ==> Step(net.layers, acts, 1, k, net.activation.apply)
    ensures forall k :: 0 <= k < |net.layers| ==> |acts[k + 1]| == |net.layers[k].neurons|
    ensures acts[|net.layers|] == Compute(net, inputs)
  {
    var acts := Trace(net.layers, [inputs], net.activation.apply);
    assert acts[0] == acts[..1][0];
    assert forall k :: 0 <= k < |net.layers| ==> |acts[k + 1]| == |net.layers[k].neurons| by {
      forall k | 0 <= k < |net.layers|
        ensures |acts[k + 1]| == |net.layers[k].neurons|
      {
        assert Step(net.layers, acts, 1, k, net.activation.apply);
      }
    }
    acts
  }

  /** The target value of output `k`: 1 for the expected class, 0 for every other. */
  function Target(k: nat, target: nat): real
  {
    if k == target then 1.0 else 0.0
  }

  /**
    The partial delta of one output: the learning rate, times the derivative read
    off the output, times the distance from the output to its target value.
  */
  function PartialDelta(net: Network, goal: real, output: real): real
  {
    net.learningRate * net.activation.derivative(output) * (goal - output)
  }

  /** Partial deltas of `outputs`, whose first entry is output number `start`. */
  function DeltasFrom(net: Network, target: nat, outputs: seq<real>, start: nat): (deltas: seq<real>)
    ensures |deltas| == |outputs|
    ensures forall k :: 0 <= k < |outputs| ==> deltas[k] == PartialDelta(net, Target(start + k, target), outputs[k])
    decreases |outputs|
  {
    if |outputs| == 0 then []
    else [PartialDelta(net, Target(start, target), outputs[0])] + DeltasFrom(net, target, outputs[1..], start + 1)
  }

  /**
    One partial delta per output, in order: the delta towards 1 at the target
    position and towards 0 everywhere else.
  */
  function CalculateDeltas(net: Network, target: nat, outputs: seq<real>): (deltas: seq<real>)
    ensures |deltas| == |outputs|
    ensures forall k :: 0 <= k < |outputs| && k == target ==> deltas[k] == PartialDelta(net, 1.0, outputs[k])
    ensures forall k :: 0 <= k < |outputs| && k != target ==> deltas[k] == PartialDelta(net, 0.0, outputs[k])
  {
    DeltasFrom(net, target, outputs, 0)
  }

  /**
    A target past the last output is not an error: every output is then pushed
    towards 0.
  */
  lemma DeltasTargetOutOfRange(net: Network, target: nat, outputs: seq<real>)
    requires target >= |outputs|
    ensures forall k :: 0 <= k < |outputs| ==>
      CalculateDeltas(net, target, outputs)[k] == net.learningRate * net.activation.derivative(outputs[k]) * -outputs[k]
  {
    var deltas := CalculateDeltas(net, target, outputs);
    forall k | 0 <= k < |outputs|
      ensures deltas[k] == net.learningRate * net.activation.derivative(outputs[k]) * -outputs[k]
    {
      assert deltas[k] == PartialDelta(net, 0.0, outputs[k]);
    }
  }

  /**
    One nudge per delta, in the same `(bias, weights)` format as a neuron: the
    bias part is the neuron's current bias times the delta, the weight part the
    previous activations times the delta.
  */
  function NudgeEach(neurons: seq<BiasedNeuron>, previous: seq<real>, deltas: seq<real>): (nudges: seq<BiasedNeuron>)
    requires |deltas| <= |neurons|
    ensures |nudges| == |deltas|
    ensures forall n :: 0 <= n < |deltas| ==>
      nudges[n].bias == neurons[n].bias * deltas[n] && nudges[n].weights == Scale(previous, deltas[n])
    decreases |deltas|
  {
    if |deltas| == 0 then []
    else
      [BiasedNeuron(neurons[0].bias * deltas[0], Scale(previous, deltas[0]))]
        + NudgeEach(neurons[1..], previous, deltas[1..])
  }

  /**
    The output-layer changes as written: deltas taken from `activations[layerIndex]`,
    biases read from `layers[layerIndex]`, weight changes scaled from
    `activations[layerIndex - 1]`. Reading a neuron past the layer's end panics,
    hence the bound on the number of deltas.
  */
  function OutputLayerWeights(net: Network, layerIndex: nat, target: nat, activations: seq<seq<real>>): (nudges: seq<BiasedNeuron>)
    requires 1 <= layerIndex < |net.layers| && layerIndex < |activations|
    requires |activations[layerIndex]| <= |net.layers[layerIndex].neurons|
    ensures |nudges| == |activations[layerIndex]|
    ensures forall n :: 0 <= n < |nudges| ==>
      nudges[n].bias == net.layers[layerIndex].neurons[n].bias * CalculateDeltas(net, target, activations[layerIndex])[n]
    ensures forall n :: 0 <= n < |nudges| ==> |nudges[n].weights| == |activations[layerIndex - 1]|
    ensures forall n, i :: 0 <= n < |nudges| && 0 <= i < |activations[layerIndex - 1]| ==>
      nudges[n].weights[i] == activations[layerIndex - 1][i] * CalculateDeltas(net, target, activations[layerIndex])[n]
  {
    NudgeEach(net.layers[layerIndex].neurons, activations[layerIndex - 1], CalculateDeltas(net, target, activations[layerIndex]))
  }

  /**
    Layer `k`'s output is what the layer computes on the vector before it; this is
    the per-layer reading of `CalculateActivations`.
  */
  lemma CalculateActivationsLayer(net: Network, inputs: seq<real>, k: nat)
    requires Feeds(net.layers, |inputs|) && k < |net.layers|
    ensures var acts := CalculateActivations(net, inputs);
      Accepts(net.layers[k], |acts[k]|)
      && acts[k + 1] == Activations(net.layers[k], acts[k], net.activation.apply)
  {
    assert Step(net.layers, CalculateActivations(net, inputs), 1, k, net.activation.apply);
  }

  /**
    A 2-3-1 network: the vector at the output layer's index in the activation
    trace is the hidden layer's output, with three entries, while the output layer
    has one neuron, so `OutputLayerWeights` called with the output layer's index
    would read neurons 1 and 2 of a one-neuron layer.
  */
  lemma OutputIndexMismatch(activation: ActivationStrategy.Activation, hidden: BiasedNeuron, output: BiasedNeuron, inputs: seq<real>)
    requires |hidden.weights| == |inputs| == 2 && |output.weights| == 3
    ensures var net := Networks.From(activation, [[hidden, hidden, hidden], [output]]);
      var last := |net.layers| - 1;
      Feeds(net.layers, |inputs|)
      && |CalculateActivations(net, inputs)[last]| == 3
      && |net.layers[last].neurons| == 1
  {
    var net := Networks.From(activation, [[hidden, hidden, hidden], [output]]);
    assert Accepts(net.layers[1], 3);
    assert Feeds(net.layers[1..], 3) by {
      assert net.layers[1..][1..] == [];
    }
    assert Feeds(net.layers, |inputs|);
    var acts := CalculateActivations(net, inputs);
    assert Step(net.layers, acts, 1, 0, activation.apply);
  }

  /**
    In a network built by `New` every bias is 0, so the bias changes computed as
    written (current bias times delta) are all 0, whatever the deltas.
  */
  lemma NewBiasNudgesVanish(activation: ActivationStrategy.Activation, schema: seq<Prelude.u8>, draw: nat -> real,
                            layerIndex: nat, target: nat, activations: seq<seq<real>>)
    requires var net := New(activation, schema, draw);
      1 <= layerIndex < |net.layers| && layerIndex < |activations|
      && |activations[layerIndex]| <= |net.layers[layerIndex].neurons|
    ensures var nudges := OutputLayerWeights(New(activation, schema, draw), layerIndex, target, activations);
      forall n :: 0 <= n < |nudges| ==> nudges[n].bias == 0.0
  {
  }

  /** One change per delta, with the delta itself as the bias change (the bias input is 1). */
  function UnitBiasNudges(previous: seq<real>, deltas: seq<real>): (nudges: seq<BiasedNeuron>)
    ensures |nudges| == |deltas|
    ensures forall n :: 0 <= n < |deltas| ==>
      nudges[n].bias == deltas[n] && nudges[n].weights == Scale(previous, deltas[n])
    decreases |deltas|
  {
    if |deltas| == 0 then []
    else [BiasedNeuron(deltas[0], Scale(previous, deltas[0]))] + UnitBiasNudges(previous, deltas[1..])
  }

  /**
    The output-layer changes as evidently intended: deltas from the network's
    output (the last activation vector), weight changes scaled from the output
    layer's own input, and the delta itself as the bias change.
  */
  function OutputLayerNudges(net: Network, target: nat, activations: seq<seq<real>>): (nudges: seq<BiasedNeuron>)
    requires |net.layers| >= 1 && |activations| == |net.layers| + 1
    requires |activations[|net.layers|]| == |net.layers[|net.layers| - 1].neurons|
    ensures |nudges| == |net.layers[|net.layers| - 1].neurons|
    ensures forall n :: 0 <= n < |nudges| ==>
      nudges[n].bias == CalculateDeltas(net, target, activations[|net.layers|])[n]
    ensures forall n :: 0 <= n < |nudges| ==> |nudges[n].weights| == |activations[|net.layers| - 1]|
    ensures forall n, i :: 0 <= n < |nudges| && 0 <= i < |activations[|net.layers| - 1]| ==>
      nudges[n].weights[i] == activations[|net.layers| - 1][i] * CalculateDeltas(net, target, activations[|net.layers|])[n]
  {
    var last := |net.layers|;
    UnitBiasNudges(activations[last - 1], CalculateDeltas(net, target, activations[last]))
  }

  /**
    After any forward pass the intended computation applies: there is one change
    per output neuron, its deltas come from the network's output, and every
    weight of an output neuron has a change.
  */
  lemma ForwardPassFitsNudges(net: Network, inputs: seq<real>, target: nat)
    requires Feeds(net.layers, |inputs|) && |net.layers| >= 1
    ensures var acts := CalculateActivations(net, inputs);
      var last := |net.layers| - 1;
      |acts[last + 1]| == |net.layers[last].neurons|
      && acts[last + 1] == Compute(net, inputs)
      && var nudges := OutputLayerNudges(net, target, acts);
      |nudges| == |net.layers[last].neurons|
      && forall n :: 0 <= n < |nudges| ==> |net.layers[last].neurons[n].weights| <= |nudges[n].weights|
  {
    CalculateActivationsLayer(net, inputs, |net.layers| - 1);
  }
}
