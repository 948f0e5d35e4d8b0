/**
  The network: its layers in order from the first hidden layer to the output
  layer, the activation strategy, and the learning rate. Construction either
  takes the neurons explicitly or builds them from a list of layer sizes with
  random weights. The random number generator is replaced by `draw`, where
  `draw(k)` is the k-th value the generator returns.
*/
module Networks {
  import opened Prelude
  import opened Layers
  import opened ActivationStrategy

  datatype Network = Network(layers: seq<Layer>, activation: Activation, learningRate: real)

  /** The learning rate every new network starts with. */
  const InitialLearningRate: real := 0.2

  /**
    The layers can be applied in sequence to an input of the given width: each
    layer accepts the width of what reaches it.
  */
  predicate Feeds(layers: seq<Layer>, width: nat)
    decreases |layers|
  {
    |layers| == 0 || (Accepts(layers[0], width) && Feeds(layers[1..], |layers[0].neurons|))
  }

  /** Every layer of `layers` built from the raw neuron list at the same position. */
  function LayersFrom(raw: seq<seq<BiasedNeuron>>): (layers: seq<Layer>)
    ensures |layers| == |raw|
    ensures forall i :: 0 <= i < |raw| ==> layers[i].neurons == raw[i]
    decreases |raw|
  {
    if |raw| == 0 then [] else [Layers.From(raw[0])] + LayersFrom(raw[1..])
  }

  /** A network with the given activation and explicitly given neurons, layer by layer. */
  function From(activation: Activation, raw: seq<seq<BiasedNeuron>>): (net: Network)
    ensures net.learningRate == InitialLearningRate
    ensures net.activation == activation
    ensures |net.layers| == |raw|
    ensures forall i :: 0 <= i < |raw| ==> net.layers[i].neurons == raw[i]
  {
    Network(LayersFrom(raw), activation, InitialLearningRate)
  }

  /** A random value `r` in [0, 1) stretched to a weight `2r - 1`. */
  function Stretch(r: real): real
  {
    r * 2.0 - 1.0
  }

  /** Every value the generator returns lies in [0, 1). */
  ghost predicate UnitDraws(draw: nat -> real)
  {
    forall k :: 0.0 <= draw(k) < 1.0
  }

  /** The weight is built from some value the generator returned. */
  ghost predicate Drawn(w: real, draw: nat -> real)
  {
    exists k: nat :: w == Stretch(draw(k))
  }

  /** `count` weights built from the draws `start`, `start + 1`, ... in that order. */
  function RandomWeights(count: nat, draw: nat -> real, start: nat): (weights: seq<real>)
    ensures |weights| == count
    ensures forall m :: 0 <= m < count ==> weights[m] == Stretch(draw(start + m))
    ensures forall m :: 0 <= m < count ==> Drawn(weights[m], draw)
    decreases count
  {
    if count == 0 then [] else [Stretch(draw(start))] + RandomWeights(count - 1, draw, start + 1)
  }

  /**
    `size` neurons with bias 0 and `inputs` random weights each; neuron `j` uses
    the `inputs` draws following those of neuron `j - 1`.
  */
  function RandomLayer(inputs: nat, size: nat, draw: nat -> real, start: nat): (neurons: seq<BiasedNeuron>)
    ensures |neurons| == size
    ensures forall j :: 0 <= j < size ==>
      neurons[j].bias == 0.0 && neurons[j].weights == RandomWeights(inputs, draw, start + j * inputs)
    decreases size
  {
    if size == 0 then []
    else
      var rest := RandomLayer(inputs, size - 1, draw, start + inputs);
      assert forall j :: 1 <= j < size ==> start + inputs + (j - 1) * inputs == start + j * inputs;
      [BiasedNeuron(0.0, RandomWeights(inputs, draw, start))] + rest
  }

  /**
    A raw layer of `size` neurons, each with bias 0 and `inputs` weights built
    from drawn values.
  */
  ghost predicate Fresh(neurons: seq<BiasedNeuron>, inputs: nat, size: nat, draw: nat -> real)
  {
    && |neurons| == size
    && forall n :: 0 <= n < size ==>
      && neurons[n].bias == 0.0
      && |neurons[n].weights| == inputs
      && forall m :: 0 <= m < inputs ==> Drawn(neurons[n].weights[m], draw)
  }

  /**
    The raw layers for schema positions `i`, `i + 1`, ...: the layer at position
    `i` has `schema[i]` neurons, each with `schema[i - 1]` weights.
  */
  function RawLayers(schema: seq<u8>, i: nat, draw: nat -> real, start: nat): (raw: seq<seq<BiasedNeuron>>)
    requires 1 <= i
    ensures |raw| == if i < |schema| then |schema| - i else 0
    ensures forall k :: 0 <= k < |raw| ==> Fresh(raw[k], schema[i - 1 + k] as nat, schema[i + k] as nat, draw)
    decreases |schema| - i
  {
    if i >= |schema| then []
    else
      var layer := RandomLayer(schema[i - 1] as nat, schema[i] as nat, draw, start);
      var rest := RawLayers(schema, i + 1, draw, start + schema[i - 1] as nat * schema[i] as nat);
      var raw := [layer] + rest;
      assert Fresh(layer, schema[i - 1] as nat, schema[i] as nat, draw);
      assert forall k :: 1 <= k < |raw| ==> raw[k] == rest[k - 1] && i + 1 + (k - 1) == i + k;
      raw
  }

  /**
    A network built from a schema of layer sizes: the first size is the input
    width, and every later size gets a layer of that many neurons, with zero
    biases and one random weight per neuron of the previous size.
  */
  function New(activation: Activation, schema: seq<u8>, draw: nat -> real): (net: Network)
    ensures net.learningRate == InitialLearningRate
    ensures net.activation == activation
    ensures |net.layers| == if |schema| <= 1 then 0 else |schema| - 1
    ensures forall k :: 0 <= k < |net.layers| ==> |net.layers[k].neurons| == schema[k + 1] as int
    ensures forall k, n :: 0 <= k < |net.layers| && 0 <= n < |net.layers[k].neurons| ==>
      net.layers[k].neurons[n].bias == 0.0 && |net.layers[k].neurons[n].weights| == schema[k] as int
    ensures forall k, n, m ::
      0 <= k < |net.layers| && 0 <= n < |net.layers[k].neurons| && 0 <= m < |net.layers[k].neurons[n].weights|
      ==> Drawn(net.layers[k].neurons[n].weights[m], draw)
  {
    var raw := RawLayers(schema, 1, draw, 0);
    assert forall k :: 0 <= k < |raw| ==> Fresh(raw[k], schema[k] as nat, schema[k + 1] as nat, draw);
    From(activation, raw)
  }

  /** In a network from `New`, each neuron has one weight per neuron of the layer before. */
  lemma NewChained(activation: Activation, schema: seq<u8>, draw: nat -> real)
    ensures var layers := New(activation, schema, draw).layers;
      forall k, n :: 1 <= k < |layers| && 0 <= n < |layers[k].neurons| ==>
        |layers[k].neurons[n].weights| == |layers[k - 1].neurons|
  {
  }

  /** When the generator only returns values in [0, 1), every weight from `New` lies in [-1, 1). */
  lemma NewWeightsBounded(activation: Activation, schema: seq<u8>, draw: nat -> real)
    requires UnitDraws(draw)
    ensures var layers := New(activation, schema, draw).layers;
      forall k, n, m :: 0 <= k < |layers| && 0 <= n < |layers[k].neurons| && 0 <= m < |layers[k].neurons[n].weights| ==>
        -1.0 <= layers[k].neurons[n].weights[m] < 1.0
  {
    var layers := New(activation, schema, draw).layers;
    forall k, n, m | 0 <= k < |layers| && 0 <= n < |layers[k].neurons| && 0 <= m < |layers[k].neurons[n].weights|
      ensures -1.0 <= layers[k].neurons[n].weights[m] < 1.0
    {
      assert Drawn(layers[k].neurons[n].weights[m], draw);
      var d: nat :| layers[k].neurons[n].weights[m] == Stretch(draw(d));
    }
  }

  /**
    Layers chained by shape can be applied in sequence: the first accepts the
    input width and each later one accepts its predecessor's neuron count.
  */
  lemma {:induction false} ChainedFeeds(layers: seq<Layer>, width: nat)
    requires |layers| > 0 ==> Accepts(layers[0], width)
    requires forall k, n :: 1 <= k < |layers| && 0 <= n < |layers[k].neurons| ==>
      |layers[k].neurons[n].weights| <= |layers[k - 1].neurons|
    ensures Feeds(layers, width)
    decreases |layers|
  {
    if |layers| > 0 {
      var tail := layers[1..];
      forall k, n | 1 <= k < |tail| && 0 <= n < |tail[k].neurons|
        ensures |tail[k].neurons[n].weights| <= |tail[k - 1].neurons|
      {
        assert tail[k] == layers[k + 1] && tail[k - 1] == layers[k];
      }
      ChainedFeeds(tail, |layers[0].neurons|);
    }
  }

  /** A network from `New` can be applied to any input as wide as the schema's first entry. */
  lemma NewFeeds(activation: Activation, schema: seq<u8>, draw: nat -> real)
    requires |schema| >= 1
    ensures Feeds(New(activation, schema, draw).layers, schema[0] as nat)
  {
    var layers := New(activation, schema, draw).layers;
    NewChained(activation, schema, draw);
    if |layers| > 0 {
      assert Accepts(layers[0], schema[0] as nat) by {
        assert 1 < |schema|;
      }
    }
    ChainedFeeds(layers, schema[0] as nat);
  }
}
