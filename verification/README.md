# Feedforward digit classifier — a Dafny model

This project models the core of a small feedforward neural-network classifier
written in Rust, together with the reader for its digit data set.

- **Network.** A network is an ordered list of layers, an activation strategy and
  a learning rate. There is no input layer object: the first layer's neurons hold
  one weight per input feature.
- **Layer.** A layer is a list of neurons. Each neuron is a `(bias, weights)`
  pair, here the datatype `BiasedNeuron`.
- **Forward pass.** `Layer::activations` maps every neuron to
  `f(Σ weights[i] * inputs[i] + bias)`. `compute` folds the layers over the
  input from left to right. `calculate_activations` runs the same fold but keeps
  every intermediate vector.
- **Classification.** `classify` returns the position of the strongest output.
  Ties go to the first position. Positions are counted in a `u8`.
- **Construction.** `Network::from` takes the neurons explicitly.
  `Network::new` builds them from a list of layer sizes: biases are 0 and every
  weight is `2r - 1` for a random `r` in [0, 1).
- **Output-layer learning signal.** `calculate_deltas` gives each output its
  partial delta. `output_layer_weights` turns the deltas into bias and weight
  changes.
- **Activation strategies.** Sigmoid, whose derivative is `a(1 - a)`, and leaky
  ReLU. Both derivatives are read off the activation's output.
- **Helpers nothing calls.** The stand-alone ReLU `Neuron::impulse`, the `Digit`
  validator, and `read_digits`, which parses comma-separated digit records.

Reals stand in for `f64`. The activation function is a `real -> real` value. The
random number generator becomes a stream `draw: nat -> real`: `draw(k)` is the
k-th value the generator returns. The two text-to-number parsers become
parameters. A Rust `panic!` or failed `unwrap` that the code reaches on purpose
is modelled as `None`. An out-of-range index that the code assumes never happens
is modelled as a precondition.

Modules: `Prelude` (option type, `u8`, `f64::max`), `Vectors` (dot product,
scaling), `ActivationStrategy`, `Neurons`, `Layers`, `Networks`, `Classify`,
`Training`, `Digits`, `Reader`.

Behaviour of the code that the model keeps as it is:

- The partial delta of an output is `learning_rate * derivative(o) * (target - o)`.
- A layer accepts inputs longer than its weight vectors and ignores the extra
  entries.
- A target at or past the number of outputs is not an error: every output then
  gets target 0.
- The code has no staging buffer, no batch commit, no learning-rate schedule and
  no backpropagation through hidden layers, so none of them is modelled.

## Model

| member | source | states |
|---|---|---|
| `ActivationStrategy.LeakyRelu` | src/neural_network/activation.rs:30 | non-negative inputs pass through unchanged, negative inputs are multiplied by 0.01, and the output is positive exactly when the input is |
| `ActivationStrategy.SigmoidDerivative` | src/neural_network/activation.rs:21 | the derivative on the output `a` is 0 at `a = 0` and `a = 1`, and lies in [0, 1/4] for every `a` in [0, 1] |
| `ActivationStrategy.Sigmoid` | src/neural_network/activation.rs:18-23 | the strategy applies the given sigmoid, and its derivative maps every `a` to `a(1 - a)` |
| `ActivationStrategy.LeakyReluActivation` | src/neural_network/activation.rs:28-39 | the strategy keeps non-negative inputs, scales negative ones by 0.01, and has derivative 1 for a positive argument and 0 otherwise, including at 0 |
| `ActivationStrategy.LeakyReluSlope` | src/neural_network/activation.rs:30 | the real slope of leaky ReLU is 1 between non-negative points and 0.01 between non-positive points |
| `ActivationStrategy.LeakyReluDerivativeOnOutput` | src/neural_network/activation.rs:31-37 | read off the output, the derivative is 1 exactly for positive pre-activations; for negative ones it is 0, not the true slope 0.01 |
| `Neurons.New` | src/neural_network/neuron.rs:6-8 | the neuron keeps the given weights unchanged |
| `Neurons.Impulse` | src/neural_network/neuron.rs:10-22 | the result is never negative and is the larger of 0 and the weighted sum (inputs times weights at the same position, plus the last weight when `bias` is set); it needs at least as many weights as inputs, and one weight for the bias |
| `Neurons.BiasCountedTwice` | src/neural_network/neuron.rs:13-19 | with as many weights as inputs, the last weight enters the biased sum twice, as `w_last * (x_last + 1)` |
| `Neurons.BiasSeparate` | src/neural_network/neuron.rs:17-19 | with more weights than inputs, the bias adds the last weight exactly once to the unbiased sum |
| `Layers.From` | src/neural_network/layer.rs:24-26 | the layer keeps the neuron list unchanged and in order |
| `Layers.Activations` | src/neural_network/layer.rs:34-56 | one output per neuron in neuron order; output `j` is `f` of the dot product of neuron `j`'s weights with the first `|weights|` inputs, plus its bias; a neuron without weights gives `f(bias)`; every neuron must have no more weights than there are inputs |
| `Layers.ActivationsIgnoreExtra` | src/neural_network/layer.rs:46-47 | appending inputs beyond the weight counts leaves the layer's output unchanged |
| `Networks.From` | src/neural_network/network.rs:28-39 | learning rate 0.2, the activation stored unchanged, and exactly one layer per raw layer, holding that raw layer's neurons in order |
| `Networks.RandomWeights` | src/neural_network/network.rs:67-70 | weight `m` is `2 * draw(start + m) - 1`: the weights consume consecutive draws in order |
| `Networks.RandomLayer` | src/neural_network/network.rs:61-72 | `size` neurons, each with bias 0; neuron `j` uses the `inputs` draws right after those of neuron `j - 1` |
| `Networks.RawLayers` | src/neural_network/network.rs:57-75 | one raw layer per schema position from `i` on, of `schema[i + k]` neurons with bias 0 and `schema[i + k - 1]` drawn weights each |
| `Networks.New` | src/neural_network/network.rs:48-79 | learning rate 0.2 and the given activation; `|schema| - 1` layers, or none when `|schema| <= 1`; layer `k` has `schema[k + 1]` neurons, each with bias 0, `schema[k]` weights, and every weight of the form `2r - 1` for a drawn `r` |
| `Networks.NewChained` | src/neural_network/network.rs:61-70 | in a network from `New`, every neuron has one weight per neuron of the layer before |
| `Networks.NewWeightsBounded` | src/neural_network/network.rs:69 | when every draw lies in [0, 1), every weight from `New` lies in [-1, 1) |
| `Networks.ChainedFeeds` | src/neural_network/layer.rs:46-47 | when the first layer accepts the input width and each layer's weight counts fit the previous layer's neuron count, the whole fold can run without indexing past an input vector |
| `Networks.NewFeeds` | src/neural_network/network.rs:65-67 | a network from `New` can be applied to any input whose length is the schema's first entry |
| `Classify.Fold` | src/neural_network/network_classify.rs:48-49 | with no layers the input comes back unchanged; otherwise the result has the last layer's neuron count |
| `Classify.Compute` | src/neural_network/network_classify.rs:42-50 | the network's output is its input when it has no layers, and otherwise has as many entries as the last layer has neurons |
| `Classify.FoldSnoc` | src/neural_network/network_classify.rs:48-49 | folding one more layer at the end applies that layer to the previous result: a left fold from the first layer to the last |
| `Classify.FirstMax` | src/neural_network/network_classify.rs:20-28 | for a non-empty vector the result is the first position of a maximal value (every entry is at most it, every earlier one strictly less); 0 for an empty vector |
| `Classify.FirstMaxUnique` | src/neural_network/network_classify.rs:24 | there is only one first maximal position, so the tie-break is determined |
| `Classify.ArgMax` | src/neural_network/network_classify.rs:10-36 | the result is the first maximal position modulo 256, because the `u8` position counter wraps; 0 for an empty vector; for 1 to 256 outputs it is exactly the first maximal position |
| `Classify.Classify` | src/neural_network/network_classify.rs:10-36 | the class is the first maximal position of the network's output (modulo 256), 0 for an empty output, and for at most 256 outputs a valid position whose value is at least every output |
| `Training.Trace` | src/neural_network/network_train.rs:48-59 | the fold keeps the vectors gathered so far, adds one per layer, each the layer's output on the one before, and ends with the network's output |
| `Training.CalculateActivations` | src/neural_network/network_train.rs:43-60 | exactly `|layers| + 1` vectors; the first is the input unchanged; vector `k + 1` is layer `k`'s output on vector `k` and has layer `k`'s neuron count; the last equals `compute` on the same input |
| `Training.CalculateActivationsLayer` | src/neural_network/network_train.rs:50-56 | for each single layer `k`, vector `k + 1` is layer `k`'s activations on vector `k` |
| `Training.CalculateDeltas` | src/neural_network/network_train.rs:106-122 | one delta per output, in order: `learning_rate * derivative(o_k) * (1 - o_k)` at the target position and `learning_rate * derivative(o_k) * (0 - o_k)` everywhere else |
| `Training.DeltasTargetOutOfRange` | src/neural_network/network_train.rs:113-117 | a target past the last output raises nothing and pushes every output towards 0 |
| `Training.NudgeEach` | src/neural_network/network_train.rs:82-97 | one `(bias, weights)` change per delta, the bias change being the neuron's bias times its delta and the weight changes the previous activations times the delta |
| `Training.OutputLayerWeights` | src/neural_network/network_train.rs:69-98 | as written: one change per entry of `activations[layer_index]`; the bias change is the current bias of that neuron in `layers[layer_index]` times its delta; the weight changes are `activations[layer_index - 1][i]` times the delta, one per entry |
| `Training.OutputIndexMismatch` | src/neural_network/network_train.rs:76-85 | on a 2-3-1 network, the vector found at the output layer's index in the activation trace has 3 entries while the output layer has 1 neuron |
| `Training.NewBiasNudgesVanish` | src/neural_network/network_train.rs:85-95 | on a network from `New` every bias is 0, so every bias change computed as written is 0 |
| `Training.OutputLayerNudges` | src/neural_network/network_train.rs:69-98 | corrected version: one change per output neuron, deltas taken from the network's output, weight changes from the output layer's input, and the delta itself as the bias change |
| `Training.ForwardPassFitsNudges` | src/neural_network/network_train.rs:20-30 | after any forward pass, the corrected computation applies, its deltas come from `compute`'s output, and every weight of every output neuron gets a change |
| `Digits.New` | src/reader/digit.rs:8-14 | succeeds exactly when `0 <= class <= 9` and the grid has 64 cells, and then stores both unchanged; any other class or grid size fails |
| `Reader.Split` | src/reader/mod.rs:12 | splitting on a character gives at least one piece, no piece holds the separator, and joining the pieces back gives the text |
| `Reader.SplitJoin` | src/reader/mod.rs:12 | joining pieces that hold no separator and splitting again gives the same pieces |
| `Reader.Grid` | src/reader/mod.rs:16-18 | one grid value per field in order, each the parsed field divided by 16 |
| `Reader.ParseLine` | src/reader/mod.rs:12-20 | a line gives a digit exactly when it has 65 comma-separated fields and a class of at most 9; the class is the last field parsed, and grid cell `i` is field `i` parsed and divided by 16 |
| `Reader.NonEmpty` | src/reader/mod.rs:8-10 | keeps no empty line and never more lines than given |
| `Reader.NonEmptyFilter` | src/reader/mod.rs:8-10 | a single line is kept exactly when it is not empty, and a concatenation of line lists is filtered part by part, so the kept lines stay in order with their repetitions |
| `Reader.NonEmptyKeeps` | src/reader/mod.rs:8-10 | a line is kept exactly when it is among the lines and is not empty |
| `Reader.ReadLines` | src/reader/mod.rs:7-22 | succeeds exactly when every non-empty line is valid; then it gives exactly one digit per non-empty line, in line order, each the parse of that line |
| `Reader.Lines` | src/reader/mod.rs:6 | at least one line, no line holds a newline, and the lines joined back with newlines give the text |
| `Reader.ReadDigits` | src/reader/mod.rs:5-23 | on the whole text: one digit per non-empty line in order, and failure exactly when some non-empty line is invalid |

## Left out

- The `train` method (src/neural_network/network_train.rs:11-35) is not modelled. Its module is never declared in src/neural_network/mod.rs, and line 29 passes `activations` by value where a reference is expected, so it does not compile. Its loop range `layers_count..1` is empty whenever the network has two or more layers; with one layer the only call passes `layer_index` 0, where the source panics on `layer_index - 1`, which is the case `Training.OutputLayerWeights`'s `1 <= layerIndex` excludes. It applies no weight update, and no update is invented here.
- The sigmoid `1 / (1 + e^-x)` needs the exponential, so it is a parameter of `ActivationStrategy.Sigmoid`.
- IEEE-754 behaviour (rounding, NaN, infinities, `f64::max` on NaN) is not modelled; reals stand in for `f64`.
- `rand::thread_rng` is replaced by the `draw` stream; nothing about its distribution beyond the range [0, 1) is assumed.
- The `println!` in `classify` is output only.
- `include_str!` is replaced by the `text` parameter of `Reader.ReadDigits`.
- `parse::<u8>` and `parse::<f64>` are the total parameters `parseClass` and `parseField`, so the panic of `unwrap` on a malformed number is not modelled.
- The reader hands a `u8` class to `Digit::new`, which takes an `f64`. That does not compile; the model converts the class to a real.
- Classify.ArgMax: models the release-build wrap-around of the `u8` position counter. A debug build would panic on the overflow when there are 256 outputs or more.
- Networks.New: states that every weight comes from some draw. Which draw each weight uses is stated one layer at a time by `Networks.RandomLayer`, not at the network level.
- src/_neural_network/mod.rs is a broken earlier version of the network, src/main.rs holds only the entry point and one test, and src/neural_network/mod.rs holds only module declarations; none is modelled.

## Findings

| source | as written | input that shows it | evidently intended | confidence | as-written member | corrected member |
|---|---|---|---|---|---|---|
| src/neural_network/network_train.rs:76-89 | deltas come from `activations[layer_index]` and weight changes from `activations[layer_index - 1]`, with `layer_index = layers.len() - 1` (line 22, and the argument documented at line 65); but `activations[layer_index]` is the input of the output layer, not its output | a 2-3-1 network: `activations[1]` has 3 entries, the output layer has 1 neuron, so line 85 reads neurons 1 and 2 of a one-neuron layer and panics | deltas from `activations[layer_index + 1]` (the network's output), weight changes from `activations[layer_index]`; `train` never makes this call on a network of two or more layers, so the panic shows when the function is called directly with its documented argument | medium; not executed | `Training.OutputIndexMismatch` (about `Training.OutputLayerWeights`) | `Training.OutputLayerNudges`, with `Training.ForwardPassFitsNudges` |
| src/neural_network/network_train.rs:85-95 | the bias change is the neuron's current bias times its delta | any network from `Network::new`: every bias is 0 (network.rs:64), so every bias change is 0 and the biases never learn | the delta itself, since the bias input is always 1 (layer.rs:50) | medium; not executed | `Training.NewBiasNudgesVanish` (about `Training.OutputLayerWeights`) | `Training.OutputLayerNudges` |
