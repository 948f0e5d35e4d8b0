/**
  Inference: the forward pass as a left fold of the layers over the input vector,
  and classification as the position of the strongest output.
*/
module Classify {
  import opened Prelude
  import opened Layers
  import opened Networks

  /** The layers applied one after another, starting from `signal`. */
  function Fold(layers: seq<Layer>, signal: seq<real>, f: real -> real): (out: seq<real>)
    requires Feeds(layers, |signal|)
    ensures |layers| == 0 ==> out == signal
    ensures |layers| > 0 ==> |out| == |layers[|layers| - 1].neurons|
    decreases |layers|
  {
    if |layers| == 0 then signal
    else Fold(layers[1..], Activations(layers[0], signal, f), f)
  }

  /** The output layer's activations for the given input. */
  function Compute(net: Network, inputs: seq<real>): (out: seq<real>)
    requires Feeds(net.layers, |inputs|)
    ensures |net.layers| == 0 ==> out == inputs
    ensures |net.layers| > 0 ==> |out| == |net.layers[|net.layers| - 1].neurons|
  {
    Fold(net.layers, inputs, net.activation.apply)
  }

  /**
    Folding a list with one more layer at the end applies that layer to the
    result of folding the list: the fold runs from the first layer to the last.
  */
  lemma {:induction false} FoldSnoc(layers: seq<Layer>, last: Layer, signal: seq<real>, f: real -> real)
    requires Feeds(layers + [last], |signal|)
    ensures Feeds(layers, |signal|)
    ensures Accepts(last, |Fold(layers, signal, f)|)
    ensures Fold(layers + [last], signal, f) == Activations(last, Fold(layers, signal, f), f)
    decreases |layers|
  {
    if |layers| == 0 {
      assert (layers + [last])[1..] == [];
    } else {
      assert (layers + [last])[0] == layers[0];
      assert (layers + [last])[1..] == layers[1..] + [last];
      FoldSnoc(layers[1..], last, Activations(layers[0], signal, f), f);
    }
  }

  /**
    `k` is the first position of a maximal value: nothing in `s` exceeds `s[k]`,
    and everything before `k` is strictly smaller.
  */
  ghost predicate IsFirstMax(s: seq<real>, k: int)
  {
    && 0 <= k < |s|
    && (forall j :: 0 <= j < |s| ==> s[j] <= s[k])
    && (forall j :: 0 <= j < k ==> s[j] < s[k])
  }

  /** There is at most one first maximal position. */
  lemma FirstMaxUnique(s: seq<real>, k1: int, k2: int)
    requires IsFirstMax(s, k1) && IsFirstMax(s, k2)
    ensures k1 == k2
  {
    assert s[k1] == s[k2];
  }

  /**
    The first position of a maximal value, or 0 for an empty vector: the head
    wins unless something after it is strictly larger.
  */
  function FirstMax(s: seq<real>): (k: nat)
    ensures |s| == 0 ==> k == 0
    ensures |s| > 0 ==> IsFirstMax(s, k)
    decreases |s|
  {
    if |s| <= 1 then 0
    else
      var k := FirstMax(s[1..]) + 1;
      if s[0] < s[k] then k else 0
  }

  /**
    The arg-max scan as written: the first value seeds the running maximum, a
    later value replaces it only when strictly larger, and positions are counted
    in a `u8` that wraps around after 255.
  */
  method ArgMax(outputs: seq<real>) returns (strongest: u8)
    ensures strongest as int == FirstMax(outputs) % 256
    ensures |outputs| == 0 ==> strongest == 0
    ensures 0 < |outputs| <= 256 ==> IsFirstMax(outputs, strongest as int)
  {
    var current: u8 := 0;
    strongest := 0;
    var intensity: Option<real> := None;
    ghost var best := 0;
    for i := 0 to |outputs|
      invariant current as int == i % 256
      invariant intensity.None? <==> i == 0
      invariant i == 0 ==> best == 0
      invariant i > 0 ==> best < i && intensity.value == outputs[best]
      invariant forall j :: 0 <= j < i ==> outputs[j] <= outputs[best]
      invariant forall j :: 0 <= j < best ==> outputs[j] < outputs[best]
      invariant strongest as int == best % 256
    {
      var probability := outputs[i];
      match intensity {
        case None =>
          intensity := Some(probability);
        case Some(x) =>
          if x < probability {
            intensity := Some(probability);
            strongest := current;
            best := i;
          }
      }
      WrapIncrement(i);
      current := (current + 1) % 256;
    }
    if |outputs| > 0 {
      FirstMaxUnique(outputs, best, FirstMax(outputs));
    }
  }

  /** The class the network assigns to the input: the strongest output neuron. */
  method Classify(net: Network, inputs: seq<real>) returns (category: u8)
    requires Feeds(net.layers, |inputs|)
    ensures category as int == FirstMax(Compute(net, inputs)) % 256
    ensures var out := Compute(net, inputs); 0 < |out| <= 256 ==> IsFirstMax(out, category as int)
    ensures |Compute(net, inputs)| == 0 ==> category == 0
  {
    category := ArgMax(Compute(net, inputs));
  }
}
