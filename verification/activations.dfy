/**
  Activation strategies: a function applied to each neuron's weighted sum, paired
  with its derivative. The derivative takes the activation's own OUTPUT as its
  argument, because backpropagation only keeps the outputs.
*/
module ActivationStrategy {
  import opened Prelude

  datatype Activation = Activation(apply: real -> real, derivative: real -> real)

  /** The slope leaky ReLU gives to negative inputs. */
  const Leak: real := 0.01

  /** Leaky ReLU, `max(0.01 * x, x)`: non-negative inputs pass through, negative ones are scaled down. */
  function LeakyRelu(x: real): (y: real)
    ensures x >= 0.0 ==> y == x
    ensures x < 0.0 ==> y == Leak * x
    ensures (y > 0.0) == (x > 0.0)
  {
    Max(Leak * x, x)
  }

  /** The leaky-ReLU derivative as written: 1 for a positive argument, 0 otherwise (0 at 0 too). */
  function LeakyReluDerivative(a: real): real
  {
    if a > 0.0 then 1.0 else 0.0
  }

  /** The sigmoid derivative expressed on the sigmoid's output `a`. */
  function SigmoidDerivative(a: real): (d: real)
    ensures a == 0.0 || a == 1.0 ==> d == 0.0
    ensures 0.0 <= a <= 1.0 ==> 0.0 <= d <= 0.25
  {
    assert 0.25 - a * (1.0 - a) == (a - 0.5) * (a - 0.5);
    assert 0.0 <= a && 0.0 <= 1.0 - a ==> 0.0 <= a * (1.0 - a) by {
      if 0.0 <= a && 0.0 <= 1.0 - a {
        assert a * (1.0 - a) >= 0.0 * (1.0 - a);
      }
    }
    a * (1.0 - a)
  }

  /**
    The sigmoid strategy. The sigmoid `1 / (1 + e^-x)` itself needs the exponential,
    so it is a parameter here.
  */
  function Sigmoid(sigmoid: real -> real): (act: Activation)
    ensures act.apply == sigmoid
    ensures forall a :: act.derivative(a) == a * (1.0 - a)
  {
    Activation(sigmoid, a => SigmoidDerivative(a))
  }

  /** The leaky-ReLU strategy. */
  function LeakyReluActivation(): (act: Activation)
    ensures forall x :: x >= 0.0 ==> act.apply(x) == x
    ensures forall x :: x < 0.0 ==> act.apply(x) == Leak * x
    ensures forall a :: act.derivative(a) == (if a > 0.0 then 1.0 else 0.0)
  {
    Activation(x => LeakyRelu(x), a => LeakyReluDerivative(a))
  }

  /**
    Leaky ReLU's true slope between two points: 1 on the non-negative side and
    0.01 on the non-positive side.
  */
  lemma LeakyReluSlope(x: real, y: real)
    requires x < y
    ensures 0.0 <= x ==> LeakyRelu(y) - LeakyRelu(x) == y - x
    ensures y <= 0.0 ==> LeakyRelu(y) - LeakyRelu(x) == Leak * (y - x)
  {
  }

  /**
    Reading the derivative off the output: leaky ReLU keeps the sign of its input,
    so the derivative is 1 exactly for positive pre-activations, matching the slope
    there, and 0 for negative ones, where the true slope is 0.01.
  */
  lemma LeakyReluDerivativeOnOutput(x: real)
    ensures x > 0.0 ==> LeakyReluDerivative(LeakyRelu(x)) == 1.0
    ensures x <= 0.0 ==> LeakyReluDerivative(LeakyRelu(x)) == 0.0
    ensures x < 0.0 ==> LeakyReluDerivative(LeakyRelu(x)) != Leak
  {
  }
}
