/** A labelled handwritten-digit sample: its class and its 8x8 grid of intensities. */
module Digits {
  import opened Prelude

  /** `category` is the digit's `class` field; `class` is a keyword in Dafny. */
  datatype Digit = Digit(category: real, grid: seq<real>)

  /** Number of cells in a digit's grid. */
  const GridSize: nat := 64

  /** The largest digit category. */
  const MaxClass: real := 9.0

  /**
    Validates and builds a digit; `None` stands for the panic on a class outside
    0..9 or a grid of the wrong size.
  */
  function New(category: real, grid: seq<real>): (d: Option<Digit>)
    ensures d.Some? <==> 0.0 <= category <= MaxClass && |grid| == GridSize
    ensures d.Some? ==> d.value.category == category && d.value.grid == grid
  {
    if category > MaxClass || category < 0.0 || |grid| != GridSize then None
    else Some(Digit(category, grid))
  }
}
