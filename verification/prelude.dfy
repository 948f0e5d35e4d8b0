/** Small shared definitions: an optional value, Rust's `u8`, and `f64::max`. */
module Prelude {

  /** An optional value. `None` also stands for a Rust `panic!` or a failed `unwrap`. */
  datatype Option<+T> = None | Some(value: T)

  /** Rust's unsigned 8-bit integer. */
  type u8 = x: int | 0 <= x < 256

  /** `f64::max` on reals: the larger of the two arguments. */
  function Max(a: real, b: real): (m: real)
    ensures m >= a && m >= b
    ensures m == a || m == b
  {
    if a < b then b else a
  }

  /** Incrementing a `u8` counter with wrap-around keeps it equal to the true count modulo 256. */
  lemma WrapIncrement(i: nat)
    ensures (i % 256 + 1) % 256 == (i + 1) % 256
  {
  }
}
