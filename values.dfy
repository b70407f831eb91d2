/**
 * The interpreter's dynamic value, `Data`, as far as the standard library touches it,
 * and the conversion of a number to a vector index.
 */
module Values {

  /**
   * `Data`. Numbers are exact reals (the source's f32 rounding is not modelled); a
   * function value carries its name and its parameter names; an unsized set is an
   * opaque handle whose behaviour belongs to the host (see `Stdlib.Host`).
   */
  datatype Data =
    | Number(value: real)
    | Bool(truth: bool)
    | Function(name: string, params: seq<string>)
    | SizedSet(values: seq<Data>)
    | UnsizedSet(handle: nat)

  /** Largest `usize` on a 64-bit target. */
  const UsizeMax: nat := 0xFFFF_FFFF_FFFF_FFFF

  /**
   * Rust's `f32 as usize`: the fraction is cut off, anything below zero becomes 0 and
   * anything above the largest `usize` becomes that largest value.
   */
  function AsIndex(x: real): (i: nat)
    ensures i <= UsizeMax
    ensures x < 1.0 ==> i == 0
    ensures 0.0 <= x < (UsizeMax + 1) as real ==> i as real <= x < i as real + 1.0
    ensures x >= UsizeMax as real ==> i == UsizeMax
  {
    if x < 1.0 then 0
    else if x.Floor >= UsizeMax then UsizeMax
    else x.Floor
  }

  /** A whole number that fits in a `usize` is its own index. */
  lemma WholeIndex(n: nat)
    requires n <= UsizeMax
    ensures AsIndex(n as real) == n
  {
  }
}
