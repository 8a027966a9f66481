/**
 * The C scalar types the harness uses, with their widths made explicit.
 * Dafny integers are unbounded, so every place where the C code relies on
 * unsigned wrap-around goes through `Wrap32`.
 */
module CTypes {

  const TWO_32: int := 0x1_0000_0000

  /** `uint32_t`: timestamps, elapsed times, and the casts in the module summary. */
  type uint32 = x: int | 0 <= x < 0x1_0000_0000

  /** `int`: a 32-bit signed C integer. */
  type int32 = x: int | -0x8000_0000 <= x < 0x8000_0000

  /** `unsigned char`: one byte of a buffer or of a C string. */
  type byte = x: int | 0 <= x < 256

  /** A pointer that may be NULL, for pointers to immutable data. */
  datatype Option<T> = None | Some(value: T)

  /** The NUL byte that terminates a C string. */
  const NUL: byte := 0

  /** Reduction modulo 2^32, as unsigned 32-bit arithmetic and `(uint32_t)` casts do. */
  function Wrap32(x: int): (r: uint32)
  {
    x % TWO_32
  }

  /** `later - earlier` evaluated in `uint32_t`. */
  function Elapsed(earlier: uint32, later: uint32): (r: uint32)
    ensures earlier <= later ==> r == later - earlier
    ensures later < earlier ==> r == TWO_32 - earlier + later
  {
    Wrap32(later - earlier)
  }

  /** A C truth value: any non-zero scalar is true. */
  predicate Truthy(v: int) {
    v != 0
  }

  /** The value of a C comparison or logical operator: 1 for true, 0 for false. */
  function FromBool(b: bool): (r: int)
    ensures Truthy(r) == b
  {
    if b then 1 else 0
  }

  /** C's `!v`. */
  function Not(v: int): (r: int)
    ensures Truthy(r) <==> !Truthy(v)
  {
    FromBool(v == 0)
  }
}
