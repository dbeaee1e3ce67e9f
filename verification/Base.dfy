/** Shared value types: options, results and the 64-bit integers of the wire and of prices. */
module Base {

  datatype Option<+T> = None | Some(value: T)

  datatype Result<+T, +E> = Ok(value: T) | Err(error: E)

  /** The gRPC statuses that the inventory and payment servers answer with. */
  datatype RpcError = InvalidArgument(detail: string) | NotFound(detail: string)

  const TWO_63: int := 0x8000_0000_0000_0000
  const TWO_64: int := 0x1_0000_0000_0000_0000

  newtype int64 = x: int | -0x8000_0000_0000_0000 <= x < 0x8000_0000_0000_0000

  predicate FitsInt64(x: int) {
    -TWO_63 <= x < TWO_63
  }

  /** The int64 that a two's-complement machine stores for the exact value x. */
  function Wrap(x: int): int64 {
    ((x + TWO_63) % TWO_64 - TWO_63) as int64
  }

  /** Machine addition, which wraps around. */
  function AddInt64(a: int64, b: int64): int64 {
    Wrap(a as int + b as int)
  }

  /** What is stored differs from the exact value by a multiple of 2^64; there is one such int64. */
  lemma WrapIsCongruent(x: int, y: int64)
    ensures y == Wrap(x) <==> (x - y as int) % 0x1_0000_0000_0000_0000 == 0
  {
    var q := (x + TWO_63) / TWO_64;
    assert Wrap(x) as int == x - q * TWO_64;
    if (x - y as int) % TWO_64 == 0 {
      var p := (x - y as int) / TWO_64;
      assert Wrap(x) as int - y as int == (p - q) * TWO_64;
    }
  }

  lemma WrapOfFitting(x: int)
    requires FitsInt64(x)
    ensures Wrap(x) as int == x
  {}

  /** Wrapping after every addition stores the same value as wrapping the exact sum once. */
  lemma WrapAbsorbs(a: int, b: int)
    ensures Wrap(Wrap(a) as int + b) == Wrap(a + b)
  {
    var q := (a + TWO_63) / TWO_64;
    assert Wrap(a) as int == a - q * TWO_64;
    assert (a + b + TWO_63 - q * TWO_64) % TWO_64 == (a + b + TWO_63) % TWO_64;
  }

  function Sum(xs: seq<int>): int {
    if xs == [] then 0 else Sum(xs[..|xs| - 1]) + xs[|xs| - 1]
  }

  lemma {:induction false} SumBounds(xs: seq<int>, cap: nat)
    requires forall i :: 0 <= i < |xs| ==> 0 <= xs[i] <= cap
    ensures 0 <= Sum(xs) <= |xs| * cap
  {
    if xs != [] {
      SumBounds(xs[..|xs| - 1], cap);
    }
  }
}
