/** Go's 64-bit integers: what is kept of a number that does not fit. */
module Integers {
  const TWO_TO_63: int := 0x8000_0000_0000_0000
  const TWO_TO_64: int := 0x1_0000_0000_0000_0000
  const TWO_TO_160: int := 0x1_0000_0000_0000_0000_0000_0000_0000_0000_0000_0000

  type Uint64 = n: nat | n < TWO_TO_64

  function Min(a: int, b: int): int {
    if a <= b then a else b
  }

  function Max(a: int, b: int): int {
    if a >= b then a else b
  }

  /** Unsigned arithmetic keeps the low 64 bits. */
  function Wrap(x: int): Uint64 {
    x % TWO_TO_64
  }

  predicate IsInt64(n: int) {
    -TWO_TO_63 <= n < TWO_TO_63
  }

  /** Signed conversion and arithmetic keep the low 64 bits, read as two's complement. */
  function Int64(n: int): (r: int)
    ensures IsInt64(r)
    ensures IsInt64(n) ==> r == n
    ensures (r - n) % TWO_TO_64 == 0
  {
    var low := n % TWO_TO_64;
    if low < TWO_TO_63 then low else low - TWO_TO_64
  }

  lemma Int64Congruent(x: int, y: int)
    requires (x - y) % TWO_TO_64 == 0
    ensures Int64(x) == Int64(y)
  {
    var q := (x - y) / TWO_TO_64;
    assert x == y + q * TWO_TO_64;
  }

  lemma Int64AfterInt64(x: int, d: int)
    ensures Int64(Int64(x) + d) == Int64(x + d)
  {
    Int64Congruent(Int64(x) + d, x + d);
  }

  lemma WrapAfterWrap(x: nat, y: nat)
    ensures Wrap(Wrap(x) + y) == Wrap(x + y)
  {
    var q := x / TWO_TO_64;
    assert x + y == Wrap(x) + y + q * TWO_TO_64;
  }

  lemma WrapMultiple(x: nat, q: nat)
    ensures Wrap(x + q * TWO_TO_64) == Wrap(x)
  {
  }

  lemma WrapOfProduct(x: nat, m: nat)
    ensures Wrap(Wrap(x) * m) == Wrap(x * m)
  {
    var q := x / TWO_TO_64;
    assert x * m == Wrap(x) * m + q * m * TWO_TO_64;
    WrapMultiple(Wrap(x) * m, q * m);
  }

  lemma WrapOfSmall(x: nat)
    requires x < TWO_TO_64
    ensures Wrap(x) == x
  {
  }
}
