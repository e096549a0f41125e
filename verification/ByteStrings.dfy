/** Byte strings and the big-endian numbers they spell. */
module ByteStrings {
  import opened Integers

  type Byte = n: nat | n < 256
  type Bytes = seq<Byte>

  const TWO_TO_256: int :=
    0x1_0000_0000_0000_0000_0000_0000_0000_0000_0000_0000_0000_0000_0000_0000_0000_0000

  type Uint8 = n: nat | n < 256
  type Uint160 = n: nat | n < TWO_TO_160
  type Uint256 = n: nat | n < TWO_TO_256

  lemma ModSmall(n: nat, m: nat)
    requires n < m
    ensures n % m == n
  {
  }

  function Pow256(k: nat): (p: nat)
    ensures p > 0
  {
    if k == 0 then 1 else 256 * Pow256(k - 1)
  }

  /** The last `k` big-endian bytes of `n`. */
  function ToBytes(n: nat, k: nat): (s: Bytes)
    ensures |s| == k
  {
    if k == 0 then [] else ToBytes(n / 256, k - 1) + [n % 256]
  }

  /** The number a big-endian byte string spells. */
  function FromBytes(s: Bytes): (n: nat)
    ensures n < Pow256(|s|)
  {
    if s == [] then 0 else FromBytes(s[..|s| - 1]) * 256 + s[|s| - 1]
  }

  lemma {:induction false} FromBytesToBytes(n: nat, k: nat)
    requires n < Pow256(k)
    ensures FromBytes(ToBytes(n, k)) == n
  {
    if k > 0 {
      FromBytesToBytes(n / 256, k - 1);
      var s := ToBytes(n, k);
      assert s[..|s| - 1] == ToBytes(n / 256, k - 1);
    }
  }

  lemma {:induction false} FromBytesConcat(a: Bytes, b: Bytes)
    ensures FromBytes(a + b) == FromBytes(a) * Pow256(|b|) + FromBytes(b)
  {
    if b == [] {
      assert a + b == a;
    } else {
      var s := a + b;
      var init := b[..|b| - 1];
      assert s[..|s| - 1] == a + init;
      FromBytesConcat(a, init);
      ShiftIn(FromBytes(a), Pow256(|init|), FromBytes(init), b[|b| - 1]);
    }
  }

  lemma {:induction false} ToBytesDrop(n: nat, k: nat, i: nat)
    requires i <= k
    ensures ToBytes(n, k)[i..] == ToBytes(n, k - i)
  {
    if i < k {
      ToBytesDrop(n / 256, k - 1, i);
      assert ToBytes(n, k)[i..] == ToBytes(n / 256, k - 1)[i..] + [n % 256];
    }
  }

  lemma {:induction false} ToBytesZero(k: nat, i: nat)
    requires i < k
    ensures ToBytes(0, k)[i] == 0
  {
    if i < k - 1 {
      ToBytesZero(k - 1, i);
    }
  }

  lemma {:induction false} Pow256Monotone(a: nat, b: nat)
    requires a <= b
    ensures Pow256(a) <= Pow256(b)
  {
    if a < b {
      Pow256Monotone(a, b - 1);
    }
  }

  lemma ShiftIn(high: nat, power: nat, low: nat, last: nat)
    ensures (high * power + low) * 256 + last == high * (256 * power) + (low * 256 + last)
  {
  }

  lemma PowersOf256()
    ensures Pow256(1) == 256 && Pow256(3) == 0x100_0000
    ensures Pow256(8) == TWO_TO_64 && Pow256(20) == TWO_TO_160 && Pow256(32) == TWO_TO_256
  {
    assert Pow256(4) == 0x1_0000_0000;
    assert Pow256(8) == TWO_TO_64;
    assert Pow256(12) == 0x1_0000_0000_0000_0000_0000_0000;
    assert Pow256(16) == 0x1_0000_0000_0000_0000_0000_0000_0000_0000;
    assert Pow256(20) == TWO_TO_160;
    assert Pow256(24) == 0x1_0000_0000_0000_0000_0000_0000_0000_0000_0000_0000_0000_0000;
    assert Pow256(28) == 0x1_0000_0000_0000_0000_0000_0000_0000_0000_0000_0000_0000_0000_0000_0000;
    assert Pow256(32) == TWO_TO_256;
  }
}
