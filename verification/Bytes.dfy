// Bytes, exclusive or, and the big-endian integers of the TPM wire format.
module Bytes {

  type byte = x: int | 0 <= x < 256
  type bytes = seq<byte>
  type uint16 = x: int | 0 <= x < 0x1_0000
  type uint32 = x: int | 0 <= x < 0x1_0000_0000

  datatype Option<+T> = None | Some(value: T)

  function Min(a: int, b: int): int {
    if a < b then a else b
  }

  // The cast (UINT16)(a + b).
  function Add16(a: int, b: int): uint16 {
    (a + b) % 0x1_0000
  }

  lemma Add16Sum(a: nat, b: nat)
    ensures Add16(a % 0x1_0000, b % 0x1_0000) == (a + b) % 0x1_0000
  {
  }

  lemma Add16Assoc(a: int, b: int, c: int)
    ensures Add16(Add16(a, b), c) == Add16(a, Add16(b, c))
  {
  }

  function Zeros(n: nat): (z: bytes)
    ensures |z| == n && forall i :: 0 <= i < n ==> z[i] == 0
  {
    seq(n, _ => 0)
  }

  // ---------- exclusive or ----------

  function Pow2(n: nat): nat {
    if n == 0 then 1 else 2 * Pow2(n - 1)
  }

  // Exclusive or of two n-bit numbers, one bit at a time.
  function XorBits(n: nat, a: nat, b: nat): (r: nat)
    requires a < Pow2(n) && b < Pow2(n)
    ensures r < Pow2(n)
  {
    if n == 0 then 0 else 2 * XorBits(n - 1, a / 2, b / 2) + (a + b) % 2
  }

  lemma LowBit(a: nat, b: nat, r: nat)
    requires r % 2 == (a + b) % 2
    ensures (r + b) % 2 == a % 2
  {
  }

  lemma {:induction false} XorBitsCancel(n: nat, a: nat, b: nat)
    requires a < Pow2(n) && b < Pow2(n)
    ensures XorBits(n, XorBits(n, a, b), b) == a
  {
    if n == 0 {
    } else {
      var h := XorBits(n - 1, a / 2, b / 2);
      var r := XorBits(n, a, b);
      assert r == 2 * h + (a + b) % 2;
      Halves(h, (a + b) % 2);
      XorBitsCancel(n - 1, a / 2, b / 2);
      LowBit(a, b, r);
      assert XorBits(n, r, b) == 2 * XorBits(n - 1, r / 2, b / 2) + (r + b) % 2;
    }
  }

  lemma Halves(h: nat, low: nat)
    requires low < 2
    ensures (2 * h + low) / 2 == h && (2 * h + low) % 2 == low
  {
  }

  lemma EightBits()
    ensures Pow2(8) == 256
  {
    assert Pow2(4) == 16;
  }

  function Xor(a: byte, b: byte): byte {
    EightBits();
    XorBits(8, a, b)
  }

  lemma XorCancels(a: byte, b: byte)
    ensures Xor(Xor(a, b), b) == a
  {
    EightBits();
    XorBitsCancel(8, a, b);
  }

  // Bit k of n.
  function Bit(n: nat, k: nat): nat {
    if k == 0 then n % 2 else Bit(n / 2, k - 1)
  }

  lemma {:induction false} XorBitsBit(n: nat, a: nat, b: nat, k: nat)
    requires a < Pow2(n) && b < Pow2(n) && k < n
    ensures Bit(XorBits(n, a, b), k) == 1 <==> Bit(a, k) != Bit(b, k)
  {
    Halves(XorBits(n - 1, a / 2, b / 2), (a + b) % 2);
    if k > 0 {
      XorBitsBit(n - 1, a / 2, b / 2, k - 1);
    }
  }

  // A number is determined by its bits.
  lemma {:induction false} SameBits(n: nat, a: nat, b: nat)
    requires a < Pow2(n) && b < Pow2(n) && forall k :: 0 <= k < n ==> Bit(a, k) == Bit(b, k)
    ensures a == b
  {
    if n > 0 {
      forall k | 0 <= k < n - 1 ensures Bit(a / 2, k) == Bit(b / 2, k) {
        assert Bit(a, k + 1) == Bit(b, k + 1);
      }
      SameBits(n - 1, a / 2, b / 2);
      assert Bit(a, 0) == Bit(b, 0);
    }
  }

  lemma {:induction false} BitIsBit(n: nat, k: nat)
    ensures Bit(n, k) < 2
  {
    if k > 0 {
      BitIsBit(n / 2, k - 1);
    }
  }

  // Byte r is the exclusive or of bytes a and b: it has a one where they differ.
  predicate IsXor(r: byte, a: byte, b: byte) {
    forall k :: 0 <= k < 8 ==> (Bit(r, k) == 1 <==> Bit(a, k) != Bit(b, k))
  }

  // Xor is it, and nothing else is.
  lemma XorMeaning(r: byte, a: byte, b: byte)
    ensures r == Xor(a, b) <==> IsXor(r, a, b)
  {
    EightBits();
    var x := Xor(a, b);
    forall k | 0 <= k < 8 ensures Bit(x, k) == 1 <==> Bit(a, k) != Bit(b, k) {
      XorBitsBit(8, a, b, k);
    }
    if IsXor(r, a, b) {
      forall k | 0 <= k < 8 ensures Bit(r, k) == Bit(x, k) {
        assert Bit(r, k) == 1 <==> Bit(a, k) != Bit(b, k);
        BitIsBit(r, k);
        BitIsBit(x, k);
      }
      SameBits(8, r, x);
    }
  }

  // ---------- big-endian integers ----------

  function Pow256(w: nat): (p: nat)
    ensures p > 0
  {
    if w == 0 then 1 else 256 * Pow256(w - 1)
  }

  function FromBE(s: bytes): (n: nat)
    ensures n < Pow256(|s|)
  {
    if s == [] then 0 else 256 * FromBE(s[..|s| - 1]) + s[|s| - 1]
  }

  // The low w bytes of n, as a store of a w-byte integer writes them.
  function ToBE(w: nat, n: nat): (s: bytes)
    ensures |s| == w
  {
    if w == 0 then [] else ToBE(w - 1, n / 256) + [n % 256]
  }

  lemma {:induction false} FromToBE(w: nat, n: nat)
    requires n < Pow256(w)
    ensures FromBE(ToBE(w, n)) == n
  {
    if w == 0 {
    } else {
      FromToBE(w - 1, n / 256);
      assert ToBE(w, n)[..w - 1] == ToBE(w - 1, n / 256);
    }
  }

  lemma {:induction false} ToFromBE(s: bytes)
    ensures ToBE(|s|, FromBE(s)) == s
  {
    if s == [] {
    } else {
      ToFromBE(s[..|s| - 1]);
      assert s == s[..|s| - 1] + [s[|s| - 1]];
    }
  }

  // The widths the codec uses, written as the shift-and-add macros write them.
  lemma Widths()
    ensures Pow256(1) == 0x100 && Pow256(2) == 0x1_0000 && Pow256(4) == 0x1_0000_0000
  {
    assert Pow256(1) == 256 * Pow256(0);
    assert Pow256(2) == 256 * Pow256(1);
    assert Pow256(3) == 256 * Pow256(2);
    assert Pow256(4) == 256 * Pow256(3);
  }

  lemma BE1(a: byte)
    ensures FromBE([a]) == a
  {
    assert [a][..0] == [];
  }

  lemma BE2(a: byte, b: byte)
    ensures FromBE([a, b]) == 256 * a + b
  {
    BE1(a);
    assert [a, b][..1] == [a];
  }

  lemma BE4(a: byte, b: byte, c: byte, d: byte)
    ensures FromBE([a, b, c, d]) == 0x100_0000 * a + 0x1_0000 * b + 256 * c + d
  {
    BE2(a, b);
    assert [a, b, c][..2] == [a, b];
    assert [a, b, c, d][..3] == [a, b, c];
  }

  lemma Digits32(v: uint32)
    ensures v == 0x100_0000 * (v / 0x100_0000) + 0x1_0000 * (v / 0x1_0000 % 256) + 256 * (v / 256 % 256) + v % 256
  {
    var w := v / 256;
    var x := w / 256;
    assert v / 0x1_0000 == x && v / 0x100_0000 == x / 256;
  }

  // What the four stores of a UINT32 write.
  lemma Bytes32(v: uint32)
    ensures var b3, b2, b1, b0 := v / 0x100_0000, v / 0x1_0000 % 256, v / 256 % 256, v % 256;
      b3 < 256 && ToBE(4, v) == [b3, b2, b1, b0]
  {
    var b3, b2, b1, b0 := v / 0x100_0000, v / 0x1_0000 % 256, v / 256 % 256, v % 256;
    Digits32(v);
    BE4(b3, b2, b1, b0);
    ToFromBE([b3, b2, b1, b0]);
  }
}
