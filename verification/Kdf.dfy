// Key derivation in counter mode (section 5.1 of NIST SP 800-108) as the duplication utility
// computes it: the counter stays at one, so every block appended is the same block.
module Kdf {
  import opened Bytes

  type digest32 = b: bytes | |b| == 32 witness seq(32, _ => 0)
  type Hmac = (bytes, bytes) -> digest32

  const MAX_DIGEST_BUFFER: nat := 1024

  datatype KdfRc = KdfSuccess | KdfBadAlgorithm

  // ---------- byte order ----------

  function Dword(a: byte, b: byte, c: byte, d: byte): uint32 {
    a * 0x100_0000 + b * 0x1_0000 + c * 256 + d
  }

  function ChangeEndianDword(p: uint32): uint32 {
    Dword(p % 256, p / 256 % 256, p / 0x1_0000 % 256, p / 0x100_0000)
  }

  // A little-endian store of a UINT32.
  function StoreLE(p: uint32): (s: bytes)
    ensures |s| == 4
  {
    [p % 256, p / 256 % 256, p / 0x1_0000 % 256, p / 0x100_0000]
  }

  lemma DwordDigits(a: byte, b: byte, c: byte, d: byte)
    ensures var q := Dword(a, b, c, d);
      q / 0x100_0000 == a && q / 0x1_0000 % 256 == b && q / 256 % 256 == c && q % 256 == d
    ensures ChangeEndianDword(Dword(a, b, c, d)) == Dword(d, c, b, a)
  {
    var q: int := a * 0x100_0000 + b * 0x1_0000 + c * 256 + d;
    assert q / 256 == a * 0x1_0000 + b * 256 + c;
    assert q / 0x1_0000 == a * 256 + b;
  }

  // Swapping twice is the identity, and a swapped value stored little-endian is the value in
  // big-endian order.
  lemma SwapMeaning(p: uint32)
    ensures ChangeEndianDword(ChangeEndianDword(p)) == p
    ensures StoreLE(ChangeEndianDword(p)) == ToBE(4, p)
  {
    var b0: byte, b1: byte, b2: byte, b3: byte := p % 256, p / 256 % 256, p / 0x1_0000 % 256, p / 0x100_0000;
    Digits32(p);
    Bytes32(p);
    assert p == Dword(b3, b2, b1, b0);
    DwordDigits(b3, b2, b1, b0);
    DwordDigits(b0, b1, b2, b3);
  }

  // ---------- the blocks ----------

  // What is authenticated for counter value i.
  function Message(i: uint32, purpose: bytes, u: bytes, v: bytes, bits: uint16): bytes {
    ToBE(4, i) + (purpose + [0]) + u + v + ToBE(4, bits)
  }

  function Repeat(block: digest32, n: nat): (r: bytes)
    ensures |r| == 32 * n
  {
    if n == 0 then [] else Repeat(block, n - 1) + block
  }

  // The number of 32-byte blocks that cover n bytes.
  function Blocks(n: nat): (k: nat)
    ensures n <= 32 * k < n + 32
  {
    (n + 31) / 32
  }

  // What the utility computes: repetitions of the block for counter value one.
  function Derived(hmac: Hmac, key: bytes, purpose: bytes, u: bytes, v: bytes, bits: uint16): (r: bytes)
    ensures |r| == bits / 8
  {
    Repeat(hmac(key, Message(1, purpose, u, v, bits)), Blocks(bits / 8))[..bits / 8]
  }

  // Counter mode as SP 800-108 defines it (section 5.1): block i authenticates the counter, the label
  // with a zero byte behind it, the context, and the number of bits asked for, the numbers in four
  // bytes with the most significant first.
  function Input(i: nat, purpose: bytes, context: bytes, bits: uint16): bytes
    requires i < 0x1_0000
  {
    [0, 0, i / 256, i % 256] + purpose + [0] + context + [0, 0, bits / 256, bits % 256]
  }

  lemma FourBytes(i: nat)
    requires i < 0x1_0000
    ensures ToBE(4, i) == [0, 0, i / 256, i % 256]
  {
    Bytes32(i);
  }

  lemma InputIs(i: nat, purpose: bytes, u: bytes, v: bytes, bits: uint16)
    requires i < 0x1_0000
    ensures Message(i, purpose, u, v, bits) == Input(i, purpose, u + v, bits)
  {
    FourBytes(i);
    FourBytes(bits);
    Regrouped(ToBE(4, i), purpose, [0], u, v, ToBE(4, bits));
  }

  lemma Regrouped(a: bytes, b: bytes, c: bytes, d: bytes, e: bytes, f: bytes)
    ensures a + b + c + d + e + f == a + b + c + (d + e) + f
  {
  }

  // The blocks for counter values 1 to n.
  function Counted(hmac: Hmac, key: bytes, purpose: bytes, context: bytes, bits: uint16, n: nat): (r: bytes)
    requires n < 0x1_0000
    ensures |r| == 32 * n
  {
    if n == 0 then [] else Counted(hmac, key, purpose, context, bits, n - 1) + hmac(key, Input(n, purpose, context, bits))
  }

  function CounterMode(hmac: Hmac, key: bytes, purpose: bytes, context: bytes, bits: uint16): (r: bytes)
    ensures |r| == bits / 8
  {
    Counted(hmac, key, purpose, context, bits, Blocks(bits / 8))[..bits / 8]
  }

  // A request of one block or less is counter mode for every HMAC.
  lemma OneBlock(hmac: Hmac, key: bytes, purpose: bytes, u: bytes, v: bytes, bits: uint16)
    requires bits / 8 <= 32
    ensures Derived(hmac, key, purpose, u, v, bits) == CounterMode(hmac, key, purpose, u + v, bits)
  {
    var h := hmac(key, Message(1, purpose, u, v, bits));
    if bits / 8 > 0 {
      InputIs(1, purpose, u, v, bits);
      assert Repeat(h, 1) == Repeat(h, 0) + h == h;
      assert Counted(hmac, key, purpose, u + v, bits, 1) == Counted(hmac, key, purpose, u + v, bits, 0) + h == h;
    }
  }

  // A longer request is not: this HMAC, which answers with its message's fourth byte, tells the
  // second block from the first.
  function CounterByte(key: bytes, m: bytes): digest32 {
    if |m| < 4 then Zeros(32) else seq(32, _ => m[3])
  }

  lemma {:induction false} FirstOfRepeat(h: digest32, n: nat, i: nat)
    requires i < 32 * n
    ensures Repeat(h, n)[i] == h[i % 32]
  {
    if i < 32 * (n - 1) {
      FirstOfRepeat(h, n - 1, i);
    } else {
      assert i % 32 == i - 32 * (n - 1);
    }
  }

  lemma {:induction false} AtCounted(hmac: Hmac, key: bytes, purpose: bytes, context: bytes, bits: uint16, n: nat, i: nat)
    requires n < 0x1_0000 && i < 32 * n
    ensures Counted(hmac, key, purpose, context, bits, n)[i] == hmac(key, Input(i / 32 + 1, purpose, context, bits))[i % 32]
  {
    if i < 32 * (n - 1) {
      AtCounted(hmac, key, purpose, context, bits, n - 1, i);
    } else {
      assert i / 32 == n - 1 && i % 32 == i - 32 * (n - 1);
    }
  }

  lemma MoreBlocksDiffer(key: bytes, purpose: bytes, u: bytes, v: bytes, bits: uint16)
    requires bits / 8 > 32
    ensures Derived(CounterByte, key, purpose, u, v, bits)[32] == 1
    ensures CounterMode(CounterByte, key, purpose, u + v, bits)[32] == 2
  {
    var n := Blocks(bits / 8);
    var h := CounterByte(key, Message(1, purpose, u, v, bits));
    FirstOfRepeat(h, n, 32);
    AtCounted(CounterByte, key, purpose, u + v, bits, n, 32);
    InputIs(1, purpose, u, v, bits);
  }

  // The utility computes counter mode, whatever the HMAC, exactly for requests of at most a block.
  lemma CounterModeExactly(key: bytes, purpose: bytes, u: bytes, v: bytes, bits: uint16)
    ensures (forall hmac: Hmac :: Derived(hmac, key, purpose, u, v, bits) == CounterMode(hmac, key, purpose, u + v, bits))
      <==> bits / 8 <= 32
  {
    if bits / 8 <= 32 {
      forall hmac: Hmac
        ensures Derived(hmac, key, purpose, u, v, bits) == CounterMode(hmac, key, purpose, u + v, bits)
      {
        OneBlock(hmac, key, purpose, u, v, bits);
      }
    } else {
      MoreBlocksDiffer(key, purpose, u, v, bits);
    }
  }

  // ---------- the routine ----------

  // A TPM2B with its size and its buffer.
  class SizedBuffer {
    var size: nat
    const buffer: array<byte>

    constructor (capacity: nat)
      ensures size == 0 && buffer.Length == capacity && fresh(buffer)
    {
      size := 0;
      buffer := new byte[capacity](_ => 0);
    }

    ghost function Contents(): bytes
      reads this, buffer
      requires size <= buffer.Length
    {
      buffer[..size]
    }
  }

  // Appends all of `add`, or nothing when the total would pass MAX_DIGEST_BUFFER, which is 1024.
  method ConcatSizedByteBuffer(result: SizedBuffer, add: bytes) returns (ok: bool)
    requires result.size <= result.buffer.Length
    requires result.size + |add| <= MAX_DIGEST_BUFFER ==> result.size + |add| <= result.buffer.Length
    modifies result, result.buffer
    ensures ok == (old(result.size) + |add| <= 1024)
    ensures result.size <= result.buffer.Length
    ensures result.Contents() == old(result.Contents()) + (if ok then add else [])
  {
    if result.size + |add| > MAX_DIGEST_BUFFER {
      return false;
    }
    for i := 0 to |add|
      invariant result.size == old(result.size)
      invariant result.buffer[..result.size + i] == old(result.Contents()) + add[..i]
    {
      result.buffer[i + result.size] := add[i];
    }
    result.size := result.size + |add|;
    ok := true;
  }

  // One turn of the loop changes the size collected so far in this way.
  function Collect(size: nat): nat {
    if size + 32 > MAX_DIGEST_BUFFER then size else size + 32
  }

  function Collected(turns: nat): (size: nat)
    ensures size == Min(32 * turns, MAX_DIGEST_BUFFER)
  {
    if turns == 0 then 0 else Collect(Collected(turns - 1))
  }

  // The loop ends exactly when at most 1024 bytes are asked for: beyond that the
  // buffer stops growing before the request is met.
  lemma LoopEnds(requested: nat)
    ensures (exists turns: nat :: Collected(turns) >= requested) <==> requested <= 1024
  {
    if requested <= MAX_DIGEST_BUFFER {
      assert Collected(32) >= requested;
    }
  }

  lemma {:induction false} RepeatPrefix(h: digest32, k: nat, n: nat, m: nat)
    requires k <= n && m <= 32 * k
    ensures m <= 32 * n && Repeat(h, n)[..m] == Repeat(h, k)[..m]
    decreases n
  {
    if k < n {
      RepeatPrefix(h, k, n - 1, m);
      assert Repeat(h, n)[..m] == Repeat(h, n - 1)[..m];
    }
  }

  // The four bytes of a buffer into which a swapped UINT32 is stored.
  method SwappedField(p: uint32) returns (s: bytes)
    ensures s == ToBE(4, p)
  {
    SwapMeaning(p);
    s := StoreLE(ChangeEndianDword(p));
  }

  lemma NextTurn(turns: nat, requested: nat)
    requires 32 * turns < requested <= MAX_DIGEST_BUFFER
    ensures turns + 1 <= Blocks(requested) && 32 * (turns + 1) <= MAX_DIGEST_BUFFER
  {
  }

  method AppendBlock(block: digest32, result: SizedBuffer, ghost turns: nat)
    requires result.size == 32 * turns && 32 * (turns + 1) <= MAX_DIGEST_BUFFER
    requires 32 * (turns + 1) <= result.buffer.Length && result.Contents() == Repeat(block, turns)
    modifies result, result.buffer
    ensures result.size == 32 * (turns + 1) && result.Contents() == Repeat(block, turns + 1)
  {
    var _ := ConcatSizedByteBuffer(result, block);
    assert result.size == |result.Contents()|;
  }

  // The whole routine. `sha256` says whether the caller asked for the one hash that is supported;
  // with another one the first HMAC call fails.
  method KDFa(hmac: Hmac, sha256: bool, key: bytes, purpose: bytes, u: bytes, v: bytes, bits: uint16, result: SizedBuffer)
    returns (rc: KdfRc)
    requires bits / 8 <= MAX_DIGEST_BUFFER && 32 * Blocks(bits / 8) <= result.buffer.Length
    modifies result, result.buffer
    ensures rc == (if sha256 || bits / 8 == 0 then KdfSuccess else KdfBadAlgorithm)
    ensures rc == KdfSuccess ==>
      result.size == bits / 8 && result.size <= result.buffer.Length
      && result.Contents() == Derived(hmac, key, purpose, u, v, bits)
  {
    var bytesWanted := bits / 8;
    var bitsField := SwappedField(bits);
    result.size := 0;
    var i: uint32 := 1;
    ghost var h := hmac(key, Message(i, purpose, u, v, bits));
    ghost var turns := 0;
    while result.size < bytesWanted
      invariant i == 1 && result.size == 32 * turns && turns <= Blocks(bits / 8)
      invariant result.size <= result.buffer.Length
      invariant turns > 0 ==> sha256
      invariant result.Contents() == Repeat(h, turns)
      decreases bytesWanted - result.size
    {
      if !sha256 {
        return KdfBadAlgorithm;
      }
      var counter := SwappedField(i);
      var block := hmac(key, counter + (purpose + [0]) + u + v + bitsField);
      assert block == hmac(key, Message(i, purpose, u, v, bits)) == h;
      NextTurn(turns, bytesWanted);
      AppendBlock(block, result, turns);
      turns := turns + 1;
    }
    RepeatPrefix(h, turns, Blocks(bits / 8), bytesWanted);
    result.size := bytesWanted;
    rc := KdfSuccess;
  }
}
