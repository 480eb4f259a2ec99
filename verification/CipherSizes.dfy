// The lengths that symmetric encryption announces, in one call and in parts.
module CipherSizes {
  import opened Bytes

  // Only GCM makes an authentication tag, of so many bytes.
  datatype Mode = ECB | CBC | CFB | CTR | OFB | GCM(tag: nat)

  // What the announced lengths depend on.
  datatype Cipher = Cipher(mode: Mode, blockSize: nat, padding: bool)

  predicate IsBlockCipher(c: Cipher) { c.mode.CBC? || c.mode.ECB? }

  function TagBytes(c: Cipher): nat { if c.mode.GCM? then c.mode.tag else 0 }

  // The cast (int)n of a 64-bit value, and the cast back to 64 bits.
  function Int32(n: nat): int {
    var m := n % 0x1_0000_0000;
    if m < 0x8000_0000 then m else m - 0x1_0000_0000
  }

  function ULong(n: int): nat { n % 0x1_0000_0000_0000_0000 }

  // ---------- the formulas ----------

  // C_Encrypt for n bytes; None is CKR_DATA_LEN_RANGE.
  function WholeSize(c: Cipher, n: nat): Option<nat>
    requires c.blockSize > 0
  {
    if !IsBlockCipher(c) then Some(n + TagBytes(c))
    else if n % c.blockSize != 0 then if c.padding then Some(n + c.blockSize - n % c.blockSize) else None
    else if c.padding then Some(n + c.blockSize)
    else Some(n + TagBytes(c))
  }

  // C_EncryptUpdate for n bytes with some buffered; the number of blocks goes through an int.
  function UpdateSize(c: Cipher, buffered: nat, n: nat): nat
    requires c.blockSize > 0
  {
    if IsBlockCipher(c) then ULong(Int32((n + buffered) / c.blockSize) * c.blockSize) else n + buffered
  }

  function FinalSize(c: Cipher, buffered: nat): Option<nat>
    requires c.blockSize > 0
  {
    var remaining := buffered + TagBytes(c);
    if !IsBlockCipher(c) then Some(remaining)
    else if remaining % c.blockSize != 0 && !c.padding then None
    else if c.padding then Some((remaining + c.blockSize) / c.blockSize * c.blockSize)
    else Some(remaining)
  }

  // What the cipher keeps after n more bytes: a block mode the residue, a stream mode nothing.
  function Buffered(c: Cipher, buffered: nat, n: nat): nat
    requires c.blockSize > 0
  {
    if IsBlockCipher(c) then (buffered + n) % c.blockSize else 0
  }

  // ---------- in parts ----------

  function Total(parts: seq<nat>): nat {
    if parts == [] then 0 else parts[0] + Total(parts[1..])
  }

  // The lengths announced for the parts, summed, and then for the end.
  function InParts(c: Cipher, buffered: nat, parts: seq<nat>): Option<nat>
    requires c.blockSize > 0
    decreases |parts|
  {
    if parts == [] then FinalSize(c, buffered)
    else
      match InParts(c, Buffered(c, buffered, parts[0]), parts[1..])
      case None => None
      case Some(n) => Some(UpdateSize(c, buffered, parts[0]) + n)
  }

  // The blocks that n more bytes complete can be counted by an int.
  predicate Countable(c: Cipher, buffered: nat, n: nat)
    requires c.blockSize > 0
  {
    (n + buffered) / c.blockSize < 0x8000_0000
  }

  // So can those that each part completes.
  predicate AllCountable(c: Cipher, buffered: nat, parts: seq<nat>)
    requires c.blockSize > 0
    decreases |parts|
  {
    parts != [] ==>
      Countable(c, buffered, parts[0]) && AllCountable(c, Buffered(c, buffered, parts[0]), parts[1..])
  }

  // The bytes of n in whole blocks, and the rest.
  function WholeBlocks(n: nat, b: nat): (w: nat)
    requires b > 0
    ensures w <= n
  {
    Split(n, b);
    n / b * b
  }

  function Rest(n: nat, b: nat): (r: nat)
    requires b > 0
    ensures r < b && r <= n
  {
    n % b
  }

  lemma Split(n: nat, b: nat)
    requires b > 0
    ensures n == n / b * b + n % b && n % b < b
  {
  }

  lemma Product(q: nat, m: nat, b: nat)
    requires q <= m
    ensures q * b <= m * b
  {
    assert m * b == q * b + (m - q) * b;
  }

  lemma DivisionUnique(n: nat, b: nat, q: nat, r: nat)
    requires b > 0 && n == q * b + r && r < b
    ensures n / b == q && n % b == r
  {
    Split(n, b);
    if n / b < q {
      Product(n / b + 1, q, b);
      assert false;
    }
    if q < n / b {
      Product(q + 1, n / b, b);
      assert false;
    }
  }

  lemma AddMultiple(q: nat, r: nat, b: nat)
    requires b > 0
    ensures (q * b + r) / b == q + r / b && (q * b + r) % b == r % b
  {
    Split(r, b);
    var s := r / b;
    assert q * b + r == (q + s) * b + r % b;
    DivisionUnique(q * b + r, b, q + s, r % b);
  }

  // With padding, a whole message becomes the next multiple of the block size, one block more if it
  // is one already; without, it must be one and stays as it is. Only stream modes add a tag.
  lemma WholeMeaning(c: Cipher, n: nat, m: nat)
    requires c.blockSize > 0
    ensures IsBlockCipher(c) && c.padding ==> (WholeSize(c, n) == Some(m) <==> m % c.blockSize == 0 && n < m <= n + c.blockSize)
    ensures IsBlockCipher(c) && !c.padding ==> (WholeSize(c, n) == Some(m) <==> n % c.blockSize == 0 && m == n)
    ensures !IsBlockCipher(c) ==> (WholeSize(c, n) == Some(m) <==> m == n + if c.mode.GCM? then c.mode.tag else 0)
  {
    if IsBlockCipher(c) && c.padding {
      Padded(n, c.blockSize, m);
    }
  }

  lemma Padded(n: nat, b: nat, m: nat)
    requires b > 0
    ensures m == n + b - n % b <==> m % b == 0 && n < m <= n + b
  {
    Split(n, b);
    Split(m, b);
    DivisionUnique(n + b - n % b, b, n / b + 1, 0);
    if m % b == 0 && n < m <= n + b {
      if m / b <= n / b {
        Product(m / b, n / b, b);
        assert false;
      }
      if m / b > n / b + 1 {
        Product(n / b + 2, m / b, b);
        assert false;
      }
    }
  }

  const HALF: nat := 0x8000_0000_0000_0000

  // What the casts make of a number of blocks: itself if an int can hold it; a length that is too
  // small, or one of at least 2^63, if not.
  lemma Cast(q: nat, b: nat)
    requires b > 0 && q * b < HALF
    ensures var v := ULong(Int32(q) * b);
      if q < 0x8000_0000 then v == q * b else v < q * b || v >= HALF
  {
    var i := Int32(q);
    if i < 0 {
      Product(0x8000_0000, q, b);
      Negative(-i, b);
      assert i * b == -(-i * b);
    } else if i < q {
      Product(i + 1, q, b);
    }
  }

  lemma Negative(i: int, b: nat)
    requires 0 < i <= 0x8000_0000 && 0 < b < 0x1_0000_0000
    ensures ULong(-(i * b)) >= HALF
  {
    Product(i, 0x8000_0000, b);
    Product(1, i, b);
    Wrapped(i * b);
  }

  lemma Wrapped(p: int)
    requires 0 < p <= HALF
    ensures ULong(-p) >= HALF
  {
    assert -p == -1 * 0x1_0000_0000_0000_0000 + (0x1_0000_0000_0000_0000 - p);
  }

  // What is announced for a part, in every case.
  lemma OnePart(c: Cipher, buffered: nat, n: nat)
    requires IsBlockCipher(c) && c.blockSize > 0 && n + buffered < HALF
    ensures Announced(UpdateSize(c, buffered, n), WholeBlocks(n + buffered, c.blockSize), Countable(c, buffered, n))
  {
    Split(n + buffered, c.blockSize);
    Cast((n + buffered) / c.blockSize, c.blockSize);
  }

  // A length that should be x: it is if everything can be counted; if not, it is too small, or at
  // least 2^63.
  predicate Announced(length: int, x: nat, countable: bool) {
    if countable then length == x else length < x || length >= HALF
  }

  // The length announced for a part is that of the whole blocks it completes exactly when an int
  // can count them.
  lemma PartExactly(c: Cipher, buffered: nat, n: nat)
    requires IsBlockCipher(c) && c.blockSize > 0 && n + buffered < HALF
    ensures UpdateSize(c, buffered, n) == WholeBlocks(n + buffered, c.blockSize)
      <==> (n + buffered) / c.blockSize < 0x8000_0000
  {
    OnePart(c, buffered, n);
    Split(n + buffered, c.blockSize);
  }

  // x bytes and then m more make as many whole blocks as x bytes, and then m more with the residue.
  lemma BlocksAddUp(x: nat, m: nat, b: nat)
    requires b > 0
    ensures WholeBlocks(x + m, b) == WholeBlocks(x, b) + WholeBlocks(Rest(x, b) + m, b)
    ensures Rest(x + m, b) == Rest(Rest(x, b) + m, b)
  {
    var q, k := x / b, (x % b + m) / b;
    Split(x, b);
    AddMultiple(q, x % b + m, b);
    assert x + m == q * b + (x % b + m);
    assert (q + k) * b == q * b + k * b;
  }

  // The sum of some announced lengths, and then that of the end.
  predicate AllAnnounced(r: Option<nat>, end: Option<nat>, x: nat, countable: bool) {
    match end
    case None => r == None
    case Some(e) => r.Some? && r.value >= e && Announced(r.value - e, x, countable)
  }

  lemma OneMore(u: nat, x: nat, a: bool, r: Option<nat>, end: Option<nat>, y: nat, b: bool)
    requires Announced(u, x, a) && AllAnnounced(r, end, y, b)
    ensures AllAnnounced(if r == None then None else Some(u + r.value), end, x + y, a && b)
  {
  }

  // After the first part the rest is a message of its own, with the residue buffered.
  lemma OneMorePart(c: Cipher, buffered: nat, parts: seq<nat>)
    requires IsBlockCipher(c) && c.blockSize > 0 && parts != []
    requires PartsAnnounced(c, Rest(buffered + parts[0], c.blockSize), parts[1..])
    requires parts[0] + buffered < HALF
    ensures PartsAnnounced(c, buffered, parts) == true
  {
    var b, n, m := c.blockSize, parts[0], Total(parts[1..]);
    var rest := Rest(buffered + n, b);
    OnePart(c, buffered, n);
    BlocksAddUp(buffered + n, m, b);
    OneMore(UpdateSize(c, buffered, n), WholeBlocks(n + buffered, b), Countable(c, buffered, n),
            InParts(c, rest, parts[1..]), FinalSize(c, Rest(rest + m, b)), WholeBlocks(rest + m, b),
            AllCountable(c, rest, parts[1..]));
    assert n + buffered == buffered + n && buffered + Total(parts) == buffered + n + m;
  }

  // What is announced for the parts of a block mode, and the end with what is left.
  predicate PartsAnnounced(c: Cipher, buffered: nat, parts: seq<nat>)
    requires c.blockSize > 0
  {
    var all := buffered + Total(parts);
    AllAnnounced(InParts(c, buffered, parts), FinalSize(c, Rest(all, c.blockSize)), WholeBlocks(all, c.blockSize),
                 AllCountable(c, buffered, parts))
  }

  lemma {:induction false} BlockParts(c: Cipher, buffered: nat, parts: seq<nat>)
    requires IsBlockCipher(c) && 0 < c.blockSize && buffered < c.blockSize && buffered + Total(parts) < HALF
    ensures PartsAnnounced(c, buffered, parts) == true
    decreases |parts|
  {
    if parts == [] {
      DivisionUnique(buffered, c.blockSize, 0, buffered);
    } else {
      assert Total(parts) == parts[0] + Total(parts[1..]);
      BlockParts(c, Rest(buffered + parts[0], c.blockSize), parts[1..]);
      OneMorePart(c, buffered, parts);
    }
  }

  // A stream mode announces every part as it comes and the tag at the end.
  lemma {:induction false} StreamParts(c: Cipher, parts: seq<nat>)
    requires !IsBlockCipher(c) && c.blockSize > 0
    ensures InParts(c, 0, parts) == Some(Total(parts) + TagBytes(c))
  {
    if parts != [] {
      StreamParts(c, parts[1..]);
    }
  }

  // The end of a message in a block mode, with r bytes left of the last block.
  lemma BlockEnd(c: Cipher, n: nat)
    requires IsBlockCipher(c) && c.blockSize > 0
    ensures FinalSize(c, Rest(n, c.blockSize))
         == if c.padding then Some(c.blockSize) else if n % c.blockSize == 0 then Some(0) else None
    ensures WholeSize(c, n) == match FinalSize(c, Rest(n, c.blockSize))
                               case None => None
                               case Some(end) => Some(WholeBlocks(n, c.blockSize) + end)
  {
    var b, r := c.blockSize, n % c.blockSize;
    Split(n, b);
    DivisionUnique(r, b, 0, r);
    AddMultiple(1, r, b);
    assert 1 * b + r == r + b;
  }

  // However a message is cut up, the parts announce in all exactly what the whole announces, and are
  // refused in exactly the same cases, if and only if no part completes 2^31 blocks; or the mode is
  // a stream mode, or the message is refused.
  lemma ChunkingIndependent(c: Cipher, parts: seq<nat>)
    requires c.blockSize > 0 && Total(parts) < HALF
    ensures InParts(c, 0, parts) == WholeSize(c, Total(parts)) <==>
      !IsBlockCipher(c) || WholeSize(c, Total(parts)) == None || AllCountable(c, 0, parts)
  {
    if IsBlockCipher(c) {
      BlockParts(c, 0, parts);
      BlockEnd(c, Total(parts));
      Split(Total(parts), c.blockSize);
    } else {
      StreamParts(c, parts);
    }
  }

  // A message of fewer than 2^31 bytes is announced alike however it is cut up.
  lemma {:induction false} ShortCountable(c: Cipher, buffered: nat, parts: seq<nat>)
    requires c.blockSize > 0 && buffered + Total(parts) < 0x8000_0000
    ensures AllCountable(c, buffered, parts)
    decreases |parts|
  {
    if parts != [] {
      Split(buffered + parts[0], c.blockSize);
      assert Rest(buffered + parts[0], c.blockSize) <= buffered + parts[0];
      ShortCountable(c, Buffered(c, buffered, parts[0]), parts[1..]);
    }
  }

  // A single part of 2^31 blocks is announced with a length that has gone through a negative int, so
  // the parts of this message do not announce what the whole does.
  lemma TooManyBlocks()
    ensures var c := Cipher(CBC, 16, false);
      UpdateSize(c, 0, 0x8_0000_0000) == 0x1_0000_0000_0000_0000 - 0x8_0000_0000
      && InParts(c, 0, [0x8_0000_0000]) != WholeSize(c, 0x8_0000_0000)
  {
    var c, parts := Cipher(CBC, 16, false), [0x8_0000_0000];
    assert Int32(0x8000_0000) == -0x8000_0000;
    assert Total(parts) == 0x8_0000_0000 && !AllCountable(c, 0, parts);
    ChunkingIndependent(c, parts);
  }

  // ---------- the calls ----------

  // A multi-part operation, with what its cipher has buffered.
  class Operation {
    const cipher: Cipher
    var buffered: nat

    constructor (cipher: Cipher)
      ensures this.cipher == cipher && buffered == 0
    {
      this.cipher := cipher;
      buffered := 0;
    }

    method EncryptUpdate(n: nat) returns (maxSize: nat)
      requires cipher.blockSize > 0
      modifies this
      ensures maxSize == UpdateSize(cipher, old(buffered), n) && buffered == Buffered(cipher, old(buffered), n)
    {
      maxSize := n + buffered;
      if IsBlockCipher(cipher) {
        var nrOfBlocks := Int32((n + buffered) / cipher.blockSize);
        maxSize := ULong(nrOfBlocks * cipher.blockSize);
      }
      Consume(n);
    }

    // The cipher takes n bytes and keeps what does not fill a block.
    method Consume(n: nat)
      requires cipher.blockSize > 0
      modifies this
      ensures buffered == Buffered(cipher, old(buffered), n)
    {
      buffered := if IsBlockCipher(cipher) then (buffered + n) % cipher.blockSize else 0;
    }

    method EncryptFinal() returns (size: Option<nat>)
      requires cipher.blockSize > 0
      ensures size == FinalSize(cipher, buffered)
    {
      var remaining := buffered + TagBytes(cipher);
      if IsBlockCipher(cipher) {
        if remaining % cipher.blockSize != 0 && !cipher.padding {
          return None;
        }
        if cipher.padding {
          return Some((remaining + cipher.blockSize) / cipher.blockSize * cipher.blockSize);
        }
      }
      size := Some(remaining);
    }
  }

  method Encrypt(c: Cipher, n: nat) returns (size: Option<nat>)
    requires c.blockSize > 0
    ensures size == WholeSize(c, n)
  {
    var maxSize := n + TagBytes(c);
    if IsBlockCipher(c) {
      var remainder := n % c.blockSize;
      if !c.padding && remainder != 0 {
        return None;
      }
      if remainder != 0 {
        maxSize := n + c.blockSize - remainder;
      } else if c.padding {
        maxSize := n + c.blockSize;
      }
    }
    size := Some(maxSize);
  }

  // A whole message fed in parts to a new operation.
  method EncryptInParts(c: Cipher, parts: seq<nat>) returns (size: Option<nat>)
    requires c.blockSize > 0
    ensures size == InParts(c, 0, parts)
  {
    var o := new Operation(c);
    var sum := 0;
    var i := 0;
    assert parts[0..] == parts;
    while i < |parts|
      invariant 0 <= i <= |parts| && o.cipher == c
      invariant InParts(c, 0, parts) ==
        var rest := InParts(c, o.buffered, parts[i..]);
        if rest == None then None else Some(sum + rest.value)
    {
      assert parts[i..][1..] == parts[i + 1..];
      var n := o.EncryptUpdate(parts[i]);
      sum := sum + n;
      i := i + 1;
    }
    size := o.EncryptFinal();
    if size.Some? {
      size := Some(sum + size.value);
    }
  }
}
