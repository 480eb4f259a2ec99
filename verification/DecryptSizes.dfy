// The lengths that symmetric decryption announces, in one call and in parts, and what it hands out.
module DecryptSizes {
  import opened Bytes
  import opened CipherSizes

  const WORD: nat := 0x1_0000_0000_0000_0000

  // Block sizes of the library's ciphers are those of DES and AES.
  predicate IsBlockSize(b: nat) { b == 8 || b == 16 }

  // In padding mode one byte is taken off, so that a last block is left for the end.
  function Adjust(c: Cipher): nat { if c.padding then 1 else 0 }

  // ---------- the formulas ----------

  // C_Decrypt for n bytes; None is CKR_ENCRYPTED_DATA_LEN_RANGE.
  function DecryptSize(c: Cipher, n: nat): Option<nat>
    requires c.blockSize > 0
  {
    if IsBlockCipher(c) && n % c.blockSize != 0 then None else Some(n)
  }

  // C_DecryptUpdate for n bytes with some buffered, in 64 bits; the number of blocks goes through an
  // int.
  function DecryptUpdateSize(c: Cipher, buffered: nat, n: nat): nat
    requires c.blockSize > 0
  {
    if IsBlockCipher(c) then ULong(Int32(ULong(n + buffered - Adjust(c)) / c.blockSize) * c.blockSize) else n + buffered
  }

  function DecryptFinalSize(c: Cipher, buffered: nat): Option<nat>
    requires c.blockSize > 0
  {
    if !IsBlockCipher(c) then Some(buffered)
    else if buffered % c.blockSize != 0 then None
    else Some(ULong(buffered - Adjust(c)))
  }

  // ---------- what the cipher hands out ----------

  // A block mode hands out whole blocks, in padding mode without the last one; a stream mode
  // everything, except that GCM keeps everything until the tag has been checked.
  function Handed(c: Cipher, buffered: nat, n: nat): (h: nat)
    requires c.blockSize > 0
    ensures h <= buffered + n
  {
    var all := buffered + n;
    if c.mode.GCM? then 0
    else if !IsBlockCipher(c) then all
    else if c.padding && all == 0 then 0
    else WholeBlocks(all - Adjust(c), c.blockSize)
  }

  function Kept(c: Cipher, buffered: nat, n: nat): nat
    requires c.blockSize > 0
  {
    buffered + n - Handed(c, buffered, n)
  }

  // At the end, everything but the padding, of which there is at least one byte and at most a block,
  // or the tag; None if what is left cannot hold it.
  function HandedLast(c: Cipher, buffered: nat, pad: nat): Option<nat> {
    var off := if c.mode.GCM? then c.mode.tag else if IsBlockCipher(c) && c.padding then pad else 0;
    if off <= buffered then Some(buffered - off) else None
  }

  // ---------- one part ----------

  // The blocks of a part can be counted by an int, and in padding mode there is something to take a
  // byte off.
  predicate DecryptCountable(c: Cipher, buffered: nat, n: nat)
    requires c.blockSize > 0
  {
    (c.padding ==> n + buffered > 0) && (n + buffered - Adjust(c)) / c.blockSize < 0x8000_0000
  }

  // An empty first part in padding mode is announced with a length close to 2^64.
  lemma Underflow(b: nat)
    requires IsBlockSize(b)
    ensures ULong(-1) == WORD - 1 && ULong(Int32((WORD - 1) / b) * b) == WORD - b
  {
    if b == 8 {
      assert (WORD - 1) / 8 == 0x1fff_ffff_ffff_ffff;
      assert Int32(0x1fff_ffff_ffff_ffff) == -1;
    } else {
      assert (WORD - 1) / 16 == 0x0fff_ffff_ffff_ffff;
      assert Int32(0x0fff_ffff_ffff_ffff) == -1;
    }
  }

  lemma Uncut(p: nat)
    requires p < WORD
    ensures ULong(p) == p
  {
  }

  lemma DecryptPart(c: Cipher, buffered: nat, n: nat)
    requires IsBlockCipher(c) && IsBlockSize(c.blockSize) && n + buffered < HALF
    ensures Announced(DecryptUpdateSize(c, buffered, n), Handed(c, buffered, n), DecryptCountable(c, buffered, n))
  {
    if c.padding && n + buffered == 0 {
      Underflow(c.blockSize);
    } else {
      var m := n + buffered - Adjust(c);
      Uncut(m);
      Split(m, c.blockSize);
      Cast(m / c.blockSize, c.blockSize);
      assert buffered + n - Adjust(c) == m;
    }
  }

  // The length announced for a part of a block mode is what is handed out for it if and only if an
  // int can count its blocks and it is not an empty first part in padding mode.
  lemma DecryptPartExactly(c: Cipher, buffered: nat, n: nat)
    requires IsBlockCipher(c) && IsBlockSize(c.blockSize) && n + buffered < HALF
    ensures DecryptUpdateSize(c, buffered, n) == Handed(c, buffered, n) <==> DecryptCountable(c, buffered, n)
  {
    DecryptPart(c, buffered, n);
    assert Handed(c, buffered, n) <= n + buffered;
  }

  // In a stream mode the announced lengths always bound what is handed out.
  lemma StreamBounds(c: Cipher, buffered: nat, n: nat, pad: nat)
    requires !IsBlockCipher(c) && c.blockSize > 0
    ensures Handed(c, buffered, n) <= DecryptUpdateSize(c, buffered, n)
    ensures var last := HandedLast(c, buffered, pad);
      last.Some? ==> last.value <= DecryptFinalSize(c, buffered).value
  {
  }

  // ---------- in parts ----------

  // The lengths announced for the parts, summed, and then for the end.
  function DecryptInParts(c: Cipher, buffered: nat, parts: seq<nat>): Option<nat>
    requires c.blockSize > 0
    decreases |parts|
  {
    if parts == [] then DecryptFinalSize(c, buffered)
    else
      match DecryptInParts(c, Kept(c, buffered, parts[0]), parts[1..])
      case None => None
      case Some(n) => Some(DecryptUpdateSize(c, buffered, parts[0]) + n)
  }

  // What is handed out for the parts, and what is kept for the end.
  function HandedInParts(c: Cipher, buffered: nat, parts: seq<nat>): nat
    requires c.blockSize > 0
    decreases |parts|
  {
    if parts == [] then 0
    else Handed(c, buffered, parts[0]) + HandedInParts(c, Kept(c, buffered, parts[0]), parts[1..])
  }

  function KeptInParts(c: Cipher, buffered: nat, parts: seq<nat>): nat
    requires c.blockSize > 0
    decreases |parts|
  {
    if parts == [] then buffered else KeptInParts(c, Kept(c, buffered, parts[0]), parts[1..])
  }

  predicate AllDecryptCountable(c: Cipher, buffered: nat, parts: seq<nat>)
    requires c.blockSize > 0
    decreases |parts|
  {
    parts != [] ==>
      DecryptCountable(c, buffered, parts[0]) && AllDecryptCountable(c, Kept(c, buffered, parts[0]), parts[1..])
  }

  // Nothing is lost: what is handed out and what is kept add up to what has come in.
  lemma {:induction false} Conserved(c: Cipher, buffered: nat, parts: seq<nat>)
    requires c.blockSize > 0
    ensures HandedInParts(c, buffered, parts) + KeptInParts(c, buffered, parts) == buffered + Total(parts)
    decreases |parts|
  {
    if parts != [] {
      Conserved(c, Kept(c, buffered, parts[0]), parts[1..]);
    }
  }

  // What a block mode keeps: the residue, in padding mode a whole block instead of nothing.
  function Left(c: Cipher, all: nat): nat
    requires c.blockSize > 0
  {
    if c.padding && all == 0 then 0 else Adjust(c) + Rest(all - Adjust(c), c.blockSize)
  }

  lemma KeptOnce(c: Cipher, buffered: nat, n: nat)
    requires IsBlockCipher(c) && c.blockSize > 0
    ensures Kept(c, buffered, n) == Left(c, buffered + n)
  {
    var all := buffered + n;
    if !(c.padding && all == 0) {
      Split(all - Adjust(c), c.blockSize);
    }
  }

  lemma LeftMore(c: Cipher, all: nat, m: nat)
    requires IsBlockCipher(c) && c.blockSize > 0
    ensures Left(c, Left(c, all) + m) == Left(c, all + m)
  {
    if !(c.padding && all == 0) {
      var b, r := c.blockSize, Rest(all - Adjust(c), c.blockSize);
      BlocksAddUp(all - Adjust(c), m, b);
      assert Left(c, all) + m - Adjust(c) == r + m && all - Adjust(c) + m == all + m - Adjust(c);
    }
  }

  lemma {:induction false} KeptBlocks(c: Cipher, buffered: nat, parts: seq<nat>)
    requires IsBlockCipher(c) && c.blockSize > 0 && buffered == Left(c, buffered)
    ensures KeptInParts(c, buffered, parts) == Left(c, buffered + Total(parts))
    decreases |parts|
  {
    if parts != [] {
      var kept := Kept(c, buffered, parts[0]);
      KeptOnce(c, buffered, parts[0]);
      LeftMore(c, buffered + parts[0], 0);
      KeptBlocks(c, kept, parts[1..]);
      LeftMore(c, buffered + parts[0], Total(parts[1..]));
      assert buffered + parts[0] + Total(parts[1..]) == buffered + Total(parts);
    }
  }

  // The sum of the announced lengths of the parts against what is handed out for them.
  predicate PartsAnnouncedRightly(c: Cipher, buffered: nat, parts: seq<nat>)
    requires c.blockSize > 0
  {
    AllAnnounced(DecryptInParts(c, buffered, parts), DecryptFinalSize(c, KeptInParts(c, buffered, parts)),
                 HandedInParts(c, buffered, parts), AllDecryptCountable(c, buffered, parts))
  }

  lemma {:induction false} DecryptParts(c: Cipher, buffered: nat, parts: seq<nat>)
    requires IsBlockCipher(c) && IsBlockSize(c.blockSize) && buffered + Total(parts) < HALF
    ensures PartsAnnouncedRightly(c, buffered, parts) == true
    decreases |parts|
  {
    if parts != [] {
      var n := parts[0];
      var kept := Kept(c, buffered, n);
      DecryptPart(c, buffered, n);
      DecryptParts(c, kept, parts[1..]);
      OneMore(DecryptUpdateSize(c, buffered, n), Handed(c, buffered, n), DecryptCountable(c, buffered, n),
              DecryptInParts(c, kept, parts[1..]), DecryptFinalSize(c, KeptInParts(c, kept, parts[1..])),
              HandedInParts(c, kept, parts[1..]), AllDecryptCountable(c, kept, parts[1..]));
    }
  }

  // Whether the end is refused, and what it announces.
  lemma DecryptEnd(c: Cipher, all: nat)
    requires IsBlockCipher(c) && IsBlockSize(c.blockSize) && all < HALF && all > 0
    ensures DecryptFinalSize(c, Left(c, all))
         == if DecryptSize(c, all) == None then None else Some(Left(c, all) - Adjust(c))
    ensures Adjust(c) <= Left(c, all)
  {
    var b := c.blockSize;
    if c.padding {
      assert Left(c, all) == 1 + (all - 1) % b;
      assert (1 + (all - 1) % b) % b == all % b by { Successor(all - 1, b); }
    } else {
      assert Left(c, all) == all % b;
    }
  }

  lemma Successor(n: nat, b: nat)
    requires b > 1
    ensures (1 + n % b) % b == (n + 1) % b
  {
    Split(n, b);
    AddMultiple(n / b, n % b + 1, b);
  }

  // What the parts should announce in all: the length C_Decrypt announces, and in padding mode one
  // byte less.
  function Expected(c: Cipher, n: nat): Option<nat>
    requires c.blockSize > 0
  {
    match DecryptSize(c, n)
    case None => None
    case Some(m) => Some(if m == 0 then 0 else m - Adjust(c))
  }

  // r announced in all for n bytes, of which `handed` have been handed out before the end.
  predicate Summed(c: Cipher, n: nat, r: Option<nat>, handed: nat, kept: nat, countable: bool)
    requires c.blockSize > 0
  {
    AllAnnounced(r, DecryptFinalSize(c, kept), handed, countable) && handed + kept == n && kept == Left(c, n)
  }

  lemma NothingLeft(c: Cipher)
    requires c.blockSize > 0
    ensures Left(c, 0) == 0
  {
    DivisionUnique(0, c.blockSize, 0, 0);
  }

  lemma Summing(c: Cipher, n: nat, r: Option<nat>, handed: nat, kept: nat, countable: bool)
    requires c.blockSize > 0
    requires AllAnnounced(r, DecryptFinalSize(c, kept), handed, countable) && handed + kept == n && kept == Left(c, n)
    ensures Summed(c, n, r, handed, kept, countable) == true
  {
  }

  lemma SumUp(c: Cipher, parts: seq<nat>)
    requires IsBlockCipher(c) && IsBlockSize(c.blockSize) && Total(parts) < HALF
    ensures Summed(c, Total(parts), DecryptInParts(c, 0, parts), HandedInParts(c, 0, parts), KeptInParts(c, 0, parts),
                   AllDecryptCountable(c, 0, parts)) == true
  {
    var kept := KeptInParts(c, 0, parts);
    NothingLeft(c);
    assert kept == Left(c, Total(parts)) by { KeptBlocks(c, 0, parts); }
    assert HandedInParts(c, 0, parts) + kept == Total(parts) by { Conserved(c, 0, parts); }
    assert PartsAnnouncedRightly(c, 0, parts) by { DecryptParts(c, 0, parts); }
    Summing(c, Total(parts), DecryptInParts(c, 0, parts), HandedInParts(c, 0, parts), kept,
            AllDecryptCountable(c, 0, parts));
  }

  lemma SomeBytes(c: Cipher, n: nat, r: Option<nat>, handed: nat, kept: nat, countable: bool)
    requires IsBlockCipher(c) && IsBlockSize(c.blockSize) && 0 < n < HALF && Summed(c, n, r, handed, kept, countable)
    ensures r == Expected(c, n) <==> DecryptSize(c, n) == None || countable
  {
    DecryptEnd(c, n);
  }

  // An empty message is announced rightly unless padding is to be taken off.
  lemma NoBytes(c: Cipher, r: Option<nat>, handed: nat, kept: nat, countable: bool)
    requires IsBlockCipher(c) && IsBlockSize(c.blockSize) && Summed(c, 0, r, handed, kept, countable)
    ensures r == Some(0) <==> countable && !c.padding
  {
    Underflow(c.blockSize);
    NothingLeft(c);
  }

  // However a message is cut up, its parts and the end announce that in all, and are refused in
  // exactly the same cases, if and only if an int can count the blocks of every part and, in padding
  // mode, the message is not empty and does not begin with an empty part; or the message is refused.
  lemma DecryptChunking(c: Cipher, parts: seq<nat>)
    requires IsBlockCipher(c) && IsBlockSize(c.blockSize) && Total(parts) < HALF
    ensures DecryptInParts(c, 0, parts) == Expected(c, Total(parts)) <==>
      DecryptSize(c, Total(parts)) == None
      || (AllDecryptCountable(c, 0, parts) && (c.padding ==> Total(parts) > 0))
  {
    var r, handed, kept := DecryptInParts(c, 0, parts), HandedInParts(c, 0, parts), KeptInParts(c, 0, parts);
    SumUp(c, parts);
    if Total(parts) > 0 {
      SomeBytes(c, Total(parts), r, handed, kept, AllDecryptCountable(c, 0, parts));
    } else {
      NoBytes(c, r, handed, kept, AllDecryptCountable(c, 0, parts));
    }
  }

  // In padding mode an empty first part is announced with 2^64 - 8 or 2^64 - 16 bytes, though nothing
  // is handed out for it.
  lemma EmptyPart(c: Cipher)
    requires IsBlockCipher(c) && IsBlockSize(c.blockSize) && c.padding
    ensures DecryptUpdateSize(c, 0, 0) == WORD - c.blockSize && Handed(c, 0, 0) == 0
    ensures !DecryptCountable(c, 0, 0)
  {
    Underflow(c.blockSize);
  }

  // So no message that begins with one is announced rightly.
  lemma EmptyFirst(c: Cipher, rest: seq<nat>)
    requires IsBlockCipher(c) && IsBlockSize(c.blockSize) && c.padding
    requires Total(rest) < HALF && DecryptSize(c, Total(rest)).Some?
    ensures DecryptInParts(c, 0, [0] + rest) != Expected(c, Total(rest))
  {
    var parts := [0] + rest;
    assert parts[1..] == rest && Total(parts) == Total(rest);
    EmptyPart(c);
    DecryptChunking(c, parts);
  }

  // Under that condition the announced lengths bound what is handed out in all, whatever the length
  // of the padding.
  lemma DecryptBounds(c: Cipher, parts: seq<nat>, pad: nat)
    requires IsBlockCipher(c) && IsBlockSize(c.blockSize) && 0 < Total(parts) < HALF && 0 < pad <= c.blockSize
    requires AllDecryptCountable(c, 0, parts) && Total(parts) % c.blockSize == 0
    ensures var last := HandedLast(c, KeptInParts(c, 0, parts), pad);
      var announced := DecryptInParts(c, 0, parts);
      last.Some? && announced.Some?
      && HandedInParts(c, 0, parts) + last.value == Total(parts) - (if c.padding then pad else 0)
      && HandedInParts(c, 0, parts) + last.value <= announced.value
  {
    DecryptChunking(c, parts);
    NothingLeft(c);
    KeptBlocks(c, 0, parts);
    Conserved(c, 0, parts);
    WholeLast(c, Total(parts));
  }

  lemma WholeLast(c: Cipher, all: nat)
    requires IsBlockCipher(c) && c.blockSize > 1 && all > 0 && all % c.blockSize == 0
    ensures Left(c, all) == if c.padding then c.blockSize else 0
  {
    if c.padding {
      Successor(all - 1, c.blockSize);
    }
  }

  // ---------- the calls ----------

  method Decrypt(c: Cipher, n: nat) returns (size: Option<nat>)
    requires c.blockSize > 0
    ensures size == DecryptSize(c, n)
  {
    if IsBlockCipher(c) && n % c.blockSize != 0 {
      return None;
    }
    size := Some(n);
  }

  // A multi-part operation, with what its cipher has buffered.
  class Decryption {
    const cipher: Cipher
    var buffered: nat

    constructor (cipher: Cipher)
      ensures this.cipher == cipher && buffered == 0
    {
      this.cipher := cipher;
      buffered := 0;
    }

    method DecryptUpdate(n: nat) returns (maxSize: nat, handed: nat)
      requires cipher.blockSize > 0
      modifies this
      ensures maxSize == DecryptUpdateSize(cipher, old(buffered), n) && handed == Handed(cipher, old(buffered), n)
      ensures buffered == Kept(cipher, old(buffered), n)
    {
      maxSize := n + buffered;
      if IsBlockCipher(cipher) {
        var paddingAdjustByte := if cipher.padding then 1 else 0;
        var nrOfBlocks := Int32(ULong(n + buffered - paddingAdjustByte) / cipher.blockSize);
        maxSize := ULong(nrOfBlocks * cipher.blockSize);
      }
      handed := Handed(cipher, buffered, n);
      buffered := buffered + n - handed;
    }

    method DecryptFinal() returns (size: Option<nat>)
      requires cipher.blockSize > 0
      ensures size == DecryptFinalSize(cipher, buffered)
    {
      if IsBlockCipher(cipher) {
        if buffered % cipher.blockSize != 0 {
          return None;
        }
        var paddingAdjustByte := if cipher.padding then 1 else 0;
        return Some(ULong(buffered - paddingAdjustByte));
      }
      size := Some(buffered);
    }
  }

  // A whole message fed in parts to a new operation.
  method DecryptMessage(c: Cipher, parts: seq<nat>) returns (size: Option<nat>, handed: nat)
    requires c.blockSize > 0
    ensures size == DecryptInParts(c, 0, parts) && handed == HandedInParts(c, 0, parts)
  {
    var o := new Decryption(c);
    var sum := 0;
    handed := 0;
    var i := 0;
    assert parts[0..] == parts;
    while i < |parts|
      invariant 0 <= i <= |parts| && o.cipher == c
      invariant HandedInParts(c, 0, parts) == handed + HandedInParts(c, o.buffered, parts[i..])
      invariant DecryptInParts(c, 0, parts) ==
        var rest := DecryptInParts(c, o.buffered, parts[i..]);
        if rest == None then None else Some(sum + rest.value)
    {
      assert parts[i..][1..] == parts[i + 1..];
      var n, h := o.DecryptUpdate(parts[i]);
      sum := sum + n;
      handed := handed + h;
      i := i + 1;
    }
    size := o.DecryptFinal();
    if size.Some? {
      size := Some(sum + size.value);
    }
  }
}
