// Cipher feedback mode over an abstract 16-byte block function (section 6.3 of NIST SP 800-38A),
// and the routine that computes it in either direction, also in place.
module Cfb {
  import opened Bytes

  type block = b: bytes | |b| == 16 witness seq(16, _ => 0)
  type Cipher = block -> block

  function XorSeq(a: bytes, b: bytes): (r: bytes)
    requires |a| <= |b|
    ensures |r| == |a|
  {
    seq(|a|, i requires 0 <= i < |a| => Xor(a[i], b[i]))
  }

  lemma XorSeqCancels(a: bytes, b: bytes)
    requires |a| <= |b|
    ensures XorSeq(XorSeq(a, b), b) == a
  {
    forall i | 0 <= i < |a| ensures Xor(Xor(a[i], b[i]), b[i]) == a[i] {
      XorCancels(a[i], b[i]);
    }
  }

  function Head(d: bytes): (h: bytes)
    ensures |h| == Min(16, |d|)
  {
    d[..Min(16, |d|)]
  }

  function Tail(d: bytes): bytes {
    d[Min(16, |d|)..]
  }

  // A cipher block as the next feedback value: a short one is filled up with zeros.
  function Feedback(c: bytes): block
    requires |c| <= 16
  {
    c + Zeros(16 - |c|)
  }

  function Encrypt(e: Cipher, iv: block, d: bytes): (c: bytes)
    ensures |c| == |d|
    decreases |d|
  {
    if d == [] then []
    else
      var c := XorSeq(Head(d), e(iv));
      c + Encrypt(e, Feedback(c), Tail(d))
  }

  function Decrypt(e: Cipher, iv: block, c: bytes): (d: bytes)
    ensures |d| == |c|
    decreases |c|
  {
    if c == [] then []
    else XorSeq(Head(c), e(iv)) + Decrypt(e, Feedback(Head(c)), Tail(c))
  }

  // The feedback value left behind after d has been encrypted.
  function NextIv(e: Cipher, iv: block, d: bytes): block
    decreases |d|
  {
    if d == [] then iv else NextIv(e, Feedback(XorSeq(Head(d), e(iv))), Tail(d))
  }

  // The feedback value left behind after c has been decrypted.
  function NextIvDecrypt(iv: block, c: bytes): block
    decreases |c|
  {
    if c == [] then iv else NextIvDecrypt(Feedback(Head(c)), Tail(c))
  }

  lemma HeadTail(h: bytes, t: bytes)
    requires 0 < |h| <= 16 && (|h| == 16 || t == [])
    ensures Head(h + t) == h && Tail(h + t) == t
  {
  }

  // Decryption undoes encryption, for every length and every block function, and both directions
  // leave the same feedback value.
  lemma {:induction false} DecryptEncrypt(e: Cipher, iv: block, d: bytes)
    ensures Decrypt(e, iv, Encrypt(e, iv, d)) == d
    ensures NextIvDecrypt(iv, Encrypt(e, iv, d)) == NextIv(e, iv, d)
    decreases |d|
  {
    if d == [] {
    } else {
      var c := XorSeq(Head(d), e(iv));
      HeadTail(c, Encrypt(e, Feedback(c), Tail(d)));
      XorSeqCancels(Head(d), e(iv));
      DecryptEncrypt(e, Feedback(c), Tail(d));
    }
  }

  lemma {:induction false} EncryptDecrypt(e: Cipher, iv: block, c: bytes)
    ensures Encrypt(e, iv, Decrypt(e, iv, c)) == c
    decreases |c|
  {
    if c == [] {
    } else {
      var d := XorSeq(Head(c), e(iv));
      HeadTail(d, Decrypt(e, Feedback(Head(c)), Tail(c)));
      XorSeqCancels(Head(c), e(iv));
      EncryptDecrypt(e, Feedback(Head(c)), Tail(c));
    }
  }

  // Chaining: whole blocks a followed by b can be encrypted in two calls, the second starting from
  // the feedback value of the first.
  lemma {:induction false} EncryptAppend(e: Cipher, iv: block, a: bytes, b: bytes)
    requires |a| % 16 == 0
    ensures Encrypt(e, iv, a + b) == Encrypt(e, iv, a) + Encrypt(e, NextIv(e, iv, a), b)
    decreases |a|
  {
    if a == [] {
      assert a + b == b;
    } else {
      var c := XorSeq(Head(a), e(iv));
      assert Head(a + b) == Head(a) && Tail(a + b) == Tail(a) + b;
      EncryptAppend(e, Feedback(c), Tail(a), b);
    }
  }

  // ---------- the initialization vector ----------

  // What memccpy(to, from, 0, |from|) leaves in `to`: it stops after copying the first zero byte.
  function CopyThroughZero(to: bytes, from: bytes): (r: bytes)
    requires |from| <= |to|
    ensures |r| == |to|
  {
    if from == [] then to
    else if from[0] == 0 then [from[0]] + to[1..]
    else [from[0]] + CopyThroughZero(to[1..], from[1..])
  }

  // Behind every zero byte of `from`, `to` holds what `from` does.
  predicate Standing(to: bytes, from: bytes)
    requires |from| <= |to|
  {
    forall i, j :: 0 <= i < j < |from| && from[i] == 0 ==> to[j] == from[j]
  }

  // What is copied arrives whole exactly when what stands behind a zero byte is there already.
  lemma {:induction false} ArrivesExactly(to: bytes, from: bytes)
    requires |from| <= |to|
    ensures CopyThroughZero(to, from)[..|from|] == from <==> Standing(to, from)
    decreases |from|
  {
    if from != [] && from[0] == 0 {
      assert CopyThroughZero(to, from)[..|from|] == [from[0]] + to[1..|from|];
      assert to[1..|from|] == from[1..] <==> forall j :: 0 < j < |from| ==> to[j] == from[j] by {
        if forall j :: 0 < j < |from| ==> to[j] == from[j] {
          assert to[1..|from|] == from[1..];
        } else {
          var j :| 0 < j < |from| && to[j] != from[j];
          assert to[1..|from|][j - 1] != from[1..][j - 1];
        }
      }
    } else if from != [] {
      ArrivesExactly(to[1..], from[1..]);
      assert CopyThroughZero(to, from)[..|from|] == [from[0]] + CopyThroughZero(to[1..], from[1..])[..|from| - 1];
      StandingRest(to, from);
    }
  }

  lemma StandingRest(to: bytes, from: bytes)
    requires 0 < |from| <= |to| && from[0] != 0
    ensures Standing(to[1..], from[1..]) <==> Standing(to, from)
  {
    if Standing(to, from) {
      forall i, j | 0 <= i < j < |from[1..]| && from[1..][i] == 0 ensures to[1..][j] == from[1..][j] {
        assert from[i + 1] == 0 && to[j + 1] == from[j + 1];
      }
    }
    if Standing(to[1..], from[1..]) {
      forall i, j | 0 <= i < j < |from| && from[i] == 0 ensures to[j] == from[j] {
        assert from[1..][i - 1] == 0 && to[1..][j - 1] == from[1..][j - 1];
      }
    }
  }

  predicate ZerosFrom(s: bytes, i: nat) {
    forall j :: i <= j < |s| ==> s[j] == 0
  }

  // Copied over zeros, an initialization vector arrives whole exactly when it holds nothing but
  // zeros after its first zero byte.
  lemma WholeIv(iv: bytes)
    ensures CopyThroughZero(Zeros(|iv|), iv) == iv
      <==> forall i :: 0 <= i < |iv| && iv[i] == 0 ==> ZerosFrom(iv, i)
  {
    ArrivesExactly(Zeros(|iv|), iv);
    if Standing(Zeros(|iv|), iv) {
      forall i | 0 <= i < |iv| && iv[i] == 0 ensures ZerosFrom(iv, i) {
      }
    }
  }

  // Up to the first zero byte, at n, or in full.
  lemma {:induction false} CopiedUpTo(to: bytes, from: bytes, n: nat)
    requires n <= |from| <= |to| && forall i :: 0 <= i < n ==> from[i] != 0
    ensures n < |from| && from[n] == 0 ==> CopyThroughZero(to, from) == from[..n + 1] + to[n + 1..]
    ensures n == |from| ==> CopyThroughZero(to, from) == from + to[n..]
  {
    if n > 0 {
      CopiedUpTo(to[1..], from[1..], n - 1);
    }
  }

  lemma OneCopied(was: bytes, from: bytes, to: bytes, i: nat)
    requires i < |from| <= |was| && to == from[..i] + was[i..]
    ensures to[i := from[i]] == from[..i + 1] + was[i + 1..]
  {
  }

  method CopyUntilZero(to: array<byte>, from: bytes)
    requires |from| <= to.Length
    modifies to
    ensures to[..] == CopyThroughZero(old(to[..]), from)
  {
    ghost var was := to[..];
    var i := 0;
    while i < |from|
      invariant 0 <= i <= |from|
      invariant to[..] == from[..i] + was[i..]
      invariant forall j :: 0 <= j < i ==> from[j] != 0
    {
      ghost var now := to[..];
      to[i] := from[i];
      OneCopied(was, from, now, i);
      assert to[..] == now[i := from[i]];
      if from[i] == 0 {
        CopiedUpTo(was, from, i);
        return;
      }
      i := i + 1;
    }
    CopiedUpTo(was, from, i);
    assert from[..i] == from;
  }

  // ---------- the routine ----------

  // The mixed block and the next feedback value, byte by byte, are what the mode prescribes.
  lemma BlockDone(out0: bytes, out: bytes, iv: bytes, was: bytes, mask: block, pos: nat, enc: bool)
    requires |was| <= 16 <= |iv| && pos + |was| <= |out0| == |out|
    requires forall i :: 0 <= i < pos || pos + |was| <= i < |out| ==> out[i] == out0[i]
    requires forall i :: 0 <= i < |was| ==> out[pos + i] == Xor(was[i], mask[i])
    requires forall i :: 0 <= i < |was| ==> iv[i] == if enc then Xor(was[i], mask[i]) else was[i]
    requires forall i :: |was| <= i < 16 ==> iv[i] == 0
    ensures out == out0[..pos] + XorSeq(was, mask) + out0[pos + |was|..]
    ensures iv[..16] == Feedback(if enc then XorSeq(was, mask) else was)
  {
  }

  // The first j bytes of the block are done, from a position in data whose rest is still as it was.
  ghost predicate Mixed(out0: bytes, out: bytes, iv: bytes, data: bytes, was: bytes, mask: block, pos: nat, j: nat, enc: bool)
  {
    |was| <= 16 <= |iv| && j <= 16 && |out| == |out0| && pos + |was| <= |out| && pos + |was| <= |data|
    && (forall i :: 0 <= i < pos || pos + Min(j, |was|) <= i < |out| ==> out[i] == out0[i])
    && (forall i :: 0 <= i < Min(j, |was|) ==> out[pos + i] == Xor(was[i], mask[i]))
    && (forall i :: Min(j, |was|) <= i < |was| ==> data[pos + i] == was[i])
    && (forall i :: 0 <= i < Min(j, |was|) ==> iv[i] == if enc then Xor(was[i], mask[i]) else was[i])
    && (forall i :: |was| <= i < j ==> iv[i] == 0)
  }

  lemma NothingMixed(out0: bytes, out: bytes, iv: bytes, data: bytes, was: bytes, mask: block, pos: nat, j: nat, enc: bool,
                     iv1: bytes)
    requires Mixed(out0, out, iv, data, was, mask, pos, j, enc) && |was| <= j < 16 && iv1 == iv[j := 0]
    ensures Mixed(out0, out, iv1, data, was, mask, pos, j + 1, enc)
  {
  }

  lemma ByteMixed(out0: bytes, out: bytes, iv: bytes, data: bytes, was: bytes, mask: block, pos: nat, j: nat, enc: bool,
                  out1: bytes, iv1: bytes, data1: bytes)
    requires Mixed(out0, out, iv, data, was, mask, pos, j, enc) && j < |was|
    requires out1 == out[pos + j := Xor(was[j], mask[j])]
    requires iv1 == iv[j := if enc then Xor(was[j], mask[j]) else was[j]]
    requires |data1| == |data| && forall i :: pos + j < i < |data| ==> data1[i] == data[i]
    ensures Mixed(out0, out1, iv1, data1, was, mask, pos, j + 1, enc)
  {
  }

  // One pass of the inner loop: the block at pos, in either direction; `data` and `out` may be the
  // same array.
  method CipherBlock(data: array<byte>, out: array<byte>, size: nat, pos: nat, mask: block, iv: array<byte>, enc: bool)
    requires pos < size <= data.Length && size <= out.Length && 16 <= iv.Length
    requires iv != data && iv != out
    modifies out, iv
    ensures var k := Min(16, size - pos);
      var was := old(data[pos..pos + k]);
      out[..] == old(out[..pos]) + XorSeq(was, mask) + old(out[pos + k..])
      && iv[..16] == Feedback(if enc then XorSeq(was, mask) else was)
  {
    ghost var k := Min(16, size - pos);
    ghost var was := data[pos..pos + k];
    ghost var out0 := out[..];
    for j := 0 to 16
      invariant Mixed(out0, out[..], iv[..], data[..], was, mask, pos, j, enc)
    {
      ghost var out1, iv1, data1 := out[..], iv[..], data[..];
      if j + pos >= size {
        iv[j] := 0;
        NothingMixed(out0, out1, iv1, data1, was, mask, pos, j, enc, iv[..]);
      } else {
        var v := data[pos + j];
        if enc {
          out[pos + j] := Xor(v, mask[j]);
          iv[j] := out[pos + j];
        } else {
          iv[j] := v;
          out[pos + j] := Xor(v, mask[j]);
        }
        ByteMixed(out0, out1, iv1, data1, was, mask, pos, j, enc, out[..], iv[..], data[..]);
      }
    }
    BlockDone(out0, out[..], iv[..], was, mask, pos, enc);
  }

  // The block function of an AES-128 key: the first sixteen bytes of the key buffer count.
  function Keyed(aes: (block, block) -> block, key: bytes): Cipher
    requires |key| >= 16
  {
    b => aes(key[..16], b)
  }

  function Transform(enc: bool, e: Cipher, iv: block, d: bytes): (c: bytes)
    ensures |c| == |d|
  {
    if enc then Encrypt(e, iv, d) else Decrypt(e, iv, d)
  }

  function TransformIv(enc: bool, e: Cipher, iv: block, d: bytes): block {
    if enc then NextIv(e, iv, d) else NextIvDecrypt(iv, d)
  }

  // The ciphertext of d in either direction.
  function Ciphertext(enc: bool, e: Cipher, iv: block, d: bytes): (c: bytes)
    ensures |c| == |d|
  {
    if enc then Encrypt(e, iv, d) else d
  }

  // The feedback value for byte i: the block of ciphertext before its own, or iv for the first block.
  function Fed16(iv: block, c: bytes, i: nat): block
    requires i < |c|
  {
    var k := i - i % 16;
    if i < 16 then iv else c[k - 16..k]
  }

  lemma CiphertextTail(enc: bool, e: Cipher, iv: block, d: bytes)
    requires d != []
    ensures var next := Feedback(if enc then XorSeq(Head(d), e(iv)) else Head(d));
      Ciphertext(enc, e, next, Tail(d)) == Ciphertext(enc, e, iv, d)[|Head(d)|..]
      && Ciphertext(enc, e, iv, d)[..|Head(d)|] == next[..|Head(d)|]
  {
  }

  // Byte i is changed by that of the enciphered feedback value that has its place in the block.
  predicate ByteRight(enc: bool, e: Cipher, iv: block, d: bytes, i: nat)
    requires i < |d|
  {
    IsXor(Transform(enc, e, iv, d)[i], d[i], e(Fed16(iv, Ciphertext(enc, e, iv, d), i))[i % 16])
  }

  lemma FirstRight(enc: bool, e: Cipher, iv: block, d: bytes, i: nat)
    requires i < |d| && i < 16
    ensures ByteRight(enc, e, iv, d, i) == true
  {
    TransformStep(enc, e, iv, d);
    XorMeaning(Xor(d[i], e(iv)[i]), d[i], e(iv)[i]);
  }

  lemma NextRight(enc: bool, e: Cipher, iv: block, d: bytes, i: nat)
    requires 16 <= i < |d|
    requires ByteRight(enc, e, Feedback(if enc then XorSeq(Head(d), e(iv)) else Head(d)), Tail(d), i - 16)
    ensures ByteRight(enc, e, iv, d, i) == true
  {
    var next := Feedback(if enc then XorSeq(Head(d), e(iv)) else Head(d));
    TransformStep(enc, e, iv, d);
    CiphertextTail(enc, e, iv, d);
    FedNext(iv, next, Ciphertext(enc, e, iv, d), i);
    assert (i - 16) % 16 == i % 16;
    assert Transform(enc, e, iv, d)[i] == Transform(enc, e, next, Tail(d))[i - 16] && d[i] == Tail(d)[i - 16];
  }

  // The mode byte by byte.
  lemma {:induction false} ByteMeaning(enc: bool, e: Cipher, iv: block, d: bytes, i: nat)
    requires i < |d|
    ensures ByteRight(enc, e, iv, d, i) == true
    decreases |d|
  {
    if i < 16 {
      FirstRight(enc, e, iv, d, i);
    } else {
      ByteMeaning(enc, e, Feedback(if enc then XorSeq(Head(d), e(iv)) else Head(d)), Tail(d), i - 16);
      NextRight(enc, e, iv, d, i);
    }
  }

  lemma FedNext(iv: block, next: block, c: bytes, i: nat)
    requires 16 <= i < |c| && next == c[..16]
    ensures Fed16(next, c[16..], i - 16) == Fed16(iv, c, i)
  {
    var k := i - i % 16;
    if i >= 32 {
      assert c[16..][k - 32..k - 16] == c[k - 16..k];
    }
  }

  // The last block of c, whole or not.
  function LastBlock(c: bytes): (l: bytes)
    ensures |l| <= 16 && |l| <= |c| && l == c[|c| - |l|..] && (c != [] ==> l != []) && (|c| - |l|) % 16 == 0
  {
    if |c| <= 16 then c else LastBlock(c[16..])
  }

  // The feedback value left behind is that of the ciphertext, filled up with zeros.
  lemma {:induction false} FeedbackMeaning(enc: bool, e: Cipher, iv: block, d: bytes)
    requires d != []
    ensures var last, next := LastBlock(Ciphertext(enc, e, iv, d)), TransformIv(enc, e, iv, d);
      next[..|last|] == last && forall j :: |last| <= j < 16 ==> next[j] == 0
    decreases |d|
  {
    TransformStep(enc, e, iv, d);
    CiphertextTail(enc, e, iv, d);
    if |d| > 16 {
      FeedbackMeaning(enc, e, Feedback(if enc then XorSeq(Head(d), e(iv)) else Head(d)), Tail(d));
    } else {
      assert Tail(d) == [];
    }
  }

  // What is left to do at a block boundary is the transformation of the rest from the current
  // feedback value.
  lemma TransformStep(enc: bool, e: Cipher, iv: block, d: bytes)
    requires d != []
    ensures var x := XorSeq(Head(d), e(iv));
      var next := Feedback(if enc then x else Head(d));
      Transform(enc, e, iv, d) == x + Transform(enc, e, next, Tail(d))
      && TransformIv(enc, e, iv, d) == TransformIv(enc, e, next, Tail(d))
  {
  }

  // At a block boundary, `done` bytes of the result are in `out`, and the rest of the input d is
  // still to be read, even when `data` and `out` are the same array.
  ghost predicate Halfway(d: bytes, tail: bytes, done: bytes, data: bytes, out: bytes) {
    |done| <= |d| <= |data| && |out| == |d| + |tail|
    && out[..|done|] == done && out[|d|..] == tail && data[|done|..|d|] == d[|done|..]
  }

  lemma HalfwayStep(d: bytes, tail: bytes, done: bytes, x: bytes, data: bytes, out: bytes, data': bytes, out': bytes)
    requires Halfway(d, tail, done, data, out) && |done| + |x| <= |d|
    requires out' == out[..|done|] + x + out[|done| + |x|..]
    requires data' == data || (data == out && data' == out')
    ensures Halfway(d, tail, done + x, data', out')
  {
    var n := |done + x|;
    assert out'[..n] == done + x;
    assert out'[n..] == out[n..];
    assert data'[n..|d|] == data[n..|d|] == data[|done|..|d|][|x|..];
    assert d[|done|..][|x|..] == d[n..];
    assert out'[|d|..] == out'[n..][|d| - n..] == out[n..][|d| - n..] == tail;
  }

  // The feedback value is the one the rest of d needs.
  ghost predicate Fed(enc: bool, e: Cipher, iv0: block, d: bytes, done: bytes, iv: block) {
    |done| <= |d|
    && Transform(enc, e, iv0, d) == done + Transform(enc, e, iv, d[|done|..])
    && TransformIv(enc, e, iv0, d) == TransformIv(enc, e, iv, d[|done|..])
  }

  lemma FedStep(enc: bool, e: Cipher, iv0: block, d: bytes, done: bytes, iv: block)
    requires Fed(enc, e, iv0, d, done, iv) && |done| < |d|
    ensures var was := Head(d[|done|..]);
      var x := XorSeq(was, e(iv));
      Fed(enc, e, iv0, d, done + x, Feedback(if enc then x else was))
  {
    var rest := d[|done|..];
    var x := XorSeq(Head(rest), e(iv));
    var next := Feedback(if enc then x else Head(rest));
    TransformStep(enc, e, iv, rest);
    assert Tail(rest) == d[|done + x|..];
    assert done + (x + Transform(enc, e, next, Tail(rest))) == done + x + Transform(enc, e, next, Tail(rest));
  }

  // What one block does to both: data, out and the feedback value before, and after.
  lemma BlockStep(enc: bool, e: Cipher, iv0: block, d: bytes, tail: bytes, done: bytes,
                  data: bytes, out: bytes, iv: block, data': bytes, out': bytes, iv': bytes)
    requires Halfway(d, tail, done, data, out) && Fed(enc, e, iv0, d, done, iv) && |done| < |d|
    requires var k := Min(16, |d| - |done|);
      var was := data[|done|..|done| + k];
      out' == out[..|done|] + XorSeq(was, e(iv)) + out[|done| + k..]
      && iv' == Feedback(if enc then XorSeq(was, e(iv)) else was)
    requires data' == data || (data == out && data' == out')
    ensures var x := XorSeq(Head(d[|done|..]), e(iv));
      |x| == Min(16, |d| - |done|) && Halfway(d, tail, done + x, data', out') && Fed(enc, e, iv0, d, done + x, iv')
  {
    var k := Min(16, |d| - |done|);
    var was := Head(d[|done|..]);
    assert was == data[|done|..|done| + k] by {
      assert was == d[|done|..][..k] == data[|done|..|d|][..k];
    }
    FedStep(enc, e, iv0, d, done, iv);
    HalfwayStep(d, tail, done, XorSeq(was, e(iv)), data, out, data', out');
  }

  lemma Finished(enc: bool, e: Cipher, iv0: block, d: bytes, tail: bytes, done: bytes, data: bytes, out: bytes, iv: block)
    requires Halfway(d, tail, done, data, out) && Fed(enc, e, iv0, d, done, iv) && |done| == |d|
    ensures out == Transform(enc, e, iv0, d) + tail && iv == TransformIv(enc, e, iv0, d)
  {
    assert d[|done|..] == [];
    assert out == out[..|d|] + out[|d|..];
  }

  // The loop over blocks, from whatever feedback value iv holds.
  method CipherBlocks(e: Cipher, data: array<byte>, size: nat, out: array<byte>, iv: array<byte>, enc: bool)
    requires size <= data.Length && size <= out.Length && 16 <= iv.Length && iv != data && iv != out
    modifies out, iv
    ensures out[..] == Transform(enc, e, old(iv[..16]), old(data[..size])) + old(out[size..])
    ensures iv[..16] == TransformIv(enc, e, old(iv[..16]), old(data[..size]))
  {
    ghost var iv0: block := iv[..16];
    ghost var d := data[..size];
    ghost var tail := out[size..];
    var pos := 0;
    ghost var done: bytes := [];
    assert d[0..] == d;
    while pos < size
      invariant 0 <= pos && |done| == Min(pos, size)
      invariant Halfway(d, tail, done, data[..], out[..])
      invariant Fed(enc, e, iv0, d, done, iv[..16])
      decreases size - pos
    {
      ghost var data0, out0, iv1: block := data[..], out[..], iv[..16];
      CipherBlock(data, out, size, pos, e(iv[..16]), iv, enc);
      BlockStep(enc, e, iv0, d, tail, done, data0, out0, iv1, data[..], out[..], iv[..16]);
      done := done + XorSeq(Head(d[|done|..]), e(iv1));
      pos := pos + 16;
    }
    Finished(enc, e, iv0, d, tail, done, data[..], out[..], iv[..16]);
  }

  // ivOut == null stands for the routine's own zeroed feedback buffer.
  method Aes128Cfb(aes: (block, block) -> block, data: array<byte>, size: nat, out: array<byte>,
                   key: bytes, ivIn: bytes, ivOut: array?<byte>, enc: bool)
    requires size <= data.Length && size <= out.Length && |key| >= 16
    requires if ivOut == null then |ivIn| <= 16
             else 16 <= ivOut.Length && |ivIn| <= ivOut.Length && ivOut != data && ivOut != out
    modifies out, ivOut
    ensures var iv := CopyThroughZero(if ivOut == null then Zeros(16) else old(ivOut[..]), ivIn)[..16];
      out[..] == Transform(enc, Keyed(aes, key), iv, old(data[..size])) + old(out[size..])
      && (ivOut != null ==> ivOut[..16] == TransformIv(enc, Keyed(aes, key), iv, old(data[..size])))
      && forall i :: 0 <= i < Min(16, size) ==> IsXor(out[i], old(data[i]), aes(key[..16], iv)[i])
  {
    var iv: array<byte>;
    if ivOut == null {
      iv := new byte[16](_ => 0);
      assert iv[..] == Zeros(16);
    } else {
      iv := ivOut;
    }
    CopyUntilZero(iv, ivIn);
    ghost var d, from: block := data[..size], iv[..16];
    CipherBlocks(Keyed(aes, key), data, size, out, iv, enc);
    FirstBlock(enc, aes, key, from, d, out[..]);
  }

  lemma FirstBlock(enc: bool, aes: (block, block) -> block, key: bytes, iv: block, d: bytes, out: bytes)
    requires |key| >= 16 && |d| <= |out| && out[..|d|] == Transform(enc, Keyed(aes, key), iv, d)
    ensures forall i :: 0 <= i < Min(16, |d|) ==> IsXor(out[i], d[i], aes(key[..16], iv)[i])
  {
    forall i | 0 <= i < Min(16, |d|) ensures IsXor(out[i], d[i], aes(key[..16], iv)[i]) {
      ByteMeaning(enc, Keyed(aes, key), iv, d, i);
      assert out[i] == out[..|d|][i];
    }
  }

  // ---------- two calls ----------

  lemma {:induction false} DecryptAppend(iv: block, e: Cipher, a: bytes, b: bytes)
    requires |a| % 16 == 0
    ensures Decrypt(e, iv, a + b) == Decrypt(e, iv, a) + Decrypt(e, NextIvDecrypt(iv, a), b)
    decreases |a|
  {
    if a == [] {
      assert a + b == b;
    } else {
      assert Head(a + b) == Head(a) && Tail(a + b) == Tail(a) + b;
      DecryptAppend(Feedback(Head(a)), e, Tail(a), b);
    }
  }

  lemma TransformAppend(enc: bool, e: Cipher, iv: block, a: bytes, b: bytes)
    requires |a| % 16 == 0
    ensures Transform(enc, e, iv, a + b) == Transform(enc, e, iv, a) + Transform(enc, e, TransformIv(enc, e, iv, a), b)
  {
    EncryptAppend(e, iv, a, b);
    DecryptAppend(iv, e, a, b);
  }

  lemma XorSeqInjective(d: bytes, x: bytes, y: bytes)
    requires |d| <= |x| && |d| <= |y|
    ensures XorSeq(d, x) == XorSeq(d, y) <==> x[..|d|] == y[..|d|]
  {
    if XorSeq(d, x) == XorSeq(d, y) {
      forall i | 0 <= i < |d| ensures x[i] == y[i] {
        assert XorSeq(d, x)[i] == Xor(d[i], x[i]) && XorSeq(d, y)[i] == Xor(d[i], y[i]);
        XorDetermines(d[i], x[i], y[i]);
      }
    } else {
      var i :| 0 <= i < |d| && XorSeq(d, x)[i] != XorSeq(d, y)[i];
      assert x[..|d|][i] != y[..|d|][i];
    }
  }

  lemma XorDetermines(d: byte, x: byte, y: byte)
    requires Xor(d, x) == Xor(d, y)
    ensures x == y
  {
    XorCommutes(d, x);
    XorCommutes(d, y);
    XorCancels(x, d);
    XorCancels(y, d);
  }

  lemma XorCommutes(a: byte, b: byte)
    ensures Xor(a, b) == Xor(b, a)
  {
    EightBits();
    XorBitsCommute(8, a, b);
  }

  lemma {:induction false} XorBitsCommute(n: nat, a: nat, b: nat)
    requires a < Pow2(n) && b < Pow2(n)
    ensures XorBits(n, a, b) == XorBits(n, b, a)
  {
    if n > 0 {
      XorBitsCommute(n - 1, a / 2, b / 2);
    }
  }

  // Two feedback values do the same to d exactly when the block function gives the same for as much
  // of its first block as there is.
  lemma SameExactly(enc: bool, e: Cipher, iv: block, iv': block, d: bytes)
    ensures Transform(enc, e, iv, d) == Transform(enc, e, iv', d) <==> e(iv)[..|Head(d)|] == e(iv')[..|Head(d)|]
  {
    if d != [] {
      var h := Head(d);
      TransformStep(enc, e, iv, d);
      TransformStep(enc, e, iv', d);
      XorSeqInjective(h, e(iv), e(iv'));
      assert Transform(enc, e, iv, d)[..|h|] == XorSeq(h, e(iv));
      assert Transform(enc, e, iv', d)[..|h|] == XorSeq(h, e(iv'));
    }
  }

  ghost predicate Injective(e: Cipher) { forall x, y :: e(x) == e(y) ==> x == y }

  // Whole blocks a and then b, from feedback value iv and then from `copied`, are what one pass does.
  ghost predicate Chained(enc: bool, e: Cipher, iv: block, copied: block, a: bytes, b: bytes) {
    Transform(enc, e, iv, a) + Transform(enc, e, copied, b) == Transform(enc, e, iv, a + b)
  }

  // They are exactly when the block function gives the same as for the value a leaves, for as much
  // of the first block of b as there is.
  lemma ChainedExactly(enc: bool, e: Cipher, iv: block, copied: block, a: bytes, b: bytes)
    requires |a| % 16 == 0
    ensures Chained(enc, e, iv, copied, a, b)
      <==> e(copied)[..|Head(b)|] == e(TransformIv(enc, e, iv, a))[..|Head(b)|]
  {
    var next := TransformIv(enc, e, iv, a);
    TransformAppend(enc, e, iv, a, b);
    SameExactly(enc, e, copied, next, b);
    Prefixed(Transform(enc, e, iv, a), Transform(enc, e, copied, b), Transform(enc, e, next, b));
  }

  lemma Prefixed(p: bytes, x: bytes, y: bytes)
    ensures p + x == p + y <==> x == y
  {
    if p + x == p + y {
      assert (p + x)[|p|..] == x && (p + y)[|p|..] == y;
    }
  }

  lemma ChainedWhen(enc: bool, e: Cipher, iv: block, copied: block, a: bytes, b: bytes)
    requires |a| % 16 == 0
    ensures copied == TransformIv(enc, e, iv, a) ==> Chained(enc, e, iv, copied, a, b) == true
    ensures Injective(e) && |b| >= 16 && Chained(enc, e, iv, copied, a, b) ==> copied == TransformIv(enc, e, iv, a)
  {
    var next := TransformIv(enc, e, iv, a);
    ChainedExactly(enc, e, iv, copied, a, b);
    assert e(copied)[..16] == e(copied) && e(next)[..16] == e(next);
  }

  // The value a leaves is copied over whatever `to` holds: two passes are one if it arrives whole,
  // and, for b of a block or more and a block function like AES, only then.
  lemma CopiedExactly(enc: bool, e: Cipher, iv: block, a: bytes, b: bytes, to: bytes)
    requires |a| % 16 == 0 && |to| >= 16
    ensures var next := TransformIv(enc, e, iv, a);
      var copied: block := CopyThroughZero(to, next)[..16];
      (Standing(to, next) ==> Chained(enc, e, iv, copied, a, b) == true)
      && (Injective(e) && |b| >= 16 && Chained(enc, e, iv, copied, a, b) ==> Standing(to, next))
  {
    var next := TransformIv(enc, e, iv, a);
    ArrivesExactly(to, next);
    ChainedWhen(enc, e, iv, CopyThroughZero(to, next)[..16], a, b);
  }

  lemma StandsAlready(to: bytes, next: block)
    requires |to| >= 16 && to[..16] == next
    ensures Standing(to, next)
  {
    forall j | 0 <= j < 16 ensures to[j] == next[j] {
      assert to[..16][j] == to[j];
    }
  }

  // All of an array, in place.
  method CfbInPlace(aes: (block, block) -> block, a: array<byte>, key: bytes, ivIn: bytes, ivOut: array?<byte>, enc: bool)
    requires |key| >= 16
    requires if ivOut == null then |ivIn| <= 16 else 16 <= ivOut.Length && |ivIn| <= ivOut.Length && ivOut != a
    modifies a, ivOut
    ensures var iv := CopyThroughZero(if ivOut == null then Zeros(16) else old(ivOut[..]), ivIn)[..16];
      a[..] == Transform(enc, Keyed(aes, key), iv, old(a[..]))
      && (ivOut != null ==> ivOut[..16] == TransformIv(enc, Keyed(aes, key), iv, old(a[..])))
  {
    assert a[..a.Length] == a[..] && a[a.Length..] == [];
    Aes128Cfb(aes, a, a.Length, a, key, ivIn, ivOut, enc);
  }

  // The value of the first call arrives whole in the buffer of the second: it is the same buffer, or
  // what is behind a zero byte stands there already.
  predicate Arrives(same: bool, to: bytes, next: block)
    requires |to| >= 16
  {
    same || Standing(to, next)
  }

  // Two calls in place, on whole blocks and on the rest, with the same buffer for the feedback value
  // or another one, or none.
  method CfbInTwo(aes: (block, block) -> block, a: array<byte>, b: array<byte>, key: bytes, ivIn: bytes,
                  ivMid: array<byte>, ivOut: array?<byte>, enc: bool)
    requires a.Length % 16 == 0 && a != b && |key| >= 16
    requires ivMid.Length >= 16 && |ivIn| <= ivMid.Length && ivMid != a && ivMid != b
    requires ivOut != null ==> ivOut.Length >= 16 && ivOut != a && ivOut != b
    modifies a, b, ivMid, ivOut
    ensures var e := Keyed(aes, key);
      var iv: block := CopyThroughZero(old(ivMid[..]), ivIn)[..16];
      var to := if ivOut == null then Zeros(16) else old(ivOut[..]);
      var there := Arrives(ivOut == ivMid, to, TransformIv(enc, e, iv, old(a[..])));
      var whole := Transform(enc, e, iv, old(a[..]) + old(b[..]));
      (there ==> a[..] + b[..] == whole) && (Injective(e) && b.Length >= 16 && a[..] + b[..] == whole ==> there)
  {
    ghost var e := Keyed(aes, key);
    ghost var iv: block := CopyThroughZero(ivMid[..], ivIn)[..16];
    ghost var d, f := a[..], b[..];
    CfbInPlace(aes, a, key, ivIn, ivMid, enc);
    ghost var next := TransformIv(enc, e, iv, d);
    ghost var to := if ivOut == null then Zeros(16) else ivOut[..];
    CfbInPlace(aes, b, key, ivMid[..16], ivOut, enc);
    CopiedExactly(enc, e, iv, d, f, to);
    if ivOut == ivMid {
      StandsAlready(to, next);
    }
  }
}
