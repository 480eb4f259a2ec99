// Hashing a message in pieces that fit a TPM command.
module HashChunks {
  import opened Bytes
  import opened Kdf

  function Concat(chunks: seq<bytes>): bytes {
    if chunks == [] then [] else Concat(chunks[..|chunks| - 1]) + chunks[|chunks| - 1]
  }

  // Every buffer but the last is full, and the last holds something.
  predicate WellCut(chunks: seq<bytes>) {
    chunks != []
    && (forall i :: 0 <= i < |chunks| - 1 ==> |chunks[i]| == MAX_DIGEST_BUFFER)
    && 0 < |chunks[|chunks| - 1]| <= MAX_DIGEST_BUFFER
  }

  // There is one way to cut a message like this.
  lemma {:induction false} OneWayToCut(a: seq<bytes>, b: seq<bytes>)
    requires WellCut(a) && WellCut(b) && Concat(a) == Concat(b)
    ensures a == b
    decreases |a|
  {
    Sizes(a);
    Sizes(b);
    var m, n := |a| - 1, |b| - 1;
    assert |a| == |b|;
    Prefixes(a, m);
    Prefixes(b, n);
    assert Concat(a)[..MAX_DIGEST_BUFFER * m] == Concat(a[..m]);
    assert Concat(b)[..MAX_DIGEST_BUFFER * m] == Concat(b[..m]);
    assert a[m] == Concat(a)[MAX_DIGEST_BUFFER * m..] && b[m] == Concat(b)[MAX_DIGEST_BUFFER * m..];
    if m > 0 {
      OneWayToCut(a[..m], b[..m]);
    }
    assert a == a[..m] + [a[m]] && b == b[..m] + [b[m]];
  }

  lemma {:induction false} Prefixes(chunks: seq<bytes>, n: nat)
    requires n <= |chunks| && forall i :: 0 <= i < n ==> |chunks[i]| == MAX_DIGEST_BUFFER
    ensures |Concat(chunks[..n])| == MAX_DIGEST_BUFFER * n
  {
    if n > 0 {
      assert chunks[..n][..n - 1] == chunks[..n - 1];
      Prefixes(chunks, n - 1);
    }
  }

  lemma Sizes(chunks: seq<bytes>)
    requires WellCut(chunks)
    ensures var n := |chunks| - 1;
      |Concat(chunks)| == MAX_DIGEST_BUFFER * n + |chunks[n]|
  {
    Prefixes(chunks, |chunks| - 1);
  }

  // ---------- the hash sequence of the TPM ----------

  // A sequence object collects what it is given, and completing it hashes that; each command can fail.
  datatype Tpm = Tpm(hash: bytes -> digest32, startOk: bool, updateOk: nat -> bool, completeOk: bool)

  // Whether the sequence goes through, for a message of n buffers.
  predicate GoesThrough(tpm: Tpm, n: nat) {
    tpm.startOk && (forall i :: 0 <= i < n ==> tpm.updateOk(i)) && tpm.completeOk
  }

  method HashSequenceEx(tpm: Tpm, bufferList: seq<bytes>) returns (ok: bool, digest: digest32)
    ensures ok <==> GoesThrough(tpm, |bufferList|)
    ensures ok ==> digest == tpm.hash(Concat(bufferList))
  {
    digest := Zeros(32);
    if !tpm.startOk {
      return false, digest;
    }
    var collected: bytes := [];
    var i := 0;
    while i < |bufferList|
      invariant 0 <= i <= |bufferList| && forall j :: 0 <= j < i ==> tpm.updateOk(j)
      invariant collected == Concat(bufferList[..i])
    {
      if !tpm.updateOk(i) {
        return false, digest;
      }
      assert bufferList[..i + 1][..i] == bufferList[..i];
      collected := collected + bufferList[i];
      i := i + 1;
    }
    assert bufferList[..i] == bufferList;
    if !tpm.completeOk {
      return false, digest;
    }
    return true, tpm.hash(collected);
  }

  // ---------- cutting ----------

  // The buffers for a message that is too long for one: their number fits the UINT8 it is kept in.
  method Cut(buffer: bytes) returns (bufferList: seq<bytes>)
    requires MAX_DIGEST_BUFFER < |buffer| < 0x1_0000
    ensures Concat(bufferList) == buffer && WellCut(bufferList) && |bufferList| <= 64
  {
    var numBuffers := ((|buffer| - 1) / MAX_DIGEST_BUFFER + 1) % 0x100;
    bufferList := [];
    var i := 0;
    while i < numBuffers - 1
      invariant 0 <= i <= numBuffers - 1 && |bufferList| == i
      invariant forall j :: 0 <= j < i ==> |bufferList[j]| == MAX_DIGEST_BUFFER
      invariant Concat(bufferList) == buffer[..i * MAX_DIGEST_BUFFER]
    {
      var chunk := buffer[i * MAX_DIGEST_BUFFER..(i + 1) * MAX_DIGEST_BUFFER];
      assert (bufferList + [chunk])[..i] == bufferList;
      bufferList := bufferList + [chunk];
      i := i + 1;
    }
    var last := buffer[i * MAX_DIGEST_BUFFER..];
    assert (bufferList + [last])[..i] == bufferList;
    bufferList := bufferList + [last];
  }

  // Hashing in pieces is hashing in one go, for every message a 16-bit length can count.
  method HashComputeData(tpm: Tpm, single: bool, buffer: bytes) returns (rc: int, digest: digest32)
    requires |buffer| < 0x1_0000
    ensures rc == 0 ==> digest == tpm.hash(buffer)
    ensures rc == 0 <==>
      if |buffer| <= MAX_DIGEST_BUFFER then single else GoesThrough(tpm, Blocks1024(|buffer|))
  {
    if |buffer| <= MAX_DIGEST_BUFFER {
      return if single then 0 else -1, tpm.hash(buffer);
    }
    var bufferList := Cut(buffer);
    Sizes(bufferList);
    var ok;
    ok, digest := HashSequenceEx(tpm, bufferList);
    rc := if ok then 0 else -3;
  }

  // The number of buffers that cover n bytes.
  function Blocks1024(n: nat): nat { (n + MAX_DIGEST_BUFFER - 1) / MAX_DIGEST_BUFFER }
}
