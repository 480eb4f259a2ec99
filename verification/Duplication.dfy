// The duplication blob of part 1, section 23.3 of the TPM 2.0 Library: a sensitive area wrapped
// twice, with an inner digest and an outer HMAC. The import side, which undoes it, is written here
// from that section; it accepts exactly the blobs the utility makes.
module Duplication {
  import opened Bytes
  import opened WireGrammar
  import opened TpmTypes
  import opened Layouts
  import opened Cursors
  import opened Marshal
  import opened Kdf
  import opened Cfb
  import opened Converters

  // AES, SHA-256 and HMAC as functions with fixed output lengths.
  datatype Crypto = Crypto(
    aes: (block, block) -> block,
    sha256: bytes -> digest32,
    hmac: Hmac)

  const STORAGE: bytes := [0x53, 0x54, 0x4F, 0x52, 0x41, 0x47, 0x45]
  const INTEGRITY: bytes := [0x49, 0x4E, 0x54, 0x45, 0x47, 0x52, 0x49, 0x54, 0x59]
  const ZERO_IV: block := Zeros(16)

  function OuterCipher(cr: Crypto, seed: bytes, name: bytes): Cipher {
    Keyed(cr.aes, Derived(cr.hmac, seed, STORAGE, name, [], 128))
  }

  function OuterHmac(cr: Crypto, seed: bytes, data: bytes): digest32 {
    cr.hmac(Derived(cr.hmac, seed, INTEGRITY, [], [], 256), data)
  }

  // ---------- the blob ----------

  function SizedSensitive(cfg: Config, sens: TpmtSensitive): bytes {
    Print(Frame(SensitiveTree(cfg, sens)))
  }

  function InnerData(cr: Crypto, cfg: Config, name: bytes, sens: TpmtSensitive): bytes {
    var p := SizedSensitive(cfg, sens);
    Print(Data(cr.sha256(p + name))) + p
  }

  function DupSensitive(cr: Crypto, name: bytes, seed: bytes, key: block, inner: bytes): bytes {
    Encrypt(OuterCipher(cr, seed, name), ZERO_IV, Encrypt(Keyed(cr.aes, key), ZERO_IV, inner))
  }

  function Blob2B(cr: Crypto, name: bytes, seed: bytes, dup: bytes): bytes {
    Print(Data(OuterHmac(cr, seed, dup + name))) + dup
  }

  function DuplicationBlob(cr: Crypto, cfg: Config, name: bytes, seed: bytes, key: block, sens: TpmtSensitive): bytes {
    Blob2B(cr, name, seed, DupSensitive(cr, name, seed, key, InnerData(cr, cfg, name, sens)))
  }

  // ---------- the import side ----------
  //
  // Written from section 23.3 of part 1, and section 5.1 of SP 800-108 for its two keys, with every
  // byte in its place; it shares no definition with the making of a blob.

  // The key of the outer encryption: KDFa with the label STORAGE, for the name of the object, 128 bits.
  function StorageKey(cr: Crypto, seed: bytes, name: bytes): block {
    cr.hmac(seed, [0, 0, 0, 1, 0x53, 0x54, 0x4F, 0x52, 0x41, 0x47, 0x45, 0] + name + [0, 0, 0, 128])[..16]
  }

  // The key of the outer HMAC: KDFa with the label INTEGRITY, 256 bits.
  function IntegrityKey(cr: Crypto, seed: bytes): bytes {
    cr.hmac(seed, [0, 0, 0, 1, 0x49, 0x4E, 0x54, 0x45, 0x47, 0x52, 0x49, 0x54, 0x59, 0, 0, 0, 1, 0])
  }

  function Aes(cr: Crypto, key: block): Cipher { b => cr.aes(key, b) }

  // A digest of 32 bytes behind its size, and what follows it.
  function SplitDigest(b: bytes): (r: Option<(bytes, bytes)>) {
    if |b| >= 34 && b[0] == 0 && b[1] == 32 then Some((b[2..34], b[34..])) else None
  }

  // A buffer of at most so many bytes behind its size, and what follows it.
  function Take2B(b: bytes, limit: nat): (r: Option<(blob, bytes)>)
    ensures r.Some? ==> b == Buffer2B(r.value.0) + r.value.1 && |r.value.0| <= limit
  {
    if |b| < 2 then None
    else
      var n := First16(b);
      if n > limit || |b| < 2 + n then None
      else
        assert b == Be16(n) + b[2..2 + n] + b[2 + n..];
        Some((b[2..2 + n], b[2 + n..]))
  }

  // A sized sensitive area that fills p (table 2:190).
  function ReadSensitive(cfg: Config, p: bytes): (r: Option<TpmtSensitive>) {
    if |p| < 4 || First16(p) != |p| - 2 || !IsType(cfg, First16(p[2..])) then None
    else
      match Take2B(p[4..], cfg.maxDigest)
      case None => None
      case Some((auth, p1)) =>
        match Take2B(p1, cfg.maxDigest)
        case None => None
        case Some((seed, p2)) =>
          match Take2B(p2, |p2|)
          case None => None
          case Some((secret, p3)) =>
            if p3 != [] || !SecretFits(cfg, First16(p[2..]), |secret|) then None
            else Some(TpmtSensitive(First16(p[2..]), auth, seed, secret))
  }

  // Check the outer HMAC, decrypt twice, check the inner digest, read the sensitive area.
  function Import(cr: Crypto, cfg: Config, name: bytes, seed: bytes, key: block, b: bytes): Option<TpmtSensitive> {
    match SplitDigest(b)
    case None => None
    case Some((outer, dup)) =>
      if cr.hmac(IntegrityKey(cr, seed), dup + name) != outer then None
      else
        match SplitDigest(Decrypt(Aes(cr, key), ZERO_IV, Decrypt(Aes(cr, StorageKey(cr, seed, name)), ZERO_IV, dup)))
        case None => None
        case Some((inner, p)) => if cr.sha256(p + name) != inner then None else ReadSensitive(cfg, p)
  }

  // ---------- the two sides meet ----------

  lemma StorageInput(name: bytes)
    ensures Input(1, STORAGE, name + [], 128)
         == [0, 0, 0, 1, 0x53, 0x54, 0x4F, 0x52, 0x41, 0x47, 0x45, 0] + name + [0, 0, 0, 128]
  {
    assert [0, 0, 1 / 256, 1 % 256] + STORAGE + [0] == [0, 0, 0, 1, 0x53, 0x54, 0x4F, 0x52, 0x41, 0x47, 0x45, 0];
    assert name + [] == name;
  }

  lemma IntegrityInput()
    ensures Input(1, INTEGRITY, [], 256)
         == [0, 0, 0, 1, 0x49, 0x4E, 0x54, 0x45, 0x47, 0x52, 0x49, 0x54, 0x59, 0, 0, 0, 1, 0]
  {
  }

  // The keys derived when a blob is made are those of the import side.
  lemma SameStorageKey(cr: Crypto, seed: bytes, name: bytes)
    ensures Derived(cr.hmac, seed, STORAGE, name, [], 128) == StorageKey(cr, seed, name)
  {
    InputIs(1, STORAGE, name, [], 128);
    StorageInput(name);
    OnceRepeated(cr.hmac(seed, Message(1, STORAGE, name, [], 128)));
  }

  lemma SameIntegrityKey(cr: Crypto, seed: bytes)
    ensures Derived(cr.hmac, seed, INTEGRITY, [], [], 256) == IntegrityKey(cr, seed)
  {
    InputIs(1, INTEGRITY, [], [], 256);
    IntegrityInput();
    var none: bytes := [];
    assert none + none == none;
    OnceRepeated(cr.hmac(seed, Message(1, INTEGRITY, [], [], 256)));
  }

  lemma OnceRepeated(h: digest32)
    ensures Repeat(h, 1) == h
  {
    assert Repeat(h, 1) == Repeat(h, 0) + h;
  }

  lemma {:induction false} SameDecrypt(e: Cipher, f: Cipher, iv: block, c: bytes)
    requires forall b :: e(b) == f(b)
    ensures Decrypt(e, iv, c) == Decrypt(f, iv, c)
    decreases |c|
  {
    if c != [] {
      SameDecrypt(e, f, Feedback(Head(c)), Tail(c));
    }
  }

  lemma KeyedSame(cr: Crypto, key: block, iv: block, c: bytes)
    ensures Decrypt(Keyed(cr.aes, key), iv, c) == Decrypt(Aes(cr, key), iv, c)
  {
    assert key[..16] == key;
    SameDecrypt(Keyed(cr.aes, key), Aes(cr, key), iv, c);
  }

  // Decryption on the import side undoes encryption on the other, and the other way round.
  lemma SidesUndo(cr: Crypto, name: bytes, seed: bytes, key: block, d: bytes)
    ensures Decrypt(Aes(cr, StorageKey(cr, seed, name)), ZERO_IV, Encrypt(OuterCipher(cr, seed, name), ZERO_IV, d)) == d
    ensures Encrypt(OuterCipher(cr, seed, name), ZERO_IV, Decrypt(Aes(cr, StorageKey(cr, seed, name)), ZERO_IV, d)) == d
    ensures Decrypt(Aes(cr, key), ZERO_IV, Encrypt(Keyed(cr.aes, key), ZERO_IV, d)) == d
    ensures Encrypt(Keyed(cr.aes, key), ZERO_IV, Decrypt(Aes(cr, key), ZERO_IV, d)) == d
  {
    var oc, ic, sk := OuterCipher(cr, seed, name), Keyed(cr.aes, key), StorageKey(cr, seed, name);
    SameStorageKey(cr, seed, name);
    DecryptEncrypt(oc, ZERO_IV, d);
    EncryptDecrypt(oc, ZERO_IV, d);
    DecryptEncrypt(ic, ZERO_IV, d);
    EncryptDecrypt(ic, ZERO_IV, d);
    KeyedSame(cr, sk, ZERO_IV, d);
    KeyedSame(cr, sk, ZERO_IV, Encrypt(oc, ZERO_IV, d));
    KeyedSame(cr, key, ZERO_IV, d);
    KeyedSame(cr, key, ZERO_IV, Encrypt(ic, ZERO_IV, d));
  }

  lemma SameHmac(cr: Crypto, seed: bytes, data: bytes)
    ensures OuterHmac(cr, seed, data) == cr.hmac(IntegrityKey(cr, seed), data)
  {
    SameIntegrityKey(cr, seed);
  }

  lemma SplitExactly(b: bytes, d: digest32, rest: bytes)
    ensures SplitDigest(b) == Some((d, rest)) <==> b == Print(Data(d)) + rest
  {
    BufferLayout(d);
    assert Be16(32) == [0, 32];
    if SplitDigest(b) == Some((d, rest)) {
      assert b == [0, 32] + b[2..34] + b[34..];
    }
    if b == [0, 32] + d + rest {
      assert b[2..34] == d && b[34..] == rest;
    }
  }

  lemma TakeExactly(b: bytes, limit: nat, d: blob, rest: bytes)
    requires |d| <= limit
    ensures Take2B(b, limit) == Some((d, rest)) <==> b == Buffer2B(d) + rest
  {
    if b == Buffer2B(d) + rest {
      assert b[0] == |d| / 256 && b[1] == |d| % 256;
      assert First16(b) == |d|;
      assert b[2..2 + |d|] == d && b[2 + |d|..] == rest;
    }
  }

  lemma SizedLayout(cfg: Config, sens: TpmtSensitive)
    requires IsType(cfg, sens.sensitiveType) && |SensitiveBytes(sens)| < 0x1_0000
    ensures SizedSensitive(cfg, sens) == Be16(|SensitiveBytes(sens)|) + SensitiveBytes(sens)
  {
    SensitiveLayout(cfg, sens);
    Short(|SensitiveBytes(sens)|);
  }

  // What is read has the bytes of a sized area that fits, and every one of those is read.
  lemma ReadSound(cfg: Config, p: bytes, sens: TpmtSensitive)
    requires ReadSensitive(cfg, p) == Some(sens) && |p| < 0x1_0002
    ensures SensitiveFits(cfg, sens) && |SensitiveBytes(sens)| < 0x1_0000
    ensures p == Be16(|SensitiveBytes(sens)|) + SensitiveBytes(sens)
  {
    var p1 := Take2B(p[4..], cfg.maxDigest).value.1;
    var p2 := Take2B(p1, cfg.maxDigest).value.1;
    assert p2 == Buffer2B(sens.sensitive) + [] == Buffer2B(sens.sensitive);
    FrontNumber(p);
    FrontNumber(p[2..]);
    assert p[2..][2..] == p[4..];
    Joined(sens, p[2..], p1, p2);
  }

  lemma FrontNumber(b: bytes)
    requires |b| >= 2
    ensures First16(b) < 0x1_0000 && b == Be16(First16(b)) + b[2..]
  {
    var high: int, low: int := b[0], b[1];
    assert (256 * high + low) / 256 == high && (256 * high + low) % 256 == low;
  }

  lemma Joined(x: TpmtSensitive, b: bytes, p1: bytes, p2: bytes)
    requires |b| >= 2 && b == Be16(x.sensitiveType) + b[2..] && b[2..] == Buffer2B(x.authValue) + p1
    requires p1 == Buffer2B(x.seedValue) + p2 && p2 == Buffer2B(x.sensitive)
    ensures b == SensitiveBytes(x)
  {
  }

  lemma FirstOf(n: uint16, b: bytes)
    ensures First16(Be16(n) + b) == n && (Be16(n) + b)[2..] == b
  {
  }

  // Reading piece by piece.
  lemma ReadPieces(cfg: Config, p: bytes, sens: TpmtSensitive, p1: bytes, p2: bytes)
    requires |p| >= 4 && First16(p) == |p| - 2 && First16(p[2..]) == sens.sensitiveType && IsType(cfg, sens.sensitiveType)
    requires Take2B(p[4..], cfg.maxDigest) == Some((sens.authValue, p1)) && Take2B(p1, cfg.maxDigest) == Some((sens.seedValue, p2))
    requires Take2B(p2, |p2|) == Some((sens.sensitive, [])) && SecretFits(cfg, sens.sensitiveType, |sens.sensitive|)
    ensures ReadSensitive(cfg, p) == Some(sens)
  {
  }

  lemma ReadComplete(cfg: Config, sens: TpmtSensitive)
    requires SensitiveFits(cfg, sens) && |SensitiveBytes(sens)| < 0x1_0000
    ensures ReadSensitive(cfg, Be16(|SensitiveBytes(sens)|) + SensitiveBytes(sens)) == Some(sens)
  {
    var body := SensitiveBytes(sens);
    var p := Be16(|body|) + body;
    var p2 := Buffer2B(sens.sensitive);
    var p1 := Buffer2B(sens.seedValue) + p2;
    var p0 := Buffer2B(sens.authValue) + p1;
    FirstOf(|body|, body);
    assert body == Be16(sens.sensitiveType) + p0;
    FirstOf(sens.sensitiveType, p0);
    assert p[4..] == p[2..][2..] == p0;
    TakeExactly(p0, cfg.maxDigest, sens.authValue, p1);
    TakeExactly(p1, cfg.maxDigest, sens.seedValue, p2);
    assert p2 == Buffer2B(sens.sensitive) + [];
    TakeExactly(p2, |p2|, sens.sensitive, []);
    ReadPieces(cfg, p, sens, p1, p2);
  }

  lemma ReadExactly(cfg: Config, p: bytes, sens: TpmtSensitive)
    ensures ReadSensitive(cfg, p) == Some(sens)
      <==> WellFormedSensitive(cfg, sens) && 0 < |EncodeSensitive(cfg, sens)| < 0x1_0000 && p == SizedSensitive(cfg, sens)
  {
    SensitiveExactly(cfg, sens);
    if ReadSensitive(cfg, p) == Some(sens) {
      ReadSound(cfg, p, sens);
      SensitiveLayout(cfg, sens);
      SizedLayout(cfg, sens);
    }
    if SensitiveFits(cfg, sens) && 0 < |EncodeSensitive(cfg, sens)| < 0x1_0000 && p == SizedSensitive(cfg, sens) {
      SensitiveLayout(cfg, sens);
      SizedLayout(cfg, sens);
      ReadComplete(cfg, sens);
    }
  }

  // ---------- import accepts exactly what duplication makes ----------

  // What is imported was made for the area that comes out.
  lemma ImportSound(cr: Crypto, cfg: Config, name: bytes, seed: bytes, key: block, b: bytes, sens: TpmtSensitive)
    requires Import(cr, cfg, name, seed, key, b) == Some(sens)
    ensures WellFormedSensitive(cfg, sens) == true && b == DuplicationBlob(cr, cfg, name, seed, key, sens)
  {
    var dup := SplitDigest(b).value.1;
    var once := Decrypt(Aes(cr, StorageKey(cr, seed, name)), ZERO_IV, dup);
    var inner := Decrypt(Aes(cr, key), ZERO_IV, once);
    var p := SplitDigest(inner).value.1;
    SameHmac(cr, seed, dup + name);
    SplitExactly(b, OuterHmac(cr, seed, dup + name), dup);
    SplitExactly(inner, cr.sha256(p + name), p);
    ReadExactly(cfg, p, sens);
    SidesUndo(cr, name, seed, key, dup);
    SidesUndo(cr, name, seed, key, once);
  }

  // What is made for a well-formed area is imported as that area.
  lemma ImportComplete(cr: Crypto, cfg: Config, name: bytes, seed: bytes, key: block, sens: TpmtSensitive)
    requires MaxSensitive(cfg) < 0x1_0000 && WellFormedSensitive(cfg, sens) == true
    ensures Import(cr, cfg, name, seed, key, DuplicationBlob(cr, cfg, name, seed, key, sens)) == Some(sens)
  {
    var p := SizedSensitive(cfg, sens);
    var inner := InnerData(cr, cfg, name, sens);
    var once := Encrypt(Keyed(cr.aes, key), ZERO_IV, inner);
    var dup := DupSensitive(cr, name, seed, key, inner);
    SensitiveLength(cfg, sens);
    SameHmac(cr, seed, dup + name);
    SplitExactly(DuplicationBlob(cr, cfg, name, seed, key, sens), OuterHmac(cr, seed, dup + name), dup);
    SidesUndo(cr, name, seed, key, once);
    SidesUndo(cr, name, seed, key, inner);
    SplitExactly(inner, cr.sha256(p + name), p);
    ReadExactly(cfg, p, sens);
  }

  // Duplication is invertible, and only its own blobs are accepted: for given name, seed and inner
  // key, importing b yields a sensitive area exactly when b is the blob made for that area.
  lemma ImportExactly(cr: Crypto, cfg: Config, name: bytes, seed: bytes, key: block, b: bytes, sens: TpmtSensitive)
    requires MaxSensitive(cfg) < 0x1_0000
    ensures Import(cr, cfg, name, seed, key, b) == Some(sens)
      <==> WellFormedSensitive(cfg, sens) && b == DuplicationBlob(cr, cfg, name, seed, key, sens)
  {
    if Import(cr, cfg, name, seed, key, b) == Some(sens) {
      ImportSound(cr, cfg, name, seed, key, b, sens);
    }
    if WellFormedSensitive(cfg, sens) == true {
      ImportComplete(cr, cfg, name, seed, key, sens);
    }
  }

  lemma BlobLength(cr: Crypto, cfg: Config, name: bytes, seed: bytes, key: block, sens: TpmtSensitive)
    ensures |DuplicationBlob(cr, cfg, name, seed, key, sens)| == |EncodeSensitive(cfg, sens)| + 70
  {
    assert |SizedSensitive(cfg, sens)| == 2 + |EncodeSensitive(cfg, sens)|;
  }

  // ---------- making the blob ----------

  lemma SizedLength(t: Tree)
    ensures |Print(Frame(t))| == |Print(t)| + 2
  {
  }

  lemma SizedWritten(t: Tree, s: Snap, s1: Snap, s2: Snap, n: uint16, m: uint16)
    requires |Print(t)| < 0x1_0000 && |Print(t)| + 2 <= s.size
    requires Sent(Num(2, |Print(t)|), s, s1, n) && Sent(t, s1, s2, m)
    ensures s2.pos == s.pos + |Print(t)| + 2 <= |s.mem| && s2.size == s.size - |Print(t)| - 2
    ensures s2.mem == Splice(s.mem, s.pos, Print(Frame(t)))
  {
    WrittenInFull(Num(2, |Print(t)|), s, s1, n);
    WrittenInFull(t, s1, s2, m);
    FitBounds(t, s1.size);
    SpliceTwice(s.mem, s.pos, ToBE(2, |Print(t)|), Print(t));
  }

  // The sensitive area behind its size, where the cursor stands.
  method MarshalSized(c: Cursor, cfg: Config, size: uint16, sens: TpmtSensitive)
    requires size == |EncodeSensitive(cfg, sens)| && size + 2 <= c.size && c.State().Room()
    modifies c, c.buf
    ensures |SizedSensitive(cfg, sens)| == size + 2
    ensures c.pos == old(c.pos) + size + 2 && c.size == old(c.size) - size - 2
    ensures c.buf[..] == Splice(old(c.buf[..]), old(c.pos), SizedSensitive(cfg, sens))
  {
    ghost var s0, t := c.State(), SensitiveTree(cfg, sens);
    SizedLength(t);
    var n := MarshalUInt16(c, size);
    ghost var s1 := c.State();
    var m := MarshalSensitive(c, cfg, sens);
    SizedWritten(t, s0, s1, c.State(), n, m);
  }

  lemma SpliceFront(mem: bytes, p: bytes, q: bytes)
    requires |p| + |q| <= |mem|
    ensures Splice(Splice(mem, 0, p), |p|, q)[..|p| + |q|] == p + q
  {
  }

  // The digest over the sized sensitive area and the name, and the budget left over.
  method InnerDigest(cr: Crypto, cfg: Config, size: uint16, sens: TpmtSensitive, name: bytes)
    returns (digest: digest32, left: int)
    requires size == |EncodeSensitive(cfg, sens)| && size + 2 + |name| <= BUFFER
    ensures digest == cr.sha256(SizedSensitive(cfg, sens) + name) && left == BUFFER - size - 2
  {
    var toHash := new byte[BUFFER](_ => 0);
    var runner := new Cursor(toHash, 0, BUFFER);
    ghost var mem := toHash[..];
    MarshalSized(runner, cfg, size, sens);
    CopyBytes(toHash, runner.pos, name);
    SpliceFront(mem, SizedSensitive(cfg, sens), name);
    digest := cr.sha256(toHash[..runner.pos + |name|]);
    left := runner.size;
  }

  // The digest as a TPM2B. The size is marshalled with the budget left over from the area hashed,
  // not with the length of the buffer it goes to.
  method SizedDigest(digest: digest32, left: int) returns (integrity: bytes)
    requires left >= 2
    ensures integrity == Print(Data(digest))
  {
    var innerIntegrity := new byte[34](_ => 0);
    CopyBytes(innerIntegrity, 2, digest);
    var runner := new Cursor(innerIntegrity, 0, left);
    var _ := MarshalUInt16(runner, 32);
    assert ToBE(2, 32)[..2] == ToBE(2, 32);
    integrity := innerIntegrity[..];
  }

  lemma SpliceTail(mem: bytes, pos: nat, p: bytes, n: nat)
    requires pos + |p| <= n <= |mem|
    ensures Splice(mem, pos, p)[n..] == mem[n..]
  {
  }

  // The data to be wrapped. Its buffer starts the area at byte 34 with a budget of all 1024 bytes,
  // which reaches 34 bytes past the end; `room` is the buffer with those bytes.
  method FillInnerData(cr: Crypto, cfg: Config, size: uint16, sens: TpmtSensitive, name: bytes, room: array<byte>)
    requires size == |EncodeSensitive(cfg, sens)| && size + 2 + |name| <= BUFFER && size + 36 <= BUFFER
    requires |name| >= 2 && room.Length == BUFFER + 34
    modifies room
    ensures |InnerData(cr, cfg, name, sens)| == size + 36
    ensures room[..size + 36] == InnerData(cr, cfg, name, sens)
    ensures room[BUFFER..] == old(room[BUFFER..])
  {
    var digest, left := InnerDigest(cr, cfg, size, sens, name);
    var integrity := SizedDigest(digest, left);
    ghost var mem := room[..];
    CopyBytes(room, 0, integrity);
    var runner := new Cursor(room, 34, BUFFER);
    ghost var mid := room[..];
    MarshalSized(runner, cfg, size, sens);
    SpliceFront(mem, integrity, SizedSensitive(cfg, sens));
    SpliceTail(mem, 0, integrity, BUFFER);
    SpliceTail(mid, 34, SizedSensitive(cfg, sens), BUFFER);
  }

  // Encryption of the first `size` bytes into a fresh buffer, from a zero feedback value.
  method Wrap(aes: (block, block) -> block, data: array<byte>, size: nat, key: bytes) returns (out: array<byte>)
    requires size <= data.Length && size <= BUFFER && |key| >= 16
    ensures fresh(out) && out.Length == BUFFER
    ensures out[..size] == Encrypt(Keyed(aes, key), ZERO_IV, data[..size])
  {
    out := new byte[BUFFER](_ => 0);
    Aes128Cfb(aes, data, size, out, key, Zeros(16), null, true);
    WholeIv(Zeros(16));
    assert CopyThroughZero(Zeros(16), Zeros(16))[..16] == ZERO_IV;
  }

  method DeriveKey(cr: Crypto, seed: bytes, purpose: bytes, u: bytes, bits: uint16) returns (key: SizedBuffer)
    requires bits <= 256
    ensures key.size == bits / 8 <= key.buffer.Length == 32
    ensures key.Contents() == Derived(cr.hmac, seed, purpose, u, [], bits)
  {
    key := new SizedBuffer(32);
    var _ := KDFa(cr.hmac, true, seed, purpose, u, [], bits, key);
  }

  // Outer encryption, then the HMAC over the result and the name, then both into outDuplicate.
  method FillOuter(cr: Crypto, seed: bytes, name: bytes, encSensitive: array<byte>, size: nat, outDuplicate: SizedBuffer)
    requires size <= encSensitive.Length && size + |name| <= BUFFER && size + 34 <= outDuplicate.buffer.Length
    requires outDuplicate.buffer != encSensitive
    modifies outDuplicate, outDuplicate.buffer
    ensures outDuplicate.size == size + 34
    ensures var dup := Encrypt(OuterCipher(cr, seed, name), ZERO_IV, old(encSensitive[..size]));
      outDuplicate.buffer[..size + 34] == Blob2B(cr, name, seed, dup)
  {
    var outerWrapper := DeriveKey(cr, seed, STORAGE, name, 128);
    var dupSensitive := Wrap(cr.aes, encSensitive, size, outerWrapper.buffer[..outerWrapper.size]);
    var hmacKey := DeriveKey(cr, seed, INTEGRITY, [], 256);
    var dataToHmac := new byte[BUFFER](_ => 0);
    ghost var mem := dataToHmac[..];
    CopyBytes(dataToHmac, 0, dupSensitive[..size]);
    CopyBytes(dataToHmac, size, name);
    SpliceFront(mem, dupSensitive[..size], name);
    var outerHmac := cr.hmac(hmacKey.buffer[..hmacKey.size], dataToHmac[..size + |name|]);
    FillBlob(outerHmac, dupSensitive[..size], outDuplicate);
  }

  method FillBlob(outerHmac: digest32, dup: bytes, outDuplicate: SizedBuffer)
    requires |dup| + 34 <= outDuplicate.buffer.Length
    modifies outDuplicate, outDuplicate.buffer
    ensures outDuplicate.size == |dup| + 34
    ensures outDuplicate.buffer[..|dup| + 34] == Print(Data(outerHmac)) + dup
  {
    var runner := new Cursor(outDuplicate.buffer, 0, outDuplicate.buffer.Length);
    ghost var s := runner.State();
    var n := MarshalBlob(runner, outerHmac);
    WrittenInFull(Data(outerHmac), s, runner.State(), n);
    CopyBytes(outDuplicate.buffer, runner.pos, dup);
    outDuplicate.size := n + |dup|;
    SpliceFront(s.mem, Print(Data(outerHmac)), dup);
  }

  // A seed or an inner key made on the spot replaces the one passed in.
  method Generate(buffer: SizedBuffer, random: Option<block>)
    requires buffer.buffer.Length >= 16 && buffer.size <= buffer.buffer.Length
    modifies buffer, buffer.buffer
    ensures buffer.size <= buffer.buffer.Length
    ensures random == None ==> buffer.size == old(buffer.size) && buffer.buffer[..] == old(buffer.buffer[..])
    ensures random.Some? ==> buffer.size == 16 && buffer.buffer[16..] == old(buffer.buffer[16..])
    ensures buffer.Contents() == if random.Some? then random.value else old(buffer.Contents())
    ensures buffer.buffer[..16] == if random.Some? then random.value else old(buffer.buffer[..16])
  {
    if random.Some? {
      CopyBytes(buffer.buffer, 0, random.value);
      buffer.size := 16;
    }
  }

  method GenerateBoth(plainSymSeed: SizedBuffer, newSeed: Option<block>, encryptionKey: SizedBuffer, newKey: Option<block>)
    requires plainSymSeed.buffer.Length >= 16 && plainSymSeed.size <= plainSymSeed.buffer.Length
    requires encryptionKey.buffer.Length >= 16 && encryptionKey.size <= encryptionKey.buffer.Length
    requires plainSymSeed != encryptionKey && plainSymSeed.buffer != encryptionKey.buffer
    modifies plainSymSeed, plainSymSeed.buffer, encryptionKey, encryptionKey.buffer
    ensures plainSymSeed.size <= plainSymSeed.buffer.Length
    ensures plainSymSeed.Contents() == if newSeed.Some? then newSeed.value else old(plainSymSeed.Contents())
    ensures encryptionKey.buffer[..16] == if newKey.Some? then newKey.value else old(encryptionKey.buffer[..16])
  {
    Generate(plainSymSeed, newSeed);
    Generate(encryptionKey, newKey);
  }

  method NameOf(cr: Crypto, cfg: Config, publicPortion: TpmtPublic) returns (name: bytes)
    requires Sane(cfg) && WellFormedPublic(cfg, true, publicPortion)
    ensures name == Name(cr.sha256, cfg, ALG_SHA256, publicPortion)
  {
    var frame := new byte[BUFFER + 2];
    var _, _, public2B := PublicTo2B(cfg, publicPortion, frame);
    PublicLength(cfg, true, publicPortion);
    var swkName := new byte[34](_ => 0);
    var nameSize := GetName(cr.sha256, cfg, ALG_SHA256, public2B, swkName);
    name := swkName[..nameSize];
  }

  method SizeOf(cfg: Config, sens: TpmtSensitive) returns (size: uint16)
    requires Sane(cfg) && WellFormedSensitive(cfg, sens)
    ensures size == |EncodeSensitive(cfg, sens)|
  {
    var frame := new byte[BUFFER + 2];
    var _, sens2BSize, _ := SensitiveTo2B(cfg, sens, frame);
    size := sens2BSize;
  }

  // Inner wrapping with the caller's key, outer wrapping with keys derived from the seed.
  method WrapTwice(cr: Crypto, cfg: Config, name: bytes, seed: bytes, key: block, sens: TpmtSensitive, size: uint16,
                   outDuplicate: SizedBuffer)
    requires |name| == 34 && size == |EncodeSensitive(cfg, sens)|
    requires size + 70 <= Min(BUFFER, outDuplicate.buffer.Length)
    modifies outDuplicate, outDuplicate.buffer
    ensures outDuplicate.size == size + 70
    ensures outDuplicate.Contents() == DuplicationBlob(cr, cfg, name, seed, key, sens)
  {
    var room := new byte[BUFFER + 34](_ => 0);
    FillInnerData(cr, cfg, size, sens, name, room);
    var encSensitive := Wrap(cr.aes, room, size + 36, key);
    FillOuter(cr, seed, name, encSensitive, size + 36, outDuplicate);
  }

  // The blob for an area, given its public area, a seed and an inner key.
  ghost function BlobFor(cr: Crypto, cfg: Config, publicPortion: TpmtPublic, sens: TpmtSensitive, seed: bytes, key: block): bytes {
    DuplicationBlob(cr, cfg, Name(cr.sha256, cfg, ALG_SHA256, publicPortion), seed, key, sens)
  }

  // Imported under the name that part 1, section 16 gives the object, the blob is the sensitive area.
  lemma BlobImported(cr: Crypto, cfg: Config, publicPortion: TpmtPublic, sens: TpmtSensitive, seed: bytes, key: block)
    requires (Sane(cfg) && WellFormedPublic(cfg, true, publicPortion) && WellFormedSensitive(cfg, sens)) == true
    ensures Import(cr, cfg, [0, 0x0B] + cr.sha256(PublicBytes(publicPortion)), seed, key,
                   BlobFor(cr, cfg, publicPortion, sens, seed, key)) == Some(sens)
  {
    EncodedAsBytes(cfg, true, publicPortion);
    NameMeaning(cr, cfg, publicPortion);
    SaneSizes(cfg);
    ImportComplete(cr, cfg, Name(cr.sha256, cfg, ALG_SHA256, publicPortion), seed, key, sens);
  }

  lemma NameMeaning(cr: Crypto, cfg: Config, publicPortion: TpmtPublic)
    requires EncodePublic(cfg, publicPortion) == PublicBytes(publicPortion)
    ensures Name(cr.sha256, cfg, ALG_SHA256, publicPortion) == [0, 0x0B] + cr.sha256(PublicBytes(publicPortion))
  {
    Short(ALG_SHA256);
  }

  lemma SaneSizes(cfg: Config)
    requires Sane(cfg)
    ensures MaxSensitive(cfg) < 0x1_0000
  {
  }

  // Name, size and both wrappings, for a seed and an inner key in effect. A condition written P == true
  // is P, kept in one piece for the prover.
  method MakeBlob(cr: Crypto, cfg: Config, publicPortion: TpmtPublic, sens: TpmtSensitive, seed: bytes, key: block,
                  outDuplicate: SizedBuffer)
    requires (Sane(cfg) && WellFormedPublic(cfg, true, publicPortion) && WellFormedSensitive(cfg, sens)) == true
    requires |EncodeSensitive(cfg, sens)| + 70 <= Min(BUFFER, outDuplicate.buffer.Length)
    modifies outDuplicate, outDuplicate.buffer
    ensures outDuplicate.size <= outDuplicate.buffer.Length
    ensures outDuplicate.Contents() == BlobFor(cr, cfg, publicPortion, sens, seed, key)
  {
    var name := NameOf(cr, cfg, publicPortion);
    var size := SizeOf(cfg, sens);
    WrapTwice(cr, cfg, name, seed, key, sens, size, outDuplicate);
  }

  // The whole routine. The inner key is whatever the first sixteen bytes of its buffer hold.
  method CreateDuplicationBlob(cr: Crypto, cfg: Config, publicPortion: TpmtPublic, sens: TpmtSensitive,
                               plainSymSeed: SizedBuffer, newSeed: Option<block>,
                               encryptionKey: SizedBuffer, newKey: Option<block>, outDuplicate: SizedBuffer)
    requires Sane(cfg) && WellFormedPublic(cfg, true, publicPortion) && WellFormedSensitive(cfg, sens)
    requires |EncodeSensitive(cfg, sens)| + 70 <= Min(BUFFER, outDuplicate.buffer.Length)
    requires plainSymSeed.buffer.Length >= 16 && plainSymSeed.size <= plainSymSeed.buffer.Length
    requires encryptionKey.buffer.Length >= 16 && encryptionKey.size <= encryptionKey.buffer.Length
    requires plainSymSeed != encryptionKey && plainSymSeed.buffer != encryptionKey.buffer
    requires outDuplicate != plainSymSeed && outDuplicate.buffer != plainSymSeed.buffer
    requires outDuplicate != encryptionKey && outDuplicate.buffer != encryptionKey.buffer
    modifies plainSymSeed, plainSymSeed.buffer, encryptionKey, encryptionKey.buffer, outDuplicate, outDuplicate.buffer
    ensures plainSymSeed.size <= plainSymSeed.buffer.Length && outDuplicate.size <= outDuplicate.buffer.Length
    ensures plainSymSeed.Contents() == if newSeed.Some? then newSeed.value else old(plainSymSeed.Contents())
    ensures encryptionKey.buffer[..16] == if newKey.Some? then newKey.value else old(encryptionKey.buffer[..16])
    ensures outDuplicate.Contents()
         == BlobFor(cr, cfg, publicPortion, sens, plainSymSeed.Contents(), encryptionKey.buffer[..16])
    ensures Import(cr, cfg, [0, 0x0B] + cr.sha256(PublicBytes(publicPortion)), plainSymSeed.Contents(),
                   encryptionKey.buffer[..16], outDuplicate.Contents()) == Some(sens)
  {
    GenerateBoth(plainSymSeed, newSeed, encryptionKey, newKey);
    var seed, key := plainSymSeed.buffer[..plainSymSeed.size], encryptionKey.buffer[..16];
    MakeBlob(cr, cfg, publicPortion, sens, seed, key, outDuplicate);
    BlobImported(cr, cfg, publicPortion, sens, seed, key);
  }
}
