// Moving public and sensitive areas between their plain and their sized form, and the name of a
// public area. Each conversion marshals into a stack buffer and unmarshals from it again.
module Converters {
  import opened Bytes
  import opened WireGrammar
  import opened TpmTypes
  import opened Cursors
  import opened Unmarshal
  import opened Marshal
  import opened Kdf

  const BUFFER: nat := 1024

  // ---------- the longest encodings ----------

  function Max(a: nat, b: nat): nat { if a < b then b else a }

  // 18 bytes is the longest parameter block: RSA or ECC with every detail present.
  function MaxPublic(cfg: Config): nat {
    8 + (2 + cfg.maxDigest) + 18
    + Max(2 + cfg.maxDigest, Max(2 + cfg.maxRsaKeyBytes, 4 + 2 * cfg.maxEccKeyBytes))
  }

  function MaxSensitive(cfg: Config): nat {
    2 + 2 * (2 + cfg.maxDigest)
    + 2 + Max(Max(cfg.maxRsaKeyBytes / 2, cfg.maxEccKeyBytes), Max(cfg.maxSymData, cfg.maxSymKeyBytes))
  }

  // Builds whose structures hold their encodings and whose encodings fit the stack buffers.
  predicate Sane(cfg: Config) {
    2 + MaxPublic(cfg) <= cfg.sizeofPublic2B <= BUFFER
    && MaxPublic(cfg) <= cfg.sizeofPublic <= BUFFER
    && 2 + MaxSensitive(cfg) <= cfg.sizeofSensitive2B <= BUFFER
    && MaxSensitive(cfg) <= cfg.sizeofSensitive <= BUFFER
  }

  lemma SchemeLengths(cfg: Config, sym: SymDef, asym: AsymScheme, kdf: KdfScheme, keyed: KeyedHashScheme)
    ensures |Print(SymDefTree(cfg, sym))| <= 6 && |Print(AsymTree(cfg, asym))| <= 6
    ensures |Print(KdfSchemeTree(cfg, kdf))| <= 4 && |Print(KeyedHashTree(cfg, keyed))| <= 6
  {
    assert |Print(SymDefTree(cfg, sym).arm)| <= 4;
    assert |Print(AsymTree(cfg, asym).arm)| <= 4;
    assert |Print(KdfSchemeTree(cfg, kdf).arm)| <= 2;
    assert |Print(KeyedHashTree(cfg, keyed).arm)| <= 4;
  }

  lemma PairLength(a: Tree, b: Tree)
    ensures |Print(Pair(a, b))| == |Print(a)| + |Print(b)|
  {
  }

  lemma ParmsLength(cfg: Config, objectType: nat, x: PublicParms)
    ensures |Print(ParmsTree(cfg, objectType, x))| <= 18
  {
    SchemeLengths(cfg, x.sym, x.rsa.scheme, x.ecc.kdf, x.keyedHash);
    SchemeLengths(cfg, x.rsa.symmetric, x.ecc.scheme, x.ecc.kdf, x.keyedHash);
    SchemeLengths(cfg, x.ecc.symmetric, x.ecc.scheme, x.ecc.kdf, x.keyedHash);
    var r, e := RsaParmsTree(cfg, x.rsa), EccParmsTree(cfg, x.ecc);
    PairLength(r.b.b.a, r.b.b.b);
    PairLength(r.b.a, r.b.b);
    PairLength(r.a, r.b);
    PairLength(e.b.b.a, e.b.b.b);
    PairLength(e.b.a, e.b.b);
    PairLength(e.a, e.b);
  }

  lemma IdLength(cfg: Config, objectType: nat, x: PublicId)
    requires Selects(cfg, PUBLIC_ALGS, objectType) && Conforms(IdFmt(cfg, objectType), IdTree(cfg, objectType, x))
    ensures |Print(IdTree(cfg, objectType, x))|
         <= Max(2 + cfg.maxDigest, Max(2 + cfg.maxRsaKeyBytes, 4 + 2 * cfg.maxEccKeyBytes))
  {
    PairLength(Data(x.ecc.x), Data(x.ecc.y));
  }

  lemma BothParts(f: Fmt, g: Fmt, a: Tree, b: Tree)
    ensures Conforms(Both(f, g), Pair(a, b)) <==> Conforms(f, a) && Conforms(g, b)
  {
  }

  lemma PublicParts(cfg: Config, flag: bool, x: TpmtPublic)
    requires Conforms(PublicFmt(cfg, flag), PublicTree(cfg, x))
    ensures Selects(cfg, PUBLIC_ALGS, x.objectType) && |x.authPolicy| <= cfg.maxDigest
    ensures Conforms(IdFmt(cfg, x.objectType), IdTree(cfg, x.objectType, x.unique))
  {
    assert Selects(cfg, PUBLIC_ALGS, x.objectType);
    PublicBodyParts(cfg, flag, x);
  }

  lemma PublicBodyParts(cfg: Config, flag: bool, x: TpmtPublic)
    requires Conforms(PublicBodyFmt(cfg, flag, x.objectType), PublicTree(cfg, x).arm)
    ensures |x.authPolicy| <= cfg.maxDigest
    ensures Conforms(IdFmt(cfg, x.objectType), IdTree(cfg, x.objectType, x.unique))
  {
    var hash, attributes := Word(2, HashAlg(cfg, flag)), Word(4, NoBits(OBJECT_RESERVED));
    var parms, id := ParmsFmt(cfg, x.objectType), IdFmt(cfg, x.objectType);
    var policy := Blob(cfg.maxDigest);
    var t := PublicTree(cfg, x).arm;
    BothParts(hash, Both(attributes, Both(policy, Both(parms, id))), t.a, t.b);
    BothParts(attributes, Both(policy, Both(parms, id)), t.b.a, t.b.b);
    BothParts(policy, Both(parms, id), t.b.b.a, t.b.b.b);
    BothParts(parms, id, t.b.b.b.a, t.b.b.b.b);
  }

  lemma EncodedPublicLength(cfg: Config, x: TpmtPublic)
    ensures |EncodePublic(cfg, x)|
         == 8 + (2 + |x.authPolicy|) + |Print(ParmsTree(cfg, x.objectType, x.parameters))|
            + |Print(IdTree(cfg, x.objectType, x.unique))|
  {
    var t := PublicTree(cfg, x).arm;
    PairLength(t.b.b.b.a, t.b.b.b.b);
    PairLength(t.b.b.a, t.b.b.b);
    PairLength(t.b.a, t.b.b);
    PairLength(t.a, t.b);
  }

  lemma PublicLength(cfg: Config, flag: bool, x: TpmtPublic)
    requires Conforms(PublicFmt(cfg, flag), PublicTree(cfg, x))
    ensures 0 < |EncodePublic(cfg, x)| <= MaxPublic(cfg)
  {
    PublicParts(cfg, flag, x);
    ParmsLength(cfg, x.objectType, x.parameters);
    IdLength(cfg, x.objectType, x.unique);
    EncodedPublicLength(cfg, x);
  }

  // A sensitive area is well formed when its type is compiled in and its buffers fit.
  lemma SensitiveParts(cfg: Config, x: TpmtSensitive)
    ensures WellFormedSensitive(cfg, x) <==>
      Selects(cfg, PUBLIC_ALGS, x.sensitiveType)
      && |x.authValue| <= cfg.maxDigest && |x.seedValue| <= cfg.maxDigest
      && |x.sensitive| <= CompositeLimit(cfg, x.sensitiveType)
  {
    var f, t := SensitiveBodyFmt(cfg, x.sensitiveType), SensitiveTree(cfg, x).arm;
    assert Conforms(f, t) <==> Conforms(f.first, t.a) && Conforms(f.second, t.b);
    assert Conforms(f.second, t.b) <==> Conforms(f.second.first, t.b.a) && Conforms(f.second.second, t.b.b);
  }

  lemma SensitiveLength(cfg: Config, x: TpmtSensitive)
    requires WellFormedSensitive(cfg, x)
    ensures 0 < |EncodeSensitive(cfg, x)| <= MaxSensitive(cfg)
  {
    SensitiveParts(cfg, x);
    var t := SensitiveTree(cfg, x).arm;
    PairLength(t.b.a, t.b.b);
    PairLength(t.a, t.b);
  }

  lemma Counted(t: Tree, s: Snap, s': Snap, n: uint16, max: nat)
    requires Sent(t, s, s', n) && |Print(t)| <= s.size && |Print(t)| <= max < 0x1_0000
    ensures n == s'.pos - s.pos == s.size - s'.size == |Print(t)|
  {
    CountAgreement(t, s, s', n);
  }

  // In builds whose encodings 16 bits can count, the value returned for a well-formed area is what
  // the cursor moved by and what the budget was charged.
  lemma PublicCounts(cfg: Config, flag: bool, x: TpmtPublic, s: Snap, s': Snap, n: uint16)
    requires MaxPublic(cfg) < 0x1_0000 && WellFormedPublic(cfg, flag, x)
    requires Sent(PublicTree(cfg, x), s, s', n) && |EncodePublic(cfg, x)| <= s.size
    ensures n == s'.pos - s.pos == s.size - s'.size == |EncodePublic(cfg, x)|
  {
    var t, max := PublicTree(cfg, x), MaxPublic(cfg);
    assert |Print(t)| <= max by { PublicLength(cfg, flag, x); }
    Counted(t, s, s', n, max);
  }

  lemma SensitiveCounts(cfg: Config, x: TpmtSensitive, s: Snap, s': Snap, n: uint16)
    requires MaxSensitive(cfg) < 0x1_0000 && WellFormedSensitive(cfg, x)
    requires Sent(SensitiveTree(cfg, x), s, s', n) && |EncodeSensitive(cfg, x)| <= s.size
    ensures n == s'.pos - s.pos == s.size - s'.size == |EncodeSensitive(cfg, x)|
  {
    var t, max := SensitiveTree(cfg, x), MaxSensitive(cfg);
    assert |Print(t)| <= max by { SensitiveLength(cfg, x); }
    Counted(t, s, s', n, max);
  }

  // ---------- reading back what was written ----------

  lemma ReadBack(f: Fmt, t: Tree, s: Snap, s': Snap, rc: Rc, u: Tree)
    requires Conforms(f, t) && s.Ready() && |Print(t)| <= s.size
    requires s.mem[s.pos..s.pos + |Print(t)|] == Print(t)
    requires Took(f, s, s', rc, u)
    ensures rc == Success && u == t && s'.pos == s.pos + |Print(t)|
  {
    var b := s.Available();
    var rest := b[|Print(t)|..];
    assert b[..|Print(t)|] == s.mem[s.pos..s.pos + |Print(t)|];
    assert b == Print(t) + rest;
    RoundTrip(f, t, rest);
  }

  // The encoding at pos, once written in full.
  lemma WrittenInFull(t: Tree, s: Snap, s': Snap, n: uint16)
    requires Sent(t, s, s', n) && |Print(t)| <= s.size
    ensures s.pos + |Print(t)| <= |s.mem|
    ensures s'.mem == Splice(s.mem, s.pos, Print(t)) && s'.size == s.size - |Print(t)|
    ensures n == |Print(t)| % 0x1_0000
    ensures |s'.mem| == |s.mem| && s'.mem[s.pos..s.pos + |Print(t)|] == Print(t)
  {
    CountAgreement(t, s, s', n);
    FitBounds(t, s.size);
    assert Print(t)[..|Print(t)|] == Print(t);
  }

  // A payload written at 2 and its size at 0 make a frame at 0.
  lemma Framed(t: Tree, s0: Snap, s1: Snap, s2: Snap, s3: Snap, n: uint16, m: uint16)
    requires 0 < |Print(t)| < 0x1_0000 && s0.pos == 2 && |Print(t)| + 2 <= s0.size
    requires Sent(t, s0, s1, n) && s2 == s1.(pos := 0) && Sent(Num(2, n), s2, s3, m)
    ensures n == |Print(t)| && |s3.mem| == |s0.mem| && 2 + |Print(t)| <= |s3.mem|
    ensures s3.mem[..2 + |Print(t)|] == Print(Frame(t))
    ensures s3.mem[2 + |Print(t)|..] == s0.mem[2 + |Print(t)|..]
  {
    WrittenInFull(t, s0, s1, n);
    WrittenInFull(Num(2, n), s2, s3, m);
    SpliceBefore(s0.mem, 0, ToBE(2, n), Print(t));
    assert s3.mem == Splice(s0.mem, 0, Print(Frame(t)));
  }

  // The whole of a conversion to sized form: written at 2, its size at 0, read from 0 as a frame.
  lemma FrameReadBack(f: Fmt, emptyOk: bool, t: Tree, s0: Snap, s1: Snap, s3: Snap, s4: Snap, s5: Snap,
                      n: uint16, m: uint16, rc: Rc, u: Tree)
    requires Conforms(f, t) && 0 < |Print(t)| && 2 + |Print(t)| <= s4.size <= BUFFER
    requires s0.pos == 2 && s0.size == BUFFER && |s0.mem| == BUFFER + 2
    requires Sent(t, s0, s1, n) && Sent(Num(2, n), s1.(pos := 0), s3, m)
    requires s4.mem == s3.mem && s4.pos == 0
    requires s4.Ready() && Took(Sized(f, emptyOk), s4, s5, rc, u)
    ensures rc == Success && u == Frame(t) && n == |Print(t)|
    ensures |s5.mem| == |s0.mem| && s5.mem[BUFFER..] == s0.mem[BUFFER..]
  {
    Framed(t, s0, s1, s1.(pos := 0), s3, n, m);
    ReadBack(Sized(f, emptyOk), Frame(t), s4, s5, rc, u);
    assert s3.mem[BUFFER..] == s3.mem[2 + |Print(t)|..][BUFFER - 2 - |Print(t)|..];
    assert s0.mem[BUFFER..] == s0.mem[2 + |Print(t)|..][BUFFER - 2 - |Print(t)|..];
  }

  // ---------- the conversions ----------

  // The stack buffer of the two conversions to sized form starts its payload at byte 2 with a
  // budget of all 1024 bytes, so the budget reaches two bytes past the end. `frame` is the buffer
  // with those two bytes: they keep their contents for every area that is well formed.
  method PublicTo2B(cfg: Config, source: TpmtPublic, frame: array<byte>) returns (rc: Rc, size: uint16, target: TpmtPublic)
    requires frame.Length == BUFFER + 2 && cfg.sizeofPublic2B <= BUFFER
    modifies frame
    ensures Sane(cfg) && WellFormedPublic(cfg, true, source) ==>
      rc == Success && target == source && size == |EncodePublic(cfg, source)|
      && frame[BUFFER..] == old(frame[BUFFER..])
  {
    var c := new Cursor(frame, 2, BUFFER);
    ghost var t, s0 := PublicTree(cfg, source), c.State();
    var sizeField := MarshalPublic(c, cfg, source);
    ghost var s1 := c.State();
    c.pos := 0;
    var m := MarshalUInt16(c, sizeField);
    ghost var s3 := c.State();
    c.pos := 0;
    c.size := cfg.sizeofPublic2B;
    ghost var s4 := c.State();
    rc, size, target := UnmarshalPublic2B(c, cfg, true);
    if Sane(cfg) && WellFormedPublic(cfg, true, source) {
      PublicLength(cfg, true, source);
      FrameReadBack(PublicFmt(cfg, true), false, t, s0, s1, s3, s4, c.State(), sizeField, m, rc,
                    Frame(PublicTree(cfg, target)));
      PublicParts(cfg, true, source);
      PublicTreeInjective(cfg, source, target);
    }
  }

  method PublicFrom2B(cfg: Config, area: TpmtPublic) returns (rc: Rc, target: TpmtPublic)
    requires cfg.sizeofPublic <= BUFFER
    ensures Sane(cfg) && WellFormedPublic(cfg, true, area) ==> rc == Success && target == area
  {
    var buffer := new byte[BUFFER];
    var c := new Cursor(buffer, 0, BUFFER);
    ghost var t, s0 := PublicTree(cfg, area), c.State();
    var n := MarshalPublic(c, cfg, area);
    ghost var s1 := c.State();
    c.pos := 0;
    c.size := cfg.sizeofPublic;
    ghost var s2 := c.State();
    rc, target := UnmarshalPublic(c, cfg, true);
    if Sane(cfg) && WellFormedPublic(cfg, true, area) {
      PublicLength(cfg, true, area);
      WrittenInFull(t, s0, s1, n);
      ReadBack(PublicFmt(cfg, true), t, s2, c.State(), rc, PublicTree(cfg, target));
      PublicParts(cfg, true, area);
      PublicTreeInjective(cfg, area, target);
    }
  }

  method SensitiveTo2B(cfg: Config, source: TpmtSensitive, frame: array<byte>)
    returns (rc: Rc, size: uint16, target: Option<TpmtSensitive>)
    requires frame.Length == BUFFER + 2 && cfg.sizeofSensitive2B <= BUFFER
    modifies frame
    ensures Sane(cfg) && WellFormedSensitive(cfg, source) ==>
      rc == Success && target == Some(source) && size == |EncodeSensitive(cfg, source)|
      && frame[BUFFER..] == old(frame[BUFFER..])
  {
    var c := new Cursor(frame, 2, BUFFER);
    ghost var t, s0 := SensitiveTree(cfg, source), c.State();
    var sizeField := MarshalSensitive(c, cfg, source);
    ghost var s1 := c.State();
    c.pos := 0;
    var m := MarshalUInt16(c, sizeField);
    ghost var s3 := c.State();
    c.pos := 0;
    c.size := cfg.sizeofSensitive2B;
    ghost var s4 := c.State();
    rc, size, target := UnmarshalSensitive2B(c, cfg);
    if Sane(cfg) && WellFormedSensitive(cfg, source) {
      SensitiveLength(cfg, source);
      SensitiveParts(cfg, source);
      FrameReadBack(SensitiveFmt(cfg), true, t, s0, s1, s3, s4, c.State(), sizeField, m, rc,
                    if target.Some? then Frame(SensitiveTree(cfg, target.value)) else NoFrame);
      SensitiveTreeInjective(cfg, source, target.value);
    }
  }

  method SensitiveFrom2B(cfg: Config, area: TpmtSensitive) returns (rc: Rc, target: TpmtSensitive)
    requires cfg.sizeofSensitive <= BUFFER
    ensures Sane(cfg) && WellFormedSensitive(cfg, area) ==> rc == Success && target == area
  {
    var buffer := new byte[BUFFER];
    var c := new Cursor(buffer, 0, BUFFER);
    ghost var t, s0 := SensitiveTree(cfg, area), c.State();
    var n := MarshalSensitive(c, cfg, area);
    ghost var s1 := c.State();
    c.pos := 0;
    c.size := cfg.sizeofSensitive;
    ghost var s2 := c.State();
    rc, target := UnmarshalSensitive(c, cfg);
    if Sane(cfg) && WellFormedSensitive(cfg, area) {
      SensitiveLength(cfg, area);
      SensitiveParts(cfg, area);
      WrittenInFull(t, s0, s1, n);
      ReadBack(SensitiveFmt(cfg), t, s2, c.State(), rc, SensitiveTree(cfg, target));
      SensitiveTreeInjective(cfg, area, target);
    }
  }

  // ---------- the name of a public area ----------

  // The hash algorithm and the digest of the encoding without its size field.
  function Name(sha256: bytes -> digest32, cfg: Config, hashAlg: uint16, x: TpmtPublic): (name: bytes)
    ensures |name| == 34
  {
    ToBE(2, hashAlg) + sha256(EncodePublic(cfg, x))
  }

  // The marshalled area behind its size field.
  lemma PayloadBehindSize(t: Tree, s: Snap, mem: bytes)
    requires Frameless(t) && s.pos == 0 && |Print(t)| + 2 <= s.size && s.size + 2 <= |s.mem| && |Print(t)| < 0x1_0000
    requires mem == BackPatched(t, s)
    ensures 2 + |Print(t)| <= |mem| && mem[2..2 + |Print(t)|] == Print(t)
  {
    BackPatchMeaning(t, s);
    var p := Print(t);
    assert mem == ([] + (ToBE(2, |p|) + p)) + s.mem[2 + |p|..];
  }

  method HashPublic(sha256: bytes -> digest32, cfg: Config, x: TpmtPublic) returns (digest: digest32)
    requires |EncodePublic(cfg, x)| + 2 <= BUFFER
    ensures digest == sha256(EncodePublic(cfg, x))
  {
    var buffer := new byte[BUFFER + 2](_ => 0);
    var c := new Cursor(buffer, 0, BUFFER);
    ghost var s := c.State();
    var toHashSize := MarshalPublic2B(c, cfg, x);
    PayloadBehindSize(PublicTree(cfg, x), s, buffer[..]);
    assert toHashSize == |EncodePublic(cfg, x)| + 2;
    digest := sha256(buffer[..][2..2 + (toHashSize - 2)]);
  }

  method GetName(sha256: bytes -> digest32, cfg: Config, hashAlg: uint16, x: TpmtPublic, outName: array<byte>)
    returns (nameSize: uint16)
    requires |EncodePublic(cfg, x)| + 2 <= BUFFER && outName.Length >= 34
    modifies outName
    ensures nameSize == 34 && outName[..34] == Name(sha256, cfg, hashAlg, x)
    ensures outName[34..] == old(outName[34..])
  {
    var digest := HashPublic(sha256, cfg, x);
    var runner := new Cursor(outName, 0, 2);
    ghost var o := runner.State();
    var n := MarshalUInt16(runner, hashAlg);
    WrittenInFull(Num(2, hashAlg), o, runner.State(), n);
    CopyBytes(outName, 2, digest);
    nameSize := n + 32;
    SpliceTwice(o.mem, 0, ToBE(2, hashAlg), digest);
  }

  // memcpy, and the store of a result by the hash functions.
  method CopyBytes(to: array<byte>, pos: nat, from: bytes)
    requires pos + |from| <= to.Length
    modifies to
    ensures to[..] == Splice(old(to[..]), pos, from)
  {
    for i := 0 to |from|
      invariant to[..] == Splice(old(to[..]), pos, from[..i])
    {
      SpliceByte(old(to[..]), pos, from[..i], from[i]);
      assert from[..i] + [from[i]] == from[..i + 1];
      to[pos + i] := from[i];
    }
    assert from[..|from|] == from;
  }
}
