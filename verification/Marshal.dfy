// The marshalling routines: each appends an encoding at the shared cursor, charges the budget for
// it, writes only what the budget allows and returns the length as a UINT16.
module Marshal {
  import opened Bytes
  import opened WireGrammar
  import opened TpmTypes
  import opened Cursors

  // ---------- integers and bytes ----------

  method MarshalUInt8(c: Cursor, v: byte) returns (n: uint16)
    requires c.State().Room()
    modifies c, c.buf
    ensures Sent(Num(1, v), old(c.State()), c.State(), n)
  {
    ghost var s := c.State();
    c.size := c.size - 1;
    assert ToBE(1, v) == [v] by { BE1(v); ToFromBE([v]); }
    if c.size >= 0 {
      c.buf[c.pos] := v;
      c.pos := c.pos + 1;
      assert c.buf[..] == Splice(s.mem, s.pos, [v]);
    } else {
      WroteUnit(s);
    }
    n := 1;
  }

  // Its memory need only hold what the budget lets it write.
  method MarshalUInt16(c: Cursor, v: uint16) returns (n: uint16)
    requires c.pos + (if c.size < 2 then 0 else 2) <= c.buf.Length
    modifies c, c.buf
    ensures Wrote(Num(2, v), old(c.State()), c.State()) && n == 2
    ensures old(c.State()).Room() ==> Sent(Num(2, v), old(c.State()), c.State(), n)
  {
    ghost var s := c.State();
    c.size := c.size - 2;
    assert ToBE(2, v) == [v / 256, v % 256] by { BE2(v / 256, v % 256); ToFromBE([v / 256, v % 256]); }
    if c.size >= 0 {
      c.buf[c.pos] := v / 256;
      c.buf[c.pos + 1] := v % 256;
      c.pos := c.pos + 2;
      assert c.buf[..] == Splice(s.mem, s.pos, [v / 256, v % 256]);
    } else {
      WroteUnit(s);
    }
    n := 2;
  }

  // The four stores of UINT32_TO_BYTE_ARRAY.
  method StoreUInt32(a: array<byte>, pos: nat, v: uint32)
    requires pos + 4 <= a.Length
    modifies a
    ensures a[..] == Splice(old(a[..]), pos, ToBE(4, v))
  {
    Bytes32(v);
    a[pos] := v / 0x100_0000;
    a[pos + 1] := v / 0x1_0000 % 256;
    a[pos + 2] := v / 256 % 256;
    a[pos + 3] := v % 256;
  }

  method MarshalUInt32(c: Cursor, v: uint32) returns (n: uint16)
    requires c.State().Room()
    modifies c, c.buf
    ensures Sent(Num(4, v), old(c.State()), c.State(), n)
  {
    ghost var s := c.State();
    c.size := c.size - 4;
    if c.size >= 0 {
      StoreUInt32(c.buf, c.pos, v);
      assert ToBE(4, v)[..4] == ToBE(4, v);
      c.pos := c.pos + 4;
    } else {
      WroteUnit(s);
    }
    n := 4;
  }

  // From s to s', i bytes of d were written as far as the budget reaches.
  ghost predicate Copied(d: bytes, i: nat, s: Snap, s': Snap)
    requires i <= |d| && s.Room()
  {
    var k := Min(i, if s.size < 0 then 0 else s.size);
    s'.size == s.size - i && s'.pos == s.pos + k && s'.mem == Splice(s.mem, s.pos, d[..k])
  }

  lemma CopiedNext(d: bytes, i: nat, s: Snap, t: Snap, t': Snap, n: uint16)
    requires i < |d| && s.Room() && Copied(d, i, s, t) && Sent(Num(1, d[i]), t, t', n)
    ensures Copied(d, i + 1, s, t') && n == 1
  {
    assert ToBE(1, d[i]) == [d[i]] by { BE1(d[i]); ToFromBE([d[i]]); }
    if i < s.size {
      SpliceTwice(s.mem, s.pos, d[..i], [d[i]]);
      assert d[..i] + [d[i]] == d[..i + 1];
    } else {
      SpliceNothing(t.mem, t.pos);
    }
  }

  // Writes d one byte at a time.
  method MarshalBytes(c: Cursor, d: blob) returns (n: uint16)
    requires c.State().Room()
    modifies c, c.buf
    ensures n == |d| && Copied(d, |d|, old(c.State()), c.State())
  {
    n := 0;
    var i := 0;
    ghost var s := c.State();
    SpliceNothing(s.mem, s.pos);
    while i < |d|
      invariant 0 <= i <= |d| && n == i && Copied(d, i, s, c.State())
    {
      ghost var t := c.State();
      var m := MarshalUInt8(c, d[i]);
      CopiedNext(d, i, s, t, c.State(), m);
      n := Add16(n, m);
      i := i + 1;
    }
  }

  lemma BlobSent(d: blob, s: Snap, s1: Snap, s2: Snap)
    requires s.Room() && Sent(Num(2, |d|), s, s1, 2) && Copied(d, |d|, s1, s2)
    ensures Wrote(Data(d), s, s2)
  {
    var h := ToBE(2, |d|);
    var k := Fit(Data(d), s.size);
    if s.size >= 2 {
      assert h[..2] == h;
      SpliceTwice(s.mem, s.pos, h, d[..k - 2]);
      Prefixes(h, d, 2, k - 2);
    } else {
      SpliceNothing(s1.mem, s1.pos);
    }
  }

  method MarshalBlob(c: Cursor, d: blob) returns (n: uint16)
    requires c.State().Room()
    modifies c, c.buf
    ensures Sent(Data(d), old(c.State()), c.State(), n)
  {
    ghost var s := c.State();
    n := MarshalUInt16(c, |d|);
    if |d| == 0 {
      assert Print(Data(d)) == ToBE(2, 0);
      return;
    }
    ghost var s1 := c.State();
    var m := MarshalBytes(c, d);
    n := Add16(n, m);
    BlobSent(d, s, s1, c.State());
    FitBounds(Data(d), s.size);
  }

  // ---------- schemes and parameters ----------

  method MarshalSymDef(c: Cursor, cfg: Config, x: SymDef) returns (n: uint16)
    requires c.State().Room()
    modifies c, c.buf
    ensures Sent(SymDefTree(cfg, x), old(c.State()), c.State(), n)
  {
    ghost var s := c.State();
    n := MarshalUInt16(c, x.algorithm);
    ghost var s1, n1 := c.State(), n;
    if Selects(cfg, SYM_ALGS, x.algorithm) {
      var m := MarshalUInt16(c, x.keyBits);
      ghost var s2 := c.State();
      var k := MarshalUInt16(c, x.mode);
      SentPair(Num(2, x.keyBits), Num(2, x.mode), s1, s2, c.State(), m, k);
      n := Add16(Add16(n, m), k);
      SentTag(2, x.algorithm, SymDefTree(cfg, x).arm, s, s1, c.State(), n1, Add16(m, k));
      Add16Assoc(n1, m, k);
    } else if Selects(cfg, {ALG_XOR}, x.algorithm) {
      var m := MarshalUInt16(c, x.keyBits);
      n := Add16(n, m);
      SentTag(2, x.algorithm, Num(2, x.keyBits), s, s1, c.State(), n1, m);
    } else {
      SentUnit(s1);
      SentTag(2, x.algorithm, Unit, s, s1, s1, n1, 0);
    }
  }

  method MarshalAsymScheme(c: Cursor, cfg: Config, x: AsymScheme) returns (n: uint16)
    requires c.State().Room()
    modifies c, c.buf
    ensures Sent(AsymTree(cfg, x), old(c.State()), c.State(), n)
  {
    ghost var s := c.State();
    n := MarshalUInt16(c, x.scheme);
    ghost var s1, n1 := c.State(), n;
    if !Selects(cfg, RSA_SCHEMES + ECC_SCHEMES, x.scheme) || x.scheme == ALG_RSAES {
      SentUnit(s1);
      SentTag(2, x.scheme, Unit, s, s1, s1, n1, 0);
      return;
    }
    var m := MarshalUInt16(c, x.hashAlg);
    n := Add16(n, m);
    if x.scheme == ALG_ECDAA {
      ghost var s2 := c.State();
      var k := MarshalUInt16(c, x.count);
      SentPair(Num(2, x.hashAlg), Num(2, x.count), s1, s2, c.State(), m, k);
      n := Add16(n, k);
      Add16Assoc(n1, m, k);
      m := Add16(m, k);
    }
    SentTag(2, x.scheme, AsymTree(cfg, x).arm, s, s1, c.State(), n1, m);
  }

  method MarshalKdfScheme(c: Cursor, cfg: Config, x: KdfScheme) returns (n: uint16)
    requires c.State().Room()
    modifies c, c.buf
    ensures Sent(KdfSchemeTree(cfg, x), old(c.State()), c.State(), n)
  {
    ghost var s := c.State();
    n := MarshalUInt16(c, x.scheme);
    ghost var s1, n1 := c.State(), n;
    var m: uint16 := 0;
    SentUnit(s1);
    if Selects(cfg, KDF_ALGS, x.scheme) {
      m := MarshalUInt16(c, x.hashAlg);
      n := Add16(n, m);
    }
    SentTag(2, x.scheme, KdfSchemeTree(cfg, x).arm, s, s1, c.State(), n1, m);
  }

  method MarshalKeyedHashScheme(c: Cursor, cfg: Config, x: KeyedHashScheme) returns (n: uint16)
    requires c.State().Room()
    modifies c, c.buf
    ensures Sent(KeyedHashTree(cfg, x), old(c.State()), c.State(), n)
  {
    ghost var s := c.State();
    n := MarshalUInt16(c, x.scheme);
    ghost var s1, n1 := c.State(), n;
    if !Selects(cfg, KEYEDHASH_SCHEMES, x.scheme) {
      SentUnit(s1);
      SentTag(2, x.scheme, Unit, s, s1, s1, n1, 0);
      return;
    }
    var m := MarshalUInt16(c, x.hashAlg);
    n := Add16(n, m);
    if x.scheme == ALG_XOR {
      ghost var s2 := c.State();
      var k := MarshalUInt16(c, x.kdf);
      SentPair(Num(2, x.hashAlg), Num(2, x.kdf), s1, s2, c.State(), m, k);
      n := Add16(n, k);
      Add16Assoc(n1, m, k);
      m := Add16(m, k);
    }
    SentTag(2, x.scheme, KeyedHashTree(cfg, x).arm, s, s1, c.State(), n1, m);
  }

  method MarshalRsaParms(c: Cursor, cfg: Config, x: RsaParms) returns (n: uint16)
    requires c.State().Room()
    modifies c, c.buf
    ensures Sent(RsaParmsTree(cfg, x), old(c.State()), c.State(), n)
  {
    ghost var t := RsaParmsTree(cfg, x);
    ghost var s := c.State();
    var n1 := MarshalSymDef(c, cfg, x.symmetric);
    ghost var s1 := c.State();
    var n2 := MarshalAsymScheme(c, cfg, x.scheme);
    ghost var s2 := c.State();
    var n3 := MarshalUInt16(c, x.keyBits);
    ghost var s3 := c.State();
    var n4 := MarshalUInt32(c, x.exponent);
    n := Add16(Add16(Add16(n1, n2), n3), n4);
    SentTriple(t.b.a, t.b.b.a, t.b.b.b, s1, s2, s3, c.State(), n2, n3, n4);
    SentPair(t.a, t.b, s, s1, c.State(), n1, Add16(Add16(n2, n3), n4));
    Add16Assoc(Add16(n1, n2), n3, n4);
    Add16Assoc(n1, n2, Add16(n3, n4));
    Add16Assoc(n2, n3, n4);
  }

  method MarshalEccParms(c: Cursor, cfg: Config, x: EccParms) returns (n: uint16)
    requires c.State().Room()
    modifies c, c.buf
    ensures Sent(EccParmsTree(cfg, x), old(c.State()), c.State(), n)
  {
    ghost var t := EccParmsTree(cfg, x);
    ghost var s := c.State();
    var n1 := MarshalSymDef(c, cfg, x.symmetric);
    ghost var s1 := c.State();
    var n2 := MarshalAsymScheme(c, cfg, x.scheme);
    ghost var s2 := c.State();
    var n3 := MarshalUInt16(c, x.curveID);
    ghost var s3 := c.State();
    var n4 := MarshalKdfScheme(c, cfg, x.kdf);
    n := Add16(Add16(Add16(n1, n2), n3), n4);
    SentTriple(t.b.a, t.b.b.a, t.b.b.b, s1, s2, s3, c.State(), n2, n3, n4);
    SentPair(t.a, t.b, s, s1, c.State(), n1, Add16(Add16(n2, n3), n4));
    Add16Assoc(Add16(n1, n2), n3, n4);
    Add16Assoc(n1, n2, Add16(n3, n4));
    Add16Assoc(n2, n3, n4);
  }

  method MarshalPublicParms(c: Cursor, cfg: Config, x: PublicParms, objectType: uint16) returns (n: uint16)
    requires c.State().Room()
    modifies c, c.buf
    ensures Sent(ParmsTree(cfg, objectType, x), old(c.State()), c.State(), n)
  {
    if !Selects(cfg, PUBLIC_ALGS, objectType) {
      SentUnit(c.State());
      n := 0;
    } else if objectType == ALG_KEYEDHASH {
      n := MarshalKeyedHashScheme(c, cfg, x.keyedHash);
    } else if objectType == ALG_SYMCIPHER {
      n := MarshalSymDef(c, cfg, x.sym);
    } else if objectType == ALG_RSA {
      n := MarshalRsaParms(c, cfg, x.rsa);
    } else {
      n := MarshalEccParms(c, cfg, x.ecc);
    }
  }

  method MarshalPublicId(c: Cursor, cfg: Config, x: PublicId, objectType: uint16) returns (n: uint16)
    requires c.State().Room()
    modifies c, c.buf
    ensures Sent(IdTree(cfg, objectType, x), old(c.State()), c.State(), n)
  {
    ghost var s := c.State();
    if !Selects(cfg, PUBLIC_ALGS, objectType) {
      SentUnit(s);
      n := 0;
    } else if objectType == ALG_ECC {
      var n1 := MarshalBlob(c, x.ecc.x);
      ghost var s1 := c.State();
      var n2 := MarshalBlob(c, x.ecc.y);
      SentPair(Data(x.ecc.x), Data(x.ecc.y), s, s1, c.State(), n1, n2);
      n := Add16(n1, n2);
    } else {
      n := MarshalBlob(c, x.buffer);
    }
  }

  // ---------- public and sensitive areas ----------

  lemma SentPublic(cfg: Config, x: TpmtPublic, s: Snap, s0: Snap, s1: Snap, s2: Snap, s3: Snap, s4: Snap, s5: Snap,
                   n0: uint16, n1: uint16, n2: uint16, n3: uint16, n4: uint16, n5: uint16)
    requires Sent(Num(2, x.objectType), s, s0, n0) && Sent(Num(2, x.nameAlg), s0, s1, n1)
    requires Sent(Num(4, x.objectAttributes), s1, s2, n2) && Sent(Data(x.authPolicy), s2, s3, n3)
    requires Sent(ParmsTree(cfg, x.objectType, x.parameters), s3, s4, n4)
    requires Sent(IdTree(cfg, x.objectType, x.unique), s4, s5, n5)
    ensures Sent(PublicTree(cfg, x), s, s5, Add16(Add16(Add16(Add16(Add16(n0, n1), n2), n3), n4), n5))
  {
    var t := PublicTree(cfg, x).arm;
    var m3 := Add16(Add16(n3, n4), n5);
    var m2 := Add16(n2, m3);
    SentTriple(t.b.b.a, t.b.b.b.a, t.b.b.b.b, s2, s3, s4, s5, n3, n4, n5);
    SentPair(t.b.a, t.b.b, s1, s2, s5, n2, m3);
    SentPair(t.a, t.b, s0, s1, s5, n1, m2);
    SentTag(2, x.objectType, t, s, s0, s5, n0, Add16(n1, m2));
    var l := Add16(n0, n1);
    Add16Assoc(Add16(Add16(l, n2), n3), n4, n5);
    Add16Assoc(Add16(l, n2), n3, Add16(n4, n5));
    Add16Assoc(n3, n4, n5);
    Add16Assoc(l, n2, m3);
    Add16Assoc(n0, n1, m2);
  }

  method MarshalPublic(c: Cursor, cfg: Config, x: TpmtPublic) returns (n: uint16)
    requires c.State().Room()
    modifies c, c.buf
    ensures Sent(PublicTree(cfg, x), old(c.State()), c.State(), n)
  {
    ghost var s := c.State();
    var n0 := MarshalUInt16(c, x.objectType);
    ghost var s0 := c.State();
    var n1 := MarshalUInt16(c, x.nameAlg);
    ghost var s1 := c.State();
    var n2 := MarshalUInt32(c, x.objectAttributes);
    ghost var s2 := c.State();
    var n3 := MarshalBlob(c, x.authPolicy);
    ghost var s3 := c.State();
    var n4 := MarshalPublicParms(c, cfg, x.parameters, x.objectType);
    ghost var s4 := c.State();
    var n5 := MarshalPublicId(c, cfg, x.unique, x.objectType);
    SentPublic(cfg, x, s, s0, s1, s2, s3, s4, c.State(), n0, n1, n2, n3, n4, n5);
    n := Add16(Add16(Add16(Add16(Add16(n0, n1), n2), n3), n4), n5);
  }

  lemma SentSensitive(cfg: Config, x: TpmtSensitive, s: Snap, s0: Snap, s1: Snap, s2: Snap, s3: Snap,
                      n0: uint16, n1: uint16, n2: uint16, n3: uint16)
    requires Sent(Num(2, x.sensitiveType), s, s0, n0) && Sent(Data(x.authValue), s0, s1, n1)
    requires Sent(Data(x.seedValue), s1, s2, n2)
    requires Sent(CompositeTree(cfg, x.sensitiveType, x.sensitive), s2, s3, n3)
    ensures Sent(SensitiveTree(cfg, x), s, s3, Add16(Add16(Add16(n0, n1), n2), n3))
  {
    var t := SensitiveTree(cfg, x).arm;
    SentTriple(t.a, t.b.a, t.b.b, s0, s1, s2, s3, n1, n2, n3);
    SentTag(2, x.sensitiveType, t, s, s0, s3, n0, Add16(Add16(n1, n2), n3));
    Add16Assoc(Add16(n0, n1), n2, n3);
    Add16Assoc(n0, n1, Add16(n2, n3));
    Add16Assoc(n1, n2, n3);
  }

  method MarshalSensitive(c: Cursor, cfg: Config, x: TpmtSensitive) returns (n: uint16)
    requires c.State().Room()
    modifies c, c.buf
    ensures Sent(SensitiveTree(cfg, x), old(c.State()), c.State(), n)
  {
    ghost var s := c.State();
    var n0 := MarshalUInt16(c, x.sensitiveType);
    ghost var s0 := c.State();
    var n1 := MarshalBlob(c, x.authValue);
    ghost var s1 := c.State();
    var n2 := MarshalBlob(c, x.seedValue);
    ghost var s2 := c.State();
    var n3: uint16 := 0;
    if Selects(cfg, PUBLIC_ALGS, x.sensitiveType) {
      n3 := MarshalBlob(c, x.sensitive);
    } else {
      SentUnit(s2);
    }
    SentSensitive(cfg, x, s, s0, s1, s2, c.State(), n0, n1, n2, n3);
    n := Add16(Add16(Add16(n0, n1), n2), n3);
  }

  // What is in memory after k bytes of p are written behind a size field at pos, which is filled in
  // last, or not at all.
  function Patched(mem: bytes, pos: nat, p: bytes, k: nat, filled: bool): (r: bytes)
    requires k <= |p| && pos + 2 + k <= |mem|
    ensures |r| == |mem|
  {
    var payload := Splice(mem, pos + 2, p[..k]);
    if filled then Splice(payload, pos, ToBE(2, |p|)) else payload
  }

  // A structure t written behind its size field: the payload as far as the budget reaches, then the
  // size if two bytes of budget are left.
  function BackPatched(t: Tree, s: Snap): (mem: bytes)
    requires Frameless(t) && s.pos + 2 + (if s.size < 0 then 0 else s.size) <= |s.mem|
  {
    FitBounds(t, s.size);
    Patched(s.mem, s.pos, Print(t), Fit(t, s.size), s.size - |Print(t)| >= 2)
  }

  // The size field filled in last, or left alone.
  lemma SizeFilled(mem: bytes, pos: nat, n: uint16, s3: Snap, size: int)
    requires pos + 2 <= |mem| && Sent(Num(2, n), Snap(mem, pos, size), s3, 2)
    ensures s3.mem == (if size >= 2 then Splice(mem, pos, ToBE(2, n)) else mem) && s3.size == size - 2
  {
    if size >= 2 {
      assert ToBE(2, n)[..2] == ToBE(2, n);
    } else {
      SpliceNothing(mem, pos);
      assert ToBE(2, n)[..0] == [];
    }
  }

  lemma BackPatchSteps(t: Tree, s: Snap, s2: Snap, s3: Snap, n: uint16, m: uint16)
    requires Frameless(t) && s.pos + 2 + (if s.size < 0 then 0 else s.size) <= |s.mem|
    requires Sent(t, s.(pos := s.pos + 2), s2, n)
    requires s.pos <= s2.pos && Sent(Num(2, n), s2.(pos := s.pos), s3, m)
    ensures Add16(n, m) == Add16(|Print(t)|, 2)
    ensures s3.size == s.size - |Print(t)| - 2
    ensures |Print(t)| < 0x1_0000 ==> s3.mem == BackPatched(t, s)
  {
    FitBounds(t, s.size);
    SizeFilled(s2.mem, s.pos, n, s3, s2.size);
  }

  // A sized public area: the cursor steps over the size field without charging for it, and the
  // size is written there once the payload has been counted.
  method MarshalPublic2B(c: Cursor, cfg: Config, x: TpmtPublic) returns (n: uint16)
    requires c.pos + 2 + (if c.size < 0 then 0 else c.size) <= c.buf.Length
    modifies c, c.buf
    ensures Frameless(PublicTree(cfg, x)) && n == Add16(|EncodePublic(cfg, x)|, 2)
    ensures c.pos == old(c.pos) + 2 + Fit(PublicTree(cfg, x), old(c.size))
    ensures c.size == old(c.size) - |EncodePublic(cfg, x)| - 2
    ensures |EncodePublic(cfg, x)| < 0x1_0000 ==> c.buf[..] == BackPatched(PublicTree(cfg, x), old(c.State()))
  {
    ghost var s := c.State();
    var sizeField := c.pos;
    c.pos := c.pos + 2;
    n := MarshalPublic(c, cfg, x);
    ghost var s2 := c.State();
    var end := c.pos;
    c.pos := sizeField;
    var m := MarshalUInt16(c, n);
    BackPatchSteps(PublicTree(cfg, x), s, s2, c.State(), n, m);
    c.pos := end;
    n := Add16(n, m);
  }

  lemma PatchedMeaning(mem: bytes, pos: nat, p: bytes, k: nat)
    requires k <= |p| && pos + 2 + k <= |mem|
    ensures k == |p| ==> Patched(mem, pos, p, k, true) == Splice(mem, pos, ToBE(2, |p|) + p)
    ensures Patched(mem, pos, p, k, false)[pos..pos + 2] == mem[pos..pos + 2]
  {
    SpliceAfter(mem, pos, p[..k]);
    if k == |p| {
      assert p[..k] == p;
      SpliceBefore(mem, pos, ToBE(2, |p|), p);
    }
  }

  // Filling the size in last gives the same bytes as writing the size and then the payload exactly
  // when the budget covers both; otherwise the size field keeps what was there.
  lemma BackPatchMeaning(t: Tree, s: Snap)
    requires Frameless(t) && s.pos + 2 + (if s.size < 0 then 0 else s.size) <= |s.mem|
    requires |Print(t)| < 0x1_0000
    ensures |Print(t)| + 2 <= s.size ==> BackPatched(t, s) == Splice(s.mem, s.pos, Print(Frame(t)))
    ensures s.size < |Print(t)| + 2 ==> BackPatched(t, s)[s.pos..s.pos + 2] == s.mem[s.pos..s.pos + 2]
  {
    FitBounds(t, s.size);
    PatchedMeaning(s.mem, s.pos, Print(t), Fit(t, s.size));
  }

  lemma SpliceAfter(mem: bytes, pos: nat, p: bytes)
    requires pos + 2 + |p| <= |mem|
    ensures Splice(mem, pos + 2, p)[pos..pos + 2] == mem[pos..pos + 2]
  {
  }

  lemma SpliceBefore(mem: bytes, pos: nat, p: bytes, q: bytes)
    requires pos + |p| + |q| <= |mem|
    ensures Splice(Splice(mem, pos + |p|, q), pos, p) == Splice(mem, pos, p + q)
  {
    var mid := Splice(mem, pos + |p|, q);
    assert mid[..pos] == mem[..pos];
    assert mid[pos + |p|..] == q + mem[pos + |p| + |q|..];
  }
}
