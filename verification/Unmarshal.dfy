// The unmarshalling routines: each moves the shared cursor and stops at the first error, and each
// is proved to read exactly what its grammar describes.
module Unmarshal {
  import opened Bytes
  import opened WireGrammar
  import opened TpmTypes
  import opened Cursors
  import opened Layouts

  // ---------- integers and bytes ----------

  method UnmarshalUInt8(c: Cursor) returns (rc: Rc, v: byte)
    requires c.State().Ready()
    modifies c
    ensures Took(Word(1, Any), old(c.State()), c.State(), rc, Num(1, v))
  {
    c.size := c.size - 1;
    if c.size < 0 {
      return Insufficient, 0;
    }
    v := c.buf[c.pos];
    BE1(v);
    assert old(c.State()).Available()[..1] == [v];
    c.pos := c.pos + 1;
    rc := Success;
  }

  method UnmarshalUInt16(c: Cursor) returns (rc: Rc, v: uint16)
    requires c.State().Ready()
    modifies c
    ensures Took(Word(2, Any), old(c.State()), c.State(), rc, Num(2, v))
  {
    c.size := c.size - 2;
    if c.size < 0 {
      return Insufficient, 0;
    }
    var high: int := c.buf[c.pos];
    v := 256 * high + c.buf[c.pos + 1];
    BE2(c.buf[c.pos], c.buf[c.pos + 1]);
    assert old(c.State()).Available()[..2] == [c.buf[c.pos], c.buf[c.pos + 1]];
    c.pos := c.pos + 2;
    rc := Success;
  }

  method UnmarshalUInt32(c: Cursor) returns (rc: Rc, v: uint32)
    requires c.State().Ready()
    modifies c
    ensures Took(Word(4, Any), old(c.State()), c.State(), rc, Num(4, v))
  {
    c.size := c.size - 4;
    if c.size < 0 {
      return Insufficient, 0;
    }
    ghost var b := c.buf[c.pos..c.pos + 4];
    var b0: int, b1: int, b2: int := c.buf[c.pos], c.buf[c.pos + 1], c.buf[c.pos + 2];
    v := 0x100_0000 * b0 + 0x1_0000 * b1 + 256 * b2 + c.buf[c.pos + 3];
    BE4(b[0], b[1], b[2], b[3]);
    assert b == [b[0], b[1], b[2], b[3]];
    assert old(c.State()).Available()[..4] == b;
    c.pos := c.pos + 4;
    rc := Success;
  }

  // An algorithm identifier, key size or curve: a UINT16 and then a switch over the values the
  // build accepts.
  method UnmarshalChecked16(c: Cursor, rule: Rule) returns (rc: Rc, v: uint16)
    requires c.State().Ready() && Refusal(rule) != Success
    modifies c
    ensures Took(Word(2, rule), old(c.State()), c.State(), rc, Num(2, v))
  {
    rc, v := UnmarshalUInt16(c);
    if rc != Success {
      return;
    }
    if !Accepts(rule, v) {
      return Refusal(rule), v;
    }
  }

  // A UINT32 and then a check.
  method UnmarshalChecked32(c: Cursor, rule: Rule) returns (rc: Rc, v: uint32)
    requires c.State().Ready() && Refusal(rule) != Success
    modifies c
    ensures Took(Word(4, rule), old(c.State()), c.State(), rc, Num(4, v))
  {
    ghost var s := c.State();
    rc, v := UnmarshalUInt32(c);
    TookChecked(4, rule, s, c.State(), rc, v);
    if rc == Success && !Accepts(rule, v) {
      rc := Refusal(rule);
    }
  }

  // Object attributes: none of the reserved bits may be set.
  method UnmarshalObjectAttributes(c: Cursor) returns (rc: Rc, v: uint32)
    requires c.State().Ready()
    modifies c
    ensures Took(Word(4, NoBits(OBJECT_RESERVED)), old(c.State()), c.State(), rc, Num(4, v))
  {
    rc, v := UnmarshalChecked32(c, NoBits(OBJECT_RESERVED));
  }

  method UnmarshalBytes(c: Cursor, count: nat) returns (rc: Rc, d: bytes)
    requires c.State().Ready()
    modifies c
    ensures c.buf[..] == old(c.buf[..])
    ensures count <= old(c.size) ==>
      rc == Success && d == old(c.State()).Available()[..count]
      && c.pos == old(c.pos) + count && c.size == old(c.size) - count
    ensures count > old(c.size) ==>
      rc == Insufficient && c.pos == old(c.pos) + old(c.size) && c.size == -1
  {
    d := [];
    var i := 0;
    while i < count
      invariant 0 <= i <= count && i <= old(c.size)
      invariant c.buf[..] == old(c.buf[..])
      invariant c.pos == old(c.pos) + i && c.size == old(c.size) - i
      invariant d == old(c.State()).Available()[..i]
    {
      var v;
      ghost var s := c.State();
      rc, v := UnmarshalUInt8(c);
      if rc != Success {
        return;
      }
      BE1(s.Available()[0]);
      assert s.Available()[..1] == [s.Available()[0]];
      assert v == old(c.State()).Available()[i];
      d := d + [v];
      i := i + 1;
    }
    rc := Success;
  }

  // Every TPM2B of plain bytes: a zero size ends it, and only then is the size checked against the
  // capacity of the structure being filled.
  method UnmarshalBlob(c: Cursor, limit: nat) returns (rc: Rc, d: blob)
    requires c.State().Ready()
    modifies c
    ensures Took(Blob(limit), old(c.State()), c.State(), rc, Data(d))
  {
    d := [];
    var size;
    ghost var s := c.State();
    rc, size := UnmarshalUInt16(c);
    if rc != Success {
      return;
    }
    if size == 0 {
      return;
    }
    if size > limit {
      return Size, [];
    }
    ghost var s' := c.State();
    assert s'.Available() == s.Available()[2..];
    var raw;
    rc, raw := UnmarshalBytes(c, size);
    if rc == Success {
      assert s.Available()[2..][..size] == s.Available()[2..2 + size];
      d := raw;
    }
  }

  // ---------- schemes and parameters ----------

  // The members of TPMU_SYM_KEY_BITS and TPMU_SYM_MODE: nothing is selected by ALG_NULL, and no mode
  // by ALG_XOR.
  method UnmarshalSymKeyBits(c: Cursor, cfg: Config, algorithm: uint16) returns (rc: Rc, keyBits: uint16)
    requires c.State().Ready()
    modifies c
    ensures Selects(cfg, SYM_ALGS, algorithm) ==>
      Took(Word(2, SymKeyBits(algorithm)), old(c.State()), c.State(), rc, Num(2, keyBits))
    ensures Selects(cfg, {ALG_XOR}, algorithm) ==>
      Took(Word(2, HashAlg(cfg, false)), old(c.State()), c.State(), rc, Num(2, keyBits))
    ensures !Selects(cfg, SYM_ALGS + {ALG_XOR}, algorithm) ==>
      c.State() == old(c.State()) && rc == (if algorithm == ALG_NULL then Success else Selector) && keyBits == 0
  {
    if algorithm in SYM_ALGS && algorithm in cfg.enabled {
      rc, keyBits := UnmarshalChecked16(c, SymKeyBits(algorithm));
    } else if algorithm == ALG_XOR && ALG_XOR in cfg.enabled {
      rc, keyBits := UnmarshalChecked16(c, HashAlg(cfg, false));
    } else if algorithm == ALG_NULL {
      return Success, 0;
    } else {
      return Selector, 0;
    }
  }

  method UnmarshalSymMode(c: Cursor, cfg: Config, algorithm: uint16) returns (rc: Rc, mode: uint16)
    requires c.State().Ready()
    modifies c
    ensures Selects(cfg, SYM_ALGS, algorithm) ==>
      Took(Word(2, SymMode(cfg)), old(c.State()), c.State(), rc, Num(2, mode))
    ensures !Selects(cfg, SYM_ALGS, algorithm) ==>
      c.State() == old(c.State()) && mode == 0
      && rc == (if algorithm == ALG_NULL || Selects(cfg, {ALG_XOR}, algorithm) then Success else Selector)
  {
    if algorithm in SYM_ALGS && algorithm in cfg.enabled {
      rc, mode := UnmarshalChecked16(c, SymMode(cfg));
    } else if algorithm == ALG_NULL || (algorithm == ALG_XOR && ALG_XOR in cfg.enabled) {
      return Success, 0;
    } else {
      return Selector, 0;
    }
  }

  // The arm a symmetric algorithm that has been accepted selects.
  lemma SymArm(cfg: Config, flag: bool, algorithm: nat)
    requires Accepts(SymObject(cfg, flag), algorithm)
    ensures algorithm in SymDefFmt(cfg, flag).arms
    ensures SymDefFmt(cfg, flag).arms[algorithm] ==
      if algorithm == ALG_NULL then Nothing else Both(Word(2, SymKeyBits(algorithm)), Word(2, SymMode(cfg)))
    ensures algorithm != ALG_NULL <==> Selects(cfg, SYM_ALGS, algorithm)
  {
  }

  // Key bits and mode, for an algorithm that has been accepted.
  method UnmarshalSymDetails(c: Cursor, cfg: Config, flag: bool, algorithm: uint16)
    returns (rc: Rc, keyBits: uint16, mode: uint16)
    requires c.State().Ready() && Accepts(SymObject(cfg, flag), algorithm)
    modifies c
    ensures algorithm in SymDefFmt(cfg, flag).arms
    ensures Took(SymDefFmt(cfg, flag).arms[algorithm], old(c.State()), c.State(), rc,
                 SymDefTree(cfg, SymDef(algorithm, keyBits, mode)).arm)
    ensures rc == Success ==> CleanSym(cfg, SymDef(algorithm, keyBits, mode))
  {
    SymArm(cfg, flag, algorithm);
    mode := 0;
    rc, keyBits := UnmarshalSymKeyBits(c, cfg, algorithm);
    ghost var rc1, s1 := rc, c.State();
    if rc == Success {
      rc, mode := UnmarshalSymMode(c, cfg, algorithm);
    }
    if algorithm != ALG_NULL {
      TookSeq(Word(2, SymKeyBits(algorithm)), Word(2, SymMode(cfg)), old(c.State()), s1, c.State(), rc1, rc,
              Num(2, keyBits), Num(2, mode));
    }
  }

  method UnmarshalSymDef(c: Cursor, cfg: Config, flag: bool) returns (rc: Rc, x: SymDef)
    requires c.State().Ready()
    modifies c
    ensures Took(SymDefFmt(cfg, flag), old(c.State()), c.State(), rc, SymDefTree(cfg, x))
    ensures rc == Success ==> CleanSym(cfg, x)
  {
    var algorithm, keyBits, mode := 0, 0, 0;
    rc, algorithm := UnmarshalChecked16(c, SymObject(cfg, flag));
    ghost var rc1, s1 := rc, c.State();
    if rc == Success {
      rc, keyBits, mode := UnmarshalSymDetails(c, cfg, flag, algorithm);
    }
    x := SymDef(algorithm, keyBits, mode);
    TookTag(2, SymObject(cfg, flag), SymDefFmt(cfg, flag).arms, algorithm, old(c.State()), s1, c.State(), rc1, rc,
            SymDefTree(cfg, x).arm);
  }

  function AsymArm(cfg: Config, scheme: nat): Fmt {
    if scheme in AsymArms(cfg) then AsymArms(cfg)[scheme] else Nothing
  }

  lemma AsymArmIs(cfg: Config, scheme: nat)
    ensures scheme in AsymArms(cfg) <==> scheme == ALG_NULL || Selects(cfg, RSA_SCHEMES + ECC_SCHEMES, scheme)
    ensures AsymArm(cfg, scheme) ==
      if !Selects(cfg, RSA_SCHEMES + ECC_SCHEMES, scheme) then Nothing else AsymDetailsFmt(cfg, scheme)
    ensures scheme == ALG_NULL ==> !Selects(cfg, RSA_SCHEMES + ECC_SCHEMES, scheme)
  {
  }

  // The members of TPMU_ASYM_SCHEME: a hash, a hash and a counter, or nothing.
  method UnmarshalAsymDetails(c: Cursor, cfg: Config, scheme: uint16) returns (rc: Rc, hashAlg: uint16, count: uint16)
    requires c.State().Ready()
    modifies c
    ensures TookMember(scheme in AsymArms(cfg), AsymArm(cfg, scheme), old(c.State()), c.State(), rc,
                       AsymTree(cfg, AsymScheme(scheme, hashAlg, count)).arm)
    ensures CleanAsym(cfg, AsymScheme(scheme, hashAlg, count))
  {
    AsymArmIs(cfg, scheme);
    hashAlg, count := 0, 0;
    if scheme == ALG_NULL {
      return Success, 0, 0;
    }
    if !(scheme in RSA_SCHEMES + ECC_SCHEMES && scheme in cfg.enabled) {
      return Selector, 0, 0;
    }
    if scheme == ALG_RSAES {
      return Success, 0, 0;
    }
    rc, hashAlg := UnmarshalChecked16(c, HashAlg(cfg, false));
    if scheme == ALG_ECDAA {
      ghost var rc1, s1 := rc, c.State();
      if rc == Success {
        rc, count := UnmarshalUInt16(c);
      }
      TookSeq(Word(2, HashAlg(cfg, false)), Word(2, Any), old(c.State()), s1, c.State(), rc1, rc,
              Num(2, hashAlg), Num(2, count));
    }
  }

  method UnmarshalAsymScheme(c: Cursor, cfg: Config, rule: Rule) returns (rc: Rc, x: AsymScheme)
    requires c.State().Ready()
    requires rule == RsaSchemeAlg(cfg) || rule == EccSchemeAlg(cfg)
    modifies c
    ensures Took(Tagged(2, rule, AsymArms(cfg)), old(c.State()), c.State(), rc, AsymTree(cfg, x))
    ensures rc == Success ==> CleanAsym(cfg, x)
  {
    var scheme, hashAlg, count := 0, 0, 0;
    rc, scheme := UnmarshalChecked16(c, rule);
    ghost var rc1, s1 := rc, c.State();
    if rc == Success {
      rc, hashAlg, count := UnmarshalAsymDetails(c, cfg, scheme);
    }
    x := AsymScheme(scheme, hashAlg, count);
    TookTag(2, rule, AsymArms(cfg), scheme, old(c.State()), s1, c.State(), rc1, rc, AsymTree(cfg, x).arm);
  }

  lemma KdfArm(cfg: Config, scheme: nat)
    requires Accepts(KdfAlg(cfg), scheme)
    ensures scheme in KdfSchemeFmt(cfg).arms
    ensures KdfSchemeFmt(cfg).arms[scheme] == if scheme == ALG_NULL then Nothing else Word(2, HashAlg(cfg, false))
    ensures scheme != ALG_NULL <==> Selects(cfg, KDF_ALGS, scheme)
  {
  }

  method UnmarshalKdfScheme(c: Cursor, cfg: Config) returns (rc: Rc, x: KdfScheme)
    requires c.State().Ready()
    modifies c
    ensures Took(KdfSchemeFmt(cfg), old(c.State()), c.State(), rc, KdfSchemeTree(cfg, x))
    ensures rc == Success ==> CleanKdf(cfg, x)
  {
    var scheme, hashAlg := 0, 0;
    rc, scheme := UnmarshalChecked16(c, KdfAlg(cfg));
    ghost var rc1, s1 := rc, c.State();
    if rc == Success {
      KdfArm(cfg, scheme);
    }
    if rc == Success && scheme != ALG_NULL {
      rc, hashAlg := UnmarshalChecked16(c, HashAlg(cfg, false));
    }
    x := KdfScheme(scheme, hashAlg);
    TookTag(2, KdfAlg(cfg), KdfSchemeFmt(cfg).arms, scheme, old(c.State()), s1, c.State(), rc1, rc,
            KdfSchemeTree(cfg, x).arm);
  }

  method UnmarshalXorDetails(c: Cursor, cfg: Config) returns (rc: Rc, hashAlg: uint16, kdf: uint16)
    requires c.State().Ready()
    modifies c
    ensures Took(Both(Word(2, HashAlg(cfg, true)), Word(2, KdfAlg(cfg))), old(c.State()), c.State(), rc,
                 Pair(Num(2, hashAlg), Num(2, kdf)))
  {
    kdf := 0;
    rc, hashAlg := UnmarshalChecked16(c, HashAlg(cfg, true));
    ghost var rc1, s1 := rc, c.State();
    if rc == Success {
      rc, kdf := UnmarshalChecked16(c, KdfAlg(cfg));
    }
    TookSeq(Word(2, HashAlg(cfg, true)), Word(2, KdfAlg(cfg)), old(c.State()), s1, c.State(), rc1, rc,
            Num(2, hashAlg), Num(2, kdf));
  }

  function KeyedHashArm(cfg: Config, scheme: nat): Fmt {
    if Selects(cfg, KEYEDHASH_SCHEMES, scheme) then KeyedHashDetailsFmt(cfg, scheme) else Nothing
  }

  lemma KeyedHashArmIs(cfg: Config, scheme: nat)
    ensures scheme in KeyedHashFmt(cfg).arms <==> scheme == ALG_NULL || Selects(cfg, KEYEDHASH_SCHEMES, scheme)
    ensures scheme in KeyedHashFmt(cfg).arms ==> KeyedHashFmt(cfg).arms[scheme] == KeyedHashArm(cfg, scheme)
    ensures Accepts(KeyedHashSchemeAlg(cfg), scheme) ==> scheme in KeyedHashFmt(cfg).arms
  {
  }

  // The members of TPMU_SCHEME_KEYEDHASH: a hash, or those of an XOR scheme, or nothing.
  method UnmarshalKeyedHashDetails(c: Cursor, cfg: Config, scheme: uint16) returns (rc: Rc, hashAlg: uint16, kdf: uint16)
    requires c.State().Ready()
    modifies c
    ensures TookMember(scheme == ALG_NULL || Selects(cfg, KEYEDHASH_SCHEMES, scheme), KeyedHashArm(cfg, scheme),
                       old(c.State()), c.State(), rc, KeyedHashTree(cfg, KeyedHashScheme(scheme, hashAlg, kdf)).arm)
    ensures CleanKeyedHash(cfg, KeyedHashScheme(scheme, hashAlg, kdf))
  {
    hashAlg, kdf := 0, 0;
    if scheme == ALG_HMAC && ALG_HMAC in cfg.enabled {
      rc, hashAlg := UnmarshalChecked16(c, HashAlg(cfg, false));
    } else if scheme == ALG_XOR && ALG_XOR in cfg.enabled {
      rc, hashAlg, kdf := UnmarshalXorDetails(c, cfg);
    } else if scheme == ALG_NULL {
      return Success, 0, 0;
    } else {
      return Selector, 0, 0;
    }
  }

  method UnmarshalKeyedHashScheme(c: Cursor, cfg: Config) returns (rc: Rc, x: KeyedHashScheme)
    requires c.State().Ready()
    modifies c
    ensures Took(KeyedHashFmt(cfg), old(c.State()), c.State(), rc, KeyedHashTree(cfg, x))
    ensures rc == Success ==> CleanKeyedHash(cfg, x)
  {
    var scheme, hashAlg, kdf := 0, 0, 0;
    rc, scheme := UnmarshalChecked16(c, KeyedHashSchemeAlg(cfg));
    ghost var rc1, s1 := rc, c.State();
    KeyedHashArmIs(cfg, scheme);
    if rc == Success {
      rc, hashAlg, kdf := UnmarshalKeyedHashDetails(c, cfg, scheme);
    }
    x := KeyedHashScheme(scheme, hashAlg, kdf);
    TookTag(2, KeyedHashSchemeAlg(cfg), KeyedHashFmt(cfg).arms, scheme, old(c.State()), s1, c.State(), rc1, rc,
            KeyedHashTree(cfg, x).arm);
  }

  method UnmarshalRsaParms(c: Cursor, cfg: Config) returns (rc: Rc, x: RsaParms)
    requires c.State().Ready()
    modifies c
    ensures Took(RsaParmsFmt(cfg), old(c.State()), c.State(), rc, RsaParmsTree(cfg, x))
    ensures rc == Success ==> CleanRsa(cfg, x)
  {
    var symmetric, scheme, keyBits, exponent := NO_SYM, NO_ASYM, 0, 0;
    rc, symmetric := UnmarshalSymDef(c, cfg, true);
    ghost var rc1, s1 := rc, c.State();
    if rc == Success {
      rc, scheme := UnmarshalAsymScheme(c, cfg, RsaSchemeAlg(cfg));
      ghost var rc2, s2 := rc, c.State();
      if rc == Success {
        rc, keyBits := UnmarshalChecked16(c, RSA_KEY_BITS);
        ghost var rc3, s3 := rc, c.State();
        if rc == Success {
          rc, exponent := UnmarshalUInt32(c);
        }
        TookSeq(Word(2, RSA_KEY_BITS), Word(4, Any), s2, s3, c.State(), rc3, rc, Num(2, keyBits), Num(4, exponent));
      }
      TookSeq(RsaSchemeFmt(cfg), RsaParmsFmt(cfg).second.second, s1, s2, c.State(), rc2, rc,
              AsymTree(cfg, scheme), Pair(Num(2, keyBits), Num(4, exponent)));
    }
    x := RsaParms(symmetric, scheme, keyBits, exponent);
    TookSeq(SymDefFmt(cfg, true), RsaParmsFmt(cfg).second, old(c.State()), s1, c.State(), rc1, rc,
            SymDefTree(cfg, symmetric), RsaParmsTree(cfg, x).b);
  }

  method UnmarshalEccParms(c: Cursor, cfg: Config) returns (rc: Rc, x: EccParms)
    requires c.State().Ready()
    modifies c
    ensures Took(EccParmsFmt(cfg), old(c.State()), c.State(), rc, EccParmsTree(cfg, x))
    ensures rc == Success ==> CleanEcc(cfg, x)
  {
    var symmetric, scheme, curveID, kdf := NO_SYM, NO_ASYM, 0, NO_KDF;
    rc, symmetric := UnmarshalSymDef(c, cfg, true);
    ghost var rc1, s1 := rc, c.State();
    if rc == Success {
      rc, scheme := UnmarshalAsymScheme(c, cfg, EccSchemeAlg(cfg));
      ghost var rc2, s2 := rc, c.State();
      if rc == Success {
        rc, curveID := UnmarshalChecked16(c, EccCurve(cfg));
        ghost var rc3, s3 := rc, c.State();
        if rc == Success {
          rc, kdf := UnmarshalKdfScheme(c, cfg);
        }
        TookSeq(Word(2, EccCurve(cfg)), KdfSchemeFmt(cfg), s2, s3, c.State(), rc3, rc,
                Num(2, curveID), KdfSchemeTree(cfg, kdf));
      }
      TookSeq(EccSchemeFmt(cfg), EccParmsFmt(cfg).second.second, s1, s2, c.State(), rc2, rc,
              AsymTree(cfg, scheme), Pair(Num(2, curveID), KdfSchemeTree(cfg, kdf)));
    }
    x := EccParms(symmetric, scheme, curveID, kdf);
    TookSeq(SymDefFmt(cfg, true), EccParmsFmt(cfg).second, old(c.State()), s1, c.State(), rc1, rc,
            SymDefTree(cfg, symmetric), EccParmsTree(cfg, x).b);
  }

  method UnmarshalPublicParms(c: Cursor, cfg: Config, objectType: uint16) returns (rc: Rc, x: PublicParms)
    requires c.State().Ready()
    modifies c
    ensures TookMember(Selects(cfg, PUBLIC_ALGS, objectType), ParmsFmt(cfg, objectType), old(c.State()), c.State(), rc,
                       ParmsTree(cfg, objectType, x))
    ensures rc == Success ==> CleanParms(cfg, objectType, x)
  {
    x := NO_PARMS;
    if !(objectType in PUBLIC_ALGS && objectType in cfg.enabled) {
      return Selector, x;
    }
    var keyedHash, sym, rsa, ecc := NO_KEYEDHASH, NO_SYM, NO_RSA, NO_ECC;
    if objectType == ALG_KEYEDHASH {
      rc, keyedHash := UnmarshalKeyedHashScheme(c, cfg);
    } else if objectType == ALG_SYMCIPHER {
      rc, sym := UnmarshalSymDef(c, cfg, false);
    } else if objectType == ALG_RSA {
      rc, rsa := UnmarshalRsaParms(c, cfg);
    } else {
      rc, ecc := UnmarshalEccParms(c, cfg);
    }
    x := PublicParms(keyedHash, sym, rsa, ecc);
  }

  method UnmarshalEccPoint(c: Cursor, cfg: Config) returns (rc: Rc, p: EccPoint)
    requires c.State().Ready()
    modifies c
    ensures Took(Both(Blob(cfg.maxEccKeyBytes), Blob(cfg.maxEccKeyBytes)), old(c.State()), c.State(), rc,
                 Pair(Data(p.x), Data(p.y)))
  {
    var x, y := [], [];
    rc, x := UnmarshalBlob(c, cfg.maxEccKeyBytes);
    ghost var rc1, s1 := rc, c.State();
    if rc == Success {
      rc, y := UnmarshalBlob(c, cfg.maxEccKeyBytes);
    }
    p := EccPoint(x, y);
    TookSeq(Blob(cfg.maxEccKeyBytes), Blob(cfg.maxEccKeyBytes), old(c.State()), s1, c.State(), rc1, rc,
            Data(x), Data(y));
  }

  method UnmarshalPublicId(c: Cursor, cfg: Config, objectType: uint16) returns (rc: Rc, x: PublicId)
    requires c.State().Ready()
    modifies c
    ensures TookMember(Selects(cfg, PUBLIC_ALGS, objectType), IdFmt(cfg, objectType), old(c.State()), c.State(), rc,
                       IdTree(cfg, objectType, x))
    ensures rc == Success ==> CleanId(objectType, x)
  {
    x := NO_ID;
    if !(objectType in PUBLIC_ALGS && objectType in cfg.enabled) {
      return Selector, x;
    }
    if objectType == ALG_ECC {
      var p;
      rc, p := UnmarshalEccPoint(c, cfg);
      x := x.(ecc := p);
    } else {
      var d;
      rc, d := UnmarshalBlob(c, if objectType == ALG_RSA then cfg.maxRsaKeyBytes else cfg.maxDigest);
      x := x.(buffer := d);
    }
  }

  // ---------- public areas ----------

  // Policy, parameters and unique field.
  method UnmarshalPublicTail(c: Cursor, cfg: Config, objectType: uint16)
    returns (rc: Rc, policy: blob, parms: PublicParms, unique: PublicId)
    requires c.State().Ready() && Selects(cfg, PUBLIC_ALGS, objectType)
    modifies c
    ensures Took(Both(Blob(cfg.maxDigest), Both(ParmsFmt(cfg, objectType), IdFmt(cfg, objectType))),
                 old(c.State()), c.State(), rc,
                 Pair(Data(policy), Pair(ParmsTree(cfg, objectType, parms), IdTree(cfg, objectType, unique))))
    ensures rc == Success ==> CleanParms(cfg, objectType, parms) && CleanId(objectType, unique)
  {
    parms, unique := NO_PARMS, NO_ID;
    ghost var f, g := ParmsFmt(cfg, objectType), IdFmt(cfg, objectType);
    rc, policy := UnmarshalBlob(c, cfg.maxDigest);
    ghost var rc1, s1 := rc, c.State();
    if rc == Success {
      rc, parms := UnmarshalPublicParms(c, cfg, objectType);
      ghost var rc2, s2 := rc, c.State();
      if rc == Success {
        rc, unique := UnmarshalPublicId(c, cfg, objectType);
      }
      TookSeq(f, g, s1, s2, c.State(), rc2, rc, ParmsTree(cfg, objectType, parms), IdTree(cfg, objectType, unique));
    }
    TookSeq(Blob(cfg.maxDigest), Both(f, g), old(c.State()), s1, c.State(), rc1, rc, Data(policy),
            Pair(ParmsTree(cfg, objectType, parms), IdTree(cfg, objectType, unique)));
  }

  // Everything of a public area after its type.
  method UnmarshalPublicBody(c: Cursor, cfg: Config, flag: bool, objectType: uint16) returns (rc: Rc, x: TpmtPublic)
    requires c.State().Ready() && Selects(cfg, PUBLIC_ALGS, objectType)
    modifies c
    ensures Took(PublicBodyFmt(cfg, flag, objectType), old(c.State()), c.State(), rc, PublicTree(cfg, x).arm)
    ensures x.objectType == objectType && (rc == Success ==> CleanPublic(cfg, x))
  {
    var nameAlg, attributes, policy, parms, unique := 0, 0, [], NO_PARMS, NO_ID;
    ghost var f := PublicBodyFmt(cfg, flag, objectType);
    rc, nameAlg := UnmarshalChecked16(c, HashAlg(cfg, flag));
    ghost var rc1, s1 := rc, c.State();
    if rc == Success {
      rc, attributes := UnmarshalObjectAttributes(c);
      ghost var rc2, s2 := rc, c.State();
      if rc == Success {
        rc, policy, parms, unique := UnmarshalPublicTail(c, cfg, objectType);
      }
      TookSeq(f.second.first, f.second.second, s1, s2, c.State(), rc2, rc, Num(4, attributes),
              Pair(Data(policy), Pair(ParmsTree(cfg, objectType, parms), IdTree(cfg, objectType, unique))));
    }
    x := TpmtPublic(objectType, nameAlg, attributes, policy, parms, unique);
    TookSeq(f.first, f.second, old(c.State()), s1, c.State(), rc1, rc, Num(2, nameAlg), PublicTree(cfg, x).arm.b);
  }

  method UnmarshalPublic(c: Cursor, cfg: Config, flag: bool) returns (rc: Rc, x: TpmtPublic)
    requires c.State().Ready()
    modifies c
    ensures Took(PublicFmt(cfg, flag), old(c.State()), c.State(), rc, PublicTree(cfg, x))
    ensures rc == Success ==> CleanPublic(cfg, x)
    ensures rc == Success <==> exists y :: PublicFits(cfg, flag, y) && PublicBytes(y) <= old(c.State().Available())
    ensures rc == Success ==> PublicFits(cfg, flag, x) && PublicBytes(x) <= old(c.State().Available())
  {
    var objectType;
    rc, objectType := UnmarshalChecked16(c, PublicAlg(cfg));
    x := TpmtPublic(objectType, 0, 0, [], NO_PARMS, NO_ID);
    ghost var rc1, s1 := rc, c.State();
    if rc == Success {
      rc, x := UnmarshalPublicBody(c, cfg, flag, objectType);
    }
    TookTag(2, PublicAlg(cfg), PublicFmt(cfg, flag).arms, objectType, old(c.State()), s1, c.State(), rc1, rc,
            PublicTree(cfg, x).arm);
    PublicAccepted(cfg, flag, old(c.State()), c.State(), rc, x);
  }

  // A sized public area: an empty one is refused, and the size has to be the number of bytes the
  // structure took.
  method UnmarshalPublic2B(c: Cursor, cfg: Config, flag: bool) returns (rc: Rc, size: uint16, x: TpmtPublic)
    requires c.State().Ready()
    modifies c
    ensures Took(Public2BFmt(cfg, flag), old(c.State()), c.State(), rc, Frame(PublicTree(cfg, x)))
    ensures rc == Success ==> CleanPublic(cfg, x) && size == |EncodePublic(cfg, x)|
  {
    x := TpmtPublic(0, 0, 0, [], NO_PARMS, NO_ID);
    rc, size := UnmarshalUInt16(c);
    if rc != Success {
      return;
    }
    if size == 0 {
      return Size, 0, x;
    }
    ghost var s1 := c.State();
    var startSize := c.size;
    TookRest(Word(2, Any), old(c.State()), s1, Num(2, size));
    rc, x := UnmarshalPublic(c, cfg, flag);
    TookSized(PublicFmt(cfg, flag), false, size, old(c.State()), s1, c.State(), rc, PublicTree(cfg, x));
    if rc != Success {
      return;
    }
    if size != startSize - c.size {
      return Size, size, x;
    }
  }

  // ---------- sensitive areas ----------

  method UnmarshalComposite(c: Cursor, cfg: Config, sensitiveType: uint16) returns (rc: Rc, d: blob)
    requires c.State().Ready()
    modifies c
    ensures TookMember(Selects(cfg, PUBLIC_ALGS, sensitiveType), Blob(CompositeLimit(cfg, sensitiveType)),
                       old(c.State()), c.State(), rc, Data(d))
    ensures rc == Selector <==> !IsType(cfg, sensitiveType)
    ensures rc == Success ==> SecretFits(cfg, sensitiveType, |d|)
    ensures var b := old(c.State().Available());
      IsType(cfg, sensitiveType) && |b| >= 2 && !SecretFits(cfg, sensitiveType, First16(b)) ==> rc == Size
  {
    if !(sensitiveType in PUBLIC_ALGS && sensitiveType in cfg.enabled) {
      return Selector, [];
    }
    rc, d := UnmarshalBlob(c, CompositeLimit(cfg, sensitiveType));
    SecretRead(cfg, sensitiveType, old(c.State()), c.State(), rc, d);
  }

  method UnmarshalSensitiveBody(c: Cursor, cfg: Config, sensitiveType: uint16) returns (rc: Rc, x: TpmtSensitive)
    requires c.State().Ready() && Selects(cfg, PUBLIC_ALGS, sensitiveType)
    modifies c
    ensures Took(SensitiveBodyFmt(cfg, sensitiveType), old(c.State()), c.State(), rc, SensitiveTree(cfg, x).arm)
    ensures x.sensitiveType == sensitiveType
  {
    var auth, seed, sensitive := [], [], [];
    ghost var f := SensitiveBodyFmt(cfg, sensitiveType);
    rc, auth := UnmarshalBlob(c, cfg.maxDigest);
    ghost var rc1, s1 := rc, c.State();
    if rc == Success {
      rc, seed := UnmarshalBlob(c, cfg.maxDigest);
      ghost var rc2, s2 := rc, c.State();
      if rc == Success {
        rc, sensitive := UnmarshalComposite(c, cfg, sensitiveType);
      }
      TookSeq(Blob(cfg.maxDigest), f.second.second, s1, s2, c.State(), rc2, rc, Data(seed), Data(sensitive));
    }
    x := TpmtSensitive(sensitiveType, auth, seed, sensitive);
    TookSeq(Blob(cfg.maxDigest), f.second, old(c.State()), s1, c.State(), rc1, rc, Data(auth),
            Pair(Data(seed), Data(sensitive)));
  }

  method UnmarshalSensitive(c: Cursor, cfg: Config) returns (rc: Rc, x: TpmtSensitive)
    requires c.State().Ready()
    modifies c
    ensures Took(SensitiveFmt(cfg), old(c.State()), c.State(), rc, SensitiveTree(cfg, x))
    ensures rc == Success <==> exists y :: SensitiveFits(cfg, y) && SensitiveBytes(y) <= old(c.State().Available())
    ensures rc == Success ==> SensitiveFits(cfg, x) && SensitiveBytes(x) <= old(c.State().Available())
  {
    var sensitiveType;
    rc, sensitiveType := UnmarshalChecked16(c, PublicAlg(cfg));
    x := TpmtSensitive(sensitiveType, [], [], []);
    ghost var rc1, s1 := rc, c.State();
    if rc == Success {
      rc, x := UnmarshalSensitiveBody(c, cfg, sensitiveType);
    }
    TookTag(2, PublicAlg(cfg), SensitiveFmt(cfg).arms, sensitiveType, old(c.State()), s1, c.State(), rc1, rc,
            SensitiveTree(cfg, x).arm);
    SensitiveAccepted(cfg, old(c.State()), c.State(), rc, x);
  }

  // A sized sensitive area: an empty one is accepted and leaves the structure alone.
  method UnmarshalSensitive2B(c: Cursor, cfg: Config) returns (rc: Rc, size: uint16, x: Option<TpmtSensitive>)
    requires c.State().Ready()
    modifies c
    ensures Took(Sensitive2BFmt(cfg), old(c.State()), c.State(), rc,
                 if x.Some? then Frame(SensitiveTree(cfg, x.value)) else NoFrame)
    ensures rc == Success ==> if x.Some? then size == |EncodeSensitive(cfg, x.value)| else size == 0
  {
    x := None;
    rc, size := UnmarshalUInt16(c);
    if rc != Success || size == 0 {
      return;
    }
    ghost var s1 := c.State();
    var startSize := c.size;
    TookRest(Word(2, Any), old(c.State()), s1, Num(2, size));
    var v;
    rc, v := UnmarshalSensitive(c, cfg);
    x := Some(v);
    TookSized(SensitiveFmt(cfg), true, size, old(c.State()), s1, c.State(), rc, SensitiveTree(cfg, v));
    if rc != Success {
      return;
    }
    if size != startSize - c.size {
      return Size, size, x;
    }
  }
}
