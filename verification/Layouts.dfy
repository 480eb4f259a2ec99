// What the structures are on the wire, byte by byte, and which values their fields may have: the
// tables of part 2 of the TPM 2.0 Library written out, apart from the grammars, and the proofs that
// the grammars describe just that.
module Layouts {
  import opened Bytes
  import opened WireGrammar
  import opened TpmTypes
  import opened Cursors

  // ---------- numbers and buffers ----------

  function Be16(n: uint16): (s: bytes)
    ensures |s| == 2
  {
    [n / 256, n % 256]
  }

  function Be32(n: uint32): (s: bytes)
    ensures |s| == 4
  {
    [n / 0x100_0000, n / 0x1_0000 % 256, n / 256 % 256, n % 256]
  }

  // A buffer behind its size.
  function Buffer2B(d: blob): bytes { Be16(|d|) + d }

  lemma NumLayout(n: nat)
    ensures n < 0x1_0000 ==> Print(Num(2, n)) == Be16(n)
    ensures n < 0x1_0000_0000 ==> Print(Num(4, n)) == Be32(n)
  {
    if n < 0x1_0000 {
      Short(n);
    }
    if n < 0x1_0000_0000 {
      Bytes32(n);
    }
  }

  lemma Short(n: uint16)
    ensures ToBE(2, n) == Be16(n)
  {
    BE2(n / 256, n % 256);
    ToFromBE([n / 256, n % 256]);
  }

  lemma BufferLayout(d: blob)
    ensures Print(Data(d)) == Buffer2B(d)
  {
    Short(|d|);
  }

  // ---------- sensitive areas ----------

  // Table 2:189: type, authorization value, seed value, and the secret itself.
  function SensitiveBytes(x: TpmtSensitive): bytes {
    Be16(x.sensitiveType) + Buffer2B(x.authValue) + Buffer2B(x.seedValue) + Buffer2B(x.sensitive)
  }

  // The secret has the limit of its type: half the modulus for RSA, a coordinate for ECC, and the data
  // of a keyed hash or the key of a symmetric object.
  predicate SecretFits(cfg: Config, sensitiveType: nat, n: nat) {
    (sensitiveType == 0x0001 && n <= cfg.maxRsaKeyBytes / 2)
    || (sensitiveType == 0x0023 && n <= cfg.maxEccKeyBytes)
    || (sensitiveType == 0x0008 && n <= cfg.maxSymData)
    || (sensitiveType == 0x0025 && n <= cfg.maxSymKeyBytes)
  }

  // The types of objects, as far as they are compiled in.
  predicate IsType(cfg: Config, t: nat) {
    (t == 0x0001 || t == 0x0008 || t == 0x0023 || t == 0x0025) && t in cfg.enabled
  }

  predicate SensitiveFits(cfg: Config, x: TpmtSensitive) {
    IsType(cfg, x.sensitiveType) && |x.authValue| <= cfg.maxDigest && |x.seedValue| <= cfg.maxDigest
    && SecretFits(cfg, x.sensitiveType, |x.sensitive|)
  }

  lemma SensitiveLayout(cfg: Config, x: TpmtSensitive)
    requires IsType(cfg, x.sensitiveType)
    ensures EncodeSensitive(cfg, x) == SensitiveBytes(x)
  {
    Short(x.sensitiveType);
    BufferLayout(x.authValue);
    BufferLayout(x.seedValue);
    BufferLayout(x.sensitive);
    var t := SensitiveTree(cfg, x).arm;
    PairLayout(t.b.a, t.b.b);
    PairLayout(t.a, t.b);
    TagLayout(x.sensitiveType, t);
    assert t.b.b == Data(x.sensitive);
  }

  lemma PairLayout(a: Tree, b: Tree)
    ensures Print(Pair(a, b)) == Print(a) + Print(b)
  {
  }

  lemma TagLayout(tag: uint16, arm: Tree)
    ensures Print(Tag(2, tag, arm)) == Be16(tag) + Print(arm)
  {
    Short(tag);
  }

  lemma TagConforms(rule: Rule, arms: map<nat, Fmt>, tag: uint16, arm: Tree)
    ensures Conforms(Tagged(2, rule, arms), Tag(2, tag, arm))
      <==> Accepts(rule, tag) && tag in arms && Conforms(arms[tag], arm)
  {
    Widths();
  }

  lemma BothConform(f: Fmt, g: Fmt, a: Tree, b: Tree)
    ensures Conforms(Both(f, g), Pair(a, b)) <==> Conforms(f, a) && Conforms(g, b)
  {
  }

  lemma WordConforms(rule: Rule, n: uint16)
    ensures Conforms(Word(2, rule), Num(2, n)) <==> Accepts(rule, n)
  {
    Widths();
  }

  // A sensitive area is well formed exactly when its type is compiled in and its buffers fit.
  lemma SensitiveExactly(cfg: Config, x: TpmtSensitive)
    ensures WellFormedSensitive(cfg, x) <==> SensitiveFits(cfg, x)
  {
    var f, t := SensitiveBodyFmt(cfg, x.sensitiveType), SensitiveTree(cfg, x).arm;
    assert Conforms(f, t) <==> Conforms(f.first, t.a) && Conforms(f.second, t.b);
    assert Conforms(f.second, t.b) <==> Conforms(f.second.first, t.b.a) && Conforms(f.second.second, t.b.b);
  }

  // ---------- the fields of public areas ----------

  predicate HashFits(cfg: Config, orNull: bool, h: nat) {
    ((h == 0x0004 || h == 0x000B || h == 0x000C || h == 0x000D || h == 0x0012) && h in cfg.enabled)
    || (orNull && h == 0x0010)
  }

  predicate ModeFits(cfg: Config, m: nat) { (0x0040 <= m <= 0x0044 && m in cfg.enabled) || m == 0x0010 }

  predicate SymAlgFits(cfg: Config, orNull: bool, a: nat) {
    ((a == 0x0006 || a == 0x0013 || a == 0x0026) && a in cfg.enabled) || (orNull && a == 0x0010)
  }

  // Only AES has keys of 256 bits.
  predicate SymFits(cfg: Config, orNull: bool, x: SymDef) {
    SymAlgFits(cfg, orNull, x.algorithm)
    && if x.algorithm == 0x0010 then x.keyBits == 0 && x.mode == 0
       else (x.keyBits == 128 || (x.keyBits == 256 && x.algorithm == 0x0006)) && ModeFits(cfg, x.mode)
  }

  predicate RsaAlgFits(cfg: Config, a: nat) {
    ((a == 0x0014 || a == 0x0015 || a == 0x0016 || a == 0x0017) && a in cfg.enabled) || a == 0x0010
  }

  predicate EccAlgFits(cfg: Config, a: nat) {
    ((a == 0x0018 || a == 0x0019 || a == 0x001A || a == 0x001B || a == 0x001C || a == 0x001D) && a in cfg.enabled)
    || a == 0x0010
  }

  // Every scheme but RSAES has a hash, and ECDAA a count.
  predicate DetailsFit(cfg: Config, x: AsymScheme) {
    if x.scheme == 0x0010 || x.scheme == 0x0015 then x.hashAlg == 0 && x.count == 0
    else HashFits(cfg, false, x.hashAlg) && (x.scheme == 0x001A || x.count == 0)
  }

  predicate KdfAlgFits(cfg: Config, a: nat) {
    ((a == 0x0007 || a == 0x0020 || a == 0x0021 || a == 0x0022) && a in cfg.enabled) || a == 0x0010
  }

  predicate KdfFits(cfg: Config, x: KdfScheme) {
    KdfAlgFits(cfg, x.scheme) && if x.scheme == 0x0010 then x.hashAlg == 0 else HashFits(cfg, false, x.hashAlg)
  }

  predicate KeyedHashAlgFits(cfg: Config, a: nat) { ((a == 0x0005 || a == 0x000A) && a in cfg.enabled) || a == 0x0010 }

  predicate KeyedHashFits(cfg: Config, x: KeyedHashScheme) {
    KeyedHashAlgFits(cfg, x.scheme)
    && if x.scheme == 0x0010 then x.hashAlg == 0 && x.kdf == 0
       else if x.scheme == 0x0005 then HashFits(cfg, false, x.hashAlg) && x.kdf == 0
       else HashFits(cfg, true, x.hashAlg) && KdfAlgFits(cfg, x.kdf)
  }

  // Two curves are accepted everywhere, and one more depending on the platform.
  predicate CurveFits(cfg: Config, c: nat) {
    c == 0x0003 || c == 0x0010 || (cfg.platform == IntelSmx && c == 0x0020) || (cfg.platform == GenericPlatform && c == 0x0004)
  }

  predicate RsaFits(cfg: Config, x: RsaParms) {
    SymFits(cfg, true, x.symmetric) && RsaAlgFits(cfg, x.scheme.scheme) && DetailsFit(cfg, x.scheme)
    && (x.keyBits == 1024 || x.keyBits == 2048)
  }

  predicate EccFits(cfg: Config, x: EccParms) {
    SymFits(cfg, true, x.symmetric) && EccAlgFits(cfg, x.scheme.scheme) && DetailsFit(cfg, x.scheme)
    && CurveFits(cfg, x.curveID) && KdfFits(cfg, x.kdf)
  }

  predicate ParmsFit(cfg: Config, objectType: nat, x: PublicParms) {
    (if objectType == 0x0008 then KeyedHashFits(cfg, x.keyedHash) else x.keyedHash == NO_KEYEDHASH)
    && (if objectType == 0x0025 then SymFits(cfg, false, x.sym) else x.sym == NO_SYM)
    && (if objectType == 0x0001 then RsaFits(cfg, x.rsa) else x.rsa == NO_RSA)
    && (if objectType == 0x0023 then EccFits(cfg, x.ecc) else x.ecc == NO_ECC)
  }

  predicate IdFits(cfg: Config, objectType: nat, x: PublicId) {
    if objectType == 0x0023 then x.buffer == [] && |x.ecc.x| <= cfg.maxEccKeyBytes && |x.ecc.y| <= cfg.maxEccKeyBytes
    else x.ecc == EccPoint([], []) && |x.buffer| <= if objectType == 0x0001 then cfg.maxRsaKeyBytes else cfg.maxDigest
  }

  // No reserved bit is set.
  predicate AttributesFit(a: uint32) { (a as bv32) & 0xfff8f309 == 0 }

  predicate PublicFits(cfg: Config, flag: bool, x: TpmtPublic) {
    IsType(cfg, x.objectType) && HashFits(cfg, flag, x.nameAlg)
    && AttributesFit(x.objectAttributes) && |x.authPolicy| <= cfg.maxDigest
    && ParmsFit(cfg, x.objectType, x.parameters) && IdFits(cfg, x.objectType, x.unique)
  }

  // ---------- public areas ----------

  function SymBytes(x: SymDef): bytes {
    Be16(x.algorithm) + if x.algorithm == 0x0010 then [] else Be16(x.keyBits) + Be16(x.mode)
  }

  function AsymBytes(x: AsymScheme): bytes {
    Be16(x.scheme)
    + (if x.scheme == 0x0010 || x.scheme == 0x0015 then [] else Be16(x.hashAlg))
    + (if x.scheme == 0x001A then Be16(x.count) else [])
  }

  function KdfBytes(x: KdfScheme): bytes { Be16(x.scheme) + if x.scheme == 0x0010 then [] else Be16(x.hashAlg) }

  function KeyedHashBytes(x: KeyedHashScheme): bytes {
    Be16(x.scheme) + (if x.scheme == 0x0010 then [] else Be16(x.hashAlg)) + (if x.scheme == 0x000A then Be16(x.kdf) else [])
  }

  function ParmsBytes(objectType: nat, x: PublicParms): bytes {
    if objectType == 0x0008 then KeyedHashBytes(x.keyedHash)
    else if objectType == 0x0025 then SymBytes(x.sym)
    else if objectType == 0x0001 then
      SymBytes(x.rsa.symmetric) + AsymBytes(x.rsa.scheme) + Be16(x.rsa.keyBits) + Be32(x.rsa.exponent)
    else SymBytes(x.ecc.symmetric) + AsymBytes(x.ecc.scheme) + Be16(x.ecc.curveID) + KdfBytes(x.ecc.kdf)
  }

  function IdBytes(objectType: nat, x: PublicId): bytes {
    if objectType == 0x0023 then Buffer2B(x.ecc.x) + Buffer2B(x.ecc.y) else Buffer2B(x.buffer)
  }

  // Table 2:184: type, name algorithm, attributes, policy, parameters and unique field.
  function PublicBytes(x: TpmtPublic): bytes {
    Be16(x.objectType) + Be16(x.nameAlg) + Be32(x.objectAttributes) + Buffer2B(x.authPolicy)
    + ParmsBytes(x.objectType, x.parameters) + IdBytes(x.objectType, x.unique)
  }

  // ---------- the rules accept just these values ----------

  lemma HashRule(cfg: Config, orNull: bool, n: nat)
    ensures Accepts(HashAlg(cfg, orNull), n) <==> HashFits(cfg, orNull, n)
  {
  }

  lemma ModeRule(cfg: Config, n: nat)
    ensures Accepts(SymMode(cfg), n) <==> ModeFits(cfg, n)
  {
  }

  lemma SymRule(cfg: Config, orNull: bool, n: nat)
    ensures Accepts(SymObject(cfg, orNull), n) <==> SymAlgFits(cfg, orNull, n)
  {
  }

  lemma SymKeyRule(a: nat, n: nat)
    ensures Accepts(SymKeyBits(a), n) <==> n == 128 || (n == 256 && a == 0x0006)
  {
  }

  lemma RsaRule(cfg: Config, n: nat)
    ensures Accepts(RsaSchemeAlg(cfg), n) <==> RsaAlgFits(cfg, n)
  {
  }

  lemma EccRule(cfg: Config, n: nat)
    ensures Accepts(EccSchemeAlg(cfg), n) <==> EccAlgFits(cfg, n)
  {
  }

  lemma KdfRule(cfg: Config, n: nat)
    ensures Accepts(KdfAlg(cfg), n) <==> KdfAlgFits(cfg, n)
  {
  }

  lemma KeyedHashRule(cfg: Config, n: nat)
    ensures Accepts(KeyedHashSchemeAlg(cfg), n) <==> KeyedHashAlgFits(cfg, n)
  {
  }

  lemma RsaKeyRule(n: nat)
    ensures Accepts(RSA_KEY_BITS, n) <==> n == 1024 || n == 2048
  {
  }

  lemma CurveRule(cfg: Config, n: nat)
    ensures Accepts(EccCurve(cfg), n) <==> CurveFits(cfg, n)
  {
  }

  lemma TypeRule(cfg: Config, n: nat)
    ensures Accepts(PublicAlg(cfg), n) <==> IsType(cfg, n)
  {
  }

  // ---------- the parts ----------

  // Key bits and mode, if there is an algorithm.
  lemma SymArm(cfg: Config, orNull: bool, x: SymDef)
    requires SymAlgFits(cfg, orNull, x.algorithm)
    ensures var arm, arms := SymDefTree(cfg, x).arm, SymDefFmt(cfg, orNull).arms;
      x.algorithm in arms
      && (if x.algorithm == 0x0010 then arm == Unit && arms[x.algorithm] == Nothing
          else arm == Pair(Num(2, x.keyBits), Num(2, x.mode))
               && arms[x.algorithm] == Both(Word(2, SymKeyBits(x.algorithm)), Word(2, SymMode(cfg))))
  {
  }

  lemma SymPair(cfg: Config, x: SymDef)
    ensures Conforms(Both(Word(2, SymKeyBits(x.algorithm)), Word(2, SymMode(cfg))), Pair(Num(2, x.keyBits), Num(2, x.mode)))
      <==> Accepts(SymKeyBits(x.algorithm), x.keyBits) && Accepts(SymMode(cfg), x.mode)
    ensures Print(Pair(Num(2, x.keyBits), Num(2, x.mode))) == Be16(x.keyBits) + Be16(x.mode)
  {
    BothConform(Word(2, SymKeyBits(x.algorithm)), Word(2, SymMode(cfg)), Num(2, x.keyBits), Num(2, x.mode));
    WordConforms(SymKeyBits(x.algorithm), x.keyBits);
    WordConforms(SymMode(cfg), x.mode);
    NumLayout(x.keyBits);
    NumLayout(x.mode);
    PairLayout(Num(2, x.keyBits), Num(2, x.mode));
  }

  lemma SymLayout(cfg: Config, orNull: bool, x: SymDef)
    ensures Conforms(SymDefFmt(cfg, orNull), SymDefTree(cfg, x)) && CleanSym(cfg, x) <==> SymFits(cfg, orNull, x)
    ensures SymFits(cfg, orNull, x) ==> Print(SymDefTree(cfg, x)) == SymBytes(x)
  {
    var f, a := SymDefFmt(cfg, orNull), x.algorithm;
    TagConforms(f.rule, f.arms, a, SymDefTree(cfg, x).arm);
    SymRule(cfg, orNull, a);
    TagLayout(a, SymDefTree(cfg, x).arm);
    if SymAlgFits(cfg, orNull, a) {
      SymArm(cfg, orNull, x);
      SymPair(cfg, x);
      SymKeyRule(a, x.keyBits);
      ModeRule(cfg, x.mode);
    }
  }

  // The details of a scheme that is selected.
  lemma DetailsLayout(cfg: Config, x: AsymScheme)
    requires Selects(cfg, RSA_SCHEMES + ECC_SCHEMES, x.scheme)
    ensures Conforms(AsymDetailsFmt(cfg, x.scheme), AsymTree(cfg, x).arm) && CleanAsym(cfg, x) <==> DetailsFit(cfg, x)
    ensures Be16(x.scheme) + Print(AsymTree(cfg, x).arm) == AsymBytes(x)
  {
    HashRule(cfg, false, x.hashAlg);
    WordConforms(HashAlg(cfg, false), x.hashAlg);
    WordConforms(Any, x.count);
    BothConform(Word(2, HashAlg(cfg, false)), Word(2, Any), Num(2, x.hashAlg), Num(2, x.count));
    NumLayout(x.hashAlg);
    NumLayout(x.count);
  }

  lemma SelectedArm(cfg: Config, scheme: nat)
    requires Selects(cfg, RSA_SCHEMES + ECC_SCHEMES, scheme)
    ensures scheme in AsymArms(cfg) && AsymArms(cfg)[scheme] == AsymDetailsFmt(cfg, scheme)
  {
  }

  lemma AsymLayout(cfg: Config, rule: Rule, fits: bool, x: AsymScheme)
    requires Accepts(rule, x.scheme) == fits
    requires fits && x.scheme != 0x0010 ==> Selects(cfg, RSA_SCHEMES + ECC_SCHEMES, x.scheme)
    ensures Conforms(Tagged(2, rule, AsymArms(cfg)), AsymTree(cfg, x)) && CleanAsym(cfg, x) <==> fits && DetailsFit(cfg, x)
    ensures fits && DetailsFit(cfg, x) ==> Print(AsymTree(cfg, x)) == AsymBytes(x)
  {
    TagConforms(rule, AsymArms(cfg), x.scheme, AsymTree(cfg, x).arm);
    TagLayout(x.scheme, AsymTree(cfg, x).arm);
    if fits && x.scheme != 0x0010 {
      SelectedArm(cfg, x.scheme);
      DetailsLayout(cfg, x);
    }
  }

  lemma RsaSchemeLayout(cfg: Config, x: AsymScheme)
    ensures Conforms(RsaSchemeFmt(cfg), AsymTree(cfg, x)) && CleanAsym(cfg, x)
      <==> RsaAlgFits(cfg, x.scheme) && DetailsFit(cfg, x)
    ensures RsaAlgFits(cfg, x.scheme) && DetailsFit(cfg, x) ==> Print(AsymTree(cfg, x)) == AsymBytes(x)
  {
    RsaRule(cfg, x.scheme);
    AsymLayout(cfg, RsaSchemeAlg(cfg), RsaAlgFits(cfg, x.scheme), x);
  }

  lemma EccSchemeLayout(cfg: Config, x: AsymScheme)
    ensures Conforms(EccSchemeFmt(cfg), AsymTree(cfg, x)) && CleanAsym(cfg, x)
      <==> EccAlgFits(cfg, x.scheme) && DetailsFit(cfg, x)
    ensures EccAlgFits(cfg, x.scheme) && DetailsFit(cfg, x) ==> Print(AsymTree(cfg, x)) == AsymBytes(x)
  {
    EccRule(cfg, x.scheme);
    AsymLayout(cfg, EccSchemeAlg(cfg), EccAlgFits(cfg, x.scheme), x);
  }

  lemma KdfLayout(cfg: Config, x: KdfScheme)
    ensures Conforms(KdfSchemeFmt(cfg), KdfSchemeTree(cfg, x)) && CleanKdf(cfg, x) <==> KdfFits(cfg, x)
    ensures KdfFits(cfg, x) ==> Print(KdfSchemeTree(cfg, x)) == KdfBytes(x)
  {
    var f := KdfSchemeFmt(cfg);
    KdfRule(cfg, x.scheme);
    TagConforms(f.rule, f.arms, x.scheme, KdfSchemeTree(cfg, x).arm);
    TagLayout(x.scheme, KdfSchemeTree(cfg, x).arm);
    HashRule(cfg, false, x.hashAlg);
    WordConforms(HashAlg(cfg, false), x.hashAlg);
    NumLayout(x.hashAlg);
  }

  lemma KeyedHashLayout(cfg: Config, x: KeyedHashScheme)
    ensures Conforms(KeyedHashFmt(cfg), KeyedHashTree(cfg, x)) && CleanKeyedHash(cfg, x) <==> KeyedHashFits(cfg, x)
    ensures KeyedHashFits(cfg, x) ==> Print(KeyedHashTree(cfg, x)) == KeyedHashBytes(x)
  {
    var f, a := KeyedHashFmt(cfg), x.scheme;
    KeyedHashRule(cfg, a);
    TagConforms(f.rule, f.arms, a, KeyedHashTree(cfg, x).arm);
    TagLayout(a, KeyedHashTree(cfg, x).arm);
    NumLayout(x.hashAlg);
    NumLayout(x.kdf);
    if a == 0x0005 {
      HashRule(cfg, false, x.hashAlg);
      WordConforms(HashAlg(cfg, false), x.hashAlg);
    } else if a == 0x000A {
      HashRule(cfg, true, x.hashAlg);
      KdfRule(cfg, x.kdf);
      WordConforms(HashAlg(cfg, true), x.hashAlg);
      WordConforms(KdfAlg(cfg), x.kdf);
      BothConform(Word(2, HashAlg(cfg, true)), Word(2, KdfAlg(cfg)), Num(2, x.hashAlg), Num(2, x.kdf));
    }
  }

  lemma RsaLayout(cfg: Config, x: RsaParms)
    ensures Conforms(RsaParmsFmt(cfg), RsaParmsTree(cfg, x)) && CleanRsa(cfg, x) <==> RsaFits(cfg, x)
    ensures RsaFits(cfg, x) ==>
      Print(RsaParmsTree(cfg, x)) == SymBytes(x.symmetric) + AsymBytes(x.scheme) + Be16(x.keyBits) + Be32(x.exponent)
  {
    var f, t := RsaParmsFmt(cfg), RsaParmsTree(cfg, x);
    BothConform(f.first, f.second, t.a, t.b);
    BothConform(f.second.first, f.second.second, t.b.a, t.b.b);
    BothConform(f.second.second.first, f.second.second.second, t.b.b.a, t.b.b.b);
    SymLayout(cfg, true, x.symmetric);
    RsaSchemeLayout(cfg, x.scheme);
    WordConforms(RSA_KEY_BITS, x.keyBits);
    RsaKeyRule(x.keyBits);
    LongConforms(Any, x.exponent);
    FourParts(t.a, t.b.a, t.b.b.a, t.b.b.b);
    NumLayout(x.keyBits);
    NumLayout(x.exponent);
  }

  lemma LongConforms(rule: Rule, n: uint32)
    ensures Conforms(Word(4, rule), Num(4, n)) <==> Accepts(rule, n)
  {
    Widths();
  }

  lemma FourJoined(a: bytes, b: bytes, c: bytes, d: bytes)
    ensures a + (b + (c + d)) == a + b + c + d
  {
  }

  lemma FourParts(a: Tree, b: Tree, d: Tree, e: Tree)
    ensures Print(Pair(a, Pair(b, Pair(d, e)))) == Print(a) + Print(b) + Print(d) + Print(e)
  {
    PairLayout(d, e);
    PairLayout(b, Pair(d, e));
    PairLayout(a, Pair(b, Pair(d, e)));
    FourJoined(Print(a), Print(b), Print(d), Print(e));
  }

  lemma EccLayout(cfg: Config, x: EccParms)
    ensures Conforms(EccParmsFmt(cfg), EccParmsTree(cfg, x)) && CleanEcc(cfg, x) <==> EccFits(cfg, x)
    ensures EccFits(cfg, x) ==>
      Print(EccParmsTree(cfg, x)) == SymBytes(x.symmetric) + AsymBytes(x.scheme) + Be16(x.curveID) + KdfBytes(x.kdf)
  {
    var f, t := EccParmsFmt(cfg), EccParmsTree(cfg, x);
    BothConform(f.first, f.second, t.a, t.b);
    BothConform(f.second.first, f.second.second, t.b.a, t.b.b);
    BothConform(f.second.second.first, f.second.second.second, t.b.b.a, t.b.b.b);
    SymLayout(cfg, true, x.symmetric);
    EccSchemeLayout(cfg, x.scheme);
    WordConforms(EccCurve(cfg), x.curveID);
    CurveRule(cfg, x.curveID);
    KdfLayout(cfg, x.kdf);
    FourParts(t.a, t.b.a, t.b.b.a, t.b.b.b);
    NumLayout(x.curveID);
  }

  // The members that the type does not choose are zero.
  lemma Unchosen(cfg: Config)
    ensures CleanKeyedHash(cfg, NO_KEYEDHASH) && CleanSym(cfg, NO_SYM) && CleanRsa(cfg, NO_RSA) && CleanEcc(cfg, NO_ECC)
  {
  }

  lemma ParmsLayout(cfg: Config, objectType: nat, x: PublicParms)
    requires IsType(cfg, objectType)
    ensures Conforms(ParmsFmt(cfg, objectType), ParmsTree(cfg, objectType, x)) && CleanParms(cfg, objectType, x)
      <==> ParmsFit(cfg, objectType, x)
    ensures ParmsFit(cfg, objectType, x) ==> Print(ParmsTree(cfg, objectType, x)) == ParmsBytes(objectType, x)
  {
    Unchosen(cfg);
    if objectType == 0x0008 {
      KeyedHashLayout(cfg, x.keyedHash);
    } else if objectType == 0x0025 {
      SymLayout(cfg, false, x.sym);
    } else if objectType == 0x0001 {
      RsaLayout(cfg, x.rsa);
    } else {
      EccLayout(cfg, x.ecc);
    }
  }

  lemma IdLayout(cfg: Config, objectType: nat, x: PublicId)
    requires IsType(cfg, objectType)
    ensures Conforms(IdFmt(cfg, objectType), IdTree(cfg, objectType, x)) && CleanId(objectType, x)
      <==> IdFits(cfg, objectType, x)
    ensures Print(IdTree(cfg, objectType, x)) == IdBytes(objectType, x)
  {
    BufferLayout(x.buffer);
    BufferLayout(x.ecc.x);
    BufferLayout(x.ecc.y);
    BothConform(Blob(cfg.maxEccKeyBytes), Blob(cfg.maxEccKeyBytes), Data(x.ecc.x), Data(x.ecc.y));
    PairLayout(Data(x.ecc.x), Data(x.ecc.y));
  }

  // A public area is well formed exactly when every field has a value of its table, and is then on
  // the wire what its table says.
  lemma PublicExactly(cfg: Config, flag: bool, x: TpmtPublic)
    ensures WellFormedPublic(cfg, flag, x) <==> PublicFits(cfg, flag, x)
    ensures PublicFits(cfg, flag, x) ==> EncodePublic(cfg, x) == PublicBytes(x)
  {
    TypeRule(cfg, x.objectType);
    TagConforms(PublicAlg(cfg), PublicFmt(cfg, flag).arms, x.objectType, PublicTree(cfg, x).arm);
    if IsType(cfg, x.objectType) {
      assert PublicFmt(cfg, flag).arms[x.objectType] == PublicBodyFmt(cfg, flag, x.objectType);
      BodyExactly(cfg, flag, x);
      TagLayout(x.objectType, PublicTree(cfg, x).arm);
    }
  }

  lemma EncodedAsBytes(cfg: Config, flag: bool, x: TpmtPublic)
    requires WellFormedPublic(cfg, flag, x) == true
    ensures EncodePublic(cfg, x) == PublicBytes(x)
  {
    PublicExactly(cfg, flag, x);
  }

  lemma FiveConform(f: Fmt, g: Fmt, h: Fmt, i: Fmt, j: Fmt, a: Tree, b: Tree, c: Tree, d: Tree, e: Tree)
    ensures Conforms(Both(f, Both(g, Both(h, Both(i, j)))), Pair(a, Pair(b, Pair(c, Pair(d, e)))))
      <==> Conforms(f, a) && Conforms(g, b) && Conforms(h, c) && Conforms(i, d) && Conforms(j, e)
  {
    BothConform(f, Both(g, Both(h, Both(i, j))), a, Pair(b, Pair(c, Pair(d, e))));
    BothConform(g, Both(h, Both(i, j)), b, Pair(c, Pair(d, e)));
    BothConform(h, Both(i, j), c, Pair(d, e));
    BothConform(i, j, d, e);
  }

  lemma HeadConforms(cfg: Config, flag: bool, x: TpmtPublic)
    ensures Conforms(Word(2, HashAlg(cfg, flag)), Num(2, x.nameAlg)) <==> HashFits(cfg, flag, x.nameAlg)
    ensures Conforms(Word(4, NoBits(OBJECT_RESERVED)), Num(4, x.objectAttributes))
      <==> AttributesFit(x.objectAttributes)
    ensures Conforms(Blob(cfg.maxDigest), Data(x.authPolicy)) <==> |x.authPolicy| <= cfg.maxDigest
  {
    WordConforms(HashAlg(cfg, flag), x.nameAlg);
    HashRule(cfg, flag, x.nameAlg);
    AttributesConform(x.objectAttributes);
  }

  lemma BodyExactly(cfg: Config, flag: bool, x: TpmtPublic)
    requires IsType(cfg, x.objectType)
    ensures Conforms(PublicBodyFmt(cfg, flag, x.objectType), PublicTree(cfg, x).arm) && CleanPublic(cfg, x)
      <==> PublicFits(cfg, flag, x)
    ensures PublicFits(cfg, flag, x) ==> Be16(x.objectType) + Print(PublicTree(cfg, x).arm) == PublicBytes(x)
  {
    var parms, id := ParmsTree(cfg, x.objectType, x.parameters), IdTree(cfg, x.objectType, x.unique);
    FiveConform(Word(2, HashAlg(cfg, flag)), Word(4, NoBits(OBJECT_RESERVED)), Blob(cfg.maxDigest),
                ParmsFmt(cfg, x.objectType), IdFmt(cfg, x.objectType),
                Num(2, x.nameAlg), Num(4, x.objectAttributes), Data(x.authPolicy), parms, id);
    HeadConforms(cfg, flag, x);
    ParmsLayout(cfg, x.objectType, x.parameters);
    IdLayout(cfg, x.objectType, x.unique);
    if PublicFits(cfg, flag, x) {
      BodyLayout(x, parms, id);
      AfterType(x, Print(PublicTree(cfg, x).arm));
    }
  }

  lemma AfterType(x: TpmtPublic, body: bytes)
    requires body == Be16(x.nameAlg) + Be32(x.objectAttributes) + Buffer2B(x.authPolicy)
                     + ParmsBytes(x.objectType, x.parameters) + IdBytes(x.objectType, x.unique)
    ensures Be16(x.objectType) + body == PublicBytes(x)
  {
  }

  lemma AttributesConform(n: uint32)
    ensures Conforms(Word(4, NoBits(OBJECT_RESERVED)), Num(4, n)) <==> AttributesFit(n)
  {
    LongConforms(NoBits(OBJECT_RESERVED), n);
  }

  lemma BodyLayout(x: TpmtPublic, parms: Tree, id: Tree)
    ensures Print(Pair(Num(2, x.nameAlg), Pair(Num(4, x.objectAttributes), Pair(Data(x.authPolicy), Pair(parms, id)))))
         == Be16(x.nameAlg) + Be32(x.objectAttributes) + Buffer2B(x.authPolicy) + Print(parms) + Print(id)
  {
    FourParts(Num(2, x.nameAlg), Num(4, x.objectAttributes), Data(x.authPolicy), Pair(parms, id));
    PairLayout(parms, id);
    NumLayout(x.nameAlg);
    NumLayout(x.objectAttributes);
    BufferLayout(x.authPolicy);
  }

  // ---------- what is accepted ----------

  lemma PublicRead(cfg: Config, flag: bool, b: bytes, x: TpmtPublic)
    requires PublicFits(cfg, flag, x) && PublicBytes(x) <= b
    ensures Parse(PublicFmt(cfg, flag), b).Ok?
  {
    PublicExactly(cfg, flag, x);
    ParsedFrom(PublicFmt(cfg, flag), PublicTree(cfg, x), b);
  }

  lemma TookConforms(f: Fmt, s: Snap, s': Snap, t: Tree)
    requires s.Ready() && Took(f, s, s', Success, t)
    ensures Conforms(f, t) == true && s.pos <= s'.pos <= |s.mem|
    ensures s.mem[s.pos..s'.pos] == Print(t) && Print(t) <= s.Available()
  {
    Canonical(f, s.Available());
    Front(s, s'.pos - s.pos);
  }

  lemma PublicReads(cfg: Config, flag: bool, s: Snap, s': Snap, y: TpmtPublic)
    requires s.Ready() && Took(PublicFmt(cfg, flag), s, s', Success, PublicTree(cfg, y)) && CleanPublic(cfg, y)
    ensures PublicFits(cfg, flag, y) == true && s.pos <= s'.pos <= |s.mem| && s.mem[s.pos..s'.pos] == PublicBytes(y)
    ensures PublicBytes(y) <= s.Available()
  {
    TookConforms(PublicFmt(cfg, flag), s, s', PublicTree(cfg, y));
    PublicExactly(cfg, flag, y);
  }

  // Unmarshalling a public area succeeds exactly when what is available begins with the bytes of one
  // whose fields have values of their tables, and then yields that area and stops behind it.
  lemma PublicAccepted(cfg: Config, flag: bool, s: Snap, s': Snap, rc: Rc, y: TpmtPublic)
    requires s.Ready() && Took(PublicFmt(cfg, flag), s, s', rc, PublicTree(cfg, y)) && (rc == Success ==> CleanPublic(cfg, y))
    ensures rc == Success <==> exists x :: PublicFits(cfg, flag, x) && PublicBytes(x) <= s.Available()
    ensures rc == Success ==> PublicFits(cfg, flag, y) && PublicBytes(y) <= s.Available()
    ensures rc == Success ==> s.pos <= s'.pos <= |s.mem| && s.mem[s.pos..s'.pos] == PublicBytes(y)
  {
    if rc == Success {
      PublicReads(cfg, flag, s, s', y);
    } else if x :| PublicFits(cfg, flag, x) && PublicBytes(x) <= s.Available() {
      PublicRead(cfg, flag, s.Available(), x);
      assert false;
    }
  }

  lemma Front(s: Snap, n: nat)
    requires s.Ready() && n <= s.size
    ensures s.Available()[..n] == s.mem[s.pos..s.pos + n]
  {
  }

  lemma SensitiveAccepted(cfg: Config, s: Snap, s': Snap, rc: Rc, y: TpmtSensitive)
    requires s.Ready() && Took(SensitiveFmt(cfg), s, s', rc, SensitiveTree(cfg, y))
    ensures rc == Success <==> exists x :: SensitiveFits(cfg, x) && SensitiveBytes(x) <= s.Available()
    ensures rc == Success ==> SensitiveFits(cfg, y) && SensitiveBytes(y) <= s.Available()
    ensures rc == Success ==> s.pos <= s'.pos <= |s.mem| && s.mem[s.pos..s'.pos] == SensitiveBytes(y)
  {
    if rc == Success {
      TookConforms(SensitiveFmt(cfg), s, s', SensitiveTree(cfg, y));
      SensitiveExactly(cfg, y);
      SensitiveLayout(cfg, y);
      assert SensitiveFits(cfg, y) && SensitiveBytes(y) <= s.Available();
    }
    if x :| SensitiveFits(cfg, x) && SensitiveBytes(x) <= s.Available() {
      SensitiveExactly(cfg, x);
      SensitiveLayout(cfg, x);
      ParsedFrom(SensitiveFmt(cfg), SensitiveTree(cfg, x), s.Available());
    }
  }

  // ---------- what is refused, and how ----------

  // The number in the first two bytes.
  function First16(b: bytes): nat
    requires |b| >= 2
  {
    var high: int := b[0];
    256 * high + b[1]
  }

  ghost predicate Refused(f: Fmt, b: bytes, rc: Rc) { Parse(f, b).Fail? && Parse(f, b).rc == rc }

  lemma WordRefused(rule: Rule, b: bytes)
    requires |b| >= 2 && !Accepts(rule, First16(b))
    ensures Refused(Word(2, rule), b, Refusal(rule))
  {
    BE2(b[0], b[1]);
    assert b[..2] == [b[0], b[1]];
  }

  // The code each field answers with when its value is not in its table.
  lemma FieldCodes(cfg: Config, orNull: bool, a: nat, b: bytes)
    requires |b| >= 2
    ensures var n := First16(b);
      (!IsType(cfg, n) ==> Refused(Word(2, PublicAlg(cfg)), b, Type))
      && (!HashFits(cfg, orNull, n) ==> Refused(Word(2, HashAlg(cfg, orNull)), b, Hash))
      && (!SymAlgFits(cfg, orNull, n) ==> Refused(Word(2, SymObject(cfg, orNull)), b, Symmetric))
      && (!(n == 128 || (n == 256 && a == 0x0006)) ==> Refused(Word(2, SymKeyBits(a)), b, Value))
      && (!ModeFits(cfg, n) ==> Refused(Word(2, SymMode(cfg)), b, Mode))
  {
    var n := First16(b);
    TypeRule(cfg, n);
    HashRule(cfg, orNull, n);
    SymRule(cfg, orNull, n);
    SymKeyRule(a, n);
    ModeRule(cfg, n);
    RefusedUnless(PublicAlg(cfg), b);
    RefusedUnless(HashAlg(cfg, orNull), b);
    RefusedUnless(SymObject(cfg, orNull), b);
    RefusedUnless(SymKeyBits(a), b);
    RefusedUnless(SymMode(cfg), b);
  }

  lemma SchemeCodes(cfg: Config, b: bytes)
    requires |b| >= 2
    ensures var n := First16(b);
      (!RsaAlgFits(cfg, n) ==> Refused(Word(2, RsaSchemeAlg(cfg)), b, Value))
      && (!EccAlgFits(cfg, n) ==> Refused(Word(2, EccSchemeAlg(cfg)), b, Scheme))
      && (!KdfAlgFits(cfg, n) ==> Refused(Word(2, KdfAlg(cfg)), b, Kdf))
      && (!KeyedHashAlgFits(cfg, n) ==> Refused(Word(2, KeyedHashSchemeAlg(cfg)), b, Value))
      && (n != 1024 && n != 2048 ==> Refused(Word(2, RSA_KEY_BITS), b, Value))
      && (!CurveFits(cfg, n) ==> Refused(Word(2, EccCurve(cfg)), b, Curve))
  {
    var n := First16(b);
    RsaRule(cfg, n);
    EccRule(cfg, n);
    KdfRule(cfg, n);
    KeyedHashRule(cfg, n);
    RsaKeyRule(n);
    CurveRule(cfg, n);
    RefusedUnless(RsaSchemeAlg(cfg), b);
    RefusedUnless(EccSchemeAlg(cfg), b);
    RefusedUnless(KdfAlg(cfg), b);
    RefusedUnless(KeyedHashSchemeAlg(cfg), b);
    RefusedUnless(RSA_KEY_BITS, b);
    RefusedUnless(EccCurve(cfg), b);
  }

  lemma RefusedUnless(rule: Rule, b: bytes)
    requires |b| >= 2
    ensures !Accepts(rule, First16(b)) ==> Refused(Word(2, rule), b, Refusal(rule)) == true
  {
    if !Accepts(rule, First16(b)) {
      WordRefused(rule, b);
    }
  }

  // A pair is refused as its first part is, or as its second part is where the first one ends.
  lemma FirstRefused(f: Fmt, g: Fmt, b: bytes, rc: Rc)
    requires Refused(f, b, rc)
    ensures Refused(Both(f, g), b, rc)
  {
  }

  lemma SecondRefused(f: Fmt, g: Fmt, t: Tree, p: bytes, b: bytes, rc: Rc)
    requires Conforms(f, t) && Print(t) == p && Refused(g, b, rc)
    ensures Refused(Both(f, g), p + b, rc)
  {
    ParsedFrom(f, t, p + b);
    assert (p + b)[|p|..] == b;
  }

  lemma ArmAt(rule: Rule, arms: map<nat, Fmt>, tag: uint16, b: bytes, rc: Rc)
    requires Accepts(rule, tag) && tag in arms && |b| >= 2 && FromBE(b[..2]) == tag && Refused(arms[tag], b[2..], rc)
    ensures Refused(Tagged(2, rule, arms), b, rc)
  {
  }

  lemma ArmRefused(rule: Rule, arms: map<nat, Fmt>, tag: uint16, b: bytes, rc: Rc)
    requires Accepts(rule, tag) && tag in arms && Refused(arms[tag], b, rc)
    ensures Refused(Tagged(2, rule, arms), Be16(tag) + b, rc)
  {
    var d := Be16(tag) + b;
    BE2(d[0], d[1]);
    assert d[..2] == [d[0], d[1]] && d[2..] == b;
    ArmAt(rule, arms, tag, d, rc);
  }

  lemma BlobRefused(limit: nat, n: uint16, rest: bytes)
    requires n > limit && n > 0
    ensures Refused(Blob(limit), Be16(n) + rest, Size)
  {
    BE2(n / 256, n % 256);
    assert (Be16(n) + rest)[..2] == [n / 256, n % 256];
  }

  // Reading the secret that a type selects: within the limit of its type, or SIZE.
  lemma SecretRead(cfg: Config, t: nat, s: Snap, s': Snap, rc: Rc, d: blob)
    requires s.Ready() && IsType(cfg, t) && Took(Blob(CompositeLimit(cfg, t)), s, s', rc, Data(d))
    ensures rc == Success ==> SecretFits(cfg, t, |d|)
    ensures |s.Available()| >= 2 && !SecretFits(cfg, t, First16(s.Available())) ==> rc == Size
  {
    var b := s.Available();
    if |b| >= 2 {
      BE2(b[0], b[1]);
      assert b[..2] == [b[0], b[1]];
    }
  }

  lemma BytesRegrouped(a: bytes, b: bytes, c: bytes, d: bytes, e: bytes, f: bytes)
    ensures a + b + c + (d + e) + f == a + (b + (c + (d + (e + f))))
  {
    assert a + b + c + (d + e) + f == a + (b + (c + ((d + e) + f)));
    assert (d + e) + f == d + (e + f);
  }

  // A secret over the limit of its type is refused with SIZE, whatever follows.
  lemma SecretRefused(cfg: Config, x: TpmtSensitive, rest: bytes)
    requires IsType(cfg, x.sensitiveType) && |x.authValue| <= cfg.maxDigest && |x.seedValue| <= cfg.maxDigest
    requires !SecretFits(cfg, x.sensitiveType, |x.sensitive|)
    ensures Refused(SensitiveFmt(cfg), SensitiveBytes(x) + rest, Size)
  {
    var f := SensitiveBodyFmt(cfg, x.sensitiveType);
    var secret := Be16(|x.sensitive|) + (x.sensitive + rest);
    SecretBodyRefused(cfg, x, secret, rest);
    TypeRule(cfg, x.sensitiveType);
    ArmRefused(PublicAlg(cfg), SensitiveFmt(cfg).arms, x.sensitiveType,
               Buffer2B(x.authValue) + (Buffer2B(x.seedValue) + secret), Size);
    BytesRegrouped(Be16(x.sensitiveType), Buffer2B(x.authValue), Buffer2B(x.seedValue), Be16(|x.sensitive|), x.sensitive, rest);
  }

  lemma SecretBodyRefused(cfg: Config, x: TpmtSensitive, secret: bytes, rest: bytes)
    requires IsType(cfg, x.sensitiveType) && |x.authValue| <= cfg.maxDigest && |x.seedValue| <= cfg.maxDigest
    requires !SecretFits(cfg, x.sensitiveType, |x.sensitive|) && secret == Be16(|x.sensitive|) + (x.sensitive + rest)
    ensures Refused(SensitiveBodyFmt(cfg, x.sensitiveType), Buffer2B(x.authValue) + (Buffer2B(x.seedValue) + secret), Size) == true
  {
    var f := SensitiveBodyFmt(cfg, x.sensitiveType);
    BufferLayout(x.authValue);
    BufferLayout(x.seedValue);
    BlobRefused(CompositeLimit(cfg, x.sensitiveType), |x.sensitive|, x.sensitive + rest);
    SecondRefused(Blob(cfg.maxDigest), f.second.second, Data(x.seedValue), Buffer2B(x.seedValue), secret, Size);
    SecondRefused(f.first, f.second, Data(x.authValue), Buffer2B(x.authValue), Buffer2B(x.seedValue) + secret, Size);
  }

  // The first field of a public area that is wrong decides: its type, its name algorithm, its
  // attributes, its policy.
  lemma HeadRefused(cfg: Config, flag: bool, t: uint16, h: uint16, a: uint32, n: uint16, rest: bytes)
    ensures !IsType(cfg, t) ==> Refused(PublicFmt(cfg, flag), Be16(t) + rest, Type) == true
    ensures IsType(cfg, t) && !HashFits(cfg, flag, h) ==> Refused(PublicFmt(cfg, flag), Be16(t) + (Be16(h) + rest), Hash) == true
    ensures IsType(cfg, t) && HashFits(cfg, flag, h) && !AttributesFit(a) ==>
      Refused(PublicFmt(cfg, flag), Be16(t) + (Be16(h) + (Be32(a) + rest)), ReservedBits) == true
    ensures IsType(cfg, t) && HashFits(cfg, flag, h) && AttributesFit(a) && n > cfg.maxDigest ==>
      Refused(PublicFmt(cfg, flag), Be16(t) + (Be16(h) + (Be32(a) + (Be16(n) + rest))), Size) == true
  {
    if !IsType(cfg, t) {
      TypeRefused(cfg, flag, t, rest);
    } else if !HashFits(cfg, flag, h) {
      NameRefused(cfg, flag, t, h, rest);
    } else if !AttributesFit(a) {
      AttributesRefused(a, rest);
      var f := PublicBodyFmt(cfg, flag, t);
      FirstRefused(f.second.first, f.second.second, Be32(a) + rest, ReservedBits);
      AfterHash(cfg, flag, t, h, Be32(a) + rest, ReservedBits);
    } else if n > cfg.maxDigest {
      PolicyRefused(cfg, flag, t, h, a, n, rest);
    }
  }

  lemma NameRefused(cfg: Config, flag: bool, t: uint16, h: uint16, rest: bytes)
    requires IsType(cfg, t) && !HashFits(cfg, flag, h)
    ensures Refused(PublicFmt(cfg, flag), Be16(t) + (Be16(h) + rest), Hash) == true
  {
    HashRefused(cfg, flag, h, rest);
    var f := PublicBodyFmt(cfg, flag, t);
    FirstRefused(f.first, f.second, Be16(h) + rest, Hash);
    BodyRefused(cfg, flag, t, Be16(h) + rest, Hash);
  }

  lemma PolicyRefused(cfg: Config, flag: bool, t: uint16, h: uint16, a: uint32, n: uint16, rest: bytes)
    requires IsType(cfg, t) && HashFits(cfg, flag, h) && AttributesFit(a) && n > cfg.maxDigest
    ensures Refused(PublicFmt(cfg, flag), Be16(t) + (Be16(h) + (Be32(a) + (Be16(n) + rest))), Size) == true
  {
    var f, policy := PublicBodyFmt(cfg, flag, t), Be16(n) + rest;
    BlobRefused(cfg.maxDigest, n, rest);
    AttributesConform(a);
    NumLayout(a);
    FirstRefused(f.second.second.first, f.second.second.second, policy, Size);
    SecondRefused(f.second.first, f.second.second, Num(4, a), Be32(a), policy, Size);
    AfterHash(cfg, flag, t, h, Be32(a) + policy, Size);
  }

  lemma BodyRefused(cfg: Config, flag: bool, t: uint16, b: bytes, rc: Rc)
    requires IsType(cfg, t) && Refused(PublicBodyFmt(cfg, flag, t), b, rc)
    ensures Refused(PublicFmt(cfg, flag), Be16(t) + b, rc) == true
  {
    TypeRule(cfg, t);
    assert PublicFmt(cfg, flag).arms[t] == PublicBodyFmt(cfg, flag, t);
    ArmRefused(PublicAlg(cfg), PublicFmt(cfg, flag).arms, t, b, rc);
  }

  lemma AfterHash(cfg: Config, flag: bool, t: uint16, h: uint16, b: bytes, rc: Rc)
    requires IsType(cfg, t) && HashFits(cfg, flag, h) && Refused(PublicBodyFmt(cfg, flag, t).second, b, rc)
    ensures Refused(PublicFmt(cfg, flag), Be16(t) + (Be16(h) + b), rc) == true
  {
    var f := PublicBodyFmt(cfg, flag, t);
    HashRule(cfg, flag, h);
    NumLayout(h);
    WordConforms(HashAlg(cfg, flag), h);
    SecondRefused(f.first, f.second, Num(2, h), Be16(h), b, rc);
    BodyRefused(cfg, flag, t, Be16(h) + b, rc);
  }

  lemma TypeRefused(cfg: Config, flag: bool, t: uint16, rest: bytes)
    requires !IsType(cfg, t)
    ensures Refused(PublicFmt(cfg, flag), Be16(t) + rest, Type)
  {
    var b := Be16(t) + rest;
    assert b[0] == t / 256 && b[1] == t % 256;
    FieldCodes(cfg, flag, 0, b);
  }

  lemma HashRefused(cfg: Config, flag: bool, h: uint16, rest: bytes)
    requires !HashFits(cfg, flag, h)
    ensures Refused(Word(2, HashAlg(cfg, flag)), Be16(h) + rest, Hash)
  {
    var b := Be16(h) + rest;
    assert b[0] == h / 256 && b[1] == h % 256;
    FieldCodes(cfg, flag, 0, b);
  }

  lemma AttributesRefused(a: uint32, rest: bytes)
    requires !AttributesFit(a)
    ensures Refused(Word(4, NoBits(OBJECT_RESERVED)), Be32(a) + rest, ReservedBits)
  {
    Bytes32(a);
    Widths();
    FromToBE(4, a);
    assert (Be32(a) + rest)[..4] == ToBE(4, a);
  }
}
