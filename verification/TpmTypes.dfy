// The TPM 2.0 structures that make up public and sensitive areas, and their grammars.
//
// A union is a record of its members; the member that counts is chosen by an earlier field, and
// Clean says that the others hold zeros. The identifiers are those of table 9 of part 2 of the
// TPM 2.0 Library; which of them a build supports is the parameter `enabled`.
module TpmTypes {
  import opened Bytes
  import opened WireGrammar

  type blob = s: bytes | |s| < 0x1_0000

  const ALG_RSA: uint16 := 0x0001
  const ALG_SHA1: uint16 := 0x0004
  const ALG_HMAC: uint16 := 0x0005
  const ALG_AES: uint16 := 0x0006
  const ALG_MGF1: uint16 := 0x0007
  const ALG_KEYEDHASH: uint16 := 0x0008
  const ALG_XOR: uint16 := 0x000A
  const ALG_SHA256: uint16 := 0x000B
  const ALG_SHA384: uint16 := 0x000C
  const ALG_SHA512: uint16 := 0x000D
  const ALG_NULL: uint16 := 0x0010
  const ALG_SM3_256: uint16 := 0x0012
  const ALG_SM4: uint16 := 0x0013
  const ALG_RSASSA: uint16 := 0x0014
  const ALG_RSAES: uint16 := 0x0015
  const ALG_RSAPSS: uint16 := 0x0016
  const ALG_OAEP: uint16 := 0x0017
  const ALG_ECDSA: uint16 := 0x0018
  const ALG_ECDH: uint16 := 0x0019
  const ALG_ECDAA: uint16 := 0x001A
  const ALG_SM2: uint16 := 0x001B
  const ALG_ECSCHNORR: uint16 := 0x001C
  const ALG_ECMQV: uint16 := 0x001D
  const ALG_KDF1_SP800_56A: uint16 := 0x0020
  const ALG_KDF2: uint16 := 0x0021
  const ALG_KDF1_SP800_108: uint16 := 0x0022
  const ALG_ECC: uint16 := 0x0023
  const ALG_SYMCIPHER: uint16 := 0x0025
  const ALG_CAMELLIA: uint16 := 0x0026
  const ALG_CTR: uint16 := 0x0040
  const ALG_OFB: uint16 := 0x0041
  const ALG_CBC: uint16 := 0x0042
  const ALG_CFB: uint16 := 0x0043
  const ALG_ECB: uint16 := 0x0044

  const ECC_NIST_P256: uint16 := 0x0003
  const ECC_NIST_P384: uint16 := 0x0004
  const ECC_BN_P256: uint16 := 0x0010
  const ECC_SM2_P256: uint16 := 0x0020

  const OBJECT_RESERVED: bv32 := 0xfff8f309

  // What a build of the codec fixes: the algorithms compiled in, the platform variant, the
  // limits of sized buffers and the sizes in memory of the structures a conversion passes as its
  // budget.
  datatype Platform = GenericPlatform | Me11Sim | IntelSmx

  datatype Config = Config(
    enabled: set<nat>,
    platform: Platform,
    maxDigest: nat,       // sizeof(TPMU_HA)
    maxRsaKeyBytes: nat,
    maxSymData: nat,
    maxSymKeyBytes: nat,
    maxEccKeyBytes: nat,
    sizeofPublic: nat,
    sizeofPublic2B: nat,
    sizeofSensitive: nat,
    sizeofSensitive2B: nat)

  // ---------- structures ----------

  datatype SymDef = SymDef(algorithm: uint16, keyBits: uint16, mode: uint16)
  datatype AsymScheme = AsymScheme(scheme: uint16, hashAlg: uint16, count: uint16)
  datatype KdfScheme = KdfScheme(scheme: uint16, hashAlg: uint16)
  datatype KeyedHashScheme = KeyedHashScheme(scheme: uint16, hashAlg: uint16, kdf: uint16)
  datatype RsaParms = RsaParms(symmetric: SymDef, scheme: AsymScheme, keyBits: uint16, exponent: uint32)
  datatype EccParms = EccParms(symmetric: SymDef, scheme: AsymScheme, curveID: uint16, kdf: KdfScheme)
  datatype PublicParms = PublicParms(keyedHash: KeyedHashScheme, sym: SymDef, rsa: RsaParms, ecc: EccParms)
  datatype EccPoint = EccPoint(x: blob, y: blob)
  // The members keyedHash, sym and rsa of TPMU_PUBLIC_ID are all sized buffers.
  datatype PublicId = PublicId(buffer: blob, ecc: EccPoint)
  datatype TpmtPublic = TpmtPublic(
    objectType: uint16,
    nameAlg: uint16,
    objectAttributes: uint32,
    authPolicy: blob,
    parameters: PublicParms,
    unique: PublicId)
  // Every member of TPMU_SENSITIVE_COMPOSITE is a sized buffer.
  datatype TpmtSensitive = TpmtSensitive(
    sensitiveType: uint16,
    authValue: blob,
    seedValue: blob,
    sensitive: blob)

  const NO_SYM := SymDef(0, 0, 0)
  const NO_ASYM := AsymScheme(0, 0, 0)
  const NO_KDF := KdfScheme(0, 0)
  const NO_KEYEDHASH := KeyedHashScheme(0, 0, 0)
  const NO_RSA := RsaParms(NO_SYM, NO_ASYM, 0, 0)
  const NO_ECC := EccParms(NO_SYM, NO_ASYM, 0, NO_KDF)
  const NO_PARMS := PublicParms(NO_KEYEDHASH, NO_SYM, NO_RSA, NO_ECC)
  const NO_ID := PublicId([], EccPoint([], []))

  // ---------- the checks on algorithm identifiers and key sizes ----------

  function Supported(cfg: Config, algs: set<nat>, rc: Rc, orNull: bool): Rule {
    OneOf(algs * cfg.enabled + (if orNull then {ALG_NULL as nat} else {}), rc)
  }

  const HASH_ALGS: set<nat> := {ALG_SHA1, ALG_SHA256, ALG_SHA384, ALG_SHA512, ALG_SM3_256}
  const SYM_ALGS: set<nat> := {ALG_AES, ALG_SM4, ALG_CAMELLIA}
  const SYM_MODES: set<nat> := {ALG_CTR, ALG_OFB, ALG_CBC, ALG_CFB, ALG_ECB}
  const KDF_ALGS: set<nat> := {ALG_MGF1, ALG_KDF1_SP800_56A, ALG_KDF2, ALG_KDF1_SP800_108}
  const RSA_SCHEMES: set<nat> := {ALG_OAEP, ALG_RSASSA, ALG_RSAPSS, ALG_RSAES}
  const ECC_SCHEMES: set<nat> := {ALG_ECDSA, ALG_SM2, ALG_ECSCHNORR, ALG_ECDAA, ALG_ECDH, ALG_ECMQV}
  const KEYEDHASH_SCHEMES: set<nat> := {ALG_HMAC, ALG_XOR}
  const PUBLIC_ALGS: set<nat> := {ALG_SYMCIPHER, ALG_RSA, ALG_ECC, ALG_KEYEDHASH}

  function HashAlg(cfg: Config, flag: bool): Rule { Supported(cfg, HASH_ALGS, Hash, flag) }
  function SymObject(cfg: Config, flag: bool): Rule { Supported(cfg, SYM_ALGS, Symmetric, flag) }
  function SymMode(cfg: Config): Rule { Supported(cfg, SYM_MODES, Mode, true) }
  function KdfAlg(cfg: Config): Rule { Supported(cfg, KDF_ALGS, Kdf, true) }
  function RsaSchemeAlg(cfg: Config): Rule { Supported(cfg, RSA_SCHEMES, Value, true) }
  function EccSchemeAlg(cfg: Config): Rule { Supported(cfg, ECC_SCHEMES, Scheme, true) }
  function KeyedHashSchemeAlg(cfg: Config): Rule { Supported(cfg, KEYEDHASH_SCHEMES, Value, true) }
  function PublicAlg(cfg: Config): Rule { Supported(cfg, PUBLIC_ALGS, Type, false) }

  function SymKeyBits(algorithm: nat): Rule {
    OneOf(if algorithm == ALG_AES then {128, 256} else {128}, Value)
  }

  const RSA_KEY_BITS: Rule := OneOf({1024, 2048}, Value)

  function EccCurve(cfg: Config): Rule {
    OneOf({ECC_BN_P256 as nat, ECC_NIST_P256 as nat}
          + (match cfg.platform
             case Me11Sim => {}
             case IntelSmx => {ECC_SM2_P256 as nat}
             case GenericPlatform => {ECC_NIST_P384 as nat}),
          Curve)
  }

  // ---------- grammars ----------

  function SymDefFmt(cfg: Config, flag: bool): Fmt {
    Tagged(2, SymObject(cfg, flag),
           map[ALG_NULL as nat := Nothing]
           + map a | a in SYM_ALGS && a in cfg.enabled :: Both(Word(2, SymKeyBits(a)), Word(2, SymMode(cfg))))
  }

  function AsymDetailsFmt(cfg: Config, scheme: nat): Fmt {
    if scheme == ALG_RSAES then Nothing
    else if scheme == ALG_ECDAA then Both(Word(2, HashAlg(cfg, false)), Word(2, Any))
    else Word(2, HashAlg(cfg, false))
  }

  function AsymArms(cfg: Config): map<nat, Fmt> {
    map[ALG_NULL as nat := Nothing]
    + map s | s in RSA_SCHEMES + ECC_SCHEMES && s in cfg.enabled :: AsymDetailsFmt(cfg, s)
  }

  function RsaSchemeFmt(cfg: Config): Fmt { Tagged(2, RsaSchemeAlg(cfg), AsymArms(cfg)) }

  function EccSchemeFmt(cfg: Config): Fmt { Tagged(2, EccSchemeAlg(cfg), AsymArms(cfg)) }

  function KdfSchemeFmt(cfg: Config): Fmt {
    Tagged(2, KdfAlg(cfg),
           map[ALG_NULL as nat := Nothing]
           + map s | s in KDF_ALGS && s in cfg.enabled :: Word(2, HashAlg(cfg, false)))
  }

  function KeyedHashDetailsFmt(cfg: Config, scheme: nat): Fmt {
    if scheme == ALG_HMAC then Word(2, HashAlg(cfg, false))
    else Both(Word(2, HashAlg(cfg, true)), Word(2, KdfAlg(cfg)))
  }

  function KeyedHashFmt(cfg: Config): Fmt {
    Tagged(2, KeyedHashSchemeAlg(cfg),
           map[ALG_NULL as nat := Nothing]
           + map s | s in KEYEDHASH_SCHEMES && s in cfg.enabled :: KeyedHashDetailsFmt(cfg, s))
  }

  function RsaParmsFmt(cfg: Config): Fmt {
    Both(SymDefFmt(cfg, true), Both(RsaSchemeFmt(cfg), Both(Word(2, RSA_KEY_BITS), Word(4, Any))))
  }

  function EccParmsFmt(cfg: Config): Fmt {
    Both(SymDefFmt(cfg, true), Both(EccSchemeFmt(cfg), Both(Word(2, EccCurve(cfg)), KdfSchemeFmt(cfg))))
  }

  function ParmsFmt(cfg: Config, objectType: nat): Fmt {
    if objectType == ALG_KEYEDHASH then KeyedHashFmt(cfg)
    else if objectType == ALG_SYMCIPHER then SymDefFmt(cfg, false)
    else if objectType == ALG_RSA then RsaParmsFmt(cfg)
    else EccParmsFmt(cfg)
  }

  function IdFmt(cfg: Config, objectType: nat): Fmt {
    if objectType == ALG_KEYEDHASH || objectType == ALG_SYMCIPHER then Blob(cfg.maxDigest)
    else if objectType == ALG_RSA then Blob(cfg.maxRsaKeyBytes)
    else Both(Blob(cfg.maxEccKeyBytes), Blob(cfg.maxEccKeyBytes))
  }

  function PublicBodyFmt(cfg: Config, flag: bool, objectType: nat): Fmt {
    Both(Word(2, HashAlg(cfg, flag)),
         Both(Word(4, NoBits(OBJECT_RESERVED)),
              Both(Blob(cfg.maxDigest), Both(ParmsFmt(cfg, objectType), IdFmt(cfg, objectType)))))
  }

  function PublicFmt(cfg: Config, flag: bool): Fmt {
    Tagged(2, PublicAlg(cfg), map t | t in PUBLIC_ALGS && t in cfg.enabled :: PublicBodyFmt(cfg, flag, t))
  }

  function Public2BFmt(cfg: Config, flag: bool): Fmt { Sized(PublicFmt(cfg, flag), false) }

  function CompositeLimit(cfg: Config, sensitiveType: nat): nat {
    if sensitiveType == ALG_RSA then cfg.maxRsaKeyBytes / 2
    else if sensitiveType == ALG_ECC then cfg.maxEccKeyBytes
    else if sensitiveType == ALG_KEYEDHASH then cfg.maxSymData
    else cfg.maxSymKeyBytes
  }

  function SensitiveBodyFmt(cfg: Config, sensitiveType: nat): Fmt {
    Both(Blob(cfg.maxDigest), Both(Blob(cfg.maxDigest), Blob(CompositeLimit(cfg, sensitiveType))))
  }

  function SensitiveFmt(cfg: Config): Fmt {
    Tagged(2, PublicAlg(cfg), map t | t in PUBLIC_ALGS && t in cfg.enabled :: SensitiveBodyFmt(cfg, t))
  }

  function Sensitive2BFmt(cfg: Config): Fmt { Sized(SensitiveFmt(cfg), true) }

  // ---------- the tree of a structure: the fields its selectors choose ----------

  predicate Selects(cfg: Config, algs: set<nat>, selector: nat) {
    selector in algs && selector in cfg.enabled
  }

  function SymDefTree(cfg: Config, x: SymDef): Tree {
    Tag(2, x.algorithm,
        if Selects(cfg, SYM_ALGS, x.algorithm) then Pair(Num(2, x.keyBits), Num(2, x.mode))
        else if Selects(cfg, {ALG_XOR}, x.algorithm) then Num(2, x.keyBits)
        else Unit)
  }

  function AsymTree(cfg: Config, x: AsymScheme): Tree {
    Tag(2, x.scheme,
        if !Selects(cfg, RSA_SCHEMES + ECC_SCHEMES, x.scheme) || x.scheme == ALG_RSAES then Unit
        else if x.scheme == ALG_ECDAA then Pair(Num(2, x.hashAlg), Num(2, x.count))
        else Num(2, x.hashAlg))
  }

  function KdfSchemeTree(cfg: Config, x: KdfScheme): Tree {
    Tag(2, x.scheme, if Selects(cfg, KDF_ALGS, x.scheme) then Num(2, x.hashAlg) else Unit)
  }

  function KeyedHashTree(cfg: Config, x: KeyedHashScheme): Tree {
    Tag(2, x.scheme,
        if !Selects(cfg, KEYEDHASH_SCHEMES, x.scheme) then Unit
        else if x.scheme == ALG_HMAC then Num(2, x.hashAlg)
        else Pair(Num(2, x.hashAlg), Num(2, x.kdf)))
  }

  function RsaParmsTree(cfg: Config, x: RsaParms): Tree {
    Pair(SymDefTree(cfg, x.symmetric), Pair(AsymTree(cfg, x.scheme), Pair(Num(2, x.keyBits), Num(4, x.exponent))))
  }

  function EccParmsTree(cfg: Config, x: EccParms): Tree {
    Pair(SymDefTree(cfg, x.symmetric),
         Pair(AsymTree(cfg, x.scheme), Pair(Num(2, x.curveID), KdfSchemeTree(cfg, x.kdf))))
  }

  function ParmsTree(cfg: Config, objectType: nat, x: PublicParms): Tree {
    if !Selects(cfg, PUBLIC_ALGS, objectType) then Unit
    else if objectType == ALG_KEYEDHASH then KeyedHashTree(cfg, x.keyedHash)
    else if objectType == ALG_SYMCIPHER then SymDefTree(cfg, x.sym)
    else if objectType == ALG_RSA then RsaParmsTree(cfg, x.rsa)
    else EccParmsTree(cfg, x.ecc)
  }

  function IdTree(cfg: Config, objectType: nat, x: PublicId): Tree {
    if !Selects(cfg, PUBLIC_ALGS, objectType) then Unit
    else if objectType == ALG_ECC then Pair(Data(x.ecc.x), Data(x.ecc.y))
    else Data(x.buffer)
  }

  function PublicTree(cfg: Config, x: TpmtPublic): Tree {
    Tag(2, x.objectType,
        Pair(Num(2, x.nameAlg),
             Pair(Num(4, x.objectAttributes),
                  Pair(Data(x.authPolicy),
                       Pair(ParmsTree(cfg, x.objectType, x.parameters), IdTree(cfg, x.objectType, x.unique))))))
  }

  function CompositeTree(cfg: Config, sensitiveType: nat, x: blob): Tree {
    if Selects(cfg, PUBLIC_ALGS, sensitiveType) then Data(x) else Unit
  }

  function SensitiveTree(cfg: Config, x: TpmtSensitive): Tree {
    Tag(2, x.sensitiveType,
        Pair(Data(x.authValue), Pair(Data(x.seedValue), CompositeTree(cfg, x.sensitiveType, x.sensitive))))
  }

  // ---------- encodings and well-formed values ----------

  function EncodePublic(cfg: Config, x: TpmtPublic): bytes { Print(PublicTree(cfg, x)) }

  function EncodeSensitive(cfg: Config, x: TpmtSensitive): bytes { Print(SensitiveTree(cfg, x)) }

  predicate CleanSym(cfg: Config, x: SymDef) {
    (!Selects(cfg, SYM_ALGS + {ALG_XOR}, x.algorithm) ==> x.keyBits == 0)
    && (!Selects(cfg, SYM_ALGS, x.algorithm) ==> x.mode == 0)
  }

  predicate CleanAsym(cfg: Config, x: AsymScheme) {
    var selected := Selects(cfg, RSA_SCHEMES + ECC_SCHEMES, x.scheme) && x.scheme != ALG_RSAES;
    (!selected ==> x.hashAlg == 0) && (!(selected && x.scheme == ALG_ECDAA) ==> x.count == 0)
  }

  predicate CleanKdf(cfg: Config, x: KdfScheme) {
    !Selects(cfg, KDF_ALGS, x.scheme) ==> x.hashAlg == 0
  }

  predicate CleanKeyedHash(cfg: Config, x: KeyedHashScheme) {
    (!Selects(cfg, KEYEDHASH_SCHEMES, x.scheme) ==> x.hashAlg == 0)
    && (!(Selects(cfg, KEYEDHASH_SCHEMES, x.scheme) && x.scheme == ALG_XOR) ==> x.kdf == 0)
  }

  predicate CleanRsa(cfg: Config, x: RsaParms) { CleanSym(cfg, x.symmetric) && CleanAsym(cfg, x.scheme) }

  predicate CleanEcc(cfg: Config, x: EccParms) {
    CleanSym(cfg, x.symmetric) && CleanAsym(cfg, x.scheme) && CleanKdf(cfg, x.kdf)
  }

  predicate CleanParms(cfg: Config, objectType: nat, x: PublicParms) {
    CleanKeyedHash(cfg, x.keyedHash) && CleanSym(cfg, x.sym) && CleanRsa(cfg, x.rsa) && CleanEcc(cfg, x.ecc)
    && (objectType != ALG_KEYEDHASH ==> x.keyedHash == NO_KEYEDHASH)
    && (objectType != ALG_SYMCIPHER ==> x.sym == NO_SYM)
    && (objectType != ALG_RSA ==> x.rsa == NO_RSA)
    && (objectType != ALG_ECC ==> x.ecc == NO_ECC)
  }

  predicate CleanId(objectType: nat, x: PublicId) {
    if objectType == ALG_ECC then x.buffer == [] else x.ecc == EccPoint([], [])
  }

  predicate CleanPublic(cfg: Config, x: TpmtPublic) {
    CleanParms(cfg, x.objectType, x.parameters) && CleanId(x.objectType, x.unique)
  }

  predicate WellFormedPublic(cfg: Config, flag: bool, x: TpmtPublic) {
    Conforms(PublicFmt(cfg, flag), PublicTree(cfg, x)) && CleanPublic(cfg, x)
  }

  predicate WellFormedSensitive(cfg: Config, x: TpmtSensitive) {
    Conforms(SensitiveFmt(cfg), SensitiveTree(cfg, x))
  }

  // A structure is determined by its tree.
  lemma PublicTreeInjective(cfg: Config, x: TpmtPublic, y: TpmtPublic)
    requires PublicTree(cfg, x) == PublicTree(cfg, y)
    requires CleanPublic(cfg, x) && CleanPublic(cfg, y)
    requires Selects(cfg, PUBLIC_ALGS, x.objectType)
    ensures x == y
  {
    ParmsTreeInjective(cfg, x.objectType, x.parameters, y.parameters);
  }

  lemma ParmsTreeInjective(cfg: Config, objectType: nat, x: PublicParms, y: PublicParms)
    requires ParmsTree(cfg, objectType, x) == ParmsTree(cfg, objectType, y)
    requires CleanParms(cfg, objectType, x) && CleanParms(cfg, objectType, y)
    requires Selects(cfg, PUBLIC_ALGS, objectType)
    ensures x == y
  {
  }

  lemma SensitiveTreeInjective(cfg: Config, x: TpmtSensitive, y: TpmtSensitive)
    requires SensitiveTree(cfg, x) == SensitiveTree(cfg, y)
    requires Selects(cfg, PUBLIC_ALGS, x.sensitiveType)
    ensures x == y
  {
  }
}
