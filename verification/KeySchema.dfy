// Which attributes a key object has, with which footnotes, sizes, update rules and default values.
module KeySchema {
  import opened Bytes
  import opened Attributes

  datatype Family =
    | GenericSecret | AesSecret | DesSecret | GostSecret
    | RsaPrivate | DsaPrivate | EcPrivate | DhPrivate | GostPrivate

  predicate IsSecret(f: Family) {
    f.GenericSecret? || f.AesSecret? || f.DesSecret? || f.GostSecret?
  }

  function FamilyOf(objClass: nat, keyType: nat): Option<Family> {
    if objClass == CKO_PRIVATE_KEY then
      if keyType == CKK_RSA then Some(RsaPrivate)
      else if keyType == CKK_DSA then Some(DsaPrivate)
      else if keyType == CKK_EC then Some(EcPrivate)
      else if keyType == CKK_DH then Some(DhPrivate)
      else if keyType == CKK_GOSTR3410 then Some(GostPrivate)
      else None
    else if objClass == CKO_SECRET_KEY then
      if IsHmacKey(keyType) then Some(GenericSecret)
      else if keyType == CKK_AES then Some(AesSecret)
      else if IsDesKey(keyType) then Some(DesSecret)
      else if keyType == CKK_GOST28147 then Some(GostSecret)
      else None
    else None
  }

  // ---------- schemas ----------

  function Yes(checks: set<int>, default: bool): Spec { Spec(checks, Some(1), Bool, Flag(default)) }
  function Text(checks: set<int>): Spec { Spec(checks, None, Plain, Str([])) }

  const OBJECT: Schema := map[
    CKA_CLASS := Spec({1}, Some(8), Match, Number(VENDOR_DEFINED)),
    CKA_TOKEN := Yes({17}, false),
    CKA_PRIVATE := Yes({17}, true),
    CKA_MODIFIABLE := Yes({17}, true)]

  const CARE: Schema := map[
    CKA_LABEL := Text({8}),
    CKA_COPYABLE := Spec({12}, Some(1), Copyable, Flag(true)),
    CKA_DESTROYABLE := Yes({17}, true)]

  const KEY: Schema := map[
    CKA_KEY_TYPE := Spec({1, 5}, Some(8), Match, Number(VENDOR_DEFINED)),
    CKA_ID := Text({8}),
    CKA_START_DATE := Spec({8}, None, Date, Str([])),
    CKA_END_DATE := Spec({8}, None, Date, Str([]))]

  const ORIGIN: Schema := map[
    CKA_DERIVE := Yes({8}, false),
    CKA_LOCAL := Spec({2, 4, 6}, Some(1), ReadOnly, Flag(false)),
    CKA_KEY_GEN_MECHANISM := Spec({2, 4, 6}, Some(8), ReadOnly, Number(UNAVAILABLE)),
    CKA_ALLOWED_MECHANISMS := Spec({}, None, MechanismSet, Mechanisms({}))]

  // What secret and private keys have in common.
  const PROTECTED: Schema := map[
    CKA_SENSITIVE := Spec({8, 9, 11}, Some(1), Sensitive, Flag(false)),
    CKA_EXTRACTABLE := Spec({8, 9, 12}, Some(1), Extractable, Flag(false)),
    CKA_ALWAYS_SENSITIVE := Spec({2, 4, 6}, Some(1), ReadOnly, Flag(false)),
    CKA_NEVER_EXTRACTABLE := Spec({2, 4, 6}, Some(1), ReadOnly, Flag(true))]

  const USES: Schema := map[
    CKA_DECRYPT := Yes({8, 9}, true),
    CKA_SIGN := Yes({8, 9}, true),
    CKA_UNWRAP := Yes({8, 9}, true),
    CKA_WRAP_WITH_TRUSTED := Spec({11}, Some(1), WrapWithTrusted, Flag(false)),
    CKA_UNWRAP_TEMPLATE := Spec({}, None, WrappingTemplate, Template(map[]))]

  const KEY_VALUE: Schema := map[CKA_VALUE := Spec({1, 4, 6, 7}, None, KeyValue, Str([]))]

  const SECRET: Schema := map[
    CKA_ENCRYPT := Yes({8, 9}, true),
    CKA_VERIFY := Yes({8, 9}, true),
    CKA_WRAP := Yes({8, 9}, true),
    CKA_CHECK_VALUE := Spec({8}, None, CheckValue, Str([])),
    CKA_TRUSTED := Spec({10}, Some(1), Trusted, Flag(false)),
    CKA_WRAP_TEMPLATE := Spec({}, None, WrappingTemplate, Template(map[]))]

  // Public key information is kept under the number of CKA_OBJECT_ID.
  const PRIVATE: Schema := map[
    CKA_SUBJECT := Text({8}),
    CKA_OBJECT_ID := Text({8}),
    CKA_SIGN_RECOVER := Yes({8, 9}, true),
    CKA_ALWAYS_AUTHENTICATE := Spec({}, Some(1), AlwaysAuthenticate, Flag(false))]

  const HANDLE: Schema := map[CKA_OS_PRIVATE_HANDLE := Spec({}, None, Sized({OpCreate}), Number(0))]

  const GENERIC_LENGTH: Schema := map[CKA_VALUE_LEN := Spec({2, 3}, Some(8), Sized({OpGenerate, OpDerive}), Number(0))]
  const AES_LENGTH: Schema := map[CKA_VALUE_LEN := Spec({2, 3, 6}, Some(8), Sized({OpGenerate, OpDerive}), Number(0))]
  const VALUE_BITS: Schema := map[CKA_VALUE_BITS := Spec({2, 6}, Some(8), Sized({OpGenerate}), Number(0))]
  const MODULUS: Schema := map[CKA_MODULUS := Spec({1, 4, 6}, None, Measured(CKA_MODULUS_BITS), Str([]))]
  const PRIME: Schema := map[CKA_PRIME := Spec({1, 4, 6}, None, Measured(CKA_PRIME_BITS), Str([]))]

  const SUBPRIME: Schema := map[CKA_SUBPRIME := Text({1, 4, 6})]
  const BASE: Schema := map[CKA_BASE := Text({1, 4, 6})]
  const EC_PARAMS: Schema := map[CKA_EC_PARAMS := Text({1, 4, 6})]
  const GOST_KEY_PARAMS: Schema := map[CKA_GOST28147_PARAMS := Text({1, 3, 5})]

  function OwnSchema(f: Family): Schema {
    match f
    case GenericSecret => GENERIC_LENGTH
    case AesSecret => AES_LENGTH
    case DesSecret => map[]
    case GostSecret => GOST_KEY_PARAMS
    case RsaPrivate => RSA_EXPONENTS + RSA_PRIMES + RSA_REMAINDERS + MODULUS + HANDLE
    case DsaPrivate => PRIME + SUBPRIME + BASE + KEY_VALUE
    case EcPrivate => EC_PARAMS + KEY_VALUE + HANDLE
    case DhPrivate => PRIME + BASE + KEY_VALUE + VALUE_BITS
    case GostPrivate => GostParameters() + KEY_VALUE
  }

  const RSA_EXPONENTS: Schema := map[
    CKA_PUBLIC_EXPONENT := Text({4, 6}),
    CKA_PRIVATE_EXPONENT := Text({1, 4, 6, 7})]

  const RSA_PRIMES: Schema := map[
    CKA_PRIME_1 := Text({4, 6, 7}),
    CKA_PRIME_2 := Text({4, 6, 7})]

  const RSA_REMAINDERS: Schema := map[
    CKA_EXPONENT_1 := Text({4, 6, 7}),
    CKA_EXPONENT_2 := Text({4, 6, 7}),
    CKA_COEFFICIENT := Text({4, 6, 7})]

  function GostParameters(): Schema {
    map[
      CKA_GOSTR3410_PARAMS := Text({1, 4, 6}),
      CKA_GOSTR3411_PARAMS := Text({1, 4, 6, 8}),
      CKA_GOST28147_PARAMS := Text({4, 6, 8})]
  }

  function SchemaOf(f: Family): Schema {
    OBJECT + CARE + KEY + ORIGIN + PROTECTED + USES + (if IsSecret(f) then SECRET + KEY_VALUE else PRIVATE) + OwnSchema(f)
  }

  lemma ObjectProper() ensures PartProper(OBJECT) {}
  lemma CareProper() ensures PartProper(CARE) {}
  lemma KeyProper() ensures PartProper(KEY) {}
  lemma OriginProper() ensures PartProper(ORIGIN) {}
  lemma ProtectedProper() ensures PartProper(PROTECTED) {}
  lemma UsesProper() ensures PartProper(USES) {}
  lemma SecretProper() ensures PartProper(SECRET) {}
  lemma ValueProper() ensures PartProper(KEY_VALUE) {}
  lemma PrivateProper() ensures PartProper(PRIVATE) {}
  lemma LengthsProper() ensures PartProper(GENERIC_LENGTH) && PartProper(AES_LENGTH) && PartProper(VALUE_BITS) {}
  lemma ModulusProper() ensures PartProper(MODULUS) {}
  lemma PrimeProper() ensures PartProper(PRIME) {}
  lemma HandleProper() ensures PartProper(HANDLE) {}
  lemma DomainProper() ensures PartProper(SUBPRIME) && PartProper(BASE) {}
  lemma EcProper() ensures PartProper(EC_PARAMS) {}
  lemma GostKeyProper() ensures PartProper(GOST_KEY_PARAMS) {}
  lemma ExponentsProper() ensures PartProper(RSA_EXPONENTS) && PartProper(RSA_PRIMES) {}
  lemma RemaindersProper() ensures PartProper(RSA_REMAINDERS) {}
  lemma GostProper() ensures PartProper(GostParameters()) {}

  lemma JoinProper(a: Schema, b: Schema)
    requires PartProper(a) && PartProper(b)
    ensures PartProper(a + b)
  {
  }

  lemma RsaOwnProper()
    ensures PartProper(RSA_EXPONENTS + RSA_PRIMES + RSA_REMAINDERS + MODULUS + HANDLE)
  {
    ExponentsProper();
    RemaindersProper();
    ModulusProper();
    HandleProper();
    JoinProper(RSA_EXPONENTS, RSA_PRIMES);
    JoinProper(RSA_EXPONENTS + RSA_PRIMES, RSA_REMAINDERS);
    JoinProper(RSA_EXPONENTS + RSA_PRIMES + RSA_REMAINDERS, MODULUS);
    JoinProper(RSA_EXPONENTS + RSA_PRIMES + RSA_REMAINDERS + MODULUS, HANDLE);
  }

  lemma DsaOwnProper()
    ensures PartProper(PRIME + SUBPRIME + BASE + KEY_VALUE)
  {
    PrimeProper();
    DomainProper();
    ValueProper();
    JoinProper(PRIME, SUBPRIME);
    JoinProper(PRIME + SUBPRIME, BASE);
    JoinProper(PRIME + SUBPRIME + BASE, KEY_VALUE);
  }

  lemma EcOwnProper()
    ensures PartProper(EC_PARAMS + KEY_VALUE + HANDLE)
  {
    EcProper();
    HandleProper();
    ValueProper();
    JoinProper(EC_PARAMS, KEY_VALUE);
    JoinProper(EC_PARAMS + KEY_VALUE, HANDLE);
  }

  lemma DhOwnProper()
    ensures PartProper(PRIME + BASE + KEY_VALUE + VALUE_BITS)
  {
    LengthsProper();
    PrimeProper();
    DomainProper();
    ValueProper();
    JoinProper(PRIME, BASE);
    JoinProper(PRIME + BASE, KEY_VALUE);
    JoinProper(PRIME + BASE + KEY_VALUE, VALUE_BITS);
  }

  lemma GostOwnProper()
    ensures PartProper(GostParameters() + KEY_VALUE)
  {
    GostProper();
    ValueProper();
    JoinProper(GostParameters(), KEY_VALUE);
  }

  lemma NothingProper() ensures PartProper(map[]) {}

  lemma OwnProper(f: Family)
    ensures PartProper(OwnSchema(f)) == true
  {
    match f
    case GenericSecret => LengthsProper();
    case AesSecret => LengthsProper();
    case DesSecret => NothingProper();
    case GostSecret => GostKeyProper();
    case RsaPrivate => RsaOwnProper();
    case DsaPrivate => DsaOwnProper();
    case EcPrivate => EcOwnProper();
    case DhPrivate => DhOwnProper();
    case GostPrivate => GostOwnProper();
  }

  lemma Essentials(f: Family)
    ensures HasEssentials(SchemaOf(f)) && (IsSecret(f) ==> CKA_CHECK_VALUE in SchemaOf(f))
  {
    assert CKA_CLASS in OBJECT && CKA_PRIVATE in OBJECT && CKA_TOKEN in OBJECT && CKA_MODIFIABLE in OBJECT;
    assert CKA_COPYABLE in CARE;
    assert CKA_KEY_TYPE in KEY && CKA_LOCAL in ORIGIN && CKA_KEY_GEN_MECHANISM in ORIGIN && CKA_DERIVE in ORIGIN;
    assert CKA_SENSITIVE in PROTECTED && CKA_EXTRACTABLE in PROTECTED;
    assert CKA_ALWAYS_SENSITIVE in PROTECTED && CKA_NEVER_EXTRACTABLE in PROTECTED;
    assert CKA_CHECK_VALUE in SECRET;
  }

  lemma SchemaProper(f: Family)
    ensures Proper(SchemaOf(f)) && (IsSecret(f) ==> CKA_CHECK_VALUE in SchemaOf(f))
  {
    Essentials(f);
    ObjectProper();
    CareProper();
    KeyProper();
    OriginProper();
    ProtectedProper();
    UsesProper();
    SecretProper();
    ValueProper();
    PrivateProper();
    OwnProper(f);
    JoinProper(OBJECT, CARE);
    JoinProper(OBJECT + CARE, KEY);
    JoinProper(OBJECT + CARE + KEY, ORIGIN);
    JoinProper(OBJECT + CARE + KEY + ORIGIN, PROTECTED);
    JoinProper(SECRET, KEY_VALUE);
    var x := if IsSecret(f) then SECRET + KEY_VALUE else PRIVATE;
    JoinProper(OBJECT + CARE + KEY + ORIGIN + PROTECTED, USES);
    JoinProper(OBJECT + CARE + KEY + ORIGIN + PROTECTED + USES, x);
    JoinProper(OBJECT + CARE + KEY + ORIGIN + PROTECTED + USES + x, OwnSchema(f));
  }

  // The schema for a class and a key type.
  function NewP11Object(objClass: nat, keyType: nat): Option<Schema> {
    match FamilyOf(objClass, keyType)
    case Some(f) => Some(SchemaOf(f))
    case None => None
  }

  lemma FamilyClass(objClass: nat, keyType: nat)
    requires FamilyOf(objClass, keyType).Some?
    ensures IsSecret(FamilyOf(objClass, keyType).value) <==> objClass == CKO_SECRET_KEY
  {
  }

  lemma SchemaAt(objClass: nat, keyType: nat)
    requires NewP11Object(objClass, keyType).Some?
    ensures Proper(NewP11Object(objClass, keyType).value) == true
    ensures (objClass == CKO_SECRET_KEY ==> CKA_CHECK_VALUE in NewP11Object(objClass, keyType).value) == true
  {
    var f := FamilyOf(objClass, keyType).value;
    SchemaProper(f);
    FamilyClass(objClass, keyType);
  }

  lemma NewP11ObjectSound()
    ensures SoundSchemas(NewP11Object)
  {
    forall c, t | NewP11Object(c, t).Some?
      ensures Proper(NewP11Object(c, t).value) == true
      ensures (c == CKO_SECRET_KEY ==> CKA_CHECK_VALUE in NewP11Object(c, t).value) == true
    {
      SchemaAt(c, t);
    }
  }
}
