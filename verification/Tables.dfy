// The footnotes of the attributes of every kind of key, read the other way round: for each footnote
// the attributes that have it.
module Tables {
  import opened Bytes
  import opened Attributes
  import opened KeySchema

  function Notes(s: Schema, n: int): set<Kind> { set k | k in s && n in s[k].checks }

  predicate Listed(n: int) { 1 <= n <= 8 || n == 17 }

  // A schema with these attributes, of which those in `notes` have footnote n.
  predicate Lists(s: Schema, keys: set<Kind>, n: int, notes: set<Kind>) { s.Keys == keys && Notes(s, n) == notes }

  lemma Joined(a: Schema, b: Schema, keys: set<Kind>, more: set<Kind>, n: int, notes: set<Kind>, others: set<Kind>)
    requires Lists(a, keys, n, notes) && Lists(b, more, n, others) && keys !! more
    ensures Lists(a + b, keys + more, n, notes + others) == true
  {
  }

  // ---------- what all keys have ----------

  // Class and key type are needed, what the library keeps about the key's origin is not accepted,
  // and uses, labels and dates can be changed.
  function CommonNotes(n: int): set<Kind> {
    if n == 1 then {CKA_CLASS, CKA_KEY_TYPE}
    else if n == 5 then {CKA_KEY_TYPE}
    else if n == 2 || n == 4 || n == 6 then {CKA_LOCAL, CKA_KEY_GEN_MECHANISM, CKA_ALWAYS_SENSITIVE, CKA_NEVER_EXTRACTABLE}
    else if n == 8 then
      {CKA_LABEL, CKA_ID, CKA_START_DATE, CKA_END_DATE, CKA_DERIVE, CKA_SENSITIVE, CKA_EXTRACTABLE, CKA_DECRYPT, CKA_SIGN,
       CKA_UNWRAP}
    else if n == 17 then {CKA_TOKEN, CKA_PRIVATE, CKA_MODIFIABLE, CKA_DESTROYABLE}
    else {}
  }

  function ObjectKeys(): set<Kind> { {CKA_CLASS, CKA_TOKEN, CKA_PRIVATE, CKA_MODIFIABLE} }
  function CareKeys(): set<Kind> { {CKA_LABEL, CKA_COPYABLE, CKA_DESTROYABLE} }
  function KeyKeys(): set<Kind> { {CKA_KEY_TYPE, CKA_ID, CKA_START_DATE, CKA_END_DATE} }
  function OriginKeys(): set<Kind> { {CKA_DERIVE, CKA_LOCAL, CKA_KEY_GEN_MECHANISM, CKA_ALLOWED_MECHANISMS} }
  function ProtectedKeys(): set<Kind> { {CKA_SENSITIVE, CKA_EXTRACTABLE, CKA_ALWAYS_SENSITIVE, CKA_NEVER_EXTRACTABLE} }
  function UsesKeys(): set<Kind> { {CKA_DECRYPT, CKA_SIGN, CKA_UNWRAP, CKA_WRAP_WITH_TRUSTED, CKA_UNWRAP_TEMPLATE} }

  function CommonKeys(): set<Kind> {
    ObjectKeys() + CareKeys() + KeyKeys() + OriginKeys() + ProtectedKeys() + UsesKeys()
  }

  lemma ObjectNotes(n: int)
    requires Listed(n)
    ensures Lists(OBJECT, ObjectKeys(), n, CommonNotes(n) * ObjectKeys()) == true
  {
  }

  lemma CareNotes(n: int)
    requires Listed(n)
    ensures Lists(CARE, CareKeys(), n, CommonNotes(n) * CareKeys()) == true
  {
  }

  lemma KeyNotes(n: int)
    requires Listed(n)
    ensures Lists(KEY, KeyKeys(), n, CommonNotes(n) * KeyKeys()) == true
  {
  }

  lemma OriginNotes(n: int)
    requires Listed(n)
    ensures Lists(ORIGIN, OriginKeys(), n, CommonNotes(n) * OriginKeys()) == true
  {
  }

  lemma ProtectedNotes(n: int)
    requires Listed(n)
    ensures Lists(PROTECTED, ProtectedKeys(), n, CommonNotes(n) * ProtectedKeys()) == true
  {
  }

  lemma UsesNotes(n: int)
    requires Listed(n)
    ensures Lists(USES, UsesKeys(), n, CommonNotes(n) * UsesKeys()) == true
  {
  }

  // The footnotes of a part, as those among `all`.
  lemma JoinedWithin(a: Schema, b: Schema, keys: set<Kind>, more: set<Kind>, n: int, all: set<Kind>)
    requires Lists(a, keys, n, all * keys) == true && Lists(b, more, n, all * more) == true && keys !! more
    ensures Lists(a + b, keys + more, n, all * (keys + more)) == true
  {
    Joined(a, b, keys, more, n, all * keys, all * more);
    assert all * keys + all * more == all * (keys + more);
  }

  lemma CommonDisjoint()
    ensures ObjectKeys() !! CareKeys() !! KeyKeys() !! OriginKeys() !! ProtectedKeys() !! UsesKeys()
  {
  }

  lemma CommonWithin(n: int)
    requires Listed(n)
    ensures CommonNotes(n) * CommonKeys() == CommonNotes(n)
  {
  }

  lemma CommonListed(n: int)
    requires Listed(n)
    ensures Lists(OBJECT + CARE + KEY + ORIGIN + PROTECTED + USES, CommonKeys(), n, CommonNotes(n)) == true
  {
    var all := CommonNotes(n);
    var k0, k1, k2, k3, k4, k5 := ObjectKeys(), CareKeys(), KeyKeys(), OriginKeys(), ProtectedKeys(), UsesKeys();
    CommonDisjoint();
    ObjectNotes(n);
    CareNotes(n);
    KeyNotes(n);
    OriginNotes(n);
    ProtectedNotes(n);
    UsesNotes(n);
    CommonWithin(n);
    JoinedSix(OBJECT, CARE, KEY, ORIGIN, PROTECTED, USES, k0, k1, k2, k3, k4, k5, n, all);
  }

  lemma JoinedSix(a: Schema, b: Schema, c: Schema, d: Schema, e: Schema, f: Schema, k0: set<Kind>, k1: set<Kind>,
                  k2: set<Kind>, k3: set<Kind>, k4: set<Kind>, k5: set<Kind>, n: int, all: set<Kind>)
    requires k0 !! k1 !! k2 !! k3 !! k4 !! k5
    requires Lists(a, k0, n, all * k0) == true && Lists(b, k1, n, all * k1) == true && Lists(c, k2, n, all * k2) == true
    requires Lists(d, k3, n, all * k3) == true && Lists(e, k4, n, all * k4) == true && Lists(f, k5, n, all * k5) == true
    ensures var keys := k0 + k1 + k2 + k3 + k4 + k5;
      Lists(a + b + c + d + e + f, keys, n, all * keys) == true
  {
    JoinedWithin(a, b, k0, k1, n, all);
    JoinedWithin(a + b, c, k0 + k1, k2, n, all);
    JoinedWithin(a + b + c, d, k0 + k1 + k2, k3, n, all);
    JoinedWithin(a + b + c + d, e, k0 + k1 + k2 + k3, k4, n, all);
    JoinedWithin(a + b + c + d + e, f, k0 + k1 + k2 + k3 + k4, k5, n, all);
  }

  // ---------- what secret and private keys have ----------

  function ClassNotes(f: Family, n: int): set<Kind> {
    if IsSecret(f) then
      if n == 1 || n == 4 || n == 6 || n == 7 then {CKA_VALUE}
      else if n == 8 then {CKA_ENCRYPT, CKA_VERIFY, CKA_WRAP, CKA_CHECK_VALUE}
      else {}
    else if n == 8 then {CKA_SUBJECT, CKA_OBJECT_ID, CKA_SIGN_RECOVER}
    else {}
  }

  function ClassKeys(f: Family): set<Kind> {
    if IsSecret(f)
    then {CKA_ENCRYPT, CKA_VERIFY, CKA_WRAP, CKA_CHECK_VALUE, CKA_TRUSTED, CKA_WRAP_TEMPLATE, CKA_VALUE}
    else {CKA_SUBJECT, CKA_OBJECT_ID, CKA_SIGN_RECOVER, CKA_ALWAYS_AUTHENTICATE}
  }

  lemma SecretNotes(n: int)
    requires Listed(n)
    ensures Lists(SECRET, {CKA_ENCRYPT, CKA_VERIFY, CKA_WRAP, CKA_CHECK_VALUE, CKA_TRUSTED, CKA_WRAP_TEMPLATE}, n,
                  if n == 8 then {CKA_ENCRYPT, CKA_VERIFY, CKA_WRAP, CKA_CHECK_VALUE} else {}) == true
  {
  }

  lemma ValueNotes(n: int)
    requires Listed(n)
    ensures Lists(KEY_VALUE, {CKA_VALUE}, n, if n == 1 || n == 4 || n == 6 || n == 7 then {CKA_VALUE} else {}) == true
  {
  }

  lemma PrivateNotes(n: int)
    requires Listed(n)
    ensures Lists(PRIVATE, {CKA_SUBJECT, CKA_OBJECT_ID, CKA_SIGN_RECOVER, CKA_ALWAYS_AUTHENTICATE}, n,
                  if n == 8 then {CKA_SUBJECT, CKA_OBJECT_ID, CKA_SIGN_RECOVER} else {}) == true
  {
  }

  lemma SecretSets(n: int)
    ensures var keys: set<Kind> := {CKA_ENCRYPT, CKA_VERIFY, CKA_WRAP, CKA_CHECK_VALUE, CKA_TRUSTED, CKA_WRAP_TEMPLATE};
      var notes: set<Kind> := if n == 8 then {CKA_ENCRYPT, CKA_VERIFY, CKA_WRAP, CKA_CHECK_VALUE} else {};
      var others: set<Kind> := if n == 1 || n == 4 || n == 6 || n == 7 then {CKA_VALUE} else {};
      keys !! {CKA_VALUE} && keys + {CKA_VALUE} == ClassKeys(GenericSecret) && notes + others == ClassNotes(GenericSecret, n)
  {
  }

  lemma ClassListed(f: Family, n: int)
    requires Listed(n)
    ensures Lists(if IsSecret(f) then SECRET + KEY_VALUE else PRIVATE, ClassKeys(f), n, ClassNotes(f, n)) == true
  {
    if IsSecret(f) {
      SecretNotes(n);
      ValueNotes(n);
      SecretSets(n);
      Joined(SECRET, KEY_VALUE, {CKA_ENCRYPT, CKA_VERIFY, CKA_WRAP, CKA_CHECK_VALUE, CKA_TRUSTED, CKA_WRAP_TEMPLATE}, {CKA_VALUE}, n,
             if n == 8 then {CKA_ENCRYPT, CKA_VERIFY, CKA_WRAP, CKA_CHECK_VALUE} else {},
             if n == 1 || n == 4 || n == 6 || n == 7 then {CKA_VALUE} else {});
    } else {
      PrivateNotes(n);
    }
  }

  // ---------- what each kind of key has ----------

  const RSA_PARTS: set<Kind> :=
    {CKA_PRIVATE_EXPONENT, CKA_PRIME_1, CKA_PRIME_2, CKA_EXPONENT_1, CKA_EXPONENT_2, CKA_COEFFICIENT}

  function OwnNotes(f: Family, n: int): set<Kind> {
    match f
    case GenericSecret => if n == 2 || n == 3 then {CKA_VALUE_LEN} else {}
    case AesSecret => if n == 2 || n == 3 || n == 6 then {CKA_VALUE_LEN} else {}
    case DesSecret => {}
    case GostSecret => if n == 1 || n == 3 || n == 5 then {CKA_GOST28147_PARAMS} else {}
    case RsaPrivate =>
      if n == 1 then {CKA_MODULUS, CKA_PRIVATE_EXPONENT}
      else if n == 4 || n == 6 then RSA_PARTS + {CKA_MODULUS, CKA_PUBLIC_EXPONENT}
      else if n == 7 then RSA_PARTS
      else {}
    case DsaPrivate =>
      if n == 1 || n == 4 || n == 6 then {CKA_PRIME, CKA_SUBPRIME, CKA_BASE, CKA_VALUE} else if n == 7 then {CKA_VALUE} else {}
    case EcPrivate => if n == 1 || n == 4 || n == 6 then {CKA_EC_PARAMS, CKA_VALUE} else if n == 7 then {CKA_VALUE} else {}
    case DhPrivate =>
      if n == 1 || n == 4 then {CKA_PRIME, CKA_BASE, CKA_VALUE}
      else if n == 6 then {CKA_PRIME, CKA_BASE, CKA_VALUE, CKA_VALUE_BITS}
      else if n == 2 then {CKA_VALUE_BITS}
      else if n == 7 then {CKA_VALUE}
      else {}
    case GostPrivate =>
      if n == 1 then {CKA_GOSTR3410_PARAMS, CKA_GOSTR3411_PARAMS, CKA_VALUE}
      else if n == 4 || n == 6 then {CKA_GOSTR3410_PARAMS, CKA_GOSTR3411_PARAMS, CKA_GOST28147_PARAMS, CKA_VALUE}
      else if n == 7 then {CKA_VALUE}
      else if n == 8 then {CKA_GOSTR3411_PARAMS, CKA_GOST28147_PARAMS}
      else {}
  }

  function OwnKeys(f: Family): set<Kind> {
    match f
    case GenericSecret => {CKA_VALUE_LEN}
    case AesSecret => {CKA_VALUE_LEN}
    case DesSecret => {}
    case GostSecret => {CKA_GOST28147_PARAMS}
    case RsaPrivate => RSA_PARTS + {CKA_MODULUS, CKA_PUBLIC_EXPONENT, CKA_OS_PRIVATE_HANDLE}
    case DsaPrivate => {CKA_PRIME, CKA_SUBPRIME, CKA_BASE, CKA_VALUE}
    case EcPrivate => {CKA_EC_PARAMS, CKA_VALUE, CKA_OS_PRIVATE_HANDLE}
    case DhPrivate => {CKA_PRIME, CKA_BASE, CKA_VALUE, CKA_VALUE_BITS}
    case GostPrivate => {CKA_GOSTR3410_PARAMS, CKA_GOSTR3411_PARAMS, CKA_GOST28147_PARAMS, CKA_VALUE}
  }

  lemma GenericOwn(n: int)
    requires Listed(n)
    ensures Lists(OwnSchema(GenericSecret), OwnKeys(GenericSecret), n, OwnNotes(GenericSecret, n)) == true
  {
  }

  lemma AesOwn(n: int)
    requires Listed(n)
    ensures Lists(OwnSchema(AesSecret), OwnKeys(AesSecret), n, OwnNotes(AesSecret, n)) == true
  {
  }

  lemma GostSecretOwn(n: int)
    requires Listed(n)
    ensures Lists(OwnSchema(GostSecret), OwnKeys(GostSecret), n, OwnNotes(GostSecret, n)) == true
  {
  }

  lemma DesOwn(n: int)
    ensures Lists(OwnSchema(DesSecret), OwnKeys(DesSecret), n, OwnNotes(DesSecret, n)) == true
  {
  }

  predicate HasDomain(f: Family) { f.DsaPrivate? || f.DhPrivate? }

  lemma PrimeNotes(f: Family, n: int)
    requires Listed(n) && HasDomain(f)
    ensures Lists(PRIME, {CKA_PRIME}, n, OwnNotes(f, n) * {CKA_PRIME}) == true
  {
  }

  lemma BaseNotes(f: Family, n: int)
    requires Listed(n) && HasDomain(f)
    ensures Lists(BASE, {CKA_BASE}, n, OwnNotes(f, n) * {CKA_BASE}) == true
  {
  }

  lemma SubprimeNotes(n: int)
    requires Listed(n)
    ensures Lists(SUBPRIME, {CKA_SUBPRIME}, n, OwnNotes(DsaPrivate, n) * {CKA_SUBPRIME}) == true
  {
  }

  lemma BitsNotes(n: int)
    requires Listed(n)
    ensures Lists(VALUE_BITS, {CKA_VALUE_BITS}, n, OwnNotes(DhPrivate, n) * {CKA_VALUE_BITS}) == true
  {
  }

  lemma KeyValueNotes(f: Family, n: int)
    requires Listed(n) && !IsSecret(f) && !f.RsaPrivate?
    ensures Lists(KEY_VALUE, {CKA_VALUE}, n, OwnNotes(f, n) * {CKA_VALUE}) == true
  {
  }

  lemma EcNotes(n: int)
    requires Listed(n)
    ensures Lists(EC_PARAMS, {CKA_EC_PARAMS}, n, OwnNotes(EcPrivate, n) * {CKA_EC_PARAMS}) == true
  {
  }

  lemma HandleNotes(f: Family, n: int)
    requires Listed(n) && (f.RsaPrivate? || f.EcPrivate?)
    ensures Lists(HANDLE, {CKA_OS_PRIVATE_HANDLE}, n, OwnNotes(f, n) * {CKA_OS_PRIVATE_HANDLE}) == true
  {
  }

  lemma GostNotes(n: int)
    requires Listed(n)
    ensures var keys: set<Kind> := {CKA_GOSTR3410_PARAMS, CKA_GOSTR3411_PARAMS, CKA_GOST28147_PARAMS};
      Lists(GostParameters(), keys, n, OwnNotes(GostPrivate, n) * keys) == true
  {
  }

  lemma ExponentsNotes(n: int)
    requires Listed(n)
    ensures var keys: set<Kind> := {CKA_PUBLIC_EXPONENT, CKA_PRIVATE_EXPONENT};
      Lists(RSA_EXPONENTS, keys, n, OwnNotes(RsaPrivate, n) * keys) == true
  {
  }

  lemma PrimesNotes(n: int)
    requires Listed(n)
    ensures var keys: set<Kind> := {CKA_PRIME_1, CKA_PRIME_2};
      Lists(RSA_PRIMES, keys, n, OwnNotes(RsaPrivate, n) * keys) == true
  {
  }

  lemma RemaindersNotes(n: int)
    requires Listed(n)
    ensures var keys: set<Kind> := {CKA_EXPONENT_1, CKA_EXPONENT_2, CKA_COEFFICIENT};
      Lists(RSA_REMAINDERS, keys, n, OwnNotes(RsaPrivate, n) * keys) == true
  {
  }

  lemma ModulusNotes(n: int)
    requires Listed(n)
    ensures Lists(MODULUS, {CKA_MODULUS}, n, OwnNotes(RsaPrivate, n) * {CKA_MODULUS}) == true
  {
  }

  lemma JoinedFour(a: Schema, b: Schema, c: Schema, d: Schema, k0: set<Kind>, k1: set<Kind>, k2: set<Kind>, k3: set<Kind>,
                   n: int, all: set<Kind>)
    requires k0 !! k1 !! k2 !! k3
    requires Lists(a, k0, n, all * k0) == true && Lists(b, k1, n, all * k1) == true
    requires Lists(c, k2, n, all * k2) == true && Lists(d, k3, n, all * k3) == true
    ensures Lists(a + b + c + d, k0 + k1 + k2 + k3, n, all * (k0 + k1 + k2 + k3)) == true
  {
    JoinedWithin(a, b, k0, k1, n, all);
    JoinedWithin(a + b, c, k0 + k1, k2, n, all);
    JoinedWithin(a + b + c, d, k0 + k1 + k2, k3, n, all);
  }

  lemma OwnWithin(f: Family, n: int)
    requires Listed(n)
    ensures OwnNotes(f, n) * OwnKeys(f) == OwnNotes(f, n)
  {
  }

  lemma DsaOwn(n: int)
    requires Listed(n)
    ensures Lists(OwnSchema(DsaPrivate), OwnKeys(DsaPrivate), n, OwnNotes(DsaPrivate, n)) == true
  {
    PrimeNotes(DsaPrivate, n);
    SubprimeNotes(n);
    BaseNotes(DsaPrivate, n);
    KeyValueNotes(DsaPrivate, n);
    OwnWithin(DsaPrivate, n);
    JoinedFour(PRIME, SUBPRIME, BASE, KEY_VALUE, {CKA_PRIME}, {CKA_SUBPRIME}, {CKA_BASE}, {CKA_VALUE}, n, OwnNotes(DsaPrivate, n));
    assert {CKA_PRIME} + {CKA_SUBPRIME} + {CKA_BASE} + {CKA_VALUE} == OwnKeys(DsaPrivate);
  }

  lemma DhOwn(n: int)
    requires Listed(n)
    ensures Lists(OwnSchema(DhPrivate), OwnKeys(DhPrivate), n, OwnNotes(DhPrivate, n)) == true
  {
    PrimeNotes(DhPrivate, n);
    BaseNotes(DhPrivate, n);
    KeyValueNotes(DhPrivate, n);
    BitsNotes(n);
    OwnWithin(DhPrivate, n);
    JoinedFour(PRIME, BASE, KEY_VALUE, VALUE_BITS, {CKA_PRIME}, {CKA_BASE}, {CKA_VALUE}, {CKA_VALUE_BITS}, n, OwnNotes(DhPrivate, n));
    assert {CKA_PRIME} + {CKA_BASE} + {CKA_VALUE} + {CKA_VALUE_BITS} == OwnKeys(DhPrivate);
  }

  lemma EcOwn(n: int)
    requires Listed(n)
    ensures Lists(OwnSchema(EcPrivate), OwnKeys(EcPrivate), n, OwnNotes(EcPrivate, n)) == true
  {
    EcNotes(n);
    KeyValueNotes(EcPrivate, n);
    HandleNotes(EcPrivate, n);
    OwnWithin(EcPrivate, n);
    JoinedWithin(EC_PARAMS, KEY_VALUE, {CKA_EC_PARAMS}, {CKA_VALUE}, n, OwnNotes(EcPrivate, n));
    JoinedWithin(EC_PARAMS + KEY_VALUE, HANDLE, {CKA_EC_PARAMS} + {CKA_VALUE}, {CKA_OS_PRIVATE_HANDLE}, n, OwnNotes(EcPrivate, n));
    assert {CKA_EC_PARAMS} + {CKA_VALUE} + {CKA_OS_PRIVATE_HANDLE} == OwnKeys(EcPrivate);
  }

  lemma GostOwn(n: int)
    requires Listed(n)
    ensures Lists(OwnSchema(GostPrivate), OwnKeys(GostPrivate), n, OwnNotes(GostPrivate, n)) == true
  {
    var keys: set<Kind> := {CKA_GOSTR3410_PARAMS, CKA_GOSTR3411_PARAMS, CKA_GOST28147_PARAMS};
    GostNotes(n);
    KeyValueNotes(GostPrivate, n);
    OwnWithin(GostPrivate, n);
    JoinedWithin(GostParameters(), KEY_VALUE, keys, {CKA_VALUE}, n, OwnNotes(GostPrivate, n));
    assert keys + {CKA_VALUE} == OwnKeys(GostPrivate);
  }

  lemma RsaKeys()
    ensures {CKA_PUBLIC_EXPONENT, CKA_PRIVATE_EXPONENT} + {CKA_PRIME_1, CKA_PRIME_2}
          + {CKA_EXPONENT_1, CKA_EXPONENT_2, CKA_COEFFICIENT} + {CKA_MODULUS} + {CKA_OS_PRIVATE_HANDLE} == OwnKeys(RsaPrivate)
  {
  }

  lemma RsaDisjoint()
    ensures {CKA_PUBLIC_EXPONENT, CKA_PRIVATE_EXPONENT} !! {CKA_PRIME_1, CKA_PRIME_2}
         !! {CKA_EXPONENT_1, CKA_EXPONENT_2, CKA_COEFFICIENT} !! {CKA_MODULUS} !! {CKA_OS_PRIVATE_HANDLE}
  {
  }

  lemma JoinedFive(a: Schema, b: Schema, c: Schema, d: Schema, e: Schema, k0: set<Kind>, k1: set<Kind>, k2: set<Kind>,
                   k3: set<Kind>, k4: set<Kind>, n: int, all: set<Kind>)
    requires k0 !! k1 !! k2 !! k3 !! k4
    requires Lists(a, k0, n, all * k0) == true && Lists(b, k1, n, all * k1) == true
    requires Lists(c, k2, n, all * k2) == true && Lists(d, k3, n, all * k3) == true && Lists(e, k4, n, all * k4) == true
    ensures var keys := k0 + k1 + k2 + k3 + k4;
      Lists(a + b + c + d + e, keys, n, all * keys) == true
  {
    JoinedFour(a, b, c, d, k0, k1, k2, k3, n, all);
    JoinedWithin(a + b + c + d, e, k0 + k1 + k2 + k3, k4, n, all);
  }

  lemma RsaOwn(n: int)
    requires Listed(n)
    ensures Lists(OwnSchema(RsaPrivate), OwnKeys(RsaPrivate), n, OwnNotes(RsaPrivate, n)) == true
  {
    ExponentsNotes(n);
    PrimesNotes(n);
    RemaindersNotes(n);
    ModulusNotes(n);
    HandleNotes(RsaPrivate, n);
    OwnWithin(RsaPrivate, n);
    RsaKeys();
    RsaDisjoint();
    JoinedFive(RSA_EXPONENTS, RSA_PRIMES, RSA_REMAINDERS, MODULUS, HANDLE, {CKA_PUBLIC_EXPONENT, CKA_PRIVATE_EXPONENT},
               {CKA_PRIME_1, CKA_PRIME_2}, {CKA_EXPONENT_1, CKA_EXPONENT_2, CKA_COEFFICIENT}, {CKA_MODULUS},
               {CKA_OS_PRIVATE_HANDLE}, n, OwnNotes(RsaPrivate, n));
  }

  lemma OwnListed(f: Family, n: int)
    requires Listed(n)
    ensures Lists(OwnSchema(f), OwnKeys(f), n, OwnNotes(f, n)) == true
  {
    match f
    case DsaPrivate => DsaOwn(n);
    case EcPrivate => EcOwn(n);
    case DhPrivate => DhOwn(n);
    case GostPrivate => GostOwn(n);
    case RsaPrivate => RsaOwn(n);
    case GenericSecret => GenericOwn(n);
    case AesSecret => AesOwn(n);
    case DesSecret => DesOwn(n);
    case GostSecret => GostSecretOwn(n);
  }

  // Tells the attributes all keys have from the others.
  predicate IsCommon(k: Kind) {
    k < 4 || 0x101 < k < 0x104 || k == 0x100 || k == 0x105 || 0x106 < k < 0x109 || 0x10B < k < 0x120
    || 0x161 < k < 0x173 || k == 0x210 || k == 0x4000_0212 || k == 0x4000_0600
  }

  lemma CommonIs(k: Kind)
    requires k in CommonKeys()
    ensures IsCommon(k)
  {
    var late := ProtectedKeys() + UsesKeys();
    if k in late {
      LateCommon(k);
    } else {
      assert k in ObjectKeys() || k in CareKeys() || k in KeyKeys() || k in OriginKeys();
      EarlyCommon(k);
    }
  }

  lemma EarlyCommon(k: Kind)
    requires k in ObjectKeys() || k in CareKeys() || k in KeyKeys() || k in OriginKeys()
    ensures IsCommon(k)
  {
  }

  lemma LateCommon(k: Kind)
    requires k in ProtectedKeys() || k in UsesKeys()
    ensures IsCommon(k)
  {
  }

  lemma OwnIsNot(f: Family, k: Kind)
    requires k in OwnKeys(f)
    ensures !IsCommon(k)
  {
  }

  lemma ClassIsNot(f: Family, k: Kind)
    requires k in ClassKeys(f)
    ensures !IsCommon(k)
  {
  }

  lemma OwnDisjoint(f: Family)
    ensures ClassKeys(f) !! OwnKeys(f)
  {
  }

  lemma FamiliesDisjoint(f: Family)
    ensures CommonKeys() !! ClassKeys(f) && CommonKeys() !! OwnKeys(f)
  {
    forall k | k in CommonKeys() ensures k !in ClassKeys(f) && k !in OwnKeys(f) {
      CommonIs(k);
      if k in ClassKeys(f) {
        ClassIsNot(f, k);
      }
      if k in OwnKeys(f) {
        OwnIsNot(f, k);
      }
    }
  }

  lemma JoinedThree(a: Schema, b: Schema, c: Schema, k0: set<Kind>, k1: set<Kind>, k2: set<Kind>, n: int,
                    n0: set<Kind>, n1: set<Kind>, n2: set<Kind>)
    requires k0 !! k1 && k1 !! k2 && k0 !! k2
    requires Lists(a, k0, n, n0) == true && Lists(b, k1, n, n1) == true && Lists(c, k2, n, n2) == true
    ensures Lists(a + b + c, k0 + k1 + k2, n, n0 + n1 + n2) == true
  {
    Joined(a, b, k0, k1, n, n0, n1);
    Joined(a + b, c, k0 + k1, k2, n, n0 + n1, n2);
  }

  lemma AllListed(f: Family, n: int)
    requires Listed(n)
    ensures Lists(SchemaOf(f), CommonKeys() + ClassKeys(f) + OwnKeys(f), n,
                  CommonNotes(n) + ClassNotes(f, n) + OwnNotes(f, n)) == true
  {
    CommonListed(n);
    ClassListed(f, n);
    OwnListed(f, n);
    OwnDisjoint(f);
    FamiliesDisjoint(f);
    JoinedThree(OBJECT + CARE + KEY + ORIGIN + PROTECTED + USES, if IsSecret(f) then SECRET + KEY_VALUE else PRIVATE,
                OwnSchema(f), CommonKeys(), ClassKeys(f), OwnKeys(f), n, CommonNotes(n), ClassNotes(f, n), OwnNotes(f, n));
  }

  lemma ReadList(s: Schema, keys: set<Kind>, n: int, notes: set<Kind>)
    requires Lists(s, keys, n, notes) == true
    ensures s.Keys == keys && Notes(s, n) == notes
  {
  }

  lemma HasNote(s: Schema, keys: set<Kind>, n: int, notes: set<Kind>, k: Kind)
    requires Lists(s, keys, n, notes) == true && k in notes
    ensures k in s && n in s[k].checks
  {
    assert k in Notes(s, n);
  }

  lemma LacksNote(s: Schema, keys: set<Kind>, n: int, notes: set<Kind>, k: Kind)
    requires Lists(s, keys, n, notes) == true && k in keys && k !in notes
    ensures k in s && n !in s[k].checks
  {
    assert k !in Notes(s, n);
  }

  // The attributes of each kind of key, and those that have each footnote.
  lemma NotesExactly(f: Family, n: int)
    requires Listed(n)
    ensures SchemaOf(f).Keys == CommonKeys() + ClassKeys(f) + OwnKeys(f)
    ensures Notes(SchemaOf(f), n) == CommonNotes(n) + ClassNotes(f, n) + OwnNotes(f, n)
  {
    AllListed(f, n);
    ReadList(SchemaOf(f), CommonKeys() + ClassKeys(f) + OwnKeys(f), n, CommonNotes(n) + ClassNotes(f, n) + OwnNotes(f, n));
  }

  // ---------- sizes, and what flags there are ----------

  // The size that the values have which a rule stores.
  predicate SizeFits(rule: Rule, size: Option<nat>) {
    match rule
    case Match | Sized(_) => size == Some(8)
    case Plain | Date | KeyValue | CheckValue | Measured(_) | WrappingTemplate | MechanismSet => size == None
    case ReadOnly => size == Some(1) || size == Some(8)
    case _ => size == Some(1)
  }

  // What a key may be used for.
  predicate IsUse(k: Kind) {
    k == CKA_ENCRYPT || k == CKA_DECRYPT || k == CKA_SIGN || k == CKA_VERIFY || k == CKA_WRAP || k == CKA_UNWRAP
    || k == CKA_DERIVE || k == CKA_SIGN_RECOVER
  }

  // Only the handle of a key kept elsewhere has no size of its own.
  predicate Regular(s: Schema) {
    forall k :: k in s ==> (k != CKA_OS_PRIVATE_HANDLE ==> SizeFits(s[k].rule, s[k].size)) && (IsUse(k) ==> s[k].rule.Bool?)
  }

  lemma RegularOnly(a: Schema, b: Schema)
    requires Regular(a) && Regular(b)
    ensures Regular(a + b) == true
  {
  }

  lemma CommonRegular() ensures Regular(OBJECT) && Regular(CARE) && Regular(KEY) {}
  lemma OriginRegular() ensures Regular(ORIGIN) && Regular(PROTECTED) {}
  lemma UsesRegular() ensures Regular(USES) && Regular(PRIVATE) {}
  lemma SecretRegular() ensures Regular(SECRET) && Regular(KEY_VALUE) {}
  lemma DomainRegular() ensures Regular(PRIME) && Regular(SUBPRIME) && Regular(BASE) && Regular(VALUE_BITS) {}
  lemma EcRegular() ensures Regular(EC_PARAMS) && Regular(HANDLE) && Regular(MODULUS) {}
  lemma RsaRegular() ensures Regular(RSA_EXPONENTS) && Regular(RSA_PRIMES) && Regular(RSA_REMAINDERS) {}
  lemma GostRegular() ensures Regular(GostParameters()) && Regular(GOST_KEY_PARAMS) {}
  lemma LengthsRegular() ensures Regular(GENERIC_LENGTH) && Regular(AES_LENGTH) && Regular(map[]) {}

  lemma OwnRegular(f: Family)
    ensures Regular(OwnSchema(f)) == true
  {
    match f
    case DsaPrivate =>
      DomainRegular();
      SecretRegular();
      RegularOnly(PRIME, SUBPRIME);
      RegularOnly(PRIME + SUBPRIME, BASE);
      RegularOnly(PRIME + SUBPRIME + BASE, KEY_VALUE);
    case DhPrivate =>
      DomainRegular();
      SecretRegular();
      RegularOnly(PRIME, BASE);
      RegularOnly(PRIME + BASE, KEY_VALUE);
      RegularOnly(PRIME + BASE + KEY_VALUE, VALUE_BITS);
    case EcPrivate =>
      EcRegular();
      SecretRegular();
      RegularOnly(EC_PARAMS, KEY_VALUE);
      RegularOnly(EC_PARAMS + KEY_VALUE, HANDLE);
    case RsaPrivate =>
      RsaRegular();
      EcRegular();
      RegularOnly(RSA_EXPONENTS, RSA_PRIMES);
      RegularOnly(RSA_EXPONENTS + RSA_PRIMES, RSA_REMAINDERS);
      RegularOnly(RSA_EXPONENTS + RSA_PRIMES + RSA_REMAINDERS, MODULUS);
      RegularOnly(RSA_EXPONENTS + RSA_PRIMES + RSA_REMAINDERS + MODULUS, HANDLE);
    case GostPrivate =>
      GostRegular();
      SecretRegular();
      RegularOnly(GostParameters(), KEY_VALUE);
    case GostSecret => GostRegular();
    case _ => LengthsRegular();
  }

  // Every attribute of every key but that one has the size its rule asks for, and every use is a flag.
  lemma SchemaRegular(f: Family)
    ensures Regular(SchemaOf(f)) == true
  {
    CommonRegular();
    OriginRegular();
    UsesRegular();
    SecretRegular();
    OwnRegular(f);
    var x := if IsSecret(f) then SECRET + KEY_VALUE else PRIVATE;
    RegularOnly(OBJECT, CARE);
    RegularOnly(OBJECT + CARE, KEY);
    RegularOnly(OBJECT + CARE + KEY, ORIGIN);
    RegularOnly(OBJECT + CARE + KEY + ORIGIN, PROTECTED);
    RegularOnly(OBJECT + CARE + KEY + ORIGIN + PROTECTED, USES);
    RegularOnly(SECRET, KEY_VALUE);
    RegularOnly(OBJECT + CARE + KEY + ORIGIN + PROTECTED + USES, x);
    RegularOnly(OBJECT + CARE + KEY + ORIGIN + PROTECTED + USES + x, OwnSchema(f));
  }

  // ---------- the kinds of key there are ----------

  // Classes and key types by number: 3 is a private key, 4 a secret key.
  lemma FamilyNumbers(objClass: nat, keyType: nat)
    ensures FamilyOf(objClass, keyType) == Some(RsaPrivate) <==> objClass == 3 && keyType == 0x00
    ensures FamilyOf(objClass, keyType) == Some(DsaPrivate) <==> objClass == 3 && keyType == 0x01
    ensures FamilyOf(objClass, keyType) == Some(DhPrivate) <==> objClass == 3 && keyType == 0x02
    ensures FamilyOf(objClass, keyType) == Some(EcPrivate) <==> objClass == 3 && keyType == 0x03
    ensures FamilyOf(objClass, keyType) == Some(GostPrivate) <==> objClass == 3 && keyType == 0x30
    ensures FamilyOf(objClass, keyType) == Some(AesSecret) <==> objClass == 4 && keyType == 0x1F
    ensures FamilyOf(objClass, keyType) == Some(DesSecret) <==> objClass == 4 && 0x13 <= keyType <= 0x15
    ensures FamilyOf(objClass, keyType) == Some(GostSecret) <==> objClass == 4 && keyType == 0x32
    ensures FamilyOf(objClass, keyType) == Some(GenericSecret)
      <==> objClass == 4 && (keyType == 0x10 || keyType == 0x27 || keyType == 0x28 || 0x2B <= keyType <= 0x2E)
  {
  }
}
