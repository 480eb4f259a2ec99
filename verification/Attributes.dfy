// Attributes of PKCS#11 key objects: their types, values and footnotes, and the sessions and tokens
// that calls on them go through. Names and numbers are those of PKCS#11 v2.40.
module Attributes {
  import opened Bytes

  // The type of an attribute.
  type Kind = nat

  const CKA_CLASS: Kind := 0x000
  const CKA_TOKEN: Kind := 0x001
  const CKA_PRIVATE: Kind := 0x002
  const CKA_LABEL: Kind := 0x003
  const CKA_VALUE: Kind := 0x011
  const CKA_OBJECT_ID: Kind := 0x012
  const CKA_TRUSTED: Kind := 0x086
  const CKA_CHECK_VALUE: Kind := 0x090
  const CKA_KEY_TYPE: Kind := 0x100
  const CKA_SUBJECT: Kind := 0x101
  const CKA_ID: Kind := 0x102
  const CKA_SENSITIVE: Kind := 0x103
  const CKA_ENCRYPT: Kind := 0x104
  const CKA_DECRYPT: Kind := 0x105
  const CKA_WRAP: Kind := 0x106
  const CKA_UNWRAP: Kind := 0x107
  const CKA_SIGN: Kind := 0x108
  const CKA_SIGN_RECOVER: Kind := 0x109
  const CKA_VERIFY: Kind := 0x10A
  const CKA_DERIVE: Kind := 0x10C
  const CKA_START_DATE: Kind := 0x110
  const CKA_END_DATE: Kind := 0x111
  const CKA_MODULUS: Kind := 0x120
  const CKA_MODULUS_BITS: Kind := 0x121
  const CKA_PUBLIC_EXPONENT: Kind := 0x122
  const CKA_PRIVATE_EXPONENT: Kind := 0x123
  const CKA_PRIME_1: Kind := 0x124
  const CKA_PRIME_2: Kind := 0x125
  const CKA_EXPONENT_1: Kind := 0x126
  const CKA_EXPONENT_2: Kind := 0x127
  const CKA_COEFFICIENT: Kind := 0x128
  const CKA_PRIME: Kind := 0x130
  const CKA_SUBPRIME: Kind := 0x131
  const CKA_BASE: Kind := 0x132
  const CKA_PRIME_BITS: Kind := 0x133
  const CKA_VALUE_BITS: Kind := 0x160
  const CKA_VALUE_LEN: Kind := 0x161
  const CKA_EXTRACTABLE: Kind := 0x162
  const CKA_LOCAL: Kind := 0x163
  const CKA_NEVER_EXTRACTABLE: Kind := 0x164
  const CKA_ALWAYS_SENSITIVE: Kind := 0x165
  const CKA_KEY_GEN_MECHANISM: Kind := 0x166
  const CKA_MODIFIABLE: Kind := 0x170
  const CKA_COPYABLE: Kind := 0x171
  const CKA_DESTROYABLE: Kind := 0x172
  const CKA_EC_PARAMS: Kind := 0x180
  const CKA_ALWAYS_AUTHENTICATE: Kind := 0x202
  const CKA_WRAP_WITH_TRUSTED: Kind := 0x210
  const CKA_GOSTR3410_PARAMS: Kind := 0x250
  const CKA_GOSTR3411_PARAMS: Kind := 0x251
  const CKA_GOST28147_PARAMS: Kind := 0x252
  const CKA_WRAP_TEMPLATE: Kind := 0x4000_0211
  const CKA_UNWRAP_TEMPLATE: Kind := 0x4000_0212
  const CKA_ALLOWED_MECHANISMS: Kind := 0x4000_0600
  const CKA_OS_PRIVATE_HANDLE: Kind := 0x8000_534E

  // A number that no attribute has.
  const NO_SUCH_KIND: Kind := 0xffff

  // What a wrapping template holds.
  datatype Simple = Bit(b: bool) | Word(n: nat) | Text(s: bytes)

  datatype Value =
    | Flag(b: bool)
    | Number(n: nat)
    | Str(s: bytes)
    | Mechanisms(m: set<nat>)
    | Template(t: map<Kind, Simple>)

  type Attrs = map<Kind, Value>

  // One CK_ATTRIBUTE: when `isNull` holds, only the length of `data` means anything.
  datatype Entry = Entry(kind: Kind, isNull: bool, data: bytes)

  datatype Op = OpCopy | OpCreate | OpDerive | OpGenerate | OpSet | OpUnwrap

  datatype Rv =
    | CKR_OK | CKR_GENERAL_ERROR | CKR_ARGUMENTS_BAD | CKR_FUNCTION_FAILED | CKR_ACTION_PROHIBITED
    | CKR_ATTRIBUTE_READ_ONLY | CKR_ATTRIBUTE_SENSITIVE | CKR_ATTRIBUTE_TYPE_INVALID
    | CKR_ATTRIBUTE_VALUE_INVALID | CKR_BUFFER_TOO_SMALL | CKR_TEMPLATE_INCOMPLETE
    | CKR_TEMPLATE_INCONSISTENT | CKR_USER_NOT_LOGGED_IN | CKR_SESSION_READ_ONLY
    | CKR_KEY_FUNCTION_NOT_PERMITTED | CKR_KEY_UNEXTRACTABLE | CKR_KEY_NOT_WRAPPABLE

  const CKO_PRIVATE_KEY: nat := 3
  const CKO_SECRET_KEY: nat := 4
  const CKK_RSA: nat := 0x00
  const CKK_DSA: nat := 0x01
  const CKK_DH: nat := 0x02
  const CKK_EC: nat := 0x03
  const CKK_GENERIC_SECRET: nat := 0x10
  const CKK_DES: nat := 0x13
  const CKK_DES2: nat := 0x14
  const CKK_DES3: nat := 0x15
  const CKK_AES: nat := 0x1F
  const CKK_MD5_HMAC: nat := 0x27
  const CKK_SHA_1_HMAC: nat := 0x28
  const CKK_SHA256_HMAC: nat := 0x2B
  const CKK_SHA384_HMAC: nat := 0x2C
  const CKK_SHA512_HMAC: nat := 0x2D
  const CKK_SHA224_HMAC: nat := 0x2E
  const CKK_GOSTR3410: nat := 0x30
  const CKK_GOST28147: nat := 0x32
  const VENDOR_DEFINED: nat := 0x8000_0000
  const UNAVAILABLE: nat := 0xffff_ffff_ffff_ffff

  predicate IsHmacKey(keyType: nat) {
    keyType == CKK_GENERIC_SECRET || keyType == CKK_MD5_HMAC || keyType == CKK_SHA_1_HMAC || keyType == CKK_SHA224_HMAC
    || keyType == CKK_SHA256_HMAC || keyType == CKK_SHA384_HMAC || keyType == CKK_SHA512_HMAC
  }

  predicate IsDesKey(keyType: nat) { keyType == CKK_DES || keyType == CKK_DES2 || keyType == CKK_DES3 }

  // Which initialization vector an encryption draws.
  datatype Nonce = ForKind(k: Kind) | ForEntry(i: nat, second: bool)

  // The token's key: encryption draws a fresh vector and may fail, and so may decryption.
  datatype Token = Token(
    soLoggedIn: bool,
    encrypt: (Nonce, bytes) -> Option<bytes>,
    decrypt: bytes -> Option<bytes>)

  // What a call runs in: the token, the schemas of objects by class and key type, the access checks,
  // the key check values, and the memory that the pointers inside a wrapping template lead to.
  datatype Session = Session(
    token: Token,
    schemas: (nat, nat) -> Option<Schema>,
    haveRead: (bool, bool) -> Rv,
    haveWrite: (bool, bool) -> Rv,
    kcv: (nat, bytes) -> bytes,
    templates: bytes -> Option<map<Kind, Simple>>)

  datatype Call = Call(session: Session, isPrivate: bool, op: Op)

  // ---------- reading attributes ----------

  function GetBool(attrs: Attrs, k: Kind, default: bool): bool {
    if k in attrs && attrs[k].Flag? then attrs[k].b else default
  }

  function GetNumber(attrs: Attrs, k: Kind, default: nat): nat {
    if k in attrs && attrs[k].Number? then attrs[k].n else default
  }

  function GetStr(attrs: Attrs, k: Kind): bytes {
    if k in attrs && attrs[k].Str? then attrs[k].s else []
  }

  predicate IsModifiable(attrs: Attrs) { GetBool(attrs, CKA_MODIFIABLE, true) }
  predicate IsSensitive(attrs: Attrs) { GetBool(attrs, CKA_SENSITIVE, false) }
  predicate IsExtractable(attrs: Attrs) { GetBool(attrs, CKA_EXTRACTABLE, true) }
  predicate IsCopyable(attrs: Attrs) { GetBool(attrs, CKA_COPYABLE, true) }

  // ---------- memory ----------

  // A CK_ULONG of 8 bytes, least significant byte first.
  function ReadNumber(d: bytes): nat {
    if d == [] then 0 else d[0] + 256 * ReadNumber(d[1..])
  }

  function WriteNumber(w: nat, n: nat): (d: bytes)
    ensures |d| == w
  {
    if w == 0 then [] else [n % 256] + WriteNumber(w - 1, n / 256)
  }

  lemma {:induction false} ReadWrite(d: bytes)
    ensures WriteNumber(|d|, ReadNumber(d)) == d
  {
    if d != [] {
      ReadWrite(d[1..]);
      var low: int := d[0];
      assert (low + 256 * ReadNumber(d[1..])) % 256 == low;
    }
  }

  // The number of bits of a big-endian string after its leading zeros.
  function Bits(d: bytes): nat {
    if d == [] then 0
    else if d[0] == 0 then Bits(d[1..])
    else 8 * (|d| - 1) + BitLength(d[0])
  }

  function BitLength(b: nat): nat {
    if b == 0 then 0 else 1 + BitLength(b / 2)
  }

  // ---------- descriptions of attributes ----------

  // How an attribute is written: the updateAttr its class has or inherits.
  datatype Rule =
    | Plain | Match | Bool | Copyable | ReadOnly | Sensitive | Extractable | WrapWithTrusted | Trusted
    | AlwaysAuthenticate | Date | KeyValue | CheckValue | Measured(bits: Kind) | Sized(ops: set<Op>)
    | WrappingTemplate | MechanismSet

  // The footnotes of an attribute (table 10, section 4.2 of PKCS#11 v2.40, and 17 for what a copy
  // may change), the size its values must have if it is fixed, and its default value.
  datatype Spec = Spec(checks: set<int>, size: Option<nat>, rule: Rule, default: Value)

  // The attributes an object has.
  type Schema = map<Kind, Spec>

  predicate Footnote(s: Schema, k: Kind, note: int) {
    k in s && note in s[k].checks
  }

  // The sort of value a rule stores.
  predicate Fits(rule: Rule, v: Value) {
    match rule
    case Plain | Date | KeyValue | CheckValue | Measured(_) => v.Str?
    case Match | Sized(_) => v.Number?
    case ReadOnly => v.Flag? || v.Number?
    case WrappingTemplate => v.Template?
    case MechanismSet => v.Mechanisms?
    case _ => v.Flag?
  }

  predicate Named(rule: Rule, k: Kind) {
    (rule.Sensitive? <==> k == CKA_SENSITIVE)
    && (rule.Extractable? <==> k == CKA_EXTRACTABLE)
    && (rule.KeyValue? <==> k == CKA_VALUE)
    && (rule.CheckValue? <==> k == CKA_CHECK_VALUE)
    && (rule.Copyable? <==> k == CKA_COPYABLE)
    && (rule.WrapWithTrusted? <==> k == CKA_WRAP_WITH_TRUSTED)
    && (rule.Trusted? <==> k == CKA_TRUSTED)
    && (rule.AlwaysAuthenticate? <==> k == CKA_ALWAYS_AUTHENTICATE)
    && (rule.Date? <==> k == CKA_START_DATE || k == CKA_END_DATE)
    && (k == CKA_ALWAYS_SENSITIVE || k == CKA_NEVER_EXTRACTABLE || k == CKA_LOCAL || k == CKA_KEY_GEN_MECHANISM
        ==> rule.ReadOnly?)
    && (rule.Match? <==> k == CKA_CLASS || k == CKA_KEY_TYPE)
    && (k == CKA_PRIVATE || k == CKA_TOKEN || k == CKA_MODIFIABLE || k == CKA_DERIVE ==> rule.Bool?)
    && (k == CKA_VALUE_LEN || k == CKA_VALUE_BITS || k == CKA_MODULUS_BITS || k == CKA_PRIME_BITS ==> rule.Sized?)
    && (rule.Measured? ==> rule.bits == CKA_MODULUS_BITS || rule.bits == CKA_PRIME_BITS)
  }

  predicate HasEssentials(s: Schema) {
    CKA_CLASS in s && CKA_KEY_TYPE in s && CKA_PRIVATE in s && CKA_TOKEN in s && CKA_MODIFIABLE in s
    && CKA_COPYABLE in s && CKA_LOCAL in s && CKA_KEY_GEN_MECHANISM in s && CKA_SENSITIVE in s
    && CKA_EXTRACTABLE in s && CKA_ALWAYS_SENSITIVE in s && CKA_NEVER_EXTRACTABLE in s && CKA_DERIVE in s
  }

  // What the proofs about templates need of a schema; KeySchema shows it for every kind of key.
  ghost predicate Proper(s: Schema) {
    HasEssentials(s) && PartProper(s)
  }

  ghost predicate PartProper(s: Schema) {
    forall k :: k in s ==>
      Named(s[k].rule, k) && Fits(s[k].rule, s[k].default) && SafeDefault(k, s[k].default)
      && (k == CKA_PRIVATE ==> 8 !in s[k].checks)
      && (k == CKA_DERIVE ==> 8 in s[k].checks && s[k].size == Some(1))
      && (k == CKA_TRUSTED || k == CKA_WRAP_WITH_TRUSTED ==> 8 !in s[k].checks && 17 !in s[k].checks)
      && k != NO_SUCH_KIND
      && (IsKeyPart(k) ==> 7 in s[k].checks)
      && (IsPart(k) ==> Fits(s[k].rule, Str([])))
  }

  // The attributes that hold the parts of a key that is generated, derived or unwrapped.
  predicate IsPart(k: Kind) {
    k == CKA_VALUE || k == CKA_CHECK_VALUE || k == CKA_MODULUS || k == CKA_PUBLIC_EXPONENT
    || k == CKA_PRIVATE_EXPONENT || k == CKA_PRIME_1 || k == CKA_PRIME_2 || k == CKA_EXPONENT_1
    || k == CKA_EXPONENT_2 || k == CKA_COEFFICIENT || k == CKA_PRIME || k == CKA_SUBPRIME
    || k == CKA_BASE || k == CKA_EC_PARAMS || k == CKA_GOSTR3410_PARAMS
  }

  // The attributes that hold the secret parts of a key.
  predicate IsKeyPart(k: Kind) {
    k == CKA_VALUE || k == CKA_PRIVATE_EXPONENT || k == CKA_PRIME_1 || k == CKA_PRIME_2
    || k == CKA_EXPONENT_1 || k == CKA_EXPONENT_2 || k == CKA_COEFFICIENT
  }

  predicate SafeDefault(k: Kind, v: Value) {
    (k == CKA_SENSITIVE || k == CKA_ALWAYS_SENSITIVE || k == CKA_EXTRACTABLE ==> v == Flag(false))
    && (k == CKA_TRUSTED || k == CKA_LOCAL || k == CKA_WRAP_WITH_TRUSTED ==> v == Flag(false))
    && (k == CKA_KEY_GEN_MECHANISM ==> v == Number(UNAVAILABLE))
    && (k == CKA_PRIVATE || k == CKA_MODIFIABLE || k == CKA_COPYABLE ==> v == Flag(true))
    && (k == CKA_NEVER_EXTRACTABLE ==> v.Flag?)
    && (v.Str? ==> v.s == [])
  }

  predicate SortedAt(s: Schema, a: Attrs, k: Kind) {
    (k in a <==> k in s) && (k in a ==> Fits(s[k].rule, a[k]))
  }

  // An object with exactly the attributes of its schema, each with a value of its sort.
  ghost predicate Shaped(s: Schema, a: Attrs) {
    (forall k: Kind :: SortedAt(s, a, k))
    && (GetNumber(a, CKA_CLASS, VENDOR_DEFINED) == CKO_SECRET_KEY ==> CKA_CHECK_VALUE in s)
  }

  // What the init chain leaves of an object's attributes: class and key type as the chain fixes
  // them, defaults for what is missing.
  function Initialised(s: Schema, objClass: nat, keyType: nat, attrs: Attrs): Attrs {
    (map k | k in s :: s[k].default) + attrs + map[CKA_CLASS := Number(objClass), CKA_KEY_TYPE := Number(keyType)]
  }

  function ClassOf(a: Attrs): nat { GetNumber(a, CKA_CLASS, VENDOR_DEFINED) }
  function KeyTypeOf(a: Attrs): nat { GetNumber(a, CKA_KEY_TYPE, CKK_RSA) }

  lemma FreshShaped(s: Schema, objClass: nat, keyType: nat)
    requires Proper(s) && (objClass == CKO_SECRET_KEY ==> CKA_CHECK_VALUE in s)
    ensures var a := Initialised(s, objClass, keyType, map[]);
      Shaped(s, a) && ClassOf(a) == objClass && KeyTypeOf(a) == keyType
  {
  }

  // Initializing an object that is complete changes nothing.
  lemma InitialisedAgain(s: Schema, a: Attrs)
    requires Proper(s) && Shaped(s, a)
    ensures Initialised(s, ClassOf(a), KeyTypeOf(a), a) == a
  {
    forall k | k in s ensures k in a {
      assert SortedAt(s, a, k);
    }
    assert SortedAt(s, a, CKA_CLASS) && SortedAt(s, a, CKA_KEY_TYPE);
  }

  ghost predicate SoundSchemas(schemas: (nat, nat) -> Option<Schema>) {
    forall c, t :: schemas(c, t).Some? ==>
      Proper(schemas(c, t).value) && (c == CKO_SECRET_KEY ==> CKA_CHECK_VALUE in schemas(c, t).value)
  }
}
