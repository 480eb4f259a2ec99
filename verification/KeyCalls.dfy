// The calls that make and change key objects, as functions of the state of the objects they
// concern. SoftHsm.dfy proves the calls themselves against these.
module KeyCalls {
  import opened Bytes
  import opened Attributes
  import opened UpdateRules
  import opened KeyPolicy
  import opened Objects

  // The object a call leaves in the store, if it leaves one.
  datatype Made = Made(rv: Rv, obj: Option<Obj>)

  // ---------- reading a template ----------

  // The last entry of the right size decides.
  function LastFlag(t: seq<Entry>, k: Kind, default: bool): bool {
    if t == [] then default
    else LastFlag(t[1..], k, if t[0].kind == k && |t[0].data| == 1 then t[0].data[0] != 0 else default)
  }

  function LastNumber(t: seq<Entry>, k: Kind, default: Option<nat>): Option<nat> {
    if t == [] then default
    else LastNumber(t[1..], k, if t[0].kind == k && |t[0].data| == 8 then Some(ReadNumber(t[0].data)) else default)
  }

  function Only(t: seq<Entry>, keep: Entry -> bool): seq<Entry> {
    if t == [] then []
    else (if keep(t[0]) then [t[0]] else []) + Only(t[1..], keep)
  }

  function Reordered(t: seq<Entry>): seq<Entry> {
    Only(t, (e: Entry) => e.kind != CKA_CHECK_VALUE) + Only(t, (e: Entry) => e.kind == CKA_CHECK_VALUE)
  }

  // ---------- C_SetAttributeValue ----------

  function SetResult(x: Session, o: Obj, t: seq<Entry>): Saving {
    var isPrivate := GetBool(o.attrs, CKA_PRIVATE, true);
    var rv := x.haveWrite(GetBool(o.attrs, CKA_TOKEN, false), isPrivate);
    if rv != CKR_OK then Saving(rv, o)
    else if !IsModifiable(o.attrs) then Saving(CKR_ACTION_PROHIBITED, o)
    else SaveObject(x, isPrivate, OpSet, o, t)
  }

  // Wrapping a P11Object around an object and saving a template to it.
  function SaveObject(x: Session, isPrivate: bool, op: Op, o: Obj, t: seq<Entry>): Saving {
    match x.schemas(ClassOf(o.attrs), KeyTypeOf(o.attrs))
    case None => Saving(CKR_ATTRIBUTE_VALUE_INVALID, o)
    case Some(s) =>
      SaveTemplate(s, Call(x, isPrivate, op), Rewrite(o, Initialised(s, ClassOf(o.attrs), KeyTypeOf(o.attrs), o.attrs)), t)
  }

  // ---------- C_CopyObject ----------

  // One attribute on its way into a copy: a copy that becomes private has its strings encrypted.
  function CopiedValue(x: Session, upgrade: bool, k: Kind, v: Value): Option<Value> {
    if upgrade && v.Str? && v.s != [] then
      match x.token.encrypt(ForKind(k), v.s)
      case None => None
      case Some(s) => Some(Str(s))
    else Some(v)
  }

  predicate Copies(x: Session, upgrade: bool, a: Attrs) {
    forall k :: k in a ==> CopiedValue(x, upgrade, k, a[k]).Some?
  }

  function CopiedAttrs(x: Session, upgrade: bool, a: Attrs): Attrs
    requires Copies(x, upgrade, a)
  {
    map k | k in a :: CopiedValue(x, upgrade, k, a[k]).value
  }

  function CopyResult(x: Session, o: Obj, t: seq<Entry>): Made {
    var wasOnToken, wasPrivate := GetBool(o.attrs, CKA_TOKEN, false), GetBool(o.attrs, CKA_PRIVATE, true);
    var onToken, isPrivate := LastFlag(t, CKA_TOKEN, wasOnToken), LastFlag(t, CKA_PRIVATE, wasPrivate);
    if x.haveRead(wasOnToken, wasPrivate) != CKR_OK then Made(x.haveRead(wasOnToken, wasPrivate), None)
    else if !IsCopyable(o.attrs) then Made(CKR_ACTION_PROHIBITED, None)
    else if wasPrivate && !isPrivate then Made(CKR_TEMPLATE_INCONSISTENT, None)
    else if x.haveWrite(onToken, isPrivate) != CKR_OK then Made(x.haveWrite(onToken, isPrivate), None)
    else CopyInto(x, o, onToken, isPrivate, !wasPrivate && isPrivate, t)
  }

  // A copy that fails is destroyed.
  function CopyInto(x: Session, o: Obj, onToken: bool, isPrivate: bool, upgrade: bool, t: seq<Entry>): Made {
    if CKA_CLASS !in o.attrs || !Copies(x, upgrade, o.attrs) then Made(CKR_FUNCTION_FAILED, None)
    else
      var r := SaveObject(x, isPrivate, OpCopy, Rewrite(NewObj(onToken), CopiedAttrs(x, upgrade, o.attrs)), t);
      Made(r.rv, if r.rv == CKR_OK then Some(r.obj) else None)
  }

  // ---------- CreateObject ----------

  const CKO_PUBLIC_KEY: nat := 2

  predicate NeedsKeyType(objClass: nat) {
    objClass == CKO_PUBLIC_KEY || objClass == CKO_PRIVATE_KEY || objClass == CKO_SECRET_KEY
  }

  // What a new object is asked to be.
  datatype Asked = Asked(objClass: Option<nat>, keyType: Option<nat>, onToken: bool, isPrivate: bool)

  function AskedBy(t: seq<Entry>): Asked {
    Asked(LastNumber(t, CKA_CLASS, None), LastNumber(t, CKA_KEY_TYPE, None),
          LastFlag(t, CKA_TOKEN, false), LastFlag(t, CKA_PRIVATE, true))
  }

  // What stands in the way of creating it.
  function Refusal(x: Session, q: Asked, n: nat): Rv {
    if q.objClass == None || (NeedsKeyType(q.objClass.value) && q.keyType == None) then CKR_TEMPLATE_INCOMPLETE
    else if x.haveWrite(q.onToken, q.isPrivate) != CKR_OK then x.haveWrite(q.onToken, q.isPrivate)
    else if n > 32 then CKR_TEMPLATE_INCONSISTENT
    else CKR_OK
  }

  // An object whose template fails stays behind without a handle.
  function CreateResult(x: Session, op: Op, t: seq<Entry>): Made {
    var q := AskedBy(t);
    if Refusal(x, q, |t|) != CKR_OK then Made(Refusal(x, q, |t|), None)
    else CreateIn(x, op, q.objClass.value, if q.keyType.Some? then q.keyType.value else CKK_RSA,
                  q.onToken, q.isPrivate, Reordered(t))
  }

  function CreateIn(x: Session, op: Op, objClass: nat, keyType: nat, onToken: bool, isPrivate: bool, t: seq<Entry>): Made {
    match x.schemas(objClass, keyType)
    case None => Made(CKR_ATTRIBUTE_VALUE_INVALID, None)
    case Some(s) =>
      var o := Rewrite(NewObj(onToken), Initialised(s, objClass, keyType, map[]));
      var r := SaveTemplate(s, Call(x, isPrivate, op), o, t);
      if r.rv == CKR_OK && op.OpCreate? then Made(CKR_OK, Some(Rewrite(r.obj, BroughtIn(r.obj.attrs))))
      else Made(r.rv, Some(r.obj))
  }

  // A key brought in by value was neither always sensitive nor never extractable.
  function BroughtIn(a: Attrs): Attrs {
    a[CKA_LOCAL := Flag(false)][CKA_ALWAYS_SENSITIVE := Flag(false)][CKA_NEVER_EXTRACTABLE := Flag(false)]
  }

  // ---------- generating, deriving and unwrapping ----------

  // Where a key comes from: its mechanism, the base key at that moment, or a wrapped key.
  datatype Origin = Generated(mechanism: nat) | Derived(base: Attrs) | Unwrapped

  function OpOf(origin: Origin): Op {
    match origin
    case Generated(_) => OpGenerate
    case Derived(_) => OpDerive
    case Unwrapped => OpUnwrap
  }

  function FlagEntry(k: Kind, b: bool): Entry { Entry(k, false, [if b then 1 else 0]) }
  function NumberEntry(k: Kind, n: nat): Entry { Entry(k, false, WriteNumber(8, n)) }

  function KeyTemplate(objClass: nat, keyType: nat, onToken: bool, isPrivate: bool, t: seq<Entry>): seq<Entry> {
    [NumberEntry(CKA_CLASS, objClass), FlagEntry(CKA_TOKEN, onToken),
     FlagEntry(CKA_PRIVATE, isPrivate), NumberEntry(CKA_KEY_TYPE, keyType)] + t
  }

  // The entries of the caller's template that are passed on.
  function PassedOn(t: seq<Entry>, checkValueToo: bool): seq<Entry> {
    Only(t, (e: Entry) =>
      e.kind != CKA_CLASS && e.kind != CKA_TOKEN && e.kind != CKA_PRIVATE && e.kind != CKA_KEY_TYPE
      && (checkValueToo || e.kind != CKA_CHECK_VALUE))
  }

  predicate WasAlwaysSensitive(origin: Origin, a: Attrs) {
    match origin
    case Generated(_) => IsSensitive(a)
    case Derived(base) => GetBool(base, CKA_ALWAYS_SENSITIVE, false) && IsSensitive(a)
    case Unwrapped => false
  }

  predicate WasNeverExtractable(origin: Origin, a: Attrs) {
    match origin
    case Generated(_) => !GetBool(a, CKA_EXTRACTABLE, false)
    case Derived(base) => GetBool(base, CKA_NEVER_EXTRACTABLE, true) && !GetBool(a, CKA_EXTRACTABLE, false)
    case Unwrapped => false
  }

  // The parts of the key itself, in the order they are stored.
  type Material = seq<(Kind, bytes)>

  predicate IsMaterial(m: Material) { forall p :: p in m ==> IsPart(p.0) }

  // An encryption that fails here leaves the value empty.
  function SealedPart(x: Session, isPrivate: bool, p: (Kind, bytes)): bytes {
    if !isPrivate then p.1
    else
      match x.token.encrypt(ForKind(p.0), p.1)
      case None => []
      case Some(s) => s
  }

  function Filled(x: Session, isPrivate: bool, a: Attrs, m: Material): Attrs
    decreases |m|
  {
    if m == [] then a
    else Filled(x, isPrivate, Put(a, m[0].0, Str(SealedPart(x, isPrivate, m[0]))), m[1..])
  }

  function WithHistory(origin: Origin, a: Attrs): Attrs {
    var b := a[CKA_LOCAL := Flag(origin.Generated?)];
    var d := if origin.Generated? then b[CKA_KEY_GEN_MECHANISM := Number(origin.mechanism)] else b;
    d[CKA_ALWAYS_SENSITIVE := Flag(WasAlwaysSensitive(origin, a))]
     [CKA_NEVER_EXTRACTABLE := Flag(WasNeverExtractable(origin, a))]
  }

  // The second transaction on a key made by the token: its history and its material. `ok` says that
  // the material could be made; if not, the object is destroyed.
  function FinishKey(x: Session, origin: Origin, isPrivate: bool, r: Made, m: Material, ok: bool): Made {
    if r.rv != CKR_OK || r.obj == None then r
    else if !ok then Made(CKR_FUNCTION_FAILED, None)
    else Made(CKR_OK, Some(Rewrite(r.obj.value, Filled(x, isPrivate, WithHistory(origin, r.obj.value.attrs), m))))
  }

  function KeyResult(x: Session, origin: Origin, objClass: nat, keyType: nat, onToken: bool, isPrivate: bool,
                     t: seq<Entry>, m: Material, ok: bool): Made {
    FinishKey(x, origin, isPrivate,
              CreateResult(x, OpOf(origin), KeyTemplate(objClass, keyType, onToken, isPrivate, t)), m, ok)
  }

  const CKM_AES_KEY_GEN: nat := 0x1080

  // What generating and deriving read from the caller's template before they make a key.
  datatype Scan = Scan(rv: Rv, length: nat, checkValue: bool)

  function ScanEntry(derive: bool, s: Scan, e: Entry): Scan {
    if derive && e.kind == CKA_VALUE then s.(rv := CKR_ATTRIBUTE_READ_ONLY)
    else if e.kind == CKA_VALUE_LEN then
      if |e.data| != 8 then s.(rv := CKR_ATTRIBUTE_VALUE_INVALID) else s.(length := ReadNumber(e.data))
    else if e.kind == CKA_CHECK_VALUE then
      if |e.data| > 0 then s.(rv := CKR_ATTRIBUTE_VALUE_INVALID) else s.(checkValue := false)
    else s
  }

  function Scanned(derive: bool, s: Scan, t: seq<Entry>): Scan
    decreases |t|
  {
    if t == [] || s.rv != CKR_OK then s else Scanned(derive, ScanEntry(derive, s, t[0]), t[1..])
  }

  const START: Scan := Scan(CKR_OK, 0, true)

  function ValueAndCheck(value: bytes, check: bytes, checkValue: bool): Material {
    [(CKA_VALUE, value)] + if checkValue then [(CKA_CHECK_VALUE, check)] else []
  }

  // C_GenerateKey for an AES key; `random` is what the generator makes of a length.
  function AesResult(x: Session, onToken: bool, isPrivate: bool, t: seq<Entry>, random: nat -> bytes): Made {
    var s := Scanned(false, START, t);
    if s.rv != CKR_OK then Made(s.rv, None)
    else if s.length == 0 then Made(CKR_TEMPLATE_INCOMPLETE, None)
    else if s.length != 16 && s.length != 24 && s.length != 32 then Made(CKR_ATTRIBUTE_VALUE_INVALID, None)
    else if |t| > 28 then Made(CKR_TEMPLATE_INCONSISTENT, None)
    else
      var key := random(s.length);
      KeyResult(x, Generated(CKM_AES_KEY_GEN), CKO_SECRET_KEY, CKK_AES, onToken, isPrivate, PassedOn(t, false),
                ValueAndCheck(key, x.kcv(CKK_AES, key), s.checkValue), true)
  }

  // The length a derived key must have, given what the template asks for.
  function DerivedLength(keyType: nat, asked: nat): (Rv, nat) {
    if keyType == CKK_GENERIC_SECRET then if asked == 0 then (CKR_TEMPLATE_INCOMPLETE, 0) else (CKR_OK, asked)
    else if IsDesKey(keyType) then
      if asked != 0 then (CKR_ATTRIBUTE_READ_ONLY, 0)
      else (CKR_OK, if keyType == CKK_DES then 8 else if keyType == CKK_DES2 then 16 else 24)
    else if keyType == CKK_AES then
      if asked != 16 && asked != 24 && asked != 32 then (CKR_ATTRIBUTE_VALUE_INVALID, 0) else (CKR_OK, asked)
    else (CKR_ATTRIBUTE_VALUE_INVALID, 0)
  }

  // The last bytes of a secret, with odd parity where a DES key needs it.
  function LastBytes(secret: bytes, n: nat, keyType: nat, parity: bytes -> bytes): bytes
    requires n <= |secret|
  {
    var v := secret[|secret| - n..];
    if IsDesKey(keyType) then parity(v) else v
  }

  // The bytes a derived key's check value is computed of, before the secret is cut: a generic secret
  // is hashed whole, and a block cipher reads as many bytes as the key has, from the front.
  function CheckedBytes(secret: bytes, n: nat, keyType: nat): bytes {
    if keyType == CKK_GENERIC_SECRET || |secret| < n then secret else secret[..n]
  }

  // C_DeriveKey with a Diffie-Hellman base key; `secret` is the agreed secret, if there is one.
  function DeriveResult(x: Session, base: Attrs, keyType: nat, onToken: bool, isPrivate: bool, t: seq<Entry>,
                        secret: Option<bytes>, parity: bytes -> bytes): Made {
    var s := Scanned(true, START, t);
    if s.rv != CKR_OK then Made(s.rv, None)
    else if DerivedLength(keyType, s.length).0 != CKR_OK then Made(DerivedLength(keyType, s.length).0, None)
    else if |t| > 28 then Made(CKR_TEMPLATE_INCONSISTENT, None)
    else if secret == None then Made(CKR_GENERAL_ERROR, None)
    else
      var n := DerivedLength(keyType, s.length).1;
      var ok := n <= |secret.value|;
      var value := if ok then LastBytes(secret.value, n, keyType, parity) else [];
      KeyResult(x, Derived(base), CKO_SECRET_KEY, keyType, onToken, isPrivate, PassedOn(t, false),
                ValueAndCheck(value, x.kcv(keyType, CheckedBytes(secret.value, n, keyType)), s.checkValue), ok)
  }

  // ---------- unwrapping ----------

  function Peeked(v: Simple): bytes {
    match v
    case Bit(b) => [if b then 1 else 0]
    case Word(n) => WriteNumber(8, n)
    case Text(s) => s
  }

  function Count(u: seq<Entry>, k: Kind): nat {
    if u == [] then 0 else (if u[0].kind == k then 1 else 0) + Count(u[1..], k)
  }

  // Each attribute of an unwrap template is specified exactly once, with the value it has there.
  predicate Obeys(template: map<Kind, Simple>, u: seq<Entry>) {
    forall k :: k in template ==>
      Count(u, k) == 1 && forall i :: 0 <= i < |u| && u[i].kind == k ==> u[i].data == Peeked(template[k])
  }

  function UnwrapTemplate(wrapping: Attrs): map<Kind, Simple> {
    if CKA_UNWRAP_TEMPLATE in wrapping && wrapping[CKA_UNWRAP_TEMPLATE].Template?
    then wrapping[CKA_UNWRAP_TEMPLATE].t
    else map[]
  }

  // What the unwrapped bytes decode to: the parts of the key, if they can be decoded.
  datatype KeyData = KeyData(m: Material, ok: bool)

  function UnwrapRefusal(x: Session, q: Asked, n: nat): Rv {
    if q.objClass == None || (NeedsKeyType(q.objClass.value) && q.keyType == None) then CKR_TEMPLATE_INCOMPLETE
    else if (q.objClass.value != CKO_SECRET_KEY && q.objClass.value != CKO_PRIVATE_KEY) || q.keyType == None
      then CKR_ATTRIBUTE_VALUE_INVALID
    else if x.haveWrite(q.onToken, q.isPrivate) != CKR_OK then x.haveWrite(q.onToken, q.isPrivate)
    else if n > 28 then CKR_TEMPLATE_INCONSISTENT
    else CKR_OK
  }

  // C_UnwrapKey from where the template is read; `unwrapped` is the result of the decryption.
  function UnwrapResult(x: Session, wrapping: Attrs, t: seq<Entry>, unwrapped: Option<KeyData>): Made {
    var q := AskedBy(t);
    if UnwrapRefusal(x, q, |t|) != CKR_OK then Made(UnwrapRefusal(x, q, |t|), None)
    else
      var p := PassedOn(t, true);
      if !Obeys(UnwrapTemplate(wrapping), KeyTemplate(q.objClass.value, q.keyType.value, q.onToken, q.isPrivate, p))
        then Made(CKR_TEMPLATE_INCONSISTENT, None)
      else if unwrapped == None then Made(CKR_GENERAL_ERROR, None)
      else KeyResult(x, Unwrapped, q.objClass.value, q.keyType.value, q.onToken, q.isPrivate, p,
                     unwrapped.value.m, unwrapped.value.ok)
  }

  // ---------- wrapping ----------

  // Whether a key may leave the token wrapped under another one.
  function WrapCheck(wrapping: Attrs, key: Attrs): Rv {
    if !GetBool(wrapping, CKA_WRAP, false) then CKR_KEY_FUNCTION_NOT_PERMITTED
    else if !GetBool(key, CKA_EXTRACTABLE, false) then CKR_KEY_UNEXTRACTABLE
    else if GetBool(key, CKA_WRAP_WITH_TRUSTED, false) && !GetBool(wrapping, CKA_TRUSTED, false) then CKR_KEY_NOT_WRAPPABLE
    else if ClassOf(key) != CKO_SECRET_KEY && ClassOf(key) != CKO_PRIVATE_KEY then CKR_KEY_NOT_WRAPPABLE
    else if !MatchesTemplate(WrapTemplate(wrapping), key) then CKR_KEY_NOT_WRAPPABLE
    else CKR_OK
  }

  function WrapTemplate(wrapping: Attrs): map<Kind, Simple> {
    if CKA_WRAP_TEMPLATE in wrapping && wrapping[CKA_WRAP_TEMPLATE].Template?
    then wrapping[CKA_WRAP_TEMPLATE].t
    else map[]
  }

  predicate MatchesTemplate(template: map<Kind, Simple>, key: Attrs) {
    forall k :: k in template ==> k in key && SameValue(template[k], key[k])
  }

  // The bytes a stored value and a template value are compared by; a template is never equal.
  predicate SameValue(v: Simple, w: Value) {
    match w
    case Flag(b) => Peeked(v) == [if b then 1 else 0]
    case Number(n) => Peeked(v) == WriteNumber(8, n)
    case Str(s) => Peeked(v) == s
    case Mechanisms(_) => false
    case Template(_) => false
  }
}
