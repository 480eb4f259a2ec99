// The calls that generate, derive and unwrap keys are steps of a run: what they leave in the store is
// what a valid event leaves, so all that is proved of runs is proved of them.
module Steps {
  import opened Bytes
  import opened Attributes
  import opened UpdateRules
  import opened KeySchema
  import opened Objects
  import opened KeyCalls
  import opened Runs
  import opened Storage

  lemma PassedUnreserved(t: seq<Entry>, checkValueToo: bool)
    ensures Unreserved(PassedOn(t, checkValueToo))
  {
    OnlyKept(t, (e: Entry) =>
      e.kind != CKA_CLASS && e.kind != CKA_TOKEN && e.kind != CKA_PRIVATE && e.kind != CKA_KEY_TYPE
      && (checkValueToo || e.kind != CKA_CHECK_VALUE));
  }

  // ---------- the class and key type of a new key ----------

  predicate Representable(n: nat) { ReadNumber(WriteNumber(8, n)) == n }

  lemma {:induction false} ReadWritten(w: nat, n: nat)
    requires n < Pow256(w)
    ensures ReadNumber(WriteNumber(w, n)) == n
  {
    if w > 0 {
      ReadWritten(w - 1, n / 256);
    }
  }

  lemma SmallRepresentable(n: nat)
    requires n < 256
    ensures Representable(n)
  {
    assert Pow256(1) == 256;
    assert Pow256(8) >= 256 * Pow256(1);
    ReadWritten(8, n);
  }

  lemma {:induction false} NumberFromBytes(t: seq<Entry>, k: Kind, default: Option<nat>)
    requires default.Some? ==> Representable(default.value)
    ensures var n := LastNumber(t, k, default);
      n.Some? ==> Representable(n.value)
    decreases |t|
  {
    if t != [] {
      if t[0].kind == k && |t[0].data| == 8 {
        ReadWrite(t[0].data);
        NumberFromBytes(t[1..], k, Some(ReadNumber(t[0].data)));
      } else {
        NumberFromBytes(t[1..], k, default);
      }
    }
  }

  lemma {:induction false} NoNumber(t: seq<Entry>, k: Kind, default: Option<nat>)
    requires forall e :: e in t ==> e.kind != k
    ensures LastNumber(t, k, default) == default
    decreases |t|
  {
    if t != [] {
      NoNumber(t[1..], k, default);
    }
  }

  // The class and key type asked for are those of the template the new key is created with.
  lemma ClassKept(objClass: nat, keyType: nat, onToken: bool, isPrivate: bool, t: seq<Entry>)
    requires Representable(objClass) && Representable(keyType)
    requires Unreserved(t)
    ensures var u := KeyTemplate(objClass, keyType, onToken, isPrivate, t);
      LastNumber(u, CKA_CLASS, None) == Some(objClass) && LastNumber(u, CKA_KEY_TYPE, None) == Some(keyType)
  {
    var u := KeyTemplate(objClass, keyType, onToken, isPrivate, t);
    forall e | e in u[1..] ensures e.kind != CKA_CLASS {
      assert e in u[1..4] || e in t;
    }
    NoNumber(u[1..], CKA_CLASS, Some(objClass));
    NoNumber(t, CKA_KEY_TYPE, Some(keyType));
    assert u[1..][1..] == u[2..] && u[2..][1..] == u[3..] && u[3..][1..] == t;
    assert LastNumber(u[3..], CKA_KEY_TYPE, None) == Some(keyType);
    assert LastNumber(u[2..], CKA_KEY_TYPE, None) == Some(keyType);
    assert LastNumber(u[1..], CKA_KEY_TYPE, None) == Some(keyType);
  }

  predicate SameClass(a: Attrs, b: Attrs) { ClassOf(a) == ClassOf(b) && KeyTypeOf(a) == KeyTypeOf(b) }

  // No entry changes them.
  lemma UpdateKeepsClass(s: Schema, c: Call, i: nat, a: Attrs, e: Entry)
    requires Proper(s)
    ensures SameClass(a, Update(s, c, i, a, e).attrs)
  {
    UpdateFrame(s, c, i, a, e, CKA_CLASS);
    UpdateFrame(s, c, i, a, e, CKA_KEY_TYPE);
  }

  lemma ApplyKeepsClass(s: Schema, c: Call, i: nat, a: Attrs, t: seq<Entry>)
    requires Proper(s)
    ensures SameClass(a, Apply(Updating(s, c), i, a, t).attrs)
  {
    var r := (x, y) => SameClass(x, y);
    forall j, x, e | e in t ensures r(x, Updating(s, c)(j, x, e).attrs) {
      UpdateKeepsClass(s, c, j, x, e);
    }
    ApplyRelates(Updating(s, c), i, a, t, r);
  }

  lemma SavedClass(s: Schema, c: Call, o: Obj, t: seq<Entry>)
    requires Proper(s)
    ensures SaveTemplate(s, c, o, t).rv == CKR_OK ==> SameClass(o.attrs, SaveTemplate(s, c, o, t).obj.attrs)
  {
    SavedInFull(s, c, o, t);
    ApplyKeepsClass(s, c, 0, o.attrs, t);
  }

  lemma FreshClass(s: Schema, objClass: nat, keyType: nat)
    ensures var a := Initialised(s, objClass, keyType, map[]);
      ClassOf(a) == objClass && KeyTypeOf(a) == keyType
  {
  }

  lemma CreatedClass(schemas: Schemas, x: Session, op: Op, objClass: nat, keyType: nat, onToken: bool, isPrivate: bool,
                     t: seq<Entry>)
    requires SoundSchemas(schemas) && x.schemas == schemas && !op.OpCreate?
    ensures var r := CreateIn(x, op, objClass, keyType, onToken, isPrivate, t);
      r.rv == CKR_OK ==>
        schemas(objClass, keyType).Some? && r.obj.Some?
        && ClassOf(r.obj.value.attrs) == objClass && KeyTypeOf(r.obj.value.attrs) == keyType
  {
    if schemas(objClass, keyType).Some? {
      var s := schemas(objClass, keyType).value;
      SavedClass(s, Call(x, isPrivate, op), Rewrite(NewObj(onToken), Initialised(s, objClass, keyType, map[])), t);
      FreshClass(s, objClass, keyType);
    }
  }

  lemma FinishedClass(x: Session, origin: Origin, isPrivate: bool, r: Made, m: Material, ok: bool)
    requires IsMaterial(m) && (r.rv == CKR_OK ==> r.obj.Some?)
    ensures var f := FinishKey(x, origin, isPrivate, r, m, ok);
      f.rv == CKR_OK ==>
        f.obj.Some? && ClassOf(f.obj.value.attrs) == ClassOf(r.obj.value.attrs)
        && KeyTypeOf(f.obj.value.attrs) == KeyTypeOf(r.obj.value.attrs)
  {
    if r.rv == CKR_OK {
      FilledFrame(x, isPrivate, WithHistory(origin, r.obj.value.attrs), m, CKA_CLASS);
      FilledFrame(x, isPrivate, WithHistory(origin, r.obj.value.attrs), m, CKA_KEY_TYPE);
    }
  }

  // A key made by the token has the class and key type its template asks for.
  lemma MadeClass(schemas: Schemas, x: Session, origin: Origin, objClass: nat, keyType: nat, onToken: bool,
                  isPrivate: bool, t: seq<Entry>, m: Material, ok: bool)
    requires SoundSchemas(schemas) && x.schemas == schemas && IsMaterial(m)
    ensures var q := AskedBy(KeyTemplate(objClass, keyType, onToken, isPrivate, t));
      var r := KeyResult(x, origin, objClass, keyType, onToken, isPrivate, t, m, ok);
      r.rv == CKR_OK ==>
        r.obj.Some? && q.objClass == Some(ClassOf(r.obj.value.attrs))
        && KeyTypeOf(r.obj.value.attrs) == if q.keyType.Some? then q.keyType.value else CKK_RSA
  {
    var u := KeyTemplate(objClass, keyType, onToken, isPrivate, t);
    var q, r := AskedBy(u), CreateResult(x, OpOf(origin), u);
    if r.rv == CKR_OK {
      CreateAnswers(x, OpOf(origin), u);
      CreatedClass(schemas, x, OpOf(origin), q.objClass.value, if q.keyType.Some? then q.keyType.value else CKK_RSA,
                   q.onToken, q.isPrivate, Reordered(u));
      FinishedClass(x, origin, isPrivate, r, m, ok);
    }
  }

  // Material that fits the schema asked for fits the object created.
  lemma FitsMakeable(schemas: Schemas, x: Session, origin: Origin, objClass: nat, keyType: nat, onToken: bool,
                     isPrivate: bool, t: seq<Entry>, m: Material)
    requires SoundSchemas(schemas) && x.schemas == schemas && Unreserved(t)
    requires Representable(objClass) && Representable(keyType)
    requires schemas(objClass, keyType).Some? ==> MaterialFits(schemas(objClass, keyType).value, m)
    ensures Makeable(schemas, x, origin, objClass, keyType, onToken, isPrivate, t, m) == true
  {
    var u := KeyTemplate(objClass, keyType, onToken, isPrivate, t);
    CreateKeepsGood(schemas, x, OpOf(origin), u);
    if CreateResult(x, OpOf(origin), u).rv == CKR_OK {
      CreateAnswers(x, OpOf(origin), u);
      ClassKept(objClass, keyType, onToken, isPrivate, t);
      CreatedClass(schemas, x, OpOf(origin), objClass, keyType, LastFlag(u, CKA_TOKEN, false),
                   LastFlag(u, CKA_PRIVATE, true), Reordered(u));
    }
  }

  // ---------- the parts of each kind of key ----------

  // The attributes that generating, deriving and unwrapping store.
  function PartsOf(f: Family): set<Kind> {
    match f
    case RsaPrivate =>
      {CKA_MODULUS, CKA_PUBLIC_EXPONENT, CKA_PRIVATE_EXPONENT, CKA_PRIME_1, CKA_PRIME_2, CKA_EXPONENT_1,
       CKA_EXPONENT_2, CKA_COEFFICIENT}
    case DsaPrivate => {CKA_PRIME, CKA_SUBPRIME, CKA_BASE, CKA_VALUE}
    case EcPrivate => {CKA_EC_PARAMS, CKA_VALUE}
    case DhPrivate => {CKA_PRIME, CKA_BASE, CKA_VALUE}
    case GostPrivate => {CKA_VALUE, CKA_GOSTR3410_PARAMS}
    case _ => {CKA_VALUE, CKA_CHECK_VALUE}
  }

  lemma RsaParts() ensures PartsOf(RsaPrivate) <= OwnSchema(RsaPrivate).Keys {}
  lemma DsaParts() ensures PartsOf(DsaPrivate) <= OwnSchema(DsaPrivate).Keys {}
  lemma EcParts() ensures PartsOf(EcPrivate) <= OwnSchema(EcPrivate).Keys {}
  lemma DhParts() ensures PartsOf(DhPrivate) <= OwnSchema(DhPrivate).Keys {}
  lemma GostParts() ensures PartsOf(GostPrivate) <= OwnSchema(GostPrivate).Keys {}

  lemma PartsKept(f: Family)
    ensures PartsOf(f) <= SchemaOf(f).Keys
  {
    match f
    case RsaPrivate => RsaParts();
    case DsaPrivate => DsaParts();
    case EcPrivate => EcParts();
    case DhPrivate => DhParts();
    case GostPrivate => GostParts();
    case _ => assert CKA_CHECK_VALUE in SECRET && CKA_VALUE in KEY_VALUE;
  }

  ghost predicate AreParts(parts: set<Kind>, m: Material) {
    IsMaterial(m) && forall p :: p in m ==> p.0 in parts
  }

  lemma ProperFits(s: Schema, parts: set<Kind>, m: Material)
    requires Proper(s) && parts <= s.Keys && AreParts(parts, m)
    ensures MaterialFits(s, m) == true
  {
  }

  lemma FamilyFits(f: Family, m: Material)
    requires AreParts(PartsOf(f), m)
    ensures MaterialFits(SchemaOf(f), m) == true
  {
    var s, parts := SchemaOf(f), PartsOf(f);
    assert Proper(s) by { SchemaProper(f); }
    assert parts <= s.Keys by { PartsKept(f); }
    ProperFits(s, parts, m);
  }

  // They fit the schema of the key.
  lemma PartsFit(objClass: nat, keyType: nat, m: Material)
    requires var f := FamilyOf(objClass, keyType);
      f.Some? ==> AreParts(PartsOf(f.value), m)
    ensures NewP11Object(objClass, keyType).Some? ==> MaterialFits(NewP11Object(objClass, keyType).value, m) == true
  {
    if FamilyOf(objClass, keyType).Some? {
      FamilyFits(FamilyOf(objClass, keyType).value, m);
    }
  }

  lemma SecretFits(keyType: nat, value: bytes, check: bytes, checkValue: bool)
    ensures var m := ValueAndCheck(value, check, checkValue);
      IsMaterial(m)
      && (NewP11Object(CKO_SECRET_KEY, keyType).Some? ==> MaterialFits(NewP11Object(CKO_SECRET_KEY, keyType).value, m) == true)
  {
    var f := FamilyOf(CKO_SECRET_KEY, keyType);
    if f.Some? {
      FamilyClass(CKO_SECRET_KEY, keyType);
    }
    PartsFit(CKO_SECRET_KEY, keyType, ValueAndCheck(value, check, checkValue));
  }

  // ---------- the calls ----------

  // The schemas of the library.
  ghost function Library(): (s: Schemas)
    ensures SoundSchemas(s)
  {
    NewP11ObjectSound();
    NewP11Object
  }

  // Event e is a step of a run from w, and leaves object `id` as the call that ended in r does.
  ghost predicate IsStep(w: World, e: Event, id: nat, r: Made)
    requires e.Make?
  {
    Valid(Library(), w, e) && e.id == id && Next(w, e) == Born(w, id, r.obj, MakePast(w, e), r.rv == CKR_OK)
  }

  lemma MakeStep(w: World, e: Event, r: Made)
    requires e.Make? && e.x.schemas == Library() && e.id !in w && Unreserved(e.t)
    requires Representable(e.objClass) && Representable(e.keyType)
    requires NewP11Object(e.objClass, e.keyType).Some? ==> MaterialFits(NewP11Object(e.objClass, e.keyType).value, e.m)
    requires (e.origin.Derived? <==> e.base.Some?)
    requires e.base.Some? ==> e.base.value in w && e.origin.base == w[e.base.value].obj.attrs
    requires r == KeyResult(e.x, e.origin, e.objClass, e.keyType, e.onToken, e.isPrivate, e.t, e.m, e.ok)
    ensures IsStep(w, e, e.id, r) == true
  {
    FitsMakeable(Library(), e.x, e.origin, e.objClass, e.keyType, e.onToken, e.isPrivate, e.t, e.m);
  }

  // Making a secret key, with its check value or without.
  function SecretEvent(x: Session, id: nat, base: Option<nat>, origin: Origin, keyType: nat, onToken: bool,
                       isPrivate: bool, t: seq<Entry>, value: bytes, check: bytes, checkValue: bool, ok: bool): Event {
    Make(x, id, base, origin, CKO_SECRET_KEY, keyType, onToken, isPrivate, PassedOn(t, false),
         ValueAndCheck(value, check, checkValue), ok)
  }

  function ResultOf(e: Event): Made
    requires e.Make?
  {
    KeyResult(e.x, e.origin, e.objClass, e.keyType, e.onToken, e.isPrivate, e.t, e.m, e.ok)
  }

  lemma SecretStep(w: World, x: Session, id: nat, base: Option<nat>, origin: Origin, keyType: nat, onToken: bool,
                   isPrivate: bool, t: seq<Entry>, value: bytes, check: bytes, checkValue: bool, ok: bool)
    requires x.schemas == Library() && id !in w && keyType < 256
    requires (origin.Derived? <==> base.Some?) && (base.Some? ==> base.value in w && origin.base == w[base.value].obj.attrs)
    ensures var e := SecretEvent(x, id, base, origin, keyType, onToken, isPrivate, t, value, check, checkValue, ok);
      IsStep(w, e, id, ResultOf(e)) == true
  {
    PassedUnreserved(t, false);
    SmallRepresentable(CKO_SECRET_KEY);
    SmallRepresentable(keyType);
    SecretFits(keyType, value, check, checkValue);
    var e := SecretEvent(x, id, base, origin, keyType, onToken, isPrivate, t, value, check, checkValue, ok);
    MakeStep(w, e, ResultOf(e));
  }

  // Generating an AES key, as an event.
  function AesEvent(x: Session, id: nat, onToken: bool, isPrivate: bool, t: seq<Entry>, random: nat -> bytes): Event {
    var s := Scanned(false, START, t);
    var value := random(s.length);
    SecretEvent(x, id, None, Generated(CKM_AES_KEY_GEN), CKK_AES, onToken, isPrivate, t, value, x.kcv(CKK_AES, value),
                s.checkValue, true)
  }

  lemma AesAnswers(x: Session, id: nat, onToken: bool, isPrivate: bool, t: seq<Entry>, random: nat -> bytes)
    ensures var r := AesResult(x, onToken, isPrivate, t, random);
      r.obj.Some? ==> r == ResultOf(AesEvent(x, id, onToken, isPrivate, t, random))
  {
  }

  lemma AesStep(x: Session, w: World, id: nat, onToken: bool, isPrivate: bool, t: seq<Entry>, random: nat -> bytes)
    requires x.schemas == Library() && id !in w
    ensures var r := AesResult(x, onToken, isPrivate, t, random);
      r.obj.Some? ==> IsStep(w, AesEvent(x, id, onToken, isPrivate, t, random), id, r) == true
  {
    var s := Scanned(false, START, t);
    var value := random(s.length);
    AesAnswers(x, id, onToken, isPrivate, t, random);
    SecretStep(w, x, id, None, Generated(CKM_AES_KEY_GEN), CKK_AES, onToken, isPrivate, t, value, x.kcv(CKK_AES, value),
               s.checkValue, true);
  }

  // Deriving a key from the secret agreed with base key `from`.
  function DeriveEvent(x: Session, id: nat, from: nat, base: Attrs, keyType: nat, onToken: bool, isPrivate: bool,
                       t: seq<Entry>, secret: bytes, parity: bytes -> bytes): Event {
    var s := Scanned(true, START, t);
    var n := DerivedLength(keyType, s.length).1;
    var value := if n <= |secret| then LastBytes(secret, n, keyType, parity) else [];
    SecretEvent(x, id, Some(from), Derived(base), keyType, onToken, isPrivate, t, value,
                x.kcv(keyType, CheckedBytes(secret, n, keyType)), s.checkValue, n <= |secret|)
  }

  lemma DeriveAnswers(x: Session, id: nat, from: nat, base: Attrs, keyType: nat, onToken: bool, isPrivate: bool,
                      t: seq<Entry>, secret: Option<bytes>, parity: bytes -> bytes)
    ensures var r := DeriveResult(x, base, keyType, onToken, isPrivate, t, secret, parity);
      r.obj.Some? ==>
        secret.Some? && keyType < 256
        && r == ResultOf(DeriveEvent(x, id, from, base, keyType, onToken, isPrivate, t, secret.value, parity))
  {
    var s := Scanned(true, START, t);
    if DerivedLength(keyType, s.length).0 == CKR_OK {
      DerivableType(keyType, s.length);
    }
  }

  lemma DeriveStep(x: Session, w: World, id: nat, from: nat, keyType: nat, onToken: bool, isPrivate: bool,
                   t: seq<Entry>, secret: Option<bytes>, parity: bytes -> bytes)
    requires x.schemas == Library() && id !in w && from in w
    ensures var base := w[from].obj.attrs;
      var r := DeriveResult(x, base, keyType, onToken, isPrivate, t, secret, parity);
      r.obj.Some? ==>
        secret.Some?
        && IsStep(w, DeriveEvent(x, id, from, base, keyType, onToken, isPrivate, t, secret.value, parity), id, r) == true
  {
    var base := w[from].obj.attrs;
    DeriveAnswers(x, id, from, base, keyType, onToken, isPrivate, t, secret, parity);
    if DeriveResult(x, base, keyType, onToken, isPrivate, t, secret, parity).obj.Some? {
      var s := Scanned(true, START, t);
      var n := DerivedLength(keyType, s.length).1;
      var value := if n <= |secret.value| then LastBytes(secret.value, n, keyType, parity) else [];
      SecretStep(w, x, id, Some(from), Derived(base), keyType, onToken, isPrivate, t, value,
                 x.kcv(keyType, CheckedBytes(secret.value, n, keyType)), s.checkValue, n <= |secret.value|);
    }
  }

  lemma DerivableType(keyType: nat, length: nat)
    requires DerivedLength(keyType, length).0 == CKR_OK
    ensures keyType < 256
  {
  }

  // Unwrapping a key whose parts are those of the kind of key asked for.
  function UnwrapEvent(x: Session, id: nat, t: seq<Entry>, objClass: nat, keyType: nat, d: KeyData): Event {
    Make(x, id, None, Unwrapped, objClass, keyType, AskedBy(t).onToken, AskedBy(t).isPrivate, PassedOn(t, true), d.m, d.ok)
  }

  lemma UnwrapStep(x: Session, w: World, id: nat, wrapping: Attrs, t: seq<Entry>, d: KeyData)
    requires x.schemas == Library() && id !in w
    requires var q := AskedBy(t);
      q.objClass.Some? && q.keyType.Some? && FamilyOf(q.objClass.value, q.keyType.value).Some? ==>
        AreParts(PartsOf(FamilyOf(q.objClass.value, q.keyType.value).value), d.m)
    ensures var r, q := UnwrapResult(x, wrapping, t, Some(d)), AskedBy(t);
      r.obj.Some? ==>
        q.objClass.Some? && q.keyType.Some?
        && IsStep(w, UnwrapEvent(x, id, t, q.objClass.value, q.keyType.value, d), id, r) == true
  {
    var r, q := UnwrapResult(x, wrapping, t, Some(d)), AskedBy(t);
    if r.obj.Some? {
      PassedUnreserved(t, true);
      NumberFromBytes(t, CKA_CLASS, None);
      NumberFromBytes(t, CKA_KEY_TYPE, None);
      PartsFit(q.objClass.value, q.keyType.value, d.m);
      MakeStep(w, UnwrapEvent(x, id, t, q.objClass.value, q.keyType.value, d), r);
    }
  }
}
