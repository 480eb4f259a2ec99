// Over whole runs, whether the check value of a secret key is that of its value.
module CheckValues {
  import opened Bytes
  import opened Attributes
  import opened UpdateRules
  import opened KeyPolicy
  import opened KeySchema
  import opened Objects
  import opened KeyCalls
  import opened Runs
  import opened Decoding
  import opened Agreement
  import opened Storage
  import opened Plaintexts
  import opened Steps

  type Kcv = (nat, bytes) -> bytes

  // No check value, or that of the value.
  predicate ChecksOut(kcv: Kcv, keyType: nat, check: bytes, value: bytes) {
    check == [] || check == kcv(keyType, value)
  }

  // Secret keys of the types whose check value the library computes.
  predicate IsChecked(a: Attrs) {
    ClassOf(a) == CKO_SECRET_KEY && HasCheckValue(GetNumber(a, CKA_KEY_TYPE, VENDOR_DEFINED))
  }

  // Of an object kept in clear.
  predicate ClearChecked(kcv: Kcv, a: Attrs) {
    IsChecked(a) ==>
      ChecksOut(kcv, GetNumber(a, CKA_KEY_TYPE, VENDOR_DEFINED), GetStr(a, CKA_CHECK_VALUE), GetStr(a, CKA_VALUE))
  }

  // Of an object as it is stored.
  predicate Checked(dec: Key, kcv: Kcv, a: Attrs) { ClearChecked(kcv, Decoded(dec, IsPrivate(a), a)) }

  // The value of a secret key cannot be generated, unwrapped, set or copied by a template.
  predicate FixedValue(s: Schema) {
    CKA_VALUE in s && 4 in s[CKA_VALUE].checks && 6 in s[CKA_VALUE].checks
    && 8 !in s[CKA_VALUE].checks && 17 !in s[CKA_VALUE].checks
  }

  ghost predicate FixedValues(schemas: Schemas) {
    forall t :: schemas(CKO_SECRET_KEY, t).Some? ==> FixedValue(schemas(CKO_SECRET_KEY, t).value)
  }

  lemma FixedRight(a: Schema, b: Schema)
    requires FixedValue(b)
    ensures FixedValue(a + b) == true
  {
  }

  lemma FixedLeft(a: Schema, b: Schema)
    requires FixedValue(a) && CKA_VALUE !in b
    ensures FixedValue(a + b) == true
  {
  }

  lemma OwnNoValue(f: Family)
    requires IsSecret(f)
    ensures CKA_VALUE !in OwnSchema(f)
  {
  }

  lemma SecretFixed(f: Family)
    requires IsSecret(f)
    ensures FixedValue(SchemaOf(f)) == true
  {
    var base := OBJECT + CARE + KEY + ORIGIN + PROTECTED + USES;
    OwnNoValue(f);
    FixedRight(SECRET, KEY_VALUE);
    FixedRight(base, SECRET + KEY_VALUE);
    FixedLeft(base + (SECRET + KEY_VALUE), OwnSchema(f));
  }

  lemma LibraryFixed()
    ensures FixedValues(Library())
  {
    forall t | NewP11Object(CKO_SECRET_KEY, t).Some? ensures FixedValue(NewP11Object(CKO_SECRET_KEY, t).value) {
      FamilyClass(CKO_SECRET_KEY, t);
      SecretFixed(FamilyOf(CKO_SECRET_KEY, t).value);
    }
  }

  // ---------- one entry, in clear ----------

  lemma ValueRefused(s: Schema, c: Call, i: nat, a: Attrs, e: Entry)
    requires FixedValue(s) && !c.op.OpCreate? && !c.op.OpDerive? && e.kind == CKA_VALUE
    ensures Update(s, c, i, a, e).rv != CKR_OK
  {
  }

  lemma ValueChecks(c: Call, i: nat, a: Attrs, d: bytes)
    requires c.op.OpCreate? && IsChecked(a) && StoresAll(c) && SetKeyValue(c, i, a, d).rv == CKR_OK
    ensures ClearChecked(c.session.kcv, SetKeyValue(c, i, a, d).attrs)
  {
    assert Sealed(c, ForEntry(i, false), d) == Some(d);
    var b := Lengths(c.op, Put(a, CKA_VALUE, Str(d)), d);
    assert FillerOf(c, b) == FillerOf(c, a);
  }

  lemma GivenChecks(c: Call, i: nat, a: Attrs, d: bytes)
    requires IsChecked(a) && SetCheckValue(Plainly(c), i, a, d).rv == CKR_OK
    ensures ClearChecked(c.session.kcv, SetCheckValue(Plainly(c), i, a, d).attrs)
  {
  }

  lemma SameStrings(a: Attrs, b: Attrs, kcv: Kcv)
    requires SameAt(a, b, CKA_CLASS) && SameAt(a, b, CKA_KEY_TYPE) && SameAt(a, b, CKA_VALUE) && SameAt(a, b, CKA_CHECK_VALUE)
    ensures ClearChecked(kcv, b) == ClearChecked(kcv, a)
  {
  }

  lemma OtherChecks(s: Schema, c: Call, i: nat, a: Attrs, e: Entry)
    requires Proper(s) && e.kind != CKA_VALUE && e.kind != CKA_CHECK_VALUE
    ensures ClearChecked(c.session.kcv, Update(s, c, i, a, e).attrs) == ClearChecked(c.session.kcv, a)
  {
    UpdateFrame(s, c, i, a, e, CKA_CLASS);
    UpdateFrame(s, c, i, a, e, CKA_KEY_TYPE);
    UpdateFrame(s, c, i, a, e, CKA_VALUE);
    UpdateFrame(s, c, i, a, e, CKA_CHECK_VALUE);
    SameStrings(a, Update(s, c, i, a, e).attrs, c.session.kcv);
  }

  // An entry that succeeds keeps check value and value together, in every operation but deriving.
  lemma UpdateChecks(s: Schema, c: Call, i: nat, a: Attrs, e: Entry)
    requires Proper(s) && (IsChecked(a) ==> FixedValue(s)) && !c.op.OpDerive? && ClearChecked(c.session.kcv, a)
    requires Update(s, Plainly(c), i, a, e).rv == CKR_OK
    ensures var b := Update(s, Plainly(c), i, a, e).attrs;
      ClearChecked(c.session.kcv, b) == true && IsChecked(b) == IsChecked(a)
  {
    UpdateFrame(s, Plainly(c), i, a, e, CKA_CLASS);
    UpdateFrame(s, Plainly(c), i, a, e, CKA_KEY_TYPE);
    if !IsChecked(a) {
    } else if e.kind == CKA_CHECK_VALUE {
      assert Named(s[e.kind].rule, e.kind);
      GivenChecks(c, i, a, e.data);
    } else if e.kind == CKA_VALUE {
      assert Named(s[e.kind].rule, e.kind);
      if c.op.OpCreate? {
        ValueChecks(Plainly(c), i, a, e.data);
      } else {
        ValueRefused(s, Plainly(c), i, a, e);
      }
    } else {
      OtherChecks(s, Plainly(c), i, a, e);
    }
  }

  lemma {:induction false} AppliedChecks(s: Schema, c: Call, i: nat, a: Attrs, t: seq<Entry>)
    requires Proper(s) && (IsChecked(a) ==> FixedValue(s)) && !c.op.OpDerive? && ClearChecked(c.session.kcv, a)
    requires Apply(Updating(s, Plainly(c)), i, a, t).rv == CKR_OK
    ensures ClearChecked(c.session.kcv, Apply(Updating(s, Plainly(c)), i, a, t).attrs) == true
    decreases |t|
  {
    if t != [] {
      UpdateChecks(s, c, i, a, t[0]);
      AppliedChecks(s, c, i + 1, Updating(s, Plainly(c))(i, a, t[0]).attrs, t[1..]);
    }
  }

  // ---------- a template, encrypted ----------

  lemma SeenAlike(dec: Key, isPrivate: bool, a: Attrs)
    ensures IsChecked(Decoded(dec, isPrivate, a)) == IsChecked(a)
  {
  }

  // A template applied to an object whose strings decode as c says.
  lemma TemplateChecks(s: Schema, c: Call, a: Attrs, t: seq<Entry>)
    requires Proper(s) && (IsChecked(a) ==> FixedValue(s)) && !c.op.OpDerive? && Ready(c, a)
    requires ClearChecked(c.session.kcv, View(c, a)) && Apply(Updating(s, c), 0, a, t).rv == CKR_OK
    ensures ClearChecked(c.session.kcv, View(c, Apply(Updating(s, c), 0, a, t).attrs)) == true
  {
    SeenAlike(c.session.token.decrypt, c.isPrivate, a);
    ApplyMatches(s, c, 0, a, t);
    AppliedChecks(s, c, 0, View(c, a), t);
  }

  lemma FixedHere(schemas: Schemas, a: Attrs, s: Schema)
    requires FixedValues(schemas) && schemas(ClassOf(a), KeyTypeOf(a)) == Some(s)
    ensures IsChecked(a) ==> FixedValue(s)
  {
  }

  // ---------- setting ----------

  lemma EffectiveChecks(s: Schema, c: Call, dec: Key, o: Obj, t: seq<Entry>)
    requires Proper(s) && (IsChecked(o.attrs) ==> FixedValue(s)) && Agrees(c.session.token, dec)
    requires c.op.OpSet? && c.isPrivate == IsPrivate(o.attrs) && Settled(o)
    requires Represents(dec, o.attrs) && Checked(dec, c.session.kcv, o.attrs)
    ensures Checked(dec, c.session.kcv, SaveTemplate(s, c, o, t).obj.attrs) == true
  {
    var u := Effective(s, c, o, t);
    EffectiveApplied(s, c, o, t);
    ApplyAgrees(s, c, dec, 0, o.attrs, u);
    TemplateChecks(s, ReadingCall(c, dec), o.attrs, u);
    PrivateApplied(s, c, 0, o.attrs, u);
  }

  lemma SetChecks(schemas: Schemas, x: Session, dec: Key, o: Obj, t: seq<Entry>)
    requires SoundSchemas(schemas) && FixedValues(schemas) && x.schemas == schemas && GoodObj(schemas, o)
    requires Agrees(x.token, dec) && Represents(dec, o.attrs) && Checked(dec, x.kcv, o.attrs)
    ensures Checked(dec, x.kcv, SetResult(x, o, t).obj.attrs) == true
  {
    var s := schemas(ClassOf(o.attrs), KeyTypeOf(o.attrs)).value;
    FixedHere(schemas, o.attrs, s);
    SetSaves(schemas, s, x, o, t);
    EffectiveChecks(s, Call(x, IsPrivate(o.attrs), OpSet), dec, o, t);
  }

  // ---------- copying ----------

  lemma SaveChecks(s: Schema, c: Call, o: Obj, t: seq<Entry>)
    requires Proper(s) && (IsChecked(o.attrs) ==> FixedValue(s)) && !c.op.OpDerive? && Ready(c, o.attrs)
    requires HasPrivate(o.attrs) && c.isPrivate == LastFlag(t, CKA_PRIVATE, IsPrivate(o.attrs))
    requires ClearChecked(c.session.kcv, View(c, o.attrs))
    ensures var r := SaveTemplate(s, c, o, t);
      r.rv == CKR_OK ==> Checked(c.session.token.decrypt, c.session.kcv, r.obj.attrs) == true
  {
    SavedInFull(s, c, o, t);
    if SaveTemplate(s, c, o, t).rv == CKR_OK {
      TemplateChecks(s, c, o.attrs, t);
      PrivateApplied(s, c, 0, o.attrs, t);
    }
  }

  lemma CopiedChecks(x: Session, wasPrivate: bool, isPrivate: bool, a: Attrs)
    requires Lawful(x.token) && (wasPrivate ==> isPrivate) && Decodable(x.token.decrypt, wasPrivate, a)
    requires Copies(x, !wasPrivate && isPrivate, a)
    ensures ClearChecked(x.kcv, Decoded(x.token.decrypt, isPrivate, CopiedAttrs(x, !wasPrivate && isPrivate, a)))
         == ClearChecked(x.kcv, Decoded(x.token.decrypt, wasPrivate, a))
  {
    var b := CopiedAttrs(x, !wasPrivate && isPrivate, a);
    CopyDecodes(x, wasPrivate, isPrivate, a);
    SameStrings(Decoded(x.token.decrypt, wasPrivate, a), Decoded(x.token.decrypt, isPrivate, b), x.kcv);
  }

  lemma CopyIntoChecks(schemas: Schemas, x: Session, o: Obj, onToken: bool, isPrivate: bool, t: seq<Entry>)
    requires SoundSchemas(schemas) && FixedValues(schemas) && x.schemas == schemas && GoodObj(schemas, o)
    requires Lawful(x.token) && Represents(x.token.decrypt, o.attrs) && Checked(x.token.decrypt, x.kcv, o.attrs)
    requires isPrivate == LastFlag(t, CKA_PRIVATE, IsPrivate(o.attrs)) && (IsPrivate(o.attrs) ==> isPrivate)
    ensures var r := CopyInto(x, o, onToken, isPrivate, !IsPrivate(o.attrs) && isPrivate, t).obj;
      r.Some? ==> Checked(x.token.decrypt, x.kcv, r.value.attrs) == true
  {
    var upgrade := !IsPrivate(o.attrs) && isPrivate;
    CopyIntoSaves(x, o, onToken, isPrivate, upgrade, t);
    if CopyInto(x, o, onToken, isPrivate, upgrade, t).obj.Some? {
      CopiedChecks(x, IsPrivate(o.attrs), isPrivate, o.attrs);
      CopyDecodes(x, IsPrivate(o.attrs), isPrivate, o.attrs);
      CopiedKeepsGood(schemas, x, upgrade, o.attrs);
      CopySavedChecks(schemas, x, isPrivate, Rewrite(NewObj(onToken), CopiedAttrs(x, upgrade, o.attrs)), t);
    }
  }

  lemma CopySavedChecks(schemas: Schemas, x: Session, isPrivate: bool, o: Obj, t: seq<Entry>)
    requires SoundSchemas(schemas) && FixedValues(schemas) && x.schemas == schemas && GoodObj(schemas, o)
    requires Lawful(x.token) && Decodable(x.token.decrypt, isPrivate, o.attrs) && HasPrivate(o.attrs)
    requires isPrivate == LastFlag(t, CKA_PRIVATE, IsPrivate(o.attrs))
    requires ClearChecked(x.kcv, Decoded(x.token.decrypt, isPrivate, o.attrs))
    ensures var r := SaveObject(x, isPrivate, OpCopy, o, t);
      r.rv == CKR_OK ==> Checked(x.token.decrypt, x.kcv, r.obj.attrs) == true
  {
    var s := schemas(ClassOf(o.attrs), KeyTypeOf(o.attrs)).value;
    FixedHere(schemas, o.attrs, s);
    SaveObjectSaves(schemas, s, x, isPrivate, OpCopy, o, t);
    SaveChecks(s, Call(x, isPrivate, OpCopy), o, t);
  }

  lemma CopyChecks(schemas: Schemas, x: Session, o: Obj, t: seq<Entry>)
    requires SoundSchemas(schemas) && FixedValues(schemas) && x.schemas == schemas && GoodObj(schemas, o)
    requires Lawful(x.token) && Represents(x.token.decrypt, o.attrs) && Checked(x.token.decrypt, x.kcv, o.attrs)
    ensures var r := CopyResult(x, o, t).obj;
      r.Some? ==> Checked(x.token.decrypt, x.kcv, r.value.attrs) == true
  {
    var onToken := LastFlag(t, CKA_TOKEN, GetBool(o.attrs, CKA_TOKEN, false));
    if CopyResult(x, o, t).obj.Some? {
      CopyIntoChecks(schemas, x, o, onToken, LastFlag(t, CKA_PRIVATE, IsPrivate(o.attrs)), t);
    }
  }

  // ---------- creating ----------

  lemma FreshChecks(c: Call, s: Schema, objClass: nat, keyType: nat)
    requires Proper(s) && Lawful(c.session.token)
    ensures ClearChecked(c.session.kcv, View(c, Initialised(s, objClass, keyType, map[]))) == true
  {
    FreshHolds(c, s, objClass, keyType, CKA_CHECK_VALUE);
  }

  lemma BroughtInChecks(dec: Key, kcv: Kcv, a: Attrs)
    requires Checked(dec, kcv, a)
    ensures Checked(dec, kcv, BroughtIn(a)) == true
  {
    SameStrings(Decoded(dec, IsPrivate(a), a), Decoded(dec, IsPrivate(a), BroughtIn(a)), kcv);
  }

  lemma CreateInChecks(schemas: Schemas, x: Session, op: Op, objClass: nat, keyType: nat, onToken: bool,
                       isPrivate: bool, t: seq<Entry>)
    requires SoundSchemas(schemas) && FixedValues(schemas) && x.schemas == schemas && Lawful(x.token)
    requires isPrivate == LastFlag(t, CKA_PRIVATE, true) && !op.OpDerive?
    ensures var r := CreateIn(x, op, objClass, keyType, onToken, isPrivate, t);
      r.rv == CKR_OK ==> r.obj.Some? && Checked(x.token.decrypt, x.kcv, r.obj.value.attrs) == true
  {
    if schemas(objClass, keyType).Some? {
      var s, c := schemas(objClass, keyType).value, Call(x, isPrivate, op);
      var o := Rewrite(NewObj(onToken), Initialised(s, objClass, keyType, map[]));
      CreateInIs(s, x, op, objClass, keyType, onToken, isPrivate, t);
      FreshHolds(c, s, objClass, keyType, CKA_CHECK_VALUE);
      FreshChecks(c, s, objClass, keyType);
      FreshClass(s, objClass, keyType);
      FixedHere(schemas, o.attrs, s);
      SaveChecks(s, c, o, t);
      var r := SaveTemplate(s, c, o, t);
      if r.rv == CKR_OK {
        BroughtInChecks(x.token.decrypt, x.kcv, r.obj.attrs);
      }
    }
  }

  lemma CreateChecks(schemas: Schemas, x: Session, op: Op, t: seq<Entry>)
    requires SoundSchemas(schemas) && FixedValues(schemas) && x.schemas == schemas && Lawful(x.token) && !op.OpDerive?
    ensures var r := CreateResult(x, op, t);
      r.rv == CKR_OK ==> r.obj.Some? && Checked(x.token.decrypt, x.kcv, r.obj.value.attrs) == true
  {
    var q := AskedBy(t);
    ReorderedLast(t, CKA_PRIVATE, true);
    if CreateResult(x, op, t).rv == CKR_OK {
      CreateAnswers(x, op, t);
      CreateInChecks(schemas, x, op, q.objClass.value, if q.keyType.Some? then q.keyType.value else CKK_RSA,
                     q.onToken, q.isPrivate, Reordered(t));
    }
  }

  // ---------- keys made by the token ----------

  predicate IsCheckedType(q: Asked) {
    q.objClass == Some(CKO_SECRET_KEY) && q.keyType.Some? && HasCheckValue(q.keyType.value)
  }

  // What is written to a new key checks out.
  predicate WritesCheckOut(kcv: Kcv, x: Session, op: Op, isPrivate: bool, u: seq<Entry>, m: Material) {
    IsCheckedType(AskedBy(u)) ==>
      ChecksOut(kcv, AskedBy(u).keyType.value, KeyWrites(x, op, isPrivate, u, m, CKA_CHECK_VALUE),
                KeyWrites(x, op, isPrivate, u, m, CKA_VALUE))
  }

  lemma HeldStrings(dec: Key, kcv: Kcv, s: Schema, a: Attrs, check: bytes, value: bytes)
    requires Proper(s) && Shaped(s, a) && (IsChecked(a) ==> FixedValue(s))
    requires HoldsNow(dec, a, CKA_CHECK_VALUE, check) && HoldsNow(dec, a, CKA_VALUE, value)
    ensures Checked(dec, kcv, a) <==> (IsChecked(a) ==> ChecksOut(kcv, KeyTypeOf(a), check, value))
  {
    assert SortedAt(s, a, CKA_CHECK_VALUE) && SortedAt(s, a, CKA_VALUE) && SortedAt(s, a, CKA_KEY_TYPE);
    if IsChecked(a) {
      assert Named(s[CKA_VALUE].rule, CKA_VALUE) && Named(s[CKA_CHECK_VALUE].rule, CKA_CHECK_VALUE);
    }
  }

  // A key made by the token checks out exactly when what is written to it does.
  lemma KeyChecksExactly(schemas: Schemas, x: Session, origin: Origin, objClass: nat, keyType: nat, onToken: bool,
                         isPrivate: bool, t: seq<Entry>, m: Material, ok: bool)
    requires SoundSchemas(schemas) && FixedValues(schemas) && x.schemas == schemas && Lawful(x.token)
    requires IsMaterial(m) && Unreserved(t)
    requires Makeable(schemas, x, origin, objClass, keyType, onToken, isPrivate, t, m)
    ensures var r := KeyResult(x, origin, objClass, keyType, onToken, isPrivate, t, m, ok);
      r.rv == CKR_OK ==>
        r.obj.Some?
        && (Checked(x.token.decrypt, x.kcv, r.obj.value.attrs) <==>
              WritesCheckOut(x.kcv, x, OpOf(origin), isPrivate, KeyTemplate(objClass, keyType, onToken, isPrivate, t), m))
  {
    var u := KeyTemplate(objClass, keyType, onToken, isPrivate, t);
    var r := KeyResult(x, origin, objClass, keyType, onToken, isPrivate, t, m, ok);
    KeyHolds(schemas, x, origin, objClass, keyType, onToken, isPrivate, t, m, ok, CKA_CHECK_VALUE);
    KeyHolds(schemas, x, origin, objClass, keyType, onToken, isPrivate, t, m, ok, CKA_VALUE);
    KeyKeepsGood(schemas, x, origin, objClass, keyType, onToken, isPrivate, t, m, ok);
    MadeClass(schemas, x, origin, objClass, keyType, onToken, isPrivate, t, m, ok);
    if r.rv == CKR_OK {
      SecretAsked(x, OpOf(origin), u);
      MadeChecksExactly(schemas, x, OpOf(origin), isPrivate, u, m, r.obj.value);
    }
  }

  lemma SecretAsked(x: Session, op: Op, u: seq<Entry>)
    ensures CreateResult(x, op, u).rv == CKR_OK && AskedBy(u).objClass == Some(CKO_SECRET_KEY) ==> AskedBy(u).keyType.Some?
  {
  }

  lemma MadeChecksExactly(schemas: Schemas, x: Session, op: Op, isPrivate: bool, u: seq<Entry>, m: Material, o: Obj)
    requires SoundSchemas(schemas) && FixedValues(schemas) && GoodObj(schemas, o)
    requires HoldsNow(x.token.decrypt, o.attrs, CKA_CHECK_VALUE, KeyWrites(x, op, isPrivate, u, m, CKA_CHECK_VALUE))
    requires HoldsNow(x.token.decrypt, o.attrs, CKA_VALUE, KeyWrites(x, op, isPrivate, u, m, CKA_VALUE))
    requires var q := AskedBy(u);
      q.objClass == Some(ClassOf(o.attrs)) && KeyTypeOf(o.attrs) == (if q.keyType.Some? then q.keyType.value else CKK_RSA)
      && (q.objClass == Some(CKO_SECRET_KEY) ==> q.keyType.Some?)
    ensures Checked(x.token.decrypt, x.kcv, o.attrs) <==> WritesCheckOut(x.kcv, x, op, isPrivate, u, m)
  {
    var s := schemas(ClassOf(o.attrs), KeyTypeOf(o.attrs)).value;
    FixedHere(schemas, o.attrs, s);
    assert SortedAt(s, o.attrs, CKA_KEY_TYPE);
    HeldStrings(x.token.decrypt, x.kcv, s, o.attrs, KeyWrites(x, op, isPrivate, u, m, CKA_CHECK_VALUE),
                KeyWrites(x, op, isPrivate, u, m, CKA_VALUE));
  }

  // ---------- runs ----------

  // The calls of a run in which check values are computed alike.
  ghost predicate Alike(kcv: Kcv, e: Event) {
    match e
    case Create(x, _, _) => x.kcv == kcv
    case Make(x, _, _, _, _, _, _, _, _, _, _) => x.kcv == kcv
    case Copy(x, _, _, _) => x.kcv == kcv
    case Set(x, _, _) => x.kcv == kcv
    case Destroy(_) => true
  }

  ghost predicate Steady(schemas: Schemas, dec: Key, kcv: Kcv, e: Event) {
    SoundSchemas(schemas) && FixedValues(schemas) && Keyed(dec, e) && Alike(kcv, e)
  }

  // The template of the new key.
  function TemplateOf(e: Event): seq<Entry>
    requires e.Make?
  {
    KeyTemplate(e.objClass, e.keyType, e.onToken, e.isPrivate, e.t)
  }

  // What a call that makes a key writes checks out, if it succeeds.
  predicate Consistent(kcv: Kcv, e: Event) {
    e.Make? && ResultOf(e).rv == CKR_OK ==>
      WritesCheckOut(kcv, e.x, OpOf(e.origin), e.isPrivate, TemplateOf(e), e.m)
  }

  ghost predicate AllChecked(dec: Key, kcv: Kcv, w: World) {
    forall id :: id in w && w[id].complete ==> Checked(dec, kcv, w[id].obj.attrs)
  }

  lemma BornChecked(dec: Key, kcv: Kcv, w: World, id: nat, obj: Option<Obj>, past: seq<Attrs>, complete: bool)
    requires AllChecked(dec, kcv, w) && (obj.Some? && complete ==> Checked(dec, kcv, obj.value.attrs))
    ensures AllChecked(dec, kcv, Born(w, id, obj, past, complete)) == true
  {
  }

  // The key a call makes checks out exactly when the call is consistent.
  lemma MadeExactly(schemas: Schemas, dec: Key, kcv: Kcv, w: World, e: Event)
    requires Steady(schemas, dec, kcv, e) && Valid(schemas, w, e) && e.Make? && ResultOf(e).rv == CKR_OK
    ensures ResultOf(e).obj.Some? && (Checked(dec, kcv, ResultOf(e).obj.value.attrs) <==> Consistent(kcv, e))
  {
    var x, u := Reading(e.x, dec), KeyTemplate(e.objClass, e.keyType, e.onToken, e.isPrivate, e.t);
    KeyAgrees(e.x, dec, e.origin, e.objClass, e.keyType, e.onToken, e.isPrivate, e.t, e.m, e.ok);
    MakeableReading(schemas, dec, e);
    KeyChecksExactly(schemas, x, e.origin, e.objClass, e.keyType, e.onToken, e.isPrivate, e.t, e.m, e.ok);
    PartsWrittenAlike(e.x, dec, OpOf(e.origin), e.isPrivate, u, e.m, CKA_CHECK_VALUE);
    PartsWrittenAlike(e.x, dec, OpOf(e.origin), e.isPrivate, u, e.m, CKA_VALUE);
  }

  lemma MakeableReading(schemas: Schemas, dec: Key, e: Event)
    requires SoundSchemas(schemas) && e.Make? && e.x.schemas == schemas && Agrees(e.x.token, dec)
    requires Created(e).rv == CKR_OK
    requires Makeable(schemas, e.x, e.origin, e.objClass, e.keyType, e.onToken, e.isPrivate, e.t, e.m)
    ensures Makeable(schemas, Reading(e.x, dec), e.origin, e.objClass, e.keyType, e.onToken, e.isPrivate, e.t, e.m) == true
  {
    CreateAgrees(e.x, dec, OpOf(e.origin), KeyTemplate(e.objClass, e.keyType, e.onToken, e.isPrivate, e.t));
  }

  lemma MakeNextChecked(schemas: Schemas, dec: Key, kcv: Kcv, w: World, e: Event)
    requires Steady(schemas, dec, kcv, e) && Valid(schemas, w, e) && e.Make? && AllChecked(dec, kcv, w)
    ensures AllChecked(dec, kcv, Next(w, e)) <==> Consistent(kcv, e)
  {
    var r := ResultOf(e);
    if r.rv == CKR_OK {
      MadeExactly(schemas, dec, kcv, w, e);
    }
    if Consistent(kcv, e) {
      BornChecked(dec, kcv, w, e.id, r.obj, MakePast(w, e), r.rv == CKR_OK);
    } else {
      assert Next(w, e)[e.id].complete;
    }
  }

  lemma CopyNextChecked(schemas: Schemas, dec: Key, kcv: Kcv, w: World, e: Event)
    requires Steady(schemas, dec, kcv, e) && Valid(schemas, w, e) && e.Copy?
    requires AllTell(schemas, w) && AllRepresent(dec, w) && AllChecked(dec, kcv, w)
    ensures AllChecked(dec, kcv, Next(w, e)) == true
  {
    var from := w[e.from];
    assert TellsHistory(schemas, from);
    var r := CopyResult(e.x, from.obj, e.t).obj;
    if from.complete && r.Some? {
      CopyAgrees(e.x, dec, from.obj, e.t);
      CopyChecks(schemas, Reading(e.x, dec), from.obj, e.t);
    }
    BornChecked(dec, kcv, w, e.id, r, CopyPast(e.x, from, e.t), from.complete);
  }

  lemma SetNextChecked(schemas: Schemas, dec: Key, kcv: Kcv, w: World, e: Event)
    requires Steady(schemas, dec, kcv, e) && Valid(schemas, w, e) && e.Set?
    requires AllTell(schemas, w) && AllRepresent(dec, w) && AllChecked(dec, kcv, w)
    ensures AllChecked(dec, kcv, Next(w, e)) == true
  {
    var was := w[e.target];
    assert TellsHistory(schemas, was);
    if was.complete {
      SetChecks(schemas, e.x, dec, was.obj, e.t);
    }
    BornChecked(dec, kcv, w, e.target, Some(SetResult(e.x, was.obj, e.t).obj), was.past, was.complete);
  }

  lemma CreateNextChecked(schemas: Schemas, dec: Key, kcv: Kcv, w: World, e: Event)
    requires Steady(schemas, dec, kcv, e) && Valid(schemas, w, e) && e.Create? && AllChecked(dec, kcv, w)
    ensures AllChecked(dec, kcv, Next(w, e)) == true
  {
    var r := CreateResult(e.x, OpCreate, e.t);
    if r.rv == CKR_OK {
      CreateAgrees(e.x, dec, OpCreate, e.t);
      CreateChecks(schemas, Reading(e.x, dec), OpCreate, e.t);
    }
    BornChecked(dec, kcv, w, e.id, r.obj, [], r.rv == CKR_OK);
  }

  // Only a call that makes a key can leave one whose check value is wrong.
  lemma NextChecked(schemas: Schemas, dec: Key, kcv: Kcv, w: World, e: Event)
    requires Steady(schemas, dec, kcv, e) && Valid(schemas, w, e)
    requires AllTell(schemas, w) && AllRepresent(dec, w) && AllChecked(dec, kcv, w)
    ensures AllChecked(dec, kcv, Next(w, e)) <==> Consistent(kcv, e)
  {
    match e
    case Create(_, _, _) => CreateNextChecked(schemas, dec, kcv, w, e);
    case Make(_, _, _, _, _, _, _, _, _, _, _) => MakeNextChecked(schemas, dec, kcv, w, e);
    case Copy(_, _, _, _) => CopyNextChecked(schemas, dec, kcv, w, e);
    case Set(_, _, _) => SetNextChecked(schemas, dec, kcv, w, e);
    case Destroy(_) =>
  }

  lemma CallChecked(schemas: Schemas, dec: Key, kcv: Kcv, ws: seq<World>, es: seq<Event>, i: nat)
    requires SoundSchemas(schemas) && Run(Calls(schemas), ws, es) && i < |es|
    requires forall j :: 0 <= j < |es| ==> Steady(schemas, dec, kcv, es[j])
    requires AllChecked(dec, kcv, ws[i])
    ensures AllChecked(dec, kcv, ws[i + 1]) <==> Consistent(kcv, es[i])
  {
    HistoryInvariant(schemas, ws, es, i);
    forall j | 0 <= j < |es| ensures Keyed(dec, es[j]) {
      assert Steady(schemas, dec, kcv, es[j]);
    }
    AlwaysDecodable(schemas, dec, ws, es, i);
    assert Calls(schemas)(ws[i], es[i], ws[i + 1]);
    NextChecked(schemas, dec, kcv, ws[i], es[i]);
  }

  lemma {:induction false} RunChecked(schemas: Schemas, dec: Key, kcv: Kcv, ws: seq<World>, es: seq<Event>, i: nat)
    requires SoundSchemas(schemas) && Run(Calls(schemas), ws, es) && i < |ws|
    requires forall j :: 0 <= j < |es| ==> Steady(schemas, dec, kcv, es[j])
    requires forall j :: 0 <= j < i ==> Consistent(kcv, es[j])
    ensures AllChecked(dec, kcv, ws[i]) == true
  {
    if i > 0 {
      RunChecked(schemas, dec, kcv, ws, es, i - 1);
      CallChecked(schemas, dec, kcv, ws, es, i - 1);
    }
  }

  // In every run in which the token keeps its key: the check value of every secret key made
  // successfully is always absent or that of its value, if and only if every call that makes a key
  // writes a check value that is empty or that of the value it writes.
  lemma CheckValuesExactly(schemas: Schemas, dec: Key, kcv: Kcv, ws: seq<World>, es: seq<Event>)
    requires SoundSchemas(schemas) && Run(Calls(schemas), ws, es)
    requires forall j :: 0 <= j < |es| ==> Steady(schemas, dec, kcv, es[j])
    ensures (forall i :: 0 <= i < |ws| ==> AllChecked(dec, kcv, ws[i])) <==> forall j :: 0 <= j < |es| ==> Consistent(kcv, es[j])
  {
    if forall j :: 0 <= j < |es| ==> Consistent(kcv, es[j]) {
      forall i | 0 <= i < |ws| ensures AllChecked(dec, kcv, ws[i]) {
        RunChecked(schemas, dec, kcv, ws, es, i);
      }
    }
    if forall i :: 0 <= i < |ws| ==> AllChecked(dec, kcv, ws[i]) {
      forall j | 0 <= j < |es| ensures Consistent(kcv, es[j]) {
        assert AllChecked(dec, kcv, ws[j + 1]);
        CallChecked(schemas, dec, kcv, ws, es, j);
      }
    }
  }

  // ---------- which calls are consistent ----------

  // The token could not encrypt a part, so nothing is stored for it.
  predicate Lost(x: Session, isPrivate: bool, k: Kind, d: bytes) { isPrivate && x.token.encrypt(ForKind(k), d) == None }

  function Stored(x: Session, isPrivate: bool, p: (Kind, bytes), k: Kind, v: bytes): bytes {
    if p.0 != k then v else if Lost(x, isPrivate, p.0, p.1) then [] else p.1
  }

  lemma FirstWritten(x: Session, isPrivate: bool, p: (Kind, bytes), rest: Material, k: Kind, v: bytes)
    ensures PartWritten(x, isPrivate, [p] + rest, k, v) == PartWritten(x, isPrivate, rest, k, Stored(x, isPrivate, p, k, v))
  {
    assert ([p] + rest)[1..] == rest;
  }

  lemma OnlyPartWritten(x: Session, isPrivate: bool, p: (Kind, bytes), k: Kind, v: bytes)
    ensures PartWritten(x, isPrivate, [p], k, v) == Stored(x, isPrivate, p, k, v)
  {
    FirstWritten(x, isPrivate, p, [], k, v);
    assert [p] + [] == [p];
  }

  lemma SecretWrites(x: Session, op: Op, isPrivate: bool, u: seq<Entry>, value: bytes, check: bytes, checkValue: bool)
    requires !op.OpCreate? && forall e :: e in u ==> e.kind != CKA_CHECK_VALUE
    ensures var m := ValueAndCheck(value, check, checkValue);
      KeyWrites(x, op, isPrivate, u, m, CKA_VALUE) == (if Lost(x, isPrivate, CKA_VALUE, value) then [] else value)
      && KeyWrites(x, op, isPrivate, u, m, CKA_CHECK_VALUE)
         == if !checkValue || Lost(x, isPrivate, CKA_CHECK_VALUE, check) then [] else check
  {
    NoEntryWritten(u, CKA_CHECK_VALUE, []);
    BothWritten(x, isPrivate, value, check, checkValue, CKA_VALUE, CreateWrites(x, op, u, CKA_VALUE));
    BothWritten(x, isPrivate, value, check, checkValue, CKA_CHECK_VALUE, CreateWrites(x, op, u, CKA_CHECK_VALUE));
  }

  lemma BothWritten(x: Session, isPrivate: bool, value: bytes, check: bytes, checkValue: bool, k: Kind, v: bytes)
    ensures PartWritten(x, isPrivate, ValueAndCheck(value, check, checkValue), k, v)
         == var w := Stored(x, isPrivate, (CKA_VALUE, value), k, v);
            if checkValue then Stored(x, isPrivate, (CKA_CHECK_VALUE, check), k, w) else w
  {
    if checkValue {
      var w := Stored(x, isPrivate, (CKA_VALUE, value), k, v);
      FirstWritten(x, isPrivate, (CKA_VALUE, value), [(CKA_CHECK_VALUE, check)], k, v);
      OnlyPartWritten(x, isPrivate, (CKA_CHECK_VALUE, check), k, w);
    } else {
      OnlyPartWritten(x, isPrivate, (CKA_VALUE, value), k, v);
      assert [(CKA_VALUE, value)] + [] == [(CKA_VALUE, value)];
    }
  }

  lemma {:induction false} NoEntryWritten(t: seq<Entry>, k: Kind, v: bytes)
    requires forall e :: e in t ==> e.kind != k
    ensures LastWritten(NoCheck, t, k, v) == v
    decreases |t|
  {
    if t != [] {
      NoEntryWritten(t[1..], k, v);
    }
  }

  lemma NoCheckPassed(objClass: nat, keyType: nat, onToken: bool, isPrivate: bool, t: seq<Entry>)
    ensures forall e :: e in KeyTemplate(objClass, keyType, onToken, isPrivate, PassedOn(t, false)) ==> e.kind != CKA_CHECK_VALUE
  {
    OnlyKept(t, (e: Entry) =>
      e.kind != CKA_CLASS && e.kind != CKA_TOKEN && e.kind != CKA_PRIVATE && e.kind != CKA_KEY_TYPE
      && (false || e.kind != CKA_CHECK_VALUE));
  }

  lemma SecretType(keyType: nat, onToken: bool, isPrivate: bool, t: seq<Entry>)
    requires keyType < 256 && HasCheckValue(keyType)
    ensures var q := AskedBy(KeyTemplate(CKO_SECRET_KEY, keyType, onToken, isPrivate, PassedOn(t, false)));
      IsCheckedType(q) && q.keyType == Some(keyType)
  {
    PassedUnreserved(t, false);
    SmallRepresentable(CKO_SECRET_KEY);
    SmallRepresentable(keyType);
    ClassKept(CKO_SECRET_KEY, keyType, onToken, isPrivate, PassedOn(t, false));
  }

  // Generating and deriving a secret key: consistent exactly when no check value is asked for, or it
  // is lost or empty, or it is that of what is stored as the value.
  lemma SecretConsistent(kcv: Kcv, x: Session, id: nat, base: Option<nat>, origin: Origin, keyType: nat, onToken: bool,
                         isPrivate: bool, t: seq<Entry>, value: bytes, check: bytes, checkValue: bool, ok: bool)
    requires keyType < 256 && HasCheckValue(keyType)
    ensures var e := SecretEvent(x, id, base, origin, keyType, onToken, isPrivate, t, value, check, checkValue, ok);
      Consistent(kcv, e) <==>
        ResultOf(e).rv != CKR_OK || !checkValue || Lost(x, isPrivate, CKA_CHECK_VALUE, check) || check == []
        || check == kcv(keyType, if Lost(x, isPrivate, CKA_VALUE, value) then [] else value)
  {
    var u := KeyTemplate(CKO_SECRET_KEY, keyType, onToken, isPrivate, PassedOn(t, false));
    NoCheckPassed(CKO_SECRET_KEY, keyType, onToken, isPrivate, t);
    SecretWrites(x, OpOf(origin), isPrivate, u, value, check, checkValue);
    SecretType(keyType, onToken, isPrivate, t);
  }

  // So a generated AES key checks out whenever its value is not lost.
  lemma AesConsistent(x: Session, id: nat, onToken: bool, isPrivate: bool, t: seq<Entry>, random: nat -> bytes)
    requires !Lost(x, isPrivate, CKA_VALUE, random(Scanned(false, START, t).length))
    ensures Consistent(x.kcv, AesEvent(x, id, onToken, isPrivate, t, random))
  {
    var s := Scanned(false, START, t);
    var value := random(s.length);
    SecretConsistent(x.kcv, x, id, None, Generated(CKM_AES_KEY_GEN), CKK_AES, onToken, isPrivate, t, value,
                     x.kcv(CKK_AES, value), s.checkValue, true);
  }

  // A derived key, if neither value nor check value is lost, exactly when the check value that is
  // computed before the secret is cut, if asked for and not empty, is that of the part of the secret
  // that becomes the key.
  lemma DeriveConsistent(x: Session, id: nat, from: nat, base: Attrs, keyType: nat, onToken: bool, isPrivate: bool,
                         t: seq<Entry>, secret: bytes, parity: bytes -> bytes, n: nat, check: bytes)
    requires keyType < 256 && HasCheckValue(keyType) && n == DerivedLength(keyType, Scanned(true, START, t).length).1
    requires n <= |secret| && check == x.kcv(keyType, CheckedBytes(secret, n, keyType))
    requires !Lost(x, isPrivate, CKA_VALUE, LastBytes(secret, n, keyType, parity)) && !Lost(x, isPrivate, CKA_CHECK_VALUE, check)
    ensures var e := DeriveEvent(x, id, from, base, keyType, onToken, isPrivate, t, secret, parity);
      Consistent(x.kcv, e) <==>
        ResultOf(e).rv != CKR_OK || !Scanned(true, START, t).checkValue || check == []
        || check == x.kcv(keyType, LastBytes(secret, n, keyType, parity))
  {
    SecretConsistent(x.kcv, x, id, Some(from), Derived(base), keyType, onToken, isPrivate, t,
                     LastBytes(secret, n, keyType, parity), check, Scanned(true, START, t).checkValue, true);
  }

  // A secret that is as long as the key is cut nowhere, so only the parity of DES keys matters.
  lemma WholeSecret(keyType: nat, secret: bytes, parity: bytes -> bytes)
    requires !IsDesKey(keyType)
    ensures LastBytes(secret, |secret|, keyType, parity) == CheckedBytes(secret, |secret|, keyType)
  {
  }

  // A secret one byte longer than the key, and a check value that tells its beginning from its end.
  lemma LongSecret(parity: bytes -> bytes)
    ensures var kcv: Kcv := (keyType, d) => if d == [] then [] else [d[0]];
      var secret := [1] + Zeros(16);
      !ChecksOut(kcv, CKK_AES, kcv(CKK_AES, CheckedBytes(secret, 16, CKK_AES)), LastBytes(secret, 16, CKK_AES, parity))
  {
    var secret := [1] + Zeros(16);
    assert secret[|secret| - 16..] == Zeros(16) && secret[..16][0] == 1;
  }

  // ---------- unwrapping ----------

  lemma {:induction false} NoValueEntry(s: Schema, c: Call, i: nat, a: Attrs, t: seq<Entry>)
    requires FixedValue(s) && !c.op.OpCreate? && !c.op.OpDerive? && Apply(Updating(s, c), i, a, t).rv == CKR_OK
    ensures forall e :: e in t ==> e.kind != CKA_VALUE
    decreases |t|
  {
    if t != [] {
      if t[0].kind == CKA_VALUE {
        ValueRefused(s, c, i, a, t[0]);
      }
      NoValueEntry(s, c, i + 1, Updating(s, c)(i, a, t[0]).attrs, t[1..]);
    }
  }

  // A template that is applied when unwrapping gives no value, so a check value in it has been
  // compared with that of the empty value.
  lemma CreatedEmpty(schemas: Schemas, x: Session, u: seq<Entry>)
    requires SoundSchemas(schemas) && FixedValues(schemas) && x.schemas == schemas && Lawful(x.token)
    requires IsCheckedType(AskedBy(u)) && CreateResult(x, OpUnwrap, u).rv == CKR_OK
    ensures CreateWrites(x, OpUnwrap, u, CKA_VALUE) == []
  {
    var q := AskedBy(u);
    CreateAnswers(x, OpUnwrap, u);
    var s := schemas(q.objClass.value, q.keyType.value).value;
    var c, o := Call(x, q.isPrivate, OpUnwrap), Rewrite(NewObj(q.onToken), Initialised(s, q.objClass.value, q.keyType.value, map[]));
    CreateInIs(s, x, OpUnwrap, q.objClass.value, q.keyType.value, q.onToken, q.isPrivate, Reordered(u));
    SavedInFull(s, c, o, Reordered(u));
    NoValueEntry(s, c, 0, o.attrs, Reordered(u));
    NoEntryWritten(Reordered(u), CKA_VALUE, []);
    ReorderedGiven(NoCheck, u, CKA_VALUE);
  }

  lemma CreatedCompared(schemas: Schemas, x: Session, u: seq<Entry>)
    requires SoundSchemas(schemas) && FixedValues(schemas) && x.schemas == schemas && Lawful(x.token)
    requires IsCheckedType(AskedBy(u)) && CreateResult(x, OpUnwrap, u).rv == CKR_OK
    ensures ChecksOut(x.kcv, AskedBy(u).keyType.value, CreateWrites(x, OpUnwrap, u, CKA_CHECK_VALUE), [])
  {
    var q, o := AskedBy(u), CreateResult(x, OpUnwrap, u).obj.value;
    CreateAnswers(x, OpUnwrap, u);
    CreatedEmpty(schemas, x, u);
    CreateHolds(schemas, x, OpUnwrap, u, CKA_CHECK_VALUE);
    CreateHolds(schemas, x, OpUnwrap, u, CKA_VALUE);
    CreateChecks(schemas, x, OpUnwrap, u);
    CreateKeepsGood(schemas, x, OpUnwrap, u);
    CreatedClass(schemas, x, OpUnwrap, q.objClass.value, q.keyType.value, q.onToken, q.isPrivate, Reordered(u));
    ComparedHeld(schemas, x, o, q.keyType.value, CreateWrites(x, OpUnwrap, u, CKA_CHECK_VALUE));
  }

  lemma ComparedHeld(schemas: Schemas, x: Session, o: Obj, keyType: nat, check: bytes)
    requires SoundSchemas(schemas) && FixedValues(schemas) && GoodObj(schemas, o)
    requires ClassOf(o.attrs) == CKO_SECRET_KEY && KeyTypeOf(o.attrs) == keyType && HasCheckValue(keyType)
    requires Checked(x.token.decrypt, x.kcv, o.attrs) && HoldsNow(x.token.decrypt, o.attrs, CKA_CHECK_VALUE, check)
    requires HoldsNow(x.token.decrypt, o.attrs, CKA_VALUE, [])
    ensures ChecksOut(x.kcv, keyType, check, [])
  {
    var s := schemas(ClassOf(o.attrs), keyType).value;
    FixedHere(schemas, o.attrs, s);
    assert SortedAt(s, o.attrs, CKA_KEY_TYPE);
    HeldStrings(x.token.decrypt, x.kcv, s, o.attrs, check, []);
  }

  // An unwrapped secret key checks out exactly when its template gives no check value, or that of the
  // empty value is that of the key.
  lemma UnwrapConsistent(schemas: Schemas, e: Event, keyType: nat, value: bytes)
    requires SoundSchemas(schemas) && FixedValues(schemas) && e.Make? && e.x.schemas == schemas && Lawful(e.x.token)
    requires e.origin.Unwrapped? && e.m == [(CKA_VALUE, value)] && ResultOf(e).rv == CKR_OK
    requires IsCheckedType(AskedBy(TemplateOf(e))) && AskedBy(TemplateOf(e)).keyType == Some(keyType)
    ensures var given := GivenFor(NoCheck, TemplateOf(e), CKA_CHECK_VALUE);
      var stored := if Lost(e.x, e.isPrivate, CKA_VALUE, value) then [] else value;
      (given == [] || given == e.x.kcv(keyType, []))
      && (Consistent(e.x.kcv, e) <==> given == [] || e.x.kcv(keyType, []) == e.x.kcv(keyType, stored))
  {
    MadeCreated(e);
    CreatedCompared(schemas, e.x, TemplateOf(e));
    UnwrapWrites(e.x, e.isPrivate, TemplateOf(e), keyType, value);
    ConsistentIs(e.x.kcv, e);
  }

  lemma ConsistentIs(kcv: Kcv, e: Event)
    requires e.Make? && ResultOf(e).rv == CKR_OK
    ensures Consistent(kcv, e) == WritesCheckOut(kcv, e.x, OpOf(e.origin), e.isPrivate, TemplateOf(e), e.m)
  {
  }

  lemma UnwrapWrites(x: Session, isPrivate: bool, u: seq<Entry>, keyType: nat, value: bytes)
    requires IsCheckedType(AskedBy(u)) && AskedBy(u).keyType == Some(keyType)
    ensures CreateWrites(x, OpUnwrap, u, CKA_CHECK_VALUE) == GivenFor(NoCheck, u, CKA_CHECK_VALUE)
    ensures WritesCheckOut(x.kcv, x, OpUnwrap, isPrivate, u, [(CKA_VALUE, value)])
      <==> ChecksOut(x.kcv, keyType, GivenFor(NoCheck, u, CKA_CHECK_VALUE),
                     if Lost(x, isPrivate, CKA_VALUE, value) then [] else value)
  {
    ValueWrites(x, OpUnwrap, isPrivate, u, value);
  }

  lemma MadeCreated(e: Event)
    requires e.Make? && ResultOf(e).rv == CKR_OK
    ensures CreateResult(e.x, OpOf(e.origin), TemplateOf(e)).rv == CKR_OK
  {
  }

  lemma ValueWrites(x: Session, op: Op, isPrivate: bool, u: seq<Entry>, value: bytes)
    ensures var m: Material := [(CKA_VALUE, value)];
      KeyWrites(x, op, isPrivate, u, m, CKA_VALUE) == (if Lost(x, isPrivate, CKA_VALUE, value) then [] else value)
      && KeyWrites(x, op, isPrivate, u, m, CKA_CHECK_VALUE) == CreateWrites(x, op, u, CKA_CHECK_VALUE)
  {
    OnlyPartWritten(x, isPrivate, (CKA_VALUE, value), CKA_VALUE, CreateWrites(x, op, u, CKA_VALUE));
    OnlyPartWritten(x, isPrivate, (CKA_VALUE, value), CKA_CHECK_VALUE, CreateWrites(x, op, u, CKA_CHECK_VALUE));
  }
}
