// Whole runs: any sequence of calls that create, generate, derive, unwrap, copy and set key objects.
// A conclusion written P(x) == true is P(x), kept in one piece for the prover.
module Runs {
  import opened Bytes
  import opened Attributes
  import opened UpdateRules
  import opened KeyPolicy
  import opened Objects
  import opened KeyCalls

  type Schemas = (nat, nat) -> Option<Schema>

  // ---------- what every object in the store satisfies ----------

  ghost predicate Good(schemas: Schemas, a: Attrs) {
    var s := schemas(ClassOf(a), KeyTypeOf(a));
    s.Some? && Shaped(s.value, a) && Honest(a)
  }

  ghost predicate GoodObj(schemas: Schemas, o: Obj) {
    Good(schemas, o.attrs) && Settled(o)
  }

  // Object o is good, and its flags are reached from those of a by steps the operation allows.
  ghost predicate Kept(schemas: Schemas, op: Op, a: Attrs, o: Obj) {
    GoodObj(schemas, o) && Allowed(op, a, o.attrs)
  }

  lemma KeptFurther(schemas: Schemas, op: Op, a: Attrs, b: Attrs, o: Obj)
    requires Allowed(op, a, b) && Kept(schemas, op, b, o)
    ensures Kept(schemas, op, a, o)
  {
  }

  // Attributes a are good, and s is their schema.
  ghost predicate GoodIn(schemas: Schemas, s: Schema, a: Attrs) {
    Good(schemas, a) && schemas(ClassOf(a), KeyTypeOf(a)) == Some(s)
  }

  lemma UpdateKeepsGood(schemas: Schemas, s: Schema, c: Call, i: nat, a: Attrs, e: Entry)
    requires SoundSchemas(schemas) && GoodIn(schemas, s, a)
    ensures GoodIn(schemas, s, Update(s, c, i, a, e).attrs) == true
  {
    UpdateShaped(s, c, i, a, e);
    UpdateAllowed(s, c, i, a, e);
    UpdateFrame(s, c, i, a, e, CKA_CLASS);
    UpdateFrame(s, c, i, a, e, CKA_KEY_TYPE);
  }

  lemma StepKeepsGood(schemas: Schemas, s: Schema, c: Call, i: nat, a: Attrs, e: Entry)
    requires SoundSchemas(schemas) && GoodIn(schemas, s, a)
    ensures GoodIn(schemas, s, Updating(s, c)(i, a, e).attrs) == true
  {
    UpdateKeepsGood(schemas, s, c, i, a, e);
  }

  // What every step keeps, a template keeps.
  lemma {:induction false} AppliesGood(schemas: Schemas, s: Schema, step: Step, i: nat, a: Attrs, t: seq<Entry>)
    requires forall j, b, e :: GoodIn(schemas, s, b) ==> GoodIn(schemas, s, step(j, b, e).attrs)
    requires GoodIn(schemas, s, a)
    ensures GoodIn(schemas, s, Apply(step, i, a, t).attrs) == true
    decreases |t|
  {
    if t != [] && step(i, a, t[0]).rv == CKR_OK {
      AppliesGood(schemas, s, step, i + 1, step(i, a, t[0]).attrs, t[1..]);
    }
  }

  lemma ApplyKeepsGood(schemas: Schemas, s: Schema, c: Call, i: nat, a: Attrs, t: seq<Entry>)
    requires SoundSchemas(schemas) && GoodIn(schemas, s, a)
    ensures GoodIn(schemas, s, Apply(Updating(s, c), i, a, t).attrs) == true
  {
    forall j, b, e | GoodIn(schemas, s, b) ensures GoodIn(schemas, s, Updating(s, c)(j, b, e).attrs) == true {
      StepKeepsGood(schemas, s, c, j, b, e);
    }
    AppliesGood(schemas, s, Updating(s, c), i, a, t);
  }

  // Saving a template keeps an object good, whatever the outcome, and moves its protection flags
  // only as the operation allows.
  lemma SaveKeepsGood(schemas: Schemas, s: Schema, c: Call, o: Obj, t: seq<Entry>)
    requires SoundSchemas(schemas) && GoodObj(schemas, o) && schemas(ClassOf(o.attrs), KeyTypeOf(o.attrs)) == Some(s)
    ensures Kept(schemas, c.op, o.attrs, SaveTemplate(s, c, o, t).obj) == true
  {
    ApplyKeepsGood(schemas, s, c, 0, o.attrs, t);
    ApplyAllowed(s, c, 0, o.attrs, t);
    SavedAttrs(s, c, o, t);
  }

  // The attributes after saving are the old ones or the template applied.
  lemma SavedAttrs(s: Schema, c: Call, o: Obj, t: seq<Entry>)
    requires Settled(o)
    ensures var r := SaveTemplate(s, c, o, t).obj;
      Settled(r) && (r.attrs == o.attrs || r.attrs == Apply(Updating(s, c), 0, o.attrs, t).attrs)
  {
  }

  // The init chain changes nothing on a good object, so only the template does.
  lemma SaveObjectSaves(schemas: Schemas, s: Schema, x: Session, isPrivate: bool, op: Op, o: Obj, t: seq<Entry>)
    requires SoundSchemas(schemas) && x.schemas == schemas && GoodObj(schemas, o)
    requires schemas(ClassOf(o.attrs), KeyTypeOf(o.attrs)) == Some(s)
    ensures SaveObject(x, isPrivate, op, o, t) == SaveTemplate(s, Call(x, isPrivate, op), o, t)
  {
    InitialisedAgain(s, o.attrs);
    assert Rewrite(o, o.attrs) == o;
  }

  lemma SaveObjectKeepsGood(schemas: Schemas, x: Session, isPrivate: bool, op: Op, o: Obj, t: seq<Entry>)
    requires SoundSchemas(schemas) && x.schemas == schemas && GoodObj(schemas, o)
    ensures Kept(schemas, op, o.attrs, SaveObject(x, isPrivate, op, o, t).obj) == true
  {
    var s := schemas(ClassOf(o.attrs), KeyTypeOf(o.attrs)).value;
    SaveObjectSaves(schemas, s, x, isPrivate, op, o, t);
    SaveKeepsGood(schemas, s, Call(x, isPrivate, op), o, t);
  }

  lemma SetSavesOrNot(x: Session, o: Obj, t: seq<Entry>)
    ensures SetResult(x, o, t).obj == o
      || SetResult(x, o, t).obj == SaveObject(x, GetBool(o.attrs, CKA_PRIVATE, true), OpSet, o, t).obj
  {
  }

  lemma KeptAlone(schemas: Schemas, op: Op, o: Obj)
    requires GoodObj(schemas, o)
    ensures Kept(schemas, op, o.attrs, o) == true
  {
  }

  lemma SetKeepsGood(schemas: Schemas, x: Session, o: Obj, t: seq<Entry>)
    requires SoundSchemas(schemas) && x.schemas == schemas && GoodObj(schemas, o)
    ensures Kept(schemas, OpSet, o.attrs, SetResult(x, o, t).obj) == true
  {
    SetSavesOrNot(x, o, t);
    KeptAlone(schemas, OpSet, o);
    SaveObjectKeepsGood(schemas, x, GetBool(o.attrs, CKA_PRIVATE, true), OpSet, o, t);
  }

  // ---------- copies ----------

  lemma CopiedKeepsGood(schemas: Schemas, x: Session, upgrade: bool, a: Attrs)
    requires Good(schemas, a) && Copies(x, upgrade, a)
    ensures Good(schemas, CopiedAttrs(x, upgrade, a)) == true && Allowed(OpCopy, a, CopiedAttrs(x, upgrade, a)) == true
  {
    var b := CopiedAttrs(x, upgrade, a);
    var s := schemas(ClassOf(a), KeyTypeOf(a)).value;
    assert ClassOf(b) == ClassOf(a) && KeyTypeOf(b) == KeyTypeOf(a);
    forall k ensures SortedAt(s, b, k) {
      assert SortedAt(s, a, k);
    }
  }

  lemma CopiedSaved(schemas: Schemas, x: Session, isPrivate: bool, upgrade: bool, onToken: bool, a: Attrs, t: seq<Entry>)
    requires SoundSchemas(schemas) && x.schemas == schemas && Good(schemas, a) && Copies(x, upgrade, a)
    ensures var n := Rewrite(NewObj(onToken), CopiedAttrs(x, upgrade, a));
      Kept(schemas, OpCopy, a, SaveObject(x, isPrivate, OpCopy, n, t).obj) == true
  {
    var b := CopiedAttrs(x, upgrade, a);
    CopiedKeepsGood(schemas, x, upgrade, a);
    var n := Rewrite(NewObj(onToken), b);
    SaveObjectKeepsGood(schemas, x, isPrivate, OpCopy, n, t);
    KeptFurther(schemas, OpCopy, a, b, SaveObject(x, isPrivate, OpCopy, n, t).obj);
  }

  lemma CopyIntoSaves(x: Session, o: Obj, onToken: bool, isPrivate: bool, upgrade: bool, t: seq<Entry>)
    ensures var r := CopyInto(x, o, onToken, isPrivate, upgrade, t).obj;
      r.Some? ==>
        Copies(x, upgrade, o.attrs)
        && r.value == SaveObject(x, isPrivate, OpCopy, Rewrite(NewObj(onToken), CopiedAttrs(x, upgrade, o.attrs)), t).obj
  {
  }

  lemma CopyIntoKeepsGood(schemas: Schemas, x: Session, o: Obj, onToken: bool, isPrivate: bool, upgrade: bool,
                          t: seq<Entry>)
    requires SoundSchemas(schemas) && x.schemas == schemas && GoodObj(schemas, o)
    ensures var r := CopyInto(x, o, onToken, isPrivate, upgrade, t).obj;
      r.Some? ==> Kept(schemas, OpCopy, o.attrs, r.value) == true
  {
    CopyIntoSaves(x, o, onToken, isPrivate, upgrade, t);
    if CopyInto(x, o, onToken, isPrivate, upgrade, t).obj.Some? {
      CopiedSaved(schemas, x, isPrivate, upgrade, onToken, o.attrs, t);
    }
  }

  lemma CopyKeepsGood(schemas: Schemas, x: Session, o: Obj, t: seq<Entry>)
    requires SoundSchemas(schemas) && x.schemas == schemas && GoodObj(schemas, o)
    ensures var r := CopyResult(x, o, t).obj;
      r.Some? ==> Kept(schemas, OpCopy, o.attrs, r.value) == true
  {
    var wasPrivate := GetBool(o.attrs, CKA_PRIVATE, true);
    var onToken := LastFlag(t, CKA_TOKEN, GetBool(o.attrs, CKA_TOKEN, false));
    var isPrivate := LastFlag(t, CKA_PRIVATE, wasPrivate);
    CopyIntoKeepsGood(schemas, x, o, onToken, isPrivate, !wasPrivate && isPrivate, t);
  }

  // ---------- new objects ----------

  lemma PutGood(schemas: Schemas, s: Schema, a: Attrs, k: Kind, v: Value)
    requires Good(schemas, a) && schemas(ClassOf(a), KeyTypeOf(a)) == Some(s)
    requires k in s && Fits(s[k].rule, v) && k != CKA_CLASS && k != CKA_KEY_TYPE && Honest(Put(a, k, v))
    ensures var b := Put(a, k, v);
      Good(schemas, b) == true && schemas(ClassOf(b), KeyTypeOf(b)) == Some(s)
  {
    forall x ensures SortedAt(s, Put(a, k, v), x) {
      assert SortedAt(s, a, x);
    }
  }

  lemma BroughtInGood(schemas: Schemas, a: Attrs)
    requires SoundSchemas(schemas) && Good(schemas, a)
    ensures Good(schemas, BroughtIn(a)) == true
  {
    var s := schemas(ClassOf(a), KeyTypeOf(a)).value;
    PutGood(schemas, s, a, CKA_LOCAL, Flag(false));
    var b := Put(a, CKA_LOCAL, Flag(false));
    PutGood(schemas, s, b, CKA_ALWAYS_SENSITIVE, Flag(false));
    PutGood(schemas, s, Put(b, CKA_ALWAYS_SENSITIVE, Flag(false)), CKA_NEVER_EXTRACTABLE, Flag(false));
  }

  lemma FreshGood(schemas: Schemas, objClass: nat, keyType: nat, onToken: bool)
    requires SoundSchemas(schemas) && schemas(objClass, keyType).Some?
    ensures var a := Initialised(schemas(objClass, keyType).value, objClass, keyType, map[]);
      GoodObj(schemas, Rewrite(NewObj(onToken), a)) == true && ClassOf(a) == objClass && KeyTypeOf(a) == keyType
  {
    var s := schemas(objClass, keyType).value;
    FreshShaped(s, objClass, keyType);
    var a := Initialised(s, objClass, keyType, map[]);
    assert SortedAt(s, a, CKA_SENSITIVE) && SortedAt(s, a, CKA_EXTRACTABLE);
    assert SortedAt(s, a, CKA_ALWAYS_SENSITIVE) && SortedAt(s, a, CKA_NEVER_EXTRACTABLE);
  }

  lemma FreshSaved(schemas: Schemas, s: Schema, c: Call, objClass: nat, keyType: nat, onToken: bool, t: seq<Entry>)
    requires SoundSchemas(schemas) && schemas(objClass, keyType) == Some(s)
    ensures var o := Rewrite(NewObj(onToken), Initialised(s, objClass, keyType, map[]));
      GoodObj(schemas, SaveTemplate(s, c, o, t).obj) == true
  {
    FreshGood(schemas, objClass, keyType, onToken);
    SaveKeepsGood(schemas, s, c, Rewrite(NewObj(onToken), Initialised(s, objClass, keyType, map[])), t);
  }

  lemma CreateInIs(s: Schema, x: Session, op: Op, objClass: nat, keyType: nat, onToken: bool, isPrivate: bool, t: seq<Entry>)
    requires x.schemas(objClass, keyType) == Some(s)
    ensures var r := CreateIn(x, op, objClass, keyType, onToken, isPrivate, t);
      var saved := SaveTemplate(s, Call(x, isPrivate, op), Rewrite(NewObj(onToken), Initialised(s, objClass, keyType, map[])), t);
      r.rv == saved.rv
      && r.obj == Some(if r.rv == CKR_OK && op.OpCreate? then Rewrite(saved.obj, BroughtIn(saved.obj.attrs)) else saved.obj)
  {
  }

  lemma CreateInKeepsGood(schemas: Schemas, x: Session, op: Op, objClass: nat, keyType: nat, onToken: bool,
                          isPrivate: bool, t: seq<Entry>)
    requires SoundSchemas(schemas) && x.schemas == schemas
    ensures var r := CreateIn(x, op, objClass, keyType, onToken, isPrivate, t).obj;
      r.Some? ==> GoodObj(schemas, r.value) == true
  {
    if schemas(objClass, keyType).Some? {
      var s, c := schemas(objClass, keyType).value, Call(x, isPrivate, op);
      CreateInIs(s, x, op, objClass, keyType, onToken, isPrivate, t);
      FreshSaved(schemas, s, c, objClass, keyType, onToken, t);
      var o := SaveTemplate(s, c, Rewrite(NewObj(onToken), Initialised(s, objClass, keyType, map[])), t).obj;
      BroughtInGood(schemas, o.attrs);
      RewriteGood(schemas, o, BroughtIn(o.attrs));
    }
  }

  lemma RewriteGood(schemas: Schemas, o: Obj, a: Attrs)
    requires GoodObj(schemas, o) && Good(schemas, a)
    ensures GoodObj(schemas, Rewrite(o, a)) == true
  {
  }

  lemma CreateKeepsGood(schemas: Schemas, x: Session, op: Op, t: seq<Entry>)
    requires SoundSchemas(schemas) && x.schemas == schemas
    ensures var r := CreateResult(x, op, t).obj;
      r.Some? ==> GoodObj(schemas, r.value) == true
  {
    var objClass, keyType := LastNumber(t, CKA_CLASS, None), LastNumber(t, CKA_KEY_TYPE, None);
    if objClass.Some? {
      CreateInKeepsGood(schemas, x, op, objClass.value, if keyType.Some? then keyType.value else CKK_RSA,
                        LastFlag(t, CKA_TOKEN, false), LastFlag(t, CKA_PRIVATE, true), Reordered(t));
    }
  }

  // The schema stores strings under every attribute the material goes to.
  ghost predicate MaterialFits(s: Schema, m: Material) {
    IsMaterial(m) && forall p :: p in m ==> p.0 in s && Fits(s[p.0].rule, Str([]))
  }

  lemma {:induction false} FilledGood(schemas: Schemas, x: Session, isPrivate: bool, a: Attrs, m: Material)
    requires Good(schemas, a) && MaterialFits(schemas(ClassOf(a), KeyTypeOf(a)).value, m)
    ensures Good(schemas, Filled(x, isPrivate, a, m)) == true
    decreases |m|
  {
    if m != [] {
      assert m[0] in m;
      var b := Put(a, m[0].0, Str(SealedPart(x, isPrivate, m[0])));
      var s := schemas(ClassOf(a), KeyTypeOf(a)).value;
      forall k ensures SortedAt(s, b, k) {
        assert SortedAt(s, a, k);
      }
      FilledGood(schemas, x, isPrivate, b, m[1..]);
    }
  }

  lemma {:induction false} FilledFrame(x: Session, isPrivate: bool, a: Attrs, m: Material, k: Kind)
    requires forall p :: p in m ==> p.0 != k
    ensures SameAt(a, Filled(x, isPrivate, a, m), k)
    decreases |m|
  {
    if m != [] {
      assert m[0] in m;
      FilledFrame(x, isPrivate, Put(a, m[0].0, Str(SealedPart(x, isPrivate, m[0]))), m[1..], k);
    }
  }

  lemma HistoryGood(schemas: Schemas, origin: Origin, a: Attrs)
    requires SoundSchemas(schemas) && Good(schemas, a)
    ensures Good(schemas, WithHistory(origin, a)) == true
  {
    var s := schemas(ClassOf(a), KeyTypeOf(a)).value;
    PutGood(schemas, s, a, CKA_LOCAL, Flag(origin.Generated?));
    var b := Put(a, CKA_LOCAL, Flag(origin.Generated?));
    if origin.Generated? {
      PutGood(schemas, s, b, CKA_KEY_GEN_MECHANISM, Number(origin.mechanism));
      b := Put(b, CKA_KEY_GEN_MECHANISM, Number(origin.mechanism));
    }
    FlagsGood(schemas, s, b, WasAlwaysSensitive(origin, a), WasNeverExtractable(origin, a));
  }

  lemma FlagsGood(schemas: Schemas, s: Schema, a: Attrs, always: bool, never: bool)
    requires SoundSchemas(schemas) && Good(schemas, a) && schemas(ClassOf(a), KeyTypeOf(a)) == Some(s)
    requires (always ==> IsSensitive(a)) && (never ==> !IsExtractable(a))
    ensures Good(schemas, Put(Put(a, CKA_ALWAYS_SENSITIVE, Flag(always)), CKA_NEVER_EXTRACTABLE, Flag(never))) == true
  {
    PutGood(schemas, s, a, CKA_ALWAYS_SENSITIVE, Flag(always));
    PutGood(schemas, s, Put(a, CKA_ALWAYS_SENSITIVE, Flag(always)), CKA_NEVER_EXTRACTABLE, Flag(never));
  }

  // What the flags of a key made by the token say about where it comes from.
  predicate Inherits(origin: Origin, a: Attrs) {
    origin.Derived? && HasPolicy(origin.base) ==>
      (AlwaysSensitive(a) ==> AlwaysSensitive(origin.base)) && (NeverExtractable(a) ==> NeverExtractable(origin.base))
  }

  lemma FinishedGood(schemas: Schemas, x: Session, origin: Origin, isPrivate: bool, a: Attrs, m: Material)
    requires SoundSchemas(schemas) && Good(schemas, a) && MaterialFits(schemas(ClassOf(a), KeyTypeOf(a)).value, m)
    ensures var b := Filled(x, isPrivate, WithHistory(origin, a), m);
      Good(schemas, b) == true && Inherits(origin, b) == true
  {
    var h := WithHistory(origin, a);
    HistoryGood(schemas, origin, a);
    assert ClassOf(h) == ClassOf(a) && KeyTypeOf(h) == KeyTypeOf(a);
    FilledGood(schemas, x, isPrivate, h, m);
    FinishedInherits(x, origin, isPrivate, a, m);
  }

  lemma FinishedInherits(x: Session, origin: Origin, isPrivate: bool, a: Attrs, m: Material)
    requires IsMaterial(m)
    ensures Inherits(origin, Filled(x, isPrivate, WithHistory(origin, a), m)) == true
  {
    var h := WithHistory(origin, a);
    FilledFrame(x, isPrivate, h, m, CKA_ALWAYS_SENSITIVE);
    FilledFrame(x, isPrivate, h, m, CKA_NEVER_EXTRACTABLE);
  }

  lemma FinishKeepsGood(schemas: Schemas, x: Session, origin: Origin, isPrivate: bool, r: Made, m: Material, ok: bool)
    requires SoundSchemas(schemas) && (r.obj.Some? ==> GoodObj(schemas, r.obj.value))
    requires r.rv == CKR_OK && r.obj.Some? ==>
      MaterialFits(schemas(ClassOf(r.obj.value.attrs), KeyTypeOf(r.obj.value.attrs)).value, m)
    ensures var k := FinishKey(x, origin, isPrivate, r, m, ok);
      k.obj.Some? ==>
        GoodObj(schemas, k.obj.value) == true && (k.rv == CKR_OK ==> Inherits(origin, k.obj.value.attrs)) == true
  {
    if r.rv == CKR_OK && r.obj.Some? {
      var a := r.obj.value.attrs;
      FinishedGood(schemas, x, origin, isPrivate, a, m);
      RewriteGood(schemas, r.obj.value, Filled(x, isPrivate, WithHistory(origin, a), m));
    }
  }

  lemma KeyKeepsGood(schemas: Schemas, x: Session, origin: Origin, objClass: nat, keyType: nat, onToken: bool,
                     isPrivate: bool, t: seq<Entry>, m: Material, ok: bool)
    requires SoundSchemas(schemas) && x.schemas == schemas
    requires Makeable(schemas, x, origin, objClass, keyType, onToken, isPrivate, t, m)
    ensures var r := KeyResult(x, origin, objClass, keyType, onToken, isPrivate, t, m, ok);
      r.obj.Some? ==>
        GoodObj(schemas, r.obj.value) == true && (r.rv == CKR_OK ==> Inherits(origin, r.obj.value.attrs)) == true
  {
    var u := KeyTemplate(objClass, keyType, onToken, isPrivate, t);
    CreateKeepsGood(schemas, x, OpOf(origin), u);
    FinishKeepsGood(schemas, x, origin, isPrivate, CreateResult(x, OpOf(origin), u), m, ok);
  }

  // The history flags of a key made by the token, exactly: a generated key is always sensitive if
  // and only if it is sensitive, a derived one if its base key is too, an unwrapped one never is.
  lemma HistoryFlagsExactly(x: Session, origin: Origin, objClass: nat, keyType: nat, onToken: bool, isPrivate: bool,
                            t: seq<Entry>, m: Material, ok: bool)
    requires IsMaterial(m)
    ensures var r := KeyResult(x, origin, objClass, keyType, onToken, isPrivate, t, m, ok);
      r.rv == CKR_OK && r.obj.Some? ==>
        var a := r.obj.value.attrs;
        (AlwaysSensitive(a) <==> !origin.Unwrapped? && IsSensitive(a) && (origin.Derived? ==> AlwaysSensitive(origin.base)))
        && (NeverExtractable(a) <==>
              !origin.Unwrapped? && !GetBool(a, CKA_EXTRACTABLE, false)
              && (origin.Derived? ==> GetBool(origin.base, CKA_NEVER_EXTRACTABLE, true)))
  {
    var r := CreateResult(x, OpOf(origin), KeyTemplate(objClass, keyType, onToken, isPrivate, t));
    FinishFlags(x, origin, isPrivate, r, m, ok);
  }

  lemma FinishFlags(x: Session, origin: Origin, isPrivate: bool, r: Made, m: Material, ok: bool)
    requires IsMaterial(m)
    ensures var k := FinishKey(x, origin, isPrivate, r, m, ok);
      k.rv == CKR_OK && k.obj.Some? ==>
        AlwaysSensitive(k.obj.value.attrs) == WasAlwaysSensitive(origin, k.obj.value.attrs)
        && NeverExtractable(k.obj.value.attrs) == WasNeverExtractable(origin, k.obj.value.attrs)
  {
    if r.rv == CKR_OK && r.obj.Some? {
      var h := WithHistory(origin, r.obj.value.attrs);
      FilledFrame(x, isPrivate, h, m, CKA_SENSITIVE);
      FilledFrame(x, isPrivate, h, m, CKA_EXTRACTABLE);
      FilledFrame(x, isPrivate, h, m, CKA_ALWAYS_SENSITIVE);
      FilledFrame(x, isPrivate, h, m, CKA_NEVER_EXTRACTABLE);
    }
  }

  // The material goes to attributes the created object has.
  ghost predicate Makeable(schemas: Schemas, x: Session, origin: Origin, objClass: nat, keyType: nat, onToken: bool,
                           isPrivate: bool, t: seq<Entry>, m: Material)
    requires SoundSchemas(schemas) && x.schemas == schemas
  {
    var r := CreateResult(x, OpOf(origin), KeyTemplate(objClass, keyType, onToken, isPrivate, t));
    CreateKeepsGood(schemas, x, OpOf(origin), KeyTemplate(objClass, keyType, onToken, isPrivate, t));
    r.rv == CKR_OK && r.obj.Some? ==>
      MaterialFits(schemas(ClassOf(r.obj.value.attrs), KeyTypeOf(r.obj.value.attrs)).value, m)
  }

  // ---------- runs ----------

  // An object together with the states it and the objects it comes from have been committed in; the
  // last is its present one. An object left behind by a call that failed, or copied from one, is not
  // complete.
  datatype Tracked = Tracked(obj: Obj, past: seq<Attrs>, complete: bool)

  type World = map<nat, Tracked>

  // A call. `id` names the object it makes, which must be new.
  datatype Event =
    | Create(x: Session, id: nat, t: seq<Entry>)
    | Make(x: Session, id: nat, base: Option<nat>, origin: Origin, objClass: nat, keyType: nat, onToken: bool,
           isPrivate: bool, t: seq<Entry>, m: Material, ok: bool)
    | Copy(x: Session, id: nat, from: nat, t: seq<Entry>)
    | Set(x: Session, target: nat, t: seq<Entry>)
    | Destroy(target: nat)

  // The entries that the calls making keys set themselves are not passed on.
  ghost predicate Unreserved(t: seq<Entry>) {
    forall e :: e in t ==>
      e.kind != CKA_CLASS && e.kind != CKA_TOKEN && e.kind != CKA_PRIVATE && e.kind != CKA_KEY_TYPE
  }

  // A derivation uses the base key as it is at that moment.
  ghost predicate Valid(schemas: Schemas, w: World, e: Event)
    requires SoundSchemas(schemas)
  {
    match e
    case Create(x, id, _) => x.schemas == schemas && id !in w
    case Make(x, id, base, origin, objClass, keyType, onToken, isPrivate, t, m, _) =>
      x.schemas == schemas && id !in w && Unreserved(t)
      && Makeable(schemas, x, origin, objClass, keyType, onToken, isPrivate, t, m)
      && (origin.Derived? <==> base.Some?)
      && (base.Some? ==> base.value in w && origin.base == w[base.value].obj.attrs)
    case Copy(x, id, from, _) => x.schemas == schemas && id !in w && from in w
    case Set(x, target, _) => x.schemas == schemas && target in w
    case Destroy(target) => target in w
  }

  function Born(w: World, id: nat, obj: Option<Obj>, past: seq<Attrs>, complete: bool): World {
    match obj
    case None => w
    case Some(o) => w[id := Tracked(o, past + [o.attrs], complete)]
  }

  // A key made by the token is committed when it is created, and again with its history and material;
  // a derived key carries on the history of its base key.
  ghost function MakePast(w: World, e: Event): seq<Attrs>
    requires e.Make?
  {
    var created := Created(e);
    if created.rv != CKR_OK || created.obj == None then []
    else (if e.base.Some? && e.base.value in w then w[e.base.value].past else []) + [created.obj.value.attrs]
  }

  // A copy is committed when it has all attributes, and again with the template.
  ghost function CopyPast(x: Session, k: Tracked, t: seq<Entry>): seq<Attrs> {
    var wasPrivate := GetBool(k.obj.attrs, CKA_PRIVATE, true);
    var upgrade := !wasPrivate && LastFlag(t, CKA_PRIVATE, wasPrivate);
    k.past + if Copies(x, upgrade, k.obj.attrs) then [CopiedAttrs(x, upgrade, k.obj.attrs)] else []
  }

  ghost function Next(w: World, e: Event): World {
    match e
    case Create(x, id, t) => Born(w, id, CreateResult(x, OpCreate, t).obj, [], CreateResult(x, OpCreate, t).rv == CKR_OK)
    case Make(x, id, base, origin, objClass, keyType, onToken, isPrivate, t, m, ok) =>
      var r := KeyResult(x, origin, objClass, keyType, onToken, isPrivate, t, m, ok);
      Born(w, id, r.obj, MakePast(w, e), r.rv == CKR_OK)
    case Copy(x, id, from, t) =>
      if from in w then Born(w, id, CopyResult(x, w[from].obj, t).obj, CopyPast(x, w[from], t), w[from].complete) else w
    case Set(x, target, t) =>
      if target in w
      then Born(w, target, Some(SetResult(x, w[target].obj, t).obj), w[target].past, w[target].complete) else w
    case Destroy(target) => w - {target}
  }

  type Transition = (World, Event, World) -> bool

  // The calls of the library, as a relation between the worlds before and after.
  ghost function Calls(schemas: Schemas): Transition
    requires SoundSchemas(schemas)
  {
    (w: World, e: Event, v: World) => Valid(schemas, w, e) && v == Next(w, e)
  }

  // The worlds a run goes through, from the empty store.
  ghost predicate Run(step: Transition, ws: seq<World>, es: seq<Event>) {
    |ws| == |es| + 1 && ws[0] == map[]
    && forall i :: 0 <= i < |es| ==> step(ws[i], es[i], ws[i + 1])
  }

  lemma {:induction false} RunKeeps(step: Transition, inv: World -> bool, ws: seq<World>, es: seq<Event>, i: nat)
    requires Run(step, ws, es) && i < |ws| && inv(map[])
    requires forall w, e, v :: inv(w) && step(w, e, v) ==> inv(v)
    ensures inv(ws[i])
  {
    if i > 0 {
      RunKeeps(step, inv, ws, es, i - 1);
      assert step(ws[i - 1], es[i - 1], ws[i]);
    }
  }

  // ---------- history ----------

  ghost predicate TellsHistory(schemas: Schemas, k: Tracked) {
    GoodObj(schemas, k.obj)
    && (AlwaysSensitive(k.obj.attrs) ==> forall a :: a in k.past ==> IsSensitive(a))
    && (NeverExtractable(k.obj.attrs) ==> forall a :: a in k.past ==> !IsExtractable(a))
  }

  ghost predicate AllTell(schemas: Schemas, w: World) {
    forall id :: id in w ==> TellsHistory(schemas, w[id])
  }

  // Extending a history that the flags of k told, when they may only have been lowered since, and
  // the states in between were as protected as either end.
  lemma HistoryGoesOn(schemas: Schemas, k: Tracked, between: seq<Attrs>, o: Obj, complete: bool)
    requires TellsHistory(schemas, k) && GoodObj(schemas, o)
    requires AlwaysSensitive(o.attrs) ==> AlwaysSensitive(k.obj.attrs)
    requires NeverExtractable(o.attrs) ==> NeverExtractable(k.obj.attrs)
    requires forall a :: a in between ==> AsProtected(a, o.attrs) || AsProtected(a, k.obj.attrs)
    ensures TellsHistory(schemas, Tracked(o, k.past + between + [o.attrs], complete)) == true
  {
  }

  predicate AsProtected(a: Attrs, b: Attrs) {
    IsSensitive(a) == IsSensitive(b) && IsExtractable(a) == IsExtractable(b)
  }

  lemma HistoryStarts(schemas: Schemas, first: seq<Attrs>, o: Obj, complete: bool)
    requires GoodObj(schemas, o) && forall a :: a in first ==> AsProtected(a, o.attrs)
    ensures TellsHistory(schemas, Tracked(o, first + [o.attrs], complete)) == true
  {
  }

  lemma BornTells(schemas: Schemas, w: World, id: nat, o: Obj, past: seq<Attrs>, complete: bool)
    requires AllTell(schemas, w) && TellsHistory(schemas, Tracked(o, past + [o.attrs], complete))
    ensures AllTell(schemas, Born(w, id, Some(o), past, complete)) == true
  {
  }

  // History and material do not change how protected a key is.
  lemma CreatedAsProtected(x: Session, origin: Origin, isPrivate: bool, r: Made, m: Material, ok: bool)
    requires IsMaterial(m) && r.rv == CKR_OK && r.obj.Some?
    ensures var k := FinishKey(x, origin, isPrivate, r, m, ok);
      k.obj.Some? ==> k.rv == CKR_OK && AsProtected(r.obj.value.attrs, k.obj.value.attrs)
  {
    var h := WithHistory(origin, r.obj.value.attrs);
    FilledFrame(x, isPrivate, h, m, CKA_SENSITIVE);
    FilledFrame(x, isPrivate, h, m, CKA_EXTRACTABLE);
  }

  function Created(e: Event): Made
    requires e.Make?
  {
    CreateResult(e.x, OpOf(e.origin), KeyTemplate(e.objClass, e.keyType, e.onToken, e.isPrivate, e.t))
  }

  lemma MadeGood(schemas: Schemas, w: World, e: Event)
    requires SoundSchemas(schemas) && Valid(schemas, w, e) && e.Make?
    ensures var c := Created(e);
      var r := FinishKey(e.x, e.origin, e.isPrivate, c, e.m, e.ok);
      (r.obj.Some? ==>
         GoodObj(schemas, r.obj.value) == true && (r.rv == CKR_OK ==> Inherits(e.origin, r.obj.value.attrs)) == true)
      && (c.rv == CKR_OK && c.obj.Some? ==> IsMaterial(e.m) == true)
  {
    KeyKeepsGood(schemas, e.x, e.origin, e.objClass, e.keyType, e.onToken, e.isPrivate, e.t, e.m, e.ok);
  }

  lemma MakeTells(schemas: Schemas, w: World, e: Event)
    requires SoundSchemas(schemas) && AllTell(schemas, w) && Valid(schemas, w, e) && e.Make?
    ensures AllTell(schemas, Next(w, e)) == true
  {
    MadeGood(schemas, w, e);
    var c := Created(e);
    var r := FinishKey(e.x, e.origin, e.isPrivate, c, e.m, e.ok);
    if r.obj.Some? {
      if c.rv != CKR_OK || c.obj == None {
        HistoryStarts(schemas, [], r.obj.value, r.rv == CKR_OK);
      } else {
        var base := if e.base.Some? then Some(w[e.base.value]) else None;
        MakeTold(schemas, base, e.x, e.origin, e.isPrivate, c, e.m, e.ok);
      }
      BornTells(schemas, w, e.id, r.obj.value, MakePast(w, e), r.rv == CKR_OK);
    }
  }

  // A key made from a base key, or from none, after it was created as c.
  lemma MakeTold(schemas: Schemas, base: Option<Tracked>, x: Session, origin: Origin, isPrivate: bool, c: Made,
                 m: Material, ok: bool)
    requires IsMaterial(m) && c.rv == CKR_OK && c.obj.Some?
    requires base.Some? ==> TellsHistory(schemas, base.value) && origin == Derived(base.value.obj.attrs)
    requires var r := FinishKey(x, origin, isPrivate, c, m, ok);
      r.obj.Some? ==> GoodObj(schemas, r.obj.value) && (r.rv == CKR_OK ==> Inherits(origin, r.obj.value.attrs))
    ensures var r := FinishKey(x, origin, isPrivate, c, m, ok);
      r.obj.Some? ==>
        r.rv == CKR_OK
        && TellsHistory(schemas, Tracked(r.obj.value,
             (if base.Some? then base.value.past else []) + [c.obj.value.attrs] + [r.obj.value.attrs], true)) == true
  {
    var r := FinishKey(x, origin, isPrivate, c, m, ok);
    CreatedAsProtected(x, origin, isPrivate, c, m, ok);
    if r.obj.Some? {
      if base.Some? {
        HistoryGoesOn(schemas, base.value, [c.obj.value.attrs], r.obj.value, true);
      } else {
        HistoryStarts(schemas, [c.obj.value.attrs], r.obj.value, true);
        assert [] + [c.obj.value.attrs] == [c.obj.value.attrs];
      }
    }
  }

  lemma CopiedAsProtected(x: Session, k: Tracked, t: seq<Entry>)
    ensures forall i :: |k.past| <= i < |CopyPast(x, k, t)| ==> AsProtected(CopyPast(x, k, t)[i], k.obj.attrs)
    ensures k.past <= CopyPast(x, k, t)
  {
  }

  lemma CopyTold(schemas: Schemas, k: Tracked, x: Session, t: seq<Entry>)
    requires SoundSchemas(schemas) && x.schemas == schemas && TellsHistory(schemas, k)
    ensures var r := CopyResult(x, k.obj, t).obj;
      r.Some? ==> TellsHistory(schemas, Tracked(r.value, CopyPast(x, k, t) + [r.value.attrs], k.complete)) == true
  {
    CopyKeepsGood(schemas, x, k.obj, t);
    CopiedAsProtected(x, k, t);
    var r := CopyResult(x, k.obj, t).obj;
    if r.Some? {
      var past := CopyPast(x, k, t);
      HistoryGoesOn(schemas, k, past[|k.past|..], r.value, k.complete);
      assert k.past + past[|k.past|..] == past;
    }
  }

  lemma CopyTells(schemas: Schemas, w: World, e: Event)
    requires SoundSchemas(schemas) && AllTell(schemas, w) && Valid(schemas, w, e) && e.Copy?
    ensures AllTell(schemas, Next(w, e)) == true
  {
    var k := w[e.from];
    CopyTold(schemas, k, e.x, e.t);
    var r := CopyResult(e.x, k.obj, e.t).obj;
    if r.Some? {
      BornTells(schemas, w, e.id, r.value, CopyPast(e.x, k, e.t), k.complete);
    }
  }

  lemma SetTold(schemas: Schemas, k: Tracked, x: Session, t: seq<Entry>)
    requires SoundSchemas(schemas) && x.schemas == schemas && TellsHistory(schemas, k)
    ensures var o := SetResult(x, k.obj, t).obj;
      TellsHistory(schemas, Tracked(o, k.past + [o.attrs], k.complete)) == true
  {
    SetKeepsGood(schemas, x, k.obj, t);
    HistoryGoesOn(schemas, k, [], SetResult(x, k.obj, t).obj, k.complete);
    assert k.past + [] == k.past;
  }

  lemma SetTells(schemas: Schemas, w: World, e: Event)
    requires SoundSchemas(schemas) && AllTell(schemas, w) && Valid(schemas, w, e) && e.Set?
    ensures AllTell(schemas, Next(w, e)) == true
  {
    var k := w[e.target];
    SetTold(schemas, k, e.x, e.t);
    BornTells(schemas, w, e.target, SetResult(e.x, k.obj, e.t).obj, k.past, k.complete);
  }

  lemma CreateTells(schemas: Schemas, w: World, e: Event)
    requires SoundSchemas(schemas) && AllTell(schemas, w) && Valid(schemas, w, e) && e.Create?
    ensures AllTell(schemas, Next(w, e)) == true
  {
    CreateKeepsGood(schemas, e.x, OpCreate, e.t);
    var r := CreateResult(e.x, OpCreate, e.t);
    if r.obj.Some? {
      HistoryStarts(schemas, [], r.obj.value, r.rv == CKR_OK);
      BornTells(schemas, w, e.id, r.obj.value, [], r.rv == CKR_OK);
    }
  }

  lemma NextTells(schemas: Schemas, w: World, e: Event)
    requires SoundSchemas(schemas) && AllTell(schemas, w) && Valid(schemas, w, e)
    ensures AllTell(schemas, Next(w, e)) == true
  {
    match e
    case Create(_, _, _) => CreateTells(schemas, w, e);
    case Make(_, _, _, _, _, _, _, _, _, _, _) => MakeTells(schemas, w, e);
    case Copy(_, _, _, _) => CopyTells(schemas, w, e);
    case Set(_, _, _) => SetTells(schemas, w, e);
    case Destroy(_) =>
  }

  // In every world of every run, an object that says it was always sensitive was sensitive in every
  // state that it, its copy ancestors or its base keys were committed in, and one that says it was never
  // extractable was extractable in none of them.
  lemma HistoryInvariant(schemas: Schemas, ws: seq<World>, es: seq<Event>, i: nat)
    requires SoundSchemas(schemas) && Run(Calls(schemas), ws, es) && i < |ws|
    ensures AllTell(schemas, ws[i])
  {
    var inv := (w: World) => AllTell(schemas, w);
    forall w, e, v | inv(w) && Calls(schemas)(w, e, v) ensures inv(v) {
      NextTells(schemas, w, e);
    }
    RunKeeps(Calls(schemas), inv, ws, es, i);
  }
}
