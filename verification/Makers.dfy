// What the call that made a key says about it for good: whether it is trusted, may be wrapped only
// under trusted keys, was made by the token, and how. No later call changes it, on the key or on any
// copy.
module Makers {
  import opened Bytes
  import opened Attributes
  import opened UpdateRules
  import opened KeyPolicy
  import opened Objects
  import opened KeyCalls
  import opened Runs
  import opened OneWay

  predicate IsTrue(a: Attrs, k: Kind) { k in a && a[k] == Flag(true) }

  // What only the call that makes an object can write.
  predicate IsFixed(k: Kind) {
    k == CKA_TRUSTED || k == CKA_WRAP_WITH_TRUSTED || k == CKA_LOCAL || k == CKA_KEY_GEN_MECHANISM
  }

  // ---------- setting and copying ----------

  lemma UpdateFixed(s: Schema, c: Call, i: nat, a: Attrs, e: Entry, k: Kind)
    requires Proper(s) && (c.op == OpSet || c.op == OpCopy) && IsFixed(k)
    ensures SameAt(a, Update(s, c, i, a, e).attrs, k)
  {
    if e.kind != k {
      UpdateFrame(s, c, i, a, e, k);
    }
  }

  lemma ApplyFixed(s: Schema, c: Call, i: nat, a: Attrs, t: seq<Entry>, k: Kind)
    requires Proper(s) && (c.op == OpSet || c.op == OpCopy) && IsFixed(k)
    ensures SameAt(a, Apply(Updating(s, c), i, a, t).attrs, k)
  {
    var r := (x, y) => SameAt(x, y, k);
    forall j, x, e | e in t ensures r(x, Updating(s, c)(j, x, e).attrs) {
      UpdateFixed(s, c, j, x, e, k);
    }
    ApplyRelates(Updating(s, c), i, a, t, r);
  }

  lemma SaveFixed(schemas: Schemas, x: Session, isPrivate: bool, op: Op, o: Obj, t: seq<Entry>, k: Kind)
    requires SoundSchemas(schemas) && x.schemas == schemas && GoodObj(schemas, o)
    requires (op == OpSet || op == OpCopy) && IsFixed(k)
    ensures SameAt(o.attrs, SaveObject(x, isPrivate, op, o, t).obj.attrs, k)
  {
    var s := schemas(ClassOf(o.attrs), KeyTypeOf(o.attrs)).value;
    SaveObjectSaves(schemas, s, x, isPrivate, op, o, t);
    SavedAttrs(s, Call(x, isPrivate, op), o, t);
    ApplyFixed(s, Call(x, isPrivate, op), 0, o.attrs, t, k);
  }

  lemma SetFixed(schemas: Schemas, x: Session, o: Obj, t: seq<Entry>, k: Kind)
    requires SoundSchemas(schemas) && x.schemas == schemas && GoodObj(schemas, o) && IsFixed(k)
    ensures SameAt(o.attrs, SetResult(x, o, t).obj.attrs, k)
  {
    SetSavesOrNot(x, o, t);
    SaveFixed(schemas, x, GetBool(o.attrs, CKA_PRIVATE, true), OpSet, o, t, k);
  }

  // Attributes that are not strings are copied as they are.
  lemma CopiedFixed(schemas: Schemas, x: Session, upgrade: bool, a: Attrs, k: Kind)
    requires SoundSchemas(schemas) && Good(schemas, a) && Copies(x, upgrade, a) && IsFixed(k)
    ensures SameAt(a, CopiedAttrs(x, upgrade, a), k)
  {
    assert SortedAt(schemas(ClassOf(a), KeyTypeOf(a)).value, a, k);
  }

  lemma CopyIntoFixed(schemas: Schemas, x: Session, o: Obj, onToken: bool, isPrivate: bool, upgrade: bool, t: seq<Entry>, k: Kind)
    requires SoundSchemas(schemas) && x.schemas == schemas && GoodObj(schemas, o) && IsFixed(k)
    ensures var r := CopyInto(x, o, onToken, isPrivate, upgrade, t).obj;
      r.Some? ==> SameAt(o.attrs, r.value.attrs, k)
  {
    CopyIntoSaves(x, o, onToken, isPrivate, upgrade, t);
    if CopyInto(x, o, onToken, isPrivate, upgrade, t).obj.Some? {
      var b := CopiedAttrs(x, upgrade, o.attrs);
      CopiedKeepsGood(schemas, x, upgrade, o.attrs);
      CopiedFixed(schemas, x, upgrade, o.attrs, k);
      SaveFixed(schemas, x, isPrivate, OpCopy, Rewrite(NewObj(onToken), b), t, k);
    }
  }

  lemma CopyFixed(schemas: Schemas, x: Session, o: Obj, t: seq<Entry>, k: Kind)
    requires SoundSchemas(schemas) && x.schemas == schemas && GoodObj(schemas, o) && IsFixed(k)
    ensures var r := CopyResult(x, o, t).obj;
      r.Some? ==> SameAt(o.attrs, r.value.attrs, k)
  {
    var wasPrivate := GetBool(o.attrs, CKA_PRIVATE, true);
    var onToken := LastFlag(t, CKA_TOKEN, GetBool(o.attrs, CKA_TOKEN, false));
    var isPrivate := LastFlag(t, CKA_PRIVATE, wasPrivate);
    CopyIntoFixed(schemas, x, o, onToken, isPrivate, !wasPrivate && isPrivate, t, k);
  }

  // ---------- what the calls that make objects leave ----------

  predicate Entrusted(officer: bool, a: Attrs, b: Attrs) { IsTrue(b, CKA_TRUSTED) ==> IsTrue(a, CKA_TRUSTED) || officer }

  lemma UpdateTrust(s: Schema, c: Call, i: nat, a: Attrs, e: Entry)
    requires Proper(s)
    ensures Entrusted(c.session.token.soLoggedIn, a, Update(s, c, i, a, e).attrs)
  {
    if e.kind != CKA_TRUSTED {
      UpdateFrame(s, c, i, a, e, CKA_TRUSTED);
    }
  }

  lemma ApplyTrust(s: Schema, c: Call, i: nat, a: Attrs, t: seq<Entry>)
    requires Proper(s)
    ensures Entrusted(c.session.token.soLoggedIn, a, Apply(Updating(s, c), i, a, t).attrs)
  {
    var r := (x, y) => Entrusted(c.session.token.soLoggedIn, x, y);
    forall j, x, e | e in t ensures r(x, Updating(s, c)(j, x, e).attrs) {
      UpdateTrust(s, c, j, x, e);
    }
    ApplyRelates(Updating(s, c), i, a, t, r);
  }

  // What the library keeps about the origin of a key is not for templates to write.
  predicate IsOrigin(k: Kind) { k == CKA_LOCAL || k == CKA_KEY_GEN_MECHANISM }

  lemma UpdateOrigin(s: Schema, c: Call, i: nat, a: Attrs, e: Entry, k: Kind)
    requires Proper(s) && IsOrigin(k)
    ensures SameAt(a, Update(s, c, i, a, e).attrs, k)
  {
    if e.kind != k {
      UpdateFrame(s, c, i, a, e, k);
    }
  }

  lemma ApplyOrigin(s: Schema, c: Call, i: nat, a: Attrs, t: seq<Entry>, k: Kind)
    requires Proper(s) && IsOrigin(k)
    ensures SameAt(a, Apply(Updating(s, c), i, a, t).attrs, k)
  {
    var r := (x, y) => SameAt(x, y, k);
    forall j, x, e | e in t ensures r(x, Updating(s, c)(j, x, e).attrs) {
      UpdateOrigin(s, c, j, x, e, k);
    }
    ApplyRelates(Updating(s, c), i, a, t, r);
  }

  // A new object: trusted only by the security officer, and not made by the token.
  predicate IsNew(officer: bool, a: Attrs) {
    (IsTrue(a, CKA_TRUSTED) ==> officer)
    && CKA_LOCAL in a && a[CKA_LOCAL] == Flag(false)
    && CKA_KEY_GEN_MECHANISM in a && a[CKA_KEY_GEN_MECHANISM] == Number(0xffff_ffff_ffff_ffff)
  }

  lemma FreshNew(s: Schema, objClass: nat, keyType: nat)
    requires Proper(s)
    ensures IsNew(false, Initialised(s, objClass, keyType, map[]))
  {
  }

  lemma SavedNew(s: Schema, c: Call, objClass: nat, keyType: nat, onToken: bool, t: seq<Entry>)
    requires Proper(s)
    ensures var o := Rewrite(NewObj(onToken), Initialised(s, objClass, keyType, map[]));
      IsNew(c.session.token.soLoggedIn, SaveTemplate(s, c, o, t).obj.attrs) == true
  {
    var o := Rewrite(NewObj(onToken), Initialised(s, objClass, keyType, map[]));
    FreshNew(s, objClass, keyType);
    SavedAttrs(s, c, o, t);
    ApplyTrust(s, c, 0, o.attrs, t);
    ApplyOrigin(s, c, 0, o.attrs, t, CKA_LOCAL);
    ApplyOrigin(s, c, 0, o.attrs, t, CKA_KEY_GEN_MECHANISM);
  }

  lemma CreatedInNew(x: Session, op: Op, objClass: nat, keyType: nat, onToken: bool, isPrivate: bool, t: seq<Entry>)
    requires SoundSchemas(x.schemas)
    ensures var r := CreateIn(x, op, objClass, keyType, onToken, isPrivate, t);
      r.obj.Some? ==> IsNew(x.token.soLoggedIn, r.obj.value.attrs) == true
  {
    if x.schemas(objClass, keyType).Some? {
      var s := x.schemas(objClass, keyType).value;
      CreateInIs(s, x, op, objClass, keyType, onToken, isPrivate, t);
      SavedNew(s, Call(x, isPrivate, op), objClass, keyType, onToken, t);
    }
  }

  // Creating an object makes it trusted only if the security officer is logged in.
  lemma CreatedNew(x: Session, op: Op, t: seq<Entry>)
    requires SoundSchemas(x.schemas)
    ensures var r := CreateResult(x, op, t);
      r.obj.Some? ==> IsNew(x.token.soLoggedIn, r.obj.value.attrs) == true
  {
    var q := AskedBy(t);
    if q.objClass.Some? {
      CreatedInNew(x, op, q.objClass.value, if q.keyType.Some? then q.keyType.value else CKK_RSA,
                   q.onToken, q.isPrivate, Reordered(t));
    }
  }

  // What a key made by the token says: generated keys, and no others, are local, and tell their
  // mechanism.
  predicate IsMade(officer: bool, origin: Origin, a: Attrs) {
    (IsTrue(a, CKA_TRUSTED) ==> officer)
    && CKA_LOCAL in a && a[CKA_LOCAL] == Flag(origin.Generated?)
    && CKA_KEY_GEN_MECHANISM in a
    && a[CKA_KEY_GEN_MECHANISM] == Number(if origin.Generated? then origin.mechanism else 0xffff_ffff_ffff_ffff)
  }

  lemma FinishedMade(x: Session, origin: Origin, isPrivate: bool, a: Attrs, m: Material)
    requires IsMaterial(m) && IsNew(x.token.soLoggedIn, a) == true
    ensures IsMade(x.token.soLoggedIn, origin, Filled(x, isPrivate, WithHistory(origin, a), m)) == true
  {
    var h := WithHistory(origin, a);
    FilledFrame(x, isPrivate, h, m, CKA_TRUSTED);
    FilledFrame(x, isPrivate, h, m, CKA_LOCAL);
    FilledFrame(x, isPrivate, h, m, CKA_KEY_GEN_MECHANISM);
  }

  // Making a key makes it trusted only if the security officer is logged in, and local if and only
  // if it succeeds in generating it.
  lemma KeyMade(x: Session, origin: Origin, objClass: nat, keyType: nat, onToken: bool, isPrivate: bool, t: seq<Entry>,
                m: Material, ok: bool)
    requires SoundSchemas(x.schemas)
    requires CreateResult(x, OpOf(origin), KeyTemplate(objClass, keyType, onToken, isPrivate, t)).rv == CKR_OK ==> IsMaterial(m)
    ensures var r := KeyResult(x, origin, objClass, keyType, onToken, isPrivate, t, m, ok);
      r.obj.Some? ==>
        if r.rv == CKR_OK then IsMade(x.token.soLoggedIn, origin, r.obj.value.attrs) == true
        else IsNew(x.token.soLoggedIn, r.obj.value.attrs) == true
  {
    var c := CreateResult(x, OpOf(origin), KeyTemplate(objClass, keyType, onToken, isPrivate, t));
    CreatedNew(x, OpOf(origin), KeyTemplate(objClass, keyType, onToken, isPrivate, t));
    if c.rv == CKR_OK && c.obj.Some? {
      FinishedMade(x, origin, isPrivate, c.obj.value.attrs, m);
    }
  }

  // ---------- the call that made an object ----------

  // The call that made object id as it is in world i, or the object that it was first copied from.
  ghost function Maker(ws: seq<World>, es: seq<Event>, i: nat, id: nat): Option<Event>
    requires i < |ws| == |es| + 1
  {
    if i == 0 then None
    else
      var e := es[i - 1];
      if (e.Create? || e.Make?) && e.id == id then Some(e)
      else if e.Copy? && e.id == id then Maker(ws, es, i - 1, e.from)
      else Maker(ws, es, i - 1, id)
  }

  lemma StepOf(schemas: Schemas, ws: seq<World>, es: seq<Event>, k: nat)
    requires SoundSchemas(schemas) && Run(Calls(schemas), ws, es) && k < |es|
    ensures Valid(schemas, ws[k], es[k]) == true && ws[k + 1] == Next(ws[k], es[k])
  {
    assert Calls(schemas)(ws[k], es[k], ws[k + 1]);
  }

  // What a call that makes an object leaves.
  function Left(e: Event): Made
    requires e.Create? || e.Make?
  {
    if e.Create? then CreateResult(e.x, OpCreate, e.t)
    else KeyResult(e.x, e.origin, e.objClass, e.keyType, e.onToken, e.isPrivate, e.t, e.m, e.ok)
  }

  // Attributes that agree with what the call left in all that is fixed.
  ghost predicate AsMade(e: Event, a: Attrs) {
    (e.Create? || e.Make?) && Left(e).obj.Some? && forall k :: IsFixed(k) ==> SameAt(Left(e).obj.value.attrs, a, k)
  }

  lemma StillAsMade(e: Event, a: Attrs, b: Attrs)
    requires AsMade(e, a) && forall k :: IsFixed(k) ==> SameAt(a, b, k)
    ensures AsMade(e, b) == true
  {
  }

  ghost predicate TracedAt(ws: seq<World>, es: seq<Event>, i: nat, id: nat)
    requires i < |ws| == |es| + 1 && id in ws[i]
  {
    Maker(ws, es, i, id).Some? && AsMade(Maker(ws, es, i, id).value, ws[i][id].obj.attrs)
  }

  ghost predicate Traced(ws: seq<World>, es: seq<Event>, i: nat)
    requires i < |ws| == |es| + 1
  {
    forall id :: id in ws[i] ==> TracedAt(ws, es, i, id)
  }

  lemma CopyTraced(schemas: Schemas, ws: seq<World>, es: seq<Event>, i: nat, id: nat)
    requires SoundSchemas(schemas) && Run(Calls(schemas), ws, es) && i + 1 < |ws| && Traced(ws, es, i) == true
    requires es[i].Copy? && es[i].id == id && id in ws[i + 1]
    ensures TracedAt(ws, es, i + 1, id) == true
  {
    var e, w := es[i], ws[i];
    StepOf(schemas, ws, es, i);
    HistoryInvariant(schemas, ws, es, i);
    assert TellsHistory(schemas, w[e.from]);
    var o, r := w[e.from].obj, CopyResult(e.x, w[e.from].obj, e.t).obj;
    forall k | IsFixed(k) && r.Some? ensures SameAt(o.attrs, r.value.attrs, k) {
      CopyFixed(schemas, e.x, o, e.t, k);
    }
    StillAsMade(Maker(ws, es, i, e.from).value, o.attrs, ws[i + 1][id].obj.attrs);
  }

  lemma SetTraced(schemas: Schemas, ws: seq<World>, es: seq<Event>, i: nat, id: nat)
    requires SoundSchemas(schemas) && Run(Calls(schemas), ws, es) && i + 1 < |ws| && Traced(ws, es, i) == true
    requires es[i].Set? && es[i].target == id && id in ws[i + 1]
    ensures TracedAt(ws, es, i + 1, id) == true
  {
    var e, w := es[i], ws[i];
    StepOf(schemas, ws, es, i);
    HistoryInvariant(schemas, ws, es, i);
    assert TellsHistory(schemas, w[id]);
    var o := w[id].obj;
    forall k | IsFixed(k) ensures SameAt(o.attrs, SetResult(e.x, o, e.t).obj.attrs, k) {
      SetFixed(schemas, e.x, o, e.t, k);
    }
    StillAsMade(Maker(ws, es, i, id).value, o.attrs, ws[i + 1][id].obj.attrs);
  }

  lemma NextElsewhere(schemas: Schemas, w: World, e: Event, id: nat)
    requires SoundSchemas(schemas) && Valid(schemas, w, e) && id in Next(w, e)
    requires !(e.Copy? && e.id == id) && !(e.Set? && e.target == id) && !((e.Create? || e.Make?) && e.id == id)
    ensures id in w && Next(w, e)[id] == w[id]
  {
  }

  lemma NextMade(schemas: Schemas, w: World, e: Event)
    requires SoundSchemas(schemas) && Valid(schemas, w, e) && (e.Create? || e.Make?) && e.id in Next(w, e)
    ensures Left(e).obj.Some? && Next(w, e)[e.id].obj == Left(e).obj.value
  {
  }

  // The other calls make the object, or leave it alone.
  lemma OthersTraced(schemas: Schemas, ws: seq<World>, es: seq<Event>, i: nat, id: nat)
    requires SoundSchemas(schemas) && Run(Calls(schemas), ws, es) && i + 1 < |ws| && Traced(ws, es, i) == true
    requires !(es[i].Copy? && es[i].id == id) && !(es[i].Set? && es[i].target == id) && id in ws[i + 1]
    ensures TracedAt(ws, es, i + 1, id) == true
  {
    StepOf(schemas, ws, es, i);
    if (es[i].Create? || es[i].Make?) && es[i].id == id {
      NextMade(schemas, ws[i], es[i]);
    } else {
      NextElsewhere(schemas, ws[i], es[i], id);
      assert TracedAt(ws, es, i, id);
    }
  }

  lemma NextTraced(schemas: Schemas, ws: seq<World>, es: seq<Event>, i: nat, id: nat)
    requires SoundSchemas(schemas) && Run(Calls(schemas), ws, es) && i + 1 < |ws| && Traced(ws, es, i) == true && id in ws[i + 1]
    ensures TracedAt(ws, es, i + 1, id) == true
  {
    if es[i].Copy? && es[i].id == id {
      CopyTraced(schemas, ws, es, i, id);
    } else if es[i].Set? && es[i].target == id {
      SetTraced(schemas, ws, es, i, id);
    } else {
      OthersTraced(schemas, ws, es, i, id);
    }
  }

  // In every world of every run, all that is fixed is as the call left it that made the object.
  lemma {:induction false} FixedAsMade(schemas: Schemas, ws: seq<World>, es: seq<Event>, i: nat)
    requires SoundSchemas(schemas) && Run(Calls(schemas), ws, es) && i < |ws|
    ensures Traced(ws, es, i) == true
  {
    if i > 0 {
      FixedAsMade(schemas, ws, es, i - 1);
      forall id | id in ws[i] ensures TracedAt(ws, es, i, id) == true {
        NextTraced(schemas, ws, es, i - 1, id);
      }
    }
  }

  // The call was one of the library's.
  ghost predicate OfLibrary(schemas: Schemas, e: Event)
    requires SoundSchemas(schemas)
  {
    match e
    case Create(x, _, _) => x.schemas == schemas
    case Make(x, _, _, origin, objClass, keyType, onToken, isPrivate, t, m, _) =>
      x.schemas == schemas && Makeable(schemas, x, origin, objClass, keyType, onToken, isPrivate, t, m)
    case _ => true
  }

  lemma ValidOfLibrary(schemas: Schemas, w: World, e: Event)
    requires SoundSchemas(schemas) && Valid(schemas, w, e)
    ensures OfLibrary(schemas, e) == true
  {
  }

  lemma {:induction false} MakerOfLibrary(schemas: Schemas, ws: seq<World>, es: seq<Event>, i: nat, id: nat)
    requires SoundSchemas(schemas) && Run(Calls(schemas), ws, es) && i < |ws|
    ensures var m := Maker(ws, es, i, id);
      m.Some? ==> m.value in es[..i] && OfLibrary(schemas, m.value) == true
  {
    if i > 0 {
      var e := es[i - 1];
      assert es[..i] == es[..i - 1] + [e];
      StepOf(schemas, ws, es, i - 1);
      ValidOfLibrary(schemas, ws[i - 1], e);
      MakerOfLibrary(schemas, ws, es, i - 1, if e.Copy? && e.id == id then e.from else id);
    }
  }

  lemma MakeableMaterial(schemas: Schemas, e: Event)
    requires SoundSchemas(schemas) && OfLibrary(schemas, e) && e.Make?
    ensures Created(e).rv == CKR_OK ==> IsMaterial(e.m)
  {
    CreatedHasObject(e.x, OpOf(e.origin), KeyTemplate(e.objClass, e.keyType, e.onToken, e.isPrivate, e.t));
  }

  lemma CreatedHasObject(x: Session, op: Op, t: seq<Entry>)
    ensures CreateResult(x, op, t).rv == CKR_OK ==> CreateResult(x, op, t).obj.Some?
  {
  }

  predicate Generates(e: Event) { e.Make? && e.origin.Generated? && Left(e).rv == CKR_OK }

  // What the call that made an object says about it.
  predicate Says(e: Event, a: Attrs)
    requires e.Create? || e.Make?
  {
    (IsTrue(a, CKA_TRUSTED) ==> e.x.token.soLoggedIn)
    && CKA_LOCAL in a && a[CKA_LOCAL] == Flag(Generates(e))
    && CKA_KEY_GEN_MECHANISM in a
    && a[CKA_KEY_GEN_MECHANISM] == Number(if Generates(e) then e.origin.mechanism else 0xffff_ffff_ffff_ffff)
  }

  lemma LeftSays(schemas: Schemas, e: Event)
    requires SoundSchemas(schemas) && OfLibrary(schemas, e) && (e.Create? || e.Make?) && Left(e).obj.Some?
    ensures Says(e, Left(e).obj.value.attrs) == true
  {
    if e.Create? {
      CreatedNew(e.x, OpCreate, e.t);
    } else {
      MakeableMaterial(schemas, e);
      KeyMade(e.x, e.origin, e.objClass, e.keyType, e.onToken, e.isPrivate, e.t, e.m, e.ok);
    }
  }

  lemma SameSays(e: Event, a: Attrs, b: Attrs)
    requires (e.Create? || e.Make?) && Says(e, a) && forall k :: IsFixed(k) ==> SameAt(a, b, k)
    ensures Says(e, b)
  {
    assert SameAt(a, b, CKA_TRUSTED) && SameAt(a, b, CKA_LOCAL) && SameAt(a, b, CKA_KEY_GEN_MECHANISM);
  }

  lemma AsMakerSays(schemas: Schemas, ws: seq<World>, es: seq<Event>, i: nat, id: nat)
    requires SoundSchemas(schemas) && Run(Calls(schemas), ws, es) && i < |ws| && id in ws[i]
    ensures var m := Maker(ws, es, i, id);
      m.Some? && m.value in es[..i] && (m.value.Create? || m.value.Make?) && Says(m.value, ws[i][id].obj.attrs) == true
  {
    FixedAsMade(schemas, ws, es, i);
    MakerOfLibrary(schemas, ws, es, i, id);
    assert TracedAt(ws, es, i, id);
    var m := Maker(ws, es, i, id).value;
    LeftSays(schemas, m);
    SameSays(m, Left(m).obj.value.attrs, ws[i][id].obj.attrs);
  }

  // In every run, an object that is trusted was created, generated, derived or unwrapped, or first
  // copied from an object that was, by a call with the security officer logged in.
  lemma TrustedByOfficer(schemas: Schemas, ws: seq<World>, es: seq<Event>, i: nat, id: nat)
    requires SoundSchemas(schemas) && Run(Calls(schemas), ws, es) && i < |ws| && id in ws[i]
    requires IsTrue(ws[i][id].obj.attrs, CKA_TRUSTED)
    ensures var m := Maker(ws, es, i, id);
      m.Some? && m.value in es[..i] && (m.value.Create? || m.value.Make?) && m.value.x.token.soLoggedIn
  {
    AsMakerSays(schemas, ws, es, i, id);
  }

  // In every run, a key is local exactly if it, or the key it was first copied from, was generated by
  // the token; it then tells the mechanism, and no other key tells one.
  lemma LocalExactly(schemas: Schemas, ws: seq<World>, es: seq<Event>, i: nat, id: nat)
    requires SoundSchemas(schemas) && Run(Calls(schemas), ws, es) && i < |ws| && id in ws[i]
    ensures var m, a := Maker(ws, es, i, id), ws[i][id].obj.attrs;
      m.Some? && m.value in es[..i]
      && (IsTrue(a, CKA_LOCAL) <==> m.value.Make? && m.value.origin.Generated? && Left(m.value).rv == CKR_OK)
      && CKA_KEY_GEN_MECHANISM in a
      && a[CKA_KEY_GEN_MECHANISM]
         == Number(if IsTrue(a, CKA_LOCAL) then m.value.origin.mechanism else 0xffff_ffff_ffff_ffff)
  {
    AsMakerSays(schemas, ws, es, i, id);
  }

  // ---------- keys that come from outside ----------

  // A key that says nothing of its history.
  predicate ClaimsNothing(a: Attrs) { !AlwaysSensitive(a) && !NeverExtractable(a) }

  lemma ClaimsSticky()
    ensures Sticky(ClaimsNothing)
  {
  }

  lemma CreatedClaims(x: Session, t: seq<Entry>)
    ensures var r := CreateResult(x, OpCreate, t);
      r.rv == CKR_OK && r.obj.Some? ==> ClaimsNothing(r.obj.value.attrs)
  {
  }

  lemma UnwrappedClaims(e: Event)
    requires e.Make? && e.origin.Unwrapped? && IsMaterial(e.m)
    ensures Left(e).rv == CKR_OK && Left(e).obj.Some? ==> ClaimsNothing(Left(e).obj.value.attrs)
  {
    HistoryFlagsExactly(e.x, e.origin, e.objClass, e.keyType, e.onToken, e.isPrivate, e.t, e.m, e.ok);
  }

  predicate BringsIn(e: Event) {
    (e.Create? || (e.Make? && e.origin.Unwrapped?)) && Left(e).rv == CKR_OK && Left(e).obj.Some?
  }

  lemma BroughtInClaims(schemas: Schemas, w: World, e: Event)
    requires SoundSchemas(schemas) && Valid(schemas, w, e) && BringsIn(e)
    ensures e.id in Next(w, e) && ClaimsNothing(Next(w, e)[e.id].obj.attrs)
  {
    if e.Create? {
      CreatedClaims(e.x, e.t);
    } else {
      MadeHasObject(e);
      MakeableMaterial(schemas, e);
      UnwrappedClaims(e);
    }
  }

  lemma MadeHasObject(e: Event)
    requires e.Make? && Left(e).rv == CKR_OK
    ensures Created(e).rv == CKR_OK
  {
  }

  // A key that is created by value, or unwrapped, never says that it was always sensitive or never
  // extractable, and neither does any copy of it.
  lemma NeverClaimed(schemas: Schemas, ws: seq<World>, es: seq<Event>, i: nat, j: nat, y: nat)
    requires SoundSchemas(schemas) && Run(Calls(schemas), ws, es) && 0 < i <= j < |ws|
    requires BringsIn(es[i - 1]) && y in Heirs(ws, es, es[i - 1].id, i, j)
    ensures y in ws[j] && !AlwaysSensitive(ws[j][y].obj.attrs) && !NeverExtractable(ws[j][y].obj.attrs)
  {
    var e := es[i - 1];
    StepOf(schemas, ws, es, i - 1);
    BroughtInClaims(schemas, ws[i - 1], e);
    ClaimsSticky();
    HeirsKeep(schemas, ClaimsNothing, ws, es, e.id, i, j);
  }
}
