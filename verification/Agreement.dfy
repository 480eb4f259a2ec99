// A session whose token cannot decrypt at the moment, because nobody is logged in: whatever succeeds
// in it would have done the same if it could.
module Agreement {
  import opened Bytes
  import opened Attributes
  import opened UpdateRules
  import opened KeyPolicy
  import opened Objects
  import opened KeyCalls
  import opened Decoding

  // The token with decryption `dec` in place of its own.
  function Reading(x: Session, dec: Key): Session { x.(token := x.token.(decrypt := dec)) }

  function ReadingCall(c: Call, dec: Key): Call { c.(session := Reading(c.session, dec)) }

  // Decryption agrees with `dec`, or fails; and `dec` undoes encryption.
  ghost predicate Agrees(k: Token, dec: Key) {
    Lawful(k.(decrypt := dec)) && forall d :: k.decrypt(d) == None || k.decrypt(d) == dec(d)
  }

  lemma WriterAgrees(c: Call, dec: Key, i: nat, a: Attrs, k: Kind, rule: Rule, d: bytes)
    requires Agrees(c.session.token, dec) && Writer(k, rule)(c, i, a, d).rv == CKR_OK
    ensures Writer(k, rule)(ReadingCall(c, dec), i, a, d) == Writer(k, rule)(c, i, a, d)
  {
  }

  lemma UpdateAgrees(s: Schema, c: Call, dec: Key, i: nat, a: Attrs, e: Entry)
    requires Agrees(c.session.token, dec) && Update(s, c, i, a, e).rv == CKR_OK
    ensures Update(s, ReadingCall(c, dec), i, a, e) == Update(s, c, i, a, e)
  {
    WriterAgrees(c, dec, i, a, e.kind, s[e.kind].rule, e.data);
  }

  lemma {:induction false} ApplyAgrees(s: Schema, c: Call, dec: Key, i: nat, a: Attrs, t: seq<Entry>)
    requires Agrees(c.session.token, dec) && Apply(Updating(s, c), i, a, t).rv == CKR_OK
    ensures Apply(Updating(s, ReadingCall(c, dec)), i, a, t) == Apply(Updating(s, c), i, a, t)
    decreases |t|
  {
    if t != [] {
      UpdateAgrees(s, c, dec, i, a, t[0]);
      ApplyAgrees(s, c, dec, i + 1, Updating(s, c)(i, a, t[0]).attrs, t[1..]);
    }
  }

  lemma SaveAgrees(s: Schema, c: Call, dec: Key, o: Obj, t: seq<Entry>)
    requires Agrees(c.session.token, dec) && SaveTemplate(s, c, o, t).rv == CKR_OK
    ensures SaveTemplate(s, ReadingCall(c, dec), o, t) == SaveTemplate(s, c, o, t)
  {
    ApplyAgrees(s, c, dec, 0, o.attrs, t);
  }

  lemma SaveObjectAgrees(x: Session, dec: Key, isPrivate: bool, op: Op, o: Obj, t: seq<Entry>)
    requires Agrees(x.token, dec) && SaveObject(x, isPrivate, op, o, t).rv == CKR_OK
    ensures SaveObject(Reading(x, dec), isPrivate, op, o, t) == SaveObject(x, isPrivate, op, o, t)
  {
    var s := x.schemas(ClassOf(o.attrs), KeyTypeOf(o.attrs)).value;
    SaveAgrees(s, Call(x, isPrivate, op), dec,
               Rewrite(o, Initialised(s, ClassOf(o.attrs), KeyTypeOf(o.attrs), o.attrs)), t);
  }

  lemma CopyAgrees(x: Session, dec: Key, o: Obj, t: seq<Entry>)
    requires Agrees(x.token, dec) && CopyResult(x, o, t).obj.Some?
    ensures CopyResult(Reading(x, dec), o, t) == CopyResult(x, o, t)
  {
    var wasPrivate := GetBool(o.attrs, CKA_PRIVATE, true);
    var onToken := LastFlag(t, CKA_TOKEN, GetBool(o.attrs, CKA_TOKEN, false));
    var isPrivate := LastFlag(t, CKA_PRIVATE, wasPrivate);
    CopyIntoAgrees(x, dec, o, onToken, isPrivate, !wasPrivate && isPrivate, t);
  }

  lemma CopyIntoAgrees(x: Session, dec: Key, o: Obj, onToken: bool, isPrivate: bool, upgrade: bool, t: seq<Entry>)
    requires Agrees(x.token, dec) && CopyInto(x, o, onToken, isPrivate, upgrade, t).obj.Some?
    ensures CopyInto(Reading(x, dec), o, onToken, isPrivate, upgrade, t) == CopyInto(x, o, onToken, isPrivate, upgrade, t)
  {
    assert CopiedAttrs(Reading(x, dec), upgrade, o.attrs) == CopiedAttrs(x, upgrade, o.attrs);
    SaveObjectAgrees(x, dec, isPrivate, OpCopy, Rewrite(NewObj(onToken), CopiedAttrs(x, upgrade, o.attrs)), t);
  }

  lemma CreateAgrees(x: Session, dec: Key, op: Op, t: seq<Entry>)
    requires Agrees(x.token, dec) && CreateResult(x, op, t).rv == CKR_OK
    ensures CreateResult(Reading(x, dec), op, t) == CreateResult(x, op, t)
  {
    var q := AskedBy(t);
    CreateInAgrees(x, dec, op, q.objClass.value, if q.keyType.Some? then q.keyType.value else CKK_RSA,
                   q.onToken, q.isPrivate, Reordered(t));
  }

  lemma CreateInAgrees(x: Session, dec: Key, op: Op, objClass: nat, keyType: nat, onToken: bool, isPrivate: bool,
                       t: seq<Entry>)
    requires Agrees(x.token, dec) && CreateIn(x, op, objClass, keyType, onToken, isPrivate, t).rv == CKR_OK
    ensures CreateIn(Reading(x, dec), op, objClass, keyType, onToken, isPrivate, t)
         == CreateIn(x, op, objClass, keyType, onToken, isPrivate, t)
  {
    var s := x.schemas(objClass, keyType).value;
    SaveAgrees(s, Call(x, isPrivate, op), dec, Rewrite(NewObj(onToken), Initialised(s, objClass, keyType, map[])), t);
  }

  lemma {:induction false} FilledAgrees(x: Session, dec: Key, isPrivate: bool, a: Attrs, m: Material)
    ensures Filled(Reading(x, dec), isPrivate, a, m) == Filled(x, isPrivate, a, m)
    decreases |m|
  {
    if m != [] {
      FilledAgrees(x, dec, isPrivate, Put(a, m[0].0, Str(SealedPart(x, isPrivate, m[0]))), m[1..]);
    }
  }

  lemma FinishAgrees(x: Session, dec: Key, origin: Origin, isPrivate: bool, r: Made, m: Material, ok: bool)
    ensures FinishKey(Reading(x, dec), origin, isPrivate, r, m, ok) == FinishKey(x, origin, isPrivate, r, m, ok)
  {
    if r.obj.Some? {
      FilledAgrees(x, dec, isPrivate, WithHistory(origin, r.obj.value.attrs), m);
    }
  }

  lemma KeyAgrees(x: Session, dec: Key, origin: Origin, objClass: nat, keyType: nat, onToken: bool, isPrivate: bool,
                  t: seq<Entry>, m: Material, ok: bool)
    requires Agrees(x.token, dec) && KeyResult(x, origin, objClass, keyType, onToken, isPrivate, t, m, ok).rv == CKR_OK
    ensures KeyResult(Reading(x, dec), origin, objClass, keyType, onToken, isPrivate, t, m, ok)
         == KeyResult(x, origin, objClass, keyType, onToken, isPrivate, t, m, ok)
  {
    var u := KeyTemplate(objClass, keyType, onToken, isPrivate, t);
    CreateAgrees(x, dec, OpOf(origin), u);
    FinishAgrees(x, dec, origin, isPrivate, CreateResult(x, OpOf(origin), u), m, ok);
  }
}
