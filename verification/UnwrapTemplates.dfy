// A key unwrapped under a key with an unwrap template has the flags the template asks for.
module UnwrapTemplates {
  import opened Bytes
  import opened Attributes
  import opened UpdateRules
  import opened KeyPolicy
  import opened Objects
  import opened KeyCalls
  import opened Runs
  import opened Decoding
  import opened Storage
  import opened Plaintexts
  import opened Steps

  // The rules that set a flag to what the caller asks for, or refuse.
  predicate SetsFlag(rule: Rule) {
    rule.Bool? || rule.Sensitive? || rule.Extractable? || rule.WrapWithTrusted? || rule.Trusted?
    || rule.AlwaysAuthenticate? || rule.Copyable?
  }

  lemma FlagWritten(c: Call, i: nat, a: Attrs, k: Kind, rule: Rule, d: bytes)
    requires SetsFlag(rule) && Named(rule, k) && IsFlag(a, k)
    requires Writer(k, rule)(c, i, a, d).rv == CKR_OK
    ensures |d| == 1 && IsFlag(Writer(k, rule)(c, i, a, d).attrs, k)
    ensures Writer(k, rule)(c, i, a, d).attrs[k] == Flag(d[0] != 0)
  {
  }

  lemma FlagUpdated(s: Schema, c: Call, i: nat, a: Attrs, e: Entry, k: Kind)
    requires Proper(s) && k in s && SetsFlag(s[k].rule) && IsFlag(a, k)
    requires Update(s, c, i, a, e).rv == CKR_OK
    ensures IsFlag(Update(s, c, i, a, e).attrs, k)
    ensures Update(s, c, i, a, e).attrs[k].b
         == if e.kind == k && |e.data| == 1 then e.data[0] != 0 else a[k].b
  {
    if e.kind == k {
      FlagWritten(c, i, a, k, s[k].rule, e.data);
    } else {
      UpdateFrame(s, c, i, a, e, k);
    }
  }

  lemma {:induction false} FlagApplied(s: Schema, c: Call, i: nat, a: Attrs, t: seq<Entry>, k: Kind)
    requires Proper(s) && k in s && SetsFlag(s[k].rule) && IsFlag(a, k)
    requires Apply(Updating(s, c), i, a, t).rv == CKR_OK
    ensures IsFlag(Apply(Updating(s, c), i, a, t).attrs, k)
    ensures Apply(Updating(s, c), i, a, t).attrs[k].b == LastFlag(t, k, a[k].b)
    decreases |t|
  {
    if t != [] {
      FlagUpdated(s, c, i, a, t[0], k);
      FlagApplied(s, c, i + 1, Updating(s, c)(i, a, t[0]).attrs, t[1..], k);
    }
  }

  lemma {:induction false} NoneCounted(u: seq<Entry>, k: Kind, default: bool)
    requires Count(u, k) == 0
    ensures LastFlag(u, k, default) == default
    decreases |u|
  {
    if u != [] {
      NoneCounted(u[1..], k, default);
    }
  }

  // The only entry for a flag is the last one.
  lemma {:induction false} OnceLast(u: seq<Entry>, k: Kind, b: bool, default: bool)
    requires Count(u, k) == 1
    requires forall i :: 0 <= i < |u| && u[i].kind == k ==> u[i].data == [if b then 1 else 0]
    ensures LastFlag(u, k, default) == b
    decreases |u|
  {
    if u[0].kind == k {
      assert u[0].data == [if b then 1 else 0];
      NoneCounted(u[1..], k, b);
    } else {
      forall i | 0 <= i < |u[1..]| && u[1..][i].kind == k ensures u[1..][i].data == [if b then 1 else 0] {
        assert u[1..][i] == u[i + 1];
      }
      OnceLast(u[1..], k, b, default);
    }
  }

  // A new object has the flags its template asks for.
  lemma CreatedFlag(schemas: Schemas, x: Session, op: Op, objClass: nat, keyType: nat, onToken: bool, isPrivate: bool,
                    t: seq<Entry>, k: Kind)
    requires SoundSchemas(schemas) && x.schemas == schemas && !op.OpCreate?
    requires CreateIn(x, op, objClass, keyType, onToken, isPrivate, t).rv == CKR_OK
    requires k in schemas(objClass, keyType).value && SetsFlag(schemas(objClass, keyType).value[k].rule)
    ensures var r := CreateIn(x, op, objClass, keyType, onToken, isPrivate, t).obj;
      r.Some? && IsFlag(r.value.attrs, k)
      && r.value.attrs[k].b == LastFlag(t, k, schemas(objClass, keyType).value[k].default == Flag(true))
  {
    var s := schemas(objClass, keyType).value;
    var c, o := Call(x, isPrivate, op), Rewrite(NewObj(onToken), Initialised(s, objClass, keyType, map[]));
    assert o.attrs[k] == s[k].default;
    SavedInFull(s, c, o, t);
    FlagApplied(s, c, 0, o.attrs, t, k);
  }

  lemma FinishedFlag(x: Session, isPrivate: bool, r: Made, m: Material, ok: bool, k: Kind)
    requires r.rv == CKR_OK && r.obj.Some? && IsFlag(r.obj.value.attrs, k)
    requires k != CKA_LOCAL && k != CKA_ALWAYS_SENSITIVE && k != CKA_NEVER_EXTRACTABLE
    requires forall p :: p in m ==> p.0 != k
    ensures var f := FinishKey(x, Unwrapped, isPrivate, r, m, ok);
      f.rv == CKR_OK ==> f.obj.Some? && IsFlag(f.obj.value.attrs, k) && f.obj.value.attrs[k] == r.obj.value.attrs[k]
  {
    FilledFrame(x, isPrivate, WithHistory(Unwrapped, r.obj.value.attrs), m, k);
  }

  lemma KeyHasFlag(schemas: Schemas, x: Session, objClass: nat, keyType: nat, onToken: bool, isPrivate: bool,
                   t: seq<Entry>, d: KeyData, k: Kind, b: bool)
    requires SoundSchemas(schemas) && x.schemas == schemas && Unreserved(t)
    requires Representable(objClass) && Representable(keyType)
    requires LastFlag(KeyTemplate(objClass, keyType, onToken, isPrivate, t), k, false) == b
    requires LastFlag(KeyTemplate(objClass, keyType, onToken, isPrivate, t), k, true) == b
    requires KeyResult(x, Unwrapped, objClass, keyType, onToken, isPrivate, t, d.m, d.ok).rv == CKR_OK
    requires schemas(objClass, keyType).Some? && k in schemas(objClass, keyType).value
    requires SetsFlag(schemas(objClass, keyType).value[k].rule) && forall p :: p in d.m ==> p.0 != k
    ensures var r := KeyResult(x, Unwrapped, objClass, keyType, onToken, isPrivate, t, d.m, d.ok).obj;
      r.Some? && k in r.value.attrs && r.value.attrs[k] == Flag(b)
  {
    var u := KeyTemplate(objClass, keyType, onToken, isPrivate, t);
    var s := schemas(objClass, keyType).value;
    assert Named(s[k].rule, k);
    CreateAnswers(x, OpUnwrap, u);
    ClassKept(objClass, keyType, onToken, isPrivate, t);
    CreatedFlag(schemas, x, OpUnwrap, objClass, keyType, LastFlag(u, CKA_TOKEN, false), LastFlag(u, CKA_PRIVATE, true),
                Reordered(u), k);
    ReorderedLast(u, k, s[k].default == Flag(true));
    FinishedFlag(x, isPrivate, CreateResult(x, OpUnwrap, u), d.m, d.ok, k);
  }

  function TemplateFor(t: seq<Entry>, objClass: nat, keyType: nat): seq<Entry> {
    KeyTemplate(objClass, keyType, AskedBy(t).onToken, AskedBy(t).isPrivate, PassedOn(t, true))
  }

  lemma UnwrapAnswers(x: Session, wrapping: Attrs, t: seq<Entry>, d: KeyData)
    requires UnwrapResult(x, wrapping, t, Some(d)).rv == CKR_OK
    ensures var q := AskedBy(t);
      q.objClass.Some? && q.keyType.Some?
      && Obeys(UnwrapTemplate(wrapping), TemplateFor(t, q.objClass.value, q.keyType.value)) == true
      && UnwrapResult(x, wrapping, t, Some(d)) == KeyResult(x, Unwrapped, q.objClass.value, q.keyType.value,
           q.onToken, q.isPrivate, PassedOn(t, true), d.m, d.ok)
  {
  }

  function SchemaAsked(schemas: Schemas, q: Asked): Option<Schema> {
    if q.objClass.Some? && q.keyType.Some? then schemas(q.objClass.value, q.keyType.value) else None
  }

  // What a template that obeys another one asks for a flag.
  lemma ObeyedFlag(template: map<Kind, Simple>, u: seq<Entry>, k: Kind, b: bool)
    requires Obeys(template, u) && k in template && template[k] == Bit(b)
    ensures LastFlag(u, k, false) == b && LastFlag(u, k, true) == b
  {
    OnceLast(u, k, b, false);
    OnceLast(u, k, b, true);
  }

  // An unwrapped key obeys the unwrap template: when C_UnwrapKey succeeds, every flag in the
  // template of the unwrapping key has that value on the new key.
  lemma TemplateEnforced(schemas: Schemas, x: Session, wrapping: Attrs, t: seq<Entry>, d: KeyData, k: Kind, b: bool)
    requires SoundSchemas(schemas) && x.schemas == schemas
    requires k in UnwrapTemplate(wrapping) && UnwrapTemplate(wrapping)[k] == Bit(b)
    requires UnwrapResult(x, wrapping, t, Some(d)).rv == CKR_OK
    requires var s := SchemaAsked(schemas, AskedBy(t));
      s.Some? && k in s.value && SetsFlag(s.value[k].rule) && forall p :: p in d.m ==> p.0 != k
    ensures var r := UnwrapResult(x, wrapping, t, Some(d)).obj;
      r.Some? && k in r.value.attrs && r.value.attrs[k] == Flag(b)
  {
    UnwrapAnswers(x, wrapping, t, d);
    var q := AskedBy(t);
    ObeyedFlag(UnwrapTemplate(wrapping), TemplateFor(t, q.objClass.value, q.keyType.value), k, b);
    NumberFromBytes(t, CKA_CLASS, None);
    NumberFromBytes(t, CKA_KEY_TYPE, None);
    PassedUnreserved(t, true);
    KeyHasFlag(schemas, x, q.objClass.value, q.keyType.value, q.onToken, q.isPrivate, PassedOn(t, true), d, k, b);
  }

  // ---------- strings, class and key type ----------

  lemma {:induction false} NoneCountedWritten(u: seq<Entry>, k: Kind, v: bytes)
    requires Count(u, k) == 0
    ensures LastWritten(NoCheck, u, k, v) == v
    decreases |u|
  {
    if u != [] {
      NoneCountedWritten(u[1..], k, v);
    }
  }

  lemma {:induction false} OnceWritten(u: seq<Entry>, k: Kind, d: bytes, v: bytes)
    requires Count(u, k) == 1
    requires forall i :: 0 <= i < |u| && u[i].kind == k ==> u[i].data == d
    ensures LastWritten(NoCheck, u, k, v) == d
    decreases |u|
  {
    if u[0].kind == k {
      assert u[0].data == d;
      NoneCountedWritten(u[1..], k, d);
    } else {
      forall i | 0 <= i < |u[1..]| && u[1..][i].kind == k ensures u[1..][i].data == d {
        assert u[1..][i] == u[i + 1];
      }
      OnceWritten(u[1..], k, d, v);
    }
  }

  lemma {:induction false} NoPartWritten(x: Session, isPrivate: bool, m: Material, k: Kind, v: bytes)
    requires forall p :: p in m ==> p.0 != k
    ensures PartWritten(x, isPrivate, m, k, v) == v
    decreases |m|
  {
    if m != [] {
      assert m[0] in m;
      NoPartWritten(x, isPrivate, m[1..], k, v);
    }
  }

  lemma ObeyedString(template: map<Kind, Simple>, u: seq<Entry>, k: Kind, v: bytes)
    requires Obeys(template, u) && k in template && template[k] == Text(v)
    ensures GivenFor(NoCheck, u, k) == v
  {
    OnceWritten(u, k, v, []);
  }

  lemma KeyHasString(schemas: Schemas, x: Session, objClass: nat, keyType: nat, onToken: bool, isPrivate: bool,
                     t: seq<Entry>, d: KeyData, k: Kind, v: bytes)
    requires SoundSchemas(schemas) && x.schemas == schemas && Lawful(x.token) && Unreserved(t) && IsMaterial(d.m)
    requires GivenFor(NoCheck, KeyTemplate(objClass, keyType, onToken, isPrivate, t), k) == v
    requires KeyResult(x, Unwrapped, objClass, keyType, onToken, isPrivate, t, d.m, d.ok).rv == CKR_OK
    requires forall p :: p in d.m ==> p.0 != k
    ensures var r := KeyResult(x, Unwrapped, objClass, keyType, onToken, isPrivate, t, d.m, d.ok).obj;
      r.Some? && HoldsNow(x.token.decrypt, r.value.attrs, k, v) == true
  {
    KeyHolds(schemas, x, Unwrapped, objClass, keyType, onToken, isPrivate, t, d.m, d.ok, k);
    NoPartWritten(x, isPrivate, d.m, k, v);
  }

  // So has every string in it that is not a part of the key itself, whether it is encrypted or not.
  lemma StringEnforced(schemas: Schemas, x: Session, wrapping: Attrs, t: seq<Entry>, d: KeyData, k: Kind, v: bytes)
    requires SoundSchemas(schemas) && x.schemas == schemas && Lawful(x.token) && IsMaterial(d.m)
    requires k in UnwrapTemplate(wrapping) && UnwrapTemplate(wrapping)[k] == Text(v)
    requires UnwrapResult(x, wrapping, t, Some(d)).rv == CKR_OK && forall p :: p in d.m ==> p.0 != k
    ensures var r := UnwrapResult(x, wrapping, t, Some(d)).obj;
      r.Some? && HoldsNow(x.token.decrypt, r.value.attrs, k, v) == true
  {
    UnwrapAnswers(x, wrapping, t, d);
    var q := AskedBy(t);
    PassedUnreserved(t, true);
    ObeyedString(UnwrapTemplate(wrapping), TemplateFor(t, q.objClass.value, q.keyType.value), k, v);
    KeyHasString(schemas, x, q.objClass.value, q.keyType.value, q.onToken, q.isPrivate, PassedOn(t, true), d, k, v);
  }

  // And class and key type are those it asks for.
  lemma ClassEnforced(schemas: Schemas, x: Session, wrapping: Attrs, t: seq<Entry>, d: KeyData, k: Kind, n: nat)
    requires SoundSchemas(schemas) && x.schemas == schemas && IsMaterial(d.m)
    requires k == CKA_CLASS || k == CKA_KEY_TYPE
    requires k in UnwrapTemplate(wrapping) && UnwrapTemplate(wrapping)[k] == Word(n) && Representable(n)
    requires UnwrapResult(x, wrapping, t, Some(d)).rv == CKR_OK
    ensures var r := UnwrapResult(x, wrapping, t, Some(d)).obj;
      r.Some? && (if k == CKA_CLASS then ClassOf(r.value.attrs) else KeyTypeOf(r.value.attrs)) == n
  {
    UnwrapAnswers(x, wrapping, t, d);
    var q := AskedBy(t);
    var u := TemplateFor(t, q.objClass.value, q.keyType.value);
    assert u[0] == NumberEntry(CKA_CLASS, q.objClass.value) && u[3] == NumberEntry(CKA_KEY_TYPE, q.keyType.value);
    PassedUnreserved(t, true);
    NumberFromBytes(t, CKA_CLASS, None);
    NumberFromBytes(t, CKA_KEY_TYPE, None);
    KeyClass(schemas, x, q.objClass.value, q.keyType.value, q.onToken, q.isPrivate, PassedOn(t, true), d);
  }

  lemma KeyClass(schemas: Schemas, x: Session, objClass: nat, keyType: nat, onToken: bool, isPrivate: bool,
                 t: seq<Entry>, d: KeyData)
    requires SoundSchemas(schemas) && x.schemas == schemas && Unreserved(t) && IsMaterial(d.m)
    requires Representable(objClass) && Representable(keyType)
    ensures var r := KeyResult(x, Unwrapped, objClass, keyType, onToken, isPrivate, t, d.m, d.ok);
      r.rv == CKR_OK ==>
        r.obj.Some? && ClassOf(r.obj.value.attrs) == objClass && KeyTypeOf(r.obj.value.attrs) == keyType
  {
    var u := KeyTemplate(objClass, keyType, onToken, isPrivate, t);
    CreatedAs(schemas, x, objClass, keyType, u, LastFlag(u, CKA_TOKEN, false), LastFlag(u, CKA_PRIVATE, true));
    ClassKept(objClass, keyType, onToken, isPrivate, t);
    FinishedClass(x, Unwrapped, isPrivate, CreateResult(x, OpUnwrap, u), d.m, d.ok);
  }

  lemma CreatedAs(schemas: Schemas, x: Session, objClass: nat, keyType: nat, u: seq<Entry>, onToken: bool, isPrivate: bool)
    requires SoundSchemas(schemas) && x.schemas == schemas
    requires onToken == LastFlag(u, CKA_TOKEN, false) && isPrivate == LastFlag(u, CKA_PRIVATE, true)
    ensures var r := CreateResult(x, OpUnwrap, u);
      r.rv == CKR_OK && LastNumber(u, CKA_CLASS, None) == Some(objClass) && LastNumber(u, CKA_KEY_TYPE, None) == Some(keyType)
      ==> r.obj.Some? && ClassOf(r.obj.value.attrs) == objClass && KeyTypeOf(r.obj.value.attrs) == keyType
  {
    CreateAnswers(x, OpUnwrap, u);
    CreatedClass(schemas, x, OpUnwrap, objClass, keyType, onToken, isPrivate, Reordered(u));
  }
}
