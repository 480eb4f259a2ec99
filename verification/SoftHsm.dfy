// The PKCS#11 calls on key objects at work: creating, setting, copying, generating, deriving and
// unwrapping, each proved against its function in KeyCalls.dfy.
module SoftHsm {
  import opened Bytes
  import opened Attributes
  import opened UpdateRules
  import opened Objects
  import opened P11Objects
  import opened KeyCalls

  // ---------- reading a template ----------

  method ReadFlag(t: seq<Entry>, k: Kind, default: bool) returns (b: bool)
    ensures b == LastFlag(t, k, default)
  {
    b := default;
    for i := 0 to |t|
      invariant LastFlag(t, k, default) == LastFlag(t[i..], k, b)
    {
      assert t[i..][1..] == t[i + 1..];
      if t[i].kind == k && |t[i].data| == 1 {
        b := t[i].data[0] != 0;
      }
    }
  }

  method ReadClass(t: seq<Entry>, k: Kind) returns (n: Option<nat>)
    ensures n == LastNumber(t, k, None)
  {
    n := None;
    for i := 0 to |t|
      invariant LastNumber(t, k, None) == LastNumber(t[i..], k, n)
    {
      assert t[i..][1..] == t[i + 1..];
      if t[i].kind == k && |t[i].data| == 8 {
        n := Some(ReadNumber(t[i].data));
      }
    }
  }

  lemma {:induction false} OnlyNext(t: seq<Entry>, e: Entry, keep: Entry -> bool)
    ensures Only(t + [e], keep) == Only(t, keep) + if keep(e) then [e] else []
    decreases |t|
  {
    var last := if keep(e) then [e] else [];
    if t == [] {
      assert t + [e] == [e] && [e][1..] == [];
      assert Only([e], keep) == last + Only([], keep) == last;
    } else {
      var first := if keep(t[0]) then [t[0]] else [];
      assert (t + [e])[1..] == t[1..] + [e];
      OnlyNext(t[1..], e, keep);
      assert Only(t + [e], keep) == first + (Only(t[1..], keep) + last) == (first + Only(t[1..], keep)) + last;
    }
  }

  // The check values after everything else.
  method Reorder(t: seq<Entry>) returns (u: seq<Entry>)
    ensures u == Reordered(t)
  {
    ghost var others, checks := (e: Entry) => e.kind != CKA_CHECK_VALUE, (e: Entry) => e.kind == CKA_CHECK_VALUE;
    var attribs, saved: seq<Entry> := [], [];
    for i := 0 to |t|
      invariant attribs == Only(t[..i], others) && saved == Only(t[..i], checks)
    {
      OnlyNext(t[..i], t[i], others);
      OnlyNext(t[..i], t[i], checks);
      assert t[..i] + [t[i]] == t[..i + 1];
      if t[i].kind == CKA_CHECK_VALUE {
        saved := saved + [t[i]];
      } else {
        attribs := attribs + [t[i]];
      }
    }
    assert t[..|t|] == t;
    u := attribs + saved;
  }

  method PassOn(t: seq<Entry>, checkValueToo: bool) returns (u: seq<Entry>)
    ensures u == PassedOn(t, checkValueToo)
  {
    ghost var keep := (e: Entry) =>
      e.kind != CKA_CLASS && e.kind != CKA_TOKEN && e.kind != CKA_PRIVATE && e.kind != CKA_KEY_TYPE
      && (checkValueToo || e.kind != CKA_CHECK_VALUE);
    u := [];
    for i := 0 to |t|
      invariant u == Only(t[..i], keep)
    {
      OnlyNext(t[..i], t[i], keep);
      assert t[..i] + [t[i]] == t[..i + 1];
      var k := t[i].kind;
      if k == CKA_CLASS || k == CKA_TOKEN || k == CKA_PRIVATE || k == CKA_KEY_TYPE
         || (!checkValueToo && k == CKA_CHECK_VALUE) {
        continue;
      }
      u := u + [t[i]];
    }
    assert t[..|t|] == t;
  }

  // ---------- init ----------

  // Attributes a with defaults for those of the schema in `done` that are missing.
  function Defaulted(s: Schema, done: set<Kind>, a: Attrs): Attrs {
    (map k | k in done * s.Keys :: s[k].default) + a
  }

  lemma DefaultedNext(s: Schema, done: set<Kind>, a: Attrs, k: Kind)
    requires k in s && k !in done
    ensures var b := Defaulted(s, done, a);
      Defaulted(s, done + {k}, a) == if k in b then b else b[k := s[k].default]
  {
  }

  lemma DefaultedAll(s: Schema, objClass: nat, keyType: nat, a: Attrs)
    ensures Defaulted(s, s.Keys, a[CKA_CLASS := Number(objClass)][CKA_KEY_TYPE := Number(keyType)])
         == Initialised(s, objClass, keyType, a)
  {
  }

  // The init chain: class and key type as the chain fixes them, then a default for every attribute
  // that does not exist yet.
  method InitObject(o: OSObject, s: Schema, objClass: nat, keyType: nat)
    modifies o
    ensures o.State() == Rewrite(old(o.State()), Initialised(s, objClass, keyType, old(o.attributes)))
  {
    o.SetAttribute(CKA_CLASS, Number(objClass));
    o.SetAttribute(CKA_KEY_TYPE, Number(keyType));
    ghost var a := o.attributes;
    var rest := s.Keys;
    while rest != {}
      invariant rest <= s.Keys
      invariant o.State() == Rewrite(old(o.State()), o.attributes)
      invariant o.attributes == Defaulted(s, s.Keys - rest, a)
    {
      var k :| k in rest;
      DefaultedNext(s, s.Keys - rest, a, k);
      assert s.Keys - rest + {k} == s.Keys - (rest - {k});
      if k !in o.attributes {
        o.SetAttribute(k, s[k].default);
      }
      rest := rest - {k};
    }
    assert s.Keys - rest == s.Keys;
    DefaultedAll(s, objClass, keyType, old(o.attributes));
  }

  // Wraps a P11Object around an object and saves a template to it.
  method SaveToObject(x: Session, isPrivate: bool, op: Op, o: OSObject, t: seq<Entry>) returns (rv: Rv)
    modifies o
    ensures Saving(rv, o.State()) == SaveObject(x, isPrivate, op, old(o.State()), t)
  {
    var objClass, keyType := ClassOf(o.attributes), KeyTypeOf(o.attributes);
    match x.schemas(objClass, keyType) {
      case None => return CKR_ATTRIBUTE_VALUE_INVALID;
      case Some(s) =>
        InitObject(o, s, objClass, keyType);
        rv := SaveTemplateTo(o, s, Call(x, isPrivate, op), t);
    }
  }

  // ---------- C_SetAttributeValue ----------

  method SetAttributeValue(x: Session, o: OSObject, t: seq<Entry>) returns (rv: Rv)
    modifies o
    ensures Saving(rv, o.State()) == SetResult(x, old(o.State()), t)
  {
    var isPrivate := GetBool(o.attributes, CKA_PRIVATE, true);
    rv := x.haveWrite(GetBool(o.attributes, CKA_TOKEN, false), isPrivate);
    if rv != CKR_OK {
      return;
    }
    if !GetBool(o.attributes, CKA_MODIFIABLE, true) {
      return CKR_ACTION_PROHIBITED;
    }
    rv := SaveToObject(x, isPrivate, OpSet, o, t);
  }

  // ---------- C_CopyObject ----------

  // Every attribute of one object into a new one, encrypting strings where the copy becomes private.
  method CopyAttributes(x: Session, upgrade: bool, from: OSObject, to: OSObject) returns (ok: bool)
    requires from != to && to.attributes == map[] && to.Buffered()
    modifies to
    ensures ok == Copies(x, upgrade, from.attributes)
    ensures ok ==> to.State() == old(to.State()).(attrs := CopiedAttrs(x, upgrade, from.attributes))
  {
    var a := from.attributes;
    var rest := a.Keys;
    while rest != {}
      invariant rest <= a.Keys && to.Buffered()
      invariant forall k :: k in a && k !in rest ==> CopiedValue(x, upgrade, k, a[k]).Some?
      invariant to.State() == old(to.State()).(attrs := to.attributes) && to.attributes.Keys == a.Keys - rest
      invariant forall k :: k in to.attributes ==> CopiedValue(x, upgrade, k, a[k]) == Some(to.attributes[k])
    {
      var k :| k in rest;
      var v := a[k];
      if upgrade && v.Str? && v.s != [] {
        match x.token.encrypt(ForKind(k), v.s) {
          case None => return false;
          case Some(e) => to.SetAttribute(k, Str(e));
        }
      } else {
        to.SetAttribute(k, v);
      }
      rest := rest - {k};
    }
    assert Copies(x, upgrade, a) && to.attributes == CopiedAttrs(x, upgrade, a);
    ok := true;
  }

  ghost function Left(rv: Rv, o: OSObject?): Made
    reads o
  {
    Made(rv, if o == null then None else Some(o.State()))
  }

  method CopyObject(x: Session, o: OSObject, t: seq<Entry>) returns (rv: Rv, copy: OSObject?)
    ensures copy != null ==> fresh(copy)
    ensures Left(rv, copy) == CopyResult(x, o.State(), t)
  {
    copy := null;
    var wasOnToken := GetBool(o.attributes, CKA_TOKEN, false);
    var wasPrivate := GetBool(o.attributes, CKA_PRIVATE, true);
    rv := x.haveRead(wasOnToken, wasPrivate);
    if rv != CKR_OK {
      return;
    }
    if !GetBool(o.attributes, CKA_COPYABLE, true) {
      return CKR_ACTION_PROHIBITED, null;
    }
    var onToken := ReadFlag(t, CKA_TOKEN, wasOnToken);
    var isPrivate := ReadFlag(t, CKA_PRIVATE, wasPrivate);
    if wasPrivate && !isPrivate {
      return CKR_TEMPLATE_INCONSISTENT, null;
    }
    rv := x.haveWrite(onToken, isPrivate);
    if rv != CKR_OK {
      return;
    }
    rv, copy := CopyTo(x, o, onToken, isPrivate, !wasPrivate && isPrivate, t);
  }

  method CopyTo(x: Session, o: OSObject, onToken: bool, isPrivate: bool, upgrade: bool, t: seq<Entry>)
    returns (rv: Rv, copy: OSObject?)
    ensures copy != null ==> fresh(copy)
    ensures Left(rv, copy) == CopyInto(x, o.State(), onToken, isPrivate, upgrade, t)
  {
    if CKA_CLASS !in o.attributes {
      return CKR_FUNCTION_FAILED, null;
    }
    var newobject := new OSObject(onToken);
    var started := newobject.StartTransaction();
    var copied := CopyAttributes(x, upgrade, o, newobject);
    if !copied {
      return CKR_FUNCTION_FAILED, null;
    }
    newobject.CommitTransaction();
    assert newobject.State() == Rewrite(NewObj(onToken), CopiedAttrs(x, upgrade, o.attributes));
    rv := SaveToObject(x, isPrivate, OpCopy, newobject, t);
    copy := if rv == CKR_OK then newobject else null;
  }

  // ---------- CreateObject ----------

  method ExtractObjectInformation(t: seq<Entry>) returns (q: Asked)
    ensures q == AskedBy(t)
  {
    var objClass := ReadClass(t, CKA_CLASS);
    var keyType := ReadClass(t, CKA_KEY_TYPE);
    var onToken := ReadFlag(t, CKA_TOKEN, false);
    var isPrivate := ReadFlag(t, CKA_PRIVATE, true);
    q := Asked(objClass, keyType, onToken, isPrivate);
  }

  method CheckCreate(x: Session, q: Asked, n: nat) returns (rv: Rv)
    ensures rv == Refusal(x, q, n)
  {
    if q.objClass == None || (NeedsKeyType(q.objClass.value) && q.keyType == None) {
      return CKR_TEMPLATE_INCOMPLETE;
    }
    rv := x.haveWrite(q.onToken, q.isPrivate);
    if rv == CKR_OK && n > 32 {
      rv := CKR_TEMPLATE_INCONSISTENT;
    }
  }

  method CreateObject(x: Session, op: Op, t: seq<Entry>) returns (rv: Rv, made: OSObject?)
    ensures made != null ==> fresh(made)
    ensures Left(rv, made) == CreateResult(x, op, t)
  {
    var q := ExtractObjectInformation(t);
    rv := CheckCreate(x, q, |t|);
    if rv != CKR_OK {
      return rv, null;
    }
    var u := Reorder(t);
    rv, made := CreateNew(x, op, q.objClass.value, if q.keyType.Some? then q.keyType.value else CKK_RSA,
                          q.onToken, q.isPrivate, u);
  }

  method CreateNew(x: Session, op: Op, objClass: nat, keyType: nat, onToken: bool, isPrivate: bool, t: seq<Entry>)
    returns (rv: Rv, made: OSObject?)
    ensures made != null ==> fresh(made)
    ensures Left(rv, made) == CreateIn(x, op, objClass, keyType, onToken, isPrivate, t)
  {
    match x.schemas(objClass, keyType) {
      case None => return CKR_ATTRIBUTE_VALUE_INVALID, null;
      case Some(s) =>
        var o := new OSObject(onToken);
        InitObject(o, s, objClass, keyType);
        rv := SaveTemplateTo(o, s, Call(x, isPrivate, op), t);
        made := o;
        if rv == CKR_OK && op.OpCreate? {
          MarkBroughtIn(o);
        }
    }
  }

  method MarkBroughtIn(o: OSObject)
    requires !(o.onToken && o.inTransaction)
    modifies o
    ensures o.State() == Rewrite(old(o.State()), BroughtIn(old(o.attributes)))
  {
    var started := o.StartTransaction();
    o.SetAttribute(CKA_LOCAL, Flag(false));
    o.SetAttribute(CKA_ALWAYS_SENSITIVE, Flag(false));
    o.SetAttribute(CKA_NEVER_EXTRACTABLE, Flag(false));
    o.CommitTransaction();
  }

  // ---------- keys made by the token ----------

  method FillMaterial(x: Session, isPrivate: bool, o: OSObject, m: Material)
    requires o.Buffered()
    modifies o
    ensures o.State() == old(o.State()).(attrs := Filled(x, isPrivate, old(o.attributes), m))
  {
    var i := 0;
    assert m[0..] == m;
    while i < |m|
      invariant 0 <= i <= |m| && o.Buffered()
      invariant o.State() == old(o.State()).(attrs := o.attributes)
      invariant Filled(x, isPrivate, old(o.attributes), m) == Filled(x, isPrivate, o.attributes, m[i..])
    {
      assert m[i..][1..] == m[i + 1..];
      var value: bytes := [];
      if isPrivate {
        match x.token.encrypt(ForKind(m[i].0), m[i].1) {
          case None =>
          case Some(e) => value := e;
        }
      } else {
        value := m[i].1;
      }
      o.SetAttribute(m[i].0, Str(value));
      i := i + 1;
    }
  }

  // What a new key says about where it comes from.
  method WriteHistory(origin: Origin, o: OSObject)
    requires o.Buffered()
    modifies o
    ensures o.State() == old(o.State()).(attrs := WithHistory(origin, old(o.attributes)))
  {
    var alwaysSensitive, neverExtractable := false, false;
    o.SetAttribute(CKA_LOCAL, Flag(origin.Generated?));
    match origin {
      case Generated(mechanism) =>
        o.SetAttribute(CKA_KEY_GEN_MECHANISM, Number(mechanism));
        alwaysSensitive := GetBool(o.attributes, CKA_SENSITIVE, false);
        neverExtractable := !GetBool(o.attributes, CKA_EXTRACTABLE, false);
      case Derived(base) =>
        if GetBool(base, CKA_ALWAYS_SENSITIVE, false) {
          alwaysSensitive := GetBool(o.attributes, CKA_SENSITIVE, false);
        }
        if GetBool(base, CKA_NEVER_EXTRACTABLE, true) {
          neverExtractable := !GetBool(o.attributes, CKA_EXTRACTABLE, false);
        }
      case Unwrapped =>
    }
    o.SetAttribute(CKA_ALWAYS_SENSITIVE, Flag(alwaysSensitive));
    o.SetAttribute(CKA_NEVER_EXTRACTABLE, Flag(neverExtractable));
  }

  // The second transaction on a new key.
  method FinishObject(x: Session, origin: Origin, isPrivate: bool, o: OSObject, m: Material)
    requires !(o.onToken && o.inTransaction)
    modifies o
    ensures o.State() == Rewrite(old(o.State()), Filled(x, isPrivate, WithHistory(origin, old(o.attributes)), m))
  {
    var started := o.StartTransaction();
    WriteHistory(origin, o);
    FillMaterial(x, isPrivate, o, m);
    o.CommitTransaction();
  }

  // A new object that was saved successfully is not in a transaction.
  lemma CreatedSettled(x: Session, op: Op, t: seq<Entry>)
    ensures var r := CreateResult(x, op, t);
      r.rv == CKR_OK ==> r.obj.Some? && !(r.obj.value.onToken && r.obj.value.busy)
  {
    var objClass, keyType := LastNumber(t, CKA_CLASS, None), LastNumber(t, CKA_KEY_TYPE, None);
    if objClass.Some? {
      var k := if keyType.Some? then keyType.value else CKK_RSA;
      if x.schemas(objClass.value, k).Some? {
        var isPrivate := LastFlag(t, CKA_PRIVATE, true);
        var s := x.schemas(objClass.value, k).value;
        var o := Rewrite(NewObj(LastFlag(t, CKA_TOKEN, false)), Initialised(s, objClass.value, k, map[]));
        SavedFree(s, Call(x, isPrivate, op), o, Reordered(t));
      }
    }
  }

  lemma SavedFree(s: Schema, c: Call, o: Obj, t: seq<Entry>)
    ensures var r := SaveTemplate(s, c, o, t);
      r.rv == CKR_OK ==> !(r.obj.onToken && r.obj.busy)
  {
  }

  method MakeKey(x: Session, origin: Origin, objClass: nat, keyType: nat, onToken: bool, isPrivate: bool,
                 t: seq<Entry>, m: Material, ok: bool) returns (rv: Rv, key: OSObject?)
    ensures key != null ==> fresh(key)
    ensures Left(rv, key) == KeyResult(x, origin, objClass, keyType, onToken, isPrivate, t, m, ok)
  {
    var u := KeyTemplate(objClass, keyType, onToken, isPrivate, t);
    CreatedSettled(x, OpOf(origin), u);
    rv, key := CreateObject(x, OpOf(origin), u);
    if rv != CKR_OK {
      return;
    }
    if !ok {
      return CKR_FUNCTION_FAILED, null;
    }
    FinishObject(x, origin, isPrivate, key, m);
  }

  method ScanTemplate(derive: bool, t: seq<Entry>) returns (s: Scan)
    ensures s == Scanned(derive, START, t)
  {
    s := START;
    var i := 0;
    assert t[0..] == t;
    while i < |t|
      invariant 0 <= i <= |t| && s.rv == CKR_OK
      invariant Scanned(derive, START, t) == Scanned(derive, s, t[i..])
    {
      assert t[i..][1..] == t[i + 1..];
      var e := t[i];
      if derive && e.kind == CKA_VALUE {
        return s.(rv := CKR_ATTRIBUTE_READ_ONLY);
      }
      if e.kind == CKA_VALUE_LEN {
        if |e.data| != 8 {
          return s.(rv := CKR_ATTRIBUTE_VALUE_INVALID);
        }
        s := s.(length := ReadNumber(e.data));
      } else if e.kind == CKA_CHECK_VALUE {
        if |e.data| > 0 {
          return s.(rv := CKR_ATTRIBUTE_VALUE_INVALID);
        }
        s := s.(checkValue := false);
      }
      i := i + 1;
    }
  }

  method GenerateAes(x: Session, onToken: bool, isPrivate: bool, t: seq<Entry>, random: nat -> bytes)
    returns (rv: Rv, key: OSObject?)
    ensures key != null ==> fresh(key)
    ensures Left(rv, key) == AesResult(x, onToken, isPrivate, t, random)
  {
    var s := ScanTemplate(false, t);
    if s.rv != CKR_OK {
      return s.rv, null;
    }
    if s.length == 0 {
      return CKR_TEMPLATE_INCOMPLETE, null;
    }
    if s.length != 16 && s.length != 24 && s.length != 32 {
      return CKR_ATTRIBUTE_VALUE_INVALID, null;
    }
    if |t| > 28 {
      return CKR_TEMPLATE_INCONSISTENT, null;
    }
    var value := random(s.length);
    var u := PassOn(t, false);
    rv, key := MakeKey(x, Generated(CKM_AES_KEY_GEN), CKO_SECRET_KEY, CKK_AES, onToken, isPrivate, u,
                       ValueAndCheck(value, x.kcv(CKK_AES, value), s.checkValue), true);
  }

  method Truncate(secret: bytes, byteLen: nat, keyType: nat, parity: bytes -> bytes) returns (value: bytes)
    requires byteLen <= |secret|
    ensures value == LastBytes(secret, byteLen, keyType, parity)
  {
    value := secret[|secret| - byteLen..];
    if IsDesKey(keyType) {
      value := parity(value);
    }
  }

  method DeriveDh(x: Session, base: OSObject, keyType: nat, onToken: bool, isPrivate: bool, t: seq<Entry>,
                  secret: Option<bytes>, parity: bytes -> bytes) returns (rv: Rv, key: OSObject?)
    ensures key != null ==> fresh(key)
    ensures Left(rv, key) == DeriveResult(x, base.attributes, keyType, onToken, isPrivate, t, secret, parity)
  {
    var s := ScanTemplate(true, t);
    if s.rv != CKR_OK {
      return s.rv, null;
    }
    var (lengthRv, byteLen) := DerivedLength(keyType, s.length);
    if lengthRv != CKR_OK {
      return lengthRv, null;
    }
    if |t| > 28 {
      return CKR_TEMPLATE_INCONSISTENT, null;
    }
    if secret == None {
      return CKR_GENERAL_ERROR, null;
    }
    var u := PassOn(t, false);
    var ok := byteLen <= |secret.value|;
    var value: bytes := [];
    if ok {
      value := Truncate(secret.value, byteLen, keyType, parity);
    }
    rv, key := MakeKey(x, Derived(base.attributes), CKO_SECRET_KEY, keyType, onToken, isPrivate, u,
                       ValueAndCheck(value, x.kcv(keyType, CheckedBytes(secret.value, byteLen, keyType)), s.checkValue), ok);
  }

  // ---------- C_UnwrapKey ----------

  lemma {:induction false} CountNext(u: seq<Entry>, e: Entry, k: Kind)
    ensures Count(u + [e], k) == Count(u, k) + if e.kind == k then 1 else 0
    decreases |u|
  {
    if u == [] {
      assert u + [e] == [e];
    } else {
      assert (u + [e])[1..] == u[1..] + [e];
      CountNext(u[1..], e, k);
    }
  }

  lemma {:induction false} CountAtMost(u: seq<Entry>, i: nat, k: Kind)
    requires i <= |u|
    ensures Count(u[..i], k) <= Count(u, k)
    decreases |u| - i
  {
    if i < |u| {
      CountNext(u[..i], u[i], k);
      assert u[..i] + [u[i]] == u[..i + 1];
      CountAtMost(u, i + 1, k);
    } else {
      assert u[..i] == u;
    }
  }

  // One attribute of the unwrap template against the template of the new key.
  method CheckOne(k: Kind, value: bytes, u: seq<Entry>) returns (ok: bool)
    ensures ok <==> Count(u, k) == 1 && forall i :: 0 <= i < |u| && u[i].kind == k ==> u[i].data == value
  {
    var found := false;
    for i := 0 to |u|
      invariant Count(u[..i], k) == if found then 1 else 0
      invariant forall j :: 0 <= j < i && u[j].kind == k ==> u[j].data == value
    {
      CountNext(u[..i], u[i], k);
      assert u[..i] + [u[i]] == u[..i + 1];
      CountAtMost(u, i + 1, k);
      if u[i].kind == k {
        if found || u[i].data != value {
          return false;
        }
        found := true;
      }
    }
    assert u[..|u|] == u;
    ok := found;
  }

  method CheckUnwrapTemplate(template: map<Kind, Simple>, u: seq<Entry>) returns (ok: bool)
    ensures ok == Obeys(template, u)
  {
    var rest := template.Keys;
    while rest != {}
      invariant rest <= template.Keys
      invariant forall k :: k in template && k !in rest ==>
        Count(u, k) == 1 && forall i :: 0 <= i < |u| && u[i].kind == k ==> u[i].data == Peeked(template[k])
    {
      var k :| k in rest;
      var one := CheckOne(k, Peeked(template[k]), u);
      if !one {
        return false;
      }
      rest := rest - {k};
    }
    ok := true;
  }

  method CheckUnwrap(x: Session, q: Asked, n: nat) returns (rv: Rv)
    ensures rv == UnwrapRefusal(x, q, n)
  {
    if q.objClass == None || (NeedsKeyType(q.objClass.value) && q.keyType == None) {
      return CKR_TEMPLATE_INCOMPLETE;
    }
    if (q.objClass.value != CKO_SECRET_KEY && q.objClass.value != CKO_PRIVATE_KEY) || q.keyType == None {
      return CKR_ATTRIBUTE_VALUE_INVALID;
    }
    rv := x.haveWrite(q.onToken, q.isPrivate);
    if rv == CKR_OK && n > 28 {
      rv := CKR_TEMPLATE_INCONSISTENT;
    }
  }

  method UnwrapKey(x: Session, wrapping: OSObject, t: seq<Entry>, unwrapped: Option<KeyData>)
    returns (rv: Rv, key: OSObject?)
    ensures key != null ==> fresh(key)
    ensures Left(rv, key) == UnwrapResult(x, wrapping.attributes, t, unwrapped)
  {
    var q := ExtractObjectInformation(t);
    rv := CheckUnwrap(x, q, |t|);
    if rv != CKR_OK {
      return rv, null;
    }
    var passed := PassOn(t, true);
    var u := KeyTemplate(q.objClass.value, q.keyType.value, q.onToken, q.isPrivate, passed);
    var obeys := CheckUnwrapTemplate(UnwrapTemplate(wrapping.attributes), u);
    if !obeys {
      return CKR_TEMPLATE_INCONSISTENT, null;
    }
    if unwrapped == None {
      return CKR_GENERAL_ERROR, null;
    }
    rv, key := MakeKey(x, Unwrapped, q.objClass.value, q.keyType.value, q.onToken, q.isPrivate, passed,
                       unwrapped.value.m, unwrapped.value.ok);
  }

  // ---------- C_WrapKey ----------

  // The wrap template of the wrapping key against the key to be wrapped.
  method CheckWrapTemplate(template: map<Kind, Simple>, key: OSObject) returns (ok: bool)
    ensures ok == MatchesTemplate(template, key.attributes)
  {
    var rest := template.Keys;
    while rest != {}
      invariant rest <= template.Keys
      invariant forall k :: k in template && k !in rest ==>
        k in key.attributes && SameValue(template[k], key.attributes[k])
    {
      var k :| k in rest;
      if k !in key.attributes || !SameValue(template[k], key.attributes[k]) {
        return false;
      }
      rest := rest - {k};
    }
    ok := true;
  }

  // Whether a key may be wrapped.
  method CheckWrap(wrapping: OSObject, key: OSObject) returns (rv: Rv)
    ensures rv == WrapCheck(wrapping.attributes, key.attributes)
  {
    if !GetBool(wrapping.attributes, CKA_WRAP, false) {
      return CKR_KEY_FUNCTION_NOT_PERMITTED;
    }
    if !GetBool(key.attributes, CKA_EXTRACTABLE, false) {
      return CKR_KEY_UNEXTRACTABLE;
    }
    if GetBool(key.attributes, CKA_WRAP_WITH_TRUSTED, false) && !GetBool(wrapping.attributes, CKA_TRUSTED, false) {
      return CKR_KEY_NOT_WRAPPABLE;
    }
    var keyClass := ClassOf(key.attributes);
    if keyClass != CKO_SECRET_KEY && keyClass != CKO_PRIVATE_KEY {
      return CKR_KEY_NOT_WRAPPABLE;
    }
    var matches := CheckWrapTemplate(WrapTemplate(wrapping.attributes), key);
    rv := if matches then CKR_OK else CKR_KEY_NOT_WRAPPABLE;
  }
}
