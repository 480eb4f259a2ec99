// When the calls that make keys succeed: exactly the templates whose entries are taken, one by one,
// and that name everything that is asked for. An entry is taken or not because of what it says and
// of a few entries before it, whatever else has been written.
module Completeness {
  import opened Bytes
  import opened Attributes
  import opened UpdateRules
  import opened KeyPolicy
  import opened Objects
  import opened P11Objects
  import opened KeyCalls
  import opened KeySchema
  import opened Runs
  import opened Storage
  import opened Steps
  import opened Tables
  import opened Acceptance

  // ---------- templates, entry by entry ----------

  function Turned(d: bytes, was: bool): bool { if |d| == 1 then d[0] != 0 else was }

  // Where entry i leaves an object that has taken it.
  function Onward(c: Call, i: nat, v: Standing, e: Entry): Standing {
    if e.kind == CKA_VALUE then
      v.(value := if !c.isPrivate then e.data
                  else
                    match c.session.token.encrypt(ForEntry(i, false), e.data)
                    case Some(stored) => stored
                    case None => [])
    else if e.kind == CKA_MODIFIABLE then v.(modifiable := Turned(e.data, v.modifiable))
    else if e.kind == CKA_COPYABLE then v.(copyable := Turned(e.data, v.copyable))
    else if e.kind == CKA_SENSITIVE then v.(sensitive := Turned(e.data, v.sensitive))
    else if e.kind == CKA_EXTRACTABLE then v.(extractable := Turned(e.data, v.extractable))
    else if e.kind == CKA_WRAP_WITH_TRUSTED then v.(wrapWithTrusted := Turned(e.data, v.wrapWithTrusted))
    else v
  }

  // A template is taken if each entry is, as the entries before it leave the object.
  predicate TakesAll(s: Schema, c: Call, i: nat, v: Standing, t: seq<Entry>)
    decreases |t|
  {
    t == [] || (Takes(s, c, i, v, t[0]) && TakesAll(s, c, i + 1, Onward(c, i, v, t[0]), t[1..]))
  }

  predicate Matters(k: Kind) {
    k == CKA_VALUE || k == CKA_MODIFIABLE || k == CKA_COPYABLE || k == CKA_SENSITIVE || k == CKA_EXTRACTABLE
    || k == CKA_WRAP_WITH_TRUSTED
  }

  lemma SameStanding(a: Attrs, b: Attrs)
    requires SameAt(a, b, CKA_CLASS) && SameAt(a, b, CKA_KEY_TYPE) && forall k :: Matters(k) ==> SameAt(a, b, k)
    ensures StandingOf(b) == StandingOf(a)
  {
    assert Matters(CKA_VALUE) && Matters(CKA_MODIFIABLE) && Matters(CKA_COPYABLE);
    assert Matters(CKA_SENSITIVE) && Matters(CKA_EXTRACTABLE) && Matters(CKA_WRAP_WITH_TRUSTED);
  }

  lemma StandingElsewhere(s: Schema, c: Call, i: nat, a: Attrs, e: Entry)
    requires Proper(s) && !Matters(e.kind)
    ensures StandingOf(Update(s, c, i, a, e).attrs) == StandingOf(a)
  {
    var b := Update(s, c, i, a, e).attrs;
    forall k | Matters(k) || k == CKA_CLASS || k == CKA_KEY_TYPE ensures SameAt(a, b, k) {
      UpdateFrame(s, c, i, a, e, k);
    }
    SameStanding(a, b);
  }

  lemma ValueWritten(c: Call, i: nat, a: Attrs, d: bytes)
    requires SetKeyValue(c, i, a, d).rv == CKR_OK
    ensures Stored(c, ForEntry(i, false), d).Some?
    ensures GetStr(SetKeyValue(c, i, a, d).attrs, CKA_VALUE) == Stored(c, ForEntry(i, false), d).value
  {
  }

  lemma ValueOnward(c: Call, i: nat, a: Attrs, d: bytes)
    requires SetKeyValue(c, i, a, d).rv == CKR_OK
    ensures StandingOf(SetKeyValue(c, i, a, d).attrs) == Onward(c, i, StandingOf(a), Entry(CKA_VALUE, false, d))
  {
    var b := SetKeyValue(c, i, a, d).attrs;
    ValueWritten(c, i, a, d);
    forall k | k == CKA_CLASS || k == CKA_KEY_TYPE || (Matters(k) && k != CKA_VALUE) ensures SameAt(a, b, k) {
      KeyValueFrame(c, i, a, d, k);
    }
    OnlyValue(a, b);
    assert Stored(c, ForEntry(i, false), d) == Sealed(c, ForEntry(i, false), d);
  }

  lemma OnlyValue(a: Attrs, b: Attrs)
    requires forall k :: k == CKA_CLASS || k == CKA_KEY_TYPE || (Matters(k) && k != CKA_VALUE) ==> SameAt(a, b, k)
    ensures StandingOf(b) == StandingOf(a).(value := GetStr(b, CKA_VALUE))
  {
    assert SameAt(a, b, CKA_CLASS) && SameAt(a, b, CKA_KEY_TYPE);
    assert Matters(CKA_MODIFIABLE) && Matters(CKA_COPYABLE);
    assert Matters(CKA_SENSITIVE) && Matters(CKA_EXTRACTABLE) && Matters(CKA_WRAP_WITH_TRUSTED);
  }

  lemma FlagOnward(c: Call, i: nat, a: Attrs, k: Kind, d: bytes)
    requires (k == CKA_MODIFIABLE || k == CKA_WRAP_WITH_TRUSTED) && SetFlag(a, k, d).rv == CKR_OK
    ensures StandingOf(SetFlag(a, k, d).attrs) == Onward(c, i, StandingOf(a), Entry(k, false, d))
  {
  }

  lemma CopyableOnward(c: Call, i: nat, a: Attrs, d: bytes)
    requires SetCopyable(a, d).rv == CKR_OK
    ensures StandingOf(SetCopyable(a, d).attrs) == Onward(c, i, StandingOf(a), Entry(CKA_COPYABLE, false, d))
  {
  }

  lemma SensitiveOnward(c: Call, i: nat, a: Attrs, d: bytes)
    requires SetSensitive(c.op, a, d).rv == CKR_OK
    ensures StandingOf(SetSensitive(c.op, a, d).attrs) == Onward(c, i, StandingOf(a), Entry(CKA_SENSITIVE, false, d))
  {
  }

  lemma ExtractableOnward(c: Call, i: nat, a: Attrs, d: bytes)
    requires SetExtractable(c.op, a, d).rv == CKR_OK
    ensures StandingOf(SetExtractable(c.op, a, d).attrs) == Onward(c, i, StandingOf(a), Entry(CKA_EXTRACTABLE, false, d))
  {
  }

  lemma WriterOnward(c: Call, i: nat, a: Attrs, k: Kind, rule: Rule, d: bytes)
    requires Named(rule, k) && Matters(k) && Writer(k, rule)(c, i, a, d).rv == CKR_OK
    ensures StandingOf(Writer(k, rule)(c, i, a, d).attrs) == Onward(c, i, StandingOf(a), Entry(k, false, d))
  {
    match rule
    case KeyValue => ValueOnward(c, i, a, d);
    case Copyable => CopyableOnward(c, i, a, d);
    case Sensitive => SensitiveOnward(c, i, a, d);
    case Extractable => ExtractableOnward(c, i, a, d);
    case Bool => FlagOnward(c, i, a, k, d);
    case WrapWithTrusted => FlagOnward(c, i, a, k, d);
    case _ =>
  }

  lemma UpdateOnward(s: Schema, c: Call, i: nat, a: Attrs, e: Entry)
    requires Proper(s) && Update(s, c, i, a, e).rv == CKR_OK
    ensures StandingOf(Update(s, c, i, a, e).attrs) == Onward(c, i, StandingOf(a), e)
  {
    if Matters(e.kind) {
      WriterOnward(c, i, a, e.kind, s[e.kind].rule, e.data);
    } else {
      StandingElsewhere(s, c, i, a, e);
    }
  }

  lemma StepTaken(s: Schema, c: Call, i: nat, a: Attrs, e: Entry)
    requires Proper(s)
    ensures var r := Updating(s, c)(i, a, e);
      (r.rv == CKR_OK) == Takes(s, c, i, StandingOf(a), e)
      && (r.rv == CKR_OK ==> StandingOf(r.attrs) == Onward(c, i, StandingOf(a), e))
  {
    UpdateExactly(s, c, i, a, e);
    if Update(s, c, i, a, e).rv == CKR_OK {
      UpdateOnward(s, c, i, a, e);
    }
  }

  // A template succeeds exactly when it is taken.
  lemma {:induction false} AppliedExactly(s: Schema, c: Call, i: nat, a: Attrs, t: seq<Entry>)
    requires Proper(s)
    ensures Apply(Updating(s, c), i, a, t).rv == CKR_OK <==> TakesAll(s, c, i, StandingOf(a), t)
    decreases |t|
  {
    if t != [] {
      StepTaken(s, c, i, a, t[0]);
      AppliedExactly(s, c, i + 1, Updating(s, c)(i, a, t[0]).attrs, t[1..]);
    }
  }

  // ---------- saving and creating ----------

  // No attribute that is asked for is missing.
  predicate Provides(s: Schema, op: Op, t: seq<Entry>) { forall k :: k in s && Demanded(s[k].checks, op) ==> Names(t, k) }

  lemma CompleteProvides(s: Schema, op: Op, t: seq<Entry>)
    ensures Complete(s, op, t) == Provides(s, op, t)
  {
    forall k ensures Mandatory(s, k, op) == (k in s && Demanded(s[k].checks, op)) && Specified(t, k) == Names(t, k) {
      SpecifiedNames(t, k);
    }
  }

  // A save succeeds exactly when the object is free and the operation allowed, and the template is
  // taken and names what is asked for.
  lemma SaveExactly(s: Schema, c: Call, o: Obj, t: seq<Entry>)
    requires Proper(s)
    ensures SaveTemplate(s, c, o, t).rv == CKR_OK
      <==> !(o.onToken && o.busy) && (c.op == OpSet ==> GetBool(o.attrs, CKA_MODIFIABLE, true))
           && (c.op == OpCopy ==> GetBool(o.attrs, CKA_COPYABLE, true))
           && TakesAll(s, c, 0, StandingOf(o.attrs), t) && Provides(s, c.op, t)
  {
    AppliedExactly(s, c, 0, o.attrs, t);
    CompleteProvides(s, c.op, t);
  }

  // An object as it is initialized.
  function Fresh(objClass: nat, keyType: nat): Standing {
    Standing(objClass, keyType, [], true, true, false, false, false)
  }

  lemma FreshStanding(s: Schema, objClass: nat, keyType: nat)
    requires Proper(s)
    ensures StandingOf(Initialised(s, objClass, keyType, map[])) == Fresh(objClass, keyType)
  {
  }

  predicate Makes(op: Op) { op == OpCreate || op == OpGenerate || op == OpDerive || op == OpUnwrap }

  // A class is asked for, and a key type if it is that of a key, and access is granted.
  predicate Granted(x: Session, q: Asked) {
    q.objClass.Some? && (2 <= q.objClass.value <= 4 ==> q.keyType.Some?) && x.haveWrite(q.onToken, q.isPrivate) == CKR_OK
  }

  lemma NotRefused(x: Session, q: Asked, n: nat)
    ensures Refusal(x, q, n) == CKR_OK <==> Granted(x, q) && n <= 32
  {
  }

  // What a template for a new object must be like.
  ghost predicate Creatable(x: Session, op: Op, t: seq<Entry>) {
    var q := AskedBy(t);
    Granted(x, q) && |t| <= 32
    && var keyType := if q.keyType.Some? then q.keyType.value else 0;
       x.schemas(q.objClass.value, keyType).Some?
       && var s := x.schemas(q.objClass.value, keyType).value;
          TakesAll(s, Call(x, q.isPrivate, op), 0, Fresh(q.objClass.value, keyType), Reordered(t)) && Provides(s, op, t)
  }

  lemma CreatedInExactly(x: Session, op: Op, objClass: nat, keyType: nat, onToken: bool, isPrivate: bool, t: seq<Entry>)
    requires SoundSchemas(x.schemas) && Makes(op)
    ensures CreateIn(x, op, objClass, keyType, onToken, isPrivate, t).rv == CKR_OK
      <==> x.schemas(objClass, keyType).Some?
           && TakesAll(x.schemas(objClass, keyType).value, Call(x, isPrivate, op), 0, Fresh(objClass, keyType), t)
           && Provides(x.schemas(objClass, keyType).value, op, t)
  {
    if x.schemas(objClass, keyType).Some? {
      var s := x.schemas(objClass, keyType).value;
      FreshStanding(s, objClass, keyType);
      SaveExactly(s, Call(x, isPrivate, op), Rewrite(NewObj(onToken), Initialised(s, objClass, keyType, map[])), t);
    }
  }

  lemma ReorderedProvides(s: Schema, op: Op, t: seq<Entry>)
    ensures Provides(s, op, Reordered(t)) == Provides(s, op, t)
  {
    ReorderedAll(t);
    forall k ensures Names(Reordered(t), k) <==> Names(t, k) {
    }
  }

  // An object is created exactly by the templates like that.
  lemma CreateExactly(x: Session, op: Op, t: seq<Entry>)
    requires SoundSchemas(x.schemas) && Makes(op)
    ensures CreateResult(x, op, t).rv == CKR_OK <==> Creatable(x, op, t)
  {
    var q := AskedBy(t);
    NotRefused(x, q, |t|);
    if Refusal(x, q, |t|) == CKR_OK {
      var keyType := if q.keyType.Some? then q.keyType.value else CKK_RSA;
      CreatedInExactly(x, op, q.objClass.value, keyType, q.onToken, q.isPrivate, Reordered(t));
      if x.schemas(q.objClass.value, keyType).Some? {
        ReorderedProvides(x.schemas(q.objClass.value, keyType).value, op, t);
      }
    }
  }

  // Why the footnotes, the type or the size keep an entry out, if they do.
  function Objection(s: Schema, op: Op, e: Entry): Rv {
    if e.kind !in s then CKR_ATTRIBUTE_TYPE_INVALID
    else if !WellSized(s[e.kind], e) then CKR_ATTRIBUTE_VALUE_INVALID
    else if Forbidden(s[e.kind].checks, op) || !Foreseen(s[e.kind].checks, op) then CKR_ATTRIBUTE_READ_ONLY
    else CKR_OK
  }

  lemma UpdateObjects(s: Schema, c: Call, i: nat, a: Attrs, e: Entry)
    requires Objection(s, c.op, e) != CKR_OK
    ensures Updating(s, c)(i, a, e).rv == Objection(s, c.op, e)
  {
    RefusedBefore(s, c, i, a, e);
  }

  lemma ApplyFails(step: Step, a: Attrs, t: seq<Entry>, j: nat)
    requires j < |t| && Apply(step, 0, a, t[..j]).rv == CKR_OK
    requires step(j, Apply(step, 0, a, t[..j]).attrs, t[j]).rv != CKR_OK
    ensures Apply(step, 0, a, t).rv == step(j, Apply(step, 0, a, t[..j]).attrs, t[j]).rv
  {
    ApplyNext(step, 0, a, t[..j], t[j]);
    assert t[..j] + [t[j]] == t[..j + 1];
    ApplyStops(step, 0, a, t[..j + 1], t[j + 1..]);
    assert t[..j + 1] + t[j + 1..] == t;
  }

  // The first entry that is kept out decides how a save is answered.
  lemma SaveObjects(s: Schema, c: Call, o: Obj, t: seq<Entry>, j: nat)
    requires Proper(s) && !(o.onToken && o.busy) && Makes(c.op) && j < |t|
    requires TakesAll(s, c, 0, StandingOf(o.attrs), t[..j]) && Objection(s, c.op, t[j]) != CKR_OK
    ensures SaveTemplate(s, c, o, t).rv == Objection(s, c.op, t[j])
  {
    AppliedExactly(s, c, 0, o.attrs, t[..j]);
    UpdateObjects(s, c, j, Apply(Updating(s, c), 0, o.attrs, t[..j]).attrs, t[j]);
    ApplyFails(Updating(s, c), o.attrs, t, j);
  }

  // Creating an object with an entry whose footnote forbids it, or of an unknown type or the wrong
  // size, is answered accordingly if the entries before it are taken.
  lemma CreateObjects(x: Session, op: Op, t: seq<Entry>, j: nat)
    requires SoundSchemas(x.schemas) && Makes(op) && Granted(x, AskedBy(t)) && |t| <= 32 && SchemaFor(x, t).Some?
    requires j < |Reordered(t)| && Objection(SchemaFor(x, t).value, op, Reordered(t)[j]) != CKR_OK
    requires var q := AskedBy(t);
      TakesAll(SchemaFor(x, t).value, Call(x, q.isPrivate, op), 0,
               Fresh(q.objClass.value, if q.keyType.Some? then q.keyType.value else 0), Reordered(t)[..j])
    ensures CreateResult(x, op, t).rv == Objection(SchemaFor(x, t).value, op, Reordered(t)[j])
  {
    var q, s := AskedBy(t), SchemaFor(x, t).value;
    var keyType := if q.keyType.Some? then q.keyType.value else CKK_RSA;
    NotRefused(x, q, |t|);
    FreshStanding(s, q.objClass.value, keyType);
    SaveObjects(s, Call(x, q.isPrivate, op),
                Rewrite(NewObj(q.onToken), Initialised(s, q.objClass.value, keyType, map[])), Reordered(t), j);
  }

  // ---------- setting and copying ----------

  lemma LateProvides(s: Schema, op: Op, t: seq<Entry>)
    requires op == OpSet || op == OpCopy
    ensures Provides(s, op, t)
  {
  }

  // Attributes are set exactly if access is granted, the object is modifiable and every entry is
  // taken.
  lemma SetExactly(schemas: Schemas, s: Schema, x: Session, o: Obj, t: seq<Entry>)
    requires SoundSchemas(schemas) && x.schemas == schemas && GoodObj(schemas, o) && !(o.onToken && o.busy)
    requires schemas(ClassOf(o.attrs), KeyTypeOf(o.attrs)) == Some(s)
    ensures var isPrivate := GetBool(o.attrs, CKA_PRIVATE, true);
      SetResult(x, o, t).rv == CKR_OK
      <==> x.haveWrite(GetBool(o.attrs, CKA_TOKEN, false), isPrivate) == CKR_OK && GetBool(o.attrs, CKA_MODIFIABLE, true)
           && TakesAll(s, Call(x, isPrivate, OpSet), 0, StandingOf(o.attrs), t)
  {
    var c := Call(x, GetBool(o.attrs, CKA_PRIVATE, true), OpSet);
    SaveObjectSaves(schemas, s, x, c.isPrivate, OpSet, o, t);
    SaveExactly(s, c, o, t);
    LateProvides(s, OpSet, t);
  }

  // What a copy takes over: a key value that becomes private is encrypted.
  function CopiedStanding(x: Session, upgrade: bool, v: Standing): Standing {
    var stored := x.token.encrypt(ForKind(CKA_VALUE), v.value);
    if upgrade && v.value != [] && stored.Some? then v.(value := stored.value) else v
  }

  lemma FlagCopied(x: Session, upgrade: bool, a: Attrs, k: Kind, default: bool, n: nat)
    requires Copies(x, upgrade, a)
    ensures GetBool(CopiedAttrs(x, upgrade, a), k, default) == GetBool(a, k, default)
    ensures GetNumber(CopiedAttrs(x, upgrade, a), k, n) == GetNumber(a, k, n)
  {
  }

  lemma ValueCopied(x: Session, upgrade: bool, a: Attrs)
    requires Copies(x, upgrade, a)
    ensures GetStr(CopiedAttrs(x, upgrade, a), CKA_VALUE) == CopiedStanding(x, upgrade, StandingOf(a)).value
  {
  }

  lemma CopiedStands(x: Session, upgrade: bool, a: Attrs)
    requires Copies(x, upgrade, a)
    ensures StandingOf(CopiedAttrs(x, upgrade, a)) == CopiedStanding(x, upgrade, StandingOf(a))
  {
    var b := CopiedAttrs(x, upgrade, a);
    FlagCopied(x, upgrade, a, CKA_CLASS, false, VENDOR_DEFINED);
    FlagCopied(x, upgrade, a, CKA_KEY_TYPE, false, VENDOR_DEFINED);
    FlagCopied(x, upgrade, a, CKA_MODIFIABLE, true, 0);
    FlagCopied(x, upgrade, a, CKA_COPYABLE, true, 0);
    FlagCopied(x, upgrade, a, CKA_SENSITIVE, false, 0);
    FlagCopied(x, upgrade, a, CKA_EXTRACTABLE, false, 0);
    FlagCopied(x, upgrade, a, CKA_WRAP_WITH_TRUSTED, false, 0);
    ValueCopied(x, upgrade, a);
    var v, w := StandingOf(b), StandingOf(a);
    assert v.modifiable == w.modifiable && v.copyable == w.copyable && v.sensitive == w.sensitive;
    assert v == w.(value := v.value);
  }

  // Every string can be encrypted that has to be.
  predicate Upgradable(x: Session, upgrade: bool, a: Attrs) {
    upgrade ==> forall k :: k in a && a[k].Str? && a[k].s != [] ==> x.token.encrypt(ForKind(k), a[k].s).Some?
  }

  lemma CopiesUpgradable(x: Session, upgrade: bool, a: Attrs)
    ensures Copies(x, upgrade, a) == Upgradable(x, upgrade, a)
  {
    if upgrade {
      forall k | k in a ensures CopiedValue(x, upgrade, k, a[k]).Some?
        <==> (a[k].Str? && a[k].s != [] ==> x.token.encrypt(ForKind(k), a[k].s).Some?) {
      }
    }
  }

  lemma CopiedExactly(schemas: Schemas, s: Schema, x: Session, o: Obj, onToken: bool, isPrivate: bool, upgrade: bool, t: seq<Entry>)
    requires SoundSchemas(schemas) && x.schemas == schemas && GoodObj(schemas, o)
    requires schemas(ClassOf(o.attrs), KeyTypeOf(o.attrs)) == Some(s)
    ensures CopyInto(x, o, onToken, isPrivate, upgrade, t).rv == CKR_OK
      <==> Upgradable(x, upgrade, o.attrs) && GetBool(o.attrs, CKA_COPYABLE, true)
           && TakesAll(s, Call(x, isPrivate, OpCopy), 0, CopiedStanding(x, upgrade, StandingOf(o.attrs)), t)
  {
    CopiesUpgradable(x, upgrade, o.attrs);
    if Copies(x, upgrade, o.attrs) {
      var b := CopiedAttrs(x, upgrade, o.attrs);
      var n := Rewrite(NewObj(onToken), b);
      CopiedKeepsGood(schemas, x, upgrade, o.attrs);
      assert ClassOf(b) == ClassOf(o.attrs) && KeyTypeOf(b) == KeyTypeOf(o.attrs);
      SaveObjectSaves(schemas, s, x, isPrivate, OpCopy, n, t);
      CopiedStands(x, upgrade, o.attrs);
      SaveExactly(s, Call(x, isPrivate, OpCopy), n, t);
      LateProvides(s, OpCopy, t);
      assert CKA_CLASS in o.attrs by { assert SortedAt(s, o.attrs, CKA_CLASS); }
      assert GetBool(b, CKA_COPYABLE, true) == GetBool(o.attrs, CKA_COPYABLE, true);
    }
  }

  // An object is copied exactly if it may be read and is copyable, a private object stays private,
  // the copy may be written, what has to be encrypted can be, and every entry is taken.
  lemma CopyExactly(schemas: Schemas, s: Schema, x: Session, o: Obj, t: seq<Entry>)
    requires SoundSchemas(schemas) && x.schemas == schemas && GoodObj(schemas, o)
    requires schemas(ClassOf(o.attrs), KeyTypeOf(o.attrs)) == Some(s)
    ensures var wasOnToken, wasPrivate := GetBool(o.attrs, CKA_TOKEN, false), GetBool(o.attrs, CKA_PRIVATE, true);
      var onToken, isPrivate := LastFlag(t, CKA_TOKEN, wasOnToken), LastFlag(t, CKA_PRIVATE, wasPrivate);
      var upgrade := isPrivate && !wasPrivate;
      CopyResult(x, o, t).rv == CKR_OK
      <==> x.haveRead(wasOnToken, wasPrivate) == CKR_OK && x.haveWrite(onToken, isPrivate) == CKR_OK
           && GetBool(o.attrs, CKA_COPYABLE, true) && (wasPrivate ==> isPrivate) && Upgradable(x, upgrade, o.attrs)
           && TakesAll(s, Call(x, isPrivate, OpCopy), 0, CopiedStanding(x, upgrade, StandingOf(o.attrs)), t)
  {
    var wasOnToken, wasPrivate := GetBool(o.attrs, CKA_TOKEN, false), GetBool(o.attrs, CKA_PRIVATE, true);
    var onToken, isPrivate := LastFlag(t, CKA_TOKEN, wasOnToken), LastFlag(t, CKA_PRIVATE, wasPrivate);
    CopiedExactly(schemas, s, x, o, onToken, isPrivate, !wasPrivate && isPrivate, t);
  }

  // ---------- what stands in the way of a call ----------

  // No access comes first, then an object that cannot be modified.
  lemma SetRefused(x: Session, o: Obj, t: seq<Entry>)
    requires var rv := x.haveWrite(GetBool(o.attrs, CKA_TOKEN, false), GetBool(o.attrs, CKA_PRIVATE, true));
      rv != CKR_OK || !GetBool(o.attrs, CKA_MODIFIABLE, true)
    ensures var rv := x.haveWrite(GetBool(o.attrs, CKA_TOKEN, false), GetBool(o.attrs, CKA_PRIVATE, true));
      SetResult(x, o, t) == Saving(if rv != CKR_OK then rv else CKR_ACTION_PROHIBITED, o)
  {
  }

  // No access to the original comes first, then one that is not copyable, then a copy that would no
  // longer be private, then no access to the copy; there is no copy.
  lemma CopyRefused(x: Session, o: Obj, t: seq<Entry>)
    ensures var wasOnToken, wasPrivate := GetBool(o.attrs, CKA_TOKEN, false), GetBool(o.attrs, CKA_PRIVATE, true);
      var onToken, isPrivate, r := LastFlag(t, CKA_TOKEN, wasOnToken), LastFlag(t, CKA_PRIVATE, wasPrivate), CopyResult(x, o, t);
      (r.rv != CKR_OK ==> r.obj == None)
      && (x.haveRead(wasOnToken, wasPrivate) != CKR_OK ==> r.rv == x.haveRead(wasOnToken, wasPrivate))
      && (x.haveRead(wasOnToken, wasPrivate) == CKR_OK ==>
            (!GetBool(o.attrs, CKA_COPYABLE, true) ==> r.rv == CKR_ACTION_PROHIBITED)
            && (GetBool(o.attrs, CKA_COPYABLE, true) ==>
                  (wasPrivate && !isPrivate ==> r.rv == CKR_TEMPLATE_INCONSISTENT)
                  && ((wasPrivate ==> isPrivate) && x.haveWrite(onToken, isPrivate) != CKR_OK ==>
                        r.rv == x.haveWrite(onToken, isPrivate))))
  {
  }

  // No class, or no key type for a key, comes first, then no access, then a template that is too
  // long, then a class and key type that are not known; there is no object.
  lemma CreateRefused(x: Session, op: Op, t: seq<Entry>)
    requires !Granted(x, AskedBy(t)) || |t| > 32 || SchemaFor(x, t) == None
    ensures var q := AskedBy(t);
      CreateResult(x, op, t)
      == Made(if q.objClass == None || (2 <= q.objClass.value <= 4 && q.keyType == None) then CKR_TEMPLATE_INCOMPLETE
              else if x.haveWrite(q.onToken, q.isPrivate) != CKR_OK then x.haveWrite(q.onToken, q.isPrivate)
              else if |t| > 32 then CKR_TEMPLATE_INCONSISTENT
              else CKR_ATTRIBUTE_VALUE_INVALID, None)
  {
  }

  // ---------- keys made by the token ----------

  predicate InHead(k: Kind) { k == CKA_CLASS || k == CKA_TOKEN || k == CKA_PRIVATE || k == CKA_KEY_TYPE }

  // No footnote stops a call from giving the attributes that the library puts before the caller's.
  ghost predicate TakesHead(s: Schema) {
    forall k :: InHead(k) ==> k in s && 2 !in s[k].checks && 4 !in s[k].checks && 6 !in s[k].checks
  }

  lemma HeadNoted(f: Family, k: Kind, n: int)
    requires InHead(k) && (n == 2 || n == 4 || n == 6)
    ensures k in SchemaOf(f) && n !in SchemaOf(f)[k].checks
  {
    NotesExactly(f, n);
    HeadCommon(f, k, n);
    assert k in Notes(SchemaOf(f), n) <==> k in CommonNotes(n) + ClassNotes(f, n) + OwnNotes(f, n);
  }

  lemma HeadCommon(f: Family, k: Kind, n: int)
    requires InHead(k) && (n == 2 || n == 4 || n == 6)
    ensures k in CommonKeys() && k !in CommonNotes(n) && k !in ClassNotes(f, n) && k !in OwnNotes(f, n)
  {
  }

  lemma FamilyTakesHead(f: Family)
    ensures TakesHead(SchemaOf(f)) == true
  {
    forall k | InHead(k)
      ensures k in SchemaOf(f) && 2 !in SchemaOf(f)[k].checks && 4 !in SchemaOf(f)[k].checks && 6 !in SchemaOf(f)[k].checks
    {
      HeadNoted(f, k, 2);
      HeadNoted(f, k, 4);
      HeadNoted(f, k, 6);
    }
  }

  lemma FlagTaken(s: Schema, c: Call, i: nat, v: Standing, k: Kind, b: bool)
    requires Proper(s) && Regular(s) && TakesHead(s) && Makes(c.op) && v.modifiable && (k == CKA_TOKEN || k == CKA_PRIVATE)
    requires InHead(k)
    ensures Takes(s, c, i, v, FlagEntry(k, b)) == true && Onward(c, i, v, FlagEntry(k, b)) == v
  {
  }

  lemma ClassTaken(s: Schema, c: Call, i: nat, v: Standing, k: Kind, n: nat)
    requires Proper(s) && Regular(s) && TakesHead(s) && Makes(c.op) && v.modifiable && Representable(n)
    requires InHead(k) && ((k == CKA_CLASS && n == v.objClass) || (k == CKA_KEY_TYPE && n == v.keyType))
    ensures Takes(s, c, i, v, NumberEntry(k, n)) == true && Onward(c, i, v, NumberEntry(k, n)) == v
  {
  }

  lemma TakesMore(s: Schema, c: Call, i: nat, v: Standing, e: Entry, t: seq<Entry>)
    requires Takes(s, c, i, v, e) == true && Onward(c, i, v, e) == v
    ensures TakesAll(s, c, i, v, [e] + t) == TakesAll(s, c, i + 1, v, t)
  {
    assert ([e] + t)[1..] == t;
  }

  lemma TakesFour(s: Schema, c: Call, v: Standing, e0: Entry, e1: Entry, e2: Entry, e3: Entry, t: seq<Entry>)
    requires Takes(s, c, 0, v, e0) == true && Onward(c, 0, v, e0) == v
    requires Takes(s, c, 1, v, e1) == true && Onward(c, 1, v, e1) == v
    requires Takes(s, c, 2, v, e2) == true && Onward(c, 2, v, e2) == v
    requires Takes(s, c, 3, v, e3) == true && Onward(c, 3, v, e3) == v
    ensures TakesAll(s, c, 0, v, [e0, e1, e2, e3] + t) == TakesAll(s, c, 4, v, t)
  {
    TakesMore(s, c, 3, v, e3, t);
    TakesMore(s, c, 2, v, e2, [e3] + t);
    TakesMore(s, c, 1, v, e1, [e2] + ([e3] + t));
    TakesMore(s, c, 0, v, e0, [e1] + ([e2] + ([e3] + t)));
    assert [e0] + ([e1] + ([e2] + ([e3] + t))) == [e0, e1, e2, e3] + t;
  }

  // They are taken.
  lemma HeadTaken(s: Schema, c: Call, objClass: nat, keyType: nat, onToken: bool, isPrivate: bool, t: seq<Entry>)
    requires Proper(s) && Regular(s) && TakesHead(s) && Makes(c.op) && Representable(objClass) && Representable(keyType)
    ensures TakesAll(s, c, 0, Fresh(objClass, keyType), KeyTemplate(objClass, keyType, onToken, isPrivate, t))
         == TakesAll(s, c, 4, Fresh(objClass, keyType), t)
  {
    var v := Fresh(objClass, keyType);
    ClassTaken(s, c, 0, v, CKA_CLASS, objClass);
    FlagTaken(s, c, 1, v, CKA_TOKEN, onToken);
    FlagTaken(s, c, 2, v, CKA_PRIVATE, isPrivate);
    ClassTaken(s, c, 3, v, CKA_KEY_TYPE, keyType);
    TakesFour(s, c, v, NumberEntry(CKA_CLASS, objClass), FlagEntry(CKA_TOKEN, onToken), FlagEntry(CKA_PRIVATE, isPrivate),
              NumberEntry(CKA_KEY_TYPE, keyType), t);
  }

  lemma ReorderedHead(objClass: nat, keyType: nat, onToken: bool, isPrivate: bool, t: seq<Entry>)
    ensures Reordered(KeyTemplate(objClass, keyType, onToken, isPrivate, t))
         == KeyTemplate(objClass, keyType, onToken, isPrivate, Reordered(t))
  {
    var e0, e1 := NumberEntry(CKA_CLASS, objClass), FlagEntry(CKA_TOKEN, onToken);
    var e2, e3 := FlagEntry(CKA_PRIVATE, isPrivate), NumberEntry(CKA_KEY_TYPE, keyType);
    assert KeyTemplate(objClass, keyType, onToken, isPrivate, t) == [e0] + ([e1] + ([e2] + ([e3] + t)));
    ReorderedFirst(e3, t);
    ReorderedFirst(e2, [e3] + t);
    ReorderedFirst(e1, [e2] + ([e3] + t));
    ReorderedFirst(e0, [e1] + ([e2] + ([e3] + t)));
  }

  lemma ReorderedFirst(e: Entry, t: seq<Entry>)
    requires e.kind != CKA_CHECK_VALUE
    ensures Reordered([e] + t) == [e] + Reordered(t)
  {
    assert ([e] + t)[1..] == t;
  }

  lemma TokenLast(objClass: nat, keyType: nat, onToken: bool, isPrivate: bool, t: seq<Entry>)
    requires forall e :: e in t ==> e.kind != CKA_TOKEN
    ensures LastFlag(KeyTemplate(objClass, keyType, onToken, isPrivate, t), CKA_TOKEN, false) == onToken
  {
    var e := FlagEntry(CKA_TOKEN, onToken);
    var head := [NumberEntry(CKA_CLASS, objClass)];
    var last := [FlagEntry(CKA_PRIVATE, isPrivate), NumberEntry(CKA_KEY_TYPE, keyType)] + t;
    assert KeyTemplate(objClass, keyType, onToken, isPrivate, t) == head + ([e] + last);
    JoinedLast(head, [e] + last, CKA_TOKEN, false);
    JoinedLast([e], last, CKA_TOKEN, false);
    assert LastFlag([e], CKA_TOKEN, false) == LastFlag([], CKA_TOKEN, onToken) == onToken;
    NoneLast(head, CKA_TOKEN, false);
    NoneLast(last, CKA_TOKEN, onToken);
  }

  lemma AskedAs(objClass: nat, keyType: nat, onToken: bool, isPrivate: bool, t: seq<Entry>)
    requires Representable(objClass) && Representable(keyType) && Unreserved(t)
    ensures AskedBy(KeyTemplate(objClass, keyType, onToken, isPrivate, t))
         == Asked(Some(objClass), Some(keyType), onToken, isPrivate)
  {
    ClassKept(objClass, keyType, onToken, isPrivate, t);
    TokenLast(objClass, keyType, onToken, isPrivate, t);
    TemplateLast(objClass, keyType, onToken, isPrivate, t);
  }

  // What the template for a key must be like, from the caller's entries on: class and type are known,
  // access is granted, and the entries are taken and name what is asked for.
  ghost predicate MakesKey(x: Session, op: Op, objClass: nat, keyType: nat, onToken: bool, isPrivate: bool, t: seq<Entry>) {
    x.haveWrite(onToken, isPrivate) == CKR_OK && |t| <= 28 && FamilyOf(objClass, keyType).Some?
    && var s := SchemaOf(FamilyOf(objClass, keyType).value);
       TakesAll(s, Call(x, isPrivate, op), 4, Fresh(objClass, keyType), Reordered(t))
       && Provides(s, op, KeyTemplate(objClass, keyType, onToken, isPrivate, t))
  }

  lemma CreatableAs(x: Session, op: Op, t: seq<Entry>, objClass: nat, keyType: nat, onToken: bool, isPrivate: bool)
    requires AskedBy(t) == Asked(Some(objClass), Some(keyType), onToken, isPrivate)
    ensures Creatable(x, op, t)
      <==> x.haveWrite(onToken, isPrivate) == CKR_OK && |t| <= 32 && x.schemas(objClass, keyType).Some?
           && TakesAll(x.schemas(objClass, keyType).value, Call(x, isPrivate, op), 0, Fresh(objClass, keyType), Reordered(t))
           && Provides(x.schemas(objClass, keyType).value, op, t)
  {
  }

  lemma FamilyTakes(f: Family, c: Call, objClass: nat, keyType: nat, onToken: bool, isPrivate: bool, t: seq<Entry>)
    requires Makes(c.op) && Representable(objClass) && Representable(keyType)
    ensures TakesAll(SchemaOf(f), c, 0, Fresh(objClass, keyType), Reordered(KeyTemplate(objClass, keyType, onToken, isPrivate, t)))
         == TakesAll(SchemaOf(f), c, 4, Fresh(objClass, keyType), Reordered(t))
  {
    assert Proper(SchemaOf(f)) by { SchemaProper(f); }
    FamilyTakesHead(f);
    SchemaRegular(f);
    ReorderedHead(objClass, keyType, onToken, isPrivate, t);
    HeadTaken(SchemaOf(f), c, objClass, keyType, onToken, isPrivate, Reordered(t));
  }

  lemma KeyCreatable(x: Session, op: Op, objClass: nat, keyType: nat, onToken: bool, isPrivate: bool, t: seq<Entry>)
    requires x.schemas == NewP11Object && Makes(op) && Unreserved(t) && Representable(objClass) && Representable(keyType)
    ensures Creatable(x, op, KeyTemplate(objClass, keyType, onToken, isPrivate, t))
         == MakesKey(x, op, objClass, keyType, onToken, isPrivate, t)
  {
    AskedAs(objClass, keyType, onToken, isPrivate, t);
    CreatableAs(x, op, KeyTemplate(objClass, keyType, onToken, isPrivate, t), objClass, keyType, onToken, isPrivate);
    if FamilyOf(objClass, keyType).Some? {
      FamilyTakes(FamilyOf(objClass, keyType).value, Call(x, isPrivate, op), objClass, keyType, onToken, isPrivate, t);
    }
  }

  // A key is made exactly if its parts could be made and its template is like that.
  lemma KeyExactly(x: Session, origin: Origin, objClass: nat, keyType: nat, onToken: bool, isPrivate: bool, t: seq<Entry>,
                   m: Material, ok: bool)
    requires x.schemas == NewP11Object && Unreserved(t) && Representable(objClass) && Representable(keyType)
    ensures (KeyResult(x, origin, objClass, keyType, onToken, isPrivate, t, m, ok).rv == CKR_OK)
         == (ok && MakesKey(x, OpOf(origin), objClass, keyType, onToken, isPrivate, t))
  {
    var u := KeyTemplate(objClass, keyType, onToken, isPrivate, t);
    NewP11ObjectSound();
    CreateExactly(x, OpOf(origin), u);
    KeyCreatable(x, OpOf(origin), objClass, keyType, onToken, isPrivate, t);
    CreatedIs(x, OpOf(origin), u);
    FinishedOk(x, origin, isPrivate, CreateResult(x, OpOf(origin), u), m, ok);
  }

  lemma CreatedIs(x: Session, op: Op, t: seq<Entry>)
    ensures CreateResult(x, op, t).rv == CKR_OK ==> CreateResult(x, op, t).obj.Some?
  {
  }

  lemma FinishedOk(x: Session, origin: Origin, isPrivate: bool, r: Made, m: Material, ok: bool)
    requires r.rv == CKR_OK ==> r.obj.Some?
    ensures FinishKey(x, origin, isPrivate, r, m, ok).rv == CKR_OK <==> r.rv == CKR_OK && ok
  {
  }

  lemma HeadTakenTo(s: Schema, c: Call, objClass: nat, keyType: nat, onToken: bool, isPrivate: bool, t: seq<Entry>, j: nat)
    requires Proper(s) && Regular(s) && TakesHead(s) && Makes(c.op) && Representable(objClass) && Representable(keyType)
    requires j <= |t| && TakesAll(s, c, 4, Fresh(objClass, keyType), t[..j])
    ensures TakesAll(s, c, 0, Fresh(objClass, keyType), KeyTemplate(objClass, keyType, onToken, isPrivate, t)[..j + 4]) == true
  {
    HeadTaken(s, c, objClass, keyType, onToken, isPrivate, t[..j]);
    assert KeyTemplate(objClass, keyType, onToken, isPrivate, t)[..j + 4]
        == KeyTemplate(objClass, keyType, onToken, isPrivate, t[..j]);
  }

  lemma CreatedAs(x: Session, op: Op, s: Schema, u: seq<Entry>, objClass: nat, keyType: nat, onToken: bool, isPrivate: bool, j: nat)
    requires SoundSchemas(x.schemas) && Makes(op) && AskedBy(u) == Asked(Some(objClass), Some(keyType), onToken, isPrivate)
    requires x.haveWrite(onToken, isPrivate) == CKR_OK && |u| <= 32 && x.schemas(objClass, keyType) == Some(s)
    requires j < |Reordered(u)| && TakesAll(s, Call(x, isPrivate, op), 0, Fresh(objClass, keyType), Reordered(u)[..j])
    requires Objection(s, op, Reordered(u)[j]) != CKR_OK
    ensures CreateResult(x, op, u).rv == Objection(s, op, Reordered(u)[j])
  {
    CreateObjects(x, op, u, j);
  }

  lemma FinishedBad(x: Session, origin: Origin, isPrivate: bool, r: Made, m: Material, ok: bool)
    requires r.rv != CKR_OK
    ensures FinishKey(x, origin, isPrivate, r, m, ok) == r
  {
  }

  lemma KeyObjectsIn(x: Session, origin: Origin, s: Schema, objClass: nat, keyType: nat, onToken: bool, isPrivate: bool,
                     t: seq<Entry>, m: Material, ok: bool, j: nat)
    requires SoundSchemas(x.schemas) && x.schemas(objClass, keyType) == Some(s) && Regular(s) && TakesHead(s)
    requires Unreserved(t) && Representable(objClass) == true && Representable(keyType) == true
    requires x.haveWrite(onToken, isPrivate) == CKR_OK && |t| <= 28 && j < |Reordered(t)|
    requires TakesAll(s, Call(x, isPrivate, OpOf(origin)), 4, Fresh(objClass, keyType), Reordered(t)[..j])
    requires Objection(s, OpOf(origin), Reordered(t)[j]) != CKR_OK
    ensures KeyResult(x, origin, objClass, keyType, onToken, isPrivate, t, m, ok).rv == Objection(s, OpOf(origin), Reordered(t)[j])
  {
    var u := KeyTemplate(objClass, keyType, onToken, isPrivate, t);
    AskedAs(objClass, keyType, onToken, isPrivate, t);
    ReorderedHead(objClass, keyType, onToken, isPrivate, t);
    HeadTakenTo(s, Call(x, isPrivate, OpOf(origin)), objClass, keyType, onToken, isPrivate, Reordered(t), j);
    assert Reordered(u)[j + 4] == Reordered(t)[j];
    CreatedAs(x, OpOf(origin), s, u, objClass, keyType, onToken, isPrivate, j + 4);
    FinishedBad(x, origin, isPrivate, CreateResult(x, OpOf(origin), u), m, ok);
  }

  // So is making a key: the first of the caller's entries that is kept out decides.
  lemma KeyObjects(x: Session, origin: Origin, objClass: nat, keyType: nat, onToken: bool, isPrivate: bool, t: seq<Entry>,
                   m: Material, ok: bool, j: nat)
    requires x.schemas == NewP11Object && Unreserved(t) && Representable(objClass) && Representable(keyType)
    requires x.haveWrite(onToken, isPrivate) == CKR_OK && |t| <= 28 && FamilyOf(objClass, keyType).Some? && j < |Reordered(t)|
    requires var s := SchemaOf(FamilyOf(objClass, keyType).value);
      TakesAll(s, Call(x, isPrivate, OpOf(origin)), 4, Fresh(objClass, keyType), Reordered(t)[..j])
      && Objection(s, OpOf(origin), Reordered(t)[j]) != CKR_OK
    ensures KeyResult(x, origin, objClass, keyType, onToken, isPrivate, t, m, ok).rv
         == Objection(SchemaOf(FamilyOf(objClass, keyType).value), OpOf(origin), Reordered(t)[j])
  {
    var f := FamilyOf(objClass, keyType).value;
    NewP11ObjectSound();
    FamilyTakesHead(f);
    SchemaRegular(f);
    KeyObjectsIn(x, origin, SchemaOf(f), objClass, keyType, onToken, isPrivate, t, m, ok, j);
  }
}
