// When writing one attribute succeeds, written out over the footnotes of table 10 (section 4.2 of
// PKCS#11 v2.40), and what templates then do: which ones are refused, which ones succeed.
module Acceptance {
  import opened Bytes
  import opened Attributes
  import opened UpdateRules
  import opened KeyPolicy
  import opened Objects
  import opened KeyCalls

  // ---------- one entry ----------

  // The footnotes that forbid: 2 when creating an object, 4 when generating it, 6 when unwrapping it.
  predicate Forbidden(checks: set<int>, op: Op) {
    (op == OpCreate && 2 in checks) || (op == OpGenerate && 4 in checks) || (op == OpUnwrap && 6 in checks)
  }

  // Setting needs footnote 8, and copying 8 or 17; the other operations need none.
  predicate Foreseen(checks: set<int>, op: Op) {
    (op == OpSet ==> 8 in checks) && (op == OpCopy ==> 8 in checks || 17 in checks)
  }

  predicate WellSized(spec: Spec, e: Entry) {
    !(e.isNull && |e.data| > 0) && (spec.size.Some? ==> |e.data| == spec.size.value)
  }

  // What an object says of itself that decides which values it accepts.
  datatype Standing = Standing(
    objClass: nat, keyType: nat, value: bytes,
    modifiable: bool, copyable: bool, sensitive: bool, extractable: bool, wrapWithTrusted: bool)

  function StandingOf(a: Attrs): Standing {
    Standing(GetNumber(a, CKA_CLASS, VENDOR_DEFINED), GetNumber(a, CKA_KEY_TYPE, VENDOR_DEFINED), GetStr(a, CKA_VALUE),
             GetBool(a, CKA_MODIFIABLE, true), GetBool(a, CKA_COPYABLE, true), GetBool(a, CKA_SENSITIVE, false),
             GetBool(a, CKA_EXTRACTABLE, false), GetBool(a, CKA_WRAP_WITH_TRUSTED, false))
  }

  // An object that is not modifiable takes attributes only while it is created or generated.
  predicate Open(op: Op, v: Standing) { op == OpCreate || op == OpGenerate || v.modifiable }

  predicate MayWrite(spec: Spec, op: Op, v: Standing, e: Entry) {
    WellSized(spec, e) && Open(op, v) && !Forbidden(spec.checks, op) && Foreseen(spec.checks, op)
  }

  // A string can be stored: in clear, or encrypted without getting shorter.
  predicate CanStore(c: Call, n: Nonce, d: bytes) {
    c.isPrivate ==>
      var s := c.session.token.encrypt(n, d);
      s.Some? && |s.value| >= |d|
  }

  // Generic secrets and HMAC keys, DES keys and AES keys have a check value that can be computed.
  predicate Computable(keyType: nat) {
    keyType == 0x10 || keyType == 0x13 || keyType == 0x14 || keyType == 0x15 || keyType == 0x1F || keyType == 0x27
    || keyType == 0x28 || keyType == 0x2B || keyType == 0x2C || keyType == 0x2D || keyType == 0x2E
  }

  // A key value that is created for a secret key fills in a check value, which must be possible.
  predicate CanFill(c: Call, i: nat, v: Standing, d: bytes) {
    c.op == OpCreate && v.objClass == 4 ==>
      (Computable(v.keyType) || v.keyType == 0x32)
      && (c.isPrivate ==>
            var check := if v.keyType == 0x32 then [] else c.session.kcv(v.keyType, d);
            c.session.token.encrypt(ForEntry(i, true), check).Some?)
  }

  // A check value that is not empty must be that of the key.
  predicate Compares(c: Call, v: Standing, d: bytes) {
    d != [] ==>
      var value := if c.isPrivate then c.session.token.decrypt(v.value) else Some(v.value);
      value.Some? && (v.keyType == 0x32 || (Computable(v.keyType) && d == c.session.kcv(v.keyType, value.value)))
  }

  // What each attribute asks of its value, and of the object.
  predicate Acceptable(c: Call, i: nat, v: Standing, k: Kind, rule: Rule, d: bytes) {
    var late := IsLate(c.op);
    match rule
    case Plain => CanStore(c, ForEntry(i, false), d)
    case Measured(_) => CanStore(c, ForEntry(i, false), d)
    case KeyValue => CanStore(c, ForEntry(i, false), d) && CanFill(c, i, v, d)
    case CheckValue => CanStore(c, ForEntry(i, false), d) && Compares(c, v, d)
    case Match => |d| == 8 && ReadNumber(d) == if k == 0 then v.objClass else v.keyType
    case Bool => |d| == 1
    case Copyable => |d| == 1 && (d[0] == 0 || v.copyable)
    case ReadOnly => false
    case Sensitive => |d| == 1 && !(late && v.sensitive)
    case Extractable => |d| == 1 && (late ==> v.extractable)
    case WrapWithTrusted => |d| == 1 && !(late && v.wrapWithTrusted)
    case Trusted => |d| == 1 && (d[0] == 0 || c.session.token.soLoggedIn)
    case AlwaysAuthenticate => |d| == 1 && (d[0] == 0 || c.isPrivate)
    case Date => |d| == 8 || |d| == 0
    case Sized(ops) => c.op in ops && |d| == 8
    case WrappingTemplate => |d| % 24 == 0 && c.session.templates(d).Some?
    case MechanismSet => |d| > 0 && |d| % 8 == 0
  }

  lemma StringAccepted(c: Call, i: nat, a: Attrs, k: Kind, d: bytes)
    ensures SetString(c, i, a, k, d).rv == CKR_OK <==> CanStore(c, ForEntry(i, false), d)
  {
  }

  lemma KeyValueAccepted(c: Call, i: nat, a: Attrs, d: bytes)
    ensures SetKeyValue(c, i, a, d).rv == CKR_OK
      <==> CanStore(c, ForEntry(i, false), d) && CanFill(c, i, StandingOf(a), d)
  {
    StringAccepted(c, i, a, CKA_VALUE, d);
  }

  lemma CheckValueAccepted(c: Call, i: nat, a: Attrs, d: bytes)
    ensures SetCheckValue(c, i, a, d).rv == CKR_OK
      <==> CanStore(c, ForEntry(i, false), d) && Compares(c, StandingOf(a), d)
  {
  }

  lemma WriterAccepted(c: Call, i: nat, a: Attrs, k: Kind, rule: Rule, d: bytes)
    requires Named(rule, k)
    ensures Writer(k, rule)(c, i, a, d).rv == CKR_OK <==> Acceptable(c, i, StandingOf(a), k, rule, d)
  {
    match rule
    case KeyValue => KeyValueAccepted(c, i, a, d);
    case CheckValue => CheckValueAccepted(c, i, a, d);
    case _ =>
  }

  // An entry is taken if the footnotes let the operation write the attribute and the attribute
  // accepts the value.
  predicate Takes(s: Schema, c: Call, i: nat, v: Standing, e: Entry) {
    e.kind in s && MayWrite(s[e.kind], c.op, v, e) && Acceptable(c, i, v, e.kind, s[e.kind].rule, e.data)
  }

  // An update succeeds exactly when the entry is taken.
  lemma UpdateExactly(s: Schema, c: Call, i: nat, a: Attrs, e: Entry)
    requires Proper(s)
    ensures Update(s, c, i, a, e).rv == CKR_OK <==> Takes(s, c, i, StandingOf(a), e)
  {
    if e.kind in s {
      WriterAccepted(c, i, a, e.kind, s[e.kind].rule, e.data);
      PermissionExactly(s, c.op, a, e);
    }
  }

  lemma PermissionExactly(s: Schema, op: Op, a: Attrs, e: Entry)
    requires e.kind in s
    ensures Permission(s, op, a, e) == CKR_OK <==> MayWrite(s[e.kind], op, StandingOf(a), e)
  {
  }

  predicate IsLate(op: Op) { op == OpSet || op == OpCopy }

  // How it is refused: the type first, then the size, then the footnotes.
  lemma RefusedBefore(s: Schema, c: Call, i: nat, a: Attrs, e: Entry)
    ensures var rv := Update(s, c, i, a, e).rv;
      if e.kind !in s then rv == CKR_ATTRIBUTE_TYPE_INVALID
      else if !WellSized(s[e.kind], e) then rv == CKR_ATTRIBUTE_VALUE_INVALID
      else !MayWrite(s[e.kind], c.op, StandingOf(a), e) ==> rv == CKR_ATTRIBUTE_READ_ONLY
  {
  }

  // And by the attribute itself, when the footnotes let it through and the value has its size.
  lemma RefusedByRule(c: Call, i: nat, a: Attrs, k: Kind, rule: Rule, d: bytes)
    requires Named(rule, k) && !Acceptable(c, i, StandingOf(a), k, rule, d)
    ensures var rv, v, late := Writer(k, rule)(c, i, a, d).rv, StandingOf(a), IsLate(c.op);
      match rule
      case Plain => rv == CKR_GENERAL_ERROR
      case Measured(_) => rv == CKR_GENERAL_ERROR
      case KeyValue => rv == CKR_GENERAL_ERROR
      case CheckValue => rv == CKR_GENERAL_ERROR || rv == CKR_ATTRIBUTE_VALUE_INVALID
      case Match => rv == if |d| == 8 then CKR_TEMPLATE_INCONSISTENT else CKR_ATTRIBUTE_VALUE_INVALID
      case ReadOnly => rv == CKR_ATTRIBUTE_READ_ONLY
      case AlwaysAuthenticate => rv == if |d| == 1 then CKR_TEMPLATE_INCONSISTENT else CKR_ATTRIBUTE_VALUE_INVALID
      case Copyable => rv == if |d| == 1 then CKR_ATTRIBUTE_READ_ONLY else CKR_ATTRIBUTE_VALUE_INVALID
      case Trusted => rv == if |d| == 1 then CKR_ATTRIBUTE_READ_ONLY else CKR_ATTRIBUTE_VALUE_INVALID
      case Sized(ops) => rv == if c.op in ops then CKR_ATTRIBUTE_VALUE_INVALID else CKR_ATTRIBUTE_READ_ONLY
      case Sensitive => rv == if late && v.sensitive then CKR_ATTRIBUTE_READ_ONLY else CKR_ATTRIBUTE_VALUE_INVALID
      case Extractable => rv == if late && !v.extractable then CKR_ATTRIBUTE_READ_ONLY else CKR_ATTRIBUTE_VALUE_INVALID
      case WrapWithTrusted =>
        rv == if late && v.wrapWithTrusted then CKR_ATTRIBUTE_READ_ONLY else CKR_ATTRIBUTE_VALUE_INVALID
      case _ => rv == CKR_ATTRIBUTE_VALUE_INVALID
  {
    match rule
    case KeyValue => KeyValueAccepted(c, i, a, d);
    case CheckValue => CheckValueAccepted(c, i, a, d);
    case _ =>
  }

  // What an update that succeeds stores.
  predicate Stores(c: Call, i: nat, a: Attrs, k: Kind, rule: Rule, d: bytes, b: Attrs) {
    match rule
    case Match => b == a
    case Copyable => |d| == 1 && b == if d[0] == 0 then a[k := Flag(false)] else a
    case Date => k in b && b[k] == Str(d)
    case Sized(_) => k in b && b[k] == Number(ReadNumber(d))
    case WrappingTemplate => c.session.templates(d).Some? && k in b && b[k] == Template(c.session.templates(d).value)
    case MechanismSet => k in b && b[k] == Mechanisms(MechanismsIn(d))
    case ReadOnly => false
    case Plain | KeyValue | CheckValue | Measured(_) =>
      k in b && b[k].Str? && Some(b[k].s) == if c.isPrivate then c.session.token.encrypt(ForEntry(i, false), d) else Some(d)
    case _ => |d| == 1 && k in b && b[k] == Flag(d[0] != 0)
  }

  lemma StringStores(c: Call, i: nat, a: Attrs, k: Kind, d: bytes)
    requires SetString(c, i, a, k, d).rv == CKR_OK
    ensures Stores(c, i, a, k, Plain, d, SetString(c, i, a, k, d).attrs)
  {
  }

  lemma KeyValueStores(c: Call, i: nat, a: Attrs, d: bytes)
    requires SetKeyValue(c, i, a, d).rv == CKR_OK
    ensures Stores(c, i, a, CKA_VALUE, KeyValue, d, SetKeyValue(c, i, a, d).attrs)
  {
    StringStores(c, i, a, CKA_VALUE, d);
  }

  lemma CheckValueStores(c: Call, i: nat, a: Attrs, d: bytes)
    requires SetCheckValue(c, i, a, d).rv == CKR_OK
    ensures Stores(c, i, a, CKA_CHECK_VALUE, CheckValue, d, SetCheckValue(c, i, a, d).attrs)
  {
  }

  lemma MeasuredStores(c: Call, i: nat, a: Attrs, k: Kind, bits: Kind, d: bytes)
    requires SetMeasured(c, i, a, k, bits, d).rv == CKR_OK && bits != k
    ensures Stores(c, i, a, k, Measured(bits), d, SetMeasured(c, i, a, k, bits, d).attrs)
  {
    StringStores(c, i, a, k, d);
  }

  lemma WriterStores(c: Call, i: nat, a: Attrs, k: Kind, rule: Rule, d: bytes)
    requires Named(rule, k) && Writer(k, rule)(c, i, a, d).rv == CKR_OK
    ensures Stores(c, i, a, k, rule, d, Writer(k, rule)(c, i, a, d).attrs) == true
  {
    match rule
    case Plain => StringStores(c, i, a, k, d);
    case KeyValue => KeyValueStores(c, i, a, d);
    case CheckValue => CheckValueStores(c, i, a, d);
    case Measured(bits) => MeasuredStores(c, i, a, k, bits, d);
    case _ =>
  }

  // ---------- templates that succeed have been let through ----------

  predicate LetThrough(s: Schema, op: Op, e: Entry) {
    e.kind in s && WellSized(s[e.kind], e) && !Forbidden(s[e.kind].checks, op) && Foreseen(s[e.kind].checks, op)
  }

  lemma UpdateLetThrough(s: Schema, c: Call, i: nat, a: Attrs, e: Entry)
    requires Update(s, c, i, a, e).rv == CKR_OK
    ensures LetThrough(s, c.op, e)
  {
  }

  lemma {:induction false} ApplyLetThrough(s: Schema, c: Call, i: nat, a: Attrs, t: seq<Entry>)
    requires Apply(Updating(s, c), i, a, t).rv == CKR_OK
    ensures forall e :: e in t ==> LetThrough(s, c.op, e)
    decreases |t|
  {
    if t != [] {
      UpdateLetThrough(s, c, i, a, t[0]);
      ApplyLetThrough(s, c, i + 1, Updating(s, c)(i, a, t[0]).attrs, t[1..]);
      forall e | e in t ensures LetThrough(s, c.op, e) {
        assert e == t[0] || e in t[1..];
      }
    }
  }

  // The footnotes that ask for an attribute: 1 when creating an object, 3 when generating it, 5 when
  // unwrapping it.
  predicate Demanded(checks: set<int>, op: Op) {
    (op == OpCreate && 1 in checks) || (op == OpGenerate && 3 in checks) || (op == OpUnwrap && 5 in checks)
  }

  predicate Names(t: seq<Entry>, k: Kind) { exists e :: e in t && e.kind == k }

  // A template that fits: every entry is let through, and no attribute that is asked for is missing.
  predicate Fitting(s: Schema, op: Op, t: seq<Entry>) {
    (forall e :: e in t ==> LetThrough(s, op, e)) && forall k :: k in s && Demanded(s[k].checks, op) ==> Names(t, k)
  }

  lemma SaveFits(s: Schema, c: Call, o: Obj, t: seq<Entry>)
    requires SaveTemplate(s, c, o, t).rv == CKR_OK
    ensures Fitting(s, c.op, t)
  {
    ApplyLetThrough(s, c, 0, o.attrs, t);
    forall k | k in s && Demanded(s[k].checks, c.op) ensures Names(t, k) {
      SpecifiedNames(t, k);
      assert Mandatory(s, k, c.op);
    }
  }

  // An attribute that is missing is answered with TEMPLATE_INCOMPLETE.
  lemma MissingRefused(s: Schema, c: Call, o: Obj, t: seq<Entry>, k: Kind)
    requires !(o.onToken && o.busy) && (c.op == OpCreate || c.op == OpGenerate || c.op == OpUnwrap)
    requires Apply(Updating(s, c), 0, o.attrs, t).rv == CKR_OK && k in s && Demanded(s[k].checks, c.op) && !Names(t, k)
    ensures SaveTemplate(s, c, o, t).rv == CKR_TEMPLATE_INCOMPLETE
  {
    SpecifiedNames(t, k);
    assert Mandatory(s, k, c.op);
  }

  lemma SpecifiedNames(t: seq<Entry>, k: Kind)
    ensures Specified(t, k) <==> Names(t, k)
  {
    if Specified(t, k) {
      var i :| 0 <= i < |t| && t[i].kind == k;
      assert t[i] in t;
    }
  }

  lemma {:induction false} OnlyAll(t: seq<Entry>, keep: Entry -> bool)
    ensures forall e :: e in Only(t, keep) <==> e in t && keep(e)
    decreases |t|
  {
    if t != [] {
      OnlyAll(t[1..], keep);
      forall e ensures e in Only(t, keep) <==> e in t && keep(e) {
        assert e in t <==> e == t[0] || e in t[1..];
      }
    }
  }

  lemma ReorderedAll(t: seq<Entry>)
    ensures forall e :: e in Reordered(t) <==> e in t
  {
    OnlyAll(t, (e: Entry) => e.kind != CKA_CHECK_VALUE);
    OnlyAll(t, (e: Entry) => e.kind == CKA_CHECK_VALUE);
  }

  lemma FitsReordered(s: Schema, op: Op, t: seq<Entry>)
    ensures Fitting(s, op, Reordered(t)) <==> Fitting(s, op, t)
  {
    ReorderedAll(t);
    forall k ensures Names(Reordered(t), k) <==> Names(t, k) {
    }
  }

  // ---------- the calls ----------

  // The schema of the class and key type a template asks for.
  function SchemaFor(x: Session, t: seq<Entry>): Option<Schema> {
    var q := AskedBy(t);
    if q.objClass == None then None
    else x.schemas(q.objClass.value, if q.keyType.Some? then q.keyType.value else 0)
  }

  // An object is created only by a template that fits.
  lemma CreateFits(x: Session, op: Op, t: seq<Entry>)
    requires CreateResult(x, op, t).rv == CKR_OK
    ensures SchemaFor(x, t).Some? && Fitting(SchemaFor(x, t).value, op, t) && |t| <= 32
  {
    var q := AskedBy(t);
    var s := SchemaFor(x, t).value;
    SaveFits(s, Call(x, q.isPrivate, op),
             Rewrite(NewObj(q.onToken), Initialised(s, q.objClass.value, if q.keyType.Some? then q.keyType.value else CKK_RSA, map[])),
             Reordered(t));
    FitsReordered(s, op, t);
  }

  // Attributes are set only with footnote 8, and copied over only with footnote 8 or 17.
  lemma SetFits(x: Session, o: Obj, t: seq<Entry>)
    requires SetResult(x, o, t).rv == CKR_OK
    ensures var s := x.schemas(ClassOf(o.attrs), KeyTypeOf(o.attrs));
      s.Some? && forall e :: e in t ==> e.kind in s.value && 8 in s.value[e.kind].checks
  {
    var s := x.schemas(ClassOf(o.attrs), KeyTypeOf(o.attrs)).value;
    SaveFits(s, Call(x, GetBool(o.attrs, CKA_PRIVATE, true), OpSet),
             Rewrite(o, Initialised(s, ClassOf(o.attrs), KeyTypeOf(o.attrs), o.attrs)), t);
    assert forall e :: e in t ==> LetThrough(s, OpSet, e);
  }

  lemma CopyFits(x: Session, o: Obj, t: seq<Entry>)
    requires CopyResult(x, o, t).obj.Some?
    ensures var s := x.schemas(ClassOf(o.attrs), KeyTypeOf(o.attrs));
      s.Some? && forall e :: e in t ==> e.kind in s.value && (8 in s.value[e.kind].checks || 17 in s.value[e.kind].checks)
  {
    var wasPrivate := GetBool(o.attrs, CKA_PRIVATE, true);
    var onToken := LastFlag(t, CKA_TOKEN, GetBool(o.attrs, CKA_TOKEN, false));
    var isPrivate := LastFlag(t, CKA_PRIVATE, wasPrivate);
    CopyIntoFits(x, o, onToken, isPrivate, !wasPrivate && isPrivate, t);
  }

  lemma CopyIntoFits(x: Session, o: Obj, onToken: bool, isPrivate: bool, upgrade: bool, t: seq<Entry>)
    requires CopyInto(x, o, onToken, isPrivate, upgrade, t).obj.Some?
    ensures var s := x.schemas(ClassOf(o.attrs), KeyTypeOf(o.attrs));
      s.Some? && forall e :: e in t ==> e.kind in s.value && (8 in s.value[e.kind].checks || 17 in s.value[e.kind].checks)
  {
    var b := CopiedAttrs(x, upgrade, o.attrs);
    assert ClassOf(b) == ClassOf(o.attrs) && KeyTypeOf(b) == KeyTypeOf(o.attrs);
    var s := x.schemas(ClassOf(b), KeyTypeOf(b)).value;
    var n := Rewrite(NewObj(onToken), b);
    SaveFits(s, Call(x, isPrivate, OpCopy), Rewrite(n, Initialised(s, ClassOf(b), KeyTypeOf(b), b)), t);
    assert forall e :: e in t ==> LetThrough(s, OpCopy, e);
  }
}
