// The attribute and object classes at work: each updateAttr on the object store, update with its
// footnote checks, saveTemplate and loadTemplate.
module P11Objects {
  import opened Bytes
  import opened Attributes
  import opened UpdateRules
  import opened KeyPolicy
  import opened Objects

  // ---------- updateAttr ----------

  // The bytes to store, encrypted on a private object.
  method Seal(c: Call, n: Nonce, p: bytes) returns (ok: bool, value: bytes)
    ensures ok <==> Stored(c, n, p).Some?
    ensures ok ==> value == Stored(c, n, p).value
  {
    value := [];
    if c.isPrivate {
      match c.session.token.encrypt(n, p) {
        case None => return false, [];
        case Some(e) => value := e;
      }
    } else {
      value := p;
    }
    ok := |value| >= |p|;
  }

  method WriteFlag(o: OSObject, k: Kind, d: bytes) returns (rv: Rv)
    requires o.Buffered()
    modifies o
    ensures Outcome(rv, o.attributes) == SetFlag(old(o.attributes), k, d)
    ensures o.State() == old(o.State()).(attrs := o.attributes)
  {
    if |d| != 1 {
      return CKR_ATTRIBUTE_VALUE_INVALID;
    }
    if d[0] == 0 {
      o.SetAttribute(k, Flag(false));
    } else {
      o.SetAttribute(k, Flag(true));
    }
    rv := CKR_OK;
  }

  method WriteSensitive(o: OSObject, op: Op, d: bytes) returns (rv: Rv)
    requires o.Buffered()
    modifies o
    ensures Outcome(rv, o.attributes) == SetSensitive(op, old(o.attributes), d)
    ensures o.State() == old(o.State()).(attrs := o.attributes)
  {
    if op.OpSet? || op.OpCopy? {
      if GetBool(o.attributes, CKA_SENSITIVE, false) {
        return CKR_ATTRIBUTE_READ_ONLY;
      }
    }
    if |d| != 1 {
      return CKR_ATTRIBUTE_VALUE_INVALID;
    }
    if d[0] == 0 {
      o.SetAttribute(CKA_SENSITIVE, Flag(false));
      o.SetAttribute(CKA_ALWAYS_SENSITIVE, Flag(false));
    } else {
      o.SetAttribute(CKA_SENSITIVE, Flag(true));
      if op.OpGenerate? || op.OpDerive? {
        o.SetAttribute(CKA_ALWAYS_SENSITIVE, Flag(true));
      }
    }
    rv := CKR_OK;
  }

  method WriteExtractable(o: OSObject, op: Op, d: bytes) returns (rv: Rv)
    requires o.Buffered()
    modifies o
    ensures Outcome(rv, o.attributes) == SetExtractable(op, old(o.attributes), d)
    ensures o.State() == old(o.State()).(attrs := o.attributes)
  {
    if op.OpSet? || op.OpCopy? {
      if !GetBool(o.attributes, CKA_EXTRACTABLE, false) {
        return CKR_ATTRIBUTE_READ_ONLY;
      }
    }
    if |d| != 1 {
      return CKR_ATTRIBUTE_VALUE_INVALID;
    }
    if d[0] == 0 {
      o.SetAttribute(CKA_EXTRACTABLE, Flag(false));
    } else {
      o.SetAttribute(CKA_EXTRACTABLE, Flag(true));
      o.SetAttribute(CKA_NEVER_EXTRACTABLE, Flag(false));
    }
    rv := CKR_OK;
  }

  method WriteString(o: OSObject, c: Call, i: nat, k: Kind, d: bytes) returns (rv: Rv)
    requires o.Buffered()
    modifies o
    ensures Outcome(rv, o.attributes) == SetString(c, i, old(o.attributes), k, d)
    ensures o.State() == old(o.State()).(attrs := o.attributes)
  {
    var ok, value := Seal(c, ForEntry(i, false), d);
    if !ok {
      return CKR_GENERAL_ERROR;
    }
    o.SetAttribute(k, Str(value));
    rv := CKR_OK;
  }

  method WriteMeasured(o: OSObject, c: Call, i: nat, k: Kind, bits: Kind, d: bytes) returns (rv: Rv)
    requires o.Buffered()
    modifies o
    ensures Outcome(rv, o.attributes) == SetMeasured(c, i, old(o.attributes), k, bits, d)
    ensures o.State() == old(o.State()).(attrs := o.attributes)
  {
    rv := WriteString(o, c, i, k, d);
    if rv == CKR_OK && c.op.OpCreate? && bits in o.attributes {
      o.SetAttribute(bits, Number(Bits(d)));
    }
  }

  method WriteLengths(o: OSObject, op: Op, d: bytes)
    requires o.Buffered()
    modifies o
    ensures o.State() == old(o.State()).(attrs := Lengths(op, old(o.attributes), d))
  {
    if op.OpCreate? || op.OpUnwrap? {
      if CKA_VALUE_LEN in o.attributes {
        o.SetAttribute(CKA_VALUE_LEN, Number(|d|));
      }
      if CKA_VALUE_BITS in o.attributes {
        o.SetAttribute(CKA_VALUE_BITS, Number(Bits(d)));
      }
    }
  }

  method WriteFilledCheckValue(o: OSObject, c: Call, i: nat, d: bytes) returns (rv: Rv)
    requires o.Buffered()
    modifies o
    ensures Outcome(rv, o.attributes) == FillCheckValue(c, i, old(o.attributes), d)
    ensures o.State() == old(o.State()).(attrs := o.attributes)
  {
    var keyType := GetNumber(o.attributes, CKA_KEY_TYPE, VENDOR_DEFINED);
    var checkValue: bytes := [];
    if HasCheckValue(keyType) {
      checkValue := c.session.kcv(keyType, d);
    } else if keyType != CKK_GOST28147 {
      return CKR_GENERAL_ERROR;
    }
    if c.isPrivate {
      match c.session.token.encrypt(ForEntry(i, true), checkValue) {
        case None => return CKR_GENERAL_ERROR;
        case Some(e) => o.SetAttribute(CKA_CHECK_VALUE, Str(e));
      }
    } else {
      o.SetAttribute(CKA_CHECK_VALUE, Str(checkValue));
    }
    rv := CKR_OK;
  }

  method WriteKeyValue(o: OSObject, c: Call, i: nat, d: bytes) returns (rv: Rv)
    requires o.Buffered()
    modifies o
    ensures Outcome(rv, o.attributes) == SetKeyValue(c, i, old(o.attributes), d)
    ensures o.State() == old(o.State()).(attrs := o.attributes)
  {
    rv := WriteString(o, c, i, CKA_VALUE, d);
    if rv != CKR_OK {
      return;
    }
    WriteLengths(o, c.op, d);
    if c.op.OpCreate? && GetNumber(o.attributes, CKA_CLASS, VENDOR_DEFINED) == CKO_SECRET_KEY {
      rv := WriteFilledCheckValue(o, c, i, d);
    }
  }

  method WriteCheckValue(o: OSObject, c: Call, i: nat, d: bytes) returns (rv: Rv)
    requires o.Buffered()
    modifies o
    ensures Outcome(rv, o.attributes) == SetCheckValue(c, i, old(o.attributes), d)
    ensures o.State() == old(o.State()).(attrs := o.attributes)
  {
    var ok, value := Seal(c, ForEntry(i, false), d);
    if !ok {
      return CKR_GENERAL_ERROR;
    }
    if |d| == 0 {
      o.SetAttribute(CKA_CHECK_VALUE, Str(value));
      return CKR_OK;
    }
    var keyBits := GetStr(o.attributes, CKA_VALUE);
    if c.isPrivate {
      match c.session.token.decrypt(keyBits) {
        case None => return CKR_GENERAL_ERROR;
        case Some(p) => keyBits := p;
      }
    }
    var keyType := GetNumber(o.attributes, CKA_KEY_TYPE, VENDOR_DEFINED);
    var checkValue := d;
    if HasCheckValue(keyType) {
      checkValue := c.session.kcv(keyType, keyBits);
    } else if keyType != CKK_GOST28147 {
      return CKR_GENERAL_ERROR;
    }
    if d != checkValue {
      return CKR_ATTRIBUTE_VALUE_INVALID;
    }
    o.SetAttribute(CKA_CHECK_VALUE, Str(value));
    rv := CKR_OK;
  }

  method ReadMechanisms(d: bytes) returns (data: set<nat>)
    requires |d| % 8 == 0
    ensures data == MechanismsIn(d)
  {
    data := {};
    var i := 0;
    assert d[0..] == d;
    while i < |d| / 8
      invariant 0 <= i <= |d| / 8
      invariant data + MechanismsIn(d[8 * i..]) == MechanismsIn(d)
    {
      ghost var rest := d[8 * i..];
      assert rest[..8] == d[8 * i..8 * i + 8] && rest[8..] == d[8 * (i + 1)..];
      data := data + {ReadNumber(d[8 * i..8 * i + 8])};
      i := i + 1;
    }
  }

  // The rules that store one attribute as given.
  method WriteSimple(o: OSObject, c: Call, k: Kind, rule: Rule, d: bytes) returns (rv: Rv)
    requires o.Buffered()
    requires rule.Sized? || rule.WrappingTemplate? || rule.MechanismSet? || rule.Date?
    modifies o
    ensures Outcome(rv, o.attributes) == Writer(k, rule)(c, 0, old(o.attributes), d)
    ensures o.State() == old(o.State()).(attrs := o.attributes)
  {
    rv := CKR_OK;
    match rule {
      case Date =>
        if |d| != 8 && |d| != 0 {
          return CKR_ATTRIBUTE_VALUE_INVALID;
        }
        o.SetAttribute(k, Str(d));
      case Sized(ops) =>
        if c.op !in ops {
          return CKR_ATTRIBUTE_READ_ONLY;
        }
        if |d| != 8 {
          return CKR_ATTRIBUTE_VALUE_INVALID;
        }
        o.SetAttribute(k, Number(ReadNumber(d)));
      case WrappingTemplate =>
        if |d| % 24 != 0 || c.session.templates(d) == None {
          return CKR_ATTRIBUTE_VALUE_INVALID;
        }
        o.SetAttribute(k, Template(c.session.templates(d).value));
      case MechanismSet =>
        if |d| == 0 || |d| % 8 != 0 {
          return CKR_ATTRIBUTE_VALUE_INVALID;
        }
        var data := ReadMechanisms(d);
        o.SetAttribute(k, Mechanisms(data));
    }
  }

  // The rules that write a flag under a condition.
  method WriteGuarded(o: OSObject, c: Call, k: Kind, rule: Rule, d: bytes) returns (rv: Rv)
    requires o.Buffered()
    requires rule.Copyable? || rule.WrapWithTrusted? || rule.Trusted? || rule.AlwaysAuthenticate?
    modifies o
    ensures Outcome(rv, o.attributes) == Writer(k, rule)(c, 0, old(o.attributes), d)
    ensures o.State() == old(o.State()).(attrs := o.attributes)
  {
    match rule {
      case Copyable =>
        if |d| != 1 {
          return CKR_ATTRIBUTE_VALUE_INVALID;
        }
        if d[0] == 0 {
          o.SetAttribute(CKA_COPYABLE, Flag(false));
        } else if !IsCopyable(o.attributes) {
          return CKR_ATTRIBUTE_READ_ONLY;
        }
        rv := CKR_OK;
      case WrapWithTrusted =>
        if (c.op.OpSet? || c.op.OpCopy?) && GetBool(o.attributes, CKA_WRAP_WITH_TRUSTED, false) {
          return CKR_ATTRIBUTE_READ_ONLY;
        }
        rv := WriteFlag(o, CKA_WRAP_WITH_TRUSTED, d);
      case Trusted =>
        if |d| == 1 && d[0] != 0 && !c.session.token.soLoggedIn {
          return CKR_ATTRIBUTE_READ_ONLY;
        }
        rv := WriteFlag(o, CKA_TRUSTED, d);
      case AlwaysAuthenticate =>
        if |d| == 1 && d[0] != 0 && !c.isPrivate {
          return CKR_TEMPLATE_INCONSISTENT;
        }
        rv := WriteFlag(o, CKA_ALWAYS_AUTHENTICATE, d);
    }
  }

  method UpdateAttr(o: OSObject, c: Call, i: nat, k: Kind, rule: Rule, d: bytes) returns (rv: Rv)
    requires o.Buffered()
    modifies o
    ensures Outcome(rv, o.attributes) == Writer(k, rule)(c, i, old(o.attributes), d)
    ensures o.State() == old(o.State()).(attrs := o.attributes)
  {
    match rule {
      case Plain => rv := WriteString(o, c, i, k, d);
      case Match =>
        if |d| != 8 {
          return CKR_ATTRIBUTE_VALUE_INVALID;
        }
        rv := if GetNumber(o.attributes, k, VENDOR_DEFINED) != ReadNumber(d) then CKR_TEMPLATE_INCONSISTENT else CKR_OK;
      case Bool => rv := WriteFlag(o, k, d);
      case ReadOnly => rv := CKR_ATTRIBUTE_READ_ONLY;
      case Sensitive => rv := WriteSensitive(o, c.op, d);
      case Extractable => rv := WriteExtractable(o, c.op, d);
      case KeyValue => rv := WriteKeyValue(o, c, i, d);
      case CheckValue => rv := WriteCheckValue(o, c, i, d);
      case Measured(bits) => rv := WriteMeasured(o, c, i, k, bits, d);
      case Copyable | WrapWithTrusted | Trusted | AlwaysAuthenticate => rv := WriteGuarded(o, c, k, rule, d);
      case _ => rv := WriteSimple(o, c, k, rule, d);
    }
  }

  // ---------- update ----------

  method CheckPermission(o: OSObject, s: Schema, op: Op, e: Entry) returns (rv: Rv)
    requires e.kind in s
    ensures rv == Permission(s, op, o.attributes, e)
  {
    var checks := s[e.kind].checks;
    if e.isNull && |e.data| != 0 {
      return CKR_ATTRIBUTE_VALUE_INVALID;
    }
    if s[e.kind].size.Some? && s[e.kind].size.value != |e.data| {
      return CKR_ATTRIBUTE_VALUE_INVALID;
    }
    if !IsModifiable(o.attributes) && !op.OpGenerate? && !op.OpCreate? {
      return CKR_ATTRIBUTE_READ_ONLY;
    }
    if (2 in checks && op.OpCreate?) || (4 in checks && op.OpGenerate?) || (6 in checks && op.OpUnwrap?) {
      return CKR_ATTRIBUTE_READ_ONLY;
    }
    if (8 in checks && (op.OpSet? || op.OpCopy?)) || (17 in checks && op.OpCopy?) {
      return CKR_OK;
    }
    if op.OpCreate? || op.OpDerive? || op.OpGenerate? || op.OpUnwrap? {
      return CKR_OK;
    }
    rv := CKR_ATTRIBUTE_READ_ONLY;
  }

  method UpdateEntry(o: OSObject, s: Schema, c: Call, i: nat, e: Entry) returns (rv: Rv)
    requires o.Buffered()
    modifies o
    ensures Outcome(rv, o.attributes) == Updating(s, c)(i, old(o.attributes), e)
    ensures o.State() == old(o.State()).(attrs := o.attributes)
  {
    if e.kind !in s {
      return CKR_ATTRIBUTE_TYPE_INVALID;
    }
    rv := CheckPermission(o, s, c.op, e);
    if rv == CKR_OK {
      rv := UpdateAttr(o, c, i, e.kind, s[e.kind].rule, e.data);
    }
  }

  // ---------- saveTemplate ----------

  // Where a template that is applied entry by entry stands after entry i.
  lemma AppliedThrough(step: Step, a0: Attrs, t: seq<Entry>, i: nat, a: Attrs, o: Outcome)
    requires i < |t| && Apply(step, 0, a0, t[..i]) == Outcome(CKR_OK, a) && o == step(i, a, t[i])
    ensures if o.rv == CKR_OK then Apply(step, 0, a0, t[..i + 1]) == o else Apply(step, 0, a0, t) == o
  {
    ApplyNext(step, 0, a0, t[..i], t[i]);
    assert t[..i] + [t[i]] == t[..i + 1];
    if o.rv != CKR_OK {
      ApplyStops(step, 0, a0, t[..i + 1], t[i + 1..]);
      assert t[..i + 1] + t[i + 1..] == t;
    }
  }

  // The entries one after the other, up to the first that fails.
  method ApplyEntries(o: OSObject, s: Schema, c: Call, t: seq<Entry>) returns (rv: Rv)
    requires o.Buffered()
    modifies o
    ensures Outcome(rv, o.attributes) == Apply(Updating(s, c), 0, old(o.attributes), t)
    ensures o.State() == old(o.State()).(attrs := o.attributes)
  {
    ghost var a0, step := o.attributes, Updating(s, c);
    var i := 0;
    while i < |t|
      invariant 0 <= i <= |t| && o.Buffered()
      invariant Apply(step, 0, a0, t[..i]) == Outcome(CKR_OK, o.attributes)
      invariant o.State() == old(o.State()).(attrs := o.attributes)
    {
      ghost var a := o.attributes;
      rv := UpdateEntry(o, s, c, i, t[i]);
      AppliedThrough(step, a0, t, i, a, Outcome(rv, o.attributes));
      if rv != CKR_OK {
        return;
      }
      i := i + 1;
    }
    assert t[..i] == t;
    rv := CKR_OK;
  }

  method IsComplete(s: Schema, op: Op, t: seq<Entry>) returns (complete: bool)
    ensures complete == Complete(s, op, t)
  {
    var rest := s.Keys;
    while rest != {}
      invariant rest <= s.Keys
      invariant forall k :: k in s && k !in rest && Mandatory(s, k, op) ==> Specified(t, k)
    {
      var k :| k in rest;
      if Mandatory(s, k, op) {
        var n := 0;
        while n < |t| && t[n].kind != k
          invariant 0 <= n <= |t|
          invariant forall j :: 0 <= j < n ==> t[j].kind != k
        {
          n := n + 1;
        }
        if n == |t| {
          return false;
        }
        assert t[n].kind == k;
      }
      rest := rest - {k};
    }
    complete := true;
  }

  method SaveTemplateTo(o: OSObject, s: Schema, c: Call, t: seq<Entry>) returns (rv: Rv)
    modifies o
    ensures Saving(rv, o.State()) == SaveTemplate(s, c, old(o.State()), t)
  {
    var started := o.StartTransaction();
    if !started {
      return CKR_GENERAL_ERROR;
    }
    if c.op.OpSet? && !IsModifiable(o.attributes) {
      o.AbortTransaction();
      return CKR_ACTION_PROHIBITED;
    }
    if c.op.OpCopy? && !IsCopyable(o.attributes) {
      o.AbortTransaction();
      return CKR_ACTION_PROHIBITED;
    }
    rv := ApplyEntries(o, s, c, t);
    if rv != CKR_OK {
      o.AbortTransaction();
      return;
    }
    var complete := IsComplete(s, c.op, t);
    if !complete {
      return CKR_TEMPLATE_INCOMPLETE;
    }
    o.CommitTransaction();
    rv := CKR_OK;
  }

  // ---------- retrieve and loadTemplate ----------

  // A request for one attribute: the room the caller has, or none to ask for the length only.
  datatype Request = Request(kind: Kind, room: Option<nat>)

  // The answer: no length stands for CK_UNAVAILABLE_INFORMATION.
  datatype Answer = Answer(rv: Rv, length: Option<nat>, value: Option<bytes>)

  // The bytes an attribute is handed out as. Sets and templates, whose layout in the caller's memory
  // is not part of this model, are handed out as nothing.
  function Shown(session: Session, isPrivate: bool, v: Value): Option<bytes> {
    match v
    case Flag(b) => Some([if b then 1 else 0])
    case Number(n) => Some(WriteNumber(8, n))
    case Str(d) => if isPrivate && d != [] then session.token.decrypt(d) else Some(d)
    case Mechanisms(_) => Some([])
    case Template(_) => Some([])
  }

  predicate Hidden(s: Schema, a: Attrs, k: Kind) {
    Footnote(s, k, 7) && (IsSensitive(a) || !IsExtractable(a))
  }

  function Retrieved(session: Session, s: Schema, a: Attrs, q: Request): Answer {
    if q.kind !in s then Answer(CKR_ATTRIBUTE_TYPE_INVALID, None, None)
    else if Hidden(s, a, q.kind) then Answer(CKR_ATTRIBUTE_SENSITIVE, None, None)
    else if q.kind !in a then Answer(CKR_GENERAL_ERROR, None, None)
    else
      match Shown(session, GetBool(a, CKA_PRIVATE, false), a[q.kind])
      case None => Answer(CKR_GENERAL_ERROR, None, None)
      case Some(d) =>
        match q.room
        case None => Answer(CKR_OK, Some(|d|), None)
        case Some(n) => if n >= |d| then Answer(CKR_OK, Some(|d|), Some(d)) else Answer(CKR_BUFFER_TOO_SMALL, None, None)
  }

  // The length asked for agrees with the value handed out, and a value is handed out whole or not
  // at all.
  lemma LengthThenValue(session: Session, s: Schema, a: Attrs, k: Kind, n: nat)
    ensures var asked, got := Retrieved(session, s, a, Request(k, None)), Retrieved(session, s, a, Request(k, Some(n)));
      (got.value.Some? <==> asked.rv == CKR_OK && asked.length.Some? && asked.length.value <= n)
      && (got.value.Some? ==> got.rv == CKR_OK && got.length == asked.length == Some(|got.value.value|))
  {
  }

  // The code of the whole request: the most important of the answers'.
  function Summary(answers: seq<Answer>): Rv {
    if Seen(answers, CKR_ATTRIBUTE_SENSITIVE) then CKR_ATTRIBUTE_SENSITIVE
    else if Seen(answers, CKR_ATTRIBUTE_TYPE_INVALID) then CKR_ATTRIBUTE_TYPE_INVALID
    else if Seen(answers, CKR_BUFFER_TOO_SMALL) then CKR_BUFFER_TOO_SMALL
    else CKR_OK
  }

  predicate Seen(answers: seq<Answer>, rv: Rv) { exists x :: x in answers && x.rv == rv }

  lemma SeenNext(answers: seq<Answer>, x: Answer)
    ensures forall rv :: Seen(answers + [x], rv) <==> Seen(answers, rv) || x.rv == rv
  {
    forall rv ensures Seen(answers + [x], rv) <==> Seen(answers, rv) || x.rv == rv {
      if Seen(answers, rv) {
        var y :| y in answers && y.rv == rv;
        assert y in answers + [x];
      }
      assert x in answers + [x];
    }
  }

  predicate Fatal(x: Answer) { x.rv == CKR_GENERAL_ERROR }

  method RetrieveAttribute(session: Session, s: Schema, o: OSObject, q: Request) returns (x: Answer)
    requires q.kind in s
    ensures x == Retrieved(session, s, o.attributes, q)
  {
    if 7 in s[q.kind].checks && (IsSensitive(o.attributes) || !IsExtractable(o.attributes)) {
      return Answer(CKR_ATTRIBUTE_SENSITIVE, None, None);
    }
    if q.kind !in o.attributes {
      return Answer(CKR_GENERAL_ERROR, None, None);
    }
    var shown := Shown(session, GetBool(o.attributes, CKA_PRIVATE, false), o.attributes[q.kind]);
    match shown {
      case None => return Answer(CKR_GENERAL_ERROR, None, None);
      case Some(d) =>
        if q.room == None {
          return Answer(CKR_OK, Some(|d|), None);
        }
        if q.room.value >= |d| {
          return Answer(CKR_OK, Some(|d|), Some(d));
        }
        x := Answer(CKR_BUFFER_TOO_SMALL, None, None);
    }
  }

  // ---------- what a request is answered with ----------

  // A secret part of a key that is sensitive or not extractable.
  predicate Withheld(s: Schema, a: Attrs, k: Kind) {
    k in s && 7 in s[k].checks
    && ((CKA_SENSITIVE in a && a[CKA_SENSITIVE] == Flag(true)) || (CKA_EXTRACTABLE in a && a[CKA_EXTRACTABLE] == Flag(false)))
  }

  // An attribute the object should have but does not, or a string that cannot be decrypted.
  predicate Unreadable(session: Session, s: Schema, a: Attrs, k: Kind) {
    k in s && !Withheld(s, a, k)
    && (k !in a
        || (a[k].Str? && a[k].s != [] && CKA_PRIVATE in a && a[CKA_PRIVATE] == Flag(true) && session.token.decrypt(a[k].s) == None))
  }

  // A value for which the caller has not enough room.
  predicate TooLong(session: Session, s: Schema, a: Attrs, q: Request) {
    q.kind in s && !Withheld(s, a, q.kind) && !Unreadable(session, s, a, q.kind) && q.kind in a && q.room.Some?
    && var shown := Shown(session, GetBool(a, CKA_PRIVATE, false), a[q.kind]);
       shown.Some? && q.room.value < |shown.value|
  }

  // Exactly one of these answers every request.
  lemma AnswerExactly(session: Session, s: Schema, a: Attrs, q: Request)
    ensures var rv := Retrieved(session, s, a, q).rv;
      (rv == CKR_ATTRIBUTE_TYPE_INVALID <==> q.kind !in s)
      && (rv == CKR_ATTRIBUTE_SENSITIVE <==> Withheld(s, a, q.kind))
      && (rv == CKR_GENERAL_ERROR <==> Unreadable(session, s, a, q.kind))
      && (rv == CKR_BUFFER_TOO_SMALL <==> TooLong(session, s, a, q))
  {
  }

  ghost predicate SomeUnreadable(session: Session, s: Schema, a: Attrs, t: seq<Request>) {
    exists q :: q in t && Unreadable(session, s, a, q.kind)
  }

  ghost predicate SomeWithheld(s: Schema, a: Attrs, t: seq<Request>) { exists q :: q in t && Withheld(s, a, q.kind) }
  ghost predicate SomeUnknown(s: Schema, t: seq<Request>) { exists q: Request :: q in t && q.kind !in s }
  ghost predicate SomeTooLong(session: Session, s: Schema, a: Attrs, t: seq<Request>) {
    exists q :: q in t && TooLong(session, s, a, q)
  }

  ghost predicate Answered(session: Session, s: Schema, a: Attrs, t: seq<Request>, answers: seq<Answer>) {
    |answers| == |t| && forall i :: 0 <= i < |answers| ==> answers[i] == Retrieved(session, s, a, t[i])
  }

  lemma SeenRequested(session: Session, s: Schema, a: Attrs, t: seq<Request>, answers: seq<Answer>, rv: Rv)
    requires Answered(session, s, a, t, answers)
    ensures Seen(answers, rv) <==> exists q :: q in t && Retrieved(session, s, a, q).rv == rv
  {
    if Seen(answers, rv) {
      var i :| 0 <= i < |answers| && answers[i].rv == rv;
      assert t[i] in t;
    }
    if exists q :: q in t && Retrieved(session, s, a, q).rv == rv {
      var i :| 0 <= i < |t| && Retrieved(session, s, a, t[i]).rv == rv;
      assert answers[i] in answers;
    }
  }

  // So the code of the whole request says what was asked for: something withheld first, then
  // something unknown, then something too long.
  lemma SummaryExactly(session: Session, s: Schema, a: Attrs, t: seq<Request>, answers: seq<Answer>)
    requires Answered(session, s, a, t, answers)
    ensures Summary(answers)
         == if SomeWithheld(s, a, t) then CKR_ATTRIBUTE_SENSITIVE
            else if SomeUnknown(s, t) then CKR_ATTRIBUTE_TYPE_INVALID
            else if SomeTooLong(session, s, a, t) then CKR_BUFFER_TOO_SMALL
            else CKR_OK
  {
    SeenRequested(session, s, a, t, answers, CKR_ATTRIBUTE_SENSITIVE);
    SeenRequested(session, s, a, t, answers, CKR_ATTRIBUTE_TYPE_INVALID);
    SeenRequested(session, s, a, t, answers, CKR_BUFFER_TOO_SMALL);
    forall q ensures q in t ==>
      (Retrieved(session, s, a, q).rv == CKR_ATTRIBUTE_SENSITIVE <==> Withheld(s, a, q.kind))
      && (Retrieved(session, s, a, q).rv == CKR_ATTRIBUTE_TYPE_INVALID <==> q.kind !in s)
      && (Retrieved(session, s, a, q).rv == CKR_BUFFER_TOO_SMALL <==> TooLong(session, s, a, q))
    {
      AnswerExactly(session, s, a, q);
    }
  }

  lemma NoneUnreadable(session: Session, s: Schema, a: Attrs, t: seq<Request>, answers: seq<Answer>)
    requires Answered(session, s, a, t, answers) && forall x :: x in answers ==> !Fatal(x)
    ensures !SomeUnreadable(session, s, a, t)
  {
    SeenRequested(session, s, a, t, answers, CKR_GENERAL_ERROR);
    forall q | q in t ensures !Unreadable(session, s, a, q.kind) {
      AnswerExactly(session, s, a, q);
    }
  }

  // A request for an attribute the object may not have.
  method AnswerRequest(session: Session, s: Schema, o: OSObject, q: Request) returns (x: Answer)
    ensures x == Retrieved(session, s, o.attributes, q)
    ensures x.rv == CKR_ATTRIBUTE_SENSITIVE || x.rv == CKR_ATTRIBUTE_TYPE_INVALID || x.rv == CKR_BUFFER_TOO_SMALL
         || x.rv == CKR_OK || Fatal(x)
  {
    if q.kind !in s {
      return Answer(CKR_ATTRIBUTE_TYPE_INVALID, None, None);
    }
    x := RetrieveAttribute(session, s, o, q);
  }

  // Answers every request up to one that fails outright; the others are answered even if one of
  // them is refused.
  method LoadTemplate(session: Session, s: Schema, o: OSObject, t: seq<Request>) returns (rv: Rv, answers: seq<Answer>)
    ensures |answers| <= |t|
    ensures forall i :: 0 <= i < |answers| ==> answers[i] == Retrieved(session, s, o.attributes, t[i])
    ensures rv != CKR_GENERAL_ERROR ==> |answers| == |t|
    ensures rv == if SomeUnreadable(session, s, o.attributes, t) then CKR_GENERAL_ERROR
                  else if SomeWithheld(s, o.attributes, t) then CKR_ATTRIBUTE_SENSITIVE
                  else if SomeUnknown(s, t) then CKR_ATTRIBUTE_TYPE_INVALID
                  else if SomeTooLong(session, s, o.attributes, t) then CKR_BUFFER_TOO_SMALL
                  else CKR_OK
  {
    var invalid, sensitive, bufferTooSmall := false, false, false;
    answers := [];
    var i := 0;
    while i < |t|
      invariant 0 <= i <= |t| && |answers| == i
      invariant forall j :: 0 <= j < i ==> answers[j] == Retrieved(session, s, o.attributes, t[j]) && !Fatal(answers[j])
      invariant sensitive == Seen(answers, CKR_ATTRIBUTE_SENSITIVE)
      invariant invalid == Seen(answers, CKR_ATTRIBUTE_TYPE_INVALID)
      invariant bufferTooSmall == Seen(answers, CKR_BUFFER_TOO_SMALL)
    {
      var x := AnswerRequest(session, s, o, t[i]);
      SeenNext(answers, x);
      answers := answers + [x];
      if x.rv == CKR_ATTRIBUTE_SENSITIVE {
        sensitive := true;
      } else if x.rv == CKR_ATTRIBUTE_TYPE_INVALID {
        invalid := true;
      } else if x.rv == CKR_BUFFER_TOO_SMALL {
        bufferTooSmall := true;
      } else if x.rv != CKR_OK {
        AnswerExactly(session, s, o.attributes, t[i]);
        assert t[i] in t;
        return CKR_GENERAL_ERROR, answers;
      }
      i := i + 1;
    }
    NoneUnreadable(session, s, o.attributes, t, answers);
    SummaryExactly(session, s, o.attributes, t, answers);
    rv := if sensitive then CKR_ATTRIBUTE_SENSITIVE
          else if invalid then CKR_ATTRIBUTE_TYPE_INVALID
          else if bufferTooSmall then CKR_BUFFER_TOO_SMALL
          else CKR_OK;
  }
}
