// What writing one attribute does: the decisions P11Attribute takes from the footnotes, and the
// rule of each attribute. `i` is the position in the template, which numbers the encryptions.
module UpdateRules {
  import opened Bytes
  import opened Attributes

  datatype Outcome = Outcome(rv: Rv, attrs: Attrs)

  // ---------- storing byte strings ----------

  // The bytes kept for p: p itself, or its encryption on a private object.
  function Sealed(c: Call, n: Nonce, p: bytes): Option<bytes> {
    if c.isPrivate then c.session.token.encrypt(n, p) else Some(p)
  }

  // The same with the check that nothing was lost.
  function Stored(c: Call, n: Nonce, p: bytes): Option<bytes> {
    match Sealed(c, n, p)
    case Some(s) => if |s| < |p| then None else Some(s)
    case None => None
  }

  function Opened(c: Call, s: bytes): Option<bytes> {
    if c.isPrivate then c.session.token.decrypt(s) else Some(s)
  }

  function Put(attrs: Attrs, k: Kind, v: Value): Attrs { attrs[k := v] }

  function PutIfPresent(attrs: Attrs, k: Kind, v: Value): Attrs {
    if k in attrs then attrs[k := v] else attrs
  }

  // The key types whose check value the library computes.
  predicate HasCheckValue(keyType: nat) {
    IsHmacKey(keyType) || keyType == CKK_AES || IsDesKey(keyType)
  }

  // ---------- one rule each ----------

  function SetFlag(attrs: Attrs, k: Kind, d: bytes): Outcome {
    if |d| != 1 then Outcome(CKR_ATTRIBUTE_VALUE_INVALID, attrs)
    else Outcome(CKR_OK, Put(attrs, k, Flag(d[0] != 0)))
  }

  function MatchNumber(attrs: Attrs, k: Kind, d: bytes): Rv {
    if |d| != 8 then CKR_ATTRIBUTE_VALUE_INVALID
    else if GetNumber(attrs, k, VENDOR_DEFINED) != ReadNumber(d) then CKR_TEMPLATE_INCONSISTENT
    else CKR_OK
  }

  function SetCopyable(attrs: Attrs, d: bytes): Outcome {
    if |d| != 1 then Outcome(CKR_ATTRIBUTE_VALUE_INVALID, attrs)
    else if d[0] == 0 then Outcome(CKR_OK, Put(attrs, CKA_COPYABLE, Flag(false)))
    else if !IsCopyable(attrs) then Outcome(CKR_ATTRIBUTE_READ_ONLY, attrs)
    else Outcome(CKR_OK, attrs)
  }

  function SetSensitive(op: Op, attrs: Attrs, d: bytes): Outcome {
    if (op.OpSet? || op.OpCopy?) && GetBool(attrs, CKA_SENSITIVE, false) then Outcome(CKR_ATTRIBUTE_READ_ONLY, attrs)
    else if |d| != 1 then Outcome(CKR_ATTRIBUTE_VALUE_INVALID, attrs)
    else if d[0] == 0 then
      Outcome(CKR_OK, Put(Put(attrs, CKA_SENSITIVE, Flag(false)), CKA_ALWAYS_SENSITIVE, Flag(false)))
    else if op.OpGenerate? || op.OpDerive? then
      Outcome(CKR_OK, Put(Put(attrs, CKA_SENSITIVE, Flag(true)), CKA_ALWAYS_SENSITIVE, Flag(true)))
    else Outcome(CKR_OK, Put(attrs, CKA_SENSITIVE, Flag(true)))
  }

  function SetExtractable(op: Op, attrs: Attrs, d: bytes): Outcome {
    if (op.OpSet? || op.OpCopy?) && !GetBool(attrs, CKA_EXTRACTABLE, false) then Outcome(CKR_ATTRIBUTE_READ_ONLY, attrs)
    else if |d| != 1 then Outcome(CKR_ATTRIBUTE_VALUE_INVALID, attrs)
    else if d[0] == 0 then Outcome(CKR_OK, Put(attrs, CKA_EXTRACTABLE, Flag(false)))
    else Outcome(CKR_OK, Put(Put(attrs, CKA_EXTRACTABLE, Flag(true)), CKA_NEVER_EXTRACTABLE, Flag(false)))
  }

  function SetWrapWithTrusted(op: Op, attrs: Attrs, d: bytes): Outcome {
    if (op.OpSet? || op.OpCopy?) && GetBool(attrs, CKA_WRAP_WITH_TRUSTED, false)
    then Outcome(CKR_ATTRIBUTE_READ_ONLY, attrs)
    else SetFlag(attrs, CKA_WRAP_WITH_TRUSTED, d)
  }

  function SetTrusted(soLoggedIn: bool, attrs: Attrs, d: bytes): Outcome {
    if |d| == 1 && d[0] != 0 && !soLoggedIn then Outcome(CKR_ATTRIBUTE_READ_ONLY, attrs)
    else SetFlag(attrs, CKA_TRUSTED, d)
  }

  function SetAlwaysAuthenticate(isPrivate: bool, attrs: Attrs, d: bytes): Outcome {
    if |d| == 1 && d[0] != 0 && !isPrivate then Outcome(CKR_TEMPLATE_INCONSISTENT, attrs)
    else SetFlag(attrs, CKA_ALWAYS_AUTHENTICATE, d)
  }

  function SetDate(attrs: Attrs, k: Kind, d: bytes): Outcome {
    if |d| != 8 && |d| != 0 then Outcome(CKR_ATTRIBUTE_VALUE_INVALID, attrs)
    else Outcome(CKR_OK, Put(attrs, k, Str(d)))
  }

  function SetString(c: Call, i: nat, attrs: Attrs, k: Kind, d: bytes): Outcome {
    match Stored(c, ForEntry(i, false), d)
    case None => Outcome(CKR_GENERAL_ERROR, attrs)
    case Some(s) => Outcome(CKR_OK, Put(attrs, k, Str(s)))
  }

  function SetMeasured(c: Call, i: nat, attrs: Attrs, k: Kind, bits: Kind, d: bytes): Outcome {
    var o := SetString(c, i, attrs, k, d);
    if o.rv == CKR_OK && c.op.OpCreate? then Outcome(CKR_OK, PutIfPresent(o.attrs, bits, Number(Bits(d)))) else o
  }

  // The lengths kept beside a key value that comes from outside.
  function Lengths(op: Op, attrs: Attrs, d: bytes): Attrs {
    if op.OpCreate? || op.OpUnwrap?
    then PutIfPresent(PutIfPresent(attrs, CKA_VALUE_LEN, Number(|d|)), CKA_VALUE_BITS, Number(Bits(d)))
    else attrs
  }

  function SetKeyValue(c: Call, i: nat, attrs: Attrs, d: bytes): Outcome {
    var o := SetString(c, i, attrs, CKA_VALUE, d);
    if o.rv != CKR_OK then o
    else
      var a := Lengths(c.op, o.attrs, d);
      if c.op.OpCreate? && GetNumber(a, CKA_CLASS, VENDOR_DEFINED) == CKO_SECRET_KEY
      then FillCheckValue(c, i, a, d)
      else Outcome(CKR_OK, a)
  }

  // The check value of a secret key brought in by value.
  function FillCheckValue(c: Call, i: nat, attrs: Attrs, d: bytes): Outcome {
    var keyType := GetNumber(attrs, CKA_KEY_TYPE, VENDOR_DEFINED);
    if !HasCheckValue(keyType) && keyType != CKK_GOST28147 then Outcome(CKR_GENERAL_ERROR, attrs)
    else
      match Sealed(c, ForEntry(i, true), if keyType == CKK_GOST28147 then [] else c.session.kcv(keyType, d))
      case None => Outcome(CKR_GENERAL_ERROR, attrs)
      case Some(s) => Outcome(CKR_OK, Put(attrs, CKA_CHECK_VALUE, Str(s)))
  }

  function SetCheckValue(c: Call, i: nat, attrs: Attrs, d: bytes): Outcome {
    match Stored(c, ForEntry(i, false), d)
    case None => Outcome(CKR_GENERAL_ERROR, attrs)
    case Some(s) =>
      if |d| == 0 then Outcome(CKR_OK, Put(attrs, CKA_CHECK_VALUE, Str(s)))
      else Outcome(CompareCheckValue(c, attrs, d),
                   if CompareCheckValue(c, attrs, d) == CKR_OK then Put(attrs, CKA_CHECK_VALUE, Str(s)) else attrs)
  }

  function CompareCheckValue(c: Call, attrs: Attrs, d: bytes): Rv {
    var keyType := GetNumber(attrs, CKA_KEY_TYPE, VENDOR_DEFINED);
    match Opened(c, GetStr(attrs, CKA_VALUE))
    case None => CKR_GENERAL_ERROR
    case Some(keyBits) =>
      if keyType == CKK_GOST28147 then CKR_OK
      else if !HasCheckValue(keyType) then CKR_GENERAL_ERROR
      else if c.session.kcv(keyType, keyBits) != d then CKR_ATTRIBUTE_VALUE_INVALID
      else CKR_OK
  }

  function SetSized(op: Op, ops: set<Op>, attrs: Attrs, k: Kind, d: bytes): Outcome {
    if op !in ops then Outcome(CKR_ATTRIBUTE_READ_ONLY, attrs)
    else if |d| != 8 then Outcome(CKR_ATTRIBUTE_VALUE_INVALID, attrs)
    else Outcome(CKR_OK, Put(attrs, k, Number(ReadNumber(d))))
  }

  function SetTemplate(s: Session, attrs: Attrs, k: Kind, d: bytes): Outcome {
    if |d| % 24 != 0 then Outcome(CKR_ATTRIBUTE_VALUE_INVALID, attrs)
    else
      match s.templates(d)
      case None => Outcome(CKR_ATTRIBUTE_VALUE_INVALID, attrs)
      case Some(t) => Outcome(CKR_OK, Put(attrs, k, Template(t)))
  }

  function MechanismsIn(d: bytes): set<nat> {
    if |d| < 8 then {} else {ReadNumber(d[..8])} + MechanismsIn(d[8..])
  }

  function SetMechanisms(attrs: Attrs, k: Kind, d: bytes): Outcome {
    if |d| == 0 || |d| % 8 != 0 then Outcome(CKR_ATTRIBUTE_VALUE_INVALID, attrs)
    else Outcome(CKR_OK, Put(attrs, k, Mechanisms(MechanismsIn(d))))
  }

  function Writer(k: Kind, rule: Rule): (Call, nat, Attrs, bytes) -> Outcome {
    match rule
    case Plain => (c: Call, i: nat, a: Attrs, d: bytes) => SetString(c, i, a, k, d)
    case Match => (c: Call, i: nat, a: Attrs, d: bytes) => Outcome(MatchNumber(a, k, d), a)
    case Bool => (c: Call, i: nat, a: Attrs, d: bytes) => SetFlag(a, k, d)
    case Copyable => (c: Call, i: nat, a: Attrs, d: bytes) => SetCopyable(a, d)
    case ReadOnly => (c: Call, i: nat, a: Attrs, d: bytes) => Outcome(CKR_ATTRIBUTE_READ_ONLY, a)
    case Sensitive => (c: Call, i: nat, a: Attrs, d: bytes) => SetSensitive(c.op, a, d)
    case Extractable => (c: Call, i: nat, a: Attrs, d: bytes) => SetExtractable(c.op, a, d)
    case WrapWithTrusted => (c: Call, i: nat, a: Attrs, d: bytes) => SetWrapWithTrusted(c.op, a, d)
    case Trusted => (c: Call, i: nat, a: Attrs, d: bytes) => SetTrusted(c.session.token.soLoggedIn, a, d)
    case AlwaysAuthenticate => (c: Call, i: nat, a: Attrs, d: bytes) => SetAlwaysAuthenticate(c.isPrivate, a, d)
    case Date => (c: Call, i: nat, a: Attrs, d: bytes) => SetDate(a, k, d)
    case KeyValue => (c: Call, i: nat, a: Attrs, d: bytes) => SetKeyValue(c, i, a, d)
    case CheckValue => (c: Call, i: nat, a: Attrs, d: bytes) => SetCheckValue(c, i, a, d)
    case Measured(bits) => (c: Call, i: nat, a: Attrs, d: bytes) => SetMeasured(c, i, a, k, bits, d)
    case Sized(ops) => (c: Call, i: nat, a: Attrs, d: bytes) => SetSized(c.op, ops, a, k, d)
    case WrappingTemplate => (c: Call, i: nat, a: Attrs, d: bytes) => SetTemplate(c.session, a, k, d)
    case MechanismSet => (c: Call, i: nat, a: Attrs, d: bytes) => SetMechanisms(a, k, d)
  }

  // ---------- the decision ----------

  // Whether the footnotes let the operation write the attribute; what they say is checked in this
  // order.
  function Permission(s: Schema, op: Op, attrs: Attrs, e: Entry): Rv
    requires e.kind in s
  {
    if e.isNull && |e.data| != 0 then CKR_ATTRIBUTE_VALUE_INVALID
    else if s[e.kind].size.Some? && s[e.kind].size.value != |e.data| then CKR_ATTRIBUTE_VALUE_INVALID
    else if !IsModifiable(attrs) && !op.OpGenerate? && !op.OpCreate? then CKR_ATTRIBUTE_READ_ONLY
    else if Footnote(s, e.kind, 2) && op.OpCreate? then CKR_ATTRIBUTE_READ_ONLY
    else if Footnote(s, e.kind, 4) && op.OpGenerate? then CKR_ATTRIBUTE_READ_ONLY
    else if Footnote(s, e.kind, 6) && op.OpUnwrap? then CKR_ATTRIBUTE_READ_ONLY
    else if Footnote(s, e.kind, 8) && (op.OpSet? || op.OpCopy?) then CKR_OK
    else if Footnote(s, e.kind, 17) && op.OpCopy? then CKR_OK
    else if op.OpSet? || op.OpCopy? then CKR_ATTRIBUTE_READ_ONLY
    else CKR_OK
  }

  function Update(s: Schema, c: Call, i: nat, attrs: Attrs, e: Entry): Outcome {
    if e.kind !in s then Outcome(CKR_ATTRIBUTE_TYPE_INVALID, attrs)
    else if Permission(s, c.op, attrs, e) != CKR_OK then Outcome(Permission(s, c.op, attrs, e), attrs)
    else Writer(e.kind, s[e.kind].rule)(c, i, attrs, e.data)
  }

  // ---------- templates ----------

  type Step = (nat, Attrs, Entry) -> Outcome

  function Updating(s: Schema, c: Call): Step {
    (i: nat, attrs: Attrs, e: Entry) => Update(s, c, i, attrs, e)
  }

  // A template applied entry by entry, up to the first that fails; its first entry is entry i.
  function Apply(step: Step, i: nat, attrs: Attrs, t: seq<Entry>): Outcome
    decreases |t|
  {
    if t == [] then Outcome(CKR_OK, attrs)
    else
      var o := step(i, attrs, t[0]);
      if o.rv != CKR_OK then o else Apply(step, i + 1, o.attrs, t[1..])
  }

  // Applying a template extended by one entry.
  lemma {:induction false} ApplyNext(step: Step, i: nat, attrs: Attrs, t: seq<Entry>, e: Entry)
    requires Apply(step, i, attrs, t).rv == CKR_OK
    ensures Apply(step, i, attrs, t + [e]) == step(i + |t|, Apply(step, i, attrs, t).attrs, e)
    decreases |t|
  {
    if t == [] {
      assert t + [e] == [e];
    } else {
      assert (t + [e])[1..] == t[1..] + [e];
      ApplyNext(step, i + 1, step(i, attrs, t[0]).attrs, t[1..], e);
    }
  }

  // An entry that fails ends the template with its error.
  lemma {:induction false} ApplyStops(step: Step, i: nat, attrs: Attrs, t: seq<Entry>, u: seq<Entry>)
    requires Apply(step, i, attrs, t).rv != CKR_OK
    ensures Apply(step, i, attrs, t + u) == Apply(step, i, attrs, t)
    decreases |t|
  {
    assert (t + u)[1..] == t[1..] + u;
    if step(i, attrs, t[0]).rv == CKR_OK {
      ApplyStops(step, i + 1, step(i, attrs, t[0]).attrs, t[1..], u);
    }
  }

  // A reflexive and transitive relation that every entry keeps is kept by the template.
  lemma {:induction false} ApplyRelates(step: Step, i: nat, attrs: Attrs, t: seq<Entry>, r: (Attrs, Attrs) -> bool)
    requires forall a :: r(a, a)
    requires forall a, b, d :: r(a, b) && r(b, d) ==> r(a, d)
    requires forall j, a, e :: e in t ==> r(a, step(j, a, e).attrs)
    ensures r(attrs, Apply(step, i, attrs, t).attrs)
    decreases |t|
  {
    if t != [] {
      var o := step(i, attrs, t[0]);
      assert r(attrs, o.attrs);
      if o.rv == CKR_OK {
        ApplyRelates(step, i + 1, o.attrs, t[1..], r);
      }
    }
  }

  // ---------- what an update leaves alone ----------

  // The attributes a rule may write.
  function Reach(k: Kind, rule: Rule): set<Kind> {
    match rule
    case Sensitive => {CKA_SENSITIVE, CKA_ALWAYS_SENSITIVE}
    case Extractable => {CKA_EXTRACTABLE, CKA_NEVER_EXTRACTABLE}
    case KeyValue => {CKA_VALUE, CKA_VALUE_LEN, CKA_VALUE_BITS, CKA_CHECK_VALUE}
    case CheckValue => {CKA_CHECK_VALUE}
    case Copyable => {CKA_COPYABLE}
    case WrapWithTrusted => {CKA_WRAP_WITH_TRUSTED}
    case Trusted => {CKA_TRUSTED}
    case AlwaysAuthenticate => {CKA_ALWAYS_AUTHENTICATE}
    case Measured(bits) => {k, bits}
    case ReadOnly | Match => {}
    case _ => {k}
  }

  predicate SameAt(a: Attrs, b: Attrs, x: Kind) {
    (x in b <==> x in a) && (x in a ==> b[x] == a[x])
  }

  lemma KeyValueFrame(c: Call, i: nat, attrs: Attrs, d: bytes, x: Kind)
    requires x !in Reach(CKA_VALUE, KeyValue)
    ensures SameAt(attrs, SetKeyValue(c, i, attrs, d).attrs, x)
  {
  }

  lemma WriterFrame(c: Call, i: nat, attrs: Attrs, k: Kind, rule: Rule, d: bytes, x: Kind)
    requires x !in Reach(k, rule)
    ensures SameAt(attrs, Writer(k, rule)(c, i, attrs, d).attrs, x)
  {
    match rule
    case KeyValue => KeyValueFrame(c, i, attrs, d, x);
    case _ =>
  }

  // An update leaves everything alone that its attribute's rule does not reach.
  lemma UpdateFrame(s: Schema, c: Call, i: nat, attrs: Attrs, e: Entry, x: Kind)
    requires e.kind in s ==> x !in Reach(e.kind, s[e.kind].rule)
    ensures SameAt(attrs, Update(s, c, i, attrs, e).attrs, x)
  {
    if e.kind in s {
      WriterFrame(c, i, attrs, e.kind, s[e.kind].rule, e.data, x);
    }
  }
}
