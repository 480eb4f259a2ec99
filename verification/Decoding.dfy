// What the stored attributes of an object stand for. Strings of a private object are kept encrypted,
// each under a fresh initialization vector; decoded, the object behaves exactly like one that is
// kept in clear.
module Decoding {
  import opened Bytes
  import opened Attributes
  import opened UpdateRules
  import opened KeyPolicy
  import opened Objects
  import opened KeyCalls

  // Decryption undoes encryption, whatever vector was drawn, and leaves the empty string alone.
  ghost predicate Lawful(k: Token) {
    (forall n, p :: k.encrypt(n, p).Some? ==> k.decrypt(k.encrypt(n, p).value) == Some(p))
    && k.decrypt([]) == Some([])
  }

  // The same session on a token that stores everything as it is.
  function InClear(x: Session): Session {
    x.(token := Token(x.token.soLoggedIn, (n: Nonce, p: bytes) => Some(p), (d: bytes) => Some(d)))
  }

  function Plainly(c: Call): Call { c.(session := InClear(c.session)) }

  // Dates are stored as they are, on private objects too.
  predicate Encoded(k: Kind) { k != CKA_START_DATE && k != CKA_END_DATE }

  type Key = bytes -> Option<bytes>

  predicate DecodableAt(dec: Key, isPrivate: bool, a: Attrs, k: Kind) {
    isPrivate && Encoded(k) && k in a && a[k].Str? ==> dec(a[k].s).Some?
  }

  ghost predicate Decodable(dec: Key, isPrivate: bool, a: Attrs) {
    forall k :: DecodableAt(dec, isPrivate, a, k)
  }

  function DecodedValue(dec: Key, isPrivate: bool, k: Kind, v: Value): Value {
    if isPrivate && Encoded(k) && v.Str? && dec(v.s).Some? then Str(dec(v.s).value) else v
  }

  function Decoded(dec: Key, isPrivate: bool, a: Attrs): Attrs {
    map k | k in a :: DecodedValue(dec, isPrivate, k, a[k])
  }

  // ---------- one attribute ----------

  lemma PutString(c: Call, a: Attrs, k: Kind, n: Nonce, p: bytes)
    requires Lawful(c.session.token) && Encoded(k) && Sealed(c, n, p).Some?
    requires Decodable(c.session.token.decrypt, c.isPrivate, a)
    ensures var b, dec := Put(a, k, Str(Sealed(c, n, p).value)), c.session.token.decrypt;
      Decodable(dec, c.isPrivate, b)
      && Decoded(dec, c.isPrivate, b) == Put(Decoded(dec, c.isPrivate, a), k, Str(p))
  {
    var b, dec := Put(a, k, Str(Sealed(c, n, p).value)), c.session.token.decrypt;
    forall x ensures DecodableAt(dec, c.isPrivate, b, x) {
      assert DecodableAt(dec, c.isPrivate, a, x);
    }
  }

  lemma PutOther(dec: Key, isPrivate: bool, a: Attrs, k: Kind, v: Value)
    requires !v.Str? || !Encoded(k)
    requires Decodable(dec, isPrivate, a)
    ensures var b := Put(a, k, v);
      Decodable(dec, isPrivate, b)
      && Decoded(dec, isPrivate, b) == Put(Decoded(dec, isPrivate, a), k, v)
  {
    var b := Put(a, k, v);
    forall x ensures DecodableAt(dec, isPrivate, b, x) {
      assert DecodableAt(dec, isPrivate, a, x);
    }
  }

  // From an outcome on a and the outcome on a decoded: both are the same decoded, unless the token
  // failed; what is stored can be decoded in any case.
  ghost predicate Matches(c: Call, o: Outcome, d: Outcome) {
    Decodable(c.session.token.decrypt, c.isPrivate, o.attrs)
    && (o.rv != CKR_GENERAL_ERROR ==> d == Outcome(o.rv, Decoded(c.session.token.decrypt, c.isPrivate, o.attrs)))
  }

  ghost predicate Ready(c: Call, a: Attrs) {
    Lawful(c.session.token) && Decodable(c.session.token.decrypt, c.isPrivate, a)
  }

  function View(c: Call, a: Attrs): Attrs { Decoded(c.session.token.decrypt, c.isPrivate, a) }

  lemma FlagsSeen(c: Call, a: Attrs, k: Kind)
    ensures forall b :: GetBool(View(c, a), k, b) == GetBool(a, k, b)
    ensures forall n :: GetNumber(View(c, a), k, n) == GetNumber(a, k, n)
  {
  }

  lemma StringMatches(c: Call, i: nat, a: Attrs, k: Kind, d: bytes)
    requires Ready(c, a) && Encoded(k)
    ensures Matches(c, SetString(c, i, a, k, d), SetString(Plainly(c), i, View(c, a), k, d)) == true
  {
    if Stored(c, ForEntry(i, false), d).Some? {
      PutString(c, a, k, ForEntry(i, false), d);
    }
  }

  lemma IfPresentMatches(c: Call, a: Attrs, k: Kind, n: nat)
    requires Ready(c, a)
    ensures Ready(c, PutIfPresent(a, k, Number(n)))
    ensures View(c, PutIfPresent(a, k, Number(n))) == PutIfPresent(View(c, a), k, Number(n))
  {
    PutOther(c.session.token.decrypt, c.isPrivate, a, k, Number(n));
  }

  lemma LengthsMatch(c: Call, a: Attrs, d: bytes)
    requires Ready(c, a)
    ensures Ready(c, Lengths(c.op, a, d)) && View(c, Lengths(c.op, a, d)) == Lengths(c.op, View(c, a), d)
  {
    IfPresentMatches(c, a, CKA_VALUE_LEN, |d|);
    IfPresentMatches(c, PutIfPresent(a, CKA_VALUE_LEN, Number(|d|)), CKA_VALUE_BITS, Bits(d));
  }

  lemma FillMatches(c: Call, i: nat, a: Attrs, d: bytes)
    requires Ready(c, a)
    ensures Matches(c, FillCheckValue(c, i, a, d), FillCheckValue(Plainly(c), i, View(c, a), d)) == true
  {
    var keyType := GetNumber(a, CKA_KEY_TYPE, VENDOR_DEFINED);
    FlagsSeen(c, a, CKA_KEY_TYPE);
    var p := if keyType == CKK_GOST28147 then [] else c.session.kcv(keyType, d);
    if Sealed(c, ForEntry(i, true), p).Some? {
      PutString(c, a, CKA_CHECK_VALUE, ForEntry(i, true), p);
    }
  }

  lemma KeyValueMatches(c: Call, i: nat, a: Attrs, d: bytes)
    requires Ready(c, a)
    ensures Matches(c, SetKeyValue(c, i, a, d), SetKeyValue(Plainly(c), i, View(c, a), d)) == true
  {
    StringMatches(c, i, a, CKA_VALUE, d);
    var o := SetString(c, i, a, CKA_VALUE, d);
    if o.rv == CKR_OK {
      LengthsMatch(c, o.attrs, d);
      var b := Lengths(c.op, o.attrs, d);
      FlagsSeen(c, b, CKA_CLASS);
      FillMatches(c, i, b, d);
    }
  }

  lemma CompareMatches(c: Call, a: Attrs, d: bytes)
    requires Ready(c, a)
    ensures CompareCheckValue(c, a, d) == CompareCheckValue(Plainly(c), View(c, a), d)
  {
    FlagsSeen(c, a, CKA_KEY_TYPE);
    assert DecodableAt(c.session.token.decrypt, c.isPrivate, a, CKA_VALUE);
  }

  lemma CheckValueMatches(c: Call, i: nat, a: Attrs, d: bytes)
    requires Ready(c, a)
    ensures Matches(c, SetCheckValue(c, i, a, d), SetCheckValue(Plainly(c), i, View(c, a), d)) == true
  {
    if Stored(c, ForEntry(i, false), d).Some? {
      PutString(c, a, CKA_CHECK_VALUE, ForEntry(i, false), d);
      CompareMatches(c, a, d);
    }
  }

  lemma MeasuredMatches(c: Call, i: nat, a: Attrs, k: Kind, bits: Kind, d: bytes)
    requires Ready(c, a) && Encoded(k)
    ensures Matches(c, SetMeasured(c, i, a, k, bits, d), SetMeasured(Plainly(c), i, View(c, a), k, bits, d)) == true
  {
    StringMatches(c, i, a, k, d);
    if SetString(c, i, a, k, d).rv == CKR_OK {
      IfPresentMatches(c, SetString(c, i, a, k, d).attrs, bits, Bits(d));
    }
  }

  lemma SensitiveMatches(c: Call, a: Attrs, d: bytes)
    requires Ready(c, a)
    ensures Matches(c, SetSensitive(c.op, a, d), SetSensitive(c.op, View(c, a), d)) == true
  {
    var dec := c.session.token.decrypt;
    FlagsSeen(c, a, CKA_SENSITIVE);
    forall b
      ensures Ready(c, Put(a, CKA_SENSITIVE, Flag(b)))
      ensures View(c, Put(a, CKA_SENSITIVE, Flag(b))) == Put(View(c, a), CKA_SENSITIVE, Flag(b))
    {
      PutOther(dec, c.isPrivate, a, CKA_SENSITIVE, Flag(b));
    }
    PutOther(dec, c.isPrivate, Put(a, CKA_SENSITIVE, Flag(false)), CKA_ALWAYS_SENSITIVE, Flag(false));
    PutOther(dec, c.isPrivate, Put(a, CKA_SENSITIVE, Flag(true)), CKA_ALWAYS_SENSITIVE, Flag(true));
  }

  lemma ExtractableMatches(c: Call, a: Attrs, d: bytes)
    requires Ready(c, a)
    ensures Matches(c, SetExtractable(c.op, a, d), SetExtractable(c.op, View(c, a), d)) == true
  {
    var dec := c.session.token.decrypt;
    FlagsSeen(c, a, CKA_EXTRACTABLE);
    PutOther(dec, c.isPrivate, a, CKA_EXTRACTABLE, Flag(false));
    PutOther(dec, c.isPrivate, a, CKA_EXTRACTABLE, Flag(true));
    PutOther(dec, c.isPrivate, Put(a, CKA_EXTRACTABLE, Flag(true)), CKA_NEVER_EXTRACTABLE, Flag(false));
  }

  lemma PutMatches(c: Call, a: Attrs, k: Kind)
    requires Ready(c, a)
    ensures forall v: Value {:trigger Put(a, k, v)} :: !v.Str? || !Encoded(k) ==>
      Decodable(c.session.token.decrypt, c.isPrivate, Put(a, k, v)) && View(c, Put(a, k, v)) == Put(View(c, a), k, v)
  {
    forall v: Value | !v.Str? || !Encoded(k)
      ensures Decodable(c.session.token.decrypt, c.isPrivate, Put(a, k, v))
      ensures View(c, Put(a, k, v)) == Put(View(c, a), k, v)
    {
      PutOther(c.session.token.decrypt, c.isPrivate, a, k, v);
    }
  }

  lemma FlagMatches(c: Call, i: nat, a: Attrs, k: Kind, rule: Rule, d: bytes)
    requires Ready(c, a)
    requires rule.Bool? || rule.Copyable? || rule.WrapWithTrusted? || rule.Trusted? || rule.AlwaysAuthenticate?
    ensures Matches(c, Writer(k, rule)(c, i, a, d), Writer(k, rule)(Plainly(c), i, View(c, a), d)) == true
  {
    var x := match rule case Copyable => CKA_COPYABLE case WrapWithTrusted => CKA_WRAP_WITH_TRUSTED
             case Trusted => CKA_TRUSTED case AlwaysAuthenticate => CKA_ALWAYS_AUTHENTICATE case _ => k;
    FlagsSeen(c, a, x);
    PutMatches(c, a, x);
  }

  lemma NoStringMatches(c: Call, i: nat, a: Attrs, k: Kind, rule: Rule, d: bytes)
    requires Ready(c, a) && (rule.Date? ==> !Encoded(k))
    requires rule.Match? || rule.ReadOnly? || rule.Date? || rule.Sized? || rule.WrappingTemplate? || rule.MechanismSet?
    ensures Matches(c, Writer(k, rule)(c, i, a, d), Writer(k, rule)(Plainly(c), i, View(c, a), d)) == true
  {
    FlagsSeen(c, a, k);
    PutMatches(c, a, k);
  }

  lemma WriterMatches(c: Call, i: nat, a: Attrs, k: Kind, rule: Rule, d: bytes)
    requires Ready(c, a) && Named(rule, k)
    ensures Matches(c, Writer(k, rule)(c, i, a, d), Writer(k, rule)(Plainly(c), i, View(c, a), d)) == true
  {
    match rule
    case Plain => StringMatches(c, i, a, k, d);
    case KeyValue => KeyValueMatches(c, i, a, d);
    case CheckValue => CheckValueMatches(c, i, a, d);
    case Measured(bits) => MeasuredMatches(c, i, a, k, bits, d);
    case Sensitive => SensitiveMatches(c, a, d);
    case Extractable => ExtractableMatches(c, a, d);
    case Bool | Copyable | WrapWithTrusted | Trusted | AlwaysAuthenticate => FlagMatches(c, i, a, k, rule, d);
    case _ => NoStringMatches(c, i, a, k, rule, d);
  }

  lemma UpdateMatches(s: Schema, c: Call, i: nat, a: Attrs, e: Entry)
    requires Ready(c, a) && Proper(s)
    ensures Matches(c, Update(s, c, i, a, e), Update(s, Plainly(c), i, View(c, a), e)) == true
  {
    FlagsSeen(c, a, CKA_MODIFIABLE);
    if e.kind in s {
      WriterMatches(c, i, a, e.kind, s[e.kind].rule, e.data);
    }
  }

  // ---------- templates ----------

  lemma {:induction false} ApplyMatches(s: Schema, c: Call, i: nat, a: Attrs, t: seq<Entry>)
    requires Ready(c, a) && Proper(s)
    ensures Matches(c, Apply(Updating(s, c), i, a, t), Apply(Updating(s, Plainly(c)), i, View(c, a), t)) == true
    decreases |t|
  {
    if t != [] {
      UpdateMatches(s, c, i, a, t[0]);
      var o := Updating(s, c)(i, a, t[0]);
      if o.rv == CKR_OK {
        ApplyMatches(s, c, i + 1, o.attrs, t[1..]);
      }
    }
  }

  function ViewObj(c: Call, o: Obj): Obj { o.(attrs := View(c, o.attrs), saved := View(c, o.saved)) }

  ghost predicate SavingMatches(c: Call, r: Saving, d: Saving) {
    Decodable(c.session.token.decrypt, c.isPrivate, r.obj.attrs)
    && (r.rv != CKR_GENERAL_ERROR ==> d == Saving(r.rv, ViewObj(c, r.obj)))
  }

  lemma EndMatches(c: Call, p: Obj, r: Outcome, d: Outcome, complete: bool)
    requires Matches(c, r, d)
    requires p.onToken ==> Decodable(c.session.token.decrypt, c.isPrivate, p.saved)
    ensures SavingMatches(c, Ended(p, r, complete), Ended(ViewObj(c, p), d, complete))
  {
  }

  // Saving a template to an encrypted object, and then decoding it, is saving the template to the
  // decoded object in clear, unless the token fails; what is stored can be decoded in any case.
  lemma SaveMatches(s: Schema, c: Call, o: Obj, t: seq<Entry>)
    requires Lawful(c.session.token) && Proper(s) && Settled(o)
    requires Decodable(c.session.token.decrypt, c.isPrivate, o.attrs)
    ensures SavingMatches(c, SaveTemplate(s, c, o, t), SaveTemplate(s, Plainly(c), ViewObj(c, o), t)) == true
  {
    FlagsSeen(c, o.attrs, CKA_MODIFIABLE);
    FlagsSeen(c, o.attrs, CKA_COPYABLE);
    if Start(o).Some? && !Prohibited(c.op, o.attrs) {
      var p := Start(o).value;
      ApplyMatches(s, c, 0, p.attrs, t);
      EndMatches(c, p, Apply(Updating(s, c), 0, p.attrs, t), Apply(Updating(s, Plainly(c)), 0, View(c, p.attrs), t),
                 Complete(s, c.op, t));
    }
  }

  // ---------- the flag that says which strings are encrypted ----------

  predicate IsPrivate(a: Attrs) { GetBool(a, CKA_PRIVATE, true) }

  predicate HasPrivate(a: Attrs) { IsFlag(a, CKA_PRIVATE) }

  lemma PrivateEntry(s: Schema, c: Call, i: nat, a: Attrs, e: Entry)
    requires Proper(s) && HasPrivate(a)
    ensures var o := Update(s, c, i, a, e);
      HasPrivate(o.attrs)
      && (o.rv == CKR_OK ==> IsPrivate(o.attrs) == LastFlag([e], CKA_PRIVATE, IsPrivate(a)))
      && (c.op.OpSet? ==> IsPrivate(o.attrs) == IsPrivate(a))
  {
    assert LastFlag([e], CKA_PRIVATE, IsPrivate(a))
        == if e.kind == CKA_PRIVATE && |e.data| == 1 then e.data[0] != 0 else IsPrivate(a);
    if e.kind == CKA_PRIVATE {
      assert s[e.kind].rule == Bool;
    } else {
      UpdateFrame(s, c, i, a, e, CKA_PRIVATE);
    }
  }

  // After a template has been applied, the flag is what the last entry for it says; setting
  // attributes cannot change it.
  lemma {:induction false} PrivateApplied(s: Schema, c: Call, i: nat, a: Attrs, t: seq<Entry>)
    requires Proper(s) && HasPrivate(a)
    ensures var o := Apply(Updating(s, c), i, a, t);
      HasPrivate(o.attrs)
      && (o.rv == CKR_OK ==> IsPrivate(o.attrs) == LastFlag(t, CKA_PRIVATE, IsPrivate(a)))
      && (c.op.OpSet? ==> IsPrivate(o.attrs) == IsPrivate(a))
    decreases |t|
  {
    if t != [] {
      PrivateEntry(s, c, i, a, t[0]);
      var o := Updating(s, c)(i, a, t[0]);
      assert LastFlag([t[0]], CKA_PRIVATE, IsPrivate(a))
          == if t[0].kind == CKA_PRIVATE && |t[0].data| == 1 then t[0].data[0] != 0 else IsPrivate(a);
      if o.rv == CKR_OK {
        PrivateApplied(s, c, i + 1, o.attrs, t[1..]);
      }
    }
  }

  // ---------- what was last written ----------

  // Whether writing a key value also writes a check value, computed from it.
  datatype Filler = NoCheck | Check(kcv: (nat, bytes) -> bytes, keyType: nat)

  function CheckValueOf(f: Filler, d: bytes): bytes
    requires f.Check?
  {
    if f.keyType == CKK_GOST28147 then [] else f.kcv(f.keyType, d)
  }

  // Only creating a secret key by value does.
  function FillerOf(c: Call, a: Attrs): Filler {
    if c.op.OpCreate? && GetNumber(a, CKA_CLASS, VENDOR_DEFINED) == CKO_SECRET_KEY
    then Check(c.session.kcv, GetNumber(a, CKA_KEY_TYPE, VENDOR_DEFINED))
    else NoCheck
  }

  // The plaintext of string attribute k after an entry, and after a template, when it was v before.
  function WrittenBy(f: Filler, e: Entry, k: Kind, v: bytes): bytes {
    if e.kind == k then e.data
    else if f.Check? && e.kind == CKA_VALUE && k == CKA_CHECK_VALUE then CheckValueOf(f, e.data)
    else v
  }

  function LastWritten(f: Filler, t: seq<Entry>, k: Kind, v: bytes): bytes {
    if t == [] then v else LastWritten(f, t[1..], k, WrittenBy(f, t[0], k, v))
  }

  predicate KeepsStrings(rule: Rule) { rule.Plain? || rule.KeyValue? || rule.Measured? || rule.CheckValue? }

  lemma FillerSeen(c: Call, a: Attrs)
    ensures FillerOf(Plainly(c), View(c, a)) == FillerOf(c, a)
  {
    FlagsSeen(c, a, CKA_CLASS);
    FlagsSeen(c, a, CKA_KEY_TYPE);
  }

  lemma FillerKept(s: Schema, c: Call, i: nat, a: Attrs, e: Entry)
    requires Proper(s)
    ensures FillerOf(c, Update(s, c, i, a, e).attrs) == FillerOf(c, a)
  {
    UpdateFrame(s, c, i, a, e, CKA_CLASS);
    UpdateFrame(s, c, i, a, e, CKA_KEY_TYPE);
  }

  ghost predicate StoresAll(c: Call) { forall n, p :: Sealed(c, n, p) == Some(p) }

  lemma StringWritten(c: Call, i: nat, a: Attrs, k: Kind, rule: Rule, d: bytes)
    requires KeepsStrings(rule) && Named(rule, k) && StoresAll(c)
    requires Writer(k, rule)(c, i, a, d).rv == CKR_OK
    ensures var b := Writer(k, rule)(c, i, a, d).attrs;
      k in b && b[k] == Str(d)
  {
    assert Sealed(c, ForEntry(i, false), d) == Some(d);
  }

  // What writing a key value does to the check value.
  lemma CheckValueFilled(c: Call, i: nat, a: Attrs, d: bytes)
    requires StoresAll(c) && CKA_CHECK_VALUE in a && a[CKA_CHECK_VALUE].Str?
    requires SetKeyValue(c, i, a, d).rv == CKR_OK
    ensures var b := SetKeyValue(c, i, a, d).attrs;
      CKA_CHECK_VALUE in b
      && b[CKA_CHECK_VALUE] == Str(WrittenBy(FillerOf(c, a), Entry(CKA_VALUE, false, d), CKA_CHECK_VALUE, a[CKA_CHECK_VALUE].s))
  {
    assert Sealed(c, ForEntry(i, false), d) == Some(d);
    var b := Lengths(c.op, Put(a, CKA_VALUE, Str(d)), d);
    assert FillerOf(c, b) == FillerOf(c, a);
  }

  lemma WrittenInClear(s: Schema, c: Call, i: nat, a: Attrs, e: Entry, k: Kind)
    requires Proper(s) && StoresAll(c) && k in s && KeepsStrings(s[k].rule) && k in a && a[k].Str?
    requires Update(s, c, i, a, e).rv == CKR_OK
    ensures var b := Update(s, c, i, a, e).attrs;
      k in b && b[k] == Str(WrittenBy(FillerOf(c, a), e, k, a[k].s))
  {
    assert Named(s[k].rule, k) && Named(s[e.kind].rule, e.kind);
    if e.kind == k {
      StringWritten(c, i, a, k, s[k].rule, e.data);
    } else if e.kind == CKA_VALUE && k == CKA_CHECK_VALUE && s[CKA_VALUE].rule.KeyValue? {
      CheckValueFilled(c, i, a, e.data);
    } else {
      UpdateFrame(s, c, i, a, e, k);
    }
  }

  lemma {:induction false} AppliedInClear(s: Schema, c: Call, i: nat, a: Attrs, t: seq<Entry>, k: Kind)
    requires Proper(s) && StoresAll(c) && k in s && KeepsStrings(s[k].rule) && k in a && a[k].Str?
    requires Apply(Updating(s, c), i, a, t).rv == CKR_OK
    ensures var b := Apply(Updating(s, c), i, a, t).attrs;
      k in b && b[k] == Str(LastWritten(FillerOf(c, a), t, k, a[k].s))
    decreases |t|
  {
    if t != [] {
      var b := Updating(s, c)(i, a, t[0]).attrs;
      WrittenInClear(s, c, i, a, t[0], k);
      FillerKept(s, c, i, a, t[0]);
      AppliedInClear(s, c, i + 1, b, t[1..], k);
    }
  }

  // After a template has been applied to an encrypted object, every string decodes to the plaintext
  // last written: by the last entry for it, for a check value by the last key value too, or before.
  lemma DecodesToLastWritten(s: Schema, c: Call, a: Attrs, t: seq<Entry>, k: Kind)
    requires Ready(c, a) && Proper(s) && k in s && KeepsStrings(s[k].rule) && k in a && a[k].Str?
    requires Apply(Updating(s, c), 0, a, t).rv == CKR_OK
    ensures var b := View(c, Apply(Updating(s, c), 0, a, t).attrs);
      k in b && View(c, a)[k].Str? && b[k] == Str(LastWritten(FillerOf(c, a), t, k, View(c, a)[k].s))
  {
    ApplyMatches(s, c, 0, a, t);
    FillerSeen(c, a);
    AppliedInClear(s, Plainly(c), 0, View(c, a), t, k);
  }

  // ---------- templates that fail ----------

  // The number of entries before the first that fails.
  function Taken(step: Step, i: nat, a: Attrs, t: seq<Entry>): (n: nat)
    ensures n <= |t|
    decreases |t|
  {
    if t == [] || step(i, a, t[0]).rv != CKR_OK then 0 else 1 + Taken(step, i + 1, step(i, a, t[0]).attrs, t[1..])
  }

  // What they leave, if an entry that fails leaves nothing.
  lemma {:induction false} TakenApplied(step: Step, i: nat, a: Attrs, t: seq<Entry>)
    requires forall j, b, e :: step(j, b, e).rv != CKR_OK ==> step(j, b, e).attrs == b
    ensures Apply(step, i, a, t[..Taken(step, i, a, t)]) == Outcome(CKR_OK, Apply(step, i, a, t).attrs)
    decreases |t|
  {
    if t != [] && step(i, a, t[0]).rv == CKR_OK {
      var n := Taken(step, i, a, t);
      TakenApplied(step, i + 1, step(i, a, t[0]).attrs, t[1..]);
      assert t[..n][0] == t[0] && t[..n][1..] == t[1..][..n - 1];
    }
  }

  lemma FailedLeavesNothing(s: Schema, c: Call, i: nat, a: Attrs, e: Entry)
    requires !c.op.OpCreate? && Update(s, c, i, a, e).rv != CKR_OK
    ensures Update(s, c, i, a, e).attrs == a
  {
    if e.kind in s && Permission(s, c.op, a, e) == CKR_OK {
      FailedWriter(c, i, a, e.kind, s[e.kind].rule, e.data);
    }
  }

  lemma FailedWriter(c: Call, i: nat, a: Attrs, k: Kind, rule: Rule, d: bytes)
    requires !c.op.OpCreate? && Writer(k, rule)(c, i, a, d).rv != CKR_OK
    ensures Writer(k, rule)(c, i, a, d).attrs == a
  {
  }

  // ---------- copies ----------

  // A copy holds the same decoded strings as its original, whether it becomes private or not.
  lemma CopyDecodes(x: Session, wasPrivate: bool, isPrivate: bool, a: Attrs)
    requires Lawful(x.token) && (wasPrivate ==> isPrivate)
    requires Decodable(x.token.decrypt, wasPrivate, a) && Copies(x, !wasPrivate && isPrivate, a)
    ensures var b, dec := CopiedAttrs(x, !wasPrivate && isPrivate, a), x.token.decrypt;
      Decodable(dec, isPrivate, b) && b.Keys == a.Keys
      && forall k :: k in a && Encoded(k) ==>
        DecodedValue(dec, isPrivate, k, b[k]) == DecodedValue(dec, wasPrivate, k, a[k])
  {
    var b, dec := CopiedAttrs(x, !wasPrivate && isPrivate, a), x.token.decrypt;
    forall k ensures DecodableAt(dec, isPrivate, b, k) {
      assert DecodableAt(dec, wasPrivate, a, k);
    }
  }
}
