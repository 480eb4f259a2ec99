// What a template can do to the attributes that protect a key, and to the shape of an object.
module KeyPolicy {
  import opened Bytes
  import opened Attributes
  import opened UpdateRules

  predicate AlwaysSensitive(a: Attrs) { GetBool(a, CKA_ALWAYS_SENSITIVE, false) }
  predicate NeverExtractable(a: Attrs) { GetBool(a, CKA_NEVER_EXTRACTABLE, false) }

  predicate IsFlag(a: Attrs, k: Kind) { k in a && a[k].Flag? }

  predicate HasPolicy(a: Attrs) {
    IsFlag(a, CKA_SENSITIVE) && IsFlag(a, CKA_EXTRACTABLE)
    && IsFlag(a, CKA_ALWAYS_SENSITIVE) && IsFlag(a, CKA_NEVER_EXTRACTABLE)
  }

  // The two history flags tell the truth about the present.
  predicate Honest(a: Attrs) {
    HasPolicy(a) && (AlwaysSensitive(a) ==> IsSensitive(a)) && (NeverExtractable(a) ==> !IsExtractable(a))
  }

  // What a step of an operation may do to the four flags.
  predicate Allowed(op: Op, a: Attrs, b: Attrs) {
    (HasPolicy(a) ==>
       HasPolicy(b)
       && (NeverExtractable(b) ==> NeverExtractable(a))
       && (!op.OpGenerate? && !op.OpDerive? ==> AlwaysSensitive(b) ==> AlwaysSensitive(a))
       && (op.OpSet? || op.OpCopy? ==> (IsSensitive(a) ==> IsSensitive(b)) && (IsExtractable(b) ==> IsExtractable(a))))
    && (Honest(a) ==> Honest(b))
  }

  lemma SensitiveAllowed(op: Op, a: Attrs, d: bytes)
    ensures Allowed(op, a, SetSensitive(op, a, d).attrs)
  {
  }

  lemma ExtractableAllowed(op: Op, a: Attrs, d: bytes)
    ensures Allowed(op, a, SetExtractable(op, a, d).attrs)
  {
  }

  lemma UntouchedAllowed(op: Op, a: Attrs, b: Attrs)
    requires SameAt(a, b, CKA_SENSITIVE) && SameAt(a, b, CKA_EXTRACTABLE)
    requires SameAt(a, b, CKA_ALWAYS_SENSITIVE) && SameAt(a, b, CKA_NEVER_EXTRACTABLE)
    ensures Allowed(op, a, b)
  {
  }

  lemma ElsewhereAllowed(s: Schema, c: Call, i: nat, a: Attrs, e: Entry)
    requires Proper(s) && e.kind != CKA_SENSITIVE && e.kind != CKA_EXTRACTABLE
    ensures Allowed(c.op, a, Update(s, c, i, a, e).attrs)
  {
    UpdateFrame(s, c, i, a, e, CKA_SENSITIVE);
    UpdateFrame(s, c, i, a, e, CKA_EXTRACTABLE);
    UpdateFrame(s, c, i, a, e, CKA_ALWAYS_SENSITIVE);
    UpdateFrame(s, c, i, a, e, CKA_NEVER_EXTRACTABLE);
    UntouchedAllowed(c.op, a, Update(s, c, i, a, e).attrs);
  }

  lemma UpdateAllowed(s: Schema, c: Call, i: nat, a: Attrs, e: Entry)
    requires Proper(s)
    ensures Allowed(c.op, a, Update(s, c, i, a, e).attrs)
  {
    if e.kind == CKA_SENSITIVE {
      SensitiveAllowed(c.op, a, e.data);
    } else if e.kind == CKA_EXTRACTABLE {
      ExtractableAllowed(c.op, a, e.data);
    } else {
      ElsewhereAllowed(s, c, i, a, e);
    }
  }

  lemma ApplyAllowed(s: Schema, c: Call, i: nat, a: Attrs, t: seq<Entry>)
    requires Proper(s)
    ensures Allowed(c.op, a, Apply(Updating(s, c), i, a, t).attrs)
  {
    var r := (x, y) => Allowed(c.op, x, y);
    forall j, x, e | e in t ensures r(x, Updating(s, c)(j, x, e).attrs) {
      UpdateAllowed(s, c, j, x, e);
    }
    ApplyRelates(Updating(s, c), i, a, t, r);
  }

  // ---------- shape ----------

  lemma PutSorted(s: Schema, a: Attrs, k: Kind, v: Value, x: Kind)
    requires SortedAt(s, a, x) && (k in s ==> Fits(s[k].rule, v))
    ensures k in s ==> SortedAt(s, Put(a, k, v), x)
    ensures SortedAt(s, PutIfPresent(a, k, v), x)
  {
  }

  lemma LengthsSorted(s: Schema, op: Op, a: Attrs, d: bytes, x: Kind)
    requires Proper(s) && SortedAt(s, a, x)
    ensures SortedAt(s, Lengths(op, a, d), x)
  {
    PutSorted(s, a, CKA_VALUE_LEN, Number(|d|), x);
    PutSorted(s, PutIfPresent(a, CKA_VALUE_LEN, Number(|d|)), CKA_VALUE_BITS, Number(Bits(d)), x);
  }

  lemma KeyValueSorted(s: Schema, c: Call, i: nat, a: Attrs, d: bytes, x: Kind)
    requires Proper(s) && Shaped(s, a) && CKA_VALUE in s
    ensures SortedAt(s, SetKeyValue(c, i, a, d).attrs, x)
  {
    assert SortedAt(s, a, x);
    var b := SetString(c, i, a, CKA_VALUE, d).attrs;
    assert SortedAt(s, b, x);
    LengthsSorted(s, c.op, b, d, x);
  }

  lemma FlagSorted(s: Schema, c: Call, i: nat, a: Attrs, k: Kind, d: bytes, x: Kind)
    requires Proper(s) && Shaped(s, a) && k in s
    requires s[k].rule.Bool? || s[k].rule.Copyable? || s[k].rule.WrapWithTrusted? || s[k].rule.Trusted?
          || s[k].rule.AlwaysAuthenticate?
    ensures SortedAt(s, Writer(k, s[k].rule)(c, i, a, d).attrs, x)
  {
    assert SortedAt(s, a, x);
  }

  lemma ProtectionSorted(s: Schema, c: Call, i: nat, a: Attrs, k: Kind, d: bytes, x: Kind)
    requires Proper(s) && Shaped(s, a) && HasPolicy(a) && k in s && (s[k].rule.Sensitive? || s[k].rule.Extractable?)
    ensures SortedAt(s, Writer(k, s[k].rule)(c, i, a, d).attrs, x)
  {
    assert SortedAt(s, a, x);
  }

  lemma MeasuredSorted(s: Schema, c: Call, i: nat, a: Attrs, k: Kind, bits: Kind, d: bytes, x: Kind)
    requires Proper(s) && Shaped(s, a) && k in s && s[k].rule == Measured(bits)
    ensures SortedAt(s, Writer(k, s[k].rule)(c, i, a, d).attrs, x)
  {
    assert SortedAt(s, a, x);
  }

  lemma OtherSorted(s: Schema, c: Call, i: nat, a: Attrs, k: Kind, d: bytes, x: Kind)
    requires Proper(s) && Shaped(s, a) && k in s
    requires var r := s[k].rule;
      r.Plain? || r.CheckValue? || r.Date? || r.Match? || r.ReadOnly? || r.Sized? || r.WrappingTemplate? || r.MechanismSet?
    ensures SortedAt(s, Writer(k, s[k].rule)(c, i, a, d).attrs, x)
  {
    assert SortedAt(s, a, x);
  }

  lemma WriterSorted(s: Schema, c: Call, i: nat, a: Attrs, k: Kind, d: bytes, x: Kind)
    requires Proper(s) && Shaped(s, a) && HasPolicy(a) && k in s
    ensures SortedAt(s, Writer(k, s[k].rule)(c, i, a, d).attrs, x) == true
  {
    match s[k].rule
    case KeyValue => KeyValueSorted(s, c, i, a, d, x);
    case Bool | Copyable | WrapWithTrusted | Trusted | AlwaysAuthenticate => FlagSorted(s, c, i, a, k, d, x);
    case Sensitive | Extractable => ProtectionSorted(s, c, i, a, k, d, x);
    case Measured(bits) => MeasuredSorted(s, c, i, a, k, bits, d, x);
    case _ => OtherSorted(s, c, i, a, k, d, x);
  }

  lemma UpdateShaped(s: Schema, c: Call, i: nat, a: Attrs, e: Entry)
    requires Proper(s) && Shaped(s, a) && HasPolicy(a)
    ensures Shaped(s, Update(s, c, i, a, e).attrs)
  {
    var b := Update(s, c, i, a, e).attrs;
    UpdateFrame(s, c, i, a, e, CKA_CLASS);
    forall x: Kind ensures SortedAt(s, b, x) {
      assert SortedAt(s, a, x);
      if e.kind in s {
        WriterSorted(s, c, i, a, e.kind, e.data, x);
      }
    }
  }

  lemma ApplyShaped(s: Schema, c: Call, i: nat, a: Attrs, t: seq<Entry>)
    requires Proper(s) && Shaped(s, a) && HasPolicy(a)
    ensures Shaped(s, Apply(Updating(s, c), i, a, t).attrs)
    decreases |t|
  {
    if t != [] {
      UpdateShaped(s, c, i, a, t[0]);
      UpdateAllowed(s, c, i, a, t[0]);
      var o := Update(s, c, i, a, t[0]);
      if o.rv == CKR_OK {
        ApplyShaped(s, c, i + 1, o.attrs, t[1..]);
      }
    }
  }
}
