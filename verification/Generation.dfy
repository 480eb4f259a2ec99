// When generating, deriving and unwrapping keys succeed in the library, exactly, and what key an AES
// generation leaves.
module Generation {
  import opened Bytes
  import opened Attributes
  import opened UpdateRules
  import opened KeyPolicy
  import opened Objects
  import opened KeyCalls
  import opened KeySchema
  import opened Runs
  import opened Storage
  import opened Steps
  import opened Tables
  import opened Acceptance
  import opened Completeness

  // ---------- generating an AES key ----------

  // What generating and deriving ask of the entries they read themselves.
  predicate Scannable(derive: bool, t: seq<Entry>) {
    forall e :: e in t ==>
      (derive ==> e.kind != CKA_VALUE) && (e.kind == CKA_VALUE_LEN ==> |e.data| == 8) && (e.kind == CKA_CHECK_VALUE ==> e.data == [])
  }

  lemma {:induction false} ScannedExactly(derive: bool, s: Scan, t: seq<Entry>)
    requires s.rv == CKR_OK
    ensures var r := Scanned(derive, s, t);
      (r.rv == CKR_OK <==> Scannable(derive, t))
      && (r.rv == CKR_OK ==>
            r.checkValue == (s.checkValue && !Names(t, CKA_CHECK_VALUE))
            && Some(r.length) == LastNumber(t, CKA_VALUE_LEN, Some(s.length)))
    decreases |t|
  {
    if t != [] {
      var n := ScanEntry(derive, s, t[0]);
      assert forall e :: e in t <==> e == t[0] || e in t[1..];
      if n.rv == CKR_OK {
        ScannedExactly(derive, n, t[1..]);
        NamesNext(t, CKA_CHECK_VALUE);
      } else {
        assert Scanned(derive, n, t[1..]) == n;
      }
    }
  }

  lemma NamesNext(t: seq<Entry>, k: Kind)
    requires t != []
    ensures Names(t, k) <==> t[0].kind == k || Names(t[1..], k)
  {
    assert t[0] in t;
  }

  lemma {:induction false} OnlyShorter(t: seq<Entry>, keep: Entry -> bool)
    ensures |Only(t, keep)| <= |t|
    decreases |t|
  {
    if t != [] {
      OnlyShorter(t[1..], keep);
    }
  }

  lemma {:induction false} OnlyEverything(t: seq<Entry>, keep: Entry -> bool)
    requires forall e :: e in t ==> keep(e)
    ensures Only(t, keep) == t
    decreases |t|
  {
    if t != [] {
      OnlyEverything(t[1..], keep);
    }
  }

  lemma {:induction false} OnlyNothing(t: seq<Entry>, keep: Entry -> bool)
    requires forall e :: e in t ==> !keep(e)
    ensures Only(t, keep) == []
    decreases |t|
  {
    if t != [] {
      OnlyNothing(t[1..], keep);
    }
  }

  lemma NothingReordered(t: seq<Entry>)
    requires forall e :: e in t ==> e.kind != CKA_CHECK_VALUE
    ensures Reordered(t) == t
  {
    OnlyEverything(t, (e: Entry) => e.kind != CKA_CHECK_VALUE);
    OnlyNothing(t, (e: Entry) => e.kind == CKA_CHECK_VALUE);
  }

  // What is passed on when generating and deriving.
  lemma PassedAll(t: seq<Entry>)
    ensures var u := PassedOn(t, false);
      |u| <= |t| && Unreserved(u) && Reordered(u) == u
      && forall e :: e in u <==> e in t && !InHead(e.kind) && e.kind != CKA_CHECK_VALUE
  {
    var keep := (e: Entry) =>
      e.kind != CKA_CLASS && e.kind != CKA_TOKEN && e.kind != CKA_PRIVATE && e.kind != CKA_KEY_TYPE
      && (false || e.kind != CKA_CHECK_VALUE);
    OnlyShorter(t, keep);
    OnlyAll(t, keep);
    NothingReordered(PassedOn(t, false));
  }

  ghost predicate Demands(s: Schema, op: Op, x: Kind) { forall k :: k in s && Demanded(s[k].checks, op) <==> k == x }

  lemma AesDemands()
    ensures Demands(SchemaOf(AesSecret), OpGenerate, CKA_VALUE_LEN) == true
  {
    AllListed(AesSecret, 3);
    LengthNoted();
    ListDemands(SchemaOf(AesSecret), CommonKeys() + ClassKeys(AesSecret) + OwnKeys(AesSecret), CKA_VALUE_LEN);
  }

  lemma LengthNoted()
    ensures CommonNotes(3) + ClassNotes(AesSecret, 3) + OwnNotes(AesSecret, 3) == {CKA_VALUE_LEN}
  {
  }

  lemma ListDemands(s: Schema, keys: set<Kind>, x: Kind)
    requires Lists(s, keys, 3, {x}) == true
    ensures Demands(s, OpGenerate, x) == true
  {
    forall k ensures k in s && Demanded(s[k].checks, OpGenerate) <==> k == x {
      assert k in Notes(s, 3) <==> k in s && 3 in s[k].checks;
    }
  }

  lemma DemandMet(s: Schema, op: Op, x: Kind, t: seq<Entry>)
    requires Demands(s, op, x) == true
    ensures Provides(s, op, t) <==> Names(t, x)
  {
  }

  lemma NamedLater(objClass: nat, keyType: nat, onToken: bool, isPrivate: bool, t: seq<Entry>, k: Kind)
    requires !InHead(k)
    ensures Names(KeyTemplate(objClass, keyType, onToken, isPrivate, t), k) <==> Names(t, k)
  {
    var u := KeyTemplate(objClass, keyType, onToken, isPrivate, t);
    forall e | e in u && e.kind == k ensures e in t {
      assert e in u[..4] || e in u[4..];
      assert u[4..] == t;
    }
  }

  // The only attribute generating an AES key asks for is the length.
  lemma LengthProvided(t: seq<Entry>, onToken: bool, isPrivate: bool)
    ensures Provides(SchemaOf(AesSecret), OpGenerate, KeyTemplate(4, 0x1F, onToken, isPrivate, t)) <==> Names(t, CKA_VALUE_LEN)
  {
    AesDemands();
    DemandMet(SchemaOf(AesSecret), OpGenerate, CKA_VALUE_LEN, KeyTemplate(4, 0x1F, onToken, isPrivate, t));
    NamedLater(4, 0x1F, onToken, isPrivate, t, CKA_VALUE_LEN);
  }

  // The entries that generating an AES key takes from the caller; the length is always taken.
  lemma LengthTaken(c: Call, i: nat, v: Standing, e: Entry)
    requires c.op == OpGenerate && e.kind == CKA_VALUE_LEN && |e.data| == 8 && !e.isNull
    ensures Takes(SchemaOf(AesSecret), c, i, v, e) == true && Onward(c, i, v, e) == v
  {
    LengthSpec();
    LengthAccepted(SchemaOf(AesSecret), c, i, v, e);
  }

  lemma LengthSpec()
    ensures CKA_VALUE_LEN in SchemaOf(AesSecret)
    ensures SchemaOf(AesSecret)[CKA_VALUE_LEN] == Spec({2, 3, 6}, Some(8), Sized({OpGenerate, OpDerive}), Number(0))
  {
    assert CKA_VALUE_LEN in AES_LENGTH;
  }

  lemma LengthAccepted(s: Schema, c: Call, i: nat, v: Standing, e: Entry)
    requires c.op == OpGenerate && e.kind == CKA_VALUE_LEN && |e.data| == 8 && !e.isNull && e.kind in s
    requires s[e.kind] == Spec({2, 3, 6}, Some(8), Sized({OpGenerate, OpDerive}), Number(0))
    ensures Takes(s, c, i, v, e) == true && Onward(c, i, v, e) == v
  {
  }

  // The length that is asked for last.
  function LengthAsked(t: seq<Entry>): nat {
    var n := LastNumber(t, CKA_VALUE_LEN, None);
    if n.Some? then n.value else 0
  }

  lemma {:induction false} NumberOr(t: seq<Entry>, k: Kind, n: nat)
    ensures LastNumber(t, k, Some(n)) == var m := LastNumber(t, k, None); if m.Some? then m else Some(n)
    decreases |t|
  {
    if t != [] {
      if t[0].kind == k && |t[0].data| == 8 {
        NumberOr(t[1..], k, ReadNumber(t[0].data));
      } else {
        NumberOr(t[1..], k, n);
      }
    }
  }

  // What a call to generate an AES key of this length must be like; the entries about class, type,
  // token and privacy, which the call sets itself, and empty check values do not matter.
  ghost predicate GeneratesAes(x: Session, onToken: bool, isPrivate: bool, t: seq<Entry>) {
    var n := LengthAsked(t);
    Scannable(false, t) && (n == 16 || n == 24 || n == 32) && |t| <= 28 && x.haveWrite(onToken, isPrivate) == CKR_OK
    && TakesAll(SchemaOf(AesSecret), Call(x, isPrivate, OpGenerate), 4, Fresh(4, 0x1F), PassedOn(t, false))
  }

  lemma AesFamily()
    ensures FamilyOf(4, 0x1F) == Some(AesSecret)
  {
  }

  lemma LengthNamed(t: seq<Entry>)
    requires LengthAsked(t) != 0
    ensures Names(PassedOn(t, false), CKA_VALUE_LEN)
  {
    if !Names(t, CKA_VALUE_LEN) {
      NoNumber(t, CKA_VALUE_LEN, None);
    }
    PassedAll(t);
    var e :| e in t && e.kind == CKA_VALUE_LEN;
    assert e in PassedOn(t, false);
  }

  lemma MakesKeyOf(x: Session, op: Op, f: Family, s: Schema, objClass: nat, keyType: nat, onToken: bool, isPrivate: bool,
                   t: seq<Entry>)
    requires FamilyOf(objClass, keyType) == Some(f) && s == SchemaOf(f)
    ensures MakesKey(x, op, objClass, keyType, onToken, isPrivate, t)
         == (x.haveWrite(onToken, isPrivate) == CKR_OK && |t| <= 28
             && TakesAll(s, Call(x, isPrivate, op), 4, Fresh(objClass, keyType), Reordered(t))
             && Provides(s, op, KeyTemplate(objClass, keyType, onToken, isPrivate, t)))
  {
  }

  lemma AesMakes(x: Session, onToken: bool, isPrivate: bool, t: seq<Entry>)
    requires LengthAsked(t) != 0 && |t| <= 28
    ensures MakesKey(x, OpGenerate, 4, 0x1F, onToken, isPrivate, PassedOn(t, false))
         == (x.haveWrite(onToken, isPrivate) == CKR_OK
             && TakesAll(SchemaOf(AesSecret), Call(x, isPrivate, OpGenerate), 4, Fresh(4, 0x1F), PassedOn(t, false)))
  {
    PassedAll(t);
    LengthNamed(t);
    LengthProvided(PassedOn(t, false), onToken, isPrivate);
    AesFamily();
    MakesKeyOf(x, OpGenerate, AesSecret, SchemaOf(AesSecret), 4, 0x1F, onToken, isPrivate, PassedOn(t, false));
  }

  // A key, and its check value unless the template says that it is not to have one.
  function KeyParts(key: bytes, check: bytes, omitted: bool): Material {
    [(CKA_VALUE, key)] + if omitted then [] else [(CKA_CHECK_VALUE, check)]
  }

  function AesMaterial(x: Session, t: seq<Entry>, key: bytes): Material {
    KeyParts(key, x.kcv(0x1F, key), Names(t, CKA_CHECK_VALUE))
  }

  function AesMade(x: Session, onToken: bool, isPrivate: bool, t: seq<Entry>, random: nat -> bytes): Made {
    KeyResult(x, Generated(0x1080), 4, 0x1F, onToken, isPrivate, PassedOn(t, false),
              AesMaterial(x, t, random(LengthAsked(t))), true)
  }

  lemma AesAnswer(x: Session, onToken: bool, isPrivate: bool, t: seq<Entry>, random: nat -> bytes)
    requires var n := LengthAsked(t); Scannable(false, t) && (n == 16 || n == 24 || n == 32) && |t| <= 28
    ensures AesResult(x, onToken, isPrivate, t, random) == AesMade(x, onToken, isPrivate, t, random)
  {
    ScannedExactly(false, START, t);
    NumberOr(t, CKA_VALUE_LEN, 0);
  }

  lemma AesMadeExactly(x: Session, onToken: bool, isPrivate: bool, t: seq<Entry>, random: nat -> bytes)
    requires x.schemas == NewP11Object
    ensures AesMade(x, onToken, isPrivate, t, random).rv == CKR_OK
      <==> MakesKey(x, OpGenerate, 4, 0x1F, onToken, isPrivate, PassedOn(t, false))
  {
    SmallRepresentable(4);
    SmallRepresentable(0x1F);
    PassedAll(t);
    AesFamily();
    assert OpOf(Generated(0x1080)) == OpGenerate;
    KeyExactly(x, Generated(0x1080), 4, 0x1F, onToken, isPrivate, PassedOn(t, false),
               AesMaterial(x, t, random(LengthAsked(t))), true);
  }

  // An AES key is generated exactly by such a call.
  lemma AesExactly(x: Session, onToken: bool, isPrivate: bool, t: seq<Entry>, random: nat -> bytes)
    requires x.schemas == NewP11Object
    ensures AesResult(x, onToken, isPrivate, t, random).rv == CKR_OK <==> GeneratesAes(x, onToken, isPrivate, t)
  {
    var n := LengthAsked(t);
    if Scannable(false, t) && (n == 16 || n == 24 || n == 32) && |t| <= 28 {
      AesAnswer(x, onToken, isPrivate, t, random);
      AesMadeExactly(x, onToken, isPrivate, t, random);
      AesMakes(x, onToken, isPrivate, t);
    } else {
      AesRefused(x, onToken, isPrivate, t, random);
    }
  }

  // ---------- the key that is generated ----------

  lemma {:induction false} LengthApplied(s: Schema, c: Call, i: nat, a: Attrs, t: seq<Entry>)
    requires Proper(s) && Apply(Updating(s, c), i, a, t).rv == CKR_OK && forall e :: e in t ==> e.kind != CKA_VALUE
    requires CKA_VALUE_LEN in a && a[CKA_VALUE_LEN].Number?
    ensures var b := Apply(Updating(s, c), i, a, t).attrs;
      CKA_VALUE_LEN in b && b[CKA_VALUE_LEN].Number?
      && Some(b[CKA_VALUE_LEN].n) == LastNumber(t, CKA_VALUE_LEN, Some(a[CKA_VALUE_LEN].n))
    decreases |t|
  {
    if t != [] {
      LengthUpdated(s, c, i, a, t[0]);
      assert t[0] in t;
      LengthApplied(s, c, i + 1, Updating(s, c)(i, a, t[0]).attrs, t[1..]);
    }
  }

  lemma LengthUpdated(s: Schema, c: Call, i: nat, a: Attrs, e: Entry)
    requires Proper(s) && Update(s, c, i, a, e).rv == CKR_OK && e.kind != CKA_VALUE
    requires CKA_VALUE_LEN in a && a[CKA_VALUE_LEN].Number?
    ensures var b := Update(s, c, i, a, e).attrs;
      CKA_VALUE_LEN in b
      && b[CKA_VALUE_LEN] == if e.kind == CKA_VALUE_LEN then Number(ReadNumber(e.data)) else a[CKA_VALUE_LEN]
    ensures e.kind == CKA_VALUE_LEN ==> |e.data| == 8
  {
    if e.kind != CKA_VALUE_LEN {
      UpdateFrame(s, c, i, a, e, CKA_VALUE_LEN);
    }
  }

  lemma {:induction false} JoinedNumber(t: seq<Entry>, u: seq<Entry>, k: Kind, default: Option<nat>)
    ensures LastNumber(t + u, k, default) == LastNumber(u, k, LastNumber(t, k, default))
    decreases |t|
  {
    if t == [] {
      assert t + u == u;
    } else {
      assert (t + u)[1..] == t[1..] + u;
      JoinedNumber(t[1..], u, k, if t[0].kind == k && |t[0].data| == 8 then Some(ReadNumber(t[0].data)) else default);
    }
  }

  lemma {:induction false} OnlyNumber(t: seq<Entry>, keep: Entry -> bool, k: Kind, default: Option<nat>)
    requires forall e: Entry :: e.kind == k ==> keep(e)
    ensures LastNumber(Only(t, keep), k, default) == LastNumber(t, k, default)
    decreases |t|
  {
    if t != [] {
      var d := if t[0].kind == k && |t[0].data| == 8 then Some(ReadNumber(t[0].data)) else default;
      OnlyNumber(t[1..], keep, k, d);
      if keep(t[0]) {
        assert ([t[0]] + Only(t[1..], keep))[1..] == Only(t[1..], keep);
      } else {
        assert Only(t, keep) == Only(t[1..], keep);
      }
    }
  }

  // The length reaches the template the key is created with.
  lemma LengthPassed(t: seq<Entry>, onToken: bool, isPrivate: bool)
    ensures LastNumber(KeyTemplate(4, 0x1F, onToken, isPrivate, PassedOn(t, false)), CKA_VALUE_LEN, Some(0)) == Some(LengthAsked(t))
  {
    var p := PassedOn(t, false);
    var u := KeyTemplate(4, 0x1F, onToken, isPrivate, p);
    OnlyNumber(t, (e: Entry) =>
      e.kind != CKA_CLASS && e.kind != CKA_TOKEN && e.kind != CKA_PRIVATE && e.kind != CKA_KEY_TYPE
      && (false || e.kind != CKA_CHECK_VALUE), CKA_VALUE_LEN, Some(0));
    NumberOr(t, CKA_VALUE_LEN, 0);
    assert u == u[..4] + p;
    JoinedNumber(u[..4], p, CKA_VALUE_LEN, Some(0));
    NoNumber(u[..4], CKA_VALUE_LEN, Some(0));
  }

  lemma ValueForbidden()
    ensures CKA_VALUE in SchemaOf(AesSecret) && 4 in SchemaOf(AesSecret)[CKA_VALUE].checks
  {
    AllListed(AesSecret, 4);
    ValueNoted();
    HasNote(SchemaOf(AesSecret), CommonKeys() + ClassKeys(AesSecret) + OwnKeys(AesSecret), 4,
              CommonNotes(4) + ClassNotes(AesSecret, 4) + OwnNotes(AesSecret, 4), CKA_VALUE);
  }

  lemma ValueNoted()
    ensures CKA_VALUE in CommonNotes(4) + ClassNotes(AesSecret, 4) + OwnNotes(AesSecret, 4)
  {
  }

  lemma AesSaved(c: Call, o: Obj, t: seq<Entry>)
    requires c.op == OpGenerate && o.attrs == Initialised(SchemaOf(AesSecret), 4, 0x1F, map[])
    requires SaveTemplate(SchemaOf(AesSecret), c, o, t).rv == CKR_OK
    ensures var b := SaveTemplate(SchemaOf(AesSecret), c, o, t).obj.attrs;
      CKA_VALUE_LEN in b && b[CKA_VALUE_LEN].Number? && Some(b[CKA_VALUE_LEN].n) == LastNumber(t, CKA_VALUE_LEN, Some(0))
  {
    LengthSpec();
    ValueForbidden();
    assert Proper(SchemaOf(AesSecret)) by { SchemaProper(AesSecret); }
    LengthSaved(SchemaOf(AesSecret), c, o, t);
  }

  lemma LengthSaved(s: Schema, c: Call, o: Obj, t: seq<Entry>)
    requires Proper(s) && c.op == OpGenerate && o.attrs == Initialised(s, 4, 0x1F, map[])
    requires CKA_VALUE_LEN in s && s[CKA_VALUE_LEN].default == Number(0) && CKA_VALUE in s && 4 in s[CKA_VALUE].checks
    requires SaveTemplate(s, c, o, t).rv == CKR_OK
    ensures var b := SaveTemplate(s, c, o, t).obj.attrs;
      CKA_VALUE_LEN in b && b[CKA_VALUE_LEN].Number? && Some(b[CKA_VALUE_LEN].n) == LastNumber(t, CKA_VALUE_LEN, Some(0))
  {
    SavedInFull(s, c, o, t);
    ApplyLetThrough(s, c, 0, o.attrs, t);
    LengthApplied(s, c, 0, o.attrs, t);
  }

  lemma AesCreateIs(x: Session, onToken: bool, isPrivate: bool, p: seq<Entry>)
    requires Unreserved(p) && Reordered(p) == p
    ensures var u := KeyTemplate(4, 0x1F, onToken, isPrivate, p);
      CreateResult(x, OpGenerate, u).rv == CKR_OK ==>
        CreateResult(x, OpGenerate, u) == CreateIn(x, OpGenerate, 4, 0x1F, onToken, isPrivate, u)
  {
    SmallRepresentable(4);
    SmallRepresentable(0x1F);
    AskedAs(4, 0x1F, onToken, isPrivate, p);
    CreateAnswers(x, OpGenerate, KeyTemplate(4, 0x1F, onToken, isPrivate, p));
    ReorderedHead(4, 0x1F, onToken, isPrivate, p);
  }

  lemma AesCreatedIn(x: Session, onToken: bool, isPrivate: bool, u: seq<Entry>)
    requires x.schemas(4, 0x1F) == Some(SchemaOf(AesSecret))
    requires CreateIn(x, OpGenerate, 4, 0x1F, onToken, isPrivate, u).rv == CKR_OK
    ensures var r := CreateIn(x, OpGenerate, 4, 0x1F, onToken, isPrivate, u);
      r.obj.Some? && CKA_VALUE_LEN in r.obj.value.attrs && r.obj.value.attrs[CKA_VALUE_LEN].Number?
      && Some(r.obj.value.attrs[CKA_VALUE_LEN].n) == LastNumber(u, CKA_VALUE_LEN, Some(0))
  {
    CreateInIs(SchemaOf(AesSecret), x, OpGenerate, 4, 0x1F, onToken, isPrivate, u);
    AesSaved(Call(x, isPrivate, OpGenerate),
             Rewrite(NewObj(onToken), Initialised(SchemaOf(AesSecret), 4, 0x1F, map[])), u);
  }

  lemma AesCreated(x: Session, onToken: bool, isPrivate: bool, t: seq<Entry>)
    requires x.schemas == NewP11Object
    requires CreateResult(x, OpGenerate, KeyTemplate(4, 0x1F, onToken, isPrivate, PassedOn(t, false))).rv == CKR_OK
    ensures var r := CreateResult(x, OpGenerate, KeyTemplate(4, 0x1F, onToken, isPrivate, PassedOn(t, false)));
      r.obj.Some? && CKA_VALUE_LEN in r.obj.value.attrs && r.obj.value.attrs[CKA_VALUE_LEN] == Number(LengthAsked(t))
  {
    PassedAll(t);
    AesCreateIs(x, onToken, isPrivate, PassedOn(t, false));
    LengthPassed(t, onToken, isPrivate);
    AesFamily();
    AesCreatedIn(x, onToken, isPrivate, KeyTemplate(4, 0x1F, onToken, isPrivate, PassedOn(t, false)));
  }

  lemma PartsElsewhere(key: bytes, check: bytes, omitted: bool)
    ensures IsMaterial(KeyParts(key, check, omitted)) && forall p :: p in KeyParts(key, check, omitted) ==> p.0 != CKA_VALUE_LEN
  {
  }

  // What is stored of a byte string: an encryption that fails leaves nothing.
  function KeptAs(x: Session, isPrivate: bool, k: Kind, p: bytes): bytes {
    var e := x.token.encrypt(ForKind(k), p);
    if !isPrivate then p else if e.Some? then e.value else []
  }

  // What the object holds of the key and its check value.
  ghost predicate HoldsKey(x: Session, isPrivate: bool, a: Attrs, key: bytes, check: bytes, omitted: bool) {
    CKA_VALUE in a && a[CKA_VALUE] == Str(KeptAs(x, isPrivate, CKA_VALUE, key))
    && (!omitted ==> CKA_CHECK_VALUE in a && a[CKA_CHECK_VALUE] == Str(KeptAs(x, isPrivate, CKA_CHECK_VALUE, check)))
  }

  lemma PartsFilled(x: Session, isPrivate: bool, a: Attrs, key: bytes, check: bytes, omitted: bool)
    ensures HoldsKey(x, isPrivate, Filled(x, isPrivate, a, KeyParts(key, check, omitted)), key, check, omitted) == true
  {
    var m := KeyParts(key, check, omitted);
    var first := Put(a, CKA_VALUE, Str(KeptAs(x, isPrivate, CKA_VALUE, key)));
    assert Filled(x, isPrivate, a, m) == Filled(x, isPrivate, first, m[1..]);
    if omitted {
      assert |m[1..]| == 0;
    } else {
      var rest: Material := [(CKA_CHECK_VALUE, check)];
      assert m[1..] == rest && |rest[1..]| == 0;
      assert Filled(x, isPrivate, first, m[1..]) == Put(first, CKA_CHECK_VALUE, Str(KeptAs(x, isPrivate, CKA_CHECK_VALUE, check)));
    }
  }

  // The second transaction leaves a key that was created with its parts, and the rest alone.
  lemma PartsFinished(x: Session, origin: Origin, isPrivate: bool, r: Made, key: bytes, check: bytes, omitted: bool)
    requires r.rv == CKR_OK && r.obj.Some?
    ensures var f := FinishKey(x, origin, isPrivate, r, KeyParts(key, check, omitted), true);
      f.rv == CKR_OK && f.obj.Some? && HoldsKey(x, isPrivate, f.obj.value.attrs, key, check, omitted) == true
      && SameAt(r.obj.value.attrs, f.obj.value.attrs, CKA_VALUE_LEN)
  {
    var h := WithHistory(origin, r.obj.value.attrs);
    PartsElsewhere(key, check, omitted);
    FilledFrame(x, isPrivate, h, KeyParts(key, check, omitted), CKA_VALUE_LEN);
    PartsFilled(x, isPrivate, h, key, check, omitted);
  }

  // The key has the length asked for, and the value that was drawn of that length.
  lemma AesKey(x: Session, onToken: bool, isPrivate: bool, t: seq<Entry>, random: nat -> bytes)
    requires x.schemas == NewP11Object && GeneratesAes(x, onToken, isPrivate, t)
    ensures var r, key := AesResult(x, onToken, isPrivate, t, random), random(LengthAsked(t));
      r.rv == CKR_OK && r.obj.Some?
      && CKA_VALUE_LEN in r.obj.value.attrs && r.obj.value.attrs[CKA_VALUE_LEN] == Number(LengthAsked(t))
      && HoldsKey(x, isPrivate, r.obj.value.attrs, key, x.kcv(0x1F, key), Names(t, CKA_CHECK_VALUE))
  {
    AesExactly(x, onToken, isPrivate, t, random);
    AesAnswer(x, onToken, isPrivate, t, random);
    var key := random(LengthAsked(t));
    var c := CreateResult(x, OpGenerate, KeyTemplate(4, 0x1F, onToken, isPrivate, PassedOn(t, false)));
    AesCreated(x, onToken, isPrivate, t);
    PartsFinished(x, Generated(0x1080), isPrivate, c, key, x.kcv(0x1F, key), Names(t, CKA_CHECK_VALUE));
  }

  lemma {:induction false} ScannedCode(derive: bool, s: Scan, t: seq<Entry>)
    requires s.rv == CKR_OK && !Scannable(derive, t)
    ensures var rv := Scanned(derive, s, t).rv;
      (!derive || !Names(t, CKA_VALUE) ==> rv == CKR_ATTRIBUTE_VALUE_INVALID)
      && (derive && Scannable(false, t) ==> rv == CKR_ATTRIBUTE_READ_ONLY)
    decreases |t|
  {
    var n := ScanEntry(derive, s, t[0]);
    assert forall e :: e in t <==> e == t[0] || e in t[1..];
    NamesNext(t, CKA_VALUE);
    if n.rv == CKR_OK {
      ScannedCode(derive, n, t[1..]);
    } else {
      assert Scanned(derive, n, t[1..]) == n;
    }
  }

  // What stands in the way otherwise comes in this order: an entry the call reads itself that is
  // malformed, no length, a length that is not one of AES, too many entries.
  lemma AesRefused(x: Session, onToken: bool, isPrivate: bool, t: seq<Entry>, random: nat -> bytes)
    requires var n := LengthAsked(t); !(Scannable(false, t) && (n == 16 || n == 24 || n == 32) && |t| <= 28)
    ensures var n := LengthAsked(t);
      AesResult(x, onToken, isPrivate, t, random)
      == Made(if !Scannable(false, t) then CKR_ATTRIBUTE_VALUE_INVALID
              else if n == 0 then CKR_TEMPLATE_INCOMPLETE
              else if n != 16 && n != 24 && n != 32 then CKR_ATTRIBUTE_VALUE_INVALID
              else CKR_TEMPLATE_INCONSISTENT, None)
  {
    ScannedExactly(false, START, t);
    NumberOr(t, CKA_VALUE_LEN, 0);
    if !Scannable(false, t) {
      ScannedCode(false, START, t);
    }
  }

  // ---------- a plain template ----------

  // A use of the key, or how well it is protected.
  predicate IsChoice(k: Kind) {
    k == CKA_ENCRYPT || k == CKA_DECRYPT || k == CKA_SIGN || k == CKA_VERIFY || k == CKA_WRAP || k == CKA_UNWRAP
    || k == CKA_DERIVE || k == CKA_SENSITIVE || k == CKA_EXTRACTABLE
  }

  predicate PlainEntry(e: Entry) {
    !e.isNull && ((IsChoice(e.kind) && |e.data| == 1) || (e.kind == CKA_VALUE_LEN && |e.data| == 8))
  }

  lemma ChoiceNoted(k: Kind)
    requires IsChoice(k)
    ensures k in CommonKeys() + ClassKeys(AesSecret) + OwnKeys(AesSecret)
    ensures k !in CommonNotes(4) + ClassNotes(AesSecret, 4) + OwnNotes(AesSecret, 4)
  {
  }

  lemma ChoiceTaken(s: Schema, c: Call, i: nat, v: Standing, e: Entry)
    requires Proper(s) && Regular(s) && c.op == OpGenerate && IsChoice(e.kind) && |e.data| == 1 && !e.isNull
    requires e.kind in s && 4 !in s[e.kind].checks
    ensures Takes(s, c, i, v, e) == true
  {
    assert IsUse(e.kind) || e.kind == CKA_SENSITIVE || e.kind == CKA_EXTRACTABLE;
  }

  lemma PlainTaken(c: Call, i: nat, v: Standing, e: Entry)
    requires c.op == OpGenerate && PlainEntry(e)
    ensures Takes(SchemaOf(AesSecret), c, i, v, e) == true
  {
    if e.kind == CKA_VALUE_LEN {
      LengthTaken(c, i, v, e);
    } else {
      AllListed(AesSecret, 4);
      ChoiceNoted(e.kind);
      LacksNote(SchemaOf(AesSecret), CommonKeys() + ClassKeys(AesSecret) + OwnKeys(AesSecret), 4,
                CommonNotes(4) + ClassNotes(AesSecret, 4) + OwnNotes(AesSecret, 4), e.kind);
      SchemaRegular(AesSecret);
      assert Proper(SchemaOf(AesSecret)) by { SchemaProper(AesSecret); }
      ChoiceTaken(SchemaOf(AesSecret), c, i, v, e);
    }
  }

  lemma {:induction false} PlainAllTaken(c: Call, i: nat, v: Standing, t: seq<Entry>)
    requires c.op == OpGenerate && forall e :: e in t ==> PlainEntry(e)
    ensures TakesAll(SchemaOf(AesSecret), c, i, v, t) == true
    decreases |t|
  {
    if t != [] {
      assert t[0] in t;
      PlainTaken(c, i, v, t[0]);
      PlainAllTaken(c, i + 1, Onward(c, i, v, t[0]), t[1..]);
    }
  }

  lemma PlainScannable(t: seq<Entry>)
    requires forall e :: e in t ==> PlainEntry(e)
    ensures Scannable(false, t)
  {
  }

  lemma PlainGenerates(x: Session, onToken: bool, isPrivate: bool, t: seq<Entry>)
    requires x.haveWrite(onToken, isPrivate) == CKR_OK && |t| <= 28 && forall e :: e in t ==> PlainEntry(e)
    requires var n := LengthAsked(t); n == 16 || n == 24 || n == 32
    ensures GeneratesAes(x, onToken, isPrivate, t) == true
  {
    PassedAll(t);
    PlainScannable(t);
    PlainAllTaken(Call(x, isPrivate, OpGenerate), 4, Fresh(4, 0x1F), PassedOn(t, false));
  }

  // A template of uses, protection and a length of 16, 24 or 32 bytes makes an AES key of that length.
  lemma AesSucceeds(x: Session, onToken: bool, isPrivate: bool, t: seq<Entry>, random: nat -> bytes)
    requires x.schemas == NewP11Object && x.haveWrite(onToken, isPrivate) == CKR_OK && |t| <= 28
    requires forall e :: e in t ==> PlainEntry(e)
    requires var n := LengthAsked(t); n == 16 || n == 24 || n == 32
    ensures var r := AesResult(x, onToken, isPrivate, t, random);
      r.rv == CKR_OK && r.obj.Some? && CKA_VALUE_LEN in r.obj.value.attrs
      && r.obj.value.attrs[CKA_VALUE_LEN] == Number(LengthAsked(t))
  {
    PlainGenerates(x, onToken, isPrivate, t);
    AesKey(x, onToken, isPrivate, t, random);
  }

  // ---------- a template with a forbidden entry ----------

  lemma EntriesJoined(a: seq<Entry>, b: seq<Entry>, c: seq<Entry>)
    ensures a + (b + c) == a + b + c
  {
  }

  lemma {:induction false} OnlyJoined(t: seq<Entry>, u: seq<Entry>, keep: Entry -> bool)
    ensures Only(t + u, keep) == Only(t, keep) + Only(u, keep)
    decreases |t|
  {
    if t == [] {
      assert t + u == u && Only(t, keep) == [];
    } else {
      var first := if keep(t[0]) then [t[0]] else [];
      assert (t + u)[1..] == t[1..] + u && (t + u)[0] == t[0];
      OnlyJoined(t[1..], u, keep);
      EntriesJoined(first, Only(t[1..], keep), Only(u, keep));
      assert Only(t + u, keep) == first + Only(t[1..] + u, keep);
    }
  }

  lemma PassedFirst(t: seq<Entry>, j: nat)
    requires j < |t| && forall i :: 0 <= i <= j ==> !InHead(t[i].kind) && t[i].kind != CKA_CHECK_VALUE
    ensures |PassedOn(t, false)| > j && PassedOn(t, false)[..j] == t[..j] && PassedOn(t, false)[j] == t[j]
  {
    var keep := (e: Entry) =>
      e.kind != CKA_CLASS && e.kind != CKA_TOKEN && e.kind != CKA_PRIVATE && e.kind != CKA_KEY_TYPE
      && (false || e.kind != CKA_CHECK_VALUE);
    assert t == t[..j + 1] + t[j + 1..];
    OnlyJoined(t[..j + 1], t[j + 1..], keep);
    OnlyEverything(t[..j + 1], keep);
    assert PassedOn(t, false) == t[..j + 1] + Only(t[j + 1..], keep);
  }

  // What may not be given when an AES key is generated.
  predicate IsKeptByLibrary(k: Kind) {
    k == CKA_VALUE || k == CKA_LOCAL || k == CKA_KEY_GEN_MECHANISM || k == CKA_ALWAYS_SENSITIVE || k == CKA_NEVER_EXTRACTABLE
  }

  lemma KeptNoted(k: Kind)
    requires IsKeptByLibrary(k)
    ensures k in CommonNotes(4) + ClassNotes(AesSecret, 4) + OwnNotes(AesSecret, 4)
  {
  }

  lemma KeptForbidden(k: Kind)
    requires IsKeptByLibrary(k)
    ensures k in SchemaOf(AesSecret) && 4 in SchemaOf(AesSecret)[k].checks
  {
    AllListed(AesSecret, 4);
    KeptNoted(k);
    HasNote(SchemaOf(AesSecret), CommonKeys() + ClassKeys(AesSecret) + OwnKeys(AesSecret), 4,
              CommonNotes(4) + ClassNotes(AesSecret, 4) + OwnNotes(AesSecret, 4), k);
  }

  lemma ForbiddenObjected(s: Schema, e: Entry)
    requires e.kind in s && 4 in s[e.kind].checks && WellSized(s[e.kind], e)
    ensures Objection(s, OpGenerate, e) == CKR_ATTRIBUTE_READ_ONLY
  {
  }

  lemma AesObjects(x: Session, onToken: bool, isPrivate: bool, p: seq<Entry>, m: Material, j: nat)
    requires x.schemas == NewP11Object && x.haveWrite(onToken, isPrivate) == CKR_OK && |p| <= 28 && Unreserved(p)
    requires Reordered(p) == p && j < |p| && Objection(SchemaOf(AesSecret), OpGenerate, p[j]) == CKR_ATTRIBUTE_READ_ONLY
    requires TakesAll(SchemaOf(AesSecret), Call(x, isPrivate, OpGenerate), 4, Fresh(4, 0x1F), p[..j]) == true
    ensures KeyResult(x, Generated(0x1080), 4, 0x1F, onToken, isPrivate, p, m, true).rv == CKR_ATTRIBUTE_READ_ONLY
  {
    AesFamily();
    SmallRepresentable(4);
    SmallRepresentable(0x1F);
    assert OpOf(Generated(0x1080)) == OpGenerate;
    KeyObjects(x, Generated(0x1080), 4, 0x1F, onToken, isPrivate, p, m, true, j);
  }

  lemma KeptObjected(e: Entry)
    requires IsKeptByLibrary(e.kind) && e.kind in SchemaOf(AesSecret) && WellSized(SchemaOf(AesSecret)[e.kind], e)
    ensures Objection(SchemaOf(AesSecret), OpGenerate, e) == CKR_ATTRIBUTE_READ_ONLY
  {
    KeptForbidden(e.kind);
    ForbiddenObjected(SchemaOf(AesSecret), e);
  }

  lemma PassedEntry(e: Entry)
    requires PlainEntry(e) || IsKeptByLibrary(e.kind)
    ensures !InHead(e.kind) && e.kind != CKA_CHECK_VALUE
  {
  }

  lemma PlainPassed(t: seq<Entry>, j: nat)
    requires j < |t| && (forall i :: 0 <= i < j ==> PlainEntry(t[i])) && IsKeptByLibrary(t[j].kind)
    ensures |PassedOn(t, false)| > j && PassedOn(t, false)[..j] == t[..j] && PassedOn(t, false)[j] == t[j]
  {
    forall i | 0 <= i <= j ensures !InHead(t[i].kind) && t[i].kind != CKA_CHECK_VALUE {
      PassedEntry(t[i]);
    }
    PassedFirst(t, j);
  }

  // After plain entries, one of these is answered with READ_ONLY.
  lemma AesReadOnly(x: Session, onToken: bool, isPrivate: bool, t: seq<Entry>, random: nat -> bytes, j: nat)
    requires x.schemas == NewP11Object && x.haveWrite(onToken, isPrivate) == CKR_OK && |t| <= 28 && Scannable(false, t)
    requires var n := LengthAsked(t); n == 16 || n == 24 || n == 32
    requires j < |t| && (forall i :: 0 <= i < j ==> PlainEntry(t[i])) && IsKeptByLibrary(t[j].kind)
    requires t[j].kind in SchemaOf(AesSecret) && WellSized(SchemaOf(AesSecret)[t[j].kind], t[j])
    ensures AesResult(x, onToken, isPrivate, t, random).rv == CKR_ATTRIBUTE_READ_ONLY
  {
    var p := PassedOn(t, false);
    AesAnswer(x, onToken, isPrivate, t, random);
    PassedAll(t);
    PlainPassed(t, j);
    KeptObjected(t[j]);
    PlainAllTaken(Call(x, isPrivate, OpGenerate), 4, Fresh(4, 0x1F), p[..j]);
    AesObjects(x, onToken, isPrivate, p, AesMaterial(x, t, random(LengthAsked(t))), j);
  }

  // ---------- deriving ----------

  // The length a derived key has: a generic secret and an AES key have the one asked for, and a DES
  // key its own, which may not be asked for.
  function KeyLength(keyType: nat, asked: nat): Option<nat> {
    if keyType == 0x10 then if asked > 0 then Some(asked) else None
    else if keyType == 0x1F then if asked in {16, 24, 32} then Some(asked) else None
    else if asked > 0 then None
    else if keyType == 0x13 then Some(8)
    else if keyType == 0x14 then Some(16)
    else if keyType == 0x15 then Some(24)
    else None
  }

  predicate IsDes(keyType: nat) { 0x13 <= keyType <= 0x15 }

  // The key: as many bytes from the end of the agreed secret, with odd parity if it is a DES key.
  function DerivedValue(keyType: nat, n: nat, secret: bytes, parity: bytes -> bytes): bytes
    requires n <= |secret|
  {
    if IsDes(keyType) then parity(secret[|secret| - n..]) else secret[|secret| - n..]
  }

  ghost predicate DerivesKey(x: Session, keyType: nat, onToken: bool, isPrivate: bool, t: seq<Entry>, secret: Option<bytes>) {
    var n := KeyLength(keyType, LengthAsked(t));
    Scannable(true, t) && n.Some? && secret.Some? && n.value <= |secret.value| && |t| <= 28
    && x.haveWrite(onToken, isPrivate) == CKR_OK
    && FamilyOf(4, keyType).Some?
    && TakesAll(SchemaOf(FamilyOf(4, keyType).value), Call(x, isPrivate, OpDerive), 4, Fresh(4, keyType), PassedOn(t, false))
  }

  // The check value is that of the secret's first bytes.
  function DhMaterial(x: Session, keyType: nat, t: seq<Entry>, secret: bytes, parity: bytes -> bytes): Material
    requires var n := KeyLength(keyType, LengthAsked(t)); n.Some? && n.value <= |secret|
  {
    var n := KeyLength(keyType, LengthAsked(t)).value;
    KeyParts(DerivedValue(keyType, n, secret, parity), x.kcv(keyType, if keyType == 0x10 then secret else secret[..n]),
             Names(t, CKA_CHECK_VALUE))
  }

  lemma LengthDerived(keyType: nat, asked: nat)
    ensures var n := KeyLength(keyType, asked);
      if n.Some? then DerivedLength(keyType, asked) == (CKR_OK, n.value) else DerivedLength(keyType, asked).0 != CKR_OK
  {
  }

  lemma MaterialDerived(x: Session, keyType: nat, n: nat, secret: bytes, parity: bytes -> bytes)
    requires n <= |secret|
    ensures LastBytes(secret, n, keyType, parity) == DerivedValue(keyType, n, secret, parity)
    ensures CheckedBytes(secret, n, keyType) == if keyType == 0x10 then secret else secret[..n]
  {
  }

  // How a length is refused.
  function LengthCode(keyType: nat, asked: nat): Rv {
    if keyType == 0x10 then CKR_TEMPLATE_INCOMPLETE
    else if IsDes(keyType) then CKR_ATTRIBUTE_READ_ONLY
    else CKR_ATTRIBUTE_VALUE_INVALID
  }

  lemma LengthRefused(keyType: nat, asked: nat)
    requires KeyLength(keyType, asked) == None
    ensures DerivedLength(keyType, asked).0 == LengthCode(keyType, asked)
  {
  }

  // Without a usable length, a short enough template and a secret, the answer is that of the first
  // that is missing, after entries the call reads itself.
  lemma DeriveRefused(x: Session, base: Attrs, keyType: nat, onToken: bool, isPrivate: bool, t: seq<Entry>,
                      secret: Option<bytes>, parity: bytes -> bytes)
    requires !(Scannable(true, t) && KeyLength(keyType, LengthAsked(t)).Some? && |t| <= 28 && secret.Some?)
    ensures var r := DeriveResult(x, base, keyType, onToken, isPrivate, t, secret, parity);
      r.obj == None && r.rv != CKR_OK
      && (if !Scannable(true, t) then
            (!Names(t, CKA_VALUE) ==> r.rv == CKR_ATTRIBUTE_VALUE_INVALID)
            && (Scannable(false, t) ==> r.rv == CKR_ATTRIBUTE_READ_ONLY)
          else if KeyLength(keyType, LengthAsked(t)) == None then r.rv == LengthCode(keyType, LengthAsked(t))
          else if |t| > 28 then r.rv == CKR_TEMPLATE_INCONSISTENT
          else r.rv == CKR_GENERAL_ERROR)
  {
    ScannedExactly(true, START, t);
    NumberOr(t, CKA_VALUE_LEN, 0);
    LengthDerived(keyType, LengthAsked(t));
    if !Scannable(true, t) {
      ScannedCode(true, START, t);
    } else if KeyLength(keyType, LengthAsked(t)) == None {
      LengthRefused(keyType, LengthAsked(t));
    }
  }

  // A secret that is too short makes no key.
  lemma DeriveShort(x: Session, base: Attrs, keyType: nat, onToken: bool, isPrivate: bool, t: seq<Entry>,
                    secret: bytes, parity: bytes -> bytes)
    requires var n := KeyLength(keyType, LengthAsked(t));
      Scannable(true, t) && n.Some? && n.value > |secret| && |t| <= 28
    ensures DeriveResult(x, base, keyType, onToken, isPrivate, t, Some(secret), parity).rv != CKR_OK
  {
    ScannedExactly(true, START, t);
    NumberOr(t, CKA_VALUE_LEN, 0);
    LengthDerived(keyType, LengthAsked(t));
    var n := KeyLength(keyType, LengthAsked(t)).value;
    NotMade(x, Derived(base), CKO_SECRET_KEY, keyType, onToken, isPrivate, PassedOn(t, false),
            ValueAndCheck([], x.kcv(keyType, CheckedBytes(secret, n, keyType)), Scanned(true, START, t).checkValue));
  }

  lemma NotMade(x: Session, origin: Origin, objClass: nat, keyType: nat, onToken: bool, isPrivate: bool, t: seq<Entry>, m: Material)
    ensures KeyResult(x, origin, objClass, keyType, onToken, isPrivate, t, m, false).rv != CKR_OK
  {
    CreatedIs(x, OpOf(origin), KeyTemplate(objClass, keyType, onToken, isPrivate, t));
  }

  lemma DeriveAnswer(x: Session, base: Attrs, keyType: nat, onToken: bool, isPrivate: bool, t: seq<Entry>,
                     secret: Option<bytes>, parity: bytes -> bytes)
    requires var n := KeyLength(keyType, LengthAsked(t));
      Scannable(true, t) && n.Some? && secret.Some? && n.value <= |secret.value| && |t| <= 28
    ensures DeriveResult(x, base, keyType, onToken, isPrivate, t, secret, parity)
         == KeyResult(x, Derived(base), 4, keyType, onToken, isPrivate, PassedOn(t, false),
                      DhMaterial(x, keyType, t, secret.value, parity), true)
  {
    ScannedExactly(true, START, t);
    NumberOr(t, CKA_VALUE_LEN, 0);
    LengthDerived(keyType, LengthAsked(t));
    MaterialDerived(x, keyType, KeyLength(keyType, LengthAsked(t)).value, secret.value, parity);
  }

  lemma DerivedType(keyType: nat, asked: nat)
    requires KeyLength(keyType, asked).Some?
    ensures FamilyOf(4, keyType).Some? && keyType < 256
  {
  }

  lemma NothingDemanded(s: Schema, t: seq<Entry>)
    ensures Provides(s, OpDerive, t)
  {
  }

  lemma DeriveMakes(x: Session, base: Attrs, keyType: nat, onToken: bool, isPrivate: bool, t: seq<Entry>, secret: bytes,
                    parity: bytes -> bytes)
    requires x.schemas == NewP11Object && |t| <= 28
    requires var n := KeyLength(keyType, LengthAsked(t)); n.Some? && n.value <= |secret|
    ensures FamilyOf(4, keyType).Some?
    ensures KeyResult(x, Derived(base), 4, keyType, onToken, isPrivate, PassedOn(t, false),
                      DhMaterial(x, keyType, t, secret, parity), true).rv == CKR_OK
      <==> x.haveWrite(onToken, isPrivate) == CKR_OK
           && TakesAll(SchemaOf(FamilyOf(4, keyType).value), Call(x, isPrivate, OpDerive), 4, Fresh(4, keyType), PassedOn(t, false))
  {
    DerivedType(keyType, LengthAsked(t));
    SmallRepresentable(4);
    SmallRepresentable(keyType);
    PassedAll(t);
    var u := KeyTemplate(4, keyType, onToken, isPrivate, PassedOn(t, false));
    NothingDemanded(SchemaOf(FamilyOf(4, keyType).value), u);
    assert OpOf(Derived(base)) == OpDerive;
    KeyExactly(x, Derived(base), 4, keyType, onToken, isPrivate, PassedOn(t, false), DhMaterial(x, keyType, t, secret, parity), true);
  }

  // A key is derived exactly if there is a secret long enough for the length asked for, access is
  // granted and the other entries are taken; it is then the end of the secret.
  lemma DeriveExactly(x: Session, base: Attrs, keyType: nat, onToken: bool, isPrivate: bool, t: seq<Entry>,
                      secret: Option<bytes>, parity: bytes -> bytes)
    requires x.schemas == NewP11Object
    ensures var r := DeriveResult(x, base, keyType, onToken, isPrivate, t, secret, parity);
      (r.rv == CKR_OK <==> DerivesKey(x, keyType, onToken, isPrivate, t, secret))
      && (r.rv == CKR_OK ==>
            var n := KeyLength(keyType, LengthAsked(t)).value;
            r.obj.Some?
            && HoldsKey(x, isPrivate, r.obj.value.attrs, DerivedValue(keyType, n, secret.value, parity),
                        x.kcv(keyType, if keyType == 0x10 then secret.value else secret.value[..n]), Names(t, CKA_CHECK_VALUE)))
  {
    var n := KeyLength(keyType, LengthAsked(t));
    if Scannable(true, t) && n.Some? && secret.Some? && n.value <= |secret.value| && |t| <= 28 {
      DeriveAnswer(x, base, keyType, onToken, isPrivate, t, secret, parity);
      DeriveMakes(x, base, keyType, onToken, isPrivate, t, secret.value, parity);
      KeyHeld(x, Derived(base), 4, keyType, onToken, isPrivate, PassedOn(t, false),
              DerivedValue(keyType, n.value, secret.value, parity),
              x.kcv(keyType, if keyType == 0x10 then secret.value else secret.value[..n.value]), Names(t, CKA_CHECK_VALUE));
    } else if Scannable(true, t) && n.Some? && secret.Some? && |t| <= 28 {
      DeriveShort(x, base, keyType, onToken, isPrivate, t, secret.value, parity);
    } else {
      DeriveRefused(x, base, keyType, onToken, isPrivate, t, secret, parity);
    }
  }

  lemma KeyHeld(x: Session, origin: Origin, objClass: nat, keyType: nat, onToken: bool, isPrivate: bool, t: seq<Entry>,
                key: bytes, check: bytes, omitted: bool)
    ensures var r := KeyResult(x, origin, objClass, keyType, onToken, isPrivate, t, KeyParts(key, check, omitted), true);
      r.rv == CKR_OK ==> r.obj.Some? && HoldsKey(x, isPrivate, r.obj.value.attrs, key, check, omitted) == true
  {
    var c := CreateResult(x, OpOf(origin), KeyTemplate(objClass, keyType, onToken, isPrivate, t));
    if c.rv == CKR_OK {
      CreatedIs(x, OpOf(origin), KeyTemplate(objClass, keyType, onToken, isPrivate, t));
      PartsFinished(x, origin, isPrivate, c, key, check, omitted);
    }
  }

  // ---------- unwrapping ----------

  // Entry i is the only one of kind k.
  predicate IsOnly(u: seq<Entry>, k: Kind, i: int) {
    0 <= i < |u| && u[i].kind == k && forall j :: 0 <= j < |u| && j != i ==> u[j].kind != k
  }

  lemma {:induction false} CountsNone(u: seq<Entry>, k: Kind)
    ensures Count(u, k) == 0 <==> forall j :: 0 <= j < |u| ==> u[j].kind != k
  {
    if u != [] {
      CountsNone(u[1..], k);
      assert forall j :: 0 < j < |u| ==> u[j] == u[1..][j - 1];
      assert forall j :: 0 <= j < |u[1..]| ==> u[1..][j] == u[j + 1];
    }
  }

  lemma {:induction false} CountsOne(u: seq<Entry>, k: Kind)
    ensures Count(u, k) == 1 <==> exists i :: IsOnly(u, k, i)
  {
    if u != [] {
      var t := u[1..];
      CountsOne(t, k);
      CountsNone(t, k);
      assert forall j :: 0 < j < |u| ==> u[j] == t[j - 1];
      assert forall j :: 0 <= j < |t| ==> t[j] == u[j + 1];
      if u[0].kind == k {
        if Count(u, k) == 1 {
          assert IsOnly(u, k, 0);
        }
      } else {
        if Count(u, k) == 1 {
          var i :| IsOnly(t, k, i);
          assert IsOnly(u, k, i + 1);
        }
        if exists i :: IsOnly(u, k, i) {
          var i :| IsOnly(u, k, i);
          assert IsOnly(t, k, i - 1);
        }
      }
    }
  }

  // A template obeys an unwrap template if it has exactly one entry for each attribute in that, with
  // the bytes of its value.
  lemma ObeysExactly(template: map<Kind, Simple>, u: seq<Entry>)
    ensures Obeys(template, u)
      <==> forall k :: k in template ==> exists i :: IsOnly(u, k, i) && u[i].data == Peeked(template[k])
  {
    forall k | k in template
      ensures (Count(u, k) == 1 && forall i :: 0 <= i < |u| && u[i].kind == k ==> u[i].data == Peeked(template[k]))
        <==> exists i :: IsOnly(u, k, i) && u[i].data == Peeked(template[k])
    {
      CountsOne(u, k);
    }
  }

  lemma PassedWith(t: seq<Entry>)
    ensures forall e :: e in PassedOn(t, true) <==> e in t && !InHead(e.kind)
  {
    OnlyAll(t, (e: Entry) =>
      e.kind != CKA_CLASS && e.kind != CKA_TOKEN && e.kind != CKA_PRIVATE && e.kind != CKA_KEY_TYPE
      && (true || e.kind != CKA_CHECK_VALUE));
  }

  // The template of the new key is as the unwrap template wants it, if there is one.
  predicate Obeyed(wrapping: Attrs, u: seq<Entry>) {
    CKA_UNWRAP_TEMPLATE in wrapping && wrapping[CKA_UNWRAP_TEMPLATE].Template? ==> Obeys(wrapping[CKA_UNWRAP_TEMPLATE].t, u)
  }

  // A secret or private key of some type is asked for, as the unwrap template of the wrapping key
  // wants it, and the wrapped key can be decrypted.
  predicate UnwrapAsked(x: Session, wrapping: Attrs, t: seq<Entry>, unwrapped: Option<KeyData>) {
    var q := AskedBy(t);
    (q.objClass == Some(3) || q.objClass == Some(4)) && q.keyType.Some? && unwrapped.Some? && |t| <= 28
    && x.haveWrite(q.onToken, q.isPrivate) == CKR_OK
    && Obeyed(wrapping, KeyTemplate(q.objClass.value, q.keyType.value, q.onToken, q.isPrivate, PassedOn(t, true)))
  }

  // What a call to unwrap a key must be like.
  ghost predicate UnwrapsKey(x: Session, wrapping: Attrs, t: seq<Entry>, unwrapped: Option<KeyData>) {
    UnwrapAsked(x, wrapping, t, unwrapped) && unwrapped.value.ok
    && var q := AskedBy(t);
       MakesKey(x, OpUnwrap, q.objClass.value, q.keyType.value, q.onToken, q.isPrivate, PassedOn(t, true))
  }

  function UnwrapMade(x: Session, q: Asked, p: seq<Entry>, k: KeyData): Made
    requires q.objClass.Some? && q.keyType.Some?
  {
    KeyResult(x, Unwrapped, q.objClass.value, q.keyType.value, q.onToken, q.isPrivate, p, k.m, k.ok)
  }

  lemma UnwrapAnswer(x: Session, wrapping: Attrs, t: seq<Entry>, unwrapped: Option<KeyData>)
    requires UnwrapAsked(x, wrapping, t, unwrapped)
    ensures UnwrapResult(x, wrapping, t, unwrapped) == UnwrapMade(x, AskedBy(t), PassedOn(t, true), unwrapped.value)
  {
  }

  lemma PassedShort(t: seq<Entry>, checkValueToo: bool)
    ensures |PassedOn(t, checkValueToo)| <= |t|
  {
    OnlyShorter(t, (e: Entry) =>
      e.kind != CKA_CLASS && e.kind != CKA_TOKEN && e.kind != CKA_PRIVATE && e.kind != CKA_KEY_TYPE
      && (checkValueToo || e.kind != CKA_CHECK_VALUE));
  }

  // If it is not asked for like this, the answer is that of the first obstacle, and there is no key.
  lemma UnwrapRefused(x: Session, wrapping: Attrs, t: seq<Entry>, unwrapped: Option<KeyData>)
    requires !UnwrapAsked(x, wrapping, t, unwrapped)
    ensures var q, r := AskedBy(t), UnwrapResult(x, wrapping, t, unwrapped);
      r.obj == None
      && r.rv == if q.objClass == None || (2 <= q.objClass.value <= 4 && q.keyType == None) then CKR_TEMPLATE_INCOMPLETE
                 else if (q.objClass != Some(3) && q.objClass != Some(4)) || q.keyType == None then CKR_ATTRIBUTE_VALUE_INVALID
                 else if x.haveWrite(q.onToken, q.isPrivate) != CKR_OK then x.haveWrite(q.onToken, q.isPrivate)
                 else if |t| > 28 then CKR_TEMPLATE_INCONSISTENT
                 else if !Obeyed(wrapping, KeyTemplate(q.objClass.value, q.keyType.value, q.onToken, q.isPrivate, PassedOn(t, true)))
                   then CKR_TEMPLATE_INCONSISTENT
                 else CKR_GENERAL_ERROR
  {
  }

  lemma AskedRepresentable(t: seq<Entry>)
    ensures var q := AskedBy(t);
      (q.objClass.Some? ==> Representable(q.objClass.value) == true) && (q.keyType.Some? ==> Representable(q.keyType.value) == true)
  {
    NumberFromBytes(t, CKA_CLASS, None);
    NumberFromBytes(t, CKA_KEY_TYPE, None);
  }

  lemma UnwrapMakes(x: Session, q: Asked, p: seq<Entry>, k: KeyData)
    requires x.schemas == NewP11Object && q.objClass.Some? && q.keyType.Some? && Unreserved(p)
    requires Representable(q.objClass.value) == true && Representable(q.keyType.value) == true
    ensures (UnwrapMade(x, q, p, k).rv == CKR_OK)
         == (k.ok && MakesKey(x, OpUnwrap, q.objClass.value, q.keyType.value, q.onToken, q.isPrivate, p))
  {
    assert OpOf(Unwrapped) == OpUnwrap;
    KeyExactly(x, Unwrapped, q.objClass.value, q.keyType.value, q.onToken, q.isPrivate, p, k.m, k.ok);
  }

  // A key is unwrapped exactly by such a call.
  lemma UnwrapExactly(x: Session, wrapping: Attrs, t: seq<Entry>, unwrapped: Option<KeyData>)
    requires x.schemas == NewP11Object
    ensures (UnwrapResult(x, wrapping, t, unwrapped).rv == CKR_OK) == UnwrapsKey(x, wrapping, t, unwrapped)
  {
    if UnwrapAsked(x, wrapping, t, unwrapped) {
      UnwrapAnswer(x, wrapping, t, unwrapped);
      PassedUnreserved(t, true);
      AskedRepresentable(t);
      UnwrapMakes(x, AskedBy(t), PassedOn(t, true), unwrapped.value);
    } else {
      UnwrapRefused(x, wrapping, t, unwrapped);
    }
  }
}
