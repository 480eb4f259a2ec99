// What the stored strings of key objects stand for, over whole runs: the plaintext last written, by
// creating, filling in key material, setting or copying.
module Plaintexts {
  import opened Bytes
  import opened Attributes
  import opened UpdateRules
  import opened KeyPolicy
  import opened Objects
  import opened P11Objects
  import opened KeyCalls
  import opened Runs
  import opened Decoding
  import opened Agreement
  import opened Storage

  // If attribute k is a string, it decodes to v.
  predicate Holds(dec: Key, isPrivate: bool, a: Attrs, k: Kind, v: bytes) {
    k in a && a[k].Str? && Encoded(k) ==> DecodedValue(dec, isPrivate, k, a[k]) == Str(v)
  }

  predicate HoldsNow(dec: Key, a: Attrs, k: Kind, v: bytes) { Holds(dec, IsPrivate(a), a, k, v) }

  // ---------- one template ----------

  lemma AppliedHolds(s: Schema, c: Call, a: Attrs, t: seq<Entry>, k: Kind, v: bytes)
    requires Proper(s) && Ready(c, a) && Shaped(s, a) && HasPolicy(a)
    requires Holds(c.session.token.decrypt, c.isPrivate, a, k, v)
    requires Apply(Updating(s, c), 0, a, t).rv == CKR_OK
    ensures Holds(c.session.token.decrypt, c.isPrivate, Apply(Updating(s, c), 0, a, t).attrs, k,
                  LastWritten(FillerOf(c, a), t, k, v)) == true
  {
    var b := Apply(Updating(s, c), 0, a, t).attrs;
    ApplyShaped(s, c, 0, a, t);
    assert SortedAt(s, a, k) && SortedAt(s, b, k);
    if k in b && b[k].Str? && Encoded(k) {
      assert Named(s[k].rule, k);
      DecodesToLastWritten(s, c, a, t, k);
    }
  }

  // ---------- setting ----------

  lemma EffectiveHolds(s: Schema, c: Call, dec: Key, o: Obj, t: seq<Entry>, k: Kind, v: bytes)
    requires Proper(s) && Agrees(c.session.token, dec) && Represents(dec, o.attrs) && Shaped(s, o.attrs)
    requires HasPolicy(o.attrs) && c.op.OpSet? && c.isPrivate == IsPrivate(o.attrs) && Settled(o)
    requires HoldsNow(dec, o.attrs, k, v)
    ensures HoldsNow(dec, SaveTemplate(s, c, o, t).obj.attrs, k, LastWritten(NoCheck, Effective(s, c, o, t), k, v)) == true
  {
    EffectiveApplied(s, c, o, t);
    ApplyAgrees(s, c, dec, 0, o.attrs, Effective(s, c, o, t));
    AppliedHolds(s, ReadingCall(c, dec), o.attrs, Effective(s, c, o, t), k, v);
    PrivateApplied(s, c, 0, o.attrs, Effective(s, c, o, t));
  }

  lemma SetHolds(schemas: Schemas, x: Session, dec: Key, o: Obj, t: seq<Entry>, k: Kind, v: bytes)
    requires SoundSchemas(schemas) && x.schemas == schemas && GoodObj(schemas, o) && Agrees(x.token, dec)
    requires Represents(dec, o.attrs) && HoldsNow(dec, o.attrs, k, v)
    ensures HoldsNow(dec, SetResult(x, o, t).obj.attrs, k, LastWritten(NoCheck, Written(x, o, t), k, v)) == true
  {
    var s := schemas(ClassOf(o.attrs), KeyTypeOf(o.attrs)).value;
    SetSaves(schemas, s, x, o, t);
    EffectiveHolds(s, Call(x, IsPrivate(o.attrs), OpSet), dec, o, t, k, v);
  }

  // ---------- copying ----------

  lemma SavedHolds(s: Schema, c: Call, o: Obj, t: seq<Entry>, k: Kind, v: bytes)
    requires Proper(s) && Ready(c, o.attrs) && Shaped(s, o.attrs) && HasPolicy(o.attrs) && HasPrivate(o.attrs)
    requires c.isPrivate == LastFlag(t, CKA_PRIVATE, IsPrivate(o.attrs))
    requires Holds(c.session.token.decrypt, c.isPrivate, o.attrs, k, v)
    ensures var r := SaveTemplate(s, c, o, t);
      r.rv == CKR_OK ==>
        HoldsNow(c.session.token.decrypt, r.obj.attrs, k, LastWritten(FillerOf(c, o.attrs), t, k, v)) == true
  {
    SavedInFull(s, c, o, t);
    if SaveTemplate(s, c, o, t).rv == CKR_OK {
      AppliedHolds(s, c, o.attrs, t, k, v);
      PrivateApplied(s, c, 0, o.attrs, t);
    }
  }

  lemma CopyIntoHolds(schemas: Schemas, x: Session, o: Obj, onToken: bool, isPrivate: bool, t: seq<Entry>, k: Kind, v: bytes)
    requires SoundSchemas(schemas) && x.schemas == schemas && GoodObj(schemas, o) && Lawful(x.token)
    requires Represents(x.token.decrypt, o.attrs) && HoldsNow(x.token.decrypt, o.attrs, k, v)
    requires isPrivate == LastFlag(t, CKA_PRIVATE, IsPrivate(o.attrs)) && (IsPrivate(o.attrs) ==> isPrivate)
    ensures var r := CopyInto(x, o, onToken, isPrivate, !IsPrivate(o.attrs) && isPrivate, t).obj;
      r.Some? ==> HoldsNow(x.token.decrypt, r.value.attrs, k, LastWritten(NoCheck, t, k, v)) == true
  {
    var upgrade := !IsPrivate(o.attrs) && isPrivate;
    if Copies(x, upgrade, o.attrs) {
      var b := CopiedAttrs(x, upgrade, o.attrs);
      CopyDecodes(x, IsPrivate(o.attrs), isPrivate, o.attrs);
      CopiedKeepsGood(schemas, x, upgrade, o.attrs);
      assert Holds(x.token.decrypt, isPrivate, b, k, v);
      CopySavedHolds(schemas, x, isPrivate, Rewrite(NewObj(onToken), b), t, k, v);
    }
  }

  lemma CopySavedHolds(schemas: Schemas, x: Session, isPrivate: bool, o: Obj, t: seq<Entry>, k: Kind, v: bytes)
    requires SoundSchemas(schemas) && x.schemas == schemas && GoodObj(schemas, o) && Lawful(x.token)
    requires Decodable(x.token.decrypt, isPrivate, o.attrs) && HasPrivate(o.attrs)
    requires isPrivate == LastFlag(t, CKA_PRIVATE, IsPrivate(o.attrs)) && Holds(x.token.decrypt, isPrivate, o.attrs, k, v)
    ensures var r := SaveObject(x, isPrivate, OpCopy, o, t);
      r.rv == CKR_OK ==> HoldsNow(x.token.decrypt, r.obj.attrs, k, LastWritten(NoCheck, t, k, v)) == true
  {
    var s := schemas(ClassOf(o.attrs), KeyTypeOf(o.attrs)).value;
    SaveObjectSaves(schemas, s, x, isPrivate, OpCopy, o, t);
    SavedHolds(s, Call(x, isPrivate, OpCopy), o, t, k, v);
  }

  // A copy holds what its original does, and what the template says.
  lemma CopyHolds(schemas: Schemas, x: Session, o: Obj, t: seq<Entry>, k: Kind, v: bytes)
    requires SoundSchemas(schemas) && x.schemas == schemas && GoodObj(schemas, o) && Lawful(x.token)
    requires Represents(x.token.decrypt, o.attrs) && HoldsNow(x.token.decrypt, o.attrs, k, v)
    ensures var r := CopyResult(x, o, t).obj;
      r.Some? ==> HoldsNow(x.token.decrypt, r.value.attrs, k, LastWritten(NoCheck, t, k, v)) == true
  {
    var onToken := LastFlag(t, CKA_TOKEN, GetBool(o.attrs, CKA_TOKEN, false));
    if CopyResult(x, o, t).obj.Some? {
      CopyIntoHolds(schemas, x, o, onToken, LastFlag(t, CKA_PRIVATE, IsPrivate(o.attrs)), t, k, v);
    }
  }

  // ---------- creating ----------

  // The check value that the last key value of a template fills in, or v.
  function FilledIn(f: Filler, t: seq<Entry>, v: bytes): bytes {
    if f.Check? && Specified(t, CKA_VALUE) then CheckValueOf(f, LastWritten(NoCheck, t, CKA_VALUE, [])) else v
  }

  // What a created object is given for string attribute k: the last entry for it decides, wherever
  // it stands; a check value that is not given is that of the last key value.
  function GivenFor(f: Filler, t: seq<Entry>, k: Kind): bytes {
    LastWritten(NoCheck, t, k, if k == CKA_CHECK_VALUE then FilledIn(f, t, []) else [])
  }

  function CreateWrites(x: Session, op: Op, t: seq<Entry>, k: Kind): bytes {
    var q := AskedBy(t);
    GivenFor(if op.OpCreate? && q.objClass == Some(CKO_SECRET_KEY)
             then Check(x.kcv, if q.keyType.Some? then q.keyType.value else CKK_RSA)
             else NoCheck, t, k)
  }

  lemma {:induction false} JoinedWritten(f: Filler, t: seq<Entry>, u: seq<Entry>, k: Kind, v: bytes)
    ensures LastWritten(f, t + u, k, v) == LastWritten(f, u, k, LastWritten(f, t, k, v))
    decreases |t|
  {
    if t == [] {
      assert t + u == u;
    } else {
      assert (t + u)[1..] == t[1..] + u;
      JoinedWritten(f, t[1..], u, k, WrittenBy(f, t[0], k, v));
    }
  }

  // Entries that do not write k may be left out, and if no key value is left none fills it in.
  lemma {:induction false} OnlyWritten(f: Filler, t: seq<Entry>, keep: Entry -> bool, k: Kind, v: bytes)
    requires forall e: Entry :: e.kind == k ==> keep(e)
    requires k == CKA_CHECK_VALUE && f.Check? ==> forall e: Entry :: keep(e) ==> e.kind != CKA_VALUE
    ensures LastWritten(f, Only(t, keep), k, v) == LastWritten(NoCheck, t, k, v)
    decreases |t|
  {
    if t != [] {
      OnlyWritten(f, t[1..], keep, k, WrittenBy(NoCheck, t[0], k, v));
      if keep(t[0]) {
        assert ([t[0]] + Only(t[1..], keep))[1..] == Only(t[1..], keep);
      } else {
        assert Only(t, keep) == Only(t[1..], keep);
      }
    }
  }

  // The last key value among the entries that are not check values fills in the check value.
  lemma {:induction false} OthersFillIn(f: Filler, t: seq<Entry>, v: bytes, value: bytes)
    ensures LastWritten(f, Only(t, (e: Entry) => e.kind != CKA_CHECK_VALUE), CKA_CHECK_VALUE, v)
         == if f.Check? && Specified(t, CKA_VALUE) then CheckValueOf(f, LastWritten(NoCheck, t, CKA_VALUE, value)) else v
    decreases |t|
  {
    var others := (e: Entry) => e.kind != CKA_CHECK_VALUE;
    if t != [] {
      var w := WrittenBy(f, t[0], CKA_CHECK_VALUE, v);
      OthersFillIn(f, t[1..], if others(t[0]) then w else v, WrittenBy(NoCheck, t[0], CKA_VALUE, value));
      SpecifiedFirst(t, CKA_VALUE);
      if others(t[0]) {
        assert ([t[0]] + Only(t[1..], others))[1..] == Only(t[1..], others);
        NotSpecified(t[1..], CKA_VALUE, t[0].data);
      } else {
        assert Only(t, others) == Only(t[1..], others);
      }
    }
  }

  lemma SpecifiedFirst(t: seq<Entry>, k: Kind)
    requires t != []
    ensures Specified(t, k) <==> t[0].kind == k || Specified(t[1..], k)
  {
    if Specified(t, k) && t[0].kind != k {
      var i :| 0 <= i < |t| && t[i].kind == k;
      assert t[1..][i - 1].kind == k;
    }
    if Specified(t[1..], k) {
      var i :| 0 <= i < |t[1..]| && t[1..][i].kind == k;
      assert t[i + 1].kind == k;
    }
  }

  lemma {:induction false} NotSpecified(t: seq<Entry>, k: Kind, v: bytes)
    ensures !Specified(t, k) ==> LastWritten(NoCheck, t, k, v) == v
    decreases |t|
  {
    if t != [] {
      SpecifiedFirst(t, k);
      NotSpecified(t[1..], k, v);
    }
  }

  // So it is whatever the order of the entries the code chooses.
  lemma ReorderedGiven(f: Filler, t: seq<Entry>, k: Kind)
    ensures LastWritten(f, Reordered(t), k, []) == GivenFor(f, t, k)
  {
    var others, checks := (e: Entry) => e.kind != CKA_CHECK_VALUE, (e: Entry) => e.kind == CKA_CHECK_VALUE;
    JoinedWritten(f, Only(t, others), Only(t, checks), k, []);
    if k == CKA_CHECK_VALUE {
      OthersFillIn(f, t, [], []);
      OnlyWritten(f, t, checks, k, FilledIn(f, t, []));
    } else {
      OnlyWritten(f, t, others, k, []);
      OnlyKept(t, checks);
      NoneWritten(f, Only(t, checks), k, LastWritten(NoCheck, t, k, []));
    }
  }

  lemma {:induction false} NoneWritten(f: Filler, t: seq<Entry>, k: Kind, v: bytes)
    requires k != CKA_CHECK_VALUE && forall e :: e in t ==> e.kind != k
    ensures LastWritten(f, t, k, v) == v
    decreases |t|
  {
    if t != [] {
      NoneWritten(f, t[1..], k, v);
    }
  }

  lemma FreshHolds(c: Call, s: Schema, objClass: nat, keyType: nat, k: Kind)
    requires Proper(s) && Lawful(c.session.token)
    ensures var a := Initialised(s, objClass, keyType, map[]);
      Holds(c.session.token.decrypt, c.isPrivate, a, k, []) && Ready(c, a) && HasPrivate(a) && IsPrivate(a)
  {
    FreshRepresents(c.session.token, s, objClass, keyType, c.isPrivate);
  }

  lemma FreshFiller(c: Call, s: Schema, objClass: nat, keyType: nat)
    ensures FillerOf(c, Initialised(s, objClass, keyType, map[]))
         == if c.op.OpCreate? && objClass == CKO_SECRET_KEY then Check(c.session.kcv, keyType) else NoCheck
  {
  }

  lemma BroughtInHolds(dec: Key, a: Attrs, k: Kind, v: bytes)
    requires HoldsNow(dec, a, k, v)
    ensures HoldsNow(dec, BroughtIn(a), k, v) == true
  {
  }

  lemma CreateInHolds(schemas: Schemas, x: Session, op: Op, objClass: nat, keyType: nat, onToken: bool,
                      isPrivate: bool, t: seq<Entry>, k: Kind)
    requires SoundSchemas(schemas) && x.schemas == schemas && Lawful(x.token)
    requires isPrivate == LastFlag(t, CKA_PRIVATE, true)
    ensures var r := CreateIn(x, op, objClass, keyType, onToken, isPrivate, t);
      var f := if op.OpCreate? && objClass == CKO_SECRET_KEY then Check(x.kcv, keyType) else NoCheck;
      r.rv == CKR_OK ==>
        r.obj.Some? && HoldsNow(x.token.decrypt, r.obj.value.attrs, k, LastWritten(f, t, k, [])) == true
  {
    if schemas(objClass, keyType).Some? {
      var s, c := schemas(objClass, keyType).value, Call(x, isPrivate, op);
      var o := Rewrite(NewObj(onToken), Initialised(s, objClass, keyType, map[]));
      CreateInIs(s, x, op, objClass, keyType, onToken, isPrivate, t);
      FreshHolds(c, s, objClass, keyType, k);
      FreshFiller(c, s, objClass, keyType);
      FreshGood(schemas, objClass, keyType, onToken);
      SavedHolds(s, c, o, t, k, []);
      var r := SaveTemplate(s, c, o, t);
      if r.rv == CKR_OK {
        BroughtInHolds(x.token.decrypt, r.obj.attrs, k, LastWritten(FillerOf(c, o.attrs), t, k, []));
      }
    }
  }

  lemma CreateHolds(schemas: Schemas, x: Session, op: Op, t: seq<Entry>, k: Kind)
    requires SoundSchemas(schemas) && x.schemas == schemas && Lawful(x.token)
    ensures var r := CreateResult(x, op, t);
      r.rv == CKR_OK ==>
        r.obj.Some? && HoldsNow(x.token.decrypt, r.obj.value.attrs, k, CreateWrites(x, op, t, k)) == true
  {
    var q := AskedBy(t);
    ReorderedLast(t, CKA_PRIVATE, true);
    if CreateResult(x, op, t).rv == CKR_OK {
      CreateAnswers(x, op, t);
      CreateInHolds(schemas, x, op, q.objClass.value, if q.keyType.Some? then q.keyType.value else CKK_RSA,
                    q.onToken, q.isPrivate, Reordered(t), k);
      ReorderedGiven(if op.OpCreate? && q.objClass == Some(CKO_SECRET_KEY)
                     then Check(x.kcv, if q.keyType.Some? then q.keyType.value else CKK_RSA) else NoCheck, t, k);
    }
  }

  // ---------- key material ----------

  // The parts of a key are stored one after the other; an encryption that fails leaves nothing.
  function PartWritten(x: Session, isPrivate: bool, m: Material, k: Kind, v: bytes): bytes
    decreases |m|
  {
    if m == [] then v
    else
      var failed := isPrivate && x.token.encrypt(ForKind(m[0].0), m[0].1) == None;
      PartWritten(x, isPrivate, m[1..], k, if m[0].0 != k then v else if failed then [] else m[0].1)
  }

  lemma {:induction false} FilledHolds(x: Session, isPrivate: bool, a: Attrs, m: Material, k: Kind, v: bytes)
    requires Lawful(x.token) && Holds(x.token.decrypt, isPrivate, a, k, v)
    ensures Holds(x.token.decrypt, isPrivate, Filled(x, isPrivate, a, m), k, PartWritten(x, isPrivate, m, k, v)) == true
    decreases |m|
  {
    if m != [] {
      var failed := isPrivate && x.token.encrypt(ForKind(m[0].0), m[0].1) == None;
      FilledHolds(x, isPrivate, Put(a, m[0].0, Str(SealedPart(x, isPrivate, m[0]))), m[1..], k,
                  if m[0].0 != k then v else if failed then [] else m[0].1);
    }
  }

  lemma WithHistoryHolds(dec: Key, isPrivate: bool, origin: Origin, a: Attrs, k: Kind, v: bytes)
    requires Holds(dec, isPrivate, a, k, v)
    ensures Holds(dec, isPrivate, WithHistory(origin, a), k, v) == true
  {
  }

  function KeyWrites(x: Session, op: Op, isPrivate: bool, u: seq<Entry>, m: Material, k: Kind): bytes {
    PartWritten(x, isPrivate, m, k, CreateWrites(x, op, u, k))
  }

  // A key made by the token holds its material, and what the template says.
  lemma KeyHolds(schemas: Schemas, x: Session, origin: Origin, objClass: nat, keyType: nat, onToken: bool,
                 isPrivate: bool, t: seq<Entry>, m: Material, ok: bool, k: Kind)
    requires SoundSchemas(schemas) && x.schemas == schemas && Lawful(x.token) && IsMaterial(m) && Unreserved(t)
    ensures var r := KeyResult(x, origin, objClass, keyType, onToken, isPrivate, t, m, ok);
      var u := KeyTemplate(objClass, keyType, onToken, isPrivate, t);
      r.rv == CKR_OK ==>
        r.obj.Some? && HoldsNow(x.token.decrypt, r.obj.value.attrs, k, KeyWrites(x, OpOf(origin), isPrivate, u, m, k)) == true
  {
    var u := KeyTemplate(objClass, keyType, onToken, isPrivate, t);
    TemplateLast(objClass, keyType, onToken, isPrivate, t);
    CreateRepresents(schemas, x, OpOf(origin), u);
    CreateHolds(schemas, x, OpOf(origin), u, k);
    FinishHolds(x, origin, isPrivate, CreateResult(x, OpOf(origin), u), m, ok, k, CreateWrites(x, OpOf(origin), u, k));
  }

  lemma FinishHolds(x: Session, origin: Origin, isPrivate: bool, r: Made, m: Material, ok: bool, k: Kind, v: bytes)
    requires Lawful(x.token) && IsMaterial(m)
    requires r.rv == CKR_OK ==>
      r.obj.Some? && Represents(x.token.decrypt, r.obj.value.attrs) && IsPrivate(r.obj.value.attrs) == isPrivate
      && HoldsNow(x.token.decrypt, r.obj.value.attrs, k, v)
    ensures var f := FinishKey(x, origin, isPrivate, r, m, ok);
      f.rv == CKR_OK ==>
        f.obj.Some? && HoldsNow(x.token.decrypt, f.obj.value.attrs, k, PartWritten(x, isPrivate, m, k, v)) == true
  {
    if r.rv == CKR_OK {
      var a := r.obj.value.attrs;
      HistoryRepresents(x.token.decrypt, origin, a);
      FilledRepresents(x, isPrivate, WithHistory(origin, a), m);
      WithHistoryHolds(x.token.decrypt, isPrivate, origin, a, k, v);
      FilledHolds(x, isPrivate, WithHistory(origin, a), m, k, v);
    }
  }

  // ---------- runs ----------

  // What is written to string attribute k of object id when e happens in world w; `before` is what
  // had been written to that attribute of every object.
  ghost function NowWritten(w: World, e: Event, k: Kind, before: nat -> bytes, id: nat): bytes {
    match e
    case Create(x, made, t) => if made == id then CreateWrites(x, OpCreate, t, k) else before(id)
    case Make(x, made, _, origin, objClass, keyType, onToken, isPrivate, t, m, _) =>
      if made == id
      then KeyWrites(x, OpOf(origin), isPrivate, KeyTemplate(objClass, keyType, onToken, isPrivate, t), m, k)
      else before(id)
    case Copy(_, made, from, t) => if made == id then LastWritten(NoCheck, t, k, before(from)) else before(id)
    case Set(x, target, t) =>
      if target == id && id in w then LastWritten(NoCheck, Written(x, w[id].obj, t), k, before(id)) else before(id)
    case Destroy(_) => before(id)
  }

  // The plaintext last written to string attribute k of object id in the first i calls of a run.
  ghost function LastPlain(ws: seq<World>, es: seq<Event>, i: nat, k: Kind, id: nat): bytes
    requires i < |ws| == |es| + 1
    decreases i
  {
    if i == 0 then []
    else NowWritten(ws[i - 1], es[i - 1], k, (y: nat) => LastPlain(ws, es, i - 1, k, y), id)
  }

  ghost predicate AllHold(dec: Key, w: World, k: Kind, plain: nat -> bytes) {
    forall id :: id in w && w[id].complete ==> HoldsNow(dec, w[id].obj.attrs, k, plain(id))
  }

  lemma BornHolds(dec: Key, w: World, id: nat, obj: Option<Obj>, past: seq<Attrs>, complete: bool, k: Kind,
                  before: nat -> bytes, plain: nat -> bytes)
    requires AllHold(dec, w, k, before) && forall y :: y != id ==> plain(y) == before(y)
    requires if obj.Some? then complete ==> HoldsNow(dec, obj.value.attrs, k, plain(id)) else id !in w
    ensures AllHold(dec, Born(w, id, obj, past, complete), k, plain) == true
  {
  }

  lemma PartsWrittenAlike(x: Session, dec: Key, op: Op, isPrivate: bool, u: seq<Entry>, m: Material, k: Kind)
    ensures KeyWrites(Reading(x, dec), op, isPrivate, u, m, k) == KeyWrites(x, op, isPrivate, u, m, k)
  {
    PartWrittenAlike(x, dec, isPrivate, m, k, CreateWrites(x, op, u, k));
  }

  lemma {:induction false} PartWrittenAlike(x: Session, dec: Key, isPrivate: bool, m: Material, k: Kind, v: bytes)
    ensures PartWritten(Reading(x, dec), isPrivate, m, k, v) == PartWritten(x, isPrivate, m, k, v)
    decreases |m|
  {
    if m != [] {
      var failed := isPrivate && x.token.encrypt(ForKind(m[0].0), m[0].1) == None;
      PartWrittenAlike(x, dec, isPrivate, m[1..], k, if m[0].0 != k then v else if failed then [] else m[0].1);
    }
  }

  lemma MakeNextHolds(schemas: Schemas, dec: Key, w: World, e: Event, k: Kind, before: nat -> bytes, plain: nat -> bytes)
    requires SoundSchemas(schemas) && Valid(schemas, w, e) && Keyed(dec, e) && e.Make? && AllHold(dec, w, k, before)
    requires forall y :: plain(y) == NowWritten(w, e, k, before, y)
    ensures AllHold(dec, Next(w, e), k, plain) == true
  {
    var r := KeyResult(e.x, e.origin, e.objClass, e.keyType, e.onToken, e.isPrivate, e.t, e.m, e.ok);
    if r.rv == CKR_OK {
      KeyAgrees(e.x, dec, e.origin, e.objClass, e.keyType, e.onToken, e.isPrivate, e.t, e.m, e.ok);
      KeyHolds(schemas, Reading(e.x, dec), e.origin, e.objClass, e.keyType, e.onToken, e.isPrivate, e.t, e.m, e.ok, k);
      PartsWrittenAlike(e.x, dec, OpOf(e.origin), e.isPrivate,
                        KeyTemplate(e.objClass, e.keyType, e.onToken, e.isPrivate, e.t), e.m, k);
    }
    BornHolds(dec, w, e.id, r.obj, MakePast(w, e), r.rv == CKR_OK, k, before, plain);
  }

  lemma TrackedCopyHolds(schemas: Schemas, dec: Key, x: Session, from: Tracked, t: seq<Entry>, k: Kind, v: bytes)
    requires SoundSchemas(schemas) && x.schemas == schemas && TellsHistory(schemas, from)
    requires Agrees(x.token, dec)
    requires from.complete ==> Represents(dec, from.obj.attrs) && HoldsNow(dec, from.obj.attrs, k, v)
    ensures var r := CopyResult(x, from.obj, t).obj;
      r.Some? && from.complete ==> HoldsNow(dec, r.value.attrs, k, LastWritten(NoCheck, t, k, v)) == true
  {
    if from.complete && CopyResult(x, from.obj, t).obj.Some? {
      CopyAgrees(x, dec, from.obj, t);
      CopyHolds(schemas, Reading(x, dec), from.obj, t, k, v);
    }
  }

  lemma NextCopy(w: World, e: Event)
    requires e.Copy? && e.from in w
    ensures var from := w[e.from];
      Next(w, e) == Born(w, e.id, CopyResult(e.x, from.obj, e.t).obj, CopyPast(e.x, from, e.t), from.complete)
  {
  }

  lemma CopyNextHolds(schemas: Schemas, dec: Key, w: World, e: Event, k: Kind, before: nat -> bytes, plain: nat -> bytes)
    requires SoundSchemas(schemas) && AllTell(schemas, w) && AllRepresent(dec, w)
    requires Valid(schemas, w, e) && Keyed(dec, e) && e.Copy? && AllHold(dec, w, k, before)
    requires forall y :: plain(y) == NowWritten(w, e, k, before, y)
    ensures AllHold(dec, Next(w, e), k, plain) == true
  {
    var from := w[e.from];
    NextCopy(w, e);
    TrackedCopyHolds(schemas, dec, e.x, from, e.t, k, before(e.from));
    var r := CopyResult(e.x, from.obj, e.t).obj;
    assert plain(e.id) == LastWritten(NoCheck, e.t, k, before(e.from));
    BornHolds(dec, w, e.id, r, CopyPast(e.x, from, e.t), from.complete, k, before, plain);
  }

  lemma SetNextHolds(schemas: Schemas, dec: Key, w: World, e: Event, k: Kind, before: nat -> bytes, plain: nat -> bytes)
    requires SoundSchemas(schemas) && AllTell(schemas, w) && AllRepresent(dec, w)
    requires Valid(schemas, w, e) && Keyed(dec, e) && e.Set? && AllHold(dec, w, k, before)
    requires forall y :: plain(y) == NowWritten(w, e, k, before, y)
    ensures AllHold(dec, Next(w, e), k, plain) == true
  {
    var was := w[e.target];
    assert TellsHistory(schemas, was);
    if was.complete {
      SetHolds(schemas, e.x, dec, was.obj, e.t, k, before(e.target));
    }
    BornHolds(dec, w, e.target, Some(SetResult(e.x, was.obj, e.t).obj), was.past, was.complete, k, before, plain);
  }

  lemma CreateNextHolds(schemas: Schemas, dec: Key, w: World, e: Event, k: Kind, before: nat -> bytes, plain: nat -> bytes)
    requires SoundSchemas(schemas) && Valid(schemas, w, e) && Keyed(dec, e) && e.Create? && AllHold(dec, w, k, before)
    requires forall y :: plain(y) == NowWritten(w, e, k, before, y)
    ensures AllHold(dec, Next(w, e), k, plain) == true
  {
    var r := CreateResult(e.x, OpCreate, e.t);
    if r.rv == CKR_OK {
      CreateAgrees(e.x, dec, OpCreate, e.t);
      CreateHolds(schemas, Reading(e.x, dec), OpCreate, e.t, k);
    }
    BornHolds(dec, w, e.id, r.obj, [], r.rv == CKR_OK, k, before, plain);
  }

  lemma NextHolds(schemas: Schemas, dec: Key, w: World, e: Event, k: Kind, before: nat -> bytes, plain: nat -> bytes)
    requires SoundSchemas(schemas) && AllTell(schemas, w) && AllRepresent(dec, w)
    requires Valid(schemas, w, e) && Keyed(dec, e) && AllHold(dec, w, k, before)
    requires forall y :: plain(y) == NowWritten(w, e, k, before, y)
    ensures AllHold(dec, Next(w, e), k, plain) == true
  {
    match e
    case Create(_, _, _) => CreateNextHolds(schemas, dec, w, e, k, before, plain);
    case Make(_, _, _, _, _, _, _, _, _, _, _) => MakeNextHolds(schemas, dec, w, e, k, before, plain);
    case Copy(_, _, _, _) => CopyNextHolds(schemas, dec, w, e, k, before, plain);
    case Set(_, _, _) => SetNextHolds(schemas, dec, w, e, k, before, plain);
    case Destroy(_) =>
  }

  lemma {:induction false} RunHolds(schemas: Schemas, dec: Key, ws: seq<World>, es: seq<Event>, i: nat, k: Kind)
    requires SoundSchemas(schemas) && Run(Calls(schemas), ws, es) && i < |ws|
    requires forall j :: 0 <= j < |es| ==> Keyed(dec, es[j])
    ensures AllHold(dec, ws[i], k, (y: nat) => LastPlain(ws, es, i, k, y)) == true
  {
    if i > 0 {
      RunHolds(schemas, dec, ws, es, i - 1, k);
      HistoryInvariant(schemas, ws, es, i - 1);
      AlwaysDecodable(schemas, dec, ws, es, i - 1);
      assert Calls(schemas)(ws[i - 1], es[i - 1], ws[i]);
      NextHolds(schemas, dec, ws[i - 1], es[i - 1], k, (y: nat) => LastPlain(ws, es, i - 1, k, y),
                (y: nat) => LastPlain(ws, es, i, k, y));
    }
  }

  // In every world of every run in which the token keeps its key, each string of each object that
  // was made successfully decodes, as the object's private flag says, to the plaintext last written.
  lemma StorageInvariant(schemas: Schemas, dec: Key, ws: seq<World>, es: seq<Event>, i: nat, id: nat, k: Kind)
    requires SoundSchemas(schemas) && Run(Calls(schemas), ws, es) && i < |ws|
    requires forall j :: 0 <= j < |es| ==> Keyed(dec, es[j])
    requires id in ws[i] && ws[i][id].complete
    ensures var a := ws[i][id].obj.attrs;
      Represents(dec, a) && (k in a && a[k].Str? && Encoded(k) ==> StandsFor(dec, a, k) == Str(LastPlain(ws, es, i, k, id)))
  {
    AlwaysDecodable(schemas, dec, ws, es, i);
    RunHolds(schemas, dec, ws, es, i, k);
    var a, plain := ws[i][id].obj.attrs, (y: nat) => LastPlain(ws, es, i, k, y);
    assert HoldsNow(dec, a, k, plain(id));
  }

  // ---------- reading back ----------

  // A string that may be revealed is handed out decoded, to a caller with room for it.
  lemma ReadsBack(x: Session, s: Schema, a: Attrs, k: Kind, n: nat, v: bytes)
    requires Lawful(x.token) && Represents(x.token.decrypt, a) && HoldsNow(x.token.decrypt, a, k, v)
    requires k in s && k in a && a[k].Str? && Encoded(k) && !Hidden(s, a, k)
    ensures Retrieved(x, s, a, Request(k, Some(n)))
         == (if n >= |v| then Answer(CKR_OK, Some(|v|), Some(v)) else Answer(CKR_BUFFER_TOO_SMALL, None, None))
  {
    assert DecodableAt(x.token.decrypt, IsPrivate(a), a, k);
  }

  // So at every moment of every run, C_GetAttributeValue hands out what was last written.
  lemma ReadsLastWritten(schemas: Schemas, ws: seq<World>, es: seq<Event>, i: nat, id: nat, x: Session, s: Schema,
                         k: Kind, n: nat)
    requires SoundSchemas(schemas) && Run(Calls(schemas), ws, es) && i < |ws| && Lawful(x.token)
    requires forall j :: 0 <= j < |es| ==> Keyed(x.token.decrypt, es[j])
    requires id in ws[i] && ws[i][id].complete
    requires var a := ws[i][id].obj.attrs;
      schemas(ClassOf(a), KeyTypeOf(a)) == Some(s) && k in a && a[k].Str? && Encoded(k) && !Hidden(s, a, k)
    ensures var a, v := ws[i][id].obj.attrs, LastPlain(ws, es, i, k, id);
      Retrieved(x, s, a, Request(k, Some(n)))
      == (if n >= |v| then Answer(CKR_OK, Some(|v|), Some(v)) else Answer(CKR_BUFFER_TOO_SMALL, None, None))
  {
    StorageInvariant(schemas, x.token.decrypt, ws, es, i, id, k);
    HistoryInvariant(schemas, ws, es, i);
    assert TellsHistory(schemas, ws[i][id]);
    var a := ws[i][id].obj.attrs;
    assert SortedAt(s, a, k);
    ReadsBack(x, s, a, k, n, LastPlain(ws, es, i, k, id));
  }

  lemma AllEffective(s: Schema, c: Call, o: Obj, t: seq<Entry>)
    ensures SaveTemplate(s, c, o, t).rv == CKR_OK ==> Effective(s, c, o, t) == t
  {
  }

  lemma SetInFull(schemas: Schemas, x: Session, o: Obj, t: seq<Entry>, k: Kind, v: bytes)
    requires SoundSchemas(schemas) && x.schemas == schemas && GoodObj(schemas, o) && Lawful(x.token)
    requires Represents(x.token.decrypt, o.attrs) && HoldsNow(x.token.decrypt, o.attrs, k, v)
    requires SetResult(x, o, t).rv == CKR_OK
    ensures var b := SetResult(x, o, t).obj.attrs;
      Represents(x.token.decrypt, b) == true && HoldsNow(x.token.decrypt, b, k, LastWritten(NoCheck, t, k, v)) == true
  {
    var s := schemas(ClassOf(o.attrs), KeyTypeOf(o.attrs)).value;
    SetSaves(schemas, s, x, o, t);
    AllEffective(s, Call(x, IsPrivate(o.attrs), OpSet), o, t);
    SetHolds(schemas, x, x.token.decrypt, o, t, k, v);
    SetRepresents(schemas, x, x.token.decrypt, o, t);
  }

  // After C_SetAttributeValue, C_GetAttributeValue hands out the value last written for a string
  // attribute, by this call or before, whether or not the object is stored encrypted.
  lemma SetThenGet(schemas: Schemas, x: Session, o: Obj, t: seq<Entry>, s: Schema, k: Kind, n: nat, v: bytes)
    requires SoundSchemas(schemas) && x.schemas == schemas && GoodObj(schemas, o) && Lawful(x.token)
    requires Represents(x.token.decrypt, o.attrs) && HoldsNow(x.token.decrypt, o.attrs, k, v)
    requires SetResult(x, o, t).rv == CKR_OK
    requires var b := SetResult(x, o, t).obj.attrs;
      k in s && k in b && b[k].Str? && Encoded(k) && !Hidden(s, b, k)
    ensures var b, last := SetResult(x, o, t).obj.attrs, LastWritten(NoCheck, t, k, v);
      n >= |last| ==> Retrieved(x, s, b, Request(k, Some(n))) == Answer(CKR_OK, Some(|last|), Some(last))
  {
    SetInFull(schemas, x, o, t, k, v);
    ReadsBack(x, s, SetResult(x, o, t).obj.attrs, k, n, LastWritten(NoCheck, t, k, v));
  }

  // ---------- dates ----------

  // The token finds a vector of 16 bytes in front of everything it decrypts.
  ghost predicate NeedsVector(dec: Key) { forall d :: 0 < |d| < 16 ==> dec(d) == None }

  lemma DateUpdated(s: Schema, c: Call, i: nat, a: Attrs, e: Entry, k: Kind)
    requires Proper(s) && k in s && !Encoded(k) && k in a && a[k].Str? && Update(s, c, i, a, e).rv == CKR_OK
    ensures var b := Update(s, c, i, a, e).attrs;
      k in b && b[k] == Str(WrittenBy(NoCheck, e, k, a[k].s)) && (e.kind == k ==> |e.data| == 8 || e.data == [])
  {
    if e.kind in s && e.kind != k {
      assert Named(s[e.kind].rule, e.kind) && Named(s[k].rule, k);
      UpdateFrame(s, c, i, a, e, k);
    }
  }

  // Dates are stored as they come.
  lemma {:induction false} DateApplied(s: Schema, c: Call, i: nat, a: Attrs, t: seq<Entry>, k: Kind, v: bytes)
    requires Proper(s) && k in s && !Encoded(k) && k in a && a[k].Str?
    requires Apply(Updating(s, c), i, a, t).rv == CKR_OK
    ensures var b, d := Apply(Updating(s, c), i, a, t).attrs, LastWritten(NoCheck, t, k, v);
      Specified(t, k) ==> k in b && b[k] == Str(d) && (|d| == 8 || d == [])
    decreases |t|
  {
    if t != [] {
      var b := Updating(s, c)(i, a, t[0]).attrs;
      DateUpdated(s, c, i, a, t[0], k);
      SpecifiedFirst(t, k);
      DateApplied(s, c, i + 1, b, t[1..], k, WrittenBy(NoCheck, t[0], k, v));
      if !Specified(t[1..], k) && t[0].kind == k {
        NotSpecified(t[1..], k, t[0].data);
        DateLeft(s, c, i + 1, b, t[1..], k);
      }
    }
  }

  lemma {:induction false} DateLeft(s: Schema, c: Call, i: nat, a: Attrs, t: seq<Entry>, k: Kind)
    requires Proper(s) && k in s && !Encoded(k) && k in a && a[k].Str? && !Specified(t, k)
    requires Apply(Updating(s, c), i, a, t).rv == CKR_OK
    ensures var b := Apply(Updating(s, c), i, a, t).attrs;
      k in b && b[k] == a[k]
    decreases |t|
  {
    if t != [] {
      DateUpdated(s, c, i, a, t[0], k);
      SpecifiedFirst(t, k);
      DateLeft(s, c, i + 1, Updating(s, c)(i, a, t[0]).attrs, t[1..], k);
    }
  }

  lemma DateSaved(s: Schema, c: Call, o: Obj, t: seq<Entry>, k: Kind)
    requires Proper(s) && Shaped(s, o.attrs) && HasPrivate(o.attrs) && k in s && !Encoded(k) && c.op.OpSet?
    requires SaveTemplate(s, c, o, t).rv == CKR_OK && Specified(t, k)
    ensures var b, d := SaveTemplate(s, c, o, t).obj.attrs, LastWritten(NoCheck, t, k, []);
      k in b && b[k] == Str(d) && (|d| == 8 || d == []) && HasPrivate(b) && IsPrivate(b) == IsPrivate(o.attrs)
  {
    assert SortedAt(s, o.attrs, k) && Named(s[k].rule, k);
    SavedInFull(s, c, o, t);
    DateApplied(s, c, 0, o.attrs, t, k, []);
    PrivateApplied(s, c, 0, o.attrs, t);
  }

  lemma DateRetrieved(x: Session, s: Schema, b: Attrs, k: Kind, d: bytes, n: nat)
    requires NeedsVector(x.token.decrypt) && HasPrivate(b) && k in s && k in b && b[k] == Str(d)
    requires (|d| == 8 || d == []) && n >= 8 && !Hidden(s, b, k)
    ensures Retrieved(x, s, b, Request(k, Some(n)))
         == if IsPrivate(b) && d != [] then Answer(CKR_GENERAL_ERROR, None, None) else Answer(CKR_OK, Some(|d|), Some(d))
  {
  }

  // After C_SetAttributeValue has set a date, C_GetAttributeValue hands it out if and only if the
  // object is public or the date is empty: dates are not encrypted, but they are decrypted.
  lemma DatesExactly(schemas: Schemas, x: Session, o: Obj, t: seq<Entry>, s: Schema, k: Kind, n: nat)
    requires SoundSchemas(schemas) && x.schemas == schemas && GoodObj(schemas, o)
    requires schemas(ClassOf(o.attrs), KeyTypeOf(o.attrs)) == Some(s) && k in s && !Encoded(k)
    requires SetResult(x, o, t).rv == CKR_OK && Specified(t, k) && NeedsVector(x.token.decrypt)
    ensures var b, d := SetResult(x, o, t).obj.attrs, LastWritten(NoCheck, t, k, []);
      n >= 8 && !Hidden(s, b, k) ==>
        (Retrieved(x, s, b, Request(k, Some(n))) == Answer(CKR_OK, Some(|d|), Some(d)) <==> !IsPrivate(o.attrs) || d == [])
  {
    var c := Call(x, IsPrivate(o.attrs), OpSet);
    SetSaves(schemas, s, x, o, t);
    assert SortedAt(s, o.attrs, CKA_PRIVATE);
    DateSaved(s, c, o, t, k);
    var b, d := SaveTemplate(s, c, o, t).obj.attrs, LastWritten(NoCheck, t, k, []);
    if n >= 8 && !Hidden(s, b, k) {
      DateRetrieved(x, s, b, k, d, n);
    }
  }
}
