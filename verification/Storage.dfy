// Over whole runs, what is stored for an object can be decoded, and its private flag says how. What
// it decodes to is the subject of Plaintexts.dfy.
module Storage {
  import opened Bytes
  import opened Attributes
  import opened UpdateRules
  import opened KeyPolicy
  import opened Objects
  import opened P11Objects
  import opened KeyCalls
  import opened Runs
  import opened Decoding
  import opened Agreement

  // Every string is encrypted under the token's key exactly when the private flag says so.
  ghost predicate Represents(dec: Key, a: Attrs) {
    HasPrivate(a) && Decodable(dec, IsPrivate(a), a)
  }

  // What an attribute stands for.
  function StandsFor(dec: Key, a: Attrs, k: Kind): Value
    requires k in a
  {
    DecodedValue(dec, IsPrivate(a), k, a[k])
  }

  // ---------- setting ----------

  lemma SavedInFull(s: Schema, c: Call, o: Obj, t: seq<Entry>)
    ensures var r := SaveTemplate(s, c, o, t);
      r.rv == CKR_OK ==> Apply(Updating(s, c), 0, o.attrs, t) == Outcome(CKR_OK, r.obj.attrs)
  {
  }

  // What a call to set attributes has written when it returns: all entries if it succeeds; if not,
  // none on a token object, and on a session object those before the one that failed.
  function Effective(s: Schema, c: Call, o: Obj, t: seq<Entry>): seq<Entry> {
    if SaveTemplate(s, c, o, t).rv == CKR_OK then t
    else if o.onToken || Prohibited(c.op, o.attrs) then []
    else t[..Taken(Updating(s, c), 0, o.attrs, t)]
  }

  lemma EffectiveApplied(s: Schema, c: Call, o: Obj, t: seq<Entry>)
    requires c.op.OpSet? && Settled(o)
    ensures Apply(Updating(s, c), 0, o.attrs, Effective(s, c, o, t)) == Outcome(CKR_OK, SaveTemplate(s, c, o, t).obj.attrs)
  {
    if SaveTemplate(s, c, o, t).rv == CKR_OK {
      SavedInFull(s, c, o, t);
    } else if o.onToken {
      FailureUndone(s, c, o, t);
    } else if !Prohibited(c.op, o.attrs) {
      SessionKeepsPrefix(s, c, o, t);
      var step := Updating(s, c);
      forall j, b, e | step(j, b, e).rv != CKR_OK ensures step(j, b, e).attrs == b {
        FailedLeavesNothing(s, c, j, b, e);
      }
      TakenApplied(step, 0, o.attrs, t);
    }
  }

  // The entries of a call to C_SetAttributeValue that are written.
  function Written(x: Session, o: Obj, t: seq<Entry>): seq<Entry> {
    var isPrivate := IsPrivate(o.attrs);
    match x.schemas(ClassOf(o.attrs), KeyTypeOf(o.attrs))
    case None => []
    case Some(s) =>
      if x.haveWrite(GetBool(o.attrs, CKA_TOKEN, false), isPrivate) != CKR_OK || !IsModifiable(o.attrs) then []
      else Effective(s, Call(x, isPrivate, OpSet), o, t)
  }

  lemma SetSaves(schemas: Schemas, s: Schema, x: Session, o: Obj, t: seq<Entry>)
    requires SoundSchemas(schemas) && x.schemas == schemas && GoodObj(schemas, o)
    requires schemas(ClassOf(o.attrs), KeyTypeOf(o.attrs)) == Some(s)
    ensures var c := Call(x, IsPrivate(o.attrs), OpSet);
      (Written(x, o, t) == [] && SetResult(x, o, t).obj == o && SetResult(x, o, t).rv != CKR_OK)
      || (Written(x, o, t) == Effective(s, c, o, t) && SetResult(x, o, t) == SaveTemplate(s, c, o, t))
  {
    SaveObjectSaves(schemas, s, x, IsPrivate(o.attrs), OpSet, o, t);
  }

  lemma EffectiveRepresents(s: Schema, c: Call, dec: Key, o: Obj, t: seq<Entry>)
    requires Proper(s) && Agrees(c.session.token, dec) && Represents(dec, o.attrs)
    requires c.op.OpSet? && c.isPrivate == IsPrivate(o.attrs) && Settled(o)
    ensures Represents(dec, SaveTemplate(s, c, o, t).obj.attrs) == true
  {
    EffectiveApplied(s, c, o, t);
    ApplyAgrees(s, c, dec, 0, o.attrs, Effective(s, c, o, t));
    ApplyMatches(s, ReadingCall(c, dec), 0, o.attrs, Effective(s, c, o, t));
    PrivateApplied(s, c, 0, o.attrs, Effective(s, c, o, t));
  }

  lemma SetRepresents(schemas: Schemas, x: Session, dec: Key, o: Obj, t: seq<Entry>)
    requires SoundSchemas(schemas) && x.schemas == schemas && GoodObj(schemas, o)
    requires Agrees(x.token, dec) && Represents(dec, o.attrs)
    ensures Represents(dec, SetResult(x, o, t).obj.attrs) == true
  {
    var s := schemas(ClassOf(o.attrs), KeyTypeOf(o.attrs)).value;
    SetSaves(schemas, s, x, o, t);
    EffectiveRepresents(s, Call(x, IsPrivate(o.attrs), OpSet), dec, o, t);
  }

  // ---------- saving ----------

  lemma SaveRepresents(s: Schema, c: Call, o: Obj, t: seq<Entry>)
    requires Proper(s) && Ready(c, o.attrs) && HasPrivate(o.attrs)
    requires c.isPrivate == LastFlag(t, CKA_PRIVATE, IsPrivate(o.attrs))
    ensures var r := SaveTemplate(s, c, o, t);
      r.rv == CKR_OK ==>
        Represents(c.session.token.decrypt, r.obj.attrs) == true && IsPrivate(r.obj.attrs) == c.isPrivate
  {
    ApplyMatches(s, c, 0, o.attrs, t);
    PrivateApplied(s, c, 0, o.attrs, t);
    SavedInFull(s, c, o, t);
  }

  lemma SaveObjectRepresents(schemas: Schemas, x: Session, isPrivate: bool, op: Op, o: Obj, t: seq<Entry>)
    requires SoundSchemas(schemas) && x.schemas == schemas && GoodObj(schemas, o) && Lawful(x.token)
    requires HasPrivate(o.attrs) && Decodable(x.token.decrypt, isPrivate, o.attrs)
    requires isPrivate == LastFlag(t, CKA_PRIVATE, IsPrivate(o.attrs))
    ensures var r := SaveObject(x, isPrivate, op, o, t);
      r.rv == CKR_OK ==> Represents(x.token.decrypt, r.obj.attrs) == true
  {
    var s := schemas(ClassOf(o.attrs), KeyTypeOf(o.attrs)).value;
    SaveObjectSaves(schemas, s, x, isPrivate, op, o, t);
    SaveRepresents(s, Call(x, isPrivate, op), o, t);
  }

  // ---------- copying ----------

  lemma CopyRepresents(schemas: Schemas, x: Session, o: Obj, t: seq<Entry>)
    requires SoundSchemas(schemas) && x.schemas == schemas && GoodObj(schemas, o)
    requires Lawful(x.token) && Represents(x.token.decrypt, o.attrs)
    ensures CopyResult(x, o, t).obj.Some? ==> Represents(x.token.decrypt, CopyResult(x, o, t).obj.value.attrs) == true
  {
    var wasPrivate := IsPrivate(o.attrs);
    var onToken := LastFlag(t, CKA_TOKEN, GetBool(o.attrs, CKA_TOKEN, false));
    var isPrivate := LastFlag(t, CKA_PRIVATE, wasPrivate);
    if CopyResult(x, o, t).obj.Some? {
      CopyIntoRepresents(schemas, x, o, onToken, isPrivate, t);
    }
  }

  lemma CopyIntoRepresents(schemas: Schemas, x: Session, o: Obj, onToken: bool, isPrivate: bool, t: seq<Entry>)
    requires SoundSchemas(schemas) && x.schemas == schemas && GoodObj(schemas, o)
    requires Lawful(x.token) && Represents(x.token.decrypt, o.attrs)
    requires isPrivate == LastFlag(t, CKA_PRIVATE, IsPrivate(o.attrs)) && (IsPrivate(o.attrs) ==> isPrivate)
    ensures var r := CopyInto(x, o, onToken, isPrivate, !IsPrivate(o.attrs) && isPrivate, t).obj;
      r.Some? ==> Represents(x.token.decrypt, r.value.attrs) == true
  {
    var upgrade := !IsPrivate(o.attrs) && isPrivate;
    if Copies(x, upgrade, o.attrs) {
      var b := CopiedAttrs(x, upgrade, o.attrs);
      CopyDecodes(x, IsPrivate(o.attrs), isPrivate, o.attrs);
      CopiedKeepsGood(schemas, x, upgrade, o.attrs);
      SaveObjectRepresents(schemas, x, isPrivate, OpCopy, Rewrite(NewObj(onToken), b), t);
    }
  }

  // ---------- creating ----------

  lemma {:induction false} OnlyLast(t: seq<Entry>, keep: Entry -> bool, k: Kind, default: bool)
    requires forall e: Entry :: e.kind == k ==> keep(e)
    ensures LastFlag(Only(t, keep), k, default) == LastFlag(t, k, default)
    decreases |t|
  {
    if t != [] {
      var d := if t[0].kind == k && |t[0].data| == 1 then t[0].data[0] != 0 else default;
      OnlyLast(t[1..], keep, k, d);
      if keep(t[0]) {
        assert ([t[0]] + Only(t[1..], keep))[1..] == Only(t[1..], keep);
      } else {
        assert Only(t, keep) == Only(t[1..], keep);
      }
    }
  }

  lemma {:induction false} NoneLast(t: seq<Entry>, k: Kind, default: bool)
    requires forall e :: e in t ==> e.kind != k
    ensures LastFlag(t, k, default) == default
    decreases |t|
  {
    if t != [] {
      NoneLast(t[1..], k, default);
    }
  }

  lemma {:induction false} JoinedLast(t: seq<Entry>, u: seq<Entry>, k: Kind, default: bool)
    ensures LastFlag(t + u, k, default) == LastFlag(u, k, LastFlag(t, k, default))
    decreases |t|
  {
    if t == [] {
      assert t + u == u;
    } else {
      assert (t + u)[1..] == t[1..] + u;
      JoinedLast(t[1..], u, k, if t[0].kind == k && |t[0].data| == 1 then t[0].data[0] != 0 else default);
    }
  }

  lemma {:induction false} OnlyKept(t: seq<Entry>, keep: Entry -> bool)
    ensures forall e :: e in Only(t, keep) ==> keep(e) && e in t
    decreases |t|
  {
    if t != [] {
      OnlyKept(t[1..], keep);
    }
  }

  // Moving the check value to the end does not change which entry for another flag is the last.
  lemma ReorderedLast(t: seq<Entry>, k: Kind, default: bool)
    requires k != CKA_CHECK_VALUE
    ensures LastFlag(Reordered(t), k, default) == LastFlag(t, k, default)
  {
    var others, checks := (e: Entry) => e.kind != CKA_CHECK_VALUE, (e: Entry) => e.kind == CKA_CHECK_VALUE;
    OnlyLast(t, others, k, default);
    OnlyKept(t, checks);
    NoneLast(Only(t, checks), k, LastFlag(t, k, default));
    JoinedLast(Only(t, others), Only(t, checks), k, default);
  }

  lemma FreshRepresents(k: Token, s: Schema, objClass: nat, keyType: nat, isPrivate: bool)
    requires Proper(s) && Lawful(k)
    ensures var a := Initialised(s, objClass, keyType, map[]);
      HasPrivate(a) && IsPrivate(a) && Decodable(k.decrypt, isPrivate, a)
  {
  }

  lemma BroughtInRepresents(dec: Key, a: Attrs)
    requires Represents(dec, a)
    ensures Represents(dec, BroughtIn(a)) == true
  {
    var b := BroughtIn(a);
    forall k ensures DecodableAt(dec, IsPrivate(a), b, k) {
      assert DecodableAt(dec, IsPrivate(a), a, k);
    }
  }

  lemma FreshSavedRepresents(s: Schema, c: Call, objClass: nat, keyType: nat, onToken: bool, t: seq<Entry>)
    requires Proper(s) && Lawful(c.session.token) && c.isPrivate == LastFlag(t, CKA_PRIVATE, true)
    ensures var r := SaveTemplate(s, c, Rewrite(NewObj(onToken), Initialised(s, objClass, keyType, map[])), t);
      r.rv == CKR_OK ==> Represents(c.session.token.decrypt, r.obj.attrs) == true && IsPrivate(r.obj.attrs) == c.isPrivate
  {
    var o := Rewrite(NewObj(onToken), Initialised(s, objClass, keyType, map[]));
    FreshRepresents(c.session.token, s, objClass, keyType, c.isPrivate);
    SaveRepresents(s, c, o, t);
  }

  lemma CreateInRepresents(schemas: Schemas, x: Session, op: Op, objClass: nat, keyType: nat, onToken: bool,
                           isPrivate: bool, t: seq<Entry>)
    requires SoundSchemas(schemas) && x.schemas == schemas && Lawful(x.token)
    requires isPrivate == LastFlag(t, CKA_PRIVATE, true)
    ensures var r := CreateIn(x, op, objClass, keyType, onToken, isPrivate, t);
      r.rv == CKR_OK ==> r.obj.Some? && Represents(x.token.decrypt, r.obj.value.attrs) == true
                         && IsPrivate(r.obj.value.attrs) == isPrivate
  {
    if schemas(objClass, keyType).Some? {
      var s, c := schemas(objClass, keyType).value, Call(x, isPrivate, op);
      CreateInIs(s, x, op, objClass, keyType, onToken, isPrivate, t);
      FreshSavedRepresents(s, c, objClass, keyType, onToken, t);
      var r := SaveTemplate(s, c, Rewrite(NewObj(onToken), Initialised(s, objClass, keyType, map[])), t);
      if r.rv == CKR_OK {
        BroughtInRepresents(x.token.decrypt, r.obj.attrs);
      }
    }
  }

  lemma CreateRepresents(schemas: Schemas, x: Session, op: Op, t: seq<Entry>)
    requires SoundSchemas(schemas) && x.schemas == schemas && Lawful(x.token)
    ensures var r := CreateResult(x, op, t);
      r.rv == CKR_OK ==> r.obj.Some? && Represents(x.token.decrypt, r.obj.value.attrs) == true
                         && IsPrivate(r.obj.value.attrs) == LastFlag(t, CKA_PRIVATE, true)
  {
    var objClass, keyType := LastNumber(t, CKA_CLASS, None), LastNumber(t, CKA_KEY_TYPE, None);
    var onToken, isPrivate := LastFlag(t, CKA_TOKEN, false), LastFlag(t, CKA_PRIVATE, true);
    ReorderedLast(t, CKA_PRIVATE, true);
    if objClass.Some? {
      CreateInRepresents(schemas, x, op, objClass.value, if keyType.Some? then keyType.value else CKK_RSA,
                         onToken, isPrivate, Reordered(t));
      CreateAnswers(x, op, t);
    }
  }

  // A call that succeeds has had write access and a template that is not too long.
  lemma CreateAnswers(x: Session, op: Op, t: seq<Entry>)
    ensures var objClass, keyType := LastNumber(t, CKA_CLASS, None), LastNumber(t, CKA_KEY_TYPE, None);
      CreateResult(x, op, t).rv == CKR_OK ==>
        objClass.Some?
        && CreateResult(x, op, t) == CreateIn(x, op, objClass.value, if keyType.Some? then keyType.value else CKK_RSA,
             LastFlag(t, CKA_TOKEN, false), LastFlag(t, CKA_PRIVATE, true), Reordered(t))
  {
  }

  // ---------- keys made by the token ----------

  lemma TemplateLast(objClass: nat, keyType: nat, onToken: bool, isPrivate: bool, t: seq<Entry>)
    requires forall e :: e in t ==> e.kind != CKA_PRIVATE
    ensures LastFlag(KeyTemplate(objClass, keyType, onToken, isPrivate, t), CKA_PRIVATE, true) == isPrivate
  {
    var e := FlagEntry(CKA_PRIVATE, isPrivate);
    var head := [NumberEntry(CKA_CLASS, objClass), FlagEntry(CKA_TOKEN, onToken)];
    var last := [NumberEntry(CKA_KEY_TYPE, keyType)] + t;
    assert KeyTemplate(objClass, keyType, onToken, isPrivate, t) == head + ([e] + last);
    JoinedLast(head, [e] + last, CKA_PRIVATE, true);
    JoinedLast([e], last, CKA_PRIVATE, true);
    assert LastFlag([e], CKA_PRIVATE, true) == LastFlag([], CKA_PRIVATE, isPrivate) == isPrivate;
    NoneLast(head, CKA_PRIVATE, true);
    NoneLast(last, CKA_PRIVATE, isPrivate);
  }

  lemma {:induction false} FilledRepresents(x: Session, isPrivate: bool, a: Attrs, m: Material)
    requires Lawful(x.token) && IsMaterial(m) && Represents(x.token.decrypt, a) && IsPrivate(a) == isPrivate
    ensures var b := Filled(x, isPrivate, a, m);
      Represents(x.token.decrypt, b) == true && IsPrivate(b) == isPrivate
    decreases |m|
  {
    if m != [] {
      assert m[0] in m;
      var b := Put(a, m[0].0, Str(SealedPart(x, isPrivate, m[0])));
      forall k ensures DecodableAt(x.token.decrypt, isPrivate, b, k) {
        assert DecodableAt(x.token.decrypt, isPrivate, a, k);
      }
      FilledRepresents(x, isPrivate, b, m[1..]);
    }
  }

  lemma HistoryRepresents(dec: Key, origin: Origin, a: Attrs)
    requires Represents(dec, a)
    ensures Represents(dec, WithHistory(origin, a)) == true && IsPrivate(WithHistory(origin, a)) == IsPrivate(a)
  {
    var b := WithHistory(origin, a);
    forall k ensures DecodableAt(dec, IsPrivate(a), b, k) {
      assert DecodableAt(dec, IsPrivate(a), a, k);
    }
  }

  lemma FinishRepresents(x: Session, origin: Origin, isPrivate: bool, r: Made, m: Material, ok: bool)
    requires Lawful(x.token) && IsMaterial(m)
    requires r.rv == CKR_OK ==>
      r.obj.Some? && Represents(x.token.decrypt, r.obj.value.attrs) && IsPrivate(r.obj.value.attrs) == isPrivate
    ensures var k := FinishKey(x, origin, isPrivate, r, m, ok);
      k.rv == CKR_OK ==> k.obj.Some? && Represents(x.token.decrypt, k.obj.value.attrs) == true
  {
    if r.rv == CKR_OK {
      HistoryRepresents(x.token.decrypt, origin, r.obj.value.attrs);
      FilledRepresents(x, isPrivate, WithHistory(origin, r.obj.value.attrs), m);
    }
  }

  lemma KeyRepresents(schemas: Schemas, x: Session, origin: Origin, objClass: nat, keyType: nat, onToken: bool,
                      isPrivate: bool, t: seq<Entry>, m: Material, ok: bool)
    requires SoundSchemas(schemas) && x.schemas == schemas && Lawful(x.token) && IsMaterial(m) && Unreserved(t)
    ensures var r := KeyResult(x, origin, objClass, keyType, onToken, isPrivate, t, m, ok);
      r.rv == CKR_OK ==> r.obj.Some? && Represents(x.token.decrypt, r.obj.value.attrs) == true
  {
    var u := KeyTemplate(objClass, keyType, onToken, isPrivate, t);
    TemplateLast(objClass, keyType, onToken, isPrivate, t);
    CreateRepresents(schemas, x, OpOf(origin), u);
    FinishRepresents(x, origin, isPrivate, CreateResult(x, OpOf(origin), u), m, ok);
  }

  // ---------- runs ----------

  // The calls of a run in which the token keeps its key: each decrypts with it, or not at all.
  ghost predicate Keyed(dec: Key, e: Event) {
    match e
    case Create(x, _, _) => Agrees(x.token, dec)
    case Make(x, _, _, _, _, _, _, _, _, m, _) => Agrees(x.token, dec) && IsMaterial(m)
    case Copy(x, _, _, _) => Agrees(x.token, dec)
    case Set(x, _, _) => Agrees(x.token, dec)
    case Destroy(_) => true
  }

  ghost predicate AllRepresent(dec: Key, w: World) {
    forall id :: id in w && w[id].complete ==> Represents(dec, w[id].obj.attrs)
  }

  lemma BornRepresents(dec: Key, w: World, id: nat, obj: Option<Obj>, past: seq<Attrs>, complete: bool)
    requires AllRepresent(dec, w) && (obj.Some? && complete ==> Represents(dec, obj.value.attrs))
    ensures AllRepresent(dec, Born(w, id, obj, past, complete)) == true
  {
  }

  lemma NextRepresents(schemas: Schemas, dec: Key, w: World, e: Event)
    requires SoundSchemas(schemas) && AllTell(schemas, w) && Valid(schemas, w, e)
    requires Keyed(dec, e) && AllRepresent(dec, w)
    ensures AllRepresent(dec, Next(w, e)) == true
  {
    match e
    case Create(x, id, t) =>
      var r := CreateResult(x, OpCreate, t);
      if r.rv == CKR_OK {
        CreateAgrees(x, dec, OpCreate, t);
        CreateRepresents(schemas, Reading(x, dec), OpCreate, t);
      }
      BornRepresents(dec, w, id, r.obj, [], r.rv == CKR_OK);
    case Make(_, _, _, _, _, _, _, _, _, _, _) => MakeRepresents(schemas, dec, w, e);
    case Copy(x, id, from, t) =>
      assert TellsHistory(schemas, w[from]);
      if w[from].complete && CopyResult(x, w[from].obj, t).obj.Some? {
        CopyAgrees(x, dec, w[from].obj, t);
        CopyRepresents(schemas, Reading(x, dec), w[from].obj, t);
      }
      BornRepresents(dec, w, id, CopyResult(x, w[from].obj, t).obj, CopyPast(x, w[from], t), w[from].complete);
    case Set(x, target, t) =>
      assert TellsHistory(schemas, w[target]);
      if w[target].complete {
        SetRepresents(schemas, x, dec, w[target].obj, t);
      }
      BornRepresents(dec, w, target, Some(SetResult(x, w[target].obj, t).obj), w[target].past, w[target].complete);
    case Destroy(_) =>
  }

  lemma MakeRepresents(schemas: Schemas, dec: Key, w: World, e: Event)
    requires SoundSchemas(schemas) && Valid(schemas, w, e) && Keyed(dec, e) && AllRepresent(dec, w) && e.Make?
    ensures AllRepresent(dec, Next(w, e)) == true
  {
    var r := KeyResult(e.x, e.origin, e.objClass, e.keyType, e.onToken, e.isPrivate, e.t, e.m, e.ok);
    if r.rv == CKR_OK {
      KeyAgrees(e.x, dec, e.origin, e.objClass, e.keyType, e.onToken, e.isPrivate, e.t, e.m, e.ok);
      KeyRepresents(schemas, Reading(e.x, dec), e.origin, e.objClass, e.keyType, e.onToken, e.isPrivate, e.t, e.m, e.ok);
    }
    BornRepresents(dec, w, e.id, r.obj, MakePast(w, e), r.rv == CKR_OK);
  }

  // In every world of every run in which the token keeps its key, each string of each object that
  // was made successfully can be decoded as the object's private flag says.
  lemma AlwaysDecodable(schemas: Schemas, dec: Key, ws: seq<World>, es: seq<Event>, i: nat)
    requires SoundSchemas(schemas) && Run(Calls(schemas), ws, es) && i < |ws|
    requires forall j :: 0 <= j < |es| ==> Keyed(dec, es[j])
    ensures AllRepresent(dec, ws[i])
  {
    var step := (w: World, e: Event, v: World) => Calls(schemas)(w, e, v) && Keyed(dec, e);
    var inv := (w: World) => AllTell(schemas, w) && AllRepresent(dec, w);
    forall w, e, v | inv(w) && step(w, e, v) ensures inv(v) {
      NextTells(schemas, w, e);
      NextRepresents(schemas, dec, w, e);
    }
    RunKeeps(step, inv, ws, es, i);
  }
}
