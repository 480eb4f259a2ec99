// One-way protection: a key that is sensitive or not extractable, and every copy of it, keeps its
// secret attributes to itself for the rest of every run.
module OneWay {
  import opened Bytes
  import opened Attributes
  import opened UpdateRules
  import opened KeyPolicy
  import opened Objects
  import opened P11Objects
  import opened KeyCalls
  import opened Runs

  predicate Locked(a: Attrs) { IsSensitive(a) || !IsExtractable(a) }
  predicate Unextractable(a: Attrs) { !IsExtractable(a) }

  // A protection that no step of setting or copying takes away.
  ghost predicate Sticky(p: Attrs -> bool) {
    forall op: Op, a, b ::
      (op.OpSet? || op.OpCopy?) && HasPolicy(a) && Allowed(op, a, b) && p(a) ==> p(b)
  }

  lemma LocksSticky()
    ensures Sticky(Locked) && Sticky(IsSensitive) && Sticky(Unextractable)
  {
  }

  lemma SetKeeps(schemas: Schemas, p: Attrs -> bool, x: Session, o: Obj, t: seq<Entry>)
    requires SoundSchemas(schemas) && x.schemas == schemas && GoodObj(schemas, o) && Sticky(p) && p(o.attrs)
    ensures p(SetResult(x, o, t).obj.attrs)
  {
    SetKeepsGood(schemas, x, o, t);
    assert Allowed(OpSet, o.attrs, SetResult(x, o, t).obj.attrs);
  }

  lemma CopyKeeps(schemas: Schemas, p: Attrs -> bool, x: Session, o: Obj, t: seq<Entry>)
    requires SoundSchemas(schemas) && x.schemas == schemas && GoodObj(schemas, o) && Sticky(p) && p(o.attrs)
    ensures CopyResult(x, o, t).obj.Some? ==> p(CopyResult(x, o, t).obj.value.attrs)
  {
    CopyKeepsGood(schemas, x, o, t);
    assert CopyResult(x, o, t).obj.Some? ==> Allowed(OpCopy, o.attrs, CopyResult(x, o, t).obj.value.attrs);
  }

  // The objects that come from one in h once e has led to world w.
  function NextHeirs(w: World, e: Event, h: set<nat>): set<nat> {
    match e
    case Copy(_, id, from, _) => if from in h && id in w then h + {id} else h
    case Destroy(target) => h - {target}
    case _ => h
  }

  // Between worlds i and j: object x, the copies made of it, the copies made of those, and so on, as
  // far as they still exist.
  ghost function Heirs(ws: seq<World>, es: seq<Event>, x: nat, i: nat, j: nat): set<nat>
    requires i <= j < |ws| == |es| + 1
  {
    if j == i then {x} else NextHeirs(ws[j], es[j - 1], Heirs(ws, es, x, i, j - 1))
  }

  ghost predicate All(p: Attrs -> bool, w: World, ids: set<nat>) {
    forall id :: id in ids ==> id in w && p(w[id].obj.attrs)
  }

  lemma BornKeeps(p: Attrs -> bool, w: World, id: nat, obj: Option<Obj>, past: seq<Attrs>, complete: bool, h: set<nat>)
    requires All(p, w, h) && (obj.Some? && id in h ==> p(obj.value.attrs))
    ensures All(p, Born(w, id, obj, past, complete), h) == true
  {
  }

  lemma CopyKeepsAll(schemas: Schemas, p: Attrs -> bool, w: World, e: Event, h: set<nat>)
    requires SoundSchemas(schemas) && AllTell(schemas, w) && Valid(schemas, w, e) && e.Copy?
    requires Sticky(p) && All(p, w, h)
    ensures All(p, Next(w, e), NextHeirs(Next(w, e), e, h)) == true
  {
    var k := w[e.from];
    var r := CopyResult(e.x, k.obj, e.t).obj;
    BornKeeps(p, w, e.id, r, CopyPast(e.x, k, e.t), k.complete, h);
    if e.from in h && r.Some? {
      assert TellsHistory(schemas, k);
      CopyKeeps(schemas, p, e.x, k.obj, e.t);
      assert All(p, Born(w, e.id, r, CopyPast(e.x, k, e.t), k.complete), h + {e.id});
    }
  }

  lemma SetKeepsAll(schemas: Schemas, p: Attrs -> bool, w: World, e: Event, h: set<nat>)
    requires SoundSchemas(schemas) && AllTell(schemas, w) && Valid(schemas, w, e) && e.Set?
    requires Sticky(p) && All(p, w, h)
    ensures All(p, Next(w, e), NextHeirs(Next(w, e), e, h)) == true
  {
    var k := w[e.target];
    if e.target in h {
      assert TellsHistory(schemas, k);
      SetKeeps(schemas, p, e.x, k.obj, e.t);
    }
    BornKeeps(p, w, e.target, Some(SetResult(e.x, k.obj, e.t).obj), k.past, k.complete, h);
  }

  // The other calls add an object under a new name, or take one away.
  lemma OthersKeepAll(p: Attrs -> bool, w: World, e: Event, h: set<nat>)
    requires !e.Copy? && !e.Set? && All(p, w, h)
    requires e.Create? || e.Make? ==> e.id !in w
    ensures All(p, Next(w, e), NextHeirs(Next(w, e), e, h)) == true
  {
  }

  lemma NextKeepsAll(schemas: Schemas, p: Attrs -> bool, w: World, e: Event, h: set<nat>)
    requires SoundSchemas(schemas) && AllTell(schemas, w) && Valid(schemas, w, e) && Sticky(p) && All(p, w, h)
    ensures All(p, Next(w, e), NextHeirs(Next(w, e), e, h)) == true
  {
    if e.Set? {
      SetKeepsAll(schemas, p, w, e, h);
    } else if e.Copy? {
      CopyKeepsAll(schemas, p, w, e, h);
    } else {
      OthersKeepAll(p, w, e, h);
    }
  }

  lemma CallKeepsAll(schemas: Schemas, p: Attrs -> bool, w: World, e: Event, v: World, h: set<nat>)
    requires SoundSchemas(schemas) && AllTell(schemas, w) && Calls(schemas)(w, e, v) && Sticky(p) && All(p, w, h)
    ensures All(p, v, NextHeirs(v, e, h)) == true
  {
    NextKeepsAll(schemas, p, w, e, h);
  }

  // Every step from a world of the invariant keeps p of any objects and their heirs.
  ghost predicate StepsKeep(step: Transition, inv: World -> bool, p: Attrs -> bool) {
    forall w, e, v, h :: inv(w) && step(w, e, v) && All(p, w, h) ==> All(p, v, NextHeirs(v, e, h))
  }

  ghost predicate Throughout(inv: World -> bool, ws: seq<World>) { forall k :: 0 <= k < |ws| ==> inv(ws[k]) }

  // A property lasts in any run whose steps keep it.
  lemma {:induction false} Lasts(step: Transition, inv: World -> bool, p: Attrs -> bool, ws: seq<World>, es: seq<Event>,
                                 x: nat, i: nat, j: nat)
    requires Run(step, ws, es) && i <= j < |ws| && Throughout(inv, ws)
    requires StepsKeep(step, inv, p) && All(p, ws[i], {x})
    ensures All(p, ws[j], Heirs(ws, es, x, i, j)) == true
    decreases j
  {
    if i < j {
      Lasts(step, inv, p, ws, es, x, i, j - 1);
      assert step(ws[j - 1], es[j - 1], ws[j]);
      assert All(p, ws[j - 1], Heirs(ws, es, x, i, j - 1)) == true;
    }
  }

  ghost function Telling(schemas: Schemas): World -> bool { (w: World) => AllTell(schemas, w) }

  lemma CallsKeep(schemas: Schemas, p: Attrs -> bool)
    requires SoundSchemas(schemas) && Sticky(p)
    ensures StepsKeep(Calls(schemas), Telling(schemas), p) == true
  {
    forall w, e, v, h | Telling(schemas)(w) && Calls(schemas)(w, e, v) && All(p, w, h)
      ensures All(p, v, NextHeirs(v, e, h)) == true
    {
      CallKeepsAll(schemas, p, w, e, v, h);
    }
  }

  lemma AlwaysTelling(schemas: Schemas, ws: seq<World>, es: seq<Event>)
    requires SoundSchemas(schemas) && Run(Calls(schemas), ws, es)
    ensures Throughout(Telling(schemas), ws) == true
  {
    forall k | 0 <= k < |ws| ensures Telling(schemas)(ws[k]) {
      HistoryInvariant(schemas, ws, es, k);
    }
  }

  // In every run, a protection an object has is kept by it and by all copies that descend from it.
  lemma HeirsKeep(schemas: Schemas, p: Attrs -> bool, ws: seq<World>, es: seq<Event>, x: nat, i: nat, j: nat)
    requires SoundSchemas(schemas) && Run(Calls(schemas), ws, es) && i <= j < |ws| && Sticky(p)
    requires x in ws[i] && p(ws[i][x].obj.attrs)
    ensures All(p, ws[j], Heirs(ws, es, x, i, j)) == true
  {
    AlwaysTelling(schemas, ws, es);
    CallsKeep(schemas, p);
    assert All(p, ws[i], {x});
    Lasts(Calls(schemas), Telling(schemas), p, ws, es, x, i, j);
  }

  // From the moment a key is locked, no run of calls makes the library hand out the value, or even
  // the length, of an attribute with footnote 7 of that key or of any copy of it.
  lemma NeverRevealed(schemas: Schemas, ws: seq<World>, es: seq<Event>, x: nat, i: nat, j: nat,
                      y: nat, session: Session, s: Schema, q: Request)
    requires SoundSchemas(schemas) && Run(Calls(schemas), ws, es) && i <= j < |ws|
    requires x in ws[i] && Locked(ws[i][x].obj.attrs)
    requires y in Heirs(ws, es, x, i, j) && Footnote(s, q.kind, 7)
    ensures y in ws[j] && Retrieved(session, s, ws[j][y].obj.attrs, q) == Answer(CKR_ATTRIBUTE_SENSITIVE, None, None)
  {
    LocksSticky();
    HeirsKeep(schemas, Locked, ws, es, x, i, j);
  }

  // So its secret parts are never revealed: in the library's schemas all of them have footnote 7.
  lemma KeyPartsNeverRevealed(schemas: Schemas, ws: seq<World>, es: seq<Event>, x: nat, i: nat, j: nat,
                              y: nat, session: Session, q: Request)
    requires SoundSchemas(schemas) && Run(Calls(schemas), ws, es) && i <= j < |ws|
    requires x in ws[i] && Locked(ws[i][x].obj.attrs)
    requires y in Heirs(ws, es, x, i, j) && IsKeyPart(q.kind)
    ensures y in ws[j]
    ensures var a := ws[j][y].obj.attrs;
      var s := schemas(ClassOf(a), KeyTypeOf(a));
      s.Some? && Retrieved(session, s.value, a, q).value == None
  {
    HistoryInvariant(schemas, ws, es, j);
    LocksSticky();
    HeirsKeep(schemas, Locked, ws, es, x, i, j);
    assert TellsHistory(schemas, ws[j][y]);
    var a := ws[j][y].obj.attrs;
    var s := schemas(ClassOf(a), KeyTypeOf(a)).value;
    if q.kind in s {
      NeverRevealed(schemas, ws, es, x, i, j, y, session, s, q);
    }
  }

  // From the moment a key is not extractable, neither it nor any copy of it can be wrapped, whatever
  // the wrapping key.
  lemma NeverWrapped(schemas: Schemas, ws: seq<World>, es: seq<Event>, x: nat, i: nat, j: nat, y: nat, wrapping: Attrs)
    requires SoundSchemas(schemas) && Run(Calls(schemas), ws, es) && i <= j < |ws|
    requires x in ws[i] && Unextractable(ws[i][x].obj.attrs)
    requires y in Heirs(ws, es, x, i, j)
    ensures y in ws[j] && WrapCheck(wrapping, ws[j][y].obj.attrs) != CKR_OK
  {
    LocksSticky();
    HeirsKeep(schemas, Unextractable, ws, es, x, i, j);
  }

  // A key that says it was never extractable could be wrapped in none of the states it, its copy
  // ancestors and its base keys were committed in.
  lemma NeverWrappable(schemas: Schemas, ws: seq<World>, es: seq<Event>, i: nat, x: nat, wrapping: Attrs, a: Attrs)
    requires SoundSchemas(schemas) && Run(Calls(schemas), ws, es) && i < |ws|
    requires x in ws[i] && NeverExtractable(ws[i][x].obj.attrs) && a in ws[i][x].past
    ensures WrapCheck(wrapping, a) != CKR_OK
  {
    HistoryInvariant(schemas, ws, es, i);
    assert TellsHistory(schemas, ws[i][x]);
  }
}
