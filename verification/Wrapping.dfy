// When a key may leave the token wrapped under another one, and what this means over whole runs.
module Wrapping {
  import opened Bytes
  import opened Attributes
  import opened UpdateRules
  import opened KeyPolicy
  import opened Objects
  import opened KeyCalls
  import opened Runs
  import opened OneWay
  import opened Steps
  import opened Makers

  // ---------- the guard ----------

  // The bytes by which the values of an attribute are compared, if they can be.
  function Compared(w: Value): Option<bytes> {
    match w
    case Flag(b) => Some(if b then [1] else [0])
    case Number(n) => Some(WriteNumber(8, n))
    case Str(s) => Some(s)
    case _ => None
  }

  // The template of the wrapping key describes the key.
  ghost predicate Describes(template: map<Kind, Simple>, key: Attrs) {
    forall k :: k in template ==> k in key && Compared(key[k]) == Some(Peeked(template[k]))
  }

  lemma DescribesMatches(template: map<Kind, Simple>, key: Attrs)
    ensures Describes(template, key) == MatchesTemplate(template, key)
  {
    forall k | k in template && k in key ensures SameValue(template[k], key[k]) == (Compared(key[k]) == Some(Peeked(template[k]))) {
      var w := key[k];
      assert w.Flag? ==> Compared(w) == Some([if w.b then 1 else 0]);
    }
  }

  // A key can be wrapped exactly if the other may wrap, it is extractable and a secret or private
  // key, the other is trusted if it must be, and the wrap template of the other describes it.
  lemma WrapExactly(wrapping: Attrs, key: Attrs)
    ensures WrapCheck(wrapping, key) == CKR_OK
      <==> IsTrue(wrapping, CKA_WRAP) && IsTrue(key, CKA_EXTRACTABLE)
           && (IsTrue(key, CKA_WRAP_WITH_TRUSTED) ==> IsTrue(wrapping, CKA_TRUSTED))
           && CKA_CLASS in key && (key[CKA_CLASS] == Number(3) || key[CKA_CLASS] == Number(4))
           && (CKA_WRAP_TEMPLATE in wrapping && wrapping[CKA_WRAP_TEMPLATE].Template? ==>
                 Describes(wrapping[CKA_WRAP_TEMPLATE].t, key))
  {
    DescribesMatches(WrapTemplate(wrapping), key);
  }

  // If not, the code says why: first the wrapping key, then whether the key is extractable at all.
  lemma WrapRefused(wrapping: Attrs, key: Attrs)
    requires WrapCheck(wrapping, key) != CKR_OK
    ensures WrapCheck(wrapping, key)
         == if !IsTrue(wrapping, CKA_WRAP) then CKR_KEY_FUNCTION_NOT_PERMITTED
            else if !IsTrue(key, CKA_EXTRACTABLE) then CKR_KEY_UNEXTRACTABLE
            else CKR_KEY_NOT_WRAPPABLE
  {
  }

  // Flags, numbers and strings match the template exactly if they are the same.
  lemma ComparedMeaning(v: Simple, w: Value)
    requires (v.Word? ==> v.n < Pow256(8)) && (w.Number? ==> w.n < Pow256(8))
    ensures v.Bit? && w.Flag? ==> (Compared(w) == Some(Peeked(v)) <==> v.b == w.b)
    ensures v.Word? && w.Number? ==> (Compared(w) == Some(Peeked(v)) <==> v.n == w.n)
    ensures v.Text? && w.Str? ==> (Compared(w) == Some(Peeked(v)) <==> v.s == w.s)
  {
    if v.Bit? && w.Flag? {
      assert [1 as byte][0] != [0 as byte][0];
    }
    if v.Word? && w.Number? {
      ReadWritten(8, v.n);
      ReadWritten(8, w.n);
    }
  }

  // ---------- whole runs ----------

  // A call under which an object stays, or turns from one object into its copy.
  lemma HeirStep(schemas: Schemas, w: World, e: Event, h: set<nat>, y: nat)
    requires SoundSchemas(schemas) && Valid(schemas, w, e) && y in NextHeirs(Next(w, e), e, h) && h <= w.Keys
    ensures y in Next(w, e)
    ensures if e.Copy? && e.id == y then e.from in h else y in h && !((e.Create? || e.Make?) && e.id == y)
  {
  }

  lemma MakerKept(ws: seq<World>, es: seq<Event>, j: nat, y: nat)
    requires 0 < j < |ws| == |es| + 1 && !((es[j - 1].Create? || es[j - 1].Make?) && es[j - 1].id == y)
    ensures Maker(ws, es, j, y)
         == Maker(ws, es, j - 1, if es[j - 1].Copy? && es[j - 1].id == y then es[j - 1].from else y)
  {
  }

  // An object and the copies that descend from it were made by the same call.
  lemma {:induction false} HeirsSameMaker(schemas: Schemas, ws: seq<World>, es: seq<Event>, x: nat, i: nat, j: nat)
    requires SoundSchemas(schemas) && Run(Calls(schemas), ws, es) && i <= j < |ws| && x in ws[i]
    ensures Heirs(ws, es, x, i, j) <= ws[j].Keys
    ensures forall y :: y in Heirs(ws, es, x, i, j) ==> Maker(ws, es, j, y) == Maker(ws, es, i, x)
    decreases j
  {
    if i < j {
      var w, e, h := ws[j - 1], es[j - 1], Heirs(ws, es, x, i, j - 1);
      StepOf(schemas, ws, es, j - 1);
      HeirsSameMaker(schemas, ws, es, x, i, j - 1);
      forall y | y in Heirs(ws, es, x, i, j) ensures y in ws[j] && Maker(ws, es, j, y) == Maker(ws, es, i, x) {
        HeirStep(schemas, w, e, h, y);
        MakerKept(ws, es, j, y);
      }
    }
  }

  lemma BothSame(a: Attrs, b: Attrs, c: Attrs, k: Kind)
    requires SameAt(a, b, k) && SameAt(a, c, k)
    ensures SameAt(b, c, k)
  {
  }

  // Over every run, an object and its copies stay trusted or not, under the same restriction on
  // wrapping, and of the same origin.
  lemma FixedForGood(schemas: Schemas, ws: seq<World>, es: seq<Event>, x: nat, i: nat, j: nat, y: nat, k: Kind)
    requires SoundSchemas(schemas) && Run(Calls(schemas), ws, es) && i <= j < |ws| && x in ws[i]
    requires y in Heirs(ws, es, x, i, j) && IsFixed(k)
    ensures y in ws[j] && SameAt(ws[i][x].obj.attrs, ws[j][y].obj.attrs, k)
  {
    HeirsSameMaker(schemas, ws, es, x, i, j);
    FixedAsMade(schemas, ws, es, i);
    FixedAsMade(schemas, ws, es, j);
    assert TracedAt(ws, es, i, x) && TracedAt(ws, es, j, y);
    BothSame(Left(Maker(ws, es, i, x).value).obj.value.attrs, ws[i][x].obj.attrs, ws[j][y].obj.attrs, k);
  }

  // From the moment a key may be wrapped only under trusted keys, it and its copies can be wrapped
  // only under a key that was made, or first copied from one that was, by a call with the security
  // officer logged in.
  lemma WrappedUnderOfficers(schemas: Schemas, ws: seq<World>, es: seq<Event>, x: nat, i: nat, j: nat, y: nat, z: nat)
    requires SoundSchemas(schemas) && Run(Calls(schemas), ws, es) && i <= j < |ws| && x in ws[i]
    requires IsTrue(ws[i][x].obj.attrs, CKA_WRAP_WITH_TRUSTED) && y in Heirs(ws, es, x, i, j) && z in ws[j]
    ensures y in ws[j]
    ensures WrapCheck(ws[j][z].obj.attrs, ws[j][y].obj.attrs) == CKR_OK ==>
      var m := Maker(ws, es, j, z);
      m.Some? && (m.value.Create? || m.value.Make?) && m.value.x.token.soLoggedIn
  {
    FixedForGood(schemas, ws, es, x, i, j, y, CKA_WRAP_WITH_TRUSTED);
    WrapExactly(ws[j][z].obj.attrs, ws[j][y].obj.attrs);
    if WrapCheck(ws[j][z].obj.attrs, ws[j][y].obj.attrs) == CKR_OK {
      TrustedByOfficer(schemas, ws, es, j, z);
    }
  }
}
