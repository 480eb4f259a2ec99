// Objects with their transactions, and saving and loading a template: an object file on the token
// keeps a committed copy of its attributes and rolls back to it, a session object does not.
module Objects {
  import opened Bytes
  import opened Attributes
  import opened UpdateRules
  import opened KeyPolicy

  // An object at one moment. `saved` is what the object file holds, `busy` says that it is in a
  // transaction; neither means anything for a session object.
  datatype Obj = Obj(onToken: bool, attrs: Attrs, saved: Attrs, busy: bool)

  function NewObj(onToken: bool): Obj { Obj(onToken, map[], map[], false) }

  // Outside a transaction an object file holds the attributes of its object.
  predicate Settled(o: Obj) { o.onToken && !o.busy ==> o.saved == o.attrs }

  // ---------- transactions ----------

  function Start(o: Obj): Option<Obj> {
    if !o.onToken then Some(o) else if o.busy then None else Some(o.(busy := true))
  }

  function Commit(o: Obj): Obj {
    if !o.onToken then o else o.(saved := o.attrs, busy := false)
  }

  function Abort(o: Obj): Obj {
    if !o.onToken then o else o.(attrs := o.saved, busy := false)
  }

  // Attributes written outside a transaction reach the object file at once.
  function Rewrite(o: Obj, attrs: Attrs): Obj {
    o.(attrs := attrs, saved := if o.onToken && !o.busy then attrs else o.saved)
  }

  class OSObject {
    const onToken: bool
    var attributes: Attrs
    var saved: Attrs
    var inTransaction: bool

    constructor (onToken: bool)
      ensures State() == NewObj(onToken)
    {
      this.onToken := onToken;
      attributes := map[];
      saved := map[];
      inTransaction := false;
    }

    ghost function State(): Obj
      reads this
    {
      Obj(onToken, attributes, saved, inTransaction)
    }

    // Writes stay in memory until they are committed.
    predicate Buffered()
      reads this
    {
      !onToken || inTransaction
    }

    method SetAttribute(k: Kind, v: Value)
      modifies this
      ensures State() == Rewrite(old(State()), Put(old(attributes), k, v))
    {
      attributes := attributes[k := v];
      if onToken && !inTransaction {
        saved := attributes;
      }
    }

    method StartTransaction() returns (ok: bool)
      modifies this
      ensures ok <==> Start(old(State())).Some?
      ensures State() == if ok then Start(old(State())).value else old(State())
    {
      if !onToken {
        return true;
      }
      if inTransaction {
        return false;
      }
      inTransaction := true;
      ok := true;
    }

    method CommitTransaction()
      modifies this
      ensures State() == Commit(old(State()))
    {
      if onToken {
        saved := attributes;
        inTransaction := false;
      }
    }

    method AbortTransaction()
      modifies this
      ensures State() == Abort(old(State()))
    {
      if onToken {
        attributes := saved;
        inTransaction := false;
      }
    }
  }

  // ---------- saving a template ----------

  predicate Mandatory(s: Schema, k: Kind, op: Op) {
    (op.OpCreate? && Footnote(s, k, 1)) || (op.OpGenerate? && Footnote(s, k, 3)) || (op.OpUnwrap? && Footnote(s, k, 5))
  }

  predicate Specified(t: seq<Entry>, k: Kind) {
    exists i :: 0 <= i < |t| && t[i].kind == k
  }

  predicate Complete(s: Schema, op: Op, t: seq<Entry>) {
    forall k :: k in s && Mandatory(s, k, op) ==> Specified(t, k)
  }

  datatype Saving = Saving(rv: Rv, obj: Obj)

  predicate Prohibited(op: Op, a: Attrs) {
    (op.OpSet? && !IsModifiable(a)) || (op.OpCopy? && !IsCopyable(a))
  }

  // How a save ends, once the entries have been applied to p; a template that is incomplete leaves
  // the transaction open.
  function Ended(p: Obj, r: Outcome, complete: bool): Saving {
    if r.rv != CKR_OK then Saving(r.rv, Abort(p.(attrs := r.attrs)))
    else if !complete then Saving(CKR_TEMPLATE_INCOMPLETE, p.(attrs := r.attrs))
    else Saving(CKR_OK, Commit(p.(attrs := r.attrs)))
  }

  function SaveTemplate(s: Schema, c: Call, o: Obj, t: seq<Entry>): Saving {
    match Start(o)
    case None => Saving(CKR_GENERAL_ERROR, o)
    case Some(p) =>
      if Prohibited(c.op, p.attrs) then Saving(CKR_ACTION_PROHIBITED, Abort(p))
      else Ended(p, Apply(Updating(s, c), 0, p.attrs, t), Complete(s, c.op, t))
  }

  // ---------- atomicity ----------

  // Setting and copying succeed exactly when they are not prohibited and every entry succeeds in
  // its turn, and the object is then the template applied in order.
  lemma SavedExactly(s: Schema, c: Call, o: Obj, t: seq<Entry>)
    requires c.op.OpSet? || c.op.OpCopy?
    requires !(o.onToken && o.busy)
    ensures var r := SaveTemplate(s, c, o, t);
      (r.rv == CKR_OK <==> !Prohibited(c.op, o.attrs) && Apply(Updating(s, c), 0, o.attrs, t).rv == CKR_OK)
      && (r.rv == CKR_OK ==> r.obj == Rewrite(o, Apply(Updating(s, c), 0, o.attrs, t).attrs))
  {
    assert forall k :: !Mandatory(s, k, c.op);
  }

  // An object on the token that could not be set or copied is as it was.
  lemma FailureUndone(s: Schema, c: Call, o: Obj, t: seq<Entry>)
    requires c.op.OpSet? || c.op.OpCopy?
    requires o.onToken && Settled(o)
    requires SaveTemplate(s, c, o, t).rv != CKR_OK
    ensures SaveTemplate(s, c, o, t).obj == o
  {
    assert forall k :: !Mandatory(s, k, c.op);
  }

  // A session object has no transactions: it keeps what was written before the entry that failed.
  lemma SessionKeepsPrefix(s: Schema, c: Call, o: Obj, t: seq<Entry>)
    requires (c.op.OpSet? || c.op.OpCopy?) && !o.onToken && !Prohibited(c.op, o.attrs)
    ensures SaveTemplate(s, c, o, t).obj.attrs == Apply(Updating(s, c), 0, o.attrs, t).attrs
  {
    assert forall k :: !Mandatory(s, k, c.op);
  }

  // An object on the token whose template was incomplete is left in its transaction, with what was
  // written in memory only, and is answered with GENERAL_ERROR from then on.
  lemma IncompleteStaysOpen(s: Schema, c: Call, o: Obj, t: seq<Entry>, d: Call, u: seq<Entry>)
    requires o.onToken && !o.busy && Apply(Updating(s, c), 0, o.attrs, t).rv == CKR_OK && !Complete(s, c.op, t)
    requires !Prohibited(c.op, o.attrs)
    ensures var r := SaveTemplate(s, c, o, t);
      r.rv == CKR_TEMPLATE_INCOMPLETE && r.obj == o.(attrs := Apply(Updating(s, c), 0, o.attrs, t).attrs, busy := true)
      && SaveTemplate(s, d, r.obj, u) == Saving(CKR_GENERAL_ERROR, r.obj)
  {
  }

  // A template that changes a flag and then names an attribute that does not exist.
  function HalfBad(a: Attrs): seq<Entry> {
    [Entry(CKA_DERIVE, false, [if GetBool(a, CKA_DERIVE, false) then 0 else 1]), Entry(NO_SUCH_KIND, false, [])]
  }

  lemma HalfBadApplied(s: Schema, c: Call, a: Attrs)
    requires Proper(s) && c.op.OpSet? && IsModifiable(a)
    ensures Apply(Updating(s, c), 0, a, HalfBad(a))
         == Outcome(CKR_ATTRIBUTE_TYPE_INVALID, a[CKA_DERIVE := Flag(!GetBool(a, CKA_DERIVE, false))])
  {
    var t, b := HalfBad(a), a[CKA_DERIVE := Flag(!GetBool(a, CKA_DERIVE, false))];
    assert Writer(CKA_DERIVE, Bool)(c, 0, a, t[0].data) == Outcome(CKR_OK, b);
    assert Update(s, c, 0, a, t[0]) == Outcome(CKR_OK, b);
    assert Update(s, c, 1, b, t[1]) == Outcome(CKR_ATTRIBUTE_TYPE_INVALID, b);
    assert t[1..] == [t[1]];
    ApplyOne(Updating(s, c), 1, b, t[1]);
  }

  lemma ApplyOne(step: Step, i: nat, a: Attrs, e: Entry)
    ensures Apply(step, i, a, [e]) == step(i, a, e)
  {
  }

  // So a failed call to set attributes is undone for every template exactly when the object is on
  // the token, or cannot be modified at all.
  lemma UndoneExactly(s: Schema, c: Call, o: Obj)
    requires Proper(s) && c.op.OpSet? && Settled(o)
    ensures (forall t :: SaveTemplate(s, c, o, t).rv != CKR_OK ==> SaveTemplate(s, c, o, t).obj == o)
      <==> o.onToken || !IsModifiable(o.attrs)
  {
    if o.onToken {
      forall t | SaveTemplate(s, c, o, t).rv != CKR_OK ensures SaveTemplate(s, c, o, t).obj == o {
        FailureUndone(s, c, o, t);
      }
    } else if IsModifiable(o.attrs) {
      var t := HalfBad(o.attrs);
      HalfBadApplied(s, c, o.attrs);
      SessionKeepsPrefix(s, c, o, t);
      SavedExactly(s, c, o, t);
      assert SaveTemplate(s, c, o, t).obj.attrs[CKA_DERIVE] == Flag(!GetBool(o.attrs, CKA_DERIVE, false));
    }
  }
}
