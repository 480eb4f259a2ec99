// What the data of a template mean: numbers, the entry that decides, sets of mechanisms, and the
// lengths that are kept beside a key value.
module Readings {
  import opened Bytes
  import opened Attributes
  import opened UpdateRules
  import opened KeyPolicy
  import opened Objects
  import opened P11Objects
  import opened KeyCalls
  import opened KeySchema
  import opened Runs
  import opened Storage
  import opened Steps
  import opened Acceptance
  import opened Tables

  // ---------- numbers ----------

  function LittleEndian(a: int, b: int, c: int, d: int, e: int, f: int, g: int, h: int): int {
    a + 0x100 * b + 0x1_0000 * c + 0x100_0000 * d
    + 0x1_0000_0000 * e + 0x100_0000_0000 * f + 0x1_0000_0000_0000 * g + 0x100_0000_0000_0000 * h
  }

  // Eight bytes are a number in little-endian order.
  lemma NumberMeaning(d: bytes)
    requires |d| == 8
    ensures ReadNumber(d) == LittleEndian(d[0], d[1], d[2], d[3], d[4], d[5], d[6], d[7])
  {
    var d7, d6, d5, d4, d3, d2, d1 := d[7..], d[6..], d[5..], d[4..], d[3..], d[2..], d[1..];
    assert ReadNumber(d7) == d[7];
    assert d6[1..] == d7 && ReadNumber(d6) == 0x100 * ReadNumber(d7) + d[6];
    assert d5[1..] == d6 && ReadNumber(d5) == 0x100 * ReadNumber(d6) + d[5];
    assert d4[1..] == d5 && ReadNumber(d4) == 0x100 * ReadNumber(d5) + d[4];
    assert d3[1..] == d4 && ReadNumber(d3) == 0x100 * ReadNumber(d4) + d[3];
    assert d2[1..] == d3 && ReadNumber(d2) == 0x100 * ReadNumber(d3) + d[2];
    assert d1[1..] == d2 && ReadNumber(d1) == 0x100 * ReadNumber(d2) + d[1];
  }

  lemma {:induction false} ByteBits(b: nat)
    requires b > 0
    ensures HasBits(b, BitLength(b))
  {
    if b > 1 {
      ByteBits(b / 2);
    }
  }

  lemma Twice(n: nat)
    ensures Pow2(n + 1) == 2 * Pow2(n)
  {
  }

  lemma EightMore(n: nat)
    ensures Pow2(n + 8) == 256 * Pow2(n)
  {
    Twice(n);
    Twice(n + 1);
    Twice(n + 2);
    Twice(n + 3);
    Twice(n + 4);
    Twice(n + 5);
    Twice(n + 6);
    Twice(n + 7);
  }

  predicate HasBits(value: nat, n: nat) { if value == 0 then n == 0 else n > 0 && Pow2(n - 1) <= value < Pow2(n) }

  // One more byte behind a number.
  lemma BitsShifted(value: nat, n: nat, b: byte)
    requires HasBits(value, n)
    ensures HasBits(256 * value + b, if value == 0 then BitLength(b) else n + 8)
  {
    if value > 0 {
      EightMore(n);
      EightMore(n - 1);
    } else if b > 0 {
      ByteBits(b);
    }
  }

  lemma {:induction false} BitsNext(d: bytes, b: byte)
    ensures Bits(d + [b]) == if Bits(d) == 0 then BitLength(b) else Bits(d) + 8
  {
    if d == [] {
      assert d + [b] == [b] && [b][1..] == [];
    } else {
      assert (d + [b])[1..] == d[1..] + [b];
      BitsNext(d[1..], b);
      if d[0] != 0 {
        ByteBits(d[0]);
      }
    }
  }

  // The bits of a string are those of the number it stands for.
  lemma {:induction false} BitsMeaning(d: bytes)
    ensures HasBits(FromBE(d), Bits(d))
  {
    if d != [] {
      var h, b := d[..|d| - 1], d[|d| - 1];
      assert d == h + [b];
      BitsMeaning(h);
      BitsNext(h, b);
      BitsShifted(FromBE(h), Bits(h), b);
    }
  }

  // ---------- the entry that decides ----------

  // Entry j is the last of kind k with n bytes.
  predicate IsLast(t: seq<Entry>, k: Kind, n: nat, j: nat) {
    j < |t| && t[j].kind == k && |t[j].data| == n && forall i :: j < i < |t| && t[i].kind == k ==> |t[i].data| != n
  }

  // The last entry of the right size decides about a flag.
  lemma {:induction false} FlagMeaning(t: seq<Entry>, k: Kind, default: bool, j: nat)
    requires IsLast(t, k, 1, j)
    ensures LastFlag(t, k, default) == (t[j].data[0] != 0)
    decreases |t|
  {
    if j == 0 {
      NoFlag(t[1..], k, t[0].data[0] != 0);
    } else {
      assert t[1..][j - 1] == t[j];
      FlagMeaning(t[1..], k, if t[0].kind == k && |t[0].data| == 1 then t[0].data[0] != 0 else default, j - 1);
    }
  }

  lemma {:induction false} NoFlag(t: seq<Entry>, k: Kind, default: bool)
    requires forall e :: e in t && e.kind == k ==> |e.data| != 1
    ensures LastFlag(t, k, default) == default
    decreases |t|
  {
    if t != [] {
      NoFlag(t[1..], k, default);
    }
  }

  // And about a number.
  lemma {:induction false} LastNumberMeaning(t: seq<Entry>, k: Kind, default: Option<nat>, j: nat)
    requires IsLast(t, k, 8, j)
    ensures LastNumber(t, k, default) == Some(ReadNumber(t[j].data))
    decreases |t|
  {
    if j == 0 {
      NoneOfSize(t[1..], k, Some(ReadNumber(t[0].data)));
    } else {
      assert t[1..][j - 1] == t[j];
      LastNumberMeaning(t[1..], k, if t[0].kind == k && |t[0].data| == 8 then Some(ReadNumber(t[0].data)) else default, j - 1);
    }
  }

  lemma {:induction false} NoneOfSize(t: seq<Entry>, k: Kind, default: Option<nat>)
    requires forall e :: e in t && e.kind == k ==> |e.data| != 8
    ensures LastNumber(t, k, default) == default
    decreases |t|
  {
    if t != [] {
      NoneOfSize(t[1..], k, default);
    }
  }

  // ---------- sets of mechanisms ----------

  // Every eight bytes are a mechanism, and there are no others.
  lemma {:induction false} MechanismsMeaning(d: bytes, n: nat)
    requires |d| % 8 == 0
    ensures n in MechanismsIn(d) <==> exists i :: 0 <= i < |d| / 8 && ReadNumber(d[8 * i..8 * i + 8]) == n
    decreases |d|
  {
    if d != [] {
      MechanismsMeaning(d[8..], n);
      assert forall i :: 0 <= i < |d| / 8 - 1 ==> d[8..][8 * i..8 * i + 8] == d[8 * (i + 1)..8 * (i + 1) + 8];
      if exists i :: 0 <= i < |d[8..]| / 8 && ReadNumber(d[8..][8 * i..8 * i + 8]) == n {
        var i :| 0 <= i < |d[8..]| / 8 && ReadNumber(d[8..][8 * i..8 * i + 8]) == n;
        assert ReadNumber(d[8 * (i + 1)..8 * (i + 1) + 8]) == n;
      }
      if exists i :: 0 <= i < |d| / 8 && ReadNumber(d[8 * i..8 * i + 8]) == n {
        var i :| 0 <= i < |d| / 8 && ReadNumber(d[8 * i..8 * i + 8]) == n;
        if i > 0 {
          assert d[8..][8 * (i - 1)..8 * (i - 1) + 8] == d[8 * i..8 * i + 8];
        } else {
          assert d[..8] == d[0..8];
        }
      }
      assert ReadNumber(d[8 * 0..8 * 0 + 8]) == ReadNumber(d[..8]);
    }
  }

  // ---------- what is handed out ----------

  // A flag is handed out as one byte, and a number as eight in little-endian order.
  lemma FlagHandedOut(session: Session, s: Schema, a: Attrs, k: Kind, n: nat)
    requires k in s && k in a && a[k].Flag? && !Withheld(s, a, k) && n >= 1
    ensures Retrieved(session, s, a, Request(k, Some(n))) == Answer(CKR_OK, Some(1), Some(if a[k].b then [1] else [0]))
  {
  }

  lemma NumberHandedOut(session: Session, s: Schema, a: Attrs, k: Kind, n: nat)
    requires k in s && k in a && a[k].Number? && a[k].n < Pow256(8) && !Withheld(s, a, k) && n >= 8
    ensures var r := Retrieved(session, s, a, Request(k, Some(n)));
      r.rv == CKR_OK && r.value.Some? && |r.value.value| == 8 && r.length == Some(8)
      && var d := r.value.value;
         LittleEndian(d[0], d[1], d[2], d[3], d[4], d[5], d[6], d[7]) == a[k].n
  {
    ReadWritten(8, a[k].n);
    NumberMeaning(WriteNumber(8, a[k].n));
  }

  // ---------- lengths ----------

  // What is kept beside a key value that is brought in: its length in bytes, or in bits.
  function Measure(k: Kind, d: bytes): nat { if k == CKA_VALUE_LEN then |d| else Bits(d) }

  predicate IsLength(k: Kind) { k == CKA_VALUE_LEN || k == CKA_VALUE_BITS }

  lemma ValueMeasured(c: Call, i: nat, a: Attrs, d: bytes, k: Kind)
    requires c.op == OpCreate && IsLength(k) && k in a && SetKeyValue(c, i, a, d).rv == CKR_OK
    ensures k in SetKeyValue(c, i, a, d).attrs && SetKeyValue(c, i, a, d).attrs[k] == Number(Measure(k, d))
  {
  }

  lemma UpdateMeasures(s: Schema, c: Call, i: nat, a: Attrs, e: Entry, k: Kind)
    requires Proper(s) && c.op == OpCreate && IsLength(k) && k in a && k in s && 2 in s[k].checks
    requires Update(s, c, i, a, e).rv == CKR_OK
    ensures var b := Update(s, c, i, a, e).attrs;
      k in b && b[k] == if e.kind == CKA_VALUE then Number(Measure(k, e.data)) else a[k]
  {
    if e.kind == CKA_VALUE {
      ValueMeasured(c, i, a, e.data, k);
    } else {
      assert e.kind != k;
      UpdateFrame(s, c, i, a, e, k);
    }
  }

  // The key value that is given last.
  function LastValue(t: seq<Entry>): Option<bytes> {
    if t == [] then None
    else if LastValue(t[1..]).Some? then LastValue(t[1..])
    else if t[0].kind == CKA_VALUE then Some(t[0].data)
    else None
  }

  lemma {:induction false} ApplyMeasures(s: Schema, c: Call, i: nat, a: Attrs, t: seq<Entry>, k: Kind)
    requires Proper(s) && c.op == OpCreate && IsLength(k) && k in a && k in s && 2 in s[k].checks
    requires Apply(Updating(s, c), i, a, t).rv == CKR_OK
    ensures var b := Apply(Updating(s, c), i, a, t).attrs;
      k in b && b[k] == if LastValue(t).Some? then Number(Measure(k, LastValue(t).value)) else a[k]
    decreases |t|
  {
    if t != [] {
      UpdateMeasures(s, c, i, a, t[0], k);
      ApplyMeasures(s, c, i + 1, Updating(s, c)(i, a, t[0]).attrs, t[1..], k);
    }
  }

  lemma {:induction false} ValueJoined(t: seq<Entry>, u: seq<Entry>)
    ensures LastValue(t + u) == if LastValue(u).Some? then LastValue(u) else LastValue(t)
    decreases |t|
  {
    if t == [] {
      assert t + u == u;
    } else {
      assert (t + u)[1..] == t[1..] + u;
      ValueJoined(t[1..], u);
    }
  }

  lemma {:induction false} ValueOnly(t: seq<Entry>, keep: Entry -> bool, kept: bool)
    requires forall e: Entry :: e.kind == CKA_VALUE ==> keep(e) == kept
    ensures LastValue(Only(t, keep)) == if kept then LastValue(t) else None
    decreases |t|
  {
    if t != [] {
      ValueOnly(t[1..], keep, kept);
      ValueJoined(if keep(t[0]) then [t[0]] else [], Only(t[1..], keep));
      ValueJoined([t[0]], t[1..]);
      assert [t[0]] + t[1..] == t;
    }
  }

  lemma ValueReordered(t: seq<Entry>)
    ensures LastValue(Reordered(t)) == LastValue(t)
  {
    var others, checks := (e: Entry) => e.kind != CKA_CHECK_VALUE, (e: Entry) => e.kind == CKA_CHECK_VALUE;
    ValueOnly(t, others, true);
    ValueOnly(t, checks, false);
    ValueJoined(Only(t, others), Only(t, checks));
  }

  lemma {:induction false} ValueNamed(t: seq<Entry>)
    ensures Names(t, CKA_VALUE) <==> LastValue(t).Some?
    decreases |t|
  {
    if t != [] {
      ValueNamed(t[1..]);
      assert forall e :: e in t <==> e == t[0] || e in t[1..];
    }
  }

  lemma CreatedMeasures(x: Session, s: Schema, objClass: nat, keyType: nat, onToken: bool, isPrivate: bool, t: seq<Entry>, k: Kind)
    requires Proper(s) && x.schemas(objClass, keyType) == Some(s) && IsLength(k) && k in s && 2 in s[k].checks
    requires CKA_VALUE in s && 1 in s[CKA_VALUE].checks
    requires CreateIn(x, OpCreate, objClass, keyType, onToken, isPrivate, t).rv == CKR_OK
    ensures var r := CreateIn(x, OpCreate, objClass, keyType, onToken, isPrivate, t);
      r.obj.Some? && LastValue(t).Some? && k in r.obj.value.attrs
      && r.obj.value.attrs[k] == Number(Measure(k, LastValue(t).value))
  {
    var c, o := Call(x, isPrivate, OpCreate), Rewrite(NewObj(onToken), Initialised(s, objClass, keyType, map[]));
    CreateInIs(s, x, OpCreate, objClass, keyType, onToken, isPrivate, t);
    SavedInFull(s, c, o, t);
    SaveFits(s, c, o, t);
    ApplyMeasures(s, c, 0, o.attrs, t, k);
    assert Demanded(s[CKA_VALUE].checks, OpCreate);
    ValueNamed(t);
  }

  // The attributes that keep the length of a key value, and the key value itself.
  predicate Measures(f: Family, k: Kind) {
    (k == CKA_VALUE_LEN && (f == GenericSecret || f == AesSecret)) || (k == CKA_VALUE_BITS && f == DhPrivate)
  }

  lemma MeasuresNoted(f: Family, k: Kind)
    requires Measures(f, k)
    ensures k in CommonNotes(2) + ClassNotes(f, 2) + OwnNotes(f, 2)
    ensures CKA_VALUE in CommonNotes(1) + ClassNotes(f, 1) + OwnNotes(f, 1)
  {
  }

  lemma MeasuresListed(f: Family, k: Kind)
    requires Measures(f, k)
    ensures k in SchemaOf(f) && 2 in SchemaOf(f)[k].checks
    ensures CKA_VALUE in SchemaOf(f) && 1 in SchemaOf(f)[CKA_VALUE].checks
  {
    var keys := CommonKeys() + ClassKeys(f) + OwnKeys(f);
    MeasuresNoted(f, k);
    AllListed(f, 1);
    AllListed(f, 2);
    HasNote(SchemaOf(f), keys, 2, CommonNotes(2) + ClassNotes(f, 2) + OwnNotes(f, 2), k);
    HasNote(SchemaOf(f), keys, 1, CommonNotes(1) + ClassNotes(f, 1) + OwnNotes(f, 1), CKA_VALUE);
  }

  // A generic secret or an AES key that is created has the length of the value given, and a
  // Diffie-Hellman key its bits.
  lemma CreatedLength(x: Session, t: seq<Entry>, k: Kind)
    requires x.schemas == NewP11Object && CreateResult(x, OpCreate, t).rv == CKR_OK
    requires var q := AskedBy(t);
      q.objClass.Some? && q.keyType.Some? && FamilyOf(q.objClass.value, q.keyType.value).Some?
      && Measures(FamilyOf(q.objClass.value, q.keyType.value).value, k)
    ensures var r := CreateResult(x, OpCreate, t);
      r.obj.Some? && LastValue(t).Some? && k in r.obj.value.attrs
      && r.obj.value.attrs[k] == Number(Measure(k, LastValue(t).value))
  {
    var q := AskedBy(t);
    var f := FamilyOf(q.objClass.value, q.keyType.value).value;
    CreateAnswers(x, OpCreate, t);
    MeasuresListed(f, k);
    ValueReordered(t);
    assert Proper(SchemaOf(f)) by { SchemaProper(f); }
    CreatedMeasures(x, SchemaOf(f), q.objClass.value, q.keyType.value, q.onToken, q.isPrivate, Reordered(t), k);
  }
}
