// The table of signing sessions of the TPM plugin. Starting a session claims every free slot, so at
// most one session has any; a session started meanwhile gets none and is refused its updates.
module SignSessions {
  import opened Bytes

  const MAX_SESSIONS: nat := 0x1000
  const MAX_DATA: nat := 0x2000
  const LAST_SEQUENCE: nat := 0xffff_fffe

  datatype Slot = Slot(handle: nat, data: bytes, length: nat)

  predicate Fits(s: Slot) { |s.data| == MAX_DATA && s.length <= MAX_DATA }

  function Contents(s: Slot): bytes
    requires Fits(s)
  {
    s.data[..s.length]
  }

  function Free(): Slot { Slot(0, Zeros(MAX_DATA), 0) }

  // ---------- the simple view ----------

  // At most one session is active, with the bytes it has been given.
  datatype Session = Session(handle: nat, data: bytes)
  datatype Sessions = Sessions(sequence: nat, active: Option<Session>)

  datatype Event = Init | Update(handle: nat, msg: bytes) | Final(handle: nat) | Cleanup(handle: nat)

  predicate Active(s: Sessions, handle: nat) {
    s.active.Some? && s.active.value.handle == handle
  }

  function Reset(sequence: nat): nat { if sequence > LAST_SEQUENCE then 0 else sequence }

  function Closed(s: Sessions, handle: nat): Sessions {
    Sessions(Reset(s.sequence), if Active(s, handle) then None else s.active)
  }

  function Next(s: Sessions, e: Event): Sessions {
    match e
    case Init => Sessions(s.sequence + 1, if s.active == None then Some(Session(s.sequence + 1, [])) else s.active)
    case Update(h, m) => if Active(s, h) then s.(active := Some(Session(h, s.active.value.data + m))) else s
    case Final(h) => if Active(s, h) then Closed(s, h) else s
    case Cleanup(h) => Closed(s, h)
  }

  // ---------- the table ----------

  // All slots hold the handle of the active session, or all are free, and the first holds the data.
  ghost predicate Shows(t: seq<Slot>, sequence: nat, s: Sessions) {
    |t| == MAX_SESSIONS && sequence == s.sequence
    && (forall i :: 0 <= i < |t| ==> Fits(t[i]) && t[i].handle == t[0].handle)
    && (t[0].handle == 0 <==> s.active == None)
    && (s.active.Some? ==> s.active.value == Session(t[0].handle, Contents(t[0])))
  }

  class SignTable {
    const slots: array<Slot>
    var sequence: nat

    constructor ()
      ensures fresh(slots) && Shows(slots[..], sequence, Sessions(0, None))
    {
      slots := new Slot[MAX_SESSIONS](_ => Free());
      sequence := 0;
    }

    // The inner loops of init and cleanup.
    method Clear(handle: nat, was: Slot) returns (s: Slot)
      requires Fits(was)
      ensures s == Slot(handle, Zeros(MAX_DATA), 0)
    {
      var data := was.data;
      for j := 0 to MAX_DATA
        invariant |data| == MAX_DATA && forall k :: 0 <= k < j ==> data[k] == 0
      {
        data := data[j := 0];
      }
      assert data == Zeros(MAX_DATA);
      s := Slot(handle, data, 0);
    }

    method SignInit(ghost s: Sessions) returns (handle: nat)
      requires Shows(slots[..], sequence, s)
      modifies this, slots
      ensures Shows(slots[..], sequence, Next(s, Init)) && handle == s.sequence + 1
    {
      sequence := sequence + 1;
      handle := sequence;
      for i := 0 to slots.Length
        invariant sequence == handle == old(sequence) + 1
        invariant forall k :: i <= k < slots.Length ==> slots[k] == old(slots[k])
        invariant forall k :: 0 <= k < i ==>
          slots[k] == if old(slots[0]).handle == 0 then Slot(handle, Zeros(MAX_DATA), 0) else old(slots[k])
      {
        assert old(slots[i]).handle == old(slots[0]).handle && Fits(old(slots[i])) by {
          assert old(slots[..])[i] == old(slots[i]) && old(slots[..])[0] == old(slots[0]);
        }
        if slots[i].handle == 0 {
          slots[i] := Clear(handle, slots[i]);
        }
      }
      Initialised(old(slots[..]), s, slots[..]);
    }

    // The first slot of a session takes the data, right after what it has.
    method SignUpdate(ghost s: Sessions, handle: nat, msg: bytes) returns (ok: bool)
      requires Shows(slots[..], sequence, s) && handle != 0
      requires Active(s, handle) ==> |s.active.value.data| + |msg| <= MAX_DATA
      modifies slots
      ensures Shows(slots[..], sequence, Next(s, Update(handle, msg))) && (ok <==> Active(s, handle))
    {
      for i := 0 to slots.Length
        invariant slots[..] == old(slots[..])
        invariant i > 0 ==> slots[0].handle != handle
      {
        assert slots[i] == slots[..][i] && slots[..][0] == slots[0];
        if slots[i].handle == handle {
          var n := slots[i].length;
          var data := Append(slots[i].data, n, msg);
          slots[i] := slots[i].(data := data, length := n + |msg|);
          Updated(old(slots[..]), s, msg, slots[..]);
          return true;
        }
      }
      assert slots[..][0] == slots[0];
      ok := false;
    }

    method Append(was: bytes, n: nat, msg: bytes) returns (data: bytes)
      requires |was| == MAX_DATA && n + |msg| <= MAX_DATA
      ensures |data| == MAX_DATA && data[..n + |msg|] == was[..n] + msg
    {
      data := was;
      for j := 0 to |msg|
        invariant |data| == MAX_DATA && data[..n + j] == was[..n] + msg[..j]
      {
        data := data[n + j := msg[j]];
      }
    }

    method SignCleanup(ghost s: Sessions, handle: nat)
      requires Shows(slots[..], sequence, s) && handle != 0
      modifies this, slots
      ensures Shows(slots[..], sequence, Next(s, Cleanup(handle)))
    {
      for i := 0 to slots.Length
        invariant sequence == old(sequence)
        invariant forall k :: i <= k < slots.Length ==> slots[k] == old(slots[k])
        invariant forall k :: 0 <= k < i ==>
          slots[k] == if old(slots[0]).handle == handle then Free() else old(slots[k])
      {
        assert old(slots[i]).handle == old(slots[0]).handle && Fits(old(slots[i])) by {
          assert old(slots[..])[i] == old(slots[i]) && old(slots[..])[0] == old(slots[0]);
        }
        if slots[i].handle == handle {
          slots[i] := Clear(0, slots[i]);
        }
      }
      Cleaned(old(slots[..]), s, handle, slots[..]);
      if sequence > LAST_SEQUENCE {
        sequence := 0;
      }
    }

    // Signs what the session was given, and frees its slots.
    method SignFinal<T>(ghost s: Sessions, handle: nat, sign: bytes -> T) returns (signature: Option<T>)
      requires Shows(slots[..], sequence, s) && handle != 0
      modifies this, slots
      ensures Shows(slots[..], sequence, Next(s, Final(handle)))
      ensures signature == if Active(s, handle) then Some(sign(s.active.value.data)) else None
    {
      for i := 0 to slots.Length
        invariant slots[..] == old(slots[..]) && sequence == old(sequence)
        invariant i > 0 ==> slots[0].handle != handle
      {
        assert slots[i] == slots[..][i] && slots[..][0] == slots[0];
        if slots[i].handle == handle {
          signature := Some(sign(slots[i].data[..slots[i].length]));
          SignCleanup(s, handle);
          return;
        }
      }
      assert slots[..][0] == slots[0];
      signature := None;
    }
  }

  // Every slot is claimed for the new session if all are free, and none otherwise.
  lemma Initialised(t: seq<Slot>, s: Sessions, u: seq<Slot>)
    requires Shows(t, s.sequence, s) && |u| == |t|
    requires forall k :: 0 <= k < |u| ==>
      u[k] == if t[0].handle == 0 then Slot(s.sequence + 1, Zeros(MAX_DATA), 0) else t[k]
    ensures Shows(u, s.sequence + 1, Next(s, Init))
  {
  }

  lemma Updated(t: seq<Slot>, s: Sessions, msg: bytes, u: seq<Slot>)
    requires Shows(t, s.sequence, s) && |u| == |t| && s.active.Some?
    requires forall k :: 0 < k < |u| ==> u[k] == t[k]
    requires u[0].handle == t[0].handle && Fits(u[0]) && u[0].length == t[0].length + |msg|
    requires u[0].data[..u[0].length] == t[0].data[..t[0].length] + msg
    ensures Shows(u, s.sequence, Next(s, Update(s.active.value.handle, msg)))
  {
  }

  lemma Cleaned(t: seq<Slot>, s: Sessions, handle: nat, u: seq<Slot>)
    requires Shows(t, s.sequence, s) && |u| == |t| && handle != 0
    requires forall k :: 0 <= k < |u| ==> u[k] == if t[0].handle == handle then Free() else t[k]
    ensures Shows(u, Reset(s.sequence), Next(s, Cleanup(handle)))
  {
  }

  // ---------- runs ----------

  function After(es: seq<Event>): Sessions {
    if es == [] then Sessions(0, None) else Next(After(es[..|es| - 1]), es[|es| - 1])
  }

  // The updates for a handle that were accepted from call k on, in order.
  function Accepted(es: seq<Event>, k: nat, handle: nat): bytes {
    if |es| <= k then []
    else
      var before, e := es[..|es| - 1], es[|es| - 1];
      Accepted(before, k, handle)
      + if e.Update? && e.handle == handle && Active(After(before), handle) then e.msg else []
  }

  // The number of calls up to and with the one that gave the active session its slots.
  function Start(es: seq<Event>): (k: nat)
    ensures k <= |es|
  {
    if es == [] then 0
    else
      var before := es[..|es| - 1];
      if es[|es| - 1].Init? && After(before).active == None then |es| else Start(before)
  }

  // Start is what it says: the call before it is an init that found no session active and gave out
  // the handle of the session that is active now, which has been active ever since.
  lemma {:induction false} StartedThere(es: seq<Event>)
    requires After(es).active.Some?
    ensures var k, h := Start(es), After(es).active.value.handle;
      0 < k <= |es| && es[k - 1] == Init && After(es[..k - 1]).active == None && After(es[..k - 1]).sequence + 1 == h
      && forall j :: k <= j <= |es| ==> Active(After(es[..j]), h)
  {
    var before := es[..|es| - 1];
    assert es[..|es|] == es;
    if Start(es) != |es| {
      StartedThere(before);
      forall j | 0 <= j < |es| ensures es[..j] == before[..j] {
      }
    }
  }

  // In every run, however the calls of different sessions are interleaved: the data a session will
  // have signed is the concatenation of exactly the updates accepted for it since it got its slots.
  lemma {:induction false} SignedExactly(es: seq<Event>)
    ensures var s := After(es);
      s.active.Some? ==> s.active.value.data == Accepted(es, Start(es), s.active.value.handle)
  {
    if es != [] {
      SignedExactly(es[..|es| - 1]);
    }
  }

  // ---------- resets ----------

  // A call that resets the sequence.
  predicate Resets(s: Sessions, e: Event) {
    s.sequence > LAST_SEQUENCE && (e.Cleanup? || (e.Final? && Active(s, e.handle)))
  }

  // Whether one of the calls from call k on did.
  predicate ResetSince(es: seq<Event>, k: nat) {
    |es| > k && (ResetSince(es[..|es| - 1], k) || Resets(After(es[..|es| - 1]), es[|es| - 1]))
  }

  // The sessions started since the last reset.
  function Inits(es: seq<Event>): nat {
    if es == [] || Resets(After(es[..|es| - 1]), es[|es| - 1]) then 0
    else Inits(es[..|es| - 1]) + if es[|es| - 1].Init? then 1 else 0
  }

  // Handles are given out in order, from one after every reset; a session has one given out already,
  // unless there was a reset since it was started.
  lemma {:induction false} HandlesInOrder(es: seq<Event>)
    ensures var s := After(es);
      s.sequence == Inits(es)
      && (s.active.Some? ==> 0 < s.active.value.handle)
      && (s.active.Some? && !ResetSince(es, Start(es)) ==> s.active.value.handle <= s.sequence)
  {
    if es != [] {
      HandlesInOrder(es[..|es| - 1]);
    }
  }

  // The session started next is told the handle of the active one if and only if there was a reset
  // since that was started and as many sessions have been started since as its handle counts.
  lemma SharedExactly(es: seq<Event>)
    requires After(es).active.Some?
    ensures var h := After(es).active.value.handle;
      After(es).sequence + 1 == h <==> ResetSince(es, Start(es)) && Inits(es) + 1 == h
  {
    HandlesInOrder(es);
  }

  lemma {:induction false} ResetFrom(es: seq<Event>, k: nat)
    requires ResetSince(es, k)
    ensures ResetSince(es, 0)
  {
    if !Resets(After(es[..|es| - 1]), es[|es| - 1]) {
      ResetFrom(es[..|es| - 1], k);
    }
  }

  // Without a reset, nothing has been accepted for a handle that is yet to be given out.
  lemma {:induction false} NothingYet(es: seq<Event>, handle: nat)
    requires !ResetSince(es, 0) && handle > After(es).sequence
    ensures Accepted(es, 0, handle) == []
  {
    if es != [] {
      var before := es[..|es| - 1];
      NothingYet(before, handle);
      HandlesInOrder(before);
      if ResetSince(before, Start(before)) {
        ResetFrom(before, Start(before));
      }
    }
  }

  // So as long as there is no reset, the data are all updates ever accepted for the handle.
  lemma {:induction false} SignedInFull(es: seq<Event>)
    requires !ResetSince(es, 0)
    ensures var s := After(es);
      s.active.Some? ==> s.active.value.data == Accepted(es, 0, s.active.value.handle)
  {
    if es != [] {
      var before := es[..|es| - 1];
      SignedInFull(before);
      NothingYet(before, After(before).sequence + 1);
    }
  }

  // The sessions started in all.
  function Started(es: seq<Event>): nat {
    if es == [] then 0 else Started(es[..|es| - 1]) + if es[|es| - 1].Init? then 1 else 0
  }

  // There is none as long as fewer than 0xffffffff sessions have been started.
  lemma {:induction false} FewStarted(es: seq<Event>)
    requires Started(es) < 0xffff_ffff
    ensures !ResetSince(es, 0) && After(es).sequence == Started(es)
  {
    if es != [] {
      FewStarted(es[..|es| - 1]);
    }
  }

  // The first call that closes a session, or cleans up, after as many have been started, is one.
  lemma ManyStarted(es: seq<Event>, h: nat)
    requires !ResetSince(es, 0)
    ensures After(es).sequence == Started(es)
    ensures After(es + [Cleanup(h)]).sequence == if Started(es) < 0xffff_ffff then Started(es) else 0
  {
    UntilReset(es);
    assert (es + [Cleanup(h)])[..|es|] == es;
  }

  lemma {:induction false} UntilReset(es: seq<Event>)
    requires !ResetSince(es, 0)
    ensures After(es).sequence == Started(es)
  {
    if es != [] {
      UntilReset(es[..|es| - 1]);
    }
  }

  lemma OneMore(es: seq<Event>, e: Event)
    ensures After(es + [e]) == Next(After(es), e)
    ensures Permitted(es) && MayCall(After(es), e) ==> Permitted(es + [e])
  {
    assert (es + [e])[..|es|] == es;
    forall i | 0 <= i < |es| ensures (es + [e])[..i] == es[..i] {
    }
  }

  function Starts(n: nat): seq<Event> { seq(n, _ => Init) }

  lemma {:induction false} ManyStarts(es: seq<Event>, n: nat)
    requires After(es).active.Some? && Permitted(es)
    ensures After(es + Starts(n)) == After(es).(sequence := After(es).sequence + n) && Permitted(es + Starts(n))
  {
    if n == 0 {
      assert es + Starts(0) == es;
    } else {
      ManyStarts(es, n - 1);
      OneMore(es + Starts(n - 1), Init);
      assert es + Starts(n - 1) + [Init] == es + Starts(n);
    }
  }

  // Session 1 is started and stays open while 0xfffffffe more are; when session 2 is cleaned up, the
  // sequence is reset, and the one started next is told the handle 1 too.
  function Mixing(data: bytes): seq<Event> {
    [Init, Update(1, data)] + Starts(LAST_SEQUENCE) + [Cleanup(2)] + [Init]
  }

  lemma AfterOpening(data: bytes)
    requires |data| <= MAX_DATA
    ensures var es := [Init, Update(1, data)];
      After(es) == Sessions(1, Some(Session(1, data))) && Permitted(es)
  {
    OneMore([], Init);
    assert [] + [Init] == [Init];
    OneMore([Init], Update(1, data));
    assert [Init] + [Update(1, data)] == [Init, Update(1, data)] && [] + data == data;
  }

  lemma AfterMixing(data: bytes)
    requires |data| <= MAX_DATA
    ensures After(Mixing(data)) == Sessions(1, Some(Session(1, data))) && Permitted(Mixing(data)) == true
  {
    var opening := [Init, Update(1, data)];
    var many := opening + Starts(LAST_SEQUENCE);
    AfterOpening(data);
    ManyStarts(opening, LAST_SEQUENCE);
    OneMore(many, Cleanup(2));
    OneMore(many + [Cleanup(2)], Init);
  }

  // Its updates go into the data of the other one.
  lemma ResetMixesSessions(data: bytes, msg: bytes)
    requires |data| + |msg| <= MAX_DATA
    ensures var es := Mixing(data);
      Permitted(es + [Update(1, msg)])
      && After(es) == Sessions(1, Some(Session(1, data))) && es[|es| - 1] == Init
      && After(es + [Update(1, msg)]) == Sessions(1, Some(Session(1, data + msg)))
  {
    AfterMixing(data);
    OneMore(Mixing(data), Update(1, msg));
  }

  // ---------- the table ----------

  // The calls that a caller may make: with handles that can have been given out, and data that fits
  // its slot.
  predicate MayCall(s: Sessions, e: Event) {
    match e
    case Init => true
    case Update(h, m) => h != 0 && (Active(s, h) ==> |s.active.value.data| + |m| <= MAX_DATA)
    case Final(h) => h != 0
    case Cleanup(h) => h != 0
  }

  ghost predicate Permitted(es: seq<Event>) {
    forall i :: 0 <= i < |es| ==> MayCall(After(es[..i]), es[i])
  }

  // The table after any such run shows the simple view: all slots the same session's, or all free.
  method Play(es: seq<Event>) returns (table: SignTable)
    requires Permitted(es)
    ensures fresh(table) && fresh(table.slots) && Shows(table.slots[..], table.sequence, After(es))
  {
    table := new SignTable();
    assert es[..0] == [];
    for i := 0 to |es|
      invariant fresh(table) && fresh(table.slots) && Shows(table.slots[..], table.sequence, After(es[..i]))
    {
      assert es[..i + 1][..i] == es[..i];
      ghost var s := After(es[..i]);
      match es[i] {
        case Init => var _ := table.SignInit(s);
        case Update(h, m) => var _ := table.SignUpdate(s, h, m);
        case Final(h) => var _ := table.SignFinal(s, h, d => d);
        case Cleanup(h) => table.SignCleanup(s, h);
      }
    }
    assert es[..|es|] == es;
  }

  predicate HoldsAll(t: seq<Slot>, handle: nat) { forall i :: 0 <= i < |t| ==> t[i].handle == handle }
  predicate HoldsNone(t: seq<Slot>, handle: nat) { forall i :: 0 <= i < |t| ==> t[i].handle != handle }

  lemma HeldExactly(t: seq<Slot>, sequence: nat, s: Sessions, handle: nat)
    requires Shows(t, sequence, s) && handle != 0
    ensures (if Active(s, handle) then HoldsAll(t, handle) else HoldsNone(t, handle)) == true
  {
  }

  // The session started in s holds all slots if no other one was active, or if the active one has the
  // same handle; and no slot otherwise.
  ghost predicate Claimed(t: seq<Slot>, s: Sessions) {
    var h := s.sequence + 1;
    if s.active == None || Active(s, h) then HoldsAll(t, h) else HoldsNone(t, h)
  }

  lemma InitClaims(t: seq<Slot>, sequence: nat, s: Sessions)
    requires Shows(t, sequence, Next(s, Init))
    ensures Claimed(t, s) == true
  {
    HeldExactly(t, sequence, Next(s, Init), s.sequence + 1);
  }

  // So it is in the table after any run that ends in an init.
  lemma ClaimedExactly(es: seq<Event>, t: seq<Slot>, sequence: nat)
    requires Shows(t, sequence, After(es + [Init]))
    ensures Claimed(t, After(es))
  {
    OneMore(es, Init);
    InitClaims(t, sequence, After(es));
  }

  lemma StaysOnce(s: Sessions, e: Event, h: nat)
    requires Active(s, h) && e != Final(h) && e != Cleanup(h)
    ensures Active(Next(s, e), h)
  {
  }

  // A session stays active until it is closed.
  lemma {:induction false} StaysActive(es: seq<Event>, fs: seq<Event>, h: nat)
    requires Active(After(es), h) && Final(h) !in fs && Cleanup(h) !in fs
    ensures Active(After(es + fs), h) == true
    decreases |fs|
  {
    if fs == [] {
      assert es + fs == es;
    } else {
      var gs, e := fs[..|fs| - 1], fs[|fs| - 1];
      StaysActive(es, gs, h);
      assert e in fs;
      OneMore(es + gs, e);
      StaysOnce(After(es + gs), e, h);
      assert es + gs + [e] == es + fs;
    }
  }

  // A session started while another one is active, and told another handle: until that one is
  // closed it has no slot, and its updates are refused.
  method SecondRefused(es: seq<Event>, fs: seq<Event>, msg: bytes) returns (table: SignTable, ok: bool)
    requires After(es).active.Some? && After(es).active.value.handle != After(es).sequence + 1
    requires Final(After(es).active.value.handle) !in fs && Cleanup(After(es).active.value.handle) !in fs
    requires Permitted(es + ([Init] + fs))
    ensures !ok && HoldsNone(table.slots[..], After(es).sequence + 1)
  {
    ghost var s := After(es + ([Init] + fs));
    StaysActive(es, [Init] + fs, After(es).active.value.handle);
    table := Play(es + ([Init] + fs));
    ok := table.SignUpdate(s, After(es).sequence + 1, msg);
    HeldExactly(table.slots[..], table.sequence, Next(s, Update(After(es).sequence + 1, msg)), After(es).sequence + 1);
  }
}
