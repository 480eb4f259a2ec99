// Lists of PCR selections: a count, then as many structures, each with a count and as many bytes.
module PcrSelection {
  import opened Bytes
  import opened WireGrammar
  import opened TpmTypes
  import opened Layouts
  import opened Cursors
  import opened Unmarshal
  import opened Marshal
  import opened Converters
  import opened Codec

  // PCR_SELECT_MIN, PCR_SELECT_MAX and HASH_COUNT of a build.
  datatype Limits = Limits(selectMin: nat, selectMax: nat, hashCount: nat)

  type select = s: bytes | |s| < 256
  datatype Selection = Selection(hash: uint16, pcrs: select)

  // ---------- grammar ----------

  function SelectSize(lim: Limits): Rule {
    Within(lim.selectMin, lim.selectMax, Value)
  }

  function SelectFmt(lim: Limits): Fmt {
    Tagged(1, SelectSize(lim), map n: nat | lim.selectMin <= n <= lim.selectMax :: Rep(n, Word(1, Any)))
  }

  function SelectionFmt(cfg: Config, lim: Limits): Fmt {
    Both(Word(2, HashAlg(cfg, false)), SelectFmt(lim))
  }

  function ListSize(lim: Limits): Rule {
    Within(0, lim.hashCount, Size)
  }

  function ListFmt(cfg: Config, lim: Limits): Fmt {
    Tagged(4, ListSize(lim), map n: nat | n <= lim.hashCount :: Rep(n, SelectionFmt(cfg, lim)))
  }

  function BytesTree(d: bytes): Tree {
    if d == [] then Unit else Pair(BytesTree(d[..|d| - 1]), Num(1, d[|d| - 1]))
  }

  function SelectionTree(x: Selection): Tree {
    Pair(Num(2, x.hash), Tag(1, |x.pcrs|, BytesTree(x.pcrs)))
  }

  function ItemsTree(xs: seq<Selection>): Tree {
    if xs == [] then Unit else Pair(ItemsTree(xs[..|xs| - 1]), SelectionTree(xs[|xs| - 1]))
  }

  function ListTree(xs: seq<Selection>): Tree { Tag(4, |xs|, ItemsTree(xs)) }

  // ---------- repetition ----------

  // An item that fails ends the repetition.
  lemma {:induction false} RepStops(f: Fmt, i: nat, n: nat, s: Snap, s': Snap, rc: Rc, t: Tree, u: Tree)
    requires i <= n && s.Ready() && rc != Success && Took(Rep(i, f), s, s', rc, t)
    ensures Took(Rep(n, f), s, s', rc, u)
    decreases n
  {
    if i < n {
      RepStops(f, i, n - 1, s, s', rc, t, u);
      TookSeq(Rep(n - 1, f), f, s, s', s', rc, rc, u, u);
    }
  }

  // ---------- unmarshalling ----------

  method UnmarshalSelectBytes(c: Cursor, count: nat) returns (rc: Rc, d: bytes)
    requires c.State().Ready()
    modifies c
    ensures Took(Rep(count, Word(1, Any)), old(c.State()), c.State(), rc, BytesTree(d))
    ensures rc == Success ==> |d| == count
  {
    ghost var s, f := c.State(), Word(1, Any);
    d := [];
    rc := Success;
    var i := 0;
    while i < count
      invariant 0 <= i <= count && |d| == i && rc == Success
      invariant Took(Rep(i, f), s, c.State(), Success, BytesTree(d))
    {
      ghost var s1 := c.State();
      TookRest(Rep(i, f), s, s1, BytesTree(d));
      var v;
      rc, v := UnmarshalUInt8(c);
      TookSeq(Rep(i, f), f, s, s1, c.State(), Success, rc, BytesTree(d), Num(1, v));
      assert (d + [v])[..i] == d;
      d := d + [v];
      if rc != Success {
        RepStops(f, i + 1, count, s, c.State(), rc, BytesTree(d), BytesTree(d));
        return;
      }
      i := i + 1;
    }
  }

  method UnmarshalSelect(c: Cursor, lim: Limits) returns (rc: Rc, d: select)
    requires c.State().Ready()
    modifies c
    ensures Took(SelectFmt(lim), old(c.State()), c.State(), rc, Tag(1, |d|, BytesTree(d)))
  {
    ghost var s := c.State();
    var sizeofSelect;
    rc, sizeofSelect := UnmarshalUInt8(c);
    ghost var s1 := c.State();
    TookChecked(1, SelectSize(lim), s, s1, rc, sizeofSelect);
    d := [];
    if rc == Success && (sizeofSelect < lim.selectMin || sizeofSelect > lim.selectMax) {
      rc := Value;
    }
    ghost var rc1 := rc;
    if rc == Success {
      TookRest(Word(1, SelectSize(lim)), s, s1, Num(1, sizeofSelect));
      var bytes;
      rc, bytes := UnmarshalSelectBytes(c, sizeofSelect);
      TookTag(1, SelectSize(lim), SelectFmt(lim).arms, sizeofSelect, s, s1, c.State(), rc1, rc, BytesTree(bytes));
      if rc == Success {
        d := bytes;
      }
    } else {
      TookTag(1, SelectSize(lim), SelectFmt(lim).arms, sizeofSelect, s, s1, s1, rc, rc, Unit);
    }
  }

  method UnmarshalSelection(c: Cursor, cfg: Config, lim: Limits) returns (rc: Rc, x: Selection)
    requires c.State().Ready()
    modifies c
    ensures Took(SelectionFmt(cfg, lim), old(c.State()), c.State(), rc, SelectionTree(x))
  {
    ghost var s, hash := c.State(), Word(2, HashAlg(cfg, false));
    var h, d := 0, [];
    rc, h := UnmarshalChecked16(c, HashAlg(cfg, false));
    ghost var rc1, s1 := rc, c.State();
    if rc == Success {
      TookRest(hash, s, s1, Num(2, h));
      rc, d := UnmarshalSelect(c, lim);
    }
    x := Selection(h, d);
    TookSeq(hash, SelectFmt(lim), s, s1, c.State(), rc1, rc, Num(2, h), Tag(1, |d|, BytesTree(d)));
  }

  method UnmarshalSelections(c: Cursor, cfg: Config, lim: Limits, count: nat) returns (rc: Rc, xs: seq<Selection>)
    requires c.State().Ready()
    modifies c
    ensures Took(Rep(count, SelectionFmt(cfg, lim)), old(c.State()), c.State(), rc, ItemsTree(xs))
    ensures rc == Success ==> |xs| == count
  {
    ghost var s, f := c.State(), SelectionFmt(cfg, lim);
    xs := [];
    rc := Success;
    var i := 0;
    while i < count
      invariant 0 <= i <= count && |xs| == i && rc == Success
      invariant Took(Rep(i, f), s, c.State(), Success, ItemsTree(xs))
    {
      ghost var s1 := c.State();
      TookRest(Rep(i, f), s, s1, ItemsTree(xs));
      var x;
      rc, x := UnmarshalSelection(c, cfg, lim);
      TookSeq(Rep(i, f), f, s, s1, c.State(), Success, rc, ItemsTree(xs), SelectionTree(x));
      assert (xs + [x])[..i] == xs;
      xs := xs + [x];
      if rc != Success {
        RepStops(f, i + 1, count, s, c.State(), rc, ItemsTree(xs), ItemsTree(xs));
        return;
      }
      i := i + 1;
    }
  }

  method UnmarshalList(c: Cursor, cfg: Config, lim: Limits) returns (rc: Rc, xs: seq<Selection>)
    requires c.State().Ready()
    modifies c
    ensures Took(ListFmt(cfg, lim), old(c.State()), c.State(), rc, ListTree(xs))
  {
    ghost var s := c.State();
    var count;
    rc, count := UnmarshalUInt32(c);
    ghost var s1 := c.State();
    TookChecked(4, ListSize(lim), s, s1, rc, count);
    xs := [];
    if rc == Success && count > lim.hashCount {
      rc := Size;
    }
    ghost var rc1 := rc;
    if rc == Success {
      TookRest(Word(4, ListSize(lim)), s, s1, Num(4, count));
      rc, xs := UnmarshalSelections(c, cfg, lim, count);
      TookTag(4, ListSize(lim), ListFmt(cfg, lim).arms, count, s, s1, c.State(), rc1, rc, ItemsTree(xs));
    } else {
      TookTag(4, ListSize(lim), ListFmt(cfg, lim).arms, count, s, s1, s1, rc, rc, Unit);
    }
  }

  // ---------- marshalling ----------

  method MarshalSelectBytes(c: Cursor, d: bytes) returns (n: uint16)
    requires c.State().Room()
    modifies c, c.buf
    ensures Sent(BytesTree(d), old(c.State()), c.State(), n)
  {
    ghost var s := c.State();
    n := 0;
    SentUnit(s);
    for i := 0 to |d|
      invariant Sent(BytesTree(d[..i]), s, c.State(), n)
    {
      ghost var s1 := c.State();
      var m := MarshalUInt8(c, d[i]);
      SentPair(BytesTree(d[..i]), Num(1, d[i]), s, s1, c.State(), n, m);
      assert d[..i + 1][..i] == d[..i];
      n := Add16(n, m);
    }
    assert d[..|d|] == d;
  }

  method MarshalSelection(c: Cursor, x: Selection) returns (n: uint16)
    requires c.State().Room()
    modifies c, c.buf
    ensures Sent(SelectionTree(x), old(c.State()), c.State(), n)
  {
    ghost var s := c.State();
    var n1 := MarshalUInt16(c, x.hash);
    ghost var s1 := c.State();
    var n2 := MarshalUInt8(c, |x.pcrs|);
    ghost var s2 := c.State();
    var n3 := MarshalSelectBytes(c, x.pcrs);
    SentTag(1, |x.pcrs|, BytesTree(x.pcrs), s1, s2, c.State(), n2, n3);
    SentPair(Num(2, x.hash), Tag(1, |x.pcrs|, BytesTree(x.pcrs)), s, s1, c.State(), n1, Add16(n2, n3));
    Add16Assoc(n1, n2, n3);
    n := Add16(Add16(n1, n2), n3);
  }

  method MarshalSelections(c: Cursor, xs: seq<Selection>) returns (n: uint16)
    requires c.State().Room()
    modifies c, c.buf
    ensures Sent(ItemsTree(xs), old(c.State()), c.State(), n)
  {
    ghost var s := c.State();
    n := 0;
    SentUnit(s);
    for i := 0 to |xs|
      invariant Sent(ItemsTree(xs[..i]), s, c.State(), n)
    {
      ghost var s1 := c.State();
      var m := MarshalSelection(c, xs[i]);
      SentPair(ItemsTree(xs[..i]), SelectionTree(xs[i]), s, s1, c.State(), n, m);
      assert xs[..i + 1][..i] == xs[..i];
      n := Add16(n, m);
    }
    assert xs[..|xs|] == xs;
  }

  method MarshalList(c: Cursor, xs: seq<Selection>) returns (n: uint16)
    requires c.State().Room() && |xs| < 0x1_0000_0000
    modifies c, c.buf
    ensures Sent(ListTree(xs), old(c.State()), c.State(), n)
  {
    ghost var s := c.State();
    var n1 := MarshalUInt32(c, |xs|);
    ghost var s1 := c.State();
    var n2 := MarshalSelections(c, xs);
    SentTag(4, |xs|, ItemsTree(xs), s, s1, c.State(), n1, n2);
    n := Add16(n1, n2);
  }

  // ---------- what lists are well formed ----------

  predicate WellFormedSelection(cfg: Config, lim: Limits, x: Selection) {
    HashFits(cfg, false, x.hash) && lim.selectMin <= |x.pcrs| <= lim.selectMax
  }

  lemma {:induction false} BytesConform(d: bytes)
    ensures Conforms(Rep(|d|, Word(1, Any)), BytesTree(d))
  {
    if d != [] {
      Widths();
      BytesConform(d[..|d| - 1]);
    }
  }

  lemma SelectionConforms(cfg: Config, lim: Limits, x: Selection)
    ensures Conforms(SelectionFmt(cfg, lim), SelectionTree(x)) <==> WellFormedSelection(cfg, lim, x)
  {
    Widths();
    BytesConform(x.pcrs);
    HashRule(cfg, false, x.hash);
    assert Conforms(SelectFmt(lim), Tag(1, |x.pcrs|, BytesTree(x.pcrs))) <==> lim.selectMin <= |x.pcrs| <= lim.selectMax;
  }

  lemma LastOfAll(cfg: Config, lim: Limits, xs: seq<Selection>)
    requires xs != []
    ensures var n := |xs| - 1;
      (forall i :: 0 <= i < |xs| ==> WellFormedSelection(cfg, lim, xs[i]))
      <==> (forall i :: 0 <= i < n ==> WellFormedSelection(cfg, lim, xs[..n][i])) && WellFormedSelection(cfg, lim, xs[n])
  {
    var n := |xs| - 1;
    if forall i :: 0 <= i < n ==> WellFormedSelection(cfg, lim, xs[..n][i]) {
      forall i | 0 <= i < n ensures WellFormedSelection(cfg, lim, xs[i]) {
        assert xs[..n][i] == xs[i];
      }
    }
  }

  lemma LastRep(n: nat, f: Fmt, t: Tree, u: Tree)
    ensures Conforms(Rep(n + 1, f), Pair(t, u)) <==> Conforms(Rep(n, f), t) && Conforms(f, u)
  {
  }

  lemma {:induction false} ItemsConform(cfg: Config, lim: Limits, xs: seq<Selection>)
    ensures Conforms(Rep(|xs|, SelectionFmt(cfg, lim)), ItemsTree(xs))
      <==> forall i :: 0 <= i < |xs| ==> WellFormedSelection(cfg, lim, xs[i])
  {
    if xs != [] {
      var n := |xs| - 1;
      ItemsConform(cfg, lim, xs[..n]);
      SelectionConforms(cfg, lim, xs[n]);
      LastOfAll(cfg, lim, xs);
      LastRep(n, SelectionFmt(cfg, lim), ItemsTree(xs[..n]), SelectionTree(xs[n]));
    }
  }

  // A list conforms if and only if it is not too long and every selection names a supported hash
  // and has a size within the limits.
  lemma ListConforms(cfg: Config, lim: Limits, xs: seq<Selection>)
    requires lim.hashCount < 0x1_0000_0000
    ensures Conforms(ListFmt(cfg, lim), ListTree(xs))
      <==> |xs| <= lim.hashCount && forall i :: 0 <= i < |xs| ==> WellFormedSelection(cfg, lim, xs[i])
  {
    Widths();
    ItemsConform(cfg, lim, xs);
  }

  // ---------- what lists are on the wire ----------

  // Table 2:89: a hash algorithm, the number of octets of the map, and the map.
  function SelectionBytes(x: Selection): bytes { Be16(x.hash) + [|x.pcrs|] + x.pcrs }

  function ItemsBytes(xs: seq<Selection>): bytes {
    if xs == [] then [] else ItemsBytes(xs[..|xs| - 1]) + SelectionBytes(xs[|xs| - 1])
  }

  lemma {:induction false} BytesLayout(d: bytes)
    ensures Print(BytesTree(d)) == d
  {
    if d != [] {
      BytesLayout(d[..|d| - 1]);
      ByteLayout(d[|d| - 1]);
      PairLayout(BytesTree(d[..|d| - 1]), Num(1, d[|d| - 1]));
      assert d == d[..|d| - 1] + [d[|d| - 1]];
    }
  }

  lemma ByteLayout(b: byte)
    ensures ToBE(1, b) == [b]
  {
    assert ToBE(1, b) == ToBE(0, b / 256) + [b % 256];
  }

  lemma SelectionLayout(x: Selection)
    ensures Print(SelectionTree(x)) == SelectionBytes(x)
  {
    var map1 := Tag(1, |x.pcrs|, BytesTree(x.pcrs));
    Short(x.hash);
    ByteLayout(|x.pcrs|);
    BytesLayout(x.pcrs);
    PairLayout(Num(2, x.hash), map1);
    assert Print(map1) == [|x.pcrs|] + x.pcrs;
  }

  lemma {:induction false} ItemsLayout(xs: seq<Selection>)
    ensures Print(ItemsTree(xs)) == ItemsBytes(xs)
  {
    if xs != [] {
      ItemsLayout(xs[..|xs| - 1]);
      SelectionLayout(xs[|xs| - 1]);
      PairLayout(ItemsTree(xs[..|xs| - 1]), SelectionTree(xs[|xs| - 1]));
    }
  }

  // Table 2:111: the count in four bytes, and the selections.
  lemma ListLayout(xs: seq<Selection>)
    requires |xs| < 0x1_0000_0000
    ensures Print(ListTree(xs)) == Be32(|xs|) + ItemsBytes(xs)
  {
    Bytes32(|xs|);
    ItemsLayout(xs);
  }

  // ---------- there and back ----------

  lemma {:induction false} BytesTreeInjective(d: bytes, e: bytes)
    requires BytesTree(d) == BytesTree(e)
    ensures d == e
  {
    if d != [] {
      BytesTreeInjective(d[..|d| - 1], e[..|e| - 1]);
      assert d == d[..|d| - 1] + [d[|d| - 1]] && e == e[..|e| - 1] + [e[|e| - 1]];
    }
  }

  lemma {:induction false} ItemsTreeInjective(xs: seq<Selection>, ys: seq<Selection>)
    requires ItemsTree(xs) == ItemsTree(ys)
    ensures xs == ys
  {
    if xs != [] {
      ItemsTreeInjective(xs[..|xs| - 1], ys[..|ys| - 1]);
      BytesTreeInjective(xs[|xs| - 1].pcrs, ys[|ys| - 1].pcrs);
      assert xs == xs[..|xs| - 1] + [xs[|xs| - 1]] && ys == ys[..|ys| - 1] + [ys[|ys| - 1]];
    }
  }

  // Unmarshalling a list that was marshalled returns the same list and stops where marshalling did.
  lemma ListThereAndBack(cfg: Config, lim: Limits, xs: seq<Selection>, s: Snap, s1: Snap, n: uint16,
                         s2: Snap, s3: Snap, rc: Rc, ys: seq<Selection>)
    requires Conforms(ListFmt(cfg, lim), ListTree(xs))
    requires Sent(ListTree(xs), s, s1, n) && |Print(ListTree(xs))| <= s.size
    requires s2.mem == s1.mem && s2.pos == s.pos && s2.Ready() && |Print(ListTree(xs))| <= s2.size
    requires Took(ListFmt(cfg, lim), s2, s3, rc, ListTree(ys))
    ensures rc == Success && ys == xs && s3.pos == s1.pos
  {
    WrittenInFull(ListTree(xs), s, s1, n);
    ReadBack(ListFmt(cfg, lim), ListTree(xs), s2, s3, rc, ListTree(ys));
    CountAgreement(ListTree(xs), s, s1, n);
    ItemsTreeInjective(xs, ys);
  }

  // A list that is accepted is well formed, and marshals to exactly the bytes consumed.
  lemma ListBackAndThere(cfg: Config, lim: Limits, s: Snap, s1: Snap, xs: seq<Selection>)
    requires lim.hashCount < 0x1_0000_0000
    requires s.Ready() && Took(ListFmt(cfg, lim), s, s1, Success, ListTree(xs))
    ensures |xs| <= lim.hashCount && forall i :: 0 <= i < |xs| ==> WellFormedSelection(cfg, lim, xs[i])
    ensures s.pos <= s1.pos <= |s.mem| && Print(ListTree(xs)) == s.mem[s.pos..s1.pos]
  {
    Canonical(ListFmt(cfg, lim), s.Available());
    Consumed(s, s1.pos - s.pos);
    ListConforms(cfg, lim, xs);
  }

  lemma {:induction false} RepNarrow(n: nat, f: Fmt)
    requires Narrow(f)
    ensures Narrow(Rep(n, f))
  {
    if n > 0 {
      RepNarrow(n - 1, f);
    }
  }

  // So lists keep within their budget as well.
  lemma ListNarrow(cfg: Config, lim: Limits)
    ensures Narrow(ListFmt(cfg, lim)) == true
  {
    forall n: nat ensures Narrow(Rep(n, Word(1, Any))) {
      RepNarrow(n, Word(1, Any));
    }
    assert Narrow(SelectFmt(lim));
    NarrowBoth(Word(2, HashAlg(cfg, false)), SelectFmt(lim));
    forall n: nat ensures Narrow(Rep(n, SelectionFmt(cfg, lim))) {
      RepNarrow(n, SelectionFmt(cfg, lim));
    }
  }

  lemma CountRefused(cfg: Config, lim: Limits, count: uint32, rest: bytes)
    requires count > lim.hashCount
    ensures Refused(ListFmt(cfg, lim), Be32(count) + rest, Size)
  {
    Bytes32(count);
    Widths();
    FromToBE(4, count);
    assert (Be32(count) + rest)[..4] == ToBE(4, count);
  }

  lemma SelectRefused(lim: Limits, n: byte, rest: bytes)
    requires !(lim.selectMin <= n <= lim.selectMax)
    ensures Refused(SelectFmt(lim), [n] + rest, Value)
  {
    BE1(n);
    assert ([n] + rest)[..1] == [n];
  }

  // How a list is refused: too many selections with SIZE, a hash that is not supported with HASH, and
  // a selection outside the limits with VALUE.
  lemma ListCodes(cfg: Config, lim: Limits, count: uint32, hash: uint16, n: byte, rest: bytes)
    ensures count > lim.hashCount ==> Refused(ListFmt(cfg, lim), Be32(count) + rest, Size) == true
    ensures !HashFits(cfg, false, hash) ==> Refused(SelectionFmt(cfg, lim), Be16(hash) + rest, Hash) == true
    ensures HashFits(cfg, false, hash) && !(lim.selectMin <= n <= lim.selectMax) ==>
      Refused(SelectionFmt(cfg, lim), Be16(hash) + ([n] + rest), Value) == true
  {
    var f, g := Word(2, HashAlg(cfg, false)), SelectFmt(lim);
    if count > lim.hashCount {
      CountRefused(cfg, lim, count, rest);
    }
    if !HashFits(cfg, false, hash) {
      HashRefused(cfg, false, hash, rest);
      FirstRefused(f, g, Be16(hash) + rest, Hash);
    } else if !(lim.selectMin <= n <= lim.selectMax) {
      SelectRefused(lim, n, rest);
      HashRule(cfg, false, hash);
      NumLayout(hash);
      WordConforms(HashAlg(cfg, false), hash);
      SecondRefused(f, g, Num(2, hash), Be16(hash), [n] + rest, Value);
    }
  }
}
