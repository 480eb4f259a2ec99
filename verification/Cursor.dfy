// The cursor the codec routines share: a buffer, a position that only moves forward, and the
// number of bytes the caller still allows.
module Cursors {
  import opened Bytes
  import opened WireGrammar

  // A cursor at one moment.
  datatype Snap = Snap(mem: bytes, pos: nat, size: int) {
    predicate Ready() { 0 <= size && pos + size <= |mem| }

    function Available(): bytes
      requires Ready()
    {
      mem[pos..pos + size]
    }

    // Room to write whatever the budget allows; an overdrawn budget allows nothing.
    predicate Room() { pos + (if size < 0 then 0 else size) <= |mem| }
  }

  class Cursor {
    const buf: array<byte>
    var pos: nat
    var size: int

    constructor (buf: array<byte>, pos: nat, size: int)
      ensures this.buf == buf && this.pos == pos && this.size == size
    {
      this.buf := buf;
      this.pos := pos;
      this.size := size;
    }

    ghost function State(): Snap
      reads this, buf
    {
      Snap(buf[..], pos, size)
    }
  }

  // ---------- reading ----------

  // From s to s', a routine read what grammar f finds in the bytes available: the same response
  // code, the same movement of the cursor, the same charge to the budget, and on success the tree.
  ghost predicate Took(f: Fmt, s: Snap, s': Snap, rc: Rc, tree: Tree)
    requires s.Ready()
  {
    s'.mem == s.mem
    && match Parse(f, s.Available())
       case Ok(t, used) => rc == Success && tree == t && s'.pos == s.pos + used && s'.size == s.size - used
       case Fail(e, used, spent) =>
         rc == e && rc != Success && s'.pos == s.pos + used && s'.size == s.size - spent
  }

  // What a routine for a union promises: it reads the member that the selector chooses, or answers
  // SELECTOR, with nothing read, if it chooses none.
  ghost predicate TookMember(chosen: bool, f: Fmt, s: Snap, s': Snap, rc: Rc, tree: Tree)
    requires s.Ready()
  {
    if chosen then Took(f, s, s', rc, tree) else s' == s && rc == Selector
  }

  lemma SliceRest(mem: bytes, pos: nat, size: nat, n: nat)
    requires pos + size <= |mem| && n <= size
    ensures mem[pos..pos + size][n..] == mem[pos + n..pos + size]
  {
  }

  lemma TookRest(f: Fmt, s: Snap, s': Snap, tree: Tree)
    requires s.Ready() && Took(f, s, s', Success, tree)
    ensures s'.Ready() && s'.pos >= s.pos && s'.Available() == s.Available()[s'.pos - s.pos..]
  {
    var n := Parse(f, s.Available()).used;
    SliceRest(s.mem, s.pos, s.size, n);
  }

  // One routine after another, the second only when the first succeeds, reads the pair of their
  // grammars.
  lemma TookSeq(f: Fmt, g: Fmt, s: Snap, s': Snap, s'': Snap, rc: Rc, rc': Rc, t: Tree, u: Tree)
    requires s.Ready() && Took(f, s, s', rc, t)
    requires if rc == Success then s'.Ready() && Took(g, s', s'', rc', u) else s'' == s' && rc' == rc
    ensures Took(Both(f, g), s, s'', rc', Pair(t, u))
  {
    if rc == Success {
      TookRest(f, s, s', t);
    }
  }

  // A number read without a check, and then checked.
  lemma TookChecked(width: nat, rule: Rule, s: Snap, s': Snap, rc: Rc, v: nat)
    requires s.Ready() && Took(Word(width, Any), s, s', rc, Num(width, v)) && Refusal(rule) != Success
    ensures Took(Word(width, rule), s, s', if rc == Success && !Accepts(rule, v) then Refusal(rule) else rc, Num(width, v))
  {
  }

  // A selector and then the arm it selects.
  lemma TookTag(width: nat, rule: Rule, arms: map<nat, Fmt>, tag: nat, s: Snap, s': Snap, s'': Snap,
                rc: Rc, rc': Rc, u: Tree)
    requires s.Ready() && Took(Word(width, rule), s, s', rc, Num(width, tag))
    requires if rc == Success then tag in arms && s'.Ready() && Took(arms[tag], s', s'', rc', u)
             else s'' == s' && rc' == rc
    ensures Took(Tagged(width, rule, arms), s, s'', rc', Tag(width, tag, u))
  {
    if rc == Success {
      TookRest(Word(width, rule), s, s', Num(width, tag));
    }
  }

  // A size and then a structure that has to have that size.
  lemma TookSized(f: Fmt, emptyOk: bool, n: nat, s: Snap, s': Snap, s'': Snap, rc: Rc, t: Tree)
    requires s.Ready() && Took(Word(2, Any), s, s', Success, Num(2, n)) && n > 0
    requires s'.Ready() && Took(f, s', s'', rc, t)
    ensures rc != Success ==> Took(Sized(f, emptyOk), s, s'', rc, Frame(t))
    ensures rc == Success && n != s'.size - s''.size ==> Took(Sized(f, emptyOk), s, s'', Size, Frame(t))
    ensures rc == Success && n == s'.size - s''.size ==>
      Took(Sized(f, emptyOk), s, s'', Success, Frame(t)) && n == |Print(t)|
  {
    TookRest(Word(2, Any), s, s', Num(2, n));
    SizedParsed(f, emptyOk, n, s.Available());
    if rc == Success {
      Canonical(f, s'.Available());
    }
  }

  // ---------- writing ----------

  // How many bytes of t are written within a budget: a number is written whole or not at all, the
  // content of a sized buffer byte by byte, and nothing follows what did not fit.
  function Fit(t: Tree, size: int): (n: nat) {
    match t
    case Unit => 0
    case NoFrame => 0
    case Frame(_) => 0
    case Num(width, _) => if size >= width then width else 0
    case Data(d) => if size < 2 then 0 else Min(2 + |d|, size)
    case Pair(a, b) => Fit(a, size) + Fit(b, size - |Print(a)|)
    case Tag(width, _, arm) => if size < width then 0 else width + Fit(arm, size - width)
  }

  predicate Frameless(t: Tree) {
    match t
    case Pair(a, b) => Frameless(a) && Frameless(b)
    case Tag(_, _, arm) => Frameless(arm)
    case _ => !t.Frame? && !t.NoFrame?
  }

  lemma {:induction false} FitBounds(t: Tree, size: int)
    requires Frameless(t)
    ensures Fit(t, size) <= |Print(t)|
    ensures Fit(t, size) <= (if size < 0 then 0 else size)
    ensures Fit(t, size) == |Print(t)| <==> |Print(t)| <= size || |Print(t)| == 0
  {
    match t
    case Pair(a, b) =>
      FitBounds(a, size);
      FitBounds(b, size - |Print(a)|);
    case Tag(width, _, arm) => FitBounds(arm, size - width);
    case _ =>
  }

  // mem with p written at pos.
  function Splice(mem: bytes, pos: nat, p: bytes): (r: bytes)
    requires pos + |p| <= |mem|
    ensures |r| == |mem|
  {
    mem[..pos] + p + mem[pos + |p|..]
  }

  lemma SpliceTwice(mem: bytes, pos: nat, p: bytes, q: bytes)
    requires pos + |p| + |q| <= |mem|
    ensures Splice(Splice(mem, pos, p), pos + |p|, q) == Splice(mem, pos, p + q)
  {
    var mid := Splice(mem, pos, p);
    assert mid[..pos + |p|] == mem[..pos] + p;
    assert mid[pos + |p| + |q|..] == mem[pos + |p| + |q|..];
  }

  lemma SpliceByte(mem: bytes, pos: nat, p: bytes, b: byte)
    requires pos + |p| < |mem|
    ensures Splice(mem, pos, p)[pos + |p| := b] == Splice(mem, pos, p + [b])
  {
  }

  lemma SpliceNothing(mem: bytes, pos: nat)
    requires pos <= |mem|
    ensures Splice(mem, pos, []) == mem
  {
  }

  // From s to s', a routine wrote t within its budget and left every other byte alone.
  ghost predicate Wrote(t: Tree, s: Snap, s': Snap) {
    var n := Fit(t, s.size);
    n <= |Print(t)|
    && s.pos + n <= |s.mem|
    && s'.pos == s.pos + n
    && s'.size == s.size - |Print(t)|
    && s'.mem == Splice(s.mem, s.pos, Print(t)[..n])
  }

  lemma Prefixes(p: bytes, q: bytes, n: nat, m: nat)
    requires n <= |p| && m <= |q| && (m > 0 ==> n == |p|)
    ensures n + m <= |p + q| && p[..n] + q[..m] == (p + q)[..n + m]
  {
    if m > 0 {
      assert p[..n] == p;
    }
  }

  // What fits of a pair is what fits of its parts.
  lemma FitPair(a: Tree, b: Tree, size: int)
    requires Frameless(a) && Frameless(b)
    ensures var n, m := Fit(a, size), Fit(b, size - |Print(a)|);
      n <= |Print(a)| && m <= |Print(b)| && Fit(Pair(a, b), size) == n + m <= |Print(Pair(a, b))|
      && Print(a)[..n] + Print(b)[..m] == Print(Pair(a, b))[..n + m]
  {
    FitBounds(a, size);
    FitBounds(b, size - |Print(a)|);
    Prefixes(Print(a), Print(b), Fit(a, size), Fit(b, size - |Print(a)|));
  }

  lemma WroteAs(t: Tree, s: Snap, s': Snap, n: nat, p: bytes)
    requires n == Fit(t, s.size) <= |Print(t)| && p == Print(t)[..n] && s.pos + n <= |s.mem|
    requires s' == Snap(Splice(s.mem, s.pos, p), s.pos + n, s.size - |Print(t)|)
    ensures Wrote(t, s, s')
  {
  }

  // Both parts of a pair written one after the other are the pair written.
  lemma WrotePair(a: Tree, b: Tree, s: Snap, s': Snap, s'': Snap)
    requires Frameless(a) && Frameless(b)
    requires Wrote(a, s, s') && Wrote(b, s', s'')
    ensures Wrote(Pair(a, b), s, s'') == true
  {
    FitPair(a, b, s.size);
    var n, m := Fit(a, s.size), Fit(b, s'.size);
    var p, q := Print(a)[..n], Print(b)[..m];
    SplicedBoth(s, s', s'', p, q, |Print(a)|, |Print(b)|);
    WroteAs(Pair(a, b), s, s'', n + m, p + q);
  }

  lemma SplicedBoth(s: Snap, s': Snap, s'': Snap, p: bytes, q: bytes, i: nat, j: nat)
    requires s.pos + |p| <= |s.mem| && s' == Snap(Splice(s.mem, s.pos, p), s.pos + |p|, s.size - i)
    requires s'.pos + |q| <= |s'.mem| && s'' == Snap(Splice(s'.mem, s'.pos, q), s'.pos + |q|, s'.size - j)
    ensures s.pos + |p + q| <= |s.mem|
    ensures s'' == Snap(Splice(s.mem, s.pos, p + q), s.pos + |p + q|, s.size - (i + j))
  {
    SpliceTwice(s.mem, s.pos, p, q);
  }

  lemma WroteUnit(s: Snap)
    requires s.pos <= |s.mem|
    ensures Wrote(Unit, s, s)
  {
    SpliceNothing(s.mem, s.pos);
  }

  // What every marshalling routine promises: t written within the budget, and the length of its
  // encoding, whether or not it fitted, as a UINT16.
  ghost predicate Sent(t: Tree, s: Snap, s': Snap, n: uint16) {
    Frameless(t) && Wrote(t, s, s') && s'.Room() && n == |Print(t)| % 0x1_0000
  }

  lemma SentPair(a: Tree, b: Tree, s: Snap, s': Snap, s'': Snap, n: uint16, m: uint16)
    requires Sent(a, s, s', n) && Sent(b, s', s'', m)
    ensures Sent(Pair(a, b), s, s'', Add16(n, m))
  {
    WrotePair(a, b, s, s', s'');
    Add16Sum(|Print(a)|, |Print(b)|);
  }

  lemma SentTag(width: nat, tag: nat, b: Tree, s: Snap, s': Snap, s'': Snap, n: uint16, m: uint16)
    requires Sent(Num(width, tag), s, s', n) && Sent(b, s', s'', m) && width > 0
    ensures Sent(Tag(width, tag, b), s, s'', Add16(n, m))
  {
    FitBounds(b, s'.size);
    SentPair(Num(width, tag), b, s, s', s'', n, m);
  }

  lemma SentUnit(s: Snap)
    requires s.Room()
    ensures Sent(Unit, s, s, 0)
  {
    WroteUnit(s);
  }

  // Count agreement: when the budget covers the encoding, the movement of the cursor and the charge
  // to the budget are its length, the value returned is that in 16 bits, and the buffer holds the
  // encoding.
  lemma CountAgreement(t: Tree, s: Snap, s': Snap, n: uint16)
    requires Sent(t, s, s', n) && |Print(t)| <= s.size
    ensures s'.pos - s.pos == s.size - s'.size == |Print(t)| && n == |Print(t)| % 0x1_0000
    ensures s'.mem[s.pos..s'.pos] == Print(t)
  {
    FitBounds(t, s.size);
  }

  lemma SentTriple(a: Tree, b: Tree, d: Tree, s: Snap, s1: Snap, s2: Snap, s3: Snap, i: uint16, j: uint16, k: uint16)
    requires Sent(a, s, s1, i) && Sent(b, s1, s2, j) && Sent(d, s2, s3, k)
    ensures Sent(Pair(a, Pair(b, d)), s, s3, Add16(Add16(i, j), k))
  {
    SentPair(b, d, s1, s2, s3, j, k);
    SentPair(a, Pair(b, d), s, s1, s3, i, Add16(j, k));
    Add16Assoc(i, j, k);
  }
}
