// The wire format of TPM 2.0 structures as a grammar, with one parser, one printer, and the
// laws that relate them for every grammar. The unmarshalling and marshalling routines of
// Marshal.dfy are proved against Parse and Print.
module WireGrammar {
  import opened Bytes

  // TPM response codes the routines return.
  datatype Rc =
    | Success | Insufficient | Size | Selector | Value | Hash | Symmetric | Mode
    | Kdf | Scheme | Curve | Type | ReservedBits

  // What a routine checks about an integer it has read.
  datatype Rule =
    | Any
    | OneOf(allowed: set<nat>, rc: Rc)
    | Within(low: nat, high: nat, rc: Rc)
    | NoBits(mask: bv32)

  predicate Accepts(rule: Rule, n: nat) {
    match rule
    case Any => true
    case OneOf(allowed, _) => n in allowed
    case Within(low, high, _) => low <= n <= high
    case NoBits(mask) => n < 0x1_0000_0000 && (n as bv32) & mask == 0
  }

  function Refusal(rule: Rule): (rc: Rc) {
    match rule
    case Any => Value
    case OneOf(_, rc) => rc
    case Within(_, _, rc) => rc
    case NoBits(_) => ReservedBits
  }

  datatype Fmt =
    | Nothing
    | Word(width: nat, rule: Rule)             // a big-endian integer
    | Blob(limit: nat)                         // TPM2B: UINT16 size, then that many bytes
    | Both(first: Fmt, second: Fmt)
    | Tagged(width: nat, rule: Rule, arms: map<nat, Fmt>)  // a selector or count, then the arm it selects
    | Sized(body: Fmt, emptyOk: bool)          // UINT16 size, then a structure of that size

  // The same grammar n times.
  function Rep(n: nat, f: Fmt): Fmt {
    if n == 0 then Nothing else Both(Rep(n - 1, f), f)
  }

  datatype Tree =
    | Unit
    | Num(width: nat, n: nat)
    | Data(d: bytes)
    | Pair(a: Tree, b: Tree)
    | Tag(width: nat, tag: nat, arm: Tree)
    | Frame(content: Tree)
    | NoFrame

  // ---------- parsing ----------

  // On failure the cursor has moved by `used` and the budget has dropped by `spent`: a primitive
  // that finds too few bytes takes its width from the budget without moving the cursor.
  datatype Outcome =
    | Ok(tree: Tree, used: nat)
    | Fail(rc: Rc, used: nat, spent: nat)

  function ParseWord(width: nat, rule: Rule, b: bytes): Outcome {
    if |b| < width then Fail(Insufficient, 0, width)
    else
      var n := FromBE(b[..width]);
      if Accepts(rule, n) then Ok(Num(width, n), width) else Fail(Refusal(rule), width, width)
  }

  function ParseBlob(limit: nat, b: bytes): Outcome {
    match ParseWord(2, Any, b)
    case Fail(rc, used, spent) => Fail(rc, used, spent)
    case Ok(t, _) =>
      if t.n == 0 then Ok(Data([]), 2)
      else if t.n > limit then Fail(Size, 2, 2)
      else if |b| < 2 + t.n then Fail(Insufficient, |b|, |b| + 1)
      else Ok(Data(b[2..2 + t.n]), 2 + t.n)
  }

  function Parse(f: Fmt, b: bytes): (o: Outcome)
    ensures o.used <= |b|
  {
    match f
    case Nothing => Ok(Unit, 0)
    case Word(width, rule) => ParseWord(width, rule, b)
    case Blob(limit) => ParseBlob(limit, b)
    case Both(first, second) =>
      (match Parse(first, b)
       case Fail(rc, used, spent) => Fail(rc, used, spent)
       case Ok(t, n) =>
         match Parse(second, b[n..])
         case Fail(rc, used, spent) => Fail(rc, n + used, n + spent)
         case Ok(u, m) => Ok(Pair(t, u), n + m))
    case Tagged(width, rule, arms) =>
      (match ParseWord(width, rule, b)
       case Fail(rc, used, spent) => Fail(rc, used, spent)
       case Ok(t, _) =>
         if t.n !in arms then Fail(Selector, width, width)
         else
           match Parse(arms[t.n], b[width..])
           case Fail(rc, used, spent) => Fail(rc, width + used, width + spent)
           case Ok(u, m) => Ok(Tag(width, t.n, u), width + m))
    case Sized(body, emptyOk) =>
      (match ParseWord(2, Any, b)
       case Fail(rc, used, spent) => Fail(rc, used, spent)
       case Ok(t, _) =>
         if t.n == 0 then if emptyOk then Ok(NoFrame, 2) else Fail(Size, 2, 2)
         else
           match Parse(body, b[2..])
           case Fail(rc, used, spent) => Fail(rc, 2 + used, 2 + spent)
           case Ok(u, m) => if m == t.n then Ok(Frame(u), 2 + m) else Fail(Size, 2 + m, 2 + m))
  }

  // ---------- printing ----------

  function Print(t: Tree): bytes {
    match t
    case Unit => []
    case NoFrame => ToBE(2, 0)
    case Num(width, n) => ToBE(width, n)
    case Data(d) => ToBE(2, |d|) + d
    case Pair(a, b) => Print(a) + Print(b)
    case Tag(width, tag, arm) => ToBE(width, tag) + Print(arm)
    case Frame(content) => ToBE(2, |Print(content)|) + Print(content)
  }

  // The trees that belong to a grammar.
  predicate Conforms(f: Fmt, t: Tree) {
    match f
    case Nothing => t == Unit
    case Word(width, rule) => t.Num? && t.width == width && t.n < Pow256(width) && Accepts(rule, t.n)
    case Blob(limit) => t.Data? && |t.d| <= limit && |t.d| < 0x1_0000
    case Both(first, second) => t.Pair? && Conforms(first, t.a) && Conforms(second, t.b)
    case Tagged(width, rule, arms) =>
      t.Tag? && t.width == width && t.tag < Pow256(width) && Accepts(rule, t.tag)
      && t.tag in arms && Conforms(arms[t.tag], t.arm)
    case Sized(body, emptyOk) =>
      (t.NoFrame? && emptyOk)
      || (t.Frame? && Conforms(body, t.content) && 0 < |Print(t.content)| < 0x1_0000)
  }

  // ---------- laws ----------

  lemma WordParsed(width: nat, n: nat, rule: Rule, b: bytes)
    requires n < Pow256(width) && Accepts(rule, n) && ToBE(width, n) <= b
    ensures ParseWord(width, rule, b) == Ok(Num(width, n), width)
  {
    FromToBE(width, n);
    assert b[..width] == ToBE(width, n);
  }

  // What each grammar with parts makes of what its parts make.
  lemma BothParsed(first: Fmt, second: Fmt, b: bytes, x: Tree, n: nat, y: Tree, m: nat)
    requires Parse(first, b) == Ok(x, n) && n <= |b|
    requires Parse(second, b[n..]) == Ok(y, m)
    ensures Parse(Both(first, second), b) == Ok(Pair(x, y), n + m)
  {
  }

  lemma TaggedParsed(width: nat, rule: Rule, arms: map<nat, Fmt>, tag: nat, b: bytes, y: Tree, m: nat)
    requires ParseWord(width, rule, b) == Ok(Num(width, tag), width) && |b| >= width && tag in arms
    requires Parse(arms[tag], b[width..]) == Ok(y, m)
    ensures Parse(Tagged(width, rule, arms), b) == Ok(Tag(width, tag, y), width + m)
  {
  }

  lemma SizedParsed(f: Fmt, emptyOk: bool, n: nat, b: bytes)
    requires ParseWord(2, Any, b) == Ok(Num(2, n), 2) && n > 0
    ensures Parse(Sized(f, emptyOk), b) ==
      match Parse(f, b[2..])
      case Fail(rc, used, spent) => Fail(rc, 2 + used, 2 + spent)
      case Ok(t, used) => if used == n then Ok(Frame(t), 2 + used) else Fail(Size, 2 + used, 2 + used)
  {
  }

  // Both parts of a concatenation b begins with.
  lemma Parts(b: bytes, p: bytes, q: bytes)
    requires p + q <= b
    ensures p <= b && q <= b[|p|..]
  {
    assert b[..|p|] == (p + q)[..|p|];
  }

  lemma BlobAfterSize(limit: nat, d: bytes, b: bytes)
    requires |d| <= limit && |b| >= 2 && d <= b[2..]
    requires ParseWord(2, Any, b) == Ok(Num(2, |d|), 2)
    ensures ParseBlob(limit, b) == Ok(Data(d), 2 + |d|)
  {
    assert b[2..2 + |d|] == d;
  }

  lemma BlobParsed(limit: nat, d: bytes, b: bytes)
    requires |d| <= limit && |d| < 0x1_0000 && ToBE(2, |d|) + d <= b
    ensures ParseBlob(limit, b) == Ok(Data(d), 2 + |d|)
  {
    Parts(b, ToBE(2, |d|), d);
    Widths();
    WordParsed(2, |d|, Any, b);
    BlobAfterSize(limit, d, b);
  }

  // Tree t is read from b, which begins with its encoding.
  ghost predicate Reads(f: Fmt, t: Tree, b: bytes) { Parse(f, b) == Ok(t, |Print(t)|) }

  predicate Begins(b: bytes, t: Tree) { Print(t) <= b }

  lemma UnitRead(b: bytes)
    ensures Reads(Nothing, Unit, b) == true
  {
  }

  lemma WordRead(f: Fmt, t: Tree, b: bytes)
    requires f.Word? && Conforms(f, t) && Begins(b, t)
    ensures Reads(f, t, b) == true
  {
    WordParsed(f.width, t.n, f.rule, b);
  }

  lemma BlobRead(f: Fmt, t: Tree, b: bytes)
    requires f.Blob? && Conforms(f, t) && Begins(b, t)
    ensures Reads(f, t, b) == true
  {
    BlobParsed(f.limit, t.d, b);
  }

  lemma {:induction false} BothRead(f: Fmt, t: Tree, b: bytes)
    requires f.Both? && Conforms(f, t) && Begins(b, t)
    ensures Reads(f, t, b) == true
    decreases f, 0
  {
    var x, y := t.a, t.b;
    var n, m := |Print(x)|, |Print(y)|;
    Parts(b, Print(x), Print(y));
    ReadsFrom(f.first, x, b);
    ReadsFrom(f.second, y, b[n..]);
    BothParsed(f.first, f.second, b, x, n, y, m);
  }

  lemma {:induction false} TaggedRead(f: Fmt, t: Tree, b: bytes)
    requires f.Tagged? && Conforms(f, t) && Begins(b, t)
    ensures Reads(f, t, b) == true
    decreases f, 0
  {
    Parts(b, ToBE(f.width, t.tag), Print(t.arm));
    WordParsed(f.width, t.tag, f.rule, b);
    ReadsFrom(f.arms[t.tag], t.arm, b[f.width..]);
    TaggedParsed(f.width, f.rule, f.arms, t.tag, b, t.arm, |Print(t.arm)|);
  }

  lemma NoFrameRead(body: Fmt, b: bytes)
    requires Begins(b, NoFrame)
    ensures Reads(Sized(body, true), NoFrame, b) == true
  {
    Widths();
    WordParsed(2, 0, Any, b);
  }

  lemma {:induction false} FrameRead(f: Fmt, t: Tree, b: bytes)
    requires f.Sized? && t.Frame? && Conforms(f, t) && Begins(b, t)
    ensures Reads(f, t, b) == true
    decreases f, 0
  {
    var n := |Print(t.content)|;
    Parts(b, ToBE(2, n), Print(t.content));
    Widths();
    WordParsed(2, n, Any, b);
    ReadsFrom(f.body, t.content, b[2..]);
    SizedParsed(f.body, f.emptyOk, n, b);
  }

  lemma {:induction false} ReadsFrom(f: Fmt, t: Tree, b: bytes)
    requires Conforms(f, t) && Begins(b, t)
    ensures Reads(f, t, b) == true
    decreases f, 1
  {
    match f
    case Nothing => UnitRead(b);
    case Word(_, _) => WordRead(f, t, b);
    case Blob(_) => BlobRead(f, t, b);
    case Both(_, _) => BothRead(f, t, b);
    case Tagged(_, _, _) => TaggedRead(f, t, b);
    case Sized(body, _) =>
      if t.NoFrame? {
        NoFrameRead(body, b);
      } else {
        FrameRead(f, t, b);
      }
  }

  // A conforming tree is read back from any bytes that begin with its encoding.
  lemma ParsedFrom(f: Fmt, t: Tree, b: bytes)
    requires Conforms(f, t) && Print(t) <= b
    ensures Parse(f, b) == Ok(t, |Print(t)|)
  {
    ReadsFrom(f, t, b);
  }

  // Self-delimiting round trip: a conforming tree is read back from its encoding, whatever
  // follows, and the cursor stops exactly at what follows.
  lemma RoundTrip(f: Fmt, t: Tree, r: bytes)
    requires Conforms(f, t)
    ensures Parse(f, Print(t) + r) == Ok(t, |Print(t)|)
  {
    ParsedFrom(f, t, Print(t) + r);
  }

  lemma ParsedWord(width: nat, rule: Rule, b: bytes)
    requires ParseWord(width, rule, b).Ok?
    ensures var o := ParseWord(width, rule, b);
      o.used == width <= |b| && o.tree.Num? && o.tree.width == width
      && o.tree.n < Pow256(width) && ToBE(width, o.tree.n) == b[..width] && Accepts(rule, o.tree.n)
  {
    ToFromBE(b[..width]);
  }

  lemma Glue(b: bytes, i: nat, j: nat)
    requires i + j <= |b|
    ensures b[..i] + b[i..][..j] == b[..i + j]
  {
  }

  // What f accepts at the front of b conforms, and prints back to the bytes consumed.
  ghost predicate Faithful(f: Fmt, b: bytes) {
    var o := Parse(f, b);
    o.Ok? ==> Conforms(f, o.tree) && Print(o.tree) == b[..o.used]
  }

  lemma CanonicalBlob(limit: nat, b: bytes)
    ensures Faithful(Blob(limit), b)
  {
    if ParseBlob(limit, b).Ok? {
      Widths();
      ParsedWord(2, Any, b);
      var n := ParseBlob(limit, b).used - 2;
      Glue(b, 2, n);
      assert b[2..][..n] == b[2..2 + n];
    }
  }

  lemma {:induction false} CanonicalBoth(first: Fmt, second: Fmt, b: bytes)
    ensures Faithful(Both(first, second), b)
    decreases Both(first, second), 0
  {
    if Parse(Both(first, second), b).Ok? {
      var n := Parse(first, b).used;
      Canonical(first, b);
      Canonical(second, b[n..]);
      Glue(b, n, Parse(second, b[n..]).used);
    }
  }

  lemma {:induction false} CanonicalTagged(width: nat, rule: Rule, arms: map<nat, Fmt>, b: bytes)
    ensures Faithful(Tagged(width, rule, arms), b)
    decreases Tagged(width, rule, arms), 0
  {
    if Parse(Tagged(width, rule, arms), b).Ok? {
      ParsedWord(width, rule, b);
      var tag := ParseWord(width, rule, b).tree.n;
      Canonical(arms[tag], b[width..]);
      Glue(b, width, Parse(arms[tag], b[width..]).used);
    }
  }

  lemma SizedFaithful(body: Fmt, emptyOk: bool, b: bytes, n: nat)
    requires ParseWord(2, Any, b) == Ok(Num(2, n), 2) && 0 < n < 0x1_0000 && |b| >= 2 && ToBE(2, n) == b[..2]
    requires Faithful(body, b[2..])
    ensures Faithful(Sized(body, emptyOk), b)
  {
    SizedParsed(body, emptyOk, n, b);
    Glue(b, 2, Parse(body, b[2..]).used);
  }

  lemma {:induction false} CanonicalSized(body: Fmt, emptyOk: bool, b: bytes)
    ensures Faithful(Sized(body, emptyOk), b) == true
    decreases Sized(body, emptyOk), 0
  {
    var w := ParseWord(2, Any, b);
    if w.Ok? {
      Widths();
      ParsedWord(2, Any, b);
      if w.tree.n > 0 {
        Canonical(body, b[2..]);
        SizedFaithful(body, emptyOk, b, w.tree.n);
      }
    }
  }

  // Canonical form: whatever is accepted conforms, and prints back to exactly the bytes consumed.
  lemma {:induction false} Canonical(f: Fmt, b: bytes)
    ensures Faithful(f, b)
    decreases f, 1
  {
    match f
    case Nothing =>
    case Word(width, rule) =>
      if Parse(f, b).Ok? {
        ParsedWord(width, rule, b);
      }
    case Blob(limit) => CanonicalBlob(limit, b);
    case Both(first, second) => CanonicalBoth(first, second, b);
    case Tagged(width, rule, arms) => CanonicalTagged(width, rule, arms, b);
    case Sized(body, emptyOk) => CanonicalSized(body, emptyOk, b);
  }

  // The two laws together: acceptance is exactly being the encoding of a conforming tree.
  lemma AcceptedExactly(f: Fmt, b: bytes, t: Tree, n: nat)
    ensures Parse(f, b) == Ok(t, n)
      <==> Conforms(f, t) && n <= |b| && b[..n] == Print(t)
  {
    if Parse(f, b) == Ok(t, n) {
      Canonical(f, b);
    }
    if Conforms(f, t) && n <= |b| && b[..n] == Print(t) {
      ParsedFrom(f, t, b);
    }
  }

  // No encoding is a proper prefix of another.
  lemma PrefixFree(f: Fmt, t: Tree, u: Tree)
    requires Conforms(f, t) && Conforms(f, u)
    ensures Print(t) <= Print(u) ==> t == u
  {
    if Print(t) <= Print(u) {
      ParsedFrom(f, t, Print(u));
      ParsedFrom(f, u, Print(u));
    }
  }

  lemma PrefixCut(b: bytes, n: nat, k: nat)
    requires n <= k <= |b|
    ensures b[..n] <= b[..k]
  {
  }

  // Bytes beyond an accepted encoding do not change the result.
  lemma Shortened(f: Fmt, b: bytes, k: nat)
    requires Parse(f, b).Ok? && Parse(f, b).used <= k <= |b|
    ensures Parse(f, b[..k]) == Parse(f, b)
  {
    var o := Parse(f, b);
    Canonical(f, b);
    PrefixCut(b, o.used, k);
    ParsedFrom(f, o.tree, b[..k]);
  }

  ghost predicate RunsOut(f: Fmt, b: bytes) {
    Parse(f, b).Fail? && Parse(f, b).rc == Insufficient
  }

  lemma {:induction false} TruncatedBoth(first: Fmt, second: Fmt, b: bytes, k: nat)
    requires Parse(Both(first, second), b).Ok? && k < Parse(Both(first, second), b).used
    ensures RunsOut(Both(first, second), b[..k])
    decreases Both(first, second), 0
  {
    var n := Parse(first, b).used;
    if k < n {
      Truncated(first, b, k);
    } else {
      Shortened(first, b, k);
      Truncated(second, b[n..], k - n);
      assert b[..k][n..] == b[n..][..k - n];
    }
  }

  lemma {:induction false} TruncatedTagged(width: nat, rule: Rule, arms: map<nat, Fmt>, b: bytes, k: nat)
    requires Parse(Tagged(width, rule, arms), b).Ok? && k < Parse(Tagged(width, rule, arms), b).used
    ensures RunsOut(Tagged(width, rule, arms), b[..k])
    decreases Tagged(width, rule, arms), 0
  {
    if k >= width {
      assert b[..k][..width] == b[..width];
      assert b[..k][width..] == b[width..][..k - width];
      Truncated(arms[FromBE(b[..width])], b[width..], k - width);
    }
  }

  lemma {:induction false} TruncatedSized(body: Fmt, emptyOk: bool, b: bytes, k: nat)
    requires Parse(Sized(body, emptyOk), b).Ok? && k < Parse(Sized(body, emptyOk), b).used
    ensures RunsOut(Sized(body, emptyOk), b[..k])
    decreases Sized(body, emptyOk), 0
  {
    if k >= 2 {
      assert b[..k][..2] == b[..2];
      assert b[..k][2..] == b[2..][..k - 2];
      Truncated(body, b[2..], k - 2);
    }
  }

  // Truncation: every proper prefix of an accepted encoding runs out of bytes, and no other
  // error is reported.
  lemma {:induction false} Truncated(f: Fmt, b: bytes, k: nat)
    requires Parse(f, b).Ok? && k < Parse(f, b).used
    ensures RunsOut(f, b[..k]) == true
    decreases f, 1
  {
    match f
    case Nothing =>
    case Word(_, _) =>
    case Blob(_) =>
      if k >= 2 {
        assert b[..k][..2] == b[..2];
      }
    case Both(first, second) => TruncatedBoth(first, second, b, k);
    case Tagged(width, rule, arms) => TruncatedTagged(width, rule, arms, b, k);
    case Sized(body, emptyOk) => TruncatedSized(body, emptyOk, b, k);
  }

  // Budget: the cursor never moves past the bytes available; the budget drops by what the cursor
  // moved, plus the width of the one primitive that ran out. So the remaining budget is negative
  // exactly when the routine reports that bytes are missing.
  lemma {:induction false} Budget(f: Fmt, b: bytes)
    requires Narrow(f)
    ensures var o := Parse(f, b);
      o.used <= |b|
      && (o.Fail? ==> o.used <= o.spent <= o.used + 4)
      && (o.Fail? ==> (o.rc == Insufficient <==> o.spent > |b|))
      && (o.Fail? && o.rc != Insufficient ==> o.spent == o.used)
  {
    match f
    case Nothing =>
    case Word(width, rule) =>
    case Blob(limit) =>
    case Both(first, second) =>
      Budget(first, b);
      if Parse(first, b).Ok? {
        Budget(second, b[Parse(first, b).used..]);
      }
    case Tagged(width, rule, arms) =>
      var o := ParseWord(width, rule, b);
      if o.Ok? && o.tree.n in arms {
        Budget(arms[o.tree.n], b[width..]);
      }
    case Sized(body, emptyOk) =>
      if |b| >= 2 {
        Budget(body, b[2..]);
      }
  }

  // Grammars built from the three integer widths the codec has, whose own checks do not use the
  // code reserved for missing bytes.
  predicate Narrow(f: Fmt) {
    match f
    case Nothing => true
    case Word(width, rule) => 0 < width <= 4 && Refusal(rule) != Insufficient
    case Blob(_) => true
    case Both(first, second) => Narrow(first) && Narrow(second)
    case Tagged(width, rule, arms) =>
      0 < width <= 4 && Refusal(rule) != Insufficient && forall k :: k in arms ==> Narrow(arms[k])
    case Sized(body, _) => Narrow(body)
  }
}
