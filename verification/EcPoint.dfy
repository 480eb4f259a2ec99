// Public data for ECDH: wrapped into a DER octet string unless it looks like one already (section
// 8.1.3 of X.690).
module EcPoint {
  import opened Bytes

  const OCTET_STRING: byte := 4

  // The size in bytes of a size_t.
  const WIDTH: nat := 8

  // ---------- octet strings ----------

  // The number of bytes it takes to write n.
  function Significant(n: nat): (w: nat)
    ensures n < Pow256(w) && (w > 0 ==> Pow256(w - 1) <= n)
  {
    if n == 0 then 0
    else
      Widened(n);
      1 + Significant(n / 256)
  }

  lemma Widened(n: nat)
    requires n > 0
    ensures forall w: nat :: n / 256 < Pow256(w) ==> n < Pow256(w + 1)
    ensures forall w: nat :: w > 0 && Pow256(w - 1) <= n / 256 ==> Pow256(w) <= n
    ensures n / 256 == 0 ==> Pow256(0) <= n
  {
    forall w: nat | w > 0 && Pow256(w - 1) <= n / 256 ensures Pow256(w) <= n {
      assert Pow256(w) == 256 * Pow256(w - 1);
    }
  }

  function Length(n: nat): bytes
    requires n < Pow256(WIDTH)
  {
    if n < 0x80 then [n] else
      SignificantFits(n);
      [0x80 + Significant(n)] + ToBE(Significant(n), n)
  }

  lemma {:induction false} PowMonotone(v: nat, w: nat)
    requires v <= w
    ensures Pow256(v) <= Pow256(w)
  {
    if v < w {
      PowMonotone(v, w - 1);
    }
  }

  lemma PowOrder(v: nat, w: nat)
    requires Pow256(v) < Pow256(w)
    ensures v < w
  {
    if w <= v {
      PowMonotone(w, v);
    }
  }

  lemma SignificantFits(n: nat)
    requires n < Pow256(WIDTH)
    ensures Significant(n) <= WIDTH
  {
    var w := Significant(n);
    if w > 0 {
      PowOrder(w - 1, WIDTH);
    }
  }

  // The distinguished encoding.
  function Der(d: bytes): bytes
    requires |d| < Pow256(WIDTH)
  {
    [OCTET_STRING] + Length(|d|) + d
  }

  // A definite length at the front of b: its value and the number of bytes it takes.
  function ReadLength(b: bytes): Option<(nat, nat)> {
    if b == [] then None
    else if b[0] < 0x80 then Some((b[0], 1))
    else
      var n := b[0] - 0x80;
      if n == 0 || |b| < 1 + n then None else Some((FromBE(b[1..1 + n]), 1 + n))
  }

  // Reads an octet string that fills b, in any definite form.
  function Decode(b: bytes): Option<bytes> {
    if b == [] || b[0] != OCTET_STRING then None
    else
      match ReadLength(b[1..])
      case None => None
      case Some((n, used)) => if |b| == 1 + used + n then Some(b[1 + used..]) else None
  }

  // No shorter way to write the length exists: the long form is used only for lengths the short form
  // cannot hold, and without leading zeros.
  predicate Minimal(b: bytes) {
    |b| > 1 && (b[1] >= 0x80 ==> |b| > 2 && b[2] != 0 && (b[1] == 0x81 ==> b[2] >= 0x80))
  }

  lemma LengthRead(n: nat, d: bytes)
    requires n < Pow256(WIDTH)
    ensures ReadLength(Length(n) + d) == Some((n, |Length(n)|))
  {
    if n >= 0x80 {
      var w := Significant(n);
      SignificantFits(n);
      FromToBE(w, n);
      assert (Length(n) + d)[1..1 + w] == ToBE(w, n);
    }
  }

  lemma {:induction false} TopByte(w: nat, n: nat)
    requires 0 < w && Pow256(w - 1) <= n < Pow256(w)
    ensures |ToBE(w, n)| == w && ToBE(w, n)[0] > 0 && (w == 1 ==> ToBE(w, n)[0] == n)
    decreases w
  {
    if w == 1 {
      Widths();
      assert ToBE(1, n) == ToBE(0, n / 256) + [n % 256];
    } else {
      assert Pow256(w - 1) == 256 * Pow256(w - 2);
      TopByte(w - 1, n / 256);
    }
  }

  // The distinguished encoding decodes to what was encoded, with the shortest length there is.
  lemma DerDecodes(d: bytes)
    requires |d| < Pow256(WIDTH)
    ensures Decode(Der(d)) == Some(d) && Minimal(Der(d))
  {
    var l := Length(|d|);
    LengthRead(|d|, d);
    assert Der(d)[1..] == l + d;
    assert Der(d)[1 + |l|..] == d;
    if |d| >= 0x80 {
      var w := Significant(|d|);
      SignificantFits(|d|);
      TopByte(w, |d|);
      assert Der(d)[1] == 0x80 + w && Der(d)[2] == ToBE(w, |d|)[0];
    }
  }

  // ---------- the routine ----------

  predicate CurveSize(n: nat) { n == 65 || n == 97 || n == 133 }

  // What ByteString::long_val makes of some length octets: only the first eight count.
  function LongVal(octets: bytes): nat { FromBE(octets[..Min(8, |octets|)]) }

  // What the routine takes for an encoded point.
  predicate Recognised(d: bytes) {
    !CurveSize(|d|) && |d| >= 2 && d[0] == OCTET_STRING
    && if d[1] < 0x80 then d[1] == |d| - 2
       else
         var n := d[1] - 0x80;
         2 + n < |d| && LongVal(d[2..2 + n]) == |d| - 2 - n
  }

  function PublicData(d: bytes): bytes
    requires |d| < Pow256(WIDTH)
  {
    if Recognised(d) then d else Der(d)
  }

  lemma {:induction false} Leading(octets: bytes, n: nat)
    requires n <= |octets|
    ensures FromBE(octets) >= FromBE(octets[..n]) * Pow256(|octets| - n)
    decreases |octets|
  {
    if n == |octets| {
      assert octets[..n] == octets;
    } else {
      var front := octets[..|octets| - 1];
      assert front[..n] == octets[..n];
      Leading(front, n);
      var p := Pow256(|front| - n);
      assert Pow256(|octets| - n) == 256 * p;
      Scaled(FromBE(octets[..n]), p, FromBE(front));
    }
  }

  lemma Scaled(v: nat, p: nat, n: nat)
    requires n >= v * p
    ensures 256 * n >= v * (256 * p)
  {
    assert 256 * (v * p) == v * (256 * p);
  }

  // The length octets past the eighth make a length greater, and they are not looked at.
  lemma LongerLength(octets: bytes)
    requires |octets| > 8 && LongVal(octets) > 0
    ensures FromBE(octets) > LongVal(octets)
  {
    Leading(octets, 8);
    ManyOctets(|octets| - 8);
    Greater(LongVal(octets), Pow256(|octets| - 8), FromBE(octets));
  }

  lemma ManyOctets(k: nat)
    requires k > 0
    ensures Pow256(k) >= 256
  {
    PowMonotone(1, k);
    Widths();
  }

  lemma Greater(v: nat, p: nat, n: nat)
    requires v > 0 && p >= 256 && n >= v * p
    ensures n > v
  {
    assert v * p >= v * 256;
  }

  // What is recognised is an octet string exactly when it has at most eight length octets; and an
  // octet string is recognised exactly when it has, is not of the size of a raw point, and is not an
  // empty one in long form.
  lemma RecognisedExactly(d: bytes)
    ensures Recognised(d) ==> (Decode(d).Some? <==> d[1] <= 0x88)
    ensures Decode(d).Some? ==>
      |d| >= 2
      && (Recognised(d) <==> !CurveSize(|d|) && d[1] <= 0x88 && !(d[1] >= 0x80 && Decode(d).value == []))
  {
    if |d| >= 2 && d[0] == OCTET_STRING && d[1] >= 0x80 {
      var n := d[1] - 0x80;
      assert d[1..][0] == d[1];
      if 2 + n <= |d| {
        var octets := d[2..2 + n];
        assert d[1..][1..1 + n] == octets;
        if n <= 8 {
          assert octets[..Min(8, n)] == octets;
        } else if LongVal(octets) > 0 {
          LongerLength(octets);
        }
      }
    }
  }

  // With nine length octets, the last one is not looked at.
  lemma NineOctets()
    ensures var d := [OCTET_STRING, 0x89] + Zeros(7) + [1, 0] + [0x55];
      Recognised(d) && Decode(d) == None
  {
    var d := [OCTET_STRING, 0x89] + Zeros(7) + [1, 0] + [0x55];
    var octets := d[2..11];
    assert octets == Zeros(7) + [1, 0];
    ZerosValue(7);
    assert octets[..8] == Zeros(7) + [1];
    assert (Zeros(7) + [1])[..7] == Zeros(7);
    assert octets[..8] == (Zeros(7) + [1, 0])[..8];
    assert FromBE(octets[..8]) == 1;
    assert FromBE(octets) == 256;
    assert d[1..][1..10] == octets;
  }

  lemma {:induction false} ZerosValue(n: nat)
    ensures FromBE(Zeros(n)) == 0
  {
    if n > 0 {
      ZerosValue(n - 1);
      assert Zeros(n)[..n - 1] == Zeros(n - 1);
    }
  }

  // An encoding is recognised unless its size is that of a raw point.
  lemma DerRecognised(d: bytes)
    requires |d| < Pow256(WIDTH)
    ensures Recognised(Der(d)) <==> !CurveSize(|Der(d)|)
  {
    DerDecodes(d);
    if |d| >= 0x80 {
      SignificantFits(|d|);
    }
    assert |Der(d)| >= 2 && Der(d)[1] == Length(|d|)[0];
    RecognisedExactly(Der(d));
  }

  // Wrapping again changes nothing exactly when the point is encoded already, or does not have one of
  // the three lengths whose encoding is as long as a raw point.
  lemma IdempotentExactly(d: bytes)
    requires |d| + 2 + WIDTH < Pow256(WIDTH)
    ensures |PublicData(d)| < Pow256(WIDTH)
    ensures PublicData(PublicData(d)) == PublicData(d) <==> Recognised(d) || (|d| != 63 && |d| != 95 && |d| != 130)
  {
    DerLength(d);
    DerRecognised(d);
  }

  lemma DerLength(d: bytes)
    requires |d| < Pow256(WIDTH)
    ensures |Der(d)| <= |d| + 2 + WIDTH
    ensures CurveSize(|Der(d)|) <==> |d| == 63 || |d| == 95 || |d| == 130
  {
    if |d| >= 0x80 {
      var w := Significant(|d|);
      SignificantFits(|d|);
      Widths();
      if |d| < 0x100 {
        PowOrder(w - 1, 1);
      }
    }
  }

  // 63 raw bytes are wrapped into 65, and those again into 67.
  lemma WrappedTwice(d: bytes)
    requires |d| == 63 && d[0] != OCTET_STRING
    ensures 67 < Pow256(WIDTH) && |PublicData(d)| == 65 && |PublicData(PublicData(d))| == 67
  {
    Widths();
    PowMonotone(1, WIDTH);
  }

  lemma {:induction false} ShiftedByte(n: nat, w: nat)
    ensures n / Pow256(w) % 256 == 0 && n < Pow256(w + 1) ==> n < Pow256(w)
    ensures n / Pow256(w) % 256 != 0 ==> n >= Pow256(w)
  {
    if n / Pow256(w) % 256 == 0 && n < Pow256(w + 1) {
      assert Pow256(w + 1) == 256 * Pow256(w);
      Quotient(n, Pow256(w));
    }
    if n < Pow256(w) {
      assert n / Pow256(w) == 0 by { Quotient(n, Pow256(w)); }
    }
  }

  lemma Quotient(n: nat, p: nat)
    requires p > 0
    ensures n < p ==> n / p == 0
    ensures n < 256 * p ==> n / p < 256
    ensures n / p == 0 ==> n < p
  {
    var q := n / p;
    assert n == p * q + n % p;
    if q >= 256 {
      assert p * q >= p * 256;
    }
    if q >= 1 {
      assert p * q >= p;
    }
  }

  lemma IsSignificant(n: nat, w: nat)
    requires n < Pow256(w) && (w > 0 ==> Pow256(w - 1) <= n)
    ensures w == Significant(n)
  {
    var v := Significant(n);
    if v > 0 {
      PowOrder(v - 1, w);
    }
    if w > 0 {
      PowOrder(w - 1, v);
    }
  }

  // The count of significant bytes, from the most significant one down.
  method CountSignificant(len: nat) returns (w: nat)
    requires 0 < len < Pow256(WIDTH)
    ensures w == Significant(len)
  {
    w := WIDTH;
    while w > 0
      invariant 0 <= w <= WIDTH && len < Pow256(w)
    {
      ShiftedByte(len, w - 1);
      var value := len / Pow256(w - 1);
      if value % 256 != 0 {
        break;
      }
      w := w - 1;
    }
    IsSignificant(len, w);
  }

  // The number of octets before the content, or 0 for a raw point.
  method ControlOctets(pubData: bytes) returns (controlOctets: nat)
    ensures controlOctets != 0 <==> Recognised(pubData)
  {
    var len := |pubData|;
    controlOctets := 2;
    if len == 65 || len == 97 || len == 133 {
      controlOctets := 0;
    } else if len < controlOctets || pubData[0] != 0x04 {
      controlOctets := 0;
    } else if pubData[1] < 0x80 {
      if pubData[1] != len - controlOctets {
        controlOctets := 0;
      }
    } else {
      var lengthOctets := pubData[1] - 0x80;
      controlOctets := controlOctets + lengthOctets;
      if controlOctets >= len {
        controlOctets := 0;
      } else if LongVal(pubData[2..2 + lengthOctets]) != len - controlOctets {
        controlOctets := 0;
      }
    }
  }

  method GetECDHPubData(pubData: bytes) returns (out: bytes)
    requires |pubData| < Pow256(WIDTH)
    ensures out == PublicData(pubData)
  {
    var controlOctets := ControlOctets(pubData);
    if controlOctets != 0 {
      return pubData;
    }
    var header: bytes;
    if |pubData| < 0x80 {
      header := [OCTET_STRING, |pubData|];
    } else {
      header := LongHeader(|pubData|);
    }
    assert header == [OCTET_STRING] + Length(|pubData|);
    out := header + pubData;
  }

  lemma LastOctet(k: nat, n: nat, octets: bytes)
    ensures ToBE(k + 1, n) + octets == ToBE(k, n / 256) + ([n % 256] + octets)
  {
    assert ToBE(k + 1, n) == ToBE(k, n / 256) + [n % 256];
  }

  // The length octets are filled in from the last one back.
  method LongHeader(len: nat) returns (header: bytes)
    requires 0x80 <= len < Pow256(WIDTH)
    ensures header == [OCTET_STRING] + Length(len)
  {
    var w := CountSignificant(len);
    SignificantFits(len);
    var octets := LengthOctets(w, len);
    header := [OCTET_STRING, 0x80 + w] + octets;
    assert header == [OCTET_STRING] + ([0x80 + w] + octets);
  }

  method LengthOctets(w: nat, len: nat) returns (octets: bytes)
    ensures octets == ToBE(w, len)
  {
    octets := [];
    var rest, k := len, w;
    while k > 0
      invariant ToBE(w, len) == ToBE(k, rest) + octets
    {
      LastOctet(k - 1, rest, octets);
      octets := [rest % 256] + octets;
      rest := rest / 256;
      k := k - 1;
    }
  }
}
