// What the unmarshalling and marshalling routines promise each other, for public and sensitive
// areas. `Took` is what every unmarshalling routine ensures, `Sent` what every marshalling one does.
module Codec {
  import opened Bytes
  import opened WireGrammar
  import opened TpmTypes
  import opened Cursors
  import opened Converters

  // ---------- there and back ----------

  // Marshalled with room enough, whatever follows in the buffer: unmarshalling from the same place
  // gives the same structure and stops exactly where marshalling stopped.
  lemma PublicThereAndBack(cfg: Config, flag: bool, x: TpmtPublic, s: Snap, s1: Snap, n: uint16,
                           s2: Snap, s3: Snap, rc: Rc, y: TpmtPublic)
    requires WellFormedPublic(cfg, flag, x)
    requires Sent(PublicTree(cfg, x), s, s1, n) && |EncodePublic(cfg, x)| <= s.size
    requires s2.mem == s1.mem && s2.pos == s.pos && s2.Ready() && |EncodePublic(cfg, x)| <= s2.size
    requires Took(PublicFmt(cfg, flag), s2, s3, rc, PublicTree(cfg, y)) && (rc == Success ==> CleanPublic(cfg, y))
    ensures rc == Success && y == x && s3.pos == s1.pos
  {
    WrittenInFull(PublicTree(cfg, x), s, s1, n);
    ReadBack(PublicFmt(cfg, flag), PublicTree(cfg, x), s2, s3, rc, PublicTree(cfg, y));
    CountAgreement(PublicTree(cfg, x), s, s1, n);
    PublicParts(cfg, flag, x);
    PublicTreeInjective(cfg, x, y);
  }

  lemma SensitiveThereAndBack(cfg: Config, x: TpmtSensitive, s: Snap, s1: Snap, n: uint16,
                              s2: Snap, s3: Snap, rc: Rc, y: TpmtSensitive)
    requires WellFormedSensitive(cfg, x)
    requires Sent(SensitiveTree(cfg, x), s, s1, n) && |EncodeSensitive(cfg, x)| <= s.size
    requires s2.mem == s1.mem && s2.pos == s.pos && s2.Ready() && |EncodeSensitive(cfg, x)| <= s2.size
    requires Took(SensitiveFmt(cfg), s2, s3, rc, SensitiveTree(cfg, y))
    ensures rc == Success && y == x && s3.pos == s1.pos
  {
    WrittenInFull(SensitiveTree(cfg, x), s, s1, n);
    ReadBack(SensitiveFmt(cfg), SensitiveTree(cfg, x), s2, s3, rc, SensitiveTree(cfg, y));
    CountAgreement(SensitiveTree(cfg, x), s, s1, n);
    SensitiveParts(cfg, x);
    SensitiveTreeInjective(cfg, x, y);
  }

  // ---------- back and there ----------

  // Whatever unmarshalling accepts is well formed, and its encoding is exactly the bytes consumed,
  // for the sized form with the size recomputed.
  lemma PublicBackAndThere(cfg: Config, flag: bool, s: Snap, s1: Snap, x: TpmtPublic)
    requires s.Ready() && Took(PublicFmt(cfg, flag), s, s1, Success, PublicTree(cfg, x)) && CleanPublic(cfg, x)
    ensures WellFormedPublic(cfg, flag, x) == true
    ensures s.pos <= s1.pos <= |s.mem| && EncodePublic(cfg, x) == s.mem[s.pos..s1.pos]
  {
    Canonical(PublicFmt(cfg, flag), s.Available());
    Consumed(s, s1.pos - s.pos);
  }

  lemma Public2BBackAndThere(cfg: Config, flag: bool, s: Snap, s1: Snap, x: TpmtPublic)
    requires s.Ready() && Took(Public2BFmt(cfg, flag), s, s1, Success, Frame(PublicTree(cfg, x))) && CleanPublic(cfg, x)
    ensures WellFormedPublic(cfg, flag, x) == true
    ensures s.pos <= s1.pos <= |s.mem|
    ensures ToBE(2, |EncodePublic(cfg, x)|) + EncodePublic(cfg, x) == s.mem[s.pos..s1.pos]
  {
    Canonical(Public2BFmt(cfg, flag), s.Available());
    Consumed(s, s1.pos - s.pos);
  }

  lemma SensitiveBackAndThere(cfg: Config, s: Snap, s1: Snap, x: TpmtSensitive)
    requires s.Ready() && Took(SensitiveFmt(cfg), s, s1, Success, SensitiveTree(cfg, x))
    ensures WellFormedSensitive(cfg, x) == true
    ensures s.pos <= s1.pos <= |s.mem| && EncodeSensitive(cfg, x) == s.mem[s.pos..s1.pos]
  {
    Canonical(SensitiveFmt(cfg), s.Available());
    Consumed(s, s1.pos - s.pos);
  }

  lemma Consumed(s: Snap, n: nat)
    requires s.Ready() && n <= s.size
    ensures s.Available()[..n] == s.mem[s.pos..s.pos + n]
  {
  }

  // ---------- running out ----------

  // An encoding cut short gives TPM_RC_INSUFFICIENT and no other error.
  lemma CutShort(f: Fmt, t: Tree, s: Snap, s1: Snap, rc: Rc, u: Tree)
    requires Conforms(f, t) && s.Ready() && s.size < |Print(t)| && s.Available() == Print(t)[..s.size]
    requires Took(f, s, s1, rc, u)
    ensures rc == Insufficient
  {
    RoundTrip(f, t, []);
    assert Print(t) + [] == Print(t);
    Truncated(f, Print(t), s.size);
  }

  // On every outcome the cursor has advanced by at most the initial budget, and the budget has gone
  // negative exactly when bytes are missing.
  lemma WithinBudget(f: Fmt, s: Snap, s1: Snap, rc: Rc, u: Tree)
    requires Narrow(f) && s.Ready() && Took(f, s, s1, rc, u)
    ensures s.pos <= s1.pos <= s.pos + s.size
    ensures s1.size < 0 <==> rc == Insufficient
  {
    Budget(f, s.Available());
  }

  lemma NarrowBoth(f: Fmt, g: Fmt)
    requires Narrow(f) && Narrow(g)
    ensures Narrow(Both(f, g))
  {
  }

  lemma NarrowTagged(rule: Rule, arms: map<nat, Fmt>)
    requires Refusal(rule) != Insufficient && forall k :: k in arms ==> Narrow(arms[k])
    ensures Narrow(Tagged(2, rule, arms))
  {
  }

  lemma SymNarrow(cfg: Config, flag: bool)
    ensures Narrow(SymDefFmt(cfg, flag)) == true
  {
    forall a ensures Narrow(Both(Word(2, SymKeyBits(a)), Word(2, SymMode(cfg)))) {
      NarrowBoth(Word(2, SymKeyBits(a)), Word(2, SymMode(cfg)));
    }
    NarrowTagged(SymObject(cfg, flag), SymDefFmt(cfg, flag).arms);
  }

  lemma KdfNarrow(cfg: Config)
    ensures Narrow(KdfSchemeFmt(cfg)) == true
  {
    assert Narrow(Word(2, HashAlg(cfg, false)));
    NarrowTagged(KdfAlg(cfg), KdfSchemeFmt(cfg).arms);
  }

  lemma AsymNarrow(cfg: Config)
    ensures Narrow(RsaSchemeFmt(cfg)) == true && Narrow(EccSchemeFmt(cfg)) == true
  {
    forall scheme ensures Narrow(AsymDetailsFmt(cfg, scheme)) {
      NarrowBoth(Word(2, HashAlg(cfg, false)), Word(2, Any));
    }
    NarrowTagged(RsaSchemeAlg(cfg), AsymArms(cfg));
    NarrowTagged(EccSchemeAlg(cfg), AsymArms(cfg));
  }

  lemma KeyedHashNarrow(cfg: Config)
    ensures Narrow(KeyedHashFmt(cfg)) == true
  {
    forall scheme ensures Narrow(KeyedHashDetailsFmt(cfg, scheme)) {
      NarrowBoth(Word(2, HashAlg(cfg, true)), Word(2, KdfAlg(cfg)));
    }
    NarrowTagged(KeyedHashSchemeAlg(cfg), KeyedHashFmt(cfg).arms);
  }

  lemma NarrowFour(f: Fmt, g: Fmt, h: Fmt, k: Fmt)
    requires Narrow(f) && Narrow(g) && Narrow(h) && Narrow(k)
    ensures Narrow(Both(f, Both(g, Both(h, k))))
  {
    NarrowBoth(h, k);
    NarrowBoth(g, Both(h, k));
  }

  lemma RsaNarrow(cfg: Config)
    ensures Narrow(RsaParmsFmt(cfg)) == true
  {
    SymNarrow(cfg, true);
    AsymNarrow(cfg);
    NarrowFour(SymDefFmt(cfg, true), RsaSchemeFmt(cfg), Word(2, RSA_KEY_BITS), Word(4, Any));
  }

  lemma EccNarrow(cfg: Config)
    ensures Narrow(EccParmsFmt(cfg)) == true
  {
    SymNarrow(cfg, true);
    AsymNarrow(cfg);
    KdfNarrow(cfg);
    NarrowFour(SymDefFmt(cfg, true), EccSchemeFmt(cfg), Word(2, EccCurve(cfg)), KdfSchemeFmt(cfg));
  }

  lemma ParmsNarrow(cfg: Config, objectType: nat)
    ensures Narrow(ParmsFmt(cfg, objectType)) == true
  {
    if objectType == ALG_KEYEDHASH {
      KeyedHashNarrow(cfg);
    } else if objectType == ALG_SYMCIPHER {
      SymNarrow(cfg, false);
    } else if objectType == ALG_RSA {
      RsaNarrow(cfg);
    } else {
      EccNarrow(cfg);
    }
  }

  lemma IdNarrow(cfg: Config, objectType: nat)
    ensures Narrow(IdFmt(cfg, objectType)) == true
  {
    NarrowBoth(Blob(cfg.maxEccKeyBytes), Blob(cfg.maxEccKeyBytes));
  }

  lemma BodyNarrow(cfg: Config, flag: bool, objectType: nat)
    ensures Narrow(PublicBodyFmt(cfg, flag, objectType)) == true
  {
    var id := Both(ParmsFmt(cfg, objectType), IdFmt(cfg, objectType));
    ParmsNarrow(cfg, objectType);
    IdNarrow(cfg, objectType);
    NarrowBoth(ParmsFmt(cfg, objectType), IdFmt(cfg, objectType));
    NarrowBoth(Blob(cfg.maxDigest), id);
    NarrowBoth(Word(4, NoBits(OBJECT_RESERVED)), Both(Blob(cfg.maxDigest), id));
    NarrowBoth(Word(2, HashAlg(cfg, flag)), Both(Word(4, NoBits(OBJECT_RESERVED)), Both(Blob(cfg.maxDigest), id)));
  }

  lemma SensitiveNarrow(cfg: Config, sensitiveType: nat)
    ensures Narrow(SensitiveBodyFmt(cfg, sensitiveType)) == true
  {
    NarrowBoth(Blob(cfg.maxDigest), Blob(CompositeLimit(cfg, sensitiveType)));
    NarrowBoth(Blob(cfg.maxDigest), Both(Blob(cfg.maxDigest), Blob(CompositeLimit(cfg, sensitiveType))));
  }

  // Both areas, plain and sized, are read with the codec's integers only, so they keep within their
  // budget.
  lemma AreasNarrow(cfg: Config, flag: bool)
    ensures Narrow(PublicFmt(cfg, flag)) == true && Narrow(Public2BFmt(cfg, flag)) == true
    ensures Narrow(SensitiveFmt(cfg)) == true && Narrow(Sensitive2BFmt(cfg)) == true
  {
    forall t ensures Narrow(PublicBodyFmt(cfg, flag, t)) {
      BodyNarrow(cfg, flag, t);
    }
    forall t ensures Narrow(SensitiveBodyFmt(cfg, t)) {
      SensitiveNarrow(cfg, t);
    }
    NarrowTagged(PublicAlg(cfg), PublicFmt(cfg, flag).arms);
    NarrowTagged(PublicAlg(cfg), SensitiveFmt(cfg).arms);
  }
}
