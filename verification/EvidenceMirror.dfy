/** A mirror row, the same movement without an asset, changes nothing that is
    confirmed. */
module EvidenceMirror {
  import opened Basics
  import opened EvidenceRows
  import opened Rows
  import opened EvidenceDedup
  import opened EvidenceLaws

  /** `m` has no asset and tells of the movement of `w`, which has one. */
  predicate Mirrors(m: EvidenceRow, w: EvidenceRow) {
    m.txHash.Some? && m.txHash == w.txHash && !Known(m) && Known(w) && SameMovement(m, w)
  }

  predicate InsertedAt(p: seq<EvidenceRow>, q: seq<EvidenceRow>, m: EvidenceRow, i: int) {
    0 <= i <= |p| && q == p[..i] + [m] + p[i..]
  }

  /** `q` is `p` with one more row somewhere. */
  ghost predicate OneMore(p: seq<EvidenceRow>, q: seq<EvidenceRow>, m: EvidenceRow) {
    exists i :: InsertedAt(p, q, m, i)
  }

  lemma OneMoreMembers(p: seq<EvidenceRow>, q: seq<EvidenceRow>, m: EvidenceRow)
    requires OneMore(p, q, m)
    ensures forall r :: r in q <==> r in p || r == m
  {
    var i :| InsertedAt(p, q, m, i);
    assert p == p[..i] + p[i..];
  }

  lemma FilterInserted(p: seq<EvidenceRow>, q: seq<EvidenceRow>, m: EvidenceRow, keep: EvidenceRow -> bool, i: int)
    requires InsertedAt(p, q, m, i)
    ensures Filter(p, keep) == Filter(p[..i], keep) + Filter(p[i..], keep)
    ensures Filter(q, keep) == Filter(p[..i], keep) + (if keep(m) then [m] else []) + Filter(p[i..], keep)
  {
    FilterConcat(p[..i], p[i..], keep);
    assert p == p[..i] + p[i..];
    FilterConcat(p[..i] + [m], p[i..], keep);
    FilterConcat(p[..i], [m], keep);
    assert [m][..0] == [];
  }

  lemma OneMoreFilter(p: seq<EvidenceRow>, q: seq<EvidenceRow>, m: EvidenceRow, keep: EvidenceRow -> bool)
    requires OneMore(p, q, m)
    ensures if keep(m) then OneMore(Filter(p, keep), Filter(q, keep), m) else Filter(p, keep) == Filter(q, keep)
  {
    hide Filter;
    var i :| InsertedAt(p, q, m, i);
    FilterInserted(p, q, m, keep, i);
    var fa, fb := Filter(p[..i], keep), Filter(p[i..], keep);
    if keep(m) {
      assert (fa + fb)[..|fa|] == fa && (fa + fb)[|fa|..] == fb;
      assert InsertedAt(Filter(p, keep), Filter(q, keep), m, |fa|);
    } else {
      assert fa + [] + fb == fa + fb;
    }
  }

  lemma OneMoreAsset(g: seq<EvidenceRow>, g': seq<EvidenceRow>, m: EvidenceRow, k: string)
    requires OneMore(g, g', m) && k != KeyOf(m)
    ensures AssetRows(g, k) == AssetRows(g', k)
  {
    OneMoreFilter(g, g', m, Named(ASSET, k));
  }

  lemma OneMoreHash(p: seq<EvidenceRow>, q: seq<EvidenceRow>, m: EvidenceRow, h: string)
    requires OneMore(p, q, m)
    ensures if m.txHash == Some(h) then OneMore(HashRows(p, h), HashRows(q, h), m) else HashRows(p, h) == HashRows(q, h)
  {
    OneMoreFilter(p, q, m, Named(HASH, h));
  }

  /** The flags that decide over rows with an asset. */
  lemma MirrorFlags(g: seq<EvidenceRow>, g': seq<EvidenceRow>, m: EvidenceRow, w: EvidenceRow)
    requires OneMore(g, g', m) && w in g && Mirrors(m, w)
    ensures HasKnown(g) && HasKnown(g') && HasUnknown(g')
    ensures MultipleKnown(g) == MultipleKnown(g') && KnownConflict(g) == KnownConflict(g')
    ensures UnknownMirror(g') == (!HasUnknown(g) || UnknownMirror(g))
  {
    hide Known, KeyOf, SameMovement, SemanticConflict, AssetRows, OneMore;
    OneMoreMembers(g, g', m);
    forall r | r in g && Known(r) ensures AssetRows(g, KeyOf(r)) == AssetRows(g', KeyOf(r)) {
      DifferentKeys(m, r);
      OneMoreAsset(g, g', m, KeyOf(r));
    }
    assert KnownConflict(g) == KnownConflict(g');
  }

  lemma DifferentKeys(m: EvidenceRow, r: EvidenceRow)
    requires !Known(m) && Known(r)
    ensures KeyOf(m) != KeyOf(r)
  {
    KnownIsStored(m);
    KnownIsStored(r);
  }

  lemma MirrorConflict(g: seq<EvidenceRow>, g': seq<EvidenceRow>, m: EvidenceRow, w: EvidenceRow, k: string)
    requires OneMore(g, g', m) && w in g && Mirrors(m, w) && !IsUnknownKey(k) && AssetRows(g, k) != []
    ensures AssetRows(g', k) == AssetRows(g, k) && GroupConflict(g, k) == GroupConflict(g', k)
  {
    hide Known, KeyOf, SemanticConflict, AssetRows, OneMore, MultipleKnown, UnknownMirror, HasKnown;
    hide HasUnknown, IsUnknownKey, KnownConflict;
    MirrorFlags(g, g', m, w);
    KnownIsStored(m);
    OneMoreAsset(g, g', m, k);
    if !MultipleKnown(g) {
      SingleKnownConflict(g, k);
    }
    if !HasUnknown(g) {
      assert !UnknownMirror(g) && !UnknownAssetConflict(g) by { NoUnknownNoMirror(g); }
    }
  }

  lemma NoUnknownNoMirror(g: seq<EvidenceRow>)
    requires !HasUnknown(g)
    ensures !UnknownMirror(g) && !UnknownAssetConflict(g)
  {}

  /** With one asset, that asset's conflict is the only one. */
  lemma SingleKnownConflict(g: seq<EvidenceRow>, k: string)
    requires !MultipleKnown(g) && !IsUnknownKey(k) && AssetRows(g, k) != []
    ensures KnownConflict(g) <==> SemanticConflict(AssetRows(g, k))
  {
    hide Known, KeyOf, SemanticConflict, AssetRows, IsUnknownKey;
    AssetRowsMembers(g, k);
    var r := AssetRows(g, k)[0];
    assert r in AssetRows(g, k);
    KnownIsStored(r);
  }

  lemma MirrorKey(g: seq<EvidenceRow>, g': seq<EvidenceRow>, m: EvidenceRow, w: EvidenceRow, k: string,
                  p: EvidenceRow -> bool)
    requires OneMore(g, g', m) && w in g && Mirrors(m, w) && forall r :: p(r) ==> r.outcome == Confirmed
    ensures CountIf(KeyPart(g, k).rows, p) == CountIf(KeyPart(g', k).rows, p)
    ensures IsUnknownKey(k) ==> CountIf(KeyPart(g, k).rows, p) == 0
  {
    hide Known, KeyOf, SemanticConflict, AssetRows, OneMore, MultipleKnown, UnknownMirror;
    hide HasUnknown, IsUnknownKey, KnownConflict, KeyPart, GroupConflict;
    KeyConfirmed(g, k, p);
    KeyConfirmed(g', k, p);
    MirrorFlags(g, g', m, w);
    if !IsUnknownKey(k) {
      KnownIsStored(m);
      OneMoreAsset(g, g', m, k);
      if AssetRows(g, k) != [] {
        MirrorConflict(g, g', m, w, k);
      }
    }
  }

  lemma MirrorHash(g: seq<EvidenceRow>, g': seq<EvidenceRow>, m: EvidenceRow, w: EvidenceRow, p: EvidenceRow -> bool)
    requires OneMore(g, g', m) && w in g && Mirrors(m, w) && forall r :: p(r) ==> r.outcome == Confirmed
    ensures CountIf(HashPart(g).rows, p) == CountIf(HashPart(g').rows, p)
  {
    hide Known, KeyOf, KeyPart, JoinKeys, Labels, OneMore, IsUnknownKey, Distinct, Sum, CountIf;
    var ks, ls := Labels(g, ASSET), Labels(g', ASSET);
    CountKeys(g, ks, p);
    CountKeys(g', ls, p);
    forall k ensures KeyCount(g, p)(k) == KeyCount(g', p)(k) && (IsUnknownKey(k) ==> KeyCount(g, p)(k) == 0) {
      MirrorKey(g, g', m, w, k, p);
    }
    SumExt(ls, KeyCount(g, p), KeyCount(g', p));
    LabelsMembers(g, ASSET);
    LabelsMembers(g', ASSET);
    OneMoreMembers(g, g', m);
    KnownIsStored(m);
    assert forall l :: l in ls <==> l in ks || l == KeyOf(m) by {
      assert m in g' && ASSET(m) == Some(KeyOf(m));
    }
    SumOneMore(ks, ls, KeyOf(m), KeyCount(g, p));
  }

  lemma MirrorCount(p: seq<EvidenceRow>, q: seq<EvidenceRow>, m: EvidenceRow, w: EvidenceRow, c: EvidenceRow -> bool)
    requires OneMore(p, q, m) && w in p && Mirrors(m, w) && forall r :: c(r) ==> r.outcome == Confirmed
    ensures CountIf(Dedupe(p).rows, c) == CountIf(Dedupe(q).rows, c)
  {
    hide Known, Labels, HashPart, HashRows, Dedupe, OneMore, Filter;
    var hs, js := Labels(p, HASH), Labels(q, HASH);
    CountOut(p, c);
    CountOut(q, c);
    OneMoreFilter(p, q, m, HASHLESS);
    LabelsMembers(p, HASH);
    LabelsMembers(q, HASH);
    OneMoreMembers(p, q, m);
    assert HASH(w) == HASH(m) && forall l :: l in hs <==> l in js;
    SumPermuted(hs, js, HashCount(p, c));
    forall h | h in js ensures HashCount(p, c)(h) == HashCount(q, c)(h) {
      OneMoreHash(p, q, m, h);
      if m.txHash == Some(h) {
        HashRowsMembers(p, h);
        MirrorHash(HashRows(p, h), HashRows(q, h), m, w, c);
      }
    }
    SumExt(js, HashCount(p, c), HashCount(q, c));
  }

  /** Adding a mirror of a row with a stored asset, anywhere in the input,
      leaves the confirmed rows as they are. */
  lemma MirrorChangesNothing(p: seq<EvidenceRow>, q: seq<EvidenceRow>, m: EvidenceRow, w: EvidenceRow)
    requires OneMore(p, q, m) && w in p && Mirrors(m, w)
    ensures multiset(Filter(Dedupe(p).rows, CONFIRMED)) == multiset(Filter(Dedupe(q).rows, CONFIRMED))
  {
    hide Dedupe, OneMore, Filter;
    var a, b := Dedupe(p).rows, Dedupe(q).rows;
    forall c: EvidenceRow -> bool ensures CountIf(Filter(a, CONFIRMED), c) == CountIf(Filter(b, CONFIRMED), c) {
      CountFilter(a, CONFIRMED, c);
      CountFilter(b, CONFIRMED, c);
      MirrorCount(p, q, m, w, Both(CONFIRMED, c));
    }
    SameCountsSameRows(Filter(a, CONFIRMED), Filter(b, CONFIRMED));
  }
}
