/** What merging keeps, drops and never does, for every list of rows. */
module EvidenceLaws {
  import opened Basics
  import opened Decimals
  import opened EvidenceRows
  import opened Rows
  import opened EvidenceDedup

  // ----- counting through the merge -----

  function KeyCount(g: seq<EvidenceRow>, p: EvidenceRow -> bool): string -> nat {
    (k: string) => CountIf(KeyPart(g, k).rows, p)
  }

  function HashCount(input: seq<EvidenceRow>, p: EvidenceRow -> bool): string -> nat {
    (h: string) => CountIf(HashPart(HashRows(input, h)).rows, p)
  }

  lemma {:induction false} CountKeys(g: seq<EvidenceRow>, ks: seq<string>, p: EvidenceRow -> bool)
    ensures CountIf(JoinKeys(g, ks).rows, p) == Sum(ks, KeyCount(g, p))
  {
    hide KeyPart;
    if ks != [] {
      var n := |ks| - 1;
      CountKeys(g, ks[..n], p);
      CountConcat(JoinKeys(g, ks[..n]).rows, KeyPart(g, ks[n]).rows, p);
    }
  }

  lemma {:induction false} CountHashes(input: seq<EvidenceRow>, hs: seq<string>, p: EvidenceRow -> bool)
    ensures CountIf(JoinHashes(input, hs).rows, p) == Sum(hs, HashCount(input, p))
  {
    hide HashPart, HashRows;
    if hs != [] {
      var n := |hs| - 1;
      CountHashes(input, hs[..n], p);
      CountConcat(JoinHashes(input, hs[..n]).rows, HashPart(HashRows(input, hs[n])).rows, p);
    }
  }

  lemma CountOut(input: seq<EvidenceRow>, p: EvidenceRow -> bool)
    ensures CountIf(Dedupe(input).rows, p)
              == CountIf(Filter(input, HASHLESS), p) + Sum(Labels(input, HASH), HashCount(input, p))
  {
    hide Filter, Labels;
    CountHashes(input, Labels(input, HASH), p);
    CountConcat(Filter(input, HASHLESS), JoinHashes(input, Labels(input, HASH)).rows, p);
  }

  // ----- where an output row comes from -----

  /** An input row as it is, or marked for review, a row without an asset then
      also without its context. */
  predicate Derived(o: EvidenceRow, r: EvidenceRow) {
    o == r || o == ToReview(r) || (!Known(r) && o == ToUnknownReview(r))
  }

  lemma KeyRowsDerived(g: seq<EvidenceRow>, k: string, o: EvidenceRow)
    requires o in KeyPart(g, k).rows
    ensures exists r :: r in g && Derived(o, r)
  {
    hide AssetRows, GroupConflict, HasKnown, UnknownMirror, UnknownAssetConflict, Known, IsUnknownKey;
    AssetRowsMembers(g, k);
    var rows := AssetRows(g, k);
    if o in Map(rows, ToReview) {
      var i :| 0 <= i < |rows| && o == ToReview(rows[i]);
      assert rows[i] in g && Derived(o, rows[i]);
    } else if o in Map(rows, ToUnknownReview) && IsUnknownKey(k) {
      var i :| 0 <= i < |rows| && o == ToUnknownReview(rows[i]);
      KnownIsStored(rows[i]);
      assert rows[i] in g && Derived(o, rows[i]);
    } else {
      assert o in g && Derived(o, o);
    }
  }

  lemma {:induction false} KeysDerived(g: seq<EvidenceRow>, ks: seq<string>, o: EvidenceRow)
    requires o in JoinKeys(g, ks).rows
    ensures exists r :: r in g && Derived(o, r)
  {
    hide KeyPart, Derived;
    var n := |ks| - 1;
    if o in KeyPart(g, ks[n]).rows {
      KeyRowsDerived(g, ks[n], o);
    } else {
      KeysDerived(g, ks[..n], o);
    }
  }

  lemma {:induction false} HashesDerived(input: seq<EvidenceRow>, hs: seq<string>, o: EvidenceRow)
    requires o in JoinHashes(input, hs).rows
    ensures exists r :: r in input && Derived(o, r)
  {
    hide Derived, HashRows, Labels;
    var n := |hs| - 1;
    var g := HashRows(input, hs[n]);
    if o in HashPart(g).rows {
      KeysDerived(g, Labels(g, ASSET), o);
      HashRowsMembers(input, hs[n]);
    } else {
      HashesDerived(input, hs[..n], o);
    }
  }

  predicate NotUpgraded(o: EvidenceRow, r: EvidenceRow) {
    && o.amount == r.amount && DirectionOf(o) == DirectionOf(r) && AssetOf(o.context) == AssetOf(r.context)
    && o.txHash == r.txHash && o.source == r.source && o.id == r.id && o.activityAt == r.activityAt
    && (o.outcome == r.outcome || o.outcome == Review) && (o.outcome == Confirmed ==> o == r)
  }

  /** Every output row is an input row of the same amount, direction, asset and
      hash, its outcome left alone or lowered to review: a confirmed output row
      is a confirmed input row unchanged. */
  lemma NothingUpgraded(input: seq<EvidenceRow>, o: EvidenceRow)
    requires o in Dedupe(input).rows
    ensures exists r :: r in input && NotUpgraded(o, r)
  {
    hide Labels, JoinHashes, Filter;
    FilterMembers(input, HASHLESS);
    var r: EvidenceRow;
    if o in Filter(input, HASHLESS) {
      r := o;
    } else {
      HashesDerived(input, Labels(input, HASH), o);
      r :| r in input && Derived(o, r);
    }
    assert Derived(o, r) && NotUpgraded(o, r);
  }

  // ----- at most one confirmed row per hash -----

  function ConfirmedFor(h: string): EvidenceRow -> bool {
    (r: EvidenceRow) => r.txHash == Some(h) && r.outcome == Confirmed
  }

  const CONFIRMED: EvidenceRow -> bool := (r: EvidenceRow) => r.outcome == Confirmed

  /** Rows under review are never counted as confirmed. */
  lemma ReviewCountsNothing(rows: seq<EvidenceRow>, p: EvidenceRow -> bool)
    requires forall r :: p(r) ==> r.outcome == Confirmed
    ensures CountIf(Map(rows, ToReview), p) == 0 && CountIf(Map(rows, ToUnknownReview), p) == 0
  {
    CountZero(Map(rows, ToReview), p);
    CountZero(Map(rows, ToUnknownReview), p);
  }

  /** The key that may keep a confirmed row: an asset key if there is one. */
  ghost predicate MayConfirm(g: seq<EvidenceRow>, k: string) {
    !GroupConflict(g, k) && (IsUnknownKey(k) ==> !HasKnown(g))
  }

  lemma KeyConfirmed(g: seq<EvidenceRow>, k: string, p: EvidenceRow -> bool)
    requires forall r :: p(r) ==> r.outcome == Confirmed
    ensures CountIf(KeyPart(g, k).rows, p)
              == if AssetRows(g, k) != [] && MayConfirm(g, k) && p(Chosen(AssetRows(g, k))) then 1 else 0
  {
    hide GroupConflict, AssetRows, HasKnown, UnknownMirror, UnknownAssetConflict, Known, IsUnknownKey, Chosen;
    ReviewCountsNothing(AssetRows(g, k), p);
    if AssetRows(g, k) != [] {
      var c := Chosen(AssetRows(g, k));
      assert [c][..0] == [];
      assert CountIf([c], p) == if p(c) then 1 else 0;
    }
  }

  lemma OneKeyConfirms(g: seq<EvidenceRow>, k: string, l: string)
    requires AssetRows(g, k) != [] && AssetRows(g, l) != [] && MayConfirm(g, k) && MayConfirm(g, l)
    ensures k == l
  {
    hide AssetRows, UnknownAssetConflict, Known, SemanticConflict, Chosen, IsUnknownKey, KeyOf;
    AssetRowsMembers(g, k);
    AssetRowsMembers(g, l);
    var a, b := AssetRows(g, k)[0], AssetRows(g, l)[0];
    assert a in AssetRows(g, k) && b in AssetRows(g, l);
    KnownIsStored(a);
    KnownIsStored(b);
    if IsUnknownKey(k) && IsUnknownKey(l) {
      UnknownKeysEqual(a);
      UnknownKeysEqual(b);
    }
  }

  lemma UnknownKeysEqual(r: EvidenceRow)
    ensures IsUnknownKey(KeyOf(r)) ==> KeyOf(r) == UNKNOWN_KEY
  {
    UnknownKeyIsUnknownAsset(r.context);
  }

  lemma HashConfirmed(g: seq<EvidenceRow>, p: EvidenceRow -> bool)
    requires forall r :: p(r) ==> r.outcome == Confirmed
    ensures CountIf(HashPart(g).rows, p) <= 1
  {
    hide Labels, KeyPart, AssetRows, MayConfirm, JoinKeys, Chosen;
    var ks := Labels(g, ASSET);
    var f := KeyCount(g, p);
    CountKeys(g, ks, p);
    LabelsMembers(g, ASSET);
    if k :| k in ks && f(k) != 0 {
      forall l | l in ks && l != k ensures f(l) == 0 {
        KeyConfirmed(g, k, p);
        KeyConfirmed(g, l, p);
        if f(l) != 0 {
          OneKeyConfirms(g, k, l);
        }
      }
      SumOne(ks, f, k);
      KeyConfirmed(g, k, p);
    } else {
      SumZero(ks, f);
    }
  }

  /** A hash part holds rows of its hash only. */
  lemma HashPartOwn(input: seq<EvidenceRow>, h: string, p: EvidenceRow -> bool)
    requires forall r :: p(r) ==> r.txHash != Some(h)
    ensures CountIf(HashPart(HashRows(input, h)).rows, p) == 0
  {
    hide Labels, JoinKeys, HashRows;
    var g := HashRows(input, h);
    HashRowsMembers(input, h);
    forall o | o in HashPart(g).rows ensures !p(o) {
      KeysDerived(g, Labels(g, ASSET), o);
    }
    CountZero(HashPart(g).rows, p);
  }

  lemma HashlessOwn(input: seq<EvidenceRow>, p: EvidenceRow -> bool)
    requires forall r :: p(r) ==> r.txHash.Some?
    ensures CountIf(Filter(input, HASHLESS), p) == 0
  {
    FilterMembers(input, HASHLESS);
    CountZero(Filter(input, HASHLESS), p);
  }

  /** A predicate on rows of one hash counts only that hash's part. */
  lemma CountOneHash(input: seq<EvidenceRow>, h: string, p: EvidenceRow -> bool)
    requires forall r :: p(r) ==> r.txHash == Some(h)
    ensures CountIf(Dedupe(input).rows, p)
              == if h in Labels(input, HASH) then CountIf(HashPart(HashRows(input, h)).rows, p) else 0
  {
    hide Labels, HashPart, HashRows, Dedupe, Filter;
    CountOut(input, p);
    HashlessOwn(input, p);
    LabelsMembers(input, HASH);
    var f := HashCount(input, p);
    forall l | l in Labels(input, HASH) && l != h ensures f(l) == 0 {
      HashPartOwn(input, l, p);
    }
    SumOne(Labels(input, HASH), f, h);
  }

  /** At most one confirmed row is left for a transaction hash. */
  lemma AtMostOneConfirmed(input: seq<EvidenceRow>, h: string)
    ensures CountIf(Dedupe(input).rows, ConfirmedFor(h)) <= 1
  {
    hide Labels, HashPart, HashRows, Dedupe;
    CountOneHash(input, h, ConfirmedFor(h));
    HashConfirmed(HashRows(input, h), ConfirmedFor(h));
  }

  // ----- no hash is dropped -----

  function OfHash(h: string): EvidenceRow -> bool { (r: EvidenceRow) => r.txHash == Some(h) }

  lemma {:induction false} KeyKept(g: seq<EvidenceRow>, ks: seq<string>, k: string)
    requires k in ks && KeyPart(g, k).rows != []
    ensures JoinKeys(g, ks).rows != []
  {
    hide KeyPart;
    if k != ks[|ks| - 1] {
      KeyKept(g, ks[..|ks| - 1], k);
    }
  }

  lemma HashKept(g: seq<EvidenceRow>)
    requires g != []
    ensures HashPart(g).rows != []
  {
    hide Labels, KeyPart, JoinKeys, KeyOf;
    LabelsMembers(g, ASSET);
    var r := if HasKnown(g) then var x :| x in g && Known(x); x else g[0];
    assert ASSET(r) == Some(KeyOf(r));
    KeyPartKept(g, r);
    KeyKept(g, Labels(g, ASSET), KeyOf(r));
  }

  lemma KeyPartKept(g: seq<EvidenceRow>, r: EvidenceRow)
    requires r in g && (Known(r) || !HasKnown(g))
    ensures KeyPart(g, KeyOf(r)).rows != []
  {
    hide AssetRows, GroupConflict, UnknownMirror, UnknownAssetConflict, Known, IsUnknownKey, Chosen, KeyOf;
    AssetRowsMembers(g, KeyOf(r));
    KnownIsStored(r);
  }

  /** Every transaction hash of the input is still there. */
  lemma NoHashDropped(input: seq<EvidenceRow>, r: EvidenceRow)
    requires r in input && r.txHash.Some?
    ensures exists o :: o in Dedupe(input).rows && o.txHash == r.txHash
  {
    hide Labels, HashPart, HashRows, Dedupe;
    var h := r.txHash.value;
    var g := HashRows(input, h);
    HashRowsMembers(input, h);
    LabelsMembers(input, HASH);
    assert HASH(r) == Some(h);
    HashKept(g);
    HashPartAllOwn(input, h);
    CountOneHash(input, h, OfHash(h));
    CountZero(Dedupe(input).rows, OfHash(h));
  }

  lemma HashPartAllOwn(input: seq<EvidenceRow>, h: string)
    ensures CountIf(HashPart(HashRows(input, h)).rows, OfHash(h)) == |HashPart(HashRows(input, h)).rows|
  {
    hide Labels, JoinKeys, HashRows;
    var g := HashRows(input, h);
    HashRowsMembers(input, h);
    forall o | o in HashPart(g).rows ensures OfHash(h)(o) {
      KeysDerived(g, Labels(g, ASSET), o);
    }
    CountAll(HashPart(g).rows, OfHash(h));
  }
}
