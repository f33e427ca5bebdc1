/** Merging does not depend on the order of the rows, up to one counter. */
module EvidenceOrder {
  import opened Basics
  import opened EvidenceRows
  import opened Rows
  import opened EvidenceDedup
  import opened EvidenceLaws

  /** Table and id identify a row. */
  predicate UniqueIds(rows: seq<EvidenceRow>) {
    forall a, b :: a in rows && b in rows && TableOf(a) == TableOf(b) && a.id == b.id ==> a == b
  }

  predicate Permuted(p: seq<EvidenceRow>, q: seq<EvidenceRow>) { multiset(p) == multiset(q) }

  lemma PermutedMembers(p: seq<EvidenceRow>, q: seq<EvidenceRow>)
    requires Permuted(p, q)
    ensures |p| == |q| && forall r :: r in p <==> r in q
  {
    assert |multiset(p)| == |multiset(q)|;
    forall r ensures r in p <==> r in q {
      assert r in p <==> r in multiset(p);
      assert r in q <==> r in multiset(q);
    }
  }

  lemma FilterPermuted(p: seq<EvidenceRow>, q: seq<EvidenceRow>, keep: EvidenceRow -> bool)
    requires Permuted(p, q)
    ensures Permuted(Filter(p, keep), Filter(q, keep))
  {
    forall c: EvidenceRow -> bool ensures CountIf(Filter(p, keep), c) == CountIf(Filter(q, keep), c) {
      CountFilter(p, keep, c);
      CountFilter(q, keep, c);
      CountPermuted(p, q, Both(keep, c));
    }
    SameCountsSameRows(Filter(p, keep), Filter(q, keep));
  }

  // ----- one asset key -----

  /** No row of the group comes before `r`. */
  predicate Top(rows: seq<EvidenceRow>, r: EvidenceRow) {
    r in rows && forall s :: s in rows ==> !Before(s, r)
  }

  /** Two rows that both may be preferred are one row, or an award and a spend. */
  lemma TiedTops(rows: seq<EvidenceRow>, a: EvidenceRow, b: EvidenceRow)
    requires UniqueIds(rows) && Top(rows, a) && Top(rows, b) && a != b
    ensures DirectionOf(a) != DirectionOf(b) && |rows| > 1
  {
    assert Rank(a) == Rank(b) && a.id == b.id;
    var i :| 0 <= i < |rows| && rows[i] == a;
    var j :| 0 <= j < |rows| && rows[j] == b;
  }

  /** Which row is preferred never decides whether the group conflicts. */
  lemma ConflictPermuted(p: seq<EvidenceRow>, q: seq<EvidenceRow>)
    requires Permuted(p, q) && UniqueIds(p) && p != []
    ensures q != [] && SemanticConflict(p) == SemanticConflict(q)
    ensures !SemanticConflict(p) ==> Chosen(p) == Chosen(q)
    ensures Top(p, Chosen(p)) && Top(p, Chosen(q))
  {
    hide SameMovement, Before;
    PermutedMembers(p, q);
    CountPermuted(p, q, AUTHORITATIVE);
    var a, b := Chosen(p), Chosen(q);
    if a != b {
      TiedTops(p, a, b);
      DifferentDirections(a, b);
      assert b in p && a in q;
    }
  }

  lemma DifferentDirections(a: EvidenceRow, b: EvidenceRow)
    requires DirectionOf(a) != DirectionOf(b)
    ensures !SameMovement(a, b) && !SameMovement(b, a)
  {}

  lemma AssetRowsPermuted(p: seq<EvidenceRow>, q: seq<EvidenceRow>, k: string)
    requires Permuted(p, q)
    ensures Permuted(AssetRows(p, k), AssetRows(q, k))
  {
    FilterPermuted(p, q, Named(ASSET, k));
  }

  lemma AssetRowsUnique(g: seq<EvidenceRow>, k: string)
    requires UniqueIds(g)
    ensures UniqueIds(AssetRows(g, k))
  {
    AssetRowsMembers(g, k);
  }

  lemma KeyConflictPermuted(p: seq<EvidenceRow>, q: seq<EvidenceRow>, k: string)
    requires Permuted(p, q) && UniqueIds(p)
    ensures AssetRows(p, k) == [] <==> AssetRows(q, k) == []
    ensures AssetRows(p, k) != [] ==> SemanticConflict(AssetRows(p, k)) == SemanticConflict(AssetRows(q, k))
  {
    hide AssetRows, SemanticConflict;
    AssetRowsPermuted(p, q, k);
    AssetRowsUnique(p, k);
    PermutedMembers(AssetRows(p, k), AssetRows(q, k));
    if AssetRows(p, k) != [] {
      ConflictPermuted(AssetRows(p, k), AssetRows(q, k));
    }
  }

  /** All flags of a hash are the same. */
  lemma FlagsPermuted(p: seq<EvidenceRow>, q: seq<EvidenceRow>, k: string)
    requires Permuted(p, q) && UniqueIds(p)
    ensures HasKnown(p) == HasKnown(q) && HasUnknown(p) == HasUnknown(q) && MultipleKnown(p) == MultipleKnown(q)
    ensures UnknownMirror(p) == UnknownMirror(q) && UnknownAssetConflict(p) == UnknownAssetConflict(q)
    ensures GroupConflict(p, k) == GroupConflict(q, k)
  {
    hide AssetRows, SemanticConflict, Known, KeyOf, SameMovement, UniqueIds;
    PermutedMembers(p, q);
    KeyConflictPermuted(p, q, k);
    assert KnownConflict(p) == KnownConflict(q) by {
      forall r | r in p
        ensures AssetRows(p, KeyOf(r)) == [] <==> AssetRows(q, KeyOf(r)) == []
        ensures AssetRows(p, KeyOf(r)) != [] ==>
                  SemanticConflict(AssetRows(p, KeyOf(r))) == SemanticConflict(AssetRows(q, KeyOf(r)))
      {
        KeyConflictPermuted(p, q, KeyOf(r));
      }
    }
  }

  lemma MapPermuted(p: seq<EvidenceRow>, q: seq<EvidenceRow>, f: EvidenceRow -> EvidenceRow, c: EvidenceRow -> bool)
    requires Permuted(p, q)
    ensures CountIf(Map(p, f), c) == CountIf(Map(q, f), c)
  {
    CountMap(p, f, c);
    CountMap(q, f, c);
    CountPermuted(p, q, Composed(f, c));
  }

  lemma KeyPartPermuted(p: seq<EvidenceRow>, q: seq<EvidenceRow>, k: string, c: EvidenceRow -> bool)
    requires Permuted(p, q) && UniqueIds(p)
    ensures CountIf(KeyPart(p, k).rows, c) == CountIf(KeyPart(q, k).rows, c)
    ensures KeyPart(p, k).conflicts == KeyPart(q, k).conflicts
  {
    hide AssetRows, SemanticConflict, Known, UnknownMirror, UnknownAssetConflict, HasKnown;
    hide MultipleKnown, UniqueIds, Permuted, Chosen;
    AssetRowsPermuted(p, q, k);
    AssetRowsUnique(p, k);
    FlagsPermuted(p, q, k);
    KeyConflictPermuted(p, q, k);
    MapPermuted(AssetRows(p, k), AssetRows(q, k), ToReview, c);
    MapPermuted(AssetRows(p, k), AssetRows(q, k), ToUnknownReview, c);
    if AssetRows(p, k) != [] {
      ConflictPermuted(AssetRows(p, k), AssetRows(q, k));
    }
  }

  // ----- all asset keys, all hashes -----

  function KeyConflicts(g: seq<EvidenceRow>): string -> nat { (k: string) => KeyPart(g, k).conflicts }

  function KeyUnknowns(g: seq<EvidenceRow>): string -> nat { (k: string) => KeyPart(g, k).unknownAssets }

  lemma {:induction false} CountersOfKeys(g: seq<EvidenceRow>, ks: seq<string>)
    ensures JoinKeys(g, ks).conflicts == Sum(ks, KeyConflicts(g))
              && JoinKeys(g, ks).unknownAssets == Sum(ks, KeyUnknowns(g))
  {
    hide KeyPart;
    if ks != [] {
      CountersOfKeys(g, ks[..|ks| - 1]);
    }
  }

  lemma LabelsPermuted(p: seq<EvidenceRow>, q: seq<EvidenceRow>, name: EvidenceRow -> Option<string>)
    requires Permuted(p, q)
    ensures Distinct(Labels(p, name)) && Distinct(Labels(q, name))
    ensures forall l :: l in Labels(p, name) <==> l in Labels(q, name)
  {
    LabelsMembers(p, name);
    LabelsMembers(q, name);
    PermutedMembers(p, q);
  }

  lemma HashPartPermuted(p: seq<EvidenceRow>, q: seq<EvidenceRow>, c: EvidenceRow -> bool)
    requires Permuted(p, q) && UniqueIds(p)
    ensures CountIf(HashPart(p).rows, c) == CountIf(HashPart(q).rows, c)
    ensures HashPart(p).conflicts == HashPart(q).conflicts
  {
    hide Labels, KeyPart, JoinKeys, Permuted, UniqueIds;
    var ks, ls := Labels(p, ASSET), Labels(q, ASSET);
    LabelsPermuted(p, q, ASSET);
    CountKeys(p, ks, c);
    CountKeys(q, ls, c);
    CountersOfKeys(p, ks);
    CountersOfKeys(q, ls);
    SumPermuted(ks, ls, KeyCount(p, c));
    SumPermuted(ks, ls, KeyConflicts(p));
    forall k | k in ls ensures KeyCount(p, c)(k) == KeyCount(q, c)(k) && KeyConflicts(p)(k) == KeyConflicts(q)(k) {
      KeyPartPermuted(p, q, k, c);
    }
    SumExt(ls, KeyCount(p, c), KeyCount(q, c));
    SumExt(ls, KeyConflicts(p), KeyConflicts(q));
  }

  lemma HashRowsPermuted(p: seq<EvidenceRow>, q: seq<EvidenceRow>, h: string)
    requires Permuted(p, q) && UniqueIds(p)
    ensures Permuted(HashRows(p, h), HashRows(q, h)) && UniqueIds(HashRows(p, h))
  {
    FilterPermuted(p, q, Named(HASH, h));
    HashRowsMembers(p, h);
  }

  function HashConflicts(input: seq<EvidenceRow>): string -> nat {
    (h: string) => HashPart(HashRows(input, h)).conflicts
  }

  function HashUnknowns(input: seq<EvidenceRow>): string -> nat {
    (h: string) => HashPart(HashRows(input, h)).unknownAssets
  }

  lemma {:induction false} CountersOfHashes(input: seq<EvidenceRow>, hs: seq<string>)
    ensures JoinHashes(input, hs).conflicts == Sum(hs, HashConflicts(input))
    ensures JoinHashes(input, hs).unknownAssets == Sum(hs, HashUnknowns(input))
  {
    hide HashPart, HashRows;
    if hs != [] {
      CountersOfHashes(input, hs[..|hs| - 1]);
    }
  }

  lemma OutCountPermuted(p: seq<EvidenceRow>, q: seq<EvidenceRow>, c: EvidenceRow -> bool)
    requires Permuted(p, q) && UniqueIds(p)
    ensures CountIf(Dedupe(p).rows, c) == CountIf(Dedupe(q).rows, c)
  {
    hide Labels, HashPart, HashRows, Dedupe, Permuted, UniqueIds, Filter;
    var hs, js := Labels(p, HASH), Labels(q, HASH);
    CountOut(p, c);
    CountOut(q, c);
    FilterPermuted(p, q, HASHLESS);
    PermutedIs(Filter(p, HASHLESS), Filter(q, HASHLESS));
    CountPermuted(Filter(p, HASHLESS), Filter(q, HASHLESS), c);
    LabelsPermuted(p, q, HASH);
    SumPermuted(hs, js, HashCount(p, c));
    forall h | h in js ensures HashCount(p, c)(h) == HashCount(q, c)(h) {
      HashRowsPermuted(p, q, h);
      HashPartPermuted(HashRows(p, h), HashRows(q, h), c);
    }
    SumExt(js, HashCount(p, c), HashCount(q, c));
  }

  lemma PermutedIs(p: seq<EvidenceRow>, q: seq<EvidenceRow>)
    ensures Permuted(p, q) <==> multiset(p) == multiset(q)
  {}

  /** With unique ids the same rows in another order give the same rows and the
      same counts of conflicts, of invalid hashes and of unknown movements. */
  lemma OrderIndependent(p: seq<EvidenceRow>, q: seq<EvidenceRow>)
    requires Permuted(p, q) && UniqueIds(p)
    ensures multiset(Dedupe(p).rows) == multiset(Dedupe(q).rows)
    ensures Dedupe(p).conflicts == Dedupe(q).conflicts
    ensures Dedupe(p).invalidHashes == Dedupe(q).invalidHashes
              && Dedupe(p).unknownMovements == Dedupe(q).unknownMovements
  {
    hide Labels, HashPart, HashRows, UniqueIds, Filter, CountIf, JoinHashes;
    forall c: EvidenceRow -> bool ensures CountIf(Dedupe(p).rows, c) == CountIf(Dedupe(q).rows, c) {
      OutCountPermuted(p, q, c);
    }
    SameCountsSameRows(Dedupe(p).rows, Dedupe(q).rows);
    CountPermuted(p, q, INVALID);
    CountPermuted(p, q, UNCONFIRMED);
    var hs, js := Labels(p, HASH), Labels(q, HASH);
    CountersOfHashes(p, hs);
    CountersOfHashes(q, js);
    LabelsPermuted(p, q, HASH);
    SumPermuted(hs, js, HashConflicts(p));
    forall h | h in js ensures HashConflicts(p)(h) == HashConflicts(q)(h) {
      HashRowsPermuted(p, q, h);
      HashPartPermuted(HashRows(p, h), HashRows(q, h), HASHLESS);
    }
    SumExt(js, HashConflicts(p), HashConflicts(q));
  }

  // ----- the one counter that may differ -----

  /** No asset is known, and both a confirmed row and another one may be the
      preferred row: an award and a spend of one id. */
  predicate AmbiguousGroup(g: seq<EvidenceRow>) {
    && !HasKnown(g)
    && exists a, b ::
         a in g && b in g && Top(g, a) && Top(g, b) && a.outcome == Confirmed && b.outcome != Confirmed
  }

  predicate AmbiguousTop(input: seq<EvidenceRow>) {
    exists r :: r in input && r.txHash.Some? && AmbiguousGroup(HashRows(input, r.txHash.value))
  }

  lemma TopOfUnknown(g: seq<EvidenceRow>, k: string, c: EvidenceRow)
    requires !HasKnown(g) && Top(AssetRows(g, k), c)
    ensures Top(g, c)
  {
    AssetRowsMembers(g, k);
    forall r | r in g ensures r in AssetRows(g, k) {
      KnownIsStored(r);
      KnownIsStored(c);
      UnknownKeysEqual(r);
      UnknownKeysEqual(c);
    }
  }

  lemma UnknownsPermuted(p: seq<EvidenceRow>, q: seq<EvidenceRow>, k: string)
    requires Permuted(p, q) && UniqueIds(p) && !AmbiguousGroup(p)
    ensures KeyPart(p, k).unknownAssets == KeyPart(q, k).unknownAssets
  {
    hide AssetRows, SemanticConflict, Known, UnknownMirror, UnknownAssetConflict, HasKnown;
    hide MultipleKnown, UniqueIds, Permuted, Chosen, KeyOf, Top;
    AssetRowsPermuted(p, q, k);
    AssetRowsUnique(p, k);
    FlagsPermuted(p, q, k);
    KeyConflictPermuted(p, q, k);
    AssetRowsMembers(p, k);
    AssetRowsMembers(q, k);
    if AssetRows(p, k) != [] {
      ConflictPermuted(AssetRows(p, k), AssetRows(q, k));
      var c, d := Chosen(AssetRows(p, k)), Chosen(AssetRows(q, k));
      KnownIsStored(c);
      KnownIsStored(d);
      if !HasKnown(p) {
        TopOfUnknown(p, k, c);
        TopOfUnknown(p, k, d);
        assert c in p && d in p by { TopIn(p, c); TopIn(p, d); }
      }
    }
  }

  lemma TopIn(g: seq<EvidenceRow>, c: EvidenceRow)
    requires Top(g, c)
    ensures c in g
  {}

  lemma HashUnknownsPermuted(p: seq<EvidenceRow>, q: seq<EvidenceRow>)
    requires Permuted(p, q) && UniqueIds(p) && !AmbiguousGroup(p)
    ensures HashPart(p).unknownAssets == HashPart(q).unknownAssets
  {
    hide Labels, KeyPart, JoinKeys, Permuted, UniqueIds, AmbiguousGroup;
    var ks, ls := Labels(p, ASSET), Labels(q, ASSET);
    LabelsPermuted(p, q, ASSET);
    CountersOfKeys(p, ks);
    CountersOfKeys(q, ls);
    SumPermuted(ks, ls, KeyUnknowns(p));
    forall k | k in ls ensures KeyUnknowns(p)(k) == KeyUnknowns(q)(k) {
      UnknownsPermuted(p, q, k);
    }
    SumExt(ls, KeyUnknowns(p), KeyUnknowns(q));
  }

  lemma LabelIsHash(input: seq<EvidenceRow>, h: string)
    requires h in Labels(input, HASH)
    ensures exists r :: r in input && r.txHash == Some(h)
  {
    hide Labels;
    LabelsMembers(input, HASH);
    var r :| r in input && HASH(r) == Some(h);
    assert r.txHash == Some(h);
  }

  lemma UnknownCountPermuted(p: seq<EvidenceRow>, q: seq<EvidenceRow>)
    requires Permuted(p, q) && UniqueIds(p) && !AmbiguousTop(p)
    ensures Dedupe(p).unknownAssets == Dedupe(q).unknownAssets
  {
    hide Labels, HashPart, HashRows, UniqueIds, Filter, CountIf, JoinHashes, AmbiguousGroup;
    CountPermuted(p, q, HASHLESS_UNKNOWN);
    var hs, js := Labels(p, HASH), Labels(q, HASH);
    CountersOfHashes(p, hs);
    CountersOfHashes(q, js);
    LabelsPermuted(p, q, HASH);
    SumPermuted(hs, js, HashUnknowns(p));
    forall h | h in js ensures HashUnknowns(p)(h) == HashUnknowns(q)(h) {
      HashRowsPermuted(p, q, h);
      LabelIsHash(p, h);
      HashUnknownsPermuted(HashRows(p, h), HashRows(q, h));
    }
    SumExt(js, HashUnknowns(p), HashUnknowns(q));
  }

  // ----- two orders that count differently -----

  lemma ChosenFirst(rows: seq<EvidenceRow>)
    requires rows != [] && Top(rows, rows[0])
    ensures Chosen(rows) == rows[0]
  {
    if |rows| > 1 {
      var n := |rows| - 1;
      assert rows == rows[..n] + [rows[n]];
      ChosenFirst(rows[..n]);
    }
  }

  /** Without a known asset only the first row in preference is counted. */
  lemma UnknownHashCount(g: seq<EvidenceRow>)
    requires g != [] && !HasKnown(g) && Top(g, g[0])
    ensures HashPart(g).unknownAssets == if g[0].outcome == Confirmed then 1 else 0
  {
    hide Labels, JoinKeys, AssetRows, SemanticConflict, UnknownMirror, Known, KeyOf, Chosen, Top;
    var ks := Labels(g, ASSET);
    LabelsMembers(g, ASSET);
    forall r | r in g ensures KeyOf(r) == UNKNOWN_KEY && !Known(r) {
      KnownIsStored(r);
      UnknownKeysEqual(r);
    }
    CountersOfKeys(g, ks);
    assert g[0] in g && ASSET(g[0]) == Some(UNKNOWN_KEY);
    forall k | k in ks ensures k == UNKNOWN_KEY {
      var r :| r in g && ASSET(r) == Some(k);
    }
    SumOne(ks, KeyUnknowns(g), UNKNOWN_KEY);
    WholeGroup(g);
    ChosenFirst(g);
  }

  lemma WholeGroup(g: seq<EvidenceRow>)
    requires forall r :: r in g ==> KeyOf(r) == UNKNOWN_KEY
    ensures AssetRows(g, UNKNOWN_KEY) == g
  {
    FilterAll(g, Named(ASSET, UNKNOWN_KEY));
  }

  lemma OrderedPair(a: EvidenceRow, b: EvidenceRow, rest: seq<EvidenceRow>, h: string)
    ensures HashRows([a, b] + rest, h)
              == (if a.txHash == Some(h) then [a] else [])
                 + (if b.txHash == Some(h) then [b] else []) + HashRows(rest, h)
  {
    FilterConcat([a, b], rest, Named(HASH, h));
    FilterConcat([a], [b], Named(HASH, h));
    assert [a] + [b] == [a, b];
    assert [a][..0] == [] && [b][..0] == [];
  }

  lemma TopFirst(g: seq<EvidenceRow>, g': seq<EvidenceRow>, a: EvidenceRow)
    requires Permuted(g, g') && Top(g, a)
    ensures Top(g', a)
  {
    PermutedMembers(g, g');
  }

  lemma SwapChangesCount(a: EvidenceRow, b: EvidenceRow, rest: seq<EvidenceRow>, h: string)
    requires a.txHash == b.txHash == Some(h) && a.outcome == Confirmed && b.outcome != Confirmed
    requires var g := HashRows([a, b] + rest, h); !HasKnown(g) && Top(g, a) && Top(g, b)
    ensures Dedupe([a, b] + rest).unknownAssets == Dedupe([b, a] + rest).unknownAssets + 1
  {
    hide Labels, HashPart, HashRows, Filter, CountIf, JoinHashes, Top, HasKnown;
    var p, q := [a, b] + rest, [b, a] + rest;
    SwapIsPermuted(a, b, rest);
    var hs, js := Labels(p, HASH), Labels(q, HASH);
    LabelsPermuted(p, q, HASH);
    CountPermuted(p, q, HASHLESS_UNKNOWN);
    CountersOfHashes(p, hs);
    CountersOfHashes(q, js);
    SumPermuted(hs, js, HashUnknowns(p));
    OrderedPair(a, b, rest, h);
    OrderedPair(b, a, rest, h);
    SwapIsPermuted(a, b, HashRows(rest, h));
    var g, g' := HashRows(p, h), HashRows(q, h);
    assert g == [a, b] + HashRows(rest, h) && g' == [b, a] + HashRows(rest, h);
    TopFirst(g, g', b);
    NoKnownPermuted(g, g');
    UnknownHashCount(g);
    UnknownHashCount(g');
    forall l | l in js && l != h ensures HashUnknowns(p)(l) == HashUnknowns(q)(l) {
      OrderedPair(a, b, rest, l);
      OrderedPair(b, a, rest, l);
    }
    LabelsMembers(q, HASH);
    assert q[0] in q && HASH(q[0]) == Some(h);
    SumDiffer(js, HashUnknowns(p), HashUnknowns(q), h);
  }

  lemma NoKnownPermuted(g: seq<EvidenceRow>, g': seq<EvidenceRow>)
    requires Permuted(g, g')
    ensures HasKnown(g) == HasKnown(g')
  {
    PermutedMembers(g, g');
  }

  lemma SwapIsPermuted(a: EvidenceRow, b: EvidenceRow, rest: seq<EvidenceRow>)
    ensures Permuted([a, b] + rest, [b, a] + rest)
  {}

  lemma ToFront(p: seq<EvidenceRow>, a: EvidenceRow) returns (rest: seq<EvidenceRow>)
    requires a in p
    ensures Permuted(p, [a] + rest)
  {
    var i :| 0 <= i < |p| && p[i] == a;
    rest := p[..i] + p[i + 1..];
    assert p == p[..i] + [a] + p[i + 1..];
  }

  lemma PairFirst(p: seq<EvidenceRow>, a: EvidenceRow, b: EvidenceRow) returns (rest: seq<EvidenceRow>)
    requires a in p && b in p && a != b
    ensures Permuted(p, [a, b] + rest)
  {
    var others := ToFront(p, a);
    PermutedMembers(p, [a] + others);
    assert b in [a] + others;
    rest := ToFront(others, b);
    assert [a, b] + rest == [a] + ([b] + rest);
  }

  /** A confirmed award and an unconfirmed spend of one id under one hash,
      neither with an asset: the count depends on which comes first. */
  lemma AwardAndSpendOfOneId(h: string, id: int, amount: string)
    ensures var a := EvidenceRow(AwardTable, id, None, None, None, amount, None, Confirmed, Some(h), NoContext, None);
            var b := EvidenceRow(SpendTable, id, None, None, None, amount, None, Unknown, Some(h), NoContext, None);
            UniqueIds([a, b]) && Dedupe([a, b]).unknownAssets == Dedupe([b, a]).unknownAssets + 1
  {
    hide Dedupe, HashRows;
    var a := EvidenceRow(AwardTable, id, None, None, None, amount, None, Confirmed, Some(h), NoContext, None);
    var b := EvidenceRow(SpendTable, id, None, None, None, amount, None, Unknown, Some(h), NoContext, None);
    assert [a, b] + [] == [a, b] && [b, a] + [] == [b, a];
    OrderedPair(a, b, [], h);
    assert HashRows([], h) == [] by { NoRowsOfHash(h); }
    assert HashRows([a, b] + [], h) == [a, b];
    SwapChangesCount(a, b, [], h);
  }

  lemma NoRowsOfHash(h: string)
    ensures HashRows([], h) == []
  {}

  /** The count of confirmed rows without a known asset is the same in every
      order exactly when no hash has an ambiguous preferred row. */
  lemma UnknownCountStable(p: seq<EvidenceRow>)
    requires UniqueIds(p)
    ensures (forall q: seq<EvidenceRow> :: Permuted(p, q) ==> Dedupe(q).unknownAssets == Dedupe(p).unknownAssets)
            <==> !AmbiguousTop(p)
  {
    hide Dedupe, HashRows, HasKnown, Top, UniqueIds;
    if !AmbiguousTop(p) {
      forall q: seq<EvidenceRow> | Permuted(p, q) ensures Dedupe(q).unknownAssets == Dedupe(p).unknownAssets {
        UnknownCountPermuted(p, q);
      }
    } else {
      var r :| r in p && r.txHash.Some? && AmbiguousGroup(HashRows(p, r.txHash.value));
      var h := r.txHash.value;
      var g := HashRows(p, h);
      var a, b :| a in g && b in g && Top(g, a) && Top(g, b) && a.outcome == Confirmed && b.outcome != Confirmed;
      HashRowsMembers(p, h);
      var rest := PairFirst(p, a, b);
      FilterPermuted(p, [a, b] + rest, Named(HASH, h));
      assert Permuted(g, HashRows([a, b] + rest, h)) by { HashRowsFilter(p, h); HashRowsFilter([a, b] + rest, h); }
      TopFirst(g, HashRows([a, b] + rest, h), a);
      TopFirst(g, HashRows([a, b] + rest, h), b);
      NoKnownPermuted(g, HashRows([a, b] + rest, h));
      SwapChangesCount(a, b, rest, h);
      SwapIsPermuted(a, b, rest);
      assert Permuted(p, [b, a] + rest);
    }
  }

  lemma HashRowsFilter(p: seq<EvidenceRow>, h: string)
    ensures HashRows(p, h) == Filter(p, Named(HASH, h))
  {}
}
