/** What each warning of the merge says, said of the rows' own fields. */
module EvidenceRemarks {
  import opened Basics
  import opened Decimals
  import opened EvidenceRows
  import opened Rows
  import opened EvidenceDedup
  import opened EvidenceWarnings
  import opened EvidenceMeaning

  /** The rows of a hash with one asset, or with none. */
  function GroupOf(input: seq<EvidenceRow>, h: string, a: Asset): seq<EvidenceRow> {
    Filter(input, (r: EvidenceRow) => r.txHash == Some(h) && AssetOf(r.context) == a)
  }

  /** Whether the rows of an asset are in dispute: all assets of a disputed hash
      are, else only bare rows that quarrel among themselves. */
  predicate InDispute(s: seq<EvidenceRow>, b: seq<EvidenceRow>, a: Asset) {
    !Undisputed(s, b) || (a == UnknownAsset && !Consistent(b))
  }

  lemma GroupIs(input: seq<EvidenceRow>, h: string, r: EvidenceRow)
    ensures AssetRows(HashRows(input, h), KeyOf(r)) == GroupOf(input, h, AssetOf(r.context))
  {
    hide KeyOf, AssetOf;
    FilterFilter(input, Rows.Named(HASH, h), Rows.Named(ASSET, KeyOf(r)));
    forall q ensures KeyOf(q) == KeyOf(r) <==> AssetOf(q.context) == AssetOf(r.context) {
      SameAssetSameKey(q, r);
    }
    FilterExt(input, Both(Rows.Named(HASH, h), Rows.Named(ASSET, KeyOf(r))),
              (q: EvidenceRow) => q.txHash == Some(h) && AssetOf(q.context) == AssetOf(r.context));
  }

  /** What is said of the group of one row. */
  lemma RemarksOfRow(input: seq<EvidenceRow>, h: string, r: EvidenceRow)
    requires r in HashRows(input, h)
    ensures KeyRemarks(HashRows(input, h), KeyOf(r)) == RemarksFor(input, h, r)
  {
    hide HashRows, AssetRows, Stored, Bare, Undisputed, Consistent, HasAsset, GroupConflict, UnknownAssetConflict;
    hide HasKnown, UnknownMirror, KeyOf, CountIf, OneOperation, GroupOf, Known, Mirrored;
    var g, s, b := HashRows(input, h), Stored(input, h), Bare(input, h);
    var k := KeyOf(r);
    AssetRowsMembers(g, k);
    assert r in AssetRows(g, k);
    ConflictIs(input, h, k);
    FlagsAre(input, h);
    GroupIs(input, h, r);
    OneOperationCount(AssetRows(g, k));
    HasAssetIs(r);
    KeyIsUnknown(r);
    UndisputedAsset(r);
    PartMembers(input, h);
    if s != [] && Undisputed(s, b) {
      UndisputedParts(s, b);
    }
  }

  lemma UndisputedAsset(r: EvidenceRow)
    ensures HasAsset(r) <==> AssetOf(r.context) != UnknownAsset
  {}

  /** The remarks on a hash. Several assets; rows whose asset is not resolved beside
      rows that store one; and for each asset in dispute, several token operations
      or else a conflict. */
  lemma RemarksMean(input: seq<EvidenceRow>, h: string)
    ensures var s, b := Stored(input, h), Bare(input, h);
            var remarks := HashRemarks(HashRows(input, h));
            && (MultipleAssets in remarks <==> !OneAsset(s))
            && (UnresolvedAsset in remarks <==> s != [] && b != [] && (!Undisputed(s, b) || !Consistent(b)))
            && (ManyAuthoritative in remarks
                <==> exists r :: r in s + b && InDispute(s, b, AssetOf(r.context))
                                 && !OneOperation(GroupOf(input, h, AssetOf(r.context))))
            && (Conflicting in remarks
                <==> exists r :: r in s + b && InDispute(s, b, AssetOf(r.context))
                                 && OneOperation(GroupOf(input, h, AssetOf(r.context))))
  {
    hide HashRows, Stored, Bare, Undisputed, Consistent, OneAsset, InDispute, GroupOf, OneOperation, HashRemarks;
    hide AssetOf;
    RemarksAre(input, h, MultipleAssets);
    RemarksAre(input, h, UnresolvedAsset);
    RemarksAre(input, h, ManyAuthoritative);
    RemarksAre(input, h, Conflicting);
    BareRows(input, h);
  }

  /** A remark on a hash is one on some row of it, or that it has several assets. */
  lemma RemarksAre(input: seq<EvidenceRow>, h: string, remark: Remark)
    ensures var s, b := Stored(input, h), Bare(input, h);
            remark in HashRemarks(HashRows(input, h))
            <==> || (remark == MultipleAssets && !OneAsset(s))
                 || exists r :: r in s + b && remark in RemarksFor(input, h, r)
  {
    hide HashRows, Stored, Bare, OneAsset, KeyRemarks, RemarksFor, JoinRemarks, Labels, KeyOf, Known, MultipleKnown;
    var g, s, b := HashRows(input, h), Stored(input, h), Bare(input, h);
    FlagsAre(input, h);
    PartMembers(input, h);
    RemarkOfKey(g, Labels(g, ASSET), remark);
    RowsOfKeys(g, remark);
    forall r | r in g ensures KeyRemarks(g, KeyOf(r)) == RemarksFor(input, h, r) {
      RemarksOfRow(input, h, r);
    }
    assert forall r :: r in s + b <==> r in g;
  }

  ghost function RemarksFor(input: seq<EvidenceRow>, h: string, r: EvidenceRow): set<Remark> {
    var s, b := Stored(input, h), Bare(input, h);
    var a := AssetOf(r.context);
    (if !InDispute(s, b, a) then {}
     else if OneOperation(GroupOf(input, h, a)) then {Conflicting} else {ManyAuthoritative})
    + (if a == UnknownAsset && s != [] && (!Undisputed(s, b) || !Consistent(b)) then {UnresolvedAsset} else {})
  }

  lemma BareRows(input: seq<EvidenceRow>, h: string)
    ensures Bare(input, h) != [] <==>
              exists r :: r in Stored(input, h) + Bare(input, h) && AssetOf(r.context) == UnknownAsset
  {
    hide AssetOf;
    FilterMembers(input, WithAsset(h));
    FilterMembers(input, WithoutAsset(h));
    if Bare(input, h) != [] {
      assert Bare(input, h)[0] in Bare(input, h);
    }
  }

  lemma RowsOfKeys(g: seq<EvidenceRow>, remark: Remark)
    ensures (exists k :: k in Labels(g, ASSET) && remark in KeyRemarks(g, k))
            <==> exists r :: r in g && remark in KeyRemarks(g, KeyOf(r))
  {
    hide Labels, KeyRemarks, KeyOf;
    LabelsMembers(g, ASSET);
    if r :| r in g && remark in KeyRemarks(g, KeyOf(r)) {
      assert ASSET(r) == Some(KeyOf(r));
    }
  }

  /** All warnings of the merge: the remarks on each hash of the input, and one for
      each of the first three counters that is not zero. */
  lemma WarningsMean(input: seq<EvidenceRow>, w: Warning)
    ensures w in Warnings(input)
            <==> match w
                 case OfHash(h, remark) =>
                   (exists r :: r in input && r.txHash == Some(h)) && remark in HashRemarks(HashRows(input, h))
                 case InvalidHashes =>
                   exists r :: r in input && r.txHash == None && r.outcome == Confirmed
                               && ParseDecimal(r.amount, 2).Some?
                 case UnknownMovements => exists r :: r in input && r.outcome != Confirmed
                 case UnknownAssets => Dedupe(input).unknownAssets > 0
  {
    hide Labels, HashRemarks, HashRows, JoinHashes, ParseDecimal, CountIf, JoinWarnings;
    WarningOfHash(input, Labels(input, HASH), w);
    LabelsMembers(input, HASH);
    CountZero(input, INVALID);
    CountZero(input, UNCONFIRMED);
    if w.OfHash? {
      assert (exists r :: r in input && r.txHash == Some(w.hash)) <==> w.hash in Labels(input, HASH) by {
        if r :| r in input && r.txHash == Some(w.hash) {
          assert HASH(r) == Some(w.hash);
        }
      }
    }
  }
}
