/** What the warnings of the merge say. */
module EvidenceWarnings {
  import opened Basics
  import opened EvidenceRows
  import opened Rows
  import opened EvidenceDedup
  import opened EvidenceLaws
  import opened EvidenceOrder

  lemma {:induction false} RemarkOfKey(g: seq<EvidenceRow>, ks: seq<string>, r: Remark)
    ensures r in JoinRemarks(g, ks) <==> exists k :: k in ks && r in KeyRemarks(g, k)
  {
    hide KeyRemarks;
    if ks != [] {
      var n := |ks| - 1;
      assert ks == ks[..n] + [ks[n]];
      RemarkOfKey(g, ks[..n], r);
    }
  }

  lemma {:induction false} WarningOfHash(input: seq<EvidenceRow>, hs: seq<string>, w: Warning)
    ensures w in JoinWarnings(input, hs)
            <==> w.OfHash? && w.hash in hs && w.remark in HashRemarks(HashRows(input, w.hash))
  {
    hide HashRemarks, HashRows;
    if hs != [] {
      var n := |hs| - 1;
      assert hs == hs[..n] + [hs[n]];
      WarningOfHash(input, hs[..n], w);
    }
  }

  // ----- a hash is remarked on when some of its rows are put under review -----

  lemma QuietKey(g: seq<EvidenceRow>, k: string)
    requires KeyRemarks(g, k) == {}
    ensures forall o :: o in KeyPart(g, k).rows ==> o in g
  {
    hide AssetRows, HasKnown, UnknownMirror, UnknownAssetConflict, GroupConflict, IsUnknownKey, Chosen, Known;
    AssetRowsMembers(g, k);
  }

  lemma LoudKey(g: seq<EvidenceRow>, k: string)
    requires KeyRemarks(g, k) != {}
    ensures exists o :: o in KeyPart(g, k).rows && o.outcome == Review
  {
    hide AssetRows, HasKnown, UnknownMirror, UnknownAssetConflict, GroupConflict, IsUnknownKey, Chosen, Known;
    assert KeyPart(g, k).rows[0].outcome == Review;
  }

  lemma {:induction false} RowOfKey(g: seq<EvidenceRow>, ks: seq<string>, o: EvidenceRow)
    ensures o in JoinKeys(g, ks).rows <==> exists k :: k in ks && o in KeyPart(g, k).rows
  {
    hide KeyPart;
    if ks != [] {
      var n := |ks| - 1;
      assert ks == ks[..n] + [ks[n]];
      RowOfKey(g, ks[..n], o);
    }
  }

  /** Several known assets leave every one of them in conflict. */
  lemma MultipleAssetsConflict(g: seq<EvidenceRow>)
    requires MultipleKnown(g)
    ensures exists k :: k in Labels(g, ASSET) && KeyRemarks(g, k) != {}
  {
    hide Labels, Known, KeyOf, SemanticConflict, UnknownAssetConflict, UnknownMirror, HasKnown, IsUnknownKey, AssetRows;
    LabelsMembers(g, ASSET);
    var a, b :| a in g && b in g && Known(a) && Known(b) && KeyOf(a) != KeyOf(b);
    assert ASSET(a) == Some(KeyOf(a));
    AssetRowsMembers(g, KeyOf(a));
    assert a in AssetRows(g, KeyOf(a));
    assert KeyOf(a) in Labels(g, ASSET) && KeyRemarks(g, KeyOf(a)) != {};
  }

  /** A hash draws no remark exactly when all that is left of it are rows as they
      came; otherwise some row of it was put under review. */
  lemma RemarkedIffReviewed(g: seq<EvidenceRow>)
    ensures HashRemarks(g) == {} ==> forall o :: o in HashPart(g).rows ==> o in g
    ensures HashRemarks(g) != {} ==> exists o :: o in HashPart(g).rows && o.outcome == Review
  {
    hide Labels, KeyRemarks, KeyPart, MultipleKnown, JoinRemarks, JoinKeys;
    var ks := Labels(g, ASSET);
    if MultipleKnown(g) {
      MultipleAssetsConflict(g);
    } else if r :| r in HashRemarks(g) {
      RemarkOfKey(g, ks, r);
    }
    if k :| k in ks && KeyRemarks(g, k) != {} {
      var r :| r in KeyRemarks(g, k);
      RemarkOfKey(g, ks, r);
      assert r in HashRemarks(g);
      LoudKey(g, k);
      var o :| o in KeyPart(g, k).rows && o.outcome == Review;
      RowOfKey(g, ks, o);
    } else {
      forall o | o in HashPart(g).rows ensures o in g {
        RowOfKey(g, ks, o);
        var k :| k in ks && o in KeyPart(g, k).rows;
        QuietKey(g, k);
      }
    }
  }

  // ----- and does not depend on the order -----

  lemma KeyRemarksPermuted(p: seq<EvidenceRow>, q: seq<EvidenceRow>, k: string)
    requires Permuted(p, q) && UniqueIds(p)
    ensures KeyRemarks(p, k) == KeyRemarks(q, k)
  {
    hide AssetRows, SemanticConflict, UnknownMirror, UnknownAssetConflict, HasKnown, MultipleKnown, UniqueIds;
    hide GroupConflict, IsUnknownKey;
    FlagsPermuted(p, q, k);
    AssetRowsPermuted(p, q, k);
    PermutedMembers(AssetRows(p, k), AssetRows(q, k));
    CountPermuted(AssetRows(p, k), AssetRows(q, k), AUTHORITATIVE);
  }

  lemma HashRemarksPermuted(p: seq<EvidenceRow>, q: seq<EvidenceRow>)
    requires Permuted(p, q) && UniqueIds(p)
    ensures HashRemarks(p) == HashRemarks(q)
  {
    hide Labels, KeyRemarks, MultipleKnown, JoinRemarks, Permuted, UniqueIds;
    FlagsPermuted(p, q, "");
    LabelsPermuted(p, q, ASSET);
    forall r: Remark ensures r in JoinRemarks(p, Labels(p, ASSET)) <==> r in JoinRemarks(q, Labels(q, ASSET)) {
      RemarkOfKey(p, Labels(p, ASSET), r);
      RemarkOfKey(q, Labels(q, ASSET), r);
      forall k ensures KeyRemarks(p, k) == KeyRemarks(q, k) {
        KeyRemarksPermuted(p, q, k);
      }
    }
  }

  /** With unique ids the same rows in another order draw the same warnings, but
      for the one that goes with the order-dependent counter. */
  lemma WarningsPermuted(p: seq<EvidenceRow>, q: seq<EvidenceRow>)
    requires Permuted(p, q) && UniqueIds(p)
    ensures Warnings(p) - {UnknownAssets} == Warnings(q) - {UnknownAssets}
    ensures !AmbiguousTop(p) ==> Warnings(p) == Warnings(q)
  {
    hide Labels, JoinWarnings, Dedupe, HashRows, HashRemarks, Permuted, UniqueIds, AmbiguousTop;
    OrderIndependent(p, q);
    LabelsPermuted(p, q, HASH);
    if !AmbiguousTop(p) {
      UnknownCountPermuted(p, q);
    }
    forall w: Warning ensures w in JoinWarnings(p, Labels(p, HASH)) <==> w in JoinWarnings(q, Labels(q, HASH)) {
      WarningOfHash(p, Labels(p, HASH), w);
      WarningOfHash(q, Labels(q, HASH), w);
      if w.OfHash? {
        HashRowsPermuted(p, q, w.hash);
        HashRemarksPermuted(HashRows(p, w.hash), HashRows(q, w.hash));
      }
    }
    assert JoinWarnings(p, Labels(p, HASH)) == JoinWarnings(q, Labels(q, HASH));
  }
}
