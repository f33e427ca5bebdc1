/** Merging the evidence rows that share a transaction hash. */
module EvidenceDedup {
  import opened Basics
  import opened Decimals
  import opened EvidenceRows
  import opened Rows

  datatype Part = Part(rows: seq<EvidenceRow>, unknownAssets: nat, conflicts: nat)

  datatype Deduped = Deduped(rows: seq<EvidenceRow>, invalidHashes: nat, unknownMovements: nat, unknownAssets: nat,
                             conflicts: nat)

  const HASH: EvidenceRow -> Option<string> := (r: EvidenceRow) => r.txHash
  const ASSET: EvidenceRow -> Option<string> := (r: EvidenceRow) => Some(KeyOf(r))

  const HASHLESS: EvidenceRow -> bool := (r: EvidenceRow) => r.txHash == None
  const UNCONFIRMED: EvidenceRow -> bool := (r: EvidenceRow) => r.outcome != Confirmed
  const INVALID: EvidenceRow -> bool :=
    (r: EvidenceRow) => r.txHash == None && r.outcome == Confirmed && ParseDecimal(r.amount, 2).Some?
  const HASHLESS_UNKNOWN: EvidenceRow -> bool :=
    (r: EvidenceRow) => r.txHash == None && r.outcome == Confirmed && !Known(r)
  const AUTHORITATIVE: EvidenceRow -> bool := (r: EvidenceRow) => r.source.TokenOperation?

  function ToReview(r: EvidenceRow): EvidenceRow { r.(outcome := Review) }

  function ToUnknownReview(r: EvidenceRow): EvidenceRow { r.(context := NoContext, outcome := Review) }

  // ----- the flags of one hash -----

  predicate MultipleKnown(g: seq<EvidenceRow>) {
    exists a, b :: a in g && b in g && Known(a) && Known(b) && KeyOf(a) != KeyOf(b)
  }

  predicate HasKnown(g: seq<EvidenceRow>) { exists r :: r in g && Known(r) }

  predicate HasUnknown(g: seq<EvidenceRow>) { exists r :: r in g && !Known(r) }

  /** More than one token operation, or a row that does not tell of the
      preferred row's movement. */
  predicate SemanticConflict(rows: seq<EvidenceRow>)
    requires rows != []
  {
    CountIf(rows, AUTHORITATIVE) > 1 || (|rows| > 1 && exists r :: r in rows && !SameMovement(r, Chosen(rows)))
  }

  function AssetRows(g: seq<EvidenceRow>, k: string): seq<EvidenceRow> { Labelled(g, ASSET, k) }

  lemma AssetRowsMembers(g: seq<EvidenceRow>, k: string)
    ensures forall r :: r in AssetRows(g, k) <==> r in g && KeyOf(r) == k
  {
    LabelledMembers(g, ASSET, k);
  }

  predicate KnownConflict(g: seq<EvidenceRow>) {
    exists r :: r in g && Known(r) && AssetRows(g, KeyOf(r)) != [] && SemanticConflict(AssetRows(g, KeyOf(r)))
  }

  /** Every row without an asset mirrors some row with one. */
  predicate UnknownMirror(g: seq<EvidenceRow>) {
    && HasUnknown(g) && HasKnown(g)
    && forall u :: u in g && !Known(u) ==> exists w :: w in g && Known(w) && SameMovement(u, w)
  }

  predicate UnknownAssetConflict(g: seq<EvidenceRow>) {
    HasUnknown(g) && HasKnown(g) && (!UnknownMirror(g) || MultipleKnown(g) || KnownConflict(g))
  }

  predicate GroupConflict(g: seq<EvidenceRow>, k: string) {
    MultipleKnown(g) || UnknownAssetConflict(g) || (AssetRows(g, k) != [] && SemanticConflict(AssetRows(g, k)))
  }

  /** What the rows of one hash and one asset key turn into. */
  function KeyPart(g: seq<EvidenceRow>, k: string): Part {
    var rows := AssetRows(g, k);
    var conflict := GroupConflict(g, k);
    if rows == [] then Part([], 0, 0)
    else if IsUnknownKey(k) && HasKnown(g) then
      if UnknownMirror(g) && !UnknownAssetConflict(g) && !conflict then Part([], 0, 0)
      else Part(Map(rows, ToUnknownReview), 0, if conflict then 1 else 0)
    else
      var chosen := Chosen(rows);
      Part(if conflict then Map(rows, ToReview) else [chosen],
           if chosen.outcome == Confirmed && !Known(chosen) then 1 else 0,
           if conflict then 1 else 0)
  }

  function Joined(a: Part, b: Part): Part {
    Part(a.rows + b.rows, a.unknownAssets + b.unknownAssets, a.conflicts + b.conflicts)
  }

  function JoinKeys(g: seq<EvidenceRow>, ks: seq<string>): Part {
    if ks == [] then Part([], 0, 0) else Joined(JoinKeys(g, ks[..|ks| - 1]), KeyPart(g, ks[|ks| - 1]))
  }

  function HashPart(g: seq<EvidenceRow>): Part { JoinKeys(g, Labels(g, ASSET)) }

  function HashRows(input: seq<EvidenceRow>, h: string): seq<EvidenceRow> { Labelled(input, HASH, h) }

  lemma HashRowsMembers(input: seq<EvidenceRow>, h: string)
    ensures forall r :: r in HashRows(input, h) <==> r in input && r.txHash == Some(h)
  {
    LabelledMembers(input, HASH, h);
  }

  function JoinHashes(input: seq<EvidenceRow>, hs: seq<string>): Part {
    if hs == [] then Part([], 0, 0)
    else Joined(JoinHashes(input, hs[..|hs| - 1]), HashPart(HashRows(input, hs[|hs| - 1])))
  }

  /** `dedupeRows`. */
  function Dedupe(input: seq<EvidenceRow>): Deduped {
    var merged := JoinHashes(input, Labels(input, HASH));
    Deduped(Filter(input, HASHLESS) + merged.rows,
            CountIf(input, INVALID), CountIf(input, UNCONFIRMED),
            CountIf(input, HASHLESS_UNKNOWN) + merged.unknownAssets, merged.conflicts)
  }

  // ----- warnings -----

  /** What is said about one transaction hash. */
  datatype Remark = MultipleAssets | ManyAuthoritative | Conflicting | UnresolvedAsset

  datatype Warning = OfHash(hash: string, remark: Remark) | InvalidHashes | UnknownMovements | UnknownAssets

  /** The rows of an unknown asset that add nothing to the known one. */
  predicate Dropped(g: seq<EvidenceRow>, k: string) {
    IsUnknownKey(k) && HasKnown(g) && UnknownMirror(g) && !UnknownAssetConflict(g) && !GroupConflict(g, k)
  }

  function KeyRemarks(g: seq<EvidenceRow>, k: string): set<Remark> {
    var rows := AssetRows(g, k);
    if rows == [] then {}
    else
      (if !GroupConflict(g, k) then {}
       else if CountIf(rows, AUTHORITATIVE) > 1 then {ManyAuthoritative} else {Conflicting})
      + (if IsUnknownKey(k) && HasKnown(g) && !Dropped(g, k) then {UnresolvedAsset} else {})
  }

  function JoinRemarks(g: seq<EvidenceRow>, ks: seq<string>): set<Remark> {
    if ks == [] then {} else JoinRemarks(g, ks[..|ks| - 1]) + KeyRemarks(g, ks[|ks| - 1])
  }

  function HashRemarks(g: seq<EvidenceRow>): set<Remark> {
    (if MultipleKnown(g) then {MultipleAssets} else {}) + JoinRemarks(g, Labels(g, ASSET))
  }

  function Tagged(h: string, remarks: set<Remark>): set<Warning> { set r | r in remarks :: OfHash(h, r) }

  function JoinWarnings(input: seq<EvidenceRow>, hs: seq<string>): set<Warning> {
    if hs == [] then {}
    else JoinWarnings(input, hs[..|hs| - 1]) + Tagged(hs[|hs| - 1], HashRemarks(HashRows(input, hs[|hs| - 1])))
  }

  function CounterWarnings(d: Deduped): set<Warning> {
    (if d.invalidHashes > 0 then {InvalidHashes} else {}) + (if d.unknownMovements > 0 then {UnknownMovements} else {})
    + (if d.unknownAssets > 0 then {UnknownAssets} else {})
  }

  /** The warnings of `dedupeRows`, as a set. */
  function Warnings(input: seq<EvidenceRow>): set<Warning> {
    JoinWarnings(input, Labels(input, HASH)) + CounterWarnings(Dedupe(input))
  }

  // ----- the loops -----

  lemma AssetRowsSnoc(g: seq<EvidenceRow>, row: EvidenceRow, k: string)
    ensures AssetRows(g + [row], k) == AssetRows(g, k) + (if k == KeyOf(row) then [row] else [])
  {
    LabelledSnoc(g, row, ASSET, k);
  }

  lemma AssetLabelsSnoc(g: seq<EvidenceRow>, row: EvidenceRow)
    ensures Labels(g + [row], ASSET)
              == if KeyOf(row) in Labels(g, ASSET) then Labels(g, ASSET) else Labels(g, ASSET) + [KeyOf(row)]
  {
    LabelsSnoc(g, row, ASSET);
  }

  lemma AssetRowsStart()
    ensures Labels([], ASSET) == [] && forall k :: AssetRows([], k) == []
  {}

  /** The map holds every group in full. */
  ghost predicate Grouped(g: seq<EvidenceRow>, byAsset: map<string, seq<EvidenceRow>>) {
    forall k :: AssetRows(g, k) == if k in byAsset then byAsset[k] else []
  }

  /** The rows of one hash by asset key. */
  method GroupByAsset(g: seq<EvidenceRow>) returns (order: seq<string>, byAsset: map<string, seq<EvidenceRow>>)
    ensures order == Labels(g, ASSET)
    ensures forall k :: k in order <==> k in byAsset
    ensures forall k :: k in byAsset ==> byAsset[k] == AssetRows(g, k) && byAsset[k] != []
  {
    hide Labels, AssetRows, KeyOf;
    order, byAsset := [], map[];
    AssetRowsStart();
    for i := 0 to |g|
      invariant order == Labels(g[..i], ASSET)
      invariant forall k :: k in order <==> k in byAsset
      invariant forall k :: k in byAsset ==> byAsset[k] != []
      invariant Grouped(g[..i], byAsset)
    {
      var row := g[i];
      var key := KeyOf(row);
      assert g[..i + 1] == g[..i] + [row];
      AssetLabelsSnoc(g[..i], row);
      ghost var was := byAsset;
      var rows := if key in byAsset then byAsset[key] else [];
      if key !in byAsset {
        order := order + [key];
      }
      byAsset := byAsset[key := rows + [row]];
      forall k ensures AssetRows(g[..i + 1], k) == if k in byAsset then byAsset[k] else [] {
        AssetRowsSnoc(g[..i], row, k);
        assert AssetRows(g[..i], k) == if k in was then was[k] else [];
      }
    }
    assert g[..|g|] == g;
  }

  /** The rows under some keys, one key after the other. */
  function RowsOf(byAsset: map<string, seq<EvidenceRow>>, keys: seq<string>): seq<EvidenceRow>
    requires forall k :: k in keys ==> k in byAsset
  {
    if keys == [] then [] else RowsOf(byAsset, keys[..|keys| - 1]) + byAsset[keys[|keys| - 1]]
  }

  lemma {:induction false} RowsOfMembers(byAsset: map<string, seq<EvidenceRow>>, keys: seq<string>)
    requires forall k :: k in keys ==> k in byAsset
    ensures forall r :: r in RowsOf(byAsset, keys) <==> exists k :: k in keys && r in byAsset[k]
  {
    if keys != [] {
      var n := |keys| - 1;
      assert keys == keys[..n] + [keys[n]];
      RowsOfMembers(byAsset, keys[..n]);
    }
  }

  lemma KnownRowsOf(g: seq<EvidenceRow>, byAsset: map<string, seq<EvidenceRow>>, keys: seq<string>, unknown: bool)
    requires forall k :: k in keys <==> k in Labels(g, ASSET) && IsUnknownKey(k) == unknown
    requires forall k :: k in keys ==> k in byAsset && byAsset[k] == AssetRows(g, k)
    ensures forall r :: r in RowsOf(byAsset, keys) <==> r in g && Known(r) == !unknown
  {
    hide RowsOf, Labels, AssetRows, Known, IsUnknownKey;
    RowsOfMembers(byAsset, keys);
    LabelsMembers(g, ASSET);
    forall r ensures r in RowsOf(byAsset, keys) <==> r in g && Known(r) == !unknown {
      AssetRowsMembers(g, KeyOf(r));
      KnownIsStored(r);
      if k :| k in keys && r in byAsset[k] {
        AssetRowsMembers(g, k);
      }
      UnknownKeyIsUnknownAsset(r.context);
      if r in g {
        assert ASSET(r) == Some(KeyOf(r));
        assert KeyOf(r) in Labels(g, ASSET);
      }
      if r in g && Known(r) == !unknown {
        assert KeyOf(r) in keys && r in byAsset[KeyOf(r)];
      }
    }
  }

  lemma KnownIsStored(r: EvidenceRow)
    ensures Known(r) <==> !IsUnknownKey(KeyOf(r))
  {
    UnknownKeyIsUnknownAsset(r.context);
  }

  lemma KnownKeys(g: seq<EvidenceRow>, known: seq<string>)
    requires forall k :: k in known <==> k in Labels(g, ASSET) && !IsUnknownKey(k)
    ensures forall k :: k in known <==> exists r :: r in g && Known(r) && KeyOf(r) == k
  {
    LabelsMembers(g, ASSET);
    forall k ensures k in known <==> exists r :: r in g && Known(r) && KeyOf(r) == k {
      if k in known {
        var r :| r in g && ASSET(r) == Some(k);
        UnknownKeyIsUnknownAsset(r.context);
        assert r in g && Known(r) && KeyOf(r) == k;
      }
      if r :| r in g && Known(r) && KeyOf(r) == k {
        UnknownKeyIsUnknownAsset(r.context);
        assert ASSET(r) == Some(k);
      }
    }
  }

  lemma ManyKnownKeys(g: seq<EvidenceRow>, known: seq<string>)
    requires Distinct(known)
    requires forall k :: k in known <==> exists r :: r in g && Known(r) && KeyOf(r) == k
    ensures |known| > 1 <==> MultipleKnown(g)
    ensures known == [] <==> !HasKnown(g)
  {
    hide Known, KeyOf;
    if known != [] {
      assert known[0] in known;
    }
    if r :| r in g && Known(r) {
      assert KeyOf(r) in known;
    }
    if |known| > 1 {
      assert known[0] in known && known[1] in known && known[0] != known[1];
      var a :| a in g && Known(a) && KeyOf(a) == known[0];
      var b :| b in g && Known(b) && KeyOf(b) == known[1];
      assert MultipleKnown(g);
    }
    if MultipleKnown(g) {
      var a, b :| a in g && b in g && Known(a) && Known(b) && KeyOf(a) != KeyOf(b);
      assert KeyOf(a) in known && KeyOf(b) in known;
    }
  }

  datatype Flags = Flags(known: bool, multiple: bool, mirror: bool, assetConflict: bool)

  ghost predicate FlagsOf(g: seq<EvidenceRow>, f: Flags) {
    && f.known == HasKnown(g) && f.multiple == MultipleKnown(g)
    && f.mirror == UnknownMirror(g) && f.assetConflict == UnknownAssetConflict(g)
  }

  /** One hash and one asset key. */
  method MergeKey(ghost group: seq<EvidenceRow>, key: string, rows: seq<EvidenceRow>, flags: Flags)
      returns (part: Part, remarks: set<Remark>)
    requires rows == AssetRows(group, key) && rows != [] && FlagsOf(group, flags)
    ensures part == KeyPart(group, key) && remarks == KeyRemarks(group, key)
  {
    hide Known, Chosen, IsUnknownKey, SemanticConflict, AssetRows, HasKnown, MultipleKnown;
    hide UnknownMirror, UnknownAssetConflict;
    var chosen := Chosen(rows);
    var conflict := flags.multiple || SemanticConflict(rows) || flags.assetConflict;
    var conflicts := 0;
    remarks := {};
    if conflict {
      conflicts := 1;
      remarks := if CountIf(rows, AUTHORITATIVE) > 1 then {ManyAuthoritative} else {Conflicting};
    }
    if IsUnknownKey(key) && flags.known {
      if flags.mirror && !flags.assetConflict && !conflict {
        return Part([], 0, 0), remarks;
      }
      remarks := remarks + {UnresolvedAsset};
      return Part(Map(rows, ToUnknownReview), 0, conflicts), remarks;
    }
    var unknownAssets := 0;
    if chosen.outcome == Confirmed && !Known(chosen) {
      unknownAssets := 1;
    }
    part := Part(if conflict then Map(rows, ToReview) else [chosen], unknownAssets, conflicts);
  }

  method FindFlags(group: seq<EvidenceRow>, order: seq<string>, byAsset: map<string, seq<EvidenceRow>>)
      returns (flags: Flags)
    requires order == Labels(group, ASSET)
    requires forall k :: k in order ==> k in byAsset && byAsset[k] == AssetRows(group, k) && byAsset[k] != []
    ensures FlagsOf(group, flags)
  {
    hide Labels, AssetRows, SemanticConflict, SameMovement, IsUnknownKey, Known, KeyOf;
    var known := Filter(order, k => !IsUnknownKey(k));
    var unknown := Filter(order, k => IsUnknownKey(k));
    LabelsMembers(group, ASSET);
    FilterDistinct(order, k => !IsUnknownKey(k));
    FilterMembers(order, k => !IsUnknownKey(k));
    FilterMembers(order, k => IsUnknownKey(k));
    KnownKeys(group, known);
    ManyKnownKeys(group, known);
    KnownRowsOf(group, byAsset, known, false);
    KnownRowsOf(group, byAsset, unknown, true);
    KnownConflictKeys(group, byAsset, known);
    hide Filter, RowsOf, KnownConflict, MultipleKnown;
    var knownRows := RowsOf(byAsset, known);
    var unknownRows := RowsOf(byAsset, unknown);
    NonEmptyRows(knownRows);
    NonEmptyRows(unknownRows);
    var knownConflict := exists k :: k in known && SemanticConflict(byAsset[k]);
    var mirror := unknownRows != [] && knownRows != []
                  && forall u :: u in unknownRows ==> exists w :: w in knownRows && SameMovement(u, w);
    MirrorRows(group, knownRows, unknownRows);
    hide UnknownMirror;
    flags := Flags(known != [], |known| > 1, mirror,
                   unknownRows != [] && knownRows != [] && (!mirror || |known| > 1 || knownConflict));
  }

  lemma MirrorRows(g: seq<EvidenceRow>, knownRows: seq<EvidenceRow>, unknownRows: seq<EvidenceRow>)
    requires forall r :: r in knownRows <==> r in g && Known(r)
    requires forall r :: r in unknownRows <==> r in g && !Known(r)
    ensures (&& unknownRows != [] && knownRows != []
             && forall u :: u in unknownRows ==> exists w :: w in knownRows && SameMovement(u, w))
            <==> UnknownMirror(g)
  {
    hide Known, SameMovement;
    NonEmptyRows(knownRows);
    NonEmptyRows(unknownRows);
  }

  /** One hash: all its flags, then one asset key after the other. */
  method MergeHash(group: seq<EvidenceRow>) returns (part: Part, remarks: set<Remark>)
    ensures part == HashPart(group) && remarks == HashRemarks(group)
  {
    hide Labels, AssetRows, KeyPart, KeyRemarks, MultipleKnown, HasKnown, UnknownMirror, UnknownAssetConflict;
    var order, byAsset := GroupByAsset(group);
    var flags := FindFlags(group, order, byAsset);
    part := Part([], 0, 0);
    remarks := if flags.multiple then {MultipleAssets} else {};
    ghost var first := remarks;
    for i := 0 to |order|
      invariant part == JoinKeys(group, order[..i]) && remarks == first + JoinRemarks(group, order[..i])
    {
      var merged, more := MergeKey(group, order[i], byAsset[order[i]], flags);
      assert order[..i + 1][..i] == order[..i];
      part := Part(part.rows + merged.rows, part.unknownAssets + merged.unknownAssets,
                   part.conflicts + merged.conflicts);
      remarks := remarks + more;
    }
    assert order[..|order|] == order;
  }

  lemma NonEmptyRows(rows: seq<EvidenceRow>)
    ensures rows != [] <==> exists r :: r in rows
  {
    if rows != [] {
      assert rows[0] in rows;
    }
  }

  lemma {:induction false} FilterDistinct(ls: seq<string>, p: string -> bool)
    requires Distinct(ls)
    ensures Distinct(Filter(ls, p))
  {
    if ls != [] {
      var n := |ls| - 1;
      FilterDistinct(ls[..n], p);
      FilterMembers(ls[..n], p);
      assert forall l :: l in Filter(ls[..n], p) ==> l != ls[n] by {
        assert forall l :: l in ls[..n] ==> exists i :: 0 <= i < n && ls[i] == l;
      }
      var f := Filter(ls[..n], p);
      assert forall i :: 0 <= i < |f| ==> f[i] in f;
    }
  }

  lemma KnownConflictKeys(g: seq<EvidenceRow>, byAsset: map<string, seq<EvidenceRow>>, known: seq<string>)
    requires forall k :: k in known ==> k in byAsset && byAsset[k] == AssetRows(g, k) && byAsset[k] != []
    requires forall k :: k in known <==> exists r :: r in g && Known(r) && KeyOf(r) == k
    ensures (exists k :: k in known && SemanticConflict(byAsset[k])) <==> KnownConflict(g)
  {
    hide Known, SemanticConflict, AssetRows, KeyOf;
    if k :| k in known && SemanticConflict(byAsset[k]) {
      var r :| r in g && Known(r) && KeyOf(r) == k;
      assert SemanticConflict(AssetRows(g, KeyOf(r)));
    }
    if r :| r in g && Known(r) && AssetRows(g, KeyOf(r)) != [] && SemanticConflict(AssetRows(g, KeyOf(r))) {
      assert KeyOf(r) in known && SemanticConflict(byAsset[KeyOf(r)]);
    }
  }

  lemma HashRowsSnoc(input: seq<EvidenceRow>, row: EvidenceRow, h: string)
    ensures HashRows(input + [row], h) == HashRows(input, h) + (if row.txHash == Some(h) then [row] else [])
  {
    LabelledSnoc(input, row, HASH, h);
  }

  lemma HashLabelsSnoc(input: seq<EvidenceRow>, row: EvidenceRow)
    ensures Labels(input + [row], HASH)
              == if row.txHash == None || row.txHash.value in Labels(input, HASH) then Labels(input, HASH)
                 else Labels(input, HASH) + [row.txHash.value]
  {
    LabelsSnoc(input, row, HASH);
  }

  lemma CountsSnoc(input: seq<EvidenceRow>, row: EvidenceRow)
    ensures CountIf(input + [row], INVALID) == CountIf(input, INVALID) + (if INVALID(row) then 1 else 0)
    ensures CountIf(input + [row], UNCONFIRMED) == CountIf(input, UNCONFIRMED) + (if UNCONFIRMED(row) then 1 else 0)
    ensures CountIf(input + [row], HASHLESS_UNKNOWN)
              == CountIf(input, HASHLESS_UNKNOWN) + (if HASHLESS_UNKNOWN(row) then 1 else 0)
    ensures Filter(input + [row], HASHLESS) == Filter(input, HASHLESS) + (if row.txHash == None then [row] else [])
  {
    CountSnoc(input, row, INVALID);
    CountSnoc(input, row, UNCONFIRMED);
    CountSnoc(input, row, HASHLESS_UNKNOWN);
    assert (input + [row])[..|input|] == input;
  }

  ghost predicate GroupedByHash(input: seq<EvidenceRow>, byHash: map<string, seq<EvidenceRow>>) {
    forall h :: HashRows(input, h) == if h in byHash then byHash[h] else []
  }

  lemma HashRowsStart()
    ensures Labels([], HASH) == [] && GroupedByHash([], map[]) && Filter([], HASHLESS) == []
    ensures CountIf([], INVALID) == 0 && CountIf([], UNCONFIRMED) == 0 && CountIf([], HASHLESS_UNKNOWN) == 0
  {}

  lemma GroupedSnoc(input: seq<EvidenceRow>, row: EvidenceRow, byHash: map<string, seq<EvidenceRow>>)
    requires GroupedByHash(input, byHash) && row.txHash.Some?
    ensures var h := row.txHash.value;
            GroupedByHash(input + [row], byHash[h := (if h in byHash then byHash[h] else []) + [row]])
  {
    hide HashRows;
    var h := row.txHash.value;
    var grown := byHash[h := (if h in byHash then byHash[h] else []) + [row]];
    forall l ensures HashRows(input + [row], l) == if l in grown then grown[l] else [] {
      HashRowsSnoc(input, row, l);
    }
  }

  lemma GroupedSkip(input: seq<EvidenceRow>, row: EvidenceRow, byHash: map<string, seq<EvidenceRow>>)
    requires GroupedByHash(input, byHash) && row.txHash == None
    ensures GroupedByHash(input + [row], byHash)
  {
    hide HashRows;
    forall l ensures HashRows(input + [row], l) == if l in byHash then byHash[l] else [] {
      HashRowsSnoc(input, row, l);
    }
  }

  method DedupeRows(input: seq<EvidenceRow>) returns (out: Deduped, warnings: set<Warning>)
    ensures out == Dedupe(input) && warnings == Warnings(input)
  {
    hide CountIf, Filter, Labels, GroupedByHash, HashRows, Known, HashPart, HashRemarks, ParseDecimal;
    var invalid, unconfirmed, unknownAssets, conflicts := 0, 0, 0, 0;
    var order: seq<string>, byHash: map<string, seq<EvidenceRow>> := [], map[];
    var selected: seq<EvidenceRow> := [];
    HashRowsStart();
    for i := 0 to |input|
      invariant invalid == CountIf(input[..i], INVALID) && unconfirmed == CountIf(input[..i], UNCONFIRMED)
      invariant unknownAssets == CountIf(input[..i], HASHLESS_UNKNOWN)
      invariant selected == Filter(input[..i], HASHLESS)
      invariant order == Labels(input[..i], HASH)
      invariant forall h :: h in order <==> h in byHash
      invariant GroupedByHash(input[..i], byHash)
    {
      var row := input[i];
      assert input[..i + 1] == input[..i] + [row];
      HashLabelsSnoc(input[..i], row);
      CountsSnoc(input[..i], row);
      if row.txHash == None {
        GroupedSkip(input[..i], row, byHash);
        if ParseDecimal(row.amount, 2).Some? && row.outcome == Confirmed { invalid := invalid + 1; }
        if row.outcome != Confirmed { unconfirmed := unconfirmed + 1; }
        if row.outcome == Confirmed && !Known(row) { unknownAssets := unknownAssets + 1; }
        selected := selected + [row];
      } else {
        GroupedSnoc(input[..i], row, byHash);
        var h := row.txHash.value;
        var group := if h in byHash then byHash[h] else [];
        if h !in byHash {
          order := order + [h];
        }
        byHash := byHash[h := group + [row]];
        if row.outcome != Confirmed { unconfirmed := unconfirmed + 1; }
      }
    }
    assert input[..|input|] == input;
    FullGroups(input, order, byHash);
    warnings := {};
    for i := 0 to |order|
      invariant warnings == JoinWarnings(input, order[..i])
      invariant var merged := JoinHashes(input, order[..i]);
                && selected == Filter(input, HASHLESS) + merged.rows
                && unknownAssets == CountIf(input, HASHLESS_UNKNOWN) + merged.unknownAssets
                && conflicts == merged.conflicts
    {
      var part, remarks := MergeHash(byHash[order[i]]);
      assert order[..i + 1][..i] == order[..i];
      selected := selected + part.rows;
      unknownAssets := unknownAssets + part.unknownAssets;
      conflicts := conflicts + part.conflicts;
      warnings := warnings + Tagged(order[i], remarks);
    }
    assert order[..|order|] == order;
    if invalid > 0 { warnings := warnings + {InvalidHashes}; }
    if unconfirmed > 0 { warnings := warnings + {UnknownMovements}; }
    if unknownAssets > 0 { warnings := warnings + {UnknownAssets}; }
    out := Deduped(selected, invalid, unconfirmed, unknownAssets, conflicts);
  }

  lemma FullGroups(input: seq<EvidenceRow>, order: seq<string>, byHash: map<string, seq<EvidenceRow>>)
    requires GroupedByHash(input, byHash) && forall h :: h in order <==> h in byHash
    ensures forall h :: h in order ==> byHash[h] == HashRows(input, h)
  {
    hide HashRows;
    forall h | h in order ensures byHash[h] == HashRows(input, h) {
      assert HashRows(input, h) == if h in byHash then byHash[h] else [];
    }
  }
}
