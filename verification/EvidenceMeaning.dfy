/** What merging does to the rows of one transaction hash, said of the rows'
    own fields: who agrees with whom, which row is kept and which are reviewed. */
module EvidenceMeaning {
  import opened Basics
  import opened Numerals
  import opened Decimals
  import opened EvidenceRows
  import opened Rows
  import opened EvidenceDedup
  import opened EvidenceLaws
  import opened EvidenceOrder

  // ----- agreement -----

  /** Tokens go out for an award and come back for a spend. */
  predicate Issues(r: EvidenceRow) { r.source == AwardTable || r.source == TokenOperation(AwardKind) }

  predicate SameIfKnown(a: Option<string>, b: Option<string>) { a.Some? && b.Some? ==> a == b }

  function Lowered(a: Option<string>): Option<string> { if a.Some? then Some(Lower(a.value)) else None }

  predicate SameOwner(a: EvidenceRow, b: EvidenceRow) {
    && SameIfKnown(a.userId, b.userId) && SameIfKnown(a.uid, b.uid)
    && SameIfKnown(Lowered(a.walletAddress), Lowered(b.walletAddress))
  }

  predicate SameAmount(a: EvidenceRow, b: EvidenceRow) {
    ParseDecimal(a.amount, 2).Some? && ParseDecimal(a.amount, 2) == ParseDecimal(b.amount, 2)
  }

  /** The same way, the same amount, and no owner field that speaks against it. */
  predicate Agree(a: EvidenceRow, b: EvidenceRow) { Issues(a) == Issues(b) && SameAmount(a, b) && SameOwner(a, b) }

  lemma AgreeIsSameMovement(a: EvidenceRow, b: EvidenceRow)
    ensures Agree(a, b) <==> SameMovement(a, b)
  {
    hide ParseDecimal, Lower;
  }

  /** Token operations stand before table rows, smaller ids before larger ones,
      earlier rows before later ones. */
  predicate Precedes(rows: seq<EvidenceRow>, i: nat, j: nat)
    requires i < |rows| && j < |rows|
  {
    if rows[i].source.TokenOperation? != rows[j].source.TokenOperation? then rows[i].source.TokenOperation?
    else rows[i].id < rows[j].id || (rows[i].id == rows[j].id && i < j)
  }

  predicate Leads(rows: seq<EvidenceRow>, i: nat) {
    i < |rows| && forall j :: 0 <= j < |rows| && j != i ==> Precedes(rows, i, j)
  }

  predicate OneOperation(rows: seq<EvidenceRow>) {
    forall i, j :: 0 <= i < j < |rows| ==> !(rows[i].source.TokenOperation? && rows[j].source.TokenOperation?)
  }

  /** At most one token operation, and all rows agree with the leading one. */
  predicate Consistent(rows: seq<EvidenceRow>) {
    && OneOperation(rows)
    && forall i, j :: 0 <= i < |rows| && 0 <= j < |rows| && |rows| > 1 && Leads(rows, i) ==> Agree(rows[j], rows[i])
  }

  predicate OneAsset(rows: seq<EvidenceRow>) {
    forall a, b :: a in rows && b in rows ==> AssetOf(a.context) == AssetOf(b.context)
  }

  // ----- the rows of one hash -----

  predicate HasAsset(r: EvidenceRow) { AssetOf(r.context) != UnknownAsset }

  function WithAsset(h: string): EvidenceRow -> bool { (r: EvidenceRow) => r.txHash == Some(h) && HasAsset(r) }

  function WithoutAsset(h: string): EvidenceRow -> bool { (r: EvidenceRow) => r.txHash == Some(h) && !HasAsset(r) }

  /** The rows of a hash that store an asset, and those that do not. */
  function Stored(input: seq<EvidenceRow>, h: string): seq<EvidenceRow> { Filter(input, WithAsset(h)) }

  function Bare(input: seq<EvidenceRow>, h: string): seq<EvidenceRow> { Filter(input, WithoutAsset(h)) }

  predicate Mirrored(s: seq<EvidenceRow>, b: seq<EvidenceRow>) {
    forall u :: u in b ==> exists w :: w in s && Agree(u, w)
  }

  /** One asset, rows that agree, and no bare row without a stored one like it;
      or no asset at all and rows that agree. */
  predicate Undisputed(s: seq<EvidenceRow>, b: seq<EvidenceRow>) {
    if s == [] then Consistent(b) else OneAsset(s) && Consistent(s) && Mirrored(s, b)
  }

  function InReview(r: EvidenceRow): EvidenceRow { r.(outcome := Review) }

  function InReviewBare(r: EvidenceRow): EvidenceRow { r.(outcome := Review, context := NoContext) }

  // ----- leading is being chosen -----

  lemma {:induction false} ChosenLeads(rows: seq<EvidenceRow>) returns (i: nat)
    requires rows != []
    ensures Leads(rows, i) && rows[i] == Chosen(rows)
  {
    var n := |rows| - 1;
    if n == 0 {
      i := 0;
    } else {
      i := ChosenLeads(rows[..n]);
      if Before(rows[n], rows[..n][i]) {
        forall j | 0 <= j < n ensures Precedes(rows, n, j) {
          assert j == i || Precedes(rows[..n], i, j);
        }
        i := n;
      } else {
        forall j | 0 <= j < |rows| && j != i ensures Precedes(rows, i, j) {
          assert j == n || Precedes(rows[..n], i, j);
        }
      }
    }
  }

  lemma OneLeads(rows: seq<EvidenceRow>, i: nat, j: nat)
    requires Leads(rows, i) && Leads(rows, j)
    ensures i == j
  {
    if i != j {
      PrecedesOnce(rows, i, j);
    }
  }

  lemma PrecedesOnce(rows: seq<EvidenceRow>, i: nat, j: nat)
    requires i < |rows| && j < |rows| && i != j
    ensures !(Precedes(rows, i, j) && Precedes(rows, j, i))
  {}

  lemma LeaderIsChosen(rows: seq<EvidenceRow>, i: nat)
    requires Leads(rows, i)
    ensures rows[i] == Chosen(rows)
  {
    var j := ChosenLeads(rows);
    OneLeads(rows, i, j);
  }

  lemma {:induction false} OneOperationCount(rows: seq<EvidenceRow>)
    ensures OneOperation(rows) <==> CountIf(rows, AUTHORITATIVE) <= 1
  {
    if rows != [] {
      var n := |rows| - 1;
      assert rows == rows[..n] + [rows[n]];
      OneOperationCount(rows[..n]);
      CountZero(rows[..n], AUTHORITATIVE);
      if OneOperation(rows) {
        assert OneOperation(rows[..n]);
      } else if OneOperation(rows[..n]) {
        var i, j :| 0 <= i < j < |rows| && rows[i].source.TokenOperation? && rows[j].source.TokenOperation?;
        assert j == n && rows[..n][i] in rows[..n];
      }
    }
  }

  lemma ConsistentIs(rows: seq<EvidenceRow>)
    requires rows != []
    ensures Consistent(rows) <==> !SemanticConflict(rows)
  {
    hide Agree, SameMovement, Chosen, Leads, OneOperation, CountIf;
    OneOperationCount(rows);
    var c := ChosenLeads(rows);
    forall r ensures Agree(r, rows[c]) <==> SameMovement(r, rows[c]) {
      AgreeIsSameMovement(r, rows[c]);
    }
    forall i | Leads(rows, i) ensures i == c {
      OneLeads(rows, i, c);
    }
  }

  // ----- the groups of a hash -----

  lemma HasAssetIs(r: EvidenceRow)
    ensures HasAsset(r) <==> Known(r)
    ensures !HasAsset(r) <==> KeyOf(r) == UNKNOWN_KEY
  {
    UnknownKeyIsUnknownAsset(r.context);
  }

  lemma SameAssetSameKey(a: EvidenceRow, b: EvidenceRow)
    ensures KeyOf(a) == KeyOf(b) <==> AssetOf(a.context) == AssetOf(b.context)
  {
    AssetKeyInjective(a.context, b.context);
  }

  lemma BareIs(input: seq<EvidenceRow>, h: string)
    ensures AssetRows(HashRows(input, h), UNKNOWN_KEY) == Bare(input, h)
  {
    hide KeyOf, HasAsset;
    FilterFilter(input, Rows.Named(HASH, h), Rows.Named(ASSET, UNKNOWN_KEY));
    forall r ensures HasAsset(r) <==> KeyOf(r) != UNKNOWN_KEY {
      HasAssetIs(r);
    }
    FilterExt(input, Both(Rows.Named(HASH, h), Rows.Named(ASSET, UNKNOWN_KEY)), WithoutAsset(h));
  }

  lemma StoredIs(input: seq<EvidenceRow>, h: string)
    requires Stored(input, h) != [] && OneAsset(Stored(input, h))
    ensures AssetRows(HashRows(input, h), KeyOf(Stored(input, h)[0])) == Stored(input, h)
  {
    hide KeyOf, HasAsset, Filter;
    var s := Stored(input, h);
    var k := KeyOf(s[0]);
    FilterMembers(input, WithAsset(h));
    assert s[0] in s;
    FilterFilter(input, Rows.Named(HASH, h), Rows.Named(ASSET, k));
    forall r | r in input ensures Both(Rows.Named(HASH, h), Rows.Named(ASSET, k))(r) == WithAsset(h)(r) {
      HasAssetIs(r);
      HasAssetIs(s[0]);
      SameAssetSameKey(r, s[0]);
      if WithAsset(h)(r) {
        assert r in s;
      }
    }
    FilterExt(input, Both(Rows.Named(HASH, h), Rows.Named(ASSET, k)), WithAsset(h));
  }

  lemma PartMembers(input: seq<EvidenceRow>, h: string)
    ensures forall r :: r in Stored(input, h) <==> r in HashRows(input, h) && Known(r)
    ensures forall r :: r in Bare(input, h) <==> r in HashRows(input, h) && !Known(r)
  {
    hide HasAsset, Known;
    HashRowsMembers(input, h);
    FilterMembers(input, WithAsset(h));
    FilterMembers(input, WithoutAsset(h));
    forall r ensures HasAsset(r) <==> Known(r) {
      HasAssetIs(r);
    }
  }

  /** The flags of the merge, said of the two parts of a hash. */
  lemma FlagsAre(input: seq<EvidenceRow>, h: string)
    ensures var g, s, b := HashRows(input, h), Stored(input, h), Bare(input, h);
            && (HasKnown(g) <==> s != []) && (HasUnknown(g) <==> b != [])
            && (MultipleKnown(g) <==> !OneAsset(s))
            && (UnknownMirror(g) <==> s != [] && b != [] && Mirrored(s, b))
  {
    hide Known, KeyOf, HashRows, Stored, Bare, SameMovement, Agree, AssetOf;
    var g, s, b := HashRows(input, h), Stored(input, h), Bare(input, h);
    PartMembers(input, h);
    forall a, b ensures KeyOf(a) == KeyOf(b) <==> AssetOf(a.context) == AssetOf(b.context) {
      SameAssetSameKey(a, b);
    }
    forall a, b ensures Agree(a, b) <==> SameMovement(a, b) {
      AgreeIsSameMovement(a, b);
    }
    if s != [] {
      assert s[0] in s;
    }
    if b != [] {
      assert b[0] in b;
    }
  }

  /** Whether a group is in conflict. */
  lemma ConflictIs(input: seq<EvidenceRow>, h: string, k: string)
    requires AssetRows(HashRows(input, h), k) != []
    ensures var g, s, b := HashRows(input, h), Stored(input, h), Bare(input, h);
            && (k != UNKNOWN_KEY ==> s != [])
            && (GroupConflict(g, k) <==> !Undisputed(s, b) || (k == UNKNOWN_KEY && !Consistent(b)))
            && (Undisputed(s, b) && k != UNKNOWN_KEY ==> AssetRows(g, k) == s)
            && (UnknownAssetConflict(g) ==> !Undisputed(s, b))
  {
    hide Known, KeyOf, AssetRows, HashRows, Stored, Bare, SemanticConflict, Consistent, OneAsset, Mirrored;
    hide HasKnown, HasUnknown, UnknownMirror, MultipleKnown, HasAsset;
    var g, s, b := HashRows(input, h), Stored(input, h), Bare(input, h);
    FlagsAre(input, h);
    BareIs(input, h);
    AssetRowsMembers(g, k);
    PartMembers(input, h);
    var r := AssetRows(g, k)[0];
    assert r in AssetRows(g, k);
    HasAssetIs(r);
    KeyIsUnknown(r);
    assert b != [] ==> (Consistent(b) <==> !SemanticConflict(b)) by {
      if b != [] {
        ConsistentIs(b);
      }
    }
    if k == UNKNOWN_KEY {
      assert r in b;
    } else {
      assert r in s;
    }
    NothingToMirror(s);
    if s != [] && OneAsset(s) {
      StoredIs(input, h);
      var l := KeyOf(s[0]);
      assert s[0] in s;
      HasAssetIs(s[0]);
      KeyIsUnknown(s[0]);
      ConsistentIs(s);
      StoredConflictIs(g, l);
      if k != UNKNOWN_KEY {
        OneStoredKey(s, r, s[0]);
      }
    }
  }

  lemma NothingToMirror(s: seq<EvidenceRow>)
    ensures Mirrored(s, []) && Consistent([]) && OneAsset([])
  {}

  lemma StoredConflictIs(g: seq<EvidenceRow>, l: string)
    requires !MultipleKnown(g) && !IsUnknownKey(l) && AssetRows(g, l) != []
    ensures KnownConflict(g) <==> SemanticConflict(AssetRows(g, l))
  {
    hide Known, KeyOf, SemanticConflict, AssetRows, IsUnknownKey;
    AssetRowsMembers(g, l);
    var r := AssetRows(g, l)[0];
    assert r in AssetRows(g, l);
    KnownIsStored(r);
  }

  lemma KeyIsUnknown(r: EvidenceRow)
    ensures IsUnknownKey(KeyOf(r)) <==> KeyOf(r) == UNKNOWN_KEY
  {
    UnknownKeyIsUnknownAsset(r.context);
  }

  lemma OneStoredKey(s: seq<EvidenceRow>, a: EvidenceRow, b: EvidenceRow)
    requires OneAsset(s) && a in s && b in s
    ensures KeyOf(a) == KeyOf(b)
  {
    SameAssetSameKey(a, b);
  }

  // ----- what the merge reports for one hash -----

  /** How a row goes under review: a bare row beside stored ones loses its
      context as well. */
  function Reviewing(s: seq<EvidenceRow>): EvidenceRow -> EvidenceRow {
    (r: EvidenceRow) => if s != [] && !HasAsset(r) then InReviewBare(r) else InReview(r)
  }

  function Kept(s: seq<EvidenceRow>, b: seq<EvidenceRow>): seq<EvidenceRow> { if s == [] then b else s }

  /** The rows reported for a hash, up to order. */
  function Reported(s: seq<EvidenceRow>, b: seq<EvidenceRow>): seq<EvidenceRow> {
    if !Undisputed(s, b) then Map(s, Reviewing(s)) + Map(b, Reviewing(s))
    else if Kept(s, b) == [] then []
    else [Chosen(Kept(s, b))] + (if s != [] && !Consistent(b) then Map(b, Reviewing(s)) else [])
  }

  lemma DisputedKey(input: seq<EvidenceRow>, h: string, k: string, p: EvidenceRow -> bool)
    requires !Undisputed(Stored(input, h), Bare(input, h))
    ensures var g := HashRows(input, h);
            KeyCount(g, p)(k) == CountIf(AssetRows(g, k), Composed(Reviewing(Stored(input, h)), p))
  {
    hide HashRows, AssetRows, Stored, Bare, Undisputed, Consistent, HasAsset, UnknownAssetConflict, GroupConflict;
    hide HasKnown, UnknownMirror, Known, Chosen;
    var g, s := HashRows(input, h), Stored(input, h);
    var rows := AssetRows(g, k);
    if rows != [] {
      ConflictIs(input, h, k);
      FlagsAre(input, h);
      AssetRowsMembers(g, k);
      UnknownKeyOnly(rows, k);
      forall r | r in rows ensures HasAsset(r) <==> !IsUnknownKey(k) {
        HasAssetIs(r);
        KnownIsStored(r);
      }
      assert KeyPart(g, k).rows == Map(rows, Reviewing(s));
      CountMap(rows, Reviewing(s), p);
    }
  }

  lemma UnknownKeyOnly(rows: seq<EvidenceRow>, k: string)
    requires forall r :: r in rows ==> KeyOf(r) == k
    ensures rows != [] ==> (IsUnknownKey(k) <==> k == UNKNOWN_KEY)
  {
    if rows != [] {
      assert rows[0] in rows;
      KeyIsUnknown(rows[0]);
    }
  }

  /** The two parts of a hash make up the hash. */
  lemma CountParts(input: seq<EvidenceRow>, h: string, p: EvidenceRow -> bool)
    ensures CountIf(HashRows(input, h), p) == CountIf(Stored(input, h), p) + CountIf(Bare(input, h), p)
  {
    hide HasAsset;
    CountFilter(input, Rows.Named(HASH, h), p);
    CountFilter(input, WithAsset(h), p);
    CountFilter(input, WithoutAsset(h), p);
    CountEither(input, Both(WithAsset(h), p), Both(WithoutAsset(h), p), Both(Rows.Named(HASH, h), p));
  }

  lemma DisputedHash(input: seq<EvidenceRow>, h: string, p: EvidenceRow -> bool)
    requires !Undisputed(Stored(input, h), Bare(input, h))
    ensures CountIf(HashPart(HashRows(input, h)).rows, p)
              == CountIf(Reported(Stored(input, h), Bare(input, h)), p)
  {
    hide HashRows, AssetRows, Stored, Bare, Undisputed, Labels, KeyPart, JoinKeys, HasAsset;
    var g, s, b := HashRows(input, h), Stored(input, h), Bare(input, h);
    var q := Composed(Reviewing(s), p);
    var ks := Labels(g, ASSET);
    CountKeys(g, ks, p);
    forall k | k in ks ensures KeyCount(g, p)(k) == LabelCount(g, ASSET, q)(k) {
      DisputedKey(input, h, k, p);
      AssetRowsAre(g, k);
    }
    SumExt(ks, KeyCount(g, p), LabelCount(g, ASSET, q));
    CountLabels(g, ASSET, q);
    CountParts(input, h, q);
    CountMap(s, Reviewing(s), p);
    CountMap(b, Reviewing(s), p);
    CountConcat(Map(s, Reviewing(s)), Map(b, Reviewing(s)), p);
  }

  lemma AssetRowsAre(g: seq<EvidenceRow>, k: string)
    ensures AssetRows(g, k) == Labelled(g, ASSET, k)
  {}

  lemma UndisputedKey(input: seq<EvidenceRow>, h: string, k: string, p: EvidenceRow -> bool)
    requires Undisputed(Stored(input, h), Bare(input, h)) && AssetRows(HashRows(input, h), k) != []
    ensures var g, s, b := HashRows(input, h), Stored(input, h), Bare(input, h);
            && (k != UNKNOWN_KEY ==>
                  s != [] && KeyOf(s[0]) == k && KeyCount(g, p)(k) == if p(Chosen(s)) then 1 else 0)
            && (k == UNKNOWN_KEY && s == [] ==>
                  b != [] && KeyCount(g, p)(k) == if p(Chosen(b)) then 1 else 0)
            && (k == UNKNOWN_KEY && s != [] ==>
                  KeyCount(g, p)(k) == if Consistent(b) then 0 else CountIf(Map(b, Reviewing(s)), p))
  {
    hide HashRows, AssetRows, Stored, Bare, Undisputed, Consistent, HasAsset, UnknownAssetConflict, GroupConflict;
    hide HasKnown, Known, Chosen, Mirrored, KeyOf;
    var g, s, b := HashRows(input, h), Stored(input, h), Bare(input, h);
    var rows := AssetRows(g, k);
    ConflictIs(input, h, k);
    FlagsAre(input, h);
    BareIs(input, h);
    AssetRowsMembers(g, k);
    UnknownKeyOnly(rows, k);
    CountSingle(Chosen(rows), p);
    if k == UNKNOWN_KEY {
      forall r | r in b ensures !HasAsset(r) {
        HasAssetIs(r);
      }
      assert s != [] ==> Map(b, ToUnknownReview) == Map(b, Reviewing(s));
      UndisputedParts(s, b);
    } else {
      assert s[0] in rows;
    }
  }

  lemma UndisputedParts(s: seq<EvidenceRow>, b: seq<EvidenceRow>)
    requires Undisputed(s, b)
    ensures if s == [] then Consistent(b) else Mirrored(s, b) && OneAsset(s)
  {}

  lemma CountSingle(r: EvidenceRow, p: EvidenceRow -> bool)
    ensures CountIf([r], p) == if p(r) then 1 else 0
  {
    assert [r][..0] == [];
  }

  lemma UndisputedHash(input: seq<EvidenceRow>, h: string, p: EvidenceRow -> bool)
    requires Undisputed(Stored(input, h), Bare(input, h))
    ensures CountIf(HashPart(HashRows(input, h)).rows, p)
              == CountIf(Reported(Stored(input, h), Bare(input, h)), p)
  {
    hide HashRows, AssetRows, Stored, Bare, Undisputed, Labels, KeyPart, JoinKeys, HasAsset, KeyOf, Chosen, Consistent;
    var g, s, b := HashRows(input, h), Stored(input, h), Bare(input, h);
    var ks, f := Labels(g, ASSET), KeyCount(g, p);
    CountKeys(g, ks, p);
    LabelsMembers(g, ASSET);
    KeysPresent(input, h);
    var k := if s == [] then UNKNOWN_KEY else KeyOf(s[0]);
    forall l | l in ks ensures l == k || l == UNKNOWN_KEY {
      UndisputedKey(input, h, l, p);
    }
    SumTwo(ks, f, k, UNKNOWN_KEY);
    forall l | l in ks ensures AssetRows(g, l) != [] {}
    if k in ks {
      UndisputedKey(input, h, k, p);
    }
    if UNKNOWN_KEY in ks {
      UndisputedKey(input, h, UNKNOWN_KEY, p);
    }
    NothingToMirror(s);
    if Kept(s, b) != [] {
      CountSingle(Chosen(Kept(s, b)), p);
      CountConcat([Chosen(Kept(s, b))], if s != [] && !Consistent(b) then Map(b, Reviewing(s)) else [], p);
    }
  }

  /** Which groups there are. */
  lemma KeysPresent(input: seq<EvidenceRow>, h: string)
    ensures var g, s, b := HashRows(input, h), Stored(input, h), Bare(input, h);
            && (forall l :: l in Labels(g, ASSET) ==> AssetRows(g, l) != [])
            && (UNKNOWN_KEY in Labels(g, ASSET) <==> b != [])
            && (s != [] ==> KeyOf(s[0]) in Labels(g, ASSET) && KeyOf(s[0]) != UNKNOWN_KEY)
  {
    hide HashRows, AssetRows, Stored, Bare, Labels, HasAsset, KeyOf, Known;
    var g, s, b := HashRows(input, h), Stored(input, h), Bare(input, h);
    LabelsMembers(g, ASSET);
    forall l | l in Labels(g, ASSET) ensures AssetRows(g, l) != [] {
      AssetRowsMembers(g, l);
      var r :| r in g && ASSET(r) == Some(l);
      assert r in AssetRows(g, l);
    }
    PartMembers(input, h);
    BareIs(input, h);
    AssetRowsMembers(g, UNKNOWN_KEY);
    if b != [] {
      assert b[0] in b;
      assert ASSET(b[0]) == Some(UNKNOWN_KEY);
    }
    if s != [] {
      assert s[0] in s;
      HasAssetIs(s[0]);
      assert ASSET(s[0]) == Some(KeyOf(s[0]));
    }
  }

  lemma ReviewedRows(rows: seq<EvidenceRow>, s: seq<EvidenceRow>, h: string)
    requires forall r :: r in rows ==> r.txHash == Some(h)
    ensures forall o :: o in Map(rows, Reviewing(s)) ==> o.txHash == Some(h) && o.outcome == Review
  {
    hide HasAsset;
    forall o | o in Map(rows, Reviewing(s)) ensures o.txHash == Some(h) && o.outcome == Review {
      var i :| 0 <= i < |rows| && o == Reviewing(s)(rows[i]);
      assert rows[i] in rows;
    }
  }

  lemma ReportedOwn(input: seq<EvidenceRow>, h: string)
    ensures forall o :: o in Reported(Stored(input, h), Bare(input, h)) ==> o.txHash == Some(h)
  {
    hide Undisputed, Consistent, HasAsset, Filter, Reviewing;
    FilterMembers(input, WithAsset(h));
    FilterMembers(input, WithoutAsset(h));
    var s, b := Stored(input, h), Bare(input, h);
    ReviewedRows(s, s, h);
    ReviewedRows(b, s, h);
  }

  lemma PartIsLabelled(input: seq<EvidenceRow>, h: string, r: EvidenceRow)
    requires r in Stored(input, h) || r in Bare(input, h)
    ensures h in Labels(input, HASH)
  {
    hide HasAsset, Filter, Labels;
    LabelsMembers(input, HASH);
    FilterMembers(input, WithAsset(h));
    FilterMembers(input, WithoutAsset(h));
    assert HASH(r) == Some(h);
  }

  lemma NoRowsNoPart(input: seq<EvidenceRow>, h: string)
    requires h !in Labels(input, HASH)
    ensures Stored(input, h) == [] && Bare(input, h) == []
  {
    hide Labels, Stored, Bare;
    if Stored(input, h) != [] {
      PartIsLabelled(input, h, Stored(input, h)[0]);
    }
    if Bare(input, h) != [] {
      PartIsLabelled(input, h, Bare(input, h)[0]);
    }
  }

  lemma ReportedCount(input: seq<EvidenceRow>, h: string, c: EvidenceRow -> bool)
    ensures CountIf(Filter(Dedupe(input).rows, EvidenceLaws.OfHash(h)), c)
              == CountIf(Reported(Stored(input, h), Bare(input, h)), c)
  {
    hide Dedupe, Filter, Labels, HashPart, HashRows, Reported, Stored, Bare, Undisputed, Consistent;
    var s, b := Stored(input, h), Bare(input, h);
    var p := Both(EvidenceLaws.OfHash(h), c);
    CountFilter(Dedupe(input).rows, EvidenceLaws.OfHash(h), c);
    CountOneHash(input, h, p);
    ReportedOwn(input, h);
    CountExt(Reported(s, b), p, c);
    if h in Labels(input, HASH) {
      if Undisputed(s, b) {
        UndisputedHash(input, h, p);
      } else {
        DisputedHash(input, h, p);
      }
    } else {
      NoRowsNoPart(input, h);
      NothingReported();
    }
  }

  lemma NothingReported()
    ensures Reported([], []) == [] && forall c: EvidenceRow -> bool :: CountIf([], c) == 0
  {
    NothingToMirror([]);
  }

  lemma HashReported(input: seq<EvidenceRow>, h: string)
    ensures multiset(Filter(Dedupe(input).rows, EvidenceLaws.OfHash(h)))
              == multiset(Reported(Stored(input, h), Bare(input, h)))
  {
    hide Dedupe, Filter, Reported, Stored, Bare;
    forall c: EvidenceRow -> bool
      ensures CountIf(Filter(Dedupe(input).rows, EvidenceLaws.OfHash(h)), c)
                == CountIf(Reported(Stored(input, h), Bare(input, h)), c)
    {
      ReportedCount(input, h, c);
    }
    SameCountsSameRows(Filter(Dedupe(input).rows, EvidenceLaws.OfHash(h)), Reported(Stored(input, h), Bare(input, h)));
  }

  /** The report on a hash whose rows are in dispute: all of them, under review,
      bare rows beside stored ones without their context. */
  lemma DisputedIsReviewed(input: seq<EvidenceRow>, h: string)
    requires !Undisputed(Stored(input, h), Bare(input, h))
    ensures var s, b := Stored(input, h), Bare(input, h);
            multiset(Filter(Dedupe(input).rows, EvidenceLaws.OfHash(h)))
            == multiset(Map(s, InReview)) + multiset(Map(b, if s == [] then InReview else InReviewBare))
  {
    hide Dedupe, Filter, Undisputed, Stored, Bare, HasAsset;
    var s, b := Stored(input, h), Bare(input, h);
    HashReported(input, h);
    PartAssets(input, h);
    assert Map(s, Reviewing(s)) == Map(s, InReview);
    assert Map(b, Reviewing(s)) == Map(b, if s == [] then InReview else InReviewBare);
  }

  lemma PartAssets(input: seq<EvidenceRow>, h: string)
    ensures forall r :: r in Stored(input, h) ==> HasAsset(r)
    ensures forall r :: r in Bare(input, h) ==> !HasAsset(r)
  {
    FilterMembers(input, WithAsset(h));
    FilterMembers(input, WithoutAsset(h));
  }

  /** The report on a hash whose rows are not in dispute: the leading row, as it
      is, and the bare rows under review only if they quarrel among themselves. */
  lemma UndisputedIsLed(input: seq<EvidenceRow>, h: string, i: nat)
    requires Undisputed(Stored(input, h), Bare(input, h)) && Leads(Kept(Stored(input, h), Bare(input, h)), i)
    ensures var s, b := Stored(input, h), Bare(input, h);
            multiset(Filter(Dedupe(input).rows, EvidenceLaws.OfHash(h)))
            == multiset{Kept(s, b)[i]}
               + (if s != [] && !Consistent(b) then multiset(Map(b, InReviewBare)) else multiset{})
  {
    hide Dedupe, Filter, Undisputed, Stored, Bare, HasAsset, Consistent, Chosen, Leads;
    var s, b := Stored(input, h), Bare(input, h);
    HashReported(input, h);
    PartAssets(input, h);
    LeaderIsChosen(Kept(s, b), i);
    assert s != [] ==> Map(b, Reviewing(s)) == Map(b, InReviewBare);
  }

  // ----- what a confirmed row means -----

  /** The row that leads what is kept of its hash, all of it undisputed. */
  ghost predicate Settled(s: seq<EvidenceRow>, b: seq<EvidenceRow>, o: EvidenceRow) {
    && Undisputed(s, b) && o.outcome == Confirmed
    && exists i: nat :: Leads(Kept(s, b), i) && Kept(s, b)[i] == o
  }

  /** A confirmed row of the report is exactly a confirmed row of the input that
      leads its hash while nothing there speaks against it: every other row kept
      agrees with it in direction, amount and owner, all store one asset, at most
      one is a token operation, and each row without an asset agrees with one
      that has it. */
  lemma ConfirmedExactly(input: seq<EvidenceRow>, h: string, o: EvidenceRow)
    ensures o in Dedupe(input).rows && o.txHash == Some(h) && o.outcome == Confirmed
            <==> Settled(Stored(input, h), Bare(input, h), o)
  {
    hide Dedupe, Undisputed, Consistent, Stored, Bare, Leads, Chosen, Filter, Reviewing, Reported;
    var s, b := Stored(input, h), Bare(input, h);
    var out := Dedupe(input).rows;
    HashReported(input, h);
    FilterMembers(out, EvidenceLaws.OfHash(h));
    SameMembers(Filter(out, EvidenceLaws.OfHash(h)), Reported(s, b));
    assert o in out && o.txHash == Some(h) <==> o in Reported(s, b);
    PartsOwn(input, h);
    ReportedConfirmed(s, b, h, o);
  }

  lemma ReportedConfirmed(s: seq<EvidenceRow>, b: seq<EvidenceRow>, h: string, o: EvidenceRow)
    requires forall r :: r in s || r in b ==> r.txHash == Some(h)
    ensures o in Reported(s, b) && o.outcome == Confirmed <==> Settled(s, b, o)
  {
    hide Undisputed, Consistent, Leads, Chosen, Reviewing;
    ReviewedRows(s, s, h);
    ReviewedRows(b, s, h);
    if Kept(s, b) != [] {
      var i := ChosenLeads(Kept(s, b));
      forall j: nat | Leads(Kept(s, b), j) ensures j == i {
        OneLeads(Kept(s, b), i, j);
      }
    } else {
      NobodyLeads();
    }
  }

  lemma NobodyLeads()
    ensures forall i: nat :: !Leads([], i)
  {}

  lemma PartsOwn(input: seq<EvidenceRow>, h: string)
    ensures forall r :: r in Stored(input, h) || r in Bare(input, h) ==> r.txHash == Some(h)
  {
    FilterMembers(input, WithAsset(h));
    FilterMembers(input, WithoutAsset(h));
  }

  lemma SameMembers(a: seq<EvidenceRow>, b: seq<EvidenceRow>)
    requires multiset(a) == multiset(b)
    ensures forall r :: r in a <==> r in b
  {
    forall r ensures r in a <==> r in b {
      assert r in a <==> r in multiset(a);
      assert r in b <==> r in multiset(b);
    }
  }

  /** So a confirmed row speaks for every other row of its hash: same direction,
      same amount; its own asset, if that row stores one; and no owner field
      against it, or, for a row without an asset, none against the stored row it
      is held to mirror. */
  lemma ConfirmedSpeaksForAll(input: seq<EvidenceRow>, o: EvidenceRow, r: EvidenceRow)
    requires o in Dedupe(input).rows && o.outcome == Confirmed && o.txHash.Some?
    requires r in input && r.txHash == o.txHash && r != o
    ensures Issues(r) == Issues(o) && SameAmount(r, o)
    ensures HasAsset(r) ==> AssetOf(r.context) == AssetOf(o.context) && SameOwner(r, o)
    ensures !HasAsset(r) && !HasAsset(o) ==> SameOwner(r, o)
    ensures !HasAsset(r) && HasAsset(o) ==>
              exists w :: w in input && w.txHash == o.txHash && AssetOf(w.context) == AssetOf(o.context) && Agree(r, w)
  {
    hide Dedupe, SameOwner, SameAmount, Leads, Filter, HasAsset, Consistent, Issues;
    var h := o.txHash.value;
    var s, b := Stored(input, h), Bare(input, h);
    ConfirmedExactly(input, h, o);
    FilterMembers(input, WithAsset(h));
    FilterMembers(input, WithoutAsset(h));
    var i := SettledAt(s, b, o);
    assert o in Kept(s, b);
    if HasAsset(r) == HasAsset(o) {
      assert r in Kept(s, b);
      KeptAgrees(Kept(s, b), i, r);
    } else {
      assert r in b && s != [];
      var w :| w in s && Agree(r, w);
      if w != o {
        KeptAgrees(Kept(s, b), i, w);
      }
      SameAmountThrough(r, w, o);
    }
  }

  lemma SettledAt(s: seq<EvidenceRow>, b: seq<EvidenceRow>, o: EvidenceRow) returns (i: nat)
    requires Settled(s, b, o)
    ensures i < |Kept(s, b)| && Leads(Kept(s, b), i) && Kept(s, b)[i] == o
    ensures Consistent(Kept(s, b))
  {
    hide Consistent, OneAsset, Mirrored;
    i :| Leads(Kept(s, b), i) && Kept(s, b)[i] == o;
  }

  lemma LeadsInside(rows: seq<EvidenceRow>, i: nat)
    requires Leads(rows, i)
    ensures i < |rows|
  {}

  lemma KeptAgrees(rows: seq<EvidenceRow>, i: nat, q: EvidenceRow)
    requires Consistent(rows) && Leads(rows, i) && q in rows && q != rows[i]
    ensures Agree(q, rows[i])
  {
    hide Agree, Leads, OneOperation;
    LeadsInside(rows, i);
    var j :| 0 <= j < |rows| && rows[j] == q;
  }

  lemma SameAmountThrough(a: EvidenceRow, b: EvidenceRow, c: EvidenceRow)
    requires SameAmount(a, b) && (b == c || SameAmount(b, c))
    ensures SameAmount(a, c)
  {
    hide ParseDecimal;
  }

  // ----- the counters -----

  /** How many disputes a hash counts: one for each asset, no asset included, when
      its kept rows are in dispute, else one if only its bare rows quarrel. */
  function Disputes(s: seq<EvidenceRow>, b: seq<EvidenceRow>): nat {
    if !Undisputed(s, b) then |AssetsOf(s + b)|
    else if s != [] && !Consistent(b) then 1
    else 0
  }

  /** No asset is known, and the row that stands for the hash is confirmed. */
  predicate LedWithoutAsset(s: seq<EvidenceRow>, b: seq<EvidenceRow>) {
    s == [] && exists i :: 0 <= i < |b| && Leads(b, i) && b[i].outcome == Confirmed
  }

  function DisputesOf(input: seq<EvidenceRow>): string -> nat {
    (h: string) => Disputes(Stored(input, h), Bare(input, h))
  }

  function WithoutAssetOf(input: seq<EvidenceRow>): string -> nat {
    (h: string) => if LedWithoutAsset(Stored(input, h), Bare(input, h)) then 1 else 0
  }

  function AssetsOf(g: seq<EvidenceRow>): set<Asset> { set r | r in g :: AssetOf(r.context) }

  lemma {:induction false} KeysAreAssets(g: seq<EvidenceRow>)
    ensures |Labels(g, ASSET)| == |AssetsOf(g)|
  {
    hide Labels, KeyOf, AssetOf;
    if g == [] {
      NoKeys();
    } else {
      var n := |g| - 1;
      var was, row := g[..n], g[n];
      assert g == was + [row];
      KeysAreAssets(was);
      AssetLabelsSnoc(was, row);
      assert AssetsOf(g) == AssetsOf(was) + {AssetOf(row.context)};
      KeySeen(was, row);
      if AssetOf(row.context) in AssetsOf(was) {
        assert AssetsOf(g) == AssetsOf(was);
      }
    }
  }

  lemma NoKeys()
    ensures Labels([], ASSET) == [] && AssetsOf([]) == {}
  {}

  lemma KeySeen(g: seq<EvidenceRow>, row: EvidenceRow)
    ensures KeyOf(row) in Labels(g, ASSET) <==> AssetOf(row.context) in AssetsOf(g)
  {
    hide Labels, KeyOf, AssetOf;
    LabelsMembers(g, ASSET);
    forall r | r in g ensures ASSET(r) == Some(KeyOf(row)) <==> AssetOf(r.context) == AssetOf(row.context) {
      SameAssetSameKey(r, row);
    }
  }

  lemma HashDisputes(input: seq<EvidenceRow>, h: string)
    ensures HashPart(HashRows(input, h)).conflicts == Disputes(Stored(input, h), Bare(input, h))
  {
    hide HashRows, AssetRows, Stored, Bare, Undisputed, Labels, KeyPart, JoinKeys, HasAsset, KeyOf, Consistent, AssetOf;
    var g, s, b := HashRows(input, h), Stored(input, h), Bare(input, h);
    var ks, f := Labels(g, ASSET), KeyConflicts(g);
    CountersOfKeys(g, ks);
    LabelsMembers(g, ASSET);
    KeysPresent(input, h);
    forall k | k in ks ensures f(k) == if !Undisputed(s, b) || (k == UNKNOWN_KEY && !Consistent(b)) then 1 else 0 {
      KeyDisputes(input, h, k);
    }
    NothingToMirror(s);
    if Undisputed(s, b) {
      SumOne(ks, f, UNKNOWN_KEY);
      UndisputedParts(s, b);
    } else {
      SumOnes(ks, f);
      KeysAreAssets(g);
      PartMembers(input, h);
      assert forall r :: r in s + b <==> r in g;
      assert AssetsOf(s + b) == AssetsOf(g);
    }
  }

  lemma KeyDisputes(input: seq<EvidenceRow>, h: string, k: string)
    requires AssetRows(HashRows(input, h), k) != []
    ensures var s, b := Stored(input, h), Bare(input, h);
            KeyConflicts(HashRows(input, h))(k)
              == if !Undisputed(s, b) || (k == UNKNOWN_KEY && !Consistent(b)) then 1 else 0
  {
    hide HashRows, AssetRows, Stored, Bare, Undisputed, Consistent, HasAsset, UnknownAssetConflict, GroupConflict;
    hide HasKnown, UnknownMirror, Known, Chosen, KeyOf;
    ConflictIs(input, h, k);
    FlagsAre(input, h);
  }

  lemma {:induction false} SumOnes(ls: seq<string>, f: string -> nat)
    requires forall l :: l in ls ==> f(l) == 1
    ensures Sum(ls, f) == |ls|
  {
    if ls != [] {
      SumOnes(ls[..|ls| - 1], f);
    }
  }

  lemma HashWithoutAsset(input: seq<EvidenceRow>, h: string)
    ensures HashPart(HashRows(input, h)).unknownAssets
              == if LedWithoutAsset(Stored(input, h), Bare(input, h)) then 1 else 0
  {
    hide HashRows, AssetRows, Stored, Bare, Labels, KeyPart, JoinKeys, HasAsset, KeyOf, AssetOf, LedWithoutAsset;
    var g, s, b := HashRows(input, h), Stored(input, h), Bare(input, h);
    var ks, f := Labels(g, ASSET), KeyUnknowns(g);
    CountersOfKeys(g, ks);
    LabelsMembers(g, ASSET);
    KeysPresent(input, h);
    forall k | k in ks ensures f(k) == if k == UNKNOWN_KEY && LedWithoutAsset(s, b) then 1 else 0 {
      KeyWithoutAsset(input, h, k);
    }
    SumOne(ks, f, UNKNOWN_KEY);
    if b == [] {
      NobodyLedWithoutAsset(s);
    }
  }

  lemma NobodyLedWithoutAsset(s: seq<EvidenceRow>)
    ensures !LedWithoutAsset(s, [])
  {}

  lemma KeyWithoutAsset(input: seq<EvidenceRow>, h: string, k: string)
    requires AssetRows(HashRows(input, h), k) != []
    ensures KeyUnknowns(HashRows(input, h))(k)
              == if k == UNKNOWN_KEY && LedWithoutAsset(Stored(input, h), Bare(input, h)) then 1 else 0
  {
    hide HashRows, AssetRows, Stored, Bare, HasAsset, UnknownAssetConflict, GroupConflict;
    hide HasKnown, UnknownMirror, Known, Chosen, KeyOf, Leads;
    var g, s, b := HashRows(input, h), Stored(input, h), Bare(input, h);
    var rows := AssetRows(g, k);
    FlagsAre(input, h);
    BareIs(input, h);
    AssetRowsMembers(g, k);
    UnknownKeyOnly(rows, k);
    var c := ChosenLeads(rows);
    LeadsInside(rows, c);
    HasAssetIs(rows[c]);
    KnownIsStored(rows[c]);
    forall i: nat | Leads(rows, i) ensures i == c {
      OneLeads(rows, i, c);
    }
  }

  /** The four counters of the merge: the first two count positions of the input,
      the others add up over the hashes. */
  lemma CountersAre(input: seq<EvidenceRow>)
    ensures var d := Dedupe(input);
            var n, hs := |input|, Labels(input, HASH);
            && d.invalidHashes
               == |set i | 0 <= i < n && input[i].txHash == None && input[i].outcome == Confirmed
                           && ParseDecimal(input[i].amount, 2).Some?|
            && d.unknownMovements == |set i | 0 <= i < n && input[i].outcome != Confirmed|
            && d.conflicts == Sum(hs, DisputesOf(input))
            && d.unknownAssets
               == |set i | 0 <= i < n && input[i].txHash == None && input[i].outcome == Confirmed
                           && !HasAsset(input[i])|
                  + Sum(hs, WithoutAssetOf(input))
  {
    hide Labels, HashPart, HashRows, ParseDecimal, AssetOf, DisputesOf, WithoutAssetOf, CountIf;
    PositionsAre(input);
    AddedUp(input);
  }

  lemma PositionsAre(input: seq<EvidenceRow>)
    ensures var n := |input|;
            && CountIf(input, INVALID)
               == |set i | 0 <= i < n && input[i].txHash == None && input[i].outcome == Confirmed
                           && ParseDecimal(input[i].amount, 2).Some?|
            && CountIf(input, UNCONFIRMED) == |set i | 0 <= i < n && input[i].outcome != Confirmed|
            && CountIf(input, HASHLESS_UNKNOWN)
               == |set i | 0 <= i < n && input[i].txHash == None && input[i].outcome == Confirmed
                           && !HasAsset(input[i])|
  {
    hide ParseDecimal, AssetOf, CountIf;
    var n := |input|;
    forall r ensures HASHLESS_UNKNOWN(r) <==> r.txHash == None && r.outcome == Confirmed && !HasAsset(r) {
      HasAssetIs(r);
    }
    CountPositions(input, INVALID, set i | 0 <= i < n && input[i].txHash == None && input[i].outcome == Confirmed
                                           && ParseDecimal(input[i].amount, 2).Some?);
    CountPositions(input, UNCONFIRMED, set i | 0 <= i < n && input[i].outcome != Confirmed);
    CountPositions(input, HASHLESS_UNKNOWN, set i | 0 <= i < n && input[i].txHash == None
                                                    && input[i].outcome == Confirmed && !HasAsset(input[i]));
  }

  lemma AddedUp(input: seq<EvidenceRow>)
    ensures var hs := Labels(input, HASH);
            var merged := JoinHashes(input, hs);
            merged.conflicts == Sum(hs, DisputesOf(input)) && merged.unknownAssets == Sum(hs, WithoutAssetOf(input))
  {
    hide Labels, HashPart, HashRows, Disputes, LedWithoutAsset, Stored, Bare, JoinHashes, Sum;
    var hs := Labels(input, HASH);
    CountersOfHashes(input, hs);
    forall h | h in hs
      ensures HashConflicts(input)(h) == DisputesOf(input)(h) && HashUnknowns(input)(h) == WithoutAssetOf(input)(h)
    {
      HashDisputes(input, h);
      HashWithoutAsset(input, h);
    }
    SumExt(hs, HashConflicts(input), DisputesOf(input));
    SumExt(hs, HashUnknowns(input), WithoutAssetOf(input));
  }

  /** Rows without a hash are reported as they came. */
  lemma HashlessAsTheyCame(input: seq<EvidenceRow>)
    ensures Filter(Dedupe(input).rows, HASHLESS) == Filter(input, HASHLESS)
  {
    hide Labels, JoinHashes;
    var merged := JoinHashes(input, Labels(input, HASH)).rows;
    FilterConcat(Filter(input, HASHLESS), merged, HASHLESS);
    FilterMembers(input, HASHLESS);
    FilterAll(Filter(input, HASHLESS), HASHLESS);
    FilterMembers(merged, HASHLESS);
    forall o | o in merged ensures o.txHash.Some? {
      HashesHashed(input, Labels(input, HASH), o);
    }
    if Filter(merged, HASHLESS) != [] {
      assert Filter(merged, HASHLESS)[0] in Filter(merged, HASHLESS);
    }
  }

  lemma {:induction false} HashesHashed(input: seq<EvidenceRow>, hs: seq<string>, o: EvidenceRow)
    requires o in JoinHashes(input, hs).rows
    ensures o.txHash.Some?
  {
    hide HashRows, Labels, JoinKeys;
    var n := |hs| - 1;
    var g := HashRows(input, hs[n]);
    if o in HashPart(g).rows {
      KeysDerived(g, Labels(g, ASSET), o);
      HashRowsMembers(input, hs[n]);
    } else {
      HashesHashed(input, hs[..n], o);
    }
  }
}
