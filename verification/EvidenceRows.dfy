/** Rows of the three overlapping evidence tables, their assets, and when two
    rows tell of the same movement. */
module EvidenceRows {
  import opened Basics
  import opened Numerals
  import opened Decimals

  datatype Kind = AwardKind | SpendKind
  datatype Source = TokenOperation(kind: Kind) | AwardTable | SpendTable
  datatype Outcome = Confirmed | NoMovement | Unknown | Review

  /** The asset identifiers retained with an operation. */
  datatype Context = NoContext | Context(chainId: Option<string>, tokenContractAddress: Option<string>)

  /** Optional texts are never empty. An id is its place in the locale's order
      of ids; times are milliseconds. */
  datatype EvidenceRow = EvidenceRow(
    source: Source, id: int, uid: Option<string>, walletAddress: Option<string>, userId: Option<string>,
    amount: string, status: Option<string>, outcome: Outcome, txHash: Option<string>,
    context: Context, activityAt: Option<int>)

  datatype Direction = Issued | Returned

  function DirectionOf(r: EvidenceRow): Direction {
    match r.source
    case TokenOperation(k) => if k == AwardKind then Issued else Returned
    case AwardTable => Issued
    case SpendTable => Returned
  }

  function Rank(r: EvidenceRow): nat { if r.source.TokenOperation? then 3 else 2 }

  /** The table a row comes from; an id is unique within one. */
  datatype Table = Operations | Awards | Spends

  function TableOf(r: EvidenceRow): Table {
    match r.source
    case TokenOperation(_) => Operations
    case AwardTable => Awards
    case SpendTable => Spends
  }

  // ----- assets -----

  datatype Asset = UnknownAsset | StoredAsset(chainId: string, token: string)

  predicate IsChainId(s: string) { 1 <= |s| <= 80 && AllDigits(s) }

  predicate IsTokenAddress(s: string) {
    |s| == 42 && s[0] == '0' && (s[1] == 'x' || s[1] == 'X') && forall i :: 2 <= i < 42 ==> IsHexDigit(s[i])
  }

  /** `assetFromContext`: both identifiers must be well formed. */
  function AssetOf(c: Context): Asset {
    if c.Context? && c.chainId.Some? && c.tokenContractAddress.Some?
       && IsChainId(c.chainId.value) && IsTokenAddress(c.tokenContractAddress.value)
    then StoredAsset(c.chainId.value, Lower(c.tokenContractAddress.value))
    else UnknownAsset
  }

  const UNKNOWN_KEY := "unknown|unknown|unknown"

  /** `assetKey`. */
  function AssetKey(a: Asset): string {
    match a
    case UnknownAsset => UNKNOWN_KEY
    case StoredAsset(chainId, token) => chainId + "|" + token + "|known"
  }

  /** `key.startsWith('unknown|')`. */
  predicate IsUnknownKey(k: string) { "unknown|" <= k }

  function KeyOf(r: EvidenceRow): string { AssetKey(AssetOf(r.context)) }

  predicate Known(r: EvidenceRow) { AssetOf(r.context).StoredAsset? }

  lemma UnknownKeyIsUnknownAsset(c: Context)
    ensures IsUnknownKey(AssetKey(AssetOf(c))) <==> AssetOf(c) == UnknownAsset
  {
    var a := AssetOf(c);
    if a.StoredAsset? {
      assert AssetKey(a)[0] == a.chainId[0];
      assert IsDigit(a.chainId[0]);
    }
  }

  /** The key names the asset: two contexts share it only with one asset. */
  lemma AssetKeyInjective(c: Context, d: Context)
    ensures AssetKey(AssetOf(c)) == AssetKey(AssetOf(d)) <==> AssetOf(c) == AssetOf(d)
  {
    var a, b := AssetOf(c), AssetOf(d);
    UnknownKeyIsUnknownAsset(c);
    UnknownKeyIsUnknownAsset(d);
    if a.StoredAsset? && b.StoredAsset? && AssetKey(a) == AssetKey(b) {
      IndexOfAfter(a.chainId, '|', a.token + "|known");
      IndexOfAfter(b.chainId, '|', b.token + "|known");
      assert AssetKey(a) == a.chainId + ['|'] + (a.token + "|known");
      assert AssetKey(b) == b.chainId + ['|'] + (b.token + "|known");
      assert a.chainId == AssetKey(a)[..|a.chainId|] == b.chainId;
      assert a.token == AssetKey(a)[|a.chainId| + 1..][..42];
      assert b.token == AssetKey(b)[|b.chainId| + 1..][..42];
    }
  }

  /** A token address, ignoring the case of its hexadecimal digits. */
  predicate SameAddress(a: string, b: string) {
    |a| == |b| && forall i :: 0 <= i < |a| ==> LowerChar(a[i]) == LowerChar(b[i])
  }

  /** The identifiers a context must hold for its asset to be known: a chain id of
      at most 80 digits, and 20 bytes in hexadecimal. */
  predicate NamesAsset(c: Context, chainId: string, address: string) {
    && c == Context(Some(chainId), Some(address))
    && 0 < |chainId| <= 80 && (forall d :: d in chainId ==> '0' <= d <= '9')
    && |address| == 2 + 40 && (address[..2] == "0x" || address[..2] == "0X")
    && forall i :: 2 <= i < |address| ==> IsHexDigit(address[i])
  }

  /** An asset is known exactly from a context that names it, and two contexts name
      one asset exactly when chain and address agree, in any case of letters. */
  lemma AssetExactly(c: Context, d: Context)
    ensures AssetOf(c) != UnknownAsset <==> exists chainId, address :: NamesAsset(c, chainId, address)
    ensures AssetOf(c) != UnknownAsset && AssetOf(d) != UnknownAsset ==>
              (AssetOf(c) == AssetOf(d)
               <==> && c.chainId == d.chainId
                    && SameAddress(c.tokenContractAddress.value, d.tokenContractAddress.value))
  {
    if AssetOf(c) != UnknownAsset {
      assert NamesAsset(c, c.chainId.value, c.tokenContractAddress.value) by {
        NamedByContext(c);
      }
    }
    if chainId, address :| NamesAsset(c, chainId, address) {
      assert address[0] == address[..2][0] && address[1] == address[..2][1];
      assert forall i :: 0 <= i < |chainId| ==> chainId[i] in chainId;
    }
    if AssetOf(c) != UnknownAsset && AssetOf(d) != UnknownAsset {
      SameLower(c.tokenContractAddress.value, d.tokenContractAddress.value);
    }
  }

  lemma NamedByContext(c: Context)
    requires AssetOf(c) != UnknownAsset
    ensures NamesAsset(c, c.chainId.value, c.tokenContractAddress.value)
  {
    var a := c.tokenContractAddress.value;
    assert a[..2] == [a[0], a[1]];
  }

  lemma SameLower(a: string, b: string)
    ensures Lower(a) == Lower(b) <==> SameAddress(a, b)
  {
    if Lower(a) == Lower(b) {
      forall i | 0 <= i < |a| ensures LowerChar(a[i]) == LowerChar(b[i]) {
        assert Lower(a)[i] == Lower(b)[i];
      }
    }
  }

  // ----- the same movement -----

  predicate Differ(a: Option<string>, b: Option<string>) { a.Some? && b.Some? && a != b }

  predicate KnownOwnerMismatch(a: EvidenceRow, b: EvidenceRow) {
    || Differ(a.userId, b.userId) || Differ(a.uid, b.uid)
    || (a.walletAddress.Some? && b.walletAddress.Some? && Lower(a.walletAddress.value) != Lower(b.walletAddress.value))
  }

  /** `sameMovement`. An owner that is not known matches every owner, so the
      relation is not transitive. */
  predicate SameMovement(a: EvidenceRow, b: EvidenceRow) {
    && DirectionOf(a) == DirectionOf(b)
    && ParseDecimal(a.amount, 2).Some? && ParseDecimal(a.amount, 2) == ParseDecimal(b.amount, 2)
    && !KnownOwnerMismatch(a, b)
  }

  /** Around every row with an amount and no known user id. */
  lemma SameMovementNotTransitive(b: EvidenceRow)
    requires ParseDecimal(b.amount, 2).Some? && b.uid == None
    ensures exists a, c :: SameMovement(a, b) && SameMovement(b, c) && !SameMovement(a, c)
  {
    hide ParseDecimal, Lower;
    var a, c := b.(uid := Some("A")), b.(uid := Some("B"));
    assert "A"[0] != "B"[0];
    assert SameMovement(a, b) && SameMovement(b, c) && !SameMovement(a, c);
  }

  // ----- the preferred row -----

  /** The sort order: rank down, then id up. */
  predicate Before(a: EvidenceRow, b: EvidenceRow) { Rank(a) > Rank(b) || (Rank(a) == Rank(b) && a.id < b.id) }

  /** First in the stable sort. */
  function Chosen(rows: seq<EvidenceRow>): (c: EvidenceRow)
    requires rows != []
    ensures c in rows && forall r :: r in rows ==> !Before(r, c)
  {
    if |rows| == 1 then rows[0]
    else
      var c := Chosen(rows[..|rows| - 1]);
      var last := rows[|rows| - 1];
      assert rows == rows[..|rows| - 1] + [last];
      if Before(last, c) then last else c
  }
}
