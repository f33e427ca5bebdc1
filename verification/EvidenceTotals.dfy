/** Totals per asset, kept as decimal text and parsed again for every row. */
module EvidenceTotals {
  import opened Basics
  import opened Numerals
  import opened Decimals
  import opened EvidenceRows
  import opened Rows
  import opened EvidenceDedup
  import opened EvidenceLaws
  import opened EvidenceMirror

  datatype Total = Total(asset: Asset, awarded: string, spent: string, net: string)

  /** The report window, in milliseconds, both ends included. */
  datatype Window = Window(from: int, to: int)

  function AmountOf(r: EvidenceRow): Option<int> { ParseDecimal(r.amount, 2) }

  predicate Counted(w: Window, r: EvidenceRow) {
    && r.activityAt.Some? && w.from <= r.activityAt.value <= w.to
    && r.outcome == Confirmed && r.txHash.Some? && AmountOf(r).Some? && AmountOf(r).value >= 0
  }

  function CountedRows(w: Window): EvidenceRow -> bool { (r: EvidenceRow) => Counted(w, r) }

  function CountedWay(w: Window, d: Direction): EvidenceRow -> bool {
    (r: EvidenceRow) => Counted(w, r) && DirectionOf(r) == d
  }

  function CountedKey(w: Window): EvidenceRow -> Option<string> {
    (r: EvidenceRow) => if Counted(w, r) then Some(KeyOf(r)) else None
  }

  /** What a row adds to one asset in one direction. */
  function Share(w: Window, k: string, d: Direction): EvidenceRow -> int {
    (r: EvidenceRow) => if Counted(w, r) && KeyOf(r) == k && DirectionOf(r) == d then AmountOf(r).value else 0
  }

  function SumBy(rows: seq<EvidenceRow>, f: EvidenceRow -> int): int {
    if rows == [] then 0 else SumBy(rows[..|rows| - 1], f) + f(rows[|rows| - 1])
  }

  function Awarded(rows: seq<EvidenceRow>, w: Window, k: string): int { SumBy(rows, Share(w, k, Issued)) }

  function Spent(rows: seq<EvidenceRow>, w: Window, k: string): int { SumBy(rows, Share(w, k, Returned)) }

  /** The text totals are exactly the integer sums. */
  predicate TotalIs(rows: seq<EvidenceRow>, w: Window, k: string, t: Total) {
    && t.awarded == FormatDecimal(Awarded(rows, w, k), 2)
    && t.spent == FormatDecimal(Spent(rows, w, k), 2)
    && t.net == FormatDecimal(Awarded(rows, w, k) - Spent(rows, w, k), 2)
    && AssetKey(t.asset) == k
  }

  lemma ZeroText()
    ensures FormatDecimal(0, 2) == "0.00"
  {
    assert Div(0, Pow10(2)) == 0 && Mod(0, Pow10(2)) == 0;
    assert Zeros(1) == "0" + Zeros(0);
  }

  lemma SumSnoc(rows: seq<EvidenceRow>, row: EvidenceRow, f: EvidenceRow -> int)
    ensures SumBy(rows + [row], f) == SumBy(rows, f) + f(row)
  {
    assert (rows + [row])[..|rows|] == rows;
  }

  lemma {:induction false} NothingCounted(rows: seq<EvidenceRow>, w: Window, k: string, d: Direction)
    requires k !in Labels(rows, CountedKey(w))
    ensures SumBy(rows, Share(w, k, d)) == 0
  {
    if rows != [] {
      NothingCounted(rows[..|rows| - 1], w, k, d);
    }
  }

  /** Text to number, or zero when it does not parse or is zero. */
  function NumberOr0(text: string): int {
    var n := ParseDecimal(text, 2);
    if n.Some? then n.value else 0
  }

  lemma NumberOfText(x: int)
    ensures NumberOr0(FormatDecimal(x, 2)) == x
  {
    FormatRoundTrip(x, 2);
  }

  /** One more counted row, added to its asset's text totals. */
  method AddRow(current: Total, row: EvidenceRow, amount: int, ghost rows: seq<EvidenceRow>, w: Window)
      returns (next: Total)
    requires Counted(w, row) && AmountOf(row) == Some(amount) && TotalIs(rows, w, KeyOf(row), current)
    ensures TotalIs(rows + [row], w, KeyOf(row), next) && next.asset == current.asset
  {
    hide FormatDecimal, ParseDecimal, SumBy, KeyOf;
    ghost var k := KeyOf(row);
    SumSnoc(rows, row, Share(w, k, Issued));
    SumSnoc(rows, row, Share(w, k, Returned));
    NumberOfText(Awarded(rows, w, k));
    NumberOfText(Spent(rows, w, k));
    var awarded, spent := NumberOr0(current.awarded), NumberOr0(current.spent);
    next := current;
    if DirectionOf(row) == Issued {
      next := next.(awarded := FormatDecimal(awarded + amount, 2));
    } else {
      next := next.(spent := FormatDecimal(spent + amount, 2));
    }
    NumberOfText(Awarded(rows + [row], w, k));
    NumberOfText(Spent(rows + [row], w, k));
    next := next.(net := FormatDecimal(NumberOr0(next.awarded) - NumberOr0(next.spent), 2));
  }

  /** Rows of other assets, or rows that do not count, leave a total alone. */
  lemma OtherTotal(rows: seq<EvidenceRow>, row: EvidenceRow, w: Window, k: string, t: Total)
    requires TotalIs(rows, w, k, t) && CountedKey(w)(row) != Some(k)
    ensures TotalIs(rows + [row], w, k, t)
  {
    hide FormatDecimal, ParseDecimal, SumBy, KeyOf;
    SumSnoc(rows, row, Share(w, k, Issued));
    SumSnoc(rows, row, Share(w, k, Returned));
  }

  lemma FreshTotal(rows: seq<EvidenceRow>, w: Window, a: Asset)
    requires AssetKey(a) !in Labels(rows, CountedKey(w))
    ensures TotalIs(rows, w, AssetKey(a), Total(a, "0.00", "0.00", "0.00"))
  {
    hide FormatDecimal, SumBy, Labels;
    ZeroText();
    NothingCounted(rows, w, AssetKey(a), Issued);
    NothingCounted(rows, w, AssetKey(a), Returned);
  }

  method SourceTotals(rows: seq<EvidenceRow>, w: Window)
    returns (order: seq<string>, totals: map<string, Total>, issued: nat, returned: nat, confirmed: nat)
    ensures order == Labels(rows, CountedKey(w)) && forall k :: k in order <==> k in totals
    ensures forall k :: k in totals ==> TotalIs(rows, w, k, totals[k])
    ensures issued == CountIf(rows, CountedWay(w, Issued)) && returned == CountIf(rows, CountedWay(w, Returned))
    ensures confirmed == CountIf(rows, CountedRows(w))
  {
    hide FormatDecimal, ParseDecimal, SumBy, KeyOf, Labels, CountIf, TotalIs, AssetOf, AssetKey;
    order, totals, issued, returned, confirmed := [], map[], 0, 0, 0;
    NoRows(w);
    for i := 0 to |rows|
      invariant order == Labels(rows[..i], CountedKey(w)) && forall k :: k in order <==> k in totals
      invariant forall k :: k in totals ==> TotalIs(rows[..i], w, k, totals[k])
      invariant issued == CountIf(rows[..i], CountedWay(w, Issued))
      invariant returned == CountIf(rows[..i], CountedWay(w, Returned))
      invariant confirmed == CountIf(rows[..i], CountedRows(w))
    {
      var row := rows[i];
      assert rows[..i + 1] == rows[..i] + [row];
      LabelsSnoc(rows[..i], row, CountedKey(w));
      CountSnoc(rows[..i], row, CountedWay(w, Issued));
      CountSnoc(rows[..i], row, CountedWay(w, Returned));
      CountSnoc(rows[..i], row, CountedRows(w));
      forall k | k in totals && CountedKey(w)(row) != Some(k) ensures TotalIs(rows[..i + 1], w, k, totals[k]) {
        OtherTotal(rows[..i], row, w, k, totals[k]);
      }
      var amount := ParseDecimal(row.amount, 2);
      if row.activityAt == None || row.activityAt.value < w.from || row.activityAt.value > w.to { continue; }
      if row.outcome != Confirmed || row.txHash == None { continue; }
      if amount == None || amount.value < 0 { continue; }
      confirmed := confirmed + 1;
      if DirectionOf(row) == Issued {
        issued := issued + 1;
      } else {
        returned := returned + 1;
      }
      var asset := AssetOf(row.context);
      var key := AssetKey(asset);
      KeyOfIs(row);
      var current := if key in totals then totals[key] else Total(asset, "0.00", "0.00", "0.00");
      if key !in totals {
        FreshTotal(rows[..i], w, asset);
        order := order + [key];
      }
      var next := AddRow(current, row, amount.value, rows[..i], w);
      totals := totals[key := next];
    }
    assert rows[..|rows|] == rows;
  }

  lemma KeyOfIs(row: EvidenceRow)
    ensures KeyOf(row) == AssetKey(AssetOf(row.context))
  {}

  lemma NoRows(w: Window)
    ensures Labels([], CountedKey(w)) == []
    ensures CountIf([], CountedWay(w, Issued)) == 0 && CountIf([], CountedWay(w, Returned)) == 0
              && CountIf([], CountedRows(w)) == 0
  {}

  // ----- what the totals mean -----

  /** Read back as numbers, net is awarded minus spent, and all three are the
      integer sums. */
  lemma TotalsAreExact(rows: seq<EvidenceRow>, w: Window, k: string, t: Total)
    requires TotalIs(rows, w, k, t)
    ensures ParseDecimal(t.awarded, 2) == Some(Awarded(rows, w, k))
              && ParseDecimal(t.spent, 2) == Some(Spent(rows, w, k))
    ensures ParseDecimal(t.net, 2) == Some(Awarded(rows, w, k) - Spent(rows, w, k))
  {
    hide FormatDecimal, ParseDecimal, SumBy;
    FormatRoundTrip(Awarded(rows, w, k), 2);
    FormatRoundTrip(Spent(rows, w, k), 2);
    FormatRoundTrip(Awarded(rows, w, k) - Spent(rows, w, k), 2);
  }

  // ----- which rows make up which total -----

  /** The sources of the rows that hand tokens out, and of those that take them
      back. */
  const ISSUING: set<Source> := {AwardTable, TokenOperation(AwardKind)}
  const RETURNING: set<Source> := {SpendTable, TokenOperation(SpendKind)}

  /** A confirmed row with a hash, inside the window, both ends included, with an
      amount that is not negative. */
  predicate InReport(w: Window, r: EvidenceRow) {
    && r.outcome == Confirmed && r.txHash != None
    && r.activityAt.Some? && w.from <= r.activityAt.value && r.activityAt.value <= w.to
    && ParseDecimal(r.amount, 2).Some? && ParseDecimal(r.amount, 2).value >= 0
  }

  /** What the rows of some sources move of one asset. */
  ghost function MovedBy(w: Window, a: Asset, sources: set<Source>): EvidenceRow -> int {
    (r: EvidenceRow) => if r.source in sources && InReport(w, r) && AssetOf(r.context) == a
                        then ParseDecimal(r.amount, 2).value else 0
  }

  lemma CountedIsInReport(w: Window, r: EvidenceRow)
    ensures Counted(w, r) <==> InReport(w, r)
  {
    hide ParseDecimal;
  }

  lemma SourcesSplit(r: EvidenceRow)
    ensures r.source in ISSUING <==> DirectionOf(r) == Issued
    ensures r.source in RETURNING <==> DirectionOf(r) == Returned
  {}

  lemma ShareIsMoved(w: Window, a: Asset, d: Direction, r: EvidenceRow, c: Context)
    requires a == AssetOf(c)
    ensures Share(w, AssetKey(a), d)(r) == MovedBy(w, a, if d == Issued then ISSUING else RETURNING)(r)
  {
    hide ParseDecimal, InReport, Counted, AssetOf, AssetKey;
    CountedIsInReport(w, r);
    SourcesSplit(r);
    KeyOfIs(r);
    AssetKeyInjective(r.context, c);
  }

  lemma {:induction false} SumExtended(rows: seq<EvidenceRow>, f: EvidenceRow -> int, g: EvidenceRow -> int)
    requires forall r :: f(r) == g(r)
    ensures SumBy(rows, f) == SumBy(rows, g)
  {
    if rows != [] {
      SumExtended(rows[..|rows| - 1], f, g);
    }
  }

  /** The texts of an asset's total, read back: what its award rows and award
      operations moved, what its spend rows and spend operations moved, and the
      difference. */
  lemma TotalsBySource(rows: seq<EvidenceRow>, w: Window, c: Context, t: Total)
    requires TotalIs(rows, w, AssetKey(AssetOf(c)), t)
    ensures var awarded := SumBy(rows, MovedBy(w, AssetOf(c), ISSUING));
            var spent := SumBy(rows, MovedBy(w, AssetOf(c), RETURNING));
            && ParseDecimal(t.awarded, 2) == Some(awarded) && ParseDecimal(t.spent, 2) == Some(spent)
            && ParseDecimal(t.net, 2) == Some(awarded - spent)
  {
    hide FormatDecimal, ParseDecimal, SumBy, Share, MovedBy, AssetOf, AssetKey;
    var a := AssetOf(c);
    TotalsAreExact(rows, w, AssetKey(a), t);
    forall r ensures Share(w, AssetKey(a), Issued)(r) == MovedBy(w, a, ISSUING)(r)
                     && Share(w, AssetKey(a), Returned)(r) == MovedBy(w, a, RETURNING)(r)
    {
      ShareIsMoved(w, a, Issued, r, c);
      ShareIsMoved(w, a, Returned, r, c);
    }
    SumExtended(rows, Share(w, AssetKey(a), Issued), MovedBy(w, a, ISSUING));
    SumExtended(rows, Share(w, AssetKey(a), Returned), MovedBy(w, a, RETURNING));
  }

  /** The three counts, as counts of positions. */
  lemma CountsBySource(rows: seq<EvidenceRow>, w: Window)
    ensures CountIf(rows, CountedWay(w, Issued))
              == |set i | 0 <= i < |rows| && InReport(w, rows[i]) && rows[i].source in ISSUING|
    ensures CountIf(rows, CountedWay(w, Returned))
              == |set i | 0 <= i < |rows| && InReport(w, rows[i]) && rows[i].source in RETURNING|
    ensures CountIf(rows, CountedRows(w)) == |set i | 0 <= i < |rows| && InReport(w, rows[i])|
  {
    hide InReport, Counted, CountIf;
    forall r ensures (Counted(w, r) <==> InReport(w, r)) && (r.source in ISSUING <==> DirectionOf(r) == Issued)
                     && (r.source in RETURNING <==> DirectionOf(r) == Returned)
    {
      CountedIsInReport(w, r);
      SourcesSplit(r);
    }
    CountPositions(rows, CountedWay(w, Issued),
                   set i | 0 <= i < |rows| && InReport(w, rows[i]) && rows[i].source in ISSUING);
    CountPositions(rows, CountedWay(w, Returned),
                   set i | 0 <= i < |rows| && InReport(w, rows[i]) && rows[i].source in RETURNING);
    CountPositions(rows, CountedRows(w), set i | 0 <= i < |rows| && InReport(w, rows[i]));
  }

  lemma {:induction false} SumSplit(a: seq<EvidenceRow>, b: seq<EvidenceRow>, f: EvidenceRow -> int)
    ensures SumBy(a + b, f) == SumBy(a, f) + SumBy(b, f)
    decreases |b|
  {
    if b == [] {
      assert a + b == a;
    } else {
      assert (a + b)[..|a + b| - 1] == a + b[..|b| - 1];
      SumSplit(a, b[..|b| - 1], f);
    }
  }

  /** Totals and counts add up over any split of the rows. */
  lemma TotalsAddUp(a: seq<EvidenceRow>, b: seq<EvidenceRow>, w: Window, k: string, d: Direction)
    ensures Awarded(a + b, w, k) == Awarded(a, w, k) + Awarded(b, w, k)
    ensures Spent(a + b, w, k) == Spent(a, w, k) + Spent(b, w, k)
    ensures CountIf(a + b, CountedWay(w, d)) == CountIf(a, CountedWay(w, d)) + CountIf(b, CountedWay(w, d))
  {
    SumSplit(a, b, Share(w, k, Issued));
    SumSplit(a, b, Share(w, k, Returned));
    CountConcat(a, b, CountedWay(w, d));
  }

  lemma {:induction false} SumReorder(a: seq<EvidenceRow>, b: seq<EvidenceRow>, f: EvidenceRow -> int)
    requires multiset(a) == multiset(b)
    ensures SumBy(a, f) == SumBy(b, f)
    decreases |a|
  {
    SameLength(a, b);
    if a != [] {
      var n := |a| - 1;
      var x := a[n];
      var i := TakeOut(a, b);
      SumReorder(a[..n], b[..i] + b[i + 1..], f);
      SumSplit(b[..i], b[i + 1..], f);
      SumSplit(b[..i] + [x], b[i + 1..], f);
      SumSnoc(b[..i], x, f);
    }
  }

  lemma {:induction false} SumFiltered(rows: seq<EvidenceRow>, keep: EvidenceRow -> bool, f: EvidenceRow -> int)
    requires forall r :: !keep(r) ==> f(r) == 0
    ensures SumBy(Filter(rows, keep), f) == SumBy(rows, f)
  {
    if rows != [] {
      var n := |rows| - 1;
      SumFiltered(rows[..n], keep, f);
      if keep(rows[n]) {
        SumSnoc(Filter(rows[..n], keep), rows[n], f);
      } else {
        assert Filter(rows, keep) == Filter(rows[..n], keep);
        assert f(rows[n]) == 0;
      }
    }
  }

  lemma SumOfConfirmed(rows: seq<EvidenceRow>, w: Window, k: string, d: Direction)
    ensures SumBy(Filter(rows, CONFIRMED), Share(w, k, d)) == SumBy(rows, Share(w, k, d))
  {
    hide KeyOf, ParseDecimal, SumBy, Filter;
    SumFiltered(rows, CONFIRMED, Share(w, k, d));
  }

  lemma CountOfConfirmed(rows: seq<EvidenceRow>, w: Window, d: Direction)
    ensures CountIf(Filter(rows, CONFIRMED), CountedWay(w, d)) == CountIf(rows, CountedWay(w, d))
  {
    CountFilter(rows, CONFIRMED, CountedWay(w, d));
    CountExt(rows, Both(CONFIRMED, CountedWay(w, d)), CountedWay(w, d));
  }

  /** A mirror row changes no total and no count of the merged rows. */
  lemma MirrorKeepsTotals(p: seq<EvidenceRow>, q: seq<EvidenceRow>, m: EvidenceRow, s: EvidenceRow, w: Window,
                          k: string, d: Direction)
    requires OneMore(p, q, m) && s in p && Mirrors(m, s)
    ensures Awarded(Dedupe(p).rows, w, k) == Awarded(Dedupe(q).rows, w, k)
    ensures Spent(Dedupe(p).rows, w, k) == Spent(Dedupe(q).rows, w, k)
    ensures CountIf(Dedupe(p).rows, CountedWay(w, d)) == CountIf(Dedupe(q).rows, CountedWay(w, d))
  {
    hide Dedupe, Filter, SumBy, CountIf, OneMore, Mirrors;
    var a, b := Dedupe(p).rows, Dedupe(q).rows;
    MirrorChangesNothing(p, q, m, s);
    SumReorder(Filter(a, CONFIRMED), Filter(b, CONFIRMED), Share(w, k, Issued));
    SumReorder(Filter(a, CONFIRMED), Filter(b, CONFIRMED), Share(w, k, Returned));
    CountPermuted(Filter(a, CONFIRMED), Filter(b, CONFIRMED), CountedWay(w, d));
    SumOfConfirmed(a, w, k, Issued);
    SumOfConfirmed(b, w, k, Issued);
    SumOfConfirmed(a, w, k, Returned);
    SumOfConfirmed(b, w, k, Returned);
    CountOfConfirmed(a, w, d);
    CountOfConfirmed(b, w, d);
  }

  lemma {:induction false} SumAtMostOneEach(ls: seq<string>, f: string -> nat)
    requires forall l :: l in ls ==> f(l) <= 1
    ensures Sum(ls, f) <= |ls|
  {
    if ls != [] {
      SumAtMostOneEach(ls[..|ls| - 1], f);
    }
  }

  /** The confirmed count of the totals is at most the number of distinct
      transaction hashes of the input. */
  lemma CountAtMostHashes(input: seq<EvidenceRow>, w: Window)
    ensures CountIf(Dedupe(input).rows, CountedRows(w)) <= |Labels(input, HASH)|
    ensures Distinct(Labels(input, HASH))
    ensures forall h :: h in Labels(input, HASH) <==> exists r :: r in input && r.txHash == Some(h)
  {
    hide Dedupe, Filter, HashPart, HashRows, Labels;
    var c := CountedRows(w);
    CountOut(input, c);
    HashlessOwn(input, c);
    var hs := Labels(input, HASH);
    forall h | h in hs ensures HashCount(input, c)(h) <= 1 {
      HashConfirmed(HashRows(input, h), c);
    }
    SumAtMostOneEach(hs, HashCount(input, c));
    LabelsMembers(input, HASH);
    assert forall r: EvidenceRow :: HASH(r) == r.txHash;
  }
}
