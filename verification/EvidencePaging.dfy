/** Paging through the evidence report. */
module EvidencePaging {
  import opened Basics

  const MAX_OFFSET: nat := 100000

  function Min(a: nat, b: nat): nat { if a < b then a else b }

  /** `sorted.slice(offset, offset + limit)`. */
  function Page<T>(rows: seq<T>, offset: nat, limit: nat): seq<T> {
    rows[Min(offset, |rows|)..Min(offset + limit, |rows|)]
  }

  /** The `nextOffset` of a page: none after the last row, and none beyond the
      largest offset a query may ask for. */
  function NextOffset(total: nat, offset: nat, returned: nat): Option<nat> {
    if offset + returned < total && returned > 0 && offset + returned <= MAX_OFFSET then Some(offset + returned)
    else None
  }

  /** All pages from an offset on, each asked for at the offset the page before
      it gave. */
  function Walk<T>(rows: seq<T>, offset: nat, limit: nat): seq<T>
    decreases |rows| - offset
  {
    var page := Page(rows, offset, limit);
    match NextOffset(|rows|, offset, |page|)
    case None => page
    case Some(next) => page + Walk(rows, next, limit)
  }

  /** The first row that no page starting at a permitted offset reaches. */
  function Reach(offset: nat, limit: nat): (r: nat)
    requires limit >= 1
    ensures r >= offset + limit
    decreases if offset <= MAX_OFFSET then MAX_OFFSET - offset + 1 else 0
  {
    if offset + limit <= MAX_OFFSET then Reach(offset + limit, limit) else offset + limit
  }

  /** One page, and the walk from the offset it gives. */
  lemma WalkUnfolds<T>(rows: seq<T>, offset: nat, limit: nat)
    requires limit >= 1 && offset <= |rows|
    ensures Walk(rows, offset, limit)
              == if offset + limit < |rows| && offset + limit <= MAX_OFFSET
                 then rows[offset..offset + limit] + Walk(rows, offset + limit, limit)
                 else rows[offset..Min(offset + limit, |rows|)]
  {}

  lemma SlicesJoin<T>(rows: seq<T>, a: nat, b: nat, c: nat)
    requires a <= b <= c <= |rows|
    ensures rows[a..b] + rows[b..c] == rows[a..c]
  {}

  lemma {:induction false} WalkIs<T>(rows: seq<T>, offset: nat, limit: nat)
    requires limit >= 1 && offset <= |rows|
    ensures Walk(rows, offset, limit) == rows[offset..Min(Reach(offset, limit), |rows|)]
    decreases |rows| - offset
  {
    hide Walk;
    WalkUnfolds(rows, offset, limit);
    if offset + limit < |rows| && offset + limit <= MAX_OFFSET {
      WalkIs(rows, offset + limit, limit);
      SlicesJoin(rows, offset, offset + limit, Min(Reach(offset + limit, limit), |rows|));
    }
  }

  /** Pages still to come after this one, as a count. */
  lemma {:induction false} ReachCounts(offset: nat, limit: nat, pages: nat)
    requires limit >= 1 && offset + pages * limit <= MAX_OFFSET < offset + (pages + 1) * limit
    ensures Reach(offset, limit) == offset + pages * limit + limit
    decreases pages
  {
    if pages > 0 {
      NextPage(pages, limit);
      ReachCounts(offset + limit, limit, pages - 1);
    }
  }

  lemma NextPage(pages: nat, limit: nat)
    requires pages > 0
    ensures pages * limit == limit + (pages - 1) * limit && (pages + 1) * limit == limit + pages * limit
    ensures pages * limit >= limit
  {
    assert (pages - 1) * limit >= 0;
  }

  lemma Quotient(limit: nat)
    requires limit >= 1
    ensures (MAX_OFFSET / limit) * limit <= MAX_OFFSET < (MAX_OFFSET / limit + 1) * limit
  {
    var q, r := MAX_OFFSET / limit, MAX_OFFSET % limit;
    assert MAX_OFFSET == q * limit + r;
    assert (q + 1) * limit == q * limit + limit;
  }

  /** The largest multiple of the limit that a query may ask for. */
  function LastOffset(limit: nat): nat
    requires limit >= 1
  {
    (MAX_OFFSET / limit) * limit
  }

  lemma ReachClosed(limit: nat)
    requires limit >= 1
    ensures Reach(0, limit) == LastOffset(limit) + limit && Reach(0, limit) > MAX_OFFSET
  {
    hide Reach;
    var pages := MAX_OFFSET / limit;
    Quotient(limit);
    ReachCounts(0, limit, pages);
  }

  /** Following the offsets from the first page gives every row once and in
      order exactly when the rows do not outrun the page at the last offset. */
  lemma PagesCoverEverything<T>(rows: seq<T>, limit: nat)
    requires limit >= 1
    ensures Walk(rows, 0, limit) == rows <==> |rows| <= LastOffset(limit) + limit
    ensures |rows| <= MAX_OFFSET ==> Walk(rows, 0, limit) == rows
  {
    hide Walk, Reach, LastOffset;
    WalkIs(rows, 0, limit);
    ReachClosed(limit);
    assert rows[0..|rows|] == rows;
  }

  /** A page names a next offset exactly when rows remain and a query may ask for
      it; the next page starts right after this one and is not empty. */
  lemma NextPageHasRows<T>(rows: seq<T>, offset: nat, limit: nat, next: nat)
    requires limit >= 1 && offset < |rows|
    ensures NextOffset(|rows|, offset, |Page(rows, offset, limit)|) == Some(next)
            <==> next == offset + |Page(rows, offset, limit)| && next <= MAX_OFFSET && Page(rows, next, limit) != []
  {}
}
