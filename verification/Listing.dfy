// GET /tasks: Count and Find over the live rows in descending id order.

module Listing {
  import opened Prelude
  import opened Patch
  import opened Pagination
  import opened Store

  // The live rows with ids below hi, newest first: ORDER BY id DESC.
  function Newest(rows: map<nat, Task>, hi: nat): seq<Task> {
    if hi == 0 then []
    else (if LiveIn(rows, hi - 1) then [rows[hi - 1]] else []) + Newest(rows, hi - 1)
  }

  function LiveRows(tb: Table): seq<Task> {
    Newest(tb.rows, tb.nextId)
  }

  // The number of live rows with ids in [lo, hi).
  function LiveBetween(rows: map<nat, Task>, lo: nat, hi: nat): nat {
    if hi <= lo then 0
    else (if LiveIn(rows, hi - 1) then 1 else 0) + LiveBetween(rows, lo, hi - 1)
  }

  // SELECT count(*)
  function Count(tb: Table): nat {
    LiveBetween(tb.rows, 0, tb.nextId)
  }

  // The position of a live row in the listing.
  function Rank(tb: Table, id: nat): nat {
    LiveBetween(tb.rows, id + 1, tb.nextId)
  }

  // The library omits an OFFSET that is not positive.
  function Start(offset: int): (from: nat)
    ensures offset >= 0 ==> from == offset
    ensures offset < 0 ==> from == 0
  {
    if offset <= 0 then 0 else offset
  }

  // ORDER BY id DESC LIMIT limit OFFSET offset
  function Find(tb: Table, offset: int, limit: nat): seq<Task> {
    var all := LiveRows(tb);
    all[Min(Start(offset), |all|)..Min(Start(offset) + limit, |all|)]
  }

  function Page(tb: Table, q: PageQuery): seq<Task>
    requires q.limit >= 0
  {
    Find(tb, q.Offset(), q.limit)
  }

  ghost predicate Descending(ts: seq<Task>) {
    forall i, j :: 0 <= i < j < |ts| ==> ts[i].id > ts[j].id
  }

  // ----- the listing -----

  lemma {:induction false} NewestShape(rows: map<nat, Task>, hi: nat)
    requires forall id :: id in rows ==> rows[id].id == id
    ensures Descending(Newest(rows, hi))
    ensures forall k :: 0 <= k < |Newest(rows, hi)| ==>
      var t := Newest(rows, hi)[k]; t.id < hi && LiveIn(rows, t.id) && rows[t.id] == t
    ensures |Newest(rows, hi)| == LiveBetween(rows, 0, hi)
  {
    if hi > 0 { NewestShape(rows, hi - 1); }
  }

  lemma {:induction false} NewestAtRank(rows: map<nat, Task>, hi: nat, id: nat)
    requires LiveIn(rows, id) && id < hi
    ensures LiveBetween(rows, id + 1, hi) < |Newest(rows, hi)|
    ensures Newest(rows, hi)[LiveBetween(rows, id + 1, hi)] == rows[id]
  {
    if id < hi - 1 {
      NewestAtRank(rows, hi - 1, id);
    }
  }

  // The listing is the live rows, each once, newest first; a row's place is its rank.
  lemma ListingIsLiveRows(tb: Table)
    requires WellFormed(tb)
    ensures Descending(LiveRows(tb)) && |LiveRows(tb)| == Count(tb)
    ensures forall k :: 0 <= k < |LiveRows(tb)| ==>
      var t := LiveRows(tb)[k]; LiveIn(tb.rows, t.id) && tb.rows[t.id] == t && Rank(tb, t.id) == k
    ensures forall id :: LiveIn(tb.rows, id) ==>
      Rank(tb, id) < |LiveRows(tb)| && LiveRows(tb)[Rank(tb, id)] == tb.rows[id]
  {
    NewestShape(tb.rows, tb.nextId);
    forall id | LiveIn(tb.rows, id)
      ensures Rank(tb, id) < |LiveRows(tb)| && LiveRows(tb)[Rank(tb, id)] == tb.rows[id]
    {
      NewestAtRank(tb.rows, tb.nextId, id);
    }
    forall k | 0 <= k < |LiveRows(tb)| ensures Rank(tb, LiveRows(tb)[k].id) == k {
      var id := LiveRows(tb)[k].id;
      assert LiveIn(tb.rows, id);
      var r := Rank(tb, id);
      assert LiveRows(tb)[r].id == id;
    }
  }

  // ----- windows of the listing -----

  // The number of rows a window holds when there are total rows.
  function Predicted(offset: int, limit: nat, total: nat): nat {
    if Start(offset) >= total then 0 else Min(limit, total - Start(offset))
  }

  lemma FindLength(tb: Table, offset: int, limit: nat)
    requires WellFormed(tb)
    ensures |Find(tb, offset, limit)| == Predicted(offset, limit, Count(tb))
  {
    ListingIsLiveRows(tb);
  }

  lemma FindItems(tb: Table, offset: int, limit: nat)
    requires WellFormed(tb)
    ensures Descending(Find(tb, offset, limit))
    ensures forall i :: 0 <= i < |Find(tb, offset, limit)| ==>
      var t := Find(tb, offset, limit)[i];
      LiveIn(tb.rows, t.id) && tb.rows[t.id] == t && Rank(tb, t.id) == Start(offset) + i
  {
    ListingIsLiveRows(tb);
  }

  // A window holds exactly the live rows whose rank falls in it.
  lemma FindByRank(tb: Table, offset: int, limit: nat, id: nat)
    requires WellFormed(tb) && LiveIn(tb.rows, id)
    ensures tb.rows[id] in Find(tb, offset, limit) <==> Start(offset) <= Rank(tb, id) < Start(offset) + limit
  {
    ListingIsLiveRows(tb);
    FindItems(tb, offset, limit);
    if Start(offset) <= Rank(tb, id) < Start(offset) + limit {
      assert Find(tb, offset, limit)[Rank(tb, id) - Start(offset)] == tb.rows[id];
    }
  }

  // The number of rows that n full pages hold.
  function RowsUpTo(n: nat, limit: nat): nat {
    if n == 0 then 0 else RowsUpTo(n - 1, limit) + limit
  }

  lemma {:induction false} RowsUpToIsProduct(n: nat, limit: nat)
    ensures RowsUpTo(n, limit) == n * limit
  {
    if n > 0 { RowsUpToIsProduct(n - 1, limit); }
  }

  // The n-th page is the window after the first n - 1 pages, as long as its offset fits in 63 bits.
  lemma PageIsWindow(tb: Table, n: nat, limit: nat)
    requires PageQuery(n, limit).Valid() && RowsUpTo(n - 1, limit) < TWO_63
    ensures Page(tb, PageQuery(n, limit)) == Find(tb, RowsUpTo(n - 1, limit), limit)
  {
    RowsUpToIsProduct(n - 1, limit);
    OffsetExact(PageQuery(n, limit));
  }

  lemma PageFits(n: nat, limit: nat)
    requires n > 0 && 1 <= limit <= MAX_LIMIT && RowsUpTo(n, limit) < TWO_63
    ensures PageQuery(n, limit).Valid() && RowsUpTo(n - 1, limit) < TWO_63
  {
    RowsUpToIsProduct(n, limit);
    Scale(1, limit, n);
  }

  lemma Scale(a: int, b: int, c: nat)
    requires a <= b
    ensures a * c <= b * c
  {
  }

  // ----- the pages of a table that does not change -----

  function Pages(tb: Table, limit: nat, n: nat): seq<Task> {
    if n == 0 then [] else Pages(tb, limit, n - 1) + Page(tb, PageQuery(n, limit))
  }

  lemma {:induction false} PagesArePrefix(tb: Table, limit: nat, n: nat)
    requires 1 <= limit <= MAX_LIMIT && RowsUpTo(n, limit) < TWO_63
    ensures Pages(tb, limit, n) == LiveRows(tb)[..Min(RowsUpTo(n, limit), |LiveRows(tb)|)]
  {
    if n > 0 {
      PageFits(n, limit);
      PagesArePrefix(tb, limit, n - 1);
      PageIsWindow(tb, n, limit);
      NextWindow(tb, RowsUpTo(n - 1, limit), limit);
    }
  }

  lemma NextWindow(tb: Table, from: nat, limit: nat)
    ensures LiveRows(tb)[..Min(from, |LiveRows(tb)|)] + Find(tb, from, limit) ==
      LiveRows(tb)[..Min(from + limit, |LiveRows(tb)|)]
  {
  }

  // The pages that the metadata announces hold every row, and one page less would not.
  lemma CeilingBounds(limit: nat, total: nat, tp: int)
    requires 1 <= limit <= MAX_LIMIT && total + limit - 1 < TWO_63
    requires tp == NewPageMeta(PageQuery(1, limit), total).totalPages
    ensures tp >= 0 && total <= RowsUpTo(tp, limit) < total + limit
  {
    TotalPagesIsCeiling(PageQuery(1, limit), total, tp * limit);
    RowsUpToIsProduct(tp, limit);
  }

  // For a table that stays put, pages 1 to total_pages are all live rows, newest first, each once.
  lemma PagesPartition(tb: Table, limit: nat, tp: int)
    requires WellFormed(tb) && 1 <= limit <= MAX_LIMIT && Count(tb) + limit - 1 < TWO_63
    requires tp == NewPageMeta(PageQuery(1, limit), Count(tb)).totalPages
    ensures tp >= 0 && Pages(tb, limit, tp) == LiveRows(tb)
  {
    CeilingBounds(limit, Count(tb), tp);
    PagesArePrefix(tb, limit, tp);
    ListingIsLiveRows(tb);
  }

  // All pages but the last are full, the last is not empty, and there is nothing after it.
  lemma PageSizes(tb: Table, n: nat, limit: nat, tp: int)
    requires WellFormed(tb) && PageQuery(n, limit).Valid()
    requires Count(tb) + limit - 1 < TWO_63 && RowsUpTo(n - 1, limit) < TWO_63
    requires tp == NewPageMeta(PageQuery(n, limit), Count(tb)).totalPages
    ensures n < tp ==> |Page(tb, PageQuery(n, limit))| == limit
    ensures n == tp ==> 0 < |Page(tb, PageQuery(n, limit))| <= limit
    ensures n > tp ==> Page(tb, PageQuery(n, limit)) == []
  {
    CeilingBounds(limit, Count(tb), tp);
    PageIsWindow(tb, n, limit);
    FindLength(tb, RowsUpTo(n - 1, limit), limit);
    RowsGrow(n, tp - 1, limit);
    RowsGrow(tp, n - 1, limit);
  }

  lemma {:induction false} RowsGrow(m: int, n: int, limit: nat)
    ensures 0 <= m <= n ==> RowsUpTo(m, limit) <= RowsUpTo(n, limit)
    decreases n - m
  {
    if 0 <= m < n { RowsGrow(m, n - 1, limit); }
  }

  // Whatever the page number, the page served is the one asked for if and only if the offset is
  // exact or, although it has wrapped, lies past the last row.
  lemma PageServedExactly(tb: Table, n: nat, limit: nat)
    requires WellFormed(tb) && Count(tb) < TWO_63 && PageQuery(n, limit).Valid()
    ensures Page(tb, PageQuery(n, limit)) == Find(tb, RowsUpTo(n - 1, limit), limit) <==>
      RowsUpTo(n - 1, limit) < TWO_63 || Start(PageQuery(n, limit).Offset()) >= Count(tb)
  {
    if RowsUpTo(n - 1, limit) < TWO_63 {
      PageIsWindow(tb, n, limit);
    } else {
      FindLength(tb, RowsUpTo(n - 1, limit), limit);
      FindLength(tb, PageQuery(n, limit).Offset(), limit);
    }
  }

  // A page beyond the last one that is not empty.
  lemma HugePageServesFirstPage(tb: Table)
    ensures Page(tb, PageQuery(0x4000_0000_0000_0001, 4)) == Page(tb, PageQuery(1, 4))
  {
    OffsetWrapsToFirstPage();
  }
}
