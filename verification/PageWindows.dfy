// A reader of consecutive windows of the listing, beside a history of other clients' operations.

module PageWindows {
  import opened Prelude
  import opened Patch
  import opened Store
  import opened Serializability
  import opened History
  import opened Listing
  import opened Drift

  // The operations of the log, run one at a time, lead from one table to the other.
  ghost predicate Leads(prev: Table, log: seq<Entry>, now: Table) {
    WellFormed(prev) && SerialLog(prev, log) && now == Replay(prev, Ops(log))
  }

  // What happens around the reader: logs[k] is what the other clients do before window k + 1 is
  // read, and tables[k + 1] is the table then.
  datatype Course = Course(tables: seq<Table>, logs: seq<seq<Entry>>) {
    ghost predicate Legal() {
      && |tables| == |logs| + 1
      && (forall k {:trigger logs[k]} :: 0 <= k < |logs| ==> Leads(tables[k], logs[k], tables[k + 1]))
      && (forall k :: 0 <= k < |tables| ==> WellFormed(tables[k]))
    }
  }

  function CreatesIn(logs: seq<seq<Entry>>, n: nat): nat
    requires n <= |logs|
  {
    if n == 0 then 0 else CreatesIn(logs, n - 1) + Creates(logs[n - 1])
  }

  function DeletesIn(logs: seq<seq<Entry>>, n: nat): nat
    requires n <= |logs|
  {
    if n == 0 then 0 else DeletesIn(logs, n - 1) + Deletes(logs[n - 1])
  }

  // Window n holds the rows after the first n - 1 full pages.
  function Window(h: Course, limit: nat, n: nat): seq<Task>
    requires 0 < n < |h.tables|
  {
    Find(h.tables[n], RowsUpTo(n - 1, limit), limit)
  }

  // The first n windows read, in order.
  function Windows(h: Course, limit: nat, n: nat): seq<Task>
    requires n < |h.tables|
  {
    if n == 0 then [] else Windows(h, limit, n - 1) + Window(h, limit, n)
  }

  lemma Stretch(h: Course, n: nat)
    requires h.Legal() && 0 < n <= |h.logs|
    ensures Leads(h.tables[n - 1], h.logs[n - 1], h.tables[n]) && WellFormed(h.tables[n])
    ensures Extends(h.tables[n - 1], h.tables[n])
    ensures Deletes(h.logs[n - 1]) == 0 ==> Grows(h.tables[n - 1], h.tables[n])
    ensures Creates(h.logs[n - 1]) == 0 ==> Shrinks(h.tables[n - 1], h.tables[n])
  {
    SerialGrowth(h.tables[n - 1], h.logs[n - 1], h.tables[n]);
    ReplayExtends(h.tables[n - 1], Ops(h.logs[n - 1]));
  }

  ghost predicate Returned(ts: seq<Task>, id: nat) {
    exists i :: 0 <= i < |ts| && ts[i].id == id
  }

  lemma ReturnedAppend(a: seq<Task>, b: seq<Task>, id: nat)
    ensures Returned(a + b, id) <==> Returned(a, id) || Returned(b, id)
  {
    if Returned(a, id) {
      var i :| 0 <= i < |a| && a[i].id == id;
      assert (a + b)[i].id == id;
    }
    if Returned(b, id) {
      var i :| 0 <= i < |b| && b[i].id == id;
      assert (a + b)[|a| + i].id == id;
    }
  }

  // ----- creates only -----

  // A live row within the window is read.
  lemma WindowReads(tb: Table, bound: nat, limit: nat, id: nat)
    requires WellFormed(tb) && LiveIn(tb.rows, id) && bound <= Rank(tb, id) < bound + limit
    ensures Returned(Find(tb, bound, limit), id)
  {
    FindByRank(tb, bound, limit, id);
    var page := Find(tb, bound, limit);
    var i :| 0 <= i < |page| && page[i] == tb.rows[id];
    assert page[i].id == id;
  }

  lemma {:induction false} WindowsUnderCreates(h: Course, limit: nat, n: nat, id: nat)
    requires h.Legal() && n <= |h.logs| && DeletesIn(h.logs, n) == 0 && LiveIn(h.tables[0].rows, id)
    ensures LiveIn(h.tables[n].rows, id)
    ensures Returned(Windows(h, limit, n), id) || Rank(h.tables[n], id) >= RowsUpTo(n, limit)
  {
    if n > 0 {
      var prev, now := h.tables[n - 1], h.tables[n];
      Stretch(h, n);
      WindowsUnderCreates(h, limit, n - 1, id);
      LiveBetweenMonotone(prev.rows, now.rows, id + 1, prev.nextId, now.nextId);
      ReturnedAppend(Windows(h, limit, n - 1), Window(h, limit, n), id);
      if RowsUpTo(n - 1, limit) <= Rank(now, id) < RowsUpTo(n, limit) {
        WindowReads(now, RowsUpTo(n - 1, limit), limit, id);
      }
    }
  }

  // Nothing is left behind a short window.
  lemma ShortIsLast(tb: Table, bound: nat, limit: nat, id: nat)
    requires WellFormed(tb) && |Find(tb, bound, limit)| < limit && LiveIn(tb.rows, id)
    ensures Rank(tb, id) < bound + limit
  {
    FindLength(tb, bound, limit);
    ListingIsLiveRows(tb);
  }

  // ----- deletes only -----

  // What has been read is newer than everything that is still ahead of the reader.
  ghost predicate Ahead(tb: Table, ts: seq<Task>, upTo: int) {
    forall i, id: nat :: 0 <= i < |ts| && LiveIn(tb.rows, id) && Rank(tb, id) >= upTo ==> ts[i].id > id
  }

  lemma AheadStep(prev: Table, now: Table, ts: seq<Task>, from: nat, limit: nat)
    requires WellFormed(prev) && WellFormed(now) && Shrinks(prev, now)
    requires Descending(ts) && Ahead(prev, ts, from)
    ensures Descending(ts + Find(now, from, limit))
    ensures Ahead(now, ts + Find(now, from, limit), from + limit)
  {
    var page := Find(now, from, limit);
    FindItems(now, from, limit);
    forall id: nat | LiveIn(now.rows, id) ensures Rank(prev, id) >= Rank(now, id) {
      LiveBetweenMonotone(now.rows, prev.rows, id + 1, now.nextId, prev.nextId);
    }
    forall i, id: nat | 0 <= i < |page| && LiveIn(now.rows, id) && Rank(now, id) >= from + limit
      ensures page[i].id > id
    {
      RankOrder(now, page[i].id, id);
    }
    assert Ahead(now, ts + page, from + limit);
  }

  lemma {:induction false} WindowsUnderDeletes(h: Course, limit: nat, n: nat)
    requires h.Legal() && n <= |h.logs| && CreatesIn(h.logs, n) == 0
    ensures Descending(Windows(h, limit, n))
    ensures Ahead(h.tables[n], Windows(h, limit, n), RowsUpTo(n, limit))
  {
    if n > 0 {
      Stretch(h, n);
      WindowsUnderDeletes(h, limit, n - 1);
      AheadStep(h.tables[n - 1], h.tables[n], Windows(h, limit, n - 1),
                RowsUpTo(n - 1, limit), limit);
    }
  }

  function Ids(ts: seq<Task>): set<nat> {
    set i | 0 <= i < |ts| :: ts[i].id
  }

  lemma {:induction false} DistinctIds(ts: seq<Task>)
    requires Descending(ts)
    ensures |Ids(ts)| == |ts|
  {
    if ts != [] {
      var front, last := ts[..|ts| - 1], ts[|ts| - 1];
      DistinctIds(front);
      assert Ids(ts) == Ids(front) + {last.id};
      assert last.id !in Ids(front);
    }
  }

  lemma SmallerRemainder(a: set<nat>, b: set<nat>)
    requires |a| <= |b|
    ensures |a - b| <= |b - a|
  {
    assert a == (a - b) + (a * b);
    assert b == (b - a) + (a * b);
  }

  lemma LiveIds(tb: Table, id: nat)
    requires WellFormed(tb)
    ensures id in Ids(LiveRows(tb)) <==> LiveIn(tb.rows, id)
  {
    ListingIsLiveRows(tb);
    if LiveIn(tb.rows, id) { assert LiveRows(tb)[Rank(tb, id)].id == id; }
  }

  // Everything read was there at the start.
  lemma {:induction false} ReadWasLive(h: Course, limit: nat, n: nat, id: nat)
    requires h.Legal() && n <= |h.logs| && CreatesIn(h.logs, n) == 0
    requires Returned(Windows(h, limit, n), id) || LiveIn(h.tables[n].rows, id)
    ensures LiveIn(h.tables[0].rows, id)
  {
    if n > 0 {
      Stretch(h, n);
      ReturnedAppend(Windows(h, limit, n - 1), Window(h, limit, n), id);
      FindItems(h.tables[n], RowsUpTo(n - 1, limit), limit);
      ReadWasLive(h, limit, n - 1, id);
    }
  }

  // As far as it came, the reader has been shown at least as many tasks as there are left.
  lemma {:induction false} ShownEnough(h: Course, limit: nat, n: nat)
    requires h.Legal() && n <= |h.logs| && CreatesIn(h.logs, n) == 0
    ensures Min(Count(h.tables[n]), RowsUpTo(n, limit)) <= |Windows(h, limit, n)|
  {
    if n > 0 {
      var prev, now := h.tables[n - 1], h.tables[n];
      Stretch(h, n);
      ShownEnough(h, limit, n - 1);
      LiveBetweenMonotone(now.rows, prev.rows, 0, now.nextId, prev.nextId);
      FindLength(now, RowsUpTo(n - 1, limit), limit);
    }
  }

  lemma WindowsMissFew(h: Course, limit: nat, n: nat)
    requires h.Legal() && 0 < n <= |h.logs| && CreatesIn(h.logs, n) == 0 && |Window(h, limit, n)| < limit
    ensures var live, shown := Ids(LiveRows(h.tables[n])), Ids(Windows(h, limit, n));
      |live - shown| <= |shown - live|
  {
    var now := h.tables[n];
    Stretch(h, n);
    ListingIsLiveRows(now);
    WindowsUnderDeletes(h, limit, n);
    DistinctIds(LiveRows(now));
    DistinctIds(Windows(h, limit, n));
    ShownEnough(h, limit, n);
    FindLength(now, RowsUpTo(n - 1, limit), limit);
    SmallerRemainder(Ids(LiveRows(now)), Ids(Windows(h, limit, n)));
  }

  // ----- anything at all -----

  lemma FewerApart(a: set<nat>, b: set<nat>, c: set<nat>)
    requires a <= c && b <= c && a !! b
    ensures |a| + |b| <= |c|
  {
    FewerIn(a + b, c);
  }

  lemma IdsAppend(a: seq<Task>, b: seq<Task>)
    ensures Ids(a + b) == Ids(a) + Ids(b)
  {
    assert forall i :: 0 <= i < |b| ==> (a + b)[|a| + i] == b[i];
    assert forall i :: 0 <= i < |a| ==> (a + b)[i] == a[i];
  }

  lemma {:induction false} CourseExtends(h: Course, n: nat)
    requires h.Legal() && n <= |h.logs|
    ensures Extends(h.tables[0], h.tables[n])
  {
    if n > 0 {
      CourseExtends(h, n - 1);
      Stretch(h, n);
    }
  }

  // Tasks that are live at the start and after a stretch of the course are live before it.
  lemma LiveMeanwhile(h: Course, n: nat, ids: set<nat>)
    requires h.Legal() && 0 < n <= |h.logs| && AllLive(h.tables[0], ids) && AllLive(h.tables[n], ids)
    ensures AllLive(h.tables[n - 1], ids)
  {
    CourseExtends(h, n - 1);
    Stretch(h, n);
  }

  // Reading a window leaves unseen only what was passed before.
  lemma ReadingLeaves(tb: Table, ids: set<nat>, seen: seq<Task>, page: seq<Task>, bound: nat, limit: nat)
    requires WellFormed(tb) && page == Find(tb, bound, limit) && AllLive(tb, ids)
    ensures |Within(tb, ids - Ids(seen + page), bound + limit)| <= |Within(tb, ids - Ids(seen), bound)|
  {
    IdsAppend(seen, page);
    forall id | id in ids && bound <= Rank(tb, id) < bound + limit ensures id in Ids(page) {
      FindByRank(tb, bound, limit, id);
      var i :| 0 <= i < |page| && page[i] == tb.rows[id];
      assert page[i].id == id;
    }
    FewerIn(Within(tb, ids - Ids(seen + page), bound + limit), Within(tb, ids - Ids(seen), bound));
  }

  // The tasks among ids that are within the first n windows and have not been read.
  function Passed(h: Course, limit: nat, n: nat, ids: set<nat>): set<nat>
    requires n < |h.tables|
  {
    Within(h.tables[n], ids - Ids(Windows(h, limit, n)), RowsUpTo(n, limit))
  }

  lemma PassStep(h: Course, limit: nat, n: nat, ids: set<nat>)
    requires h.Legal() && 0 < n <= |h.logs| && AllLive(h.tables[n - 1], ids) && AllLive(h.tables[n], ids)
    ensures |Passed(h, limit, n, ids)| <= |Passed(h, limit, n - 1, ids)| + Deletes(h.logs[n - 1])
  {
    var bound, seen := RowsUpTo(n - 1, limit), Windows(h, limit, n - 1);
    SerialWithin(h.tables[n - 1], h.logs[n - 1], ids - Ids(seen), bound, h.tables[n]);
    ReadingLeaves(h.tables[n], ids, seen, Window(h, limit, n), bound, limit);
  }

  // Of the tasks that are there all the time, those the reader has passed without seeing them are
  // at most as many as tasks were deleted.
  lemma {:induction false} PassedAtMostDeletes(h: Course, limit: nat, n: nat, ids: set<nat>)
    requires h.Legal() && n <= |h.logs| && AllLive(h.tables[0], ids) && AllLive(h.tables[n], ids)
    ensures |Passed(h, limit, n, ids)| <= DeletesIn(h.logs, n)
  {
    if n == 0 {
      assert Passed(h, limit, 0, ids) == {};
    } else {
      LiveMeanwhile(h, n, ids);
      PassedAtMostDeletes(h, limit, n - 1, ids);
      PassStep(h, limit, n, ids);
    }
  }

  // Reading a window: what it repeats was past the reader before and no longer is.
  lemma PageAdds(tb: Table, bound: nat, limit: nat, read: set<nat>, page: seq<Task>)
    requires WellFormed(tb) && page == Find(tb, bound, limit)
    ensures |page| + |Past(tb, read + Ids(page), bound + limit)| + |read| <=
      |read + Ids(page)| + |Past(tb, read, bound)|
  {
    FindItems(tb, bound, limit);
    DistinctIds(page);
    var again := read * Ids(page);
    FewerApart(again, Past(tb, read + Ids(page), bound + limit), Past(tb, read, bound));
    assert Ids(page) == again + (Ids(page) - read);
    assert read + Ids(page) == read + (Ids(page) - read);
  }

  lemma ReadingRepeats(tb: Table, seen: seq<Task>, page: seq<Task>, bound: nat, limit: nat)
    requires WellFormed(tb) && page == Find(tb, bound, limit)
    ensures |seen + page| + |Past(tb, Ids(seen + page), bound + limit)| + |Ids(seen)| <=
      |Ids(seen + page)| + |seen| + |Past(tb, Ids(seen), bound)|
  {
    IdsAppend(seen, page);
    PageAdds(tb, bound, limit, Ids(seen), page);
  }

  // The tasks that have been read in the first n windows and are ahead of the reader again.
  function PushedBack(h: Course, limit: nat, n: nat): set<nat>
    requires n < |h.tables|
  {
    Past(h.tables[n], Ids(Windows(h, limit, n)), RowsUpTo(n, limit))
  }

  lemma {:induction false} ReadKnown(h: Course, limit: nat, n: nat)
    requires h.Legal() && n <= |h.logs|
    ensures AllKnown(h.tables[n], Ids(Windows(h, limit, n)))
  {
    if n > 0 {
      ReadKnown(h, limit, n - 1);
      Stretch(h, n);
      IdsAppend(Windows(h, limit, n - 1), Window(h, limit, n));
      FindItems(h.tables[n], RowsUpTo(n - 1, limit), limit);
    }
  }

  lemma PushStep(h: Course, limit: nat, n: nat, seen: set<nat>)
    requires h.Legal() && 0 < n <= |h.logs| && seen == Ids(Windows(h, limit, n - 1))
    ensures |Past(h.tables[n], seen, RowsUpTo(n - 1, limit))| <= |PushedBack(h, limit, n - 1)| + Creates(h.logs[n - 1])
  {
    ReadKnown(h, limit, n - 1);
    SerialPast(h.tables[n - 1], h.logs[n - 1], seen, RowsUpTo(n - 1, limit), h.tables[n]);
  }

  lemma RepeatStep(h: Course, limit: nat, n: nat)
    requires h.Legal() && 0 < n <= |h.logs|
    ensures |Windows(h, limit, n)| + |PushedBack(h, limit, n)| + |Ids(Windows(h, limit, n - 1))| <=
      |Ids(Windows(h, limit, n))| + |Windows(h, limit, n - 1)| + |PushedBack(h, limit, n - 1)| + Creates(h.logs[n - 1])
  {
    var seen := Windows(h, limit, n - 1);
    PushStep(h, limit, n, Ids(seen));
    ReadingRepeats(h.tables[n], seen, Window(h, limit, n), RowsUpTo(n - 1, limit), limit);
  }

  // What has been read more than once, together with what has been pushed back, is at most as much
  // as was created.
  lemma {:induction false} RepeatedAtMostCreates(h: Course, limit: nat, n: nat)
    requires h.Legal() && n <= |h.logs|
    ensures |Windows(h, limit, n)| + |PushedBack(h, limit, n)| <= |Ids(Windows(h, limit, n))| + CreatesIn(h.logs, n)
  {
    if n == 0 {
      assert PushedBack(h, limit, 0) == {};
    } else {
      RepeatedAtMostCreates(h, limit, n - 1);
      RepeatStep(h, limit, n);
    }
  }

  // Rows that were within the first `bound` places at one moment are past them later only for as
  // many creates as came in between.
  lemma PushedPast(prev: Table, log: seq<Entry>, now: Table, ids: set<nat>, bound: nat)
    requires Leads(prev, log, now) && AllKnown(prev, ids) && AllLive(now, ids) && Count(prev) <= bound
    ensures |ids - Within(now, ids, bound)| <= Creates(log)
  {
    SerialPast(prev, log, ids, bound, now);
    ListingIsLiveRows(prev);
    assert Past(prev, ids, bound) == {};
    assert Past(now, ids, bound) == ids - Within(now, ids, bound);
  }
}
