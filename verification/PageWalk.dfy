// A client that reads pages 1, 2, 3, ... of GET /tasks while other clients keep writing.

module PageWalk {
  import opened Patch
  import opened Prelude
  import opened Pagination
  import opened Store
  import opened Serializability
  import opened History
  import opened Listing
  import opened Drift
  import opened PageWindows

  // The state when n gaps have passed; gaps[k] is what the other clients do before page k + 1 is
  // read.
  function After(s: State, gaps: seq<seq<Event>>, n: nat): State
    requires n <= |gaps|
  {
    if n == 0 then s else Run(true, After(s, gaps, n - 1), gaps[n - 1])
  }

  function End(s: State, gaps: seq<seq<Event>>): State {
    After(s, gaps, |gaps|)
  }

  // Page n of the walk as it is served, in 64-bit arithmetic.
  function Served(s: State, gaps: seq<seq<Event>>, limit: nat, n: nat): seq<Task>
    requires n <= |gaps|
  {
    Page(After(s, gaps, n).table, PageQuery(n, limit))
  }

  // The first n pages, in order.
  function Walked(s: State, gaps: seq<seq<Event>>, limit: nat, n: nat): seq<Task>
    requires n <= |gaps|
  {
    if n == 0 then [] else Walked(s, gaps, limit, n - 1) + Served(s, gaps, limit, n)
  }

  // Everything the client was shown.
  function Shown(s: State, gaps: seq<seq<Event>>, limit: nat): seq<Task> {
    Walked(s, gaps, limit, |gaps|)
  }

  // The walk came to an end: its last page was not full.
  predicate EndsShort(s: State, gaps: seq<seq<Event>>, limit: nat) {
    gaps != [] && |Served(s, gaps, limit, |gaps|)| < limit
  }

  // Pages 1 to n can be asked for, and their offsets fit in 63 bits.
  ghost predicate InRange(n: nat, limit: nat) {
    n > 0 ==> PageQuery(n, limit).Valid() && RowsUpTo(n - 1, limit) < TWO_63
  }

  function Since(s: State, s': State): seq<Entry> {
    if |s.log| <= |s'.log| then s'.log[|s.log|..] else []
  }

  function States(s: State, gaps: seq<seq<Event>>): seq<State> {
    seq(|gaps| + 1, n requires 0 <= n <= |gaps| => After(s, gaps, n))
  }

  // The states of a walk as a course of serial histories.
  function CourseOf(ss: seq<State>): Course
    requires ss != []
  {
    Course(seq(|ss|, n requires 0 <= n < |ss| => ss[n].table),
           seq(|ss| - 1, n requires 0 <= n < |ss| - 1 => Since(ss[n], ss[n + 1])))
  }

  ghost predicate LogsGrow(ss: seq<State>) {
    forall m, n :: 0 <= m <= n < |ss| ==> ss[m].log <= ss[n].log
  }

  lemma {:induction false} CourseCounts(ss: seq<State>, n: nat)
    requires LogsGrow(ss) && n < |ss|
    ensures ss[0].log <= ss[n].log
    ensures CreatesIn(CourseOf(ss).logs, n) == Creates(Added(ss[0], ss[n]))
    ensures DeletesIn(CourseOf(ss).logs, n) == Deletes(Added(ss[0], ss[n]))
  {
    if n > 0 {
      CourseCounts(ss, n - 1);
      SinceAdds(ss[0], ss[n - 1], ss[n]);
    }
  }

  lemma SinceAdds(s: State, prev: State, now: State)
    requires s.log <= prev.log <= now.log
    ensures Creates(Added(s, now)) == Creates(Added(s, prev)) + Creates(Since(prev, now))
    ensures Deletes(Added(s, now)) == Deletes(Added(s, prev)) + Deletes(Since(prev, now))
  {
    assert Added(s, now) == Added(s, prev) + Since(prev, now);
    CountsAdd(Added(s, prev), Since(prev, now));
  }

  lemma {:induction false} AfterInv(s: State, gaps: seq<seq<Event>>, n: nat)
    requires Inv(s) && n <= |gaps|
    ensures Inv(After(s, gaps, n)) && s.log <= After(s, gaps, n).log
  {
    if n > 0 {
      AfterInv(s, gaps, n - 1);
      RunsAreSerial(After(s, gaps, n - 1), gaps[n - 1]);
    }
  }

  lemma AfterWellFormed(s: State, gaps: seq<seq<Event>>, n: nat)
    requires Inv(s) && n <= |gaps|
    ensures WellFormed(After(s, gaps, n).table)
  {
    AfterInv(s, gaps, n);
  }

  lemma GapLeads(s: State, gaps: seq<seq<Event>>, n: nat, prev: State, now: State)
    requires Inv(s) && n < |gaps| && prev == After(s, gaps, n) && now == After(s, gaps, n + 1)
    ensures prev.log <= now.log && Leads(prev.table, Since(prev, now), now.table)
  {
    AfterInv(s, gaps, n);
    RunsAreSerial(prev, gaps[n]);
  }

  lemma {:induction false} LaterLogs(s: State, gaps: seq<seq<Event>>, m: nat, n: nat)
    requires Inv(s) && m <= n <= |gaps|
    ensures After(s, gaps, m).log <= After(s, gaps, n).log
    decreases n
  {
    if m < n {
      LaterLogs(s, gaps, m, n - 1);
      GapLeads(s, gaps, n - 1, After(s, gaps, n - 1), After(s, gaps, n));
    }
  }

  lemma StatesGrow(s: State, gaps: seq<seq<Event>>)
    requires Inv(s)
    ensures LogsGrow(States(s, gaps))
  {
    forall m, n | 0 <= m <= n <= |gaps| ensures After(s, gaps, m).log <= After(s, gaps, n).log {
      LaterLogs(s, gaps, m, n);
    }
  }

  lemma CourseLeads(s: State, gaps: seq<seq<Event>>, h: Course, n: nat)
    requires Inv(s) && h == CourseOf(States(s, gaps)) && n < |gaps|
    ensures Leads(h.tables[n], h.logs[n], h.tables[n + 1])
  {
    GapLeads(s, gaps, n, After(s, gaps, n), After(s, gaps, n + 1));
  }

  lemma CourseIsLegal(s: State, gaps: seq<seq<Event>>, h: Course)
    requires Inv(s) && h == CourseOf(States(s, gaps))
    ensures h.Legal()
  {
    forall n | 0 <= n < |h.tables| ensures WellFormed(h.tables[n]) { AfterWellFormed(s, gaps, n); }
    forall n {:trigger h.logs[n]} | 0 <= n < |h.logs| ensures Leads(h.tables[n], h.logs[n], h.tables[n + 1]) {
      CourseLeads(s, gaps, h, n);
    }
  }

  // While the offsets fit, the pages served are the windows.
  lemma {:induction false} ServedAreWindows(s: State, gaps: seq<seq<Event>>, limit: nat, n: nat)
    requires n <= |gaps| && InRange(n, limit)
    ensures Walked(s, gaps, limit, n) == Windows(CourseOf(States(s, gaps)), limit, n)
    ensures n > 0 ==> Served(s, gaps, limit, n) == Window(CourseOf(States(s, gaps)), limit, n)
  {
    if n > 0 {
      ServedAreWindows(s, gaps, limit, n - 1);
      PageIsWindow(After(s, gaps, n).table, n, limit);
    }
  }

  lemma WalkIsCourse(s: State, gaps: seq<seq<Event>>, limit: nat) returns (h: Course)
    requires Inv(s) && InRange(|gaps|, limit)
    ensures h.Legal() && |h.logs| == |gaps| && h.tables[0] == s.table && h.tables[|gaps|] == End(s, gaps).table
    ensures s.log <= End(s, gaps).log
    ensures CreatesIn(h.logs, |gaps|) == Creates(Added(s, End(s, gaps)))
    ensures DeletesIn(h.logs, |gaps|) == Deletes(Added(s, End(s, gaps)))
    ensures Shown(s, gaps, limit) == Windows(h, limit, |gaps|)
    ensures EndsShort(s, gaps, limit) ==> gaps != [] && |Window(h, limit, |gaps|)| < limit
  {
    h := CourseOf(States(s, gaps));
    CourseIsLegal(s, gaps, h);
    StatesGrow(s, gaps);
    CourseCounts(States(s, gaps), |gaps|);
    ServedAreWindows(s, gaps, limit, |gaps|);
  }

  // ----- what such a client can rely on -----

  // While nothing is deleted, a task that was live at the start and has not been shown by the first
  // n pages is still ahead of the reader: its rank is at least n * limit.
  lemma WalkUnderCreates(s: State, gaps: seq<seq<Event>>, limit: nat, id: nat)
    requires Inv(s) && InRange(|gaps|, limit) && LiveIn(s.table.rows, id)
    requires s.log <= End(s, gaps).log && Deletes(Added(s, End(s, gaps))) == 0
    ensures LiveIn(End(s, gaps).table.rows, id)
    ensures Returned(Shown(s, gaps, limit), id) || Rank(End(s, gaps).table, id) >= RowsUpTo(|gaps|, limit)
  {
    var h := WalkIsCourse(s, gaps, limit);
    WindowsUnderCreates(h, limit, |gaps|, id);
  }

  // So when a page comes back short, no task that was there at the start has been missed.
  lemma ShortPageMeansComplete(s: State, gaps: seq<seq<Event>>, limit: nat, id: nat)
    requires Inv(s) && InRange(|gaps|, limit) && LiveIn(s.table.rows, id)
    requires s.log <= End(s, gaps).log && Deletes(Added(s, End(s, gaps))) == 0
    requires EndsShort(s, gaps, limit)
    ensures Returned(Shown(s, gaps, limit), id)
  {
    var h := WalkIsCourse(s, gaps, limit);
    WindowsUnderCreates(h, limit, |gaps|, id);
    ShortIsLast(h.tables[|gaps|], RowsUpTo(|gaps| - 1, limit), limit, id);
  }

  // While nothing is created, the concatenation of all pages served is strictly descending by id:
  // no task is shown twice, whatever is deleted or updated in between.
  lemma WalkUnderDeletes(s: State, gaps: seq<seq<Event>>, limit: nat)
    requires Inv(s) && InRange(|gaps|, limit)
    requires s.log <= End(s, gaps).log && Creates(Added(s, End(s, gaps))) == 0
    ensures Descending(Shown(s, gaps, limit))
    ensures Ahead(End(s, gaps).table, Shown(s, gaps, limit), RowsUpTo(|gaps|, limit))
  {
    var h := WalkIsCourse(s, gaps, limit);
    WindowsUnderDeletes(h, limit, |gaps|);
  }

  lemma WalkIsSerial(s: State, gaps: seq<seq<Event>>, n: nat)
    requires Inv(s) && n <= |gaps|
    ensures SerialFrom(s, After(s, gaps, n))
  {
    FlatRun(s, gaps, n);
    RunsAreSerial(s, Flat(gaps, n));
  }

  function Flat(gaps: seq<seq<Event>>, n: nat): seq<Event>
    requires n <= |gaps|
  {
    if n == 0 then [] else Flat(gaps, n - 1) + gaps[n - 1]
  }

  lemma {:induction false} FlatRun(s: State, gaps: seq<seq<Event>>, n: nat)
    requires n <= |gaps|
    ensures After(s, gaps, n) == Run(true, s, Flat(gaps, n))
  {
    if n > 0 {
      FlatRun(s, gaps, n - 1);
      RunAppend(true, s, Flat(gaps, n - 1), gaps[n - 1]);
    }
  }

  // A task that was shown and is gone was deleted during the walk.
  lemma ShownAndGone(s: State, gaps: seq<seq<Event>>, limit: nat, id: nat)
    requires Inv(s) && InRange(|gaps|, limit)
    requires s.log <= End(s, gaps).log && Creates(Added(s, End(s, gaps))) == 0
    requires Returned(Shown(s, gaps, limit), id) && !LiveIn(End(s, gaps).table.rows, id)
    ensures LiveIn(s.table.rows, id) && Deleted(Added(s, End(s, gaps)), id)
  {
    var h := WalkIsCourse(s, gaps, limit);
    ReadWasLive(h, limit, |gaps|, id);
    WalkIsSerial(s, gaps, |gaps|);
    LiveExactly(s.table, Added(s, End(s, gaps)), id, End(s, gaps).table);
  }

  // A client that stops at a short page while others only delete and update: for every live task it
  // has missed there is another task that it was shown and that has since been deleted.
  lemma MissedAtMostDeleted(s: State, gaps: seq<seq<Event>>, limit: nat)
    requires Inv(s) && InRange(|gaps|, limit) && EndsShort(s, gaps, limit)
    requires s.log <= End(s, gaps).log && Creates(Added(s, End(s, gaps))) == 0
    ensures var live, shown := Ids(LiveRows(End(s, gaps).table)), Ids(Shown(s, gaps, limit));
      && |live - shown| <= |shown - live|
      && forall id :: id in shown - live ==> LiveIn(s.table.rows, id) && Deleted(Added(s, End(s, gaps)), id)
  {
    var h := WalkIsCourse(s, gaps, limit);
    WindowsMissFew(h, limit, |gaps|);
    var live, shown := Ids(LiveRows(End(s, gaps).table)), Ids(Shown(s, gaps, limit));
    forall id | id in shown - live ensures LiveIn(s.table.rows, id) && Deleted(Added(s, End(s, gaps)), id) {
      LiveIds(h.tables[|gaps|], id);
      ShownAndGone(s, gaps, limit, id);
    }
  }

  // Whatever the other clients do: a client that stops at a short page has missed at most as many
  // of the tasks that were there all the time as tasks were deleted meanwhile, and no client is
  // shown more repetitions than tasks were created meanwhile.
  lemma WalkUnderAnything(s: State, gaps: seq<seq<Event>>, limit: nat, ids: set<nat>)
    requires Inv(s) && InRange(|gaps|, limit)
    requires AllLive(s.table, ids) && AllLive(End(s, gaps).table, ids)
    ensures s.log <= End(s, gaps).log
    ensures EndsShort(s, gaps, limit) ==> |ids - Ids(Shown(s, gaps, limit))| <= Deletes(Added(s, End(s, gaps)))
    ensures |Shown(s, gaps, limit)| - |Ids(Shown(s, gaps, limit))| <= Creates(Added(s, End(s, gaps)))
  {
    var h := WalkIsCourse(s, gaps, limit);
    PassedAtMostDeletes(h, limit, |gaps|, ids);
    RepeatedAtMostCreates(h, limit, |gaps|);
    if EndsShort(s, gaps, limit) {
      forall id | id in ids ensures Rank(h.tables[|gaps|], id) < RowsUpTo(|gaps|, limit) {
        ShortIsLast(h.tables[|gaps|], RowsUpTo(|gaps| - 1, limit), limit, id);
      }
      assert Passed(h, limit, |gaps|, ids) == ids - Ids(Shown(s, gaps, limit));
    }
  }

  // The last request of the walk as its two statements: the count is taken in the state `counted`.
  ghost predicate CountedIn(s: State, gaps: seq<seq<Event>>, before: seq<Event>, between: seq<Event>, counted: State) {
    gaps != [] && gaps[|gaps| - 1] == before + between && counted == Run(true, After(s, gaps, |gaps| - 1), before)
  }

  lemma RunLeads(s: State, es: seq<Event>, s': State)
    requires Inv(s) && s' == Run(true, s, es)
    ensures Inv(s') && s.log <= s'.log && Leads(s.table, Added(s, s'), s'.table) && Extends(s.table, s'.table)
  {
    RunsAreSerial(s, es);
    ReplayExtends(s.table, Ops(Added(s, s')));
  }

  lemma CountToEnd(s: State, gaps: seq<seq<Event>>, before: seq<Event>, between: seq<Event>, counted: State)
    requires Inv(s) && CountedIn(s, gaps, before, between, counted)
    ensures s.log <= counted.log <= End(s, gaps).log
    ensures Leads(counted.table, Added(counted, End(s, gaps)), End(s, gaps).table)
    ensures Extends(s.table, counted.table)
  {
    var prev := After(s, gaps, |gaps| - 1);
    FlatRun(s, gaps, |gaps| - 1);
    RunAppend(true, s, Flat(gaps, |gaps| - 1), before);
    RunLeads(s, Flat(gaps, |gaps| - 1) + before, counted);
    RunAppend(true, prev, before, between);
    RunLeads(counted, between, End(s, gaps));
  }

  // A client that stops because its last request announced no further page: count and page of that
  // request are two statements, so besides the tasks that deletes made it pass it can miss what was
  // pushed back by creates between the two. With no create there, the announced count is as good as
  // a short page.
  lemma StopAtLastPage(
    s: State, gaps: seq<seq<Event>>, limit: nat, ids: set<nat>,
    before: seq<Event>, between: seq<Event>, counted: State)
    requires Inv(s) && InRange(|gaps|, limit) && CountedIn(s, gaps, before, between, counted)
    requires AllLive(s.table, ids) && AllLive(End(s, gaps).table, ids)
    requires Count(counted.table) + limit - 1 < TWO_63
    requires NewPageMeta(PageQuery(|gaps|, limit), Count(counted.table)).totalPages <= |gaps|
    ensures s.log <= counted.log <= End(s, gaps).log
    ensures |ids - Ids(Shown(s, gaps, limit))| <=
      Deletes(Added(s, End(s, gaps))) + Creates(Added(counted, End(s, gaps)))
  {
    var h := WalkIsCourse(s, gaps, limit);
    var bound := RowsUpTo(|gaps|, limit);
    var unread := ids - Ids(Shown(s, gaps, limit));
    PassedAtMostDeletes(h, limit, |gaps|, ids);
    CountToEnd(s, gaps, before, between, counted);
    AnnouncedBound(counted.table, |gaps|, limit);
    PushedPast(counted.table, Added(counted, End(s, gaps)), End(s, gaps).table, unread, bound);
    assert Within(End(s, gaps).table, unread, bound) == Passed(h, limit, |gaps|, ids);
    assert unread == Within(End(s, gaps).table, unread, bound) + (unread - Within(End(s, gaps).table, unread, bound));
  }

  lemma AnnouncedBound(tb: Table, n: nat, limit: nat)
    requires PageQuery(n, limit).Valid() && Count(tb) + limit - 1 < TWO_63
    requires NewPageMeta(PageQuery(n, limit), Count(tb)).totalPages <= n
    ensures Count(tb) <= RowsUpTo(n, limit)
  {
    var tp := NewPageMeta(PageQuery(n, limit), Count(tb)).totalPages;
    CeilingBounds(limit, Count(tb), tp);
    RowsGrow(tp, n, limit);
  }
}
