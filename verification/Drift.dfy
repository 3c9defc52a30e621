// How far the listing moves while other clients write.

module Drift {
  import opened Prelude
  import opened Patch
  import opened Store
  import opened Serializability
  import opened History
  import opened Listing

  // ----- how the table changes between two reads -----

  ghost predicate Grows(a: Table, b: Table) {
    a.nextId <= b.nextId && forall id :: LiveIn(a.rows, id) ==> LiveIn(b.rows, id)
  }

  ghost predicate Shrinks(a: Table, b: Table) {
    a.nextId == b.nextId && forall id :: LiveIn(b.rows, id) ==> LiveIn(a.rows, id)
  }

  function Creates(log: seq<Entry>): nat {
    if log == [] then 0 else Creates(log[..|log| - 1]) + if log[|log| - 1].op.CreateOp? then 1 else 0
  }

  function Deletes(log: seq<Entry>): nat {
    if log == [] then 0 else Deletes(log[..|log| - 1]) + if log[|log| - 1].reply.Gone? then 1 else 0
  }

  lemma OpGrowth(tb: Table, op: Op)
    requires WellFormed(tb)
    ensures !Apply(tb, op).1.Gone? ==> Grows(tb, Apply(tb, op).0)
    ensures !op.CreateOp? ==> Shrinks(tb, Apply(tb, op).0)
  {
  }

  lemma {:induction false} SerialGrowth(tb: Table, log: seq<Entry>, now: Table)
    requires WellFormed(tb) && SerialLog(tb, log) && now == Replay(tb, Ops(log))
    ensures Deletes(log) == 0 ==> Grows(tb, now)
    ensures Creates(log) == 0 ==> Shrinks(tb, now)
  {
    if log == [] {
      assert Ops(log) == [];
    } else {
      var front := log[..|log| - 1];
      SerialPrefix(tb, log);
      var prev := Replay(tb, Ops(front));
      SerialGrowth(tb, front, prev);
      ReplayExtends(tb, Ops(front));
      OpGrowth(prev, log[|log| - 1].op);
    }
  }

  // More live rows below a higher ceiling.
  lemma {:induction false} LiveBetweenMonotone(a: map<nat, Task>, b: map<nat, Task>, lo: nat, hi: nat, hi': nat)
    requires hi <= hi' && forall id :: LiveIn(a, id) ==> LiveIn(b, id)
    ensures LiveBetween(a, lo, hi) <= LiveBetween(b, lo, hi')
    decreases hi'
  {
    if hi' > lo {
      if hi == hi' {
        LiveBetweenMonotone(a, b, lo, hi - 1, hi' - 1);
      } else {
        LiveBetweenMonotone(a, b, lo, hi, hi' - 1);
      }
    }
  }

  // Higher ids come first.
  lemma RankOrder(tb: Table, x: nat, y: nat)
    requires WellFormed(tb) && LiveIn(tb.rows, x) && LiveIn(tb.rows, y) && Rank(tb, x) < Rank(tb, y)
    ensures x > y
  {
    ListingIsLiveRows(tb);
    assert LiveRows(tb)[Rank(tb, x)].id > LiveRows(tb)[Rank(tb, y)].id;
  }

  // ----- how far anything moves -----

  lemma {:induction false} LiveBetweenUpdate(rows: map<nat, Task>, t: Task, lo: nat, hi: nat)
    ensures LiveBetween(rows[t.id := t], lo, hi) == LiveBetween(rows, lo, hi) +
      if !(lo <= t.id < hi) then 0
      else (if t.deletedAt.None? then 1 else 0) - (if LiveIn(rows, t.id) then 1 else 0)
  {
    if hi > lo { LiveBetweenUpdate(rows, t, lo, hi - 1); }
  }

  lemma {:induction false} NoRowsAbove(tb: Table, lo: nat, hi: nat)
    requires WellFormed(tb) && hi >= tb.nextId
    ensures LiveBetween(tb.rows, lo, hi) == LiveBetween(tb.rows, lo, tb.nextId)
  {
    if hi > tb.nextId && hi > lo { NoRowsAbove(tb, lo, hi - 1); }
  }

  // The number of live rows from lo up: all of them for lo = 0, a rank for lo = id + 1.
  function LiveFrom(tb: Table, lo: nat): nat {
    LiveBetween(tb.rows, lo, tb.nextId)
  }

  lemma OpDrift(tb: Table, op: Op, lo: nat)
    requires WellFormed(tb)
    ensures var d := LiveFrom(Apply(tb, op).0, lo) - LiveFrom(tb, lo);
      var made := if op.CreateOp? then 1 else 0;
      var lost := if Apply(tb, op).1.Gone? then 1 else 0;
      0 <= d + lost && d <= made && (lo == 0 ==> d == made - lost)
  {
    var now := Apply(tb, op).0;
    match op
    case CreateOp(title, due, skip, at) =>
      LiveBetweenUpdate(tb.rows, NewRow(tb.nextId + skip, title, due, at), lo, now.nextId);
      NoRowsAbove(tb, lo, now.nextId);
    case UpdateOp(id, p, at) =>
      if LiveIn(tb.rows, id) { LiveBetweenUpdate(tb.rows, Updated(tb.rows[id], p, at), lo, tb.nextId); }
    case DeleteOp(id, at) =>
      if LiveIn(tb.rows, id) { LiveBetweenUpdate(tb.rows, tb.rows[id].(deletedAt := Some(at)), lo, tb.nextId); }
    case GetOp(_) =>
  }

  // Conservation: live rows are only made by creates and only lost to deletes, and the number of
  // them above any id drifts by no more than that either way.
  lemma {:induction false} SerialDrift(tb: Table, log: seq<Entry>, lo: nat)
    requires WellFormed(tb) && SerialLog(tb, log)
    ensures var d := LiveFrom(Replay(tb, Ops(log)), lo) - LiveFrom(tb, lo);
      0 <= d + Deletes(log) && d <= Creates(log) && (lo == 0 ==> d == Creates(log) - Deletes(log))
  {
    if log == [] {
      assert Ops(log) == [];
    } else {
      var front := log[..|log| - 1];
      SerialPrefix(tb, log);
      SerialDrift(tb, front, lo);
      ReplayExtends(tb, Ops(front));
      OpDrift(Replay(tb, Ops(front)), log[|log| - 1].op, lo);
    }
  }

  // Between any two moments, whatever happens in between, a task moves down the listing by at most
  // the number of creates and up by at most the number of deletes.
  lemma RankDrift(s: State, es: seq<Event>, s': State, id: nat)
    requires Inv(s) && s' == Run(true, s, es)
    ensures s.log <= s'.log
    ensures Rank(s'.table, id) <= Rank(s.table, id) + Creates(Added(s, s'))
    ensures Rank(s'.table, id) >= Rank(s.table, id) - Deletes(Added(s, s'))
    ensures Count(s'.table) == Count(s.table) + Creates(Added(s, s')) - Deletes(Added(s, s'))
  {
    RunsAreSerial(s, es);
    SerialDrift(s.table, Added(s, s'), id + 1);
    SerialDrift(s.table, Added(s, s'), 0);
  }

  // ----- across a place of the listing -----

  // Of the given tasks, those within the first `bound` places of the listing.
  function Within(tb: Table, ids: set<nat>, bound: nat): set<nat> {
    set id | id in ids && Rank(tb, id) < bound
  }

  // Of the given tasks, those that are live and past the first `bound` places.
  function Past(tb: Table, ids: set<nat>, bound: nat): set<nat> {
    set id | id in ids && LiveIn(tb.rows, id) && Rank(tb, id) >= bound
  }

  ghost predicate AllLive(tb: Table, ids: set<nat>) {
    forall id :: id in ids ==> LiveIn(tb.rows, id)
  }

  ghost predicate AllKnown(tb: Table, ids: set<nat>) {
    forall id :: id in ids ==> id in tb.rows
  }

  lemma SameRankSameTask(tb: Table, x: nat, y: nat)
    requires WellFormed(tb) && LiveIn(tb.rows, x) && LiveIn(tb.rows, y) && Rank(tb, x) == Rank(tb, y)
    ensures x == y
  {
    ListingIsLiveRows(tb);
  }

  // A set that gains at most the tasks at one place of the listing gains at most one task.
  lemma GainsAtMostOne(tb: Table, a: set<nat>, b: set<nat>, place: int)
    requires WellFormed(tb)
    requires forall id :: id in b && id !in a ==> LiveIn(tb.rows, id) && Rank(tb, id) == place
    ensures |b| <= |a| + 1
  {
    var gained := b - a;
    if gained != {} {
      var x :| x in gained;
      forall y | y in gained ensures y == x { SameRankSameTask(tb, x, y); }
      assert gained == {x};
    }
    assert b <= a + gained;
    FewerIn(b, a + gained);
  }

  lemma FewerIn(a: set<nat>, b: set<nat>)
    requires a <= b
    ensures |a| <= |b|
  {
    assert b == a + (b - a);
  }

  // What one operation does to a place: only a create moves a task down, only a delete moves one
  // up, by one place.
  lemma OpShift(tb: Table, op: Op, id: nat)
    requires WellFormed(tb) && id in tb.rows
    ensures var d := Rank(Apply(tb, op).0, id) - Rank(tb, id);
      -(if Apply(tb, op).1.Gone? then 1 else 0) <= d <= if op.CreateOp? then 1 else 0
  {
    OpDrift(tb, op, id + 1);
  }

  lemma OpWithin(tb: Table, op: Op, ids: set<nat>, bound: nat)
    requires WellFormed(tb) && AllLive(tb, ids)
    ensures |Within(Apply(tb, op).0, ids, bound)| <=
      |Within(tb, ids, bound)| + if Apply(tb, op).1.Gone? then 1 else 0
  {
    var now := Apply(tb, op).0;
    forall id | id in ids
      ensures Rank(now, id) >= Rank(tb, id) - if Apply(tb, op).1.Gone? then 1 else 0
    {
      OpShift(tb, op, id);
    }
    if Apply(tb, op).1.Gone? {
      GainsAtMostOne(tb, Within(tb, ids, bound), Within(now, ids, bound), bound);
    } else {
      FewerIn(Within(now, ids, bound), Within(tb, ids, bound));
    }
  }

  lemma OpPast(tb: Table, op: Op, ids: set<nat>, bound: nat)
    requires WellFormed(tb) && AllKnown(tb, ids)
    ensures |Past(Apply(tb, op).0, ids, bound)| <= |Past(tb, ids, bound)| + if op.CreateOp? then 1 else 0
  {
    var now := Apply(tb, op).0;
    forall id | id in ids
      ensures Rank(now, id) <= Rank(tb, id) + if op.CreateOp? then 1 else 0
      ensures LiveIn(now.rows, id) ==> LiveIn(tb.rows, id)
    {
      OpShift(tb, op, id);
    }
    if op.CreateOp? {
      GainsAtMostOne(tb, Past(tb, ids, bound), Past(now, ids, bound), bound - 1);
    } else {
      FewerIn(Past(now, ids, bound), Past(tb, ids, bound));
    }
  }

  // Tasks that are live at the end of a serial history were live before its last operation, if
  // they existed then.
  lemma LiveBefore(tb: Table, op: Op, ids: set<nat>)
    requires WellFormed(tb) && AllLive(Apply(tb, op).0, ids) && AllKnown(tb, ids)
    ensures AllLive(tb, ids)
  {
  }

  lemma {:induction false} SerialWithin(tb: Table, log: seq<Entry>, ids: set<nat>, bound: nat, now: Table)
    requires WellFormed(tb) && SerialLog(tb, log) && now == Replay(tb, Ops(log))
    requires AllLive(tb, ids) && AllLive(now, ids)
    ensures |Within(now, ids, bound)| <= |Within(tb, ids, bound)| + Deletes(log)
  {
    if log == [] {
      assert Ops(log) == [];
    } else {
      var front, op := log[..|log| - 1], log[|log| - 1].op;
      SerialPrefix(tb, log);
      var prev := Replay(tb, Ops(front));
      ReplayExtends(tb, Ops(front));
      LiveBefore(prev, op, ids);
      SerialWithin(tb, front, ids, bound, prev);
      OpWithin(prev, op, ids, bound);
    }
  }

  lemma {:induction false} SerialPast(tb: Table, log: seq<Entry>, ids: set<nat>, bound: nat, now: Table)
    requires WellFormed(tb) && SerialLog(tb, log) && now == Replay(tb, Ops(log))
    requires AllKnown(tb, ids)
    ensures |Past(now, ids, bound)| <= |Past(tb, ids, bound)| + Creates(log)
  {
    if log == [] {
      assert Ops(log) == [];
    } else {
      var front, op := log[..|log| - 1], log[|log| - 1].op;
      SerialPrefix(tb, log);
      var prev := Replay(tb, Ops(front));
      ReplayExtends(tb, Ops(front));
      SerialPast(tb, front, ids, bound, prev);
      OpPast(prev, op, ids, bound);
    }
  }

  lemma {:induction false} CountsAdd(a: seq<Entry>, b: seq<Entry>)
    ensures Creates(a + b) == Creates(a) + Creates(b) && Deletes(a + b) == Deletes(a) + Deletes(b)
  {
    if b == [] {
      assert a + b == a;
    } else {
      assert (a + b)[..|a + b| - 1] == a + b[..|b| - 1];
      CountsAdd(a, b[..|b| - 1]);
    }
  }

  // ----- Count and Find are two statements -----

  // A list request counts, other clients do anything at all, then it reads the window that page and
  // limit give: it has at most as many items more than the total count predicts as tasks were
  // created in between, and at most as many fewer as were deleted; every item was live when it was
  // read. The offset may be any, also one that has wrapped.
  lemma TornList(s: State, es: seq<Event>, s': State, offset: int, limit: nat)
    requires Inv(s) && s' == Run(true, s, es)
    ensures s.log <= s'.log
    ensures |Find(s'.table, offset, limit)| - Predicted(offset, limit, Count(s.table)) <= Creates(Added(s, s'))
    ensures Predicted(offset, limit, Count(s.table)) - |Find(s'.table, offset, limit)| <= Deletes(Added(s, s'))
    ensures forall i :: 0 <= i < |Find(s'.table, offset, limit)| ==>
      var t := Find(s'.table, offset, limit)[i]; LiveIn(s'.table.rows, t.id) && s'.table.rows[t.id] == t
  {
    RunsAreSerial(s, es);
    SerialDrift(s.table, Added(s, s'), 0);
    FindLength(s'.table, offset, limit);
    FindItems(s'.table, offset, limit);
  }
}
