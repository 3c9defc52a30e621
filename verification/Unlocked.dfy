// The variant without row locks, in which applyRowLock adds nothing and a read protects nothing
// until the commit: for each guarantee, exactly which runs still have it, and two runs that do not.

module Unlocked {
  import opened Prelude
  import opened Patch
  import opened Store
  import opened Serializability
  import opened History

  lemma {:induction false} RunKeepsSound(locking: bool, s: State, es: seq<Event>)
    requires Sound(s)
    ensures Sound(Run(locking, s, es))
    decreases |es|
  {
    if es != [] {
      StepKeepsSound(locking, s, es[0]);
      RunKeepsSound(locking, Step(locking, s, es[0]), es[1..]);
    }
  }

  // ----- one commit -----

  // At its commit point the row is still live, deleted by nobody since the read.
  ghost predicate StillLive(s: State, c: nat)
    requires Enabled(s, Commit(c))
  {
    LiveIn(s.table.rows, s.clients[c].req.id)
  }

  // Every field the patch leaves alone is still as the transaction read it.
  ghost predicate StillAgrees(s: State, c: nat)
    requires Enabled(s, Commit(c))
  {
    var k := s.clients[c];
    k.req.id in s.table.rows && AgreeOutside(k.req.patch, s.table.rows[k.req.id], k.phase.seen)
  }

  ghost predicate Clean(s: State, c: nat)
    requires Enabled(s, Commit(c))
  {
    StillLive(s, c) && StillAgrees(s, c)
  }

  // With or without the lock: a clean commit is the whole update, run at the commit point, in table
  // and answer; a commit that is not clean leaves a table that update would not leave.
  lemma CommitSerialExactly(s: State, locking: bool, c: nat)
    requires Sound(s) && Enabled(s, Commit(c))
    ensures var k := s.clients[c];
      var op, s' := UpdateOp(k.req.id, k.req.patch, k.phase.now), Step(locking, s, Commit(c));
      && s'.log == s.log + [Entry(c, op, Row(k.phase.local))]
      && (Clean(s, c) ==> Apply(s.table, op) == (s'.table, Row(k.phase.local)))
      && (!Clean(s, c) ==> Apply(s.table, op).0 != s'.table)
  {
    var k := s.clients[c];
    var id := k.req.id;
    assert MemoryOk(k) && RowKnown(s.table, k);
    var row, seen := s.table.rows[id], k.phase.seen;
    var after := Step(locking, s, Commit(c)).table;
    assert after.rows == s.table.rows[id := Updated(seen, k.req.patch, k.phase.now)];
    assert after.rows[id] == Updated(seen, k.req.patch, k.phase.now);
    if LiveIn(s.table.rows, id) {
      PatchDeterminedOutside(k.req.patch, row, seen);
      var serial := Apply(s.table, UpdateOp(id, k.req.patch, k.phase.now)).0;
      assert serial.rows[id] == Updated(row, k.req.patch, k.phase.now);
      if AgreeOutside(k.req.patch, row, seen) {
        assert after == serial;
      } else {
        var p, now := k.req.patch, k.phase.now;
        assert Updated(row, p, now).(updatedAt := 0) == ApplyPatch(p, row).(updatedAt := 0);
        assert Updated(seen, p, now).(updatedAt := 0) == ApplyPatch(p, seen).(updatedAt := 0);
      }
    }
  }

  // Every other step is a whole operation or no operation, locks or not.
  lemma OtherStepRefines(s: State, locking: bool, e: Event)
    requires Sound(s) && !(e.Commit? && Enabled(s, e))
    ensures var s' := Step(locking, s, e);
      (s'.log == s.log && s'.table == s.table) ||
      (|s'.log| == |s.log| + 1 && s'.log[..|s.log|] == s.log &&
       Apply(s.table, s'.log[|s.log|].op) == (s'.table, s'.log[|s.log|].reply))
  {
    if Enabled(s, e) && !e.Begin? { assert MemoryOk(s.clients[e.c]); }
  }

  // ----- the guarantees -----

  datatype Guarantee = InCommitOrder | NoFieldLost | NoneRevived

  // What the guarantee says of a state reached from s: table and answers are those of the
  // operations logged since, run one at a time in the order of their commits; every column has the
  // value last mentioned; exactly the created and not deleted tasks are live.
  ghost predicate Holds(g: Guarantee, s: State, m: State)
    requires s.log <= m.log
  {
    match g
    case InCommitOrder => SerialFrom(s, m)
    case NoFieldLost => AllFieldsKept(s.table, Added(s, m), m.table)
    case NoneRevived => AllLiveAsLogged(s.table, Added(s, m), m.table)
  }

  // What a commit has to meet.
  ghost predicate Allows(g: Guarantee, s: State, c: nat)
    requires Enabled(s, Commit(c))
  {
    match g
    case InCommitOrder => Clean(s, c)
    case NoFieldLost => StillAgrees(s, c)
    case NoneRevived => StillLive(s, c)
  }

  lemma HoldsAtFirst(g: Guarantee, s: State)
    ensures Holds(g, s, s)
  {
    assert Ops(Added(s, s)) == [];
  }

  lemma AddedOne(s: State, m: State, s': State, e: Entry)
    requires s.log <= m.log && s'.log == m.log + [e]
    ensures Added(s, s') == Added(s, m) + [e] && Added(s, s')[..|Added(s, s')| - 1] == Added(s, m)
  {
  }

  lemma ReplayOneMore(s: State, m: State, s': State, e: Entry)
    requires s.log <= m.log && s'.log == m.log + [e]
    ensures Replay(s.table, Ops(Added(s, s'))) == Apply(Replay(s.table, Ops(Added(s, m))), e.op).0
  {
    AddedOne(s, m, s', e);
    assert Ops(Added(s, s')) == Ops(Added(s, m)) + [e.op];
  }

  lemma CommitKeepsOrder(s: State, m: State, locking: bool, c: nat)
    requires SerialFrom(s, m) && Sound(m) && Enabled(m, Commit(c))
    ensures SerialFrom(s, Step(locking, m, Commit(c))) <==> Clean(m, c)
  {
    var s' := Step(locking, m, Commit(c));
    CommitSerialExactly(m, locking, c);
    ReplayOneMore(s, m, s', s'.log[|m.log|]);
    if Clean(m, c) { StepExtendsSerial(s, m, s'); }
  }

  // The entry of an update that read `seen`, whatever the row is by now.
  ghost predicate Writes(e: Entry, seen: Task, prev: Table, next: Table) {
    && e.op.UpdateOp? && seen.id == e.op.id && seen.deletedAt.None?
    && e.op.id in prev.rows && prev.rows[e.op.id].createdAt == seen.createdAt
    && e.reply == Row(Updated(seen, e.op.patch, e.op.now))
    && next == prev.(rows := prev.rows[e.op.id := e.reply.task])
  }

  lemma CommitWrites(m: State, locking: bool, c: nat) returns (e: Entry)
    requires Sound(m) && Enabled(m, Commit(c))
    ensures var s' := Step(locking, m, Commit(c));
      s'.log == m.log + [e] && Writes(e, m.clients[c].phase.seen, m.table, s'.table)
    ensures e.op.id == m.clients[c].req.id && e.op.patch == m.clients[c].req.patch
  {
    var k := m.clients[c];
    assert MemoryOk(k) && RowKnown(m.table, k);
    e := Entry(c, UpdateOp(k.req.id, k.req.patch, k.phase.now), Row(k.phase.local));
  }

  lemma WrittenRow(tb: Table, log: seq<Entry>, e: Entry, seen: Task, row: Task)
    requires e.op.UpdateOp? && row.createdAt == seen.createdAt && seen.id == e.op.id
    requires e.reply == Row(Updated(seen, e.op.patch, e.op.now))
    requires FieldsAreLastMentions(tb, log, e.op.id, row)
    ensures FieldsAreLastMentions(tb, log + [e], e.op.id, e.reply.task) <==> AgreeOutside(e.op.patch, row, seen)
  {
    MentionsSnoc(log, e, e.op.id);
  }

  lemma OtherRow(tb: Table, log: seq<Entry>, e: Entry, id: nat, row: Task)
    requires !Wrote(e, id) && FieldsAreLastMentions(tb, log, id, row)
    ensures FieldsAreLastMentions(tb, log + [e], id, row)
  {
    MentionsSnoc(log, e, id);
  }

  lemma WriteKeepsFields(tb: Table, log: seq<Entry>, e: Entry, seen: Task, prev: Table, next: Table)
    requires AllFieldsKept(tb, log, prev) && Writes(e, seen, prev, next)
    ensures AllFieldsKept(tb, log + [e], next) <==> AgreeOutside(e.op.patch, prev.rows[e.op.id], seen)
  {
    WrittenRow(tb, log, e, seen, prev.rows[e.op.id]);
    assert FieldsAreLastMentions(tb, log + [e], e.op.id, next.rows[e.op.id]) <==>
      AgreeOutside(e.op.patch, prev.rows[e.op.id], seen);
    forall id | id in next.rows && id != e.op.id ensures FieldsAreLastMentions(tb, log + [e], id, next.rows[id]) {
      OtherRow(tb, log, e, id, prev.rows[id]);
    }
  }

  lemma WriteKeepsDead(tb: Table, log: seq<Entry>, e: Entry, seen: Task, prev: Table, next: Table)
    requires AllLiveAsLogged(tb, log, prev) && Writes(e, seen, prev, next)
    ensures AllLiveAsLogged(tb, log + [e], next) <==> LiveIn(prev.rows, e.op.id)
  {
    forall id ensures LiveAsLogged(tb, log + [e], id, next) <==> (id == e.op.id ==> LiveIn(prev.rows, id)) {
      assert LiveAsLogged(tb, log, id, prev);
      HistorySnoc(log, e, id);
    }
    assert LiveAsLogged(tb, log + [e], e.op.id, next) <==> LiveIn(prev.rows, e.op.id);
  }

  // A commit keeps a guarantee if and only if it meets what the guarantee asks of commits.
  lemma CommitKeeps(g: Guarantee, s: State, m: State, locking: bool, c: nat)
    requires s.log <= m.log && Holds(g, s, m) && Sound(m) && Enabled(m, Commit(c))
    ensures var s' := Step(locking, m, Commit(c)); s.log <= s'.log && (Holds(g, s, s') <==> Allows(g, m, c))
  {
    var e := CommitWrites(m, locking, c);
    AddedOne(s, m, Step(locking, m, Commit(c)), e);
    var next := Step(locking, m, Commit(c)).table;
    match g
    case InCommitOrder => CommitKeepsOrder(s, m, locking, c);
    case NoFieldLost => WriteKeepsFields(s.table, Added(s, m), e, m.clients[c].phase.seen, m.table, next);
    case NoneRevived => WriteKeepsDead(s.table, Added(s, m), e, m.clients[c].phase.seen, m.table, next);
  }

  // One whole operation keeps every guarantee.
  lemma OperationKeeps(g: Guarantee, s: State, m: State, s': State, e: Entry)
    requires s.log <= m.log && Holds(g, s, m) && WellFormed(m.table)
    requires s'.log == m.log + [e] && Apply(m.table, e.op) == (s'.table, e.reply)
    ensures Holds(g, s, s')
  {
    AddedOne(s, m, s', e);
    match g
    case InCommitOrder => StepExtendsSerial(s, m, s');
    case NoFieldLost =>
      forall id | id in s'.table.rows
        ensures FieldsAreLastMentions(s.table, Added(s, s'), id, s'.table.rows[id])
      {
        FieldsSnoc(s.table, Added(s, s'), m.table, s'.table, id);
      }
    case NoneRevived =>
      forall id ensures LiveAsLogged(s.table, Added(s, s'), id, s'.table) {
        LivenessSnoc(s.table, Added(s, m), e, id, m.table, s'.table);
      }
  }

  lemma OtherStepKeeps(g: Guarantee, s: State, m: State, locking: bool, e: Event)
    requires s.log <= m.log && Holds(g, s, m) && Sound(m) && !(e.Commit? && Enabled(m, e))
    ensures s.log <= Step(locking, m, e).log && Holds(g, s, Step(locking, m, e))
  {
    var s' := Step(locking, m, e);
    OtherStepRefines(m, locking, e);
    if s'.log == m.log {
      assert Added(s, s') == Added(s, m);
    } else {
      assert s'.log == m.log + [s'.log[|m.log|]];
      OperationKeeps(g, s, m, s', s'.log[|m.log|]);
    }
  }

  // ----- whole runs -----

  // The state after n events.
  function AfterEvents(locking: bool, s: State, es: seq<Event>, n: nat): State
    requires n <= |es|
  {
    Run(locking, s, es[..n])
  }

  // Every commit of the run meets what the guarantee asks.
  ghost predicate AllAllowed(g: Guarantee, locking: bool, s: State, es: seq<Event>) {
    forall n :: 0 <= n < |es| ==>
      var m := AfterEvents(locking, s, es, n);
      es[n].Commit? && Enabled(m, es[n]) ==> Allows(g, m, es[n].c)
  }

  ghost predicate HoldsAt(g: Guarantee, locking: bool, s: State, es: seq<Event>, n: nat)
    requires n <= |es|
  {
    s.log <= AfterEvents(locking, s, es, n).log && Holds(g, s, AfterEvents(locking, s, es, n))
  }

  // The guarantee holds at every moment of the run.
  ghost predicate Always(g: Guarantee, locking: bool, s: State, es: seq<Event>) {
    forall n :: 0 <= n <= |es| ==> HoldsAt(g, locking, s, es, n)
  }

  lemma OneEventMore(locking: bool, s: State, es: seq<Event>, n: nat)
    requires n < |es|
    ensures AfterEvents(locking, s, es, n + 1) == Step(locking, AfterEvents(locking, s, es, n), es[n])
  {
    assert es[..n + 1] == es[..n] + [es[n]];
    RunAppend(locking, s, es[..n], [es[n]]);
    RunOne(locking, AfterEvents(locking, s, es, n), es[n]);
  }

  // One event more keeps the guarantee, unless it is a commit that must not have happened.
  lemma EventKeeps(g: Guarantee, locking: bool, s: State, es: seq<Event>, n: nat)
    requires Sound(s) && n < |es| && HoldsAt(g, locking, s, es, n)
    ensures var m := AfterEvents(locking, s, es, n);
      HoldsAt(g, locking, s, es, n + 1) <==> (es[n].Commit? && Enabled(m, es[n]) ==> Allows(g, m, es[n].c))
  {
    OneEventMore(locking, s, es, n);
    RunKeepsSound(locking, s, es[..n]);
    var m := AfterEvents(locking, s, es, n);
    if es[n].Commit? && Enabled(m, es[n]) {
      CommitKeeps(g, s, m, locking, es[n].c);
    } else {
      OtherStepKeeps(g, s, m, locking, es[n]);
    }
  }

  lemma {:induction false} HoldsUpTo(g: Guarantee, locking: bool, s: State, es: seq<Event>, n: nat)
    requires Sound(s) && n <= |es| && AllAllowed(g, locking, s, es)
    ensures HoldsAt(g, locking, s, es, n)
  {
    if n == 0 {
      HoldsAtFirst(g, s);
    } else {
      HoldsUpTo(g, locking, s, es, n - 1);
      EventKeeps(g, locking, s, es, n - 1);
    }
  }

  // With or without locks, from any sound state, for each guarantee: it holds at every moment of a
  // run if and only if every commit of the run meets its condition.
  lemma HoldsExactly(g: Guarantee, locking: bool, s: State, es: seq<Event>)
    requires Sound(s)
    ensures Always(g, locking, s, es) <==> AllAllowed(g, locking, s, es)
  {
    if AllAllowed(g, locking, s, es) {
      forall n | 0 <= n <= |es| ensures HoldsAt(g, locking, s, es, n) { HoldsUpTo(g, locking, s, es, n); }
    }
    if Always(g, locking, s, es) {
      forall n | 0 <= n < |es| && es[n].Commit? && Enabled(AfterEvents(locking, s, es, n), es[n])
        ensures Allows(g, AfterEvents(locking, s, es, n), es[n].c)
      {
        assert HoldsAt(g, locking, s, es, n) && HoldsAt(g, locking, s, es, n + 1);
        EventKeeps(g, locking, s, es, n);
      }
    }
  }

  // So a run is serial in commit order exactly when it loses no field and revives no task: nothing
  // else can go wrong without the lock.
  lemma SerialMeansNothingLost(locking: bool, s: State, es: seq<Event>)
    requires Sound(s)
    ensures Always(InCommitOrder, locking, s, es) <==>
      Always(NoFieldLost, locking, s, es) && Always(NoneRevived, locking, s, es)
  {
    HoldsExactly(InCommitOrder, locking, s, es);
    HoldsExactly(NoFieldLost, locking, s, es);
    HoldsExactly(NoneRevived, locking, s, es);
  }

  // What the lock is for: with it every commit is clean.
  lemma LockMakesClean(s: State, es: seq<Event>)
    requires Inv(s)
    ensures AllAllowed(InCommitOrder, true, s, es)
  {
    forall n | 0 <= n < |es| && es[n].Commit? && Enabled(AfterEvents(true, s, es, n), es[n])
      ensures Clean(AfterEvents(true, s, es, n), es[n].c)
    {
      RunsAreSerial(s, es[..n]);
      assert HoldsRow(AfterEvents(true, s, es, n), es[n].c);
    }
  }

  // A run whose commits are clean has everything the locked runs have: it looks serial to all its
  // clients, loses no field and brings no deleted task back.
  lemma CleanRunIsSafe(locking: bool, tb: Table, es: seq<Event>, s: State)
    requires WellFormed(tb) && s == Run(locking, Init(tb), es) && AllAllowed(InCommitOrder, locking, Init(tb), es)
    ensures AsIfSerial(tb, s) && AllFieldsKept(tb, s.log, s.table) && AllLiveAsLogged(tb, s.log, s.table)
  {
    InitInv(tb);
    assert es[..|es|] == es;
    RunKeepsSound(locking, Init(tb), es);
    HoldsUpTo(InCommitOrder, locking, Init(tb), es, |es|);
    HoldsUpTo(NoFieldLost, locking, Init(tb), es, |es|);
    HoldsUpTo(NoneRevived, locking, Init(tb), es, |es|);
    assert Added(Init(tb), s) == s.log;
    LooksSerial(tb, s);
  }

  // ----- two runs that the lock rules out, if a read protects nothing until the commit -----

  const ROW := Task(1, "draft", false, None, 0, 0, None)
  const RENAME := UpdateRequest(Some("final"), None, ZERO)
  const TICK := UpdateRequest(None, Some(true), ZERO)

  // One row, two clients, no locks.
  function Two(row: Task, r0: Request, p0: Phase, r1: Request, p1: Phase, log: seq<Entry>): State {
    State(Table(map[1 := row], 2), map[], [Client(r0, p0), Client(r1, p1)], log)
  }

  lemma CommitTwo(row: Task, r0: Request, p0: Phase, r1: Request, p1: Phase, log: seq<Entry>, c: nat)
    requires c < 2 && (if c == 0 then p0 else p1).Saved? && (if c == 0 then r0 else r1).UpdateReq?
    requires (if c == 0 then p0 else p1).local.id == 1
    ensures var p := if c == 0 then p0 else p1;
      var r := if c == 0 then r0 else r1;
      Step(false, Two(row, r0, p0, r1, p1, log), Commit(c)) ==
      Two(p.local, r0, if c == 0 then Replied(Row(p.local)) else p0, r1, if c == 0 then p1 else Replied(Row(p.local)),
          log + [Entry(c, UpdateOp(r.id, r.patch, p.now), Row(p.local))])
  {
    var p := if c == 0 then p0 else p1;
    assert map[1 := row][1 := p.local] == map[1 := p.local];
    var s' := Step(false, Two(row, r0, p0, r1, p1, log), Commit(c));
    assert s'.locks == map[];
  }

  lemma RunPair(locking: bool, s: State, e: Event, f: Event, es: seq<Event>)
    ensures Run(locking, s, [e, f] + es) == Run(locking, Step(locking, Step(locking, s, e), f), es)
  {
    assert ([e, f] + es)[1..] == [f] + es && ([f] + es)[1..] == es;
  }

  lemma BothBegin(r0: Request, r1: Request, es: seq<Event>)
    ensures Run(false, Init(Table(map[1 := ROW], 2)), [Begin(r0), Begin(r1)] + es) ==
            Run(false, Two(ROW, r0, Pending, r1, Pending, []), es)
  {
    var s0 := Init(Table(map[1 := ROW], 2));
    RunPair(false, s0, Begin(r0), Begin(r1), es);
    assert Step(false, Step(false, s0, Begin(r0)), Begin(r1)) == Two(ROW, r0, Pending, r1, Pending, []);
  }

  // Two transactions that both read before either commits.
  const RACE_REST :=
    [Load(0), Load(1)] + ([Mutate(0), Mutate(1)] + ([Save(0, 5), Save(1, 6)] + ([Commit(0), Commit(1)] + [])))

  // Two patches of disjoint fields, both answered with success; the first one's title is lost.
  lemma UpdateIsLost()
    ensures var r0, r1 := UpdateReq(1, RENAME), UpdateReq(1, TICK);
      var t0, t1 := Task(1, "final", false, None, 0, 5, None), Task(1, "draft", true, None, 0, 6, None);
      var s := Run(false, Init(Table(map[1 := ROW], 2)), [Begin(r0), Begin(r1)] + RACE_REST);
      s.clients == [Client(r0, Replied(Row(t0))), Client(r1, Replied(Row(t1)))] && s.table == Table(map[1 := t1], 2)
  {
    var r0, r1 := UpdateReq(1, RENAME), UpdateReq(1, TICK);
    var t0, t1 := Task(1, "final", false, None, 0, 5, None), Task(1, "draft", true, None, 0, 6, None);
    BothBegin(r0, r1, RACE_REST);
    RunPair(false, Two(ROW, r0, Pending, r1, Pending, []), Load(0), Load(1),
            [Mutate(0), Mutate(1)] + ([Save(0, 5), Save(1, 6)] + ([Commit(0), Commit(1)] + [])));
    assert Step(false, Step(false, Two(ROW, r0, Pending, r1, Pending, []), Load(0)), Load(1)) ==
           Two(ROW, r0, Loaded(ROW), r1, Loaded(ROW), []);
    RunPair(false, Two(ROW, r0, Loaded(ROW), r1, Loaded(ROW), []), Mutate(0), Mutate(1),
            [Save(0, 5), Save(1, 6)] + ([Commit(0), Commit(1)] + []));
    var m0, m1 := ApplyPatch(RENAME, ROW), ApplyPatch(TICK, ROW);
    assert Step(false, Step(false, Two(ROW, r0, Loaded(ROW), r1, Loaded(ROW), []), Mutate(0)), Mutate(1)) ==
           Two(ROW, r0, Mutated(ROW, m0), r1, Mutated(ROW, m1), []);
    RunPair(false, Two(ROW, r0, Mutated(ROW, m0), r1, Mutated(ROW, m1), []), Save(0, 5), Save(1, 6),
            [Commit(0), Commit(1)] + []);
    assert Step(false, Step(false, Two(ROW, r0, Mutated(ROW, m0), r1, Mutated(ROW, m1), []), Save(0, 5)), Save(1, 6)) ==
           Two(ROW, r0, Saved(ROW, t0, 5), r1, Saved(ROW, t1, 6), []);
    RunPair(false, Two(ROW, r0, Saved(ROW, t0, 5), r1, Saved(ROW, t1, 6), []), Commit(0), Commit(1), []);
    CommitTwo(ROW, r0, Saved(ROW, t0, 5), r1, Saved(ROW, t1, 6), [], 0);
    CommitTwo(t0, r0, Replied(Row(t0)), r1, Saved(ROW, t1, 6), [] + [Entry(0, UpdateOp(1, RENAME, 5), Row(t0))], 1);
  }

  // A transaction that reads the row before it is deleted and saves it afterwards.
  const DELETE_REST := [Load(0), Exec(1, 0, 5)] + ([Mutate(0), Save(0, 6)] + [Commit(0)])

  // The delete is answered with success, and the row is live again.
  lemma DeletedRowReturns()
    ensures var r0, r1 := UpdateReq(1, TICK), DeleteReq(1);
      var t := Task(1, "draft", true, None, 0, 6, None);
      var s := Run(false, Init(Table(map[1 := ROW], 2)), [Begin(r0), Begin(r1)] + DELETE_REST);
      s.clients == [Client(r0, Replied(Row(t))), Client(r1, Replied(Gone))] && s.table == Table(map[1 := t], 2)
  {
    var r0, r1 := UpdateReq(1, TICK), DeleteReq(1);
    var t, gone := Task(1, "draft", true, None, 0, 6, None), ROW.(deletedAt := Some(5));
    var log := [Entry(1, DeleteOp(1, 5), Gone)];
    BothBegin(r0, r1, DELETE_REST);
    assert map[1 := ROW][1 := gone] == map[1 := gone];
    RunPair(false, Two(ROW, r0, Pending, r1, Pending, []), Load(0), Exec(1, 0, 5),
            [Mutate(0), Save(0, 6)] + [Commit(0)]);
    assert Step(false, Step(false, Two(ROW, r0, Pending, r1, Pending, []), Load(0)), Exec(1, 0, 5)) ==
           Two(gone, r0, Loaded(ROW), r1, Replied(Gone), log);
    RunPair(false, Two(gone, r0, Loaded(ROW), r1, Replied(Gone), log), Mutate(0), Save(0, 6), [Commit(0)]);
    assert Step(false, Step(false, Two(gone, r0, Loaded(ROW), r1, Replied(Gone), log), Mutate(0)), Save(0, 6)) ==
           Two(gone, r0, Saved(ROW, t, 6), r1, Replied(Gone), log);
    RunOne(false, Two(gone, r0, Saved(ROW, t, 6), r1, Replied(Gone), log), Commit(0));
    CommitTwo(gone, r0, Saved(ROW, t, 6), r1, Replied(Gone), log, 0);
  }
}
