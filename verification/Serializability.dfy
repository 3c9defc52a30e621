// What the row lock buys: every interleaving of the concurrent machine behaves like a run of
// whole operations, one at a time, in the order of the log.

module Serializability {
  import opened Patch
  import opened Store

  // ----- invariants -----

  // The transaction's memory is what its own steps made of the row it read.
  ghost predicate MemoryOk(k: Client) {
    match k.phase
    case Loaded(seen) => k.req.UpdateReq? && seen.id == k.req.id && seen.deletedAt.None?
    case Mutated(seen, local) =>
      k.req.UpdateReq? && seen.id == k.req.id && seen.deletedAt.None? && local == ApplyPatch(k.req.patch, seen)
    case Saved(seen, local, now) =>
      k.req.UpdateReq? && seen.id == k.req.id && seen.deletedAt.None? && local == Updated(seen, k.req.patch, now)
    case Missed => k.req.UpdateReq?
    case _ => true
  }

  // A transaction holds its row, and the row is still the one it read.
  ghost predicate HoldsRow(s: State, c: nat)
    requires c < |s.clients|
  {
    var k := s.clients[c];
    InTransaction(k.phase) && k.req.UpdateReq? ==>
      && k.req.id in s.locks && s.locks[k.req.id] == c
      && LiveIn(s.table.rows, k.req.id) && s.table.rows[k.req.id] == k.phase.seen
  }

  ghost predicate LockOk(s: State, id: nat)
    requires id in s.locks
  {
    var c := s.locks[id];
    c < |s.clients| && InTransaction(s.clients[c].phase) && s.clients[c].req.UpdateReq? && s.clients[c].req.id == id
  }

  predicate Answered(p: Phase) {
    p.Replied? || p.Missed?
  }

  ghost predicate EntryOk(s: State, e: Entry) {
    && e.client < |s.clients|
    && Answers(s.clients[e.client].req, e.op)
    && (s.clients[e.client].phase == Replied(e.reply) || (s.clients[e.client].phase.Missed? && e.reply == NotFound))
  }

  ghost predicate InLog(log: seq<Entry>, c: nat) {
    exists k :: 0 <= k < |log| && log[k].client == c
  }

  // Each operation that has been answered is in the log once, with its answer.
  ghost predicate LogOk(s: State) {
    && (forall k :: 0 <= k < |s.log| ==> EntryOk(s, s.log[k]))
    && (forall j, k :: 0 <= j < k < |s.log| ==> s.log[j].client != s.log[k].client)
    && (forall c :: 0 <= c < |s.clients| && Answered(s.clients[c].phase) ==> InLog(s.log, c))
  }

  // Rows never leave the table, and keep their creation time.
  ghost predicate RowKnown(tb: Table, k: Client) {
    InTransaction(k.phase) ==>
      k.phase.seen.id in tb.rows && tb.rows[k.phase.seen.id].createdAt == k.phase.seen.createdAt
  }

  // Holds in both variants.
  ghost predicate Sound(s: State) {
    && WellFormed(s.table)
    && (forall c :: 0 <= c < |s.clients| ==> MemoryOk(s.clients[c]) && RowKnown(s.table, s.clients[c]))
    && LogOk(s)
  }

  ghost predicate Inv(s: State) {
    && Sound(s)
    && (forall c :: 0 <= c < |s.clients| ==> HoldsRow(s, c))
    && (forall id :: id in s.locks ==> LockOk(s, id))
  }

  // ----- one step -----

  // Every operation keeps the ids and creation times of all rows, and a deleted row as it is.
  ghost predicate Extends(a: Table, b: Table) {
    && a.nextId <= b.nextId
    && (forall id :: id in a.rows ==> id in b.rows && b.rows[id].createdAt == a.rows[id].createdAt)
    && (forall id :: id in b.rows && id !in a.rows ==> id >= a.nextId)
    && (forall id :: id in a.rows && a.rows[id].deletedAt.Some? ==> b.rows[id] == a.rows[id])
  }

  lemma ApplyKeepsWellFormed(tb: Table, op: Op)
    requires WellFormed(tb)
    ensures WellFormed(Apply(tb, op).0) && Extends(tb, Apply(tb, op).0)
  {
  }

  lemma LogExtended(s: State, s': State, e: Entry)
    requires LogOk(s)
    requires |s'.clients| == |s.clients| && s'.log == s.log + [e]
    requires e.client < |s.clients| && !Answered(s.clients[e.client].phase)
    requires s'.clients == s.clients[e.client := s'.clients[e.client]]
    requires s'.clients[e.client].req == s.clients[e.client].req
    requires EntryOk(s', e)
    ensures LogOk(s')
  {
    forall k | 0 <= k < |s'.log| ensures EntryOk(s', s'.log[k]) {
      if k < |s.log| { assert EntryOk(s, s.log[k]); }
    }
    forall c | 0 <= c < |s'.clients| && Answered(s'.clients[c].phase) ensures InLog(s'.log, c) {
      if c == e.client {
        assert s'.log[|s.log|].client == c;
      } else {
        var k :| 0 <= k < |s.log| && s.log[k].client == c;
        assert s'.log[k].client == c;
      }
    }
  }

  lemma LogUnchanged(s: State, s': State)
    requires LogOk(s) && s'.log == s.log && |s.clients| <= |s'.clients|
    requires forall c :: 0 <= c < |s'.clients| ==>
      if c < |s.clients| then
        s'.clients[c].req == s.clients[c].req &&
        (s'.clients[c].phase == s.clients[c].phase ||
         (!Answered(s.clients[c].phase) && !Answered(s'.clients[c].phase)) ||
         (s.clients[c].phase.Missed? && s'.clients[c].phase == Replied(NotFound)))
      else !Answered(s'.clients[c].phase)
    ensures LogOk(s')
  {
    forall k | 0 <= k < |s'.log| ensures EntryOk(s', s'.log[k]) {
      assert EntryOk(s, s.log[k]);
    }
    forall c | 0 <= c < |s'.clients| && Answered(s'.clients[c].phase) ensures InLog(s'.log, c) {
      assert InLog(s.log, c);
    }
  }

  lemma StepKeepsLog(locking: bool, s: State, e: Event)
    requires LogOk(s)
    ensures LogOk(Step(locking, s, e))
  {
    var s' := Step(locking, s, e);
    if Enabled(s, e) && |s'.log| > |s.log| {
      LogExtended(s, s', s'.log[|s.log|]);
    } else if Enabled(s, e) {
      LogUnchanged(s, s');
    }
  }

  lemma StepKeepsSound(locking: bool, s: State, e: Event)
    requires Sound(s)
    ensures Sound(Step(locking, s, e))
  {
    StepKeepsLog(locking, s, e);
    if Enabled(s, e) && e.Exec? {
      ApplyKeepsWellFormed(s.table, StatementOp(s.clients[e.c].req, e.skip, e.now));
    } else if Enabled(s, e) && e.Commit? {
      assert MemoryOk(s.clients[e.c]) && RowKnown(s.table, s.clients[e.c]);
    }
  }

  // A step of the transaction's own.
  lemma OwnStepKeepsHolder(s: State, e: Event)
    requires Inv(s) && Enabled(s, e) && !e.Begin?
    ensures HoldsRow(Step(true, s, e), e.c)
  {
    assert HoldsRow(s, e.c) && MemoryOk(s.clients[e.c]);
  }

  // A step of anyone else: it cannot touch a row that it has not locked.
  lemma OtherStepKeepsHolder(s: State, e: Event, c: nat)
    requires Inv(s) && Enabled(s, e) && c < |s.clients| && (e.Begin? || e.c != c)
    ensures HoldsRow(Step(true, s, e), c)
  {
    assert HoldsRow(s, c) && MemoryOk(s.clients[c]);
    if e.Commit? { assert HoldsRow(s, e.c) && MemoryOk(s.clients[e.c]); }
  }

  lemma StepKeepsHolder(s: State, e: Event, c: nat)
    requires Inv(s) && Enabled(s, e) && c < |Step(true, s, e).clients|
    ensures HoldsRow(Step(true, s, e), c)
  {
    if c < |s.clients| {
      if e.Begin? || e.c != c { OtherStepKeepsHolder(s, e, c); } else { OwnStepKeepsHolder(s, e); }
    }
  }

  lemma StepKeepsLock(s: State, e: Event, id: nat)
    requires Inv(s) && Enabled(s, e) && id in Step(true, s, e).locks
    ensures LockOk(Step(true, s, e), id)
  {
    if id in s.locks { assert LockOk(s, id); }
  }

  lemma StepKeepsInv(s: State, e: Event)
    requires Inv(s)
    ensures Inv(Step(true, s, e))
  {
    if Enabled(s, e) {
      var s' := Step(true, s, e);
      StepKeepsSound(true, s, e);
      forall c: nat | c < |s'.clients| ensures HoldsRow(s', c) { StepKeepsHolder(s, e, c); }
      forall id | id in s'.locks ensures LockOk(s', id) { StepKeepsLock(s, e, id); }
    }
  }

  // ----- one step is at most one operation -----

  // The commit point of an operation: the moment the table changes is the moment the log grows.
  lemma StepRefines(s: State, e: Event)
    requires Inv(s)
    ensures var s' := Step(true, s, e);
      (s'.log == s.log && s'.table == s.table) ||
      (|s'.log| == |s.log| + 1 && s'.log[..|s.log|] == s.log &&
       Apply(s.table, s'.log[|s.log|].op) == (s'.table, s'.log[|s.log|].reply))
  {
    if Enabled(s, e) && !e.Begin? {
      assert HoldsRow(s, e.c) && MemoryOk(s.clients[e.c]);
    }
  }

  // ----- whole runs -----

  ghost function Added(s: State, s': State): seq<Entry>
    requires s.log <= s'.log
  {
    s'.log[|s.log|..]
  }

  lemma SerialSnoc(tb: Table, log: seq<Entry>, e: Entry)
    requires SerialLog(tb, log) && e.reply == Apply(Replay(tb, Ops(log)), e.op).1
    ensures SerialLog(tb, log + [e])
    ensures Replay(tb, Ops(log + [e])) == Apply(Replay(tb, Ops(log)), e.op).0
  {
    var log' := log + [e];
    assert Ops(log') == Ops(log) + [e.op];
    assert Ops(log')[..|log|] == Ops(log);
    forall k | 0 <= k < |log'| ensures InTurn(tb, log', k) {
      if k < |log| {
        assert InTurn(tb, log, k);
        assert Ops(log')[..k] == Ops(log)[..k];
      }
    }
  }

  // The committed table of s' is what running the operations logged since s, one at a time, gives,
  // and each answer is the answer of that serial run.
  ghost predicate SerialFrom(s: State, s': State) {
    && s.log <= s'.log
    && s'.table == Replay(s.table, Ops(Added(s, s')))
    && SerialLog(s.table, Added(s, s'))
  }

  lemma StepExtendsSerial(s: State, m: State, s': State)
    requires SerialFrom(s, m)
    requires (s'.log == m.log && s'.table == m.table) ||
      (|s'.log| == |m.log| + 1 && s'.log[..|m.log|] == m.log &&
       Apply(m.table, s'.log[|m.log|].op) == (s'.table, s'.log[|m.log|].reply))
    ensures SerialFrom(s, s')
  {
    if s'.log != m.log {
      var last := s'.log[|m.log|];
      assert s'.log == m.log + [last];
      assert Added(s, s') == Added(s, m) + [last];
      SerialSnoc(s.table, Added(s, m), last);
    }
  }

  // Serializability of every interleaving of however many clients, from any invariant state.
  lemma {:induction false} RunsAreSerial(s: State, es: seq<Event>)
    requires Inv(s)
    ensures Inv(Run(true, s, es)) && SerialFrom(s, Run(true, s, es))
    decreases |es|
  {
    if es == [] {
      assert Ops(Added(s, s)) == [];
    } else {
      var front, e := es[..|es| - 1], es[|es| - 1];
      assert es == front + [e];
      RunsAreSerial(s, front);
      RunAppend(true, s, front, [e]);
      RunOne(true, Run(true, s, front), e);
      StepKeepsInv(Run(true, s, front), e);
      StepRefines(Run(true, s, front), e);
      StepExtendsSerial(s, Run(true, s, front), Run(true, s, es));
    }
  }

  lemma InitInv(tb: Table)
    requires WellFormed(tb)
    ensures Inv(Init(tb))
  {
  }

  ghost predicate AnsweredOnce(s: State, c: nat)
    requires c < |s.clients| && s.clients[c].phase.Replied?
  {
    exists k :: 0 <= k < |s.log| && s.log[k].client == c && s.log[k].reply == s.clients[c].phase.reply &&
                Answers(s.clients[c].req, s.log[k].op) &&
                forall j :: 0 <= j < |s.log| && s.log[j].client == c ==> j == k
  }

  lemma RepliedIsInLog(s: State, c: nat)
    requires LogOk(s) && c < |s.clients| && s.clients[c].phase.Replied?
    ensures AnsweredOnce(s, c)
  {
    assert InLog(s.log, c);
    var k :| 0 <= k < |s.log| && s.log[k].client == c;
    assert EntryOk(s, s.log[k]);
  }

  // Indistinguishable from a serial run of the logged operations: the table is its table, every
  // client that has been answered is in the log exactly once, with the answer it got and an
  // operation that does what it asked for, and a client that failed is not in it.
  ghost predicate AsIfSerial(tb: Table, s: State) {
    && s.table == Replay(tb, Ops(s.log)) && SerialLog(tb, s.log)
    && (forall c :: 0 <= c < |s.clients| && s.clients[c].phase.Replied? ==> AnsweredOnce(s, c))
    && (forall c :: 0 <= c < |s.clients| && s.clients[c].phase.Failed? ==> !InLog(s.log, c))
  }

  lemma LooksSerial(tb: Table, s: State)
    requires LogOk(s) && s.table == Replay(tb, Ops(s.log)) && SerialLog(tb, s.log)
    ensures AsIfSerial(tb, s)
  {
    forall c | 0 <= c < |s.clients| && s.clients[c].phase.Replied? ensures AnsweredOnce(s, c) {
      RepliedIsInLog(s, c);
    }
    forall c | 0 <= c < |s.clients| && s.clients[c].phase.Failed? ensures !InLog(s.log, c) {
      assert forall k :: 0 <= k < |s.log| ==> EntryOk(s, s.log[k]);
    }
  }

  // The same, from the start: any table, no clients yet.
  lemma Serializable(tb: Table, es: seq<Event>, s: State)
    requires WellFormed(tb) && s == Run(true, Init(tb), es)
    ensures AsIfSerial(tb, s)
  {
    InitInv(tb);
    RunsAreSerial(Init(tb), es);
    assert Added(Init(tb), s) == s.log;
    LooksSerial(tb, s);
  }

  // Clients that have begun keep their number and their request, and an answer is final.
  lemma {:induction false} RunKeepsClients(locking: bool, s: State, es: seq<Event>)
    ensures var s' := Run(locking, s, es);
      && |s.clients| <= |s'.clients|
      && (forall c :: 0 <= c < |s.clients| ==>
            s'.clients[c].req == s.clients[c].req &&
            (Finished(s.clients[c].phase) ==> s'.clients[c] == s.clients[c]))
    decreases |es|
  {
    if es != [] {
      RunKeepsClients(locking, Step(locking, s, es[0]), es[1..]);
    }
  }

  // The serial order respects real time: if one operation was answered before another was even
  // issued, it comes first in the log.
  lemma SerialOrderIsRealTime(tb: Table, es: seq<Event>, fs: seq<Event>, s1: State, s2: State, j: nat, k: nat)
    requires WellFormed(tb) && s1 == Run(true, Init(tb), es) && s2 == Run(true, Init(tb), es + fs)
    requires j < |s2.log| && k < |s2.log|
    requires s2.log[j].client < |s1.clients| && Answered(s1.clients[s2.log[j].client].phase)
    requires s2.log[k].client >= |s1.clients|
    ensures j < k
  {
    InitInv(tb);
    RunsAreSerial(Init(tb), es);
    RunAppend(true, Init(tb), es, fs);
    RunsAreSerial(s1, fs);
    assert LogOk(s1) && LogOk(s2);
    var c := s2.log[j].client;
    assert InLog(s1.log, c);
    var i :| 0 <= i < |s1.log| && s1.log[i].client == c;
    assert s2.log[i].client == c;
    assert forall n :: 0 <= n < |s1.log| ==> EntryOk(s1, s1.log[n]);
  }
}
