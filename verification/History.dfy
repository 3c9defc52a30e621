// Consequences of serializability that a user of the API can see: no patched field is lost, no
// deleted task comes back, no id is handed out twice.

module History {
  import opened Prelude
  import opened Patch
  import opened Store
  import opened Serializability

  lemma {:induction false} ReplaySplit(tb: Table, a: seq<Op>, b: seq<Op>)
    ensures Replay(tb, a + b) == Replay(Replay(tb, a), b)
  {
    if b == [] {
      assert a + b == a;
    } else {
      assert (a + b)[..|a + b| - 1] == a + b[..|b| - 1];
      ReplaySplit(tb, a, b[..|b| - 1]);
    }
  }

  lemma {:induction false} ReplayExtends(tb: Table, ops: seq<Op>)
    requires WellFormed(tb)
    ensures WellFormed(Replay(tb, ops)) && Extends(tb, Replay(tb, ops))
  {
    if ops != [] {
      ReplayExtends(tb, ops[..|ops| - 1]);
      ApplyKeepsWellFormed(Replay(tb, ops[..|ops| - 1]), ops[|ops| - 1]);
    }
  }

  // ----- no resurrection, no id reuse -----

  // Between any two moments of a run no row disappears, a soft-deleted row stays exactly as it
  // was deleted even if an update of it was in flight, and an id that was passed over stays unused.
  lemma NoResurrection(tb: Table, es: seq<Event>, fs: seq<Event>, s1: State, s2: State)
    requires WellFormed(tb) && s1 == Run(true, Init(tb), es) && s2 == Run(true, Init(tb), es + fs)
    ensures Extends(s1.table, s2.table)
    ensures forall id :: id in s1.table.rows && !LiveIn(s1.table.rows, id) ==> !LiveIn(s2.table.rows, id)
    ensures forall id :: id < s1.table.nextId && id !in s1.table.rows ==> id !in s2.table.rows
  {
    InitInv(tb);
    RunsAreSerial(Init(tb), es);
    RunAppend(true, Init(tb), es, fs);
    RunsAreSerial(s1, fs);
    ReplayExtends(s1.table, Ops(Added(s1, s2)));
  }

  lemma CreatedId(tb: Table, log: seq<Entry>, j: nat)
    requires SerialLog(tb, log) && j < |log| && log[j].op.CreateOp?
    ensures log[j].reply.Row? && log[j].reply.task.id == Replay(tb, Ops(log)[..j]).nextId + log[j].op.skip
    ensures Replay(tb, Ops(log)[..j + 1]).nextId == log[j].reply.task.id + 1
  {
    assert InTurn(tb, log, j);
    assert Ops(log)[..j + 1][..j] == Ops(log)[..j];
  }

  // Ids are handed out in strictly increasing order, and never one that the table has used up.
  lemma IdsIncrease(tb: Table, log: seq<Entry>, j: nat, k: nat)
    requires WellFormed(tb) && SerialLog(tb, log)
    requires j < k < |log| && log[j].op.CreateOp? && log[k].op.CreateOp?
    ensures log[j].reply.Row? && log[k].reply.Row?
    ensures tb.nextId <= log[j].reply.task.id < log[k].reply.task.id
  {
    CreatedId(tb, log, j);
    CreatedId(tb, log, k);
    ReplayExtends(tb, Ops(log)[..j]);
    ReplayExtends(tb, Ops(log)[..j + 1]);
    var m := Replay(tb, Ops(log)[..j + 1]);
    assert Ops(log)[..k] == Ops(log)[..j + 1] + Ops(log)[j + 1..k];
    ReplaySplit(tb, Ops(log)[..j + 1], Ops(log)[j + 1..k]);
    ReplayExtends(m, Ops(log)[j + 1..k]);
  }

  // ----- no lost field -----

  // The value an operation gives to a field, if it mentions the field.
  function TitleIn(op: Op): Option<string> {
    match op
    case CreateOp(title, _, _, _) => Some(title)
    case UpdateOp(_, patch, _) => patch.title
    case _ => None
  }

  function DoneIn(op: Op): Option<bool> {
    match op
    case CreateOp(_, _, _, _) => Some(false)
    case UpdateOp(_, patch, _) => patch.done
    case _ => None
  }

  function DueIn(op: Op): Option<Option<Time>> {
    match op
    case CreateOp(_, due, _, _) => Some(due)
    case UpdateOp(_, patch, _) =>
      (match Meaning(patch.due)
       case Keep => None
       case Clear => Some(None)
       case Move(t) => Some(Some(t)))
    case _ => None
  }

  function CreationIn(op: Op): Option<Time> {
    if op.CreateOp? then Some(op.now) else None
  }

  function StampIn(op: Op): Option<Time> {
    if op.CreateOp? || op.UpdateOp? then Some(op.now) else None
  }

  // A committed create or update of the row.
  predicate Wrote(e: Entry, id: nat) {
    (e.op.CreateOp? || e.op.UpdateOp?) && e.reply.Row? && e.reply.task.id == id
  }

  // The value given by the last committed operation on the row that mentions the field.
  function LastMention<V>(log: seq<Entry>, id: nat, field: Op -> Option<V>, initial: Option<V>): Option<V> {
    if log == [] then initial
    else
      var e := log[|log| - 1];
      if Wrote(e, id) && field(e.op).Some? then field(e.op)
      else LastMention(log[..|log| - 1], id, field, initial)
  }

  // With one more entry, the last mention is the entry's if it writes the row and mentions the field.
  ghost predicate Appends<V(!new)>(log: seq<Entry>, e: Entry, id: nat, field: Op -> Option<V>) {
    forall initial ::
      (LastMention(log + [e], id, field, initial) ==
       if Wrote(e, id) && field(e.op).Some? then field(e.op) else LastMention(log, id, field, initial))
  }

  lemma MentionsSnoc(log: seq<Entry>, e: Entry, id: nat)
    ensures Appends(log, e, id, TitleIn) && Appends(log, e, id, DoneIn) && Appends(log, e, id, DueIn)
    ensures Appends(log, e, id, CreationIn) && Appends(log, e, id, StampIn)
  {
    assert (log + [e])[..|log|] == log;
  }

  ghost predicate FieldsAreLastMentions(tb: Table, log: seq<Entry>, id: nat, t: Task) {
    var was := if id in tb.rows then Some(tb.rows[id]) else None;
    && LastMention(log, id, TitleIn, if was.Some? then Some(was.value.title) else None) == Some(t.title)
    && LastMention(log, id, DoneIn, if was.Some? then Some(was.value.done) else None) == Some(t.done)
    && LastMention(log, id, DueIn, if was.Some? then Some(was.value.due) else None) == Some(t.due)
    && LastMention(log, id, CreationIn, if was.Some? then Some(was.value.createdAt) else None) == Some(t.createdAt)
    && LastMention(log, id, StampIn, if was.Some? then Some(was.value.updatedAt) else None) == Some(t.updatedAt)
  }

  lemma SerialPrefix(tb: Table, log: seq<Entry>)
    requires SerialLog(tb, log) && log != []
    ensures SerialLog(tb, log[..|log| - 1])
    ensures Ops(log[..|log| - 1]) == Ops(log)[..|log| - 1]
    ensures var last := log[|log| - 1];
      Apply(Replay(tb, Ops(log[..|log| - 1])), last.op) == (Replay(tb, Ops(log)), last.reply)
  {
    var front := log[..|log| - 1];
    assert Ops(front) == Ops(log)[..|front|];
    assert InTurn(tb, log, |front|);
    forall k | 0 <= k < |front| ensures InTurn(tb, front, k) {
      assert InTurn(tb, log, k);
      assert Ops(front)[..k] == Ops(log)[..k];
    }
  }

  // One more operation: a row it does not write keeps its fields, and the row it writes gets
  // those the operation mentions.
  lemma FieldsSnoc(tb: Table, log: seq<Entry>, prev: Table, next: Table, id: nat)
    requires log != [] && WellFormed(prev)
    requires id in prev.rows ==> FieldsAreLastMentions(tb, log[..|log| - 1], id, prev.rows[id])
    requires Apply(prev, log[|log| - 1].op) == (next, log[|log| - 1].reply) && id in next.rows
    ensures FieldsAreLastMentions(tb, log, id, next.rows[id])
  {
    var e := log[|log| - 1];
    var t := next.rows[id];
    if !Wrote(e, id) {
      assert id in prev.rows && t == prev.rows[id].(deletedAt := t.deletedAt);
    } else if e.op.UpdateOp? {
      assert id in prev.rows && t == Updated(prev.rows[id], e.op.patch, e.op.now);
    } else {
      assert t == NewRow(id, e.op.title, e.op.due, e.op.now);
    }
  }

  ghost predicate AllFieldsKept(tb: Table, log: seq<Entry>, now: Table) {
    forall id :: id in now.rows ==> FieldsAreLastMentions(tb, log, id, now.rows[id])
  }

  lemma {:induction false} SerialFields(tb: Table, log: seq<Entry>, next: Table)
    requires WellFormed(tb) && SerialLog(tb, log) && next == Replay(tb, Ops(log))
    ensures AllFieldsKept(tb, log, next)
  {
    if log == [] {
      assert Ops(log) == [];
    } else {
      var front := log[..|log| - 1];
      SerialPrefix(tb, log);
      var prev := Replay(tb, Ops(front));
      ReplayExtends(tb, Ops(front));
      SerialFields(tb, front, prev);
      forall id | id in next.rows ensures FieldsAreLastMentions(tb, log, id, next.rows[id]) {
        FieldsSnoc(tb, log, prev, next, id);
      }
    }
  }

  // ----- who is live -----

  ghost predicate Created(log: seq<Entry>, id: nat) {
    exists k :: 0 <= k < |log| && log[k].op.CreateOp? && log[k].reply.Row? && log[k].reply.task.id == id
  }

  ghost predicate Deleted(log: seq<Entry>, id: nat) {
    exists k :: 0 <= k < |log| && log[k].op.DeleteOp? && log[k].reply.Gone? && log[k].op.id == id
  }

  lemma HistorySnoc(front: seq<Entry>, e: Entry, id: nat)
    ensures Created(front + [e], id) <==>
      Created(front, id) || (e.op.CreateOp? && e.reply.Row? && e.reply.task.id == id)
    ensures Deleted(front + [e], id) <==> Deleted(front, id) || (e.op.DeleteOp? && e.reply.Gone? && e.op.id == id)
  {
    var log := front + [e];
    assert log[|front|] == e;
    assert forall k :: 0 <= k < |front| ==> log[k] == front[k];
  }

  // A task is live exactly when it was live at the start or created since, and no delete of it has
  // been answered with success.
  ghost predicate LiveAsLogged(tb: Table, log: seq<Entry>, id: nat, now: Table) {
    && (id in now.rows <==> id in tb.rows || Created(log, id))
    && (LiveIn(now.rows, id) <==> (LiveIn(tb.rows, id) || (id !in tb.rows && Created(log, id))) && !Deleted(log, id))
    && (Deleted(log, id) ==> id in now.rows)
  }

  ghost predicate AllLiveAsLogged(tb: Table, log: seq<Entry>, now: Table) {
    forall id :: LiveAsLogged(tb, log, id, now)
  }

  lemma LivenessSnoc(tb: Table, front: seq<Entry>, e: Entry, id: nat, prev: Table, now: Table)
    requires WellFormed(prev) && Apply(prev, e.op) == (now, e.reply)
    requires LiveAsLogged(tb, front, id, prev)
    ensures LiveAsLogged(tb, front + [e], id, now)
  {
    HistorySnoc(front, e, id);
  }

  lemma {:induction false} LiveExactly(tb: Table, log: seq<Entry>, id: nat, now: Table)
    requires WellFormed(tb) && SerialLog(tb, log) && now == Replay(tb, Ops(log))
    ensures LiveAsLogged(tb, log, id, now)
  {
    if log == [] {
      assert Ops(log) == [];
    } else {
      var front := log[..|log| - 1];
      SerialPrefix(tb, log);
      LiveExactly(tb, front, id, Replay(tb, Ops(front)));
      ReplayExtends(tb, Ops(front));
      LivenessSnoc(tb, front, log[|log| - 1], id, Replay(tb, Ops(front)), now);
      assert log == front + [log[|log| - 1]];
    }
  }

  // ----- all reachable states -----

  // No lost field: although every Save rewrites all columns, each column of each row holds the
  // value from the last committed operation that mentioned that column, in every reachable state;
  // and the tasks that are live are those created and not yet deleted.
  lemma NoLostField(tb: Table, es: seq<Event>, s: State)
    requires WellFormed(tb) && s == Run(true, Init(tb), es)
    ensures AllFieldsKept(tb, s.log, s.table) && AllLiveAsLogged(tb, s.log, s.table)
  {
    Serializable(tb, es, s);
    SerialFields(tb, s.log, s.table);
    forall id ensures LiveAsLogged(tb, s.log, id, s.table) {
      LiveExactly(tb, s.log, id, s.table);
    }
  }
}
