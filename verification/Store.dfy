// The task store as a step system. The first half is the sequential meaning of one operation on
// the tasks table; the second half is the concurrent machine: clients whose operations are cut
// into the database steps of internal/modules/task/repository.go, interleaved in any order.

module Store {
  import opened Prelude
  import opened Patch

  // ----- one operation at a time -----

  // Soft-deleted rows stay in the table. Ids below nextId are used up.
  datatype Table = Table(rows: map<nat, Task>, nextId: nat)

  predicate LiveIn(rows: map<nat, Task>, id: nat) {
    id in rows && rows[id].deletedAt.None?
  }

  ghost predicate WellFormed(tb: Table) {
    forall id :: id in tb.rows ==> tb.rows[id].id == id && id < tb.nextId
  }

  // An operation as it took effect: `now` is the database clock, `skip` the number of ids the
  // sequence passed over.
  datatype Op =
    | CreateOp(title: string, due: Option<Time>, skip: nat, now: Time)
    | UpdateOp(id: nat, patch: UpdateRequest, now: Time)
    | DeleteOp(id: nat, now: Time)
    | GetOp(id: nat)

  datatype Reply = Row(task: Task) | Gone | NotFound

  function NewRow(id: nat, title: string, due: Option<Time>, now: Time): Task {
    Task(id, title, false, due, now, now, None)
  }

  // The row an update leaves: the patch applied, and the modification time set by the library.
  function Updated(t: Task, p: UpdateRequest, now: Time): Task {
    ApplyPatch(p, t).(updatedAt := now)
  }

  function Apply(tb: Table, op: Op): (Table, Reply) {
    match op
    case CreateOp(title, due, skip, now) =>
      var t := NewRow(tb.nextId + skip, title, due, now);
      (Table(tb.rows[t.id := t], t.id + 1), Row(t))
    case UpdateOp(id, p, now) =>
      if LiveIn(tb.rows, id) then
        var t := Updated(tb.rows[id], p, now);
        (tb.(rows := tb.rows[id := t]), Row(t))
      else (tb, NotFound)
    case DeleteOp(id, now) =>
      if LiveIn(tb.rows, id) then
        (tb.(rows := tb.rows[id := tb.rows[id].(deletedAt := Some(now))]), Gone)
      else (tb, NotFound)
    case GetOp(id) =>
      if LiveIn(tb.rows, id) then (tb, Row(tb.rows[id])) else (tb, NotFound)
  }

  // ----- the concurrent machine -----

  datatype Request =
    | CreateReq(title: string, due: Option<Time>)
    | UpdateReq(id: nat, patch: UpdateRequest)
    | DeleteReq(id: nat)
    | GetReq(id: nat)

  // How far a client's operation has come. An update runs through
  // Pending, Loaded, Mutated, Saved, Done; `seen` is the row its SELECT returned and `local` the
  // *Task in its memory. Missed is an update whose SELECT found no live row.
  datatype Phase =
    | Pending
    | Loaded(seen: Task)
    | Mutated(seen: Task, local: Task)
    | Saved(seen: Task, local: Task, now: Time)
    | Missed
    | Replied(reply: Reply)
    | Failed

  datatype Client = Client(req: Request, phase: Phase)

  // What was committed, by whom, and what was answered.
  datatype Entry = Entry(client: nat, op: Op, reply: Reply)

  // A lock maps a row id to the client whose transaction holds it. The log is an observer.
  datatype State = State(table: Table, locks: map<nat, nat>, clients: seq<Client>, log: seq<Entry>)

  datatype Event =
    | Begin(req: Request)
    | Load(c: nat)                            // SELECT ... FOR UPDATE of an update
    | Mutate(c: nat)                          // the patch closure
    | Save(c: nat, now: Time)                 // tx.Save: the whole local row, not yet visible
    | Commit(c: nat)                          // COMMIT
    | Rollback(c: nat)                        // ROLLBACK after a missing row
    | Exec(c: nat, skip: nat, now: Time)      // the single statement of a create, delete or get
    | Fail(c: nat)                            // a driver error, a timeout, a cancelled context

  predicate InTransaction(p: Phase) {
    p.Loaded? || p.Mutated? || p.Saved?
  }

  predicate Finished(p: Phase) {
    p.Replied? || p.Failed?
  }

  // The row an operation has to lock, if any.
  function Target(r: Request): Option<nat> {
    match r
    case UpdateReq(id, _) => Some(id)
    case DeleteReq(id) => Some(id)
    case _ => None
  }

  // FOR UPDATE and DELETE wait while another transaction holds the row.
  predicate Blocked(s: State, r: Request) {
    Target(r).Some? && Target(r).value in s.locks
  }

  predicate Enabled(s: State, e: Event) {
    if e.Begin? then true else
      e.c < |s.clients| &&
      var k := s.clients[e.c];
      match e
      case Begin(_) => true
      case Load(_) => k.phase.Pending? && k.req.UpdateReq? && !Blocked(s, k.req)
      case Mutate(_) => k.phase.Loaded? && k.req.UpdateReq?
      case Save(_, _) => k.phase.Mutated?
      case Commit(_) => k.phase.Saved? && k.req.UpdateReq?
      case Rollback(_) => k.phase.Missed?
      case Exec(_, _, _) => k.phase.Pending? && !k.req.UpdateReq? && !Blocked(s, k.req)
      case Fail(_) => k.phase.Pending? || InTransaction(k.phase)
  }

  function SetPhase(s: State, c: nat, p: Phase): State
    requires c < |s.clients|
  {
    s.(clients := s.clients[c := s.clients[c].(phase := p)])
  }

  function Unlock(s: State, c: nat): State {
    s.(locks := map id | id in s.locks && s.locks[id] != c :: s.locks[id])
  }

  function Record(s: State, e: Entry): State {
    s.(log := s.log + [e])
  }

  function StatementOp(r: Request, skip: nat, now: Time): Op
    requires !r.UpdateReq?
  {
    match r
    case CreateReq(title, due) => CreateOp(title, due, skip, now)
    case DeleteReq(id) => DeleteOp(id, now)
    case GetReq(id) => GetOp(id)
  }

  // applyRowLock
  predicate RowLocks(driver: string) {
    driver != "sqlite"
  }

  // `locking` says whether the driver understands FOR UPDATE. The unlocked variant runs the same
  // steps and never takes a lock.
  function Fire(locking: bool, s: State, e: Event): State
    requires Enabled(s, e)
  {
    match e
    case Begin(req) => s.(clients := s.clients + [Client(req, Pending)])
    case Load(c) =>
      var id := s.clients[c].req.id;
      if LiveIn(s.table.rows, id) then
        var s1 := SetPhase(s, c, Loaded(s.table.rows[id]));
        if locking then s1.(locks := s.locks[id := c]) else s1
      else
        // Nothing to lock: the read already determines the answer.
        Record(SetPhase(s, c, Missed), Entry(c, UpdateOp(id, s.clients[c].req.patch, 0), NotFound))
    case Mutate(c) =>
      var k := s.clients[c];
      SetPhase(s, c, Mutated(k.phase.seen, ApplyPatch(k.req.patch, k.phase.seen)))
    case Save(c, now) =>
      var p := s.clients[c].phase;
      SetPhase(s, c, Saved(p.seen, p.local.(updatedAt := now), now))
    case Commit(c) =>
      var k := s.clients[c];
      var t := k.phase.local;
      var s1 := s.(table := s.table.(rows := s.table.rows[t.id := t]));
      Unlock(Record(SetPhase(s1, c, Replied(Row(t))),
                    Entry(c, UpdateOp(k.req.id, k.req.patch, k.phase.now), Row(t))), c)
    case Rollback(c) => SetPhase(s, c, Replied(NotFound))
    case Exec(c, skip, now) =>
      var op := StatementOp(s.clients[c].req, skip, now);
      var (tb, reply) := Apply(s.table, op);
      Record(SetPhase(s.(table := tb), c, Replied(reply)), Entry(c, op, reply))
    case Fail(c) => Unlock(SetPhase(s, c, Failed), c)
  }

  // A step that cannot be taken leaves the state alone: the client is still waiting.
  function Step(locking: bool, s: State, e: Event): State {
    if Enabled(s, e) then Fire(locking, s, e) else s
  }

  function Run(locking: bool, s: State, es: seq<Event>): State
    decreases |es|
  {
    if es == [] then s else Run(locking, Step(locking, s, es[0]), es[1..])
  }

  function Init(tb: Table): State {
    State(tb, map[], [], [])
  }

  lemma {:induction false} RunAppend(locking: bool, s: State, es: seq<Event>, fs: seq<Event>)
    ensures Run(locking, s, es + fs) == Run(locking, Run(locking, s, es), fs)
    decreases |es|
  {
    if es == [] {
      assert es + fs == fs;
    } else {
      assert (es + fs)[1..] == es[1..] + fs;
      RunAppend(locking, Step(locking, s, es[0]), es[1..], fs);
    }
  }

  lemma RunOne(locking: bool, s: State, e: Event)
    ensures Run(locking, s, [e]) == Step(locking, s, e)
  {
    assert [e][1..] == [];
  }

  // ----- running operations one at a time -----

  function Replay(tb: Table, ops: seq<Op>): Table {
    if ops == [] then tb else Apply(Replay(tb, ops[..|ops| - 1]), ops[|ops| - 1]).0
  }

  function Ops(log: seq<Entry>): seq<Op> {
    seq(|log|, k requires 0 <= k < |log| => log[k].op)
  }

  // The k-th answer is what the operation answers after the operations before it.
  ghost predicate InTurn(tb: Table, log: seq<Entry>, k: nat)
    requires k < |log|
  {
    log[k].reply == Apply(Replay(tb, Ops(log)[..k]), log[k].op).1
  }

  // A log that a single client running the operations in log order would have produced.
  ghost predicate SerialLog(tb: Table, log: seq<Entry>) {
    forall k :: 0 <= k < |log| ==> InTurn(tb, log, k)
  }

  // The entries that answer a request ask for what the request asked for.
  predicate Answers(req: Request, op: Op) {
    match req
    case CreateReq(title, due) => op.CreateOp? && op.title == title && op.due == due
    case UpdateReq(id, patch) => op.UpdateOp? && op.id == id && op.patch == patch
    case DeleteReq(id) => op.DeleteOp? && op.id == id
    case GetReq(id) => op.GetOp? && op.id == id
  }
}
