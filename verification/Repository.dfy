// The database as a mutable object, and the repository methods as the programs they are: sequences
// of statements with other clients' statements in between. Every state of the object is a state of
// the machine in Store, so what is proved of all runs holds of it.

module Repository {
  import opened Prelude
  import opened Patch
  import opened Pagination
  import opened Store
  import opened Serializability
  import opened History
  import opened Listing
  import opened Errors

  lemma TraceSnoc(locking: bool, s: State, trace: seq<Event>, e: Event)
    ensures Run(locking, s, trace + [e]) == Step(locking, Run(locking, s, trace), e)
  {
    RunAppend(locking, s, trace, [e]);
    RunOne(locking, Run(locking, s, trace), e);
  }

  // The events of other clients.
  predicate Spares(es: seq<Event>, c: nat) {
    forall n :: 0 <= n < |es| ==> es[n].Begin? || es[n].c != c
  }

  lemma {:induction false} OthersKeep(locking: bool, s: State, es: seq<Event>, c: nat)
    requires c < |s.clients| && Spares(es, c)
    ensures var s' := Run(locking, s, es); c < |s'.clients| && s'.clients[c] == s.clients[c]
    decreases |es|
  {
    if es != [] { OthersKeep(locking, Step(locking, s, es[0]), es[1..], c); }
  }

  class Database {
    const driver: string
    var rows: map<nat, Task>
    var nextId: nat
    var locks: map<nat, nat>
    var clients: seq<Client>
    var log: seq<Entry>
    ghost const start: Table
    ghost var trace: seq<Event>

    function View(): State
      reads this
    {
      State(Table(rows, nextId), locks, clients, log)
    }

    ghost predicate Valid()
      reads this
    {
      View() == Run(RowLocks(driver), Init(start), trace)
    }

    // One event was attempted.
    twostate predicate Did(e: Event)
      reads this
    {
      && View() == Step(RowLocks(driver), old(View()), e)
      && trace == old(trace) + [e]
    }

    constructor (driver: string, tb: Table)
      ensures this.driver == driver && start == tb && trace == [] && Valid() && View() == Init(tb)
    {
      this.driver := driver;
      rows, nextId, locks, clients, log := tb.rows, tb.nextId, map[], [], [];
      start := tb;
      trace := [];
    }

    method Begin(req: Request) returns (c: nat)
      requires Valid()
      modifies this
      ensures Valid() && Did(Event.Begin(req)) && c == |old(clients)|
    {
      TraceSnoc(RowLocks(driver), Init(start), trace, Event.Begin(req));
      c := |clients|;
      clients := clients + [Client(req, Pending)];
      trace := trace + [Event.Begin(req)];
    }

    // SELECT ... FOR UPDATE. False means that the row is held by another transaction.
    method Load(c: nat) returns (ok: bool)
      requires Valid()
      modifies this
      ensures Valid() && Did(Event.Load(c)) && ok == Enabled(old(View()), Event.Load(c))
    {
      TraceSnoc(RowLocks(driver), Init(start), trace, Event.Load(c));
      ok := Enabled(View(), Event.Load(c));
      trace := trace + [Event.Load(c)];
      if ok {
        var k := clients[c];
        if LiveIn(rows, k.req.id) {
          clients := clients[c := k.(phase := Loaded(rows[k.req.id]))];
          if RowLocks(driver) {
            locks := locks[k.req.id := c];
          }
        } else {
          clients := clients[c := k.(phase := Missed)];
          log := log + [Entry(c, UpdateOp(k.req.id, k.req.patch, 0), NotFound)];
        }
      }
    }

    // The closure runs in place on the transaction's own copy of the row.
    method Mutate(c: nat)
      requires Valid()
      modifies this
      ensures Valid() && Did(Event.Mutate(c))
    {
      TraceSnoc(RowLocks(driver), Init(start), trace, Event.Mutate(c));
      if Enabled(View(), Event.Mutate(c)) {
        var k := clients[c];
        var t := new TaskRecord(k.phase.seen);
        t.Mutate(k.req.patch);
        clients := clients[c := k.(phase := Mutated(k.phase.seen, t.View()))];
      }
      trace := trace + [Event.Mutate(c)];
    }

    method Save(c: nat, now: Time)
      requires Valid()
      modifies this
      ensures Valid() && Did(Event.Save(c, now))
    {
      TraceSnoc(RowLocks(driver), Init(start), trace, Event.Save(c, now));
      if Enabled(View(), Event.Save(c, now)) {
        var k := clients[c];
        clients := clients[c := k.(phase := Saved(k.phase.seen, k.phase.local.(updatedAt := now), now))];
      }
      trace := trace + [Event.Save(c, now)];
    }

    method Release(c: nat)
      modifies this`locks
      ensures locks == Unlock(old(View()), c).locks
    {
      locks := map id | id in locks && locks[id] != c :: locks[id];
    }

    method Commit(c: nat)
      requires Valid()
      modifies this
      ensures Valid() && Did(Event.Commit(c))
    {
      TraceSnoc(RowLocks(driver), Init(start), trace, Event.Commit(c));
      if Enabled(View(), Event.Commit(c)) {
        var k := clients[c];
        var t := k.phase.local;
        rows := rows[t.id := t];
        clients := clients[c := k.(phase := Replied(Row(t)))];
        log := log + [Entry(c, UpdateOp(k.req.id, k.req.patch, k.phase.now), Row(t))];
        Release(c);
      }
      trace := trace + [Event.Commit(c)];
    }

    method Rollback(c: nat)
      requires Valid()
      modifies this
      ensures Valid() && Did(Event.Rollback(c))
    {
      TraceSnoc(RowLocks(driver), Init(start), trace, Event.Rollback(c));
      if Enabled(View(), Event.Rollback(c)) {
        clients := clients[c := clients[c].(phase := Replied(NotFound))];
      }
      trace := trace + [Event.Rollback(c)];
    }

    // A statement outside a transaction. False means that it has to wait for a row.
    method Exec(c: nat, skip: nat, now: Time) returns (ok: bool)
      requires Valid()
      modifies this
      ensures Valid() && Did(Event.Exec(c, skip, now)) && ok == Enabled(old(View()), Event.Exec(c, skip, now))
    {
      TraceSnoc(RowLocks(driver), Init(start), trace, Event.Exec(c, skip, now));
      ok := Enabled(View(), Event.Exec(c, skip, now));
      if ok {
        var op := StatementOp(clients[c].req, skip, now);
        var reply := Row(NewRow(0, "", None, 0));
        match op {
          case CreateOp(title, due, _, _) =>
            var t := NewRow(nextId + skip, title, due, now);
            rows, nextId, reply := rows[t.id := t], t.id + 1, Row(t);
          case DeleteOp(id, _) =>
            if LiveIn(rows, id) {
              rows, reply := rows[id := rows[id].(deletedAt := Some(now))], Gone;
            } else {
              reply := NotFound;
            }
          case GetOp(id) =>
            reply := if LiveIn(rows, id) then Row(rows[id]) else NotFound;
        }
        clients := clients[c := clients[c].(phase := Replied(reply))];
        log := log + [Entry(c, op, reply)];
      }
      trace := trace + [Event.Exec(c, skip, now)];
    }

    method Fail(c: nat)
      requires Valid()
      modifies this
      ensures Valid() && Did(Event.Fail(c))
    {
      TraceSnoc(RowLocks(driver), Init(start), trace, Event.Fail(c));
      if Enabled(View(), Event.Fail(c)) {
        clients := clients[c := clients[c].(phase := Failed)];
        Release(c);
      }
      trace := trace + [Event.Fail(c)];
    }

    method Perform(e: Event)
      requires Valid()
      modifies this
      ensures Valid() && Did(e)
    {
      match e
      case Begin(req) => var _ := Begin(req);
      case Load(c) => var _ := Load(c);
      case Mutate(c) => Mutate(c);
      case Save(c, now) => Save(c, now);
      case Commit(c) => Commit(c);
      case Rollback(c) => Rollback(c);
      case Exec(c, skip, now) => var _ := Exec(c, skip, now);
      case Fail(c) => Fail(c);
    }

    method Everyone(es: seq<Event>)
      requires Valid()
      modifies this
      ensures Valid() && trace == old(trace) + es && View() == Run(RowLocks(driver), old(View()), es)
    {
      for n := 0 to |es|
        invariant Valid() && trace == old(trace) + es[..n]
      {
        Perform(es[n]);
        assert es[..n + 1] == es[..n] + [es[n]];
      }
      assert es[..|es|] == es;
      RunAppend(RowLocks(driver), Init(start), old(trace), es);
    }

    // Whatever the other clients do between two statements of client c.
    method Others(es: seq<Event>, c: nat)
      requires Valid() && c < |clients| && Spares(es, c)
      modifies this
      ensures Valid() && trace == old(trace) + es && View() == Run(RowLocks(driver), old(View()), es)
      ensures c < |clients| && clients[c] == old(clients[c])
    {
      OthersKeep(RowLocks(driver), View(), es, c);
      Everyone(es);
    }
  }

  // ----- which drivers lock -----

  // With every driver but sqlite, whatever its name, each state of the database is one that the
  // locked machine reaches: it looks serial to its clients, no field is lost, no task revived.
  lemma LockingDriverIsSafe(db: Database)
    requires db.Valid() && WellFormed(db.start) && db.driver != "sqlite"
    ensures AsIfSerial(db.start, db.View()) && AllFieldsKept(db.start, db.log, db.View().table)
    ensures AllLiveAsLogged(db.start, db.log, db.View().table)
  {
    Serializable(db.start, db.trace, db.View());
    NoLostField(db.start, db.trace, db.View());
  }

  lemma {:induction false} NoLockTaken(s: State, es: seq<Event>)
    requires s.locks == map[]
    ensures Run(false, s, es).locks == map[]
    decreases |es|
  {
    if es != [] { NoLockTaken(Step(false, s, es[0]), es[1..]); }
  }

  lemma SqliteTakesNoLock(db: Database)
    requires db.Valid() && db.driver == "sqlite"
    ensures db.locks == map[]
  {
    NoLockTaken(Init(db.start), db.trace);
  }

  // ----- errors from below -----

  const RECORD_NOT_FOUND := "record not found"
  const LOCK_WAIT := Plain("lock wait timeout exceeded")

  // Drivers know nothing of fiber or of the application's own errors, and report a missing row
  // only as gorm.ErrRecordNotFound.
  predicate DriverError(e: Chain) {
    AsFiber(e) == None && AsApp(e) == None && !IsPlain(e, RECORD_NOT_FOUND)
  }

  lemma DriverErrorExactly(e: Chain)
    ensures DriverError(e) <==>
      FirstFiber(Unwrapped(e)) == None && FirstApp(Unwrapped(e)) == None && Plain("record not found") !in Unwrapped(e)
  {
    SearchFindsFirst(e);
    IsPlainFindsIt(e, "record not found");
  }

  predicate DriverFault(f: Option<Chain>) {
    f.Some? ==> DriverError(f.value)
  }

  // What a repository method reports of the way its operation ended.
  predicate Reports(p: Phase, r: Result<Task, Chain>, missing: AppError) {
    match p
    case Replied(Row(t)) => r == Ok(t)
    case Replied(NotFound) => r == Err(App(missing))
    case Failed => r.Err? && DriverError(r.error)
    case _ => false
  }

  predicate ReportsDelete(p: Phase, r: Result<(), Chain>) {
    match p
    case Replied(Gone) => r == Ok(())
    case Replied(NotFound) => r == Err(App(ERR_TASK_NOT_FOUND))
    case Failed => r.Err? && DriverError(r.error)
    case _ => false
  }

  // Where the transaction of Update can be hit by an error.
  datatype Faults = Faults(onRead: Option<Chain>, onSave: Option<Chain>, onCommit: Option<Chain>) {
    predicate Valid() {
      DriverFault(onRead) && DriverFault(onSave) && DriverFault(onCommit)
    }
  }

  // The other clients' events before the read, before the save and before the commit.
  datatype Gaps = Gaps(beforeRead: seq<Event>, beforeSave: seq<Event>, beforeCommit: seq<Event>) {
    predicate Spare(c: nat) {
      Spares(beforeRead, c) && Spares(beforeSave, c) && Spares(beforeCommit, c)
    }
  }

  class GormRepository {
    const db: Database

    constructor (db: Database)
      ensures this.db == db
    {
      this.db := db;
    }

    // The operation issued by this call ran to its end.
    twostate predicate Finished(c: nat, req: Request)
      reads db
    {
      && db.Valid() && old(db.trace) <= db.trace
      && c == |old(db.clients)| < |db.clients| && db.clients[c].req == req
    }

    // The state in which a request issued now gets to act, once the others have done their part.
    function Then(req: Request, before: seq<Event>): State
      reads db
    {
      Run(RowLocks(db.driver), db.View(), [Event.Begin(req)] + before)
    }

    // A single statement on behalf of client c.
    method Statement(c: nat, skip: nat, now: Time, fault: Option<Chain>) returns (err: Option<Chain>)
      requires db.Valid() && c < |db.clients| && DriverFault(fault)
      requires db.clients[c].phase.Pending? && !db.clients[c].req.UpdateReq?
      modifies db
      ensures db.Valid() && old(db.trace) <= db.trace
      ensures |db.clients| == |old(db.clients)| && db.clients[c].req == old(db.clients[c].req)
      ensures err.None? ==>
        var (tb, reply) := Apply(old(db.View()).table, StatementOp(db.clients[c].req, skip, now));
        db.View().table == tb && db.clients[c].phase == Replied(reply)
      ensures err.None? ==> db.trace == old(db.trace) + [Exec(c, skip, now)]
      ensures err.Some? ==> db.clients[c].phase.Failed? && DriverError(err.value)
      ensures err.Some? <==> fault.Some? || Blocked(old(db.View()), old(db.clients[c].req))
      ensures fault.Some? ==> err == fault
    {
      if fault.Some? {
        db.Fail(c);
        return fault;
      }
      var ok := db.Exec(c, skip, now);
      if !ok {
        db.Fail(c);
        return Some(LOCK_WAIT);
      }
      err := None;
    }

    method Create(title: string, due: Option<Time>, before: seq<Event>, skip: nat, now: Time, fault: Option<Chain>)
      returns (r: Result<Task, Chain>, c: nat)
      requires db.Valid() && DriverFault(fault) && Spares(before, |db.clients|)
      modifies db
      ensures Finished(c, CreateReq(title, due)) && Reports(db.clients[c].phase, r, ERR_TASK_NOT_FOUND)
      ensures r.Ok? <==> fault.None?
      ensures fault.Some? ==> r == Err(fault.value)
      ensures r.Ok? ==>
        var id := old(Then(CreateReq(title, due), before)).table.nextId + skip;
        && r.value == Task(id, title, false, due, now, now, None)
        && db.nextId == id + 1 && id in db.rows && db.rows[id] == r.value
      ensures r.Ok? ==> db.trace == old(db.trace) + [Begin(CreateReq(title, due))] + before + [Exec(c, skip, now)]
    {
      c := db.Begin(CreateReq(title, due));
      db.Others(before, c);
      var err := Statement(c, skip, now, fault);
      if err.Some? {
        return Err(err.value), c;
      }
      r := Ok(db.clients[c].phase.reply.task);
    }

    // First: the row, or gorm.ErrRecordNotFound.
    method First(c: nat, fault: Option<Chain>) returns (r: Result<Task, Chain>)
      requires db.Valid() && c < |db.clients| && DriverFault(fault)
      requires db.clients[c].phase.Pending? && db.clients[c].req.GetReq?
      modifies db
      ensures db.Valid() && old(db.trace) <= db.trace
      ensures |db.clients| == |old(db.clients)| && db.clients[c].req == old(db.clients[c].req)
      ensures match db.clients[c].phase
        case Replied(Row(t)) => r == Ok(t)
        case Replied(NotFound) => r == Err(Plain(RECORD_NOT_FOUND))
        case Failed => r.Err? && DriverError(r.error)
        case _ => false
      ensures db.clients[c].phase.Failed? <==> fault.Some?
      ensures fault.Some? ==> r == Err(fault.value)
      ensures r.Ok? <==> fault.None? && LiveIn(old(db.rows), db.clients[c].req.id)
      ensures r.Ok? ==> r.value == old(db.rows)[db.clients[c].req.id]
      ensures fault.None? ==> db.trace == old(db.trace) + [Exec(c, 0, 0)]
    {
      var err := Statement(c, 0, 0, fault);
      if err.Some? {
        return Err(err.value);
      }
      var reply := db.clients[c].phase.reply;
      r := if reply.Row? then Ok(reply.task) else Err(Plain(RECORD_NOT_FOUND));
    }

    method FindByID(id: nat, before: seq<Event>, fault: Option<Chain>) returns (r: Result<Task, Chain>, c: nat)
      requires db.Valid() && DriverFault(fault) && Spares(before, |db.clients|)
      modifies db
      ensures Finished(c, GetReq(id)) && Reports(db.clients[c].phase, r, ERR_TASK_NOT_FOUND)
      ensures db.clients[c].phase.Failed? <==> fault.Some?
      ensures fault.Some? ==> r == Err(fault.value)
      ensures var rows := old(Then(GetReq(id), before)).table.rows;
        && (r.Ok? <==> fault.None? && LiveIn(rows, id))
        && (r.Ok? ==> r.value == rows[id])
      ensures fault.None? ==> db.trace == old(db.trace) + [Begin(GetReq(id))] + before + [Exec(c, 0, 0)]
    {
      c := db.Begin(GetReq(id));
      db.Others(before, c);
      r := First(c, fault);
      if r.Err? && IsPlain(r.error, RECORD_NOT_FOUND) {
        r := Err(App(ERR_TASK_NOT_FOUND));
      }
    }

    // The locked First of the update transaction. A wait that does not end is a driver error.
    method FirstForUpdate(c: nat, fault: Option<Chain>) returns (err: Option<Chain>)
      requires db.Valid() && c < |db.clients| && DriverFault(fault)
      requires db.clients[c].phase.Pending? && db.clients[c].req.UpdateReq?
      modifies db
      ensures db.Valid() && old(db.trace) <= db.trace
      ensures |db.clients| == |old(db.clients)| && db.clients[c].req == old(db.clients[c].req)
      ensures match db.clients[c].phase
        case Loaded(seen) =>
          err == None && LiveIn(old(db.rows), db.clients[c].req.id) && seen == old(db.rows)[db.clients[c].req.id]
        case Missed => !LiveIn(old(db.rows), db.clients[c].req.id) && err == Some(Plain(RECORD_NOT_FOUND))
        case Failed => err.Some? && DriverError(err.value)
        case _ => false
      ensures db.clients[c].phase.Failed? <==> fault.Some? || Blocked(old(db.View()), old(db.clients[c].req))
      ensures fault.Some? ==> err == fault
      ensures !db.clients[c].phase.Failed? ==> db.trace == old(db.trace) + [Load(c)]
    {
      if fault.Some? {
        db.Fail(c);
        return fault;
      }
      var ok := db.Load(c);
      if !ok {
        db.Fail(c);
        return Some(LOCK_WAIT);
      }
      err := if db.clients[c].phase.Missed? then Some(Plain(RECORD_NOT_FOUND)) else None;
    }

    // The end of the transaction: COMMIT, unless the driver reports an error.
    method EndTransaction(c: nat, fault: Option<Chain>) returns (r: Result<Task, Chain>)
      requires db.Valid() && c < |db.clients| && DriverFault(fault)
      requires db.clients[c].phase.Saved? && db.clients[c].req.UpdateReq?
      modifies db
      ensures db.Valid() && old(db.trace) <= db.trace
      ensures |db.clients| == |old(db.clients)| && db.clients[c].req == old(db.clients[c].req)
      ensures Reports(db.clients[c].phase, r, ERR_NOT_FOUND)
      ensures r.Ok? <==> fault.None?
      ensures fault.Some? ==> r == Err(fault.value)
      ensures r.Ok? ==> r.value == old(db.clients[c].phase.local) && db.trace == old(db.trace) + [Commit(c)]
      ensures r.Ok? ==> r.value.id in db.rows && db.rows[r.value.id] == r.value
    {
      if fault.Some? {
        db.Fail(c);
        return Err(fault.value);
      }
      var updated := db.clients[c].phase.local;
      db.Commit(c);
      r := Ok(updated);
    }

    // The body of the transaction after the read: mutate, save the whole row, end.
    method MutateAndSave(c: nat, now: Time, gaps: Gaps, faults: Faults) returns (r: Result<Task, Chain>)
      requires db.Valid() && c < |db.clients| && faults.Valid() && gaps.Spare(c)
      requires db.clients[c].phase.Loaded? && db.clients[c].req.UpdateReq?
      modifies db
      ensures db.Valid() && old(db.trace) <= db.trace
      ensures c < |db.clients| && db.clients[c].req == old(db.clients[c].req)
      ensures Reports(db.clients[c].phase, r, ERR_NOT_FOUND)
      ensures r.Ok? <==> faults.onSave.None? && faults.onCommit.None?
      ensures r.Err? ==> r.error == if faults.onSave.Some? then faults.onSave.value else faults.onCommit.value
      ensures r.Ok? ==> r.value == Updated(old(db.clients[c].phase.seen), old(db.clients[c].req.patch), now)
      ensures r.Ok? ==>
        db.trace == old(db.trace) + [Mutate(c)] + gaps.beforeSave + [Save(c, now)] + gaps.beforeCommit + [Commit(c)]
      ensures r.Ok? ==> r.value.id in db.rows && db.rows[r.value.id] == r.value
    {
      db.Mutate(c);
      db.Others(gaps.beforeSave, c);
      if faults.onSave.Some? {
        db.Fail(c);
        return Err(faults.onSave.value);
      }
      db.Save(c, now);
      db.Others(gaps.beforeCommit, c);
      r := EndTransaction(c, faults.onCommit);
    }

    // The transaction: read with a lock, mutate, save the whole row, commit; roll back on error.
    method Update(id: nat, patch: UpdateRequest, now: Time, gaps: Gaps, faults: Faults)
      returns (r: Result<Task, Chain>, c: nat)
      requires db.Valid() && faults.Valid() && gaps.Spare(|db.clients|)
      modifies db
      ensures Finished(c, UpdateReq(id, patch)) && Reports(db.clients[c].phase, r, ERR_NOT_FOUND)
      ensures var s := old(Then(UpdateReq(id, patch), gaps.beforeRead));
        if faults.onRead.Some? || Blocked(s, UpdateReq(id, patch)) then db.clients[c].phase.Failed?
        else if !LiveIn(s.table.rows, id) then db.clients[c].phase == Replied(NotFound)
        else
          && (r.Ok? <==> faults.onSave.None? && faults.onCommit.None?)
          && (r.Err? ==> r.error == if faults.onSave.Some? then faults.onSave.value else faults.onCommit.value)
          && (r.Ok? ==> r.value == ApplyPatch(patch, s.table.rows[id]).(updatedAt := now))
          && (r.Ok? ==> r.value.id in db.rows && db.rows[r.value.id] == r.value)
      ensures faults.onRead.Some? ==> r == Err(faults.onRead.value)
      ensures r.Ok? ==>
        db.trace == old(db.trace) + [Begin(UpdateReq(id, patch))] + gaps.beforeRead + [Load(c), Mutate(c)] +
        gaps.beforeSave + [Save(c, now)] + gaps.beforeCommit + [Commit(c)]
    {
      c := db.Begin(UpdateReq(id, patch));
      db.Others(gaps.beforeRead, c);
      var err := FirstForUpdate(c, faults.onRead);
      if err.None? {
        r := MutateAndSave(c, now, gaps, faults);
      } else if IsPlain(err.value, RECORD_NOT_FOUND) {
        db.Rollback(c);
        r := Err(App(ERR_NOT_FOUND));
      } else {
        r := Err(err.value);
      }
    }

    method Delete(id: nat, before: seq<Event>, now: Time, fault: Option<Chain>) returns (r: Result<(), Chain>, c: nat)
      requires db.Valid() && DriverFault(fault) && Spares(before, |db.clients|)
      modifies db
      ensures Finished(c, DeleteReq(id)) && ReportsDelete(db.clients[c].phase, r)
      ensures var s := old(Then(DeleteReq(id), before));
        if fault.Some? || Blocked(s, DeleteReq(id)) then db.clients[c].phase.Failed?
        else
          && (r.Ok? <==> LiveIn(s.table.rows, id))
          && (r.Ok? ==> db.rows == s.table.rows[id := s.table.rows[id].(deletedAt := Some(now))])
      ensures fault.Some? ==> r == Err(fault.value)
      ensures !db.clients[c].phase.Failed? ==>
        db.trace == old(db.trace) + [Begin(DeleteReq(id))] + before + [Exec(c, 0, now)]
    {
      c := db.Begin(DeleteReq(id));
      db.Others(before, c);
      var err := Statement(c, 0, now, fault);
      if err.Some? {
        return Err(err.value), c;
      }
      var rowsAffected := if db.clients[c].phase.reply.Gone? then 1 else 0;
      r := if rowsAffected == 0 then Err(App(ERR_TASK_NOT_FOUND)) else Ok(());
    }

    // Two statements, with the other clients' events in between.
    method List(q: PageQuery, between: seq<Event>, onCount: Option<Chain>, onFind: Option<Chain>)
      returns (r: Result<(seq<Task>, nat), Chain>)
      requires db.Valid() && q.Valid() && DriverFault(onCount) && DriverFault(onFind)
      modifies db
      ensures db.Valid() && old(db.trace) <= db.trace
      ensures db.View() == old(db.View()) || db.View() == Run(RowLocks(db.driver), old(db.View()), between)
      ensures r.Ok? <==> onCount.None? && onFind.None?
      ensures r.Ok? ==> r.value.1 == Count(old(db.View()).table)
      ensures r.Ok? ==> r.value.0 == Page(Run(RowLocks(db.driver), old(db.View()), between).table, q)
      ensures r.Err? ==> r.error == (if onCount.Some? then onCount.value else onFind.value) && DriverError(r.error)
    {
      if onCount.Some? {
        return Err(onCount.value);
      }
      var total := Count(db.View().table);
      db.Everyone(between);
      if onFind.Some? {
        return Err(onFind.value);
      }
      r := Ok((Page(db.View().table, q), total));
    }
  }
}
