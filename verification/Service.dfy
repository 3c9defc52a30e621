// The service layer (internal/modules/task/service.go, dto.go): it turns rows into response DTOs
// and repository errors into the errors the error handler sees.

module Service {
  import opened Prelude
  import opened Decimal
  import opened Patch
  import opened Pagination
  import opened Store
  import opened Serializability
  import opened History
  import opened Listing
  import opened Errors
  import opened Repository
  import opened ErrorPipeline

  datatype TaskDto = TaskDto(id: nat, title: string, done: bool, due: Option<Time>, createdAt: Time, updatedAt: Time)

  function ToResponse(t: Task): TaskDto {
    TaskDto(t.id, t.title, t.done, t.due, t.createdAt, t.updatedAt)
  }

  // The DTO shows every column of the row except the deletion mark.
  predicate Shows(d: TaskDto, t: Task) {
    && d.id == t.id && d.title == t.title && d.done == t.done && d.due == t.due
    && d.createdAt == t.createdAt && d.updatedAt == t.updatedAt
  }

  predicate ShowsAll(ds: seq<TaskDto>, ts: seq<Task>) {
    |ds| == |ts| && forall i :: 0 <= i < |ts| ==> Shows(ds[i], ts[i])
  }

  lemma ShowsExactly(d: TaskDto, t: Task)
    ensures Shows(d, t) <==> d == TaskDto(t.id, t.title, t.done, t.due, t.createdAt, t.updatedAt)
  {
  }

  method ToResponses(ts: seq<Task>) returns (out: seq<TaskDto>)
    ensures ShowsAll(out, ts)
  {
    out := [];
    for n := 0 to |ts|
      invariant |out| == n && forall i :: 0 <= i < n ==> Shows(out[i], ts[i])
    {
      out := out + [ToResponse(ts[n])];
    }
  }

  // ----- error normalisation -----

  function GetError(id: nat, e: Chain): Chain {
    Wrap("get task " + Show(id), e)
  }

  function UpdateError(id: nat, e: Chain): Chain {
    Normalised("update task " + Show(id), e)
  }

  function DeleteError(id: nat, e: Chain): Chain {
    Normalised("delete task " + Show(id), e)
  }

  const TASK_NOT_FOUND := Response(404, Body("TASK_NOT_FOUND", "task not found", []))

  lemma {:induction false} NoAppNoMatch(e: Chain, target: AppError)
    requires AsApp(e) == None
    ensures !IsApp(e, target)
  {
    match e
    case Wrap(_, inner) => NoAppNoMatch(inner, target);
    case Join(left, right) =>
      NoAppNoMatch(left, target);
      NoAppNoMatch(right, target);
    case _ =>
  }

  // A driver error ends as the masked 500 on all three routes.
  lemma DriverErrorIsMasked(id: nat, e: Chain)
    requires DriverError(e)
    ensures IsMasked(Respond(GetError(id, e)))
    ensures IsMasked(Respond(UpdateError(id, e)))
    ensures IsMasked(Respond(DeleteError(id, e)))
  {
    NoAppNoMatch(e, ERR_NOT_FOUND);
  }

  // A missing task ends as the same 404 on all three routes, although Get and Delete wrap the
  // domain error, whose code no longer matches the generic one, and only Update replaces it.
  lemma MissingIsNotFound(id: nat)
    ensures Respond(GetError(id, App(ERR_TASK_NOT_FOUND))) == TASK_NOT_FOUND
    ensures Respond(UpdateError(id, App(ERR_NOT_FOUND))) == TASK_NOT_FOUND
    ensures Respond(DeleteError(id, App(ERR_TASK_NOT_FOUND))) == TASK_NOT_FOUND
    ensures !IsApp(App(ERR_TASK_NOT_FOUND), ERR_NOT_FOUND)
  {
    assert ERR_TASK_NOT_FOUND.code[0] == 'T' && ERR_NOT_FOUND.code[0] == 'N';
    var e := App(ERR_TASK_NOT_FOUND);
    assert AsFiber(GetError(id, e)) == AsFiber(e) == None && AsApp(GetError(id, e)) == AsApp(e);
    assert AsFiber(DeleteError(id, e)) == None && AsApp(DeleteError(id, e)) == AsApp(e);
  }

  class TaskService {
    const repo: GormRepository

    constructor (repo: GormRepository)
      ensures this.repo == repo
    {
      this.repo := repo;
    }

    method Get(id: nat, before: seq<Event>, fault: Option<Chain>) returns (r: Result<TaskDto, Chain>, c: nat)
      requires repo.db.Valid() && DriverFault(fault) && Spares(before, |repo.db.clients|)
      modifies repo.db
      ensures repo.Finished(c, GetReq(id)) && Answer(repo.db.clients[c], r)
      ensures r.Err? ==> r.error.Wrap? && r.error.text == "get task " + Show(id)
      ensures fault.Some? ==> r == Err(Wrap("get task " + Show(id), fault.value))
    {
      var t;
      t, c := repo.FindByID(id, before, fault);
      MissingIsNotFound(id);
      if t.Err? {
        if DriverError(t.error) { DriverErrorIsMasked(id, t.error); }
        return Err(GetError(id, t.error)), c;
      }
      r := Ok(ToResponse(t.value));
    }

    method Update(id: nat, req: UpdateRequest, now: Time, gaps: Gaps, faults: Faults)
      returns (r: Result<TaskDto, Chain>, c: nat)
      requires repo.db.Valid() && faults.Valid() && gaps.Spare(|repo.db.clients|)
      modifies repo.db
      ensures repo.Finished(c, UpdateReq(id, req)) && Answer(repo.db.clients[c], r)
      ensures r.Err? ==>
        r.error == App(ERR_TASK_NOT_FOUND) || (r.error.Wrap? && r.error.text == "update task " + Show(id))
      ensures faults.onRead.Some? ==> r == Err(Wrap("update task " + Show(id), faults.onRead.value))
    {
      var t;
      t, c := repo.Update(id, req, now, gaps, faults);
      MissingIsNotFound(id);
      if t.Err? {
        if DriverError(t.error) { DriverErrorIsMasked(id, t.error); }
        return Err(UpdateError(id, t.error)), c;
      }
      r := Ok(ToResponse(t.value));
    }

    method Delete(id: nat, before: seq<Event>, now: Time, fault: Option<Chain>) returns (r: Result<(), Chain>, c: nat)
      requires repo.db.Valid() && DriverFault(fault) && Spares(before, |repo.db.clients|)
      modifies repo.db
      ensures repo.Finished(c, DeleteReq(id))
      ensures DeleteAnswer(repo.db.clients[c], r)
      ensures r.Err? ==> r.error.Wrap? && r.error.text == "delete task " + Show(id)
      ensures fault.Some? ==> r == Err(Wrap("delete task " + Show(id), fault.value))
    {
      r, c := repo.Delete(id, before, now, fault);
      MissingIsNotFound(id);
      if r.Err? {
        if DriverError(r.error) { DriverErrorIsMasked(id, r.error); }
        return Err(DeleteError(id, r.error)), c;
      }
    }

    method List(page: int, limit: int, between: seq<Event>, onCount: Option<Chain>, onFind: Option<Chain>)
      returns (r: Result<(seq<TaskDto>, PageMeta), Chain>)
      requires repo.db.Valid() && IsInt64(page) && IsInt64(limit) && DriverFault(onCount) && DriverFault(onFind)
      modifies repo.db
      ensures repo.db.Valid()
      ensures r.Ok? <==> onCount.None? && onFind.None?
      ensures r.Err? ==>
        && r.error == Wrap("list tasks", if onCount.Some? then onCount.value else onFind.value)
        && IsMasked(Respond(r.error))
      ensures r.Ok? ==>
        var q := NewPageQuery(page, limit);
        var rows := Page(Run(RowLocks(repo.db.driver), old(repo.db.View()), between).table, q);
        ShowsAll(r.value.0, rows) && r.value.1 == NewPageMeta(q, Count(old(repo.db.View()).table))
      ensures r.Ok? ==>
        var m, total := r.value.1, Count(old(repo.db.View()).table);
        && m.page == (if page >= 1 then page else 1)
        && m.limit == (if limit < 1 then 20 else if limit > 100 then 100 else limit)
        && m.totalCount == total
        && (total + m.limit - 1 < TWO_63 ==>
              m.totalPages >= 0 && total <= RowsUpTo(m.totalPages, m.limit) < total + m.limit)
    {
      var q := NewPageQuery(page, limit);
      var l := repo.List(q, between, onCount, onFind);
      if l.Err? {
        return Err(Wrap("list tasks", l.error));
      }
      var items := ToResponses(l.value.0);
      var meta := NewPageMeta(q, l.value.1);
      if l.value.1 + q.limit - 1 < TWO_63 { CeilingBounds(q.limit, l.value.1, meta.totalPages); }
      r := Ok((items, meta));
    }
  }

  // How the end of an operation reads for the client of the API.
  ghost predicate ErrorAnswer(p: Phase, e: Chain) {
    if p.Failed? then IsMasked(Respond(e)) else p == Replied(NotFound) && Respond(e) == TASK_NOT_FOUND
  }

  ghost predicate Answer(k: Client, r: Result<TaskDto, Chain>) {
    match r
    case Ok(dto) => k.phase.Replied? && k.phase.reply.Row? && Shows(dto, k.phase.reply.task)
    case Err(e) => ErrorAnswer(k.phase, e)
  }

  ghost predicate DeleteAnswer(k: Client, r: Result<(), Chain>) {
    match r
    case Ok(_) => k.phase == Replied(Gone)
    case Err(e) => ErrorAnswer(k.phase, e)
  }

  // ----- the missing-task contract -----

  // Client c's operation took effect as the k-th of the serial order, on this table.
  ghost predicate TookEffect(tb: Table, s: State, c: nat, k: nat, on: Table) {
    && c < |s.clients| && k < |s.log| && s.log[k].client == c
    && on == Replay(tb, Ops(s.log)[..k])
    && s.clients[c].phase == Replied(Apply(on, s.log[k].op).1)
    && Answers(s.clients[c].req, s.log[k].op)
  }

  lemma EffectPoint(tb: Table, es: seq<Event>, s: State, c: nat) returns (k: nat, on: Table)
    requires WellFormed(tb) && s == Run(true, Init(tb), es)
    requires c < |s.clients| && s.clients[c].phase.Replied?
    ensures TookEffect(tb, s, c, k, on)
  {
    Serializable(tb, es, s);
    assert AnsweredOnce(s, c);
    k :| 0 <= k < |s.log| && s.log[k].client == c && s.log[k].reply == s.clients[c].phase.reply &&
         Answers(s.clients[c].req, s.log[k].op);
    on := Replay(tb, Ops(s.log)[..k]);
    assert InTurn(tb, s.log, k);
  }

  predicate OnTask(req: Request, id: nat) {
    (req.GetReq? || req.UpdateReq? || req.DeleteReq?) && req.id == id
  }

  // The answer is right for a table on which the task is live or not: NotFound exactly when it is
  // not, and a row only if the operation leaves that very row, live, in the table.
  ghost predicate RightAnswer(on: Table, op: Op, reply: Reply, id: nat) {
    && (reply == NotFound <==> !LiveIn(on.rows, id))
    && var after := Apply(on, op).0;
    && (reply.Row? ==> reply.task.id == id && LiveIn(after.rows, id) && after.rows[id] == reply.task)
    && (reply.Gone? ==> !LiveIn(after.rows, id))
  }

  // Whatever else goes on, a Get, Update or Delete of a task that got an answer got the right one
  // for the operation's place in the serial order: NotFound, which every route turns into
  // 404 TASK_NOT_FOUND, if and only if the task was absent or deleted there.
  lemma MissingTaskContract(tb: Table, es: seq<Event>, s: State, c: nat, id: nat)
    requires WellFormed(tb) && s == Run(true, Init(tb), es)
    requires c < |s.clients| && OnTask(s.clients[c].req, id) && s.clients[c].phase.Replied?
    ensures exists k: nat, on: Table ::
      TookEffect(tb, s, c, k, on) && RightAnswer(on, s.log[k].op, s.clients[c].phase.reply, id)
  {
    var k, on := EffectPoint(tb, es, s, c);
    ReplayExtends(tb, Ops(s.log)[..k]);
    assert RightAnswer(on, s.log[k].op, s.clients[c].phase.reply, id);
  }

  // The same for the service over any driver but sqlite, which all take row locks: what its answer
  // says of the task is true. A success shows the row as the operation left it at its place in the
  // serial order, live before and after; a 404 TASK_NOT_FOUND means that it was not live there.
  lemma AnswerIsTrue(svc: TaskService, c: nat, id: nat, r: Result<TaskDto, Chain>)
    requires svc.repo.db.Valid() && WellFormed(svc.repo.db.start) && svc.repo.db.driver != "sqlite"
    requires c < |svc.repo.db.clients| && OnTask(svc.repo.db.clients[c].req, id)
    requires Answer(svc.repo.db.clients[c], r)
    ensures (r.Ok? || Respond(r.error) == TASK_NOT_FOUND) ==>
      exists k: nat, on: Table ::
        && TookEffect(svc.repo.db.start, svc.repo.db.View(), c, k, on)
        && (r.Ok? <==> LiveIn(on.rows, id))
        && (r.Ok? ==> var after := Apply(on, svc.repo.db.log[k].op).0.rows;
              LiveIn(after, id) && Shows(r.value, after[id]))
  {
    var db := svc.repo.db;
    if db.clients[c].phase.Replied? {
      MissingTaskContract(db.start, db.trace, db.View(), c, id);
    }
  }

  // And for a delete: success means that the task was live at the delete's place in the serial
  // order and gone right after it, 404 that it was not live.
  lemma DeleteAnswerIsTrue(svc: TaskService, c: nat, id: nat, r: Result<(), Chain>)
    requires svc.repo.db.Valid() && WellFormed(svc.repo.db.start) && svc.repo.db.driver != "sqlite"
    requires c < |svc.repo.db.clients| && svc.repo.db.clients[c].req == DeleteReq(id)
    requires DeleteAnswer(svc.repo.db.clients[c], r)
    ensures (r.Ok? || Respond(r.error) == TASK_NOT_FOUND) ==>
      exists k: nat, on: Table ::
        && TookEffect(svc.repo.db.start, svc.repo.db.View(), c, k, on)
        && (r.Ok? <==> LiveIn(on.rows, id))
        && !LiveIn(Apply(on, svc.repo.db.log[k].op).0.rows, id)
  {
    var db := svc.repo.db;
    if db.clients[c].phase.Replied? {
      MissingTaskContract(db.start, db.trace, db.View(), c, id);
    }
  }
}
