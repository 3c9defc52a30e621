// The HTTP handlers of internal/modules/task/handler.go, from raw request parameters to a result
// or an error for the error handler.

module Handler {
  import opened Prelude
  import opened Decimal
  import opened Strconv
  import opened Patch
  import opened Pagination
  import opened Store
  import opened Listing
  import opened Errors
  import opened ErrorPipeline
  import opened Repository
  import opened Service

  const BAD_ID := "path parameter 'id' must be a positive integer"

  // The raw id denotes a positive 64-bit integer. No sign is accepted; leading zeros are.
  ghost predicate DenotesId(raw: string) {
    DenotesUint64(raw) && Value(raw) != 0
  }

  method ParseId(raw: string) returns (r: Result<nat, AppError>)
    ensures r.Ok? <==> DenotesId(raw)
    ensures r.Ok? ==> raw != [] && AllDigits(raw) && 0 < r.value == Value(raw) < TWO_64
    ensures r.Err? ==>
      Respond(App(r.error)) ==
      Response(400, Body("INVALID_REQUEST", "path parameter 'id' must be a positive integer", []))
    ensures forall id :: 0 < id < TWO_64 && raw == Show(id) ==> r == Ok(id)
  {
    var id := ParseUint(raw);
    forall k | 0 < k < TWO_64 && raw == Show(k)
      ensures DenotesUint64(raw) && Value(raw) == k
    {
      ShowDenotes(k);
    }
    r := if id.None? || id.value == 0 then Err(NewBadRequest(BAD_ID)) else Ok(id.value);
  }

  // The number atoiDefault makes of a query string.
  ghost function QueryNumber(raw: string, def: int): int {
    if DenotesInt64(raw) && SignedValue(raw) >= 1 then SignedValue(raw) else def
  }

  method AtoiDefault(raw: string, def: int) returns (n: int)
    ensures n == QueryNumber(raw, def)
    ensures forall k :: 1 <= k < TWO_63 && raw == Show(k) ==> n == k
    ensures forall k: nat :: raw == Show(0) || raw == "-" + Show(k) ==> n == def
    ensures n == def || n >= 1
  {
    var v := Atoi(raw);
    n := if v.None? || v.value < 1 then def else v.value;
  }

  // The page query that two raw query strings end up as.
  ghost function RequestedPage(rawPage: string, rawLimit: string): (q: PageQuery)
    ensures q.Valid()
    ensures q.page == QueryNumber(rawPage, 1)
    ensures q.limit == Min(QueryNumber(rawLimit, 20), 100)
  {
    NewPageQuery(QueryNumber(rawPage, DEFAULT_PAGE), QueryNumber(rawLimit, DEFAULT_LIMIT))
  }

  lemma QueryNumeral(n: nat, def: int)
    ensures 1 <= n < TWO_63 ==> QueryNumber(Show(n), def) == n
    ensures n == 0 || n >= TWO_63 ==> QueryNumber(Show(n), def) == def
    ensures QueryNumber("-" + Show(n), def) == def
  {
    ShowDenotes(n);
    SignedNumeral(Show(n));
  }

  // A plain page number asks for that page, a plain limit up to 100 for that limit.
  lemma AskedPage(n: nat, rawPage: string, rawLimit: string)
    ensures rawPage == Show(n) && 1 <= n < TWO_63 ==> RequestedPage(rawPage, rawLimit).page == n
    ensures rawLimit == Show(n) && 1 <= n <= 100 ==> RequestedPage(rawPage, rawLimit).limit == n
    ensures rawPage == "" ==> RequestedPage(rawPage, rawLimit).page == 1
    ensures rawLimit == "" ==> RequestedPage(rawPage, rawLimit).limit == 20
  {
    QueryNumeral(n, 1);
    QueryNumeral(n, 20);
  }

  class TaskHandler {
    const svc: TaskService

    constructor (svc: TaskService)
      ensures this.svc == svc
    {
      this.svc := svc;
    }

    ghost predicate Valid()
      reads svc.repo.db
    {
      svc.repo.db.Valid()
    }

    // A request refused before it reaches the service leaves the database alone.
    twostate predicate Refused(e: Chain, status: int)
      reads svc.repo.db
    {
      svc.repo.db.View() == old(svc.repo.db.View()) && Respond(e).status == status
    }

    method Get(rawId: string, before: seq<Event>, fault: Option<Chain>) returns (r: Result<TaskDto, Chain>, c: nat)
      requires Valid() && DriverFault(fault) && Spares(before, |svc.repo.db.clients|)
      modifies svc.repo.db
      ensures if DenotesId(rawId)
        then svc.repo.Finished(c, GetReq(Value(rawId))) && Answer(svc.repo.db.clients[c], r)
        else r.Err? && Refused(r.error, 400)
    {
      var id := ParseId(rawId);
      if id.Err? {
        return Err(App(id.error)), 0;
      }
      r, c := svc.Get(id.value, before, fault);
    }

    // `bound` is the outcome of binding and validating the body.
    method Update(rawId: string, bound: Result<UpdateRequest, Chain>, now: Time, gaps: Gaps, faults: Faults)
      returns (r: Result<TaskDto, Chain>, c: nat)
      requires Valid() && faults.Valid() && gaps.Spare(|svc.repo.db.clients|)
      modifies svc.repo.db
      ensures
        if !DenotesId(rawId) then r.Err? && Refused(r.error, 400)
        else if bound.Err? then
          r == Err(App(BindError(bound.error))) && svc.repo.db.View() == old(svc.repo.db.View())
        else svc.repo.Finished(c, UpdateReq(Value(rawId), bound.value)) && Answer(svc.repo.db.clients[c], r)
    {
      var id := ParseId(rawId);
      if id.Err? {
        return Err(App(id.error)), 0;
      }
      if bound.Err? {
        return Err(App(BindError(bound.error))), 0;
      }
      r, c := svc.Update(id.value, bound.value, now, gaps, faults);
    }

    method Delete(rawId: string, before: seq<Event>, now: Time, fault: Option<Chain>)
      returns (r: Result<(), Chain>, c: nat)
      requires Valid() && DriverFault(fault) && Spares(before, |svc.repo.db.clients|)
      modifies svc.repo.db
      ensures if DenotesId(rawId)
        then svc.repo.Finished(c, DeleteReq(Value(rawId))) &&
          DeleteAnswer(svc.repo.db.clients[c], r)
        else r.Err? && Refused(r.error, 400)
    {
      var id := ParseId(rawId);
      if id.Err? {
        return Err(App(id.error)), 0;
      }
      r, c := svc.Delete(id.value, before, now, fault);
    }

    method List(rawPage: string, rawLimit: string, between: seq<Event>, onCount: Option<Chain>, onFind: Option<Chain>)
      returns (r: Result<(seq<TaskDto>, PageMeta), Chain>)
      requires Valid() && DriverFault(onCount) && DriverFault(onFind)
      modifies svc.repo.db
      ensures Valid()
      ensures r.Ok? ==>
        var q := RequestedPage(rawPage, rawLimit);
        var rows := Page(Run(RowLocks(svc.repo.db.driver), old(svc.repo.db.View()), between).table, q);
        ShowsAll(r.value.0, rows) && r.value.1 == NewPageMeta(q, Count(old(svc.repo.db.View()).table))
      ensures r.Ok? ==>
        var m, total := r.value.1, Count(old(svc.repo.db.View()).table);
        && m.page == QueryNumber(rawPage, 1) && m.limit == Min(QueryNumber(rawLimit, 20), 100) && m.totalCount == total
        && (total + m.limit - 1 < TWO_63 ==>
              m.totalPages >= 0 && total <= RowsUpTo(m.totalPages, m.limit) < total + m.limit)
      ensures r.Err? ==> IsMasked(Respond(r.error)) && (onCount.Some? || onFind.Some?)
    {
      var page := AtoiDefault(rawPage, DEFAULT_PAGE);
      var limit := AtoiDefault(rawLimit, DEFAULT_LIMIT);
      r := svc.List(page, limit, between, onCount, onFind);
    }
  }
}
