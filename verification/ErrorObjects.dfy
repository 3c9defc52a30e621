// AppErrors as the objects they are. The catalogue is a set of shared mutable objects that every
// request hands around by pointer: errors.go, mapFiberError and errorHandler of
// internal/router/router.go, internal/validator/bind.go and effective_status.go over the heap.

module ErrorObjects {
  import opened Prelude
  import opened Decimal
  import opened Errors
  import opened ErrorPipeline

  // An error value. AppNode is a pointer.
  datatype Node =
    | Text(text: string)
    | Wrapped(text: string, inner: Node)
    | Joined(left: Node, right: Node)
    | FiberNode(fe: FiberError)
    | Invalid(fields: seq<FieldError>)
    | AppNode(app: AppErrorObject)

  class AppErrorObject {
    var code: string
    var status: int
    var message: string
    var details: seq<Detail>
    var err: Option<Node>

    constructor (code: string, status: int, message: string, details: seq<Detail>, err: Option<Node>)
      ensures this.code == code && this.status == status && this.message == message && this.details == details
      ensures this.err == err
    {
      this.code, this.status, this.message, this.details, this.err := code, status, message, details, err;
    }

    constructor Of(a: AppError)
      ensures Looks(a) && err.None?
    {
      code, status, message, details, err := a.code, a.status, a.message, a.details, None;
    }

    // Equality of everything a client can see.
    predicate Looks(a: AppError)
      reads this
    {
      code == a.code && status == a.status && message == a.message && details == a.details
    }

    // *e
    method Copy() returns (cp: AppErrorObject)
      ensures fresh(cp) && cp.code == code && cp.status == status && cp.message == message && cp.details == details
      ensures cp.err == err
    {
      cp := new AppErrorObject(code, status, message, details, err);
    }

    method WithCause(err: Option<Node>) returns (cp: AppErrorObject)
      ensures fresh(cp) && cp.code == code && cp.status == status && cp.message == message && cp.details == details
      ensures cp.err == err
    {
      cp := Copy();
      cp.err := err;
    }
  }

  // On the current heap the error is the chain e, its pointers leading to objects of `among`.
  ghost predicate Denotes(n: Node, e: Chain, among: set<AppErrorObject>)
    reads among
    decreases e
  {
    match e
    case Plain(text) => n == Text(text)
    case Wrap(text, inner) => n.Wrapped? && n.text == text && Denotes(n.inner, inner, among)
    case Join(left, right) => n.Joined? && Denotes(n.left, left, among) && Denotes(n.right, right, among)
    case Fiber(fe) => n == FiberNode(fe)
    case Violations(fields) => n == Invalid(fields)
    case App(a) =>
      && n.AppNode? && n.app in among && n.app.Looks(a)
      && (a.cause.None? <==> n.app.err.None?)
      && (a.cause.Some? ==> Denotes(n.app.err.value, a.cause.value, among))
  }

  lemma {:induction false} DenotesMore(n: Node, e: Chain, among: set<AppErrorObject>, more: set<AppErrorObject>)
    requires Denotes(n, e, among) && among <= more
    ensures Denotes(n, e, more)
    decreases e
  {
    match e
    case Wrap(_, inner) => DenotesMore(n.inner, inner, among, more);
    case Join(left, right) =>
      DenotesMore(n.left, left, among, more);
      DenotesMore(n.right, right, among, more);
    case App(a) => if a.cause.Some? { DenotesMore(n.app.err.value, a.cause.value, among, more); }
    case _ =>
  }

  // ----- the catalogue -----

  datatype Sentinel =
    | InvalidRequest | NotFound | Conflict | Internal | Unauthorized | InvalidCredential | TaskNotFound | RateLimited

  // The fields each sentinel is initialised with.
  function Initial(s: Sentinel): AppError {
    match s
    case InvalidRequest => ERR_INVALID_REQUEST
    case NotFound => ERR_NOT_FOUND
    case Conflict => ERR_CONFLICT
    case Internal => ERR_INTERNAL
    case Unauthorized => ERR_UNAUTHORIZED
    case InvalidCredential => ERR_INVALID_CREDENTIAL
    case TaskNotFound => ERR_TASK_NOT_FOUND
    case RateLimited => ERR_RATE_LIMITED
  }

  // What a client gets for each of them.
  lemma SentinelAnswers()
    ensures Respond(App(Initial(InvalidRequest))) == Response(422, Body("INVALID_REQUEST", "invalid request", []))
    ensures Respond(App(Initial(NotFound))) == Response(404, Body("NOT_FOUND", "resource not found", []))
    ensures Respond(App(Initial(Conflict))) == Response(409, Body("CONFLICT", "resource conflict", []))
    ensures Respond(App(Initial(Internal))) == Response(500, Body("INTERNAL_ERROR", "internal server error", []))
    ensures Respond(App(Initial(Unauthorized))) == Response(401, Body("UNAUTHORIZED", "authentication required", []))
    ensures Respond(App(Initial(InvalidCredential))) ==
      Response(401, Body("INVALID_CREDENTIALS", "invalid username or password", []))
    ensures Respond(App(Initial(TaskNotFound))) == Response(404, Body("TASK_NOT_FOUND", "task not found", []))
    ensures Respond(App(Initial(RateLimited))) == Response(429, Body("RATE_LIMITED", "too many requests", []))
  {
  }

  const SENTINELS := [
    InvalidRequest, NotFound, Conflict, Internal, Unauthorized, InvalidCredential, TaskNotFound, RateLimited]

  lemma SentinelsComplete(s: Sentinel)
    ensures s in SENTINELS
  {
    var k := match s
      case InvalidRequest => 0
      case NotFound => 1
      case Conflict => 2
      case Internal => 3
      case Unauthorized => 4
      case InvalidCredential => 5
      case TaskNotFound => 6
      case RateLimited => 7;
    assert SENTINELS[k] == s;
  }

  // The package-level variables, set up one after another when the program starts.
  class Catalogue {
    const shared: map<Sentinel, AppErrorObject>

    constructor ()
      ensures Intact() && fresh(Objects())
    {
      var vars: map<Sentinel, AppErrorObject> := map[];
      for k := 0 to |SENTINELS|
        invariant forall s :: s in SENTINELS[..k] ==> s in vars
        invariant forall s :: s in vars ==> fresh(vars[s]) && vars[s].Looks(Initial(s)) && vars[s].err.None?
      {
        var p := new AppErrorObject.Of(Initial(SENTINELS[k]));
        vars := vars[SENTINELS[k] := p];
      }
      forall s: Sentinel ensures s in vars { SentinelsComplete(s); }
      shared := vars;
    }

    ghost predicate Complete() {
      forall s: Sentinel :: s in shared
    }

    function At(s: Sentinel): AppErrorObject
      requires Complete()
    {
      shared[s]
    }

    ghost function Objects(): set<AppErrorObject> {
      shared.Values
    }

    // Every sentinel is as it was initialised.
    ghost predicate Intact()
      reads Objects()
    {
      Complete() && forall s: Sentinel :: At(s).Looks(Initial(s)) && At(s).err.None?
    }
  }

  // ----- errors.As and errors.Is over the heap -----

  method FindFiber(n: Node, ghost e: Chain, ghost among: set<AppErrorObject>) returns (r: Option<FiberError>)
    requires Denotes(n, e, among)
    ensures r == AsFiber(e)
    decreases e
  {
    match n
    case FiberNode(fe) => r := Some(fe);
    case Wrapped(_, inner) => r := FindFiber(inner, e.inner, among);
    case Joined(left, right) =>
      r := FindFiber(left, e.left, among);
      if r.None? {
        r := FindFiber(right, e.right, among);
      }
    case AppNode(app) =>
      r := None;
      if app.err.Some? {
        r := FindFiber(app.err.value, e.app.cause.value, among);
      }
    case _ => r := None;
  }

  method FindInvalid(n: Node, ghost e: Chain, ghost among: set<AppErrorObject>) returns (r: Option<seq<FieldError>>)
    requires Denotes(n, e, among)
    ensures r == AsViolations(e)
    decreases e
  {
    match n
    case Invalid(fields) => r := Some(fields);
    case Wrapped(_, inner) => r := FindInvalid(inner, e.inner, among);
    case Joined(left, right) =>
      r := FindInvalid(left, e.left, among);
      if r.None? {
        r := FindInvalid(right, e.right, among);
      }
    case AppNode(app) =>
      r := None;
      if app.err.Some? {
        r := FindInvalid(app.err.value, e.app.cause.value, among);
      }
    case _ => r := None;
  }

  // errors.As for an AppError hands out the very object that is in the chain.
  method FindApp(n: Node, ghost e: Chain, ghost among: set<AppErrorObject>) returns (r: Option<AppErrorObject>)
    requires Denotes(n, e, among)
    ensures r.Some? <==> AsApp(e).Some?
    ensures r.Some? ==> r.value in among && Denotes(AppNode(r.value), App(AsApp(e).value), among)
    decreases e
  {
    match n
    case AppNode(app) => r := Some(app);
    case Wrapped(_, inner) => r := FindApp(inner, e.inner, among);
    case Joined(left, right) =>
      r := FindApp(left, e.left, among);
      if r.None? {
        r := FindApp(right, e.right, among);
      }
    case _ => r := None;
  }

  // errors.Is against an AppError.
  method HasCode(n: Node, target: AppErrorObject, ghost a: AppError, ghost e: Chain, ghost among: set<AppErrorObject>)
    returns (b: bool)
    requires Denotes(n, e, among) && target.Looks(a)
    ensures b <==> IsApp(e, a)
    decreases e
  {
    match n
    case AppNode(app) =>
      b := app.code == target.code;
      if !b && app.err.Some? {
        b := HasCode(app.err.value, target, a, e.app.cause.value, among);
      }
    case Wrapped(_, inner) => b := HasCode(inner, target, a, e.inner, among);
    case Joined(left, right) =>
      b := HasCode(left, target, a, e.left, among);
      if !b {
        b := HasCode(right, target, a, e.right, among);
      }
    case _ => b := false;
  }

  // ----- the pipeline -----

  // The AppError of the chain itself, or a new INTERNAL_ERROR around it.
  method AsAppError(cat: Catalogue, n: Node, ghost e: Chain, ghost among: set<AppErrorObject>)
    returns (p: AppErrorObject)
    requires cat.Intact() && Denotes(n, e, among)
    ensures if AsApp(e).Some? then p in among else fresh(p)
    ensures p.Looks(Errors.AsAppError(Some(e)))
  {
    var found := FindApp(n, e, among);
    if found.Some? {
      return found.value;
    }
    p := cat.At(Internal).WithCause(Some(n));
  }

  method MapFiberError(cat: Catalogue, fe: FiberError) returns (p: AppErrorObject)
    requires cat.Intact()
    ensures fresh(p) && Denotes(AppNode(p), App(ErrorPipeline.MapFiberError(fe)), {p})
  {
    if fe.code == 404 {
      p := cat.At(NotFound).WithCause(Some(FiberNode(fe)));
    } else if fe.code == 429 {
      p := cat.At(RateLimited).WithCause(Some(FiberNode(fe)));
    } else if fe.code == 413 {
      p := new AppErrorObject("PAYLOAD_TOO_LARGE", 413, "request body too large", [], None);
    } else {
      p := new AppErrorObject("HTTP_" + Itoa(fe.code), fe.code, fe.message, [], None);
    }
  }

  datatype Level = Error | Warn

  // The response under construction and the log.
  class Ctx {
    var status: int
    var body: Option<Body>
    var log: seq<Level>

    constructor (written: int)
      ensures status == written && body == None && log == []
    {
      status, body, log := written, None, [];
    }

    // c.Status(code).JSON(httpx.ErrorBody(p))
    method Send(code: int, p: AppErrorObject)
      modifies this
      ensures status == code && log == old(log)
      ensures forall a :: p.Looks(a) ==> body == Some(ErrorBody(a))
    {
      status, body := code, Some(Body(p.code, p.message, p.details));
    }
  }

  // The handler answers any chain, shared objects in it or not, as the value says, and writes to
  // the response only.
  method ErrorHandler(cat: Catalogue, c: Ctx, n: Node, ghost e: Chain, ghost among: set<AppErrorObject>)
    requires cat.Intact() && Denotes(n, e, among)
    modifies c
    ensures c.status == Respond(e).status && c.body == Some(Respond(e).body)
    ensures c.log == old(c.log) + if AsFiber(e).Some? then [] else if c.status >= 500 then [Error] else [Warn]
  {
    var fe := FindFiber(n, e, among);
    if fe.Some? {
      var mapped := MapFiberError(cat, fe.value);
      assert mapped.Looks(ErrorPipeline.MapFiberError(fe.value));
      c.Send(fe.value.code, mapped);
      return;
    }
    var p := AsAppError(cat, n, e, among);
    if p.status >= 500 {
      c.log := c.log + [Error];
      var safe := cat.At(Internal).Copy();
      c.Send(safe.status, safe);
      return;
    }
    c.log := c.log + [Warn];
    c.Send(p.status, p);
  }

  method EffectiveStatus(cat: Catalogue, written: int, n: Node, ghost e: Chain, ghost among: set<AppErrorObject>)
    returns (status: int)
    requires cat.Intact() && Denotes(n, e, among)
    ensures status == ErrorPipeline.EffectiveStatus(written, Some(e))
  {
    var fe := FindFiber(n, e, among);
    if fe.Some? {
      return fe.value.code;
    }
    var p := AsAppError(cat, n, e, among);
    status := if p.status >= 500 then 500 else p.status;
  }

  method BindErrorToAppError(n: Node, ghost e: Chain, ghost among: set<AppErrorObject>) returns (p: AppErrorObject)
    requires Denotes(n, e, among)
    ensures fresh(p) && Denotes(AppNode(p), App(BindError(e)), among + {p})
  {
    var v := FindInvalid(n, e, among);
    var base;
    if v.Some? {
      var details: seq<Detail> := [];
      for i := 0 to |v.value|
        invariant Describes(details, v.value[..i])
      {
        details := details + [Detail(v.value[i].field, v.value[i].actualTag)];
      }
      assert details == DetailsOf(v.value);
      base := new AppErrorObject.Of(NewValidation(details));
    } else {
      base := new AppErrorObject.Of(NewBadRequest("malformed request body"));
    }
    p := base.WithCause(Some(n));
    DenotesMore(n, e, among, among + {p});
  }

  // ----- where the errors of a request come from -----

  // An AppError before a cause is attached: a shared one, or a literal.
  datatype Base = Shared(s: Sentinel) | Literal(code: string, status: int, message: string, details: seq<Detail>)

  // How the layers make an error on the way up.
  datatype Raise =
    | Foreign(text: string)                  // an error of a driver or a library
    | Framework(fe: FiberError)
    | Validation(fields: seq<FieldError>)
    | Context(text: string, inner: Raise)    // fmt.Errorf with %w
    | Both(left: Raise, right: Raise)        // two errors wrapped in one
    | Return(b: Base)
    | Attach(b: Base, cause: Raise)          // WithCause
    | Binding(cause: Raise)                  // BindErrorToAppError
    | Normalise(text: string, inner: Raise)  // the service's reading of a repository error

  function BaseValue(b: Base): (a: AppError)
    ensures a.cause.None?
  {
    match b
    case Shared(s) => Initial(s)
    case Literal(code, status, message, details) => AppError(code, status, message, details, None)
  }

  // The chain that a request raises, as a value: what it would be if nothing were shared.
  function Meaning(r: Raise): Chain {
    match r
    case Foreign(text) => Plain(text)
    case Framework(fe) => Fiber(fe)
    case Validation(fields) => Violations(fields)
    case Context(text, inner) => Wrap(text, Meaning(inner))
    case Both(left, right) => Join(Meaning(left), Meaning(right))
    case Return(b) => App(BaseValue(b))
    case Attach(b, cause) => App(BaseValue(b).WithCause(Some(Meaning(cause))))
    case Binding(cause) => App(BindError(Meaning(cause)))
    case Normalise(text, inner) => Normalised(text, Meaning(inner))
  }

  // What some of them end as: a repository error on its way through the service,
  lemma NormalisedAnswers(text: string)
    ensures Respond(Meaning(Normalise(text, Return(Shared(NotFound))))) ==
      Response(404, Body("TASK_NOT_FOUND", "task not found", []))
    ensures IsMasked(Respond(Meaning(Normalise(text, Foreign("connection refused")))))
  {
    var e := Plain("connection refused");
    assert Meaning(Normalise(text, Foreign("connection refused"))) == Wrap(text, e);
    assert AsFiber(Wrap(text, e)) == AsFiber(e) == None && AsApp(Wrap(text, e)) == AsApp(e) == None;
  }

  // a shared error with context, and one with a cause,
  lemma SharedAnswers(text: string)
    ensures Respond(Meaning(Context(text, Return(Shared(TaskNotFound))))) ==
      Response(404, Body("TASK_NOT_FOUND", "task not found", []))
    ensures Respond(Meaning(Attach(Shared(Unauthorized), Foreign("invalid token")))) ==
      Response(401, Body("UNAUTHORIZED", "authentication required", []))
  {
    var e := App(ERR_TASK_NOT_FOUND);
    assert AsFiber(Wrap(text, e)) == AsFiber(e) == None && AsApp(Wrap(text, e)) == AsApp(e);
  }

  // and the two kinds of binding failures.
  lemma BindingAnswers()
    ensures Respond(Meaning(Binding(Validation([FieldError("Title", "nonempty", "required")])))) ==
      Response(422, Body("INVALID_REQUEST", "validation failed", [Detail("Title", "required")]))
    ensures Respond(Meaning(Binding(Foreign("unexpected end of input")))) ==
      Response(400, Body("INVALID_REQUEST", "malformed request body", []))
  {
    assert DetailsOf([FieldError("Title", "nonempty", "required")]) == [Detail("Title", "required")];
  }

  // There is no error chain that a request could not raise.
  lemma {:induction false} EveryChainIsRaised(e: Chain) returns (r: Raise)
    ensures Meaning(r) == e
  {
    match e
    case Plain(text) => r := Foreign(text);
    case Fiber(fe) => r := Framework(fe);
    case Violations(fields) => r := Validation(fields);
    case Wrap(text, inner) =>
      var i := EveryChainIsRaised(inner);
      r := Context(text, i);
    case Join(left, right) =>
      var l := EveryChainIsRaised(left);
      var m := EveryChainIsRaised(right);
      r := Both(l, m);
    case App(a) =>
      var b := Literal(a.code, a.status, a.message, a.details);
      if a.cause.Some? {
        var c := EveryChainIsRaised(a.cause.value);
        r := Attach(b, c);
      } else {
        r := Return(b);
      }
  }

  // The objects of a chain are the shared ones and new ones.
  twostate predicate Own(cat: Catalogue, new among: set<AppErrorObject>) {
    cat.Objects() <= among && forall p :: p in among && p !in cat.Objects() ==> fresh(p)
  }

  method NewBase(cat: Catalogue, b: Base) returns (p: AppErrorObject, ghost among: set<AppErrorObject>)
    requires cat.Intact()
    ensures Own(cat, among) && Denotes(AppNode(p), App(BaseValue(b)), among)
  {
    match b
    case Shared(s) =>
      p, among := cat.At(s), cat.Objects();
    case Literal(code, status, message, details) =>
      p := new AppErrorObject(code, status, message, details, None);
      among := cat.Objects() + {p};
  }

  method Build(cat: Catalogue, r: Raise) returns (n: Node, ghost among: set<AppErrorObject>)
    requires cat.Intact()
    ensures Own(cat, among) && Denotes(n, Meaning(r), among)
    decreases r
  {
    among := cat.Objects();
    match r
    case Foreign(text) => n := Text(text);
    case Framework(fe) => n := FiberNode(fe);
    case Validation(fields) => n := Invalid(fields);
    case Context(text, inner) =>
      var m;
      m, among := Build(cat, inner);
      n := Wrapped(text, m);
    case Both(left, right) =>
      var l, m;
      ghost var a, b;
      l, a := Build(cat, left);
      m, b := Build(cat, right);
      among := a + b;
      DenotesMore(l, Meaning(left), a, among);
      DenotesMore(m, Meaning(right), b, among);
      n := Joined(l, m);
    case Return(b) =>
      var p;
      p, among := NewBase(cat, b);
      n := AppNode(p);
    case Attach(b, cause) =>
      var m, p;
      ghost var a, unused;
      m, a := Build(cat, cause);
      p, unused := NewBase(cat, b);
      p := p.WithCause(Some(m));
      among := a + {p};
      DenotesMore(m, Meaning(cause), a, among);
      n := AppNode(p);
    case Binding(cause) =>
      var m;
      ghost var a;
      m, a := Build(cat, cause);
      var p := BindErrorToAppError(m, Meaning(cause), a);
      among := a + {p};
      n := AppNode(p);
    case Normalise(text, inner) =>
      var m;
      m, among := Build(cat, inner);
      var missing := HasCode(m, cat.At(NotFound), ERR_NOT_FOUND, Meaning(inner), among);
      if missing {
        n := AppNode(cat.At(TaskNotFound));
      } else {
        n := Wrapped(text, m);
      }
  }

  // ----- whole runs -----

  // Where a failing request is: it has raised its error, which is on its way up; the collectors have
  // recorded a status; the error handler has answered.
  datatype Slot =
    | Waiting
    | Raised(n: Node)
    | Recorded(n: Node, recorded: int)
    | Answered(recorded: int, sent: Response)

  function Stage(x: Slot): nat {
    match x
    case Waiting => 0
    case Raised(_) => 1
    case Recorded(_, _) => 2
    case Answered(_, _) => 3
  }

  // What the slot of a request that raises r may hold.
  ghost predicate SlotOk(x: Slot, r: Raise, among: set<AppErrorObject>)
    reads among
  {
    match x
    case Waiting => true
    case Raised(n) => Denotes(n, Meaning(r), among)
    case Recorded(n, recorded) => Denotes(n, Meaning(r), among) && recorded == Respond(Meaning(r)).status
    case Answered(recorded, sent) => sent == Respond(Meaning(r)) && recorded == sent.status
  }

  // One step of a request.
  method Advance(cat: Catalogue, x: Slot, r: Raise, ghost among: set<AppErrorObject>)
    returns (y: Slot, ghost group: set<AppErrorObject>)
    requires cat.Intact() && SlotOk(x, r, among)
    ensures SlotOk(y, r, group) && Stage(y) == Min(Stage(x) + 1, 3)
  {
    y, group := x, among;
    match x {
      case Waiting =>
        var n;
        n, group := Build(cat, r);
        y := Raised(n);
      case Raised(n) =>
        var status := EffectiveStatus(cat, 200, n, Meaning(r), among);
        StatusAgreement(Meaning(r), 200);
        y := Recorded(n, status);
      case Recorded(n, recorded) =>
        var c := new Ctx(200);
        ErrorHandler(cat, c, n, Meaning(r), among);
        y := Answered(recorded, Response(c.status, c.body.value));
      case Answered(_, _) =>
    }
  }

  // Requests fail in any way whatever, at the same time and sharing the catalogue; schedule[k] is the
  // request that moves at step k. No sentinel is ever written to, so every response is the one of the
  // error as a value, whatever else is going on, and the collectors record its status.
  method Serve(cat: Catalogue, raises: seq<Raise>, schedule: seq<nat>) returns (slots: seq<Slot>)
    requires cat.Intact()
    ensures cat.Intact() && forall p :: p in cat.Objects() ==> unchanged(p)
    ensures |slots| == |raises|
    ensures forall i :: 0 <= i < |slots| ==> Stage(slots[i]) == Min(multiset(schedule)[i], 3)
    ensures forall i :: 0 <= i < |slots| && slots[i].Answered? ==>
      slots[i].sent == Respond(Meaning(raises[i])) && slots[i].recorded == slots[i].sent.status
  {
    slots := seq(|raises|, _ => Waiting);
    ghost var groups: seq<set<AppErrorObject>> := seq(|raises|, _ => {});
    for k := 0 to |schedule|
      invariant |slots| == |groups| == |raises|
      invariant forall i :: 0 <= i < |slots| ==> SlotOk(slots[i], raises[i], groups[i])
      invariant forall i :: 0 <= i < |slots| ==> Stage(slots[i]) == Min(multiset(schedule[..k])[i], 3)
    {
      var i := schedule[k];
      assert schedule[..k + 1] == schedule[..k] + [i];
      if i < |slots| {
        var y;
        ghost var group;
        y, group := Advance(cat, slots[i], raises[i], groups[i]);
        slots, groups := slots[i := y], groups[i := group];
      }
    }
    assert schedule[..|schedule|] == schedule;
  }
}
