// Error chains (internal/apperror/errors.go, internal/validator/bind.go) and how Go's
// errors.Is and errors.As search them.

module Errors {
  import opened Prelude

  datatype Detail = Detail(field: string, reason: string)

  // validator.FieldError: the violated tag as it is written, which may be an alias, and the tag
  // it stands for.
  datatype FieldError = FieldError(field: string, tag: string, actualTag: string)

  // Plain is an error that wraps nothing, known by its text; Wrap is fmt.Errorf with one %w; Join
  // wraps two errors; Fiber is a *fiber.Error; Violations is a validator.ValidationErrors.
  datatype Chain =
    | Plain(text: string)
    | Wrap(text: string, inner: Chain)
    | Join(left: Chain, right: Chain)
    | Fiber(fe: FiberError)
    | Violations(fields: seq<FieldError>)
    | App(app: AppError)

  datatype FiberError = FiberError(code: int, message: string)

  datatype AppError = AppError(
    code: string, status: int, message: string, details: seq<Detail>, cause: Option<Chain>)
  {
    // Equality of everything a client can see.
    ghost predicate Looks(other: AppError) {
      code == other.code && status == other.status && message == other.message && details == other.details
    }

    function WithCause(err: Option<Chain>): AppError {
      this.(cause := err)
    }
  }

  // ----- the catalogue -----

  const ERR_INVALID_REQUEST := AppError("INVALID_REQUEST", 422, "invalid request", [], None)
  const ERR_NOT_FOUND := AppError("NOT_FOUND", 404, "resource not found", [], None)
  const ERR_CONFLICT := AppError("CONFLICT", 409, "resource conflict", [], None)
  const ERR_INTERNAL := AppError("INTERNAL_ERROR", 500, "internal server error", [], None)
  const ERR_UNAUTHORIZED := AppError("UNAUTHORIZED", 401, "authentication required", [], None)
  const ERR_INVALID_CREDENTIAL := AppError("INVALID_CREDENTIALS", 401, "invalid username or password", [], None)
  const ERR_TASK_NOT_FOUND := AppError("TASK_NOT_FOUND", 404, "task not found", [], None)
  const ERR_RATE_LIMITED := AppError("RATE_LIMITED", 429, "too many requests", [], None)

  function NewBadRequest(msg: string): AppError {
    AppError("INVALID_REQUEST", 400, msg, [], None)
  }

  function NewValidation(details: seq<Detail>): AppError {
    AppError("INVALID_REQUEST", 422, "validation failed", details, None)
  }

  // ----- errors.As and errors.Is -----

  function OrElse<T>(a: Option<T>, b: Option<T>): Option<T> {
    if a.Some? then a else b
  }

  // errors.As(err, **fiber.Error): looks inside an AppError's cause as well.
  function AsFiber(e: Chain): Option<FiberError> {
    match e
    case Fiber(fe) => Some(fe)
    case Wrap(_, inner) => AsFiber(inner)
    case Join(left, right) => OrElse(AsFiber(left), AsFiber(right))
    case App(app) => if app.cause.Some? then AsFiber(app.cause.value) else None
    case _ => None
  }

  // errors.As(err, **AppError)
  function AsApp(e: Chain): Option<AppError> {
    match e
    case App(app) => Some(app)
    case Wrap(_, inner) => AsApp(inner)
    case Join(left, right) => OrElse(AsApp(left), AsApp(right))
    case _ => None
  }

  // errors.As(err, *validator.ValidationErrors)
  function AsViolations(e: Chain): Option<seq<FieldError>> {
    match e
    case Violations(fields) => Some(fields)
    case Wrap(_, inner) => AsViolations(inner)
    case Join(left, right) => OrElse(AsViolations(left), AsViolations(right))
    case App(app) => if app.cause.Some? then AsViolations(app.cause.value) else None
    case _ => None
  }

  // errors.Is(err, target) for a target that is an AppError: AppError.Is compares codes.
  predicate IsApp(e: Chain, target: AppError) {
    match e
    case App(app) => app.code == target.code || (app.cause.Some? && IsApp(app.cause.value, target))
    case Wrap(_, inner) => IsApp(inner, target)
    case Join(left, right) => IsApp(left, target) || IsApp(right, target)
    case _ => false
  }

  // errors.Is(err, target) for a sentinel without an Is method, such as gorm.ErrRecordNotFound.
  predicate IsPlain(e: Chain, text: string) {
    match e
    case Plain(t) => t == text
    case Wrap(_, inner) => IsPlain(inner, text)
    case Join(left, right) => IsPlain(left, text) || IsPlain(right, text)
    case App(app) => app.cause.Some? && IsPlain(app.cause.value, text)
    case _ => false
  }

  function AsAppError(e: Option<Chain>): AppError {
    if e.Some? && AsApp(e.value).Some? then AsApp(e.value).value else ERR_INTERNAL.WithCause(e)
  }

  // What the service makes of an error of its repository's Update or Delete: the generic not-found
  // becomes the domain one, anything else gets context.
  function Normalised(text: string, e: Chain): Chain {
    if IsApp(e, ERR_NOT_FOUND) then App(ERR_TASK_NOT_FOUND) else Wrap(text, e)
  }

  // ----- an independent reading: the chain as the list of errors one meets unwrapping it -----

  function Unwrapped(e: Chain): seq<Chain> {
    match e
    case Wrap(_, inner) => [e] + Unwrapped(inner)
    case Join(left, right) => [e] + Unwrapped(left) + Unwrapped(right)
    case App(app) => [e] + if app.cause.Some? then Unwrapped(app.cause.value) else []
    case _ => [e]
  }

  function FirstFiber(es: seq<Chain>): Option<FiberError> {
    if es == [] then None else if es[0].Fiber? then Some(es[0].fe) else FirstFiber(es[1..])
  }

  function FirstApp(es: seq<Chain>): Option<AppError> {
    if es == [] then None else if es[0].App? then Some(es[0].app) else FirstApp(es[1..])
  }

  function FirstViolations(es: seq<Chain>): Option<seq<FieldError>> {
    if es == [] then None else if es[0].Violations? then Some(es[0].fields) else FirstViolations(es[1..])
  }

  ghost predicate Mentions(es: seq<Chain>, code: string) {
    exists k :: 0 <= k < |es| && es[k].App? && es[k].app.code == code
  }

  lemma {:induction false} FirstOfAppend(a: seq<Chain>, b: seq<Chain>)
    ensures FirstFiber(a + b) == OrElse(FirstFiber(a), FirstFiber(b))
    ensures FirstApp(a + b) == OrElse(FirstApp(a), FirstApp(b))
    ensures FirstViolations(a + b) == OrElse(FirstViolations(a), FirstViolations(b))
  {
    if a == [] {
      assert a + b == b;
    } else {
      assert (a + b)[1..] == a[1..] + b;
      FirstOfAppend(a[1..], b);
    }
  }

  // The recursive searches find the first match in unwrapping order. An AppError hides nothing:
  // the fiber error in its cause is found, and no fiber error hides an AppError.
  lemma {:induction false} SearchFindsFirst(e: Chain)
    ensures AsFiber(e) == FirstFiber(Unwrapped(e))
    ensures AsApp(e) == FirstApp(Unwrapped(e))
    ensures AsViolations(e) == FirstViolations(Unwrapped(e))
  {
    match e
    case Wrap(_, inner) =>
      SearchFindsFirst(inner);
      FirstOfAppend([e], Unwrapped(inner));
    case Join(left, right) =>
      SearchFindsFirst(left);
      SearchFindsFirst(right);
      FirstOfAppend([e] + Unwrapped(left), Unwrapped(right));
      FirstOfAppend([e], Unwrapped(left));
    case App(app) =>
      if app.cause.Some? {
        SearchFindsFirst(app.cause.value);
        FirstOfAppend([e], Unwrapped(app.cause.value));
      }
    case _ =>
  }

  lemma MentionsAppend(a: seq<Chain>, b: seq<Chain>, code: string)
    ensures Mentions(a + b, code) <==> Mentions(a, code) || Mentions(b, code)
  {
    if Mentions(a, code) {
      var k :| 0 <= k < |a| && a[k].App? && a[k].app.code == code;
      assert (a + b)[k] == a[k];
    }
    if Mentions(b, code) {
      var k :| 0 <= k < |b| && b[k].App? && b[k].app.code == code;
      assert (a + b)[|a| + k] == b[k];
    }
  }

  // errors.Is against an AppError holds exactly when some AppError in the chain has its code; so
  // attaching a cause or wrapping never breaks a match.
  lemma {:induction false} IsComparesCodes(e: Chain, target: AppError)
    ensures IsApp(e, target) <==> Mentions(Unwrapped(e), target.code)
  {
    match e
    case Wrap(_, inner) =>
      IsComparesCodes(inner, target);
      MentionsAppend([e], Unwrapped(inner), target.code);
    case Join(left, right) =>
      IsComparesCodes(left, target);
      IsComparesCodes(right, target);
      MentionsAppend([e] + Unwrapped(left), Unwrapped(right), target.code);
      MentionsAppend([e], Unwrapped(left), target.code);
    case App(app) =>
      if app.cause.Some? {
        IsComparesCodes(app.cause.value, target);
        MentionsAppend([e], Unwrapped(app.cause.value), target.code);
      }
      assert Unwrapped(e)[0] == e;
    case _ =>
  }

  // errors.Is against a sentinel without an Is method holds exactly when the chain has it somewhere.
  lemma {:induction false} IsPlainFindsIt(e: Chain, text: string)
    ensures IsPlain(e, text) <==> Plain(text) in Unwrapped(e)
  {
    match e
    case Wrap(_, inner) => IsPlainFindsIt(inner, text);
    case Join(left, right) =>
      IsPlainFindsIt(left, text);
      IsPlainFindsIt(right, text);
    case App(app) => if app.cause.Some? { IsPlainFindsIt(app.cause.value, text); }
    case _ =>
  }

  // The unwrapping order, on a chain that has everything in it: an error before what it wraps, the
  // first of two joined errors before the second.
  lemma UnwrappingOrder(a: Chain, b: FiberError, c: FiberError)
    requires a.Plain?
    ensures var app := AppError("X", 400, "x", [], Some(Join(Fiber(b), Fiber(c))));
      var e := Wrap("w", Join(a, App(app)));
      Unwrapped(e) == [e, Join(a, App(app)), a, App(app), Join(Fiber(b), Fiber(c)), Fiber(b), Fiber(c)]
  {
    var both := Join(Fiber(b), Fiber(c));
    var app := AppError("X", 400, "x", [], Some(both));
    assert Unwrapped(both) == [both, Fiber(b), Fiber(c)];
    assert Unwrapped(App(app)) == [App(app), both, Fiber(b), Fiber(c)];
    assert Unwrapped(Join(a, App(app))) == [Join(a, App(app)), a, App(app), both, Fiber(b), Fiber(c)];
  }

  // ----- binding errors -----

  // One detail per violated field, in order, giving the tag that an alias stands for.
  predicate Describes(ds: seq<Detail>, fields: seq<FieldError>) {
    |ds| == |fields| &&
    forall i :: 0 <= i < |ds| ==> ds[i].field == fields[i].field && ds[i].reason == fields[i].actualTag
  }

  function DetailsOf(fields: seq<FieldError>): (ds: seq<Detail>)
    ensures Describes(ds, fields)
  {
    if fields == [] then [] else [Detail(fields[0].field, fields[0].actualTag)] + DetailsOf(fields[1..])
  }

  // What BindErrorToAppError computes.
  function BindError(e: Chain): AppError {
    var v := AsViolations(e);
    if v.Some? then NewValidation(DetailsOf(v.value)).WithCause(Some(e))
    else NewBadRequest("malformed request body").WithCause(Some(e))
  }
}
