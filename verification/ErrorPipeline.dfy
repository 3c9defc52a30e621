// From an error chain to an HTTP response: what errorHandler and mapFiberError of
// internal/router/router.go send, the envelope of internal/httpx/response.go, and the second statement
// of the status rule in internal/middleware/effective_status.go.

module ErrorPipeline {
  import opened Prelude
  import opened Decimal
  import opened Errors

  // The error part of the response envelope.
  datatype Body = Body(code: string, message: string, details: seq<Detail>)

  function ErrorBody(e: AppError): Body {
    Body(e.code, e.message, e.details)
  }

  datatype Response = Response(status: int, body: Body)

  const TOO_LARGE := AppError("PAYLOAD_TOO_LARGE", 413, "request body too large", [], None)

  function MapFiberError(fe: FiberError): AppError {
    if fe.code == 404 then ERR_NOT_FOUND.WithCause(Some(Fiber(fe)))
    else if fe.code == 429 then ERR_RATE_LIMITED.WithCause(Some(Fiber(fe)))
    else if fe.code == 413 then TOO_LARGE
    else AppError("HTTP_" + Itoa(fe.code), fe.code, fe.message, [], None)
  }

  // What errorHandler sends.
  function Respond(err: Chain): Response {
    var fe := AsFiber(err);
    if fe.Some? then Response(fe.value.code, ErrorBody(MapFiberError(fe.value)))
    else
      var app := AsAppError(Some(err));
      if app.status >= 500 then Response(ERR_INTERNAL.status, ErrorBody(ERR_INTERNAL))
      else Response(app.status, ErrorBody(app))
  }

  // EffectiveStatus: what the two observing middlewares record while the error is still on its
  // way to errorHandler. `written` is the status set on the response so far.
  function EffectiveStatus(written: int, err: Option<Chain>): int {
    if err.None? then written
    else
      var fe := AsFiber(err.value);
      if fe.Some? then fe.value.code
      else
        var status := AsAppError(err).status;
        if status >= 500 then 500 else status
  }

  // The status rule on the unwrapped list, without recursion over the chain: the first fiber error
  // anywhere decides; else the first AppError, capped at 500; else 500.
  function StatusOfList(es: seq<Chain>): int {
    var fe, app := FirstFiber(es), FirstApp(es);
    if fe.Some? then fe.value.code
    else if app.Some? && app.value.status < 500 then app.value.status
    else 500
  }

  // Status agreement: for every chain of any shape and depth, the recorded status, the status
  // sent, and the rule on the unwrapped list are one number, whatever was written before.
  lemma StatusAgreement(err: Chain, written: int)
    ensures EffectiveStatus(written, Some(err)) == Respond(err).status == StatusOfList(Unwrapped(err))
  {
    SearchFindsFirst(err);
  }

  // Which errors end as which refusal. A spent budget looks the same whoever refuses: the framework
  // or the application. A missing resource does not: an unknown route is NOT_FOUND, a missing task
  // is TASK_NOT_FOUND, and no framework error can look like the latter. Any other framework error keeps
  // its code as status, and but for an oversized body its message.
  lemma RefusalExactly(err: Chain)
    ensures var fe, app := FirstFiber(Unwrapped(err)), FirstApp(Unwrapped(err));
      && (Respond(err) == Response(429, Body("RATE_LIMITED", "too many requests", [])) <==>
          if fe.Some? then fe.value.code == 429 else app.Some? && app.value.Looks(ERR_RATE_LIMITED))
      && (Respond(err) == Response(404, Body("NOT_FOUND", "resource not found", [])) <==>
          if fe.Some? then fe.value.code == 404 else app.Some? && app.value.Looks(ERR_NOT_FOUND))
      && (Respond(err) == Response(404, Body("TASK_NOT_FOUND", "task not found", [])) <==>
          fe.None? && app.Some? && app.value.Looks(ERR_TASK_NOT_FOUND))
      && (fe.Some? ==> Respond(err).status == fe.value.code && MapFiberError(fe.value).status == fe.value.code)
      && (fe.Some? && fe.value.code == 413 ==>
          Respond(err).body == Body("PAYLOAD_TOO_LARGE", "request body too large", []))
      && (fe.Some? && fe.value.code !in {404, 413, 429} ==>
          Respond(err).body == Body("HTTP_" + Itoa(fe.value.code), fe.value.message, []))
  {
    SearchFindsFirst(err);
    if AsFiber(err).Some? { FiberBodyIsNotInternal(AsFiber(err).value); }
  }

  // ----- masking -----

  const BAD_GATEWAY := FiberError(502, "Bad Gateway")

  predicate IsMasked(r: Response) {
    r == Response(500, Body("INTERNAL_ERROR", "internal server error", []))
  }

  lemma FiberBodyIsNotInternal(fe: FiberError)
    ensures MapFiberError(fe).code != ERR_INTERNAL.code && MapFiberError(fe).code != "INVALID_REQUEST"
      && MapFiberError(fe).code != "TASK_NOT_FOUND"
  {
    assert ("HTTP_" + Itoa(fe.code))[0] == 'H';
    assert ERR_INTERNAL.code[0] == 'I' && "INVALID_REQUEST"[0] == 'I' && "TASK_NOT_FOUND"[0] == 'T';
  }

  // A response of 500 or above hides everything about the error exactly when there is no fiber
  // error anywhere in the chain.
  lemma MaskedExactly(err: Chain)
    requires Respond(err).status >= 500
    ensures IsMasked(Respond(err)) <==> FirstFiber(Unwrapped(err)) == None
  {
    SearchFindsFirst(err);
    if AsFiber(err).Some? { FiberBodyIsNotInternal(AsFiber(err).value); }
  }

  // The comment on errorHandler promises that a 500 exposes no internal detail; the framework's
  // own 502 for a network error shows its code and message.
  lemma FiberErrorIsNotMasked()
    ensures Respond(Fiber(BAD_GATEWAY)) == Response(502, Body("HTTP_" + Itoa(502), "Bad Gateway", []))
    ensures !IsMasked(Respond(Fiber(BAD_GATEWAY)))
  {
  }

  // Non-interference: without a fiber error, chains whose first AppError is 500 or above, or that
  // have none, are indistinguishable to the client.
  lemma MaskingHidesEverything(a: Chain, b: Chain)
    requires FirstFiber(Unwrapped(a)) == None && FirstFiber(Unwrapped(b)) == None
    requires FirstApp(Unwrapped(a)).Some? ==> FirstApp(Unwrapped(a)).value.status >= 500
    requires FirstApp(Unwrapped(b)).Some? ==> FirstApp(Unwrapped(b)).value.status >= 500
    ensures Respond(a) == Respond(b) && IsMasked(Respond(a))
  {
    SearchFindsFirst(a);
    SearchFindsFirst(b);
  }

  // Below 500 the client sees exactly the first AppError.
  lemma BusinessErrorIsShown(err: Chain, app: AppError)
    requires FirstFiber(Unwrapped(err)) == None
    requires FirstApp(Unwrapped(err)) == Some(app) && app.status < 500
    ensures Respond(err) == Response(app.status, Body(app.code, app.message, app.details))
  {
    SearchFindsFirst(err);
  }

  // Wrapping never changes the response; a cause changes it only if it holds a fiber error.
  lemma ContextLeavesNoTrace(err: Chain, text: string, app: AppError, cause: Chain)
    requires FirstFiber(Unwrapped(cause)) == None
    ensures Respond(Wrap(text, err)) == Respond(err)
    ensures Respond(App(app.WithCause(Some(cause)))) == Respond(App(app.WithCause(None)))
  {
    SearchFindsFirst(cause);
  }

  // ----- binding errors -----

  // A body that does not bind is answered as documented, 400 when it does not parse and 422 with
  // the violated fields when it does, exactly when the framework's error holds no fiber error:
  // otherwise that error, although only a cause, decides status and body.
  lemma BindAnswerExactly(e: Chain)
    ensures Respond(App(BindError(e))) ==
        (var v := FirstViolations(Unwrapped(e));
         if v.Some? then Response(422, Body("INVALID_REQUEST", "validation failed", DetailsOf(v.value)))
         else Response(400, Body("INVALID_REQUEST", "malformed request body", [])))
      <==> FirstFiber(Unwrapped(e)) == None
  {
    SearchFindsFirst(e);
    if AsFiber(e).Some? { FiberBodyIsNotInternal(AsFiber(e).value); }
  }

  // An empty title, as the validator reports it.
  lemma EmptyTitleIsShown()
    ensures Respond(App(BindError(Wrap("bind", Violations([FieldError("Title", "nonempty", "required")]))))) ==
      Response(422, Body("INVALID_REQUEST", "validation failed", [Detail("Title", "required")]))
  {
    assert DetailsOf([FieldError("Title", "nonempty", "required")]) == [Detail("Title", "required")];
  }

  // What the framework's Bind reports for a body whose content type it has no binder for.
  const UNPROCESSABLE := FiberError(422, "Unprocessable Entity")

  // Such a body does not parse, and is not answered 400 INVALID_REQUEST.
  lemma FiberCauseWins()
    ensures Respond(App(BindError(Fiber(UNPROCESSABLE)))) ==
      Response(422, Body("HTTP_" + Itoa(422), "Unprocessable Entity", []))
  {
  }
}
