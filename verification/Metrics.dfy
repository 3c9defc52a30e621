// The Prometheus collector (internal/middleware/prometheus.go) in its place in the middleware
// chain (internal/router/router.go), under any interleaving of concurrent requests.

module Metrics {
  import opened Prelude
  import opened Decimal
  import opened Errors
  import opened ErrorPipeline

  // ----- one request -----

  // What the handlers inside the collector do: return an error or not after writing a status, or
  // panic with a value that the recover middleware turns into an error.
  datatype Handling = Returns(written: int, err: Option<Chain>) | Panics(recovered: Chain)

  // `preflight` is the status of a request that the CORS layer answers itself; `overBudget` is
  // the verdict of the rate limiter's window.
  datatype Request = Request(
    httpMethod: string, path: string, route: string,
    preflight: Option<int>, overBudget: bool, handling: Handling)

  predicate SkipRateLimit(path: string) {
    path in {"/livez", "/readyz", "/metrics", "/openapi.yaml"}
  }

  // The chain is recover, cors, limiter, collector, handlers, from the outside in.
  predicate ReachesCollector(r: Request) {
    r.preflight.None? && (!r.overBudget || SkipRateLimit(r.path))
  }

  // The status line the client receives.
  function Sent(r: Request): int {
    if r.preflight.Some? then r.preflight.value
    else if !ReachesCollector(r) then Respond(App(ERR_RATE_LIMITED)).status
    else match r.handling
      case Panics(e) => Respond(e).status
      case Returns(written, err) => if err.Some? then Respond(err.value).status else written
  }

  // A panic unwinds through the collector without running the code after its c.Next().
  predicate Observed(r: Request) {
    ReachesCollector(r) && r.handling.Returns?
  }

  // The status the collector writes down while the error is on its way out.
  function Recorded(r: Request): int
    requires Observed(r)
  {
    EffectiveStatus(r.handling.written, r.handling.err)
  }

  function RouteLabel(r: Request): string {
    if r.route == "" then "unmatched" else r.route
  }

  // ----- the collector -----

  type CounterKey = (string, string, string)
  type HistogramKey = (string, string)

  function CounterLabels(r: Request, status: int): CounterKey {
    (r.httpMethod, RouteLabel(r), Itoa(status))
  }

  function HistogramLabels(r: Request): HistogramKey {
    (r.httpMethod, RouteLabel(r))
  }

  function At<K>(m: map<K, nat>, k: K): nat {
    if k in m then m[k] else 0
  }

  function Inc<K>(m: map<K, nat>, k: K): map<K, nat> {
    m[k := At(m, k) + 1]
  }

  // Arrived, then counted, then its latency observed, then answered.
  datatype Stage = Arrived | Counted | Timed | Answered

  datatype Slot = Slot(req: Request, stage: Stage)

  datatype State = State(requestsTotal: map<CounterKey, nat>, duration: map<HistogramKey, nat>, slots: seq<Slot>)

  // One step of request i.
  function Step(s: State, i: nat): State {
    if i >= |s.slots| then s
    else
      var r := s.slots[i].req;
      match s.slots[i].stage
      case Arrived =>
        if Observed(r) then
          State(Inc(s.requestsTotal, CounterLabels(r, Recorded(r))), s.duration, s.slots[i := Slot(r, Counted)])
        else s.(slots := s.slots[i := Slot(r, Answered)])
      case Counted => s.(duration := Inc(s.duration, HistogramLabels(r)), slots := s.slots[i := Slot(r, Timed)])
      case Timed => s.(slots := s.slots[i := Slot(r, Answered)])
      case Answered => s
  }

  function Run(s: State, schedule: seq<nat>): State {
    if schedule == [] then s else Step(Run(s, schedule[..|schedule| - 1]), schedule[|schedule| - 1])
  }

  function Start(reqs: seq<Request>): State {
    State(map[], map[], seq(|reqs|, i requires 0 <= i < |reqs| => Slot(reqs[i], Arrived)))
  }

  class Prometheus {
    var requestsTotal: map<CounterKey, nat>
    var duration: map<HistogramKey, nat>

    constructor ()
      ensures requestsTotal == map[] && duration == map[]
    {
      requestsTotal, duration := map[], map[];
    }

    method Count(r: Request, status: int)
      modifies this`requestsTotal
      ensures requestsTotal == Inc(old(requestsTotal), CounterLabels(r, status))
    {
      var k := CounterLabels(r, status);
      requestsTotal := requestsTotal[k := At(requestsTotal, k) + 1];
    }

    method Observe(r: Request)
      modifies this`duration
      ensures duration == Inc(old(duration), HistogramLabels(r))
    {
      var k := HistogramLabels(r);
      duration := duration[k := At(duration, k) + 1];
    }
  }

  // The server under a schedule: schedule[n] is the request that moves at step n.
  method Serve(p: Prometheus, reqs: seq<Request>, schedule: seq<nat>) returns (slots: seq<Slot>)
    requires p.requestsTotal == map[] && p.duration == map[]
    modifies p
    ensures State(p.requestsTotal, p.duration, slots) == Run(Start(reqs), schedule)
  {
    slots := seq(|reqs|, i requires 0 <= i < |reqs| => Slot(reqs[i], Arrived));
    for n := 0 to |schedule|
      invariant State(p.requestsTotal, p.duration, slots) == Run(Start(reqs), schedule[..n])
    {
      assert schedule[..n + 1][..n] == schedule[..n];
      var i := schedule[n];
      if i < |slots| {
        var r := slots[i].req;
        match slots[i].stage
        case Arrived =>
          if Observed(r) {
            p.Count(r, Recorded(r));
            slots := slots[i := Slot(r, Counted)];
          } else {
            slots := slots[i := Slot(r, Answered)];
          }
        case Counted =>
          p.Observe(r);
          slots := slots[i := Slot(r, Timed)];
        case Timed =>
          slots := slots[i := Slot(r, Answered)];
        case Answered =>
      }
    }
    assert schedule[..|schedule|] == schedule;
  }

  // ----- counting requests -----

  function CountSlots(ss: seq<Slot>, p: Slot -> bool): nat {
    if ss == [] then 0 else (if p(ss[0]) then 1 else 0) + CountSlots(ss[1..], p)
  }

  lemma {:induction false} CountUpdate(ss: seq<Slot>, i: nat, x: Slot, p: Slot -> bool)
    requires i < |ss|
    ensures CountSlots(ss[i := x], p) == CountSlots(ss, p) - (if p(ss[i]) then 1 else 0) + (if p(x) then 1 else 0)
  {
    if i == 0 {
      assert ss[i := x][1..] == ss[1..];
    } else {
      assert ss[i := x][1..] == ss[1..][i - 1 := x];
      CountUpdate(ss[1..], i - 1, x, p);
    }
  }

  lemma {:induction false} CountNone(ss: seq<Slot>, p: Slot -> bool)
    requires forall i :: 0 <= i < |ss| ==> !p(ss[i])
    ensures CountSlots(ss, p) == 0
  {
    if ss != [] { CountNone(ss[1..], p); }
  }

  lemma {:induction false} CountSame(ss: seq<Slot>, p: Slot -> bool, q: Slot -> bool)
    requires forall i :: 0 <= i < |ss| ==> p(ss[i]) == q(ss[i])
    ensures CountSlots(ss, p) == CountSlots(ss, q)
  {
    if ss != [] { CountSame(ss[1..], p, q); }
  }

  // The requests that stand behind one counter: observed, past the counter step, with these labels.
  function BehindCounter(k: CounterKey): Slot -> bool {
    (x: Slot) => Observed(x.req) && !x.stage.Arrived? && CounterLabels(x.req, Sent(x.req)) == k
  }

  function BehindHistogram(k: HistogramKey): Slot -> bool {
    (x: Slot) => Observed(x.req) && (x.stage.Timed? || x.stage.Answered?) && HistogramLabels(x.req) == k
  }

  // Counted but not yet timed.
  function InBetween(k: HistogramKey): Slot -> bool {
    (x: Slot) => x.stage.Counted? && HistogramLabels(x.req) == k
  }

  // The recorded status is the status the client will receive.
  lemma RecordedIsSent(r: Request)
    requires Observed(r)
    ensures Recorded(r) == Sent(r)
  {
  }

  // The paths of probes, scraper and specification.
  const OPERATIONAL := {"/livez", "/readyz", "/metrics", "/openapi.yaml"}

  // Who gets through, in terms of the request alone: a request that CORS does not answer is rejected
  // exactly when it is over budget on a path that is not operational. A rejected request is
  // answered 429, any other as its handlers say; and it is observed unless the handlers panic.
  lemma PassesExactly(r: Request)
    ensures r.path in OPERATIONAL <==>
      r.path == "/livez" || r.path == "/readyz" || r.path == "/metrics" || r.path == "/openapi.yaml"
    ensures r.preflight.Some? ==> Sent(r) == r.preflight.value && !Observed(r)
    ensures r.preflight.None? && r.overBudget && r.path !in OPERATIONAL ==> Sent(r) == 429 && !Observed(r)
    ensures r.preflight.None? && !(r.overBudget && r.path !in OPERATIONAL) ==>
      match r.handling
      case Panics(e) => Sent(r) == Respond(e).status && !Observed(r)
      case Returns(written, None) => Sent(r) == written && Observed(r)
      case Returns(_, Some(e)) => Sent(r) == Respond(e).status && Observed(r)
  {
  }

  ghost predicate Inv(s: State) {
    && (forall k :: At(s.requestsTotal, k) == CountSlots(s.slots, BehindCounter(k)))
    && (forall k :: At(s.duration, k) == CountSlots(s.slots, BehindHistogram(k)))
    && (forall i :: 0 <= i < |s.slots| && (s.slots[i].stage.Counted? || s.slots[i].stage.Timed?) ==>
          Observed(s.slots[i].req))
  }

  lemma StepKeepsCounter(s: State, i: nat, k: CounterKey)
    requires Inv(s)
    ensures At(Step(s, i).requestsTotal, k) == CountSlots(Step(s, i).slots, BehindCounter(k))
  {
    if i < |s.slots| && !s.slots[i].stage.Answered? {
      var x := Step(s, i).slots[i];
      CountUpdate(s.slots, i, x, BehindCounter(k));
      if Observed(x.req) { RecordedIsSent(x.req); }
    }
  }

  lemma StepKeepsHistogram(s: State, i: nat, k: HistogramKey)
    requires Inv(s)
    ensures At(Step(s, i).duration, k) == CountSlots(Step(s, i).slots, BehindHistogram(k))
  {
    if i < |s.slots| && !s.slots[i].stage.Answered? {
      CountUpdate(s.slots, i, Step(s, i).slots[i], BehindHistogram(k));
    }
  }

  lemma StepKeepsInv(s: State, i: nat)
    requires Inv(s)
    ensures Inv(Step(s, i))
  {
    forall k ensures At(Step(s, i).requestsTotal, k) == CountSlots(Step(s, i).slots, BehindCounter(k)) {
      StepKeepsCounter(s, i, k);
    }
    forall k ensures At(Step(s, i).duration, k) == CountSlots(Step(s, i).slots, BehindHistogram(k)) {
      StepKeepsHistogram(s, i, k);
    }
  }

  lemma {:induction false} RunKeepsInv(reqs: seq<Request>, schedule: seq<nat>)
    ensures Inv(Run(Start(reqs), schedule))
  {
    if schedule == [] {
      var s := Start(reqs);
      forall k ensures CountSlots(s.slots, BehindCounter(k)) == 0 { CountNone(s.slots, BehindCounter(k)); }
      forall k ensures CountSlots(s.slots, BehindHistogram(k)) == 0 { CountNone(s.slots, BehindHistogram(k)); }
    } else {
      RunKeepsInv(reqs, schedule[..|schedule| - 1]);
      StepKeepsInv(Run(Start(reqs), schedule[..|schedule| - 1]), schedule[|schedule| - 1]);
    }
  }

  // ----- the sum of a counter over its status label -----

  function Contribution(k: CounterKey, n: nat, h: HistogramKey): nat {
    if (k.0, k.1) == h then n else 0
  }

  // requests_total summed over all statuses for one method and route.
  ghost function Total(m: map<CounterKey, nat>, h: HistogramKey): nat
    decreases m.Keys
  {
    if m.Keys == {} then 0
    else
      var k :| k in m.Keys;
      Contribution(k, m[k], h) + Total(m - {k}, h)
  }

  lemma {:induction false} TotalWithout(m: map<CounterKey, nat>, h: HistogramKey, k: CounterKey)
    requires k in m
    ensures Total(m, h) == Contribution(k, m[k], h) + Total(m - {k}, h)
    decreases m.Keys
  {
    var j :| j in m.Keys && Total(m, h) == Contribution(j, m[j], h) + Total(m - {j}, h);
    if j != k {
      TotalWithout(m - {j}, h, k);
      TotalWithout(m - {k}, h, j);
      assert m - {j} - {k} == m - {k} - {j};
    }
  }

  lemma TotalInc(m: map<CounterKey, nat>, h: HistogramKey, k: CounterKey)
    ensures Total(Inc(m, k), h) == Total(m, h) + if (k.0, k.1) == h then 1 else 0
  {
    TotalWithout(Inc(m, k), h, k);
    assert Inc(m, k) - {k} == m - {k};
    if k in m {
      TotalWithout(m, h, k);
    } else {
      assert m - {k} == m;
    }
  }

  ghost predicate TotalOk(s: State, h: HistogramKey) {
    Total(s.requestsTotal, h) == At(s.duration, h) + CountSlots(s.slots, InBetween(h))
  }

  lemma StepKeepsTotal(s: State, i: nat, h: HistogramKey)
    requires TotalOk(s, h)
    ensures TotalOk(Step(s, i), h)
  {
    if i < |s.slots| {
      var x := Step(s, i).slots[i];
      CountUpdate(s.slots, i, x, InBetween(h));
      if s.slots[i].stage.Arrived? && Observed(x.req) {
        TotalInc(s.requestsTotal, h, CounterLabels(x.req, Recorded(x.req)));
      }
    }
  }

  // The requests themselves never change while they are served.
  lemma {:induction false} RunKeepsRequests(reqs: seq<Request>, schedule: seq<nat>)
    ensures var s := Run(Start(reqs), schedule);
      |s.slots| == |reqs| && forall i :: 0 <= i < |reqs| ==> s.slots[i].req == reqs[i]
  {
    if schedule != [] { RunKeepsRequests(reqs, schedule[..|schedule| - 1]); }
  }

  // ----- requests that leave no trace -----

  // The schedule without the steps of request i.
  function Without(schedule: seq<nat>, i: nat): seq<nat> {
    if schedule == [] then []
    else
      var last := schedule[|schedule| - 1];
      Without(schedule[..|schedule| - 1], i) + if last == i then [] else [last]
  }

  // The same in all metrics and for all requests but i.
  ghost predicate SameBut(a: State, b: State, i: nat) {
    && a.requestsTotal == b.requestsTotal && a.duration == b.duration && |a.slots| == |b.slots|
    && forall j :: 0 <= j < |a.slots| && j != i ==> a.slots[j] == b.slots[j]
  }

  // Request i can only be done with, without having been counted.
  ghost predicate Idle(s: State, i: nat) {
    && i < |s.slots| && !Observed(s.slots[i].req)
    && (s.slots[i].stage.Arrived? || s.slots[i].stage.Answered?)
  }

  lemma OwnStep(a: State, b: State, i: nat)
    requires SameBut(a, b, i) && Idle(a, i)
    ensures SameBut(Step(a, i), b, i) && Idle(Step(a, i), i)
  {
  }

  lemma OtherStep(a: State, b: State, i: nat, j: nat)
    requires SameBut(a, b, i) && Idle(a, i) && j != i
    ensures SameBut(Step(a, j), Step(b, j), i) && Idle(Step(a, j), i)
  {
  }

  lemma RunSnoc(s: State, schedule: seq<nat>, i: nat)
    ensures Run(s, schedule + [i]) == Step(Run(s, schedule), i)
  {
    assert (schedule + [i])[..|schedule|] == schedule;
  }

  // A request that is not observed, whether it was rejected, answered by CORS or panicked, might as
  // well not have been there: take its steps out of any schedule, and no metric and no other
  // request can tell.
  lemma {:induction false} UnobservedLeavesNoTrace(reqs: seq<Request>, schedule: seq<nat>, i: nat)
    requires i < |reqs| && !Observed(reqs[i])
    ensures SameBut(Run(Start(reqs), schedule), Run(Start(reqs), Without(schedule, i)), i)
    ensures Idle(Run(Start(reqs), schedule), i)
  {
    if schedule != [] {
      var front, last := schedule[..|schedule| - 1], schedule[|schedule| - 1];
      var a, b := Run(Start(reqs), front), Run(Start(reqs), Without(front, i));
      UnobservedLeavesNoTrace(reqs, front, i);
      if last == i {
        assert Without(schedule, i) == Without(front, i);
        OwnStep(a, b, i);
      } else {
        RunSnoc(Start(reqs), Without(front, i), last);
        OtherStep(a, b, i, last);
      }
    }
  }

  // The limiter's promise: a rejected request is answered 429 and is in no metric of any run.
  lemma RejectedLeavesNoTrace(reqs: seq<Request>, schedule: seq<nat>, i: nat)
    requires i < |reqs| && reqs[i].preflight.None? && reqs[i].overBudget && reqs[i].path !in OPERATIONAL
    ensures Sent(reqs[i]) == 429
    ensures SameBut(Run(Start(reqs), schedule), Run(Start(reqs), Without(schedule, i)), i)
  {
    PassesExactly(reqs[i]);
    UnobservedLeavesNoTrace(reqs, schedule, i);
  }

  // ----- main results -----

  // Was sent this status, by a request that is no preflight, was not rejected and did not panic. A
  // request that no route matches is filed under "unmatched".
  function AnsweredWith(httpMethod: string, route: string, status: int): Slot -> bool {
    (x: Slot) =>
      var r := x.req;
      && r.preflight.None? && (!r.overBudget || r.path in OPERATIONAL) && r.handling.Returns?
      && r.httpMethod == httpMethod && (r.route == route != "" || (r.route == "" && route == "unmatched"))
      && Sent(r) == status
  }

  // At every moment of every interleaving the sum of the counter over all statuses is the number
  // of histogram observations plus the number of requests between the two statements.
  lemma {:induction false} CounterTracksHistogram(reqs: seq<Request>, schedule: seq<nat>, h: HistogramKey)
    ensures TotalOk(Run(Start(reqs), schedule), h)
  {
    if schedule == [] {
      CountNone(Start(reqs).slots, InBetween(h));
    } else {
      CounterTracksHistogram(reqs, schedule[..|schedule| - 1], h);
      StepKeepsTotal(Run(Start(reqs), schedule[..|schedule| - 1]), schedule[|schedule| - 1], h);
    }
  }

  // When every request has been answered, each counter is the number of responses actually sent
  // with that status among the requests that were observed, and the sum over all statuses is the
  // number of observations. Rejected, preflight and panicking requests are in neither.
  lemma CountersMatchResponses(
    reqs: seq<Request>, schedule: seq<nat>, httpMethod: string, route: string, status: int, s: State)
    requires s == Run(Start(reqs), schedule)
    requires forall i :: 0 <= i < |s.slots| ==> s.slots[i].stage.Answered?
    ensures At(s.requestsTotal, (httpMethod, route, Itoa(status))) ==
      CountSlots(s.slots, AnsweredWith(httpMethod, route, status))
    ensures Total(s.requestsTotal, (httpMethod, route)) == At(s.duration, (httpMethod, route))
    ensures |s.slots| == |reqs| && forall i :: 0 <= i < |reqs| ==> s.slots[i].req == reqs[i]
  {
    var h := (httpMethod, route);
    RunKeepsInv(reqs, schedule);
    RunKeepsRequests(reqs, schedule);
    CounterTracksHistogram(reqs, schedule, h);
    CountNone(s.slots, InBetween(h));
    var k := (httpMethod, route, Itoa(status));
    var p := AnsweredWith(httpMethod, route, status);
    forall i | 0 <= i < |s.slots| ensures BehindCounter(k)(s.slots[i]) == p(s.slots[i]) {
      var r := s.slots[i].req;
      PassesExactly(r);
      if Itoa(Sent(r)) == Itoa(status) { ItoaInjective(Sent(r), status); }
    }
    CountSame(s.slots, BehindCounter(k), p);
  }
}
