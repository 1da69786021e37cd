/** What one governed model call leaves behind, in closed form: the ledger rows, the
    usage records, the breaker outcomes and the result of `chat`, `stream_chat` and
    `test_connection` (backend/app/llm/gateway.py) for every possible sequence of
    adapter answers. The gateway class is proved to leave exactly this. */
module Calls {
  import opened Basics
  import opened Pricing
  import opened Policy
  import opened Router
  import opened Confinement
  import B = Budget
  import CB = CircuitBreaker
  import C = Calendar

  type Time = t: C.Moment | t.Valid() witness C.Moment(1, 1, 1, 0)

  /** `HTTPException` with its detail code, or any other `Exception` by class name. */
  datatype Exn = Http(status: nat, code: string) | Other(name: string)

  function ClassName(e: Exn): string { if e.Http? then "HTTPException" else e.name }

  /** The detail code of an HTTP error, or the class of any other. */
  function DetailCode(e: Exn): string { if e.Http? then e.code else e.name }

  /** A usage record; the row stored for it is `RowOf`. */
  datatype Record = Record(
    status: B.CallStatus,
    deployment: Option<string>,
    modelKey: Option<string>,
    usage: Usage,
    errorCode: Option<string>,
    createdAt: Micros)

  function RowOf(ctx: B.Context, r: Record): B.UsageRow {
    B.UsageRow(ctx, r.status, r.usage, r.deployment, r.createdAt)
  }

  function RowsOf(ctx: B.Context, records: seq<Record>): seq<B.UsageRow> {
    seq(|records|, i requires 0 <= i < |records| => RowOf(ctx, records[i]))
  }

  /** What the gateway is built from. */
  datatype Setup = Setup(
    rules: seq<Policy.Rule>, policies: seq<B.Policy>, prices: Catalog, settings: Settings, breaker: CB.Config)

  /** What a call reads and changes. */
  datatype Books = Books(
    ledger: seq<B.LedgerRow>, records: seq<Record>, rows: seq<B.UsageRow>, circuits: map<string, CB.Circuit>)

  /** Who calls, the reservation id drawn, whether the budget tables can be read, and when. */
  datatype Call = Call(ctx: B.Context, id: Id, storageUp: bool, began: Time)

  /** What an adapter call turned into, and when its outcome was booked. */
  datatype Attempt<A> = Attempt(answer: A, at: Time)

  /** What a call adds. */
  datatype Trace<R> = Trace(ledger: seq<B.LedgerRow>, records: seq<Record>, outcomes: seq<CB.Event>, result: R)

  // ---- Records ----------------------------------------------------------------------------

  function Failure(status: B.CallStatus, route: Option<Route>, code: string, at: Time): Record {
    Record(status,
           if route.Some? then Some(route.value.deployment.id) else None,
           if route.Some? then Some(route.value.deployment.modelKey) else None,
           NO_USAGE, Some(code), C.Instant(at))
  }

  function Success(route: Route, modelKey: string, usage: Usage, at: Time): Record {
    Record(B.Success, Some(route.deployment.id), Some(modelKey), usage, None, C.Instant(at))
  }

  function Tested(route: Route, ok: bool, modelKey: Option<string>, at: Time): Record {
    Record(if ok then B.Success else B.Error,
           Some(route.deployment.id),
           Or(modelKey, Some(route.deployment.modelKey)),
           NO_USAGE, if ok then None else Some("connection_test_failed"), C.Instant(at))
  }

  function Failed(route: Route, code: string, at: Time): CB.Event {
    CB.Event(Some(route.deployment.id), CB.Timed(CB.Fail(Some(code)), C.Instant(at)))
  }

  function Succeeded(route: Route, at: Time): CB.Event {
    CB.Event(Some(route.deployment.id), CB.Timed(CB.Succeed, C.Instant(at)))
  }

  function Apply(cfg: CB.Config, m: map<string, CB.Circuit>, events: seq<CB.Event>): map<string, CB.Circuit> {
    if events == [] then m
    else CB.StepAll(cfg, Apply(cfg, m, events[..|events| - 1]), events[|events| - 1])
  }

  // ---- Closing a reservation ------------------------------------------------------------------

  function ReleasedRows(r: B.Reservation, ctx: B.Context): seq<B.LedgerRow> {
    B.RowsFor(B.Release, r, ctx, B.EstimateOf(r), NO_USAGE)
  }

  function SettledRows(g: Setup, rows: seq<B.UsageRow>, r: B.Reservation, actual: Usage, ctx: B.Context,
          at: Time): seq<B.LedgerRow>
  {
    B.SettleRows(g.policies, rows, r, actual, ctx, at, |r.scopes|)
  }

  // ---- Policy and budget ------------------------------------------------------------------------

  datatype Admission =
    | Refused(record: Record, error: Exn)
    | Admitted(decision: Decision, request: ChatRequest, reservation: B.Reservation)

  /** The request a reservation is estimated for: a connection test reserves for its
      request as it stands, the other calls for the effective one. */
  function Reserved(q: ChatRequest, d: Decision, probe: bool): ChatRequest {
    if probe then q else EffectiveRequest(q, d)
  }

  function ReservationFor(g: Setup, rows: seq<B.UsageRow>, e: ChatRequest, call: Call): B.Reservation {
    B.ReserveOutcome(g.policies, call.ctx, call.began, rows, Estimate(g.prices, e), call.id, call.storageUp)
  }

  /** Policy first, then budget. */
  function Admit(g: Setup, rows: seq<B.UsageRow>, q: ChatRequest, call: Call, probe: bool): Admission {
    var d := Evaluate(g.rules, q, call.ctx);
    if !d.allowed then Refused(Failure(B.Denied, None, "policy_denied", call.began), Http(403, "HTTPException"))
    else
      var e := Reserved(q, d, probe);
      var r := ReservationFor(g, rows, e, call);
      if !r.approved
      then Refused(Failure(B.BudgetExceeded, None, "budget_exceeded", call.began), Http(402, "HTTPException"))
      else Admitted(d, e, r)
  }

  /** The ledger rows written while a call is admitted or refused. */
  function Opening(g: Setup, rows: seq<B.UsageRow>, q: ChatRequest, call: Call, probe: bool): seq<B.LedgerRow> {
    var d := Evaluate(g.rules, q, call.ctx);
    if !d.allowed then []
    else
      var e := Reserved(q, d, probe);
      B.ReserveRows(ReservationFor(g, rows, e, call), call.ctx, Estimate(g.prices, e))
  }

  function HealthAt(g: Setup, s: Books, call: Call): Health { Health(g.breaker, s.circuits, C.Instant(call.began)) }

  function PlanExn(e: PlanError): Exn {
    match e
    case PolicyRoutingKeyNotFound(_) => Http(404, "policy_routing_key_not_found")
    case DeploymentNotFound => Http(404, "deployment_not_found")
    case ProviderNotRegistered(_, _) => Http(500, "deployment_provider_not_registered")
    case UsableDeploymentNotFound(_) => Http(404, "usable_deployment_not_found")
  }

  // ---- Attempts ------------------------------------------------------------------------------------

  /** The first attempt below `n` that stops the fallback loop, or `n`. */
  function First(stops: nat -> bool, n: nat): (k: nat)
    ensures k <= n && (forall i :: 0 <= i < k ==> !stops(i)) && (k < n ==> stops(k))
  {
    if n == 0 then 0
    else
      var k := First(stops, n - 1);
      if k < n - 1 || stops(n - 1) then k else n
  }

  lemma FirstIs(stops: nat -> bool, n: nat, k: nat)
    requires k <= n && (forall i :: 0 <= i < k ==> !stops(i)) && (k < n ==> stops(k))
    ensures First(stops, n) == k
  {}

  lemma FirstStops(stops: nat -> bool, n: nat)
    ensures First(stops, n) <= n
    ensures forall i :: 0 <= i < First(stops, n) ==> !stops(i)
    ensures First(stops, n) < n ==> stops(First(stops, n))
  {}

  /** The error of each attempt that raised. */
  datatype Fault = Fault(error: Exn, at: Time)

  function FailedRecords(routes: seq<Route>, faults: nat -> Fault, k: nat): seq<Record>
    requires k <= |routes|
  {
    if k == 0 then []
    else
      FailedRecords(routes, faults, k - 1) +
      [Failure(B.Error, Some(routes[k - 1]), ClassName(faults(k - 1).error), faults(k - 1).at)]
  }

  function FailedEvents(routes: seq<Route>, faults: nat -> Fault, k: nat): seq<CB.Event>
    requires k <= |routes|
  {
    if k == 0 then []
    else
      FailedEvents(routes, faults, k - 1) +
      [Failed(routes[k - 1], ClassName(faults(k - 1).error), faults(k - 1).at)]
  }

  // ---- chat -----------------------------------------------------------------------------------------

  datatype Response = Response(modelKey: string, content: string, usage: Usage)

  datatype ChatAnswer = Replied(response: Response) | Raised(error: Exn) | Cancelled

  datatype Outcome<R> = Returned(value: R) | Threw(error: Exn) | Interrupted

  type ChatAnswers = nat -> Attempt<ChatAnswer>

  function ChatStops(answers: ChatAnswers): nat -> bool { (i: nat) => !answers(i).answer.Raised? }

  function ChatFaults(answers: ChatAnswers): nat -> Fault {
    (i: nat) => Fault(if answers(i).answer.Raised? then answers(i).answer.error else Other(""), answers(i).at)
  }

  /** The attempts of `chat`, in order, until one does not raise. */
  function ChatAttempts(g: Setup, rows: seq<B.UsageRow>, call: Call, r: B.Reservation, routes: seq<Route>,
          answers: ChatAnswers): Trace<Outcome<Response>>
  {
    var ctx, k := call.ctx, First(ChatStops(answers), |routes|);
    var failed, events := FailedRecords(routes, ChatFaults(answers), k), FailedEvents(routes, ChatFaults(answers), k);
    if routes == [] then
      Trace(ReleasedRows(r, ctx), [Failure(B.Error, None, "HTTPException", call.began)], [],
          Threw(Http(404, "HTTPException")))
    else if k == |routes| then
      Trace(ReleasedRows(r, ctx), failed, events, Threw(ChatFaults(answers)(k - 1).error))
    else if answers(k).answer.Replied? then
      var response, at := answers(k).answer.response, answers(k).at;
      var usage := Recalculate(g.prices, response.usage, Some(response.modelKey));
      Trace(SettledRows(g, rows + RowsOf(ctx, failed), r, usage, ctx, at),
            failed + [Success(routes[k], response.modelKey, usage, at)],
            events + [Succeeded(routes[k], at)],
            Returned(response.(usage := usage)))
    else Trace([], failed, events, Interrupted)
  }

  function ChatTrace(g: Setup, s: Books, q: ChatRequest, call: Call, answers: ChatAnswers): Trace<Outcome<Response>> {
    var entries := Opening(g, s.rows, q, call, false);
    match Admit(g, s.rows, q, call, false)
    case Refused(record, error) => Trace(entries, [record], [], Threw(error))
    case Admitted(d, e, r) =>
      var plan := PlanFor(g.settings, e, d, HealthAt(g, s, call));
      if plan.NoPlan? then
        var error := PlanExn(plan.error);
        Trace(entries + ReleasedRows(r, call.ctx), [Failure(B.Error, None, DetailCode(error), call.began)], [],
            Threw(error))
      else
        var t := ChatAttempts(g, s.rows, call, r, plan.routes, answers);
        t.(ledger := entries + t.ledger)
  }

  // ---- stream_chat -------------------------------------------------------------------------------------

  /** How a stream ended after the deltas it yielded. `ClientGone` is a cancellation
      or a generator closed by its reader, at a yield or between two deltas. */
  datatype StreamEnd = Finished | Broke(error: Exn) | ClientGone

  datatype StreamAnswer = Stream(deltas: seq<string>, end: StreamEnd)

  type StreamAnswers = nat -> Attempt<StreamAnswer>

  function Content(deltas: seq<string>): string {
    if deltas == [] then "" else Content(deltas[..|deltas| - 1]) + deltas[|deltas| - 1]
  }

  /** The next route is tried only after an ordinary exception before any text. */
  function StreamStops(answers: StreamAnswers): nat -> bool {
    (i: nat) =>
      var a := answers(i).answer;
      !(a.end.Broke? && a.end.error.Other? && Content(a.deltas) == "")
  }

  function StreamFaults(answers: StreamAnswers): nat -> Fault {
    (i: nat) => Fault(if answers(i).answer.end.Broke? then answers(i).answer.end.error else Other(""), answers(i).at)
  }

  /** The estimated usage settled for streamed content. */
  function StreamUsage(g: Setup, e: ChatRequest, route: Route, content: string): Usage {
    Calculate(g.prices, Estimate(g.prices, e).inputTokens, if content == "" then 0 else Max(1, |content| / 4),
              Some(route.deployment.modelKey))
  }

  /** The stream that route `k` ends, all before it having failed without text. */
  function StreamStop(g: Setup, rows: seq<B.UsageRow>, ctx: B.Context, e: ChatRequest, r: B.Reservation,
          routes: seq<Route>, answers: StreamAnswers, k: nat): Trace<Outcome<string>>
    requires k < |routes|
  {
    var failed, events := FailedRecords(routes, StreamFaults(answers), k),
        FailedEvents(routes, StreamFaults(answers), k);
    var a, at := answers(k).answer, answers(k).at;
    match a.end
    case Finished =>
      var usage := StreamUsage(g, e, routes[k], Content(a.deltas));
      Trace(SettledRows(g, rows + RowsOf(ctx, failed), r, usage, ctx, at),
            failed + [Success(routes[k], routes[k].deployment.modelKey, usage, at)],
            events + [Succeeded(routes[k], at)],
            Returned(Content(a.deltas)))
    case Broke(error) =>
      if error.Http? then Trace(ReleasedRows(r, ctx), failed, events, Threw(error))
      else
        Trace(ReleasedRows(r, ctx), FailedRecords(routes, StreamFaults(answers), k + 1),
              FailedEvents(routes, StreamFaults(answers), k + 1), Threw(error))
    case ClientGone => Trace(ReleasedRows(r, ctx), failed, events, Interrupted)
  }

  function StreamAttempts(g: Setup, rows: seq<B.UsageRow>, ctx: B.Context, e: ChatRequest, r: B.Reservation,
          routes: seq<Route>, answers: StreamAnswers): Trace<Outcome<string>>
  {
    var n := |routes|;
    var k := First(StreamStops(answers), n);
    if n == 0 then Trace(ReleasedRows(r, ctx), [], [], Threw(Http(503, "HTTPException")))
    else if k == n then
      Trace(ReleasedRows(r, ctx), FailedRecords(routes, StreamFaults(answers), n),
            FailedEvents(routes, StreamFaults(answers), n), Threw(StreamFaults(answers)(n - 1).error))
    else StreamStop(g, rows, ctx, e, r, routes, answers, k)
  }

  function StreamTrace(g: Setup, s: Books, q: ChatRequest, call: Call, answers: StreamAnswers): Trace<Outcome<string>> {
    var entries := Opening(g, s.rows, q, call, false);
    match Admit(g, s.rows, q, call, false)
    case Refused(record, error) => Trace(entries, [record], [], Threw(error))
    case Admitted(d, e, r) =>
      var plan := PlanFor(g.settings, e, d, HealthAt(g, s, call));
      if plan.NoPlan? then Trace(entries + ReleasedRows(r, call.ctx), [], [], Threw(PlanExn(plan.error)))
      else
        var t := StreamAttempts(g, s.rows, call.ctx, e, r, plan.routes, answers);
        t.(ledger := entries + t.ledger)
  }

  function DeltasBefore(answers: StreamAnswers, k: nat): seq<string> {
    if k == 0 then [] else DeltasBefore(answers, k - 1) + answers(k - 1).answer.deltas
  }

  /** Everything the client is sent, by all the routes tried. */
  function Yields(g: Setup, s: Books, q: ChatRequest, call: Call, answers: StreamAnswers): seq<string> {
    var a := Admit(g, s.rows, q, call, false);
    if a.Refused? then []
    else
      var plan := PlanFor(g.settings, a.request, a.decision, HealthAt(g, s, call));
      if plan.NoPlan? then []
      else
        var k := First(StreamStops(answers), |plan.routes|);
        DeltasBefore(answers, if k < |plan.routes| then k + 1 else k)
  }

  // ---- test_connection -----------------------------------------------------------------------------------

  datatype TestRequest = TestRequest(
    providerKey: Option<string>,
    deploymentId: Option<string>,
    modelKey: Option<string>,
    adapterType: Option<string>,
    baseUrl: Option<string>,
    apiKey: Option<string>)

  predicate Explicit(t: TestRequest) { t.deploymentId.Some? || t.providerKey.Some? }

  predicate Temporary(t: TestRequest) {
    Truthy(t.apiKey) || Truthy(t.baseUrl) || Truthy(t.adapterType) || Truthy(t.modelKey)
  }

  function Ping(t: TestRequest): ChatRequest { ChatRequest(t.modelKey, None, ["ping"], Some(1)) }

  function HasId(id: string): Deployment -> bool { (d: Deployment) => d.id == id }

  function HasProvider(key: string): Deployment -> bool { (d: Deployment) => d.providerKey == key }

  /** The one-off route for a configuration that is not stored; `freshId` is the id
      drawn when no deployment is there to copy. */
  function TemporaryDeployment(t: TestRequest, provider: string, d: Option<Deployment>, freshId: string): Deployment {
    var model := if Truthy(t.modelKey) then t.modelKey.value else if d.Some? then d.value.modelKey else "chat-model";
    if d.Some? then d.value.(modelKey := model)
    else Deployment(freshId, provider, model, provider + "-temporary-test", true, 100)
  }

  datatype TestPlan = TestRoutes(routes: seq<Route>) | NoTest(error: Exn)

  function Sorted(ds: seq<Deployment>): seq<Deployment> {
    SortCandidates((k: Option<string>) => Pricing.Rule(0, 0), false, ds)
  }

  /** The routes an explicit target names; `None` hands over to the router. */
  function Scoped(s: Settings, t: TestRequest, freshId: string): Option<TestPlan> {
    if t.deploymentId.Some? then
      var matches := Filter(s.deployments, HasId(t.deploymentId.value));
      if matches == [] then Some(NoTest(Http(404, "HTTPException")))
      else if matches[0].providerKey !in s.providers then Some(NoTest(Other("KeyError")))
      else if Temporary(t) then
        var d := TemporaryDeployment(t, matches[0].providerKey, Some(matches[0]), freshId);
        Some(TestRoutes([Route(d, ConnectionTest)]))
      else Some(TestRoutes([Route(matches[0], ConnectionTest)]))
    else if Truthy(t.providerKey) then
      var matches := Sorted(Filter(s.deployments, HasProvider(t.providerKey.value)));
      if t.providerKey.value !in s.providers then None
      else if Temporary(t) then
        var d := if matches == [] then None else Some(matches[0]);
        Some(TestRoutes([Route(TemporaryDeployment(t, t.providerKey.value, d, freshId), ConnectionTest)]))
      else if matches != [] then Some(TestRoutes(RoutesFor(matches, ConnectionTest)))
      else None
    else None
  }

  /** `_routes_for_connection_test`. */
  function TestPlanFor(g: Setup, h: Health, t: TestRequest, d: Decision, freshId: string): TestPlan {
    var scoped := Scoped(g.settings, t, freshId);
    if scoped.Some? then scoped.value
    else
      var plan := PlanFor(g.settings, Ping(t), d, h);
      if plan.NoPlan? then NoTest(PlanExn(plan.error)) else TestRoutes(plan.routes)
  }

  datatype TestAnswer = Probed(ok: bool, modelKey: Option<string>) | ProbeRaised(error: Exn) | ProbeCancelled

  type TestAnswers = nat -> Attempt<TestAnswer>

  /** A test goes on to the next route after a failure, unless its target is explicit. */
  function TestStops(answers: TestAnswers, explicit: bool): nat -> bool {
    (i: nat) =>
      var a := answers(i).answer;
      explicit || a.ProbeCancelled? || (a.Probed? && a.ok)
  }

  /** The record, if any, of one probe. */
  function ProbeRecords(route: Route, a: TestAnswer, at: Time): seq<Record> {
    match a
    case Probed(ok, modelKey) => [Tested(route, ok, modelKey, at)]
    case ProbeRaised(error) => [Failure(B.Error, Some(route), ClassName(error), at)]
    case ProbeCancelled => []
  }

  function ProbeEvents(route: Route, a: TestAnswer, at: Time): seq<CB.Event> {
    match a
    case Probed(ok, _) => [if ok then Succeeded(route, at) else Failed(route, "connection_test_failed", at)]
    case ProbeRaised(error) => [Failed(route, ClassName(error), at)]
    case ProbeCancelled => []
  }

  function ProbesRecords(routes: seq<Route>, answers: TestAnswers, k: nat): seq<Record>
    requires k <= |routes|
  {
    if k == 0 then []
    else ProbesRecords(routes, answers, k - 1) + ProbeRecords(routes[k - 1], answers(k - 1).answer, answers(k - 1).at)
  }

  function ProbesEvents(routes: seq<Route>, answers: TestAnswers, k: nat): seq<CB.Event>
    requires k <= |routes|
  {
    if k == 0 then []
    else ProbesEvents(routes, answers, k - 1) + ProbeEvents(routes[k - 1], answers(k - 1).answer, answers(k - 1).at)
  }

  lemma OneMoreProbed(routes: seq<Route>, answers: TestAnswers, k: nat)
    requires k < |routes|
    ensures ProbesRecords(routes, answers, k + 1) ==
            ProbesRecords(routes, answers, k) + ProbeRecords(routes[k], answers(k).answer, answers(k).at)
    ensures ProbesEvents(routes, answers, k + 1) ==
            ProbesEvents(routes, answers, k) + ProbeEvents(routes[k], answers(k).answer, answers(k).at)
  {}

  lemma NoneProbed(routes: seq<Route>, answers: TestAnswers)
    ensures ProbesRecords(routes, answers, 0) == [] && ProbesEvents(routes, answers, 0) == []
  {}

  datatype TestResult = TestResult(ok: bool, modelKey: Option<string>)

  /** The last probe made decides: what it returned is returned, what it raised is raised. */
  function TestStop(call: Call, r: B.Reservation, routes: seq<Route>, answers: TestAnswers,
          last: nat): Trace<Outcome<TestResult>>
    requires last < |routes|
  {
    var records, events := ProbesRecords(routes, answers, last + 1), ProbesEvents(routes, answers, last + 1);
    match answers(last).answer
    case Probed(ok, modelKey) => Trace(ReleasedRows(r, call.ctx), records, events, Returned(TestResult(ok, modelKey)))
    case ProbeRaised(error) => Trace(ReleasedRows(r, call.ctx), records, events, Threw(error))
    case ProbeCancelled => Trace([], records, events, Interrupted)
  }

  function TestAttempts(call: Call, r: B.Reservation, routes: seq<Route>, answers: TestAnswers,
          explicit: bool): Trace<Outcome<TestResult>>
  {
    var k := First(TestStops(answers, explicit), |routes|);
    if routes == [] then
      Trace(ReleasedRows(r, call.ctx), [Failure(B.Error, None, "HTTPException", call.began)], [],
          Threw(Http(404, "HTTPException")))
    else TestStop(call, r, routes, answers, if k < |routes| then k else k - 1)
  }

  function TestTrace(g: Setup, s: Books, t: TestRequest, call: Call, freshId: string,
          answers: TestAnswers): Trace<Outcome<TestResult>>
  {
    var entries := Opening(g, s.rows, Ping(t), call, true);
    match Admit(g, s.rows, Ping(t), call, true)
    case Refused(record, error) => Trace(entries, [record], [], Threw(error))
    case Admitted(d, e, r) =>
      var plan := TestPlanFor(g, HealthAt(g, s, call), t, d, freshId);
      if plan.NoTest? then
        Trace(entries + ReleasedRows(r, call.ctx), [Failure(B.Error, None, DetailCode(plan.error), call.began)], [],
            Threw(plan.error))
      else
        var t := TestAttempts(call, r, plan.routes, answers, Explicit(t));
        t.(ledger := entries + t.ledger)
  }

  // ---- The books after a call ----------------------------------------------------------------------------------

  /** The books once rows, records and outcomes have been added; `asked` is the
      breaker after planning. */
  function Booked(cfg: CB.Config, s: Books, ctx: B.Context, asked: map<string, CB.Circuit>, ledger: seq<B.LedgerRow>,
          records: seq<Record>, outcomes: seq<CB.Event>): Books
  {
    Books(s.ledger + ledger, s.records + records, s.rows + RowsOf(ctx, records), Apply(cfg, asked, outcomes))
  }

  function After<R>(g: Setup, s: Books, ctx: B.Context, asked: map<string, CB.Circuit>, t: Trace<R>): Books {
    Booked(g.breaker, s, ctx, asked, t.ledger, t.records, t.outcomes)
  }

  /** The breaker after a chat or stream has been planned. */
  function Asked(g: Setup, s: Books, q: ChatRequest, call: Call): map<string, CB.Circuit> {
    var a := Admit(g, s.rows, q, call, false);
    if a.Refused? then s.circuits
    else HealthAfter(g.settings, a.request, a.decision, HealthAt(g, s, call)).circuits
  }

  /** The breaker after a connection test has been planned. */
  function AskedByTest(g: Setup, s: Books, t: TestRequest, call: Call, freshId: string): map<string, CB.Circuit> {
    var a := Admit(g, s.rows, Ping(t), call, true);
    if a.Refused? || Scoped(g.settings, t, freshId).Some? then s.circuits
    else HealthAfter(g.settings, a.request, a.decision, HealthAt(g, s, call)).circuits
  }

  // ---- The routes of a call, and cancellation -----------------------------------------------------------------

  /** The routes a chat or a stream attempts; none if it is refused or not planned. */
  function PlannedRoutes(g: Setup, s: Books, q: ChatRequest, call: Call): seq<Route> {
    var a := Admit(g, s.rows, q, call, false);
    if a.Refused? then []
    else
      var plan := PlanFor(g.settings, a.request, a.decision, HealthAt(g, s, call));
      if plan.NoPlan? then [] else plan.routes
  }

  /** The routes a connection test probes; none if it is refused or not planned. */
  function ProbedRoutes(g: Setup, s: Books, t: TestRequest, call: Call, freshId: string): seq<Route> {
    var a := Admit(g, s.rows, Ping(t), call, true);
    if a.Refused? then []
    else
      var plan := TestPlanFor(g, HealthAt(g, s, call), t, a.decision, freshId);
      if plan.NoTest? then [] else plan.routes
  }

  /** The first attempt that does not raise is cancelled. */
  predicate ChatCancelled(routes: seq<Route>, answers: ChatAnswers) {
    exists k ::
      && 0 <= k < |routes| && answers(k).answer.Cancelled?
      && forall i :: 0 <= i < k ==> answers(i).answer.Raised?
  }

  /** A probe is cancelled after ones that let the test go on. */
  predicate ProbeCancelledFirst(routes: seq<Route>, answers: TestAnswers, explicit: bool) {
    exists k ::
      && 0 <= k < |routes| && answers(k).answer.ProbeCancelled? && (explicit ==> k == 0)
      && forall i :: 0 <= i < k ==>
           answers(i).answer.ProbeRaised? || (answers(i).answer.Probed? && !answers(i).answer.ok)
  }
}
