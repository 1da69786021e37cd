/** The single entry point for model calls (backend/app/llm/gateway.py) and the
    usage collector it reports to (backend/app/llm/usage.py). Each entry point is
    proved to leave exactly the trace that `Calls` gives in closed form. */
module Gateway {
  import opened Basics
  import opened Pricing
  import opened Policy
  import opened Router
  import opened Confinement
  import opened Calls
  import B = Budget
  import CB = CircuitBreaker
  import C = Calendar

  class UsageCollector {
    const session: B.Session
    var records: seq<Record>

    constructor (session: B.Session)
      ensures this.session == session && records == []
    {
      this.session, records := session, [];
    }

    /** `_append`: the in-memory record and the table row. */
    method Append(record: Record, ctx: B.Context)
      modifies this`records, session`usage
      ensures records == old(records) + [record]
      ensures session.usage == old(session.usage) + [RowOf(ctx, record)]
    {
      records := records + [record];
      session.usage := session.usage +
          [B.UsageRow(ctx, record.status, record.usage, record.deployment, record.createdAt)];
    }

    method RecordSuccess(ctx: B.Context, route: Route, modelKey: string, usage: Usage, at: Time)
      modifies this`records, session`usage
      ensures records == old(records) + [Calls.Success(route, modelKey, usage, at)]
      ensures session.usage == old(session.usage) + [RowOf(ctx, Calls.Success(route, modelKey, usage, at))]
    {
      Append(Record(B.Success, Some(route.deployment.id), Some(modelKey), usage, None, C.Instant(at)), ctx);
    }

    method RecordFailure(ctx: B.Context, status: B.CallStatus, code: string, route: Option<Route>, at: Time)
      modifies this`records, session`usage
      ensures records == old(records) + [Failure(status, route, code, at)]
      ensures session.usage == old(session.usage) + [RowOf(ctx, Failure(status, route, code, at))]
    {
      var deployment: Option<string>, modelKey: Option<string> := None, None;
      if route.Some? {
        deployment, modelKey := Some(route.value.deployment.id), Some(route.value.deployment.modelKey);
      }
      Append(Record(status, deployment, modelKey, NO_USAGE, Some(code), C.Instant(at)), ctx);
    }

    method RecordConnectionTest(ctx: B.Context, route: Route, ok: bool, modelKey: Option<string>, at: Time)
      modifies this`records, session`usage
      ensures records == old(records) + [Tested(route, ok, modelKey, at)]
      ensures session.usage == old(session.usage) + [RowOf(ctx, Tested(route, ok, modelKey, at))]
    {
      var model := Or(modelKey, Some(route.deployment.modelKey));
      if ok {
        Append(Record(B.Success, Some(route.deployment.id), model, NO_USAGE, None, C.Instant(at)), ctx);
      } else {
        Append(Record(B.Error, Some(route.deployment.id), model, NO_USAGE, Some("connection_test_failed"),
            C.Instant(at)), ctx);
      }
    }
  }

  // ---- Adding to the books one entry at a time ----------------------------------------------

  lemma NothingBooked(cfg: CB.Config, s: Books, ctx: B.Context)
    ensures Booked(cfg, s, ctx, s.circuits, [], [], []) == s
  {}

  lemma LedgerBooked(cfg: CB.Config, s: Books, ctx: B.Context, asked: map<string, CB.Circuit>, records: seq<Record>,
          outcomes: seq<CB.Event>, ledger: seq<B.LedgerRow>)
    ensures var b := Booked(cfg, s, ctx, asked, [], records, outcomes);
            && b.rows == s.rows + RowsOf(ctx, records)
            && b.(ledger := b.ledger + ledger) == Booked(cfg, s, ctx, asked, ledger, records, outcomes)
  {}

  lemma OneMoreBooked(cfg: CB.Config, s: Books, ctx: B.Context, asked: map<string, CB.Circuit>, records: seq<Record>,
          outcomes: seq<CB.Event>, ledger: seq<B.LedgerRow>, record: Record, outcome: CB.Event)
    ensures var b := Booked(cfg, s, ctx, asked, [], records, outcomes);
            Books(b.ledger + ledger, b.records + [record], b.rows + [RowOf(ctx, record)],
                CB.StepAll(cfg, b.circuits, outcome)) ==
            Booked(cfg, s, ctx, asked, ledger, records + [record], outcomes + [outcome])
  {
    hide CB.StepAll, RowOf;
    assert (outcomes + [outcome])[..|outcomes|] == outcomes;
    assert RowsOf(ctx, records + [record]) == RowsOf(ctx, records) + [RowOf(ctx, record)];
  }

  // ---- How each attempt that stops the loop ends it ----------------------------------------------

  lemma ChatReplied(g: Setup, rows: seq<B.UsageRow>, call: Call, r: B.Reservation, routes: seq<Route>,
          answers: ChatAnswers, k: nat)
    requires k < |routes| && (forall j :: 0 <= j < k ==> !ChatStops(answers)(j)) && answers(k).answer.Replied?
    ensures var response, at := answers(k).answer.response, answers(k).at;
            var actual := Recalculate(g.prices, response.usage, Some(response.modelKey));
            var failed := FailedRecords(routes, ChatFaults(answers), k);
            ChatAttempts(g, rows, call, r, routes, answers) ==
            Trace(SettledRows(g, rows + RowsOf(call.ctx, failed), r, actual, call.ctx, at),
                  failed + [Calls.Success(routes[k], response.modelKey, actual, at)],
                  FailedEvents(routes, ChatFaults(answers), k) + [Succeeded(routes[k], at)],
                  Returned(response.(usage := actual)))
  {
    FirstIs(ChatStops(answers), |routes|, k);
  }

  lemma ChatLeftOpen(g: Setup, rows: seq<B.UsageRow>, call: Call, r: B.Reservation, routes: seq<Route>,
          answers: ChatAnswers, k: nat)
    requires k < |routes| && (forall j :: 0 <= j < k ==> !ChatStops(answers)(j)) && answers(k).answer.Cancelled?
    ensures ChatAttempts(g, rows, call, r, routes, answers) ==
            Trace([], FailedRecords(routes, ChatFaults(answers), k), FailedEvents(routes, ChatFaults(answers), k),
                Interrupted)
  {
    FirstIs(ChatStops(answers), |routes|, k);
  }

  lemma ChatAllRaised(g: Setup, rows: seq<B.UsageRow>, call: Call, r: B.Reservation, routes: seq<Route>,
          answers: ChatAnswers)
    requires routes != [] && forall j :: 0 <= j < |routes| ==> !ChatStops(answers)(j)
    ensures ChatAttempts(g, rows, call, r, routes, answers) ==
            Trace(ReleasedRows(r, call.ctx), FailedRecords(routes, ChatFaults(answers), |routes|),
                  FailedEvents(routes, ChatFaults(answers), |routes|), Threw(ChatFaults(answers)(|routes| - 1).error))
  {}

  lemma OneMoreFailed(routes: seq<Route>, faults: nat -> Fault, k: nat)
    requires k < |routes|
    ensures FailedRecords(routes, faults, k + 1) ==
            FailedRecords(routes, faults, k) +
                [Failure(B.Error, Some(routes[k]), ClassName(faults(k).error), faults(k).at)]
    ensures FailedEvents(routes, faults, k + 1) ==
            FailedEvents(routes, faults, k) + [Failed(routes[k], ClassName(faults(k).error), faults(k).at)]
  {}

  lemma NoneFailed(routes: seq<Route>, faults: nat -> Fault)
    ensures FailedRecords(routes, faults, 0) == [] && FailedEvents(routes, faults, 0) == []
  {}

  lemma ChatNoRoutes(g: Setup, s: Books, call: Call, r: B.Reservation, routes: seq<Route>, answers: ChatAnswers)
    requires routes == []
    ensures var record := Failure(B.Error, None, "HTTPException", call.began);
            var t := ChatAttempts(g, s.rows, call, r, routes, answers);
            && t.result == Threw(Http(404, "HTTPException"))
            && After(g, s, call.ctx, s.circuits, t) ==
               s.(ledger := s.ledger + ReleasedRows(r, call.ctx), records := s.records + [record],
                  rows := s.rows + [RowOf(call.ctx, record)])
  {}

  lemma StreamStopped(g: Setup, rows: seq<B.UsageRow>, ctx: B.Context, e: ChatRequest, r: B.Reservation,
          routes: seq<Route>, answers: StreamAnswers, k: nat)
    requires k < |routes| && (forall j :: 0 <= j < k ==> !StreamStops(answers)(j)) && StreamStops(answers)(k)
    ensures First(StreamStops(answers), |routes|) == k
    ensures StreamAttempts(g, rows, ctx, e, r, routes, answers) == StreamStop(g, rows, ctx, e, r, routes, answers, k)
  {}

  lemma StreamAllFailed(g: Setup, rows: seq<B.UsageRow>, ctx: B.Context, e: ChatRequest, r: B.Reservation,
          routes: seq<Route>, answers: StreamAnswers)
    requires forall j :: 0 <= j < |routes| ==> !StreamStops(answers)(j)
    ensures First(StreamStops(answers), |routes|) == |routes|
    ensures StreamAttempts(g, rows, ctx, e, r, routes, answers) ==
            Trace(ReleasedRows(r, ctx), FailedRecords(routes, StreamFaults(answers), |routes|),
                  FailedEvents(routes, StreamFaults(answers), |routes|),
                  Threw(if routes == [] then Http(503, "HTTPException")
                        else StreamFaults(answers)(|routes| - 1).error))
  {}

  lemma TestStopped(call: Call, r: B.Reservation, routes: seq<Route>, answers: TestAnswers, explicit: bool, last: nat)
    requires last < |routes| && forall j :: 0 <= j < last ==> !TestStops(answers, explicit)(j)
    requires TestStops(answers, explicit)(last) || last == |routes| - 1
    ensures TestAttempts(call, r, routes, answers, explicit) == TestStop(call, r, routes, answers, last)
  {
    hide TestStop;
    FirstIs(TestStops(answers, explicit), |routes|, if TestStops(answers, explicit)(last) then last else |routes|);
  }

  lemma TestNoRoutes(g: Setup, s: Books, call: Call, r: B.Reservation, routes: seq<Route>, answers: TestAnswers,
          explicit: bool)
    requires routes == []
    ensures var record := Failure(B.Error, None, "HTTPException", call.began);
            var t := TestAttempts(call, r, routes, answers, explicit);
            && t.result == Threw(Http(404, "HTTPException"))
            && After(g, s, call.ctx, s.circuits, t) ==
               s.(ledger := s.ledger + ReleasedRows(r, call.ctx), records := s.records + [record],
                  rows := s.rows + [RowOf(call.ctx, record)])
  {}

  class LLMGateway {
    const rules: seq<Policy.Rule>
    const budget: B.BudgetGuard
    const router: ModelRouter
    const usage: UsageCollector
    const breaker: CB.Breaker

    constructor (rules: seq<Policy.Rule>, budget: B.BudgetGuard, router: ModelRouter, usage: UsageCollector,
            breaker: CB.Breaker)
      ensures Valid() <==> usage.session == budget.session && router.breaker == breaker
      ensures this.rules == rules && this.budget == budget && this.router == router
      ensures this.usage == usage && this.breaker == breaker
    {
      this.rules, this.budget, this.router, this.usage, this.breaker := rules, budget, router, usage, breaker;
    }

    /** One session and one breaker, as the gateway is wired. */
    predicate Valid() { usage.session == budget.session && router.breaker == breaker }

    function Wiring(): Setup
      reads budget.session`policies, breaker`cfg
    {
      Setup(rules, budget.session.policies, budget.prices, router.settings, breaker.cfg)
    }

    function Now(): Books
      reads budget.session`ledger, budget.session`usage, usage`records, breaker`circuits
    {
      Books(budget.session.ledger, usage.records, budget.session.usage, breaker.circuits)
    }

    /** Policy and budget, shared by the three entry points. */
    method Govern(q: ChatRequest, call: Call, probe: bool) returns (a: Admission)
      requires Valid()
      modifies budget.session`ledger, budget.session`usage, usage`records
      ensures var g, s := old(Wiring()), old(Now());
              && a == Admit(g, s.rows, q, call, probe)
              && Now() == s.(ledger := s.ledger + Opening(g, s.rows, q, call, probe),
                             records := if a.Refused? then s.records + [a.record] else s.records,
                             rows := if a.Refused? then s.rows + [RowOf(call.ctx, a.record)] else s.rows)
    {
      hide Evaluate, Estimate, B.ReserveOutcome, B.ReserveRows;
      var decision := Evaluate(rules, q, call.ctx);
      if !decision.allowed {
        usage.RecordFailure(call.ctx, B.Denied, "policy_denied", None, call.began);
        return Refused(Failure(B.Denied, None, "policy_denied", call.began), Http(403, "HTTPException"));
      }
      var request := if probe then q else EffectiveRequest(q, decision);
      var reservation := budget.ReserveCall(request, call.ctx, call.began, call.id, call.storageUp);
      if !reservation.approved {
        usage.RecordFailure(call.ctx, B.BudgetExceeded, "budget_exceeded", None, call.began);
        return Refused(Failure(B.BudgetExceeded, None, "budget_exceeded", call.began), Http(402, "HTTPException"));
      }
      a := Admitted(decision, request, reservation);
    }

    /** Books a failed attempt with the breaker and the collector. */
    method BookFailure(route: Route, error: Exn, ctx: B.Context, at: Time)
      requires Valid()
      modifies budget.session`usage, usage`records, breaker`circuits
      ensures var s := old(Now());
              var record := Failure(B.Error, Some(route), ClassName(error), at);
              Now() == s.(records := s.records + [record], rows := s.rows + [RowOf(ctx, record)],
                          circuits := CB.StepAll(breaker.cfg, s.circuits, Failed(route, ClassName(error), at)))
    {
      hide CB.StepAll;
      breaker.RecordFailure(route.deployment.id, Some(ClassName(error)), C.Instant(at));
      usage.RecordFailure(ctx, B.Error, ClassName(error), Some(route), at);
    }

    /** Books a completed call: breaker, settlement, and only then its usage row. */
    method BookSuccess(route: Route, modelKey: string, actual: Usage, r: B.Reservation, ctx: B.Context, at: Time)
      requires Valid() && r.approved
      modifies budget.session`ledger, budget.session`usage, usage`records, breaker`circuits
      ensures var g, s := old(Wiring()), old(Now());
              var record := Calls.Success(route, modelKey, actual, at);
              Now() == Books(s.ledger + SettledRows(g, s.rows, r, actual, ctx, at), s.records + [record],
                             s.rows + [RowOf(ctx, record)], CB.StepAll(breaker.cfg, s.circuits, Succeeded(route, at)))
    {
      hide CB.StepAll, B.SettleRows;
      breaker.RecordSuccess(route.deployment.id, C.Instant(at));
      budget.SettleCall(r, actual, ctx, at);
      usage.RecordSuccess(ctx, route, modelKey, actual, at);
    }

    method BookRelease(r: B.Reservation, ctx: B.Context)
      requires Valid() && r.approved
      modifies budget.session`ledger
      ensures var s := old(Now()); Now() == s.(ledger := s.ledger + ReleasedRows(r, ctx))
    {
      budget.ReleaseCall(r, ctx);
    }

    method Chat(q: ChatRequest, call: Call, answers: ChatAnswers) returns (result: Outcome<Response>)
      requires Valid()
      modifies budget.session`ledger, budget.session`usage, usage`records, breaker`circuits
      ensures var g, s := old(Wiring()), old(Now());
              var t := ChatTrace(g, s, q, call, answers);
              result == t.result && Now() == After(g, s, call.ctx, Asked(g, s, q, call), t)
    {
      hide Admit, Opening, PlanFor, HealthAfter, CB.StepAll, ChatAttempts, Apply;
      ghost var g, s := Wiring(), Now();
      var admission := Govern(q, call, false);
      if admission.Refused? {
        NothingApplied(g.breaker, s.circuits);
        return Threw(admission.error);
      }
      var decision, request, reservation := admission.decision, admission.request, admission.reservation;
      AdmittedIsApproved(g, s.rows, q, call, false);
      var plan := router.PlanRoutes(request, decision, C.Instant(call.began));
      NothingApplied(g.breaker, breaker.circuits);
      if plan.NoPlan? {
        var error := PlanExn(plan.error);
        usage.RecordFailure(call.ctx, B.Error, DetailCode(error), None, call.began);
        BookRelease(reservation, call.ctx);
        return Threw(error);
      }
      result := TryRoutes(call, reservation, plan.routes, answers);
    }

    /** The fallback loop of `chat`. */
    method TryRoutes(call: Call, r: B.Reservation, routes: seq<Route>, answers: ChatAnswers)
      returns (result: Outcome<Response>)
      requires Valid() && r.approved
      modifies budget.session`ledger, budget.session`usage, usage`records, breaker`circuits
      ensures var g, s := old(Wiring()), old(Now());
              var t := ChatAttempts(g, s.rows, call, r, routes, answers);
              result == t.result && Now() == After(g, s, call.ctx, s.circuits, t)
    {
      hide CB.StepAll, Booked, ChatAttempts, FailedRecords, FailedEvents, SettledRows, ReleasedRows, RowsOf, RowOf;
      hide Failure, Calls.Success, Failed, Succeeded, Recalculate, First;
      ghost var g, s := Wiring(), Now();
      ghost var faults := ChatFaults(answers);
      var ctx := call.ctx;
      NothingBooked(g.breaker, s, ctx);
      NoneFailed(routes, faults);
      var i := 0;
      while i < |routes|
        invariant 0 <= i <= |routes| && (routes == [] || i < |routes|)
        invariant forall j :: 0 <= j < i ==> !ChatStops(answers)(j)
        invariant Wiring() == g
        invariant Now() == Booked(g.breaker, s, ctx, s.circuits, [], FailedRecords(routes, faults, i),
            FailedEvents(routes, faults, i))
      {
        var attempt, route := answers(i), routes[i];
        ghost var records, events := FailedRecords(routes, faults, i), FailedEvents(routes, faults, i);
        match attempt.answer {
          case Replied(response) =>
            ChatReplied(g, s.rows, call, r, routes, answers, i);
            var actual := Recalculate(budget.prices, response.usage, Some(response.modelKey));
            LedgerBooked(g.breaker, s, ctx, s.circuits, records, events, []);
            OneMoreBooked(g.breaker, s, ctx, s.circuits, records, events,
                          SettledRows(g, s.rows + RowsOf(ctx, records), r, actual, ctx, attempt.at),
                          Calls.Success(route, response.modelKey, actual, attempt.at), Succeeded(route, attempt.at));
            BookSuccess(route, response.modelKey, actual, r, ctx, attempt.at);
            return Returned(response.(usage := actual));
          case Raised(error) =>
            OneMoreBooked(g.breaker, s, ctx, s.circuits, records, events, [],
                          Failure(B.Error, Some(route), ClassName(error), attempt.at),
                              Failed(route, ClassName(error), attempt.at));
            BookFailure(route, error, ctx, attempt.at);
            OneMoreFailed(routes, faults, i);
            if i == |routes| - 1 {
              ChatAllRaised(g, s.rows, call, r, routes, answers);
              LedgerBooked(g.breaker, s, ctx, s.circuits, FailedRecords(routes, faults, i + 1),
                  FailedEvents(routes, faults, i + 1),
                           ReleasedRows(r, ctx));
              BookRelease(r, ctx);
              return Threw(error);
            }
          case Cancelled =>
            ChatLeftOpen(g, s.rows, call, r, routes, answers, i);
            return Interrupted;
        }
        i := i + 1;
      }
      ChatNoRoutes(g, s, call, r, routes, answers);
      usage.RecordFailure(ctx, B.Error, "HTTPException", None, call.began);
      BookRelease(r, ctx);
      result := Threw(Http(404, "HTTPException"));
    }

    method StreamChat(q: ChatRequest, call: Call, answers: StreamAnswers)
      returns (sent: seq<string>, result: Outcome<string>)
      requires Valid()
      modifies budget.session`ledger, budget.session`usage, usage`records, breaker`circuits
      ensures var g, s := old(Wiring()), old(Now());
              var t := StreamTrace(g, s, q, call, answers);
              && result == t.result && Now() == After(g, s, call.ctx, Asked(g, s, q, call), t)
              && sent == Yields(g, s, q, call, answers)
    {
      hide Admit, Opening, PlanFor, HealthAfter, CB.StepAll, StreamAttempts, Apply;
      ghost var g, s := Wiring(), Now();
      var admission := Govern(q, call, false);
      if admission.Refused? {
        NothingApplied(g.breaker, s.circuits);
        return [], Threw(admission.error);
      }
      var decision, request, reservation := admission.decision, admission.request, admission.reservation;
      AdmittedIsApproved(g, s.rows, q, call, false);
      var plan := router.PlanRoutes(request, decision, C.Instant(call.began));
      NothingApplied(g.breaker, breaker.circuits);
      if plan.NoPlan? {
        BookRelease(reservation, call.ctx);
        return [], Threw(PlanExn(plan.error));
      }
      sent, result := StreamRoutes(call.ctx, request, reservation, plan.routes, answers);
    }

    /** Passes one route's deltas on to the client. */
    method ForwardDeltas(deltas: seq<string>, before: seq<string>)
      returns (sent: seq<string>, content: string, yieldedContent: bool)
      ensures sent == before + deltas && content == Content(deltas) && (yieldedContent <==> Content(deltas) != "")
    {
      sent, content, yieldedContent := before, "", false;
      var j := 0;
      while j < |deltas|
        invariant 0 <= j <= |deltas|
        invariant sent == before + deltas[..j]
        invariant content == Content(deltas[..j])
        invariant yieldedContent <==> content != ""
      {
        assert deltas[..j + 1][..j] == deltas[..j];
        content := content + deltas[j];
        yieldedContent := yieldedContent || deltas[j] != "";
        sent := sent + [deltas[j]];
        j := j + 1;
      }
      assert deltas[..j] == deltas;
    }

    /** One attempt of `stream_chat`; no result means that the next route is tried.
        `s` are the books before the first attempt. */
    method StreamRoute(ghost s: Books, ctx: B.Context, request: ChatRequest, r: B.Reservation, routes: seq<Route>,
            answers: StreamAnswers, i: nat, before: seq<string>)
        returns (sent: seq<string>, result: Option<Outcome<string>>)
      requires Valid() && r.approved && i < |routes|
      requires Now() == Booked(breaker.cfg, s, ctx, s.circuits, [], FailedRecords(routes, StreamFaults(answers), i),
                               FailedEvents(routes, StreamFaults(answers), i))
      modifies budget.session`ledger, budget.session`usage, usage`records, breaker`circuits
      ensures sent == before + answers(i).answer.deltas
      ensures result.Some? <==> StreamStops(answers)(i)
      ensures result.Some? ==>
                var t := StreamStop(Wiring(), s.rows, ctx, request, r, routes, answers, i);
                result.value == t.result && Now() == After(Wiring(), s, ctx, s.circuits, t)
      ensures result.None? ==>
                Now() == Booked(breaker.cfg, s, ctx, s.circuits, [],
                    FailedRecords(routes, StreamFaults(answers), i + 1),
                                FailedEvents(routes, StreamFaults(answers), i + 1))
    {
      hide CB.StepAll, Booked, FailedRecords, FailedEvents, SettledRows, ReleasedRows, RowsOf, RowOf;
      hide Failure, Calls.Success, Failed, Succeeded, StreamUsage, Content;
      ghost var g, faults := Wiring(), StreamFaults(answers);
      var attempt, route := answers(i), routes[i];
      ghost var records, events := FailedRecords(routes, faults, i), FailedEvents(routes, faults, i);
      LedgerBooked(g.breaker, s, ctx, s.circuits, records, events, ReleasedRows(r, ctx));
      var content, yieldedContent;
      sent, content, yieldedContent := ForwardDeltas(attempt.answer.deltas, before);
      match attempt.answer.end {
        case Finished =>
          var actual := EstimateStreamed(request, route, content);
          OneMoreBooked(g.breaker, s, ctx, s.circuits, records, events,
                        SettledRows(g, s.rows + RowsOf(ctx, records), r, actual, ctx, attempt.at),
                        Calls.Success(route, route.deployment.modelKey, actual, attempt.at),
                            Succeeded(route, attempt.at));
          BookSuccess(route, route.deployment.modelKey, actual, r, ctx, attempt.at);
          result := Some(Returned(content));
        case ClientGone =>
          BookRelease(r, ctx);
          result := Some(Interrupted);
        case Broke(error) =>
          if error.Http? {
            BookRelease(r, ctx);
            return sent, Some(Threw(error));
          }
          OneMoreBooked(g.breaker, s, ctx, s.circuits, records, events, [],
                        Failure(B.Error, Some(route), ClassName(error), attempt.at),
                            Failed(route, ClassName(error), attempt.at));
          BookFailure(route, error, ctx, attempt.at);
          OneMoreFailed(routes, faults, i);
          if yieldedContent {
            LedgerBooked(g.breaker, s, ctx, s.circuits, FailedRecords(routes, faults, i + 1),
                FailedEvents(routes, faults, i + 1),
                         ReleasedRows(r, ctx));
            BookRelease(r, ctx);
            return sent, Some(Threw(error));
          }
          result := None;
      }
    }

    /** The fallback loop of `stream_chat`. */
    method StreamRoutes(ctx: B.Context, request: ChatRequest, r: B.Reservation, routes: seq<Route>,
            answers: StreamAnswers)
        returns (sent: seq<string>, result: Outcome<string>)
      requires Valid() && r.approved
      modifies budget.session`ledger, budget.session`usage, usage`records, breaker`circuits
      ensures var g, s := old(Wiring()), old(Now());
              var t := StreamAttempts(g, s.rows, ctx, request, r, routes, answers);
              var k := First(StreamStops(answers), |routes|);
              && result == t.result && Now() == After(g, s, ctx, s.circuits, t)
              && sent == DeltasBefore(answers, if k < |routes| then k + 1 else k)
    {
      hide Booked, StreamAttempts, StreamStop, FailedRecords, FailedEvents, ReleasedRows, First;
      ghost var g, s := Wiring(), Now();
      NothingBooked(g.breaker, s, ctx);
      NoneFailed(routes, StreamFaults(answers));
      sent := [];
      var lastError := Http(503, "HTTPException");
      var i := 0;
      while i < |routes|
        invariant 0 <= i <= |routes|
        invariant forall j :: 0 <= j < i ==> !StreamStops(answers)(j)
        invariant Wiring() == g
        invariant Now() == Booked(g.breaker, s, ctx, s.circuits, [], FailedRecords(routes, StreamFaults(answers), i),
                                  FailedEvents(routes, StreamFaults(answers), i))
        invariant sent == DeltasBefore(answers, i)
        invariant lastError == if i == 0 then Http(503, "HTTPException") else StreamFaults(answers)(i - 1).error
      {
        var stopped;
        sent, stopped := StreamRoute(s, ctx, request, r, routes, answers, i, sent);
        if stopped.Some? {
          StreamStopped(g, s.rows, ctx, request, r, routes, answers, i);
          return sent, stopped.value;
        }
        lastError := answers(i).answer.end.error;
        i := i + 1;
      }
      StreamAllFailed(g, s.rows, ctx, request, r, routes, answers);
      LedgerBooked(g.breaker, s, ctx, s.circuits, FailedRecords(routes, StreamFaults(answers), i),
                   FailedEvents(routes, StreamFaults(answers), i), ReleasedRows(r, ctx));
      BookRelease(r, ctx);
      result := Threw(lastError);
    }

    /** Usage is not reported for a stream, so it is estimated from what was sent. */
    method EstimateStreamed(request: ChatRequest, route: Route, content: string) returns (actual: Usage)
      ensures actual == StreamUsage(Wiring(), request, route, content)
    {
      var outputTokens := if content == "" then 0 else Max(1, |content| / 4);
      actual := Calculate(budget.prices, Estimate(budget.prices, request).inputTokens, outputTokens,
          Some(route.deployment.modelKey));
    }

    method TestConnection(t: TestRequest, call: Call, freshId: string, answers: TestAnswers)
      returns (result: Outcome<TestResult>)
      requires Valid()
      modifies budget.session`ledger, budget.session`usage, usage`records, breaker`circuits
      ensures var g, s := old(Wiring()), old(Now());
              var trace := TestTrace(g, s, t, call, freshId, answers);
              result == trace.result && Now() == After(g, s, call.ctx, AskedByTest(g, s, t, call, freshId), trace)
    {
      hide Admit, Opening, Scoped, PlanFor, HealthAfter, CB.StepAll, TestAttempts, Apply;
      ghost var g, s := Wiring(), Now();
      var admission := Govern(Ping(t), call, true);
      if admission.Refused? {
        NothingApplied(g.breaker, s.circuits);
        return Threw(admission.error);
      }
      AdmittedIsApproved(g, s.rows, Ping(t), call, true);
      var reservation := admission.reservation;
      var plan := RoutesForConnectionTest(t, admission.decision, call, freshId);
      NothingApplied(g.breaker, breaker.circuits);
      if plan.NoTest? {
        usage.RecordFailure(call.ctx, B.Error, DetailCode(plan.error), None, call.began);
        BookRelease(reservation, call.ctx);
        return Threw(plan.error);
      }
      result := Probe(call, reservation, plan.routes, answers, Explicit(t));
    }

    method RoutesForConnectionTest(t: TestRequest, d: Decision, call: Call, freshId: string) returns (plan: TestPlan)
      requires Valid()
      modifies breaker`circuits
      ensures var g, s := old(Wiring()), old(Now());
              && plan == TestPlanFor(g, HealthAt(g, s, call), t, d, freshId)
              && breaker.circuits ==
                 if Scoped(g.settings, t, freshId).Some? then s.circuits
                 else HealthAfter(g.settings, Ping(t), d, HealthAt(g, s, call)).circuits
    {
      hide Filter, Sorted, PlanFor, HealthAfter;
      var s := router.settings;
      if t.deploymentId.Some? {
        var matches := Filter(s.deployments, HasId(t.deploymentId.value));
        if matches == [] { return NoTest(Http(404, "HTTPException")); }
        if matches[0].providerKey !in s.providers { return NoTest(Other("KeyError")); }
        var target := if Temporary(t) then TemporaryDeployment(t, matches[0].providerKey, Some(matches[0]), freshId)
            else matches[0];
        return TestRoutes([Route(target, ConnectionTest)]);
      }
      if Truthy(t.providerKey) {
        var key := t.providerKey.value;
        var matches := Sorted(Filter(s.deployments, HasProvider(key)));
        if key in s.providers && Temporary(t) {
          var found := if matches == [] then None else Some(matches[0]);
          return TestRoutes([Route(TemporaryDeployment(t, key, found, freshId), ConnectionTest)]);
        }
        if key in s.providers && matches != [] { return TestRoutes(RoutesFor(matches, ConnectionTest)); }
      }
      var asked := router.PlanRoutes(Ping(t), d, C.Instant(call.began));
      plan := if asked.NoPlan? then NoTest(PlanExn(asked.error)) else TestRoutes(asked.routes);
    }

    /** The probing loop of `test_connection`. */
    method Probe(call: Call, r: B.Reservation, routes: seq<Route>, answers: TestAnswers, explicit: bool)
      returns (result: Outcome<TestResult>)
      requires Valid() && r.approved
      modifies budget.session`ledger, budget.session`usage, usage`records, breaker`circuits
      ensures var g, s := old(Wiring()), old(Now());
              var t := TestAttempts(call, r, routes, answers, explicit);
              result == t.result && Now() == After(g, s, call.ctx, s.circuits, t)
    {
      hide CB.StepAll, Booked, TestAttempts, ProbesRecords, ProbesEvents, ReleasedRows, RowsOf, RowOf;
      hide Failure, Tested, Failed, Succeeded, First;
      ghost var g, s := Wiring(), Now();
      var ctx := call.ctx;
      NothingBooked(g.breaker, s, ctx);
      NoneProbed(routes, answers);
      var lastResult: Option<TestResult> := None;
      var i := 0;
      while i < |routes|
        invariant 0 <= i <= |routes|
        invariant forall j :: 0 <= j < i ==> !TestStops(answers, explicit)(j)
        invariant Wiring() == g
        invariant Now() == Booked(g.breaker, s, ctx, s.circuits, [], ProbesRecords(routes, answers, i),
            ProbesEvents(routes, answers, i))
        invariant i == |routes| && routes != [] ==> answers(i - 1).answer.Probed?
        invariant i > 0 && answers(i - 1).answer.Probed? ==>
                    lastResult == Some(TestResult(answers(i - 1).answer.ok, answers(i - 1).answer.modelKey))
        invariant i == 0 ==> lastResult == None
      {
        var attempt, route := answers(i), routes[i];
        ghost var records, events := ProbesRecords(routes, answers, i), ProbesEvents(routes, answers, i);
        OneMoreProbed(routes, answers, i);
        LedgerBooked(g.breaker, s, ctx, s.circuits, ProbesRecords(routes, answers, i + 1),
                     ProbesEvents(routes, answers, i + 1), ReleasedRows(r, ctx));
        if TestStops(answers, explicit)(i) || i == |routes| - 1 {
          TestStopped(call, r, routes, answers, explicit, i);
        }
        match attempt.answer {
          case Probed(ok, modelKey) =>
            OneMoreBooked(g.breaker, s, ctx, s.circuits, records, events, [], Tested(route, ok, modelKey, attempt.at),
                          if ok then Succeeded(route, attempt.at)
                          else Failed(route, "connection_test_failed", attempt.at));
            lastResult := Some(TestResult(ok, modelKey));
            BookProbe(route, ok, modelKey, ctx, attempt.at);
            if ok || explicit {
              BookRelease(r, ctx);
              return Returned(TestResult(ok, modelKey));
            }
          case ProbeRaised(error) =>
            OneMoreBooked(g.breaker, s, ctx, s.circuits, records, events, [],
                          Failure(B.Error, Some(route), ClassName(error), attempt.at),
                              Failed(route, ClassName(error), attempt.at));
            BookFailure(route, error, ctx, attempt.at);
            if explicit || i == |routes| - 1 {
              BookRelease(r, ctx);
              return Threw(error);
            }
          case ProbeCancelled =>
            assert records + [] == records && events + [] == events;
            return Interrupted;
        }
        i := i + 1;
      }
      if lastResult.Some? {
        TestStopped(call, r, routes, answers, explicit, i - 1);
        LedgerBooked(g.breaker, s, ctx, s.circuits, ProbesRecords(routes, answers, i),
            ProbesEvents(routes, answers, i), ReleasedRows(r, ctx));
        BookRelease(r, ctx);
        return Returned(lastResult.value);
      }
      TestNoRoutes(g, s, call, r, routes, answers, explicit);
      usage.RecordFailure(ctx, B.Error, "HTTPException", None, call.began);
      BookRelease(r, ctx);
      result := Threw(Http(404, "HTTPException"));
    }

    /** Books what one probe returned. */
    method BookProbe(route: Route, ok: bool, modelKey: Option<string>, ctx: B.Context, at: Time)
      requires Valid()
      modifies budget.session`usage, usage`records, breaker`circuits
      ensures var s := old(Now());
              var record := Tested(route, ok, modelKey, at);
              var outcome := if ok then Succeeded(route, at) else Failed(route, "connection_test_failed", at);
              Now() == s.(records := s.records + [record], rows := s.rows + [RowOf(ctx, record)],
                          circuits := CB.StepAll(breaker.cfg, s.circuits, outcome))
    {
      hide CB.StepAll;
      if ok {
        breaker.RecordSuccess(route.deployment.id, C.Instant(at));
      } else {
        breaker.RecordFailure(route.deployment.id, Some("connection_test_failed"), C.Instant(at));
      }
      usage.RecordConnectionTest(ctx, route, ok, modelKey, at);
    }
  }

  lemma NothingApplied(cfg: CB.Config, m: map<string, CB.Circuit>)
    ensures Apply(cfg, m, []) == m
  {}

  lemma AdmittedIsApproved(g: Setup, rows: seq<B.UsageRow>, q: ChatRequest, call: Call, probe: bool)
    ensures var a := Admit(g, rows, q, call, probe);
            a.Admitted? ==> a.reservation.approved && (probe ==> a.request == q)
  {}
}
