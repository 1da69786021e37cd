/** What a governed call reserves (backend/app/llm/gateway.py, policy.py, budget.py,
    pricing.py): the estimate in its ledger rows, and the admission that depends on it. */
module Reservations {
  import opened Basics
  import opened Pricing
  import opened Policy
  import opened Router
  import opened Calls
  import opened Fallback
  import Targets
  import B = Budget
  import C = Calendar

  // ---- What the caller and the deciding rule ask for ------------------------------------------

  /** The output tokens to reserve: what the request names, within what the deciding
      rule allows, or 512. */
  function OutputTokens(q: ChatRequest, d: Decision): nat {
    var cap := if d.reason.AllowedBy? then d.reason.rule.maxTokens else None;
    var tokens :=
      if q.maxTokens.None? then (if cap.Some? then cap.value else 0)
      else if cap.Some? && cap.value < q.maxTokens.value then cap.value
      else q.maxTokens.value;
    if tokens == 0 then 512 else tokens
  }

  /** The model to reserve for: the one named, or the default of the deciding rule. */
  function Model(q: ChatRequest, d: Decision): Option<string> {
    if !Truthy(q.modelKey) && d.reason.AllowedBy? then d.reason.rule.defaultModelKey else q.modelKey
  }

  /** A row of the call's own reservation: reserve and deny rows carry the estimate
      itself, the rows that close a reservation its tokens and its cost, and only what
      is settled carries a usage of its own. */
  predicate Carries(row: B.LedgerRow, call: Call, estimate: Usage) {
    && row.reservation == call.id && row.ctx == call.ctx
    && (row.event.Settle? || row.event.Alert? || row.actual == NO_USAGE)
    && if row.event.Reserve? || row.event.Deny? then row.estimated == estimate
       else row.estimated.totalTokens == estimate.totalTokens && row.estimated.costMicros == estimate.costMicros
  }

  ghost predicate AllCarry(ledger: seq<B.LedgerRow>, call: Call, estimate: Usage) {
    forall i :: 0 <= i < |ledger| ==> Carries(ledger[i], call, estimate)
  }

  /** A reservation of the call for the estimate. */
  predicate Reserves(r: B.Reservation, call: Call, estimate: Usage) {
    r.id == call.id && r.estimatedTokens == estimate.totalTokens && r.estimatedMicros == estimate.costMicros
  }

  /** The budget tables can be read, and every active hard policy of the tenant that is
      for the caller has room for the estimate. */
  ghost predicate Affords(g: Setup, rows: seq<B.UsageRow>, call: Call, estimate: Usage) {
    && call.storageUp
    && forall p :: p in g.policies && B.Governs(p, call.ctx) && p.hard ==> B.HasRoom(p, call.began, rows, estimate)
  }

  // ---- The rows of a call ---------------------------------------------------------------------

  lemma CarryConcat(a: seq<B.LedgerRow>, b: seq<B.LedgerRow>, call: Call, estimate: Usage)
    requires AllCarry(a, call, estimate) && AllCarry(b, call, estimate)
    ensures AllCarry(a + b, call, estimate)
  {}

  lemma {:induction false} SettlementCarries(policies: seq<B.Policy>, rows: seq<B.UsageRow>, r: B.Reservation,
          actual: Usage, call: Call, at: Time, n: nat, estimate: Usage)
    requires n <= |r.scopes| && Reserves(r, call, estimate)
    ensures AllCarry(B.SettleRows(policies, rows, r, actual, call.ctx, at, n), call, estimate)
  {
    hide B.Alerts, C.PeriodWindow, B.PolicyById;
    if n > 0 { SettlementCarries(policies, rows, r, actual, call, at, n - 1, estimate); }
  }

  lemma AttemptsCarry(g: Setup, rows: seq<B.UsageRow>, call: Call, e: ChatRequest, r: B.Reservation,
          routes: seq<Route>, chat: ChatAnswers, stream: StreamAnswers, estimate: Usage)
    requires Reserves(r, call, estimate)
    ensures AllCarry(ChatAttempts(g, rows, call, r, routes, chat).ledger, call, estimate)
    ensures AllCarry(StreamAttempts(g, rows, call.ctx, e, r, routes, stream).ledger, call, estimate)
    ensures AllCarry(ReleasedRows(r, call.ctx), call, estimate)
  {
    hide B.SettleRows, FailedRecords, FailedEvents, Recalculate, StreamUsage, First, Content, RowsOf;
    forall settled: seq<B.UsageRow>, actual: Usage, at: Time
      ensures AllCarry(B.SettleRows(g.policies, settled, r, actual, call.ctx, at, |r.scopes|), call, estimate)
    {
      SettlementCarries(g.policies, settled, r, actual, call, at, |r.scopes|, estimate);
    }
    var n := |routes|;
    FirstStops(ChatStops(chat), n);
    FirstStops(StreamStops(stream), n);
  }

  lemma OpeningCarries(g: Setup, rows: seq<B.UsageRow>, q: ChatRequest, call: Call, probe: bool)
    ensures var d := Evaluate(g.rules, q, call.ctx);
            AllCarry(Opening(g, rows, q, call, probe), call, Estimate(g.prices, Reserved(q, d, probe)))
  {
    hide Evaluate, Estimate, B.FirstDenial, B.Applicable, Reserved;
  }

  lemma AdmissionIs(g: Setup, rows: seq<B.UsageRow>, q: ChatRequest, call: Call, probe: bool)
    ensures var d := Evaluate(g.rules, q, call.ctx);
            var estimate := Estimate(g.prices, Reserved(q, d, probe));
            var a := Admit(g, rows, q, call, probe);
            && (a.Admitted? <==> d.allowed && Affords(g, rows, call, estimate))
            && (a.Admitted? ==> Reserves(a.reservation, call, estimate))
  {
    hide Evaluate, Estimate, B.FirstDenial, B.Applicable, Reserved, B.HasRoom, B.Governs;
    var estimate := Estimate(g.prices, Reserved(q, Evaluate(g.rules, q, call.ctx), probe));
    B.ReservedExactlyWhen(g.policies, call.ctx, call.began, rows, estimate, call.id);
  }

  lemma TestCarries(call: Call, r: B.Reservation, routes: seq<Route>, answers: TestAnswers, explicit: bool,
          estimate: Usage)
    requires Reserves(r, call, estimate)
    ensures AllCarry(TestAttempts(call, r, routes, answers, explicit).ledger, call, estimate)
    ensures AllCarry(ReleasedRows(r, call.ctx), call, estimate)
  {
    hide ProbesRecords, ProbesEvents, First;
    FirstStops(TestStops(answers, explicit), |routes|);
  }

  // ---- The theorems ---------------------------------------------------------------------------

  /** What the request and the decision come to. */
  lemma EffectiveIs(rules: seq<Policy.Rule>, q: ChatRequest, ctx: B.Context)
    ensures var d := Evaluate(rules, q, ctx);
            var e := Reserved(q, d, false);
            && e.messages == q.messages
            && (d.allowed ==>
                  && e.modelKey == Model(q, d)
                  && OutputTokens(q, d) ==
                     if e.maxTokens.None? || e.maxTokens == Some(0) then 512 else e.maxTokens.value)
  {
    hide MatchingPolicies;
  }

  /** What a chat or a stream is estimated at, and the admission that depends on it. */
  lemma Estimated(g: Setup, rows: seq<B.UsageRow>, q: ChatRequest, call: Call) returns (estimate: Usage)
    ensures var d := Evaluate(g.rules, q, call.ctx);
            && estimate == Estimate(g.prices, Reserved(q, d, false))
            && (d.allowed ==>
                  Costs(estimate, g.prices(Model(q, d)), PromptTokens(q.messages), OutputTokens(q, d)))
            && (Admit(g, rows, q, call, false).Admitted? <==> d.allowed && Affords(g, rows, call, estimate))
    ensures var a := Admit(g, rows, q, call, false); a.Admitted? ==> Reserves(a.reservation, call, estimate)
  {
    hide Evaluate, Estimate, Affords, Admit, Costs;
    var e := Reserved(q, Evaluate(g.rules, q, call.ctx), false);
    estimate := Estimate(g.prices, e);
    EffectiveIs(g.rules, q, call.ctx);
    EstimateCosts(g.prices, e);
    AdmissionIs(g, rows, q, call, false);
  }

  /** A chat or a stream reserves for its prompt, and for the output the request names
      within the cap of the rule that decided, or 512 tokens, at the prices of the
      model decided on: every ledger row carries that estimate, and the call is
      admitted exactly when every hard policy that applies has room for it. */
  lemma CallReserves(g: Setup, s: Books, q: ChatRequest, call: Call, chat: ChatAnswers, stream: StreamAnswers)
    returns (estimate: Usage)
    ensures var d := Evaluate(g.rules, q, call.ctx);
            && (d.allowed ==>
                  Costs(estimate, g.prices(Model(q, d)), PromptTokens(q.messages), OutputTokens(q, d)))
            && (Admit(g, s.rows, q, call, false).Admitted? <==> d.allowed && Affords(g, s.rows, call, estimate))
    ensures AllCarry(ChatTrace(g, s, q, call, chat).ledger, call, estimate)
    ensures AllCarry(StreamTrace(g, s, q, call, stream).ledger, call, estimate)
  {
    hide Evaluate, Estimate, Affords, Opening, Admit, AllCarry, ChatAttempts, StreamAttempts,
         PlanFor, ReleasedRows, Costs;
    estimate := Estimated(g, s.rows, q, call);
    OpeningCarries(g, s.rows, q, call, false);
    var a := Admit(g, s.rows, q, call, false);
    if a.Admitted? {
      AdmittedAs(g, s.rows, q, call, false);
      var plan := PlanFor(g.settings, a.request, a.decision, HealthAt(g, s, call));
      var routes := if plan.Routes? then plan.routes else [];
      var opening := Opening(g, s.rows, q, call, false);
      AttemptsCarry(g, s.rows, call, a.request, a.reservation, routes, chat, stream, estimate);
      CarryConcat(opening, ReleasedRows(a.reservation, call.ctx), call, estimate);
      CarryConcat(opening, ChatAttempts(g, s.rows, call, a.reservation, routes, chat).ledger, call, estimate);
      var streamed := StreamAttempts(g, s.rows, call.ctx, a.request, a.reservation, routes, stream).ledger;
      CarryConcat(opening, streamed, call, estimate);
    }
  }

  lemma AdmittedAs(g: Setup, rows: seq<B.UsageRow>, q: ChatRequest, call: Call, probe: bool)
    ensures var a := Admit(g, rows, q, call, probe);
            a.Admitted? ==> a.decision == Evaluate(g.rules, q, call.ctx) && a.request == Reserved(q, a.decision, probe)
  {
    hide Evaluate, Reserved;
  }

  /** A connection test reserves for its one-word prompt and one token of output, at
      the prices of the model it names. */
  lemma TestReserves(g: Setup, s: Books, t: TestRequest, call: Call, freshId: string, answers: TestAnswers)
    returns (estimate: Usage)
    ensures Costs(estimate, g.prices(t.modelKey), 1, 1)
    ensures Admit(g, s.rows, Ping(t), call, true).Admitted? <==>
              Evaluate(g.rules, Ping(t), call.ctx).allowed && Affords(g, s.rows, call, estimate)
    ensures AllCarry(TestTrace(g, s, t, call, freshId, answers).ledger, call, estimate)
  {
    hide Evaluate, Estimate, Affords, Opening, Admit, AllCarry, TestAttempts, TestPlanFor,
         ReleasedRows, Costs;
    estimate := Estimate(g.prices, Ping(t));
    EstimateCosts(g.prices, Ping(t));
    AdmissionIs(g, s.rows, Ping(t), call, true);
    OpeningCarries(g, s.rows, Ping(t), call, true);
    var a := Admit(g, s.rows, Ping(t), call, true);
    if a.Admitted? {
      var plan := TestPlanFor(g, HealthAt(g, s, call), t, a.decision, freshId);
      var routes := if plan.TestRoutes? then plan.routes else [];
      var opening := Opening(g, s.rows, Ping(t), call, true);
      TestCarries(call, a.reservation, routes, answers, Explicit(t), estimate);
      CarryConcat(opening, ReleasedRows(a.reservation, call.ctx), call, estimate);
      CarryConcat(opening, TestAttempts(call, a.reservation, routes, answers, Explicit(t)).ledger, call, estimate);
    }
  }

  // ---- Why a call is not attempted -----------------------------------------------------------------

  /** The HTTP error of a plan that failed. */
  predicate PlanningError(g: Setup, e: ChatRequest, d: Decision, error: Exn) {
    var eligible := exists x :: x in g.settings.deployments && AsAsked(e, d, x);
    var ofKey := exists x ::
                   && x in g.settings.deployments && OfWantedModel(e, d, x)
                   && (Truthy(d.routingKey) ==> x.routingKey == d.routingKey.value);
    error ==
      if eligible then Http(500, "deployment_provider_not_registered")
      else if Truthy(d.routingKey) && !ofKey then Http(404, "policy_routing_key_not_found")
      else Http(404, "deployment_not_found")
  }

  /** The effective request asks for the same deployments as the caller's. */
  lemma AsksTheSame(g: Setup, q: ChatRequest, d: Decision)
    ensures forall x :: OfWantedModel(Reserved(q, d, false), d, x) <==> OfWantedModel(q, d, x)
    ensures forall x :: AsAsked(Reserved(q, d, false), d, x) <==> AsAsked(q, d, x)
    ensures forall error :: PlanningError(g, Reserved(q, d, false), d, error) <==> PlanningError(g, q, d, error)
  {}

  lemma {:induction false} PlanningErrorIs(g: Setup, e: ChatRequest, d: Decision, h: Health)
    ensures var plan := PlanFor(g.settings, e, d, h); plan.NoPlan? ==> PlanningError(g, e, d, PlanExn(plan.error))
  {
    hide PlanFor, OfWantedModel, Eligible;
    WhyNoPlan(g.settings, e, d, h);
    EligibleIsAsAsked(e, d);
  }

  /** The one ledger row of a call that the budget refuses: a denial by a hard policy
      that has no room for it; none if the tables cannot be read. */
  ghost predicate DenialIsBooked(g: Setup, rows: seq<B.UsageRow>, call: Call, estimate: Usage,
          ledger: seq<B.LedgerRow>)
  {
    if !call.storageUp then ledger == []
    else
      exists p ::
        && p in g.policies && B.Governs(p, call.ctx) && p.hard && !B.HasRoom(p, call.began, rows, estimate)
        && var scope := B.Scope(p.id, p.scopeType, p.scopeId);
           ledger == [B.LedgerRow(B.Deny, call.id, scope, call.ctx, estimate, NO_USAGE)]
  }

  lemma {:induction false} OpeningIs(g: Setup, rows: seq<B.UsageRow>, q: ChatRequest, call: Call, probe: bool)
    ensures var d, opening := Evaluate(g.rules, q, call.ctx), Opening(g, rows, q, call, probe);
            var estimate := Estimate(g.prices, Reserved(q, d, probe));
            && (!d.allowed ==> opening == [])
            && (d.allowed && !Affords(g, rows, call, estimate) ==> DenialIsBooked(g, rows, call, estimate, opening))
  {
    hide Evaluate, Estimate, B.FirstDenial, B.Applicable, Reserved, B.HasRoom, B.Governs;
    var estimate := Estimate(g.prices, Reserved(q, Evaluate(g.rules, q, call.ctx), probe));
    var r := B.ReserveOutcome(g.policies, call.ctx, call.began, rows, estimate, call.id, true);
    B.ReservedExactlyWhen(g.policies, call.ctx, call.began, rows, estimate, call.id);
    B.DenialNamesALimit(B.Applicable(g.policies, call.ctx), call.ctx, call.began, rows, estimate);
    if call.storageUp && !r.approved {
      var p :|
        && p in g.policies && B.Governs(p, call.ctx) && p.hard && !B.HasRoom(p, call.began, rows, estimate)
        && r.scopes == [B.Scope(p.id, p.scopeType, p.scopeId)];
      assert B.RowsFor(B.Deny, r, call.ctx, estimate, NO_USAGE) ==
             [B.LedgerRow(B.Deny, call.id, r.scopes[0], call.ctx, estimate, NO_USAGE)];
    }
  }

  /** A chat or stream that tries no route raises 403 if no rule lets it through, 402 if
      the budget has no room for it or cannot be read, and 404 or 500 if no deployment
      can serve it; each leaves its own record, but for a stream that no deployment
      can serve, which leaves none. A refusal leaves no ledger row but the denial. */
  lemma {:induction false} WhyNotAttempted(g: Setup, s: Books, q: ChatRequest, call: Call, chat: ChatAnswers,
          stream: StreamAnswers)
    returns (estimate: Usage)
    requires PlannedRoutes(g, s, q, call) == []
    ensures var d := Evaluate(g.rules, q, call.ctx);
            var t, u := ChatTrace(g, s, q, call, chat), StreamTrace(g, s, q, call, stream);
            && (d.allowed ==>
                  Costs(estimate, g.prices(Model(q, d)), PromptTokens(q.messages), OutputTokens(q, d)))
            && t.result.Threw? && u.result == Threw(t.result.error) && |t.records| == 1 && t.ledger == u.ledger
            && var r := t.records[0];
            && (if !d.allowed then
                  && t.result.error == Http(403, "HTTPException") && u.records == t.records
                  && r.status.Denied? && r.errorCode == Some("policy_denied") && t.ledger == []
                else if !Affords(g, s.rows, call, estimate) then
                  && t.result.error == Http(402, "HTTPException") && u.records == t.records
                  && r.status.BudgetExceeded? && r.errorCode == Some("budget_exceeded")
                  && DenialIsBooked(g, s.rows, call, estimate, t.ledger)
                else
                  && PlanningError(g, q, d, t.result.error) && u.records == []
                  && r.status.Error? && r.errorCode == Some(t.result.error.code))
  {
    hide Evaluate, Affords, Opening, ReleasedRows, Costs, PlanningError, PlanFor, ReservationFor, Reserved,
         DenialIsBooked;
    estimate := Estimated(g, s.rows, q, call);
    OpeningIs(g, s.rows, q, call, false);
    var d, a := Evaluate(g.rules, q, call.ctx), Admit(g, s.rows, q, call, false);
    if a.Admitted? {
      AdmittedAs(g, s.rows, q, call, false);
      AsksTheSame(g, q, d);
      PlanningErrorIs(g, a.request, a.decision, HealthAt(g, s, call));
      NoRoutesNoPlan(g, s, q, call);
    }
  }

  /** A connection test that probes no route, likewise; one that names a deployment raises
      404 if none is stored under that id, and a `KeyError` if its provider is not
      registered. */
  lemma {:induction false} WhyNotProbed(g: Setup, s: Books, t: TestRequest, call: Call, freshId: string,
          answers: TestAnswers)
    returns (estimate: Usage)
    requires ProbedRoutes(g, s, t, call, freshId) == []
    ensures Costs(estimate, g.prices(t.modelKey), 1, 1)
    ensures var d, u := Evaluate(g.rules, Ping(t), call.ctx), TestTrace(g, s, t, call, freshId, answers);
            && u.result.Threw? && |u.records| == 1
            && var r, error := u.records[0], u.result.error;
            && (if !d.allowed then
                  && error == Http(403, "HTTPException") && u.ledger == []
                  && r.status.Denied? && r.errorCode == Some("policy_denied")
                else if !Affords(g, s.rows, call, estimate) then
                  && error == Http(402, "HTTPException") && DenialIsBooked(g, s.rows, call, estimate, u.ledger)
                  && r.status.BudgetExceeded? && r.errorCode == Some("budget_exceeded")
                else
                  && r.status.Error? && r.errorCode == Some(if error.Http? then error.code else error.name)
                  && (if t.deploymentId.None? then PlanningError(g, Ping(t), d, error)
                      else if forall x :: x in g.settings.deployments ==> x.id != t.deploymentId.value
                      then error == Http(404, "HTTPException") else error == Other("KeyError")))
  {
    hide Evaluate, Estimate, Affords, Opening, Admit, ReleasedRows, Costs, DenialIsBooked, PlanningError, TestPlanFor;
    estimate := Estimate(g.prices, Ping(t));
    EstimateCosts(g.prices, Ping(t));
    AdmissionIs(g, s.rows, Ping(t), call, true);
    OpeningIs(g, s.rows, Ping(t), call, true);
    RefusedFor(g, s.rows, Ping(t), call, true);
    var a := Admit(g, s.rows, Ping(t), call, true);
    if a.Admitted? {
      AdmittedAs(g, s.rows, Ping(t), call, true);
      WhyNoTest(g, HealthAt(g, s, call), t, a.decision, freshId);
    }
  }

  lemma RefusedFor(g: Setup, rows: seq<B.UsageRow>, q: ChatRequest, call: Call, probe: bool)
    ensures var a := Admit(g, rows, q, call, probe);
            a.Refused? ==>
              && a.record.status == (if Evaluate(g.rules, q, call.ctx).allowed then B.BudgetExceeded else B.Denied)
              && a.record.errorCode ==
                 Some(if Evaluate(g.rules, q, call.ctx).allowed then "budget_exceeded" else "policy_denied")
              && a.error == Http(if Evaluate(g.rules, q, call.ctx).allowed then 402 else 403, "HTTPException")
  {
    hide Evaluate, ReservationFor;
  }

  lemma {:induction false} WhyNoTest(g: Setup, h: Health, t: TestRequest, d: Decision, freshId: string)
    ensures var plan := TestPlanFor(g, h, t, d, freshId);
            && (plan.TestRoutes? ==> plan.routes != [])
            && (plan.NoTest? ==>
                  if t.deploymentId.None? then PlanningError(g, Ping(t), d, plan.error)
                  else if forall x :: x in g.settings.deployments ==> x.id != t.deploymentId.value
                  then plan.error == Http(404, "HTTPException") else plan.error == Other("KeyError"))
  {
    hide PlanFor, PlanningError, Filter, SortCandidates;
    PlanningErrorIs(g, Ping(t), d, h);
    PlanOutcome(g.settings, Ping(t), d, h);
    if t.deploymentId.Some? { var k := Targets.NamedDeploymentProbe(g.settings, t, freshId); }
  }

  lemma NoRoutesNoPlan(g: Setup, s: Books, q: ChatRequest, call: Call)
    requires PlannedRoutes(g, s, q, call) == [] && Admit(g, s.rows, q, call, false).Admitted?
    ensures var a := Admit(g, s.rows, q, call, false);
            PlanFor(g.settings, a.request, a.decision, HealthAt(g, s, call)).NoPlan?
  {
    hide Admit, PlanFor;
    var a := Admit(g, s.rows, q, call, false);
    PlanOutcome(g.settings, a.request, a.decision, HealthAt(g, s, call));
  }

  /** A chat or stream has a route to a deployment exactly when the rules and the budget
      let it through and the deployment is configured, as asked and of a registered
      provider, with its circuit not open, unless those of all that are asked for are. */
  lemma {:induction false} RoutedExactly(g: Setup, s: Books, q: ChatRequest, call: Call, x: Deployment)
    returns (estimate: Usage)
    ensures var d, open := Evaluate(g.rules, q, call.ctx), IsOpen(HealthAt(g, s, call));
            var routes := PlannedRoutes(g, s, q, call);
            && (d.allowed ==>
                  Costs(estimate, g.prices(Model(q, d)), PromptTokens(q.messages), OutputTokens(q, d)))
            && ((exists i :: 0 <= i < |routes| && routes[i].deployment == x)
                <==>
                && d.allowed && Affords(g, s.rows, call, estimate)
                && x in g.settings.deployments && AsAsked(q, d, x) && x.providerKey in g.settings.providers
                && (open(x) ==> forall y :: y in g.settings.deployments && AsAsked(q, d, y) ==> open(y)))
  {
    hide Evaluate, Affords, Costs, PlanFor, Reserved, IsOpen, AsAsked, Admit;
    estimate := Estimated(g, s.rows, q, call);
    var a := Admit(g, s.rows, q, call, false);
    if a.Admitted? {
      AdmittedAs(g, s.rows, q, call, false);
      AsksTheSame(g, q, a.decision);
      PlannedExactly(g.settings, a.request, a.decision, HealthAt(g, s, call), x);
    }
  }

  // ---- What an answered call costs ---------------------------------------------------------------

  /** A chat that returns costs the tokens its answer reports at the prices of the model
      that the answer names, in the answer, in the record of the call and in the
      settled ledger rows. */
  lemma {:induction false} ReturnedChatCosts(g: Setup, s: Books, q: ChatRequest, call: Call, answers: ChatAnswers)
    ensures var t := ChatTrace(g, s, q, call, answers);
            t.result.Returned? ==>
              var n, v := |t.records|, t.result.value;
              && n >= 1 && answers(n - 1).answer.Replied?
              && var reply := answers(n - 1).answer.response;
              && v.content == reply.content && v.modelKey == reply.modelKey
              && Costs(v.usage, g.prices(Some(reply.modelKey)), reply.usage.inputTokens, reply.usage.outputTokens)
              && t.records[n - 1].usage == v.usage && t.records[n - 1].modelKey == Some(reply.modelKey)
              && forall i :: 0 <= i < |t.ledger| && t.ledger[i].event.Settle? ==> t.ledger[i].actual == v.usage
  {
    hide ChatTrace, Recalculate, Costs, PlannedRoutes, FailuresFirst, Agree;
    var t := ChatTrace(g, s, q, call, answers);
    ChatHistory(g, s, q, call, answers);
    ChatChargesWhatItSettles(g, s, q, call, answers, B.Money);
    if t.result.Returned? {
      var reply := answers(|t.records| - 1).answer.response;
      RecalculatedCosts(g.prices, reply.usage, Some(reply.modelKey));
    }
  }

  /** A stream that finishes costs the prompt, estimated as it was for the reservation,
      and one token for four characters sent, at the prices of the deployment that
      answered. */
  lemma {:induction false} FinishedStreamCosts(g: Setup, s: Books, q: ChatRequest, call: Call, answers: StreamAnswers)
    ensures var t, routes := StreamTrace(g, s, q, call, answers), PlannedRoutes(g, s, q, call);
            t.result.Returned? ==>
              var n, sent := |t.records|, t.result.value;
              && 1 <= n <= |routes| && sent == Content(Yields(g, s, q, call, answers))
              && var model := routes[n - 1].deployment.modelKey;
              && t.records[n - 1].modelKey == Some(model)
              && Costs(t.records[n - 1].usage, g.prices(Some(model)), PromptTokens(q.messages),
                   if sent == "" then 0 else if |sent| < 8 then 1 else |sent| / 4)
              && forall i :: 0 <= i < |t.ledger| && t.ledger[i].event.Settle? ==>
                   t.ledger[i].actual == t.records[n - 1].usage
  {
    hide Admit, Opening, PlanFor, SettledRows, ReleasedRows, RowsOf, FailedRecords, FailedEvents, First, Content,
         Estimate, Calculate, Costs, BreaksFirst, Agree, DeltasBefore, Evaluate, StreamUsage;
    var t, routes := StreamTrace(g, s, q, call, answers), PlannedRoutes(g, s, q, call);
    StreamHistory(g, s, q, call, answers);
    StreamChargesWhatItSettles(g, s, q, call, answers, B.Money);
    if t.result.Returned? {
      var a, k := Admit(g, s.rows, q, call, false), First(StreamStops(answers), |routes|);
      AdmittedAs(g, s.rows, q, call, false);
      EffectiveIs(g.rules, q, call.ctx);
      FirstStops(StreamStops(answers), |routes|);
      FailedRecordsAre(routes, StreamFaults(answers), k);
      StreamUsageCosts(g, a.request, routes[k], t.result.value);
    }
  }

  lemma StreamUsageCosts(g: Setup, e: ChatRequest, route: Route, sent: string)
    ensures Costs(StreamUsage(g, e, route, sent), g.prices(Some(route.deployment.modelKey)),
                  PromptTokens(e.messages), if sent == "" then 0 else if |sent| < 8 then 1 else |sent| / 4)
  {
    hide Costs, PromptTokens, Calculate;
    EstimatedPrompt(g.prices, e);
    CallCosts(g.prices, PromptTokens(e.messages), if sent == "" then 0 else Max(1, |sent| / 4),
              Some(route.deployment.modelKey));
  }

  lemma EstimatedPrompt(prices: Catalog, e: ChatRequest)
    ensures Estimate(prices, e).inputTokens == PromptTokens(e.messages)
  {
    EstimateCosts(prices, e);
  }
}
