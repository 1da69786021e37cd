/** Whole runs of the gateway: calls of every kind, one after another, each meeting
    any adapter answers. The budget ledger balances, it agrees with the usage table
    policy by policy, and spend stays under the hard limits
    (backend/app/llm/gateway.py, budget.py, usage.py). */
module Runs {
  import opened Basics
  import opened Pricing
  import opened Policy
  import opened Router
  import opened Confinement
  import opened Calls
  import opened Governance
  import B = Budget
  import C = Calendar

  datatype AnyCall =
    | ChatCall(q: ChatRequest, call: Call, answers: ChatAnswers)
    | StreamCall(q: ChatRequest, call: Call, deltas: StreamAnswers)
    | TestCall(t: TestRequest, call: Call, freshId: string, probes: TestAnswers)

  /** The books after one call, as the methods of `Gateway.LLMGateway` leave them. */
  function Step(g: Setup, s: Books, c: AnyCall): Books {
    match c
    case ChatCall(q, call, answers) => After(g, s, call.ctx, Asked(g, s, q, call), ChatTrace(g, s, q, call, answers))
    case StreamCall(q, call, answers) =>
      After(g, s, call.ctx, Asked(g, s, q, call), StreamTrace(g, s, q, call, answers))
    case TestCall(t, call, freshId, answers) =>
      After(g, s, call.ctx, AskedByTest(g, s, t, call, freshId), TestTrace(g, s, t, call, freshId, answers))
  }

  function Run(g: Setup, s: Books, calls: seq<AnyCall>): Books {
    if calls == [] then s else Step(g, Run(g, s, calls[..|calls| - 1]), calls[|calls| - 1])
  }

  function AdmissionIn(g: Setup, s: Books, c: AnyCall): Admission {
    match c
    case ChatCall(q, call, _) => Admit(g, s.rows, q, call, false)
    case StreamCall(q, call, _) => Admit(g, s.rows, q, call, false)
    case TestCall(t, call, _, _) => Admit(g, s.rows, Ping(t), call, true)
  }

  function LedgerOf(g: Setup, s: Books, c: AnyCall): seq<B.LedgerRow> {
    match c
    case ChatCall(q, call, answers) => ChatTrace(g, s, q, call, answers).ledger
    case StreamCall(q, call, answers) => StreamTrace(g, s, q, call, answers).ledger
    case TestCall(t, call, freshId, answers) => TestTrace(g, s, t, call, freshId, answers).ledger
  }

  function RecordsOf(g: Setup, s: Books, c: AnyCall): seq<Record> {
    match c
    case ChatCall(q, call, answers) => ChatTrace(g, s, q, call, answers).records
    case StreamCall(q, call, answers) => StreamTrace(g, s, q, call, answers).records
    case TestCall(t, call, freshId, answers) => TestTrace(g, s, t, call, freshId, answers).records
  }

  lemma StepAdds(g: Setup, s: Books, c: AnyCall)
    ensures Step(g, s, c).ledger == s.ledger + LedgerOf(g, s, c)
    ensures Step(g, s, c).records == s.records + RecordsOf(g, s, c)
    ensures Step(g, s, c).rows == s.rows + RowsOf(c.call.ctx, RecordsOf(g, s, c))
  {}

  // ---- The ledger balances ------------------------------------------------------------------------

  /** What is reserved and not yet closed. */
  function Outstanding(ledger: seq<B.LedgerRow>, id: Id, scope: B.Scope): int {
    Tally(ledger, B.Reserve, id, scope) - Tally(ledger, B.Settle, id, scope) - Tally(ledger, B.Release, id, scope)
  }

  ghost predicate Balanced(ledger: seq<B.LedgerRow>) { forall id, scope :: Outstanding(ledger, id, scope) == 0 }

  /** A chat whose first attempt that does not raise is cancelled, or a connection
      test cancelled at a probe it got to. */
  predicate CutShort(g: Setup, s: Books, c: AnyCall) {
    match c
    case ChatCall(q, call, answers) => ChatCancelled(PlannedRoutes(g, s, q, call), answers)
    case StreamCall(_, _, _) => false
    case TestCall(t, call, freshId, answers) =>
      ProbeCancelledFirst(ProbedRoutes(g, s, t, call, freshId), answers, Explicit(t))
  }

  /** ... leaves its approved reservation open; a stream never does. */
  predicate Leaks(g: Setup, s: Books, c: AnyCall) {
    CutShort(g, s, c) && AdmissionIn(g, s, c).Admitted? && AdmissionIn(g, s, c).reservation.scopes != []
  }

  lemma OneCallLeaves(g: Setup, s: Books, c: AnyCall, id: Id, scope: B.Scope)
    ensures Outstanding(LedgerOf(g, s, c), id, scope) ==
            if CutShort(g, s, c) then Held(AdmissionIn(g, s, c), id, scope) else 0
  {
    hide ChatTrace, StreamTrace, TestTrace, Tally, Held, Admit, ChatCancelled, ProbeCancelledFirst, PlannedRoutes,
         ProbedRoutes;
    match c
    case ChatCall(q, call, answers) => ChatClosesOnce(g, s, q, call, answers);
    case StreamCall(q, call, answers) => StreamClosesOnce(g, s, q, call, answers);
    case TestCall(t, call, freshId, answers) => TestReleasesOnce(g, s, t, call, freshId, answers);
  }

  lemma OutstandingAfter(g: Setup, s: Books, c: AnyCall, id: Id, scope: B.Scope)
    ensures Outstanding(Step(g, s, c).ledger, id, scope) ==
            Outstanding(s.ledger, id, scope) +
            (if CutShort(g, s, c) then Held(AdmissionIn(g, s, c), id, scope) else 0)
  {
    hide Step, LedgerOf, Tally, CutShort, Held, AdmissionIn;
    StepAdds(g, s, c);
    OneCallLeaves(g, s, c, id, scope);
    forall event ensures Tally(s.ledger + LedgerOf(g, s, c), event, id, scope) ==
                         Tally(s.ledger, event, id, scope) + Tally(LedgerOf(g, s, c), event, id, scope) {
      TallyConcat(s.ledger, LedgerOf(g, s, c), event, id, scope);
    }
  }

  lemma {:induction false} OutstandingNeverFalls(g: Setup, s: Books, calls: seq<AnyCall>, id: Id, scope: B.Scope)
    ensures Outstanding(Run(g, s, calls).ledger, id, scope) >= Outstanding(s.ledger, id, scope)
  {
    hide Step, Outstanding, CutShort, Held, AdmissionIn;
    if calls != [] {
      OutstandingNeverFalls(g, s, calls[..|calls| - 1], id, scope);
      OutstandingAfter(g, Run(g, s, calls[..|calls| - 1]), calls[|calls| - 1], id, scope);
    }
  }

  ghost predicate NoneLeaks(g: Setup, s: Books, calls: seq<AnyCall>) {
    calls != [] ==>
      NoneLeaks(g, s, calls[..|calls| - 1]) && !Leaks(g, Run(g, s, calls[..|calls| - 1]), calls[|calls| - 1])
  }

  /** After any run, every reservation in the ledger has been settled or released,
      scope by scope, exactly when no chat and no connection test was cut short
      by a cancellation while it held one. */
  lemma {:induction false} LedgerBalances(g: Setup, s: Books, calls: seq<AnyCall>)
    requires Balanced(s.ledger)
    ensures Balanced(Run(g, s, calls).ledger) <==> NoneLeaks(g, s, calls)
  {
    hide Step, Outstanding, CutShort, AdmissionIn;
    if calls != [] {
      var front, c := calls[..|calls| - 1], calls[|calls| - 1];
      var before := Run(g, s, front);
      LedgerBalances(g, s, front);
      forall id, scope ensures Outstanding(before.ledger, id, scope) >= 0 {
        OutstandingNeverFalls(g, s, front, id, scope);
      }
      forall id, scope
        ensures Outstanding(Step(g, before, c).ledger, id, scope) ==
                Outstanding(before.ledger, id, scope) +
                (if CutShort(g, before, c) then Held(AdmissionIn(g, before, c), id, scope) else 0)
      {
        OutstandingAfter(g, before, c, id, scope);
      }
      if Leaks(g, before, c) {
        var r := AdmissionIn(g, before, c).reservation;
        assert r.scopes[0] in multiset(r.scopes);
        assert Held(AdmissionIn(g, before, c), r.id, r.scopes[0]) > 0;
        assert Outstanding(Step(g, before, c).ledger, r.id, r.scopes[0]) > 0;
      } else if NoneLeaks(g, s, front) {
        assert Balanced(Step(g, before, c).ledger);
      } else {
        var id, scope :| Outstanding(before.ledger, id, scope) != 0;
        assert Outstanding(Step(g, before, c).ledger, id, scope) > 0;
      }
    }
  }

  // ---- A leak --------------------------------------------------------------------------------------

  /** One deployment behind the default route, one budget policy, nothing else. */
  function OneOfEach(p: B.Policy): Setup {
    var s := OneDeployment("m", "default-chat");
    Setup([], [p], s.prices, s, NothingFailed().cfg)
  }

  const EMPTY_BOOKS := Books([], [], [], map[])

  const FIRST_MOMENT: Time := C.Moment(1, 1, 1, 0)

  /** A chat that says one word and whose first adapter call is cancelled. */
  function CancelledChat(ctx: B.Context, id: Id): AnyCall {
    ChatCall(ChatRequest(None, None, ["hello"], None), Call(ctx, id, true, FIRST_MOMENT),
             (i: nat) => Attempt(Cancelled, FIRST_MOMENT))
  }

  /** For any caller and any soft policy that applies to it: the reservation of the
      cancelled chat is never closed. */
  lemma {:induction false} CancelledChatLeaks(p: B.Policy, ctx: B.Context, id: Id)
    requires B.Applies(p, ctx) && !p.hard
    ensures !Balanced(Run(OneOfEach(p), EMPTY_BOOKS, [CancelledChat(ctx, id)]).ledger)
  {
    hide B.Applies, Balanced, Step, OneOfEach, CancelledChat, Leaks;
    var g, c := OneOfEach(p), CancelledChat(ctx, id);
    assert Balanced([]) by { NothingOutstanding(); }
    CancelledChatIsCutShort(p, ctx, id);
    assert [c][..0] == [];
    assert Run(g, EMPTY_BOOKS, []) == EMPTY_BOOKS;
    assert !NoneLeaks(g, EMPTY_BOOKS, [c]);
    LedgerBalances(g, EMPTY_BOOKS, [c]);
  }

  lemma NothingOutstanding()
    ensures Balanced([])
  {
    forall id, scope ensures Outstanding([], id, scope) == 0 {
      forall event ensures Tally([], event, id, scope) == 0 { EmptyTally(event, id, scope); }
    }
  }

  lemma {:induction false} CancelledChatIsCutShort(p: B.Policy, ctx: B.Context, id: Id)
    requires B.Applies(p, ctx) && !p.hard
    ensures Leaks(OneOfEach(p), EMPTY_BOOKS, CancelledChat(ctx, id))
  {
    hide B.Applies, AdmissionIn, PlannedRoutes, OneOfEach, Admit;
    var g, s, c := OneOfEach(p), EMPTY_BOOKS, CancelledChat(ctx, id);
    CancelledChatIsAdmitted(p, ctx, id);
    CancelledChatIsPlanned(p, ctx, id);
    assert c.answers(0).answer.Cancelled?;
  }

  lemma {:induction false} CancelledChatIsAdmitted(p: B.Policy, ctx: B.Context, id: Id)
    requires B.Applies(p, ctx) && !p.hard
    ensures var c := CancelledChat(ctx, id);
            var a := AdmissionIn(OneOfEach(p), EMPTY_BOOKS, c);
            && a.Admitted? && a.decision == Evaluate([], c.q, ctx) && a.reservation.scopes == [B.ScopeOf(p)]
  {
    hide B.Applies, B.ReserveOutcome, Estimate, Evaluate, EffectiveRequest;
    var g, c := OneOfEach(p), CancelledChat(ctx, id);
    DefaultDecision(c.q, ctx);
    var e := EffectiveRequest(c.q, Evaluate([], c.q, ctx));
    OneSoftPolicyApproves(p, ctx, FIRST_MOMENT, Estimate(g.prices, e), id);
  }

  lemma FirstInstant()
    ensures C.Instant(FIRST_MOMENT) == 0
  {}

  lemma {:induction false} CancelledChatIsPlanned(p: B.Policy, ctx: B.Context, id: Id)
    requires B.Applies(p, ctx) && !p.hard
    ensures var c := CancelledChat(ctx, id); PlannedRoutes(OneOfEach(p), EMPTY_BOOKS, c.q, c.call) != []
  {
    hide B.Applies, AdmissionIn, PlanFor, Evaluate, Planned, Eligible, PlannedRoutes, C.Instant, Admit;
    var g, s, c := OneOfEach(p), EMPTY_BOOKS, CancelledChat(ctx, id);
    var d, x := Evaluate([], c.q, ctx), g.settings.deployments[0];
    CancelledChatIsAdmitted(p, ctx, id);
    AdmissionOfChat(g, s, c);
    DefaultDecision(c.q, ctx);
    FirstInstant();
    assert HealthAt(g, s, c.call) == NothingFailed();
    DefaultIsEligible(c.q, d, x);
    OneDeploymentPlanned("m", "default-chat", c.q, d);
    PlannedMeansRoutes(g, s, c.q, c.call, x);
  }

  lemma AdmissionOfChat(g: Setup, s: Books, c: AnyCall)
    requires c.ChatCall?
    ensures AdmissionIn(g, s, c) == Admit(g, s.rows, c.q, c.call, false)
  {
    hide Admit;
  }

  lemma DefaultIsEligible(q: ChatRequest, d: Decision, x: Deployment)
    requires q.modelKey == None && q.routingKey == None && d.modelKey == None && d.routingKey == Some("default-chat")
    requires x.active && x.routingKey == "default-chat"
    ensures Eligible(EffectiveRequest(q, d), d)(x)
  {}

  lemma OneSoftPolicyApproves(p: B.Policy, ctx: B.Context, now: Time, estimate: Usage, id: Id)
    requires B.Applies(p, ctx) && !p.hard
    ensures var r := B.ReserveOutcome([p], ctx, now, [], estimate, id, true); r.approved && r.scopes == [B.ScopeOf(p)]
  {
    hide B.Applies, C.PeriodWindow, B.Denial;
    assert [p][..0] == [] && B.Applicable([p], ctx) == [] + [p] == [p];
    assert B.FirstDenial([p][1..], ctx, now, [], estimate).None?;
    assert B.Scopes([p]) == [B.ScopeOf(p)];
  }

  lemma PlannedMeansRoutes(g: Setup, s: Books, q: ChatRequest, call: Call, x: Deployment)
    requires Admit(g, s.rows, q, call, false).Admitted?
    requires Planned(g.settings, HealthAt(g, s, call), q, Admit(g, s.rows, q, call, false).decision, x)
    ensures PlannedRoutes(g, s, q, call) != []
  {
    hide Evaluate, ReservationFor, PlanFor;
  }

  lemma DefaultDecision(q: ChatRequest, ctx: B.Context)
    requires q.messages != [] && q.modelKey == None && q.routingKey == None
    ensures Evaluate([], q, ctx) == Decision(true, DefaultRoute, None, Some("default-chat"), q.maxTokens, None)
  {}
}
