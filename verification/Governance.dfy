/** What every governed call keeps, for every sequence of adapter answers: each
    reservation is closed once, what is settled is what is charged, the usage
    records and the breaker agree, and a stream comes from one route
    (backend/app/llm/gateway.py, budget.py, usage.py). */
module Governance {
  import opened Basics
  import opened Pricing
  import opened Policy
  import opened Router
  import opened Calls
  import B = Budget
  import C = Calendar

  // ---- Counting ledger rows -----------------------------------------------------------------

  function Is(event: B.EventType, id: Id, scope: B.Scope): B.LedgerRow -> bool {
    (row: B.LedgerRow) => row.event == event && row.reservation == id && row.scope == scope
  }

  /** How many rows of one kind a reservation has for a scope. */
  function Tally(ledger: seq<B.LedgerRow>, event: B.EventType, id: Id, scope: B.Scope): nat {
    Count(ledger, Is(event, id, scope))
  }

  /** How often the reservation of `id` names the scope. */
  function Named(r: B.Reservation, id: Id, scope: B.Scope): nat {
    if r.id == id then multiset(r.scopes)[scope] else 0
  }

  lemma {:induction false} TallyConcat(a: seq<B.LedgerRow>, b: seq<B.LedgerRow>, event: B.EventType, id: Id,
          scope: B.Scope)
    ensures Tally(a + b, event, id, scope) == Tally(a, event, id, scope) + Tally(b, event, id, scope)
  {
    CountConcat(a, b, Is(event, id, scope));
  }

  lemma TallyOneMore(ledger: seq<B.LedgerRow>, row: B.LedgerRow, event: B.EventType, id: Id, scope: B.Scope)
    ensures Tally(ledger + [row], event, id, scope) ==
            Tally(ledger, event, id, scope) + (if Is(event, id, scope)(row) then 1 else 0)
  {}

  lemma {:induction false} TallyRowsFor(written: B.EventType, r: B.Reservation, ctx: B.Context, estimated: Usage,
          actual: Usage, event: B.EventType, id: Id, scope: B.Scope)
    ensures Tally(B.RowsFor(written, r, ctx, estimated, actual), event, id, scope) ==
            if event == written then Named(r, id, scope) else 0
    decreases |r.scopes|
  {
    var rows := B.RowsFor(written, r, ctx, estimated, actual);
    if r.scopes != [] {
      var fewer := r.(scopes := r.scopes[..|r.scopes| - 1]);
      TallyRowsFor(written, fewer, ctx, estimated, actual, event, id, scope);
      assert rows[..|rows| - 1] == B.RowsFor(written, fewer, ctx, estimated, actual);
      assert r.scopes == fewer.scopes + [r.scopes[|r.scopes| - 1]];
    }
  }

  lemma {:induction false} TallySettleRows(policies: seq<B.Policy>, rows: seq<B.UsageRow>, r: B.Reservation,
          actual: Usage, ctx: B.Context, at: Time, n: nat, event: B.EventType, id: Id, scope: B.Scope)
    requires n <= |r.scopes| && !event.Alert?
    ensures Tally(B.SettleRows(policies, rows, r, actual, ctx, at, n), event, id, scope) ==
            if event.Settle? && r.id == id then multiset(r.scopes[..n])[scope] else 0
  {
    hide B.Alerts, C.PeriodWindow, Tally;
    EmptyTally(event, id, scope);
    if n > 0 {
      TallySettleRows(policies, rows, r, actual, ctx, at, n - 1, event, id, scope);
      var before := B.SettleRows(policies, rows, r, actual, ctx, at, n - 1);
      var settle := B.LedgerRow(B.Settle, r.id, r.scopes[n - 1], ctx, B.EstimateOf(r), actual);
      var alert := B.LedgerRow(B.Alert, r.id, r.scopes[n - 1], ctx, B.EstimateOf(r), actual);
      assert r.scopes[..n] == r.scopes[..n - 1] + [r.scopes[n - 1]];
      TallyOneMore(before, settle, event, id, scope);
      TallyOneMore(before + [settle], alert, event, id, scope);
    }
  }

  lemma TallySettled(g: Setup, rows: seq<B.UsageRow>, r: B.Reservation, actual: Usage, ctx: B.Context, at: Time,
          event: B.EventType, id: Id, scope: B.Scope)
    requires !event.Alert?
    ensures Tally(SettledRows(g, rows, r, actual, ctx, at), event, id, scope) == if event.Settle?
        then Named(r, id, scope) else 0
  {
    TallySettleRows(g.policies, rows, r, actual, ctx, at, |r.scopes|, event, id, scope);
    assert r.scopes[..|r.scopes|] == r.scopes;
  }

  // ---- Closed exactly once ----------------------------------------------------------------------

  /** How often the call's own, approved, reservation names the scope. */
  function Held(a: Admission, id: Id, scope: B.Scope): nat {
    if a.Admitted? then Named(a.reservation, id, scope) else 0
  }

  function AdmissionOf(g: Setup, s: Books, q: ChatRequest, call: Call): Admission { Admit(g, s.rows, q, call, false) }

  /** What admission writes: reserve rows for an approved reservation, and nothing
      that settles or releases. */
  lemma {:induction false} TallyOpening(g: Setup, rows: seq<B.UsageRow>, q: ChatRequest, call: Call, probe: bool,
          event: B.EventType, id: Id, scope: B.Scope)
    requires !event.Deny?
    ensures Tally(Opening(g, rows, q, call, probe), event, id, scope) ==
            if event.Reserve? then Held(Admit(g, rows, q, call, probe), id, scope) else 0
  {
    hide Evaluate, Estimate, B.FirstDenial, B.Applicable, Named, Tally;
    var d := Evaluate(g.rules, q, call.ctx);
    assert Tally([], event, id, scope) == 0 by { EmptyTally(event, id, scope); }
    if d.allowed {
      var e := Reserved(q, d, probe);
      var r := ReservationFor(g, rows, e, call);
      TallyRowsFor(if r.approved then B.Reserve else B.Deny, r, call.ctx, Estimate(g.prices, e), NO_USAGE, event, id,
          scope);
    }
  }

  lemma EmptyTally(event: B.EventType, id: Id, scope: B.Scope)
    ensures Tally([], event, id, scope) == 0
  {}

  /** What the end of a call writes about its reservation, and about no other. */
  ghost predicate EndsAs(ledger: seq<B.LedgerRow>, r: B.Reservation, settles: bool, releases: bool) {
    forall id, scope ::
      && Tally(ledger, B.Reserve, id, scope) == 0
      && Tally(ledger, B.Settle, id, scope) == (if settles then Named(r, id, scope) else 0)
      && Tally(ledger, B.Release, id, scope) == (if releases then Named(r, id, scope) else 0)
  }

  lemma SettledEnds(g: Setup, rows: seq<B.UsageRow>, r: B.Reservation, actual: Usage, ctx: B.Context, at: Time)
    ensures EndsAs(SettledRows(g, rows, r, actual, ctx, at), r, true, false)
  {
    hide Tally, Named, SettledRows;
    forall event: B.EventType, id, scope | !event.Alert?
      ensures Tally(SettledRows(g, rows, r, actual, ctx, at), event, id, scope) == if event.Settle?
          then Named(r, id, scope) else 0
    {
      TallySettled(g, rows, r, actual, ctx, at, event, id, scope);
    }
  }

  lemma ReleasedEnds(r: B.Reservation, ctx: B.Context)
    ensures EndsAs(ReleasedRows(r, ctx), r, false, true)
  {
    hide Tally, Named;
    forall event, id, scope
      ensures Tally(ReleasedRows(r, ctx), event, id, scope) == if event.Release? then Named(r, id, scope) else 0
    {
      TallyRowsFor(B.Release, r, ctx, B.EstimateOf(r), NO_USAGE, event, id, scope);
    }
  }

  lemma LeftOpen(r: B.Reservation)
    ensures EndsAs([], r, false, false)
  {}

  lemma ChatAttemptsEnd(g: Setup, rows: seq<B.UsageRow>, call: Call, r: B.Reservation, routes: seq<Route>,
          answers: ChatAnswers)
    ensures var t := ChatAttempts(g, rows, call, r, routes, answers);
            EndsAs(t.ledger, r, t.result.Returned?, t.result.Threw?)
  {
    hide EndsAs, SettledRows, ReleasedRows, FailedRecords, FailedEvents, RowsOf, Recalculate;
    var k := First(ChatStops(answers), |routes|);
    if k < |routes| && answers(k).answer.Replied? {
      var response, at := answers(k).answer.response, answers(k).at;
      SettledEnds(g, rows + RowsOf(call.ctx, FailedRecords(routes, ChatFaults(answers), k)), r,
                  Recalculate(g.prices, response.usage, Some(response.modelKey)), call.ctx, at);
    }
    ReleasedEnds(r, call.ctx);
    LeftOpen(r);
  }

  lemma StreamAttemptsEnd(g: Setup, rows: seq<B.UsageRow>, ctx: B.Context, e: ChatRequest, r: B.Reservation,
          routes: seq<Route>, answers: StreamAnswers)
    ensures var t := StreamAttempts(g, rows, ctx, e, r, routes, answers);
            EndsAs(t.ledger, r, t.result.Returned?, !t.result.Returned?)
  {
    hide EndsAs, SettledRows, ReleasedRows, FailedRecords, FailedEvents, RowsOf, StreamUsage, Content;
    var k := First(StreamStops(answers), |routes|);
    if k < |routes| && answers(k).answer.end.Finished? {
      SettledEnds(g, rows + RowsOf(ctx, FailedRecords(routes, StreamFaults(answers), k)), r,
                  StreamUsage(g, e, routes[k], Content(answers(k).answer.deltas)), ctx, answers(k).at);
    }
    ReleasedEnds(r, ctx);
  }

  lemma TestAttemptsEnd(call: Call, r: B.Reservation, routes: seq<Route>, answers: TestAnswers, explicit: bool)
    ensures var t := TestAttempts(call, r, routes, answers, explicit);
            EndsAs(t.ledger, r, false, !t.result.Interrupted?)
  {
    hide EndsAs, ReleasedRows, ProbesRecords, ProbesEvents;
    ReleasedEnds(r, call.ctx);
    LeftOpen(r);
  }

  /** The rows of a whole call: the reservation is opened once per scope it names,
      and closed once per scope in one of two ways, or not at all. No row is
      written for any other reservation, and none but `deny` rows for a refused one. */
  ghost predicate Accounted(ledger: seq<B.LedgerRow>, a: Admission, settles: bool, releases: bool) {
    forall id, scope ::
      && Tally(ledger, B.Reserve, id, scope) == Held(a, id, scope)
      && Tally(ledger, B.Settle, id, scope) == (if settles then Held(a, id, scope) else 0)
      && Tally(ledger, B.Release, id, scope) == (if releases then Held(a, id, scope) else 0)
  }

  lemma OpenedThenEnded(g: Setup, rows: seq<B.UsageRow>, q: ChatRequest, call: Call, probe: bool,
          ending: seq<B.LedgerRow>, settles: bool, releases: bool)
    requires var a := Admit(g, rows, q, call, probe);
             if a.Admitted? then EndsAs(ending, a.reservation, settles, releases) else ending == []
    ensures Accounted(Opening(g, rows, q, call, probe) + ending, Admit(g, rows, q, call, probe), settles, releases)
  {
    hide Tally, Named, Admit, Opening;
    var before, a := Opening(g, rows, q, call, probe), Admit(g, rows, q, call, probe);
    forall event: B.EventType, id, scope | !event.Deny?
      ensures Tally(before + ending, event, id, scope) ==
              (if event.Reserve? then Held(a, id, scope) else 0) + Tally(ending, event, id, scope)
    {
      TallyOpening(g, rows, q, call, probe, event, id, scope);
      TallyConcat(before, ending, event, id, scope);
      EmptyTally(event, id, scope);
    }
    forall event, id, scope ensures Tally([], event, id, scope) == 0 { EmptyTally(event, id, scope); }
  }

  /** `chat` settles once if it returns an answer, releases once if it raises, and
      leaves its reservation open exactly when the first planned attempt that does
      not raise is cancelled. */
  lemma ChatClosesOnce(g: Setup, s: Books, q: ChatRequest, call: Call, answers: ChatAnswers)
    ensures var t := ChatTrace(g, s, q, call, answers);
            && Accounted(t.ledger, AdmissionOf(g, s, q, call), t.result.Returned?, t.result.Threw?)
            && (t.result.Interrupted? <==> ChatCancelled(PlannedRoutes(g, s, q, call), answers))
  {
    hide EndsAs, Accounted, Opening, Admit, PlanFor, ReleasedRows, ChatAttempts;
    var a, t := AdmissionOf(g, s, q, call), ChatTrace(g, s, q, call, answers);
    var plan := if a.Admitted? then PlanFor(g.settings, a.request, a.decision, HealthAt(g, s, call)) else Routes([]);
    var ending := if a.Refused? then [] else if plan.NoPlan? then ReleasedRows(a.reservation, call.ctx)
                  else ChatAttempts(g, s.rows, call, a.reservation, plan.routes, answers).ledger;
    assert Opening(g, s.rows, q, call, false) + [] == Opening(g, s.rows, q, call, false);
    if a.Admitted? {
      ReleasedEnds(a.reservation, call.ctx);
      ChatAttemptsEnd(g, s.rows, call, a.reservation, if plan.Routes? then plan.routes else [], answers);
      if plan.Routes? { InterruptedByCancellation(g, s.rows, call, a.reservation, plan.routes, answers); }
    }
    OpenedThenEnded(g, s.rows, q, call, false, ending, t.result.Returned?, t.result.Threw?);
  }

  lemma InterruptedByCancellation(g: Setup, rows: seq<B.UsageRow>, call: Call, r: B.Reservation, routes: seq<Route>,
          answers: ChatAnswers)
    ensures ChatAttempts(g, rows, call, r, routes, answers).result.Interrupted? <==> ChatCancelled(routes, answers)
  {
    hide SettledRows, ReleasedRows, FailedRecords, FailedEvents, RowsOf, Recalculate, First;
    var n := |routes|;
    var k := First(ChatStops(answers), n);
    FirstStops(ChatStops(answers), n);
    forall i | 0 <= i < k ensures answers(i).answer.Raised? { assert !ChatStops(answers)(i); }
    if ChatCancelled(routes, answers) {
      var j :| 0 <= j < n && answers(j).answer.Cancelled? && forall i :: 0 <= i < j ==> answers(i).answer.Raised?;
      FirstIs(ChatStops(answers), n, j);
    }
  }

  /** `stream_chat` settles once if the stream finishes, and releases once however
      else it ends: an exception, a refusal to plan, or the client going away. */
  lemma StreamClosesOnce(g: Setup, s: Books, q: ChatRequest, call: Call, answers: StreamAnswers)
    ensures var t := StreamTrace(g, s, q, call, answers);
            Accounted(t.ledger, AdmissionOf(g, s, q, call), t.result.Returned?, !t.result.Returned?)
  {
    hide EndsAs, Accounted, Opening, Admit, PlanFor, ReleasedRows, StreamAttempts;
    var a, t := AdmissionOf(g, s, q, call), StreamTrace(g, s, q, call, answers);
    var plan := if a.Admitted? then PlanFor(g.settings, a.request, a.decision, HealthAt(g, s, call)) else Routes([]);
    var ending := if a.Refused? then [] else if plan.NoPlan? then ReleasedRows(a.reservation, call.ctx)
                  else StreamAttempts(g, s.rows, call.ctx, a.request, a.reservation, plan.routes, answers).ledger;
    assert Opening(g, s.rows, q, call, false) + [] == Opening(g, s.rows, q, call, false);
    if a.Admitted? {
      ReleasedEnds(a.reservation, call.ctx);
      StreamAttemptsEnd(g, s.rows, call.ctx, a.request, a.reservation, if plan.Routes? then plan.routes else [],
          answers);
    }
    OpenedThenEnded(g, s.rows, q, call, false, ending, t.result.Returned?, !t.result.Returned?);
  }

  lemma InterruptedByCancelledProbe(call: Call, r: B.Reservation, routes: seq<Route>, answers: TestAnswers,
          explicit: bool)
    ensures TestAttempts(call, r, routes, answers, explicit).result.Interrupted? <==>
            ProbeCancelledFirst(routes, answers, explicit)
  {
    hide ReleasedRows, ProbesRecords, ProbesEvents, First;
    var stops, n := TestStops(answers, explicit), |routes|;
    var k := First(stops, n);
    FirstStops(stops, n);
    forall i | 0 <= i < k
      ensures !explicit && (answers(i).answer.ProbeRaised? || (answers(i).answer.Probed? && !answers(i).answer.ok))
    {
      assert !stops(i);
    }
    assert k < n ==> stops(k);
    if TestAttempts(call, r, routes, answers, explicit).result.Interrupted? {
      assert k < n && answers(k).answer.ProbeCancelled?;
      assert explicit ==> k == 0;
      assert ProbeCancelledFirst(routes, answers, explicit);
    }
    if ProbeCancelledFirst(routes, answers, explicit) {
      var j :| 0 <= j < n && answers(j).answer.ProbeCancelled? && (explicit ==> j == 0) &&
               forall i :: 0 <= i < j ==>
                 answers(i).answer.ProbeRaised? || (answers(i).answer.Probed? && !answers(i).answer.ok);
      assert stops(j);
      forall i | 0 <= i < j ensures !stops(i) { assert explicit ==> j == 0; }
      assert k == j && routes != [];
      assert TestAttempts(call, r, routes, answers, explicit) == TestStop(call, r, routes, answers, k);
    }
  }

  /** `test_connection` never settles; it releases once unless a probe is cancelled
      after ones that let the test go on. */
  lemma TestReleasesOnce(g: Setup, s: Books, t: TestRequest, call: Call, freshId: string, answers: TestAnswers)
    ensures var trace := TestTrace(g, s, t, call, freshId, answers);
            && Accounted(trace.ledger, Admit(g, s.rows, Ping(t), call, true), false, !trace.result.Interrupted?)
            && (trace.result.Interrupted? <==>
                  ProbeCancelledFirst(ProbedRoutes(g, s, t, call, freshId), answers, Explicit(t)))
  {
    hide EndsAs, Accounted, Opening, Admit, TestPlanFor, ReleasedRows, TestAttempts;
    var a, trace := Admit(g, s.rows, Ping(t), call, true), TestTrace(g, s, t, call, freshId, answers);
    var plan := if a.Admitted? then TestPlanFor(g, HealthAt(g, s, call), t, a.decision, freshId) else TestRoutes([]);
    var ending := if a.Refused? then [] else if plan.NoTest? then ReleasedRows(a.reservation, call.ctx)
                  else TestAttempts(call, a.reservation, plan.routes, answers, Explicit(t)).ledger;
    assert Opening(g, s.rows, Ping(t), call, true) + [] == Opening(g, s.rows, Ping(t), call, true);
    if a.Admitted? {
      ReleasedEnds(a.reservation, call.ctx);
      TestAttemptsEnd(call, a.reservation, if plan.TestRoutes? then plan.routes else [], answers, Explicit(t));
      if plan.TestRoutes? { InterruptedByCancelledProbe(call, a.reservation, plan.routes, answers, Explicit(t)); }
    }
    OpenedThenEnded(g, s.rows, Ping(t), call, true, ending, false, !trace.result.Interrupted?);
  }
}
