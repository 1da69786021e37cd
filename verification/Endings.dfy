/** How a gateway call ends: it settles once, after its failed attempts and before
    its own usage row, or it charges nothing (backend/app/llm/gateway.py). */
module Endings {
  import opened Basics
  import opened Pricing
  import opened Calls
  import opened Fallback
  import opened Runs
  import opened Router
  import Policy
  import B = Budget
  import C = Calendar

  /** When each attempt of a call was booked. */
  function At(c: AnyCall): nat -> Time {
    (i: nat) =>
      match c
      case ChatCall(_, _, answers) => answers(i).at
      case StreamCall(_, _, answers) => answers(i).at
      case TestCall(_, _, _, answers) => answers(i).at
  }

  /** The rows written before the settlement, the row written after it, and when. */
  datatype Settlement = Settlement(failed: seq<Record>, paid: Record, at: Time)

  predicate Succeeds(g: Setup, s: Books, c: AnyCall) {
    match c
    case ChatCall(q, call, answers) => ChatTrace(g, s, q, call, answers).result.Returned?
    case StreamCall(q, call, answers) => StreamTrace(g, s, q, call, answers).result.Returned?
    case TestCall(_, _, _, _) => false
  }

  function SettlementOf(g: Setup, s: Books, c: AnyCall): Option<Settlement> {
    var records := RecordsOf(g, s, c);
    if Succeeds(g, s, c) && records != [] then
      var n := |records| - 1;
      Some(Settlement(records[..n], records[n], At(c)(n)))
    else None
  }

  function RoutesOf(g: Setup, s: Books, c: AnyCall): seq<Route> {
    match c
    case ChatCall(q, call, _) => PlannedRoutes(g, s, q, call)
    case StreamCall(q, call, _) => PlannedRoutes(g, s, q, call)
    case TestCall(t, call, freshId, _) => ProbedRoutes(g, s, t, call, freshId)
  }

  function OpeningIn(g: Setup, s: Books, c: AnyCall): seq<B.LedgerRow> {
    match c
    case ChatCall(q, call, _) => Opening(g, s.rows, q, call, false)
    case StreamCall(q, call, _) => Opening(g, s.rows, q, call, false)
    case TestCall(t, call, _, _) => Opening(g, s.rows, Ping(t), call, true)
  }

  ghost predicate AreFree(records: seq<Record>) { forall i :: 0 <= i < |records| ==> records[i].usage == NO_USAGE }

  /** Each record is made when its attempt is booked; without attempts, as the call begins. */
  ghost predicate MadeInTurn(c: AnyCall, routes: seq<Route>, records: seq<Record>) {
    forall i :: 0 <= i < |records| ==>
      records[i].createdAt == C.Instant(if routes == [] then c.call.began else At(c)(i))
  }

  predicate Closing(row: B.LedgerRow) { row.event.Settle? || row.event.Alert? }

  ghost predicate NoneClose(ledger: seq<B.LedgerRow>) { forall i :: 0 <= i < |ledger| ==> !Closing(ledger[i]) }

  /** The ledger rows and records of a call that settles, or of one that does not. */
  ghost predicate Shape(g: Setup, s: Books, c: AnyCall) {
    var a, records, ledger, opening := AdmissionIn(g, s, c), RecordsOf(g, s, c), LedgerOf(g, s, c), OpeningIn(g, s, c);
    && NoneClose(opening)
    && MadeInTurn(c, RoutesOf(g, s, c), records)
    && match SettlementOf(g, s, c)
       case Some(x) =>
         && a.Admitted? && RoutesOf(g, s, c) != []
         && records == x.failed + [x.paid] && AreFree(x.failed)
         && x.paid.status.Success? && x.paid.createdAt == C.Instant(x.at)
         && ledger == opening + SettledRows(g, s.rows + RowsOf(c.call.ctx, x.failed), a.reservation, x.paid.usage,
                                            c.call.ctx, x.at)
       case None => AreFree(records) && NoneClose(ledger)
  }

  lemma OpeningCloses(g: Setup, rows: seq<B.UsageRow>, q: Pricing.ChatRequest, call: Call, probe: bool)
    ensures NoneClose(Opening(g, rows, q, call, probe))
  {}

  lemma ReleasesClose(r: B.Reservation, ctx: B.Context)
    ensures NoneClose(ReleasedRows(r, ctx))
  {}

  lemma RefusedAt(g: Setup, rows: seq<B.UsageRow>, q: Pricing.ChatRequest, call: Call, probe: bool)
    ensures var a := Admit(g, rows, q, call, probe);
            a.Refused? ==> a.record.usage == NO_USAGE && a.record.createdAt == C.Instant(call.began)
  {}

  lemma NoneCloseConcat(a: seq<B.LedgerRow>, b: seq<B.LedgerRow>)
    requires NoneClose(a) && NoneClose(b)
    ensures NoneClose(a + b) && NoneClose(a + [])
  {}

  /** What opens and releases a call neither settles nor alerts. */
  lemma EdgesClose(g: Setup, rows: seq<B.UsageRow>, q: Pricing.ChatRequest, call: Call, probe: bool)
    ensures var a, opening := Admit(g, rows, q, call, probe), Opening(g, rows, q, call, probe);
            && NoneClose(opening) && NoneClose(opening + [])
            && (a.Admitted? ==> NoneClose(opening + ReleasedRows(a.reservation, call.ctx)))
  {
    hide Admit, Opening, ReleasedRows, NoneClose;
    assert NoneClose([]) by { NothingCloses(); }
    OpeningCloses(g, rows, q, call, probe);
    NoneCloseConcat(Opening(g, rows, q, call, probe), []);
    var a := Admit(g, rows, q, call, probe);
    if a.Admitted? {
      ReleasesClose(a.reservation, call.ctx);
      NoneCloseConcat(Opening(g, rows, q, call, probe), ReleasedRows(a.reservation, call.ctx));
    }
  }

  lemma NothingCloses()
    ensures NoneClose([])
  {}

  /** The attempts of a chat or a stream that returned settled after their failures,
      before the row of the success; others charge nothing. */
  ghost predicate Ends<R>(g: Setup, rows: seq<B.UsageRow>, ctx: B.Context, r: B.Reservation, at: nat -> Time,
          t: Trace<Outcome<R>>)
  {
    && (forall i :: 0 <= i < |t.records| ==> t.records[i].createdAt == C.Instant(at(i)))
    && if t.result.Returned? then
         && t.records != []
         && var n := |t.records| - 1;
         && AreFree(t.records[..n]) && t.records[n].status.Success?
         && t.ledger == SettledRows(g, rows + RowsOf(ctx, t.records[..n]), r, t.records[n].usage, ctx, at(n))
       else AreFree(t.records) && NoneClose(t.ledger)
  }

  /** Failed attempts charge nothing and are recorded in turn. */
  lemma {:induction false} FailuresInTurn(routes: seq<Route>, faults: nat -> Fault, at: nat -> Time, k: nat)
    requires k <= |routes| && forall i: nat :: i < k ==> faults(i).at == at(i)
    ensures var records := FailedRecords(routes, faults, k);
            && |records| == k && AreFree(records)
            && forall i :: 0 <= i < k ==> records[i].createdAt == C.Instant(at(i))
  {
    hide C.Instant;
    if k > 0 { FailuresInTurn(routes, faults, at, k - 1); }
  }

  /** A trace that settles after `failed` attempts. */
  lemma SettledEnds<R>(g: Setup, rows: seq<B.UsageRow>, ctx: B.Context, r: B.Reservation, at: nat -> Time,
          t: Trace<Outcome<R>>, failed: seq<Record>, paid: Record)
    requires t.result.Returned? && t.records == failed + [paid] && AreFree(failed)
    requires paid.status.Success? && paid.createdAt == C.Instant(at(|failed|))
    requires forall i :: 0 <= i < |failed| ==> failed[i].createdAt == C.Instant(at(i))
    requires t.ledger == SettledRows(g, rows + RowsOf(ctx, failed), r, paid.usage, ctx, at(|failed|))
    ensures Ends(g, rows, ctx, r, at, t)
  {
    hide SettledRows, RowsOf, C.Instant;
    assert t.records[..|failed|] == failed;
  }

  lemma ChatEnds(g: Setup, rows: seq<B.UsageRow>, call: Call, r: B.Reservation, routes: seq<Route>,
          answers: ChatAnswers, at: nat -> Time)
    requires routes != [] && forall i: nat :: at(i) == answers(i).at
    ensures Ends(g, rows, call.ctx, r, at, ChatAttempts(g, rows, call, r, routes, answers))
  {
    hide SettledRows, ReleasedRows, RowsOf, FailedRecords, FailedEvents, Recalculate, First, C.Instant, NoneClose,
         AreFree;
    var k, t := First(ChatStops(answers), |routes|), ChatAttempts(g, rows, call, r, routes, answers);
    FirstStops(ChatStops(answers), |routes|);
    FailuresInTurn(routes, ChatFaults(answers), at, k);
    if t.result.Returned? {
      hide Ends;
      SettledEnds(g, rows, call.ctx, r, at, t, FailedRecords(routes, ChatFaults(answers), k), t.records[k]);
    } else {
      ReleasesClose(r, call.ctx);
      NothingCloses();
    }
  }

  lemma StreamEnds(g: Setup, rows: seq<B.UsageRow>, ctx: B.Context, e: Pricing.ChatRequest, r: B.Reservation,
          routes: seq<Route>, answers: StreamAnswers, at: nat -> Time)
    requires routes != [] && forall i: nat :: at(i) == answers(i).at
    ensures Ends(g, rows, ctx, r, at, StreamAttempts(g, rows, ctx, e, r, routes, answers))
  {
    hide SettledRows, ReleasedRows, RowsOf, FailedRecords, FailedEvents, StreamUsage, First, C.Instant, NoneClose,
         Content, AreFree;
    var k, t := First(StreamStops(answers), |routes|), StreamAttempts(g, rows, ctx, e, r, routes, answers);
    FirstStops(StreamStops(answers), |routes|);
    FailuresInTurn(routes, StreamFaults(answers), at, k);
    if t.result.Returned? {
      hide Ends;
      SettledEnds(g, rows, ctx, r, at, t, FailedRecords(routes, StreamFaults(answers), k), t.records[k]);
    } else {
      if k < |routes| { FailuresInTurn(routes, StreamFaults(answers), at, k + 1); }
      ReleasesClose(r, ctx);
    }
  }

  lemma ChatShape(g: Setup, s: Books, c: AnyCall)
    requires c.ChatCall?
    ensures Shape(g, s, c)
  {
    hide Admit, PlanFor, B.SettleRows, ReleasedRows, RowsOf, Opening, C.Instant, NoneClose, ChatAttempts;
    var a, routes := Admit(g, s.rows, c.q, c.call, false), PlannedRoutes(g, s, c.q, c.call);
    EdgesClose(g, s.rows, c.q, c.call, false);
    RefusedAt(g, s.rows, c.q, c.call, false);
    if routes != [] {
      ChatEnds(g, s.rows, c.call, a.reservation, routes, c.answers, At(c));
      var t := ChatAttempts(g, s.rows, c.call, a.reservation, routes, c.answers);
      if !t.result.Returned? { NoneCloseConcat(Opening(g, s.rows, c.q, c.call, false), t.ledger); }
    } else if a.Admitted? {
      PlansAreNotEmpty(g, s, c.q, c.call);
    }
  }

  /** A plan without routes does not occur. */
  lemma PlansAreNotEmpty(g: Setup, s: Books, q: Pricing.ChatRequest, call: Call)
    ensures var a := Admit(g, s.rows, q, call, false);
            a.Admitted? && PlannedRoutes(g, s, q, call) == [] ==>
              PlanFor(g.settings, a.request, a.decision, HealthAt(g, s, call)).NoPlan?
  {
    hide Admit, PlanFor, Eligible;
    var a := Admit(g, s.rows, q, call, false);
    if a.Admitted? { PlanOutcome(g.settings, a.request, a.decision, HealthAt(g, s, call)); }
  }

  lemma StreamShape(g: Setup, s: Books, c: AnyCall)
    requires c.StreamCall?
    ensures Shape(g, s, c)
  {
    hide Admit, PlanFor, B.SettleRows, ReleasedRows, RowsOf, Opening, C.Instant, NoneClose, StreamAttempts;
    var a, routes := Admit(g, s.rows, c.q, c.call, false), PlannedRoutes(g, s, c.q, c.call);
    EdgesClose(g, s.rows, c.q, c.call, false);
    RefusedAt(g, s.rows, c.q, c.call, false);
    if routes != [] {
      StreamEnds(g, s.rows, c.call.ctx, a.request, a.reservation, routes, c.deltas, At(c));
      var t := StreamAttempts(g, s.rows, c.call.ctx, a.request, a.reservation, routes, c.deltas);
      if !t.result.Returned? { NoneCloseConcat(Opening(g, s.rows, c.q, c.call, false), t.ledger); }
    } else if a.Admitted? {
      PlansAreNotEmpty(g, s, c.q, c.call);
    }
  }

  lemma {:induction false} ProbesInTurn(routes: seq<Route>, answers: TestAnswers, k: nat)
    requires k <= |routes| && forall i :: 0 <= i < k - 1 ==> !answers(i).answer.ProbeCancelled?
    ensures var records := ProbesRecords(routes, answers, k);
            && |records| <= k && AreFree(records)
            && (k == 0 || !answers(k - 1).answer.ProbeCancelled? ==> |records| == k)
            && forall i :: 0 <= i < |records| ==> records[i].createdAt == C.Instant(answers(i).at)
  {
    hide C.Instant;
    if k > 0 { ProbesInTurn(routes, answers, k - 1); }
  }

  lemma TestShape(g: Setup, s: Books, c: AnyCall)
    requires c.TestCall?
    ensures Shape(g, s, c)
  {
    hide Admit, TestPlanFor, ReleasedRows, RowsOf, ProbesRecords, ProbesEvents, First, Opening, C.Instant, NoneClose;
    var routes, answers := ProbedRoutes(g, s, c.t, c.call, c.freshId), c.probes;
    EdgesClose(g, s.rows, Ping(c.t), c.call, true);
    RefusedAt(g, s.rows, Ping(c.t), c.call, true);
    if routes != [] {
      var stops := TestStops(answers, Explicit(c.t));
      var k := First(stops, |routes|);
      FirstStops(stops, |routes|);
      forall i | 0 <= i < k ensures !answers(i).answer.ProbeCancelled? { assert !stops(i); }
      ProbesInTurn(routes, answers, if k < |routes| then k + 1 else k);
    }
  }

  /** Every call has the shape of one that settles once or of one that is free. */
  lemma CallShape(g: Setup, s: Books, c: AnyCall)
    ensures Shape(g, s, c)
  {
    hide Shape;
    match c
    case ChatCall(_, _, _) => ChatShape(g, s, c);
    case StreamCall(_, _, _) => StreamShape(g, s, c);
    case TestCall(_, _, _, _) => TestShape(g, s, c);
  }

  /** What an admitted call has reserved. */
  lemma AdmittedScopes(g: Setup, s: Books, c: AnyCall)
    requires AdmissionIn(g, s, c).Admitted?
    ensures var r := AdmissionIn(g, s, c).reservation;
            r.approved && r.scopes == B.Scopes(B.Applicable(g.policies, c.call.ctx))
  {
    hide Policy.Evaluate, B.FirstDenial, B.Applicable, Estimate, B.Scopes;
  }
}
