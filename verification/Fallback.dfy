/** What the fallback loops of the gateway do with the planned routes
    (backend/app/llm/gateway.py): which route answers, what is recorded for each
    attempt, what is charged, and what a streaming client receives. */
module Fallback {
  import opened Basics
  import opened Pricing
  import opened Router
  import opened Calls
  import B = Budget
  import CB = CircuitBreaker
  import C = Calendar

  /** What the records of a call charge on one meter. */
  function Charged(m: B.Meter, records: seq<Record>): nat {
    if records == [] then 0 else Charged(m, records[..|records| - 1]) + B.Measure(m, records[|records| - 1].usage)
  }

  lemma {:induction false} FailedRecordsAre(routes: seq<Route>, faults: nat -> Fault, k: nat)
    requires k <= |routes|
    ensures var records, events := FailedRecords(routes, faults, k), FailedEvents(routes, faults, k);
            && |records| == k && |events| == k
            && forall i :: 0 <= i < k ==>
                 && records[i] == Failure(B.Error, Some(routes[i]), ClassName(faults(i).error), faults(i).at)
                 && events[i] == Failed(routes[i], ClassName(faults(i).error), faults(i).at)
  {
    hide Failure, Failed, ClassName;
    if k > 0 { FailedRecordsAre(routes, faults, k - 1); }
  }

  lemma {:induction false} FailedRecordsAreFree(routes: seq<Route>, faults: nat -> Fault, k: nat, m: B.Meter)
    requires k <= |routes|
    ensures Charged(m, FailedRecords(routes, faults, k)) == 0
  {
    hide Charged, ClassName;
    NothingCharged(m);
    if k > 0 {
      FailedRecordsAreFree(routes, faults, k - 1, m);
      ChargedOneMore(m, FailedRecords(routes, faults, k - 1),
                     Failure(B.Error, Some(routes[k - 1]), ClassName(faults(k - 1).error), faults(k - 1).at));
    }
  }

  lemma ChargedOneMore(m: B.Meter, records: seq<Record>, record: Record)
    ensures Charged(m, records + [record]) == Charged(m, records) + B.Measure(m, record.usage)
  {}

  /** A record and a breaker outcome that report the same attempt. */
  predicate SameReport(record: Record, outcome: CB.Event) {
    && outcome.target == record.deployment
    && outcome.timed.at == record.createdAt
    && outcome.timed.op == if record.status.Success? then CB.Succeed else CB.Fail(record.errorCode)
  }

  /** Every attempt reported to the breaker is recorded, and the other way round, in order. */
  ghost predicate Agree(records: seq<Record>, outcomes: seq<CB.Event>) {
    |records| == |outcomes| && forall i :: 0 <= i < |records| ==> SameReport(records[i], outcomes[i])
  }

  /** The record of a failed attempt on a route. */
  predicate Reports(record: Record, route: Route, error: Exn) {
    && record.status.Error? && record.deployment == Some(route.deployment.id)
    && record.errorCode == Some(ClassName(error)) && record.usage == NO_USAGE
  }

  lemma {:induction false} FailedReports(routes: seq<Route>, faults: nat -> Fault, k: nat)
    requires k <= |routes|
    ensures var records := FailedRecords(routes, faults, k);
            && |records| == k
            && (forall i :: 0 <= i < k ==> Reports(records[i], routes[i], faults(i).error))
            && Agree(records, FailedEvents(routes, faults, k))
  {
    FailedRecordsAre(routes, faults, k);
  }

  lemma OneMoreAgrees(records: seq<Record>, outcomes: seq<CB.Event>, record: Record, outcome: CB.Event)
    requires Agree(records, outcomes) && SameReport(record, outcome)
    ensures Agree(records + [record], outcomes + [outcome])
  {}

  /** The first `n` attempts raised, and each is recorded once, in the order of the routes. */
  ghost predicate FailuresFirst(routes: seq<Route>, answers: ChatAnswers, records: seq<Record>, n: nat) {
    && n <= |routes| && n <= |records|
    && forall i :: 0 <= i < n ==> answers(i).answer.Raised? && Reports(records[i], routes[i], answers(i).answer.error)
  }

  /** No route was tried: at most one record, of a failure without a route, and
      nothing for the breaker. */
  ghost predicate Unattempted<R>(records: seq<Record>, outcomes: seq<CB.Event>, result: Outcome<R>) {
    && outcomes == [] && result.Threw?
    && forall i :: 0 <= i < |records| ==>
         !records[i].status.Success? && records[i].deployment == None && records[i].usage == NO_USAGE
  }

  /** A chat that is refused or cannot be planned leaves one record without a route.
      Otherwise it tries the planned routes in order and stops at the first that does not
      raise. It leaves one error record for each attempt that raised, in that
      order, and one success record if an answer is returned: the first reply, its
      usage priced again for the model that gave it. If every route raised, the
      last error is the one raised, and it is recorded once. */
  lemma ChatHistory(g: Setup, s: Books, q: ChatRequest, call: Call, answers: ChatAnswers)
    ensures var t, routes := ChatTrace(g, s, q, call, answers), PlannedRoutes(g, s, q, call);
            var n := |t.records|;
            if routes == [] then Unattempted(t.records, t.outcomes, t.result) && n == 1
            else
              && Agree(t.records, t.outcomes)
              && match t.result
                 case Returned(v) =>
                   && 1 <= n <= |routes| && FailuresFirst(routes, answers, t.records, n - 1)
                   && answers(n - 1).answer.Replied?
                   && var reply := answers(n - 1).answer.response;
                   && v == reply.(usage := Recalculate(g.prices, reply.usage, Some(reply.modelKey)))
                   && t.records[n - 1] == Calls.Success(routes[n - 1], v.modelKey, v.usage, answers(n - 1).at)
                 case Threw(error) =>
                   && n == |routes| && FailuresFirst(routes, answers, t.records, n)
                   && answers(n - 1).answer == Raised(error)
                 case Interrupted =>
                   n < |routes| && FailuresFirst(routes, answers, t.records, n) && answers(n).answer.Cancelled?
  {
    hide Admit, Opening, PlanFor, SettledRows, ReleasedRows, RowsOf, FailedRecords, FailedEvents, Recalculate, First,
        Reports, Agree;
    var routes := PlannedRoutes(g, s, q, call);
    RefusalIsFree(g, s.rows, q, call, false);
    if routes == [] { return; }
    var faults, k := ChatFaults(answers), First(ChatStops(answers), |routes|);
    FirstStops(ChatStops(answers), |routes|);
    FailedReports(routes, faults, k);
    assert k < |routes| ==> ChatStops(answers)(k);
    forall i | 0 <= i < k
      ensures answers(i).answer.Raised? &&
          Reports(FailedRecords(routes, faults, k)[i], routes[i], answers(i).answer.error)
    {
      assert !ChatStops(answers)(i);
      assert faults(i).error == answers(i).answer.error;
    }
    if k < |routes| && answers(k).answer.Replied? {
      var reply, at := answers(k).answer.response, answers(k).at;
      OneMoreAgrees(FailedRecords(routes, faults, k), FailedEvents(routes, faults, k),
                    Calls.Success(routes[k], reply.modelKey,
                        Recalculate(g.prices, reply.usage, Some(reply.modelKey)), at),
                    Succeeded(routes[k], at));
    }
  }

  /** What a chat charges is what it settles: the usage of the answer it returns,
      and nothing if it returns none. */
  lemma ChatChargesWhatItSettles(g: Setup, s: Books, q: ChatRequest, call: Call, answers: ChatAnswers, m: B.Meter)
    ensures var t := ChatTrace(g, s, q, call, answers);
            && Charged(m, t.records) == (if t.result.Returned? then B.Measure(m, t.result.value.usage) else 0)
            && forall i :: 0 <= i < |t.ledger| && t.ledger[i].event.Settle? ==>
                 t.result.Returned? && t.ledger[i].actual == t.result.value.usage
  {
    hide Admit, PlanFor, B.SettleRows, ReleasedRows, RowsOf, FailedRecords, FailedEvents, Recalculate, First,
        Opening, Charged;
    var t, routes := ChatTrace(g, s, q, call, answers), PlannedRoutes(g, s, q, call);
    NothingCharged(m);
    NoSettlement(g, s.rows, q, call, false);
    var a := Admit(g, s.rows, q, call, false);
    if a.Admitted? { ReleasesOnly(a.reservation, call.ctx); }
    if routes == [] {
      RefusalIsFree(g, s.rows, q, call, false);
      if t.records != [] {
        assert t.records == [] + [t.records[0]];
        ChargedOneMore(m, [], t.records[0]);
      }
    } else {
      FirstStops(ChatStops(answers), |routes|);
      var k := First(ChatStops(answers), |routes|);
      FailedRecordsAre(routes, ChatFaults(answers), k);
      FailedRecordsAreFree(routes, ChatFaults(answers), k, m);
      var failed := FailedRecords(routes, ChatFaults(answers), k);
      if t.result.Returned? {
        ChargedOneMore(m, failed, t.records[k]);
        SettlesActualUpTo(g, s.rows + RowsOf(call.ctx, failed), a.reservation, t.result.value.usage, call.ctx,
            answers(k).at, |a.reservation.scopes|);
      }
    }
  }

  lemma RefusalIsFree(g: Setup, rows: seq<B.UsageRow>, q: ChatRequest, call: Call, probe: bool)
    ensures var a := Admit(g, rows, q, call, probe);
            a.Refused? ==> a.record.usage == NO_USAGE && !a.record.status.Success? && a.record.deployment == None
  {}

  lemma NothingCharged(m: B.Meter)
    ensures Charged(m, []) == 0
  {}

  lemma NoSettlement(g: Setup, rows: seq<B.UsageRow>, q: ChatRequest, call: Call, probe: bool)
    ensures var opening := Opening(g, rows, q, call, probe);
            forall i :: 0 <= i < |opening| ==> !opening[i].event.Settle?
  {}

  lemma ReleasesOnly(r: B.Reservation, ctx: B.Context)
    ensures var rows := ReleasedRows(r, ctx); forall i :: 0 <= i < |rows| ==> rows[i].event.Release?
  {}

  ghost predicate AllActual(ledger: seq<B.LedgerRow>, actual: Usage) {
    forall i :: 0 <= i < |ledger| ==> ledger[i].actual == actual
  }

  lemma {:induction false} SettlesActualUpTo(g: Setup, rows: seq<B.UsageRow>, r: B.Reservation, actual: Usage,
          ctx: B.Context, at: Time, n: nat)
    requires n <= |r.scopes|
    ensures AllActual(B.SettleRows(g.policies, rows, r, actual, ctx, at, n), actual)
  {
    hide B.Alerts, C.PeriodWindow;
    if n > 0 { SettlesActualUpTo(g, rows, r, actual, ctx, at, n - 1); }
  }

  // ---- Streams -----------------------------------------------------------------------------------

  lemma {:induction false} ContentConcat(a: seq<string>, b: seq<string>)
    ensures Content(a + b) == Content(a) + Content(b)
  {
    if b == [] {
      assert a + b == a;
    } else {
      assert (a + b)[..|a + b| - 1] == a + b[..|b| - 1];
      ContentConcat(a, b[..|b| - 1]);
    }
  }

  lemma {:induction false} NothingBefore(answers: StreamAnswers, k: nat)
    requires forall i :: 0 <= i < k ==> !StreamStops(answers)(i)
    ensures Content(DeltasBefore(answers, k)) == ""
  {
    if k > 0 {
      NothingBefore(answers, k - 1);
      assert !StreamStops(answers)(k - 1);
      ContentConcat(DeltasBefore(answers, k - 1), answers(k - 1).answer.deltas);
    }
  }

  /** A stream never mixes models: whatever the outcome, all the text the client is
      sent comes from the last route tried, and the routes before it contributed
      empty deltas at most. */
  lemma StreamsNeverMix(g: Setup, s: Books, q: ChatRequest, call: Call, answers: StreamAnswers)
    ensures var sent := Yields(g, s, q, call, answers);
            sent == [] ||
            exists k, p ::
              && 0 <= k < |PlannedRoutes(g, s, q, call)| && 0 <= p <= |sent|
              && Content(sent[..p]) == "" && sent[p..] == answers(k).answer.deltas
              && forall i :: 0 <= i < k ==> Content(answers(i).answer.deltas) == ""
  {
    hide Admit, PlanFor, Content, First;
    var sent, routes := Yields(g, s, q, call, answers), PlannedRoutes(g, s, q, call);
    if sent != [] {
      FirstStops(StreamStops(answers), |routes|);
      var k := First(StreamStops(answers), |routes|);
      var last := if k < |routes| then k else k - 1;
      assert k > 0 || k < |routes|;
      forall i | 0 <= i < last ensures Content(answers(i).answer.deltas) == "" { assert !StreamStops(answers)(i); }
      NothingBefore(answers, last);
      var p := |DeltasBefore(answers, last)|;
      assert sent == DeltasBefore(answers, last) + answers(last).answer.deltas;
      assert sent[..p] == DeltasBefore(answers, last) && sent[p..] == answers(last).answer.deltas;
    }
  }

  /** The first `n` streams broke off with an ordinary error, each recorded once. */
  ghost predicate BreaksFirst(routes: seq<Route>, answers: StreamAnswers, records: seq<Record>, n: nat) {
    && n <= |routes| && n <= |records|
    && forall i :: 0 <= i < n ==>
         && answers(i).answer.end.Broke? && answers(i).answer.end.error.Other?
         && Reports(records[i], routes[i], answers(i).answer.end.error)
  }

  /** What a stream leaves behind: if it is refused, one record without a route; if it
      cannot be planned, none at all; otherwise one error record per ordinary failure, in order,
      and one success record if it finishes. The content recorded and charged is
      what the client was sent. Falling back stops at the first text; an HTTP error
      or a client that goes away is neither recorded nor held against the breaker. */
  lemma StreamHistory(g: Setup, s: Books, q: ChatRequest, call: Call, answers: StreamAnswers)
    ensures var t, routes := StreamTrace(g, s, q, call, answers), PlannedRoutes(g, s, q, call);
            var n, sent := |t.records|, Content(Yields(g, s, q, call, answers));
            if routes == [] then
              && Unattempted(t.records, t.outcomes, t.result)
              && n == if Admit(g, s.rows, q, call, false).Refused? then 1 else 0
            else
              && Agree(t.records, t.outcomes)
              && match t.result
                 case Returned(content) =>
                   && 1 <= n <= |routes| && BreaksFirst(routes, answers, t.records, n - 1)
                   && answers(n - 1).answer.end.Finished? && content == sent
                   && t.records[n - 1].status.Success?
                   && t.records[n - 1].deployment == Some(routes[n - 1].deployment.id)
                   && t.records[n - 1].usage.outputTokens == (if sent == "" then 0 else Max(1, |sent| / 4))
                 case Threw(error) =>
                   && BreaksFirst(routes, answers, t.records, n)
                   && (if error.Http? then n < |routes| && answers(n).answer.end == Broke(error)
                       else 1 <= n && answers(n - 1).answer.end == Broke(error) && (sent == "" ==> n == |routes|))
                 case Interrupted =>
                   n < |routes| && BreaksFirst(routes, answers, t.records, n) && answers(n).answer.end.ClientGone?
  {
    hide Admit, Opening, PlanFor, SettledRows, ReleasedRows, RowsOf, FailedRecords, FailedEvents, First, Content,
        Estimate, Reports, Agree;
    hide DeltasBefore, BreaksFirst;
    var routes := PlannedRoutes(g, s, q, call);
    RefusalIsFree(g, s.rows, q, call, false);
    if routes == [] { return; }
    var k := First(StreamStops(answers), |routes|);
    FirstStops(StreamStops(answers), |routes|);
    forall i | 0 <= i < k ensures answers(i).answer.end.Broke? && answers(i).answer.end.error.Other? {
      assert !StreamStops(answers)(i);
    }
    BrokenBefore(routes, answers, k);
    SentIs(answers, k, |routes|);
    if k < |routes| {
      var a, at := answers(k).answer, answers(k).at;
      assert StreamStops(answers)(k);
      if a.end.Finished? {
        var a := Admit(g, s.rows, q, call, false);
        var usage := StreamUsage(g, a.request, routes[k], Content(answers(k).answer.deltas));
        FinishedAfter(routes, answers, k, Calls.Success(routes[k], routes[k].deployment.modelKey, usage, at),
            Succeeded(routes[k], at));
      }
      if a.end.Broke? && a.end.error.Other? { BrokenBefore(routes, answers, k + 1); }
    } else {
      assert !StreamStops(answers)(k - 1);
    }
  }

  lemma BrokenBefore(routes: seq<Route>, answers: StreamAnswers, k: nat)
    requires k <= |routes|
    requires forall i :: 0 <= i < k ==> answers(i).answer.end.Broke? && answers(i).answer.end.error.Other?
    ensures var records := FailedRecords(routes, StreamFaults(answers), k);
            && |records| == k && BreaksFirst(routes, answers, records, k)
            && Agree(records, FailedEvents(routes, StreamFaults(answers), k))
  {}

  lemma FinishedAfter(routes: seq<Route>, answers: StreamAnswers, k: nat, record: Record, outcome: CB.Event)
    requires k <= |routes|
    requires forall i :: 0 <= i < k ==> answers(i).answer.end.Broke? && answers(i).answer.end.error.Other?
    requires SameReport(record, outcome)
    ensures var records := FailedRecords(routes, StreamFaults(answers), k);
            && BreaksFirst(routes, answers, records + [record], k)
            && Agree(records + [record], FailedEvents(routes, StreamFaults(answers), k) + [outcome])
  {
    hide FailedRecords, FailedEvents, Reports, Agree, SameReport;
    BrokenBefore(routes, answers, k);
    OneMoreAgrees(FailedRecords(routes, StreamFaults(answers), k), FailedEvents(routes, StreamFaults(answers), k),
        record, outcome);
  }

  /** The text sent is that of the last route tried. */
  lemma SentIs(answers: StreamAnswers, k: nat, n: nat)
    requires k <= n && forall i :: 0 <= i < k ==> !StreamStops(answers)(i)
    ensures Content(DeltasBefore(answers, k)) == ""
    ensures k < n ==> Content(DeltasBefore(answers, k + 1)) == Content(answers(k).answer.deltas)
  {
    hide Content;
    NothingBefore(answers, k);
    if k < n { ContentConcat(DeltasBefore(answers, k), answers(k).answer.deltas); }
  }

  /** What a stream charges is what it settles, and only a finished one charges. */
  lemma StreamChargesWhatItSettles(g: Setup, s: Books, q: ChatRequest, call: Call, answers: StreamAnswers, m: B.Meter)
    ensures var t := StreamTrace(g, s, q, call, answers);
            && (t.result.Returned? ==> t.records != [])
            && Charged(m, t.records) == (if t.result.Returned? then B.Measure(m, t.records[|t.records| - 1].usage)
                else 0)
            && forall i :: 0 <= i < |t.ledger| && t.ledger[i].event.Settle? ==>
                 t.result.Returned? && t.ledger[i].actual == t.records[|t.records| - 1].usage
  {
    hide Admit, PlanFor, B.SettleRows, ReleasedRows, RowsOf, FailedRecords, FailedEvents, StreamUsage, First,
        Opening, Charged, Content;
    var t, routes := StreamTrace(g, s, q, call, answers), PlannedRoutes(g, s, q, call);
    NothingCharged(m);
    NoSettlement(g, s.rows, q, call, false);
    var a := Admit(g, s.rows, q, call, false);
    if a.Admitted? { ReleasesOnly(a.reservation, call.ctx); }
    if routes == [] {
      RefusalIsFree(g, s.rows, q, call, false);
      if t.records != [] {
        assert t.records == [] + [t.records[0]];
        ChargedOneMore(m, [], t.records[0]);
      }
    } else {
      FirstStops(StreamStops(answers), |routes|);
      var k := First(StreamStops(answers), |routes|);
      FailedRecordsAre(routes, StreamFaults(answers), k);
      FailedRecordsAreFree(routes, StreamFaults(answers), k, m);
      if k < |routes| { FailedRecordsAreFree(routes, StreamFaults(answers), k + 1, m); }
      var failed := FailedRecords(routes, StreamFaults(answers), k);
      if t.result.Returned? {
        ChargedOneMore(m, failed, t.records[k]);
        SettlesActualUpTo(g, s.rows + RowsOf(call.ctx, failed), a.reservation, t.records[k].usage, call.ctx,
            answers(k).at,
                          |a.reservation.scopes|);
      }
    }
  }

  // ---- Connection tests ----------------------------------------------------------------------------

  /** The record of a probe. */
  predicate ReportsProbe(record: Record, route: Route, a: TestAnswer) {
    && record.deployment == Some(route.deployment.id) && record.usage == NO_USAGE
    && !a.ProbeCancelled?
    && record.status == (if a.Probed? && a.ok then B.Success else B.Error)
    && record.modelKey == (if a.Probed? && a.modelKey.Some? && a.modelKey.value != "" then a.modelKey
                           else Some(route.deployment.modelKey))
    && record.errorCode == (if a.ProbeRaised? then Some(ClassName(a.error))
                            else if a.ok then None else Some("connection_test_failed"))
  }

  lemma {:induction false} ProbeReports(routes: seq<Route>, answers: TestAnswers, k: nat)
    requires k <= |routes| && forall i :: 0 <= i < k ==> !answers(i).answer.ProbeCancelled?
    ensures var records := ProbesRecords(routes, answers, k);
            && |records| == k
            && (forall i :: 0 <= i < k ==> ReportsProbe(records[i], routes[i], answers(i).answer))
            && Agree(records, ProbesEvents(routes, answers, k))
  {
    hide ReportsProbe, SameReport, ProbesRecords, ProbesEvents, ProbeRecords, ProbeEvents;
    NoneProbed(routes, answers);
    if k > 0 {
      OneMoreProbed(routes, answers, k - 1);
      ProbeReports(routes, answers, k - 1);
      var route, a, at := routes[k - 1], answers(k - 1).answer, answers(k - 1).at;
      OneProbeReports(route, a, at);
      OneMoreAgrees(ProbesRecords(routes, answers, k - 1), ProbesEvents(routes, answers, k - 1),
                    ProbeRecords(route, a, at)[0], ProbeEvents(route, a, at)[0]);
    }
  }

  lemma OneProbeReports(route: Route, a: TestAnswer, at: Time)
    requires !a.ProbeCancelled?
    ensures |ProbeRecords(route, a, at)| == 1 && ProbeRecords(route, a, at) == [ProbeRecords(route, a, at)[0]]
    ensures |ProbeEvents(route, a, at)| == 1 && ProbeEvents(route, a, at) == [ProbeEvents(route, a, at)[0]]
    ensures ReportsProbe(ProbeRecords(route, a, at)[0], route, a)
    ensures SameReport(ProbeRecords(route, a, at)[0], ProbeEvents(route, a, at)[0])
  {}

  /** A connection test that is refused or has no route leaves one record without a
      route. Otherwise it probes its routes in order until one succeeds, or just the
      first if its target is explicit; each probe made is recorded once, charges
      nothing, and the last one decides the result. */
  lemma TestHistory(g: Setup, s: Books, t: TestRequest, call: Call, freshId: string, answers: TestAnswers)
    ensures var trace, routes := TestTrace(g, s, t, call, freshId, answers), ProbedRoutes(g, s, t, call, freshId);
            var n, explicit := |trace.records|, t.deploymentId.Some? || t.providerKey.Some?;
            if routes == [] then Unattempted(trace.records, trace.outcomes, trace.result) && n == 1
            else
              && Agree(trace.records, trace.outcomes)
              && n <= |routes| && (explicit ==> n <= 1)
              && (forall i :: 0 <= i < n ==> ReportsProbe(trace.records[i], routes[i], answers(i).answer))
              && (forall i :: 0 <= i < n - 1 ==> !trace.records[i].status.Success?)
              && match trace.result
                 case Returned(result) =>
                   && 1 <= n && answers(n - 1).answer == Probed(result.ok, result.modelKey)
                   && (result.ok || explicit || n == |routes|)
                 case Threw(error) =>
                   1 <= n && answers(n - 1).answer == ProbeRaised(error) && (explicit || n == |routes|)
                 case Interrupted => n < |routes| && answers(n).answer.ProbeCancelled?
  {
    hide Admit, Opening, TestPlanFor, ReleasedRows, ProbesRecords, ProbesEvents, First, ReportsProbe, Agree;
    var routes := ProbedRoutes(g, s, t, call, freshId);
    RefusalIsFree(g, s.rows, Ping(t), call, true);
    if routes == [] { return; }
    var stops := TestStops(answers, Explicit(t));
    var k := First(stops, |routes|);
    FirstStops(stops, |routes|);
    var last := if k < |routes| then k else k - 1;
    forall i | 0 <= i < last
      ensures !answers(i).answer.ProbeCancelled? && !(answers(i).answer.Probed? && answers(i).answer.ok)
    {
      assert !stops(i);
    }
    assert k < |routes| ==> stops(k);
    assert k == |routes| ==> !stops(last);
    assert Explicit(t) ==> last == 0 by { assert last > 0 ==> !stops(0); }
    ProbeReports(routes, answers, last);
    if answers(last).answer.ProbeCancelled? {
      NothingFromCancelled(routes, answers, last);
    } else {
      ProbeReports(routes, answers, last + 1);
    }
    ProbeStatus();
  }

  lemma ProbeStatus()
    ensures forall record, route, a ::
              ReportsProbe(record, route, a) && !(a.Probed? && a.ok) ==> !record.status.Success?
  {}

  lemma NothingFromCancelled(routes: seq<Route>, answers: TestAnswers, k: nat)
    requires k < |routes| && answers(k).answer.ProbeCancelled?
    ensures ProbesRecords(routes, answers, k + 1) == ProbesRecords(routes, answers, k)
    ensures ProbesEvents(routes, answers, k + 1) == ProbesEvents(routes, answers, k)
  {}
}
