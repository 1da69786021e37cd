/** The circuit breaker over whole runs of the gateway: a deployment that keeps failing
    is not planned again before its cooldown ends, but as a last resort
    (backend/app/llm/gateway.py, circuit_breaker.py, router.py). */
module Outage {
  import opened Basics
  import opened Router
  import opened Calls
  import opened Fallback
  import opened Runs
  import opened Recording
  import Pricing
  import CB = CircuitBreaker
  import C = Calendar

  // ---- The outcomes of a run -------------------------------------------------------------------

  function OutcomesOf(g: Setup, s: Books, c: AnyCall): seq<CB.Event> {
    match c
    case ChatCall(q, call, answers) => ChatTrace(g, s, q, call, answers).outcomes
    case StreamCall(q, call, answers) => StreamTrace(g, s, q, call, answers).outcomes
    case TestCall(t, call, freshId, answers) => TestTrace(g, s, t, call, freshId, answers).outcomes
  }

  function Outcomes(g: Setup, s: Books, calls: seq<AnyCall>): seq<CB.Event> {
    if calls == [] then []
    else
      Outcomes(g, s, calls[..|calls| - 1]) +
      OutcomesOf(g, Run(g, s, calls[..|calls| - 1]), calls[|calls| - 1])
  }

  predicate IsOutcome(ev: CB.Event) { ev.target.Some? && (ev.timed.op.Fail? || ev.timed.op.Succeed?) }

  /** How many outcomes of a deployment have been failures since its last success. */
  function LastFailures(outcomes: seq<CB.Event>, d: string): nat {
    if outcomes == [] then 0
    else
      var front, ev := LastFailures(outcomes[..|outcomes| - 1], d), outcomes[|outcomes| - 1];
      if ev.target != Some(d) then front else if ev.timed.op.Fail? then front + 1 else 0
  }

  /** A failure of the deployment was recorded at that moment. */
  ghost predicate FailedAt(outcomes: seq<CB.Event>, d: string, at: Micros) {
    exists i :: 0 <= i < |outcomes| && outcomes[i].target == Some(d) && outcomes[i].timed.op.Fail? &&
                outcomes[i].timed.at == at
  }

  // ---- What a circuit knows of them ------------------------------------------------------------

  /** The circuit of a deployment, when it has last been asked about no later than `asked`. */
  ghost predicate Tracks(cfg: CB.Config, c: Option<CB.Circuit>, outcomes: seq<CB.Event>, d: string, asked: Micros) {
    && CB.OrFresh(c).failures == LastFailures(outcomes, d)
    && (c.Some? ==>
          && CB.WellFormed(cfg, c.value)
          && (!c.value.state.Closed? ==> c.value.openedAt.Some? && FailedAt(outcomes, d, c.value.openedAt.value))
          && (c.value.state.HalfOpen? ==> c.value.openedAt.value + cfg.cooldown <= asked))
  }

  ghost predicate AllTrack(cfg: CB.Config, m: map<string, CB.Circuit>, outcomes: seq<CB.Event>, asked: Micros) {
    forall d :: Tracks(cfg, CB.Lookup(m, d), outcomes, d, asked)
  }

  lemma OneMoreOutcome(outcomes: seq<CB.Event>, ev: CB.Event, d: string, at: Micros)
    ensures LastFailures(outcomes + [ev], d) ==
            if ev.target != Some(d) then LastFailures(outcomes, d)
            else if ev.timed.op.Fail? then LastFailures(outcomes, d) + 1 else 0
    ensures FailedAt(outcomes, d, at) ==> FailedAt(outcomes + [ev], d, at)
    ensures ev.target == Some(d) && ev.timed.op.Fail? ==> FailedAt(outcomes + [ev], d, ev.timed.at)
  {
    var all := outcomes + [ev];
    assert all[..|outcomes|] == outcomes && all[|outcomes|] == ev;
    if FailedAt(outcomes, d, at) {
      var i :| 0 <= i < |outcomes| && outcomes[i].target == Some(d) && outcomes[i].timed.op.Fail? &&
               outcomes[i].timed.at == at;
      assert all[i] == outcomes[i];
    }
  }

  lemma OutcomeTracked(cfg: CB.Config, m: map<string, CB.Circuit>, outcomes: seq<CB.Event>, ev: CB.Event, asked: Micros)
    requires cfg.Valid() && IsOutcome(ev) && AllTrack(cfg, m, outcomes, asked)
    ensures AllTrack(cfg, CB.StepAll(cfg, m, ev), outcomes + [ev], asked)
  {
    hide LastFailures, FailedAt;
    forall d ensures Tracks(cfg, CB.Lookup(CB.StepAll(cfg, m, ev), d), outcomes + [ev], d, asked) {
      var c := CB.Lookup(m, d);
      assert Tracks(cfg, c, outcomes, d, asked);
      OneMoreOutcome(outcomes, ev, d, if c.Some? && c.value.openedAt.Some? then c.value.openedAt.value else 0);
    }
  }

  lemma {:induction false} OutcomesTracked(cfg: CB.Config, m: map<string, CB.Circuit>, outcomes: seq<CB.Event>,
          events: seq<CB.Event>, asked: Micros)
    requires cfg.Valid() && AllTrack(cfg, m, outcomes, asked)
    requires forall i :: 0 <= i < |events| ==> IsOutcome(events[i])
    ensures AllTrack(cfg, Apply(cfg, m, events), outcomes + events, asked)
  {
    hide AllTrack, IsOutcome, CB.StepAll;
    if events == [] {
      assert outcomes + events == outcomes;
    } else {
      var front, ev := events[..|events| - 1], events[|events| - 1];
      OutcomesTracked(cfg, m, outcomes, front, asked);
      OutcomeTracked(cfg, Apply(cfg, m, front), outcomes + front, ev, asked);
      assert outcomes + events == outcomes + front + [ev];
    }
  }

  lemma AskingTracked(h: Health, x: Deployment, outcomes: seq<CB.Event>, asked: Micros)
    requires AllTrack(h.cfg, h.circuits, outcomes, asked) && h.now <= asked
    ensures AllTrack(h.cfg, AskOne(h, x).circuits, outcomes, asked)
  {
    hide LastFailures, FailedAt;
    forall d ensures Tracks(h.cfg, CB.Lookup(AskOne(h, x).circuits, d), outcomes, d, asked) {
      assert Tracks(h.cfg, CB.Lookup(h.circuits, d), outcomes, d, asked);
    }
  }

  lemma {:induction false} AskingEachTracked(h: Health, xs: seq<Deployment>, outcomes: seq<CB.Event>, asked: Micros)
    requires AllTrack(h.cfg, h.circuits, outcomes, asked) && h.now <= asked
    ensures AllTrack(h.cfg, AskEach(h, xs).circuits, outcomes, asked)
    ensures AskEach(h, xs).cfg == h.cfg && AskEach(h, xs).now == h.now
  {
    hide AllTrack, CB.StepAll;
    if xs != [] {
      AskingEachTracked(h, xs[..|xs| - 1], outcomes, asked);
      AskingTracked(AskEach(h, xs[..|xs| - 1]), xs[|xs| - 1], outcomes, asked);
    }
  }

  lemma LaterAsking(cfg: CB.Config, m: map<string, CB.Circuit>, outcomes: seq<CB.Event>, asked: Micros, later: Micros)
    requires AllTrack(cfg, m, outcomes, asked) && asked <= later
    ensures AllTrack(cfg, m, outcomes, later)
  {
    hide LastFailures, FailedAt;
    forall d ensures Tracks(cfg, CB.Lookup(m, d), outcomes, d, later) {
      assert Tracks(cfg, CB.Lookup(m, d), outcomes, d, asked);
    }
  }

  // ---- One call ----------------------------------------------------------------------------------

  /** The breaker once a call has been planned. */
  function AskedIn(g: Setup, s: Books, c: AnyCall): map<string, CB.Circuit> {
    match c
    case ChatCall(q, call, _) => Asked(g, s, q, call)
    case StreamCall(q, call, _) => Asked(g, s, q, call)
    case TestCall(t, call, freshId, _) => AskedByTest(g, s, t, call, freshId)
  }

  lemma StepBreaker(g: Setup, s: Books, c: AnyCall)
    ensures Step(g, s, c).circuits == Apply(g.breaker, AskedIn(g, s, c), OutcomesOf(g, s, c))
  {
    hide Asked, AskedByTest, ChatTrace, StreamTrace, TestTrace, Apply;
  }

  /** Planning asks about candidates when the call begins, or about nothing. */
  lemma PlanningTracked(g: Setup, s: Books, c: AnyCall, outcomes: seq<CB.Event>, asked: Micros)
    requires AllTrack(g.breaker, s.circuits, outcomes, asked) && C.Instant(c.call.began) <= asked
    ensures AllTrack(g.breaker, AskedIn(g, s, c), outcomes, asked)
  {
    hide AllTrack, Admit, AskEach, Candidates, Scoped, C.Instant;
    var h := HealthAt(g, s, c.call);
    var a := AdmissionIn(g, s, c);
    if a.Admitted? { AskingEachTracked(h, Candidates(g.settings.deployments, a.request, a.decision), outcomes, asked); }
  }

  /** What a call reports to the breaker are failures and successes of its routes. */
  lemma ReportsAreOutcomes(g: Setup, s: Books, c: AnyCall)
    ensures forall i :: 0 <= i < |OutcomesOf(g, s, c)| ==> IsOutcome(OutcomesOf(g, s, c)[i])
  {
    hide ChatTrace, StreamTrace, TestTrace, PlannedRoutes, ProbedRoutes, FailuresFirst, BreaksFirst, ReportsProbe,
         Content,
         Yields, Owed, LeavesOneOut, Admit;
    RecordsAreOwed(g, s, c);
    match c {
      case ChatCall(q, call, answers) => ChatHistory(g, s, q, call, answers);
      case StreamCall(q, call, answers) => StreamHistory(g, s, q, call, answers);
      case TestCall(t, call, freshId, answers) => TestHistory(g, s, t, call, freshId, answers);
    }
  }

  lemma CallTracked(g: Setup, s: Books, c: AnyCall, outcomes: seq<CB.Event>, asked: Micros)
    requires g.breaker.Valid() && AllTrack(g.breaker, s.circuits, outcomes, asked) && C.Instant(c.call.began) <= asked
    ensures AllTrack(g.breaker, Step(g, s, c).circuits, outcomes + OutcomesOf(g, s, c), asked)
  {
    hide AllTrack, Step, OutcomesOf, AskedIn, Apply, C.Instant, IsOutcome;
    StepBreaker(g, s, c);
    PlanningTracked(g, s, c, outcomes, asked);
    ReportsAreOutcomes(g, s, c);
    OutcomesTracked(g.breaker, AskedIn(g, s, c), outcomes, OutcomesOf(g, s, c), asked);
  }

  // ---- Whole runs --------------------------------------------------------------------------------

  /** No call of the run begins after that moment. */
  ghost predicate BegunBy(calls: seq<AnyCall>, now: Micros) {
    forall i :: 0 <= i < |calls| ==> C.Instant(calls[i].call.began) <= now
  }

  lemma {:induction false} RunsTracked(g: Setup, s: Books, calls: seq<AnyCall>, asked: Micros)
    requires g.breaker.Valid() && s.circuits == map[] && BegunBy(calls, asked)
    ensures AllTrack(g.breaker, Run(g, s, calls).circuits, Outcomes(g, s, calls), asked)
  {
    hide Step, OutcomesOf, C.Instant;
    if calls == [] {
      assert forall d :: CB.Lookup(map[], d) == None;
    } else {
      hide AllTrack;
      var front := calls[..|calls| - 1];
      RunsTracked(g, s, front, asked);
      CallTracked(g, Run(g, s, front), calls[|calls| - 1], Outcomes(g, s, front), asked);
    }
  }

  /** Its circuit was opened by a recorded failure, and its cooldown is not over. */
  ghost predicate CoolingDown(g: Setup, s: Books, d: string, now: Micros) {
    && d in s.circuits && s.circuits[d].openedAt.Some?
    && now < s.circuits[d].openedAt.value + g.breaker.cooldown
  }

  /** The call may be routed to the deployment. */
  predicate Attempts(g: Setup, s: Books, q: Pricing.ChatRequest, call: Call, x: Deployment) {
    exists i :: 0 <= i < |PlannedRoutes(g, s, q, call)| && PlannedRoutes(g, s, q, call)[i].deployment == x
  }

  /** After any run of calls whose last outcomes for a deployment, at least as many as
      the threshold, were failures: its circuit is not closed, it was opened by one
      of the failures recorded, and until the cooldown from that one is over the
      router plans the deployment only if the circuit of every deployment eligible
      for the call is open too. */
  lemma {:induction false} FailingDeploymentIsLastResort(g: Setup, s: Books, calls: seq<AnyCall>,
          q: Pricing.ChatRequest,
          call: Call, x: Deployment)
    requires g.breaker.Valid() && g.breaker.enabled && s.circuits == map[] && BegunBy(calls, C.Instant(call.began))
    requires LastFailures(Outcomes(g, s, calls), x.id) >= g.breaker.failureThreshold
    ensures var after := Run(g, s, calls);
            && x.id in after.circuits && !after.circuits[x.id].state.Closed? && after.circuits[x.id].openedAt.Some?
            && FailedAt(Outcomes(g, s, calls), x.id, after.circuits[x.id].openedAt.value)
    ensures var after := Run(g, s, calls);
            var a := Admit(g, after.rows, q, call, false);
            CoolingDown(g, after, x.id, C.Instant(call.began)) && a.Admitted? && Attempts(g, after, q, call, x) ==>
              forall y :: y in g.settings.deployments && Eligible(a.request, a.decision)(y) ==>
                IsOpen(HealthAt(g, after, call))(y)
  {
    hide Run, Outcomes, LastFailures, FailedAt, C.Instant, Admit, PlannedRoutes, Eligible, IsOpen;
    var after, now := Run(g, s, calls), C.Instant(call.began);
    RunsTracked(g, s, calls, now);
    var c := CB.Lookup(after.circuits, x.id);
    assert Tracks(g.breaker, c, Outcomes(g, s, calls), x.id, now);
    var a := Admit(g, after.rows, q, call, false);
    if CoolingDown(g, after, x.id, now) && a.Admitted? && Attempts(g, after, q, call, x) {
      var routes := PlannedRoutes(g, after, q, call);
      var i :| 0 <= i < |routes| && routes[i].deployment == x;
      OpenUntilCooled(HealthAt(g, after, call), x);
      PlannedIsChosenFor(g, after, q, call, i);
      OpenOnlyAsLastResort(g.settings, a.request, a.decision, HealthAt(g, after, call), x);
    }
  }

  lemma OpenUntilCooled(h: Health, x: Deployment)
    requires h.cfg.enabled && x.id in h.circuits && h.circuits[x.id].state.Open? && h.circuits[x.id].openedAt.Some?
    requires h.now < h.circuits[x.id].openedAt.value + h.cfg.cooldown
    ensures IsOpen(h)(x)
  {
    assert CB.Lookup(h.circuits, x.id) == Some(h.circuits[x.id]);
  }

  lemma PlannedIsChosenFor(g: Setup, s: Books, q: Pricing.ChatRequest, call: Call, i: nat)
    requires i < |PlannedRoutes(g, s, q, call)|
    ensures var a := Admit(g, s.rows, q, call, false);
            a.Admitted? && PlannedRoutes(g, s, q, call)[i].deployment in
              Chosen(g.settings, a.request, a.decision, HealthAt(g, s, call))
  {
    hide Admit, Chosen, Usable, Candidates;
  }
}
