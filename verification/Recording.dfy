/** Which attempts leave a usage record (backend/app/llm/gateway.py with
    backend/app/llm/usage.py): how many records a call owes, how many it leaves, and
    when one is missing. */
module Recording {
  import opened Basics
  import Pricing
  import opened Router
  import opened Calls
  import opened Fallback
  import opened Runs
  import opened Endings
  import B = Budget

  /** How many routes are tried when the first of these stops. */
  function Tried(stops: nat -> bool, n: nat): nat { if First(stops, n) < n then First(stops, n) + 1 else n }

  function AttemptsOf(g: Setup, s: Books, c: AnyCall): nat {
    var n := |RoutesOf(g, s, c)|;
    match c
    case ChatCall(_, _, answers) => Tried(ChatStops(answers), n)
    case StreamCall(_, _, answers) => Tried(StreamStops(answers), n)
    case TestCall(t, _, _, answers) => Tried(TestStops(answers, Explicit(t)), n)
  }

  /** One record for each attempt, or for the refusal or the planning that left none to make. */
  function Owed(g: Setup, s: Books, c: AnyCall): nat {
    if RoutesOf(g, s, c) == [] then 1 else AttemptsOf(g, s, c)
  }

  /** The stream ends without being booked: in an HTTP error, or because its client leaves. */
  predicate EndsUnbooked(a: StreamAnswer) { a.end.ClientGone? || (a.end.Broke? && a.end.error.Http?) }

  /** A stream that is tried, those before it having failed without text, ends unbooked. */
  predicate StreamUnbooked(routes: seq<Route>, answers: StreamAnswers) {
    exists k ::
      && 0 <= k < |routes| && EndsUnbooked(answers(k).answer)
      && forall i :: 0 <= i < k ==> !StreamStops(answers)(i)
  }

  /** A chat or a test cut short by a cancellation, a stream that ends unbooked, or
      one that is admitted and cannot be planned. */
  predicate LeavesOneOut(g: Setup, s: Books, c: AnyCall) {
    match c
    case ChatCall(_, _, answers) => ChatCancelled(RoutesOf(g, s, c), answers)
    case StreamCall(_, _, answers) =>
      (AdmissionIn(g, s, c).Admitted? && RoutesOf(g, s, c) == []) || StreamUnbooked(RoutesOf(g, s, c), answers)
    case TestCall(t, _, _, answers) => ProbeCancelledFirst(RoutesOf(g, s, c), answers, Explicit(t))
  }

  /** The records are those of the routes tried, in order. */
  ghost predicate InRouteOrder(routes: seq<Route>, records: seq<Record>) {
    |records| <= |routes| && forall i :: 0 <= i < |records| ==> records[i].deployment == Some(routes[i].deployment.id)
  }

  lemma ChatRecords(g: Setup, s: Books, c: AnyCall)
    requires c.ChatCall?
    ensures |RecordsOf(g, s, c)| == Owed(g, s, c) - (if LeavesOneOut(g, s, c) then 1 else 0)
    ensures RoutesOf(g, s, c) != [] ==> InRouteOrder(RoutesOf(g, s, c), RecordsOf(g, s, c))
  {
    hide ChatTrace, PlannedRoutes, AdmissionIn, Agree;
    ChatHistory(g, s, c.q, c.call, c.answers);
    var t, routes := ChatTrace(g, s, c.q, c.call, c.answers), RoutesOf(g, s, c);
    if routes != [] {
      var n, stops := |t.records|, ChatStops(c.answers);
      match t.result {
        case Returned(_) => FirstIs(stops, |routes|, n - 1);
        case Threw(_) => FirstIs(stops, |routes|, n);
        case Interrupted => FirstIs(stops, |routes|, n);
      }
    }
  }

  lemma StreamRecords(g: Setup, s: Books, c: AnyCall)
    requires c.StreamCall?
    ensures |RecordsOf(g, s, c)| == Owed(g, s, c) - (if LeavesOneOut(g, s, c) then 1 else 0)
    ensures RoutesOf(g, s, c) != [] ==> InRouteOrder(RoutesOf(g, s, c), RecordsOf(g, s, c))
  {
    hide Admit, PlanFor, SettledRows, ReleasedRows, FailedRecords, FailedEvents, StreamUsage, First, Opening, Content;
    var routes, answers := RoutesOf(g, s, c), c.deltas;
    if routes != [] {
      var k := First(StreamStops(answers), |routes|);
      FirstStops(StreamStops(answers), |routes|);
      FailedRecordsAre(routes, StreamFaults(answers), k);
      if k < |routes| { FailedRecordsAre(routes, StreamFaults(answers), k + 1); }
      StreamUnbookedAt(routes, answers, k);
    }
  }

  /** The stream that ends unbooked is the one that stops the loop. */
  lemma StreamUnbookedAt(routes: seq<Route>, answers: StreamAnswers, k: nat)
    requires k == First(StreamStops(answers), |routes|)
    ensures StreamUnbooked(routes, answers) <==> k < |routes| && EndsUnbooked(answers(k).answer)
  {
    hide First, Content;
    FirstStops(StreamStops(answers), |routes|);
    if StreamUnbooked(routes, answers) {
      var j :| 0 <= j < |routes| && EndsUnbooked(answers(j).answer) &&
               forall i :: 0 <= i < j ==> !StreamStops(answers)(i);
      assert StreamStops(answers)(j);
      assert j == k;
    }
  }

  /** The last probe a test makes. */
  function LastProbe(routes: seq<Route>, answers: TestAnswers, explicit: bool): nat
    requires routes != []
  {
    Tried(TestStops(answers, explicit), |routes|) - 1
  }

  /** Each probe made is recorded, the last one unless it is cancelled. */
  lemma ProbesAreRecorded(routes: seq<Route>, answers: TestAnswers, explicit: bool)
    requires routes != []
    ensures var last := LastProbe(routes, answers, explicit);
            var records := ProbesRecords(routes, answers, last + 1);
            && |records| == last + 1 - (if answers(last).answer.ProbeCancelled? then 1 else 0)
            && InRouteOrder(routes, records)
  {
    hide ProbesRecords, ProbesEvents, First, ProbeRecords, Agree;
    var stops := TestStops(answers, explicit);
    var last := LastProbe(routes, answers, explicit);
    FirstStops(stops, |routes|);
    forall i | 0 <= i < last ensures !answers(i).answer.ProbeCancelled? { assert !stops(i); }
    ProbeReports(routes, answers, last);
    if answers(last).answer.ProbeCancelled? {
      NothingFromCancelled(routes, answers, last);
    } else {
      ProbeReports(routes, answers, last + 1);
    }
  }

  /** The cancelled probe is the last one made. */
  lemma CancelledProbeIsLast(routes: seq<Route>, answers: TestAnswers, explicit: bool)
    requires routes != []
    ensures ProbeCancelledFirst(routes, answers, explicit) <==>
            answers(LastProbe(routes, answers, explicit)).answer.ProbeCancelled?
  {
    hide First;
    var stops := TestStops(answers, explicit);
    var k, last := First(stops, |routes|), LastProbe(routes, answers, explicit);
    FirstStops(stops, |routes|);
    forall i | 0 <= i < k
      ensures !explicit && (answers(i).answer.ProbeRaised? || (answers(i).answer.Probed? && !answers(i).answer.ok))
    {
      assert !stops(i);
    }
    if ProbeCancelledFirst(routes, answers, explicit) {
      var j :| 0 <= j < |routes| && answers(j).answer.ProbeCancelled? && (explicit ==> j == 0) &&
               forall i :: 0 <= i < j ==>
                 answers(i).answer.ProbeRaised? || (answers(i).answer.Probed? && !answers(i).answer.ok);
      assert stops(j);
      forall i | 0 <= i < j ensures !stops(i) { assert explicit ==> j == 0; }
      assert k == j;
    }
    if answers(last).answer.ProbeCancelled? {
      assert last == k;
      assert explicit ==> k == 0;
    }
  }

  lemma TestRecords(g: Setup, s: Books, c: AnyCall)
    requires c.TestCall?
    ensures |RecordsOf(g, s, c)| == Owed(g, s, c) - (if LeavesOneOut(g, s, c) then 1 else 0)
    ensures RoutesOf(g, s, c) != [] ==> InRouteOrder(RoutesOf(g, s, c), RecordsOf(g, s, c))
  {
    hide Admit, TestPlanFor, ReleasedRows, ProbesRecords, ProbesEvents, First, Opening, ProbeCancelledFirst,
         InRouteOrder;
    var routes := RoutesOf(g, s, c);
    if routes == [] {
      NoProbeCancelled(c.probes, Explicit(c.t));
    } else {
      ProbesAreRecorded(routes, c.probes, Explicit(c.t));
      CancelledProbeIsLast(routes, c.probes, Explicit(c.t));
    }
  }

  lemma NoProbeCancelled(answers: TestAnswers, explicit: bool)
    ensures !ProbeCancelledFirst([], answers, explicit)
  {}

  /** A call leaves a record of each attempt it makes, in the order of the routes, and
      one of a refusal or a failed planning - but for one, left out exactly when a
      chat's or a test's deciding attempt is cancelled, a stream ends in an HTTP error
      or with its client gone, or an admitted stream cannot be planned. */
  lemma RecordsAreOwed(g: Setup, s: Books, c: AnyCall)
    ensures |RecordsOf(g, s, c)| == Owed(g, s, c) - (if LeavesOneOut(g, s, c) then 1 else 0)
    ensures RoutesOf(g, s, c) != [] ==> InRouteOrder(RoutesOf(g, s, c), RecordsOf(g, s, c))
  {
    hide RecordsOf, Owed, LeavesOneOut, RoutesOf;
    match c
    case ChatCall(_, _, _) => ChatRecords(g, s, c);
    case StreamCall(_, _, _) => StreamRecords(g, s, c);
    case TestCall(_, _, _, _) => TestRecords(g, s, c);
  }

  // ---- Whole runs ---------------------------------------------------------------------------------

  function OwedBy(g: Setup, s: Books, calls: seq<AnyCall>): nat {
    if calls == [] then 0
    else OwedBy(g, s, calls[..|calls| - 1]) + Owed(g, Run(g, s, calls[..|calls| - 1]), calls[|calls| - 1])
  }

  function LeftOutBy(g: Setup, s: Books, calls: seq<AnyCall>): nat {
    if calls == [] then 0
    else
      LeftOutBy(g, s, calls[..|calls| - 1]) +
      (if LeavesOneOut(g, Run(g, s, calls[..|calls| - 1]), calls[|calls| - 1]) then 1 else 0)
  }

  /** A run leaves the records and usage rows it owes, less one for each call that
      leaves one out: so the table is complete exactly when no call of the run does. */
  lemma {:induction false} RunsLeaveWhatTheyOwe(g: Setup, s: Books, calls: seq<AnyCall>)
    ensures |Run(g, s, calls).records| == |s.records| + OwedBy(g, s, calls) - LeftOutBy(g, s, calls)
    ensures |Run(g, s, calls).rows| == |s.rows| + OwedBy(g, s, calls) - LeftOutBy(g, s, calls)
  {
    hide Step, Owed, LeavesOneOut, RecordsOf, LedgerOf;
    if calls != [] {
      var before, c := Run(g, s, calls[..|calls| - 1]), calls[|calls| - 1];
      RunsLeaveWhatTheyOwe(g, s, calls[..|calls| - 1]);
      StepAdds(g, before, c);
      RecordsAreOwed(g, before, c);
    }
  }

  // ---- Failures that leave no record ---------------------------------------------------------------

  /** A stream that sends nothing and then ends so. */
  function EndingStream(ctx: B.Context, id: Id, end: StreamEnd): AnyCall {
    StreamCall(Pricing.ChatRequest(None, None, ["hello"], None), Call(ctx, id, true, FIRST_MOMENT),
               (i: nat) => Attempt(Stream([], end), FIRST_MOMENT))
  }

  /** For any caller and any soft policy that applies to it: a stream whose first
      adapter call ends in an HTTP error, or whose client leaves, has a route and
      leaves no record. */
  lemma {:induction false} UnbookedStreamLeavesNothing(p: B.Policy, ctx: B.Context, id: Id, end: StreamEnd)
    requires B.Applies(p, ctx) && !p.hard
    requires end.ClientGone? || (end.Broke? && end.error.Http?)
    ensures var g, c := OneOfEach(p), EndingStream(ctx, id, end);
            && RoutesOf(g, EMPTY_BOOKS, c) != [] && Owed(g, EMPTY_BOOKS, c) == 1
            && Run(g, EMPTY_BOOKS, [c]).records == []
  {
    hide B.Applies, Step, OneOfEach, PlannedRoutes, RecordsOf, AdmissionIn;
    var g, c := OneOfEach(p), EndingStream(ctx, id, end);
    CancelledChatIsPlanned(p, ctx, id);
    var chat := CancelledChat(ctx, id);
    assert RoutesOf(g, EMPTY_BOOKS, c) == PlannedRoutes(g, EMPTY_BOOKS, chat.q, chat.call);
    var routes, answers := RoutesOf(g, EMPTY_BOOKS, c), c.deltas;
    assert EndsUnbooked(answers(0).answer) && StreamStops(answers)(0);
    FirstIs(StreamStops(answers), |routes|, 0);
    assert StreamUnbooked(routes, answers);
    RecordsAreOwed(g, EMPTY_BOOKS, c);
    StepAdds(g, EMPTY_BOOKS, c);
    assert [c][..0] == [];
    assert Run(g, EMPTY_BOOKS, []) == EMPTY_BOOKS;
  }

  /** ... and so does a stream that no deployment can serve, where a chat leaves one. */
  lemma {:induction false} UnplannedStreamLeavesNothing(p: B.Policy, ctx: B.Context, id: Id, end: StreamEnd)
    requires B.Applies(p, ctx) && !p.hard
    ensures var g := OneOfEach(p).(settings := OneOfEach(p).settings.(deployments := []));
            && Run(g, EMPTY_BOOKS, [EndingStream(ctx, id, end)]).records == []
            && |Run(g, EMPTY_BOOKS, [CancelledChat(ctx, id)]).records| == 1
  {
    hide B.Applies, Step, OneOfEach, RecordsOf, AdmissionIn, LeavesOneOut;
    var h := OneOfEach(p);
    var g := h.(settings := h.settings.(deployments := []));
    var stream, chat := EndingStream(ctx, id, end), CancelledChat(ctx, id);
    CancelledChatIsAdmitted(p, ctx, id);
    AdmittedAlike(h, g, chat, stream);
    NothingToPlan(g, EMPTY_BOOKS, chat.q, chat.call);
    LeftOutWithoutRoutes(g, EMPTY_BOOKS, chat);
    LeftOutWithoutRoutes(g, EMPTY_BOOKS, stream);
    RecordsAreOwed(g, EMPTY_BOOKS, chat);
    RecordsAreOwed(g, EMPTY_BOOKS, stream);
    StepAdds(g, EMPTY_BOOKS, chat);
    StepAdds(g, EMPTY_BOOKS, stream);
    assert [chat][..0] == [] && [stream][..0] == [];
    assert Run(g, EMPTY_BOOKS, []) == EMPTY_BOOKS;
  }

  lemma AdmittedAlike(h: Setup, g: Setup, chat: AnyCall, stream: AnyCall)
    requires chat.ChatCall? && stream.StreamCall? && chat.q == stream.q && chat.call == stream.call
    requires g == h.(settings := g.settings)
    ensures AdmissionIn(g, EMPTY_BOOKS, chat) == AdmissionIn(h, EMPTY_BOOKS, chat)
    ensures AdmissionIn(g, EMPTY_BOOKS, stream) == AdmissionIn(h, EMPTY_BOOKS, chat)
  {}

  lemma NothingToPlan(g: Setup, s: Books, q: Pricing.ChatRequest, call: Call)
    requires g.settings.deployments == []
    ensures PlannedRoutes(g, s, q, call) == []
  {
    hide Admit;
  }

  lemma LeftOutWithoutRoutes(g: Setup, s: Books, c: AnyCall)
    requires RoutesOf(g, s, c) == []
    ensures LeavesOneOut(g, s, c) <==> c.StreamCall? && AdmissionIn(g, s, c).Admitted?
  {
    hide AdmissionIn, RoutesOf;
  }
}
