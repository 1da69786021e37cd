/** The steps a gateway call takes on the machine of `CallMachine`. Made alone, they
    lead from the books before the call to the books after it; interleaved with the
    steps of other calls, they keep within the load that `Overspend` bounds
    (backend/app/llm/gateway.py, budget.py, usage.py). */
module CallSteps {
  import opened Basics
  import opened Pricing
  import opened Policy
  import opened Calls
  import opened Runs
  import opened Endings
  import M = CallMachine
  import B = Budget
  import C = Calendar

  // ---- The steps of a call --------------------------------------------------------------------

  function QueryOf(c: AnyCall): ChatRequest { if c.TestCall? then Ping(c.t) else c.q }

  /** The policy engine lets the call through and the budget tables can be read. */
  predicate Reserves(g: Setup, c: AnyCall) {
    Evaluate(g.rules, QueryOf(c), c.call.ctx).allowed && c.call.storageUp
  }

  function EstimateOf(g: Setup, c: AnyCall): Usage {
    Estimate(g.prices, Reserved(QueryOf(c), Evaluate(g.rules, QueryOf(c), c.call.ctx), c.TestCall?))
  }

  function Checks(who: nat, n: nat): seq<M.Event> { if n == 0 then [] else [M.Check(who)] + Checks(who, n - 1) }

  function Notes(ctx: B.Context, records: seq<Record>): seq<M.Event> {
    if records == [] then []
    else Notes(ctx, records[..|records| - 1]) + [M.Note(RowOf(ctx, records[|records| - 1]))]
  }

  /** Time comes to the call's beginning; it reads the spend of each of its policies. */
  function FirstSteps(g: Setup, c: AnyCall, who: nat): seq<M.Event> {
    var mine := B.Applicable(g.policies, c.call.ctx);
    [M.Tick(c.call.began)] +
    if Reserves(g, c) then [M.Begin(who, c.call.id, c.call.ctx, EstimateOf(g, c))] + Checks(who, |mine|) else []
  }

  /** When the last of its records is made. */
  function LastAt(g: Setup, s: Books, c: AnyCall): Time {
    var n := |RecordsOf(g, s, c)|;
    if RoutesOf(g, s, c) == [] || n == 0 then c.call.began else At(c)(n - 1)
  }

  /** Time comes to its end; it notes what charges nothing, and settles and records
      if it succeeds. In any case it is over. */
  function LastSteps(g: Setup, s: Books, c: AnyCall, who: nat): seq<M.Event> {
    var x := SettlementOf(g, s, c);
    [M.Tick(LastAt(g, s, c))] +
    (if x.None? then Notes(c.call.ctx, RecordsOf(g, s, c))
     else Notes(c.call.ctx, x.value.failed) +
          [M.Finish(who, x.value.paid.usage), M.Record(who, x.value.paid.deployment)]) +
    [M.Drop(who)]
  }

  /** The steps of a call that worker `who` makes and that finds the books `s`. */
  function StepsOf(g: Setup, s: Books, c: AnyCall, who: nat): seq<M.Event> {
    FirstSteps(g, c, who) + LastSteps(g, s, c, who)
  }

  // ---- A call alone -------------------------------------------------------------------------------

  /** The call in flight once it has passed its checks. */
  function Ready(g: Setup, c: AnyCall, who: nat, next: nat): M.Call {
    M.Call(who, c.call.id, c.call.ctx, EstimateOf(g, c), B.Applicable(g.policies, c.call.ctx), next, None)
  }

  lemma WhereAlone(c: M.Call)
    ensures M.Where([c], c.who) == Some(0) && M.Where([], c.who) == None
    ensures [c][..0] + [c][1..] == []
  {
    assert [c][..0] == [];
  }

  lemma IdleCheck(policies: seq<B.Policy>, s: M.System, who: nat)
    requires s.now.Valid() && s.inflight == []
    ensures M.Step(policies, s, M.Check(who)) == s && M.Step(policies, s, M.Drop(who)) == s
  {}

  lemma {:induction false} IdleChecks(policies: seq<B.Policy>, s: M.System, who: nat, n: nat)
    requires s.now.Valid() && s.inflight == []
    ensures M.Run(policies, s, Checks(who, n)) == s
  {
    hide M.Step;
    if n > 0 {
      IdleCheck(policies, s, who);
      M.RunOne(policies, s, M.Check(who));
      M.RunConcat(policies, s, [M.Check(who)], Checks(who, n - 1));
      IdleChecks(policies, s, who, n - 1);
    }
  }

  /** The policy that comes next denies the call. */
  predicate Denies(p: B.Policy, s: M.System, c: M.Call)
    requires s.now.Valid()
  {
    p.hard && B.Denial(p, c.ctx, C.PeriodWindow(p.period, s.now), s.rows, c.estimate).Some?
  }

  lemma OneCheck(policies: seq<B.Policy>, s: M.System, c: M.Call)
    requires s.now.Valid() && c.next < |c.policies|
    ensures M.Step(policies, s.(inflight := [c]), M.Check(c.who)) ==
            s.(inflight := if Denies(c.policies[c.next], s, c) then [] else [c.(next := c.next + 1)])
  {
    hide B.Denial, C.PeriodWindow;
    WhereAlone(c);
    assert [c][0 := c.(next := c.next + 1)] == [c.(next := c.next + 1)];
  }

  lemma NextDenial(policies: seq<B.Policy>, s: M.System, c: M.Call)
    requires s.now.Valid() && policies != []
    ensures B.FirstDenial(policies, c.ctx, s.now, s.rows, c.estimate).None? <==>
            !Denies(policies[0], s, c) && B.FirstDenial(policies[1..], c.ctx, s.now, s.rows, c.estimate).None?
  {
    hide B.Denial, C.PeriodWindow;
  }

  /** The checks of one call, alone, from its `j`-th policy on: the call is ready
      unless one of them denies it. */
  lemma {:induction false} ChecksDecide(policies: seq<B.Policy>, s: M.System, c: M.Call, j: nat)
    requires s.now.Valid() && j <= |c.policies|
    ensures M.Run(policies, s.(inflight := [c.(next := j)]), Checks(c.who, |c.policies| - j)) ==
            s.(inflight := if B.FirstDenial(c.policies[j..], c.ctx, s.now, s.rows, c.estimate).None?
                           then [c.(next := |c.policies|)] else [])
    decreases |c.policies| - j
  {
    hide B.FirstDenial, M.Step, Denies;
    var here := s.(inflight := [c.(next := j)]);
    if j == |c.policies| {
      assert B.FirstDenial(c.policies[j..], c.ctx, s.now, s.rows, c.estimate).None? by { NoPolicies(s, c); }
    } else {
      hide M.Run;
      var n := |c.policies| - j;
      OneCheck(policies, s, c.(next := j));
      NextDenial(c.policies[j..], s, c.(next := j));
      assert c.policies[j..][1..] == c.policies[j + 1..];
      M.RunOne(policies, here, M.Check(c.who));
      M.RunConcat(policies, here, [M.Check(c.who)], Checks(c.who, n - 1));
      ChecksDecide(policies, s, c, j + 1);
      IdleChecks(policies, s.(inflight := []), c.who, n - 1);
    }
  }

  lemma NoPolicies(s: M.System, c: M.Call)
    requires s.now.Valid()
    ensures B.FirstDenial([], c.ctx, s.now, s.rows, c.estimate).None?
  {}

  lemma OneNote(policies: seq<B.Policy>, s: M.System, row: B.UsageRow)
    requires s.now.Valid() && row.usage == NO_USAGE && row.createdAt <= C.Instant(s.now)
    ensures M.Step(policies, s, M.Note(row)) == s.(rows := s.rows + [row])
  {}

  lemma {:induction false} NotesAppend(policies: seq<B.Policy>, s: M.System, ctx: B.Context, records: seq<Record>)
    requires s.now.Valid() && AreFree(records)
    requires forall i :: 0 <= i < |records| ==> records[i].createdAt <= C.Instant(s.now)
    ensures M.Run(policies, s, Notes(ctx, records)) == s.(rows := s.rows + RowsOf(ctx, records))
  {
    hide C.Instant, M.Step;
    if records == [] {
      assert s.rows + RowsOf(ctx, records) == s.rows;
    } else {
      var front, row := records[..|records| - 1], RowOf(ctx, records[|records| - 1]);
      var before := s.(rows := s.rows + RowsOf(ctx, front));
      NotesAppend(policies, s, ctx, front);
      OneNote(policies, before, row);
      M.RunOne(policies, before, M.Note(row));
      M.RunConcat(policies, s, Notes(ctx, front), [M.Note(row)]);
      assert before.rows + [row] == s.rows + RowsOf(ctx, records);
    }
  }

  /** Admission on the machine is admission in the gateway. */
  lemma AdmittedWhenReady(g: Setup, s: Books, c: AnyCall, who: nat)
    ensures var a, mine := AdmissionIn(g, s, c), B.Applicable(g.policies, c.call.ctx);
            && (a.Admitted? <==>
                  Reserves(g, c) && B.FirstDenial(mine, c.call.ctx, c.call.began, s.rows, EstimateOf(g, c)).None?)
            && (a.Admitted? ==> a.reservation == M.ReservationOf(Ready(g, c, who, |mine|)))
            && (a.Admitted? ==> EstimateOf(g, c) == Estimate(g.prices, a.request))
  {
    hide Evaluate, B.FirstDenial, B.Applicable, Estimate, B.Scopes, Reserved;
  }

  lemma TimeComes(policies: seq<B.Policy>, s: M.System, to: Time)
    requires s.now.Valid() && C.Instant(s.now) <= C.Instant(to)
    ensures M.Step(policies, s, M.Tick(to)) == s.(now := to)
  {}

  lemma CallBegins(g: Setup, s: M.System, c: AnyCall, who: nat)
    requires s.now.Valid() && s.inflight == []
    ensures M.Step(g.policies, s, M.Begin(who, c.call.id, c.call.ctx, EstimateOf(g, c))) ==
            s.(inflight := [Ready(g, c, who, 0)])
  {
    hide B.Applicable, EstimateOf;
    assert [] + [Ready(g, c, who, 0)] == [Ready(g, c, who, 0)];
  }

  lemma FirstStepsRun(g: Setup, s: Books, c: AnyCall, who: nat, ledger: seq<B.LedgerRow>, now: Time)
    requires C.Instant(now) <= C.Instant(c.call.began)
    ensures var mine := B.Applicable(g.policies, c.call.ctx);
            M.Run(g.policies, M.System(s.rows, ledger, [], now), FirstSteps(g, c, who)) ==
            M.System(s.rows, ledger,
                     if AdmissionIn(g, s, c).Admitted? then [Ready(g, c, who, |mine|)] else [], c.call.began)
  {
    hide C.Instant, AdmissionIn, B.FirstDenial, B.Applicable, EstimateOf, Reserves, M.Step, M.Run, Checks;
    var start, begun := M.System(s.rows, ledger, [], now), M.System(s.rows, ledger, [], c.call.began);
    var mine := B.Applicable(g.policies, c.call.ctx);
    AdmittedWhenReady(g, s, c, who);
    TimeComes(g.policies, start, c.call.began);
    M.RunOne(g.policies, start, M.Tick(c.call.began));
    if Reserves(g, c) {
      var begin := M.Begin(who, c.call.id, c.call.ctx, EstimateOf(g, c));
      CallBegins(g, begun, c, who);
      M.RunOne(g.policies, begun, begin);
      ChecksDecide(g.policies, begun, Ready(g, c, who, 0), 0);
      assert mine[0..] == mine;
      M.RunConcat(g.policies, begun, [begin], Checks(who, |mine|));
      M.RunConcat(g.policies, start, [M.Tick(c.call.began)], [begin] + Checks(who, |mine|));
    } else {
      assert [M.Tick(c.call.began)] + [] == [M.Tick(c.call.began)];
    }
  }

  /** The clock does not go back during the call. */
  ghost predicate Timely(c: AnyCall) {
    && (forall i :: C.Instant(c.call.began) <= C.Instant(At(c)(i)))
    && (forall i, j :: i <= j ==> C.Instant(At(c)(i)) <= C.Instant(At(c)(j)))
  }

  lemma EndsLater(g: Setup, s: Books, c: AnyCall)
    requires Timely(c)
    ensures C.Instant(c.call.began) <= C.Instant(LastAt(g, s, c))
    ensures forall i :: 0 <= i < |RecordsOf(g, s, c)| ==> RecordsOf(g, s, c)[i].createdAt <= C.Instant(LastAt(g, s, c))
    ensures SettlementOf(g, s, c).Some? ==> LastAt(g, s, c) == SettlementOf(g, s, c).value.at
  {
    hide C.Instant, RecordsOf, LedgerOf, AdmissionIn, OpeningIn, RoutesOf, SettledRows, RowsOf, NoneClose, AreFree,
         Succeeds;
    CallShape(g, s, c);
  }

  function IsClosing(): B.LedgerRow -> bool { (row: B.LedgerRow) => Closing(row) }

  lemma {:induction false} NoneKept(ledger: seq<B.LedgerRow>)
    requires NoneClose(ledger)
    ensures Filter(ledger, IsClosing()) == []
  {
    if ledger != [] { NoneKept(ledger[..|ledger| - 1]); }
  }

  ghost predicate AllClose(ledger: seq<B.LedgerRow>) { forall i :: 0 <= i < |ledger| ==> Closing(ledger[i]) }

  lemma {:induction false} AllKept(ledger: seq<B.LedgerRow>)
    requires AllClose(ledger)
    ensures Filter(ledger, IsClosing()) == ledger
  {
    if ledger != [] { AllKept(ledger[..|ledger| - 1]); }
  }

  lemma {:induction false} SettlementCloses(policies: seq<B.Policy>, rows: seq<B.UsageRow>, r: B.Reservation,
          actual: Usage, ctx: B.Context, now: Time, n: nat)
    requires n <= |r.scopes|
    ensures AllClose(B.SettleRows(policies, rows, r, actual, ctx, now, n))
  {
    hide B.Alerts, C.PeriodWindow, B.PolicyById;
    if n > 0 { SettlementCloses(policies, rows, r, actual, ctx, now, n - 1); }
  }

  /** What the call settles and alerts, in the ledger of the gateway. */
  lemma KeptRows(g: Setup, s: Books, c: AnyCall)
    ensures var x := SettlementOf(g, s, c);
            Filter(LedgerOf(g, s, c), IsClosing()) ==
            if x.None? then []
            else SettledRows(g, s.rows + RowsOf(c.call.ctx, x.value.failed), AdmissionIn(g, s, c).reservation,
                             x.value.paid.usage, c.call.ctx, x.value.at)
  {
    hide RecordsOf, LedgerOf, AdmissionIn, OpeningIn, RoutesOf, B.SettleRows, RowsOf, NoneClose, AreFree,
         SettlementOf, IsClosing;
    CallShape(g, s, c);
    var x := SettlementOf(g, s, c);
    if x.None? {
      NoneKept(LedgerOf(g, s, c));
    } else {
      var rows, r := s.rows + RowsOf(c.call.ctx, x.value.failed), AdmissionIn(g, s, c).reservation;
      var settled := SettledRows(g, rows, r, x.value.paid.usage, c.call.ctx, x.value.at);
      NoneKept(OpeningIn(g, s, c));
      SettlementCloses(g.policies, rows, r, x.value.paid.usage, c.call.ctx, x.value.at, |r.scopes|);
      AllKept(settled);
      FilterConcat(OpeningIn(g, s, c), settled, IsClosing());
    }
  }

  /** A ready call settles, records and is gone; so is one that is given up. */
  lemma PaysAndLeaves(policies: seq<B.Policy>, s: M.System, c: M.Call, actual: Usage, deployment: Option<string>)
    requires s.now.Valid() && s.inflight == [c] && c.next == |c.policies| && c.paid.None?
    ensures M.Run(policies, s, [M.Finish(c.who, actual), M.Record(c.who, deployment)]) ==
            s.(ledger := s.ledger +
                         B.SettleRows(policies, s.rows, M.ReservationOf(c), actual, c.ctx, s.now, |c.policies|),
               rows := s.rows + [B.UsageRow(c.ctx, B.Success, actual, deployment, C.Instant(s.now))], inflight := [])
    ensures M.Step(policies, s, M.Drop(c.who)) == s.(inflight := [])
  {
    hide C.Instant, B.SettleRows, B.Scopes, M.Run;
    M.RunPair(policies, s, M.Finish(c.who, actual), M.Record(c.who, deployment));
    var paid := c.(paid := Some(M.Paid(actual, |s.rows|)));
    WhereAlone(c);
    WhereAlone(paid);
    assert [c][0 := paid] == [paid];
  }

  lemma LastStepsRun(g: Setup, s: Books, c: AnyCall, who: nat, ledger: seq<B.LedgerRow>)
    requires Timely(c)
    ensures var mine := B.Applicable(g.policies, c.call.ctx);
            var flying := if AdmissionIn(g, s, c).Admitted? then [Ready(g, c, who, |mine|)] else [];
            M.Run(g.policies, M.System(s.rows, ledger, flying, c.call.began), LastSteps(g, s, c, who)) ==
            M.System(Step(g, s, c).rows, ledger + Filter(LedgerOf(g, s, c), IsClosing()), [], LastAt(g, s, c))
  {
    hide C.Instant, AdmissionIn, B.FirstDenial, B.Applicable, EstimateOf, Reserves, M.Step, M.Run, RecordsOf, LedgerOf,
         OpeningIn, RoutesOf, B.SettleRows, RowsOf, NoneClose, AreFree, SettlementOf, IsClosing, Step, LastAt, Timely;
    var policies, mine, ctx := g.policies, B.Applicable(g.policies, c.call.ctx), c.call.ctx;
    var ready := Ready(g, c, who, |mine|);
    var flying := if AdmissionIn(g, s, c).Admitted? then [ready] else [];
    var start := M.System(s.rows, ledger, flying, c.call.began);
    var t, x := LastAt(g, s, c), SettlementOf(g, s, c);
    var late := start.(now := t);
    AdmittedWhenReady(g, s, c, who);
    EndsLater(g, s, c);
    CallShape(g, s, c);
    KeptRows(g, s, c);
    StepAdds(g, s, c);
    TimeComes(policies, start, t);
    M.RunOne(policies, start, M.Tick(t));
    var free := if x.None? then RecordsOf(g, s, c) else x.value.failed;
    assert forall i :: 0 <= i < |free| ==> free[i] == RecordsOf(g, s, c)[i];
    NotesAppend(policies, late, ctx, free);
    var noted := late.(rows := s.rows + RowsOf(ctx, free));
    var drop := [M.Drop(who)];
    if x.None? {
      IdleCheck(policies, noted.(inflight := []), who);
      if AdmissionIn(g, s, c).Admitted? { PaysAndLeaves(policies, noted, ready, NO_USAGE, None); }
      M.RunOne(policies, noted, M.Drop(who));
      M.RunConcat(policies, start, [M.Tick(t)], Notes(ctx, free));
      M.RunConcat(policies, start, [M.Tick(t)] + Notes(ctx, free), drop);
    } else {
      var paid := x.value.paid;
      var pays := [M.Finish(who, paid.usage), M.Record(who, paid.deployment)];
      PaysAndLeaves(policies, noted, ready, paid.usage, paid.deployment);
      var done := M.Run(policies, noted, pays);
      IdleCheck(policies, done, who);
      M.RunOne(policies, done, M.Drop(who));
      M.RunConcat(policies, late, Notes(ctx, free), pays);
      M.RunConcat(policies, start, [M.Tick(t)], Notes(ctx, free) + pays);
      M.RunConcat(policies, start, [M.Tick(t)] + (Notes(ctx, free) + pays), drop);
      RowsOneMore(ctx, free, paid);
    }
  }

  lemma RowsOneMore(ctx: B.Context, records: seq<Record>, record: Record)
    ensures RowsOf(ctx, records + [record]) == RowsOf(ctx, records) + [RowOf(ctx, record)]
  {}

  /** Alone on the machine, a call, with whatever answers it meets on a clock that
      does not go back, leads from the books before it to the books after it: the
      usage rows of the gateway, and the settle and alert rows of its ledger. */
  lemma CallIsARun(g: Setup, s: Books, c: AnyCall, who: nat, ledger: seq<B.LedgerRow>, now: Time)
    requires Timely(c) && C.Instant(now) <= C.Instant(c.call.began)
    ensures M.Run(g.policies, M.System(s.rows, ledger, [], now), StepsOf(g, s, c, who)) ==
            M.System(Step(g, s, c).rows, ledger + Filter(LedgerOf(g, s, c), IsClosing()), [], LastAt(g, s, c))
  {
    hide C.Instant, AdmissionIn, M.Run, FirstSteps, LastSteps, Ready, Step, LedgerOf, LastAt, IsClosing, Timely,
         B.Applicable;
    FirstStepsRun(g, s, c, who, ledger, now);
    LastStepsRun(g, s, c, who, ledger);
    M.RunConcat(g.policies, M.System(s.rows, ledger, [], now), FirstSteps(g, c, who), LastSteps(g, s, c, who));
  }
}
