/** Soft-limit alerts over whole runs of the gateway: calls of every kind, one after
    another, each at moments of its own inside one window of the policy
    (backend/app/llm/budget.py, gateway.py, usage.py). */
module AlertRuns {
  import opened Basics
  import opened Calls
  import opened Runs
  import opened Endings
  import opened SoftAlert
  import B = Budget
  import C = Calendar

  /** The crossing test that the settlement of a call makes for `p` on one meter. */
  predicate Fires(m: B.Meter, p: B.Policy, w: C.Window, g: Setup, s: Books, c: AnyCall) {
    var x := SettlementOf(g, s, c);
    && x.Some? && B.Applies(p, c.call.ctx)
    && B.Crosses(m, p, B.Spent(m, p, w, s.rows + RowsOf(c.call.ctx, x.value.failed)), x.value.paid.usage)
  }

  /** How often it fires in a run. */
  function Firings(m: B.Meter, p: B.Policy, w: C.Window, g: Setup, s: Books, calls: seq<AnyCall>): nat {
    if calls == [] then 0
    else
      Firings(m, p, w, g, s, calls[..|calls| - 1]) +
      (if Fires(m, p, w, g, Run(g, s, calls[..|calls| - 1]), calls[|calls| - 1]) then 1 else 0)
  }

  /** Whatever a call settles, it settles inside the window. */
  predicate CallInWindow(p: B.Policy, w: C.Window, g: Setup, s: Books, c: AnyCall) {
    SettlementOf(g, s, c).Some? ==> Within(p, w, SettlementOf(g, s, c).value.at)
  }

  ghost predicate RunInWindow(p: B.Policy, w: C.Window, g: Setup, s: Books, calls: seq<AnyCall>) {
    calls != [] ==>
      && RunInWindow(p, w, g, s, calls[..|calls| - 1])
      && CallInWindow(p, w, g, Run(g, s, calls[..|calls| - 1]), calls[|calls| - 1])
  }

  lemma {:induction false} FreeRowsSpendNothing(m: B.Meter, p: B.Policy, w: C.Window, rows: seq<B.UsageRow>,
          ctx: B.Context, records: seq<Record>)
    requires AreFree(records)
    ensures B.Spent(m, p, w, rows + RowsOf(ctx, records)) == B.Spent(m, p, w, rows)
  {
    if records == [] {
      assert rows + RowsOf(ctx, records) == rows;
    } else {
      var front := records[..|records| - 1];
      FreeRowsSpendNothing(m, p, w, rows, ctx, front);
      B.SpentAppend(m, p, w, rows + RowsOf(ctx, front), RowOf(ctx, records[|records| - 1]));
      assert rows + RowsOf(ctx, records) == rows + RowsOf(ctx, front) + [RowOf(ctx, records[|records| - 1])];
    }
  }

  /** A call fires exactly when it takes the spend from below the threshold to it. */
  lemma {:induction false} FiresWhenReached(m: B.Meter, p: B.Policy, w: C.Window, g: Setup, s: Books, c: AnyCall)
    requires CallInWindow(p, w, g, s, c)
    ensures var before, after := B.Spent(m, p, w, s.rows), B.Spent(m, p, w, Step(g, s, c).rows);
            before <= after && (Fires(m, p, w, g, s, c) <==> !Reached(m, p, before) && Reached(m, p, after))
  {
    hide Step, RecordsOf, LedgerOf, AdmissionIn, SettlementOf, OpeningIn, RoutesOf, SettledRows, B.Applies, B.Spent,
         B.Crosses, Reached, C.Instant, C.PeriodWindow, B.Measure;
    StepAdds(g, s, c);
    CallShape(g, s, c);
    var ctx, x := c.call.ctx, SettlementOf(g, s, c);
    if x.None? {
      FreeRowsSpendNothing(m, p, w, s.rows, ctx, RecordsOf(g, s, c));
    } else {
      var rows, row := s.rows + RowsOf(ctx, x.value.failed), RowOf(ctx, x.value.paid);
      FreeRowsSpendNothing(m, p, w, s.rows, ctx, x.value.failed);
      B.SpentAppend(m, p, w, rows, row);
      assert Step(g, s, c).rows == rows + [row];
      CrossingIsReaching(m, p, B.Spent(m, p, w, s.rows), x.value.paid.usage);
    }
  }

  /** The test of a meter fires once in a run that takes its spend from below the
      threshold to it, and never in another. */
  lemma {:induction false} FiresExactlyOnce(m: B.Meter, p: B.Policy, w: C.Window, g: Setup, s: Books,
          calls: seq<AnyCall>)
    requires RunInWindow(p, w, g, s, calls)
    ensures var before, after := B.Spent(m, p, w, s.rows), B.Spent(m, p, w, Run(g, s, calls).rows);
            && before <= after
            && Firings(m, p, w, g, s, calls) == if !Reached(m, p, before) && Reached(m, p, after) then 1 else 0
  {
    hide Step, Fires, CallInWindow, B.Spent, Reached;
    if calls != [] {
      var front := Run(g, s, calls[..|calls| - 1]);
      FiresExactlyOnce(m, p, w, g, s, calls[..|calls| - 1]);
      FiresWhenReached(m, p, w, g, front, calls[|calls| - 1]);
      var before, between := B.Spent(m, p, w, s.rows), B.Spent(m, p, w, front.rows);
      if Reached(m, p, before) { ReachedStays(m, p, before, between); }
      if Reached(m, p, between) { ReachedStays(m, p, between, B.Spent(m, p, w, Run(g, s, calls).rows)); }
    }
  }

  // ---- Alert rows --------------------------------------------------------------------------

  lemma {:induction false} NoAlertRows(id: Id, ledger: seq<B.LedgerRow>)
    requires NoneClose(ledger)
    ensures AlertRows(id, ledger) == 0
  {
    if ledger != [] { NoAlertRows(id, ledger[..|ledger| - 1]); }
  }

  /** A call writes one alert row for a soft policy if the test of either meter fires. */
  lemma {:induction false} CallWritesAlert(p: B.Policy, w: C.Window, g: Setup, s: Books, c: AnyCall)
    requires CallInWindow(p, w, g, s, c) && DistinctIds(g.policies) && p in g.policies && !p.hard
    ensures AlertRows(p.id, Step(g, s, c).ledger) ==
            AlertRows(p.id, s.ledger) +
            (if Fires(B.Money, p, w, g, s, c) || Fires(B.Tokens, p, w, g, s, c) then 1 else 0)
  {
    hide Step, RecordsOf, LedgerOf, AdmissionIn, SettlementOf, OpeningIn, RoutesOf, RowsOf, B.SettleRows, B.Applies,
         B.Spent, B.Crosses, AlertRows, C.Instant, C.PeriodWindow, B.Applicable, B.Scopes, DistinctIds, NoneClose;
    StepAdds(g, s, c);
    CallShape(g, s, c);
    AlertRowsConcat(p.id, s.ledger, LedgerOf(g, s, c));
    var opening, x := OpeningIn(g, s, c), SettlementOf(g, s, c);
    if x.None? {
      NoAlertRows(p.id, LedgerOf(g, s, c));
    } else {
      var rows, r := s.rows + RowsOf(c.call.ctx, x.value.failed), AdmissionIn(g, s, c).reservation;
      AdmittedScopes(g, s, c);
      NoAlertRows(p.id, opening);
      AlertRowsConcat(p.id, opening, SettledRows(g, rows, r, x.value.paid.usage, c.call.ctx, x.value.at));
      CallAlerts(g.policies, rows, r, x.value.paid.usage, c.call.ctx, x.value.at, p);
    }
  }

  /** The alert rows of a run are at least the firings of either meter and at most their sum. */
  lemma {:induction false} AlertsAreFirings(p: B.Policy, w: C.Window, g: Setup, s: Books, calls: seq<AnyCall>)
    requires RunInWindow(p, w, g, s, calls) && DistinctIds(g.policies) && p in g.policies && !p.hard
    ensures var money, tokens := Firings(B.Money, p, w, g, s, calls), Firings(B.Tokens, p, w, g, s, calls);
            var added := AlertRows(p.id, Run(g, s, calls).ledger) - AlertRows(p.id, s.ledger);
            money <= added && tokens <= added <= money + tokens
  {
    hide Step, Fires, CallInWindow, AlertRows, DistinctIds;
    if calls != [] {
      AlertsAreFirings(p, w, g, s, calls[..|calls| - 1]);
      CallWritesAlert(p, w, g, Run(g, s, calls[..|calls| - 1]), calls[|calls| - 1]);
    }
  }

  /** A run of calls in one window, each at a moment of its own, that starts below both
      thresholds of a soft policy: the policy is alerted exactly when the run
      reaches one of them, and at most once for each it reaches. */
  lemma {:induction false} AlertedOncePerThreshold(p: B.Policy, w: C.Window, g: Setup, s: Books, calls: seq<AnyCall>)
    requires RunInWindow(p, w, g, s, calls) && DistinctIds(g.policies) && p in g.policies && !p.hard
    requires !Reached(B.Money, p, B.Spent(B.Money, p, w, s.rows))
    requires !Reached(B.Tokens, p, B.Spent(B.Tokens, p, w, s.rows))
    ensures var rows := Run(g, s, calls).rows;
            var money := if Reached(B.Money, p, B.Spent(B.Money, p, w, rows)) then 1 else 0;
            var tokens := if Reached(B.Tokens, p, B.Spent(B.Tokens, p, w, rows)) then 1 else 0;
            var added := AlertRows(p.id, Run(g, s, calls).ledger) - AlertRows(p.id, s.ledger);
            (added >= 1 <==> money + tokens >= 1) && 0 <= added <= money + tokens
  {
    hide Run, Firings, B.Spent, Reached, AlertRows, DistinctIds, RunInWindow;
    AlertsAreFirings(p, w, g, s, calls);
    FiresExactlyOnce(B.Money, p, w, g, s, calls);
    FiresExactlyOnce(B.Tokens, p, w, g, s, calls);
  }
}
