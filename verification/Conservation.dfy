/** Money in the two tables: what the budget ledger settles for a policy is what the
    usage table says its calls spent, and calls made one after another do not
    take a policy past its hard limit (backend/app/llm/gateway.py, budget.py, usage.py). */
module Conservation {
  import opened Basics
  import opened Pricing
  import opened Calls
  import opened Fallback
  import opened Runs
  import opened Endings
  import SoftAlert
  import Policy
  import B = Budget
  import C = Calendar

  // ---- Two ways to add up what a policy's calls cost -----------------------------------------------

  /** What the ledger has settled for a budget policy. */
  function SettledFor(m: B.Meter, budgetId: Id, ledger: seq<B.LedgerRow>): nat {
    if ledger == [] then 0
    else
      SettledFor(m, budgetId, ledger[..|ledger| - 1]) +
      (var row := ledger[|ledger| - 1];
       if row.event.Settle? && row.scope.budgetId == budgetId then B.Measure(m, row.actual) else 0)
  }

  /** What the usage table records for the successful calls the policy applies to. */
  function SpentBy(m: B.Meter, p: B.Policy, rows: seq<B.UsageRow>): nat {
    if rows == [] then 0
    else
      SpentBy(m, p, rows[..|rows| - 1]) +
      (var row := rows[|rows| - 1];
       if row.status.Success? && B.Applies(p, row.ctx) then B.Measure(m, row.usage) else 0)
  }

  lemma {:induction false} SettledConcat(m: B.Meter, id: Id, a: seq<B.LedgerRow>, b: seq<B.LedgerRow>)
    ensures SettledFor(m, id, a + b) == SettledFor(m, id, a) + SettledFor(m, id, b)
  {
    if b == [] {
      assert a + b == a;
    } else {
      assert (a + b)[..|a + b| - 1] == a + b[..|b| - 1];
      SettledConcat(m, id, a, b[..|b| - 1]);
    }
  }

  lemma {:induction false} NoneSettled(m: B.Meter, id: Id, ledger: seq<B.LedgerRow>)
    requires forall i :: 0 <= i < |ledger| ==> !ledger[i].event.Settle?
    ensures SettledFor(m, id, ledger) == 0
  {
    if ledger != [] { NoneSettled(m, id, ledger[..|ledger| - 1]); }
  }

  function Hits(id: Id, scopes: seq<B.Scope>): nat {
    if scopes == [] then 0
    else Hits(id, scopes[..|scopes| - 1]) + (if scopes[|scopes| - 1].budgetId == id then 1 else 0)
  }

  lemma SettledOneMore(m: B.Meter, id: Id, ledger: seq<B.LedgerRow>, row: B.LedgerRow)
    ensures SettledFor(m, id, ledger + [row]) ==
            SettledFor(m, id, ledger) +
            (if row.event.Settle? && row.scope.budgetId == id then B.Measure(m, row.actual) else 0)
  {}

  lemma HitsOneMore(id: Id, scopes: seq<B.Scope>, n: nat, k: nat)
    requires 0 < n <= |scopes|
    ensures Hits(id, []) == 0
    ensures k * Hits(id, scopes[..n]) ==
            k * Hits(id, scopes[..n - 1]) + (if scopes[n - 1].budgetId == id then k else 0)
  {
    assert scopes[..n][..n - 1] == scopes[..n - 1];
  }

  lemma {:induction false} SettledByScopes(policies: seq<B.Policy>, rows: seq<B.UsageRow>, r: B.Reservation,
          actual: Usage, ctx: B.Context, at: Time, n: nat, m: B.Meter, id: Id)
    requires n <= |r.scopes|
    ensures SettledFor(m, id, B.SettleRows(policies, rows, r, actual, ctx, at, n)) ==
        B.Measure(m, actual) * Hits(id, r.scopes[..n])
  {
    hide B.Alerts, C.PeriodWindow, B.Measure, B.PolicyById;
    if n > 0 {
      hide SettledFor, Hits;
      SettledByScopes(policies, rows, r, actual, ctx, at, n - 1, m, id);
      HitsOneMore(id, r.scopes, n, B.Measure(m, actual));
      var before := B.SettleRows(policies, rows, r, actual, ctx, at, n - 1);
      var settle := B.LedgerRow(B.Settle, r.id, r.scopes[n - 1], ctx, B.EstimateOf(r), actual);
      SettledOneMore(m, id, before, settle);
      SettledOneMore(m, id, before + [settle], settle.(event := B.Alert));
    }
  }

  lemma {:induction false} HitsOnce(policies: seq<B.Policy>, ctx: B.Context, p: B.Policy)
    requires SoftAlert.DistinctIds(policies) && p in policies
    ensures Hits(p.id, B.Scopes(B.Applicable(policies, ctx))) == if B.Applies(p, ctx) then 1 else 0
  {
    var front, last := policies[..|policies| - 1], policies[|policies| - 1];
    var mine := B.Applicable(front, ctx);
    if B.Applies(last, ctx) {
      assert B.Scopes(mine + [last])[..|mine|] == B.Scopes(mine);
    }
    if last == p {
      HitsNever(front, ctx, p.id);
    } else {
      var i :| 0 <= i < |policies| && policies[i] == p;
      assert front[i] == p && policies[i].id != policies[|policies| - 1].id;
      HitsOnce(front, ctx, p);
    }
  }

  lemma {:induction false} HitsNever(policies: seq<B.Policy>, ctx: B.Context, id: Id)
    requires forall i :: 0 <= i < |policies| ==> policies[i].id != id
    ensures Hits(id, B.Scopes(B.Applicable(policies, ctx))) == 0
  {
    if policies != [] {
      var front, last := policies[..|policies| - 1], policies[|policies| - 1];
      HitsNever(front, ctx, id);
      var mine := B.Applicable(front, ctx);
      if B.Applies(last, ctx) { assert B.Scopes(mine + [last])[..|mine|] == B.Scopes(mine); }
    }
  }

  /** Only successes cost anything. */
  ghost predicate FailuresAreFree(records: seq<Record>) {
    forall i :: 0 <= i < |records| ==> records[i].status.Success? || records[i].usage == NO_USAGE
  }

  lemma {:induction false} SpentByRecords(m: B.Meter, p: B.Policy, ctx: B.Context, rows: seq<B.UsageRow>,
          records: seq<Record>)
    requires FailuresAreFree(records)
    ensures SpentBy(m, p, rows + RowsOf(ctx, records)) == SpentBy(m, p, rows) +
        (if B.Applies(p, ctx) then Charged(m, records) else 0)
  {
    if records == [] {
      assert rows + RowsOf(ctx, records) == rows;
    } else {
      var front := records[..|records| - 1];
      SpentByRecords(m, p, ctx, rows, front);
      var all := rows + RowsOf(ctx, records);
      assert all[..|all| - 1] == rows + RowsOf(ctx, front);
    }
  }

  // ---- One call ----------------------------------------------------------------------------------------

  lemma {:induction false} FreeRecordsChargeNothing(m: B.Meter, records: seq<Record>)
    requires AreFree(records)
    ensures Charged(m, records) == 0
  {
    if records != [] { FreeRecordsChargeNothing(m, records[..|records| - 1]); }
  }

  lemma RecordsAreFree(g: Setup, s: Books, c: AnyCall)
    ensures FailuresAreFree(RecordsOf(g, s, c))
  {
    hide RecordsOf, LedgerOf, AdmissionIn, SettlementOf, OpeningIn, RoutesOf, SettledRows, RowsOf;
    CallShape(g, s, c);
  }

  /** One call settles for a policy what it charges, if the policy applies to it. */
  lemma OneCallMatches(g: Setup, s: Books, c: AnyCall, m: B.Meter, p: B.Policy)
    requires SoftAlert.DistinctIds(g.policies) && p in g.policies
    ensures SettledFor(m, p.id, LedgerOf(g, s, c)) ==
            if B.Applies(p, c.call.ctx) then Charged(m, RecordsOf(g, s, c)) else 0
  {
    hide RecordsOf, LedgerOf, AdmissionIn, SettlementOf, OpeningIn, RoutesOf, RowsOf, B.SettleRows, SettledFor, Charged,
         B.Applies, SoftAlert.DistinctIds, Hits, B.Scopes;
    CallShape(g, s, c);
    var opening, x := OpeningIn(g, s, c), SettlementOf(g, s, c);
    if x.None? {
      NoneSettled(m, p.id, LedgerOf(g, s, c));
      FreeRecordsChargeNothing(m, RecordsOf(g, s, c));
    } else {
      var failed, paid, r := x.value.failed, x.value.paid, AdmissionIn(g, s, c).reservation;
      var rows := s.rows + RowsOf(c.call.ctx, failed);
      FreeRecordsChargeNothing(m, failed);
      ChargedOneMore(m, failed, paid);
      NoneSettled(m, p.id, opening);
      SettledConcat(m, p.id, opening, SettledRows(g, rows, r, paid.usage, c.call.ctx, x.value.at));
      SettledByScopes(g.policies, rows, r, paid.usage, c.call.ctx, x.value.at, |r.scopes|, m, p.id);
      assert r.scopes[..|r.scopes|] == r.scopes;
      AdmittedScopes(g, s, c);
      HitsOnce(g.policies, c.call.ctx, p);
    }
  }

  /** After any run of calls, the ledger has settled for each policy exactly what the
      usage table says the calls it applies to have spent, in money and in tokens. */
  lemma {:induction false} LedgerMatchesUsage(g: Setup, s: Books, calls: seq<AnyCall>, m: B.Meter, p: B.Policy)
    requires SoftAlert.DistinctIds(g.policies) && p in g.policies
    requires SettledFor(m, p.id, s.ledger) == SpentBy(m, p, s.rows)
    ensures SettledFor(m, p.id, Run(g, s, calls).ledger) == SpentBy(m, p, Run(g, s, calls).rows)
  {
    hide Step, LedgerOf, RecordsOf, SettledFor, SpentBy, Charged, B.Applies, RowsOf, SoftAlert.DistinctIds,
        FailuresAreFree;
    if calls != [] {
      var before, c := Run(g, s, calls[..|calls| - 1]), calls[|calls| - 1];
      LedgerMatchesUsage(g, s, calls[..|calls| - 1], m, p);
      StepAdds(g, before, c);
      OneCallMatches(g, before, c, m, p);
      RecordsAreFree(g, before, c);
      SettledConcat(m, p.id, before.ledger, LedgerOf(g, before, c));
      SpentByRecords(m, p, c.call.ctx, before.rows, RecordsOf(g, before, c));
    }
  }

  // ---- Hard limits ---------------------------------------------------------------------------------------------

  /** A call charges at most `d` more than the estimate it reserved. */
  ghost predicate ChargesWithin(g: Setup, s: Books, c: AnyCall, m: B.Meter, d: nat) {
    var a := AdmissionIn(g, s, c);
    a.Admitted? ==> Charged(m, RecordsOf(g, s, c)) <= B.Measure(m, Estimate(g.prices, a.request)) + d
  }

  lemma {:induction false} SpentGrowsByCharge(m: B.Meter, p: B.Policy, w: C.Window, ctx: B.Context,
          rows: seq<B.UsageRow>, records: seq<Record>)
    requires FailuresAreFree(records)
    ensures B.Spent(m, p, w, rows) <= B.Spent(m, p, w, rows + RowsOf(ctx, records)) <=
            B.Spent(m, p, w, rows) + (if B.Applies(p, ctx) then Charged(m, records) else 0)
  {
    hide B.Applies;
    if records == [] {
      assert rows + RowsOf(ctx, records) == rows;
    } else {
      var front := records[..|records| - 1];
      SpentGrowsByCharge(m, p, w, ctx, rows, front);
      var all := rows + RowsOf(ctx, records);
      assert all[..|all| - 1] == rows + RowsOf(ctx, front);
    }
  }

  lemma RefusedChargesNothing(g: Setup, s: Books, c: AnyCall, m: B.Meter)
    requires AdmissionIn(g, s, c).Refused?
    ensures Charged(m, RecordsOf(g, s, c)) == 0
  {}

  lemma AdmittedMeansRoom(g: Setup, s: Books, c: AnyCall, m: B.Meter, p: B.Policy, limit: nat)
    requires AdmissionIn(g, s, c).Admitted? && p in g.policies && p.hard && B.LimitOn(m, p) == Some(limit) &&
        B.Applies(p, c.call.ctx)
    ensures B.Spent(m, p, C.PeriodWindow(p.period, c.call.began), s.rows) +
        B.Measure(m, Estimate(g.prices, AdmissionIn(g, s, c).request)) <= limit
  {
    hide B.Applies, B.Spent, C.PeriodWindow, Policy.Evaluate, B.Applicable, B.FirstDenial, Estimate, B.Measure;
    var call, e := c.call, AdmissionIn(g, s, c).request;
    B.ApprovalMeansRoom(g.policies, call.ctx, call.began, s.rows, Estimate(g.prices, e), call.id);
    B.ApplicableMembers(g.policies, call.ctx, p);
  }

  /** One call that charges no more than `d` above its estimate leaves the spend of a
      hard policy where it was, or within the limit plus `d`. */
  lemma OneCallWithinLimit(g: Setup, s: Books, c: AnyCall, m: B.Meter, p: B.Policy, limit: nat, d: nat, w: C.Window)
    requires p in g.policies && p.hard && B.LimitOn(m, p) == Some(limit)
    requires ChargesWithin(g, s, c, m, d) && w == C.PeriodWindow(p.period, c.call.began)
    ensures B.Spent(m, p, w, Step(g, s, c).rows) <= Max(B.Spent(m, p, w, s.rows), limit + d)
  {
    hide Step, LedgerOf, RecordsOf, Charged, B.Applies, RowsOf, B.Spent, C.PeriodWindow, SoftAlert.DistinctIds,
        B.LimitOn, B.Measure, Estimate;
    hide AdmissionIn, FailuresAreFree;
    StepAdds(g, s, c);
    RecordsAreFree(g, s, c);
    SpentGrowsByCharge(m, p, w, c.call.ctx, s.rows, RecordsOf(g, s, c));
    if AdmissionIn(g, s, c).Refused? {
      RefusedChargesNothing(g, s, c, m);
    } else if B.Applies(p, c.call.ctx) {
      AdmittedMeansRoom(g, s, c, m, p, limit);
    }
  }

  /** The calls of a run begin in one window and each charges within `d` of its estimate. */
  ghost predicate InWindow(g: Setup, s: Books, calls: seq<AnyCall>, m: B.Meter, p: B.Policy, d: nat, w: C.Window) {
    calls != [] ==>
      var front, c := calls[..|calls| - 1], calls[|calls| - 1];
      && InWindow(g, s, front, m, p, d, w)
      && ChargesWithin(g, Run(g, s, front), c, m, d) && w == C.PeriodWindow(p.period, c.call.began)
  }

  /** Calls made one after another never take a hard policy further past its limit
      than one call exceeds its own estimate. */
  lemma {:induction false} SequentialRunWithinLimit(g: Setup, s: Books, calls: seq<AnyCall>, m: B.Meter, p: B.Policy,
          limit: nat, d: nat, w: C.Window)
    requires p in g.policies && p.hard && B.LimitOn(m, p) == Some(limit)
    requires InWindow(g, s, calls, m, p, d, w)
    ensures B.Spent(m, p, w, Run(g, s, calls).rows) <= Max(B.Spent(m, p, w, s.rows), limit + d)
  {
    hide Step, ChargesWithin, B.Spent, C.PeriodWindow, SoftAlert.DistinctIds, B.LimitOn;
    if calls != [] {
      SequentialRunWithinLimit(g, s, calls[..|calls| - 1], m, p, limit, d, w);
      OneCallWithinLimit(g, Run(g, s, calls[..|calls| - 1]), calls[|calls| - 1], m, p, limit, d, w);
    }
  }
}
