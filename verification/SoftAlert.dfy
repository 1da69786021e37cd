/** The alert rows that settling one call writes (`_record_soft_limit_alert_if_needed`,
    backend/app/llm/budget.py). */
module SoftAlert {
  import opened Basics
  import opened Pricing
  import opened Budget
  import C = Calendar

  // ---- Alert rows are threshold crossings -------------------------------------------------

  /** The alert rows of one policy in a ledger. */
  function AlertRows(id: Id, ledger: seq<LedgerRow>): nat {
    if ledger == [] then 0
    else AlertRows(id, ledger[..|ledger| - 1]) +
         (if ledger[|ledger| - 1].event.Alert? && ledger[|ledger| - 1].scope.budgetId == id then 1 else 0)
  }

  lemma {:induction false} AlertRowsConcat(id: Id, a: seq<LedgerRow>, b: seq<LedgerRow>)
    ensures AlertRows(id, a + b) == AlertRows(id, a) + AlertRows(id, b)
  {
    if b == [] {
      assert a + b == a;
    } else {
      assert (a + b)[..|a + b| - 1] == a + b[..|b| - 1];
      AlertRowsConcat(id, a, b[..|b| - 1]);
    }
  }

  ghost predicate DistinctIds(policies: seq<Policy>) {
    forall i, j :: 0 <= i < j < |policies| ==> policies[i].id != policies[j].id
  }

  lemma {:induction false} FoundById(policies: seq<Policy>, p: Policy)
    requires DistinctIds(policies) && p in policies
    ensures PolicyById(policies, p.id) == Some(p)
  {
    if policies[0] != p {
      var i :| 0 <= i < |policies| && policies[i] == p;
      assert policies[0].id != policies[i].id;
      assert policies[1..][i - 1] == p;
      FoundById(policies[1..], p);
    }
  }

  predicate SoftAlertDue(p: Policy, ctx: Context, now: C.Moment, rows: seq<UsageRow>, actual: Usage)
    requires now.Valid()
  {
    !p.hard && Alerts(p, ctx, C.PeriodWindow(p.period, now), rows, actual)
  }

  /** Settling the first `n` scopes writes one alert row for `p` if `p` is among
      them and its alert is due, and none otherwise. */
  lemma {:induction false} SettleAlerts(policies: seq<Policy>, mine: seq<Policy>, rows: seq<UsageRow>, r: Reservation,
          actual: Usage, ctx: Context, now: C.Moment, p: Policy, n: nat)
    requires now.Valid() && n <= |mine| && r.scopes == Scopes(mine)
    requires DistinctIds(policies) && p in policies
    requires DistinctIds(mine) && forall q :: q in mine ==> q in policies
    ensures AlertRows(p.id, SettleRows(policies, rows, r, actual, ctx, now, n)) ==
            if p in mine[..n] && SoftAlertDue(p, ctx, now, rows, actual) then 1 else 0
  {
    hide C.PeriodWindow, Alerts, AlertRows, PolicyById;
    if n == 0 {
      NoAlertRows(p.id);
    } else {
      SettleAlerts(policies, mine, rows, r, actual, ctx, now, p, n - 1);
      var q := mine[n - 1];
      assert q in mine;
      FoundById(policies, q);
      FoundById(policies, p);
      assert mine[..n] == mine[..n - 1] + [q];
      var before := SettleRows(policies, rows, r, actual, ctx, now, n - 1);
      var settle, alert := LedgerRow(Settle, r.id, r.scopes[n - 1], ctx, EstimateOf(r), actual),
                           LedgerRow(Alert, r.id, r.scopes[n - 1], ctx, EstimateOf(r), actual);
      AlertRowsStep(p.id, before, settle);
      AlertRowsStep(p.id, before + [settle], alert);
      if q == p { assert p !in mine[..n - 1]; }
    }
  }

  lemma NoAlertRows(id: Id)
    ensures AlertRows(id, []) == 0
  {}

  lemma AlertRowsStep(id: Id, ledger: seq<LedgerRow>, row: LedgerRow)
    ensures AlertRows(id, ledger + [row]) ==
            AlertRows(id, ledger) + (if row.event.Alert? && row.scope.budgetId == id then 1 else 0)
  {}

  lemma {:induction false} ApplicableDistinct(policies: seq<Policy>, ctx: Context)
    requires DistinctIds(policies)
    ensures DistinctIds(Applicable(policies, ctx))
    ensures forall q :: q in Applicable(policies, ctx) ==> q in policies
  {
    if policies != [] {
      var front := policies[..|policies| - 1];
      ApplicableDistinct(front, ctx);
      forall i | 0 <= i < |Applicable(front, ctx)|
        ensures Applicable(front, ctx)[i].id != policies[|policies| - 1].id
      {
        var q := Applicable(front, ctx)[i];
        assert q in front;
        var j :| 0 <= j < |front| && front[j] == q;
      }
    }
  }

  /** The moment lies in the window the policy has at that moment. */
  predicate Within(p: Policy, w: C.Window, t: C.Moment) {
    t.Valid() && C.PeriodWindow(p.period, t) == w && w.Contains(C.Instant(t))
  }

  // ---- Thresholds --------------------------------------------------------------

  lemma RatioMonotone(a: nat, b: nat, limit: nat)
    requires a <= b
    ensures Ratio(a, limit) <= Ratio(b, limit)
  {}

  /** The spend of `p` on a meter has reached the alert threshold. */
  predicate Reached(m: Meter, p: Policy, spent: nat) {
    LimitOn(m, p).Some? && Ratio(spent, LimitOn(m, p).value) >= Threshold(p)
  }

  /** Below the threshold, the crossing test asks whether the call alone reaches it;
      at or above the threshold it never succeeds. */
  lemma CrossingIsReaching(m: Meter, p: Policy, before: nat, actual: Usage)
    ensures Crosses(m, p, before, actual) <==> !Reached(m, p, before) && Reached(m, p, before + Measure(m, actual))
  {}

  lemma RatioInNumbers(value: nat, limit: nat, pct: nat)
    requires limit > 0
    ensures Ratio(value, limit) < pct as real / 100.0 <==> 100 * value < pct * limit
  {
    var v, l := value as real, limit as real;
    assert v == Ratio(value, limit) * l;
    assert (pct * limit) as real == pct as real * l;
    assert 100.0 * v < pct as real * l <==> 100 * value < pct * limit;
  }

  /** A call crosses the alert threshold of an amount or a token limit exactly when
      what was spent before it is less than the alert percentage of the limit, and
      with the call it is not; a limit of zero has no threshold. */
  lemma CrossingInNumbers(p: Policy, before: nat, actual: Usage)
    ensures Crosses(Money, p, before, actual) <==>
              100 * before < p.alertPct * p.amountMicros <= 100 * (before + actual.costMicros)
    ensures Crosses(Tokens, p, before, actual) <==>
              && p.tokenLimit.Some?
              && 100 * before < p.alertPct * p.tokenLimit.value <= 100 * (before + actual.totalTokens)
  {
    if p.amountMicros > 0 {
      RatioInNumbers(before, p.amountMicros, p.alertPct);
      RatioInNumbers(before + actual.costMicros, p.amountMicros, p.alertPct);
    }
    if p.tokenLimit.Some? && p.tokenLimit.value > 0 {
      RatioInNumbers(before, p.tokenLimit.value, p.alertPct);
      RatioInNumbers(before + actual.totalTokens, p.tokenLimit.value, p.alertPct);
    }
  }

  lemma ReachedStays(m: Meter, p: Policy, less: nat, more: nat)
    requires less <= more && Reached(m, p, less)
    ensures Reached(m, p, more)
  {
    RatioMonotone(less, more, LimitOn(m, p).value);
  }

  /** Settling a call writes one alert row for a soft policy that applies to it if
      the call crosses the threshold of either meter, and none otherwise; a hard one
      is never alerted. */
  lemma {:induction false} CallAlerts(policies: seq<Policy>, rows: seq<UsageRow>, r: Reservation, actual: Usage,
          ctx: Context, now: C.Moment, p: Policy)
    requires now.Valid() && r.scopes == Scopes(Applicable(policies, ctx))
    requires DistinctIds(policies) && p in policies
    ensures var w := C.PeriodWindow(p.period, now);
            AlertRows(p.id, SettleRows(policies, rows, r, actual, ctx, now, |r.scopes|)) ==
            if !p.hard && Applies(p, ctx) &&
               (Crosses(Money, p, Spent(Money, p, w, rows), actual)
                || Crosses(Tokens, p, Spent(Tokens, p, w, rows), actual))
            then 1 else 0
  {
    hide C.PeriodWindow, Crosses, SettleRows, AlertRows, DistinctIds;
    var mine := Applicable(policies, ctx);
    ApplicableDistinct(policies, ctx);
    SettleAlerts(policies, mine, rows, r, actual, ctx, now, p, |mine|);
    assert mine[..|mine|] == mine;
    ApplicableMembers(policies, ctx, p);
    if Applies(p, ctx) {
      UsageIsSpent(Money, p, ctx, C.PeriodWindow(p.period, now), rows);
      UsageIsSpent(Tokens, p, ctx, C.PeriodWindow(p.period, now), rows);
    }
  }
}
