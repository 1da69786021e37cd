/** The two tables while calls overlap: over every interleaving of the steps of
    `CallMachine`, what the ledger has settled for a policy is what the usage table says
    its calls spent, and what its settled calls have still to record
    (backend/app/llm/budget.py, gateway.py, usage.py). */
module OverlapLedger {
  import opened Basics
  import opened Pricing
  import opened Budget
  import opened CallMachine
  import opened SoftAlert
  import opened OverlapAlerts
  import T = Conservation
  import C = Calendar

  /** What a call in flight has settled for the policy and not recorded. */
  function Unrecorded(m: Meter, p: Policy): Call -> int {
    (c: Call) => if c.paid.Some? && Applies(p, c.ctx) then Measure(m, c.paid.value.usage) else 0
  }

  ghost predicate Agrees(m: Meter, p: Policy, s: System) {
    T.SettledFor(m, p.id, s.ledger) == T.SpentBy(m, p, s.rows) + SumOf(s.inflight, Unrecorded(m, p))
  }

  lemma SpentByOneMore(m: Meter, p: Policy, rows: seq<UsageRow>, row: UsageRow)
    ensures T.SpentBy(m, p, rows + [row]) ==
            T.SpentBy(m, p, rows) + (if row.status.Success? && Applies(p, row.ctx) then Measure(m, row.usage) else 0)
  {}

  /** Settling writes down for the policy what the call has then to record. */
  lemma {:induction false} SettlingAgrees(m: Meter, p: Policy, policies: seq<Policy>, s: System, i: nat, actual: Usage)
    requires s.now.Valid() && Well(policies, s) && i < |s.inflight| && DistinctIds(policies) && p in policies
    requires Agrees(m, p, s)
    ensures Agrees(m, p, SettleAt(policies, s, i, actual))
  {
    hide T.SettledFor, T.SpentBy, SettleRows, Applicable, Applies, Scopes, T.Hits, DistinctIds, Measure, SumOf;
    var c := s.inflight[i];
    assert CallWell(policies, s.rows, c);
    if c.next == |c.policies| && c.paid.None? {
      var r := ReservationOf(c);
      ScopesLength(c.policies);
      T.SettledConcat(m, p.id, s.ledger, SettleRows(policies, s.rows, r, actual, c.ctx, s.now, |c.policies|));
      T.SettledByScopes(policies, s.rows, r, actual, c.ctx, s.now, |c.policies|, m, p.id);
      assert r.scopes[..|c.policies|] == Scopes(Applicable(policies, c.ctx));
      T.HitsOnce(policies, c.ctx, p);
      SumUpdate(s.inflight, i, c.(paid := Some(Paid(actual, |s.rows|))), Unrecorded(m, p));
    }
  }

  lemma ScopesLength(policies: seq<Policy>)
    ensures |Scopes(policies)| == |policies| && Scopes(policies)[..|policies|] == Scopes(policies)
  {}

  /** A step that neither settles nor writes a row for what is settled. */
  lemma {:induction false} LeavingAgrees(m: Meter, p: Policy, s: System, i: nat)
    requires i < |s.inflight| && s.inflight[i].paid.None? && Agrees(m, p, s)
    ensures Agrees(m, p, s.(inflight := Leave(s, i)))
  {
    SumWithout(s.inflight, i, Unrecorded(m, p));
  }

  lemma {:induction false} CheckingAgrees(m: Meter, p: Policy, policies: seq<Policy>, s: System, i: nat)
    requires s.now.Valid() && Well(policies, s) && i < |s.inflight| && Agrees(m, p, s)
    ensures Agrees(m, p, CheckAt(s, i))
  {
    hide T.SettledFor, T.SpentBy, Denial, C.PeriodWindow, Applicable, Applies, Measure, SumOf;
    var c := s.inflight[i];
    assert CallWell(policies, s.rows, c);
    if c.next < |c.policies| {
      LeavingAgrees(m, p, s, i);
      SumUpdate(s.inflight, i, c.(next := c.next + 1), Unrecorded(m, p));
    }
  }

  lemma {:induction false} RecordingAgrees(m: Meter, p: Policy, s: System, i: nat, deployment: Option<string>)
    requires s.now.Valid() && i < |s.inflight| && Agrees(m, p, s)
    ensures Agrees(m, p, RecordAt(s, i, deployment))
  {
    hide T.SettledFor, T.SpentBy, C.Instant, Applies, Measure, SumOf;
    var c := s.inflight[i];
    if c.paid.Some? {
      SpentByOneMore(m, p, s.rows, PaidRow(s, c, deployment));
      SumWithout(s.inflight, i, Unrecorded(m, p));
    }
  }

  lemma {:induction false} BeginningAgrees(m: Meter, p: Policy, policies: seq<Policy>, s: System, ev: Event)
    requires s.now.Valid() && ev.Begin? && Agrees(m, p, s)
    ensures Agrees(m, p, Step(policies, s, ev))
  {
    hide T.SettledFor, T.SpentBy, Applicable;
    var c := Call(ev.who, ev.id, ev.ctx, ev.estimate, Applicable(policies, ev.ctx), 0, None);
    assert (s.inflight + [c])[..|s.inflight|] == s.inflight;
  }

  lemma NotingAgrees(m: Meter, p: Policy, policies: seq<Policy>, s: System, row: UsageRow)
    requires s.now.Valid() && Agrees(m, p, s)
    ensures Agrees(m, p, Step(policies, s, Note(row)))
  {
    hide T.SettledFor, T.SpentBy, C.Instant, SumOf;
    SpentByOneMore(m, p, s.rows, row);
  }

  lemma {:induction false} StepAgrees(m: Meter, p: Policy, policies: seq<Policy>, s: System, ev: Event)
    requires s.now.Valid() && Well(policies, s) && DistinctIds(policies) && p in policies && Agrees(m, p, s)
    ensures Agrees(m, p, Step(policies, s, ev))
  {
    hide Agrees, Well, CheckAt, SettleAt, RecordAt, DistinctIds, C.Instant;
    match ev {
      case Begin(_, _, _, _) => BeginningAgrees(m, p, policies, s, ev);
      case Check(who) =>
        if Where(s.inflight, who).Some? { CheckingAgrees(m, p, policies, s, Where(s.inflight, who).value); }
      case Finish(who, actual) =>
        if Where(s.inflight, who).Some? { SettlingAgrees(m, p, policies, s, Where(s.inflight, who).value, actual); }
      case Record(who, deployment) =>
        if Where(s.inflight, who).Some? { RecordingAgrees(m, p, s, Where(s.inflight, who).value, deployment); }
      case Drop(who) =>
        if Where(s.inflight, who).Some? && s.inflight[Where(s.inflight, who).value].paid.None? {
          LeavingAgrees(m, p, s, Where(s.inflight, who).value);
        }
      case Note(row) => NotingAgrees(m, p, policies, s, row);
      case Tick(to) => SameTables(m, p, s, Step(policies, s, ev));
    }
  }

  lemma SameTables(m: Meter, p: Policy, s: System, t: System)
    requires s.rows == t.rows && s.ledger == t.ledger && s.inflight == t.inflight && Agrees(m, p, s)
    ensures Agrees(m, p, t)
  {}

  /** After any steps of any overlapping calls, the ledger has settled for each policy
      what the usage table says its calls have spent and what those that have settled
      have still to record, in money and in tokens. */
  lemma {:induction false} OverlappingLedgerMatchesUsage(m: Meter, p: Policy, policies: seq<Policy>, start: System,
          run: seq<Event>)
    requires start.now.Valid() && start.inflight == [] && DistinctIds(policies) && p in policies
    requires T.SettledFor(m, p.id, start.ledger) == T.SpentBy(m, p, start.rows)
    ensures var s := Run(policies, start, run);
            T.SettledFor(m, p.id, s.ledger) == T.SpentBy(m, p, s.rows) + SumOf(s.inflight, Unrecorded(m, p))
  {
    AllStepsAgree(m, p, policies, start, run);
  }

  lemma {:induction false} AllStepsAgree(m: Meter, p: Policy, policies: seq<Policy>, start: System, run: seq<Event>)
    requires start.now.Valid() && Well(policies, start) && Agrees(m, p, start)
    requires DistinctIds(policies) && p in policies
    ensures Agrees(m, p, Run(policies, start, run))
  {
    hide Agrees, Well, Step, DistinctIds;
    if run != [] {
      AllStepsAgree(m, p, policies, start, run[..|run| - 1]);
      RunsStayWell(policies, start, run[..|run| - 1]);
      StepAgrees(m, p, policies, Run(policies, start, run[..|run| - 1]), run[|run| - 1]);
    }
  }
}
