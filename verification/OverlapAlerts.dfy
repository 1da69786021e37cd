/** Soft-limit alerts when calls overlap: over every interleaving of the steps of
    `CallMachine`, how many alerts a soft policy gets while its spend passes the
    threshold (backend/app/llm/budget.py; the order "settle, then record" is
    backend/app/llm/gateway.py). */
module OverlapAlerts {
  import opened Basics
  import opened Pricing
  import opened Budget
  import opened CallMachine
  import opened SoftAlert
  import C = Calendar

  // ---- One window ------------------------------------------------------------------------

  /** The whole run takes place inside one window of the policy. */
  ghost predicate InWindow(p: Policy, w: C.Window, start: System, run: seq<Event>) {
    Within(p, w, start.now) && forall ev :: ev in run && ev.Tick? && ev.to.Valid() ==> Within(p, w, ev.to)
  }

  lemma {:induction false} StaysInWindow(p: Policy, w: C.Window, policies: seq<Policy>, start: System, run: seq<Event>)
    requires InWindow(p, w, start, run)
    ensures Within(p, w, Run(policies, start, run).now)
  {
    hide C.Instant, C.PeriodWindow, Step;
    if run != [] {
      assert run[|run| - 1] in run;
      StaysInWindow(p, w, policies, start, run[..|run| - 1]);
      OnlyTicksMoveTime(policies, Run(policies, start, run[..|run| - 1]), run[|run| - 1]);
    }
  }

  lemma OnlyTicksMoveTime(policies: seq<Policy>, s: System, ev: Event)
    requires s.now.Valid()
    ensures Step(policies, s, ev).now == s.now || (ev.Tick? && ev.to.Valid() && Step(policies, s, ev).now == ev.to)
  {
    hide C.Instant, C.PeriodWindow, Denial, SettleRows, Applicable;
  }

  // ---- Crossings -----------------------------------------------------------------------------

  /** The event settles a call. */
  predicate Settles(s: System, ev: Event) {
    && ev.Finish? && Where(s.inflight, ev.who).Some?
    && var c := s.inflight[Where(s.inflight, ev.who).value];
    && c.next >= |c.policies| && c.paid.None?
  }

  /** ... and the call crosses the threshold of `p` on all these meters as it settles. */
  predicate CrossesAt(ms: set<Meter>, p: Policy, w: C.Window, s: System, ev: Event) {
    && Settles(s, ev)
    && Applies(p, s.inflight[Where(s.inflight, ev.who).value].ctx)
    && forall m :: m in ms ==> Crosses(m, p, Spent(m, p, w, s.rows), ev.actual)
  }

  ghost function Crossings(ms: set<Meter>, p: Policy, w: C.Window, policies: seq<Policy>, start: System,
          run: seq<Event>): nat
    requires start.now.Valid()
  {
    if run == [] then 0
    else
      Crossings(ms, p, w, policies, start, run[..|run| - 1]) +
      (if CrossesAt(ms, p, w, Run(policies, start, run[..|run| - 1]), run[|run| - 1]) then 1 else 0)
  }

  /** With the rows the call saw as it settled, it alone reaches the threshold of one meter. */
  predicate AloneOn(m: Meter, p: Policy, w: C.Window, rows: seq<UsageRow>, c: Call)
    requires c.paid.Some? && c.paid.value.seen <= |rows|
  {
    Reached(m, p, Spent(m, p, w, rows[..c.paid.value.seen]) + Measure(m, c.paid.value.usage))
  }

  /** The call has settled and alone reaches the threshold of each of these meters. */
  predicate ReachesAlone(ms: set<Meter>, p: Policy, w: C.Window, rows: seq<UsageRow>, c: Call) {
    && c.paid.Some? && c.paid.value.seen <= |rows| && Applies(p, c.ctx)
    && forall m :: m in ms ==> AloneOn(m, p, w, rows, c)
  }

  function Alone(ms: set<Meter>, p: Policy, w: C.Window, rows: seq<UsageRow>): Call -> bool {
    (c: Call) => ReachesAlone(ms, p, w, rows, c)
  }

  /** The spend has reached the threshold of one of these meters. */
  predicate Passed(ms: set<Meter>, p: Policy, w: C.Window, s: System) {
    exists m :: m in ms && Reached(m, p, Spent(m, p, w, s.rows))
  }

  function Waiting(ms: set<Meter>, p: Policy, w: C.Window, s: System): nat {
    Count(s.inflight, Alone(ms, p, w, s.rows))
  }

  // ---- What every step keeps --------------------------------------------------------------------

  ghost predicate CallWell(policies: seq<Policy>, rows: seq<UsageRow>, c: Call) {
    && c.policies == Applicable(policies, c.ctx) && c.next <= |c.policies|
    && (c.paid.Some? ==> c.next == |c.policies| && c.paid.value.seen <= |rows|)
  }

  ghost predicate Well(policies: seq<Policy>, s: System) {
    forall i :: 0 <= i < |s.inflight| ==> CallWell(policies, s.rows, s.inflight[i])
  }

  lemma {:induction false} WellStep(policies: seq<Policy>, s: System, ev: Event)
    requires s.now.Valid() && Well(policies, s)
    ensures Well(policies, Step(policies, s, ev))
  {
    hide C.Instant, C.PeriodWindow, Denial, SettleRows, Applicable;
  }

  lemma {:induction false} RunsStayWell(policies: seq<Policy>, start: System, run: seq<Event>)
    requires start.now.Valid() && Well(policies, start)
    ensures Well(policies, Run(policies, start, run))
  {
    hide Well, Step;
    if run != [] {
      RunsStayWell(policies, start, run[..|run| - 1]);
      WellStep(policies, Run(policies, start, run[..|run| - 1]), run[|run| - 1]);
    }
  }

  lemma {:induction false} SpentOfPrefix(m: Meter, p: Policy, w: C.Window, rows: seq<UsageRow>, n: nat)
    requires n <= |rows|
    ensures Spent(m, p, w, rows[..n]) <= Spent(m, p, w, rows)
    decreases |rows|
  {
    if n == |rows| {
      assert rows[..n] == rows;
    } else {
      assert rows[..|rows| - 1][..n] == rows[..n];
      SpentOfPrefix(m, p, w, rows[..|rows| - 1], n);
    }
  }

  /** A new row changes nothing about the rows the calls in flight saw. */
  lemma {:induction false} RowsGrow(ms: set<Meter>, p: Policy, w: C.Window, policies: seq<Policy>, s: System,
          row: UsageRow)
    requires Well(policies, s)
    ensures Count(s.inflight, Alone(ms, p, w, s.rows + [row])) == Waiting(ms, p, w, s)
  {
    hide Spent, Reached, Applies, Applicable;
    forall c | c in s.inflight ensures Alone(ms, p, w, s.rows)(c) == Alone(ms, p, w, s.rows + [row])(c) {
      var i :| 0 <= i < |s.inflight| && s.inflight[i] == c;
      assert CallWell(policies, s.rows, s.inflight[i]);
      if c.paid.Some? { assert (s.rows + [row])[..c.paid.value.seen] == s.rows[..c.paid.value.seen]; }
    }
    CountSame(s.inflight, Alone(ms, p, w, s.rows), Alone(ms, p, w, s.rows + [row]));
  }

  /** A settled call below the thresholds waits alone if and only if it crossed. */
  lemma {:induction false} SettlingWaits(ms: set<Meter>, p: Policy, w: C.Window, policies: seq<Policy>, s: System,
          i: nat, actual: Usage)
    requires s.now.Valid() && i < |s.inflight| && !Passed(ms, p, w, s)
    requires s.inflight[i].next >= |s.inflight[i].policies| && s.inflight[i].paid.None?
    ensures Waiting(ms, p, w, SettleAt(policies, s, i, actual)) ==
            Waiting(ms, p, w, s) + (if CrossesWith(ms, p, w, s, i, actual) then 1 else 0)
  {
    hide Spent, Reached, Applies, Crosses, SettleRows, Measure, Count;
    var c := s.inflight[i];
    var paid := c.(paid := Some(Paid(actual, |s.rows|)));
    CountUpdate(s.inflight, i, paid, Alone(ms, p, w, s.rows));
    assert s.rows[..|s.rows|] == s.rows;
    forall m | m in ms
      ensures Crosses(m, p, Spent(m, p, w, s.rows), actual) <==> AloneOn(m, p, w, s.rows, paid)
    {
      CrossingIsReaching(m, p, Spent(m, p, w, s.rows), actual);
    }
  }

  predicate CrossesWith(ms: set<Meter>, p: Policy, w: C.Window, s: System, i: nat, actual: Usage)
    requires i < |s.inflight|
  {
    Applies(p, s.inflight[i].ctx) && forall m :: m in ms ==> Crosses(m, p, Spent(m, p, w, s.rows), actual)
  }

  /** A call that records and leaves the spend below the thresholds was not waiting. */
  lemma {:induction false} RecordingBelow(ms: set<Meter>, p: Policy, w: C.Window, policies: seq<Policy>, s: System,
          i: nat, deployment: Option<string>)
    requires ms != {} && Within(p, w, s.now) && Well(policies, s) && i < |s.inflight|
    requires !Passed(ms, p, w, RecordAt(s, i, deployment))
    ensures Waiting(ms, p, w, RecordAt(s, i, deployment)) == Waiting(ms, p, w, s) && !Passed(ms, p, w, s)
  {
    hide Spent, Reached, Applicable, Count, C.Instant, C.PeriodWindow, Measure;
    var c := s.inflight[i];
    if c.paid.Some? {
      var row := PaidRow(s, c, deployment);
      var rows := s.rows + [row];
      assert CallWell(policies, s.rows, c);
      RowsGrow(ms, p, w, policies, s, row);
      CountWithout(s.inflight, i, Alone(ms, p, w, rows));
      if Passed(ms, p, w, s) {
        var m :| m in ms && Reached(m, p, Spent(m, p, w, s.rows));
        SpentAppend(m, p, w, s.rows, row);
        ReachedStays(m, p, Spent(m, p, w, s.rows), Spent(m, p, w, rows));
      }
      if Alone(ms, p, w, rows)(c) {
        var m :| m in ms;
        var seen := c.paid.value.seen;
        assert rows[..seen] == s.rows[..seen] && AloneOn(m, p, w, rows, c);
        SpentAppend(m, p, w, s.rows, row);
        SpentOfPrefix(m, p, w, s.rows, seen);
        ReachedStays(m, p, Spent(m, p, w, s.rows[..seen]) + Measure(m, c.paid.value.usage), Spent(m, p, w, rows));
      }
    }
  }

  lemma {:induction false} LeavingUnpaid(ms: set<Meter>, p: Policy, w: C.Window, s: System, i: nat)
    requires i < |s.inflight| && s.inflight[i].paid.None?
    ensures Waiting(ms, p, w, s.(inflight := Leave(s, i))) == Waiting(ms, p, w, s)
  {
    CountWithout(s.inflight, i, Alone(ms, p, w, s.rows));
  }

  lemma {:induction false} CheckingWaits(ms: set<Meter>, p: Policy, w: C.Window, policies: seq<Policy>, s: System,
          i: nat)
    requires s.now.Valid() && Well(policies, s) && i < |s.inflight|
    ensures Waiting(ms, p, w, CheckAt(s, i)) == Waiting(ms, p, w, s)
  {
    hide Spent, Reached, Applies, Applicable, Denial, Count, C.PeriodWindow;
    var c := s.inflight[i];
    assert CallWell(policies, s.rows, c);
    if c.next < |c.policies| {
      LeavingUnpaid(ms, p, w, s, i);
      CountUpdate(s.inflight, i, c.(next := c.next + 1), Alone(ms, p, w, s.rows));
    }
  }

  lemma {:induction false} NotingWaits(ms: set<Meter>, p: Policy, w: C.Window, policies: seq<Policy>, s: System,
          row: UsageRow)
    requires s.now.Valid() && Well(policies, s)
    ensures var t := Step(policies, s, Note(row));
            Waiting(ms, p, w, t) == Waiting(ms, p, w, s) && Passed(ms, p, w, t) == Passed(ms, p, w, s)
  {
    hide Spent, Reached, Count, C.Instant;
    RowsGrow(ms, p, w, policies, s, row);
    forall m ensures Step(policies, s, Note(row)).rows != s.rows ==>
                       Spent(m, p, w, s.rows + [row]) == Spent(m, p, w, s.rows)
    {
      SpentAppend(m, p, w, s.rows, row);
    }
  }

  lemma {:induction false} BeginningWaits(ms: set<Meter>, p: Policy, w: C.Window, policies: seq<Policy>, s: System,
          ev: Event)
    requires s.now.Valid() && ev.Begin?
    ensures Waiting(ms, p, w, Step(policies, s, ev)) == Waiting(ms, p, w, s)
  {
    hide Spent, Reached, Applicable;
    var c := Call(ev.who, ev.id, ev.ctx, ev.estimate, Applicable(policies, ev.ctx), 0, None);
    assert (s.inflight + [c])[..|s.inflight|] == s.inflight;
  }

  /** One step that leaves the spend below the threshold: the calls that wait alone
      grow by one exactly when a call crosses. */
  lemma {:induction false} BelowStep(ms: set<Meter>, p: Policy, w: C.Window, policies: seq<Policy>, s: System,
          ev: Event)
    requires ms != {} && Within(p, w, s.now) && Well(policies, s)
    requires !Passed(ms, p, w, Step(policies, s, ev))
    ensures !Passed(ms, p, w, s)
    ensures Waiting(ms, p, w, Step(policies, s, ev)) ==
            Waiting(ms, p, w, s) + (if CrossesAt(ms, p, w, s, ev) then 1 else 0)
  {
    hide Passed, Well, Waiting, CheckAt, RecordAt, Applies, Crosses, C.Instant, C.PeriodWindow;
    SameRowsPass(ms, p, w, policies, s, ev);
    match ev {
      case Begin(_, _, _, _) => BeginningWaits(ms, p, w, policies, s, ev);
      case Check(who) =>
        if Where(s.inflight, who).Some? { CheckingWaits(ms, p, w, policies, s, Where(s.inflight, who).value); }
      case Finish(who, actual) =>
        if Settles(s, ev) { SettlingWaits(ms, p, w, policies, s, Where(s.inflight, who).value, actual); }
      case Record(who, deployment) =>
        if Where(s.inflight, who).Some? {
          RecordingBelow(ms, p, w, policies, s, Where(s.inflight, who).value, deployment);
        }
      case Drop(who) =>
        if Where(s.inflight, who).Some? && s.inflight[Where(s.inflight, who).value].paid.None? {
          LeavingUnpaid(ms, p, w, s, Where(s.inflight, who).value);
        }
      case Note(row) => NotingWaits(ms, p, w, policies, s, row);
      case Tick(to) => SameBooks(ms, p, w, s, Step(policies, s, ev));
    }
  }

  lemma SameBooks(ms: set<Meter>, p: Policy, w: C.Window, s: System, t: System)
    requires s.rows == t.rows && s.inflight == t.inflight
    ensures Waiting(ms, p, w, s) == Waiting(ms, p, w, t) && Passed(ms, p, w, s) == Passed(ms, p, w, t)
  {}

  /** Only a recorded or noted row moves the spend. */
  lemma SameRowsPass(ms: set<Meter>, p: Policy, w: C.Window, policies: seq<Policy>, s: System, ev: Event)
    requires s.now.Valid()
    ensures !ev.Record? && !ev.Note? ==>
              Step(policies, s, ev).rows == s.rows && Passed(ms, p, w, Step(policies, s, ev)) == Passed(ms, p, w, s)
  {
    hide C.Instant, C.PeriodWindow, Denial, SettleRows, Applicable, Spent, Reached;
  }

  lemma NoCrossingOncePassed(ms: set<Meter>, p: Policy, w: C.Window, s: System, ev: Event)
    requires Passed(ms, p, w, s)
    ensures !CrossesAt(ms, p, w, s, ev)
  {
    hide Reached, Spent;
    if Settles(s, ev) {
      var m :| m in ms && Reached(m, p, Spent(m, p, w, s.rows));
      CrossingIsReaching(m, p, Spent(m, p, w, s.rows), ev.actual);
    }
  }

  // ---- The theorems ------------------------------------------------------------------------------------

  /** While the spend is below the thresholds, the crossings so far are exactly the
      calls that have settled, have not recorded, and alone reach them. */
  lemma {:induction false} BelowCrossingsWait(ms: set<Meter>, p: Policy, w: C.Window, policies: seq<Policy>,
          start: System, run: seq<Event>)
    requires ms != {} && start.inflight == [] && InWindow(p, w, start, run)
    requires !Passed(ms, p, w, Run(policies, start, run))
    ensures Crossings(ms, p, w, policies, start, run) == Waiting(ms, p, w, Run(policies, start, run))
  {
    hide Passed, Step, CrossesAt, C.Instant, C.PeriodWindow;
    if run != [] {
      var front, ev := run[..|run| - 1], run[|run| - 1];
      var s := Run(policies, start, front);
      StaysInWindow(p, w, policies, start, front);
      RunsStayWell(policies, start, front);
      BelowStep(ms, p, w, policies, s, ev);
      BelowCrossingsWait(ms, p, w, policies, start, front);
    }
  }

  /** The last moment of a run at which the spend is below the thresholds of all these meters. */
  ghost function LastBelow(ms: set<Meter>, p: Policy, w: C.Window, policies: seq<Policy>, start: System,
          run: seq<Event>): (k: Option<nat>)
    requires start.now.Valid()
    ensures k.Some? ==> k.value <= |run|
  {
    if !Passed(ms, p, w, Run(policies, start, run)) then Some(|run|)
    else if run == [] then None
    else LastBelow(ms, p, w, policies, start, run[..|run| - 1])
  }

  /** The calls that at that moment have settled, have not recorded, and alone reach
      the thresholds with the rows they saw. */
  ghost function WaitingAtLast(ms: set<Meter>, p: Policy, w: C.Window, policies: seq<Policy>, start: System,
          run: seq<Event>): nat
    requires start.now.Valid()
  {
    var k := LastBelow(ms, p, w, policies, start, run);
    if k.None? then 0 else Waiting(ms, p, w, Run(policies, start, run[..k.value]))
  }

  lemma {:induction false} LastBelowIs(ms: set<Meter>, p: Policy, w: C.Window, policies: seq<Policy>, start: System,
          run: seq<Event>)
    requires start.now.Valid()
    ensures match LastBelow(ms, p, w, policies, start, run)
            case Some(k) =>
              && !Passed(ms, p, w, Run(policies, start, run[..k]))
              && forall j :: k < j <= |run| ==> Passed(ms, p, w, Run(policies, start, run[..j]))
            case None => forall j :: 0 <= j <= |run| ==> Passed(ms, p, w, Run(policies, start, run[..j]))
  {
    hide Passed, Run;
    assert run[..|run|] == run;
    if Passed(ms, p, w, Run(policies, start, run)) && run != [] {
      var front := run[..|run| - 1];
      LastBelowIs(ms, p, w, policies, start, front);
      assert forall j :: 0 <= j <= |front| ==> front[..j] == run[..j];
    }
  }

  /** Over any run of overlapping calls in one window, there are exactly as many
      crossings as calls that wait at the last moment below the thresholds; with
      more than one meter, crossings of all of them at once. */
  lemma {:induction false} CrossingsAre(ms: set<Meter>, p: Policy, w: C.Window, policies: seq<Policy>, start: System,
          run: seq<Event>)
    requires ms != {} && start.inflight == [] && InWindow(p, w, start, run)
    ensures Crossings(ms, p, w, policies, start, run) == WaitingAtLast(ms, p, w, policies, start, run)
  {
    hide Passed, Step, CrossesAt, Waiting, C.Instant, C.PeriodWindow;
    if !Passed(ms, p, w, Run(policies, start, run)) {
      BelowCrossingsWait(ms, p, w, policies, start, run);
      assert run[..|run|] == run;
    } else if run != [] {
      var front, ev := run[..|run| - 1], run[|run| - 1];
      var s, k := Run(policies, start, front), LastBelow(ms, p, w, policies, start, front);
      CrossingsAre(ms, p, w, policies, start, front);
      if k.Some? { assert front[..k.value] == run[..k.value]; }
      if Passed(ms, p, w, s) {
        NoCrossingOncePassed(ms, p, w, s, ev);
      } else {
        SameRowsPass(ms, p, w, policies, s, ev);
        CrossingSettles(ms, p, w, s, ev);
      }
    }
  }

  lemma CrossingSettles(ms: set<Meter>, p: Policy, w: C.Window, s: System, ev: Event)
    ensures CrossesAt(ms, p, w, s, ev) ==> ev.Finish?
  {}

  /** So overlapping calls of K workers cross at most K times. */
  lemma {:induction false} CrossingsAtMostWorkers(ms: set<Meter>, p: Policy, w: C.Window, policies: seq<Policy>,
          start: System, run: seq<Event>, workers: nat)
    requires ms != {} && start.inflight == [] && InWindow(p, w, start, run)
    requires forall ev :: ev in run && ev.Begin? ==> ev.who < workers
    ensures Crossings(ms, p, w, policies, start, run) <= workers
  {
    hide Passed, Crossings, Step, Run, C.Instant, C.PeriodWindow, Alone, LastBelow;
    CrossingsAre(ms, p, w, policies, start, run);
    var k := LastBelow(ms, p, w, policies, start, run);
    if k.Some? {
      forall ev | ev in run[..k.value] && ev.Begin? ensures ev.who < workers { assert ev in run; }
      WorkersOverRun(policies, start, run[..k.value], workers);
      var s := Run(policies, start, run[..k.value]);
      AtMostOneEach(s.inflight, workers);
      CountAtMostLength(s.inflight, Alone(ms, p, w, s.rows));
    }
  }

  lemma {:induction false} WorkersOverRun(policies: seq<Policy>, start: System, run: seq<Event>, workers: nat)
    requires start.now.Valid() && start.inflight == []
    requires forall ev :: ev in run && ev.Begin? ==> ev.who < workers
    ensures OnePerWorker(Run(policies, start, run).inflight, workers)
  {
    hide Step;
    if run != [] {
      assert run[|run| - 1] in run;
      WorkersOverRun(policies, start, run[..|run| - 1], workers);
      WorkersStep(policies, Run(policies, start, run[..|run| - 1]), run[|run| - 1], workers);
    }
  }

  // ---- One settlement at a time --------------------------------------------------------------------------

  /** No call settles while another has settled and not recorded. */
  ghost predicate OneAtATime(policies: seq<Policy>, start: System, run: seq<Event>)
    requires start.now.Valid()
  {
    run != [] ==>
      var s := Run(policies, start, run[..|run| - 1]);
      && OneAtATime(policies, start, run[..|run| - 1])
      && (Settles(s, run[|run| - 1]) ==> forall i :: 0 <= i < |s.inflight| ==> s.inflight[i].paid.None?)
  }

  /** At most one call has settled and not recorded, and the spend has not moved since it settled. */
  ghost predicate Unmoved(m: Meter, p: Policy, w: C.Window, s: System) {
    && (forall i, j :: 0 <= i < j < |s.inflight| ==> s.inflight[i].paid.None? || s.inflight[j].paid.None?)
    && (forall i :: 0 <= i < |s.inflight| && s.inflight[i].paid.Some? ==>
          && s.inflight[i].paid.value.seen <= |s.rows|
          && Spent(m, p, w, s.rows[..s.inflight[i].paid.value.seen]) == Spent(m, p, w, s.rows))
  }

  lemma {:induction false} UnmovedSettle(m: Meter, p: Policy, w: C.Window, policies: seq<Policy>, s: System, i: nat,
          actual: Usage)
    requires s.now.Valid() && i < |s.inflight| && forall j :: 0 <= j < |s.inflight| ==> s.inflight[j].paid.None?
    ensures Unmoved(m, p, w, SettleAt(policies, s, i, actual))
  {
    hide Spent, SettleRows;
    assert s.rows[..|s.rows|] == s.rows;
  }

  lemma {:induction false} UnmovedRecord(m: Meter, p: Policy, w: C.Window, s: System, i: nat,
          deployment: Option<string>)
    requires s.now.Valid() && i < |s.inflight| && Unmoved(m, p, w, s)
    ensures Unmoved(m, p, w, RecordAt(s, i, deployment))
  {
    hide Spent, C.Instant;
  }

  lemma {:induction false} UnmovedBegin(m: Meter, p: Policy, w: C.Window, policies: seq<Policy>, s: System, ev: Event)
    requires s.now.Valid() && ev.Begin? && Unmoved(m, p, w, s)
    ensures Unmoved(m, p, w, Step(policies, s, ev))
  {
    hide Spent, Applicable;
  }

  lemma {:induction false} UnmovedLeave(m: Meter, p: Policy, w: C.Window, s: System, i: nat)
    requires i < |s.inflight| && Unmoved(m, p, w, s)
    ensures Unmoved(m, p, w, s.(inflight := Leave(s, i)))
  {
    hide Spent;
  }

  lemma {:induction false} UnmovedCheck(m: Meter, p: Policy, w: C.Window, policies: seq<Policy>, s: System, i: nat)
    requires s.now.Valid() && i < |s.inflight| && Well(policies, s) && Unmoved(m, p, w, s)
    ensures Unmoved(m, p, w, CheckAt(s, i))
  {
    hide Spent, Denial, Applicable, C.PeriodWindow;
    UnmovedLeave(m, p, w, s, i);
    assert CallWell(policies, s.rows, s.inflight[i]);
  }

  lemma {:induction false} UnmovedNote(m: Meter, p: Policy, w: C.Window, policies: seq<Policy>, s: System,
          row: UsageRow)
    requires s.now.Valid() && Unmoved(m, p, w, s)
    ensures Unmoved(m, p, w, Step(policies, s, Note(row)))
  {
    hide Spent, C.Instant;
    SpentAppend(m, p, w, s.rows, row);
    forall i | 0 <= i < |s.inflight| && s.inflight[i].paid.Some?
      ensures (s.rows + [row])[..s.inflight[i].paid.value.seen] == s.rows[..s.inflight[i].paid.value.seen]
    {}
  }

  lemma {:induction false} UnmovedStep(m: Meter, p: Policy, w: C.Window, policies: seq<Policy>, s: System, ev: Event)
    requires s.now.Valid() && Well(policies, s) && Unmoved(m, p, w, s)
    requires Settles(s, ev) ==> forall i :: 0 <= i < |s.inflight| ==> s.inflight[i].paid.None?
    ensures Unmoved(m, p, w, Step(policies, s, ev))
  {
    hide Spent, C.Instant, C.PeriodWindow, Denial, Applicable, SettleAt, RecordAt, CheckAt, Unmoved, Settles;
    match ev {
      case Begin(_, _, _, _) => UnmovedBegin(m, p, w, policies, s, ev);
      case Check(who) =>
        if Where(s.inflight, who).Some? { UnmovedCheck(m, p, w, policies, s, Where(s.inflight, who).value); }
      case Finish(who, actual) =>
        SettlesOrNot(policies, s, ev);
        if Settles(s, ev) { UnmovedSettle(m, p, w, policies, s, Where(s.inflight, who).value, actual); }
      case Record(who, deployment) =>
        if Where(s.inflight, who).Some? { UnmovedRecord(m, p, w, s, Where(s.inflight, who).value, deployment); }
      case Drop(who) =>
        if Where(s.inflight, who).Some? { UnmovedLeave(m, p, w, s, Where(s.inflight, who).value); }
      case Note(row) => UnmovedNote(m, p, w, policies, s, row);
      case Tick(to) => UnmovedTick(m, p, w, s, Step(policies, s, ev));
    }
  }

  lemma UnmovedTick(m: Meter, p: Policy, w: C.Window, s: System, t: System)
    requires s.rows == t.rows && s.inflight == t.inflight && Unmoved(m, p, w, s)
    ensures Unmoved(m, p, w, t)
  {}

  lemma SettlesOrNot(policies: seq<Policy>, s: System, ev: Event)
    requires s.now.Valid() && ev.Finish?
    ensures Settles(s, ev) ==> Where(s.inflight, ev.who).Some?
    ensures !Settles(s, ev) ==> Step(policies, s, ev) == s
  {
    hide SettleRows;
  }

  lemma {:induction false} UnmovedRun(m: Meter, p: Policy, w: C.Window, policies: seq<Policy>, start: System,
          run: seq<Event>)
    requires start.now.Valid() && start.inflight == [] && OneAtATime(policies, start, run)
    ensures Unmoved(m, p, w, Run(policies, start, run))
  {
    hide Unmoved, Step, Settles;
    if run == [] {
      NothingMoved(m, p, w, start);
    } else {
      UnmovedRun(m, p, w, policies, start, run[..|run| - 1]);
      RunsStayWell(policies, start, run[..|run| - 1]);
      UnmovedStep(m, p, w, policies, Run(policies, start, run[..|run| - 1]), run[|run| - 1]);
    }
  }

  lemma NothingMoved(m: Meter, p: Policy, w: C.Window, s: System)
    requires s.inflight == []
    ensures Unmoved(m, p, w, s)
  {}

  lemma {:induction false} OneAtATimePrefix(policies: seq<Policy>, start: System, run: seq<Event>, k: nat)
    requires start.now.Valid() && OneAtATime(policies, start, run) && k <= |run|
    ensures OneAtATime(policies, start, run[..k])
    decreases |run|
  {
    hide Run, Settles;
    if k == |run| {
      assert run[..k] == run;
    } else {
      assert run[..|run| - 1][..k] == run[..k];
      OneAtATimePrefix(policies, start, run[..|run| - 1], k);
    }
  }

  /** If the one settled call takes the spend past the threshold by recording, it is
      the one call that waits. */
  lemma {:induction false} TheOneWaits(m: Meter, p: Policy, w: C.Window, policies: seq<Policy>, s: System, ev: Event)
    requires s.now.Valid() && Well(policies, s) && Unmoved(m, p, w, s)
    requires !Passed({m}, p, w, s) && Passed({m}, p, w, Step(policies, s, ev))
    ensures Waiting({m}, p, w, s) == 1
  {
    hide Spent, Reached, C.Instant, C.PeriodWindow, Denial, Applicable, Applies, Measure, SettleRows, Count;
    SameRowsPass({m}, p, w, policies, s, ev);
    if ev.Note? { NotingWaits({m}, p, w, policies, s, ev.row); }
    var i := Where(s.inflight, ev.who).value;
    var c := s.inflight[i];
    SpentAppend(m, p, w, s.rows, PaidRow(s, c, ev.deployment));
    RecordedCounts(m, p, w, s, c, ev.deployment);
    CountWithout(s.inflight, i, Alone({m}, p, w, s.rows));
    NoneWaits(m, p, w, Leave(s, i), s.rows);
  }

  lemma RecordedCounts(m: Meter, p: Policy, w: C.Window, s: System, c: Call, deployment: Option<string>)
    requires s.now.Valid() && c.paid.Some? && Counted(p, w, PaidRow(s, c, deployment))
    ensures Applies(p, c.ctx)
  {}

  lemma {:induction false} NoneWaits(m: Meter, p: Policy, w: C.Window, calls: seq<Call>, rows: seq<UsageRow>)
    requires forall i :: 0 <= i < |calls| ==> calls[i].paid.None?
    ensures Count(calls, Alone({m}, p, w, rows)) == 0
  {
    if calls != [] { NoneWaits(m, p, w, calls[..|calls| - 1], rows); }
  }

  /** As long as calls settle and record one at a time, however else they overlap, a
      meter that passes its threshold crosses it exactly once. */
  lemma {:induction false} OneAtATimeCrossesOnce(m: Meter, p: Policy, w: C.Window, policies: seq<Policy>,
          start: System, run: seq<Event>)
    requires start.inflight == [] && InWindow(p, w, start, run) && !Passed({m}, p, w, start)
    requires OneAtATime(policies, start, run)
    ensures var end := Run(policies, start, run);
            Crossings({m}, p, w, policies, start, run) == if Passed({m}, p, w, end) then 1 else Waiting({m}, p, w, end)
  {
    hide Passed, Step, Waiting, Crossings, Unmoved, Well, C.Instant, C.PeriodWindow;
    CrossingsAre({m}, p, w, policies, start, run);
    LastBelowIs({m}, p, w, policies, start, run);
    assert run[..0] == [] && run[..|run|] == run;
    var k := LastBelow({m}, p, w, policies, start, run).value;
    if k < |run| {
      assert run[..k + 1][..k] == run[..k];
      OneAtATimePrefix(policies, start, run, k);
      UnmovedRun(m, p, w, policies, start, run[..k]);
      EmptyIsWell(policies, start);
      RunsStayWell(policies, start, run[..k]);
      TheOneWaits(m, p, w, policies, Run(policies, start, run[..k]), run[k]);
    }
  }

  // ---- Alert rows ------------------------------------------------------------------------------------------

  /** A step writes one alert row for a soft policy if a call crosses on either
      meter, and none otherwise. */
  lemma {:induction false} AlertStep(p: Policy, w: C.Window, policies: seq<Policy>, s: System, ev: Event)
    requires Within(p, w, s.now) && Well(policies, s) && DistinctIds(policies) && p in policies && !p.hard
    ensures AlertRows(p.id, Step(policies, s, ev).ledger) ==
            AlertRows(p.id, s.ledger) +
            (if CrossesAt({Money}, p, w, s, ev) || CrossesAt({Tokens}, p, w, s, ev) then 1 else 0)
  {
    hide C.Instant, C.PeriodWindow, Denial, SettleRows, AlertRows, Applies, Crosses, Spent, DistinctIds, Applicable;
    if Settles(s, ev) {
      var i := Where(s.inflight, ev.who).value;
      var c := s.inflight[i];
      assert CallWell(policies, s.rows, c);
      var r := ReservationOf(c);
      CallAlerts(policies, s.rows, r, ev.actual, c.ctx, s.now, p);
      AlertRowsConcat(p.id, s.ledger, SettleRows(policies, s.rows, r, ev.actual, c.ctx, s.now, |c.policies|));
    }
  }

  const BOTH: set<Meter> := {Money, Tokens}

  lemma BothAtOnce(p: Policy, w: C.Window, s: System, ev: Event)
    ensures CrossesAt(BOTH, p, w, s, ev) <==> CrossesAt({Money}, p, w, s, ev) && CrossesAt({Tokens}, p, w, s, ev)
  {
    hide Crosses, Spent, Applies;
  }

  /** The alert rows a run adds for a soft policy: the crossings of its meters, those
      of both at once counted once. */
  lemma {:induction false} AlertsAreCrossings(p: Policy, w: C.Window, policies: seq<Policy>, start: System,
          run: seq<Event>)
    requires start.inflight == [] && InWindow(p, w, start, run)
    requires DistinctIds(policies) && p in policies && !p.hard
    ensures AlertRows(p.id, Run(policies, start, run).ledger) - AlertRows(p.id, start.ledger) ==
            Crossings({Money}, p, w, policies, start, run) + Crossings({Tokens}, p, w, policies, start, run)
            - Crossings(BOTH, p, w, policies, start, run)
  {
    hide Step, CrossesAt, AlertRows, DistinctIds, C.Instant, C.PeriodWindow, Well;
    if run != [] {
      var front := run[..|run| - 1];
      AlertsAreCrossings(p, w, policies, start, front);
      StaysInWindow(p, w, policies, start, front);
      EmptyIsWell(policies, start);
      RunsStayWell(policies, start, front);
      AlertStep(p, w, policies, Run(policies, start, front), run[|run| - 1]);
      BothAtOnce(p, w, Run(policies, start, front), run[|run| - 1]);
    }
  }

  lemma EmptyIsWell(policies: seq<Policy>, s: System)
    ensures s.inflight == [] ==> Well(policies, s)
  {}

  lemma {:induction false} NoLimitNoCrossing(ms: set<Meter>, m: Meter, p: Policy, w: C.Window, policies: seq<Policy>,
          start: System, run: seq<Event>)
    requires start.now.Valid() && m in ms && LimitOn(m, p).None?
    ensures Crossings(ms, p, w, policies, start, run) == 0
  {
    hide Run;
    if run != [] { NoLimitNoCrossing(ms, m, p, w, policies, start, run[..|run| - 1]); }
  }

  lemma NoLimitNoTest(m: Meter, p: Policy, before: nat, actual: Usage)
    requires LimitOn(m, p).None?
    ensures !Crosses(m, p, before, actual)
  {}

  function Other(m: Meter): Meter { if m.Money? then Tokens else Money }

  /** How many alerts a soft policy gets over any interleaving in one window: as many
      as calls that wait at the last moment below the threshold of the money, and of
      the tokens, those counted once that reach both alone while it is below both. */
  lemma {:induction false} AlertsUnderOverlap(p: Policy, w: C.Window, policies: seq<Policy>, start: System,
          run: seq<Event>)
    requires start.inflight == [] && InWindow(p, w, start, run)
    requires DistinctIds(policies) && p in policies && !p.hard
    ensures AlertRows(p.id, Run(policies, start, run).ledger) - AlertRows(p.id, start.ledger) ==
            WaitingAtLast({Money}, p, w, policies, start, run) + WaitingAtLast({Tokens}, p, w, policies, start, run)
            - WaitingAtLast(BOTH, p, w, policies, start, run)
  {
    hide WaitingAtLast, Run, Crossings, AlertRows, DistinctIds, InWindow;
    AlertsAreCrossings(p, w, policies, start, run);
    CrossingsAre({Money}, p, w, policies, start, run);
    CrossingsAre({Tokens}, p, w, policies, start, run);
    CrossingsAre(BOTH, p, w, policies, start, run);
  }

  /** A policy that limits one meter is alerted as often as calls wait on that one. */
  lemma {:induction false} AlertsOfOneLimit(m: Meter, p: Policy, w: C.Window, policies: seq<Policy>, start: System,
          run: seq<Event>)
    requires start.inflight == [] && InWindow(p, w, start, run) && LimitOn(Other(m), p).None?
    requires DistinctIds(policies) && p in policies && !p.hard
    ensures AlertRows(p.id, Run(policies, start, run).ledger) - AlertRows(p.id, start.ledger) ==
            WaitingAtLast({m}, p, w, policies, start, run)
  {
    hide WaitingAtLast, Run, Crossings, AlertRows, DistinctIds;
    AlertsAreCrossings(p, w, policies, start, run);
    CrossingsAre({m}, p, w, policies, start, run);
    NoLimitNoCrossing({Other(m)}, Other(m), p, w, policies, start, run);
    NoLimitNoCrossing(BOTH, Other(m), p, w, policies, start, run);
  }

  // ---- Two calls that overlap -----------------------------------------------------------------------------

  /** A worker begins a call and checks the one policy there is. */
  function Reserves(k: nat, ctx: Context, estimate: Usage): seq<Event> { [Begin(k, k, ctx, estimate), Check(k)] }

  /** Two calls reserve, then both settle, then both record. */
  function TwoOverlapping(ctx: Context, estimate: Usage, a: Usage, b: Usage): seq<Event> {
    (Reserves(0, ctx, estimate) + Reserves(1, ctx, estimate)) +
    ([Finish(0, a), Finish(1, b)] + [Record(0, None), Record(1, None)])
  }

  function Ready(k: nat, p: Policy, ctx: Context, estimate: Usage): Call { Call(k, k, ctx, estimate, [p], 1, None) }

  lemma {:induction false} BeginsAndPasses(p: Policy, ctx: Context, estimate: Usage, s: System, k: nat)
    requires s.now.Valid() && Applies(p, ctx) && !p.hard && Where(s.inflight, k).None?
    ensures Run([p], s, Reserves(k, ctx, estimate)) == s.(inflight := s.inflight + [Ready(k, p, ctx, estimate)])
  {
    hide C.Instant, C.PeriodWindow, Denial, Applies, Run;
    RunPair([p], s, Begin(k, k, ctx, estimate), Check(k));
    assert [p][..0] == [] && Applicable([p], ctx) == [] + [p] == [p];
    var c := Ready(k, p, ctx, estimate).(next := 0);
    var calls := s.inflight + [c];
    assert calls[..|s.inflight|] == s.inflight;
    assert calls[|s.inflight| := c.(next := 1)] == s.inflight + [c.(next := 1)];
  }

  lemma TwoWorkers(zero: Call, one: Call)
    requires zero.who == 0 && one.who == 1
    ensures Where([zero], 0) == Some(0) && Where([zero], 1) == None && Where([one], 1) == Some(0)
    ensures Where([zero, one], 0) == Some(0) && Where([zero, one], 1) == Some(1)
  {
    assert [zero][..0] == [] && [one][..0] == [] && [zero, one][..1] == [zero];
  }

  /** Both settle on the same rows ... */
  lemma {:induction false} BothSettle(p: Policy, s: System, zero: Call, one: Call, a: Usage, b: Usage)
    requires s.now.Valid() && s.inflight == [zero, one] && zero.who == 0 && one.who == 1
    requires zero.policies == one.policies == [p] && zero.next == one.next == 1 && zero.paid == one.paid == None
    ensures Run([p], s, [Finish(0, a), Finish(1, b)]) ==
            s.(ledger := s.ledger + SettleRows([p], s.rows, ReservationOf(zero), a, zero.ctx, s.now, 1) +
                         SettleRows([p], s.rows, ReservationOf(one), b, one.ctx, s.now, 1),
               inflight := [zero.(paid := Some(Paid(a, |s.rows|))), one.(paid := Some(Paid(b, |s.rows|)))])
  {
    hide C.Instant, C.PeriodWindow, SettleRows, Run, Scopes;
    RunPair([p], s, Finish(0, a), Finish(1, b));
    var zeroPaid, onePaid := zero.(paid := Some(Paid(a, |s.rows|))), one.(paid := Some(Paid(b, |s.rows|)));
    TwoWorkers(zero, one);
    TwoWorkers(zeroPaid, one);
    assert [zero, one][0 := zeroPaid] == [zeroPaid, one] && [zeroPaid, one][1 := onePaid] == [zeroPaid, onePaid];
  }

  /** ... and record one after the other. */
  lemma {:induction false} BothRecord(p: Policy, s: System, zero: Call, one: Call)
    requires s.now.Valid() && s.inflight == [zero, one] && zero.who == 0 && one.who == 1
    requires zero.paid.Some? && one.paid.Some?
    ensures Run([p], s, [Record(0, None), Record(1, None)]) ==
            s.(rows := s.rows + [PaidRow(s, zero, None)] + [PaidRow(s, one, None)], inflight := [])
  {
    hide C.Instant, Run;
    RunPair([p], s, Record(0, None), Record(1, None));
    TwoWorkers(zero, one);
    assert [zero, one][..0] + [zero, one][1..] == [one] && [one][..0] + [one][1..] == [];
  }

  /** What the two calls leave for a soft policy that is the only one. */
  lemma {:induction false} TwoOverlappingRun(p: Policy, ctx: Context, estimate: Usage, a: Usage, b: Usage,
          start: System)
    requires start.now.Valid() && start.inflight == [] && Applies(p, ctx) && !p.hard
    ensures var zero, one := Ready(0, p, ctx, estimate), Ready(1, p, ctx, estimate);
            Run([p], start, TwoOverlapping(ctx, estimate, a, b)) ==
            System(start.rows + [UsageRow(ctx, Success, a, None, C.Instant(start.now))] +
                   [UsageRow(ctx, Success, b, None, C.Instant(start.now))],
                   start.ledger + SettleRows([p], start.rows, ReservationOf(zero), a, ctx, start.now, 1) +
                   SettleRows([p], start.rows, ReservationOf(one), b, ctx, start.now, 1),
                   [], start.now)
  {
    hide Step, Run, SettleRows, Applies, Scopes, C.Instant;
    var zero, one := Ready(0, p, ctx, estimate), Ready(1, p, ctx, estimate);
    var first, second := Reserves(0, ctx, estimate), Reserves(1, ctx, estimate);
    var settles, records := [Finish(0, a), Finish(1, b)], [Record(0, None), Record(1, None)];
    var reserved := start.(inflight := [zero, one]);
    BeginsAndPasses(p, ctx, estimate, start, 0);
    assert start.inflight + [zero] == [zero] && [zero] + [one] == [zero, one];
    TwoWorkers(zero, one);
    BeginsAndPasses(p, ctx, estimate, start.(inflight := [zero]), 1);
    RunConcat([p], start, first, second);
    RunConcat([p], start, first + second, settles + records);
    RunConcat([p], reserved, settles, records);
    BothSettle(p, reserved, zero, one, a, b);
    BothRecord(p, Run([p], reserved, settles), zero.(paid := Some(Paid(a, |start.rows|))),
               one.(paid := Some(Paid(b, |start.rows|))));
  }

  /** Two overlapping calls, from any spend below the threshold, write an alert row
      for each of them that alone reaches it, whatever they reach together. */
  lemma {:induction false} TwoOverlappingAlerts(m: Meter, p: Policy, ctx: Context, estimate: Usage, a: Usage,
          b: Usage, start: System)
    requires start.now.Valid() && start.inflight == [] && Applies(p, ctx) && !p.hard && !p.period.Custom?
    requires LimitOn(Other(m), p).None?
    requires !Reached(m, p, Spent(m, p, C.PeriodWindow(p.period, start.now), start.rows))
    ensures var w := C.PeriodWindow(p.period, start.now);
            var end := Run([p], start, TwoOverlapping(ctx, estimate, a, b));
            var before := Spent(m, p, w, start.rows);
            && Spent(m, p, w, end.rows) == before + Measure(m, a) + Measure(m, b)
            && AlertRows(p.id, end.ledger) - AlertRows(p.id, start.ledger) ==
               (if Reached(m, p, before + Measure(m, a)) then 1 else 0) +
               (if Reached(m, p, before + Measure(m, b)) then 1 else 0)
  {
    hide C.Instant, C.PeriodWindow, Spent, SettleRows, AlertRows, Run, Reached, Applies, Crosses, Measure, LimitOn;
    var w := C.PeriodWindow(p.period, start.now);
    var before := Spent(m, p, w, start.rows);
    var rowA := UsageRow(ctx, Success, a, None, C.Instant(start.now));
    var rowB := rowA.(usage := b);
    TwoOverlappingRun(p, ctx, estimate, a, b, start);
    C.WindowContainsNow(p.period, start.now);
    SpentAppend(m, p, w, start.rows, rowA);
    SpentAppend(m, p, w, start.rows + [rowA], rowB);
    assert [p][..0] == [] && Applicable([p], ctx) == [] + [p] == [p];
    var zero, one := ReservationOf(Ready(0, p, ctx, estimate)), ReservationOf(Ready(1, p, ctx, estimate));
    CallAlerts([p], start.rows, zero, a, ctx, start.now, p);
    CallAlerts([p], start.rows, one, b, ctx, start.now, p);
    var settledA := SettleRows([p], start.rows, zero, a, ctx, start.now, 1);
    var settledB := SettleRows([p], start.rows, one, b, ctx, start.now, 1);
    AlertRowsConcat(p.id, start.ledger, settledA);
    AlertRowsConcat(p.id, start.ledger + settledA, settledB);
    CrossingIsReaching(m, p, before, a);
    CrossingIsReaching(m, p, before, b);
    NoLimitNoTest(Other(m), p, Spent(Other(m), p, w, start.rows), a);
    NoLimitNoTest(Other(m), p, Spent(Other(m), p, w, start.rows), b);
  }

  /** The threshold is passed and nobody is told: two calls of half the limit each. */
  lemma {:induction false} OverlapCanMissTheAlert(p: Policy, ctx: Context, estimate: Usage, now: C.Moment)
    requires now.Valid() && Applies(p, ctx) && !p.hard && !p.period.Custom?
    requires p.amountMicros == 100 && p.alertPct == 80 && p.tokenLimit.None?
    ensures var start, half := System([], [], [], now), Usage(0, 0, 0, 50);
            var end := Run([p], start, TwoOverlapping(ctx, estimate, half, half));
            && !Passed({Money}, p, C.PeriodWindow(p.period, now), start)
            && Passed({Money}, p, C.PeriodWindow(p.period, now), end) && AlertRows(p.id, end.ledger) == 0
  {
    hide C.Instant, C.PeriodWindow, Run, Applies;
    TwoOverlappingAlerts(Money, p, ctx, estimate, Usage(0, 0, 0, 50), Usage(0, 0, 0, 50), System([], [], [], now));
  }

  /** The threshold is passed once and reported twice. */
  lemma {:induction false} OverlapCanRepeatTheAlert(p: Policy, ctx: Context, estimate: Usage, now: C.Moment)
    requires now.Valid() && Applies(p, ctx) && !p.hard && !p.period.Custom?
    requires p.amountMicros == 100 && p.alertPct == 80 && p.tokenLimit.None?
    ensures var start, most := System([], [], [], now), Usage(0, 0, 0, 90);
            var end := Run([p], start, TwoOverlapping(ctx, estimate, most, most));
            !Passed({Money}, p, C.PeriodWindow(p.period, now), start) && AlertRows(p.id, end.ledger) == 2
  {
    hide C.Instant, C.PeriodWindow, Run, Applies;
    TwoOverlappingAlerts(Money, p, ctx, estimate, Usage(0, 0, 0, 90), Usage(0, 0, 0, 90), System([], [], [], now));
  }
}
