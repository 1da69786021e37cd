/** How far spend can pass a hard limit, over every interleaving of the steps of
    `CallMachine` (backend/app/llm/budget.py with backend/app/llm/gateway.py and
    backend/app/llm/usage.py). */
module Overspend {
  import opened Basics
  import opened Pricing
  import opened Budget
  import opened CallMachine
  import C = Calendar

  /** The load on one meter: K workers, no estimate above E, no call above its own
      estimate by more than D. */
  datatype Load = Load(K: nat, E: nat, D: nat)

  ghost predicate Allowed(m: Meter, load: Load, s: System, ev: Event) {
    && (ev.Begin? ==> ev.who < load.K && Measure(m, ev.estimate) <= load.E)
    && (ev.Finish? && Where(s.inflight, ev.who).Some? ==>
          Measure(m, ev.actual) <= Measure(m, s.inflight[Where(s.inflight, ev.who).value].estimate) + load.D)
  }

  ghost predicate WithinLoad(m: Meter, load: Load, policies: seq<Policy>, start: System, run: seq<Event>)
    requires start.now.Valid()
  {
    run != [] ==>
      && WithinLoad(m, load, policies, start, run[..|run| - 1])
      && Allowed(m, load, Run(policies, start, run[..|run| - 1]), run[|run| - 1])
  }

  /** Before the run: nothing in flight, no row from the future. */
  ghost predicate Quiet(start: System) {
    && start.now.Valid()
    && start.inflight == []
    && forall r :: r in start.rows ==> r.createdAt <= C.Instant(start.now)
  }

  function SpentNow(m: Meter, p: Policy, s: System): nat
    requires s.now.Valid()
  {
    Spent(m, p, C.PeriodWindow(p.period, s.now), s.rows)
  }

  /** The limit, and what the calls in flight can add to it: none can be approved for
      more than the limit itself. */
  function Bound(limit: nat, load: Load): int { limit + load.K * load.D + (load.K - 1) * Min(load.E, limit) }

  // ---- The invariant ------------------------------------------------------------------

  predicate Passed(c: Call, p: Policy) { c.next <= |c.policies| && p in c.policies[..c.next] }

  /** What a call that has passed the policy's check may still add to its spend. */
  function Pending(m: Meter, p: Policy, d: nat): Call -> int {
    (c: Call) => if Passed(c, p) then Measure(m, c.estimate) + d else 0
  }

  function Exposure(m: Meter, p: Policy, d: nat, calls: seq<Call>): int { SumOf(calls, Pending(m, p, d)) }

  ghost predicate CallFits(m: Meter, policies: seq<Policy>, p: Policy, limit: nat, load: Load, c: Call) {
    && c.policies == Applicable(policies, c.ctx) && c.next <= |c.policies|
    && Measure(m, c.estimate) <= load.E
    && (Passed(c, p) ==> Measure(m, c.estimate) <= limit)
    && (c.paid.Some? ==> c.next == |c.policies| && Measure(m, c.paid.value.usage) <= Measure(m, c.estimate) + load.D)
  }

  ghost predicate Inv(m: Meter, policies: seq<Policy>, p: Policy, limit: nat, load: Load, s: System) {
    && s.now.Valid()
    && OnePerWorker(s.inflight, load.K)
    && (forall r :: r in s.rows ==> r.createdAt <= C.Instant(s.now))
    && (forall c :: c in s.inflight ==> CallFits(m, policies, p, limit, load, c))
    && SpentNow(m, p, s) + Exposure(m, p, load.D, s.inflight) <= Bound(limit, load)
  }

  lemma {:induction false} SpentNothing(m: Meter, p: Policy, w: C.Window, rows: seq<UsageRow>)
    requires forall r :: r in rows ==> r.createdAt < w.start
    ensures Spent(m, p, w, rows) == 0
  {
    if rows != [] {
      assert rows[|rows| - 1] in rows;
      SpentNothing(m, p, w, rows[..|rows| - 1]);
    }
  }

  /** Calls in flight each expose at most `each`. */
  lemma {:induction false} ExposureAtMost(m: Meter, p: Policy, d: nat, calls: seq<Call>, each: nat)
    requires forall c :: c in calls && Passed(c, p) ==> Measure(m, c.estimate) + d <= each
    ensures 0 <= Exposure(m, p, d, calls) <= each * |calls|
  {
    SumBounds(calls, Pending(m, p, d), 0, each);
  }

  lemma TimesGrows(a: nat, b: nat, k: nat)
    requires a <= b
    ensures k * a <= k * b && a * k <= b * k
  {}

  /** A call that passes the policy's check moves on with room for its estimate. */
  lemma {:induction false} PassingKeeps(m: Meter, policies: seq<Policy>, p: Policy, limit: nat, load: Load, s: System,
          i: nat)
    requires Inv(m, policies, p, limit, load, s)
    requires i < |s.inflight| && s.inflight[i].next < |s.inflight[i].policies|
    requires var c := s.inflight[i]; c.policies[c.next] == p ==> SpentNow(m, p, s) + Measure(m, c.estimate) <= limit
    ensures var c := s.inflight[i];
            Inv(m, policies, p, limit, load, s.(inflight := s.inflight[i := c.(next := c.next + 1)]))
  {
    hide Spent, Measure, Applicable, C.PeriodWindow, C.Instant;
    var c := s.inflight[i];
    var c' := c.(next := c.next + 1);
    assert c in s.inflight;
    SumUpdate(s.inflight, i, c', Pending(m, p, load.D));
    assert c.policies[..c'.next] == c.policies[..c.next] + [c.policies[c.next]];
    AtMostOneEach(s.inflight, load.K);
    OthersExposure(m, policies, p, limit, load, s, i);
  }

  lemma {:induction false} CheckKeeps(m: Meter, policies: seq<Policy>, p: Policy, limit: nat, load: Load, s: System,
          i: nat)
    requires Inv(m, policies, p, limit, load, s) && i < |s.inflight|
    requires p.hard && LimitOn(m, p) == Some(limit)
    ensures Inv(m, policies, p, limit, load, CheckAt(s, i))
  {
    hide C.PeriodWindow, C.Instant, Denial, Exposure;
    var c := s.inflight[i];
    if c.next < |c.policies| {
      var q := c.policies[c.next];
      assert c in s.inflight;
      if q.hard && Denial(q, c.ctx, C.PeriodWindow(q.period, s.now), s.rows, c.estimate).Some? {
        LeavingKeeps(m, policies, p, limit, load, s, i);
      } else {
        if q == p {
          ApplicableMembers(policies, c.ctx, p);
          NoDenialMeansRoom(p, c.ctx, C.PeriodWindow(p.period, s.now), s.rows, c.estimate);
        }
        PassingKeeps(m, policies, p, limit, load, s, i);
      }
    }
  }

  lemma OthersArithmetic(load: Load, each: nat, others: nat)
    requires load.K >= 1 && others <= load.K - 1
    ensures (each + load.D) * others + load.D <= load.K * load.D + (load.K - 1) * each
  {}

  /** What the calls other than one may add. */
  lemma {:induction false} OthersExposure(m: Meter, policies: seq<Policy>, p: Policy, limit: nat, load: Load,
          s: System, i: nat)
    requires |s.inflight| <= load.K && i < |s.inflight|
    requires forall c :: c in s.inflight ==> CallFits(m, policies, p, limit, load, c)
    ensures Exposure(m, p, load.D, s.inflight) - Pending(m, p, load.D)(s.inflight[i]) + load.D
            <= load.K * load.D + (load.K - 1) * Min(load.E, limit)
  {
    var others := Leave(s, i);
    SumWithout(s.inflight, i, Pending(m, p, load.D));
    forall c | c in others && Passed(c, p) ensures Measure(m, c.estimate) <= Min(load.E, limit) {
      assert c in s.inflight;
    }
    ExposureAtMost(m, p, load.D, others, Min(load.E, limit) + load.D);
    OthersArithmetic(load, Min(load.E, limit), |others|);
  }

  lemma {:induction false} SettleKeeps(m: Meter, policies: seq<Policy>, p: Policy, limit: nat, load: Load, s: System,
          i: nat, actual: Usage)
    requires Inv(m, policies, p, limit, load, s) && i < |s.inflight|
    requires Measure(m, actual) <= Measure(m, s.inflight[i].estimate) + load.D
    ensures Inv(m, policies, p, limit, load, SettleAt(policies, s, i, actual))
  {
    hide C.PeriodWindow, C.Instant, Spent, Applicable, Measure, SettleRows, Bound;
    var c := s.inflight[i];
    assert c in s.inflight;
    SumUpdate(s.inflight, i, c.(paid := Some(Paid(actual, |s.rows|))), Pending(m, p, load.D));
  }

  /** What a settled call will record is part of the exposure of the policy. */
  lemma PaidIsExposed(m: Meter, policies: seq<Policy>, p: Policy, limit: nat, load: Load, c: Call)
    requires CallFits(m, policies, p, limit, load, c) && c.paid.Some? && p in policies
    ensures (if Applies(p, c.ctx) then Measure(m, c.paid.value.usage) else 0) <= Pending(m, p, load.D)(c)
  {
    ApplicableMembers(policies, c.ctx, p);
    assert c.policies[..c.next] == c.policies;
  }

  lemma {:induction false} RecordKeeps(m: Meter, policies: seq<Policy>, p: Policy, limit: nat, load: Load, s: System,
          i: nat, deployment: Option<string>)
    requires Inv(m, policies, p, limit, load, s) && p in policies && i < |s.inflight|
    ensures Inv(m, policies, p, limit, load, RecordAt(s, i, deployment))
  {
    hide C.PeriodWindow, C.Instant, Spent, Applicable, Measure, OnePerWorker, CallFits, Pending, Bound, Applies;
    var c := s.inflight[i];
    if c.paid.Some? {
      assert c in s.inflight;
      PaidIsExposed(m, policies, p, limit, load, c);
      LeavingKeeps(m, policies, p, limit, load, s, i);
      SumWithout(s.inflight, i, Pending(m, p, load.D));
      SpentAppend(m, p, C.PeriodWindow(p.period, s.now), s.rows, PaidRow(s, c, deployment));
    }
  }

  lemma CustomWindowIsFixed(period: C.Period, now: C.Moment, to: C.Moment)
    requires now.Valid() && to.Valid()
    ensures period.Custom? ==> C.PeriodWindow(period, now) == C.PeriodWindow(period, to)
  {}

  /** In a window that has just begun, the calls in flight fit under the bound. */
  lemma FreshWindowArithmetic(load: Load, limit: nat, n: nat)
    requires load.K >= 1 && n <= load.K
    ensures (Min(load.E, limit) + load.D) * n <= Bound(limit, load)
  {
    var each := Min(load.E, limit) + load.D;
    TimesGrows(n, load.K, each);
    TimesGrows(Min(load.E, limit), load.E, load.K - 1);
    assert load.K * each == load.K * load.D + (load.K - 1) * Min(load.E, limit) + Min(load.E, limit);
  }

  lemma {:induction false} TickKeeps(m: Meter, policies: seq<Policy>, p: Policy, limit: nat, load: Load, s: System,
          to: C.Moment)
    requires Inv(m, policies, p, limit, load, s) && load.K >= 1
    ensures Inv(m, policies, p, limit, load, Step(policies, s, Tick(to)))
  {
    hide C.PeriodWindow, C.Instant, Spent, Exposure, Bound;
    if to.Valid() && C.Instant(s.now) <= C.Instant(to) {
      var before, after := C.PeriodWindow(p.period, s.now), C.PeriodWindow(p.period, to);
      CustomWindowIsFixed(p.period, s.now, to);
      if before != after {
        C.WindowsTile(p.period, s.now, to);
        C.WindowContainsNow(p.period, s.now);
        SpentNothing(m, p, after, s.rows);
        AtMostOneEach(s.inflight, load.K);
        ExposureAtMost(m, p, load.D, s.inflight, Min(load.E, limit) + load.D);
        FreshWindowArithmetic(load, limit, |s.inflight|);
      }
    }
  }

  lemma {:induction false} BeginKeeps(m: Meter, policies: seq<Policy>, p: Policy, limit: nat, load: Load, s: System,
          ev: Event)
    requires Inv(m, policies, p, limit, load, s)
    requires ev.Begin? && Allowed(m, load, s, ev)
    ensures Inv(m, policies, p, limit, load, Step(policies, s, ev))
  {
    hide C.PeriodWindow, C.Instant, Spent, Applicable, Measure, OnePerWorker, Bound, Matches;
    var c := Call(ev.who, ev.id, ev.ctx, ev.estimate, Applicable(policies, ev.ctx), 0, None);
    WorkersStep(policies, s, ev, load.K);
    assert (s.inflight + [c])[..|s.inflight|] == s.inflight;
  }

  lemma {:induction false} LeavingKeeps(m: Meter, policies: seq<Policy>, p: Policy, limit: nat, load: Load, s: System,
          i: nat)
    requires Inv(m, policies, p, limit, load, s) && i < |s.inflight|
    ensures Inv(m, policies, p, limit, load, s.(inflight := Leave(s, i)))
  {
    hide C.PeriodWindow, C.Instant, Spent, Bound, Pending, CallFits, OnePerWorker;
    SumWithout(s.inflight, i, Pending(m, p, load.D));
    PendingNotNegative(m, p, load.D, s.inflight[i]);
    OthersStay(s, i, load.K);
  }

  lemma PendingNotNegative(m: Meter, p: Policy, d: nat, c: Call)
    ensures Pending(m, p, d)(c) >= 0
  {}

  lemma {:induction false} NoteKeeps(m: Meter, policies: seq<Policy>, p: Policy, limit: nat, load: Load, s: System,
          row: UsageRow)
    requires Inv(m, policies, p, limit, load, s)
    ensures Inv(m, policies, p, limit, load, Step(policies, s, Note(row)))
  {
    hide C.PeriodWindow, C.Instant, Spent;
    SpentAppend(m, p, C.PeriodWindow(p.period, s.now), s.rows, row);
  }

  lemma {:induction false} StepKeeps(m: Meter, policies: seq<Policy>, p: Policy, limit: nat, load: Load, s: System,
          ev: Event)
    requires Inv(m, policies, p, limit, load, s) && load.K >= 1
    requires p in policies && p.hard && LimitOn(m, p) == Some(limit)
    requires Allowed(m, load, s, ev)
    ensures Inv(m, policies, p, limit, load, Step(policies, s, ev))
  {
    hide Inv, CheckAt, SettleAt, RecordAt;
    match ev {
      case Begin(_, _, _, _) => BeginKeeps(m, policies, p, limit, load, s, ev);
      case Check(who) =>
        if Where(s.inflight, who).Some? { CheckKeeps(m, policies, p, limit, load, s, Where(s.inflight, who).value); }
      case Finish(who, actual) =>
        if Where(s.inflight, who).Some? {
          SettleKeeps(m, policies, p, limit, load, s, Where(s.inflight, who).value, actual);
        }
      case Record(who, deployment) =>
        if Where(s.inflight, who).Some? {
          RecordKeeps(m, policies, p, limit, load, s, Where(s.inflight, who).value, deployment);
        }
      case Drop(who) =>
        if Where(s.inflight, who).Some? { LeavingKeeps(m, policies, p, limit, load, s, Where(s.inflight, who).value); }
      case Note(row) => NoteKeeps(m, policies, p, limit, load, s, row);
      case Tick(to) => TickKeeps(m, policies, p, limit, load, s, to);
    }
  }

  lemma {:induction false} InvHolds(m: Meter, policies: seq<Policy>, p: Policy, limit: nat, load: Load, start: System,
          run: seq<Event>)
    requires Quiet(start) && load.K >= 1
    requires p in policies && p.hard && LimitOn(m, p) == Some(limit)
    requires SpentNow(m, p, start) <= limit
    requires WithinLoad(m, load, policies, start, run)
    ensures Inv(m, policies, p, limit, load, Run(policies, start, run))
  {
    hide C.PeriodWindow, C.Instant;
    if run == [] {
      TimesGrows(0, load.K, load.D);
      TimesGrows(0, load.K - 1, Min(load.E, limit));
    } else {
      var front := run[..|run| - 1];
      InvHolds(m, policies, p, limit, load, start, front);
      StepKeeps(m, policies, p, limit, load, Run(policies, start, front), run[|run| - 1]);
    }
  }

  // ---- The theorems ----------------------------------------------------------------------

  /** Over every interleaving of K workers, and across changes of period, what is
      counted against any hard limit stays within limit + K * D + (K - 1) * E, with the
      limit in place of a larger E. */
  lemma {:induction false} OverspendBound(m: Meter, policies: seq<Policy>, p: Policy, load: Load, start: System,
          run: seq<Event>)
    requires Quiet(start) && load.K >= 1
    requires p in policies && p.hard && LimitOn(m, p).Some?
    requires SpentNow(m, p, start) <= LimitOn(m, p).value
    requires WithinLoad(m, load, policies, start, run)
    ensures SpentNow(m, p, Run(policies, start, run)) <= Bound(LimitOn(m, p).value, load)
  {
    var limit := LimitOn(m, p).value;
    InvHolds(m, policies, p, limit, load, start, run);
    var s := Run(policies, start, run);
    SumBoundsBelow(s.inflight, Pending(m, p, load.D));
  }

  lemma {:induction false} SumBoundsBelow<T>(s: seq<T>, f: T -> int)
    requires forall x :: x in s ==> f(x) >= 0
    ensures SumOf(s, f) >= 0
  {
    if s != [] {
      assert s[|s| - 1] in s;
      SumBoundsBelow(s[..|s| - 1], f);
    }
  }

  /** One call at a time that never costs more than its estimate: no hard limit is
      ever passed. */
  lemma {:induction false} SequentialCallsNeverOverspend(m: Meter, policies: seq<Policy>, p: Policy, e: nat,
          start: System, run: seq<Event>)
    requires Quiet(start)
    requires p in policies && p.hard && LimitOn(m, p).Some?
    requires SpentNow(m, p, start) <= LimitOn(m, p).value
    requires WithinLoad(m, Load(1, e, 0), policies, start, run)
    ensures SpentNow(m, p, Run(policies, start, run)) <= LimitOn(m, p).value
  {
    OverspendBound(m, policies, p, Load(1, e, 0), start, run);
  }

  // ---- The bound is reached -----------------------------------------------------------------

  /** Workers 0 to k - 1 each begin a call that passes its only check. */
  function Openings(ctx: Context, estimate: Usage, k: nat): seq<Event> {
    if k == 0 then [] else Openings(ctx, estimate, k - 1) + [Begin(k - 1, k - 1, ctx, estimate), Check(k - 1)]
  }

  /** ... and then finish one after the other. */
  function Closings(actual: Usage, k: nat): seq<Event> {
    if k == 0 then [] else Closings(actual, k - 1) + [Finish(k - 1, actual), Record(k - 1, None)]
  }

  /** The calls of the workers from `from` to `to - 1`, all past their only check. */
  function Standing(p: Policy, ctx: Context, estimate: Usage, from: nat, to: nat): seq<Call>
    requires from <= to
  {
    seq(to - from, i requires 0 <= i < to - from => Call(from + i, from + i, ctx, estimate, [p], 1, None))
  }

  lemma {:induction false} LoadConcat(m: Meter, load: Load, policies: seq<Policy>, start: System, a: seq<Event>,
          b: seq<Event>)
    requires start.now.Valid()
    requires WithinLoad(m, load, policies, start, a) && WithinLoad(m, load, policies, Run(policies, start, a), b)
    ensures WithinLoad(m, load, policies, start, a + b)
  {
    hide Step, Allowed;
    if b == [] {
      assert a + b == a;
    } else {
      assert (a + b)[..|a + b| - 1] == a + b[..|b| - 1];
      LoadConcat(m, load, policies, start, a, b[..|b| - 1]);
      RunConcat(policies, start, a, b[..|b| - 1]);
    }
  }

  lemma {:induction false} LoadTwo(m: Meter, load: Load, policies: seq<Policy>, start: System, a: Event, b: Event)
    requires start.now.Valid()
    requires Allowed(m, load, start, a) && Allowed(m, load, Step(policies, start, a), b)
    ensures WithinLoad(m, load, policies, start, [a, b])
  {
    hide Step, Allowed;
    RunOne(policies, start, a);
    assert [a, b][..1] == [a] && [a][..0] == [];
    assert WithinLoad(m, load, policies, start, [a]) && Run(policies, start, []) == start;
  }

  /** One more call begins and passes its check. */
  lemma {:induction false} OneOpening(m: Meter, p: Policy, ctx: Context, estimate: Usage, load: Load, s: System, k: nat)
    requires s.now.Valid() && Applies(p, ctx) && k < load.K && Measure(m, estimate) <= load.E
    requires s.inflight == Standing(p, ctx, estimate, 0, k)
    requires Denial(p, ctx, C.PeriodWindow(p.period, s.now), s.rows, estimate).None?
    ensures var two := [Begin(k, k, ctx, estimate), Check(k)];
            && Run([p], s, two) == s.(inflight := Standing(p, ctx, estimate, 0, k + 1))
            && WithinLoad(m, load, [p], s, two)
  {
    hide C.PeriodWindow, C.Instant, Denial;
    RunPair([p], s, Begin(k, k, ctx, estimate), Check(k));
    LoadTwo(m, load, [p], s, Begin(k, k, ctx, estimate), Check(k));
    assert [p][..0] == [] && Applicable([p], ctx) == [] + [p] == [p];
    var c := Call(k, k, ctx, estimate, [p], 0, None);
    var begun := Step([p], s, Begin(k, k, ctx, estimate));
    assert begun.inflight == s.inflight + [c];
    assert Where(begun.inflight, k) == Some(k);
    assert begun.inflight[k := c.(next := 1)] == Standing(p, ctx, estimate, 0, k + 1);
  }

  lemma {:induction false} OpeningsAllPass(m: Meter, p: Policy, ctx: Context, estimate: Usage, load: Load,
          start: System, k: nat)
    requires start.now.Valid() && start.inflight == [] && Applies(p, ctx)
    requires k <= load.K && Measure(m, estimate) <= load.E
    requires Denial(p, ctx, C.PeriodWindow(p.period, start.now), start.rows, estimate).None?
    ensures Run([p], start, Openings(ctx, estimate, k)) == start.(inflight := Standing(p, ctx, estimate, 0, k))
    ensures WithinLoad(m, load, [p], start, Openings(ctx, estimate, k))
  {
    hide C.PeriodWindow, C.Instant, Denial, Step, Allowed;
    if k == 0 {
      assert Standing(p, ctx, estimate, 0, 0) == [];
    } else {
      OpeningsAllPass(m, p, ctx, estimate, load, start, k - 1);
      var s := Run([p], start, Openings(ctx, estimate, k - 1));
      OneOpening(m, p, ctx, estimate, load, s, k - 1);
      var two := [Begin(k - 1, k - 1, ctx, estimate), Check(k - 1)];
      RunConcat([p], start, Openings(ctx, estimate, k - 1), two);
      LoadConcat(m, load, [p], start, Openings(ctx, estimate, k - 1), two);
    }
  }

  /** The first of the standing calls settles and records, and is counted. */
  lemma {:induction false} OneClosing(m: Meter, p: Policy, ctx: Context, estimate: Usage, actual: Usage, load: Load,
          s: System, k: nat, n: nat)
    requires s.now.Valid() && Applies(p, ctx) && k < n && Measure(m, actual) <= Measure(m, estimate) + load.D
    requires s.inflight == Standing(p, ctx, estimate, k, n)
    requires C.PeriodWindow(p.period, s.now).Contains(C.Instant(s.now))
    ensures var two := [Finish(k, actual), Record(k, None)];
            var t := Run([p], s, two);
            && t.inflight == Standing(p, ctx, estimate, k + 1, n) && t.now == s.now
            && SpentNow(m, p, t) == SpentNow(m, p, s) + Measure(m, actual)
            && WithinLoad(m, load, [p], s, two)
  {
    hide C.PeriodWindow, C.Instant, Spent, Applies, Bound, SettleRows;
    var c := s.inflight[0];
    RunPair([p], s, Finish(k, actual), Record(k, None));
    FirstWorker(s.inflight, k);
    LoadTwo(m, load, [p], s, Finish(k, actual), Record(k, None));
    var settled := Step([p], s, Finish(k, actual));
    FirstWorker(settled.inflight, k);
    SpentAppend(m, p, C.PeriodWindow(p.period, s.now), s.rows, PaidRow(settled, settled.inflight[0], None));
    assert Leave(settled, 0) == Standing(p, ctx, estimate, k + 1, n);
  }

  lemma {:induction false} FirstWorker(calls: seq<Call>, who: nat)
    requires calls != [] && calls[0].who == who
    ensures Where(calls, who) == Some(0)
  {
    if |calls| > 1 { FirstWorker(calls[..|calls| - 1], who); }
  }

  lemma {:induction false} ClosingsAllCount(m: Meter, p: Policy, ctx: Context, estimate: Usage, actual: Usage,
          load: Load, start: System, n: nat, k: nat)
    requires start.now.Valid() && Applies(p, ctx) && k <= n && Measure(m, actual) <= Measure(m, estimate) + load.D
    requires start.inflight == Standing(p, ctx, estimate, 0, n)
    requires C.PeriodWindow(p.period, start.now).Contains(C.Instant(start.now))
    ensures var s := Run([p], start, Closings(actual, k));
            && s.inflight == Standing(p, ctx, estimate, k, n) && s.now == start.now
            && SpentNow(m, p, s) == SpentNow(m, p, start) + k * Measure(m, actual)
    ensures WithinLoad(m, load, [p], start, Closings(actual, k))
  {
    hide C.PeriodWindow, C.Instant, Spent, Step, Applies, Allowed;
    if k > 0 {
      ClosingsAllCount(m, p, ctx, estimate, actual, load, start, n, k - 1);
      var before, two := Closings(actual, k - 1), [Finish(k - 1, actual), Record(k - 1, None)];
      OneClosing(m, p, ctx, estimate, actual, load, Run([p], start, before), k - 1, n);
      RunConcat([p], start, before, two);
      LoadConcat(m, load, [p], start, before, two);
      assert k * Measure(m, actual) == (k - 1) * Measure(m, actual) + Measure(m, actual);
    }
  }

  /** So many micro-dollars, or tokens. */
  function On(m: Meter, n: nat): Usage { if m.Money? then Usage(0, 0, 0, n) else Usage(0, 0, n, 0) }

  /** K calls estimated at E, each of which then costs E + D. */
  function Stampede(m: Meter, ctx: Context, load: Load): seq<Event> {
    Openings(ctx, On(m, load.E), load.K) + Closings(On(m, load.E + load.D), load.K)
  }

  /** The bound cannot be improved: from a spend of limit - E, K calls estimated at
      E are all approved, and when each costs E + D the spend is exactly the bound. */
  lemma {:induction false} OverspendBoundIsReached(m: Meter, p: Policy, ctx: Context, load: Load, start: System,
          limit: nat)
    requires start.now.Valid() && start.inflight == []
    requires C.PeriodWindow(p.period, start.now).Contains(C.Instant(start.now))
    requires Applies(p, ctx) && p.hard && LimitOn(m, p) == Some(limit)
    requires load.K >= 1 && load.E <= limit && SpentNow(m, p, start) == limit - load.E
    requires forall other :: LimitOn(other, p).Some? ==> SpentNow(other, p, start) <= LimitOn(other, p).value
    ensures WithinLoad(m, load, [p], start, Stampede(m, ctx, load))
    ensures SpentNow(m, p, Run([p], start, Stampede(m, ctx, load))) == Bound(limit, load)
  {
    hide C.PeriodWindow, C.Instant, Run, WithinLoad, Openings, Closings, LimitOn, Spent;
    var estimate, actual := On(m, load.E), On(m, load.E + load.D);
    NoDenialMeansRoom(p, ctx, C.PeriodWindow(p.period, start.now), start.rows, estimate);
    OpeningsAllPass(m, p, ctx, estimate, load, start, load.K);
    var full := Run([p], start, Openings(ctx, estimate, load.K));
    ClosingsAllCount(m, p, ctx, estimate, actual, load, full, load.K, load.K);
    RunConcat([p], start, Openings(ctx, estimate, load.K), Closings(actual, load.K));
    LoadConcat(m, load, [p], start, Openings(ctx, estimate, load.K), Closings(actual, load.K));
    assert load.K * (load.E + load.D) == load.K * load.D + (load.K - 1) * load.E + load.E;
  }

  // ---- When a hard limit is a boundary ------------------------------------------------------------

  /** No run within the load, with whatever other policies, takes the spend past the limit. */
  ghost predicate NeverPasses(m: Meter, p: Policy, load: Load)
    requires LimitOn(m, p).Some?
  {
    forall policies, start, run ::
      && p in policies && Quiet(start) && SpentNow(m, p, start) <= LimitOn(m, p).value
      && WithinLoad(m, load, policies, start, run) ==>
        SpentNow(m, p, Run(policies, start, run)) <= LimitOn(m, p).value
  }

  /** A lighter load is within a heavier one. */
  lemma {:induction false} HeavierLoad(m: Meter, light: Load, heavy: Load, policies: seq<Policy>, start: System,
          run: seq<Event>)
    requires start.now.Valid() && WithinLoad(m, light, policies, start, run)
    requires light.K <= heavy.K && light.E <= heavy.E && light.D <= heavy.D
    ensures WithinLoad(m, heavy, policies, start, run)
  {
    hide Step, Run;
    if run != [] { HeavierLoad(m, light, heavy, policies, start, run[..|run| - 1]); }
  }

  /** A hard limit that applies to anyone is a boundary exactly when no call can cost
      more than its estimate and no second call can be approved for anything: for one
      worker, when calls stay within their estimates. */
  lemma {:induction false} LimitIsBoundaryIff(m: Meter, p: Policy, ctx: Context, load: Load, now: C.Moment)
    requires now.Valid() && C.PeriodWindow(p.period, now).Contains(C.Instant(now))
    requires Applies(p, ctx) && p.hard && LimitOn(m, p).Some? && load.K >= 1
    ensures NeverPasses(m, p, load) <==>
            load.D == 0 && (load.K == 1 || Min(load.E, LimitOn(m, p).value) == 0)
  {
    hide C.PeriodWindow, C.Instant, Run, WithinLoad, Spent, Applies;
    var limit := LimitOn(m, p).value;
    if load.D == 0 && (load.K == 1 || Min(load.E, limit) == 0) {
      assert Bound(limit, load) == limit;
      forall policies, start, run
        | && p in policies && Quiet(start) && SpentNow(m, p, start) <= limit
          && WithinLoad(m, load, policies, start, run)
        ensures SpentNow(m, p, Run(policies, start, run)) <= limit
      {
        OverspendBound(m, policies, p, load, start, run);
      }
    } else {
      var tight := Load(load.K, Min(load.E, limit), load.D);
      var start := NearTheLimit(m, p, ctx, now, limit - tight.E);
      SpentNear(m, p, ctx, now, limit - tight.E);
      OverspendBoundIsReached(m, p, ctx, tight, start, limit);
      HeavierLoad(m, tight, load, [p], start, Stampede(m, ctx, tight));
      BoundAbove(limit, tight);
      assert p in [p];
    }
  }

  lemma BoundAbove(limit: nat, load: Load)
    requires load.K >= 1 && load.E <= limit && (load.D > 0 || (load.K > 1 && load.E > 0))
    ensures Bound(limit, load) > limit
  {
    TimesGrows(1, load.K, load.D);
    if load.K > 1 { TimesGrows(1, load.K - 1, load.E); }
  }

  /** One call has spent so much; nothing else has happened. */
  function NearTheLimit(m: Meter, p: Policy, ctx: Context, now: C.Moment, spent: nat): System
    requires now.Valid()
  {
    System([UsageRow(ctx, Success, On(m, spent), None, C.Instant(now))], [], [], now)
  }

  lemma SpentNear(m: Meter, p: Policy, ctx: Context, now: C.Moment, spent: nat)
    requires now.Valid() && Applies(p, ctx) && C.PeriodWindow(p.period, now).Contains(C.Instant(now))
    ensures Quiet(NearTheLimit(m, p, ctx, now, spent))
    ensures forall other :: SpentNow(other, p, NearTheLimit(m, p, ctx, now, spent)) == if other == m then spent else 0
  {
    hide C.PeriodWindow, C.Instant, Applies;
    var row := UsageRow(ctx, Success, On(m, spent), None, C.Instant(now));
    assert [row][..0] == [];
    forall other ensures Spent(other, p, C.PeriodWindow(p.period, now), [row]) == if other == m then spent else 0 {
      assert Spent(other, p, C.PeriodWindow(p.period, now), []) == 0;
    }
  }
}
