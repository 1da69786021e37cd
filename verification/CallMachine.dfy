/** Model calls that overlap, at the grain at which they touch the budget tables
    (backend/app/llm/budget.py, gateway.py, usage.py).

    Each worker makes one call at a time. A call reads the spend of one policy at a
    time while it reserves; when it succeeds it first settles, testing the soft
    thresholds against the rows recorded so far, and adds its own usage row in a
    later step. A reservation is never counted as spend. */
module CallMachine {
  import opened Basics
  import opened Pricing
  import opened Budget
  import C = Calendar

  /** What a settled call will record, and how many usage rows it saw when it settled. */
  datatype Paid = Paid(usage: Usage, seen: nat)

  /** A call in flight: the policies that apply to it, the first `next` of which it
      has checked, and its settlement once it has settled. */
  datatype Call = Call(
    who: nat, id: Id, ctx: Context, estimate: Usage, policies: seq<Policy>, next: nat, paid: Option<Paid>)

  /** `ledger` holds the settle and alert rows written. */
  datatype System = System(rows: seq<UsageRow>, ledger: seq<LedgerRow>, inflight: seq<Call>, now: C.Moment)

  datatype Event =
    | Begin(who: nat, id: Id, ctx: Context, estimate: Usage)
    | Check(who: nat)
    | Finish(who: nat, actual: Usage)
    | Record(who: nat, deployment: Option<string>)
    | Drop(who: nat)
    | Note(row: UsageRow)
    | Tick(to: C.Moment)

  /** The call a worker has in flight. */
  function Where(calls: seq<Call>, who: nat): (r: Option<nat>)
    ensures r.Some? ==> r.value < |calls| && calls[r.value].who == who
    ensures r.None? ==> forall i :: 0 <= i < |calls| ==> calls[i].who != who
  {
    if calls == [] then None
    else
      var front := Where(calls[..|calls| - 1], who);
      if front.Some? then front else if calls[|calls| - 1].who == who then Some(|calls| - 1) else None
  }

  function Leave(s: System, i: nat): seq<Call>
    requires i < |s.inflight|
  {
    s.inflight[..i] + s.inflight[i + 1..]
  }

  /** The reservation of an approved call. */
  function ReservationOf(c: Call): Reservation {
    Reservation(c.id, true, Approved, c.estimate.totalTokens, c.estimate.costMicros, Scopes(c.policies))
  }

  function CheckAt(s: System, i: nat): System
    requires s.now.Valid() && i < |s.inflight|
  {
    var c := s.inflight[i];
    if c.next >= |c.policies| then s
    else if c.policies[c.next].hard &&
            Denial(c.policies[c.next], c.ctx, C.PeriodWindow(c.policies[c.next].period, s.now), s.rows,
                   c.estimate).Some?
    then s.(inflight := Leave(s, i))
    else s.(inflight := s.inflight[i := c.(next := c.next + 1)])
  }

  function SettleAt(policies: seq<Policy>, s: System, i: nat, actual: Usage): System
    requires s.now.Valid() && i < |s.inflight|
  {
    var c := s.inflight[i];
    if c.next < |c.policies| || c.paid.Some? then s
    else
      s.(ledger := s.ledger + SettleRows(policies, s.rows, ReservationOf(c), actual, c.ctx, s.now, |c.policies|),
         inflight := s.inflight[i := c.(paid := Some(Paid(actual, |s.rows|)))])
  }

  /** The usage row a settled call adds. */
  function PaidRow(s: System, c: Call, deployment: Option<string>): UsageRow
    requires s.now.Valid() && c.paid.Some?
  {
    UsageRow(c.ctx, Success, c.paid.value.usage, deployment, C.Instant(s.now))
  }

  function RecordAt(s: System, i: nat, deployment: Option<string>): System
    requires s.now.Valid() && i < |s.inflight|
  {
    var c := s.inflight[i];
    if c.paid.None? then s else s.(rows := s.rows + [PaidRow(s, c, deployment)], inflight := Leave(s, i))
  }

  function DropAt(s: System, i: nat): System
    requires i < |s.inflight|
  {
    if s.inflight[i].paid.Some? then s else s.(inflight := Leave(s, i))
  }

  /** One step; an event that is not possible in the state changes nothing. */
  function Step(policies: seq<Policy>, s: System, ev: Event): System
    requires s.now.Valid()
    ensures Step(policies, s, ev).now.Valid()
  {
    match ev
    case Begin(who, id, ctx, estimate) =>
      if Where(s.inflight, who).Some? then s
      else s.(inflight := s.inflight + [Call(who, id, ctx, estimate, Applicable(policies, ctx), 0, None)])
    case Check(who) => var i := Where(s.inflight, who); if i.Some? then CheckAt(s, i.value) else s
    case Finish(who, actual) =>
      var i := Where(s.inflight, who);
      if i.Some? then SettleAt(policies, s, i.value, actual) else s
    case Record(who, deployment) =>
      var i := Where(s.inflight, who);
      if i.Some? then RecordAt(s, i.value, deployment) else s
    case Drop(who) => var i := Where(s.inflight, who); if i.Some? then DropAt(s, i.value) else s
    case Note(row) =>
      if row.createdAt <= C.Instant(s.now) && (!row.status.Success? || row.usage == NO_USAGE)
      then s.(rows := s.rows + [row]) else s
    case Tick(to) => if to.Valid() && C.Instant(s.now) <= C.Instant(to) then s.(now := to) else s
  }

  function Run(policies: seq<Policy>, start: System, run: seq<Event>): System
    requires start.now.Valid()
    ensures Run(policies, start, run).now.Valid()
  {
    if run == [] then start else Step(policies, Run(policies, start, run[..|run| - 1]), run[|run| - 1])
  }

  lemma {:induction false} RunConcat(policies: seq<Policy>, start: System, a: seq<Event>, b: seq<Event>)
    requires start.now.Valid()
    ensures Run(policies, start, a + b) == Run(policies, Run(policies, start, a), b)
  {
    hide Step;
    if b == [] {
      assert a + b == a;
    } else {
      assert (a + b)[..|a + b| - 1] == a + b[..|b| - 1];
      RunConcat(policies, start, a, b[..|b| - 1]);
    }
  }

  lemma RunOne(policies: seq<Policy>, s: System, ev: Event)
    requires s.now.Valid()
    ensures Run(policies, s, [ev]) == Step(policies, s, ev)
  {
    hide Step;
    assert [ev][..0] == [];
    assert Run(policies, s, []) == s;
  }

  lemma RunPair(policies: seq<Policy>, s: System, a: Event, b: Event)
    requires s.now.Valid()
    ensures Run(policies, s, [a, b]) == Step(policies, Step(policies, s, a), b)
  {
    hide Step;
    RunOne(policies, s, a);
    assert [a, b][..1] == [a];
  }

  // ---- Workers -----------------------------------------------------------------------------

  /** Every worker below `k` has at most one call in flight, no other has any. */
  ghost predicate OnePerWorker(calls: seq<Call>, k: nat) {
    && (forall i :: 0 <= i < |calls| ==> calls[i].who < k)
    && (forall i, j :: 0 <= i < j < |calls| ==> calls[i].who != calls[j].who)
  }

  lemma {:induction false} AtMostOneEach(calls: seq<Call>, k: nat)
    requires OnePerWorker(calls, k)
    ensures |calls| <= k
  {
    if k > 0 {
      var i := Where(calls, k - 1);
      if i.Some? {
        var others := calls[..i.value] + calls[i.value + 1..];
        AtMostOneEach(others, k - 1);
      } else {
        AtMostOneEach(calls, k - 1);
      }
    }
  }

  lemma OthersStay(s: System, i: nat, k: nat)
    requires i < |s.inflight| && OnePerWorker(s.inflight, k)
    ensures OnePerWorker(Leave(s, i), k) && forall c :: c in Leave(s, i) ==> c in s.inflight
  {}

  lemma SameWorkers(calls: seq<Call>, next: seq<Call>, k: nat)
    requires OnePerWorker(calls, k) && |next| == |calls| && forall i :: 0 <= i < |calls| ==> next[i].who == calls[i].who
    ensures OnePerWorker(next, k)
  {}

  lemma OneWorkerMore(calls: seq<Call>, c: Call, k: nat)
    requires OnePerWorker(calls, k) && c.who < k && Where(calls, c.who).None?
    ensures OnePerWorker(calls + [c], k)
  {}

  lemma {:induction false} WorkersStep(policies: seq<Policy>, s: System, ev: Event, k: nat)
    requires s.now.Valid() && OnePerWorker(s.inflight, k) && (ev.Begin? ==> ev.who < k)
    ensures OnePerWorker(Step(policies, s, ev).inflight, k)
  {
    hide C.Instant, C.PeriodWindow, Denial, SettleRows, Applicable, OnePerWorker, Where;
    var next := Step(policies, s, ev);
    if ev.Begin? && next != s { OneWorkerMore(s.inflight, next.inflight[|s.inflight|], k); }
    if !ev.Begin? && !ev.Note? && !ev.Tick? {
      var i := Where(s.inflight, ev.who);
      if i.Some? {
        OthersStay(s, i.value, k);
        if |next.inflight| == |s.inflight| { SameWorkers(s.inflight, next.inflight, k); }
      }
    }
  }
}
