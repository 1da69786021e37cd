/** Gateway calls that overlap: K workers, each making any calls one after another, their
    steps interleaved in any order, are a run of the machine within the load that
    `Overspend` bounds (backend/app/llm/gateway.py, budget.py, usage.py). */
module Interleaving {
  import opened Basics
  import opened Calls
  import opened Runs
  import opened Endings
  import opened Conservation
  import opened CallSteps
  import opened Fallback
  import M = CallMachine
  import O = Overspend
  import B = Budget
  import C = Calendar

  /** A call, and the books it finds. */
  datatype Job = Job(books: Books, call: AnyCall)

  /** The steps of one worker that makes the calls one after another. */
  function LaneSteps(g: Setup, jobs: seq<Job>, who: nat): seq<M.Event> {
    if jobs == [] then []
    else
      var job := jobs[|jobs| - 1];
      LaneSteps(g, jobs[..|jobs| - 1], who) + StepsOf(g, job.books, job.call, who)
  }

  // ---- A run of the gateway is a run of the machine ---------------------------------------------

  /** The calls of a run with the books each finds. */
  function JobsOf(g: Setup, s: Books, calls: seq<AnyCall>): seq<Job> {
    if calls == [] then []
    else
      var front := calls[..|calls| - 1];
      JobsOf(g, s, front) + [Job(Run(g, s, front), calls[|calls| - 1])]
  }

  function EndOf(g: Setup, s: Books, calls: seq<AnyCall>, start: Time): Time {
    if calls == [] then start else LastAt(g, Run(g, s, calls[..|calls| - 1]), calls[|calls| - 1])
  }

  /** Each call begins once the one before it is over. */
  ghost predicate OnTime(g: Setup, s: Books, calls: seq<AnyCall>, start: Time) {
    calls != [] ==>
      var front, c := calls[..|calls| - 1], calls[|calls| - 1];
      && OnTime(g, s, front, start) && Timely(c)
      && C.Instant(EndOf(g, s, front, start)) <= C.Instant(c.call.began)
  }

  /** A whole run of the gateway, made by one worker, leaves on the machine the usage
      rows it leaves in the gateway, and the settle and alert rows of its ledger. */
  lemma {:induction false} GatewayRunIsARun(g: Setup, s: Books, calls: seq<AnyCall>, who: nat, start: Time)
    requires OnTime(g, s, calls, start)
    ensures var end := Run(g, s, calls);
            M.Run(g.policies, M.System(s.rows, Filter(s.ledger, IsClosing()), [], start),
                  LaneSteps(g, JobsOf(g, s, calls), who)) ==
            M.System(end.rows, Filter(end.ledger, IsClosing()), [], EndOf(g, s, calls, start))
  {
    hide M.Step, Step, Timely, C.Instant, StepsOf, LastAt, IsClosing, LedgerOf, RecordsOf;
    if calls != [] {
      var front, c := calls[..|calls| - 1], calls[|calls| - 1];
      var before, jobs := Run(g, s, front), JobsOf(g, s, front);
      var system := M.System(s.rows, Filter(s.ledger, IsClosing()), [], start);
      GatewayRunIsARun(g, s, front, who, start);
      CallIsARun(g, before, c, who, Filter(before.ledger, IsClosing()), EndOf(g, s, front, start));
      StepAdds(g, before, c);
      FilterConcat(before.ledger, LedgerOf(g, before, c), IsClosing());
      M.RunConcat(g.policies, system, LaneSteps(g, jobs, who), StepsOf(g, before, c, who));
      assert (jobs + [Job(before, c)])[..|jobs|] == jobs;
    }
  }

  // ---- Lawful workers --------------------------------------------------------------------------------

  /** What a worker is doing, as its own steps tell it. */
  datatype Status = Idle | Busy(estimate: nat) | Paying(estimate: nat) | Unlawful

  function Next(m: B.Meter, load: O.Load, st: Status, ev: M.Event): Status {
    match ev
    case Begin(_, _, _, e) => if st.Idle? && B.Measure(m, e) <= load.E then Busy(B.Measure(m, e)) else Unlawful
    case Check(_) => if st.Busy? then st else Unlawful
    case Finish(_, actual) =>
      if st.Busy? && B.Measure(m, actual) <= st.estimate + load.D then Paying(st.estimate) else Unlawful
    case Record(_, _) => if st.Paying? then Busy(st.estimate) else Unlawful
    case Drop(_) => if st.Idle? || st.Busy? then Idle else Unlawful
    case _ => st
  }

  function After(m: B.Meter, load: O.Load, st: Status, events: seq<M.Event>): Status {
    if events == [] then st else Next(m, load, After(m, load, st, events[..|events| - 1]), events[|events| - 1])
  }

  lemma {:induction false} AfterConcat(m: B.Meter, load: O.Load, st: Status, a: seq<M.Event>, b: seq<M.Event>)
    ensures After(m, load, st, a + b) == After(m, load, After(m, load, st, a), b)
    ensures After(m, load, st, a + b) != Unlawful ==> After(m, load, st, a) != Unlawful
  {
    if b == [] {
      assert a + b == a;
    } else {
      assert (a + b)[..|a + b| - 1] == a + b[..|b| - 1];
      AfterConcat(m, load, st, a, b[..|b| - 1]);
    }
  }

  lemma AfterOne(m: B.Meter, load: O.Load, st: Status, ev: M.Event)
    ensures After(m, load, st, [ev]) == Next(m, load, st, ev)
  {
    assert [ev][..0] == [];
    assert After(m, load, st, []) == st;
  }

  lemma {:induction false} ChecksAreLawful(m: B.Meter, load: O.Load, st: Status, who: nat, n: nat)
    requires st.Busy?
    ensures After(m, load, st, Checks(who, n)) == st
  {
    if n > 0 {
      AfterOne(m, load, st, M.Check(who));
      ChecksAreLawful(m, load, st, who, n - 1);
      AfterConcat(m, load, st, [M.Check(who)], Checks(who, n - 1));
    }
  }

  lemma {:induction false} NotesAreLawful(m: B.Meter, load: O.Load, st: Status, ctx: B.Context, records: seq<Record>)
    ensures After(m, load, st, Notes(ctx, records)) == st
  {
    if records != [] { NotesAreLawful(m, load, st, ctx, records[..|records| - 1]); }
  }

  /** The estimate is within E, and the charge within D of the estimate. */
  ghost predicate Bounded(m: B.Meter, load: O.Load, g: Setup, job: Job) {
    && (Reserves(g, job.call) ==> B.Measure(m, EstimateOf(g, job.call)) <= load.E)
    && ChargesWithin(g, job.books, job.call, m, load.D)
  }

  lemma FirstStepsAreLawful(m: B.Meter, load: O.Load, g: Setup, c: AnyCall, who: nat)
    requires Reserves(g, c) ==> B.Measure(m, EstimateOf(g, c)) <= load.E
    ensures After(m, load, Idle, FirstSteps(g, c, who)) ==
            if Reserves(g, c) then Busy(B.Measure(m, EstimateOf(g, c))) else Idle
  {
    hide Reserves, EstimateOf, B.Applicable, After, Checks;
    AfterOne(m, load, Idle, M.Tick(c.call.began));
    if Reserves(g, c) {
      var begin := M.Begin(who, c.call.id, c.call.ctx, EstimateOf(g, c));
      var checks := Checks(who, |B.Applicable(g.policies, c.call.ctx)|);
      AfterOne(m, load, Idle, begin);
      ChecksAreLawful(m, load, Busy(B.Measure(m, EstimateOf(g, c))), who, |B.Applicable(g.policies, c.call.ctx)|);
      AfterConcat(m, load, Idle, [begin], checks);
      AfterConcat(m, load, Idle, [M.Tick(c.call.began)], [begin] + checks);
    } else {
      assert [M.Tick(c.call.began)] + [] == [M.Tick(c.call.began)];
    }
  }

  /** What is settled is what is charged, so it is within D of the estimate. */
  lemma SettledWithin(m: B.Meter, load: O.Load, g: Setup, s: Books, c: AnyCall)
    requires ChargesWithin(g, s, c, m, load.D) && SettlementOf(g, s, c).Some?
    ensures Reserves(g, c) &&
            B.Measure(m, SettlementOf(g, s, c).value.paid.usage) <= B.Measure(m, EstimateOf(g, c)) + load.D
  {
    hide RecordsOf, LedgerOf, AdmissionIn, SettlementOf, OpeningIn, RoutesOf, SettledRows, RowsOf, EstimateOf, Charged,
         NoneClose, AreFree, B.FirstDenial, B.Applicable;
    CallShape(g, s, c);
    var x := SettlementOf(g, s, c).value;
    FreeRecordsChargeNothing(m, x.failed);
    ChargedOneMore(m, x.failed, x.paid);
    AdmittedWhenReady(g, s, c, 0);
  }

  lemma StepsAreLawful(m: B.Meter, load: O.Load, g: Setup, job: Job, who: nat)
    requires Bounded(m, load, g, job)
    ensures After(m, load, Idle, StepsOf(g, job.books, job.call, who)) == Idle
  {
    hide Reserves, EstimateOf, After, ChargesWithin, SettlementOf, RecordsOf, FirstSteps, Notes;
    var s, c := job.books, job.call;
    var st := if Reserves(g, c) then Busy(B.Measure(m, EstimateOf(g, c))) else Idle;
    FirstStepsAreLawful(m, load, g, c, who);
    AfterConcat(m, load, Idle, FirstSteps(g, c, who), LastSteps(g, s, c, who));
    var x, tick, drop := SettlementOf(g, s, c), [M.Tick(LastAt(g, s, c))], [M.Drop(who)];
    var free := if x.None? then RecordsOf(g, s, c) else x.value.failed;
    var notes := Notes(c.call.ctx, free);
    AfterOne(m, load, st, M.Tick(LastAt(g, s, c)));
    AfterOne(m, load, st, M.Drop(who));
    NotesAreLawful(m, load, st, c.call.ctx, free);
    if x.None? {
      AfterConcat(m, load, st, tick, notes);
      AfterConcat(m, load, st, tick + notes, drop);
    } else {
      SettledWithin(m, load, g, s, c);
      var finish, record := M.Finish(who, x.value.paid.usage), M.Record(who, x.value.paid.deployment);
      AfterOne(m, load, st, finish);
      AfterOne(m, load, Paying(st.estimate), record);
      assert [finish, record] == [finish] + [record];
      AfterConcat(m, load, st, [finish], [record]);
      AfterConcat(m, load, st, notes, [finish, record]);
      AfterConcat(m, load, st, tick, notes + [finish, record]);
      AfterConcat(m, load, st, tick + (notes + [finish, record]), drop);
    }
  }

  /** A worker whose calls are all bounded is lawful, and idle when it is done. */
  lemma {:induction false} LanesAreLawful(m: B.Meter, load: O.Load, g: Setup, jobs: seq<Job>, who: nat)
    requires forall j :: j in jobs ==> Bounded(m, load, g, j)
    ensures After(m, load, Idle, LaneSteps(g, jobs, who)) == Idle
  {
    hide Bounded, StepsOf, After;
    if jobs == [] {
      assert After(m, load, Idle, []) == Idle by { AfterNothing(m, load); }
    } else {
      var front, job := jobs[..|jobs| - 1], jobs[|jobs| - 1];
      LanesAreLawful(m, load, g, front, who);
      StepsAreLawful(m, load, g, job, who);
      AfterConcat(m, load, Idle, LaneSteps(g, front, who), StepsOf(g, job.books, job.call, who));
    }
  }

  lemma AfterNothing(m: B.Meter, load: O.Load)
    ensures After(m, load, Idle, []) == Idle
  {}

  // ---- The worker's entry on the machine ------------------------------------------------------------

  /** The call a worker has in flight. */
  function Entry(calls: seq<M.Call>, who: nat): Option<M.Call> {
    var i := M.Where(calls, who);
    if i.Some? then Some(calls[i.value]) else None
  }

  lemma EntryIs(calls: seq<M.Call>, k: nat, i: nat)
    requires M.OnePerWorker(calls, k) && i < |calls|
    ensures Entry(calls, calls[i].who) == Some(calls[i]) && M.Where(calls, calls[i].who) == Some(i)
  {}

  lemma EntryOfNone(calls: seq<M.Call>, who: nat)
    requires forall i :: 0 <= i < |calls| ==> calls[i].who != who
    ensures Entry(calls, who) == None
  {}

  /** Removing one worker's call leaves the other workers' calls in place. */
  lemma EntryLeave(s: M.System, k: nat, i: nat, who: nat)
    requires M.OnePerWorker(s.inflight, k) && i < |s.inflight|
    ensures Entry(M.Leave(s, i), who) == if s.inflight[i].who == who then None else Entry(s.inflight, who)
  {
    var left := M.Leave(s, i);
    assert M.OnePerWorker(left, k);
    if s.inflight[i].who == who || Entry(s.inflight, who).None? {
      EntryOfNone(left, who);
    } else {
      var j := M.Where(s.inflight, who).value;
      var at := if j < i then j else j - 1;
      assert left[at] == s.inflight[j];
      EntryIs(left, k, at);
    }
  }

  /** Replacing one worker's call, likewise. */
  lemma EntryUpdate(calls: seq<M.Call>, k: nat, i: nat, c: M.Call, who: nat)
    requires M.OnePerWorker(calls, k) && i < |calls| && c.who == calls[i].who
    ensures Entry(calls[i := c], who) == if c.who == who then Some(c) else Entry(calls, who)
  {
    var next := calls[i := c];
    assert M.OnePerWorker(next, k);
    if c.who == who {
      EntryIs(next, k, i);
    } else if Entry(calls, who).None? {
      EntryOfNone(next, who);
    } else {
      EntryIs(next, k, M.Where(calls, who).value);
    }
  }

  lemma EntryAppend(calls: seq<M.Call>, c: M.Call, who: nat)
    requires M.Where(calls, c.who).None?
    ensures Entry(calls + [c], who) == if c.who == who then Some(c) else Entry(calls, who)
  {
    assert (calls + [c])[..|calls|] == calls;
  }

  /** The worker an event belongs to, if it is one of a call. */
  predicate Belongs(ev: M.Event, who: nat) { ev.Note? || ev.Tick? || ev.who == who }

  /** What a worker is doing agrees with its call in flight, if it has one: the
      machine may have denied or dropped it. */
  predicate Fits(m: B.Meter, st: Status, c: Option<M.Call>) {
    match st
    case Idle => c.None?
    case Busy(e) => c.Some? ==> B.Measure(m, c.value.estimate) == e && c.value.paid.None?
    case Paying(e) => c.Some? ==> B.Measure(m, c.value.estimate) == e
    case Unlawful => true
  }

  /** A step changes the entry of the worker it belongs to and of no other. */
  lemma StepEntry(policies: seq<B.Policy>, s: M.System, k: nat, ev: M.Event, actor: nat, who: nat)
    requires s.now.Valid() && M.OnePerWorker(s.inflight, k) && Belongs(ev, actor)
    ensures actor != who ==> Entry(M.Step(policies, s, ev).inflight, who) == Entry(s.inflight, who)
  {
    hide M.OnePerWorker, Entry, B.Denial, C.PeriodWindow, C.Instant, B.SettleRows, B.Applicable, M.Leave;
    if !ev.Note? && !ev.Tick? {
      var i := M.Where(s.inflight, ev.who);
      if i.Some? {
        var c := s.inflight[i.value];
        EntryLeave(s, k, i.value, who);
        EntryUpdate(s.inflight, k, i.value, c.(next := c.next + 1), who);
        if ev.Finish? { EntryUpdate(s.inflight, k, i.value, c.(paid := Some(M.Paid(ev.actual, |s.rows|))), who); }
      } else if ev.Begin? {
        var c := M.Call(ev.who, ev.id, ev.ctx, ev.estimate, B.Applicable(policies, ev.ctx), 0, None);
        EntryAppend(s.inflight, c, who);
      }
    }
  }

  /** A lawful step is allowed by the load, and what the worker is doing goes on to
      agree with its call in flight. */
  lemma OwnStep(m: B.Meter, load: O.Load, policies: seq<B.Policy>, s: M.System, ev: M.Event, who: nat, st: Status)
    requires s.now.Valid() && M.OnePerWorker(s.inflight, load.K) && Belongs(ev, who) && who < load.K
    requires Fits(m, st, Entry(s.inflight, who)) && st != Unlawful && Next(m, load, st, ev) != Unlawful
    ensures O.Allowed(m, load, s, ev)
    ensures Fits(m, Next(m, load, st, ev), Entry(M.Step(policies, s, ev).inflight, who))
  {
    hide M.OnePerWorker, B.Denial, C.PeriodWindow, C.Instant, B.SettleRows, B.Applicable, M.Leave, B.Measure;
    if !ev.Note? && !ev.Tick? {
      var i := M.Where(s.inflight, who);
      if i.Some? {
        var c := s.inflight[i.value];
        EntryLeave(s, load.K, i.value, who);
        EntryUpdate(s.inflight, load.K, i.value, c.(next := c.next + 1), who);
        if ev.Finish? { EntryUpdate(s.inflight, load.K, i.value, c.(paid := Some(M.Paid(ev.actual, |s.rows|))), who); }
      } else if ev.Begin? {
        var c := M.Call(ev.who, ev.id, ev.ctx, ev.estimate, B.Applicable(policies, ev.ctx), 0, None);
        EntryAppend(s.inflight, c, who);
      }
    }
  }

  // ---- Interleavings --------------------------------------------------------------------------------

  /** A step and the worker that makes it. */
  datatype Tagged = Tagged(who: nat, event: M.Event)

  function Events(run: seq<Tagged>): seq<M.Event> {
    if run == [] then [] else Events(run[..|run| - 1]) + [run[|run| - 1].event]
  }

  /** The steps one worker makes in a run. */
  function Own(run: seq<Tagged>, who: nat): seq<M.Event> {
    if run == [] then []
    else
      var front, last := Own(run[..|run| - 1], who), run[|run| - 1];
      if last.who == who then front + [last.event] else front
  }

  /** Each worker makes the steps of its calls in order, as far as it gets; nobody
      else makes any. */
  ghost predicate Interleaves(g: Setup, lanes: seq<seq<Job>>, run: seq<Tagged>) {
    && (forall i :: 0 <= i < |run| ==> run[i].who < |lanes|)
    && (forall who :: 0 <= who < |lanes| ==> Own(run, who) <= LaneSteps(g, lanes[who], who))
  }

  lemma InterleavesFront(g: Setup, lanes: seq<seq<Job>>, run: seq<Tagged>)
    requires run != [] && Interleaves(g, lanes, run)
    ensures Interleaves(g, lanes, run[..|run| - 1])
  {
    hide LaneSteps;
    var front := run[..|run| - 1];
    forall who | 0 <= who < |lanes| ensures Own(front, who) <= LaneSteps(g, lanes[who], who) {
      assert Own(front, who) <= Own(run, who);
    }
  }

  lemma {:induction false} ChecksBelong(who: nat, n: nat)
    ensures forall ev :: ev in Checks(who, n) ==> Belongs(ev, who)
  {
    if n > 0 { ChecksBelong(who, n - 1); }
  }

  lemma {:induction false} NotesBelong(ctx: B.Context, records: seq<Record>, who: nat)
    ensures forall ev :: ev in Notes(ctx, records) ==> Belongs(ev, who)
  {
    if records != [] { NotesBelong(ctx, records[..|records| - 1], who); }
  }

  lemma {:induction false} LanesBelong(g: Setup, jobs: seq<Job>, who: nat)
    ensures forall ev :: ev in LaneSteps(g, jobs, who) ==> Belongs(ev, who)
  {
    hide Reserves, EstimateOf, Checks, Notes, SettlementOf, RecordsOf, LastAt, B.Applicable;
    if jobs != [] {
      var s, c := jobs[|jobs| - 1].books, jobs[|jobs| - 1].call;
      LanesBelong(g, jobs[..|jobs| - 1], who);
      ChecksBelong(who, |B.Applicable(g.policies, c.call.ctx)|);
      NotesBelong(c.call.ctx, RecordsOf(g, s, c), who);
      if SettlementOf(g, s, c).Some? { NotesBelong(c.call.ctx, SettlementOf(g, s, c).value.failed, who); }
    }
  }

  /** Part of a lawful lane is lawful. */
  lemma PartIsLawful(m: B.Meter, load: O.Load, g: Setup, jobs: seq<Job>, who: nat, part: seq<M.Event>)
    requires part <= LaneSteps(g, jobs, who) && forall j :: j in jobs ==> Bounded(m, load, g, j)
    ensures After(m, load, Idle, part) != Unlawful
  {
    hide Bounded, LaneSteps, After;
    var lane := LaneSteps(g, jobs, who);
    LanesAreLawful(m, load, g, jobs, who);
    AfterConcat(m, load, Idle, part, lane[|part|..]);
    assert part + lane[|part|..] == lane;
  }

  /** What holds after every step of an interleaving. */
  ghost predicate Agrees(m: B.Meter, load: O.Load, s: M.System, run: seq<Tagged>) {
    && s.now.Valid() && M.OnePerWorker(s.inflight, load.K)
    && forall who :: 0 <= who < load.K ==> Fits(m, After(m, load, Idle, Own(run, who)), Entry(s.inflight, who))
  }

  lemma OwnOneMore(run: seq<Tagged>, who: nat)
    requires run != []
    ensures var front, last := run[..|run| - 1], run[|run| - 1];
            && Events(run) == Events(front) + [last.event]
            && Own(run, who) == if last.who == who then Own(front, who) + [last.event] else Own(front, who)
  {}

  lemma AfterOneMore(m: B.Meter, load: O.Load, events: seq<M.Event>, ev: M.Event)
    ensures After(m, load, Idle, events + [ev]) == Next(m, load, After(m, load, Idle, events), ev)
  {}

  /** Any interleaving of the calls of K workers, each call with estimate within E and
      charge within D of it for the books it finds, is a run of the machine within
      the load of K, E and D. */
  lemma {:induction false} InterleavedCallsWithinLoad(m: B.Meter, load: O.Load, g: Setup, lanes: seq<seq<Job>>,
          start: M.System, run: seq<Tagged>)
    requires start.now.Valid() && start.inflight == [] && |lanes| == load.K && Interleaves(g, lanes, run)
    requires forall who, j :: 0 <= who < |lanes| && j in lanes[who] ==> Bounded(m, load, g, j)
    ensures O.WithinLoad(m, load, g.policies, start, Events(run))
    ensures Agrees(m, load, M.Run(g.policies, start, Events(run)), run)
  {
    hide Bounded, LaneSteps, M.Step, M.OnePerWorker, O.Allowed, Fits, Entry, After, Next, Interleaves;
    if run == [] {
      NothingAgrees(m, load, start);
    } else {
      var front, last := run[..|run| - 1], run[|run| - 1];
      InterleavesFront(g, lanes, run);
      InterleavedCallsWithinLoad(m, load, g, lanes, start, front);
      var s := M.Run(g.policies, start, Events(front));
      OneMoreAgreesToo(m, load, g, lanes, s, run);
      OwnOneMore(run, 0);
      assert (Events(front) + [last.event])[..|Events(front)|] == Events(front);
    }
  }

  lemma NothingAgrees(m: B.Meter, load: O.Load, s: M.System)
    requires s.now.Valid() && s.inflight == []
    ensures Agrees(m, load, s, [])
  {}

  lemma OneMoreAgreesToo(m: B.Meter, load: O.Load, g: Setup, lanes: seq<seq<Job>>, s: M.System, run: seq<Tagged>)
    requires run != [] && |lanes| == load.K && Interleaves(g, lanes, run) && Agrees(m, load, s, run[..|run| - 1])
    requires forall who, j :: 0 <= who < |lanes| && j in lanes[who] ==> Bounded(m, load, g, j)
    ensures O.Allowed(m, load, s, run[|run| - 1].event)
    ensures Agrees(m, load, M.Step(g.policies, s, run[|run| - 1].event), run)
  {
    hide Bounded, LaneSteps, M.Step, M.OnePerWorker, O.Allowed, Fits, Entry, After, Next, Own;
    var front, ev, actor := run[..|run| - 1], run[|run| - 1].event, run[|run| - 1].who;
    var lane := LaneSteps(g, lanes[actor], actor);
    OwnOneMore(run, actor);
    LanesBelong(g, lanes[actor], actor);
    assert ev == Own(run, actor)[|Own(front, actor)|] && ev == lane[|Own(front, actor)|];
    assert Own(front, actor) <= lane;
    PartIsLawful(m, load, g, lanes[actor], actor, Own(front, actor));
    PartIsLawful(m, load, g, lanes[actor], actor, Own(run, actor));
    AfterOneMore(m, load, Own(front, actor), ev);
    OwnStep(m, load, g.policies, s, ev, actor, After(m, load, Idle, Own(front, actor)));
    M.WorkersStep(g.policies, s, ev, load.K);
    var next := M.Step(g.policies, s, ev);
    forall who | 0 <= who < load.K ensures Fits(m, After(m, load, Idle, Own(run, who)), Entry(next.inflight, who)) {
      OwnOneMore(run, who);
      if who != actor { StepEntry(g.policies, s, load.K, ev, actor, who); }
    }
  }

  /** So overlapping calls of K workers, whatever answers they meet and however their
      steps interleave, leave the spend of a hard policy within the bound. */
  lemma InterleavedCallsStayBounded(m: B.Meter, load: O.Load, g: Setup, lanes: seq<seq<Job>>, start: M.System,
          run: seq<Tagged>, p: B.Policy)
    requires O.Quiet(start) && load.K >= 1 && |lanes| == load.K && Interleaves(g, lanes, run)
    requires forall who, j :: 0 <= who < |lanes| && j in lanes[who] ==> Bounded(m, load, g, j)
    requires p in g.policies && p.hard && B.LimitOn(m, p).Some? && O.SpentNow(m, p, start) <= B.LimitOn(m, p).value
    ensures O.SpentNow(m, p, M.Run(g.policies, start, Events(run))) <= O.Bound(B.LimitOn(m, p).value, load)
  {
    hide Bounded, Interleaves, M.Run, O.WithinLoad, O.SpentNow, O.Bound, Agrees;
    InterleavedCallsWithinLoad(m, load, g, lanes, start, run);
    O.OverspendBound(m, g.policies, p, load, start, Events(run));
  }

  // ---- One worker -------------------------------------------------------------------------------------

  function ByOne(events: seq<M.Event>): seq<Tagged> {
    if events == [] then [] else ByOne(events[..|events| - 1]) + [Tagged(0, events[|events| - 1])]
  }

  lemma {:induction false} AllItsOwn(events: seq<M.Event>)
    ensures Events(ByOne(events)) == events && Own(ByOne(events), 0) == events
    ensures forall i :: 0 <= i < |ByOne(events)| ==> ByOne(events)[i].who == 0
  {
    if events != [] { AllItsOwn(events[..|events| - 1]); }
  }

  /** Calls made one after another, each within its bounds, stay within the load of one worker. */
  lemma OneWorkerWithinLoad(m: B.Meter, e: nat, d: nat, g: Setup, jobs: seq<Job>, start: M.System)
    requires start.now.Valid() && start.inflight == []
    requires forall j :: j in jobs ==> Bounded(m, O.Load(1, e, d), g, j)
    ensures O.WithinLoad(m, O.Load(1, e, d), g.policies, start, LaneSteps(g, jobs, 0))
  {
    hide Bounded, LaneSteps, O.WithinLoad, Own, Events, Agrees;
    var run := ByOne(LaneSteps(g, jobs, 0));
    AllItsOwn(LaneSteps(g, jobs, 0));
    InterleavedCallsWithinLoad(m, O.Load(1, e, d), g, [jobs], start, run);
  }
}
