/** The per-deployment circuit breaker (backend/app/llm/circuit_breaker.py).

    `Breaker` is the source's class; every method is specified by one step of a
    pure transition function on one circuit, and the theorems about whole runs
    are stated for that function. */
module CircuitBreaker {
  import opened Basics

  datatype State = Closed | Open | HalfOpen

  datatype Circuit = Circuit(
    state: State,
    failures: nat,
    successes: nat,
    openedAt: Option<Micros>,
    lastFailureAt: Option<Micros>,
    lastFailureCode: Option<string>,
    totalOpened: nat)

  const FRESH := Circuit(Closed, 0, 0, None, None, None, 0)

  const MIN_COOLDOWN: Micros := 10_000

  /** The settings after the clamping done by the constructor and `configure`. */
  datatype Config = Config(failureThreshold: int, cooldown: Micros, successThreshold: int, enabled: bool) {
    predicate Valid() { 1 <= failureThreshold && MIN_COOLDOWN <= cooldown && 1 <= successThreshold }
  }

  /** What can happen to one deployment's circuit. `AskOpen` is `is_open`;
      `AskState` is `get_state` and `snapshot`, which ignore the enabled flag. */
  datatype Op =
    | AskOpen
    | AskState
    | Succeed
    | Fail(code: Option<string>)
    | Reset
    | Force(target: State)

  datatype Timed = Timed(op: Op, at: Micros)

  // ---- One circuit ----------------------------------------------------------

  predicate CooledDown(cfg: Config, c: Circuit, now: Micros) {
    c.state.Open? && c.openedAt.Some? && now - c.openedAt.value >= cfg.cooldown
  }

  /** The lazy OPEN to HALF_OPEN transition made by the queries. */
  function Lapse(cfg: Config, c: Circuit, now: Micros): Circuit {
    if CooledDown(cfg, c, now) then c.(state := HalfOpen, successes := 0) else c
  }

  function AfterSuccess(cfg: Config, c: Circuit): Circuit {
    match c.state
    case HalfOpen =>
      if c.successes + 1 >= cfg.successThreshold
      then c.(state := Closed, failures := 0, successes := 0, openedAt := None)
      else c.(failures := 0, successes := c.successes + 1)
    case Open => c.(state := Closed, failures := 0, successes := 0, openedAt := None)
    case Closed => c.(failures := 0)
  }

  function AfterFailure(cfg: Config, c: Circuit, code: Option<string>, now: Micros): Circuit {
    var d := c.(failures := c.failures + 1, lastFailureAt := Some(now), lastFailureCode := code);
    if c.state.HalfOpen? || (c.state.Closed? && d.failures >= cfg.failureThreshold)
    then d.(state := Open, openedAt := Some(now), totalOpened := d.totalOpened + 1, successes := 0)
    else d
  }

  function AfterForce(c: Circuit, target: State, now: Micros): Circuit {
    if target.Open?
    then c.(state := Open, openedAt := Some(now), totalOpened := c.totalOpened + 1)
    else c.(state := target, openedAt := None, failures := 0, successes := 0)
  }

  function OrFresh(c: Option<Circuit>): Circuit {
    if c.Some? then c.value else FRESH
  }

  /** One operation on one deployment; `None` is "no entry in the dictionary". */
  function Step(cfg: Config, c: Option<Circuit>, ev: Timed): Option<Circuit> {
    match ev.op
    case AskOpen => if c.Some? && cfg.enabled then Some(Lapse(cfg, c.value, ev.at)) else c
    case AskState => if c.Some? then Some(Lapse(cfg, c.value, ev.at)) else c
    case Succeed => Some(AfterSuccess(cfg, OrFresh(c)))
    case Fail(code) => Some(AfterFailure(cfg, OrFresh(c), code, ev.at))
    case Reset => None
    case Force(target) => Some(AfterForce(OrFresh(c), target, ev.at))
  }

  /** The answer `is_open` gives, before its own lazy transition is stored. */
  predicate OpenAnswer(cfg: Config, c: Option<Circuit>, now: Micros) {
    cfg.enabled && c.Some? && c.value.state.Open? && !CooledDown(cfg, c.value, now)
  }

  function RunFrom(cfg: Config, c: Option<Circuit>, run: seq<Timed>): Option<Circuit> {
    if run == [] then c
    else Step(cfg, RunFrom(cfg, c, run[..|run| - 1]), run[|run| - 1])
  }

  function Run(cfg: Config, run: seq<Timed>): Option<Circuit> { RunFrom(cfg, None, run) }

  // ---- The dictionary of circuits -------------------------------------------

  /** An operation of the breaker; `target == None` only for `reset()` of all. */
  datatype Event = Event(target: Option<string>, timed: Timed)

  predicate Addressed(ev: Event) { ev.target.None? ==> ev.timed.op.Reset? }

  function Lookup(m: map<string, Circuit>, d: string): Option<Circuit> {
    if d in m then Some(m[d]) else None
  }

  function Store(m: map<string, Circuit>, d: string, c: Option<Circuit>): map<string, Circuit> {
    if c.Some? then m[d := c.value] else m - {d}
  }

  function StepAll(cfg: Config, m: map<string, Circuit>, ev: Event): map<string, Circuit> {
    match ev.target
    case None => map[]
    case Some(d) => Store(m, d, Step(cfg, Lookup(m, d), ev.timed))
  }

  function RunAll(cfg: Config, run: seq<Event>): map<string, Circuit> {
    if run == [] then map[]
    else StepAll(cfg, RunAll(cfg, run[..|run| - 1]), run[|run| - 1])
  }

  predicate Concerns(ev: Event, d: string) { ev.target == None || ev.target == Some(d) }

  /** What deployment `d` sees of a run of the whole breaker. */
  function Project(run: seq<Event>, d: string): seq<Timed> {
    if run == [] then []
    else
      Project(run[..|run| - 1], d) +
      (if Concerns(run[|run| - 1], d) then [run[|run| - 1].timed] else [])
  }

  /** No operation on one deployment changes another: a deployment's circuit is
      a function of the operations that name it and of the resets of all. */
  lemma {:induction false} DeploymentsAreIndependent(cfg: Config, run: seq<Event>, d: string)
    requires forall ev :: ev in run ==> Addressed(ev)
    ensures Lookup(RunAll(cfg, run), d) == Run(cfg, Project(run, d))
  {
    if run != [] {
      var ev := run[|run| - 1];
      DeploymentsAreIndependent(cfg, run[..|run| - 1], d);
      assert ev in run;
      if Concerns(ev, d) {
        var p := Project(run, d);
        assert p[..|p| - 1] == Project(run[..|run| - 1], d);
        assert Run(cfg, p) == Step(cfg, Run(cfg, p[..|p| - 1]), ev.timed);
      } else {
        assert Project(run, d) == Project(run[..|run| - 1], d);
      }
    }
  }

  // ---- Invariants over whole runs -------------------------------------------

  ghost predicate WellFormed(cfg: Config, c: Circuit) {
    && (c.state.Closed? ==> c.failures < cfg.failureThreshold && c.openedAt == None && c.successes == 0)
    && (c.state.Open? ==> c.openedAt.Some?)
    && c.successes < cfg.successThreshold
  }

  lemma {:induction false} RunsStayWellFormed(cfg: Config, run: seq<Timed>)
    requires cfg.Valid()
    ensures Run(cfg, run).Some? ==> WellFormed(cfg, Run(cfg, run).value)
  {
    if run != [] { RunsStayWellFormed(cfg, run[..|run| - 1]); }
  }

  /** Operations that set the failure counter back to zero. */
  predicate Clears(op: Op) {
    op.Succeed? || op.Reset? || (op.Force? && !op.target.Open?)
  }

  predicate IsFailure(ev: Timed) { ev.op.Fail? }

  /** The failure counter is the number of failures recorded since the last
      success, reset or override to a state other than OPEN (`k` operations in). */
  lemma {:induction false} CounterIsTrailingFailureRun(cfg: Config, run: seq<Timed>, k: nat)
    requires k <= |run|
    requires k == 0 || Clears(run[k - 1].op)
    requires forall i :: k <= i < |run| ==> !Clears(run[i].op)
    ensures OrFresh(Run(cfg, run)).failures == Count(run[k..], IsFailure)
    decreases |run|
  {
    if k < |run| {
      var before := run[..|run| - 1];
      CounterIsTrailingFailureRun(cfg, before, k);
      assert run[k..][..|run[k..]| - 1] == before[k..];
    }
  }

  // ---- The cooldown window ---------------------------------------------------

  /** Operations that leave an open circuit's clock alone: further failures, and
      queries made before the cooldown has elapsed. */
  predicate LeavesOpen(cfg: Config, t0: Micros, ev: Timed) {
    ev.op.Fail? || ((ev.op.AskOpen? || ev.op.AskState?) && ev.at < t0 + cfg.cooldown)
  }

  lemma {:induction false} StaysOpen(cfg: Config, c: Circuit, t0: Micros, rest: seq<Timed>)
    requires c.state.Open? && c.openedAt == Some(t0)
    requires forall ev :: ev in rest ==> LeavesOpen(cfg, t0, ev)
    ensures var d := RunFrom(cfg, Some(c), rest);
            d.Some? && d.value.state.Open? && d.value.openedAt == Some(t0) && d.value.totalOpened == c.totalOpened
  {
    if rest != [] {
      assert rest[|rest| - 1] in rest;
      StaysOpen(cfg, c, t0, rest[..|rest| - 1]);
    }
  }

  /** A recorded failure or an override opened the circuit at `opening.at`. */
  predicate Opens(cfg: Config, before: Option<Circuit>, opening: Timed) {
    var after := Step(cfg, before, opening);
    && (opening.op.Fail? || opening.op.Force?)
    && after.Some? && after.value.state.Open?
    && (opening.op.Force? || !OrFresh(before).state.Open?)
  }

  lemma {:induction false} RunFromConcat(cfg: Config, c: Option<Circuit>, a: seq<Timed>, b: seq<Timed>)
    ensures RunFrom(cfg, c, a + b) == RunFrom(cfg, RunFrom(cfg, c, a), b)
  {
    if b == [] {
      assert a + b == a;
    } else {
      assert (a + b)[..|a + b| - 1] == a + b[..|b| - 1];
      RunFromConcat(cfg, c, a, b[..|b| - 1]);
    }
  }

  /** Once a circuit opens at t0, `is_open` answers true exactly before
      t0 + cooldown, however many failures and queries come in between; the
      first query at or after that moment answers false and leaves the circuit
      half open, so that `is_open` is false from then on. */
  lemma {:induction false} OpenExactlyForTheCooldown(cfg: Config, before: seq<Timed>, opening: Timed,
          rest: seq<Timed>, now: Micros)
    requires cfg.Valid() && cfg.enabled
    requires Opens(cfg, Run(cfg, before), opening)
    requires forall ev :: ev in rest ==> LeavesOpen(cfg, opening.at, ev)
    ensures var c := Run(cfg, before + [opening] + rest);
            && (OpenAnswer(cfg, c, now) <==> now < opening.at + cfg.cooldown)
            && (now >= opening.at + cfg.cooldown ==>
                  var probe := Step(cfg, c, Timed(AskOpen, now));
                  && probe.Some? && probe.value.state.HalfOpen? && probe.value.successes == 0
                  && forall later :: !OpenAnswer(cfg, probe, later))
  {
    var upTo := before + [opening];
    assert upTo[..|upTo| - 1] == before;
    RunFromConcat(cfg, None, upTo, rest);
    var c := Run(cfg, upTo).value;
    StaysOpen(cfg, c, opening.at, rest);
  }

  // ---- Openings and closings against the outcomes recorded -------------------

  /** Times a recorded failure took the circuit from CLOSED to OPEN. */
  ghost function OpeningsFromClosed(cfg: Config, run: seq<Timed>): nat {
    if run == [] then 0
    else
      var before := OrFresh(Run(cfg, run[..|run| - 1]));
      var ev := run[|run| - 1];
      OpeningsFromClosed(cfg, run[..|run| - 1]) +
      (if ev.op.Fail? && before.state.Closed? && OrFresh(Run(cfg, run)).state.Open? then 1 else 0)
  }

  /** Every opening made from CLOSED has used up its own `failureThreshold`
      recorded failures. */
  lemma {:induction false} OpeningsArePaidFor(cfg: Config, run: seq<Timed>)
    requires cfg.Valid()
    ensures var c := OrFresh(Run(cfg, run));
            cfg.failureThreshold * OpeningsFromClosed(cfg, run) + (if c.state.Closed? then c.failures else 0)
            <= Count(run, IsFailure)
  {
    if run != [] {
      OpeningsArePaidFor(cfg, run[..|run| - 1]);
      RunsStayWellFormed(cfg, run[..|run| - 1]);
    }
  }

  /** A half-open circuit closes exactly when the probes since it became half
      open have all succeeded and are `successThreshold` many. */
  predicate IsProbe(ev: Timed) { ev.op.Succeed? || ev.op.AskOpen? || ev.op.AskState? }

  predicate IsSuccess(ev: Timed) { ev.op.Succeed? }

  lemma {:induction false} ClosesAfterEnoughProbes(cfg: Config, c: Circuit, probes: seq<Timed>)
    requires cfg.Valid() && WellFormed(cfg, c) && c.state.HalfOpen?
    requires forall ev :: ev in probes ==> IsProbe(ev)
    ensures var d := RunFrom(cfg, Some(c), probes);
            d.Some? &&
            if c.successes + Count(probes, IsSuccess) >= cfg.successThreshold
            then d.value.state.Closed?
            else d.value.state.HalfOpen? && d.value.successes == c.successes + Count(probes, IsSuccess)
  {
    if probes != [] {
      assert probes[|probes| - 1] in probes;
      ClosesAfterEnoughProbes(cfg, c, probes[..|probes| - 1]);
    }
  }

  /** A probe that fails after too few successes opens the circuit again, for a full
      cooldown from that failure, whatever failures and early queries follow it. */
  lemma {:induction false} FailedProbeReopens(cfg: Config, c: Circuit, probes: seq<Timed>, failure: Timed,
          rest: seq<Timed>, later: Micros)
    requires cfg.Valid() && cfg.enabled && WellFormed(cfg, c) && c.state.HalfOpen?
    requires forall ev :: ev in probes ==> IsProbe(ev)
    requires c.successes + Count(probes, IsSuccess) < cfg.successThreshold
    requires failure.op.Fail? && forall ev :: ev in rest ==> LeavesOpen(cfg, failure.at, ev)
    ensures var d := RunFrom(cfg, Some(c), probes + [failure] + rest);
            && (OpenAnswer(cfg, d, later) <==> later < failure.at + cfg.cooldown)
            && OrFresh(d).totalOpened == OrFresh(RunFrom(cfg, Some(c), probes)).totalOpened + 1
  {
    ClosesAfterEnoughProbes(cfg, c, probes);
    var upTo := probes + [failure];
    assert upTo[..|upTo| - 1] == probes;
    RunFromConcat(cfg, Some(c), upTo, rest);
    StaysOpen(cfg, RunFrom(cfg, Some(c), upTo).value, failure.at, rest);
  }

  /** Asking twice at one instant gives the same answer. */
  lemma AskingTwice(cfg: Config, c: Option<Circuit>, now: Micros)
    ensures var d := Step(cfg, c, Timed(AskOpen, now));
            OpenAnswer(cfg, d, now) == OpenAnswer(cfg, c, now) && Step(cfg, d, Timed(AskOpen, now)) == d
  {}

  // ---- States and records over a whole run ------------------------------------

  /** A circuit is closed until something happens to it. A success closes it, unless it
      is half open and has not been probed often enough; a failure opens it, unless
      it is closed and has not failed often enough; a query makes it half open once
      it has been open for the cooldown, but `is_open` only on a breaker that is
      switched on; an override sets it, and a reset closes it. */
  lemma {:induction false} NextState(cfg: Config, run: seq<Timed>, ev: Timed)
    requires cfg.Valid()
    ensures OrFresh(Run(cfg, [])).state.Closed?
    ensures OrFresh(Run(cfg, run)).state.Open? ==> OrFresh(Run(cfg, run)).openedAt.Some?
    ensures var before, after := OrFresh(Run(cfg, run)), OrFresh(Run(cfg, run + [ev])).state;
            var waited := before.state.Open? && ev.at >= before.openedAt.value + cfg.cooldown;
            after ==
              match ev.op
              case Succeed =>
                if before.state.HalfOpen? && before.successes + 1 < cfg.successThreshold then HalfOpen else Closed
              case Fail(_) =>
                if before.state.Closed? && before.failures + 1 < cfg.failureThreshold then Closed else Open
              case AskOpen => if waited && cfg.enabled then HalfOpen else before.state
              case AskState => if waited then HalfOpen else before.state
              case Force(target) => target
              case Reset => Closed
  {
    RunsStayWellFormed(cfg, run);
    assert (run + [ev])[..|run|] == run;
  }

  /** A breaker that is switched off never answers that a circuit is open. */
  lemma DisabledNeverOpen(cfg: Config, run: seq<Timed>, now: Micros)
    ensures OpenAnswer(cfg, Run(cfg, run), now) ==> cfg.enabled && OrFresh(Run(cfg, run)).state.Open?
  {}

  /** The last failure since the last reset, its time and its code, are remembered. */
  lemma {:induction false} LastFailureIsRemembered(cfg: Config, run: seq<Timed>, i: nat)
    requires i < |run| && run[i].op.Fail?
    requires forall j :: i < j < |run| ==> !run[j].op.Fail? && !run[j].op.Reset?
    ensures var c := OrFresh(Run(cfg, run));
            c.lastFailureAt == Some(run[i].at) && c.lastFailureCode == run[i].op.code
    decreases |run|
  {
    if i < |run| - 1 { LastFailureIsRemembered(cfg, run[..|run| - 1], i); }
  }

  /** Openings since the last reset: failures that open a circuit that is not open, and
      overrides to OPEN. */
  ghost function Openings(cfg: Config, run: seq<Timed>): nat {
    if run == [] then 0
    else
      var front, ev := run[..|run| - 1], run[|run| - 1];
      var opens := !OrFresh(Run(cfg, front)).state.Open? && OrFresh(Run(cfg, run)).state.Open?;
      if ev.op.Reset? then 0 else Openings(cfg, front) + (if opens || ev.op == Force(Open) then 1 else 0)
  }

  /** The circuit counts its openings. */
  lemma {:induction false} OpeningsAreCounted(cfg: Config, run: seq<Timed>)
    ensures OrFresh(Run(cfg, run)).totalOpened == Openings(cfg, run)
  {
    if run != [] { OpeningsAreCounted(cfg, run[..|run| - 1]); }
  }

  // ---- The class --------------------------------------------------------------

  datatype Snapshot = Snapshot(circuit: Circuit, untilHalfOpen: Option<Micros>)

  class Breaker {
    var cfg: Config
    var circuits: map<string, Circuit>

    ghost predicate Valid() reads this { cfg.Valid() }

    constructor (failureThreshold: int, cooldown: Micros, successThreshold: int, enabled: bool)
      ensures Valid()
      ensures cfg == Config(Max(1, failureThreshold), Max(MIN_COOLDOWN, cooldown), Max(1, successThreshold), enabled)
      ensures circuits == map[]
    {
      cfg := Config(Max(1, failureThreshold), Max(MIN_COOLDOWN, cooldown), Max(1, successThreshold), enabled);
      circuits := map[];
    }

    method Configure(failureThreshold: Option<int>, cooldown: Option<Micros>, successThreshold: Option<int>,
            enabled: Option<bool>)
      requires Valid()
      modifies this`cfg
      ensures Valid()
      ensures cfg.failureThreshold ==
              if failureThreshold.Some? then Max(1, failureThreshold.value) else old(cfg.failureThreshold)
      ensures cfg.cooldown == if cooldown.Some? then Max(MIN_COOLDOWN, cooldown.value) else old(cfg.cooldown)
      ensures cfg.successThreshold ==
              if successThreshold.Some? then Max(1, successThreshold.value) else old(cfg.successThreshold)
      ensures cfg.enabled == if enabled.Some? then enabled.value else old(cfg.enabled)
    {
      if failureThreshold.Some? { cfg := cfg.(failureThreshold := Max(1, failureThreshold.value)); }
      if cooldown.Some? { cfg := cfg.(cooldown := Max(MIN_COOLDOWN, cooldown.value)); }
      if successThreshold.Some? { cfg := cfg.(successThreshold := Max(1, successThreshold.value)); }
      if enabled.Some? { cfg := cfg.(enabled := enabled.value); }
    }

    method IsOpen(d: string, now: Micros) returns (open: bool)
      modifies this`circuits
      ensures circuits == StepAll(cfg, old(circuits), Event(Some(d), Timed(AskOpen, now)))
      ensures open == OpenAnswer(cfg, Lookup(old(circuits), d), now)
    {
      if !cfg.enabled { assert circuits == Store(circuits, d, Lookup(circuits, d)); return false; }
      if d !in circuits || !circuits[d].state.Open? {
        assert circuits == Store(circuits, d, Lookup(circuits, d));
        return false;
      }
      var c := circuits[d];
      if c.openedAt.None? {
        assert circuits == circuits[d := c];
        return true;
      }
      if now - c.openedAt.value >= cfg.cooldown {
        circuits := circuits[d := c.(state := HalfOpen, successes := 0)];
        return false;
      }
      assert circuits == circuits[d := c];
      return true;
    }

    method GetState(d: string, now: Micros) returns (s: State)
      modifies this`circuits
      ensures circuits == StepAll(cfg, old(circuits), Event(Some(d), Timed(AskState, now)))
      ensures s == OrFresh(Lookup(circuits, d)).state
    {
      if d !in circuits { assert circuits == circuits - {d}; return Closed; }
      var c := circuits[d];
      if c.state.Open? && c.openedAt.Some? && now - c.openedAt.value >= cfg.cooldown {
        c := c.(state := HalfOpen, successes := 0);
      }
      circuits := circuits[d := c];
      s := c.state;
    }

    method TakeSnapshot(d: string, now: Micros) returns (snap: Option<Snapshot>)
      modifies this`circuits
      ensures circuits == StepAll(cfg, old(circuits), Event(Some(d), Timed(AskState, now)))
      ensures snap.Some? <==> d in old(circuits)
      ensures snap.Some? ==>
                && Some(snap.value.circuit) == Lookup(circuits, d)
                && (snap.value.untilHalfOpen.Some? <==> circuits[d].state.Open? && circuits[d].openedAt.Some?)
                && (snap.value.untilHalfOpen.Some? ==>
                      && 0 < snap.value.untilHalfOpen.value
                      && now + snap.value.untilHalfOpen.value == circuits[d].openedAt.value + cfg.cooldown)
    {
      if d !in circuits { assert circuits == circuits - {d}; return None; }
      var s := GetState(d, now);
      var c := circuits[d];
      var left := None;
      if c.state.Open? && c.openedAt.Some? {
        left := Some(Max(0, cfg.cooldown - (now - c.openedAt.value)));
      }
      snap := Some(Snapshot(c, left));
    }

    method RecordSuccess(d: string, now: Micros)
      modifies this`circuits
      ensures circuits == StepAll(cfg, old(circuits), Event(Some(d), Timed(Succeed, now)))
    {
      var c := if d in circuits then circuits[d] else FRESH;
      c := c.(failures := 0);
      if c.state.HalfOpen? {
        c := c.(successes := c.successes + 1);
        if c.successes >= cfg.successThreshold {
          c := c.(state := Closed, successes := 0, openedAt := None);
        }
      } else if c.state.Open? {
        c := c.(state := Closed, openedAt := None, successes := 0);
      }
      circuits := circuits[d := c];
    }

    method RecordFailure(d: string, code: Option<string>, now: Micros)
      modifies this`circuits
      ensures circuits == StepAll(cfg, old(circuits), Event(Some(d), Timed(Fail(code), now)))
    {
      var c := if d in circuits then circuits[d] else FRESH;
      c := c.(failures := c.failures + 1, lastFailureAt := Some(now), lastFailureCode := code);
      if c.state.HalfOpen? {
        c := c.(state := Open, openedAt := Some(now), totalOpened := c.totalOpened + 1, successes := 0);
      } else if c.state.Closed? {
        if c.failures >= cfg.failureThreshold {
          c := c.(state := Open, openedAt := Some(now), totalOpened := c.totalOpened + 1, successes := 0);
        }
      }
      circuits := circuits[d := c];
    }

    method ResetOne(d: Option<string>, now: Micros)
      modifies this`circuits
      ensures circuits == StepAll(cfg, old(circuits), Event(d, Timed(Reset, now)))
    {
      if d.None? { circuits := map[]; } else { circuits := circuits - {d.value}; }
    }

    method ForceState(d: string, target: State, now: Micros)
      modifies this`circuits
      ensures circuits == StepAll(cfg, old(circuits), Event(Some(d), Timed(Force(target), now)))
    {
      var c := if d in circuits then circuits[d] else FRESH;
      c := c.(state := target);
      if target.Open? {
        c := c.(openedAt := Some(now), totalOpened := c.totalOpened + 1);
      } else {
        c := c.(openedAt := None, failures := 0, successes := 0);
      }
      circuits := circuits[d := c];
    }
  }
}
