/** Budget policies, spend and the reservation ledger (backend/app/llm/budget.py),
    with the usage rows that spend is summed from (backend/app/llm/usage.py). */
module Budget {
  import opened Basics
  import opened Pricing
  import C = Calendar

  // ---- Data -------------------------------------------------------------------------

  /** Who a call is made for. `costCenter` is the one `resolve_cost_center` finds
      for the context, the same every time it is asked. */
  datatype Context = Context(
    tenant: Id,
    user: Option<Id>,
    department: Option<Id>,
    costCenter: Option<Id>,
    agent: Option<Id>,
    channel: Option<Id>)

  datatype ScopeType = Tenant | Department | CostCenter | User | Agent | Channel | Unknown

  datatype Policy = Policy(
    id: Id,
    tenant: Id,
    scopeType: ScopeType,
    scopeId: Option<Id>,
    period: C.Period,
    amountMicros: nat,
    tokenLimit: Option<nat>,
    hard: bool,
    alertPct: nat,
    active: bool)

  datatype CallStatus = Success | Error | Denied | BudgetExceeded

  /** One row of the usage table. */
  datatype UsageRow = UsageRow(ctx: Context, status: CallStatus, usage: Usage, deployment: Option<string>,
      createdAt: Micros)

  datatype Scope = Scope(budgetId: Id, scopeType: ScopeType, scopeId: Option<Id>)

  datatype Reason = Approved | AmountExceeded(scope: ScopeType) | TokensExceeded(scope: ScopeType) | StorageUnavailable

  datatype Reservation = Reservation(
    id: Id, approved: bool, reason: Reason, estimatedTokens: nat, estimatedMicros: nat, scopes: seq<Scope>)

  datatype EventType = Reserve | Deny | Settle | Release | Alert

  /** One row of the append-only budget ledger. */
  datatype LedgerRow = LedgerRow(event: EventType, reservation: Id, scope: Scope, ctx: Context, estimated: Usage,
      actual: Usage)

  // ---- Which policies apply, and which rows they count ---------------------------------

  function ScopeOf(p: Policy): Scope { Scope(p.id, p.scopeType, p.scopeId) }

  function ScopeMember(t: ScopeType, ctx: Context): Option<Id> {
    match t
    case Department => ctx.department
    case CostCenter => ctx.costCenter
    case User => ctx.user
    case Agent => ctx.agent
    case Channel => ctx.channel
    case _ => None
  }

  /** `_policy_matches_context`. */
  predicate Matches(p: Policy, ctx: Context) {
    match p.scopeType
    case Tenant => p.scopeId == None
    case Unknown => false
    case _ => p.scopeId.Some? && p.scopeId == ScopeMember(p.scopeType, ctx)
  }

  /** The policies loaded for a context: active, of its tenant, and matching. */
  predicate Applies(p: Policy, ctx: Context) { p.tenant == ctx.tenant && p.active && Matches(p, ctx) }

  function Applicable(policies: seq<Policy>, ctx: Context): seq<Policy> {
    if policies == [] then []
    else
      var front, p := Applicable(policies[..|policies| - 1], ctx), policies[|policies| - 1];
      if Applies(p, ctx) then front + [p] else front
  }

  lemma {:induction false} ApplicableMembers(policies: seq<Policy>, ctx: Context, p: Policy)
    ensures p in Applicable(policies, ctx) <==> p in policies && Applies(p, ctx)
  {
    if policies != [] { ApplicableMembers(policies[..|policies| - 1], ctx, p); }
  }

  /** The filters `_usage_for_policy` builds from the policy and the caller's context. */
  predicate Selected(p: Policy, ctx: Context, w: C.Window, row: UsageRow) {
    && row.ctx.tenant == ctx.tenant
    && row.status.Success?
    && w.Contains(row.createdAt)
    && (p.scopeType.Department? && ctx.department.Some? ==> row.ctx.department == ctx.department)
    && (p.scopeType.CostCenter? && ctx.costCenter.Some? ==> row.ctx.costCenter == ctx.costCenter)
    && (p.scopeType.User? && ctx.user.Some? ==> row.ctx.user == ctx.user)
    && (p.scopeType.Agent? && ctx.agent.Some? ==> row.ctx.agent == ctx.agent)
    && (p.scopeType.Channel? && ctx.channel.Some? ==> row.ctx.channel == ctx.channel)
  }

  /** A row of the policy's own calls: a successful call, inside the window, of a
      context the policy applies to. */
  predicate Counted(p: Policy, w: C.Window, row: UsageRow) {
    row.status.Success? && w.Contains(row.createdAt) && Applies(p, row.ctx)
  }

  /** The usage filter and the policy match select the same calls: whichever
      applicable context asks, the rows selected are those of the calls the policy
      applies to. */
  lemma FilterAgreesWithMatch(p: Policy, ctx: Context, w: C.Window, row: UsageRow)
    requires Applies(p, ctx)
    ensures Selected(p, ctx, w, row) <==> Counted(p, w, row)
  {}

  /** Amount in micro-dollars, or tokens. */
  datatype Meter = Money | Tokens

  function Measure(m: Meter, u: Usage): nat { if m.Money? then u.costMicros else u.totalTokens }

  /** The limit a policy puts on a meter; an amount of zero is no limit. */
  function LimitOn(m: Meter, p: Policy): Option<nat> {
    if m.Money? then (if p.amountMicros > 0 then Some(p.amountMicros) else None) else p.tokenLimit
  }

  /** `_usage_for_policy`: what the rows selected for this caller sum to. */
  function UsageFor(m: Meter, p: Policy, ctx: Context, w: C.Window, rows: seq<UsageRow>): nat {
    if rows == [] then 0
    else
      UsageFor(m, p, ctx, w, rows[..|rows| - 1]) +
      (if Selected(p, ctx, w, rows[|rows| - 1]) then Measure(m, rows[|rows| - 1].usage) else 0)
  }

  /** What the policy has spent in a window. */
  function Spent(m: Meter, p: Policy, w: C.Window, rows: seq<UsageRow>): nat {
    if rows == [] then 0
    else
      Spent(m, p, w, rows[..|rows| - 1]) +
      (if Counted(p, w, rows[|rows| - 1]) then Measure(m, rows[|rows| - 1].usage) else 0)
  }

  lemma {:induction false} UsageIsSpent(m: Meter, p: Policy, ctx: Context, w: C.Window, rows: seq<UsageRow>)
    requires Applies(p, ctx)
    ensures UsageFor(m, p, ctx, w, rows) == Spent(m, p, w, rows)
  {
    if rows != [] {
      UsageIsSpent(m, p, ctx, w, rows[..|rows| - 1]);
      FilterAgreesWithMatch(p, ctx, w, rows[|rows| - 1]);
    }
  }

  lemma SpentAppend(m: Meter, p: Policy, w: C.Window, rows: seq<UsageRow>, row: UsageRow)
    ensures Spent(m, p, w, rows + [row]) == Spent(m, p, w, rows) +
        (if Counted(p, w, row) then Measure(m, row.usage) else 0)
  {}

  // ---- The hard-limit check ---------------------------------------------------------------

  /** The denial one hard policy raises against an estimate. */
  function Denial(p: Policy, ctx: Context, w: C.Window, rows: seq<UsageRow>, estimate: Usage): Option<Reason> {
    if p.amountMicros > 0 && UsageFor(Money, p, ctx, w, rows) + estimate.costMicros > p.amountMicros
    then Some(AmountExceeded(p.scopeType))
    else if p.tokenLimit.Some? && UsageFor(Tokens, p, ctx, w, rows) + estimate.totalTokens > p.tokenLimit.value
    then Some(TokensExceeded(p.scopeType))
    else None
  }

  /** A check passes exactly when the estimate fits under both of the limits. */
  lemma NoDenialMeansRoom(p: Policy, ctx: Context, w: C.Window, rows: seq<UsageRow>, estimate: Usage)
    requires Applies(p, ctx)
    ensures Denial(p, ctx, w, rows, estimate).None? <==>
            forall m :: LimitOn(m, p).Some? ==> Spent(m, p, w, rows) + Measure(m, estimate) <= LimitOn(m, p).value
  {
    UsageIsSpent(Money, p, ctx, w, rows);
    UsageIsSpent(Tokens, p, ctx, w, rows);
    assert LimitOn(Money, p).Some? <==> p.amountMicros > 0;
    assert LimitOn(Tokens, p) == p.tokenLimit;
  }

  function FirstDenial(policies: seq<Policy>, ctx: Context, now: C.Moment, rows: seq<UsageRow>,
          estimate: Usage): Option<(Policy, Reason)>
    requires now.Valid()
  {
    if policies == [] then None
    else
      var p := policies[0];
      var d := if p.hard then Denial(p, ctx, C.PeriodWindow(p.period, now), rows, estimate) else None;
      if d.Some? then Some((p, d.value)) else FirstDenial(policies[1..], ctx, now, rows, estimate)
  }

  /** Every hard policy that applies has room for the estimate on both meters. */
  ghost predicate RoomEverywhere(policies: seq<Policy>, now: C.Moment, rows: seq<UsageRow>, estimate: Usage)
    requires now.Valid()
  {
    forall p, m :: p in policies && p.hard && LimitOn(m, p).Some? ==>
      Spent(m, p, C.PeriodWindow(p.period, now), rows) + Measure(m, estimate) <= LimitOn(m, p).value
  }

  lemma {:induction false} NoDenialIffRoom(policies: seq<Policy>, ctx: Context, now: C.Moment, rows: seq<UsageRow>,
          estimate: Usage)
    requires now.Valid()
    requires forall p :: p in policies ==> Applies(p, ctx)
    ensures FirstDenial(policies, ctx, now, rows, estimate).None? <==> RoomEverywhere(policies, now, rows, estimate)
  {
    if policies != [] {
      var p := policies[0];
      NoDenialIffRoom(policies[1..], ctx, now, rows, estimate);
      NoDenialMeansRoom(p, ctx, C.PeriodWindow(p.period, now), rows, estimate);
      assert policies == [p] + policies[1..];
    }
  }

  // ---- Ledger rows of one call ----------------------------------------------------------

  function Scopes(policies: seq<Policy>): seq<Scope> {
    seq(|policies|, i requires 0 <= i < |policies| => ScopeOf(policies[i]))
  }

  function EstimateOf(r: Reservation): Usage { Usage(0, 0, r.estimatedTokens, r.estimatedMicros) }

  /** One row per scope of a reservation. */
  function RowsFor(event: EventType, r: Reservation, ctx: Context, estimated: Usage, actual: Usage): seq<LedgerRow> {
    seq(|r.scopes|, i requires 0 <= i < |r.scopes| => LedgerRow(event, r.id, r.scopes[i], ctx, estimated, actual))
  }

  function ReserveOutcome(policies: seq<Policy>, ctx: Context, now: C.Moment, rows: seq<UsageRow>, estimate: Usage,
          id: Id, storageUp: bool): Reservation
    requires now.Valid()
  {
    var mine := Applicable(policies, ctx);
    var d := FirstDenial(mine, ctx, now, rows, estimate);
    if !storageUp then Reservation(id, false, StorageUnavailable, estimate.totalTokens, estimate.costMicros, [])
    else if d.Some? then
      Reservation(id, false, d.value.1, estimate.totalTokens, estimate.costMicros, [ScopeOf(d.value.0)])
    else Reservation(id, true, Approved, estimate.totalTokens, estimate.costMicros, Scopes(mine))
  }

  function ReserveRows(r: Reservation, ctx: Context, estimate: Usage): seq<LedgerRow> {
    if r.reason.StorageUnavailable? then []
    else RowsFor(if r.approved then Reserve else Deny, r, ctx, estimate, NO_USAGE)
  }

  /** Approval is exactly room under every hard limit that applies to the caller;
      an approved reservation names each applicable policy, a refused one the
      policy that refused it, which is a hard one with too little room. */
  lemma {:induction false} ApprovalMeansRoom(policies: seq<Policy>, ctx: Context, now: C.Moment, rows: seq<UsageRow>,
          estimate: Usage, id: Id)
    requires now.Valid()
    ensures var r := ReserveOutcome(policies, ctx, now, rows, estimate, id, true);
            var mine := Applicable(policies, ctx);
            && (r.approved <==> RoomEverywhere(mine, now, rows, estimate))
            && (r.approved ==> r.scopes == Scopes(mine))
            && (!r.approved ==>
                  exists p :: p in mine && p.hard && r.scopes == [ScopeOf(p)] &&
                      !RoomEverywhere([p], now, rows, estimate))
  {
    var mine := Applicable(policies, ctx);
    forall p | p in mine ensures Applies(p, ctx) { ApplicableMembers(policies, ctx, p); }
    NoDenialIffRoom(mine, ctx, now, rows, estimate);
    var d := FirstDenial(mine, ctx, now, rows, estimate);
    if d.Some? {
      DenierHasNoRoom(mine, ctx, now, rows, estimate);
    }
  }

  lemma {:induction false} DenierHasNoRoom(policies: seq<Policy>, ctx: Context, now: C.Moment, rows: seq<UsageRow>,
          estimate: Usage)
    requires now.Valid()
    requires forall p :: p in policies ==> Applies(p, ctx)
    requires FirstDenial(policies, ctx, now, rows, estimate).Some?
    ensures var p := FirstDenial(policies, ctx, now, rows, estimate).value.0;
            p in policies && p.hard && !RoomEverywhere([p], now, rows, estimate)
  {
    var p := policies[0];
    if p.hard && Denial(p, ctx, C.PeriodWindow(p.period, now), rows, estimate).Some? {
      assert FirstDenial([p], ctx, now, rows, estimate).Some?;
      NoDenialIffRoom([p], ctx, now, rows, estimate);
    } else {
      DenierHasNoRoom(policies[1..], ctx, now, rows, estimate);
    }
  }

  /** The policy is for the whole tenant, or names the caller's own user, agent,
      channel, cost centre or department. */
  predicate IsFor(p: Policy, ctx: Context) {
    if p.scopeId.None? then p.scopeType.Tenant?
    else
      || (p.scopeType.User? && ctx.user == p.scopeId)
      || (p.scopeType.Agent? && ctx.agent == p.scopeId)
      || (p.scopeType.Channel? && ctx.channel == p.scopeId)
      || (p.scopeType.CostCenter? && ctx.costCenter == p.scopeId)
      || (p.scopeType.Department? && ctx.department == p.scopeId)
  }

  /** What successful calls have spent, in a window, of what the policy is for. */
  function SpentFor(m: Meter, p: Policy, w: C.Window, rows: seq<UsageRow>): nat {
    if rows == [] then 0
    else
      var row := rows[|rows| - 1];
      SpentFor(m, p, w, rows[..|rows| - 1]) +
      (if row.status.Success? && w.start <= row.createdAt < w.end && row.ctx.tenant == p.tenant && IsFor(p, row.ctx)
       then (if m.Money? then row.usage.costMicros else row.usage.totalTokens)
       else 0)
  }

  lemma {:induction false} SpentIsFor(m: Meter, p: Policy, w: C.Window, rows: seq<UsageRow>)
    requires p.active
    ensures Spent(m, p, w, rows) == SpentFor(m, p, w, rows)
  {
    if rows != [] { SpentIsFor(m, p, w, rows[..|rows| - 1]); }
  }

  /** An active policy of the caller's tenant that is for the caller. */
  predicate Governs(p: Policy, ctx: Context) { p.active && p.tenant == ctx.tenant && IsFor(p, ctx) }

  lemma AppliesIs(p: Policy, ctx: Context)
    ensures Applies(p, ctx) <==> Governs(p, ctx)
  {}

  lemma GoverningIsActive(p: Policy, ctx: Context)
    requires Governs(p, ctx)
    ensures p.active
  {}

  /** The policy has room for the estimate: successful calls of the window that it is
      for and the estimate stay within its amount together, unless that is zero, and
      within its token limit, if it has one. */
  predicate HasRoom(p: Policy, now: C.Moment, rows: seq<UsageRow>, estimate: Usage)
    requires now.Valid()
  {
    var w := C.PeriodWindow(p.period, now);
    && (p.amountMicros > 0 ==> SpentFor(Money, p, w, rows) + estimate.costMicros <= p.amountMicros)
    && (p.tokenLimit.Some? ==> SpentFor(Tokens, p, w, rows) + estimate.totalTokens <= p.tokenLimit.value)
  }

  lemma {:induction false} HasRoomIs(p: Policy, now: C.Moment, rows: seq<UsageRow>, estimate: Usage)
    requires now.Valid() && p.active
    ensures
      HasRoom(p, now, rows, estimate)
      <==>
      forall m :: LimitOn(m, p).Some? ==>
        Spent(m, p, C.PeriodWindow(p.period, now), rows) + Measure(m, estimate) <= LimitOn(m, p).value
  {
    hide C.PeriodWindow;
    var w := C.PeriodWindow(p.period, now);
    SpentIsFor(Money, p, w, rows);
    SpentIsFor(Tokens, p, w, rows);
    assert LimitOn(Money, p).Some? <==> p.amountMicros > 0;
    assert LimitOn(Tokens, p) == p.tokenLimit;
  }

  /** A call is let through exactly when every active hard policy of its tenant that is
      for its caller has room. The reservation then names the active policies, hard
      or soft, that are for the caller; a refused one names a hard one without room. */
  lemma {:induction false} ReservedExactlyWhen(policies: seq<Policy>, ctx: Context, now: C.Moment, rows: seq<UsageRow>,
          estimate: Usage, id: Id)
    requires now.Valid()
    ensures var r := ReserveOutcome(policies, ctx, now, rows, estimate, id, true);
            && (r.approved <==>
                  forall p :: p in policies && Governs(p, ctx) && p.hard ==> HasRoom(p, now, rows, estimate))
            && (r.approved ==>
                  forall scope :: scope in r.scopes <==>
                    exists p :: p in policies && Governs(p, ctx) && scope == Scope(p.id, p.scopeType, p.scopeId))
            && (!r.approved ==>
                  exists p ::
                    && p in policies && Governs(p, ctx) && p.hard && !HasRoom(p, now, rows, estimate)
                    && r.scopes == [Scope(p.id, p.scopeType, p.scopeId)])
  {
    hide HasRoom, Applies, Governs, LimitOn, FirstDenial, C.PeriodWindow;
    var mine, r := Applicable(policies, ctx), ReserveOutcome(policies, ctx, now, rows, estimate, id, true);
    ApprovalMeansRoom(policies, ctx, now, rows, estimate, id);
    forall p ensures p in mine <==> p in policies && Governs(p, ctx) {
      ApplicableMembers(policies, ctx, p);
      AppliesIs(p, ctx);
    }
    forall p | p in mine ensures HasRoom(p, now, rows, estimate) <==>
        (forall m :: LimitOn(m, p).Some? ==>
           Spent(m, p, C.PeriodWindow(p.period, now), rows) + Measure(m, estimate) <= LimitOn(m, p).value) {
      GoverningIsActive(p, ctx);
      HasRoomIs(p, now, rows, estimate);
    }
    ScopesName(mine);
    if !r.approved {
      var p :| p in mine && p.hard && r.scopes == [ScopeOf(p)] && !RoomEverywhere([p], now, rows, estimate);
      assert !HasRoom(p, now, rows, estimate);
    }
  }

  /** A denial is for want of room, never for want of storage. */
  lemma {:induction false} DenialNamesALimit(policies: seq<Policy>, ctx: Context, now: C.Moment, rows: seq<UsageRow>,
          estimate: Usage)
    requires now.Valid()
    ensures var d := FirstDenial(policies, ctx, now, rows, estimate);
            d.Some? ==> d.value.1.AmountExceeded? || d.value.1.TokensExceeded?
  {
    hide C.PeriodWindow, UsageFor;
    if policies != [] { DenialNamesALimit(policies[1..], ctx, now, rows, estimate); }
  }

  lemma ScopesName(mine: seq<Policy>)
    ensures forall scope :: scope in Scopes(mine) <==>
              exists p :: p in mine && scope == Scope(p.id, p.scopeType, p.scopeId)
  {
    var scopes := Scopes(mine);
    forall scope | scope in scopes ensures exists p :: p in mine && scope == Scope(p.id, p.scopeType, p.scopeId) {
      var i :| 0 <= i < |scopes| && scopes[i] == scope;
      assert mine[i] in mine;
    }
    forall p | p in mine ensures Scope(p.id, p.scopeType, p.scopeId) in scopes {
      var i :| 0 <= i < |mine| && mine[i] == p;
      assert scopes[i] in scopes;
    }
  }

  // ---- Soft-limit alerts --------------------------------------------------------------------

  /** `value / limit`, or zero without a positive limit. */
  function Ratio(value: int, limit: int): real {
    if limit <= 0 then 0.0 else value as real / limit as real
  }

  function Threshold(p: Policy): real { p.alertPct as real / 100.0 }

  /** The crossing test of one meter. */
  predicate Crosses(m: Meter, p: Policy, before: nat, actual: Usage) {
    && LimitOn(m, p).Some?
    && Ratio(before, LimitOn(m, p).value) < Threshold(p)
    && Ratio(before + Measure(m, actual), LimitOn(m, p).value) >= Threshold(p)
  }

  predicate Alerts(p: Policy, ctx: Context, w: C.Window, rows: seq<UsageRow>, actual: Usage) {
    || Crosses(Money, p, UsageFor(Money, p, ctx, w, rows), actual)
    || Crosses(Tokens, p, UsageFor(Tokens, p, ctx, w, rows), actual)
  }

  function PolicyById(policies: seq<Policy>, id: Id): Option<Policy> {
    if policies == [] then None
    else if policies[0].id == id then Some(policies[0])
    else PolicyById(policies[1..], id)
  }

  /** What settling adds for the first `n` scopes: the settle row of each, and an
      alert row where a soft policy's threshold is crossed. */
  function SettleRows(policies: seq<Policy>, rows: seq<UsageRow>, r: Reservation, actual: Usage, ctx: Context,
          now: C.Moment, n: nat): seq<LedgerRow>
    requires now.Valid() && n <= |r.scopes|
  {
    if n == 0 then []
    else
      var s := r.scopes[n - 1];
      var p := PolicyById(policies, s.budgetId);
      var settled := SettleRows(policies, rows, r, actual, ctx, now, n - 1) +
                     [LedgerRow(Settle, r.id, s, ctx, EstimateOf(r), actual)];
      if p.Some? && !p.value.hard && Alerts(p.value, ctx, C.PeriodWindow(p.value.period, now), rows, actual)
      then settled + [LedgerRow(Alert, r.id, s, ctx, EstimateOf(r), actual)]
      else settled
  }

  // ---- The classes -----------------------------------------------------------------------------

  /** The database tables the model-call path reads and appends to. */
  class Session {
    var policies: seq<Policy>
    var usage: seq<UsageRow>
    var ledger: seq<LedgerRow>

    constructor (policies: seq<Policy>)
      ensures this.policies == policies && usage == [] && ledger == []
    {
      this.policies, usage, ledger := policies, [], [];
    }
  }

  class BudgetGuard {
    const prices: Catalog
    const session: Session

    constructor (prices: Catalog, session: Session)
      ensures this.prices == prices && this.session == session
    {
      this.prices, this.session := prices, session;
    }

    method FirstHardLimitDenial(ctx: Context, estimate: Usage, policies: seq<Policy>, now: C.Moment)
        returns (denial: Option<(Policy, Reason)>)
      requires now.Valid()
      ensures denial == FirstDenial(policies, ctx, now, session.usage, estimate)
    {
      var i := 0;
      while i < |policies|
        invariant 0 <= i <= |policies|
        invariant FirstDenial(policies, ctx, now, session.usage, estimate) ==
                  FirstDenial(policies[i..], ctx, now, session.usage, estimate)
      {
        var p := policies[i];
        if p.hard {
          var w := C.PeriodWindow(p.period, now);
          var cost, tokens := UsageFor(Money, p, ctx, w, session.usage), UsageFor(Tokens, p, ctx, w, session.usage);
          if p.amountMicros > 0 && cost + estimate.costMicros > p.amountMicros {
            return Some((p, AmountExceeded(p.scopeType)));
          }
          if p.tokenLimit.Some? && tokens + estimate.totalTokens > p.tokenLimit.value {
            return Some((p, TokensExceeded(p.scopeType)));
          }
        }
        i := i + 1;
      }
      denial := None;
    }

    method RecordEvents(event: EventType, r: Reservation, ctx: Context, estimated: Usage, actual: Usage)
      modifies session`ledger
      ensures session.ledger == old(session.ledger) + RowsFor(event, r, ctx, estimated, actual)
    {
      var i := 0;
      while i < |r.scopes|
        invariant 0 <= i <= |r.scopes|
        invariant session.ledger == old(session.ledger) + RowsFor(event, r, ctx, estimated, actual)[..i]
      {
        session.ledger := session.ledger + [LedgerRow(event, r.id, r.scopes[i], ctx, estimated, actual)];
        i := i + 1;
      }
    }

    method ReserveUsage(estimate: Usage, ctx: Context, now: C.Moment, id: Id, storageUp: bool)
      returns (r: Reservation)
      requires now.Valid()
      modifies session`ledger
      ensures r == ReserveOutcome(session.policies, ctx, now, session.usage, estimate, id, storageUp)
      ensures session.ledger == old(session.ledger) + ReserveRows(r, ctx, estimate)
    {
      if !storageUp {
        return Reservation(id, false, StorageUnavailable, estimate.totalTokens, estimate.costMicros, []);
      }
      var policies := Applicable(session.policies, ctx);
      var denial := FirstHardLimitDenial(ctx, estimate, policies, now);
      if denial.Some? {
        r := Reservation(id, false, denial.value.1, estimate.totalTokens, estimate.costMicros,
            [ScopeOf(denial.value.0)]);
        DenialReason(policies, ctx, now, session.usage, estimate);
        RecordEvents(Deny, r, ctx, estimate, NO_USAGE);
        return;
      }
      r := Reservation(id, true, Approved, estimate.totalTokens, estimate.costMicros, Scopes(policies));
      RecordEvents(Reserve, r, ctx, estimate, NO_USAGE);
    }

    method ReserveCall(request: ChatRequest, ctx: Context, now: C.Moment, id: Id, storageUp: bool)
      returns (r: Reservation)
      requires now.Valid()
      modifies session`ledger
      ensures r == ReserveOutcome(session.policies, ctx, now, session.usage, Estimate(prices, request), id, storageUp)
      ensures session.ledger == old(session.ledger) + ReserveRows(r, ctx, Estimate(prices, request))
    {
      r := ReserveUsage(Estimate(prices, request), ctx, now, id, storageUp);
    }

    method SettleCall(r: Reservation, actual: Usage, ctx: Context, now: C.Moment)
      requires now.Valid()
      modifies session`ledger
      ensures session.ledger == old(session.ledger) +
              if r.approved then SettleRows(session.policies, session.usage, r, actual, ctx, now, |r.scopes|) else []
    {
      if !r.approved { return; }
      var i := 0;
      while i < |r.scopes|
        invariant 0 <= i <= |r.scopes|
        invariant session.ledger == old(session.ledger) +
            SettleRows(session.policies, session.usage, r, actual, ctx, now, i)
      {
        var s := r.scopes[i];
        session.ledger := session.ledger + [LedgerRow(Settle, r.id, s, ctx, EstimateOf(r), actual)];
        var p := PolicyById(session.policies, s.budgetId);
        if p.Some? && !p.value.hard {
          var w := C.PeriodWindow(p.value.period, now);
          if Alerts(p.value, ctx, w, session.usage, actual) {
            session.ledger := session.ledger + [LedgerRow(Alert, r.id, s, ctx, EstimateOf(r), actual)];
          }
        }
        i := i + 1;
      }
    }

    method ReleaseCall(r: Reservation, ctx: Context)
      modifies session`ledger
      ensures session.ledger == old(session.ledger) +
              if r.approved then RowsFor(Release, r, ctx, EstimateOf(r), NO_USAGE) else []
    {
      if r.approved { RecordEvents(Release, r, ctx, EstimateOf(r), NO_USAGE); }
    }
  }

  lemma {:induction false} DenialReason(policies: seq<Policy>, ctx: Context, now: C.Moment, rows: seq<UsageRow>,
          estimate: Usage)
    requires now.Valid()
    requires FirstDenial(policies, ctx, now, rows, estimate).Some?
    ensures !FirstDenial(policies, ctx, now, rows, estimate).value.1.StorageUnavailable?
  {
    var p := policies[0];
    if !(p.hard && Denial(p, ctx, C.PeriodWindow(p.period, now), rows, estimate).Some?) {
      DenialReason(policies[1..], ctx, now, rows, estimate);
    }
  }
}
