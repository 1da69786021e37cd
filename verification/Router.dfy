/** Choosing deployments for a call (`ModelRouter.plan`, backend/app/llm/router.py). */
module Router {
  import opened Basics
  import opened Pricing
  import opened Sorting
  import opened Policy
  import CB = CircuitBreaker

  datatype Deployment = Deployment(
    id: string, providerKey: string, modelKey: string, routingKey: string, active: bool, priority: int)

  datatype RouteReason = PriorityRoute | CostPriorityRoute | ConnectionTest

  datatype Route = Route(deployment: Deployment, reason: RouteReason)

  /** The HTTP errors planning can raise. */
  datatype PlanError =
    | PolicyRoutingKeyNotFound(candidates: nat)
    | DeploymentNotFound
    | ProviderNotRegistered(candidates: nat, missing: seq<string>)
    | UsableDeploymentNotFound(candidates: nat)

  datatype Plan = Routes(routes: seq<Route>) | NoPlan(error: PlanError)

  /** What a router is configured with. */
  datatype Settings = Settings(deployments: seq<Deployment>, providers: set<string>, prices: Catalog,
      costAwareEnabled: bool)

  const COST_PRIORITY := "cost_priority"

  // ---- Narrowing the candidates -----------------------------------------------------------

  function Active(): Deployment -> bool { (d: Deployment) => d.active }

  function HasModel(key: Option<string>): Deployment -> bool {
    (d: Deployment) => !Truthy(key) || d.modelKey == key.value
  }

  function HasRoutingKey(key: Option<string>): Deployment -> bool {
    (d: Deployment) => !Truthy(key) || d.routingKey == key.value
  }

  function WantedModel(q: ChatRequest, d: Decision): Option<string> { Or(d.modelKey, q.modelKey) }

  function ByModel(deployments: seq<Deployment>, q: ChatRequest, d: Decision): seq<Deployment> {
    Filter(Filter(deployments, Active()), HasModel(WantedModel(q, d)))
  }

  function Candidates(deployments: seq<Deployment>, q: ChatRequest, d: Decision): seq<Deployment> {
    Filter(Filter(ByModel(deployments, q, d), HasRoutingKey(d.routingKey)), HasRoutingKey(q.routingKey))
  }

  /** The deployments the request and the decision ask for. */
  function Eligible(q: ChatRequest, d: Decision): Deployment -> bool {
    (x: Deployment) =>
      && x.active
      && (Truthy(WantedModel(q, d)) ==> x.modelKey == WantedModel(q, d).value)
      && (Truthy(d.routingKey) ==> x.routingKey == d.routingKey.value)
      && (Truthy(q.routingKey) ==> x.routingKey == q.routingKey.value)
  }

  lemma {:induction false} FilterTwice<T>(s: seq<T>, p: T -> bool, r: T -> bool, both: T -> bool)
    requires forall x :: x in s ==> (both(x) <==> p(x) && r(x))
    ensures Filter(Filter(s, p), r) == Filter(s, both)
  {
    if s != [] {
      var front, x := s[..|s| - 1], s[|s| - 1];
      FilterTwice(front, p, r, both);
      assert x in s;
      if p(x) {
        var f := Filter(front, p);
        assert (f + [x])[..|f|] == f;
      }
    }
  }

  /** The narrowing steps keep exactly the eligible deployments, in order. */
  lemma {:induction false} CandidatesAreEligible(deployments: seq<Deployment>, q: ChatRequest, d: Decision)
    ensures Candidates(deployments, q, d) == Filter(deployments, Eligible(q, d))
  {
    var one := (x: Deployment) => Active()(x) && HasModel(WantedModel(q, d))(x);
    var two := (x: Deployment) => one(x) && HasRoutingKey(d.routingKey)(x);
    FilterTwice(deployments, Active(), HasModel(WantedModel(q, d)), one);
    FilterTwice(deployments, one, HasRoutingKey(d.routingKey), two);
    FilterTwice(deployments, two, HasRoutingKey(q.routingKey), Eligible(q, d));
  }

  // ---- Health ----------------------------------------------------------------------------------

  /** The circuit breaker as the plan finds it. */
  datatype Health = Health(cfg: CB.Config, circuits: map<string, CB.Circuit>, now: Micros)

  function IsOpen(h: Health): Deployment -> bool {
    (d: Deployment) => CB.OpenAnswer(h.cfg, CB.Lookup(h.circuits, d.id), h.now)
  }

  function Healthy(h: Health): Deployment -> bool { (d: Deployment) => !IsOpen(h)(d) }

  /** The candidates whose circuit is not open, or all of them if every one is. */
  function Usable(candidates: seq<Deployment>, h: Health): seq<Deployment> {
    var healthy := Filter(candidates, Healthy(h));
    if healthy != [] then healthy else candidates
  }

  function AskOne(h: Health, d: Deployment): Health {
    h.(circuits := CB.StepAll(h.cfg, h.circuits, CB.Event(Some(d.id), CB.Timed(CB.AskOpen, h.now))))
  }

  /** The breaker after every candidate has been asked about. */
  function AskEach(h: Health, candidates: seq<Deployment>): Health {
    if candidates == [] then h else AskOne(AskEach(h, candidates[..|candidates| - 1]), candidates[|candidates| - 1])
  }

  /** Asking about one deployment changes no answer at that moment. */
  lemma {:induction false} AskingChangesNoAnswer(h: Health, candidates: seq<Deployment>, d: Deployment)
    ensures AskEach(h, candidates).cfg == h.cfg && AskEach(h, candidates).now == h.now
    ensures IsOpen(AskEach(h, candidates))(d) == IsOpen(h)(d)
  {
    if candidates != [] {
      var before := AskEach(h, candidates[..|candidates| - 1]);
      AskingChangesNoAnswer(h, candidates[..|candidates| - 1], d);
      CB.AskingTwice(h.cfg, CB.Lookup(before.circuits, candidates[|candidates| - 1].id), h.now);
    }
  }

  // ---- Order -----------------------------------------------------------------------------------

  predicate PriorityLe(a: Deployment, b: Deployment) { a.priority <= b.priority }

  function UnitCost(prices: Catalog, d: Deployment): nat {
    prices(Some(d.modelKey)).inputPer1k + prices(Some(d.modelKey)).outputPer1k
  }

  function CostLe(prices: Catalog): (Deployment, Deployment) -> bool {
    (a: Deployment, b: Deployment) =>
      a.priority < b.priority || (a.priority == b.priority && UnitCost(prices, a) <= UnitCost(prices, b))
  }

  function SortCandidates(prices: Catalog, costAware: bool, candidates: seq<Deployment>): seq<Deployment> {
    SortBy(candidates, if costAware then CostLe(prices) else PriorityLe)
  }

  lemma OrdersAreTotal(prices: Catalog)
    ensures TotalPreorder(PriorityLe) && TotalPreorder(CostLe(prices))
  {}

  // ---- The plan ----------------------------------------------------------------------------------

  predicate CostAware(s: Settings, d: Decision) { s.costAwareEnabled && d.routingStrategy == Some(COST_PRIORITY) }

  function Registered(s: Settings): Deployment -> bool { (d: Deployment) => d.providerKey in s.providers }

  function RoutesFor(ds: seq<Deployment>, reason: RouteReason): seq<Route> {
    seq(|ds|, i requires 0 <= i < |ds| => Route(ds[i], reason))
  }

  function MissingProviders(s: Settings, ds: seq<Deployment>): seq<string> {
    if ds == [] then []
    else
      var front, d := MissingProviders(s, ds[..|ds| - 1]), ds[|ds| - 1];
      if d.providerKey in s.providers then front else front + [d.providerKey]
  }

  /** The chosen deployments in the order they will be tried. */
  function Chosen(s: Settings, q: ChatRequest, d: Decision, h: Health): seq<Deployment> {
    Filter(SortCandidates(s.prices, CostAware(s, d), Usable(Candidates(s.deployments, q, d), h)), Registered(s))
  }

  function PlanFor(s: Settings, q: ChatRequest, d: Decision, h: Health): Plan {
    var byModel, candidates := ByModel(s.deployments, q, d), Candidates(s.deployments, q, d);
    if Truthy(d.routingKey) && Filter(byModel, HasRoutingKey(d.routingKey)) == []
    then NoPlan(PolicyRoutingKeyNotFound(|byModel|))
    else if candidates == [] then NoPlan(DeploymentNotFound)
    else
      var usable, chosen := Usable(candidates, h), Chosen(s, q, d, h);
      var missing := MissingProviders(s, SortCandidates(s.prices, CostAware(s, d), usable));
      if chosen != [] then Routes(RoutesFor(chosen, if CostAware(s, d) then CostPriorityRoute else PriorityRoute))
      else if missing != [] then NoPlan(ProviderNotRegistered(|usable|, missing))
      else NoPlan(UsableDeploymentNotFound(|usable|))
  }

  /** Planning asks the breaker only once it has a candidate. */
  function HealthAfter(s: Settings, q: ChatRequest, d: Decision, h: Health): Health {
    if Candidates(s.deployments, q, d) == [] then h else AskEach(h, Candidates(s.deployments, q, d))
  }

  // ---- What a plan is ------------------------------------------------------------------------------

  lemma {:induction false} FilterSorted<T(!new)>(s: seq<T>, le: (T, T) -> bool, p: T -> bool)
    requires Sorted(s, le)
    ensures Sorted(Filter(s, p), le)
  {
    if s != [] {
      var front, x := s[..|s| - 1], s[|s| - 1];
      FilterSorted(front, le, p);
      forall y | y in Filter(front, p) ensures le(y, x) {
        var i :| 0 <= i < |front| && front[i] == y;
        assert s[i] == y;
      }
      var f := Filter(front, p);
      assert forall i :: 0 <= i < |f| ==> f[i] in f;
    }
  }

  lemma {:induction false} FilterMultiset<T>(s: seq<T>, p: T -> bool, x: T)
    ensures multiset(Filter(s, p))[x] == if p(x) then multiset(s)[x] else 0
  {
    if s != [] {
      FilterMultiset(s[..|s| - 1], p, x);
      assert s == s[..|s| - 1] + [s[|s| - 1]];
    }
  }

  /** The routes planned are exactly the usable eligible deployments with a
      registered provider, each as often as it is configured. */
  lemma {:induction false} PlanIsTheEligible(s: Settings, q: ChatRequest, d: Decision, h: Health)
    ensures multiset(Chosen(s, q, d, h)) ==
            multiset(Filter(Usable(Filter(s.deployments, Eligible(q, d)), h), Registered(s)))
  {
    hide Eligible, Candidates, Usable, Filter, SortBy, CostLe, Registered;
    CandidatesAreEligible(s.deployments, q, d);
    var usable := Usable(Candidates(s.deployments, q, d), h);
    var le := if CostAware(s, d) then CostLe(s.prices) else PriorityLe;
    SortMembers(usable, le);
    forall x ensures multiset(Chosen(s, q, d, h))[x] == multiset(Filter(usable, Registered(s)))[x] {
      FilterMultiset(SortBy(usable, le), Registered(s), x);
      FilterMultiset(usable, Registered(s), x);
    }
  }

  /** They come in order of priority (of priority and cost), and deployments that
      tie keep the order in which they are configured. */
  lemma {:induction false} PlanIsStablySorted(s: Settings, q: ChatRequest, d: Decision, h: Health,
          tied: Deployment -> bool)
    requires var le := if CostAware(s, d) then CostLe(s.prices) else PriorityLe;
             forall x, y :: tied(x) && tied(y) ==> le(x, y)
    ensures var le := if CostAware(s, d) then CostLe(s.prices) else PriorityLe;
            var usable := Usable(Filter(s.deployments, Eligible(q, d)), h);
            && Sorted(Chosen(s, q, d, h), le)
            && Filter(Chosen(s, q, d, h), tied) == Filter(Filter(usable, Registered(s)), tied)
  {
    hide TotalPreorder, Sorted;
    CandidatesAreEligible(s.deployments, q, d);
    var usable := Usable(Candidates(s.deployments, q, d), h);
    var le := if CostAware(s, d) then CostLe(s.prices) else PriorityLe;
    OrdersAreTotal(s.prices);
    SortIsSortedPermutation(usable, le);
    FilterSorted(SortBy(usable, le), le, Registered(s));
    SortIsStable(usable, le, tied);
    var both := (x: Deployment) => Registered(s)(x) && tied(x);
    FilterTwice(SortBy(usable, le), Registered(s), tied, both);
    FilterTwice(SortBy(usable, le), tied, Registered(s), both);
    FilterTwice(usable, Registered(s), tied, both);
    FilterTwice(usable, tied, Registered(s), both);
  }

  lemma {:induction false} UsableFacts(candidates: seq<Deployment>, h: Health, x: Deployment)
    requires x in Usable(candidates, h)
    ensures x in candidates
    ensures IsOpen(h)(x) ==> forall y :: y in candidates ==> IsOpen(h)(y)
  {}

  /** A deployment whose circuit is open is planned only if every eligible one is open. */
  lemma {:induction false} OpenOnlyAsLastResort(s: Settings, q: ChatRequest, d: Decision, h: Health, x: Deployment)
    requires x in Chosen(s, q, d, h)
    ensures x in s.deployments && Eligible(q, d)(x) && x.providerKey in s.providers
    ensures IsOpen(h)(x) ==> forall y :: y in s.deployments && Eligible(q, d)(y) ==> IsOpen(h)(y)
  {
    hide SortBy, Eligible, IsOpen, Healthy, Usable, CostLe, Candidates, ByModel;
    CandidatesAreEligible(s.deployments, q, d);
    var candidates := Filter(s.deployments, Eligible(q, d));
    assert Candidates(s.deployments, q, d) == candidates;
    SortMembers(Usable(candidates, h), if CostAware(s, d) then CostLe(s.prices) else PriorityLe);
    assert x in Usable(candidates, h);
    UsableFacts(candidates, h, x);
  }

  /** When planning succeeds there is at least one route; it fails with "not
      registered" only if no usable deployment has a provider, and never for want
      of a usable deployment once a candidate was found. */
  lemma {:induction false} PlanOutcome(s: Settings, q: ChatRequest, d: Decision, h: Health)
    ensures var plan := PlanFor(s, q, d, h);
            var eligible := Filter(s.deployments, Eligible(q, d));
            && (plan.Routes? <==> Chosen(s, q, d, h) != [])
            && (plan.Routes? ==> plan.routes != [])
            && (plan.NoPlan? && eligible != [] ==> plan.error.ProviderNotRegistered?)
            && (eligible == [] ==>
                  plan.NoPlan? && (plan.error.DeploymentNotFound? || plan.error.PolicyRoutingKeyNotFound?))
  {
    hide SortBy, Eligible, Healthy, Filter, MissingProviders;
    CandidatesAreEligible(s.deployments, q, d);
    if Filter(ByModel(s.deployments, q, d), HasRoutingKey(d.routingKey)) == [] { NothingLeft(s.deployments, q, d); }
    var usable := Usable(Candidates(s.deployments, q, d), h);
    var le := if CostAware(s, d) then CostLe(s.prices) else PriorityLe;
    SortedLength(usable, le);
    MissingOrChosen(s, SortBy(usable, le));
  }

  lemma SortedLength(ds: seq<Deployment>, le: (Deployment, Deployment) -> bool)
    ensures |SortBy(ds, le)| == |ds|
  {
    SortMultiset(ds, le);
    assert |SortBy(ds, le)| == |multiset(SortBy(ds, le))|;
  }

  lemma {:induction false} MissingOrChosen(s: Settings, ds: seq<Deployment>)
    ensures |MissingProviders(s, ds)| + |Filter(ds, Registered(s))| == |ds|
  {
    if ds != [] { MissingOrChosen(s, ds[..|ds| - 1]); }
  }

  /** Ordering by cost rearranges only inside groups of equal priority: position by
      position the priorities are those of the default order. */
  lemma {:induction false} CostOnlyBreaksTies(prices: Catalog, candidates: seq<Deployment>)
    ensures var byCost, byDefault := SortCandidates(prices, true, candidates),
        SortCandidates(prices, false, candidates);
            && multiset(byCost) == multiset(byDefault)
            && |byCost| == |byDefault|
            && forall i :: 0 <= i < |byCost| ==> byCost[i].priority == byDefault[i].priority
  {
    OrdersAreTotal(prices);
    SortIsSortedPermutation(candidates, CostLe(prices));
    SortIsSortedPermutation(candidates, PriorityLe);
    SortedArrangementsTie(SortBy(candidates, CostLe(prices)), SortBy(candidates, PriorityLe), PriorityLe);
  }

  // ---- The order spelled out ----------------------------------------------------------------------

  function PriceOf(s: Settings, x: Deployment): nat {
    s.prices(Some(x.modelKey)).inputPer1k + s.prices(Some(x.modelKey)).outputPer1k
  }

  /** The routes of a plan come lowest priority number first. If cost-aware routing is
      switched on and the decision asks for "cost_priority", a deployment of the
      same priority with the lower sum of input and output price comes first, and
      the routes say so. */
  lemma {:induction false} PlanOrder(s: Settings, q: ChatRequest, d: Decision, h: Health)
    ensures var plan := PlanFor(s, q, d, h);
            var costAware := s.costAwareEnabled && d.routingStrategy == Some("cost_priority");
            plan.Routes? ==>
              && (forall i :: 0 <= i < |plan.routes| ==>
                    plan.routes[i].reason == if costAware then CostPriorityRoute else PriorityRoute)
              && (forall i, j :: 0 <= i < j < |plan.routes| ==>
                    var a, b := plan.routes[i].deployment, plan.routes[j].deployment;
                    && a.priority <= b.priority
                    && (costAware && a.priority == b.priority ==> PriceOf(s, a) <= PriceOf(s, b)))
  {
    hide Candidates, ByModel, Eligible, Usable, Filter, MissingProviders, SortCandidates, Chosen, Registered;
    var none := (x: Deployment) => false;
    PlanIsStablySorted(s, q, d, h, none);
  }

  /** Deployments of the same priority, and under cost-aware routing of the same price,
      are tried in the order in which they are configured. */
  lemma {:induction false} TiesAsConfigured(s: Settings, q: ChatRequest, d: Decision, h: Health,
          tied: Deployment -> bool, priority: int, price: nat)
    requires forall x :: tied(x) ==>
               && x.priority == priority
               && (s.costAwareEnabled && d.routingStrategy == Some("cost_priority") ==> PriceOf(s, x) == price)
    ensures Filter(Chosen(s, q, d, h), tied) ==
            Filter(Filter(Usable(Filter(s.deployments, Eligible(q, d)), h), Registered(s)), tied)
  {
    hide Eligible, Usable, Filter, Chosen, Registered, Sorted;
    PlanIsStablySorted(s, q, d, h, tied);
  }

  /** An active deployment of the wanted model. */
  predicate OfWantedModel(q: ChatRequest, d: Decision, x: Deployment) {
    && x.active
    && (if Truthy(d.modelKey) then x.modelKey == d.modelKey.value
        else Truthy(q.modelKey) ==> x.modelKey == q.modelKey.value)
  }

  /** A deployment that request and decision ask for. */
  predicate AsAsked(q: ChatRequest, d: Decision, x: Deployment) {
    && OfWantedModel(q, d, x)
    && (Truthy(d.routingKey) ==> x.routingKey == d.routingKey.value)
    && (Truthy(q.routingKey) ==> x.routingKey == q.routingKey.value)
  }

  /** A deployment is planned exactly when it is configured, as asked and of a
      registered provider, and its circuit is not open, unless all those asked for
      are open. */
  lemma {:induction false} PlannedExactly(s: Settings, q: ChatRequest, d: Decision, h: Health, x: Deployment)
    ensures var plan := PlanFor(s, q, d, h);
            (plan.Routes? && exists i :: 0 <= i < |plan.routes| && plan.routes[i].deployment == x)
            <==>
            && x in s.deployments && AsAsked(q, d, x) && x.providerKey in s.providers
            && (IsOpen(h)(x) ==> forall y :: y in s.deployments && AsAsked(q, d, y) ==> IsOpen(h)(y))
  {
    hide SortBy, Filter, MissingProviders, IsOpen, Eligible, OfWantedModel, ByModel;
    var chosen := Chosen(s, q, d, h);
    EligibleIsAsAsked(q, d);
    ChosenExactly(s, q, d, h, x);
    PlanOutcome(s, q, d, h);
    if x in chosen {
      var i :| 0 <= i < |chosen| && chosen[i] == x;
      assert RoutesFor(chosen, PriorityRoute)[i].deployment == x;
      assert RoutesFor(chosen, CostPriorityRoute)[i].deployment == x;
    }
  }

  lemma EligibleIsAsAsked(q: ChatRequest, d: Decision)
    ensures forall x :: Eligible(q, d)(x) <==> AsAsked(q, d, x)
  {}

  lemma {:induction false} ChosenExactly(s: Settings, q: ChatRequest, d: Decision, h: Health, x: Deployment)
    ensures
      x in Chosen(s, q, d, h)
      <==>
      && x in s.deployments && Eligible(q, d)(x) && x.providerKey in s.providers
      && (IsOpen(h)(x) ==> forall y :: y in s.deployments && Eligible(q, d)(y) ==> IsOpen(h)(y))
  {
    hide SortBy, Filter, IsOpen, Eligible;
    var candidates := Filter(s.deployments, Eligible(q, d));
    CandidatesAreEligible(s.deployments, q, d);
    FilterMembers(s.deployments, Eligible(q, d));
    FilterMembers(candidates, Healthy(h));
    var usable := Usable(candidates, h);
    var sorted := SortCandidates(s.prices, CostAware(s, d), usable);
    SortMembers(usable, if CostAware(s, d) then CostLe(s.prices) else PriorityLe);
    FilterMembers(sorted, Registered(s));
    if Filter(candidates, Healthy(h)) != [] {
      var y := Filter(candidates, Healthy(h))[0];
      assert y in Filter(candidates, Healthy(h));
    }
  }

  /** Planning fails because no active deployment of the model has the routing key the
      decision asks for, or because none is eligible, or because no usable one has a
      registered provider. */
  lemma {:induction false} WhyNoPlan(s: Settings, q: ChatRequest, d: Decision, h: Health)
    ensures var plan := PlanFor(s, q, d, h);
            var eligible := exists x :: x in s.deployments && Eligible(q, d)(x);
            plan.NoPlan? ==>
              && (plan.error.PolicyRoutingKeyNotFound? <==>
                    && Truthy(d.routingKey)
                    && forall x :: x in s.deployments && OfWantedModel(q, d, x) ==> x.routingKey != d.routingKey.value)
              && (plan.error.DeploymentNotFound? <==> !eligible && !plan.error.PolicyRoutingKeyNotFound?)
              && (plan.error.ProviderNotRegistered? <==> eligible)
  {
    hide SortBy, Healthy, Filter, MissingProviders, Chosen, Usable, Eligible;
    PlanOutcome(s, q, d, h);
    CandidatesAreEligible(s.deployments, q, d);
    var eligible := Filter(s.deployments, Eligible(q, d));
    FilterMembers(s.deployments, Eligible(q, d));
    assert eligible != [] <==> exists x :: x in s.deployments && Eligible(q, d)(x) by {
      if eligible != [] { assert eligible[0] in eligible; }
    }
    if Truthy(d.routingKey) { RoutingKeyMissing(s.deployments, q, d); }
    if Truthy(d.routingKey) && Filter(ByModel(s.deployments, q, d), HasRoutingKey(d.routingKey)) == [] {
      NothingLeft(s.deployments, q, d);
    }
  }

  lemma {:induction false} FilterMembers<T(!new)>(s: seq<T>, p: T -> bool)
    ensures forall x :: x in Filter(s, p) <==> x in s && p(x)
  {
    if s != [] {
      FilterMembers(s[..|s| - 1], p);
      assert s == s[..|s| - 1] + [s[|s| - 1]];
    }
  }

  lemma {:induction false} RoutingKeyMissing(deployments: seq<Deployment>, q: ChatRequest, d: Decision)
    requires Truthy(d.routingKey)
    ensures
      Filter(ByModel(deployments, q, d), HasRoutingKey(d.routingKey)) == []
      <==>
      forall x :: x in deployments && OfWantedModel(q, d, x) ==> x.routingKey != d.routingKey.value
  {
    hide Filter;
    var found := Filter(ByModel(deployments, q, d), HasRoutingKey(d.routingKey));
    FilterMembers(deployments, Active());
    FilterMembers(Filter(deployments, Active()), HasModel(WantedModel(q, d)));
    FilterMembers(ByModel(deployments, q, d), HasRoutingKey(d.routingKey));
    if found != [] { assert found[0] in found; }
  }

  /** Planning makes half open the circuits it asks about that have been open for the
      cooldown: those of the deployments request and decision ask for. It changes no
      other circuit. */
  lemma {:induction false} PlanningHalfOpens(s: Settings, q: ChatRequest, d: Decision, h: Health, id: string)
    ensures var before := CB.Lookup(h.circuits, id);
            var asked := exists x :: x in s.deployments && AsAsked(q, d, x) && x.id == id;
            CB.Lookup(HealthAfter(s, q, d, h).circuits, id) ==
            if && asked && h.cfg.enabled && before.Some? && before.value.state.Open? && before.value.openedAt.Some?
               && h.now >= before.value.openedAt.value + h.cfg.cooldown
            then Some(before.value.(state := CB.HalfOpen, successes := 0))
            else before
  {
    hide Eligible, AsAsked, Filter;
    var candidates := Candidates(s.deployments, q, d);
    CandidatesAreEligible(s.deployments, q, d);
    FilterMembers(s.deployments, Eligible(q, d));
    EligibleIsAsAsked(q, d);
    AskedOnce(h, candidates, id);
  }

  lemma {:induction false} AskedOnce(h: Health, candidates: seq<Deployment>, id: string)
    ensures var before, after := CB.Lookup(h.circuits, id), AskEach(h, candidates);
            && after.cfg == h.cfg && after.now == h.now
            && CB.Lookup(after.circuits, id) ==
               if (exists x :: x in candidates && x.id == id) && before.Some? && h.cfg.enabled
               then Some(CB.Lapse(h.cfg, before.value, h.now)) else before
  {
    if candidates != [] {
      var front, last := candidates[..|candidates| - 1], candidates[|candidates| - 1];
      AskedOnce(h, front, id);
      assert candidates == front + [last];
    }
  }

  // ---- The class --------------------------------------------------------------------------------------

  class ModelRouter {
    const settings: Settings
    const breaker: CB.Breaker

    constructor (settings: Settings, breaker: CB.Breaker)
      ensures this.settings == settings && this.breaker == breaker
    {
      this.settings, this.breaker := settings, breaker;
    }

    method HealthyCandidates(candidates: seq<Deployment>, now: Micros) returns (healthy: seq<Deployment>)
      modifies breaker`circuits
      ensures var h := Health(breaker.cfg, old(breaker.circuits), now);
              healthy == Filter(candidates, Healthy(h)) && breaker.circuits == AskEach(h, candidates).circuits
    {
      hide CB.OpenAnswer, CB.StepAll;
      ghost var h := Health(breaker.cfg, breaker.circuits, now);
      healthy := [];
      var i := 0;
      while i < |candidates|
        invariant 0 <= i <= |candidates|
        invariant breaker.circuits == AskEach(h, candidates[..i]).circuits
        invariant healthy == Filter(candidates[..i], Healthy(h))
      {
        assert candidates[..i + 1][..i] == candidates[..i];
        AskingChangesNoAnswer(h, candidates[..i], candidates[i]);
        var open := breaker.IsOpen(candidates[i].id, now);
        if !open { healthy := healthy + [candidates[i]]; }
        i := i + 1;
      }
      assert candidates[..i] == candidates;
    }

    method PlanRoutes(q: ChatRequest, d: Decision, now: Micros) returns (plan: Plan)
      modifies breaker`circuits
      ensures var h := Health(breaker.cfg, old(breaker.circuits), now);
              plan == PlanFor(settings, q, d, h) && breaker.circuits == HealthAfter(settings, q, d, h).circuits
    {
      hide CB.OpenAnswer, CB.StepAll, SortBy, AskEach, Filter;
      ghost var h := Health(breaker.cfg, breaker.circuits, now);
      var candidates := Filter(settings.deployments, Active());
      var model := WantedModel(q, d);
      candidates := Filter(candidates, HasModel(model));
      ghost var byModel := candidates;
      var matching := Filter(candidates, HasRoutingKey(d.routingKey));
      if Truthy(d.routingKey) && matching == [] {
        NothingLeft(settings.deployments, q, d);
        return NoPlan(PolicyRoutingKeyNotFound(|candidates|));
      }
      candidates := Filter(matching, HasRoutingKey(q.routingKey));
      if candidates == [] { return NoPlan(DeploymentNotFound); }
      var healthy := HealthyCandidates(candidates, now);
      if healthy != [] { candidates := healthy; }
      var costAware := CostAware(settings, d);
      var sorted := SortCandidates(settings.prices, costAware, candidates);
      var routes, missing := SplitByProvider(sorted, if costAware then CostPriorityRoute else PriorityRoute);
      if routes != [] { return Routes(routes); }
      if missing != [] { return NoPlan(ProviderNotRegistered(|candidates|, missing)); }
      plan := NoPlan(UsableDeploymentNotFound(|candidates|));
    }

    method SplitByProvider(sorted: seq<Deployment>, reason: RouteReason)
      returns (routes: seq<Route>, missing: seq<string>)
      ensures routes == RoutesFor(Filter(sorted, Registered(settings)), reason)
      ensures missing == MissingProviders(settings, sorted)
    {
      hide Filter, RoutesFor, MissingProviders;
      routes, missing := [], [];
      NothingSplit(settings, reason);
      var i := 0;
      while i < |sorted|
        invariant 0 <= i <= |sorted|
        invariant routes == RoutesFor(Filter(sorted[..i], Registered(settings)), reason)
        invariant missing == MissingProviders(settings, sorted[..i])
      {
        assert sorted[..i + 1] == sorted[..i] + [sorted[i]];
        OneMoreSplit(settings, sorted[..i], sorted[i], reason);
        if sorted[i].providerKey !in settings.providers {
          missing := missing + [sorted[i].providerKey];
        } else {
          routes := routes + [Route(sorted[i], reason)];
        }
        i := i + 1;
      }
      assert sorted[..i] == sorted;
    }
  }

  lemma NothingSplit(s: Settings, reason: RouteReason)
    ensures RoutesFor(Filter([], Registered(s)), reason) == [] && MissingProviders(s, []) == []
  {}

  lemma OneMoreSplit(s: Settings, ds: seq<Deployment>, d: Deployment, reason: RouteReason)
    ensures var known := d.providerKey in s.providers;
            && RoutesFor(Filter(ds + [d], Registered(s)), reason) ==
               RoutesFor(Filter(ds, Registered(s)), reason) + (if known then [Route(d, reason)] else [])
            && MissingProviders(s, ds + [d]) == MissingProviders(s, ds) + (if known then [] else [d.providerKey])
  {
    assert (ds + [d])[..|ds|] == ds;
  }

  lemma NothingLeft(deployments: seq<Deployment>, q: ChatRequest, d: Decision)
    requires Filter(ByModel(deployments, q, d), HasRoutingKey(d.routingKey)) == []
    ensures Candidates(deployments, q, d) == []
  {}
}
