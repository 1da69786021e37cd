/** Where connection tests go (`_routes_for_connection_test`, backend/app/llm/gateway.py):
    the deployment, the provider and the models they can reach. */
module Targets {
  import opened Basics
  import opened Pricing
  import opened Policy
  import opened Router
  import opened Confinement
  import opened Calls
  import opened Runs
  import Sorting
  import B = Budget

  // ---- The routes a test probes ---------------------------------------------------------------

  lemma SortedMembers(ds: seq<Deployment>)
    ensures forall x :: x in Calls.Sorted(ds) <==> x in ds
  {
    Sorting.SortMembers(ds, PriorityLe);
  }

  /** A probed route is the deployment named, one of the provider named, or one that
      the router plans for the decision. */
  lemma {:induction false} ProbedIs(g: Setup, s: Books, t: TestRequest, call: Call, freshId: string, i: nat)
    requires i < |ProbedRoutes(g, s, t, call, freshId)|
    ensures var x, d := ProbedRoutes(g, s, t, call, freshId)[i].deployment, Evaluate(g.rules, Ping(t), call.ctx);
            && d.allowed
            && match Scoped(g.settings, t, freshId)
               case Some(plan) => plan.TestRoutes? && i < |plan.routes| && x == plan.routes[i].deployment
               case None => x in Chosen(g.settings, Ping(t), d, HealthAt(g, s, call))
  {
    hide Evaluate, Scoped, Chosen, B.ReserveOutcome;
  }

  /** With no budget policy, a test that the rules allow probes what it is planned for. */
  lemma {:induction false} AllowedIsProbed(g: Setup, s: Books, t: TestRequest, call: Call, freshId: string)
    requires g.policies == [] && call.storageUp && Evaluate(g.rules, Ping(t), call.ctx).allowed
    ensures var plan := TestPlanFor(g, HealthAt(g, s, call), t, Evaluate(g.rules, Ping(t), call.ctx), freshId);
            ProbedRoutes(g, s, t, call, freshId) == if plan.NoTest? then [] else plan.routes
  {
    hide Evaluate, TestPlanFor, Estimate;
  }

  lemma NothingOpen(h: Health, x: Deployment)
    requires h.circuits == map[]
    ensures Healthy(h)(x)
  {
    assert x.id !in h.circuits;
    assert !IsOpen(h)(x);
  }

  /** With no circuit on record, every eligible deployment of a registered provider is planned. */
  lemma {:induction false} EligibleIsChosen(s: Settings, q: ChatRequest, d: Decision, h: Health, x: Deployment)
    requires h.circuits == map[] && x in s.deployments && Eligible(q, d)(x) && x.providerKey in s.providers
    ensures x in Chosen(s, q, d, h)
  {
    hide Eligible, Chosen, Healthy;
    PlanIsTheEligible(s, q, d, h);
    var eligible := Filter(s.deployments, Eligible(q, d));
    NothingOpen(h, x);
    assert x in eligible;
    assert x in Filter(eligible, Healthy(h));
    assert x in Usable(eligible, h);
    assert x in Filter(Usable(eligible, h), Registered(s));
    assert x in multiset(Chosen(s, q, d, h));
  }

  lemma {:induction false} PlannedByRouter(g: Setup, s: Books, t: TestRequest, call: Call, freshId: string,
          x: Deployment)
    requires g.policies == [] && call.storageUp && s.circuits == map[] && Evaluate(g.rules, Ping(t), call.ctx).allowed
    requires Scoped(g.settings, t, freshId).None?
    requires x in g.settings.deployments && x.providerKey in g.settings.providers
    requires Eligible(Ping(t), Evaluate(g.rules, Ping(t), call.ctx))(x)
    ensures exists i :: 0 <= i < |ProbedRoutes(g, s, t, call, freshId)| &&
              ProbedRoutes(g, s, t, call, freshId)[i].deployment == x
  {
    hide Evaluate, Eligible, Chosen, ProbedRoutes, Scoped;
    var d, h := Evaluate(g.rules, Ping(t), call.ctx), HealthAt(g, s, call);
    AllowedIsProbed(g, s, t, call, freshId);
    EligibleIsChosen(g.settings, Ping(t), d, h, x);
    PlanOutcome(g.settings, Ping(t), d, h);
    var chosen := Chosen(g.settings, Ping(t), d, h);
    var i :| 0 <= i < |chosen| && chosen[i] == x;
    assert ProbedRoutes(g, s, t, call, freshId)[i].deployment == x;
  }

  // ---- The deployment named --------------------------------------------------------------------

  /** A test that names a deployment probes that deployment only, and once at most. */
  lemma {:induction false} DeploymentScope(g: Setup, s: Books, t: TestRequest, call: Call, freshId: string, id: string)
    requires t.deploymentId == Some(id)
    ensures var routes := ProbedRoutes(g, s, t, call, freshId);
            |routes| <= 1 && forall i :: 0 <= i < |routes| ==> routes[i].deployment.id == id
  {
    hide Evaluate, B.ReserveOutcome;
    var matches := Filter(g.settings.deployments, HasId(id));
    if matches != [] { assert matches[0] in matches && HasId(id)(matches[0]); }
  }

  // ---- The provider named -----------------------------------------------------------------------

  /** Whatever the rules, the budgets, the caller and the breaker, all routes probed
      are the provider's. */
  ghost predicate OnlyProbes(settings: Settings, t: TestRequest, key: string) {
    forall g: Setup, s, call: Call, freshId, i ::
      g.settings == settings && 0 <= i < |ProbedRoutes(g, s, t, call, freshId)| ==>
      ProbedRoutes(g, s, t, call, freshId)[i].deployment.providerKey == key
  }

  /** A deployment of another provider that the router may choose for the test. A
      request without a model key is always decided with some key, so one without
      any key is out of reach. */
  predicate Reachable(settings: Settings, t: TestRequest, key: string, x: Deployment) {
    && x.active && x.providerKey in settings.providers && x.providerKey != key
    && (Truthy(t.modelKey) ==> x.modelKey == t.modelKey.value)
    && (t.modelKey.Some? || x.modelKey != "" || x.routingKey != "")
  }

  predicate Saved(settings: Settings, key: string) {
    exists i :: 0 <= i < |settings.deployments| && settings.deployments[i].providerKey == key
  }

  /** A test that names a deployment follows the deployment, whatever provider it
      names; one that does not stays with its provider if that is registered and a
      configuration is given or one of its deployments is saved. Otherwise the
      router plans it among all providers. */
  predicate StaysWithProvider(settings: Settings, t: TestRequest)
    requires t.providerKey.Some?
  {
    var key := t.providerKey.value;
    if t.deploymentId.Some? then
      var matches := Filter(settings.deployments, HasId(t.deploymentId.value));
      matches == [] || matches[0].providerKey !in settings.providers || matches[0].providerKey == key
    else
      || (key in settings.providers && (Temporary(t) || Saved(settings, key)))
      || forall i :: 0 <= i < |settings.deployments| ==> !Reachable(settings, t, key, settings.deployments[i])
  }

  lemma {:induction false} ScopedByProvider(settings: Settings, t: TestRequest, freshId: string)
    requires t.deploymentId.None? && Truthy(t.providerKey)
    ensures var key, scoped := t.providerKey.value, Scoped(settings, t, freshId);
            && (scoped.Some? <==> key in settings.providers && (Temporary(t) || Saved(settings, key)))
            && (scoped.Some? && scoped.value.TestRoutes? ==>
                  forall i :: 0 <= i < |scoped.value.routes| ==> scoped.value.routes[i].deployment.providerKey == key)
  {
    hide SortCandidates;
    var key := t.providerKey.value;
    var found := Filter(settings.deployments, HasProvider(key));
    var matches := Calls.Sorted(found);
    SortedMembers(found);
    if Saved(settings, key) {
      var i :| 0 <= i < |settings.deployments| && settings.deployments[i].providerKey == key;
      assert HasProvider(key)(settings.deployments[i]) && settings.deployments[i] in found;
      assert settings.deployments[i] in matches;
    }
    if matches != [] {
      assert matches[0] in matches && matches[0] in settings.deployments && HasProvider(key)(matches[0]);
    }
    forall i | 0 <= i < |matches| ensures matches[i].providerKey == key {
      assert matches[i] in matches && HasProvider(key)(matches[i]);
    }
  }

  /** What any decision leads the router to. */
  lemma {:induction false} RouterReaches(g: Setup, s: Books, t: TestRequest, call: Call, freshId: string, i: nat)
    requires Scoped(g.settings, t, freshId).None? && i < |ProbedRoutes(g, s, t, call, freshId)|
    ensures var x := ProbedRoutes(g, s, t, call, freshId)[i].deployment;
            && x in g.settings.deployments && x.active && x.providerKey in g.settings.providers
            && (Truthy(t.modelKey) ==> x.modelKey == t.modelKey.value)
            && (t.modelKey.Some? || x.modelKey != "" || x.routingKey != "")
  {
    hide Chosen, Scoped, ProbedRoutes, MatchingPolicies;
    var d, h := Evaluate(g.rules, Ping(t), call.ctx), HealthAt(g, s, call);
    ProbedIs(g, s, t, call, freshId, i);
    OpenOnlyAsLastResort(g.settings, Ping(t), d, h, ProbedRoutes(g, s, t, call, freshId)[i].deployment);
    FirstAllowFacts(MatchingPolicies(g.rules, call.ctx), Ping(t));
  }

  // ---- When it leaves its provider ------------------------------------------------------------------

  /** A tenant rule that sends requests which name nothing to the keys of `x`. */
  function RuleFor(x: Deployment): Policy.Rule {
    Policy.Rule(0, "", B.Tenant, None, Allow, [], [],
                if x.modelKey != "" then Some(x.modelKey) else None,
                if x.routingKey != "" then Some(x.routingKey) else None, None, 0, None)
  }

  /** Rules under which the router may choose `x` for the test. */
  function RulesFor(t: TestRequest, x: Deployment): seq<Policy.Rule> {
    if t.modelKey.Some? then [] else [RuleFor(x)]
  }

  lemma {:induction false} RulesLeadTo(t: TestRequest, x: Deployment, ctx: B.Context)
    requires x.active && (Truthy(t.modelKey) ==> x.modelKey == t.modelKey.value)
    requires t.modelKey.Some? || x.modelKey != "" || x.routingKey != ""
    ensures var d := Evaluate(RulesFor(t, x), Ping(t), ctx); d.allowed && Eligible(Ping(t), d)(x)
  {
    hide MatchingPolicies;
    if t.modelKey.Some? {
      NothingMatches(ctx);
    } else {
      AloneItApproves(RuleFor(x), Ping(t), ctx);
      ApproverFacts([RuleFor(x)], Ping(t), ctx, RuleFor(x));
    }
  }

  lemma NothingMatches(ctx: B.Context)
    ensures MatchingPolicies([], ctx) == []
  {}

  /** The test as the first call of a gateway without budgets. */
  function SetupFor(settings: Settings, rules: seq<Policy.Rule>): Setup {
    Setup(rules, [], settings.prices, settings, NothingFailed().cfg)
  }

  function FirstCall(ctx: B.Context): Call { Call(ctx, 0, true, FIRST_MOMENT) }

  const SOMEONE := B.Context(0, None, None, None, None, None)

  lemma {:induction false} ReachableIsProbed(settings: Settings, t: TestRequest, key: string, x: Deployment,
          freshId: string)
    requires Scoped(settings, t, freshId).None? && x in settings.deployments && Reachable(settings, t, key, x)
    ensures !OnlyProbes(settings, t, key)
  {
    hide Evaluate, Eligible, ProbedRoutes, Scoped, RulesFor;
    var g, call := SetupFor(settings, RulesFor(t, x)), FirstCall(SOMEONE);
    RulesLeadTo(t, x, SOMEONE);
    PlannedByRouter(g, EMPTY_BOOKS, t, call, freshId, x);
    var i :| 0 <= i < |ProbedRoutes(g, EMPTY_BOOKS, t, call, freshId)| &&
             ProbedRoutes(g, EMPTY_BOOKS, t, call, freshId)[i].deployment == x;
    assert ProbedRoutes(g, EMPTY_BOOKS, t, call, freshId)[i].deployment.providerKey != key;
  }

  lemma {:induction false} NamedDeploymentIsProbed(settings: Settings, t: TestRequest, freshId: string)
    requires t.deploymentId.Some?
    requires var matches := Filter(settings.deployments, HasId(t.deploymentId.value));
             matches != [] && matches[0].providerKey in settings.providers
    ensures var matches := Filter(settings.deployments, HasId(t.deploymentId.value));
            var plan := Scoped(settings, t, freshId);
            && plan.Some? && plan.value.TestRoutes? && |plan.value.routes| == 1
            && plan.value.routes[0].deployment.providerKey == matches[0].providerKey
  {}

  /** A test that names a provider only ever probes that provider, over all rules,
      budgets, callers and breaker states, exactly when its target keeps it there. */
  lemma {:induction false} ProviderScope(settings: Settings, t: TestRequest)
    requires Truthy(t.providerKey)
    ensures OnlyProbes(settings, t, t.providerKey.value) <==> StaysWithProvider(settings, t)
  {
    hide ProbedRoutes, Scoped, Evaluate, Filter, Chosen;
    var key := t.providerKey.value;
    if StaysWithProvider(settings, t) {
      forall g: Setup, s, call: Call, freshId, i
        | g.settings == settings && 0 <= i < |ProbedRoutes(g, s, t, call, freshId)|
        ensures ProbedRoutes(g, s, t, call, freshId)[i].deployment.providerKey == key
      {
        StaysThere(g, s, t, call, freshId, i);
      }
    } else if t.deploymentId.Some? {
      NamedDeploymentLeaves(settings, t);
    } else {
      var i :| 0 <= i < |settings.deployments| && Reachable(settings, t, key, settings.deployments[i]);
      ScopedByProvider(settings, t, "");
      ReachableIsProbed(settings, t, key, settings.deployments[i], "");
    }
  }

  lemma {:induction false} StaysThere(g: Setup, s: Books, t: TestRequest, call: Call, freshId: string, i: nat)
    requires Truthy(t.providerKey) && StaysWithProvider(g.settings, t) && i < |ProbedRoutes(g, s, t, call, freshId)|
    ensures ProbedRoutes(g, s, t, call, freshId)[i].deployment.providerKey == t.providerKey.value
  {
    hide ProbedRoutes, Evaluate, Filter, Chosen, RoutesFor;
    ProbedIs(g, s, t, call, freshId, i);
    if t.deploymentId.None? {
      hide Scoped;
      ScopedByProvider(g.settings, t, freshId);
      if Scoped(g.settings, t, freshId).None? { RouterReaches(g, s, t, call, freshId, i); }
    }
  }

  /** A deployment of another provider wins over the provider named. */
  lemma {:induction false} NamedDeploymentLeaves(settings: Settings, t: TestRequest)
    requires Truthy(t.providerKey) && t.deploymentId.Some? && !StaysWithProvider(settings, t)
    ensures !OnlyProbes(settings, t, t.providerKey.value)
  {
    hide ProbedRoutes, Evaluate, Filter, Scoped;
    var any := Deployment("", "", if Truthy(t.modelKey) then t.modelKey.value else "any", "any", true, 0);
    var g, call := SetupFor(settings, RulesFor(t, any)), FirstCall(SOMEONE);
    RulesLeadTo(t, any, SOMEONE);
    NamedDeploymentIsProbed(settings, t, "");
    AllowedIsProbed(g, EMPTY_BOOKS, t, call, "");
    assert ProbedRoutes(g, EMPTY_BOOKS, t, call, "")[0].deployment.providerKey != t.providerKey.value;
  }

  // ---- Two tests that leave their provider ---------------------------------------------------------

  /** A test of a provider that is not registered ... */
  lemma UnregisteredProviderLeaves(other: string, model: string)
    requires other != "p" && other != "" && model != ""
    ensures !OnlyProbes(OneDeployment(model, "default-chat"), TestRequest(Some(other), None, None, None, None, None),
                        other)
  {
    var settings, t := OneDeployment(model, "default-chat"), TestRequest(Some(other), None, None, None, None, None);
    ProviderScope(settings, t);
    assert Reachable(settings, t, other, settings.deployments[0]);
  }

  /** ... and of a registered one with a deployment of another. */
  lemma NamedDeploymentWins(other: string, model: string)
    requires other != "p" && other != ""
    ensures var settings := OneDeployment(model, "default-chat").(providers := {"p", other});
            !OnlyProbes(settings, TestRequest(Some(other), Some("d"), None, None, None, None), other)
  {
    var settings := OneDeployment(model, "default-chat").(providers := {"p", other});
    var t := TestRequest(Some(other), Some("d"), None, None, None, None);
    ProviderScope(settings, t);
    assert settings.deployments[..0] == [];
    assert Filter(settings.deployments, HasId("d")) == settings.deployments;
  }

  // ---- What a test of its own target probes ---------------------------------------------------

  /** Deployment `k` is the first that satisfies `p`. */
  predicate IsFirst(ds: seq<Deployment>, k: int, p: Deployment -> bool) {
    0 <= k < |ds| && p(ds[k]) && forall j :: 0 <= j < k ==> !p(ds[j])
  }

  lemma {:induction false} FilterFirst(ds: seq<Deployment>, p: Deployment -> bool) returns (k: int)
    ensures if Filter(ds, p) == [] then forall x :: x in ds ==> !p(x)
            else IsFirst(ds, k, p) && Filter(ds, p)[0] == ds[k]
  {
    k := 0;
    if ds != [] {
      var front, n := ds[..|ds| - 1], |ds| - 1;
      k := FilterFirst(front, p);
      if Filter(front, p) == [] {
        forall j | 0 <= j < n ensures !p(ds[j]) { assert front[j] in front; }
        k := n;
        assert forall x :: x in ds ==> x in front || x == ds[n];
      } else {
        assert forall j :: 0 <= j < n ==> ds[j] == front[j];
      }
    }
  }

  /** The deployment as it is stored, but for a model the test names. */
  function WithModel(x: Deployment, t: TestRequest): Deployment {
    if Truthy(t.modelKey) then x.(modelKey := t.modelKey.value) else x
  }

  /** A test that names a deployment probes the first one stored under that id, with the
      model the test names if it names one; it raises 404 if there is none, and a
      `KeyError` if its provider is not registered. */
  lemma {:induction false} NamedDeploymentProbe(settings: Settings, t: TestRequest, freshId: string) returns (k: int)
    requires t.deploymentId.Some?
    ensures var plan, ds, id := Scoped(settings, t, freshId), settings.deployments, t.deploymentId.value;
            && plan.Some?
            && if forall x :: x in ds ==> x.id != id then plan.value == NoTest(Http(404, "HTTPException"))
               else
                 && IsFirst(ds, k, (x: Deployment) => x.id == id)
                 && plan.value ==
                    if ds[k].providerKey !in settings.providers then NoTest(Other("KeyError"))
                    else TestRoutes([Route(WithModel(ds[k], t), ConnectionTest)])
  {
    k := FilterFirst(settings.deployments, HasId(t.deploymentId.value));
    var matches := Filter(settings.deployments, HasId(t.deploymentId.value));
    if matches != [] { assert settings.deployments[k].id == t.deploymentId.value; }
  }

  /** Of the deployments of a provider, the first of those with the lowest priority number. */
  ghost predicate IsPreferred(ds: seq<Deployment>, k: int, key: string) {
    && 0 <= k < |ds| && ds[k].providerKey == key
    && forall j :: 0 <= j < |ds| && ds[j].providerKey == key ==>
         ds[k].priority < ds[j].priority || (ds[k].priority == ds[j].priority && k <= j)
  }

  function HasPriority(n: int): Deployment -> bool { (x: Deployment) => x.priority == n }

  /** Sorting puts first what comes first of the lowest priority number. */
  lemma {:induction false} LeastComesFirst(found: seq<Deployment>)
    requires found != []
    ensures var sorted := Sorting.SortBy(found, PriorityLe);
            && sorted != [] && (forall x :: x in found ==> sorted[0].priority <= x.priority)
            && var least := Filter(found, HasPriority(sorted[0].priority)); least != [] && least[0] == sorted[0]
  {
    hide Sorting.TotalPreorder, Sorting.SortBy;
    var sorted := Sorting.SortBy(found, PriorityLe);
    OrdersAreTotal((key: Option<string>) => Pricing.Rule(0, 0));
    Sorting.SortIsSortedPermutation(found, PriorityLe);
    Sorting.SortMembers(found, PriorityLe);
    SortedLength(found, PriorityLe);
    forall x | x in found ensures sorted[0].priority <= x.priority {
      assert x in sorted;
      var i :| 0 <= i < |sorted| && sorted[i] == x;
      assert PriorityLe(sorted[0], sorted[i]);
    }
    var tied := HasPriority(sorted[0].priority);
    Sorting.SortIsStable(found, PriorityLe, tied);
    FirstStaysFirst(sorted, tied);
  }

  lemma {:induction false} FirstStaysFirst(ds: seq<Deployment>, p: Deployment -> bool)
    requires ds != [] && p(ds[0])
    ensures Filter(ds, p) != [] && Filter(ds, p)[0] == ds[0]
  {
    if |ds| > 1 { FirstStaysFirst(ds[..|ds| - 1], p); }
  }

  lemma {:induction false} PreferredComesFirst(ds: seq<Deployment>, key: string) returns (k: int)
    ensures var found := Filter(ds, HasProvider(key));
            && (found == [] <==> Calls.Sorted(found) == [])
            && (found == [] ==> forall x :: x in ds ==> x.providerKey != key)
            && (found != [] ==> IsPreferred(ds, k, key) && Calls.Sorted(found)[0] == ds[k])
  {
    hide Sorting.SortBy, Filter;
    var found := Filter(ds, HasProvider(key));
    FilterMembers(ds, HasProvider(key));
    SortedLength(found, PriorityLe);
    if found == [] {
      forall x | x in ds ensures x.providerKey != key { assert HasProvider(key)(x) ==> x in found; }
      k := 0;
    } else {
      LeastComesFirst(found);
      var n := Calls.Sorted(found)[0].priority;
      var both := (x: Deployment) => x.providerKey == key && x.priority == n;
      FilterTwice(ds, HasProvider(key), HasPriority(n), both);
      k := FilterFirst(ds, both);
      forall j | 0 <= j < |ds| && ds[j].providerKey == key
        ensures n < ds[j].priority || (n == ds[j].priority && k <= j)
      {
        assert ds[j] in ds && HasProvider(key)(ds[j]) && ds[j] in found;
        assert j < k ==> !both(ds[j]);
      }
    }
  }

  /** A test of a registered provider with a configuration of its own probes it once:
      through the preferred deployment saved for the provider, or a fresh one. */
  lemma {:induction false} TemporaryProbe(settings: Settings, t: TestRequest, freshId: string) returns (k: int)
    requires t.deploymentId.None? && Truthy(t.providerKey) && t.providerKey.value in settings.providers
    requires Truthy(t.apiKey) || Truthy(t.baseUrl) || Truthy(t.adapterType) || Truthy(t.modelKey)
    ensures var plan, ds, key := Scoped(settings, t, freshId), settings.deployments, t.providerKey.value;
            if forall x :: x in ds ==> x.providerKey != key then
              var model := if Truthy(t.modelKey) then t.modelKey.value else "chat-model";
              plan == Some(TestRoutes([Route(Deployment(freshId, key, model, key + "-temporary-test", true, 100),
                                             ConnectionTest)]))
            else IsPreferred(ds, k, key) && plan == Some(TestRoutes([Route(WithModel(ds[k], t), ConnectionTest)]))
  {
    hide Calls.Sorted;
    k := PreferredComesFirst(settings.deployments, t.providerKey.value);
  }

  /** A test of a registered provider as it is saved probes its deployments lowest
      priority number first, those of the same priority as they are configured. */
  lemma {:induction false} SavedProbes(settings: Settings, t: TestRequest, freshId: string, priority: int)
    requires t.deploymentId.None? && Truthy(t.providerKey) && t.providerKey.value in settings.providers
    requires !Truthy(t.apiKey) && !Truthy(t.baseUrl) && !Truthy(t.adapterType) && !Truthy(t.modelKey)
    requires Saved(settings, t.providerKey.value)
    ensures var plan, key := Scoped(settings, t, freshId), t.providerKey.value;
            && plan.Some? && plan.value.TestRoutes?
            && var routes := plan.value.routes;
            && var probed := seq(|routes|, i requires 0 <= i < |routes| => routes[i].deployment);
            && (forall i :: 0 <= i < |routes| ==> routes[i].reason.ConnectionTest?)
            && (forall i, j :: 0 <= i < j < |routes| ==> probed[i].priority <= probed[j].priority)
            && Filter(probed, (x: Deployment) => x.priority == priority) ==
               Filter(settings.deployments, (x: Deployment) => x.providerKey == key && x.priority == priority)
  {
    hide Sorting.TotalPreorder;
    var key := t.providerKey.value;
    var found := Filter(settings.deployments, HasProvider(key));
    var sorted := Calls.Sorted(found);
    ScopedByProvider(settings, t, freshId);
    var routes := Scoped(settings, t, freshId).value.routes;
    var probed := seq(|routes|, i requires 0 <= i < |routes| => routes[i].deployment);
    assert probed == sorted == Sorting.SortBy(found, PriorityLe);
    OrdersAreTotal((key: Option<string>) => Pricing.Rule(0, 0));
    Sorting.SortIsSortedPermutation(found, PriorityLe);
    var tied := (x: Deployment) => x.priority == priority;
    Sorting.SortIsStable(found, PriorityLe, tied);
    FilterTwice(settings.deployments, HasProvider(key), tied,
                (x: Deployment) => x.providerKey == key && x.priority == priority);
  }

  // ---- The models a test can reach ---------------------------------------------------------------------

  /** Over all deployments, budgets and breaker states, the test only probes these models. */
  ghost predicate OnlyModels(rules: seq<Policy.Rule>, t: TestRequest, ctx: B.Context, models: seq<string>) {
    forall g: Setup, s, call: Call, freshId, i ::
      g.rules == rules && call.ctx == ctx && 0 <= i < |ProbedRoutes(g, s, t, call, freshId)| ==>
        ProbedRoutes(g, s, t, call, freshId)[i].deployment.modelKey in models
  }

  lemma {:induction false} NamedModelIsProbed(settings: Settings, t: TestRequest, freshId: string)
    requires Truthy(t.modelKey) && Scoped(settings, t, freshId).Some? && Scoped(settings, t, freshId).value.TestRoutes?
    ensures forall i :: 0 <= i < |Scoped(settings, t, freshId).value.routes| ==>
              Scoped(settings, t, freshId).value.routes[i].deployment.modelKey == t.modelKey.value
  {
    hide Filter, SortCandidates;
  }

  /** The one deployment there is. */
  function Only(x: Deployment): Settings {
    Settings([x], {x.providerKey}, (k: Option<string>) => Pricing.Rule(0, 0), false)
  }

  /** The test's target, with a model and a routing key of one's choice. */
  function Target(t: TestRequest, model: string, routing: string): Deployment {
    Deployment(if t.deploymentId.Some? then t.deploymentId.value else "d",
               if Truthy(t.providerKey) then t.providerKey.value else "p", model, routing, true, 0)
  }

  lemma {:induction false} TargetIsProbed(t: TestRequest, model: string, routing: string, freshId: string)
    requires !Truthy(t.modelKey) && (t.deploymentId.Some? || Truthy(t.providerKey))
    ensures var plan := Scoped(Only(Target(t, model, routing)), t, freshId);
            && plan.Some? && plan.value.TestRoutes? && |plan.value.routes| == 1
            && plan.value.routes[0].deployment.modelKey == model
  {
    var x := Target(t, model, routing);
    assert [x][..0] == [];
    assert Filter([x], HasId(x.id)) == [x] && Filter([x], HasProvider(x.providerKey)) == [x];
    SortedLength([x], PriorityLe);
    SortedMembers([x]);
    assert Calls.Sorted([x])[0] in Calls.Sorted([x]);
  }

  /** A rule's list of models confines a connection test, whatever it is aimed at,
      exactly when the test names a model, or names no target and the rule has a
      default model: a deployment or provider named bypasses the decision. */
  lemma {:induction false} TestModelsConfined(rules: seq<Policy.Rule>, t: TestRequest, ctx: B.Context, a: Policy.Rule)
    requires ApprovedBy(rules, Ping(t), ctx, a) && Validated(a) && a.allowedModels != []
    ensures OnlyModels(rules, t, ctx, a.allowedModels) <==>
            Truthy(t.modelKey) || (t.deploymentId.None? && !Truthy(t.providerKey) && Truthy(a.defaultModelKey))
  {
    hide ProbedRoutes, Scoped, Evaluate, Filter, Chosen, Policy.Matches, Validated;
    ApproverFacts(rules, Ping(t), ctx, a);
    ValidatedDefaults(a);
    if Truthy(t.modelKey) || (t.deploymentId.None? && !Truthy(t.providerKey) && Truthy(a.defaultModelKey)) {
      forall g: Setup, s, call: Call, freshId, i
        | g.rules == rules && call.ctx == ctx && 0 <= i < |ProbedRoutes(g, s, t, call, freshId)|
        ensures ProbedRoutes(g, s, t, call, freshId)[i].deployment.modelKey in a.allowedModels
      {
        KeepsToTheList(g, s, t, call, freshId, i, a);
      }
    } else {
      OtherModelIsProbed(rules, t, ctx, a);
    }
  }

  lemma {:induction false} KeepsToTheList(g: Setup, s: Books, t: TestRequest, call: Call, freshId: string, i: nat,
          a: Policy.Rule)
    requires ApprovedBy(g.rules, Ping(t), call.ctx, a) && Validated(a) && a.allowedModels != []
    requires Truthy(t.modelKey) || (t.deploymentId.None? && !Truthy(t.providerKey) && Truthy(a.defaultModelKey))
    requires i < |ProbedRoutes(g, s, t, call, freshId)|
    ensures ProbedRoutes(g, s, t, call, freshId)[i].deployment.modelKey in a.allowedModels
  {
    hide ProbedRoutes, Evaluate, Filter, Chosen, Policy.Matches, Validated;
    var d := Evaluate(g.rules, Ping(t), call.ctx);
    ApproverFacts(g.rules, Ping(t), call.ctx, a);
    ValidatedDefaults(a);
    ProbedIs(g, s, t, call, freshId, i);
    if Scoped(g.settings, t, freshId).Some? {
      NamedModelIsProbed(g.settings, t, freshId);
    } else {
      OpenOnlyAsLastResort(g.settings, Ping(t), d, HealthAt(g, s, call),
                           ProbedRoutes(g, s, t, call, freshId)[i].deployment);
    }
  }

  lemma {:induction false} OtherModelIsProbed(rules: seq<Policy.Rule>, t: TestRequest, ctx: B.Context, a: Policy.Rule)
    requires ApprovedBy(rules, Ping(t), ctx, a) && !Truthy(t.modelKey)
    requires t.deploymentId.Some? || Truthy(t.providerKey) || !Truthy(a.defaultModelKey)
    ensures !OnlyModels(rules, t, ctx, a.allowedModels)
  {
    hide ProbedRoutes, Evaluate, Filter, Chosen, Policy.Matches, Scoped;
    var d, model := Evaluate(rules, Ping(t), ctx), Fresh(a.allowedModels);
    ApproverFacts(rules, Ping(t), ctx, a);
    var x := Target(t, model, if Truthy(d.routingKey) then d.routingKey.value else "any");
    var g, call := SetupFor(Only(x), rules), FirstCall(ctx);
    if t.deploymentId.Some? || Truthy(t.providerKey) {
      TargetIsProbed(t, model, x.routingKey, "");
      AllowedIsProbed(g, EMPTY_BOOKS, t, call, "");
      assert ProbedRoutes(g, EMPTY_BOOKS, t, call, "")[0].deployment.modelKey !in a.allowedModels;
    } else {
      assert Scoped(Only(x), t, "").None? by { NoTarget(Only(x), t, ""); }
      PlannedByRouter(g, EMPTY_BOOKS, t, call, "", x);
      var i :| 0 <= i < |ProbedRoutes(g, EMPTY_BOOKS, t, call, "")| &&
               ProbedRoutes(g, EMPTY_BOOKS, t, call, "")[i].deployment == x;
      assert ProbedRoutes(g, EMPTY_BOOKS, t, call, "")[i].deployment.modelKey !in a.allowedModels;
    }
  }

  lemma NoTarget(settings: Settings, t: TestRequest, freshId: string)
    requires t.deploymentId.None? && !Truthy(t.providerKey)
    ensures Scoped(settings, t, freshId).None?
  {}
}
