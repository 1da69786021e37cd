/** What a stored allow rule confines, from its validation to the routes planned
    (backend/app/llm/policy_validation.py, policy.py, gateway.py and router.py). */
module Confinement {
  import opened Basics
  import opened Pricing
  import opened Policy
  import opened Router
  import B = Budget
  import CB = CircuitBreaker

  /** The request a gateway reserves and routes: the caller's, completed by the decision. */
  function EffectiveRequest(q: ChatRequest, d: Decision): ChatRequest {
    q.(modelKey := Or(q.modelKey, d.modelKey),
       routingKey := Or(q.routingKey, d.routingKey),
       maxTokens := if d.maxTokens.Some? then d.maxTokens else q.maxTokens)
  }

  /** A rule stored from a payload that passed validation. */
  ghost predicate Validated(r: Policy.Rule) {
    exists p: Payload :: Normalize(p).1.None? && StoredAs(Normalize(p).0, r)
  }

  predicate StoredAs(p: Payload, r: Policy.Rule) {
    && r.name == p.name && r.effect == p.effect
    && r.allowedModels == p.allowedModels && r.allowedRoutingKeys == p.allowedRoutingKeys
    && r.defaultModelKey == p.defaultModelKey && r.defaultRoutingKey == p.defaultRoutingKey
  }

  /** What the confinement proofs need of a validated rule. */
  lemma {:induction false} ValidatedDefaults(r: Policy.Rule)
    requires Validated(r)
    ensures r.defaultModelKey.Some? ==> r.defaultModelKey.value in r.allowedModels
    ensures r.defaultRoutingKey.Some? ==> r.defaultRoutingKey.value in r.allowedRoutingKeys
    ensures r.effect.Allow? ==> r.allowedModels != [] || r.allowedRoutingKeys != []
  {}

  function PayloadOf(r: Policy.Rule): Payload {
    Payload(r.name, None, r.effect, r.allowedModels, r.allowedRoutingKeys, r.defaultModelKey, r.defaultRoutingKey)
  }

  /** Any rule with well-formed fields can have been stored so. */
  lemma {:induction false} WellFormedIsValidated(r: Policy.Rule)
    ensures Validated(r) <==> WellFormed(PayloadOf(r))
  {
    hide Normalize;
    var p := PayloadOf(r);
    if WellFormed(p) {
      WellFormedIsAccepted(p);
      assert Normalize(p).1.None? && StoredAs(Normalize(p).0, r);
    }
    if Validated(r) {
      var stored: Payload :| Normalize(stored).1.None? && StoredAs(Normalize(stored).0, r);
      AcceptedIsWellFormed(stored);
    }
  }

  /** The rule `a` approved the request. */
  predicate ApprovedBy(rules: seq<Policy.Rule>, q: ChatRequest, ctx: B.Context, a: Policy.Rule) {
    Evaluate(rules, q, ctx).reason == AllowedBy(a)
  }

  lemma {:induction false} ApproverFacts(rules: seq<Policy.Rule>, q: ChatRequest, ctx: B.Context, a: Policy.Rule)
    requires ApprovedBy(rules, q, ctx, a)
    ensures a in rules && Policy.Matches(a, ctx) && Allows(a, q)
    ensures var d := Evaluate(rules, q, ctx);
            && d.allowed
            && d.modelKey == Or(q.modelKey, a.defaultModelKey)
            && d.routingKey == Or(q.routingKey, a.defaultRoutingKey)
            && d.maxTokens == EffectiveMaxTokens(q.maxTokens, a.maxTokens)
  {
    hide Policy.Matches, Allows;
    MatchingMembers(rules, ctx);
    FirstAllowFacts(MatchingPolicies(rules, ctx), q);
  }

  /** An allow rule that stands alone approves what it admits. */
  lemma {:induction false} AloneItApproves(a: Policy.Rule, q: ChatRequest, ctx: B.Context)
    requires Policy.Matches(a, ctx) && Allows(a, q) && q.messages != []
    ensures ApprovedBy([a], q, ctx, a)
  {
    hide Policy.Matches, Admits;
    MatchingMembers([a], ctx);
    FirstAllowFacts(MatchingPolicies([a], ctx), q);
    FirstDenyFacts(MatchingPolicies([a], ctx), q);
  }

  // ---- Models and routing keys ---------------------------------------------------------------

  /** `x` is planned for the request under these settings and this breaker state. */
  predicate Planned(s: Settings, h: Health, q: ChatRequest, d: Decision, x: Deployment) {
    var plan := PlanFor(s, EffectiveRequest(q, d), d, h);
    plan.Routes? && exists i :: 0 <= i < |plan.routes| && plan.routes[i].deployment == x
  }

  lemma PlannedIsChosen(s: Settings, h: Health, q: ChatRequest, d: Decision, x: Deployment)
    ensures Planned(s, h, q, d, x) <==> x in Chosen(s, EffectiveRequest(q, d), d, h)
  {
    hide Chosen;
    var e := EffectiveRequest(q, d);
    var plan, chosen := PlanFor(s, e, d, h), Chosen(s, e, d, h);
    PlanOutcome(s, e, d, h);
    if x in chosen {
      var i :| 0 <= i < |chosen| && chosen[i] == x;
      assert plan.routes[i].deployment == x;
    }
  }

  /** Every planned route uses the model and the routing key of the decision, where it has them. */
  lemma {:induction false} PlannedFollowsDecision(s: Settings, h: Health, q: ChatRequest, d: Decision, x: Deployment)
    ensures Planned(s, h, q, d, x) && Truthy(d.modelKey) ==> x.modelKey == d.modelKey.value
    ensures Planned(s, h, q, d, x) && Truthy(d.routingKey) ==> x.routingKey == d.routingKey.value
  {
    hide Chosen, Planned;
    PlannedIsChosen(s, h, q, d, x);
    if Planned(s, h, q, d, x) { OpenOnlyAsLastResort(s, EffectiveRequest(q, d), d, h, x); }
  }

  /** A key that no list contains. */
  function Fresh(keys: seq<string>): (r: string)
    ensures forall k :: k in keys ==> |k| < |r|
  {
    if keys == [] then "x"
    else if |Fresh(keys[..|keys| - 1])| > |keys[|keys| - 1]| then Fresh(keys[..|keys| - 1])
    else keys[|keys| - 1] + "x"
  }

  /** A catalogue of one active deployment. */
  function OneDeployment(model: string, routing: string): Settings {
    Settings([Deployment("d", "p", model, routing, true, 0)], {"p"}, (k: Option<string>) => Pricing.Rule(0, 0), false)
  }

  function NothingFailed(): Health { Health(CB.Config(1, CB.MIN_COOLDOWN, 1, true), map[], 0) }

  lemma {:induction false} OneDeploymentPlanned(model: string, routing: string, q: ChatRequest, d: Decision)
    requires var e := EffectiveRequest(q, d);
             Eligible(e, d)(OneDeployment(model, routing).deployments[0])
    ensures Planned(OneDeployment(model, routing), NothingFailed(), q, d,
        OneDeployment(model, routing).deployments[0])
  {
    var s, h, e := OneDeployment(model, routing), NothingFailed(), EffectiveRequest(q, d);
    var x := s.deployments[0];
    assert s.deployments[..0] == [];
    assert Filter(s.deployments, Eligible(e, d)) == [x];
    PlanIsTheEligible(s, e, d, h);
    var usable := Usable([x], h);
    assert [x][..0] == [];
    assert usable == [x];
    assert Filter(usable, Registered(s)) == [x];
    assert x in multiset(Chosen(s, e, d, h));
    assert x in Chosen(s, e, d, h);
    PlannedIsChosen(s, h, q, d, x);
  }

  /** For a request approved by a validated rule with a list of allowed models, all
      the routes ever planned stay inside that list exactly when the decision
      carries a model, that is, when the request names one or the rule has a
      default. */
  lemma {:induction false} ModelsConfined(rules: seq<Policy.Rule>, q: ChatRequest, ctx: B.Context, a: Policy.Rule)
    requires ApprovedBy(rules, q, ctx, a) && Validated(a) && a.allowedModels != []
    ensures var d := Evaluate(rules, q, ctx);
            (forall s, h, x :: Planned(s, h, q, d, x) ==> x.modelKey in a.allowedModels)
            <==> Truthy(q.modelKey) || Truthy(a.defaultModelKey)
  {
    hide Evaluate, Planned;
    var d := Evaluate(rules, q, ctx);
    ApproverFacts(rules, q, ctx, a);
    ValidatedDefaults(a);
    if Truthy(d.modelKey) {
      forall s, h, x | Planned(s, h, q, d, x) ensures x.modelKey in a.allowedModels {
        PlannedFollowsDecision(s, h, q, d, x);
      }
    } else {
      var routing := if Truthy(d.routingKey) then d.routingKey.value else "any";
      var s := OneDeployment(Fresh(a.allowedModels), routing);
      OneDeploymentPlanned(Fresh(a.allowedModels), routing, q, d);
      assert Planned(s, NothingFailed(), q, d, s.deployments[0]);
    }
  }

  /** Likewise for routing keys. */
  lemma {:induction false} RoutingKeysConfined(rules: seq<Policy.Rule>, q: ChatRequest, ctx: B.Context,
          a: Policy.Rule)
    requires ApprovedBy(rules, q, ctx, a) && Validated(a) && a.allowedRoutingKeys != []
    ensures var d := Evaluate(rules, q, ctx);
            (forall s, h, x :: Planned(s, h, q, d, x) ==> x.routingKey in a.allowedRoutingKeys)
            <==> Truthy(q.routingKey) || Truthy(a.defaultRoutingKey)
  {
    hide Evaluate, Planned;
    var d := Evaluate(rules, q, ctx);
    ApproverFacts(rules, q, ctx, a);
    ValidatedDefaults(a);
    if Truthy(d.routingKey) {
      forall s, h, x | Planned(s, h, q, d, x) ensures x.routingKey in a.allowedRoutingKeys {
        PlannedFollowsDecision(s, h, q, d, x);
      }
    } else {
      var model := if Truthy(d.modelKey) then d.modelKey.value else "any";
      var s := OneDeployment(model, Fresh(a.allowedRoutingKeys));
      OneDeploymentPlanned(model, Fresh(a.allowedRoutingKeys), q, d);
      assert Planned(s, NothingFailed(), q, d, s.deployments[0]);
    }
  }

  // ---- What deny rules keep out ----------------------------------------------------------------

  /** An applicable deny rule that does not refuse a request does not list what the request names. */
  lemma {:induction false} DenierFacts(rules: seq<Policy.Rule>, q: ChatRequest, ctx: B.Context, a: Policy.Rule,
          deny: Policy.Rule)
    requires ApprovedBy(rules, q, ctx, a) && deny in rules && Policy.Matches(deny, ctx) && deny.effect.Deny?
    ensures !Targets(deny, q)
  {
    hide Policy.Matches, Targets, Admits, MatchingPolicies;
    MatchingMembers(rules, ctx);
    FirstDenyFacts(MatchingPolicies(rules, ctx), q);
    FirstAllowFacts(MatchingPolicies(rules, ctx), q);
    assert deny in MatchingPolicies(rules, ctx);
  }

  /** For a request approved by a rule, an applicable deny rule keeps the models it
      lists out of every plan exactly when the request names a model, or the rule
      has a default one that is not denied, or the deny rule lists none. */
  lemma {:induction false} DeniedModelsStayOut(rules: seq<Policy.Rule>, q: ChatRequest, ctx: B.Context,
          a: Policy.Rule, deny: Policy.Rule)
    requires ApprovedBy(rules, q, ctx, a) && deny in rules && Policy.Matches(deny, ctx) && deny.effect.Deny?
    ensures var d := Evaluate(rules, q, ctx);
            (forall s, h, x :: Planned(s, h, q, d, x) ==> x.modelKey !in deny.allowedModels)
            <==> || Truthy(q.modelKey)
                 || (Truthy(a.defaultModelKey) && a.defaultModelKey.value !in deny.allowedModels)
                 || deny.allowedModels == []
  {
    hide Evaluate, Planned, Policy.Matches, Allows;
    var d := Evaluate(rules, q, ctx);
    ApproverFacts(rules, q, ctx, a);
    DenierFacts(rules, q, ctx, a, deny);
    if Truthy(d.modelKey) && d.modelKey.value !in deny.allowedModels {
      forall s, h, x | Planned(s, h, q, d, x) ensures x.modelKey !in deny.allowedModels {
        PlannedFollowsDecision(s, h, q, d, x);
      }
    } else if deny.allowedModels != [] {
      var model := if Truthy(d.modelKey) then d.modelKey.value else deny.allowedModels[0];
      var routing := if Truthy(d.routingKey) then d.routingKey.value else "any";
      OneDeploymentPlanned(model, routing, q, d);
      assert Planned(OneDeployment(model, routing), NothingFailed(), q, d,
                     OneDeployment(model, routing).deployments[0]);
    }
  }

  /** Likewise for routing keys. */
  lemma {:induction false} DeniedRoutingKeysStayOut(rules: seq<Policy.Rule>, q: ChatRequest, ctx: B.Context,
          a: Policy.Rule, deny: Policy.Rule)
    requires ApprovedBy(rules, q, ctx, a) && deny in rules && Policy.Matches(deny, ctx) && deny.effect.Deny?
    ensures var d := Evaluate(rules, q, ctx);
            (forall s, h, x :: Planned(s, h, q, d, x) ==> x.routingKey !in deny.allowedRoutingKeys)
            <==> || Truthy(q.routingKey)
                 || (Truthy(a.defaultRoutingKey) && a.defaultRoutingKey.value !in deny.allowedRoutingKeys)
                 || deny.allowedRoutingKeys == []
  {
    hide Evaluate, Planned, Policy.Matches, Allows;
    var d := Evaluate(rules, q, ctx);
    ApproverFacts(rules, q, ctx, a);
    DenierFacts(rules, q, ctx, a, deny);
    if Truthy(d.routingKey) && d.routingKey.value !in deny.allowedRoutingKeys {
      forall s, h, x | Planned(s, h, q, d, x) ensures x.routingKey !in deny.allowedRoutingKeys {
        PlannedFollowsDecision(s, h, q, d, x);
      }
    } else if deny.allowedRoutingKeys != [] {
      var routing := if Truthy(d.routingKey) then d.routingKey.value else deny.allowedRoutingKeys[0];
      var model := if Truthy(d.modelKey) then d.modelKey.value else "any";
      OneDeploymentPlanned(model, routing, q, d);
      assert Planned(OneDeployment(model, routing), NothingFailed(), q, d,
                     OneDeployment(model, routing).deployments[0]);
    }
  }

  /** A request that names only a routing key, approved by a rule without a default
      model, is planned onto a model that another applicable rule denies. */
  lemma {:induction false} DeniedModelPlanned(allow: Policy.Rule, deny: Policy.Rule, q: ChatRequest, ctx: B.Context)
    requires Policy.Matches(allow, ctx) && Policy.Matches(deny, ctx) && deny.effect.Deny? && Allows(allow, q)
    requires q.messages != [] && !Truthy(q.modelKey) && Truthy(q.routingKey) && !Truthy(allow.defaultModelKey)
    requires deny.allowedModels != [] && q.routingKey.value !in deny.allowedRoutingKeys
    ensures var d := Evaluate([allow, deny], q, ctx);
            d.allowed && exists s, h, x :: Planned(s, h, q, d, x) && x.modelKey in deny.allowedModels
  {
    hide Evaluate, Planned, Policy.Matches, Admits;
    TwoRulesApprove(allow, deny, q, ctx);
    DeniedModelsStayOut([allow, deny], q, ctx, allow, deny);
    ApproverFacts([allow, deny], q, ctx, allow);
  }

  lemma {:induction false} TwoRulesApprove(allow: Policy.Rule, deny: Policy.Rule, q: ChatRequest, ctx: B.Context)
    requires Policy.Matches(allow, ctx) && Policy.Matches(deny, ctx) && deny.effect.Deny? && Allows(allow, q)
    requires q.messages != [] && !Targets(deny, q)
    ensures ApprovedBy([allow, deny], q, ctx, allow)
  {
    hide Policy.Matches, Admits, Targets, MatchingPolicies;
    var rules := [allow, deny];
    MatchingMembers(rules, ctx);
    FirstAllowFacts(MatchingPolicies(rules, ctx), q);
    FirstDenyFacts(MatchingPolicies(rules, ctx), q);
    assert allow in rules;
  }

  // ---- Output tokens ----------------------------------------------------------------------------

  /** A rule's cap on output tokens bounds both what the adapter is asked for and
      what the reservation estimates; a cap of zero, which the request schema
      rules out, would be read as no cap at all by the estimate. */
  lemma {:induction false} OutputIsCapped(rules: seq<Policy.Rule>, q: ChatRequest, ctx: B.Context, a: Policy.Rule,
          cap: nat, prices: Catalog)
    requires ApprovedBy(rules, q, ctx, a) && a.maxTokens == Some(cap)
    requires q.maxTokens.Some? ==> q.maxTokens.value >= 1
    ensures var e := EffectiveRequest(q, Evaluate(rules, q, ctx));
            && e.maxTokens.Some? && e.maxTokens.value <= cap
            && (q.maxTokens.Some? ==> e.maxTokens.value <= q.maxTokens.value)
            && (Estimate(prices, e).outputTokens <= cap <==> cap >= 1)
  {}
}
