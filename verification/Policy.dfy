/** The model policy engine (backend/app/llm/policy.py) and the validation of the
    rules it runs on (backend/app/llm/policy_validation.py). */
module Policy {
  import opened Basics
  import opened Pricing
  import opened Sorting
  import opened Text
  import B = Budget

  datatype Effect = Allow | Deny

  datatype Rule = Rule(
    id: Id,
    name: string,
    scopeType: B.ScopeType,
    scopeId: Option<Id>,
    effect: Effect,
    allowedModels: seq<string>,
    allowedRoutingKeys: seq<string>,
    defaultModelKey: Option<string>,
    defaultRoutingKey: Option<string>,
    maxTokens: Option<nat>,
    priority: int,
    routingStrategy: Option<string>)

  datatype Reason =
    | MessagesRequired
    | DeniedBy(rule: Rule)
    | AllowedBy(rule: Rule)
    | NoMatchingAllow(matched: seq<Rule>)
    | DefaultRoute
    | ExplicitRoute

  datatype Decision = Decision(
    allowed: bool,
    reason: Reason,
    modelKey: Option<string>,
    routingKey: Option<string>,
    maxTokens: Option<nat>,
    routingStrategy: Option<string>)

  /** Python truth of an optional string. */
  predicate Truthy(s: Option<string>) { s.Some? && s.value != "" }

  /** `a or b`. */
  function Or(a: Option<string>, b: Option<string>): Option<string> { if Truthy(a) then a else b }

  // ---- Matching and ordering ----------------------------------------------------------

  /** `_matches`: unlike budgets, an absent scope id equals an absent context field. */
  predicate Matches(r: Rule, ctx: B.Context) {
    match r.scopeType
    case Tenant => r.scopeId == None
    case Unknown => false
    case _ => r.scopeId == B.ScopeMember(r.scopeType, ctx)
  }

  function ScopeRank(t: B.ScopeType): nat {
    match t
    case Tenant => 10
    case Department => 20
    case CostCenter => 25
    case Channel => 30
    case Agent => 40
    case User => 50
    case Unknown => 0
  }

  /** Lexicographic order of strings by code point. */
  predicate StringLe(a: string, b: string) {
    a == [] || (b != [] && (a[0] < b[0] || (a[0] == b[0] && StringLe(a[1..], b[1..]))))
  }

  /** The sort key: scope rank descending, then priority, then name. */
  predicate RuleLe(a: Rule, b: Rule) {
    var i, j := ScopeRank(a.scopeType), ScopeRank(b.scopeType);
    i > j || (i == j && (a.priority < b.priority || (a.priority == b.priority && StringLe(a.name, b.name))))
  }

  function Matched(rules: seq<Rule>, ctx: B.Context): seq<Rule> {
    if rules == [] then []
    else
      var front, r := Matched(rules[..|rules| - 1], ctx), rules[|rules| - 1];
      if Matches(r, ctx) then front + [r] else front
  }

  function MatchingPolicies(rules: seq<Rule>, ctx: B.Context): seq<Rule> { SortBy(Matched(rules, ctx), RuleLe) }

  // ---- The decision --------------------------------------------------------------------

  predicate Targets(r: Rule, q: ChatRequest) {
    || (r.allowedModels == [] && r.allowedRoutingKeys == [])
    || (Truthy(q.modelKey) && q.modelKey.value in r.allowedModels)
    || (Truthy(q.routingKey) && q.routingKey.value in r.allowedRoutingKeys)
  }

  predicate Admits(r: Rule, q: ChatRequest) {
    && !(Truthy(q.modelKey) && r.allowedModels != [] && q.modelKey.value !in r.allowedModels)
    && !(Truthy(q.routingKey) && r.allowedRoutingKeys != [] && q.routingKey.value !in r.allowedRoutingKeys)
    && (q.modelKey.None? && q.routingKey.None? ==> Truthy(r.defaultModelKey) || Truthy(r.defaultRoutingKey))
  }

  predicate Denies(r: Rule, q: ChatRequest) { r.effect.Deny? && Targets(r, q) }

  predicate Allows(r: Rule, q: ChatRequest) { r.effect.Allow? && Admits(r, q) }

  function FirstDeny(rules: seq<Rule>, q: ChatRequest): Option<Rule> {
    if rules == [] then None
    else if Denies(rules[0], q) then Some(rules[0])
    else FirstDeny(rules[1..], q)
  }

  function FirstAllow(rules: seq<Rule>, q: ChatRequest): Option<Rule> {
    if rules == [] then None
    else if Allows(rules[0], q) then Some(rules[0])
    else FirstAllow(rules[1..], q)
  }

  function EffectiveMaxTokens(requested: Option<nat>, limit: Option<nat>): Option<nat> {
    if limit.None? then requested
    else if requested.None? then limit
    else Some(Min(requested.value, limit.value))
  }

  function Refusal(reason: Reason): Decision { Decision(false, reason, None, None, None, None) }

  function Evaluate(rules: seq<Rule>, q: ChatRequest, ctx: B.Context): Decision {
    if q.messages == [] then Refusal(MessagesRequired)
    else
      var matched := MatchingPolicies(rules, ctx);
      var deny, allow := FirstDeny(matched, q), FirstAllow(matched, q);
      if deny.Some? then Refusal(DeniedBy(deny.value))
      else if allow.Some? then
        var a := allow.value;
        Decision(true, AllowedBy(a), Or(q.modelKey, a.defaultModelKey), Or(q.routingKey, a.defaultRoutingKey),
                 EffectiveMaxTokens(q.maxTokens, a.maxTokens),
                 if Truthy(a.routingStrategy) then a.routingStrategy else None)
      else if matched != [] then Refusal(NoMatchingAllow(matched))
      else if q.modelKey.None? && q.routingKey.None?
      then Decision(true, DefaultRoute, None, Some("default-chat"), q.maxTokens, None)
      else Decision(true, ExplicitRoute, q.modelKey, q.routingKey, q.maxTokens, None)
  }

  // ---- The order is total, so sorting means what it should --------------------------------

  lemma {:induction false} StringLeTotal(a: string, b: string)
    ensures StringLe(a, b) || StringLe(b, a)
  {
    if a != [] && b != [] && a[0] == b[0] { StringLeTotal(a[1..], b[1..]); }
  }

  lemma {:induction false} StringLeTransitive(a: string, b: string, c: string)
    requires StringLe(a, b) && StringLe(b, c)
    ensures StringLe(a, c)
  {
    if a != [] && b != [] && c != [] && a[0] == b[0] == c[0] { StringLeTransitive(a[1..], b[1..], c[1..]); }
  }

  lemma {:induction false} StringLeAntisymmetric(a: string, b: string)
    requires StringLe(a, b) && StringLe(b, a)
    ensures a == b
  {
    if a != [] && b != [] {
      StringLeAntisymmetric(a[1..], b[1..]);
      assert a == [a[0]] + a[1..] && b == [b[0]] + b[1..];
    }
  }

  lemma {:induction false} RuleLeIsTotalPreorder()
    ensures TotalPreorder(RuleLe)
  {
    forall a, b: Rule ensures RuleLe(a, b) || RuleLe(b, a) { StringLeTotal(a.name, b.name); }
    forall a, b, c: Rule | RuleLe(a, b) && RuleLe(b, c) ensures RuleLe(a, c) {
      if StringLe(a.name, b.name) && StringLe(b.name, c.name) { StringLeTransitive(a.name, b.name, c.name); }
    }
  }

  // ---- What the verdict depends on -----------------------------------------------------------

  lemma {:induction false} MatchedMembers(rules: seq<Rule>, ctx: B.Context, r: Rule)
    ensures r in Matched(rules, ctx) <==> r in rules && Matches(r, ctx)
  {
    if rules != [] { MatchedMembers(rules[..|rules| - 1], ctx, r); }
  }

  lemma {:induction false} MatchingMembers(rules: seq<Rule>, ctx: B.Context)
    ensures forall r :: r in MatchingPolicies(rules, ctx) <==> r in rules && Matches(r, ctx)
  {
    SortMembers(Matched(rules, ctx), RuleLe);
    forall r ensures r in Matched(rules, ctx) <==> r in rules && Matches(r, ctx) { MatchedMembers(rules, ctx, r); }
  }

  lemma {:induction false} FirstDenyFacts(rules: seq<Rule>, q: ChatRequest)
    ensures var d := FirstDeny(rules, q);
            && (d.Some? ==> d.value in rules && Denies(d.value, q))
            && (d.None? ==> forall r :: r in rules ==> !Denies(r, q))
  {
    if rules != [] {
      FirstDenyFacts(rules[1..], q);
      assert rules == [rules[0]] + rules[1..];
    }
  }

  lemma {:induction false} FirstAllowFacts(rules: seq<Rule>, q: ChatRequest)
    ensures var a := FirstAllow(rules, q);
            && (a.Some? ==> a.value in rules && Allows(a.value, q))
            && (a.None? ==> forall r :: r in rules ==> !Allows(r, q))
  {
    if rules != [] {
      FirstAllowFacts(rules[1..], q);
      assert rules == [rules[0]] + rules[1..];
    }
  }

  /** The verdict: some message, no applicable rule that denies the request, and
      either some applicable rule that allows it or no applicable rule at all. */
  ghost predicate Approves(rules: seq<Rule>, q: ChatRequest, ctx: B.Context) {
    && q.messages != []
    && (forall r :: r in rules && Matches(r, ctx) ==> !Denies(r, q))
    && ((exists r :: r in rules && Matches(r, ctx) && Allows(r, q)) || forall r :: r in rules ==> !Matches(r, ctx))
  }

  lemma {:induction false} VerdictIs(rules: seq<Rule>, q: ChatRequest, ctx: B.Context)
    ensures Evaluate(rules, q, ctx).allowed <==> Approves(rules, q, ctx)
  {
    var m := MatchingPolicies(rules, ctx);
    MatchingMembers(rules, ctx);
    FirstDenyFacts(m, q);
    FirstAllowFacts(m, q);
    if m != [] { assert m[0] in m; }
  }

  /** The verdict does not depend on the order of the rules. */
  lemma {:induction false} VerdictIgnoresOrder(rules: seq<Rule>, others: seq<Rule>, q: ChatRequest, ctx: B.Context)
    requires multiset(rules) == multiset(others)
    ensures Evaluate(rules, q, ctx).allowed == Evaluate(others, q, ctx).allowed
  {
    SameMembers(rules, others);
    VerdictIs(rules, q, ctx);
    VerdictIs(others, q, ctx);
  }

  lemma SameMembers<T>(s: seq<T>, t: seq<T>)
    requires multiset(s) == multiset(t)
    ensures forall x :: x in s <==> x in t
  {
    assert forall x :: x in s <==> x in multiset(s);
    assert forall x :: x in t <==> x in multiset(t);
  }

  predicate SameKey(a: Rule, b: Rule) {
    ScopeRank(a.scopeType) == ScopeRank(b.scopeType) && a.priority == b.priority && a.name == b.name
  }

  /** No two rules share scope rank, priority and name. */
  ghost predicate DistinctKeys(rules: seq<Rule>) {
    forall a, b :: a in rules && b in rules && SameKey(a, b) ==> a == b
  }

  lemma {:induction false} MatchedMultiset(rules: seq<Rule>, ctx: B.Context, r: Rule)
    ensures multiset(Matched(rules, ctx))[r] == if Matches(r, ctx) then multiset(rules)[r] else 0
  {
    if rules != [] {
      MatchedMultiset(rules[..|rules| - 1], ctx, r);
      assert rules == rules[..|rules| - 1] + [rules[|rules| - 1]];
    }
  }

  lemma TiesShareTheKey(a: Rule, b: Rule)
    ensures RuleLe(a, b) && RuleLe(b, a) ==> SameKey(a, b)
  {
    if StringLe(a.name, b.name) && StringLe(b.name, a.name) { StringLeAntisymmetric(a.name, b.name); }
  }

  lemma {:induction false} SortingIgnoresOrder(s: seq<Rule>, t: seq<Rule>)
    requires multiset(s) == multiset(t) && DistinctKeys(s)
    ensures SortBy(s, RuleLe) == SortBy(t, RuleLe)
  {
    hide TotalPreorder, Sorted, RuleLe, SameKey, SortBy;
    RuleLeIsTotalPreorder();
    SortIsSortedPermutation(s, RuleLe);
    SortIsSortedPermutation(t, RuleLe);
    SortMembers(s, RuleLe);
    var a := SortBy(s, RuleLe);
    forall x, y | x in a && y in a && RuleLe(x, y) && RuleLe(y, x) ensures x == y { TiesShareTheKey(x, y); }
    SortedArrangementUnique(a, SortBy(t, RuleLe), RuleLe);
  }

  /** With distinct sort keys the whole decision is independent of the order. */
  lemma {:induction false} DecisionIgnoresOrder(rules: seq<Rule>, others: seq<Rule>, q: ChatRequest, ctx: B.Context)
    requires multiset(rules) == multiset(others) && DistinctKeys(rules)
    ensures Evaluate(rules, q, ctx) == Evaluate(others, q, ctx)
  {
    hide SortBy, RuleLe, SameKey, FirstDeny, FirstAllow;
    var s, t := Matched(rules, ctx), Matched(others, ctx);
    forall r ensures multiset(s)[r] == multiset(t)[r] {
      MatchedMultiset(rules, ctx, r);
      MatchedMultiset(others, ctx, r);
    }
    assert multiset(s) == multiset(t);
    forall r | r in s ensures r in rules { MatchedMembers(rules, ctx, r); }
    SortingIgnoresOrder(s, t);
  }

  /** Adding a deny rule never turns a refusal into an approval. */
  lemma {:induction false} DenyRuleNeverApproves(rules: seq<Rule>, extra: Rule, q: ChatRequest, ctx: B.Context)
    requires extra.effect.Deny? && !Evaluate(rules, q, ctx).allowed
    ensures !Evaluate(rules + [extra], q, ctx).allowed
  {
    VerdictIs(rules, q, ctx);
    VerdictIs(rules + [extra], q, ctx);
    assert forall r :: r in rules ==> r in rules + [extra];
  }

  /** A deny rule that applies and targets the request is never overridden,
      whatever allow rules stand beside it. */
  lemma {:induction false} DenyIsNeverOverridden(rules: seq<Rule>, deny: Rule, q: ChatRequest, ctx: B.Context)
    requires deny in rules && Matches(deny, ctx) && Denies(deny, q)
    ensures !Evaluate(rules, q, ctx).allowed
  {
    VerdictIs(rules, q, ctx);
  }

  /** What a deny rule does not see: an approved decision can carry a model that an
      applicable deny rule lists only when the request named no model and the model
      is the chosen allow rule's default. */
  lemma {:induction false} DeniedModelOnlyByDefault(rules: seq<Rule>, deny: Rule, q: ChatRequest, ctx: B.Context)
    requires deny in rules && Matches(deny, ctx) && deny.effect.Deny?
    requires var d := Evaluate(rules, q, ctx);
             d.allowed && Truthy(d.modelKey) && d.modelKey.value in deny.allowedModels
    ensures var d := Evaluate(rules, q, ctx);
            !Truthy(q.modelKey) && d.reason.AllowedBy? && d.modelKey == d.reason.rule.defaultModelKey
  {
    VerdictIs(rules, q, ctx);
    MatchingMembers(rules, ctx);
    FirstAllowFacts(MatchingPolicies(rules, ctx), q);
    assert deny in MatchingPolicies(rules, ctx);
  }

  /** ... and then it does happen: a request that names nothing is sent to a model
      that a deny rule lists, because the deny rule never sees the default. */
  lemma {:induction false} DefaultEscapesDeny(allow: Rule, deny: Rule, q: ChatRequest, ctx: B.Context)
    requires allow.effect.Allow? && deny.effect.Deny? && Matches(allow, ctx) && Matches(deny, ctx)
    requires Truthy(allow.defaultModelKey) && allow.defaultModelKey.value in deny.allowedModels
    requires q.messages != [] && q.modelKey == None && q.routingKey == None
    ensures var d := Evaluate([allow, deny], q, ctx); d.allowed && d.modelKey == allow.defaultModelKey
  {
    var rules := [allow, deny];
    VerdictIs(rules, q, ctx);
    assert allow in rules && Allows(allow, q);
    assert !Denies(deny, q) && !Denies(allow, q);
    MatchingMembers(rules, ctx);
    var m := MatchingPolicies(rules, ctx);
    FirstDenyFacts(m, q);
    FirstAllowFacts(m, q);
  }

  // ---- Which rule decides --------------------------------------------------------------------

  /** The narrowest scope first. */
  const SCOPES: seq<B.ScopeType> := [B.User, B.Agent, B.Channel, B.CostCenter, B.Department, B.Tenant]

  predicate Narrower(a: B.ScopeType, b: B.ScopeType) {
    exists i, j :: 0 <= i < j < |SCOPES| && SCOPES[i] == a && SCOPES[j] == b
  }

  /** Equal, a prefix, or smaller where they first differ. */
  predicate Alphabetical(a: string, b: string) {
    a <= b || exists i :: 0 <= i < |a| && i < |b| && a[..i] == b[..i] && a[i] < b[i]
  }

  /** `a` comes before `b`: of a narrower scope, or of the same with a smaller
      priority number, or with the same and a name not behind in the alphabet. */
  predicate Precedes(a: Rule, b: Rule) {
    || Narrower(a.scopeType, b.scopeType)
    || (a.scopeType == b.scopeType && a.priority < b.priority)
    || (a.scopeType == b.scopeType && a.priority == b.priority && Alphabetical(a.name, b.name))
  }

  lemma {:induction false} StringLeIsAlphabetical(a: string, b: string)
    ensures StringLe(a, b) ==> Alphabetical(a, b)
  {
    if StringLe(a, b) && a != [] && a[0] == b[0] {
      StringLeIsAlphabetical(a[1..], b[1..]);
      if a[1..] <= b[1..] {
        assert a == [a[0]] + a[1..] && b == [b[0]] + b[1..];
      } else {
        var i :| 0 <= i < |a[1..]| && i < |b[1..]| && a[1..][..i] == b[1..][..i] && a[1..][i] < b[1..][i];
        assert a[..i + 1] == [a[0]] + a[1..][..i] && b[..i + 1] == [b[0]] + b[1..][..i];
        assert a[i + 1] < b[i + 1];
      }
    } else if StringLe(a, b) && a != [] {
      assert a[..0] == b[..0] && a[0] < b[0];
    }
  }

  lemma RuleLePrecedes(a: Rule, b: Rule, ctx: B.Context)
    requires RuleLe(a, b) && Matches(a, ctx) && Matches(b, ctx)
    ensures Precedes(a, b)
  {
    hide StringLe, Alphabetical;
    StringLeIsAlphabetical(a.name, b.name);
    assert SCOPES[0] == B.User && SCOPES[1] == B.Agent && SCOPES[2] == B.Channel;
    assert SCOPES[3] == B.CostCenter && SCOPES[4] == B.Department && SCOPES[5] == B.Tenant;
  }

  lemma {:induction false} FirstOfSorted(rules: seq<Rule>, q: ChatRequest, r: Rule)
    requires Sorted(rules, RuleLe) && r in rules
    ensures var a := FirstAllow(rules, q); Allows(r, q) ==> a.Some? && (a.value == r || RuleLe(a.value, r))
    ensures var d := FirstDeny(rules, q); Denies(r, q) ==> d.Some? && (d.value == r || RuleLe(d.value, r))
  {
    hide Allows, Denies, RuleLe;
    var i :| 0 <= i < |rules| && rules[i] == r;
    if i > 0 {
      assert rules[1..][i - 1] == r;
      FirstOfSorted(rules[1..], q, r);
    }
  }

  /** Of all applicable rules that allow, or deny, a request the decision is made by
      one that comes before every other. */
  lemma {:induction false} FirstRuleDecides(rules: seq<Rule>, q: ChatRequest, ctx: B.Context, r: Rule)
    requires r in rules && Matches(r, ctx)
    ensures match Evaluate(rules, q, ctx).reason
            case AllowedBy(a) => Allows(r, q) ==> r == a || Precedes(a, r)
            case DeniedBy(d) => Denies(r, q) ==> r == d || Precedes(d, r)
            case _ => true
  {
    hide Matches, Allows, Denies, Precedes, RuleLe, TotalPreorder;
    var m := MatchingPolicies(rules, ctx);
    RuleLeIsTotalPreorder();
    SortIsSortedPermutation(Matched(rules, ctx), RuleLe);
    MatchingMembers(rules, ctx);
    FirstAllowFacts(m, q);
    FirstDenyFacts(m, q);
    FirstOfSorted(m, q, r);
    match Evaluate(rules, q, ctx).reason {
      case AllowedBy(a) => if Allows(r, q) && r != a { RuleLePrecedes(a, r, ctx); }
      case DeniedBy(d) => if Denies(r, q) && r != d { RuleLePrecedes(d, r, ctx); }
      case _ =>
    }
  }

  /** The request names a key of the list. */
  predicate NamesOneOf(key: Option<string>, list: seq<string>) { key.Some? && key.value != "" && key.value in list }

  /** The rule lists something the request names, or lists nothing. */
  predicate Covers(r: Rule, q: ChatRequest) {
    if r.allowedModels == [] && r.allowedRoutingKeys == [] then true
    else NamesOneOf(q.modelKey, r.allowedModels) || NamesOneOf(q.routingKey, r.allowedRoutingKeys)
  }

  /** A deny rule that applies refuses what names a model or a routing key it lists,
      and everything if it lists neither; a denied request met such a rule. */
  lemma {:induction false} DenyRuleRefuses(rules: seq<Rule>, q: ChatRequest, ctx: B.Context)
    ensures forall r :: r in rules && Matches(r, ctx) && r.effect == Deny && Covers(r, q) ==>
              !Evaluate(rules, q, ctx).allowed
    ensures var reason := Evaluate(rules, q, ctx).reason;
            reason.DeniedBy? ==>
              reason.rule in rules && Matches(reason.rule, ctx) && reason.rule.effect == Deny && Covers(reason.rule, q)
  {
    hide Matches;
    VerdictIs(rules, q, ctx);
    MatchingMembers(rules, ctx);
    FirstDenyFacts(MatchingPolicies(rules, ctx), q);
  }

  /** What an approved request is decided for: what it names, which the rule that
      decides lists or leaves open, or else the rule's default, some key in any case;
      as much output as the smaller of what it names and what the rule allows; the
      rule's routing strategy. Without any rule that applies, what it names, or the
      default route. */
  lemma {:induction false} ApprovedFor(rules: seq<Rule>, q: ChatRequest, ctx: B.Context)
    ensures var d := Evaluate(rules, q, ctx);
            match d.reason
            case AllowedBy(a) =>
              && d.allowed && a in rules && Matches(a, ctx) && a.effect == Allow
              && (if q.modelKey.Some? && q.modelKey.value != "" then d.modelKey == q.modelKey &&
                    (a.allowedModels == [] || q.modelKey.value in a.allowedModels)
                  else d.modelKey == a.defaultModelKey)
              && (if q.routingKey.Some? && q.routingKey.value != "" then d.routingKey == q.routingKey &&
                    (a.allowedRoutingKeys == [] || q.routingKey.value in a.allowedRoutingKeys)
                  else d.routingKey == a.defaultRoutingKey)
              && (q.modelKey == None && q.routingKey == None ==>
                    (d.modelKey.Some? && d.modelKey.value != "") || (d.routingKey.Some? && d.routingKey.value != ""))
              && (a.maxTokens == None ==> d.maxTokens == q.maxTokens)
              && (q.maxTokens == None ==> d.maxTokens == a.maxTokens)
              && (a.maxTokens.Some? && q.maxTokens.Some? ==>
                    && (d.maxTokens == a.maxTokens || d.maxTokens == q.maxTokens)
                    && d.maxTokens.value <= a.maxTokens.value && d.maxTokens.value <= q.maxTokens.value)
              && (d.routingStrategy == a.routingStrategy ||
                  (d.routingStrategy == None && a.routingStrategy == Some("")))
            case DefaultRoute =>
              && q.modelKey == None && q.routingKey == None && (forall r :: r in rules ==> !Matches(r, ctx))
              && d == Decision(true, DefaultRoute, None, Some("default-chat"), q.maxTokens, None)
            case ExplicitRoute =>
              && (q.modelKey.Some? || q.routingKey.Some?) && (forall r :: r in rules ==> !Matches(r, ctx))
              && d == Decision(true, ExplicitRoute, q.modelKey, q.routingKey, q.maxTokens, None)
            case MessagesRequired => !d.allowed && q.messages == []
            case _ => !d.allowed
  {
    hide Matches, MatchingPolicies;
    MatchingMembers(rules, ctx);
    FirstAllowFacts(MatchingPolicies(rules, ctx), q);
    if MatchingPolicies(rules, ctx) != [] {
      var r := MatchingPolicies(rules, ctx)[0];
      assert r in MatchingPolicies(rules, ctx);
    }
  }

  /** The rule is for every caller of the tenant, or for callers whose user, agent,
      channel, cost centre or department is the one it names; one that names none is
      for callers without. */
  predicate RuleIsFor(r: Rule, ctx: B.Context) {
    || (r.scopeType == B.Tenant && r.scopeId == None)
    || (r.scopeType == B.User && ctx.user == r.scopeId)
    || (r.scopeType == B.Agent && ctx.agent == r.scopeId)
    || (r.scopeType == B.Channel && ctx.channel == r.scopeId)
    || (r.scopeType == B.CostCenter && ctx.costCenter == r.scopeId)
    || (r.scopeType == B.Department && ctx.department == r.scopeId)
  }

  /** The rule lists what the request names, as far as it lists anything, and has a
      default for a request that names nothing. */
  predicate LeavesOpen(r: Rule, q: ChatRequest) {
    && (q.modelKey == None || q.modelKey.value == "" || r.allowedModels == [] || q.modelKey.value in r.allowedModels)
    && (q.routingKey == None || q.routingKey.value == "" || r.allowedRoutingKeys == [] ||
        q.routingKey.value in r.allowedRoutingKeys)
    && (q.modelKey == None && q.routingKey == None ==>
          || (r.defaultModelKey.Some? && r.defaultModelKey.value != "")
          || (r.defaultRoutingKey.Some? && r.defaultRoutingKey.value != ""))
  }

  /** A request is approved exactly when it has a message, no deny rule for its caller
      covers it, and an allow rule for its caller leaves it open, unless there is no
      rule for the caller at all. */
  lemma {:induction false} ApprovedExactlyWhen(rules: seq<Rule>, q: ChatRequest, ctx: B.Context)
    ensures
      Evaluate(rules, q, ctx).allowed
      <==>
      && q.messages != []
      && !(exists r :: r in rules && RuleIsFor(r, ctx) && r.effect == Deny && Covers(r, q))
      && (|| (exists r :: r in rules && RuleIsFor(r, ctx) && r.effect == Allow && LeavesOpen(r, q))
          || !(exists r :: r in rules && RuleIsFor(r, ctx)))
  {
    hide Evaluate, Matches, RuleIsFor, Denies, Allows, Covers, LeavesOpen;
    VerdictIs(rules, q, ctx);
    forall r: Rule
      ensures Matches(r, ctx) <==> RuleIsFor(r, ctx)
      ensures Denies(r, q) <==> r.effect == Deny && Covers(r, q)
      ensures Allows(r, q) <==> r.effect == Allow && LeavesOpen(r, q)
    {
      RuleReads(r, q, ctx);
    }
  }

  lemma RuleReads(r: Rule, q: ChatRequest, ctx: B.Context)
    ensures Matches(r, ctx) <==> RuleIsFor(r, ctx)
    ensures Denies(r, q) <==> r.effect == Deny && Covers(r, q)
    ensures Allows(r, q) <==> r.effect == Allow && LeavesOpen(r, q)
  {}

  /** A rule and a budget policy of one scope apply to the same callers of a tenant,
      but that a rule without a scope id applies to callers without the field. */
  lemma RulesScopeLikeBudgets(r: Rule, p: B.Policy, ctx: B.Context)
    requires r.scopeType == p.scopeType && r.scopeId == p.scopeId
    requires p.active && p.tenant == ctx.tenant
    ensures r.scopeId.Some? || r.scopeType.Tenant? ==> (Matches(r, ctx) <==> B.Applies(p, ctx))
    ensures r.scopeId.None? && !r.scopeType.Tenant? ==>
              && !B.Applies(p, ctx)
              && (Matches(r, ctx) <==> !r.scopeType.Unknown? && B.ScopeMember(r.scopeType, ctx).None?)
  {}

  // ---- Validation of a rule before it is stored ----------------------------------------------

  const MAX_LIST_ITEMS := 100

  predicate AlphaNumeric(c: char) { 'A' <= c <= 'Z' || 'a' <= c <= 'z' || '0' <= c <= '9' }

  predicate KeyChar(c: char) { AlphaNumeric(c) || c in "._:/@+-" }

  /** Full match of the key pattern: a letter or digit, then up to 119 key characters. */
  predicate IsKey(s: string) {
    1 <= |s| <= 120 && AlphaNumeric(s[0]) && forall i :: 1 <= i < |s| ==> KeyChar(s[i])
  }

  datatype Invalid =
    | EmptyName
    | TooManyItems(field: string)
    | BadKey(field: string)
    | NothingAllowed
    | DefaultNotListed(field: string)

  datatype Checked<T> = Ok(value: T) | Bad(error: Invalid)

  datatype Payload = Payload(
    name: string,
    description: Option<string>,
    effect: Effect,
    allowedModels: seq<string>,
    allowedRoutingKeys: seq<string>,
    defaultModelKey: Option<string>,
    defaultRoutingKey: Option<string>)

  /** `normalize_policy_key` for a key that is not required. */
  function NormalizeKey(value: Option<string>, field: string): Checked<Option<string>> {
    if value.None? then Ok(None)
    else
      var s := Strip(value.value);
      if s == [] then Ok(None) else if IsKey(s) then Ok(Some(s)) else Bad(BadKey(field))
  }

  function NormalizeKeys(values: seq<string>, field: string): Checked<seq<string>> {
    if values == [] then Ok([])
    else
      var front := NormalizeKeys(values[..|values| - 1], field);
      var last := NormalizeKey(Some(values[|values| - 1]), field);
      if front.Bad? then front
      else if last.Bad? then Bad(last.error)
      else if last.value.Some? && last.value.value !in front.value then Ok(front.value + [last.value.value])
      else front
  }

  function NormalizeKeyListSpec(values: seq<string>, field: string): Checked<seq<string>> {
    if |values| > MAX_LIST_ITEMS then Bad(TooManyItems(field)) else NormalizeKeys(values, field)
  }

  function Consistent(p: Payload): Option<Invalid> {
    if p.effect.Allow? && p.allowedModels == [] && p.allowedRoutingKeys == [] &&
       p.defaultModelKey.None? && p.defaultRoutingKey.None?
    then Some(NothingAllowed)
    else if Truthy(p.defaultModelKey) && p.defaultModelKey.value !in p.allowedModels
    then Some(DefaultNotListed("default_model_key"))
    else if Truthy(p.defaultRoutingKey) && p.defaultRoutingKey.value !in p.allowedRoutingKeys
    then Some(DefaultNotListed("default_routing_key"))
    else None
  }

  /** The payload after normalisation, and the error raised if any. An error leaves
      the fields normalised before it as they then were. */
  function Normalize(p: Payload): (Payload, Option<Invalid>) {
    var p1 := p.(name := Strip(p.name));
    if p1.name == [] then (p1, Some(EmptyName))
    else
      var p2 := p1.(description := if Truthy(p1.description) then Some(Strip(p1.description.value)) else None);
      var models := NormalizeKeyListSpec(p2.allowedModels, "allowed_models");
      if models.Bad? then (p2, Some(models.error))
      else
        var p3 := p2.(allowedModels := models.value);
        var keys := NormalizeKeyListSpec(p3.allowedRoutingKeys, "allowed_routing_keys");
        if keys.Bad? then (p3, Some(keys.error))
        else
          var p4 := p3.(allowedRoutingKeys := keys.value);
          var model := NormalizeKey(p4.defaultModelKey, "default_model_key");
          if model.Bad? then (p4, Some(model.error))
          else
            var p5 := p4.(defaultModelKey := model.value);
            var key := NormalizeKey(p5.defaultRoutingKey, "default_routing_key");
            if key.Bad? then (p5, Some(key.error))
            else
              var p6 := p5.(defaultRoutingKey := key.value);
              (p6, Consistent(p6))
  }

  /** What the engine may rely on in a stored rule. */
  ghost predicate WellFormed(p: Payload) {
    && Trimmed(p.name) && p.name != []
    && |p.allowedModels| <= MAX_LIST_ITEMS && |p.allowedRoutingKeys| <= MAX_LIST_ITEMS
    && KeyList(p.allowedModels) && KeyList(p.allowedRoutingKeys)
    && (p.description.Some? ==> Trimmed(p.description.value))
    && (p.defaultModelKey.Some? ==> IsKey(p.defaultModelKey.value) && p.defaultModelKey.value in p.allowedModels)
    && (p.defaultRoutingKey.Some? ==>
          IsKey(p.defaultRoutingKey.value) && p.defaultRoutingKey.value in p.allowedRoutingKeys)
    && (p.effect.Allow? ==> p.allowedModels != [] || p.allowedRoutingKeys != [])
  }

  ghost predicate KeyList(keys: seq<string>) {
    && (forall k :: k in keys ==> IsKey(k))
    && (forall i, j :: 0 <= i < j < |keys| ==> keys[i] != keys[j])
  }

  lemma KeysAreTrimmed(s: string)
    requires IsKey(s)
    ensures Trimmed(s) && s != []
  {}

  lemma {:induction false} NormalizeKeysFacts(values: seq<string>, field: string)
    ensures var r := NormalizeKeys(values, field);
            r.Ok? ==> KeyList(r.value) && |r.value| <= |values|
  {
    hide IsKey, Strip;
    if values != [] { NormalizeKeysFacts(values[..|values| - 1], field); }
  }

  lemma {:induction false} KeysNormalizeToThemselves(keys: seq<string>, field: string)
    requires KeyList(keys)
    ensures NormalizeKeys(keys, field) == Ok(keys)
  {
    if keys != [] {
      var front, k := keys[..|keys| - 1], keys[|keys| - 1];
      assert k in keys;
      KeysNormalizeToThemselves(front, field);
      KeysAreTrimmed(k);
      StripTrimmed(k);
      assert keys == front + [k];
    }
  }

  /** A payload that passes is well formed. */
  lemma {:induction false} AcceptedIsWellFormed(p: Payload)
    requires Normalize(p).1.None?
    ensures WellFormed(Normalize(p).0)
  {
    hide IsKey, Strip, Trimmed, NormalizeKeys;
    StripFacts(p.name);
    if Truthy(p.description) { StripFacts(p.description.value); }
    NormalizeKeysFacts(p.allowedModels, "allowed_models");
    NormalizeKeysFacts(p.allowedRoutingKeys, "allowed_routing_keys");
    KeyIsNotEmpty(Normalize(p).0.defaultModelKey);
    KeyIsNotEmpty(Normalize(p).0.defaultRoutingKey);
  }

  lemma KeyIsNotEmpty(k: Option<string>)
    ensures k.Some? && IsKey(k.value) ==> Truthy(k)
  {}

  /** And every well-formed payload passes unchanged, except that an optional
      description left blank becomes absent. */
  lemma {:induction false} WellFormedIsAccepted(p: Payload)
    requires WellFormed(p)
    ensures Normalize(p) == (p.(description := if Truthy(p.description) then p.description else None), None)
  {
    hide IsKey, Strip, Trimmed, NormalizeKeys, KeyList;
    StripTrimmed(p.name);
    if p.description.Some? { StripTrimmed(p.description.value); }
    KeysNormalizeToThemselves(p.allowedModels, "allowed_models");
    KeysNormalizeToThemselves(p.allowedRoutingKeys, "allowed_routing_keys");
    NormalizeStoredKey(p.defaultModelKey, "default_model_key");
    NormalizeStoredKey(p.defaultRoutingKey, "default_routing_key");
  }

  /** Normalising an accepted payload again changes nothing and is accepted again,
      except that an optional description left blank becomes absent. */
  lemma {:induction false} NormalizeIdempotent(p: Payload)
    requires Normalize(p).1.None?
    ensures var once := Normalize(p).0;
            var twice := Normalize(once);
            && twice.1.None?
            && twice.0 == once.(description := if Truthy(once.description) then once.description else None)
  {
    hide Normalize, WellFormed;
    AcceptedIsWellFormed(p);
    WellFormedIsAccepted(Normalize(p).0);
  }

  lemma NormalizeStoredKey(k: Option<string>, field: string)
    requires k.Some? ==> IsKey(k.value)
    ensures NormalizeKey(k, field) == Ok(k)
  {}

  // ---- Which payloads are accepted, and as what ------------------------------------------------

  /** A letter or digit, then up to 119 more of them or of `._:/@+-`. */
  predicate IsPolicyKey(s: string) {
    && s != "" && |s| <= 120 && s[0] !in "._:/@+-"
    && forall c :: c in s ==> 'a' <= c <= 'z' || 'A' <= c <= 'Z' || '0' <= c <= '9' || c in "._:/@+-"
  }

  lemma PolicyKeyIs(s: string)
    ensures IsKey(s) <==> IsPolicyKey(s)
  {
    if IsKey(s) {
      forall c | c in s ensures KeyChar(c) {
        var i :| 0 <= i < |s| && s[i] == c;
      }
    }
    if IsPolicyKey(s) {
      forall i | 0 <= i < |s| ensures KeyChar(s[i]) { assert s[i] in s; }
    }
  }

  /** Some key of the list is this one, but for white space around it. */
  ghost predicate Lists(values: seq<string>, key: string) { exists v :: v in values && Strip(v) == key }

  /** A list of at most 100 keys, or blanks, with any white space around them. */
  ghost predicate KeysOk(values: seq<string>) {
    |values| <= 100 && forall v :: v in values ==> Strip(v) == "" || IsPolicyKey(Strip(v))
  }

  /** `x` is listed before `y` first is. */
  ghost predicate ListedBefore(values: seq<string>, x: string, y: string) {
    exists a :: 0 <= a < |values| && Strip(values[a]) == x && forall b :: 0 <= b <= a ==> Strip(values[b]) != y
  }

  /** What a list of keys comes to: each key once, in the order of first mention. */
  ghost predicate KeysOf(keys: seq<string>, values: seq<string>) {
    && (forall k :: k in keys <==> k != "" && Lists(values, k))
    && (forall i, j :: 0 <= i < j < |keys| ==> keys[i] != keys[j] && ListedBefore(values, keys[i], keys[j]))
  }

  lemma {:induction false} KeysGrow(keys: seq<string>, values: seq<string>, v: string)
    requires KeysOf(keys, values)
    ensures KeysOf(if Strip(v) == "" || Strip(v) in keys then keys else keys + [Strip(v)], values + [v])
  {
    hide Strip;
    var more, next := values + [v], if Strip(v) == "" || Strip(v) in keys then keys else keys + [Strip(v)];
    forall k ensures Lists(more, k) <==> Lists(values, k) || Strip(v) == k {
      if Lists(values, k) {
        var x :| x in values && Strip(x) == k;
        assert x in more;
      }
      assert v in more;
    }
    forall i, j | 0 <= i < j < |next| ensures next[i] != next[j] && ListedBefore(more, next[i], next[j]) {
      if j < |keys| {
        assert ListedBefore(values, keys[i], keys[j]);
        var a :|
          0 <= a < |values| && Strip(values[a]) == keys[i] && forall b :: 0 <= b <= a ==> Strip(values[b]) != keys[j];
        assert forall b :: 0 <= b <= a ==> more[b] == values[b];
      } else {
        assert keys[i] in keys && Lists(values, keys[i]);
        var x :| x in values && Strip(x) == keys[i];
        var a :| 0 <= a < |values| && values[a] == x;
        assert !Lists(values, Strip(v));
        forall b | 0 <= b <= a ensures Strip(more[b]) != Strip(v) {
          assert more[b] == values[b] && values[b] in values;
        }
      }
    }
  }

  lemma {:induction false} NormalizedKeysAre(values: seq<string>, field: string)
    ensures var r := NormalizeKeys(values, field);
            && (r.Ok? <==> forall v :: v in values ==> Strip(v) == "" || IsPolicyKey(Strip(v)))
            && (r.Ok? ==> KeysOf(r.value, values))
  {
    hide Strip, IsKey, IsPolicyKey, KeysOf;
    if values == [] {
      NoKeys();
    } else {
      var front, v := values[..|values| - 1], values[|values| - 1];
      NormalizedKeysAre(front, field);
      PolicyKeyIs(Strip(v));
      assert values == front + [v];
      if NormalizeKeys(front, field).Ok? { KeysGrow(NormalizeKeys(front, field).value, front, v); }
    }
  }

  lemma NoKeys()
    ensures KeysOf([], [])
  {}

  /** The default is absent or blank, or one of the keys listed. */
  ghost predicate DefaultOk(default: Option<string>, values: seq<string>) {
    default == None || Strip(default.value) == "" || Lists(values, Strip(default.value))
  }

  lemma {:induction false} DefaultIs(default: Option<string>, keys: seq<string>, values: seq<string>, field: string)
    requires KeysOf(keys, values) && forall v :: v in values ==> Strip(v) == "" || IsPolicyKey(Strip(v))
    ensures var r := NormalizeKey(default, field);
            DefaultOk(default, values) <==> r.Ok? && (r.value.None? || r.value.value in keys)
  {
    hide Strip, IsKey, IsPolicyKey;
    if default.Some? {
      var key := Strip(default.value);
      PolicyKeyIs(key);
      assert key != "" ==> (key in keys <==> Lists(values, key));
      if Lists(values, key) { var v :| v in values && Strip(v) == key; }
    }
  }

  lemma {:induction false} SomeKey(keys: seq<string>, values: seq<string>)
    requires KeysOf(keys, values)
    ensures keys != [] <==> exists v :: v in values && Strip(v) != ""
  {
    hide Strip;
    if keys != [] {
      assert keys[0] in keys && Lists(values, keys[0]);
    }
    if v :| v in values && Strip(v) != "" { assert Lists(values, Strip(v)); }
  }

  /** A payload is accepted exactly when it has a name, two lists of keys, defaults that
      are listed, and, to allow something, some key. */
  lemma {:induction false} AcceptedExactlyWhen(p: Payload)
    ensures
      Normalize(p).1.None?
      <==>
      && Strip(p.name) != ""
      && KeysOk(p.allowedModels) && KeysOk(p.allowedRoutingKeys)
      && DefaultOk(p.defaultModelKey, p.allowedModels) && DefaultOk(p.defaultRoutingKey, p.allowedRoutingKeys)
      && (p.effect == Allow ==> exists v :: (v in p.allowedModels || v in p.allowedRoutingKeys) && Strip(v) != "")
  {
    hide Strip, IsKey, IsPolicyKey, NormalizeKeys, NormalizeKey, KeysOf, DefaultOk;
    var models, keys := NormalizeKeys(p.allowedModels, "allowed_models"),
        NormalizeKeys(p.allowedRoutingKeys, "allowed_routing_keys");
    NormalizedKeysAre(p.allowedModels, "allowed_models");
    NormalizedKeysAre(p.allowedRoutingKeys, "allowed_routing_keys");
    if models.Ok? && keys.Ok? {
      DefaultIs(p.defaultModelKey, models.value, p.allowedModels, "default_model_key");
      DefaultIs(p.defaultRoutingKey, keys.value, p.allowedRoutingKeys, "default_routing_key");
      SomeKey(models.value, p.allowedModels);
      SomeKey(keys.value, p.allowedRoutingKeys);
      KeyIsNotBlank(p.defaultModelKey, "default_model_key");
      KeyIsNotBlank(p.defaultRoutingKey, "default_routing_key");
    }
  }

  lemma KeyIsNotBlank(default: Option<string>, field: string)
    ensures var r := NormalizeKey(default, field); r.Ok? && r.value.Some? ==> r.value.value != ""
  {}

  /** It is stored with its name and description stripped, the keys of its lists, and its
      defaults stripped, blank ones being absent. */
  lemma {:induction false} AcceptedAs(p: Payload)
    requires Normalize(p).1.None?
    ensures var r := Normalize(p).0;
            && r.name == Strip(p.name) && r.effect == p.effect
            && r.description == (if p.description == None || p.description == Some("") then None
                                 else Some(Strip(p.description.value)))
            && KeysOf(r.allowedModels, p.allowedModels) && KeysOf(r.allowedRoutingKeys, p.allowedRoutingKeys)
            && r.defaultModelKey == (if p.defaultModelKey == None || Strip(p.defaultModelKey.value) == "" then None
                                     else Some(Strip(p.defaultModelKey.value)))
            && r.defaultRoutingKey ==
               (if p.defaultRoutingKey == None || Strip(p.defaultRoutingKey.value) == "" then None
                else Some(Strip(p.defaultRoutingKey.value)))
  {
    hide Strip, IsKey, IsPolicyKey, NormalizeKeys, KeysOf;
    NormalizedKeysAre(p.allowedModels, "allowed_models");
    NormalizedKeysAre(p.allowedRoutingKeys, "allowed_routing_keys");
  }

  /** The list normaliser as the loop the source runs. */
  method NormalizeKeyList(values: seq<string>, field: string) returns (r: Checked<seq<string>>)
    ensures r == NormalizeKeyListSpec(values, field)
  {
    hide Strip, IsKey;
    if |values| > MAX_LIST_ITEMS { return Bad(TooManyItems(field)); }
    var result: seq<string> := [];
    var i := 0;
    while i < |values|
      invariant 0 <= i <= |values|
      invariant NormalizeKeys(values[..i], field) == Ok(result)
    {
      assert values[..i + 1][..i] == values[..i];
      var normalized := NormalizeKey(Some(values[i]), field);
      if normalized.Bad? {
        KeysStayBad(values, i + 1, field);
        return Bad(normalized.error);
      }
      if normalized.value.Some? && normalized.value.value !in result {
        result := result + [normalized.value.value];
      }
      i := i + 1;
    }
    assert values[..i] == values;
    r := Ok(result);
  }

  lemma {:induction false} KeysStayBad(values: seq<string>, i: nat, field: string)
    requires i <= |values| && NormalizeKeys(values[..i], field).Bad?
    ensures NormalizeKeys(values, field) == NormalizeKeys(values[..i], field)
    decreases |values|
  {
    if i == |values| {
      assert values[..i] == values;
    } else {
      var front := values[..|values| - 1];
      assert front[..i] == values[..i];
      KeysStayBad(front, i, field);
    }
  }

  /** The payload object, normalised in place. */
  class PolicyPayload {
    var name: string
    var description: Option<string>
    const effect: Effect
    var allowedModels: seq<string>
    var allowedRoutingKeys: seq<string>
    var defaultModelKey: Option<string>
    var defaultRoutingKey: Option<string>

    function Value(): Payload reads this {
      Payload(name, description, effect, allowedModels, allowedRoutingKeys, defaultModelKey, defaultRoutingKey)
    }

    constructor (p: Payload)
      ensures Value() == p
    {
      name, description, effect := p.name, p.description, p.effect;
      allowedModels, allowedRoutingKeys := p.allowedModels, p.allowedRoutingKeys;
      defaultModelKey, defaultRoutingKey := p.defaultModelKey, p.defaultRoutingKey;
    }

    method NormalizeAndValidate() returns (error: Option<Invalid>)
      modifies this
      ensures Value() == Normalize(old(Value())).0 && error == Normalize(old(Value())).1
    {
      hide Strip, IsKey, NormalizeKeys;
      name := Strip(name);
      if name == "" { return Some(EmptyName); }
      description := if Truthy(description) then Some(Strip(description.value)) else None;
      var models := NormalizeKeyList(allowedModels, "allowed_models");
      if models.Bad? { return Some(models.error); }
      allowedModels := models.value;
      var keys := NormalizeKeyList(allowedRoutingKeys, "allowed_routing_keys");
      if keys.Bad? { return Some(keys.error); }
      allowedRoutingKeys := keys.value;
      var model := NormalizeKey(defaultModelKey, "default_model_key");
      if model.Bad? { return Some(model.error); }
      defaultModelKey := model.value;
      var key := NormalizeKey(defaultRoutingKey, "default_routing_key");
      if key.Bad? { return Some(key.error); }
      defaultRoutingKey := key.value;
      if effect.Allow? && allowedModels == [] && allowedRoutingKeys == [] && defaultModelKey.None? &&
          defaultRoutingKey.None? {
        return Some(NothingAllowed);
      }
      if Truthy(defaultModelKey) && defaultModelKey.value !in allowedModels {
        return Some(DefaultNotListed("default_model_key"));
      }
      if Truthy(defaultRoutingKey) && defaultRoutingKey.value !in allowedRoutingKeys {
        return Some(DefaultNotListed("default_routing_key"));
      }
      error := None;
    }
  }
}
