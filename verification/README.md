# Governance of model calls and agents in AgentHive

A verification project about the parts of AgentHive that decide whether a model
call may be made, what it costs, who pays for it and what runs at all. It models:

- the **LLM gateway** (`Calls`, `Gateway`, `Governance`, `Fallback`, `Targets`,
  `Runs`, `Endings`, `Recording`, `Reservations`, `Conservation`, `Outage`): policy, then budget reservation, then routing, then
  adapter attempts with fallback, then settlement or release, for plain chats,
  streams and connection tests;
- **budgets, usage and prices** (`Budget`, `SoftAlert`, `AlertRuns`, `Calendar`,
  `Pricing`, `PriceRules`): scopes, hard and soft limits, the append-only ledger,
  calendar windows, quantised cost and the choice of a price;
- **calls that overlap** (`CallMachine`, `CallSteps`, `Interleaving`, `Overspend`,
  `OverlapAlerts`, `OverlapLedger`): the same calls at the grain of single policy checks,
  settlements and usage rows, interleaved in any order;
- the **policy engine, its validation and the router** (`Policy`, `Confinement`,
  `Router`, `Sorting`);
- the stateful guards: the **circuit breaker** (`CircuitBreaker`), the **agent
  concurrency limiter** (`ConcurrencyLimiter`), the **rate limiters**
  (`RateLimiter`) and the retrieval **cache** (`TtlCache`);
- **document chunking** (`Chunking`, `ChunkLayout`, `Text`) and **rank fusion** (`RankFusion`);
- the **life cycle** of agent modules and instances (`Lifecycle`).

Objects the program updates in place are classes whose methods are proved against
a function of the old state; whole runs are stated over that function. Adapters,
clocks and storage failures are inputs: an adapter call is any sequence of answers
(a reply, an exception, an HTTP exception, a cancellation; for a stream any deltas
and any ending), time is passed in, and all results hold for every such input.
Money is whole micro-dollars, prices are units of 1e-8 dollars per thousand tokens,
time is microseconds on one clock.

How the main results fit together: `Gateway.LLMGateway` is the source's object; each of
its entry points is proved equal to a trace given in closed form in `Calls`, where the
attempt that ends the loop is simply the first that stops it. `Governance` and
`Fallback` prove what every trace keeps, `Endings` gives all calls one shape, and
`Runs`, `Recording`, `Conservation`, `AlertRuns` and `Outage` carry this over whole runs,
across the two tables and into the circuit breaker. `Reservations` says, in the fields
of request, rule, policies and prices alone, what a call reserves, where it may go, why
it is not attempted and what it costs. `CallMachine` is the machine on which
calls overlap. `CallSteps` shows that the steps of a call, made alone, leave there what
the gateway leaves, and `Interleaving` that the steps of any number of calls, interleaved
in any way, are a run of it within the load that `Overspend` bounds; `OverlapAlerts` and
`OverlapLedger` count the alerts and balance the tables of such runs.

Where the program does not do what its documentation says, the model follows the
program and a result states exactly when the two agree:

- "every failure is recorded": under the condition of `Recording.RecordsAreOwed`; a
  stream that fails to be planned, that ends in an HTTP error or whose client leaves
  writes no usage record, nor does a cancelled chat attempt or probe, which also
  keeps its reservation open (`Runs.LedgerBalances`);
- "an explicit connection test stays in its scope": a deployment always
  (`Targets.DeploymentScope`), a provider under the condition of
  `Targets.ProviderScope`;
- "deny rules keep models out": under the condition of
  `Confinement.DeniedModelsStayOut`, as deny rules see neither defaults nor plans;
- "a soft limit alerts once": without overlap once for each threshold at most
  (`AlertRuns.AlertedOncePerThreshold`), otherwise as often as
  `OverlapAlerts.AlertsUnderOverlap` counts, which can be never or more than once;
- "the hard limit is a boundary": for one call at a time that stays within its
  estimate, and in no other case but that of calls that reserve nothing
  (`Overspend.LimitIsBoundaryIff`); otherwise `Overspend.OverspendBound` bounds it;
- "deployments without a price come last in their priority group": under the
  condition of `PriceRules.UnpricedLastIff`, as the program gives them the default
  price.

The budget documentation lists no quarterly period; the program has one, and the
calendar results cover it.

## Model

| member | source | states |
|---|---|---|
| Governance.ChatClosesOnce | backend/app/llm/gateway.py:51-240 | for every sequence of adapter answers `chat` writes one reserve row per scope of its approved reservation and then, scope by scope, one settle row if it returns, one release row if it raises, and neither exactly when the first planned attempt that does not raise is a cancelled one; a refused call reserves, settles and releases nothing; no other reservation is touched |
| Governance.StreamClosesOnce | backend/app/llm/gateway.py:242-429 | `stream_chat` settles each reserved scope once if the stream finishes and otherwise releases it once, whether planning fails, an adapter raises or the client goes away at any yield |
| Governance.TestReleasesOnce | backend/app/llm/gateway.py:431-600 | `test_connection` never settles and releases each reserved scope once, except exactly when a probe is cancelled after probes that let the test go on |
| Runs.LedgerBalances | backend/app/llm/gateway.py:51-600 | after any run of chats, streams and connection tests the ledger has as many closings as reservations for every id and scope if and only if no chat's first attempt that does not raise, and no connection test's deciding probe, was cancelled while the call held a reservation |
| Runs.CancelledChatLeaks | backend/app/llm/gateway.py:51-240 | and a run of one cancelled chat leaves the ledger unbalanced, for any caller and any soft policy that applies to it |
| Endings.CallShape | backend/app/llm/gateway.py:51-600 | every call of any kind either settles once, after the records of its failed attempts and before its own success row, on the rows recorded so far, or charges nothing and writes no settle and no alert row; its records are made as its attempts are booked |
| Conservation.LedgerMatchesUsage | backend/app/llm/budget.py:107-132 | after any run, what the ledger has settled for a policy equals what the usage table records for the successful calls the policy applies to, in money and in tokens |
| OverlapLedger.OverlappingLedgerMatchesUsage | backend/app/llm/gateway.py:130-154 | after any steps of any overlapping calls, what the ledger has settled for a policy equals what the usage table records for its calls and what its settled calls in flight have still to record |
| Conservation.SequentialRunWithinLimit | backend/app/llm/budget.py:43-99 | calls of any kind made one after another, begun in one window of a hard policy, leave its spend at most where it was or at the limit plus the most by which one call exceeds its own estimate |
| Conservation.OneCallWithinLimit | backend/app/llm/budget.py:176-203 | the same for one call |
| CallSteps.CallIsARun | backend/app/llm/gateway.py:51-600 | the steps of a call - begin with its estimate, one check per policy, notes of what charges nothing, settle, record - made alone on the machine lead from the books before the call to exactly the usage rows, and the settle and alert rows, the gateway leaves |
| Interleaving.GatewayRunIsARun | backend/app/llm/gateway.py:51-600 | so do the steps of a whole run of calls, one after another |
| Interleaving.InterleavedCallsWithinLoad | backend/app/llm/gateway.py:51-600 | any interleaving of the calls of K workers, each call with estimate within E and charge within D of it for whatever books it finds, is a run of the machine within the load (K, E, D) |
| Interleaving.InterleavedCallsStayBounded | backend/app/llm/budget.py:176-240 | so overlapping gateway calls leave the spend of a hard policy within limit + K*D + (K-1)*min(E, limit) |
| Interleaving.OneWorkerWithinLoad | backend/app/llm/gateway.py:51-600 | calls made one after another stay within the load of one worker |
| Fallback.ChatHistory | backend/app/llm/gateway.py:51-240 | a chat that is refused or cannot be planned leaves one record without a route; otherwise it tries the planned routes in order up to the first that does not raise; one error record per raising attempt in that order, then one success record if it returns the first reply, priced again for the model that replied; if all raise, the last error is raised and recorded once; breaker outcomes and usage records agree one for one |
| Fallback.ChatChargesWhatItSettles | backend/app/llm/gateway.py:130-154 | the records of a chat charge the usage of the answer it returns and nothing otherwise, and every settle row carries that usage |
| Fallback.StreamHistory | backend/app/llm/gateway.py:242-429 | a refused stream leaves one record without a route and one that cannot be planned none; otherwise one error record per ordinary failure, falling back only before any text; on success the recorded content and its token estimate are those of what the client was sent; an HTTP error or a departed client leaves no record and no breaker outcome for that route |
| Fallback.StreamsNeverMix | backend/app/llm/gateway.py:316-407 | whatever the outcome, all text the client is sent comes from one route, the last one tried |
| Fallback.StreamChargesWhatItSettles | backend/app/llm/gateway.py:331-376 | only a finished stream charges, and it charges what its settle rows carry |
| Fallback.TestHistory | backend/app/llm/gateway.py:431-575 | a test that is refused or has no route leaves one record without a route; otherwise probes go in order until one succeeds, or stop after the first if the target is explicit; each is recorded once with zero usage and the last one decides the result |
| Recording.RecordsAreOwed | backend/app/llm/gateway.py:51-600 | a call leaves one record for each attempt it makes, in the order of the routes, or one for the refusal or failed planning that leaves none to make; it leaves one record less exactly when a chat's or a test's deciding attempt is cancelled, a stream tried ends in an HTTP error or with its client gone, or an admitted stream cannot be planned |
| Recording.RunsLeaveWhatTheyOwe | backend/app/llm/usage.py:24-139 | over a whole run the usage table grows by the records owed, less one for each call that leaves one out |
| Recording.UnbookedStreamLeavesNothing | backend/app/llm/gateway.py:378-429 | for any caller and any soft policy: a stream whose first adapter call ends in an HTTP error, or whose client leaves, has a route and leaves no record |
| Recording.UnplannedStreamLeavesNothing | backend/app/llm/gateway.py:242-308 | a stream that no deployment can serve leaves no record, where a chat leaves one |
| Outage.FailingDeploymentIsLastResort | backend/app/llm/router.py:96-109 | after any run of gateway calls whose last outcomes for a deployment, at least as many as the threshold, were failures, its circuit is not closed and was opened by one of the failures recorded; until the cooldown from that one is over the deployment is planned only if every deployment eligible for the call has an open circuit |
| Targets.ProviderScope | backend/app/llm/gateway.py:602-669 | over all rules, budgets, callers and breaker states, every route probed by a test that names a provider is that provider's, if and only if: the deployment it also names is unknown, unusable or the provider's; or it names none and the provider is registered and has a saved deployment or a configuration is given, or no other provider's deployment is within the router's reach |
| Targets.DeploymentScope | backend/app/llm/gateway.py:608-631 | a test that names a deployment probes that deployment only, once at most |
| Targets.UnregisteredProviderLeaves | backend/app/llm/gateway.py:632-669 | a test of an unregistered provider is sent to another one |
| Targets.NamedDeploymentWins | backend/app/llm/gateway.py:608-631 | so is a test of a registered provider that also names a deployment of another |
| Targets.NamedDeploymentProbe | backend/app/llm/gateway.py:608-631 | a test that names a deployment probes the first stored under that id, with the model the test names if any; 404 if there is none, a missing key if its provider is not registered |
| Targets.TemporaryProbe | backend/app/llm/gateway.py:632-649 | a test of a registered provider with a configuration of its own probes once: through the provider's deployment with the lowest priority number, the first configured of those, or a fresh one |
| Targets.SavedProbes | backend/app/llm/gateway.py:650-667 | a test of a registered provider without one probes exactly its deployments, lowest priority number first, ties as configured |
| Targets.TestModelsConfined | backend/app/llm/gateway.py:602-669 | for a validated rule with allowed models that approved a test, every route it can ever probe uses one of them if and only if the test names a model, or names no deployment and no provider and the rule has a default model |
| Gateway.LLMGateway.constructor | backend/app/llm/gateway.py:36-49 | wires policy, budget, router, usage and breaker together; the gateway is well wired when guard and collector share a session, and gateway and router a breaker |
| Gateway.LLMGateway.Govern | backend/app/llm/gateway.py:63-108 | policy, then budget: the decision, the reservation, and the ledger, record and row each refusal leaves |
| Gateway.LLMGateway.Chat | backend/app/llm/gateway.py:51-240 | the method leaves exactly the books and the result of the closed-form chat trace |
| Gateway.LLMGateway.TryRoutes | backend/app/llm/gateway.py:110-206 | the fallback loop leaves exactly the attempts up to the first that does not raise |
| Gateway.LLMGateway.StreamChat | backend/app/llm/gateway.py:242-429 | the method leaves exactly the books, the result and the yields of the closed-form stream trace |
| Gateway.LLMGateway.StreamRoutes | backend/app/llm/gateway.py:309-419 | the streaming fallback loop, likewise |
| Gateway.LLMGateway.StreamRoute | backend/app/llm/gateway.py:312-414 | one streaming attempt: it stops the loop or fails without text |
| Gateway.LLMGateway.ForwardDeltas | backend/app/llm/gateway.py:324-328 | passes the deltas on in order, collecting the content and whether there was any text |
| Gateway.LLMGateway.TestConnection | backend/app/llm/gateway.py:431-600 | the method leaves exactly the books and the result of the closed-form test trace |
| Gateway.LLMGateway.RoutesForConnectionTest | backend/app/llm/gateway.py:602-669 | the explicit routes, the 404 or missing-provider error, or the router's plan |
| Gateway.LLMGateway.Probe | backend/app/llm/gateway.py:481-575 | the probing loop leaves exactly the probes up to the one that decides |
| Gateway.LLMGateway.BookSuccess | backend/app/llm/gateway.py:124-154 | breaker success, settlement on the rows before the call's own, then its usage row |
| Gateway.LLMGateway.BookFailure | backend/app/llm/gateway.py:162-193 | one breaker failure and one error record for the attempt |
| Gateway.UsageCollector.Append | backend/app/llm/usage.py:95-139 | the in-memory record and the table row are added together and agree |
| Gateway.UsageCollector.RecordSuccess | backend/app/llm/usage.py:24-42 | the success record of the answering route |
| Gateway.UsageCollector.RecordFailure | backend/app/llm/usage.py:44-67 | a failure record with zero usage, with or without a route |
| Gateway.UsageCollector.RecordConnectionTest | backend/app/llm/usage.py:69-93 | the record of a probe, zero usage, with its status |
| Reservations.CallReserves | backend/app/llm/gateway.py:82-91 | every ledger row of a chat or a stream is of its own reservation and carries an estimate of its prompt at one token for four characters, one at least, and of the output it names within the cap of the deciding rule, or 512 tokens, costed at the prices of the model it names or the rule's default; it is admitted exactly when approved, the budget tables are readable and every active hard policy for its caller has room for that estimate |
| Reservations.TestReserves | backend/app/llm/gateway.py:431-471 | a connection test reserves one token of prompt and one of output at the prices of the model it names, whatever rule decides |
| Reservations.RoutedExactly | backend/app/llm/gateway.py:110-114 | a chat or stream has a route to a deployment exactly when rules and budget let it through and the deployment is configured, active, of the model and the routing keys asked for and of a registered provider, with its circuit not open unless those of all asked for are |
| Reservations.WhyNotAttempted | backend/app/llm/gateway.py:63-114 | a chat or stream with no route raises 403 if no rule lets it through, 402 if a hard policy lacks room or the tables cannot be read, and the router's 404 or 500 otherwise, leaving the record of that reason, but for a stream that cannot be planned, and in the ledger nothing but a denial by a hard policy without room |
| Reservations.WhyNotProbed | backend/app/llm/gateway.py:431-480 | the same for a connection test, where a deployment it names adds the 404 of an unknown one and the missing key of an unregistered provider |
| Reservations.ReturnedChatCosts | backend/app/llm/gateway.py:124-160 | a chat that returns costs the tokens its answer reports at the prices of the model the answer names: in the answer, its record and every settle row |
| Reservations.FinishedStreamCosts | backend/app/llm/gateway.py:329-366 | a finished stream costs its prompt as estimated for the reservation and one token for four characters sent, at the prices of the deployment that answered: in its record and every settle row |
| Confinement.ModelsConfined | backend/app/llm/policy_validation.py:40-60 | for a validated allow rule with allowed models that approved a chat or a stream, every route the router can ever plan uses one of them if and only if the request names a model or the rule has a default one |
| Confinement.RoutingKeysConfined | backend/app/llm/policy_validation.py:40-60 | the same for routing keys |
| Confinement.OutputIsCapped | backend/app/llm/policy.py:226-231 | the effective request and its estimate, which `Reservations.CallReserves` shows to be the one reserved, stay within the rule's output cap, the estimate exactly when the cap is at least one |
| Confinement.PlannedFollowsDecision | backend/app/llm/router.py:54-94 | every planned route has the model and the routing key of the decision where it carries them |
| Confinement.WellFormedIsValidated | backend/app/llm/policy_validation.py:14-60 | a stored rule can have passed validation exactly when its fields are well formed |
| Confinement.AloneItApproves | backend/app/llm/policy.py:205-223 | an applicable allow rule that stands alone approves every request it admits |
| Policy.VerdictIs | backend/app/llm/policy.py:41-110 | a request is approved exactly when it has messages, no applicable rule denies it, and some applicable rule allows it or none applies |
| Policy.VerdictIgnoresOrder | backend/app/llm/policy.py:121-133 | the verdict is the same for every order of the rules |
| Policy.DecisionIgnoresOrder | backend/app/llm/policy.py:121-133 | with distinct scope rank, priority and name the whole decision is the same for every order |
| Policy.FirstRuleDecides | backend/app/llm/policy.py:121-133 | of the applicable rules that allow, or deny, the request, the one that decides has the narrowest scope - user, agent, channel, cost centre, department, tenant - then the lowest priority number, then the name first in the alphabet |
| Policy.ApprovedExactlyWhen | backend/app/llm/policy.py:41-110 | a request is approved exactly when it has a message, no deny rule for its caller covers it, and an allow rule for its caller leaves open what it names, or there is no rule for the caller; all in the fields of rule and request |
| Policy.ApprovedFor | backend/app/llm/policy.py:59-110 | what an approved request is decided for: the keys it names or the deciding rule's defaults, the smaller of the output it names and the rule's cap, the rule's routing strategy; without any applicable rule what it names, or the default route |
| Policy.DenyRuleRefuses | backend/app/llm/policy.py:193-202 | an applicable deny rule refuses what names a model or routing key it lists, and everything if it lists neither, and only that |
| Policy.RulesScopeLikeBudgets | backend/app/llm/policy.py:136-154 | rules and budget policies of one scope apply to the same callers, but that a rule without a scope id applies to callers without the field |
| Policy.DenyRuleNeverApproves | backend/app/llm/policy.py:168-177 | adding a deny rule never turns a refusal into an approval |
| Policy.DenyIsNeverOverridden | backend/app/llm/policy.py:47-56 | an applicable deny rule that targets the request refuses it whatever allow rules stand beside it |
| Confinement.DeniedModelsStayOut | backend/app/llm/policy.py:193-202 | for a request approved by a rule, an applicable deny rule keeps the models it lists out of every plan if and only if the request names a model, or the approving rule has a default one that is not listed, or the deny rule lists none |
| Confinement.DeniedRoutingKeysStayOut | backend/app/llm/policy.py:193-202 | the same for routing keys |
| Confinement.DeniedModelPlanned | backend/app/llm/policy.py:193-202 | a request that names only a routing key, approved by a rule without a default model, can be planned onto a denied model |
| Policy.DeniedModelOnlyByDefault | backend/app/llm/policy.py:193-202 | a decision that itself carries a denied model got it from the approving rule's default, never from the request |
| Policy.DefaultEscapesDeny | backend/app/llm/policy.py:59-81 | a request that names nothing is decided for a default model that a deny rule lists |
| Policy.AcceptedIsWellFormed | backend/app/llm/policy_validation.py:14-60 | an accepted payload has trimmed name and keys, no duplicates, and defaults that are in its lists |
| Policy.WellFormedIsAccepted | backend/app/llm/policy_validation.py:14-60 | and every such payload is accepted unchanged, but for a blank description |
| Policy.AcceptedExactlyWhen | backend/app/llm/policy_validation.py:14-60 | a payload is accepted exactly when its name is not blank, its lists hold at most 100 entries each, keys of the pattern or blanks, its defaults are blank or listed, and an allow rule lists some key; up to white space around them |
| Policy.AcceptedAs | backend/app/llm/policy_validation.py:14-60 | it is then stored with everything stripped, each key listed once in the order of first mention, blank defaults absent |
| Policy.NormalizeIdempotent | backend/app/llm/policy_validation.py:14-60 | normalising an accepted payload again is accepted and changes nothing but a blank description |
| Policy.NormalizeKeyList | backend/app/llm/policy_validation.py:83-94 | the loop keeps the first of each normalised key and stops at the first malformed one |
| Policy.PolicyPayload.NormalizeAndValidate | backend/app/llm/policy_validation.py:14-60 | the payload is normalised in place up to the first error raised |
| Router.CandidatesAreEligible | backend/app/llm/router.py:49-94 | the three narrowing steps keep exactly the active deployments with the wanted model and routing keys, in order |
| Router.PlanIsTheEligible | backend/app/llm/router.py:96-135 | the planned routes are exactly the usable eligible deployments with a registered provider, each as often as configured |
| Router.PlanIsStablySorted | backend/app/llm/router.py:159-183 | they are sorted by priority, or priority and cost, and ties keep the configured order |
| Router.OpenOnlyAsLastResort | backend/app/llm/router.py:96-109 | a deployment whose circuit is open is planned only if every eligible deployment's is |
| Router.PlanOutcome | backend/app/llm/router.py:133-154 | a plan is never empty; which error is raised when there is none |
| Router.CostOnlyBreaksTies | backend/app/llm/router.py:159-183 | ordering by cost permutes only within groups of equal priority of the default order |
| Router.PlanOrder | backend/app/llm/router.py:159-183 | routes come lowest priority number first, and under cost-aware routing, among equal priorities, lowest sum of input and output price first; each names the strategy it was chosen by |
| Router.TiesAsConfigured | backend/app/llm/router.py:159-183 | deployments that tie on those are tried in the order in which they are configured |
| Router.PlannedExactly | backend/app/llm/router.py:49-135 | a deployment is planned exactly when it is configured, active, of the model and the routing keys asked for and of a registered provider, with its circuit not open unless those of all asked for are |
| Router.WhyNoPlan | backend/app/llm/router.py:67-154 | which error planning raises, exactly when |
| Router.PlanningHalfOpens | backend/app/llm/router.py:96-109 | planning makes half open the circuits of the deployments asked for that have been open for the cooldown, and changes no other |
| PriceRules.PriceIs | backend/app/llm/pricing.py:100-135 | a key has the prices of the first override that matches, else of the first built-in rule that does, else the default of 0.001 and 0.002 dollars; so has no key |
| PriceRules.RuleIsFor | backend/app/llm/pricing.py:104-118 | a rule matches a key if its pattern is, begins or occurs in the key or in what follows its last slash, both in lower case |
| PriceRules.FirstMatchIs | backend/app/llm/pricing.py:100-127 | the price of a key is that of the first rule that matches, overrides before built-in rules, and the default price only if none matches |
| PriceRules.PriceIgnoresCase | backend/app/llm/pricing.py:104-105 | the case of a key does not change its rule |
| PriceRules.PrefixedIsPriced | backend/app/llm/pricing.py:104-118 | a key with a provider prefix is priced whenever the plain model key is |
| PriceRules.UnpricedLastIff | backend/app/llm/router.py:159-183 | in the cost-aware order, unpriced deployments come last in each group of equal priority if and only if every priced one costs less than the default price, or as much and is configured before each unpriced one |
| PriceRules.UnpricedComesFirst | backend/app/llm/router.py:172-183 | with the built-in prices a model nobody has priced is tried before one priced above the default |
| Sorting.SortOrders | backend/app/llm/router.py:172-183 | sorting puts one element before another exactly when the other is not below it, or they tie and it came first |
| Router.AskingChangesNoAnswer | backend/app/llm/router.py:100-109 | asking the breaker about the candidates changes no answer of the same moment |
| Router.ModelRouter.PlanRoutes | backend/app/llm/router.py:44-154 | the method returns the specified plan and leaves the breaker as the queries leave it |
| Router.ModelRouter.HealthyCandidates | backend/app/llm/router.py:100-109 | the loop keeps the candidates whose circuit is not open |
| Router.ModelRouter.SplitByProvider | backend/app/llm/router.py:111-131 | the loop splits the sorted candidates into routes and missing providers |
| Sorting.SortIsSortedPermutation | backend/app/llm/router.py:172-183 | sorting orders and rearranges |
| Sorting.SortIsStable | backend/app/llm/router.py:172-183 | sorting keeps the order of elements that tie |
| Budget.FilterAgreesWithMatch | backend/app/llm/budget.py:205-240 | for an applicable policy the usage filter built from the caller selects exactly the successful calls in the window that the policy applies to |
| Budget.UsageIsSpent | backend/app/llm/budget.py:205-240 | so whichever applicable context asks, the same amount is spent |
| Budget.NoDenialIffRoom | backend/app/llm/budget.py:176-203 | no hard policy denies exactly when every hard one has room for the estimate on both meters |
| Budget.ApprovalMeansRoom | backend/app/llm/budget.py:43-99 | a reservation is approved exactly when there is room everywhere and then names every applicable policy; a refusal names a hard policy without room |
| Budget.ReservedExactlyWhen | backend/app/llm/budget.py:43-105 | in the fields of policies, rows and caller: a reservation is approved exactly when, for every active hard policy of the tenant that is for the caller, the successful calls of the window it is for and the estimate stay within a positive amount and within the token limit; it then names the active policies for the caller |
| SoftAlert.CallAlerts | backend/app/llm/budget.py:250-294 | settling a call writes one alert row for a soft policy that applies to it if the call crosses the threshold of either meter, and none otherwise or for a hard policy |
| SoftAlert.CrossingInNumbers | backend/app/llm/budget.py:270-282 | a call crosses a threshold exactly when before it less than the alert percentage of the limit was spent, and with it not less; a zero limit has none |
| Budget.BudgetGuard.FirstHardLimitDenial | backend/app/llm/budget.py:176-203 | the loop returns the first hard policy that denies, with its reason |
| Budget.BudgetGuard.ReserveUsage | backend/app/llm/budget.py:43-99 | the reservation and the reserve or deny rows written |
| Budget.BudgetGuard.ReserveCall | backend/app/llm/budget.py:35-41 | reserves the estimate of the request |
| Budget.BudgetGuard.SettleCall | backend/app/llm/budget.py:107-132 | a settle row per scope, each followed by an alert row where a soft threshold is crossed; nothing for an unapproved reservation |
| Budget.BudgetGuard.ReleaseCall | backend/app/llm/budget.py:134-149 | a release row per scope; nothing for an unapproved reservation |
| Budget.BudgetGuard.RecordEvents | backend/app/llm/budget.py:296-353 | one ledger row per scope, in order |
| Overspend.OverspendBound | backend/app/llm/budget.py:176-240 | over every interleaving of at most K calls, estimates at most E and charges at most D above their estimate, across changes of period, spend against any hard policy stays within limit + K*D + (K-1)*min(E, limit), in money and in tokens |
| Overspend.SequentialCallsNeverOverspend | backend/app/llm/budget.py:176-240 | with one call at a time that stays within its estimate the limit is exact |
| Overspend.OverspendBoundIsReached | backend/app/llm/budget.py:214-240 | the bound is attained on either meter: outstanding reservations are not counted as spent |
| Overspend.LimitIsBoundaryIff | backend/app/llm/budget.py:176-240 | a hard limit that applies to anyone is never passed, by any run within the load, beside whatever other policies, if and only if no call costs more than its estimate (D = 0) and there is one worker, or no call can be approved for more than nothing (K = 1 or min(E, limit) = 0) |
| AlertRuns.FiresExactlyOnce | backend/app/llm/budget.py:250-294 | in any run of gateway calls, each at moments of its own inside one window, the crossing test of a meter fires once if the run takes its spend from below the threshold to it, and never otherwise |
| AlertRuns.AlertsAreFirings | backend/app/llm/budget.py:107-132 | the alert rows such a run adds to the ledger are at least each meter's firings and at most their sum |
| AlertRuns.AlertedOncePerThreshold | backend/app/llm/budget.py:250-294 | so a soft policy below both thresholds is alerted exactly when the run reaches one of them, and at most once for each it reaches |
| OverlapAlerts.CrossingsAre | backend/app/llm/budget.py:250-294 | over every interleaving in one window, there are exactly as many crossings of a meter as calls that, at the last moment below its threshold, have settled, have not recorded, and alone reach it with the rows they saw; likewise for crossings of both meters at once |
| OverlapAlerts.CrossingsAtMostWorkers | backend/app/llm/budget.py:250-294 | so K workers cross at most K times |
| OverlapAlerts.OneAtATimeCrossesOnce | backend/app/llm/budget.py:250-294 | if calls settle and record one at a time, however else they overlap, a meter that reaches its threshold crosses it exactly once |
| OverlapAlerts.AlertsUnderOverlap | backend/app/llm/budget.py:250-294 | the number of alert rows a soft policy gets over any interleaving in one window: the calls that so wait at the last moment below the money threshold, plus those at the last moment below the token threshold, less those that reach both alone at the last moment below both |
| OverlapAlerts.AlertsOfOneLimit | backend/app/llm/budget.py:250-294 | with one limit: as many as calls wait on it, so one exactly when one does |
| OverlapAlerts.TwoOverlappingAlerts | backend/app/llm/budget.py:107-132 | two calls that both settle before either records write an alert for each that alone reaches the threshold, whatever they reach together |
| OverlapAlerts.OverlapCanMissTheAlert | backend/app/llm/budget.py:250-294 | a run of two overlapping calls that passes the threshold and writes no alert row |
| OverlapAlerts.OverlapCanRepeatTheAlert | backend/app/llm/budget.py:250-294 | a run of two overlapping calls that passes it once and writes two |
| Calendar.WindowContainsNow | backend/app/llm/budget.py:386-411 | daily, monthly and quarterly windows contain their moment |
| Calendar.WindowsTile | backend/app/llm/budget.py:386-411 | two moments have the same window or windows that do not overlap, in order |
| Calendar.NextWindowStartsAtEnd | backend/app/llm/budget.py:386-411 | for every window there is a moment at which it ends, and the window of that moment starts there: no gap |
| Calendar.WindowsNest | backend/app/llm/budget.py:386-411 | day inside month inside quarter |
| Calendar.SameWindowIff | backend/app/llm/budget.py:386-411 | two moments share a window exactly when they are of the same day, month or calendar quarter; a custom period is its own window |
| Calendar.DaysFollow | backend/app/llm/budget.py:386-411 | days follow each other, 24 hours apart, as the Gregorian calendar has them |
| Pricing.QuantizeError | backend/app/llm/pricing.py:81-98 | the quantised cost is within half a micro-dollar of the exact one |
| Pricing.QuantizeIsNearest | backend/app/llm/pricing.py:81-98 | no other amount is nearer, and a tie goes to the even one |
| Pricing.CallCosts | backend/app/llm/pricing.py:81-98 | a call costs its input tokens at the model's input price and its output tokens at its output price, per thousand, to the nearest micro-dollar, ties to even; total tokens are their sum |
| Pricing.RecalculatedCosts | backend/app/llm/pricing.py:137-147 | recalculated usage keeps its token counts and is costed at the prices of the model given |
| Pricing.EstimateCosts | backend/app/llm/pricing.py:72-79 | an estimate is a token for four characters of the messages joined by line breaks, one at least, and the output the request names, or 512 |
| Pricing.CostMonotone | backend/app/llm/pricing.py:81-98 | cost does not fall when a token count grows |
| Pricing.RoundingDrift | backend/app/llm/pricing.py:81-98 | over n calls rounding adds up to at most n/2 micro-dollars |
| Pricing.RecalculateIdempotent | backend/app/llm/pricing.py:137-147 | recalculating for the same model twice is recalculating once |
| Pricing.WithinEstimate | backend/app/llm/pricing.py:72-79 | usage of the reserved model within the estimated tokens never costs or counts more than the reservation |
| CircuitBreaker.DeploymentsAreIndependent | backend/app/llm/circuit_breaker.py:103-253 | a deployment's circuit depends only on the operations that name it and on resets of all |
| CircuitBreaker.RunsStayWellFormed | backend/app/llm/circuit_breaker.py:180-253 | over every run: closed means below the threshold with no opening time, open means an opening time, successes below the success threshold |
| CircuitBreaker.CounterIsTrailingFailureRun | backend/app/llm/circuit_breaker.py:180-223 | the failure counter is the number of failures since the last success, reset or override to a state other than open |
| CircuitBreaker.OpenExactlyForTheCooldown | backend/app/llm/circuit_breaker.py:103-122 | a circuit opened at t0 answers open exactly before t0 + cooldown, whatever failures and early queries intervene; the first later query answers false for good and leaves it half open |
| CircuitBreaker.OpeningsArePaidFor | backend/app/llm/circuit_breaker.py:198-223 | openings from closed times the threshold never exceed the failures recorded |
| CircuitBreaker.ClosesAfterEnoughProbes | backend/app/llm/circuit_breaker.py:180-196 | a half-open circuit closes exactly after the threshold of successes with no failure between |
| CircuitBreaker.FailedProbeReopens | backend/app/llm/circuit_breaker.py:198-223 | a half-open circuit whose probe fails after too few successes is open exactly for a cooldown from that failure, whatever failures and early queries follow, and has been opened once more |
| CircuitBreaker.NextState | backend/app/llm/circuit_breaker.py:103-253 | the state after any operation on any circuit a run can leave |
| CircuitBreaker.LastFailureIsRemembered | backend/app/llm/circuit_breaker.py:198-209 | time and code of the last failure since the last reset are kept |
| CircuitBreaker.OpeningsAreCounted | backend/app/llm/circuit_breaker.py:198-253 | the circuit counts its openings since the last reset, by a failure or by an override |
| CircuitBreaker.Breaker.constructor | backend/app/llm/circuit_breaker.py:65-81 | the settings are clamped |
| CircuitBreaker.Breaker.Configure | backend/app/llm/circuit_breaker.py:83-101 | each given setting is clamped and replaced, the others kept |
| CircuitBreaker.Breaker.IsOpen | backend/app/llm/circuit_breaker.py:103-122 | the answer and the lazy half-open step, on the one circuit |
| CircuitBreaker.Breaker.GetState | backend/app/llm/circuit_breaker.py:124-137 | the state after the lazy step |
| CircuitBreaker.Breaker.TakeSnapshot | backend/app/llm/circuit_breaker.py:139-168 | the circuit after the lazy step and the exact time left until half open |
| CircuitBreaker.Breaker.RecordSuccess | backend/app/llm/circuit_breaker.py:180-196 | one success step of that circuit, no other changed |
| CircuitBreaker.Breaker.RecordFailure | backend/app/llm/circuit_breaker.py:198-223 | one failure step of that circuit, no other changed |
| CircuitBreaker.Breaker.ResetOne | backend/app/llm/circuit_breaker.py:225-230 | forgets one circuit or all |
| CircuitBreaker.Breaker.ForceState | backend/app/llm/circuit_breaker.py:232-253 | one override step of that circuit |
| ConcurrencyLimiter.CountsAreHolders | backend/app/services/agent_concurrency.py:70-124 | over every interleaving each stored count is the number of current holders covering its key, at least one and at most its limit |
| ConcurrencyLimiter.AdmittedExactlyWhenRoom | backend/app/services/agent_concurrency.py:70-112 | acquisition takes all slots when each has room and none otherwise |
| ConcurrencyLimiter.AdmittedExactly | backend/app/services/agent_concurrency.py:70-168 | an execution is admitted exactly when its tenant, its user and its agent within the tenant each run fewer executions than that scope's limit, a zero limit not counting |
| ConcurrencyLimiter.BlockedBy | backend/app/services/agent_concurrency.py:153-174 | a refused execution is told the first scope without room: tenant, user, agent |
| ConcurrencyLimiter.EmptyWhenIdle | backend/app/services/agent_concurrency.py:114-124 | with no holder the map is empty |
| ConcurrencyLimiter.UserCountsSumToTenant | backend/app/services/agent_concurrency.py:153-168 | user counts of a tenant sum to its tenant count |
| ConcurrencyLimiter.AgentCountsSumToTenant | backend/app/services/agent_concurrency.py:153-168 | agent counts of a tenant sum to its tenant count |
| ConcurrencyLimiter.InMemoryAgentConcurrencyLimiter.constructor | backend/app/services/agent_concurrency.py:41-44 | starts empty with limits clamped at zero |
| ConcurrencyLimiter.InMemoryAgentConcurrencyLimiter.BlockedSlot | backend/app/services/agent_concurrency.py:170-174 | the first slot without room |
| ConcurrencyLimiter.InMemoryAgentConcurrencyLimiter.TryOnce | backend/app/services/agent_concurrency.py:88-108 | one locked pass: all slots and their new counts, or none and the blocking slot |
| ConcurrencyLimiter.InMemoryAgentConcurrencyLimiter.TakeAll | backend/app/services/agent_concurrency.py:94-99 | each slot's count goes up by one |
| ConcurrencyLimiter.InMemoryAgentConcurrencyLimiter.Release | backend/app/services/agent_concurrency.py:114-124 | one holder's slots go down by one, a count of one is dropped |
| RateLimiter.InMemoryRateLimiter.Allow | backend/app/middleware/rate_limit.py:51-65 | the decision, the remaining count and the new buckets for any clock and window; while the clock does not go back and the window does not grow they are those of a limiter that keeps the complete log, and with one configuration the log is the specification's list of requests admitted |
| RateLimiter.InMemoryRateLimiter.Compact | backend/app/middleware/rate_limit.py:70-76 | compaction keeps exactly what is later than the cutoff, in every bucket |
| RateLimiter.InMemoryRateLimiter.Reset | backend/app/middleware/rate_limit.py:67-68 | forgets everything |
| RateLimiter.SlidingWindowBound | backend/app/middleware/rate_limit.py:51-65 | any half-open interval of window length admits at most the limit per key |
| RateLimiter.SlidingAdmitsExactly | backend/app/middleware/rate_limit.py:51-65 | a request is admitted exactly when fewer than the limit of its key were admitted in the window that ends with it |
| RateLimiter.RedisRateLimiter.Allow | backend/app/middleware/rate_limit.py:83-103 | the script's step on the counter decides, what remains is the rest of the limit, and the caller is told to wait for the life left to the counter; while the window stays the same the requests admitted are those of the fixed-window specification |
| RateLimiter.WaitingIsEnough | backend/app/middleware/rate_limit.py:96-101 | a caller that waits as long as it is told is admitted, unless as many requests of its key as the limit were made in the meantime |
| RateLimiter.FixedWindowBound | backend/app/middleware/rate_limit.py:28-35 | any interval of window length admits at most twice the limit less one |
| RateLimiter.FixedWindowBoundIsReached | backend/app/middleware/rate_limit.py:28-35 | and that many are admitted by some run |
| RateLimiter.FixedAdmitsExactly | backend/app/middleware/rate_limit.py:28-35 | a request that finds its key's window open is admitted exactly when fewer than the limit were admitted in it; one that finds none opens one of full length and is admitted |
| TtlCache.HitIsLatestValue | backend/app/rag/cache.py:39-53 | a hit returns the value set last for its key since the last clear, and is within its lifetime |
| TtlCache.RecentUnexpiredKeyHits | backend/app/rag/cache.py:39-62 | an unexpired key is a hit if fewer than maxsize other keys were touched since it was |
| TtlCache.BoundedAndCounted | backend/app/rag/cache.py:39-68 | the size stays within maxsize, keys are distinct, hits plus misses are the gets since the last clear |
| TtlCache.HitsAreFound | backend/app/rag/cache.py:39-53 | the hits are exactly the lookups since the last clear that returned a value |
| TtlCache.EntryComesFromLatestSet | backend/app/rag/cache.py:55-62 | every stored entry is that of the latest set of its key |
| TtlCache.Store.Get | backend/app/rag/cache.py:39-53 | one lookup: the answer, the refreshed order, the dropped entry, the counters |
| TtlCache.Store.Set | backend/app/rag/cache.py:55-62 | one store at the fresh end, evicting from the old end down to maxsize |
| TtlCache.Store.Clear | backend/app/rag/cache.py:64-68 | forgets entries and counters |
| Chunking.NoOverlapLosesNothing | backend/app/knowledge/document_processing.py:182-212 | without overlap the non-space characters of the chunks, in order, are exactly those of the text |
| Chunking.ShortParagraphsStayWhole | backend/app/knowledge/document_processing.py:191-210 | for any overlap each paragraph that fits a chunk appears whole in some chunk |
| Chunking.LongParagraphsAreCovered | backend/app/knowledge/document_processing.py:193-205 | every non-space position of a longer paragraph lies in a slice that is in the chunks |
| Chunking.ChunksAreBounded | backend/app/knowledge/document_processing.py:182-212 | every chunk is non-empty, trimmed and at most size + overlap + 2 long |
| Chunking.SlicesAreEven | backend/app/knowledge/document_processing.py:196-205 | slices start size - overlap apart, which bounds their number |
| Chunking.SlicesCover | backend/app/knowledge/document_processing.py:196-205 | the slices of a long paragraph cover it without a gap |
| Chunking.ParagraphsHoldTheText | backend/app/knowledge/document_processing.py:184-188 | splitting into paragraphs loses only white space |
| Chunking.BlankTextHasNoChunks | backend/app/knowledge/document_processing.py:184-190 | for every size and overlap, a text gives no chunk exactly when it is all white space |
| Chunking.SliceParagraph | backend/app/knowledge/document_processing.py:196-205 | the slicing loop appends the specified slices and terminates |
| Chunking.ChunkText | backend/app/knowledge/document_processing.py:182-212 | the packing loop returns the specified chunks, which the layout results below determine, for every size and overlap given |
| ChunkLayout.ChunksAreLaidOut | backend/app/knowledge/document_processing.py:191-212 | every text has a layout of its paragraphs that renders to its chunks: in order, each long paragraph alone in slices, short ones packed into one chunk until the next would not fit, so that a chunk of several is within the size, and a chunk that follows another opened behind that one's stripped last `overlap` characters |
| ChunkLayout.ChunksFollow | backend/app/knowledge/document_processing.py:191-212 | and any such layout of all its paragraphs renders to its chunks |
| ChunkLayout.FitTogether | backend/app/knowledge/document_processing.py:203-205 | paragraphs that fit a chunk together come out as one chunk, whatever the overlap |
| ChunkLayout.SlicesOverlap | backend/app/knowledge/document_processing.py:196-202 | slice k of a long paragraph is the stripped text from k times the size less the overlap, a size long or to the end; there are no more than it takes to reach the end |
| ChunkLayout.SizesAreNearest | backend/app/knowledge/document_processing.py:184-185 | the sizes used are the nearest to those given from 200 to 4000, and from none to half of that |
| ChunkLayout.ParagraphsRoundTrip | backend/app/knowledge/document_processing.py:186-187 | paragraphs without a blank line inside, put one blank line apart, are the paragraphs found |
| ChunkLayout.ParagraphsArePlain | backend/app/knowledge/document_processing.py:186-187 | every paragraph found is trimmed, has no blank line inside and no white space before a line end |
| ChunkLayout.LineIsSplit | backend/app/knowledge/document_processing.py:186-186 | a line is what stands before the first line end, whichever of Python's line ends it is |
| RankFusion.Fuse | backend/app/knowledge/retrieval_postprocessing.py:9-49 | the accumulating loops and the sort give the specified fused list |
| RankFusion.FusedIsTheBest | backend/app/knowledge/retrieval_postprocessing.py:40-49 | as many chunks as asked for, each once, best score first, none left out that scores higher than one kept |
| RankFusion.OneMoreRank | backend/app/knowledge/retrieval_postprocessing.py:17-25 | position n, counted from one, of either ranking adds 1 / (k + n) to the score of the chunk there, and nothing else adds to a score |
| RankFusion.TiesKeepFirstSeen | backend/app/knowledge/retrieval_postprocessing.py:43-43 | of two fused chunks with one score, the one seen first comes first, the vector ranking being read before the other |
| RankFusion.DominanceIsKept | backend/app/knowledge/retrieval_postprocessing.py:17-49 | a chunk ahead of another in every ranking that contains the other is fused ahead of it |
| Lifecycle.RunsStaySafe | backend/app/services/agent_instance_reconcile_service.py:14-73 | over every run of install, enable, disable, create, update and licence change, every active instance's module is licensed, in the catalogue and enabled |
| Lifecycle.ReconcileIsExact | backend/app/services/agent_instance_reconcile_service.py:14-73 | reconciling stops exactly the active instances in scope that are not runnable, activates nothing, the active count falls by the number stopped, and a second pass stops none |
| Lifecycle.ReconcileMakesSafe | backend/app/services/agent_instance_reconcile_service.py:14-73 | a full reconciliation makes any state safe |
| Lifecycle.LicenseChangeNeedsReconcile | backend/app/services/license_service.py:422-431 | a licence change without reconciliation keeps safety exactly when the licence still covers every active instance |
| Lifecycle.ActivationIsAuthorized | backend/app/services/agent_runtime_service.py:1519-1558 | an instance becomes active only through create or an update to active, while its module is runnable |
| Lifecycle.DisableStopsItsOwn | backend/app/services/agent_module_service.py:509-570 | disabling a module stops its active instances and no others, as a full reconciliation would |
| Lifecycle.OthersKeepDependencies | backend/app/services/agent_module_service.py:384-506 | every operation but disable keeps `enabled modules have their dependencies enabled` |
| Lifecycle.DisableKeepsDependenciesIff | backend/app/services/agent_module_service.py:509-570 | disable keeps it exactly when no other enabled module depends on the one disabled |
| Lifecycle.FeaturesNotReconciled | backend/app/services/agent_instance_reconcile_service.py:76-111 | a new licence stops no instance of a safe tenant exactly when it covers the active modules, whatever features it takes away; a module that goes on running can then be managed exactly when the licence has every feature it requires |
| Lifecycle.RunsKeepRows | backend/app/services/agent_module_service.py:384-570 | over every run the timestamps of module rows agree with their states |
| Lifecycle.InstallDoes | backend/app/services/agent_module_service.py:384-446 | installing changes the module's row, and nothing else, exactly when the licence is active, lists the module and has its required features, the module is in the catalogue, its dependencies are installed and it is not; what the row then is |
| Lifecycle.EnableDoes | backend/app/services/agent_module_service.py:449-506 | enabling changes the row exactly when the licence covers the module so, the module is in the catalogue and its dependencies are enabled; what the row then is |
| Lifecycle.DisableDoes | backend/app/services/agent_module_service.py:509-570 | disabling changes the row exactly when the licence covers the module so and it is in the catalogue; what the row and the instances then are |
| Lifecycle.CreateAndUpdateDo | backend/app/services/agent_runtime_service.py:265-411 | what creating and updating an instance leave, and exactly when |
| Lifecycle.LicenseDoes | backend/app/services/license_service.py:422-431 | what a new licence leaves |
| Lifecycle.RefusalsAreTrue | backend/app/services/agent_module_service.py:925-1000 | every refusal names a reason that holds |
| Lifecycle.Tenant.Reconcile | backend/app/services/agent_instance_reconcile_service.py:14-73 | the loop stops what must stop and returns how many |
| Lifecycle.Tenant.InstallModule | backend/app/services/agent_module_service.py:384-446 | the refusal met or the installed row |
| Lifecycle.Tenant.EnableModule | backend/app/services/agent_module_service.py:449-506 | the refusal met or the enabled row |
| Lifecycle.Tenant.DisableModule | backend/app/services/agent_module_service.py:509-570 | the refusal met, or the disabled row, the stopped instances and their number |
| Lifecycle.Tenant.ActivateLicense | backend/app/services/license_service.py:422-431 | the new licence, the stopped instances and their number |
| Lifecycle.Tenant.AuthorizeAgentRun | backend/app/services/agent_runtime_service.py:1519-1558 | the first gate that refuses the module, if any |
| Lifecycle.Tenant.CreateInstance | backend/app/services/agent_runtime_service.py:265-337 | an authorised instance is created active, with the note its metadata carries |
| Lifecycle.Tenant.UpdateInstance | backend/app/services/agent_runtime_service.py:340-411 | an instance that ends active is authorised first; metadata given replaces the runtime-disable note |

## Left out

- Threads, locks and sleeping: every block under a lock is one step, and the waiting loop of the concurrency limiter is a sequence of single attempts; its disabled switch, `snapshot` and `reset` are not modelled.
- Storage: SQL, commits and rollbacks are sequences and maps. An unreadable budget table is an input of `reserve`; ledger and usage writes are taken to succeed, and the errors the guard swallows when an alert or ledger row cannot be written are not modelled. A guard or collector without a session is not modelled.
- Cancellation inside bookkeeping calls: a call is cancelled at an adapter call, a probe or a stream yield only.
- Cost centre resolution: a context carries the cost centre that resolution finds for it, the same each time.
- Pricing: outside `PriceRules` the catalogue is any function from model key to prices; lower-casing is that of ASCII letters, rules carry no source, and the 28-digit decimal context is not modelled, as exact values stay far below it.
- Pydantic field limits, except where a precondition names them (`max_tokens` is at least one in a request).
- Messages: only their text enters the estimate; roles, names, temperature and metadata are not modelled.
- Metrics and audit events: emitted beside the books, twice for a denied chat, with no law to keep.
- Record metadata: route attempts, diagnostics, latency, messages of errors; records keep status, route, model, usage, error code and time.
- Adapter construction: an unsupported adapter type is one of the HTTP exceptions an attempt can meet.
- Gateway timing: policy, reservation and planning happen at one moment, and each attempt is booked at one moment of its own.
- CallSteps.CallIsARun: is about calls whose clock does not go back.
- Interleaving.GatewayRunIsARun: is about runs whose clock does not go back, within a call or from one to the next.
- Overlap: in an interleaving each call takes the steps it takes for some books, any books; that they are the books the other calls leave at that moment is not required, so the results cover more runs than can occur. A call that the machine denies goes no further.
- Gateway.LLMGateway.Chat: this method and the other entry points assume the wiring of the constructor's row, which is how the application builds its gateway.
- ConcurrencyLimiter.InMemoryAgentConcurrencyLimiter.constructor: limits are fixed for the life of the limiter, while the program reads its settings at each call.
- Conservation.SequentialRunWithinLimit: covers calls begun in one window; overlapping calls and changes of period are those of Overspend.OverspendBound.
- Overspend.OverspendBound: budget policies do not change during the run.
- AlertRuns.AlertedOncePerThreshold: a run whose settlements fall in one window of the policy; an alert after a change of period is another run.
- OverlapAlerts.AlertsUnderOverlap: a run inside one window of the policy.
- Outage.FailingDeploymentIsLastResort: a breaker that starts empty, is enabled, and whose settings do not change and nobody resets or overrides during the run.
- Calendar: years beyond 9999 and time zones other than UTC.
- RateLimiter.InMemoryRateLimiter.Allow: agreement with the complete log is for a clock that does not go back and a window that does not grow; the middleware that derives keys, trusted proxies and the fallback between the two limiters are not modelled.
- RateLimiter.RedisRateLimiter.Allow: agreement with the specification is for one window length; the rounding of TTLs to seconds is not modelled; the script is one step.
- RateLimiter.FixedWindowBound: limits of at least one; the middleware's limits are positive.
- TtlCache: the `stats` report, stored `None` values, a negative maxsize and the decorator that uses the cache.
- Floating point: breaker, limiter and cache clocks are exact, fused scores are exact reals and the displayed rounded score is not modelled.
- PriceRules.UnpricedLastIff: configured deployments are distinct, as stored rows with ids of their own are.
- RankFusion.DominanceIsKept: rankings without repeated ids; the chunks' texts and metadata are not modelled, only their ids.
- Policy: `validate_policy_scope`, which only requires a scope id, and the filtering of rules to configured deployments.
- Lifecycle: one tenant, storage available, a catalogue that does not change; capacity, slug, department and ownership checks are one input that may refuse; the in-memory development variants, upgrades and audit rows are not modelled. A licence that expires by the clock is a licence change without reconciliation.
- Providers, channels, media, MCP, retrieval stores, credentials, licence signatures, the front end: calls to other systems, opaque primitives, or little logic to prove.
