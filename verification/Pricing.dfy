/** Quantised model cost (backend/app/llm/pricing.py).

    Prices are whole units of 1e-8 USD per thousand tokens, the finest the price
    table stores; costs are whole micro-dollars, as `quantize(0.000001)` leaves
    them. The exact cost of a call is therefore `Exact(...)` / UNIT micro-dollars. */
module Pricing {
  import opened Basics

  /** Price units times tokens in one micro-dollar: 1000 tokens, 100 price units. */
  const UNIT := 100_000

  datatype Rule = Rule(inputPer1k: nat, outputPer1k: nat)

  /** The price rule of a model key (`price_rule_for`), here any function. */
  type Catalog = Option<string> -> Rule

  datatype Usage = Usage(inputTokens: nat, outputTokens: nat, totalTokens: nat, costMicros: nat)

  const NO_USAGE := Usage(0, 0, 0, 0)

  datatype ChatRequest = ChatRequest(
    modelKey: Option<string>,
    routingKey: Option<string>,
    messages: seq<string>,
    maxTokens: Option<nat>)

  /** `Decimal.quantize` of n / UNIT: to the nearest integer, ties to even. */
  function Quantize(n: nat): nat {
    var q, r := n / UNIT, n % UNIT;
    if 2 * r < UNIT then q
    else if 2 * r > UNIT then q + 1
    else if q % 2 == 0 then q else q + 1
  }

  function Exact(rule: Rule, inputTokens: nat, outputTokens: nat): nat {
    inputTokens * rule.inputPer1k + outputTokens * rule.outputPer1k
  }

  function Calculate(prices: Catalog, inputTokens: nat, outputTokens: nat, modelKey: Option<string>): Usage {
    Usage(inputTokens, outputTokens, inputTokens + outputTokens,
          Quantize(Exact(prices(modelKey), inputTokens, outputTokens)))
  }

  function Joined(messages: seq<string>): string {
    if messages == [] then []
    else if |messages| == 1 then messages[0]
    else Joined(messages[..|messages| - 1]) + "\n" + messages[|messages| - 1]
  }

  function EstimateInputTokens(messages: seq<string>): nat { Max(1, |Joined(messages)| / 4) }

  /** `max_tokens or 512`: zero counts as absent. */
  function EstimateOutputTokens(maxTokens: Option<nat>): nat {
    if maxTokens.Some? && maxTokens.value != 0 then maxTokens.value else 512
  }

  function Estimate(prices: Catalog, request: ChatRequest): Usage {
    Calculate(prices, EstimateInputTokens(request.messages), EstimateOutputTokens(request.maxTokens),
        request.modelKey)
  }

  function Recalculate(prices: Catalog, usage: Usage, modelKey: Option<string>): Usage {
    Calculate(prices, usage.inputTokens, usage.outputTokens, modelKey)
  }

  // ---- Rounding ---------------------------------------------------------------------

  /** The quantised cost is within half a micro-dollar of the exact one. */
  lemma QuantizeError(n: nat)
    ensures -UNIT <= 2 * (UNIT * Quantize(n) - n) <= UNIT
  {}

  /** No other whole number of micro-dollars is nearer, and a tie goes to the even one. */
  lemma QuantizeIsNearest(n: nat, other: nat)
    ensures var mine, theirs := Distance(n, Quantize(n)), Distance(n, other);
            mine <= theirs && (mine == theirs && other != Quantize(n) ==> Quantize(n) % 2 == 0)
  {}

  function Distance(n: nat, micros: nat): nat {
    if UNIT * micros >= n then UNIT * micros - n else n - UNIT * micros
  }

  lemma QuantizeMonotone(m: nat, n: nat)
    requires m <= n
    ensures Quantize(m) <= Quantize(n)
  {}

  lemma ExactMonotone(rule: Rule, i: nat, o: nat, i': nat, o': nat)
    requires i <= i' && o <= o'
    ensures Exact(rule, i, o) <= Exact(rule, i', o')
  {}

  /** Cost never falls when either token count grows. */
  lemma CostMonotone(prices: Catalog, model: Option<string>, i: nat, o: nat, i': nat, o': nat)
    requires i <= i' && o <= o'
    ensures Calculate(prices, i, o, model).costMicros <= Calculate(prices, i', o', model).costMicros
  {
    ExactMonotone(prices(model), i, o, i', o');
    QuantizeMonotone(Exact(prices(model), i, o), Exact(prices(model), i', o'));
  }

  /** A usage of so many tokens, costed to the nearest micro-dollar at these prices per
      thousand tokens, a tie going to the even amount. */
  predicate Costs(usage: Usage, rule: Rule, inputTokens: nat, outputTokens: nat) {
    var off := 2 * (UNIT * usage.costMicros - (inputTokens * rule.inputPer1k + outputTokens * rule.outputPer1k));
    && usage.inputTokens == inputTokens && usage.outputTokens == outputTokens
    && usage.totalTokens == inputTokens + outputTokens
    && -UNIT <= off <= UNIT && (off == UNIT || off == -UNIT ==> usage.costMicros % 2 == 0)
  }

  /** Input tokens cost the input price of the model and output tokens its output price. */
  lemma CallCosts(prices: Catalog, inputTokens: nat, outputTokens: nat, model: Option<string>)
    ensures Costs(Calculate(prices, inputTokens, outputTokens, model), prices(model), inputTokens, outputTokens)
  {
    QuantizeError(Exact(prices(model), inputTokens, outputTokens));
  }

  /** Recalculating keeps the token counts and takes the prices of the model given. */
  lemma RecalculatedCosts(prices: Catalog, usage: Usage, model: Option<string>)
    ensures Costs(Recalculate(prices, usage, model), prices(model), usage.inputTokens, usage.outputTokens)
  {
    CallCosts(prices, usage.inputTokens, usage.outputTokens, model);
  }

  // ---- Estimates --------------------------------------------------------------------

  /** The characters of the messages, one line break between each and the next. */
  function Characters(messages: seq<string>): nat {
    if messages == [] then 0
    else
      Characters(messages[..|messages| - 1]) + |messages[|messages| - 1]| + (if |messages| > 1 then 1 else 0)
  }

  lemma {:induction false} JoinedLength(messages: seq<string>)
    ensures |Joined(messages)| == Characters(messages)
  {
    if messages != [] { JoinedLength(messages[..|messages| - 1]); }
  }

  /** One token for four characters, and one at least. */
  function PromptTokens(messages: seq<string>): nat {
    if Characters(messages) < 8 then 1 else Characters(messages) / 4
  }

  /** A request reserves for its prompt and for the output it names, or 512 tokens. */
  lemma EstimateCosts(prices: Catalog, request: ChatRequest)
    ensures Costs(Estimate(prices, request), prices(request.modelKey), PromptTokens(request.messages),
                  if request.maxTokens.None? || request.maxTokens == Some(0) then 512 else request.maxTokens.value)
  {
    JoinedLength(request.messages);
    CallCosts(prices, EstimateInputTokens(request.messages), EstimateOutputTokens(request.maxTokens), request.modelKey);
  }

  function TotalCost(costs: seq<nat>): nat {
    if costs == [] then 0 else TotalCost(costs[..|costs| - 1]) + Quantize(costs[|costs| - 1])
  }

  function TotalExact(costs: seq<nat>): nat {
    if costs == [] then 0 else TotalExact(costs[..|costs| - 1]) + costs[|costs| - 1]
  }

  /** Over n calls the rounding adds up to at most n / 2 micro-dollars either way. */
  lemma {:induction false} RoundingDrift(costs: seq<nat>)
    ensures -UNIT * |costs| <= 2 * (UNIT * TotalCost(costs) - TotalExact(costs)) <= UNIT * |costs|
  {
    if costs != [] {
      RoundingDrift(costs[..|costs| - 1]);
      QuantizeError(costs[|costs| - 1]);
    }
  }

  /** Recalculating recalculated usage for the same model changes nothing. */
  lemma RecalculateIdempotent(prices: Catalog, usage: Usage, model: Option<string>)
    ensures Recalculate(prices, Recalculate(prices, usage, model), model) == Recalculate(prices, usage, model)
  {}

  /** A reservation covers what is settled: usage of the reserved model within the
      estimated token counts never costs, or counts, more than the estimate. */
  lemma WithinEstimate(prices: Catalog, request: ChatRequest, reported: Usage)
    requires reported.inputTokens <= EstimateInputTokens(request.messages)
    requires reported.outputTokens <= EstimateOutputTokens(request.maxTokens)
    ensures var settled := Recalculate(prices, reported, request.modelKey);
            && settled.costMicros <= Estimate(prices, request).costMicros
            && settled.totalTokens <= Estimate(prices, request).totalTokens
  {
    CostMonotone(prices, request.modelKey, reported.inputTokens, reported.outputTokens,
                 EstimateInputTokens(request.messages), EstimateOutputTokens(request.maxTokens));
  }
}
