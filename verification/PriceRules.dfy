/** Which price a model key gets (`price_rule_for`, backend/app/llm/pricing.py), and what
    that means for the cost-aware order (`_sort_candidates`, backend/app/llm/router.py). */
module PriceRules {
  import opened Basics
  import opened Pricing
  import opened Policy
  import opened Sorting
  import opened Router

  datatype MatchType = Exact | Prefix | Contains | Default

  /** Prices in units of 1e-8 USD per thousand tokens, as in `Pricing`. */
  datatype PriceRule = PriceRule(pattern: string, inputPer1k: nat, outputPer1k: nat, matchType: MatchType)

  const DEFAULT_INPUT_PER_1K := 100_000

  const DEFAULT_OUTPUT_PER_1K := 200_000

  const BUILTIN: seq<PriceRule> := [
    PriceRule("gpt-4o", 250_000, 1_000_000, Exact),
    PriceRule("gpt-4o-mini", 15_000, 60_000, Exact),
    PriceRule("claude-3-5-sonnet", 300_000, 1_500_000, Contains),
    PriceRule("claude-compatible", 0, 0, Exact),
    PriceRule("gemini-1.5-pro", 125_000, 500_000, Exact),
    PriceRule("mistral-large", 200_000, 600_000, Prefix),
    PriceRule("command-r-plus", 300_000, 1_500_000, Exact),
    PriceRule("grok-2", 200_000, 1_000_000, Prefix),
    PriceRule("qwen-plus", 28_000, 84_000, Exact),
    PriceRule("deepseek-v4-flash", 14_000, 28_000, Exact),
    PriceRule("deepseek-chat", 14_000, 28_000, Exact),
    PriceRule("moonshot-v1-128k", 170_000, 170_000, Exact),
    PriceRule("mimo-chat", 100_000, 200_000, Exact),
    PriceRule("abab6.5s-chat", 20_000, 60_000, Exact),
    PriceRule("glm-4-plus", 700_000, 700_000, Exact),
    PriceRule("doubao-pro", 11_000, 22_000, Prefix),
    PriceRule("ernie-4.0", 170_000, 170_000, Prefix),
    PriceRule("hunyuan-pro", 400_000, 400_000, Exact),
    PriceRule("spark-max", 350_000, 350_000, Exact),
    PriceRule("llama-3.1-70b", 90_000, 90_000, Contains),
    PriceRule("llama-v3p1-70b", 90_000, 90_000, Contains),
    PriceRule("DeepSeek-V3", 14_000, 28_000, Contains),
    PriceRule("llama3.1", 0, 0, Exact),
    PriceRule("local-chat", 0, 0, Exact),
    PriceRule("local-model", 0, 0, Exact),
    PriceRule("openai/gpt-image-2", 0, 0, Exact),
    PriceRule("google/nano-banana", 0, 0, Exact),
    PriceRule("volcengine/seedance-2.0", 0, 0, Exact),
    PriceRule("openai-compatible-image", 0, 0, Exact)
  ]

  /** `str.lower` on ASCII letters. */
  function LowerChar(c: char): char { if 'A' <= c <= 'Z' then c + ('a' - 'A') else c }

  function Lower(s: string): string { seq(|s|, i requires 0 <= i < |s| => LowerChar(s[i])) }

  /** What follows the last slash. */
  function AfterSlash(s: string): string {
    if s == [] then [] else if s[|s| - 1] == '/' then [] else AfterSlash(s[..|s| - 1]) + [s[|s| - 1]]
  }

  /** The names under which a key is looked up. */
  function Aliases(key: string): seq<string> { [Lower(key), AfterSlash(Lower(key))] }

  predicate Occurs(pattern: string, s: string) {
    pattern <= s || (s != [] && Occurs(pattern, s[1..]))
  }

  predicate NameMatches(r: PriceRule, name: string) {
    match r.matchType
    case Exact => Lower(r.pattern) == name
    case Prefix => Lower(r.pattern) <= name
    case Contains => Occurs(Lower(r.pattern), name)
    case Default => false
  }

  predicate KeyMatches(r: PriceRule, key: string) {
    NameMatches(r, Aliases(key)[0]) || NameMatches(r, Aliases(key)[1])
  }

  function FirstMatch(rules: seq<PriceRule>, key: string): Option<PriceRule> {
    if rules == [] then None
    else if KeyMatches(rules[0], key) then Some(rules[0])
    else FirstMatch(rules[1..], key)
  }

  /** The rule for a model key: the overrides come before the built-in rules; no
      rule means the default price. */
  function RuleFor(overrides: seq<PriceRule>, key: Option<string>): Option<PriceRule> {
    if Truthy(key) then FirstMatch(overrides + BUILTIN, key.value) else None
  }

  function CatalogOf(overrides: seq<PriceRule>): Catalog {
    (key: Option<string>) =>
      match RuleFor(overrides, key)
      case Some(r) => Pricing.Rule(r.inputPer1k, r.outputPer1k)
      case None => Pricing.Rule(DEFAULT_INPUT_PER_1K, DEFAULT_OUTPUT_PER_1K)
  }

  // ---- Which rule it is ------------------------------------------------------------------------

  /** The rule found is the first in the list that matches, and there is none only
      if none matches. */
  lemma {:induction false} FirstMatchIs(rules: seq<PriceRule>, key: string)
    ensures match FirstMatch(rules, key)
            case Some(r) =>
              exists i :: 0 <= i < |rules| && rules[i] == r && KeyMatches(r, key) &&
                forall j :: 0 <= j < i ==> !KeyMatches(rules[j], key)
            case None => forall j :: 0 <= j < |rules| ==> !KeyMatches(rules[j], key)
  {
    hide KeyMatches;
    if rules != [] && !KeyMatches(rules[0], key) {
      var rest := rules[1..];
      FirstMatchIs(rest, key);
      assert forall j :: 0 < j < |rules| ==> rules[j] == rest[j - 1];
      if FirstMatch(rest, key).Some? {
        var r := FirstMatch(rest, key).value;
        var i :| 0 <= i < |rest| && rest[i] == r && forall j :: 0 <= j < i ==> !KeyMatches(rest[j], key);
        assert rules[i + 1] == r;
      }
    }
  }

  lemma {:induction false} AfterSlashIs(s: string)
    ensures var tail := AfterSlash(s);
            '/' !in tail && (tail == s || exists head :: s == head + "/" + tail)
  {
    if s != [] && s[|s| - 1] != '/' {
      var front, c := s[..|s| - 1], s[|s| - 1];
      AfterSlashIs(front);
      assert s == front + [c];
      if AfterSlash(front) != front {
        var head :| front == head + "/" + AfterSlash(front);
        assert s == head + "/" + AfterSlash(s);
      }
    } else if s != [] {
      assert s == s[..|s| - 1] + "/" + [];
    }
  }

  lemma {:induction false} OccursIff(pattern: string, s: string)
    ensures Occurs(pattern, s) <==> exists i :: 0 <= i <= |s| && pattern <= s[i..]
  {
    if pattern <= s { assert s[0..] == s; }
    if s != [] {
      OccursIff(pattern, s[1..]);
      forall i | 1 <= i <= |s| ensures s[i..] == s[1..][i - 1..] {}
      if Occurs(pattern, s[1..]) {
        var i :| 0 <= i <= |s[1..]| && pattern <= s[1..][i..];
        assert pattern <= s[i + 1..];
      }
      if i :| 1 <= i <= |s| && pattern <= s[i..] { assert pattern <= s[1..][i - 1..]; }
    }
  }

  /** The pattern is the name, begins it or occurs in it, whatever its case. */
  ghost predicate Fits(r: PriceRule, name: string) {
    || (r.matchType.Exact? && name == Lower(r.pattern))
    || (r.matchType.Prefix? && exists rest :: name == Lower(r.pattern) + rest)
    || (r.matchType.Contains? && exists before, after :: name == before + Lower(r.pattern) + after)
  }

  lemma BeginsIff(pattern: string, name: string)
    ensures pattern <= name <==> exists rest :: name == pattern + rest
  {
    if pattern <= name { assert name == pattern + name[|pattern|..]; }
  }

  lemma {:induction false} OccursBetween(pattern: string, name: string)
    ensures Occurs(pattern, name) <==> exists before, after :: name == before + pattern + after
  {
    hide Occurs;
    OccursIff(pattern, name);
    if i :| 0 <= i <= |name| && pattern <= name[i..] {
      assert name == name[..i] + pattern + name[i..][|pattern|..];
    }
    forall before, after | name == before + pattern + after ensures pattern <= name[|before|..] {
      assert name[|before|..] == pattern + after;
    }
  }

  lemma {:induction false} FitsIff(r: PriceRule, name: string)
    ensures Fits(r, name) <==> NameMatches(r, name)
  {
    hide Occurs, Lower;
    BeginsIff(Lower(r.pattern), name);
    OccursBetween(Lower(r.pattern), name);
  }

  /** A rule is for a key if its pattern fits the key or what follows its last slash,
      both in lower case. */
  lemma {:induction false} RuleIsFor(r: PriceRule, key: string) returns (tail: string)
    ensures '/' !in tail && (tail == Lower(key) || exists head :: Lower(key) == head + "/" + tail)
    ensures KeyMatches(r, key) <==> Fits(r, Lower(key)) || Fits(r, tail)
  {
    tail := AfterSlash(Lower(key));
    AfterSlashIs(Lower(key));
    FitsIff(r, Lower(key));
    FitsIff(r, tail);
  }

  lemma {:induction false} FirstMatchOf(a: seq<PriceRule>, b: seq<PriceRule>, key: string)
    ensures FirstMatch(a + b, key) == if FirstMatch(a, key).Some? then FirstMatch(a, key) else FirstMatch(b, key)
  {
    hide KeyMatches;
    if a == [] {
      assert a + b == b;
    } else {
      assert (a + b)[1..] == a[1..] + b;
      FirstMatchOf(a[1..], b, key);
    }
  }

  /** The price of a key, in US dollars per thousand tokens times 10^8: that of the first
      override that matches, or else of the first built-in rule, or else 0.001 for
      input and 0.002 for output, which is also the price without a key. */
  lemma {:induction false} PriceIs(overrides: seq<PriceRule>, key: Option<string>)
    ensures var price := CatalogOf(overrides)(key);
            if key == None || key == Some("") then price.inputPer1k == 100_000 && price.outputPer1k == 200_000
            else
              match FirstMatch(overrides, key.value)
              case Some(r) => price.inputPer1k == r.inputPer1k && price.outputPer1k == r.outputPer1k
              case None =>
                match FirstMatch(BUILTIN, key.value)
                case Some(r) => price.inputPer1k == r.inputPer1k && price.outputPer1k == r.outputPer1k
                case None => price.inputPer1k == 100_000 && price.outputPer1k == 200_000
  {
    hide FirstMatch, BUILTIN;
    if Truthy(key) { FirstMatchOf(overrides, BUILTIN, key.value); }
  }

  lemma LowerTwice(s: string)
    ensures Lower(Lower(s)) == Lower(s)
  {}

  /** The case of a key does not change its price. */
  lemma {:induction false} PriceIgnoresCase(overrides: seq<PriceRule>, key: string)
    ensures RuleFor(overrides, Some(Lower(key))) == RuleFor(overrides, Some(key))
  {
    LowerTwice(key);
    MatchIgnoresCase(overrides + BUILTIN, key);
  }

  lemma {:induction false} MatchIgnoresCase(rules: seq<PriceRule>, key: string)
    ensures FirstMatch(rules, Lower(key)) == FirstMatch(rules, key)
  {
    hide NameMatches;
    LowerTwice(key);
    if rules != [] { MatchIgnoresCase(rules[1..], key); }
  }

  lemma {:induction false} AfterSlashOf(prefix: string, name: string)
    requires '/' !in name
    ensures AfterSlash(prefix + "/" + name) == name && AfterSlash(name) == name
  {
    if name == [] {
      assert prefix + "/" + name == prefix + "/";
    } else {
      var front := name[..|name| - 1];
      assert (prefix + "/" + name)[..|prefix + "/" + name| - 1] == prefix + "/" + front;
      AfterSlashOf(prefix, front);
    }
  }

  /** A provider prefix never loses a model its price: every rule that matches the
      plain model key matches the key with the prefix. */
  lemma {:induction false} PrefixKeepsMatches(r: PriceRule, prefix: string, model: string)
    requires '/' !in model && KeyMatches(r, model)
    ensures KeyMatches(r, prefix + "/" + model)
  {
    assert Lower(prefix + "/" + model) == Lower(prefix) + "/" + Lower(model);
    NoSlash(model);
    AfterSlashOf(Lower(prefix), Lower(model));
  }

  lemma NoSlash(s: string)
    requires '/' !in s
    ensures '/' !in Lower(s)
  {
    forall i | 0 <= i < |s| ensures Lower(s)[i] != '/' { assert s[i] in s; }
  }

  lemma {:induction false} PrefixedIsPriced(overrides: seq<PriceRule>, prefix: string, model: string)
    requires '/' !in model && RuleFor(overrides, Some(model)).Some?
    ensures RuleFor(overrides, Some(prefix + "/" + model)).Some?
  {
    hide KeyMatches, BUILTIN;
    var rules := overrides + BUILTIN;
    FirstMatchIs(rules, model);
    FirstMatchIs(rules, prefix + "/" + model);
    var r := FirstMatch(rules, model).value;
    PrefixKeepsMatches(r, prefix, model);
  }

  // ---- Unpriced deployments in the cost-aware order -------------------------------------------

  predicate Priced(overrides: seq<PriceRule>, d: Deployment) { RuleFor(overrides, Some(d.modelKey)).Some? }

  const DEFAULT_COST := DEFAULT_INPUT_PER_1K + DEFAULT_OUTPUT_PER_1K

  /** As documented: in each group of equal priority, unpriced deployments come last. */
  ghost predicate UnpricedLast(overrides: seq<PriceRule>, order: seq<Deployment>) {
    forall x, y :: Before(order, x, y) && x.priority == y.priority && !Priced(overrides, x) ==> !Priced(overrides, y)
  }

  /** `x` costs less than the default price, or as much and is configured before `y`. */
  ghost predicate Undercuts(overrides: seq<PriceRule>, candidates: seq<Deployment>, x: Deployment, y: Deployment) {
    var cost := UnitCost(CatalogOf(overrides), x);
    cost < DEFAULT_COST || (cost == DEFAULT_COST && Before(candidates, x, y))
  }

  lemma UnpricedCost(overrides: seq<PriceRule>, d: Deployment)
    requires !Priced(overrides, d)
    ensures UnitCost(CatalogOf(overrides), d) == DEFAULT_COST
  {}

  /** Unpriced deployments come last in their groups exactly when every priced one
      undercuts the default price against every unpriced one of its group. */
  lemma {:induction false} UnpricedLastIff(overrides: seq<PriceRule>, candidates: seq<Deployment>)
    requires NoDuplicates(candidates)
    ensures UnpricedLast(overrides, SortCandidates(CatalogOf(overrides), true, candidates)) <==>
            forall x, y | x in candidates && y in candidates && x.priority == y.priority ::
              Priced(overrides, x) && !Priced(overrides, y) ==> Undercuts(overrides, candidates, x, y)
  {
    hide Priced, UnitCost, TotalPreorder, Before, NoDuplicates;
    var prices := CatalogOf(overrides);
    var le := CostLe(prices);
    var order := SortBy(candidates, le);
    OrdersAreTotal(prices);
    forall x, y
      | x in candidates && y in candidates && x.priority == y.priority && Priced(overrides, x) && !Priced(overrides, y)
      ensures Before(order, y, x) <==> !Undercuts(overrides, candidates, x, y)
    {
      UnpricedCost(overrides, y);
      SortOrders(candidates, le, y, x);
      OneBeforeTheOther(candidates, x, y);
    }
    SortMembers(candidates, le);
    forall x, y | Before(order, x, y) ensures x in candidates && y in candidates { BeforeMembers(order, x, y); }
  }

  const DEAR := Deployment("a", "p", "gpt-4o", "r", true, 100)

  const UNKNOWN := Deployment("b", "p", "x", "r", true, 100)

  /** It does fail: a model nobody has priced is tried before one of the same
      priority with a built-in price above the default. */
  lemma {:induction false} UnpricedComesFirst()
    ensures Priced([], DEAR) && !Priced([], UNKNOWN)
    ensures SortCandidates(CatalogOf([]), true, [DEAR, UNKNOWN]) == [UNKNOWN, DEAR]
  {
    hide BUILTIN, SortCandidates, FirstMatch;
    assert [] + BUILTIN == BUILTIN;
    FirstBuiltin();
    ShortestPattern();
    ShortKeysAreUnpriced(BUILTIN, "x");
    CheaperFirst(CatalogOf([]), DEAR, UNKNOWN);
  }

  lemma FirstBuiltin()
    ensures FirstMatch(BUILTIN, "gpt-4o") == Some(PriceRule("gpt-4o", 250_000, 1_000_000, Exact))
  {
    FirstOf(BUILTIN, "gpt-4o");
  }

  lemma FirstOf(rules: seq<PriceRule>, key: string)
    requires rules != [] && rules[0].pattern == key && rules[0].matchType.Exact?
    ensures FirstMatch(rules, key) == Some(rules[0])
  {}

  lemma ShortestPattern()
    ensures forall i :: 0 <= i < |BUILTIN| ==> |BUILTIN[i].pattern| > 1
  {}

  lemma CheaperFirst(prices: Catalog, dear: Deployment, cheap: Deployment)
    requires dear.priority == cheap.priority && UnitCost(prices, cheap) < UnitCost(prices, dear)
    ensures SortCandidates(prices, true, [dear, cheap]) == [cheap, dear]
  {
    SortOfTwo(dear, cheap, CostLe(prices));
  }

  lemma {:induction false} ShortKeysAreUnpriced(rules: seq<PriceRule>, key: string)
    requires forall i :: 0 <= i < |rules| ==> |rules[i].pattern| > |key|
    ensures FirstMatch(rules, key).None?
  {
    if rules != [] {
      AfterSlashIsShorter(Lower(key));
      OccursNeedsRoom(Lower(rules[0].pattern), Lower(key));
      OccursNeedsRoom(Lower(rules[0].pattern), AfterSlash(Lower(key)));
      ShortKeysAreUnpriced(rules[1..], key);
    }
  }

  lemma {:induction false} AfterSlashIsShorter(s: string)
    ensures |AfterSlash(s)| <= |s|
  {
    if s != [] { AfterSlashIsShorter(s[..|s| - 1]); }
  }

  lemma {:induction false} OccursNeedsRoom(pattern: string, s: string)
    ensures Occurs(pattern, s) ==> |pattern| <= |s|
  {
    if s != [] { OccursNeedsRoom(pattern, s[1..]); }
  }
}
