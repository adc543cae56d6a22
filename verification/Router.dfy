/** Model routing: classification, tier choice under budget pressure, and cross-tier fallbacks. */
module Router {
  import opened Text

  datatype Complexity = Trivial | Investigation

  datatype Classified = Classified(complexity: Complexity, estTokens: nat, budgetCents: int, spentCents: real)

  datatype Tier = Fast | Reasoning | Long

  /** The configured model reference of each tier; empty when the tier is not configured. */
  type Tiers = Tier -> string

  datatype Decision = Decision(tier: Tier, model: string, fallbacks: seq<string>, maxTokens: int)

  const LONG_CONTEXT_THRESHOLD := 150_000

  const KEYWORDS: seq<string> := ["why", "investigate", "debug", "root cause", "fix", "remediate", "optimize", "audit",
                                  "diagnose", "unavailable", "failing"]

  /** Lowered is the prompt in lower case. */
  method Classify(lowered: string, estTokens: nat, inToolLoop: bool, budget: int, spent: real) returns (c: Classified)
    ensures c == Class(lowered, estTokens, inToolLoop, budget, spent)
  {
    c := Classified(Trivial, estTokens, budget, spent);
    for i := 0 to |KEYWORDS|
      invariant forall j :: 0 <= j < i ==> !Contains(lowered, KEYWORDS[j])
      invariant c == Classified(Trivial, estTokens, budget, spent)
    {
      if Contains(lowered, KEYWORDS[i]) {
        c := c.(complexity := Investigation);
        break;
      }
    }
    if inToolLoop {
      c := c.(complexity := Investigation);
    }
  }

  function Class(lowered: string, estTokens: nat, inToolLoop: bool, budget: int, spent: real): Classified {
    Classified(if inToolLoop || exists i :: 0 <= i < |KEYWORDS| && Contains(lowered, KEYWORDS[i]) then Investigation else Trivial,
               estTokens, budget, spent)
  }

  lemma ClassKeeps(lowered: string, estTokens: nat, inToolLoop: bool, budget: int, spent: real)
    ensures var c := Class(lowered, estTokens, inToolLoop, budget, spent);
      c.estTokens == estTokens && c.budgetCents == budget && c.spentCents == spent
  {}

  predicate OverBudget(budget: int, spent: real) {
    budget > 0 && spent > 0.8 * (budget as real)
  }

  /** Long context wins, then complexity, then budget pressure downgrades one step. */
  function TierFor(c: Classified): Tier {
    if c.estTokens >= LONG_CONTEXT_THRESHOLD then Long
    else if c.complexity == Investigation && !OverBudget(c.budgetCents, c.spentCents) then Reasoning
    else Fast
  }

  function MaxTokens(t: Tier): int {
    match t
    case Long => 8192
    case Reasoning => 4096
    case Fast => 2048
  }

  function FallbackOrder(t: Tier): seq<Tier> {
    match t
    case Fast => [Reasoning, Long]
    case Reasoning => [Long, Fast]
    case Long => [Reasoning, Fast]
  }

  method FallbacksFor(tiers: Tiers, tier: Tier, primary: string) returns (fb: seq<string>)
    ensures fb == Fallbacks(tiers, FallbackOrder(tier), primary)
  {
    fb := [];
    var order := FallbackOrder(tier);
    for i := 0 to |order|
      invariant fb + Fallbacks(tiers, order[i..], primary) == Fallbacks(tiers, order, primary)
    {
      assert order[i..][1..] == order[i + 1..];
      var v := tiers(order[i]);
      if v != "" && v != primary {
        fb := fb + [v];
      }
    }
  }

  function Fallbacks(tiers: Tiers, order: seq<Tier>, primary: string): seq<string> {
    if order == [] then []
    else
      var v := tiers(order[0]);
      (if v != "" && v != primary then [v] else []) + Fallbacks(tiers, order[1..], primary)
  }

  /** The tier's own model, or the first configured one. */
  function Primary(tiers: Tiers, tier: Tier): string {
    if tiers(tier) != "" then tiers(tier)
    else if tiers(Reasoning) != "" then tiers(Reasoning)
    else if tiers(Long) != "" then tiers(Long)
    else tiers(Fast)
  }

  function Routed(tiers: Tiers, c: Classified): Decision {
    var tier := TierFor(c);
    Decision(tier, Primary(tiers, tier), Fallbacks(tiers, FallbackOrder(tier), Primary(tiers, tier)), MaxTokens(tier))
  }

  method Route(tiers: Tiers, c: Classified) returns (d: Decision)
    ensures d == Routed(tiers, c)
  {
    var tier := Fast;
    if c.estTokens >= LONG_CONTEXT_THRESHOLD {
      tier := Long;
    } else if c.complexity == Investigation {
      tier := Reasoning;
    }
    if c.budgetCents > 0 && c.spentCents > 0.8 * (c.budgetCents as real) && tier == Reasoning {
      tier := Fast;
    }
    var primary := tiers(tier);
    if primary == "" {
      var order := [Reasoning, Long, Fast];
      for i := 0 to |order|
        invariant primary == "" && forall j :: 0 <= j < i ==> tiers(order[j]) == ""
      {
        var v := tiers(order[i]);
        if v != "" {
          primary := v;
          assert i > 0 ==> tiers(order[0]) == "";
          assert i > 1 ==> tiers(order[1]) == "";
          break;
        }
      }
      assert primary == "" ==> tiers(order[0]) == "" && tiers(order[1]) == "" && tiers(order[2]) == "";
    }
    var fb := FallbacksFor(tiers, tier, primary);
    d := Decision(tier, primary, fb, MaxTokens(tier));
  }

  /** A decision names exactly the configured models, with no fallback that repeats the primary. */
  lemma DecisionCoversTheTiers(tiers: Tiers, c: Classified)
    ensures var d := Routed(tiers, c);
      && (forall m :: m != "" ==> (m == d.model || m in d.fallbacks <==> exists t: Tier :: tiers(t) == m))
      && d.model !in d.fallbacks && "" !in d.fallbacks
      && (d.model == "" <==> forall t: Tier :: tiers(t) == "")
  {
    var d := Routed(tiers, c);
    var order := FallbackOrder(d.tier);
    assert order[1..] == [order[1]] && order[1..][1..] == [];
    assert d.fallbacks == Fallbacks(tiers, [order[0], order[1]], d.model);
    TwoFallbacks(tiers, order[0], order[1], d.model);
    forall t: Tier ensures tiers(t) == tiers(d.tier) || tiers(t) == tiers(order[0]) || tiers(t) == tiers(order[1]) {
      assert t == d.tier || t == order[0] || t == order[1];
    }
    forall m | m != "" && (m == d.model || m in d.fallbacks) ensures exists t: Tier :: tiers(t) == m {
      assert tiers(Fast) == m || tiers(Reasoning) == m || tiers(Long) == m;
    }
  }

  lemma TwoFallbacks(tiers: Tiers, a: Tier, b: Tier, primary: string)
    ensures forall m :: m in Fallbacks(tiers, [a, b], primary) <==>
                        m != "" && m != primary && (m == tiers(a) || m == tiers(b))
  {
    assert [a, b][1..] == [b] && [b][1..] == [];
    assert Fallbacks(tiers, [b], primary) == if tiers(b) != "" && tiers(b) != primary then [tiers(b)] else [];
  }

  /** As a run goes on the history only grows and spending only rises, so these choices are final. */
  lemma ChoicesAreFinal(earlier: Classified, later: Classified)
    requires later.estTokens >= earlier.estTokens && later.spentCents >= earlier.spentCents
    requires later.budgetCents == earlier.budgetCents
    ensures TierFor(earlier) == Long ==> TierFor(later) == Long
    ensures OverBudget(earlier.budgetCents, earlier.spentCents) ==> TierFor(later) != Reasoning
  {}

  /** Rising spending is needed: once it falls below the threshold again, the reasoning tier comes back. */
  lemma RefundReopensReasoning(c: Classified, spent: real)
    requires c.complexity == Investigation && c.estTokens < LONG_CONTEXT_THRESHOLD
    requires OverBudget(c.budgetCents, c.spentCents) && !OverBudget(c.budgetCents, spent)
    ensures TierFor(c) == Fast && TierFor(c.(spentCents := spent)) == Reasoning
  {}

  // ----- the rules, in plain terms -----

  /** Investigation is what happens in a tool loop, and what is asked for with one of these words. */
  lemma ClassTells(lowered: string, estTokens: nat, inToolLoop: bool, budget: int, spent: real)
    ensures var c := Class(lowered, estTokens, inToolLoop, budget, spent);
      && (c.complexity == Investigation <==>
            inToolLoop || exists k, a, b :: k in ["why", "investigate", "debug", "root cause", "fix", "remediate", "optimize",
                                                  "audit", "diagnose", "unavailable", "failing"] && lowered == a + k + b)
      && c.estTokens == estTokens && c.budgetCents == budget && c.spentCents == spent
  {
    forall i | 0 <= i < |KEYWORDS| ensures Contains(lowered, KEYWORDS[i]) <==> exists a, b :: lowered == a + KEYWORDS[i] + b {
      ContainsTells(lowered, KEYWORDS[i]);
    }
    if k, a, b :| k in KEYWORDS && lowered == a + k + b {
      var i :| 0 <= i < |KEYWORDS| && KEYWORDS[i] == k;
      assert Contains(lowered, KEYWORDS[i]);
    }
    if i :| 0 <= i < |KEYWORDS| && Contains(lowered, KEYWORDS[i]) {
      var a, b :| lowered == a + KEYWORDS[i] + b;
      assert KEYWORDS[i] in KEYWORDS;
    }
  }

  /** From 150000 tokens on the long tier; else the reasoning tier for an investigation within 80% of a positive budget; else the fast tier. */
  lemma RouteTells(tiers: Tiers, c: Classified)
    ensures var d := Routed(tiers, c);
      && (d.tier == Long <==> c.estTokens >= 150000)
      && (d.tier == Reasoning <==>
            c.estTokens < 150000 && c.complexity == Investigation
            && (c.budgetCents <= 0 || 5.0 * c.spentCents <= 4.0 * (c.budgetCents as real)))
      && d.maxTokens == (if d.tier == Long then 8192 else if d.tier == Reasoning then 4096 else 2048)
      && d.model == (if tiers(d.tier) != "" then tiers(d.tier) else if tiers(Reasoning) != "" then tiers(Reasoning)
                     else if tiers(Long) != "" then tiers(Long) else tiers(Fast))
  {}

  /** The fallbacks, best first, without empty ones and without the primary. */
  lemma FallbacksTell(tiers: Tiers, c: Classified)
    ensures var d := Routed(tiers, c);
      var first, second := if d.tier == Reasoning then Long else Reasoning, if d.tier == Fast then Long else Fast;
      d.fallbacks == (if tiers(first) != "" && tiers(first) != d.model then [tiers(first)] else [])
                     + (if tiers(second) != "" && tiers(second) != d.model then [tiers(second)] else [])
  {
    var d := Routed(tiers, c);
    var order := FallbackOrder(d.tier);
    assert order[1..] == [order[1]] && order[1..][1..] == [];
    assert Fallbacks(tiers, order[1..], d.model) == (if tiers(order[1]) != "" && tiers(order[1]) != d.model then [tiers(order[1])] else []) + [];
  }
}
