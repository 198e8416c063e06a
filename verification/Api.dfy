/** The values that travel between the components: responses, usage, and provider configuration. */
module Api {
  datatype FinishReason = Stop | Length | ContentFilter

  /** Token counts. The gateway only ever builds one through `MakeUsage`. */
  datatype Usage = Usage(promptTokens: int, completionTokens: int, totalTokens: int)

  /** An upstream count below zero is read as zero. */
  function NeverNegative(count: int): int {
    if count < 0 then 0 else count
  }

  function MakeUsage(prompt: int, completion: int, total: int): Usage {
    Usage(NeverNegative(prompt), NeverNegative(completion), NeverNegative(total))
  }

  /** Clamping gives the least count that is neither negative nor below what the upstream sent. */
  lemma ClampIsLeast(prompt: int, completion: int, total: int, bound: nat)
    ensures var u := MakeUsage(prompt, completion, total);
      Clamped(u) && u.promptTokens >= prompt && u.completionTokens >= completion && u.totalTokens >= total
      && (bound >= prompt ==> u.promptTokens <= bound)
      && (bound >= completion ==> u.completionTokens <= bound)
      && (bound >= total ==> u.totalTokens <= bound)
  {
  }

  const NO_USAGE := MakeUsage(0, 0, 0)

  ghost predicate Clamped(u: Usage) {
    u.promptTokens >= 0 && u.completionTokens >= 0 && u.totalTokens >= 0
  }

  datatype Choice = Choice(content: string, finishReason: FinishReason)

  datatype Response = Response(id: string, created: int, model: string, choices: seq<Choice>, usage: Usage)

  /** US dollars per million tokens; a model without a configured price costs nothing. */
  datatype Pricing = Pricing(inputCost: real, outputCost: real)

  const FREE := Pricing(0.0, 0.0)

  datatype Provider = Provider(
    name: string,
    supportedModels: seq<string>,
    priority: int,
    timeout: real,
    modelPricing: map<string, Pricing>)
  {
    function PricingFor(model: string): Pricing {
      if model in modelPricing then modelPricing[model] else FREE
    }

    /** A provider that lists no model takes every model. */
    predicate Wildcard() {
      supportedModels == []
    }

    predicate Serves(model: string) {
      Wildcard() || model in supportedModels
    }
  }

  /** Who a usage record is attributed to: the cache, or a named provider. */
  datatype Origin = FromCache | FromProvider(name: string)

  datatype UsageRecord = UsageRecord(
    keyId: int,
    origin: Origin,
    model: string,
    inputTokens: int,
    outputTokens: int,
    estimatedCost: real)

  function Cost(pricing: Pricing, usage: Usage): real {
    pricing.inputCost * usage.promptTokens as real / 1000000.0
    + pricing.outputCost * usage.completionTokens as real / 1000000.0
  }

  function BuildUsageRecord(keyId: int, origin: Origin, pricing: Pricing, model: string, usage: Usage): UsageRecord {
    UsageRecord(keyId, origin, model, usage.promptTokens, usage.completionTokens, Cost(pricing, usage))
  }

  /** Whatever counts the upstream sent, negative ones included, no record carries a cost below zero. */
  lemma CostNeverNegative(pricing: Pricing, prompt: int, completion: int, total: int)
    requires pricing.inputCost >= 0.0 && pricing.outputCost >= 0.0
    ensures Cost(pricing, MakeUsage(prompt, completion, total)) >= 0.0
  {
    var u := MakeUsage(prompt, completion, total);
    ProductNotNegative(pricing.inputCost, u.promptTokens as real);
    ProductNotNegative(pricing.outputCost, u.completionTokens as real);
  }

  lemma ProductNotNegative(a: real, b: real)
    requires a >= 0.0 && b >= 0.0
    ensures a * b >= 0.0
  {
  }

  /** A million input tokens cost the input price, a million output tokens the output price. */
  lemma PricesAreByTheMillion(pricing: Pricing, total: int)
    ensures Cost(pricing, Usage(1000000, 0, total)) == pricing.inputCost
    ensures Cost(pricing, Usage(0, 1000000, total)) == pricing.outputCost
  {
  }

  /** Splitting a usage in two splits its cost: with the two prices this settles every cost. */
  lemma CostsAdd(pricing: Pricing, u: Usage, v: Usage, total: int)
    ensures Cost(pricing, Usage(u.promptTokens + v.promptTokens, u.completionTokens + v.completionTokens, total))
         == Cost(pricing, u) + Cost(pricing, v)
  {
    ShareAdds(pricing.inputCost, u.promptTokens, v.promptTokens);
    ShareAdds(pricing.outputCost, u.completionTokens, v.completionTokens);
  }

  lemma ShareAdds(price: real, m: int, n: int)
    ensures price * (m + n) as real / 1000000.0 == price * m as real / 1000000.0 + price * n as real / 1000000.0
  {
    assert (m + n) as real == m as real + n as real;
    assert price * (m as real + n as real) == price * m as real + price * n as real;
  }

  /** A provider charges for a model what is configured for that very model, and nothing for any other. */
  lemma ConfiguredPriceIsUsed(provider: Provider, model: string, usage: Usage)
    ensures model in provider.modelPricing ==>
      Cost(provider.PricingFor(model), usage) ==
      provider.modelPricing[model].inputCost * usage.promptTokens as real / 1000000.0
      + provider.modelPricing[model].outputCost * usage.completionTokens as real / 1000000.0
    ensures model !in provider.modelPricing ==> Cost(provider.PricingFor(model), usage) == 0.0
  {
  }

  lemma FreeCostsNothing(usage: Usage)
    ensures Cost(FREE, usage) == 0.0
  {
  }
}
