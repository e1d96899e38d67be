/** The versioned price table: data that refuses to answer once it is stale. */
module Pricing {
  import opened Wrappers

  /** An amount of money. */
  type Usd = x: real | 0.0 <= x

  const DAY_MS := 86_400_000

  datatype Tier = T1 | T2 | T3

  datatype PricingEntry = PricingEntry(provider: string, tier: Tier, inputPerMTok: Usd, outputPerMTok: Usd)

  /** `lastVerifiedMs` is None when the date in the table does not parse. */
  datatype PricingTable = PricingTable(lastVerifiedMs: Option<int>, staleAfterDays: int,
                                       prices: map<string, PricingEntry>)

  datatype PriceError = StaleTable | UnknownModel

  /** The table may be trusted at time `now`. */
  predicate Fresh(table: PricingTable, now: int) {
    table.lastVerifiedMs.Some? && now - table.lastVerifiedMs.value <= table.staleAfterDays * DAY_MS
  }

  function PriceFor(table: PricingTable, model: string, now: int): Result<PricingEntry, PriceError> {
    if !Fresh(table, now) then Err(StaleTable)
    else if model !in table.prices then Err(UnknownModel)
    else Ok(table.prices[model])
  }
}

/** Tier routing: one step up on a failed validation, one step down when money is short. */
module TierRouter {
  import opened Wrappers
  import opened Pricing

  datatype TierModelMap = TierModelMap(t1: string, t2: string, t3: string)

  function TierOneStepDown(tier: Tier): Option<Tier> {
    match tier
    case T3 => Some(T2)
    case T2 => Some(T1)
    case T1 => None
  }

  function SelectModel(tier: Tier, models: TierModelMap): string {
    match tier
    case T1 => models.t1
    case T2 => models.t2
    case T3 => models.t3
  }
}

/** Pre-flight cost estimates. */
module Estimator {
  import opened Wrappers
  import opened Pricing

  datatype OutputClass = ShortStructured | Prose

  datatype CostEstimate = CostEstimate(
    model: string,
    inputTokens: nat,
    outputTokens: nat,
    marginRatio: real,
    costLowerBoundUsd: Usd,
    costUpperBoundUsd: Usd)

  function BaseTokens(outputClass: OutputClass): nat {
    if outputClass.ShortStructured? then 300 else 1200
  }

  function MarginRatio(outputClass: OutputClass): real {
    if outputClass.ShortStructured? then 0.2 else 0.4
  }

  /** Four characters a token, rounded up. */
  function EstimateInputTokens(payload: string): nat {
    (|payload| + 3) / 4
  }

  function BaseCost(inputTokens: nat, outputTokens: nat, price: PricingEntry): (cost: Usd) {
    var million := 1_000_000.0;
    (inputTokens as real / million) * price.inputPerMTok + (outputTokens as real / million) * price.outputPerMTok
  }

  function EstimateCost(payload: string, model: string, outputClass: OutputClass, table: PricingTable, now: int)
    : Result<CostEstimate, PriceError>
  {
    match PriceFor(table, model, now)
    case Err(e) => Err(e)
    case Ok(price) =>
      var input := EstimateInputTokens(payload);
      var output := BaseTokens(outputClass);
      var margin := MarginRatio(outputClass);
      var baseCost := BaseCost(input, output, price);
      Ok(CostEstimate(model, input, output, margin, baseCost * (1.0 - margin), baseCost * (1.0 + margin)))
  }

  /**
   * The gate's bound errs upward: tokens cover the payload, the price is that of a million tokens scaled down, and the
   * upper bound is a fifth or two fifths above it, as far as the lower bound is below. Prose is taken for four times
   * the output of a short structure.
   */
  lemma EstimateErrsUpward(payload: string, model: string, outputClass: OutputClass, table: PricingTable, now: int)
    requires EstimateCost(payload, model, outputClass, table, now).Ok?
    ensures var e := EstimateCost(payload, model, outputClass, table, now).value;
            var price := table.prices[model];
            var perMillion := e.inputTokens as real * price.inputPerMTok + e.outputTokens as real * price.outputPerMTok;
            && e.model == model && |payload| <= 4 * e.inputTokens < |payload| + 4
            && e.outputTokens == (if outputClass.Prose? then 1200 else 300)
            && 1_000_000.0 * (e.costUpperBoundUsd + e.costLowerBoundUsd) == 2.0 * perMillion
            && 1_000_000.0 * e.costUpperBoundUsd == perMillion * (if outputClass.Prose? then 1.4 else 1.2)
            && e.costLowerBoundUsd <= e.costUpperBoundUsd
  {
    var e, price := EstimateCost(payload, model, outputClass, table, now).value, table.prices[model];
    var base := BaseCost(e.inputTokens, e.outputTokens, price);
    Scaled(e.inputTokens as real, price.inputPerMTok);
    Scaled(e.outputTokens as real, price.outputPerMTok);
    assert 1_000_000.0 * base
           == e.inputTokens as real * price.inputPerMTok + e.outputTokens as real * price.outputPerMTok;
  }

  lemma Scaled(tokens: real, price: real)
    ensures 1_000_000.0 * ((tokens / 1_000_000.0) * price) == tokens * price
  {
  }

  /** A shorter payload never has a higher upper bound at the same model, class and time. */
  lemma ShorterPayloadCostsNoMore(short: string, long: string, model: string, outputClass: OutputClass,
                                  table: PricingTable, now: int)
    requires |short| <= |long|
    ensures var s, l := EstimateCost(short, model, outputClass, table, now),
                        EstimateCost(long, model, outputClass, table, now);
            s.Ok? == l.Ok? && (s.Ok? ==> s.value.costUpperBoundUsd <= l.value.costUpperBoundUsd)
  {
    if PriceFor(table, model, now).Ok? {
      var price, output, margin := PriceFor(table, model, now).value, BaseTokens(outputClass), MarginRatio(outputClass);
      var s, l := EstimateInputTokens(short), EstimateInputTokens(long);
      BaseCostGrows(s, l, output, price);
      hide BaseCost;
      TimesGrows(BaseCost(s, output, price), BaseCost(l, output, price), 1.0 + margin);
    }
  }

  lemma BaseCostGrows(s: nat, l: nat, output: nat, price: PricingEntry)
    requires s <= l
    ensures BaseCost(s, output, price) <= BaseCost(l, output, price)
  {
    var a, b := s as real / 1_000_000.0, l as real / 1_000_000.0;
    assert a <= b;
    TimesGrows(a, b, price.inputPerMTok);
  }

  lemma TimesGrows(a: real, b: real, factor: real)
    requires a <= b && 0.0 <= factor
    ensures a * factor <= b * factor
  {
  }
}
