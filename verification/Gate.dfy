/** Spending ceilings at company, role and task-type level. */
module Ceilings {
  import opened Wrappers
  import opened Pricing

  /** Ceilings of one tenant. A missing key, or None, means no cap at that level. */
  datatype CeilingConfig = CeilingConfig(
    companyMonthlyUsd: real,
    perRoleUsd: map<Id, real>,
    perTaskTypeUsd: map<Id, real>,
    perTaskTypePerDayUsd: map<Id, real>,
    perTaskTypePerDayDefaultUsd: Option<real>)

  datatype CeilingLevel = CompanyLevel | RoleLevel | TaskTypeLevel | TaskTypeDayLevel

  datatype CeilingCheck = Within | Exceeds(level: CeilingLevel)

  /** What a ledger has committed (settled plus reserved) at the three levels one request touches. */
  datatype Spent = Spent(company: real, role: real, taskType: real)

  function CheckCeilings(additionalUsd: real, roleId: Id, taskType: Id, config: CeilingConfig, spent: Spent)
    : CeilingCheck
  {
    if spent.company + additionalUsd > config.companyMonthlyUsd then Exceeds(CompanyLevel)
    else if roleId in config.perRoleUsd && spent.role + additionalUsd > config.perRoleUsd[roleId]
    then Exceeds(RoleLevel)
    else if taskType in config.perTaskTypeUsd && spent.taskType + additionalUsd > config.perTaskTypeUsd[taskType]
    then Exceeds(TaskTypeLevel)
    else Within
  }

  /** `amount` on top of `spent` stays under a cap, when there is one. */
  predicate Under(cap: Option<real>, spent: real, amount: real) {
    cap.Some? ==> spent + amount <= cap.value
  }

  function Cap(caps: map<Id, real>, key: Id): Option<real> {
    if key in caps then Some(caps[key]) else None
  }

  /** Reference meaning of the check: all three levels have room. */
  predicate Fits(amount: real, roleId: Id, taskType: Id, config: CeilingConfig, spent: Spent) {
    && Under(Some(config.companyMonthlyUsd), spent.company, amount)
    && Under(Cap(config.perRoleUsd, roleId), spent.role, amount)
    && Under(Cap(config.perTaskTypeUsd, taskType), spent.taskType, amount)
  }

  /** What is left under a cap; None is no limit. */
  function RoomUnder(cap: Option<real>, spent: real): Option<real> {
    if cap.Some? then Some(cap.value - spent) else None
  }

  function Tighter(a: Option<real>, b: Option<real>): Option<real> {
    if a.None? then b else if b.None? || a.value <= b.value then a else b
  }

  predicate FitsRoom(amount: real, room: Option<real>) {
    room.Some? ==> amount <= room.value
  }

  /** No amount fits: not even nothing. */
  predicate IsSpent(room: Option<real>) {
    room.Some? && room.value < 0.0
  }

  predicate NoMoreRoom(a: Option<real>, b: Option<real>) {
    b.Some? ==> a.Some? && a.value <= b.value
  }

  /** The least room of the three levels. */
  function LocalRoom(roleId: Id, taskType: Id, config: CeilingConfig, spent: Spent): Option<real> {
    Tighter(RoomUnder(Some(config.companyMonthlyUsd), spent.company),
            Tighter(RoomUnder(Cap(config.perRoleUsd, roleId), spent.role),
                    RoomUnder(Cap(config.perTaskTypeUsd, taskType), spent.taskType)))
  }

  /** Whatever fits one room fits the other exactly when the one has no more room, or no room at all. */
  lemma RoomsCompare(a: Option<real>, b: Option<real>)
    ensures (forall amount: Usd :: FitsRoom(amount, a) ==> FitsRoom(amount, b)) <==> IsSpent(a) || NoMoreRoom(a, b)
  {
    if forall amount: Usd :: FitsRoom(amount, a) ==> FitsRoom(amount, b) {
      if b.Some? && !IsSpent(a) {
        var probe: Usd := if a.Some? then a.value else if 0.0 <= b.value then b.value + 1.0 else 0.0;
        assert FitsRoom(probe, a);
      }
    }
  }

  /** Every cap of `high` is at least the cap of `low`; `high` may lift a cap altogether. */
  predicate NoStricter(high: CeilingConfig, low: CeilingConfig) {
    && low.companyMonthlyUsd <= high.companyMonthlyUsd
    && (forall role :: role in high.perRoleUsd ==>
                         role in low.perRoleUsd && low.perRoleUsd[role] <= high.perRoleUsd[role])
    && (forall t :: t in high.perTaskTypeUsd ==>
                      t in low.perTaskTypeUsd && low.perTaskTypeUsd[t] <= high.perTaskTypeUsd[t])
  }

  predicate SpentNoMore(a: Spent, b: Spent) {
    a.company <= b.company && a.role <= b.role && a.taskType <= b.taskType
  }
}

/** The pure, fail-closed decision: proceed, downgrade one tier, queue or skip. */
module Gate {
  import opened Wrappers
  import opened Pricing
  import opened TierRouter
  import opened Estimator
  import opened Ceilings

  datatype GateVerdictKind = PROCEED | DOWNGRADE | QUEUE | SKIP

  /** Why the verdict was given (the source words this as a sentence). */
  datatype Reason =
    | WithinAllCeilings
    | EstimatorFailed(error: PriceError)
    | DowngradeFits(fromModel: string)
    | OverCeiling(level: CeilingLevel)
    | OverDurableCeiling(level: CeilingLevel)

  datatype GateVerdict = GateVerdict(
    kind: GateVerdictKind, reason: Reason, model: string, estimate: Option<CostEstimate>)

  datatype GateInput = GateInput(
    roleId: Id,
    taskType: Id,
    payload: string,
    model: string,
    outputClass: OutputClass,
    batchable: bool)

  type TierModelMapsByProvider = map<string, TierModelMap>

  /** The price table reads the clock at each lookup; these are the three readings one evaluation can make. */
  datatype Clock = Clock(estimate: int, tierLookup: int, downgradeEstimate: int)

  /** What one evaluation depends on besides the request. */
  datatype GateDependencies = GateDependencies(
    table: PricingTable, config: CeilingConfig, spent: Spent, modelMaps: TierModelMapsByProvider, clock: Clock)

  function EvaluateGateVerdict(input: GateInput, deps: GateDependencies): GateVerdict {
    match EstimateCost(input.payload, input.model, input.outputClass, deps.table, deps.clock.estimate)
    case Err(e) => GateVerdict(QUEUE, EstimatorFailed(e), input.model, None)
    case Ok(estimate) =>
      match CheckCeilings(estimate.costUpperBoundUsd, input.roleId, input.taskType, deps.config, deps.spent)
      case Within => GateVerdict(PROCEED, WithinAllCeilings, input.model, Some(estimate))
      case Exceeds(level) =>
        match TryDowngrade(input, deps)
        case Some(verdict) => verdict
        case None =>
          GateVerdict(if input.batchable then QUEUE else SKIP, OverCeiling(level), input.model, Some(estimate))
  }

  function TryDowngrade(input: GateInput, deps: GateDependencies): Option<GateVerdict> {
    match PriceFor(deps.table, input.model, deps.clock.tierLookup)
    case Err(_) => None
    case Ok(current) =>
      match TierOneStepDown(current.tier)
      case None => None
      case Some(lower) =>
        if current.provider !in deps.modelMaps then None
        else
          var model := SelectModel(lower, deps.modelMaps[current.provider]);
          match EstimateCost(input.payload, model, input.outputClass, deps.table, deps.clock.downgradeEstimate)
          case Err(_) => None
          case Ok(estimate) =>
            match CheckCeilings(estimate.costUpperBoundUsd, input.roleId, input.taskType, deps.config, deps.spent)
            case Exceeds(_) => None
            case Within => Some(GateVerdict(DOWNGRADE, DowngradeFits(input.model), model, Some(estimate)))
  }

  // ---- What the verdict means ----------------------------------------------------------------------------------

  /** `model` can be priced at `now` and its upper bound has room at every level. */
  predicate Affordable(input: GateInput, model: string, deps: GateDependencies, now: int) {
    var estimate := EstimateCost(input.payload, model, input.outputClass, deps.table, now);
    estimate.Ok? && Fits(estimate.value.costUpperBoundUsd, input.roleId, input.taskType, deps.config, deps.spent)
  }

  /** `lower` is the same provider's model exactly one tier below the requested one, by a table still fresh. */
  predicate OneTierBelow(input: GateInput, lower: string, deps: GateDependencies) {
    && Fresh(deps.table, deps.clock.tierLookup)
    && input.model in deps.table.prices
    && var entry := deps.table.prices[input.model];
    && entry.provider in deps.modelMaps
    && var models := deps.modelMaps[entry.provider];
    || (entry.tier == T3 && lower == models.t2)
    || (entry.tier == T2 && lower == models.t1)
  }

  ghost predicate CanDowngrade(input: GateInput, deps: GateDependencies) {
    exists lower :: OneTierBelow(input, lower, deps) && Affordable(input, lower, deps, deps.clock.downgradeEstimate)
  }

  /**
   * The verdict, characterised. PROCEED and DOWNGRADE are given exactly when money is provably there, at the requested
   * model and at the one-step-lower model of the same provider; a request that cannot be priced is always queued; a
   * priced request that does not fit is queued or skipped by `batchable` alone. What runs carries an estimate of the
   * very model that runs, and a downgrade is strictly cheaper than what was refused.
   */
  lemma VerdictCharacterised(input: GateInput, deps: GateDependencies)
    ensures var v := EvaluateGateVerdict(input, deps);
            var asked := EstimateCost(input.payload, input.model, input.outputClass, deps.table, deps.clock.estimate);
            var fits := Affordable(input, input.model, deps, deps.clock.estimate);
            && (asked.Ok? <==> Fresh(deps.table, deps.clock.estimate) && input.model in deps.table.prices)
            && (v.kind == PROCEED <==> fits)
            && (v.kind == DOWNGRADE <==> asked.Ok? && !fits && CanDowngrade(input, deps))
            && (v.kind == QUEUE <==> asked.Err? || (!fits && !CanDowngrade(input, deps) && input.batchable))
            && (v.kind == SKIP <==> asked.Ok? && !fits && !CanDowngrade(input, deps) && !input.batchable)
            && (v.kind == DOWNGRADE ==> OneTierBelow(input, v.model, deps)
                                        && Affordable(input, v.model, deps, deps.clock.downgradeEstimate))
            && (v.kind != DOWNGRADE ==> v.model == input.model)
            && (v.kind in {PROCEED, DOWNGRADE} ==>
                  && v.estimate.Some? && v.estimate.value.model == v.model
                  && Fits(v.estimate.value.costUpperBoundUsd, input.roleId, input.taskType, deps.config, deps.spent))
            && (v.kind == DOWNGRADE ==> v.estimate.value.costUpperBoundUsd < asked.value.costUpperBoundUsd)
  {
    var v := EvaluateGateVerdict(input, deps);
    if v.kind == DOWNGRADE {
      assert OneTierBelow(input, v.model, deps);
    } else if CanDowngrade(input, deps) {
      var lower :| OneTierBelow(input, lower, deps) && Affordable(input, lower, deps, deps.clock.downgradeEstimate);
      assert TryDowngrade(input, deps).Some?;
    }
  }

  /**
   * A refusal is about money exactly when the request could be priced: a stale table or an unknown model also queues,
   * whatever the ceilings.
   */
  lemma RefusalIsAboutMoneyIff(input: GateInput, deps: GateDependencies)
    requires EvaluateGateVerdict(input, deps).kind in {QUEUE, SKIP}
    ensures EvaluateGateVerdict(input, deps).reason.OverCeiling? <==>
            Fresh(deps.table, deps.clock.estimate) && input.model in deps.table.prices
    ensures EvaluateGateVerdict(input, deps).reason.OverCeiling? ==>
              !Affordable(input, input.model, deps, deps.clock.estimate) && !CanDowngrade(input, deps)
  {
    VerdictCharacterised(input, deps);
  }

  // ---- The verdict in the table's and the configuration's own terms --------------------------------------------

  /** Verified too many days ago, or on a date that does not parse. */
  predicate TooOld(table: PricingTable, now: int) {
    table.lastVerifiedMs.None? || now - table.lastVerifiedMs.value > table.staleAfterDays * 86_400_000
  }

  lemma NotNegative(a: real, b: real)
    requires 0.0 <= a && 0.0 <= b
    ensures 0.0 <= a * b
  {
  }

  /** What a call is taken to cost at most. */
  function UpperBoundUsd(payload: string, outputClass: OutputClass, price: PricingEntry): Usd {
    var input, output := ((|payload| + 3) / 4) as real, if outputClass.Prose? then 1200.0 else 300.0;
    NotNegative(input, price.inputPerMTok);
    NotNegative(output, price.outputPerMTok);
    var perMillion := input * price.inputPerMTok + output * price.outputPerMTok;
    perMillion * (if outputClass.Prose? then 1.4 else 1.2) / 1_000_000.0
  }

  predicate StaysUnder(usd: real, level: CeilingLevel, input: GateInput, config: CeilingConfig, spent: Spent) {
    match level
    case CompanyLevel => spent.company + usd <= config.companyMonthlyUsd
    case RoleLevel => input.roleId in config.perRoleUsd ==> spent.role + usd <= config.perRoleUsd[input.roleId]
    case TaskTypeLevel =>
      input.taskType in config.perTaskTypeUsd ==> spent.taskType + usd <= config.perTaskTypeUsd[input.taskType]
    case TaskTypeDayLevel => true
  }

  /** A price that may be trusted at `now`, and room for it everywhere. */
  predicate CanRun(input: GateInput, model: string, deps: GateDependencies, now: int) {
    && !TooOld(deps.table, now) && model in deps.table.prices
    && var usd := UpperBoundUsd(input.payload, input.outputClass, deps.table.prices[model]);
       forall level :: StaysUnder(usd, level, input, deps.config, deps.spent)
  }

  lemma EstimateIsBound(payload: string, model: string, outputClass: OutputClass, table: PricingTable, now: int)
    ensures var e := EstimateCost(payload, model, outputClass, table, now);
            && (e == Err(StaleTable) <==> TooOld(table, now))
            && (e == Err(UnknownModel) <==> !TooOld(table, now) && model !in table.prices)
            && (e.Ok? <==> !TooOld(table, now) && model in table.prices)
            && (e.Ok? ==> && e.value.model == model
                          && e.value.costUpperBoundUsd == UpperBoundUsd(payload, outputClass, table.prices[model]))
  {
    if EstimateCost(payload, model, outputClass, table, now).Ok? {
      EstimateErrsUpward(payload, model, outputClass, table, now);
    }
  }

  lemma AffordableIsRunnable(input: GateInput, model: string, deps: GateDependencies, now: int)
    ensures Affordable(input, model, deps, now) <==> CanRun(input, model, deps, now)
  {
    EstimateIsBound(input.payload, model, input.outputClass, deps.table, now);
    hide EstimateCost, UpperBoundUsd, TooOld;
    if Affordable(input, model, deps, now) {
      var usd := UpperBoundUsd(input.payload, input.outputClass, deps.table.prices[model]);
      forall level
        ensures StaysUnder(usd, level, input, deps.config, deps.spent)
      {
      }
    }
    if CanRun(input, model, deps, now) {
      var usd := UpperBoundUsd(input.payload, input.outputClass, deps.table.prices[model]);
      assert StaysUnder(usd, CompanyLevel, input, deps.config, deps.spent);
      assert StaysUnder(usd, RoleLevel, input, deps.config, deps.spent);
      assert StaysUnder(usd, TaskTypeLevel, input, deps.config, deps.spent);
    }
  }

  /**
   * Fail-closed, to the letter: a table verified longer ago than it allows queues every request for that reason alone;
   * an unlisted model of a trusted table queues; what runs was priced from a table trusted at each reading of the
   * clock, and has room for its upper bound at every level; a refusal for money names the first level without room.
   */
  lemma VerdictInFull(input: GateInput, deps: GateDependencies)
    ensures var v, clock := EvaluateGateVerdict(input, deps), deps.clock;
            var listed := input.model in deps.table.prices;
            && (v.reason == EstimatorFailed(StaleTable) <==> TooOld(deps.table, clock.estimate))
            && (v.reason == EstimatorFailed(UnknownModel) <==> !TooOld(deps.table, clock.estimate) && !listed)
            && (v.reason.EstimatorFailed? ==> v == GateVerdict(QUEUE, v.reason, input.model, None))
            && (v.kind == PROCEED <==> CanRun(input, input.model, deps, clock.estimate))
            && (v.kind == PROCEED ==> v.reason == WithinAllCeilings && v.model == input.model)
            && (v.kind == DOWNGRADE ==> v.reason == DowngradeFits(input.model) && !TooOld(deps.table, clock.tierLookup)
                                        && CanRun(input, v.model, deps, clock.downgradeEstimate))
    ensures var v := EvaluateGateVerdict(input, deps);
            v.estimate.Some? ==>
              && v.model in deps.table.prices && v.estimate.value.model == v.model
              && v.estimate.value.costUpperBoundUsd
                 == UpperBoundUsd(input.payload, input.outputClass, deps.table.prices[v.model])
    ensures var v := EvaluateGateVerdict(input, deps);
            v.reason.OverCeiling? ==>
              && v.model == input.model && v.estimate.Some?
              && var usd := v.estimate.value.costUpperBoundUsd;
                 FirstWithoutRoom(usd, v.reason.level, input, deps.config, deps.spent)
  {
    VerdictCharacterised(input, deps);
    var v := EvaluateGateVerdict(input, deps);
    EstimateIsBound(input.payload, input.model, input.outputClass, deps.table, deps.clock.estimate);
    AffordableIsRunnable(input, input.model, deps, deps.clock.estimate);
    if v.kind == DOWNGRADE {
      EstimateIsBound(input.payload, v.model, input.outputClass, deps.table, deps.clock.downgradeEstimate);
      AffordableIsRunnable(input, v.model, deps, deps.clock.downgradeEstimate);
      OldIsNotFresh(deps.table, deps.clock.tierLookup);
    }
    hide EstimateCost, UpperBoundUsd, TooOld, CanRun, CanDowngrade, Fresh, Affordable;
  }

  lemma OldIsNotFresh(table: PricingTable, now: int)
    ensures TooOld(table, now) <==> !Fresh(table, now)
  {
  }

  /** The levels are asked in order. */
  predicate FirstWithoutRoom(usd: real, level: CeilingLevel, input: GateInput, config: CeilingConfig, spent: Spent) {
    && !StaysUnder(usd, level, input, config, spent)
    && (level != CompanyLevel ==> StaysUnder(usd, CompanyLevel, input, config, spent))
    && (level == TaskTypeLevel ==> StaysUnder(usd, RoleLevel, input, config, spent))
  }

  function Rank(kind: GateVerdictKind): nat {
    match kind
    case PROCEED => 2
    case DOWNGRADE => 1
    case QUEUE => 0
    case SKIP => 0
  }

  lemma AffordableMonotone(better: GateInput, worse: GateInput, model: string, easy: GateDependencies,
                           hard: GateDependencies, now: int)
    requires better == worse.(payload := better.payload) && |better.payload| <= |worse.payload|
    requires easy == hard.(config := easy.config, spent := easy.spent)
    requires NoStricter(easy.config, hard.config) && SpentNoMore(easy.spent, hard.spent)
    ensures Affordable(worse, model, hard, now) ==> Affordable(better, model, easy, now)
  {
    ShorterPayloadCostsNoMore(better.payload, worse.payload, model, worse.outputClass, hard.table, now);
  }

  /** Raising or lifting ceilings, spending less so far, or shortening the payload never worsens the verdict's rank. */
  lemma VerdictMonotone(better: GateInput, worse: GateInput, easy: GateDependencies, hard: GateDependencies)
    requires better == worse.(payload := better.payload) && |better.payload| <= |worse.payload|
    requires easy == hard.(config := easy.config, spent := easy.spent)
    requires NoStricter(easy.config, hard.config) && SpentNoMore(easy.spent, hard.spent)
    ensures Rank(EvaluateGateVerdict(worse, hard).kind) <= Rank(EvaluateGateVerdict(better, easy).kind)
  {
    VerdictCharacterised(better, easy);
    VerdictCharacterised(worse, hard);
    AffordableMonotone(better, worse, worse.model, easy, hard, hard.clock.estimate);
    if EvaluateGateVerdict(worse, hard).kind == DOWNGRADE {
      var lower := EvaluateGateVerdict(worse, hard).model;
      AffordableMonotone(better, worse, lower, easy, hard, hard.clock.downgradeEstimate);
      assert OneTierBelow(better, lower, easy);
    }
  }
}
