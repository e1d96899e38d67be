/** The shared store of a system of processes is a store like any other: what holds over its runs holds here. */
module SystemSpending {
  import opened Wrappers
  import opened Pricing
  import opened Ceilings
  import opened LedgerHistory
  import opened GateProcess
  import opened TwoTier
  import D = DurableSpec

  /** What a step asks of the store. */
  ghost function OpOf(s: System, step: Step): Option<D.Op> {
    match step
    case ReserveDurably(c, durableId, dbDay) =>
      if c in s.calls && s.calls[c].call.Reserving? && durableId !in s.store.reservations
      then Some(D.ReserveOp(durableId, s.calls[c].call.req, s.calls[c].call.config, D.Moment(s.today, dbDay)))
      else None
    case SettleDurably(c) =>
      if c in s.calls && s.calls[c].call.Settling?
      then Some(D.SettleOp(s.calls[c].call.m.tenantId, s.calls[c].call.durableId, s.calls[c].call.actualUsd))
      else None
    case ReleaseDurably(c) =>
      if c in s.calls && s.calls[c].call.Releasing?
      then Some(D.ReleaseOp(s.calls[c].call.m.tenantId, s.calls[c].call.durableId))
      else None
    case _ => None
  }

  ghost function OpsOf(source: D.CeilingSource, today: D.Day, steps: seq<Step>): seq<D.Op> {
    if steps == [] then []
    else
      var before := steps[..|steps| - 1];
      var ops, op := OpsOf(source, today, before), OpOf(Run(source, today, before), steps[|steps| - 1]);
      if op.Some? then ops + [op.value] else ops
  }

  lemma NextExecutes(s: System, step: Step)
    ensures Next(s, step).source == s.source
    ensures var op := OpOf(s, step);
            Next(s, step).store == if op.Some? then D.Exec(s.source, s.store, op.value) else s.store
  {
    hide LocalVerdict, Touch, Mirror, FinishResolve, D.Admissible, D.BumpLevels, D.ShiftLevels;
  }

  /** The store of a run is what its operations make of an empty store, in the order they came. */
  lemma {:induction false} StoreIsARun(source: D.CeilingSource, today: D.Day, steps: seq<Step>)
    ensures Run(source, today, steps).source == source
    ensures Run(source, today, steps).store == D.After(source, OpsOf(source, today, steps))
  {
    hide Next, OpOf, D.Exec;
    if steps != [] {
      var before := steps[..|steps| - 1];
      var s := Run(source, today, before);
      StoreIsARun(source, today, before);
      NextExecutes(s, steps[|steps| - 1]);
      var op := OpOf(s, steps[|steps| - 1]);
      if op.Some? {
        D.Then(source, OpsOf(source, today, before), op.value);
      }
    }
  }

  /** Every decision for a tenant is made under that tenant's one configuration. */
  predicate DecidesUnder(steps: seq<Step>, configs: map<Id, CeilingConfig>) {
    forall i :: 0 <= i < |steps| && steps[i].Decide? ==>
                  steps[i].tenantId in configs && steps[i].config == configs[steps[i].tenantId]
  }

  predicate AsksUnder(call: Call, configs: map<Id, CeilingConfig>) {
    call.Reserving? ==> call.req.tenantId in configs && call.config == configs[call.req.tenantId]
  }

  ghost predicate CallsUnder(s: System, configs: map<Id, CeilingConfig>) {
    forall c :: c in s.calls ==> AsksUnder(s.calls[c].call, configs)
  }

  lemma NextAsksUnder(s: System, step: Step, configs: map<Id, CeilingConfig>)
    requires CallsUnder(s, configs)
    requires step.Decide? ==> step.tenantId in configs && step.config == configs[step.tenantId]
    ensures CallsUnder(Next(s, step), configs)
  {
    hide LocalVerdict, Touch, Mirror, FinishResolve, D.Exec, D.Admissible;
  }

  lemma {:induction false} RunAsksUnder(source: D.CeilingSource, today: D.Day, steps: seq<Step>,
                                        configs: map<Id, CeilingConfig>)
    requires DecidesUnder(steps, configs)
    ensures CallsUnder(Run(source, today, steps), configs)
    ensures D.FixedCeilings(OpsOf(source, today, steps), configs)
  {
    hide Next, CallsUnder;
    if steps == [] {
      NothingAsked(source, today, configs);
    } else {
      var before, step := steps[..|steps| - 1], steps[|steps| - 1];
      RunAsksUnder(source, today, before, configs);
      NextAsksUnder(Run(source, today, before), step, configs);
      OpAsksUnder(Run(source, today, before), step, configs);
    }
  }

  lemma NothingAsked(source: D.CeilingSource, today: D.Day, configs: map<Id, CeilingConfig>)
    ensures CallsUnder(Boot(source, today), configs)
  {
  }

  lemma OpAsksUnder(s: System, step: Step, configs: map<Id, CeilingConfig>)
    requires CallsUnder(s, configs)
    ensures var op := OpOf(s, step);
            op.Some? && op.value.ReserveOp? ==>
              op.value.req.tenantId in configs && op.value.config == configs[op.value.req.tenantId]
  {
    if step.ReserveDurably? && step.c in s.calls {
      assert AsksUnder(s.calls[step.c].call, configs);
    }
  }

  /**
   * However many processes decide, reserve, settle, release, fail and crash in whatever order: each scope's settled and
   * reserved money is at most its recorded ceiling, the overruns of settlements, and what the two clocks lost sight of.
   * Where no settlement overruns, fixed ceilings are kept exactly, by a company month or task-type day while the clocks
   * agree, by a role or task type always.
   */
  lemma SystemKeepsCeilings(s: System, today: D.Day, steps: seq<Step>, ops: seq<D.Op>, configs: map<Id, CeilingConfig>,
                            scope: D.Scope)
    requires s == Run(s.source, today, steps) && ops == OpsOf(s.source, today, steps) && scope in s.store.counters
    requires s.source.AsRecorded? || DecidesUnder(steps, configs)
    ensures s.store.counters[scope].ceilingUsd.Some? ==>
              D.Committed(s.store.reservations, scope)
              <= s.store.counters[scope].ceilingUsd.value + D.Overruns(s.source, ops, scope)
                 + D.Strays(s.source, ops, scope)
    ensures && DecidesUnder(steps, configs) && D.SettlesWithinReserve(s.source, ops)
            && (s.source.AsPassed? || D.ClocksAgree(ops) || D.IsDayless(scope))
            && scope.tenantId in configs && D.CapOn(configs[scope.tenantId], scope).Some? ==>
              D.Committed(s.store.reservations, scope) <= D.CapOn(configs[scope.tenantId], scope).value
  {
    hide *;
    StoreIsARun(s.source, today, steps);
    if DecidesUnder(steps, configs) {
      RunAsksUnder(s.source, today, steps, configs);
      if D.SettlesWithinReserve(s.source, ops) && scope.tenantId in configs
        && (s.source.AsPassed? || D.ClocksAgree(ops) || D.IsDayless(scope)) {
        D.ConfiguredCapsHold(s.source, ops, configs, scope);
      }
    }
    D.SpendingBound(s.source, ops, configs, scope);
  }
}

/** When a local refusal, given without asking the store, may be trusted. */
module Refusals {
  import opened Wrappers
  import opened Pricing
  import opened Sums
  import opened Ceilings
  import opened Gate
  import Estimator
  import opened LedgerHistory
  import opened GateProcess
  import opened TwoTier
  import D = DurableSpec

  /** Whatever amount the store would admit for this tenant, role and task type, the local check admits too. */
  ghost predicate RefusalsSound(source: D.CeilingSource, h: History, st: D.Store, req: D.Request, config: CeilingConfig,
                                today: D.Day) {
    forall amount: Usd :: IsSoundAt(source, h, st, req.(amountUsd := amount), config, today)
  }

  ghost predicate IsSoundAt(source: D.CeilingSource, h: History, st: D.Store, req: D.Request, config: CeilingConfig,
                            today: D.Day)
  {
    D.Admissible(source, st, req, config, today)
    ==> Fits(req.amountUsd, req.roleId, req.taskType, config, SpentOf(h, req.roleId, req.taskType))
  }

  lemma FitsIsRoom(amount: real, roleId: Id, taskType: Id, config: CeilingConfig, spent: Spent)
    ensures Fits(amount, roleId, taskType, config, spent)
            <==> FitsRoom(amount, LocalRoom(roleId, taskType, config, spent))
  {
  }

  /**
   * Local refusals may be trusted exactly when the store's least room, under the ceilings it checks, is at most the
   * room seen locally, or is below zero. That compares one number per level; nothing else of the store or ledger
   * matters.
   */
  lemma RefusalsSoundIff(source: D.CeilingSource, h: History, st: D.Store, req: D.Request, config: CeilingConfig,
                         today: D.Day)
    ensures var durable := D.LeastRoom(source, st, req, config, today);
            var local := LocalRoom(req.roleId, req.taskType, config, SpentOf(h, req.roleId, req.taskType));
            RefusalsSound(source, h, st, req, config, today) <==> IsSpent(durable) || NoMoreRoom(durable, local)
  {
    hide D.Admissible, D.LeastRoom, LocalRoom, Fits, SpentOf, IsSpent, NoMoreRoom;
    var durable := D.LeastRoom(source, st, req, config, today);
    var local := LocalRoom(req.roleId, req.taskType, config, SpentOf(h, req.roleId, req.taskType));
    forall amount: Usd
      ensures IsSoundAt(source, h, st, req.(amountUsd := amount), config, today)
              <==> (FitsRoom(amount, durable) ==> FitsRoom(amount, local))
    {
      D.AdmissibleIsRoom(source, st, req.(amountUsd := amount), config, today);
      D.RoomIgnoresAmount(source, st, req, amount, config, today);
      FitsIsRoom(amount, req.roleId, req.taskType, config, SpentOf(h, req.roleId, req.taskType));
    }
    RoomsCompare(durable, local);
  }

  /** For one tenant's ledger against the store: local totals nowhere exceed durable totals. */
  ghost predicate NowhereAhead(h: History, st: D.Store, tenantId: Id, roleId: Id, taskType: Id, today: D.Day) {
    && Committed(h, Company) <= D.CounterTotal(st.counters, D.CompanyMonth(tenantId, today.month))
    && Committed(h, Role(roleId)) <= D.CounterTotal(st.counters, D.RoleScope(tenantId, roleId))
    && Committed(h, TaskType(taskType)) <= D.CounterTotal(st.counters, D.TaskTypeScope(tenantId, taskType))
  }

  /**
   * The in-memory store checks the ceilings passed. There, refusals may be trusted under every configuration exactly
   * when local totals are nowhere ahead of durable ones.
   */
  lemma AlwaysSoundIff(h: History, st: D.Store, req: D.Request, today: D.Day)
    ensures (forall config :: RefusalsSound(D.AsPassed, h, st, req, config, today))
            <==> NowhereAhead(h, st, req.tenantId, req.roleId, req.taskType, today)
  {
    hide Committed;
    var roleId, taskType := req.roleId, req.taskType;
    var spent := SpentOf(h, roleId, taskType);
    var none := req.(amountUsd := 0.0);
    var company := D.CounterTotal(st.counters, D.CompanyMonth(req.tenantId, today.month));
    var role := D.CounterTotal(st.counters, D.RoleScope(req.tenantId, roleId));
    var ofType := D.CounterTotal(st.counters, D.TaskTypeScope(req.tenantId, taskType));
    if forall config :: RefusalsSound(D.AsPassed, h, st, req, config, today) {
      var high := if company < spent.company then spent.company else company;
      var tight := CeilingConfig(company, map[], map[], map[], None);
      var tightRole := CeilingConfig(high, map[roleId := role], map[], map[], None);
      var tightType := CeilingConfig(high, map[], map[taskType := ofType], map[], None);
      assert RefusalsSound(D.AsPassed, h, st, req, tight, today) && IsSoundAt(D.AsPassed, h, st, none, tight, today);
      assert RefusalsSound(D.AsPassed, h, st, req, tightRole, today)
             && IsSoundAt(D.AsPassed, h, st, none, tightRole, today);
      assert RefusalsSound(D.AsPassed, h, st, req, tightType, today)
             && IsSoundAt(D.AsPassed, h, st, none, tightType, today);
    }
  }

  // ---- Two runs after which a local refusal is wrong -----------------------------------------------------------

  const JANUARY := D.Day(1, 31)
  const FEBRUARY := D.Day(2, 1)
  /** One model, whose short-structured estimate is $36 at the upper bound. */
  const TABLE := PricingTable(Some(0), 1, map["m" := PricingEntry("p", T1, 0.0, 100_000.0)])
  const INPUT := GateInput(0, 0, "", "m", Estimator.ShortStructured, true)
  const REQUEST := D.Request(0, 0, 0, 36.0)
  const ENTRY := Entry(0, 0, 36.0, Settled(36.0))

  function Monthly(usd: real): CeilingConfig {
    CeilingConfig(usd, map[], map[], map[], None)
  }

  /** The $36 task, put to process `proc` under a monthly ceiling. */
  function Spend(c: Id, proc: Id, ceilingUsd: real): Step {
    Decide(c, proc, 0, INPUT, TABLE, Monthly(ceilingUsd), map[], Clock(0, 0, 0))
  }

  lemma EstimateIs36(deps: GateDependencies, ceilingUsd: real)
    requires deps.table == TABLE && deps.clock == Clock(0, 0, 0) && deps.config == Monthly(ceilingUsd)
    ensures var v := EvaluateGateVerdict(INPUT, deps);
            if deps.spent.company + 36.0 <= ceilingUsd
            then v.kind == PROCEED && v.estimate.Some? && v.estimate.value.costUpperBoundUsd == 36.0
            else v.kind == QUEUE && v.reason == OverCeiling(CompanyLevel)
  {
    assert Estimator.EstimateInputTokens("") == 0;
  }

  /** The store once $36 is reserved in January. */
  function ReservedStore(source: D.CeilingSource, ceilingUsd: real): D.Store {
    D.Exec(source, D.EMPTY_STORE, D.ReserveOp(0, REQUEST, Monthly(ceilingUsd), D.Moment(JANUARY, JANUARY)))
  }

  function SettledStore(source: D.CeilingSource, ceilingUsd: real): D.Store {
    D.Exec(source, ReservedStore(source, ceilingUsd), D.SettleOp(0, 0, 36.0))
  }

  // The system after each part of one spend.
  function Asked(source: D.CeilingSource, ceilingUsd: real): System {
    System(source, D.EMPTY_STORE, JANUARY, map[0 := Proc(map[0 := map[]], map[])],
           map[0 := Running(0, Reserving(REQUEST, Monthly(ceilingUsd)))], map[])
  }

  function ReservedHalf(source: D.CeilingSource, ceilingUsd: real): System {
    Asked(source, ceilingUsd).(store := ReservedStore(source, ceilingUsd),
                               calls := map[0 := Running(0, Granted(REQUEST, 0))])
  }

  function ReservedBoth(source: D.CeilingSource, ceilingUsd: real): System {
    ReservedHalf(source, ceilingUsd).(
      procs := map[0 := Proc(map[0 := map[0 := Entry(0, 0, 36.0, Reserved)]], map[0 := Meta(0, 0)])], calls := map[],
      mirrors := map[0 := 0])
  }

  function ToSettle(source: D.CeilingSource, ceilingUsd: real): System {
    ReservedBoth(source, ceilingUsd).(calls := map[0 := Running(0, Settling(0, Meta(0, 0), 36.0))])
  }

  function SettledHalf(source: D.CeilingSource, ceilingUsd: real): System {
    ToSettle(source, ceilingUsd).(store := SettledStore(source, ceilingUsd),
                                  calls := map[0 := Running(0, SettledDurably(0, Meta(0, 0), 36.0))])
  }

  function SettledBoth(source: D.CeilingSource, ceilingUsd: real): System {
    SettledHalf(source, ceilingUsd).(procs := map[0 := Proc(map[0 := map[0 := ENTRY]], map[])], calls := map[])
  }

  lemma SpendDecides(source: D.CeilingSource, ceilingUsd: real)
    requires 36.0 <= ceilingUsd
    ensures Next(Boot(source, JANUARY), Spend(0, 0, ceilingUsd)) == Asked(source, ceilingUsd)
  {
    EmptyLedgerSpentNothing();
    EstimateIs36(DependenciesOf(Boot(source, JANUARY), Spend(0, 0, ceilingUsd)), ceilingUsd);
    hide EvaluateGateVerdict, SpentOf;
  }

  lemma SpendReservesDurably(source: D.CeilingSource, ceilingUsd: real)
    requires 36.0 <= ceilingUsd
    ensures Next(Asked(source, ceilingUsd), ReserveDurably(0, 0, JANUARY)) == ReservedHalf(source, ceilingUsd)
  {
    assert D.Admissible(source, D.EMPTY_STORE, REQUEST, Monthly(ceilingUsd), JANUARY);
    hide D.Exec, D.Admissible;
    assert Asked(source, ceilingUsd).calls[0 := Running(0, Granted(REQUEST, 0))]
           == ReservedHalf(source, ceilingUsd).calls;
  }

  lemma SpendReservesLocally(source: D.CeilingSource, ceilingUsd: real)
    ensures Next(ReservedHalf(source, ceilingUsd), ReserveLocally(0, 0)) == ReservedBoth(source, ceilingUsd)
  {
    hide D.Exec;
    var s, t := ReservedHalf(source, ceilingUsd), ReservedBoth(source, ceilingUsd);
    assert s.calls - {0} == map[];
    assert Mirror(s.procs[0], REQUEST, 0, 0) == t.procs[0] by {
      assert map[][0 := Entry(0, 0, 36.0, Reserved)] == map[0 := Entry(0, 0, 36.0, Reserved)];
    }
    assert s.procs[0 := t.procs[0]] == t.procs;
  }

  lemma SpendSettles(source: D.CeilingSource, ceilingUsd: real)
    requires 36.0 <= ceilingUsd
    ensures Next(ReservedBoth(source, ceilingUsd), BeginSettle(0, 0, 0, 36.0)) == ToSettle(source, ceilingUsd)
    ensures Next(ToSettle(source, ceilingUsd), SettleDurably(0)) == SettledHalf(source, ceilingUsd)
  {
    assert D.Admissible(source, D.EMPTY_STORE, REQUEST, Monthly(ceilingUsd), JANUARY);
    D.ExecWrites(source, D.EMPTY_STORE, D.ReserveOp(0, REQUEST, Monthly(ceilingUsd), D.Moment(JANUARY, JANUARY)));
    hide D.Exec, D.Admissible;
    assert ToSettle(source, ceilingUsd).calls[0 := Running(0, SettledDurably(0, Meta(0, 0), 36.0))]
           == SettledHalf(source, ceilingUsd).calls;
  }

  lemma SpendSettlesLocally(source: D.CeilingSource, ceilingUsd: real)
    ensures Next(SettledHalf(source, ceilingUsd), SettleLocally(0)) == SettledBoth(source, ceilingUsd)
  {
    hide D.Exec;
    var s, t := SettledHalf(source, ceilingUsd), SettledBoth(source, ceilingUsd);
    assert s.calls - {0} == map[];
    var h := map[0 := Entry(0, 0, 36.0, Reserved)];
    assert Resolve(h, 0, Settled(36.0)) == map[0 := ENTRY];
    assert map[0 := h][0 := map[0 := ENTRY]] == map[0 := map[0 := ENTRY]];
    assert map[0 := Meta(0, 0)] - {0} == map[];
    assert FinishResolve(s.procs[0], 0, Meta(0, 0), Settled(36.0)) == t.procs[0];
    assert s.procs[0 := t.procs[0]] == t.procs;
  }

  lemma RunExtends(source: D.CeilingSource, prefix: seq<Step>, step: Step)
    ensures Run(source, JANUARY, prefix + [step]) == Next(Run(source, JANUARY, prefix), step)
  {
    hide Next;
    assert (prefix + [step])[..|prefix|] == prefix;
  }

  function ReserveSteps(ceilingUsd: real): seq<Step> {
    [] + [Spend(0, 0, ceilingUsd)] + [ReserveDurably(0, 0, JANUARY)]
  }

  function SpendSteps(ceilingUsd: real): seq<Step> {
    ReserveSteps(ceilingUsd) + [ReserveLocally(0, 0)] + [BeginSettle(0, 0, 0, 36.0)] + [SettleDurably(0)]
      + [SettleLocally(0)]
  }

  lemma ReserveRun(source: D.CeilingSource, ceilingUsd: real)
    requires 36.0 <= ceilingUsd
    ensures Run(source, JANUARY, ReserveSteps(ceilingUsd)) == ReservedHalf(source, ceilingUsd)
  {
    assert Run(source, JANUARY, []) == Boot(source, JANUARY);
    hide Next, Run, Boot, Asked, ReservedHalf, Spend;
    SpendDecides(source, ceilingUsd);
    SpendReservesDurably(source, ceilingUsd);
    RunExtends(source, [], Spend(0, 0, ceilingUsd));
    RunExtends(source, [] + [Spend(0, 0, ceilingUsd)], ReserveDurably(0, 0, JANUARY));
  }

  lemma SpendRun(source: D.CeilingSource, ceilingUsd: real)
    requires 36.0 <= ceilingUsd
    ensures Run(source, JANUARY, SpendSteps(ceilingUsd)) == SettledBoth(source, ceilingUsd)
  {
    hide Next, Run, ReserveSteps, ReservedHalf, ReservedBoth, ToSettle, SettledHalf, SettledBoth;
    ReserveRun(source, ceilingUsd);
    SpendReservesLocally(source, ceilingUsd);
    SpendSettles(source, ceilingUsd);
    SpendSettlesLocally(source, ceilingUsd);
    var steps := ReserveSteps(ceilingUsd);
    RunExtends(source, steps, ReserveLocally(0, 0));
    RunExtends(source, steps + [ReserveLocally(0, 0)], BeginSettle(0, 0, 0, 36.0));
    RunExtends(source, steps + [ReserveLocally(0, 0)] + [BeginSettle(0, 0, 0, 36.0)], SettleDurably(0));
    RunExtends(source, steps + [ReserveLocally(0, 0)] + [BeginSettle(0, 0, 0, 36.0)]
               + [SettleDurably(0)], SettleLocally(0));
  }

  /** The local gate queues the $36 task for lack of company money, although the store has room for it. */
  ghost predicate RefusesWrongly(s: System, step: Step) {
    && step.Decide? && step.tenantId == 0 && step.input == INPUT
    && LocalVerdict(s, step).kind == QUEUE && LocalVerdict(s, step).reason == OverCeiling(CompanyLevel)
    && D.Admissible(s.source, s.store, REQUEST, step.config, s.today)
  }

  /**
   * A month turns: $36 spent in January still counts locally in February, so a $36 task is queued under any ceiling
   * with room for one and not for two, although no call is under way and the store's February counter is empty. This
   * befalls either kind of store.
   */
  lemma NewMonthMakesLocalRefusalWrong(source: D.CeilingSource, ceilingUsd: real)
    requires 36.0 <= ceilingUsd < 72.0
    ensures var s := Next(Run(source, JANUARY, SpendSteps(ceilingUsd)), NewDay(FEBRUARY));
            RefusesWrongly(s, Spend(1, 0, ceilingUsd)) && s.calls == map[]
  {
    hide *;
    SpendRun(source, ceilingUsd);
    TurnToFebruary(source, ceilingUsd);
    FebruaryRefusal(source, ceilingUsd, SettledBoth(source, ceilingUsd).(today := FEBRUARY));
  }

  lemma TurnToFebruary(source: D.CeilingSource, ceilingUsd: real)
    ensures var s := SettledBoth(source, ceilingUsd).(today := FEBRUARY);
            Next(SettledBoth(source, ceilingUsd), NewDay(FEBRUARY)) == s && s.calls == map[]
  {
    hide SettledStore;
  }

  lemma FebruaryRefusal(source: D.CeilingSource, ceilingUsd: real, s: System)
    requires 36.0 <= ceilingUsd < 72.0 && s == SettledBoth(source, ceilingUsd).(today := FEBRUARY)
    ensures RefusesWrongly(s, Spend(1, 0, ceilingUsd))
  {
    FebruaryIsEmpty(source, ceilingUsd);
    SpentAfterJanuary();
    EstimateIs36(DependenciesOf(s, Spend(1, 0, ceilingUsd)), ceilingUsd);
    hide D.Exec, SpentOf, EvaluateGateVerdict, D.Admissible;
  }

  lemma FebruaryIsEmpty(source: D.CeilingSource, ceilingUsd: real)
    requires 36.0 <= ceilingUsd
    ensures D.Admissible(source, SettledStore(source, ceilingUsd), REQUEST, Monthly(ceilingUsd), FEBRUARY)
  {
    var reserve := D.ReserveOp(0, REQUEST, Monthly(ceilingUsd), D.Moment(JANUARY, JANUARY));
    var reserved, st := ReservedStore(source, ceilingUsd), SettledStore(source, ceilingUsd);
    D.ExecWrites(source, D.EMPTY_STORE, reserve);
    forall level
      ensures D.HasRoom(source, st, level, REQUEST, Monthly(ceilingUsd), FEBRUARY)
    {
      hide D.BumpLevels, D.ShiftLevels, D.Admissible;
      var scope := D.ScopeAt(level, REQUEST, FEBRUARY);
      D.BumpedRow(source, map[], REQUEST, Monthly(ceilingUsd), JANUARY, |D.LEVELS|, scope);
      D.ShiftedRow(reserved.counters, reserved.reservations[0], 0.0, |D.LEVELS|, scope);
    }
  }

  /**
   * A ceiling is lowered below the task's $36 after one was reserved under a ceiling with room for two. The Postgres
   * store goes on checking what it recorded and would admit the second; a quiet process, its ledger empty, queues it.
   */
  lemma LoweredCeilingMakesLocalRefusalWrong(recordedUsd: real, loweredUsd: real)
    requires loweredUsd < 36.0 && 72.0 <= recordedUsd
    ensures var s := Run(D.AsRecorded, JANUARY, ReserveSteps(recordedUsd));
            Quiet(s, 1, 0) && RefusesWrongly(s, Spend(1, 1, loweredUsd))
  {
    hide *;
    ReserveRun(D.AsRecorded, recordedUsd);
    NewcomerIsQuiet(ReservedHalf(D.AsRecorded, recordedUsd), recordedUsd);
    NewcomerQueues(ReservedHalf(D.AsRecorded, recordedUsd), recordedUsd, loweredUsd);
  }

  lemma NewcomerIsQuiet(s: System, recordedUsd: real)
    requires 72.0 <= recordedUsd && s == ReservedHalf(D.AsRecorded, recordedUsd)
    ensures Quiet(s, 1, 0)
  {
    assert D.Admissible(D.AsRecorded, D.EMPTY_STORE, REQUEST, Monthly(recordedUsd), JANUARY);
    var reserve := D.ReserveOp(0, REQUEST, Monthly(recordedUsd), D.Moment(JANUARY, JANUARY));
    D.ExecWrites(D.AsRecorded, D.EMPTY_STORE, reserve);
    hide D.Exec, D.Admissible, D.InScope;
  }

  lemma NewcomerQueues(s: System, recordedUsd: real, loweredUsd: real)
    requires loweredUsd < 36.0 && 72.0 <= recordedUsd && s == ReservedHalf(D.AsRecorded, recordedUsd)
    ensures RefusesWrongly(s, Spend(1, 1, loweredUsd))
  {
    EmptyLedgerSpentNothing();
    EstimateIs36(DependenciesOf(s, Spend(1, 1, loweredUsd)), loweredUsd);
    RecordedCeilingHasRoom(recordedUsd, loweredUsd);
    hide D.Exec, SpentOf, EvaluateGateVerdict, D.Admissible;
  }

  lemma RecordedCeilingHasRoom(recordedUsd: real, loweredUsd: real)
    requires 72.0 <= recordedUsd
    ensures D.Admissible(D.AsRecorded, ReservedStore(D.AsRecorded, recordedUsd), REQUEST, Monthly(loweredUsd), JANUARY)
  {
    var st := ReservedStore(D.AsRecorded, recordedUsd);
    forall level
      ensures D.HasRoom(D.AsRecorded, st, level, REQUEST, Monthly(loweredUsd), JANUARY)
    {
      var scope := D.ScopeAt(level, REQUEST, JANUARY);
      D.BumpedRow(D.AsRecorded, map[], REQUEST, Monthly(recordedUsd), JANUARY, |D.LEVELS|, scope);
    }
  }

  lemma EmptyLedgerSpentNothing()
    ensures SpentOf(map[], 0, 0) == Spent(0.0, 0.0, 0.0)
  {
    forall d, m
      ensures Pool(map[], d, m) == 0.0
    {
      TotalZero(EntryParts(map[], d, m));
    }
  }

  lemma SpentAfterJanuary()
    ensures SpentOf(map[0 := ENTRY], 0, 0).company == 36.0
  {
    EmptyLedgerSpentNothing();
    EntryMovesPool(map[], 0, ENTRY, Company, SettledMoney);
    EntryMovesPool(map[], 0, ENTRY, Company, ReservedMoney);
    assert map[][0 := ENTRY] == map[0 := ENTRY];
  }
}
