/** One process's view of the cost gate: a ledger per tenant, and where each durable reservation is mirrored. */
module GateProcess {
  import opened Wrappers
  import opened LedgerHistory
  import DurableSpec

  datatype Meta = Meta(tenantId: Id, localId: Id)

  datatype Proc = Proc(ledgers: map<Id, History>, meta: map<Id, Meta>)

  const FRESH_PROCESS := Proc(map[], map[])

  /** Ledgers are created on first use; a tenant without one has reserved nothing here. */
  function LedgerOf(p: Proc, tenantId: Id): History {
    if tenantId in p.ledgers then p.ledgers[tenantId] else map[]
  }

  function Touch(p: Proc, tenantId: Id): Proc {
    p.(ledgers := p.ledgers[tenantId := LedgerOf(p, tenantId)])
  }

  /** After the durable store granted `durableId`: reserve locally and remember where. */
  function Mirror(p: Proc, req: DurableSpec.Request, durableId: Id, localId: Id): Proc {
    var entry := Entry(req.roleId, req.taskType, req.amountUsd, Reserved);
    Proc(p.ledgers[req.tenantId := LedgerOf(p, req.tenantId)[localId := entry]],
         p.meta[durableId := Meta(req.tenantId, localId)])
  }

  /** The local half of settle or release; the mirror entry goes only when the ledger accepted. */
  function FinishResolve(p: Proc, durableId: Id, m: Meta, phase: Phase): Proc {
    var h := LedgerOf(p, m.tenantId);
    Proc(p.ledgers[m.tenantId := Resolve(h, m.localId, phase)],
         if Resolvable(h, m.localId).Ok? then p.meta - {durableId} else p.meta)
  }
}

/** The stateful wrapper around the pure verdict. Each await of the source ends one of the methods' atomic parts. */
module CostGate {
  import opened Wrappers
  import opened Pricing
  import opened Ceilings
  import opened Gate
  import opened LedgerHistory
  import opened Reservations
  import opened GateProcess
  import opened DurableReservationStore
  import DurableSpec

  datatype GateRequest = GateRequest(tenantId: Id, taskId: Id, input: GateInput)

  datatype GateReservation = GateReservation(id: Id, roleId: Id, taskType: Id, amountUsd: Usd)

  /**
   * `StoreDown` stands for any failure of the durable call that left the store as it was, `NoAnswer` for one after
   * the store had done what was asked, or refused it.
   */
  datatype GateError = NoConfig | NoSuchReservation | StoreDown | NoAnswer | StoreRefused | LedgerRefused | AuditFailed

  /** What an evaluation runs into: its ceilings resolver, the durable reservation, the audit log. */
  datatype Conditions = Conditions(resolverUp: bool, reserve: Link, audit: Link)

  datatype GateResult = GateResult(verdict: GateVerdict, reservation: Option<GateReservation>)

  datatype AuditEntry = AuditEntry(tenantId: Id, taskId: Id, verdict: GateVerdict)

  /** The verdict when the durable store overrules a local yes. */
  function Overruled(input: GateInput, preCheck: GateVerdict, level: CeilingLevel): GateVerdict {
    GateVerdict(if input.batchable then QUEUE else SKIP, OverDurableCeiling(level), input.model, preCheck.estimate)
  }

  /** Only a local verdict that lets the task run goes on to the store. */
  predicate Asks(local: GateVerdict) {
    local.kind in {PROCEED, DOWNGRADE} && local.estimate.Some?
  }

  function RequestOf(request: GateRequest, local: GateVerdict): DurableSpec.Request
    requires local.estimate.Some?
  {
    DurableSpec.Request(request.tenantId, request.input.roleId, request.input.taskType,
                        local.estimate.value.costUpperBoundUsd)
  }

  /** What an evaluation leaves of the store and of this process. */
  datatype Left = Left(store: DurableSpec.Store, proc: Proc)

  /** What one evaluation makes of the local verdict, the store and this process, its own failures included. */
  ghost predicate Decided(source: DurableSpec.CeilingSource, before: Left, after: Left, request: GateRequest,
                          config: CeilingConfig, now: DurableSpec.Moment, local: GateVerdict, durableId: Id,
                          localId: Id, reserve: Link, r: Result<GateResult, GateError>)
  {
    var touched := Touch(before.proc, request.tenantId);
    if !Asks(local) then r == Ok(GateResult(local, None)) && after == Left(before.store, touched)
    else if reserve == NotDone then r == Err(StoreDown) && after == Left(before.store, touched)
    else
      var req := RequestOf(request, local);
      && after.store == DurableSpec.Exec(source, before.store, DurableSpec.ReserveOp(durableId, req, config, now))
      && if reserve == AnswerLost then r == Err(NoAnswer) && after.proc == touched
         else if DurableSpec.Admissible(source, before.store, req, config, now.day) then
           && r == Ok(GateResult(local, Some(GateReservation(durableId, req.roleId, req.taskType, req.amountUsd))))
           && after.proc == Mirror(before.proc, req, durableId, localId)
         else
           && r.Ok? && r.value.verdict.kind == (if request.input.batchable then QUEUE else SKIP)
           && r.value.verdict.reason.OverDurableCeiling? && r.value.reservation.None? && after.proc == touched
           && r.value.verdict.model == request.input.model && r.value.verdict.estimate == local.estimate
           && DurableSpec.RefusedAt(source, before.store, req, config, now.day, r.value.verdict.reason.level)
  }

  /**
   * A reservation in the request's own terms: the upper bound of the model that will run, held open in the store and
   * reserved in this tenant's ledger for the request's role and task type.
   */
  predicate ReservedInFull(table: PricingTable, before: Left, after: Left, request: GateRequest, durableId: Id,
                           localId: Id, clock: Clock, result: GateResult)
  {
    var input, model := request.input, result.verdict.model;
    && !TooOld(table, clock.estimate) && model in table.prices && durableId in after.store.reservations
    && var usd := UpperBoundUsd(input.payload, input.outputClass, table.prices[model]);
    && result.reservation == Some(GateReservation(durableId, input.roleId, input.taskType, usd))
    && after.store.reservations[durableId].status == DurableSpec.Open
    && after.store.reservations[durableId].request
       == DurableSpec.Request(request.tenantId, input.roleId, input.taskType, usd)
    && LedgerOf(after.proc, request.tenantId)
       == LedgerOf(before.proc, request.tenantId)[localId := Entry(input.roleId, input.taskType, usd, Reserved)]
    && after.proc.meta == before.proc.meta[durableId := Meta(request.tenantId, localId)]
  }

  /** A stale table reserves nothing, anywhere; whatever is reserved is reserved in full. */
  lemma DecidedInFull(source: DurableSpec.CeilingSource, before: Left, after: Left, request: GateRequest,
                      deps: GateDependencies, now: DurableSpec.Moment, durableId: Id, localId: Id, reserve: Link,
                      r: Result<GateResult, GateError>)
    requires Decided(source, before, after, request, deps.config, now, EvaluateGateVerdict(request.input, deps),
                     durableId, localId, reserve, r)
    requires durableId !in before.store.reservations
    ensures TooOld(deps.table, deps.clock.estimate) ==>
              && r == Ok(GateResult(GateVerdict(QUEUE, EstimatorFailed(StaleTable), request.input.model, None), None))
              && after == Left(before.store, Touch(before.proc, request.tenantId))
    ensures r.Ok? && r.value.reservation.Some? ==>
              ReservedInFull(deps.table, before, after, request, durableId, localId, deps.clock, r.value)
  {
    var local := EvaluateGateVerdict(request.input, deps);
    VerdictInFull(request.input, deps);
    hide EvaluateGateVerdict, SpentOf, UpperBoundUsd, DurableSpec.Admissible, DurableSpec.RefusedAt,
         DurableSpec.BumpLevels, TooOld, CanRun;
    if r.Ok? && r.value.reservation.Some? {
      DurableSpec.ExecWrites(source, before.store,
                             DurableSpec.ReserveOp(durableId, RequestOf(request, local), deps.config, now));
    }
  }

  /** Each tenant has its own valid ledger, holding the given history. */
  ghost predicate Tracks(ledgers: map<Id, ReservationLedger>, values: map<Id, History>)
    reads ledgers.Values
  {
    && ledgers.Keys == values.Keys
    && (forall t :: t in ledgers ==> ledgers[t].Valid() && ledgers[t].history == values[t])
    && (forall t, u :: t in ledgers && u in ledgers && t != u ==> ledgers[t] != ledgers[u])
  }

  class CostGate {
    const table: PricingTable
    const modelMaps: TierModelMapsByProvider
    var tenantLedgers: map<Id, ReservationLedger>
    var reservationMeta: map<Id, Meta>
    var audit: seq<AuditEntry>
    var skippedEvents: seq<Id>

    /** The same information as a value. */
    ghost var state: Proc

    ghost predicate Valid()
      reads this, tenantLedgers.Values
    {
      state.meta == reservationMeta && Tracks(tenantLedgers, state.ledgers)
    }

    /** The ledgers this process may write: those it had, and new ones. */
    twostate predicate OnlyNewLedgers()
      reads this
    {
      && old(tenantLedgers).Keys <= tenantLedgers.Keys
      && forall t :: t in tenantLedgers ==>
                       if t in old(tenantLedgers) then tenantLedgers[t] == old(tenantLedgers)[t]
                       else fresh(tenantLedgers[t])
    }

    constructor (table: PricingTable, modelMaps: TierModelMapsByProvider)
      ensures Valid() && state == FRESH_PROCESS && audit == [] && skippedEvents == []
      ensures this.table == table && this.modelMaps == modelMaps
    {
      this.table, this.modelMaps := table, modelMaps;
      tenantLedgers, reservationMeta, audit, skippedEvents := map[], map[], [], [];
      state := FRESH_PROCESS;
    }

    method LedgerFor(tenantId: Id) returns (ledger: ReservationLedger)
      requires Valid()
      modifies this`tenantLedgers, this`state
      ensures Valid() && state == Touch(old(state), tenantId) && OnlyNewLedgers()
      ensures tenantId in tenantLedgers && ledger == tenantLedgers[tenantId]
      ensures ledger.Valid() && ledger.history == LedgerOf(old(state), tenantId)
    {
      hide ReservationLedger.Valid;
      if tenantId !in tenantLedgers {
        var created := new ReservationLedger();
        tenantLedgers := tenantLedgers[tenantId := created];
      }
      ledger := tenantLedgers[tenantId];
      state := Touch(state, tenantId);
    }

    /** The fast local pre-check: no await, no reservation. */
    method PreCheck(request: GateRequest, config: CeilingConfig, clock: Clock) returns (verdict: GateVerdict)
      requires Valid()
      modifies this`tenantLedgers, this`state
      ensures Valid() && state == Touch(old(state), request.tenantId) && OnlyNewLedgers()
      ensures verdict == EvaluateGateVerdict(request.input,
                                             GateDependencies(table, config,
                                                              SpentOf(LedgerOf(old(state), request.tenantId),
                                                                      request.input.roleId, request.input.taskType),
                                                              modelMaps, clock))
    {
      hide ReservationLedger.Valid, SpentOf, EvaluateGateVerdict;
      var ledger := LedgerFor(request.tenantId);
      var spent := ledger.ReadSpent(request.input.roleId, request.input.taskType);
      assert ledger.history == LedgerOf(old(state), request.tenantId);
      verdict := EvaluateGateVerdict(request.input, GateDependencies(table, config, spent, modelMaps, clock));
    }

    /** Mirrors a reservation the durable store has granted. */
    method Confirm(req: DurableSpec.Request, durableId: Id, localId: Id)
      requires Valid() && localId !in LedgerOf(state, req.tenantId)
      modifies this`tenantLedgers, this`reservationMeta, this`state, tenantLedgers.Values
      ensures Valid() && OnlyNewLedgers() && state == Mirror(old(state), req, durableId, localId)
    {
      hide Tracks, ReservationLedger.Valid;
      var ledger := LedgerFor(req.tenantId);
      ghost var touched := state;
      ReserveIn(ledger, req, localId);
      reservationMeta := reservationMeta[durableId := Meta(req.tenantId, localId)];
      state := Mirror(old(state), req, durableId, localId);
      assert state.ledgers == Mirror(touched, req, durableId, localId).ledgers;
    }

    method ReserveIn(ledger: ReservationLedger, req: DurableSpec.Request, localId: Id)
      requires Tracks(tenantLedgers, state.ledgers)
      requires req.tenantId in tenantLedgers && ledger == tenantLedgers[req.tenantId] && localId !in ledger.history
      modifies ledger
      ensures Tracks(tenantLedgers, state.ledgers[req.tenantId := LedgerOf(state, req.tenantId)[localId :=
                                      Entry(req.roleId, req.taskType, req.amountUsd, Reserved)]])
    {
      hide ReservationLedger.Valid;
      ledger.Reserve(localId, req.roleId, req.taskType, req.amountUsd);
    }

    /** Where a reservation is mirrored, if this process mirrored it and has not resolved it. */
    function RequireMeta(durableId: Id): Result<Meta, GateError>
      reads this
    {
      if durableId in reservationMeta then Ok(reservationMeta[durableId]) else Err(NoSuchReservation)
    }

    /** The local half of settle, once the durable half is done. */
    method FinishSettle(durableId: Id, m: Meta, actualUsd: Usd) returns (r: Result<(), LedgerError>)
      requires Valid()
      modifies this`tenantLedgers, this`reservationMeta, this`state, tenantLedgers.Values
      ensures Valid() && OnlyNewLedgers() && state == FinishResolve(old(state), durableId, m, Settled(actualUsd))
      ensures r == Resolvable(LedgerOf(old(state), m.tenantId), m.localId)
    {
      hide Tracks, ReservationLedger.Valid, Resolve, Resolvable;
      var ledger := LedgerFor(m.tenantId);
      ghost var touched := state;
      r := ResolveIn(ledger, m, Settled(actualUsd));
      if r.Ok? {
        reservationMeta := reservationMeta - {durableId};
      }
      state := FinishResolve(old(state), durableId, m, Settled(actualUsd));
      assert state.ledgers == FinishResolve(touched, durableId, m, Settled(actualUsd)).ledgers;
    }

    method FinishRelease(durableId: Id, m: Meta) returns (r: Result<(), LedgerError>)
      requires Valid()
      modifies this`tenantLedgers, this`reservationMeta, this`state, tenantLedgers.Values
      ensures Valid() && OnlyNewLedgers() && state == FinishResolve(old(state), durableId, m, Released)
      ensures r == Resolvable(LedgerOf(old(state), m.tenantId), m.localId)
    {
      hide Tracks, ReservationLedger.Valid, Resolve, Resolvable;
      var ledger := LedgerFor(m.tenantId);
      ghost var touched := state;
      r := ResolveIn(ledger, m, Released);
      if r.Ok? {
        reservationMeta := reservationMeta - {durableId};
      }
      state := FinishResolve(old(state), durableId, m, Released);
      assert state.ledgers == FinishResolve(touched, durableId, m, Released).ledgers;
    }

    method ResolveIn(ledger: ReservationLedger, m: Meta, phase: Phase) returns (r: Result<(), LedgerError>)
      requires Tracks(tenantLedgers, state.ledgers) && m.tenantId in tenantLedgers
               && ledger == tenantLedgers[m.tenantId]
      requires !phase.Reserved?
      modifies ledger
      ensures Tracks(tenantLedgers, state.ledgers[m.tenantId := Resolve(LedgerOf(state, m.tenantId), m.localId, phase)])
      ensures r == Resolvable(LedgerOf(state, m.tenantId), m.localId)
    {
      hide ReservationLedger.Valid, Resolve, Resolvable;
      if phase.Settled? {
        r := ledger.Settle(m.localId, phase.actualUsd);
      } else {
        r := ledger.Release(m.localId);
      }
    }

    // ---- The three calls as clients see them, run without interference between their parts ----------------------

    ghost function DependenciesOf(request: GateRequest, config: CeilingConfig, clock: Clock): GateDependencies
      reads this`state
    {
      var spent := SpentOf(LedgerOf(state, request.tenantId), request.input.roleId, request.input.taskType);
      GateDependencies(table, config, spent, modelMaps, clock)
    }

    ghost function LocalVerdict(request: GateRequest, config: CeilingConfig, clock: Clock): GateVerdict
      reads this`state
    {
      EvaluateGateVerdict(request.input, DependenciesOf(request, config, clock))
    }

    ghost function Leaves(store: ReservationStore): Left
      reads this`state, store
    {
      Left(store.State(), state)
    }

    /**
     * `durableId` and `localId` are the random ids drawn if both halves reserve. A reservation comes back exactly when
     * the verdict lets the task run, and then both the store and the local ledger hold its upper-bound amount. Every
     * verdict that comes back was audited, every such SKIP announced. A call that throws leaves what it had done:
     * nothing, a durable reservation nobody mirrors, or one held in both halves that nobody was told of.
     */
    method EvaluateAndReserve(store: ReservationStore, request: GateRequest, config: CeilingConfig,
                              now: DurableSpec.Moment, clock: Clock, durableId: Id, localId: Id, c: Conditions)
      returns (r: Result<GateResult, GateError>, ghost decided: Result<GateResult, GateError>)
      requires Valid() && durableId !in store.reservations && localId !in LedgerOf(state, request.tenantId)
      modifies this, tenantLedgers.Values, store
      ensures Valid() && OnlyNewLedgers()
      ensures decided.Ok? ==> (decided.value.reservation.Some? <==> decided.value.verdict.kind in {PROCEED, DOWNGRADE})
      ensures if !c.resolverUp
              then r == decided == Err(NoConfig) && store.State() == old(store.State()) && state == old(state)
              else && r == (if decided.Ok? && c.audit != Heard then Err(AuditFailed) else decided)
                   && Decided(store.source, old(Leaves(store)), Leaves(store), request, config, now,
                              old(LocalVerdict(request, config, clock)), durableId, localId, c.reserve, decided)
      ensures c.resolverUp && TooOld(table, clock.estimate) ==>
                && decided == Ok(GateResult(GateVerdict(QUEUE, EstimatorFailed(StaleTable), request.input.model, None),
                                            None))
                && store.State() == old(store.State())
      ensures decided.Ok? && decided.value.reservation.Some? ==>
                ReservedInFull(table, old(Leaves(store)), Leaves(store), request, durableId, localId, clock,
                               decided.value)
      ensures audit == old(audit) + (if decided.Ok? && c.audit != NotDone
                                     then [AuditEntry(request.tenantId, request.taskId, decided.value.verdict)] else [])
      ensures skippedEvents
              == old(skippedEvents) + (if r.Ok? && r.value.verdict.kind == SKIP then [request.taskId] else [])
    {
      hide Tracks, Decided, ReservedInFull, TooOld, EvaluateGateVerdict, SpentOf;
      if !c.resolverUp {
        return Err(NoConfig), Err(NoConfig);
      }
      ghost var before, deps := Leaves(store), DependenciesOf(request, config, clock);
      r := Decide(store, request, config, now, clock, durableId, localId, c.reserve);
      decided := r;
      DecidedInFull(store.source, before, Leaves(store), request, deps, now, durableId, localId, c.reserve, r);
      if r.Ok? {
        if c.audit != NotDone {
          audit := audit + [AuditEntry(request.tenantId, request.taskId, r.value.verdict)];
        }
        if c.audit != Heard {
          return Err(AuditFailed), decided;
        }
        if r.value.verdict.kind == SKIP {
          skippedEvents := skippedEvents + [request.taskId];
        }
      }
    }

    method Decide(store: ReservationStore, request: GateRequest, config: CeilingConfig, now: DurableSpec.Moment,
                  clock: Clock, durableId: Id, localId: Id, reserve: Link) returns (r: Result<GateResult, GateError>)
      requires Valid() && durableId !in store.reservations && localId !in LedgerOf(state, request.tenantId)
      modifies this`tenantLedgers, this`reservationMeta, this`state, tenantLedgers.Values, store
      ensures Valid() && OnlyNewLedgers()
      ensures r.Ok? ==> (r.value.reservation.Some? <==> r.value.verdict.kind in {PROCEED, DOWNGRADE})
      ensures Decided(store.source, old(Leaves(store)), Leaves(store), request, config, now,
                      old(LocalVerdict(request, config, clock)), durableId, localId, reserve, r)
    {
      hide Tracks, EvaluateGateVerdict, SpentOf, DurableSpec.Exec, DurableSpec.Admissible, DurableSpec.RefusedAt,
           DurableSpec.LeavesRoom;
      VerdictCharacterised(request.input,
                           GateDependencies(table, config,
                                            SpentOf(LedgerOf(state, request.tenantId), request.input.roleId,
                                                                   request.input.taskType), modelMaps, clock));
      var preCheck := PreCheck(request, config, clock);
      if preCheck.kind !in {PROCEED, DOWNGRADE} {
        return Ok(GateResult(preCheck, None));
      }
      if reserve == NotDone {
        return Err(StoreDown);
      }
      var req := RequestOf(request, preCheck);
      var attempt := TryReserve(store, req, config, now, durableId, localId, reserve == Heard);
      if reserve == AnswerLost {
        return Err(NoAnswer);
      }
      match attempt
      case Granted(id) =>
        r := Ok(GateResult(preCheck,
                           Some(GateReservation(id, request.input.roleId, request.input.taskType, req.amountUsd))));
      case Refused(level) =>
        r := Ok(GateResult(Overruled(request.input, preCheck, level), None));
    }

    /** The durable reservation and, when it is granted and heard of, its local mirror. */
    method TryReserve(store: ReservationStore, req: DurableSpec.Request, config: CeilingConfig, now: DurableSpec.Moment,
                      durableId: Id, localId: Id, heard: bool) returns (attempt: ReserveResult)
      requires Valid() && durableId !in store.reservations && localId !in LedgerOf(state, req.tenantId)
      modifies this`tenantLedgers, this`reservationMeta, this`state, tenantLedgers.Values, store
      ensures Valid() && OnlyNewLedgers()
      ensures store.State()
              == DurableSpec.Exec(store.source, old(store.State()), DurableSpec.ReserveOp(durableId, req, config, now))
      ensures attempt.Granted? <==> old(DurableSpec.Admissible(store.source, store.State(), req, config, now.day))
      ensures attempt.Granted? ==> attempt.reservationId == durableId
      ensures attempt.Refused? ==>
                DurableSpec.RefusedAt(store.source, old(store.State()), req, config, now.day, attempt.exceededLevel)
      ensures state == if heard && attempt.Granted? then Mirror(old(state), req, durableId, localId) else old(state)
    {
      hide Tracks, DurableSpec.Exec, DurableSpec.Admissible, DurableSpec.RefusedAt, DurableSpec.LeavesRoom;
      attempt := store.ReserveAtomic(req, config, now, durableId);
      if heard && attempt.Granted? {
        Confirm(req, durableId, localId);
      }
    }

    /**
     * What settle or release comes to: unknown here, never carried out, carried out or refused without an answer,
     * refused by the store, or done. Only the last changes this process.
     */
    ghost function Resolution(store: ReservationStore, durableId: Id, link: Link): Result<Meta, GateError>
      reads this, store
    {
      if durableId !in state.meta then Err(NoSuchReservation)
      else if link == NotDone then Err(StoreDown)
      else if link == AnswerLost then Err(NoAnswer)
      else if !DurableSpec.IsOpen(store.State(), state.meta[durableId].tenantId, durableId) then Err(StoreRefused)
      else Ok(state.meta[durableId])
    }

    /** Whether the store is asked at all. */
    ghost function Reaches(durableId: Id, link: Link): bool
      reads this
    {
      durableId in state.meta && link != NotDone
    }

    method Settle(store: ReservationStore, durableId: Id, actualUsd: Usd, link: Link) returns (r: Result<(), GateError>)
      requires Valid()
      modifies this`tenantLedgers, this`reservationMeta, this`state, tenantLedgers.Values, store
      ensures Valid() && OnlyNewLedgers()
      ensures store.State() == (if old(Reaches(durableId, link))
                                then DurableSpec.Exec(store.source, old(store.State()),
                                                      DurableSpec.SettleOp(old(state).meta[durableId].tenantId,
                                                                           durableId, actualUsd))
                                else old(store.State()))
      ensures match old(Resolution(store, durableId, link))
              case Err(e) => r == Err(e) && state == old(state)
              case Ok(m) =>
                && state == FinishResolve(old(state), durableId, m, Settled(actualUsd))
                && (r.Ok? <==> Resolvable(LedgerOf(old(state), m.tenantId), m.localId).Ok?)
    {
      hide Tracks, DurableSpec.Exec;
      var meta := RequireMeta(durableId);
      if meta.Err? {
        return Err(meta.error);
      }
      if link == NotDone {
        return Err(StoreDown);
      }
      var done := store.Settle(meta.value.tenantId, durableId, actualUsd);
      if link == AnswerLost {
        return Err(NoAnswer);
      }
      if !done {
        return Err(StoreRefused);
      }
      var finished := FinishSettle(durableId, meta.value, actualUsd);
      r := if finished.Ok? then Ok(()) else Err(LedgerRefused);
    }

    method Release(store: ReservationStore, durableId: Id, link: Link) returns (r: Result<(), GateError>)
      requires Valid()
      modifies this`tenantLedgers, this`reservationMeta, this`state, tenantLedgers.Values, store
      ensures Valid() && OnlyNewLedgers()
      ensures store.State() == (if old(Reaches(durableId, link))
                                then DurableSpec.Exec(store.source, old(store.State()),
                                                      DurableSpec.ReleaseOp(old(state).meta[durableId].tenantId,
                                                                            durableId))
                                else old(store.State()))
      ensures match old(Resolution(store, durableId, link))
              case Err(e) => r == Err(e) && state == old(state)
              case Ok(m) =>
                && state == FinishResolve(old(state), durableId, m, Released)
                && (r.Ok? <==> Resolvable(LedgerOf(old(state), m.tenantId), m.localId).Ok?)
    {
      hide Tracks, DurableSpec.Exec;
      var meta := RequireMeta(durableId);
      if meta.Err? {
        return Err(meta.error);
      }
      if link == NotDone {
        return Err(StoreDown);
      }
      var done := store.Release(meta.value.tenantId, durableId);
      if link == AnswerLost {
        return Err(NoAnswer);
      }
      if !done {
        return Err(StoreRefused);
      }
      var finished := FinishRelease(durableId, meta.value);
      r := if finished.Ok? then Ok(()) else Err(LedgerRefused);
    }
  }
}
