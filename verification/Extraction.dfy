/** The signup extraction batch: a second client of the cost gate, with exception paths of its own. */
module Extraction {
  import opened Wrappers
  import opened Pricing
  import opened Ceilings
  import opened Gate
  import opened LedgerHistory
  import opened GateProcess
  import opened CostGate
  import opened DurableReservationStore
  import D = DurableSpec

  datatype BatchStatus = Running | Completed | FailedBatch

  class BatchStore {
    var batches: map<Id, BatchStatus>

    constructor ()
      ensures batches == map[]
    {
      batches := map[];
    }

    /** Writes a batch's status, unless the call never gets through. */
    method Mark(id: Id, status: BatchStatus, link: Link) returns (heard: bool)
      modifies this
      ensures heard <==> link == Heard
      ensures batches == if link == NotDone then old(batches) else old(batches)[id := status]
    {
      if link != NotDone {
        batches := batches[id := status];
      }
      heard := link == Heard;
    }
  }

  /** What the world does during one batch: each awaited call's fate, and the extraction's cost if it succeeds. */
  datatype Circumstances = Circumstances(
    start: Link,
    gate: Conditions,
    costUsd: Option<Usd>,
    settle: Link,
    complete: Link,
    release: Link,
    fail: Link)

  /** How the call ends for its caller. */
  datatype Ending = Turned | Done | Failed | Thrown

  datatype Money = Unreserved | Kept | Paid | Returned

  /** What a call leaves behind: `batch` is None if the batch was never started. */
  datatype Outcome = Outcome(ending: Ending, batch: Option<BatchStatus>, money: Money)

  /** The settlement took hold in the store, whether or not the call heard of it. */
  predicate Settles(c: Circumstances) {
    c.costUsd.Some? && c.settle != NotDone
  }

  predicate HearsSettled(c: Circumstances) {
    c.costUsd.Some? && c.settle == Heard
  }

  /** Marking the batch failed, and returning that. */
  function Marked(link: Link, ending: Ending, money: Money): Outcome {
    match link
    case Heard => Outcome(ending, Some(FailedBatch), money)
    case NotDone => Outcome(Thrown, Some(Running), money)
    case AnswerLost => Outcome(Thrown, Some(FailedBatch), money)
  }

  /** From a granted reservation on. Once it is settled, releasing it cannot succeed and the call can only throw. */
  function OutcomeGranted(c: Circumstances): Outcome {
    if HearsSettled(c) && c.complete == Heard then Outcome(Done, Some(Completed), Paid)
    else if Settles(c)
    then Outcome(Thrown, Some(if HearsSettled(c) && c.complete == AnswerLost then Completed else Running), Paid)
    else
      match c.release
      case Heard => Marked(c.fail, Failed, Returned)
      case NotDone => Outcome(Thrown, Some(Running), Kept)
      case AnswerLost => Outcome(Thrown, Some(Running), Returned)
  }

  /** The gate throws: before it reserved anything, or after. */
  predicate GateThrows(asks: bool, c: Circumstances) {
    !c.gate.resolverUp || (asks && c.gate.reserve != Heard) || c.gate.audit != Heard
  }

  predicate GateReserves(asks: bool, admissible: bool, c: Circumstances) {
    c.gate.resolverUp && asks && admissible && c.gate.reserve != NotDone
  }

  /** `asks`: the local pre-check lets the batch through; `admissible`: the store has room for it. */
  function OutcomeOf(asks: bool, admissible: bool, c: Circumstances): Outcome {
    if c.start != Heard then Outcome(Thrown, if c.start == NotDone then None else Some(Running), Unreserved)
    else if GateThrows(asks, c)
    then Outcome(Thrown, Some(Running), if GateReserves(asks, admissible, c) then Kept else Unreserved)
    else if !(asks && admissible) then Marked(c.fail, Turned, Unreserved)
    else OutcomeGranted(c)
  }

  /** The operations behind each fate: a reservation sees one settlement, one release or neither. */
  function MoneyAfter(source: D.CeilingSource, reserved: D.Store, tenantId: Id, durableId: Id, money: Money,
                      costUsd: Option<Usd>): D.Store
  {
    match money
    case Paid =>
      if costUsd.Some? then D.Exec(source, reserved, D.SettleOp(tenantId, durableId, costUsd.value)) else reserved
    case Returned => D.Exec(source, reserved, D.ReleaseOp(tenantId, durableId))
    case _ => reserved
  }

  function Started(batches: map<Id, BatchStatus>, id: Id, batch: Option<BatchStatus>): map<Id, BatchStatus> {
    if batch.Some? then batches[id := batch.value] else batches
  }

  /** A reservation this process holds in both halves. */
  predicate Holds(st: D.Store, p: Proc, tenantId: Id, durableId: Id) {
    && D.IsOpen(st, tenantId, durableId) && durableId in p.meta && p.meta[durableId].tenantId == tenantId
    && Resolvable(LedgerOf(p, tenantId), p.meta[durableId].localId).Ok?
  }

  lemma GrantIsHeld(source: D.CeilingSource, st: D.Store, p: Proc, req: D.Request, config: CeilingConfig, now: D.Moment,
                    durableId: Id, localId: Id)
    requires durableId !in st.reservations && D.Admissible(source, st, req, config, now.day)
    ensures Holds(D.Exec(source, st, D.ReserveOp(durableId, req, config, now)), Mirror(p, req, durableId, localId),
                  req.tenantId, durableId)
  {
    hide D.BumpLevels, D.Admissible;
  }

  lemma ResolvedIsForgotten(p: Proc, tenantId: Id, durableId: Id, phase: Phase)
    requires durableId in p.meta && Resolvable(LedgerOf(p, p.meta[durableId].tenantId), p.meta[durableId].localId).Ok?
    ensures durableId !in FinishResolve(p, durableId, p.meta[durableId], phase).meta
  {
  }

  lemma SettledIsClosed(source: D.CeilingSource, st: D.Store, tenantId: Id, durableId: Id, actualUsd: Usd)
    requires D.IsOpen(st, tenantId, durableId)
    ensures var after := D.Exec(source, st, D.SettleOp(tenantId, durableId, actualUsd));
            && !D.IsOpen(after, tenantId, durableId)
            && D.Exec(source, after, D.ReleaseOp(tenantId, durableId)) == after
  {
    hide D.ShiftLevels;
  }

  /** The part under try and catch: extract, settle, complete; on any error release and mark the batch failed. */
  method RunGranted(gate: CostGate, store: ReservationStore, batchStore: BatchStore, tenantId: Id, batchId: Id,
                    durableId: Id, c: Circumstances)
    returns (ending: Ending)
    requires gate.Valid() && Holds(store.State(), gate.state, tenantId, durableId)
    requires batchId in batchStore.batches && batchStore.batches[batchId] == Running
    modifies gate`tenantLedgers, gate`reservationMeta, gate`state, gate.tenantLedgers.Values, store, batchStore
    ensures var o := OutcomeGranted(c);
            && ending == o.ending && batchStore.batches == Started(old(batchStore.batches), batchId, o.batch)
            && store.State() == MoneyAfter(store.source, old(store.State()), tenantId, durableId, o.money, c.costUsd)
  {
    hide CostGate.Valid, D.Exec, Resolvable;
    if c.costUsd.Some? {
      ResolvedIsForgotten(gate.state, tenantId, durableId, Phase.Settled(c.costUsd.value));
      SettledIsClosed(store.source, store.State(), tenantId, durableId, c.costUsd.value);
      var settled := gate.Settle(store, durableId, c.costUsd.value, c.settle);
      if settled.Ok? {
        var completed := batchStore.Mark(batchId, Completed, c.complete);
        if completed {
          return Done;
        }
      }
    }
    var released := gate.Release(store, durableId, c.release);
    if released.Err? {
      return Thrown;
    }
    var marked := batchStore.Mark(batchId, FailedBatch, c.fail);
    ending := if marked then Failed else Thrown;
  }

  /**
   * Whatever throws where, and whichever answers are lost: the reservation is settled, released or neither, never both,
   * and the batch and the call end as the circumstances say.
   */
  method RunExtractionBatch(gate: CostGate, store: ReservationStore, batchStore: BatchStore, request: GateRequest,
                            config: CeilingConfig, now: D.Moment, clock: Clock, durableId: Id, localId: Id,
                            c: Circumstances)
    returns (ending: Ending)
    requires gate.Valid() && durableId !in store.reservations && localId !in LedgerOf(gate.state, request.tenantId)
    modifies gate, gate.tenantLedgers.Values, store, batchStore
    ensures var local, before := old(gate.LocalVerdict(request, config, clock)), old(store.State());
            var req := if Asks(local) then RequestOf(request, local) else D.Request(0, 0, 0, 0.0);
            var o := OutcomeOf(Asks(local), D.Admissible(store.source, before, req, config, now.day), c);
            && ending == o.ending && batchStore.batches == Started(old(batchStore.batches), request.taskId, o.batch)
            && store.State() == (if o.money == Unreserved then before
                                 else MoneyAfter(store.source,
                                                 D.Exec(store.source, before, D.ReserveOp(durableId, req, config, now)),
                                            request.tenantId, durableId, o.money, c.costUsd))
  {
    hide CostGate.Valid, D.Exec, D.Admissible, CostGate.LocalVerdict, Resolvable, Mirror, MoneyAfter, ReservedInFull,
         D.RefusedAt, TooOld;
    ghost var local, was := gate.LocalVerdict(request, config, clock), gate.state;
    ghost var req := if Asks(local) then RequestOf(request, local) else D.Request(0, 0, 0, 0.0);
    var started := batchStore.Mark(request.taskId, Running, c.start);
    if !started {
      return Thrown;
    }
    var r, decided := gate.EvaluateAndReserve(store, request, config, now, clock, durableId, localId, c.gate);
    RefusalChangesNothing(store.source, old(store.State()), durableId, req, config, now);
    NothingMoved(store.source, D.Exec(store.source, old(store.State()), D.ReserveOp(durableId, req, config, now)),
                 request.tenantId, durableId, c.costUsd);
    if r.Err? {
      return Thrown;
    }
    if r.value.verdict.kind in {QUEUE, SKIP} {
      var marked := batchStore.Mark(request.taskId, FailedBatch, c.fail);
      return if marked then Turned else Thrown;
    }
    GrantIsHeld(store.source, old(store.State()), was, req, config, now, durableId, localId);
    ending := RunGranted(gate, store, batchStore, request.tenantId, request.taskId, durableId, c);
  }

  lemma RefusalChangesNothing(source: D.CeilingSource, st: D.Store, durableId: Id, req: D.Request,
                              config: CeilingConfig, now: D.Moment)
    ensures !D.Admissible(source, st, req, config, now.day) ==>
              D.Exec(source, st, D.ReserveOp(durableId, req, config, now)) == st
  {
    hide D.Admissible;
  }

  lemma NothingMoved(source: D.CeilingSource, reserved: D.Store, tenantId: Id, durableId: Id, costUsd: Option<Usd>)
    ensures MoneyAfter(source, reserved, tenantId, durableId, Kept, costUsd) == reserved
  {
  }

  /** The call's own reservation, handed to it by the gate. */
  predicate IsHanded(asks: bool, admissible: bool, c: Circumstances) {
    c.start == Heard && !GateThrows(asks, c) && asks && admissible
  }

  /**
   * What remains of the money and the record, by what failed. The money is spent and the batch still running exactly
   * when the settlement took hold and completing did not; it stays reserved for good exactly when the gate threw after
   * reserving it, or neither settling nor releasing it got through; a failed batch spent nothing.
   */
  lemma WhatIsLeft(asks: bool, admissible: bool, c: Circumstances)
    ensures var o, handed := OutcomeOf(asks, admissible, c), IsHanded(asks, admissible, c);
            && (o.money == Paid <==> handed && Settles(c))
            && (o.money == Paid && o.batch == Some(Running) <==>
                  handed && Settles(c) && !(HearsSettled(c) && c.complete != NotDone))
            && (o.money == Kept <==>
                  || (c.start == Heard && GateThrows(asks, c) && GateReserves(asks, admissible, c))
                  || (handed && !Settles(c) && c.release == NotDone))
            && (o.money == Returned <==> handed && !Settles(c) && c.release != NotDone)
            && (o.batch == Some(FailedBatch) ==> o.money in {Unreserved, Returned})
            && (o.batch == Some(Completed) ==> o.money == Paid)
            && (o.ending == Done <==> handed && HearsSettled(c) && c.complete == Heard)
            && (o.ending == Failed <==> handed && !Settles(c) && c.release == Heard && c.fail == Heard)
            && (o.ending == Turned <==>
                  c.start == Heard && !GateThrows(asks, c) && !(asks && admissible) && c.fail == Heard)
            && (o.ending == Done ==> o.batch == Some(Completed))
            && (o.ending in {Turned, Failed} ==> o.batch == Some(FailedBatch))
            && (o.batch.None? <==> c.start == NotDone)
  {
  }

  /** And the store says so: the reservation's one status. */
  lemma StatusTellsMoney(source: D.CeilingSource, st: D.Store, req: D.Request, config: CeilingConfig, now: D.Moment,
                         durableId: Id, money: Money, costUsd: Option<Usd>)
    requires durableId !in st.reservations && D.Admissible(source, st, req, config, now.day)
    requires money != Unreserved && (money == Paid ==> costUsd.Some?)
    ensures var reserved := D.Exec(source, st, D.ReserveOp(durableId, req, config, now));
            var after := MoneyAfter(source, reserved, req.tenantId, durableId, money, costUsd);
            && durableId in after.reservations
            && after.reservations[durableId].status
               == (match money case Paid => D.Settled case Returned => D.Released case _ => D.Open)
            && (money == Paid ==> after.reservations[durableId].request.amountUsd == costUsd.value)
  {
    hide D.ShiftLevels, D.BumpLevels, D.Admissible;
  }
}
