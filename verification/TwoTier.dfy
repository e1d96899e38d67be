/**
 * Many processes, each with its own ledgers, in front of one durable store. Every asynchronous gate call is cut at its
 * awaits, and the parts of different calls interleave freely; processes crash and calls fail at any point.
 */
module TwoTier {
  import opened Wrappers
  import opened Pricing
  import opened Sums
  import opened Ceilings
  import opened Gate
  import Estimator
  import opened LedgerHistory
  import opened GateProcess
  import D = DurableSpec

  /** Where a call stands, named by its next part. */
  datatype Call =
    | Reserving(req: D.Request, config: CeilingConfig)
    | Granted(req: D.Request, durableId: Id)
    | Settling(durableId: Id, m: Meta, actualUsd: Usd)
    | SettledDurably(durableId: Id, m: Meta, actualUsd: Usd)
    | Releasing(durableId: Id, m: Meta)
    | ReleasedDurably(durableId: Id, m: Meta)

  datatype Running = Running(proc: Id, call: Call)

  /** `mirrors` records, for each local reservation ever made, the durable one it stands for; no process reads it. */
  datatype System = System(
    source: D.CeilingSource,
    store: D.Store,
    today: D.Day,
    procs: map<Id, Proc>,
    calls: map<Id, Running>,
    mirrors: map<Id, Id>)

  datatype Step =
    | Decide(c: Id, proc: Id, tenantId: Id, input: GateInput, table: PricingTable, config: CeilingConfig,
             modelMaps: TierModelMapsByProvider, clock: Clock)
    | ReserveDurably(c: Id, durableId: Id, dbDay: D.Day)
    | ReserveLocally(c: Id, localId: Id)
    | BeginSettle(c: Id, proc: Id, durableId: Id, actualUsd: Usd)
    | SettleDurably(c: Id)
    | SettleLocally(c: Id)
    | BeginRelease(c: Id, proc: Id, durableId: Id)
    | ReleaseDurably(c: Id)
    | ReleaseLocally(c: Id)
    | Throw(c: Id)
    | Crash(proc: Id)
    | NewDay(day: D.Day)

  function ProcOf(s: System, proc: Id): Proc {
    if proc in s.procs then s.procs[proc] else FRESH_PROCESS
  }

  ghost function DependenciesOf(s: System, step: Step): GateDependencies
    requires step.Decide?
  {
    var h := LedgerOf(ProcOf(s, step.proc), step.tenantId);
    GateDependencies(step.table, step.config, SpentOf(h, step.input.roleId, step.input.taskType), step.modelMaps,
                     step.clock)
  }

  ghost function LocalVerdict(s: System, step: Step): GateVerdict
    requires step.Decide?
  {
    EvaluateGateVerdict(step.input, DependenciesOf(s, step))
  }

  /** The process of a call takes on a new state and the call moves on, or ends. */
  function Advance(s: System, c: Id, call: Option<Call>): System
    requires c in s.calls
  {
    s.(calls := if call.Some? then s.calls[c := Running(s.calls[c].proc, call.value)] else s.calls - {c})
  }

  /** One atomic part. A part that is not due changes nothing. */
  ghost function Next(s: System, step: Step): System {
    match step
    case Decide(c, proc, tenantId, input, _, config, _, _) =>
      var v := LocalVerdict(s, step);
      if c in s.calls then s
      else
        var touched := s.(procs := s.procs[proc := Touch(ProcOf(s, proc), tenantId)]);
        if v.kind in {PROCEED, DOWNGRADE} && v.estimate.Some? then
          var req := D.Request(tenantId, input.roleId, input.taskType, v.estimate.value.costUpperBoundUsd);
          touched.(calls := s.calls[c := Running(proc, Reserving(req, config))])
        else touched
    case ReserveDurably(c, durableId, dbDay) =>
      if c !in s.calls || !s.calls[c].call.Reserving? || durableId in s.store.reservations then s
      else
        var call := s.calls[c].call;
        var after := D.Exec(s.source, s.store, D.ReserveOp(durableId, call.req, call.config, D.Moment(s.today, dbDay)));
        if D.Admissible(s.source, s.store, call.req, call.config, s.today)
        then Advance(s, c, Some(Granted(call.req, durableId))).(store := after)
        else Advance(s, c, None)
    case ReserveLocally(c, localId) =>
      if c !in s.calls || !s.calls[c].call.Granted? || localId in s.mirrors then s
      else
        var Running(proc, call) := s.calls[c];
        Advance(s, c, None).(
          procs := s.procs[proc := Mirror(ProcOf(s, proc), call.req, call.durableId, localId)],
          mirrors := s.mirrors[localId := call.durableId])
    case BeginSettle(c, proc, durableId, actualUsd) =>
      if c in s.calls || durableId !in ProcOf(s, proc).meta then s
      else s.(calls := s.calls[c := Running(proc, Settling(durableId, ProcOf(s, proc).meta[durableId], actualUsd))])
    case SettleDurably(c) =>
      if c !in s.calls || !s.calls[c].call.Settling? then s
      else
        var Settling(d, m, actualUsd) := s.calls[c].call;
        if !D.IsOpen(s.store, m.tenantId, d) then Advance(s, c, None)
        else
          var after := D.Exec(s.source, s.store, D.SettleOp(m.tenantId, d, actualUsd));
          Advance(s, c, Some(SettledDurably(d, m, actualUsd))).(store := after)
    case SettleLocally(c) =>
      if c !in s.calls || !s.calls[c].call.SettledDurably? then s
      else
        var Running(proc, SettledDurably(d, m, actualUsd)) := s.calls[c];
        Advance(s, c, None).(procs := s.procs[proc := FinishResolve(ProcOf(s, proc), d, m, Settled(actualUsd))])
    case BeginRelease(c, proc, durableId) =>
      if c in s.calls || durableId !in ProcOf(s, proc).meta then s
      else s.(calls := s.calls[c := Running(proc, Releasing(durableId, ProcOf(s, proc).meta[durableId]))])
    case ReleaseDurably(c) =>
      if c !in s.calls || !s.calls[c].call.Releasing? then s
      else
        var Releasing(d, m) := s.calls[c].call;
        if !D.IsOpen(s.store, m.tenantId, d) then Advance(s, c, None)
        else Advance(s, c, Some(ReleasedDurably(d, m))).(store := D.Exec(s.source, s.store, D.ReleaseOp(m.tenantId, d)))
    case ReleaseLocally(c) =>
      if c !in s.calls || !s.calls[c].call.ReleasedDurably? then s
      else
        var Running(proc, ReleasedDurably(d, m)) := s.calls[c];
        Advance(s, c, None).(procs := s.procs[proc := FinishResolve(ProcOf(s, proc), d, m, Released)])
    case Throw(c) => s.(calls := s.calls - {c})
    case Crash(proc) =>
      s.(procs := s.procs - {proc}, calls := map c | c in s.calls && s.calls[c].proc != proc :: s.calls[c])
    case NewDay(day) => s.(today := day)
  }

  function Boot(source: D.CeilingSource, today: D.Day): System {
    System(source, D.EMPTY_STORE, today, map[], map[], map[])
  }

  ghost function Run(source: D.CeilingSource, today: D.Day, steps: seq<Step>): System {
    if steps == [] then Boot(source, today) else Next(Run(source, today, steps[..|steps| - 1]), steps[|steps| - 1])
  }

  // ---- The simulation invariant --------------------------------------------------------------------------------

  /** A local entry and the durable reservation it mirrors differ only while a resolution is between its two halves. */
  predicate Agrees(r: D.StoredReservation, tenantId: Id, e: Entry) {
    && r.request.tenantId == tenantId && r.request.roleId == e.roleId && r.request.taskType == e.taskType
    && match e.phase
       case Reserved => r.status == D.Open ==> r.request.amountUsd == e.amountUsd
       case Settled(actualUsd) => r.status == D.Settled && r.request.amountUsd == actualUsd
       case Released => r.status == D.Released
  }

  ghost predicate LedgerAgrees(s: System, tenantId: Id, h: History) {
    forall l :: l in h ==>
                  && l in s.mirrors && s.mirrors[l] in s.store.reservations
                  && Agrees(s.store.reservations[s.mirrors[l]], tenantId, h[l])
  }

  /** `m` says where process `proc` mirrors `d`. */
  predicate PointsAt(s: System, proc: Id, m: Meta, d: Id) {
    && proc in s.procs && m.tenantId in s.procs[proc].ledgers && m.localId in s.procs[proc].ledgers[m.tenantId]
    && m.localId in s.mirrors && s.mirrors[m.localId] == d
  }

  predicate IsReservedAt(s: System, proc: Id, m: Meta) {
    m.localId in LedgerOf(ProcOf(s, proc), m.tenantId)
      && LedgerOf(ProcOf(s, proc), m.tenantId)[m.localId].phase.Reserved?
  }

  ghost predicate CallAgrees(s: System, running: Running) {
    match running.call
    case Reserving(_, _) => true
    case Granted(req, d) =>
      d in s.store.reservations && s.store.reservations[d].request == req && s.store.reservations[d].status == D.Open
      && (forall l :: l in s.mirrors ==> s.mirrors[l] != d)
    case Settling(d, m, _) => PointsAt(s, running.proc, m, d)
    case Releasing(d, m) => PointsAt(s, running.proc, m, d)
    case SettledDurably(d, m, actualUsd) =>
      && PointsAt(s, running.proc, m, d) && IsReservedAt(s, running.proc, m)
      && d in s.store.reservations && s.store.reservations[d].status == D.Settled
      && s.store.reservations[d].request.amountUsd == actualUsd
    case ReleasedDurably(d, m) =>
      && PointsAt(s, running.proc, m, d) && IsReservedAt(s, running.proc, m)
      && d in s.store.reservations && s.store.reservations[d].status == D.Released
  }

  /** The call holds `d` between its durable and its local half. */
  predicate HoldsHalf(call: Call, d: Id) {
    (call.Granted? || call.SettledDurably? || call.ReleasedDurably?) && call.durableId == d
  }

  ghost predicate LedgersAgree(s: System) {
    forall p, t :: p in s.procs && t in s.procs[p].ledgers ==> LedgerAgrees(s, t, s.procs[p].ledgers[t])
  }

  ghost predicate MetasPoint(s: System) {
    forall p, d :: p in s.procs && d in s.procs[p].meta ==> PointsAt(s, p, s.procs[p].meta[d], d)
  }

  ghost predicate MirrorsInject(s: System) {
    && (forall k, l :: k in s.mirrors && l in s.mirrors && s.mirrors[k] == s.mirrors[l] ==> k == l)
    && (forall l :: l in s.mirrors ==> s.mirrors[l] in s.store.reservations)
  }

  ghost predicate CallsAgree(s: System) {
    forall c :: c in s.calls ==> CallAgrees(s, s.calls[c])
  }

  ghost predicate HalvesApart(s: System) {
    forall b, c, d ::
      b in s.calls && c in s.calls && HoldsHalf(s.calls[b].call, d) && HoldsHalf(s.calls[c].call, d) ==> b == c
  }

  ghost predicate Inv(s: System) {
    D.Accounted(s.store) && LedgersAgree(s) && MetasPoint(s) && MirrorsInject(s) && CallsAgree(s) && HalvesApart(s)
  }

  // ---- The invariant, one elementary change at a time ----------------------------------------------------------

  function WithProc(s: System, proc: Id, p: Proc): System {
    s.(procs := s.procs[proc := p])
  }

  function WithCall(s: System, c: Id, running: Running): System {
    s.(calls := s.calls[c := running])
  }

  function WithoutCall(s: System, c: Id): System {
    s.(calls := s.calls - {c})
  }

  lemma TouchKeepsInv(s: System, proc: Id, tenantId: Id)
    requires Inv(s)
    ensures Inv(WithProc(s, proc, Touch(ProcOf(s, proc), tenantId)))
  {
    hide D.Accounted, LedgersAgree, MetasPoint, CallsAgree, HalvesApart;
    var t := WithProc(s, proc, Touch(ProcOf(s, proc), tenantId));
    TouchKeepsLedgers(s, proc, tenantId);
    TouchKeepsCalls(s, proc, tenantId);
    HalvesOfSameCalls(s, t);
  }

  lemma TouchKeepsLedgers(s: System, proc: Id, tenantId: Id)
    requires LedgersAgree(s) && MetasPoint(s)
    ensures var t := WithProc(s, proc, Touch(ProcOf(s, proc), tenantId)); LedgersAgree(t) && MetasPoint(t)
  {
    hide Agrees;
  }

  lemma HalvesOfSameCalls(s: System, t: System)
    requires HalvesApart(s) && t.calls == s.calls
    ensures HalvesApart(t)
  {
  }

  lemma TouchKeepsCalls(s: System, proc: Id, tenantId: Id)
    requires CallsAgree(s)
    ensures CallsAgree(WithProc(s, proc, Touch(ProcOf(s, proc), tenantId)))
  {
    var t := WithProc(s, proc, Touch(ProcOf(s, proc), tenantId));
    forall b | b in t.calls
      ensures CallAgrees(t, t.calls[b])
    {
      assert CallAgrees(s, t.calls[b]);
    }
  }

  lemma WithCallKeepsInv(s: System, c: Id, running: Running)
    requires Inv(s) && CallAgrees(s, running)
    requires forall b, d :: b in s.calls && b != c ==> !(HoldsHalf(s.calls[b].call, d) && HoldsHalf(running.call, d))
    ensures Inv(WithCall(s, c, running))
  {
    hide D.Accounted, Agrees;
    var t := WithCall(s, c, running);
    forall b | b in t.calls
      ensures CallAgrees(t, t.calls[b])
    {
      assert CallAgrees(s, t.calls[b]);
    }
  }

  lemma WithoutCallKeepsInv(s: System, c: Id)
    requires Inv(s)
    ensures Inv(WithoutCall(s, c))
  {
    hide D.Accounted, Agrees;
    var t := WithoutCall(s, c);
    forall b | b in t.calls
      ensures CallAgrees(t, t.calls[b])
    {
      assert CallAgrees(s, t.calls[b]);
    }
  }

  /** The store writes reservation `id`, which no call holds half of: a new one, or the resolution of an open one. */
  ghost predicate WritesReservation(s: System, t: System, op: D.Op)
    requires op.ReserveOp? || op.id in s.store.reservations
  {
    && t.procs == s.procs && t.calls == s.calls && t.mirrors == s.mirrors
    && t.store.reservations == s.store.reservations[op.id := D.Written(s.source, s.store, op)]
    && (forall b :: b in s.calls ==> !HoldsHalf(s.calls[b].call, op.id))
  }

  lemma StoreKeepsLedgers(s: System, t: System, op: D.Op)
    requires LedgersAgree(s) && D.Succeeds(s.source, s.store, op) && WritesReservation(s, t, op)
    ensures LedgersAgree(t)
  {
    hide D.Admissible;
    forall p, u | p in t.procs && u in t.procs[p].ledgers
      ensures LedgerAgrees(t, u, t.procs[p].ledgers[u])
    {
      assert LedgerAgrees(s, u, s.procs[p].ledgers[u]);
    }
  }

  lemma StoreKeepsCalls(s: System, t: System, op: D.Op)
    requires op.ReserveOp? || op.id in s.store.reservations
    requires CallsAgree(s) && WritesReservation(s, t, op)
    ensures CallsAgree(t)
  {
    hide D.Written;
    forall b | b in t.calls
      ensures CallAgrees(t, t.calls[b])
    {
      assert CallAgrees(s, t.calls[b]);
    }
  }

  lemma StoreKeepsInv(s: System, op: D.Op)
    requires Inv(s) && D.Succeeds(s.source, s.store, op)
    requires forall b :: b in s.calls ==> !HoldsHalf(s.calls[b].call, op.id)
    ensures Inv(s.(store := D.Exec(s.source, s.store, op)))
  {
    D.ExecKeepsAccounts(s.source, s.store, op);
    D.ExecWrites(s.source, s.store, op);
    var t := s.(store := D.Exec(s.source, s.store, op));
    hide D.Accounted, D.Exec, D.Written, LedgersAgree, CallsAgree, D.Admissible;
    StoreKeepsLedgers(s, t, op);
    StoreKeepsCalls(s, t, op);
  }

  /** Process `proc` writes entry `l` of its ledger for `tenantId`; nothing else of its ledgers changes. */
  ghost predicate WritesEntry(s: System, t: System, proc: Id, tenantId: Id, l: Id, e: Entry) {
    && t.store == s.store && t.calls == s.calls && t.source == s.source
    && (forall k :: k in s.mirrors ==> k in t.mirrors && t.mirrors[k] == s.mirrors[k])
    && t.procs.Keys == s.procs.Keys + {proc}
    && t.procs[proc].ledgers == ProcOf(s, proc).ledgers[tenantId := LedgerOf(ProcOf(s, proc), tenantId)[l := e]]
    && (forall p :: p in s.procs && p != proc ==> t.procs[p] == s.procs[p])
  }

  lemma WriteKeepsLedgersAgree(s: System, t: System, proc: Id, tenantId: Id, l: Id, e: Entry)
    requires LedgersAgree(s) && WritesEntry(s, t, proc, tenantId, l, e)
    requires l in t.mirrors && t.mirrors[l] in s.store.reservations
             && Agrees(s.store.reservations[t.mirrors[l]], tenantId, e)
    ensures LedgersAgree(t)
  {
    hide Agrees;
    forall p, u | p in t.procs && u in t.procs[p].ledgers
      ensures LedgerAgrees(t, u, t.procs[p].ledgers[u])
    {
      if p in s.procs && u in s.procs[p].ledgers {
        assert LedgerAgrees(s, u, s.procs[p].ledgers[u]);
      }
    }
  }

  /** Pointers survive the write, and so does being reserved, except for the reservation `d` the entry mirrors. */
  lemma WriteKeepsPointers(s: System, t: System, proc: Id, tenantId: Id, l: Id, e: Entry, d: Id)
    requires MirrorsInject(s) && WritesEntry(s, t, proc, tenantId, l, e)
    requires l in t.mirrors && t.mirrors[l] == d
    ensures forall p, m, c :: PointsAt(s, p, m, c) ==> PointsAt(t, p, m, c)
    ensures forall p, m, c :: PointsAt(s, p, m, c) && IsReservedAt(s, p, m) && c != d ==> IsReservedAt(t, p, m)
  {
  }

  lemma PointersKeepCalls(s: System, t: System, d: Id)
    requires CallsAgree(s) && t.store == s.store && t.calls == s.calls
    requires forall b :: b in s.calls ==> !HoldsHalf(s.calls[b].call, d)
    requires forall l :: l in t.mirrors ==> t.mirrors[l] == d || (l in s.mirrors && t.mirrors[l] == s.mirrors[l])
    requires forall p, m, c :: PointsAt(s, p, m, c) ==> PointsAt(t, p, m, c)
    requires forall p, m, c :: PointsAt(s, p, m, c) && IsReservedAt(s, p, m) && c != d ==> IsReservedAt(t, p, m)
    ensures CallsAgree(t)
  {
    hide PointsAt, IsReservedAt;
    forall b | b in t.calls
      ensures CallAgrees(t, t.calls[b])
    {
      assert CallAgrees(s, t.calls[b]);
    }
  }

  lemma MirrorKeepsInv(s: System, proc: Id, req: D.Request, durableId: Id, localId: Id)
    requires Inv(s) && CallAgrees(s, Running(proc, Granted(req, durableId))) && localId !in s.mirrors
    requires forall b :: b in s.calls ==> !HoldsHalf(s.calls[b].call, durableId)
    ensures Inv(WithProc(s, proc,
                         Mirror(ProcOf(s, proc), req, durableId, localId)).(mirrors := s.mirrors[localId := durableId]))
  {
    hide D.Accounted, LedgersAgree, CallsAgree;
    var t :=
      WithProc(s, proc, Mirror(ProcOf(s, proc), req, durableId, localId)).(mirrors := s.mirrors[localId := durableId]);
    var e := Entry(req.roleId, req.taskType, req.amountUsd, Reserved);
    assert WritesEntry(s, t, proc, req.tenantId, localId, e);
    WriteKeepsLedgersAgree(s, t, proc, req.tenantId, localId, e);
    WriteKeepsPointers(s, t, proc, req.tenantId, localId, e, durableId);
    assert PointsAt(t, proc, Meta(req.tenantId, localId), durableId);
    hide PointsAt, IsReservedAt, WritesEntry;
    PointersKeepCalls(s, t, durableId);
  }

  lemma FinishKeepsInv(s: System, proc: Id, durableId: Id, m: Meta, phase: Phase)
    requires Inv(s) && PointsAt(s, proc, m, durableId) && IsReservedAt(s, proc, m)
    requires forall b :: b in s.calls ==> !HoldsHalf(s.calls[b].call, durableId)
    requires Agrees(s.store.reservations[durableId], m.tenantId,
                    LedgerOf(ProcOf(s, proc), m.tenantId)[m.localId].(phase := phase))
    ensures Inv(WithProc(s, proc, FinishResolve(ProcOf(s, proc), durableId, m, phase)))
  {
    hide D.Accounted, LedgersAgree, CallsAgree, Agrees;
    var t := WithProc(s, proc, FinishResolve(ProcOf(s, proc), durableId, m, phase));
    var e := LedgerOf(ProcOf(s, proc), m.tenantId)[m.localId].(phase := phase);
    assert WritesEntry(s, t, proc, m.tenantId, m.localId, e);
    WriteKeepsLedgersAgree(s, t, proc, m.tenantId, m.localId, e);
    WriteKeepsPointers(s, t, proc, m.tenantId, m.localId, e, durableId);
    hide PointsAt, IsReservedAt, WritesEntry;
    PointersKeepCalls(s, t, durableId);
  }

  lemma CrashKeepsInv(s: System, proc: Id)
    requires Inv(s)
    ensures Inv(Next(s, Crash(proc)))
  {
    hide D.Accounted;
  }

  /** The simulation invariant holds after every part of every call, crash and failure included. */
  lemma NextKeepsInv(s: System, step: Step)
    requires Inv(s)
    ensures Inv(Next(s, step))
  {
    hide Inv, CallAgrees, PointsAt, IsReservedAt, Agrees, D.Exec;
    match step
    case Decide(c, proc, tenantId, input, table, config, modelMaps, clock) =>
      DecideStep(s, step);
    case ReserveDurably(c, durableId, dbDay) =>
      ReserveDurablyStep(s, c, durableId, dbDay);
    case ReserveLocally(c, localId) =>
      ReserveLocallyStep(s, c, localId);
    case BeginSettle(c, proc, durableId, actualUsd) =>
      BeginStep(s, step);
    case BeginRelease(c, proc, durableId) =>
      BeginStep(s, step);
    case SettleDurably(c) =>
      ResolveDurablyStep(s, step);
    case ReleaseDurably(c) =>
      ResolveDurablyStep(s, step);
    case SettleLocally(c) =>
      ResolveLocallyStep(s, step);
    case ReleaseLocally(c) =>
      ResolveLocallyStep(s, step);
    case Throw(c) =>
      WithoutCallKeepsInv(s, c);
    case Crash(proc) =>
      CrashKeepsInv(s, proc);
    case NewDay(day) =>
      NewDayStep(s, day);
  }

  lemma NewDayStep(s: System, day: D.Day)
    requires Inv(s)
    ensures Inv(s.(today := day))
  {
    hide D.Accounted, Agrees;
    var t := s.(today := day);
    forall b | b in t.calls
      ensures CallAgrees(t, t.calls[b])
    {
      assert CallAgrees(s, t.calls[b]);
    }
  }

  lemma DecideStep(s: System, step: Step)
    requires Inv(s) && step.Decide?
    ensures Inv(Next(s, step))
  {
    hide LocalVerdict, Inv;
    if step.c !in s.calls {
      TouchKeepsInv(s, step.proc, step.tenantId);
      var touched := WithProc(s, step.proc, Touch(ProcOf(s, step.proc), step.tenantId));
      var v := LocalVerdict(s, step);
      if v.kind in {PROCEED, DOWNGRADE} && v.estimate.Some? {
        WithCallKeepsInv(touched, step.c, Next(s, step).calls[step.c]);
      }
    }
  }

  lemma ReserveDurablyStep(s: System, c: Id, durableId: Id, dbDay: D.Day)
    requires Inv(s)
    ensures Inv(Next(s, ReserveDurably(c, durableId, dbDay)))
  {
    hide D.Accounted, D.Exec, D.Admissible, LedgersAgree;
    if c in s.calls && s.calls[c].call.Reserving? && durableId !in s.store.reservations {
      var Running(proc, Reserving(req, config)) := s.calls[c];
      var op := D.ReserveOp(durableId, req, config, D.Moment(s.today, dbDay));
      var idle := WithoutCall(s, c);
      WithoutCallKeepsInv(s, c);
      if D.Admissible(s.source, s.store, req, config, s.today) {
        StoreKeepsInv(idle, op);
        var stored := idle.(store := D.Exec(s.source, s.store, op));
        D.ExecWrites(s.source, s.store, op);
        WithCallKeepsInv(stored, c, Running(proc, Granted(req, durableId)));
        assert Next(s, ReserveDurably(c, durableId, dbDay))
               == WithCall(stored, c, Running(proc, Granted(req, durableId)));
      }
    }
  }

  lemma ReserveLocallyStep(s: System, c: Id, localId: Id)
    requires Inv(s)
    ensures Inv(Next(s, ReserveLocally(c, localId)))
  {
    hide D.Accounted, LedgersAgree;
    if c in s.calls && s.calls[c].call.Granted? && localId !in s.mirrors {
      var Running(proc, Granted(req, durableId)) := s.calls[c];
      assert CallAgrees(s, s.calls[c]);
      WithoutCallKeepsInv(s, c);
      MirrorKeepsInv(WithoutCall(s, c), proc, req, durableId, localId);
    }
  }

  lemma BeginStep(s: System, step: Step)
    requires Inv(s) && (step.BeginSettle? || step.BeginRelease?)
    ensures Inv(Next(s, step))
  {
    hide D.Accounted, LedgersAgree;
    if step.c !in s.calls && step.durableId in ProcOf(s, step.proc).meta {
      WithCallKeepsInv(s, step.c, Next(s, step).calls[step.c]);
    }
  }

  lemma ResolveDurablyStep(s: System, step: Step)
    requires Inv(s) && (step.SettleDurably? || step.ReleaseDurably?)
    ensures Inv(Next(s, step))
  {
    hide Inv, D.Exec;
    var c := step.c;
    if c in s.calls
      && ((step.SettleDurably? && s.calls[c].call.Settling?) || (step.ReleaseDurably? && s.calls[c].call.Releasing?)) {
      var call := s.calls[c].call;
      var d, m := call.durableId, call.m;
      WithoutCallKeepsInv(s, c);
      if D.IsOpen(s.store, m.tenantId, d) {
        var op := if step.SettleDurably? then D.SettleOp(m.tenantId, d, call.actualUsd) else D.ReleaseOp(m.tenantId, d);
        var half := if step.SettleDurably? then SettledDurably(d, m, call.actualUsd) else ReleasedDurably(d, m);
        var stored := WithoutCall(s, c).(store := D.Exec(s.source, s.store, op));
        ResolveOpen(s, c, op, half);
        assert Next(s, step) == WithCall(stored, c, Running(s.calls[c].proc, half));
      }
    }
  }

  lemma ResolveOpen(s: System, c: Id, op: D.Op, half: Call)
    requires Inv(s) && c in s.calls && (s.calls[c].call.Settling? || s.calls[c].call.Releasing?)
    requires var call := s.calls[c].call;
             && D.IsOpen(s.store, call.m.tenantId, call.durableId)
             && if call.Settling?
                then && op == D.SettleOp(call.m.tenantId, call.durableId, call.actualUsd)
                     && half == SettledDurably(call.durableId, call.m, call.actualUsd)
                else && op == D.ReleaseOp(call.m.tenantId, call.durableId)
                     && half == ReleasedDurably(call.durableId, call.m)
    ensures var stored := WithoutCall(s, c).(store := D.Exec(s.source, s.store, op));
            Inv(WithCall(stored, c, Running(s.calls[c].proc, half)))
  {
    hide D.Accounted, D.Exec, LedgersAgree, MetasPoint, MirrorsInject, HalvesApart;
    assert CallAgrees(s, s.calls[c]);
    WithoutCallKeepsInv(s, c);
    OpenIsNotHalfDone(s, c);
    StoreKeepsInv(WithoutCall(s, c), op);
    D.ExecWrites(s.source, s.store, op);
    WithCallKeepsInv(WithoutCall(s, c).(store := D.Exec(s.source, s.store, op)), c, Running(s.calls[c].proc, half));
  }

  /** While the durable reservation of a resolving call is open, its local entry is reserved and no call holds half. */
  lemma OpenIsNotHalfDone(s: System, c: Id)
    requires Inv(s) && c in s.calls && (s.calls[c].call.Settling? || s.calls[c].call.Releasing?)
    requires D.IsOpen(s.store, s.calls[c].call.m.tenantId, s.calls[c].call.durableId)
    ensures IsReservedAt(s, s.calls[c].proc, s.calls[c].call.m)
    ensures forall b :: b in s.calls ==> !HoldsHalf(s.calls[b].call, s.calls[c].call.durableId)
  {
    hide D.Accounted;
    var Running(proc, call) := s.calls[c];
    assert CallAgrees(s, s.calls[c]);
    assert LedgerAgrees(s, call.m.tenantId, s.procs[proc].ledgers[call.m.tenantId]);
    forall b | b in s.calls
      ensures !HoldsHalf(s.calls[b].call, call.durableId)
    {
      assert CallAgrees(s, s.calls[b]);
    }
  }

  lemma ResolveLocallyStep(s: System, step: Step)
    requires Inv(s) && (step.SettleLocally? || step.ReleaseLocally?)
    ensures Inv(Next(s, step))
  {
    hide D.Accounted, LedgersAgree;
    var c := step.c;
    if c in s.calls
      && ((step.SettleLocally? && s.calls[c].call.SettledDurably?)
          || (step.ReleaseLocally? && s.calls[c].call.ReleasedDurably?)) {
      var Running(proc, call) := s.calls[c];
      assert CallAgrees(s, s.calls[c]);
      var phase := if step.SettleLocally? then Settled(call.actualUsd) else Released;
      WithoutCallKeepsInv(s, c);
      LedgerEntryAgrees(s, proc, call.m);
      FinishKeepsInv(WithoutCall(s, c), proc, call.durableId, call.m, phase);
    }
  }

  lemma LedgerEntryAgrees(s: System, proc: Id, m: Meta)
    requires Inv(s) && IsReservedAt(s, proc, m)
    ensures m.localId in s.mirrors && s.mirrors[m.localId] in s.store.reservations
    ensures Agrees(s.store.reservations[s.mirrors[m.localId]], m.tenantId,
                   LedgerOf(ProcOf(s, proc), m.tenantId)[m.localId])
  {
    hide D.Accounted, CallsAgree;
    assert LedgerAgrees(s, m.tenantId, s.procs[proc].ledgers[m.tenantId]);
  }

  lemma {:induction false} RunKeepsInv(source: D.CeilingSource, today: D.Day, steps: seq<Step>)
    ensures Inv(Run(source, today, steps))
  {
    hide Next;
    if steps == [] {
      D.RunKeepsAccounts(source, []);
      assert D.After(source, []) == D.EMPTY_STORE;
    } else {
      RunKeepsInv(source, today, steps[..|steps| - 1]);
      NextKeepsInv(Run(source, today, steps[..|steps| - 1]), steps[|steps| - 1]);
    }
  }

  /** Some run, from an empty store, comes to this. */
  ghost predicate IsReachable(s: System) {
    exists today, steps :: s == Run(s.source, today, steps)
  }

  lemma ReachableIsInOrder(s: System)
    requires IsReachable(s)
    ensures Inv(s)
  {
    hide Inv;
    var today, steps :| s == Run(s.source, today, steps);
    RunKeepsInv(s.source, today, steps);
  }

  /** The local half of a settlement or release is never refused, whatever ran in between. */
  lemma LocalHalfNeverFails(s: System, c: Id)
    requires IsReachable(s) && c in s.calls && (s.calls[c].call.SettledDurably? || s.calls[c].call.ReleasedDurably?)
    ensures var m := s.calls[c].call.m; Resolvable(LedgerOf(ProcOf(s, s.calls[c].proc), m.tenantId), m.localId).Ok?
  {
    hide IsReachable, D.Accounted;
    ReachableIsInOrder(s);
    assert CallAgrees(s, s.calls[c]);
  }

  // ---- Local totals against durable totals ---------------------------------------------------------------------

  /** `scope` is the durable pool of the tenant's local pool `d`; for the company, the pool of one month. */
  predicate Pools(tenantId: Id, d: Dimension, scope: D.Scope) {
    match d
    case Company => scope.CompanyMonth? && scope.tenantId == tenantId
    case Role(r) => scope == D.RoleScope(tenantId, r)
    case TaskType(t) => scope == D.TaskTypeScope(tenantId, t)
  }

  function LocalPart(e: Entry, d: Dimension): real {
    Part(e, d, SettledMoney) + Part(e, d, ReservedMoney)
  }

  predicate IsHalfDone(s: System, l: Id, e: Entry) {
    e.phase.Reserved? && l in s.mirrors && s.mirrors[l] in s.store.reservations
    && s.store.reservations[s.mirrors[l]].status != D.Open
  }

  predicate IsCarriedOver(s: System, l: Id, scope: D.Scope) {
    l in s.mirrors && s.mirrors[l] in s.store.reservations
    && var r := s.store.reservations[s.mirrors[l]]; !D.InScope(r.request, r.day, scope)
  }

  /** By how much a reservation resolved durably but not yet locally counts for more here; negative after an overrun. */
  function HalfDonePart(s: System, l: Id, e: Entry, scope: D.Scope): real {
    if !IsHalfDone(s, l, e) || IsCarriedOver(s, l, scope) then 0.0
    else
      var r := s.store.reservations[s.mirrors[l]];
      e.amountUsd - (if r.status == D.Settled then r.request.amountUsd else 0.0)
  }

  function CarriedOverPart(s: System, l: Id, e: Entry, d: Dimension, scope: D.Scope): real {
    if IsCarriedOver(s, l, scope) then LocalPart(e, d) else 0.0
  }

  ghost function LocalParts(h: History, d: Dimension): map<Id, real> {
    map l | l in h :: LocalPart(h[l], d)
  }

  ghost function HalfDoneParts(s: System, h: History, scope: D.Scope): map<Id, real> {
    map l | l in h :: HalfDonePart(s, l, h[l], scope)
  }

  ghost function CarriedOverParts(s: System, h: History, d: Dimension, scope: D.Scope): map<Id, real> {
    map l | l in h :: CarriedOverPart(s, l, h[l], d, scope)
  }

  /** What half-done resolutions make the local pool count too much, or, when below zero, too little. */
  ghost function HalfDone(s: System, h: History, scope: D.Scope): real {
    Total(HalfDoneParts(s, h, scope))
  }

  /** Money the local pool still counts although the durable reservation counts in another scope: another month. */
  ghost function CarriedOver(s: System, h: History, d: Dimension, scope: D.Scope): real {
    Total(CarriedOverParts(s, h, d, scope))
  }

  /** Durable money of the scope that no entry of `h` mirrors: other processes', lost in a crash, or never mirrored. */
  ghost function Unmirrored(s: System, h: History, scope: D.Scope): real {
    Total(D.Weights(s.store.reservations, scope) - Images(h.Keys, s.mirrors))
  }

  /** The durable weight behind each local entry. */
  ghost function WeightsBehind(s: System, h: History, scope: D.Scope): map<Id, real>
    requires forall l :: l in h ==> l in s.mirrors && s.mirrors[l] in s.store.reservations
  {
    map l | l in h :: D.Weight(s.store.reservations[s.mirrors[l]], scope)
  }

  lemma CommittedIsLocalParts(h: History, d: Dimension)
    ensures Committed(h, d) == Total(LocalParts(h, d))
  {
    TotalAdd(EntryParts(h, d, SettledMoney), EntryParts(h, d, ReservedMoney), LocalParts(h, d));
  }

  /** Entry by entry, the local ledger counts the durable weight and the entry's surplus. */
  lemma EntryIsExact(s: System, tenantId: Id, h: History, l: Id, d: Dimension, scope: D.Scope)
    requires LedgerAgrees(s, tenantId, h) && Pools(tenantId, d, scope) && l in h
    ensures LocalPart(h[l], d) == D.Weight(s.store.reservations[s.mirrors[l]], scope)
                                  + (HalfDonePart(s, l, h[l], scope) + CarriedOverPart(s, l, h[l], d, scope))
    ensures !d.Company? ==> CarriedOverPart(s, l, h[l], d, scope) == 0.0
  {
    assert Agrees(s.store.reservations[s.mirrors[l]], tenantId, h[l]);
  }

  lemma PartsAddUp(s: System, tenantId: Id, h: History, d: Dimension, scope: D.Scope)
    requires LedgerAgrees(s, tenantId, h) && Pools(tenantId, d, scope)
    ensures Total(LocalParts(h, d))
            == Total(WeightsBehind(s, h, scope)) + HalfDone(s, h, scope) + CarriedOver(s, h, d, scope)
    ensures !d.Company? ==> CarriedOver(s, h, d, scope) == 0.0
  {
    var surplus := map l | l in h :: HalfDonePart(s, l, h[l], scope) + CarriedOverPart(s, l, h[l], d, scope);
    hide Total, LocalPart, HalfDonePart, CarriedOverPart, D.Weight;
    forall l | l in h
      ensures LocalPart(h[l], d) == D.Weight(s.store.reservations[s.mirrors[l]], scope) + surplus[l]
      ensures !d.Company? ==> CarriedOverPart(s, l, h[l], d, scope) == 0.0
    {
      EntryIsExact(s, tenantId, h, l, d, scope);
    }
    TotalAdd(HalfDoneParts(s, h, scope), CarriedOverParts(s, h, d, scope), surplus);
    TotalAdd(WeightsBehind(s, h, scope), surplus, LocalParts(h, d));
    if !d.Company? {
      TotalZero(CarriedOverParts(s, h, d, scope));
    }
  }

  lemma LocalIsExact(s: System, proc: Id, tenantId: Id, d: Dimension, scope: D.Scope)
    requires Inv(s) && Pools(tenantId, d, scope)
    ensures var h := LedgerOf(ProcOf(s, proc), tenantId);
            && Committed(h, d) + Unmirrored(s, h, scope)
               == D.Committed(s.store.reservations, scope) + HalfDone(s, h, scope) + CarriedOver(s, h, d, scope)
            && (!d.Company? ==> CarriedOver(s, h, d, scope) == 0.0)
            && 0.0 <= Unmirrored(s, h, scope)
  {
    hide D.Accounted, CallsAgree, MetasPoint, HalvesApart, Committed, Total, LocalPart, HalfDone, CarriedOver, D.Weight;
    var h := LedgerOf(ProcOf(s, proc), tenantId);
    assert LedgerAgrees(s, tenantId, h);
    hide LedgersAgree;
    CommittedIsLocalParts(h, d);
    PartsAddUp(s, tenantId, h, d, scope);
    assert WeightsBehind(s, h, scope).Keys == h.Keys;
    TotalSplits(WeightsBehind(s, h, scope), D.Weights(s.store.reservations, scope), s.mirrors);
    TotalNonNegative(D.Weights(s.store.reservations, scope) - Images(h.Keys, s.mirrors));
  }

  /**
   * In every reachable system, what a process counts for a tenant, and the durable money it does not mirror, make up
   * the durable total, the surplus of what is between its two halves and, for the company pool only, what belongs to
   * another month. So it counts at most the durable total exactly when that surplus is no more than it fails to mirror.
   */
  lemma LocalTotalsAreExact(s: System, proc: Id, tenantId: Id, d: Dimension, scope: D.Scope)
    requires IsReachable(s) && Pools(tenantId, d, scope)
    ensures var h := LedgerOf(ProcOf(s, proc), tenantId);
            var surplus := HalfDone(s, h, scope) + (if d.Company? then CarriedOver(s, h, d, scope) else 0.0);
            && Committed(h, d) + Unmirrored(s, h, scope) == D.Committed(s.store.reservations, scope) + surplus
            && (Committed(h, d) <= D.Committed(s.store.reservations, scope) <==> surplus <= Unmirrored(s, h, scope))
  {
    hide *;
    ReachableIsInOrder(s);
    LocalIsExact(s, proc, tenantId, d, scope);
  }

  // ---- When a local refusal may be trusted without asking the store --------------------------------------------

  /**
   * Nothing of this tenant is half-resolved here, nothing counted here belongs to another month, and no resolution has
   * gone past the company's row of this month.
   */
  ghost predicate Quiet(s: System, proc: Id, tenantId: Id) {
    && (forall l :: l in LedgerOf(ProcOf(s, proc), tenantId) ==>
                      !IsHalfDone(s, l, LedgerOf(ProcOf(s, proc), tenantId)[l])
                      && !IsCarriedOver(s, l, D.CompanyMonth(tenantId, s.today.month)))
    && D.Straight(s.store, D.CompanyMonth(tenantId, s.today.month))
  }

  /** The store checks this request against the ceilings now configured. */
  predicate ChecksConfigured(s: System, req: D.Request, config: CeilingConfig) {
    s.source.AsPassed?
    || forall level :: var scope := D.ScopeAt(level, req, s.today);
         scope in s.store.counters ==> s.store.counters[scope].ceilingUsd == D.CeilingOf(scope, config)
  }

  lemma QuietIsBounded(s: System, proc: Id, tenantId: Id, d: Dimension, scope: D.Scope)
    requires Inv(s) && Quiet(s, proc, tenantId) && Pools(tenantId, d, scope)
    requires d.Company? ==> scope == D.CompanyMonth(tenantId, s.today.month)
    ensures Committed(LedgerOf(ProcOf(s, proc), tenantId), d) <= D.CounterTotal(s.store.counters, scope)
  {
    hide LedgersAgree, MetasPoint, CallsAgree, HalvesApart, MirrorsInject, Committed, D.Committed, D.CounterTotal,
      D.RowsExist,
         IsHalfDone, IsCarriedOver;
    var h := LedgerOf(ProcOf(s, proc), tenantId);
    LocalIsExact(s, proc, tenantId, d, scope);
    TotalZero(HalfDoneParts(s, h, scope));
    if d.Company? {
      TotalZero(CarriedOverParts(s, h, d, scope));
    }
    assert D.Straight(s.store, scope);
  }

  /** A quiet process that sees no room locally is right: the store would refuse the same amount. */
  lemma LocalRefusalIsSound(s: System, proc: Id, req: D.Request, config: CeilingConfig)
    requires Inv(s) && Quiet(s, proc, req.tenantId) && ChecksConfigured(s, req, config)
    requires !Fits(req.amountUsd, req.roleId, req.taskType, config,
                   SpentOf(LedgerOf(ProcOf(s, proc), req.tenantId), req.roleId, req.taskType))
    ensures !D.Admissible(s.source, s.store, req, config, s.today)
  {
    var company, role, ofType := D.CompanyMonth(req.tenantId, s.today.month), D.RoleScope(req.tenantId, req.roleId),
                                 D.TaskTypeScope(req.tenantId, req.taskType);
    hide Inv, Quiet, Committed, D.Committed;
    QuietIsBounded(s, proc, req.tenantId, Company, company);
    QuietIsBounded(s, proc, req.tenantId, Role(req.roleId), role);
    QuietIsBounded(s, proc, req.tenantId, TaskType(req.taskType), ofType);
    assert company == D.ScopeAt(CompanyLevel, req, s.today);
    assert role == D.ScopeAt(RoleLevel, req, s.today);
    assert ofType == D.ScopeAt(TaskTypeLevel, req, s.today);
  }

  /** The durable request a decision would make at `estimate`. */
  function RequestAt(step: Step, estimate: Estimator.CostEstimate): D.Request
    requires step.Decide?
  {
    D.Request(step.tenantId, step.input.roleId, step.input.taskType, estimate.costUpperBoundUsd)
  }

  /**
   * A decision that lets a request run goes on to ask the store for exactly that: this tenant, role and task type, the
   * upper bound of the model that is to run, priced from a table trusted at the moment, under the configuration passed.
   */
  lemma DecisionInFull(s: System, step: Step)
    requires step.Decide? && step.c !in s.calls
    ensures var v, input, after := LocalVerdict(s, step), step.input, Next(s, step);
            && after.store == s.store && after.mirrors == s.mirrors
            && (v.kind in {QUEUE, SKIP} <==> step.c !in after.calls)
            && (v.kind in {PROCEED, DOWNGRADE} ==>
                  && !TooOld(step.table, step.clock.estimate) && v.model in step.table.prices
                  && var usd := UpperBoundUsd(input.payload, input.outputClass, step.table.prices[v.model]);
                  after.calls == s.calls[step.c := Running(step.proc, Reserving(
                    D.Request(step.tenantId, input.roleId, input.taskType, usd), step.config))])
  {
    VerdictInFull(step.input, DependenciesOf(s, step));
    VerdictCharacterised(step.input, DependenciesOf(s, step));
    hide EvaluateGateVerdict, UpperBoundUsd, TooOld, CanRun, CanDowngrade, Affordable, FirstWithoutRoom, SpentOf;
  }

  /**
   * In every reachable system, a quiet process that queues or skips for lack of room does so only when the store would
   * have refused the requested model's estimate, and the estimate of any model one tier below, too.
   */
  lemma OverCeilingVerdictIsSound(s: System, step: Step)
    requires IsReachable(s) && step.Decide? && Quiet(s, step.proc, step.tenantId)
             && LocalVerdict(s, step).reason.OverCeiling?
    requires forall amount: Usd ::
               ChecksConfigured(s, D.Request(step.tenantId, step.input.roleId, step.input.taskType, amount),
                                step.config)
    ensures var deps := DependenciesOf(s, step);
            var asked :=
              Estimator.EstimateCost(step.input.payload, step.input.model, step.input.outputClass, step.table,
                                     step.clock.estimate);
            && LocalVerdict(s, step).kind in {QUEUE, SKIP}
            && asked.Ok? && !D.Admissible(s.source, s.store, RequestAt(step, asked.value), step.config, s.today)
            && forall lower :: OneTierBelow(step.input, lower, deps) ==>
                 var e :=
                   Estimator.EstimateCost(step.input.payload, lower, step.input.outputClass, step.table,
                                          step.clock.downgradeEstimate);
                 e.Ok? ==> !D.Admissible(s.source, s.store, RequestAt(step, e.value), step.config, s.today)
  {
    hide IsReachable, Inv, Quiet, D.Admissible, ChecksConfigured, SpentOf;
    ReachableIsInOrder(s);
    var deps := DependenciesOf(s, step);
    VerdictCharacterised(step.input, deps);
    var asked :=
      Estimator.EstimateCost(step.input.payload, step.input.model, step.input.outputClass, step.table,
                             step.clock.estimate);
    LocalRefusalIsSound(s, step.proc, RequestAt(step, asked.value), step.config);
    forall lower | OneTierBelow(step.input, lower, deps)
      ensures var e :=
              Estimator.EstimateCost(step.input.payload, lower, step.input.outputClass, step.table,
                                     step.clock.downgradeEstimate);
              e.Ok? ==> !D.Admissible(s.source, s.store, RequestAt(step, e.value), step.config, s.today)
    {
      var e :=
        Estimator.EstimateCost(step.input.payload, lower, step.input.outputClass, step.table,
                               step.clock.downgradeEstimate);
      if e.Ok? {
        assert !Affordable(step.input, lower, deps, deps.clock.downgradeEstimate);
        LocalRefusalIsSound(s, step.proc, RequestAt(step, e.value), step.config);
      }
    }
  }
}
