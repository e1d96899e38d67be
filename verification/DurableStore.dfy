/**
 * The authoritative reservation store as a value: open and resolved reservations, and one counter row per scope.
 * Each operation is one atomic step.
 */
module DurableSpec {
  import opened Wrappers
  import opened Pricing
  import opened Sums
  import opened Ceilings

  /** A UTC calendar day; the company counter is keyed by its month. */
  datatype Day = Day(month: int, dayOfMonth: int)

  datatype Scope =
    | CompanyMonth(tenantId: Id, month: int)
    | RoleScope(tenantId: Id, roleId: Id)
    | TaskTypeScope(tenantId: Id, taskType: Id)
    | TaskTypeDay(tenantId: Id, taskType: Id, day: Day)

  datatype Request = Request(tenantId: Id, roleId: Id, taskType: Id, amountUsd: Usd)

  datatype Status = Open | Settled | Released

  /**
   * A reservation is booked on the rows of `day`, by the caller's clock; settling and releasing move the rows of
   * `recordedDay`. Settling overwrites `amountUsd` with the real cost.
   */
  datatype StoredReservation = StoredReservation(request: Request, day: Day, recordedDay: Day, status: Status)

  /** The two clocks at one reservation: the application's, and the database's. */
  datatype Moment = Moment(day: Day, dbDay: Day)

  datatype Counter = Counter(totalUsd: real, ceilingUsd: Option<real>)

  datatype Store = Store(reservations: map<Id, StoredReservation>, counters: map<Scope, Counter>)

  const EMPTY_STORE := Store(map[], map[])

  /**
   * Which ceiling a check uses. The in-memory store takes the one passed with the request; the Postgres store takes
   * the one written into the counter row when the row was first inserted.
   */
  datatype CeilingSource = AsPassed | AsRecorded

  /** The in-memory store keeps the day it booked; the Postgres store goes by its own timestamp. */
  function RecordedDay(source: CeilingSource, now: Moment): Day {
    if source.AsPassed? then now.day else now.dbDay
  }

  const LEVELS: seq<CeilingLevel> := [CompanyLevel, RoleLevel, TaskTypeLevel, TaskTypeDayLevel]

  function ScopeAt(level: CeilingLevel, req: Request, day: Day): Scope {
    match level
    case CompanyLevel => CompanyMonth(req.tenantId, day.month)
    case RoleLevel => RoleScope(req.tenantId, req.roleId)
    case TaskTypeLevel => TaskTypeScope(req.tenantId, req.taskType)
    case TaskTypeDayLevel => TaskTypeDay(req.tenantId, req.taskType, day)
  }

  /** The configured ceiling of a scope. */
  function CeilingOf(scope: Scope, config: CeilingConfig): Option<real> {
    match scope
    case CompanyMonth(_, _) => Some(config.companyMonthlyUsd)
    case RoleScope(_, roleId) => Cap(config.perRoleUsd, roleId)
    case TaskTypeScope(_, taskType) => Cap(config.perTaskTypeUsd, taskType)
    case TaskTypeDay(_, taskType, _) =>
      if taskType in config.perTaskTypePerDayUsd then Some(config.perTaskTypePerDayUsd[taskType])
      else config.perTaskTypePerDayDefaultUsd
  }

  function CounterTotal(counters: map<Scope, Counter>, scope: Scope): real {
    if scope in counters then counters[scope].totalUsd else 0.0
  }

  function EffectiveCeiling(source: CeilingSource, counters: map<Scope, Counter>, scope: Scope,
                            config: CeilingConfig): Option<real>
  {
    if source.AsRecorded? && scope in counters then counters[scope].ceilingUsd else CeilingOf(scope, config)
  }

  predicate HasRoom(source: CeilingSource, st: Store, level: CeilingLevel, req: Request, config: CeilingConfig,
                    day: Day)
  {
    var scope := ScopeAt(level, req, day);
    Under(EffectiveCeiling(source, st.counters, scope, config), CounterTotal(st.counters, scope), req.amountUsd)
  }

  /** The first of the four levels, from position `i` on, without room for the request. */
  function FirstRefusal(source: CeilingSource, st: Store, req: Request, config: CeilingConfig, day: Day,
                        i: nat): Option<CeilingLevel>
    requires i <= |LEVELS|
    decreases |LEVELS| - i
  {
    if i == |LEVELS| then None
    else if !HasRoom(source, st, LEVELS[i], req, config, day) then Some(LEVELS[i])
    else FirstRefusal(source, st, req, config, day, i + 1)
  }

  /** All four levels have room. */
  predicate Admissible(source: CeilingSource, st: Store, req: Request, config: CeilingConfig, day: Day) {
    && HasRoom(source, st, CompanyLevel, req, config, day)
    && HasRoom(source, st, RoleLevel, req, config, day)
    && HasRoom(source, st, TaskTypeLevel, req, config, day)
    && HasRoom(source, st, TaskTypeDayLevel, req, config, day)
  }

  /** One upsert of a counter row; an existing row keeps a ceiling it has. */
  function Bump(source: CeilingSource, counters: map<Scope, Counter>, scope: Scope, config: CeilingConfig,
                amountUsd: real)
    : map<Scope, Counter>
  {
    var ceiling := if scope in counters && (source.AsRecorded? || counters[scope].ceilingUsd.Some?)
                   then counters[scope].ceilingUsd else CeilingOf(scope, config);
    counters[scope := Counter(CounterTotal(counters, scope) + amountUsd, ceiling)]
  }

  /** The first `n` levels' rows, upserted. */
  function BumpLevels(source: CeilingSource, counters: map<Scope, Counter>, req: Request, config: CeilingConfig,
                      day: Day, n: nat)
    : map<Scope, Counter>
    requires n <= |LEVELS|
  {
    if n == 0 then counters
    else Bump(source, BumpLevels(source, counters, req, config, day, n - 1), ScopeAt(LEVELS[n - 1], req, day), config,
              req.amountUsd)
  }

  /** Adds `deltaUsd` to a row if it exists. */
  function Shift(counters: map<Scope, Counter>, scope: Scope, deltaUsd: real): map<Scope, Counter> {
    if scope in counters
    then counters[scope := counters[scope].(totalUsd := counters[scope].totalUsd + deltaUsd)] else counters
  }

  function ShiftLevels(counters: map<Scope, Counter>, r: StoredReservation, deltaUsd: real, n: nat): map<Scope, Counter>
    requires n <= |LEVELS|
  {
    if n == 0 then counters
    else Shift(ShiftLevels(counters, r, deltaUsd, n - 1), ScopeAt(LEVELS[n - 1], r.request, r.recordedDay), deltaUsd)
  }

  datatype Op =
    | ReserveOp(id: Id, req: Request, config: CeilingConfig, now: Moment)
    | SettleOp(tenantId: Id, id: Id, actualUsd: Usd)
    | ReleaseOp(tenantId: Id, id: Id)

  predicate IsOpen(st: Store, tenantId: Id, id: Id) {
    id in st.reservations && st.reservations[id].request.tenantId == tenantId && st.reservations[id].status == Open
  }

  /** Whether the operation takes effect; otherwise it is refused and changes nothing. A fresh id is never in use. */
  predicate Succeeds(source: CeilingSource, st: Store, op: Op) {
    match op
    case ReserveOp(id, req, config, now) => id !in st.reservations && Admissible(source, st, req, config, now.day)
    case SettleOp(tenantId, id, _) => IsOpen(st, tenantId, id)
    case ReleaseOp(tenantId, id) => IsOpen(st, tenantId, id)
  }

  /** How much more, or less, an operation on an open reservation makes it. */
  function Change(r: StoredReservation, op: Op): real {
    match op
    case ReserveOp(_, _, _, _) => 0.0
    case SettleOp(_, _, actualUsd) => actualUsd - r.request.amountUsd
    case ReleaseOp(_, _) => 0.0 - r.request.amountUsd
  }

  function Exec(source: CeilingSource, st: Store, op: Op): Store {
    if !Succeeds(source, st, op) then st
    else
      match op
      case ReserveOp(id, req, config, now) =>
        Store(st.reservations[id := StoredReservation(req, now.day, RecordedDay(source, now), Open)],
              BumpLevels(source, st.counters, req, config, now.day, |LEVELS|))
      case SettleOp(_, id, actualUsd) =>
        var r := st.reservations[id];
        Store(st.reservations[id := r.(request := r.request.(amountUsd := actualUsd), status := Settled)],
              ShiftLevels(st.counters, r, Change(r, op), |LEVELS|))
      case ReleaseOp(_, id) =>
        var r := st.reservations[id];
        Store(st.reservations[id := r.(status := Released)], ShiftLevels(st.counters, r, Change(r, op), |LEVELS|))
  }

  /** What an operation that takes effect writes under its reservation id. */
  function Written(source: CeilingSource, st: Store, op: Op): StoredReservation
    requires op.ReserveOp? || op.id in st.reservations
  {
    match op
    case ReserveOp(_, req, _, now) => StoredReservation(req, now.day, RecordedDay(source, now), Open)
    case SettleOp(_, id, actualUsd) =>
      var r := st.reservations[id];
      r.(request := r.request.(amountUsd := actualUsd), status := Settled)
    case ReleaseOp(_, id) => st.reservations[id].(status := Released)
  }

  lemma ExecWrites(source: CeilingSource, st: Store, op: Op)
    requires Succeeds(source, st, op)
    ensures Exec(source, st, op).reservations == st.reservations[op.id := Written(source, st, op)]
  {
    hide BumpLevels, ShiftLevels, Admissible;
  }

  // ---- What the counters mean ----------------------------------------------------------------------------------

  /** `scope` is one of the four scopes the reservation counts in. */
  predicate InScope(req: Request, day: Day, scope: Scope) {
    match scope
    case CompanyMonth(t, month) => t == req.tenantId && month == day.month
    case RoleScope(t, role) => t == req.tenantId && role == req.roleId
    case TaskTypeScope(t, taskType) => t == req.tenantId && taskType == req.taskType
    case TaskTypeDay(t, taskType, d) => t == req.tenantId && taskType == req.taskType && d == day
  }

  /** What one reservation weighs on a scope: its amount, unless it was released. */
  function Weight(r: StoredReservation, scope: Scope): Usd {
    if InScope(r.request, r.day, scope) && r.status != Released then r.request.amountUsd else 0.0
  }

  ghost function Weights(reservations: map<Id, StoredReservation>, scope: Scope): map<Id, real> {
    map id | id in reservations :: Weight(reservations[id], scope)
  }

  ghost function Committed(reservations: map<Id, StoredReservation>, scope: Scope): real {
    Total(Weights(reservations, scope))
  }

  /** Every counter is the sum over the reservations booked on it. */
  ghost predicate Balanced(st: Store) {
    forall scope :: CounterTotal(st.counters, scope) == Committed(st.reservations, scope)
  }

  /** Every reservation has the rows it was booked on. */
  ghost predicate RowsExist(st: Store) {
    forall id, scope :: id in st.reservations && IsBookedOn(st.reservations[id], scope) ==> scope in st.counters
  }

  predicate IsBookedOn(r: StoredReservation, scope: Scope) {
    InScope(r.request, r.day, scope)
  }

  /** Resolving the reservation moves `scope` exactly when booking it did. */
  predicate IsStraightOn(r: StoredReservation, scope: Scope) {
    InScope(r.request, r.day, scope) <==> InScope(r.request, r.recordedDay, scope)
  }

  /** No reservation resolved so far was booked on one side of `scope` and recorded on the other. */
  ghost predicate Straight(st: Store, scope: Scope) {
    forall id :: id in st.reservations && st.reservations[id].status != Open ==>
      IsStraightOn(st.reservations[id], scope)
  }

  /** The accounts of every reachable store: a row is balanced unless a resolution has gone past it. */
  ghost predicate Accounted(st: Store) {
    && RowsExist(st)
    && forall scope :: Straight(st, scope) ==> CounterTotal(st.counters, scope) == Committed(st.reservations, scope)
  }

  lemma WriteMovesCommitted(reservations: map<Id, StoredReservation>, id: Id, r: StoredReservation, scope: Scope)
    ensures Committed(reservations[id := r], scope)
            == Committed(reservations, scope)
              + Weight(r, scope) - (if id in reservations then Weight(reservations[id], scope) else 0.0)
  {
    TotalSet(Weights(reservations, scope), id, Weight(r, scope));
    assert Weights(reservations[id := r], scope) == Weights(reservations, scope)[id := Weight(r, scope)];
  }

  /** How far one operation moves the money committed on a scope. */
  function Delta(source: CeilingSource, st: Store, op: Op, scope: Scope): real {
    if !Succeeds(source, st, op) then 0.0
    else if op.ReserveOp? then (if InScope(op.req, op.now.day, scope) then op.req.amountUsd else 0.0)
    else
      var r := st.reservations[op.id];
      if InScope(r.request, r.day, scope) then Change(r, op) else 0.0
  }

  /** How far it moves the scope's counter. */
  function RowDelta(source: CeilingSource, st: Store, op: Op, scope: Scope): real {
    if !Succeeds(source, st, op) then 0.0
    else if op.ReserveOp? then (if InScope(op.req, op.now.day, scope) then op.req.amountUsd else 0.0)
    else
      var r := st.reservations[op.id];
      if InScope(r.request, r.recordedDay, scope) && scope in st.counters then Change(r, op) else 0.0
  }

  /** Where a scope's level stands in LEVELS. */
  function Position(scope: Scope): nat {
    match scope
    case CompanyMonth(_, _) => 0
    case RoleScope(_, _) => 1
    case TaskTypeScope(_, _) => 2
    case TaskTypeDay(_, _, _) => 3
  }

  lemma ScopeAtPosition(req: Request, day: Day, scope: Scope, n: nat)
    requires n < |LEVELS|
    ensures ScopeAt(LEVELS[n], req, day) == scope <==> InScope(req, day, scope) && Position(scope) == n
  {
  }

  /** After the first `n` levels, exactly the touched scopes among them are bumped, once each. */
  lemma {:induction false} BumpedRow(source: CeilingSource, counters: map<Scope, Counter>, req: Request,
                                     config: CeilingConfig, day: Day, n: nat, scope: Scope)
    requires n <= |LEVELS|
    ensures var after := BumpLevels(source, counters, req, config, day, n);
            if InScope(req, day, scope) && Position(scope) < n
            then scope in after && after[scope] == Bump(source, counters, scope, config, req.amountUsd)[scope]
            else (scope in after <==> scope in counters) && (scope in after ==> after[scope] == counters[scope])
  {
    if n > 0 {
      BumpedRow(source, counters, req, config, day, n - 1, scope);
      ScopeAtPosition(req, day, scope, n - 1);
    }
  }

  lemma {:induction false} ShiftedRow(counters: map<Scope, Counter>, r: StoredReservation, deltaUsd: real, n: nat,
                                      scope: Scope)
    requires n <= |LEVELS|
    ensures var after := ShiftLevels(counters, r, deltaUsd, n);
            && (scope in after <==> scope in counters)
            && (scope in after ==>
                  var moved := InScope(r.request, r.recordedDay, scope) && Position(scope) < n;
                  after[scope]
                    == counters[scope].(totalUsd := counters[scope].totalUsd + (if moved then deltaUsd else 0.0)))
  {
    if n > 0 {
      ShiftedRow(counters, r, deltaUsd, n - 1, scope);
      ScopeAtPosition(r.request, r.recordedDay, scope, n - 1);
    }
  }

  lemma ExecMovesRow(source: CeilingSource, st: Store, op: Op, scope: Scope)
    ensures var after := Exec(source, st, op);
            && CounterTotal(after.counters, scope) == CounterTotal(st.counters, scope) + RowDelta(source, st, op, scope)
            && Committed(after.reservations, scope) == Committed(st.reservations, scope) + Delta(source, st, op, scope)
            && (scope in st.counters ==> scope in after.counters)
            && (op.ReserveOp? && Succeeds(source, st, op) && InScope(op.req, op.now.day, scope) ==>
                  scope in after.counters)
  {
    hide Committed, BumpLevels, ShiftLevels, Admissible;
    if Succeeds(source, st, op) {
      ExecWrites(source, st, op);
      WriteMovesCommitted(st.reservations, op.id, Written(source, st, op), scope);
      match op
      case ReserveOp(id, req, config, now) =>
        BumpedRow(source, st.counters, req, config, now.day, |LEVELS|, scope);
      case SettleOp(_, id, actualUsd) =>
        ShiftedRow(st.counters, st.reservations[id], Change(st.reservations[id], op), |LEVELS|, scope);
      case ReleaseOp(_, id) =>
        ShiftedRow(st.counters, st.reservations[id], Change(st.reservations[id], op), |LEVELS|, scope);
    }
  }

  /** Resolutions only ever leave a scope straight that was straight before. */
  lemma StraightBefore(source: CeilingSource, st: Store, op: Op, scope: Scope)
    requires Straight(Exec(source, st, op), scope)
    ensures Straight(st, scope)
    ensures Succeeds(source, st, op) && !op.ReserveOp? ==> IsStraightOn(st.reservations[op.id], scope)
  {
    hide BumpLevels, ShiftLevels, Admissible;
    var after := Exec(source, st, op);
    forall id | id in st.reservations && st.reservations[id].status != Open
      ensures IsStraightOn(st.reservations[id], scope)
    {
      assert IsStraightOn(after.reservations[id], scope);
    }
    if Succeeds(source, st, op) && !op.ReserveOp? {
      assert IsStraightOn(after.reservations[op.id], scope);
    }
  }

  lemma ExecKeepsRows(source: CeilingSource, st: Store, op: Op)
    requires RowsExist(st)
    ensures RowsExist(Exec(source, st, op))
  {
    hide Committed, BumpLevels, ShiftLevels, Admissible, InScope;
    var after := Exec(source, st, op);
    forall id, scope | id in after.reservations && IsBookedOn(after.reservations[id], scope)
      ensures scope in after.counters
    {
      ExecMovesRow(source, st, op, scope);
      if id in st.reservations {
        SameBooking(source, st, op, id, scope);
      }
    }
  }

  lemma SameBooking(source: CeilingSource, st: Store, op: Op, id: Id, scope: Scope)
    requires id in st.reservations
    ensures id in Exec(source, st, op).reservations
    ensures IsBookedOn(Exec(source, st, op).reservations[id], scope) == IsBookedOn(st.reservations[id], scope)
  {
    hide BumpLevels, ShiftLevels, Admissible;
  }

  lemma ExecKeepsAccounts(source: CeilingSource, st: Store, op: Op)
    requires Accounted(st)
    ensures Accounted(Exec(source, st, op))
  {
    hide Committed, Straight, IsStraightOn, InScope, Exec, Change, RowsExist;
    var after := Exec(source, st, op);
    assert RowsExist(after) by {
      ExecKeepsRows(source, st, op);
    }
    forall scope | Straight(after, scope)
      ensures CounterTotal(after.counters, scope) == Committed(after.reservations, scope)
    {
      StraightBefore(source, st, op, scope);
      ExecMovesRow(source, st, op, scope);
      StraightMovesAlike(source, st, op, scope);
    }
  }

  lemma StraightMovesAlike(source: CeilingSource, st: Store, op: Op, scope: Scope)
    requires RowsExist(st)
    requires Succeeds(source, st, op) && !op.ReserveOp? ==> IsStraightOn(st.reservations[op.id], scope)
    ensures RowDelta(source, st, op, scope) == Delta(source, st, op, scope)
  {
    hide Admissible;
    if Succeeds(source, st, op) && !op.ReserveOp? {
      assert IsBookedOn(st.reservations[op.id], scope) ==> scope in st.counters;
    }
  }

  // ---- The spending bound over whole runs ----------------------------------------------------------------------

  /** The store after any sequence of operations, in whatever order callers on any number of replicas issue them. */
  function After(source: CeilingSource, ops: seq<Op>): Store {
    if ops == [] then EMPTY_STORE else Exec(source, After(source, ops[..|ops| - 1]), ops[|ops| - 1])
  }

  /** By how much a settlement cost more than was reserved for it. */
  function Overrun(source: CeilingSource, st: Store, op: Op, scope: Scope): Usd {
    if op.SettleOp? && Delta(source, st, op, scope) > 0.0 then Delta(source, st, op, scope) else 0.0
  }

  function Overruns(source: CeilingSource, ops: seq<Op>, scope: Scope): Usd {
    if ops == [] then 0.0
    else
      var before := ops[..|ops| - 1];
      Overruns(source, before, scope) + Overrun(source, After(source, before), ops[|ops| - 1], scope)
  }

  /** Every reservation of a tenant is requested under that tenant's one configuration. */
  predicate FixedCeilings(ops: seq<Op>, configs: map<Id, CeilingConfig>) {
    forall i :: 0 <= i < |ops| && ops[i].ReserveOp? ==>
                  ops[i].req.tenantId in configs && ops[i].config == configs[ops[i].req.tenantId]
  }

  // ---- Two clocks ----------------------------------------------------------------------------------------------

  /** By how much one operation moves committed money past the scope's counter. */
  function Stray(source: CeilingSource, st: Store, op: Op, scope: Scope): real {
    Delta(source, st, op, scope) - RowDelta(source, st, op, scope)
  }

  function Drift(source: CeilingSource, ops: seq<Op>, scope: Scope): real {
    if ops == [] then 0.0
    else
      var before := ops[..|ops| - 1];
      Drift(source, before, scope) + Stray(source, After(source, before), ops[|ops| - 1], scope)
  }

  /** The money that counters lost sight of, summed. */
  function Strays(source: CeilingSource, ops: seq<Op>, scope: Scope): Usd {
    if ops == [] then 0.0
    else
      var before := ops[..|ops| - 1];
      var stray := Stray(source, After(source, before), ops[|ops| - 1], scope);
      Strays(source, before, scope) + if stray > 0.0 then stray else 0.0
  }

  /** In every run a counter is the money committed on its scope, but for what resolutions moved past it. */
  lemma {:induction false} RunIsAccounted(source: CeilingSource, ops: seq<Op>, scope: Scope)
    ensures Committed(After(source, ops).reservations, scope)
         == CounterTotal(After(source, ops).counters, scope) + Drift(source, ops, scope)
    ensures Drift(source, ops, scope) <= Strays(source, ops, scope)
  {
    hide Committed, Delta, RowDelta, Exec;
    if ops == [] {
      NothingCommitted(scope);
    } else {
      RunIsAccounted(source, ops[..|ops| - 1], scope);
      ExecMovesRow(source, After(source, ops[..|ops| - 1]), ops[|ops| - 1], scope);
    }
  }

  lemma NothingCommitted(scope: Scope)
    ensures Committed(map[], scope) == 0.0
  {
    TotalZero(Weights(map[], scope));
  }

  lemma {:induction false} RunKeepsAccounts(source: CeilingSource, ops: seq<Op>)
    ensures Accounted(After(source, ops))
  {
    hide Committed, Exec;
    if ops == [] {
      forall scope
        ensures Committed(map[], scope) == 0.0
      {
        NothingCommitted(scope);
      }
    } else {
      RunKeepsAccounts(source, ops[..|ops| - 1]);
      ExecKeepsAccounts(source, After(source, ops[..|ops| - 1]), ops[|ops| - 1]);
    }
  }

  /** A resolution that changes no amount, or goes to the rows the reservation was booked on. */
  predicate MovesItsRows(st: Store, op: Op)
    requires op.ReserveOp? || op.id in st.reservations
  {
    op.ReserveOp? || Change(st.reservations[op.id], op) == 0.0
    || st.reservations[op.id].day == st.reservations[op.id].recordedDay
  }

  lemma BalanceSurvivesIff(source: CeilingSource, st: Store, op: Op)
    requires Balanced(st) && RowsExist(st) && Succeeds(source, st, op)
    ensures Balanced(Exec(source, st, op)) <==> MovesItsRows(st, op)
  {
    hide Committed, BumpLevels, ShiftLevels, Admissible, Exec;
    var after := Exec(source, st, op);
    if MovesItsRows(st, op) {
      forall scope
        ensures CounterTotal(after.counters, scope) == Committed(after.reservations, scope)
      {
        ExecMovesRow(source, st, op, scope);
        assert !op.ReserveOp? && IsBookedOn(st.reservations[op.id], scope) ==> scope in st.counters;
      }
    } else {
      var r := st.reservations[op.id];
      ExecMovesRow(source, st, op, TaskTypeDay(r.request.tenantId, r.request.taskType, r.day));
    }
  }

  ghost predicate BalancedThroughout(source: CeilingSource, ops: seq<Op>) {
    forall n :: 0 <= n <= |ops| ==> Balanced(After(source, ops[..n]))
  }

  predicate ResolvesInPlace(source: CeilingSource, ops: seq<Op>) {
    forall n :: 0 <= n < |ops| && Succeeds(source, After(source, ops[..n]), ops[n]) ==>
                  MovesItsRows(After(source, ops[..n]), ops[n])
  }

  /**
   * Counters equal the money behind them throughout a run exactly when every settlement or release that changes an
   * amount finds its reservation recorded, by the database's clock, on the day it was booked, by the caller's clock.
   */
  lemma {:induction false} BalancedThroughoutIff(source: CeilingSource, ops: seq<Op>)
    ensures BalancedThroughout(source, ops) <==> ResolvesInPlace(source, ops)
  {
    hide Balanced, Succeeds, MovesItsRows, After;
    if ops == [] {
      EmptyIsBalanced(source);
      assert ops[..0] == [];
    } else {
      BalancedThroughoutIff(source, ops[..|ops| - 1]);
      BalancedMore(source, ops);
      BalanceOfLast(source, ops);
    }
  }

  lemma BalancedMore(source: CeilingSource, ops: seq<Op>)
    requires ops != []
    ensures var before, st, op := ops[..|ops| - 1], After(source, ops[..|ops| - 1]), ops[|ops| - 1];
            && (BalancedThroughout(source, before) ==> Balanced(st))
            && (BalancedThroughout(source, ops) <==> BalancedThroughout(source, before) && Balanced(After(source, ops)))
            && (ResolvesInPlace(source, ops) <==>
                  ResolvesInPlace(source, before) && (Succeeds(source, st, op) ==> MovesItsRows(st, op)))
  {
    hide Balanced, Succeeds, MovesItsRows, Exec, After;
    var before := ops[..|ops| - 1];
    assert forall n :: 0 <= n <= |before| ==> before[..n] == ops[..n];
    assert before[..|before|] == before && ops[..|ops|] == ops;
  }

  lemma BalanceOfLast(source: CeilingSource, ops: seq<Op>)
    requires ops != []
    ensures var st, op := After(source, ops[..|ops| - 1]), ops[|ops| - 1];
            Balanced(st) ==>
              (Balanced(After(source, ops)) <==> (Succeeds(source, st, op) ==> MovesItsRows(st, op)))
  {
    var st, op := After(source, ops[..|ops| - 1]), ops[|ops| - 1];
    hide Balanced, Succeeds, MovesItsRows;
    RunKeepsAccounts(source, ops[..|ops| - 1]);
    if Balanced(st) && Succeeds(source, st, op) {
      BalanceSurvivesIff(source, st, op);
    }
  }

  const TURN := Moment(Day(1, 31), Day(2, 1))
  const TEN_A_MONTH := CeilingConfig(10.0, map[], map[], map[], None)
  const TEN := Request(0, 0, 0, 10.0)

  /** Over the turn of a month: one reservation booked in January and recorded in February, two more in February. */
  function TurnOps(): seq<Op> {
    var february := Moment(TURN.dbDay, TURN.dbDay);
    [ReserveOp(0, TEN, TEN_A_MONTH, TURN)] + [ReserveOp(1, TEN, TEN_A_MONTH, february)] + [ReleaseOp(0, 0)]
      + [ReserveOp(2, TEN, TEN_A_MONTH, february)]
  }

  lemma Then(source: CeilingSource, ops: seq<Op>, op: Op)
    ensures After(source, ops + [op]) == Exec(source, After(source, ops), op)
  {
    assert (ops + [op])[..|ops + [op]| - 1] == ops;
  }

  /** A row of the example: what it counts, what is committed on it, and its $10 ceiling, when it is a company's. */
  ghost predicate Shows(st: Store, scope: Scope, counted: real, committed: real) {
    CounterTotal(st.counters, scope) == counted && Committed(st.reservations, scope) == committed
    && (scope in st.counters ==> st.counters[scope].ceilingUsd == CeilingOf(scope, TEN_A_MONTH))
  }

  lemma ReserveShows(st: Store, id: Id, now: Moment, scope: Scope, counted: real, committed: real)
    requires id !in st.reservations && Admissible(AsRecorded, st, TEN, TEN_A_MONTH, now.day)
             && Shows(st, scope, counted, committed)
    ensures var more := if InScope(TEN, now.day, scope) then 10.0 else 0.0;
            Shows(Exec(AsRecorded, st, ReserveOp(id, TEN, TEN_A_MONTH, now)), scope, counted + more, committed + more)
  {
    hide Committed, BumpLevels, ShiftLevels, Admissible;
    ExecMovesRow(AsRecorded, st, ReserveOp(id, TEN, TEN_A_MONTH, now), scope);
    BumpedRow(AsRecorded, st.counters, TEN, TEN_A_MONTH, now.day, |LEVELS|, scope);
  }

  /** Whether the company row decides alone: nothing else is capped. */
  lemma CompanyDecides(st: Store, day: Day)
    requires forall scope :: scope in st.counters ==> st.counters[scope].ceilingUsd == CeilingOf(scope, TEN_A_MONTH)
    ensures Admissible(AsRecorded, st, TEN, TEN_A_MONTH, day) <==>
            CounterTotal(st.counters, CompanyMonth(0, day.month)) + 10.0 <= 10.0
  {
  }

  lemma TurnTwoReserved(jan: Scope, feb: Scope)
    requires jan == CompanyMonth(0, 1) && feb == CompanyMonth(0, 2)
    ensures var st := After(AsRecorded, TurnOps()[..2]);
            && Shows(st, jan, 10.0, 10.0) && Shows(st, feb, 10.0, 10.0)
            && st.reservations == map[0 := StoredReservation(TEN, TURN.day, TURN.dbDay, Open),
                                      1 := StoredReservation(TEN, TURN.dbDay, TURN.dbDay, Open)]
            && forall scope :: scope in st.counters ==> st.counters[scope].ceilingUsd == CeilingOf(scope, TEN_A_MONTH)
  {
    var first, second := TurnOps()[0], TurnOps()[1];
    var one := Exec(AsRecorded, EMPTY_STORE, first);
    hide Committed, BumpLevels, ShiftLevels, Admissible, InScope, After;
    TurnStart();
    NothingCommitted(jan);
    NothingCommitted(feb);
    CompanyDecides(EMPTY_STORE, TURN.day);
    ReserveShows(EMPTY_STORE, 0, TURN, jan, 0.0, 0.0);
    ReserveShows(EMPTY_STORE, 0, TURN, feb, 0.0, 0.0);
    TurnScopes(jan, feb);
    RowsOfReserve(EMPTY_STORE, 0, TURN);
    CompanyDecides(one, TURN.dbDay);
    ReserveShows(one, 1, second.now, jan, 10.0, 10.0);
    ReserveShows(one, 1, second.now, feb, 0.0, 0.0);
    RowsOfReserve(one, 1, second.now);
    ExecWrites(AsRecorded, EMPTY_STORE, first);
    ExecWrites(AsRecorded, one, second);
  }

  lemma TurnStart()
    ensures After(AsRecorded, TurnOps()[..2])
            == Exec(AsRecorded, Exec(AsRecorded, EMPTY_STORE, TurnOps()[0]), TurnOps()[1])
  {
    hide Exec;
    assert TurnOps()[..2] == [] + [TurnOps()[0]] + [TurnOps()[1]];
    Then(AsRecorded, [], TurnOps()[0]);
    Then(AsRecorded, [] + [TurnOps()[0]], TurnOps()[1]);
  }

  lemma TurnScopes(jan: Scope, feb: Scope)
    requires jan == CompanyMonth(0, 1) && feb == CompanyMonth(0, 2)
    ensures InScope(TEN, TURN.day, jan) && !InScope(TEN, TURN.day, feb) && InScope(TEN, TURN.dbDay, feb)
            && !InScope(TEN, TURN.dbDay, jan)
  {
  }

  lemma RowsOfReserve(st: Store, id: Id, now: Moment)
    requires forall scope :: scope in st.counters ==> st.counters[scope].ceilingUsd == CeilingOf(scope, TEN_A_MONTH)
    ensures var after := Exec(AsRecorded, st, ReserveOp(id, TEN, TEN_A_MONTH, now));
            forall scope :: scope in after.counters ==>
              after.counters[scope].ceilingUsd == CeilingOf(scope, TEN_A_MONTH)
  {
    hide BumpLevels, ShiftLevels, Admissible;
    forall scope
      ensures var after := Exec(AsRecorded, st, ReserveOp(id, TEN, TEN_A_MONTH, now));
              scope in after.counters ==> after.counters[scope].ceilingUsd == CeilingOf(scope, TEN_A_MONTH)
    {
      BumpedRow(AsRecorded, st.counters, TEN, TEN_A_MONTH, now.day, |LEVELS|, scope);
    }
  }

  /**
   * A month turns between the two clocks: the released money leaves February's row, which never held it, and stays on
   * January's; so February takes on $20 under a $10 ceiling, although nothing was settled at all.
   */
  lemma MonthTurnMissesItsRow()
    ensures var st := After(AsRecorded, TurnOps());
            && Shows(st, CompanyMonth(0, 1), 10.0, 0.0) && Shows(st, CompanyMonth(0, 2), 10.0, 20.0)
            && Overruns(AsRecorded, TurnOps(), CompanyMonth(0, 2)) == 0.0
            && FixedCeilings(TurnOps(), map[0 := TEN_A_MONTH])
  {
    assert |TurnOps()| == 4;
    hide *;
    var jan, feb := CompanyMonth(0, 1), CompanyMonth(0, 2);
    var three := Exec(AsRecorded, After(AsRecorded, TurnOps()[..2]), ReleaseOp(0, 0));
    TurnReleased(jan, feb);
    TurnEnd();
    TurnReserves(three, jan, feb);
    TurnSettlesNothing(feb);
  }

  lemma TurnReserves(three: Store, jan: Scope, feb: Scope)
    requires jan == CompanyMonth(0, 1) && feb == CompanyMonth(0, 2) && 2 !in three.reservations
    requires Shows(three, jan, 10.0, 0.0) && Shows(three, feb, 0.0, 10.0)
    requires CounterTotal(three.counters, CompanyMonth(0, TURN.dbDay.month)) == 0.0
    requires forall scope :: scope in three.counters ==>
               three.counters[scope].ceilingUsd == CeilingOf(scope, TEN_A_MONTH)
    ensures var st := Exec(AsRecorded, three, ReserveOp(2, TEN, TEN_A_MONTH, Moment(TURN.dbDay, TURN.dbDay)));
            Shows(st, jan, 10.0, 0.0) && Shows(st, feb, 10.0, 20.0)
  {
    hide Shows, Admissible, Exec, CounterTotal, InScope;
    var february := Moment(TURN.dbDay, TURN.dbDay);
    TurnScopes(jan, feb);
    CompanyDecides(three, TURN.dbDay);
    ReserveShows(three, 2, february, jan, 10.0, 0.0);
    ReserveShows(three, 2, february, feb, 0.0, 10.0);
  }

  lemma TurnSettlesNothing(feb: Scope)
    ensures Overruns(AsRecorded, TurnOps(), feb) == 0.0 && FixedCeilings(TurnOps(), map[0 := TEN_A_MONTH])
  {
    hide After;
    NoOverruns(AsRecorded, TurnOps(), feb);
  }

  lemma TurnReleased(jan: Scope, feb: Scope)
    requires jan == CompanyMonth(0, 1) && feb == CompanyMonth(0, 2)
    ensures var st := Exec(AsRecorded, After(AsRecorded, TurnOps()[..2]), ReleaseOp(0, 0));
            && Shows(st, jan, 10.0, 0.0) && Shows(st, feb, 0.0, 10.0) && st.reservations.Keys == {0, 1}
            && CounterTotal(st.counters, CompanyMonth(0, TURN.dbDay.month)) == 0.0
            && forall scope :: scope in st.counters ==> st.counters[scope].ceilingUsd == CeilingOf(scope, TEN_A_MONTH)
  {
    hide Committed, BumpLevels, ShiftLevels, Admissible, InScope, After, CounterTotal, Exec;
    var two := After(AsRecorded, TurnOps()[..2]);
    TurnTwoReserved(jan, feb);
    TurnScopes(jan, feb);
    FebruaryHasRow(two, feb);
    ExecMovesRow(AsRecorded, two, ReleaseOp(0, 0), jan);
    ExecMovesRow(AsRecorded, two, ReleaseOp(0, 0), feb);
    ReleaseKeepsCeilings(two, ReleaseOp(0, 0));
  }

  lemma FebruaryHasRow(st: Store, feb: Scope)
    requires CounterTotal(st.counters, feb) == 10.0
    ensures feb in st.counters
  {
  }

  lemma ReleaseKeepsCeilings(st: Store, op: Op)
    requires op.ReleaseOp?
    requires forall scope :: scope in st.counters ==> st.counters[scope].ceilingUsd == CeilingOf(scope, TEN_A_MONTH)
    ensures var after := Exec(AsRecorded, st, op);
            && (forall scope :: scope in after.counters ==>
                  after.counters[scope].ceilingUsd == CeilingOf(scope, TEN_A_MONTH))
            && after.reservations.Keys == st.reservations.Keys
  {
    hide ShiftLevels;
    if Succeeds(AsRecorded, st, op) {
      forall scope
        ensures var after := Exec(AsRecorded, st, op);
                scope in after.counters ==> after.counters[scope].ceilingUsd == CeilingOf(scope, TEN_A_MONTH)
      {
        ShiftedRow(st.counters, st.reservations[op.id], Change(st.reservations[op.id], op), |LEVELS|, scope);
      }
    }
  }

  lemma TurnEnd()
    ensures After(AsRecorded, TurnOps())
         == Exec(AsRecorded, Exec(AsRecorded, After(AsRecorded, TurnOps()[..2]), ReleaseOp(0, 0)),
                 ReserveOp(2, TEN, TEN_A_MONTH, Moment(TURN.dbDay, TURN.dbDay)))
  {
    hide Exec, After;
    assert TurnOps() == TurnOps()[..2] + [ReleaseOp(0, 0)] + [TurnOps()[3]];
    Then(AsRecorded, TurnOps()[..2], ReleaseOp(0, 0));
    Then(AsRecorded, TurnOps()[..2] + [ReleaseOp(0, 0)], TurnOps()[3]);
  }

  lemma EmptyIsBalanced(source: CeilingSource)
    ensures Balanced(After(source, []))
  {
    hide Committed;
    forall scope
      ensures Committed(map[], scope) == 0.0
    {
      NothingCommitted(scope);
    }
  }

  /** Every reservation of the run was made while both clocks showed the same day. */
  predicate ClocksAgree(ops: seq<Op>) {
    forall i :: 0 <= i < |ops| && ops[i].ReserveOp? ==> ops[i].now.day == ops[i].now.dbDay
  }

  predicate IsRecordedAsBooked(r: StoredReservation) {
    r.day == r.recordedDay
  }

  ghost predicate AllRecordedAsBooked(st: Store) {
    forall id :: id in st.reservations ==> IsRecordedAsBooked(st.reservations[id])
  }

  lemma {:induction false} DaysAgree(source: CeilingSource, ops: seq<Op>)
    requires source.AsPassed? || ClocksAgree(ops)
    ensures AllRecordedAsBooked(After(source, ops))
  {
    hide BumpLevels, ShiftLevels, Admissible, Exec;
    if ops != [] {
      var st, op := After(source, ops[..|ops| - 1]), ops[|ops| - 1];
      DaysAgree(source, ops[..|ops| - 1]);
      if Succeeds(source, st, op) {
        ExecWrites(source, st, op);
        assert !op.ReserveOp? ==> IsRecordedAsBooked(st.reservations[op.id]);
      } else {
        RefusalWritesNothing(source, st, op);
      }
    }
  }

  lemma RefusalWritesNothing(source: CeilingSource, st: Store, op: Op)
    requires !Succeeds(source, st, op)
    ensures Exec(source, st, op) == st
  {
  }

  lemma BookedIsStraight(st: Store, scope: Scope)
    requires AllRecordedAsBooked(st)
    ensures Straight(st, scope)
  {
    hide InScope;
    forall id | id in st.reservations
      ensures IsStraightOn(st.reservations[id], scope)
    {
      assert IsRecordedAsBooked(st.reservations[id]);
    }
  }

  /** The in-memory store is balanced after every run, and the Postgres store while the clocks agree. */
  lemma RunIsBalanced(source: CeilingSource, ops: seq<Op>)
    requires source.AsPassed? || ClocksAgree(ops)
    ensures Balanced(After(source, ops))
  {
    hide Committed, InScope, After;
    RunKeepsAccounts(source, ops);
    DaysAgree(source, ops);
    forall scope
      ensures Straight(After(source, ops), scope)
    {
      BookedIsStraight(After(source, ops), scope);
    }
  }

  /** Under fixed ceilings, what a row recorded is what is configured. */
  lemma {:induction false} RowsRecordFixedCeilings(source: CeilingSource, ops: seq<Op>,
                                                   configs: map<Id, CeilingConfig>, scope: Scope)
    requires FixedCeilings(ops, configs)
    ensures var rows := After(source, ops).counters;
            scope in rows ==>
              scope.tenantId in configs && rows[scope].ceilingUsd == CeilingOf(scope, configs[scope.tenantId])
  {
    if ops != [] {
      var st, op := After(source, ops[..|ops| - 1]), ops[|ops| - 1];
      RowsRecordFixedCeilings(source, ops[..|ops| - 1], configs, scope);
      if op.ReserveOp? {
        BumpedRow(source, st.counters, op.req, op.config, op.now.day, |LEVELS|, scope);
      } else if Succeeds(source, st, op) {
        ShiftedRow(st.counters, st.reservations[op.id], Change(st.reservations[op.id], op), |LEVELS|, scope);
      }
    }
  }

  /**
   * The ceiling is a real cap over time. In every run, settled plus reserved money of every company-month, role, task
   * type and task-type-day is at most its recorded ceiling plus the summed overruns of settlements plus what the two
   * clocks made its counter lose sight of. With the Postgres store this assumes nothing of the configurations passed.
   */
  lemma {:induction false} SpendingBound(source: CeilingSource, ops: seq<Op>, configs: map<Id, CeilingConfig>,
                                         scope: Scope)
    requires source.AsRecorded? || FixedCeilings(ops, configs)
    ensures var st := After(source, ops);
            scope in st.counters && st.counters[scope].ceilingUsd.Some? ==>
              Committed(st.reservations, scope)
              <= st.counters[scope].ceilingUsd.value + Overruns(source, ops, scope) + Strays(source, ops, scope)
  {
    hide Committed, BumpLevels, ShiftLevels;
    RunIsAccounted(source, ops, scope);
    if ops != [] {
      var before := ops[..|ops| - 1];
      var st, op := After(source, before), ops[|ops| - 1];
      RunIsAccounted(source, before, scope);
      SpendingBound(source, before, configs, scope);
      ExecMovesRow(source, st, op, scope);
      if Succeeds(source, st, op) {
        if op.ReserveOp? {
          BumpedRow(source, st.counters, op.req, op.config, op.now.day, |LEVELS|, scope);
          if source.AsPassed? {
            RowsRecordFixedCeilings(source, before, configs, scope);
          }
        } else {
          ShiftedRow(st.counters, st.reservations[op.id], Change(st.reservations[op.id], op), |LEVELS|, scope);
        }
      }
    }
  }

  /** Role and task-type rows know no day, so the clocks cannot part them from their money. */
  predicate IsDayless(scope: Scope) {
    scope.RoleScope? || scope.TaskTypeScope?
  }

  lemma {:induction false} NoStrays(source: CeilingSource, ops: seq<Op>, scope: Scope)
    requires source.AsPassed? || ClocksAgree(ops) || IsDayless(scope)
    ensures Strays(source, ops, scope) == 0.0
  {
    hide RowDelta, Delta, Exec;
    if ops != [] {
      var before, op := ops[..|ops| - 1], ops[|ops| - 1];
      NoStrays(source, before, scope);
      RunKeepsAccounts(source, before);
      if !IsDayless(scope) {
        DaysAgree(source, before);
        assert Succeeds(source, After(source, before), op) && !op.ReserveOp? ==>
                 IsRecordedAsBooked(After(source, before).reservations[op.id]);
      }
      StraightMovesAlike(source, After(source, before), op, scope);
    }
  }

  /** No settlement costs more than its reservation, as when the executor reports no cost. */
  predicate SettlesWithinReserve(source: CeilingSource, ops: seq<Op>) {
    forall i :: 0 <= i < |ops| && ops[i].SettleOp? ==>
                  var st := After(source, ops[..i]);
                  IsOpen(st, ops[i].tenantId, ops[i].id) ==>
                    ops[i].actualUsd <= st.reservations[ops[i].id].request.amountUsd
  }

  /**
   * Then, under fixed ceilings, no role and no task type ever exceeds its configured ceiling, nor does any company
   * month or task-type day while the clocks agree.
   */
  lemma CeilingIsExact(source: CeilingSource, ops: seq<Op>, st: Store, configs: map<Id, CeilingConfig>, scope: Scope)
    requires st == After(source, ops) && FixedCeilings(ops, configs) && SettlesWithinReserve(source, ops)
    requires scope in st.counters && scope.tenantId in configs && CeilingOf(scope, configs[scope.tenantId]).Some?
    ensures var ceilingUsd := CeilingOf(scope, configs[scope.tenantId]).value;
            && Committed(st.reservations, scope) <= ceilingUsd + Strays(source, ops, scope)
            && (source.AsPassed? || ClocksAgree(ops) || IsDayless(scope) ==>
                  Committed(st.reservations, scope) <= ceilingUsd)
  {
    hide Committed, Strays, Overruns;
    SpendingBound(source, ops, configs, scope);
    RowsRecordFixedCeilings(source, ops, configs, scope);
    NoOverruns(source, ops, scope);
    if source.AsPassed? || ClocksAgree(ops) || IsDayless(scope) {
      NoStrays(source, ops, scope);
    }
  }

  lemma {:induction false} NoOverruns(source: CeilingSource, ops: seq<Op>, scope: Scope)
    requires SettlesWithinReserve(source, ops)
    ensures Overruns(source, ops, scope) == 0.0
  {
    if ops != [] {
      var before := ops[..|ops| - 1];
      assert forall i :: 0 <= i < |before| ==> before[..i] == ops[..i];
      NoOverruns(source, before, scope);
    }
  }

  // ---- Recorded ceilings ---------------------------------------------------------------------------------------

  function RoomAt(source: CeilingSource, st: Store, level: CeilingLevel, req: Request, config: CeilingConfig,
                  day: Day): Option<real>
  {
    var scope := ScopeAt(level, req, day);
    RoomUnder(EffectiveCeiling(source, st.counters, scope, config), CounterTotal(st.counters, scope))
  }

  /** The least room of the four levels, under the ceilings this store checks; the amount of `req` does not matter. */
  function LeastRoom(source: CeilingSource, st: Store, req: Request, config: CeilingConfig, day: Day): Option<real> {
    Tighter(Tighter(RoomAt(source, st, CompanyLevel, req, config, day),
                    RoomAt(source, st, RoleLevel, req, config, day)),
            Tighter(RoomAt(source, st, TaskTypeLevel, req, config, day),
                    RoomAt(source, st, TaskTypeDayLevel, req, config, day)))
  }

  lemma AdmissibleIsRoom(source: CeilingSource, st: Store, req: Request, config: CeilingConfig, day: Day)
    ensures Admissible(source, st, req, config, day)
            <==> FitsRoom(req.amountUsd, LeastRoom(source, st, req, config, day))
  {
    hide EffectiveCeiling, ScopeAt, CounterTotal;
  }

  predicate SameRoom(a: Option<real>, b: Option<real>) {
    a == b || (IsSpent(a) && IsSpent(b))
  }

  /** The two kinds of store answer every amount of this tenant, role and task type alike. */
  ghost predicate StoresAgree(st: Store, req: Request, config: CeilingConfig, day: Day) {
    forall amountUsd: Usd ::
      var r := req.(amountUsd := amountUsd);
      Admissible(AsRecorded, st, r, config, day) <==> Admissible(AsPassed, st, r, config, day)
  }

  /**
   * The Postgres store, which checks recorded ceilings, and the in-memory store, which checks those passed, admit the
   * same amounts exactly when their least rooms are the same or both gone.
   */
  lemma StoresAgreeIff(st: Store, req: Request, config: CeilingConfig, day: Day)
    ensures StoresAgree(st, req, config, day) <==>
            SameRoom(LeastRoom(AsRecorded, st, req, config, day), LeastRoom(AsPassed, st, req, config, day))
  {
    hide Admissible, LeastRoom;
    var recorded, passed := LeastRoom(AsRecorded, st, req, config, day), LeastRoom(AsPassed, st, req, config, day);
    forall source, amountUsd: Usd
      ensures Admissible(source, st, req.(amountUsd := amountUsd), config, day)
              <==> FitsRoom(amountUsd, if source.AsPassed? then passed else recorded)
    {
      AdmissibleIsRoom(source, st, req.(amountUsd := amountUsd), config, day);
      RoomIgnoresAmount(source, st, req, amountUsd, config, day);
    }
    RoomsCompare(recorded, passed);
    RoomsCompare(passed, recorded);
    if StoresAgree(st, req, config, day) {
      forall amountUsd: Usd
        ensures FitsRoom(amountUsd, recorded) <==> FitsRoom(amountUsd, passed)
      {
        var r := req.(amountUsd := amountUsd);
        assert Admissible(AsRecorded, st, r, config, day) <==> Admissible(AsPassed, st, r, config, day);
      }
    }
  }

  lemma RoomIgnoresAmount(source: CeilingSource, st: Store, req: Request, amountUsd: Usd, config: CeilingConfig,
                          day: Day)
    ensures LeastRoom(source, st, req.(amountUsd := amountUsd), config, day) == LeastRoom(source, st, req, config, day)
  {
  }

  /** Once the Postgres store has a row, no later operation changes the ceiling it recorded. */
  lemma {:induction false} RecordedCeilingStays(ops: seq<Op>, n: nat, scope: Scope)
    requires n <= |ops| && scope in After(AsRecorded, ops[..n]).counters
    ensures var first, now := After(AsRecorded, ops[..n]).counters, After(AsRecorded, ops).counters;
            scope in now && now[scope].ceilingUsd == first[scope].ceilingUsd
  {
    if n == |ops| {
      assert ops[..n] == ops;
    } else {
      assert ops[..|ops| - 1][..n] == ops[..n];
      RecordedCeilingStays(ops[..|ops| - 1], n, scope);
      ExecKeepsRecordedCeiling(After(AsRecorded, ops[..|ops| - 1]), ops[|ops| - 1], scope);
    }
  }

  lemma ExecKeepsRecordedCeiling(st: Store, op: Op, scope: Scope)
    requires scope in st.counters
    ensures var after := Exec(AsRecorded, st, op).counters;
            scope in after && after[scope].ceilingUsd == st.counters[scope].ceilingUsd
  {
    hide BumpLevels, ShiftLevels, Admissible;
    if op.ReserveOp? {
      BumpedRow(AsRecorded, st.counters, op.req, op.config, op.now.day, |LEVELS|, scope);
    } else if Succeeds(AsRecorded, st, op) {
      ShiftedRow(st.counters, st.reservations[op.id], Change(st.reservations[op.id], op), |LEVELS|, scope);
    }
  }

  // ---- The four checks and the four rows, in the configuration's own terms ------------------------------------

  /** What is counted on a row so far; a row not yet there counts nothing. */
  function CountedOn(st: Store, scope: Scope): real {
    if scope in st.counters then st.counters[scope].totalUsd else 0.0
  }

  /** The daily cap of a task type: its own, or else the default. */
  function DailyCap(config: CeilingConfig, taskType: Id): Option<real> {
    if taskType in config.perTaskTypePerDayUsd then Some(config.perTaskTypePerDayUsd[taskType])
    else config.perTaskTypePerDayDefaultUsd
  }

  /** The passed configuration leaves room for the request at one level. */
  predicate PassedLeavesRoom(st: Store, req: Request, config: CeilingConfig, day: Day, level: CeilingLevel) {
    match level
    case CompanyLevel =>
      CountedOn(st, CompanyMonth(req.tenantId, day.month)) + req.amountUsd <= config.companyMonthlyUsd
    case RoleLevel =>
      req.roleId in config.perRoleUsd ==>
        CountedOn(st, RoleScope(req.tenantId, req.roleId)) + req.amountUsd <= config.perRoleUsd[req.roleId]
    case TaskTypeLevel =>
      req.taskType in config.perTaskTypeUsd ==>
        CountedOn(st, TaskTypeScope(req.tenantId, req.taskType)) + req.amountUsd <= config.perTaskTypeUsd[req.taskType]
    case TaskTypeDayLevel =>
      DailyCap(config, req.taskType).Some? ==>
        CountedOn(st, TaskTypeDay(req.tenantId, req.taskType, day))
          + req.amountUsd <= DailyCap(config, req.taskType).value
  }

  /** The row of each level. */
  function RowOf(req: Request, day: Day, level: CeilingLevel): Scope {
    match level
    case CompanyLevel => CompanyMonth(req.tenantId, day.month)
    case RoleLevel => RoleScope(req.tenantId, req.roleId)
    case TaskTypeLevel => TaskTypeScope(req.tenantId, req.taskType)
    case TaskTypeDayLevel => TaskTypeDay(req.tenantId, req.taskType, day)
  }

  /** The recorded ceiling leaves room, if there is a row; where there is none, the passed one does. */
  predicate RecordedLeavesRoom(st: Store, req: Request, config: CeilingConfig, day: Day, level: CeilingLevel) {
    var row := RowOf(req, day, level);
    if row in st.counters
    then st.counters[row].ceilingUsd.Some? ==>
           st.counters[row].totalUsd + req.amountUsd <= st.counters[row].ceilingUsd.value
    else PassedLeavesRoom(st, req, config, day, level)
  }

  predicate LeavesRoom(source: CeilingSource, st: Store, req: Request, config: CeilingConfig, day: Day,
                       level: CeilingLevel)
  {
    if source.AsPassed? then PassedLeavesRoom(st, req, config, day, level)
    else RecordedLeavesRoom(st, req, config, day, level)
  }

  lemma RoomIsLeft(source: CeilingSource, st: Store, level: CeilingLevel, req: Request, config: CeilingConfig, day: Day)
    ensures HasRoom(source, st, level, req, config, day) <==> LeavesRoom(source, st, req, config, day, level)
  {
  }

  /** The first level without room, company before role before task type before its day. */
  predicate RefusedAt(source: CeilingSource, st: Store, req: Request, config: CeilingConfig, day: Day,
                      level: CeilingLevel)
  {
    && !LeavesRoom(source, st, req, config, day, level)
    && (level != CompanyLevel ==> LeavesRoom(source, st, req, config, day, CompanyLevel))
    && (level in {TaskTypeLevel, TaskTypeDayLevel} ==> LeavesRoom(source, st, req, config, day, RoleLevel))
    && (level == TaskTypeDayLevel ==> LeavesRoom(source, st, req, config, day, TaskTypeLevel))
  }

  /**
   * A request is admitted exactly when all four levels leave room for it, and otherwise refused at the first that does
   * not.
   */
  lemma AdmissionInFull(source: CeilingSource, st: Store, req: Request, config: CeilingConfig, day: Day)
    ensures Admissible(source, st, req, config, day)
            <==> forall level :: LeavesRoom(source, st, req, config, day, level)
    ensures Admissible(source, st, req, config, day) <==> FirstRefusal(source, st, req, config, day, 0).None?
    ensures var refused := FirstRefusal(source, st, req, config, day, 0);
            refused.Some? ==> RefusedAt(source, st, req, config, day, refused.value)
  {
    hide HasRoom, LeavesRoom;
    forall level
      ensures HasRoom(source, st, level, req, config, day) <==> LeavesRoom(source, st, req, config, day, level)
    {
      RoomIsLeft(source, st, level, req, config, day);
    }
    LevelsAreFour();
    RefusalUnfolds(source, st, req, config, day);
    if Admissible(source, st, req, config, day) {
      forall level
        ensures LeavesRoom(source, st, req, config, day, level)
      {
        match level
        case CompanyLevel =>
        case RoleLevel =>
        case TaskTypeLevel =>
        case TaskTypeDayLevel =>
      }
    } else {
      assert exists level :: !HasRoom(source, st, level, req, config, day);
    }
  }

  lemma LevelsAreFour()
    ensures LEVELS == [CompanyLevel, RoleLevel, TaskTypeLevel, TaskTypeDayLevel]
  {
  }

  lemma RefusalUnfolds(source: CeilingSource, st: Store, req: Request, config: CeilingConfig, day: Day)
    ensures FirstRefusal(source, st, req, config, day, 0)
            == if !HasRoom(source, st, CompanyLevel, req, config, day) then Some(CompanyLevel)
               else if !HasRoom(source, st, RoleLevel, req, config, day) then Some(RoleLevel)
               else if !HasRoom(source, st, TaskTypeLevel, req, config, day) then Some(TaskTypeLevel)
               else if !HasRoom(source, st, TaskTypeDayLevel, req, config, day) then Some(TaskTypeDayLevel)
               else None
  {
    hide HasRoom;
    assert FirstRefusal(source, st, req, config, day, 4).None?;
    assert FirstRefusal(source, st, req, config, day, 3)
           == if !HasRoom(source, st, TaskTypeDayLevel, req, config, day) then Some(TaskTypeDayLevel) else None;
  }

  /** A row after a reservation: its total, and a ceiling that is the recorded one if it has one that stands. */
  predicate IsBooked(source: CeilingSource, st: Store, after: Store, row: Scope, amountUsd: Usd, passed: Option<real>) {
    && row in after.counters && after.counters[row].totalUsd == CountedOn(st, row) + amountUsd
    && after.counters[row].ceilingUsd
       == if row in st.counters && (source.AsRecorded? || st.counters[row].ceilingUsd.Some?)
          then st.counters[row].ceilingUsd else passed
  }

  /**
   * What a granted reservation writes: itself, open, and the requested amount on the company's month, the role, the
   * task type and the task type's day; a new row records the ceiling passed with it; no other row changes.
   */
  lemma ReserveInFull(source: CeilingSource, st: Store, id: Id, req: Request, config: CeilingConfig, now: Moment)
    requires Succeeds(source, st, ReserveOp(id, req, config, now))
    ensures var after := Exec(source, st, ReserveOp(id, req, config, now));
            && after.reservations
               == st.reservations[id :=
                    StoredReservation(req, now.day, if source.AsPassed? then now.day else now.dbDay, Open)]
            && IsBooked(source, st, after, CompanyMonth(req.tenantId, now.day.month), req.amountUsd,
                        Some(config.companyMonthlyUsd))
            && IsBooked(source, st, after, RoleScope(req.tenantId, req.roleId), req.amountUsd,
                        if req.roleId in config.perRoleUsd then Some(config.perRoleUsd[req.roleId]) else None)
            && IsBooked(source, st, after, TaskTypeScope(req.tenantId, req.taskType), req.amountUsd,
                        if req.taskType in config.perTaskTypeUsd then Some(config.perTaskTypeUsd[req.taskType])
                        else None)
            && IsBooked(source, st, after, TaskTypeDay(req.tenantId, req.taskType, now.day), req.amountUsd,
                        DailyCap(config, req.taskType))
            && forall row :: (forall level :: row != RowOf(req, now.day, level)) ==> SameRow(st, after, row)
  {
    hide BumpLevels, ShiftLevels, Admissible;
    var op := ReserveOp(id, req, config, now);
    var after := Exec(source, st, op);
    ExecWrites(source, st, op);
    forall level
      ensures var row := RowOf(req, now.day, level);
              row in after.counters
              && after.counters[row] == Bump(source, st.counters, row, config, req.amountUsd)[row]
    {
      BumpedRow(source, st.counters, req, config, now.day, |LEVELS|, RowOf(req, now.day, level));
    }
    assert RowOf(req, now.day, CompanyLevel) in after.counters && RowOf(req, now.day, RoleLevel) in after.counters;
    assert RowOf(req, now.day, TaskTypeLevel) in after.counters
           && RowOf(req, now.day, TaskTypeDayLevel) in after.counters;
    forall row | forall level :: row != RowOf(req, now.day, level)
      ensures SameRow(st, after, row)
    {
      BumpedRow(source, st.counters, req, config, now.day, |LEVELS|, row);
      NotAmongFour(req, now.day, row);
    }
  }

  predicate SameRow(st: Store, after: Store, row: Scope) {
    (row in after.counters <==> row in st.counters)
    && (row in st.counters ==> after.counters[row] == st.counters[row])
  }

  lemma NotAmongFour(req: Request, day: Day, row: Scope)
    requires forall level :: row != RowOf(req, day, level)
    ensures !InScope(req, day, row)
  {
    assert row != RowOf(req, day, CompanyLevel) && row != RowOf(req, day, RoleLevel);
    assert row != RowOf(req, day, TaskTypeLevel) && row != RowOf(req, day, TaskTypeDayLevel);
  }

  /**
   * What settling or releasing an open reservation writes: its status, the real cost if it was settled, and the
   * difference on those of its four rows, by its recorded day, that exist.
   */
  lemma ResolveInFull(source: CeilingSource, st: Store, op: Op)
    requires !op.ReserveOp? && op.id in st.reservations && st.reservations[op.id].request.tenantId == op.tenantId
    requires st.reservations[op.id].status == Open
    ensures var after, r := Exec(source, st, op), st.reservations[op.id];
            var changeUsd := (if op.SettleOp? then op.actualUsd else 0.0) - r.request.amountUsd;
            && after.reservations == st.reservations[op.id :=
                 if op.SettleOp? then r.(request := r.request.(amountUsd := op.actualUsd), status := Settled)
                 else r.(status := Released)]
            && (forall level :: var row := RowOf(r.request, r.recordedDay, level);
                  (row in after.counters <==> row in st.counters)
                  && (row in st.counters ==> after.counters[row].ceilingUsd == st.counters[row].ceilingUsd
                                             && after.counters[row].totalUsd == st.counters[row].totalUsd + changeUsd))
            && forall row :: (forall level :: row != RowOf(r.request, r.recordedDay, level)) ==> SameRow(st, after, row)
  {
    hide ShiftLevels;
    var r := st.reservations[op.id];
    var after := Exec(source, st, op);
    ExecWrites(source, st, op);
    forall row
      ensures (forall level :: row != RowOf(r.request, r.recordedDay, level)) ==> SameRow(st, after, row)
    {
      ShiftedRow(st.counters, r, Change(r, op), |LEVELS|, row);
      if forall level :: row != RowOf(r.request, r.recordedDay, level) {
        NotAmongFour(r.request, r.recordedDay, row);
      }
    }
    forall level
      ensures var row, changeUsd := RowOf(r.request, r.recordedDay, level),
                                    (if op.SettleOp? then op.actualUsd else 0.0) - r.request.amountUsd;
              (row in after.counters <==> row in st.counters)
              && (row in st.counters ==> after.counters[row].ceilingUsd == st.counters[row].ceilingUsd
                                         && after.counters[row].totalUsd == st.counters[row].totalUsd + changeUsd)
    {
      ShiftedRow(st.counters, r, Change(r, op), |LEVELS|, RowOf(r.request, r.recordedDay, level));
    }
  }

  /** Anything else to be resolved is refused: unknown, another tenant's, or resolved before. */
  lemma RefusedResolution(source: CeilingSource, st: Store, op: Op)
    requires !op.ReserveOp?
    requires op.id !in st.reservations || st.reservations[op.id].request.tenantId != op.tenantId
             || st.reservations[op.id].status != Open
    ensures Exec(source, st, op) == st
  {
  }

  /** The cap a configuration puts on a row. */
  function CapOn(config: CeilingConfig, row: Scope): Option<real> {
    match row
    case CompanyMonth(_, _) => Some(config.companyMonthlyUsd)
    case RoleScope(_, roleId) => if roleId in config.perRoleUsd then Some(config.perRoleUsd[roleId]) else None
    case TaskTypeScope(_, taskType) =>
      if taskType in config.perTaskTypeUsd then Some(config.perTaskTypeUsd[taskType]) else None
    case TaskTypeDay(_, taskType, _) => DailyCap(config, taskType)
  }

  /**
   * The caps as configured, over whole runs: under fixed ceilings, with no settlement above its reservation and
   * agreeing clocks, no company's month, role, task type or task type's day ever holds more than the tenant's
   * configuration says.
   */
  lemma ConfiguredCapsHold(source: CeilingSource, ops: seq<Op>, configs: map<Id, CeilingConfig>, scope: Scope)
    requires FixedCeilings(ops, configs) && SettlesWithinReserve(source, ops)
    requires source.AsPassed? || ClocksAgree(ops) || IsDayless(scope)
    requires scope.tenantId in configs
    ensures var st := After(source, ops);
            CapOn(configs[scope.tenantId], scope).Some? && scope in st.counters ==>
              Committed(st.reservations, scope) <= CapOn(configs[scope.tenantId], scope).value
    ensures scope !in After(source, ops).counters ==> Committed(After(source, ops).reservations, scope) == 0.0
  {
    hide Committed, After;
    if scope in After(source, ops).counters {
      if CapOn(configs[scope.tenantId], scope).Some? {
        CeilingIsExact(source, ops, After(source, ops), configs, scope);
      }
    } else {
      RunKeepsAccounts(source, ops);
      NoRowNoMoney(After(source, ops), scope);
    }
  }

  lemma NoRowNoMoney(st: Store, scope: Scope)
    requires RowsExist(st) && scope !in st.counters
    ensures Committed(st.reservations, scope) == 0.0
  {
    forall id | id in st.reservations
      ensures Weight(st.reservations[id], scope) == 0.0
    {
      assert !IsBookedOn(st.reservations[id], scope);
    }
    TotalZero(Weights(st.reservations, scope));
  }

  /** So an edit waits for a new row: a company has one each month, a task type's day one each day, the others never. */
  lemma RowsRenewed(level: CeilingLevel, req: Request, first: Day, later: Day)
    ensures ScopeAt(level, req, first) == ScopeAt(level, req, later) <==>
            match level
            case CompanyLevel => first.month == later.month
            case RoleLevel => true
            case TaskTypeLevel => true
            case TaskTypeDayLevel => first == later
  {
  }

  /**
   * The two stores disagree once a tenant edits a ceiling within the month: after $10 under a $10 ceiling, a request
   * for $5 under an edited $20 ceiling is admitted by the in-memory store and refused by the Postgres store.
   */
  lemma EditedCeilingWaitsForANewRow()
    ensures exists ops, req, edited, day ::
              Admissible(AsPassed, After(AsPassed, ops), req, edited, day)
              && !Admissible(AsRecorded, After(AsRecorded, ops), req, edited, day)
  {
    var config := CeilingConfig(10.0, map[], map[], map[], None);
    var edited := config.(companyMonthlyUsd := 20.0);
    var day := Day(1, 1);
    var first := ReserveOp(0, Request(0, 0, 0, 10.0), config, Moment(day, day));
    var req := Request(0, 0, 0, 5.0);
    var ops := [first];
    assert ops[..0] == [];
    assert After(AsPassed, ops) == Exec(AsPassed, EMPTY_STORE, first);
    assert After(AsRecorded, ops) == Exec(AsRecorded, EMPTY_STORE, first);
    forall scope, source
      ensures var rows := Exec(source, EMPTY_STORE, first).counters;
              scope in rows ==> rows[scope] == Counter(10.0, CeilingOf(scope, config))
    {
      BumpedRow(source, map[], first.req, config, day, |LEVELS|, scope);
    }
    BumpedRow(AsRecorded, map[], first.req, config, day, |LEVELS|, CompanyMonth(0, 1));
    BumpedRow(AsPassed, map[], first.req, config, day, |LEVELS|, CompanyMonth(0, 1));
    assert !HasRoom(AsRecorded, After(AsRecorded, ops), CompanyLevel, req, edited, day);
    assert Admissible(AsPassed, After(AsPassed, ops), req, edited, day);
  }

  /** They agree on every request whose existing rows still record the ceilings now configured. */
  lemma StoresAgreeOnUnchangedCeilings(st: Store, req: Request, config: CeilingConfig, day: Day)
    requires forall level :: var scope := ScopeAt(level, req, day);
               scope in st.counters ==> st.counters[scope].ceilingUsd == CeilingOf(scope, config)
    ensures Admissible(AsRecorded, st, req, config, day) <==> Admissible(AsPassed, st, req, config, day)
  {
    forall level
      ensures HasRoom(AsRecorded, st, level, req, config, day) <==> HasRoom(AsPassed, st, level, req, config, day)
    {
      var scope := ScopeAt(level, req, day);
    }
  }
}

/** The store itself: two maps changed in place. */
module DurableReservationStore {
  import opened Wrappers
  import opened Pricing
  import opened Ceilings
  import opened DurableSpec

  datatype ReserveResult = Granted(reservationId: Id) | Refused(exceededLevel: CeilingLevel)

  class ReservationStore {
    const source: CeilingSource
    var reservations: map<Id, StoredReservation>
    var counters: map<Scope, Counter>

    constructor (source: CeilingSource)
      ensures this.source == source && State() == EMPTY_STORE
    {
      this.source, reservations, counters := source, map[], map[];
    }

    function State(): Store
      reads this
    {
      Store(reservations, counters)
    }

    /** Checks all four levels in order, then commits to all four; `id` is the fresh random id drawn on success. */
    method ReserveAtomic(req: Request, config: CeilingConfig, now: Moment, id: Id) returns (r: ReserveResult)
      requires id !in reservations
      modifies this
      ensures State() == Exec(source, old(State()), ReserveOp(id, req, config, now))
      ensures r.Granted? <==> Admissible(source, old(State()), req, config, now.day)
      ensures r.Granted? ==> r.reservationId == id
      ensures r.Refused? ==> FirstRefusal(source, old(State()), req, config, now.day, 0) == Some(r.exceededLevel)
      ensures r.Granted? <==> forall level :: LeavesRoom(source, old(State()), req, config, now.day, level)
      ensures r.Refused? ==> RefusedAt(source, old(State()), req, config, now.day, r.exceededLevel)
    {
      var day := now.day;
      AdmissionInFull(source, State(), req, config, day);
      hide LeavesRoom, RefusedAt;
      for i := 0 to |LEVELS|
        invariant State() == old(State())
        invariant FirstRefusal(source, State(), req, config, day, i)
                  == FirstRefusal(source, State(), req, config, day, 0)
        invariant forall j :: 0 <= j < i ==> HasRoom(source, State(), LEVELS[j], req, config, day)
      {
        if !HasRoom(source, State(), LEVELS[i], req, config, day) {
          return Refused(LEVELS[i]);
        }
      }
      assert HasRoom(source, State(), LEVELS[0], req, config, day)
             && HasRoom(source, State(), LEVELS[1], req, config, day);
      assert HasRoom(source, State(), LEVELS[2], req, config, day)
             && HasRoom(source, State(), LEVELS[3], req, config, day);
      for i := 0 to |LEVELS|
        invariant reservations == old(reservations)
        invariant counters == BumpLevels(source, old(counters), req, config, day, i)
      {
        counters := Bump(source, counters, ScopeAt(LEVELS[i], req, day), config, req.amountUsd);
      }
      reservations := reservations[id := StoredReservation(req, day, RecordedDay(source, now), Open)];
      return Granted(id);
    }

    /** Refuses a reservation that is unknown, of another tenant, or already resolved, and then changes nothing. */
    method Settle(tenantId: Id, id: Id, actualUsd: Usd) returns (ok: bool)
      modifies this
      ensures ok == old(IsOpen(State(), tenantId, id))
      ensures State() == Exec(source, old(State()), SettleOp(tenantId, id, actualUsd))
    {
      ok := IsOpen(State(), tenantId, id);
      if ok {
        var r := reservations[id];
        reservations := reservations[id := r.(request := r.request.(amountUsd := actualUsd), status := Settled)];
        Adjust(r, actualUsd - r.request.amountUsd);
      }
    }

    method Release(tenantId: Id, id: Id) returns (ok: bool)
      modifies this
      ensures ok == old(IsOpen(State(), tenantId, id))
      ensures State() == Exec(source, old(State()), ReleaseOp(tenantId, id))
    {
      ok := IsOpen(State(), tenantId, id);
      if ok {
        var r := reservations[id];
        reservations := reservations[id := r.(status := Released)];
        Adjust(r, 0.0 - r.request.amountUsd);
      }
    }

    /** Moves the rows of the day recorded with the reservation, whatever day it is now. */
    method Adjust(r: StoredReservation, deltaUsd: real)
      modifies this`counters
      ensures counters == ShiftLevels(old(counters), r, deltaUsd, |LEVELS|)
    {
      for i := 0 to |LEVELS|
        invariant counters == ShiftLevels(old(counters), r, deltaUsd, i)
      {
        var scope := ScopeAt(LEVELS[i], r.request, r.recordedDay);
        if scope in counters {
          counters := counters[scope := counters[scope].(totalUsd := counters[scope].totalUsd + deltaUsd)];
        }
      }
    }
  }
}
