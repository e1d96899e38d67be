/**
 * What a reservation ledger means: the full history of its reservations, and sums over that history.
 * `ReservationLedger` below keeps running counters instead of the history.
 */
module LedgerHistory {
  import opened Wrappers
  import opened Pricing
  import opened Sums
  import Ceilings

  datatype Phase = Reserved | Settled(actualUsd: Usd) | Released

  datatype Entry = Entry(roleId: Id, taskType: Id, amountUsd: Usd, phase: Phase)

  type History = map<Id, Entry>

  datatype LedgerError = UnknownReservation | ReservationAlreadyResolved

  /** The pools a reservation counts against. */
  datatype Dimension = Company | Role(roleId: Id) | TaskType(taskType: Id)

  predicate Counts(roleId: Id, taskType: Id, d: Dimension) {
    match d
    case Company => true
    case Role(r) => roleId == r
    case TaskType(t) => taskType == t
  }

  /** Money that a resolved reservation cost, or money an open one still holds. */
  datatype Money = SettledMoney | ReservedMoney

  function Part(e: Entry, d: Dimension, m: Money): real {
    if !Counts(e.roleId, e.taskType, d) then 0.0
    else if m.SettledMoney? && e.phase.Settled? then e.phase.actualUsd
    else if m.ReservedMoney? && e.phase.Reserved? then e.amountUsd
    else 0.0
  }

  ghost function EntryParts(h: History, d: Dimension, m: Money): map<Id, real> {
    map id | id in h :: Part(h[id], d, m)
  }

  ghost function Pool(h: History, d: Dimension, m: Money): real {
    Total(EntryParts(h, d, m))
  }

  /** Settled plus reserved money of a pool. */
  ghost function Committed(h: History, d: Dimension): real {
    Pool(h, d, SettledMoney) + Pool(h, d, ReservedMoney)
  }

  /** What one request is checked against. */
  ghost function SpentOf(h: History, roleId: Id, taskType: Id): Ceilings.Spent {
    Ceilings.Spent(Committed(h, Company), Committed(h, Role(roleId)), Committed(h, TaskType(taskType)))
  }

  /** Whether settle or release may act on `id`, and the error when not. */
  function Resolvable(h: History, id: Id): Result<(), LedgerError> {
    if id !in h then Err(UnknownReservation)
    else if !h[id].phase.Reserved? then Err(ReservationAlreadyResolved)
    else Ok(())
  }

  function Resolve(h: History, id: Id, phase: Phase): History {
    if Resolvable(h, id).Ok? then h[id := h[id].(phase := phase)] else h
  }

  lemma EntryMovesPool(h: History, id: Id, e: Entry, d: Dimension, m: Money)
    ensures Pool(h[id := e], d, m) == Pool(h, d, m) + Part(e, d, m) - (if id in h then Part(h[id], d, m) else 0.0)
  {
    TotalSet(EntryParts(h, d, m), id, Part(e, d, m));
    assert EntryParts(h[id := e], d, m) == EntryParts(h, d, m)[id := Part(e, d, m)];
  }

  ghost function RoleOf(h: History): map<Id, Id> {
    map id | id in h :: h[id].roleId
  }

  ghost function TaskTypeOf(h: History): map<Id, Id> {
    map id | id in h :: h[id].taskType
  }

  /** The pools of every role in `roles`. */
  ghost function RolePools(h: History, roles: set<Id>, m: Money): map<Id, real> {
    map r | r in roles :: Pool(h, Role(r), m)
  }

  ghost function TaskTypePools(h: History, taskTypes: set<Id>, m: Money): map<Id, real> {
    map t | t in taskTypes :: Pool(h, TaskType(t), m)
  }

  lemma PoolsAreShares(h: History, key: Id, m: Money)
    ensures Pool(h, Role(key), m) == Total(Share(EntryParts(h, Company, m), RoleOf(h), key))
    ensures Pool(h, TaskType(key), m) == Total(Share(EntryParts(h, Company, m), TaskTypeOf(h), key))
  {
    assert EntryParts(h, Role(key), m) == Share(EntryParts(h, Company, m), RoleOf(h), key);
    assert EntryParts(h, TaskType(key), m) == Share(EntryParts(h, Company, m), TaskTypeOf(h), key);
  }

  /**
   * Conservation: the role pools add up to the company pool, and so do the task-type pools, for settled money and for
   * reserved money.
   */
  lemma PoolsConserveMoney(h: History, roles: set<Id>, taskTypes: set<Id>, m: Money)
    requires forall id :: id in h ==> h[id].roleId in roles && h[id].taskType in taskTypes
    ensures Total(RolePools(h, roles, m)) == Pool(h, Company, m) == Total(TaskTypePools(h, taskTypes, m))
  {
    forall key {:trigger Role(key)} {:trigger TaskType(key)}
      ensures Pool(h, Role(key), m) == Total(Share(EntryParts(h, Company, m), RoleOf(h), key))
      ensures Pool(h, TaskType(key), m) == Total(Share(EntryParts(h, Company, m), TaskTypeOf(h), key))
    {
      PoolsAreShares(h, key, m);
    }
    TotalOfShares(EntryParts(h, Company, m), RoleOf(h), RolePools(h, roles, m));
    TotalOfShares(EntryParts(h, Company, m), TaskTypeOf(h), TaskTypePools(h, taskTypes, m));
  }
}

/** The in-process ledger: reservations by id, plus counters that settle bumps in place. */
module Reservations {
  import opened Wrappers
  import opened Pricing
  import opened Sums
  import opened LedgerHistory
  import Ceilings

  datatype Status = IsReserved | IsSettled | IsReleased

  datatype Reservation = Reservation(roleId: Id, taskType: Id, amountUsd: Usd, status: Status)

  /** The stored form of a history entry: it does not remember what a settled reservation really cost. */
  function Stored(e: Entry): Reservation {
    Reservation(e.roleId, e.taskType, e.amountUsd,
                match e.phase case Reserved => IsReserved case Settled(_) => IsSettled case Released => IsReleased)
  }

  /** What one stored reservation adds to a reserved sum. */
  function ReservedAmount(r: Reservation, d: Dimension): real {
    if r.status == IsReserved && Counts(r.roleId, r.taskType, d) then r.amountUsd else 0.0
  }

  function Lookup(counters: map<Id, real>, key: Id): real {
    if key in counters then counters[key] else 0.0
  }

  ghost predicate StoresHistory(reservations: map<Id, Reservation>, h: History) {
    && reservations.Keys == h.Keys
    && forall id :: id in h ==> reservations[id] == Stored(h[id])
  }

  /** The running counters are exactly the sums over the whole history. */
  ghost predicate CountersMatch(company: real, byRole: map<Id, real>, byTaskType: map<Id, real>, h: History) {
    && company == Pool(h, Company, SettledMoney)
    && (forall r :: Lookup(byRole, r) == Pool(h, Role(r), SettledMoney))
    && (forall t :: Lookup(byTaskType, t) == Pool(h, TaskType(t), SettledMoney))
  }

  /** Bumping three counters by the real cost keeps up with the history. */
  lemma BumpKeepsCounters(company: real, byRole: map<Id, real>, byTaskType: map<Id, real>, h: History, id: Id,
                          actualUsd: Usd)
    requires CountersMatch(company, byRole, byTaskType, h) && Resolvable(h, id).Ok?
    ensures CountersMatch(company + actualUsd,
                          byRole[h[id].roleId := Lookup(byRole, h[id].roleId) + actualUsd],
                          byTaskType[h[id].taskType := Lookup(byTaskType, h[id].taskType) + actualUsd],
                          Resolve(h, id, Settled(actualUsd)))
  {
    hide Pool;
    var e := h[id].(phase := Settled(actualUsd));
    EntryMovesPool(h, id, e, Company, SettledMoney);
    forall r
      ensures Pool(h[id := e], Role(r), SettledMoney) == Lookup(byRole, r) + (if r == e.roleId then actualUsd else 0.0)
    {
      EntryMovesPool(h, id, e, Role(r), SettledMoney);
    }
    forall t
      ensures Pool(h[id := e], TaskType(t), SettledMoney)
              == Lookup(byTaskType, t) + (if t == e.taskType then actualUsd else 0.0)
    {
      EntryMovesPool(h, id, e, TaskType(t), SettledMoney);
    }
  }

  /** Reserving and releasing move no settled money. */
  lemma UnsettledKeepsCounters(company: real, byRole: map<Id, real>, byTaskType: map<Id, real>, h: History, id: Id,
                               e: Entry)
    requires CountersMatch(company, byRole, byTaskType, h)
    requires !e.phase.Settled? && (id in h ==> !h[id].phase.Settled?)
    ensures CountersMatch(company, byRole, byTaskType, h[id := e])
  {
    forall d
      ensures Pool(h[id := e], d, SettledMoney) == Pool(h, d, SettledMoney)
    {
      EntryMovesPool(h, id, e, d, SettledMoney);
    }
  }

  class ReservationLedger {
    var reservations: map<Id, Reservation>
    var settledCompanyUsd: real
    var settledByRole: map<Id, real>
    var settledByTaskType: map<Id, real>
    ghost var history: History

    ghost predicate Valid()
      reads this
    {
      && StoresHistory(reservations, history)
      && CountersMatch(settledCompanyUsd, settledByRole, settledByTaskType, history)
    }

    constructor ()
      ensures Valid() && history == map[]
    {
      reservations, settledCompanyUsd, settledByRole, settledByTaskType := map[], 0.0, map[], map[];
      history := map[];
      new;
      forall d
        ensures Pool(history, d, SettledMoney) == 0.0
      {
        TotalZero(EntryParts(history, d, SettledMoney));
      }
    }

    /** `id` is the fresh random id the source draws. */
    method Reserve(id: Id, roleId: Id, taskType: Id, amountUsd: Usd)
      requires Valid() && id !in history
      modifies this
      ensures Valid() && history == old(history)[id := Entry(roleId, taskType, amountUsd, Reserved)]
    {
      ghost var entry := Entry(roleId, taskType, amountUsd, Reserved);
      UnsettledKeepsCounters(settledCompanyUsd, settledByRole, settledByTaskType, history, id, entry);
      reservations := reservations[id := Reservation(roleId, taskType, amountUsd, IsReserved)];
      history := history[id := entry];
    }

    /** A second settle or release is rejected and leaves every field as it was. */
    method Settle(id: Id, actualUsd: Usd) returns (r: Result<(), LedgerError>)
      requires Valid()
      modifies this
      ensures Valid()
      ensures r == Resolvable(old(history), id) && history == Resolve(old(history), id, Settled(actualUsd))
      ensures r == (if id !in old(history) then Err(UnknownReservation)
                    else if !old(history)[id].phase.Reserved? then Err(ReservationAlreadyResolved) else Ok(()))
      ensures r.Ok? ==> history == old(history)[id := old(history)[id].(phase := Settled(actualUsd))]
      ensures r.Err? ==> unchanged(this)
    {
      hide Pool;
      r := GetReserved(id);
      if r.Ok? {
        var reservation := reservations[id];
        BumpKeepsCounters(settledCompanyUsd, settledByRole, settledByTaskType, history, id, actualUsd);
        var roleId, taskType := reservation.roleId, reservation.taskType;
        reservations := reservations[id := reservation.(status := IsSettled)];
        settledCompanyUsd := settledCompanyUsd + actualUsd;
        settledByRole := settledByRole[roleId := Lookup(settledByRole, roleId) + actualUsd];
        settledByTaskType := settledByTaskType[taskType := Lookup(settledByTaskType, taskType) + actualUsd];
        history := Resolve(history, id, Settled(actualUsd));
      }
    }

    method Release(id: Id) returns (r: Result<(), LedgerError>)
      requires Valid()
      modifies this
      ensures Valid()
      ensures r == Resolvable(old(history), id) && history == Resolve(old(history), id, Released)
      ensures r == (if id !in old(history) then Err(UnknownReservation)
                    else if !old(history)[id].phase.Reserved? then Err(ReservationAlreadyResolved) else Ok(()))
      ensures r.Ok? ==> history == old(history)[id := old(history)[id].(phase := Released)]
      ensures r.Err? ==> unchanged(this)
    {
      hide Pool;
      r := GetReserved(id);
      if r.Ok? {
        ghost var entry := history[id].(phase := Released);
        UnsettledKeepsCounters(settledCompanyUsd, settledByRole, settledByTaskType, history, id, entry);
        reservations := reservations[id := reservations[id].(status := IsReleased)];
        history := history[id := entry];
      }
    }

    method GetReserved(id: Id) returns (r: Result<(), LedgerError>)
      requires Valid()
      ensures r == Resolvable(history, id)
    {
      if id !in reservations {
        return Err(UnknownReservation);
      }
      if reservations[id].status != IsReserved {
        return Err(ReservationAlreadyResolved);
      }
      return Ok(());
    }

    /** The loop behind the three reserved-money reads. */
    method SumReserved(d: Dimension) returns (total: real)
      requires Valid()
      ensures total == Pool(history, d, ReservedMoney)
    {
      hide *;
      total := 0.0;
      var rest := reservations.Keys;
      ghost var left := EntryParts(history, d, ReservedMoney);
      ReservedParts(d);
      while rest != {}
        invariant rest == left.Keys && rest <= reservations.Keys
        invariant forall id :: id in left ==> left[id] == ReservedAmount(reservations[id], d)
        invariant total + Total(left) == Pool(history, d, ReservedMoney)
        decreases |rest|
      {
        var id :| id in rest;
        TotalPick(left, id);
        total := total + ReservedAmount(reservations[id], d);
        rest, left := rest - {id}, left - {id};
      }
      assert left == map[];
    }

    lemma ReservedParts(d: Dimension)
      requires Valid()
      ensures var parts := EntryParts(history, d, ReservedMoney);
              && parts.Keys == reservations.Keys && Total(parts) == Pool(history, d, ReservedMoney)
              && Total<Id>(map[]) == 0.0
              && forall id :: id in parts ==> parts[id] == ReservedAmount(reservations[id], d)
    {
    }

    /** The figures the ceiling check reads, for one role and task type. */
    method ReadSpent(roleId: Id, taskType: Id) returns (spent: Ceilings.Spent)
      requires Valid()
      ensures spent == SpentOf(history, roleId, taskType)
    {
      var company := SumReserved(Company);
      var role := SumReserved(Role(roleId));
      var ofType := SumReserved(TaskType(taskType));
      spent := Ceilings.Spent(settledCompanyUsd + company, Lookup(settledByRole, roleId) + role,
                              Lookup(settledByTaskType, taskType) + ofType);
    }
  }
}
