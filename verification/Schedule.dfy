/** Cadences: how often a task runs, the floor every tenant is held to, and the repeat options of the job queue. */
module Cadences {
  import opened Wrappers

  const MINUTE_MS := 60_000
  const HOUR_MS := 60 * MINUTE_MS
  const DAY_MS := 24 * HOUR_MS

  datatype Cadence = Every15Min | Hourly | Nightly | Daily | Weekly | Monthly

  datatype Repeat = Every(ms: int) | Pattern(cron: string)

  const NIGHTLY_CRON := "0 2 * * *"
  const MONTHLY_CRON := "0 9 1 * *"

  function CadenceToRepeatOptions(c: Cadence): Repeat {
    match c
    case Every15Min => Every(15 * MINUTE_MS)
    case Hourly => Every(HOUR_MS)
    case Nightly => Pattern(NIGHTLY_CRON)
    case Daily => Every(DAY_MS)
    case Weekly => Every(7 * DAY_MS)
    case Monthly => Pattern(MONTHLY_CRON)
  }

  /** The same in milliseconds and cron patterns: two in the morning each day, nine in the morning of each first. */
  function RepeatOf(c: Cadence): Repeat {
    match c
    case Every15Min => Every(900_000)
    case Hourly => Every(3_600_000)
    case Nightly => Pattern("0 2 * * *")
    case Daily => Every(86_400_000)
    case Weekly => Every(604_800_000)
    case Monthly => Pattern("0 9 1 * *")
  }

  lemma CadenceInFull(c: Cadence)
    ensures CadenceToRepeatOptions(c) == RepeatOf(c)
    ensures ClampCadenceToFloor(c) == if c in {Every15Min, Hourly} then ClampResult(Daily, true)
            else ClampResult(c, false)
  {
  }

  function CadenceRank(c: Cadence): nat {
    match c
    case Every15Min => 0
    case Hourly => 1
    case Nightly => 2
    case Daily => 2
    case Weekly => 3
    case Monthly => 4
  }

  const CADENCE_FLOOR := Daily

  datatype ClampResult = ClampResult(cadence: Cadence, clamped: bool)

  function ClampCadenceToFloor(declared: Cadence): ClampResult {
    if CadenceRank(declared) >= CadenceRank(CADENCE_FLOOR) then ClampResult(declared, false)
    else ClampResult(CADENCE_FLOOR, true)
  }

  /** Never twice in one day: an interval of at least a day, or one of the two once-a-day-or-rarer patterns. */
  predicate AtMostDaily(r: Repeat) {
    match r
    case Every(ms) => DAY_MS <= ms
    case Pattern(cron) => cron == NIGHTLY_CRON || cron == MONTHLY_CRON
  }

  /** The clamp touches exactly the cadences whose repeat would fire more than daily, and what it returns never does. */
  lemma ClampExactlyTheFast(c: Cadence)
    ensures AtMostDaily(CadenceToRepeatOptions(ClampCadenceToFloor(c).cadence))
    ensures ClampCadenceToFloor(c).clamped <==> !AtMostDaily(CadenceToRepeatOptions(c))
    ensures !ClampCadenceToFloor(c).clamped ==> ClampCadenceToFloor(c).cadence == c
    ensures CadenceRank(c) <= CadenceRank(ClampCadenceToFloor(c).cadence)
  {
  }
}

/** One tenant's slice of the shared job registry, reconciled with what the tenant wants. */
module TenantScheduler {
  import opened Wrappers
  import opened Cadences

  datatype Payload = Payload(tenantId: string, agentId: string, taskId: string)

  datatype DesiredJob = DesiredJob(jobSchedulerId: string, cadence: Cadence, payload: Payload)

  datatype Job = Job(repeat: Repeat, data: Payload)

  datatype Descriptor = Descriptor(id: string, repeat: Repeat)

  type Jobs = map<string, Job>

  function Slice(tenantId: string): string {
    tenantId + ":"
  }

  predicate InSlice(tenantId: string, id: string) {
    Slice(tenantId) <= id
  }

  function JobOf(d: DesiredJob): Job {
    Job(CadenceToRepeatOptions(d.cadence), d.payload)
  }

  /** The job is registered already, in this tenant's slice and at this rate. */
  predicate IsCurrent(snapshot: Jobs, tenantId: string, d: DesiredJob) {
    && d.jobSchedulerId in snapshot && InSlice(tenantId, d.jobSchedulerId)
    && snapshot[d.jobSchedulerId].repeat == CadenceToRepeatOptions(d.cadence)
  }

  function IdsOf(desired: seq<DesiredJob>): set<string> {
    set d | d in desired :: d.jobSchedulerId
  }

  /** The first loop: each job compared with the registry as it was, and upserted if that differs. */
  function Upserted(snapshot: Jobs, tenantId: string, desired: seq<DesiredJob>): Jobs {
    if desired == [] then snapshot
    else
      var before, d := Upserted(snapshot, tenantId, desired[..|desired| - 1]), desired[|desired| - 1];
      if IsCurrent(snapshot, tenantId, d) then before else before[d.jobSchedulerId := JobOf(d)]
  }

  function Stale(snapshot: Jobs, tenantId: string, desired: seq<DesiredJob>): set<string> {
    set id | id in snapshot && InSlice(tenantId, id) && id !in IdsOf(desired)
  }

  function Synced(snapshot: Jobs, tenantId: string, desired: seq<DesiredJob>): Jobs {
    Upserted(snapshot, tenantId, desired) - Stale(snapshot, tenantId, desired)
  }

  function Ids(desired: seq<DesiredJob>): seq<string> {
    seq(|desired|, i requires 0 <= i < |desired| => desired[i].jobSchedulerId)
  }

  /** The ids of the jobs that were, or were not, already current. */
  function Reported(snapshot: Jobs, tenantId: string, desired: seq<DesiredJob>, current: bool): seq<string> {
    if desired == [] then []
    else
      var d := desired[|desired| - 1];
      Reported(snapshot, tenantId, desired[..|desired| - 1], current)
        + if IsCurrent(snapshot, tenantId, d) == current then [d.jobSchedulerId] else []
  }

  /** The job queue's repeatable jobs. */
  class Registry {
    var jobs: Jobs

    constructor ()
      ensures jobs == map[]
    {
      jobs := map[];
    }

    method UpsertJobScheduler(id: string, repeat: Repeat, data: Payload)
      modifies this
      ensures jobs == old(jobs)[id := Job(repeat, data)]
    {
      jobs := jobs[id := Job(repeat, data)];
    }

    method GetJobSchedulers() returns (r: seq<Descriptor>)
      ensures forall i, j :: 0 <= i < j < |r| ==> r[i].id != r[j].id
      ensures forall d :: d in r <==> d.id in jobs && d.repeat == jobs[d.id].repeat
    {
      var rest := jobs.Keys;
      r := [];
      while rest != {}
        invariant rest <= jobs.Keys
        invariant forall i, j :: 0 <= i < j < |r| ==> r[i].id != r[j].id
        invariant forall d :: d in r <==> d.id in jobs.Keys - rest && d.repeat == jobs[d.id].repeat
        decreases |rest|
      {
        var id :| id in rest;
        rest := rest - {id};
        r := r + [Descriptor(id, jobs[id].repeat)];
      }
    }

    method RemoveJobScheduler(id: string)
      modifies this
      ensures jobs == old(jobs) - {id}
    {
      jobs := jobs - {id};
    }
  }

  /** The snapshot a sync works from. */
  method Existing(queue: Registry, tenantId: string)
    returns (existing: seq<Descriptor>, existingById: map<string, Descriptor>)
    ensures forall i, j :: 0 <= i < j < |existing| ==> existing[i].id != existing[j].id
    ensures forall d :: d in existing
              <==> d.id in queue.jobs && InSlice(tenantId, d.id) && d.repeat == queue.jobs[d.id].repeat
    ensures forall id :: id in existingById <==> id in queue.jobs && InSlice(tenantId, id)
    ensures forall id :: id in existingById ==> existingById[id] == Descriptor(id, queue.jobs[id].repeat)
  {
    var all := queue.GetJobSchedulers();
    existing, existingById := [], map[];
    for i := 0 to |all|
      invariant forall k, j :: 0 <= k < j < |existing| ==> existing[k].id != existing[j].id
      invariant forall d :: d in existing <==> d in all[..i] && InSlice(tenantId, d.id)
      invariant forall id :: id in existingById <==> exists d :: d in existing && d.id == id
      invariant forall d :: d in existing ==> d.id in existingById && existingById[d.id] == d
    {
      assert all[..i + 1] == all[..i] + [all[i]];
      if InSlice(tenantId, all[i].id) {
        existing := existing + [all[i]];
        existingById := existingById[all[i].id := all[i]];
      }
    }
    assert all[..|all|] == all;
    forall id | id in queue.jobs && InSlice(tenantId, id)
      ensures id in existingById && existingById[id] == Descriptor(id, queue.jobs[id].repeat)
    {
      assert Descriptor(id, queue.jobs[id].repeat) in existing;
    }
  }

  /**
   * For any list of desired jobs: the registry becomes `Synced`, every desired id is reported as added or unchanged
   * (`kept`) according to the registry as it was, and exactly the stale ids are removed, each once.
   */
  method SyncTenantSchedule(queue: Registry, tenantId: string, desired: seq<DesiredJob>)
    returns (added: seq<string>, removed: seq<string>, kept: seq<string>)
    modifies queue
    ensures queue.jobs == Synced(old(queue.jobs), tenantId, desired)
    ensures added == Reported(old(queue.jobs), tenantId, desired, false)
    ensures kept == Reported(old(queue.jobs), tenantId, desired, true)
    ensures multiset(removed) == multiset(Stale(old(queue.jobs), tenantId, desired))
  {
    ghost var was := queue.jobs;
    var existing, existingById := Existing(queue, tenantId);
    added, kept := UpsertDesired(queue, tenantId, desired, existingById);
    removed := RemoveStale(queue, tenantId, desired, existing, was);
  }

  method UpsertDesired(queue: Registry, tenantId: string, desired: seq<DesiredJob>,
                       existingById: map<string, Descriptor>)
    returns (added: seq<string>, kept: seq<string>)
    requires forall id :: id in existingById <==> id in queue.jobs && InSlice(tenantId, id)
    requires forall id :: id in existingById ==> existingById[id] == Descriptor(id, queue.jobs[id].repeat)
    modifies queue
    ensures queue.jobs == Upserted(old(queue.jobs), tenantId, desired)
    ensures added == Reported(old(queue.jobs), tenantId, desired, false)
    ensures kept == Reported(old(queue.jobs), tenantId, desired, true)
  {
    hide InSlice;
    added, kept := [], [];
    for i := 0 to |desired|
      invariant queue.jobs == Upserted(old(queue.jobs), tenantId, desired[..i])
      invariant added == Reported(old(queue.jobs), tenantId, desired[..i], false)
      invariant kept == Reported(old(queue.jobs), tenantId, desired[..i], true)
    {
      var job := desired[i];
      assert desired[..i + 1][..i] == desired[..i];
      var repeatOptions := CadenceToRepeatOptions(job.cadence);
      if job.jobSchedulerId in existingById && existingById[job.jobSchedulerId].repeat == repeatOptions {
        kept := kept + [job.jobSchedulerId];
      } else {
        queue.UpsertJobScheduler(job.jobSchedulerId, repeatOptions, job.payload);
        added := added + [job.jobSchedulerId];
      }
    }
    assert desired[..|desired|] == desired;
  }

  /** The ids the second loop removes. */
  function Gone(existing: seq<Descriptor>, desiredIds: set<string>): (r: set<string>)
    ensures forall id :: id in r <==> id !in desiredIds && exists k :: 0 <= k < |existing| && existing[k].id == id
  {
    if existing == [] then {}
    else
      var last := existing[|existing| - 1].id;
      Gone(existing[..|existing| - 1], desiredIds) + if last in desiredIds then {} else {last}
  }

  lemma GoneIsStale(was: Jobs, tenantId: string, desired: seq<DesiredJob>, existing: seq<Descriptor>)
    requires forall d :: d in existing <==> d.id in was && InSlice(tenantId, d.id) && d.repeat == was[d.id].repeat
    ensures Gone(existing, IdsOf(desired)) == Stale(was, tenantId, desired)
  {
    hide InSlice, IdsOf, Gone;
    forall id
      ensures id in Gone(existing, IdsOf(desired)) <==> id in Stale(was, tenantId, desired)
    {
      if id in Gone(existing, IdsOf(desired)) {
        var k :| 0 <= k < |existing| && existing[k].id == id;
        assert existing[k] in existing;
      }
      if id in Stale(was, tenantId, desired) {
        assert Descriptor(id, was[id].repeat) in existing;
      }
    }
  }

  method RemoveStale(queue: Registry, tenantId: string, desired: seq<DesiredJob>, existing: seq<Descriptor>,
                     ghost was: Jobs)
    returns (removed: seq<string>)
    requires forall i, j :: 0 <= i < j < |existing| ==> existing[i].id != existing[j].id
    requires forall d :: d in existing <==> d.id in was && InSlice(tenantId, d.id) && d.repeat == was[d.id].repeat
    modifies queue
    ensures queue.jobs == old(queue.jobs) - Stale(was, tenantId, desired)
    ensures multiset(removed) == multiset(Stale(was, tenantId, desired))
  {
    GoneIsStale(was, tenantId, desired, existing);
    var desiredIds := IdsOf(desired);
    removed := RemoveAllBut(queue, existing, desiredIds);
  }

  lemma GoneNext(existing: seq<Descriptor>, i: nat, desiredIds: set<string>)
    requires i < |existing| && forall k, j :: 0 <= k < j < |existing| ==> existing[k].id != existing[j].id
    ensures var id := existing[i].id;
            && id !in Gone(existing[..i], desiredIds)
            && Gone(existing[..i + 1], desiredIds)
               == Gone(existing[..i], desiredIds) + if id in desiredIds then {} else {id}
  {
    assert existing[..i + 1][..i] == existing[..i];
  }

  lemma RemoveOneMore(jobs: Jobs, gone: set<string>, id: string)
    requires id !in gone
    ensures (jobs - gone) - {id} == jobs - (gone + {id})
    ensures multiset(gone + {id}) == multiset(gone) + multiset{id}
  {
  }

  method RemoveAllBut(queue: Registry, existing: seq<Descriptor>, desiredIds: set<string>)
    returns (removed: seq<string>)
    requires forall i, j :: 0 <= i < j < |existing| ==> existing[i].id != existing[j].id
    modifies queue
    ensures queue.jobs == old(queue.jobs) - Gone(existing, desiredIds)
    ensures multiset(removed) == multiset(Gone(existing, desiredIds))
  {
    removed := [];
    assert existing[..0] == [] && Gone([], desiredIds) == {};
    hide Gone;
    for i := 0 to |existing|
      invariant queue.jobs == old(queue.jobs) - Gone(existing[..i], desiredIds)
      invariant multiset(removed) == multiset(Gone(existing[..i], desiredIds))
    {
      var id := existing[i].id;
      GoneNext(existing, i, desiredIds);
      if id !in desiredIds {
        RemoveOneMore(old(queue.jobs), Gone(existing[..i], desiredIds), id);
        queue.RemoveJobScheduler(id);
        removed := removed + [id];
      } else {
        assert Gone(existing[..i], desiredIds) + {} == Gone(existing[..i], desiredIds);
      }
    }
    assert existing[..|existing|] == existing;
  }

  // ---- What a sync achieves ------------------------------------------------------------------------------------

  /** Jobs that share an id ask for the same rate. */
  predicate NoConflicts(desired: seq<DesiredJob>) {
    forall i, j :: 0 <= i < j < |desired| && desired[i].jobSchedulerId == desired[j].jobSchedulerId ==>
      CadenceToRepeatOptions(desired[i].cadence) == CadenceToRepeatOptions(desired[j].cadence)
  }

  predicate AllInSlice(tenantId: string, desired: seq<DesiredJob>) {
    forall d :: d in desired ==> InSlice(tenantId, d.jobSchedulerId)
  }

  lemma {:induction false} UpsertedElsewhere(snapshot: Jobs, tenantId: string, desired: seq<DesiredJob>, id: string)
    ensures id in IdsOf(desired) ==> id in Upserted(snapshot, tenantId, desired)
    ensures id !in IdsOf(desired) ==> (id in Upserted(snapshot, tenantId, desired) <==> id in snapshot)
    ensures id !in IdsOf(desired) && id in snapshot ==> Upserted(snapshot, tenantId, desired)[id] == snapshot[id]
  {
    hide InSlice, CadenceToRepeatOptions;
    if desired != [] {
      var rest, last := desired[..|desired| - 1], desired[|desired| - 1];
      UpsertedElsewhere(snapshot, tenantId, rest, id);
      assert desired == rest + [last];
      assert forall d :: d in desired <==> d in rest || d == last;
    }
  }

  lemma {:induction false} UpsertedRate(snapshot: Jobs, tenantId: string, desired: seq<DesiredJob>, d: DesiredJob)
    requires NoConflicts(desired) && d in desired
    ensures d.jobSchedulerId in Upserted(snapshot, tenantId, desired)
    ensures Upserted(snapshot, tenantId, desired)[d.jobSchedulerId].repeat == CadenceToRepeatOptions(d.cadence)
  {
    hide InSlice, CadenceToRepeatOptions, IdsOf;
    var rest, last, id := desired[..|desired| - 1], desired[|desired| - 1], d.jobSchedulerId;
    assert desired == rest + [last];
    if d in rest {
      UpsertedRate(snapshot, tenantId, rest, d);
    }
    if last.jobSchedulerId == id {
      SameRate(desired, d);
      if IsCurrent(snapshot, tenantId, last) && d !in rest {
        RateBefore(snapshot, tenantId, rest, last);
      }
    }
  }

  lemma SameRate(desired: seq<DesiredJob>, d: DesiredJob)
    requires NoConflicts(desired) && d in desired && desired[|desired| - 1].jobSchedulerId == d.jobSchedulerId
    ensures CadenceToRepeatOptions(d.cadence) == CadenceToRepeatOptions(desired[|desired| - 1].cadence)
  {
    var i :| 0 <= i < |desired| && desired[i] == d;
  }

  /** A job already current keeps its rate through jobs that agree with it. */
  lemma {:induction false} RateBefore(snapshot: Jobs, tenantId: string, rest: seq<DesiredJob>, last: DesiredJob)
    requires NoConflicts(rest + [last]) && IsCurrent(snapshot, tenantId, last)
    ensures last.jobSchedulerId in Upserted(snapshot, tenantId, rest)
    ensures Upserted(snapshot, tenantId, rest)[last.jobSchedulerId].repeat == CadenceToRepeatOptions(last.cadence)
  {
    hide InSlice, CadenceToRepeatOptions;
    if rest != [] {
      var shorter, d, all := rest[..|rest| - 1], rest[|rest| - 1], rest + [last];
      assert all[|rest| - 1] == d && all[|rest|] == last;
      forall i, j | 0 <= i < j < |shorter + [last]|
        && (shorter + [last])[i].jobSchedulerId == (shorter + [last])[j].jobSchedulerId
        ensures CadenceToRepeatOptions((shorter + [last])[i].cadence)
                == CadenceToRepeatOptions((shorter + [last])[j].cadence)
      {
        assert (shorter + [last])[i] == all[i];
        assert (shorter + [last])[j] == all[if j < |shorter| then j else |rest|];
      }
      RateBefore(snapshot, tenantId, shorter, last);
    }
  }

  /**
   * One sync makes the tenant's slice exactly what is desired, at the desired rates, and leaves everything outside the
   * slice alone.
   */
  lemma SyncReconciles(snapshot: Jobs, tenantId: string, desired: seq<DesiredJob>)
    requires AllInSlice(tenantId, desired) && NoConflicts(desired)
    ensures var after := Synced(snapshot, tenantId, desired);
            && (forall id :: InSlice(tenantId, id) ==> (id in after <==> id in IdsOf(desired)))
            && (forall d :: d in desired ==> d.jobSchedulerId in after
                                              && after[d.jobSchedulerId].repeat == CadenceToRepeatOptions(d.cadence))
            && (forall id :: !InSlice(tenantId, id) ==> (id in after <==> id in snapshot))
            && (forall id :: !InSlice(tenantId, id) && id in snapshot ==> after[id] == snapshot[id])
  {
    forall id
      ensures InSlice(tenantId, id) ==> (id in Synced(snapshot, tenantId, desired) <==> id in IdsOf(desired))
      ensures !InSlice(tenantId, id) ==> (id in Synced(snapshot, tenantId, desired) <==> id in snapshot)
      ensures !InSlice(tenantId, id) && id in snapshot ==> Synced(snapshot, tenantId, desired)[id] == snapshot[id]
    {
      UpsertedElsewhere(snapshot, tenantId, desired, id);
      hide InSlice, Upserted;
    }
    forall d | d in desired
      ensures d.jobSchedulerId in Synced(snapshot, tenantId, desired)
      ensures Synced(snapshot, tenantId, desired)[d.jobSchedulerId].repeat == CadenceToRepeatOptions(d.cadence)
    {
      UpsertedRate(snapshot, tenantId, desired, d);
      hide InSlice, Upserted;
    }
  }

  /** Registered in the tenant's slice, at the rate asked for. */
  predicate IsRegistered(snapshot: Jobs, tenantId: string, d: DesiredJob) {
    && d.jobSchedulerId in snapshot && tenantId + ":" <= d.jobSchedulerId
    && snapshot[d.jobSchedulerId].repeat == RepeatOf(d.cadence)
  }

  lemma CurrentIsRegistered(snapshot: Jobs, tenantId: string, d: DesiredJob)
    ensures IsCurrent(snapshot, tenantId, d) <==> IsRegistered(snapshot, tenantId, d)
  {
    CadenceInFull(d.cadence);
  }

  /** Whatever follows position `k` on the list leaves this id alone. */
  predicate LeavesAlone(snapshot: Jobs, tenantId: string, desired: seq<DesiredJob>, k: int, id: string) {
    forall j :: k < j < |desired| && 0 <= j && desired[j].jobSchedulerId == id ==>
      IsRegistered(snapshot, tenantId, desired[j])
  }

  /**
   * A job's rate and data are those of the last entry for its id that was not registered already, or else the old ones.
   */
  lemma {:induction false} LastEntryWins(snapshot: Jobs, tenantId: string, desired: seq<DesiredJob>, k: int, id: string)
    requires -1 <= k < |desired| && LeavesAlone(snapshot, tenantId, desired, k, id)
    requires k >= 0 ==> desired[k].jobSchedulerId == id && !IsRegistered(snapshot, tenantId, desired[k])
    ensures var after := Upserted(snapshot, tenantId, desired);
            if k >= 0 then id in after && after[id] == Job(RepeatOf(desired[k].cadence), desired[k].payload)
            else (id in after <==> id in snapshot) && (id in snapshot ==> after[id] == snapshot[id])
  {
    hide IsRegistered;
    if desired != [] {
      var rest, last := desired[..|desired| - 1], desired[|desired| - 1];
      CurrentIsRegistered(snapshot, tenantId, last);
      CadenceInFull(last.cadence);
      if k < |desired| - 1 {
        LastEntryWins(snapshot, tenantId, rest, k, id);
      }
    }
  }

  predicate DistinctIds(desired: seq<DesiredJob>) {
    forall i, j :: 0 <= i < j < |desired| ==> desired[i].jobSchedulerId != desired[j].jobSchedulerId
  }

  /**
   * What a sync registers, where each id is asked for once: the rate and the payload that were asked for, unless the
   * job was registered at that rate already, and then it is left as it was, old payload included.
   */
  lemma SyncedInFull(snapshot: Jobs, tenantId: string, desired: seq<DesiredJob>, d: DesiredJob)
    requires DistinctIds(desired) && d in desired
    ensures var after := Synced(snapshot, tenantId, desired);
            && d.jobSchedulerId in after
            && after[d.jobSchedulerId] == if IsRegistered(snapshot, tenantId, d) then snapshot[d.jobSchedulerId]
                                          else Job(RepeatOf(d.cadence), d.payload)
  {
    hide IsRegistered, InSlice, Upserted;
    var k :| 0 <= k < |desired| && desired[k] == d;
    if IsRegistered(snapshot, tenantId, d) {
      IsThere(snapshot, tenantId, d);
      LastEntryWins(snapshot, tenantId, desired, -1, d.jobSchedulerId);
    } else {
      LastEntryWins(snapshot, tenantId, desired, k, d.jobSchedulerId);
    }
  }

  lemma IsThere(snapshot: Jobs, tenantId: string, d: DesiredJob)
    requires IsRegistered(snapshot, tenantId, d)
    ensures d.jobSchedulerId in snapshot
  {
  }

  /** Every desired entry is reported exactly once, as added or as unchanged. */
  lemma {:induction false} ReportsPartition(snapshot: Jobs, tenantId: string, desired: seq<DesiredJob>)
    ensures multiset(Reported(snapshot, tenantId, desired, false))
            + multiset(Reported(snapshot, tenantId, desired, true))
         == multiset(Ids(desired))
  {
    hide IsCurrent;
    if desired != [] {
      ReportsPartition(snapshot, tenantId, desired[..|desired| - 1]);
      assert Ids(desired) == Ids(desired[..|desired| - 1]) + [desired[|desired| - 1].jobSchedulerId];
    }
  }

  lemma {:induction false} NothingAddedIffCurrent(snapshot: Jobs, tenantId: string, desired: seq<DesiredJob>)
    ensures Reported(snapshot, tenantId, desired, false) == []
            <==> forall d :: d in desired ==> IsCurrent(snapshot, tenantId, d)
    ensures (forall d :: d in desired ==> IsCurrent(snapshot, tenantId, d)) ==>
              Upserted(snapshot, tenantId, desired) == snapshot
  {
    hide IsCurrent;
    if desired != [] {
      var rest, last := desired[..|desired| - 1], desired[|desired| - 1];
      NothingAddedIffCurrent(snapshot, tenantId, rest);
      assert desired == rest + [last];
    }
  }

  /** A second sync would add nothing and remove nothing. */
  predicate SyncIsDone(jobs: Jobs, tenantId: string, desired: seq<DesiredJob>) {
    Reported(jobs, tenantId, desired, false) == [] && Stale(jobs, tenantId, desired) == {}
  }

  /**
   * Idempotence, exactly: after a sync a second one adds and removes nothing, and leaves the registry as it is, if and
   * only if no two desired jobs share an id at different rates and every id is in the tenant's slice.
   */
  lemma SecondSyncIsQuietIff(snapshot: Jobs, tenantId: string, desired: seq<DesiredJob>)
    ensures SyncIsDone(Synced(snapshot, tenantId, desired), tenantId, desired)
            <==> NoConflicts(desired) && AllInSlice(tenantId, desired)
    ensures NoConflicts(desired) && AllInSlice(tenantId, desired) ==>
              Synced(Synced(snapshot, tenantId, desired), tenantId, desired) == Synced(snapshot, tenantId, desired)
  {
    var once := Synced(snapshot, tenantId, desired);
    NothingAddedIffCurrent(once, tenantId, desired);
    if NoConflicts(desired) && AllInSlice(tenantId, desired) {
      SyncReconciles(snapshot, tenantId, desired);
      hide Synced;
      assert Stale(once, tenantId, desired) == {};
      assert forall d :: d in desired ==> IsCurrent(once, tenantId, d);
      SyncOfCurrent(once, tenantId, desired);
    }
    if SyncIsDone(once, tenantId, desired) {
      hide Synced, Upserted, Reported;
      assert forall d :: d in desired ==> IsCurrent(once, tenantId, d);
      forall i, j | 0 <= i < j < |desired| && desired[i].jobSchedulerId == desired[j].jobSchedulerId
        ensures CadenceToRepeatOptions(desired[i].cadence) == CadenceToRepeatOptions(desired[j].cadence)
      {
        assert IsCurrent(once, tenantId, desired[i]) && IsCurrent(once, tenantId, desired[j]);
      }
    }
  }

  lemma SyncOfCurrent(jobs: Jobs, tenantId: string, desired: seq<DesiredJob>)
    requires Upserted(jobs, tenantId, desired) == jobs && Stale(jobs, tenantId, desired) == {}
    ensures Synced(jobs, tenantId, desired) == jobs
  {
  }

  function Flip(id: string, p: Payload): seq<DesiredJob> {
    [DesiredJob(id, Daily, p), DesiredJob(id, Weekly, p)]
  }

  /** With conflicting duplicates each sync undoes the one before it. */
  lemma ConflictsOscillate(tenantId: string, p: Payload)
    ensures var id := Slice(tenantId);
            var once := Synced(map[], tenantId, Flip(id, p));
            && id in once && once[id].repeat == CadenceToRepeatOptions(Weekly)
            && id in Synced(once, tenantId, Flip(id, p))
            && Synced(once, tenantId, Flip(id, p))[id].repeat == CadenceToRepeatOptions(Daily)
  {
    var id := Slice(tenantId);
    var once := Synced(map[], tenantId, Flip(id, p));
    assert Flip(id, p)[0] in Flip(id, p) && id in IdsOf(Flip(id, p));
    UpsertedPair(map[], tenantId, Flip(id, p)[0], Flip(id, p)[1]);
    UpsertedPair(once, tenantId, Flip(id, p)[0], Flip(id, p)[1]);
  }

  lemma UpsertedPair(snapshot: Jobs, tenantId: string, a: DesiredJob, b: DesiredJob)
    ensures var first := if IsCurrent(snapshot, tenantId, a) then snapshot else snapshot[a.jobSchedulerId := JobOf(a)];
            Upserted(snapshot, tenantId, [a, b])
            == if IsCurrent(snapshot, tenantId, b) then first else first[b.jobSchedulerId := JobOf(b)]
  {
    hide IsCurrent;
    assert [a, b][..1] == [a] && [a][..0] == [];
    assert Upserted(snapshot, tenantId, [a]) == if IsCurrent(snapshot, tenantId, a) then snapshot
           else snapshot[a.jobSchedulerId := JobOf(a)];
  }

  // ---- Several tenants -----------------------------------------------------------------------------------------

  predicate ColonFree(s: string) {
    ':' !in s
  }

  /** Two tenants' slices keep apart exactly when neither prefix extends the other. */
  lemma SlicesAreDisjointIff(t: string, u: string)
    ensures (forall id :: !(InSlice(t, id) && InSlice(u, id))) <==> !(Slice(t) <= Slice(u)) && !(Slice(u) <= Slice(t))
  {
    if Slice(t) <= Slice(u) {
      assert InSlice(t, Slice(u)) && InSlice(u, Slice(u));
    }
    if Slice(u) <= Slice(t) {
      assert InSlice(u, Slice(t)) && InSlice(t, Slice(t));
    }
    if id :| InSlice(t, id) && InSlice(u, id) {
      assert Slice(t) == id[..|Slice(t)|] && Slice(u) == id[..|Slice(u)|];
    }
  }

  /** Distinct tenants without colons in their ids never share a job. */
  lemma ColonFreeTenantsAreDisjoint(t: string, u: string, id: string)
    requires ColonFree(t) && ColonFree(u) && t != u
    ensures !(InSlice(t, id) && InSlice(u, id))
  {
    if InSlice(t, id) && InSlice(u, id) {
      SplitAtColon(id, t, u);
    }
  }

  lemma LongerHasColon(s: string, a: string, b: string)
    requires a + ":" <= s && b + ":" <= s && |a| < |b|
    ensures ':' in b
  {
    assert b == s[..|b|] by { assert (b + ":")[..|b|] == b; }
    assert b[|a|] == (a + ":")[|a|] == ':';
  }

  /** A string starts with at most one colon-free part followed by a colon. */
  lemma SplitAtColon(s: string, a: string, b: string)
    requires ColonFree(a) && ColonFree(b) && a + ":" <= s && b + ":" <= s
    ensures a == b
  {
    if |a| < |b| {
      LongerHasColon(s, a, b);
    } else if |b| < |a| {
      LongerHasColon(s, b, a);
    } else {
      assert a == (a + ":")[..|a|] == s[..|a|] && b == (b + ":")[..|b|] == s[..|b|];
    }
  }
}

/** The schedule a tenant's org chart asks for. */
module DesiredSchedule {
  import opened Wrappers
  import opened Cadences
  import opened TenantScheduler

  datatype Agent = Agent(id: string, taskIds: seq<string>)

  datatype Task = Task(id: string, onCadence: bool, cadence: Option<Cadence>)

  /** The agent a task is dispatched as: the last one that lists it. */
  function OwnerOf(agents: seq<Agent>, taskId: string): Option<Agent> {
    if agents == [] then None
    else if taskId in agents[|agents| - 1].taskIds then Some(agents[|agents| - 1])
    else OwnerOf(agents[..|agents| - 1], taskId)
  }

  predicate IsScheduled(agents: seq<Agent>, task: Task) {
    task.onCadence && task.cadence.Some? && OwnerOf(agents, task.id).Some?
  }

  function JobId(tenantId: string, agentId: string, taskId: string): string {
    tenantId + ":" + agentId + ":" + taskId
  }

  function JobFor(tenantId: string, agents: seq<Agent>, task: Task): DesiredJob
    requires IsScheduled(agents, task)
  {
    var agentId := OwnerOf(agents, task.id).value.id;
    DesiredJob(JobId(tenantId, agentId, task.id), ClampCadenceToFloor(task.cadence.value).cadence,
               Payload(tenantId, agentId, task.id))
  }

  function DesiredFor(tenantId: string, agents: seq<Agent>, tasks: seq<Task>): seq<DesiredJob> {
    if tasks == [] then []
    else
      var task := tasks[|tasks| - 1];
      DesiredFor(tenantId, agents, tasks[..|tasks| - 1]) + if IsScheduled(agents, task)
      then [JobFor(tenantId, agents, task)] else []
  }

  function NotesFor(agents: seq<Agent>, tasks: seq<Task>): seq<string> {
    if tasks == [] then []
    else
      var task := tasks[|tasks| - 1];
      NotesFor(agents, tasks[..|tasks| - 1])
        + if IsScheduled(agents, task) && ClampCadenceToFloor(task.cadence.value).clamped then [task.id] else []
  }

  method Owners(agents: seq<Agent>) returns (agentByTaskId: map<string, Agent>)
    ensures forall t :: if t in agentByTaskId then OwnerOf(agents, t) == Some(agentByTaskId[t])
              else OwnerOf(agents, t).None?
  {
    agentByTaskId := map[];
    for i := 0 to |agents|
      invariant forall t :: if t in agentByTaskId then OwnerOf(agents[..i], t) == Some(agentByTaskId[t])
                  else OwnerOf(agents[..i], t).None?
    {
      var agent, before := agents[i], agentByTaskId;
      assert agents[..i + 1][..i] == agents[..i];
      for j := 0 to |agent.taskIds|
        invariant forall t :: t in agentByTaskId <==> t in before || t in agent.taskIds[..j]
        invariant forall t :: t in agentByTaskId ==>
                    agentByTaskId[t] == if t in agent.taskIds[..j] then agent else before[t]
      {
        agentByTaskId := agentByTaskId[agent.taskIds[j] := agent];
      }
      assert agent.taskIds[..|agent.taskIds|] == agent.taskIds;
    }
    assert agents[..|agents|] == agents;
  }

  method ComputeDesiredSchedule(tenantId: string, agents: seq<Agent>, tasks: seq<Task>)
    returns (desired: seq<DesiredJob>, clampNotes: seq<string>)
    ensures desired == DesiredFor(tenantId, agents, tasks) && clampNotes == NotesFor(agents, tasks)
  {
    var agentByTaskId := Owners(agents);
    hide OwnerOf, ClampCadenceToFloor;
    desired, clampNotes := [], [];
    for i := 0 to |tasks|
      invariant desired == DesiredFor(tenantId, agents, tasks[..i]) && clampNotes == NotesFor(agents, tasks[..i])
    {
      var task := tasks[i];
      assert tasks[..i + 1][..i] == tasks[..i];
      if task.onCadence && task.cadence.Some? {
        if task.id in agentByTaskId {
          var agent, clamp := agentByTaskId[task.id], ClampCadenceToFloor(task.cadence.value);
          if clamp.clamped {
            clampNotes := clampNotes + [task.id];
          }
          desired := desired
            + [DesiredJob(tenantId + ":" + agent.id + ":"
                          + task.id, clamp.cadence, Payload(tenantId, agent.id, task.id))];
        }
      }
    }
    assert tasks[..|tasks|] == tasks;
  }

  // ---- From org chart to registry ------------------------------------------------------------------------------

  predicate DistinctTasks(tasks: seq<Task>) {
    forall i, j :: 0 <= i < j < |tasks| ==> tasks[i].id != tasks[j].id
  }

  predicate ColonFreeAgents(agents: seq<Agent>) {
    forall agent :: agent in agents ==> ColonFree(agent.id)
  }

  lemma {:induction false} OwnerIsListed(agents: seq<Agent>, taskId: string)
    requires OwnerOf(agents, taskId).Some?
    ensures OwnerOf(agents, taskId).value in agents && taskId in OwnerOf(agents, taskId).value.taskIds
  {
    if taskId !in agents[|agents| - 1].taskIds {
      OwnerIsListed(agents[..|agents| - 1], taskId);
    }
  }

  lemma {:induction false} DesiredMembers(tenantId: string, agents: seq<Agent>, tasks: seq<Task>)
    ensures forall task :: task in tasks && IsScheduled(agents, task) ==>
              JobFor(tenantId, agents, task) in DesiredFor(tenantId, agents, tasks)
    ensures forall d :: d in DesiredFor(tenantId, agents, tasks) ==>
              exists task :: task in tasks && IsScheduled(agents, task) && d == JobFor(tenantId, agents, task)
    ensures forall id :: id in NotesFor(agents, tasks) <==>
              exists task :: task in tasks && IsScheduled(agents, task)
                && ClampCadenceToFloor(task.cadence.value).clamped && task.id == id
  {
    hide OwnerOf, ClampCadenceToFloor, IsScheduled, JobFor;
    if tasks != [] {
      var rest, last := tasks[..|tasks| - 1], tasks[|tasks| - 1];
      DesiredMembers(tenantId, agents, rest);
      assert tasks == rest + [last];
    }
  }

  /** Job ids tell tasks apart when agent ids hold no colon. */
  lemma JobIdsAreDistinct(tenantId: string, a: string, t: string, b: string, u: string)
    requires ColonFree(a) && ColonFree(b) && JobId(tenantId, a, t) == JobId(tenantId, b, u)
    ensures a == b && t == u
  {
    var s := JobId(tenantId, a, t)[|tenantId| + 1..];
    assert s == a + ":" + t && s == b + ":" + u;
    SplitAtColon(s, a, b);
    assert t == s[|a| + 1..] && u == s[|b| + 1..];
  }

  /** A colon in an agent id can make two tasks share a job. */
  lemma ColonsCollide(tenantId: string)
    ensures JobId(tenantId, "a:b", "c") == JobId(tenantId, "a", "b:c")
  {
    assert "a:b" + ":" + "c" == "a" + ":" + "b:c";
    assert JobId(tenantId, "a:b", "c") == tenantId + ":" + ("a:b" + ":" + "c");
    assert JobId(tenantId, "a", "b:c") == tenantId + ":" + ("a" + ":" + "b:c");
  }

  lemma JobForDistinct(tenantId: string, agents: seq<Agent>, task: Task, other: Task)
    requires ColonFreeAgents(agents) && IsScheduled(agents, task) && IsScheduled(agents, other)
    requires JobFor(tenantId, agents, task).jobSchedulerId == JobFor(tenantId, agents, other).jobSchedulerId
    ensures task.id == other.id
  {
    OwnerIsListed(agents, task.id);
    OwnerIsListed(agents, other.id);
    JobIdsAreDistinct(tenantId, OwnerOf(agents, task.id).value.id, task.id, OwnerOf(agents, other.id).value.id,
                      other.id);
  }

  lemma DesiredIsConsistent(tenantId: string, agents: seq<Agent>, tasks: seq<Task>)
    requires DistinctTasks(tasks) && ColonFreeAgents(agents)
    ensures AllInSlice(tenantId, DesiredFor(tenantId, agents, tasks))
            && NoConflicts(DesiredFor(tenantId, agents, tasks))
  {
    var desired := DesiredFor(tenantId, agents, tasks);
    DesiredMembers(tenantId, agents, tasks);
    hide OwnerOf, ClampCadenceToFloor, IsScheduled, DesiredFor, NotesFor;
    forall d | d in desired
      ensures InSlice(tenantId, d.jobSchedulerId)
    {
    }
    forall i, j | 0 <= i < j < |desired| && desired[i].jobSchedulerId == desired[j].jobSchedulerId
      ensures CadenceToRepeatOptions(desired[i].cadence) == CadenceToRepeatOptions(desired[j].cadence)
    {
      assert desired[i] in desired && desired[j] in desired;
      var task :| task in tasks && IsScheduled(agents, task) && desired[i] == JobFor(tenantId, agents, task);
      var other :| other in tasks && IsScheduled(agents, other) && desired[j] == JobFor(tenantId, agents, other);
      JobForDistinct(tenantId, agents, task, other);
      assert task == other;
    }
  }

  /**
   * End to end, whatever the registry held: after computing and syncing, the tenant's slice holds one job for each
   * owned cadence task and nothing else, none firing more than daily, distinct tasks under distinct ids; and the notes
   * name exactly the tasks that were declared faster than that.
   */
  lemma ScheduleEndToEnd(snapshot: Jobs, tenantId: string, agents: seq<Agent>, tasks: seq<Task>)
    requires DistinctTasks(tasks) && ColonFreeAgents(agents)
    ensures var after := Synced(snapshot, tenantId, DesiredFor(tenantId, agents, tasks));
            && (forall task :: task in tasks && IsScheduled(agents, task) ==>
                  var id := JobFor(tenantId, agents, task).jobSchedulerId;
                  && id in after && AtMostDaily(after[id].repeat)
                  && (AtMostDaily(CadenceToRepeatOptions(task.cadence.value)) ==>
                        after[id].repeat == CadenceToRepeatOptions(task.cadence.value)))
            && (forall id :: id in after && InSlice(tenantId, id) ==>
                  exists task :: task in tasks && IsScheduled(agents, task)
                    && id == JobFor(tenantId, agents, task).jobSchedulerId)
            && (forall task, other ::
                  (&& task in tasks && other in tasks && IsScheduled(agents, task) && IsScheduled(agents, other)
                   && JobFor(tenantId, agents, task).jobSchedulerId == JobFor(tenantId, agents, other).jobSchedulerId)
                  ==> task == other)
    ensures forall taskId :: taskId in NotesFor(agents, tasks) <==>
              exists task :: task in tasks && IsScheduled(agents, task)
                && !AtMostDaily(CadenceToRepeatOptions(task.cadence.value))
                             && task.id == taskId
  {
    var desired := DesiredFor(tenantId, agents, tasks);
    DesiredIsConsistent(tenantId, agents, tasks);
    DesiredMembers(tenantId, agents, tasks);
    SyncReconciles(snapshot, tenantId, desired);
    ClampsAreFast(agents, tasks);
    hide Synced, OwnerOf, ClampCadenceToFloor, IsScheduled, DesiredFor, NotesFor, NoConflicts, InSlice, AtMostDaily,
      CadenceToRepeatOptions, JobId;
    forall task | task in tasks && IsScheduled(agents, task)
      ensures var c := JobFor(tenantId, agents, task).cadence; AtMostDaily(CadenceToRepeatOptions(c))
      ensures AtMostDaily(CadenceToRepeatOptions(task.cadence.value)) ==>
                JobFor(tenantId, agents, task).cadence == task.cadence.value
    {
      ClampExactlyTheFast(task.cadence.value);
    }
    forall task, other | task in tasks && other in tasks && IsScheduled(agents, task) && IsScheduled(agents, other)
        && JobFor(tenantId, agents, task).jobSchedulerId == JobFor(tenantId, agents, other).jobSchedulerId
      ensures task == other
    {
      JobForDistinct(tenantId, agents, task, other);
    }
  }

  /** The last agent that lists the task. */
  predicate IsLastToList(agents: seq<Agent>, i: nat, taskId: string) {
    && i < |agents| && taskId in agents[i].taskIds
    && forall j :: i < j < |agents| ==> taskId !in agents[j].taskIds
  }

  lemma {:induction false} OwnerInFull(agents: seq<Agent>, taskId: string)
    ensures forall i: nat :: IsLastToList(agents, i, taskId) ==> OwnerOf(agents, taskId) == Some(agents[i])
    ensures OwnerOf(agents, taskId).Some? <==> exists i: nat :: IsLastToList(agents, i, taskId)
  {
    if agents != [] {
      var rest, last := agents[..|agents| - 1], agents[|agents| - 1];
      if taskId in last.taskIds {
        assert IsLastToList(agents, |agents| - 1, taskId);
      } else {
        OwnerInFull(rest, taskId);
        forall i: nat
          ensures IsLastToList(agents, i, taskId) <==> IsLastToList(rest, i, taskId)
        {
        }
      }
    }
  }

  /** A cadence task with an owner: the last agent that lists it. */
  predicate IsOwned(agents: seq<Agent>, task: Task, i: nat) {
    task.onCadence && task.cadence.Some? && IsLastToList(agents, i, task.id)
  }

  /** The job such a task asks for: never more than daily, and dispatched as its owner under this tenant. */
  function Asked(tenantId: string, agents: seq<Agent>, task: Task, i: nat): DesiredJob
    requires IsOwned(agents, task, i)
  {
    DesiredJob(tenantId + ":" + agents[i].id + ":" + task.id,
               if task.cadence.value in {Every15Min, Hourly} then Daily else task.cadence.value,
               Payload(tenantId, agents[i].id, task.id))
  }

  lemma AskedInFull(tenantId: string, agents: seq<Agent>, task: Task)
    ensures IsScheduled(agents, task) <==> exists i: nat :: IsOwned(agents, task, i)
    ensures forall i: nat :: IsOwned(agents, task, i) ==>
              JobFor(tenantId, agents, task) == Asked(tenantId, agents, task, i)
  {
    OwnerInFull(agents, task.id);
    if task.cadence.Some? {
      CadenceInFull(task.cadence.value);
    }
    hide IsLastToList, OwnerOf, ClampCadenceToFloor;
    if IsScheduled(agents, task) {
      var i: nat :| IsLastToList(agents, i, task.id);
      assert IsOwned(agents, task, i);
    }
  }

  lemma {:induction false} DesiredIsDistinct(tenantId: string, agents: seq<Agent>, tasks: seq<Task>)
    requires DistinctTasks(tasks) && ColonFreeAgents(agents)
    ensures DistinctIds(DesiredFor(tenantId, agents, tasks))
  {
    hide OwnerOf, ClampCadenceToFloor, IsScheduled, JobFor;
    if tasks != [] {
      var rest, last := tasks[..|tasks| - 1], tasks[|tasks| - 1];
      DesiredIsDistinct(tenantId, agents, rest);
      DesiredMembers(tenantId, agents, rest);
      if IsScheduled(agents, last) {
        forall d | d in DesiredFor(tenantId, agents, rest)
          ensures d.jobSchedulerId != JobFor(tenantId, agents, last).jobSchedulerId
        {
          var task :| task in rest && IsScheduled(agents, task) && d == JobFor(tenantId, agents, task);
          if d.jobSchedulerId == JobFor(tenantId, agents, last).jobSchedulerId {
            JobForDistinct(tenantId, agents, task, last);
          }
        }
      }
    }
  }

  /**
   * End to end, in the org chart's own terms: each cadence task that some agent lists has its job under the tenant, the
   * last agent listing it and the task, at its cadence or daily if that is slower, carrying exactly those three ids
   * (unless a job at that rate was there before), and the slice holds no other job.
   */
  lemma RegistryInFull(snapshot: Jobs, tenantId: string, agents: seq<Agent>, tasks: seq<Task>)
    requires DistinctTasks(tasks) && ColonFreeAgents(agents)
    ensures var after := Synced(snapshot, tenantId, DesiredFor(tenantId, agents, tasks));
            && (forall task, i: nat :: task in tasks && IsOwned(agents, task, i) ==>
                  var d := Asked(tenantId, agents, task, i);
                  && d.jobSchedulerId in after
                  && after[d.jobSchedulerId] == if IsRegistered(snapshot, tenantId, d) then snapshot[d.jobSchedulerId]
                                                else Job(RepeatOf(d.cadence), d.payload))
            && forall id :: id in after && tenantId + ":" <= id ==>
                 exists task, i: nat :: task in tasks && IsOwned(agents, task, i)
                                        && id == Asked(tenantId, agents, task, i).jobSchedulerId
  {
    var desired := DesiredFor(tenantId, agents, tasks);
    var after := Synced(snapshot, tenantId, desired);
    DesiredIsDistinct(tenantId, agents, tasks);
    DesiredMembers(tenantId, agents, tasks);
    hide Synced, OwnerOf, ClampCadenceToFloor, IsScheduled, DesiredFor, NotesFor, IsOwned, JobFor, Asked, IsRegistered;
    forall task, i: nat | task in tasks && IsOwned(agents, task, i)
      ensures var d := Asked(tenantId, agents, task, i);
              && d.jobSchedulerId in after
              && after[d.jobSchedulerId] == if IsRegistered(snapshot, tenantId, d) then snapshot[d.jobSchedulerId]
                                            else Job(RepeatOf(d.cadence), d.payload)
    {
      AskedInFull(tenantId, agents, task);
      SyncedInFull(snapshot, tenantId, desired, Asked(tenantId, agents, task, i));
    }
    forall id | id in after && tenantId + ":" <= id
      ensures exists task, i: nat :: task in tasks && IsOwned(agents, task, i)
                                     && id == Asked(tenantId, agents, task, i).jobSchedulerId
    {
      var task := OnlyScheduled(snapshot, tenantId, agents, tasks, id);
      AskedInFull(tenantId, agents, task);
      var i: nat :| IsOwned(agents, task, i);
      assert JobFor(tenantId, agents, task) == Asked(tenantId, agents, task, i);
    }
  }

  lemma OnlyScheduled(snapshot: Jobs, tenantId: string, agents: seq<Agent>, tasks: seq<Task>, id: string)
    returns (task: Task)
    requires DistinctTasks(tasks) && ColonFreeAgents(agents) && tenantId + ":" <= id
    requires id in Synced(snapshot, tenantId, DesiredFor(tenantId, agents, tasks))
    ensures task in tasks && IsScheduled(agents, task) && id == JobFor(tenantId, agents, task).jobSchedulerId
  {
    ScheduleEndToEnd(snapshot, tenantId, agents, tasks);
    hide Synced, DesiredFor, IsScheduled, JobFor, NotesFor, AtMostDaily, CadenceToRepeatOptions;
    assert InSlice(tenantId, id);
    task :| task in tasks && IsScheduled(agents, task) && id == JobFor(tenantId, agents, task).jobSchedulerId;
  }

  lemma ClampsAreFast(agents: seq<Agent>, tasks: seq<Task>)
    ensures forall task :: task in tasks && IsScheduled(agents, task) ==>
              (ClampCadenceToFloor(task.cadence.value).clamped
               <==> !AtMostDaily(CadenceToRepeatOptions(task.cadence.value)))
  {
    forall task | task in tasks && IsScheduled(agents, task)
      ensures ClampCadenceToFloor(task.cadence.value).clamped
              <==> !AtMostDaily(CadenceToRepeatOptions(task.cadence.value))
    {
      ClampExactlyTheFast(task.cadence.value);
    }
  }
}
