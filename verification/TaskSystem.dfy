/**
 * Any number of router replicas and human approvers over one dedup store, one gate, one approval store and one autonomy
 * store. Their awaits interleave freely, and any call may throw or lose its process between two of them.
 */
module TaskSystem {
  import opened Wrappers
  import opened Pricing
  import opened Tagging
  import opened Autonomy
  import opened TaskProtocol
  import opened QueueProtocol

  datatype TaskRow = TaskRow(id: Id, status: TaskStatus)

  datatype MoneyState = Held | SettledFor(amountUsd: Usd) | GivenBack

  datatype Reservation = Reservation(owner: Id, amountUsd: Usd, state: MoneyState)

  /** `trace` is everything that has happened, in order; no part of the system reads it. */
  datatype World = World(
    offerThreshold: int,
    tasks: map<Key, TaskRow>,
    runs: map<Id, Run>,
    reservations: map<Id, Reservation>,
    items: map<Id, Item>,
    autonomy: map<TypeKey, AutonomyState>,
    trace: seq<Event>)

  datatype Step =
    | Submit(task: Submission)
    | MoveRun(id: Id, answers: Answers)
    | AbandonRun(id: Id)
    | ResolveAction(tenantId: Id, id: Id, verdict: Verdict)
    | MoveResolve(id: Id, success: bool)
    | AbandonResolve(id: Id)
    | ResolveGuidance(tenantId: Id, id: Id, verdict: Verdict)
    | Accept(typeKey: TypeKey)
    | Revoke(tenantId: Id, taskType: Option<Id>)

  const NO_ANSWERS := Answers(Queues, Failure(0), false, false)

  /** The tags are those derived from the hints and the caller's tags. */
  predicate Tagged(t: Submission) {
    multiset(t.tags) == multiset(TagSet(t.hints, t.input.explicitTags))
  }

  /** Get-or-create on the dedup key decides whether this call runs the task or replays it. */
  function DoSubmit(w: World, t: Submission): World {
    var key := KeyOf(t.input);
    if key in w.tasks then w.(trace := w.trace + [Replayed(w.tasks[key].id, key)])
    else if t.id in w.runs || !Tagged(t) then w
    else w.(tasks := w.tasks[key := TaskRow(t.id, Pending)],
            runs := w.runs[t.id := Run(t, NO_ANSWERS, AppendRow(Pending), true)],
            trace := w.trace + [Created(t.id, key, t.input, t.hints)])
  }

  /** The dedup store after one await of a run. */
  function SaveTask(tasks: map<Key, TaskRow>, r: Run): map<Key, TaskRow> {
    if r.stage.SaveRow? then tasks[KeyOf(r.task.input) := TaskRow(r.task.id, r.stage.status)] else tasks
  }

  /** The reservation store after one await of a run. */
  function MoveMoney(reservations: map<Id, Reservation>, r: Run, answers: Answers): map<Id, Reservation>
    requires StageFits(r)
  {
    var id, gate, outcome := r.task.id, r.answers.gate, r.answers.outcome;
    match r.stage
    case AskGate =>
      if answers.gate.Grants?
      then reservations[answers.gate.reservationId := Reservation(id, answers.gate.amountUsd, Held)]
      else reservations
    case ReleaseMoney => reservations[gate.reservationId := Reservation(id, gate.amountUsd, GivenBack)]
    case SettleMoney =>
      reservations[gate.reservationId := Reservation(id, gate.amountUsd, SettledFor(AmountSettled(gate, outcome)))]
    case _ => reservations
  }

  /** The approval store after one await of a run. */
  function StoreItem(items: map<Id, Item>, r: Run, answers: Answers): map<Id, Item>
    requires StageFits(r)
  {
    var t, outcome, active := r.task, r.answers.outcome, r.answers.autonomyActive;
    match r.stage
    case Propose =>
      if t.input.promptTier == Ceo then items[t.id := GuidanceItem(RecommendationOf(t, outcome), None)] else items
    case Decide =>
      var action := ActionOf(t, outcome);
      if Bypasses(action, active, answers.spotCheck) then items
      else items[t.id := ActionItem(action, CountsAsAutonomous(action.stakesTags, active), None)]
    case _ => items
  }

  /** A store throws when asked to resolve a reservation that is not held, or to store an item that exists. */
  predicate StoreThrows(w: World, r: Run)
    requires StageFits(r)
  {
    || (r.stage in {ReleaseMoney, SettleMoney} &&
        !(r.answers.gate.reservationId in w.reservations && w.reservations[r.answers.gate.reservationId].state == Held))
    || (r.stage in {Propose, Decide} && r.task.id in w.items)
  }

  predicate CanMove(w: World, id: Id, answers: Answers) {
    && id in w.runs && w.runs[id].alive && StageFits(w.runs[id])
    && (w.runs[id].stage == AskGate && answers.gate.Grants? ==> answers.gate.reservationId !in w.reservations)
  }

  /** Autonomy is what the store says when it is read. */
  function WithAutonomy(w: World, r: Run, answers: Answers): Answers {
    answers.(autonomyActive := StateFor(w.autonomy, TypeKeyOf(r.task.input)).active)
  }

  /** One await of a run, when no store refuses. */
  function Moved(w: World, id: Id, a: Answers): World
    requires CanMove(w, id, a)
  {
    var r := w.runs[id];
    w.(tasks := SaveTask(w.tasks, r),
       runs := w.runs[id := Advance(r, a)],
       reservations := MoveMoney(w.reservations, r, a),
       items := StoreItem(w.items, r, a),
       trace := w.trace + News(r, a))
  }

  function DoMove(w: World, id: Id, answers: Answers): World
    requires CanMove(w, id, answers)
  {
    if StoreThrows(w, w.runs[id]) then w.(runs := w.runs[id := w.runs[id].(alive := false)])
    else Moved(w, id, WithAutonomy(w, w.runs[id], answers))
  }

  /** The store lets exactly one resolve call through: on a pending action of this tenant. */
  function DoResolve(w: World, tenantId: Id, id: Id, verdict: Verdict): World {
    if !(id in w.items && w.items[id].ActionItem? && w.items[id].resolve.None?
         && w.items[id].action.tenantId == tenantId) then w
    else
      var it := w.items[id];
      w.(items := w.items[id := ActionItem(it.action, it.spotCheck, Some(Begin(it.action, verdict)))],
         trace := w.trace + [HumanVerdict(id, verdict)])
  }

  predicate CanContinue(w: World, id: Id) {
    && id in w.items && w.items[id].ActionItem? && w.items[id].resolve.Some? && w.items[id].resolve.value.alive
  }

  function OpOf(e: Event, key: TypeKey): seq<Op> {
    match e
    case ApprovalRecorded(_, k, denied) => if k == key then [Approved(denied)] else []
    case RejectionRecorded(_, k, spotCheck) =>
      if k == key then [if spotCheck then SpotCheckRejected else Rejected] else []
    case AcceptedOffer(k) => if k == key then [OfferAccepted] else []
    case RevokedAutonomy(tenantId, taskType) =>
      if key.tenantId == tenantId && (taskType.None? || taskType.value == key.taskType) then [Revoked] else []
    case _ => []
  }

  /** The autonomy store after an event that concerns it. */
  function Recorded(w: World, e: Event): map<TypeKey, AutonomyState> {
    match e
    case ApprovalRecorded(_, k, denied) =>
      w.autonomy[k := Apply(w.offerThreshold, StateFor(w.autonomy, k), Approved(denied))]
    case RejectionRecorded(_, k, spotCheck) =>
      var op := if spotCheck then SpotCheckRejected else Rejected;
      w.autonomy[k := Apply(w.offerThreshold, StateFor(w.autonomy, k), op)]
    case AcceptedOffer(k) => w.autonomy[k := Apply(w.offerThreshold, StateFor(w.autonomy, k), OfferAccepted)]
    case RevokedAutonomy(tenantId, taskType) =>
      map k | k in w.autonomy :: if OpOf(e, k) != [] then Apply(w.offerThreshold, w.autonomy[k], Revoked)
      else w.autonomy[k]
    case _ => w.autonomy
  }

  function DoContinue(w: World, id: Id, success: bool): World
    requires CanContinue(w, id)
  {
    var ActionItem(action, spotCheck, resolve) := w.items[id];
    var news := ResolveNews(action, spotCheck, resolve.value, success);
    w.(items := w.items[id := ActionItem(action, spotCheck, Some(Continue(resolve.value, success)))],
       autonomy := if resolve.value.stage == RecordVerdict then Recorded(w, news[0]) else w.autonomy,
       trace := w.trace + news)
  }

  function DoAbandonResolve(w: World, id: Id): World
    requires CanContinue(w, id)
  {
    var ActionItem(action, spotCheck, resolve) := w.items[id];
    w.(items := w.items[id := ActionItem(action, spotCheck, Some(resolve.value.(alive := false)))])
  }

  function DoGuide(w: World, tenantId: Id, id: Id, verdict: Verdict): World {
    if !(id in w.items && w.items[id].GuidanceItem? && w.items[id].verdict.None?
         && w.items[id].item.tenantId == tenantId) then w
    else w.(items := w.items[id := GuidanceItem(w.items[id].item, Some(verdict))], trace := w.trace
            + [Guidance(id, verdict)])
  }

  function DoAutonomy(w: World, e: Event): World {
    w.(autonomy := Recorded(w, e), trace := w.trace + [e])
  }

  /** One atomic step. A step that is not due, or that a store refuses, changes nothing. */
  function Next(w: World, step: Step): World {
    match step
    case Submit(task) => DoSubmit(w, task)
    case MoveRun(id, answers) => if CanMove(w, id, answers) then DoMove(w, id, answers) else w
    case AbandonRun(id) => if id in w.runs then w.(runs := w.runs[id := w.runs[id].(alive := false)]) else w
    case ResolveAction(tenantId, id, verdict) => DoResolve(w, tenantId, id, verdict)
    case MoveResolve(id, success) => if CanContinue(w, id) then DoContinue(w, id, success) else w
    case AbandonResolve(id) => if CanContinue(w, id) then DoAbandonResolve(w, id) else w
    case ResolveGuidance(tenantId, id, verdict) => DoGuide(w, tenantId, id, verdict)
    case Accept(k) => if StateFor(w.autonomy, k).offered then DoAutonomy(w, AcceptedOffer(k)) else w
    case Revoke(tenantId, taskType) => DoAutonomy(w, RevokedAutonomy(tenantId, taskType))
  }

  function Boot(offerThreshold: int): World {
    World(offerThreshold, map[], map[], map[], map[], map[], [])
  }

  function Reach(offerThreshold: int, steps: seq<Step>): World {
    if steps == [] then Boot(offerThreshold) else Next(Reach(offerThreshold, steps[..|steps| - 1]), steps[|steps| - 1])
  }

  /** Some run of the system, from empty stores, comes to this. */
  ghost predicate IsReachable(w: World) {
    exists steps :: w == Reach(w.offerThreshold, steps)
  }
}
