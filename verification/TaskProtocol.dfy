/**
 * What one submitted task goes through, from dedup to its last ledger row, as a machine over the awaits of
 * Router.submitTask. A run records its inputs, the answers it got, and where it stands.
 */
module TaskProtocol {
  import opened Wrappers
  import opened Pricing
  import opened Tagging
  import opened Autonomy

  /** Prose and prompts: only ever copied and compared. */
  type Text = nat

  datatype PromptTier = Ceo | RoleLead | SubAgent

  datatype EffectKind = Send | Post | Pay | Deploy

  datatype Effect = Effect(kind: EffectKind, description: Text)

  datatype Key = Key(tenantId: Id, dedupKey: Id)

  datatype TaskInput = TaskInput(tenantId: Id, dedupKey: Id, subAgentId: Id, teamId: Id, model: Option<string>,
                                 effect: Option<Effect>, promptTier: PromptTier, explicitTags: seq<string>)

  datatype TaskStatus = Pending | Queued | InProgress | AwaitingReview | Completed | Failed | Skipped

  /** Whether this replica has a cost gate and an approval queue attached. */
  datatype Replica = Replica(hasGate: bool, hasQueue: bool)

  /** A reservation comes with the answer exactly when the task may run. */
  datatype GateAnswer = Queues | Skips | Grants(model: string, reservationId: Id, amountUsd: Usd)

  datatype ExecutionOutcome = Failure(error: Text) | Success(result: Text, costUsd: Option<Usd>, missingHands: seq<Id>)

  datatype ProposedAction = ProposedAction(id: Id, tenantId: Id, taskType: Id, draft: Text, stakesTags: seq<string>,
                                           effect: Option<Effect>)

  /** Guidance: there is no place for an effect. */
  datatype RecommendationItem = RecommendationItem(id: Id, tenantId: Id, draft: Text, stakesTags: seq<string>)

  datatype Verdict = Approve | Reject(feedback: Text) | Modify(editedOutput: Text)

  /** Everything the outside world decides during one submission. */
  datatype Answers = Answers(gate: GateAnswer, outcome: ExecutionOutcome, autonomyActive: bool, spotCheck: bool)

  /** Where a submission stands, named by the await it is about to perform. */
  datatype Stage =
    | AppendRow(status: TaskStatus)
    | AskGate
    | SaveRow(status: TaskStatus)
    | StartExecutor
    | AwaitExecutor
    | ReleaseMoney
    | SettleMoney
    | Propose
    | Decide
    | Return(status: TaskStatus)
    | Over(status: TaskStatus)

  datatype Submission = Submission(id: Id, input: TaskInput, hints: TaggingHints, tags: seq<string>, replica: Replica)

  /** `alive` is false once the call has thrown or its process died. */
  datatype Run = Run(task: Submission, answers: Answers, stage: Stage, alive: bool)

  datatype Event =
    | Created(id: Id, key: Key, input: TaskInput, hints: TaggingHints)
    | Replayed(id: Id, key: Key)
    | Row(id: Id, status: TaskStatus)
    | GateAnswered(id: Id, answer: GateAnswer)
    | Started(id: Id, key: Key, model: Option<string>)
    | Executed(id: Id, outcome: ExecutionOutcome)
    | Settled(id: Id, reservationId: Id, amountUsd: Usd)
    | Released(id: Id, reservationId: Id)
    | AutonomyRead(id: Id, typeKey: TypeKey, active: bool)
    | AutoApproved(id: Id)
    | ActionQueued(id: Id, action: ProposedAction, spotCheck: bool)
    | Recommended(id: Id, item: RecommendationItem)
    | Returned(id: Id, status: TaskStatus)
    | HumanVerdict(id: Id, verdict: Verdict)
    | EffectStarted(id: Id, effect: Effect, draft: Text)
    | EffectFinished(id: Id, success: bool)
    | ApprovalRecorded(id: Id, typeKey: TypeKey, denied: bool)
    | RejectionRecorded(id: Id, typeKey: TypeKey, spotCheck: bool)
    | Audited(id: Id, verdict: Verdict)
    | Guidance(id: Id, verdict: Verdict)
    | AcceptedOffer(typeKey: TypeKey)
    | RevokedAutonomy(tenantId: Id, taskType: Option<Id>)

  // ---- What the answers come to ---------------------------------------------------------------------------------

  function KeyOf(input: TaskInput): Key {
    Key(input.tenantId, input.dedupKey)
  }

  function TypeKeyOf(input: TaskInput): TypeKey {
    TypeKey(input.tenantId, input.subAgentId)
  }

  predicate IsGated(t: Submission) {
    t.replica.hasGate && t.input.model.Some?
  }

  predicate Refused(t: Submission, gate: GateAnswer) {
    IsGated(t) && !gate.Grants?
  }

  predicate HasMoney(t: Submission, gate: GateAnswer) {
    IsGated(t) && gate.Grants?
  }

  function ModelUsed(t: Submission, gate: GateAnswer): Option<string> {
    if HasMoney(t, gate) then Some(gate.model) else t.input.model
  }

  /** Without a reported cost the reserved amount is what gets settled. */
  function AmountSettled(gate: GateAnswer, outcome: ExecutionOutcome): Usd
    requires gate.Grants? && outcome.Success?
  {
    if outcome.costUsd.Some? then outcome.costUsd.value else gate.amountUsd
  }

  /** A CEO task, or one that ran without a Hands tool it needed, proposes no effect. */
  function EffectiveEffect(t: Submission, outcome: ExecutionOutcome): Option<Effect>
    requires outcome.Success?
  {
    if outcome.missingHands != [] || t.input.promptTier == Ceo then None else t.input.effect
  }

  function ActionOf(t: Submission, outcome: ExecutionOutcome): ProposedAction
    requires outcome.Success?
  {
    ProposedAction(t.id, t.input.tenantId, t.input.subAgentId, outcome.result, t.tags, EffectiveEffect(t, outcome))
  }

  function RecommendationOf(t: Submission, outcome: ExecutionOutcome): RecommendationItem
    requires outcome.Success?
  {
    RecommendationItem(t.id, t.input.tenantId, outcome.result, t.tags)
  }

  predicate CountsAsAutonomous(tags: seq<string>, active: bool) {
    active && !IsDeniedFromAutonomy(tags)
  }

  /** Only an autonomous pure draft that is not sampled for a spot check skips human review. */
  predicate Bypasses(action: ProposedAction, active: bool, spotCheck: bool) {
    CountsAsAutonomous(action.stakesTags, active) && !spotCheck && action.effect.None?
  }

  function FinalStatus(t: Submission, a: Answers): TaskStatus {
    if Refused(t, a.gate) then (if a.gate.Queues? then Queued else Skipped)
    else if a.outcome.Failure? then Failed
    else if !t.replica.hasQueue then Completed
    else if t.input.promptTier == Ceo then AwaitingReview
    else if Bypasses(ActionOf(t, a.outcome), a.autonomyActive, a.spotCheck) then Completed
    else AwaitingReview
  }

  // ---- One await at a time -------------------------------------------------------------------------------------

  /** Where a run that has its executor's outcome goes once the money is dealt with. */
  function AfterMoney(t: Submission, outcome: ExecutionOutcome): Stage {
    if outcome.Failure? then SaveRow(Failed) else if t.replica.hasQueue then Propose else SaveRow(Completed)
  }

  /** `w` holds the world's answers; only a stage that asks for one takes it. */
  function Advance(r: Run, w: Answers): Run {
    var t := r.task;
    match r.stage
    case AppendRow(status) =>
      r.(stage := if status == Pending then (if IsGated(t) then AskGate else SaveRow(InProgress))
                  else if status == InProgress then StartExecutor
                  else Return(status))
    case AskGate =>
      var answers := r.answers.(gate := w.gate);
      r.(answers := answers, stage := SaveRow(if w.gate.Grants? then InProgress else FinalStatus(t, answers)))
    case SaveRow(status) => r.(stage := AppendRow(status))
    case StartExecutor => r.(stage := AwaitExecutor)
    case AwaitExecutor =>
      r.(answers := r.answers.(outcome := w.outcome),
         stage := if !HasMoney(t, r.answers.gate) then AfterMoney(t, w.outcome)
                  else if w.outcome.Failure? then ReleaseMoney else SettleMoney)
    case ReleaseMoney => r.(stage := AfterMoney(t, r.answers.outcome))
    case SettleMoney => r.(stage := AfterMoney(t, r.answers.outcome))
    case Propose =>
      if t.input.promptTier == Ceo then r.(stage := SaveRow(AwaitingReview))
      else r.(answers := r.answers.(autonomyActive := w.autonomyActive), stage := Decide)
    case Decide =>
      var answers := r.answers.(spotCheck := w.spotCheck);
      r.(answers := answers, stage := SaveRow(FinalStatus(t, answers)))
    case Return(status) => r.(stage := Over(status))
    case Over(_) => r
  }

  predicate IsLast(t: Submission, a: Answers, status: TaskStatus) {
    status == FinalStatus(t, a) && status !in {Pending, InProgress}
  }

  /** Only combinations a run can be in. */
  predicate StageFits(r: Run) {
    var t, a := r.task, r.answers;
    match r.stage
    case AppendRow(status) => status == Pending || (status == InProgress && !Refused(t, a.gate)) || IsLast(t, a, status)
    case AskGate => IsGated(t)
    case SaveRow(status) => (status == InProgress && !Refused(t, a.gate)) || IsLast(t, a, status)
    case StartExecutor => !Refused(t, a.gate)
    case AwaitExecutor => !Refused(t, a.gate)
    case ReleaseMoney => HasMoney(t, a.gate) && a.outcome.Failure?
    case SettleMoney => HasMoney(t, a.gate) && a.outcome.Success?
    case Propose => !Refused(t, a.gate) && a.outcome.Success? && t.replica.hasQueue
    case Decide => !Refused(t, a.gate) && a.outcome.Success? && t.replica.hasQueue && t.input.promptTier != Ceo
    case Return(status) => IsLast(t, a, status)
    case Over(status) => IsLast(t, a, status)
  }

  // ---- What a run has done -------------------------------------------------------------------------------------

  function Opening(t: Submission): seq<Event> {
    [Created(t.id, KeyOf(t.input), t.input, t.hints), Row(t.id, Pending)]
  }

  function BeforeExecutor(t: Submission, gate: GateAnswer): seq<Event> {
    Opening(t) + if IsGated(t) then [GateAnswered(t.id, gate)] else []
  }

  function RowInProgress(t: Submission, gate: GateAnswer): seq<Event> {
    BeforeExecutor(t, gate) + [Row(t.id, InProgress)]
  }

  function ExecutorRunning(t: Submission, gate: GateAnswer): seq<Event> {
    RowInProgress(t, gate) + [Started(t.id, KeyOf(t.input), ModelUsed(t, gate))]
  }

  function ExecutorDone(t: Submission, gate: GateAnswer, outcome: ExecutionOutcome): seq<Event> {
    ExecutorRunning(t, gate) + [Executed(t.id, outcome)]
  }

  function MoneyPart(t: Submission, gate: GateAnswer, outcome: ExecutionOutcome): seq<Event> {
    if !HasMoney(t, gate) then []
    else if outcome.Failure? then [Released(t.id, gate.reservationId)]
    else [Settled(t.id, gate.reservationId, AmountSettled(gate, outcome))]
  }

  function MoneyDone(t: Submission, gate: GateAnswer, outcome: ExecutionOutcome): seq<Event> {
    ExecutorDone(t, gate, outcome) + MoneyPart(t, gate, outcome)
  }

  function ReadPart(t: Submission, active: bool): seq<Event> {
    [AutonomyRead(t.id, TypeKeyOf(t.input), active)]
  }

  function DecidedPart(action: ProposedAction, active: bool, spotCheck: bool): seq<Event> {
    if Bypasses(action, active, spotCheck) then [AutoApproved(action.id)]
    else [ActionQueued(action.id, action, CountsAsAutonomous(action.stakesTags, active))]
  }

  function ReviewPart(t: Submission, a: Answers): seq<Event> {
    if a.outcome.Failure? || !t.replica.hasQueue then []
    else if t.input.promptTier == Ceo then [Recommended(t.id, RecommendationOf(t, a.outcome))]
    else ReadPart(t, a.autonomyActive) + DecidedPart(ActionOf(t, a.outcome), a.autonomyActive, a.spotCheck)
  }

  /** Everything before the last ledger row. */
  function Story(t: Submission, a: Answers): seq<Event> {
    if Refused(t, a.gate) then BeforeExecutor(t, a.gate) else MoneyDone(t, a.gate, a.outcome) + ReviewPart(t, a)
  }

  /** The whole of a submission that was not interrupted. */
  function FullStory(t: Submission, a: Answers): seq<Event> {
    Story(t, a) + [Row(t.id, FinalStatus(t, a))] + [Returned(t.id, FinalStatus(t, a))]
  }

  /** What a run has done when it stands where it does. */
  function SoFar(r: Run): seq<Event> {
    var t, a := r.task, r.answers;
    match r.stage
    case AppendRow(status) =>
      if status == Pending then Opening(t)[..1] else if status == InProgress then BeforeExecutor(t, a.gate)
      else Story(t, a)
    case AskGate => Opening(t)
    case SaveRow(status) => if status == InProgress then BeforeExecutor(t, a.gate) else Story(t, a)
    case StartExecutor => RowInProgress(t, a.gate)
    case AwaitExecutor => ExecutorRunning(t, a.gate)
    case ReleaseMoney => ExecutorDone(t, a.gate, a.outcome)
    case SettleMoney => ExecutorDone(t, a.gate, a.outcome)
    case Propose => MoneyDone(t, a.gate, a.outcome)
    case Decide => MoneyDone(t, a.gate, a.outcome) + ReadPart(t, a.autonomyActive)
    case Return(status) => Story(t, a) + [Row(t.id, status)]
    case Over(_) => FullStory(t, a)
  }

  /** What one await adds. */
  function News(r: Run, w: Answers): seq<Event>
    requires StageFits(r)
  {
    var t, a := r.task, r.answers;
    match r.stage
    case AppendRow(status) => [Row(t.id, status)]
    case AskGate => [GateAnswered(t.id, w.gate)]
    case SaveRow(_) => []
    case StartExecutor => [Started(t.id, KeyOf(t.input), ModelUsed(t, a.gate))]
    case AwaitExecutor => [Executed(t.id, w.outcome)]
    case ReleaseMoney => [Released(t.id, a.gate.reservationId)]
    case SettleMoney => [Settled(t.id, a.gate.reservationId, AmountSettled(a.gate, a.outcome))]
    case Propose =>
      if t.input.promptTier == Ceo then [Recommended(t.id, RecommendationOf(t, a.outcome))]
      else ReadPart(t, w.autonomyActive)
    case Decide => DecidedPart(ActionOf(t, a.outcome), a.autonomyActive, w.spotCheck)
    case Return(status) => [Returned(t.id, status)]
    case Over(_) => []
  }

  lemma AdvanceFits(r: Run, w: Answers)
    requires StageFits(r)
    ensures StageFits(Advance(r, w))
  {
    hide Bypasses, ActionOf;
  }

  /** One await at a time, a run tells its story in order: nothing skipped, repeated or swapped. */
  lemma AdvanceTellsNews(r: Run, w: Answers)
    requires StageFits(r)
    ensures StageFits(Advance(r, w)) && SoFar(Advance(r, w)) == SoFar(r) + News(r, w)
  {
    AdvanceFits(r, w);
    match r.stage
    case AppendRow(_) => AppendTellsNews(r, w);
    case AwaitExecutor => OutcomeTellsNews(r, w);
    case Propose => ReviewTellsNews(r, w);
    case Decide => ReviewTellsNews(r, w);
    case AskGate => GateTellsNews(r, w);
    case _ => MoneyTellsNews(r, w);
  }

  lemma GateTellsNews(r: Run, w: Answers)
    requires StageFits(r) && r.stage.AskGate?
    ensures SoFar(Advance(r, w)) == SoFar(r) + News(r, w)
  {
    hide Bypasses, ActionOf, KeyOf, MoneyDone, ReviewPart;
  }

  lemma MoneyTellsNews(r: Run, w: Answers)
    requires StageFits(r) && !r.stage.AppendRow? && r.stage !in {AskGate, AwaitExecutor, Propose, Decide}
    ensures SoFar(Advance(r, w)) == SoFar(r) + News(r, w)
  {
    hide Bypasses, ActionOf, DecidedPart, RecommendationOf, KeyOf, ReadPart, ModelUsed, ExecutorDone, RowInProgress;
  }

  lemma ReviewTellsNews(r: Run, w: Answers)
    requires StageFits(r) && r.stage in {Propose, Decide}
    ensures SoFar(Advance(r, w)) == SoFar(r) + News(r, w)
  {
    hide Bypasses, ActionOf, DecidedPart, RecommendationOf, KeyOf, ReadPart, MoneyDone, BeforeExecutor;
  }

  lemma AppendTellsNews(r: Run, w: Answers)
    requires StageFits(r) && r.stage.AppendRow?
    ensures SoFar(Advance(r, w)) == SoFar(r) + News(r, w)
  {
    hide Story, FinalStatus, KeyOf;
  }

  lemma OutcomeTellsNews(r: Run, w: Answers)
    requires StageFits(r) && r.stage.AwaitExecutor?
    ensures SoFar(Advance(r, w)) == SoFar(r) + News(r, w)
  {
    hide ExecutorRunning, RecommendationOf, Bypasses;
    var a, b := r.answers, r.answers.(outcome := w.outcome);
    assert ExecutorDone(r.task, b.gate, b.outcome) == SoFar(r) + News(r, w);
  }
}
