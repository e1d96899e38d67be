/**
 * Whole submissions and whole verdicts, written out in the terms of the task and of the answers it got. The machines of
 * `TaskProtocol` and `QueueProtocol` tell these stories, one await at a time.
 */
module Stories {
  import opened Wrappers
  import opened Pricing
  import opened Tagging
  import opened Autonomy
  import opened TaskProtocol
  import opened QueueProtocol

  /** A gate is attached and a model was asked for. */
  predicate PassesGate(t: Submission) {
    t.replica.hasGate && t.input.model.Some?
  }

  /** What the task puts before a human: nothing for a CEO's, whose only way out is guidance. */
  function Proposal(t: Submission, result: Text, missingHands: seq<Id>): ProposedAction {
    ProposedAction(t.id, t.input.tenantId, t.input.subAgentId, result, t.tags,
                   if missingHands == [] && t.input.promptTier != Ceo then t.input.effect else None)
  }

  /** Autonomy was active and none of the tags rules it out. */
  predicate IsAutonomous(t: Submission, active: bool) {
    active && !NamesDeniedTag(t.tags)
  }

  predicate SkipsReview(t: Submission, missingHands: seq<Id>, active: bool, sampled: bool) {
    IsAutonomous(t, active) && !sampled && (t.input.effect.None? || missingHands != [])
  }

  /** How a submission ends when nothing interrupts it. */
  function Ends(t: Submission, a: Answers): TaskStatus {
    if PassesGate(t) && a.gate.Queues? then Queued
    else if PassesGate(t) && a.gate.Skips? then Skipped
    else
      match a.outcome
      case Failure(_) => Failed
      case Success(_, _, missingHands) =>
        if !t.replica.hasQueue then Completed
        else if t.input.promptTier != Ceo && SkipsReview(t, missingHands, a.autonomyActive, a.spotCheck) then Completed
        else AwaitingReview
  }

  /** What becomes of the money the gate granted. */
  function MoneyTale(t: Submission, gate: GateAnswer, outcome: ExecutionOutcome): seq<Event> {
    match (gate, outcome)
    case (Grants(_, reservationId, _), Failure(_)) => [Released(t.id, reservationId)]
    case (Grants(_, reservationId, amountUsd), Success(_, costUsd, _)) =>
      [Settled(t.id, reservationId, if costUsd.Some? then costUsd.value else amountUsd)]
    case _ => []
  }

  /** What reaches the queue: guidance from a CEO; from anyone else a proposal, after autonomy has been read. */
  function ReviewTale(t: Submission, a: Answers): seq<Event> {
    match a.outcome
    case Failure(_) => []
    case Success(result, _, missingHands) =>
      if !t.replica.hasQueue then []
      else if t.input.promptTier == Ceo
      then [Recommended(t.id, RecommendationItem(t.id, t.input.tenantId, result, t.tags))]
      else
        [AutonomyRead(t.id, TypeKey(t.input.tenantId, t.input.subAgentId), a.autonomyActive),
         if SkipsReview(t, missingHands, a.autonomyActive, a.spotCheck) then AutoApproved(t.id)
         else ActionQueued(t.id, Proposal(t, result, missingHands), IsAutonomous(t, a.autonomyActive))]
  }

  function ExecutionTale(t: Submission, a: Answers): seq<Event> {
    var model := if PassesGate(t) && a.gate.Grants? then Some(a.gate.model) else t.input.model;
    [Row(t.id, InProgress), Started(t.id, Key(t.input.tenantId, t.input.dedupKey), model), Executed(t.id, a.outcome)]
    + (if PassesGate(t) then MoneyTale(t, a.gate, a.outcome) else [])
    + ReviewTale(t, a)
  }

  function Tale(t: Submission, a: Answers): seq<Event> {
    [Created(t.id, Key(t.input.tenantId, t.input.dedupKey), t.input, t.hints), Row(t.id, Pending)]
    + (if PassesGate(t) then [GateAnswered(t.id, a.gate)] else [])
    + (if PassesGate(t) && !a.gate.Grants? then [] else ExecutionTale(t, a))
    + [Row(t.id, Ends(t, a)), Returned(t.id, Ends(t, a))]
  }

  lemma ReviewTold(t: Submission, a: Answers)
    ensures ReviewPart(t, a) == ReviewTale(t, a)
    ensures FinalStatus(t, a) == Ends(t, a)
  {
    DeniedByName(t.tags);
    hide IsDeniedFromAutonomy, NamesDeniedTag;
  }

  /** The machine's story is this one: who is asked what, in which order, and how it ends. */
  lemma StoryInFull(t: Submission, a: Answers)
    ensures FullStory(t, a) == Tale(t, a)
    ensures FinalStatus(t, a) == Ends(t, a)
  {
    ReviewTold(t, a);
    hide ReviewPart, ReviewTale, FinalStatus, Ends;
  }

  /** What the run leaves in the queue's store, if it came to that. */
  function Leaves(t: Submission, a: Answers): Option<Item> {
    match a.outcome
    case Failure(_) => None
    case Success(result, _, missingHands) =>
      if (PassesGate(t) && !a.gate.Grants?) || !t.replica.hasQueue then None
      else if t.input.promptTier == Ceo
      then Some(GuidanceItem(RecommendationItem(t.id, t.input.tenantId, result, t.tags), None))
      else if SkipsReview(t, missingHands, a.autonomyActive, a.spotCheck) then None
      else Some(ActionItem(Proposal(t, result, missingHands), IsAutonomous(t, a.autonomyActive), None))
  }

  // ---- Verdicts ------------------------------------------------------------------------------------------------

  /**
   * The effect a verdict sets going: none for a rejection; on the agent's draft if approved, on the human's if edited.
   */
  function EffectTale(action: ProposedAction, verdict: Verdict, success: bool): seq<Event> {
    match (action.effect, verdict)
    case (Some(e), Approve) => [EffectStarted(action.id, e, action.draft), EffectFinished(action.id, success)]
    case (Some(e), Modify(edited)) => [EffectStarted(action.id, e, edited), EffectFinished(action.id, success)]
    case _ => []
  }

  /** What autonomy is told of it. */
  function RecordTale(action: ProposedAction, spotCheck: bool, verdict: Verdict): Event {
    var key := TypeKey(action.tenantId, action.taskType);
    if verdict.Reject? then RejectionRecorded(action.id, key, spotCheck)
    else ApprovalRecorded(action.id, key, NamesDeniedTag(action.stakesTags))
  }

  function VerdictTale(action: ProposedAction, spotCheck: bool, verdict: Verdict, success: bool): seq<Event> {
    [ActionQueued(action.id, action, spotCheck), HumanVerdict(action.id, verdict)]
    + EffectTale(action, verdict, success)
    + [RecordTale(action, spotCheck, verdict), Audited(action.id, verdict)]
  }

  lemma VerdictParts(action: ProposedAction, spotCheck: bool, verdict: Verdict, success: bool)
    ensures EffectPart(action, verdict) <= EffectTale(action, verdict, success)
    ensures EffectDone(action, verdict, success) == EffectTale(action, verdict, success)
    ensures RecordPart(action, spotCheck, verdict) == [RecordTale(action, spotCheck, verdict)]
  {
    DeniedByName(action.stakesTags);
    hide IsDeniedFromAutonomy, NamesDeniedTag;
  }

  /** What has happened to an action under a verdict is a beginning of that, for some answer of the effect executor. */
  lemma VerdictInFull(action: ProposedAction, spotCheck: bool, r: Resolve) returns (success: bool)
    requires ResolveFits(action, r)
    ensures ItemLog(ActionItem(action, spotCheck, Some(r))) <= VerdictTale(action, spotCheck, r.verdict, success)
    ensures r.stage == Resolved ==>
              ItemLog(ActionItem(action, spotCheck, Some(r))) == VerdictTale(action, spotCheck, r.verdict, success)
  {
    success := r.success;
    VerdictParts(action, spotCheck, r.verdict, success);
    hide EffectPart, EffectDone, EffectTale, RecordPart, RecordTale;
    var start := [ActionQueued(action.id, action, spotCheck), HumanVerdict(action.id, r.verdict)];
    var log := ItemLog(ActionItem(action, spotCheck, Some(r)));
    var effect, record := EffectTale(action, r.verdict, success), [RecordTale(action, spotCheck, r.verdict)];
    assert VerdictTale(action, spotCheck, r.verdict, success)
           == start + effect + record + [Audited(action.id, r.verdict)];
    match r.stage
    case StartEffect => assert log == start;
    case AwaitEffect => assert log == start + EffectPart(action, r.verdict);
    case RecordVerdict => assert log == start + effect;
    case AppendAudit => assert log == start + effect + record;
    case Resolved => assert log == start + effect + record + [Audited(action.id, r.verdict)];
  }
}
