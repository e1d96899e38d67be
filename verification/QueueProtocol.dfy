/** What one human verdict goes through in ApprovalQueue.resolve, as a machine over its awaits. */
module QueueProtocol {
  import opened Wrappers
  import opened Tagging
  import opened Autonomy
  import opened TaskProtocol

  datatype ResolveStage = StartEffect | AwaitEffect | RecordVerdict | AppendAudit | Resolved

  /** The one resolve call the store let through for an item. */
  datatype Resolve = Resolve(verdict: Verdict, stage: ResolveStage, success: bool, alive: bool)

  /** A stored item; its status is resolved once a call got through. */
  datatype Item =
    | ActionItem(action: ProposedAction, spotCheck: bool, resolve: Option<Resolve>)
    | GuidanceItem(item: RecommendationItem, verdict: Option<Verdict>)

  function ActionKey(action: ProposedAction): TypeKey {
    TypeKey(action.tenantId, action.taskType)
  }

  /** What would be sent: the agent's draft, or the human's edit of it. */
  function DraftOf(action: ProposedAction, verdict: Verdict): Text {
    if verdict.Modify? then verdict.editedOutput else action.draft
  }

  predicate RunsEffect(action: ProposedAction, verdict: Verdict) {
    !verdict.Reject? && action.effect.Some?
  }

  function Begin(action: ProposedAction, verdict: Verdict): Resolve {
    Resolve(verdict, if RunsEffect(action, verdict) then StartEffect else RecordVerdict, false, true)
  }

  /** `success` is the effect executor's answer; only the stage that awaits it takes it. */
  function Continue(r: Resolve, success: bool): Resolve {
    match r.stage
    case StartEffect => r.(stage := AwaitEffect)
    case AwaitEffect => r.(stage := RecordVerdict, success := success)
    case RecordVerdict => r.(stage := AppendAudit)
    case AppendAudit => r.(stage := Resolved)
    case Resolved => r
  }

  predicate ResolveFits(action: ProposedAction, r: Resolve) {
    r.stage in {StartEffect, AwaitEffect} ==> RunsEffect(action, r.verdict)
  }

  /** How the verdict counts towards autonomy: approvals and edits progress it, a rejected spot check revokes it. */
  function RecordPart(action: ProposedAction, spotCheck: bool, verdict: Verdict): seq<Event> {
    if verdict.Reject? then [RejectionRecorded(action.id, ActionKey(action), spotCheck)]
    else [ApprovalRecorded(action.id, ActionKey(action), IsDeniedFromAutonomy(action.stakesTags))]
  }

  function EffectPart(action: ProposedAction, verdict: Verdict): seq<Event> {
    if RunsEffect(action, verdict) then [EffectStarted(action.id, action.effect.value, DraftOf(action, verdict))]
    else []
  }

  function EffectDone(action: ProposedAction, verdict: Verdict, success: bool): seq<Event> {
    EffectPart(action, verdict) + if RunsEffect(action, verdict) then [EffectFinished(action.id, success)] else []
  }

  function VerdictRecorded(action: ProposedAction, spotCheck: bool, verdict: Verdict, success: bool): seq<Event> {
    EffectDone(action, verdict, success) + RecordPart(action, spotCheck, verdict)
  }

  /** What a resolve call has done when it stands where it does. */
  function ResolvedSoFar(action: ProposedAction, spotCheck: bool, r: Resolve): seq<Event> {
    [HumanVerdict(action.id, r.verdict)] +
    match r.stage
    case StartEffect => []
    case AwaitEffect => EffectPart(action, r.verdict)
    case RecordVerdict => EffectDone(action, r.verdict, r.success)
    case AppendAudit => VerdictRecorded(action, spotCheck, r.verdict, r.success)
    case Resolved => VerdictRecorded(action, spotCheck, r.verdict, r.success) + [Audited(action.id, r.verdict)]
  }

  function ResolveNews(action: ProposedAction, spotCheck: bool, r: Resolve, success: bool): seq<Event> {
    match r.stage
    case StartEffect => EffectPart(action, r.verdict)
    case AwaitEffect => [EffectFinished(action.id, success)]
    case RecordVerdict => RecordPart(action, spotCheck, r.verdict)
    case AppendAudit => [Audited(action.id, r.verdict)]
    case Resolved => []
  }

  /** One await at a time, a verdict is carried out in order. */
  lemma ContinueTellsNews(action: ProposedAction, spotCheck: bool, r: Resolve, success: bool)
    requires ResolveFits(action, r)
    ensures ResolveFits(action, Continue(r, success))
    ensures ResolvedSoFar(action, spotCheck, Continue(r, success))
         == ResolvedSoFar(action, spotCheck, r) + ResolveNews(action, spotCheck, r, success)
  {
    hide RecordPart, EffectPart;
  }

  /** Everything that has happened to an item since it was stored. */
  function ItemLog(item: Item): seq<Event> {
    match item
    case ActionItem(action, spotCheck, resolve) =>
      [ActionQueued(action.id, action, spotCheck)] 
        + if resolve.Some? then ResolvedSoFar(action, spotCheck, resolve.value) else []
    case GuidanceItem(rec, verdict) =>
      [Recommended(rec.id, rec)] + if verdict.Some? then [Guidance(rec.id, verdict.value)] else []
  }
}
