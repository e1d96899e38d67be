/** Pending and resolved items. */
module ApprovalStore {
  import opened Wrappers
  import opened TaskProtocol

  datatype StoredItem =
    | StoredAction(action: ProposedAction, spotCheck: bool, verdict: Option<Verdict>)
    | StoredRecommendation(item: RecommendationItem, resolved: bool)

  datatype QueueError = UnknownAction | UnknownRecommendation | Threw

  datatype ResolveOutcome = ResolveOutcome(action: ProposedAction, wasSpotCheck: bool)

  predicate IsPendingAction(items: map<Id, StoredItem>, tenantId: Id, id: Id) {
    id in items && items[id].StoredAction? && items[id].verdict.None? && items[id].action.tenantId == tenantId
  }

  predicate IsPendingRecommendation(items: map<Id, StoredItem>, tenantId: Id, id: Id) {
    id in items && items[id].StoredRecommendation? && !items[id].resolved && items[id].item.tenantId == tenantId
  }

  class ApprovalStore {
    var items: map<Id, StoredItem>

    constructor ()
      ensures items == map[]
    {
      items := map[];
    }

    method SubmitProposedAction(action: ProposedAction, spotCheck: bool)
      modifies this
      ensures items == old(items)[action.id := StoredAction(action, spotCheck, None)]
    {
      items := items[action.id := StoredAction(action, spotCheck, None)];
    }

    method SubmitRecommendation(item: RecommendationItem)
      modifies this
      ensures items == old(items)[item.id := StoredRecommendation(item, false)]
    {
      items := items[item.id := StoredRecommendation(item, false)];
    }

    /**
     * Only a pending action of this tenant is resolved, and only once; anything else is refused and changes nothing.
     */
    method Resolve(tenantId: Id, id: Id, verdict: Verdict) returns (r: Result<ResolveOutcome, QueueError>)
      modifies this
      ensures !IsPendingAction(old(items), tenantId, id) ==> r == Err(UnknownAction) && items == old(items)
      ensures IsPendingAction(old(items), tenantId, id) ==>
                var it := old(items)[id];
                && r == Ok(ResolveOutcome(it.action, it.spotCheck))
                && items == old(items)[id := StoredAction(it.action, it.spotCheck, Some(verdict))]
    {
      if id !in items || !items[id].StoredAction? || items[id].verdict.Some? || items[id].action.tenantId != tenantId {
        return Err(UnknownAction);
      }
      var StoredAction(action, spotCheck, _) := items[id];
      items := items[id := StoredAction(action, spotCheck, Some(verdict))];
      r := Ok(ResolveOutcome(action, spotCheck));
    }

    method ResolveRecommendation(tenantId: Id, id: Id) returns (r: Result<RecommendationItem, QueueError>)
      modifies this
      ensures !IsPendingRecommendation(old(items), tenantId, id) ==>
                r == Err(UnknownRecommendation) && items == old(items)
      ensures IsPendingRecommendation(old(items), tenantId, id) ==>
                r == Ok(old(items)[id].item)
                  && items == old(items)[id := StoredRecommendation(old(items)[id].item, true)]
    {
      if id !in items || !items[id].StoredRecommendation? || items[id].resolved || items[id].item.tenantId != tenantId {
        return Err(UnknownRecommendation);
      }
      var item := items[id].item;
      items := items[id := StoredRecommendation(item, true)];
      r := Ok(item);
    }
  }
}

/** The final firewall: the only place where an action's effect can run. */
module ApprovalQueue {
  import opened Wrappers
  import opened Tagging
  import opened Autonomy
  import opened TaskProtocol
  import opened QueueProtocol
  import opened ApprovalStore

  datatype QueueEvent =
    | EmittedQueued(actionId: Id)
    | EmittedAutoApproved(actionId: Id)
    | EmittedLearning(actionId: Id, feedback: Text)
    | EmittedGuidance(actionId: Id, verdict: Verdict)
    | EmittedOffered(typeKey: TypeKey, consecutiveApprovals: nat)
    | EmittedRevoked(typeKey: TypeKey, manual: bool)

  datatype AuditKind = AuditQueued | AuditAutoApproved | AuditVerdict(verdict: Verdict) | AuditRecommended | AuditGuided

  datatype AuditEntry = AuditEntry(actionId: Id, kind: AuditKind)

  /** One call of the effect executor: the effect, on the action as it finally stands. */
  datatype EffectCall = EffectCall(effect: Effect, action: ProposedAction)

  datatype ResolveResult = ResolveResult(dispatched: bool, effectSucceeded: Option<bool>)

  /** The action that is carried out: MODIFY replaces the draft. */
  function FinalAction(action: ProposedAction, verdict: Verdict): ProposedAction {
    action.(draft := DraftOf(action, verdict))
  }

  /** How a verdict counts towards autonomy. */
  function VerdictOp(action: ProposedAction, spotCheck: bool, verdict: Verdict): Op {
    if !verdict.Reject? then Approved(IsDeniedFromAutonomy(action.stakesTags))
    else if spotCheck then SpotCheckRejected else Rejected
  }

  /** What listeners hear of an approval: the offer it earned, if it did. */
  function Offer(threshold: int, action: ProposedAction, was: AutonomyState): seq<QueueEvent> {
    if !IsDeniedFromAutonomy(action.stakesTags) && OffersNow(threshold, was)
    then [EmittedOffered(ActionKey(action), was.consecutiveApprovals + 1)] else []
  }

  /** What listeners hear of a verdict, given how far its call got and the autonomy it found. */
  function Announced(threshold: int, action: ProposedAction, spotCheck: bool, was: AutonomyState,
                     reached: Resolve): seq<QueueEvent>
  {
    var key, recorded := ActionKey(action), reached.stage in {AppendAudit, Resolved};
    match reached.verdict
    case Reject(feedback) =>
      [EmittedLearning(action.id, feedback)] + if recorded && spotCheck then [EmittedRevoked(key, false)] else []
    case _ => if recorded then Offer(threshold, action, was) else []
  }

  // ---- The same in the verdict's and the action's own terms ----------------------------------------------------

  /** What a verdict makes of its task type's autonomy. */
  function Earns(threshold: int, was: AutonomyState, verdict: Verdict, spotCheck: bool, denied: bool): AutonomyState {
    if verdict.Reject? then AutonomyState(0, was.active && !spotCheck, false)
    else if denied then was
    else
      var count := was.consecutiveApprovals + 1;
      AutonomyState(count, was.active, was.offered || (count == threshold && !was.active))
  }

  /** What listeners hear of a verdict that was carried out to its end. */
  function Announces(threshold: int, was: AutonomyState, action: ProposedAction, verdict: Verdict, spotCheck: bool)
    : seq<QueueEvent>
  {
    var key := TypeKey(action.tenantId, action.taskType);
    if verdict.Reject? then
      [EmittedLearning(action.id, verdict.feedback)] + if spotCheck then [EmittedRevoked(key, false)] else []
    else if !NamesDeniedTag(action.stakesTags) && was.consecutiveApprovals + 1 == threshold && !was.active
      && !was.offered
    then [EmittedOffered(key, threshold)] else []
  }

  /** The calls of the effect executor: one for an effect approved or edited, on the draft as it was left. */
  function EffectCalls(action: ProposedAction, verdict: Verdict): seq<EffectCall> {
    match action.effect
    case None => []
    case Some(e) =>
      match verdict
      case Approve => [EffectCall(e, action)]
      case Modify(edited) => [EffectCall(e, action.(draft := edited))]
      case Reject(_) => []
  }

  lemma VerdictInFull(threshold: int, was: AutonomyState, action: ProposedAction, verdict: Verdict, spotCheck: bool,
                      reached: Resolve)
    requires reached.verdict == verdict
    ensures (if RunsEffect(action, verdict) then [EffectCall(action.effect.value, FinalAction(action, verdict))]
             else [])
            == EffectCalls(action, verdict)
    ensures RunsEffect(action, verdict) <==> EffectCalls(action, verdict) != []
    ensures ActionKey(action) == TypeKey(action.tenantId, action.taskType)
    ensures Apply(threshold, was, VerdictOp(action, spotCheck, verdict))
            == Earns(threshold, was, verdict, spotCheck, NamesDeniedTag(action.stakesTags))
    ensures reached.stage == Resolved ==>
              Announced(threshold, action, spotCheck, was, reached)
                == Announces(threshold, was, action, verdict, spotCheck)
  {
    DeniedByName(action.stakesTags);
    hide IsDeniedFromAutonomy, NamesDeniedTag;
  }

  class ApprovalQueue {
    const autonomy: AutonomyStore
    const store: ApprovalStore
    var effects: seq<EffectCall>
    var audit: seq<AuditEntry>
    var emitted: seq<QueueEvent>

    constructor (autonomy: AutonomyStore, store: ApprovalStore)
      ensures this.autonomy == autonomy && this.store == store && effects == [] && audit == [] && emitted == []
    {
      this.autonomy, this.store := autonomy, store;
      effects, audit, emitted := [], [], [];
    }

    /**
     * An action skips review exactly when its type is autonomous, nothing on it is deny-listed, it is not sampled for a
     * spot check and it carries no effect. Otherwise it is stored, as a spot check if it was autonomous. Either way no
     * effect runs.
     */
    method SubmitProposedAction(action: ProposedAction, sampled: bool, throws: bool)
      returns (queued: Result<bool, QueueError>)
      modifies this, autonomy, store
      ensures autonomy.Becomes(ActionKey(action), old(StateFor(autonomy.states, ActionKey(action))))
      ensures effects == old(effects)
      ensures var active := old(StateFor(autonomy.states, ActionKey(action))).active;
              var autonomous := CountsAsAutonomous(action.stakesTags, active);
              if Bypasses(action, active, sampled)
              then && queued == Ok(false) && store.items == old(store.items)
                   && audit == old(audit) + [AuditEntry(action.id, AuditAutoApproved)]
                   && emitted == old(emitted) + [EmittedAutoApproved(action.id)]
              else if throws
              then && queued == Err(Threw)
                   && store.items == old(store.items) && audit == old(audit) && emitted == old(emitted)
              else && queued == Ok(true)
                   && store.items == old(store.items)[action.id := StoredAction(action, autonomous, None)]
                   && audit == old(audit) + [AuditEntry(action.id, AuditQueued)]
                   && emitted == old(emitted) + [EmittedQueued(action.id)]
      ensures var active := old(StateFor(autonomy.states, TypeKey(action.tenantId, action.taskType))).active;
              var autonomous := active && !NamesDeniedTag(action.stakesTags);
              && (queued == Ok(false) <==> autonomous && !sampled && action.effect.None?)
              && (queued == Ok(true) ==>
                    store.items == old(store.items)[action.id := StoredAction(action, autonomous, None)])
    {
      DeniedByName(action.stakesTags);
      hide IsDeniedFromAutonomy, NamesDeniedTag;
      var active := autonomy.IsActive(TypeKey(action.tenantId, action.taskType));
      var autonomyActive := active && !IsDeniedFromAutonomy(action.stakesTags);
      var canBypass := autonomyActive && !sampled && action.effect.None?;
      if canBypass {
        audit := audit + [AuditEntry(action.id, AuditAutoApproved)];
        emitted := emitted + [EmittedAutoApproved(action.id)];
        return Ok(false);
      }
      if throws {
        return Err(Threw);
      }
      store.SubmitProposedAction(action, autonomyActive);
      audit := audit + [AuditEntry(action.id, AuditQueued)];
      emitted := emitted + [EmittedQueued(action.id)];
      queued := Ok(true);
    }

    /**
     * What carrying out a verdict on an action has come to when its call stopped at `reached`: the effect run for an
     * approved or modified action, once and on the final draft; autonomy told; the audit entry last.
     */
    twostate predicate CarriedOut(action: ProposedAction, spotCheck: bool, effectSucceeds: bool,
                                  throwsAt: Option<ResolveStage>,
                                  new r: Result<ResolveResult, QueueError>, reached: Resolve)
      reads this, autonomy
    {
      var verdict, was, runs := reached.verdict, old(StateFor(autonomy.states, ActionKey(action))),
        RunsEffect(action, reached.verdict);
      && ResolveFits(action, reached)
      && effects == old(effects) + (if runs && reached.stage != StartEffect
                                    then [EffectCall(action.effect.value, FinalAction(action, verdict))] else [])
      && autonomy.Becomes(ActionKey(action), if reached.stage in {AppendAudit, Resolved}
                                             then Apply(autonomy.offerThreshold, was,
                                                        VerdictOp(action, spotCheck, verdict)) else was)
      && emitted == old(emitted) + Announced(autonomy.offerThreshold, action, spotCheck, was, reached)
      && audit
         == old(audit) + (if reached.stage == Resolved then [AuditEntry(action.id, AuditVerdict(verdict))] else [])
      && if reached.stage == Resolved then r == Ok(ResolveResult(runs, if runs then Some(effectSucceeds) else None))
         else r == Err(Threw) && throwsAt == Some(reached.stage)
    }

    method CarryOutReject(action: ProposedAction, isSpotCheck: bool, verdict: Verdict, throwsAt: Option<ResolveStage>)
      returns (r: Result<ResolveResult, QueueError>, ghost reached: Resolve)
      requires verdict.Reject?
      modifies this, autonomy
      ensures reached.verdict == verdict && CarriedOut(action, isSpotCheck, false, throwsAt, r, reached)
    {
      hide IsDeniedFromAutonomy;
      var key := TypeKey(action.tenantId, action.taskType);
      reached := Begin(action, verdict);
      emitted := emitted + [EmittedLearning(action.id, verdict.feedback)];
      if throwsAt == Some(RecordVerdict) {
        return Err(Threw), reached;
      }
      if isSpotCheck {
        autonomy.RecordSpotCheckRejection(key);
        emitted := emitted + [EmittedRevoked(key, false)];
      } else {
        autonomy.RecordRejection(key);
      }
      reached := Continue(reached, false);
      if throwsAt == Some(AppendAudit) {
        return Err(Threw), reached;
      }
      audit := audit + [AuditEntry(action.id, AuditVerdict(verdict))];
      reached := Continue(reached, false);
      r := Ok(ResolveResult(false, None));
    }

    /** MODIFY is an approval of the edited draft. */
    method CarryOutApproval(action: ProposedAction, isSpotCheck: bool, verdict: Verdict, effectSucceeds: bool,
                            throwsAt: Option<ResolveStage>)
      returns (r: Result<ResolveResult, QueueError>, ghost reached: Resolve)
      requires !verdict.Reject?
      modifies this, autonomy
      ensures reached.verdict == verdict && CarriedOut(action, isSpotCheck, effectSucceeds, throwsAt, r, reached)
    {
      hide IsDeniedFromAutonomy, Apply, Offer, StateFor, ActionKey;
      reached := Begin(action, verdict);
      var finalAction := if verdict.Modify? then action.(draft := verdict.editedOutput) else action;
      assert finalAction == FinalAction(action, verdict);
      hide FinalAction;
      var effectResult, stopped := None, None;
      if finalAction.effect.Some? {
        stopped := Dispatch(finalAction.effect.value, finalAction, throwsAt);
        effectResult := Some(effectSucceeds);
        reached :=
          QueueProtocol.Resolve(verdict, if stopped.Some? then stopped.value else RecordVerdict, effectSucceeds, true);
      }
      r := Err(Threw);
      if stopped.None? && throwsAt != Some(RecordVerdict) {
        RecordApproval(action);
        reached := Continue(reached, effectSucceeds);
        if throwsAt != Some(AppendAudit) {
          audit := audit + [AuditEntry(action.id, AuditVerdict(verdict))];
          reached := Continue(reached, effectSucceeds);
          r := Ok(ResolveResult(finalAction.effect.Some?, effectResult));
        }
      }
    }

    /** Asks the effect executor once, unless the call throws before it gets there. */
    method Dispatch(effect: Effect, finalAction: ProposedAction, throwsAt: Option<ResolveStage>)
      returns (stopped: Option<ResolveStage>)
      modifies this`effects
      ensures stopped == if throwsAt in {Some(StartEffect), Some(AwaitEffect)} then throwsAt else None
      ensures effects == old(effects) + if stopped == Some(StartEffect) then [] else [EffectCall(effect, finalAction)]
    {
      if throwsAt == Some(StartEffect) {
        return throwsAt;
      }
      effects := effects + [EffectCall(effect, finalAction)];
      stopped := if throwsAt == Some(AwaitEffect) then throwsAt else None;
    }

    /** Tells the autonomy store, and announces an offer if this approval earned one. */
    method RecordApproval(action: ProposedAction)
      modifies this`emitted, autonomy
      ensures var was, denied := old(StateFor(autonomy.states, ActionKey(action))),
              IsDeniedFromAutonomy(action.stakesTags);
              && autonomy.Becomes(ActionKey(action), Apply(autonomy.offerThreshold, was, Approved(denied)))
              && emitted == old(emitted) + Offer(autonomy.offerThreshold, action, was)
    {
      var key := TypeKey(action.tenantId, action.taskType);
      var offered, consecutiveApprovals := autonomy.RecordApproval(key, IsDeniedFromAutonomy(action.stakesTags));
      if offered {
        emitted := emitted + [EmittedOffered(key, consecutiveApprovals)];
      }
    }

    /**
     * `throwsAt` is the await that throws, if any. The verdict takes hold in the store before anything else, so
     * whatever happens after that it is never carried out again; on anything but a pending action of this tenant
     * nothing happens.
     */
    method Resolve(tenantId: Id, actionId: Id, verdict: Verdict, effectSucceeds: bool, throwsAt: Option<ResolveStage>)
      returns (r: Result<ResolveResult, QueueError>, ghost reached: Resolve)
      modifies this, autonomy, store
      ensures !IsPendingAction(old(store.items), tenantId, actionId) ==>
                && r == Err(UnknownAction) && store.items == old(store.items) && autonomy.states == old(autonomy.states)
                && effects == old(effects) && audit == old(audit) && emitted == old(emitted)
      ensures IsPendingAction(old(store.items), tenantId, actionId) ==>
                var action, spotCheck := old(store.items)[actionId].action, old(store.items)[actionId].spotCheck;
                && store.items == old(store.items)[actionId := StoredAction(action, spotCheck, Some(verdict))]
                && reached.verdict == verdict
                && CarriedOut(action, spotCheck, !verdict.Reject? && effectSucceeds, throwsAt, r, reached)
      ensures IsPendingAction(old(store.items), tenantId, actionId) && throwsAt != Some(StartEffect) ==>
                effects == old(effects) + EffectCalls(old(store.items)[actionId].action, verdict)
      ensures IsPendingAction(old(store.items), tenantId, actionId) && throwsAt.None? ==>
                var action, spotCheck := old(store.items)[actionId].action, old(store.items)[actionId].spotCheck;
                var key, ran := TypeKey(action.tenantId, action.taskType), EffectCalls(action, verdict) != [];
                var was := old(StateFor(autonomy.states, key));
                && r == Ok(ResolveResult(ran, if ran then Some(effectSucceeds) else None))
                && StateFor(autonomy.states, key)
                   == Earns(autonomy.offerThreshold, was, verdict, spotCheck, NamesDeniedTag(action.stakesTags))
                && emitted == old(emitted) + Announces(autonomy.offerThreshold, was, action, verdict, spotCheck)
                && audit == old(audit) + [AuditEntry(action.id, AuditVerdict(verdict))]
    {
      hide IsDeniedFromAutonomy, NamesDeniedTag, Announced, VerdictOp, FinalAction, RunsEffect, Apply, Earns, Announces,
           StateFor, ActionKey;
      var found := store.Resolve(tenantId, actionId, verdict);
      if found.Err? {
        return Err(found.error), QueueProtocol.Resolve(verdict, StartEffect, false, false);
      }
      if verdict.Reject? {
        r, reached := CarryOutReject(found.value.action, found.value.wasSpotCheck, verdict, throwsAt);
      } else {
        r, reached := CarryOutApproval(found.value.action, found.value.wasSpotCheck, verdict, effectSucceeds, throwsAt);
      }
      ghost var action := found.value.action;
      VerdictInFull(autonomy.offerThreshold, old(StateFor(autonomy.states, ActionKey(action))), action, verdict,
                    found.value.wasSpotCheck, reached);
    }

    // ---- The CEO pathway -----------------------------------------------------------------------------------------

    method SubmitRecommendation(item: RecommendationItem)
      modifies this, store
      ensures store.items == old(store.items)[item.id := StoredRecommendation(item, false)]
      ensures audit == old(audit) + [AuditEntry(item.id, AuditRecommended)]
      ensures effects == old(effects) && emitted == old(emitted)
    {
      store.SubmitRecommendation(item);
      audit := audit + [AuditEntry(item.id, AuditRecommended)];
    }

    /** A verdict on guidance only announces itself: no effect runs and autonomy does not move. */
    method ResolveRecommendation(tenantId: Id, id: Id, verdict: Verdict) returns (r: Result<(), QueueError>)
      modifies this, store
      ensures effects == old(effects)
      ensures if IsPendingRecommendation(old(store.items), tenantId, id)
              then && r == Ok(())
                   && store.items == old(store.items)[id := StoredRecommendation(old(store.items)[id].item, true)]
                   && audit == old(audit) + [AuditEntry(id, AuditGuided)]
                   && emitted == old(emitted) + [EmittedGuidance(id, verdict)]
              else && r == Err(UnknownRecommendation)
                   && store.items == old(store.items) && audit == old(audit) && emitted == old(emitted)
    {
      var found := store.ResolveRecommendation(tenantId, id);
      if found.Err? {
        return Err(found.error);
      }
      emitted := emitted + [EmittedGuidance(id, verdict)];
      audit := audit + [AuditEntry(id, AuditGuided)];
      r := Ok(());
    }

    /** One announcement for each task type that was active, and for no other. */
    method RevokeAutonomy(tenantId: Id, taskType: Option<Id>)
      modifies this, autonomy
      ensures |old(emitted)| <= |emitted| && emitted[..|old(emitted)|] == old(emitted)
      ensures forall t :: EmittedRevoked(TypeKey(tenantId, t), true) in emitted[|old(emitted)|..] <==>
                          (taskType.None? || t == taskType.value)
                            && old(StateFor(autonomy.states, TypeKey(tenantId, t))).active
      ensures forall k :: StateFor(autonomy.states, k) ==
                          (var was := StateFor(old(autonomy.states), k);
                           if k.tenantId == tenantId && (taskType.None? || k.taskType == taskType.value)
                           then Apply(autonomy.offerThreshold, was, Revoked) else was)
      ensures effects == old(effects) && audit == old(audit)
    {
      var revokedTaskTypes := autonomy.Revoke(tenantId, taskType);
      var rest := revokedTaskTypes;
      ghost var states := autonomy.states;
      while rest != {}
        invariant rest <= revokedTaskTypes
        invariant |old(emitted)| <= |emitted| && emitted[..|old(emitted)|] == old(emitted)
        invariant forall t :: EmittedRevoked(TypeKey(tenantId, t), true) in emitted[|old(emitted)|..]
                    <==> t in revokedTaskTypes - rest
        invariant effects == old(effects) && audit == old(audit)
        invariant autonomy.states == states
        decreases |rest|
      {
        var t :| t in rest;
        rest := rest - {t};
        ghost var before := emitted;
        emitted := emitted + [EmittedRevoked(TypeKey(tenantId, t), true)];
        assert emitted[|old(emitted)|..] == before[|old(emitted)|..] + [EmittedRevoked(TypeKey(tenantId, t), true)];
      }
    }
  }
}
