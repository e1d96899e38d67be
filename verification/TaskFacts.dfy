/**
 * What every event of every run means, in the terms of the task, of its answers and of the human's verdict: nothing
 * here mentions how the machines compute what they do.
 */
module TaskFacts {
  import opened Wrappers
  import opened Pricing
  import opened Tagging
  import opened Autonomy
  import opened TaskProtocol
  import opened QueueProtocol
  import opened TaskSystem
  import opened Traces
  import opened TaskInvariant
  import opened TaskHistory
  import opened TaskTheorems
  import opened Stories

  // ---- Submissions ---------------------------------------------------------------------------------------------

  /** An event of a task stands in its tale, and what the tale tells before it has happened before it. */
  lemma Told(w: World, i: nat) returns (p: nat)
    requires Inv(w) && i < |w.trace| && IsRouterEvent(w.trace[i])
    ensures var e := w.trace[i];
            && e.id in w.runs && w.runs[e.id].task.id == e.id && Tagged(w.runs[e.id].task)
            && var tale := Tale(w.runs[e.id].task, w.runs[e.id].answers);
               p < |tale| && tale[p] == e && forall b :: b in tale[..p] ==> b in w.trace[..i]
  {
    hide Inv, View, FullStory, Tale, SoFar, StageFits, RowFits, MoneyFits, ItemFits, Tagged;
    var e := w.trace[i];
    InStory(w, i);
    StoryInFull(w.runs[e.id].task, w.runs[e.id].answers);
    var before := View(w.trace[..i], RouterLens(e.id));
    p := |before|;
    forall b | b in before
      ensures b in w.trace[..i]
    {
      ViewHolds(w.trace[..i], RouterLens(e.id), b);
    }
  }

  /** Everything before the queue: created, executed, the money dealt with. */
  function Prelude(t: Submission, a: Answers): seq<Event> {
    [Created(t.id, Key(t.input.tenantId, t.input.dedupKey), t.input, t.hints), Row(t.id, Pending)]
    + (if PassesGate(t) then [GateAnswered(t.id, a.gate)] else [])
    + [Row(t.id, InProgress),
       Started(t.id, Key(t.input.tenantId, t.input.dedupKey),
               if PassesGate(t) && a.gate.Grants? then Some(a.gate.model) else t.input.model),
       Executed(t.id, a.outcome)]
    + (if PassesGate(t) then MoneyTale(t, a.gate, a.outcome) else [])
  }

  lemma TaleSplits(t: Submission, a: Answers)
    requires !(PassesGate(t) && !a.gate.Grants?)
    ensures Tale(t, a) == Prelude(t, a) + ReviewTale(t, a) + [Row(t.id, Ends(t, a)), Returned(t.id, Ends(t, a))]
  {
    hide ReviewTale, MoneyTale, Ends;
  }

  predicate IsOfReview(e: Event) {
    e.Recommended? || e.AutonomyRead? || e.ActionQueued? || e.AutoApproved?
  }

  lemma RefusedHasNoReview(t: Submission, a: Answers)
    ensures PassesGate(t) && !a.gate.Grants? ==> forall e :: e in Tale(t, a) ==> !IsOfReview(e)
  {
    hide ExecutionTale, Ends;
  }

  lemma PreludeFirst(t: Submission, a: Answers, p: nat)
    requires !(PassesGate(t) && !a.gate.Grants?) && p < |Prelude(t, a)|
    ensures p < |Tale(t, a)| && !IsOfReview(Tale(t, a)[p])
  {
    TaleSplits(t, a);
    PreludeHasNoReview(t, a);
    hide Tale, Prelude, ReviewTale, Ends, IsOfReview;
    assert Tale(t, a)[p] == Prelude(t, a)[p];
  }

  lemma PreludeHasNoReview(t: Submission, a: Answers)
    ensures forall e :: e in Prelude(t, a) ==> !IsOfReview(e)
    ensures Created(t.id, Key(t.input.tenantId, t.input.dedupKey), t.input, t.hints) in Prelude(t, a)
    ensures Executed(t.id, a.outcome) in Prelude(t, a)
    ensures PassesGate(t) ==> forall e :: e in MoneyTale(t, a.gate, a.outcome) ==> e in Prelude(t, a)
  {
    var created := [Created(t.id, Key(t.input.tenantId, t.input.dedupKey), t.input, t.hints), Row(t.id, Pending)];
    assert Prelude(t, a)[0] == created[0];
  }

  /**
   * An event of the review stands after the whole prelude, and only if the executor succeeded and a queue is attached.
   */
  lemma ReviewAt(t: Submission, a: Answers, p: nat)
    requires p < |Tale(t, a)| && IsOfReview(Tale(t, a)[p])
    ensures !(PassesGate(t) && !a.gate.Grants?) && a.outcome.Success? && t.replica.hasQueue
    ensures |Prelude(t, a)| <= p < |Prelude(t, a)| + |ReviewTale(t, a)|
    ensures Tale(t, a)[p] == ReviewTale(t, a)[p - |Prelude(t, a)|]
    ensures forall b :: b in Prelude(t, a) ==> b in Tale(t, a)[..p]
    ensures p > |Prelude(t, a)| ==> ReviewTale(t, a)[0] in Tale(t, a)[..p]
  {
    RefusedHasNoReview(t, a);
    TaleSplits(t, a);
    if p < |Prelude(t, a)| {
      PreludeFirst(t, a, p);
    }
    hide Tale, Prelude, Ends;
    var prelude := Prelude(t, a);
    assert Tale(t, a)[..p][..|prelude|] == prelude;
    if p > |prelude| {
      assert Tale(t, a)[..p][|prelude|] == ReviewTale(t, a)[0];
    }
  }

  /** A task and what became of it, as its events tell. */
  datatype Past = Past(input: TaskInput, hints: TaggingHints, costUsd: Option<Usd>, missingHands: seq<Id>)

  /** These tags are those of the task. */
  predicate CarriesTags(tags: seq<string>, past: Past) {
    multiset(tags) == multiset(TagSet(past.hints, past.input.explicitTags))
  }

  predicate Succeeded(before: seq<Event>, id: Id, result: Text, past: Past) {
    && Created(id, Key(past.input.tenantId, past.input.dedupKey), past.input, past.hints) in before
    && Executed(id, Success(result, past.costUsd, past.missingHands)) in before
  }

  /**
   * Guidance: whatever a CEO's task hands to the queue is filed under the tenant that submitted the task, holds the
   * draft its executor returned, and carries the task's tags.
   */
  lemma GuidanceInFull(w: World, i: nat) returns (past: Past)
    requires IsReachable(w) && i < |w.trace| && w.trace[i].Recommended?
    ensures var Recommended(id, item) := w.trace[i];
            && Succeeded(w.trace[..i], id, item.draft, past) && past.input.promptTier == Ceo
            && item.id == id && item.tenantId == past.input.tenantId && CarriesTags(item.stakesTags, past)
  {
    hide IsReachable, Inv, Tale, Prelude, TagSet;
    ReachableIsInOrder(w);
    var p := Told(w, i);
    var t, a := w.runs[w.trace[i].id].task, w.runs[w.trace[i].id].answers;
    ReviewAt(t, a, p);
    PreludeHasNoReview(t, a);
    past := Past(t.input, t.hints, a.outcome.costUsd, a.outcome.missingHands);
  }

  /**
   * Proposals, with an effect or without: filed under the task's tenant and task type, holding the draft its executor
   * returned and the task's tags; the effect is the one asked for if no Hands tool was missing, and none otherwise; a
   * spot check exactly when autonomy was read as active and no tag rules it out. By then a granted reservation is
   * settled.
   */
  lemma ProposalInFull(w: World, i: nat) returns (past: Past, active: bool)
    requires IsReachable(w) && i < |w.trace| && w.trace[i].ActionQueued?
    ensures var ActionQueued(id, action, spotCheck) := w.trace[i];
            && Succeeded(w.trace[..i], id, action.draft, past) && past.input.promptTier != Ceo
            && action.id == id && action.tenantId == past.input.tenantId && action.taskType == past.input.subAgentId
            && CarriesTags(action.stakesTags, past)
            && action.effect == (if past.missingHands == [] then past.input.effect else None)
            && AutonomyRead(id, TypeKey(past.input.tenantId, past.input.subAgentId), active) in w.trace[..i]
            && (spotCheck <==> active && !NamesDeniedTag(action.stakesTags))
            && id in w.runs
            && var t, a := w.runs[id].task, w.runs[id].answers;
            && (spotCheck && action.effect.None? ==> a.spotCheck)
            && (t.replica.hasGate && t.input.model.Some? ==>
                  a.gate.Grants? && Settled(id, a.gate.reservationId, if past.costUsd.Some? then past.costUsd.value
                                                                      else a.gate.amountUsd) in w.trace[..i])
  {
    hide IsReachable, Inv, Tale, Prelude, TagSet, NamesDeniedTag;
    ReachableIsInOrder(w);
    var p := Told(w, i);
    var t, a := w.runs[w.trace[i].id].task, w.runs[w.trace[i].id].answers;
    ReviewAt(t, a, p);
    PreludeHasNoReview(t, a);
    past, active := Past(t.input, t.hints, a.outcome.costUsd, a.outcome.missingHands), a.autonomyActive;
  }

  /**
   * A review is skipped only where autonomy was read as active, the task was not sampled for a spot check, no tag of it
   * rules autonomy out, and it asked for no effect or had lost it for want of a Hands tool.
   */
  lemma SkippedInFull(w: World, i: nat) returns (past: Past, result: Text)
    requires IsReachable(w) && i < |w.trace| && w.trace[i].AutoApproved?
    ensures var id := w.trace[i].id;
            && Succeeded(w.trace[..i], id, result, past) && past.input.promptTier != Ceo
            && (past.input.effect.None? || past.missingHands != [])
            && AutonomyRead(id, TypeKey(past.input.tenantId, past.input.subAgentId), true) in w.trace[..i]
            && id in w.runs && !w.runs[id].answers.spotCheck
            && CarriesTags(w.runs[id].task.tags, past) && !NamesDeniedTag(w.runs[id].task.tags)
  {
    hide IsReachable, Inv, Tale, Prelude, TagSet, NamesDeniedTag;
    ReachableIsInOrder(w);
    var p := Told(w, i);
    var t, a := w.runs[w.trace[i].id].task, w.runs[w.trace[i].id].answers;
    ReviewAt(t, a, p);
    PreludeHasNoReview(t, a);
    past, result := Past(t.input, t.hints, a.outcome.costUsd, a.outcome.missingHands), a.outcome.result;
  }

  /** A call that returned has told the whole tale of its task, and returned what the tale ends in. */
  lemma ReturnedInFull(w: World, id: Id, status: TaskStatus)
    requires IsReachable(w) && Returned(id, status) in w.trace
    ensures id in w.runs && View(w.trace, RouterLens(id)) == Tale(w.runs[id].task, w.runs[id].answers)
    ensures status == Ends(w.runs[id].task, w.runs[id].answers)
  {
    hide IsReachable, Inv, View, StageFits, Tagged, RowFits, ItemFits, MoneyFits, SoFar, FullStory, Tale, Ends;
    ReachableIsInOrder(w);
    var i: nat :| i < |w.trace| && w.trace[i] == Returned(id, status);
    InStory(w, i);
    var r := w.runs[id];
    InView(w.trace, RouterLens(id), Returned(id, status));
    ReturnedStage(r, status);
    OverTellsAll(r);
    StoryInFull(r.task, r.answers);
  }

  // ---- Verdicts ------------------------------------------------------------------------------------------------

  /** An event of a verdict stands in the verdict's tale, and what the tale tells before it has happened before it. */
  lemma Ruled(w: World, i: nat)
    returns (p: nat, action: ProposedAction, spotCheck: bool, verdict: Verdict, success: bool)
    requires Inv(w) && i < |w.trace|
    requires w.trace[i].Audited? || w.trace[i].ApprovalRecorded? || w.trace[i].RejectionRecorded?
    ensures var tale := VerdictTale(action, spotCheck, verdict, success);
            && action.id == w.trace[i].id && p < |tale| && tale[p] == w.trace[i]
            && forall b :: b in tale[..p] ==> b in w.trace[..i]
  {
    hide Inv, View, ItemLog, VerdictTale, ResolveFits;
    var e := w.trace[i];
    InItem(w, i);
    var item, before := w.items[e.id], View(w.trace[..i], QueueLens(e.id));
    RuledItem(item, |before|);
    action, spotCheck, verdict := item.action, item.spotCheck, item.resolve.value.verdict;
    success := Stories.VerdictInFull(action, spotCheck, item.resolve.value);
    p := |before|;
    assert VerdictTale(action, spotCheck, verdict, success)[..p] == before;
    forall b | b in before
      ensures b in w.trace[..i]
    {
      ViewHolds(w.trace[..i], QueueLens(e.id), b);
    }
  }

  lemma RuledItem(item: Item, p: nat)
    requires p < |ItemLog(item)|
    requires ItemLog(item)[p].Audited? || ItemLog(item)[p].ApprovalRecorded? || ItemLog(item)[p].RejectionRecorded?
    ensures item.ActionItem? && item.resolve.Some?
    ensures item == ActionItem(item.action, item.spotCheck, Some(item.resolve.value))
  {
    hide IsDeniedFromAutonomy, DraftOf, ActionKey, ResolvedSoFar;
  }

  lemma TaleOrder(action: ProposedAction, spotCheck: bool, verdict: Verdict, success: bool, p: nat)
    requires p < |VerdictTale(action, spotCheck, verdict, success)|
    requires var e := VerdictTale(action, spotCheck, verdict, success)[p];
             e.Audited? || e.ApprovalRecorded? || e.RejectionRecorded?
    ensures var tale := VerdictTale(action, spotCheck, verdict, success);
            && ActionQueued(action.id, action, spotCheck) in tale[..p] && HumanVerdict(action.id, verdict) in tale[..p]
            && (forall e :: e in EffectTale(action, verdict, success) ==> e in tale[..p])
            && (tale[p].Audited? ==> tale[p].verdict == verdict && RecordTale(action, spotCheck, verdict) in tale[..p])
            && (!tale[p].Audited? ==> tale[p] == RecordTale(action, spotCheck, verdict))
  {
    hide NamesDeniedTag;
    var tale, effects := VerdictTale(action, spotCheck, verdict, success), EffectTale(action, verdict, success);
    assert tale[..2 + |effects|]
           == [ActionQueued(action.id, action, spotCheck), HumanVerdict(action.id, verdict)] + effects;
    assert tale[..p][0] == tale[0] && tale[..p][1] == tale[1];
    forall e | e in effects
      ensures e in tale[..p]
    {
      var k :| 0 <= k < |effects| && effects[k] == e;
      assert tale[..p][2 + k] == e;
    }
    if tale[p].Audited? {
      assert tale[..p][2 + |effects|] == RecordTale(action, spotCheck, verdict);
    }
  }

  /**
   * A verdict is carried out: by the time it is audited, the action had been queued and the human had given this very
   * verdict; an approved or edited effect has started, on the draft or the edit, and finished; a rejected one's has
   * not; and autonomy was told.
   */
  lemma VerdictIsCarriedOut(w: World, i: nat)
    returns (action: ProposedAction, spotCheck: bool, success: bool)
    requires IsReachable(w) && i < |w.trace| && w.trace[i].Audited?
    ensures var Audited(id, verdict) := w.trace[i];
            && action.id == id && ActionQueued(id, action, spotCheck) in w.trace[..i]
            && HumanVerdict(id, verdict) in w.trace[..i] && RecordTale(action, spotCheck, verdict) in w.trace[..i]
            && (action.effect.Some? && !verdict.Reject? ==>
                  && EffectStarted(id, action.effect.value,
                                   if verdict.Modify? then verdict.editedOutput else action.draft) in w.trace[..i]
                  && EffectFinished(id, success) in w.trace[..i])
            && (verdict.Reject? ==> forall e :: e in w.trace && e.EffectStarted? ==> e.id != id)
  {
    hide IsReachable, Inv, VerdictTale, RecordTale, Authorises;
    ReachableIsInOrder(w);
    var p, verdict;
    p, action, spotCheck, verdict, success := Ruled(w, i);
    TaleOrder(action, spotCheck, verdict, success, p);
    if verdict.Reject? {
      forall e | e in w.trace && e.EffectStarted?
        ensures e.id != w.trace[i].id
      {
        var j: nat :| j < |w.trace| && w.trace[j] == e;
        if e.id == w.trace[i].id {
          RejectedHasNoEffect(w, e.id, j, verdict);
        }
      }
    }
  }

  lemma RejectedHasNoEffect(w: World, id: Id, j: nat, verdict: Verdict)
    requires IsReachable(w) && j < |w.trace| && HumanVerdict(id, verdict) in w.trace
    requires w.trace[j].EffectStarted? && w.trace[j].id == id
    ensures !verdict.Reject?
  {
    hide IsReachable, Inv;
    EffectsAreAuthorised(w, j);
    var v :| Authorises(w.trace[..j], w.trace[j], v);
    var k: nat :| k < |w.trace| && w.trace[k] == HumanVerdict(id, verdict);
    var l: nat :| l < j && w.trace[l] == HumanVerdict(id, v.verdict);
    VerdictsAreFinal(w, k, l);
  }

  /**
   * What autonomy is told: a rejection, as of a spot check exactly when the action was queued as one, after the human
   * rejected it; an approval, denied exactly when a tag of the action rules autonomy out, after the human approved or
   * edited it and any effect of it has finished; always for the action's own tenant and task type.
   */
  lemma RecordIsTrue(w: World, i: nat) returns (action: ProposedAction, spotCheck: bool, verdict: Verdict)
    requires IsReachable(w) && i < |w.trace| && (w.trace[i].ApprovalRecorded? || w.trace[i].RejectionRecorded?)
    ensures var e, key := w.trace[i], TypeKey(action.tenantId, action.taskType);
            && action.id == e.id && ActionQueued(e.id, action, spotCheck) in w.trace[..i]
            && HumanVerdict(e.id, verdict) in w.trace[..i]
            && e == (if verdict.Reject? then RejectionRecorded(e.id, key, spotCheck)
                     else ApprovalRecorded(e.id, key, NamesDeniedTag(action.stakesTags)))
            && (action.effect.Some? && !verdict.Reject? ==>
                  exists success :: EffectFinished(e.id, success) in w.trace[..i])
  {
    hide IsReachable, Inv, VerdictTale, NamesDeniedTag;
    ReachableIsInOrder(w);
    var p, success;
    p, action, spotCheck, verdict, success := Ruled(w, i);
    TaleOrder(action, spotCheck, verdict, success, p);
    if action.effect.Some? && !verdict.Reject? {
      assert EffectFinished(action.id, success) in EffectTale(action, verdict, success);
    }
  }

  /** A verdict on an action takes hold exactly when the action was queued for this tenant and had none before. */
  lemma VerdictTakesHoldIff(w: World, tenantId: Id, id: Id, verdict: Verdict)
    requires IsReachable(w)
    ensures HumanVerdict(id, verdict) in Next(w, ResolveAction(tenantId, id, verdict)).trace[|w.trace|..] <==>
            && (exists action, spotCheck ::
                  ActionQueued(id, action, spotCheck) in w.trace && action.tenantId == tenantId)
            && forall v :: HumanVerdict(id, v) !in w.trace
  {
    hide IsReachable, Inv, View, ItemLog, Begin;
    ReachableIsInOrder(w);
    At(w, id);
    var lens := QueueLens(id);
    if id in w.items {
      LogTells(w.items[id], id);
    }
    forall e | Sees(lens, e)
      ensures e in w.trace <==> e in View(w.trace, lens)
    {
      SeenIffInView(w.trace, lens, e);
    }
    if id in w.items && w.items[id].ActionItem? {
      assert ActionQueued(id, w.items[id].action, w.items[id].spotCheck) in w.trace;
      assert w.items[id].resolve.Some? ==> HumanVerdict(id, w.items[id].resolve.value.verdict) in w.trace;
    }
  }

  lemma SeenIffInView(trace: seq<Event>, lens: Lens, e: Event)
    requires Sees(lens, e)
    ensures e in trace <==> e in View(trace, lens)
  {
    if e in trace {
      InView(trace, lens, e);
    }
    if e in View(trace, lens) {
      ViewHolds(trace, lens, e);
    }
  }

  /** What an item's events say of it: what was queued, and whether a verdict has been given. */
  lemma LogTells(item: Item, id: Id)
    requires ItemIsOf(item, id)
    ensures forall action, spotCheck :: ActionQueued(id, action, spotCheck) in ItemLog(item) <==>
              item.ActionItem? && item.action == action && item.spotCheck == spotCheck
    ensures forall v :: HumanVerdict(id, v) in ItemLog(item) <==>
              item.ActionItem? && item.resolve.Some? && item.resolve.value.verdict == v
    ensures forall guidance :: Recommended(id, guidance) in ItemLog(item)
              <==> item.GuidanceItem? && item.item == guidance
    ensures forall v :: Guidance(id, v) in ItemLog(item) <==> item.GuidanceItem? && item.verdict == Some(v)
  {
    hide ResolvedSoFar;
    match item
    case ActionItem(action, spotCheck, Some(r)) =>
      ActionLogTells(action, spotCheck, r);
      hide ItemLog;
      var log := ItemLog(item);
      assert log == [log[0], log[1]] + log[2..];
    case ActionItem(action, spotCheck, None) =>
      assert ItemLog(item) == [ActionQueued(action.id, action, spotCheck)];
    case GuidanceItem(rec, verdict) =>
      assert ItemLog(item)[0] == Recommended(rec.id, rec);
      assert verdict.Some? ==> ItemLog(item)[1] == Guidance(rec.id, verdict.value);
  }

  predicate OpensItem(e: Event) {
    e.ActionQueued? || e.HumanVerdict? || e.Recommended? || e.Guidance?
  }

  lemma TaleTells(action: ProposedAction, spotCheck: bool, verdict: Verdict, success: bool, k: nat)
    requires 2 <= k < |VerdictTale(action, spotCheck, verdict, success)|
    ensures !OpensItem(VerdictTale(action, spotCheck, verdict, success)[k])
  {
    hide NamesDeniedTag;
  }

  lemma ActionLogTells(action: ProposedAction, spotCheck: bool, r: Resolve)
    requires ResolveFits(action, r)
    ensures var log := ItemLog(ActionItem(action, spotCheck, Some(r)));
            && 2 <= |log| && log[0] == ActionQueued(action.id, action, spotCheck)
            && log[1] == HumanVerdict(action.id, r.verdict)
            && forall e :: e in log[2..] ==> !OpensItem(e)
  {
    var success := Stories.VerdictInFull(action, spotCheck, r);
    var log, tale := ItemLog(ActionItem(action, spotCheck, Some(r))),
      VerdictTale(action, spotCheck, r.verdict, success);
    assert 2 <= |log| && tale[0] == ActionQueued(action.id, action, spotCheck)
           && tale[1] == HumanVerdict(action.id, r.verdict);
    hide VerdictTale, ItemLog, OpensItem;
    forall e | e in log[2..]
      ensures !OpensItem(e)
    {
      var k :| 2 <= k < |log| && log[k] == e;
      assert tale[k] == e;
      TaleTells(action, spotCheck, r.verdict, success, k);
    }
  }

  /** Guidance is answered exactly when it was submitted for this tenant and not answered before. */
  lemma GuidanceTakesHoldIff(w: World, tenantId: Id, id: Id, verdict: Verdict)
    requires IsReachable(w)
    ensures Guidance(id, verdict) in Next(w, ResolveGuidance(tenantId, id, verdict)).trace[|w.trace|..] <==>
            && (exists item :: Recommended(id, item) in w.trace && item.tenantId == tenantId)
            && forall v :: Guidance(id, v) !in w.trace
  {
    hide IsReachable, Inv, View, ItemLog;
    ReachableIsInOrder(w);
    At(w, id);
    var lens := QueueLens(id);
    if id in w.items {
      LogTells(w.items[id], id);
    }
    forall e | Sees(lens, e)
      ensures e in w.trace <==> e in View(w.trace, lens)
    {
      SeenIffInView(w.trace, lens, e);
    }
  }

  /** What the store of autonomy makes of each event that concerns it, for every task type of every tenant. */
  lemma RecordedInFull(w: World, e: Event, key: TypeKey)
    ensures var was := StateFor(w.autonomy, key);
            StateFor(Recorded(w, e), key) ==
            match e
            case ApprovalRecorded(_, k, denied) =>
              if k != key || denied then was
              else
                var count := was.consecutiveApprovals + 1;
                AutonomyState(count, was.active, was.offered || (count == w.offerThreshold && !was.active))
            case RejectionRecorded(_, k, spotCheck) =>
              if k != key then was else AutonomyState(0, was.active && !spotCheck, false)
            case AcceptedOffer(k) => if k == key && was.offered then was.(active := true) else was
            case RevokedAutonomy(tenantId, taskType) =>
              if key.tenantId == tenantId && taskType in {None, Some(key.taskType)} && was.active
              then AutonomyState(0, false, false) else was
            case _ => was
  {
  }
}
