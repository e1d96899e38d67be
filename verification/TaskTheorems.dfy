/** Safety of the router and the approval queue over every run of the system. */
module TaskTheorems {
  import opened Wrappers
  import opened Pricing
  import opened Tagging
  import opened Autonomy
  import opened TaskProtocol
  import opened QueueProtocol
  import opened TaskSystem
  import opened Traces
  import opened TaskInvariant
  import opened TaskHistory

  /** What a run has done is a beginning of the story its answers so far would make. */
  lemma SoFarIsPrefix(r: Run)
    requires StageFits(r)
    ensures SoFar(r) <= FullStory(r.task, r.answers)
  {
    hide KeyOf, Bypasses, ActionOf, RecommendationOf, ReadPart, DecidedPart;
    var t, a := r.task, r.answers;
    assert Story(t, a) <= FullStory(t, a);
    if !Refused(t, a.gate) {
      assert MoneyDone(t, a.gate, a.outcome) <= Story(t, a);
      hide MoneyDone, BeforeExecutor;
      EarlyPrefixes(t, a);
    }
  }

  lemma EarlyPrefixes(t: Submission, a: Answers)
    ensures Opening(t)[..1] <= Opening(t) <= BeforeExecutor(t, a.gate) <= RowInProgress(t, a.gate)
         <= ExecutorRunning(t, a.gate) <= ExecutorDone(t, a.gate, a.outcome) <= MoneyDone(t, a.gate, a.outcome)
  {
    hide KeyOf;
  }

  /** An event of a task stands in the task's story, after exactly the task's events before it. */
  lemma InStory(w: World, i: nat)
    requires Inv(w) && i < |w.trace| && IsRouterEvent(w.trace[i])
    ensures var e := w.trace[i];
            && e.id in w.runs && RunOk(w, e.id) && w.runs[e.id].task.id == e.id
            && var story := FullStory(w.runs[e.id].task, w.runs[e.id].answers);
               var before := View(w.trace[..i], RouterLens(e.id));
               |before| < |story| && story[|before|] == e && story[..|before|] == before
  {
    hide Inv, SoFar, View, FullStory;
    At(w, w.trace[i].id);
    ViewAt(w.trace, RouterLens(w.trace[i].id), i);
    SoFarIsPrefix(w.runs[w.trace[i].id]);
  }

  lemma InItem(w: World, i: nat)
    requires Inv(w) && i < |w.trace| && IsQueueEvent(w.trace[i])
    ensures var e := w.trace[i];
            && e.id in w.items && ItemIsOf(w.items[e.id], e.id)
            && var before := View(w.trace[..i], QueueLens(e.id));
               |before| < |ItemLog(w.items[e.id])| && ItemLog(w.items[e.id])[|before|] == e
                 && ItemLog(w.items[e.id])[..|before|] == before
  {
    hide Inv, ItemLog, View, RunOk, NoRunOk, ItemIsOf;
    At(w, w.trace[i].id);
    ViewAt(w.trace, QueueLens(w.trace[i].id), i);
  }

  // ---- At most one execution per dedup key ---------------------------------------------------------------------

  lemma StartedAt(t: Submission, a: Answers, p: nat)
    requires p < |FullStory(t, a)| && FullStory(t, a)[p].Started?
    ensures p == |RowInProgress(t, a.gate)| && RowInProgress(t, a.gate) <= FullStory(t, a) && !Refused(t, a.gate)
    ensures FullStory(t, a)[p] == Started(t.id, KeyOf(t.input), ModelUsed(t, a.gate))
  {
    hide KeyOf, ModelUsed, FinalStatus, Bypasses, ActionOf, RecommendationOf, AmountSettled;
  }

  lemma StartsOnce(w: World, i: nat, j: nat)
    requires Inv(w) && i < |w.trace| && j < |w.trace| && w.trace[i].Started? && w.trace[j].Started?
             && w.trace[i].key == w.trace[j].key
    ensures i == j
  {
    hide Inv, View, FullStory, SoFar, RowInProgress, Refused, ModelUsed, KeyOf, MoneyFits, ItemFits, StageFits, Tagged;
    InStory(w, i);
    InStory(w, j);
    var id, r := w.trace[i].id, w.runs[w.trace[i].id];
    StartedAt(r.task, r.answers, |View(w.trace[..i], RouterLens(id))|);
    var id', r' := w.trace[j].id, w.runs[w.trace[j].id];
    StartedAt(r'.task, r'.answers, |View(w.trace[..j], RouterLens(id'))|);
    SeenOnce(w.trace, RouterLens(id), i, j, |RowInProgress(r.task, r.answers.gate)|);
  }

  /**
   * At-most-once execution: however many replicas submit a dedup key, and however their awaits interleave and fail, the
   * executor starts at most once for it, and every caller is given the same task.
   */
  lemma ExecutesAtMostOncePerKey(w: World, i: nat, j: nat)
    requires IsReachable(w) && i < |w.trace| && j < |w.trace|
    ensures var a, b := w.trace[i], w.trace[j];
            && (a.Started? && b.Started? && a.key == b.key ==> i == j)
            && ((a.Created? || a.Replayed?) && (b.Created? || b.Replayed?) && a.key == b.key ==> a.id == b.id)
  {
    hide IsReachable, Inv;
    ReachableIsInOrder(w);
    ReachableTellsTrace(w);
    if w.trace[i].Started? && w.trace[j].Started? && w.trace[i].key == w.trace[j].key {
      StartsOnce(w, i, j);
    }
    assert AnswersFor(w.tasks, w.trace[i]) && AnswersFor(w.tasks, w.trace[j]);
  }

  /**
   * The gate comes strictly before the executor: where a gate is attached and a model was asked for, the executor
   * starts only after the gate granted a reservation, and on the model the gate chose.
   */
  lemma GateComesFirst(w: World, i: nat)
    requires IsReachable(w) && i < |w.trace| && w.trace[i].Started?
    ensures w.trace[i].id in w.runs
    ensures var t := w.runs[w.trace[i].id].task;
            if t.replica.hasGate && t.input.model.Some?
            then exists res, amountUsd ::
                   w.trace[i].model.Some?
                     && GateAnswered(t.id, Grants(w.trace[i].model.value, res, amountUsd)) in w.trace[..i]
            else w.trace[i].model == t.input.model
  {
    hide IsReachable, Inv, View, SoFar, FullStory, MoneyFits, ItemFits, StageFits, Tagged, KeyOf;
    ReachableIsInOrder(w);
    var e := w.trace[i];
    InStory(w, i);
    var r, before := w.runs[e.id], View(w.trace[..i], RouterLens(e.id));
    StartedAt(r.task, r.answers, |before|);
    if IsGated(r.task) {
      var gate := r.answers.gate;
      assert before == RowInProgress(r.task, gate);
      assert before[2] == GateAnswered(e.id, gate);
      ViewHolds(w.trace[..i], RouterLens(e.id), before[2]);
      assert GateAnswered(r.task.id, Grants(e.model.value, gate.reservationId, gate.amountUsd)) in w.trace[..i];
    }
  }

  // ---- Effects -------------------------------------------------------------------------------------------------

  datatype Evidence = Evidence(verdict: Verdict, action: ProposedAction, spotCheck: bool, input: TaskInput,
                               hints: TaggingHints, costUsd: Option<Usd>)

  /**
   * What must have happened before an effect runs: the executor succeeded with every Hands tool connected, on a task
   * that is not the CEO's and asked for this very effect; the result was queued as this action; a human approved or
   * modified it; and what is sent is the queued draft or the human's edit.
   */
  predicate Authorises(before: seq<Event>, e: Event, v: Evidence)
    requires e.EffectStarted?
  {
    && Created(e.id, KeyOf(v.input), v.input, v.hints) in before
    && v.input.promptTier != Ceo && v.input.effect == Some(e.effect)
    && Executed(e.id, Success(v.action.draft, v.costUsd, [])) in before
    && ActionQueued(e.id, v.action, v.spotCheck) in before && v.action.effect == Some(e.effect)
    && HumanVerdict(e.id, v.verdict) in before && (v.verdict.Approve? || v.verdict.Modify?)
    && e.draft == (if v.verdict.Modify? then v.verdict.editedOutput else v.action.draft)
  }

  lemma EffectAt(item: Item, p: nat)
    requires p < |ItemLog(item)| && ItemLog(item)[p].EffectStarted?
    ensures p == 2 && item.ActionItem? && item.resolve.Some? && RunsEffect(item.action, item.resolve.value.verdict)
    ensures var v := item.resolve.value.verdict;
            && ItemLog(item)[0] == ActionQueued(item.action.id, item.action, item.spotCheck)
            && ItemLog(item)[1] == HumanVerdict(item.action.id, v)
            && ItemLog(item)[2] == EffectStarted(item.action.id, item.action.effect.value, DraftOf(item.action, v))
  {
    hide IsDeniedFromAutonomy, DraftOf, ActionKey;
  }

  lemma QueuedAt(t: Submission, a: Answers, p: nat)
    requires p < |FullStory(t, a)| && FullStory(t, a)[p].ActionQueued?
    ensures a.outcome.Success? && t.replica.hasQueue && t.input.promptTier != Ceo
    ensures MoneyDone(t, a.gate, a.outcome) <= FullStory(t, a)[..p]
    ensures FullStory(t, a)[p]
            == ActionQueued(t.id, ActionOf(t, a.outcome), CountsAsAutonomous(t.tags, a.autonomyActive))
  {
    hide KeyOf, ModelUsed, FinalStatus, EffectiveEffect, RecommendationOf, AmountSettled, IsDeniedFromAutonomy;
  }

  lemma QueuedAfter(t: Submission, a: Answers, p: nat)
    requires p < |FullStory(t, a)| && FullStory(t, a)[p].ActionQueued?
    ensures Created(t.id, KeyOf(t.input), t.input, t.hints) in FullStory(t, a)[..p]
    ensures Executed(t.id, a.outcome) in FullStory(t, a)[..p]
  {
    QueuedAt(t, a, p);
    hide FullStory, KeyOf, MoneyPart, ModelUsed, ActionOf;
    var done, before := ExecutorDone(t, a.gate, a.outcome), FullStory(t, a)[..p];
    EarlyPrefixes(t, a);
    assert before[0] == done[0] && before[|done| - 1] == done[|done| - 1];
  }

  /** Whatever is queued with an effect came from a successful, fully connected run of a task that is not the CEO's. */
  lemma QueuedActionIsJustified(w: World, i: nat) returns (input: TaskInput, hints: TaggingHints, costUsd: Option<Usd>)
    requires Inv(w) && i < |w.trace| && w.trace[i].ActionQueued? && w.trace[i].action.effect.Some?
    ensures var e := w.trace[i];
            && Created(e.id, KeyOf(input), input, hints) in w.trace[..i] && input.promptTier != Ceo
            && input.effect == e.action.effect
            && Executed(e.id, Success(e.action.draft, costUsd, [])) in w.trace[..i]
  {
    var e := w.trace[i];
    hide Inv, View, FullStory, RunOk, KeyOf, MoneyDone, IsDeniedFromAutonomy;
    InStory(w, i);
    var t, a, before := w.runs[e.id].task, w.runs[e.id].answers, View(w.trace[..i], RouterLens(e.id));
    QueuedAt(t, a, |before|);
    QueuedAfter(t, a, |before|);
    ViewHolds(w.trace[..i], RouterLens(e.id), Created(e.id, KeyOf(t.input), t.input, t.hints));
    ViewHolds(w.trace[..i], RouterLens(e.id), Executed(e.id, a.outcome));
    input, hints, costUsd := t.input, t.hints, a.outcome.costUsd;
  }

  lemma EffectIsAuthorised(w: World, i: nat) returns (v: Evidence)
    requires Inv(w) && i < |w.trace| && w.trace[i].EffectStarted?
    ensures Authorises(w.trace[..i], w.trace[i], v)
    ensures |View(w.trace[..i], QueueLens(w.trace[i].id))| == 2
  {
    var e, before := w.trace[i], View(w.trace[..i], QueueLens(w.trace[i].id));
    hide Inv, View, ItemLog, KeyOf, IsDeniedFromAutonomy;
    InItem(w, i);
    EffectAt(w.items[e.id], |before|);
    var item := w.items[e.id];
    var queued := ActionQueued(e.id, item.action, item.spotCheck);
    assert before[0] == queued && before[1] == HumanVerdict(e.id, item.resolve.value.verdict);
    ViewHolds(w.trace[..i], QueueLens(e.id), before[0]);
    ViewHolds(w.trace[..i], QueueLens(e.id), before[1]);
    var j :| 0 <= j < i && w.trace[j] == queued;
    var input, hints, costUsd := QueuedActionIsJustified(w, j);
    v := Evidence(item.resolve.value.verdict, item.action, item.spotCheck, input, hints, costUsd);
  }

  /**
   * End-to-end effect safety: in every run of routers and approvers, each effect that starts was authorised by what
   * came before it, and no action's effect starts twice.
   */
  lemma EffectsAreAuthorised(w: World, i: nat)
    requires IsReachable(w) && i < |w.trace| && w.trace[i].EffectStarted?
    ensures exists v :: Authorises(w.trace[..i], w.trace[i], v)
    ensures forall j: nat :: j < |w.trace| && w.trace[j].EffectStarted? && w.trace[j].id == w.trace[i].id ==> i == j
  {
    hide IsReachable, Inv, View, Authorises;
    ReachableIsInOrder(w);
    var v := EffectIsAuthorised(w, i);
    forall j: nat | j < |w.trace| && w.trace[j].EffectStarted? && w.trace[j].id == w.trace[i].id
      ensures i == j
    {
      var _ := EffectIsAuthorised(w, j);
      SeenOnce(w.trace, QueueLens(w.trace[i].id), i, j, 2);
    }
  }

  /**
   * A verdict is final: the store lets one human verdict through per action, and nothing before the action is queued.
   */
  lemma VerdictsAreFinal(w: World, i: nat, j: nat)
    requires IsReachable(w) && i < |w.trace| && j < |w.trace|
    requires w.trace[i].HumanVerdict? && w.trace[j].HumanVerdict? && w.trace[i].id == w.trace[j].id
    ensures i == j
  {
    hide IsReachable, Inv, View, ItemLog;
    ReachableIsInOrder(w);
    var lens := QueueLens(w.trace[i].id);
    InItem(w, i);
    InItem(w, j);
    VerdictAt(w.items[w.trace[i].id], |View(w.trace[..i], lens)|);
    VerdictAt(w.items[w.trace[i].id], |View(w.trace[..j], lens)|);
    SeenOnce(w.trace, lens, i, j, 1);
  }

  lemma VerdictAt(item: Item, p: nat)
    requires p < |ItemLog(item)| && ItemLog(item)[p].HumanVerdict?
    ensures p == 1
  {
    hide IsDeniedFromAutonomy, DraftOf, ActionKey;
  }

  // ---- Autonomy ------------------------------------------------------------------------------------------------

  lemma AutoApprovedAt(t: Submission, a: Answers, p: nat)
    requires p < |FullStory(t, a)| && FullStory(t, a)[p].AutoApproved?
    ensures a.outcome.Success? && Bypasses(ActionOf(t, a.outcome), a.autonomyActive, a.spotCheck) && p > 0
    ensures t.input.promptTier != Ceo
    ensures FullStory(t, a)[p - 1] == AutonomyRead(t.id, TypeKeyOf(t.input), true)
  {
    hide KeyOf, ModelUsed, FinalStatus, RecommendationOf, AmountSettled, IsDeniedFromAutonomy;
  }

  /**
   * No bypass for locked work: an action skips human review only if its autonomy was read as active at a moment when it
   * had been earned by human approvals, no effect ever starts for it, and its task is neither locked, nor subject to
   * professional verification, nor tagged with anything on the deny list.
   */
  lemma AutoApprovalIsEarned(w: World, i: nat)
    requires IsReachable(w) && i < |w.trace| && w.trace[i].AutoApproved?
    ensures w.trace[i].id in w.runs
    ensures var t := w.runs[w.trace[i].id].task;
            && !IsDeniedFromAutonomy(t.tags) && t.hints.autonomy != Some(Locked)
            && !t.hints.requiresProfessionalVerification
            && !IsDeniedFromAutonomy(t.input.explicitTags)
            && (exists j: nat :: j < i && w.trace[j] == AutonomyRead(t.id, TypeKeyOf(t.input), true)
                                 && Earned(w.offerThreshold, OpsFor(w.trace[..j], TypeKeyOf(t.input))))
            && forall j: nat :: j < |w.trace| && w.trace[j].EffectStarted? ==> w.trace[j].id != w.trace[i].id
  {
    hide IsReachable, Inv, View, FullStory, IsDeniedFromAutonomy, TypeKeyOf, AutonomyOk, CallersOk, TagSet, RowFits,
      MoneyFits, ItemFits,
         StageFits, SoFar;
    ReachableIsInOrder(w);
    ReachableTellsTrace(w);
    var e := w.trace[i];
    InStory(w, i);
    var t, a, before := w.runs[e.id].task, w.runs[e.id].answers, View(w.trace[..i], RouterLens(e.id));
    AutoApprovedAt(t, a, |before|);
    LockedWorkIsDenied(t.hints, t.input.explicitTags, t.tags);
    var read := AutonomyRead(t.id, TypeKeyOf(t.input), true);
    assert before[|before| - 1] == read;
    ViewHolds(w.trace[..i], RouterLens(e.id), read);
    var j: nat :| j < i && w.trace[j] == read;
    assert ReadIsTrue(w.offerThreshold, w.trace, j);
    ActiveIsEarned(w.offerThreshold, OpsFor(w.trace[..j], TypeKeyOf(t.input)));
    NothingStored(w, e.id);
    forall k: nat | k < |w.trace| && w.trace[k].EffectStarted?
      ensures w.trace[k].id != e.id
    {
      InItem(w, k);
    }
  }

  lemma NothingStored(w: World, id: Id)
    requires id in w.runs && RunOk(w, id)
    requires var t, a := w.runs[id].task, w.runs[id].answers;
             t.input.promptTier != Ceo && a.outcome.Success?
               && Bypasses(ActionOf(t, a.outcome), a.autonomyActive, a.spotCheck)
    ensures id !in w.items
  {
    hide View, SoFar, StageFits, RowFits, MoneyFits, Bypasses;
  }

  // ---- Ledger rows ---------------------------------------------------------------------------------------------

  /** The statuses of the ledger rows among some events. */
  function Statuses(events: seq<Event>): seq<TaskStatus> {
    if events == [] then []
    else Statuses(events[..|events| - 1]) + if events[|events| - 1].Row? then [events[|events| - 1].status] else []
  }

  /** What a completed submission leaves in the ledger. */
  predicate IsTaskWord(rows: seq<TaskStatus>) {
    || rows in {[Pending, Queued], [Pending, Skipped]}
    || rows in {[Pending, InProgress, Failed], [Pending, InProgress, AwaitingReview], [Pending, InProgress, Completed]}
  }

  /** The scheduled dispatcher's count of the rows one submission wrote. */
  function LedgerRowsFor(status: TaskStatus): nat {
    if status == Queued || status == Skipped then 2 else 3
  }

  lemma {:induction false} StatusesAppend(a: seq<Event>, b: seq<Event>)
    ensures Statuses(a + b) == Statuses(a) + Statuses(b)
  {
    if b == [] {
      assert a + b == a;
    } else {
      StatusesAppend(a, b[..|b| - 1]);
      assert (a + b)[..|a + b| - 1] == a + b[..|b| - 1];
    }
  }

  lemma {:induction false} NoStatuses(events: seq<Event>)
    requires forall e :: e in events ==> !e.Row?
    ensures Statuses(events) == []
  {
    if events != [] {
      NoStatuses(events[..|events| - 1]);
    }
  }

  lemma StatusOfRow(e: Event)
    requires e.Row?
    ensures Statuses([e]) == [e.status]
  {
    assert [e][..0] == [];
  }

  lemma StatusesOfOpening(t: Submission, gate: GateAnswer)
    ensures Statuses(BeforeExecutor(t, gate)) == [Pending]
  {
    var created, row := [Created(t.id, KeyOf(t.input), t.input, t.hints)], [Row(t.id, Pending)];
    var answered := if IsGated(t) then [GateAnswered(t.id, gate)] else [];
    StatusOfRow(row[0]);
    NoStatuses(created);
    NoStatuses(answered);
    hide Statuses, KeyOf;
    StatusesAppend(created, row);
    StatusesAppend(Opening(t), answered);
    assert created + row == Opening(t);
  }

  lemma StatusesOfStory(t: Submission, a: Answers)
    ensures Statuses(FullStory(t, a)) == if Refused(t, a.gate) then [Pending, FinalStatus(t, a)]
            else [Pending, InProgress, FinalStatus(t, a)]
  {
    var last, returned := [Row(t.id, FinalStatus(t, a))], [Returned(t.id, FinalStatus(t, a))];
    StatusOfRow(last[0]);
    NoStatuses(returned);
    StatusesOfOpening(t, a.gate);
    hide Statuses, FinalStatus, BeforeExecutor, MoneyDone, ReviewPart;
    StatusesAppend(Story(t, a) + last, returned);
    StatusesAppend(Story(t, a), last);
    if !Refused(t, a.gate) {
      StatusesOfExecution(t, a);
    }
  }

  lemma StatusesOfExecution(t: Submission, a: Answers)
    requires !Refused(t, a.gate)
    ensures Statuses(Story(t, a)) == Statuses(BeforeExecutor(t, a.gate)) + [InProgress]
  {
    hide Statuses, KeyOf, ModelUsed, ActionOf, RecommendationOf, BeforeExecutor, Bypasses, AmountSettled,
      CountsAsAutonomous;
    var row, started, done := [Row(t.id, InProgress)], [Started(t.id, KeyOf(t.input), ModelUsed(t, a.gate))],
      [Executed(t.id, a.outcome)];
    StatusOfRow(row[0]);
    NoStatuses(started);
    NoStatuses(done);
    NoStatuses(MoneyPart(t, a.gate, a.outcome));
    NoStatuses(ReviewPart(t, a));
    StatusesAppend(BeforeExecutor(t, a.gate), row);
    StatusesAppend(RowInProgress(t, a.gate), started);
    StatusesAppend(ExecutorRunning(t, a.gate), done);
    StatusesAppend(ExecutorDone(t, a.gate, a.outcome), MoneyPart(t, a.gate, a.outcome));
    StatusesAppend(MoneyDone(t, a.gate, a.outcome), ReviewPart(t, a));
  }

  lemma ReturnedStage(r: Run, status: TaskStatus)
    requires StageFits(r) && Returned(r.task.id, status) in SoFar(r)
    ensures r.stage == Over(status) && status == FinalStatus(r.task, r.answers)
  {
    hide KeyOf, ModelUsed, ActionOf, RecommendationOf, AmountSettled, FinalStatus, Bypasses;
  }

  /**
   * The trace language: whatever interrupts it, a task's ledger rows are the beginning of one of five words, and a call
   * that returned has written a whole one, ending in the status it returned, of the length the dispatcher counts, with
   * that status in the dedup store.
   */
  lemma RowsFormATaskWord(w: World, id: Id, status: TaskStatus)
    requires IsReachable(w) && id in w.runs
    ensures var rows, key := Statuses(View(w.trace, RouterLens(id))), KeyOf(w.runs[id].task.input);
            && (exists word :: IsTaskWord(word) && rows <= word)
            && (Returned(id, status) in w.trace ==>
                  && IsTaskWord(rows) && rows[|rows| - 1] == status && |rows| == LedgerRowsFor(status)
                  && key in w.tasks && w.tasks[key] == TaskRow(id, status))
  {
    hide IsReachable, Inv, SoFar, FullStory, MoneyFits, ItemFits, StageFits, Tagged, Bypasses, ActionOf, KeyOf, View,
      Statuses;
    ReachableIsInOrder(w);
    At(w, id);
    var r := w.runs[id];
    var story, word := FullStory(r.task, r.answers), Statuses(FullStory(r.task, r.answers));
    SoFarIsPrefix(r);
    StatusesAppend(SoFar(r), story[|SoFar(r)|..]);
    assert SoFar(r) + story[|SoFar(r)|..] == story;
    StatusesOfStory(r.task, r.answers);
    assert IsTaskWord(word);
    if Returned(id, status) in w.trace {
      InView(w.trace, RouterLens(id), Returned(id, status));
      ReturnedStage(r, status);
      OverTellsAll(r);
    }
  }

  /**
   * The dispatcher may read a queued or skipped task as a budget signal without looking at its note: such a status is
   * returned exactly when the gate refused the task.
   */
  lemma QueuedOrSkippedIsRefusal(w: World, id: Id, status: TaskStatus)
    requires IsReachable(w) && Returned(id, status) in w.trace
    ensures status == Queued <==> GateAnswered(id, Queues) in w.trace
    ensures status == Skipped <==> GateAnswered(id, Skips) in w.trace
  {
    hide IsReachable, Inv, View, StageFits, Tagged, RowFits, ItemFits, MoneyFits, KeyOf, SoFar, FullStory,
      IsDeniedFromAutonomy;
    ReachableIsInOrder(w);
    var i: nat :| i < |w.trace| && w.trace[i] == Returned(id, status);
    InStory(w, i);
    var r := w.runs[id];
    InView(w.trace, RouterLens(id), Returned(id, status));
    ReturnedStage(r, status);
    OverTellsAll(r);
    GateInStory(r.task, r.answers);
    if IsGated(r.task) {
      ViewHolds(w.trace, RouterLens(id), GateAnswered(id, r.answers.gate));
    }
    forall answer | GateAnswered(id, answer) in w.trace
      ensures IsGated(r.task) && answer == r.answers.gate
    {
      InView(w.trace, RouterLens(id), GateAnswered(id, answer));
    }
  }

  lemma GateInStory(t: Submission, a: Answers)
    ensures IsGated(t) ==> GateAnswered(t.id, a.gate) in FullStory(t, a)
    ensures forall answer :: GateAnswered(t.id, answer) in FullStory(t, a) ==> IsGated(t) && answer == a.gate
  {
    hide KeyOf, ModelUsed, FinalStatus, RecommendationOf, AmountSettled, Bypasses, ActionOf;
    if IsGated(t) {
      assert FullStory(t, a)[2] == GateAnswered(t.id, a.gate);
    }
  }

  lemma OverTellsAll(r: Run)
    requires r.stage.Over?
    ensures SoFar(r) == FullStory(r.task, r.answers)
  {
  }

  lemma InView(trace: seq<Event>, lens: Lens, e: Event)
    requires e in trace && Sees(lens, e)
    ensures e in View(trace, lens)
  {
    var i: nat :| i < |trace| && trace[i] == e;
    ViewAt(trace, lens, i);
    assert View(trace, lens)[|View(trace[..i], lens)|] == e;
  }

  // ---- Reservations --------------------------------------------------------------------------------------------

  predicate ResolvesMoney(e: Event) {
    e.Settled? || e.Released?
  }

  lemma MoneyAt(t: Submission, a: Answers, p: nat)
    requires p < |FullStory(t, a)| && ResolvesMoney(FullStory(t, a)[p])
    ensures p == |ExecutorDone(t, a.gate, a.outcome)| && HasMoney(t, a.gate)
    ensures [FullStory(t, a)[p]] == MoneyPart(t, a.gate, a.outcome)
  {
    hide KeyOf, ModelUsed, FinalStatus, RecommendationOf, AmountSettled, Bypasses, ActionOf;
  }

  lemma EarlyRunIsShort(r: Run)
    requires r.stage in {AppendRow(Pending), AskGate}
    ensures |SoFar(r)| <= 2
  {
  }

  lemma MoneyIsOwned(w: World, i: nat)
    requires Inv(w) && i < |w.trace| && ResolvesMoney(w.trace[i])
    ensures var e := w.trace[i];
            && e.id in w.runs && RunOk(w, e.id) && e.reservationId in w.reservations
            && w.reservations[e.reservationId].owner == e.id
            && |View(w.trace[..i], RouterLens(e.id))|
            == |ExecutorDone(w.runs[e.id].task, w.runs[e.id].answers.gate, w.runs[e.id].answers.outcome)|
  {
    var e := w.trace[i];
    hide Inv, View, FullStory, SoFar, ExecutorDone, StageFits, Tagged, RowFits, ItemFits, KeyOf, AmountSettled;
    InStory(w, i);
    var r := w.runs[e.id];
    MoneyAt(r.task, r.answers, |View(w.trace[..i], RouterLens(e.id))|);
    LateEnough(w, i);
  }

  /** A run whose money has been resolved is past the gate. */
  lemma LateEnough(w: World, i: nat)
    requires Inv(w) && i < |w.trace| && ResolvesMoney(w.trace[i])
    ensures var e := w.trace[i]; e.id in w.runs && w.runs[e.id].stage !in {AppendRow(Pending), AskGate}
  {
    var e := w.trace[i];
    hide Inv, View, SoFar, FullStory, StageFits, Tagged, RowFits, ItemFits, MoneyFits, KeyOf;
    InStory(w, i);
    var r := w.runs[e.id];
    MoneyAt(r.task, r.answers, |View(w.trace[..i], RouterLens(e.id))|);
    ViewAt(w.trace, RouterLens(e.id), i);
    if r.stage in {AppendRow(Pending), AskGate} {
      EarlyRunIsShort(r);
    }
  }

  /** No reservation is resolved twice: in no run is one both settled and released, or either of them twice. */
  lemma ReservationsResolveOnce(w: World, i: nat, j: nat)
    requires IsReachable(w) && i < |w.trace| && j < |w.trace|
    requires ResolvesMoney(w.trace[i]) && ResolvesMoney(w.trace[j])
             && w.trace[i].reservationId == w.trace[j].reservationId
    ensures i == j
  {
    hide IsReachable, Inv, View, RunOk, ExecutorDone;
    ReachableIsInOrder(w);
    MoneyIsOwned(w, i);
    MoneyIsOwned(w, j);
    var r := w.runs[w.trace[i].id];
    SeenOnce(w.trace, RouterLens(w.trace[i].id), i, j, |ExecutorDone(r.task, r.answers.gate, r.answers.outcome)|);
  }

  /**
   * A call that returned has resolved the reservation it was granted: released if the executor failed, otherwise
   * settled at the reported cost or, without one, at the reserved amount.
   */
  lemma ReturnedCallsResolveTheirMoney(w: World, id: Id, status: TaskStatus)
    requires IsReachable(w) && Returned(id, status) in w.trace
    ensures id in w.runs
    ensures var t, a := w.runs[id].task, w.runs[id].answers;
            HasMoney(t, a.gate) ==>
              var res, amountUsd := a.gate.reservationId, a.gate.amountUsd;
              && res in w.reservations && w.reservations[res].owner == id
              && if status == Failed then w.reservations[res].state == GivenBack && Released(id, res) in w.trace
                 else a.outcome.Success?
                      && var spent := if a.outcome.costUsd.Some? then a.outcome.costUsd.value else amountUsd;
                         w.reservations[res].state == SettledFor(spent) && Settled(id, res, spent) in w.trace
  {
    hide IsReachable, Inv, View, StageFits, Tagged, RowFits, ItemFits, KeyOf, SoFar;
    ReachableIsInOrder(w);
    var i: nat :| i < |w.trace| && w.trace[i] == Returned(id, status);
    InStory(w, i);
    var r := w.runs[id];
    InView(w.trace, RouterLens(id), Returned(id, status));
    ReturnedStage(r, status);
    if HasMoney(r.task, r.answers.gate) {
      var resolved := MoneyPart(r.task, r.answers.gate, r.answers.outcome)[0];
      OverResolvesMoney(r);
      ViewHolds(w.trace, RouterLens(id), resolved);
    }
  }

  lemma OverResolvesMoney(r: Run)
    requires StageFits(r) && r.stage.Over? && HasMoney(r.task, r.answers.gate)
    ensures MoneyPart(r.task, r.answers.gate, r.answers.outcome)[0] in SoFar(r)
    ensures FinalStatus(r.task, r.answers) == Failed <==> r.answers.outcome.Failure?
  {
    hide ExecutorDone, ReviewPart;
    var t, a := r.task, r.answers;
    assert SoFar(r)[|ExecutorDone(t, a.gate, a.outcome)|] == MoneyPart(t, a.gate, a.outcome)[0];
  }
}
