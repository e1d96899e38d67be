/** Idempotency: one task per tenant and dedup key. */
module DedupStore {
  import opened Wrappers
  import opened TaskProtocol
  import opened TaskSystem

  class DedupStore {
    var byKey: map<Key, TaskRow>

    constructor ()
      ensures byKey == map[]
    {
      byKey := map[];
    }

    /** The first caller's task wins; everyone else is given that one. */
    method GetOrCreate(key: Key, candidate: TaskRow) returns (task: TaskRow, created: bool)
      modifies this
      ensures created <==> key !in old(byKey)
      ensures task == if created then candidate else old(byKey)[key]
      ensures byKey == if created then old(byKey)[key := candidate] else old(byKey)
    {
      if key in byKey {
        return byKey[key], false;
      }
      byKey := byKey[key := candidate];
      return candidate, true;
    }

    method Update(key: Key, task: TaskRow)
      modifies this
      ensures byKey == old(byKey)[key := task]
    {
      byKey := byKey[key := task];
    }
  }
}

/** One replica's submitTask, written straight through, against the machine of its awaits. */
module Router {
  import opened Wrappers
  import opened Pricing
  import opened Tagging
  import opened Autonomy
  import opened TaskProtocol
  import opened QueueProtocol
  import opened ApprovalStore
  import opened ApprovalQueue
  import opened DedupStore
  import opened TaskSystem
  import opened TaskInvariant
  import opened Stories

  /** The approval store after what a run has put into it. */
  function WithItem(items: map<Id, StoredItem>, r: Run): map<Id, StoredItem> {
    match ItemOf(r)
    case None => items
    case Some(ActionItem(action, spotCheck, _)) => items[r.task.id := StoredAction(action, spotCheck, None)]
    case Some(GuidanceItem(item, _)) => items[r.task.id := StoredRecommendation(item, false)]
  }

  datatype Origin = Origin(log: seq<Event>, rows: map<Key, TaskRow>, items: map<Id, StoredItem>)

  class Router {
    const replica: Replica
    const dedup: DedupStore
    const queue: ApprovalQueue

    /** Every call this replica makes on the ledger, the gate, the executor and the queue, and what the queue read. */
    var log: seq<Event>

    ghost var run: Run
    ghost var origin: Origin

    constructor (replica: Replica, dedup: DedupStore, queue: ApprovalQueue)
      ensures this.replica == replica && this.dedup == dedup && this.queue == queue && log == []
    {
      this.replica, this.dedup, this.queue := replica, dedup, queue;
      log := [];
    }

    /** The log, the dedup store and the approval store are where the run says they are. */
    ghost predicate Follows()
      reads this, dedup, queue.store
    {
      && StageFits(run) && log == origin.log + SoFar(run)
      && dedup.byKey == origin.rows[KeyOf(run.task.input) := TaskRow(run.task.id, SavedStatus(run))]
      && queue.store.items == WithItem(origin.items, run)
    }

    /** One await: either it threw and nothing moved, or the run advanced. */
    twostate predicate Stepped(ok: bool, throwsAt: Option<Stage>)
      reads this, dedup, queue.store
    {
      && Follows() && origin == old(origin)
      && run == (if ok then Advance(old(run), old(run).answers) else old(run))
      && (!ok ==> throwsAt == Some(run.stage))
    }

    /** An await on the ledger, the gate or the executor: all it leaves is that it was made, and with what. */
    method Call(at: Stage, e: Event, throwsAt: Option<Stage>) returns (ok: bool)
      requires Follows() && run.stage == at && !at.SaveRow? && at !in {Propose, Decide} && News(run, run.answers) == [e]
      modifies this`log, this`run
      ensures Stepped(ok, throwsAt)
    {
      if throwsAt == Some(at) {
        return false;
      }
      AdvanceTellsNews(run, run.answers);
      hide SoFar, StageFits, KeyOf, FinalStatus, News;
      log := log + [e];
      CallsOnlyTalk(run);
      run := Advance(run, run.answers);
      ok := true;
    }

    method Save(key: Key, task: TaskRow, throwsAt: Option<Stage>) returns (ok: bool)
      requires Follows() && run.stage == SaveRow(task.status) && run.task.id == task.id && KeyOf(run.task.input) == key
      modifies this`run, dedup
      ensures Stepped(ok, throwsAt)
    {
      if throwsAt == Some(SaveRow(task.status)) {
        return false;
      }
      AdvanceTellsNews(run, run.answers);
      hide SoFar, StageFits, KeyOf, FinalStatus;
      dedup.Update(key, task);
      SaveOnlySaves(run);
      run := Advance(run, run.answers);
      ok := true;
    }

    /** The last save, the last ledger row, and the return. */
    method Finish(key: Key, task: TaskRow, throwsAt: Option<Stage>) returns (r: Option<TaskRow>)
      requires Follows() && run.stage == SaveRow(task.status) && task.status !in {Pending, InProgress}
      requires run.task.id == task.id && KeyOf(run.task.input) == key
      modifies this`log, this`run, dedup
      ensures Follows() && origin == old(origin) && run.task == old(run.task) && run.answers == old(run.answers)
      ensures if r.Some? then r == Some(task) && run.stage == Over(task.status) else throwsAt == Some(run.stage)
    {
      hide Follows, SoFar, StageFits, KeyOf, FinalStatus, ItemOf, SavedStatus;
      var ok := Save(key, task, throwsAt);
      if !ok { return None; }
      FollowsFits();
      ok := Call(AppendRow(task.status), Row(task.id, task.status), throwsAt);
      if !ok { return None; }
      FollowsFits();
      ok := Call(Return(task.status), Returned(task.id, task.status), throwsAt);
      if !ok { return None; }
      r := Some(task);
    }

    /** A CEO's outcome enters the queue as guidance, which has no place for an effect. */
    method Recommend(item: RecommendationItem, throwsAt: Option<Stage>) returns (ok: bool)
      requires Follows() && run.stage == Propose && run.task.input.promptTier == Ceo
      requires item == RecommendationOf(run.task, run.answers.outcome)
      modifies this`log, this`run, queue, queue.store
      ensures Stepped(ok, throwsAt) && queue.effects == old(queue.effects)
    {
      if throwsAt == Some(Propose) {
        return false;
      }
      AdvanceTellsNews(run, run.answers);
      hide SoFar, KeyOf, FinalStatus, RecommendationOf, ActionOf;
      queue.SubmitRecommendation(item);
      log := log + [Recommended(item.id, item)];
      RecommendStores(run);
      run := Advance(run, run.answers);
      ok := true;
    }

    /** Any other outcome is put to the queue, which may let it skip review. */
    method Review(action: ProposedAction, sampled: bool, throwsAt: Option<Stage>) returns (queued: Option<bool>)
      requires Follows() && run.stage == Propose && run.task.input.promptTier != Ceo
      requires action == ActionOf(run.task, run.answers.outcome) && sampled == run.answers.spotCheck
      requires run.answers.autonomyActive == StateFor(queue.autonomy.states, ActionKey(action)).active
      modifies this`log, this`run, queue, queue.store, queue.autonomy
      ensures Follows() && origin == old(origin) && run.task == old(run.task) && run.answers == old(run.answers)
      ensures queue.effects == old(queue.effects)
      ensures queue.autonomy.Becomes(ActionKey(action), old(StateFor(queue.autonomy.states, ActionKey(action))))
      ensures if queued.None? then throwsAt == Some(run.stage)
              else run.stage == SaveRow(if queued.value then AwaitingReview else Completed)
    {
      hide SoFar, KeyOf, FinalStatus, ActionOf, StageFits, ItemOf, SavedStatus, Advance, Bypasses, CountsAsAutonomous,
        ActionKey, StateFor;
      if throwsAt == Some(Propose) {
        return None;
      }
      ReviewStores(run);
      ReviewTells(run);
      ghost var read := Advance(run, run.answers);
      var active := StateFor(queue.autonomy.states, ActionKey(action)).active;
      var r := queue.SubmitProposedAction(action, sampled, throwsAt == Some(Decide));
      log := log + [AutonomyRead(action.id, ActionKey(action), active)];
      if r.Ok? {
        log := log
          + [if r.value then ActionQueued(action.id, action, CountsAsAutonomous(action.stakesTags, active))
             else AutoApproved(action.id)];
        queued := Some(r.value);
      } else {
        queued := None;
      }
      run := if r.Ok? then Advance(read, run.answers) else read;
    }

    /** The queue, or nothing where none is attached; then the last row. */
    method ReviewTask(input: TaskInput, id: Id, tags: seq<string>, outcome: ExecutionOutcome, sampled: bool,
                      throwsAt: Option<Stage>)
      returns (r: Option<TaskRow>)
      requires Follows() && outcome.Success? && run.stage == AfterMoney(run.task, outcome)
      requires run.task.input == input && run.task.id == id && run.task.tags == tags && run.task.replica == replica
      requires run.answers.outcome == outcome && run.answers.spotCheck == sampled
      requires run.answers.autonomyActive == StateFor(queue.autonomy.states, TypeKeyOf(input)).active
      modifies this`log, this`run, dedup, queue, queue.store, queue.autonomy
      ensures Follows() && origin == old(origin) && run.task == old(run.task) && run.answers == old(run.answers)
      ensures queue.effects == old(queue.effects)
      ensures if r.Some? then r.value.id == id && run.stage == Over(r.value.status) else throwsAt == Some(run.stage)
    {
      hide Follows, SoFar, StageFits, KeyOf, FinalStatus, ItemOf, SavedStatus, Bypasses;
      var effectiveEffect := if outcome.missingHands != [] || input.promptTier == Ceo then None else input.effect;
      var status := Completed;
      if replica.hasQueue {
        if input.promptTier == Ceo {
          var ok := Recommend(RecommendationItem(id, input.tenantId, outcome.result, tags), throwsAt);
          if !ok { return None; }
          status := AwaitingReview;
        } else {
          var action := ProposedAction(id, input.tenantId, input.subAgentId, outcome.result, tags, effectiveEffect);
          var queued := Review(action, sampled, throwsAt);
          if queued.None? { return None; }
          status := if queued.value then AwaitingReview else Completed;
        }
      }
      r := Finish(KeyOf(input), TaskRow(id, status), throwsAt);
    }

    /** The executor and then the money: released if it failed, settled otherwise. */
    method ExecuteTask(input: TaskInput, id: Id, reserved: bool, gate: GateAnswer, model: Option<string>,
                       outcome: ExecutionOutcome, throwsAt: Option<Stage>) returns (ok: bool)
      requires Follows() && run.stage == SaveRow(InProgress)
      requires run.task.input == input && run.task.id == id && run.answers.gate == gate
               && run.answers.outcome == outcome
      requires reserved == HasMoney(run.task, gate) && model == ModelUsed(run.task, gate)
      modifies this`log, this`run, dedup
      ensures Follows() && origin == old(origin) && run.task == old(run.task) && run.answers == old(run.answers)
      ensures if ok then run.stage == AfterMoney(run.task, outcome) else throwsAt == Some(run.stage)
    {
      hide Follows, SoFar, StageFits, KeyOf, FinalStatus, ItemOf, SavedStatus, ModelUsed;
      ok := Save(KeyOf(input), TaskRow(id, InProgress), throwsAt);
      if !ok { return; }
      FollowsFits();
      ok := Call(AppendRow(InProgress), Row(id, InProgress), throwsAt);
      if !ok { return; }
      FollowsFits();
      ok := Call(StartExecutor, Started(id, KeyOf(input), model), throwsAt);
      if !ok { return; }
      FollowsFits();
      ok := Call(AwaitExecutor, Executed(id, outcome), throwsAt);
      if !ok { return; }
      if reserved {
        FollowsFits();
        if outcome.Failure? {
          ok := Call(ReleaseMoney, Released(id, gate.reservationId), throwsAt);
        } else {
          var amountUsd := if outcome.costUsd.Some? then outcome.costUsd.value else gate.amountUsd;
          ok := Call(SettleMoney, Settled(id, gate.reservationId, amountUsd), throwsAt);
        }
      }
    }

    /** From the first ledger row to the last. */
    method RunTask(input: TaskInput, id: Id, tags: seq<string>, answers: Answers, throwsAt: Option<Stage>)
      returns (r: Option<TaskRow>)
      requires Follows() && run.stage == AppendRow(Pending) && run.answers == answers
      requires run.task.input == input && run.task.id == id && run.task.tags == tags && run.task.replica == replica
      requires answers.autonomyActive == StateFor(queue.autonomy.states, TypeKeyOf(input)).active
      modifies this`log, this`run, dedup, queue, queue.store, queue.autonomy
      ensures Follows() && origin == old(origin) && run.task == old(run.task) && run.answers == old(run.answers)
      ensures queue.effects == old(queue.effects)
      ensures if r.Some? then r.value.id == id && run.stage == Over(r.value.status) else throwsAt == Some(run.stage)
    {
      hide Follows, SoFar, StageFits, KeyOf, ItemOf, SavedStatus, AmountSettled, Bypasses, ActionOf;
      var model, reserved := input.model, false;
      FollowsFits();
      var ok := Call(AppendRow(Pending), Row(id, Pending), throwsAt);
      if !ok { return None; }
      if replica.hasGate && input.model.Some? {
        FollowsFits();
        ok := Call(AskGate, GateAnswered(id, answers.gate), throwsAt);
        if !ok { return None; }
        if !answers.gate.Grants? {
          r := Finish(KeyOf(input), TaskRow(id, if answers.gate.Queues? then Queued else Skipped), throwsAt);
          return;
        }
        model, reserved := Some(answers.gate.model), true;
      }
      ok := ExecuteTask(input, id, reserved, answers.gate, model, answers.outcome, throwsAt);
      if !ok { return None; }
      if answers.outcome.Failure? {
        r := Finish(KeyOf(input), TaskRow(id, Failed), throwsAt);
      } else {
        r := ReviewTask(input, id, tags, answers.outcome, answers.spotCheck, throwsAt);
      }
    }

    /**
     * A seen dedup key is replayed and nothing else happens. Otherwise the call does exactly what its run has done: the
     * whole story if it returns, the story up to the throwing await if not. No effect ever runs here.
     */
    method SubmitTask(input: TaskInput, hints: TaggingHints, newId: Id, gate: GateAnswer, outcome: ExecutionOutcome,
                      sampled: bool, throwsAt: Option<Stage>) returns (r: Option<TaskRow>)
      modifies this, dedup, queue, queue.store, queue.autonomy
      ensures queue.effects == old(queue.effects)
      ensures KeyOf(input) in old(dedup.byKey) ==>
                && r == Some(old(dedup.byKey)[KeyOf(input)]) && dedup.byKey == old(dedup.byKey)
                && queue.store.items == old(queue.store.items) && log == old(log) + [Replayed(r.value.id, KeyOf(input))]
      ensures KeyOf(input) !in old(dedup.byKey) ==>
                && StageFits(run) && log == old(log) + SoFar(run)
                && dedup.byKey == old(dedup.byKey)[KeyOf(input) := TaskRow(newId, SavedStatus(run))]
                && queue.store.items == WithItem(old(queue.store.items), run)
                && run.task == Submission(newId, input, hints, run.task.tags, replica) && Tagged(run.task)
                && run.answers
                   == Answers(gate, outcome, old(StateFor(queue.autonomy.states, TypeKeyOf(input))).active, sampled)
                && if r.Some? then r.value.id == newId && run.stage == Over(r.value.status)
                   else throwsAt == Some(run.stage)
      ensures r.Some? && KeyOf(input) !in old(dedup.byKey) ==>
                && log == old(log) + Tale(run.task, run.answers) && r.value.status == Ends(run.task, run.answers)
                && queue.store.items == Stored(old(queue.store.items), newId, Leaves(run.task, run.answers))
    {
      var tags := DeriveTags(hints, input.explicitTags);
      hide SoFar, StageFits, KeyOf, ItemOf, SavedStatus, WithItem, Tagged, TypeKeyOf, Tale, Ends, Leaves, Stored;
      var existing, created := dedup.GetOrCreate(KeyOf(input), TaskRow(newId, Pending));
      if !created {
        log := log + [Replayed(existing.id, KeyOf(input))];
        return Some(existing);
      }
      var active := StateFor(queue.autonomy.states, TypeKeyOf(input)).active;
      var task, answers := Submission(newId, input, hints, tags, replica), Answers(gate, outcome, active, sampled);
      origin := Origin(log, old(dedup.byKey), queue.store.items);
      run := Run(task, answers, AppendRow(Pending), true);
      log := log + [Created(newId, KeyOf(input), input, hints)];
      FreshStart(task, answers, queue.store.items);
      r := RunTask(input, newId, tags, answers, throwsAt);
      if r.Some? {
        FollowsFits();
        OverInFull(run, old(queue.store.items));
      }
    }

    lemma FollowsFits()
      requires Follows()
      ensures StageFits(run)
    {
    }
  }

  /** The approval store with one more item, if there is one. */
  function Stored(items: map<Id, StoredItem>, id: Id, item: Option<Item>): map<Id, StoredItem> {
    match item
    case None => items
    case Some(ActionItem(action, spotCheck, _)) => items[id := StoredAction(action, spotCheck, None)]
    case Some(GuidanceItem(guidance, _)) => items[id := StoredRecommendation(guidance, false)]
  }

  /** A call that returned has told the whole tale, and left what the tale leaves. */
  lemma OverInFull(r: Run, items: map<Id, StoredItem>)
    requires StageFits(r) && r.stage.Over?
    ensures SoFar(r) == Tale(r.task, r.answers) && r.stage.status == Ends(r.task, r.answers)
    ensures WithItem(items, r) == Stored(items, r.task.id, Leaves(r.task, r.answers))
  {
    hide Tale, FullStory;
    StoryInFull(r.task, r.answers);
    OverLeaves(r);
  }

  lemma OverLeaves(r: Run)
    requires StageFits(r) && r.stage.Over?
    ensures ItemOf(r) == Leaves(r.task, r.answers)
  {
    DeniedByName(r.task.tags);
    hide IsDeniedFromAutonomy, NamesDeniedTag, SoFar;
  }

  lemma FreshStart(t: Submission, a: Answers, items: map<Id, StoredItem>)
    ensures var r := Run(t, a, AppendRow(Pending), true);
            && StageFits(r) && SoFar(r) == [Created(t.id, KeyOf(t.input), t.input, t.hints)]
            && SavedStatus(r) == Pending && WithItem(items, r) == items
    ensures Tagged(t) <==> multiset(t.tags) == multiset(TagSet(t.hints, t.input.explicitTags))
  {
  }

  lemma RecommendStores(r: Run)
    requires StageFits(r) && r.stage == Propose && r.task.input.promptTier == Ceo
    ensures var next := Advance(r, r.answers);
            && next.task == r.task && SavedStatus(next) == SavedStatus(r)
            && ItemOf(r).None? && ItemOf(next) == Some(GuidanceItem(RecommendationOf(r.task, r.answers.outcome), None))
            && RecommendationOf(r.task, r.answers.outcome).id == r.task.id
  {
    hide Bypasses, ActionOf, CountsAsAutonomous;
  }

  lemma ReviewTells(r: Run)
    requires StageFits(r) && r.stage == Propose && r.task.input.promptTier != Ceo
    ensures var read, action, active := Advance(r, r.answers), ActionOf(r.task, r.answers.outcome),
            r.answers.autonomyActive;
            var next := Advance(read, r.answers);
            && StageFits(read) && read.stage == Decide && StageFits(next)
            && SoFar(read) == SoFar(r) + [AutonomyRead(action.id, ActionKey(action), active)]
            && SoFar(next)
               == SoFar(read) + [if Bypasses(action, active, r.answers.spotCheck) then AutoApproved(action.id)
                                             else ActionQueued(action.id, action,
                                                               CountsAsAutonomous(action.stakesTags, active))]
  {
    AdvanceTellsNews(r, r.answers);
    AdvanceTellsNews(Advance(r, r.answers), r.answers);
    hide SoFar, KeyOf, FinalStatus, StageFits, Bypasses, CountsAsAutonomous;
  }

  lemma ReviewStores(r: Run)
    requires StageFits(r) && r.stage == Propose && r.task.input.promptTier != Ceo
    ensures var read, action, active := Advance(r, r.answers), ActionOf(r.task, r.answers.outcome),
            r.answers.autonomyActive;
            var next := Advance(read, r.answers);
            && read.task == r.task && next.task == r.task && read.answers == r.answers && next.answers == r.answers
            && SavedStatus(read) == SavedStatus(r) && SavedStatus(next) == SavedStatus(r)
            && ItemOf(r).None? && ItemOf(read).None? && action.id == r.task.id
            && ActionKey(action) == TypeKeyOf(r.task.input)
            && next.stage
               == SaveRow(if Bypasses(action, active, r.answers.spotCheck) then Completed else AwaitingReview)
            && ItemOf(next) == (if Bypasses(action, active, r.answers.spotCheck) then None
                                else Some(ActionItem(action, CountsAsAutonomous(action.stakesTags, active), None)))
  {
    hide IsDeniedFromAutonomy;
  }

  lemma CallsOnlyTalk(r: Run)
    requires StageFits(r) && !r.stage.SaveRow? && r.stage !in {Propose, Decide}
    ensures SavedStatus(Advance(r, r.answers)) == SavedStatus(r) && ItemOf(Advance(r, r.answers)) == ItemOf(r)
    ensures Advance(r, r.answers).task == r.task
  {
    hide Bypasses, ActionOf, RecommendationOf, CountsAsAutonomous;
  }

  lemma SaveOnlySaves(r: Run)
    requires StageFits(r) && r.stage.SaveRow?
    ensures SavedStatus(Advance(r, r.answers)) == r.stage.status && ItemOf(Advance(r, r.answers)) == ItemOf(r)
    ensures Advance(r, r.answers).task == r.task
  {
    hide Bypasses, ActionOf, RecommendationOf, CountsAsAutonomous;
  }
}
