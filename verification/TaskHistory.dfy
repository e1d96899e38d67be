/** The autonomy store and the dedup store, told from the trace alone. */
module TaskHistory {
  import opened Wrappers
  import opened Pricing
  import opened Tagging
  import opened Autonomy
  import opened TaskProtocol
  import opened QueueProtocol
  import opened TaskSystem
  import opened TaskInvariant

  /** What has happened to one task type of one tenant. */
  function OpsFor(trace: seq<Event>, key: TypeKey): seq<Op> {
    if trace == [] then [] else OpsFor(trace[..|trace| - 1], key) + OpOf(trace[|trace| - 1], key)
  }

  ghost predicate AutonomyOk(w: World) {
    forall key :: StateFor(w.autonomy, key) == After(w.offerThreshold, OpsFor(w.trace, key))
  }

  predicate ReadIsTrue(threshold: int, trace: seq<Event>, i: nat)
    requires i < |trace|
  {
    trace[i].AutonomyRead? ==> trace[i].active == After(threshold, OpsFor(trace[..i], trace[i].typeKey)).active
  }

  ghost predicate ReadsOk(w: World) {
    forall i: nat :: i < |w.trace| ==> ReadIsTrue(w.offerThreshold, w.trace, i)
  }

  predicate AnswersFor(tasks: map<Key, TaskRow>, e: Event) {
    e.Created? || e.Replayed? ==> e.key in tasks && tasks[e.key].id == e.id
  }

  ghost predicate CallersOk(w: World) {
    forall e :: e in w.trace ==> AnswersFor(w.tasks, e)
  }

  ghost predicate History(w: World) {
    AutonomyOk(w) && ReadsOk(w) && CallersOk(w)
  }

  /** The autonomy store takes an event as the event's effect on each task type. */
  ghost predicate TakesEvent(w: World, autonomy: map<TypeKey, AutonomyState>, e: Event) {
    forall key :: StateFor(autonomy, key)
               == if OpOf(e, key) == [] then StateFor(w.autonomy, key)
                  else Apply(w.offerThreshold, StateFor(w.autonomy, key), OpOf(e, key)[0])
  }

  lemma RecordedTakesEvent(w: World, e: Event)
    ensures TakesEvent(w, Recorded(w, e), e)
  {
  }

  predicate KeepsIds(tasks: map<Key, TaskRow>, after: map<Key, TaskRow>) {
    forall key :: key in tasks ==> key in after && after[key].id == tasks[key].id
  }

  lemma EventKeepsHistory(w: World, after: World, e: Event)
    requires History(w) && after.trace == w.trace + [e] && after.offerThreshold == w.offerThreshold
    requires KeepsIds(w.tasks, after.tasks) && AnswersFor(after.tasks, e)
    requires TakesEvent(w, after.autonomy, e)
    requires e.AutonomyRead? ==> e.active == StateFor(w.autonomy, e.typeKey).active
    ensures History(after)
  {
    hide OpOf, Apply;
    assert after.trace[..|after.trace| - 1] == w.trace;
    forall key
      ensures StateFor(after.autonomy, key) == After(after.offerThreshold, OpsFor(after.trace, key))
    {
      AtMostOneOp(e, key);
      var ops := OpsFor(w.trace, key);
      assert OpsFor(after.trace, key) == ops + OpOf(e, key);
      if OpOf(e, key) == [] {
        assert ops + OpOf(e, key) == ops;
      } else {
        assert OpOf(e, key) == [OpOf(e, key)[0]];
        assert (ops + OpOf(e, key))[..|ops|] == ops;
      }
    }
    forall i: nat | i < |after.trace|
      ensures ReadIsTrue(after.offerThreshold, after.trace, i)
    {
      if i < |w.trace| {
        assert ReadIsTrue(w.offerThreshold, w.trace, i);
        assert after.trace[..i] == w.trace[..i];
      } else {
        assert after.trace[..i] == w.trace;
      }
    }
  }

  lemma AtMostOneOp(e: Event, key: TypeKey)
    ensures |OpOf(e, key)| <= 1
  {
  }

  lemma QuietKeepsHistory(w: World, after: World)
    requires History(w) && after.trace == w.trace && after.offerThreshold == w.offerThreshold
             && after.autonomy == w.autonomy
    requires KeepsIds(w.tasks, after.tasks)
    ensures History(after)
  {
  }

  lemma MoveKeepsHistory(w: World, id: Id, answers: Answers)
    requires Inv(w) && History(w) && CanMove(w, id, answers)
    ensures History(DoMove(w, id, answers))
  {
    hide Inv, History, StageFits, StoreItem, MoveMoney, News, StoreThrows;
    StoresAccept(w, id);
    var r, a := w.runs[id], WithAutonomy(w, w.runs[id], answers);
    var after := Moved(w, id, a);
    MoveKeepsIds(w, id, a);
    NewsForHistory(r, a);
    if News(r, a) == [] {
      QuietKeepsHistory(w, after);
    } else {
      var e := News(r, a)[0];
      assert News(r, a) == [e];
      EventKeepsHistory(w, after, e);
    }
  }

  lemma MoveKeepsIds(w: World, id: Id, a: Answers)
    requires Inv(w) && CanMove(w, id, a)
    ensures KeepsIds(w.tasks, Moved(w, id, a).tasks)
  {
    hide Inv, StageFits, StoreItem, MoveMoney, News, KeyOf, SavedStatus, MoneyFits, ItemFits, Tagged, SoFar;
    At(w, id);
  }

  /** At most one event an await, none of them about autonomy or keys; a read is of the task's own type. */
  lemma NewsForHistory(r: Run, a: Answers)
    requires StageFits(r)
    ensures |News(r, a)| <= 1
    ensures forall e :: e in News(r, a) ==> !e.Created? && !e.Replayed? && forall key :: OpOf(e, key) == []
    ensures forall e :: e in News(r, a) && e.AutonomyRead? ==>
              e.typeKey == TypeKeyOf(r.task.input) && e.active == a.autonomyActive
  {
  }

  lemma SubmitKeepsHistory(w: World, t: Submission)
    requires History(w)
    ensures History(DoSubmit(w, t))
  {
    var after, key := DoSubmit(w, t), KeyOf(t.input);
    hide History, Tagged, KeyOf;
    if key in w.tasks {
      EventKeepsHistory(w, after, Replayed(w.tasks[key].id, key));
    } else if t.id !in w.runs && Tagged(t) {
      EventKeepsHistory(w, after, Created(t.id, key, t.input, t.hints));
    }
  }

  lemma ContinueKeepsHistory(w: World, id: Id, success: bool)
    requires History(w) && CanContinue(w, id) && ResolveFits(w.items[id].action, w.items[id].resolve.value)
    ensures History(DoContinue(w, id, success))
  {
    hide History, Recorded, Continue, IsDeniedFromAutonomy, DraftOf, ActionKey, Apply;
    var ActionItem(action, spotCheck, resolve) := w.items[id];
    var news, after := ResolveNews(action, spotCheck, resolve.value, success), DoContinue(w, id, success);
    if news == [] {
      QuietKeepsHistory(w, after);
    } else {
      if resolve.value.stage == RecordVerdict {
        RecordedTakesEvent(w, news[0]);
      }
      EventKeepsHistory(w, after, news[0]);
    }
  }

  lemma NextKeepsHistory(w: World, step: Step)
    requires Inv(w) && History(w)
    ensures History(Next(w, step))
  {
    hide Inv, History, CanMove, DoMove, DoContinue, DoSubmit, Recorded, Apply;
    var after := Next(w, step);
    match step
    case Submit(task) => SubmitKeepsHistory(w, task);
    case MoveRun(id, answers) => if CanMove(w, id, answers) { MoveKeepsHistory(w, id, answers); }
    case AbandonRun(_) => QuietKeepsHistory(w, after);
    case ResolveAction(_, id, verdict) => if after != w { EventKeepsHistory(w, after, HumanVerdict(id, verdict)); }
    case MoveResolve(id, success) =>
      if CanContinue(w, id) {
        ItemAt(w, id);
        ContinueKeepsHistory(w, id, success);
      }
    case AbandonResolve(_) => QuietKeepsHistory(w, after);
    case ResolveGuidance(_, id, verdict) => if after != w { EventKeepsHistory(w, after, Guidance(id, verdict)); }
    case Accept(k) =>
      RecordedTakesEvent(w, AcceptedOffer(k));
      if after != w { EventKeepsHistory(w, after, AcceptedOffer(k)); }
    case Revoke(tenantId, taskType) =>
      RecordedTakesEvent(w, RevokedAutonomy(tenantId, taskType));
      EventKeepsHistory(w, after, RevokedAutonomy(tenantId, taskType));
  }

  lemma {:induction false} ReachKeepsHistory(offerThreshold: int, steps: seq<Step>)
    ensures History(Reach(offerThreshold, steps))
  {
    if steps != [] {
      ReachKeepsInv(offerThreshold, steps[..|steps| - 1]);
      ReachKeepsHistory(offerThreshold, steps[..|steps| - 1]);
      NextKeepsHistory(Reach(offerThreshold, steps[..|steps| - 1]), steps[|steps| - 1]);
    }
  }

  /** In every reachable world the stores tell what the trace tells. */
  lemma ReachableTellsTrace(w: World)
    requires IsReachable(w)
    ensures History(w)
  {
    var steps :| w == Reach(w.offerThreshold, steps);
    ReachKeepsHistory(w.offerThreshold, steps);
  }
}
