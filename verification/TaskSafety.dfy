/** What every reachable world satisfies, one task, item, reservation and task type at a time. */
module TaskInvariant {
  import opened Wrappers
  import opened Pricing
  import opened Tagging
  import opened Autonomy
  import opened TaskProtocol
  import opened QueueProtocol
  import opened TaskSystem
  import opened Traces

  /** The status last written to the task's row. */
  function SavedStatus(r: Run): TaskStatus {
    match r.stage
    case AppendRow(status) => status
    case AskGate => Pending
    case SaveRow(status) => if status == InProgress || Refused(r.task, r.answers.gate) then Pending else InProgress
    case Return(status) => status
    case Over(status) => status
    case _ => InProgress
  }

  predicate IsLate(s: Stage) {
    (s.SaveRow? || s.AppendRow? || s.Return? || s.Over?) && s.status !in {Pending, InProgress}
  }

  /** What has become of the money granted to this run, if any was. */
  function MoneyOf(r: Run): Option<MoneyState> {
    if !HasMoney(r.task, r.answers.gate) || r.stage in {AppendRow(Pending), AskGate} then None
    else if !IsLate(r.stage) && r.stage !in {Propose, Decide} then Some(Held)
    else if r.answers.outcome.Failure? then Some(GivenBack)
    else Some(SettledFor(AmountSettled(r.answers.gate, r.answers.outcome)))
  }

  /** What this run has put into the approval queue, if anything. */
  function ItemOf(r: Run): Option<Item> {
    if !IsLate(r.stage) || Refused(r.task, r.answers.gate) || r.answers.outcome.Failure? || !r.task.replica.hasQueue
    then None
    else if r.task.input.promptTier == Ceo then Some(GuidanceItem(RecommendationOf(r.task, r.answers.outcome), None))
    else
      var action := ActionOf(r.task, r.answers.outcome);
      if Bypasses(action, r.answers.autonomyActive, r.answers.spotCheck) then None
      else Some(ActionItem(action, CountsAsAutonomous(action.stakesTags, r.answers.autonomyActive), None))
  }

  /** An item as it was stored. */
  function AsStored(item: Item): Item {
    match item
    case ActionItem(action, spotCheck, _) => ActionItem(action, spotCheck, None)
    case GuidanceItem(rec, _) => GuidanceItem(rec, None)
  }

  predicate MoneyFits(reservations: map<Id, Reservation>, r: Run) {
    MoneyOf(r).Some? ==>
      && r.answers.gate.reservationId in reservations
      && reservations[r.answers.gate.reservationId]
         == Reservation(r.task.id, r.answers.gate.amountUsd, MoneyOf(r).value)
  }

  predicate ItemFits(items: map<Id, Item>, r: Run) {
    match ItemOf(r)
    case None => r.task.id !in items
    case Some(item) => r.task.id in items && AsStored(items[r.task.id]) == item
  }

  predicate RowFits(tasks: map<Key, TaskRow>, r: Run) {
    KeyOf(r.task.input) in tasks && tasks[KeyOf(r.task.input)] == TaskRow(r.task.id, SavedStatus(r))
  }

  predicate RunOk(w: World, id: Id)
    requires id in w.runs
  {
    var r := w.runs[id];
    && r.task.id == id && StageFits(r) && Tagged(r.task)
    && RowFits(w.tasks, r) && MoneyFits(w.reservations, r) && ItemFits(w.items, r)
    && View(w.trace, RouterLens(id)) == SoFar(r)
  }

  predicate NoRunOk(w: World, id: Id) {
    id !in w.items && View(w.trace, RouterLens(id)) == []
  }

  predicate ItemIsOf(item: Item, id: Id) {
    match item
    case ActionItem(action, spotCheck, resolve) =>
      action.id == id && (resolve.Some? ==> ResolveFits(action, resolve.value))
    case GuidanceItem(rec, _) => rec.id == id
  }

  predicate ItemOk(items: map<Id, Item>, trace: seq<Event>, id: Id) {
    && (id in items ==> ItemIsOf(items[id], id))
    && View(trace, QueueLens(id)) == if id in items then ItemLog(items[id]) else []
  }

  /** Every row is the row of the run that has its key. */
  ghost predicate TasksOk(tasks: map<Key, TaskRow>, runs: map<Id, Run>) {
    forall key :: key in tasks ==> tasks[key].id in runs && KeyOf(runs[tasks[key].id].task.input) == key
  }

  predicate Owns(r: Run, res: Id) {
    MoneyOf(r).Some? && r.answers.gate.reservationId == res
  }

  /** Every reservation is its owner's. */
  ghost predicate ReservationsOk(reservations: map<Id, Reservation>, runs: map<Id, Run>) {
    forall res :: res in reservations ==> reservations[res].owner in runs && Owns(runs[reservations[res].owner], res)
  }

  ghost predicate RunsOk(w: World) {
    forall id: Id :: if id in w.runs then RunOk(w, id) else NoRunOk(w, id)
  }

  ghost predicate ItemsOk(items: map<Id, Item>, trace: seq<Event>) {
    forall id: Id :: ItemOk(items, trace, id)
  }

  ghost predicate Inv(w: World) {
    TasksOk(w.tasks, w.runs) && ReservationsOk(w.reservations, w.runs) && RunsOk(w) && ItemsOk(w.items, w.trace)
  }

  // ---- Submitting ----------------------------------------------------------------------------------------------

  /** Events about another subject do not show. */
  lemma NotSeen(trace: seq<Event>, news: seq<Event>, lens: Lens)
    requires forall e :: e in news ==> !Sees(lens, e)
    ensures View(trace + news, lens) == View(trace, lens)
  {
    ViewAppends(trace, news, lens);
    ViewOfUnseen(news, lens);
  }

  lemma AllSeen(trace: seq<Event>, news: seq<Event>, lens: Lens)
    requires forall e :: e in news ==> Sees(lens, e)
    ensures View(trace + news, lens) == View(trace, lens) + news
  {
    ViewAppends(trace, news, lens);
    ViewOfSeen(news, lens);
  }

  lemma SubmitKeepsRuns(w: World, t: Submission)
    requires Inv(w) && KeyOf(t.input) !in w.tasks && t.id !in w.runs && Tagged(t)
    ensures RunsOk(DoSubmit(w, t))
  {
    var after := DoSubmit(w, t);
    var news := [Created(t.id, KeyOf(t.input), t.input, t.hints)];
    hide View, Tagged, SoFar, StageFits, MoneyOf, ItemOf, SavedStatus, KeyOf;
    forall id: Id
      ensures if id in after.runs then RunOk(after, id) else NoRunOk(after, id)
    {
      if id == t.id {
        assert NoRunOk(w, id);
        AllSeen(w.trace, news, RouterLens(id));
        FreshRun(t);
      } else {
        NotSeen(w.trace, news, RouterLens(id));
        if id in w.runs {
          assert RunOk(w, id);
        } else {
          assert NoRunOk(w, id);
        }
      }
    }
  }

  lemma FreshRun(t: Submission)
    ensures var r := Run(t, NO_ANSWERS, AppendRow(Pending), true);
            && StageFits(r) && SavedStatus(r) == Pending && MoneyOf(r).None? && ItemOf(r).None?
            && SoFar(r) == [Created(t.id, KeyOf(t.input), t.input, t.hints)]
  {
  }

  lemma SubmitKeepsInv(w: World, t: Submission)
    requires Inv(w)
    ensures Inv(DoSubmit(w, t))
  {
    var after, key := DoSubmit(w, t), KeyOf(t.input);
    hide View, Tagged, Owns, KeyOf, RunOk, NoRunOk, ItemLog, ItemIsOf;
    if key in w.tasks {
      RepliesKeepInv(w, after, [Replayed(w.tasks[key].id, key)]);
    } else if t.id !in w.runs && Tagged(t) {
      SubmitKeepsRuns(w, t);
      assert NoRunOk(w, t.id);
      forall id: Id
        ensures ItemOk(after.items, after.trace, id)
      {
        assert ItemOk(w.items, w.trace, id);
        NotSeen(w.trace, [Created(t.id, key, t.input, t.hints)], QueueLens(id));
      }
    }
  }

  /** Events that no lens sees change nothing. */
  lemma RepliesKeepInv(w: World, after: World, news: seq<Event>)
    requires Inv(w) && after == w.(autonomy := after.autonomy, trace := w.trace + news)
    requires forall e :: e in news ==> !IsRouterEvent(e) && !IsQueueEvent(e)
    ensures Inv(after)
  {
    hide View, Tagged, SoFar, StageFits, MoneyFits, ItemFits, RowFits, ItemLog, ItemIsOf, Owns, KeyOf;
    forall id: Id
      ensures if id in after.runs then RunOk(after, id) else NoRunOk(after, id)
      ensures ItemOk(after.items, after.trace, id)
    {
      NotSeen(w.trace, news, RouterLens(id));
      NotSeen(w.trace, news, QueueLens(id));
      assert ItemOk(w.items, w.trace, id);
      assert if id in w.runs then RunOk(w, id) else NoRunOk(w, id);
    }
  }

  // ---- Moving a run --------------------------------------------------------------------------------------------

  lemma SaveTaskFits(tasks: map<Key, TaskRow>, r: Run, a: Answers)
    requires StageFits(r) && RowFits(tasks, r)
    ensures RowFits(SaveTask(tasks, r), Advance(r, a))
  {
    hide KeyOf, ActionOf, Bypasses, HasMoney;
    AdvanceFits(r, a);
  }

  lemma MoveMoneyFits(reservations: map<Id, Reservation>, r: Run, a: Answers)
    requires StageFits(r) && MoneyFits(reservations, r)
    ensures MoneyFits(MoveMoney(reservations, r, a), Advance(r, a))
  {
    hide KeyOf, ActionOf, Bypasses, AmountSettled;
  }

  lemma StoreItemFits(items: map<Id, Item>, r: Run, a: Answers)
    requires StageFits(r) && ItemFits(items, r)
    ensures ItemFits(StoreItem(items, r, a), Advance(r, a))
  {
    hide KeyOf, ActionOf, RecommendationOf, Bypasses, CountsAsAutonomous;
  }

  lemma MoneyStays(r: Run, a: Answers)
    requires StageFits(r) && MoneyOf(r).Some?
    ensures MoneyOf(Advance(r, a)).Some? && Advance(r, a).answers.gate == r.answers.gate && Advance(r, a).task == r.task
  {
    hide KeyOf, ActionOf, RecommendationOf, Bypasses, IsDeniedFromAutonomy;
  }

  /**
   * No store ever refuses a run: when it comes to settle or release, its reservation is still held, and when it comes
   * to the queue, its item is not there yet.
   */
  lemma StoresAccept(w: World, id: Id)
    requires Inv(w) && id in w.runs
    ensures !StoreThrows(w, w.runs[id])
  {
    hide View, SoFar, Tagged, RowFits, TasksOk, ReservationsOk, ItemsOk;
    assert RunOk(w, id);
  }

  lemma MoveKeepsOwnRun(w: World, id: Id, a: Answers)
    requires Inv(w) && CanMove(w, id, a)
    ensures RunOk(Moved(w, id, a), id)
  {
    var r := w.runs[id];
    hide View, SoFar, Tagged, RowFits, MoneyFits, ItemFits, Inv, SaveTask, MoveMoney, StoreItem, StageFits, Advance,
      News;
    At(w, id);
    SaveTaskFits(w.tasks, r, a);
    MoveMoneyFits(w.reservations, r, a);
    StoreItemFits(w.items, r, a);
    AdvanceTellsNews(r, a);
    NewsIsOwn(r, a);
    AdvanceKeepsTask(r, a);
    AllSeen(w.trace, News(r, a), RouterLens(id));
  }

  lemma AdvanceKeepsTask(r: Run, a: Answers)
    ensures Advance(r, a).task == r.task
  {
  }

  /** An await either leaves the queue and its events alone, or stores one item and says exactly so. */
  lemma StoreItemTellsNews(items: map<Id, Item>, r: Run, a: Answers) returns (stored: Option<Item>)
    requires StageFits(r)
    ensures stored.None? ==> StoreItem(items, r, a) == items && forall e :: e in News(r, a) ==> !IsQueueEvent(e)
    ensures stored.Some? ==>
              && r.stage in {Propose, Decide} && StoreItem(items, r, a) == items[r.task.id := stored.value]
              && News(r, a) == ItemLog(stored.value) && ItemIsOf(stored.value, r.task.id)
              && AsStored(stored.value) == stored.value
  {
    hide KeyOf, Bypasses, CountsAsAutonomous;
    var t, outcome := r.task, r.answers.outcome;
    stored := if r.stage == Propose && t.input.promptTier == Ceo
    then Some(GuidanceItem(RecommendationOf(t, outcome), None))
              else if r.stage == Decide && !Bypasses(ActionOf(t, outcome), r.answers.autonomyActive, a.spotCheck)
              then Some(ActionItem(ActionOf(t, outcome), CountsAsAutonomous(t.tags, r.answers.autonomyActive), None))
              else None;
  }

  /** A task is only about its own row, reservation, item and events. */
  lemma RunFrame(w: World, after: World, id: Id)
    requires id in w.runs && RunOk(w, id) && id in after.runs && after.runs[id] == w.runs[id]
    requires var key := KeyOf(w.runs[id].task.input); key in w.tasks ==>
               key in after.tasks && after.tasks[key] == w.tasks[key]
    requires forall res :: res in w.reservations && w.reservations[res].owner == id ==>
               res in after.reservations && after.reservations[res] == w.reservations[res]
    requires id in after.items <==> id in w.items
    requires id in w.items ==> AsStored(after.items[id]) == AsStored(w.items[id])
    requires View(after.trace, RouterLens(id)) == View(w.trace, RouterLens(id))
    ensures RunOk(after, id)
  {
    hide View, SoFar, Tagged, MoneyOf, ItemOf, SavedStatus, StageFits, KeyOf, AsStored;
  }

  lemma At(w: World, id: Id)
    requires Inv(w)
    ensures if id in w.runs then RunOk(w, id) else NoRunOk(w, id)
    ensures ItemOk(w.items, w.trace, id)
  {
  }

  lemma RunParts(w: World, id: Id)
    requires id in w.runs && RunOk(w, id)
    ensures w.runs[id].task.id == id && StageFits(w.runs[id]) && MoneyFits(w.reservations, w.runs[id])
    ensures w.runs[id].stage in {Propose, Decide} ==> id !in w.items
  {
  }

  lemma MoveKeepsOtherRun(w: World, id: Id, a: Answers, other: Id)
    requires Inv(w) && CanMove(w, id, a) && other != id
    ensures var after := Moved(w, id, a); if other in after.runs then RunOk(after, other) else NoRunOk(after, other)
  {
    var r, after := w.runs[id], Moved(w, id, a);
    hide View, SoFar, Tagged, MoneyFits, ItemFits, RowFits, StageFits, Advance, News, StoreItem, MoveMoney, ItemIsOf,
      KeyOf,
         AsStored, Inv, RunOk, ItemLog;
    At(w, id);
    At(w, other);
    RunParts(w, id);
    OthersUnseen(w.trace, r, a, other);
    OtherItem(w.items, r, a, other);
    if other in w.runs {
      OtherMoney(w.reservations, r, a, other);
      OtherKey(w, id, other);
      RunFrame(w, after, other);
    }
  }

  lemma OtherItem(items: map<Id, Item>, r: Run, a: Answers, other: Id)
    requires StageFits(r) && other != r.task.id
    ensures other in StoreItem(items, r, a) <==> other in items
    ensures other in items ==> StoreItem(items, r, a)[other] == items[other]
  {
    hide KeyOf, ActionOf, RecommendationOf, Bypasses, CountsAsAutonomous;
  }

  lemma OthersUnseen(trace: seq<Event>, r: Run, a: Answers, other: Id)
    requires StageFits(r) && r.task.id != other
    ensures View(trace + News(r, a), RouterLens(other)) == View(trace, RouterLens(other))
    ensures View(trace + News(r, a), QueueLens(other)) == View(trace, QueueLens(other))
  {
    hide View, News, StageFits;
    NewsIsOwn(r, a);
    NotSeen(trace, News(r, a), RouterLens(other));
    NotSeen(trace, News(r, a), QueueLens(other));
  }

  lemma OtherKey(w: World, id: Id, other: Id)
    requires id in w.runs && other in w.runs && RunOk(w, id) && RunOk(w, other) && other != id
    ensures KeyOf(w.runs[id].task.input) != KeyOf(w.runs[other].task.input)
  {
    hide View, SoFar, Tagged, MoneyFits, ItemFits, StageFits, SavedStatus, KeyOf;
  }

  /** Another task's reservation stays what it was. */
  lemma OtherMoney(reservations: map<Id, Reservation>, r: Run, a: Answers, other: Id)
    requires StageFits(r) && MoneyFits(reservations, r) && other != r.task.id
    requires r.stage == AskGate && a.gate.Grants? ==> a.gate.reservationId !in reservations
    ensures forall res :: res in reservations && reservations[res].owner == other ==>
              res in MoveMoney(reservations, r, a) && MoveMoney(reservations, r, a)[res] == reservations[res]
  {
    hide KeyOf, ActionOf, Bypasses, AmountSettled;
  }

  lemma MoveKeepsItem(w: World, id: Id, a: Answers, other: Id)
    requires Inv(w) && CanMove(w, id, a)
    ensures ItemOk(Moved(w, id, a).items, Moved(w, id, a).trace, other)
  {
    hide Inv, RunOk, NoRunOk, ItemOk;
    At(w, id);
    At(w, other);
    RunParts(w, id);
    StoringKeepsItem(w.items, w.trace, w.runs[id], a, other);
  }

  lemma StoringKeepsItem(items: map<Id, Item>, trace: seq<Event>, r: Run, a: Answers, other: Id)
    requires StageFits(r) && ItemOk(items, trace, other)
    requires r.stage in {Propose, Decide} ==> r.task.id !in items
    ensures ItemOk(StoreItem(items, r, a), trace + News(r, a), other)
  {
    hide View, StageFits, News, StoreItem, ItemIsOf, ItemLog, AsStored;
    var stored := StoreItemTellsNews(items, r, a);
    if other != r.task.id {
      OthersUnseen(trace, r, a, other);
    } else if stored.Some? {
      StoredItemLog(stored.value, other);
      AllSeen(trace, News(r, a), QueueLens(other));
    } else {
      NotSeen(trace, News(r, a), QueueLens(other));
    }
  }

  lemma StoredItemLog(item: Item, id: Id)
    requires ItemIsOf(item, id) && AsStored(item) == item
    ensures forall e :: e in ItemLog(item) ==> Sees(QueueLens(id), e)
  {
    hide IsDeniedFromAutonomy, DraftOf, ActionKey;
  }

  lemma MoveKeepsInv(w: World, id: Id, answers: Answers)
    requires Inv(w) && CanMove(w, id, answers)
    ensures Inv(DoMove(w, id, answers))
  {
    StoresAccept(w, id);
    var a := WithAutonomy(w, w.runs[id], answers);
    var after := Moved(w, id, a);
    hide RunOk, NoRunOk, ItemOk, Inv, TasksOk, ReservationsOk, Moved;
    MoveKeepsTasks(w, id, a);
    MoveKeepsReservations(w, id, a);
    forall other: Id
      ensures if other in after.runs then RunOk(after, other) else NoRunOk(after, other)
      ensures ItemOk(after.items, after.trace, other)
    {
      MoveKeepsItem(w, id, a, other);
      if other == id {
        MoveKeepsOwnRun(w, id, a);
      } else {
        MoveKeepsOtherRun(w, id, a, other);
      }
    }
    InvOf(after);
  }

  lemma InvOf(w: World)
    requires TasksOk(w.tasks, w.runs) && ReservationsOk(w.reservations, w.runs) && RunsOk(w)
             && ItemsOk(w.items, w.trace)
    ensures Inv(w)
  {
  }

  lemma MoveKeepsTasks(w: World, id: Id, a: Answers)
    requires Inv(w) && CanMove(w, id, a)
    ensures TasksOk(Moved(w, id, a).tasks, Moved(w, id, a).runs)
  {
    hide TasksOk, RunsOk, ItemsOk, ReservationsOk, SaveTask, StageFits, MoneyFits, ItemFits, Tagged, SoFar, View;
    At(w, id);
    AdvanceKeepsTask(w.runs[id], a);
    SavingKeepsTasks(w.tasks, w.runs, w.runs[id], Advance(w.runs[id], a));
  }

  lemma SavingKeepsTasks(tasks: map<Key, TaskRow>, runs: map<Id, Run>, r: Run, next: Run)
    requires TasksOk(tasks, runs) && r.task.id in runs && runs[r.task.id] == r && RowFits(tasks, r)
             && next.task == r.task
    ensures TasksOk(SaveTask(tasks, r), runs[r.task.id := next])
  {
    hide KeyOf, SavedStatus;
  }

  lemma MoveKeepsReservations(w: World, id: Id, a: Answers)
    requires Inv(w) && CanMove(w, id, a)
    ensures ReservationsOk(Moved(w, id, a).reservations, Moved(w, id, a).runs)
  {
    hide TasksOk, RunsOk, ItemsOk, ReservationsOk, MoveMoney, StageFits, MoneyFits, ItemFits, Tagged, SoFar, View;
    At(w, id);
    MovingKeepsReservations(w.reservations, w.runs, w.runs[id], a);
  }

  lemma MovingKeepsReservations(reservations: map<Id, Reservation>, runs: map<Id, Run>, r: Run, a: Answers)
    requires ReservationsOk(reservations, runs) && r.task.id in runs && runs[r.task.id] == r && StageFits(r)
    requires MoneyFits(reservations, r)
    requires r.stage == AskGate && a.gate.Grants? ==> a.gate.reservationId !in reservations
    ensures ReservationsOk(MoveMoney(reservations, r, a), runs[r.task.id := Advance(r, a)])
  {
    hide MoveMoney, StageFits, Advance, MoneyFits, MoneyOf;
    TouchedMoney(reservations, r, a);
    if MoneyOf(r).Some? {
      MoneyStays(r, a);
    }
  }

  /** A reservation an await touches is the run's own afterwards; every other one is as it was. */
  lemma TouchedMoney(reservations: map<Id, Reservation>, r: Run, a: Answers)
    requires StageFits(r) && MoneyFits(reservations, r)
    requires r.stage == AskGate && a.gate.Grants? ==> a.gate.reservationId !in reservations
    ensures var after := MoveMoney(reservations, r, a);
            forall res :: res in after ==>
              || (res in reservations && after[res] == reservations[res])
              || (after[res].owner == r.task.id && Owns(Advance(r, a), res))
  {
    hide KeyOf, ActionOf, Bypasses, AmountSettled;
  }

  // ---- The queue and autonomy ----------------------------------------------------------------------------------

  /** A step of one item that logs exactly what it does, and leaves what was stored. */
  lemma QueueStepKeepsInv(w: World, after: World, id: Id, item: Item, news: seq<Event>)
    requires Inv(w) && id in w.items
    requires after == w.(items := w.items[id := item], autonomy := after.autonomy, trace := w.trace + news)
    requires AsStored(item) == AsStored(w.items[id]) && ItemIsOf(item, id)
             && ItemLog(item) == ItemLog(w.items[id]) + news
    requires forall e :: e in news ==> IsQueueEvent(e) && !IsRouterEvent(e) && e.id == id
    ensures Inv(after)
  {
    hide View, Tagged, SoFar, StageFits, MoneyFits, RowFits, ItemLog, ItemIsOf, Owns, KeyOf, AsStored, ItemOf,
      IsRouterEvent, IsQueueEvent;
    forall other: Id
      ensures if other in after.runs then RunOk(after, other) else NoRunOk(after, other)
      ensures ItemOk(after.items, after.trace, other)
    {
      NotSeen(w.trace, news, RouterLens(other));
      assert if other in w.runs then RunOk(w, other) else NoRunOk(w, other);
      assert ItemOk(w.items, w.trace, other);
      if other == id {
        AllSeen(w.trace, news, QueueLens(id));
      } else {
        NotSeen(w.trace, news, QueueLens(other));
      }
    }
  }

  /** The queue's own steps on one item: a verdict, its next await, its call's end, guidance. */
  lemma ItemSteps(item: Item, id: Id, verdict: Verdict, success: bool)
    requires ItemIsOf(item, id)
    ensures item.ActionItem? && item.resolve.None? ==>
              var next := ActionItem(item.action, item.spotCheck, Some(Begin(item.action, verdict)));
              ItemIsOf(next, id) && AsStored(next) == AsStored(item)
                && ItemLog(next) == ItemLog(item) + [HumanVerdict(id, verdict)]
    ensures item.ActionItem? && item.resolve.Some? ==>
              var next := ActionItem(item.action, item.spotCheck, Some(Continue(item.resolve.value, success)));
              && ItemIsOf(next, id) && AsStored(next) == AsStored(item)
              && ItemLog(next) == ItemLog(item) + ResolveNews(item.action, item.spotCheck, item.resolve.value, success)
    ensures item.GuidanceItem? && item.verdict.None? ==>
              var next := GuidanceItem(item.item, Some(verdict));
              ItemIsOf(next, id) && AsStored(next) == AsStored(item)
                && ItemLog(next) == ItemLog(item) + [Guidance(id, verdict)]
  {
    if item.ActionItem? && item.resolve.Some? {
      hide ResolveNews, ResolvedSoFar;
      ContinueTellsNews(item.action, item.spotCheck, item.resolve.value, success);
    }
  }

  lemma EndedResolve(item: Item, id: Id)
    requires ItemIsOf(item, id) && item.ActionItem? && item.resolve.Some?
    ensures var next := ActionItem(item.action, item.spotCheck, Some(item.resolve.value.(alive := false)));
            ItemIsOf(next, id) && AsStored(next) == AsStored(item) && ItemLog(next) == ItemLog(item) + []
  {
  }

  lemma ItemAt(w: World, id: Id)
    requires Inv(w) && id in w.items
    ensures ItemIsOf(w.items[id], id)
  {
    assert ItemOk(w.items, w.trace, id);
  }

  lemma ResolveKeepsInv(w: World, tenantId: Id, id: Id, verdict: Verdict)
    requires Inv(w)
    ensures Inv(DoResolve(w, tenantId, id, verdict))
  {
    hide Inv, ItemLog, ItemIsOf, AsStored, Begin;
    var after := DoResolve(w, tenantId, id, verdict);
    if after != w {
      ItemAt(w, id);
      ItemSteps(w.items[id], id, verdict, false);
      QueueStepKeepsInv(w, after, id, after.items[id], [HumanVerdict(id, verdict)]);
    }
  }

  lemma GuideKeepsInv(w: World, tenantId: Id, id: Id, verdict: Verdict)
    requires Inv(w)
    ensures Inv(DoGuide(w, tenantId, id, verdict))
  {
    hide Inv, ItemLog, ItemIsOf, AsStored;
    var after := DoGuide(w, tenantId, id, verdict);
    if after != w {
      ItemAt(w, id);
      ItemSteps(w.items[id], id, verdict, false);
      QueueStepKeepsInv(w, after, id, after.items[id], [Guidance(id, verdict)]);
    }
  }

  lemma ContinueKeepsInv(w: World, id: Id, success: bool)
    requires Inv(w) && CanContinue(w, id)
    ensures Inv(DoContinue(w, id, success))
  {
    hide Inv, Recorded, ItemLog, ItemIsOf, AsStored, Continue;
    ItemAt(w, id);
    var item, after := w.items[id], DoContinue(w, id, success);
    var news := ResolveNews(item.action, item.spotCheck, item.resolve.value, success);
    ItemSteps(item, id, Approve, success);
    ResolveNewsIsOwn(item, id, success);
    hide ResolveNews, IsQueueEvent, IsRouterEvent;
    QueueStepKeepsInv(w, after, id, after.items[id], news);
  }

  lemma ResolveNewsIsOwn(item: Item, id: Id, success: bool)
    requires ItemIsOf(item, id) && item.ActionItem? && item.resolve.Some?
    ensures forall e :: e in ResolveNews(item.action, item.spotCheck, item.resolve.value, success) ==>
              IsQueueEvent(e) && !IsRouterEvent(e) && e.id == id
  {
    hide IsDeniedFromAutonomy, DraftOf, ActionKey;
  }

  lemma AbandonResolveKeepsInv(w: World, id: Id)
    requires Inv(w) && CanContinue(w, id)
    ensures Inv(DoAbandonResolve(w, id))
  {
    hide Inv, ItemLog, ItemIsOf, AsStored;
    var after := DoAbandonResolve(w, id);
    ItemAt(w, id);
    EndedResolve(w.items[id], id);
    assert after.trace == w.trace + [];
    QueueStepKeepsInv(w, after, id, after.items[id], []);
  }

  /** Whether its caller still lives matters to nothing a run has done. */
  lemma DeadRun(r: Run)
    ensures var dead := r.(alive := false);
            && StageFits(dead) == StageFits(r) && SavedStatus(dead) == SavedStatus(r) && MoneyOf(dead) == MoneyOf(r)
            && ItemOf(dead) == ItemOf(r) && SoFar(dead) == SoFar(r)
  {
    hide Story, FinalStatus, ActionOf, RecommendationOf, Bypasses, MoneyDone, ExecutorDone, BeforeExecutor;
  }

  function Dead(w: World, id: Id): World
    requires id in w.runs
  {
    w.(runs := w.runs[id := w.runs[id].(alive := false)])
  }

  lemma DeadRunOk(w: World, id: Id, other: Id)
    requires id in w.runs && if other in w.runs then RunOk(w, other) else NoRunOk(w, other)
    ensures if other in w.runs then RunOk(Dead(w, id), other) else NoRunOk(Dead(w, id), other)
  {
    DeadRun(w.runs[id]);
    hide View, Tagged, AsStored, KeyOf, StageFits, SoFar, SavedStatus, MoneyOf, ItemOf;
  }

  lemma AbandonRunKeepsInv(w: World, id: Id)
    requires Inv(w) && id in w.runs
    ensures Inv(Dead(w, id))
  {
    hide Inv, RunOk, NoRunOk, ItemOk, Owns;
    var after := Dead(w, id);
    forall other: Id
      ensures if other in after.runs then RunOk(after, other) else NoRunOk(after, other)
    {
      At(w, other);
      DeadRunOk(w, id, other);
    }
    DeadOwns(w.runs[id]);
    InvParts(w);
    InvOf(after);
  }

  lemma DeadOwns(r: Run)
    ensures forall res :: Owns(r.(alive := false), res) == Owns(r, res)
  {
    DeadRun(r);
  }

  lemma InvParts(w: World)
    requires Inv(w)
    ensures TasksOk(w.tasks, w.runs) && ReservationsOk(w.reservations, w.runs) && RunsOk(w) && ItemsOk(w.items, w.trace)
  {
  }

  lemma NextKeepsInv(w: World, step: Step)
    requires Inv(w)
    ensures Inv(Next(w, step))
  {
    hide Inv, CanMove, CanContinue, DoMove, DoContinue, DoAbandonResolve, DoResolve, DoGuide, DoSubmit;
    match step
    case Submit(task) => SubmitKeepsInv(w, task);
    case MoveRun(id, answers) => if CanMove(w, id, answers) { MoveKeepsInv(w, id, answers); }
    case AbandonRun(id) => if id in w.runs { AbandonRunKeepsInv(w, id); }
    case ResolveAction(tenantId, id, verdict) => ResolveKeepsInv(w, tenantId, id, verdict);
    case MoveResolve(id, success) => if CanContinue(w, id) { ContinueKeepsInv(w, id, success); }
    case AbandonResolve(id) => if CanContinue(w, id) { AbandonResolveKeepsInv(w, id); }
    case ResolveGuidance(tenantId, id, verdict) => GuideKeepsInv(w, tenantId, id, verdict);
    case Accept(k) => RepliesKeepInv(w, DoAutonomy(w, AcceptedOffer(k)), [AcceptedOffer(k)]);
    case Revoke(tenantId, taskType) =>
      RepliesKeepInv(w, DoAutonomy(w, RevokedAutonomy(tenantId, taskType)), [RevokedAutonomy(tenantId, taskType)]);
  }

  lemma {:induction false} ReachKeepsInv(offerThreshold: int, steps: seq<Step>)
    ensures Inv(Reach(offerThreshold, steps))
  {
    if steps != [] {
      ReachKeepsInv(offerThreshold, steps[..|steps| - 1]);
      NextKeepsInv(Reach(offerThreshold, steps[..|steps| - 1]), steps[|steps| - 1]);
    }
  }

  /** In every reachable world every task, item, reservation and row is where its run says it is. */
  lemma ReachableIsInOrder(w: World)
    requires IsReachable(w)
    ensures Inv(w)
  {
    var steps :| w == Reach(w.offerThreshold, steps);
    ReachKeepsInv(w.offerThreshold, steps);
  }
}
