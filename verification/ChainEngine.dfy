/** Approval-gated chains: a fixed sequence of steps, one running at a time. Every operation returns a new chain. */
module ChainEngine {
  import opened Wrappers

  datatype StepStatus = StepPending | StepInProgress | StepCompleted | StepFailed | StepSkipped

  datatype ChainStep = ChainStep(id: Id, requiresApproval: bool, status: StepStatus, resultSummary: Option<string>)

  datatype ChainStatus = Running | AwaitingApproval | Completed | AbortedStale | Expired | Failed

  datatype Chain = Chain(steps: seq<ChainStep>, currentStepIndex: nat, status: ChainStatus, updatedAt: int,
                         expiresAt: int)

  datatype ChainError = NotRunnable | UnknownStep

  datatype Outcome = Outcome(stepId: Id, now: int, success: bool, resultSummary: Option<string>)

  datatype GateVerdict = Approve | Reject

  predicate IsTerminal(c: Chain) {
    c.status in {Completed, AbortedStale, Expired, Failed}
  }

  function NextRunnableStep(c: Chain): Option<ChainStep> {
    if IsTerminal(c) || c.status == AwaitingApproval || c.currentStepIndex >= |c.steps| then None
    else Some(c.steps[c.currentStepIndex])
  }

  /** The first step with this id. */
  function FindStep(steps: seq<ChainStep>, stepId: Id): (found: Option<ChainStep>)
    ensures found.Some? ==> found.value in steps && found.value.id == stepId
    ensures found.None? ==> forall i :: 0 <= i < |steps| ==> steps[i].id != stepId
  {
    if steps == [] then None else if steps[0].id == stepId then Some(steps[0]) else FindStep(steps[1..], stepId)
  }

  function WithStep(steps: seq<ChainStep>, stepId: Id, status: StepStatus, summary: Option<string>): (r: seq<ChainStep>)
    ensures |r| == |steps|
    ensures forall i :: 0 <= i < |steps| ==>
              r[i] == if steps[i].id == stepId then steps[i].(status := status, resultSummary := summary) else steps[i]
  {
    if steps == [] then []
    else
      var head := if steps[0].id == stepId then steps[0].(status := status, resultSummary := summary) else steps[0];
      [head] + WithStep(steps[1..], stepId, status, summary)
  }

  function AdvanceChain(c: Chain, o: Outcome): Result<Chain, ChainError> {
    if IsTerminal(c) then Err(NotRunnable)
    else
      match FindStep(c.steps, o.stepId)
      case None => Err(UnknownStep)
      case Some(step) =>
        if !o.success then
          Ok(c.(steps := WithStep(c.steps, o.stepId, StepFailed, o.resultSummary), status := Failed,
                updatedAt := o.now))
        else
          var steps := WithStep(c.steps, o.stepId, StepCompleted, o.resultSummary);
          if step.requiresApproval then Ok(c.(steps := steps, status := AwaitingApproval, updatedAt := o.now))
          else if c.currentStepIndex + 1 >= |c.steps|
          then Ok(c.(steps := steps, status := Completed, currentStepIndex := |c.steps|, updatedAt := o.now))
          else Ok(c.(steps := steps, currentStepIndex := c.currentStepIndex + 1, updatedAt := o.now))
  }

  function ResolveApprovalGate(c: Chain, verdict: GateVerdict, now: int,
                               conditionStillValid: bool): Result<Chain, ChainError>
  {
    if c.status != AwaitingApproval then Err(NotRunnable)
    else if !conditionStillValid then Ok(c.(status := AbortedStale, updatedAt := now))
    else if verdict == Reject then Ok(c.(status := Failed, updatedAt := now))
    else if c.currentStepIndex + 1 >= |c.steps|
    then Ok(c.(status := Completed, currentStepIndex := |c.steps|, updatedAt := now))
    else Ok(c.(status := Running, currentStepIndex := c.currentStepIndex + 1, updatedAt := now))
  }

  predicate IsChainExpired(c: Chain, now: int) {
    !IsTerminal(c) && now > c.expiresAt
  }

  function ExpireChain(c: Chain, now: int): Chain {
    if IsChainExpired(c, now) then c.(status := Expired, updatedAt := now) else c
  }

  // ---- Whole runs ----------------------------------------------------------------------------------------------

  /** What a driver does: report the runnable step's outcome, pass on a human verdict, or sweep for staleness. */
  datatype Event =
    | StepDone(success: bool, resultSummary: Option<string>, now: int)
    | Verdict(verdict: GateVerdict, conditionStillValid: bool, now: int)
    | Sweep(now: int)

  /** `approved` records the positions whose gate was approved while its condition still held. */
  datatype Driven = Driven(chain: Chain, approved: set<nat>)

  /** One event; an event the engine refuses changes nothing. */
  function Drive(d: Driven, e: Event): Driven {
    match e
    case StepDone(success, summary, now) =>
      (match NextRunnableStep(d.chain)
       case None => d
       case Some(step) =>
         match AdvanceChain(d.chain, Outcome(step.id, now, success, summary))
         case Err(_) => d
         case Ok(c) => d.(chain := c))
    case Verdict(verdict, stillValid, now) =>
      (match ResolveApprovalGate(d.chain, verdict, now, stillValid)
       case Err(_) => d
       case Ok(c) =>
         Driven(c, if verdict == Approve && stillValid then d.approved + {d.chain.currentStepIndex} else d.approved))
    case Sweep(now) => d.(chain := ExpireChain(d.chain, now))
  }

  function DriveAll(d: Driven, events: seq<Event>): Driven {
    if events == [] then d else Drive(DriveAll(d, events[..|events| - 1]), events[|events| - 1])
  }

  /** A new chain: nonempty, distinct step ids, nothing run yet. */
  ghost predicate IsNew(c: Chain) {
    && c.steps != [] && c.currentStepIndex == 0 && c.status == Running
    && (forall i, j :: 0 <= i < j < |c.steps| ==> c.steps[i].id != c.steps[j].id)
    && (forall i :: 0 <= i < |c.steps| ==> c.steps[i].status == StepPending)
  }

  /**
   * The chain is where a sequence should be: everything before the index completed and, where a gate stood, approved;
   * everything after it untouched; at the end exactly when completed.
   */
  ghost predicate WellPlaced(start: Chain, d: Driven) {
    var c, n := d.chain, |start.steps|;
    && |c.steps| == n && c.currentStepIndex <= n && c.expiresAt == start.expiresAt
    && (forall i :: 0 <= i < n ==>
          c.steps[i].id == start.steps[i].id && c.steps[i].requiresApproval == start.steps[i].requiresApproval)
    && (forall i :: 0 <= i < c.currentStepIndex ==>
                      c.steps[i].status == StepCompleted && (c.steps[i].requiresApproval ==> i in d.approved))
    && (forall i :: c.currentStepIndex < i < n ==> c.steps[i] == start.steps[i])
    && (forall i :: i in d.approved ==> i < c.currentStepIndex)
    && (c.status == Completed <==> c.currentStepIndex == n)
    && (c.status == Running ==> c.steps[c.currentStepIndex] == start.steps[c.currentStepIndex])
    && (c.status == AwaitingApproval ==>
          c.steps[c.currentStepIndex].status == StepCompleted && c.steps[c.currentStepIndex].requiresApproval)
  }

  lemma DriveKeepsPlace(start: Chain, d: Driven, e: Event)
    requires IsNew(start) && WellPlaced(start, d)
    ensures WellPlaced(start, Drive(d, e))
  {
    if e.StepDone? && NextRunnableStep(d.chain).Some? {
      var i := d.chain.currentStepIndex;
      assert d.chain.steps[i].id == start.steps[i].id;
      FindsOwnStep(d.chain.steps, i);
    }
  }

  lemma {:induction false} FindsOwnStep(steps: seq<ChainStep>, i: nat)
    requires i < |steps| && forall j, k :: 0 <= j < k < |steps| ==> steps[j].id != steps[k].id
    ensures FindStep(steps, steps[i].id) == Some(steps[i])
  {
    if i > 0 {
      FindsOwnStep(steps[1..], i - 1);
    }
  }

  /** In every run through the engine's own next step, the chain is well placed. */
  lemma {:induction false} RunsKeepPlace(start: Chain, events: seq<Event>)
    requires IsNew(start)
    ensures WellPlaced(start, DriveAll(Driven(start, {}), events))
  {
    if events != [] {
      RunsKeepPlace(start, events[..|events| - 1]);
      DriveKeepsPlace(start, DriveAll(Driven(start, {}), events[..|events| - 1]), events[|events| - 1]);
    }
  }

  /** The position after a step that is done for good: the next one, or the end. */
  function Onward(c: Chain): Chain {
    if c.currentStepIndex + 1 >= |c.steps| then c.(status := Completed, currentStepIndex := |c.steps|)
    else c.(status := Running, currentStepIndex := c.currentStepIndex + 1)
  }

  /**
   * Event by event: a running chain takes its current step's outcome, and waits, goes on or fails; a waiting one takes
   * a verdict, and goes stale if its condition no longer holds, fails if rejected, and goes on otherwise; either
   * expires at a sweep later than its expiry. Whatever changes is stamped with the event's time; nothing else changes
   * anything.
   */
  lemma DriveInFull(start: Chain, d: Driven, e: Event)
    requires IsNew(start) && WellPlaced(start, d)
    ensures var c, k, after := d.chain, d.chain.currentStepIndex, Drive(d, e).chain;
            match e
            case StepDone(success, summary, now) =>
              if c.status != Running then after == c
              else
                var done :=
                  c.steps[k].(status := if success then StepCompleted else StepFailed, resultSummary := summary);
                var told := c.(steps := c.steps[k := done], updatedAt := now);
                after == if !success then told.(status := Failed)
                         else if done.requiresApproval then told.(status := AwaitingApproval)
                         else Onward(told)
            case Verdict(verdict, stillValid, now) =>
              if c.status != AwaitingApproval then after == c
              else
                var told := c.(updatedAt := now);
                after == if !stillValid then told.(status := AbortedStale)
                         else if verdict == Reject then told.(status := Failed)
                         else Onward(told)
            case Sweep(now) =>
              after == if c.status in {Running, AwaitingApproval} && now > c.expiresAt
                       then c.(status := Expired, updatedAt := now) else c
  {
    var c, k := d.chain, d.chain.currentStepIndex;
    if e.StepDone? && c.status == Running {
      assert forall i, j :: 0 <= i < j < |c.steps| ==> c.steps[i].id != c.steps[j].id;
      AdvanceInFull(c, e.now, e.success, e.resultSummary);
    }
    hide AdvanceChain, WithStep, FindStep;
  }

  /** What the engine refuses, and with which error. */
  lemma RefusalsInFull(c: Chain, o: Outcome, verdict: GateVerdict, now: int, conditionStillValid: bool)
    ensures AdvanceChain(c, o) == Err(NotRunnable) <==> c.status in {Completed, AbortedStale, Expired, Failed}
    ensures AdvanceChain(c, o) == Err(UnknownStep) <==>
            && c.status !in {Completed, AbortedStale, Expired, Failed}
            && forall i :: 0 <= i < |c.steps| ==> c.steps[i].id != o.stepId
    ensures ResolveApprovalGate(c, verdict, now, conditionStillValid)
            == if c.status != AwaitingApproval then Err(NotRunnable)
               else if !conditionStillValid then Ok(c.(status := AbortedStale, updatedAt := now))
               else if verdict == Reject then Ok(c.(status := Failed, updatedAt := now))
               else Ok(Onward(c.(updatedAt := now)))
  {
    hide WithStep;
  }

  /** A report on the current step of a running chain. */
  lemma AdvanceInFull(c: Chain, now: int, success: bool, summary: Option<string>)
    requires c.status == Running && c.currentStepIndex < |c.steps|
    requires forall i, j :: 0 <= i < j < |c.steps| ==> c.steps[i].id != c.steps[j].id
    ensures var k := c.currentStepIndex;
            var done := c.steps[k].(status := if success then StepCompleted else StepFailed, resultSummary := summary);
            var told := c.(steps := c.steps[k := done], updatedAt := now);
            AdvanceChain(c, Outcome(c.steps[k].id, now, success, summary))
            == Ok(if !success then told.(status := Failed)
                  else if done.requiresApproval then told.(status := AwaitingApproval)
                  else Onward(told))
  {
    hide FindStep, WithStep;
    var k := c.currentStepIndex;
    var status := if success then StepCompleted else StepFailed;
    FindsOwnStep(c.steps, k);
    ReplacesOwnStep(c.steps, k, status, summary);
  }

  lemma ReplacesOwnStep(steps: seq<ChainStep>, k: nat, status: StepStatus, summary: Option<string>)
    requires k < |steps| && forall i, j :: 0 <= i < j < |steps| ==> steps[i].id != steps[j].id
    ensures WithStep(steps, steps[k].id, status, summary)
            == steps[k := steps[k].(status := status, resultSummary := summary)]
  {
  }

  function Remaining(c: Chain): nat {
    if IsTerminal(c) then 0
    else if c.currentStepIndex >= |c.steps| then 0
    else 2 * (|c.steps| - c.currentStepIndex) - (if c.status == AwaitingApproval then 1 else 0)
  }

  function EffectiveEvents(d: Driven, events: seq<Event>): nat {
    if events == [] then 0
    else
      var before := DriveAll(d, events[..|events| - 1]);
      EffectiveEvents(d, events[..|events| - 1]) + (if Drive(before, events[|events| - 1]) == before then 0 else 1)
  }

  /** Every event that changes anything brings the end nearer, and a terminal chain never changes again. */
  lemma DriveTerminates(start: Chain, d: Driven, e: Event)
    requires IsNew(start) && WellPlaced(start, d)
    ensures Drive(d, e) == d || Remaining(Drive(d, e).chain) < Remaining(d.chain)
    ensures IsTerminal(d.chain) ==> Drive(d, e) == d
  {
    if e.StepDone? && NextRunnableStep(d.chain).Some? {
      FindsOwnStep(d.chain.steps, d.chain.currentStepIndex);
    }
  }

  /** A chain of n steps changes at most 2n times, whatever the driver does. */
  lemma {:induction false} RunsAreShort(start: Chain, events: seq<Event>)
    requires IsNew(start)
    ensures EffectiveEvents(Driven(start, {}), events)
            + Remaining(DriveAll(Driven(start, {}), events).chain) <= 2 * |start.steps|
  {
    if events != [] {
      RunsAreShort(start, events[..|events| - 1]);
      RunsKeepPlace(start, events[..|events| - 1]);
      DriveTerminates(start, DriveAll(Driven(start, {}), events[..|events| - 1]), events[|events| - 1]);
    }
  }

  /**
   * The reports that leave a well-placed chain well placed: on the current step, or again on an approved gate while one
   * waits.
   */
  predicate IsSafeReport(c: Chain, j: nat, success: bool)
    requires j < |c.steps|
  {
    || j == c.currentStepIndex
    || (success && c.status == AwaitingApproval && j < c.currentStepIndex && c.steps[j].requiresApproval)
  }

  lemma AdvancedChain(start: Chain, d: Driven, j: nat, o: Outcome)
    requires IsNew(start) && WellPlaced(start, d) && !IsTerminal(d.chain) && j < |d.chain.steps|
             && o.stepId == d.chain.steps[j].id
    ensures AdvanceChain(d.chain, o).Ok?
    ensures var after, c := AdvanceChain(d.chain, o).value, d.chain;
            && var status := if o.success then StepCompleted else StepFailed;
            && after.steps == c.steps[j := c.steps[j].(status := status, resultSummary := o.resultSummary)]
            && after.expiresAt == c.expiresAt
            && if !o.success then after.status == Failed && after.currentStepIndex == c.currentStepIndex
               else if c.steps[j].requiresApproval
               then after.status == AwaitingApproval && after.currentStepIndex == c.currentStepIndex
               else after.currentStepIndex == c.currentStepIndex + 1
                    && after.status == if c.currentStepIndex + 1 == |c.steps| then Completed else c.status
  {
    var c := d.chain;
    assert forall i, k :: 0 <= i < k < |c.steps| ==> c.steps[i].id != c.steps[k].id;
    FindsOwnStep(c.steps, j);
  }

  lemma SafeReportKeepsPlace(start: Chain, d: Driven, j: nat, o: Outcome)
    requires IsNew(start) && WellPlaced(start, d) && !IsTerminal(d.chain) && j < |d.chain.steps|
             && o.stepId == d.chain.steps[j].id
    requires IsSafeReport(d.chain, j, o.success) && AdvanceChain(d.chain, o).Ok?
    ensures WellPlaced(start, d.(chain := AdvanceChain(d.chain, o).value))
  {
    AdvancedChain(start, d, j, o);
    hide AdvanceChain;
  }

  lemma UnsafeReportMisplaces(start: Chain, d: Driven, j: nat, o: Outcome)
    requires IsNew(start) && WellPlaced(start, d) && !IsTerminal(d.chain) && j < |d.chain.steps|
             && o.stepId == d.chain.steps[j].id
    requires !IsSafeReport(d.chain, j, o.success) && AdvanceChain(d.chain, o).Ok?
    ensures !WellPlaced(start, d.(chain := AdvanceChain(d.chain, o).value))
  {
    AdvancedChain(start, d, j, o);
    hide AdvanceChain;
    var after, k := AdvanceChain(d.chain, o).value, d.chain.currentStepIndex;
    assert after.steps[k] == d.chain.steps[k];
    if j > k {
      assert after.steps[j] != start.steps[j];
    }
  }

  /**
   * Calling advanceChain directly, with any step's id, is safe exactly for the current step: a success report for
   * another step misplaces the chain unless it repeats an already approved gate while a gate is waiting, and a failure
   * report for another step always does.
   */
  lemma DirectAdvanceIsSafeIff(start: Chain, d: Driven, j: nat, o: Outcome)
    requires IsNew(start) && WellPlaced(start, d) && !IsTerminal(d.chain) && j < |d.chain.steps|
             && o.stepId == d.chain.steps[j].id
    ensures AdvanceChain(d.chain, o).Ok?
    ensures WellPlaced(start, d.(chain := AdvanceChain(d.chain, o).value)) <==> IsSafeReport(d.chain, j, o.success)
  {
    AdvancedChain(start, d, j, o);
    hide WellPlaced, AdvanceChain;
    if IsSafeReport(d.chain, j, o.success) {
      SafeReportKeepsPlace(start, d, j, o);
    } else {
      UnsafeReportMisplaces(start, d, j, o);
    }
  }
}
