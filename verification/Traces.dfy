/** Looking at a trace through one subject: a task's own events, or those of its item in the queue. */
module Traces {
  import opened Wrappers
  import opened Autonomy
  import opened TaskProtocol

  datatype Lens = RouterLens(id: Id) | QueueLens(id: Id)

  predicate IsRouterEvent(e: Event) {
    || e.Created? || e.Row? || e.GateAnswered? || e.Started? || e.Executed? || e.Settled? || e.Released?
    || e.AutonomyRead?
    || e.AutoApproved? || e.ActionQueued? || e.Recommended? || e.Returned?
  }

  predicate IsQueueEvent(e: Event) {
    || e.ActionQueued? || e.Recommended? || e.HumanVerdict? || e.EffectStarted? || e.EffectFinished?
    || e.ApprovalRecorded?
    || e.RejectionRecorded? || e.Audited? || e.Guidance?
  }

  predicate Sees(lens: Lens, e: Event) {
    match lens
    case RouterLens(id) => IsRouterEvent(e) && e.id == id
    case QueueLens(id) => IsQueueEvent(e) && e.id == id
  }

  function View(trace: seq<Event>, lens: Lens): seq<Event> {
    if trace == [] then []
    else
      var last := trace[|trace| - 1];
      View(trace[..|trace| - 1], lens) + if Sees(lens, last) then [last] else []
  }

  lemma {:induction false} ViewAppends(trace: seq<Event>, news: seq<Event>, lens: Lens)
    ensures View(trace + news, lens) == View(trace, lens) + View(news, lens)
  {
    if news == [] {
      assert trace + news == trace;
    } else {
      hide Sees;
      var before := news[..|news| - 1];
      ViewAppends(trace, before, lens);
      assert (trace + news)[..|trace + news| - 1] == trace + before;
    }
  }

  lemma {:induction false} ViewOfUnseen(news: seq<Event>, lens: Lens)
    requires forall e :: e in news ==> !Sees(lens, e)
    ensures View(news, lens) == []
  {
    if news != [] {
      ViewOfUnseen(news[..|news| - 1], lens);
    }
  }

  lemma {:induction false} ViewOfSeen(news: seq<Event>, lens: Lens)
    requires forall e :: e in news ==> Sees(lens, e)
    ensures View(news, lens) == news
  {
    if news != [] {
      ViewOfSeen(news[..|news| - 1], lens);
      assert news[..|news| - 1] + [news[|news| - 1]] == news;
    }
  }

  lemma {:induction false} ViewHolds(trace: seq<Event>, lens: Lens, e: Event)
    requires e in View(trace, lens)
    ensures e in trace && Sees(lens, e)
  {
    var before, last := trace[..|trace| - 1], trace[|trace| - 1];
    if e in View(before, lens) {
      ViewHolds(before, lens, e);
    } else {
      assert e == last;
    }
  }

  /** A seen event stands in the view right after what the view shows of the events before it. */
  lemma {:induction false} ViewAt(trace: seq<Event>, lens: Lens, i: nat)
    requires i < |trace| && Sees(lens, trace[i])
    ensures View(trace[..i], lens) + [trace[i]] <= View(trace, lens)
  {
    if i == |trace| - 1 {
      hide Sees;
      assert View(trace, lens) == View(trace[..i], lens) + [trace[i]];
    } else {
      var before := trace[..|trace| - 1];
      ViewAt(before, lens, i);
      assert before[..i] == trace[..i] && before[i] == trace[i];
    }
  }

  /** Two equal events of a view without repetitions are one and the same. */
  lemma SeenOnce(trace: seq<Event>, lens: Lens, i: nat, j: nat, p: nat)
    requires i < |trace| && j < |trace| && Sees(lens, trace[i]) && Sees(lens, trace[j])
    requires |View(trace[..i], lens)| == p == |View(trace[..j], lens)|
    ensures i == j
  {
    if i < j {
      SeenLater(trace, lens, i, j);
    } else if j < i {
      SeenLater(trace, lens, j, i);
    }
  }

  lemma SeenLater(trace: seq<Event>, lens: Lens, i: nat, j: nat)
    requires i < j < |trace| && Sees(lens, trace[i])
    ensures |View(trace[..i], lens)| < |View(trace[..j], lens)|
  {
    ViewAt(trace[..j], lens, i);
    assert trace[..j][..i] == trace[..i];
  }

  lemma NewsIsOwn(r: Run, w: Answers)
    requires StageFits(r)
    ensures forall e :: e in News(r, w) ==> IsRouterEvent(e) && e.id == r.task.id
  {
  }
}
