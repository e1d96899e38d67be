/** Earned autonomy per tenant and task type, as a value and over the history of what humans did. */
module Autonomy {
  import opened Wrappers

  datatype TypeKey = TypeKey(tenantId: Id, taskType: Id)

  /** `offered`: an offer to go autonomous has been made and not withdrawn. */
  datatype AutonomyState = AutonomyState(consecutiveApprovals: nat, active: bool, offered: bool)

  const FRESH := AutonomyState(0, false, false)

  /** What can happen to one task type of one tenant; `denied` marks an approval of a deny-listed action. */
  datatype Op = Approved(denied: bool) | Rejected | SpotCheckRejected | OfferAccepted | Revoked

  predicate OffersNow(threshold: int, s: AutonomyState) {
    s.consecutiveApprovals + 1 == threshold && !s.active && !s.offered
  }

  function Apply(threshold: int, s: AutonomyState, op: Op): AutonomyState {
    match op
    case Approved(denied) =>
      if denied then s
      else s.(consecutiveApprovals := s.consecutiveApprovals + 1, offered := s.offered || OffersNow(threshold, s))
    case Rejected => s.(consecutiveApprovals := 0, offered := false)
    case SpotCheckRejected => FRESH
    case OfferAccepted => s.(active := s.active || s.offered)
    case Revoked => if s.active then FRESH else s
  }

  function After(threshold: int, ops: seq<Op>): AutonomyState {
    if ops == [] then FRESH else Apply(threshold, After(threshold, ops[..|ops| - 1]), ops[|ops| - 1])
  }

  /** Approvals of actions that may count. */
  function Approvals(ops: seq<Op>): nat {
    if ops == [] then 0 else Approvals(ops[..|ops| - 1]) + (if ops[|ops| - 1] == Approved(false) then 1 else 0)
  }

  predicate Unbroken(ops: seq<Op>) {
    Rejected !in ops && SpotCheckRejected !in ops
  }

  /**
   * Autonomy was earned: the threshold of approvals with no rejection between them, then a human accepting the offer,
   * and since then neither a rejected spot check nor a revocation.
   */
  ghost predicate Earned(threshold: int, ops: seq<Op>) {
    exists i: nat, j: nat :: EarnedAt(threshold, ops, i, j)
  }

  predicate EarnedAt(threshold: int, ops: seq<Op>, i: nat, j: nat) {
    && i <= j < |ops| && ops[j] == OfferAccepted
    && Unbroken(ops[i..j]) && threshold <= Approvals(ops[i..j])
    && SpotCheckRejected !in ops[j..] && Revoked !in ops[j..]
  }

  lemma EarnedStays(threshold: int, ops: seq<Op>, op: Op)
    requires Earned(threshold, ops) && op !in {SpotCheckRejected, Revoked}
    ensures Earned(threshold, ops + [op])
  {
    var i: nat, j: nat :| EarnedAt(threshold, ops, i, j);
    assert (ops + [op])[i..j] == ops[i..j];
    assert (ops + [op])[j..] == ops[j..] + [op];
    assert EarnedAt(threshold, ops + [op], i, j);
  }

  /** Counting starts anew after a rejection, and after a revocation of autonomy that was active. */
  predicate StartsAnew(threshold: int, ops: seq<Op>, from: nat)
    requires from <= |ops|
  {
    from == 0 || ops[from - 1] in {Rejected, SpotCheckRejected}
    || (ops[from - 1] == Revoked && After(threshold, ops[..from - 1]).active)
  }

  /**
   * The counter counts the approvals of the stretch since counting last started anew, an offer stands only when they
   * reach the threshold, and while inactive a count past the threshold always has its offer.
   */
  ghost predicate Streak(threshold: int, ops: seq<Op>, from: nat) {
    var s := After(threshold, ops);
    && from <= |ops| && Unbroken(ops[from..]) && s.consecutiveApprovals == Approvals(ops[from..])
    && StartsAnew(threshold, ops, from) && (forall k :: from < k <= |ops| ==> !StartsAnew(threshold, ops, k))
    && (s.offered ==> threshold <= s.consecutiveApprovals)
    && (1 <= threshold <= s.consecutiveApprovals && !s.active ==> s.offered)
  }

  lemma StreakGrows(threshold: int, ops: seq<Op>, op: Op, from: nat) returns (next: nat)
    requires Streak(threshold, ops, from)
    ensures Streak(threshold, ops + [op], next)
  {
    var all := ops + [op];
    assert all[..|all| - 1] == ops;
    if op in {Rejected, SpotCheckRejected} || (op == Revoked && After(threshold, ops).active) {
      next := |all|;
      assert all[next..] == [];
      assert all[..|ops|] == ops;
    } else {
      next := from;
      assert all[from..] == ops[from..] + [op];
      assert all[from..][..|all[from..]| - 1] == ops[from..];
      forall k: nat | k <= |ops|
        ensures StartsAnew(threshold, all, k) <==> StartsAnew(threshold, ops, k)
      {
        assert k > 0 ==> all[..k - 1] == ops[..k - 1];
      }
      assert all[..|ops|] == ops;
    }
  }

  lemma {:induction false} StreakOf(threshold: int, ops: seq<Op>) returns (from: nat)
    ensures Streak(threshold, ops, from)
  {
    if ops == [] {
      from := 0;
    } else {
      from := StreakOf(threshold, ops[..|ops| - 1]);
      from := StreakGrows(threshold, ops[..|ops| - 1], ops[|ops| - 1], from);
      assert ops[..|ops| - 1] + [ops[|ops| - 1]] == ops;
    }
  }

  /** Autonomy is active only when it was earned. */
  lemma {:induction false} ActiveIsEarned(threshold: int, ops: seq<Op>)
    requires After(threshold, ops).active
    ensures Earned(threshold, ops)
  {
    var before, op := ops[..|ops| - 1], ops[|ops| - 1];
    assert before + [op] == ops;
    if After(threshold, before).active {
      ActiveIsEarned(threshold, before);
      EarnedStays(threshold, before, op);
    } else {
      var from := StreakOf(threshold, before);
      assert before[from..] == ops[from..|ops| - 1];
      assert ops[|ops| - 1..] == [OfferAccepted];
      assert EarnedAt(threshold, ops, from, |ops| - 1);
    }
  }

  /** No offer is missed: an inactive task type with enough approvals in a row has a standing offer, and only then. */
  lemma OfferIffStreak(threshold: int, ops: seq<Op>)
    requires 1 <= threshold && !After(threshold, ops).active
    ensures After(threshold, ops).offered <==> threshold <= After(threshold, ops).consecutiveApprovals
    ensures exists from :: 0 <= from <= |ops| && Unbroken(ops[from..])
                           && After(threshold, ops).consecutiveApprovals == Approvals(ops[from..])
  {
    var from := StreakOf(threshold, ops);
  }

  /** The count, exactly: the approvals that may count since counting last started anew. */
  lemma CountInFull(threshold: int, ops: seq<Op>, from: nat)
    requires from <= |ops| && StartsAnew(threshold, ops, from)
    requires forall k :: from < k <= |ops| ==> !StartsAnew(threshold, ops, k)
    ensures After(threshold, ops).consecutiveApprovals == Approvals(ops[from..])
  {
    var _ := StreakOf(threshold, ops);
  }

  /** Exactly when autonomy is active: an offer that stood was accepted, and nothing has taken it back since. */
  lemma {:induction false} ActiveIff(threshold: int, ops: seq<Op>)
    ensures After(threshold, ops).active <==> exists j: nat :: IsAccepted(threshold, ops, j)
  {
    if ops != [] {
      var before, op := ops[..|ops| - 1], ops[|ops| - 1];
      ActiveIff(threshold, before);
      forall j: nat | j < |before|
        ensures IsAccepted(threshold, ops, j)
                <==> IsAccepted(threshold, before, j) && op !in {SpotCheckRejected, Revoked}
      {
        assert before[..j] == ops[..j] && ops[j..] == before[j..] + [op];
      }
      assert ops[|before|..] == [op];
      if op == OfferAccepted && After(threshold, before).offered {
        assert IsAccepted(threshold, ops, |before|);
      }
      if op == OfferAccepted && After(threshold, before).active {
        var j: nat :| IsAccepted(threshold, before, j);
        assert IsAccepted(threshold, ops, j);
      }
      if After(threshold, ops).active && After(threshold, before).active {
        var j: nat :| IsAccepted(threshold, before, j);
        assert IsAccepted(threshold, ops, j);
      }
    }
  }

  ghost predicate IsAccepted(threshold: int, ops: seq<Op>, j: nat) {
    && j < |ops| && ops[j] == OfferAccepted && After(threshold, ops[..j]).offered
    && SpotCheckRejected !in ops[j..] && Revoked !in ops[j..]
  }

  // ---- The store -----------------------------------------------------------------------------------------------

  function StateFor(states: map<TypeKey, AutonomyState>, key: TypeKey): AutonomyState {
    if key in states then states[key] else FRESH
  }

  class AutonomyStore {
    const offerThreshold: int
    var states: map<TypeKey, AutonomyState>

    constructor (offerThreshold: int)
      ensures this.offerThreshold == offerThreshold && states == map[]
    {
      this.offerThreshold := offerThreshold;
      states := map[];
    }

    /** What a reader of this task type sees after the call, every other task type being as it was. */
    twostate predicate Becomes(key: TypeKey, s: AutonomyState)
      reads this
    {
      forall k :: StateFor(states, k) == if k == key then s else StateFor(old(states), k)
    }

    method GetOrCreate(key: TypeKey) returns (state: AutonomyState)
      modifies this
      ensures Becomes(key, old(StateFor(states, key))) && key in states && state == states[key]
    {
      if key !in states {
        states := states[key := FRESH];
      }
      state := states[key];
    }

    method IsActive(key: TypeKey) returns (active: bool)
      modifies this
      ensures Becomes(key, old(StateFor(states, key))) && active == old(StateFor(states, key)).active
    {
      var state := GetOrCreate(key);
      active := state.active;
    }

    method RecordApproval(key: TypeKey, denied: bool) returns (offered: bool, consecutiveApprovals: nat)
      modifies this
      ensures Becomes(key, Apply(offerThreshold, old(StateFor(states, key)), Approved(denied)))
      ensures offered <==> StateFor(states, key).offered && !old(StateFor(states, key)).offered
      ensures consecutiveApprovals == StateFor(states, key).consecutiveApprovals
    {
      var state := GetOrCreate(key);
      if denied {
        return false, state.consecutiveApprovals;
      }
      state := state.(consecutiveApprovals := state.consecutiveApprovals + 1);
      offered := state.consecutiveApprovals == offerThreshold && !state.active && !state.offered;
      if offered {
        state := state.(offered := true);
      }
      states := states[key := state];
      consecutiveApprovals := state.consecutiveApprovals;
    }

    method RecordRejection(key: TypeKey)
      modifies this
      ensures Becomes(key, Apply(offerThreshold, old(StateFor(states, key)), Rejected))
    {
      var state := GetOrCreate(key);
      states := states[key := state.(consecutiveApprovals := 0, offered := false)];
    }

    /** False stands for the error thrown when no offer is pending. */
    method AcceptOffer(key: TypeKey) returns (accepted: bool)
      modifies this
      ensures accepted == old(StateFor(states, key)).offered
      ensures Becomes(key, if accepted then Apply(offerThreshold, old(StateFor(states, key)), OfferAccepted)
                           else old(StateFor(states, key)))
    {
      var state := GetOrCreate(key);
      accepted := state.offered;
      if accepted {
        states := states[key := state.(active := true)];
      }
    }

    method RecordSpotCheckRejection(key: TypeKey)
      modifies this
      ensures Becomes(key, Apply(offerThreshold, old(StateFor(states, key)), SpotCheckRejected))
    {
      var _ := GetOrCreate(key);
      states := states[key := AutonomyState(0, false, false)];
    }

    /** Revokes one task type of a tenant or, with none given, all of them; reports exactly those that were active. */
    method Revoke(tenantId: Id, taskType: Option<Id>) returns (revokedTaskTypes: set<Id>)
      modifies this
      ensures forall k :: StateFor(states, k) ==
                          (var was := StateFor(old(states), k);
                           if k.tenantId == tenantId && (taskType.None? || k.taskType == taskType.value)
                           then Apply(offerThreshold, was, Revoked) else was)
      ensures forall t :: t in revokedTaskTypes <==>
                          (taskType.None? || t == taskType.value) && StateFor(old(states), TypeKey(tenantId, t)).active
    {
      var targets: set<TypeKey>;
      if taskType.Some? {
        var _ := GetOrCreate(TypeKey(tenantId, taskType.value));
        targets := {TypeKey(tenantId, taskType.value)};
      } else {
        targets := set k | k in states && k.tenantId == tenantId && states[k].active;
      }
      ghost var all, was := targets, old(states);
      revokedTaskTypes := {};
      while targets != {}
        invariant targets <= all && forall k :: k in targets ==> k in states
        invariant forall k :: StateFor(states, k) == if k in all - targets
                    then Apply(offerThreshold, StateFor(was, k), Revoked)
                                                     else StateFor(was, k)
        invariant forall t :: t in revokedTaskTypes <==>
                              TypeKey(tenantId, t) in all - targets && StateFor(was, TypeKey(tenantId, t)).active
        decreases |targets|
      {
        var key :| key in targets;
        targets := targets - {key};
        if states[key].active {
          states := states[key := AutonomyState(0, false, false)];
          revokedTaskTypes := revokedTaskTypes + {key.taskType};
        }
      }
    }
  }
}
