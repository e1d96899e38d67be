/** One agent run with just-in-time Hands tools, and the list of services it had to do without. */
module HandsExecutor {
  import opened Wrappers
  import opened TaskProtocol

  /** A tool of the catalog; its claim, sub-agent and scope, is fixed where it is written. */
  datatype HandsToolSpec = HandsToolSpec(subAgentId: Id, capabilityScope: Id, service: Id)

  /** How one call of a tool ends. Only the first two that fail before the tool runs are reported back. */
  datatype LiveOutcome = NotConnected | DecryptFailed | LookupThrew | HandleExpired | InvokeFailed | InvokeSucceeded

  /** A call of the `tool`-th tool offered; the framework has nothing to call for any other number. */
  datatype ToolCall = ToolCall(tool: nat, outcome: LiveOutcome)

  predicate HandsFailed(o: LiveOutcome) {
    o in {NotConnected, DecryptFailed, LookupThrew, HandleExpired}
  }

  predicate IsReported(o: LiveOutcome) {
    o in {NotConnected, DecryptFailed}
  }

  /** Connected keys, by sub-agent and scope. */
  type Connections = set<(Id, Id)>

  predicate IsConnected(spec: HandsToolSpec, connected: Connections) {
    (spec.subAgentId, spec.capabilityScope) in connected
  }

  /** The tools the agent sees: its own, and only those whose key is connected. */
  function Offered(catalog: seq<HandsToolSpec>, subAgentId: Id, connected: Connections): (r: seq<HandsToolSpec>)
    ensures forall spec :: spec in r <==> spec in catalog && spec.subAgentId == subAgentId
                                          && (spec.subAgentId, spec.capabilityScope) in connected
  {
    if catalog == [] then []
    else
      var last := catalog[|catalog| - 1];
      Offered(catalog[..|catalog| - 1], subAgentId, connected)
        + if last.subAgentId == subAgentId && IsConnected(last, connected) then [last] else []
  }

  predicate MissingBefore(catalog: seq<HandsToolSpec>, subAgentId: Id, connected: Connections, service: Id) {
    exists spec :: spec in catalog && spec.subAgentId == subAgentId && !IsConnected(spec, connected)
      && spec.service == service
  }

  /** Some tool of the sub-agent has a key whose lookup throws. */
  predicate LookupThrows(catalog: seq<HandsToolSpec>, subAgentId: Id, throwing: Connections) {
    exists spec :: spec in catalog && spec.subAgentId == subAgentId && IsConnected(spec, throwing)
  }

  predicate MissingDuring(tools: seq<HandsToolSpec>, calls: seq<ToolCall>, service: Id) {
    exists call :: call in calls && call.tool < |tools| && IsReported(call.outcome)
      && tools[call.tool].service == service
  }

  predicate NoDuplicates(s: seq<Id>) {
    forall i, j :: 0 <= i < j < |s| ==> s[i] != s[j]
  }

  /** The wrapper around one tool: which service to report missing, if any, and whether the agent sees an error. */
  method CallHandsTool(spec: HandsToolSpec, outcome: LiveOutcome) returns (missing: Option<Id>, isError: bool)
    ensures missing == if outcome in {NotConnected, DecryptFailed} then Some(spec.service) else None
    ensures isError <==> outcome != InvokeSucceeded
  {
    match outcome
    case LookupThrew => return None, true;
    case NotConnected => return Some(spec.service), true;
    case DecryptFailed => return Some(spec.service), true;
    case HandleExpired => return None, true;
    case InvokeFailed => return None, true;
    case InvokeSucceeded => return None, false;
  }

  /**
   * Looks up the key of each of the sub-agent's tools, all at once, and splits them by connection before the agent sees
   * anything. One lookup that throws fails the whole.
   */
  method Preflight(catalog: seq<HandsToolSpec>, subAgentId: Id, connected: Connections, throwing: Connections)
    returns (ok: bool, customTools: seq<HandsToolSpec>, missingHands: seq<Id>)
    ensures ok <==> !LookupThrows(catalog, subAgentId, throwing)
    ensures ok ==> customTools == Offered(catalog, subAgentId, connected)
    ensures ok ==> forall service :: service in missingHands <==> MissingBefore(catalog, subAgentId, connected, service)
  {
    customTools, missingHands := [], [];
    for i := 0 to |catalog|
      invariant customTools == Offered(catalog[..i], subAgentId, connected)
      invariant forall service :: service in missingHands
                  <==> MissingBefore(catalog[..i], subAgentId, connected, service)
      invariant !LookupThrows(catalog[..i], subAgentId, throwing)
    {
      var spec := catalog[i];
      OneMoreSpec(catalog, i, subAgentId, connected);
      OneMoreLookup(catalog, i, subAgentId, throwing);
      hide Offered, MissingBefore, IsConnected, LookupThrows;
      if spec.subAgentId == subAgentId {
        if IsConnected(spec, throwing) {
          return false, [], [];
        }
        if IsConnected(spec, connected) {
          customTools := customTools + [spec];
        } else {
          missingHands := missingHands + [spec.service];
        }
      }
    }
    assert catalog[..|catalog|] == catalog;
    ok := true;
  }

  lemma OneMoreLookup(catalog: seq<HandsToolSpec>, i: nat, subAgentId: Id, throwing: Connections)
    requires i < |catalog|
    ensures LookupThrows(catalog[..i + 1], subAgentId, throwing) <==>
            || LookupThrows(catalog[..i], subAgentId, throwing)
            || (catalog[i].subAgentId == subAgentId && IsConnected(catalog[i], throwing))
    ensures catalog[i].subAgentId == subAgentId && IsConnected(catalog[i], throwing) ==>
              LookupThrows(catalog, subAgentId, throwing)
  {
    assert catalog[..i + 1] == catalog[..i] + [catalog[i]];
  }

  lemma OneMoreSpec(catalog: seq<HandsToolSpec>, i: nat, subAgentId: Id, connected: Connections)
    requires i < |catalog|
    ensures var spec := catalog[i];
            && Offered(catalog[..i + 1], subAgentId, connected) == Offered(catalog[..i], subAgentId, connected)
                 + (if spec.subAgentId == subAgentId && IsConnected(spec, connected) then [spec] else [])
            && forall service :: MissingBefore(catalog[..i + 1], subAgentId, connected, service) <==>
                 || MissingBefore(catalog[..i], subAgentId, connected, service)
                 || (spec.subAgentId == subAgentId && !IsConnected(spec, connected) && spec.service == service)
  {
    assert catalog[..i + 1][..i] == catalog[..i] && catalog[..i + 1] == catalog[..i] + [catalog[i]];
    hide Offered;
    forall service
      ensures MissingBefore(catalog[..i + 1], subAgentId, connected, service) <==>
              || MissingBefore(catalog[..i], subAgentId, connected, service)
              || (catalog[i].subAgentId == subAgentId && !IsConnected(catalog[i], connected)
                  && catalog[i].service == service)
    {
    }
  }

  /** Each value once, where it first occurs. */
  method Unique(s: seq<Id>) returns (r: seq<Id>)
    ensures NoDuplicates(r) && forall x :: x in r <==> x in s
    ensures |r| > 0 <==> |s| > 0
  {
    r := [];
    for i := 0 to |s|
      invariant NoDuplicates(r) && forall x :: x in r <==> x in s[..i]
    {
      if s[i] !in r {
        r := r + [s[i]];
      }
    }
    assert s[..|s|] == s;
    if |s| > 0 { assert s[0] in r; }
    if |r| > 0 { assert r[0] in s; }
  }

  /** Everything outside one execution: its keys at pre-flight, what the agent calls, what the model answers. */
  datatype AgentRun = AgentRun(brainAvailable: bool, hasHandsVault: bool, catalog: seq<HandsToolSpec>, subAgentId: Id,
                               connected: Connections, throwing: Connections, calls: seq<ToolCall>,
                               answer: Result<Text, Text>)

  function ToolsOf(run: AgentRun): seq<HandsToolSpec> {
    if run.hasHandsVault then Offered(run.catalog, run.subAgentId, run.connected) else []
  }

  /** A service the agent had to do without: not connected before, or found missing by a call. */
  predicate IsMissing(run: AgentRun, service: Id) {
    || (run.hasHandsVault && MissingBefore(run.catalog, run.subAgentId, run.connected, service))
    || MissingDuring(ToolsOf(run), run.calls, service)
  }

  ghost predicate NothingMissing(run: AgentRun) {
    forall service :: !IsMissing(run, service)
  }

  /** What an execution comes to; Err stands for a rejected promise. */
  ghost predicate Yields(run: AgentRun, r: Result<ExecutionOutcome, Text>) {
    if !run.brainAvailable then r.Ok? && r.value.Failure?
    else if run.hasHandsVault && LookupThrows(run.catalog, run.subAgentId, run.throwing) then r.Err?
    else if run.answer.Err? then r == Ok(Failure(run.answer.error))
    else
      && r.Ok? && r.value.Success? && r.value.result == run.answer.value && r.value.costUsd.None?
      && NoDuplicates(r.value.missingHands)
      && forall service :: service in r.value.missingHands <==> IsMissing(run, service)
  }

  /**
   * Whatever tools the agent calls, in whatever order: the run fails, or its outcome lists exactly the services that
   * were not connected when it began and those a call found unconnected or could not decrypt, each once.
   */
  method Execute(run: AgentRun) returns (outcome: Result<ExecutionOutcome, Text>, customTools: seq<HandsToolSpec>)
    ensures Yields(run, outcome)
    ensures outcome.Ok? && run.brainAvailable ==> customTools == ToolsOf(run)
  {
    customTools := [];
    if !run.brainAvailable {
      return Ok(Failure(0)), customTools;
    }
    var missingHands: seq<Id> := [];
    if run.hasHandsVault {
      var ok;
      ok, customTools, missingHands := Preflight(run.catalog, run.subAgentId, run.connected, run.throwing);
      if !ok {
        return Err(0), [];
      }
    }
    ghost var before := missingHands;
    var calls := run.calls;
    for i := 0 to |calls|
      invariant forall service :: service in missingHands
                  <==> service in before || MissingDuring(customTools, calls[..i], service)
    {
      assert calls[..i + 1] == calls[..i] + [calls[i]];
      if calls[i].tool < |customTools| {
        var missing, _ := CallHandsTool(customTools[calls[i].tool], calls[i].outcome);
        if missing.Some? {
          missingHands := missingHands + [missing.value];
        }
      }
    }
    assert calls[..|calls|] == calls;
    if run.answer.Err? {
      return Ok(Failure(run.answer.error)), customTools;
    }
    var uniqueMissingHands := Unique(missingHands);
    outcome := Ok(Success(run.answer.value, None, uniqueMissingHands));
  }

  // ---- Draft mode ----------------------------------------------------------------------------------------------

  /** Every call whose Hands key failed has its service on the list. */
  predicate AllFailuresListed(tools: seq<HandsToolSpec>, calls: seq<ToolCall>, missingHands: seq<Id>) {
    forall call :: call in calls && call.tool < |tools| && HandsFailed(call.outcome) ==>
      tools[call.tool].service in missingHands
  }

  /** A failure nobody reports: the lookup threw, or the handle expired before it was used. */
  predicate Escapes(tools: seq<HandsToolSpec>, calls: seq<ToolCall>, call: ToolCall) {
    && call in calls && call.tool < |tools| && call.outcome in {LookupThrew, HandleExpired}
    && !MissingDuring(tools, calls, tools[call.tool].service)
  }

  /**
   * The list misses a failed key exactly when a call escapes on a service that was not missing anyway: the wrapper
   * catches an absent key and a failed decryption, but neither a lookup that throws nor a handle that expires before
   * use.
   */
  lemma FailuresListedIff(catalog: seq<HandsToolSpec>, subAgentId: Id, connected: Connections, calls: seq<ToolCall>,
                          missingHands: seq<Id>)
    requires var tools := Offered(catalog, subAgentId, connected);
             forall service :: service in missingHands <==>
                                 MissingBefore(catalog, subAgentId, connected, service)
                                   || MissingDuring(tools, calls, service)
    ensures var tools := Offered(catalog, subAgentId, connected);
            AllFailuresListed(tools, calls, missingHands) <==>
            forall call :: Escapes(tools, calls, call) ==>
              MissingBefore(catalog, subAgentId, connected, tools[call.tool].service)
  {
    hide Offered, MissingBefore;
    var tools := Offered(catalog, subAgentId, connected);
    forall call | call in calls && call.tool < |tools| && HandsFailed(call.outcome)
      ensures IsReported(call.outcome) ==> MissingDuring(tools, calls, tools[call.tool].service)
      ensures !IsReported(call.outcome) ==>
                Escapes(tools, calls, call) || MissingDuring(tools, calls, tools[call.tool].service)
    {
    }
  }

  /**
   * The smallest such run: one connected tool, whose only call throws on its lookup or finds its handle expired, leaves
   * the list empty.
   */
  lemma ThrowingLookupGoesUnlisted(spec: HandsToolSpec, outcome: LiveOutcome)
    requires outcome in {LookupThrew, HandleExpired}
    ensures var connected, calls := {(spec.subAgentId, spec.capabilityScope)}, [ToolCall(0, outcome)];
            && Offered([spec], spec.subAgentId, connected) == [spec] && HandsFailed(outcome)
            && !AllFailuresListed([spec], calls, [])
            && forall service ::
                 !MissingBefore([spec], spec.subAgentId, connected, service) && !MissingDuring([spec], calls, service)
  {
    assert [spec][..0] == [];
    assert ToolCall(0, outcome) in [ToolCall(0, outcome)];
  }

  /** The router takes a rejected execution for a failed one. */
  function Caught(r: Result<ExecutionOutcome, Text>): ExecutionOutcome {
    if r.Ok? then r.value else Failure(r.error)
  }

  /** The effect the task's action would carry into the approval queue. */
  function EffectProposed(t: Submission, r: Result<ExecutionOutcome, Text>): Option<Effect> {
    if Caught(r).Success? then ActionOf(t, Caught(r)).effect else None
  }

  /** A tool the agent called could not use its key. */
  predicate KeyFailed(run: AgentRun) {
    exists call :: call in run.calls && call.tool < |ToolsOf(run)| && HandsFailed(call.outcome)
  }

  /**
   * Draft mode, end to end: whatever was connected and whatever the agent called, if any tool of the sub-agent was
   * unconnected at pre-flight or any call found its key missing or undecryptable, the task proposes no effect.
   */
  lemma MissingHandsMeanDraft(run: AgentRun, r: Result<ExecutionOutcome, Text>, t: Submission, service: Id)
    requires Yields(run, r) && IsMissing(run, service)
    ensures EffectProposed(t, r).None?
  {
    if Caught(r).Success? {
      assert service in r.value.missingHands;
    }
  }

  /**
   * Exactly when a run proposes the effect asked of it: it succeeds, is not the CEO's, and had nothing missing. So a
   * failed key leaves the effect in place exactly when its call escapes the wrapper and nothing else was missing
   * either.
   */
  lemma DraftModeFailsIff(run: AgentRun, r: Result<ExecutionOutcome, Text>, t: Submission)
    requires Yields(run, r) && t.input.effect.Some?
    ensures EffectProposed(t, r) ==
            if Caught(r).Success? && t.input.promptTier != Ceo && NothingMissing(run) then t.input.effect else None
    ensures Caught(r).Success? && t.input.promptTier != Ceo ==>
              (KeyFailed(run) && EffectProposed(t, r).Some? <==>
               NothingMissing(run) && exists call :: Escapes(ToolsOf(run), run.calls, call))
  {
    if Caught(r).Success? {
      ProposesIffNothingMissing(run, r, t);
      if NothingMissing(run) {
        OnlyEscapesFail(run);
      }
    }
  }

  lemma ProposesIffNothingMissing(run: AgentRun, r: Result<ExecutionOutcome, Text>, t: Submission)
    requires Yields(run, r) && Caught(r).Success? && t.input.effect.Some?
    ensures EffectProposed(t, r).Some? <==> t.input.promptTier != Ceo && NothingMissing(run)
  {
    hide IsMissing;
    if r.value.missingHands != [] {
      assert r.value.missingHands[0] in r.value.missingHands;
    }
  }

  lemma OnlyEscapesFail(run: AgentRun)
    requires NothingMissing(run)
    ensures KeyFailed(run) <==> exists call :: Escapes(ToolsOf(run), run.calls, call)
  {
    hide ToolsOf;
    var tools := ToolsOf(run);
    assert forall service :: !MissingDuring(tools, run.calls, service) by {
      assert forall service :: MissingDuring(tools, run.calls, service) ==> IsMissing(run, service);
    }
    if call :| call in run.calls && call.tool < |tools| && HandsFailed(call.outcome) {
      assert !MissingDuring(tools, run.calls, tools[call.tool].service);
      assert Escapes(tools, run.calls, call);
    }
  }
}
