/** OAuth credentials behind a Hands key: when one may be handed out, and what refreshing one does to its record. */
module CredentialRefresh {
  import opened Wrappers

  const EXPIRY_SAFETY_MARGIN_MS := 60_000

  /** A date that does not parse compares as never expired. */
  datatype Expiry = NoExpiry | Unparseable | ExpiresAt(ms: int)

  datatype Credential = Credential(accessToken: Id, refreshToken: Option<Id>, expiry: Expiry, scope: Option<Id>)

  predicate IsExpired(c: Credential, nowMs: int) {
    c.expiry.ExpiresAt? && c.expiry.ms - nowMs <= EXPIRY_SAFETY_MARGIN_MS
  }

  /** How the provider's refresh call ends. */
  datatype ProviderAnswer =
    | Refreshed(accessToken: Id, expiry: Expiry)
    | TokenRevoked
    | RefreshFailed
    | TimedOut
    | OtherError

  datatype RefreshError = RevokedByProvider | Failed | StoreFailed | AuditFailed

  /** A purged record has no credential. */
  datatype HandsRecord = HandsRecord(credential: Option<Credential>, revoked: bool)

  /** The provider is asked only with a refresh token in hand and a refresher for the service. */
  predicate AsksProvider(c: Credential, hasRefresher: bool) {
    c.refreshToken.Some? && hasRefresher
  }

  function RefreshedCredential(c: Credential, answer: ProviderAnswer): Credential
    requires answer.Refreshed?
  {
    Credential(answer.accessToken, c.refreshToken, answer.expiry, c.scope)
  }

  /** What the caller is told: the store's write, then the audit entry, may each throw over the provider's answer. */
  function RefreshResult(c: Credential, hasRefresher: bool, answer: ProviderAnswer, store: Link, auditUp: bool)
    : Result<Credential, RefreshError>
  {
    if !AsksProvider(c, hasRefresher) || !(answer.Refreshed? || answer == TokenRevoked) then Err(Failed)
    else if store != Heard then Err(StoreFailed)
    else if !auditUp then Err(AuditFailed)
    else if answer.Refreshed? then Ok(RefreshedCredential(c, answer))
    else Err(RevokedByProvider)
  }

  class HandsKeyStore {
    var records: map<Id, HandsRecord>

    constructor ()
      ensures records == map[]
    {
      records := map[];
    }

    method Revoke(keyId: Id, store: Link) returns (done: bool)
      requires keyId in records
      modifies this
      ensures done == (store == Heard)
      ensures records == if store == NotDone then old(records) else old(records)[keyId := HandsRecord(None, true)]
    {
      if store != NotDone {
        records := records[keyId := HandsRecord(None, true)];
      }
      done := store == Heard;
    }

    method Update(keyId: Id, credential: Credential, store: Link) returns (done: bool)
      requires keyId in records
      modifies this
      ensures done == (store == Heard)
      ensures records == if store == NotDone then old(records)
                         else old(records)[keyId := old(records)[keyId].(credential := Some(credential))]
    {
      if store != NotDone {
        records := records[keyId := records[keyId].(credential := Some(credential))];
      }
      done := store == Heard;
    }

    /**
     * A refresh changes its own record only, and that exactly when the provider answered and the store wrote: to
     * revoked when the provider said that the refresh token is dead, otherwise to the provider's new token under the
     * old refresh token and scope. A caller that is given a credential is given the one stored. A caller that gets an
     * error finds the record changed exactly when the provider revoked, the store's answer was lost, or the audit log
     * failed.
     */
    method PerformRefresh(keyId: Id, credential: Credential, hasRefresher: bool, answer: ProviderAnswer, store: Link,
                          auditUp: bool)
      returns (r: Result<Credential, RefreshError>)
      requires keyId in records && !records[keyId].revoked
      modifies this
      ensures r == RefreshResult(credential, hasRefresher, answer, store, auditUp)
      ensures forall k :: k != keyId ==>
                (k in records <==> k in old(records)) && (k in records ==> records[k] == old(records)[k])
      ensures keyId in records
      ensures records[keyId].revoked
              <==> AsksProvider(credential, hasRefresher) && answer == TokenRevoked && store != NotDone
      ensures AsksProvider(credential, hasRefresher) && answer.Refreshed? && store != NotDone ==>
                records[keyId] == HandsRecord(Some(RefreshedCredential(credential, answer)), false)
      ensures r.Ok? ==> records[keyId] == HandsRecord(Some(r.value), false) && r.value.accessToken == answer.accessToken
                        && r.value.refreshToken == credential.refreshToken && r.value.scope == credential.scope
      ensures r.Ok? <==> credential.refreshToken.Some? && hasRefresher && answer.Refreshed? && store == Heard && auditUp
      ensures r.Ok? ==>
                r.value == Credential(answer.accessToken, credential.refreshToken, answer.expiry, credential.scope)
      ensures r.Err? && (r.error == Failed || store == NotDone) ==> records == old(records)
      ensures r.Err? && r.error != Failed && store != NotDone ==>
                && r.error
                   == (if store == AnswerLost then StoreFailed else if !auditUp then AuditFailed else RevokedByProvider)
                && records[keyId] == (if answer == TokenRevoked then HandsRecord(None, true)
                                      else HandsRecord(Some(RefreshedCredential(credential, answer)), false))
    {
      if credential.refreshToken.None? {
        return Err(Failed);
      }
      if !hasRefresher {
        return Err(Failed);
      }
      match answer
      case TokenRevoked =>
        var done := Revoke(keyId, store);
        r := Err(if !done then StoreFailed else if !auditUp then AuditFailed else RevokedByProvider);
      case RefreshFailed => r := Err(Failed);
      case TimedOut => r := Err(Failed);
      case OtherError => r := Err(Failed);
      case Refreshed(accessToken, expiry) =>
        var refreshed := Credential(accessToken, credential.refreshToken, expiry, credential.scope);
        var done := Update(keyId, refreshed, store);
        r := if !done then Err(StoreFailed) else if !auditUp then Err(AuditFailed) else Ok(refreshed);
    }
  }
}

/** Single flight in one process: any number of decryptions, their refreshes shared per key. */
module SingleFlight {
  import opened Wrappers
  import opened CredentialRefresh

  datatype FlightStage = Calling | Settled(result: Result<Credential, RefreshError>)

  /** `finalized`: the promise's clean-up has taken it out of the map, after which those awaiting it go on. */
  datatype Flight = Flight(keyId: Id, credential: Credential, hasRefresher: bool, answer: ProviderAnswer,
                           stage: FlightStage, finalized: bool)

  /** What a decryption hands out, and why it may. */
  datatype Grant =
    | Stored(credential: Credential, checkedAt: int)
    | Joined(flight: Id, result: Result<Credential, RefreshError>)

  datatype CallerStage = Checking(credential: Credential) | Awaiting(flight: Id) | Done(grant: Grant)

  datatype Caller = Caller(keyId: Id, stage: CallerStage)

  datatype World = World(inFlight: map<Id, Id>, flights: map<Id, Flight>, callers: map<Id, Caller>)

  datatype Step =
    | ReadCredential(c: Id, keyId: Id, credential: Credential)
    | CheckExpiry(c: Id, nowMs: int, newFlight: Id, hasRefresher: bool)
    | Settle(f: Id, answer: ProviderAnswer, store: Link, auditUp: bool)
    | Finalize(f: Id)
    | Deliver(c: Id)
    | Abandon(c: Id)
    | Crash

  /** The expiry check and the join or start of a flight happen with no await between them. */
  function Check(w: World, c: Id, nowMs: int, newFlight: Id, hasRefresher: bool): World
    requires c in w.callers && w.callers[c].stage.Checking?
  {
    var Caller(keyId, Checking(credential)) := w.callers[c];
    if !IsExpired(credential, nowMs) then w.(callers := w.callers[c := Caller(keyId, Done(Stored(credential, nowMs)))])
    else if keyId in w.inFlight then w.(callers := w.callers[c := Caller(keyId, Awaiting(w.inFlight[keyId]))])
    else if newFlight in w.flights then w
    else World(w.inFlight[keyId := newFlight],
               w.flights[newFlight := Flight(keyId, credential, hasRefresher, OtherError, Calling, false)],
               w.callers[c := Caller(keyId, Awaiting(newFlight))])
  }

  function Next(w: World, step: Step): World {
    match step
    case ReadCredential(c, keyId, credential) =>
      if c in w.callers then w else w.(callers := w.callers[c := Caller(keyId, Checking(credential))])
    case CheckExpiry(c, nowMs, newFlight, hasRefresher) =>
      if c in w.callers && w.callers[c].stage.Checking? then Check(w, c, nowMs, newFlight, hasRefresher) else w
    case Settle(f, answer, store, auditUp) =>
      if !(f in w.flights && w.flights[f].stage.Calling?) then w
      else
        var flight := w.flights[f];
        var result := RefreshResult(flight.credential, flight.hasRefresher, answer, store, auditUp);
        w.(flights := w.flights[f := flight.(answer := answer, stage := Settled(result))])
    case Finalize(f) =>
      if !(f in w.flights && w.flights[f].stage.Settled? && !w.flights[f].finalized) then w
      else w.(flights := w.flights[f := w.flights[f].(finalized := true)],
              inFlight := w.inFlight - {w.flights[f].keyId})
    case Deliver(c) =>
      if !(c in w.callers && w.callers[c].stage.Awaiting?) then w
      else
        var f := w.callers[c].stage.flight;
        if f in w.flights && w.flights[f].finalized && w.flights[f].stage.Settled?
        then w.(callers := w.callers[c := w.callers[c].(stage := Done(Joined(f, w.flights[f].stage.result)))])
        else w
    case Abandon(c) => w.(callers := w.callers - {c})
    case Crash => Boot()
  }

  function Boot(): World {
    World(map[], map[], map[])
  }

  function Reach(steps: seq<Step>): World {
    if steps == [] then Boot() else Next(Reach(steps[..|steps| - 1]), steps[|steps| - 1])
  }

  /** A flight not yet taken out of the map is the one in the map for its key. */
  predicate FlightOk(w: World, f: Id)
    requires f in w.flights
  {
    var flight := w.flights[f];
    && (!flight.finalized ==> flight.keyId in w.inFlight && w.inFlight[flight.keyId] == f)
    && (flight.finalized ==> flight.stage.Settled?)
    && (flight.stage.Settled? && flight.stage.result.Ok? ==>
          flight.answer.Refreshed? && AsksProvider(flight.credential, flight.hasRefresher)
          && flight.stage.result.value == RefreshedCredential(flight.credential, flight.answer))
  }

  predicate EntryOk(w: World, keyId: Id)
    requires keyId in w.inFlight
  {
    w.inFlight[keyId] in w.flights && w.flights[w.inFlight[keyId]].keyId == keyId
      && !w.flights[w.inFlight[keyId]].finalized
  }

  predicate CallerOk(w: World, c: Id)
    requires c in w.callers
  {
    var Caller(keyId, stage) := w.callers[c];
    match stage
    case Checking(_) => true
    case Awaiting(f) => f in w.flights && w.flights[f].keyId == keyId
    case Done(Stored(credential, at)) => !IsExpired(credential, at)
    case Done(Joined(f, result)) =>
      f in w.flights && w.flights[f].keyId == keyId && w.flights[f].stage == Settled(result)
  }

  ghost predicate Inv(w: World) {
    && (forall f :: f in w.flights ==> FlightOk(w, f))
    && (forall k :: k in w.inFlight ==> EntryOk(w, k))
    && (forall c :: c in w.callers ==> CallerOk(w, c))
  }

  lemma CheckKeepsInv(w: World, c: Id, nowMs: int, newFlight: Id, hasRefresher: bool)
    requires Inv(w) && c in w.callers && w.callers[c].stage.Checking?
    ensures Inv(Check(w, c, nowMs, newFlight, hasRefresher))
  {
    var after, keyId := Check(w, c, nowMs, newFlight, hasRefresher), w.callers[c].keyId;
    assert keyId in w.inFlight ==> EntryOk(w, keyId);
    forall f | f in after.flights ensures FlightOk(after, f) { assert f in w.flights ==> FlightOk(w, f); }
    forall k | k in after.inFlight ensures EntryOk(after, k) { assert k in w.inFlight ==> EntryOk(w, k); }
    forall d | d in after.callers ensures CallerOk(after, d) { assert CallerOk(w, d); }
  }

  lemma FlightStepKeepsInv(w: World, step: Step)
    requires Inv(w) && (step.Settle? || step.Finalize?)
    ensures Inv(Next(w, step))
  {
    var after := Next(w, step);
    assert step.f in w.flights ==> FlightOk(w, step.f);
    forall f | f in after.flights ensures FlightOk(after, f) { assert FlightOk(w, f); }
    forall k | k in after.inFlight ensures EntryOk(after, k) { assert EntryOk(w, k); }
    forall d | d in after.callers ensures CallerOk(after, d) { assert CallerOk(w, d); }
  }

  lemma NextKeepsInv(w: World, step: Step)
    requires Inv(w)
    ensures Inv(Next(w, step))
  {
    match step
    case CheckExpiry(c, nowMs, f, hasRefresher) =>
      if c in w.callers && w.callers[c].stage.Checking? { CheckKeepsInv(w, c, nowMs, f, hasRefresher); }
    case Settle(_, _, _, _) => FlightStepKeepsInv(w, step);
    case Finalize(_) => FlightStepKeepsInv(w, step);
    case _ => CallerStepKeepsInv(w, step);
  }

  lemma CallerStepKeepsInv(w: World, step: Step)
    requires Inv(w) && (step.ReadCredential? || step.Deliver? || step.Abandon? || step.Crash?)
    ensures Inv(Next(w, step))
  {
    var after := Next(w, step);
    if !step.Crash? {
      assert step.c in w.callers ==> CallerOk(w, step.c);
      forall f | f in after.flights ensures FlightOk(after, f) { assert FlightOk(w, f); }
      forall k | k in after.inFlight ensures EntryOk(after, k) { assert EntryOk(w, k); }
      forall d | d in after.callers ensures CallerOk(after, d) { assert d in w.callers ==> CallerOk(w, d); }
    }
  }

  lemma {:induction false} ReachKeepsInv(steps: seq<Step>)
    ensures Inv(Reach(steps))
  {
    if steps != [] {
      ReachKeepsInv(steps[..|steps| - 1]);
      NextKeepsInv(Reach(steps[..|steps| - 1]), steps[|steps| - 1]);
    }
  }

  /** At most one refresh per key is between its start and its settling. */
  lemma AtMostOneRefreshPerKey(steps: seq<Step>, f: Id, g: Id)
    requires var w := Reach(steps);
             f in w.flights && g in w.flights && w.flights[f].keyId == w.flights[g].keyId
             && w.flights[f].stage.Calling? && w.flights[g].stage.Calling?
    ensures f == g
  {
    ReachKeepsInv(steps);
    assert FlightOk(Reach(steps), f) && FlightOk(Reach(steps), g);
  }

  /**
   * Fail-closed: a decryption hands out either the token of a stored credential that was outside the safety margin when
   * checked, or the very token the provider gave the flight it joined, which was for this key; and all who joined a
   * flight get the same outcome.
   */
  lemma GrantsAreFresh(steps: seq<Step>, c: Id, d: Id)
    requires var w := Reach(steps);
             c in w.callers && d in w.callers && w.callers[c].stage.Done? && w.callers[d].stage.Done?
    ensures var w := Reach(steps);
            var a, b := w.callers[c].stage.grant, w.callers[d].stage.grant;
            && (a.Stored? && a.credential.expiry.ExpiresAt? ==> a.credential.expiry.ms - a.checkedAt > 60_000)
            && (a.Joined? ==>
                  && a.flight in w.flights && w.flights[a.flight].keyId == w.callers[c].keyId
                  && (a.result.Ok? ==>
                        && w.flights[a.flight].answer.Refreshed?
                        && a.result.value == Credential(w.flights[a.flight].answer.accessToken,
                                                        w.flights[a.flight].credential.refreshToken,
                                                        w.flights[a.flight].answer.expiry,
                                                        w.flights[a.flight].credential.scope)))
            && (a.Joined? && b.Joined? && a.flight == b.flight ==> a.result == b.result)
  {
    ReachKeepsInv(steps);
    var w := Reach(steps);
    assert CallerOk(w, c) && CallerOk(w, d);
    if w.callers[c].stage.grant.Joined? {
      assert FlightOk(w, w.callers[c].stage.grant.flight);
    }
  }

  /** A caller that finds its credential expired while a refresh of its key is running joins that refresh. */
  lemma ExpiredCallersJoin(steps: seq<Step>, c: Id, f: Id, nowMs: int, newFlight: Id, hasRefresher: bool)
    requires var w := Reach(steps);
             && c in w.callers && w.callers[c].stage.Checking? && IsExpired(w.callers[c].stage.credential, nowMs)
             && f in w.flights && w.flights[f].keyId == w.callers[c].keyId && w.flights[f].stage.Calling?
    ensures var w := Reach(steps);
            Next(w, CheckExpiry(c, nowMs, newFlight, hasRefresher))
              == w.(callers := w.callers[c := Caller(w.callers[c].keyId, Awaiting(f))])
  {
    ReachKeepsInv(steps);
    assert FlightOk(Reach(steps), f);
  }
}

/** The process's own map of running refreshes: the parts of a decryption that run without an await between them. */
module RefreshingVault {
  import opened Wrappers
  import opened CredentialRefresh
  import opened SingleFlight

  class RefreshingVault {
    /** Per key, the promise that later callers join. */
    var inFlightRefreshes: map<Id, Id>
    var flights: map<Id, Flight>
    var callers: map<Id, Caller>

    constructor ()
      ensures Current() == Boot()
    {
      inFlightRefreshes, flights, callers := map[], map[], map[];
    }

    function Current(): World
      reads this
    {
      World(inFlightRefreshes, flights, callers)
    }

    /** The expiry check, and the join or start of a refresh; `newFlight` is the promise made if one is started. */
    method CheckExpiry(c: Id, nowMs: int, newFlight: Id, hasRefresher: bool)
      requires c in callers && callers[c].stage.Checking? && newFlight !in flights
      modifies this
      ensures Current() == Next(old(Current()), Step.CheckExpiry(c, nowMs, newFlight, hasRefresher))
      ensures var credential := old(callers)[c].stage.credential;
              c in callers &&
              if credential.expiry.ExpiresAt? && credential.expiry.ms - nowMs <= 60_000
              then callers[c].stage == Awaiting(if old(callers)[c].keyId in old(inFlightRefreshes)
                                                then old(inFlightRefreshes)[old(callers)[c].keyId] else newFlight)
              else callers[c].stage == Done(Stored(credential, nowMs))
    {
      var Caller(keyId, Checking(credential)) := callers[c];
      if IsExpired(credential, nowMs) {
        var inFlight := GetOrRefreshCredential(keyId, credential, newFlight, hasRefresher);
        callers := callers[c := Caller(keyId, Awaiting(inFlight))];
      } else {
        callers := callers[c := Caller(keyId, Done(Stored(credential, nowMs)))];
      }
    }

    method GetOrRefreshCredential(keyId: Id, credential: Credential, newFlight: Id, hasRefresher: bool)
      returns (inFlight: Id)
      requires newFlight !in flights
      modifies this`inFlightRefreshes, this`flights
      ensures inFlight == if keyId in old(inFlightRefreshes) then old(inFlightRefreshes)[keyId] else newFlight
      ensures inFlightRefreshes == old(inFlightRefreshes)[keyId := inFlight]
      ensures flights == if keyId in old(inFlightRefreshes) then old(flights)
                         else old(flights)[newFlight := Flight(keyId, credential, hasRefresher, OtherError, Calling,
                                                               false)]
    {
      if keyId in inFlightRefreshes {
        return inFlightRefreshes[keyId];
      }
      flights := flights[newFlight := Flight(keyId, credential, hasRefresher, OtherError, Calling, false)];
      inFlightRefreshes := inFlightRefreshes[keyId := newFlight];
      inFlight := newFlight;
    }

    /** The clean-up attached to the promise: it forgets the key, whatever stands under it. */
    method Finalize(f: Id)
      requires f in flights && flights[f].stage.Settled? && !flights[f].finalized
      modifies this
      ensures Current() == Next(old(Current()), Step.Finalize(f))
    {
      inFlightRefreshes := inFlightRefreshes - {flights[f].keyId};
      flights := flights[f := flights[f].(finalized := true)];
    }
  }
}
