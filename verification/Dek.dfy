/**
 * A tenant's data encryption key (DEK), stored only as ciphertext under the master key that was current when it was
 * made.
 */
module DekRecords {
  import opened Wrappers

  /** Ciphertext: the key inside, and the master key that made it. */
  datatype Blob = Blob(masterKey: Id, dek: Id)

  /** Decryption succeeds exactly under the master key that encrypted. */
  function Decrypt(masterKey: Id, blob: Blob): Option<Id> {
    if blob.masterKey == masterKey then Some(blob.dek) else None
  }

  function Encrypt(masterKey: Id, dek: Id): (blob: Blob)
    ensures Decrypt(masterKey, blob) == Some(dek)
  {
    Blob(masterKey, dek)
  }

  /** A key comes back under the master key that hid it and under no other. */
  lemma OnlyOwnKeyDecrypts(masterKey: Id, other: Id, dek: Id)
    ensures Decrypt(other, Encrypt(masterKey, dek)) == if other == masterKey then Some(dek) else None
  {
  }

  datatype DekError = Undecryptable | Vanished

  class DekRecordStore {
    var deks: map<Id, Blob>

    constructor ()
      ensures deks == map[]
    {
      deks := map[];
    }

    method Get(tenantId: Id) returns (blob: Option<Blob>)
      ensures blob == if tenantId in deks then Some(deks[tenantId]) else None
    {
      blob := if tenantId in deks then Some(deks[tenantId]) else None;
    }

    method PutIfAbsent(tenantId: Id, blob: Blob) returns (inserted: bool)
      modifies this
      ensures inserted <==> tenantId !in old(deks)
      ensures deks == if inserted then old(deks)[tenantId := blob] else old(deks)
    {
      inserted := tenantId !in deks;
      if inserted {
        deks := deks[tenantId := blob];
      }
    }

    method Replace(tenantId: Id, blob: Blob)
      modifies this
      ensures deks == old(deks)[tenantId := blob]
    {
      deks := deks[tenantId := blob];
    }
  }

  class DekStore {
    const masterKey: Id
    const store: DekRecordStore

    constructor (masterKey: Id, store: DekRecordStore)
      ensures this.masterKey == masterKey && this.store == store
    {
      this.masterKey, this.store := masterKey, store;
    }

    /**
     * `rival` is what another process inserts while this call encrypts its own candidate, if any does. Whoever
     * inserted, the key returned is the one inside the stored record afterwards, and a key already there is never
     * replaced.
     */
    method GetOrCreateDek(tenantId: Id, candidate: Id, rival: Option<Blob>) returns (r: Result<Id, DekError>)
      modifies store
      ensures tenantId in store.deks
      ensures r == (match Decrypt(masterKey, store.deks[tenantId])
                    case Some(dek) => Ok(dek)
                    case None => Err(Undecryptable))
      ensures store.deks == old(store.deks)[tenantId := if tenantId in old(store.deks) then old(store.deks)[tenantId]
                                                        else if rival.Some? then rival.value
                                                        else Encrypt(masterKey, candidate)]
    {
      var existing := store.Get(tenantId);
      if existing.Some? {
        r := DecryptOrThrow(existing.value);
        return;
      }
      var encrypted := Encrypt(masterKey, candidate);
      if rival.Some? {
        var _ := store.PutIfAbsent(tenantId, rival.value);
      }
      var inserted := store.PutIfAbsent(tenantId, encrypted);
      if inserted {
        return Ok(candidate);
      }
      var winner := store.Get(tenantId);
      if winner.None? {
        return Err(Vanished);
      }
      r := DecryptOrThrow(winner.value);
    }

    method DecryptOrThrow(blob: Blob) returns (r: Result<Id, DekError>)
      ensures r == (match Decrypt(masterKey, blob) case Some(dek) => Ok(dek) case None => Err(Undecryptable))
    {
      var dek := Decrypt(masterKey, blob);
      r := if dek.Some? then Ok(dek.value) else Err(Undecryptable);
    }

    /** Overwrites whatever is there with a key that decrypts. */
    method DiscardAndRecreateDek(tenantId: Id, candidate: Id) returns (dek: Id)
      modifies store
      ensures dek == candidate
      ensures store.deks.Keys == old(store.deks).Keys + {tenantId}
              && Decrypt(masterKey, store.deks[tenantId]) == Some(candidate)
      ensures forall t :: t in old(store.deks) && t != tenantId ==> store.deks[t] == old(store.deks)[t]
    {
      store.Replace(tenantId, Encrypt(masterKey, candidate));
      dek := candidate;
    }
  }
}

/** The create race: any number of calls over one record store, their awaits interleaving, with master keys rotating. */
module DekRace {
  import opened Wrappers
  import opened DekRecords

  datatype Stage =
    | Getting
    | Encrypting(dek: Id)
    | Putting(blob: Blob, dek: Id)
    | Regetting
    | Decrypting(blob: Blob)
    | ReEncrypting(dek: Id)
    | Replacing(blob: Blob, dek: Id)
    | Returned(r: Result<Id, DekError>)

  /** `since`: how many records the tenant had had when the call began. */
  datatype Call = Call(tenantId: Id, since: nat, stage: Stage)

  /** Every record a tenant has had, newest last; only the newest is stored. */
  datatype World = World(masterKey: Id, records: map<Id, seq<Blob>>, calls: map<Id, Call>)

  datatype Step =
    | BeginGetOrCreate(c: Id, tenantId: Id)
    | BeginRecreate(c: Id, tenantId: Id, dek: Id)
    | Move(c: Id, generated: Id)
    | Abandon(c: Id)
    | Rotate(masterKey: Id)

  function RecordsOf(w: World, tenantId: Id): seq<Blob> {
    if tenantId in w.records then w.records[tenantId] else []
  }

  function Current(w: World, tenantId: Id): Option<Blob> {
    var records := RecordsOf(w, tenantId);
    if records == [] then None else Some(records[|records| - 1])
  }

  function Outcome(masterKey: Id, blob: Blob): Result<Id, DekError> {
    match Decrypt(masterKey, blob) case Some(dek) => Ok(dek) case None => Err(Undecryptable)
  }

  function AfterMove(w: World, call: Call, generated: Id): Stage {
    match call.stage
    case Getting =>
      (match Current(w, call.tenantId) case Some(blob) => Decrypting(blob) case None => Encrypting(generated))
    case Encrypting(dek) => Putting(Encrypt(w.masterKey, dek), dek)
    case Putting(_, dek) => if Current(w, call.tenantId).None? then Returned(Ok(dek)) else Regetting
    case Regetting =>
      (match Current(w, call.tenantId) case Some(blob) => Decrypting(blob) case None => Returned(Err(Vanished)))
    case Decrypting(blob) => Returned(Outcome(w.masterKey, blob))
    case ReEncrypting(dek) => Replacing(Encrypt(w.masterKey, dek), dek)
    case Replacing(_, dek) => Returned(Ok(dek))
    case Returned(_) => call.stage
  }

  function RecordsAfter(w: World, call: Call): map<Id, seq<Blob>> {
    match call.stage
    case Putting(blob, _) => if Current(w, call.tenantId).None? then w.records[call.tenantId := [blob]] else w.records
    case Replacing(blob, _) => w.records[call.tenantId := RecordsOf(w, call.tenantId) + [blob]]
    case _ => w.records
  }

  function Next(w: World, step: Step): World {
    match step
    case BeginGetOrCreate(c, t) =>
      if c in w.calls then w else w.(calls := w.calls[c := Call(t, |RecordsOf(w, t)|, Getting)])
    case BeginRecreate(c, t, dek) =>
      if c in w.calls then w else w.(calls := w.calls[c := Call(t, |RecordsOf(w, t)|, ReEncrypting(dek))])
    case Move(c, generated) =>
      if c !in w.calls then w
      else w.(records := RecordsAfter(w, w.calls[c]),
              calls := w.calls[c := w.calls[c].(stage := AfterMove(w, w.calls[c], generated))])
    case Abandon(c) => w.(calls := w.calls - {c})
    case Rotate(masterKey) => w.(masterKey := masterKey)
  }

  function Boot(masterKey: Id): World {
    World(masterKey, map[], map[])
  }

  function Reach(masterKey: Id, steps: seq<Step>): World {
    if steps == [] then Boot(masterKey) else Next(Reach(masterKey, steps[..|steps| - 1]), steps[|steps| - 1])
  }

  /** A record that was the tenant's current one at some moment since the call began. */
  ghost predicate WasCurrent(w: World, call: Call, blob: Blob) {
    var records := RecordsOf(w, call.tenantId);
    exists v: nat :: call.since <= v + 1 <= |records| && records[v] == blob
  }

  ghost predicate HandedOut(w: World, call: Call, dek: Id) {
    exists blob :: WasCurrent(w, call, blob) && blob.dek == dek
  }

  ghost predicate CallOk(w: World, call: Call) {
    && call.since <= |RecordsOf(w, call.tenantId)|
    && match call.stage
       case Getting => true
       case Encrypting(_) => true
       case Putting(blob, dek) => blob.dek == dek
       case Regetting => RecordsOf(w, call.tenantId) != []
       case Decrypting(blob) => WasCurrent(w, call, blob)
       case ReEncrypting(_) => true
       case Replacing(blob, dek) => blob.dek == dek
       case Returned(r) => r != Err(Vanished) && (r.Ok? ==> HandedOut(w, call, r.value))
  }

  ghost predicate Inv(w: World) {
    forall c :: c in w.calls ==> CallOk(w, w.calls[c])
  }

  predicate RecordsGrow(w: World, after: World, t: Id) {
    RecordsOf(w, t) <= RecordsOf(after, t)
  }

  lemma GrowthKeepsCall(w: World, after: World, call: Call)
    requires CallOk(w, call) && RecordsGrow(w, after, call.tenantId)
    ensures CallOk(after, call)
  {
    match call.stage
    case Decrypting(blob) => GrowthKeepsCurrent(w, after, call, blob);
    case Returned(r) =>
      if r.Ok? {
        var blob :| WasCurrent(w, call, blob) && blob.dek == r.value;
        GrowthKeepsCurrent(w, after, call, blob);
      }
    case _ =>
  }

  lemma GrowthKeepsCurrent(w: World, after: World, call: Call, blob: Blob)
    requires WasCurrent(w, call, blob) && RecordsGrow(w, after, call.tenantId)
    ensures WasCurrent(after, call, blob)
  {
    var v: nat :| call.since <= v + 1 <= |RecordsOf(w, call.tenantId)| && RecordsOf(w, call.tenantId)[v] == blob;
    assert RecordsOf(after, call.tenantId)[v] == blob;
  }

  lemma CurrentIsCurrent(w: World, call: Call)
    requires call.since <= |RecordsOf(w, call.tenantId)| && Current(w, call.tenantId).Some?
    ensures WasCurrent(w, call, Current(w, call.tenantId).value)
  {
    assert RecordsOf(w, call.tenantId)[|RecordsOf(w, call.tenantId)| - 1] == Current(w, call.tenantId).value;
  }

  lemma MoveKeepsCall(w: World, c: Id, generated: Id)
    requires c in w.calls && CallOk(w, w.calls[c])
    ensures var after := Next(w, Move(c, generated)); CallOk(after, after.calls[c])
  {
    var call, after := w.calls[c], Next(w, Move(c, generated));
    match call.stage
    case Getting => if Current(w, call.tenantId).Some? { CurrentIsCurrent(w, call); }
    case Regetting => CurrentIsCurrent(w, call);
    case Putting(blob, dek) =>
      if Current(w, call.tenantId).None? {
        CurrentIsCurrent(after, after.calls[c]);
        assert HandedOut(after, after.calls[c], dek);
      }
    case Replacing(blob, dek) =>
      CurrentIsCurrent(after, after.calls[c]);
      assert HandedOut(after, after.calls[c], dek);
    case Decrypting(blob) =>
      assert WasCurrent(after, after.calls[c], blob);
    case Returned(r) =>
      if r.Ok? { assert HandedOut(w, call, r.value); }
    case _ =>
  }

  lemma NextKeepsInv(w: World, step: Step)
    requires Inv(w)
    ensures Inv(Next(w, step))
  {
    var after := Next(w, step);
    forall c | c in after.calls
      ensures CallOk(after, after.calls[c])
    {
      if step.Move? && step.c == c {
        MoveKeepsCall(w, c, step.generated);
      } else if c in w.calls {
        GrowthKeepsCall(w, after, w.calls[c]);
      }
    }
  }

  lemma {:induction false} ReachKeepsInv(masterKey: Id, steps: seq<Step>)
    ensures Inv(Reach(masterKey, steps))
  {
    if steps != [] {
      ReachKeepsInv(masterKey, steps[..|steps| - 1]);
      NextKeepsInv(Reach(masterKey, steps[..|steps| - 1]), steps[|steps| - 1]);
    }
  }

  /**
   * In every run, recreations and rotations included: the "vanished" error is never thrown, and a successful call
   * returns the key of a record that was the tenant's current one at some moment since the call began.
   */
  lemma CallsReturnCurrentKeys(masterKey: Id, steps: seq<Step>, c: Id)
    requires c in Reach(masterKey, steps).calls && Reach(masterKey, steps).calls[c].stage.Returned?
    ensures var w := Reach(masterKey, steps);
            var r := w.calls[c].stage.r;
            r != Err(Vanished) && (r.Ok? ==> HandedOut(w, w.calls[c], r.value))
  {
    ReachKeepsInv(masterKey, steps);
    assert CallOk(Reach(masterKey, steps), Reach(masterKey, steps).calls[c]);
  }

  /**
   * A call that has its record returns the key in it under the master key of the moment, and an error under another.
   */
  lemma DecryptsUnderCurrentKey(w: World, c: Id, generated: Id)
    requires c in w.calls && w.calls[c].stage.Decrypting?
    ensures var blob := w.calls[c].stage.blob;
            Next(w, Move(c, generated)).calls[c].stage
            == Returned(if blob.masterKey == w.masterKey then Ok(blob.dek) else Err(Undecryptable))
  {
  }

  // ---- Without recreation --------------------------------------------------------------------------------------

  predicate NeverRecreates(steps: seq<Step>) {
    forall i :: 0 <= i < |steps| ==> !steps[i].BeginRecreate?
  }

  ghost predicate OneRecord(w: World) {
    && (forall t :: t in w.records ==> |w.records[t]| == 1)
    && (forall c :: c in w.calls ==> !w.calls[c].stage.ReEncrypting? && !w.calls[c].stage.Replacing?)
  }

  lemma {:induction false} NoRecreationOneRecord(masterKey: Id, steps: seq<Step>)
    requires NeverRecreates(steps)
    ensures OneRecord(Reach(masterKey, steps))
  {
    if steps != [] {
      NoRecreationOneRecord(masterKey, steps[..|steps| - 1]);
    }
  }

  /**
   * The create race: with no recreation in the run, every successful call for a tenant, however many race and whatever
   * master key each finds, returns one and the same key, the one inside the stored record.
   */
  lemma RacersAgree(masterKey: Id, steps: seq<Step>, c: Id)
    requires NeverRecreates(steps) && c in Reach(masterKey, steps).calls
    requires Reach(masterKey, steps).calls[c].stage.Returned? && Reach(masterKey, steps).calls[c].stage.r.Ok?
    ensures var w := Reach(masterKey, steps);
            var t := w.calls[c].tenantId;
            Current(w, t).Some? && w.calls[c].stage.r.value == Current(w, t).value.dek
  {
    CallsReturnCurrentKeys(masterKey, steps, c);
    NoRecreationOneRecord(masterKey, steps);
    var w := Reach(masterKey, steps);
    var blob :| WasCurrent(w, w.calls[c], blob) && blob.dek == w.calls[c].stage.r.value;
  }

  /**
   * A recreation breaks that, and only within its own time: a call that begins after the last record was written agrees
   * with the stored record even then.
   */
  lemma LaterCallsAgree(masterKey: Id, steps: seq<Step>, c: Id)
    requires c in Reach(masterKey, steps).calls
    requires Reach(masterKey, steps).calls[c].stage.Returned? && Reach(masterKey, steps).calls[c].stage.r.Ok?
    requires var w := Reach(masterKey, steps); w.calls[c].since == |RecordsOf(w, w.calls[c].tenantId)| > 0
    ensures var w := Reach(masterKey, steps);
            w.calls[c].stage.r.value == Current(w, w.calls[c].tenantId).value.dek
  {
    CallsReturnCurrentKeys(masterKey, steps, c);
    var w := Reach(masterKey, steps);
    var blob :| WasCurrent(w, w.calls[c], blob) && blob.dek == w.calls[c].stage.r.value;
  }

  function First(): seq<Step> {
    [BeginGetOrCreate(0, 0)] + [Move(0, 7)] + [Move(0, 0)] + [Move(0, 0)]
  }

  function Overtaken(): seq<Step> {
    First() + [BeginRecreate(1, 0, 8)] + [Move(1, 0)] + [Move(1, 0)]
  }

  lemma Then(masterKey: Id, steps: seq<Step>, step: Step)
    ensures Reach(masterKey, steps + [step]) == Next(Reach(masterKey, steps), step)
  {
    assert (steps + [step])[..|steps + [step]| - 1] == steps;
  }

  /** One call, at some stage of creating the key of tenant 0. */
  function Creating(masterKey: Id, stage: Stage): World {
    World(masterKey, map[], map[0 := Call(0, 0, stage)])
  }

  lemma FirstCreates(masterKey: Id)
    ensures Next(Boot(masterKey), BeginGetOrCreate(0, 0)) == Creating(masterKey, Getting)
    ensures Next(Creating(masterKey, Getting), Move(0, 7)) == Creating(masterKey, Encrypting(7))
    ensures Next(Creating(masterKey, Encrypting(7)), Move(0, 0)) == Creating(masterKey, Putting(Blob(masterKey, 7), 7))
  {
    assert map[][0 := Call(0, 0, Getting)] == map[0 := Call(0, 0, Getting)];
    assert map[0 := Call(0, 0, Getting)][0 := Call(0, 0, Encrypting(7))] == map[0 := Call(0, 0, Encrypting(7))];
    var putting := Call(0, 0, Putting(Blob(masterKey, 7), 7));
    assert map[0 := Call(0, 0, Encrypting(7))][0 := putting] == map[0 := putting];
  }

  lemma FirstPuts(masterKey: Id)
    ensures var w := Next(Creating(masterKey, Putting(Blob(masterKey, 7), 7)), Move(0, 0));
            && w.masterKey == masterKey && w.records == map[0 := [Blob(masterKey, 7)]]
            && w.calls == map[0 := Call(0, 0, Returned(Ok(7)))]
  {
  }

  lemma FirstCaller(masterKey: Id)
    ensures var w := Reach(masterKey, First());
            && w.masterKey == masterKey && w.records == map[0 := [Blob(masterKey, 7)]]
            && w.calls == map[0 := Call(0, 0, Returned(Ok(7)))]
  {
    assert Reach(masterKey, []) == Boot(masterKey);
    assert [] + [BeginGetOrCreate(0, 0)] == [BeginGetOrCreate(0, 0)];
    hide Reach, Next, Boot;
    Then(masterKey, [], BeginGetOrCreate(0, 0));
    Then(masterKey, [BeginGetOrCreate(0, 0)], Move(0, 7));
    Then(masterKey, [BeginGetOrCreate(0, 0)] + [Move(0, 7)], Move(0, 0));
    Then(masterKey, [BeginGetOrCreate(0, 0)] + [Move(0, 7)] + [Move(0, 0)], Move(0, 0));
    FirstCreates(masterKey);
    FirstPuts(masterKey);
  }

  /** The smallest such run: a recreation overtakes a call that already has its key, and the two hold different keys. */
  lemma RecreationSplitsCallers(masterKey: Id)
    ensures var w := Reach(masterKey, Overtaken());
            && 0 in w.calls && w.calls[0] == Call(0, 0, Returned(Ok(7)))
            && 1 in w.calls && w.calls[1] == Call(0, 1, Returned(Ok(8)))
  {
    FirstCaller(masterKey);
    Then(masterKey, First(), BeginRecreate(1, 0, 8));
    Then(masterKey, First() + [BeginRecreate(1, 0, 8)], Move(1, 0));
    Then(masterKey, First() + [BeginRecreate(1, 0, 8)] + [Move(1, 0)], Move(1, 0));
    hide Reach, First;
  }
}
