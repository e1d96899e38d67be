/** What the Redis error circuit breaker does with each event, and what that amounts to over whole runs. */
module BreakerSpec {
  import opened Wrappers

  datatype Options = Options(errorThreshold: int, windowMs: int, initialCooldownMs: int, maxCooldownMs: int)

  datatype State = State(errorTimestamps: seq<int>, cooldownMs: int, tripped: bool, resumedAt: Option<int>)

  function Start(o: Options): State {
    State([], o.initialCooldownMs, false, None)
  }

  /** The timestamps no older than the window at time `t`. */
  function Recent(ts: seq<int>, t: int, windowMs: int): seq<int> {
    if ts == [] then []
    else Recent(ts[..|ts| - 1], t, windowMs) + (if t - ts[|ts| - 1] <= windowMs then [ts[|ts| - 1]] else [])
  }

  /** The positions of errors no further back than the window. */
  function Within(ts: seq<int>, t: int, windowMs: int): set<int> {
    set i | 0 <= i < |ts| && t - ts[i] <= windowMs
  }

  lemma {:induction false} RecentInFull(ts: seq<int>, t: int, windowMs: int)
    ensures |Recent(ts, t, windowMs)| == |Within(ts, t, windowMs)|
    ensures forall x :: x in Recent(ts, t, windowMs) <==> x in ts && t - x <= windowMs
  {
    if ts != [] {
      var rest, last := ts[..|ts| - 1], |ts| - 1;
      RecentInFull(rest, t, windowMs);
      assert Within(ts, t, windowMs) == Within(rest, t, windowMs) + if t - ts[last] <= windowMs then {last} else {};
      assert ts == rest + [ts[last]];
    }
  }

  /** Tripping again before twice the last cooldown has passed since the resume: the pause then, and otherwise. */
  function PauseAfter(o: Options, resumedAt: Option<int>, cooldownMs: int, t: int): int {
    if resumedAt.Some? && t < resumedAt.value + 2 * cooldownMs
    then (if 2 * cooldownMs <= o.maxCooldownMs then 2 * cooldownMs else o.maxCooldownMs)
    else o.initialCooldownMs
  }

  /** What one error does: how many there must be, and for how long the worker then pauses. */
  lemma ErrorInFull(o: Options, s: State, t: int)
    ensures Trips(o, s, t) <==> !s.tripped && |Within(s.errorTimestamps + [t], t, o.windowMs)| >= o.errorThreshold
    ensures Trips(o, s, t) ==>
              OnError(o, s, t) == State([], PauseAfter(o, s.resumedAt, s.cooldownMs, t), true, s.resumedAt)
    ensures !Trips(o, s, t) ==>
              && OnError(o, s, t) == s.(errorTimestamps := OnError(o, s, t).errorTimestamps)
              && (s.tripped ==> OnError(o, s, t) == s)
              && (!s.tripped ==> forall x :: x in OnError(o, s, t).errorTimestamps <==>
                                               x in s.errorTimestamps + [t] && t - x <= o.windowMs)
  {
    RecentInFull(s.errorTimestamps + [t], t, o.windowMs);
    hide Recent, Within;
  }

  /** A trip of a run is recorded with its pause; a quick re-trip lengthens the streak by one, any other ends it. */
  lemma TripInFull(o: Options, w: Watch, t: int)
    requires Trips(o, w.state, t)
    ensures var quick := w.state.resumedAt.Some? && t < w.state.resumedAt.value + 2 * w.state.cooldownMs;
            Observe(o, w, Error(t)).trips
            == w.trips + [Trip(t, PauseAfter(o, w.state.resumedAt, w.state.cooldownMs, t),
                               if quick then w.quickRetrips + 1 else 0)]
  {
    ErrorInFull(o, w.state, t);
  }

  function Min(a: int, b: int): int { if a <= b then a else b }

  /** A trip this soon after the last resume means Redis is still unhealthy. */
  predicate IsQuickRetrip(s: State, t: int) {
    s.resumedAt.Some? && t - s.resumedAt.value < s.cooldownMs * 2
  }

  function NextCooldown(o: Options, s: State, t: int): int {
    if IsQuickRetrip(s, t) then Min(s.cooldownMs * 2, o.maxCooldownMs) else o.initialCooldownMs
  }

  predicate Trips(o: Options, s: State, t: int) {
    !s.tripped && |Recent(s.errorTimestamps + [t], t, o.windowMs)| >= o.errorThreshold
  }

  function OnError(o: Options, s: State, t: int): State {
    if s.tripped then s
    else if Trips(o, s, t) then State([], NextCooldown(o, s, t), true, s.resumedAt)
    else s.(errorTimestamps := Recent(s.errorTimestamps + [t], t, o.windowMs))
  }

  function OnResume(s: State, t: int): State {
    s.(tripped := false, resumedAt := Some(t))
  }

  // ---- Runs ----------------------------------------------------------------------------------------------------

  datatype Event = Error(at: int) | Resume(at: int)

  datatype Trip = Trip(at: int, cooldownMs: int, quickRetrips: nat)

  /**
   * A run so far: the breaker's state, the clock, the errors received since it last resumed, its trips, and how many
   * quick re-trips in a row led to the current cooldown.
   */
  datatype Watch = Watch(state: State, now: int, sinceResume: seq<int>, trips: seq<Trip>, quickRetrips: nat)

  function Observe(o: Options, w: Watch, e: Event): Watch {
    match e
    case Resume(t) => Watch(OnResume(w.state, t), t, [], w.trips, w.quickRetrips)
    case Error(t) =>
      var state := OnError(o, w.state, t);
      if w.state.tripped then w.(now := t)
      else if Trips(o, w.state, t) then
        var streak := if IsQuickRetrip(w.state, t) then w.quickRetrips + 1 else 0;
        Watch(state, t, [], w.trips + [Trip(t, state.cooldownMs, streak)], streak)
      else Watch(state, t, w.sinceResume + [t], w.trips, w.quickRetrips)
  }

  function Watching(o: Options, start: int, events: seq<Event>): Watch {
    if events == [] then Watch(Start(o), start, [], [], 0)
    else Observe(o, Watching(o, start, events[..|events| - 1]), events[|events| - 1])
  }

  /** The clock never goes back, and the one timer a trip sets never fires early. */
  predicate Timely(w: Watch, e: Event) {
    && w.now <= e.at
    && (e.Resume? ==>
          w.state.tripped && w.trips != [] && w.trips[|w.trips| - 1].at + w.trips[|w.trips| - 1].cooldownMs <= e.at)
  }

  predicate AllTimely(o: Options, start: int, events: seq<Event>) {
    forall i :: 0 <= i < |events| ==> Timely(Watching(o, start, events[..i]), events[i])
  }

  predicate Sensible(o: Options) {
    1 <= o.errorThreshold && 0 <= o.windowMs && 0 < o.initialCooldownMs <= o.maxCooldownMs
  }

  function Doubled(initial: int, k: nat): int {
    if k == 0 then initial else 2 * Doubled(initial, k - 1)
  }

  lemma {:induction false} DoubledGrows(initial: int, k: nat)
    requires 0 < initial
    ensures initial <= Doubled(initial, k)
  {
    if k > 0 {
      DoubledGrows(initial, k - 1);
    }
  }

  /** The backoff law: doubling from the initial cooldown at each quick re-trip, capped. */
  function Backoff(o: Options, k: nat): int {
    Min(Doubled(o.initialCooldownMs, k), o.maxCooldownMs)
  }

  /** Forgetting old timestamps early loses nothing: only recent ones can matter later. */
  lemma {:induction false} RecentOfRecent(ts: seq<int>, u: int, t: int, windowMs: int)
    requires u <= t
    ensures Recent(Recent(ts, u, windowMs), t, windowMs) == Recent(ts, t, windowMs)
  {
    if ts != [] {
      var rest := ts[..|ts| - 1];
      RecentOfRecent(rest, u, t, windowMs);
      var kept := Recent(rest, u, windowMs);
      assert (kept + [ts[|ts| - 1]])[..|kept|] == kept;
      assert kept + [] == kept;
    }
  }

  lemma RecentExtends(ts: seq<int>, x: int, t: int, windowMs: int)
    ensures Recent(ts + [x], t, windowMs) == Recent(ts, t, windowMs) + (if t - x <= windowMs then [x] else [])
  {
    assert (ts + [x])[..|ts|] == ts;
  }

  ghost predicate Inv(o: Options, w: Watch) {
    && (w.state.tripped ==> w.trips != [] && w.state.errorTimestamps == [] && w.sinceResume == [])
    && (exists u :: u <= w.now && w.state.errorTimestamps == Recent(w.sinceResume, u, o.windowMs))
    && |w.state.errorTimestamps| < o.errorThreshold
    && w.state.cooldownMs == Backoff(o, w.quickRetrips)
    && (forall i :: 0 <= i < |w.trips| ==> w.trips[i].cooldownMs == Backoff(o, w.trips[i].quickRetrips))
    && (forall i :: 0 < i < |w.trips| ==> w.trips[i - 1].at + w.trips[i - 1].cooldownMs <= w.trips[i].at)
    && (w.trips != [] ==>
          var last := w.trips[|w.trips| - 1];
          last.at <= w.now && last.cooldownMs == w.state.cooldownMs
            && (!w.state.tripped ==> last.at + last.cooldownMs <= w.now))
  }

  lemma ErrorKeepsInv(o: Options, w: Watch, t: int)
    requires Sensible(o) && Inv(o, w) && Timely(w, Error(t))
    ensures Inv(o, Observe(o, w, Error(t)))
    ensures Trips(o, w.state, t)
            <==> !w.state.tripped && |Recent(w.sinceResume + [t], t, o.windowMs)| >= o.errorThreshold
  {
    var u :| u <= w.now && w.state.errorTimestamps == Recent(w.sinceResume, u, o.windowMs);
    RecentOfRecent(w.sinceResume, u, t, o.windowMs);
    RecentExtends(w.state.errorTimestamps, t, t, o.windowMs);
    RecentExtends(w.sinceResume, t, t, o.windowMs);
    DoubledGrows(o.initialCooldownMs, w.quickRetrips);
    assert Recent([], t, o.windowMs) == [];
  }

  lemma {:induction false} RunsKeepInv(o: Options, start: int, events: seq<Event>)
    requires Sensible(o) && AllTimely(o, start, events)
    ensures Inv(o, Watching(o, start, events))
  {
    if events == [] {
      assert Recent([], start, o.windowMs) == [];
    } else {
      var before := events[..|events| - 1];
      assert forall i :: 0 <= i < |before| ==> before[..i] == events[..i];
      RunsKeepInv(o, start, before);
      var w, e := Watching(o, start, before), events[|events| - 1];
      match e
      case Error(t) => ErrorKeepsInv(o, w, t);
      case Resume(t) => assert Recent([], t, o.windowMs) == [];
    }
  }

  /** The watch over some timely run. */
  ghost predicate IsWatched(o: Options, w: Watch) {
    exists start, events :: AllTimely(o, start, events) && w == Watching(o, start, events)
  }

  lemma WatchedHolds(o: Options, w: Watch)
    requires Sensible(o) && IsWatched(o, w)
    ensures Inv(o, w)
  {
    var start, events :| AllTimely(o, start, events) && w == Watching(o, start, events);
    RunsKeepInv(o, start, events);
  }

  /**
   * When the breaker trips: exactly when it is not tripped already and at least `errorThreshold` of the errors received
   * since it last resumed, this one included, lie within the window. Between trips fewer than that are kept.
   */
  lemma TripsExactlyOnBursts(o: Options, w: Watch, t: int)
    requires Sensible(o) && IsWatched(o, w) && w.now <= t
    ensures Trips(o, w.state, t)
            <==> !w.state.tripped && |Within(w.sinceResume + [t], t, o.windowMs)| >= o.errorThreshold
    ensures |w.state.errorTimestamps| < o.errorThreshold
  {
    WatchedHolds(o, w);
    ErrorKeepsInv(o, w, t);
    RecentInFull(w.sinceResume + [t], t, o.windowMs);
  }

  /** After k quick re-trips in a row the worker stays paused for min(initial * 2^k, max). */
  lemma CooldownBacksOff(o: Options, w: Watch, i: nat)
    requires Sensible(o) && IsWatched(o, w) && i < |w.trips|
    ensures w.trips[i].cooldownMs == Min(Doubled(o.initialCooldownMs, w.trips[i].quickRetrips), o.maxCooldownMs)
  {
    WatchedHolds(o, w);
  }

  ghost predicate Spaced(trips: seq<Trip>, gap: int) {
    forall i :: 0 < i < |trips| ==> trips[i - 1].at + gap <= trips[i].at
  }

  lemma {:induction false} SpacedFar(trips: seq<Trip>, gap: int, i: nat, j: nat)
    requires Spaced(trips, gap) && i <= j < |trips|
    ensures (j - i) * gap <= trips[j].at - trips[i].at
    decreases j - i
  {
    if i < j {
      SpacedFar(trips, gap, i, j - 1);
      assert (j - i) * gap == (j - 1 - i) * gap + gap;
    }
  }

  lemma InvSpaces(o: Options, w: Watch)
    requires Sensible(o) && Inv(o, w)
    ensures Spaced(w.trips, o.initialCooldownMs)
  {
    forall i | 0 < i < |w.trips|
      ensures w.trips[i - 1].at + o.initialCooldownMs <= w.trips[i].at
    {
      assert w.trips[i - 1].at + w.trips[i - 1].cooldownMs <= w.trips[i].at;
      DoubledGrows(o.initialCooldownMs, w.trips[i - 1].quickRetrips);
    }
  }

  lemma TooManyForSpan(n: nat, c: int, span: nat)
    requires 0 < c && span / c < n
    ensures span < n * c
  {
    assert (span / c + 1) * c <= n * c;
  }

  /** An interval of length `span` holds at most span / initial + 1 trips: from trip i to trip j there are no more. */
  lemma TripsPerInterval(o: Options, w: Watch, i: nat, j: nat, span: nat)
    requires Sensible(o) && IsWatched(o, w) && i <= j < |w.trips| && w.trips[j].at - w.trips[i].at <= span
    ensures j - i + 1 <= span / o.initialCooldownMs + 1
  {
    hide IsWatched, Inv;
    WatchedHolds(o, w);
    InvSpaces(o, w);
    SpacedFar(w.trips, o.initialCooldownMs, i, j);
    if span / o.initialCooldownMs < j - i {
      TooManyForSpan(j - i, o.initialCooldownMs, span);
    }
  }

  // ---- The cap -------------------------------------------------------------------------------------------------

  /** The documented promise that backoff never exceeds the maximum. */
  ghost predicate NeverExceedsMax(o: Options) {
    forall w | IsWatched(o, w) :: StaysWithinMax(o, w)
  }

  predicate StaysWithinMax(o: Options, w: Watch) {
    forall i :: 0 <= i < |w.trips| ==> w.trips[i].cooldownMs <= o.maxCooldownMs
  }

  function Burst(n: nat): seq<Event> {
    if n == 0 then [] else Burst(n - 1) + [Error(0)]
  }

  function Zeros(n: nat): seq<int> {
    if n == 0 then [] else Zeros(n - 1) + [0]
  }

  lemma {:induction false} ZerosAreRecent(n: nat, windowMs: int)
    requires 0 <= windowMs
    ensures Recent(Zeros(n), 0, windowMs) == Zeros(n) && |Zeros(n)| == n
  {
    if n > 0 {
      ZerosAreRecent(n - 1, windowMs);
      RecentExtends(Zeros(n - 1), 0, 0, windowMs);
    }
  }

  function AfterBurst(o: Options, n: nat): Watch {
    if n < o.errorThreshold then Watch(State(Zeros(n), o.initialCooldownMs, false, None), 0, Zeros(n), [], 0)
    else Watch(State([], o.initialCooldownMs, true, None), 0, [], [Trip(0, o.initialCooldownMs, 0)], 0)
  }

  lemma BurstGrows(o: Options, n: nat)
    requires 1 <= o.errorThreshold && 0 <= o.windowMs && 0 < n <= o.errorThreshold
    ensures Observe(o, AfterBurst(o, n - 1), Error(0)) == AfterBurst(o, n)
  {
    ZerosAreRecent(n, o.windowMs);
    assert Zeros(n - 1) + [0] == Zeros(n);
    hide Recent, Zeros;
  }

  lemma {:induction false} BurstWatch(o: Options, n: nat)
    requires 1 <= o.errorThreshold && 0 <= o.windowMs && n <= o.errorThreshold
    ensures Watching(o, 0, Burst(n)) == AfterBurst(o, n)
  {
    if n > 0 {
      BurstWatch(o, n - 1);
      assert Burst(n)[..|Burst(n)| - 1] == Burst(n - 1);
      BurstGrows(o, n);
      hide Observe, AfterBurst;
    }
  }

  lemma {:induction false} BurstPrefix(n: nat, i: nat)
    requires i < n
    ensures |Burst(n)| == n && Burst(n)[..i] == Burst(i) && Burst(n)[i] == Error(0)
  {
    if i < n - 1 {
      BurstPrefix(n - 1, i);
      assert Burst(n)[..i] == Burst(n - 1)[..i];
    } else if n > 1 {
      BurstPrefix(n - 1, n - 2);
      assert Burst(n)[..i] == Burst(n - 1);
    }
  }

  lemma BurstIsTimely(o: Options, n: nat)
    requires 1 <= o.errorThreshold && 0 <= o.windowMs && n <= o.errorThreshold
    ensures AllTimely(o, 0, Burst(n))
  {
    if n > 0 {
      BurstPrefix(n, 0);
      hide Burst, Watching;
      forall i | 0 <= i < n
        ensures Timely(Watching(o, 0, Burst(n)[..i]), Burst(n)[i])
      {
        BurstPrefix(n, i);
        BurstWatch(o, i);
      }
    }
  }

  /**
   * The first cooldown is not clamped, so the promise holds exactly for configurations whose initial cooldown is within
   * the maximum.
   */
  lemma NeverExceedsMaxIff(o: Options)
    requires 1 <= o.errorThreshold && 0 <= o.windowMs && 0 < o.initialCooldownMs
    ensures NeverExceedsMax(o) <==> o.initialCooldownMs <= o.maxCooldownMs
  {
    if o.initialCooldownMs <= o.maxCooldownMs {
      hide IsWatched;
      forall w | IsWatched(o, w)
        ensures StaysWithinMax(o, w)
      {
        WatchedHolds(o, w);
      }
    } else {
      hide Watching, AllTimely, Burst;
      BurstWatch(o, o.errorThreshold);
      BurstIsTimely(o, o.errorThreshold);
      var w := Watching(o, 0, Burst(o.errorThreshold));
      assert IsWatched(o, w) && w.trips[0].cooldownMs > o.maxCooldownMs;
    }
  }
}

/** The breaker itself: four variables captured by the worker's error listener. */
module RedisErrorCircuitBreaker {
  import opened Wrappers
  import opened BreakerSpec

  class CircuitBreaker {
    const opts: Options
    var errorTimestamps: seq<int>
    var cooldownMs: int
    var tripped: bool
    var resumedAt: Option<int>

    constructor (opts: Options)
      ensures this.opts == opts && Current() == Start(opts)
    {
      this.opts := opts;
      errorTimestamps, cooldownMs, tripped, resumedAt := [], opts.initialCooldownMs, false, None;
    }

    function Current(): State
      reads this
    {
      State(errorTimestamps, cooldownMs, tripped, resumedAt)
    }

    /** The pause the worker is put into, if this error trips the breaker. */
    method HandleError(t: int) returns (pauseMs: Option<int>)
      modifies this
      ensures Current() == OnError(opts, old(Current()), t)
      ensures pauseMs == if Trips(opts, old(Current()), t) then Some(NextCooldown(opts, old(Current()), t)) else None
      ensures pauseMs.Some? <==>
                !old(tripped) && |Within(old(errorTimestamps) + [t], t, opts.windowMs)| >= opts.errorThreshold
      ensures pauseMs.Some? ==>
                tripped && pauseMs.value == PauseAfter(opts, old(resumedAt), old(cooldownMs), t) == cooldownMs
    {
      ErrorInFull(opts, Current(), t);
      hide Within;
      if tripped {
        return None;
      }
      var pushed := errorTimestamps + [t];
      var kept := [];
      for i := 0 to |pushed|
        invariant kept == Recent(pushed[..i], t, opts.windowMs)
        invariant Current() == old(Current())
      {
        assert pushed[..i + 1][..i] == pushed[..i];
        if t - pushed[i] <= opts.windowMs {
          kept := kept + [pushed[i]];
        }
      }
      assert pushed[..|pushed|] == pushed;
      errorTimestamps := kept;
      if |errorTimestamps| < opts.errorThreshold {
        return None;
      }
      if resumedAt.Some? && t - resumedAt.value < cooldownMs * 2 {
        cooldownMs := Min(cooldownMs * 2, opts.maxCooldownMs);
      } else {
        cooldownMs := opts.initialCooldownMs;
      }
      tripped := true;
      errorTimestamps := [];
      return Some(cooldownMs);
    }

    /** The timer set by a trip has fired. */
    method HandleResume(t: int)
      modifies this
      ensures Current() == OnResume(old(Current()), t)
      ensures !tripped && resumedAt == Some(t) && cooldownMs == old(cooldownMs)
    {
      tripped := false;
      resumedAt := Some(t);
    }
  }
}
