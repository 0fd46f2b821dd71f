/**
 The sliding-window limiters: per-key lists of admission times that are pruned
 at every check. They are proved against the full admission history, which the
 code never keeps.
 */
module RateLimit {
  // Limits and windows, in seconds, of the limiters in the program.
  const MAX_MESSAGES_PER_MINUTE := 30
  const MAX_CONNECTIONS_PER_MINUTE := 10
  const MAX_UPLOADS_PER_MINUTE := 5
  const MAX_UPLOADS_PER_SESSION := 20
  const SETUP_RATE_LIMIT := 3
  const LOGIN_RATE_LIMIT := 5
  const PORTAL_MAX_ATTEMPTS := 5
  const MINUTE := 60.0
  const LOGIN_RATE_WINDOW := 300.0
  const PORTAL_WINDOW := 900.0

  /** The times still inside the window at `now`. */
  function Pruned(ts: seq<real>, now: real, window: real): seq<real> {
    if ts == [] then []
    else Pruned(ts[..|ts| - 1], now, window) + if now - ts[|ts| - 1] < window then [ts[|ts| - 1]] else []
  }

  predicate Nondecreasing(ts: seq<real>) { forall i, j :: 0 <= i < j < |ts| ==> ts[i] <= ts[j] }

  predicate UpTo(ts: seq<real>, clock: real) { Nondecreasing(ts) && forall i :: 0 <= i < |ts| ==> ts[i] <= clock }

  /** `stored` is the history without a prefix that no later check can see. */
  predicate Tracks(stored: seq<real>, past: seq<real>, clock: real, window: real) {
    && UpTo(past, clock)
    && |stored| <= |past| && stored == past[|past| - |stored|..]
    && forall i :: 0 <= i < |past| - |stored| ==> clock - past[i] >= window
  }

  /** Any `limit` + 1 consecutive admissions span at least one window. */
  predicate Spaced(past: seq<real>, limit: nat, window: real) {
    forall i :: 0 <= i < |past| - limit ==> past[i + limit] - past[i] >= window
  }

  /** How many of the times lie in the half-open interval from `lo` to `hi`. */
  function CountIn(ts: seq<real>, lo: real, hi: real): nat {
    if ts == [] then 0
    else CountIn(ts[..|ts| - 1], lo, hi) + if lo <= ts[|ts| - 1] < hi then 1 else 0
  }

  function Get(m: map<string, seq<real>>, key: string): seq<real> { if key in m then m[key] else [] }

  // ---- Pruning loses nothing that a later check could count ----

  lemma {:induction false} PruneOfSuffix(ts: seq<real>, k: nat, now: real, window: real)
    requires k <= |ts| && forall i :: 0 <= i < k ==> now - ts[i] >= window
    ensures Pruned(ts[k..], now, window) == Pruned(ts, now, window)
    decreases |ts|
  {
    if k < |ts| {
      PruneOfSuffix(ts[..|ts| - 1], k, now, window);
      assert ts[k..][..|ts| - k - 1] == ts[..|ts| - 1][k..];
    } else if k > 0 {
      PruneOfSuffix(ts[..|ts| - 1], k - 1, now, window);
      assert ts[..|ts| - 1][k - 1..] == [] && ts[k..] == [];
    }
  }

  lemma {:induction false} PruneKeepsYoung(ts: seq<real>, now: real, window: real)
    requires forall i :: 0 <= i < |ts| ==> now - ts[i] < window
    ensures Pruned(ts, now, window) == ts
  {
    if ts != [] {
      PruneKeepsYoung(ts[..|ts| - 1], now, window);
      assert ts == ts[..|ts| - 1] + [ts[|ts| - 1]];
    }
  }

  /** How many times at the front of a nondecreasing list have left the window. */
  function Expired(ts: seq<real>, now: real, window: real): (n: nat)
    requires Nondecreasing(ts)
    ensures n <= |ts|
    ensures forall i :: 0 <= i < n ==> now - ts[i] >= window
    ensures forall i :: n <= i < |ts| ==> now - ts[i] < window
  {
    if ts == [] || now - ts[|ts| - 1] >= window then |ts|
    else Expired(ts[..|ts| - 1], now, window)
  }

  /** On a nondecreasing list pruning drops a prefix of old times and nothing else. */
  lemma {:induction false} PruneIsSuffix(ts: seq<real>, now: real, window: real)
    requires Nondecreasing(ts)
    ensures var p := Pruned(ts, now, window);
            && |p| <= |ts| && p == ts[|ts| - |p|..]
            && (forall i :: 0 <= i < |ts| - |p| ==> now - ts[i] >= window)
            && (forall i :: |ts| - |p| <= i < |ts| ==> now - ts[i] < window)
  {
    var n := Expired(ts, now, window);
    PruneOfSuffix(ts, n, now, window);
    PruneKeepsYoung(ts[n..], now, window);
  }

  /** At every instant from now on, checking the stored list is checking the whole history. */
  lemma {:induction false} StoredAgreesWithHistory(stored: seq<real>, past: seq<real>, clock: real,
                                                   now: real, window: real)
    requires Tracks(stored, past, clock, window) && clock <= now
    ensures Pruned(stored, now, window) == Pruned(past, now, window)
  {
    var k := |past| - |stored|;
    forall i | 0 <= i < k
      ensures now - past[i] >= window
    {
      assert clock - past[i] >= window;
    }
    PruneOfSuffix(past, k, now, window);
    assert stored == past[k..];
  }

  /** The places of the times that are less than one window old. */
  ghost function Young(past: seq<real>, now: real, window: real): set<nat> {
    set i: nat | i < |past| && now - past[i] < window
  }

  lemma {:induction false} PrunedCounts(past: seq<real>, now: real, window: real)
    ensures |Pruned(past, now, window)| == |Young(past, now, window)|
  {
    if past != [] {
      var front, last := past[..|past| - 1], |past| - 1;
      PrunedCounts(front, now, window);
      assert Young(past, now, window) == Young(front, now, window) + if now - past[last] < window then {last} else {};
    }
  }

  lemma PruneTracks(stored: seq<real>, past: seq<real>, clock: real, now: real, window: real)
    requires Tracks(stored, past, clock, window) && clock <= now
    ensures Tracks(Pruned(stored, now, window), past, now, window)
  {
    StoredAgreesWithHistory(stored, past, clock, now, window);
    PruneIsSuffix(past, now, window);
  }

  /** What no later check can see stays out of sight. */
  lemma TracksLater(stored: seq<real>, past: seq<real>, clock: real, later: real, window: real)
    requires Tracks(stored, past, clock, window) && clock <= later
    ensures Tracks(stored, past, later, window)
  {
  }

  lemma AdmitTracks(stored: seq<real>, past: seq<real>, clock: real, at: real, window: real)
    requires Tracks(stored, past, clock, window) && clock <= at
    ensures Tracks(stored + [at], past + [at], at, window)
  {
    var past' := past + [at];
    forall i, j | 0 <= i < j < |past'|
      ensures past'[i] <= past'[j]
    {
      assert j < |past| ==> past[i] <= past[j];
      assert past[i] <= clock;
    }
  }

  lemma AdmitIsSpaced(past: seq<real>, now: real, at: real, limit: nat, window: real)
    requires Nondecreasing(past) && Spaced(past, limit, window) && now <= at
    requires |Pruned(past, now, window)| < limit
    ensures Spaced(past + [at], limit, window)
  {
    PruneIsSuffix(past, now, window);
    var past' := past + [at];
    forall i | 0 <= i < |past'| - limit
      ensures past'[i + limit] - past'[i] >= window
    {
      if i + limit < |past| {
        assert past[i + limit] - past[i] >= window;
      } else {
        assert now - past[i] >= window;
      }
    }
  }

  /** An admission for one key, made when there was room, leaves every key's admissions spaced. */
  lemma OneMoreIsSpaced(h: map<string, seq<real>>, h': map<string, seq<real>>, key: string, now: real, at: real,
                        limit: nat, window: real)
    requires forall k :: Spaced(Get(h, k), limit, window)
    requires h' == h[key := Get(h, key) + [at]]
    requires Nondecreasing(Get(h, key)) && now <= at && |Pruned(Get(h, key), now, window)| < limit
    ensures forall k :: Spaced(Get(h', k), limit, window)
  {
    AdmitIsSpaced(Get(h, key), now, at, limit, window);
    forall k
      ensures Spaced(Get(h', k), limit, window)
    {
      assert k != key ==> Get(h', k) == Get(h, k);
    }
  }

  lemma SpacedHoldsFew(past: seq<real>, now: real, limit: nat, window: real)
    requires UpTo(past, now) && Spaced(past, limit, window)
    ensures |Pruned(past, now, window)| <= limit
  {
    PruneIsSuffix(past, now, window);
    var n := |past| - |Pruned(past, now, window)|;
    forall i | 0 <= i < |past| - limit
      ensures now - past[i] >= window
    {
      assert past[i + limit] - past[i] >= window;
    }
    assert n == |past| || now - past[n] < window;
  }

  /** A refused check is admitted again exactly when the oldest counted time has left the window. */
  lemma ResetIsExact(past: seq<real>, now: real, t: real, limit: nat, window: real)
    requires UpTo(past, now) && Spaced(past, limit, window) && 0 < limit <= |Pruned(past, now, window)| && now <= t
    ensures |Pruned(past, t, window)| < limit <==> t >= now + (window - (now - Pruned(past, now, window)[0]))
    ensures 0.0 < window - (now - Pruned(past, now, window)[0])
  {
    SpacedHoldsFew(past, now, limit, window);
    PruneIsSuffix(past, now, window);
    PruneIsSuffix(past, t, window);
    var oldest := |past| - limit;
    assert Pruned(past, now, window)[0] == past[oldest];
  }

  // ---- No window ever holds more than `limit` admissions ----

  lemma {:induction false} NoneBelow(ts: seq<real>, lo: real, hi: real)
    requires forall i :: 0 <= i < |ts| ==> ts[i] < lo
    ensures CountIn(ts, lo, hi) == 0
  {
    if ts != [] {
      NoneBelow(ts[..|ts| - 1], lo, hi);
    }
  }

  lemma {:induction false} CountSplit(ts: seq<real>, k: nat, lo: real, hi: real)
    requires k <= |ts|
    ensures CountIn(ts, lo, hi) <= CountIn(ts[..k], lo, hi) + |ts| - k
    decreases |ts|
  {
    if k < |ts| {
      CountSplit(ts[..|ts| - 1], k, lo, hi);
      assert ts[..|ts| - 1][..k] == ts[..k];
    } else {
      assert ts[..k] == ts;
    }
  }

  /** Main result: every half-open interval of one window's length holds at most `limit` admissions. */
  lemma {:induction false} WindowBound(past: seq<real>, limit: nat, window: real, lo: real)
    requires Nondecreasing(past) && Spaced(past, limit, window)
    ensures CountIn(past, lo, lo + window) <= limit
    decreases |past|
  {
    if past != [] {
      var front, last := past[..|past| - 1], past[|past| - 1];
      if lo <= last < lo + window {
        if |past| > limit {
          var k := |past| - limit;
          assert past[k - 1 + limit] - past[k - 1] >= window;
          NoneBelow(past[..k], lo, lo + window);
          CountSplit(past, k, lo, lo + window);
        } else {
          CountSplit(past, 0, lo, lo + window);
        }
      } else {
        assert Spaced(front, limit, window) by {
          forall i | 0 <= i < |front| - limit
            ensures front[i + limit] - front[i] >= window
          {
            assert past[i + limit] - past[i] >= window;
          }
        }
        WindowBound(front, limit, window, lo);
      }
    }
  }

  // ---- The limiters ----

  class Limiter {
    const limit: nat
    const window: real
    var stamps: map<string, seq<real>>
    ghost var history: map<string, seq<real>>
    ghost var clock: real

    constructor (limit: nat, window: real)
      requires limit > 0 && window > 0.0
      ensures Valid() && Bounded() && this.limit == limit && this.window == window && history == map[] && clock == 0.0
    {
      this.limit, this.window := limit, window;
      stamps, history, clock := map[], map[], 0.0;
    }

    /** The stored lists follow the full history. */
    ghost predicate Valid()
      reads this
    {
      limit > 0 && window > 0.0 && forall key :: KeyOk(stamps, history, clock, key)
    }

    ghost predicate KeyOk(stamps: map<string, seq<real>>, history: map<string, seq<real>>, clock: real, key: string) {
      Tracks(Get(stamps, key), Get(history, key), clock, window)
    }

    /** So far nothing was recorded without room for it. */
    ghost predicate Bounded()
      reads this
    {
      forall key :: Spaced(Get(history, key), limit, window)
    }

    /** Whether a check of `key` at `now` is admitted, judged on the whole history. */
    ghost predicate Admits(key: string, now: real)
      reads this
    {
      |Pruned(Get(history, key), now, window)| < limit
    }

    /** A check is admitted exactly while fewer than `limit` admissions are less than one window old. */
    lemma AdmitsIff(key: string, now: real)
      ensures Admits(key, now) <==>
              |Young(Get(history, key), now, window)| < limit
    {
      PrunedCounts(Get(history, key), now, window);
    }

    /** The purpose of every limiter: no window-long interval, wherever it starts, holds too many admissions. */
    lemma NoBurst(key: string, lo: real)
      requires Valid() && Bounded()
      ensures CountIn(Get(history, key), lo, lo + window) <= limit
    {
      assert KeyOk(stamps, history, clock, key);
      WindowBound(Get(history, key), limit, window, lo);
    }

    lemma OneKeyMoves(s: map<string, seq<real>>, h: map<string, seq<real>>, c: real,
                      s': map<string, seq<real>>, h': map<string, seq<real>>, c': real, key: string)
      requires c <= c' && forall k :: KeyOk(s, h, c, k)
      requires forall k :: k != key ==> Get(s', k) == Get(s, k) && Get(h', k) == Get(h, k)
      requires KeyOk(s', h', c', key)
      ensures forall k :: KeyOk(s', h', c', k)
    {
      forall k
        ensures KeyOk(s', h', c', k)
      {
        if k != key {
          assert KeyOk(s, h, c, k);
          TracksLater(Get(s, k), Get(h, k), c, c', window);
        }
      }
    }

    /** Prunes the stored list of `key`; nothing is admitted. */
    method Prune(key: string, now: real) returns (times: seq<real>)
      requires Valid() && clock <= now
      modifies this
      ensures Valid() && clock == now && history == old(history)
      ensures times == Get(stamps, key) == Pruned(Get(history, key), now, window)
    {
      assert KeyOk(stamps, history, clock, key);
      times := Pruned(Get(stamps, key), now, window);
      StoredAgreesWithHistory(Get(stamps, key), Get(history, key), clock, now, window);
      PruneTracks(Get(stamps, key), Get(history, key), clock, now, window);
      OneKeyMoves(stamps, history, clock, stamps[key := times], history, now, key);
      stamps := stamps[key := times];
      clock := now;
    }

    /** Appends an admission; only one for which there was room keeps the limiter bounded. */
    method Append(key: string, at: real)
      requires Valid() && clock <= at
      modifies this
      ensures Valid() && clock == at
      ensures history == old(history)[key := Get(old(history), key) + [at]]
      ensures old(Bounded() && Admits(key, clock)) ==> Bounded()
    {
      assert KeyOk(stamps, history, clock, key);
      AdmitTracks(Get(stamps, key), Get(history, key), clock, at, window);
      var times := Get(stamps, key) + [at];
      ghost var longer := history[key := Get(history, key) + [at]];
      if Bounded() && Admits(key, clock) {
        OneMoreIsSpaced(history, longer, key, clock, at, limit, window);
      }
      OneKeyMoves(stamps, history, clock, stamps[key := times], longer, at, key);
      stamps := stamps[key := times];
      history := longer;
      clock := at;
    }

    /**
     The per-session message check. A refusal names the time left until the
     oldest counted message leaves the window: every earlier retry is refused and
     a retry at that time is admitted, if nothing else is admitted in between.
     */
    method CheckMessageRate(key: string, now: real) returns (allowed: bool, resetAfter: real)
      requires Valid() && clock <= now
      modifies this
      ensures Valid() && clock == now && allowed == old(Admits(key, now)) && (old(Bounded()) ==> Bounded())
      ensures history == if allowed then old(history)[key := Get(old(history), key) + [now]] else old(history)
      ensures allowed ==> resetAfter == 0.0
      ensures !allowed && Bounded() ==>
                resetAfter > 0.0 && forall t :: now <= t ==> (Admits(key, t) <==> t >= now + resetAfter)
    {
      var times := Prune(key, now);
      if |times| >= limit {
        var oldest := times[0];
        resetAfter := window - (now - oldest);
        assert KeyOk(stamps, history, clock, key);
        if Bounded() {
          forall t | now <= t
            ensures resetAfter > 0.0 && (Admits(key, t) <==> t >= now + resetAfter)
          {
            ResetIsExact(Get(history, key), now, t, limit, window);
          }
          assert Admits(key, now) <==> now >= now + resetAfter;
        }
        return false, if resetAfter < 0.0 then 0.0 else resetAfter;
      }
      Append(key, now);
      return true, 0.0;
    }

    /** The per-user connection check. */
    method CheckConnectionRate(key: string, now: real) returns (allowed: bool)
      requires Valid() && clock <= now
      modifies this
      ensures Valid() && clock == now && allowed == old(Admits(key, now)) && (old(Bounded()) ==> Bounded())
      ensures history == if allowed then old(history)[key := Get(old(history), key) + [now]] else old(history)
    {
      var times := Prune(key, now);
      if |times| >= limit {
        return false;
      }
      Append(key, now);
      return true;
    }

    /** The setup and login checks: a refusal raises before the pruned list is stored. */
    method CheckAttempt(key: string, now: real) returns (allowed: bool)
      requires Valid() && clock <= now
      modifies this
      ensures Valid() && clock == now && allowed == old(Admits(key, now)) && (old(Bounded()) ==> Bounded())
      ensures history == if allowed then old(history)[key := Get(old(history), key) + [now]] else old(history)
      ensures !allowed ==> stamps == old(stamps)
    {
      assert KeyOk(stamps, history, clock, key);
      StoredAgreesWithHistory(Get(stamps, key), Get(history, key), clock, now, window);
      if |Pruned(Get(stamps, key), now, window)| >= limit {
        OneKeyMoves(stamps, history, clock, stamps, history, now, key);
        clock := now;
        return false;
      }
      var times := Prune(key, now);
      Append(key, now);
      return true;
    }

    /** The portal's access-code check, which only looks ... */
    method CheckRateLimit(key: string, now: real) returns (allowed: bool)
      requires Valid() && clock <= now
      modifies this
      ensures Valid() && clock == now && history == old(history) && allowed == Admits(key, now)
    {
      var times := Prune(key, now);
      return |times| < limit;
    }

    /** ... and the attempt, recorded with a later clock reading; the handler records it after a check that had room. */
    method RecordAttempt(key: string, at: real)
      requires Valid() && clock <= at
      modifies this
      ensures Valid() && clock == at
      ensures history == old(history)[key := Get(old(history), key) + [at]]
      ensures old(Bounded() && Admits(key, clock)) ==> Bounded()
    {
      Append(key, at);
    }
  }

  /**
   The start of a portal code login: the check, and the attempt that is recorded
   with a clock reading of its own before the code is verified. Nothing runs in
   between.
   */
  method CheckThenRecord(limiter: Limiter, key: string, now: real, at: real) returns (allowed: bool)
    requires limiter.Valid() && limiter.clock <= now <= at
    modifies limiter
    ensures limiter.Valid() && (old(limiter.Bounded()) ==> limiter.Bounded())
    ensures allowed == old(limiter.Admits(key, now)) && limiter.clock == if allowed then at else now
    ensures limiter.history == if allowed then old(limiter.history)[key := Get(old(limiter.history), key) + [at]]
                               else old(limiter.history)
  {
    allowed := limiter.CheckRateLimit(key, now);
    if allowed {
      limiter.RecordAttempt(key, at);
    }
  }

  /** The upload limiter adds a bound on the total per user. */
  class UploadLimiter {
    const rate: Limiter
    var total: map<string, nat>

    constructor (rate: Limiter)
      requires rate.Valid() && rate.Bounded() && rate.history == map[]
      ensures Valid() && this.rate == rate
    {
      this.rate := rate;
      total := map[];
    }

    ghost predicate Valid()
      reads this, rate
    {
      && rate.Valid() && rate.Bounded()
      && Counts(total, rate.history)
    }

    /** The total of every user is the number of its admissions, and within the bound. */
    ghost predicate Counts(total: map<string, nat>, history: map<string, seq<real>>) {
      forall key :: CountOf(total, key) == |Get(history, key)| <= MAX_UPLOADS_PER_SESSION
    }

    function CountOf(total: map<string, nat>, key: string): nat { if key in total then total[key] else 0 }

    lemma CountsOneMore(total: map<string, nat>, history: map<string, seq<real>>, key: string, at: real)
      requires Counts(total, history) && CountOf(total, key) < MAX_UPLOADS_PER_SESSION
      ensures Counts(total[key := CountOf(total, key) + 1], history[key := Get(history, key) + [at]])
    {
      var total', history' := total[key := CountOf(total, key) + 1], history[key := Get(history, key) + [at]];
      forall k
        ensures CountOf(total', k) == |Get(history', k)| <= MAX_UPLOADS_PER_SESSION
      {
        assert CountOf(total, k) == |Get(history, k)| <= MAX_UPLOADS_PER_SESSION;
      }
    }

    method CheckUploadRate(key: string, now: real) returns (allowed: bool)
      requires Valid() && rate.clock <= now
      modifies this, rate
      ensures Valid() && rate.clock == now
      ensures allowed == (old(rate.Admits(key, now)) && |Get(old(rate.history), key)| < 20)
      ensures rate.history == if allowed then old(rate.history)[key := Get(old(rate.history), key) + [now]]
                              else old(rate.history)
    {
      var room := rate.CheckRateLimit(key, now);
      assert CountOf(total, key) == |Get(rate.history, key)|;
      if !room || CountOf(total, key) >= MAX_UPLOADS_PER_SESSION {
        return false;
      }
      CountsOneMore(total, rate.history, key, now);
      rate.RecordAttempt(key, now);
      total := total[key := CountOf(total, key) + 1];
      return true;
    }
  }

  /** The limiters of the program: messages, connections, uploads, setup, login and portal codes. */
  method ProgramLimiters() returns (messages: Limiter, connections: Limiter, uploads: Limiter,
                                    setup: Limiter, login: Limiter, portal: Limiter)
    ensures messages.Valid() && messages.Bounded()
            && messages.limit == 30 && messages.window == 60.0
    ensures connections.Valid() && connections.Bounded()
            && connections.limit == 10 && connections.window == 60.0
    ensures uploads.Valid() && uploads.Bounded() && uploads.limit == 5 && uploads.window == 60.0
    ensures setup.Valid() && setup.Bounded() && setup.limit == 3 && setup.window == 60.0
    ensures login.Valid() && login.Bounded() && login.limit == 5 && login.window == 300.0
    ensures portal.Valid() && portal.Bounded() && portal.limit == 5 && portal.window == 900.0
  {
    messages := new Limiter(MAX_MESSAGES_PER_MINUTE, MINUTE);
    connections := new Limiter(MAX_CONNECTIONS_PER_MINUTE, MINUTE);
    uploads := new Limiter(MAX_UPLOADS_PER_MINUTE, MINUTE);
    setup := new Limiter(SETUP_RATE_LIMIT, MINUTE);
    login := new Limiter(LOGIN_RATE_LIMIT, LOGIN_RATE_WINDOW);
    portal := new Limiter(PORTAL_MAX_ATTEMPTS, PORTAL_WINDOW);
  }
}
