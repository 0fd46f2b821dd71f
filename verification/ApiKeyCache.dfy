/**
 Local API keys `vz_<key id>_<secret>`, their table of keyed hashes, and the
 time-limited cache that answers for them. The database decides who holds a
 valid key; the cache may answer in its place for `ttl` seconds. The results
 here say exactly how far the two can differ over a whole run.
 */
module ApiKeyCache {
  import opened Wrappers

  // ---- Key text ----

  const LOCAL_PREFIX := "vz_"
  const REMOTE_PREFIX := "aim_"

  function IndexOf(s: string, c: char): (i: nat)
    ensures i <= |s| && c !in s[..i] && (i < |s| ==> s[i] == c)
  {
    if s == [] || s[0] == c then 0
    else
      var i := IndexOf(s[1..], c);
      assert s[..i + 1] == [s[0]] + s[1..][..i];
      i + 1
  }

  lemma {:induction false} IndexOfFirst(before: string, c: char, after: string)
    requires c !in before
    ensures IndexOf(before + [c] + after, c) == |before|
  {
    if before != [] {
      IndexOfFirst(before[1..], c, after);
      assert (before + [c] + after)[1..] == before[1..] + [c] + after;
    }
  }

  predicate IsLocal(apiKey: string) { LOCAL_PREFIX <= apiKey }

  /** The key id and the secret: what stands before and after the first `_` behind the prefix. */
  function ParseLocalKey(apiKey: string): Option<(string, string)> {
    if !IsLocal(apiKey) then None
    else
      var rest := apiKey[|LOCAL_PREFIX|..];
      var i := IndexOf(rest, '_');
      if i == |rest| || i == 0 || i + 1 == |rest| then None
      else Some((rest[..i], rest[i + 1..]))
  }

  function FullKey(keyId: string, secret: string): string { LOCAL_PREFIX + keyId + "_" + secret }

  predicate WellFormed(keyId: string, secret: string) { keyId != "" && secret != "" && '_' !in keyId }

  /** Parsing inverts key creation, and accepts nothing else. */
  lemma ParseInvertsFullKey(apiKey: string, keyId: string, secret: string)
    ensures ParseLocalKey(apiKey) == Some((keyId, secret)) <==>
            WellFormed(keyId, secret) && apiKey == FullKey(keyId, secret)
  {
    if ParseLocalKey(apiKey) == Some((keyId, secret)) {
      var rest := apiKey[|LOCAL_PREFIX|..];
      assert rest == keyId + "_" + secret;
      assert apiKey == LOCAL_PREFIX + rest;
    }
    if WellFormed(keyId, secret) && apiKey == FullKey(keyId, secret) {
      var rest := apiKey[|LOCAL_PREFIX|..];
      assert rest == keyId + "_" + secret;
      IndexOfFirst(keyId, '_', secret);
      assert rest[..|keyId|] == keyId && rest[|keyId| + 1..] == secret;
    }
  }

  // ---- State ----

  /** A row of the key table; stored scopes that do not parse are `None`. */
  datatype KeyRow = KeyRow(userId: string, keyHash: string, scopes: Option<seq<string>>, revoked: bool)

  datatype AuthenticatedUser = AuthenticatedUser(userId: string, keyId: string, scopes: seq<string>)

  datatype CacheEntry = CacheEntry(user: AuthenticatedUser, expires: real)

  /** Key table, users with their active flag, cache and clock. Expired entries may linger in the cache. */
  datatype State = State(keys: map<string, KeyRow>, users: map<string, bool>,
                           cache: map<string, CacheEntry>, clock: real)

  /** The keyed hash of secrets and the cache's time to live. */
  datatype Config = Config(hash: string -> string, ttl: real)

  predicate Live(s: State, apiKey: string) { apiKey in s.cache && s.clock < s.cache[apiKey].expires }

  predicate Active(s: State, userId: string) { userId in s.users && s.users[userId] }

  /** The unrevoked row that a key matches. */
  predicate Matches(c: Config, s: State, keyId: string, secret: string) {
    keyId in s.keys && !s.keys[keyId].revoked && s.keys[keyId].keyHash == c.hash(secret)
  }

  function Identity(keyId: string, row: KeyRow): AuthenticatedUser {
    AuthenticatedUser(row.userId, keyId, if row.scopes.Some? then row.scopes.value else ["read", "write"])
  }

  /** What the database alone says about a key. */
  function Validate(c: Config, s: State, apiKey: string): Option<AuthenticatedUser> {
    match ParseLocalKey(apiKey)
    case None => None
    case Some((keyId, secret)) =>
      if Matches(c, s, keyId, secret) && Active(s, s.keys[keyId].userId) then Some(Identity(keyId, s.keys[keyId]))
      else None
  }

  /** What a request with a local key is answered: the cache first, then the database. */
  function Answer(c: Config, s: State, apiKey: string): Option<AuthenticatedUser> {
    if Live(s, apiKey) then Some(s.cache[apiKey].user) else Validate(c, s, apiKey)
  }

  function Remember(c: Config, s: State, apiKey: string, user: AuthenticatedUser): State {
    s.(cache := s.cache[apiKey := CacheEntry(user, s.clock + c.ttl)])
  }

  // ---- Operations ----

  datatype Event =
    | Request(apiKey: string)
    | CacheRemote(apiKey: string, user: AuthenticatedUser)
    | CreateKey(keyId: string, secret: string, userId: string, scopes: Option<seq<string>>)
    | Revoke(keyId: string, callerId: string)
    | SetActive(userId: string, active: bool)
    | Tick(seconds: real)
    | Evict(apiKey: string)

  datatype RevokeOutcome = Revoked | NotFound | AlreadyRevoked

  function RevokeOutcomeOf(s: State, keyId: string, callerId: string): RevokeOutcome {
    if keyId !in s.keys || s.keys[keyId].userId != callerId then NotFound
    else if s.keys[keyId].revoked then AlreadyRevoked
    else Revoked
  }

  predicate Purged(s: State, apiKey: string, keyId: string) { Live(s, apiKey) && s.cache[apiKey].user.keyId == keyId }

  function Step(c: Config, s: State, e: Event): State {
    match e
    case Request(apiKey) =>
      var found := Validate(c, s, apiKey);
      if !Live(s, apiKey) && found.Some? then Remember(c, s, apiKey, found.value) else s
    case CacheRemote(apiKey, user) => if IsLocal(apiKey) then s else Remember(c, s, apiKey, user)
    case CreateKey(keyId, secret, userId, scopes) =>
      if keyId in s.keys then s
      else s.(keys := s.keys[keyId := KeyRow(userId, c.hash(secret), scopes, false)])
    case Revoke(keyId, callerId) =>
      if RevokeOutcomeOf(s, keyId, callerId) != Revoked then s
      else s.(keys := s.keys[keyId := s.keys[keyId].(revoked := true)],
              cache := map k | k in s.cache && !Purged(s, k, keyId) :: s.cache[k])
    case SetActive(userId, active) => s.(users := s.users[userId := active])
    case Tick(seconds) => if seconds >= 0.0 then s.(clock := s.clock + seconds) else s
    case Evict(apiKey) => s.(cache := s.cache - {apiKey})
  }

  /** A run of one process: it starts with an empty cache over any database. */
  ghost predicate IsRun(c: Config, run: seq<State>, events: seq<Event>) {
    && |run| == |events| + 1
    && run[0].cache == map[]
    && forall i :: 0 <= i < |events| ==> run[i + 1] == Step(c, run[i], events[i])
  }

  // ---- The code ----

  datatype HttpAnswer =
    Accepted(user: AuthenticatedUser) | NotAuthenticated | InvalidPrefix | InvalidKey | RemoteUnavailable

  /** What the remote marketplace says about a key that is not local. */
  datatype RemoteAnswer = RemoteUser(user: AuthenticatedUser) | RemoteRefused | RemoteDown

  class LocalAuth {
    const config: Config
    var keys: map<string, KeyRow>
    var users: map<string, bool>
    var cache: map<string, CacheEntry>
    var clock: real

    constructor (config: Config, keys: map<string, KeyRow>, users: map<string, bool>, clock: real)
      ensures this.config == config && Now() == State(keys, users, map[], clock)
    {
      this.config, this.keys, this.users, this.clock := config, keys, users, clock;
      cache := map[];
    }

    function Now(): State
      reads this
    {
      State(keys, users, cache, clock)
    }

    method ValidateLocalKey(apiKey: string) returns (user: Option<AuthenticatedUser>)
      ensures user == Validate(config, Now(), apiKey)
    {
      var parsed := ParseLocalKey(apiKey);
      if parsed.None? { return None; }
      var (keyId, secret) := parsed.value;
      if keyId !in keys || keys[keyId].revoked { return None; }
      var row := keys[keyId];
      if row.keyHash != config.hash(secret) { return None; }
      if row.userId !in users || !users[row.userId] { return None; }
      var scopes := if row.scopes.Some? then row.scopes.value else ["read", "write"];
      return Some(AuthenticatedUser(row.userId, keyId, scopes));
    }

    /** The `X-API-Key` branch of a request. */
    method GetCurrentUser(apiKey: Option<string>, remote: RemoteAnswer) returns (answer: HttpAnswer)
      modifies `cache
      ensures apiKey.None? || apiKey.value == "" ==> answer == NotAuthenticated && cache == old(cache)
      ensures apiKey.Some? && IsLocal(apiKey.value) ==>
                && Now() == Step(config, old(Now()), Request(apiKey.value))
                && answer == (match Answer(config, old(Now()), apiKey.value)
                              case Some(user) => Accepted(user)
                              case None => InvalidKey)
      ensures apiKey.Some? && apiKey.value != "" && !IsLocal(apiKey.value) ==>
                if Live(old(Now()), apiKey.value) then
                  Now() == old(Now()) && answer == Accepted(old(cache)[apiKey.value].user)
                else if !("aim_" <= apiKey.value) then Now() == old(Now()) && answer == InvalidPrefix
                else match remote
                     case RemoteUser(user) =>
                       && Now() == Step(config, old(Now()), CacheRemote(apiKey.value, user)) && answer == Accepted(user)
                       && cache == old(cache)[apiKey.value := CacheEntry(user, clock + config.ttl)]
                     case RemoteRefused => Now() == old(Now()) && answer == InvalidKey
                     case RemoteDown => Now() == old(Now()) && answer == RemoteUnavailable
    {
      if apiKey.None? || apiKey.value == "" { return NotAuthenticated; }
      var key := apiKey.value;
      if Live(Now(), key) { return Accepted(cache[key].user); }
      var user: Option<AuthenticatedUser> := None;
      if LOCAL_PREFIX <= key {
        user := ValidateLocalKey(key);
      } else if REMOTE_PREFIX <= key {
        match remote {
          case RemoteUser(u) => user := Some(u);
          case RemoteRefused =>
          case RemoteDown => return RemoteUnavailable;
        }
      } else {
        return InvalidPrefix;
      }
      if user.None? { return InvalidKey; }
      cache := cache[key := CacheEntry(user.value, clock + config.ttl)];
      return Accepted(user.value);
    }

    /** The WebSocket variant: no error codes, and any other token goes to the marketplace. */
    method GetCurrentUserWs(token: Option<string>, remote: RemoteAnswer) returns (user: Option<AuthenticatedUser>)
      modifies `cache
      ensures token.None? || token.value == "" ==> user == None && cache == old(cache)
      ensures token.Some? && IsLocal(token.value) ==>
                && Now() == Step(config, old(Now()), Request(token.value))
                && user == Answer(config, old(Now()), token.value)
      ensures token.Some? && token.value != "" && !IsLocal(token.value) ==>
                if Live(old(Now()), token.value) then
                  Now() == old(Now()) && user == Some(old(cache)[token.value].user)
                else if remote.RemoteUser? then
                  && Now() == Step(config, old(Now()), CacheRemote(token.value, remote.user))
                  && cache == old(cache)[token.value := CacheEntry(remote.user, clock + config.ttl)]
                  && user == Some(remote.user)
                else Now() == old(Now()) && user == None
    {
      if token.None? || token.value == "" { return None; }
      var key := token.value;
      if Live(Now(), key) { return Some(cache[key].user); }
      if LOCAL_PREFIX <= key {
        user := ValidateLocalKey(key);
      } else {
        user := if remote.RemoteUser? then Some(remote.user) else None;
      }
      if user.None? { return None; }
      cache := cache[key := CacheEntry(user.value, clock + config.ttl)];
    }

    /** Marks the caller's key as revoked, then pops every live cache entry with that key id. */
    method RevokeKey(keyId: string, callerId: string) returns (outcome: RevokeOutcome)
      modifies `keys, `cache
      ensures outcome == RevokeOutcomeOf(old(Now()), keyId, callerId)
      ensures Now() == Step(config, old(Now()), Revoke(keyId, callerId))
      ensures outcome == NotFound <==> !(keyId in old(keys) && old(keys)[keyId].userId == callerId)
      ensures outcome == AlreadyRevoked <==> keyId in old(keys) && old(keys)[keyId].userId == callerId
                                             && old(keys)[keyId].revoked
      ensures outcome != Revoked ==> keys == old(keys) && cache == old(cache)
      ensures outcome == Revoked ==>
                && keys == old(keys)[keyId := old(keys)[keyId].(revoked := true)]
                && (forall k :: k in cache <==>
                     k in old(cache) && !(clock < old(cache)[k].expires && old(cache)[k].user.keyId == keyId))
                && forall k :: k in cache ==> cache[k] == old(cache)[k]
    {
      if keyId !in keys || keys[keyId].userId != callerId { return NotFound; }
      if keys[keyId].revoked { return AlreadyRevoked; }
      keys := keys[keyId := keys[keyId].(revoked := true)];
      var toRemove := set k | k in cache && clock < cache[k].expires && cache[k].user.keyId == keyId;
      var rest := toRemove;
      while rest != {}
        invariant rest <= toRemove
        invariant keys == old(keys)[keyId := old(keys)[keyId].(revoked := true)]
        invariant forall k :: k in cache <==> k in old(cache) && (k in rest || k !in toRemove)
        invariant forall k :: k in cache ==> cache[k] == old(cache)[k]
      {
        var k :| k in rest;
        cache := cache - {k};
        rest := rest - {k};
      }
      ghost var after := Step(config, old(Now()), Revoke(keyId, callerId));
      assert forall k :: k in cache <==> k in after.cache;
      assert cache == after.cache;
      return Revoked;
    }

    /** The tail of a deactivation: the local user, if there is one, stops being active; the cache is not touched. */
    method DeactivateUser(userId: string)
      modifies `users
      ensures Now() == if userId in old(users) then Step(config, old(Now()), SetActive(userId, false)) else old(Now())
    {
      if userId in users {
        users := users[userId := false];
      }
    }
  }

  // ---- What one step keeps ----

  /** Rows are never removed or rewritten; a key is only ever revoked, once. */
  predicate RowKept(before: State, after: State, keyId: string) {
    keyId in before.keys ==>
      && keyId in after.keys
      && (before.keys[keyId].revoked ==> after.keys[keyId] == before.keys[keyId])
      && after.keys[keyId].(revoked := before.keys[keyId].revoked) == before.keys[keyId]
  }

  lemma StepKeepsRows(c: Config, s: State, e: Event, keyId: string)
    ensures RowKept(s, Step(c, s, e), keyId)
    ensures Step(c, s, e).clock >= s.clock
  {
  }

  lemma {:induction false} RunKeepsRows(c: Config, run: seq<State>, events: seq<Event>, i: nat, j: nat, keyId: string)
    requires IsRun(c, run, events) && i <= j < |run|
    ensures RowKept(run[i], run[j], keyId)
    ensures run[i].clock <= run[j].clock
    decreases j
  {
    if i < j {
      RunKeepsRows(c, run, events, i, j - 1, keyId);
      StepKeepsRows(c, run[j - 1], events[j - 1], keyId);
      assert run[j] == Step(c, run[j - 1], events[j - 1]);
    }
  }

  // ---- The cache invariant ----

  /**
   A live entry for a local key was put there by a validation at some earlier
   state `j` of the run, and its key has not been revoked since.
   */
  ghost predicate EntryOk(c: Config, run: seq<State>, i: nat, apiKey: string)
    requires i < |run|
  {
    IsLocal(apiKey) && Live(run[i], apiKey) ==>
      var entry := run[i].cache[apiKey];
      && ParseLocalKey(apiKey).Some?
      && entry.user.keyId == ParseLocalKey(apiKey).value.0
      && Matches(c, run[i], ParseLocalKey(apiKey).value.0, ParseLocalKey(apiKey).value.1)
      && exists j :: ValidatedAt(c, run, i, j, apiKey, entry)
  }

  ghost predicate ValidatedAt(c: Config, run: seq<State>, i: nat, j: int, apiKey: string, entry: CacheEntry)
    requires i < |run|
  {
    0 <= j <= i && Validate(c, run[j], apiKey) == Some(entry.user) && entry.expires == run[j].clock + c.ttl
  }

  lemma FreshEntryOk(c: Config, run: seq<State>, events: seq<Event>, i: nat, apiKey: string)
    requires IsRun(c, run, events) && i + 1 < |run| && IsLocal(apiKey)
    requires events[i] == Request(apiKey) && !Live(run[i], apiKey)
    ensures EntryOk(c, run, i + 1, apiKey)
  {
    assert run[i + 1] == Step(c, run[i], events[i]);
    if Live(run[i + 1], apiKey) {
      assert ValidatedAt(c, run, i + 1, i, apiKey, run[i + 1].cache[apiKey]);
    }
  }

  /** Entries that survive a step stay justified: the only step that could break them purges them. */
  lemma KeptEntryOk(c: Config, run: seq<State>, events: seq<Event>, i: nat, apiKey: string)
    requires IsRun(c, run, events) && i + 1 < |run| && IsLocal(apiKey)
    requires EntryOk(c, run, i, apiKey) && Live(run[i + 1], apiKey)
    requires Live(run[i], apiKey) && run[i + 1].cache[apiKey] == run[i].cache[apiKey]
    ensures EntryOk(c, run, i + 1, apiKey)
  {
    var e, s, s' := events[i], run[i], run[i + 1];
    assert s' == Step(c, s, e);
    var entry, keyId := s.cache[apiKey], ParseLocalKey(apiKey).value.0;
    StepKeepsRows(c, s, e, keyId);
    assert e.Revoke? && e.keyId == keyId ==> s' == s || Purged(s, apiKey, keyId);
    var j :| ValidatedAt(c, run, i, j, apiKey, entry);
    assert ValidatedAt(c, run, i + 1, j, apiKey, entry);
  }

  lemma {:induction false} EntriesAreOk(c: Config, run: seq<State>, events: seq<Event>, i: nat, apiKey: string)
    requires IsRun(c, run, events) && i < |run|
    ensures EntryOk(c, run, i, apiKey)
  {
    if i > 0 && IsLocal(apiKey) {
      EntriesAreOk(c, run, events, i - 1, apiKey);
      if Live(run[i], apiKey) {
        EntryIsKept(c, run, events, i - 1, apiKey);
        if events[i - 1] == Request(apiKey) && !Live(run[i - 1], apiKey) {
          FreshEntryOk(c, run, events, i - 1, apiKey);
        } else {
          KeptEntryOk(c, run, events, i - 1, apiKey);
        }
      }
    }
  }

  /** A live entry of a local key was there before, unless a request has just put it there. */
  lemma EntryIsKept(c: Config, run: seq<State>, events: seq<Event>, i: nat, apiKey: string)
    requires IsRun(c, run, events) && i + 1 < |run| && IsLocal(apiKey) && Live(run[i + 1], apiKey)
    ensures (events[i] == Request(apiKey) && !Live(run[i], apiKey))
            || (Live(run[i], apiKey) && run[i + 1].cache[apiKey] == run[i].cache[apiKey])
  {
    assert run[i + 1] == Step(c, run[i], events[i]);
  }

  // ---- Main results ----

  /**
   Cache coherence. Whoever is accepted with a local key holds, now, an unrevoked
   key with that secret, is identified as that key's owner, and the owner was
   active now or at a moment less than `ttl` seconds ago.
   */
  lemma AcceptedIsFresh(c: Config, run: seq<State>, events: seq<Event>, i: nat, apiKey: string)
    requires IsRun(c, run, events) && i < |run| && IsLocal(apiKey)
    ensures Answer(c, run[i], apiKey).Some? ==>
              && ParseLocalKey(apiKey).Some?
              && var (keyId, secret) := ParseLocalKey(apiKey).value;
              && Matches(c, run[i], keyId, secret)
              && Answer(c, run[i], apiKey) == Some(Named(run[i].keys[keyId], keyId))
              && exists j :: ActiveWithin(c, run, i, j, run[i].keys[keyId].userId)
  {
    if Answer(c, run[i], apiKey).Some? {
      EntriesAreOk(c, run, events, i, apiKey);
      var (keyId, secret) := ParseLocalKey(apiKey).value;
      var userId := run[i].keys[keyId].userId;
      if Live(run[i], apiKey) {
        var j :| ValidatedAt(c, run, i, j, apiKey, run[i].cache[apiKey]);
        RunKeepsRows(c, run, events, j, i, keyId);
        assert ActiveWithin(c, run, i, j, userId);
      } else {
        assert ActiveWithin(c, run, i, i, userId);
      }
    }
  }

  ghost predicate ActiveWithin(c: Config, run: seq<State>, i: nat, j: int, userId: string)
    requires i < |run|
  {
    0 <= j <= i && Active(run[j], userId) && (j == i || run[i].clock - run[j].clock < c.ttl)
  }

  /** Who a row identifies: its owner, by this key, with the stored scopes or else the default ones. */
  function Named(row: KeyRow, keyId: string): AuthenticatedUser {
    match row.scopes
    case Some(scopes) => AuthenticatedUser(row.userId, keyId, scopes)
    case None => AuthenticatedUser(row.userId, keyId, ["read", "write"])
  }

  /** The cache refuses nobody: what the database accepts is accepted, with the same identity. */
  lemma ValidIsAccepted(c: Config, run: seq<State>, events: seq<Event>, i: nat, apiKey: string)
    requires IsRun(c, run, events) && i < |run| && IsLocal(apiKey)
    requires Validate(c, run[i], apiKey).Some?
    ensures Answer(c, run[i], apiKey) == Validate(c, run[i], apiKey)
  {
    AcceptedIsFresh(c, run, events, i, apiKey);
  }

  /**
   Cache and database differ in one way only: for a cached key whose owner is
   inactive now, and then the owner was active less than `ttl` seconds ago.
   */
  lemma DisagreementIsRecentDeactivation(c: Config, run: seq<State>, events: seq<Event>, i: nat, apiKey: string)
    requires IsRun(c, run, events) && i < |run| && IsLocal(apiKey)
    ensures Answer(c, run[i], apiKey) != Validate(c, run[i], apiKey) <==>
            && Live(run[i], apiKey)
            && !Active(run[i], run[i].cache[apiKey].user.userId)
    ensures Answer(c, run[i], apiKey) != Validate(c, run[i], apiKey) ==>
            exists j :: j < i && ActiveWithin(c, run, i, j, run[i].cache[apiKey].user.userId)
  {
    EntriesAreOk(c, run, events, i, apiKey);
    AcceptedIsFresh(c, run, events, i, apiKey);
    if Answer(c, run[i], apiKey) != Validate(c, run[i], apiKey) {
      var userId := run[i].cache[apiKey].user.userId;
      var j :| ActiveWithin(c, run, i, j, userId);
      assert j < i;
    }
  }

  /** A key is revoked exactly by its owner's revocation, by no other event and by nobody else's. */
  lemma RevokedByOwnerOnly(c: Config, run: seq<State>, events: seq<Event>, i: nat, keyId: string)
    requires IsRun(c, run, events) && i < |events| && keyId in run[i].keys
    ensures keyId in run[i + 1].keys
    ensures run[i + 1].keys[keyId].revoked <==>
            run[i].keys[keyId].revoked || events[i] == Revoke(keyId, run[i].keys[keyId].userId)
    ensures run[i + 1].keys[keyId].(revoked := false) == run[i].keys[keyId].(revoked := false)
  {
    assert run[i + 1] == Step(c, run[i], events[i]);
  }

  /** Over a run: it is revoked if it was before, or its owner has revoked it since. */
  lemma {:induction false} RevokedIff(c: Config, run: seq<State>, events: seq<Event>, m: nat, i: nat, keyId: string)
    requires IsRun(c, run, events) && m <= i < |run| && keyId in run[m].keys
    ensures keyId in run[i].keys && run[i].keys[keyId].(revoked := false) == run[m].keys[keyId].(revoked := false)
    ensures run[i].keys[keyId].revoked <==>
            run[m].keys[keyId].revoked || exists k :: RevokesAt(events, k, m, i, keyId, run[m].keys[keyId].userId)
    decreases i
  {
    if m < i {
      RevokedIff(c, run, events, m, i - 1, keyId);
      RevokedByOwnerOnly(c, run, events, i - 1, keyId);
      RevokesLater(events, m, i - 1, i, keyId, run[m].keys[keyId].userId);
    }
  }

  predicate RevokesAt(events: seq<Event>, k: int, m: int, i: int, keyId: string, owner: string) {
    0 <= m <= k < i && k < |events| && events[k] == Revoke(keyId, owner)
  }

  lemma RevokesLater(events: seq<Event>, m: nat, i: nat, i': nat, keyId: string, owner: string)
    requires m <= i < |events| && i' == i + 1
    ensures (exists k :: RevokesAt(events, k, m, i', keyId, owner)) <==>
            (exists k :: RevokesAt(events, k, m, i, keyId, owner)) || events[i] == Revoke(keyId, owner)
  {
    forall k
      ensures RevokesAt(events, k, m, i', keyId, owner) <==>
              RevokesAt(events, k, m, i, keyId, owner) || (k == i && events[i] == Revoke(keyId, owner))
    {
    }
    assert events[i] == Revoke(keyId, owner) ==> RevokesAt(events, i, m, i', keyId, owner);
  }

  /** Revocation by the owner takes effect at once and for good. */
  lemma RevokedIsRefused(c: Config, run: seq<State>, events: seq<Event>, r: nat, i: nat, apiKey: string, keyId: string)
    requires IsRun(c, run, events) && r < i < |run| && IsLocal(apiKey)
    requires keyId in run[r].keys && events[r] == Revoke(keyId, run[r].keys[keyId].userId)
    requires ParseLocalKey(apiKey).Some? && ParseLocalKey(apiKey).value.0 == keyId
    ensures Answer(c, run[i], apiKey) == None
  {
    assert run[r + 1] == Step(c, run[r], events[r]);
    RunKeepsRows(c, run, events, r + 1, i, keyId);
    AcceptedIsFresh(c, run, events, i, apiKey);
  }

  /** A user who has been inactive for the whole time to live is refused. */
  lemma InactiveIsRefusedAfterTtl(c: Config, run: seq<State>, events: seq<Event>, m: nat, i: nat, apiKey: string)
    requires IsRun(c, run, events) && m <= i < |run| && IsLocal(apiKey)
    requires ParseLocalKey(apiKey).Some? && ParseLocalKey(apiKey).value.0 in run[i].keys
    requires forall j :: m <= j <= i ==> !Active(run[j], run[i].keys[ParseLocalKey(apiKey).value.0].userId)
    requires run[i].clock - run[m].clock >= c.ttl
    ensures Answer(c, run[i], apiKey) == None
  {
    AcceptedIsFresh(c, run, events, i, apiKey);
    if Answer(c, run[i], apiKey).Some? {
      var keyId := ParseLocalKey(apiKey).value.0;
      var j :| ActiveWithin(c, run, i, j, run[i].keys[keyId].userId);
      RunKeepsRows(c, run, events, j, m, keyId);
      assert false;
    }
  }

  /** With a collision-free hash the only text that opens a key is the one handed out at its creation. */
  lemma OnlyTheIssuedKey(c: Config, run: seq<State>, events: seq<Event>, m: nat, i: nat, apiKey: string)
    requires IsRun(c, run, events) && m < i < |run| && IsLocal(apiKey)
    requires forall a, b :: c.hash(a) == c.hash(b) ==> a == b
    requires events[m].CreateKey? && events[m].keyId !in run[m].keys
    requires ParseLocalKey(apiKey).Some? && ParseLocalKey(apiKey).value.0 == events[m].keyId
    requires Answer(c, run[i], apiKey).Some?
    ensures apiKey == FullKey(events[m].keyId, events[m].secret)
    ensures Answer(c, run[i], apiKey).value.userId == events[m].userId
  {
    assert run[m + 1] == Step(c, run[m], events[m]);
    RunKeepsRows(c, run, events, m + 1, i, events[m].keyId);
    AcceptedIsFresh(c, run, events, i, apiKey);
    var (keyId, secret) := ParseLocalKey(apiKey).value;
    assert c.hash(secret) == c.hash(events[m].secret);
    ParseInvertsFullKey(apiKey, keyId, secret);
  }

  /**
   From its creation on an issued key opens the door exactly while its owner has not
   revoked it and either is active or has an answer in the cache that still lives; and
   it is the door of the user and with the scopes it was made with.
   */
  lemma IssuedKeyOpensIff(c: Config, run: seq<State>, events: seq<Event>, m: nat, i: nat,
                          keyId: string, secret: string, userId: string, scopes: Option<seq<string>>)
    requires IsRun(c, run, events) && m < i < |run|
    requires events[m] == CreateKey(keyId, secret, userId, scopes) && keyId !in run[m].keys
    requires keyId != "" && secret != "" && '_' !in keyId
    ensures var apiKey := "vz_" + keyId + "_" + secret;
            && (Answer(c, run[i], apiKey).Some? <==>
                 && (forall k :: m < k < i ==> events[k] != Revoke(keyId, userId))
                 && (Active(run[i], userId) || Live(run[i], apiKey)))
            && (Answer(c, run[i], apiKey).Some? ==>
                 Answer(c, run[i], apiKey).value ==
                 AuthenticatedUser(userId, keyId, match scopes case Some(s) => s case None => ["read", "write"]))
  {
    var apiKey := "vz_" + keyId + "_" + secret;
    assert run[m + 1] == Step(c, run[m], events[m]);
    RevokedIff(c, run, events, m + 1, i, keyId);
    assert forall k :: m < k < i && events[k] == Revoke(keyId, userId) ==>
      RevokesAt(events, k, m + 1, i, keyId, userId);
    ParseInvertsFullKey(apiKey, keyId, secret);
    AcceptedIsFresh(c, run, events, i, apiKey);
  }

  // ---- Deactivation may lag ----

  function LagEvents(apiKey: string): seq<Event> { [Request(apiKey), SetActive("u", false)] }

  function LagRun(c: Config): seq<State> {
    var s0 := State(map["k" := KeyRow("u", c.hash("s"), None, false)], map["u" := true], map[], 0.0);
    var s1 := Step(c, s0, Request(FullKey("k", "s")));
    [s0, s1, Step(c, s1, SetActive("u", false))]
  }

  /** A deactivated user is still accepted while the cached answer lives. */
  lemma DeactivationLags(c: Config)
    requires c.ttl > 0.0
    ensures IsRun(c, LagRun(c), LagEvents(FullKey("k", "s")))
    ensures !Active(LagRun(c)[2], "u") && Validate(c, LagRun(c)[2], FullKey("k", "s")) == None
    ensures Answer(c, LagRun(c)[2], FullKey("k", "s")) == Some(AuthenticatedUser("u", "k", ["read", "write"]))
  {
    var apiKey := FullKey("k", "s");
    ParseInvertsFullKey(apiKey, "k", "s");
    var run, events := LagRun(c), LagEvents(apiKey);
    assert Validate(c, run[0], apiKey) == Some(AuthenticatedUser("u", "k", ["read", "write"]));
    assert Live(run[1], apiKey) && Live(run[2], apiKey);
    assert run[1] == Step(c, run[0], events[0]) && run[2] == Step(c, run[1], events[1]);
  }
}
