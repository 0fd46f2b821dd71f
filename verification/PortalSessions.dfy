/**
 Sessions of the search portal: code and single-sign-on logins, logout, single
 and general revocation, and the settings update that rotates the access code.
 One configuration object is shared by all handlers of a process.
 */
module PortalSessions {
  import opened Wrappers

  // ---- State ----

  datatype Tier = Open | Code | Sso

  datatype Settings = Settings(
    enabled: bool,
    tier: Tier,
    baseUrl: string,
    codeHash: Option<string>,
    ttlMinutes: nat,
    issuer: Option<string>,
    clientId: Option<string>,
    clientSecret: Option<string>)

  /** Settings, session version, active sessions with their expiry, and single-sign-on logins under way. */
  datatype State = State(settings: Settings, version: nat, active: map<string, real>, flows: set<string>)

  /** The portal before anything is configured. */
  const INITIAL := State(Settings(false, Open, "", None, 480, None, None, None), 0, map[], {})

  /** What a signed portal token says. */
  datatype Claims = Claims(sub: string, tier: Tier, psv: nat, exp: int)

  /** Code hashing (its check is recomputation) and the encryption of the client secret. */
  datatype Crypto = Crypto(hash: string -> string, encrypt: string -> string)

  datatype SettingsUpdate = SettingsUpdate(
    enabled: Option<bool>,
    tier: Option<Tier>,
    baseUrl: Option<string>,
    accessCode: Option<string>,
    ttlMinutes: Option<nat>,
    issuer: Option<string>,
    clientId: Option<string>,
    clientSecret: Option<string>)

  predicate Present(o: Option<string>) { o.Some? && o.value != "" }

  predicate SsoConfigured(s: Settings) { Present(s.issuer) && Present(s.clientId) && Present(s.clientSecret) }

  function Or<T>(update: Option<T>, current: T): T { if update.Some? then update.value else current }

  function StripSlashes(s: string): (r: string)
    ensures r <= s && (r == "" || r[|r| - 1] != '/') && forall i :: |r| <= i < |s| ==> s[i] == '/'
  {
    if s != "" && s[|s| - 1] == '/' then StripSlashes(s[..|s| - 1]) else s
  }

  predicate Digit(c: char) { '0' <= c <= '9' }

  predicate Alphanumeric(c: char) { Digit(c) || 'a' <= c <= 'z' || 'A' <= c <= 'Z' }

  /** At least six alphanumeric characters, not all of them digits. */
  predicate StrongCode(code: string) {
    && |code| >= 6
    && !(forall i :: 0 <= i < |code| ==> Digit(code[i]))
    && forall i :: 0 <= i < |code| ==> Alphanumeric(code[i])
  }

  // ---- Settings update ----

  datatype UpdateOutcome = Updated | SsoIncomplete | WeakCode | NoBaseUrl | NoAccessCode

  function WithFields(crypto: Crypto, s: Settings, u: SettingsUpdate): Settings {
    s.(tier := Or(u.tier, s.tier),
       baseUrl := if u.baseUrl.Some? then StripSlashes(u.baseUrl.value) else s.baseUrl,
       ttlMinutes := Or(u.ttlMinutes, s.ttlMinutes),
       issuer := if u.issuer.Some? then u.issuer else s.issuer,
       clientId := if u.clientId.Some? then u.clientId else s.clientId,
       clientSecret := if u.clientSecret.None? then s.clientSecret
                       else if u.clientSecret.value == "" then None
                       else Some(crypto.encrypt(u.clientSecret.value)))
  }

  function WithCode(crypto: Crypto, s: Settings, u: SettingsUpdate): Settings {
    if u.accessCode.None? then s
    else if u.accessCode.value == "" then s.(codeHash := None)
    else s.(codeHash := Some(crypto.hash(u.accessCode.value)))
  }

  function Rotated(s: State): State { s.(version := s.version + 1, active := map[]) }

  /** Whether an update reaches the rotation of the access code. */
  predicate UpdateRotates(crypto: Crypto, s: State, u: SettingsUpdate) {
    var fields := WithFields(crypto, s.settings, u);
    && (fields.tier == Sso ==> SsoConfigured(fields))
    && u.accessCode.Some? && StrongCode(u.accessCode.value)
  }

  /** What the checks that reject an update find, in their order. */
  function UpdateOutcomeOf(crypto: Crypto, s: State, u: SettingsUpdate): UpdateOutcome {
    var fields := WithFields(crypto, s.settings, u);
    if fields.tier == Sso && !SsoConfigured(fields) then SsoIncomplete
    else if Present(u.accessCode) && !StrongCode(u.accessCode.value) then WeakCode
    else if u.enabled == Some(true) && fields.baseUrl == "" then NoBaseUrl
    else if u.enabled == Some(true) && fields.tier == Code && !Present(WithCode(crypto, fields, u).codeHash)
         then NoAccessCode
    else Updated
  }

  /** The shared object after an update, rejected or not. */
  function AfterUpdate(crypto: Crypto, s: State, u: SettingsUpdate): State {
    var fields := WithFields(crypto, s.settings, u);
    var outcome := UpdateOutcomeOf(crypto, s, u);
    if outcome == SsoIncomplete || outcome == WeakCode then s.(settings := fields)
    else
      var coded := WithCode(crypto, fields, u);
      var s1 := (if UpdateRotates(crypto, s, u) then Rotated(s) else s).(settings := coded);
      if outcome == Updated && u.enabled.Some? then s1.(settings := coded.(enabled := u.enabled.value)) else s1
  }

  // ---- The access decision ----

  datatype Access =
    | Anonymous
    | Session(claims: Claims)
    | PortalDisabled
    | NoToken
    | SessionOutdated
    | WrongTier
    | SessionRevoked

  predicate Unexpired(claims: Claims, now: real) { now < claims.exp as real }

  /** The decision for a request whose bearer token is signed by the portal (`None`: no such token). */
  function Admit(s: State, token: Option<Claims>, now: real): Access {
    if !s.settings.enabled then PortalDisabled
    else if s.settings.tier == Open then Anonymous
    else if token.None? || !Unexpired(token.value, now) then NoToken
    else if token.value.psv != s.version then SessionOutdated
    else if s.settings.tier == Sso && token.value.tier != Sso then WrongTier
    else if token.value.sub !in s.active then SessionRevoked
    else Session(token.value)
  }

  // ---- Events ----

  datatype Event =
    | CodeLogin(code: string, allowed: bool, sessionId: string, at: real)
    | SsoBegin(flow: string)
    | SsoFinish(flow: string, sessionId: string, at: real)
    | Logout(token: Option<Claims>, at: real)
    | Update(update: SettingsUpdate)
    | RevokeOne(sessionId: string)
    | RevokeAll

  datatype LoginOutcome =
    | LoggedIn(claims: Claims)
    | LoginDisabled
    | WrongLoginTier
    | TooManyAttempts
    | CodeNotConfigured
    | WrongCode

  function Expiry(s: State, at: real): real { at + s.settings.ttlMinutes as real * 60.0 }

  function NewClaims(s: State, tier: Tier, sessionId: string, at: real): Claims {
    Claims(sessionId, tier, s.version, Expiry(s, at).Floor)
  }

  function CodeLoginOutcome(crypto: Crypto, s: State, code: string, allowed: bool, sessionId: string,
                            at: real): LoginOutcome {
    if !s.settings.enabled then LoginDisabled
    else if s.settings.tier != Code then WrongLoginTier
    else if !allowed then TooManyAttempts
    else if !Present(s.settings.codeHash) then CodeNotConfigured
    else if crypto.hash(code) != s.settings.codeHash.value then WrongCode
    else LoggedIn(NewClaims(s, Code, sessionId, at))
  }

  /** The token an event hands out, if any. A single-sign-on login ends whatever has happened since it began. */
  function Issued(crypto: Crypto, s: State, e: Event): Option<Claims> {
    match e
    case CodeLogin(code, allowed, sessionId, at) =>
      var outcome := CodeLoginOutcome(crypto, s, code, allowed, sessionId, at);
      if outcome.LoggedIn? then Some(outcome.claims) else None
    case SsoFinish(flow, sessionId, at) => if flow in s.flows then Some(NewClaims(s, Sso, sessionId, at)) else None
    case _ => None
  }

  predicate Rotates(crypto: Crypto, s: State, e: Event) {
    e.RevokeAll? || (e.Update? && UpdateRotates(crypto, s, e.update))
  }

  /** Whether an event takes a single session off the active map. */
  predicate Removes(s: State, e: Event, sessionId: string) {
    match e
    case RevokeOne(id) => id == sessionId
    case Logout(token, at) => Admit(s, token, at).Session? && token.value.sub == sessionId
    case _ => false
  }

  function Step(crypto: Crypto, s: State, e: Event): State {
    match e
    case CodeLogin(_, _, sessionId, at) =>
      if Issued(crypto, s, e).Some? then s.(active := s.active[sessionId := Expiry(s, at)]) else s
    case SsoBegin(flow) => if s.settings.enabled && s.settings.tier == Sso then s.(flows := s.flows + {flow}) else s
    case SsoFinish(flow, sessionId, at) =>
      if flow in s.flows then s.(active := s.active[sessionId := Expiry(s, at)], flows := s.flows - {flow}) else s
    case Logout(token, at) =>
      if Admit(s, token, at).Session? then s.(active := s.active - {token.value.sub}) else s
    case Update(update) => AfterUpdate(crypto, s, update)
    case RevokeOne(sessionId) => s.(active := s.active - {sessionId})
    case RevokeAll => Rotated(s)
  }

  // ---- The handlers ----

  class Portal {
    const crypto: Crypto
    var enabled: bool
    var tier: Tier
    var baseUrl: string
    var codeHash: Option<string>
    var ttlMinutes: nat
    var issuer: Option<string>
    var clientId: Option<string>
    var clientSecret: Option<string>
    var version: nat
    var active: map<string, real>
    var flows: set<string>

    constructor (crypto: Crypto)
      ensures Now() == INITIAL
      ensures this.crypto == crypto
    {
      this.crypto := crypto;
      enabled, tier, baseUrl, codeHash, ttlMinutes := false, Open, "", None, 480;
      issuer, clientId, clientSecret := None, None, None;
      version, active, flows := 0, map[], {};
    }

    function Now(): State
      reads this
    {
      State(Fields(), version, active, flows)
    }

    function Fields(): Settings
      reads this
    {
      Settings(enabled, tier, baseUrl, codeHash, ttlMinutes, issuer, clientId, clientSecret)
    }

    method AuthenticateWithCode(code: string, allowed: bool, sessionId: string, at: real)
      returns (outcome: LoginOutcome)
      modifies `active
      ensures outcome == CodeLoginOutcome(crypto, old(Now()), code, allowed, sessionId, at)
      ensures outcome.LoggedIn? <==>
                enabled && tier == Code && allowed && codeHash == Some(crypto.hash(code)) && crypto.hash(code) != ""
      ensures outcome == LoginDisabled <==> !enabled
      ensures outcome == WrongLoginTier <==> enabled && tier != Code
      ensures outcome == TooManyAttempts <==> enabled && tier == Code && !allowed
      ensures outcome == CodeNotConfigured <==>
                enabled && tier == Code && allowed && (codeHash == None || codeHash == Some(""))
      ensures Now() == Step(crypto, old(Now()), CodeLogin(code, allowed, sessionId, at))
    {
      if !enabled { return LoginDisabled; }
      if tier != Code { return WrongLoginTier; }
      if !allowed { return TooManyAttempts; }
      if codeHash.None? || codeHash.value == "" { return CodeNotConfigured; }
      if crypto.hash(code) != codeHash.value { return WrongCode; }
      var expiresAt := at + ttlMinutes as real * 60.0;
      outcome := LoggedIn(Claims(sessionId, Code, version, expiresAt.Floor));
      active := active[sessionId := expiresAt];
    }

    /** The checks of a single-sign-on callback, before it waits for the identity provider ... */
    method BeginSsoCallback(flow: string) returns (started: bool)
      modifies `flows
      ensures started == (old(Now()).settings.enabled && old(Now()).settings.tier == Sso)
      ensures Now() == Step(crypto, old(Now()), SsoBegin(flow))
    {
      if !enabled || tier != Sso { return false; }
      flows := flows + {flow};
      return true;
    }

    /** ... and the session it creates afterwards, which looks at none of the settings but the lifetime. */
    method FinishSsoCallback(flow: string, sessionId: string, at: real) returns (claims: Claims)
      requires flow in flows
      modifies `active, `flows
      ensures Issued(crypto, old(Now()), SsoFinish(flow, sessionId, at)) == Some(claims)
      ensures Now() == Step(crypto, old(Now()), SsoFinish(flow, sessionId, at))
    {
      var expiresAt := at + ttlMinutes as real * 60.0;
      claims := Claims(sessionId, Sso, version, expiresAt.Floor);
      active := active[sessionId := expiresAt];
      flows := flows - {flow};
    }

    method GetPortalSession(token: Option<Claims>, now: real) returns (access: Access)
      ensures access == Admit(Now(), token, now)
      ensures access == PortalDisabled <==> !enabled
      ensures access == Anonymous <==> enabled && tier == Open
      ensures access == NoToken <==> enabled && tier != Open && (token.None? || token.value.exp as real <= now)
      ensures access.Session? <==>
                && enabled && tier != Open && token.Some? && now < token.value.exp as real
                && token.value.psv == version && (tier == Sso ==> token.value.tier == Sso)
                && token.value.sub in active
      ensures access.Session? ==> access.claims == token.value
      ensures access == SessionOutdated <==>
                enabled && tier != Open && token.Some? && now < token.value.exp as real && token.value.psv != version
      ensures access == WrongTier <==>
                && enabled && tier == Sso && token.Some? && now < token.value.exp as real
                && token.value.psv == version && token.value.tier != Sso
    {
      if !enabled { return PortalDisabled; }
      if tier == Open { return Anonymous; }
      if tier == Code {
        if token.None? || token.value.exp as real <= now { return NoToken; }
        if token.value.psv != version { return SessionOutdated; }
        if token.value.sub !in active { return SessionRevoked; }
        return Session(token.value);
      }
      if token.None? || token.value.exp as real <= now { return NoToken; }
      if token.value.psv != version { return SessionOutdated; }
      if token.value.tier != Sso { return WrongTier; }
      if token.value.sub !in active { return SessionRevoked; }
      return Session(token.value);
    }

    method SsoLogout(token: Option<Claims>, now: real) returns (access: Access)
      modifies `active
      ensures access == Admit(old(Now()), token, now)
      ensures Now() == Step(crypto, old(Now()), Logout(token, now))
    {
      access := GetPortalSession(token, now);
      if access.Session? {
        active := active - {access.claims.sub};
      }
    }

    method InvalidateSessionsOnRotation()
      modifies `version, `active
      ensures Now() == Rotated(old(Now()))
    {
      version := version + 1;
      active := map[];
    }

    /** The plain fields of an update. */
    method WriteFields(u: SettingsUpdate)
      modifies `tier, `baseUrl, `ttlMinutes, `issuer, `clientId, `clientSecret
      ensures Fields() == WithFields(crypto, old(Fields()), u)
    {
      if u.tier.Some? { tier := u.tier.value; }
      if u.baseUrl.Some? { baseUrl := StripSlashes(u.baseUrl.value); }
      if u.ttlMinutes.Some? { ttlMinutes := u.ttlMinutes.value; }
      if u.issuer.Some? { issuer := u.issuer; }
      if u.clientId.Some? { clientId := u.clientId; }
      if u.clientSecret.Some? {
        clientSecret := if u.clientSecret.value != "" then Some(crypto.encrypt(u.clientSecret.value)) else None;
      }
    }

    /** Fields are written as they are checked; a rejection leaves what was already written. */
    method UpdatePortalSettings(u: SettingsUpdate) returns (outcome: UpdateOutcome)
      modifies this
      ensures outcome == UpdateOutcomeOf(crypto, old(Now()), u)
      ensures Now() == Step(crypto, old(Now()), Update(u))
    {
      WriteFields(u);
      if tier == Sso && !(Present(issuer) && Present(clientId) && Present(clientSecret)) {
        return SsoIncomplete;
      }
      if u.accessCode.Some? {
        if u.accessCode.value == "" {
          codeHash := None;
        } else {
          if !StrongCode(u.accessCode.value) { return WeakCode; }
          codeHash := Some(crypto.hash(u.accessCode.value));
          InvalidateSessionsOnRotation();
        }
      }
      if u.enabled.Some? {
        if u.enabled.value {
          if baseUrl == "" { return NoBaseUrl; }
          if tier == Code && !Present(codeHash) { return NoAccessCode; }
        }
        enabled := u.enabled.value;
      }
      return Updated;
    }

    method RevokePortalSession(sessionId: string) returns (found: bool)
      modifies `active
      ensures found == (sessionId in old(active))
      ensures Now() == Step(crypto, old(Now()), RevokeOne(sessionId))
    {
      if sessionId !in active {
        assert active - {sessionId} == active;
        return false;
      }
      active := active - {sessionId};
      return true;
    }

    method RevokeAllPortalSessions()
      modifies `version, `active
      ensures Now() == Step(crypto, old(Now()), RevokeAll)
    {
      InvalidateSessionsOnRotation();
    }
  }

  // ---- Runs ----

  /** A run of one process from no sessions; session ids are never handed out twice. */
  ghost predicate IsRun(crypto: Crypto, run: seq<State>, events: seq<Event>) {
    && |run| == |events| + 1
    && run[0].active == map[] && run[0].flows == {}
    && (forall i :: 0 <= i < |events| ==> run[i + 1] == Step(crypto, run[i], events[i]))
    && forall i, j, c, d :: 0 <= i < j < |events|
         && IssuedAt(crypto, run, events, i, c) && IssuedAt(crypto, run, events, j, d)
         ==> c.sub != d.sub
  }

  ghost predicate IssuedAt(crypto: Crypto, run: seq<State>, events: seq<Event>, m: int, c: Claims)
    requires |run| == |events| + 1
  {
    0 <= m < |events| && Issued(crypto, run[m], events[m]) == Some(c)
  }

  ghost predicate RotatesAt(crypto: Crypto, run: seq<State>, events: seq<Event>, k: int)
    requires |run| == |events| + 1
  {
    0 <= k < |events| && Rotates(crypto, run[k], events[k])
  }

  ghost predicate RemovesAt(run: seq<State>, events: seq<Event>, k: int, sessionId: string)
    requires |run| == |events| + 1
  {
    0 <= k < |events| && Removes(run[k], events[k], sessionId)
  }

  /** One step changes the version only by rotating, and then clears every session. */
  lemma StepVersion(crypto: Crypto, s: State, e: Event)
    ensures var s' := Step(crypto, s, e);
            if Rotates(crypto, s, e) then s'.version == s.version + 1 && s'.active == map[] else s'.version == s.version
  {
  }

  /** One step keeps a session unless it rotates, removes it, or is the login that adds it. */
  lemma StepActive(crypto: Crypto, s: State, e: Event, id: string)
    ensures var s' := Step(crypto, s, e);
            id in s'.active <==> || (Issued(crypto, s, e).Some? && Issued(crypto, s, e).value.sub == id)
                                 || (id in s.active && !Rotates(crypto, s, e) && !Removes(s, e, id))
  {
    StepVersion(crypto, s, e);
  }

  /** The version never decreases, and a rotation raises it. */
  lemma {:induction false} VersionNeverDecreases(crypto: Crypto, run: seq<State>, events: seq<Event>, i: nat, j: nat)
    requires IsRun(crypto, run, events) && i <= j < |run|
    ensures run[i].version <= run[j].version
    ensures run[i].version == run[j].version <==> forall k :: i <= k < j ==> !RotatesAt(crypto, run, events, k)
    decreases j
  {
    if i < j {
      VersionNeverDecreases(crypto, run, events, i, j - 1);
      StepVersion(crypto, run[j - 1], events[j - 1]);
      assert run[j] == Step(crypto, run[j - 1], events[j - 1]);
      assert RotatesAt(crypto, run, events, j - 1) <==> Rotates(crypto, run[j - 1], events[j - 1]);
    }
  }

  /** A session is active exactly until the first rotation or its own removal. */
  lemma {:induction false} ActiveIff(crypto: Crypto, run: seq<State>, events: seq<Event>, m: nat, i: nat, c: Claims)
    requires IsRun(crypto, run, events) && IssuedAt(crypto, run, events, m, c) && m < i < |run|
    ensures c.sub in run[i].active <==>
            forall k :: m < k < i ==> !RotatesAt(crypto, run, events, k) && !RemovesAt(run, events, k, c.sub)
    decreases i
  {
    assert run[i] == Step(crypto, run[i - 1], events[i - 1]);
    StepActive(crypto, run[i - 1], events[i - 1], c.sub);
    if i > m + 1 {
      ActiveIff(crypto, run, events, m, i - 1, c);
      if Issued(crypto, run[i - 1], events[i - 1]).Some? {
        assert IssuedAt(crypto, run, events, i - 1, Issued(crypto, run[i - 1], events[i - 1]).value);
      }
      assert RotatesAt(crypto, run, events, i - 1) <==> Rotates(crypto, run[i - 1], events[i - 1]);
      assert RemovesAt(run, events, i - 1, c.sub) <==> Removes(run[i - 1], events[i - 1], c.sub);
    }
  }

  /** Every active session was handed out earlier in the run, with a token for it. */
  lemma {:induction false} ActiveWasIssued(crypto: Crypto, run: seq<State>, events: seq<Event>, i: nat, id: string)
    returns (m: int, c: Claims)
    requires IsRun(crypto, run, events) && i < |run| && id in run[i].active
    ensures m < i && IssuedAt(crypto, run, events, m, c) && c.sub == id
  {
    assert run[i] == Step(crypto, run[i - 1], events[i - 1]);
    StepActive(crypto, run[i - 1], events[i - 1], id);
    var last := Issued(crypto, run[i - 1], events[i - 1]);
    if last.Some? && last.value.sub == id {
      m, c := i - 1, last.value;
    } else {
      m, c := ActiveWasIssued(crypto, run, events, i - 1, id);
    }
  }

  lemma IssueVersion(crypto: Crypto, run: seq<State>, events: seq<Event>, m: nat, c: Claims)
    requires IsRun(crypto, run, events) && IssuedAt(crypto, run, events, m, c)
    ensures c.psv == run[m].version == run[m + 1].version
  {
    StepVersion(crypto, run[m], events[m]);
    assert run[m + 1] == Step(crypto, run[m], events[m]);
  }

  // ---- Main results ----

  /** Every active session carries the current version: the membership test alone implies the version test. */
  lemma MembershipImpliesVersion(crypto: Crypto, run: seq<State>, events: seq<Event>, m: nat, i: nat, c: Claims)
    requires IsRun(crypto, run, events) && IssuedAt(crypto, run, events, m, c) && m < i < |run|
    ensures c.sub in run[i].active ==> c.psv == run[i].version
  {
    if c.sub in run[i].active {
      ActiveIff(crypto, run, events, m, i, c);
      IssueVersion(crypto, run, events, m, c);
      VersionNeverDecreases(crypto, run, events, m + 1, i);
    }
  }

  /**
   What ends a session: a revocation of all or of this one, a logout with an accepted
   token for it, or an update with a strong code that does not lack its sign-on settings.
   */
  ghost predicate EndsAt(crypto: Crypto, run: seq<State>, events: seq<Event>, k: int, sessionId: string)
    requires |run| == |events| + 1
  {
    && 0 <= k < |events|
    && match events[k]
       case RevokeAll => true
       case RevokeOne(id) => id == sessionId
       case Logout(token, at) => token.Some? && token.value.sub == sessionId && Admit(run[k], token, at).Session?
       case Update(u) => !LacksSso(crypto, run[k], u) && u.accessCode.Some? && StrongCode(u.accessCode.value)
       case _ => false
  }

  /**
   Exactly when an issued token is accepted: the portal is enabled in a tier the
   token serves, the token has not expired, and since it was issued there was no
   rotation, no revocation of it and no logout with it.
   */
  lemma AcceptedIff(crypto: Crypto, run: seq<State>, events: seq<Event>, m: nat, i: nat, c: Claims, now: real)
    requires IsRun(crypto, run, events) && IssuedAt(crypto, run, events, m, c) && m < i < |run|
    ensures Admit(run[i], Some(c), now) == Session(c) <==>
            && run[i].settings.enabled
            && (run[i].settings.tier == Code || (run[i].settings.tier == Sso && c.tier == Sso))
            && now < c.exp as real
            && forall k :: m < k < i ==> !EndsAt(crypto, run, events, k, c.sub)
  {
    forall k
      ensures EndsAt(crypto, run, events, k, c.sub) <==>
              RotatesAt(crypto, run, events, k) || RemovesAt(run, events, k, c.sub)
    {
    }
    ActiveIff(crypto, run, events, m, i, c);
    MembershipImpliesVersion(crypto, run, events, m, i, c);
  }

  /** After a rotation no older token is accepted again, by the version test alone. */
  lemma RotationIsFinal(crypto: Crypto, run: seq<State>, events: seq<Event>, m: nat, r: nat, i: nat,
                        c: Claims, now: real)
    requires IsRun(crypto, run, events) && IssuedAt(crypto, run, events, m, c) && m < r < i < |run|
    requires events[r] == RevokeAll || (events[r].Update? && EndsAt(crypto, run, events, r, c.sub))
    ensures c.psv < run[i].version && !Admit(run[i], Some(c), now).Session?
  {
    assert RotatesAt(crypto, run, events, r);
    IssueVersion(crypto, run, events, m, c);
    VersionNeverDecreases(crypto, run, events, m, i);
  }

  /** After a logout or a revocation of its own, a token is not accepted again, whatever happens to the settings. */
  lemma RemovalIsFinal(crypto: Crypto, run: seq<State>, events: seq<Event>, m: nat, r: nat, i: nat,
                       c: Claims, now: real)
    requires IsRun(crypto, run, events) && IssuedAt(crypto, run, events, m, c) && m < r < i < |run|
    requires events[r] == RevokeOne(c.sub) || (events[r].Logout? && EndsAt(crypto, run, events, r, c.sub))
    ensures !Admit(run[i], Some(c), now).Session?
  {
    assert RemovesAt(run, events, r, c.sub);
    ActiveIff(crypto, run, events, m, i, c);
  }

  /** The update would leave the portal in the single-sign-on tier without what that tier needs. */
  predicate LacksSso(crypto: Crypto, s: State, u: SettingsUpdate) {
    var fields := WithFields(crypto, s.settings, u);
    fields.tier == Sso && !SsoConfigured(fields)
  }

  /**
   Which updates end the sessions: those with a new access code that is strong,
   unless they ask for single sign-on without configuring it. Clearing the code, or
   changing anything else, ends none; and an update that is rejected later, for
   its base URL, has rotated all the same.
   */
  lemma UpdateEndsSessionsIff(crypto: Crypto, s: State, u: SettingsUpdate)
    ensures var s' := Step(crypto, s, Update(u));
            if !LacksSso(crypto, s, u) && u.accessCode.Some? && StrongCode(u.accessCode.value)
            then s'.version == s.version + 1 && s'.active == map[]
            else s'.version == s.version && s'.active == s.active
  {
  }

  predicate Rejected(crypto: Crypto, s: State, u: SettingsUpdate) { UpdateOutcomeOf(crypto, s, u) != Updated }

  /** The checks that reject an update before anything but its plain fields is written. */
  predicate StopsEarly(crypto: Crypto, s: State, u: SettingsUpdate) {
    || LacksSso(crypto, s, u)
    || (Present(u.accessCode) && !StrongCode(u.accessCode.value))
  }

  /**
   Exactly when a rejected update changes nothing: its plain fields repeat what is
   there, and a check stops it before its access code is written, or it has no code,
   or clears a code that is not set.
   */
  lemma RejectedChangesNothingIff(crypto: Crypto, s: State, u: SettingsUpdate)
    requires Rejected(crypto, s, u)
    ensures Step(crypto, s, Update(u)) == s <==>
            && WithFields(crypto, s.settings, u) == s.settings
            && (|| StopsEarly(crypto, s, u)
                || u.accessCode == None
                || (u.accessCode == Some("") && s.settings.codeHash == None))
  {
    var s' := Step(crypto, s, Update(u));
    if UpdateRotates(crypto, s, u) {
      assert s'.version == s.version + 1;
    }
  }

  /** Whoever asks gets in: the portal is enabled and open. */
  ghost predicate OpenToAll(s: State) { forall now: real :: Admit(s, None, now) == Anonymous }

  lemma OpenToAllIff(s: State)
    ensures OpenToAll(s) <==> s.settings.enabled && s.settings.tier == Open
  {
    if OpenToAll(s) {
      assert Admit(s, None, 0.0) == Anonymous;
    }
  }

  /** Exactly when a rejected update opens a portal to all: it is enabled, not open,
      and the update asks for the open tier. */
  lemma RejectedOpensPortalIff(crypto: Crypto, s: State, u: SettingsUpdate)
    requires Rejected(crypto, s, u)
    ensures !OpenToAll(s) && OpenToAll(Step(crypto, s, Update(u))) <==>
            s.settings.enabled && s.settings.tier != Open && u.tier == Some(Open)
  {
    OpenToAllIff(s);
    OpenToAllIff(Step(crypto, s, Update(u)));
  }

  const PROTECT :=
    SettingsUpdate(Some(true), Some(Code), Some("https://portal"), Some("abc123"), None, None, None, None)
  const RELAX := SettingsUpdate(None, Some(Open), None, Some("abc"), None, None, None, None)

  function OpenedRun(crypto: Crypto): seq<State> {
    var s1 := Step(crypto, INITIAL, Update(PROTECT));
    [INITIAL, s1, Step(crypto, s1, Update(RELAX))]
  }

  /** From a fresh portal: one update protects it by a code, a second is rejected, and now everybody gets in. */
  lemma RejectedUpdateOpens(crypto: Crypto)
    requires crypto.hash("abc123") != ""
    ensures var run := OpenedRun(crypto);
            && IsRun(crypto, run, [Update(PROTECT), Update(RELAX)])
            && UpdateOutcomeOf(crypto, run[0], PROTECT) == Updated
            && (forall now: real :: Admit(run[1], None, now) == NoToken)
            && UpdateOutcomeOf(crypto, run[1], RELAX) == WeakCode
            && OpenToAll(run[2])
  {
    var run, events := OpenedRun(crypto), [Update(PROTECT), Update(RELAX)];
    assert "abc123"[0] == 'a' && !Digit('a');
    assert StrongCode("abc123") && !StrongCode("abc");
    assert StripSlashes("https://portal") == "https://portal";
    assert run[1].settings.enabled && run[1].settings.tier == Code;
    assert run[1] == Step(crypto, run[0], events[0]) && run[2] == Step(crypto, run[1], events[1]);
    RejectedOpensPortalIff(crypto, run[1], RELAX);
  }
}
