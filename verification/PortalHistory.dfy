/**
 The portal's settings, the access code in force and the tokens handed out, as
 functions of the history: which codes log in, what each login is given, and which
 update each setting comes from.
 */
module PortalHistory {
  import opened Wrappers
  import opened PortalSessions

  // ---- Strong codes ----

  predicate Letter(c: char) { 'a' <= c <= 'z' || 'A' <= c <= 'Z' }

  /** An access code is strong exactly if it has six or more letters and digits, nothing else, and some letter. */
  lemma StrongIff(code: string)
    ensures StrongCode(code) <==>
            && |code| >= 6
            && (exists i :: 0 <= i < |code| && Letter(code[i]))
            && forall i :: 0 <= i < |code| ==> Letter(code[i]) || '0' <= code[i] <= '9'
  {
    assert forall i :: 0 <= i < |code| ==> (Letter(code[i]) <==> Alphanumeric(code[i]) && !Digit(code[i]));
  }

  // ---- What one update writes ----

  predicate Given(o: Option<string>) { o.Some? && o.value != "" }

  /** After the plain fields of the update the sign-on settings are complete. */
  predicate SsoComplete(crypto: Crypto, s: Settings, u: SettingsUpdate) {
    && Given(if u.issuer.Some? then u.issuer else s.issuer)
    && Given(if u.clientId.Some? then u.clientId else s.clientId)
    && (match u.clientSecret
        case None => Given(s.clientSecret)
        case Some(secret) => secret != "" && crypto.encrypt(secret) != "")
  }

  function TierAfter(s: Settings, u: SettingsUpdate): Tier { if u.tier.Some? then u.tier.value else s.tier }

  /** The update gets past the sign-on check and brings a strong access code, or clears it. */
  predicate WritesCode(crypto: Crypto, s: Settings, u: SettingsUpdate) {
    && (TierAfter(s, u) == Sso ==> SsoComplete(crypto, s, u))
    && u.accessCode.Some? && (u.accessCode.value == "" || StrongCode(u.accessCode.value))
  }

  /** An address that is more than slashes, given now or before. */
  predicate HasAddress(s: Settings, u: SettingsUpdate) {
    match u.baseUrl
    case None => s.baseUrl != ""
    case Some(url) => exists i :: 0 <= i < |url| && url[i] != '/'
  }

  predicate HasCode(crypto: Crypto, s: Settings, u: SettingsUpdate) {
    match u.accessCode
    case None => Given(s.codeHash)
    case Some(code) => code != "" && crypto.hash(code) != ""
  }

  /** Every check passes; those of the address and the code are made only when the update enables the portal. */
  predicate Acceptable(crypto: Crypto, s: Settings, u: SettingsUpdate) {
    && (TierAfter(s, u) == Sso ==> SsoComplete(crypto, s, u))
    && (Given(u.accessCode) ==> StrongCode(u.accessCode.value))
    && (u.enabled == Some(true) ==> HasAddress(s, u) && (TierAfter(s, u) == Code ==> HasCode(crypto, s, u)))
  }

  lemma AddressIsLeft(url: string)
    ensures StripSlashes(url) != "" <==> exists i :: 0 <= i < |url| && url[i] != '/'
  {
    var r := StripSlashes(url);
    if r != "" {
      assert url[|r| - 1] != '/';
    }
  }

  /** An update is accepted exactly if it passes every check. */
  lemma AcceptedIffAcceptable(crypto: Crypto, s: State, u: SettingsUpdate)
    ensures UpdateOutcomeOf(crypto, s, u) == Updated <==> Acceptable(crypto, s.settings, u)
    ensures UpdateOutcomeOf(crypto, s, u) == SsoIncomplete <==>
            TierAfter(s.settings, u) == Sso && !SsoComplete(crypto, s.settings, u)
    ensures UpdateOutcomeOf(crypto, s, u) == WeakCode <==>
            && (TierAfter(s.settings, u) == Sso ==> SsoComplete(crypto, s.settings, u))
            && Given(u.accessCode) && !StrongCode(u.accessCode.value)
    ensures UpdateOutcomeOf(crypto, s, u) == NoBaseUrl <==>
            && Acceptable(crypto, s.settings, u.(enabled := None))
            && u.enabled == Some(true) && !HasAddress(s.settings, u)
    ensures UpdateOutcomeOf(crypto, s, u) == NoAccessCode <==>
            && Acceptable(crypto, s.settings, u.(enabled := None))
            && u.enabled == Some(true) && HasAddress(s.settings, u)
            && TierAfter(s.settings, u) == Code && !HasCode(crypto, s.settings, u)
  {
    if u.baseUrl.Some? {
      AddressIsLeft(u.baseUrl.value);
    }
  }

  /** What each field is after an event; only updates write, and a rejected one stops where it was rejected. */
  lemma StepSettings(crypto: Crypto, s: State, e: Event)
    ensures var b, a := s.settings, Step(crypto, s, e).settings;
            if !e.Update? then a == b
            else
              var u := e.update;
              && a.tier == TierAfter(b, u)
              && a.ttlMinutes == (match u.ttlMinutes case Some(ttl) => ttl case None => b.ttlMinutes)
              && a.issuer == (match u.issuer case Some(issuer) => Some(issuer) case None => b.issuer)
              && a.clientId == (match u.clientId case Some(id) => Some(id) case None => b.clientId)
              && a.baseUrl == (match u.baseUrl case Some(url) => StripSlashes(url) case None => b.baseUrl)
              && a.clientSecret == (match u.clientSecret
                                    case None => b.clientSecret
                                    case Some(secret) => if secret == "" then None else Some(crypto.encrypt(secret)))
              && a.codeHash == (if !WritesCode(crypto, b, u) then b.codeHash
                                else if u.accessCode.value == "" then None
                                else Some(crypto.hash(u.accessCode.value)))
              && a.enabled == if u.enabled.Some? && Acceptable(crypto, b, u) then u.enabled.value else b.enabled
  {
    if e.Update? {
      AcceptedIffAcceptable(crypto, s, e.update);
    }
  }

  // ---- The settings in force ----

  datatype Field = TierField | Lifetime | Address | Issuer | ClientId | Secret

  predicate Writes(u: SettingsUpdate, f: Field) {
    match f
    case TierField => u.tier.Some?
    case Lifetime => u.ttlMinutes.Some?
    case Address => u.baseUrl.Some?
    case Issuer => u.issuer.Some?
    case ClientId => u.clientId.Some?
    case Secret => u.clientSecret.Some?
  }

  predicate WritesAt(events: seq<Event>, k: int, f: Field) {
    0 <= k < |events| && events[k].Update? && Writes(events[k].update, f)
  }

  ghost predicate NoneWrites(events: seq<Event>, j: int, i: int, f: Field) {
    forall k :: j <= k < i ==> !WritesAt(events, k, f)
  }

  /** The two have the same value of a plain field. */
  predicate Same(a: Settings, b: Settings, f: Field) {
    match f
    case TierField => a.tier == b.tier
    case Lifetime => a.ttlMinutes == b.ttlMinutes
    case Address => a.baseUrl == b.baseUrl
    case Issuer => a.issuer == b.issuer
    case ClientId => a.clientId == b.clientId
    case Secret => a.clientSecret == b.clientSecret
  }

  /** The field has the value that the update gives it. */
  predicate Has(crypto: Crypto, a: Settings, u: SettingsUpdate, f: Field)
    requires Writes(u, f)
  {
    match f
    case TierField => a.tier == u.tier.value
    case Lifetime => a.ttlMinutes == u.ttlMinutes.value
    case Address => a.baseUrl == StripSlashes(u.baseUrl.value)
    case Issuer => a.issuer == u.issuer
    case ClientId => a.clientId == u.clientId
    case Secret =>
      a.clientSecret == if u.clientSecret.value == "" then None else Some(crypto.encrypt(u.clientSecret.value))
  }

  lemma StepField(crypto: Crypto, s: State, e: Event, f: Field)
    ensures var a := Step(crypto, s, e).settings;
            if e.Update? && Writes(e.update, f) then Has(crypto, a, e.update, f) else Same(a, s.settings, f)
  {
    StepSettings(crypto, s, e);
  }

  ghost predicate EnablesAt(crypto: Crypto, run: seq<State>, events: seq<Event>, k: int)
    requires |run| == |events| + 1
  {
    0 <= k < |events| && events[k].Update? && events[k].update.enabled.Some?
    && Acceptable(crypto, run[k].settings, events[k].update)
  }

  lemma RunStep(crypto: Crypto, run: seq<State>, events: seq<Event>, k: nat)
    requires IsRun(crypto, run, events) && k < |events|
    ensures run[k + 1] == Step(crypto, run[k], events[k])
  {
  }

  /** A field that no update wrote is the one from before ... */
  lemma {:induction false} FieldStays(crypto: Crypto, run: seq<State>, events: seq<Event>, j: nat, i: nat, f: Field)
    requires IsRun(crypto, run, events) && j <= i < |run| && NoneWrites(events, j, i, f)
    ensures Same(run[i].settings, run[j].settings, f)
    decreases i
  {
    if j < i {
      FieldStays(crypto, run, events, j, i - 1, f);
      RunStep(crypto, run, events, i - 1);
      StepField(crypto, run[i - 1], events[i - 1], f);
      assert !WritesAt(events, i - 1, f);
    }
  }

  /** ... and every other is the one of the last update that wrote it, accepted or rejected. */
  lemma FieldIsLastWritten(crypto: Crypto, run: seq<State>, events: seq<Event>, j: nat, i: nat, f: Field)
    requires IsRun(crypto, run, events) && j < i < |run|
    requires WritesAt(events, j, f) && NoneWrites(events, j + 1, i, f)
    ensures Has(crypto, run[i].settings, events[j].update, f)
  {
    RunStep(crypto, run, events, j);
    StepField(crypto, run[j], events[j], f);
    FieldStays(crypto, run, events, j + 1, i, f);
  }

  lemma StepSwitch(crypto: Crypto, run: seq<State>, events: seq<Event>, k: nat)
    requires IsRun(crypto, run, events) && k < |events|
    ensures run[k + 1].settings.enabled ==
            if EnablesAt(crypto, run, events, k) then events[k].update.enabled.value else run[k].settings.enabled
  {
    RunStep(crypto, run, events, k);
    StepSettings(crypto, run[k], events[k]);
  }

  lemma {:induction false} SwitchStays(crypto: Crypto, run: seq<State>, events: seq<Event>, j: nat, i: nat)
    requires IsRun(crypto, run, events) && j <= i < |run|
    requires forall k :: j <= k < i ==> !EnablesAt(crypto, run, events, k)
    ensures run[i].settings.enabled == run[j].settings.enabled
    decreases i
  {
    if j < i {
      SwitchStays(crypto, run, events, j, i - 1);
      StepSwitch(crypto, run, events, i - 1);
    }
  }

  /** The switch is that of the last accepted update with one: a disabling one disables, a rejected one does nothing. */
  lemma SwitchIsLastAccepted(crypto: Crypto, run: seq<State>, events: seq<Event>, j: nat, i: nat)
    requires IsRun(crypto, run, events) && j < i < |run| && EnablesAt(crypto, run, events, j)
    requires forall k :: j < k < i ==> !EnablesAt(crypto, run, events, k)
    ensures run[i].settings.enabled == events[j].update.enabled.value
  {
    StepSwitch(crypto, run, events, j);
    SwitchStays(crypto, run, events, j + 1, i);
  }

  // ---- The access code in force ----

  ghost predicate CodeWrittenAt(crypto: Crypto, run: seq<State>, events: seq<Event>, j: int)
    requires |run| == |events| + 1
  {
    0 <= j < |events| && events[j].Update? && WritesCode(crypto, run[j].settings, events[j].update)
  }

  /** The code that the last update reaching the code wrote before `i`; the empty code is none. */
  ghost predicate InForce(crypto: Crypto, run: seq<State>, events: seq<Event>, j: int, i: int, code: string)
    requires |run| == |events| + 1
  {
    && j < i && CodeWrittenAt(crypto, run, events, j) && events[j].update.accessCode == Some(code)
    && forall k :: j < k < i ==> !CodeWrittenAt(crypto, run, events, k)
  }

  lemma CodeStep(crypto: Crypto, run: seq<State>, events: seq<Event>, i: nat, i': nat, j: int, code: string)
    requires |run| == |events| + 1 && i < |events| && i' == i + 1
    ensures InForce(crypto, run, events, j, i', code) <==>
            if CodeWrittenAt(crypto, run, events, i) then j == i && events[i].update.accessCode == Some(code)
            else InForce(crypto, run, events, j, i, code)
  {
  }

  lemma StepCode(crypto: Crypto, run: seq<State>, events: seq<Event>, i: nat)
    requires IsRun(crypto, run, events) && i < |events|
    ensures run[i + 1].settings.codeHash ==
            if !CodeWrittenAt(crypto, run, events, i) then run[i].settings.codeHash
            else var code := events[i].update.accessCode.value; if code == "" then None else Some(crypto.hash(code))
  {
    RunStep(crypto, run, events, i);
    StepSettings(crypto, run[i], events[i]);
  }

  /** The stored hash is that of the code in force ... */
  lemma {:induction false} CodeInForceIsStored(crypto: Crypto, run: seq<State>, events: seq<Event>, i: nat,
                                               j: int, code: string)
    requires IsRun(crypto, run, events) && i < |run| && InForce(crypto, run, events, j, i, code)
    ensures run[i].settings.codeHash == if code == "" then None else Some(crypto.hash(code))
  {
    StepCode(crypto, run, events, i - 1);
    CodeStep(crypto, run, events, i - 1, i, j, code);
    if !CodeWrittenAt(crypto, run, events, i - 1) {
      CodeInForceIsStored(crypto, run, events, i - 1, j, code);
    }
  }

  /** ... and there is none without one. */
  lemma {:induction false} StoredIsInForce(crypto: Crypto, run: seq<State>, events: seq<Event>, i: nat)
    returns (j: int, code: string)
    requires IsRun(crypto, run, events) && i < |run| && run[0].settings.codeHash == None
    requires run[i].settings.codeHash.Some?
    ensures InForce(crypto, run, events, j, i, code) && code != ""
    ensures run[i].settings.codeHash == Some(crypto.hash(code))
  {
    StepCode(crypto, run, events, i - 1);
    if CodeWrittenAt(crypto, run, events, i - 1) {
      j, code := i - 1, events[i - 1].update.accessCode.value;
    } else {
      j, code := StoredIsInForce(crypto, run, events, i - 1);
    }
    CodeStep(crypto, run, events, i - 1, i, j, code);
  }

  ghost predicate CollisionFree(crypto: Crypto) {
    && (forall a, b :: crypto.hash(a) == crypto.hash(b) ==> a == b)
    && forall a :: crypto.hash(a) != ""
  }

  /** Whether a code login with this code is let in, given the code in force. */
  ghost predicate KnowsCode(crypto: Crypto, run: seq<State>, events: seq<Event>, i: int, code: string)
    requires |run| == |events| + 1
  {
    code != "" && exists j :: InForce(crypto, run, events, j, i, code)
  }

  lemma StoredIffInForce(crypto: Crypto, run: seq<State>, events: seq<Event>, i: nat, code: string)
    requires IsRun(crypto, run, events) && i < |run| && run[0].settings.codeHash == None && CollisionFree(crypto)
    ensures run[i].settings.codeHash == Some(crypto.hash(code)) <==> KnowsCode(crypto, run, events, i, code)
  {
    if KnowsCode(crypto, run, events, i, code) {
      var j :| InForce(crypto, run, events, j, i, code);
      CodeInForceIsStored(crypto, run, events, i, j, code);
    }
    if run[i].settings.codeHash == Some(crypto.hash(code)) {
      var j, stored := StoredIsInForce(crypto, run, events, i);
      assert stored == code;
    }
  }

  /**
   Main result: with a collision-free hash, a code login succeeds exactly with the
   access code that the last update reaching the code wrote, in an enabled portal of
   the code tier, while the address has attempts left; and with none once it is cleared.
   */
  lemma CodeLoginIff(crypto: Crypto, run: seq<State>, events: seq<Event>, i: nat,
                     code: string, allowed: bool, sessionId: string, at: real)
    requires IsRun(crypto, run, events) && run[0].settings.codeHash == None && CollisionFree(crypto)
    requires i < |events| && events[i] == CodeLogin(code, allowed, sessionId, at)
    ensures (exists c :: IssuedAt(crypto, run, events, i, c)) <==>
            && run[i].settings.enabled && run[i].settings.tier == Code && allowed
            && KnowsCode(crypto, run, events, i, code)
    ensures sessionId in run[i + 1].active <==>
            sessionId in run[i].active || exists c :: IssuedAt(crypto, run, events, i, c)
  {
    StoredIffInForce(crypto, run, events, i, code);
    RunStep(crypto, run, events, i);
    var issued := Issued(crypto, run[i], events[i]);
    if issued.Some? {
      assert IssuedAt(crypto, run, events, i, issued.value);
    }
  }

  // ---- Single sign-on ----

  /** The callback was begun at `j`, in an enabled portal of the sso tier, and not finished before `i`. */
  ghost predicate Begun(run: seq<State>, events: seq<Event>, j: int, i: int, flow: string)
    requires |run| == |events| + 1
  {
    && 0 <= j < i <= |events| && events[j] == SsoBegin(flow)
    && run[j].settings.enabled && run[j].settings.tier == Sso
    && forall k :: j < k < i ==> !(events[k].SsoFinish? && events[k].flow == flow)
  }

  lemma {:induction false} FlowsFollowHistory(crypto: Crypto, run: seq<State>, events: seq<Event>, i: nat, flow: string)
    requires IsRun(crypto, run, events) && i < |run|
    ensures flow in run[i].flows <==> exists j :: Begun(run, events, j, i, flow)
  {
    if i > 0 {
      FlowsFollowHistory(crypto, run, events, i - 1, flow);
      RunStep(crypto, run, events, i - 1);
      FlowStep(crypto, run, events, i - 1, i, flow);
    }
  }

  lemma FlowStep(crypto: Crypto, run: seq<State>, events: seq<Event>, i: nat, i': nat, flow: string)
    requires |run| == |events| + 1 && i < |events| && i' == i + 1
    requires run[i'] == Step(crypto, run[i], events[i])
    requires flow in run[i].flows <==> exists j :: Begun(run, events, j, i, flow)
    ensures flow in run[i'].flows <==> exists j :: Begun(run, events, j, i', flow)
  {
    forall j
      ensures Begun(run, events, j, i', flow) <==>
              || (j == i && events[i] == SsoBegin(flow) && run[i].settings.enabled && run[i].settings.tier == Sso)
              || (Begun(run, events, j, i, flow) && !(events[i].SsoFinish? && events[i].flow == flow))
    {
    }
    assert events[i] == SsoBegin(flow) && run[i].settings.enabled && run[i].settings.tier == Sso
      ==> Begun(run, events, i, i', flow);
  }

  // ---- What a login is given ----

  /** A token names the new session and the version of the moment, and lives as long as the settings say. */
  ghost predicate Fits(c: Claims, s: State, tier: Tier, sessionId: string, at: real) {
    && c.sub == sessionId && c.tier == tier && c.psv == s.version
    && c.exp as real <= at + 60.0 * s.settings.ttlMinutes as real < c.exp as real + 1.0
  }

  /** Exactly the successful logins hand out a token, and what it says. */
  lemma IssuedTokens(crypto: Crypto, run: seq<State>, events: seq<Event>, i: nat, c: Claims)
    requires IsRun(crypto, run, events) && IssuedAt(crypto, run, events, i, c)
    ensures match events[i]
            case CodeLogin(code, allowed, sessionId, at) => Fits(c, run[i], Code, sessionId, at)
            case SsoFinish(flow, sessionId, at) =>
              Fits(c, run[i], Sso, sessionId, at) && exists j :: Begun(run, events, j, i, flow)
            case _ => false
  {
    if events[i].SsoFinish? {
      FlowsFollowHistory(crypto, run, events, i, events[i].flow);
    }
  }

  /** A callback that was begun ends in a login, whatever the settings have become. */
  lemma BegunFinishes(crypto: Crypto, run: seq<State>, events: seq<Event>, j: nat, i: nat,
                      flow: string, sessionId: string, at: real)
    requires IsRun(crypto, run, events) && i < |events| && events[i] == SsoFinish(flow, sessionId, at)
    requires Begun(run, events, j, i, flow)
    ensures exists c :: IssuedAt(crypto, run, events, i, c)
    ensures sessionId in run[i + 1].active
  {
    FlowsFollowHistory(crypto, run, events, i, flow);
    RunStep(crypto, run, events, i);
    assert IssuedAt(crypto, run, events, i, Issued(crypto, run[i], events[i]).value);
  }
}
