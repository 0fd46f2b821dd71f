/**
 Approval tokens for tool calls that change things. A token names one tool call
 of one user in one session; a later message from that user in that session may
 spend it once, before it expires.
 */
module Approval {
  import opened Wrappers

  // ---- Risk and lifetime ----

  datatype Risk = Low | Medium | High | Critical

  /** The declared risk of a mutation tool; a tool without a declaration counts as medium. */
  function RiskOf(tool: string): Risk {
    if tool == "delete_dataset" then High
    else if tool == "stop_public_tunnel" then Low
    else Medium
  }

  function RiskTtl(risk: Risk): real {
    match risk
    case Low => 120.0
    case Medium => 60.0
    case High => 30.0
    case Critical => 15.0
  }

  // ---- Tokens as values ----

  datatype Status = Pending | Claimed | Approved | Denied | Expired

  /** The arguments of a tool call, as their canonical JSON text. */
  type Args = string

  datatype Token = Token(
    userId: string,
    sessionId: string,
    tool: string,
    args: Args,
    argsHash: string,
    status: Status,
    createdAt: real,
    expiresAt: real)

  type Table = map<string, Token>

  datatype Outcome =
    | Success(tool: string, args: Args)
    | NotFound
    | TooLate
    | WrongUser
    | WrongSession
    | ArgsTampered

  function Issue(hash: Args -> string, userId: string, sessionId: string, tool: string, args: Args, now: real): Token {
    Token(userId, sessionId, tool, args, hash(args), Pending, now, now + RiskTtl(RiskOf(tool)))
  }

  function WithoutExpired(t: Table, now: real): Table { map id | id in t && now <= t[id].expiresAt :: t[id] }

  function ConsumeOutcome(hash: Args -> string, t: Table, id: string, userId: string, sessionId: string,
                          now: real): Outcome {
    if id !in t || t[id].status != Pending then NotFound
    else if now > t[id].expiresAt then TooLate
    else if t[id].userId != userId then WrongUser
    else if t[id].sessionId != sessionId then WrongSession
    else if t[id].argsHash != hash(t[id].args) then ArgsTampered
    else Success(t[id].tool, t[id].args)
  }

  /** Whether an outcome removes the token; the others leave it for its rightful user. */
  predicate Spends(o: Outcome) { o.Success? || o.TooLate? || o.ArgsTampered? }

  /** The status a consumed or refused token ends up with. */
  function FinalStatus(o: Outcome): Status {
    match o
    case Success(_, _) => Approved
    case TooLate => Expired
    case ArgsTampered => Denied
    case _ => Pending
  }

  datatype Event =
    | Create(id: string, userId: string, sessionId: string, tool: string, args: Args, cleanupAt: real, at: real)
    | Consume(id: string, userId: string, sessionId: string, at: real)
    | Deny(id: string)
    | Tamper(id: string, args: Args)

  /** One call, with or without the sweep that precedes a creation. */
  function StepWith(hash: Args -> string, sweeps: bool, t: Table, e: Event): Table {
    match e
    case Create(id, userId, sessionId, tool, args, cleanupAt, at) =>
      (if sweeps then WithoutExpired(t, cleanupAt) else t)[id := Issue(hash, userId, sessionId, tool, args, at)]
    case Consume(id, userId, sessionId, at) =>
      if Spends(ConsumeOutcome(hash, t, id, userId, sessionId, at)) then t - {id} else t
    case Deny(id) => if id in t && t[id].status == Pending then t - {id} else t
    case Tamper(id, args) => if id in t then t[id := t[id].(args := args)] else t
  }

  function Step(hash: Args -> string, t: Table, e: Event): Table { StepWith(hash, true, t, e) }

  function OutcomeOf(hash: Args -> string, t: Table, e: Event): Outcome
    requires e.Consume?
  {
    ConsumeOutcome(hash, t, e.id, e.userId, e.sessionId, e.at)
  }

  // ---- The service ----

  class ApprovalToken {
    const id: string
    const userId: string
    const sessionId: string
    const tool: string
    const argsHash: string
    const createdAt: real
    const expiresAt: real
    var toolInput: Args
    var status: Status

    constructor (id: string, userId: string, sessionId: string, tool: string, toolInput: Args, argsHash: string,
                 createdAt: real, expiresAt: real)
      ensures this.id == id
      ensures View() == Token(userId, sessionId, tool, toolInput, argsHash, Pending, createdAt, expiresAt)
    {
      this.id, this.userId, this.sessionId, this.tool := id, userId, sessionId, tool;
      this.toolInput, this.argsHash, this.createdAt, this.expiresAt := toolInput, argsHash, createdAt, expiresAt;
      status := Pending;
    }

    function View(): Token
      reads this
    {
      Token(userId, sessionId, tool, toolInput, argsHash, status, createdAt, expiresAt)
    }
  }

  lemma OneMoreGone<V>(m: map<string, V>, gone: set<string>, rest: set<string>, id: string)
    requires id in rest && rest <= gone
    ensures m - (gone - rest) - {id} == m - (gone - (rest - {id}))
  {
    assert gone - (rest - {id}) == gone - rest + {id};
  }

  class ApprovalTokenService {
    const hash: Args -> string
    var pending: map<string, ApprovalToken>

    constructor (hash: Args -> string)
      ensures Valid() && Contents() == map[] && this.hash == hash
    {
      this.hash := hash;
      pending := map[];
    }

    ghost predicate Valid()
      reads this, pending.Values
    {
      forall id :: id in pending ==> pending[id].id == id
    }

    ghost function Contents(): Table
      reads this, pending.Values
    {
      map id | id in pending :: pending[id].View()
    }

    /** Takes one token out of the table and gives it its final status. */
    method Remove(token: ApprovalToken, status: Status)
      requires Valid() && token.id in pending && pending[token.id] == token
      modifies `pending, token`status
      ensures Valid() && pending == old(pending) - {token.id}
      ensures Contents() == old(Contents()) - {token.id}
      ensures token.status == status
    {
      pending := pending - {token.id};
      token.status := status;
    }

    method Insert(token: ApprovalToken)
      requires Valid()
      modifies `pending
      ensures Valid() && pending == old(pending)[token.id := token]
      ensures Contents() == old(Contents())[token.id := token.View()]
    {
      pending := pending[token.id := token];
    }

    method SetStatus(token: ApprovalToken, status: Status)
      requires Valid() && token.id in pending && pending[token.id] == token
      modifies token`status
      ensures Valid() && token.status == status
      ensures Contents() == old(Contents())[token.id := old(token.View()).(status := status)]
    {
      token.status := status;
    }

    method CleanupExpired(now: real)
      requires Valid()
      modifies this, pending.Values
      ensures Valid() && Contents() == WithoutExpired(old(Contents()), now)
      ensures pending.Values <= old(pending.Values)
      ensures forall id :: id in old(pending) && id !in pending ==> old(pending)[id].status == Expired
      ensures forall id :: id in pending <==> id in old(pending) && now <= old(pending)[id].expiresAt
      ensures forall id :: id in pending ==> pending[id] == old(pending)[id]
    {
      ghost var before, objects := Contents(), pending;
      var expired := set id | id in pending && now > pending[id].expiresAt;
      var rest := expired;
      while rest != {}
        invariant Valid() && rest <= expired
        invariant pending == objects - (expired - rest)
        invariant Contents() == before - (expired - rest)
        invariant forall id :: id in expired && id !in rest ==> objects[id].status == Expired
      {
        var id :| id in rest;
        assert pending[id] == objects[id];
        OneMoreGone(objects, expired, rest, id);
        OneMoreGone(before, expired, rest, id);
        Remove(pending[id], Expired);
        rest := rest - {id};
      }
      assert Contents() == WithoutExpired(before, now);
    }

    method CreateToken(id: string, userId: string, sessionId: string, tool: string, toolInput: Args,
                       cleanupAt: real, now: real) returns (token: ApprovalToken)
      requires Valid()
      modifies this, pending.Values
      ensures Valid() && fresh(token) && id in pending && pending[id] == token
      ensures Contents() == Step(hash, old(Contents()), Create(id, userId, sessionId, tool, toolInput, cleanupAt, now))
      ensures token.View() ==
              Token(userId, sessionId, tool, toolInput, hash(toolInput), Pending, now, now + Lifetime(tool))
    {
      CleanupExpired(cleanupAt);
      ghost var swept := Contents();
      var ttl := RiskTtl(RiskOf(tool));
      token := new ApprovalToken(id, userId, sessionId, tool, toolInput, hash(toolInput), now, now + ttl);
      assert Contents() == swept;
      Insert(token);
    }

    method ValidateAndConsume(tokenId: string, userId: string, sessionId: string, now: real) returns (outcome: Outcome)
      requires Valid()
      modifies this, pending.Values
      ensures Valid()
      ensures outcome == ConsumeOutcome(hash, old(Contents()), tokenId, userId, sessionId, now)
      ensures Contents() == Step(hash, old(Contents()), Consume(tokenId, userId, sessionId, now))
      ensures tokenId in old(pending) && old(pending[tokenId].status) == Pending ==>
                old(pending)[tokenId].status == FinalStatus(outcome)
      ensures pending == if outcome.Success? || outcome.TooLate? || outcome.ArgsTampered?
                         then old(pending) - {tokenId} else old(pending)
      ensures outcome.Success? ==> old(pending)[tokenId].status == Approved
      ensures outcome.TooLate? ==> old(pending)[tokenId].status == Expired
      ensures outcome.ArgsTampered? ==> old(pending)[tokenId].status == Denied
      ensures outcome.NotFound? <==> !(tokenId in old(pending) && old(pending[tokenId].status) == Pending)
      ensures outcome.TooLate? <==>
                && tokenId in old(pending) && old(pending[tokenId].status) == Pending
                && now > old(pending)[tokenId].expiresAt
    {
      ghost var before := Contents();
      if tokenId !in pending || pending[tokenId].status != Pending { return NotFound; }
      var token := pending[tokenId];
      assert before[tokenId] == token.View();
      SetStatus(token, Claimed);
      assert Contents() - {tokenId} == before - {tokenId};
      if now > token.expiresAt {
        Remove(token, Expired);
        return TooLate;
      }
      if token.userId != userId {
        SetStatus(token, Pending);
        assert Contents() == before;
        return WrongUser;
      }
      if token.sessionId != sessionId {
        SetStatus(token, Pending);
        assert Contents() == before;
        return WrongSession;
      }
      if token.argsHash != hash(token.toolInput) {
        Remove(token, Denied);
        return ArgsTampered;
      }
      Remove(token, Approved);
      return Success(token.tool, token.toolInput);
    }

    method DenyToken(tokenId: string) returns (denied: bool)
      requires Valid()
      modifies this, pending.Values
      ensures Valid() && Contents() == Step(hash, old(Contents()), Deny(tokenId))
      ensures denied == (tokenId in old(pending) && old(pending[tokenId].status) == Pending)
      ensures denied ==> old(pending)[tokenId].status == Denied
      ensures pending == if denied then old(pending) - {tokenId} else old(pending)
    {
      if tokenId !in pending || pending[tokenId].status != Pending { return false; }
      var token := pending[tokenId];
      Remove(token, Denied);
      return true;
    }
  }

  // ---- Runs ----

  /** A run of the service; token ids are never handed out twice. */
  ghost predicate IsRun(hash: Args -> string, run: seq<Table>, events: seq<Event>) {
    && |run| == |events| + 1
    && run[0] == map[]
    && (forall i :: 0 <= i < |events| ==> run[i + 1] == Step(hash, run[i], events[i]))
    && FreshIds(events)
  }

  ghost predicate FreshIds(events: seq<Event>) {
    forall i, j :: 0 <= i < j < |events| && events[i].Create? && events[j].Create? ==> events[i].id != events[j].id
  }

  predicate CreatedAt(events: seq<Event>, m: int, id: string) {
    0 <= m < |events| && events[m].Create? && events[m].id == id
  }

  predicate SucceedsAt(hash: Args -> string, run: seq<Table>, events: seq<Event>, i: int, id: string)
    requires |run| == |events| + 1
  {
    0 <= i < |events| && events[i].Consume? && events[i].id == id && OutcomeOf(hash, run[i], events[i]).Success?
  }

  /** A table entry is the token that was created under its id, up to changes of its arguments. */
  predicate EntryFrom(hash: Args -> string, entry: Token, e: Event) {
    && e.Create?
    && entry == Issue(hash, e.userId, e.sessionId, e.tool, e.args, e.at).(args := entry.args)
  }

  /** Every token in the table between calls is pending and was created earlier in the run. */
  lemma {:induction false} TableIsPending(hash: Args -> string, run: seq<Table>, events: seq<Event>, i: nat, id: string)
    returns (m: int)
    requires IsRun(hash, run, events) && i < |run| && id in run[i]
    ensures run[i][id].status == Pending
    ensures m < i && CreatedAt(events, m, id) && EntryFrom(hash, run[i][id], events[m])
  {
    assert run[i] == Step(hash, run[i - 1], events[i - 1]);
    if events[i - 1].Create? && events[i - 1].id == id {
      m := i - 1;
    } else {
      m := TableIsPending(hash, run, events, i - 1, id);
    }
  }

  lemma {:induction false} GoneStaysGone(hash: Args -> string, run: seq<Table>, events: seq<Event>,
                                         i: nat, j: nat, id: string)
    requires IsRun(hash, run, events) && i <= j < |run| && id !in run[i]
    requires forall k :: i <= k < j ==> !CreatedAt(events, k, id)
    ensures id !in run[j]
    decreases j
  {
    if i < j {
      GoneStaysGone(hash, run, events, i, j - 1, id);
      assert !CreatedAt(events, j - 1, id);
      assert run[j] == Step(hash, run[j - 1], events[j - 1]);
    }
  }

  /** How long a token lives, by the tool it is for. */
  function Lifetime(tool: string): real {
    if tool == "delete_dataset" then 30.0 else if tool == "stop_public_tunnel" then 120.0 else 60.0
  }

  // ---- Safety ----

  ghost predicate Injective(hash: Args -> string) { forall a, b :: hash(a) == hash(b) ==> a == b }

  /**
   A success is the call that was asked for: same user, same session, no later
   than the lifetime of the tool's risk, with the tool and the arguments recorded
   at creation.
   */
  lemma SuccessMatchesCreation(hash: Args -> string, run: seq<Table>, events: seq<Event>, i: nat, id: string)
    returns (m: int)
    requires IsRun(hash, run, events) && SucceedsAt(hash, run, events, i, id) && Injective(hash)
    ensures m < i && CreatedAt(events, m, id)
    ensures events[i].userId == events[m].userId && events[i].sessionId == events[m].sessionId
    ensures events[i].at <= events[m].at + Lifetime(events[m].tool)
    ensures OutcomeOf(hash, run[i], events[i]) == Success(events[m].tool, events[m].args)
  {
    m := TableIsPending(hash, run, events, i, id);
  }

  /** A token id succeeds at most once in a run, and never after it was denied. */
  lemma SingleUse(hash: Args -> string, run: seq<Table>, events: seq<Event>, i: nat, j: nat, id: string)
    requires IsRun(hash, run, events) && i < j < |events|
    requires
      SucceedsAt(hash, run, events, i, id) || (events[i] == Deny(id) && exists m :: m < i && CreatedAt(events, m, id))
    ensures !SucceedsAt(hash, run, events, j, id)
  {
    var m: int;
    if SucceedsAt(hash, run, events, i, id) {
      m := TableIsPending(hash, run, events, i, id);
    } else {
      m :| m < i && CreatedAt(events, m, id);
      if id in run[i] {
        var _ := TableIsPending(hash, run, events, i, id);
      }
    }
    assert run[i + 1] == Step(hash, run[i], events[i]);
    forall k | i + 1 <= k < j
      ensures !CreatedAt(events, k, id)
    {
    }
    GoneStaysGone(hash, run, events, i + 1, j, id);
  }

  /** The wrong user or the wrong session learns nothing and uses nothing up, as long as the token lives. */
  lemma MismatchLeavesTable(hash: Args -> string, t: Table, e: Event)
    requires e.Consume? && e.id in t && t[e.id].status == Pending
    ensures Step(hash, t, e) == t <==>
            e.at <= t[e.id].expiresAt && (e.userId != t[e.id].userId || e.sessionId != t[e.id].sessionId)
    ensures Step(hash, t, e) == t ==>
            OutcomeOf(hash, t, e) == if e.userId != t[e.id].userId then WrongUser else WrongSession
    ensures Step(hash, t, e) != t ==> Step(hash, t, e) == t - {e.id}
  {
    assert e.id !in t - {e.id};
  }

  /** The token created at `m` is still there to be found, though it may have expired: only its own calls touch it. */
  ghost predicate Remains(hash: Args -> string, run: seq<Table>, events: seq<Event>, m: int, i: int, id: string)
    requires |run| == |events| + 1
  {
    && CreatedAt(events, m, id) && m < i < |run|
    && forall k :: m < k < i ==>
         match events[k]
         case Create(_, _, _, _, _, cleanupAt, _) => cleanupAt <= events[m].at + Lifetime(events[m].tool)
         case Consume(other, userId, sessionId, at) =>
           other != id || (&& at <= events[m].at + Lifetime(events[m].tool)
                           && (userId != events[m].userId || sessionId != events[m].sessionId))
         case Deny(other) => other != id
         case Tamper(_, _) => true
  }

  /**
   Exactly when a token is in the table: no creation since has swept after its
   lifetime, nobody has denied it, and every call for it came within its lifetime from
   somebody else or another session.
   */
  lemma {:induction false} InTableIff(hash: Args -> string, run: seq<Table>, events: seq<Event>,
                                      m: nat, i: nat, id: string)
    requires IsRun(hash, run, events) && CreatedAt(events, m, id) && m < i < |run|
    ensures id in run[i] <==> Remains(hash, run, events, m, i, id)
    ensures id in run[i] ==> EntryFrom(hash, run[i][id], events[m])
    decreases i
  {
    assert run[i] == Step(hash, run[i - 1], events[i - 1]);
    if i > m + 1 {
      InTableIff(hash, run, events, m, i - 1, id);
      assert !CreatedAt(events, i - 1, id);
      if id in run[i - 1] && events[i - 1].Consume? && events[i - 1].id == id {
        MismatchLeavesTable(hash, run[i - 1], events[i - 1]);
        assert id in run[i] <==> run[i] == run[i - 1];
      }
    }
  }

  // ---- Liveness of an untouched token ----

  ghost predicate Reads(e: Event, at: real) {
    match e
    case Create(_, _, _, _, _, cleanupAt, now) => at <= cleanupAt <= now
    case Consume(_, _, _, now) => at <= now
    case _ => true
  }

  function LastReading(e: Event, at: real): real {
    match e
    case Create(_, _, _, _, _, _, now) => now
    case Consume(_, _, _, now) => now
    case _ => at
  }

  /** The clock readings of a run, in order and never going back. */
  ghost predicate Clocked(events: seq<Event>, clocks: seq<real>) {
    && |clocks| == |events| + 1
    && forall i :: 0 <= i < |events| ==>
         Reads(events[i], clocks[i]) && clocks[i + 1] == LastReading(events[i], clocks[i])
  }

  lemma {:induction false} ClocksGrow(events: seq<Event>, clocks: seq<real>, i: nat, j: nat)
    requires Clocked(events, clocks) && i <= j < |clocks|
    ensures clocks[i] <= clocks[j]
    decreases j
  {
    if i < j {
      ClocksGrow(events, clocks, i, j - 1);
      assert Reads(events[j - 1], clocks[j - 1]);
    }
  }

  /** Nothing between `m` and `i` denied the token, spent it or changed its arguments. */
  ghost predicate Untouched(hash: Args -> string, run: seq<Table>, events: seq<Event>, m: int, i: int, id: string)
    requires |run| == |events| + 1
  {
    && 0 <= m <= i <= |events|
    && forall k :: m < k < i ==>
         && !(events[k].Tamper? && events[k].id == id)
         && events[k] != Deny(id)
         && !SucceedsAt(hash, run, events, k, id)
  }

  lemma {:induction false} UntouchedStays(hash: Args -> string, run: seq<Table>, events: seq<Event>, clocks: seq<real>,
                                          m: nat, i: nat, id: string)
    requires IsRun(hash, run, events) && Clocked(events, clocks)
    requires CreatedAt(events, m, id) && m < i < |run| && Untouched(hash, run, events, m, i, id)
    requires clocks[i] <= events[m].at + Lifetime(events[m].tool)
    ensures id in run[i]
    ensures run[i][id] ==
        Issue(hash, events[m].userId, events[m].sessionId, events[m].tool, events[m].args, events[m].at)
    decreases i
  {
    assert run[i] == Step(hash, run[i - 1], events[i - 1]);
    if i > m + 1 {
      ClocksGrow(events, clocks, i - 1, i);
      assert Untouched(hash, run, events, m, i - 1, id);
      UntouchedStays(hash, run, events, clocks, m, i - 1, id);
      assert Reads(events[i - 1], clocks[i - 1]) && clocks[i] == LastReading(events[i - 1], clocks[i - 1]);
      assert !SucceedsAt(hash, run, events, i - 1, id);
      assert !(CreatedAt(events, m, id) && CreatedAt(events, i - 1, id));
    }
  }

  /**
   Exactly when a token can be spent: for a token whose arguments nobody changed
   and that was neither denied nor spent since its creation, a call succeeds if
   and only if it comes from its user, in its session, within its lifetime.
   */
  lemma SucceedsIff(hash: Args -> string, run: seq<Table>, events: seq<Event>, clocks: seq<real>,
                    m: nat, i: nat, id: string)
    requires IsRun(hash, run, events) && Clocked(events, clocks)
    requires CreatedAt(events, m, id) && m < i < |events| && Untouched(hash, run, events, m, i, id)
    requires events[i].Consume? && events[i].id == id
    ensures SucceedsAt(hash, run, events, i, id) <==>
            && events[i].userId == events[m].userId
            && events[i].sessionId == events[m].sessionId
            && events[i].at <= events[m].at + Lifetime(events[m].tool)
  {
    assert Reads(events[i], clocks[i]);
    if events[i].at <= events[m].at + Lifetime(events[m].tool) {
      UntouchedStays(hash, run, events, clocks, m, i, id);
    } else if SucceedsAt(hash, run, events, i, id) {
      var _ := TableIsPending(hash, run, events, i, id);
    }
  }

  // ---- The sweep is invisible ----

  /** A run of a service that never sweeps, over the same calls. */
  ghost predicate IsLazyRun(hash: Args -> string, run: seq<Table>, events: seq<Event>) {
    && |run| == |events| + 1
    && run[0] == map[]
    && forall i :: 0 <= i < |events| ==> run[i + 1] == StepWith(hash, false, run[i], events[i])
  }

  /** The lazy table holds everything the swept one does, and all it holds besides has expired. */
  ghost predicate Covers(swept: Table, full: Table, clock: real) {
    && (forall id :: id in swept ==> id in full && full[id] == swept[id])
    && (forall id :: id in full && id !in swept ==> clock > full[id].expiresAt)
  }

  lemma StepKeepsCover(hash: Args -> string, swept: Table, full: Table, clock: real, e: Event)
    requires Covers(swept, full, clock) && Reads(e, clock)
    ensures Covers(Step(hash, swept, e), StepWith(hash, false, full, e), LastReading(e, clock))
  {
  }

  /** What a caller can act on: the success, the tool and the arguments. */
  function Visible(o: Outcome): Option<(string, Args)> {
    match o
    case Success(tool, args) => Some((tool, args))
    case _ => None
  }

  /** Eager sweeping changes no result of any call in any run. */
  lemma {:induction false} SweepIsInvisible(hash: Args -> string, swept: seq<Table>, full: seq<Table>,
                                            events: seq<Event>, clocks: seq<real>, i: nat)
    requires IsRun(hash, swept, events) && IsLazyRun(hash, full, events) && Clocked(events, clocks) && i < |swept|
    ensures Covers(swept[i], full[i], clocks[i])
    ensures i < |events| && events[i].Consume? ==>
              Visible(OutcomeOf(hash, swept[i], events[i])) == Visible(OutcomeOf(hash, full[i], events[i]))
  {
    if i > 0 {
      SweepIsInvisible(hash, swept, full, events, clocks, i - 1);
      assert Reads(events[i - 1], clocks[i - 1]) && clocks[i] == LastReading(events[i - 1], clocks[i - 1]);
      StepKeepsCover(hash, swept[i - 1], full[i - 1], clocks[i - 1], events[i - 1]);
      assert swept[i] == Step(hash, swept[i - 1], events[i - 1]);
      assert full[i] == StepWith(hash, false, full[i - 1], events[i - 1]);
    }
    if i < |events| {
      assert Reads(events[i], clocks[i]);
    }
  }
}
