/**
 The in-memory registry of the authenticated MCP SSE guard: who holds a
 reservation, who holds a session binding, and what each section that runs
 under the registry lock does to the two dictionaries.

 The functions on `Registry` are the specification; class `AuthenticatedMcpSse`
 updates its two dictionaries in place and is proved against them.
 */
module McpRegistry {
  import opened Wrappers

  type TaskId = nat
  type Nonce = string
  type SessionId = string
  type TokenId = string

  const MAX_MCP_CONNECTIONS := 32
  const FIRST_FRAME_TIMEOUT_SECONDS := 10.0
  const MAX_BINDING_SECONDS := 3600.0
  const WATCHDOG_SECONDS := 60.0

  datatype Reservation = Reservation(nonce: Nonce, owner: TaskId, createdAt: real, firstFrameDeadline: real)

  datatype Binding = Binding(
    tokenId: TokenId,
    createdAt: real,
    lastValidatedActivity: real,
    deadline: real,
    owner: TaskId,
    closing: bool,
    enqueueable: bool)

  datatype Registry = Registry(reservations: map<Nonce, Reservation>, bindings: map<SessionId, Binding>)

  const EMPTY := Registry(map[], map[])

  function Min(a: real, b: real): real { if a <= b then a else b }

  function Max(a: real, b: real): real { if a <= b then b else a }

  /** The deadline a token grants to a binding that is created or revalidated at `nowMono`. */
  function TokenDeadline(expiresAt: Option<real>, nowWall: real, nowMono: real): real {
    var cap := nowMono + MAX_BINDING_SECONDS;
    match expiresAt
    case None => cap
    case Some(expiry) => Min(cap, nowMono + Max(0.0, expiry - nowWall))
  }

  // ---- Ownership ----

  ghost function Entries(g: Registry): nat { |g.reservations| + |g.bindings| }

  ghost function ReservationOwners(m: map<Nonce, Reservation>): set<TaskId> { set n | n in m :: m[n].owner }

  ghost function BindingOwners(m: map<SessionId, Binding>): set<TaskId> { set s | s in m :: m[s].owner }

  ghost function Owners(g: Registry): set<TaskId> {
    ReservationOwners(g.reservations) + BindingOwners(g.bindings)
  }

  ghost predicate OneEntryPerOwner(g: Registry) {
    && (forall n, n' :: n in g.reservations && n' in g.reservations && n != n' ==>
          g.reservations[n].owner != g.reservations[n'].owner)
    && (forall s, s' :: s in g.bindings && s' in g.bindings && s != s' ==>
          g.bindings[s].owner != g.bindings[s'].owner)
    && (forall n, s :: n in g.reservations && s in g.bindings ==>
          g.reservations[n].owner != g.bindings[s].owner)
  }

  /** The owners that have an entry in `g` and none in `g'`. */
  ghost function Evicted(g: Registry, g': Registry): set<TaskId> { Owners(g) - Owners(g') }

  // ---- The locked sections ----

  predicate ReservationStale(r: Reservation, now: real, done: set<TaskId>) {
    r.owner in done || r.firstFrameDeadline <= now
  }

  predicate BindingStale(b: Binding, now: real, done: set<TaskId>) {
    b.owner in done || b.deadline <= now
  }

  function Sweep(g: Registry, now: real, done: set<TaskId>): Registry {
    Registry(
      map n | n in g.reservations && !ReservationStale(g.reservations[n], now, done) :: g.reservations[n],
      map s | s in g.bindings && !BindingStale(g.bindings[s], now, done) :: g.bindings[s])
  }

  /** Admission is decided on the swept registry: connectivity on and room for one more entry. */
  ghost predicate Admits(g: Registry, enabled: bool) {
    enabled && Entries(g) < MAX_MCP_CONNECTIONS
  }

  function Reserve(g: Registry, nonce: Nonce, owner: TaskId, now: real): Registry {
    g.(reservations := g.reservations[nonce := Reservation(nonce, owner, now, now + FIRST_FRAME_TIMEOUT_SECONDS)])
  }

  predicate MayPromote(g: Registry, nonce: Nonce, owner: TaskId, now: real, enabled: bool) {
    && nonce in g.reservations
    && g.reservations[nonce].owner == owner
    && now <= g.reservations[nonce].firstFrameDeadline
    && enabled
  }

  function Promote(g: Registry, nonce: Nonce, session: SessionId, b: Binding): Registry {
    Registry(g.reservations - {nonce}, g.bindings[session := b])
  }

  predicate MayEnqueue(g: Registry, session: SessionId, tokenId: TokenId, now: real, enabled: bool) {
    && session in g.bindings
    && g.bindings[session].tokenId == tokenId
    && g.bindings[session].enqueueable
    && !g.bindings[session].closing
    && now < g.bindings[session].deadline
    && enabled
  }

  function Touch(g: Registry, session: SessionId, now: real): Registry
    requires session in g.bindings
  {
    g.(bindings := g.bindings[session := g.bindings[session].(lastValidatedActivity := now)])
  }

  function DropReservation(g: Registry, nonce: Nonce): Registry { g.(reservations := g.reservations - {nonce}) }

  function DropSession(g: Registry, session: SessionId): Registry { g.(bindings := g.bindings - {session}) }

  predicate HasToken(g: Registry, session: SessionId, tokenId: TokenId) {
    session in g.bindings && g.bindings[session].tokenId == tokenId
  }

  predicate OwnsSession(g: Registry, session: SessionId, owner: TaskId) {
    session in g.bindings && g.bindings[session].owner == owner
  }

  /** What a watchdog pass writes after a successful revalidation: the deadline can only shrink. */
  function Refresh(g: Registry, session: SessionId, expiresAt: Option<real>, nowWall: real, now: real): Registry
    requires session in g.bindings
  {
    var b := g.bindings[session];
    var shorter := Min(b.deadline, TokenDeadline(expiresAt, nowWall, now));
    g.(bindings := g.bindings[session := b.(lastValidatedActivity := now, deadline := shorter)])
  }

  /** The GET handler's final cleanup: its own reservation, and its own binding if it still has it. */
  function Release(g: Registry, nonce: Nonce, promoted: Option<SessionId>, owner: TaskId): Registry {
    var g1 := DropReservation(g, nonce);
    if promoted.Some? && OwnsSession(g1, promoted.value, owner) then DropSession(g1, promoted.value) else g1
  }

  ghost predicate Distinct(s: seq<TaskId>) { forall i, j :: 0 <= i < j < |s| ==> s[i] != s[j] }

  lemma DistinctConcat(a: seq<TaskId>, b: seq<TaskId>)
    requires Distinct(a) && Distinct(b) && forall t :: t in a ==> t !in b
    ensures Distinct(a + b)
  {
    var c := a + b;
    forall i, j | 0 <= i < j < |c|
      ensures c[i] != c[j]
    {
      if i < |a| <= j {
        assert c[i] in a && c[j] == b[j - |a|] && c[j] in b;
      }
    }
  }

  /** Close actions: one cancel per listed task, nobody twice. */
  ghost predicate CancelsExactly(actions: seq<TaskId>, tasks: set<TaskId>) {
    && Distinct(actions)
    && (forall t :: t in actions <==> t in tasks)
  }

  /** How a watchdog's loop ends. */
  datatype WatchdogEnd = NotOurs | Expired | TokenRejected

  const MAX_PASSES := 61

  predicate NotBetterOff(g: Registry, g': Registry, session: SessionId, owner: TaskId) {
    OwnsSession(g', session, owner) ==>
      OwnsSession(g, session, owner) && g'.bindings[session].deadline <= g.bindings[session].deadline
  }

  ghost predicate FairAt(others: (nat, Registry) -> Registry, n: nat, g: Registry, session: SessionId, owner: TaskId) {
    OneEntryPerOwner(g) ==> OneEntryPerOwner(others(n, g)) && NotBetterOff(g, others(n, g), session, owner)
  }

  ghost predicate Fair(others: (nat, Registry) -> Registry, session: SessionId, owner: TaskId) {
    forall n: nat, g: Registry :: FairAt(others, n, g, session, owner)
  }

  /** The session is this owner's, and not due at `now`. */
  predicate Healthy(g: Registry, session: SessionId, owner: TaskId, now: real) {
    OwnsSession(g, session, owner) && now < g.bindings[session].deadline
  }

  /**
   How a pass ends that checks `g` at `checked` and, once the token has been
   revalidated, refreshes `g'` at `now`.
   */
  predicate PassEnds(end: Option<WatchdogEnd>, g: Registry, g': Registry, session: SessionId, owner: TaskId,
                     checked: real, now: real, validated: Option<Option<real>>, nowWall: real) {
    && (end == Some(NotOurs) <==>
         || !OwnsSession(g, session, owner)
         || (Healthy(g, session, owner, checked) && validated.Some? && !OwnsSession(g', session, owner)))
    && (end == Some(TokenRejected) <==> Healthy(g, session, owner, checked) && validated.None?)
    && (end == None <==>
         && Healthy(g, session, owner, checked) && validated.Some? && Healthy(g', session, owner, now)
         && now < TokenDeadline(validated.value, nowWall, now))
  }

  /** Nobody interferes, nothing has to wait, and every revalidation succeeds with a token that does not expire. */
  ghost predicate Undisturbed(others: (nat, Registry) -> Registry, wait: nat -> real,
                              token: nat -> Option<Option<real>>) {
    && (forall n: nat, g: Registry :: others(n, g) == g)
    && (forall n: nat :: wait(n) == 0.0)
    && (forall n: nat :: token(n) == Some(None))
  }

  /** Where an undisturbed watchdog is after some passes: a minute apart, the last one at the deadline. */
  predicate OnTheMinute(deadline: real, start: real, now: real, passes: nat) {
    if passes == 0 then now == start
    else now == Min(start + 60.0 * passes as real, deadline) && 60.0 * (passes - 1) as real < deadline - start
  }

  /** Each completed pass has used up a minute of the lifetime, or all that was left of it. */
  predicate InTime(deadline: real, start: real, now: real, passes: nat) {
    && deadline <= start + MAX_BINDING_SECONDS
    && (now >= start + WATCHDOG_SECONDS * passes as real || now >= deadline)
  }

  lemma PassTakesItsTime(was: real, deadline: real, start: real, checkedAt: real, now: real, passes: nat)
    requires InTime(was, start, checkedAt, passes) && checkedAt < was && checkedAt <= now && deadline <= was
    ensures passes + 1 < MAX_PASSES
    ensures InTime(deadline, start, now + Min(WATCHDOG_SECONDS, deadline - now), passes + 1)
  {
  }

  class AuthenticatedMcpSse {
    var reservations: map<Nonce, Reservation>
    var bindings: map<SessionId, Binding>

    ghost function View(): Registry
      reads this
    {
      Registry(reservations, bindings)
    }

    constructor ()
      ensures View() == EMPTY
    {
      reservations := map[];
      bindings := map[];
    }

    method SweepLocked(now: real, done: set<TaskId>) returns (actions: seq<TaskId>)
      requires OneEntryPerOwner(View())
      modifies this
      ensures View() == Sweep(old(View()), now, done)
      ensures CancelsExactly(actions, Evicted(old(View()), View()) - done)
    {
      ghost var g := View();
      var first := SweepReservations(now, done);
      var second := SweepBindings(now, done);
      DistinctConcat(first, second);
      actions := first + second;
      EvictedIsRemoved(g, View());
    }

    method SweepReservations(now: real, done: set<TaskId>) returns (actions: seq<TaskId>)
      requires OneEntryPerOwner(View())
      modifies this`reservations
      ensures View() == Sweep(old(View()), now, done).(bindings := bindings)
      ensures CancelsExactly(actions, ReservationOwners(old(reservations) - reservations.Keys) - done)
    {
      ghost var before := reservations;
      actions := [];
      var nonces := reservations.Keys;
      while nonces != {}
        invariant nonces <= before.Keys
        invariant forall k :: k in reservations <==>
                            k in before && (k in nonces || !ReservationStale(before[k], now, done))
        invariant forall k :: k in reservations ==> reservations[k] == before[k]
        invariant CancelsExactly(actions, ReservationOwners(before - reservations.Keys) - done)
        decreases nonces
      {
        var n :| n in nonces;
        nonces := nonces - {n};
        var entry := reservations[n];
        if ReservationStale(entry, now, done) {
          ReservationRemoved(before, reservations, n);
          reservations := reservations - {n};
          if entry.owner !in done {
            DistinctConcat(actions, [entry.owner]);
            actions := actions + [entry.owner];
          }
        }
      }
    }

    method SweepBindings(now: real, done: set<TaskId>) returns (actions: seq<TaskId>)
      requires OneEntryPerOwner(View())
      modifies this`bindings
      ensures View() == Sweep(old(View()), now, done).(reservations := reservations)
      ensures CancelsExactly(actions, BindingOwners(old(bindings) - bindings.Keys) - done)
    {
      ghost var before := bindings;
      actions := [];
      var sessions := bindings.Keys;
      while sessions != {}
        invariant sessions <= before.Keys
        invariant forall k :: k in bindings <==> k in before && (k in sessions || !BindingStale(before[k], now, done))
        invariant forall k :: k in bindings ==> bindings[k] == before[k]
        invariant CancelsExactly(actions, BindingOwners(before - bindings.Keys) - done)
        decreases sessions
      {
        var s :| s in sessions;
        sessions := sessions - {s};
        var entry := bindings[s];
        if BindingStale(entry, now, done) {
          BindingRemoved(before, bindings, s);
          bindings := bindings - {s};
          if entry.owner !in done {
            DistinctConcat(actions, [entry.owner]);
            actions := actions + [entry.owner];
          }
        }
      }
    }

    method Admit(now: real, done: set<TaskId>, enabled: bool, nonce: Nonce, owner: TaskId)
      returns (admitted: bool, actions: seq<TaskId>)
      requires OneEntryPerOwner(View())
      modifies this
      ensures var g := Sweep(old(View()), now, done);
              && admitted == Admits(g, enabled)
              && View() == (if admitted then Reserve(g, nonce, owner, now) else g)
              && CancelsExactly(actions, Evicted(old(View()), g) - done)
    {
      actions := SweepLocked(now, done);
      if !enabled {
        admitted := false;
      } else if |reservations| + |bindings| >= MAX_MCP_CONNECTIONS {
        admitted := false;
      } else {
        reservations := reservations[nonce := Reservation(nonce, owner, now, now + FIRST_FRAME_TIMEOUT_SECONDS)];
        admitted := true;
      }
    }

    method PromoteLocked(now: real, nowWall: real, enabled: bool, nonce: Nonce, owner: TaskId, session: SessionId,
                         tokenId: TokenId, expiresAt: Option<real>)
      returns (promoted: bool)
      modifies this
      ensures promoted == MayPromote(old(View()), nonce, owner, now, enabled)
      ensures promoted <==> && nonce in old(reservations) && old(reservations)[nonce].owner == owner
                            && now <= old(reservations)[nonce].firstFrameDeadline && enabled
      ensures View() == if promoted
                        then Promote(old(View()), nonce, session,
                                     NewBinding(tokenId, owner, TokenDeadline(expiresAt, nowWall, now), now))
                        else old(View())
    {
      if nonce !in reservations || reservations[nonce].owner != owner
         || now > reservations[nonce].firstFrameDeadline || !enabled {
        return false;
      }
      reservations := reservations - {nonce};
      bindings := bindings[session := Binding(tokenId, now, now,
                          TokenDeadline(expiresAt, nowWall, now), owner, false, true)];
      return true;
    }

    method PostLocked(now: real, done: set<TaskId>, enabled: bool, session: SessionId, tokenId: TokenId)
      returns (allowed: bool, actions: seq<TaskId>)
      requires OneEntryPerOwner(View())
      modifies this
      ensures var g := Sweep(old(View()), now, done);
              && allowed == MayEnqueue(g, session, tokenId, now, enabled)
              && (allowed <==>
                   && session in g.bindings && enabled
                   && var b := g.bindings[session];
                   b.tokenId == tokenId && b.enqueueable && !b.closing && now < b.deadline)
              && View() == (if allowed then Touch(g, session, now) else g)
              && CancelsExactly(actions, Evicted(old(View()), g) - done)
    {
      actions := SweepLocked(now, done);
      allowed := false;
      if session in bindings {
        var binding := bindings[session];
        allowed := binding.tokenId == tokenId && binding.enqueueable && !binding.closing
                   && binding.deadline > now && enabled;
        if allowed {
          bindings := bindings[session := binding.(lastValidatedActivity := now)];
        }
      }
    }

    method DetachReservation(nonce: Nonce) returns (actions: seq<TaskId>)
      requires OneEntryPerOwner(View())
      modifies this
      ensures View() == DropReservation(old(View()), nonce)
      ensures CancelsExactly(actions, Evicted(old(View()), View()))
    {
      ghost var g := View();
      actions := [];
      if nonce in reservations {
        actions := [reservations[nonce].owner];
      }
      reservations := reservations - {nonce};
      EvictedIsRemoved(g, View());
    }

    method DetachSession(session: SessionId) returns (actions: seq<TaskId>)
      requires OneEntryPerOwner(View())
      modifies this
      ensures View() == DropSession(old(View()), session)
      ensures CancelsExactly(actions, Evicted(old(View()), View()))
    {
      ghost var g := View();
      actions := [];
      if session in bindings {
        actions := [bindings[session].owner];
      }
      bindings := bindings - {session};
      EvictedIsRemoved(g, View());
    }

    /** `parsed` is the token id in the rejected Bearer string, if it has the token format at all. */
    method DetachSessionIfToken(session: SessionId, parsed: Option<TokenId>) returns (actions: seq<TaskId>)
      requires OneEntryPerOwner(View())
      modifies this
      ensures View() == if parsed.Some? && HasToken(old(View()), session, parsed.value)
                        then DropSession(old(View()), session) else old(View())
      ensures CancelsExactly(actions, Evicted(old(View()), View()))
    {
      ghost var g := View();
      actions := [];
      if parsed == None || session !in bindings || bindings[session].tokenId != parsed.value {
        EvictedIsRemoved(g, View());
        return;
      }
      actions := [bindings[session].owner];
      bindings := bindings - {session};
      EvictedIsRemoved(g, View());
    }

    method DetachAll() returns (actions: seq<TaskId>)
      requires OneEntryPerOwner(View())
      modifies this
      ensures View() == EMPTY
      ensures CancelsExactly(actions, Owners(old(View())))
    {
      var first := CancelReservations();
      var second := CancelBindings();
      DistinctConcat(first, second);
      actions := first + second;
      reservations := map[];
      bindings := map[];
    }

    method CancelReservations() returns (actions: seq<TaskId>)
      requires OneEntryPerOwner(View())
      ensures CancelsExactly(actions, ReservationOwners(reservations))
    {
      actions := [];
      var nonces := reservations.Keys;
      while nonces != {}
        invariant nonces <= reservations.Keys
        invariant CancelsExactly(actions, ReservationOwners(reservations - nonces))
        decreases nonces
      {
        var n :| n in nonces;
        ghost var visited := reservations - nonces;
        nonces := nonces - {n};
        assert reservations - nonces == visited[n := reservations[n]];
        ReservationOwnersAdd(visited, n, reservations[n]);
        DistinctConcat(actions, [reservations[n].owner]);
        actions := actions + [reservations[n].owner];
      }
      assert reservations - nonces == reservations;
    }

    method CancelBindings() returns (actions: seq<TaskId>)
      requires OneEntryPerOwner(View())
      ensures CancelsExactly(actions, BindingOwners(bindings))
    {
      actions := [];
      var sessions := bindings.Keys;
      while sessions != {}
        invariant sessions <= bindings.Keys
        invariant CancelsExactly(actions, BindingOwners(bindings - sessions))
        decreases sessions
      {
        var s :| s in sessions;
        ghost var visited := bindings - sessions;
        sessions := sessions - {s};
        assert bindings - sessions == visited[s := bindings[s]];
        BindingOwnersAdd(visited, s, bindings[s]);
        DistinctConcat(actions, [bindings[s].owner]);
        actions := actions + [bindings[s].owner];
      }
      assert bindings - sessions == bindings;
    }

    /** The first locked section of a watchdog pass: is the binding still ours, and has it expired? */
    method WatchdogCheck(session: SessionId, owner: TaskId, now: real) returns (ours: bool, expired: bool)
      ensures ours == (session in bindings && bindings[session].owner == owner)
      ensures ours ==> expired == (bindings[session].deadline <= now)
    {
      expired := false;
      ours := session in bindings && bindings[session].owner == owner;
      if ours {
        var remaining := bindings[session].deadline - now;
        expired := remaining <= 0.0;
      }
    }

    /** The second locked section of a watchdog pass: `None` means stop, a delay of zero means expired. */
    method WatchdogRefresh(session: SessionId, owner: TaskId, expiresAt: Option<real>, nowWall: real, now: real)
      returns (delay: Option<real>)
      modifies this
      ensures delay.Some? == (session in old(bindings) && old(bindings)[session].owner == owner)
      ensures View() == if delay.Some? then Refresh(old(View()), session, expiresAt, nowWall, now) else old(View())
      ensures delay.Some? ==> delay.value == Max(0.0, Min(WATCHDOG_SECONDS, bindings[session].deadline - now))
      ensures OneEntryPerOwner(old(View())) ==> OneEntryPerOwner(View())
    {
      if session !in bindings || bindings[session].owner != owner {
        return None;
      }
      var binding := bindings[session];
      bindings := bindings[session := binding.(
        lastValidatedActivity := now,
        deadline := Min(binding.deadline, TokenDeadline(expiresAt, nowWall, now)))];
      var remaining := bindings[session].deadline - now;
      if remaining <= 0.0 {
        return Some(0.0);
      }
      return Some(Min(WATCHDOG_SECONDS, remaining));
    }

    /**
     The watchdog's loop over one promoted connection, started at `start`. While
     it does not hold the lock, `others` do to the registry what they like, short
     of giving the session to this owner or lengthening its deadline; `wait` is how
     long it takes to get on. It ends within 61 passes, and unless the binding was
     taken away from it, the session is gone when it ends.
     */
    method Watchdog(session: SessionId, owner: TaskId, start: real, token: nat -> Option<Option<real>>,
                    wall: nat -> real,
                    wait: nat -> real, others: (nat, Registry) -> Registry)
      returns (end: WatchdogEnd, passes: nat)
      requires OneEntryPerOwner(View()) && Fair(others, session, owner) && forall n :: wait(n) >= 0.0
      requires OwnsSession(View(), session, owner) ==> bindings[session].deadline <= start + MAX_BINDING_SECONDS
      modifies this
      ensures 1 <= passes <= MAX_PASSES
      ensures end.NotOurs? ==> !OwnsSession(View(), session, owner)
      ensures !end.NotOurs? ==> session !in bindings
      ensures end.TokenRejected? ==> token(passes) == None
      ensures forall n: nat :: 0 < n < passes ==> token(n).Some?
      ensures Undisturbed(others, wait, token) && old(OwnsSession(View(), session, owner)) ==>
                && end.Expired?
                && var lifetime := old(bindings)[session].deadline - start;
                if lifetime <= 0.0 then passes == 1
                else 60.0 * (passes - 2) as real < lifetime <= 60.0 * (passes - 1) as real
    {
      var now := start;
      passes := 0;
      ghost var alone := Undisturbed(others, wait, token) && OwnsSession(View(), session, owner);
      while true
        invariant OneEntryPerOwner(View()) && passes < MAX_PASSES
        invariant OwnsSession(View(), session, owner) ==> InTime(bindings[session].deadline, start, now, passes)
        invariant forall n: nat :: 0 < n <= passes ==> token(n).Some?
        invariant alone ==>
                    && OwnsSession(View(), session, owner)
                    && bindings[session].deadline == old(bindings)[session].deadline
                    && OnTheMinute(bindings[session].deadline, start, now, passes)
        decreases MAX_PASSES - passes
      {
        var over: Option<WatchdogEnd>;
        over, now := WatchdogPass(session, owner, start, passes, now, token(passes + 1), wall(passes),
                                  wait(3 * passes), wait(3 * passes + 1), wait(3 * passes + 2), others);
        passes := passes + 1;
        if over.Some? { return over.value, passes; }
      }
    }

    /** One pass: check, revalidate, refresh and sleep, or an end. */
    method WatchdogPass(session: SessionId, owner: TaskId, start: real, passes: nat, begun: real,
                        validated: Option<Option<real>>, nowWall: real, wait1: real, wait2: real, wait3: real,
                        others: (nat, Registry) -> Registry)
      returns (end: Option<WatchdogEnd>, next: real)
      requires OneEntryPerOwner(View()) && Fair(others, session, owner) && wait1 >= 0.0 && wait2 >= 0.0 && wait3 >= 0.0
      requires passes < MAX_PASSES
      requires OwnsSession(View(), session, owner) ==> InTime(bindings[session].deadline, start, begun, passes)
      modifies this
      ensures end == Some(NotOurs) ==> !OwnsSession(View(), session, owner)
      ensures end.Some? && !end.value.NotOurs? ==> session !in bindings
      ensures end == Some(TokenRejected) ==> validated == None
      ensures end.None? ==> validated.Some? && OneEntryPerOwner(View()) && passes + 1 < MAX_PASSES
      ensures end.None? && OwnsSession(View(), session, owner) ==>
                InTime(bindings[session].deadline, start, next, passes + 1)
      ensures var now := begun + wait1 + wait2;
              var g := others(3 * passes, old(View()));
              var g' := others(3 * passes + 1, g);
              && PassEnds(end, g, g', session, owner, begun + wait1, now, validated, nowWall)
              && (end == None ==>
                   && View() == Refresh(g', session, validated.value, nowWall, now)
                   && next == now + wait3 + Min(60.0, View().bindings[session].deadline - now))
    {
      var now := begun + wait1;
      next := now;
      end := BeginPass(session, owner, 3 * passes, now, validated.Some?, others);
      if end.Some? { return; }
      ghost var was, checkedAt := bindings[session].deadline, now;
      now := now + wait2;
      var delay;
      end, delay := EndPass(session, owner, 3 * passes + 1, now, validated.value, nowWall, others);
      if end.None? {
        PassTakesItsTime(was, bindings[session].deadline, start, checkedAt, now, passes);
        next := now + wait3 + delay;
      }
    }

    /** The first half of a pass: check the binding, revalidate the token, and detach if either says so. */
    method BeginPass(session: SessionId, owner: TaskId, n: nat, now: real, valid: bool,
                     others: (nat, Registry) -> Registry)
      returns (end: Option<WatchdogEnd>)
      requires OneEntryPerOwner(View()) && Fair(others, session, owner)
      modifies this
      ensures var g := others(n, old(View()));
              && (end == Some(NotOurs) <==> !OwnsSession(g, session, owner))
              && (end == Some(TokenRejected) <==> Healthy(g, session, owner, now) && !valid)
              && (end == None <==> Healthy(g, session, owner, now) && valid)
              && NotBetterOff(old(View()), g, session, owner)
              && (end == None ==> View() == g && OneEntryPerOwner(View()))
      ensures end == Some(NotOurs) ==> !OwnsSession(View(), session, owner)
      ensures end.Some? && !end.value.NotOurs? ==> session !in bindings
    {
      Interfere(others, n, session, owner);
      var ours, expired := WatchdogCheck(session, owner, now);
      if !ours { return Some(NotOurs); }
      if expired {
        LoseTo(others, n + 1, session, owner);
        return Some(Expired);
      }
      if !valid {
        LoseTo(others, n + 1, session, owner);
        return Some(TokenRejected);
      }
      return None;
    }

    /** The second half: refresh the binding, and detach if it is due. */
    method EndPass(session: SessionId, owner: TaskId, n: nat, now: real, expiresAt: Option<real>, nowWall: real,
                   others: (nat, Registry) -> Registry)
      returns (end: Option<WatchdogEnd>, delay: real)
      requires OneEntryPerOwner(View()) && Fair(others, session, owner)
      modifies this
      ensures var g := others(n, old(View()));
              && (end == Some(NotOurs) <==> !OwnsSession(g, session, owner))
              && end != Some(TokenRejected)
              && (end == None <==>
                   Healthy(g, session, owner, now) && now < TokenDeadline(expiresAt, nowWall, now))
              && NotBetterOff(old(View()), g, session, owner)
              && (end == None ==>
                   && View() == Refresh(g, session, expiresAt, nowWall, now) && OneEntryPerOwner(View())
                   && delay == Min(60.0, View().bindings[session].deadline - now))
      ensures end == Some(NotOurs) ==> !OwnsSession(View(), session, owner)
      ensures end.Some? && !end.value.NotOurs? ==> session !in bindings
    {
      Interfere(others, n, session, owner);
      delay := 0.0;
      var pause := WatchdogRefresh(session, owner, expiresAt, nowWall, now);
      if pause.None? { return Some(NotOurs), delay; }
      if pause.value == 0.0 {
        LoseTo(others, n + 1, session, owner);
        return Some(Expired), delay;
      }
      return None, pause.value;
    }

    /** What the others do between two locked sections of a watchdog. */
    method Interfere(others: (nat, Registry) -> Registry, n: nat, session: SessionId, owner: TaskId)
      requires OneEntryPerOwner(View()) && Fair(others, session, owner)
      modifies this
      ensures OneEntryPerOwner(View()) && NotBetterOff(old(View()), View(), session, owner)
      ensures View() == others(n, old(View()))
    {
      assert FairAt(others, n, Registry(reservations, bindings), session, owner);
      var g := others(n, Registry(reservations, bindings));
      reservations, bindings := g.reservations, g.bindings;
    }

    /** The detach at the end of a watchdog, after the others have had their turn. */
    method LoseTo(others: (nat, Registry) -> Registry, n: nat, session: SessionId, owner: TaskId)
      requires OneEntryPerOwner(View()) && Fair(others, session, owner)
      modifies this
      ensures session !in bindings
    {
      Interfere(others, n, session, owner);
      var _ := DetachSession(session);
    }

    method FinalCleanup(nonce: Nonce, promoted: Option<SessionId>, owner: TaskId)
      modifies this
      ensures View() == Release(old(View()), nonce, promoted, owner)
      ensures reservations == old(reservations) - {nonce}
      ensures forall s :: s in bindings <==>
                s in old(bindings) && !(promoted == Some(s) && old(bindings)[s].owner == owner)
    {
      reservations := reservations - {nonce};
      if promoted.Some? {
        if promoted.value in bindings && bindings[promoted.value].owner == owner {
          bindings := bindings - {promoted.value};
        }
      }
    }
  }

  function NewBinding(tokenId: TokenId, owner: TaskId, deadline: real, now: real): Binding {
    Binding(tokenId, now, now, deadline, owner, false, true)
  }

  /** When entries are only removed, the evicted owners are exactly the owners of the removed entries. */
  lemma EvictedIsRemoved(g: Registry, g': Registry)
    requires OneEntryPerOwner(g)
    requires forall n :: n in g'.reservations ==> n in g.reservations && g'.reservations[n] == g.reservations[n]
    requires forall s :: s in g'.bindings ==> s in g.bindings && g'.bindings[s] == g.bindings[s]
    ensures Evicted(g, g') ==
            ReservationOwners(g.reservations - g'.reservations.Keys) + BindingOwners(g.bindings - g'.bindings.Keys)
  {
    var gone := ReservationOwners(g.reservations - g'.reservations.Keys) + BindingOwners(g.bindings - g'.bindings.Keys);
    forall t | t in Evicted(g, g')
      ensures t in gone
    {
      if n :| n in g.reservations && g.reservations[n].owner == t {
        assert n in g.reservations - g'.reservations.Keys;
      } else {
        var s :| s in g.bindings && g.bindings[s].owner == t;
        assert s in g.bindings - g'.bindings.Keys;
      }
    }
  }

  lemma ReservationRemoved(before: map<Nonce, Reservation>, now: map<Nonce, Reservation>, n: Nonce)
    requires n in now && forall k :: k in now ==> k in before && now[k] == before[k]
    requires forall k, k' :: k in before && k' in before && k != k' ==> before[k].owner != before[k'].owner
    ensures ReservationOwners(before - (now - {n}).Keys) == ReservationOwners(before - now.Keys) + {now[n].owner}
    ensures now[n].owner !in ReservationOwners(before - now.Keys)
  {
    assert before - (now - {n}).Keys == (before - now.Keys)[n := now[n]];
    ReservationOwnersAdd(before - now.Keys, n, now[n]);
  }

  lemma BindingRemoved(before: map<SessionId, Binding>, now: map<SessionId, Binding>, s: SessionId)
    requires s in now && forall k :: k in now ==> k in before && now[k] == before[k]
    requires forall k, k' :: k in before && k' in before && k != k' ==> before[k].owner != before[k'].owner
    ensures BindingOwners(before - (now - {s}).Keys) == BindingOwners(before - now.Keys) + {now[s].owner}
    ensures now[s].owner !in BindingOwners(before - now.Keys)
  {
    assert before - (now - {s}).Keys == (before - now.Keys)[s := now[s]];
    BindingOwnersAdd(before - now.Keys, s, now[s]);
  }

  lemma ReservationOwnersAdd(m: map<Nonce, Reservation>, n: Nonce, r: Reservation)
    requires n !in m
    ensures ReservationOwners(m[n := r]) == ReservationOwners(m) + {r.owner}
  {
    var m' := m[n := r];
    assert m'[n] == r && forall k :: k in m ==> m'[k] == m[k];
    assert ReservationOwners(m') <= ReservationOwners(m) + {r.owner};
    forall t | t in ReservationOwners(m) + {r.owner}
      ensures t in ReservationOwners(m')
    {
      if t != r.owner {
        var k :| k in m && m[k].owner == t;
        assert m'[k].owner == t;
      }
    }
  }

  lemma BindingOwnersAdd(m: map<SessionId, Binding>, s: SessionId, b: Binding)
    requires s !in m
    ensures BindingOwners(m[s := b]) == BindingOwners(m) + {b.owner}
  {
    var m' := m[s := b];
    assert m'[s] == b && forall k :: k in m ==> m'[k] == m[k];
    assert BindingOwners(m') <= BindingOwners(m) + {b.owner};
    forall t | t in BindingOwners(m) + {b.owner}
      ensures t in BindingOwners(m')
    {
      if t != b.owner {
        var k :| k in m && m[k].owner == t;
        assert m'[k].owner == t;
      }
    }
  }
}
