/**
 The co-pilot's connection manager: who is connected, on which session and
 socket. A user has one live session; a new connection replaces the old one,
 whose own handler disconnects it late.
 */
module ConnectionManager {
  import opened Wrappers

  type SessionId = string
  type UserId = string
  type Socket = nat

  datatype User = User(userId: UserId, balanceCents: int)

  /** The maps that are only written under the lock. */
  datatype State = State(
    active: map<SessionId, Socket>,
    userSessions: map<UserId, SessionId>,
    connectedSince: map<SessionId, string>,
    sessionUsers: map<SessionId, User>)

  datatype Event =
    | Connect(sessionId: SessionId, userId: UserId, socket: Socket, user: Option<User>, since: string)
    | Disconnect(sessionId: SessionId)

  function Disconnected(s: State, id: SessionId): State {
    State(s.active - {id},
          map u | u in s.userSessions && s.userSessions[u] != id :: s.userSessions[u],
          s.connectedSince - {id},
          s.sessionUsers - {id})
  }

  /** The live session that a connection of `userId` replaces. */
  function Replaced(s: State, userId: UserId): Option<SessionId> {
    if userId in s.userSessions && s.userSessions[userId] in s.active then Some(s.userSessions[userId]) else None
  }

  function Connected(s: State, e: Event): State
    requires e.Connect?
  {
    var s1 := if Replaced(s, e.userId).Some? then Disconnected(s, Replaced(s, e.userId).value) else s;
    State(s1.active[e.sessionId := e.socket],
          s1.userSessions[e.userId := e.sessionId],
          s1.connectedSince[e.sessionId := e.since],
          if e.user.Some? then s1.sessionUsers[e.sessionId := e.user.value] else s1.sessionUsers)
  }

  function Step(s: State, e: Event): State {
    match e
    case Connect(_, _, _, _, _) => Connected(s, e)
    case Disconnect(id) => Disconnected(s, id)
  }

  // ---- The manager ----

  class Manager {
    var active: map<SessionId, Socket>
    var userSessions: map<UserId, SessionId>
    var connectedSince: map<SessionId, string>
    var sessionUsers: map<SessionId, User>

    constructor ()
      ensures Now() == State(map[], map[], map[], map[])
    {
      active, userSessions, connectedSince, sessionUsers := map[], map[], map[], map[];
    }

    function Now(): State
      reads this
    {
      State(active, userSessions, connectedSince, sessionUsers)
    }

    method DisconnectUnlocked(id: SessionId)
      modifies this
      ensures Now() == Disconnected(old(Now()), id)
    {
      active := active - {id};
      connectedSince := connectedSince - {id};
      sessionUsers := sessionUsers - {id};
      userSessions := map u | u in userSessions && userSessions[u] != id :: userSessions[u];
    }

    /** Registers a connection; `closed` is the socket of the session it replaces. */
    method Connect(sessionId: SessionId, userId: UserId, socket: Socket, user: Option<User>, since: string)
      returns (closed: Option<Socket>)
      modifies this
      ensures Now() == Step(old(Now()), Event.Connect(sessionId, userId, socket, user, since))
      ensures closed == match Replaced(old(Now()), userId)
                        case None => None
                        case Some(id) => Some(old(active)[id])
    {
      closed := None;
      if userId in userSessions {
        var oldSession := userSessions[userId];
        if oldSession in active {
          closed := Some(active[oldSession]);
          DisconnectUnlocked(oldSession);
        }
      }
      active := active[sessionId := socket];
      userSessions := userSessions[userId := sessionId];
      connectedSince := connectedSince[sessionId := since];
      if user.Some? {
        sessionUsers := sessionUsers[sessionId := user.value];
      }
    }

    method Disconnect(id: SessionId)
      modifies this
      ensures Now() == Step(old(Now()), Event.Disconnect(id))
    {
      DisconnectUnlocked(id);
    }
  }

  // ---- Runs ----

  /** A run from an empty manager; session ids are fresh and a known user connects under its own id. */
  ghost predicate IsRun(run: seq<State>, events: seq<Event>) {
    && |run| == |events| + 1
    && run[0] == State(map[], map[], map[], map[])
    && (forall i :: 0 <= i < |events| ==> run[i + 1] == Step(run[i], events[i]))
    && (forall i :: 0 <= i < |events| ==> OwnUser(events[i]))
    && FreshSessions(events)
  }

  predicate OwnUser(e: Event) { e.Connect? && e.user.Some? ==> e.user.value.userId == e.userId }

  predicate FreshSessions(events: seq<Event>) {
    forall i, j :: 0 <= i < j < |events| && events[i].Connect? && events[j].Connect? ==>
      events[i].sessionId != events[j].sessionId
  }

  /** The connection made at `m` has neither been disconnected nor replaced before `n`. */
  ghost predicate Current(events: seq<Event>, m: int, n: int) {
    && 0 <= m < n <= |events| && events[m].Connect?
    && forall k :: m < k < n ==> !Ends(events[k], events[m])
  }

  predicate Ends(later: Event, e: Event)
    requires e.Connect?
  {
    match later
    case Connect(_, userId, _, _, _) => userId == e.userId
    case Disconnect(id) => id == e.sessionId
  }

  // ---- The maps as a function of the history ----

  /** What the maps say about the connection `e`, if it is current. */
  predicate Registered(s: State, e: Event)
    requires e.Connect?
  {
    && e.userId in s.userSessions && s.userSessions[e.userId] == e.sessionId
    && e.sessionId in s.active && s.active[e.sessionId] == e.socket
    && e.sessionId in s.connectedSince && s.connectedSince[e.sessionId] == e.since
    && (if e.user.Some? then e.sessionId in s.sessionUsers && s.sessionUsers[e.sessionId] == e.user.value
        else e.sessionId !in s.sessionUsers)
  }

  /** No map knows the session. */
  predicate Absent(s: State, id: SessionId) {
    && id !in s.active && id !in s.connectedSince && id !in s.sessionUsers
    && forall u :: u in s.userSessions ==> s.userSessions[u] != id
  }

  lemma {:induction false} UnusedIsAbsent(run: seq<State>, events: seq<Event>, n: nat, id: SessionId)
    requires IsRun(run, events) && n < |run|
    requires forall k :: 0 <= k < n && events[k].Connect? ==> events[k].sessionId != id
    ensures Absent(run[n], id)
  {
    if n > 0 {
      UnusedIsAbsent(run, events, n - 1, id);
      assert run[n] == Step(run[n - 1], events[n - 1]);
    }
  }

  lemma DisconnectedIsAbsent(s: State, id: SessionId)
    ensures Absent(Disconnected(s, id), id)
  {
  }

  /** A step leaves alone what it does not end. */
  lemma StepKeepsRegistered(s: State, e: Event, later: Event)
    requires e.Connect? && Registered(s, e) && !Ends(later, e)
    requires later.Connect? ==> later.sessionId != e.sessionId
    requires later.Connect? && Replaced(s, later.userId).Some? ==> Replaced(s, later.userId).value != e.sessionId
    ensures Registered(Step(s, later), e)
  {
  }

  lemma StepKeepsAbsent(s: State, id: SessionId, later: Event)
    requires Absent(s, id) && (later.Connect? ==> later.sessionId != id)
    ensures Absent(Step(s, later), id)
  {
  }

  /** Main result: a session is in the maps, under its own user, exactly while its connection is current. */
  lemma {:induction false} MapsFollowHistory(run: seq<State>, events: seq<Event>, m: nat, n: nat)
    requires IsRun(run, events) && m < n < |run| && events[m].Connect?
    ensures if Current(events, m, n) then Registered(run[n], events[m]) else Absent(run[n], events[m].sessionId)
    decreases n, 0
  {
    var e, s, later := events[m], run[n - 1], events[n - 1];
    assert run[n] == Step(s, later);
    if n == m + 1 {
      UnusedIsAbsent(run, events, m, e.sessionId);
    } else {
      MapsFollowHistory(run, events, m, n - 1);
      assert Current(events, m, n) <==> Current(events, m, n - 1) && !Ends(later, e);
      if !Current(events, m, n - 1) {
        StepKeepsAbsent(s, e.sessionId, later);
      } else if !Ends(later, e) {
        if later.Connect? && Replaced(s, later.userId).Some? {
          assert s.userSessions[later.userId] != e.sessionId by {
            SessionHasOneUser(run, events, n - 1, later.userId, e.userId);
          }
        }
        StepKeepsRegistered(s, e, later);
      } else if later.Connect? {
        DisconnectedIsAbsent(s, e.sessionId);
      }
    }
  }

  /** Two users never share a session. */
  lemma {:induction false} SessionHasOneUser(run: seq<State>, events: seq<Event>, n: nat, u: UserId, v: UserId)
    requires IsRun(run, events) && n < |run|
    requires u in run[n].userSessions && v in run[n].userSessions && u != v
    ensures run[n].userSessions[u] != run[n].userSessions[v]
    decreases n, 1
  {
    assert run[n] == Step(run[n - 1], events[n - 1]);
    var later := events[n - 1];
    if u in run[n - 1].userSessions && v in run[n - 1].userSessions {
      SessionHasOneUser(run, events, n - 1, u, v);
    }
    if later.Connect? {
      UnusedIsAbsent(run, events, n - 1, later.sessionId);
    }
  }

  // ---- Consequences ----

  /** The connection behind an entry of the user map. */
  lemma {:induction false} UserEntryIsCurrent(run: seq<State>, events: seq<Event>, n: nat, u: UserId) returns (m: int)
    requires IsRun(run, events) && n < |run| && u in run[n].userSessions
    ensures Current(events, m, n) && events[m].userId == u && events[m].sessionId == run[n].userSessions[u]
  {
    m := ConnectOf(run, events, n, run[n].userSessions[u]);
    MapsFollowHistory(run, events, m, n);
    if events[m].userId != u {
      SessionHasOneUser(run, events, n, u, events[m].userId);
    }
  }

  lemma ConnectOf(run: seq<State>, events: seq<Event>, n: nat, id: SessionId) returns (m: int)
    requires IsRun(run, events) && n < |run| && !Absent(run[n], id)
    ensures 0 <= m < n && events[m].Connect? && events[m].sessionId == id
  {
    if forall k :: 0 <= k < n && events[k].Connect? ==> events[k].sessionId != id {
      UnusedIsAbsent(run, events, n, id);
      assert false;
    }
    m :| 0 <= m < n && events[m].Connect? && events[m].sessionId == id;
  }

  /**
   The user map and the active map are mutual inverses: a user's session is
   active, an active session is the session of exactly one user, and the user
   stored for a session is that one.
   */
  lemma MapsAreInverse(run: seq<State>, events: seq<Event>, n: nat)
    requires IsRun(run, events) && n < |run|
    ensures forall u :: u in run[n].userSessions ==> run[n].userSessions[u] in run[n].active
    ensures forall id :: id in run[n].active ==> exists u :: u in run[n].userSessions && run[n].userSessions[u] == id
    ensures forall u, v :: u in run[n].userSessions && v in run[n].userSessions && u != v ==>
              run[n].userSessions[u] != run[n].userSessions[v]
    ensures run[n].active.Keys == run[n].connectedSince.Keys
    ensures forall u :: u in run[n].userSessions && run[n].userSessions[u] in run[n].sessionUsers ==>
              run[n].sessionUsers[run[n].userSessions[u]].userId == u
    ensures forall id :: id in run[n].sessionUsers ==> id in run[n].active
  {
    var s := run[n];
    forall u | u in s.userSessions
      ensures s.userSessions[u] in s.active
      ensures s.userSessions[u] in s.sessionUsers ==> s.sessionUsers[s.userSessions[u]].userId == u
    {
      var m := UserEntryIsCurrent(run, events, n, u);
      MapsFollowHistory(run, events, m, n);
      assert OwnUser(events[m]);
    }
    forall id | !Absent(s, id)
      ensures id in s.active && id in s.connectedSince
      ensures exists u :: u in s.userSessions && s.userSessions[u] == id
    {
      var m := ConnectOf(run, events, n, id);
      MapsFollowHistory(run, events, m, n);
    }
    forall u, v | u in s.userSessions && v in s.userSessions && u != v
      ensures s.userSessions[u] != s.userSessions[v]
    {
      SessionHasOneUser(run, events, n, u, v);
    }
    assert s.active.Keys == s.connectedSince.Keys by {
      forall id
        ensures id in s.active.Keys <==> id in s.connectedSince.Keys
      {
        assert id in s.active || id in s.connectedSince ==> !Absent(s, id);
      }
    }
  }

  /**
   A session that nobody disconnects, because the disconnect of its handler is lost
   or late, stays registered with its socket exactly until the user's next connection
   or some other disconnect of it.
   */
  lemma ActiveUntilEnded(run: seq<State>, events: seq<Event>, m: nat, n: nat)
    requires IsRun(run, events) && m < n < |run| && events[m].Connect?
    ensures var e, s := events[m], run[n];
            e.sessionId in s.active <==>
            forall k :: m < k < n ==>
              && events[k] != Disconnect(e.sessionId)
              && !(events[k].Connect? && events[k].userId == e.userId)
    ensures var e, s := events[m], run[n];
            e.sessionId in s.active ==> s.active[e.sessionId] == e.socket && Replaced(s, e.userId) == Some(e.sessionId)
  {
    MapsFollowHistory(run, events, m, n);
    var e := events[m];
    forall k | m < k < n
      ensures Ends(events[k], e) <==>
              events[k] == Disconnect(e.sessionId) || (events[k].Connect? && events[k].userId == e.userId)
    {
    }
  }

  /** The late disconnect of a session that was replaced, or already ended, changes nothing at all. */
  lemma LateDisconnectIsHarmless(run: seq<State>, events: seq<Event>, m: nat, n: nat)
    requires IsRun(run, events) && m < n < |run| && events[m].Connect? && !Current(events, m, n)
    ensures Step(run[n], Disconnect(events[m].sessionId)) == run[n]
  {
    MapsFollowHistory(run, events, m, n);
    var s, id := run[n], events[m].sessionId;
    assert s.active - {id} == s.active && s.connectedSince - {id} == s.connectedSince;
    assert s.sessionUsers - {id} == s.sessionUsers;
    assert (map u | u in s.userSessions && s.userSessions[u] != id :: s.userSessions[u]) == s.userSessions;
  }
}
