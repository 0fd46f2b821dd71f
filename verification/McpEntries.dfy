/**
 When registry entries come, stay, change and leave, and when a POST is delivered:
 exactly, for every event of every run, in terms of the clock, the handlers and the
 entries themselves.
 */
module McpEntries {
  import opened Wrappers
  import opened McpRegistry
  import opened McpProtocol
  import opened McpSafety
  import opened McpTiming
  import opened McpAccounting

  // ---- Sweeps ----

  /** A sweep spares the entries whose owner still runs and whose time has not come, as they are, and no others. */
  lemma SweepSparesExactly(g: Registry, now: real, done: set<TaskId>)
    ensures var g' := Sweep(g, now, done);
            && (forall n :: n in g'.reservations <==>
                  && n in g.reservations
                  && g.reservations[n].owner !in done && now < g.reservations[n].firstFrameDeadline)
            && (forall s :: s in g'.bindings <==>
                  && s in g.bindings && g.bindings[s].owner !in done && now < g.bindings[s].deadline)
            && (forall n :: n in g'.reservations ==> g'.reservations[n] == g.reservations[n])
            && (forall s :: s in g'.bindings ==> g'.bindings[s] == g.bindings[s])
  {
  }

  /** The clock value that a sweep works with. */
  function SweepTime(w: World, e: Event): real
    requires CanStep(w, e) && Sweeps(e)
  {
    if e.Gateway? then w.gate.stamp else w.tasks[e.task].stamp
  }

  // ---- Reservations ----

  /** What takes a reservation away: a sweep that finds it due or ownerless, or a section of its own handler. */
  predicate ReservationLeaves(w: World, e: Event, n: Nonce)
    requires CanStep(w, e) && n in w.registry.reservations && w.registry.reservations[n].owner in w.tasks
  {
    var r := w.registry.reservations[n];
    || (Sweeps(e) && (r.owner in w.done || r.firstFrameDeadline <= SweepTime(w, e)))
    || (e == Get(r.owner, Promote) && w.enabled && w.tasks[r.owner].stamp <= r.firstFrameDeadline)
    || e == Get(r.owner, Cleanup)
    || e == Watch(r.owner, WatchEvent.DropReservation)
    || e == ToolClose(r.owner, false)
    || e == Gateway(Drain)
  }

  /** The entries that a sweep would spare. */
  ghost function Spares(w: World, now: real): nat {
    |set n | n in w.registry.reservations && w.registry.reservations[n].owner !in w.done
             && now < w.registry.reservations[n].firstFrameDeadline|
    + |set s | s in w.registry.bindings && w.registry.bindings[s].owner !in w.done
               && now < w.registry.bindings[s].deadline|
  }

  lemma SparesAreSwept(w: World, now: real)
    ensures Entries(Sweep(w.registry, now, w.done)) == Spares(w, now)
  {
    var g, g' := w.registry, Sweep(w.registry, now, w.done);
    assert g'.reservations.Keys ==
           set n | n in g.reservations && g.reservations[n].owner !in w.done
                   && now < g.reservations[n].firstFrameDeadline;
    assert g'.bindings.Keys ==
           set s | s in g.bindings && g.bindings[s].owner !in w.done && now < g.bindings[s].deadline;
  }

  /** A reservation comes by an admission that finds connectivity on and fewer than 32 entries spared. */
  ghost predicate ReservationComes(w: World, e: Event, n: Nonce)
    requires CanStep(w, e)
  {
    e.Get? && e.get == Admit(n) && w.enabled && Spares(w, w.tasks[e.task].stamp) < 32
  }

  /** Only an admitted handler's own section touches the reservation under its nonce. */
  predicate OwnedNonce(w: World, t: TaskId, n: Nonce)
    requires n in w.registry.reservations
  {
    t in w.tasks && !NotAdmitted(w.tasks[t]) ==> (w.tasks[t].nonce == n <==> w.registry.reservations[n].owner == t)
  }

  lemma NoncesAreOwned(w: World, t: TaskId, n: Nonce)
    requires Owned(w) && OwnNonces(w.tasks, w.usedNonces) && n in w.registry.reservations
    ensures OwnedNonce(w, t, n)
  {
    assert ReservationOk(w, n);
  }

  /** The handler whose section an event is. */
  function Actor(e: Event): Option<TaskId> {
    match e
    case Get(t, _) => Some(t)
    case Watch(t, _) => Some(t)
    case ToolClose(t, _) => Some(t)
    case _ => None
  }

  lemma GetReservation(w: World, t: TaskId, e: GetEvent, n: Nonce)
    requires CanGet(w, t, e) && n in w.registry.reservations && w.registry.reservations[n].owner in w.tasks
    requires OwnedNonce(w, t, n) && n in w.usedNonces
    requires t in w.tasks ==> TaskShape(w.tasks[t])
    ensures n !in RegistryAfterGet(w, t, e).reservations <==> ReservationLeaves(w, Get(t, e), n)
    ensures n in RegistryAfterGet(w, t, e).reservations ==>
              RegistryAfterGet(w, t, e).reservations[n] == w.registry.reservations[n]
  {
    if e.Admit? {
      SweepSparesExactly(w.registry, w.tasks[t].stamp, w.done);
    }
  }

  lemma OtherReservation(w: World, e: Event, n: Nonce)
    requires CanStep(w, e) && !e.Get? && n in w.registry.reservations && w.registry.reservations[n].owner in w.tasks
    requires Actor(e).Some? ==> OwnedNonce(w, Actor(e).value, n) && TaskShape(w.tasks[Actor(e).value])
    requires e.Watch? ==> !NotAdmitted(w.tasks[e.task])
    ensures n !in NextRegistry(w, e).reservations <==> ReservationLeaves(w, e, n)
    ensures n in NextRegistry(w, e).reservations ==> NextRegistry(w, e).reservations[n] == w.registry.reservations[n]
  {
    if e == Gateway(PostDecide) {
      SweepSparesExactly(w.registry, w.gate.stamp, w.done);
    }
  }

  lemma StepReservation(w: World, e: Event, n: Nonce)
    requires CanStep(w, e) && Inv(w) && OwnNonces(w.tasks, w.usedNonces) && n in w.registry.reservations
    ensures w.registry.reservations[n].owner in w.tasks
    ensures n !in NextRegistry(w, e).reservations <==> ReservationLeaves(w, e, n)
    ensures n in NextRegistry(w, e).reservations ==> NextRegistry(w, e).reservations[n] == w.registry.reservations[n]
  {
    assert ReservationOk(w, n);
    if Actor(e).Some? {
      NoncesAreOwned(w, Actor(e).value, n);
      assert Actor(e).value in w.tasks ==> TaskShape(w.tasks[Actor(e).value]);
    }
    if e.Get? {
      GetReservation(w, e.task, e.get, n);
    } else {
      OtherReservation(w, e, n);
    }
  }

  lemma NewReservation(w: World, e: Event, n: Nonce)
    requires CanStep(w, e) && n !in w.registry.reservations
    ensures n in NextRegistry(w, e).reservations <==> ReservationComes(w, e, n)
    ensures n in NextRegistry(w, e).reservations ==>
              var stamp := w.tasks[e.task].stamp;
              NextRegistry(w, e).reservations[n] == Reservation(n, e.task, stamp, stamp + 10.0)
  {
    if e.Get? && e.get.Admit? {
      SparesAreSwept(w, w.tasks[e.task].stamp);
    } else {
      assert !(e.Get? && e.get.Promote? && PromoteSucceeds(w, e.task)) ==> Quiet(w, e) || e.get.Accept? || e.get.Frame?;
      if Quiet(w, e) {
        QuietIsBelow(w, e);
      }
    }
  }

  /**
   Main result for reservations: in every run, one leaves exactly by a sweep that is
   late enough or finds its owner finished, by the promotion in time, the cleanup, the
   watchdog or a tool failure of its own handler, or when everything is detached; until
   then it stays as it is, and one comes exactly by an admission that has room.
   */
  lemma ReservationsComeAndGo(ws: seq<World>, es: seq<Event>, i: nat, n: Nonce)
    requires Run(ws, es) && i < |es|
    ensures var w, g' := ws[i], ws[i + 1].registry;
            if n in w.registry.reservations
            then
              && w.registry.reservations[n].owner in w.tasks
              && (n !in g'.reservations <==> ReservationLeaves(w, es[i], n))
              && (n in g'.reservations ==> g'.reservations[n] == w.registry.reservations[n])
            else
              && (n in g'.reservations <==> ReservationComes(w, es[i], n))
              && (n in g'.reservations ==>
                    var stamp := w.tasks[es[i].task].stamp;
                    g'.reservations[n] == Reservation(n, es[i].task, stamp, stamp + 10.0))
  {
    RunKeepsInv(ws, es, i);
    RunKeepsNonces(ws, es, i);
    assert ws[i + 1].registry == NextRegistry(ws[i], es[i]);
    if n in ws[i].registry.reservations {
      StepReservation(ws[i], es[i], n);
    } else {
      NewReservation(ws[i], es[i], n);
    }
  }

  // ---- Bindings ----

  /** What takes a binding away. */
  predicate BindingLeaves(w: World, e: Event, s: SessionId)
    requires CanStep(w, e) && s in w.registry.bindings
  {
    var b := w.registry.bindings[s];
    || (Sweeps(e) && (b.owner in w.done || b.deadline <= SweepTime(w, e)))
    || e == Get(b.owner, Cleanup)
    || e == Watch(b.owner, Detach)
    || e == ToolClose(b.owner, true)
    || (e == Gateway(PostDetach) && (w.gate == PostUnknown(s) || w.gate == PostRevoked(s, Some(b.tokenId))))
    || e == Gateway(Drain)
  }

  /** What a revalidation makes of a deadline: the reported expiry, if it comes sooner, and never before `now`. */
  function Shortened(deadline: real, expiresAt: Option<real>, nowWall: real, now: real): real {
    if expiresAt.Some? && now + Max(0.0, expiresAt.value - nowWall) < deadline
    then now + Max(0.0, expiresAt.value - nowWall)
    else deadline
  }

  /** What becomes of a binding that stays: its own watchdog's refresh, a POST delivered to it, or nothing. */
  ghost function Kept(w: World, e: Event, s: SessionId): Binding
    requires CanStep(w, e) && s in w.registry.bindings
  {
    var b := w.registry.bindings[s];
    if e == Watch(b.owner, Refresh) then
      var d := w.tasks[b.owner].watchdog;
      b.(lastValidatedActivity := d.stamp, deadline := Shortened(b.deadline, d.expiresAt, w.clock + w.offset, d.stamp))
    else if e == Gateway(PostDecide) && w.gate.session == s && w.gate.tokenId == b.tokenId && w.enabled then
      b.(lastValidatedActivity := w.gate.stamp)
    else b
  }

  /** A promotion binds a handler that still has its reservation, with a frame in time, while connectivity is on. */
  predicate BindingComes(w: World, e: Event, s: SessionId)
    requires CanStep(w, e)
  {
    && e.Get? && e.get.Promote?
    && var k := w.tasks[e.task];
    && k.session == Some(s) && w.enabled
    && k.nonce in w.registry.reservations && k.stamp <= w.registry.reservations[k.nonce].firstFrameDeadline
  }

  /** What an event makes of a binding that was there ... */
  ghost predicate BindingKeptOrGone(w: World, e: Event, g': Registry, s: SessionId)
    requires CanStep(w, e) && s in w.registry.bindings
  {
    && (s !in g'.bindings <==> BindingLeaves(w, e, s))
    && (s in g'.bindings ==> g'.bindings[s] == Kept(w, e, s))
  }

  /** ... and of one that was not: it has an hour, or what is left of the token that opens it. */
  ghost predicate BindingNewOrNone(w: World, e: Event, g': Registry, s: SessionId)
    requires CanStep(w, e)
  {
    && (s in g'.bindings <==> BindingComes(w, e, s))
    && (s in g'.bindings ==>
          var k := w.tasks[e.task];
          var limit := Shortened(k.stamp + 3600.0, k.expiresAt, w.clock + w.offset, k.stamp);
          g'.bindings[s] == Binding(k.tokenId, k.stamp, k.stamp, limit, e.task, false, true))
  }

  /** The session of a handler is the one of the binding exactly if the binding is the handler's. */
  predicate OwnedSession(w: World, t: TaskId, s: SessionId)
    requires s in w.registry.bindings
  {
    t in w.tasks ==> (w.tasks[t].session == Some(s) <==> w.registry.bindings[s].owner == t)
  }

  lemma SessionsAreOwned(w: World, t: TaskId, s: SessionId)
    requires Owned(w) && Sessions(w) && s in w.registry.bindings
    ensures OwnedSession(w, t, s)
  {
    assert BindingOk(w, s);
  }

  predicate OpenBinding(b: Binding) { !b.closing && b.enqueueable }

  lemma GetBinding(w: World, t: TaskId, e: GetEvent, s: SessionId)
    requires CanGet(w, t, e) && s in w.registry.bindings && OwnedSession(w, t, s)
    requires t in w.tasks ==> TaskShape(w.tasks[t])
    requires e.Promote? ==> w.tasks[t].session != Some(s)
    ensures BindingKeptOrGone(w, Get(t, e), RegistryAfterGet(w, t, e), s)
  {
    if e.Admit? {
      SweepSparesExactly(w.registry, w.tasks[t].stamp, w.done);
    }
  }

  lemma WatchBinding(w: World, t: TaskId, e: WatchEvent, s: SessionId)
    requires CanWatch(w, t, e) && s in w.registry.bindings && OwnedSession(w, t, s)
    requires e.Refresh? && w.registry.bindings[s].owner == t ==>
               w.registry.bindings[s].deadline <= w.tasks[t].watchdog.stamp + 3600.0
    ensures BindingKeptOrGone(w, Watch(t, e), RegistryAfterWatch(w, t, e), s)
  {
  }

  lemma GateBinding(w: World, e: GateEvent, s: SessionId)
    requires CanGate(w, e) && s in w.registry.bindings && OpenBinding(w.registry.bindings[s])
    ensures BindingKeptOrGone(w, Gateway(e), RegistryAfterGate(w, e), s)
  {
    if e.PostDecide? {
      SweepSparesExactly(w.registry, w.gate.stamp, w.done);
    }
  }

  lemma RefreshedAfterCreation(w: World, s: SessionId, t: TaskId)
    requires Owned(w) && AllPaced(w) && s in w.registry.bindings && w.registry.bindings[s].owner == t
    requires t in w.tasks && w.tasks[t].watchdog.Refreshing?
    ensures w.registry.bindings[s].deadline <= w.tasks[t].watchdog.stamp + 3600.0
  {
    assert BindingOk(w, s) && Paced(w.clock, w.registry, w.tasks[t], t);
  }

  lemma StepBinding(w: World, e: Event, s: SessionId)
    requires CanStep(w, e) && Inv(w) && AllPaced(w) && s in w.registry.bindings
    ensures BindingKeptOrGone(w, e, NextRegistry(w, e), s)
  {
    if Actor(e).Some? {
      SessionsAreOwned(w, Actor(e).value, s);
    }
    match e
    case Get(t, g) => GetsKeepBinding(w, t, g, s);
    case Watch(t, d) => WatchesKeepBinding(w, t, d, s);
    case Gateway(g) =>
      assert BindingOk(w, s);
      GateBinding(w, g, s);
    case ToolClose(t, bySession) => ToolBinding(w, t, bySession, s);
    case Tick(_) =>
    case RevokeToken(_) =>
  }

  lemma ToolBinding(w: World, t: TaskId, bySession: bool, s: SessionId)
    requires CanStep(w, ToolClose(t, bySession)) && s in w.registry.bindings && OwnedSession(w, t, s)
    ensures BindingKeptOrGone(w, ToolClose(t, bySession), NextRegistry(w, ToolClose(t, bySession)), s)
  {
  }

  lemma WatchesKeepBinding(w: World, t: TaskId, e: WatchEvent, s: SessionId)
    requires CanWatch(w, t, e) && Owned(w) && AllPaced(w) && s in w.registry.bindings && OwnedSession(w, t, s)
    ensures BindingKeptOrGone(w, Watch(t, e), RegistryAfterWatch(w, t, e), s)
  {
    if e.Refresh? && w.registry.bindings[s].owner == t {
      RefreshedAfterCreation(w, s, t);
    }
    WatchBinding(w, t, e, s);
  }

  lemma GetsKeepBinding(w: World, t: TaskId, e: GetEvent, s: SessionId)
    requires CanGet(w, t, e) && Inv(w) && s in w.registry.bindings && OwnedSession(w, t, s)
    ensures BindingKeptOrGone(w, Get(t, e), RegistryAfterGet(w, t, e), s)
  {
    assert t in w.tasks ==> TaskShape(w.tasks[t]);
    if e.Promote? {
      PromotionMovesOneEntry(w, t);
    }
    GetBinding(w, t, e, s);
  }

  lemma NewBindingComes(w: World, e: Event, s: SessionId)
    requires CanStep(w, e) && s !in w.registry.bindings
    requires e.Get? && e.get.Promote? && w.tasks[e.task].nonce in w.registry.reservations ==>
               w.registry.reservations[w.tasks[e.task].nonce].owner == e.task
    requires e.Get? && e.get.Promote? ==> w.tasks[e.task].session.Some?
    ensures BindingNewOrNone(w, e, NextRegistry(w, e), s)
  {
    if e.Get? && e.get.Promote? {
    } else if Quiet(w, e) {
      QuietIsBelow(w, e);
    }
  }

  /**
   Main result for bindings: in every run, one comes exactly by a promotion in time,
   with an hour or what is left of its token; it leaves exactly by a sweep that is late
   enough or finds its owner finished, the cleanup, the watchdog or a tool failure of
   its own handler, a POST whose validation failed for its token, or when everything is
   detached; and until then only its own watchdog moves its deadline, and only to a
   reported expiry that comes sooner.
   */
  lemma BindingsComeAndGo(ws: seq<World>, es: seq<Event>, i: nat, s: SessionId)
    requires Run(ws, es) && i < |es|
    ensures var w, g' := ws[i], ws[i + 1].registry;
            if s in w.registry.bindings then BindingKeptOrGone(w, es[i], g', s) else BindingNewOrNone(w, es[i], g', s)
  {
    RunKeepsInv(ws, es, i);
    RunIsPaced(ws, es, i);
    RunKeepsNonces(ws, es, i);
    assert ws[i + 1].registry == NextRegistry(ws[i], es[i]);
    if s in ws[i].registry.bindings {
      StepBinding(ws[i], es[i], s);
    } else {
      PromoterIsReady(ws[i], es[i]);
      NewBindingComes(ws[i], es[i], s);
    }
  }

  lemma PromoterIsReady(w: World, e: Event)
    requires CanStep(w, e) && Inv(w) && OwnNonces(w.tasks, w.usedNonces)
    ensures e.Get? && e.get.Promote? ==>
              && w.tasks[e.task].session.Some?
              && (w.tasks[e.task].nonce in w.registry.reservations ==>
                    w.registry.reservations[w.tasks[e.task].nonce].owner == e.task)
  {
    if e.Get? && e.get.Promote? {
      assert TaskShape(w.tasks[e.task]);
      if w.tasks[e.task].nonce in w.registry.reservations {
        NoncesAreOwned(w, e.task, w.tasks[e.task].nonce);
      }
    }
  }

  // ---- Deliveries ----

  /** The POST in the gate may go to the SDK: its session is bound to its token, in time, and its owner runs. */
  predicate Deliverable(w: World)
    requires w.gate.PostValid?
  {
    && w.gate.session in w.registry.bindings
    && var b := w.registry.bindings[w.gate.session];
    b.tokenId == w.gate.tokenId && b.owner !in w.done && w.gate.stamp < b.deadline
  }

  lemma DecisionIff(w: World)
    requires Inv(w) && w.gate.PostValid?
    ensures DecideSucceeds(w) <==> Deliverable(w)
  {
    SweepSparesExactly(w.registry, w.gate.stamp, w.done);
    assert w.gate.session in w.registry.bindings ==> BindingOk(w, w.gate.session);
  }

  lemma NotedDelivery(w: World, o: Observation)
    requires w.gate.PostValid?
    ensures o in Notes(w, Gateway(PostDecide)) <==>
            DecideSucceeds(w) && w.gate.session in w.registry.bindings
            && o == Delivered(w.gate.post, w.gate.session, w.gate.tokenId, w.gate.stamp, w.clock,
                              w.registry.bindings[w.gate.session].deadline)
  {
  }

  /** In every run a POST decision delivers its POST exactly if it is deliverable, and never another. */
  lemma DeliveredIff(ws: seq<World>, es: seq<Event>, i: nat, o: Observation)
    requires Run(ws, es) && i < |es| && es[i] == Gateway(PostDecide) && o.Delivered?
    ensures |ws[i].trace| <= |ws[i + 1].trace|
    ensures o in ws[i + 1].trace[|ws[i].trace|..] <==>
            && Deliverable(ws[i])
            && o == Delivered(ws[i].gate.post, ws[i].gate.session, ws[i].gate.tokenId, ws[i].gate.stamp, ws[i].clock,
                              ws[i].registry.bindings[ws[i].gate.session].deadline)
  {
    var w := ws[i];
    RunKeepsInv(ws, es, i);
    DecisionIff(w);
    NotedDelivery(w, o);
    NewObservations(w, es[i], ws[i + 1]);
  }

  lemma NewObservations(w: World, e: Event, w': World)
    requires CanStep(w, e) && w' == Step(w, e)
    ensures |w.trace| <= |w'.trace|
    ensures w'.trace[|w.trace|..] ==
            [Removed(w.registry.bindings.Keys - NextRegistry(w, e).bindings.Keys)] + Notes(w, e)
  {
    TailOf(w.trace, [Removed(w.registry.bindings.Keys - NextRegistry(w, e).bindings.Keys)], Notes(w, e));
  }

  lemma TailOf(a: seq<Observation>, b: seq<Observation>, c: seq<Observation>)
    ensures (a + b + c)[|a|..] == b + c
  {
  }
}
