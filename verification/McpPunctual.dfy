/**
 Time bounds in punctual runs. Sleeps end when they are due, and whatever a
 watchdog has to do next it does within `lag`; the lag covers its waits for the
 registry lock. GET and POST handlers may take any time for anything.
 */
module McpPunctual {
  import opened McpRegistry
  import opened McpProtocol
  import opened McpSafety
  import opened McpTiming

  /** The clock may move to `time` without making the watchdog later than `lag`. */
  predicate LetsTimePassTo(k: GetTask, time: real, lag: real) {
    match k.watchdog
    case NotStarted => true
    case Stopped => true
    case Waiting(at) => time <= (if k.phase.Bound? then k.promotedAt else at) + lag
    case Sleeping(until) => time <= until + lag
    case _ => time <= k.since + lag
  }

  ghost predicate PunctualStep(w: World, e: Event, lag: real) {
    e.Tick? ==> forall t :: t in w.tasks ==> LetsTimePassTo(w.tasks[t], w.clock + e.dt, lag)
  }

  ghost predicate PunctualRun(ws: seq<World>, es: seq<Event>, lag: real) {
    Run(ws, es) && lag >= 0.0 && forall i :: 0 <= i < |es| ==> PunctualStep(ws[i], es[i], lag)
  }

  /** The watchdog of a promoted handler has neither given up waiting for the first frame nor ended. */
  predicate Guarding(k: GetTask) { k.phase.Bound? && !k.watchdog.TimedOut? && !k.watchdog.Stopped? }

  /** When the watchdog gives up waiting for the first frame. */
  function TimeoutAt(k: GetTask): real { k.admittedAt + 10.0 }

  predicate RevokedSince(revoked: map<TokenId, real>, tok: TokenId, time: real) {
    tok in revoked ==> time <= revoked[tok]
  }

  /** What holds of the clock values of a handler, whether or not it has a registry entry. */
  predicate Clocked(clock: real, revoked: map<TokenId, real>, k: GetTask) {
    && k.validatedAt <= k.checkedAt <= clock && k.validatedAt <= k.since <= clock
    && RevokedSince(revoked, k.tokenId, k.checkedAt)
    && (k.phase.Accepted? ==> k.stamp == k.validatedAt)
    && (!NotAdmitted(k) ==> k.firstFrameDeadline == k.validatedAt + FIRST_FRAME_TIMEOUT_SECONDS)
    && (!NotAdmitted(k) ==> k.validatedAt <= k.admittedAt <= clock)
    && (k.phase.Framed? || k.phase.FrameRejected? || k.bound ==> k.admittedAt <= k.stamp <= clock)
    && (k.bound ==> k.stamp <= k.promotedAt <= clock)
  }

  /** What holds of its watchdog. */
  predicate OnTime(clock: real, revoked: map<TokenId, real>, k: GetTask, lag: real) {
    var d := k.watchdog;
    && LetsTimePassTo(k, clock, lag)
    && (InLoop(d) ==> k.phase.Bound?)
    && (k.phase.Unwinding? || k.phase.Cleaned? ==> d.Stopped?)
    && (d.Stopped? && (k.phase.Streaming? || k.phase.Framed? || k.phase.FrameRejected?) ==> k.timedOut)
    && (d.NotStarted? || d.Waiting? ==> k.checkedAt == k.validatedAt)
    && (d.Waiting? ==> d.timeoutAt == TimeoutAt(k))
    && (d.Refreshing? ==> d.stamp == k.since && RevokedSince(revoked, k.tokenId, d.stamp))
    && (d.TimedOut? ==> k.timedOut && (!k.bound ==> k.since <= TimeoutAt(k) + lag))
    && (k.timedOut ==> (d.TimedOut? || d.Stopped?) && TimeoutAt(k) <= clock)
    && (k.bound ==> if k.timedOut then TimeoutAt(k) <= k.promotedAt + lag else k.promotedAt <= TimeoutAt(k) + lag)
  }

  /** How late each state of the watchdog's loop can have begun, for a binding with this deadline. */
  predicate Due(k: GetTask, deadline: real, lag: real) {
    var latest, recheck := Max(deadline, k.promotedAt), k.checkedAt + WATCHDOG_SECONDS;
    match k.watchdog
    case Sleeping(until) => until <= deadline + lag && until <= recheck + lag
    case Checking => k.since <= latest + 2.0 * lag && k.since <= recheck + 2.0 * lag
    case Validating => k.since <= deadline && k.since <= recheck + 3.0 * lag
    case Refreshing(_, _) => k.since <= deadline + lag && k.since <= recheck + 4.0 * lag
    case Detaching => k.since <= latest + 3.0 * lag && k.since <= recheck + 4.0 * lag
    case Stopped => !k.timedOut ==> k.since <= latest + 4.0 * lag && k.since <= recheck + 5.0 * lag
    case _ => true
  }

  /** What holds of a handler that has a binding, with this deadline. */
  predicate Guarded(k: GetTask, deadline: real, lag: real) {
    && (k.phase.Bound? || k.phase.Unwinding?)
    && (k.phase.Bound? && k.watchdog.Stopped? ==> k.timedOut)
    && k.stamp <= k.firstFrameDeadline && k.promotedAt <= TimeoutAt(k) + 2.0 * lag
    && Due(k, deadline, lag)
  }

  /** Handler `t`, with record `k`, has its own reservation in `g`. */
  predicate Reserves(g: Registry, k: GetTask, t: TaskId) {
    k.nonce in g.reservations && g.reservations[k.nonce].owner == t
  }

  /** The handler can still deliver its first frame, or is about to clean up. */
  predicate Awaited(k: GetTask) { (InSdk(k.phase) && !k.watchdog.Stopped?) || k.phase.Unwinding? }

  predicate Timed(clock: real, revoked: map<TokenId, real>, g: Registry, k: GetTask, t: TaskId, lag: real) {
    && Clocked(clock, revoked, k)
    && OnTime(clock, revoked, k, lag)
    && (Holds(g, k, t) ==> Guarded(k, HeldDeadline(g, k, t), lag))
    && (Reserves(g, k, t) ==> Awaited(k))
  }

  ghost predicate AllTimed(w: World, lag: real) {
    forall t :: t in w.tasks ==> Timed(w.clock, w.revoked, w.registry, w.tasks[t], t, lag)
  }

  function NextRevoked(w: World, e: Event): map<TokenId, real> {
    if e.RevokeToken? then w.revoked[e.tokenId := w.clock] else w.revoked
  }

  // ---- Preservation ----

  /** Nobody but its own watchdog touches the deadline of a registered binding. */
  lemma DeadlineUntouched(w: World, e: Event, t: TaskId)
    requires CanStep(w, e) && Inv(w) && t in NextTasks(w, e)
    requires Holds(NextRegistry(w, e), NextTasks(w, e)[t], t)
    requires !(e.Watch? && e.task == t) && (Promotes(w, e) ==> e.task != t)
    ensures t in w.tasks && Holds(w.registry, w.tasks[t], t)
    ensures HeldDeadline(NextRegistry(w, e), NextTasks(w, e)[t], t) == HeldDeadline(w.registry, w.tasks[t], t)
  {
    HoldingComesFromPromotion(w, e, t);
    var s := w.tasks[t].session.value;
    if Promotes(w, e) {
      assert TaskShape(w.tasks[e.task]);
      PromotionTouchesOnlyItsSession(w, e, s);
    } else {
      SurvivorsKeepDeadline(w, e, s);
    }
  }

  lemma SurvivorsKeepDeadline(w: World, e: Event, s: SessionId)
    requires CanStep(w, e) && !Promotes(w, e) && s in NextRegistry(w, e).bindings && s in w.registry.bindings
    requires e.Watch? ==> !OwnsSession(w.registry, s, e.task)
    ensures NextRegistry(w, e).bindings[s].deadline == w.registry.bindings[s].deadline
  {
    match e
    case Watch(t, d) =>
    case Get(t, g) =>
    case Gateway(g) =>
    case _ =>
  }

  /** A handler comes to hold a reservation only by its own admission. */
  lemma ReservingComesFromAdmission(w: World, e: Event, t: TaskId)
    requires CanStep(w, e) && t in w.tasks && t in NextTasks(w, e)
    requires Reserves(NextRegistry(w, e), NextTasks(w, e)[t], t) && !(e.Get? && e.task == t && e.get.Admit?)
    ensures Reserves(w.registry, w.tasks[t], t) && NextTasks(w, e)[t].nonce == w.tasks[t].nonce
  {
    NonceStays(w, e, t);
    ReservationWasThere(w, e, w.tasks[t].nonce);
  }

  lemma NonceStays(w: World, e: Event, t: TaskId)
    requires CanStep(w, e) && t in w.tasks && !(e.Get? && e.task == t && e.get.Admit?)
    ensures t in NextTasks(w, e) && NextTasks(w, e)[t].nonce == w.tasks[t].nonce
  {
  }

  lemma ReservationWasThere(w: World, e: Event, n: Nonce)
    requires CanStep(w, e) && n in NextRegistry(w, e).reservations
    requires !(e.Get? && e.get.Admit? && NextRegistry(w, e).reservations[n].owner == e.task)
    ensures n in w.registry.reservations && NextRegistry(w, e).reservations[n] == w.registry.reservations[n]
  {
    if Quiet(w, e) {
      QuietIsBelow(w, e);
    }
  }

  /** The clock and the set of revoked tokens move on, the GET handler does not. */
  lemma WaitingKeepsTimed(clock: real, revoked: map<TokenId, real>, g: Registry, k: GetTask, t: TaskId, lag: real,
                          clock': real, revoked': map<TokenId, real>, g': Registry)
    requires Timed(clock, revoked, g, k, t, lag) && TaskShape(k)
    requires clock <= clock' && (clock < clock' ==> LetsTimePassTo(k, clock', lag))
    requires k.tokenId in revoked' && !(k.tokenId in revoked && revoked'[k.tokenId] == revoked[k.tokenId])
             ==> revoked'[k.tokenId] == clock
    requires Holds(g', k, t) ==> Holds(g, k, t) && HeldDeadline(g', k, t) == HeldDeadline(g, k, t)
    requires Reserves(g', k, t) ==> Reserves(g, k, t)
    ensures Timed(clock', revoked', g', k, t, lag)
  {
  }

  lemma GetIsClocked(w: World, t: TaskId, e: GetEvent)
    requires CanGet(w, t, e)
    requires t in w.tasks ==> Clocked(w.clock, w.revoked, w.tasks[t]) && TaskShape(w.tasks[t])
    ensures Clocked(w.clock, w.revoked, TaskAfterGet(w, t, e))
  {
  }

  lemma GetIsOnTime(w: World, t: TaskId, e: GetEvent, lag: real)
    requires CanGet(w, t, e) && lag >= 0.0
    requires t in w.tasks ==>
               Clocked(w.clock, w.revoked, w.tasks[t]) && OnTime(w.clock, w.revoked, w.tasks[t], lag)
               && TaskShape(w.tasks[t])
    ensures OnTime(w.clock, w.revoked, TaskAfterGet(w, t, e), lag)
  {
  }

  lemma PromoteIsGuarded(w: World, t: TaskId, e: GetEvent, lag: real)
    requires e.Promote? && CanGet(w, t, e) && PromoteSucceeds(w, t) && Inv(w) && lag >= 0.0
    requires Clocked(w.clock, w.revoked, w.tasks[t]) && OnTime(w.clock, w.revoked, w.tasks[t], lag)
    requires Reserves(w.registry, w.tasks[t], t) ==> Awaited(w.tasks[t])
    ensures var k, g := TaskAfterGet(w, t, e), RegistryAfterGet(w, t, e);
            Holds(g, k, t) ==> Guarded(k, HeldDeadline(g, k, t), lag)
  {
    assert ReservationOk(w, w.tasks[t].nonce) && TaskShape(w.tasks[t]);
  }

  /** A handler that begins to unwind while its binding is guarded does so in time. */
  lemma UnwindIsGuarded(clock: real, revoked: map<TokenId, real>, k: GetTask, deadline: real, lag: real)
    requires Clocked(clock, revoked, k) && OnTime(clock, revoked, k, lag) && Guarded(k, deadline, lag) && lag >= 0.0
    requires k.phase.Bound? && k.bound && !NotAdmitted(k)
    ensures Guarded(k.(phase := Unwinding, watchdog := Stopped, since := clock), deadline, lag)
  {
  }

  lemma GetIsGuarded(w: World, t: TaskId, e: GetEvent, lag: real)
    requires CanGet(w, t, e) && Inv(w) && !(e.Promote? && PromoteSucceeds(w, t)) && lag >= 0.0
    requires t in w.tasks ==> Timed(w.clock, w.revoked, w.registry, w.tasks[t], t, lag) && TaskShape(w.tasks[t])
    ensures var k, g := TaskAfterGet(w, t, e), RegistryAfterGet(w, t, e);
            Holds(g, k, t) ==> Guarded(k, HeldDeadline(g, k, t), lag)
  {
    if Holds(RegistryAfterGet(w, t, e), TaskAfterGet(w, t, e), t) {
      DeadlineUntouched(w, Get(t, e), t);
      if e.Unwind? {
        UnwindIsGuarded(w.clock, w.revoked, w.tasks[t], HeldDeadline(w.registry, w.tasks[t], t), lag);
      }
    }
  }

  lemma GetIsAwaited(w: World, t: TaskId, e: GetEvent)
    requires CanGet(w, t, e) && Inv(w)
    requires t in w.tasks && Reserves(w.registry, w.tasks[t], t) ==> Awaited(w.tasks[t])
    ensures Reserves(RegistryAfterGet(w, t, e), TaskAfterGet(w, t, e), t) ==> Awaited(TaskAfterGet(w, t, e))
  {
    var k, g := TaskAfterGet(w, t, e), RegistryAfterGet(w, t, e);
    assert t in w.tasks ==> TaskShape(w.tasks[t]);
    if Reserves(g, k, t) && !(e.Admit? && AdmitSucceeds(w, t)) {
      assert k.nonce in w.registry.reservations && ReservationOk(w, k.nonce);
    }
  }

  lemma GetIsTimed(w: World, t: TaskId, e: GetEvent, lag: real)
    requires CanGet(w, t, e) && Inv(w) && AllTimed(w, lag) && lag >= 0.0
    ensures Timed(w.clock, w.revoked, RegistryAfterGet(w, t, e), TaskAfterGet(w, t, e), t, lag)
  {
    assert t in w.tasks ==> Timed(w.clock, w.revoked, w.registry, w.tasks[t], t, lag) && TaskShape(w.tasks[t]);
    GetIsClocked(w, t, e);
    GetIsOnTime(w, t, e, lag);
    GetIsAwaited(w, t, e);
    if e.Promote? && PromoteSucceeds(w, t) {
      PromoteIsGuarded(w, t, e, lag);
    } else {
      GetIsGuarded(w, t, e, lag);
    }
  }

  lemma WatchIsClocked(w: World, t: TaskId, e: WatchEvent, lag: real)
    requires CanWatch(w, t, e) && TaskShape(w.tasks[t]) && lag >= 0.0
    requires Clocked(w.clock, w.revoked, w.tasks[t]) && OnTime(w.clock, w.revoked, w.tasks[t], lag)
    ensures Clocked(w.clock, w.revoked, TaskAfterWatch(w, t, e))
            && OnTime(w.clock, w.revoked, TaskAfterWatch(w, t, e), lag)
  {
  }

  lemma RefreshIsGuarded(w: World, t: TaskId, e: WatchEvent, lag: real)
    requires e.Refresh? && CanWatch(w, t, e) && HoldsOwnSession(w, t) && lag >= 0.0
    requires Timed(w.clock, w.revoked, w.registry, w.tasks[t], t, lag)
    ensures var k, g := TaskAfterWatch(w, t, e), RegistryAfterWatch(w, t, e);
            Holds(g, k, t) && Guarded(k, HeldDeadline(g, k, t), lag)
  {
    var k := w.tasks[t];
    var deadline, stamp := RefreshedDeadline(w, t), k.watchdog.stamp;
    assert HeldDeadline(RegistryAfterWatch(w, t, e), TaskAfterWatch(w, t, e), t) == deadline;
    assert TokenDeadline(k.watchdog.expiresAt, Wall(w), stamp) >= stamp;
    assert w.clock <= stamp + lag && stamp - lag <= deadline;
  }

  lemma OtherWatchIsGuarded(w: World, t: TaskId, e: WatchEvent, lag: real)
    requires !e.Refresh? && CanWatch(w, t, e) && TaskShape(w.tasks[t]) && lag >= 0.0
    requires Timed(w.clock, w.revoked, w.registry, w.tasks[t], t, lag)
    requires Holds(RegistryAfterWatch(w, t, e), TaskAfterWatch(w, t, e), t)
    ensures var k, g := TaskAfterWatch(w, t, e), RegistryAfterWatch(w, t, e);
            Guarded(k, HeldDeadline(g, k, t), lag)
  {
  }

  lemma WatchIsTimed(w: World, t: TaskId, e: WatchEvent, lag: real)
    requires CanWatch(w, t, e) && Inv(w) && AllTimed(w, lag) && lag >= 0.0
    ensures Timed(w.clock, w.revoked, RegistryAfterWatch(w, t, e), TaskAfterWatch(w, t, e), t, lag)
  {
    assert Timed(w.clock, w.revoked, w.registry, w.tasks[t], t, lag) && TaskShape(w.tasks[t]);
    WatchIsClocked(w, t, e, lag);
    if Holds(RegistryAfterWatch(w, t, e), TaskAfterWatch(w, t, e), t) {
      if e.Refresh? {
        RefreshIsGuarded(w, t, e, lag);
      } else {
        OtherWatchIsGuarded(w, t, e, lag);
      }
    }
    if Reserves(RegistryAfterWatch(w, t, e), TaskAfterWatch(w, t, e), t) {
      WatchIsAwaited(w, t, e);
    }
  }

  /** A watchdog that stops while the handler is still waiting for its first frame has dropped the reservation. */
  lemma WatchIsAwaited(w: World, t: TaskId, e: WatchEvent)
    requires CanWatch(w, t, e) && Inv(w) && Reserves(RegistryAfterWatch(w, t, e), TaskAfterWatch(w, t, e), t)
    requires InLoop(w.tasks[t].watchdog) ==> w.tasks[t].phase.Bound?
    requires Reserves(w.registry, w.tasks[t], t) ==> Awaited(w.tasks[t])
    ensures Awaited(TaskAfterWatch(w, t, e))
  {
    ReservingComesFromAdmission(w, Watch(t, e), t);
    assert ReservationOk(w, w.tasks[t].nonce) && TaskShape(w.tasks[t]);
  }

  /** An event of somebody else changes nothing about a handler but the clock and, perhaps, its registry entry. */
  lemma OthersKeepTime(w: World, e: Event, t: TaskId, g: Registry, lag: real)
    requires CanStep(w, e) && PunctualStep(w, e, lag) && t in w.tasks && TaskShape(w.tasks[t])
    requires !(e.Watch? && e.task == t) && !(e.Get? && e.task == t)
    requires Timed(w.clock, w.revoked, w.registry, w.tasks[t], t, lag)
    requires Holds(g, w.tasks[t], t) ==>
               Holds(w.registry, w.tasks[t], t)
               && HeldDeadline(g, w.tasks[t], t) == HeldDeadline(w.registry, w.tasks[t], t)
    requires Reserves(g, w.tasks[t], t) ==> Reserves(w.registry, w.tasks[t], t)
    ensures Timed(NextClock(w, e), NextRevoked(w, e), g, w.tasks[t], t, lag)
  {
    WaitingKeepsTimed(w.clock, w.revoked, w.registry, w.tasks[t], t, lag, NextClock(w, e), NextRevoked(w, e), g);
  }

  lemma OthersKeepEntries(w: World, e: Event, t: TaskId)
    requires CanStep(w, e) && Inv(w) && t in w.tasks && t in NextTasks(w, e) && NextTasks(w, e)[t] == w.tasks[t]
    requires !(e.Watch? && e.task == t) && !(e.Get? && e.task == t)
    ensures var g := NextRegistry(w, e);
            && (Holds(g, w.tasks[t], t) ==>
                 && Holds(w.registry, w.tasks[t], t)
                 && HeldDeadline(g, w.tasks[t], t) == HeldDeadline(w.registry, w.tasks[t], t))
            && (Reserves(g, w.tasks[t], t) ==> Reserves(w.registry, w.tasks[t], t))
  {
    if Holds(NextRegistry(w, e), w.tasks[t], t) {
      DeadlineUntouched(w, e, t);
    }
    if Reserves(NextRegistry(w, e), w.tasks[t], t) {
      ReservingComesFromAdmission(w, e, t);
    }
  }

  lemma StepKeepsTime(w: World, e: Event, t: TaskId, lag: real)
    requires CanStep(w, e) && PunctualStep(w, e, lag) && Inv(w) && AllTimed(w, lag)
             && t in NextTasks(w, e) && lag >= 0.0
    ensures Timed(NextClock(w, e), NextRevoked(w, e), NextRegistry(w, e), NextTasks(w, e)[t], t, lag)
  {
    if e.Watch? && e.task == t {
      WatchIsTimed(w, t, e.watch, lag);
    } else if e.Get? && e.task == t {
      GetIsTimed(w, t, e.get, lag);
    } else {
      assert Timed(w.clock, w.revoked, w.registry, w.tasks[t], t, lag) && TaskShape(w.tasks[t]);
      OthersKeepEntries(w, e, t);
      OthersKeepTime(w, e, t, NextRegistry(w, e), lag);
    }
  }

  lemma {:induction false} RunIsTimed(ws: seq<World>, es: seq<Event>, lag: real, i: nat)
    requires PunctualRun(ws, es, lag) && i < |ws|
    ensures AllTimed(ws[i], lag)
  {
    if i > 0 {
      RunIsTimed(ws, es, lag, i - 1);
      RunKeepsInv(ws, es, i - 1);
      forall t | t in ws[i].tasks
        ensures Timed(ws[i].clock, ws[i].revoked, ws[i].registry, ws[i].tasks[t], t, lag)
      {
        StepKeepsTime(ws[i - 1], es[i - 1], t, lag);
      }
    }
  }

  // ---- Results ----

  /** The watchdog of handler `t` gave up waiting for the first frame before the `i`-th world of the run. */
  ghost predicate GaveUp(es: seq<Event>, t: TaskId, i: int) {
    exists j :: 0 <= j < i && j < |es| && es[j] == Watch(t, TimeOut)
  }

  lemma StepGivesUp(w: World, e: Event, t: TaskId)
    requires CanStep(w, e)
    ensures t in NextTasks(w, e) && NextTasks(w, e)[t].timedOut <==>
            e == Watch(t, TimeOut) || (t in w.tasks && w.tasks[t].timedOut)
  {
  }

  lemma GaveUpGrows(es: seq<Event>, t: TaskId, i: nat)
    requires i < |es|
    ensures GaveUp(es, t, i + 1) <==> es[i] == Watch(t, TimeOut) || GaveUp(es, t, i)
  {
  }

  lemma {:induction false} TimedOutIff(ws: seq<World>, es: seq<Event>, i: nat, t: TaskId)
    requires Run(ws, es) && i < |ws|
    ensures t in ws[i].tasks && ws[i].tasks[t].timedOut <==> GaveUp(es, t, i)
  {
    if i > 0 {
      TimedOutIff(ws, es, i - 1, t);
      StepGivesUp(ws[i - 1], es[i - 1], t);
      GaveUpGrows(es, t, i - 1);
    }
  }

  /** What a binding's time is measured against: its deadline, or its promotion if that came later. */
  function LastMoment(b: Binding, k: GetTask): real { Max(b.deadline, k.promotedAt) }

  /** How long a registered binding of this handler can have been there, if its watchdog `gaveUp` or not. */
  predicate InTimeOnceBound(clock: real, revoked: map<TokenId, real>, b: Binding, k: GetTask, gaveUp: bool, lag: real) {
    && (k.phase.Bound? || k.phase.Unwinding?)
    && (k.phase.Bound? ==> (Guarding(k) <==> !gaveUp))
    && (k.promotedAt + lag < TimeoutAt(k) ==> !gaveUp)
    && (k.promotedAt > TimeoutAt(k) + lag ==> gaveUp)
    && k.promotedAt <= TimeoutAt(k) + 2.0 * lag
    && (!gaveUp ==>
          var reached := if k.phase.Bound? then clock else k.since;
          && reached <= LastMoment(b, k) + 4.0 * lag
          && (b.tokenId in revoked ==> reached <= revoked[b.tokenId] + 60.0 + 5.0 * lag))
  }

  lemma HeldIsInTime(clock: real, revoked: map<TokenId, real>, g: Registry, k: GetTask, t: TaskId, lag: real)
    requires Timed(clock, revoked, g, k, t, lag) && TaskShape(k) && lag >= 0.0 && Holds(g, k, t) && k.bound
    requires g.bindings[k.session.value].tokenId == k.tokenId
    ensures InTimeOnceBound(clock, revoked, g.bindings[k.session.value], k, k.timedOut, lag)
  {
  }

  /**
   Main result, for any bound `lag` on how late a watchdog acts. A registered
   binding belongs to a handler that is bound or unwinding. While it is bound, the
   binding is guarded exactly as long as the watchdog has not given up waiting for
   the first frame. A promotion more than one lag before the timeout rules that out,
   one more than a lag after it comes too late, and none comes more than two lags
   after it; in between both can happen (`McpLimits.PromotionCanBeGuarded`,
   `McpLimits.PromotionCanBeUnguarded`). A binding whose watchdog has not given up is
   registered at most four lags beyond its deadline, or its promotion if that came
   later, and a minute and five lags beyond the revocation of its token; if it outstays
   these its handler began to unwind before.
   */
  lemma WatchdogIsInTime(ws: seq<World>, es: seq<Event>, lag: real, i: nat, s: SessionId)
    requires PunctualRun(ws, es, lag) && i < |ws| && s in ws[i].registry.bindings
    ensures var w := ws[i];
            var b := w.registry.bindings[s];
            && b.owner in w.tasks
            && InTimeOnceBound(w.clock, w.revoked, b, w.tasks[b.owner], GaveUp(es, b.owner, i), lag)
  {
    RunIsTimed(ws, es, lag, i);
    RunKeepsInv(ws, es, i);
    var w := ws[i];
    assert BindingOk(w, s);
    var t := w.registry.bindings[s].owner;
    TimedOutIff(ws, es, i, t);
    HeldIsInTime(w.clock, w.revoked, w.registry, w.tasks[t], t, lag);
  }

  /**
   A reservation whose handler has not begun to unwind is gone two lags after the
   watchdog's wait is over, which is later than its first-frame deadline by what
   the handler waited for admission.
   */
  lemma ReservationsAreInTime(ws: seq<World>, es: seq<Event>, lag: real, i: nat, n: Nonce)
    requires PunctualRun(ws, es, lag) && i < |ws| && n in ws[i].registry.reservations
    ensures var w := ws[i];
            var r := w.registry.reservations[n];
            && r.owner in w.tasks
            && var k := w.tasks[r.owner];
            && (InSdk(k.phase) || k.phase.Unwinding?)
            && (InSdk(k.phase) ==> w.clock <= r.firstFrameDeadline + (k.admittedAt - k.validatedAt) + 2.0 * lag)
  {
    RunIsTimed(ws, es, lag, i);
    RunKeepsInv(ws, es, i);
    var w := ws[i];
    var t := w.registry.reservations[n].owner;
    assert ReservationOk(w, n) && TaskShape(w.tasks[t]);
    assert Timed(w.clock, w.revoked, w.registry, w.tasks[t], t, lag);
  }
}
