/**
 The guard as a concurrent protocol. GET handlers, their watchdogs, POST
 handlers, tool-failure closes, disables and shutdowns interleave freely; one
 event is one section that runs without another registry section in between.
 Clock values that the source reads before it waits for the registry lock are
 kept as stamps, so a section may run later than the time it works with.
 */
module McpProtocol {
  import opened Wrappers
  import opened McpRegistry

  // ---- State ----

  /** A GET handler, from its validated token to the end of its task. */
  datatype Phase =
    | Accepted       // token validated, waiting for admission
    | Refused        // not admitted
    | Streaming      // holds a reservation, SDK running
    | Framed         // endpoint frame matched, waiting for the lock to promote
    | FrameRejected  // promotion refused
    | Bound          // promoted
    | Unwinding      // in its `finally`, watchdog cancelled, cleanup not yet run
    | Cleaned        // cleanup has run

  datatype Watchdog =
    | NotStarted
    | Waiting(timeoutAt: real)
    | TimedOut
    | Checking
    | Validating
    | Refreshing(stamp: real, expiresAt: Option<real>)
    | Detaching
    | Sleeping(until: real)
    | Stopped

  /**
   A GET handler and its watchdog. `stamp` is the clock value its next or last
   registry section works with; `admittedAt` and `promotedAt` are when those
   sections ran, `since` is when the watchdog last moved on or was cancelled,
   `checkedAt` when it last revalidated the token and `renewedExpiry` the expiry it
   was told then.
   */
  datatype GetTask = GetTask(
    tokenId: TokenId,
    expiresAt: Option<real>,
    validatedAt: real,
    nonce: Nonce,
    phase: Phase,
    session: Option<SessionId>,
    stamp: real,
    admittedAt: real,
    bound: bool,
    promotedAt: real,
    firstFrameDeadline: real,
    limit: real,
    watchdog: Watchdog,
    since: real,
    timedOut: bool,
    passes: nat,
    checkedAt: real,
    renewedExpiry: Option<real>)

  /** The enqueue gate admits one POST, disable or shutdown at a time; cancelling it frees the gate where it stands. */
  datatype Gate =
    | Free
    | PostEntered(post: nat, session: SessionId)
    | PostRevoked(session: SessionId, parsed: Option<TokenId>)
    | PostUnknown(session: SessionId)
    | PostValid(post: nat, session: SessionId, tokenId: TokenId, stamp: real)
    | Draining

  datatype Observation =
    | GetValidated(task: TaskId, tokenId: TokenId)
    | Opened(session: SessionId, task: TaskId, tokenId: TokenId, expiresAt: Option<real>, createdAt: real, limit: real)
    | PostBegan(post: nat)
    | PostValidated(post: nat, tokenId: TokenId)
    | Delivered(post: nat, session: SessionId, tokenId: TokenId, stamp: real, at: real, deadline: real)
    | Removed(sessions: set<SessionId>)
    | Switched(on: bool)

  /**
   The guard and its surroundings. The wall clock runs at a fixed `offset` from the
   monotonic `clock`; `drained` says whether the last disable got to empty the registry.
   */
  datatype World = World(
    clock: real,
    offset: real,
    enabled: bool,
    drained: bool,
    registry: Registry,
    tasks: map<TaskId, GetTask>,
    done: set<TaskId>,
    gate: Gate,
    nextPost: nat,
    revoked: map<TokenId, real>,
    cancels: multiset<TaskId>,
    released: set<TaskId>,
    usedNonces: set<Nonce>,
    minted: set<SessionId>,
    everBound: set<SessionId>,
    trace: seq<Observation>)

  predicate Init(w: World) {
    w == World(0.0, w.offset, w.enabled, true, EMPTY, map[], {}, Free, 0,
               map[], multiset{}, {}, {}, {}, {}, [Switched(w.enabled)])
  }

  function Wall(w: World): real { w.clock + w.offset }

  // ---- Events ----

  datatype PostVerdict = Valid(tokenId: TokenId) | RevokedOrExpired(parsed: Option<TokenId>) | Unauthorized | Unknown

  datatype GetEvent =
    | Accept(tokenId: TokenId, expiresAt: Option<real>)
    | Admit(nonce: Nonce)
    | Frame(session: SessionId)
    | Promote
    | Unwind
    | Cleanup
    | Finish

  datatype WatchEvent =
    | TimeOut
    | DropReservation
    | Wake
    | Check
    | Validate(valid: bool, expiresAt: Option<real>)
    | Refresh
    | Detach

  datatype GateEvent =
    | PostEnter(session: SessionId)
    | PostValidate(verdict: PostVerdict)
    | PostDetach
    | PostDecide
    | Disable
    | Shutdown
    | Drain
    | Enable
    | Abort

  datatype Event =
    | Tick(dt: real)
    | RevokeToken(tokenId: TokenId)
    | Get(task: TaskId, get: GetEvent)
    | Watch(task: TaskId, watch: WatchEvent)
    | ToolClose(task: TaskId, bySession: bool)
    | Gateway(gateway: GateEvent)

  predicate Unrevoked(w: World, tok: TokenId) { tok !in w.revoked }

  predicate InPhase(w: World, t: TaskId, p: Phase) { t in w.tasks && t !in w.done && w.tasks[t].phase == p }

  /** Between admission and the `finally` block: the SDK, or the handling of its frame, is running. */
  predicate InSdk(p: Phase) { p.Streaming? || p.Framed? || p.FrameRejected? || p.Bound? }

  predicate CanGet(w: World, t: TaskId, e: GetEvent) {
    match e
    case Accept(tok, _) => t !in w.tasks && w.enabled && Unrevoked(w, tok)
    case Admit(nonce) => InPhase(w, t, Accepted) && nonce !in w.usedNonces
    case Frame(s) => InPhase(w, t, Streaming) && s !in w.minted
    case Promote => InPhase(w, t, Framed)
    case Unwind => t in w.tasks && t !in w.done && InSdk(w.tasks[t].phase)
    case Cleanup => InPhase(w, t, Unwinding)
    case Finish => t in w.tasks && t !in w.done && !InSdk(w.tasks[t].phase)
  }

  predicate CanWatch(w: World, t: TaskId, e: WatchEvent) {
    && t in w.tasks
    && var k := w.tasks[t];
    match e
    case TimeOut => k.watchdog.Waiting? && w.clock >= k.watchdog.timeoutAt
    case DropReservation => k.watchdog.TimedOut?
    case Wake =>
      || (k.watchdog.Waiting? && k.phase == Bound)
      || (k.watchdog.Sleeping? && w.clock >= k.watchdog.until)
    case Check => k.watchdog.Checking?
    case Validate(valid, _) => k.watchdog.Validating? && (valid ==> Unrevoked(w, k.tokenId))
    case Refresh => k.watchdog.Refreshing?
    case Detach => k.watchdog.Detaching?
  }

  predicate CanGate(w: World, e: GateEvent) {
    match e
    case PostValidate(v) => w.gate.PostEntered? && (v.Valid? ==> Unrevoked(w, v.tokenId))
    case PostDetach => w.gate.PostRevoked? || w.gate.PostUnknown?
    case PostDecide => w.gate.PostValid?
    case Drain => w.gate.Draining?
    case Abort => !w.gate.Free?
    case _ => w.gate.Free?
  }

  /** When an event can happen. Nonces and session ids are freshly generated. */
  predicate CanStep(w: World, e: Event) {
    match e
    case Tick(dt) => dt >= 0.0
    case RevokeToken(tok) => Unrevoked(w, tok)
    case Get(t, g) => CanGet(w, t, g)
    case Watch(t, d) => CanWatch(w, t, d)
    case ToolClose(t, bySession) =>
      t in w.tasks && !w.tasks[t].watchdog.NotStarted? && (bySession ==> w.tasks[t].session.Some?)
    case Gateway(g) => CanGate(w, g)
  }

  // ---- Transitions ----

  /** Whether the locked section of `t` that admits or promotes it succeeds. */
  ghost predicate AdmitSucceeds(w: World, t: TaskId)
    requires t in w.tasks
  {
    Admits(Sweep(w.registry, w.tasks[t].stamp, w.done), w.enabled)
  }

  predicate PromoteSucceeds(w: World, t: TaskId)
    requires t in w.tasks
  {
    MayPromote(w.registry, w.tasks[t].nonce, t, w.tasks[t].stamp, w.enabled)
  }

  predicate HoldsOwnSession(w: World, t: TaskId)
    requires t in w.tasks
  {
    w.tasks[t].session.Some? && OwnsSession(w.registry, w.tasks[t].session.value, t)
  }

  /** The deadline of the handler's binding after a watchdog pass has revalidated the token. */
  function RefreshedDeadline(w: World, t: TaskId): real
    requires t in w.tasks && w.tasks[t].watchdog.Refreshing? && HoldsOwnSession(w, t)
  {
    var d := w.tasks[t].watchdog;
    Min(w.registry.bindings[w.tasks[t].session.value].deadline, TokenDeadline(d.expiresAt, Wall(w), d.stamp))
  }

  ghost function TaskAfterGet(w: World, t: TaskId, e: GetEvent): GetTask
    requires CanGet(w, t, e)
  {
    match e
    case Accept(tok, exp) =>
      GetTask(tok, exp, w.clock, "", Accepted, None, w.clock, w.clock, false, 0.0, 0.0, 0.0, NotStarted, w.clock,
              false, 0,
              w.clock, None)
    case Admit(nonce) =>
      var k := w.tasks[t];
      if AdmitSucceeds(w, t)
      then k.(nonce := nonce, phase := Streaming, firstFrameDeadline := k.stamp + FIRST_FRAME_TIMEOUT_SECONDS,
              admittedAt := w.clock, watchdog := Waiting(w.clock + FIRST_FRAME_TIMEOUT_SECONDS), since := w.clock)
      else k.(phase := Refused)
    case Frame(s) => w.tasks[t].(phase := Framed, session := Some(s), stamp := w.clock)
    case Promote =>
      var k := w.tasks[t];
      if PromoteSucceeds(w, t)
      then k.(phase := Bound, bound := true, promotedAt := w.clock,
              limit := TokenDeadline(k.expiresAt, Wall(w), k.stamp))
      else k.(phase := FrameRejected)
    case Unwind => w.tasks[t].(phase := Unwinding, watchdog := Stopped, since := w.clock)
    case Cleanup => w.tasks[t].(phase := Cleaned)
    case Finish => w.tasks[t]
  }

  ghost function TaskAfterWatch(w: World, t: TaskId, e: WatchEvent): GetTask
    requires CanWatch(w, t, e)
  {
    var k := w.tasks[t].(since := w.clock);
    match e
    case TimeOut => k.(watchdog := TimedOut, timedOut := true)
    case DropReservation => k.(watchdog := Stopped)
    case Wake => k.(watchdog := Checking)
    case Check =>
      k.(passes := k.passes + 1,
         watchdog := if !HoldsOwnSession(w, t) then Stopped
                     else if w.registry.bindings[k.session.value].deadline <= w.clock then Detaching
                     else Validating)
    case Validate(valid, exp) => k.(watchdog := if valid then Refreshing(w.clock, exp) else Detaching)
    case Refresh =>
      if !HoldsOwnSession(w, t) then k.(watchdog := Stopped)
      else
        var remaining := RefreshedDeadline(w, t) - k.watchdog.stamp;
        k.(checkedAt := k.watchdog.stamp, renewedExpiry := k.watchdog.expiresAt,
           watchdog := if remaining <= 0.0 then Detaching else Sleeping(w.clock + Min(WATCHDOG_SECONDS, remaining)))
    case Detach => k.(watchdog := Stopped)
  }

  ghost function NextTasks(w: World, e: Event): map<TaskId, GetTask>
    requires CanStep(w, e)
  {
    match e
    case Get(t, g) => w.tasks[t := TaskAfterGet(w, t, g)]
    case Watch(t, d) => w.tasks[t := TaskAfterWatch(w, t, d)]
    case _ => w.tasks
  }

  function DropOf(g: Registry, session: Option<SessionId>): Registry {
    if session.Some? then DropSession(g, session.value) else g
  }

  /** The binding that a promotion of `t` registers. */
  function PromotedBinding(w: World, t: TaskId): Binding
    requires t in w.tasks
  {
    var k := w.tasks[t];
    NewBinding(k.tokenId, t, TokenDeadline(k.expiresAt, Wall(w), k.stamp), k.stamp)
  }

  ghost function RegistryAfterGet(w: World, t: TaskId, e: GetEvent): Registry
    requires CanGet(w, t, e)
  {
    match e
    case Admit(nonce) =>
      var g := Sweep(w.registry, w.tasks[t].stamp, w.done);
      if AdmitSucceeds(w, t) then Reserve(g, nonce, t, w.tasks[t].stamp) else g
    case Promote =>
      var k := w.tasks[t];
      if PromoteSucceeds(w, t) && k.session.Some?
      then McpRegistry.Promote(w.registry, k.nonce, k.session.value, PromotedBinding(w, t))
      else w.registry
    case Cleanup => Release(w.registry, w.tasks[t].nonce, w.tasks[t].session, t)
    case _ => w.registry
  }

  ghost function RegistryAfterWatch(w: World, t: TaskId, e: WatchEvent): Registry
    requires CanWatch(w, t, e)
  {
    var k := w.tasks[t];
    match e
    case DropReservation => McpRegistry.DropReservation(w.registry, k.nonce)
    case Refresh =>
      if HoldsOwnSession(w, t)
      then McpRegistry.Refresh(w.registry, k.session.value, k.watchdog.expiresAt, Wall(w), k.watchdog.stamp)
      else w.registry
    case Detach => DropOf(w.registry, k.session)
    case _ => w.registry
  }

  predicate DecideSucceeds(w: World)
    requires w.gate.PostValid?
  {
    MayEnqueue(Sweep(w.registry, w.gate.stamp, w.done), w.gate.session, w.gate.tokenId, w.gate.stamp, w.enabled)
  }

  ghost function RegistryAfterGate(w: World, e: GateEvent): Registry
    requires CanGate(w, e)
  {
    match e
    case PostDetach =>
      if w.gate.PostUnknown? then DropSession(w.registry, w.gate.session)
      else if w.gate.parsed.Some? && HasToken(w.registry, w.gate.session, w.gate.parsed.value)
      then DropSession(w.registry, w.gate.session)
      else w.registry
    case PostDecide =>
      var g := Sweep(w.registry, w.gate.stamp, w.done);
      if DecideSucceeds(w) then Touch(g, w.gate.session, w.gate.stamp) else g
    case Drain => EMPTY
    case _ => w.registry
  }

  ghost function NextRegistry(w: World, e: Event): Registry
    requires CanStep(w, e)
  {
    match e
    case Get(t, g) => RegistryAfterGet(w, t, g)
    case Watch(t, d) => RegistryAfterWatch(w, t, d)
    case Gateway(g) => RegistryAfterGate(w, g)
    case ToolClose(t, bySession) =>
      if bySession then DropOf(w.registry, w.tasks[t].session)
      else McpRegistry.DropReservation(w.registry, w.tasks[t].nonce)
    case _ => w.registry
  }

  /** Evicted tasks are cancelled, except finished ones in a sweep and the one that cleans up after itself. */
  function Spared(w: World, e: Event): set<TaskId> {
    match e
    case Get(t, g) => if g.Cleanup? then {t} else w.done
    case Gateway(g) => if g.PostDecide? then w.done else {}
    case _ => {}
  }

  function NextGate(w: World, e: GateEvent): Gate
    requires CanGate(w, e)
  {
    match e
    case PostEnter(s) => if w.enabled then PostEntered(w.nextPost, s) else Free
    case PostValidate(v) =>
      (match v
       case Valid(tok) => PostValid(w.gate.post, w.gate.session, tok, w.clock)
       case RevokedOrExpired(parsed) => PostRevoked(w.gate.session, parsed)
       case Unauthorized => Free
       case Unknown => PostUnknown(w.gate.session))
    case Disable => Draining
    case Shutdown => Draining
    case _ => Free
  }

  /** What an observer of the guard learns from the event, besides the sessions that left the registry. */
  ghost function Notes(w: World, e: Event): seq<Observation>
    requires CanStep(w, e)
  {
    match e
    case Get(t, Accept(tok, _)) => [GetValidated(t, tok)]
    case Get(t, Promote) =>
      var k := w.tasks[t];
      if PromoteSucceeds(w, t) && k.session.Some?
      then [Opened(k.session.value, t, k.tokenId, k.expiresAt, k.stamp, TokenDeadline(k.expiresAt, Wall(w), k.stamp))]
      else []
    case Gateway(PostEnter(_)) => if w.enabled then [PostBegan(w.nextPost)] else []
    case Gateway(PostValidate(Valid(tok))) => [PostValidated(w.gate.post, tok)]
    case Gateway(PostDecide) =>
      var g := Sweep(w.registry, w.gate.stamp, w.done);
      if DecideSucceeds(w)
      then [Delivered(w.gate.post, w.gate.session, w.gate.tokenId, w.gate.stamp, w.clock,
                      g.bindings[w.gate.session].deadline)]
      else []
    case Gateway(Disable) => [Switched(false)]
    case Gateway(Enable) => [Switched(true)]
    case _ => []
  }

  ghost function Step(w: World, e: Event): World
    requires CanStep(w, e)
  {
    var g := NextRegistry(w, e);
    var evicted := Evicted(w.registry, g);
    World(
      if e.Tick? then w.clock + e.dt else w.clock,
      w.offset,
      if e.Gateway? && e.gateway.Disable? then false else if e.Gateway? && e.gateway.Enable? then true else w.enabled,
      if e.Gateway? && e.gateway.Disable? then false else if e.Gateway? && e.gateway.Drain? then true else w.drained,
      g,
      NextTasks(w, e),
      if e.Get? && e.get.Finish? then w.done + {e.task} else w.done,
      if e.Gateway? then NextGate(w, e.gateway) else w.gate,
      if e.Gateway? && e.gateway.PostEnter? then w.nextPost + 1 else w.nextPost,
      if e.RevokeToken? then w.revoked[e.tokenId := w.clock] else w.revoked,
      w.cancels + multiset(evicted - Spared(w, e)),
      w.released + evicted * Spared(w, e),
      if e.Get? && e.get.Admit? then w.usedNonces + {e.get.nonce} else w.usedNonces,
      if e.Get? && e.get.Frame? then w.minted + {e.get.session} else w.minted,
      w.everBound + g.bindings.Keys,
      w.trace + [Removed(w.registry.bindings.Keys - g.bindings.Keys)] + Notes(w, e))
  }

  // ---- Runs ----

  /** `ws` are the worlds along a run of the events `es`. */
  ghost predicate Run(ws: seq<World>, es: seq<Event>) {
    && |ws| == |es| + 1
    && Init(ws[0])
    && forall i :: 0 <= i < |es| ==> CanStep(ws[i], es[i]) && ws[i + 1] == Step(ws[i], es[i])
  }
}
