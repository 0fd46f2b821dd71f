/** Runs that show where the guard's time bounds stop. */
module McpLimits {
  import opened Wrappers
  import opened McpRegistry
  import opened McpProtocol
  import opened McpDelivery
  import opened McpPunctual

  /** The parts of a world that decide what can happen next. */
  datatype Core = Core(clock: real, registry: Registry, k: GetTask, gate: Gate, minted: set<SessionId>)

  /** One GET task, number 0, in an enabled guard where nothing has been revoked. */
  ghost predicate At(w: World, c: Core) {
    && w.clock == c.clock && w.offset == 0.0 && w.enabled && w.registry == c.registry && w.gate == c.gate
    && w.tasks == map[0 := c.k] && w.done == {} && w.minted == c.minted && "tok" !in w.revoked
  }

  const ACCEPTED :=
    GetTask("tok", None, 0.0, "", Accepted, None, 0.0, 0.0, false, 0.0, 0.0, 0.0, NotStarted, 0.0, false, 0, 0.0, None)
  const STREAMING :=
    GetTask("tok", None, 0.0, "n", Streaming, None, 0.0, 0.0, false, 0.0, 10.0, 0.0, Waiting(10.0),
            0.0, false, 0, 0.0, None)
  const RESERVED := Registry(map["n" := Reservation("n", 0, 0.0, 10.0)], map[])

  ghost function OneBinding(createdAt: real): Registry { BindingUntil(createdAt, createdAt + MAX_BINDING_SECONDS) }

  ghost function BindingUntil(createdAt: real, deadline: real): Registry {
    Registry(map[], map["s" := NewBinding("tok", 0, deadline, createdAt)])
  }

  /** The task once it has been promoted `at` that time, with a frame that arrived at `stamp`. */
  function BoundTask(k: GetTask, stamp: real, at: real): GetTask {
    k.(phase := Bound, session := Some("s"), stamp := stamp, bound := true, promotedAt := at,
       limit := stamp + MAX_BINDING_SECONDS)
  }

  function Framing(k: GetTask, stamp: real): GetTask { k.(phase := Framed, session := Some("s"), stamp := stamp) }

  function START(): World {
    World(0.0, 0.0, true, true, EMPTY, map[], {}, Free, 0, map[], multiset{}, {}, {}, {}, {}, [Switched(true)])
  }

  lemma Extend(ws: seq<World>, es: seq<Event>, e: Event, lag: real := 0.0)
    returns (ws': seq<World>, es': seq<Event>)
    requires Run(ws, es) && CanStep(ws[|es|], e)
    ensures ws' == ws + [Step(ws[|es|], e)] && es' == es + [e] && Run(ws', es')
    ensures PunctualRun(ws, es, lag) && PunctualStep(ws[|es|], e, lag) ==> PunctualRun(ws', es', lag)
  {
    var w' := Step(ws[|es|], e);
    ws', es' := ws + [w'], es + [e];
    ExtendedRun(ws, es, e, w', lag);
  }

  lemma ExtendedRun(ws: seq<World>, es: seq<Event>, e: Event, w': World, lag: real)
    requires Run(ws, es) && CanStep(ws[|es|], e) && w' == Step(ws[|es|], e)
    ensures Run(ws + [w'], es + [e])
    ensures PunctualRun(ws, es, lag) && PunctualStep(ws[|es|], e, lag) ==> PunctualRun(ws + [w'], es + [e], lag)
  {
    var ws', es' := ws + [w'], es + [e];
    forall i | 0 <= i < |es'|
      ensures CanStep(ws'[i], es'[i]) && ws'[i + 1] == Step(ws'[i], es'[i])
      ensures PunctualRun(ws, es, lag) && PunctualStep(ws[|es|], e, lag) ==> PunctualStep(ws'[i], es'[i], lag)
    {
      if i < |es| {
        assert ws'[i] == ws[i] && es'[i] == es[i] && ws'[i + 1] == ws[i + 1];
      }
    }
  }

  /** One event more, of which only the punctual run and the core that it ends in matter from here on. */
  lemma Then(ws: seq<World>, es: seq<Event>, e: Event, lag: real, c: Core) returns (ws': seq<World>, es': seq<Event>)
    requires PunctualRun(ws, es, lag) && CanStep(ws[|es|], e) && PunctualStep(ws[|es|], e, lag)
    requires At(Step(ws[|es|], e), c)
    ensures PunctualRun(ws', es', lag) && At(ws'[|es'|], c)
    ensures e != Gateway(PostDecide) && Gateway(PostDecide) !in es ==> Gateway(PostDecide) !in es'
  {
    ws', es' := Extend(ws, es, e, lag);
  }

  /** A run without any lag is punctual for every lag. */
  lemma MoreLag(ws: seq<World>, es: seq<Event>, lag: real)
    requires PunctualRun(ws, es, 0.0) && lag >= 0.0
    ensures PunctualRun(ws, es, lag)
  {
    forall i | 0 <= i < |es|
      ensures PunctualStep(ws[i], es[i], lag)
    {
      assert PunctualStep(ws[i], es[i], 0.0);
    }
  }

  lemma AcceptStep(w: World, expiresAt: Option<real>)
    requires w == START()
    ensures CanStep(w, Get(0, Accept("tok", expiresAt)))
    ensures var w' := Step(w, Get(0, Accept("tok", expiresAt)));
            At(w', Core(0.0, EMPTY, ACCEPTED.(expiresAt := expiresAt), Free, {}))
            && w'.usedNonces == {}
  {
  }

  lemma AdmitStep(w: World, expiresAt: Option<real>)
    requires At(w, Core(0.0, EMPTY, ACCEPTED.(expiresAt := expiresAt), Free, {}))
    requires w.usedNonces == {}
    ensures CanStep(w, Get(0, Admit("n")))
    ensures At(Step(w, Get(0, Admit("n"))), Core(0.0, RESERVED, STREAMING.(expiresAt := expiresAt), Free, {}))
  {
    EmptyAdmits(w, expiresAt);
  }

  lemma EmptyAdmits(w: World, expiresAt: Option<real>)
    requires At(w, Core(0.0, EMPTY, ACCEPTED.(expiresAt := expiresAt), Free, {}))
    ensures AdmitSucceeds(w, 0) && Sweep(w.registry, 0.0, w.done) == EMPTY
    ensures Reserve(EMPTY, "n", 0, 0.0) == RESERVED
  {
    var g := Sweep(EMPTY, 0.0, {});
    assert g.reservations == map[] && g.bindings == map[];
  }

  lemma TickStep(w: World, c: Core, dt: real)
    requires At(w, c) && dt >= 0.0
    ensures CanStep(w, Tick(dt)) && At(Step(w, Tick(dt)), c.(clock := c.clock + dt))
    ensures forall lag :: LetsTimePassTo(c.k, c.clock + dt, lag) ==> PunctualStep(w, Tick(dt), lag)
  {
  }

  lemma FrameStep(w: World, c: Core)
    requires At(w, c) && c.k.phase.Streaming? && c.minted == {}
    ensures CanStep(w, Get(0, Frame("s")))
    ensures At(Step(w, Get(0, Frame("s"))), c.(k := Framing(c.k, c.clock), minted := {"s"}))
  {
  }

  lemma PromoteStep(w: World, c: Core, k: GetTask, stamp: real)
    requires At(w, c) && c.registry == RESERVED && c.k == Framing(k, stamp) && stamp <= 10.0
    requires k.tokenId == "tok" && k.expiresAt == None && k.nonce == "n"
    ensures CanStep(w, Get(0, Promote))
    ensures At(Step(w, Get(0, Promote)), c.(registry := OneBinding(stamp), k := BoundTask(k, stamp, c.clock)))
  {
    assert RegistryAfterGet(w, 0, Promote) == OneBinding(stamp);
  }

  lemma PostEnters(ws: seq<World>, es: seq<Event>, c: Core)
    returns (ws': seq<World>, es': seq<Event>, p: nat)
    requires Run(ws, es) && At(ws[|es|], c) && c.gate == Free
    ensures Run(ws', es') && es' == es + [Gateway(PostEnter("s"))]
    ensures At(ws'[|es'|], c.(gate := PostEntered(p, "s")))
  {
    PostEnterStep(ws[|es|], c);
    p := ws[|es|].nextPost;
    ws', es' := Extend(ws, es, Gateway(PostEnter("s")));
  }

  lemma PostValidates(ws: seq<World>, es: seq<Event>, c: Core, p: nat)
    returns (ws': seq<World>, es': seq<Event>)
    requires Run(ws, es) && At(ws[|es|], c.(gate := PostEntered(p, "s")))
    ensures Run(ws', es') && es' == es + [Gateway(PostValidate(Valid("tok")))]
    ensures At(ws'[|es'|], c.(gate := PostValid(p, "s", "tok", c.clock)))
  {
    PostValidateStep(ws[|es|], c, p);
    ws', es' := Extend(ws, es, Gateway(PostValidate(Valid("tok"))));
  }

  lemma BindThenWait(wait: real) returns (ws: seq<World>, es: seq<Event>)
    requires 0.0 <= wait
    ensures Run(ws, es) && Gateway(PostDecide) !in es
    ensures At(ws[|es|], Core(wait, OneBinding(0.0), BoundTask(STREAMING, 0.0, 0.0), Free, {"s"}))
  {
    ws, es := Bind(0.0);
    var c := Core(0.0, OneBinding(0.0), BoundTask(STREAMING, 0.0, 0.0), Free, {"s"});
    MoreLag(ws, es, wait + 10.0);
    TickStep(ws[|es|], c, wait);
    ws, es := Then(ws, es, Tick(wait), wait + 10.0, c.(clock := wait));
  }

  /** The run in which a POST for session "s" has read the clock at `stamp` and waits for the registry lock. */
  lemma PostAt(stamp: real) returns (ws: seq<World>, es: seq<Event>, p: nat)
    requires 0.0 <= stamp
    ensures Run(ws, es) && Gateway(PostDecide) !in es
    ensures At(ws[|es|], Core(stamp, OneBinding(0.0), BoundTask(STREAMING, 0.0, 0.0),
                              PostValid(p, "s", "tok", stamp), {"s"}))
  {
    ws, es := BindThenWait(stamp);
    var c := Core(stamp, OneBinding(0.0), BoundTask(STREAMING, 0.0, 0.0), Free, {"s"});
    ws, es, p := PostEnters(ws, es, c);
    ws, es := PostValidates(ws, es, c, p);
  }

  /** Only the last event is a decision, so only its wait matters. */
  lemma LastDecision(ws: seq<World>, es: seq<Event>, ws': seq<World>, es': seq<Event>, w': World, wait: real)
    requires Run(ws, es) && Gateway(PostDecide) !in es
    requires ws[|es|].gate.PostValid? && ws[|es|].clock <= ws[|es|].gate.stamp + wait
    requires Run(ws', es') && ws' == ws + [w'] && es' == es + [Gateway(PostDecide)]
    ensures PromptDecisions(ws', es', wait)
  {
    assert forall k :: 0 <= k < |es| ==> es'[k] != Gateway(PostDecide);
    forall i | 0 <= i < |es'| && es'[i] == Gateway(PostDecide)
      ensures ws'[i].clock <= ws'[i].gate.stamp + wait
    {
      assert i == |es| && ws'[i] == ws[i];
    }
  }

  /** The run in which a POST enters at the present clock value, is validated and has to wait for the lock. */
  lemma PostArrives(ws: seq<World>, es: seq<Event>, c: Core) returns (ws': seq<World>, es': seq<Event>, p: nat)
    requires Run(ws, es) && At(ws[|es|], c) && c.gate == Free
    ensures Run(ws', es') && At(ws'[|es'|], c.(gate := PostValid(p, "s", "tok", c.clock)))
  {
    ws', es', p := PostEnters(ws, es, c);
    ws', es' := PostValidates(ws', es', c, p);
  }

  /** The run that opens session "s" with a token that expires `life` seconds later, and then lets time pass. */
  lemma OpenExpiring(life: real, stamp: real) returns (ws: seq<World>, es: seq<Event>)
    requires 0.0 < life <= 3600.0 && 0.0 <= stamp
    ensures Run(ws, es)
    ensures At(ws[|es|], Core(stamp, BindingUntil(0.0, life), ExpiringTask(life), Free, {"s"}))
  {
    ws, es := Reach(Some(life));
    var k := STREAMING.(expiresAt := Some(life));
    var c := Core(0.0, RESERVED, k, Free, {});
    MoreLag(ws, es, stamp);
    FrameStep(ws[|es|], c);
    c := c.(k := Framing(k, 0.0), minted := {"s"});
    ws, es := Then(ws, es, Get(0, Frame("s")), stamp, c);
    PromoteExpiringStep(ws[|es|], c, k, life);
    c := Core(0.0, BindingUntil(0.0, life), ExpiringTask(life), Free, {"s"});
    ws, es := Then(ws, es, Get(0, Promote), stamp, c);
    TickStep(ws[|es|], c, stamp);
    ws, es := Then(ws, es, Tick(stamp), stamp, c.(clock := stamp));
  }

  function ExpiringTask(life: real): GetTask {
    BoundTask(STREAMING.(expiresAt := Some(life)), 0.0, 0.0).(limit := life)
  }

  lemma PromoteExpiringStep(w: World, c: Core, k: GetTask, life: real)
    requires At(w, c) && c.clock == 0.0 && c.registry == RESERVED && c.k == Framing(k, 0.0)
    requires k == STREAMING.(expiresAt := Some(life)) && 0.0 < life <= 3600.0
    ensures CanStep(w, Get(0, Promote))
    ensures At(Step(w, Get(0, Promote)), c.(registry := BindingUntil(0.0, life), k := ExpiringTask(life)))
  {
    assert RegistryAfterGet(w, 0, Promote) == BindingUntil(0.0, life);
  }

  /** A session opened with a token that expires within the hour takes POSTs up to that expiry. */
  lemma DeliveryBeforeExpiry(life: real, stamp: real) returns (ws: seq<World>, es: seq<Event>)
    requires 0.0 <= stamp < life <= 3600.0
    ensures Run(ws, es)
    ensures var w := ws[|es|];
            && 0 in w.tasks && w.tasks[0].expiresAt == Some(life) && w.offset == 0.0
            && w.trace != []
            && var o := w.trace[|w.trace| - 1];
            o.Delivered? && o.session == "s" && o.stamp == stamp && o.deadline == life
  {
    ws, es := OpenExpiring(life, stamp);
    var p := 0;
    var c := Core(stamp, BindingUntil(0.0, life), ExpiringTask(life), Free, {"s"});
    ws, es, p := PostArrives(ws, es, c);
    PostDecideStep(ws[|es|], c.(gate := PostValid(p, "s", "tok", stamp)), life);
    DecideKeepsTask(ws[|es|]);
    ws, es := Extend(ws, es, Gateway(PostDecide));
  }

  lemma DecideKeepsTask(w: World)
    requires CanStep(w, Gateway(PostDecide))
    ensures var w' := Step(w, Gateway(PostDecide)); w'.tasks == w.tasks && w'.offset == w.offset
  {
  }

  /**
   However short the wait for the registry lock, a POST that had no more than that
   left of its session's lifetime when it read the clock is delivered too late.
   */
  lemma LateDelivery(wait: real) returns (ws: seq<World>, es: seq<Event>)
    requires 0.0 < wait <= MAX_BINDING_SECONDS
    ensures Run(ws, es) && PromptDecisions(ws, es, wait)
    ensures var w := ws[|es|];
            && w.trace != []
            && var o := w.trace[|w.trace| - 1];
            o.Delivered? && o.deadline - o.stamp == wait && o.at == o.deadline
  {
    var stamp, p := MAX_BINDING_SECONDS - wait, 0;
    ws, es, p := PostAt(stamp);
    var c := Core(stamp, OneBinding(0.0), BoundTask(STREAMING, 0.0, 0.0), PostValid(p, "s", "tok", stamp), {"s"});
    TickStep(ws[|es|], c, wait);
    ws, es := Extend(ws, es, Tick(wait));
    PostDecideStep(ws[|es|], c.(clock := MAX_BINDING_SECONDS), MAX_BINDING_SECONDS);
    var ws', es' := Extend(ws, es, Gateway(PostDecide));
    LastDecision(ws, es, ws', es', Step(ws[|es|], Gateway(PostDecide)), wait);
    ws, es := ws', es';
  }

  lemma PostEnterStep(w: World, c: Core)
    requires At(w, c) && c.gate == Free
    ensures CanStep(w, Gateway(PostEnter("s")))
    ensures At(Step(w, Gateway(PostEnter("s"))), c.(gate := PostEntered(w.nextPost, "s")))
  {
  }

  lemma PostValidateStep(w: World, c: Core, p: nat)
    requires At(w, c.(gate := PostEntered(p, "s")))
    ensures CanStep(w, Gateway(PostValidate(Valid("tok"))))
    ensures At(Step(w, Gateway(PostValidate(Valid("tok")))), c.(gate := PostValid(p, "s", "tok", c.clock)))
  {
  }

  lemma PostDecideStep(w: World, c: Core, deadline: real)
    requires At(w, c) && c.registry == BindingUntil(0.0, deadline) && c.gate.PostValid?
    requires c.gate.session == "s" && c.gate.tokenId == "tok" && c.gate.stamp < deadline
    ensures CanStep(w, Gateway(PostDecide))
    ensures var tr := Step(w, Gateway(PostDecide)).trace;
            && tr != []
            && tr[|tr| - 1] == Delivered(c.gate.post, "s", "tok", c.gate.stamp, c.clock, deadline)
  {
    assert Sweep(w.registry, c.gate.stamp, {}) == w.registry;
    assert DecideSucceeds(w);
  }

  lemma ReachAccepted(expiresAt: Option<real>) returns (ws: seq<World>, es: seq<Event>)
    ensures PunctualRun(ws, es, 0.0) && ws[|es|].usedNonces == {}
    ensures At(ws[|es|], Core(0.0, EMPTY, ACCEPTED.(expiresAt := expiresAt), Free, {}))
    ensures Gateway(PostDecide) !in es
  {
    AcceptStep(START(), expiresAt);
    ws, es := Extend([START()], [], Get(0, Accept("tok", expiresAt)));
  }

  lemma Reach(expiresAt: Option<real> := None) returns (ws: seq<World>, es: seq<Event>)
    ensures PunctualRun(ws, es, 0.0)
    ensures At(ws[|es|], Core(0.0, RESERVED, STREAMING.(expiresAt := expiresAt), Free, {}))
    ensures Gateway(PostDecide) !in es
  {
    ws, es := ReachAccepted(expiresAt);
    AdmitStep(ws[|es|], expiresAt);
    ws, es := Extend(ws, es, Get(0, Admit("n")));
  }

  /** The run in which the endpoint frame for session "s" arrives at the given time after admission. */
  lemma FrameArrives(at: real) returns (ws: seq<World>, es: seq<Event>)
    requires 0.0 <= at <= 10.0
    ensures PunctualRun(ws, es, 0.0) && At(ws[|es|], Core(at, RESERVED, Framing(STREAMING, at), Free, {"s"}))
    ensures Gateway(PostDecide) !in es
  {
    ws, es := Reach();
    var c := Core(0.0, RESERVED, STREAMING, Free, {});
    TickStep(ws[|es|], c, at);
    c := c.(clock := at);
    ws, es := Then(ws, es, Tick(at), 0.0, c);
    FrameStep(ws[|es|], c);
    ws, es := Then(ws, es, Get(0, Frame("s")), 0.0, c.(k := Framing(STREAMING, at), minted := {"s"}));
  }

  /** The run that opens session "s" at the given time after admission, with nothing happening in between. */
  lemma Bind(at: real) returns (ws: seq<World>, es: seq<Event>)
    requires 0.0 <= at <= 10.0
    ensures PunctualRun(ws, es, 0.0)
    ensures At(ws[|es|], Core(at, OneBinding(at), BoundTask(STREAMING, at, at), Free, {"s"}))
    ensures Gateway(PostDecide) !in es
  {
    ws, es := FrameArrives(at);
    var c := Core(at, RESERVED, Framing(STREAMING, at), Free, {"s"});
    PromoteStep(ws[|es|], c, STREAMING, at);
    ws, es := Then(ws, es, Get(0, Promote), 0.0, c.(registry := OneBinding(at), k := BoundTask(STREAMING, at, at)));
  }

  /** The run in which the endpoint frame arrives at `stamp` and then waits for the registry lock. */
  lemma FrameWaits(stamp: real, at: real, lag: real) returns (ws: seq<World>, es: seq<Event>)
    requires 0.0 <= stamp <= 10.0 && stamp <= at <= 10.0 + lag && lag >= 0.0
    ensures PunctualRun(ws, es, lag) && At(ws[|es|], Core(at, RESERVED, Framing(STREAMING, stamp), Free, {"s"}))
  {
    ws, es := FrameArrives(stamp);
    MoreLag(ws, es, lag);
    var c := Core(stamp, RESERVED, Framing(STREAMING, stamp), Free, {"s"});
    TickStep(ws[|es|], c, at - stamp);
    ws, es := Then(ws, es, Tick(at - stamp), lag, c.(clock := at));
  }

  /**
   A frame that arrives in time can wait for the lock until the watchdog has given
   up. Its promotion runs first, the late detach finds no reservation, and the
   binding has no watchdog: it outlives both its deadline and its revocation.
   */
  lemma UnguardedBinding() returns (ws: seq<World>, es: seq<Event>)
    ensures PunctualRun(ws, es, 0.0)
    ensures var w := ws[|es|];
            && "s" in w.registry.bindings && 0 in w.tasks && w.tasks[0].phase.Bound?
            && var b := w.registry.bindings["s"];
            && b.owner == 0 && b.createdAt < w.tasks[0].firstFrameDeadline
            && b.deadline < w.clock
            && b.tokenId in w.revoked && w.revoked[b.tokenId] + 60.0 * WATCHDOG_SECONDS < w.clock
  {
    ws, es := TimeOutThenPromote(0.0, 9.0, 10.0, 10.0);
    var c := Core(10.0, OneBinding(9.0), BoundTask(GIVEN_UP.(since := 10.0), 9.0, 10.0), Free, {"s"});
    ws, es := StaysUnguarded(ws, es, c, 0.0, 0.0);
    ws, es := RevokeThenWait(ws, es, c.(k := c.k.(watchdog := Stopped)));
  }

  // ---- Promotions around the first-frame timeout ----

  /** However the lag is bounded, a promotion up to one lag after the timeout can still be guarded. */
  lemma PromotionCanBeGuarded(lag: real, at: real) returns (ws: seq<World>, es: seq<Event>)
    requires 0.0 <= at <= FIRST_FRAME_TIMEOUT_SECONDS + lag && lag >= 0.0
    ensures PunctualRun(ws, es, lag)
    ensures var w := ws[|es|];
            && "s" in w.registry.bindings && w.registry.bindings["s"].owner == 0 && 0 in w.tasks
            && w.tasks[0].phase.Bound? && w.tasks[0].promotedAt == at
            && TimeoutAt(w.tasks[0]) == FIRST_FRAME_TIMEOUT_SECONDS && Guarding(w.tasks[0])
  {
    var stamp := Min(at, 10.0);
    ws, es := FrameWaits(stamp, at, lag);
    PromoteStep(ws[|es|], Core(at, RESERVED, Framing(STREAMING, stamp), Free, {"s"}), STREAMING, stamp);
    var c := Core(at, OneBinding(stamp), BoundTask(STREAMING, stamp, at), Free, {"s"});
    ws, es := Then(ws, es, Get(0, Promote), lag, c);
    WakeStep(ws[|es|], c);
    ws, es := Then(ws, es, Watch(0, Wake), lag, c.(k := c.k.(watchdog := Checking, since := at)));
  }

  const GIVEN_UP := STREAMING.(watchdog := TimedOut, timedOut := true)

  /** The watchdog's timer fires although the promotion has run. */
  lemma PromoteThenTimeOut(lag: real, at: real) returns (ws: seq<World>, es: seq<Event>)
    requires 0.0 <= at <= 10.0 <= at + lag
    ensures PunctualRun(ws, es, lag)
    ensures At(ws[|es|], Core(10.0, OneBinding(at), BoundTask(GIVEN_UP.(since := 10.0), at, at), Free, {"s"}))
  {
    ws, es := Bind(at);
    MoreLag(ws, es, lag);
    var c := Core(at, OneBinding(at), BoundTask(STREAMING, at, at), Free, {"s"});
    TickStep(ws[|es|], c, 10.0 - at);
    c := c.(clock := 10.0);
    ws, es := Then(ws, es, Tick(10.0 - at), lag, c);
    TimeOutStep(ws[|es|], c);
    ws, es := Then(ws, es, Watch(0, TimeOut), lag, c.(k := BoundTask(GIVEN_UP.(since := 10.0), at, at)));
  }

  /** The promotion runs after the timer has fired and before the reservation is dropped. */
  lemma TimeOutThenPromote(lag: real, stamp: real, out: real, at: real) returns (ws: seq<World>, es: seq<Event>)
    requires 0.0 <= stamp <= 10.0 <= out <= 10.0 + lag && out <= at <= out + lag
    ensures PunctualRun(ws, es, lag)
    ensures At(ws[|es|], Core(at, OneBinding(stamp), BoundTask(GIVEN_UP.(since := out), stamp, at), Free, {"s"}))
  {
    ws, es := FrameWaits(stamp, out, lag);
    var late, c := GIVEN_UP.(since := out), Core(out, RESERVED, Framing(STREAMING, stamp), Free, {"s"});
    TimeOutStep(ws[|es|], c);
    c := c.(k := Framing(late, stamp));
    ws, es := Then(ws, es, Watch(0, TimeOut), lag, c);
    TickStep(ws[|es|], c, at - out);
    c := c.(clock := at);
    ws, es := Then(ws, es, Tick(at - out), lag, c);
    PromoteStep(ws[|es|], c, late, stamp);
    ws, es := Then(ws, es, Get(0, Promote), lag, c.(registry := OneBinding(stamp), k := BoundTask(late, stamp, at)));
  }

  /** A binding whose watchdog has given up stays for as long as nothing else happens. */
  lemma StaysUnguarded(ws: seq<World>, es: seq<Event>, c: Core, lag: real, wait: real)
    returns (ws': seq<World>, es': seq<Event>)
    requires PunctualRun(ws, es, lag) && At(ws[|es|], c) && c.k.watchdog.TimedOut? && wait >= 0.0
    requires c.registry.reservations == map[]
    ensures PunctualRun(ws', es', lag)
    ensures At(ws'[|es'|], c.(clock := c.clock + wait, k := c.k.(watchdog := Stopped, since := c.clock)))
  {
    DropStep(ws[|es|], c);
    var stopped := c.(k := c.k.(watchdog := Stopped, since := c.clock));
    ws', es' := Then(ws, es, Watch(0, WatchEvent.DropReservation), lag, stopped);
    TickStep(ws'[|es'|], stopped, wait);
    ws', es' := Then(ws', es', Tick(wait), lag, stopped.(clock := c.clock + wait));
  }

  /**
   However the lag is bounded, a promotion from one lag before the timeout to two
   lags after it can be unguarded, and the binding then stays for any time.
   */
  lemma PromotionCanBeUnguarded(lag: real, at: real, wait: real) returns (ws: seq<World>, es: seq<Event>)
    requires 0.0 <= at && wait >= 0.0 && lag >= 0.0
    requires FIRST_FRAME_TIMEOUT_SECONDS - lag <= at <= FIRST_FRAME_TIMEOUT_SECONDS + 2.0 * lag
    ensures PunctualRun(ws, es, lag)
    ensures var w := ws[|es|];
            && "s" in w.registry.bindings && w.registry.bindings["s"].owner == 0 && 0 in w.tasks
            && w.tasks[0].phase.Bound? && w.tasks[0].promotedAt == at
            && TimeoutAt(w.tasks[0]) == FIRST_FRAME_TIMEOUT_SECONDS && !Guarding(w.tasks[0])
            && w.clock >= at + wait
  {
    if at <= 10.0 {
      ws, es := PromoteThenTimeOut(lag, at);
      var c := Core(10.0, OneBinding(at), BoundTask(GIVEN_UP.(since := 10.0), at, at), Free, {"s"});
      ws, es := StaysUnguarded(ws, es, c, lag, wait);
    } else {
      var out := Max(10.0, at - lag);
      ws, es := TimeOutThenPromote(lag, 10.0, out, at);
      var c := Core(at, OneBinding(10.0), BoundTask(GIVEN_UP.(since := out), 10.0, at), Free, {"s"});
      ws, es := StaysUnguarded(ws, es, c, lag, wait);
    }
  }

  lemma WakeStep(w: World, c: Core)
    requires At(w, c) && c.k.watchdog.Waiting? && c.k.phase.Bound?
    ensures CanStep(w, Watch(0, Wake))
    ensures At(Step(w, Watch(0, Wake)), c.(k := c.k.(watchdog := Checking, since := c.clock)))
  {
  }

  // ---- Interrupted sections ----

  /**
   A disable that is cancelled while it waits for the registry lock has switched
   connectivity off and leaves the sessions that were open in the registry.
   */
  lemma AbortedDisable() returns (ws: seq<World>, es: seq<Event>)
    ensures Run(ws, es) && es != [] && es[|es| - 1] == Gateway(Abort)
    ensures var w := ws[|es|];
            !w.enabled && w.gate.Free? && "s" in w.registry.bindings && w.clock < w.registry.bindings["s"].deadline
  {
    ws, es := Bind(0.0);
    DisableAbortSteps(ws[|es|], Core(0.0, OneBinding(0.0), BoundTask(STREAMING, 0.0, 0.0), Free, {"s"}));
    ws, es := Extend(ws, es, Gateway(Disable));
    ws, es := Extend(ws, es, Gateway(Abort));
  }

  lemma DisableAbortSteps(w: World, c: Core)
    requires At(w, c) && c.gate == Free
    ensures CanStep(w, Gateway(Disable))
    ensures var w' := Step(w, Gateway(Disable));
            && CanStep(w', Gateway(Abort))
            && var w'' := Step(w', Gateway(Abort));
            !w''.enabled && w''.gate == Free && w''.registry == c.registry && w''.clock == c.clock
  {
  }

  /**
   A handler that is cancelled again while its `finally` waits for the lock ends
   without cleaning up. Its watchdog is gone by then, and its binding stays
   registered past its deadline until the next sweep.
   */
  lemma AbandonedBinding() returns (ws: seq<World>, es: seq<Event>)
    ensures PunctualRun(ws, es, 0.0)
    ensures var w := ws[|es|];
            && "s" in w.registry.bindings && 0 in w.tasks && 0 in w.done && !w.tasks[0].timedOut
            && var b := w.registry.bindings["s"];
            && b.owner == 0 && b.createdAt < w.tasks[0].firstFrameDeadline
            && b.deadline < w.clock
  {
    ws, es := Bind(0.0);
    UnwindStep(ws[|es|], Core(0.0, OneBinding(0.0), BoundTask(STREAMING, 0.0, 0.0), Free, {"s"}));
    ws, es := Extend(ws, es, Get(0, Unwind));
    FinishThenWaitStep(ws[|es|], Core(0.0, OneBinding(0.0), ABANDONED, Free, {"s"}));
    ws, es := Extend(ws, es, Get(0, Finish));
    ws, es := Extend(ws, es, Tick(4000.0));
  }

  const ABANDONED := BoundTask(STREAMING, 0.0, 0.0).(phase := Unwinding, watchdog := Stopped)

  lemma UnwindStep(w: World, c: Core)
    requires At(w, c) && c.k == BoundTask(STREAMING, 0.0, 0.0) && c.clock == 0.0
    ensures CanStep(w, Get(0, Unwind)) && At(Step(w, Get(0, Unwind)), c.(k := ABANDONED))
  {
  }

  lemma FinishThenWaitStep(w: World, c: Core)
    requires At(w, c) && c.k == ABANDONED
    ensures CanStep(w, Get(0, Finish))
    ensures var w' := Step(w, Get(0, Finish));
            && w'.registry == c.registry && w'.tasks == w.tasks && w'.done == {0} && w'.clock == w.clock
            && CanStep(w', Tick(4000.0)) && PunctualStep(w', Tick(4000.0), 0.0)
  {
  }

  lemma TimeOutStep(w: World, c: Core)
    requires At(w, c) && c.k.watchdog == Waiting(10.0) && c.clock >= 10.0
    ensures CanStep(w, Watch(0, TimeOut))
    ensures At(Step(w, Watch(0, TimeOut)), c.(k := c.k.(watchdog := TimedOut, timedOut := true, since := c.clock)))
  {
  }

  lemma DropStep(w: World, c: Core)
    requires At(w, c) && c.k.watchdog.TimedOut? && c.registry.reservations == map[]
    ensures CanStep(w, Watch(0, WatchEvent.DropReservation))
    ensures At(Step(w, Watch(0, WatchEvent.DropReservation)),
               c.(k := c.k.(watchdog := Stopped, since := c.clock)))
  {
    assert McpRegistry.DropReservation(w.registry, c.k.nonce) == w.registry;
  }

  lemma RevokeThenWait(ws: seq<World>, es: seq<Event>, c: Core) returns (ws': seq<World>, es': seq<Event>)
    requires PunctualRun(ws, es, 0.0) && At(ws[|es|], c) && c.registry == OneBinding(9.0) && c.clock == 10.0
    requires c.k.watchdog.Stopped? && c.k.phase.Bound?
    ensures PunctualRun(ws', es', 0.0)
    ensures var w := ws'[|es'|];
            w.registry == c.registry && w.tasks == map[0 := c.k] && w.clock == 4010.0
            && w.revoked == ws[|es|].revoked["tok" := 10.0]
  {
    RevokeSteps(ws[|es|], c);
    ws', es' := Extend(ws, es, RevokeToken("tok"));
    ws', es' := Extend(ws', es', Tick(4000.0));
  }

  lemma RevokeSteps(w: World, c: Core)
    requires At(w, c) && c.clock == 10.0 && c.k.watchdog.Stopped?
    ensures CanStep(w, RevokeToken("tok")) && PunctualStep(w, RevokeToken("tok"), 0.0)
    ensures var w' := Step(w, RevokeToken("tok"));
            && CanStep(w', Tick(4000.0)) && PunctualStep(w', Tick(4000.0), 0.0)
            && var w'' := Step(w', Tick(4000.0));
            && w''.registry == c.registry && w''.tasks == map[0 := c.k] && w''.clock == 4010.0
            && w''.revoked == w.revoked["tok" := 10.0]
  {
  }
}
