/** Time bounds of the watchdog: how often it passes, and how soon it catches expiry and revocation. */
module McpTiming {
  import opened Wrappers
  import opened McpRegistry
  import opened McpProtocol
  import opened McpSafety

  /** Task `t`, with record `k`, has its own binding in `g`. */
  predicate Holds(g: Registry, k: GetTask, t: TaskId) { k.session.Some? && OwnsSession(g, k.session.value, t) }

  function HeldDeadline(g: Registry, k: GetTask, t: TaskId): real
    requires Holds(g, k, t)
  {
    g.bindings[k.session.value].deadline
  }

  predicate InLoop(d: Watchdog) { d.Checking? || d.Validating? || d.Refreshing? || d.Detaching? || d.Sleeping? }

  ghost predicate Promotes(w: World, e: Event)
    requires CanStep(w, e)
  {
    e.Get? && e.get.Promote? && PromoteSucceeds(w, e.task)
  }

  lemma BindingsOnlyShrink(w: World, e: Event, s: SessionId)
    requires CanStep(w, e) && !Promotes(w, e) && s in NextRegistry(w, e).bindings
    ensures s in w.registry.bindings && SameBinding(NextRegistry(w, e).bindings[s], w.registry.bindings[s])
  {
    if Quiet(w, e) {
      QuietIsBelow(w, e);
    }
  }

  lemma SessionStays(w: World, e: Event, t: TaskId)
    requires CanStep(w, e) && t in NextTasks(w, e)
    ensures || (t in w.tasks && NextTasks(w, e)[t].session == w.tasks[t].session)
            || (e.Get? && e.task == t && e.get.Accept? && NextTasks(w, e)[t].session == None)
            || (e.Get? && e.task == t && e.get.Frame? && NextTasks(w, e)[t].session == Some(e.get.session))
  {
  }

  lemma PromotionTouchesOnlyItsSession(w: World, e: Event, s: SessionId)
    requires CanStep(w, e) && Inv(w) && Promotes(w, e) && Some(s) != w.tasks[e.task].session
    requires s in NextRegistry(w, e).bindings
    ensures s in w.registry.bindings && NextRegistry(w, e).bindings[s] == w.registry.bindings[s]
  {
    assert TaskShape(w.tasks[e.task]);
  }

  /** A task comes to hold a binding only by its own promotion, and no other event lengthens its deadline. */
  lemma HoldingComesFromPromotion(w: World, e: Event, t: TaskId)
    requires CanStep(w, e) && Inv(w) && t in NextTasks(w, e)
    requires Holds(NextRegistry(w, e), NextTasks(w, e)[t], t)
    requires Promotes(w, e) ==> e.task != t
    ensures t in w.tasks && Holds(w.registry, w.tasks[t], t) && NextTasks(w, e)[t].session == w.tasks[t].session
    ensures HeldDeadline(NextRegistry(w, e), NextTasks(w, e)[t], t) <= HeldDeadline(w.registry, w.tasks[t], t)
  {
    var s := NextTasks(w, e)[t].session.value;
    SessionStays(w, e, t);
    if Promotes(w, e) {
      assert TaskShape(w.tasks[e.task]);
      PromotionTouchesOnlyItsSession(w, e, s);
    } else {
      BindingsOnlyShrink(w, e, s);
      assert BindingOk(w, s);
    }
  }

  lemma NeverBoundAgain(w: World, e: Event, s: SessionId)
    requires CanStep(w, e) && Inv(w) && s in w.everBound && s in NextRegistry(w, e).bindings
    ensures s in w.registry.bindings
  {
    if Promotes(w, e) {
      assert TaskShape(w.tasks[e.task]);
      PromotionTouchesOnlyItsSession(w, e, s);
    } else {
      BindingsOnlyShrink(w, e, s);
    }
  }

  /** What a step may do with a session that has been bound before: keep it with no longer a deadline, or drop it. */
  ghost predicate Shrinks(w: World, w': World, s: SessionId) {
    s in w.everBound ==>
      && s in w'.everBound
      && (s in w'.registry.bindings ==>
            s in w.registry.bindings && NoLonger(w.registry.bindings[s], w'.registry.bindings[s]))
  }

  lemma StepShrinks(w: World, e: Event, s: SessionId)
    requires CanStep(w, e) && Inv(w)
    ensures Shrinks(w, Step(w, e), s)
  {
    if s in w.everBound && s in NextRegistry(w, e).bindings {
      NeverBoundAgain(w, e, s);
      DeadlineNeverGrows(w, e, s);
    }
  }

  lemma {:induction false} ShrinkingIsTransitive(ws: seq<World>, i: nat, j: nat, s: SessionId)
    requires i <= j < |ws| && s in ws[i].everBound
    requires forall k :: i <= k < j ==> Shrinks(ws[k], ws[k + 1], s)
    ensures Shrinks(ws[i], ws[j], s)
    decreases j - i
  {
    if i < j {
      assert Shrinks(ws[i], ws[i + 1], s);
      ShrinkingIsTransitive(ws, i + 1, j, s);
    }
  }

  /** Over a whole run a session is bound at most once, and its deadline only ever comes closer. */
  lemma DeadlineShrinksOverRun(ws: seq<World>, es: seq<Event>, i: nat, j: nat, s: SessionId)
    requires Run(ws, es) && i <= j < |ws| && s in ws[i].everBound
    ensures s in ws[j].registry.bindings ==>
              s in ws[i].registry.bindings && NoLonger(ws[i].registry.bindings[s], ws[j].registry.bindings[s])
  {
    forall k | i <= k < j
      ensures Shrinks(ws[k], ws[k + 1], s)
    {
      RunKeepsInv(ws, es, k);
      StepShrinks(ws[k], es[k], s);
    }
    ShrinkingIsTransitive(ws, i, j, s);
  }

  // ---- Number of passes, in every run ----

  function Minutes(passes: nat): real { 60.0 * passes as real }

  /** A watchdog that has finished `passes` passes has slept that many minutes, or up to its binding's deadline. */
  predicate Paced(clock: real, g: Registry, k: GetTask, t: TaskId) {
    var d := k.watchdog;
    && k.stamp <= clock
    && (InLoop(d) ==> k.bound)
    && (if d.Checking? || d.Sleeping? then k.passes <= 60
        else if d.Validating? || d.Refreshing? then 1 <= k.passes <= 60
        else if d.Detaching? || d.Stopped? then k.passes <= 61
        else k.passes == 0)
    && (d.Validating? ==> k.stamp + Minutes(k.passes) - 60.0 <= clock)
    && (d.Refreshing? ==> k.stamp + Minutes(k.passes) - 60.0 <= d.stamp <= clock)
    && (Holds(g, k, t) ==>
          && (d.Checking? ==> Min(k.stamp + Minutes(k.passes), HeldDeadline(g, k, t)) <= clock)
          && (d.Sleeping? ==> Min(k.stamp + Minutes(k.passes), HeldDeadline(g, k, t)) <= d.until))
  }

  ghost predicate AllPaced(w: World) { forall t :: t in w.tasks ==> Paced(w.clock, w.registry, w.tasks[t], t) }

  function NextClock(w: World, e: Event): real { if e.Tick? then w.clock + e.dt else w.clock }

  lemma CheckIsPaced(w: World, t: TaskId)
    requires CanWatch(w, t, Check) && Inv(w) && AllPaced(w)
    ensures Paced(w.clock, w.registry, TaskAfterWatch(w, t, Check), t)
  {
    var k := w.tasks[t];
    if HoldsOwnSession(w, t) {
      assert BindingOk(w, k.session.value);
      assert Minutes(k.passes + 1) == Minutes(k.passes) + 60.0;
    }
  }

  lemma RefreshArithmetic(start: real, minutes: real, was: real, granted: real, stamp: real, clock: real)
    requires start + minutes - 60.0 <= stamp <= clock
    ensures var deadline := Min(was, granted);
            Min(start + minutes, deadline) <= clock + Min(WATCHDOG_SECONDS, deadline - stamp)
  {
  }

  lemma RefreshIsPaced(w: World, t: TaskId, e: WatchEvent)
    requires e.Refresh? && CanWatch(w, t, e) && Paced(w.clock, w.registry, w.tasks[t], t)
    ensures Paced(w.clock, RegistryAfterWatch(w, t, e), TaskAfterWatch(w, t, e), t)
  {
    if HoldsOwnSession(w, t) {
      var k := w.tasks[t];
      var d := k.watchdog;
      RefreshArithmetic(k.stamp, Minutes(k.passes), HeldDeadline(w.registry, k, t),
                        TokenDeadline(d.expiresAt, Wall(w), d.stamp), d.stamp, w.clock);
    }
  }

  lemma WatchIsPaced(w: World, t: TaskId, e: WatchEvent)
    requires CanWatch(w, t, e) && Inv(w) && AllPaced(w)
    ensures Paced(w.clock, RegistryAfterWatch(w, t, e), TaskAfterWatch(w, t, e), t)
  {
    assert TaskShape(w.tasks[t]) && Paced(w.clock, w.registry, w.tasks[t], t);
    if e.Check? {
      CheckIsPaced(w, t);
    } else if e.Refresh? {
      RefreshIsPaced(w, t, e);
    } else {
      OtherWatchIsPaced(w, t, e);
    }
  }

  lemma OtherWatchIsPaced(w: World, t: TaskId, e: WatchEvent)
    requires CanWatch(w, t, e) && !e.Check? && !e.Refresh?
    requires TaskShape(w.tasks[t]) && Paced(w.clock, w.registry, w.tasks[t], t)
    ensures Paced(w.clock, RegistryAfterWatch(w, t, e), TaskAfterWatch(w, t, e), t)
  {
  }

  /** Outside its watchdog's loop only the pass count and the stamp matter;
      inside it a held binding must have been held. */
  lemma HoldingKeepsPace(clock: real, g: Registry, k: GetTask, clock': real, g': Registry, t: TaskId)
    requires Paced(clock, g, k, t) && clock <= clock'
    requires InLoop(k.watchdog) && Holds(g', k, t) ==> Holds(g, k, t) && HeldDeadline(g', k, t) <= HeldDeadline(g, k, t)
    ensures Paced(clock', g', k, t)
  {
  }

  lemma GetIsPaced(w: World, t: TaskId, e: GetEvent)
    requires CanGet(w, t, e) && (t in w.tasks ==> TaskShape(w.tasks[t]) && Paced(w.clock, w.registry, w.tasks[t], t))
    requires t in w.tasks && InLoop(w.tasks[t].watchdog) && Holds(RegistryAfterGet(w, t, e), w.tasks[t], t)
             ==> Holds(w.registry, w.tasks[t], t)
                 && HeldDeadline(RegistryAfterGet(w, t, e), w.tasks[t], t) <= HeldDeadline(w.registry, w.tasks[t], t)
    ensures Paced(w.clock, RegistryAfterGet(w, t, e), TaskAfterGet(w, t, e), t)
  {
    if !e.Accept? {
      HoldingKeepsPace(w.clock, w.registry, w.tasks[t], w.clock, RegistryAfterGet(w, t, e), t);
    }
  }

  lemma OthersArePaced(w: World, e: Event, t: TaskId)
    requires CanStep(w, e) && !(e.Watch? && e.task == t) && t in NextTasks(w, e)
    requires t in w.tasks ==> TaskShape(w.tasks[t]) && Paced(w.clock, w.registry, w.tasks[t], t)
    requires t in w.tasks && InLoop(w.tasks[t].watchdog) && Holds(NextRegistry(w, e), w.tasks[t], t)
             ==> Holds(w.registry, w.tasks[t], t)
                 && HeldDeadline(NextRegistry(w, e), w.tasks[t], t) <= HeldDeadline(w.registry, w.tasks[t], t)
    ensures Paced(NextClock(w, e), NextRegistry(w, e), NextTasks(w, e)[t], t)
  {
    if e.Get? && e.task == t {
      GetIsPaced(w, t, e.get);
    } else {
      HoldingKeepsPace(w.clock, w.registry, w.tasks[t], NextClock(w, e), NextRegistry(w, e), t);
    }
  }

  lemma StepKeepsPace(w: World, e: Event, t: TaskId)
    requires CanStep(w, e) && Inv(w) && AllPaced(w) && t in NextTasks(w, e)
    ensures Paced(NextClock(w, e), NextRegistry(w, e), NextTasks(w, e)[t], t)
  {
    if e.Watch? && e.task == t {
      WatchIsPaced(w, t, e.watch);
    } else {
      if t in w.tasks && InLoop(w.tasks[t].watchdog) && Holds(NextRegistry(w, e), w.tasks[t], t) {
        LoopersKeepHolding(w, e, t);
      }
      OthersArePaced(w, e, t);
    }
  }

  lemma LoopersKeepHolding(w: World, e: Event, t: TaskId)
    requires CanStep(w, e) && Inv(w) && AllPaced(w)
    requires t in w.tasks && InLoop(w.tasks[t].watchdog) && Holds(NextRegistry(w, e), w.tasks[t], t)
    requires !(e.Watch? && e.task == t)
    ensures Holds(w.registry, w.tasks[t], t)
    ensures HeldDeadline(NextRegistry(w, e), w.tasks[t], t) <= HeldDeadline(w.registry, w.tasks[t], t)
  {
    assert Paced(w.clock, w.registry, w.tasks[t], t) && TaskShape(w.tasks[t]);
    SessionStays(w, e, t);
    HoldingComesFromPromotion(w, e, t);
  }

  lemma {:induction false} RunIsPaced(ws: seq<World>, es: seq<Event>, i: nat)
    requires Run(ws, es) && i < |ws|
    ensures AllPaced(ws[i])
  {
    if i > 0 {
      RunIsPaced(ws, es, i - 1);
      RunKeepsInv(ws, es, i - 1);
      forall t | t in ws[i].tasks
        ensures Paced(ws[i].clock, ws[i].registry, ws[i].tasks[t], t)
      {
        StepKeepsPace(ws[i - 1], es[i - 1], t);
      }
    }
  }

  /** Main result: whatever the schedule, a watchdog makes at most 61 passes. */
  lemma WatchdogPassesAreBounded(ws: seq<World>, es: seq<Event>, i: nat, t: TaskId)
    requires Run(ws, es) && i < |ws| && t in ws[i].tasks
    ensures ws[i].tasks[t].passes <= 61
  {
    RunIsPaced(ws, es, i);
    assert Paced(ws[i].clock, ws[i].registry, ws[i].tasks[t], t);
  }
}
