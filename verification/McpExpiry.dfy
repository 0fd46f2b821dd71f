/** No binding, and no POST delivered through one, outlives the token that opened it. */
module McpExpiry {
  import opened Wrappers
  import opened McpRegistry
  import opened McpProtocol
  import opened McpSafety
  import opened McpDelivery
  import opened McpTiming

  /**
   On the monotonic clock: `deadline` is no later than the token's expiry, or than
   the moment `at` it was granted if the token had expired by then.
   */
  predicate Respects(deadline: real, expiresAt: Option<real>, offset: real, at: real) {
    expiresAt.Some? ==> deadline <= Max(at, expiresAt.value - offset)
  }

  /** A grant made with an earlier clock value than the wall clock it reads is only shorter for it. */
  lemma GrantRespectsExpiry(expiresAt: Option<real>, clock: real, offset: real, stamp: real)
    requires stamp <= clock
    ensures Respects(TokenDeadline(expiresAt, clock + offset, stamp), expiresAt, offset, stamp)
  {
  }

  /** What a token grants: an hour, or what is left of it on the wall clock if that is less. */
  lemma GrantIs(expiresAt: Option<real>, nowWall: real, now: real)
    ensures TokenDeadline(expiresAt, nowWall, now) ==
            match expiresAt
            case None => now + 3600.0
            case Some(expiry) =>
              if expiry <= nowWall then now
              else if expiry < nowWall + 3600.0 then now + (expiry - nowWall)
              else now + 3600.0
  {
  }

  // ---- Every session gets its whole grant ----

  /** What an opening announced, and what its handler keeps of it. */
  predicate OpenedAs(o: Observation, tasks: map<TaskId, GetTask>, offset: real)
    requires o.Opened?
  {
    && o.task in tasks
    && var k := tasks[o.task];
    && k.bound && k.session == Some(o.session) && k.tokenId == o.tokenId
    && k.expiresAt == o.expiresAt && k.stamp == o.createdAt && k.limit == o.limit
    && o.limit == Granted(o.expiresAt, k.promotedAt + offset, o.createdAt)
  }

  /** An hour from `now`, or the expiry if that comes sooner, but no time before `now`. */
  function Granted(expiresAt: Option<real>, nowWall: real, now: real): real {
    if expiresAt.None? || nowWall + 3600.0 <= expiresAt.value then now + 3600.0
    else if nowWall < expiresAt.value then now + (expiresAt.value - nowWall)
    else now
  }

  ghost predicate AllOpenedAs(tr: seq<Observation>, tasks: map<TaskId, GetTask>, offset: real) {
    forall o :: o in tr && o.Opened? ==> OpenedAs(o, tasks, offset)
  }

  predicate SameOpening(k': GetTask, k: GetTask) {
    && k'.bound && k'.session == k.session && k'.tokenId == k.tokenId && k'.expiresAt == k.expiresAt
    && k'.stamp == k.stamp && k'.limit == k.limit && k'.promotedAt == k.promotedAt
  }

  lemma OpeningStays(w: World, e: Event, t: TaskId)
    requires CanStep(w, e) && t in w.tasks && w.tasks[t].bound && TaskShape(w.tasks[t])
    ensures t in NextTasks(w, e) && SameOpening(NextTasks(w, e)[t], w.tasks[t])
  {
  }

  lemma OpeningIsNoted(w: World, e: Event, o: Observation)
    requires CanStep(w, e) && Shapes(w) && o in Notes(w, e) && o.Opened?
    ensures OpenedAs(o, NextTasks(w, e), w.offset)
  {
  }

  lemma StepOpens(w: World, e: Event, w': World)
    requires CanStep(w, e) && w' == Step(w, e) && Shapes(w) && AllOpenedAs(w.trace, w.tasks, w.offset)
    ensures AllOpenedAs(w'.trace, w'.tasks, w'.offset)
  {
    forall o | o in w'.trace && o.Opened?
      ensures OpenedAs(o, w'.tasks, w'.offset)
    {
      if o in w.trace {
        OpeningStays(w, e, o.task);
      } else {
        OpeningIsNoted(w, e, o);
      }
    }
  }

  /** In every run each opened session was granted an hour, or all that was left of its token when it was promoted. */
  lemma {:induction false} GrantsAreExact(ws: seq<World>, es: seq<Event>, i: nat)
    requires Run(ws, es) && i < |ws|
    ensures AllOpenedAs(ws[i].trace, ws[i].tasks, ws[0].offset)
    ensures ws[i].offset == ws[0].offset
  {
    if i > 0 {
      GrantsAreExact(ws, es, i - 1);
      RunKeepsInv(ws, es, i - 1);
      StepOpens(ws[i - 1], es[i - 1], ws[i]);
    }
  }

  // ---- Invariant ----

  /** The limit respects the expiry known at the promotion, the held deadline the one last reported. */
  predicate Expiring(offset: real, g: Registry, k: GetTask, t: TaskId) {
    && (k.bound ==> Respects(k.limit, k.expiresAt, offset, k.stamp))
    && (k.renewedExpiry.Some? ==> k.bound)
    && (Holds(g, k, t) ==> Respects(HeldDeadline(g, k, t), k.renewedExpiry, offset, k.checkedAt))
  }

  ghost predicate AllExpiring(w: World) {
    forall t :: t in w.tasks ==> Expiring(w.offset, w.registry, w.tasks[t], t)
  }

  lemma RefreshKeepsExpiry(w: World, t: TaskId, e: WatchEvent)
    requires e.Refresh? && CanWatch(w, t, e) && Paced(w.clock, w.registry, w.tasks[t], t)
    requires Expiring(w.offset, w.registry, w.tasks[t], t)
    ensures Expiring(w.offset, RegistryAfterWatch(w, t, e), TaskAfterWatch(w, t, e), t)
  {
    var d := w.tasks[t].watchdog;
    GrantRespectsExpiry(d.expiresAt, w.clock, w.offset, d.stamp);
  }

  lemma PromoteKeepsExpiry(w: World, t: TaskId, e: GetEvent)
    requires e.Promote? && CanGet(w, t, e) && PromoteSucceeds(w, t) && TaskShape(w.tasks[t])
    requires Paced(w.clock, w.registry, w.tasks[t], t) && Expiring(w.offset, w.registry, w.tasks[t], t)
    ensures Expiring(w.offset, RegistryAfterGet(w, t, e), TaskAfterGet(w, t, e), t)
  {
    GrantRespectsExpiry(w.tasks[t].expiresAt, w.clock, w.offset, w.tasks[t].stamp);
  }

  /** What every other event leaves of a handler's record. */
  predicate SameTerms(k': GetTask, k: GetTask) {
    && k'.bound == k.bound && k'.limit == k.limit && k'.expiresAt == k.expiresAt && (k.bound ==> k'.stamp == k.stamp)
    && k'.renewedExpiry == k.renewedExpiry && k'.checkedAt == k.checkedAt
  }

  lemma GetTermsStay(w: World, t: TaskId, e: GetEvent)
    requires CanGet(w, t, e) && !e.Promote?
    requires t in w.tasks ==> TaskShape(w.tasks[t])
    ensures if t in w.tasks then SameTerms(TaskAfterGet(w, t, e), w.tasks[t])
            else !TaskAfterGet(w, t, e).bound && TaskAfterGet(w, t, e).renewedExpiry == None
                 && TaskAfterGet(w, t, e).session == None
  {
  }

  lemma TermsStay(w: World, e: Event, t: TaskId)
    requires CanStep(w, e) && Shapes(w) && t in NextTasks(w, e)
    requires !(e == Watch(t, Refresh) || e == Get(t, Promote))
    ensures if t in w.tasks then SameTerms(NextTasks(w, e)[t], w.tasks[t])
            else !NextTasks(w, e)[t].bound && NextTasks(w, e)[t].renewedExpiry == None
                 && NextTasks(w, e)[t].session == None
  {
    assert t in w.tasks ==> TaskShape(w.tasks[t]);
    if e.Get? && e.task == t {
      GetTermsStay(w, t, e.get);
    }
  }

  lemma OtherStepKeepsExpiry(w: World, e: Event, t: TaskId)
    requires CanStep(w, e) && Inv(w) && AllExpiring(w) && t in NextTasks(w, e)
    requires !(e == Watch(t, Refresh) || (e == Get(t, Promote) && PromoteSucceeds(w, t)))
    ensures Expiring(w.offset, NextRegistry(w, e), NextTasks(w, e)[t], t)
  {
    if e != Get(t, Promote) {
      TermsStay(w, e, t);
    }
    if Holds(NextRegistry(w, e), NextTasks(w, e)[t], t) {
      HoldingComesFromPromotion(w, e, t);
    }
    assert t in w.tasks ==> Expiring(w.offset, w.registry, w.tasks[t], t);
  }

  lemma StepKeepsExpiry(w: World, e: Event, t: TaskId)
    requires CanStep(w, e) && Inv(w) && AllPaced(w) && AllExpiring(w) && t in NextTasks(w, e)
    ensures Expiring(w.offset, NextRegistry(w, e), NextTasks(w, e)[t], t)
  {
    assert t in w.tasks ==> Paced(w.clock, w.registry, w.tasks[t], t) && TaskShape(w.tasks[t]);
    assert t in w.tasks ==> Expiring(w.offset, w.registry, w.tasks[t], t);
    if e == Watch(t, Refresh) {
      RefreshKeepsExpiry(w, t, Refresh);
    } else if e == Get(t, Promote) && PromoteSucceeds(w, t) {
      PromoteKeepsExpiry(w, t, Promote);
    } else {
      OtherStepKeepsExpiry(w, e, t);
    }
  }

  lemma {:induction false} RunKeepsExpiry(ws: seq<World>, es: seq<Event>, i: nat)
    requires Run(ws, es) && i < |ws|
    ensures AllExpiring(ws[i]) && ws[i].offset == ws[0].offset
  {
    if i > 0 {
      RunKeepsExpiry(ws, es, i - 1);
      RunKeepsInv(ws, es, i - 1);
      RunIsPaced(ws, es, i - 1);
      forall t | t in ws[i].tasks
        ensures Expiring(ws[i].offset, ws[i].registry, ws[i].tasks[t], t)
      {
        StepKeepsExpiry(ws[i - 1], es[i - 1], t);
      }
    }
  }

  // ---- Results ----

  /**
   Main result: in every run a binding ends no later than an hour after its
   creation, than the expiry of the token that opened it, and than the expiry its
   watchdog was last told, unless that had passed when it was granted.
   */
  lemma BindingsRespectExpiry(ws: seq<World>, es: seq<Event>, i: nat, s: SessionId)
    requires Run(ws, es) && i < |ws| && s in ws[i].registry.bindings
    ensures var w := ws[i];
            var b := w.registry.bindings[s];
            && b.owner in w.tasks && w.tasks[b.owner].tokenId == b.tokenId
            && var k := w.tasks[b.owner];
            && b.deadline <= b.createdAt + 3600.0
            && Respects(b.deadline, k.expiresAt, w.offset, b.createdAt)
            && Respects(b.deadline, k.renewedExpiry, w.offset, k.checkedAt)
  {
    RunKeepsInv(ws, es, i);
    RunKeepsExpiry(ws, es, i);
    var w := ws[i];
    assert BindingOk(w, s);
    assert Expiring(w.offset, w.registry, w.tasks[w.registry.bindings[s].owner], w.registry.bindings[s].owner);
  }

  ghost predicate GrantsRespectExpiry(tr: seq<Observation>, offset: real) {
    forall o :: o in tr && o.Opened? ==> Respects(o.limit, o.expiresAt, offset, o.createdAt)
  }

  lemma NotesRespectExpiry(w: World, e: Event)
    requires CanStep(w, e) && AllPaced(w)
    ensures GrantsRespectExpiry(Notes(w, e), w.offset)
  {
    if e.Get? && e.get.Promote? {
      var k := w.tasks[e.task];
      assert Paced(w.clock, w.registry, k, e.task);
      GrantRespectsExpiry(k.expiresAt, w.clock, w.offset, k.stamp);
    }
  }

  lemma {:induction false} RunGrantsRespectExpiry(ws: seq<World>, es: seq<Event>, i: nat)
    requires Run(ws, es) && i < |ws|
    ensures GrantsRespectExpiry(ws[i].trace, ws[0].offset)
  {
    if i > 0 {
      RunGrantsRespectExpiry(ws, es, i - 1);
      RunKeepsExpiry(ws, es, i - 1);
      RunIsPaced(ws, es, i - 1);
      NotesRespectExpiry(ws[i - 1], es[i - 1]);
      TraceGrows(ws[i - 1], es[i - 1], ws[i]);
    }
  }

  lemma TraceGrows(w: World, e: Event, w': World)
    requires CanStep(w, e) && w' == Step(w, e)
    requires GrantsRespectExpiry(w.trace, w.offset) && GrantsRespectExpiry(Notes(w, e), w.offset)
    ensures GrantsRespectExpiry(w'.trace, w.offset)
  {
  }

  /** The session of a delivery was opened with this token and this expiry, and the deadline keeps to both. */
  ghost predicate OpenedUntil(tr: seq<Observation>, o: Observation, offset: real, task: TaskId, expiresAt: Option<real>,
                              createdAt: real, limit: real)
    requires o.Delivered?
  {
    && Opened(o.session, task, o.tokenId, expiresAt, createdAt, limit) in tr
    && o.deadline <= limit && Respects(limit, expiresAt, offset, createdAt)
  }

  /**
   Main result: a POST is delivered to a session only if it read the clock before
   the expiry of the token that opened the session, or before the session was
   created if the token had expired by then.
   */
  lemma DeliveriesRespectExpiry(ws: seq<World>, es: seq<Event>, i: nat, j: nat)
    returns (task: TaskId, expiresAt: Option<real>, createdAt: real, limit: real)
    requires Run(ws, es) && i < |ws| && j < |ws[i].trace| && ws[i].trace[j].Delivered?
    ensures OpenedUntil(ws[i].trace[..j], ws[i].trace[j], ws[0].offset, task, expiresAt, createdAt, limit)
    ensures var stamp := ws[i].trace[j].stamp;
            stamp < createdAt + MAX_BINDING_SECONDS
            && (expiresAt.Some? ==> stamp < createdAt || stamp + ws[0].offset < expiresAt.value)
  {
    DeliveriesAreSafe(ws, es, i);
    RunGrantsRespectExpiry(ws, es, i);
    var tr := ws[i].trace;
    var past, o := tr[..j], tr[j];
    assert DeliveryOk(past, o) && OpenedWith(past, o.session, o.tokenId, o.deadline);
    task, expiresAt, createdAt, limit :|
      && Opened(o.session, task, o.tokenId, expiresAt, createdAt, limit) in past
      && GetValidated(task, o.tokenId) in past
      && o.deadline <= limit <= createdAt + MAX_BINDING_SECONDS;
    var start := Opened(o.session, task, o.tokenId, expiresAt, createdAt, limit);
    assert start in tr;
    assert Respects(start.limit, start.expiresAt, ws[0].offset, start.createdAt);
  }
}
