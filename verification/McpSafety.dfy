/** What every run of the guard keeps: capacity, ownership, and the safety of POST delivery. */
module McpSafety {
  import opened Wrappers
  import opened McpRegistry
  import opened McpProtocol

  // ---- The invariant ----

  predicate NotAdmitted(k: GetTask) { k.watchdog.NotStarted? }

  predicate TaskShape(k: GetTask) {
    && (k.phase.Accepted? || k.phase.Refused? || k.phase.Streaming? ==> !k.bound && k.session == None)
    && (k.phase.Framed? || k.phase.FrameRejected? ==> !k.bound && k.session.Some?)
    && (k.phase.Bound? ==> k.bound)
    && (k.bound ==> k.session.Some?)
    && (k.phase.Accepted? || k.phase.Refused? <==> NotAdmitted(k))
  }

  ghost predicate Shapes(w: World) { forall t :: t in w.tasks ==> TaskShape(w.tasks[t]) }

  predicate ReservationOk(w: World, n: Nonce)
    requires n in w.registry.reservations
  {
    var r := w.registry.reservations[n];
    && n in w.usedNonces
    && r.owner in w.tasks
    && var k := w.tasks[r.owner];
    k.nonce == n && !k.bound && !NotAdmitted(k) && r.firstFrameDeadline == k.firstFrameDeadline
  }

  predicate BindingOk(w: World, s: SessionId)
    requires s in w.registry.bindings
  {
    var b := w.registry.bindings[s];
    && s in w.everBound
    && !b.closing && b.enqueueable
    && b.owner in w.tasks
    && var k := w.tasks[b.owner];
    k.bound && k.session == Some(s) && k.tokenId == b.tokenId && b.createdAt == k.stamp
    && b.deadline <= k.limit <= b.createdAt + MAX_BINDING_SECONDS
  }

  ghost predicate Owned(w: World) {
    && (forall n :: n in w.registry.reservations ==> ReservationOk(w, n))
    && (forall s :: s in w.registry.bindings ==> BindingOk(w, s))
  }

  /** Session ids are minted once; the id of a task that is not promoted has never been bound. */
  ghost predicate Sessions(w: World) {
    && w.everBound <= w.minted
    && (forall t :: t in w.tasks && w.tasks[t].session.Some? ==> w.tasks[t].session.value in w.minted)
    && (forall t :: t in w.tasks && w.tasks[t].session.Some? && !w.tasks[t].bound ==>
          w.tasks[t].session.value !in w.everBound)
    && (forall t, u :: t in w.tasks && u in w.tasks && t != u && w.tasks[t].session.Some? ==>
          w.tasks[t].session != w.tasks[u].session)
  }

  /** While connectivity is off no POST is in the gate, and the registry is empty once it has been drained. */
  predicate SwitchedOffIsEmpty(w: World) {
    !w.enabled ==> (w.gate.Free? || w.gate.Draining?) && (w.drained ==> w.registry == EMPTY)
  }

  ghost predicate Inv(w: World) {
    && Shapes(w)
    && Owned(w)
    && Sessions(w)
    && Entries(w.registry) <= MAX_MCP_CONNECTIONS
    && SwitchedOffIsEmpty(w)
  }

  // ---- Quiet steps: nothing is admitted, framed or promoted ----

  predicate SameBinding(b': Binding, b: Binding) {
    && b'.owner == b.owner && b'.tokenId == b.tokenId && b'.createdAt == b.createdAt
    && b'.closing == b.closing && b'.enqueueable == b.enqueueable
    && b'.deadline <= b.deadline
  }

  /** Every entry of `g'` comes from `g`; at most times have changed, and deadlines have not grown. */
  ghost predicate Below(g': Registry, g: Registry) {
    && (forall n :: n in g'.reservations ==> n in g.reservations && g'.reservations[n] == g.reservations[n])
    && (forall s :: s in g'.bindings ==> s in g.bindings && SameBinding(g'.bindings[s], g.bindings[s]))
  }

  ghost predicate Quiet(w: World, e: Event)
    requires CanStep(w, e)
  {
    match e
    case Get(t, Accept(_, _)) => false
    case Get(t, Admit(_)) => false
    case Get(t, Frame(_)) => false
    case Get(t, Promote) => !PromoteSucceeds(w, t)
    case _ => true
  }

  lemma QuietGetIsBelow(w: World, t: TaskId, e: GetEvent)
    requires CanGet(w, t, e) && Quiet(w, Get(t, e))
    ensures Below(RegistryAfterGet(w, t, e), w.registry)
  {
  }

  lemma QuietWatchIsBelow(w: World, t: TaskId, e: WatchEvent)
    requires CanWatch(w, t, e)
    ensures Below(RegistryAfterWatch(w, t, e), w.registry)
  {
  }

  lemma QuietGateIsBelow(w: World, e: GateEvent)
    requires CanGate(w, e)
    ensures Below(RegistryAfterGate(w, e), w.registry)
  {
  }

  lemma QuietIsBelow(w: World, e: Event)
    requires CanStep(w, e) && Quiet(w, e)
    ensures Below(NextRegistry(w, e), w.registry)
  {
    match e
    case Get(t, g) => QuietGetIsBelow(w, t, g);
    case Watch(t, d) => QuietWatchIsBelow(w, t, d);
    case Gateway(g) => QuietGateIsBelow(w, g);
    case _ =>
  }

  /** The fields of a task record that tie it to its registry entry. */
  predicate SameIdentity(k': GetTask, k: GetTask) {
    && k'.tokenId == k.tokenId && k'.nonce == k.nonce && k'.session == k.session && k'.bound == k.bound
    && k'.stamp == k.stamp && k'.limit == k.limit && k'.firstFrameDeadline == k.firstFrameDeadline
    && k'.expiresAt == k.expiresAt
    && (NotAdmitted(k') <==> NotAdmitted(k))
  }

  lemma QuietGetTask(w: World, t: TaskId, e: GetEvent)
    requires CanGet(w, t, e) && Quiet(w, Get(t, e)) && Shapes(w)
    ensures t in w.tasks && SameIdentity(TaskAfterGet(w, t, e), w.tasks[t]) && TaskShape(TaskAfterGet(w, t, e))
  {
  }

  lemma QuietWatchTask(w: World, t: TaskId, e: WatchEvent)
    requires CanWatch(w, t, e) && Shapes(w)
    ensures SameIdentity(TaskAfterWatch(w, t, e), w.tasks[t]) && TaskShape(TaskAfterWatch(w, t, e))
  {
  }

  lemma QuietTasks(w: World, e: Event)
    requires CanStep(w, e) && Quiet(w, e) && Shapes(w)
    ensures var tasks' := NextTasks(w, e);
            && tasks'.Keys == w.tasks.Keys
            && forall t :: t in tasks' ==> SameIdentity(tasks'[t], w.tasks[t]) && TaskShape(tasks'[t])
  {
    match e
    case Get(t, g) => QuietGetTask(w, t, g);
    case Watch(t, d) => QuietWatchTask(w, t, d);
    case _ =>
  }

  lemma {:induction false} SubsetSize<T>(a: set<T>, b: set<T>)
    requires a <= b
    ensures |a| <= |b|
  {
    if a != {} {
      var x :| x in a;
      SubsetSize(a - {x}, b - {x});
    }
  }

  lemma BelowIsSmaller(g': Registry, g: Registry)
    requires Below(g', g)
    ensures Entries(g') <= Entries(g)
  {
    SubsetSize(g'.reservations.Keys, g.reservations.Keys);
    SubsetSize(g'.bindings.Keys, g.bindings.Keys);
  }

  /** What a quiet step does to the parts of the world the invariant reads. */
  ghost predicate Follows(w': World, w: World) {
    && Below(w'.registry, w.registry)
    && w'.tasks.Keys == w.tasks.Keys
    && (forall t :: t in w'.tasks ==> SameIdentity(w'.tasks[t], w.tasks[t]) && TaskShape(w'.tasks[t]))
    && w'.usedNonces == w.usedNonces
    && w'.minted == w.minted
    && w'.everBound == w.everBound
    && SwitchedOffIsEmpty(w')
  }

  lemma FollowingKeepsInv(w: World, w': World)
    requires Inv(w) && Follows(w', w)
    ensures Inv(w')
  {
    BelowIsSmaller(w'.registry, w.registry);
    forall n | n in w'.registry.reservations
      ensures ReservationOk(w', n)
    {
      assert ReservationOk(w, n);
    }
    forall s | s in w'.registry.bindings
      ensures BindingOk(w', s)
    {
      assert BindingOk(w, s);
    }
  }

  lemma QuietFollows(w: World, e: Event)
    requires CanStep(w, e) && Quiet(w, e) && Inv(w)
    ensures Follows(Step(w, e), w)
  {
    QuietIsBelow(w, e);
    QuietTasks(w, e);
    BoundWasBound(w, NextRegistry(w, e));
    QuietSwitch(w, e);
  }

  lemma BoundWasBound(w: World, g: Registry)
    requires Owned(w) && Below(g, w.registry)
    ensures w.everBound + g.bindings.Keys == w.everBound
  {
    forall s | s in g.bindings
      ensures s in w.everBound
    {
      assert BindingOk(w, s);
    }
  }

  lemma QuietSwitch(w: World, e: Event)
    requires CanStep(w, e) && Quiet(w, e) && SwitchedOffIsEmpty(w)
    requires Below(NextRegistry(w, e), w.registry)
    ensures SwitchedOffIsEmpty(Step(w, e))
  {
    if w.registry == EMPTY {
      assert NextRegistry(w, e) == EMPTY;
    }
  }

  // ---- The four steps that are not quiet ----

  /** One task record changes in a way no registry entry notices; at most one new id is minted. */
  ghost predicate TaskChange(w: World, w': World, t: TaskId, k: GetTask) {
    && w'.registry == w.registry && w'.tasks == w.tasks[t := k]
    && w'.usedNonces == w.usedNonces && w'.everBound == w.everBound
    && w'.enabled == w.enabled && w'.drained == w.drained && w'.gate == w.gate
    && TaskShape(k) && !k.bound
    && (t in w.tasks ==>
          var was := w.tasks[t];
          && !was.bound && k.nonce == was.nonce && k.firstFrameDeadline == was.firstFrameDeadline
          && (NotAdmitted(was) <==> NotAdmitted(k)))
    && match k.session
       case None => w'.minted == w.minted
       case Some(s) => s !in w.minted && w'.minted == w.minted + {s}
  }

  lemma TaskChangeKeepsOwned(w: World, w': World, t: TaskId, k: GetTask)
    requires Owned(w) && TaskChange(w, w', t, k)
    ensures Owned(w')
  {
    forall n | n in w'.registry.reservations
      ensures ReservationOk(w', n)
    {
      assert ReservationOk(w, n);
    }
    forall s | s in w'.registry.bindings
      ensures BindingOk(w', s)
    {
      assert BindingOk(w, s);
    }
  }

  lemma TaskChangeKeepsSessions(w: World, w': World, t: TaskId, k: GetTask)
    requires Shapes(w) && Sessions(w) && TaskChange(w, w', t, k)
    ensures Shapes(w') && Sessions(w')
  {
  }

  lemma TaskChangeKeepsInv(w: World, w': World, t: TaskId, k: GetTask)
    requires Inv(w) && TaskChange(w, w', t, k)
    ensures Inv(w')
  {
    TaskChangeKeepsOwned(w, w', t, k);
    TaskChangeKeepsSessions(w, w', t, k);
  }

  lemma AcceptIsTaskChange(w: World, t: TaskId, e: GetEvent)
    requires e.Accept? && CanGet(w, t, e) && w.everBound + w.registry.bindings.Keys == w.everBound
    ensures TaskChange(w, Step(w, Get(t, e)), t, TaskAfterGet(w, t, e))
  {
  }

  lemma FrameIsTaskChange(w: World, t: TaskId, e: GetEvent)
    requires e.Frame? && CanGet(w, t, e) && w.everBound + w.registry.bindings.Keys == w.everBound
    requires TaskShape(w.tasks[t])
    ensures TaskChange(w, Step(w, Get(t, e)), t, TaskAfterGet(w, t, e))
  {
  }

  lemma AcceptKeepsInv(w: World, t: TaskId, e: GetEvent)
    requires e.Accept? && CanGet(w, t, e) && Inv(w)
    ensures Inv(Step(w, Get(t, e)))
  {
    BoundWasBound(w, w.registry);
    AcceptIsTaskChange(w, t, e);
    TaskChangeKeepsInv(w, Step(w, Get(t, e)), t, TaskAfterGet(w, t, e));
  }

  lemma FrameKeepsInv(w: World, t: TaskId, e: GetEvent)
    requires e.Frame? && CanGet(w, t, e) && Inv(w)
    ensures Inv(Step(w, Get(t, e)))
  {
    BoundWasBound(w, w.registry);
    FrameIsTaskChange(w, t, e);
    TaskChangeKeepsInv(w, Step(w, Get(t, e)), t, TaskAfterGet(w, t, e));
  }

  ghost predicate Admission(w: World, w': World, t: TaskId, nonce: Nonce, admitted: bool) {
    && InPhase(w, t, Accepted) && nonce !in w.usedNonces
    && var k := w.tasks[t];
    && var g := Sweep(w.registry, k.stamp, w.done);
    && admitted == Admits(g, w.enabled)
    && w'.registry == (if admitted then Reserve(g, nonce, t, k.stamp) else g)
    && w'.tasks.Keys == w.tasks.Keys
    && (forall u :: u in w.tasks && u != t ==> w'.tasks[u] == w.tasks[u])
    && (var k' := w'.tasks[t];
        && TaskShape(k') && k'.session == None && !k'.bound && (NotAdmitted(k') <==> !admitted)
        && (admitted ==> k'.nonce == nonce && k'.firstFrameDeadline == k.stamp + FIRST_FRAME_TIMEOUT_SECONDS))
    && w'.usedNonces == w.usedNonces + {nonce} && w'.everBound == w.everBound && w'.minted == w.minted
    && w'.enabled == w.enabled && w'.drained == w.drained && w'.gate == w.gate
  }

  lemma AdmissionKeepsReservation(w: World, w': World, t: TaskId, nonce: Nonce, admitted: bool, n: Nonce)
    requires Admission(w, w', t, nonce, admitted) && TaskShape(w.tasks[t]) && n in w'.registry.reservations
    requires n in w.registry.reservations ==> ReservationOk(w, n)
    ensures ReservationOk(w', n)
  {
  }

  lemma AdmissionKeepsBinding(w: World, w': World, t: TaskId, nonce: Nonce, admitted: bool, s: SessionId)
    requires Admission(w, w', t, nonce, admitted) && TaskShape(w.tasks[t]) && s in w'.registry.bindings
    requires s in w.registry.bindings ==> BindingOk(w, s)
    ensures BindingOk(w', s)
  {
  }

  lemma AdmissionKeepsOwned(w: World, w': World, t: TaskId, nonce: Nonce, admitted: bool)
    requires Shapes(w) && Owned(w) && Admission(w, w', t, nonce, admitted)
    ensures Owned(w')
  {
    forall n | n in w'.registry.reservations
      ensures ReservationOk(w', n)
    {
      AdmissionKeepsReservation(w, w', t, nonce, admitted, n);
    }
    forall s | s in w'.registry.bindings
      ensures BindingOk(w', s)
    {
      AdmissionKeepsBinding(w, w', t, nonce, admitted, s);
    }
  }

  lemma AdmissionKeepsSessions(w: World, w': World, t: TaskId, nonce: Nonce, admitted: bool)
    requires Inv(w) && Admission(w, w', t, nonce, admitted)
    ensures Shapes(w') && Sessions(w')
  {
    assert TaskShape(w.tasks[t]);
    assert forall u :: u in w.tasks ==>
      w'.tasks[u].session == w.tasks[u].session && w'.tasks[u].bound == w.tasks[u].bound;
  }

  lemma AdmissionKeepsBounds(w: World, w': World, t: TaskId, nonce: Nonce, admitted: bool)
    requires Entries(w.registry) <= MAX_MCP_CONNECTIONS && SwitchedOffIsEmpty(w)
    requires Admission(w, w', t, nonce, admitted)
    ensures Entries(w'.registry) <= MAX_MCP_CONNECTIONS && SwitchedOffIsEmpty(w')
  {
    var g := Sweep(w.registry, w.tasks[t].stamp, w.done);
    BelowIsSmaller(g, w.registry);
    assert Reserve(g, nonce, t, w.tasks[t].stamp).reservations.Keys == g.reservations.Keys + {nonce};
  }

  lemma AdmissionKeepsInv(w: World, w': World, t: TaskId, nonce: Nonce, admitted: bool)
    requires Inv(w) && Admission(w, w', t, nonce, admitted)
    ensures Inv(w')
  {
    AdmissionKeepsOwned(w, w', t, nonce, admitted);
    AdmissionKeepsSessions(w, w', t, nonce, admitted);
    AdmissionKeepsBounds(w, w', t, nonce, admitted);
  }

  lemma AdmitIsAdmission(w: World, t: TaskId, e: GetEvent)
    requires e.Admit? && CanGet(w, t, e) && TaskShape(w.tasks[t])
    requires w.everBound + Sweep(w.registry, w.tasks[t].stamp, w.done).bindings.Keys == w.everBound
    ensures Admission(w, Step(w, Get(t, e)), t, e.nonce, AdmitSucceeds(w, t))
  {
  }

  lemma SweepIsBelow(g: Registry, now: real, done: set<TaskId>)
    ensures Below(Sweep(g, now, done), g)
  {
  }

  lemma AdmitKeepsInv(w: World, t: TaskId, e: GetEvent)
    requires e.Admit? && CanGet(w, t, e) && Inv(w)
    ensures Inv(Step(w, Get(t, e)))
  {
    SweepIsBelow(w.registry, w.tasks[t].stamp, w.done);
    BoundWasBound(w, Sweep(w.registry, w.tasks[t].stamp, w.done));
    AdmitIsAdmission(w, t, e);
    AdmissionKeepsInv(w, Step(w, Get(t, e)), t, e.nonce, AdmitSucceeds(w, t));
  }

  ghost predicate Promotion(w: World, w': World, t: TaskId, b: Binding) {
    && InPhase(w, t, Framed) && PromoteSucceeds(w, t) && w.tasks[t].session.Some?
    && var k := w.tasks[t];
    && w'.registry == McpRegistry.Promote(w.registry, k.nonce, k.session.value, b)
    && w'.tasks == w.tasks[t := k.(phase := Bound, bound := true, promotedAt := w.clock, limit := b.deadline)]
    && b == NewBinding(k.tokenId, t, b.deadline, k.stamp)
    && b.deadline <= k.stamp + MAX_BINDING_SECONDS
    && w'.everBound == w.everBound + {k.session.value}
    && w'.usedNonces == w.usedNonces && w'.minted == w.minted
    && w'.enabled == w.enabled && w'.drained == w.drained && w'.gate == w.gate
  }

  lemma PromotionKeepsOwned(w: World, w': World, t: TaskId, b: Binding)
    requires Inv(w) && Promotion(w, w', t, b)
    ensures Owned(w')
  {
    var k := w.tasks[t];
    assert TaskShape(k) && ReservationOk(w, k.nonce);
    forall n | n in w'.registry.reservations
      ensures ReservationOk(w', n)
    {
      assert ReservationOk(w, n);
    }
    forall s | s in w'.registry.bindings
      ensures BindingOk(w', s)
    {
      if s != k.session.value {
        assert BindingOk(w, s);
      }
    }
  }

  /** One task's session becomes bound; ids and everything else about sessions stay. */
  lemma BindingKeepsSessions(w: World, w': World, t: TaskId, s: SessionId)
    requires Sessions(w) && t in w.tasks && w.tasks[t].session == Some(s)
    requires w'.tasks.Keys == w.tasks.Keys && w'.tasks[t].bound
    requires forall u :: u in w.tasks ==> w'.tasks[u].session == w.tasks[u].session
    requires forall u :: u in w.tasks && u != t ==> w'.tasks[u].bound == w.tasks[u].bound
    requires w'.everBound == w.everBound + {s} && w'.minted == w.minted
    ensures Sessions(w')
  {
  }

  lemma PromotionKeepsSessions(w: World, w': World, t: TaskId, b: Binding)
    requires Shapes(w) && Sessions(w) && Promotion(w, w', t, b)
    ensures Shapes(w') && Sessions(w')
  {
    assert TaskShape(w.tasks[t]);
    BindingKeepsSessions(w, w', t, w.tasks[t].session.value);
  }

  lemma PromotionKeepsInv(w: World, w': World, t: TaskId, b: Binding)
    requires Inv(w) && Promotion(w, w', t, b)
    ensures Inv(w') && Entries(w'.registry) == Entries(w.registry)
  {
    PromotionKeepsOwned(w, w', t, b);
    PromotionKeepsSessions(w, w', t, b);
    PromotionMovesOneEntry(w, t);
    MovingKeepsCount(w.registry, w.tasks[t].nonce, w.tasks[t].session.value, b);
  }

  lemma MovingKeepsCount(g: Registry, n: Nonce, s: SessionId, b: Binding)
    requires n in g.reservations && s !in g.bindings
    ensures Entries(McpRegistry.Promote(g, n, s, b)) == Entries(g)
  {
    RemovalCounts(g.reservations, n);
    AdditionCounts(g.bindings, s, b);
  }

  lemma RemovalCounts<K, V>(m: map<K, V>, k: K)
    requires k in m
    ensures |m - {k}| == |m| - 1
  {
    assert (m - {k}).Keys == m.Keys - {k};
  }

  lemma AdditionCounts<K, V>(m: map<K, V>, k: K, v: V)
    requires k !in m
    ensures |m[k := v]| == |m| + 1
  {
    assert m[k := v].Keys == m.Keys + {k};
  }

  /** A promotion overwrites nobody's binding. */
  lemma PromotionMovesOneEntry(w: World, t: TaskId)
    requires Inv(w) && InPhase(w, t, Framed) && w.tasks[t].session.Some?
    ensures w.tasks[t].session.value !in w.registry.bindings
  {
    var s := w.tasks[t].session.value;
    assert s in w.registry.bindings ==> BindingOk(w, s);
    assert TaskShape(w.tasks[t]);
  }

  lemma PromoteIsPromotion(w: World, t: TaskId, e: GetEvent)
    requires e.Promote? && CanGet(w, t, e) && PromoteSucceeds(w, t) && TaskShape(w.tasks[t])
    requires w.everBound + w.registry.bindings.Keys == w.everBound
    ensures Promotion(w, Step(w, Get(t, e)), t, PromotedBinding(w, t))
  {
    var w' := Step(w, Get(t, e));
    assert w'.registry.bindings.Keys == w.registry.bindings.Keys + {w.tasks[t].session.value};
  }

  lemma PromoteKeepsInv(w: World, t: TaskId, e: GetEvent)
    requires e.Promote? && CanGet(w, t, e) && PromoteSucceeds(w, t) && Inv(w)
    ensures Inv(Step(w, Get(t, e)))
    ensures Entries(Step(w, Get(t, e)).registry) == Entries(w.registry)
  {
    BoundWasBound(w, w.registry);
    PromoteIsPromotion(w, t, e);
    PromotionKeepsInv(w, Step(w, Get(t, e)), t, PromotedBinding(w, t));
  }

  lemma StepKeepsInv(w: World, e: Event)
    requires CanStep(w, e) && Inv(w)
    ensures Inv(Step(w, e))
  {
    if Quiet(w, e) {
      QuietFollows(w, e);
      FollowingKeepsInv(w, Step(w, e));
    } else {
      match e.get
      case Accept(_, _) => AcceptKeepsInv(w, e.task, e.get);
      case Admit(_) => AdmitKeepsInv(w, e.task, e.get);
      case Frame(_) => FrameKeepsInv(w, e.task, e.get);
      case Promote => PromoteKeepsInv(w, e.task, e.get);
    }
  }

  /** Main result: along every run at most 32 entries, one per task, all open for POSTs, none while switched off. */
  lemma {:induction false} RunKeepsInv(ws: seq<World>, es: seq<Event>, i: nat)
    requires Run(ws, es) && i < |ws|
    ensures Inv(ws[i])
  {
    if i > 0 {
      RunKeepsInv(ws, es, i - 1);
      StepKeepsInv(ws[i - 1], es[i - 1]);
    }
  }

  lemma InvMeansOneEntryPerOwner(w: World)
    requires Inv(w)
    ensures OneEntryPerOwner(w.registry)
  {
    assert forall n :: n in w.registry.reservations ==> ReservationOk(w, n);
    assert forall s :: s in w.registry.bindings ==> BindingOk(w, s);
  }

  /**
   In every reachable state there are at most 32 entries, no task has two, every
   registered binding takes POSTs and ends within an hour, and the registry is empty
   whenever connectivity is off, unless the last disable has not emptied it yet or was
   cancelled before it did.
   */
  lemma RegistrySafety(ws: seq<World>, es: seq<Event>, i: nat)
    requires Run(ws, es) && i < |ws|
    ensures var w := ws[i];
            && Entries(w.registry) <= 32
            && OneEntryPerOwner(w.registry)
            && (forall s :: s in w.registry.bindings ==>
                 var b := w.registry.bindings[s];
                 !b.closing && b.enqueueable && b.deadline <= b.createdAt + 3600.0)
            && (!w.enabled && w.drained ==> w.registry == EMPTY)
  {
    RunKeepsInv(ws, es, i);
    InvMeansOneEntryPerOwner(ws[i]);
    assert forall s :: s in ws[i].registry.bindings ==> BindingOk(ws[i], s);
  }

  // ---- While connectivity is off ----

  /** Nothing enters the registry while connectivity is off. */
  lemma StepWhileOff(w: World, e: Event)
    requires CanStep(w, e) && !w.enabled
    ensures Below(NextRegistry(w, e), w.registry)
  {
    if Quiet(w, e) {
      QuietIsBelow(w, e);
    }
  }

  lemma RunWhileOff(ws: seq<World>, es: seq<Event>, k: nat)
    requires Run(ws, es) && k < |es| && !ws[k].enabled
    ensures Below(ws[k + 1].registry, ws[k].registry)
  {
    StepWhileOff(ws[k], es[k]);
  }

  lemma WhileOffOnlyShrinks(ws: seq<World>, es: seq<Event>, i: nat, j: nat)
    requires Run(ws, es) && i <= j < |ws| && forall k :: i <= k < j ==> !ws[k].enabled
    ensures Below(ws[j].registry, ws[i].registry)
  {
    forall k | i <= k < j
      ensures Below(ws[k + 1].registry, ws[k].registry)
    {
      RunWhileOff(ws, es, k);
    }
    ShrinksOverTime(ws, i, j);
  }

  lemma {:induction false} ShrinksOverTime(ws: seq<World>, i: nat, j: nat)
    requires i <= j < |ws| && forall k :: i <= k < j ==> Below(ws[k + 1].registry, ws[k].registry)
    ensures Below(ws[j].registry, ws[i].registry)
    decreases j
  {
    if i < j {
      ShrinksOverTime(ws, i, j - 1);
      assert Below(ws[j - 1 + 1].registry, ws[j - 1].registry);
      BelowIsTransitive(ws[j].registry, ws[j - 1].registry, ws[i].registry);
    }
  }

  lemma BelowIsTransitive(a: Registry, b: Registry, c: Registry)
    requires Below(a, b) && Below(b, c)
    ensures Below(a, c)
  {
  }

  /** Once the registry has been drained it stays empty for as long as connectivity is off. */
  lemma DrainedStaysEmpty(ws: seq<World>, es: seq<Event>, k: nat, j: nat)
    requires Run(ws, es) && k < j < |ws| && es[k] == Gateway(Drain)
    requires forall m :: k < m < j ==> !ws[m].enabled
    ensures ws[j].registry == EMPTY
  {
    assert ws[k + 1].registry == NextRegistry(ws[k], es[k]) == EMPTY;
    WhileOffOnlyShrinks(ws, es, k + 1, j);
    assert ws[j].registry.reservations == map[] && ws[j].registry.bindings == map[];
  }

  /** A disable that was followed by no drain before `i`. */
  ghost predicate CutShort(es: seq<Event>, k: int, i: int) {
    0 <= k < i <= |es| && es[k] == Gateway(Disable) && forall m :: k < m < i ==> es[m] != Gateway(Drain)
  }

  /** The registry counts as drained exactly if no disable is still to empty it, or was kept from it. */
  lemma {:induction false} UndrainedIff(ws: seq<World>, es: seq<Event>, i: nat)
    requires Run(ws, es) && i < |ws|
    ensures !ws[i].drained <==> exists k :: CutShort(es, k, i)
  {
    if i > 0 {
      UndrainedIff(ws, es, i - 1);
      assert ws[i] == Step(ws[i - 1], es[i - 1]);
      if es[i - 1] == Gateway(Disable) {
        assert CutShort(es, i - 1, i);
      } else if es[i - 1] != Gateway(Drain) && !ws[i].drained {
        var k :| CutShort(es, k, i - 1);
        assert CutShort(es, k, i);
      }
      if k :| CutShort(es, k, i) && k < i - 1 {
        assert es[i - 1] != Gateway(Drain) && CutShort(es, k, i - 1);
      }
    }
  }

  /** So the two liveness tests of the POST guard are implied by the others. */
  lemma LivenessTestsAreImplied(ws: seq<World>, es: seq<Event>, i: nat)
    requires Run(ws, es) && i < |ws| && ws[i].gate.PostValid?
    ensures var w := ws[i];
            var g := Sweep(w.registry, w.gate.stamp, w.done);
            DecideSucceeds(w) <==>
              HasToken(g, w.gate.session, w.gate.tokenId) && w.gate.stamp < g.bindings[w.gate.session].deadline
  {
    RunKeepsInv(ws, es, i);
    var w := ws[i];
    assert w.gate.session in w.registry.bindings ==> BindingOk(w, w.gate.session);
  }

  /** An admission or a promotion leaves the bindings that were there as they were. */
  lemma LoudKeepsBinding(w: World, t: TaskId, e: GetEvent, s: SessionId)
    requires Inv(w) && CanGet(w, t, e) && !Quiet(w, Get(t, e))
    requires s in w.registry.bindings && s in RegistryAfterGet(w, t, e).bindings
    ensures RegistryAfterGet(w, t, e).bindings[s] == w.registry.bindings[s]
  {
    if e.Promote? {
      assert TaskShape(w.tasks[t]);
      PromotionMovesOneEntry(w, t);
    }
  }

  predicate NoLonger(before: Binding, after: Binding) {
    after.deadline <= before.deadline && after.createdAt == before.createdAt
  }

  lemma QuietIsNoLonger(w: World, e: Event, g: Registry, s: SessionId)
    requires CanStep(w, e) && Quiet(w, e) && g == NextRegistry(w, e)
    requires s in w.registry.bindings && s in g.bindings
    ensures NoLonger(w.registry.bindings[s], g.bindings[s])
  {
    QuietIsBelow(w, e);
  }

  /** A step never lengthens the deadline of a binding that stays registered. */
  lemma DeadlineNeverGrows(w: World, e: Event, s: SessionId)
    requires Inv(w) && CanStep(w, e)
    requires s in w.registry.bindings && s in NextRegistry(w, e).bindings
    ensures NoLonger(w.registry.bindings[s], NextRegistry(w, e).bindings[s])
  {
    if Quiet(w, e) {
      QuietIsNoLonger(w, e, NextRegistry(w, e), s);
    } else {
      LoudKeepsBinding(w, e.task, e.get, s);
    }
  }
}
