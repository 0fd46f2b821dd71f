/** Which POSTs ever reach the SDK, stated on what an observer of the guard sees. */
module McpDelivery {
  import opened Wrappers
  import opened McpRegistry
  import opened McpProtocol
  import opened McpSafety

  // ---- Statement ----

  ghost predicate WasRemoved(tr: seq<Observation>, s: SessionId) {
    exists j :: 0 <= j < |tr| && tr[j].Removed? && s in tr[j].sessions
  }

  /** The connectivity switch as last observed. */
  ghost predicate SwitchedOn(tr: seq<Observation>) {
    if tr == [] then false
    else var last := tr[|tr| - 1];
         if last.Switched? then last.on else SwitchedOn(tr[..|tr| - 1])
  }

  /** The token of POST `p` was validated after that POST had entered the gate. */
  ghost predicate ValidatedDuring(tr: seq<Observation>, p: nat, tok: TokenId) {
    exists b :: 0 <= b < |tr| && tr[b] == PostValidated(p, tok) && PostBegan(p) in tr[..b]
  }

  /** Some GET that had validated `tok` opened `s`, and `deadline` respects what that GET was granted. */
  ghost predicate OpenedWith(tr: seq<Observation>, s: SessionId, tok: TokenId, deadline: real) {
    exists task, expiresAt, createdAt, limit ::
      && Opened(s, task, tok, expiresAt, createdAt, limit) in tr
      && GetValidated(task, tok) in tr
      && deadline <= limit <= createdAt + MAX_BINDING_SECONDS
  }

  ghost predicate DeliveryOk(past: seq<Observation>, o: Observation)
    requires o.Delivered?
  {
    && ValidatedDuring(past, o.post, o.tokenId)
    && OpenedWith(past, o.session, o.tokenId, o.deadline)
    && o.stamp < o.deadline
    && SwitchedOn(past)
    && !WasRemoved(past, o.session)
  }

  ghost predicate SafeTrace(tr: seq<Observation>) {
    forall i :: 0 <= i < |tr| && tr[i].Delivered? ==> DeliveryOk(tr[..i], tr[i])
  }

  // ---- Invariant ----

  ghost predicate BindingSeen(w: World, s: SessionId)
    requires s in w.registry.bindings
  {
    var b := w.registry.bindings[s];
    && b.owner in w.tasks
    && Opened(s, b.owner, b.tokenId, w.tasks[b.owner].expiresAt, b.createdAt, w.tasks[b.owner].limit) in w.trace
    && !WasRemoved(w.trace, s)
  }

  ghost predicate GateSeen(gate: Gate, nextPost: nat, tr: seq<Observation>) {
    match gate
    case PostEntered(p, _) => PostBegan(p) in tr
    case PostValid(p, _, tok, _) => ValidatedDuring(tr, p, tok)
    case _ => true
  }

  ghost predicate TraceInv(w: World) {
    && (forall s :: s in w.registry.bindings ==> BindingSeen(w, s))
    && (forall s :: WasRemoved(w.trace, s) ==> s in w.everBound)
    && (forall t :: t in w.tasks ==> GetValidated(t, w.tasks[t].tokenId) in w.trace)
    && SwitchedOn(w.trace) == w.enabled
    && GateSeen(w.gate, w.nextPost, w.trace)
    && SafeTrace(w.trace)
  }

  // ---- How the parts grow with the trace ----

  lemma RemovedGrows(tr: seq<Observation>, o: Observation, s: SessionId)
    ensures WasRemoved(tr + [o], s) <==> WasRemoved(tr, s) || (o.Removed? && s in o.sessions)
  {
    var tr' := tr + [o];
    assert tr'[|tr|] == o;
    if WasRemoved(tr, s) {
      var j :| 0 <= j < |tr| && tr[j].Removed? && s in tr[j].sessions;
      assert tr'[j] == tr[j];
    }
    if WasRemoved(tr', s) {
      var j :| 0 <= j < |tr'| && tr'[j].Removed? && s in tr'[j].sessions;
      assert j < |tr| ==> tr[j] == tr'[j];
    }
  }

  lemma SwitchGrows(tr: seq<Observation>, o: Observation)
    ensures SwitchedOn(tr + [o]) == if o.Switched? then o.on else SwitchedOn(tr)
  {
    assert (tr + [o])[..|tr|] == tr;
  }

  lemma ValidatedGrows(tr: seq<Observation>, o: Observation, p: nat, tok: TokenId)
    requires ValidatedDuring(tr, p, tok) || (o == PostValidated(p, tok) && PostBegan(p) in tr)
    ensures ValidatedDuring(tr + [o], p, tok)
  {
    var tr' := tr + [o];
    if ValidatedDuring(tr, p, tok) {
      var b :| 0 <= b < |tr| && tr[b] == PostValidated(p, tok) && PostBegan(p) in tr[..b];
      assert tr'[b] == tr[b] && tr'[..b] == tr[..b];
    } else {
      assert tr'[|tr|] == o && tr'[..|tr|] == tr;
    }
  }

  lemma SafeGrows(tr: seq<Observation>, o: Observation)
    requires SafeTrace(tr) && (o.Delivered? ==> DeliveryOk(tr, o))
    ensures SafeTrace(tr + [o])
  {
    var tr' := tr + [o];
    forall i | 0 <= i < |tr'| && tr'[i].Delivered?
      ensures DeliveryOk(tr'[..i], tr'[i])
    {
      assert tr'[..i] == tr[..i];
      assert i == |tr| ==> tr[..i] == tr;
    }
  }

  // ---- Preservation, in two halves: the sessions that leave, then the note ----

  /** The world after the registry section, before its own observation is noted. */
  ghost predicate Departure(w: World, w1: World) {
    && w1.trace == w.trace + [Removed(w.registry.bindings.Keys - w1.registry.bindings.Keys)]
    && w1.tasks == w.tasks && w1.enabled == w.enabled && w1.gate == w.gate && w1.nextPost == w.nextPost
    && w1.everBound == w.everBound
    && forall s :: s in w1.registry.bindings ==>
         s in w.registry.bindings && SameBinding(w1.registry.bindings[s], w.registry.bindings[s])
  }

  lemma DepartureKeepsTraceInv(w: World, w1: World)
    requires Inv(w) && TraceInv(w) && Departure(w, w1)
    ensures TraceInv(w1)
  {
    var o := Removed(w.registry.bindings.Keys - w1.registry.bindings.Keys);
    forall s
      ensures WasRemoved(w1.trace, s) <==> WasRemoved(w.trace, s) || s in o.sessions
    {
      RemovedGrows(w.trace, o, s);
    }
    forall s | s in w1.registry.bindings
      ensures BindingSeen(w1, s)
    {
      assert BindingSeen(w, s);
    }
    forall s | WasRemoved(w1.trace, s)
      ensures s in w1.everBound
    {
      assert s in o.sessions ==> BindingOk(w, s);
    }
    SwitchGrows(w.trace, o);
    SafeGrows(w.trace, o);
    if w.gate.PostValid? {
      ValidatedGrows(w.trace, o, w.gate.post, w.gate.tokenId);
    }
  }

  ghost predicate SwitchFollows(w1: World, w': World, notes: seq<Observation>) {
    w'.enabled == if |notes| == 1 && notes[0].Switched? then notes[0].on else w1.enabled
  }

  ghost predicate NotesOk(past: seq<Observation>, notes: seq<Observation>) {
    && |notes| <= 1
    && forall o :: o in notes ==> !o.Removed? && (o.Delivered? ==> DeliveryOk(past, o))
  }

  predicate SameGrant(k: GetTask, k': GetTask) { k.limit == k'.limit && k.expiresAt == k'.expiresAt }

  /** A binding was there before, or the note opens it under an id that was never removed. */
  ghost predicate BindingNoted(w1: World, bindings: map<SessionId, Binding>, tasks: map<TaskId, GetTask>,
                               notes: seq<Observation>, s: SessionId)
    requires s in bindings
  {
    var b := bindings[s];
    && b.owner in tasks
    && (|| (s in w1.registry.bindings && b == w1.registry.bindings[s]
            && b.owner in w1.tasks && SameGrant(tasks[b.owner], w1.tasks[b.owner]))
        || (&& Opened(s, b.owner, b.tokenId, tasks[b.owner].expiresAt, b.createdAt, tasks[b.owner].limit) in notes
            && !WasRemoved(w1.trace, s)))
  }

  predicate TaskNoted(before: map<TaskId, GetTask>, tasks: map<TaskId, GetTask>, notes: seq<Observation>, t: TaskId)
    requires t in tasks
  {
    || (t in before && before[t].tokenId == tasks[t].tokenId)
    || GetValidated(t, tasks[t].tokenId) in notes
  }

  /** From a departed world `w1` to the step's end `w'`: at most one observation, about at most one new binding. */
  ghost predicate Noted(w1: World, w': World, notes: seq<Observation>) {
    && NotesOk(w1.trace, notes)
    && w'.trace == w1.trace + notes
    && (forall s :: s in w'.registry.bindings ==> BindingNoted(w1, w'.registry.bindings, w'.tasks, notes, s))
    && w1.everBound <= w'.everBound
    && (forall t :: t in w'.tasks ==> TaskNoted(w1.tasks, w'.tasks, notes, t))
    && SwitchFollows(w1, w', notes)
    && GateSeen(w'.gate, w'.nextPost, w'.trace)
  }

  lemma NoteKeepsTraceInv(w1: World, w': World, notes: seq<Observation>)
    requires TraceInv(w1) && Noted(w1, w', notes)
    ensures TraceInv(w')
  {
    if notes == [] {
      assert w'.trace == w1.trace;
    } else {
      var o := notes[0];
      assert notes == [o] && o in notes;
      forall s
        ensures WasRemoved(w'.trace, s) <==> WasRemoved(w1.trace, s)
      {
        RemovedGrows(w1.trace, o, s);
      }
      SwitchGrows(w1.trace, o);
      SafeGrows(w1.trace, o);
    }
    forall s | s in w'.registry.bindings
      ensures BindingSeen(w', s)
    {
      assert BindingNoted(w1, w'.registry.bindings, w'.tasks, notes, s);
      assert s in w1.registry.bindings ==> BindingSeen(w1, s);
    }
    forall t | t in w'.tasks
      ensures GetValidated(t, w'.tasks[t].tokenId) in w'.trace
    {
      assert TaskNoted(w1.tasks, w'.tasks, notes, t);
    }
  }

  /** A decision to enqueue is a delivery that the statement allows. */
  lemma DecisionIsOk(w: World, past: seq<Observation>)
    requires w.gate.PostValid? && DecideSucceeds(w) && w.gate.session in w.registry.bindings
    requires BindingOk(w, w.gate.session) && BindingSeen(w, w.gate.session)
    requires GetValidated(w.registry.bindings[w.gate.session].owner, w.gate.tokenId) in w.trace
    requires SwitchedOn(w.trace) && ValidatedDuring(w.trace, w.gate.post, w.gate.tokenId)
    requires var g := Sweep(w.registry, w.gate.stamp, w.done);
             past == w.trace + [Removed(w.registry.bindings.Keys - g.bindings.Keys)]
    ensures var g := Sweep(w.registry, w.gate.stamp, w.done);
            DeliveryOk(past, Delivered(w.gate.post, w.gate.session, w.gate.tokenId, w.gate.stamp, w.clock,
                                       g.bindings[w.gate.session].deadline))
  {
    var g := Sweep(w.registry, w.gate.stamp, w.done);
    var o := Removed(w.registry.bindings.Keys - g.bindings.Keys);
    var s := w.gate.session;
    var b := g.bindings[s];
    RemovedGrows(w.trace, o, s);
    SwitchGrows(w.trace, o);
    ValidatedGrows(w.trace, o, w.gate.post, w.gate.tokenId);
    assert Opened(s, b.owner, b.tokenId, w.tasks[b.owner].expiresAt, b.createdAt, w.tasks[b.owner].limit) in past;
    assert GetValidated(b.owner, b.tokenId) in past;
  }

  /** The registry section of a step seen on its own; a promotion removes nobody. */
  ghost function Departed(w: World, e: Event): World
    requires CanStep(w, e)
  {
    var g := NextRegistry(w, e);
    var bindings := if e.Get? && e.get.Promote? then w.registry.bindings else g.bindings;
    w.(registry := Registry(g.reservations, bindings),
       trace := w.trace + [Removed(w.registry.bindings.Keys - g.bindings.Keys)])
  }

  lemma QuietDeparts(w: World, e: Event)
    requires CanStep(w, e) && (Quiet(w, e) || !e.get.Promote?)
    ensures Departure(w, Departed(w, e))
  {
    SameBindings(w, e);
    if Quiet(w, e) {
      QuietIsBelow(w, e);
    }
  }

  lemma PromotionRemovesNone(w: World, t: TaskId, e: GetEvent)
    requires e.Promote? && CanGet(w, t, e)
    ensures w.registry.bindings.Keys - RegistryAfterGet(w, t, e).bindings.Keys == {}
  {
  }

  lemma StepDeparts(w: World, e: Event)
    requires CanStep(w, e)
    ensures Departure(w, Departed(w, e))
  {
    if Quiet(w, e) || !e.get.Promote? {
      QuietDeparts(w, e);
    } else {
      PromotionRemovesNone(w, e.task, e.get);
      assert w.registry.bindings.Keys - w.registry.bindings.Keys == {};
    }
  }

  lemma ValidatedStays(tr: seq<Observation>, more: seq<Observation>, p: nat, tok: TokenId)
    requires ValidatedDuring(tr, p, tok)
    ensures ValidatedDuring(tr + more, p, tok)
  {
    var tr' := tr + more;
    var b :| 0 <= b < |tr| && tr[b] == PostValidated(p, tok) && PostBegan(p) in tr[..b];
    assert tr'[b] == tr[b] && tr'[..b] == tr[..b];
  }

  lemma GateIsSeen(w: World, e: Event)
    requires CanStep(w, e) && TraceInv(w)
    ensures var w' := Step(w, e); GateSeen(w'.gate, w'.nextPost, w'.trace)
  {
    var g := NextRegistry(w, e);
    var o := Removed(w.registry.bindings.Keys - g.bindings.Keys);
    var tr := w.trace + [o];
    if e.Gateway? && e.gateway.PostValidate? && e.gateway.verdict.Valid? {
      var tok := e.gateway.verdict.tokenId;
      ValidatedGrows(tr, PostValidated(w.gate.post, tok), w.gate.post, tok);
    } else if !e.Gateway? && w.gate.PostValid? {
      ValidatedStays(w.trace, [o], w.gate.post, w.gate.tokenId);
      ValidatedStays(tr, Notes(w, e), w.gate.post, w.gate.tokenId);
    }
  }

  lemma OneNote(w: World, e: Event)
    requires CanStep(w, e)
    ensures |Notes(w, e)| <= 1
    ensures forall o :: o in Notes(w, e) ==>
              && !o.Removed?
              && (o.Delivered? ==> e.Gateway? && e.gateway.PostDecide? && DecideSucceeds(w))
  {
  }

  lemma NotesAreOk(w: World, e: Event)
    requires CanStep(w, e) && Inv(w) && TraceInv(w)
    ensures NotesOk(Departed(w, e).trace, Notes(w, e))
  {
    OneNote(w, e);
    if e.Gateway? && e.gateway.PostDecide? && DecideSucceeds(w) {
      DecidedNoteIsOk(w, e);
    }
  }

  lemma DecidedNoteIsOk(w: World, e: Event)
    requires CanStep(w, e) && Inv(w) && TraceInv(w)
    requires e.Gateway? && e.gateway.PostDecide? && DecideSucceeds(w)
    ensures |Notes(w, e)| == 1 && DeliveryOk(Departed(w, e).trace, Notes(w, e)[0])
  {
    var g := Sweep(w.registry, w.gate.stamp, w.done);
    var after := NextRegistry(w, e);
    assert after == Touch(g, w.gate.session, w.gate.stamp);
    assert after.bindings.Keys == g.bindings.Keys;
    assert BindingOk(w, w.gate.session) && BindingSeen(w, w.gate.session);
    DecisionIsOk(w, Departed(w, e).trace);
  }

  lemma PromotedIsNoted(w: World, t: TaskId, e: GetEvent, s: SessionId)
    requires e.Promote? && CanGet(w, t, e) && PromoteSucceeds(w, t) && w.tasks[t].session == Some(s)
    requires !WasRemoved(w.trace, s)
    ensures s in RegistryAfterGet(w, t, e).bindings
    ensures BindingNoted(Departed(w, Get(t, e)), RegistryAfterGet(w, t, e).bindings,
                         w.tasks[t := TaskAfterGet(w, t, e)],
                         Notes(w, Get(t, e)), s)
  {
    RemovedGrows(w.trace, Removed(w.registry.bindings.Keys - RegistryAfterGet(w, t, e).bindings.Keys), s);
  }

  lemma OthersAreNoted(w: World, t: TaskId, e: GetEvent, s: SessionId)
    requires e.Promote? && CanGet(w, t, e) && PromoteSucceeds(w, t) && w.tasks[t].session != Some(s)
    requires w.tasks[t].session.Some? && s in RegistryAfterGet(w, t, e).bindings && !w.tasks[t].bound
    requires s in w.registry.bindings ==> BindingOk(w, s)
    ensures BindingNoted(Departed(w, Get(t, e)), RegistryAfterGet(w, t, e).bindings,
                         w.tasks[t := TaskAfterGet(w, t, e)],
                         Notes(w, Get(t, e)), s)
  {
  }

  lemma KeptIsNoted(w1: World, tasks: map<TaskId, GetTask>, notes: seq<Observation>, s: SessionId)
    requires s in w1.registry.bindings
    requires var t := w1.registry.bindings[s].owner;
             t in w1.tasks && t in tasks && SameGrant(tasks[t], w1.tasks[t])
    ensures BindingNoted(w1, w1.registry.bindings, tasks, notes, s)
  {
  }

  /** Only a promotion sets a task's limit, and nothing changes its token's expiry. */
  lemma LimitsStay(w: World, e: Event, t: TaskId)
    requires CanStep(w, e) && t in w.tasks && (Quiet(w, e) || !e.get.Promote?)
    ensures t in NextTasks(w, e) && SameGrant(NextTasks(w, e)[t], w.tasks[t])
  {
  }

  lemma OwnersStay(w: World, e: Event, s: SessionId)
    requires CanStep(w, e) && s in NextRegistry(w, e).bindings && (Quiet(w, e) || !e.get.Promote?)
    ensures s in w.registry.bindings && NextRegistry(w, e).bindings[s].owner == w.registry.bindings[s].owner
  {
    if Quiet(w, e) {
      QuietIsBelow(w, e);
    }
  }

  lemma BindingIsNoted(w: World, e: Event, s: SessionId)
    requires CanStep(w, e) && Inv(w) && TraceInv(w) && s in NextRegistry(w, e).bindings
    ensures BindingNoted(Departed(w, e), NextRegistry(w, e).bindings, NextTasks(w, e), Notes(w, e), s)
  {
    if !Quiet(w, e) && e.get.Promote? {
      assert TaskShape(w.tasks[e.task]);
      if w.tasks[e.task].session == Some(s) {
        PromotedIsNoted(w, e.task, e.get, s);
      } else {
        OthersAreNoted(w, e.task, e.get, s);
      }
    } else {
      OwnersStay(w, e, s);
      assert BindingOk(w, s);
      LimitsStay(w, e, w.registry.bindings[s].owner);
      SameBindings(w, e);
      KeptIsNoted(Departed(w, e), NextTasks(w, e), Notes(w, e), s);
    }
  }

  lemma SameBindings(w: World, e: Event)
    requires CanStep(w, e) && (Quiet(w, e) || !e.get.Promote?)
    ensures Departed(w, e).registry.bindings == NextRegistry(w, e).bindings
  {
  }

  lemma TaskIsNoted(w: World, e: Event, t: TaskId)
    requires CanStep(w, e) && Inv(w) && t in NextTasks(w, e)
    ensures TaskNoted(w.tasks, NextTasks(w, e), Notes(w, e), t)
  {
    if Quiet(w, e) {
      QuietTasks(w, e);
    }
  }

  lemma StepIsNoted(w: World, e: Event)
    requires CanStep(w, e) && Inv(w) && TraceInv(w)
    ensures Noted(Departed(w, e), Step(w, e), Notes(w, e))
  {
    NotesAreOk(w, e);
    GateIsSeen(w, e);
    forall s | s in NextRegistry(w, e).bindings
      ensures BindingNoted(Departed(w, e), NextRegistry(w, e).bindings, NextTasks(w, e), Notes(w, e), s)
    {
      BindingIsNoted(w, e, s);
    }
    forall t | t in NextTasks(w, e)
      ensures TaskNoted(w.tasks, NextTasks(w, e), Notes(w, e), t)
    {
      TaskIsNoted(w, e, t);
    }
  }

  lemma StepKeepsTraceInv(w: World, e: Event)
    requires CanStep(w, e) && Inv(w) && TraceInv(w)
    ensures TraceInv(Step(w, e))
  {
    StepDeparts(w, e);
    DepartureKeepsTraceInv(w, Departed(w, e));
    StepIsNoted(w, e);
    NoteKeepsTraceInv(Departed(w, e), Step(w, e), Notes(w, e));
  }

  /**
   Main result: in every run, every POST delivered to the SDK had its token
   validated during that POST, names a session opened by a GET with the same
   token, meets the deadline granted to that GET at the time it read the clock,
   finds connectivity switched on, and its session had never been removed.
   */
  lemma {:induction false} DeliveriesAreSafe(ws: seq<World>, es: seq<Event>, i: nat)
    requires Run(ws, es) && i < |ws|
    ensures SafeTrace(ws[i].trace)
    ensures TraceInv(ws[i])
  {
    if i > 0 {
      DeliveriesAreSafe(ws, es, i - 1);
      RunKeepsInv(ws, es, i - 1);
      StepKeepsTraceInv(ws[i - 1], es[i - 1]);
    } else {
      SwitchGrows([], Switched(ws[0].enabled));
      assert ws[0].trace == [] + [Switched(ws[0].enabled)];
    }
  }

  /** Once a session id has been removed, no later POST for it is delivered. */
  lemma NoDeliveryAfterRemoval(ws: seq<World>, es: seq<Event>, k: nat, i: nat, j: nat)
    requires Run(ws, es) && k < |ws|
    requires i < j < |ws[k].trace| && ws[k].trace[i].Removed? && ws[k].trace[j].Delivered?
    ensures ws[k].trace[j].session !in ws[k].trace[i].sessions
  {
    DeliveriesAreSafe(ws, es, k);
    var tr := ws[k].trace;
    assert DeliveryOk(tr[..j], tr[j]);
    assert tr[..j][i] == tr[i];
  }

  // ---- How late a delivery can be ----

  /** No POST waits longer than `wait` for the registry lock after it has read the clock. */
  ghost predicate PromptDecisions(ws: seq<World>, es: seq<Event>, wait: real)
    requires Run(ws, es)
  {
    forall i :: 0 <= i < |es| && es[i] == Gateway(PostDecide) ==> ws[i].clock <= ws[i].gate.stamp + wait
  }

  ghost predicate WaitsWithin(tr: seq<Observation>, wait: real) {
    forall o :: o in tr && o.Delivered? ==> o.stamp <= o.at <= o.stamp + wait
  }

  predicate GateStamped(w: World) { w.gate.PostValid? ==> w.gate.stamp <= w.clock }

  lemma NotesWaitWithin(w: World, e: Event, wait: real)
    requires CanStep(w, e) && GateStamped(w)
    requires e == Gateway(PostDecide) ==> w.clock <= w.gate.stamp + wait
    ensures WaitsWithin(Notes(w, e), wait)
  {
    if e == Gateway(PostDecide) && DecideSucceeds(w) {
      assert forall o :: o in Notes(w, e) ==> o.Delivered? && o.stamp == w.gate.stamp && o.at == w.clock;
    } else {
      OneNote(w, e);
    }
  }

  lemma WaitsExtend(tr: seq<Observation>, o: Observation, notes: seq<Observation>, wait: real)
    requires WaitsWithin(tr, wait) && WaitsWithin(notes, wait) && o.Removed?
    ensures WaitsWithin(tr + [o] + notes, wait)
  {
  }

  lemma GateStaysStamped(w: World, e: Event)
    requires CanStep(w, e) && GateStamped(w)
    ensures GateStamped(Step(w, e))
  {
  }

  lemma {:induction false} RunWaitsWithin(ws: seq<World>, es: seq<Event>, wait: real, i: nat)
    requires Run(ws, es) && PromptDecisions(ws, es, wait) && i < |ws|
    ensures WaitsWithin(ws[i].trace, wait) && GateStamped(ws[i])
  {
    if i > 0 {
      RunWaitsWithin(ws, es, wait, i - 1);
      var w, e := ws[i - 1], es[i - 1];
      NotesWaitWithin(w, e, wait);
      WaitsExtend(w.trace, Removed(w.registry.bindings.Keys - NextRegistry(w, e).bindings.Keys), Notes(w, e), wait);
      GateStaysStamped(w, e);
    }
  }

  /**
   When POSTs wait at most `wait` for the registry lock, every delivery to a session
   that had more than that left when the POST read the clock happens before the
   session's deadline.
   */
  lemma DeliveriesAreTimely(ws: seq<World>, es: seq<Event>, wait: real, i: nat, j: nat)
    requires Run(ws, es) && PromptDecisions(ws, es, wait)
    requires i < |ws| && j < |ws[i].trace| && ws[i].trace[j].Delivered?
    ensures var o := ws[i].trace[j];
            && o.stamp <= o.at <= o.stamp + wait
            && o.stamp < o.deadline
            && (o.deadline - o.stamp > wait ==> o.at < o.deadline)
  {
    RunWaitsWithin(ws, es, wait, i);
    DeliveriesAreSafe(ws, es, i);
    var o := ws[i].trace[j];
    assert o in ws[i].trace && DeliveryOk(ws[i].trace[..j], o);
  }
}
