/** Close accounting: what becomes of every GET task that was admitted. */
module McpAccounting {
  import opened Wrappers
  import opened McpRegistry
  import opened McpProtocol
  import opened McpSafety

  /** How many of the three fates a task has met: it still owns an entry, it was cancelled, it was released. */
  ghost function Fates(w: World, t: TaskId): nat {
    w.cancels[t] + (if t in Owners(w.registry) then 1 else 0) + (if t in w.released then 1 else 0)
  }

  predicate WasAdmitted(w: World, t: TaskId) { t in w.tasks && !NotAdmitted(w.tasks[t]) }

  ghost predicate Accounted(w: World) {
    forall t :: Fates(w, t) == if WasAdmitted(w, t) then 1 else 0
  }

  lemma BelowOwners(g': Registry, g: Registry)
    requires Below(g', g)
    ensures Owners(g') <= Owners(g)
  {
  }

  /** Only an admission adds an owner, and it adds the admitted task. */
  lemma NewOwners(w: World, e: Event)
    requires CanStep(w, e) && Inv(w)
    ensures var g' := NextRegistry(w, e);
            if e.Get? && e.get.Admit? && AdmitSucceeds(w, e.task)
            then e.task in Owners(g') && Owners(g') <= Owners(w.registry) + {e.task}
            else Owners(g') <= Owners(w.registry)
  {
    if Quiet(w, e) {
      QuietIsBelow(w, e);
      BelowOwners(NextRegistry(w, e), w.registry);
    } else if e.get.Admit? {
      AdmissionOwners(w, e.task, e.get);
    } else if e.get.Promote? {
      PromotionOwners(w, e.task, e.get);
    }
  }

  lemma AdmissionOwners(w: World, t: TaskId, e: GetEvent)
    requires e.Admit? && CanGet(w, t, e)
    ensures var g' := RegistryAfterGet(w, t, e);
            if AdmitSucceeds(w, t) then t in Owners(g') && Owners(g') <= Owners(w.registry) + {t}
            else Owners(g') <= Owners(w.registry)
  {
    var g := Sweep(w.registry, w.tasks[t].stamp, w.done);
    BelowOwners(g, w.registry);
    if AdmitSucceeds(w, t) {
      var g' := RegistryAfterGet(w, t, e);
      assert g'.reservations[e.nonce].owner == t;
    }
  }

  lemma PromotionOwners(w: World, t: TaskId, e: GetEvent)
    requires e.Promote? && CanGet(w, t, e) && PromoteSucceeds(w, t)
    ensures Owners(RegistryAfterGet(w, t, e)) <= Owners(w.registry)
  {
    var g := w.registry;
    assert g.reservations[w.tasks[t].nonce].owner in Owners(g);
  }

  lemma OwnersAreAdmitted(w: World, t: TaskId)
    requires Inv(w) && t in Owners(w.registry)
    ensures WasAdmitted(w, t)
  {
    if n :| n in w.registry.reservations && w.registry.reservations[n].owner == t {
      assert ReservationOk(w, n);
    } else {
      var s :| s in w.registry.bindings && w.registry.bindings[s].owner == t;
      assert BindingOk(w, s) && TaskShape(w.tasks[t]);
    }
  }

  lemma AdmittedStays(w: World, e: Event, t: TaskId)
    requires CanStep(w, e) && Inv(w)
    ensures var tasks' := NextTasks(w, e);
            (t in tasks' && !NotAdmitted(tasks'[t])) <==>
            (WasAdmitted(w, t) || (e.Get? && e.get.Admit? && e.task == t && AdmitSucceeds(w, t)))
  {
    if Quiet(w, e) {
      QuietTasks(w, e);
    } else {
      assert e.task in w.tasks ==> TaskShape(w.tasks[e.task]);
    }
  }

  lemma FateMoves(w: World, w': World, spared: set<TaskId>, t: TaskId)
    requires var evicted := Evicted(w.registry, w'.registry);
             w'.cancels == w.cancels + multiset(evicted - spared) && w'.released == w.released + evicted * spared
    requires Fates(w, t) <= 1
    ensures Fates(w', t) == Fates(w, t) + if t in Owners(w'.registry) && t !in Owners(w.registry) then 1 else 0
  {
    var evicted := Evicted(w.registry, w'.registry);
    assert multiset(evicted - spared)[t] == if t in evicted - spared then 1 else 0;
  }

  /** A handler becomes an owner exactly by its admission. */
  lemma OwnerOrAdmitted(w: World, e: Event, t: TaskId)
    requires CanStep(w, e) && Inv(w)
    ensures t in Owners(NextRegistry(w, e)) && t !in Owners(w.registry) <==>
            (t in NextTasks(w, e) && !NotAdmitted(NextTasks(w, e)[t])) && !WasAdmitted(w, t)
    ensures WasAdmitted(w, t) ==> t in NextTasks(w, e) && !NotAdmitted(NextTasks(w, e)[t])
  {
    NewOwners(w, e);
    AdmittedStays(w, e, t);
    if t in Owners(w.registry) {
      OwnersAreAdmitted(w, t);
    }
    if e.Get? && e.get.Admit? && e.task == t {
      assert TaskShape(w.tasks[t]);
    }
  }

  lemma StepKeepsAccounts(w: World, e: Event)
    requires CanStep(w, e) && Inv(w) && Accounted(w)
    ensures Accounted(Step(w, e))
  {
    var w' := Step(w, e);
    forall t
      ensures Fates(w', t) == if WasAdmitted(w', t) then 1 else 0
    {
      assert Fates(w, t) == if WasAdmitted(w, t) then 1 else 0;
      FateMoves(w, w', Spared(w, e), t);
      OwnerOrAdmitted(w, e, t);
    }
  }

  /**
   Main result: in every reachable state each admitted task has met exactly one
   fate. It still owns its one entry, or a sweep or detach took the entry and
   cancelled it exactly once, or it finished and the entry was released without
   a cancel; no other task has been cancelled at all.
   */
  lemma {:induction false} EveryTaskHasOneFate(ws: seq<World>, es: seq<Event>, i: nat, t: TaskId)
    requires Run(ws, es) && i < |ws|
    ensures Fates(ws[i], t) == if WasAdmitted(ws[i], t) then 1 else 0
    ensures ws[i].cancels[t] <= 1
  {
    RunIsAccounted(ws, es, i);
  }

  lemma {:induction false} RunIsAccounted(ws: seq<World>, es: seq<Event>, i: nat)
    requires Run(ws, es) && i < |ws|
    ensures Accounted(ws[i])
  {
    if i > 0 {
      RunIsAccounted(ws, es, i - 1);
      RunKeepsInv(ws, es, i - 1);
      StepKeepsAccounts(ws[i - 1], es[i - 1]);
    }
  }

  /** A task is released only when it is done or cleans up after itself; a running task is never just dropped. */
  lemma ReleasedTasksAreEnding(w: World, e: Event, t: TaskId)
    requires CanStep(w, e) && t in Step(w, e).released && t !in w.released
    ensures t in w.done || e == Get(t, Cleanup)
  {
  }

  /**
   Every handler that loses its entry while it runs is cancelled, once; one that has
   finished before a sweep, or is cleaning up after itself, is released instead.
   */
  lemma LosersAreCancelled(w: World, e: Event, t: TaskId)
    requires CanStep(w, e) && Inv(w) && t in Owners(w.registry) && t !in Owners(NextRegistry(w, e)) && t !in w.released
    ensures var w' := Step(w, e);
            if (Sweeps(e) && t in w.done) || e == Get(t, Cleanup)
            then t in w'.released && w'.cancels[t] == w.cancels[t]
            else t !in w'.released && w'.cancels[t] == w.cancels[t] + 1
  {
    var evicted := Evicted(w.registry, NextRegistry(w, e));
    assert multiset(evicted - Spared(w, e))[t] == if t in evicted - Spared(w, e) then 1 else 0;
    if e.Get? && e.get.Promote? && PromoteSucceeds(w, e.task) {
      assert TaskShape(w.tasks[e.task]);
      PromotionMovesOneEntry(w, e.task);
      PromotionEvictsNobody(w, e.task, t);
    }
  }

  lemma PromotionEvictsNobody(w: World, p: TaskId, t: TaskId)
    requires CanGet(w, p, Promote) && PromoteSucceeds(w, p) && t in Owners(w.registry)
    requires w.tasks[p].session.Some? && w.tasks[p].session.value !in w.registry.bindings
    ensures t in Owners(RegistryAfterGet(w, p, Promote))
  {
    var g, g' := w.registry, RegistryAfterGet(w, p, Promote);
    var nonce, session := w.tasks[p].nonce, w.tasks[p].session.value;
    assert g'.bindings[session].owner == p;
    if n :| n in g.reservations && g.reservations[n].owner == t {
      assert n != nonce ==> g'.reservations[n].owner == t;
    } else {
      var s :| s in g.bindings && g.bindings[s].owner == t;
      assert g'.bindings[s].owner == t;
    }
  }

  // ---- A cleanup touches only the handler's own entries ----

  /** Every admitted task has a nonce of its own. */
  ghost predicate OwnNonces(tasks: map<TaskId, GetTask>, used: set<Nonce>) {
    && (forall t :: t in tasks && !NotAdmitted(tasks[t]) ==> tasks[t].nonce in used)
    && (forall t, u :: t in tasks && u in tasks && t != u && !NotAdmitted(tasks[t]) && !NotAdmitted(tasks[u]) ==>
          tasks[t].nonce != tasks[u].nonce)
  }

  lemma OneTaskKeepsNonces(tasks: map<TaskId, GetTask>, used: set<Nonce>, t: TaskId, k: GetTask, used': set<Nonce>)
    requires OwnNonces(tasks, used) && used <= used'
    requires || NotAdmitted(k)
             || (t in tasks && !NotAdmitted(tasks[t]) && k.nonce == tasks[t].nonce)
             || (k.nonce !in used && k.nonce in used')
    ensures OwnNonces(tasks[t := k], used')
  {
  }

  lemma GetKeepsNonce(w: World, t: TaskId, e: GetEvent)
    requires CanGet(w, t, e) && (t in w.tasks ==> TaskShape(w.tasks[t]))
    ensures var k := TaskAfterGet(w, t, e);
            || NotAdmitted(k)
            || (t in w.tasks && !NotAdmitted(w.tasks[t]) && k.nonce == w.tasks[t].nonce)
            || (e.Admit? && k.nonce == e.nonce && k.nonce !in w.usedNonces)
  {
  }

  lemma StepKeepsNonces(w: World, e: Event, w': World)
    requires CanStep(w, e) && w' == Step(w, e) && Shapes(w) && OwnNonces(w.tasks, w.usedNonces)
    ensures OwnNonces(w'.tasks, w'.usedNonces)
  {
    match e
    case Get(t, g) =>
      GetKeepsNonce(w, t, g);
      OneTaskKeepsNonces(w.tasks, w.usedNonces, t, TaskAfterGet(w, t, g), w'.usedNonces);
    case Watch(t, d) =>
      OneTaskKeepsNonces(w.tasks, w.usedNonces, t, TaskAfterWatch(w, t, d), w'.usedNonces);
    case _ =>
  }

  lemma {:induction false} RunKeepsNonces(ws: seq<World>, es: seq<Event>, i: nat)
    requires Run(ws, es) && i < |ws|
    ensures OwnNonces(ws[i].tasks, ws[i].usedNonces)
  {
    if i > 0 {
      RunKeepsNonces(ws, es, i - 1);
      RunKeepsInv(ws, es, i - 1);
      StepKeepsNonces(ws[i - 1], es[i - 1], ws[i]);
    }
  }

  /** From `g` to `g'` exactly the entries of `t` go. */
  ghost predicate DropsOnly(g: Registry, g': Registry, t: TaskId) {
    && (forall n :: n in g'.reservations <==> n in g.reservations && g.reservations[n].owner != t)
    && (forall n :: n in g'.reservations ==> g'.reservations[n] == g.reservations[n])
    && (forall s :: s in g'.bindings <==> s in g.bindings && g.bindings[s].owner != t)
    && (forall s :: s in g'.bindings ==> g'.bindings[s] == g.bindings[s])
  }

  lemma ReleaseDropsOnly(w: World, t: TaskId)
    requires Owned(w) && OwnNonces(w.tasks, w.usedNonces) && t in w.tasks && !NotAdmitted(w.tasks[t])
    ensures DropsOnly(w.registry, Release(w.registry, w.tasks[t].nonce, w.tasks[t].session, t), t)
  {
    forall n | n in w.registry.reservations
      ensures n == w.tasks[t].nonce <==> w.registry.reservations[n].owner == t
    {
      assert ReservationOk(w, n);
    }
    forall s | s in w.registry.bindings && w.registry.bindings[s].owner == t
      ensures w.tasks[t].session == Some(s)
    {
      assert BindingOk(w, s);
    }
  }

  /** In every run the final cleanup of a handler removes its own entries, and no entry of any other handler. */
  lemma CleanupDropsOnlyOwn(ws: seq<World>, es: seq<Event>, i: nat, t: TaskId)
    requires Run(ws, es) && i < |es| && es[i] == Get(t, Cleanup)
    ensures DropsOnly(ws[i].registry, ws[i + 1].registry, t)
  {
    RunKeepsNonces(ws, es, i);
    RunKeepsInv(ws, es, i);
    var w := ws[i];
    assert TaskShape(w.tasks[t]);
    ReleaseDropsOnly(w, t);
    assert ws[i + 1].registry == RegistryAfterGet(w, t, Cleanup);
  }

  // ---- What a handler leaves behind when it ends without its cleanup ----

  /** Admissions and POST decisions sweep the registry first. */
  predicate Sweeps(e: Event) { e == Gateway(PostDecide) || (e.Get? && e.get.Admit?) }

  lemma SweepEndsFinished(w: World, e: Event, t: TaskId)
    requires CanStep(w, e) && Sweeps(e) && t in w.done
    ensures t !in Owners(NextRegistry(w, e))
  {
    var stamp := if e.Gateway? then w.gate.stamp else w.tasks[e.task].stamp;
    assert t !in Owners(Sweep(w.registry, stamp, w.done));
  }

  lemma RunSweeps(ws: seq<World>, es: seq<Event>, k: nat, t: TaskId)
    requires Run(ws, es) && k < |es| && Sweeps(es[k]) && t in ws[k].done
    ensures t !in Owners(ws[k + 1].registry)
  {
    SweepEndsFinished(ws[k], es[k], t);
  }

  lemma RunStaysOut(ws: seq<World>, es: seq<Event>, k: nat, t: TaskId)
    requires Run(ws, es) && k < |es| && t in ws[k].done && t !in Owners(ws[k].registry)
    ensures t !in Owners(ws[k + 1].registry)
  {
    RunKeepsInv(ws, es, k);
    FinishedStaysOut(ws[k], es[k], t);
  }

  lemma FinishedStaysOut(w: World, e: Event, t: TaskId)
    requires CanStep(w, e) && Inv(w) && t in w.done && t !in Owners(w.registry)
    ensures t !in Owners(NextRegistry(w, e))
  {
    NewOwners(w, e);
  }

  lemma {:induction false} FinishedStaysFinished(ws: seq<World>, es: seq<Event>, i: nat, j: nat, t: TaskId)
    requires Run(ws, es) && i <= j < |ws| && t in ws[i].done
    ensures t in ws[j].done
    decreases j
  {
    if i < j {
      FinishedStaysFinished(ws, es, i, j - 1, t);
      assert ws[j].done >= ws[j - 1].done;
    }
  }

  /**
   In every run, whatever a finished handler has left in the registry is gone from
   the first sweep after its end on, for good.
   */
  lemma {:induction false} FinishedAreSweptAway(ws: seq<World>, es: seq<Event>, i: nat, k: nat, j: nat, t: TaskId)
    requires Run(ws, es) && i <= k < j < |ws| && t in ws[i].done && Sweeps(es[k])
    ensures t !in Owners(ws[j].registry)
    decreases j
  {
    FinishedStaysFinished(ws, es, i, j - 1, t);
    if k == j - 1 {
      RunSweeps(ws, es, k, t);
    } else {
      FinishedAreSweptAway(ws, es, i, k, j - 1, t);
      RunStaysOut(ws, es, j - 1, t);
    }
  }
}
