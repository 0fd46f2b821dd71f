/** Why a session is closed: every removal goes back to a cause in the history of the run. */
module McpCauses {
  import opened Wrappers
  import opened McpRegistry
  import opened McpProtocol
  import opened McpSafety
  import opened McpTiming
  import opened McpAccounting
  import opened McpEntries

  // ---- The gate ----

  /** Event `j` is the last one at the gate before `i`. */
  ghost predicate LastAtGate(es: seq<Event>, j: int, i: int, e: GateEvent) {
    0 <= j < i <= |es| && es[j] == Gateway(e) && forall k :: j < k < i ==> !es[k].Gateway?
  }

  /** A POST for `s` entered the gate, as number `p`, and was the last event there before `i`. */
  ghost predicate EnteredAt(ws: seq<World>, es: seq<Event>, b: int, i: int, p: nat, s: SessionId)
    requires |ws| == |es| + 1
  {
    LastAtGate(es, b, i, PostEnter(s)) && ws[b].enabled && ws[b].nextPost == p
  }

  /** That POST was then validated with this verdict, and nothing has happened at the gate since. */
  ghost predicate ValidatedAt(ws: seq<World>, es: seq<Event>, b: int, j: int, i: int, p: nat, s: SessionId,
                              v: PostVerdict)
    requires |ws| == |es| + 1
  {
    LastAtGate(es, j, i, PostValidate(v)) && EnteredAt(ws, es, b, j, p, s)
  }

  /** What is in the gate is what the last events there put into it. */
  ghost predicate GateFollows(ws: seq<World>, es: seq<Event>, i: nat)
    requires |ws| == |es| + 1 && i < |ws|
  {
    match ws[i].gate
    case Free => true
    case PostEntered(p, s) => exists b :: EnteredAt(ws, es, b, i, p, s)
    case PostRevoked(s, parsed) =>
      exists b, j, p :: ValidatedAt(ws, es, b, j, i, p, s, RevokedOrExpired(parsed))
    case PostUnknown(s) => exists b, j, p :: ValidatedAt(ws, es, b, j, i, p, s, Unknown)
    case PostValid(p, s, tok, stamp) =>
      exists b, j :: ValidatedAt(ws, es, b, j, i, p, s, Valid(tok)) && ws[j].clock == stamp
    case Draining => exists j :: LastAtGate(es, j, i, Disable) || LastAtGate(es, j, i, Shutdown)
  }

  lemma LaterAtGate(es: seq<Event>, i: nat)
    requires i < |es|
    ensures !es[i].Gateway? ==> forall j, e :: LastAtGate(es, j, i, e) ==> LastAtGate(es, j, i + 1, e)
    ensures es[i].Gateway? ==> LastAtGate(es, i, i + 1, es[i].gateway)
  {
  }

  lemma GateWaits(ws: seq<World>, es: seq<Event>, i: nat)
    requires |ws| == |es| + 1 && i < |es| && GateFollows(ws, es, i)
    requires !es[i].Gateway? && ws[i + 1].gate == ws[i].gate
    ensures GateFollows(ws, es, i + 1)
  {
    LaterAtGate(es, i);
    match ws[i].gate
    case Free =>
    case PostEntered(p, s) =>
      var b :| EnteredAt(ws, es, b, i, p, s);
      assert EnteredAt(ws, es, b, i + 1, p, s);
    case PostRevoked(s, parsed) =>
      var b, j, p :| ValidatedAt(ws, es, b, j, i, p, s, RevokedOrExpired(parsed));
      assert ValidatedAt(ws, es, b, j, i + 1, p, s, RevokedOrExpired(parsed));
    case PostUnknown(s) =>
      var b, j, p :| ValidatedAt(ws, es, b, j, i, p, s, Unknown);
      assert ValidatedAt(ws, es, b, j, i + 1, p, s, Unknown);
    case PostValid(p, s, tok, stamp) =>
      var b, j :| ValidatedAt(ws, es, b, j, i, p, s, Valid(tok)) && ws[j].clock == stamp;
      assert ValidatedAt(ws, es, b, j, i + 1, p, s, Valid(tok));
    case Draining =>
      var j :| LastAtGate(es, j, i, Disable) || LastAtGate(es, j, i, Shutdown);
      assert LastAtGate(es, j, i + 1, Disable) || LastAtGate(es, j, i + 1, Shutdown);
  }

  lemma GateMoves(ws: seq<World>, es: seq<Event>, i: nat)
    requires |ws| == |es| + 1 && i < |es| && GateFollows(ws, es, i)
    requires es[i].Gateway? && CanGate(ws[i], es[i].gateway) && ws[i + 1].gate == NextGate(ws[i], es[i].gateway)
    ensures GateFollows(ws, es, i + 1)
  {
    LaterAtGate(es, i);
    match es[i].gateway
    case PostEnter(s) => assert ws[i].enabled ==> EnteredAt(ws, es, i, i + 1, ws[i].nextPost, s);
    case PostValidate(v) =>
      var p, s := ws[i].gate.post, ws[i].gate.session;
      var b :| EnteredAt(ws, es, b, i, p, s);
      assert ValidatedAt(ws, es, b, i, i + 1, p, s, v);
    case _ =>
  }

  /** In every run the gate's contents follow from what happened at it. */
  lemma {:induction false} GateFollowsHistory(ws: seq<World>, es: seq<Event>, i: nat)
    requires Run(ws, es) && i < |ws|
    ensures GateFollows(ws, es, i)
  {
    if i > 0 {
      GateFollowsHistory(ws, es, i - 1);
      GateStep(ws, es, i - 1);
      if es[i - 1].Gateway? {
        GateMoves(ws, es, i - 1);
      } else {
        GateWaits(ws, es, i - 1);
      }
    }
  }

  lemma GateStep(ws: seq<World>, es: seq<Event>, i: nat)
    requires Run(ws, es) && i < |es|
    ensures es[i].Gateway? ==> CanGate(ws[i], es[i].gateway) && ws[i + 1].gate == NextGate(ws[i], es[i].gateway)
    ensures !es[i].Gateway? ==> ws[i + 1].gate == ws[i].gate
  {
  }

  // ---- The watchdog ----

  /** A revalidation of the handler's token has failed. */
  ghost predicate Rejected(es: seq<Event>, t: TaskId, i: int) {
    exists j :: 0 <= j < i && RejectedAt(es, t, j)
  }

  predicate RejectedAt(es: seq<Event>, t: TaskId, j: nat) {
    j < |es| && es[j].Watch? && es[j].task == t && es[j].watch.Validate? && !es[j].watch.valid
  }

  /** A watchdog about to detach has seen its token fail, or the binding, if it still has it, is due. */
  predicate DueOr(rejected: bool, clock: real, g: Registry, k: GetTask, t: TaskId) {
    k.watchdog.Detaching? && Holds(g, k, t) ==> rejected || HeldDeadline(g, k, t) <= clock
  }

  lemma OwnWatchIsDue(w: World, t: TaskId, e: WatchEvent)
    requires CanWatch(w, t, e) && Paced(w.clock, w.registry, w.tasks[t], t)
    requires !(e.Validate? && !e.valid)
    ensures DueOr(false, w.clock, RegistryAfterWatch(w, t, e), TaskAfterWatch(w, t, e), t)
  {
  }

  lemma StepIsDue(w: World, e: Event, t: TaskId, before: bool, after: bool)
    requires CanStep(w, e) && Inv(w) && AllPaced(w) && t in NextTasks(w, e)
    requires t in w.tasks ==> DueOr(before, w.clock, w.registry, w.tasks[t], t)
    requires before ==> after
    requires e.Watch? && e.task == t && e.watch.Validate? && !e.watch.valid ==> after
    ensures DueOr(after, NextClock(w, e), NextRegistry(w, e), NextTasks(w, e)[t], t)
  {
    var k := NextTasks(w, e)[t];
    if e.Watch? && e.task == t {
      assert Paced(w.clock, w.registry, w.tasks[t], t);
      if !after {
        OwnWatchIsDue(w, t, e.watch);
      }
    } else if k.watchdog.Detaching? && Holds(NextRegistry(w, e), k, t) {
      DetachingStays(w, e, t);
      HoldingComesFromPromotion(w, e, t);
    }
  }

  lemma DetachingStays(w: World, e: Event, t: TaskId)
    requires CanStep(w, e) && Inv(w) && AllPaced(w) && t in NextTasks(w, e) && NextTasks(w, e)[t].watchdog.Detaching?
    requires !(e.Watch? && e.task == t)
    ensures t in w.tasks && w.tasks[t].watchdog.Detaching? && (Promotes(w, e) ==> e.task != t)
  {
    if e.Get? && e.task == t {
      GetKeepsDetaching(w, t, e.get);
    }
    assert InLoop(w.tasks[t].watchdog) ==> Paced(w.clock, w.registry, w.tasks[t], t) && TaskShape(w.tasks[t]);
  }

  lemma GetKeepsDetaching(w: World, t: TaskId, e: GetEvent)
    requires CanGet(w, t, e) && TaskAfterGet(w, t, e).watchdog.Detaching?
    ensures t in w.tasks && w.tasks[t].watchdog.Detaching?
  {
  }

  lemma {:induction false} RunIsDue(ws: seq<World>, es: seq<Event>, i: nat, t: TaskId)
    requires Run(ws, es) && i < |ws|
    ensures t in ws[i].tasks ==> DueOr(Rejected(es, t, i), ws[i].clock, ws[i].registry, ws[i].tasks[t], t)
  {
    if i > 0 && t in ws[i].tasks {
      RunIsDue(ws, es, i - 1, t);
      RunKeepsInv(ws, es, i - 1);
      RunIsPaced(ws, es, i - 1);
      var e := es[i - 1];
      assert e.Watch? && e.task == t && e.watch.Validate? && !e.watch.valid ==> RejectedAt(es, t, i - 1);
      StepIsDue(ws[i - 1], e, t, Rejected(es, t, i - 1), Rejected(es, t, i));
    }
  }

  /** The first-frame wait of an admitted handler lasts ten seconds. */
  predicate WaitsTenSeconds(clock: real, k: GetTask) {
    && k.admittedAt <= clock
    && (k.watchdog.Waiting? ==> k.watchdog.timeoutAt == k.admittedAt + 10.0)
    && (k.watchdog.TimedOut? ==> k.admittedAt + 10.0 <= clock)
  }

  lemma StepWaitsTenSeconds(w: World, e: Event, t: TaskId)
    requires CanStep(w, e) && t in NextTasks(w, e)
    requires t in w.tasks ==> WaitsTenSeconds(w.clock, w.tasks[t])
    ensures WaitsTenSeconds(NextClock(w, e), NextTasks(w, e)[t])
  {
  }

  lemma {:induction false} RunWaitsTenSeconds(ws: seq<World>, es: seq<Event>, i: nat, t: TaskId)
    requires Run(ws, es) && i < |ws|
    ensures t in ws[i].tasks ==> WaitsTenSeconds(ws[i].clock, ws[i].tasks[t])
  {
    if i > 0 && t in ws[i].tasks {
      RunWaitsTenSeconds(ws, es, i - 1, t);
      StepWaitsTenSeconds(ws[i - 1], es[i - 1], t);
    }
  }

  // ---- Results ----

  /** The POST in the gate that closes `s` entered it for `s` and failed, for this token or for an unknown reason. */
  ghost predicate FailedPost(ws: seq<World>, es: seq<Event>, b: int, j: int, i: int, p: nat, s: SessionId, tok: TokenId)
    requires |ws| == |es| + 1
  {
    ValidatedAt(ws, es, b, j, i, p, s, Unknown) || ValidatedAt(ws, es, b, j, i, p, s, RevokedOrExpired(Some(tok)))
  }

  ghost predicate ClosedByGate(ws: seq<World>, es: seq<Event>, i: nat, s: SessionId, tok: TokenId)
    requires |ws| == |es| + 1 && i < |es|
  {
    match es[i]
    case Gateway(PostDetach) => exists b, j, p :: FailedPost(ws, es, b, j, i, p, s, tok)
    case Gateway(Drain) => exists j :: LastAtGate(es, j, i, Disable) || LastAtGate(es, j, i, Shutdown)
    case _ => false
  }

  /**
   Main result: in every run a binding leaves the registry only because it is due or
   its owner has finished, when a sweep or its own watchdog looks; because its token
   failed a revalidation; because its own handler cleaned up or had a tool failure;
   because a POST for it failed with its token or for an unknown reason; or because
   connectivity was disabled or shut down.
   */
  lemma SessionsCloseForAReason(ws: seq<World>, es: seq<Event>, i: nat, s: SessionId)
    requires Run(ws, es) && i < |es| && s in ws[i].registry.bindings && s !in ws[i + 1].registry.bindings
    ensures var w, e := ws[i], es[i];
            var b := w.registry.bindings[s];
            || (Sweeps(e) && (b.owner in w.done || b.deadline <= SweepTime(w, e)))
            || (e == Watch(b.owner, Detach) && (b.deadline <= w.clock || Rejected(es, b.owner, i)))
            || e == Get(b.owner, Cleanup)
            || e == ToolClose(b.owner, true)
            || ClosedByGate(ws, es, i, s, b.tokenId)
  {
    var w, e := ws[i], es[i];
    var b := w.registry.bindings[s];
    BindingsComeAndGo(ws, es, i, s);
    assert BindingLeaves(w, e, s);
    if e == Watch(b.owner, Detach) {
      RunIsDue(ws, es, i, b.owner);
      RunKeepsInv(ws, es, i);
      assert BindingOk(w, s);
    } else if e.Gateway? && !Sweeps(e) {
      GateFollowsHistory(ws, es, i);
      ClosingGate(ws, es, i, s, b.tokenId);
    }
  }

  lemma ClosingGate(ws: seq<World>, es: seq<Event>, i: nat, s: SessionId, tok: TokenId)
    requires |ws| == |es| + 1 && i < |es| && GateFollows(ws, es, i)
    requires || (&& es[i] == Gateway(PostDetach)
                 && (ws[i].gate == PostUnknown(s) || ws[i].gate == PostRevoked(s, Some(tok))))
             || (es[i] == Gateway(Drain) && ws[i].gate.Draining?)
    ensures ClosedByGate(ws, es, i, s, tok)
  {
    if es[i] == Gateway(PostDetach) {
      if ws[i].gate == PostUnknown(s) {
        var b, j, p :| ValidatedAt(ws, es, b, j, i, p, s, Unknown);
        assert FailedPost(ws, es, b, j, i, p, s, tok);
      } else {
        var b, j, p :| ValidatedAt(ws, es, b, j, i, p, s, RevokedOrExpired(Some(tok)));
        assert FailedPost(ws, es, b, j, i, p, s, tok);
      }
    }
  }

  /** A watchdog drops a reservation only after ten whole seconds without a first frame. */
  lemma ReservationsGetTenSeconds(ws: seq<World>, es: seq<Event>, i: nat, t: TaskId)
    requires Run(ws, es) && i < |es| && es[i] == Watch(t, WatchEvent.DropReservation)
    ensures t in ws[i].tasks && ws[i].tasks[t].admittedAt + 10.0 <= ws[i].clock
  {
    RunWaitsTenSeconds(ws, es, i, t);
  }
}
