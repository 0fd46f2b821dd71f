/**
 The issue tracker after a restart: what recording makes of a table that was
 reloaded from disk, and may hold more codes than the size bound allows.
 */
module IssueReload {
  import opened Wrappers
  import opened IssueTracker

  // ---- The order ----

  /** The codes of a table and a history on top of it, each once, ordered by their last occurrence. */
  function RecencyFrom(order: seq<string>, h: seq<Event>): seq<string> {
    if h == [] then order
    else Without(RecencyFrom(order, h[..|h| - 1]), h[|h| - 1].code) + [h[|h| - 1].code]
  }

  /** Nothing has been recorded yet that was not in the table. */
  predicate AllKnown(order: seq<string>, h: seq<Event>) { forall i :: 0 <= i < |h| ==> h[i].code in order }

  /** Until the first unknown code nothing is evicted; from it on only the `n` most recent codes are kept. */
  function OrderAfter(order: seq<string>, n: nat, h: seq<Event>): seq<string> {
    if AllKnown(order, h) then RecencyFrom(order, h) else LastOf(RecencyFrom(order, h), n)
  }

  lemma {:induction false} RecencyFromIsDistinct(order: seq<string>, h: seq<Event>)
    requires Distinct(order)
    ensures Distinct(RecencyFrom(order, h))
    ensures forall c :: c in RecencyFrom(order, h) <==> c in order || c in Codes(h)
  {
    if h != [] {
      var front, c := h[..|h| - 1], h[|h| - 1].code;
      var before := RecencyFrom(order, front);
      RecencyFromIsDistinct(order, front);
      WithoutIsDistinct(before, c);
      AppendDistinct(Without(before, c), c);
      CodesGrow(h);
    }
  }

  lemma KnownCodes(order: seq<string>, h: seq<Event>)
    requires Distinct(order) && AllKnown(order, h)
    ensures forall c :: c in RecencyFrom(order, h) <==> c in order
  {
    RecencyFromIsDistinct(order, h);
  }

  lemma OneMore(order: seq<string>, h: seq<Event>, e: Event)
    ensures RecencyFrom(order, h + [e]) == Without(RecencyFrom(order, h), e.code) + [e.code]
    ensures AllKnown(order, h + [e]) <==> AllKnown(order, h) && e.code in order
  {
    assert (h + [e])[..|h|] == h;
    assert AllKnown(order, h + [e]) ==> (h + [e])[|h|].code in order;
    assert AllKnown(order, h + [e]) ==> forall i :: 0 <= i < |h| ==> (h + [e])[i] == h[i];
  }

  /** One more record does to that order what the tracker does to its table. */
  lemma OrderStep(order: seq<string>, n: nat, h: seq<Event>, e: Event)
    requires Distinct(order)
    ensures var before, after := OrderAfter(order, n, h), OrderAfter(order, n, h + [e]);
            after == if e.code in before then Without(before, e.code) + [e.code] else LastOf(before + [e.code], n)
  {
    var all := RecencyFrom(order, h);
    OneMore(order, h, e);
    RecencyFromIsDistinct(order, h);
    if AllKnown(order, h) {
      KnownCodes(order, h);
      if e.code !in order {
        WithoutAbsent(all, e.code);
      }
    } else if n > 0 {
      LastOfAppend(Without(all, e.code), e.code, n);
      RecentStepFrom(all, e.code, n);
    }
  }

  // ---- The records ----

  /** Since when a tracked code has been in the table: `None` is from the start. */
  function Began(order: seq<string>, n: nat, h: seq<Event>, c: string): (b: Option<nat>)
    ensures b.Some? ==> b.value < |h|
  {
    if h == [] then None
    else if c in OrderAfter(order, n, h[..|h| - 1]) then Began(order, n, h[..|h| - 1], c)
    else Some(|h| - 1)
  }

  /** A record after more history: its count raised by the occurrences, its last time that of the last one. */
  function Renewed(i: Issue, h: seq<Event>, c: string): Issue {
    i.(count := i.count + Occurrences(h, c), lastSeen := if c in Codes(h) then h[LastIndex(h, c)].now else i.lastSeen)
  }

  /** The record of a code that is in the table, after one more record. */
  function Counted(i: Issue, e: Event): Issue {
    if e.code == i.code then i.(count := i.count + 1, lastSeen := e.now) else i
  }

  function FirstRecord(e: Event): Issue { Issue(e.code, e.component, 1, e.now, e.later) }

  /** The record of a tracked code: the loaded one if it never left the table, or else that of its last arrival. */
  ghost predicate ContinuesSince(i: Issue, t: Table, h: seq<Event>, c: string, began: Option<nat>) {
    match began
    case None => c in t.issues && i == Renewed(t.issues[c], h, c)
    case Some(a) => a < |h| && h[a].code == c && i == Renewed(FirstRecord(h[a]), h[a + 1..], c)
  }

  ghost predicate Continues(i: Issue, t: Table, n: nat, h: seq<Event>, c: string) {
    ContinuesSince(i, t, h, c, Began(t.order, n, h, c))
  }

  lemma RenewedStep(i: Issue, h: seq<Event>, e: Event, c: string)
    ensures Renewed(i, h + [e], c) ==
            if e.code == c then Renewed(i, h, c).(count := Renewed(i, h, c).count + 1, lastSeen := e.now)
            else Renewed(i, h, c)
  {
    assert (h + [e])[..|h|] == h;
    CodesGrow(h + [e]);
    if c in Codes(h) || c == e.code {
      IndexStep(h, e, c);
    }
  }

  lemma BeganStep(order: seq<string>, n: nat, h: seq<Event>, e: Event, c: string)
    ensures Began(order, n, h + [e], c) == if c in OrderAfter(order, n, h) then Began(order, n, h, c) else Some(|h|)
  {
    assert (h + [e])[..|h|] == h;
  }

  lemma SinceArrival(h: seq<Event>, e: Event, a: nat)
    requires a < |h|
    ensures (h + [e])[a] == h[a] && (h + [e])[a + 1..] == h[a + 1..] + [e]
  {
  }

  lemma SinceContinues(i: Issue, t: Table, h: seq<Event>, e: Event, c: string, began: Option<nat>)
    requires ContinuesSince(i, t, h, c, began) && i.code == c
    ensures ContinuesSince(Counted(i, e), t, h + [e], c, began)
  {
    match began
    case None => RenewedStep(t.issues[c], h, e, c);
    case Some(a) =>
      RenewedStep(FirstRecord(h[a]), h[a + 1..], e, c);
      SinceArrival(h, e, a);
  }

  /** A code that stays in the table. */
  lemma StayContinues(i: Issue, t: Table, n: nat, h: seq<Event>, e: Event, c: string)
    requires Continues(i, t, n, h, c) && i.code == c && c in OrderAfter(t.order, n, h)
    ensures Continues(Counted(i, e), t, n, h + [e], c)
  {
    BeganStep(t.order, n, h, e, c);
    SinceContinues(i, t, h, e, c, Began(t.order, n, h, c));
  }

  /** A code that enters it. */
  lemma ArrivalContinues(t: Table, n: nat, h: seq<Event>, e: Event)
    requires e.code !in OrderAfter(t.order, n, h)
    ensures Continues(FirstRecord(e), t, n, h + [e], e.code)
  {
    BeganStep(t.order, n, h, e, e.code);
    assert (h + [e])[|h| + 1..] == [] && (h + [e])[|h|] == e;
  }

  // ---- Results ----

  /** What the tracker holds after the history `h` on top of the table `t`. */
  ghost predicate Follows(now: Table, t: Table, n: nat, h: seq<Event>) {
    && Valid(now)
    && now.order == OrderAfter(t.order, n, h)
    && forall c :: c in now.issues ==> Continues(now.issues[c], t, n, h, c)
  }

  lemma RecordedIsValid(t: Table, n: nat, e: Event)
    requires Valid(t)
    ensures Valid(Recorded(t, n, e))
  {
    if e.code in t.issues {
      WithoutIsDistinct(t.order, e.code);
      AppendDistinct(Without(t.order, e.code), e.code);
    } else {
      AppendDistinct(t.order, e.code);
      EvictedIsValid(Table(t.order + [e.code], t.issues[e.code := FirstRecord(e)]), n);
    }
  }

  /** What one record does to the record of one code. */
  lemma RecordedIssue(now: Table, n: nat, e: Event, c: string)
    requires Valid(now) && c in Recorded(now, n, e).issues
    ensures var i := Recorded(now, n, e).issues[c];
            if c in now.issues
            then i == Counted(now.issues[c], e)
            else c == e.code && i == FirstRecord(e)
  {
  }

  lemma CodeContinues(now: Table, i: Issue, t: Table, n: nat, h: seq<Event>, e: Event, c: string)
    requires Valid(now) && now.order == OrderAfter(t.order, n, h)
    requires c in now.issues ==> Continues(now.issues[c], t, n, h, c)
    requires if c in now.issues
             then i == Counted(now.issues[c], e)
             else c == e.code && i == FirstRecord(e)
    ensures Continues(i, t, n, h + [e], c)
  {
    assert c in now.issues <==> c in now.order;
    if c in now.issues {
      StayContinues(now.issues[c], t, n, h, e, c);
    } else {
      ArrivalContinues(t, n, h, e);
    }
  }

  lemma RecordFollows(now: Table, t: Table, n: nat, h: seq<Event>, e: Event)
    requires Valid(t) && Follows(now, t, n, h)
    ensures Follows(Recorded(now, n, e), t, n, h + [e])
  {
    OrderStep(t.order, n, h, e);
    RecordedIsValid(now, n, e);
    forall c | c in Recorded(now, n, e).issues
      ensures Continues(Recorded(now, n, e).issues[c], t, n, h + [e], c)
    {
      RecordedIssue(now, n, e, c);
      CodeContinues(now, Recorded(now, n, e).issues[c], t, n, h, e, c);
    }
  }

  lemma RecordOne(t: Table, n: nat, h: seq<Event>, e: Event)
    ensures RecordAll(t, n, h + [e]) == Recorded(RecordAll(t, n, h), n, e)
  {
    assert (h + [e])[..|h|] == h;
  }

  /** Main result: recording on top of any table is this function of the table and the history. */
  lemma {:induction false} RecordingContinues(t: Table, n: nat, h: seq<Event>)
    requires Valid(t)
    ensures Follows(RecordAll(t, n, h), t, n, h)
  {
    if h != [] {
      var front, e := h[..|h| - 1], h[|h| - 1];
      assert h == front + [e];
      RecordingContinues(t, n, front);
      RecordFollows(RecordAll(t, n, front), t, n, front, e);
      RecordOne(t, n, front, e);
    }
  }

  /**
   After a restart: the table is that function of the reloaded one, and the size
   bound holds exactly if the file named no more codes than fit, or some code has
   been recorded since that it did not name. That record is the first to evict.
   */
  lemma RestartedTracker(items: seq<Item>, clock: nat -> real, n: nat, h: seq<Event>)
    ensures var loaded := Reloaded(EMPTY, items, clock);
            var now := RecordAll(loaded, n, h);
            && Follows(now, loaded, n, h)
            && (|now.order| <= n <==>
                 |ItemCodes(items)| <= n || exists i :: 0 <= i < |h| && h[i].code !in ItemCodes(items))
  {
    var loaded := Reloaded(EMPTY, items, clock);
    ReloadCodes(items, clock);
    RecordingContinues(loaded, n, h);
    assert AllKnown(loaded.order, h) <==> forall i :: 0 <= i < |h| ==> h[i].code in ItemCodes(items);
    if AllKnown(loaded.order, h) {
      KnownCodes(loaded.order, h);
      RecencyFromIsDistinct(loaded.order, h);
      DistinctSize(RecencyFrom(loaded.order, h), ItemCodes(items));
    }
  }
}
