/**
 The issue tracker: an ordered dictionary of recent issues with a size bound.
 It is proved equal to a function of everything that was ever recorded.
 */
module IssueTracker {
  import opened Wrappers

  const AUTO_CLEAR_SECONDS := 3600.0

  datatype Issue = Issue(code: string, component: string, count: nat, firstSeen: real, lastSeen: real)

  /** One call of `record`; a new issue reads the clock twice, once for each of its times. */
  datatype Event = Event(code: string, component: string, now: real, later: real)

  /** An item of the saved file; every field but the code may be missing. */
  datatype Item = Item(code: string, component: Option<string>, count: Option<nat>,
                         firstSeen: Option<real>, lastSeen: Option<real>)

  /** An ordered dictionary: its keys in order, and what they map to. */
  datatype Table = Table(order: seq<string>, issues: map<string, Issue>)

  const EMPTY := Table([], map[])

  predicate Distinct(s: seq<string>) { forall i, j :: 0 <= i < j < |s| ==> s[i] != s[j] }

  ghost predicate Valid(t: Table) {
    && Distinct(t.order)
    && (forall c :: c in t.order <==> c in t.issues)
    && (forall c :: c in t.issues ==> t.issues[c].code == c)
  }

  lemma AppendDistinct(s: seq<string>, c: string)
    requires Distinct(s) && c !in s
    ensures Distinct(s + [c])
  {
    forall i | 0 <= i < |s|
      ensures s[i] != c
    {
      assert s[i] in s;
    }
  }

  lemma TailIsDistinct(s: seq<string>, n: nat)
    requires Distinct(s) && n <= |s|
    ensures Distinct(s[n..])
  {
    forall i, j | 0 <= i < j < |s| - n
      ensures s[n..][i] != s[n..][j]
    {
      assert s[n + i] != s[n + j];
    }
  }

  function Without(s: seq<string>, c: string): (r: seq<string>)
    ensures forall x :: x in r <==> x in s && x != c
  {
    if s == [] then []
    else
      var front, last := s[..|s| - 1], s[|s| - 1];
      if last == c then Without(front, c) else Without(front, c) + [last]
  }

  lemma {:induction false} WithoutIsDistinct(s: seq<string>, c: string)
    requires Distinct(s)
    ensures Distinct(Without(s, c))
  {
    if s != [] {
      var front, last := s[..|s| - 1], s[|s| - 1];
      WithoutIsDistinct(front, c);
      AppendDistinct(Without(front, c), last) by { assert last !in front; }
    }
  }

  /** The last `n` elements. */
  function LastOf(s: seq<string>, n: nat): seq<string> { if |s| <= n then s else s[|s| - n..] }

  function Restrict(issues: map<string, Issue>, s: seq<string>): map<string, Issue> {
    map c | c in issues && c in s :: issues[c]
  }

  lemma DropFirst(issues: map<string, Issue>, s: seq<string>, i: nat)
    requires Distinct(s) && i < |s|
    ensures Restrict(issues, s[i..]) - {s[i]} == Restrict(issues, s[i + 1..]) && s[i..][1..] == s[i + 1..]
  {
    assert s[i..] == [s[i]] + s[i + 1..];
    TailIsDistinct(s, i);
  }

  lemma EvictedIsValid(t: Table, n: nat)
    requires Valid(t)
    ensures var order := LastOf(t.order, n); Valid(Table(order, Restrict(t.issues, order)))
  {
    var order := LastOf(t.order, n);
    TailIsDistinct(t.order, |t.order| - |order|);
    assert forall c :: c in order ==> c in t.order;
  }

  /** A known code is counted and moved to the end; a new one is added and the oldest are evicted. */
  function Recorded(t: Table, n: nat, e: Event): Table {
    if e.code in t.issues then
      var known := t.issues[e.code];
      Table(Without(t.order, e.code) + [e.code],
            t.issues[e.code := known.(count := known.count + 1, lastSeen := e.now)])
    else
      var order := LastOf(t.order + [e.code], n);
      Table(order, Restrict(t.issues[e.code := Issue(e.code, e.component, 1, e.now, e.later)], order))
  }

  /** The saved item as an issue; missing times are two readings of the clock. */
  function Loaded(item: Item, firstNow: real, lastNow: real): Issue {
    Issue(item.code,
          if item.component.Some? then item.component.value else "unknown",
          if item.count.Some? then item.count.value else 1,
          if item.firstSeen.Some? then item.firstSeen.value else firstNow,
          if item.lastSeen.Some? then item.lastSeen.value else lastNow)
  }

  /** One assignment to an ordered dictionary: a known code keeps its place, a new one goes to the end. */
  function Assigned(t: Table, i: Issue): Table {
    Table(if i.code in t.issues then t.order else t.order + [i.code], t.issues[i.code := i])
  }

  lemma AssignedIsValid(t: Table, i: Issue)
    requires Valid(t)
    ensures Valid(Assigned(t, i))
    ensures forall c :: c in Assigned(t, i).order <==> c in t.order || c == i.code
  {
    if i.code !in t.issues {
      AppendDistinct(t.order, i.code);
    }
  }

  /** Reloading assigns item by item: nothing is evicted. */
  function Reloaded(t: Table, items: seq<Item>, clock: nat -> real): Table {
    if items == [] then t
    else
      var i := |items| - 1;
      var t', item := Reloaded(t, items[..i], clock), items[i];
      Assigned(t', Loaded(item, clock(2 * i), clock(2 * i + 1)))
  }

  lemma ReloadedAppend(t: Table, items: seq<Item>, item: Item, clock: nat -> real)
    ensures Reloaded(t, items + [item], clock) ==
            Assigned(Reloaded(t, items, clock), Loaded(item, clock(2 * |items|), clock(2 * |items| + 1)))
  {
    var longer := items + [item];
    assert longer[..|items|] == items && longer[|items|] == item;
  }

  lemma ReloadedNext(t: Table, items: seq<Item>, i: nat, clock: nat -> real)
    requires i < |items|
    ensures Reloaded(t, items[..i + 1], clock) ==
            Assigned(Reloaded(t, items[..i], clock), Loaded(items[i], clock(2 * i), clock(2 * i + 1)))
  {
    ReloadedAppend(t, items[..i], items[i], clock);
    assert items[..i + 1] == items[..i] + [items[i]];
  }

  function Saved(i: Issue): Item { Item(i.code, Some(i.component), Some(i.count), Some(i.firstSeen), Some(i.lastSeen)) }

  ghost function SavedTable(t: Table, upTo: nat): seq<Item>
    requires Valid(t) && upTo <= |t.order|
  {
    seq(upTo, i requires 0 <= i < upTo => assert t.order[i] in t.issues; Saved(t.issues[t.order[i]]))
  }

  class IssueTracker {
    var order: seq<string>
    var issues: map<string, Issue>
    const maxSize: nat

    constructor (maxSize: nat)
      ensures View() == EMPTY && this.maxSize == maxSize
    {
      this.maxSize := maxSize;
      order, issues := [], map[];
    }

    ghost function View(): Table
      reads this
    {
      Table(order, issues)
    }

    method Record(e: Event)
      requires Valid(View())
      modifies this
      ensures View() == Recorded(old(View()), maxSize, e) && Valid(View())
    {
      if e.code in issues {
        var issue := issues[e.code];
        issues := issues[e.code := issue.(count := issue.count + 1, lastSeen := e.now)];
        WithoutIsDistinct(order, e.code);
        AppendDistinct(Without(order, e.code), e.code);
        order := Without(order, e.code) + [e.code];
      } else {
        issues := issues[e.code := Issue(e.code, e.component, 1, e.now, e.later)];
        AppendDistinct(order, e.code);
        order := order + [e.code];
        EvictedIsValid(View(), maxSize);
        Evict();
      }
    }

    method Evict()
      requires Valid(View())
      modifies this
      ensures order == LastOf(old(order), maxSize) && issues == Restrict(old(issues), order)
    {
      ghost var all, full := order, issues;
      assert issues == Restrict(full, all);
      ghost var gone := 0;
      while |order| > maxSize
        invariant gone + |order| == |all| && order == all[gone..]
        invariant gone > 0 ==> |order| >= maxSize
        invariant issues == Restrict(full, order)
      {
        DropFirst(full, all, gone);
        issues := issues - {order[0]};
        order := order[1..];
        gone := gone + 1;
      }
    }

    /** The listed issues are those seen within the last hour, in order. */
    method GetActiveIssues(now: real) returns (active: seq<Issue>)
      requires Valid(View())
      ensures active == Active(View(), now - 3600.0, |order|)
      ensures forall c :: c in issues ==> (issues[c] in active <==> now - issues[c].lastSeen <= 3600.0)
    {
      active := [];
      for i := 0 to |order|
        invariant active == Active(View(), now - AUTO_CLEAR_SECONDS, i)
      {
        assert order[i] in issues;
        if issues[order[i]].lastSeen >= now - AUTO_CLEAR_SECONDS {
          active := active + [issues[order[i]]];
        }
      }
      ActiveIff(View(), now - AUTO_CLEAR_SECONDS);
    }

    method Persist() returns (data: seq<Item>)
      requires Valid(View())
      ensures data == SavedTable(View(), |order|)
    {
      data := [];
      for i := 0 to |order|
        invariant data == SavedTable(View(), i)
      {
        assert order[i] in issues;
        data := data + [Saved(issues[order[i]])];
      }
    }

    /** `clock` gives the successive clock readings, two for each item. */
    method Reload(data: seq<Item>, clock: nat -> real)
      requires Valid(View())
      modifies this
      ensures View() == Reloaded(old(View()), data, clock) && Valid(View())
    {
      for i := 0 to |data|
        invariant View() == Reloaded(old(View()), data[..i], clock) && Valid(View())
      {
        var issue := Loaded(data[i], clock(2 * i), clock(2 * i + 1));
        AssignedIsValid(View(), issue);
        ReloadedNext(old(View()), data, i, clock);
        if issue.code !in issues {
          order := order + [issue.code];
        }
        issues := issues[issue.code := issue];
      }
      assert data[..|data|] == data;
    }

    method Clear()
      modifies this
      ensures View() == EMPTY
    {
      order, issues := [], map[];
    }
  }

  /** The issues among the first `upTo` that were seen at or after the cutoff. */
  ghost function Active(t: Table, cutoff: real, upTo: nat): seq<Issue>
    requires Valid(t) && upTo <= |t.order|
  {
    if upTo == 0 then []
    else
      assert t.order[upTo - 1] in t.issues;
      var issue := t.issues[t.order[upTo - 1]];
      Active(t, cutoff, upTo - 1) + if issue.lastSeen >= cutoff then [issue] else []
  }

  /** The places of a list in growing order, from which exactly the issues seen at or after the cutoff are listed. */
  ghost predicate Lists(t: Table, cutoff: real, upTo: nat, places: seq<nat>)
    requires Valid(t) && upTo <= |t.order|
  {
    && (forall i :: 0 <= i < |places| ==> places[i] < upTo)
    && (forall i, j :: 0 <= i < j < |places| ==> places[i] < places[j])
    && (forall i: nat :: i < upTo ==> (i in places <==> RecordAt(t, i).lastSeen >= cutoff))
  }

  ghost function RecordAt(t: Table, i: nat): Issue
    requires Valid(t) && i < |t.order|
  {
    assert t.order[i] in t.order;
    t.issues[t.order[i]]
  }

  lemma ListsNext(t: Table, cutoff: real, i: nat, before: seq<nat>)
    requires Valid(t) && i < |t.order| && Lists(t, cutoff, i, before)
    ensures Lists(t, cutoff, i + 1, if RecordAt(t, i).lastSeen >= cutoff then before + [i] else before)
  {
    forall x: nat
      ensures x in before + [i] <==> x in before || x == i
    {
    }
    assert i !in before;
  }

  ghost function Places(t: Table, cutoff: real, upTo: nat): seq<nat>
    requires Valid(t) && upTo <= |t.order|
  {
    if upTo == 0 then []
    else if RecordAt(t, upTo - 1).lastSeen >= cutoff then Places(t, cutoff, upTo - 1) + [upTo - 1]
    else Places(t, cutoff, upTo - 1)
  }

  lemma {:induction false} PlacesList(t: Table, cutoff: real, upTo: nat)
    requires Valid(t) && upTo <= |t.order|
    ensures Lists(t, cutoff, upTo, Places(t, cutoff, upTo))
  {
    if upTo > 0 {
      PlacesList(t, cutoff, upTo - 1);
      ListsNext(t, cutoff, upTo - 1, Places(t, cutoff, upTo - 1));
    }
  }

  lemma {:induction false} PlacesPick(t: Table, cutoff: real, upTo: nat)
    requires Valid(t) && upTo <= |t.order|
    ensures Picks(t, Active(t, cutoff, upTo), Places(t, cutoff, upTo))
  {
    if upTo > 0 {
      PlacesPick(t, cutoff, upTo - 1);
      PicksNext(t, Active(t, cutoff, upTo - 1), upTo - 1, Places(t, cutoff, upTo - 1));
    }
  }

  /** The active list holds exactly the issues seen at or after the cutoff, each once, in table order. */
  lemma ActiveListsTheRecent(t: Table, cutoff: real, upTo: nat) returns (places: seq<nat>)
    requires Valid(t) && upTo <= |t.order|
    ensures Lists(t, cutoff, upTo, places) && Picks(t, Active(t, cutoff, upTo), places)
  {
    places := Places(t, cutoff, upTo);
    PlacesList(t, cutoff, upTo);
    PlacesPick(t, cutoff, upTo);
  }

  lemma PicksNext(t: Table, active: seq<Issue>, i: nat, before: seq<nat>)
    requires Valid(t) && i < |t.order| && Picks(t, active, before)
    ensures Picks(t, active + [RecordAt(t, i)], before + [i]) && Picks(t, active + [], before)
  {
    assert active + [] == active;
  }

  ghost predicate Picks(t: Table, active: seq<Issue>, places: seq<nat>)
    requires Valid(t)
  {
    && |active| == |places|
    && forall i :: 0 <= i < |places| ==> places[i] < |t.order| && active[i] == RecordAt(t, places[i])
  }

  lemma {:induction false} ActiveUpTo(t: Table, cutoff: real, upTo: nat)
    requires Valid(t) && upTo <= |t.order|
    ensures forall x :: x in Active(t, cutoff, upTo) ==> x.lastSeen >= cutoff
    ensures forall i: nat :: i < upTo && RecordAt(t, i).lastSeen >= cutoff ==> RecordAt(t, i) in Active(t, cutoff, upTo)
  {
    if upTo > 0 {
      ActiveUpTo(t, cutoff, upTo - 1);
    }
  }

  lemma ActiveIff(t: Table, cutoff: real)
    requires Valid(t)
    ensures forall c :: c in t.issues ==>
              (t.issues[c] in Active(t, cutoff, |t.order|) <==> t.issues[c].lastSeen >= cutoff)
  {
    ActiveUpTo(t, cutoff, |t.order|);
    forall c | c in t.issues
      ensures exists p: nat :: p < |t.order| && RecordAt(t, p) == t.issues[c]
    {
      assert c in t.order;
      var p :| 0 <= p < |t.order| && t.order[p] == c;
      assert RecordAt(t, p) == t.issues[c];
    }
  }

  // ---- The history ----

  /** The codes of a history, each once, ordered by their last occurrence. */
  function ByRecency(h: seq<Event>): seq<string> {
    if h == [] then []
    else var c := h[|h| - 1].code; Without(ByRecency(h[..|h| - 1]), c) + [c]
  }

  /** The `n` most recently recorded distinct codes, least recent first. */
  function Recent(h: seq<Event>, n: nat): seq<string> { LastOf(ByRecency(h), n) }

  function Codes(h: seq<Event>): set<string> { set i | 0 <= i < |h| :: h[i].code }

  /** The last index at which `c` was recorded. */
  function LastIndex(h: seq<Event>, c: string): (i: nat)
    requires c in Codes(h)
    ensures i < |h| && h[i].code == c
  {
    if h[|h| - 1].code == c then |h| - 1 else CodesGrow(h); LastIndex(h[..|h| - 1], c)
  }

  /** Where the present stay of `c` began: its first record since it was last absent from the recent codes. */
  function Arrival(h: seq<Event>, n: nat, c: string): nat
    requires h != []
    ensures Arrival(h, n, c) < |h|
  {
    var h' := h[..|h| - 1];
    if h' != [] && c in Recent(h', n) then Arrival(h', n, c) else |h| - 1
  }

  function Occurrences(h: seq<Event>, c: string): nat {
    if h == [] then 0 else Occurrences(h[..|h| - 1], c) + if h[|h| - 1].code == c then 1 else 0
  }

  /** The record of a recent code: component and first time of its arrival, records since then, last time seen. */
  predicate Summarises(i: Issue, h: seq<Event>, n: nat, c: string)
    requires c in Codes(h)
  {
    var a, last := Arrival(h, n, c), LastIndex(h, c);
    && i.code == c
    && h[a].code == c && i.component == h[a].component && i.firstSeen == h[a].now
    && i.count == Occurrences(h[a..], c)
    && i.lastSeen == if last == a then h[a].later else h[last].now
  }

  /** The table is the function of the history that it is meant to be. */
  ghost predicate Tracks(t: Table, h: seq<Event>, n: nat) {
    && t.order == Recent(h, n)
    && (forall c :: c in t.order <==> c in t.issues)
    && (forall c :: c in t.issues ==> c in Codes(h) && Summarises(t.issues[c], h, n, c))
  }

  lemma {:induction false} RecencyIsDistinct(h: seq<Event>)
    ensures Distinct(ByRecency(h))
    ensures forall c :: c in ByRecency(h) <==> c in Codes(h)
  {
    if h != [] {
      var h', c := h[..|h| - 1], h[|h| - 1].code;
      RecencyIsDistinct(h');
      WithoutIsDistinct(ByRecency(h'), c);
      AppendDistinct(Without(ByRecency(h'), c), c);
      CodesGrow(h);
    }
  }

  lemma CodesGrow(h: seq<Event>)
    requires h != []
    ensures Codes(h) == Codes(h[..|h| - 1]) + {h[|h| - 1].code}
  {
    var h' := h[..|h| - 1];
    forall c | c in Codes(h)
      ensures c in Codes(h') + {h[|h| - 1].code}
    {
      var i :| 0 <= i < |h| && h[i].code == c;
      assert i < |h'| ==> h'[i].code == c;
    }
    forall c | c in Codes(h')
      ensures c in Codes(h)
    {
      var i :| 0 <= i < |h'| && h'[i].code == c;
      assert h[i].code == c;
    }
  }

  lemma {:induction false} WithoutAbsent(s: seq<string>, c: string)
    requires c !in s
    ensures Without(s, c) == s
  {
    if s != [] {
      assert s[|s| - 1] in s && forall x :: x in s[..|s| - 1] ==> x in s;
      WithoutAbsent(s[..|s| - 1], c);
    }
  }

  lemma LastOfAppend(s: seq<string>, c: string, n: nat)
    requires n > 0
    ensures LastOf(s + [c], n) == LastOf(s, n - 1) + [c]
  {
  }

  lemma WithoutAppend(s: seq<string>, x: string, c: string)
    ensures Without(s + [x], c) == if x == c then Without(s, c) else Without(s, c) + [x]
  {
    assert (s + [x])[..|s|] == s;
  }

  /** Dropping one of the last `n` elements is dropping it from all and keeping one less. */
  lemma {:induction false} LastWithout(s: seq<string>, c: string, n: nat)
    requires Distinct(s) && c in LastOf(s, n)
    ensures n > 0 && Without(LastOf(s, n), c) == LastOf(Without(s, c), n - 1)
  {
    var front, last := s[..|s| - 1], s[|s| - 1];
    assert s == front + [last] && n > 0;
    var kept := LastOf(front, n - 1);
    LastOfAppend(front, last, n);
    WithoutAppend(kept, last, c);
    WithoutAppend(front, last, c);
    LastIsNotBefore(s);
    assert forall x :: x in kept ==> x in front;
    if last == c {
      WithoutAbsent(front, c);
      WithoutAbsent(kept, c);
    } else {
      assert c in kept;
      LastWithout(front, c, n - 1);
      LastOfAppend(Without(front, c), last, n - 1);
    }
  }

  lemma LastIsNotBefore(s: seq<string>)
    requires Distinct(s) && s != []
    ensures s[|s| - 1] !in s[..|s| - 1] && Distinct(s[..|s| - 1])
  {
  }

  /** Dropping an element that is not among the last `n` does not change the last `n`. */
  lemma {:induction false} LastWithoutOther(s: seq<string>, c: string, n: nat)
    requires c !in LastOf(s, n)
    ensures LastOf(Without(s, c), n) == LastOf(s, n)
  {
    if n > 0 && s != [] {
      var front, last := s[..|s| - 1], s[|s| - 1];
      assert s == front + [last];
      LastOfAppend(front, last, n);
      LastWithoutOther(front, c, n - 1);
      LastOfAppend(Without(front, c), last, n);
    }
  }

  lemma LastOfLast(s: seq<string>, m: nat, n: nat)
    requires m <= n
    ensures LastOf(LastOf(s, n), m) == LastOf(s, m)
  {
  }

  lemma RecentNext(h: seq<Event>, e: Event, n: nat)
    requires n > 0
    ensures Recent(h + [e], n) == LastOf(Without(ByRecency(h), e.code), n - 1) + [e.code]
  {
    assert (h + [e])[..|h|] == h;
    LastOfAppend(Without(ByRecency(h), e.code), e.code, n);
  }

  /** One more record turns the recent codes into what the tracker makes of them. */
  lemma RecentStep(h: seq<Event>, e: Event, n: nat)
    ensures var before, after := Recent(h, n), Recent(h + [e], n);
            after == if e.code in before then Without(before, e.code) + [e.code] else LastOf(before + [e.code], n)
  {
    if n > 0 {
      RecencyIsDistinct(h);
      RecentNext(h, e, n);
      RecentStepFrom(ByRecency(h), e.code, n);
    }
  }

  lemma FewerOfLast(s: seq<string>, m: nat, n: nat)
    requires m <= n
    ensures forall x :: x in LastOf(s, m) ==> x in LastOf(s, n)
  {
    assert forall i :: 0 <= i < |LastOf(s, m)| ==> LastOf(s, m)[i] == LastOf(s, n)[|LastOf(s, n)| - |LastOf(s, m)| + i];
  }

  lemma RecentStepFrom(all: seq<string>, c: string, n: nat)
    requires Distinct(all) && n > 0
    ensures LastOf(Without(all, c), n - 1) + [c]
            == if c in LastOf(all, n) then Without(LastOf(all, n), c) + [c] else LastOf(LastOf(all, n) + [c], n)
  {
    if c in LastOf(all, n) {
      LastWithout(all, c, n);
    } else {
      LastOfAppend(LastOf(all, n), c, n);
      LastOfLast(all, n - 1, n);
      FewerOfLast(all, n - 1, n);
      LastWithoutOther(all, c, n - 1);
    }
  }

  // ---- The tracker is that function of its history ----

  lemma ArrivalStep(h: seq<Event>, e: Event, n: nat, c: string)
    ensures Arrival(h + [e], n, c) == if h != [] && c in Recent(h, n) then Arrival(h, n, c) else |h|
  {
    assert (h + [e])[..|h|] == h;
  }

  lemma IndexStep(h: seq<Event>, e: Event, c: string)
    requires c in Codes(h) || c == e.code
    ensures c in Codes(h + [e])
    ensures LastIndex(h + [e], c) == if c == e.code then |h| else LastIndex(h, c)
  {
    assert (h + [e])[..|h|] == h;
    CodesGrow(h + [e]);
  }

  lemma OccurrencesStep(h: seq<Event>, e: Event, a: nat, c: string)
    requires a <= |h|
    ensures Occurrences((h + [e])[a..], c) == Occurrences(h[a..], c) + if c == e.code then 1 else 0
  {
    assert (h + [e])[a..] == h[a..] + [e];
    assert (h[a..] + [e])[..|h| - a] == h[a..];
  }

  lemma SummaryStep(i: Issue, h: seq<Event>, e: Event, n: nat, c: string)
    requires c in Codes(h) && c in Recent(h, n) && Summarises(i, h, n, c)
    ensures c in Codes(h + [e])
    ensures Summarises(if c == e.code then i.(count := i.count + 1, lastSeen := e.now) else i, h + [e], n, c)
  {
    ArrivalStep(h, e, n, c);
    IndexStep(h, e, c);
    OccurrencesStep(h, e, Arrival(h, n, c), c);
  }

  lemma NewSummary(h: seq<Event>, e: Event, n: nat)
    requires e.code !in Recent(h, n)
    ensures e.code in Codes(h + [e])
    ensures Summarises(Issue(e.code, e.component, 1, e.now, e.later), h + [e], n, e.code)
  {
    ArrivalStep(h, e, n, e.code);
    IndexStep(h, e, e.code);
    OccurrencesStep(h, e, |h|, e.code);
  }

  lemma RecordedOrder(t: Table, h: seq<Event>, n: nat, e: Event)
    requires Tracks(t, h, n)
    ensures var t' := Recorded(t, n, e);
            && t'.order == Recent(h + [e], n)
            && (forall c :: c in t'.order <==> c in t'.issues)
            && (forall c :: c in t'.issues ==> c in t.issues || c == e.code)
  {
    RecentStep(h, e, n);
  }

  /** Recording keeps the table equal to the recent codes and their summaries. */
  lemma RecordTracks(t: Table, h: seq<Event>, n: nat, e: Event)
    requires Tracks(t, h, n)
    ensures Tracks(Recorded(t, n, e), h + [e], n)
  {
    var t' := Recorded(t, n, e);
    RecordedOrder(t, h, n, e);
    forall c | c in t'.issues
      ensures c in Codes(h + [e]) && Summarises(t'.issues[c], h + [e], n, c)
    {
      if c in t.issues {
        SummaryStep(t.issues[c], h, e, n, c);
      } else {
        NewSummary(h, e, n);
      }
    }
  }

  function RecordAll(t: Table, n: nat, h: seq<Event>): Table {
    if h == [] then t else Recorded(RecordAll(t, n, h[..|h| - 1]), n, h[|h| - 1])
  }

  lemma RecordAllTracks(h: seq<Event>, e: Event, n: nat)
    requires Tracks(RecordAll(EMPTY, n, h), h, n)
    ensures Tracks(RecordAll(EMPTY, n, h + [e]), h + [e], n)
  {
    assert RecordAll(EMPTY, n, h + [e]) == Recorded(RecordAll(EMPTY, n, h), n, e) by {
      assert (h + [e])[..|h|] == h;
    }
    RecordTracks(RecordAll(EMPTY, n, h), h, n, e);
  }

  /** Main result: the tracker is the recent-codes function of everything ever recorded. */
  lemma {:induction false} TrackerIsFunctionOfHistory(h: seq<Event>, n: nat)
    ensures Tracks(RecordAll(EMPTY, n, h), h, n)
  {
    if |h| > 0 {
      var front, e := h[..|h| - 1], h[|h| - 1];
      TrackerIsFunctionOfHistory(front, n);
      RecordAllTracks(front, e, n);
      assert h == front + [e];
    } else {
      assert h == [] && RecordAll(EMPTY, n, []) == EMPTY;
    }
  }

  // ---- What "recent" means ----

  predicate IsAt(s: seq<string>, p: nat, c: string) { p < |s| && s[p] == c }

  ghost predicate SameCodes(s: seq<string>, xs: set<string>) { forall x :: x in s <==> x in xs }

  /** A later record of another code extends what came since `c`. */
  lemma SinceGrows(h: seq<Event>, c: string)
    requires h != [] && c in Codes(h) && h[|h| - 1].code != c
    ensures c in Codes(h[..|h| - 1])
    ensures var front := h[..|h| - 1];
            h[LastIndex(h, c) + 1..] == front[LastIndex(front, c) + 1..] + [h[|h| - 1]]
  {
    CodesGrow(h);
  }

  /** The codes behind `c` in the order are exactly those recorded since `c` last was. */
  lemma {:induction false} CodesBehind(h: seq<Event>, c: string, p: nat)
    requires c in Codes(h) && IsAt(ByRecency(h), p, c)
    ensures SameCodes(ByRecency(h)[p + 1..], Codes(h[LastIndex(h, c) + 1..]))
  {
    var h', e := h[..|h| - 1], h[|h| - 1];
    var before := ByRecency(h');
    RecencyIsDistinct(h);
    if e.code == c {
      var s := ByRecency(h);
      assert s[|s| - 1] == c && p == |s| - 1;
      assert h[|h|..] == [];
    } else {
      RecencyIsDistinct(h');
      SinceGrows(h, c);
      assert c in before;
      var q :| 0 <= q < |before| && before[q] == c;
      CodesBehind(h', c, q);
      BehindStep(before, q, h'[LastIndex(h', c) + 1..], e, p);
    }
  }

  lemma TailOfAppend(s: seq<string>, x: string, p: nat)
    requires p < |s|
    ensures (s + [x])[p + 1..] == s[p + 1..] + [x]
  {
  }

  lemma BehindStep(before: seq<string>, q: nat, since: seq<Event>, e: Event, p: nat)
    requires Distinct(before) && q < |before| && before[q] != e.code && SameCodes(before[q + 1..], Codes(since))
    requires IsAt(Without(before, e.code) + [e.code], p, before[q])
    ensures SameCodes((Without(before, e.code) + [e.code])[p + 1..], Codes(since + [e]))
  {
    var w := Without(before, e.code);
    WithoutBehind(before, e.code, q, p);
    SameCodesStep(before[q + 1..], since, e);
    TailOfAppend(w, e.code, p);
  }

  lemma SameCodesStep(s: seq<string>, h: seq<Event>, e: Event)
    requires SameCodes(s, Codes(h))
    ensures SameCodes(Without(s, e.code) + [e.code], Codes(h + [e]))
  {
    assert (h + [e])[..|h|] == h;
    CodesGrow(h + [e]);
  }

  lemma {:induction false} WithoutBehind(s: seq<string>, x: string, q: nat, p: nat)
    requires Distinct(s) && q < |s| && s[q] != x && IsAt(Without(s, x), p, s[q])
    ensures Without(s, x)[p + 1..] == Without(s[q + 1..], x)
  {
    var front, last := s[..|s| - 1], s[|s| - 1];
    var w := Without(front, x);
    if q == |s| - 1 {
      assert forall i :: 0 <= i < |w| ==> w[i] in w;
      assert p == |w|;
    } else {
      var tail := s[q + 1..];
      assert front[q] == s[q] && tail[..|tail| - 1] == front[q + 1..];
      assert s[q] != last;
      assert IsAt(w, p, s[q]);
      WithoutBehind(front, x, q, p);
    }
  }

  lemma {:induction false} DistinctSize(s: seq<string>, xs: set<string>)
    requires Distinct(s) && forall x :: x in s <==> x in xs
    ensures |s| == |xs|
  {
    if s == [] {
      assert xs == {};
    } else {
      var front, last := s[..|s| - 1], s[|s| - 1];
      assert forall x :: x in s <==> x in front || x == last;
      DistinctSize(front, xs - {last});
    }
  }

  lemma AmongLast(s: seq<string>, n: nat, p: nat)
    requires Distinct(s) && p < |s|
    ensures s[p] in LastOf(s, n) <==> |s| - p <= n
  {
    var last := LastOf(s, n);
    var from := |s| - |last|;
    assert last == s[from..];
    if s[p] in last {
      var j :| 0 <= j < |last| && last[j] == s[p];
      assert s[from + j] == s[p];
    }
    if |s| - p <= n {
      assert last[p - from] == s[p];
    }
  }

  lemma BehindSize(h: seq<Event>, c: string, p: nat)
    requires c in Codes(h) && IsAt(ByRecency(h), p, c)
    ensures |ByRecency(h)| - (p + 1) == |Codes(h[LastIndex(h, c) + 1..])|
  {
    RecencyIsDistinct(h);
    CodesBehind(h, c, p);
    TailIsDistinct(ByRecency(h), p + 1);
    DistinctSize(ByRecency(h)[p + 1..], Codes(h[LastIndex(h, c) + 1..]));
  }

  /** A recorded code is still tracked exactly when fewer than `n` distinct codes have been recorded since. */
  lemma TrackedIffFewSince(h: seq<Event>, n: nat, c: string)
    requires c in Codes(h)
    ensures c in Recent(h, n) <==> |Codes(h[LastIndex(h, c) + 1..])| < n
  {
    RecencyIsDistinct(h);
    var s := ByRecency(h);
    assert c in s;
    var p :| 0 <= p < |s| && s[p] == c;
    AmongLast(s, n, p);
    BehindSize(h, c, p);
  }

  /** The order is the order of last occurrence. */
  lemma OrderedByLastIndex(h: seq<Event>, p: nat, q: nat)
    requires p < q < |ByRecency(h)|
    ensures ByRecency(h)[p] in Codes(h) && ByRecency(h)[q] in Codes(h)
    ensures LastIndex(h, ByRecency(h)[p]) < LastIndex(h, ByRecency(h)[q])
  {
    var s := ByRecency(h);
    RecencyIsDistinct(h);
    var c, d := s[p], s[q];
    assert c in s && d in s;
    CodesBehind(h, c, p);
    assert d == s[p + 1..][q - p - 1];
    var i := LastIndex(h, c);
    var rest := h[i + 1..];
    assert d in s[p + 1..] && d in Codes(rest);
    var j :| 0 <= j < |rest| && rest[j].code == d;
    LastIndexIsLast(h, d, i + 1 + j);
  }

  lemma {:induction false} LastIndexIsLast(h: seq<Event>, c: string, i: nat)
    requires i < |h| && h[i].code == c
    ensures c in Codes(h) && i <= LastIndex(h, c)
  {
    if i < |h| - 1 && h[|h| - 1].code != c {
      LastIndexIsLast(h[..|h| - 1], c, i);
    }
  }

  // ---- With a clock that never runs backwards the active issues are a suffix ----

  ghost predicate SeenBy(s: seq<string>, issues: map<string, Issue>) {
    && (forall c :: c in s ==> c in issues)
    && (forall i, j :: 0 <= i < j < |s| ==> issues[s[i]].lastSeen <= issues[s[j]].lastSeen)
  }

  ghost predicate SeenInOrder(t: Table, clock: real) {
    && Valid(t)
    && (forall c :: c in t.issues ==> t.issues[c].lastSeen <= clock)
    && SeenBy(t.order, t.issues)
  }

  lemma SeenBeforeLast(s: seq<string>, issues: map<string, Issue>)
    requires SeenBy(s, issues) && s != []
    ensures SeenBy(s[..|s| - 1], issues)
    ensures forall c :: c in s[..|s| - 1] ==> issues[c].lastSeen <= issues[s[|s| - 1]].lastSeen
  {
    var front, last := s[..|s| - 1], s[|s| - 1];
    forall c | c in front
      ensures c in s && issues[c].lastSeen <= issues[last].lastSeen
    {
      var k :| 0 <= k < |front| && front[k] == c;
      assert s[k] == c;
    }
  }

  lemma SeenAppend(s: seq<string>, issues: map<string, Issue>, c: string)
    requires SeenBy(s, issues) && c in issues && forall x :: x in s ==> issues[x].lastSeen <= issues[c].lastSeen
    ensures SeenBy(s + [c], issues)
  {
  }

  lemma {:induction false} WithoutKeepsSeen(s: seq<string>, x: string, issues: map<string, Issue>)
    requires SeenBy(s, issues)
    ensures SeenBy(Without(s, x), issues)
  {
    if s != [] {
      var front, last := s[..|s| - 1], s[|s| - 1];
      SeenBeforeLast(s, issues);
      WithoutKeepsSeen(front, x, issues);
      if last != x {
        assert forall c :: c in Without(front, x) ==> c in front;
        SeenAppend(Without(front, x), issues, last);
      }
    }
  }

  /** Recording at a later time appends a code that was seen last. */
  lemma SeenLast(s: seq<string>, issues: map<string, Issue>, c: string, i: Issue)
    requires SeenBy(s, issues) && c !in s
    requires forall x :: x in s ==> issues[x].lastSeen <= i.lastSeen
    ensures SeenBy(s + [c], issues[c := i])
  {
    forall j | 0 <= j < |s|
      ensures s[j] in s && s[j] != c
    {
    }
  }

  lemma KnownKeepsOrder(t: Table, n: nat, e: Event, clock: real)
    requires SeenInOrder(t, clock) && clock <= e.now <= e.later && e.code in t.issues
    ensures SeenInOrder(Recorded(t, n, e), e.later)
  {
    var w := Without(t.order, e.code);
    var i := t.issues[e.code];
    WithoutIsDistinct(t.order, e.code);
    AppendDistinct(w, e.code);
    WithoutKeepsSeen(t.order, e.code, t.issues);
    SeenLast(w, t.issues, e.code, i.(count := i.count + 1, lastSeen := e.now));
  }

  lemma NewIsSeenLast(t: Table, i: Issue, clock: real, later: real)
    requires SeenInOrder(t, clock) && clock <= i.lastSeen <= later && i.code !in t.issues
    ensures SeenInOrder(Table(t.order + [i.code], t.issues[i.code := i]), later)
  {
    AppendDistinct(t.order, i.code);
    SeenLast(t.order, t.issues, i.code, i);
  }

  lemma EvictionKeepsOrder(t: Table, n: nat, clock: real)
    requires SeenInOrder(t, clock)
    ensures var order := LastOf(t.order, n); SeenInOrder(Table(order, Restrict(t.issues, order)), clock)
  {
    EvictedIsValid(t, n);
    SeenTail(t.order, |t.order| - |LastOf(t.order, n)|, t.issues);
  }

  lemma NewKeepsOrder(t: Table, n: nat, e: Event, clock: real)
    requires SeenInOrder(t, clock) && clock <= e.now <= e.later && e.code !in t.issues
    ensures SeenInOrder(Recorded(t, n, e), e.later)
  {
    var i := Issue(e.code, e.component, 1, e.now, e.later);
    NewIsSeenLast(t, i, clock, e.later);
    EvictionKeepsOrder(Table(t.order + [e.code], t.issues[e.code := i]), n, e.later);
  }

  lemma SeenTail(s: seq<string>, k: nat, issues: map<string, Issue>)
    requires SeenBy(s, issues) && k <= |s|
    ensures SeenBy(s[k..], Restrict(issues, s[k..]))
  {
    forall i, j | 0 <= i < j < |s| - k
      ensures issues[s[k..][i]].lastSeen <= issues[s[k..][j]].lastSeen
    {
      assert issues[s[k + i]].lastSeen <= issues[s[k + j]].lastSeen;
    }
  }

  lemma RecordKeepsOrder(t: Table, n: nat, e: Event, clock: real)
    requires SeenInOrder(t, clock) && clock <= e.now <= e.later
    ensures SeenInOrder(Recorded(t, n, e), e.later)
  {
    if e.code in t.issues {
      KnownKeepsOrder(t, n, e, clock);
    } else {
      NewKeepsOrder(t, n, e, clock);
    }
  }

  /** A history whose clock readings never go back. */
  ghost predicate Clocked(h: seq<Event>) {
    && (forall i :: 0 <= i < |h| ==> h[i].now <= h[i].later)
    && (forall i :: 0 < i < |h| ==> h[i - 1].later <= h[i].now)
  }

  /** Any such history leaves a table ordered by the time last seen, the empty or a reloaded one, in that order. */
  lemma {:induction false} HistoryKeepsOrder(t: Table, start: real, h: seq<Event>, n: nat, clock: real)
    requires SeenInOrder(t, start) && Clocked(h)
    requires if h == [] then start <= clock else start <= h[0].now && h[|h| - 1].later <= clock
    ensures SeenInOrder(RecordAll(t, n, h), clock)
  {
    if h != [] {
      var front, e := h[..|h| - 1], h[|h| - 1];
      HistoryKeepsOrder(t, start, front, n, e.now);
      RecordKeepsOrder(RecordAll(t, n, front), n, e, e.now);
      assert SeenInOrder(RecordAll(t, n, h), e.later);
    }
  }

  /** The records of the codes from `k` up to `upTo`. */
  ghost function RecordsBetween(t: Table, k: nat, upTo: nat): seq<Issue>
    requires Valid(t) && k <= upTo <= |t.order|
  {
    seq(upTo - k, i requires 0 <= i < upTo - k => assert t.order[k + i] in t.order; t.issues[t.order[k + i]])
  }

  /** Everything before `k` was last seen before the cutoff, everything from `k` on at or after it. */
  ghost predicate Parts(t: Table, cutoff: real, k: nat, upTo: nat)
    requires Valid(t) && upTo <= |t.order|
  {
    k <= upTo && forall i: nat :: i < upTo ==> (RecordAt(t, i).lastSeen >= cutoff <==> k <= i)
  }

  lemma LastIsLatest(t: Table, clock: real, upTo: nat)
    requires SeenInOrder(t, clock) && 0 < upTo <= |t.order|
    ensures forall i: nat :: i < upTo ==> RecordAt(t, i).lastSeen <= RecordAt(t, upTo - 1).lastSeen
  {
  }

  /** The active issues are the records of a suffix of the order, the part that was seen at or after the cutoff. */
  lemma {:induction false} ActiveIsSuffix(t: Table, clock: real, cutoff: real, upTo: nat) returns (k: nat)
    requires SeenInOrder(t, clock) && upTo <= |t.order|
    ensures Parts(t, cutoff, k, upTo) && Active(t, cutoff, upTo) == RecordsBetween(t, k, upTo)
  {
    if upTo == 0 {
      k := 0;
      return;
    }
    var c := t.order[upTo - 1];
    assert c in t.order;
    LastIsLatest(t, clock, upTo);
    if t.issues[c].lastSeen >= cutoff {
      k := ActiveIsSuffix(t, clock, cutoff, upTo - 1);
      assert RecordsBetween(t, k, upTo) == RecordsBetween(t, k, upTo - 1) + [t.issues[c]];
    } else {
      k := upTo;
      NoneActive(t, cutoff, upTo);
    }
  }

  lemma {:induction false} NoneActive(t: Table, cutoff: real, upTo: nat)
    requires Valid(t) && SeenBy(t.order, t.issues) && upTo <= |t.order|
    requires upTo > 0 ==> t.order[upTo - 1] in t.issues && t.issues[t.order[upTo - 1]].lastSeen < cutoff
    ensures Active(t, cutoff, upTo) == []
  {
    if upTo > 1 {
      assert t.order[upTo - 2] in t.order && t.order[upTo - 1] in t.order;
      NoneActive(t, cutoff, upTo - 1);
    } else if upTo == 1 {
      assert Active(t, cutoff, 0) == [];
    }
  }

  /** After any history with a clock that never goes back,
      the active issues are those of a suffix of the recent codes. */
  lemma ActiveOfHistoryIsSuffix(h: seq<Event>, n: nat, cutoff: real) returns (k: nat)
    requires Clocked(h)
    ensures var t := RecordAll(EMPTY, n, h);
            && Valid(t) && t.order == Recent(h, n) && Parts(t, cutoff, k, |t.order|)
            && Active(t, cutoff, |t.order|) == RecordsBetween(t, k, |t.order|)
  {
    var t := RecordAll(EMPTY, n, h);
    var clock := if h == [] then 0.0 else h[|h| - 1].later;
    HistoryKeepsOrder(EMPTY, if h == [] then 0.0 else h[0].now, h, n, clock);
    TrackerIsFunctionOfHistory(h, n);
    k := ActiveIsSuffix(t, clock, cutoff, |t.order|);
  }

  // ---- Persist and reload ----

  lemma SavedNext(t: Table, k: nat)
    requires Valid(t) && k < |t.order|
    ensures t.order[k] in t.issues && SavedTable(t, k + 1) == SavedTable(t, k) + [Saved(t.issues[t.order[k]])]
  {
    assert t.order[k] in t.order;
  }

  /** `r` is the first `k` issues of `t`. */
  ghost predicate IsPrefix(r: Table, t: Table, k: nat)
    requires k <= |t.order|
  {
    && r.order == t.order[..k]
    && (forall c :: c in r.issues <==> c in t.order[..k])
    && (forall c :: c in r.issues ==> c in t.issues && r.issues[c] == t.issues[c])
  }

  lemma PrefixNext(r: Table, t: Table, k: nat)
    requires Valid(t) && k < |t.order| && t.order[k] in t.issues && IsPrefix(r, t, k)
    ensures IsPrefix(Assigned(r, t.issues[t.order[k]]), t, k + 1)
  {
    assert t.order[k] !in t.order[..k];
    assert t.order[..k + 1] == t.order[..k] + [t.order[k]];
  }

  lemma {:induction false} ReloadPrefix(t: Table, k: nat, clock: nat -> real)
    requires Valid(t) && k <= |t.order|
    ensures IsPrefix(Reloaded(EMPTY, SavedTable(t, k), clock), t, k)
  {
    if k > 0 {
      ReloadPrefix(t, k - 1, clock);
      SavedNext(t, k - 1);
      PrefixNext(Reloaded(EMPTY, SavedTable(t, k - 1), clock), t, k - 1);
      ReloadedAppend(EMPTY, SavedTable(t, k - 1), Saved(t.issues[t.order[k - 1]]), clock);
    }
  }

  /** Persisting and then reloading into an empty tracker restores the same issues in the same order. */
  lemma PersistReloadRoundTrip(t: Table, clock: nat -> real)
    requires Valid(t)
    ensures Reloaded(EMPTY, SavedTable(t, |t.order|), clock) == t
  {
    ReloadPrefix(t, |t.order|, clock);
    assert t.order[..|t.order|] == t.order;
    var r := Reloaded(EMPTY, SavedTable(t, |t.order|), clock);
    assert r.issues == t.issues;
  }

  // ---- What a reload makes of a file ----

  /** The last item of its code. */
  predicate LastItem(items: seq<Item>, i: nat) {
    i < |items| && forall j :: i < j < |items| ==> items[j].code != items[i].code
  }

  /** The record of an item: what it names, or else "unknown", one, and the two readings of the clock for it. */
  predicate TakenFrom(r: Issue, item: Item, firstNow: real, lastNow: real) {
    && r.code == item.code
    && (match item.component case Some(c) => r.component == c case None => r.component == "unknown")
    && (match item.count case Some(c) => r.count == c case None => r.count == 1)
    && (match item.firstSeen case Some(s) => r.firstSeen == s case None => r.firstSeen == firstNow)
    && (match item.lastSeen case Some(s) => r.lastSeen == s case None => r.lastSeen == lastNow)
  }

  /** After a reload each code of the file has the record of its last item there ... */
  lemma {:induction false} ReloadTakesLast(t: Table, items: seq<Item>, i: nat, clock: nat -> real)
    requires LastItem(items, i)
    ensures var r := Reloaded(t, items, clock).issues;
            items[i].code in r && TakenFrom(r[items[i].code], items[i], clock(2 * i), clock(2 * i + 1))
    decreases |items|
  {
    var last := |items| - 1;
    if i < last {
      assert items[i].code != items[last].code;
      ReloadTakesLast(t, items[..last], i, clock);
    }
  }

  /** ... and every other code keeps its own. */
  lemma {:induction false} ReloadKeepsOthers(t: Table, items: seq<Item>, c: string, clock: nat -> real)
    requires forall i :: 0 <= i < |items| ==> items[i].code != c
    ensures var r := Reloaded(t, items, clock).issues;
            if c in t.issues then c in r && r[c] == t.issues[c] else c !in r
  {
    if items != [] {
      ReloadKeepsOthers(t, items[..|items| - 1], c, clock);
    }
  }

  /** A code keeps the place where it first came in: the table's own codes first, then the file's. */
  lemma {:induction false} ReloadKeepsPlaces(t: Table, items: seq<Item>, k: nat, clock: nat -> real)
    requires Valid(t) && k <= |items|
    ensures var part, all := Reloaded(t, items[..k], clock), Reloaded(t, items, clock);
            && part.order <= all.order && Valid(all)
            && forall c :: c in all.order <==> c in t.order || c in ItemCodes(items)
    decreases |items|
  {
    var last := |items| - 1;
    if items == [] {
      assert items[..k] == [];
    } else {
      ItemCodesGrow(items);
      AssignedIsValidAfter(t, items, clock);
      if k == |items| {
        assert items[..k] == items;
        ReloadKeepsPlaces(t, items[..last], last, clock);
      } else {
        ReloadKeepsPlaces(t, items[..last], k, clock);
        assert items[..last][..k] == items[..k];
      }
    }
  }

  lemma {:induction false} AssignedIsValidAfter(t: Table, items: seq<Item>, clock: nat -> real)
    requires Valid(t) && items != []
    ensures var before := Reloaded(t, items[..|items| - 1], clock);
            Valid(before) && Valid(Reloaded(t, items, clock))
            && forall c :: c in Reloaded(t, items, clock).order <==> c in before.order || c == items[|items| - 1].code
    decreases |items|
  {
    var i := |items| - 1;
    if i > 0 {
      AssignedIsValidAfter(t, items[..i], clock);
    }
    AssignedIsValid(Reloaded(t, items[..i], clock), Loaded(items[i], clock(2 * i), clock(2 * i + 1)));
  }

  function ItemCodes(items: seq<Item>): set<string> { set i | 0 <= i < |items| :: items[i].code }

  lemma ItemCodesGrow(items: seq<Item>)
    requires items != []
    ensures ItemCodes(items) == ItemCodes(items[..|items| - 1]) + {items[|items| - 1].code}
  {
    var front, last := items[..|items| - 1], items[|items| - 1];
    forall c | c in ItemCodes(items)
      ensures c in ItemCodes(front) + {last.code}
    {
      var i :| 0 <= i < |items| && items[i].code == c;
      assert i < |front| ==> front[i].code == c;
    }
    forall c | c in ItemCodes(front)
      ensures c in ItemCodes(items)
    {
      var i :| 0 <= i < |front| && front[i].code == c;
      assert items[i].code == c;
    }
  }

  lemma {:induction false} ReloadCodes(items: seq<Item>, clock: nat -> real)
    ensures var r := Reloaded(EMPTY, items, clock); Valid(r) && forall c :: c in r.order <==> c in ItemCodes(items)
  {
    if items != [] {
      var i := |items| - 1;
      ReloadCodes(items[..i], clock);
      ItemCodesGrow(items);
      AssignedIsValid(Reloaded(EMPTY, items[..i], clock), Loaded(items[i], clock(2 * i), clock(2 * i + 1)));
    }
  }

  /** Reloading does not evict: the bound holds afterwards exactly when the file names no more codes than fit. */
  lemma ReloadRespectsBoundIff(items: seq<Item>, n: nat, clock: nat -> real)
    ensures |Reloaded(EMPTY, items, clock).order| <= n <==> |ItemCodes(items)| <= n
  {
    ReloadCodes(items, clock);
    DistinctSize(Reloaded(EMPTY, items, clock).order, ItemCodes(items));
  }
}
