/**
 Persistence of the co-pilot chat: one transaction per message, a counter per
 chat session kept beside the rows, and idempotent inserts of user messages that
 carry a client message id. Transactions run one after another; any commit may fail.
 */
module MessageStore {
  import opened Wrappers

  // ---- Data ----

  datatype Role = UserRole | AssistantRole | SystemRole

  datatype Kind = ChatKind | NudgeKind

  /** A chat session is named by its position in creation order. */
  type ChatId = nat

  datatype Row = Row(chat: ChatId, role: Role, content: string, kind: Kind, clientId: Option<string>)

  datatype Chat = Chat(userId: string, archived: bool, count: nat)

  datatype Store = Store(rows: seq<Row>, chats: seq<Chat>)

  /** Rows that the partial unique index holds for equal. */
  predicate SameKey(a: Row, b: Row) { a.clientId.Some? && a.chat == b.chat && a.clientId == b.clientId }

  predicate Conflicts(rows: seq<Row>, row: Row) { exists i :: 0 <= i < |rows| && SameKey(rows[i], row) }

  /** Whether rows added one by one run into the index. */
  predicate Clashes(rows: seq<Row>, added: seq<Row>) {
    exists i :: 0 <= i < |added| && Conflicts(rows + added[..i], added[i])
  }

  predicate Unique(rows: seq<Row>) { forall i, j :: 0 <= i < j < |rows| ==> !SameKey(rows[i], rows[j]) }

  function CountRows(rows: seq<Row>, chat: ChatId): nat {
    if rows == [] then 0
    else CountRows(rows[..|rows| - 1], chat) + if rows[|rows| - 1].chat == chat then 1 else 0
  }

  /** What every transaction keeps: counters equal row counts, and the index is respected. */
  ghost predicate Consistent(st: Store) {
    && (forall c :: 0 <= c < |st.chats| ==> CountedRight(st, c))
    && (forall i :: 0 <= i < |st.rows| ==> st.rows[i].chat < |st.chats|)
    && Unique(st.rows)
  }

  predicate CountedRight(st: Store, c: ChatId)
    requires c < |st.chats|
  {
    st.chats[c].count == CountRows(st.rows, c)
  }

  // ---- Transactions ----

  datatype Fault = NoFault | AtCreate | AtInsert

  /** The user's newest chat that is not archived. */
  function CurrentChat(chats: seq<Chat>, userId: string): (c: Option<ChatId>)
    ensures c.Some? ==> c.value < |chats| && chats[c.value].userId == userId && !chats[c.value].archived
    ensures c.Some? ==> forall d :: c.value < d < |chats| ==> chats[d].userId != userId || chats[d].archived
    ensures c.None? ==> forall d :: 0 <= d < |chats| ==> chats[d].userId != userId || chats[d].archived
  {
    if chats == [] then None
    else if chats[|chats| - 1].userId == userId && !chats[|chats| - 1].archived then Some(|chats| - 1)
    else CurrentChat(chats[..|chats| - 1], userId)
  }

  /** The store with a current chat for the user; `None` when its creation failed. */
  function WithChat(st: Store, userId: string, fault: Fault): Option<Store> {
    if CurrentChat(st.chats, userId).Some? then Some(st)
    else if fault == AtCreate then None
    else Some(st.(chats := st.chats + [Chat(userId, false, 0)]))
  }

  /** One row and its counter, in one transaction that the index or a fault may refuse. */
  function Insert(st: Store, row: Row, fault: Fault): Store
    requires row.chat < |st.chats|
  {
    if fault == AtInsert || Conflicts(st.rows, row) then st
    else Store(st.rows + [row], st.chats[row.chat := st.chats[row.chat].(count := st.chats[row.chat].count + 1)])
  }

  function UserRow(chat: ChatId, content: string, clientId: Option<string>): Row {
    Row(chat, UserRole, content, ChatKind, clientId)
  }

  function AssistantRow(chat: ChatId, content: string): Row { Row(chat, AssistantRole, content, ChatKind, None) }

  /** A question and its answer with the counter raised by two, all or nothing. */
  function InsertExchange(st: Store, chat: ChatId, question: string, answer: string,
                          clientId: Option<string>, fault: Fault): Store
    requires chat < |st.chats|
  {
    var user := UserRow(chat, question, clientId);
    if fault == AtInsert || Conflicts(st.rows, user) then st
    else Store(st.rows + [user, AssistantRow(chat, answer)],
               st.chats[chat := st.chats[chat].(count := st.chats[chat].count + 2)])
  }

  /** An empty client id counts as none. */
  function Key(clientId: Option<string>): Option<string> {
    if clientId == Some("") then None else clientId
  }

  datatype Event =
    | UserMessage(userId: string, content: string, clientId: Option<string>, seen: bool, fault: Fault)
    | AssistantMessage(userId: string, content: string, fault: Fault)
    | Nudge(userId: string, content: string, fault: Fault)
    | Exchange(chat: ChatId, question: string, answer: string, clientId: Option<string>, fault: Fault)
    | Archive(chat: ChatId)

  /** Whether an event is one message, and one that is written. */
  predicate Writes(e: Event) { e.UserMessage? || e.AssistantMessage? || (e.Nudge? && e.userId != "") }

  function RowOf(e: Event, chat: ChatId): Row
    requires Writes(e)
  {
    match e
    case UserMessage(_, content, clientId, _, _) => UserRow(chat, content, Key(clientId))
    case AssistantMessage(_, content, _) => AssistantRow(chat, content)
    case Nudge(_, content, _) => Row(chat, SystemRole, content, NudgeKind, None)
  }

  /**
   One message, one exchange or one archiving. `seen` says whether the duplicate check of the
   handler sees the earlier row; it makes no difference to the result.
   */
  function Step(st: Store, e: Event): Store {
    if e.Archive? then
      if e.chat < |st.chats| then st.(chats := st.chats[e.chat := st.chats[e.chat].(archived := true)]) else st
    else if e.Exchange? then
      if e.chat < |st.chats| then InsertExchange(st, e.chat, e.question, e.answer, e.clientId, e.fault) else st
    else if !Writes(e) then st
    else
      match WithChat(st, e.userId, e.fault)
      case None => st
      case Some(st1) => Insert(st1, RowOf(e, TheChat(st1, e.userId)), e.fault)
  }

  function TheChat(st: Store, userId: string): (c: ChatId)
    requires CurrentChat(st.chats, userId).Some?
    ensures c < |st.chats|
  {
    CurrentChat(st.chats, userId).value
  }

  // ---- The code: a unit of work over the committed store ----

  datatype CommitResult = Committed | IntegrityError | OtherError

  lemma OneRowClashes(rows: seq<Row>, row: Row)
    ensures Clashes(rows, [row]) <==> Conflicts(rows, row)
  {
    assert rows + [row][..0] == rows;
  }

  /** The answer has no client id, so only the question can run into the index. */
  lemma ExchangeClashes(rows: seq<Row>, user: Row, assistant: Row)
    requires assistant.clientId == None
    ensures Clashes(rows, [user, assistant]) <==> Conflicts(rows, user)
  {
    var added := [user, assistant];
    assert rows + added[..0] == rows;
    assert !Conflicts(rows + added[..1], assistant);
    assert Conflicts(rows, user) ==> Conflicts(rows + added[..0], added[0]);
  }

  class Database {
    var committed: Store
    var stagedRows: seq<Row>
    var stagedChats: seq<Chat>

    constructor ()
      ensures committed == Store([], []) && Clean()
    {
      committed, stagedRows, stagedChats := Store([], []), [], [];
    }

    /** Nothing staged. */
    ghost predicate Clean()
      reads this
    {
      stagedRows == [] && stagedChats == committed.chats
    }

    /** All of the staged changes, or none of them. */
    method Commit(fails: bool) returns (result: CommitResult)
      modifies this
      ensures result == if Clashes(old(committed).rows, old(stagedRows)) then IntegrityError
                        else if fails then OtherError
                        else Committed
      ensures result == Committed ==>
              committed == Store(old(committed).rows + old(stagedRows), old(stagedChats)) && Clean()
      ensures result != Committed ==> committed == old(committed) && stagedRows == old(stagedRows)
    {
      if Clashes(committed.rows, stagedRows) { return IntegrityError; }
      if fails { return OtherError; }
      committed := Store(committed.rows + stagedRows, stagedChats);
      stagedRows := [];
      return Committed;
    }

    method Rollback()
      modifies this
      ensures Clean() && committed == old(committed)
    {
      stagedRows, stagedChats := [], committed.chats;
    }

    method GetOrCreateChat(userId: string, fault: Fault) returns (chat: Option<ChatId>)
      requires Clean()
      modifies this
      ensures match WithChat(old(committed), userId, fault)
              case None => chat == None && committed == old(committed)
              case Some(st) => committed == st && Clean() && chat == Some(TheChat(st, userId))
    {
      chat := CurrentChat(committed.chats, userId);
      if chat.None? {
        stagedChats := committed.chats + [Chat(userId, false, 0)];
        var result := Commit(fault == AtCreate);
        if result == Committed { chat := Some(|committed.chats| - 1); }
      }
    }

    /** Stages the row and the raised counter, then commits both. */
    method PersistMessage(row: Row, fault: Fault) returns (result: CommitResult)
      requires Clean() && row.chat < |committed.chats|
      modifies this
      ensures committed == Insert(old(committed), row, fault)
      ensures result == Committed <==> committed != old(committed)
      ensures result == IntegrityError <==> Conflicts(old(committed).rows, row)
    {
      stagedRows := stagedRows + [row];
      var chat := committed.chats[row.chat];
      stagedChats := stagedChats[row.chat := chat.(count := chat.count + 1)];
      assert stagedRows == [row];
      OneRowClashes(committed.rows, row);
      result := Commit(fault == AtInsert);
      assert result == Committed ==> |committed.rows| == |old(committed).rows| + 1;
    }

    /** A question and its answer, in one transaction. */
    method PersistMessagesAtomic(chatId: ChatId, question: string, answer: string,
                                 clientId: Option<string>, fault: Fault)
      returns (result: CommitResult)
      requires Clean() && chatId < |committed.chats|
      modifies this
      ensures committed == InsertExchange(old(committed), chatId, question, answer, clientId, fault)
      ensures result == IntegrityError <==> Conflicts(old(committed).rows, UserRow(chatId, question, clientId))
    {
      var user, assistant := UserRow(chatId, question, clientId), AssistantRow(chatId, answer);
      stagedRows := stagedRows + [user];
      stagedRows := stagedRows + [assistant];
      var chat := committed.chats[chatId];
      stagedChats := stagedChats[chatId := chat.(count := chat.count + 2)];
      assert stagedRows == [user, assistant];
      ExchangeClashes(committed.rows, user, assistant);
      result := Commit(fault == AtInsert);
    }

    /**
     The inbound message of a user. With a client id the handler looks for an
     earlier row first, and takes a refusal by the index for the same duplicate.
     */
    method PersistUserMessage(userId: string, content: string, clientId: Option<string>, seen: bool, fault: Fault)
      requires Clean()
      modifies this
      ensures Clean() && committed == Step(old(committed), UserMessage(userId, content, clientId, seen, fault))
    {
      var chat := GetOrCreateChat(userId, fault);
      if chat.Some? {
        if clientId.Some? && clientId.value != "" {
          var row := UserRow(chat.value, content, clientId);
          var duplicate := exists i :: 0 <= i < |committed.rows| && SameKey(committed.rows[i], row);
          if !(duplicate && seen) {
            var result := PersistMessage(row, fault);
            if result == IntegrityError {
              Rollback();
            }
          }
        } else {
          var _ := PersistMessage(UserRow(chat.value, content, None), fault);
        }
      }
      Rollback();
    }

    method PersistAssistantMessage(userId: string, content: string, fault: Fault)
      requires Clean()
      modifies this
      ensures Clean() && committed == Step(old(committed), AssistantMessage(userId, content, fault))
    {
      var chat := GetOrCreateChat(userId, fault);
      if chat.Some? {
        var _ := PersistMessage(AssistantRow(chat.value, content), fault);
      }
      Rollback();
    }

    method PersistNudge(userId: string, content: string, fault: Fault)
      requires Clean()
      modifies this
      ensures Clean() && committed == Step(old(committed), Nudge(userId, content, fault))
    {
      if userId != "" {
        var chat := GetOrCreateChat(userId, fault);
        if chat.Some? {
          var _ := PersistMessage(Row(chat.value, SystemRole, content, NudgeKind, None), fault);
        }
      }
      Rollback();
    }
  }

  // ---- Conservation ----

  lemma CountOfAppend(rows: seq<Row>, row: Row, chat: ChatId)
    ensures CountRows(rows + [row], chat) == CountRows(rows, chat) + if row.chat == chat then 1 else 0
  {
    assert (rows + [row])[..|rows|] == rows;
  }

  lemma {:induction false} NoRowsCountZero(rows: seq<Row>, chat: ChatId)
    requires forall i :: 0 <= i < |rows| ==> rows[i].chat != chat
    ensures CountRows(rows, chat) == 0
  {
    if rows != [] {
      NoRowsCountZero(rows[..|rows| - 1], chat);
    }
  }

  lemma NewChatKeeps(st: Store, userId: string, fault: Fault)
    requires Consistent(st)
    ensures match WithChat(st, userId, fault)
            case None => true
            case Some(st1) => Consistent(st1) && st1.rows == st.rows && CurrentChat(st1.chats, userId).Some?
  {
    var w := WithChat(st, userId, fault);
    if w.Some? && CurrentChat(st.chats, userId).None? {
      NoRowsCountZero(st.rows, |st.chats|);
      forall c | 0 <= c < |w.value.chats|
        ensures CountedRight(w.value, c)
      {
        assert c < |st.chats| ==> CountedRight(st, c);
      }
    }
  }

  lemma InsertKeeps(st: Store, row: Row, fault: Fault)
    requires Consistent(st) && row.chat < |st.chats|
    ensures Consistent(Insert(st, row, fault))
  {
    var st' := Insert(st, row, fault);
    if st' != st {
      forall c | 0 <= c < |st'.chats|
        ensures CountedRight(st', c)
      {
        assert CountedRight(st, c);
        CountOfAppend(st.rows, row, c);
      }
    }
  }

  lemma ExchangeKeeps(st: Store, chat: ChatId, question: string, answer: string, clientId: Option<string>, fault: Fault)
    requires Consistent(st) && chat < |st.chats|
    ensures Consistent(InsertExchange(st, chat, question, answer, clientId, fault))
  {
    var st' := InsertExchange(st, chat, question, answer, clientId, fault);
    if st' != st {
      var user, assistant := UserRow(chat, question, clientId), AssistantRow(chat, answer);
      InsertKeeps(st, user, fault);
      var mid := Insert(st, user, fault);
      InsertKeeps(mid, assistant, fault);
      assert !Conflicts(mid.rows, assistant);
      assert st'.rows == mid.rows + [assistant];
      assert st' == Insert(mid, assistant, fault);
    }
  }

  lemma StepKeepsConsistent(st: Store, e: Event)
    requires Consistent(st)
    ensures Consistent(Step(st, e))
  {
    if e.Archive? {
      var st' := Step(st, e);
      forall c | 0 <= c < |st'.chats|
        ensures CountedRight(st', c)
      {
        assert CountedRight(st, c);
      }
    } else if e.Exchange? {
      if e.chat < |st.chats| {
        ExchangeKeeps(st, e.chat, e.question, e.answer, e.clientId, e.fault);
      }
    } else if Writes(e) {
      NewChatKeeps(st, e.userId, e.fault);
      var w := WithChat(st, e.userId, e.fault);
      if w.Some? {
        InsertKeeps(w.value, RowOf(e, TheChat(w.value, e.userId)), e.fault);
      }
    }
  }

  function Run(events: seq<Event>): Store {
    if events == [] then Store([], []) else Step(Run(events[..|events| - 1]), events[|events| - 1])
  }

  /** Main result: after any sequence of messages every counter equals its rows and no client id has two rows. */
  lemma {:induction false} CountersEqualRows(events: seq<Event>)
    ensures Consistent(Run(events))
  {
    if events != [] {
      CountersEqualRows(events[..|events| - 1]);
      StepKeepsConsistent(Run(events[..|events| - 1]), events[|events| - 1]);
    }
  }

  // ---- What is stored ----

  /** A row of the chat carries the client id already. */
  predicate Taken(rows: seq<Row>, chat: ChatId, clientId: Option<string>) {
    clientId.Some? && exists i :: 0 <= i < |rows| && rows[i].chat == chat && rows[i].clientId == clientId
  }

  /** The chat that a message of the user goes to: the current one, or else a new one. */
  function Target(chats: seq<Chat>, userId: string): ChatId {
    if CurrentChat(chats, userId).Some? then CurrentChat(chats, userId).value else |chats|
  }

  predicate NeedsChat(chats: seq<Chat>, userId: string) {
    forall d :: 0 <= d < |chats| ==> chats[d].userId != userId || chats[d].archived
  }

  /** A message reaches the store unless the creation of its chat or its own insert is hit by a fault. */
  predicate Reaches(chats: seq<Chat>, userId: string, fault: Fault) {
    fault != AtInsert && !(fault == AtCreate && NeedsChat(chats, userId))
  }

  /** The rows that an event adds: a message of its kind and role, once per client id, or a question and its answer. */
  function Added(st: Store, e: Event): seq<Row> {
    match e
    case UserMessage(userId, content, clientId, _, fault) =>
      var chat, key := Target(st.chats, userId), if clientId == Some("") then None else clientId;
      if Reaches(st.chats, userId, fault) && !Taken(st.rows, chat, key)
      then [Row(chat, UserRole, content, ChatKind, key)] else []
    case AssistantMessage(userId, content, fault) =>
      if Reaches(st.chats, userId, fault)
      then [Row(Target(st.chats, userId), AssistantRole, content, ChatKind, None)] else []
    case Nudge(userId, content, fault) =>
      if userId != "" && Reaches(st.chats, userId, fault)
      then [Row(Target(st.chats, userId), SystemRole, content, NudgeKind, None)] else []
    case Exchange(chat, question, answer, clientId, fault) =>
      if chat < |st.chats| && fault != AtInsert && !Taken(st.rows, chat, clientId)
      then [Row(chat, UserRole, question, ChatKind, clientId), Row(chat, AssistantRole, answer, ChatKind, None)] else []
    case Archive(_) => []
  }

  lemma ConflictIsTaken(rows: seq<Row>, row: Row)
    ensures Conflicts(rows, row) <==> Taken(rows, row.chat, row.clientId)
  {
    if Taken(rows, row.chat, row.clientId) {
      var i :| 0 <= i < |rows| && rows[i].chat == row.chat && rows[i].clientId == row.clientId;
      assert SameKey(rows[i], row);
    }
  }

  /** The chat of a message: the user's newest open one, and a new one exactly if there is none. */
  lemma ChatIsCurrent(st: Store, userId: string, fault: Fault)
    ensures NeedsChat(st.chats, userId) <==> CurrentChat(st.chats, userId).None?
    ensures match WithChat(st, userId, fault)
            case None => NeedsChat(st.chats, userId) && fault == AtCreate
            case Some(st1) =>
              && !(NeedsChat(st.chats, userId) && fault == AtCreate)
              && st1.rows == st.rows
              && st1.chats == (if NeedsChat(st.chats, userId) then st.chats + [Chat(userId, false, 0)] else st.chats)
              && CurrentChat(st1.chats, userId) == Some(Target(st.chats, userId))
  {
  }

  /** Each event adds these rows, in this order, and changes none that are there. */
  lemma StepAddsRows(st: Store, e: Event)
    ensures Step(st, e).rows == st.rows + Added(st, e)
  {
    if e.Exchange? {
      ConflictIsTaken(st.rows, UserRow(e.chat, e.question, e.clientId));
    } else if Writes(e) {
      ChatIsCurrent(st, e.userId, e.fault);
      ConflictIsTaken(st.rows, RowOf(e, Target(st.chats, e.userId)));
    }
  }

  /** The user who needs a chat for the event, if it gets as far as creating one. */
  function NewChatFor(st: Store, e: Event): Option<string> {
    if (e.UserMessage? || e.AssistantMessage? || (e.Nudge? && e.userId != ""))
       && e.fault != AtCreate && NeedsChat(st.chats, e.userId)
    then Some(e.userId) else None
  }

  /** The same chats of the same users, open or archived; counters aside. */
  predicate SameChats(a: seq<Chat>, b: seq<Chat>) {
    |a| == |b| && forall c :: 0 <= c < |a| ==> a[c].userId == b[c].userId && a[c].archived == b[c].archived
  }

  lemma InsertKeepsChats(st: Store, row: Row, fault: Fault)
    requires row.chat < |st.chats|
    ensures SameChats(Insert(st, row, fault).chats, st.chats)
  {
  }

  lemma MessageChats(st: Store, e: Event)
    requires Writes(e)
    ensures SameChats(Step(st, e).chats,
                      match NewChatFor(st, e)
                      case None => st.chats
                      case Some(userId) => st.chats + [Chat(userId, false, 0)])
  {
    ChatIsCurrent(st, e.userId, e.fault);
    var w := WithChat(st, e.userId, e.fault);
    if w.Some? {
      InsertKeepsChats(w.value, RowOf(e, TheChat(w.value, e.userId)), e.fault);
    }
  }

  /** Each event opens at most one chat, for a user without an open one, and only archiving closes one. */
  lemma StepChats(st: Store, e: Event)
    ensures var before, after := st.chats, Step(st, e).chats;
            && |after| == (if NewChatFor(st, e).Some? then |before| + 1 else |before|)
            && (forall c :: 0 <= c < |before| ==>
                 && after[c].userId == before[c].userId
                 && after[c].archived == (before[c].archived || e == Archive(c)))
            && (forall c :: |before| <= c < |after| ==>
                 Some(after[c].userId) == NewChatFor(st, e) && !after[c].archived)
  {
    if Writes(e) {
      MessageChats(st, e);
    }
  }

  function Prefix(events: seq<Event>, k: nat): Store
    requires k <= |events|
  {
    Run(events[..k])
  }

  lemma NextEvent(events: seq<Event>, k: nat)
    requires k < |events|
    ensures Prefix(events, k + 1) == Step(Prefix(events, k), events[k])
  {
    assert events[..k + 1][..k] == events[..k];
  }

  /** Over any sequence of events: each adds its own rows, and no row is ever changed or lost. */
  lemma MessagesAreKept(events: seq<Event>, k: nat, n: nat)
    requires k < n <= |events|
    ensures Prefix(events, k).rows + Added(Prefix(events, k), events[k]) <= Prefix(events, n).rows
  {
    var logs := seq(n + 1, i requires 0 <= i <= n => Prefix(events, i).rows);
    forall i: nat | i < n
      ensures logs[i] <= logs[i + 1]
    {
      NextRows(events, i);
    }
    NextRows(events, k);
    LogsGrow(logs, k + 1, n);
  }

  lemma {:induction false} LogsGrow(logs: seq<seq<Row>>, k: nat, n: nat)
    requires k <= n < |logs| && forall i: nat :: k <= i < n ==> logs[i] <= logs[i + 1]
    ensures logs[k] <= logs[n]
    decreases n
  {
    if k < n {
      LogsGrow(logs, k, n - 1);
      assert logs[n - 1] <= logs[n - 1 + 1];
    }
  }

  lemma NextRows(events: seq<Event>, k: nat)
    requires k < |events|
    ensures Prefix(events, k + 1).rows == Prefix(events, k).rows + Added(Prefix(events, k), events[k])
    ensures Prefix(events, k).rows <= Prefix(events, k + 1).rows
  {
    NextEvent(events, k);
    StepAddsRows(Prefix(events, k), events[k]);
  }

  /** No client id has two rows in a chat, after any sequence of events. */
  lemma ClientIdsAreUnique(events: seq<Event>)
    ensures var rows := Run(events).rows;
            forall i, j :: 0 <= i < j < |rows| && rows[i].chat == rows[j].chat && rows[i].clientId.Some? ==>
              rows[i].clientId != rows[j].clientId
  {
    CountersEqualRows(events);
    var rows := Run(events).rows;
    assert forall i, j :: 0 <= i < j < |rows| ==> !SameKey(rows[i], rows[j]);
  }

  // ---- Idempotence ----

  /** Whether the handler's own check sees a duplicate, or the index refuses it, comes to the same. */
  lemma DuplicateChangesNothing(st: Store, e: Event)
    requires e.UserMessage? && Key(e.clientId).Some? && CurrentChat(st.chats, e.userId).Some?
    requires Conflicts(st.rows, RowOf(e, TheChat(st, e.userId)))
    ensures Step(st, e) == st
  {
  }

  /** One attempt of a client to get a message stored. */
  datatype Attempt = Attempt(content: string, seen: bool, fault: Fault)

  function Attempted(st: Store, userId: string, clientId: string, attempts: seq<Attempt>): Store {
    if attempts == [] then st
    else
      var last := attempts[|attempts| - 1];
      Step(Attempted(st, userId, clientId, attempts[..|attempts| - 1]),
           UserMessage(userId, last.content, Some(clientId), last.seen, last.fault))
  }

  /** The content of the first attempt whose transaction is not hit by a fault. */
  function FirstStored(attempts: seq<Attempt>): Option<string> {
    if attempts == [] then None
    else
      var before, last := FirstStored(attempts[..|attempts| - 1]), attempts[|attempts| - 1];
      if before.Some? then before
      else if last.fault == AtInsert then None
      else Some(last.content)
  }

  /**
   A client that sends one message again and again, through any faults, gets it
   stored once: the chat ends with the row of the first attempt that commits and
   with a counter one higher, and with nothing new while all attempts fail.
   */
  lemma {:induction false} RetriesStoreOnce(st: Store, userId: string, clientId: string, attempts: seq<Attempt>)
    requires CurrentChat(st.chats, userId).Some? && clientId != ""
    requires !Conflicts(st.rows, Row(TheChat(st, userId), UserRole, "", ChatKind, Some(clientId)))
    ensures Attempted(st, userId, clientId, attempts) ==
            match FirstStored(attempts)
            case None => st
            case Some(content) =>
              Insert(st, Row(TheChat(st, userId), UserRole, content, ChatKind, Some(clientId)), NoFault)
  {
    if attempts != [] {
      var front, last := attempts[..|attempts| - 1], attempts[|attempts| - 1];
      RetriesStoreOnce(st, userId, clientId, front);
      var chat := TheChat(st, userId);
      var e := UserMessage(userId, last.content, Some(clientId), last.seen, last.fault);
      if FirstStored(front).Some? {
        var row := Row(chat, UserRole, FirstStored(front).value, ChatKind, Some(clientId));
        InsertedIsDuplicate(st, row, e);
      } else {
        SameKeyConflicts(st.rows, Row(chat, UserRole, "", ChatKind, Some(clientId)), RowOf(e, chat));
      }
    }
  }

  lemma SameKeyConflicts(rows: seq<Row>, a: Row, b: Row)
    requires a.chat == b.chat && a.clientId == b.clientId
    ensures Conflicts(rows, a) == Conflicts(rows, b)
  {
    assert forall i :: 0 <= i < |rows| ==> SameKey(rows[i], a) == SameKey(rows[i], b);
  }

  /** Once a row is in, every later message with its key changes nothing. */
  lemma InsertedIsDuplicate(st: Store, row: Row, e: Event)
    requires e.UserMessage? && CurrentChat(st.chats, e.userId) == Some(row.chat)
    requires row.clientId.Some? && Key(e.clientId) == row.clientId
    ensures Step(Insert(st, row, NoFault), e) == Insert(st, row, NoFault)
  {
    var st' := Insert(st, row, NoFault);
    SameCurrent(st.chats, st'.chats, e.userId);
    if st' == st {
      SameKeyConflicts(st.rows, row, RowOf(e, row.chat));
    } else {
      assert SameKey(st'.rows[|st.rows|], RowOf(e, row.chat));
    }
    DuplicateChangesNothing(st', e);
  }

  /** Counters do not matter to the choice of the current chat. */
  lemma {:induction false} SameCurrent(a: seq<Chat>, b: seq<Chat>, userId: string)
    requires |a| == |b| && forall c :: 0 <= c < |a| ==> b[c] == a[c].(count := b[c].count)
    ensures CurrentChat(a, userId) == CurrentChat(b, userId)
  {
    if a != [] {
      SameCurrent(a[..|a| - 1], b[..|b| - 1], userId);
    }
  }
}
