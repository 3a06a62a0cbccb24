/**
 * The chat page: an ordered table of chat sessions (newest first) and the id
 * of the current session, updated event by event.
 *
 * The clock is a parameter: `stamp` is the millisecond count that names a new
 * chat and `createdAt` the one stored in it (the page reads the clock twice).
 * The delayed assistant reply is an event of its own that carries the chat id
 * captured when the user's message was sent.
 */
module ChatPage {
  import opened Wrappers
  import Sidebar

  datatype Role = User | Assistant

  datatype Message = Message(role: Role, content: string)

  datatype ChatSession = ChatSession(id: string, title: string, messages: seq<Message>, createdAt: int)

  const NewChatTitle := "New Chat"
  const IdPrefix := "chat-"
  /** How many characters of the first message a title keeps. */
  const TitleLimit := 30
  const Ellipsis := "..."
  /** What the "Start Chatting" button sends. */
  const StartChattingText := "Hello!"
  /** The fixed text of every assistant reply. */
  const AssistantReply := "Hello! I'm the PRP AI Agent. I'm here to help you with all your Professional Readiness Program questions. You can ask me about badges, events, attendance, quizzes, and track your progress. How can I assist you today?"

  function Min(a: int, b: int): int {
    if a <= b then a else b
  }

  // ---------------------------------------------------------------------
  // Chat ids
  // ---------------------------------------------------------------------

  function DigitChar(d: nat): char
    requires d < 10
  {
    (d + '0' as int) as char
  }

  /** The decimal numeral of `n`, as a template literal prints a whole number. */
  function Decimal(n: nat): (s: string)
    ensures |s| >= 1
    ensures forall i :: 0 <= i < |s| ==> '0' <= s[i] <= '9'
    ensures n < 10 <==> |s| == 1
  {
    if n < 10 then [DigitChar(n)] else Decimal(n / 10) + [DigitChar(n % 10)]
  }

  /** The number a string of decimal digits denotes, most significant digit first. */
  function DigitsValue(s: string): int
    decreases |s|
  {
    if s == [] then 0 else DigitsValue(s[..|s| - 1]) * 10 + (s[|s| - 1] as int - '0' as int)
  }

  /** Reading the numeral back gives the number: the numeral means the clock reading. */
  lemma {:induction false} DecimalRoundTrip(n: nat)
    ensures DigitsValue(Decimal(n)) == n
    decreases n
  {
    if n >= 10 {
      var d := Decimal(n);
      assert d[..|d| - 1] == Decimal(n / 10);
      DecimalRoundTrip(n / 10);
    }
  }

  /** Different numbers have different numerals. */
  lemma DecimalInjective(a: nat, b: nat)
    requires Decimal(a) == Decimal(b)
    ensures a == b
  {
    DecimalRoundTrip(a);
    DecimalRoundTrip(b);
  }

  /** The id a new chat gets: "chat-" followed by the clock reading. */
  function ChatId(stamp: nat): (id: string)
    ensures |id| > |IdPrefix| && id[..|IdPrefix|] == IdPrefix
  {
    IdPrefix + Decimal(stamp)
  }

  /** Chats created at different milliseconds get different ids (and the same millisecond, the same id). */
  lemma ChatIdsDistinct(a: nat, b: nat)
    requires a != b
    ensures ChatId(a) != ChatId(b)
  {
    if ChatId(a) == ChatId(b) {
      assert ChatId(a)[|IdPrefix|..] == Decimal(a);
      assert ChatId(b)[|IdPrefix|..] == Decimal(b);
      DecimalInjective(a, b);
    }
  }

  // ---------------------------------------------------------------------
  // Lookup of the current chat
  // ---------------------------------------------------------------------

  /** The position of the first session whose id is `id`, as `Array.prototype.find` scans. */
  function FindIndex(sessions: seq<ChatSession>, id: string): (r: Option<nat>)
    ensures r.Some? ==> r.value < |sessions| && sessions[r.value].id == id
    ensures r.Some? ==> forall j :: 0 <= j < r.value ==> sessions[j].id != id
    ensures r.None? <==> forall j :: 0 <= j < |sessions| ==> sessions[j].id != id
  {
    if sessions == [] then None
    else if sessions[0].id == id then Some(0)
    else
      match FindIndex(sessions[1..], id)
      case None => None
      case Some(k) => Some(k + 1)
  }

  /** The current chat: the first session with the current id, if any. */
  function CurrentChat(sessions: seq<ChatSession>, currentChatId: string): (r: Option<ChatSession>)
    ensures r.Some? <==> exists i :: 0 <= i < |sessions| && sessions[i].id == currentChatId
    ensures r.Some? ==> r.value in sessions && r.value.id == currentChatId
    ensures r.Some? ==> exists k ::
      && 0 <= k < |sessions| && r.value == sessions[k] && sessions[k].id == currentChatId
      && forall j :: 0 <= j < k ==> sessions[j].id != currentChatId
  {
    match FindIndex(sessions, currentChatId)
    case None => None
    case Some(k) => Some(sessions[k])
  }

  /** The messages the thread view shows: the current chat's, or none when no session matches. */
  function CurrentMessages(sessions: seq<ChatSession>, currentChatId: string): (r: seq<Message>)
    ensures (forall i :: 0 <= i < |sessions| ==> sessions[i].id != currentChatId) ==> r == []
    ensures r != [] ==> exists i :: 0 <= i < |sessions| && sessions[i].id == currentChatId && sessions[i].messages == r
    ensures (exists i :: 0 <= i < |sessions| && sessions[i].id == currentChatId) ==>
      exists k ::
        && 0 <= k < |sessions| && sessions[k].id == currentChatId && r == sessions[k].messages
        && forall j :: 0 <= j < k ==> sessions[j].id != currentChatId
  {
    match CurrentChat(sessions, currentChatId)
    case None => []
    case Some(chat) => chat.messages
  }

  /** The welcome screen shows exactly when there is nothing in the thread. */
  predicate ShowsWelcome(sessions: seq<ChatSession>, currentChatId: string)
    ensures (forall i :: 0 <= i < |sessions| ==> sessions[i].id != currentChatId) ==> ShowsWelcome(sessions, currentChatId)
  {
    |CurrentMessages(sessions, currentChatId)| == 0
  }

  function Ids(sessions: seq<ChatSession>): (ids: seq<string>)
    ensures |ids| == |sessions| && forall i :: 0 <= i < |sessions| ==> ids[i] == sessions[i].id
  {
    seq(|sessions|, i requires 0 <= i < |sessions| => sessions[i].id)
  }

  /** Lookup sees only the ids: two tables with the same ids in the same order find the same position. */
  lemma {:induction false} FindIndexDependsOnIds(s: seq<ChatSession>, t: seq<ChatSession>, id: string)
    requires Ids(s) == Ids(t)
    ensures FindIndex(s, id) == FindIndex(t, id)
    decreases |s|
  {
    if s != [] {
      assert s[0].id == Ids(s)[0] == Ids(t)[0] == t[0].id;
      assert Ids(s[1..]) == Ids(s)[1..];
      assert Ids(t[1..]) == Ids(t)[1..];
      FindIndexDependsOnIds(s[1..], t[1..], id);
    }
  }

  // ---------------------------------------------------------------------
  // Row updates
  // ---------------------------------------------------------------------

  /** `prev.map(chat => chat.id === id ? f(chat) : chat)`: every session with the id is updated, no other. */
  function UpdateMatching(sessions: seq<ChatSession>, id: string, f: ChatSession -> ChatSession): (r: seq<ChatSession>)
    ensures |r| == |sessions|
    ensures forall i :: 0 <= i < |sessions| ==> r[i] == if sessions[i].id == id then f(sessions[i]) else sessions[i]
  {
    if sessions == [] then []
    else [if sessions[0].id == id then f(sessions[0]) else sessions[0]] + UpdateMatching(sessions[1..], id, f)
  }

  /** A title from a first message: its first 30 characters, and "..." when it was longer. */
  function DeriveTitle(content: string): (title: string)
    ensures |title| <= TitleLimit + |Ellipsis|
    ensures |content| <= TitleLimit ==> title == content
    ensures |content| > TitleLimit ==> |title| == TitleLimit + |Ellipsis|
    ensures |content| > TitleLimit ==> title[..TitleLimit] == content[..TitleLimit] && title[TitleLimit..] == Ellipsis
  {
    content[..Min(TitleLimit, |content|)] + (if |content| > TitleLimit then Ellipsis else "")
  }

  /** One session after the user sends `content` to it. */
  function WithUserMessage(chat: ChatSession, content: string): (r: ChatSession)
    ensures r.id == chat.id && r.createdAt == chat.createdAt
    ensures r.messages == chat.messages + [Message(User, content)]
    ensures |chat.messages| != 0 ==> r.title == chat.title
    ensures chat.title == ExpectedTitle(chat.messages) ==> r.title == ExpectedTitle(r.messages)
  {
    var title := if |chat.messages| == 0 then DeriveTitle(content) else chat.title;
    chat.(messages := chat.messages + [Message(User, content)], title := title)
  }

  /** One session after the assistant's reply arrives. */
  function WithReply(chat: ChatSession): (r: ChatSession)
    ensures r.id == chat.id && r.title == chat.title && r.createdAt == chat.createdAt
    ensures r.messages == chat.messages + [Message(Assistant, AssistantReply)]
    ensures chat.title == ExpectedTitle(chat.messages) ==> r.title == ExpectedTitle(r.messages)
  {
    chat.(messages := chat.messages + [Message(Assistant, AssistantReply)])
  }

  /**
   * The table after sending `content` to chat `id`: one user message more at
   * the end of every session with that id, a derived title where it was the
   * first message, and every other session, the length and the order as before.
   */
  function SendUpdate(sessions: seq<ChatSession>, id: string, content: string): (r: seq<ChatSession>)
    ensures |r| == |sessions| && Ids(r) == Ids(sessions)
    ensures forall i :: 0 <= i < |sessions| && sessions[i].id != id ==> r[i] == sessions[i]
    ensures forall i :: 0 <= i < |sessions| && sessions[i].id == id ==>
      && r[i].messages == sessions[i].messages + [Message(User, content)]
      && r[i].createdAt == sessions[i].createdAt
      && (|sessions[i].messages| == 0 ==> r[i].title == DeriveTitle(content))
      && (|sessions[i].messages| != 0 ==> r[i].title == sessions[i].title)
  {
    UpdateMatching(sessions, id, chat => WithUserMessage(chat, content))
  }

  /**
   * The table after the reply to chat `id` arrives: one assistant message more
   * at the end of every session with that id, titles and every other session
   * as before.
   */
  function ReplyUpdate(sessions: seq<ChatSession>, id: string): (r: seq<ChatSession>)
    ensures |r| == |sessions| && Ids(r) == Ids(sessions)
    ensures forall i :: 0 <= i < |sessions| && sessions[i].id != id ==> r[i] == sessions[i]
    ensures forall i :: 0 <= i < |sessions| && sessions[i].id == id ==>
      && r[i].messages == sessions[i].messages + [Message(Assistant, AssistantReply)]
      && r[i].title == sessions[i].title
      && r[i].createdAt == sessions[i].createdAt
  {
    UpdateMatching(sessions, id, WithReply)
  }

  /** A fresh, empty session. */
  function NewSession(stamp: nat, createdAt: int): (r: ChatSession)
    ensures r.id == ChatId(stamp) && r.createdAt == createdAt && r.messages == []
    ensures r.title == ExpectedTitle(r.messages)
  {
    ChatSession(ChatId(stamp), NewChatTitle, [], createdAt)
  }

  /** `chatHistory`: the id and title of every session, entry for entry. */
  function History(sessions: seq<ChatSession>): (h: seq<Sidebar.HistoryEntry>)
    ensures |h| == |sessions|
    ensures forall i :: 0 <= i < |sessions| ==> h[i].id == sessions[i].id && h[i].title == sessions[i].title
  {
    seq(|sessions|, i requires 0 <= i < |sessions| => Sidebar.HistoryEntry(sessions[i].id, sessions[i].title))
  }

  // ---------------------------------------------------------------------
  // The page as a sequence of events
  // ---------------------------------------------------------------------

  datatype Page = Page(sessions: seq<ChatSession>, currentChatId: string)

  /** The page before anything is stored: no sessions and the empty id. */
  const EmptyPage := Page([], "")

  datatype Event =
    | CreateChat(stamp: nat, createdAt: int)
    | SelectChat(chatId: string)
    | SendMessage(content: string, stamp: nat, createdAt: int)
    | ReplyArrives(chatId: string)

  /** `createNewChat`: a new session at the front, made current. */
  function WithNewChat(p: Page, stamp: nat, createdAt: int): (r: Page)
    ensures |r.sessions| == |p.sessions| + 1 && r.sessions[1..] == p.sessions
    ensures r.currentChatId == r.sessions[0].id == ChatId(stamp) && r.currentChatId != ""
    ensures r.sessions[0].messages == [] && r.sessions[0].title == NewChatTitle
  {
    Page([NewSession(stamp, createdAt)] + p.sessions, ChatId(stamp))
  }

  /** One event. The current id changes only when a chat is created or selected. */
  function Step(p: Page, e: Event): (r: Page)
    ensures r.currentChatId != p.currentChatId ==>
      e.CreateChat? || e.SelectChat? || (e.SendMessage? && p.currentChatId == "")
  {
    match e
    case CreateChat(stamp, createdAt) =>
      WithNewChat(p, stamp, createdAt)
    case SelectChat(id) =>
      p.(currentChatId := id)
    case SendMessage(content, stamp, createdAt) =>
      if p.currentChatId == "" then WithNewChat(p, stamp, createdAt)
      else p.(sessions := SendUpdate(p.sessions, p.currentChatId, content))
    case ReplyArrives(id) =>
      p.(sessions := ReplyUpdate(p.sessions, id))
  }

  /** No event removes a session or changes an id: the old ids are a suffix of the new ones. */
  lemma StepKeepsIds(p: Page, e: Event)
    ensures |Step(p, e).sessions| >= |p.sessions|
    ensures Ids(Step(p, e).sessions)[|Step(p, e).sessions| - |p.sessions|..] == Ids(p.sessions)
  {
    var r := Step(p, e);
    if e.CreateChat? || (e.SendMessage? && p.currentChatId == "") {
      assert r.sessions[1..] == p.sessions;
      assert Ids(r.sessions)[1..] == Ids(p.sessions);
    }
  }

  /** The chat a send schedules a reply for: the current one, captured at send time. */
  function ReplyTarget(p: Page): (r: Option<string>)
    ensures r.None? <==> p.currentChatId == ""
    ensures r.Some? ==> r.value == p.currentChatId
  {
    if p.currentChatId == "" then None else Some(p.currentChatId)
  }

  /** The page after a sequence of events: sessions are only ever added at the front, ids never change. */
  function Run(p: Page, events: seq<Event>): (r: Page)
    ensures |r.sessions| >= |p.sessions|
    ensures Ids(r.sessions)[|r.sessions| - |p.sessions|..] == Ids(p.sessions)
    decreases |events|
  {
    if events == [] then p
    else
      var q := Step(p, events[0]);
      var r := Run(q, events[1..]);
      StepKeepsIds(p, events[0]);
      assert Ids(r.sessions)[|r.sessions| - |p.sessions|..]
          == Ids(r.sessions)[|r.sessions| - |q.sessions|..][|q.sessions| - |p.sessions|..];
      r
  }

  // ---------------------------------------------------------------------
  // Properties of single events
  // ---------------------------------------------------------------------

  /** A new chat heads the list, the older ones follow in order, and it becomes current and empty. */
  lemma CreateChatPutsFreshChatFirst(p: Page, stamp: nat, createdAt: int)
    ensures var q := Step(p, CreateChat(stamp, createdAt));
      && |q.sessions| == |p.sessions| + 1
      && q.sessions[0] == ChatSession(ChatId(stamp), NewChatTitle, [], createdAt)
      && q.sessions[1..] == p.sessions
      && q.currentChatId == ChatId(stamp)
      && CurrentChat(q.sessions, q.currentChatId) == Some(q.sessions[0])
      && ShowsWelcome(q.sessions, q.currentChatId)
  {
    var created := NewSession(stamp, createdAt);
    var q := Step(p, CreateChat(stamp, createdAt));
    assert q == Page([created] + p.sessions, ChatId(stamp));
    assert q.sessions[0] == created;
    assert q.sessions[1..] == p.sessions;
    assert FindIndex(q.sessions, ChatId(stamp)) == Some(0);
  }

  /** The sidebar's history gains the new chat as its first entry; the older entries follow. */
  lemma CreateChatHeadsHistory(p: Page, stamp: nat, createdAt: int)
    ensures History(Step(p, CreateChat(stamp, createdAt)).sessions)
         == [Sidebar.HistoryEntry(ChatId(stamp), NewChatTitle)] + History(p.sessions)
  {
    var s := Step(p, CreateChat(stamp, createdAt)).sessions;
    assert s == [NewSession(stamp, createdAt)] + p.sessions;
    var h, h0 := History(s), History(p.sessions);
    assert |h| == |h0| + 1;
    forall i | 0 <= i < |h| ensures h[i] == ([Sidebar.HistoryEntry(ChatId(stamp), NewChatTitle)] + h0)[i] {
      if i > 0 {
        assert s[i] == p.sessions[i - 1];
      }
    }
  }

  /** Sending with no current chat only creates a chat: the text is dropped and no session gets a message. */
  lemma SendWithoutCurrentChatDropsMessage(sessions: seq<ChatSession>, content: string, stamp: nat, createdAt: int)
    ensures Step(Page(sessions, ""), SendMessage(content, stamp, createdAt))
         == Page([NewSession(stamp, createdAt)] + sessions, ChatId(stamp))
    ensures ReplyTarget(Page(sessions, "")) == None
    ensures CurrentMessages(Step(Page(sessions, ""), SendMessage(content, stamp, createdAt)).sessions, ChatId(stamp)) == []
  {
    CreateChatPutsFreshChatFirst(Page(sessions, ""), stamp, createdAt);
  }

  /** Selecting a chat changes the current id and nothing else. */
  lemma SelectChangesOnlyCurrentId(p: Page, id: string)
    ensures Step(p, SelectChat(id)).sessions == p.sessions
    ensures Step(p, SelectChat(id)).currentChatId == id
  {
  }

  /** Sending to an id that no session has changes nothing (the message is lost). */
  lemma SendToUnknownChatIsNoOp(sessions: seq<ChatSession>, id: string, content: string)
    requires FindIndex(sessions, id).None?
    ensures SendUpdate(sessions, id, content) == sessions
  {
    var r := SendUpdate(sessions, id, content);
    assert forall i :: 0 <= i < |sessions| ==> r[i] == sessions[i];
  }

  /** After a send, the thread shows what it showed before plus the user's message. */
  lemma SendAppendsToThread(sessions: seq<ChatSession>, id: string, content: string)
    requires FindIndex(sessions, id).Some?
    ensures CurrentMessages(SendUpdate(sessions, id, content), id)
         == CurrentMessages(sessions, id) + [Message(User, content)]
  {
    FindIndexDependsOnIds(SendUpdate(sessions, id, content), sessions, id);
  }

  /** After the reply arrives for the current chat, the thread gains the assistant's message. */
  lemma ReplyAppendsToThread(sessions: seq<ChatSession>, id: string)
    requires FindIndex(sessions, id).Some?
    ensures CurrentMessages(ReplyUpdate(sessions, id), id)
         == CurrentMessages(sessions, id) + [Message(Assistant, AssistantReply)]
  {
    FindIndexDependsOnIds(ReplyUpdate(sessions, id), sessions, id);
  }

  /** A send and then its reply leave the thread with both messages, in that order. */
  lemma {:induction false} SendThenReplyThread(sessions: seq<ChatSession>, id: string, content: string)
    requires FindIndex(sessions, id).Some?
    ensures CurrentMessages(ReplyUpdate(SendUpdate(sessions, id, content), id), id)
         == CurrentMessages(sessions, id) + [Message(User, content), Message(Assistant, AssistantReply)]
  {
    var user, reply := Message(User, content), Message(Assistant, AssistantReply);
    var s1 := SendUpdate(sessions, id, content);
    var m0, m1 := CurrentMessages(sessions, id), CurrentMessages(s1, id);
    assert m1 == m0 + [user] by {
      SendAppendsToThread(sessions, id, content);
    }
    assert FindIndex(s1, id).Some? by {
      FindIndexDependsOnIds(s1, sessions, id);
    }
    assert CurrentMessages(ReplyUpdate(s1, id), id) == m1 + [reply] by {
      ReplyAppendsToThread(s1, id);
    }
    AppendPair(m0, user, reply);
  }

  /** A proof step for `SendThenReplyThread`: appending two messages one at a time appends the pair. */
  lemma AppendPair(m: seq<Message>, a: Message, b: Message)
    ensures (m + [a]) + [b] == m + [a, b]
  {
  }

  /**
   * A send followed by its reply, with the user switching chats in between:
   * the reply still lands in the chat that was current at send time.
   */
  lemma ReplyFollowsCapturedChat(p: Page, content: string, stamp: nat, createdAt: int, other: string)
    requires ReplyTarget(p).Some? && FindIndex(p.sessions, p.currentChatId).Some?
    ensures var q := Step(Step(Step(p, SendMessage(content, stamp, createdAt)), SelectChat(other)),
                          ReplyArrives(ReplyTarget(p).value));
      && q.currentChatId == other
      && CurrentMessages(q.sessions, p.currentChatId)
         == CurrentMessages(p.sessions, p.currentChatId) + [Message(User, content), Message(Assistant, AssistantReply)]
  {
    var id := p.currentChatId;
    var p1 := Step(p, SendMessage(content, stamp, createdAt));
    assert p1 == Page(SendUpdate(p.sessions, id, content), id);
    var p2 := Step(p1, SelectChat(other));
    var q := Step(p2, ReplyArrives(id));
    assert q == Page(ReplyUpdate(SendUpdate(p.sessions, id, content), id), other);
    SendThenReplyThread(p.sessions, id, content);
  }

  /**
   * With two sessions sharing an id, the thread shows the first of them: a
   * chat, a message in it, then a second chat in the same millisecond shows
   * the new, empty chat, though the older one holds the message.
   */
  lemma DuplicateIdShowsFirstChat(content: string)
    ensures var p := Step(Step(Step(EmptyPage, CreateChat(1, 0)), SendMessage(content, 1, 0)), CreateChat(1, 0));
      && |p.sessions| == 2
      && p.sessions[0].id == p.sessions[1].id == p.currentChatId
      && p.sessions[1].messages == [Message(User, content)]
      && CurrentMessages(p.sessions, p.currentChatId) == []
  {
    var p1 := Step(EmptyPage, CreateChat(1, 0));
    assert p1.sessions == [NewSession(1, 0)];
    var p2 := Step(p1, SendMessage(content, 1, 0));
    assert p2.sessions == [WithUserMessage(NewSession(1, 0), content)];
    var p := Step(p2, CreateChat(1, 0));
    assert p.sessions == [NewSession(1, 0)] + p2.sessions;
    assert FindIndex(p.sessions, p.currentChatId) == Some(0);
  }

  /**
   * Ids are not guaranteed unique: two chats created in the same millisecond
   * share an id, and then a send reaches both of them.
   */
  lemma SameStampChatsBothReceive(sessions: seq<ChatSession>, stamp: nat, t1: int, t2: int, content: string)
    ensures var p := Step(Step(Step(Page(sessions, ""), CreateChat(stamp, t1)), CreateChat(stamp, t2)),
                          SendMessage(content, stamp, t2));
      && |p.sessions| == |sessions| + 2
      && p.sessions[0].id == p.sessions[1].id
      && p.sessions[0].messages == [Message(User, content)]
      && p.sessions[1].messages == [Message(User, content)]
  {
    var p2 := Step(Step(Page(sessions, ""), CreateChat(stamp, t1)), CreateChat(stamp, t2));
    assert p2.sessions[0].id == p2.sessions[1].id == p2.currentChatId == ChatId(stamp);
    assert p2.sessions[0].messages == p2.sessions[1].messages == [];
  }

  /**
   * Selecting history entry `i` shows the first session with that entry's
   * id: entry `i` itself when ids are distinct, an earlier one otherwise.
   */
  lemma SelectFromHistoryShowsEntry(sessions: seq<ChatSession>, i: nat)
    requires i < |sessions|
    ensures var k := FindIndex(sessions, History(sessions)[i].id);
      && k.Some? && k.value <= i
      && ((forall a, b :: 0 <= a < b < |sessions| ==> sessions[a].id != sessions[b].id) ==> k.value == i)
  {
    var k := FindIndex(sessions, History(sessions)[i].id);
    assert sessions[i].id == History(sessions)[i].id;
  }

  /** The History panel the page passes to the sidebar highlights entry `i` exactly when session `i` has the current id. */
  lemma HighlightedEntriesHaveCurrentId(sessions: seq<ChatSession>, currentChatId: string, i: nat)
    requires i < |sessions|
    ensures Sidebar.HistoryPanel(History(sessions), Some(currentChatId))[i].highlighted <==> sessions[i].id == currentChatId
  {
    assert History(sessions)[i].id == sessions[i].id;
  }

  /** The first highlighted entry of the History panel is the chat the thread shows. */
  lemma FirstHighlightedIsCurrentChat(sessions: seq<ChatSession>, currentChatId: string, i: nat)
    requires i < |sessions|
    ensures var rows := Sidebar.HistoryPanel(History(sessions), Some(currentChatId));
      rows[i].highlighted && (forall j :: 0 <= j < i ==> !rows[j].highlighted)
      <==> FindIndex(sessions, currentChatId) == Some(i)
  {
    var rows := Sidebar.HistoryPanel(History(sessions), Some(currentChatId));
    assert |rows| == |sessions|;
    forall j | 0 <= j < |sessions| ensures rows[j].highlighted <==> sessions[j].id == currentChatId {
      HighlightedEntriesHaveCurrentId(sessions, currentChatId, j);
    }
    var k := FindIndex(sessions, currentChatId);
    if rows[i].highlighted && (forall j :: 0 <= j < i ==> !rows[j].highlighted) {
      assert forall j :: 0 <= j < i ==> sessions[j].id != currentChatId;
      assert sessions[i].id == currentChatId;
    }
  }

  // ---------------------------------------------------------------------
  // Titles
  // ---------------------------------------------------------------------

  /**
   * The title a session's messages call for: "New Chat" until a user message
   * opens the thread, then the title derived from that first message.
   */
  function ExpectedTitle(messages: seq<Message>): string {
    if |messages| == 0 || messages[0].role == Assistant then NewChatTitle
    else DeriveTitle(messages[0].content)
  }

  predicate TitlesConsistent(sessions: seq<ChatSession>) {
    forall i :: 0 <= i < |sessions| ==> sessions[i].title == ExpectedTitle(sessions[i].messages)
  }

  /** Every title of a consistent table is at most 33 characters long. */
  lemma ConsistentTitlesAreShort(sessions: seq<ChatSession>, i: nat)
    requires TitlesConsistent(sessions) && i < |sessions|
    ensures |sessions[i].title| <= TitleLimit + |Ellipsis|
  {
    assert sessions[i].title == ExpectedTitle(sessions[i].messages);
  }

  lemma StepKeepsTitlesConsistent(p: Page, e: Event)
    requires TitlesConsistent(p.sessions)
    ensures TitlesConsistent(Step(p, e).sessions)
  {
    match e
    case CreateChat(stamp, createdAt) =>
    case SelectChat(id) =>
    case SendMessage(content, stamp, createdAt) =>
      if p.currentChatId != "" {
        var r := SendUpdate(p.sessions, p.currentChatId, content);
        forall i | 0 <= i < |r| ensures r[i].title == ExpectedTitle(r[i].messages) {
          assert p.sessions[i].title == ExpectedTitle(p.sessions[i].messages);
          if p.sessions[i].id == p.currentChatId && |p.sessions[i].messages| != 0 {
            assert r[i].messages[0] == p.sessions[i].messages[0];
          }
        }
      }
    case ReplyArrives(id) =>
      var r := ReplyUpdate(p.sessions, id);
      forall i | 0 <= i < |r| ensures r[i].title == ExpectedTitle(r[i].messages) {
        assert p.sessions[i].title == ExpectedTitle(p.sessions[i].messages);
        if p.sessions[i].id == id && |p.sessions[i].messages| != 0 {
          assert r[i].messages[0] == p.sessions[i].messages[0];
        }
      }
  }

  /** Whatever happens, every title keeps matching its session's first message. */
  lemma {:induction false} RunKeepsTitlesConsistent(p: Page, events: seq<Event>)
    requires TitlesConsistent(p.sessions)
    ensures TitlesConsistent(Run(p, events).sessions)
    decreases |events|
  {
    if events != [] {
      StepKeepsTitlesConsistent(p, events[0]);
      RunKeepsTitlesConsistent(Step(p, events[0]), events[1..]);
    }
  }

  /** From an empty store, every title the page ever shows is at most 33 characters long. */
  lemma TitlesStayShort(events: seq<Event>, i: nat)
    requires i < |Run(EmptyPage, events).sessions|
    ensures |Run(EmptyPage, events).sessions[i].title| <= TitleLimit + |Ellipsis|
  {
    RunKeepsTitlesConsistent(EmptyPage, events);
    ConsistentTitlesAreShort(Run(EmptyPage, events).sessions, i);
  }

  // ---------------------------------------------------------------------
  // The page component, updated in place
  // ---------------------------------------------------------------------

  class ChatScreen {
    var sessions: seq<ChatSession>
    var currentChatId: string
    var sidebarCollapsed: bool
    var showWidgets: bool

    /**
     * The page as it mounts. `savedSessions` and `savedChatId` are what the
     * browser store held under the page's two keys (`None` when absent).
     */
    constructor (savedSessions: Option<seq<ChatSession>>, savedChatId: Option<string>)
      ensures sessions == (if savedSessions.Some? then savedSessions.value else [])
      ensures currentChatId == (if savedChatId.Some? then savedChatId.value else "")
      ensures !sidebarCollapsed && !showWidgets
    {
      sessions := if savedSessions.Some? then savedSessions.value else [];
      currentChatId := if savedChatId.Some? then savedChatId.value else "";
      sidebarCollapsed := false;
      showWidgets := false;
    }

    function State(): Page
      reads this
    {
      Page(sessions, currentChatId)
    }

    /** The messages in the thread view. */
    method Messages() returns (messages: seq<Message>)
      ensures FindIndex(sessions, currentChatId).None? ==> messages == []
      ensures FindIndex(sessions, currentChatId).Some? ==>
        messages == sessions[FindIndex(sessions, currentChatId).value].messages
    {
      var chat := CurrentChat(sessions, currentChatId);
      messages := if chat.Some? then chat.value.messages else [];
    }

    method CreateNewChat(stamp: nat, createdAt: int)
      modifies this`sessions, this`currentChatId
      ensures sessions == [ChatSession(ChatId(stamp), NewChatTitle, [], createdAt)] + old(sessions)
      ensures currentChatId == ChatId(stamp)
      ensures State() == Step(old(State()), CreateChat(stamp, createdAt))
    {
      var newChatId := ChatId(stamp);
      var newChat := ChatSession(newChatId, NewChatTitle, [], createdAt);
      sessions := [newChat] + sessions;
      currentChatId := newChatId;
    }

    method SelectChat(chatId: string)
      modifies this`currentChatId
      ensures currentChatId == chatId
      ensures State() == Step(old(State()), Event.SelectChat(chatId))
    {
      currentChatId := chatId;
    }

    /**
     * The user sends `content`. Returns the chat the delayed reply is for,
     * or `None` when there was no current chat and only a new one was made.
     */
    method HandleSendMessage(content: string, stamp: nat, createdAt: int) returns (replyFor: Option<string>)
      modifies this`sessions, this`currentChatId
      ensures State() == Step(old(State()), SendMessage(content, stamp, createdAt))
      ensures replyFor == ReplyTarget(old(State()))
      ensures TitlesConsistent(old(sessions)) ==> TitlesConsistent(sessions)
    {
      if TitlesConsistent(sessions) {
        StepKeepsTitlesConsistent(State(), SendMessage(content, stamp, createdAt));
      }
      if currentChatId == "" {
        CreateNewChat(stamp, createdAt);
        replyFor := None;
        return;
      }
      sessions := SendUpdate(sessions, currentChatId, content);
      replyFor := Some(currentChatId);
    }

    /** The "Start Chatting" button sends a fixed greeting. */
    method StartChatting(stamp: nat, createdAt: int) returns (replyFor: Option<string>)
      modifies this`sessions, this`currentChatId
      ensures State() == Step(old(State()), SendMessage(StartChattingText, stamp, createdAt))
      ensures replyFor == ReplyTarget(old(State()))
    {
      replyFor := HandleSendMessage(StartChattingText, stamp, createdAt);
    }

    /** The delayed reply for the chat captured at send time. */
    method DeliverReply(chatId: string)
      modifies this`sessions
      ensures State() == Step(old(State()), ReplyArrives(chatId))
      ensures TitlesConsistent(old(sessions)) ==> TitlesConsistent(sessions)
    {
      if TitlesConsistent(sessions) {
        StepKeepsTitlesConsistent(State(), ReplyArrives(chatId));
      }
      sessions := ReplyUpdate(sessions, chatId);
    }

    method ToggleSidebar()
      modifies this`sidebarCollapsed
      ensures sidebarCollapsed == !old(sidebarCollapsed)
    {
      sidebarCollapsed := !sidebarCollapsed;
    }

    method ToggleWidgets()
      modifies this`showWidgets
      ensures showWidgets == !old(showWidgets)
    {
      showWidgets := !showWidgets;
    }

    /** The `chatHistory` prop handed to the sidebar. */
    method ChatHistory() returns (history: seq<Sidebar.HistoryEntry>)
      ensures |history| == |sessions|
      ensures forall i :: 0 <= i < |sessions| ==> history[i].id == sessions[i].id && history[i].title == sessions[i].title
    {
      history := History(sessions);
    }
  }
}
