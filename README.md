# Chat page and navigation sidebar of the PRP mentor chat

This project models the client-side state of a student-support chat page in
Dafny and proves properties of it. It covers two pieces.

- **The chat-session table** (module `ChatPage`, file `chat_page.dfy`). The page
  keeps an ordered list of chat sessions, newest first. Each session has an id,
  a title, a message list and a creation time. The page also keeps the id of the
  current session. Four events change it:
  - creating a chat puts an empty "New Chat" session at the front and makes it current;
  - selecting a chat changes the current id;
  - sending a message appends a user message to every session that has the
    current id, and titles a session from its first message (30 characters,
    then "..." when the message was longer);
  - the delayed reply appends the fixed assistant message to the chat that was
    current when the message was sent.

  The pure updaters (`UpdateMatching`, `SendUpdate`, `ReplyUpdate`, `FindIndex`,
  `DeriveTitle`, `History`) and the event function `Step` are the specification.
  The class `ChatScreen` holds the component's state fields. Its methods that
  change the sessions or the current id update those fields in place and are
  proved to agree with `Step`.
- **The navigation sidebar** (module `Sidebar`, file `sidebar.dfy`). It has two
  state fields, `activeTab` and `expandedSection`, which both start at
  "services". A tab click either runs the new-chat action, navigates to
  `/about`, or activates the tab and toggles its section. The model also covers
  which panel is rendered and how the History panel lists past chats and
  highlights the current one. `OnTabClick` is the pure handler and `Run` folds
  it over a sequence of clicks. The class `SidebarView` holds the two fields and
  updates them in place.

The clock is passed in as two parameters. `stamp` names a new chat
(`"chat-" + stamp`) and `createdAt` is stored in it. The page reads the clock
twice, so these two values can differ. The route is an input (`pathname`). A
navigation is an output of the click (`Effect.navigateTo`). The callbacks
`onNewChat` and `onSelectChat` are outputs too: the click says whether it asks
for them. Whether these callbacks were supplied is a boolean parameter.

Proved properties include:
- new chats are placed first;
- a send or a reply changes only the rows with the matching id;
- a send with no current chat drops the message;
- the reply goes to the chat that was current at send time, even if the user
  has selected another chat since;
- every title stays equal to the title its first message calls for, and so is
  at most 33 characters long;
- the About panel can never be rendered;
- at most one panel is rendered at a time;
- the History panel highlights exactly the entries that have the current id.

The code does not make ids unique. Two chats created in the same millisecond
get the same id, and a send then reaches both (`SameStampChatsBothReceive`).
Selecting the second of them shows the first (`SelectFromHistoryShowsEntry`),
so a message can vanish from view behind a newer chat with its id
(`DuplicateIdShowsFirstChat`).
The model keeps this behaviour and states it instead of assuming unique ids.

## Model

| member | source | states |
|---|---|---|
| `Sidebar.SidebarView.constructor` | src/components/Sidebar.tsx:17-18 | both `activeTab` and `expandedSection` start at "services" |
| `Sidebar.TabIdsDistinct` | src/components/Sidebar.tsx:20-26 | the five tab ids are pairwise different, so the handler's tests on `tab.id` tell the tabs apart |
| `Sidebar.InitialHasOnlyPanelTabs` | src/components/Sidebar.tsx:17-18 | the initial state has neither "about" nor "new-chat" active or expanded, so the invariants below hold every time the sidebar mounts |
| `Sidebar.OnTabClick` | src/components/Sidebar.tsx:62-74 | the pure click handler: the state either stays as it was or has the clicked tab active with that section expanded or none; a click that runs the new-chat action changes no state and navigates nowhere; a state without "about" stays without it. The lemmas below pin down each branch |
| `Sidebar.Run` | src/components/Sidebar.tsx:62-74 | the handler folded over a sequence of clicks: the active tab is the initial one or a clicked one, and the expanded section is none, the initial one or a clicked one |
| `Sidebar.SidebarView.ClickTab` | src/components/Sidebar.tsx:62-74 | the in-place click handler leaves exactly the state and effect of `OnTabClick`, and never brings "about" into the state |
| `Sidebar.NewChatClickOnlyRunsAction` | src/components/Sidebar.tsx:63-64 | "new-chat" with an action runs the action; the state and the route stay unchanged |
| `Sidebar.AboutClickOnlyNavigates` | src/components/Sidebar.tsx:65-66 | "about" navigates to /about and leaves the state unchanged |
| `Sidebar.OtherClickTogglesSection` | src/components/Sidebar.tsx:67-72 | any other tab becomes the only highlighted tab; it is expanded after the click exactly when it was not expanded before; no other section stays expanded; navigation to "/" happens exactly when the path is not "/" |
| `Sidebar.AtMostOnePanelVisible` | src/components/Sidebar.tsx:109-158 | two rendered panels are the same panel |
| `Sidebar.RunKeepsAboutUntouched` | src/components/Sidebar.tsx:62-74 | no sequence of clicks makes "about" active or expanded |
| `Sidebar.AboutPanelNeverVisible` | src/components/Sidebar.tsx:158-167 | from the initial state, the About panel is never rendered, whatever the clicks and the collapse flag |
| `Sidebar.RunWithActionKeepsPanelTabs` | src/components/Sidebar.tsx:63-64 | when the new-chat action is supplied, "new-chat" is never active or expanded either |
| `Sidebar.NewChatWithoutActionExpands` | src/components/Sidebar.tsx:63-72 | from the initial state, without the action, a "new-chat" click makes it active and expanded; it has no panel |
| `Sidebar.PanelVisible` | src/components/Sidebar.tsx:109-158 | a panel is rendered when its tab has a panel, is the expanded section and the sidebar is not collapsed (a definition); its contract says "new-chat" has no panel, and `AtMostOnePanelVisible` and `AboutPanelNeverVisible` state what can be rendered |
| `Sidebar.EntryRows` | src/components/Sidebar.tsx:116-129 | one button per history entry, in order, with its id and title, highlighted exactly when its id is the current id |
| `Sidebar.HistoryPanel` | src/components/Sidebar.tsx:111-130 | an empty history shows only the "No chat history yet" placeholder; otherwise one highlighted-or-not button per entry |
| `Sidebar.AtMostOneHighlighted` | src/components/Sidebar.tsx:122 | with distinct ids, at most one history button is highlighted |
| `Sidebar.SidebarView.ClickHistoryEntry` | src/components/Sidebar.tsx:119 | a history click asks to select that entry's id exactly when `onSelectChat` is supplied, and changes no sidebar state |
| `ChatPage.Decimal` | src/pages/Index.tsx:55 | the numeral of a clock reading is a non-empty string of digits, one digit exactly for readings below 10 |
| `ChatPage.DecimalRoundTrip` | src/pages/Index.tsx:55 | reading the numeral of a clock reading back as a decimal number gives that reading |
| `ChatPage.DecimalInjective` | src/pages/Index.tsx:55 | equal numerals come from equal numbers, as a consequence of the round trip |
| `ChatPage.ChatId` | src/pages/Index.tsx:55 | a chat id is "chat-" followed by at least one more character, so it is never empty |
| `ChatPage.ChatIdsDistinct` | src/pages/Index.tsx:55 | chats created at different milliseconds get different ids |
| `ChatPage.FindIndex` | src/pages/Index.tsx:35 | the lookup finds the first session with the id, and finds nothing exactly when no session has it |
| `ChatPage.CurrentChat` | src/pages/Index.tsx:35 | `currentChat` is found exactly when some session has the current id, and then it is the first session with the current id |
| `ChatPage.CurrentMessages` | src/pages/Index.tsx:35-36 | `messages` is empty when no session has the current id; otherwise it is the message list of the first session with the current id |
| `ChatPage.ShowsWelcome` | src/pages/Index.tsx:156 | the welcome screen shows when the thread is empty, in particular whenever no session has the current id |
| `ChatPage.FindIndexDependsOnIds` | src/pages/Index.tsx:35 | the lookup depends only on the ids and their order |
| `ChatPage.UpdateMatching` | src/pages/Index.tsx:78-85 | the row update keeps the length and order, updates every row with the id and leaves every other row as it was |
| `ChatPage.DeriveTitle` | src/pages/Index.tsx:81 | a content of up to 30 characters becomes the whole title; a longer one gives its first 30 characters followed by "..."; a title is at most 33 characters long |
| `ChatPage.WithUserMessage` | src/pages/Index.tsx:79-82 | the matching session keeps its id and creation time, gains the user message at the end, keeps its title unless this is its first message, and a title that matched its messages still does |
| `ChatPage.SendUpdate` | src/pages/Index.tsx:76-85 | a send appends exactly one user message to each session with the id; a session's title is derived only when the send is its first message; createdAt, ids, length, order and all other sessions are unchanged |
| `ChatPage.WithReply` | src/pages/Index.tsx:94-97 | the matching session keeps its id, title and creation time, gains the assistant message at the end, and a title that matched its messages still does |
| `ChatPage.ReplyUpdate` | src/pages/Index.tsx:88-100 | a reply appends exactly one assistant message with the fixed text to each session with the id; titles and every other session are unchanged |
| `ChatPage.NewSession` | src/pages/Index.tsx:55-61 | a new session has the id "chat-" + stamp, the given creation time, no messages and the title an empty thread calls for |
| `ChatPage.WithNewChat` | src/pages/Index.tsx:54-64 | `createNewChat`: one session more, at the head, empty and titled "New Chat", the old sessions after it in order, and its non-empty id made current |
| `ChatPage.Step` | src/pages/Index.tsx:54-100 | one event; the current id changes only on a create, a select, or a send with no current chat. Specified by the single-event lemmas below and by `StepKeepsIds` and `StepKeepsTitlesConsistent` |
| `ChatPage.StepKeepsIds` | src/pages/Index.tsx:54-100 | no event removes a session or changes an id: the old ids are the tail of the new ones |
| `ChatPage.ReplyTarget` | src/pages/Index.tsx:70-100 | a send schedules a reply exactly when there is a current chat, and for that chat's id |
| `ChatPage.Run` | src/pages/Index.tsx:54-100 | any sequence of events keeps every old session's id, in order, at the tail of the table |
| `ChatPage.History` | src/pages/Index.tsx:109 | the history given to the sidebar matches the sessions entry for entry, with the same ids, titles and order |
| `ChatPage.CreateChatPutsFreshChatFirst` | src/pages/Index.tsx:54-64 | a new chat is one session more, at the head, with the "New Chat" title and no messages; the old sessions follow in order; it becomes current; the welcome screen shows |
| `ChatPage.CreateChatHeadsHistory` | src/pages/Index.tsx:62 | the sidebar history gains the new chat as its first entry, and the older entries follow in order |
| `ChatPage.SendWithoutCurrentChatDropsMessage` | src/pages/Index.tsx:70-74 | with no current chat, a send only creates a chat: the text reaches no session and no reply is scheduled |
| `ChatPage.SelectChangesOnlyCurrentId` | src/pages/Index.tsx:66-68 | selecting changes the current id and leaves the sessions unchanged |
| `ChatPage.SendToUnknownChatIsNoOp` | src/pages/Index.tsx:78-85 | a send to an id that no session has leaves the table unchanged |
| `ChatPage.SendAppendsToThread` | src/pages/Index.tsx:35-85 | after a send, the thread view shows its old messages plus the user's message |
| `ChatPage.ReplyAppendsToThread` | src/pages/Index.tsx:88-100 | after the reply, the thread view of that chat shows its old messages plus the assistant's message |
| `ChatPage.SendThenReplyThread` | src/pages/Index.tsx:78-100 | a send and then its reply leave the thread with its old messages, then the user message, then the assistant message |
| `ChatPage.ReplyFollowsCapturedChat` | src/pages/Index.tsx:88-100 | a send, a switch to another chat, then the reply: the original chat gains the user message and the assistant message, and the other chat stays current |
| `ChatPage.SameStampChatsBothReceive` | src/pages/Index.tsx:55-85 | two chats created in the same millisecond share an id, and one send appends the message to both |
| `ChatPage.DuplicateIdShowsFirstChat` | src/pages/Index.tsx:35-85 | a chat, a message in it, then a second chat created in the same millisecond: both share the current id, and the thread shows the new, empty chat rather than the one holding the message |
| `ChatPage.SelectFromHistoryShowsEntry` | src/components/Sidebar.tsx:116-119 | selecting history entry i shows the first session with its id: entry i or an earlier one, and entry i itself when ids are distinct |
| `ChatPage.HighlightedEntriesHaveCurrentId` | src/pages/Index.tsx:109-111 | the History panel the page passes to the sidebar highlights entry i exactly when session i has the current id |
| `ChatPage.FirstHighlightedIsCurrentChat` | src/pages/Index.tsx:35-111 | an entry is the first highlighted one exactly when the lookup finds it, so it is the chat the thread shows |
| `ChatPage.ConsistentTitlesAreShort` | src/pages/Index.tsx:81 | every title that matches its messages is at most 33 characters long |
| `ChatPage.StepKeepsTitlesConsistent` | src/pages/Index.tsx:54-100 | every event (create, select, send, reply to any id) keeps each title equal to "New Chat" until a user message opens the thread, and to the title derived from that message after |
| `ChatPage.RunKeepsTitlesConsistent` | src/pages/Index.tsx:54-100 | the same holds for any sequence of events |
| `ChatPage.TitlesStayShort` | src/pages/Index.tsx:81 | from an empty store, no sequence of events produces a title longer than 33 characters |
| `ChatPage.ChatScreen.constructor` | src/pages/Index.tsx:23-32 | the sessions and current id come from storage, or default to empty; the sidebar is expanded and the widgets are hidden |
| `ChatPage.ChatScreen.Messages` | src/pages/Index.tsx:35-36 | the thread shows the first matching session's messages, or none when no session has the current id |
| `ChatPage.ChatScreen.CreateNewChat` | src/pages/Index.tsx:54-64 | the in-place update puts the new session at the front and makes its id current, as `Step` says |
| `ChatPage.ChatScreen.SelectChat` | src/pages/Index.tsx:66-68 | only the current id changes |
| `ChatPage.ChatScreen.HandleSendMessage` | src/pages/Index.tsx:70-101 | the in-place send matches `Step`; it returns the chat the reply is for (none when a chat was created instead) and keeps titles consistent |
| `ChatPage.ChatScreen.StartChatting` | src/pages/Index.tsx:189 | the start button sends "Hello!" like any other message |
| `ChatPage.ChatScreen.DeliverReply` | src/pages/Index.tsx:88-100 | the in-place reply matches `Step` and keeps titles consistent |
| `ChatPage.ChatScreen.ToggleSidebar` | src/pages/Index.tsx:123 | the collapse flag flips |
| `ChatPage.ChatScreen.ToggleWidgets` | src/pages/Index.tsx:140 | the widget-panel flag flips |
| `ChatPage.ChatScreen.ChatHistory` | src/pages/Index.tsx:109 | the history prop lists every session's id and title, in order |

## Left out

- Browser storage: reading and writing the two storage keys and the JSON encoding are not modelled (src/pages/Index.tsx:24-29, 38-44). The constructor takes what storage held as parameters.
- Timers and the clock: `setTimeout` is not modelled. The reply is an event that carries the captured chat id, and it can arrive after any other events. `Date.now()` readings are parameters.
- ChatPage.Decimal: it prints every reading as a plain decimal numeral. A JavaScript number of 10^21 or more would print in exponent form; clock readings never get that large.
- ChatPage.DeriveTitle: lengths count Unicode characters. JavaScript's `length` and `slice` count UTF-16 code units, so the two differ for characters outside the Basic Multilingual Plane.
- Scrolling to the newest message, CSS class composition, icons and all layout.
- The router: the path is an input and navigation is a recorded output.
- The components ChatMessage, ChatInput, InfoWidget and Button are not part of this model. Their behaviour is not visible.
- src/pages/About.tsx is not part of this model. It is static text with one collapse toggle.
- Remounting on navigation: each page renders its own sidebar (src/pages/About.tsx:10 mounts it with no callbacks), so a navigation to /about or back to / unmounts the sidebar and the chat page and mounts fresh ones. The fresh sidebar starts again at "services"/"services", and the fresh chat page reloads its sessions from storage. A reply whose timer fires after the chat page unmounted is lost. `Sidebar.Run` and `ChatPage.Run` treat the state as surviving navigation, so they cover more states than the program reaches; their invariants also hold at every mount, since `Sidebar.InitialHasOnlyPanelTabs` and `ChatPage.TitlesStayShort` start from the initial states.
- The Services and Docs panels' contents are fixed lists with no behaviour. Only whether they are rendered is modelled.
