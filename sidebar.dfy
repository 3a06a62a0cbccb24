/**
 * The navigation sidebar: which tab is active, which section is expanded,
 * what a click on a tab does, and which panels are rendered.
 *
 * The route is an input (the current pathname) and navigation is an output
 * (the path a click asks the router to go to), so the state machine is pure.
 */
module Sidebar {
  import opened Wrappers

  /** The five tabs, listed in this order. */
  datatype Tab = NewChat | History | Docs | Services | About

  /** The string id each tab carries. */
  function TabId(t: Tab): string {
    match t
    case NewChat => "new-chat"
    case History => "history"
    case Docs => "docs"
    case Services => "services"
    case About => "about"
  }

  /** The ids tell the tabs apart, so the handler may branch on them. */
  lemma TabIdsDistinct(a: Tab, b: Tab)
    requires a != b
    ensures TabId(a) != TabId(b)
  {
  }

  const RootPath := "/"
  const AboutPath := "/about"
  const NoHistoryText := "No chat history yet"

  /** The sidebar's own state: `activeTab` and `expandedSection` (null is `None`). */
  datatype NavState = NavState(activeTab: Tab, expandedSection: Option<Tab>)

  /** Both fields start at "services". */
  const Initial := NavState(Services, Some(Services))

  /** What a click asks of the outside world: run the new-chat action, navigate, or neither. */
  datatype Effect = Effect(callsNewChat: bool, navigateTo: Option<string>)

  /** One click on a tab, with the pathname the router reports at that moment. */
  datatype Click = Click(tab: Tab, pathname: string)

  /**
   * The tab click handler. `hasNewChatAction` says whether the `onNewChat`
   * prop was supplied; without it the "new-chat" tab behaves like any other tab.
   */
  function OnTabClick(s: NavState, t: Tab, hasNewChatAction: bool, pathname: string): (r: (NavState, Effect))
    ensures r.0 == s || (r.0.activeTab == t && (r.0.expandedSection == None || r.0.expandedSection == Some(t)))
    ensures r.1.callsNewChat ==> r.0 == s && r.1.navigateTo == None
    ensures AboutUntouched(s) ==> AboutUntouched(r.0)
  {
    if t == NewChat && hasNewChatAction then
      (s, Effect(true, None))
    else if t == About then
      (s, Effect(false, Some(AboutPath)))
    else
      var isExpanded := s.expandedSection == Some(t);
      (NavState(t, if isExpanded then None else Some(t)),
       Effect(false, if pathname != RootPath then Some(RootPath) else None))
  }

  /**
   * The state after a sequence of clicks, each answered by the handler in turn.
   * The active tab is the initial one or one that was clicked; so is the
   * expanded section, unless none is expanded.
   */
  function Run(s: NavState, clicks: seq<Click>, hasNewChatAction: bool): (r: NavState)
    ensures r.activeTab == s.activeTab || exists i :: 0 <= i < |clicks| && clicks[i].tab == r.activeTab
    ensures r.expandedSection == None || r.expandedSection == s.expandedSection
         || exists i :: 0 <= i < |clicks| && Some(clicks[i].tab) == r.expandedSection
    decreases |clicks|
  {
    if clicks == [] then s
    else
      var r := Run(OnTabClick(s, clicks[0].tab, hasNewChatAction, clicks[0].pathname).0, clicks[1..], hasNewChatAction);
      assert forall i :: 0 <= i < |clicks| - 1 ==> clicks[1..][i] == clicks[i + 1];
      r
  }

  /** Tabs that have an expandable panel below their button. */
  predicate HasPanel(t: Tab) {
    t == History || t == Services || t == Docs || t == About
  }

  /** The panel of tab `t` is rendered: the tab is expanded and the sidebar is not collapsed. */
  predicate PanelVisible(s: NavState, t: Tab, isCollapsed: bool)
    ensures PanelVisible(s, t, isCollapsed) ==> t != NewChat
  {
    HasPanel(t) && s.expandedSection == Some(t) && !isCollapsed
  }

  /** The tab's button is drawn highlighted. */
  predicate TabHighlighted(s: NavState, t: Tab) {
    s.activeTab == t
  }

  /** Clicking "new-chat" when the action is supplied runs the action and nothing else. */
  lemma NewChatClickOnlyRunsAction(s: NavState, pathname: string)
    ensures OnTabClick(s, NewChat, true, pathname) == (s, Effect(true, None))
  {
  }

  /** Clicking "about" navigates to /about and leaves the sidebar state as it was. */
  lemma AboutClickOnlyNavigates(s: NavState, hasNewChatAction: bool, pathname: string)
    ensures OnTabClick(s, About, hasNewChatAction, pathname) == (s, Effect(false, Some(AboutPath)))
  {
  }

  /**
   * Clicking any other tab makes it the only highlighted tab, toggles its
   * expansion, collapses every other section, and navigates home only when
   * the route is not already "/".
   */
  lemma OtherClickTogglesSection(s: NavState, t: Tab, hasNewChatAction: bool, pathname: string)
    requires t != About && !(t == NewChat && hasNewChatAction)
    ensures var (s', e) := OnTabClick(s, t, hasNewChatAction, pathname);
      && (forall u :: TabHighlighted(s', u) <==> u == t)
      && (s'.expandedSection == Some(t) <==> s.expandedSection != Some(t))
      && (forall u :: u != t ==> s'.expandedSection != Some(u))
      && !e.callsNewChat
      && (e.navigateTo.Some? <==> pathname != RootPath)
      && (e.navigateTo.Some? ==> e.navigateTo.value == RootPath)
  {
  }

  /** However many panels the tabs have, at most one of them is rendered at a time. */
  lemma AtMostOnePanelVisible(s: NavState, t: Tab, u: Tab, isCollapsed: bool)
    requires PanelVisible(s, t, isCollapsed) && PanelVisible(s, u, isCollapsed)
    ensures t == u
  {
  }

  /** The states the handler can reach never have "about" active or expanded. */
  predicate AboutUntouched(s: NavState) {
    s.activeTab != About && s.expandedSection != Some(About)
  }

  /** The initial state is one the invariants below allow, so they hold again each time the sidebar mounts. */
  lemma InitialHasOnlyPanelTabs()
    ensures AboutUntouched(Initial) && OnlyPanelTabs(Initial)
  {
  }

  /** No sequence of clicks from a state without "about" brings "about" in. */
  lemma {:induction false} RunKeepsAboutUntouched(s: NavState, clicks: seq<Click>, hasNewChatAction: bool)
    requires AboutUntouched(s)
    ensures AboutUntouched(Run(s, clicks, hasNewChatAction))
    decreases |clicks|
  {
    if clicks != [] {
      var next := OnTabClick(s, clicks[0].tab, hasNewChatAction, clicks[0].pathname).0;
      RunKeepsAboutUntouched(next, clicks[1..], hasNewChatAction);
    }
  }

  /** Hence the About panel is dead code: it is never rendered, whatever the clicks. */
  lemma AboutPanelNeverVisible(clicks: seq<Click>, hasNewChatAction: bool, isCollapsed: bool)
    ensures !PanelVisible(Run(Initial, clicks, hasNewChatAction), About, isCollapsed)
  {
    RunKeepsAboutUntouched(Initial, clicks, hasNewChatAction);
  }

  /** With the new-chat action supplied, "new-chat" is never active or expanded either. */
  predicate OnlyPanelTabs(s: NavState) {
    AboutUntouched(s) && s.activeTab != NewChat && s.expandedSection != Some(NewChat)
  }

  lemma {:induction false} RunWithActionKeepsPanelTabs(s: NavState, clicks: seq<Click>)
    requires OnlyPanelTabs(s)
    ensures OnlyPanelTabs(Run(s, clicks, true))
    decreases |clicks|
  {
    if clicks != [] {
      var next := OnTabClick(s, clicks[0].tab, true, clicks[0].pathname).0;
      RunWithActionKeepsPanelTabs(next, clicks[1..]);
    }
  }

  /** Without the action, "new-chat" can become active and expanded, though it has no panel to show. */
  lemma NewChatWithoutActionExpands()
    ensures Run(Initial, [Click(NewChat, RootPath)], false) == NavState(NewChat, Some(NewChat))
    ensures !HasPanel(NewChat)
  {
  }

  /** One entry of the `chatHistory` prop. */
  datatype HistoryEntry = HistoryEntry(id: string, title: string)

  /** One line of the History panel: the placeholder, or a button for a past chat. */
  datatype PanelRow = Placeholder(text: string) | ChatButton(id: string, title: string, highlighted: bool)

  /** The button of each history entry; it is highlighted when its id is the current chat id. */
  function EntryRows(history: seq<HistoryEntry>, currentChatId: Option<string>): (rows: seq<PanelRow>)
    ensures |rows| == |history|
    ensures forall i :: 0 <= i < |history| ==>
      rows[i] == ChatButton(history[i].id, history[i].title, currentChatId == Some(history[i].id))
  {
    if history == [] then []
    else
      [ChatButton(history[0].id, history[0].title, currentChatId == Some(history[0].id))]
      + EntryRows(history[1..], currentChatId)
  }

  /**
   * The History panel's contents: the placeholder alone when there is no
   * history, otherwise one button per entry, in order. An absent
   * `currentChatId` prop is `None` and highlights nothing.
   */
  function HistoryPanel(history: seq<HistoryEntry>, currentChatId: Option<string>): (rows: seq<PanelRow>)
    ensures history == [] ==> rows == [Placeholder(NoHistoryText)]
    ensures history != [] ==> |rows| == |history|
    ensures history != [] ==> forall i :: 0 <= i < |rows| ==>
      && rows[i].ChatButton?
      && rows[i].id == history[i].id
      && rows[i].title == history[i].title
      && (rows[i].highlighted <==> currentChatId == Some(history[i].id))
  {
    if history == [] then [Placeholder(NoHistoryText)] else EntryRows(history, currentChatId)
  }

  /** When ids are distinct, at most one history button is highlighted. */
  lemma AtMostOneHighlighted(history: seq<HistoryEntry>, currentChatId: Option<string>, i: nat, j: nat)
    requires forall a, b :: 0 <= a < b < |history| ==> history[a].id != history[b].id
    requires i < |history| && j < |history|
    requires HistoryPanel(history, currentChatId)[i].highlighted
    requires HistoryPanel(history, currentChatId)[j].highlighted
    ensures i == j
  {
  }

  /**
   * The sidebar component's state, updated in place by its click handlers.
   * The props (`isCollapsed`, `onNewChat`, `chatHistory`, `onSelectChat`,
   * `currentChatId`) are parameters of the methods that read them.
   */
  class SidebarView {
    var activeTab: Tab
    var expandedSection: Option<Tab>

    constructor ()
      ensures State() == Initial
    {
      activeTab := Services;
      expandedSection := Some(Services);
    }

    function State(): NavState
      reads this
    {
      NavState(activeTab, expandedSection)
    }

    /** A click on tab `t`; returns what the handler asked of the outside world. */
    method ClickTab(t: Tab, hasNewChatAction: bool, pathname: string) returns (effect: Effect)
      modifies this
      ensures (State(), effect) == OnTabClick(old(State()), t, hasNewChatAction, pathname)
      ensures AboutUntouched(old(State())) ==> AboutUntouched(State())
    {
      var isExpanded := expandedSection == Some(t);
      if TabId(t) == "new-chat" && hasNewChatAction {
        effect := Effect(true, None);
      } else if TabId(t) == "about" {
        effect := Effect(false, Some(AboutPath));
      } else {
        var navigateTo := None;
        if pathname != RootPath {
          navigateTo := Some(RootPath);
        }
        activeTab := t;
        expandedSection := if isExpanded then None else Some(t);
        effect := Effect(false, navigateTo);
      }
    }

    /**
     * A click on the history button for `entry`: it asks for that chat to be
     * selected when `onSelectChat` is supplied, and changes no sidebar state.
     */
    method ClickHistoryEntry(entry: HistoryEntry, hasSelectAction: bool) returns (selected: Option<string>)
      ensures selected.Some? <==> hasSelectAction
      ensures selected.Some? ==> selected.value == entry.id
    {
      if hasSelectAction {
        selected := Some(entry.id);
      } else {
        selected := None;
      }
    }
  }
}
