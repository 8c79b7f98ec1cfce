/** The top bar: the global search box with its results menu, the
    notification menu and the theme-mode button. */
module TopBar {

  import opened Wrappers
  import opened Strings
  import Notifications
  import ThemeContext

  /** An employee hit and a department hit, with the fields the bar uses. */
  datatype EmployeeHit = EmployeeHit(id: nat, firstName: string, lastName: string)
  datatype DepartmentHit = DepartmentHit(name: string)

  datatype SearchResult = SearchResult(employees: seq<EmployeeHit>, departments: seq<DepartmentHit>)

  /** The search request's outcome: a response with its `success` flag, or a
      request that failed. */
  datatype SearchResponse = Response(success: bool, data: SearchResult) | RequestFailed

  /** The search box's state: the query, the last results and whether the
      results menu is anchored (open). */
  datatype SearchState = SearchState(query: string, results: Option<SearchResult>, menuOpen: bool)

  predicate HasHits(r: SearchResult) {
    |r.employees| > 0 || |r.departments| > 0
  }

  /** The menu is never open over an empty or missing result. */
  predicate MenuShowsHits(s: SearchState) {
    s.menuOpen ==> s.results.Some? && HasHits(s.results.value)
  }

  /** Typing into the box. */
  function Type(s: SearchState, query: string): (r: SearchState)
    ensures r.query == query
    ensures MenuShowsHits(s) ==> MenuShowsHits(r)
  {
    s.(query := query)
  }

  datatype SearchStep = SearchStep(state: SearchState, searched: bool)

  /** When the debounce delay elapses: a query of two or more characters is
      sent (and `response` is what comes back); a shorter one clears the
      results and closes the menu without a request. */
  function DebounceElapsed(s: SearchState, response: SearchResponse): (r: SearchStep)
    ensures r.searched <==> |s.query| >= 2
    ensures !r.searched ==> r.state == s.(results := None, menuOpen := false)
    ensures r.searched && response.Response? && response.success ==>
              && r.state.results == Some(response.data)
              && (r.state.menuOpen <==> HasHits(response.data))
              && r.state.query == s.query
    ensures r.searched && !(response.Response? && response.success) ==> r.state == s
    ensures MenuShowsHits(s) ==> MenuShowsHits(r.state)
  {
    if |s.query| >= 2 then
      match response
      case Response(true, data) => SearchStep(s.(results := Some(data), menuOpen := HasHits(data)), true)
      case _ => SearchStep(s, true)
    else SearchStep(s.(results := None, menuOpen := false), false)
  }

  /** Whatever is typed and whatever the server answers, the results menu only
      ever opens over at least one hit. */
  lemma {:induction false} MenuOnlyOverHits(s: SearchState, events: seq<(string, SearchResponse)>)
    requires MenuShowsHits(s)
    ensures MenuShowsHits(Replay(s, events))
    decreases |events|
  {
    if events != [] {
      var next := DebounceElapsed(Type(s, events[0].0), events[0].1).state;
      MenuOnlyOverHits(next, events[1..]);
    }
  }

  /** Typing and letting the delay elapse, once per event. */
  function Replay(s: SearchState, events: seq<(string, SearchResponse)>): SearchState
    decreases |events|
  {
    if events == [] then s
    else Replay(DebounceElapsed(Type(s, events[0].0), events[0].1).state, events[1..])
  }

  datatype ItemClick = ItemClick(state: SearchState, navigateTo: Option<string>)

  /** `handleSearchItemClick`: the menu closes and the query is cleared; an
      employee with a (non-zero) id opens that employee's profile, a department
      with a (non-empty) name opens the employee list filtered by it. The URL
      component encoder is a parameter. */
  function ClickItem(s: SearchState, kind: string, id: Option<nat>, name: Option<string>,
                     encode: string -> string): (r: ItemClick)
    ensures r.state == s.(query := "", menuOpen := false)
    ensures MenuShowsHits(r.state)
    ensures r.navigateTo.Some? <==>
              (kind == "employee" && id.Some? && id.value != 0)
              || (kind == "department" && name.Some? && name.value != "")
    ensures kind == "employee" && id.Some? && id.value != 0 ==>
              r.navigateTo == Some("/employees/" + NatToString(id.value))
    ensures kind == "department" && name.Some? && name.value != "" ==>
              r.navigateTo == Some("/employees?department=" + encode(name.value))
  {
    var closed := s.(query := "", menuOpen := false);
    if kind == "employee" && id.Some? && id.value != 0 then
      ItemClick(closed, Some("/employees/" + NatToString(id.value)))
    else if kind == "department" && name.Some? && name.value != "" then
      ItemClick(closed, Some("/employees?department=" + encode(name.value)))
    else ItemClick(closed, None)
  }

  /** The profile link carries the employee's id: its last part reads back as it. */
  lemma EmployeeLinkCarriesId(s: SearchState, id: nat, encode: string -> string)
    requires id != 0
    ensures var link := ClickItem(s, "employee", Some(id), None, encode).navigateTo.value;
            |link| > 11 && ParseNumber(link[11..]) == Some(id)
  {
    var link := ClickItem(s, "employee", Some(id), None, encode).navigateTo.value;
    assert link[11..] == NatToString(id);
    ParseNatToString(id);
  }

  /** Clicking a notification in the bar's menu: the same request and page as
      on the notifications page; the menu closes only when the handler gets
      past the mark-as-read request, so a failed request leaves it open. The
      second component is whether the menu is still open. */
  function OpenNotification(n: Notifications.Notification, succeeded: bool): (r: (Notifications.Click, bool))
    ensures r.0.markRead.Some? <==> Notifications.Unread(n)
    ensures r.1 <==> Notifications.Unread(n) && !succeeded
    ensures !r.1 ==> r.0.navigateTo == Notifications.Route(n.data.kind)
    ensures r.1 ==> r.0.navigateTo.None? && !r.0.refresh
  {
    (Notifications.Open(n, succeeded), Notifications.Unread(n) && !succeeded)
  }

  datatype ThemeIcon = LightModeIcon | DarkModeIcon | AutoModeIcon

  /** `getThemeIcon`, one icon per mode. */
  function IconOf(mode: ThemeContext.ThemeMode): (i: ThemeIcon)
    ensures i == LightModeIcon <==> mode == ThemeContext.Light
    ensures i == DarkModeIcon <==> mode == ThemeContext.Dark
    ensures i == AutoModeIcon <==> mode == ThemeContext.Auto
  {
    match mode
    case Light => LightModeIcon
    case Dark => DarkModeIcon
    case Auto => AutoModeIcon
  }

  /** `getThemeLabel`: the translation key of the mode's name. */
  function LabelKeyOf(mode: ThemeContext.ThemeMode): (key: string)
    ensures key == "settings.lightMode" <==> mode == ThemeContext.Light
    ensures key == "settings.darkMode" <==> mode == ThemeContext.Dark
    ensures key == "settings.autoMode" <==> mode == ThemeContext.Auto
  {
    match mode
    case Light => "settings.lightMode"
    case Dark => "settings.darkMode"
    case Auto => "settings.autoMode"
  }

  /** Icon and label each tell the three modes apart. */
  lemma ThemeButtonDistinguishesModes(a: ThemeContext.ThemeMode, b: ThemeContext.ThemeMode)
    requires a != b
    ensures IconOf(a) != IconOf(b)
    ensures LabelKeyOf(a) != LabelKeyOf(b)
  {
  }
}
