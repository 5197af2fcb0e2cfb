/** The view state of the `ScrapingDashboard` component of
    frontend/src/components/dashboard.js: the URL being typed, the loading flag,
    the last response, the sidebar view, the profile dropdown and page, and the
    signed-in user. Every event handler is a transition `Step` on a snapshot
    of that state, and the `Dashboard` class performs it on its fields. */
module DashboardView {
  import opened Wrappers
  import opened ScrapeModel
  import opened Scraper

  /** The sidebar entries. */
  datatype View = DashboardTab | ProductsTab | ContentTab | LinksTab | WordsTab | SettingsTab

  /** The signed-in user, as the sidebar and the profile dropdown show it. */
  datatype User = User(
    name: string, email: string, role: string, joined: string, projects: nat,
    photoURL: Option<string>, avatar: string)

  /** All the state the dashboard keeps; data None is the initial `null` and
      location the page `window.location.href` was sent to, if any. */
  datatype State = State(
    url: string,
    isLoading: bool,
    data: Option<ResponseBody>,
    activeView: View,
    profileOpen: bool,
    showProfilePage: bool,
    isAuthenticated: bool,
    user: Option<User>,
    location: Option<string>)

  /** The state after mounting with the `user` prop; sign-in is assumed for
      the demo. */
  function Initial(user: User): State {
    State("", false, None, DashboardTab, false, false, true, Some(user), None)
  }

  /** What the user or the network can do. Completed(outcome) is the end of
      the awaited request of handleSubmit: the parsed JSON body, or the
      error `fetch` or `response.json()` threw. */
  datatype Event =
    | EditUrl(text: string)
    | SelectView(view: View)
    | ToggleProfile
    | OpenProfilePage
    | CloseProfilePage
    | Login
    | Logout
    | Submit
    | Completed(outcome: Result<ResponseBody, string>)

  /** Which events the rendered page offers. The sign-in screen offers only the
      Google button; the dashboard offers the rest. Submitting needs a non-empty
      URL (the input is `required`) and an enabled button (it is disabled while
      loading); log-out sits in the profile dropdown and on the profile page;
      a request completes only while it is loading. */
  predicate Enabled(s: State, e: Event) {
    match e
    case Login => !s.isAuthenticated
    case Submit => s.isAuthenticated && !s.isLoading && s.url != ""
    case OpenProfilePage => s.isAuthenticated && s.profileOpen
    case CloseProfilePage => s.isAuthenticated && s.showProfilePage
    case Logout => s.isAuthenticated && (s.profileOpen || s.showProfilePage)
    case Completed(_) => s.isLoading
    case _ => s.isAuthenticated
  }

  /** The end of handleSubmit as written: any parsed body is stored with
      `setData(responseData)`, and loading ends on both paths. */
  function SettleAsWritten(s: State, outcome: Result<ResponseBody, string>): State {
    if outcome.Success? then s.(data := Some(outcome.value), isLoading := false)
    else s.(isLoading := false)
  }

  /** The end of handleSubmit as the results panel needs it (the corrected
      completion): only a scrape result replaces the data; an error body, like
      a thrown error, only ends loading. */
  function Settle(s: State, outcome: Result<ResponseBody, string>): State {
    if outcome.Success? && outcome.value.Scraped? then s.(data := Some(outcome.value), isLoading := false)
    else s.(isLoading := false)
  }

  /** The effect of one event, as the handlers are written. handleLogin and
      the mount-time auth check have empty bodies, so Login changes nothing. */
  function Step(s: State, e: Event): State {
    match e
    case EditUrl(text) => s.(url := text)
    case SelectView(v) => s.(activeView := v)
    case ToggleProfile => s.(profileOpen := !s.profileOpen)
    case OpenProfilePage => s.(showProfilePage := true, profileOpen := false)
    case CloseProfilePage => s.(showProfilePage := false)
    case Login => s
    case Logout => s.(isAuthenticated := false, showProfilePage := false, user := None, location := Some("/"))
    case Submit => s.(isLoading := true)
    case Completed(outcome) => SettleAsWritten(s, outcome)
  }

  /** The same handlers with the corrected end of handleSubmit. */
  function StepCorrected(s: State, e: Event): State {
    match e
    case Completed(outcome) => Settle(s, outcome)
    case _ => Step(s, e)
  }

  // ---------------------------------------------------------------------------
  // What is rendered

  /** The sign-in screen replaces the whole dashboard. */
  predicate ShowsLogin(s: State) {
    !s.isAuthenticated
  }

  /** `!data && !isLoading` */
  predicate ShowsEmpty(s: State) {
    s.data.None? && !s.isLoading
  }

  /** `isLoading` */
  predicate ShowsLoader(s: State) {
    s.isLoading
  }

  /** `data && !isLoading` */
  predicate ShowsResults(s: State) {
    s.data.Some? && !s.isLoading
  }

  datatype Panel = EmptyPanel | LoadingPanel | ResultsPanel

  /** The panel of the main area. */
  function MainPanel(s: State): (p: Panel)
    ensures p == EmptyPanel <==> ShowsEmpty(s)
    ensures p == LoadingPanel <==> ShowsLoader(s)
    ensures p == ResultsPanel <==> ShowsResults(s)
  {
    if s.isLoading then LoadingPanel
    else if s.data.None? then EmptyPanel
    else ResultsPanel
  }

  /** Exactly one of the three panel conditions holds in every state. */
  lemma ExactlyOnePanel(s: State)
    ensures (if ShowsEmpty(s) then 1 else 0) + (if ShowsLoader(s) then 1 else 0)
      + (if ShowsResults(s) then 1 else 0) == 1
  {
    var p := MainPanel(s);
  }

  /** The results panel reads `data.pageInfo`, `data.metrics` and the other
      fields of a scrape result: it renders only when the data is one. */
  predicate Consistent(s: State) {
    s.data.Some? ==> s.data.value.Scraped?
  }

  /** The dashboard is shown only with a user to read (`user.photoURL`, the
      name and role in the sidebar) and before any redirect: only handleLogout
      clears the user or sets the location, and it signs out as well. */
  predicate Coherent(s: State) {
    s.isAuthenticated ==> s.user.Some? && s.location.None?
  }

  /** The dashboard starts signed in, not loading, with the empty panel. */
  lemma InitialState(user: User)
    ensures var s := Initial(user);
      && !ShowsLogin(s) && MainPanel(s) == EmptyPanel && Consistent(s) && Coherent(s)
      && s.activeView == DashboardTab && s.user == Some(user)
  {
  }

  /** Every handler keeps the user and the location coherent with sign-in. */
  lemma StepCoherent(s: State, e: Event)
    requires Coherent(s)
    ensures Coherent(Step(s, e)) && Coherent(StepCorrected(s, e))
  {
  }

  /** As written, the only event that can store something other than a scrape
      result is a completion whose parsed body is the backend's error body. */
  lemma StepConsistentUnlessErrorBody(s: State, e: Event)
    requires Consistent(s)
    ensures Consistent(Step(s, e)) <==>
      !(e.Completed? && e.outcome.Success? && e.outcome.value.ErrorBody?)
  {
  }

  /** With the corrected completion no event breaks the consistency the
      results panel relies on, so the results panel only ever shows a scrape
      result. */
  lemma StepConsistent(s: State, e: Event)
    requires Consistent(s)
    ensures Consistent(StepCorrected(s, e))
    ensures ShowsResults(StepCorrected(s, e)) ==> StepCorrected(s, e).data.value.Scraped?
  {
  }

  /** handleSubmit as written: submitting shows the loader and keeps the old
      data; when the request ends loading is over, the data is replaced by
      whatever body was parsed, kept when the request threw, and the URL, the
      view and the sign-in are untouched. */
  lemma SubmitSpec(s: State, outcome: Result<ResponseBody, string>)
    requires Enabled(s, Submit)
    ensures var m := Step(s, Submit);
      && MainPanel(m) == LoadingPanel && m.data == s.data
      && Enabled(m, Completed(outcome)) && !Enabled(m, Submit)
      && var t := Step(m, Completed(outcome));
        && !t.isLoading
        && t.data == (if outcome.Success? then Some(outcome.value) else s.data)
        && (MainPanel(t) == ResultsPanel <==> outcome.Success? || s.data.Some?)
        && t.url == s.url && t.activeView == s.activeView
        && t.isAuthenticated == s.isAuthenticated && t.user == s.user
  {
  }

  /** handleSubmit with the corrected completion: the data is replaced exactly
      when a scrape result came back. */
  lemma SubmitSpecCorrected(s: State, outcome: Result<ResponseBody, string>)
    requires Enabled(s, Submit)
    ensures var m := StepCorrected(s, Submit);
      && MainPanel(m) == LoadingPanel && m.data == s.data
      && Enabled(m, Completed(outcome)) && !Enabled(m, Submit)
      && var t := StepCorrected(m, Completed(outcome));
        && !t.isLoading
        && t.data == (if outcome.Success? && outcome.value.Scraped? then Some(outcome.value) else s.data)
        && (MainPanel(t) == ResultsPanel <==> (outcome.Success? && outcome.value.Scraped?) || s.data.Some?)
        && t.url == s.url && t.activeView == s.activeView
        && t.isAuthenticated == s.isAuthenticated && t.user == s.user
  {
  }

  /** Only handleSubmit starts loading and only the end of its request stops it. */
  lemma LoadingChanges(s: State, e: Event)
    ensures e.Submit? ==> Step(s, e).isLoading
    ensures e.Completed? ==> !Step(s, e).isLoading
    ensures !e.Submit? && !e.Completed? ==> Step(s, e).isLoading == s.isLoading
    ensures !e.Completed? ==> Step(s, e).data == s.data
  {
  }

  /** handleLogout: the sign-in screen replaces the dashboard, the profile page
      closes, the user is cleared and the browser goes to "/"; the data and
      the URL survive. */
  lemma LogoutSpec(s: State)
    ensures var t := Step(s, Logout);
      && ShowsLogin(t) && !t.showProfilePage && t.user == None && t.location == Some("/")
      && t.data == s.data && t.url == s.url && t.isLoading == s.isLoading
  {
  }

  /** Nothing signs the user back in: handleLogin does nothing. */
  lemma LoggedOutStays(s: State, e: Event)
    requires ShowsLogin(s)
    ensures ShowsLogin(Step(s, e))
  {
  }

  // ---------------------------------------------------------------------------
  // The stored error body

  /** With handleSubmit as written, a URL the backend cannot fetch leads to the
      results panel over the backend's `{status, message}` body, which has no
      `pageInfo` to read: the page fails to render. */
  lemma ErrorBodyReachesResults(s: State, fetch: string -> Result<Page, string>, env: Environment)
    requires Enabled(s, Submit) && fetch(s.url).Failure?
    ensures var resp := Respond(Some(map["url" := s.url]), fetch, env);
      && resp.status == 500
      && var t := Step(Step(s, Submit), Completed(Success(resp.body)));
        ShowsResults(t) && !Consistent(t) && t.data == Some(resp.body)
  {
  }

  /** With the corrected end of handleSubmit the same answer only ends loading:
      the old data stays, and the panel shows results only if it did before. */
  lemma ErrorBodyKeepsData(s: State, fetch: string -> Result<Page, string>, env: Environment)
    requires Enabled(s, Submit) && Consistent(s) && fetch(s.url).Failure?
    ensures var resp := Respond(Some(map["url" := s.url]), fetch, env);
      var t := StepCorrected(StepCorrected(s, Submit), Completed(Success(resp.body)));
      && t.data == s.data && Consistent(t)
      && (ShowsResults(t) <==> s.data.Some?)
  {
  }

  // ---------------------------------------------------------------------------
  // The component

  /** The dashboard's state hooks, with one method per event handler, as
      written. */
  class Dashboard {
    var url: string
    var isLoading: bool
    var data: Option<ResponseBody>
    var activeView: View
    var profileOpen: bool
    var showProfilePage: bool
    var isAuthenticated: bool
    var user: Option<User>
    var location: Option<string>

    function Snapshot(): State
      reads this
    {
      State(url, isLoading, data, activeView, profileOpen, showProfilePage, isAuthenticated, user, location)
    }

    ghost predicate Valid()
      reads this
    {
      Coherent(Snapshot())
    }

    /** The `useState` initial values, with the `user` prop. */
    constructor(user: User)
      ensures Snapshot() == Initial(user) && Valid()
    {
      url := "";
      isLoading := false;
      data := None;
      activeView := DashboardTab;
      profileOpen := false;
      showProfilePage := false;
      isAuthenticated := true;
      this.user := Some(user);
      location := None;
    }

    /** The URL input's onChange. */
    method SetUrl(text: string)
      requires Valid() && Enabled(Snapshot(), EditUrl(text))
      modifies this
      ensures Valid() && Snapshot() == Step(old(Snapshot()), EditUrl(text))
    {
      url := text;
    }

    /** A sidebar item's onClick. */
    method SetActiveView(view: View)
      requires Valid() && Enabled(Snapshot(), SelectView(view))
      modifies this
      ensures Valid() && Snapshot() == Step(old(Snapshot()), SelectView(view))
    {
      activeView := view;
    }

    /** The profile section's onClick. */
    method ToggleProfileMenu()
      requires Valid() && Enabled(Snapshot(), ToggleProfile)
      modifies this
      ensures Valid() && Snapshot() == Step(old(Snapshot()), ToggleProfile)
    {
      profileOpen := !profileOpen;
    }

    /** The dropdown's Profile button. */
    method ShowProfile()
      requires Valid() && Enabled(Snapshot(), OpenProfilePage)
      modifies this
      ensures Valid() && Snapshot() == Step(old(Snapshot()), OpenProfilePage)
    {
      showProfilePage := true;
      profileOpen := false;
    }

    /** The profile page's onClose. */
    method HideProfile()
      requires Valid() && Enabled(Snapshot(), CloseProfilePage)
      modifies this
      ensures Valid() && Snapshot() == Step(old(Snapshot()), CloseProfilePage)
    {
      showProfilePage := false;
    }

    /** handleLogin: its body is commented out. */
    method HandleLogin()
      requires Valid() && Enabled(Snapshot(), Login)
      modifies this
      ensures Valid() && Snapshot() == Step(old(Snapshot()), Login)
    {
    }

    /** handleLogout. */
    method HandleLogout()
      requires Valid() && Enabled(Snapshot(), Logout)
      modifies this
      ensures Valid() && Snapshot() == Step(old(Snapshot()), Logout)
    {
      isAuthenticated := false;
      showProfilePage := false;
      user := None;
      location := Some("/");
    }

    /** handleSubmit up to its `await`. */
    method HandleSubmit()
      requires Valid() && Enabled(Snapshot(), Submit)
      modifies this
      ensures Valid() && Snapshot() == Step(old(Snapshot()), Submit)
    {
      isLoading := true;
    }

    /** handleSubmit after its `await`: the try block stores any parsed body
        with `setData`, the catch block only ends loading. An error body then
        reaches the results panel. */
    method SubmitCompleted(outcome: Result<ResponseBody, string>)
      requires Valid() && Enabled(Snapshot(), Completed(outcome))
      modifies this
      ensures Valid() && Snapshot() == Step(old(Snapshot()), Completed(outcome))
      ensures outcome.Success? && outcome.value.ErrorBody? ==> ShowsResults(Snapshot()) && !Consistent(Snapshot())
    {
      match outcome
      case Success(body) =>
        data := Some(body);
        isLoading := false;
      case Failure(_) =>
        isLoading := false;
    }
  }
}
