/** `AppContent`: the gate on the session (spinner, onboarding or the main app), the current view
    and its dispatch, and the unread-notification counter fed by the feed's like simulator. */
module App {
  import opened Wrappers
  import opened Records
  import AuthContext
  import AuthWrapper
  import HomeFeed
  import TeamsView
  import AddTeamForm

  /** What `AppContent` renders. */
  datatype Gate = Spinner | Onboarding | MainApp

  /** Loading wins over everything; then an anonymous session sees the onboarding flow. */
  function GateFor(isLoading: bool, isAuthenticated: bool): (g: Gate)
    ensures g == Spinner <==> isLoading
    ensures g == Onboarding <==> !isLoading && !isAuthenticated
    ensures g == MainApp <==> !isLoading && isAuthenticated
  {
    if isLoading then Spinner
    else if !isAuthenticated then Onboarding
    else MainApp
  }

  /** What the main area shows. */
  datatype View = Feed | Placeholder(name: string) | Teams

  /** `renderView`: "events" and "trending" share the placeholder, "teams" has its page, and
      "home" as well as every other name falls back to the feed. */
  function RenderView(currentView: string): (v: View)
    ensures v == Teams <==> currentView == "teams"
    ensures v.Placeholder? <==> currentView == "events" || currentView == "trending"
    ensures v.Placeholder? ==> v.name == currentView
    ensures v == Feed <==> currentView != "teams" && currentView != "events" && currentView != "trending"
  {
    if currentView == "events" || currentView == "trending" then Placeholder(currentView)
    else if currentView == "teams" then Teams
    else Feed
  }

  /** A view switch unmounts the component it leaves: the feed when the new view is no longer the
      feed, the team page when it is no longer "teams". Two names that both show the feed keep
      the same mounted feed. */
  predicate Leaves(from: string, to: string, v: View) {
    RenderView(from) == v && RenderView(to) != v
  }

  class AppContent {
    var currentView: string
    var unreadNotifications: int
    /** The feed's state: the mounted one while the feed is shown, otherwise the one the next
        mount starts from. */
    var feed: HomeFeed.FeedStore
    /** The team page's state, in the same sense. */
    var teams: TeamsView.Page
    /** When the feed's module was loaded: the mock posts of every mount are stamped from it. */
    const loadTime: int

    constructor (loadTime: int)
      ensures currentView == "home" && unreadNotifications == 2
      ensures this.loadTime == loadTime
      ensures feed.posts == HomeFeed.InitialPosts(loadTime) && feed.Valid()
      ensures teams.teams == [] && !teams.showForm
      ensures fresh(feed) && fresh(teams)
    {
      currentView := "home";
      unreadNotifications := 2;
      this.loadTime := loadTime;
      feed := new HomeFeed.FeedStore(loadTime);
      teams := new TeamsView.Page();
    }

    /** `onViewChange` from the navigation bar. Leaving the feed discards its posts (it remounts
        from the mock posts) and stops its interval; leaving "teams" discards the team list and
        closes the form. Every other piece of state is kept. */
    method SetCurrentView(v: string)
      modifies this`currentView, this`feed, this`teams
      ensures currentView == v
      ensures Leaves(old(currentView), v, Feed) ==>
        fresh(feed) && feed.posts == HomeFeed.InitialPosts(loadTime) && feed.Valid()
      ensures !Leaves(old(currentView), v, Feed) ==> feed == old(feed)
      ensures Leaves(old(currentView), v, Teams) ==> fresh(teams) && teams.teams == [] && !teams.showForm
      ensures !Leaves(old(currentView), v, Teams) ==> teams == old(teams)
    {
      if Leaves(currentView, v, Feed) {
        feed := new HomeFeed.FeedStore(loadTime);
      }
      if Leaves(currentView, v, Teams) {
        teams := new TeamsView.Page();
      }
      currentView := v;
    }

    /** `handleNewNotification`: exactly one more unread notification. */
    method HandleNewNotification()
      modifies this`unreadNotifications
      ensures unreadNotifications == old(unreadNotifications) + 1
    {
      unreadNotifications := unreadNotifications + 1;
    }

    /** `handleAuthComplete`: the onboarding data goes to `createUser`. */
    method HandleAuthComplete(auth: AuthContext.AuthProvider, userData: Record, now: int)
      modifies auth
      ensures auth.user == Some(AuthContext.CreatedUser(userData, now)) && auth.IsAuthenticated()
      ensures auth.isLoading == old(auth.isLoading)
    {
      auth.CreateUser(userData, now);
    }

    /** One simulator tick of the feed on screen (the interval runs only while the feed is
        mounted): each like it adds calls the notification callback once. */
    method FeedTick(grow: seq<bool>)
      requires RenderView(currentView) == Feed
      requires |grow| == |feed.posts|
      modifies this`unreadNotifications, feed
      ensures feed.posts == HomeFeed.TickPosts(old(feed.posts), grow)
      ensures unreadNotifications == old(unreadNotifications) + HomeFeed.CountTrue(grow)
      ensures old(feed.Valid()) ==> feed.Valid()
    {
      var fired := feed.Tick(grow, true);
      var i := 0;
      while i < fired
        invariant 0 <= i <= fired
        invariant unreadNotifications == old(unreadNotifications) + i
        invariant feed.posts == HomeFeed.TickPosts(old(feed.posts), grow)
      {
        HandleNewNotification();
        i := i + 1;
      }
    }
  }

  /** The counter after `n` notifications, starting from a fresh app: it starts at 2 and each
      notification adds one, so nothing ever lowers it. */
  method UnreadAfter(n: nat) returns (count: int)
    ensures count == 2 + n
  {
    var app := new AppContent(0); // the load time plays no part in the counter
    var i := 0;
    while i < n
      invariant 0 <= i <= n
      invariant app.unreadNotifications == 2 + i
    {
      app.HandleNewNotification();
      i := i + 1;
    }
    count := app.unreadNotifications;
  }

  /** Page load: the spinner shows until the stored session has been checked; then a slot that
      parses opens the main app and anything else opens onboarding. */
  method StartupGates(stored: Option<AuthContext.User>, parseFails: bool, loadedAt: int)
    returns (first: Gate, settled: Gate)
    ensures first == Spinner
    ensures settled == if stored.Some? && !parseFails then MainApp else Onboarding
  {
    var auth := new AuthContext.AuthProvider(stored, loadedAt);
    first := GateFor(auth.isLoading, auth.IsAuthenticated());
    auth.CheckAuthStatus(parseFails);
    settled := GateFor(auth.isLoading, auth.IsAuthenticated());
  }

  /** The onboarding screen driven through its three steps in order: it hands on the sign-up
      data overlaid with the profile data. */
  method CompleteOnboarding(signupData: Record, profileData: Record) returns (sent: Option<Record>)
    ensures sent == Some(Merge(signupData, profileData))
  {
    var flow := new AuthWrapper.Onboarding();
    var empty: Record := map[];
    assert Merge(empty, signupData) == signupData;
    var s1 := flow.Dispatch(AuthWrapper.SignUpDone(signupData));
    assert flow.currentStep == AuthWrapper.Profile && flow.userData == signupData;
    var s2 := flow.Dispatch(AuthWrapper.ProfileDone(profileData));
    assert flow.currentStep == AuthWrapper.Welcome && flow.userData == Merge(signupData, profileData);
    sent := flow.Dispatch(AuthWrapper.WelcomeDone);
  }

  /** A first visit: onboarding is shown, the three steps complete in order, the collected data
      becomes the new user and the main app opens with the home view. */
  method FirstVisit(signupData: Record, profileData: Record, now: int, loadedAt: int)
    returns (before: Gate, after: Gate, user: Option<AuthContext.User>, view: View)
    ensures before == Onboarding && after == MainApp && view == Feed
    ensures user == Some(AuthContext.CreatedUser(Merge(signupData, profileData), now))
  {
    var auth := new AuthContext.AuthProvider(None, loadedAt);
    auth.CheckAuthStatus(false);
    var app := new AppContent(loadedAt);
    before := GateFor(auth.isLoading, auth.IsAuthenticated());
    var sent := CompleteOnboarding(signupData, profileData);
    app.HandleAuthComplete(auth, sent.value, now);
    after := GateFor(auth.isLoading, auth.IsAuthenticated());
    user := auth.user;
    view := RenderView(app.currentView);
  }

  /** Whatever was done to the feed is gone after a visit to another view: liking a post, going
      to a view that does not show the feed and coming back shows the mock posts again. */
  method FeedLostOnViewSwitch(loadTime: int, postId: string, other: string)
    returns (liked: seq<HomeFeed.Post>, back: seq<HomeFeed.Post>)
    requires RenderView(other) != Feed
    ensures liked == HomeFeed.LikeIn(HomeFeed.InitialPosts(loadTime), postId)
    ensures back == HomeFeed.InitialPosts(loadTime)
  {
    var app := new AppContent(loadTime);
    app.feed.Like(postId);
    liked := app.feed.posts;
    app.SetCurrentView(other);
    app.SetCurrentView("home");
    back := app.feed.posts;
  }

  /** The same for the team page: a team added on "teams" is gone once another view has been
      shown, and the page comes back empty with its form closed. */
  method TeamsLostOnViewSwitch(draft: AddTeamForm.TeamDraft, now: int, other: string)
    returns (added: seq<TeamsView.Team>, back: seq<TeamsView.Team>, formShown: bool)
    requires other != "teams"
    ensures added == [TeamsView.NewTeam(draft, now)]
    ensures back == [] && !formShown
  {
    var app := new AppContent(0); // the load time plays no part in the team page
    app.SetCurrentView("teams");
    app.teams.HandleAddTeam(draft, now);
    added := app.teams.teams;
    app.SetCurrentView(other);
    app.SetCurrentView("teams");
    back, formShown := app.teams.teams, app.teams.showForm;
  }
}
