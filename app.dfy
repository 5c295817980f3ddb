/** The application shell (src/App.tsx): which page is current, whether the
    mobile sidebar is open, the handlers that change them, the navigation
    table and the page-to-view dispatch. */
module App {

  /** `Page` */
  datatype Page = Landing | DashboardPage | HealthPage | CreditPage | MentorPage | FraudPage | ApiPage | GamificationPage {
    function Name(): string {
      match this
      case Landing => "landing"
      case DashboardPage => "dashboard"
      case HealthPage => "health"
      case CreditPage => "credit"
      case MentorPage => "mentor"
      case FraudPage => "fraud"
      case ApiPage => "api"
      case GamificationPage => "gamification"
    }
  }

  /** The top-level components a page can mount. */
  datatype View =
    | LandingView | DashboardView | HealthView | CreditView | MentorView | FraudView | ApiView | GamificationView

  /** One sidebar entry: its caption and the page it opens. */
  datatype NavItem = NavItem(name: string, page: Page)

  /** The `navigation` table, in sidebar order. */
  const Navigation: seq<NavItem> := [
    NavItem("Dashboard", DashboardPage),
    NavItem("Financial Health", HealthPage),
    NavItem("Credit Score", CreditPage),
    NavItem("AI Mentor", MentorPage),
    NavItem("Fraud Detection", FraudPage),
    NavItem("API Showcase", ApiPage),
    NavItem("Gamification", GamificationPage)
  ]

  /** The pages the navigation table lists, in order. */
  function NavPages(items: seq<NavItem>): (pages: seq<Page>)
    ensures |pages| == |items|
    ensures forall k :: 0 <= k < |items| ==> pages[k] == items[k].page
  {
    if items == [] then [] else NavPages(items[..|items| - 1]) + [items[|items| - 1].page]
  }

  /** A page's place in the sidebar, counting the landing page as 0. */
  function Ordinal(p: Page): nat {
    match p
    case Landing => 0
    case DashboardPage => 1
    case HealthPage => 2
    case CreditPage => 3
    case MentorPage => 4
    case FraudPage => 5
    case ApiPage => 6
    case GamificationPage => 7
  }

  /** The table names every page except the landing page, each once. */
  lemma NavigationListsEachInnerPageOnce()
    ensures |Navigation| == 7
    ensures forall j, k :: 0 <= j < k < |Navigation| ==> Navigation[j].page != Navigation[k].page
    ensures forall p: Page :: p in NavPages(Navigation) <==> p != Landing
  {
    forall k | 0 <= k < 7
      ensures NavPages(Navigation)[k] == Navigation[k].page && Ordinal(Navigation[k].page) == k + 1
    {
    }
    forall p: Page
      ensures p in NavPages(Navigation) <==> p != Landing
    {
      if p != Landing {
        assert NavPages(Navigation)[Ordinal(p) - 1] == p;
      }
    }
  }

  /** What the app renders for a page: the landing page replaces the whole
      shell; otherwise each conditional mount in `main` adds its view when
      its page is current. */
  function ViewsFor(page: Page): (views: seq<View>)
    ensures |views| == 1
  {
    if page == Landing then [LandingView]
    else
      (if page == DashboardPage then [DashboardView] else []) +
      (if page == HealthPage then [HealthView] else []) +
      (if page == CreditPage then [CreditView] else []) +
      (if page == MentorPage then [MentorView] else []) +
      (if page == FraudPage then [FraudView] else []) +
      (if page == ApiPage then [ApiView] else []) +
      (if page == GamificationPage then [GamificationView] else [])
  }

  /** The view each page is meant to show. */
  function ViewOf(page: Page): View {
    match page
    case Landing => LandingView
    case DashboardPage => DashboardView
    case HealthPage => HealthView
    case CreditPage => CreditView
    case MentorPage => MentorView
    case FraudPage => FraudView
    case ApiPage => ApiView
    case GamificationPage => GamificationView
  }

  /** Every page renders exactly one view, its own, and different pages
      render different views. */
  lemma EachPageRendersOneView(page: Page, other: Page)
    ensures ViewsFor(page) == [ViewOf(page)]
    ensures ViewOf(page) == ViewOf(other) ==> page == other
  {
  }

  class Shell {
    var currentPage: Page
    var sidebarOpen: bool

    /** The landing page replaces the shell, so the sidebar is never left
        open behind it. */
    predicate Valid()
      reads this
    {
      currentPage == Landing ==> !sidebarOpen
    }

    /** The app opens on the landing page with the sidebar closed. */
    constructor ()
      ensures Valid()
      ensures currentPage == Landing && !sidebarOpen
    {
      currentPage := Landing;
      sidebarOpen := false;
    }

    /** What is on screen. */
    function Views(): seq<View>
      reads this
    {
      ViewsFor(currentPage)
    }

    /** The dimming overlay is mounted only while the sidebar is open, and
        only inside the shell, which the landing page replaces. */
    predicate OverlayShown()
      reads this
    {
      currentPage != Landing && sidebarOpen
    }

    /** A navigation entry is highlighted when its page is current. */
    predicate IsActive(item: NavItem)
      reads this
    {
      currentPage == item.page
    }

    /** The landing page's get-started callback. */
    method GetStarted()
      requires currentPage == Landing
      requires Valid()
      modifies this
      ensures Valid()
      ensures currentPage == DashboardPage && sidebarOpen == old(sidebarOpen)
      ensures Views() == [DashboardView]
    {
      currentPage := DashboardPage;
      EachPageRendersOneView(currentPage, currentPage);
    }

    /** The sidebar's Home button. */
    method GoHome()
      requires currentPage != Landing
      requires Valid()
      modifies this
      ensures Valid()
      ensures currentPage == Landing && !sidebarOpen
      ensures Views() == [LandingView] && !OverlayShown()
    {
      currentPage := Landing;
      sidebarOpen := false;
    }

    /** A navigation entry's button. */
    method Navigate(item: NavItem)
      requires currentPage != Landing && item in Navigation
      requires Valid()
      modifies this
      ensures Valid()
      ensures currentPage == item.page && !sidebarOpen
      ensures Views() == [ViewOf(item.page)] && !OverlayShown()
      ensures forall other :: other in Navigation ==> (IsActive(other) <==> other == item)
    {
      currentPage := item.page;
      sidebarOpen := false;
      EachPageRendersOneView(currentPage, currentPage);
      NavigationListsEachInnerPageOnce();
    }

    /** The mobile menu button flips the sidebar and keeps the page. */
    method ToggleSidebar()
      requires currentPage != Landing
      requires Valid()
      modifies this
      ensures Valid()
      ensures sidebarOpen == !old(sidebarOpen) && currentPage == old(currentPage)
      ensures OverlayShown() == sidebarOpen
    {
      sidebarOpen := !sidebarOpen;
    }

    /** Clicking the overlay, which exists only while it is shown, closes
        the sidebar and keeps the page. */
    method ClickOverlay()
      requires OverlayShown()
      requires Valid()
      modifies this
      ensures Valid()
      ensures !sidebarOpen && currentPage == old(currentPage)
      ensures !OverlayShown()
    {
      sidebarOpen := false;
    }
  }

  /** From a fresh app, getting started and then picking a navigation entry
      lands on that entry's page with the sidebar closed. */
  method StartAndNavigate(k: nat) returns (shown: seq<View>)
    requires k < |Navigation|
    ensures shown == [ViewOf(Navigation[k].page)]
  {
    var app := new Shell();
    app.GetStarted();
    app.Navigate(Navigation[k]);
    shown := app.Views();
  }
}
