/**
  The application shell: the current page key, the dispatch from a key to a
  page with its fallback to the overview, and navigation from the sidebar.
 */
module AppShell {
  import opened Layout

  datatype Page =
    | Overview | Clients | Messaging | Programs | Plans | Earnings
    | Referrals | Insights | Staff | Organization | Settings | Notifications

  /** The key under which each page is reached. */
  function PageKey(p: Page): string
  {
    match p
    case Overview => "overview"
    case Clients => "clients"
    case Messaging => "messaging"
    case Programs => "programs"
    case Plans => "plans"
    case Earnings => "earnings"
    case Referrals => "referrals"
    case Insights => "insights"
    case Staff => "staff"
    case Organization => "organization"
    case Settings => "settings"
    case Notifications => "notifications"
  }

  /** `renderPage`: the page whose key is `key`, and the overview for any
      string that is no page's key. */
  function RenderPage(key: string): (p: Page)
    ensures PageKey(p) == key || (p == Overview && forall q :: PageKey(q) != key)
  {
    match key
    case "overview" => Overview
    case "clients" => Clients
    case "messaging" => Messaging
    case "programs" => Programs
    case "plans" => Plans
    case "earnings" => Earnings
    case "referrals" => Referrals
    case "insights" => Insights
    case "staff" => Staff
    case "organization" => Organization
    case "settings" => Settings
    case "notifications" => Notifications
    case _ => Overview
  }

  /** Each page key renders its own page, so no two pages share a key. */
  lemma RenderPageKey(p: Page)
    ensures RenderPage(PageKey(p)) == p
  {
  }

  lemma PageKeyInjective(p: Page, q: Page)
    requires PageKey(p) == PageKey(q)
    ensures p == q
  {
    RenderPageKey(p);
    RenderPageKey(q);
  }

  /** Every id of every role's menu has its own case: rendering it never
      falls back to the overview unless the id is "overview" itself. */
  lemma MenuIdsRoutable(role: Role, unreadMessages: int, notifications: int, i: int)
    requires 0 <= i < |MenuItems(role, unreadMessages, notifications)|
    ensures var id := MenuItems(role, unreadMessages, notifications)[i].id;
      PageKey(RenderPage(id)) == id
  {
  }

  /** `App`'s state: the current page and the layout it renders with a fixed
      role and fixed badge counts. */
  class App {
    var currentPage: string
    const userRole: Role
    const layout: DashboardLayout

    constructor ()
      ensures currentPage == "overview" && RenderPage(currentPage) == Overview
      ensures userRole == Gym
      ensures layout.userRole == Gym && layout.unreadMessages == 3 && layout.notifications == 5
      ensures !layout.collapsed && !layout.mobileMenuOpen
      ensures fresh(layout)
    {
      currentPage := "overview";
      userRole := Gym;
      layout := new DashboardLayout(Gym, 3, 5);
    }

    function Rendered(): Page
      reads this
    {
      RenderPage(currentPage)
    }

    /** `onNavigate`: any key is accepted as the new current page. */
    method Navigate(page: string)
      modifies this`currentPage
      ensures currentPage == page
    {
      currentPage := page;
    }

    /** A sidebar click: navigates to the entry's page and closes the mobile menu. */
    method ClickMenuItem(i: int)
      requires 0 <= i < |layout.Menu()|
      modifies this`currentPage, layout`mobileMenuOpen
      ensures currentPage == layout.Menu()[i].id
      ensures PageKey(Rendered()) == currentPage
      ensures !layout.mobileMenuOpen && layout.collapsed == old(layout.collapsed)
    {
      var target := layout.ClickItem(i);
      Navigate(target);
      MenuIdsRoutable(layout.userRole, layout.unreadMessages, layout.notifications, i);
    }

    /** The sidebar toggles leave the current page alone. */
    method ToggleCollapsed()
      modifies layout`collapsed
      ensures layout.collapsed == !old(layout.collapsed)
      ensures currentPage == old(currentPage)
    {
      layout.ToggleCollapsed();
    }

    method ToggleMobileMenu()
      modifies layout`mobileMenuOpen
      ensures layout.mobileMenuOpen == !old(layout.mobileMenuOpen)
      ensures currentPage == old(currentPage)
    {
      layout.ToggleMobileMenu();
    }
  }
}
