/**
  The navigation shell's sidebar: the menu built from the user's role, the
  badge and active-item rules, and the collapsed and mobile-menu flags.
 */
module Layout {
  import opened Wrappers

  datatype Role = Trainer | Gym | Medspa

  /** A menu entry (the icon component is left out). */
  datatype MenuItem = MenuItem(id: string, title: string, badge: Option<int>)

  /** The ids every menu starts with, in order. */
  const BaseIds: seq<string> :=
    ["overview", "clients", "messaging", "programs", "plans", "earnings", "referrals", "insights"]

  function Ids(items: seq<MenuItem>): (r: seq<string>)
    ensures |r| == |items| && forall i :: 0 <= i < |items| ==> r[i] == items[i].id
  {
    seq(|items|, i requires 0 <= i < |items| => items[i].id)
  }

  /** The eight entries every role sees; messaging carries the unread count. */
  function BaseItems(unreadMessages: int): seq<MenuItem>
  {
    [ MenuItem("overview", "Overview", None),
      MenuItem("clients", "Clients", None),
      MenuItem("messaging", "Messaging", Some(unreadMessages)),
      MenuItem("programs", "Programs & Challenges", None),
      MenuItem("plans", "Plans Library", None),
      MenuItem("earnings", "Earnings", None),
      MenuItem("referrals", "Referrals", None),
      MenuItem("insights", "Insights", None) ]
  }

  /** The two entries added for gyms and medspas. */
  const RoleItems: seq<MenuItem> :=
    [ MenuItem("staff", "Staff", None), MenuItem("organization", "Organization", None) ]

  /** The two entries that always close the menu; notifications carries its count. */
  function TailItems(notifications: int): seq<MenuItem>
  {
    [ MenuItem("settings", "Settings", None), MenuItem("notifications", "Notifications", Some(notifications)) ]
  }

  predicate HasRoleItems(role: Role)
  {
    role == Gym || role == Medspa
  }

  /** `menuItems` for a role and the two badge counts. */
  function MenuItems(role: Role, unreadMessages: int, notifications: int): (r: seq<MenuItem>)
    ensures |r| == (if HasRoleItems(role) then 12 else 10)
    ensures Ids(r)[..8] == BaseIds
    ensures HasRoleItems(role) ==> r[8].id == "staff" && r[9].id == "organization"
    ensures !HasRoleItems(role) ==> forall i :: 0 <= i < |r| ==> r[i].id != "staff" && r[i].id != "organization"
    ensures r[|r| - 2].id == "settings" && r[|r| - 1].id == "notifications"
  {
    BaseItems(unreadMessages) + (if HasRoleItems(role) then RoleItems else []) + TailItems(notifications)
  }

  /** No two entries of any menu share an id. */
  lemma MenuIdsUnique(role: Role, unreadMessages: int, notifications: int)
    ensures var r := MenuItems(role, unreadMessages, notifications);
      forall i, j :: 0 <= i < j < |r| ==> r[i].id != r[j].id
  {
    var r := MenuItems(role, unreadMessages, notifications);
    var ranked := MenuRanks(Ids(r));
    MenuRanksAt(role, unreadMessages, notifications);
    forall i, j | 0 <= i < j < |r| ensures r[i].id != r[j].id {
      assert ranked[i] < ranked[j];
    }
  }

  /** The rank of the entry at position `i`: the position itself, shifted by
      two past the base entries when the staff and organization entries are absent. */
  lemma MenuRanksAt(role: Role, unreadMessages: int, notifications: int)
    ensures var ranked := MenuRanks(Ids(MenuItems(role, unreadMessages, notifications)));
      forall i :: 0 <= i < |ranked| ==> ranked[i] == (if i < 8 || HasRoleItems(role) then i else i + 2)
  {
    var base, tail := BaseItems(unreadMessages), TailItems(notifications);
    var middle := if HasRoleItems(role) then RoleItems else [];
    RanksAppend(base, middle);
    RanksAppend(base + middle, tail);
    BaseRanks(unreadMessages);
    var rb, rm, rt := MenuRanks(Ids(base)), MenuRanks(Ids(middle)), MenuRanks(Ids(tail));
    assert rm == (if HasRoleItems(role) then [8, 9] else []);
    assert rt == [10, 11];
    var ranked := MenuRanks(Ids(MenuItems(role, unreadMessages, notifications)));
    assert ranked == rb + rm + rt;
    forall i | 0 <= i < |ranked| ensures ranked[i] == (if i < 8 || HasRoleItems(role) then i else i + 2) {
      if i < 8 {
        assert ranked[i] == rb[i];
      } else if i < 8 + |rm| {
        assert ranked[i] == rm[i - 8];
      } else {
        assert ranked[i] == rt[i - 8 - |rm|];
      }
    }
  }

  lemma BaseRanks(unreadMessages: int)
    ensures var rb := MenuRanks(Ids(BaseItems(unreadMessages)));
      |rb| == 8 && forall k :: 0 <= k < 8 ==> rb[k] == k
  {
    var ids := Ids(BaseItems(unreadMessages));
    assert ids == BaseIds;
  }

  lemma RanksAppend(a: seq<MenuItem>, b: seq<MenuItem>)
    ensures MenuRanks(Ids(a + b)) == MenuRanks(Ids(a)) + MenuRanks(Ids(b))
  {
    var l, ra, rb := MenuRanks(Ids(a + b)), MenuRanks(Ids(a)), MenuRanks(Ids(b));
    forall k | 0 <= k < |l| ensures l[k] == (ra + rb)[k] {
      if k < |a| {
        assert (a + b)[k] == a[k];
      } else {
        assert (a + b)[k] == b[k - |a|];
      }
    }
  }

  /** The position of each menu id in the full twelve-entry order. */
  function Rank(id: string): int
  {
    match id
    case "overview" => 0
    case "clients" => 1
    case "messaging" => 2
    case "programs" => 3
    case "plans" => 4
    case "earnings" => 5
    case "referrals" => 6
    case "insights" => 7
    case "staff" => 8
    case "organization" => 9
    case "settings" => 10
    case "notifications" => 11
    case _ => -1
  }

  function MenuRanks(ids: seq<string>): (r: seq<int>)
    ensures |r| == |ids| && forall i :: 0 <= i < |ids| ==> r[i] == Rank(ids[i])
  {
    seq(|ids|, i requires 0 <= i < |ids| => Rank(ids[i]))
  }

  /** Only messaging and notifications carry a badge, holding the counts given. */
  lemma MenuBadges(role: Role, unreadMessages: int, notifications: int)
    ensures var r := MenuItems(role, unreadMessages, notifications);
      forall i :: 0 <= i < |r| ==>
        && (r[i].badge.Some? <==> r[i].id == "messaging" || r[i].id == "notifications")
        && (r[i].id == "messaging" ==> r[i].badge == Some(unreadMessages))
        && (r[i].id == "notifications" ==> r[i].badge == Some(notifications))
  {
  }

  /** The destructive count badge is drawn for an expanded sidebar entry whose
      badge is a positive number. */
  predicate ShowsBadge(item: MenuItem, collapsed: bool)
  {
    !collapsed && item.badge.Some? && item.badge.value > 0
  }

  /** On any menu a badge shows exactly on an expanded sidebar, for messaging
      with unread messages and for notifications with a positive count. */
  lemma MenuBadgeShown(role: Role, unreadMessages: int, notifications: int, collapsed: bool, i: int)
    requires 0 <= i < |MenuItems(role, unreadMessages, notifications)|
    ensures var item := MenuItems(role, unreadMessages, notifications)[i];
      ShowsBadge(item, collapsed) <==>
        !collapsed && ((item.id == "messaging" && unreadMessages > 0) || (item.id == "notifications" && notifications > 0))
  {
    MenuBadges(role, unreadMessages, notifications);
  }

  /** An entry is highlighted when it is the current page. */
  predicate IsActive(currentPage: string, item: MenuItem)
  {
    currentPage == item.id
  }

  /** At most one entry of a menu is active. */
  lemma AtMostOneActive(role: Role, unreadMessages: int, notifications: int, currentPage: string, i: int, j: int)
    requires var r := MenuItems(role, unreadMessages, notifications);
      0 <= i < |r| && 0 <= j < |r| && IsActive(currentPage, r[i]) && IsActive(currentPage, r[j])
    ensures i == j
  {
    MenuIdsUnique(role, unreadMessages, notifications);
  }

  /** `DashboardLayout`'s props and state. */
  class DashboardLayout {
    const userRole: Role
    const unreadMessages: int
    const notifications: int
    var collapsed: bool
    var mobileMenuOpen: bool

    constructor (userRole: Role, unreadMessages: int, notifications: int)
      ensures this.userRole == userRole && this.unreadMessages == unreadMessages && this.notifications == notifications
      ensures !collapsed && !mobileMenuOpen
    {
      this.userRole := userRole;
      this.unreadMessages := unreadMessages;
      this.notifications := notifications;
      collapsed := false;
      mobileMenuOpen := false;
    }

    /** The layout with every optional prop left at its default. */
    constructor WithDefaults()
      ensures userRole == Trainer && unreadMessages == 3 && notifications == 5
      ensures !collapsed && !mobileMenuOpen
    {
      userRole := Trainer;
      unreadMessages := 3;
      notifications := 5;
      collapsed := false;
      mobileMenuOpen := false;
    }

    /** The menu as the component builds it, one `push` at a time. */
    method BuildMenu() returns (items: seq<MenuItem>)
      ensures items == MenuItems(userRole, unreadMessages, notifications)
    {
      items := BaseItems(unreadMessages);
      if userRole == Gym || userRole == Medspa {
        items := items + [MenuItem("staff", "Staff", None)];
        items := items + [MenuItem("organization", "Organization", None)];
      }
      items := items + [MenuItem("settings", "Settings", None)];
      items := items + [MenuItem("notifications", "Notifications", Some(notifications))];
    }

    function Menu(): seq<MenuItem>
    {
      MenuItems(userRole, unreadMessages, notifications)
    }

    /** The collapse button. */
    method ToggleCollapsed()
      modifies this`collapsed
      ensures collapsed == !old(collapsed)
    {
      collapsed := !collapsed;
    }

    /** The mobile header's menu button. */
    method ToggleMobileMenu()
      modifies this`mobileMenuOpen
      ensures mobileMenuOpen == !old(mobileMenuOpen)
    {
      mobileMenuOpen := !mobileMenuOpen;
    }

    /** A click on the dimmed overlay. */
    method CloseOverlay()
      modifies this`mobileMenuOpen
      ensures !mobileMenuOpen
    {
      mobileMenuOpen := false;
    }

    /** A click on entry `i`: returns the id handed to `onNavigate` and closes
        the mobile menu; `collapsed` is untouched. */
    method ClickItem(i: int) returns (navigateTo: string)
      requires 0 <= i < |Menu()|
      modifies this`mobileMenuOpen
      ensures navigateTo == Menu()[i].id
      ensures !mobileMenuOpen
    {
      var items := BuildMenu();
      navigateTo := items[i].id;
      mobileMenuOpen := false;
    }
  }
}
