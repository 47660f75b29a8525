/**
  The notifications page: a list of notifications held as page state, three
  mutations that replace it (mark one read, mark all read, delete), the unread
  count derived from it and the tab filter over it.
 */
module Notifications {
  import opened Lists

  /** One notification; `kind` is the source's `type` field (`type` is a
      Dafny keyword). Icon and colour are presentation and are left out. */
  datatype Notification = Notification(
    id: int,
    kind: string,
    title: string,
    message: string,
    time: string,
    read: bool)

  predicate IsUnread(n: Notification)
  {
    !n.read
  }

  /** `n` and `m` are the same notification apart from the read flag. */
  predicate SameExceptRead(n: Notification, m: Notification)
  {
    n.(read := false) == m.(read := false)
  }

  /** No two notifications in the list share an id. */
  ghost predicate UniqueIds(ns: seq<Notification>)
  {
    forall i, j :: 0 <= i < j < |ns| ==> ns[i].id != ns[j].id
  }

  /** Some notification in the list has this id. */
  ghost predicate HasId(ns: seq<Notification>, id: int)
  {
    exists i :: 0 <= i < |ns| && ns[i].id == id
  }

  // ---------------------------------------------------------------- derived values

  /** `notifications.filter(n => !n.read).length`: the number of positions
      holding an unread notification. */
  function UnreadCount(ns: seq<Notification>): (r: nat)
    ensures r == |set i | 0 <= i < |ns| && !ns[i].read|
  {
    FilterCountsPositions(IsUnread, ns);
    assert Positions(IsUnread, ns) == set i | 0 <= i < |ns| && !ns[i].read;
    |Filter(IsUnread, ns)|
  }

  /** The tab test: "all" keeps everything, "unread" the unread ones, any
      other key the notifications of that kind. */
  predicate InTab(tab: string, n: Notification)
  {
    if tab == "all" then true
    else if tab == "unread" then !n.read
    else n.kind == tab
  }

  function TabMatcher(tab: string): Notification -> bool
  {
    n => InTab(tab, n)
  }

  /** `filteredNotifications`: an order-preserving sub-list of the current
      list; the whole list for "all", exactly the list the unread count counts
      for "unread", and exactly the notifications of kind `tab` otherwise. */
  function TabView(ns: seq<Notification>, tab: string): (r: seq<Notification>)
    ensures Subsequence(r, ns)
    ensures tab == "all" ==> r == ns
    ensures tab == "unread" ==> r == Filter(IsUnread, ns) && |r| == UnreadCount(ns)
    ensures tab != "all" && tab != "unread" ==> forall n :: n in r <==> n in ns && n.kind == tab
  {
    TabCases(ns, tab);
    Filter(TabMatcher(tab), ns)
  }

  lemma TabCases(ns: seq<Notification>, tab: string)
    ensures tab == "all" ==> Filter(TabMatcher(tab), ns) == ns
    ensures tab == "unread" ==> Filter(TabMatcher(tab), ns) == Filter(IsUnread, ns)
  {
    if tab == "all" {
      FilterKeepsAll(TabMatcher(tab), ns);
    } else if tab == "unread" {
      FilterExtensional(TabMatcher(tab), IsUnread, ns);
    }
  }

  /** What the page header says. */
  datatype Header = UnreadSummary(count: nat) | AllCaughtUp

  /** "You have N unread notifications" while something is unread, otherwise "All caught up!". */
  function HeaderLine(ns: seq<Notification>): (h: Header)
    ensures h == AllCaughtUp <==> UnreadCount(ns) == 0
    ensures h.UnreadSummary? ==> h.count == UnreadCount(ns) > 0
  {
    var n := UnreadCount(ns);
    if n > 0 then UnreadSummary(n) else AllCaughtUp
  }

  /** "Mark All Read" is disabled exactly when the header says "All caught up!". */
  function MarkAllReadDisabled(ns: seq<Notification>): (disabled: bool)
    ensures disabled <==> HeaderLine(ns) == AllCaughtUp
  {
    UnreadCount(ns) == 0
  }

  /** "No notifications in this category" is shown when the current tab's
      view is empty: on "all" only for an empty list, on "unread" exactly when
      nothing is unread, on a type tab exactly when no notification has that type. */
  function ShowsEmptyCategory(ns: seq<Notification>, tab: string): (empty: bool)
    ensures tab == "all" ==> (empty <==> ns == [])
    ensures tab == "unread" ==> (empty <==> UnreadCount(ns) == 0)
    ensures tab != "all" && tab != "unread" ==> (empty <==> forall n :: n in ns ==> n.kind != tab)
  {
    var view := TabView(ns, tab);
    if view == [] then true
    else
      // the first notification in the view witnesses a non-empty category
      assert view[0] in view;
      false
  }

  // ---------------------------------------------------------------- mutations

  /** `markAsRead(id)`: the notifications with that id become read; ids,
      order, length and every other field stay as they were. */
  function MarkRead(ns: seq<Notification>, id: int): (r: seq<Notification>)
    ensures |r| == |ns|
    ensures forall i :: 0 <= i < |ns| ==> SameExceptRead(r[i], ns[i]) && r[i].id == ns[i].id
    ensures forall i :: 0 <= i < |ns| ==> (r[i].read <==> ns[i].read || ns[i].id == id)
  {
    seq(|ns|, i requires 0 <= i < |ns| => if ns[i].id == id then ns[i].(read := true) else ns[i])
  }

  /** `markAllAsRead()`: every notification becomes read; ids, order, length
      and every other field stay as they were, and nothing is left unread. */
  function MarkAllRead(ns: seq<Notification>): (r: seq<Notification>)
    ensures |r| == |ns|
    ensures forall i :: 0 <= i < |ns| ==> SameExceptRead(r[i], ns[i]) && r[i].id == ns[i].id
    ensures forall i :: 0 <= i < |ns| ==> r[i].read
    ensures UnreadCount(r) == 0
  {
    var r := seq(|ns|, i requires 0 <= i < |ns| => ns[i].(read := true));
    assert (set i | 0 <= i < |r| && !r[i].read) == {};
    r
  }

  function OtherThan(id: int): Notification -> bool
  {
    (n: Notification) => n.id != id
  }

  /** `deleteNotification(id)`: the notifications with that id are removed,
      the others kept in their order. */
  function Delete(ns: seq<Notification>, id: int): (r: seq<Notification>)
    ensures Subsequence(r, ns)
    ensures forall n :: n in r <==> n in ns && n.id != id
  {
    Filter(OtherThan(id), ns)
  }

  // ---------------------------------------------------------------- properties of the mutations

  /** Marking the same id twice is the same as marking it once. */
  lemma MarkReadIdempotent(ns: seq<Notification>, id: int)
    ensures MarkRead(MarkRead(ns, id), id) == MarkRead(ns, id)
  {
    var once := MarkRead(ns, id);
    var twice := MarkRead(once, id);
    forall i | 0 <= i < |ns| ensures twice[i] == once[i] {
      assert SameExceptRead(twice[i], once[i]);
    }
  }

  /** Marking an id no notification has changes nothing. */
  lemma MarkReadAbsent(ns: seq<Notification>, id: int)
    requires !HasId(ns, id)
    ensures MarkRead(ns, id) == ns
  {
    var r := MarkRead(ns, id);
    forall i | 0 <= i < |ns| ensures r[i] == ns[i] {
      assert SameExceptRead(r[i], ns[i]);
    }
  }

  /** No mutation turns a read notification unread, so none raises the unread count. */
  lemma MarkReadNeverRaisesUnread(ns: seq<Notification>, id: int)
    ensures UnreadCount(MarkRead(ns, id)) <= UnreadCount(ns)
  {
    FilterCountPointwise(IsUnread, MarkRead(ns, id), ns);
  }

  /** After marking, no notification with that id is unread. */
  lemma MarkReadClearsId(ns: seq<Notification>, id: int)
    ensures forall n :: n in Filter(IsUnread, MarkRead(ns, id)) ==> n.id != id
  {
  }

  lemma DeleteNeverRaisesUnread(ns: seq<Notification>, id: int)
    ensures UnreadCount(Delete(ns, id)) <= UnreadCount(ns)
  {
    FilterOfFilterCount(IsUnread, OtherThan(id), ns);
  }

  /** Deleting an id no notification has changes nothing. */
  lemma DeleteAbsent(ns: seq<Notification>, id: int)
    requires !HasId(ns, id)
    ensures Delete(ns, id) == ns
  {
    forall n | n in ns ensures OtherThan(id)(n) {
      var i :| 0 <= i < |ns| && ns[i] == n;
    }
    FilterKeepsAll(OtherThan(id), ns);
  }

  /** A repeated delete is a no-op. */
  lemma DeleteTwice(ns: seq<Notification>, id: int)
    ensures Delete(Delete(ns, id), id) == Delete(ns, id)
  {
    var once := Delete(ns, id);
    assert forall i :: 0 <= i < |once| ==> once[i] in once;
    DeleteAbsent(once, id);
  }

  /** With unique ids, deleting a present id removes exactly one notification. */
  lemma {:induction false} DeleteRemovesOne(ns: seq<Notification>, id: int)
    requires UniqueIds(ns)
    requires HasId(ns, id)
    ensures |Delete(ns, id)| == |ns| - 1
    decreases |ns|
  {
    var tail := ns[1..];
    assert UniqueIds(tail) by {
      forall i, j | 0 <= i < j < |tail| ensures tail[i].id != tail[j].id {
        assert tail[i] == ns[i + 1] && tail[j] == ns[j + 1];
      }
    }
    if ns[0].id == id {
      assert !HasId(tail, id) by {
        forall i | 0 <= i < |tail| ensures tail[i].id != id {
          assert tail[i] == ns[i + 1];
        }
      }
      DeleteAbsent(tail, id);
    } else {
      var k :| 0 <= k < |ns| && ns[k].id == id;
      assert tail[k - 1] == ns[k];
      DeleteRemovesOne(tail, id);
    }
  }

  /** Mutations keep the ids unique. */
  lemma {:induction false} DeleteKeepsUniqueIds(ns: seq<Notification>, id: int)
    requires UniqueIds(ns)
    ensures UniqueIds(Delete(ns, id))
    decreases |ns|
  {
    if ns != [] {
      var tail := ns[1..];
      UniqueIdsSplit(ns);
      DeleteKeepsUniqueIds(tail, id);
      if ns[0].id != id {
        var r := Delete(tail, id);
        var t := [ns[0]] + r;
        assert Delete(ns, id) == t;
        forall i, j | 0 <= i < j < |t| ensures t[i].id != t[j].id {
          assert t[j] == r[j - 1] && r[j - 1] in r;
          if i > 0 {
            assert t[i] == r[i - 1];
          }
        }
      }
    }
  }

  /** A list with unique ids splits into a head whose id is not in the rest,
      and a rest with unique ids. */
  lemma UniqueIdsSplit(ns: seq<Notification>)
    requires ns != [] && UniqueIds(ns)
    ensures UniqueIds(ns[1..])
    ensures forall n :: n in ns[1..] ==> n.id != ns[0].id
  {
    var tail := ns[1..];
    forall i, j | 0 <= i < j < |tail| ensures tail[i].id != tail[j].id {
      assert tail[i] == ns[i + 1] && tail[j] == ns[j + 1];
    }
    forall n | n in tail ensures n.id != ns[0].id {
      var k :| 0 <= k < |tail| && tail[k] == n;
      assert ns[k + 1] == n;
    }
  }

  // ---------------------------------------------------------------- the initial list

  /** `mockNotifications`. */
  function InitialNotifications(): seq<Notification>
  {
    [ Notification(1, "inactive", "Client Inactive", "Sarah Johnson hasn't logged in for 5 days", "2 hours ago", false),
      Notification(2, "referral", "New Referral", "Mark Williams signed up through your referral link", "3 hours ago", false),
      Notification(3, "plan", "Plan Ending Soon", "3 clients have plans ending this week", "5 hours ago", false),
      Notification(4, "message", "New Message", "Mike Chen: \"Can we adjust my workout schedule?\"", "6 hours ago", true),
      Notification(5, "payout", "Payout Processed", "Your payout of $2,400 has been processed", "1 day ago", true),
      Notification(6, "inactive", "Client Inactive", "David Kim hasn't logged in for 7 days", "1 day ago", true),
      Notification(7, "referral", "New Referral", "Jessica Brown signed up through your referral link", "2 days ago", true),
      Notification(8, "message", "New Message", "Emily Rodriguez: \"Great session today!\"", "2 days ago", true) ]
  }

  /** Eight notifications with ids 1..8, in order. */
  lemma InitialIds()
    ensures |InitialNotifications()| == 8
    ensures forall i :: 0 <= i < 8 ==> InitialNotifications()[i].id == i + 1
    ensures UniqueIds(InitialNotifications())
  {
    InitialIdsInOrder();
    IdsInOrderAreUnique(InitialNotifications());
  }

  lemma InitialIdsInOrder()
    ensures |InitialNotifications()| == 8
    ensures forall i :: 0 <= i < 8 ==> InitialNotifications()[i].id == i + 1
  {
  }

  lemma IdsInOrderAreUnique(ns: seq<Notification>)
    requires forall i :: 0 <= i < |ns| ==> ns[i].id == i + 1
    ensures UniqueIds(ns)
  {
  }

  /** Exactly the first three notifications are unread, so the unread count starts at 3. */
  lemma InitialUnread()
    ensures forall i :: 0 <= i < 8 ==> (!InitialNotifications()[i].read <==> i < 3)
    ensures UnreadCount(InitialNotifications()) == 3
  {
    InitialReadFlags();
    FirstThreeUnread(InitialNotifications());
  }

  lemma InitialReadFlags()
    ensures |InitialNotifications()| == 8
    ensures forall i :: 0 <= i < 8 ==> (!InitialNotifications()[i].read <==> i < 3)
  {
  }

  lemma FirstThreeUnread(ns: seq<Notification>)
    requires |ns| == 8
    requires forall i :: 0 <= i < 8 ==> (!ns[i].read <==> i < 3)
    ensures UnreadCount(ns) == 3
  {
    assert (set i | 0 <= i < |ns| && !ns[i].read) == {0, 1, 2};
  }

  // ---------------------------------------------------------------- the page state

  /** `NotificationsPage`'s state: the current list and the active tab. */
  class NotificationsPage {
    var notifications: seq<Notification>
    var activeTab: string

    ghost predicate Valid()
      reads this
    {
      UniqueIds(notifications)
    }

    constructor ()
      ensures Valid()
      ensures notifications == InitialNotifications() && activeTab == "all"
    {
      InitialIds();
      notifications := InitialNotifications();
      activeTab := "all";
    }

    /** `filteredNotifications` for the current state. */
    function Visible(): seq<Notification>
      reads this
    {
      TabView(notifications, activeTab)
    }

    /** The tabs' `onValueChange`: only the tab changes. */
    method SetActiveTab(tab: string)
      modifies this`activeTab
      ensures activeTab == tab
    {
      activeTab := tab;
    }

    method MarkAsRead(id: int)
      requires Valid()
      modifies this`notifications
      ensures Valid()
      ensures notifications == MarkRead(old(notifications), id)
      ensures UnreadCount(notifications) <= old(UnreadCount(notifications))
    {
      MarkReadNeverRaisesUnread(notifications, id);
      notifications := MarkRead(notifications, id);
    }

    method MarkAllAsRead()
      requires Valid()
      modifies this`notifications
      ensures Valid()
      ensures notifications == MarkAllRead(old(notifications))
      ensures UnreadCount(notifications) == 0 && HeaderLine(notifications) == AllCaughtUp
    {
      notifications := MarkAllRead(notifications);
    }

    method DeleteNotification(id: int)
      requires Valid()
      modifies this`notifications
      ensures Valid()
      ensures notifications == Delete(old(notifications), id)
      ensures HasId(old(notifications), id) ==> |notifications| == |old(notifications)| - 1
      ensures !HasId(old(notifications), id) ==> notifications == old(notifications)
      ensures UnreadCount(notifications) <= old(UnreadCount(notifications))
    {
      DeleteNeverRaisesUnread(notifications, id);
      DeleteKeepsUniqueIds(notifications, id);
      if HasId(notifications, id) {
        DeleteRemovesOne(notifications, id);
      } else {
        DeleteAbsent(notifications, id);
      }
      notifications := Delete(notifications, id);
    }
  }
}
