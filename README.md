# Fitxess Partner Dashboard — a verified model of its page logic

The Fitxess Partner Dashboard is a React front end for fitness partners.
Partners can be trainers, gyms or medspas. All of its data is fixture data
declared inside the page components. What it computes from that data is
modelled here and proved:

- **Notifications** (`notifications.dfy`). The list of notifications, the
  unread count, the tab views, and the three mutations: mark one read, mark
  all read, delete. The page state is a class whose `seq` field the mutating
  methods reassign.
- **Filterable list views**. These cover the clients page (`clients.dfy`),
  the plans library (`plans.dfy`) and the messaging page (`messaging.dfy`).
  A case-insensitive substring search is combined with select filters in
  which `"all"` means "no constraint". Each page also has its single
  selection, and messaging has the draft-send guard and the Enter-key rule.
- **Shared text logic** (`text.dfy`). This holds ASCII lower-casing, the
  substring test, the name-to-initials function used by three pages, and
  JavaScript's `trim`.
- **Shared list logic** (`lists.dfy`). `Array.prototype.filter` is modelled
  as `Filter`, with the order-preserving subsequence relation it satisfies,
  and `reduce` with `+` as `Sum`.
- **Navigation shell**. `layout.dfy` holds the sidebar menu built from the
  role (imperatively, by pushes), the badge and active-item rules, and the
  collapsed and mobile-menu flags. `app.dfy` holds the current page and the
  page dispatch with its fallback to the overview.
- **Aggregates**. Summary figures of the staff page (`staff.dfy`), the
  organization page (`organization.dfy`) and the insights page
  (`insights.dfy`). These are sums and `Math.round` of integer ratios
  (`numbers.dfy`), plus the trend badge.
- **Settings** (`settings.dfy`). The seven-switch notification-preference
  record and its single-field updates.

Integers are unbounded. The fixture magnitudes are far below JavaScript's
safe-integer range, so no wrap-around needs modelling. `Math.round(p / q)`
for `p >= 0`, `q > 0` is `RoundDiv(p, q)`, the integer nearest to `p / q`
with ties going up. Its contract states this without division. Where the
source divides by a length or a count that could be zero, the model either
requires it to be non-zero or returns `None`:

- The staff averages divide by the list length, which the page can never
  make zero, so they require a non-empty list.
- The per-location average and the active share would show a non-finite
  number for a zero divisor, so they return `None` in that case.

## Model

| member | source | states |
|---|---|---|
| Lists.Filter | src/components/NotificationsPage.tsx:100-104 | `filter` keeps exactly the elements satisfying the predicate, in their original order (an order-preserving subsequence, never longer) |
| Lists.FilterMonotone | src/components/PlansLibraryPage.tsx:95-100 | a weaker predicate keeps a superset of the elements, as a subsequence |
| Lists.FilterCountsPositions | src/components/NotificationsPage.tsx:98 | the length of a filter is the number of positions whose element passes |
| Lists.SumAppend | src/components/StaffPage.tsx:144 | the `reduce` sum of a concatenation is the sum of the two sums |
| Lists.Sum | src/components/StaffPage.tsx:144 | `reduce((sum, x) => sum + x, 0)` of non-negative values is non-negative; its behaviour over concatenation is SumAppend |
| Text.LowerCase | src/components/ClientsPage.tsx:75 | `toLowerCase` keeps the length, turns each upper-case ASCII letter into the lower-case letter 32 code points above it, leaves every other character alone, and leaves no upper-case letter |
| Text.LowerCaseIdempotent | src/components/ClientsPage.tsx:75 | lower-casing twice is lower-casing once |
| Text.EmptyQueryMatchesAll | src/components/ClientsPage.tsx:75 | an empty search string is contained in every name |
| Text.SearchIgnoresQueryCase | src/components/ClientsPage.tsx:75 | the search gives the same answer for a query and its lower-cased form |
| Text.Split | src/components/ClientsPage.tsx:153 | `split(' ')` yields at least one part and no part contains a space |
| Text.JoinSplit | src/components/ClientsPage.tsx:153 | joining the parts of `split(' ')` with spaces gives back the original string |
| Text.Initials | src/components/ClientsPage.tsx:153 | the avatar initials `name.split(' ').map(n => n[0]).join('')` are exactly the word starts: every non-space character at the beginning or after a space, in order; never longer than the name |
| Text.InitialsAreWordStarts | src/components/ClientsPage.tsx:153 | the initials are exactly the characters that start a word, that is, that follow the beginning or a space; empty parts contribute nothing |
| Text.InitialsOfTwoWords | src/components/ClientsPage.tsx:153 | a first and last name without spaces give their two first letters |
| Text.InitialsExample | src/components/ClientsPage.tsx:153 | "Sarah Johnson" gives "SJ" |
| Text.TrimStart | src/components/MessagingPage.tsx:108 | the result is a suffix whose dropped prefix is all white space and which does not start with white space |
| Text.TrimEnd | src/components/MessagingPage.tsx:108 | the result is a prefix whose dropped suffix is all white space and which does not end with white space |
| Text.Trim | src/components/MessagingPage.tsx:108 | `trim()` drops white space, and only white space, at both ends: the result sits in the draft with white space before and after it, has no white space at either end, and is empty iff the draft is all white space |
| Numbers.RoundDiv | src/components/StaffPage.tsx:155 | `Math.round(p / q)` is the integer r with r - 1/2 <= p/q < r + 1/2 |
| Numbers.RoundDivBetween | src/components/StaffPage.tsx:155 | rounding a ratio that lies between two integers stays between them |
| Numbers.SumBetween | src/components/StaffPage.tsx:155 | a sum of n values in [lo, hi] lies in [n*lo, n*hi] |
| Numbers.AverageBetween | src/components/StaffPage.tsx:155 | the rounded mean of a non-empty list lies between any lower and upper bound of its values |
| Numbers.Average | src/components/StaffPage.tsx:155-166 | `Math.round(sum / length)`: the result is within half of the mean, a tie going up |
| Numbers.RoundDivExact | src/components/OrganizationPage.tsx:185 | an exact multiple rounds to its quotient |
| Notifications.UnreadCount | src/components/NotificationsPage.tsx:98 | the unread count is the number of positions holding a notification whose `read` is false |
| Notifications.TabView | src/components/NotificationsPage.tsx:100-104 | each tab view is an order-preserving subsequence of the list: "all" is the whole list, "unread" exactly the unread items (as many as the unread count), any other key exactly the items of that type |
| Notifications.HeaderLine | src/components/NotificationsPage.tsx:127 | the header says "All caught up!" iff the unread count is 0, and otherwise shows the positive count |
| Notifications.MarkAllReadDisabled | src/components/NotificationsPage.tsx:131 | "Mark All Read" is disabled iff the header says "All caught up!" |
| Notifications.ShowsEmptyCategory | src/components/NotificationsPage.tsx:167 | the empty-category message shows on "all" iff the list is empty, on "unread" iff nothing is unread, and on a type tab iff no notification has that type |
| Notifications.MarkRead | src/components/NotificationsPage.tsx:106-110 | `markAsRead` keeps length, order, ids and every other field; an item is read afterwards iff it was read before or has the id |
| Notifications.MarkReadIdempotent | src/components/NotificationsPage.tsx:106-110 | marking the same id read twice equals marking it once |
| Notifications.MarkReadAbsent | src/components/NotificationsPage.tsx:106-110 | marking an absent id read changes nothing |
| Notifications.MarkReadNeverRaisesUnread | src/components/NotificationsPage.tsx:106-110 | marking read never increases the unread count |
| Notifications.MarkReadClearsId | src/components/NotificationsPage.tsx:106-110 | afterwards no unread item has the id |
| Notifications.MarkAllRead | src/components/NotificationsPage.tsx:112-114 | `markAllAsRead` keeps length, order, ids and every other field, every item is read and the unread count is 0 |
| Notifications.Delete | src/components/NotificationsPage.tsx:116-118 | `deleteNotification` keeps, in order, exactly the items whose id differs |
| Notifications.DeleteAbsent | src/components/NotificationsPage.tsx:116-118 | deleting an absent id changes nothing |
| Notifications.DeleteTwice | src/components/NotificationsPage.tsx:116-118 | a repeated delete is a no-op |
| Notifications.DeleteRemovesOne | src/components/NotificationsPage.tsx:116-118 | with unique ids, deleting a present id shortens the list by exactly one |
| Notifications.DeleteKeepsUniqueIds | src/components/NotificationsPage.tsx:116-118 | deleting keeps ids unique |
| Notifications.DeleteNeverRaisesUnread | src/components/NotificationsPage.tsx:116-118 | deleting never increases the unread count |
| Notifications.InitialIds | src/components/NotificationsPage.tsx:11-92 | the initial list has 8 items with ids 1..8 in order, all distinct |
| Notifications.InitialUnread | src/components/NotificationsPage.tsx:11-92 | exactly the first three initial items (ids 1-3) are unread, so the unread count starts at 3 |
| Notifications.NotificationsPage.constructor | src/components/NotificationsPage.tsx:95-96 | the page starts with the fixture list, unique ids and the "all" tab |
| Notifications.NotificationsPage.SetActiveTab | src/components/NotificationsPage.tsx:141 | a tab change sets only the active tab |
| Notifications.NotificationsPage.MarkAsRead | src/components/NotificationsPage.tsx:106-110 | the list becomes `MarkRead` of the old list, ids stay unique and the unread count does not grow |
| Notifications.NotificationsPage.MarkAllAsRead | src/components/NotificationsPage.tsx:112-114 | the list becomes `MarkAllRead` of the old list, and the header then says "All caught up!" |
| Notifications.NotificationsPage.DeleteNotification | src/components/NotificationsPage.tsx:116-118 | the list becomes `Delete` of the old list: one shorter when the id was present, unchanged when it was absent, ids still unique, unread count not grown |
| Clients.FilteredClients | src/components/ClientsPage.tsx:74-79 | a client is shown iff its lower-cased name contains the lower-cased query, the goal filter is "all" or equals its goal, and the status filter is "all" or equals its status; the result is an order-preserving subsequence of the fixture |
| Clients.NoFiltersShowsAll | src/components/ClientsPage.tsx:70-75 | an empty query with both filters on "all" shows every client, in order |
| Clients.InitialListShowsFour | src/components/ClientsPage.tsx:21-75 | initially all four clients are listed |
| Clients.WeightLossActive | src/components/ClientsPage.tsx:21-79 | goal "Weight Loss" with status "active" leaves exactly Sarah Johnson (id 1) |
| Clients.AtMostOneHighlighted | src/components/ClientsPage.tsx:145 | with unique ids, at most one card is highlighted |
| Clients.ClientsPage.constructor | src/components/ClientsPage.tsx:69-72 | the selection starts empty, the search empty and both filters on "all" |
| Clients.ClientsPage.SetSearchQuery | src/components/ClientsPage.tsx:104 | typing a search never changes the selection |
| Clients.ClientsPage.SetFilterGoal | src/components/ClientsPage.tsx:108 | changing the goal filter never changes the selection |
| Clients.ClientsPage.SetFilterStatus | src/components/ClientsPage.tsx:119 | changing the status filter never changes the selection |
| Clients.ClientsPage.SelectClient | src/components/ClientsPage.tsx:147 | a card click replaces the selection, highlights the card, and leaves search and filters alone |
| Plans.FilteredPlans | src/components/PlansLibraryPage.tsx:95-100 | a plan is shown iff its lower-cased name contains the lower-cased query and both the type and popularity filters are "all" or equal its field; the result is an order-preserving subsequence |
| Plans.NarrowingNeverAdds | src/components/PlansLibraryPage.tsx:95-100 | moving filters from "all" to specific values yields a subsequence of the wider result, never a longer one |
| Plans.NoFiltersShowsAll | src/components/PlansLibraryPage.tsx:91-100 | with no search and both filters on "all", every plan is shown |
| Plans.EmptyQueryOnlyCategories | src/components/PlansLibraryPage.tsx:95-100 | with an empty search only the two select filters decide |
| Plans.MealPlans | src/components/PlansLibraryPage.tsx:15-100 | type "meal" yields plans 1, 4 and 7 in that order |
| Plans.LowPopularityPlans | src/components/PlansLibraryPage.tsx:15-100 | popularity "low" yields plan 6 alone |
| Plans.TypeColor | src/components/PlansLibraryPage.tsx:102-113 | meal, workout and habit map to the green, purple and blue classes, and exactly the other strings map to gray |
| Plans.TypeColorsDistinct | src/components/PlansLibraryPage.tsx:102-113 | two different plan types never share a colour |
| Plans.PopularityBadge | src/components/PlansLibraryPage.tsx:115-122 | default iff "high", outline iff "low", secondary for "medium" and every unknown string, never destructive |
| Plans.EmptyStateMeansNoMatch | src/components/PlansLibraryPage.tsx:228-237 | the empty-state card shows iff no plan passes the filters |
| Plans.InitialGrid | src/components/PlansLibraryPage.tsx:91-100 | initially all eight plans are shown and no empty state |
| Plans.PlansLibraryPage.SetFilterType | src/components/PlansLibraryPage.tsx:157 | choosing a type from "all" can only narrow the grid |
| Plans.PlansLibraryPage.SetSearchQuery | src/components/PlansLibraryPage.tsx:153 | the search input sets the query and nothing else |
| Plans.PlansLibraryPage.SetFilterPopularity | src/components/PlansLibraryPage.tsx:168 | choosing a popularity from "all" can only narrow the grid |
| Messaging.FilteredConversations | src/components/MessagingPage.tsx:103-105 | a conversation is shown iff its lower-cased name contains the lower-cased query, in order |
| Messaging.EmptyQueryKeepsAll | src/components/MessagingPage.tsx:101-105 | an empty search keeps every conversation in order |
| Messaging.InitialListShowsFour | src/components/MessagingPage.tsx:10-105 | initially all four conversations are listed |
| Messaging.UnreadBadge | src/components/MessagingPage.tsx:164-168 | a destructive badge with the count is shown iff the unread count is positive |
| Messaging.FixtureBadges | src/components/MessagingPage.tsx:10-44 | of the fixture conversations only Mike Chen (id 2) has no badge |
| Messaging.HistoryIgnoresSelection | src/components/MessagingPage.tsx:213 | the history shown is the same whichever conversation is selected |
| Messaging.DraftAfterSend | src/components/MessagingPage.tsx:107-112 | sending clears a draft that has a non-white-space character and leaves an all-white-space draft unchanged |
| Messaging.SendIdempotent | src/components/MessagingPage.tsx:107-112 | a second send right after a first changes nothing |
| Messaging.MessagingPage.constructor | src/components/MessagingPage.tsx:99-101 | the first conversation (id 1) starts selected, with empty draft and search |
| Messaging.MessagingPage.SetSearchQuery | src/components/MessagingPage.tsx:101-105 | searching never changes the selection |
| Messaging.MessagingPage.SetMessageText | src/components/MessagingPage.tsx:249 | the draft input sets the draft to the typed text |
| Messaging.MessagingPage.SelectConversation | src/components/MessagingPage.tsx:143-145 | a click replaces the selection and highlights that row |
| Messaging.MessagingPage.IsHighlighted | src/components/MessagingPage.tsx:145-146 | a conversation row is highlighted when its id is the selected conversation's id; SelectConversation makes the chosen row highlighted |
| Messaging.MessagingPage.SendMessage | src/components/MessagingPage.tsx:107-112 | the draft becomes `DraftAfterSend` of the old draft: it is empty afterwards iff it was empty or not all white space |
| Messaging.MessagingPage.KeyPress | src/components/MessagingPage.tsx:250-255 | the default is prevented iff the key is Enter without Shift, and only then is the draft sent; any other key leaves the draft alone |
| Messaging.SendsOnKey | src/components/MessagingPage.tsx:251 | Enter without Shift is the sending key; KeyPress prevents the default and sends exactly then |
| Layout.Ids | src/components/DashboardLayout.tsx:80 | the ids of a menu, position by position |
| Layout.MenuItems | src/components/DashboardLayout.tsx:31-53 | the menu starts with the eight base ids in order; staff then organization follow iff the role is gym or medspa; settings and notifications are the last two; 10 entries for a trainer, 12 otherwise |
| Layout.MenuIdsUnique | src/components/DashboardLayout.tsx:31-53 | no two entries of any role's menu share an id |
| Layout.MenuBadges | src/components/DashboardLayout.tsx:31-53 | exactly messaging and notifications carry a badge, holding the unread-message and notification counts |
| Layout.ShowsBadge | src/components/DashboardLayout.tsx:98-105 | the destructive count badge is drawn only in an expanded sidebar, for an entry whose badge is a positive number |
| Layout.MenuBadgeShown | src/components/DashboardLayout.tsx:98-105 | on any role's menu a badge shows iff the sidebar is expanded and the entry is messaging with unread messages or notifications with a positive count |
| Layout.AtMostOneActive | src/components/DashboardLayout.tsx:82 | at most one entry is active for any current page |
| Layout.IsActive | src/components/DashboardLayout.tsx:82-95 | an entry is highlighted when its id is the current page; AtMostOneActive shows no two entries are |
| Layout.DashboardLayout.constructor | src/components/DashboardLayout.tsx:20-29 | both flags start false |
| Layout.DashboardLayout.WithDefaults | src/components/DashboardLayout.tsx:24-29 | the defaults are role trainer, 3 unread messages and 5 notifications |
| Layout.DashboardLayout.BuildMenu | src/components/DashboardLayout.tsx:31-53 | the pushes build exactly `MenuItems` for the layout's role and counts |
| Layout.DashboardLayout.ToggleCollapsed | src/components/DashboardLayout.tsx:70 | the collapse button negates `collapsed` and nothing else |
| Layout.DashboardLayout.ToggleMobileMenu | src/components/DashboardLayout.tsx:153 | the menu button negates `mobileMenuOpen` and nothing else |
| Layout.DashboardLayout.CloseOverlay | src/components/DashboardLayout.tsx:163 | an overlay click closes the mobile menu |
| Layout.DashboardLayout.ClickItem | src/components/DashboardLayout.tsx:87-90 | a click hands the entry's id to `onNavigate` and closes the mobile menu, leaving `collapsed` alone |
| AppShell.RenderPage | src/App.tsx:21-50 | a key renders the page whose key it is, and any string that is no page's key renders the overview |
| AppShell.RenderPageKey | src/App.tsx:21-50 | each of the twelve page keys renders its own page |
| AppShell.PageKeyInjective | src/App.tsx:21-50 | no two pages share a key |
| AppShell.MenuIdsRoutable | src/App.tsx:21-50 | every id of every role's menu has its own case and never falls through to the default |
| AppShell.App.constructor | src/App.tsx:17-19 | the current page starts as "overview"; the role is gym and the layout gets the constant badge counts 3 and 5 |
| AppShell.App.Navigate | src/App.tsx:56 | navigation sets the current page to the given key unconditionally |
| AppShell.App.ClickMenuItem | src/App.tsx:56 | a sidebar click makes the entry's id the current page, which then renders its own page, and closes the mobile menu |
| AppShell.App.ToggleCollapsed | src/components/DashboardLayout.tsx:70 | collapsing the sidebar leaves the current page alone |
| AppShell.App.ToggleMobileMenu | src/components/DashboardLayout.tsx:153 | opening or closing the mobile menu leaves the current page alone |
| Staff.AssignedClients | src/components/StaffPage.tsx:144 | the assigned-client counts of the members, position by position |
| Staff.TotalClients | src/components/StaffPage.tsx:144 | "Total Clients" sums the members' assigned clients: 0 for no members, one member's count for a single member, and additive over a split (TotalClientsAppend) |
| Staff.TotalStaff | src/components/StaffPage.tsx:134 | "Total Staff" is `mockStaff.length`: the active and the inactive members together |
| Staff.AvgAdherence | src/components/StaffPage.tsx:155 | "Avg. Adherence" is the members' mean adherence rounded half up (within half a point of sum / count) |
| Staff.AvgProgress | src/components/StaffPage.tsx:166 | "Avg. Progress" is the members' mean progress rounded half up (within half a point of sum / count) |
| Staff.TotalClientsAppend | src/components/StaffPage.tsx:144 | the total adds up over a split of the list |
| Staff.AveragesBetween | src/components/StaffPage.tsx:155-166 | each rounded average of a non-empty list lies between any lower and upper bound of its own field, so adherence between the least and greatest adherence and progress between the least and greatest progress |
| Staff.FixtureFigures | src/components/StaffPage.tsx:25-166 | the fixture shows 4 members including the inactive id 4, 129 clients, adherence 323/4 rounded to 81 and progress 313/4 rounded to 78 |
| Staff.StatusBadge | src/components/StaffPage.tsx:191 | the status badge is default iff the status is "active" and secondary otherwise |
| Staff.StaffPage.constructor | src/components/StaffPage.tsx:69 | the add-staff dialog starts closed |
| Staff.StaffPage.SetDialogOpen | src/components/StaffPage.tsx:79 | the dialog's open-change sets the flag |
| Staff.StaffPage.Cancel | src/components/StaffPage.tsx:116 | Cancel closes the dialog |
| Staff.StaffPage.SendInvitation | src/components/StaffPage.tsx:119 | Send Invitation closes the dialog |
| Organization.TotalClients | src/components/OrganizationPage.tsx:30 | `totalClients` sums the locations' clients: 0 for none, one location's count for a single location, and at least each location's count; with TotalsAppend this fixes the sum on every list |
| Organization.TotalRevenue | src/components/OrganizationPage.tsx:31 | `totalRevenue` sums the locations' revenue: 0 for none, one location's revenue for a single location, and at least each location's revenue; with TotalsAppend this fixes the sum on every list |
| Organization.SumBoundsEach | src/components/OrganizationPage.tsx:30-31 | each term of a sum of naturals is at most the sum |
| Organization.TotalsAppend | src/components/OrganizationPage.tsx:30-31 | both totals add up over a split of the locations |
| Organization.AvgPerClient | src/components/OrganizationPage.tsx:185 | Avg/Client is `revenue / clients` rounded half up, and has no finite value for a location without clients |
| Organization.FixtureFigures | src/components/OrganizationPage.tsx:14-31 | the fixture totals 124 clients and 18600 in revenue, and each location earns exactly 150 per client |
| Organization.HardCodedStaffCards | src/components/OrganizationPage.tsx:32-33 | the constants `totalStaff = 4` and `avgProgress = 78` equal the staff page's member count and rounded mean progress |
| Organization.ComputedInfo | src/components/OrganizationPage.tsx:209 | the information line's figures computed from the data: the number of locations, the total clients, and the revenue to the nearest hundred |
| Organization.WrittenRevenueDisagrees | src/components/OrganizationPage.tsx:209 | the hard-coded line agrees on 4 locations and 124 clients but states $18.8K where the data add up to $18.6K |
| Organization.OrganizationPage.constructor | src/components/OrganizationPage.tsx:28 | the selected location starts as "all" |
| Organization.OrganizationPage.SetSelectedLocation | src/components/OrganizationPage.tsx:43 | the select sets only `selectedLocation`, which no figure reads |
| Insights.ActiveShare | src/components/InsightsPage.tsx:133 | the active share is `active / total * 100` rounded half up, with no finite value when the total is 0 |
| Insights.ActiveShareAtMost100 | src/components/InsightsPage.tsx:133 | the share lies in 0..100 when the active clients are among a positive total |
| Insights.FixtureShare | src/components/InsightsPage.tsx:14-133 | 87 active of 124 gives 70 |
| Insights.TrendBadgeOf | src/components/InsightsPage.tsx:179-185 | "up" gives an up arrow on a default badge, "down" a down arrow on a destructive badge, anything else a right arrow on a secondary badge |
| Insights.StableSnapshotBadge | src/components/InsightsPage.tsx:43-185 | the fixture's "stable" snapshot falls to the right arrow on a secondary badge |
| Insights.InsightsPage.constructor | src/components/InsightsPage.tsx:71 | the time range starts as "week" |
| Insights.InsightsPage.SetTimeRange | src/components/InsightsPage.tsx:82 | the select changes only `timeRange`, which no figure reads |
| Settings.SettingsExtensional | src/components/SettingsPage.tsx:20-28 | two records showing the same value on every switch are equal |
| Settings.Update | src/components/SettingsPage.tsx:183-185 | the spread update shows `checked` on its own switch and leaves every other switch as it was |
| Settings.UpdateSameValue | src/components/SettingsPage.tsx:183-263 | setting a switch to its current value leaves the record unchanged |
| Settings.UpdatesCommute | src/components/SettingsPage.tsx:183-263 | updates to two different switches commute |
| Settings.UpdateOverrides | src/components/SettingsPage.tsx:183-263 | a later update of the same switch overrides an earlier one |
| Settings.InitialSwitches | src/components/SettingsPage.tsx:20-28 | every switch starts on except push notifications |
| Settings.SettingsPage.constructor | src/components/SettingsPage.tsx:20-28 | the page starts with the initial record |
| Settings.SettingsPage.SetSwitch | src/components/SettingsPage.tsx:183-263 | a switch's handler replaces the record by `Update` of the old one: its own switch shows `checked`, every other switch is unchanged |

## Left out

- JSX layout, styling, icons and the `./ui/*` primitives are presentational. Only the values they display are modelled: texts, counts, badge variants, colour classes.
- Chart rendering is left out because it belongs to a foreign charting library.
- The referrals, overview, earnings and programs pages are left out. Their behaviour is clipboard I/O, hard-coded figures, or a selection that duplicates the clients page.
- Controls without handlers (Sort, Clear Filters, Save, Export, AI Assist, the create and add dialogs' inputs) are left out because they hold no state to model.
- Unicode case mapping is left out. `Text.LowerCase` lowers ASCII letters only, which covers every fixture name.
- `Text.Trim` follows the white-space set of the ECMAScript standard. Line terminators and the Unicode space separators are listed explicitly rather than taken from a Unicode database.
- `Numbers.RoundDiv` is exact half-up rounding of a rational. It does not model binary floating point. `Insights.ActiveShare` also does not model the intermediate float of `active / total * 100`, which can differ from `100 * active / total` only at exact ties.
- `toLocaleString` currency formatting is left out because it depends on the locale.
- React's rendering of a literal `0` for a zero menu badge is left out. `Layout.ShowsBadge` models only the rule that the badge element appears for a positive number in an expanded sidebar.
- `Plans.PopularityBadge` treats every unknown popularity string as secondary. Strings naming members of `Object.prototype` (such as "toString") would select an inherited member in the source; no fixture value does.
- Staff, clients, plans, conversations and snapshots are fixed fixtures, so nothing adds to or removes from those lists. Only notifications are mutated.
- The free-text notes of the insights page's client snapshots are display text and are left out of `ClientSnapshot`.
- Notification icons and colour classes are presentational and are left out of the `Notification` record. The same holds for the icon components of plans and menu entries.

## Findings

| source | as written | input that shows it | evidently intended | confidence | as-written member | corrected member |
|---|---|---|---|---|---|---|
| src/components/OrganizationPage.tsx:209 | the information line hard-codes "$18.8K monthly revenue" | the page's own `locationData` (6750 + 5700 + 4200 + 1950 = 18600) | the monthly revenue of the same data the Total Revenue card sums, that is $18.6K | medium, not executed | Organization.WrittenRevenueDisagrees | Organization.ComputedInfo |
