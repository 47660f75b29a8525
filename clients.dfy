/**
  The clients page: a fixed list of clients, a search box and two select
  filters that derive the visible list, and a selected client for the detail
  pane.
 */
module Clients {
  import opened Wrappers
  import opened Lists
  import opened Text

  /** One client record (display-only fields kept as strings). */
  datatype Client = Client(
    id: int,
    name: string,
    goal: string,
    adherence: nat,
    lastCheckIn: string,
    lastMeal: string,
    lastWorkout: string,
    status: string,
    plan: string)

  /** `mockClients`. */
  function MockClients(): seq<Client>
  {
    [ Client(1, "Sarah Johnson", "Weight Loss", 85, "2 hours ago", "Lunch - Grilled Chicken Salad", "Upper Body Strength", "active", "Premium Plan"),
      Client(2, "Mike Chen", "Muscle Gain", 92, "5 hours ago", "Post-Workout Shake", "Leg Day", "active", "Standard Plan"),
      Client(3, "Emily Rodriguez", "General Fitness", 78, "1 day ago", "Dinner - Salmon & Vegetables", "Cardio Session", "active", "Premium Plan"),
      Client(4, "David Kim", "Weight Loss", 45, "5 days ago", "Breakfast - Oatmeal", "Morning Walk", "inactive", "Basic Plan") ]
  }

  /** The search text and the two select values. */
  datatype ClientFilters = ClientFilters(query: string, goal: string, status: string)

  const NoFilters := ClientFilters("", "all", "all")

  predicate ClientVisible(f: ClientFilters, c: Client)
  {
    MatchesSearch(c.name, f.query) && MatchesChoice(f.goal, c.goal) && MatchesChoice(f.status, c.status)
  }

  function ClientMatcher(f: ClientFilters): Client -> bool
  {
    c => ClientVisible(f, c)
  }

  /** `filteredClients`: an order-preserving sub-list of `clients` holding
      exactly the clients whose lower-cased name contains the lower-cased
      query and whose goal and status pass their filters. */
  function FilteredClients(f: ClientFilters, clients: seq<Client>): (r: seq<Client>)
    ensures Subsequence(r, clients)
    ensures forall c :: c in r <==>
      && c in clients
      && Includes(LowerCase(c.name), LowerCase(f.query))
      && (f.goal == "all" || c.goal == f.goal)
      && (f.status == "all" || c.status == f.status)
  {
    Filter(ClientMatcher(f), clients)
  }

  /** With an empty search and both filters on "all", every client is shown. */
  lemma NoFiltersShowsAll(clients: seq<Client>)
    ensures FilteredClients(NoFilters, clients) == clients
  {
    forall c ensures ClientMatcher(NoFilters)(c) {
      EmptyQueryMatchesAll(c.name);
    }
    FilterKeepsAll(ClientMatcher(NoFilters), clients);
  }

  /** All four clients are listed initially. */
  lemma InitialListShowsFour()
    ensures |FilteredClients(NoFilters, MockClients())| == 4
  {
    NoFiltersShowsAll(MockClients());
  }

  /** Goal "Weight Loss" with status "active" leaves only Sarah Johnson (id 1). */
  lemma WeightLossActive()
    ensures var r := FilteredClients(ClientFilters("", "Weight Loss", "active"), MockClients());
      |r| == 1 && r[0].id == 1 && r[0].name == "Sarah Johnson"
  {
    var f := ClientFilters("", "Weight Loss", "active");
    var cs := MockClients();
    var p := ClientMatcher(f);
    EmptyQueryMatchesAll(cs[0].name);
    assert p(cs[0]) && !p(cs[1]) && !p(cs[2]) && !p(cs[3]);
    assert cs[1..][1..][1..][1..] == [];
  }

  /** The card of `c` is highlighted when its id is the selected client's id. */
  predicate Highlighted(selected: Option<Client>, c: Client)
  {
    selected.Some? && selected.value.id == c.id
  }

  /** In a list with unique ids at most one card is highlighted. */
  lemma AtMostOneHighlighted(clients: seq<Client>, selected: Option<Client>, i: int, j: int)
    requires forall a, b :: 0 <= a < b < |clients| ==> clients[a].id != clients[b].id
    requires 0 <= i < |clients| && 0 <= j < |clients|
    requires Highlighted(selected, clients[i]) && Highlighted(selected, clients[j])
    ensures i == j
  {
  }

  /** `ClientsPage`'s state. */
  class ClientsPage {
    var selectedClient: Option<Client>
    var searchQuery: string
    var filterGoal: string
    var filterStatus: string

    constructor ()
      ensures selectedClient == None
      ensures searchQuery == "" && filterGoal == "all" && filterStatus == "all"
    {
      selectedClient := None;
      searchQuery := "";
      filterGoal := "all";
      filterStatus := "all";
    }

    function Filters(): ClientFilters
      reads this
    {
      ClientFilters(searchQuery, filterGoal, filterStatus)
    }

    /** The list column: `filteredClients` for the current state. */
    function Visible(): seq<Client>
      reads this
    {
      FilteredClients(Filters(), MockClients())
    }

    /** The search input's `onChange`: the selection is kept, so a client
        that no longer matches stays in the detail pane. */
    method SetSearchQuery(query: string)
      modifies this`searchQuery
      ensures searchQuery == query
      ensures selectedClient == old(selectedClient)
    {
      searchQuery := query;
    }

    method SetFilterGoal(goal: string)
      modifies this`filterGoal
      ensures filterGoal == goal
      ensures selectedClient == old(selectedClient)
    {
      filterGoal := goal;
    }

    method SetFilterStatus(status: string)
      modifies this`filterStatus
      ensures filterStatus == status
      ensures selectedClient == old(selectedClient)
    {
      filterStatus := status;
    }

    /** A card click: the clicked client replaces the selection. */
    method SelectClient(c: Client)
      modifies this`selectedClient
      ensures selectedClient == Some(c)
      ensures Highlighted(selectedClient, c)
      ensures Filters() == old(Filters())
    {
      selectedClient := Some(c);
    }
  }
}
