/**
  The organization page: per-location client and revenue figures, their
  totals, the rounded revenue per client of each location, and the location
  select that nothing reads.
 */
module Organization {
  import opened Wrappers
  import opened Lists
  import opened Numbers
  import Staff

  datatype Location = Location(name: string, clients: nat, revenue: nat)

  /** `locationData`. */
  function LocationData(): seq<Location>
  {
    [ Location("Downtown", 45, 6750),
      Location("Westside", 38, 5700),
      Location("Eastside", 28, 4200),
      Location("Northside", 13, 1950) ]
  }

  function ClientCounts(locations: seq<Location>): (r: seq<nat>)
    ensures |r| == |locations| && forall i :: 0 <= i < |locations| ==> r[i] == locations[i].clients
  {
    seq(|locations|, i requires 0 <= i < |locations| => locations[i].clients)
  }

  function Revenues(locations: seq<Location>): (r: seq<nat>)
    ensures |r| == |locations| && forall i :: 0 <= i < |locations| ==> r[i] == locations[i].revenue
  {
    seq(|locations|, i requires 0 <= i < |locations| => locations[i].revenue)
  }

  /** `totalClients`: the sum of the locations' client counts. */
  function TotalClients(locations: seq<Location>): (r: nat)
    ensures locations == [] ==> r == 0
    ensures |locations| == 1 ==> r == locations[0].clients
    ensures forall i :: 0 <= i < |locations| ==> locations[i].clients <= r
  {
    var counts := ClientCounts(locations);
    SumBoundsEach(counts);
    if |locations| == 1 then
      SumSingle(counts);
      Sum(counts)
    else Sum(counts)
  }

  /** `totalRevenue`: the sum of the locations' revenue. */
  function TotalRevenue(locations: seq<Location>): (r: nat)
    ensures locations == [] ==> r == 0
    ensures |locations| == 1 ==> r == locations[0].revenue
    ensures forall i :: 0 <= i < |locations| ==> locations[i].revenue <= r
  {
    var revenues := Revenues(locations);
    SumBoundsEach(revenues);
    if |locations| == 1 then
      SumSingle(revenues);
      Sum(revenues)
    else Sum(revenues)
  }

  /** Each term of a sum of naturals is at most the sum. */
  lemma {:induction false} SumBoundsEach(xs: seq<nat>)
    ensures forall i :: 0 <= i < |xs| ==> xs[i] <= Sum(xs)
    decreases |xs|
  {
    if xs != [] {
      SumBoundsEach(xs[1..]);
      assert forall i :: 1 <= i < |xs| ==> xs[i] == xs[1..][i - 1];
    }
  }

  /** Both totals add up over a split of the locations. */
  lemma TotalsAppend(a: seq<Location>, b: seq<Location>)
    ensures TotalClients(a + b) == TotalClients(a) + TotalClients(b)
    ensures TotalRevenue(a + b) == TotalRevenue(a) + TotalRevenue(b)
  {
    assert ClientCounts(a + b) == ClientCounts(a) + ClientCounts(b);
    SumAppend(ClientCounts(a), ClientCounts(b));
    assert Revenues(a + b) == Revenues(a) + Revenues(b);
    SumAppend(Revenues(a), Revenues(b));
  }

  /** The "Avg/Client" figure `Math.round(revenue / clients)`; a location
      without clients has no finite figure. */
  function AvgPerClient(loc: Location): (r: Option<nat>)
    ensures r.None? <==> loc.clients == 0
    ensures r.Some? ==> loc.clients * (2 * r.value) <= 2 * loc.revenue + loc.clients < loc.clients * (2 * r.value + 2)
  {
    if loc.clients == 0 then None else Some(RoundDiv(loc.revenue, loc.clients))
  }

  /** The fixture's totals are 124 clients and 18600 in revenue, and every
      location earns exactly 150 per client. */
  lemma FixtureFigures()
    ensures TotalClients(LocationData()) == 124
    ensures TotalRevenue(LocationData()) == 18600
    ensures forall i :: 0 <= i < 4 ==> AvgPerClient(LocationData()[i]) == Some(150)
  {
    var ls := LocationData();
    assert ClientCounts(ls) == [45, 38, 28, 13];
    SumOfFour(45, 38, 28, 13);
    assert Revenues(ls) == [6750, 5700, 4200, 1950];
    SumOfFour(6750, 5700, 4200, 1950);
    forall i | 0 <= i < 4 ensures AvgPerClient(ls[i]) == Some(150) {
      RoundDivExact(ls[i].revenue, ls[i].clients, 150);
    }
  }

  /** The staff-count and progress cards show constants. */
  const TotalStaff: nat := 4
  const AvgProgress: nat := 78

  /** The two constants are the figures the staff page computes from its own
      list: its member count and its rounded mean progress. */
  lemma HardCodedStaffCards()
    ensures TotalStaff == Staff.TotalStaff(Staff.MockStaff())
    ensures AvgProgress == Staff.AvgProgress(Staff.MockStaff())
  {
    Staff.FixtureCount();
    Staff.FixtureAverages();
  }

  /** The figures of the organization information line: the number of
      locations, the number of clients and the monthly revenue in hundreds
      (shown as thousands with one decimal). */
  datatype InfoFigures = InfoFigures(locations: nat, clients: nat, revenueHundreds: nat)

  /** The information line as the page writes it: "4 locations • 124 active
      clients • $18.8K monthly revenue". */
  const WrittenInfo := InfoFigures(4, 124, 188)

  /** The information line computed from the data, the revenue rounded to
      the nearest hundred. */
  function ComputedInfo(locations: seq<Location>): (r: InfoFigures)
    ensures r.locations == |locations| && r.clients == TotalClients(locations)
    ensures 100 * (2 * r.revenueHundreds) <= 2 * TotalRevenue(locations) + 100 < 100 * (2 * r.revenueHundreds + 2)
  {
    InfoFigures(|locations|, TotalClients(locations), RoundDiv(TotalRevenue(locations), 100))
  }

  /** The written line agrees with the data on locations and clients but
      states 188 hundreds where the locations add up to 186. */
  lemma WrittenRevenueDisagrees()
    ensures WrittenInfo.locations == ComputedInfo(LocationData()).locations
    ensures WrittenInfo.clients == ComputedInfo(LocationData()).clients
    ensures ComputedInfo(LocationData()).revenueHundreds == 186
    ensures WrittenInfo != ComputedInfo(LocationData())
  {
    FixtureFigures();
    RoundDivExact(18600, 100, 186);
  }

  /** `OrganizationPage`'s state: the selected location, which no figure reads. */
  class OrganizationPage {
    var selectedLocation: string

    constructor ()
      ensures selectedLocation == "all"
    {
      selectedLocation := "all";
    }

    /** The location select; the totals and the location list are functions
        of `LocationData()` alone, so they do not change. */
    method SetSelectedLocation(location: string)
      modifies this
      ensures selectedLocation == location
    {
      selectedLocation := location;
    }
  }
}
