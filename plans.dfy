/**
  The plans library: a fixed list of plans filtered by a search box and two
  select filters, the colour class of a plan type and the badge variant of a
  popularity level.
 */
module Plans {
  import opened Lists
  import opened Text
  import opened Badges

  datatype Plan = Plan(id: int, name: string, kind: string, duration: string, popularity: string, assignedTo: nat)

  /** `mockPlans` (the icon component of each entry is left out). */
  function MockPlans(): seq<Plan>
  {
    [ Plan(1, "High Protein Meal Plan", "meal", "4 weeks", "high", 45),
      Plan(2, "Strength Training Program", "workout", "8 weeks", "high", 38),
      Plan(3, "Mindfulness & Meditation", "habit", "30 days", "medium", 22),
      Plan(4, "Keto Meal Plan", "meal", "6 weeks", "high", 31),
      Plan(5, "HIIT Workout Plan", "workout", "4 weeks", "medium", 28),
      Plan(6, "Hydration Tracking", "habit", "21 days", "low", 15),
      Plan(7, "Vegan Meal Plan", "meal", "4 weeks", "medium", 19),
      Plan(8, "Full Body Workout", "workout", "12 weeks", "high", 42) ]
  }

  /** The search text and the type and popularity select values. */
  datatype PlanFilters = PlanFilters(query: string, kind: string, popularity: string)

  const NoFilters := PlanFilters("", "all", "all")

  predicate PlanVisible(f: PlanFilters, p: Plan)
  {
    MatchesSearch(p.name, f.query) && MatchesChoice(f.kind, p.kind) && MatchesChoice(f.popularity, p.popularity)
  }

  function PlanMatcher(f: PlanFilters): Plan -> bool
  {
    p => PlanVisible(f, p)
  }

  /** `filteredPlans`: the plans, in order, whose lower-cased name contains
      the lower-cased query and whose type and popularity pass their filters. */
  function FilteredPlans(f: PlanFilters, plans: seq<Plan>): (r: seq<Plan>)
    ensures Subsequence(r, plans)
    ensures forall p :: p in r <==>
      && p in plans
      && Includes(LowerCase(p.name), LowerCase(f.query))
      && (f.kind == "all" || p.kind == f.kind)
      && (f.popularity == "all" || p.popularity == f.popularity)
  {
    Filter(PlanMatcher(f), plans)
  }

  /** `f` is `g` with possibly some filters moved from "all" to a specific value. */
  predicate Narrows(f: PlanFilters, g: PlanFilters)
  {
    && f.query == g.query
    && (g.kind == "all" || f.kind == g.kind)
    && (g.popularity == "all" || f.popularity == g.popularity)
  }

  /** Moving a filter from "all" to a specific value never adds a plan: the
      narrower result is a subsequence of the wider one. */
  lemma NarrowingNeverAdds(f: PlanFilters, g: PlanFilters, plans: seq<Plan>)
    requires Narrows(f, g)
    ensures Subsequence(FilteredPlans(f, plans), FilteredPlans(g, plans))
    ensures |FilteredPlans(f, plans)| <= |FilteredPlans(g, plans)|
  {
    FilterMonotone(PlanMatcher(f), PlanMatcher(g), plans);
    SubsequenceLength(FilteredPlans(f, plans), FilteredPlans(g, plans));
  }

  lemma NoFiltersShowsAll(plans: seq<Plan>)
    ensures FilteredPlans(NoFilters, plans) == plans
  {
    forall p ensures PlanMatcher(NoFilters)(p) {
      EmptyQueryMatchesAll(p.name);
    }
    FilterKeepsAll(PlanMatcher(NoFilters), plans);
  }

  /** The type and popularity filters alone. */
  function CategoryMatcher(kind: string, popularity: string): Plan -> bool
  {
    (p: Plan) => MatchesChoice(kind, p.kind) && MatchesChoice(popularity, p.popularity)
  }

  /** With an empty search box only the two select filters decide. */
  lemma EmptyQueryOnlyCategories(kind: string, popularity: string, plans: seq<Plan>)
    ensures FilteredPlans(PlanFilters("", kind, popularity), plans) == Filter(CategoryMatcher(kind, popularity), plans)
  {
    var f := PlanFilters("", kind, popularity);
    forall p ensures PlanMatcher(f)(p) == CategoryMatcher(kind, popularity)(p) {
      EmptyQueryMatchesAll(p.name);
    }
    FilterExtensional(PlanMatcher(f), CategoryMatcher(kind, popularity), plans);
  }

  /** The fixture's types and popularity levels, position by position. */
  predicate FixtureShape(ps: seq<Plan>)
  {
    && |ps| == 8
    && (forall i :: 0 <= i < 8 ==> ps[i].id == i + 1)
    && ps[0].kind == "meal" && ps[1].kind == "workout" && ps[2].kind == "habit" && ps[3].kind == "meal"
    && ps[4].kind == "workout" && ps[5].kind == "habit" && ps[6].kind == "meal" && ps[7].kind == "workout"
    && ps[0].popularity == "high" && ps[1].popularity == "high" && ps[2].popularity == "medium"
    && ps[3].popularity == "high" && ps[4].popularity == "medium" && ps[5].popularity == "low"
    && ps[6].popularity == "medium" && ps[7].popularity == "high"
  }

  lemma MockPlansShape()
    ensures FixtureShape(MockPlans())
  {
  }

  /** Type "meal" keeps plans 1, 4 and 7, in that order. */
  lemma MealPlans()
    ensures var r := FilteredPlans(PlanFilters("", "meal", "all"), MockPlans());
      |r| == 3 && r[0].id == 1 && r[1].id == 4 && r[2].id == 7
  {
    MockPlansShape();
    EmptyQueryOnlyCategories("meal", "all", MockPlans());
    MealPlansOf(MockPlans());
  }

  lemma MealPlansOf(ps: seq<Plan>)
    requires FixtureShape(ps)
    ensures var r := Filter(CategoryMatcher("meal", "all"), ps);
      |r| == 3 && r[0].id == 1 && r[1].id == 4 && r[2].id == 7
  {
    var m := CategoryMatcher("meal", "all");
    assert Filter(m, ps[8..]) == [];
    assert Filter(m, ps[7..]) == [];
    assert Filter(m, ps[6..]) == [ps[6]];
    assert Filter(m, ps[5..]) == [ps[6]];
    assert Filter(m, ps[4..]) == [ps[6]];
    assert Filter(m, ps[3..]) == [ps[3], ps[6]];
    assert Filter(m, ps[2..]) == [ps[3], ps[6]];
    assert Filter(m, ps[1..]) == [ps[3], ps[6]];
  }

  /** Popularity "low" keeps plan 6 alone. */
  lemma LowPopularityPlans()
    ensures var r := FilteredPlans(PlanFilters("", "all", "low"), MockPlans());
      |r| == 1 && r[0].id == 6
  {
    MockPlansShape();
    EmptyQueryOnlyCategories("all", "low", MockPlans());
    LowPopularityPlansOf(MockPlans());
  }

  lemma LowPopularityPlansOf(ps: seq<Plan>)
    requires FixtureShape(ps)
    ensures var r := Filter(CategoryMatcher("all", "low"), ps);
      |r| == 1 && r[0].id == 6
  {
    var m := CategoryMatcher("all", "low");
    assert Filter(m, ps[6..]) == [];
    assert Filter(m, ps[5..]) == [ps[5]];
    assert Filter(m, ps[4..]) == [ps[5]];
    assert Filter(m, ps[3..]) == [ps[5]];
    assert Filter(m, ps[2..]) == [ps[5]];
    assert Filter(m, ps[1..]) == [ps[5]];
  }

  /** `getTypeColor`: each known plan type has its own colour classes, and
      every other string falls back to gray. */
  function TypeColor(kind: string): (r: string)
    ensures kind == "meal" ==> r == "bg-green-100 text-green-700"
    ensures kind == "workout" ==> r == "bg-purple-100 text-purple-700"
    ensures kind == "habit" ==> r == "bg-blue-100 text-blue-700"
    ensures r == "bg-gray-100 text-gray-700" <==> kind !in {"meal", "workout", "habit"}
  {
    match kind
    case "meal" => "bg-green-100 text-green-700"
    case "workout" => "bg-purple-100 text-purple-700"
    case "habit" => "bg-blue-100 text-blue-700"
    case _ => "bg-gray-100 text-gray-700"
  }

  /** Two different known types never share a colour. */
  lemma TypeColorsDistinct(a: string, b: string)
    requires a in {"meal", "workout", "habit"} && b in {"meal", "workout", "habit"}
    requires a != b
    ensures TypeColor(a) != TypeColor(b)
  {
    var ta, tb := TypeColor(a), TypeColor(b);
    assert |ta| != |tb|;
  }

  /** `getPopularityBadge`: high is the default variant, low the outline
      variant, and medium or any unknown level the secondary variant. */
  function PopularityBadge(popularity: string): (r: Variant)
    ensures r != Destructive
    ensures r == Default <==> popularity == "high"
    ensures r == Outline <==> popularity == "low"
    ensures r == Secondary <==> popularity != "high" && popularity != "low"
  {
    match popularity
    case "high" => Default
    case "medium" => Secondary
    case "low" => Outline
    case _ => Secondary
  }

  /** The empty-state card is rendered exactly when no plan passes the filters. */
  predicate ShowsEmptyState(f: PlanFilters)
  {
    |FilteredPlans(f, MockPlans())| == 0
  }

  lemma EmptyStateMeansNoMatch(f: PlanFilters)
    ensures ShowsEmptyState(f) <==> forall p :: p in MockPlans() ==> !PlanVisible(f, p)
  {
    var r := FilteredPlans(f, MockPlans());
    if !ShowsEmptyState(f) {
      assert r[0] in r;
    }
  }

  /** Initially the grid holds all eight plans, so no empty state is shown. */
  lemma InitialGrid()
    ensures |FilteredPlans(NoFilters, MockPlans())| == 8
    ensures !ShowsEmptyState(NoFilters)
  {
    NoFiltersShowsAll(MockPlans());
  }

  /** `PlansLibraryPage`'s state: the three filter values. */
  class PlansLibraryPage {
    var searchQuery: string
    var filterType: string
    var filterPopularity: string

    constructor ()
      ensures searchQuery == "" && filterType == "all" && filterPopularity == "all"
    {
      searchQuery := "";
      filterType := "all";
      filterPopularity := "all";
    }

    function Filters(): PlanFilters
      reads this
    {
      PlanFilters(searchQuery, filterType, filterPopularity)
    }

    function Visible(): seq<Plan>
      reads this
    {
      FilteredPlans(Filters(), MockPlans())
    }

    method SetSearchQuery(query: string)
      modifies this`searchQuery
      ensures searchQuery == query
    {
      searchQuery := query;
    }

    /** Choosing a specific type from "all" narrows the grid. */
    method SetFilterType(kind: string)
      modifies this`filterType
      ensures filterType == kind
      ensures old(filterType) == "all" ==> Subsequence(Visible(), old(Visible()))
    {
      ghost var before := Filters();
      filterType := kind;
      if before.kind == "all" {
        NarrowingNeverAdds(Filters(), before, MockPlans());
      }
    }

    method SetFilterPopularity(popularity: string)
      modifies this`filterPopularity
      ensures filterPopularity == popularity
      ensures old(filterPopularity) == "all" ==> Subsequence(Visible(), old(Visible()))
    {
      ghost var before := Filters();
      filterPopularity := popularity;
      if before.popularity == "all" {
        NarrowingNeverAdds(Filters(), before, MockPlans());
      }
    }
  }
}
