/**
  The insights page: the weekly summary's active-client share, the trend
  badge of each client snapshot, and the time-range select that nothing reads.
 */
module Insights {
  import opened Wrappers
  import opened Numbers
  import opened Badges

  datatype WeeklySummary = WeeklySummary(
    week: string,
    totalClients: nat,
    activeClients: nat,
    avgAdherence: nat,
    avgProgress: nat,
    newClients: nat,
    completedWorkouts: nat,
    loggedMeals: nat)

  datatype ClientSnapshot = ClientSnapshot(name: string, goal: string, progress: nat, adherence: nat, trend: string)

  /** `weeklySummary`. */
  const Summary := WeeklySummary("Nov 8-14, 2025", 124, 87, 78, 82, 8, 342, 456)

  /** `clientSnapshots` (the free-text notes are left out). */
  function Snapshots(): seq<ClientSnapshot>
  {
    [ ClientSnapshot("Sarah Johnson", "Weight Loss", 85, 92, "up"),
      ClientSnapshot("Mike Chen", "Muscle Gain", 78, 88, "up"),
      ClientSnapshot("Emily Rodriguez", "General Fitness", 72, 75, "stable") ]
  }

  /** The "% of total" figure `Math.round(active / total * 100)`: the
      percentage rounded half up; with no clients there is no finite figure. */
  function ActiveShare(active: nat, total: nat): (r: Option<nat>)
    ensures r.None? <==> total == 0
    ensures r.Some? ==> total * (2 * r.value) <= 200 * active + total < total * (2 * r.value + 2)
  {
    if total == 0 then None else Some(RoundDiv(100 * active, total))
  }

  /** The share is a percentage when the active clients are among the total. */
  lemma ActiveShareAtMost100(active: nat, total: nat)
    requires 0 < total && active <= total
    ensures ActiveShare(active, total).Some?
    ensures ActiveShare(active, total).value <= 100
  {
    RoundDivBetween(100 * active, total, 0, 100);
  }

  /** 87 active of 124 is 70 percent. */
  lemma FixtureShare()
    ensures ActiveShare(Summary.activeClients, Summary.totalClients) == Some(70)
  {
  }

  /** A snapshot's trend badge: the arrow and the badge variant. */
  datatype TrendBadge = TrendBadge(arrow: char, variant: Variant)

  /** "up" is a default badge with an up arrow, "down" a destructive badge
      with a down arrow, and every other trend a secondary badge with a
      right arrow. */
  function TrendBadgeOf(trend: string): (r: TrendBadge)
    ensures r.variant == Default <==> trend == "up"
    ensures r.variant == Destructive <==> trend == "down"
    ensures r.variant == Secondary <==> trend != "up" && trend != "down"
    ensures r.arrow == (match r.variant case Default => '\U{2191}' case Destructive => '\U{2193}' case _ => '\U{2192}')
  {
    if trend == "up" then TrendBadge('\U{2191}', Default)
    else if trend == "down" then TrendBadge('\U{2193}', Destructive)
    else TrendBadge('\U{2192}', Secondary)
  }

  /** The fixture's "stable" snapshot takes the fallback: a right arrow on a
      secondary badge. */
  lemma StableSnapshotBadge()
    ensures Snapshots()[2].trend == "stable"
    ensures TrendBadgeOf(Snapshots()[2].trend) == TrendBadge('\U{2192}', Secondary)
  {
  }

  /** `InsightsPage`'s state: the time range, which no figure reads. */
  class InsightsPage {
    var timeRange: string

    constructor ()
      ensures timeRange == "week"
    {
      timeRange := "week";
    }

    /** The time-range select; the summary and the snapshots are constants,
        so nothing shown changes. */
    method SetTimeRange(range: string)
      modifies this
      ensures timeRange == range
    {
      timeRange := range;
    }
  }
}
