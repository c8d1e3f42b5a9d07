/**
 * The application shell of App.tsx: the seed list of owners, the figures
 * derived from it (signed count, ceiling-of-half target), the statistics
 * record handed to the dashboard, and the active-tab selector that decides
 * which view is shown.
 */
module App {
  import opened Wrappers
  import opened Types
  import opened Arrays

  /** The building's fixed number of units. */
  const TotalUnits: int := 12

  /** The seed list the neighbour state starts from. */
  const MockNeighbors: seq<Neighbor> := [
    Neighbor("1", "Flat 1", "Alex Thompson", Signed, true, Some(Admin), Available),
    Neighbor("2", "Flat 2", "Sarah Jenkins", Signed, true, None, Available),
    Neighbor("3", "Flat 3", "Michael Chen", Pending, false, None, Available),
    Neighbor("4", "Flat 4", "Unknown Owner", Pending, true, None, Missing),
    Neighbor("5", "Flat 5", "Alice Wong", Pending, true, None, Available),
    Neighbor("6", "Flat 6", "Bob Smith", Opposed, false, None, Missing)
  ]

  /** The static building facts. */
  const Facts: BuildingFacts :=
    BuildingFacts("Earls Court Freeholds Ltd", "Prestige Property Mgmt", "£42,000")

  predicate IsSigned(n: Neighbor) {
    n.status == Signed
  }

  /** `neighbors.filter(n => n.status === 'signed').length`. */
  function SignedCount(ns: seq<Neighbor>): (c: nat)
    ensures c <= |ns|
    ensures c == |MatchingPositions(ns, IsSigned)|
  {
    FilterCounts(ns, IsSigned);
    |Filter(ns, IsSigned)|
  }

  /** `Math.ceil(totalUnits * 0.5)`: the least integer at least half of `totalUnits`. */
  function TargetCount(totalUnits: int): (t: int)
    ensures totalUnits <= 2 * t <= totalUnits + 1
    ensures forall u :: totalUnits <= 2 * u ==> t <= u
  {
    (totalUnits + 1) / 2
  }

  /** The statistics record passed to the dashboard. */
  function ComputeStats(ns: seq<Neighbor>): (s: BuildingStats)
    ensures s.totalUnits == TotalUnits
    ensures s.signedUnits == |MatchingPositions(ns, IsSigned)| && 0 <= s.signedUnits <= |ns|
    ensures s.totalUnits <= 2 * s.targetUnits <= s.totalUnits + 1
  {
    BuildingStats(TotalUnits, SignedCount(ns), TargetCount(TotalUnits))
  }

  /** The total does not depend on the neighbour list. */
  lemma TotalIndependentOfNeighbors(ns1: seq<Neighbor>, ns2: seq<Neighbor>)
    ensures ComputeStats(ns1).totalUnits == ComputeStats(ns2).totalUnits
    ensures ComputeStats(ns1).targetUnits == ComputeStats(ns2).targetUnits == 6
  {
  }

  /** With no more owners than units, the signed count never exceeds the total. */
  lemma SignedWithinTotal(ns: seq<Neighbor>)
    requires |ns| <= TotalUnits
    ensures 0 <= ComputeStats(ns).signedUnits <= ComputeStats(ns).totalUnits
  {
  }

  /** Ceiling of half on an even and an odd total. */
  lemma TargetExamples()
    ensures TargetCount(12) == 6 && TargetCount(13) == 7
  {
  }

  /** The seed ids are "1" to "6", pairwise distinct. */
  lemma SeedIdsDistinct()
    ensures |MockNeighbors| == 6
    ensures forall i :: 0 <= i < 6 ==> MockNeighbors[i].id == [(('1' as int) + i) as char]
    ensures forall i, j :: 0 <= i < j < |MockNeighbors| ==> MockNeighbors[i].id != MockNeighbors[j].id
  {
  }

  /** On the seed list exactly the owners "1" and "2" have signed. */
  lemma SeedStats()
    ensures Filter(MockNeighbors, IsSigned) == [MockNeighbors[0], MockNeighbors[1]]
    ensures ComputeStats(MockNeighbors) == BuildingStats(12, 2, 6)
  {
    FilterIsFilterFrontFirst(MockNeighbors, IsSigned);
  }

  /** The four views the shell can show. */
  datatype Tab = DashboardTab | RoadmapTab | CommunityTab | AdvisorTab

  /** The shell's state: the active tab and the neighbour list it owns. */
  datatype AppState = AppState(activeTab: Tab, neighbors: seq<Neighbor>)

  /** What the shell renders, with the properties it passes down. */
  datatype Screen =
    | DashboardScreen(stats: BuildingStats, neighbors: seq<Neighbor>, facts: BuildingFacts)
    | RoadmapScreen
    | CommunityScreen(neighbors: seq<Neighbor>)
    | AdvisorScreen

  /** The state on page load. */
  function InitialState(): (s: AppState)
    ensures s.activeTab == DashboardTab && s.neighbors == MockNeighbors
  {
    AppState(DashboardTab, MockNeighbors)
  }

  /** `setActiveTab`, as the navigation buttons call it. */
  function SetActiveTab(s: AppState, t: Tab): (s': AppState)
    ensures s'.activeTab == t
    ensures s'.neighbors == s.neighbors
  {
    s.(activeTab := t)
  }

  /** The view the active tab selects. */
  function Render(s: AppState): (scr: Screen)
    ensures scr.DashboardScreen? <==> s.activeTab == DashboardTab
    ensures scr.RoadmapScreen? <==> s.activeTab == RoadmapTab
    ensures scr.CommunityScreen? <==> s.activeTab == CommunityTab
    ensures scr.AdvisorScreen? <==> s.activeTab == AdvisorTab
  {
    match s.activeTab
    case DashboardTab => DashboardScreen(ComputeStats(s.neighbors), s.neighbors, Facts)
    case RoadmapTab => RoadmapScreen
    case CommunityTab => CommunityScreen(s.neighbors)
    case AdvisorTab => AdvisorScreen
  }

  /** The dashboard receives the statistics of the current list, and the directory the list itself. */
  lemma RenderPassesState(s: AppState)
    ensures Render(s).DashboardScreen? <==> s.activeTab == DashboardTab
    ensures Render(s).DashboardScreen? ==>
      Render(s).stats.signedUnits == |MatchingPositions(s.neighbors, IsSigned)| &&
      Render(s).stats.totalUnits == 12 && Render(s).stats.targetUnits == 6 &&
      Render(s).neighbors == s.neighbors
    ensures Render(s).CommunityScreen? <==> s.activeTab == CommunityTab
    ensures Render(s).CommunityScreen? ==> Render(s).neighbors == s.neighbors
  {
  }

  /** On page load the dashboard shows two signed of twelve, with a target of six. */
  lemma InitialDashboard()
    ensures Render(InitialState()) == DashboardScreen(BuildingStats(12, 2, 6), MockNeighbors, Facts)
  {
    SeedStats();
  }
}
