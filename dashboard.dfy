/**
 * The figures of components/Dashboard.tsx: the progress and target
 * percentages (`Math.round` of a ratio times 100) and the resident /
 * off-site split of the ownership chart.
 *
 * `Math.round(v)` is the integer nearest to `v`, halves going up, that is
 * `floor(v + 1/2)`. For `v = 100 * x / t` with `t > 0` this is the integer
 * quotient `(200 * x + t) / (2 * t)`, computed here without floating point.
 */
module Dashboard {
  import opened Types
  import opened Arrays
  import App

  /** `Math.round(part / total * 100)` over exact rationals. */
  function RoundPercent(part: int, total: int): (r: int)
    requires total > 0
    ensures 2 * total * r <= 200 * part + total < 2 * total * (r + 1)
  {
    var q := (200 * part + total) / (2 * total);
    assert 200 * part + total == 2 * total * q + (200 * part + total) % (2 * total);
    q
  }

  /** Multiplying by a positive factor keeps the order. */
  lemma {:induction false} MulMonotone(c: int, a: int, b: int)
    requires c > 0 && a <= b
    ensures c * a <= c * b
    decreases b - a
  {
    if a < b {
      MulMonotone(c, a, b - 1);
      assert c * b == c * (b - 1) + c;
    }
  }

  /** A strict order between two multiples of a positive factor is the order of the multiplicands. */
  lemma MulCancelLess(c: int, a: int, b: int)
    requires c > 0 && c * a < c * b
    ensures a < b
  {
    if b <= a {
      MulMonotone(c, b, a);
    }
  }

  /** The result is the only integer within half a unit of `100 * part / total`, halves rounded up. */
  lemma RoundPercentNearest(part: int, total: int, k: int)
    requires total > 0
    requires 2 * total * k <= 200 * part + total < 2 * total * (k + 1)
    ensures k == RoundPercent(part, total)
  {
    var r := RoundPercent(part, total);
    MulCancelLess(2 * total, k, r + 1);
    MulCancelLess(2 * total, r, k + 1);
  }

  /** With a part between none and all, the percentage is between 0 and 100. */
  lemma RoundPercentBounds(part: int, total: int)
    requires total > 0
    ensures 0 <= part <= total ==> 0 <= RoundPercent(part, total) <= 100
  {
    if 0 <= part <= total {
      var r := RoundPercent(part, total);
      MulCancelLess(2 * total, 0, r + 1);
      MulCancelLess(2 * total, r, 101);
    }
  }

  /** More signed units never show a smaller percentage. */
  lemma RoundPercentMonotone(a: int, b: int, total: int)
    requires total > 0 && a <= b
    ensures RoundPercent(a, total) <= RoundPercent(b, total)
  {
    var ra, rb := RoundPercent(a, total), RoundPercent(b, total);
    MulCancelLess(2 * total, ra, rb + 1);
  }

  /** `percentage`: the share of signed units. */
  function Percentage(stats: BuildingStats): (p: int)
    requires stats.totalUnits > 0
    ensures 2 * stats.totalUnits * p <= 200 * stats.signedUnits + stats.totalUnits < 2 * stats.totalUnits * (p + 1)
    ensures 0 <= stats.signedUnits <= stats.totalUnits ==> 0 <= p <= 100
  {
    RoundPercentBounds(stats.signedUnits, stats.totalUnits);
    RoundPercent(stats.signedUnits, stats.totalUnits)
  }

  /** `targetPercentage`: the share the target represents. */
  function TargetPercentage(stats: BuildingStats): (p: int)
    requires stats.totalUnits > 0
    ensures 2 * stats.totalUnits * p <= 200 * stats.targetUnits + stats.totalUnits < 2 * stats.totalUnits * (p + 1)
    ensures 0 <= stats.targetUnits <= stats.totalUnits ==> 0 <= p <= 100
  {
    RoundPercentBounds(stats.targetUnits, stats.totalUnits);
    RoundPercent(stats.targetUnits, stats.totalUnits)
  }

  /** Two of twelve shows 17%, and the target of six shows 50%, as does none signed at 0%. */
  lemma SeedPercentages()
    ensures Percentage(App.ComputeStats(App.MockNeighbors)) == 17
    ensures TargetPercentage(App.ComputeStats(App.MockNeighbors)) == 50
    ensures Percentage(BuildingStats(12, 0, 6)) == 0
  {
    App.SeedStats();
    RoundPercentNearest(2, 12, 17);
    RoundPercentNearest(6, 12, 50);
    RoundPercentNearest(0, 12, 0);
  }

  /** The target percentage of the shell's statistics is 50 whatever the neighbour list. */
  lemma TargetPercentageIsHalf(ns: seq<Neighbor>)
    ensures TargetPercentage(App.ComputeStats(ns)) == 50
  {
    RoundPercentNearest(6, 12, 50);
  }

  predicate IsResident(n: Neighbor) {
    n.isResident
  }

  /** The "Residents" slice: `neighbors.filter(n => n.isResident).length`. */
  function ResidentCount(ns: seq<Neighbor>): (c: nat)
    ensures c <= |ns|
    ensures c == |MatchingPositions(ns, IsResident)|
  {
    FilterCounts(ns, IsResident);
    |Filter(ns, IsResident)|
  }

  /** The "Off-site" slice: `neighbors.filter(n => !n.isResident).length`. */
  function OffSiteCount(ns: seq<Neighbor>): (c: nat)
    ensures c <= |ns|
    ensures c == |MatchingPositions(ns, Not(IsResident))|
  {
    FilterCounts(ns, Not(IsResident));
    |Filter(ns, Not(IsResident))|
  }

  /** The two slices partition the list: each neighbour is in exactly one, and together they count it all. */
  lemma OwnershipSplit(ns: seq<Neighbor>)
    ensures ResidentCount(ns) + OffSiteCount(ns) == |ns|
    ensures multiset(Filter(ns, IsResident)) + multiset(Filter(ns, Not(IsResident))) == multiset(ns)
    ensures forall n :: n in Filter(ns, IsResident) <==> n in ns && n.isResident
    ensures forall n :: n in Filter(ns, Not(IsResident)) <==> n in ns && !n.isResident
  {
    FilterPartition(ns, IsResident);
    FilterMembership(ns, IsResident);
    FilterMembership(ns, Not(IsResident));
  }

  /** On the seed list four owners live on site and two do not. */
  lemma SeedOwnershipSplit()
    ensures ResidentCount(App.MockNeighbors) == 4 && OffSiteCount(App.MockNeighbors) == 2
  {
    FilterIsFilterFrontFirst(App.MockNeighbors, IsResident);
    FilterIsFilterFrontFirst(App.MockNeighbors, Not(IsResident));
  }
}
