/** Allocation totals and the rounded average allocation, shared by the
    assignment list, the project detail and the engineer dashboard. */
module AllocationMetrics {
  import opened Seqs
  import opened Entities
  import opened Rounding

  /** `reduce((sum, a) => sum + a.allocationPercentage, 0)`: no cap is applied,
      so allocations in 1..100 total between the count and 100 times it. */
  function TotalAllocation(xs: seq<Assignment>): (t: int)
    ensures xs == [] ==> t == 0
    ensures (forall i :: 0 <= i < |xs| ==> 1 <= xs[i].allocationPercentage <= 100) ==> |xs| <= t <= 100 * |xs|
  {
    if forall i :: 0 <= i < |xs| ==> 1 <= xs[i].allocationPercentage <= 100 then
      SumBounds(xs, Allocation, 1, 100);
      Sum(xs, Allocation)
    else
      Sum(xs, Allocation)
  }

  /** `length > 0 ? Math.round(total / length) : 0`: the average allocation
      rounded half up, 0 for an empty list. */
  function AvgAllocation(xs: seq<Assignment>): (r: int)
    ensures xs == [] ==> r == 0
    ensures xs != [] ==> 2 * |xs| * r - |xs| <= 2 * TotalAllocation(xs) < 2 * |xs| * r + |xs|
  {
    Average(TotalAllocation(xs), |xs|)
  }

  /** With every allocation in 1..100 the average lies in 1..100 too. */
  lemma AvgAllocationBounds(xs: seq<Assignment>)
    requires forall i :: 0 <= i < |xs| ==> 1 <= xs[i].allocationPercentage <= 100
    ensures xs == [] ==> AvgAllocation(xs) == 0
    ensures xs != [] ==> 1 <= AvgAllocation(xs) <= 100
  {
    SumBounds(xs, Allocation, 1, 100);
    if xs != [] {
      AverageBounds(TotalAllocation(xs), |xs|, 1, 100);
    }
  }

  /** The total is not capped: n assignments of p% each total n * p, so two
      assignments of 60% already total 120%. */
  lemma {:induction false} TotalOfEqualAllocations(xs: seq<Assignment>, p: int)
    requires forall i :: 0 <= i < |xs| ==> xs[i].allocationPercentage == p
    ensures TotalAllocation(xs) == |xs| * p
  {
    SumBounds(xs, Allocation, p, p);
  }

  /** The total of a concatenation is the sum of the totals. */
  lemma TotalAllocationAppend(xs: seq<Assignment>, ys: seq<Assignment>)
    ensures TotalAllocation(xs + ys) == TotalAllocation(xs) + TotalAllocation(ys)
  {
    SumAppend(xs, ys, Allocation);
  }
}
