/**
 * The status-list normaliser of the tracking page: the received events are
 * sorted in place, most recent first, and the excluded labels are then
 * filtered out.
 */
module Normaliser {
  import opened Statuses

  /** Exchanges two events of `a`. */
  method Swap(a: array<Status>, i: nat, j: nat)
    requires i < a.Length && j < a.Length
    modifies a
    ensures a[..] == old(a[..])[i := old(a[j])][j := old(a[i])]
    ensures multiset(a[..]) == old(multiset(a[..]))
  {
    a[i], a[j] := a[j], a[i];
  }

  /**
   * Sorts `a` in place by `dateUpdated`, most recent first (the comparator
   * `b - a` on timestamps). An insertion sort: an event moves left only past
   * strictly older events.
   */
  method SortByDateDesc(a: array<Status>)
    modifies a
    ensures SortedDesc(a[..])
    ensures multiset(a[..]) == old(multiset(a[..]))
  {
    var i := 0;
    while i < a.Length
      invariant 0 <= i <= a.Length
      invariant SortedDesc(a[..i])
      invariant multiset(a[..]) == old(multiset(a[..]))
    {
      var j := i;
      while j > 0 && a[j - 1].dateUpdated < a[j].dateUpdated
        invariant 0 <= j <= i < a.Length
        invariant forall p, q :: 0 <= p < q <= i && p != j && q != j ==> a[p].dateUpdated >= a[q].dateUpdated
        invariant forall q :: j < q <= i ==> a[j].dateUpdated > a[q].dateUpdated
        invariant multiset(a[..]) == old(multiset(a[..]))
      {
        Swap(a, j - 1, j);
        j := j - 1;
      }
      i := i + 1;
    }
  }

  /**
   * The normalised status list for one response: the statuses ordered most
   * recent first, with every event whose label is excluded removed.
   */
  method Normalise(statuses: seq<Status>) returns (d: seq<Status>)
    ensures SortedDesc(d)
    ensures NoneExcluded(d)
    ensures forall x :: multiset(d)[x] == if Excluded(x) then 0 else multiset(statuses)[x]
  {
    var a := new Status[|statuses|](i requires 0 <= i < |statuses| => statuses[i]);
    assert a[..] == statuses;
    SortByDateDesc(a);
    SortedVisibleIsNormalForm(a[..], statuses);
    d := Visible(a[..]);
  }
}
