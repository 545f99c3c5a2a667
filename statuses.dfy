/**
 * The tracking service's data model and the pure half of the status-list
 * normaliser: the fixed exclusion list, the filter that drops excluded
 * events, and the "most recent first" ordering.
 */
module Statuses {

  /** One status change of a shipment. `dateUpdated` is the already parsed timestamp. */
  datatype Status = Status(
    id: string,
    requestId: string,
    statusDisplay: string,
    statusDescription: string,
    dateUpdated: int)

  datatype Address = Address(city: string, zipCode: string)

  /** The body of a successful tracking lookup. */
  datatype TrackingResult = TrackingResult(
    statuses: seq<Status>,
    consignee: Address,
    shipper: Address)

  /** Internal status labels that are never shown to the user. */
  const Blacklist: seq<string> := ["Approved", "Rider Assign", "For Approval"]

  predicate Excluded(s: Status) {
    s.statusDisplay in Blacklist
  }

  /** No event of `s` carries an excluded label. */
  predicate NoneExcluded(s: seq<Status>) {
    forall i :: 0 <= i < |s| ==> !Excluded(s[i])
  }

  /** Most recent first: every event is at least as recent as each event after it. */
  predicate SortedDesc(s: seq<Status>) {
    forall i, j :: 0 <= i < j < |s| ==> s[i].dateUpdated >= s[j].dateUpdated
  }

  /** The events of `s` whose label is not excluded, in their original order. */
  function Visible(s: seq<Status>): (r: seq<Status>)
    ensures NoneExcluded(r)
    ensures multiset(r) <= multiset(s)
  {
    if s == [] then []
    else
      assert s == [s[0]] + s[1..];
      if Excluded(s[0]) then Visible(s[1..]) else [s[0]] + Visible(s[1..])
  }

  /**
   * `d` is a normal form of the received `statuses`: ordered most recent
   * first, free of excluded labels, and holding each non-excluded event
   * exactly as often as `statuses` does (and no other event).
   */
  ghost predicate NormalFormOf(statuses: seq<Status>, d: seq<Status>) {
    && SortedDesc(d)
    && NoneExcluded(d)
    && forall x :: multiset(d)[x] == if Excluded(x) then 0 else multiset(statuses)[x]
  }

  /** The ordering stated pairwise is the same as the ordering of adjacent events. */
  lemma {:induction false} SortedDescAdjacent(s: seq<Status>)
    ensures SortedDesc(s) <==>
      forall i :: 0 <= i < |s| - 1 ==> s[i].dateUpdated >= s[i + 1].dateUpdated
  {
    if |s| > 1 {
      SortedDescAdjacent(s[1..]);
      if forall i :: 0 <= i < |s| - 1 ==> s[i].dateUpdated >= s[i + 1].dateUpdated {
        assert SortedDesc(s[1..]);
        forall i, j | 0 <= i < j < |s| ensures s[i].dateUpdated >= s[j].dateUpdated {
          if i == 0 && j > 1 {
            assert s[1..][0] == s[1] && s[1..][j - 1] == s[j];
          } else if i > 0 {
            assert s[1..][i - 1] == s[i] && s[1..][j - 1] == s[j];
          }
        }
      }
    }
  }

  /** The filter keeps exactly the non-excluded events, with their multiplicities. */
  lemma {:induction false} VisibleCount(s: seq<Status>, x: Status)
    ensures multiset(Visible(s))[x] == if Excluded(x) then 0 else multiset(s)[x]
  {
    if s != [] {
      VisibleCount(s[1..], x);
      assert s == [s[0]] + s[1..];
    }
  }

  /** The filter keeps the relative order of the events it keeps. */
  lemma {:induction false} VisibleKeepsOrder(s: seq<Status>)
    requires SortedDesc(s)
    ensures SortedDesc(Visible(s))
  {
    if s != [] {
      VisibleKeepsOrder(s[1..]);
      var t := Visible(s[1..]);
      forall y | y in t ensures s[0].dateUpdated >= y.dateUpdated {
        assert y in multiset(t);
        assert y in s[1..];
      }
    }
  }

  /** Ordering and then filtering yields a normal form. */
  lemma SortedVisibleIsNormalForm(sorted: seq<Status>, statuses: seq<Status>)
    requires SortedDesc(sorted)
    requires multiset(sorted) == multiset(statuses)
    ensures NormalFormOf(statuses, Visible(sorted))
  {
    VisibleKeepsOrder(sorted);
    forall x ensures multiset(Visible(sorted))[x] == if Excluded(x) then 0 else multiset(statuses)[x] {
      VisibleCount(sorted, x);
    }
  }

  /** A response made only of excluded events normalises to nothing. */
  lemma {:induction false} AllExcludedVisibleEmpty(s: seq<Status>)
    requires forall i :: 0 <= i < |s| ==> Excluded(s[i])
    ensures Visible(s) == []
  {
    if s != [] {
      AllExcludedVisibleEmpty(s[1..]);
    }
  }

  /** A normal form is empty exactly when every received event is excluded. */
  lemma NormalFormEmpty(statuses: seq<Status>, d: seq<Status>)
    requires NormalFormOf(statuses, d)
    ensures d == [] <==> forall i :: 0 <= i < |statuses| ==> Excluded(statuses[i])
  {
    if d == [] {
      forall i | 0 <= i < |statuses| ensures Excluded(statuses[i]) {
        assert multiset(d)[statuses[i]] == 0;
      }
    } else {
      assert multiset(d)[d[0]] > 0;
      assert !Excluded(d[0]);
      assert d[0] in statuses;
    }
  }

  /** The first event of a non-empty normal form is the latest non-excluded received event. */
  lemma HeadIsLatest(statuses: seq<Status>, d: seq<Status>, s: Status)
    requires NormalFormOf(statuses, d)
    requires s in statuses && !Excluded(s)
    ensures |d| > 0 && d[0].dateUpdated >= s.dateUpdated
  {
    assert multiset(d)[s] > 0;
    assert s in d;
  }

  /** A received event that is strictly newer than another is displayed before it. */
  lemma NewerBeforeOlder(statuses: seq<Status>, d: seq<Status>, s: Status, t: Status)
    requires NormalFormOf(statuses, d)
    requires s in statuses && !Excluded(s)
    requires t in statuses && !Excluded(t)
    requires s.dateUpdated > t.dateUpdated
    ensures s in d && t in d
    ensures forall i, j :: 0 <= i < |d| && 0 <= j < |d| && d[i] == s && d[j] == t ==> i < j
  {
    assert multiset(d)[s] > 0 && multiset(d)[t] > 0;
  }
}
