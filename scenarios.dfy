/**
 * Concrete lookups worked through the model: the display order of a small
 * response, a response with only internal labels, and the error texts of a
 * failure with a server message.
 */
module Scenarios {
  import opened Wrappers
  import opened Statuses
  import opened Search

  const InTransit := Status("1", "R", "In Transit", "", 20240101)
  const Delivered := Status("2", "R", "Delivered", "", 20240103)
  const OutForDelivery := Status("3", "R", "Out for Delivery", "", 20240102)

  /** Events received out of order are displayed most recent first. */
  lemma DisplayOrder(d: seq<Status>)
    requires NormalFormOf([InTransit, Delivered, OutForDelivery], d)
    ensures d == [Delivered, OutForDelivery, InTransit]
  {
    var input := [InTransit, Delivered, OutForDelivery];
    assert multiset(d) == multiset(input) by {
      forall x ensures multiset(d)[x] == multiset(input)[x] {
        if Excluded(x) {
          assert x !in input;
        }
      }
    }
    assert |d| == 3 by {
      assert |multiset(d)| == |multiset(input)|;
    }
    NewerBeforeOlder(input, d, Delivered, OutForDelivery);
    NewerBeforeOlder(input, d, OutForDelivery, InTransit);
    var i :| 0 <= i < 3 && d[i] == Delivered;
    var k :| 0 <= k < 3 && d[k] == OutForDelivery;
    var j :| 0 <= j < 3 && d[j] == InTransit;
    assert i == 0 && k == 1 && j == 2;
  }

  const Approved := Status("4", "R", "Approved", "", 20240101)
  const ForApproval := Status("5", "R", "For Approval", "", 20240102)

  /** A response holding only internal labels leaves the displayed results as they were. */
  method OnlyInternalLabels(t: Tracker, shipper: Address, consignee: Address)
    requires t.Valid()
    modifies t
    ensures t.results == old(t.results) && !t.fetching
  {
    var data := TrackingResult([Approved, ForApproval], consignee, shipper);
    t.Settle(Production, Fulfilled(data));
  }

  /** A failure whose body carries a message: shown outside production, hidden in production. */
  lemma ServerMessage(transport: string)
    ensures ErrorText("development", RequestError(transport, Body(Some("Invalid tracking number"))))
      == Some("Invalid tracking number")
    ensures ErrorText(Production, RequestError(transport, Body(Some("Invalid tracking number"))))
      == Some(GenericError)
  {
  }
}
