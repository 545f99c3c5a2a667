/**
 * The tracking page's search controller: the state fields `fetching`,
 * `error` and `results`, and the transitions of one lookup — starting it,
 * its success and failure callbacks, and the completion callback that
 * always runs after either.
 */
module Search {
  import opened Wrappers
  import opened Statuses
  import opened Normaliser

  /** The error text shown in production, whatever went wrong (spelling as deployed). */
  const GenericError: string := "Something went wrong! Please contact site admininstrator"

  /** The deployment mode in which details of a failure are hidden. */
  const Production: string := "production"

  /** Path of the lookup request, to which the committed query is appended. */
  const TrackPath: string := "/requests/track?query="

  /**
   * The response body carried by a failed request: `NoBody` when the failure
   * has no response (or the response has no data); otherwise a body whose
   * `message` field may be missing or null (`None`).
   */
  datatype ErrorBody = NoBody | Body(message: Option<string>)

  /** A failed request: the transport's own error message and the response body, if any. */
  datatype RequestError = RequestError(message: string, body: ErrorBody)

  /** How one lookup request settled. */
  datatype Outcome = Fulfilled(data: TrackingResult) | Rejected(failure: RequestError)

  /** A committed query starts a search unless it is undefined or the empty string. */
  predicate IsSearchable(query: Option<string>) {
    query.Some? && query.value != ""
  }

  /**
   * The text the failure callback stores in `error`, or `None` when the
   * callback itself fails: outside production, reading `message` from a
   * missing body throws before `error` is set.
   */
  function ErrorText(mode: string, e: RequestError): (r: Option<string>)
    ensures mode == Production ==> r == Some(GenericError)
    ensures mode != Production && e.body.Body? && e.body.message.Some? ==> r == e.body.message
    ensures mode != Production && e.body.Body? && e.body.message.None? ==> r == Some(e.message)
    ensures r.None? <==> mode != Production && e.body.NoBody?
  {
    if mode == Production then Some(GenericError)
    else match e.body
      case NoBody => None
      case Body(m) => if m.Some? then m else Some(e.message)
  }

  /** In production the shown text does not depend on the failure at all. */
  lemma ProductionHidesDetails(e1: RequestError, e2: RequestError)
    ensures ErrorText(Production, e1) == ErrorText(Production, e2)
  {
  }

  /** Whatever text is shown is the generic text, the server's message or the transport's message. */
  lemma ErrorTextOrigin(mode: string, e: RequestError)
    requires ErrorText(mode, e).Some?
    ensures var t := ErrorText(mode, e).value;
      t == GenericError || t == e.message || (e.body.Body? && e.body.message == Some(t))
  {
  }

  /** The search state of the tracking page. */
  class Tracker {
    var fetching: bool
    var error: Option<string>
    var results: seq<Status>

    /** What is displayed is always ordered most recent first and free of excluded labels. */
    ghost predicate Valid()
      reads this
    {
      SortedDesc(results) && NoneExcluded(results)
    }

    /** The page's initial state: idle, no error, nothing displayed. */
    constructor ()
      ensures Valid()
      ensures !fetching && error == None && results == []
    {
      fetching := false;
      error := None;
      results := [];
    }

    /**
     * Starts a lookup for the committed `query`. Returns the request path
     * that is fetched, or `None` when the query is undefined or empty, in
     * which case nothing changes.
     */
    method Search(query: Option<string>) returns (request: Option<string>)
      requires Valid()
      modifies this
      ensures Valid()
      ensures request.Some? <==> IsSearchable(query)
      ensures request.Some? ==> request.value == TrackPath + query.value
      ensures request.Some? ==> fetching && error == None && results == old(results)
      ensures request.None? ==> fetching == old(fetching) && error == old(error) && results == old(results)
    {
      if query.None? || query.value == "" {
        return None;
      }
      error := None;
      fetching := true;
      request := Some(TrackPath + query.value);
    }

    /**
     * The success callback: normalises the received statuses and displays
     * them unless nothing is left, in which case the previous results stay.
     * Returns the normalised list.
     */
    method OnSuccess(data: TrackingResult) returns (d: seq<Status>)
      requires Valid()
      modifies this
      ensures Valid()
      ensures NormalFormOf(data.statuses, d)
      ensures results == if |d| > 0 then d else old(results)
      ensures fetching == old(fetching) && error == old(error)
    {
      d := Normalise(data.statuses);
      if |d| > 0 {
        results := d;
      }
    }

    /** The failure callback: stores the mode-dependent error text; the results stay. */
    method OnFailure(mode: string, e: RequestError)
      requires Valid()
      modifies this
      ensures Valid()
      ensures error == if ErrorText(mode, e).Some? then ErrorText(mode, e) else old(error)
      ensures fetching == old(fetching) && results == old(results)
    {
      var text := ErrorText(mode, e);
      if text.Some? {
        error := text;
      }
    }

    /** The completion callback, run after success and failure alike. */
    method OnSettled()
      requires Valid()
      modifies this
      ensures Valid()
      ensures !fetching
      ensures error == old(error) && results == old(results)
    {
      fetching := false;
    }

    /** One request settling: its success or failure callback, then the completion callback. */
    method Settle(mode: string, outcome: Outcome)
      requires Valid()
      modifies this
      ensures Valid()
      ensures !fetching
      ensures outcome.Fulfilled? ==> error == old(error)
      ensures outcome.Fulfilled? ==>
        (if forall i :: 0 <= i < |outcome.data.statuses| ==> Excluded(outcome.data.statuses[i])
         then results == old(results)
         else NormalFormOf(outcome.data.statuses, results))
      ensures outcome.Rejected? ==> results == old(results)
      ensures outcome.Rejected? ==>
        error == if ErrorText(mode, outcome.failure).Some? then ErrorText(mode, outcome.failure) else old(error)
    {
      match outcome {
        case Fulfilled(data) =>
          var d := OnSuccess(data);
          NormalFormEmpty(data.statuses, d);
        case Rejected(e) =>
          OnFailure(mode, e);
      }
      OnSettled();
    }
  }
}
