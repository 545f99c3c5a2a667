# qce-tracker search and status-list model

A Dafny model of the logic in the parcel-tracking page `src/App.tsx`. The user enters a
tracking number. The page fetches the shipment's status history and shows it as a
timeline, most recent first. Internal labels ("Approved", "Rider Assign", "For Approval")
are hidden. Two pieces of that page are modelled and proved:

- **The status-list normaliser** (`statuses.dfy`, `normalise.dfy`). The received events are
  sorted in place by `dateUpdated`, newest first, with an insertion sort on an `array`
  (`Normaliser.SortByDateDesc`). Events whose `statusDisplay` is on the exclusion list are
  then filtered out with the pure function `Statuses.Visible`. `Normaliser.Normalise` is proved
  to return a list that is ordered, holds no excluded label, and holds each non-excluded
  received event exactly as often as the response does.
- **The search state machine** (`search.dfy`). The class `Search.Tracker` holds the page's
  `fetching`, `error` and `results` state. The asynchronous lookup is split into transitions:
  `Search` (start, or do nothing for an empty query), `OnSuccess`, `OnFailure`, `OnSettled`,
  and `Settle`, which runs one callback and then the completion callback. Each transition
  keeps the invariant `Valid()`: the displayed results are always ordered and free of
  excluded labels. The error text chosen on failure is the function `Search.ErrorText`.

`scenarios.dfy` works a few concrete lookups through the model.

Modelling decisions:

- `dateUpdated` is an integer timestamp. In the source it is a string parsed with `new Date`.
- The committed (debounced) query is a parameter of `Search`. `None` stands for `undefined`.
  `Search` returns the request path it would fetch, instead of fetching it.
- The deployment mode is a string parameter. Only `"production"` hides failure details.
- Failure without a response, outside production. The source reads `.message` from
  `e.response?.data`, which is `undefined` here, so the failure callback itself throws
  before `error` is set. The model follows the code: `ErrorText` yields `None` and `error`
  keeps its value. The transport error's message is therefore not shown in this case.
  In production the mode check comes
  first, so the generic text is shown.
- A body `message` of `null` or `undefined` (`None`) falls back to the transport's message,
  as `??` does. An empty string message is shown as it is.

## Model

| member | source | states |
|---|---|---|
| `Statuses.Visible` | src/App.tsx:51 | the filtered list contains no excluded label, and is a sub-multiset of the input |
| `Statuses.VisibleCount` | src/App.tsx:51 | the filter drops exactly the events whose label is on the exclusion list; every other event keeps its multiplicity |
| `Statuses.VisibleKeepsOrder` | src/App.tsx:51 | filtering an ordered list leaves it ordered, newest first |
| `Statuses.SortedDescAdjacent` | src/App.tsx:51 | ordering every pair is equivalent to ordering each adjacent pair (`dateUpdated` of the earlier event at least that of the next) |
| `Statuses.SortedVisibleIsNormalForm` | src/App.tsx:51 | sorting by date and then filtering yields an ordered, label-free list with exactly the non-excluded events |
| `Statuses.AllExcludedVisibleEmpty` | src/App.tsx:33 | a response made only of excluded labels filters to the empty list |
| `Statuses.NormalFormEmpty` | src/App.tsx:51-53 | the normalised list is empty exactly when every received event is excluded |
| `Statuses.HeadIsLatest` | src/App.tsx:89-91 | the first displayed event, used as the headline, is at least as recent as any non-excluded received event |
| `Statuses.NewerBeforeOlder` | src/App.tsx:51 | of two received, non-excluded events, the strictly newer one is displayed, and displayed before the older one |
| `Normaliser.SortByDateDesc` | src/App.tsx:51 | the in-place sort leaves the array ordered newest first and a permutation of what it held |
| `Normaliser.Normalise` | src/App.tsx:51 | the normalised list is ordered newest first, holds no excluded label, and holds each non-excluded input event exactly as often as the input |
| `Search.ErrorText` | src/App.tsx:59 | production: the fixed generic text. Otherwise: the body's message if present, else the transport message. No text when there is no body outside production |
| `Search.ProductionHidesDetails` | src/App.tsx:59 | in production the error text does not depend on the failure |
| `Search.ErrorTextOrigin` | src/App.tsx:59 | any error text shown is the generic text, the server's message or the transport's message |
| `Search.Tracker.constructor` | src/App.tsx:36-40 | initially not fetching, no error, no results |
| `Search.Tracker.Search` | src/App.tsx:42-49 | an undefined or empty query changes nothing and issues no request. Otherwise `error` is cleared, `fetching` is set, `results` is kept, and the track path with the query is requested |
| `Search.Tracker.OnSuccess` | src/App.tsx:50-57 | `results` becomes the normalised list when it is non-empty and is kept otherwise. `error` and `fetching` are untouched |
| `Search.Tracker.OnFailure` | src/App.tsx:58-61 | `error` becomes the chosen error text (kept when the callback throws). `results` and `fetching` are untouched |
| `Search.Tracker.OnSettled` | src/App.tsx:62-64 | `fetching` becomes false; nothing else changes |
| `Search.Tracker.Settle` | src/App.tsx:49-64 | after any completion `fetching` is false. A response of only excluded events keeps the previous results; otherwise the results are its normal form; a failure keeps the results |
| `Scenarios.DisplayOrder` | src/App.tsx:51 | events dated 1, 3 and 2 January are displayed as Delivered, Out for Delivery, In Transit |
| `Scenarios.OnlyInternalLabels` | src/App.tsx:51-56 | a response with only "Approved" and "For Approval" leaves the displayed results unchanged |
| `Scenarios.ServerMessage` | src/App.tsx:59 | a body message "Invalid tracking number" is shown outside production and replaced by the generic text in production |

## Left out

- Rendering (JSX, styling, the spinner and the error paragraph) and the `dayjs` date formatting: display only.
- The origin and destination fields (consignee and shipper addresses) are part of the data model, but nothing in the logic reads them.
- The 500 ms debounce of the raw input and the effect that re-runs `search` when the committed query changes: timing and framework reactivity. The committed query is an input.
- The HTTP request itself: network I/O. Only its two outcomes are modelled.
- Overlapping requests and the "last to arrive wins" race: concurrency. The model settles one request at a time.
- Parsing `dateUpdated` with `new Date(...)`, and the comparator's NaN result for unparsable dates: foreign parsing and floating point.
- The response object's own `statuses` array is not reordered in the model. The sort works on a copy, because nothing but the `console.log(data)` at src/App.tsx:55 (left out, see below) reads the response after normalisation.
- `Normaliser.SortByDateDesc`: stability is not stated. The contract does not say that events with equal timestamps keep their received order. The insertion sort used does keep it.
- A success payload without a `statuses` array (the success callback would throw and the failure path run): the model assumes a well-formed body.
- The unhandled rejection raised when the failure callback itself throws: only its effect on `error` (none) is modelled.
- `console.log` of the payload.
