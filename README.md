# LOCATION-GETTER: a verified model of the geocode relay and the location page

The system has two parts. A browser page asks the device for its position,
sends the coordinates to a relay endpoint, and shows the address it gets back.
The relay endpoint is `GET /api/location`. It checks the two query
parameters, calls a reverse-geocoding provider once, and answers with an HTTP
status and a JSON body. The body is either an error object or a flat location
record. This project models both parts in Dafny and proves what each one
promises.

- `js_values.dfy` (module `JsValues`): optional strings, JavaScript
  truthiness, and the `||` operator. `FirstTruthy(sources, fallback)` stands
  for every precedence chain such as `a.city || a.town || a.village ||
  'Unknown city'`. It is proved equal to the left-associative `||` chain that
  JavaScript evaluates (`LeftOr`).
- `relay.dfy` (module `Relay`): the `/api/location` handler as a pure
  function from the query and the provider to `(status, body)`. The provider
  is a function from the two coordinate strings to an outcome: it threw, or it
  answered with `error`, `display_name` and `address`. `Normalise` builds the
  success record.
- `client.dfy` (module `Client`): the page's pure renderers. These are the
  field texts, the shareable text, the position-error messages and the final
  panel of a lookup. The class `Page` holds the three panel visibility flags
  and the element texts. Its methods `ShowStatus`, `ShowResults` and
  `ShowError` change them, and `GetLocation` sequences those methods. A ghost
  trace `calls` records every panel helper call. `Apply`/`ApplyAll` give the
  effect of those calls on visibility as a pure function.
- `end_to_end.dfy` (module `EndToEnd`): the relay's response as the page
  parses it. Lemmas follow each provider outcome to what the user sees, and
  one works through the lookup at 40.0, -75.0 in full.

The device sensor, the network and the provider are inputs to the model, not
part of it. A geolocation outcome is `Unsupported`, `PositionError(code)` or
`Position(lat, lon)`. The relay, as the page sees it, is a function from the
coordinates to `Unreachable` or `Received(payload)`. Coordinates are opaque
strings everywhere. The position-error codes 1, 2 and 3 are
`PERMISSION_DENIED`, `POSITION_UNAVAILABLE` and `TIMEOUT` in the W3C
Geolocation API.

The page's "Unknown" fallback never fires for Road, Area or City on a
successful lookup. The relay has already replaced a missing suburb with
"Unknown area" (server.js:28), and that value is truthy. So for a provider
answer with no suburb the shareable text reads "Area: Unknown area".
`EndToEnd.SpringfieldShareText` proves this. The coordinates in that worked
example are the strings "40.0" and "-75.0". On the real page they come from
JavaScript numbers, which print as "40" and "-75", so the line there would
read "Coordinates: 40, -75". The model treats coordinates as opaque strings
(see "## Left out"), and the example shows the template, not the page's
exact output for that position. The relay checks only that both coordinates
are present and non-empty (server.js:13). It does not check that they are
numeric, and the model does the same.

## Model

| member | source | states |
|---|---|---|
| `JsValues.FirstTruthy` | server.js:27-30 | The result is the first truthy source in list order. It is the fallback when every source is falsy. It is never empty unless the fallback is. |
| `JsValues.LeftOrPicksFirstTruthy` | server.js:28-29 | A left-associative chain of JavaScript or-operators gives its first truthy operand, or its last operand when none is truthy. |
| `JsValues.FirstTruthyIsOrChain` | server.js:27-30 | A chain `x0 or ... or 'literal'` of JavaScript or-operators evaluates to `Some(FirstTruthy(xs, literal))`, so the helper computes each chain the relay writes. |
| `JsValues.OrElse` | script.js:35-49 | `v or 'literal'` with JavaScript or-operators gives the value when truthy and the literal otherwise. The page's "Not available" and "Unknown" fallbacks both use it. |
| `Relay.Normalise` | server.js:25-35 | road, suburb, city and state each take the first truthy source in the listed order (suburb then neighbourhood; city, town, village), else their literal fallback. A later source is used only when every earlier one is falsy. None of the four is ever empty. `address`, `country` and `postcode` are copied unchanged with no fallback. `lat`/`lon` are the query strings verbatim. |
| `Relay.Handle` | server.js:10-40 | The status is one of 200/400/404/500. 400 happens exactly when lat or lon is missing or empty, with `{error: "Latitude and longitude required"}`. 500 happens exactly when the provider call threw, with `{error: "Failed to get location information"}`. 404 happens exactly when the provider's answer carries a truthy `error`, with `{error: "Location not found"}`. A 200 body is the normalised record of the provider's answer. |
| `Relay.MissingCoordinatesSkipProvider` | server.js:13-15 | Without both coordinates, the response is the same whatever the provider would return, so the provider is not consulted. |
| `Relay.FailureHidesCause` | server.js:36-39 | Two provider failures with any causes give the same response: the body carries nothing of the cause. |
| `Relay.NoAddressYieldsDefaults` | server.js:26-32 | With no `address` object, the four fallback fields are exactly "Unknown road", "Unknown area", "Unknown city" and "Unknown state", and `country`/`postcode` are missing. |
| `Relay.NormaliseFollowsOrChains` | server.js:27-30 | Each fallback field equals the source's own left-associative or-expression, evaluated with JavaScript truthiness. |
| `Client.RenderResults` | script.js:35-40 | The address, road, area, city and country texts are each the payload value when truthy, else "Not available". The coordinates text is both values interpolated with ", " between them: `lat + ", " + lon` when both are present, and "undefined" in place of a missing one. The share text is the template below. |
| `Client.ShareTextTemplate` | script.js:43-49 | The shareable text is exactly the header and six bullets in template order. Road, Area, City, Country and Full Address fall back to "Unknown". The Coordinates line is `lat + ", " + lon` with no fallback. |
| `Client.PositionErrorMessage` | script.js:95-109 | The message is "Unable to retrieve your location. " followed by the reason for code 1, 2 or 3, or "An unknown error occurred." for any other code. |
| `Client.PositionErrorMessagesDistinct` | script.js:97-109 | Different known codes give different messages. All unknown codes give the same message. |
| `Client.FinalStep` | script.js:62-111 | A lookup never ends on the status panel. It ends in `showResults(data)` exactly when there is a fix, the fetch produced a body, and that body has no truthy `error`; `data` is that body. Every other ending is an error with its exact message: the unsupported-browser text; `PositionErrorMessage(code)` for a position error of any code; the connectivity text when the fetch or parse fails; "Could not get address: " followed by the payload's `error`. |
| `Client.LookupShowsStatusFirst` | script.js:62-111 | Every lookup calls `showStatus("Requesting your location...")` first. With a fix it calls `showStatus("Getting address details...")` next. It ends with one non-status helper call. |
| `Client.NoFixSkipsRelay` | script.js:65-68 | Without a fix the relay's answer does not matter. Missing support ends with the fixed unsupported-browser message. |
| `Client.RelayFailureMessages` | script.js:83-90 | A failed fetch or parse shows the fixed connectivity message. A payload with a truthy `error` shows "Could not get address: " followed by that error. |
| `Client.PermissionDeniedMessage` | script.js:97-100 | A denied permission shows its exact message, whatever the relay would answer. |
| `Client.LookupLeavesOnePanel` | script.js:19-59 | Whatever was visible before, the panel calls of a lookup leave exactly one panel visible: results if the lookup ended in `showResults`, error otherwise. |
| `Client.Page.constructor` | script.js:153-154 | After loading, only the status panel is visible, showing the welcome message. |
| `Client.Page.ShowStatus` | script.js:19-27 | Status is shown and results and error are hidden, whatever the prior state. The status message is set. Nothing else changes. |
| `Client.Page.ShowResults` | script.js:30-52 | Status is hidden and results are shown. The error panel's visibility is untouched. The result texts are the rendering of the data. |
| `Client.Page.ShowError` | script.js:55-59 | Status is hidden, error is shown and the error text is set. The results panel's visibility and texts are untouched. |
| `Client.Page.GetLocation` | script.js:62-111 | The calls made are exactly the lookup's steps. The panels end as `ApplyAll` of those steps: status hidden and exactly one of results or error visible. The error text or the result texts are those of the final step. |
| `EndToEnd.ProviderFailureReachesPage` | server.js:36-39 | When the provider throws, the user reads "Could not get address: Failed to get location information". |
| `EndToEnd.NotFoundReachesPage` | server.js:21-23 | When the provider reports an error, the user reads "Could not get address: Location not found". |
| `EndToEnd.SuccessShowsRelayRecord` | script.js:35-40 | When the provider answers, the page's road, area and city texts are the relay's values, so "Not available" never replaces them. The coordinates text is the fix's `lat + ", " + lon`. |
| `EndToEnd.SpringfieldRecord` | server.js:25-35 | Worked lookup: a road, city and country with no suburb or state normalise to "Unknown area" and "Unknown state". |
| `EndToEnd.SpringfieldResponse` | server.js:25-35 | Worked lookup: the page receives the relay's normalised record with both coordinates echoed. |
| `EndToEnd.SpringfieldLookup` | script.js:83-87 | Worked lookup: the lookup ends in the results panel with that record. |
| `EndToEnd.SpringfieldShareText` | script.js:43-49 | Worked lookup: the shareable text has "Road: Main St", "Area: Unknown area", "City: Springfield", "Country: Testland", "Coordinates: 40.0, -75.0" and "Full Address: 1 Main St, Springfield". |

## Left out

- Express setup, static file serving, the `PORT` setting and `app.listen` (server.js:1-7, 42-45): framework plumbing with no logic.
- The provider request itself (server.js:18-19): the URL with `format=json`, `zoom=18` and `addressdetails=1`, and the network call. The provider is a function parameter that gets the two coordinate strings.
- Fetching `/api/location` from the page (script.js:80-81). The relay is a function parameter. `EndToEnd.Served` connects it to `Relay.Handle`. The HTTP status is not modelled on the page side because the page never reads it.
- `navigator.geolocation.getCurrentPosition` and its options: high accuracy, a 10000 ms timeout, a maximum age of 0 (script.js:70-118). This is a device capability with callbacks. Its outcome is an input.
- `copyToClipboard`, the clipboard API, the button styling and the 2-second revert (script.js:123-146): browser I/O and timers.
- Overlapping lookups. The page has no guard against a second lookup starting while one is pending. Modelling that would need interleaved callbacks, so each `GetLocation` here runs one lookup to completion. Interleaved lookups can leave the results and error panels both visible: status, then results from one lookup, then error from the other, gives results and error shown together. `Client.LookupLeavesOnePanel` holds only for lookups that do not overlap.
- The status panel's icon markup and the unused `isError` flag of `showStatus` (script.js:20-22), `console.error` logging, and DOM element lookup (script.js:2-16). The model keeps the status message text only.
- JSON values that are not strings. Every provider and payload field is a string or missing. Numbers, objects, and the difference between `null` and `undefined` are not modelled. A JSON `null` where the relay reads `data.error` raises a TypeError, which the `try` turns into the 500 path. That case falls under `Threw`. On the page, the same TypeError falls under `Unreachable`.
- Repeated query parameters, which Express turns into arrays: a query parameter is a string or missing.
- Coordinates as floating-point numbers and their formatting into the URL: they are opaque strings throughout.
- Idempotence of the relay (identical inputs and an unchanged provider give identical output) needs no lemma. `Relay.Handle` is a function, so this holds by construction.
