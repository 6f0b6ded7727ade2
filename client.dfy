/**
 The location page. Three panels (status, results, error) are shown and
 hidden by `ShowStatus`, `ShowResults` and `ShowError`; `GetLocation` drives
 them through one lookup: ask the device for a fix, ask the relay for the
 address, then render the fields and a shareable text, or an error message.
 The device sensor and the relay are inputs: the first as the outcome of the
 position request, the second as a function from the two coordinates to what
 the fetch of `/api/location` came to.
 */
module Client {
  import opened JsValues

  /** The relay's JSON body as the page reads it; a key that is not there is `None`. */
  datatype RelayPayload = RelayPayload(
    error: Option<string>,
    address: Option<string>,
    road: Option<string>,
    suburb: Option<string>,
    city: Option<string>,
    country: Option<string>,
    lat: Option<string>,
    lon: Option<string>)

  /** The device side of a lookup: no geolocation support, an error callback
      with its code, or a fix with the coordinates as the page prints them. */
  datatype Geolocation = Unsupported | PositionError(code: int) | Position(lat: string, lon: string)

  /** The fetch of the relay: it threw (network or JSON parse failure), or it
      produced a parsed body. */
  datatype Fetch = Unreachable | Received(payload: RelayPayload)

  /** One call of a panel helper, with what it was given. */
  datatype Step = StatusShown(message: string) | ResultsShown(data: RelayPayload) | ErrorShown(message: string)

  /** The texts of the results panel's elements. */
  datatype ResultsView = ResultsView(
    address: string,
    road: string,
    suburb: string,
    city: string,
    country: string,
    coordinates: string,
    share: string)

  /** Which of the three panels are visible. */
  datatype Panels = Panels(status: bool, results: bool, error: bool)

  // Error codes of a position error, as the Geolocation API numbers them.
  const PermissionDenied := 1
  const PositionUnavailable := 2
  const Timeout := 3

  const Welcome := "Ready to find your location. Click the button above!"
  const Requesting := "Requesting your location..."
  const GettingAddress := "Getting address details..."
  const UnsupportedMessage := "Geolocation is not supported by your browser. Please try a different browser."
  const NetworkMessage := "Failed to get address information. Please check your internet connection."
  const RelayErrorPrefix := "Could not get address: "
  const SensorErrorPrefix := "Unable to retrieve your location. "
  const NotAvailable := "Not available"

  /** The text of the coordinates line: both values interpolated, no fallback. */
  function CoordinatesText(d: RelayPayload): string {
    Interpolate(d.lat) + ", " + Interpolate(d.lon)
  }

  /** `text` followed by one line `• label: value` per entry, in order. The
      share template is kept as a header plus a list of labelled entries so
      that the shape of a bullet line is written once; `ShareTextTemplate`
      proves the result is exactly the page's template literal. */
  function AppendBullets(text: string, entries: seq<(string, string)>): string
    decreases |entries|
  {
    if |entries| == 0 then text
    else AppendBullets(text + "\n• " + entries[0].0 + ": " + entries[0].1, entries[1..])
  }

  /** The labelled values of the shareable text, in the order it lists them. */
  function ShareEntries(d: RelayPayload): seq<(string, string)> {
    [("Road", OrElse(d.road, "Unknown")), ("Area", OrElse(d.suburb, "Unknown")), ("City", OrElse(d.city, "Unknown")),
     ("Country", OrElse(d.country, "Unknown")), ("Coordinates", CoordinatesText(d)),
     ("Full Address", OrElse(d.address, "Unknown"))]
  }

  /** The shareable summary: a header line and six bullets. */
  function ShareText(d: RelayPayload): string {
    AppendBullets("📍 I'm here:", ShareEntries(d))
  }

  /** The first entry appended as its bullet line, `prefix` being the line's
      text up to the value. */
  lemma {:induction false} AppendFirst(text: string, entries: seq<(string, string)>, prefix: string)
    requires |entries| > 0 && prefix == "\n• " + entries[0].0 + ": "
    ensures AppendBullets(text, entries) == AppendBullets(text + prefix + entries[0].1, entries[1..])
  {
    assert text + "\n• " + entries[0].0 + ": " == text + prefix;
  }

  /** The shareable text is exactly the fixed template: each line falls back to
      "Unknown" except the coordinates, which are interpolated as they are. */
  lemma ShareTextTemplate(d: RelayPayload)
    ensures ShareText(d) ==
              "📍 I'm here:" +
              "\n• Road: " + OrElse(d.road, "Unknown") +
              "\n• Area: " + OrElse(d.suburb, "Unknown") +
              "\n• City: " + OrElse(d.city, "Unknown") +
              "\n• Country: " + OrElse(d.country, "Unknown") +
              "\n• Coordinates: " + Interpolate(d.lat) + ", " + Interpolate(d.lon) +
              "\n• Full Address: " + OrElse(d.address, "Unknown")
  {
    var e := ShareEntries(d);
    var t0 := "📍 I'm here:";
    var t1 := t0 + "\n• Road: " + OrElse(d.road, "Unknown");
    var t2 := t1 + "\n• Area: " + OrElse(d.suburb, "Unknown");
    var t3 := t2 + "\n• City: " + OrElse(d.city, "Unknown");
    var t4 := t3 + "\n• Country: " + OrElse(d.country, "Unknown");
    var t5 := t4 + "\n• Coordinates: " + Interpolate(d.lat) + ", " + Interpolate(d.lon);
    var t6 := t5 + "\n• Full Address: " + OrElse(d.address, "Unknown");
    AppendFirst(t0, e, "\n• Road: ");
    assert e[1..][1..] == e[2..];
    AppendFirst(t1, e[1..], "\n• Area: ");
    assert e[2..][1..] == e[3..];
    AppendFirst(t2, e[2..], "\n• City: ");
    assert e[3..][1..] == e[4..];
    AppendFirst(t3, e[3..], "\n• Country: ");
    assert e[4..][1..] == e[5..];
    AppendFirst(t4, e[4..], "\n• Coordinates: ");
    assert t4 + "\n• Coordinates: " + CoordinatesText(d) == t5;
    assert e[5..][1..] == [];
    AppendFirst(t5, e[5..], "\n• Full Address: ");
  }

  /** The reason a position error code stands for. */
  function PositionErrorReason(code: int): string {
    if code == PermissionDenied then "You denied the request for Geolocation. Please allow location access."
    else if code == PositionUnavailable then "Location information is unavailable."
    else if code == Timeout then "The request to get your location timed out."
    else "An unknown error occurred."
  }

  /** The message of the position error callback: a fixed opening sentence,
      then the reason its code stands for. */
  function PositionErrorMessage(code: int): (r: string)
    ensures |r| > |SensorErrorPrefix| && r[..|SensorErrorPrefix|] == "Unable to retrieve your location. "
    ensures code == 1 ==>
      r == "Unable to retrieve your location. " + "You denied the request for Geolocation. Please allow location access."
    ensures code == 2 ==> r == "Unable to retrieve your location. " + "Location information is unavailable."
    ensures code == 3 ==> r == "Unable to retrieve your location. " + "The request to get your location timed out."
    ensures code !in {1, 2, 3} ==> r == "Unable to retrieve your location. " + "An unknown error occurred."
  {
    SensorErrorPrefix + PositionErrorReason(code)
  }

  /** What the results panel shows for a relay payload: each field's value
      when truthy, else "Not available"; the coordinates as they are. */
  function RenderResults(d: RelayPayload): (v: ResultsView)
    ensures v.address == (if Truthy(d.address) then d.address.value else "Not available")
    ensures v.road == (if Truthy(d.road) then d.road.value else "Not available")
    ensures v.suburb == (if Truthy(d.suburb) then d.suburb.value else "Not available")
    ensures v.city == (if Truthy(d.city) then d.city.value else "Not available")
    ensures v.country == (if Truthy(d.country) then d.country.value else "Not available")
    ensures d.lat.Some? && d.lon.Some? ==> v.coordinates == d.lat.value + ", " + d.lon.value
    ensures v.coordinates == Interpolate(d.lat) + ", " + Interpolate(d.lon)
    ensures v.share == ShareText(d)
  {
    ResultsView(OrElse(d.address, NotAvailable), OrElse(d.road, NotAvailable), OrElse(d.suburb, NotAvailable),
                OrElse(d.city, NotAvailable), OrElse(d.country, NotAvailable), CoordinatesText(d), ShareText(d))
  }

  /** The panel helper a lookup ends with: never the status panel. */
  function FinalStep(geo: Geolocation, relay: (string, string) -> Fetch): (s: Step)
    ensures !s.StatusShown?
    ensures s.ResultsShown? <==>
              geo.Position? && relay(geo.lat, geo.lon).Received? && !Truthy(relay(geo.lat, geo.lon).payload.error)
    ensures s.ResultsShown? ==> s.data == relay(geo.lat, geo.lon).payload
    ensures geo.Unsupported? ==>
              s == ErrorShown("Geolocation is not supported by your browser. Please try a different browser.")
    ensures geo.PositionError? ==> s == ErrorShown(PositionErrorMessage(geo.code))
    ensures geo.Position? && relay(geo.lat, geo.lon).Unreachable? ==>
              s == ErrorShown("Failed to get address information. Please check your internet connection.")
    ensures geo.Position? && relay(geo.lat, geo.lon).Received? && Truthy(relay(geo.lat, geo.lon).payload.error) ==>
              s == ErrorShown("Could not get address: " + relay(geo.lat, geo.lon).payload.error.value)
  {
    match geo
    case Unsupported => ErrorShown(UnsupportedMessage)
    case PositionError(code) => ErrorShown(PositionErrorMessage(code))
    case Position(lat, lon) =>
      match relay(lat, lon)
      case Unreachable => ErrorShown(NetworkMessage)
      case Received(data) =>
        if Truthy(data.error) then ErrorShown(RelayErrorPrefix + data.error.value) else ResultsShown(data)
  }

  /** Every panel helper call of one lookup, in order. */
  function LookupSteps(geo: Geolocation, relay: (string, string) -> Fetch): seq<Step> {
    [StatusShown(Requesting)] + (if geo.Position? then [StatusShown(GettingAddress)] else []) + [FinalStep(geo, relay)]
  }

  /** What one panel helper does to the visibility of the panels. */
  function Apply(p: Panels, s: Step): Panels {
    match s
    case StatusShown(_) => Panels(true, false, false)
    case ResultsShown(_) => Panels(false, true, p.error)
    case ErrorShown(_) => Panels(false, p.results, true)
  }

  function ApplyAll(p: Panels, steps: seq<Step>): Panels
    decreases |steps|
  {
    if steps == [] then p else ApplyAll(Apply(p, steps[0]), steps[1..])
  }

  /** Whatever was visible before, a lookup leaves exactly one panel visible:
      the results panel when it ended in `ShowResults`, the error panel otherwise. */
  lemma {:induction false} LookupLeavesOnePanel(p: Panels, geo: Geolocation, relay: (string, string) -> Fetch)
    ensures var q := ApplyAll(p, LookupSteps(geo, relay));
            q == if FinalStep(geo, relay).ResultsShown? then Panels(false, true, false) else Panels(false, false, true)
  {
    var steps := LookupSteps(geo, relay);
    var last := [FinalStep(geo, relay)];
    var status := Panels(true, false, false);
    assert ApplyAll(status, last) == Apply(status, last[0]) by {
      assert last[1..] == [];
    }
    if geo.Position? {
      assert steps[1..] == [StatusShown(GettingAddress)] + last;
      assert steps[1..][1..] == last;
      assert ApplyAll(p, steps) == ApplyAll(status, steps[1..]);
    } else {
      assert steps[1..] == last;
    }
  }

  /** Every lookup shows the status panel first ("Requesting your location..."),
      shows it again once a fix is in ("Getting address details..."), and ends
      with its final panel helper. */
  lemma LookupShowsStatusFirst(geo: Geolocation, relay: (string, string) -> Fetch)
    ensures var steps := LookupSteps(geo, relay);
            && |steps| == (if geo.Position? then 3 else 2)
            && steps[0] == StatusShown("Requesting your location...")
            && (geo.Position? ==> steps[1] == StatusShown("Getting address details..."))
            && steps[|steps| - 1] == FinalStep(geo, relay)
            && !steps[|steps| - 1].StatusShown?
  {
  }

  /** Without a fix the relay is not consulted: missing support and position
      errors end the same whatever the relay would answer. */
  lemma NoFixSkipsRelay(geo: Geolocation, r1: (string, string) -> Fetch, r2: (string, string) -> Fetch)
    requires !geo.Position?
    ensures FinalStep(geo, r1) == FinalStep(geo, r2)
    ensures geo.Unsupported? ==>
              FinalStep(geo, r1) ==
              ErrorShown("Geolocation is not supported by your browser. Please try a different browser.")
  {
  }

  /** The two ways the relay call can fail, and what the user reads for each. */
  lemma RelayFailureMessages(lat: string, lon: string, relay: (string, string) -> Fetch)
    ensures relay(lat, lon).Unreachable? ==>
              FinalStep(Position(lat, lon), relay) ==
              ErrorShown("Failed to get address information. Please check your internet connection.")
    ensures relay(lat, lon).Received? && Truthy(relay(lat, lon).payload.error) ==>
              FinalStep(Position(lat, lon), relay) ==
              ErrorShown("Could not get address: " + relay(lat, lon).payload.error.value)
  {
  }

  /** A refused permission is reported with its own message, whatever the relay would say. */
  lemma PermissionDeniedMessage(relay: (string, string) -> Fetch)
    ensures FinalStep(PositionError(PermissionDenied), relay) ==
      ErrorShown("Unable to retrieve your location. " +
                 "You denied the request for Geolocation. Please allow location access.")
  {
  }

  /** Different known error codes give different messages; every unknown code gives the same one. */
  lemma PositionErrorMessagesDistinct(c1: int, c2: int)
    ensures c1 in {1, 2, 3} && c1 != c2 ==> PositionErrorMessage(c1) != PositionErrorMessage(c2)
    ensures c1 !in {1, 2, 3} && c2 !in {1, 2, 3} ==> PositionErrorMessage(c1) == PositionErrorMessage(c2)
  {
    if c1 in {1, 2, 3} && c1 != c2 {
      var k := |SensorErrorPrefix|;
      assert PositionErrorMessage(c1)[k] == PositionErrorReason(c1)[0];
      assert PositionErrorMessage(c2)[k] == PositionErrorReason(c2)[0];
    }
  }

  /** The DOM state the helpers touch: panel visibility and element texts. */
  class Page {
    var statusVisible: bool
    var resultsVisible: bool
    var errorVisible: bool
    var statusMessage: string
    var errorMessage: string
    /** The texts of the address, road, area, city, country, coordinates and
        share elements. */
    var results: ResultsView
    /** Every panel helper call so far. */
    ghost var calls: seq<Step>

    function PanelState(): Panels
      reads this
    {
      Panels(statusVisible, resultsVisible, errorVisible)
    }

    /** The page once loaded: the markup's initial visibility is whatever it
        is, and loading ends with the welcome status. */
    constructor (statusShown: bool, resultsShown: bool, errorShown: bool)
      ensures statusVisible && !resultsVisible && !errorVisible
      ensures statusMessage == Welcome
      ensures calls == [StatusShown(Welcome)]
    {
      statusVisible, resultsVisible, errorVisible := statusShown, resultsShown, errorShown;
      statusMessage, errorMessage := "", "";
      results := ResultsView("", "", "", "", "", "", "");
      calls := [];
      new;
      ShowStatus(Welcome);
    }

    method ShowStatus(message: string)
      modifies this
      ensures statusVisible && !resultsVisible && !errorVisible
      ensures PanelState() == Apply(old(PanelState()), StatusShown(message))
      ensures statusMessage == message
      ensures errorMessage == old(errorMessage) && results == old(results)
      ensures calls == old(calls) + [StatusShown(message)]
    {
      statusMessage := message;
      statusVisible := true;
      resultsVisible := false;
      errorVisible := false;
      calls := calls + [StatusShown(message)];
    }

    method ShowResults(d: RelayPayload)
      modifies this
      ensures !statusVisible && resultsVisible && errorVisible == old(errorVisible)
      ensures PanelState() == Apply(old(PanelState()), ResultsShown(d))
      ensures results == RenderResults(d)
      ensures statusMessage == old(statusMessage) && errorMessage == old(errorMessage)
      ensures calls == old(calls) + [ResultsShown(d)]
    {
      statusVisible := false;
      resultsVisible := true;
      results := RenderResults(d);
      calls := calls + [ResultsShown(d)];
    }

    method ShowError(message: string)
      modifies this
      ensures !statusVisible && errorVisible && resultsVisible == old(resultsVisible)
      ensures PanelState() == Apply(old(PanelState()), ErrorShown(message))
      ensures errorMessage == message
      ensures statusMessage == old(statusMessage) && results == old(results)
      ensures calls == old(calls) + [ErrorShown(message)]
    {
      statusVisible := false;
      errorVisible := true;
      errorMessage := message;
      calls := calls + [ErrorShown(message)];
    }

    /** One lookup, from the button press to the final panel. */
    method GetLocation(geo: Geolocation, relay: (string, string) -> Fetch)
      modifies this
      ensures calls == old(calls) + LookupSteps(geo, relay)
      ensures PanelState() == ApplyAll(old(PanelState()), LookupSteps(geo, relay))
      ensures !statusVisible && resultsVisible != errorVisible
      ensures resultsVisible <==> FinalStep(geo, relay).ResultsShown?
      ensures statusMessage == if geo.Position? then GettingAddress else Requesting
      ensures FinalStep(geo, relay).ErrorShown? ==>
                errorMessage == FinalStep(geo, relay).message && results == old(results)
      ensures FinalStep(geo, relay).ResultsShown? ==>
                results == RenderResults(FinalStep(geo, relay).data) && errorMessage == old(errorMessage)
    {
      ghost var before := PanelState();
      ShowStatus(Requesting);
      match geo {
        case Unsupported =>
          ShowError(UnsupportedMessage);
        case PositionError(code) =>
          ShowError(PositionErrorMessage(code));
        case Position(lat, lon) =>
          ShowStatus(GettingAddress);
          match relay(lat, lon) {
            case Unreachable =>
              ShowError(NetworkMessage);
            case Received(data) =>
              if Truthy(data.error) {
                ShowError(RelayErrorPrefix + data.error.value);
              } else {
                ShowResults(data);
              }
          }
      }
      LookupLeavesOnePanel(before, geo, relay);
    }
  }
}
