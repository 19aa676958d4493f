/** src/components/VehiclePopup.tsx: the labels the popup derives from a
    clicked vehicle and the order in which loading, error, missing data and
    content take precedence. Fetching the stop and the prediction is not part
    of this model; its result is the component's state, given as input. */
module VehiclePopup {
  import opened Wrappers
  import opened Types
  import opened Strings

  /** The vehicle data handed to the popup by the map. */
  datatype PendingVehicle = PendingVehicle(
    stopId: string, tripId: string, direction: string, position: Position,
    currentStatus: string, route: string, displayLabel: string)

  /** Of the stop and prediction answers only the fields shown are kept. */
  datatype StopData = StopData(name: Option<string>)
  datatype PredictionData = PredictionData(arrivalTime: Option<string>)

  /** The component's state once its effect has run; a missing answer is `null`. */
  datatype PopupState = PopupState(
    loading: bool, error: bool, stop: Option<StopData>, prediction: Option<PredictionData>)

  /** The status label: one text per known status, undefined otherwise. */
  function StatusLabel(status: string): (text: Option<string>)
    ensures text == Some("Stopped at") <==> status == "STOPPED_AT"
    ensures text == Some("In transit") <==> status == "IN_TRANSIT_TO"
    ensures text == Some("Arriving at") <==> status == "INCOMING_AT"
    ensures text.None? <==> status != "STOPPED_AT" && status != "IN_TRANSIT_TO" && status != "INCOMING_AT"
  {
    if status == "STOPPED_AT" then Some("Stopped at")
    else if status == "IN_TRANSIT_TO" then Some("In transit")
    else if status == "INCOMING_AT" then Some("Arriving at")
    else None
  }

  /** `/^\d+$/.test(route)`: a bus route is all ASCII digits and gets ` Bus`. */
  function RouteHeading(route: string): (h: string)
    ensures route <= h
    ensures IsDigits(route) ==> h == route + " Bus"
    ensures !IsDigits(route) ==> h == route
    ensures |h| > |route| <==> IsDigits(route)
  {
    if IsDigits(route) then route + " Bus" else route
  }

  /** The route can be read back from a bus heading: it is the digits before ` Bus`. */
  lemma BusHeadingRecoversRoute(route: string)
    requires IsDigits(route)
    ensures var h := RouteHeading(route); h[..|h| - 4] == route && h[|h| - 4..] == " Bus"
  {
  }

  /** Two digit-only routes never share a heading. */
  lemma BusHeadingsDistinct(r: string, s: string)
    requires IsDigits(r) && IsDigits(s) && RouteHeading(r) == RouteHeading(s)
    ensures r == s
  {
    BusHeadingRecoversRoute(r);
    BusHeadingRecoversRoute(s);
  }

  /** Direction `"0"` is outbound; every other value reads as inbound. */
  function DirectionLabel(direction: string): (text: string)
    ensures text == "Outbound" <==> direction == "0"
    ensures text == "Inbound" <==> direction != "0"
  {
    if direction == "0" then "Outbound" else "Inbound"
  }

  /** `Stop:` for a vehicle at its stop, `Next Stop:` otherwise. */
  function StopHeading(status: Option<string>): (heading: string)
    ensures heading == "Stop:" <==> status == Some("Stopped at")
    ensures heading == "Next Stop:" <==> status != Some("Stopped at")
  {
    if status == Some("Stopped at") then "Stop:" else "Next Stop:"
  }

  /** The stop heading reads `Stop:` exactly for the `STOPPED_AT` status. */
  lemma StopHeadingOfStatus(status: string)
    ensures StopHeading(StatusLabel(status)) == "Stop:" <==> status == "STOPPED_AT"
  {
  }

  /** The ETA cell: the arrival time as a local time string when it is truthy,
      `N/A` otherwise. The locale formatting is the parameter `format`. */
  function EtaText(eta: Option<string>, format: string -> string): (text: string)
    ensures (eta.Some? && eta.value != "") ==> text == format(eta.value)
    ensures !(eta.Some? && eta.value != "") ==> text == "N/A"
  {
    if eta.Some? && eta.value != "" then format(eta.value) else "N/A"
  }

  datatype PopupContent = PopupContent(
    heading: string, direction: string, status: Option<string>,
    stopHeading: string, stopName: Option<string>, eta: string)

  datatype PopupView =
    | LoadingView
    | ErrorView
    | NothingView
    | ContentView(content: PopupContent)

  /** The render: loading first, then error, then nothing when either answer
      is missing, and only then the content. */
  function Render(pending: PendingVehicle, state: PopupState, format: string -> string): (v: PopupView)
    ensures v.LoadingView? <==> state.loading
    ensures v.ErrorView? <==> !state.loading && state.error
    ensures v.NothingView? <==> !state.loading && !state.error && (state.stop.None? || state.prediction.None?)
    ensures v.ContentView? ==>
      && v.content.heading == RouteHeading(pending.route)
      && v.content.direction == DirectionLabel(pending.direction)
      && v.content.status == StatusLabel(pending.currentStatus)
      && v.content.stopHeading == StopHeading(StatusLabel(pending.currentStatus))
      && v.content.stopName == state.stop.value.name
      && v.content.eta == EtaText(state.prediction.value.arrivalTime, format)
  {
    if state.loading then LoadingView
    else if state.error then ErrorView
    else if state.stop.None? || state.prediction.None? then NothingView
    else
      var status := StatusLabel(pending.currentStatus);
      ContentView(PopupContent(
        RouteHeading(pending.route),
        DirectionLabel(pending.direction),
        status,
        StopHeading(status),
        state.stop.value.name,
        EtaText(state.prediction.value.arrivalTime, format)))
  }

  /** Content is shown exactly when loading is over, there is no error and
      both answers are present. */
  lemma ContentIffSettled(pending: PendingVehicle, state: PopupState, format: string -> string)
    ensures Render(pending, state, format).ContentView?
        <==> !state.loading && !state.error && state.stop.Some? && state.prediction.Some?
  {
  }
}
