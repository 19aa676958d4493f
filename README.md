# raot live-vehicle map: a Dafny model of its core logic

raot is a web map of MBTA (Boston transit) vehicles. The project models the
parts of it that decide what the map shows:

- **Vehicle reconciler** (`StreamLayer`). The stream layer folds the worker's
  `status` / `data` / `error` messages into a sequence of point features.
  `reset` replaces the collection by the converted payload. `add` appends the
  raw payload. `update` replaces the features with the same id. `remove`
  filters that id out. Everything else leaves the collection alone.
  `StreamLayer.StreamLayer` is a class holding the feature sequence, with one
  method per branch. Its methods are proved against the pure function `Apply`,
  and the lemmas state the properties of `Apply`.
- **Stream worker** (`MbtaWorker`). This is the server-sent-events connection
  state machine. Its state is a "has source" flag, the current URL and the
  outbox of posted messages. The `StreamWorker` class has `connectSSE`, the
  open and error callbacks, `handleEvent`, `stopSSE` and the `onmessage`
  dispatcher. Each method is proved equal to a step function on
  `WorkerState`.
- **Conversions and the shape pipeline** (`Conversions`, `DedupeLinestrings`,
  `ShapesApi`). These cover:
  - the record mappings to GeoJSON features;
  - the filter that keeps canonical line strings;
  - the `getShapes` query parameters and its decode → line → filter pipeline.
- **Route queries** (`AllRoutesApi`, with `Query` shared by both API files).
  These cover the ordered, truthiness-gated parameter lists of `getRoutes`
  and `getRoutePatterns`, and the route-pattern dedupe. The dedupe keeps the
  first pattern for each id-minus-last-two-characters.
- **Map component** (`MbtaMap`). This covers:
  - the in-place `'#'` colour prefix over an array of routes;
  - the selection of included trips and shapes;
  - the loop that colours each shape from the route of its first trip, which
    stops at the first shape with no trip;
  - what `fetchRoutes` publishes;
  - the light preset chosen from five millisecond timestamps and when it is
    written.
- **Vehicle popup** (`VehiclePopup`) and **alerts panel** (`Alerts`). These
  are the label, heading, badge and precedence rules of the two components.

Some things are parameters of the model:

- `JSON.parse` is a partial function `parse`.
- Polyline decoding is a function `decode`.
- An HTTP request is a function `fetch` from the parameter list to a response.
- Locale time formatting is a function `format`.
- Timestamps, the sun times and the map's current preset are plain inputs.

A JavaScript `undefined` is `None`, and a thrown error is a `Failure` or a
`threw` / `error` result. "Truthy" is spelled out: a number must be present
and non-zero, and a string must be present and non-empty.

The reconciler is not an upsert. `add` appends even when the id is already
shown, and `update` never inserts a missing vehicle (see
`StreamLayer.DuplicateAddKeepsBoth` and `StreamLayer.UpdateUnknownIsNoOp`).

## Model

| member | source | states |
|---|---|---|
| StreamLayer.ResetFeatures | src/components/layers/MBTA/MBTAStreamLayer.tsx:47-54 | the reset collection has one converted point per payload record, in payload order |
| StreamLayer.UpdateFeatures | src/components/layers/MBTA/MBTAStreamLayer.tsx:63-72 | same length; each feature whose id equals the item's id becomes the item, every other feature is unchanged |
| StreamLayer.RemoveFeatures | src/components/layers/MBTA/MBTAStreamLayer.tsx:73-80 | no kept feature has the removed id; every feature with another id is kept as many times as it occurs; the result is an order-preserving subsequence |
| StreamLayer.Throws | src/components/layers/MBTA/MBTAStreamLayer.tsx:47-72 | only a data message of type `reset` (payload not an array) or `update` (payload not a record) can throw |
| StreamLayer.Apply | src/components/layers/MBTA/MBTAStreamLayer.tsx:33-111 | the collection after one worker message: a non-data message or a throwing one leaves it unchanged, and every data message but `reset` grows it by at most one entry |
| StreamLayer.StreamLayer.constructor | src/components/layers/MBTA/MBTAStreamLayer.tsx:21-24 | the layer starts with an empty collection and no worker |
| StreamLayer.StreamLayer.Setup | src/components/layers/MBTA/MBTAStreamLayer.tsx:28-29 | the worker is attached and the collection is untouched |
| StreamLayer.StreamLayer.Reset | src/components/layers/MBTA/MBTAStreamLayer.tsx:47-54 | the collection becomes the converted payload |
| StreamLayer.StreamLayer.Add | src/components/layers/MBTA/MBTAStreamLayer.tsx:55-62 | the raw payload is appended after the old features, unconverted and unchecked |
| StreamLayer.StreamLayer.Update | src/components/layers/MBTA/MBTAStreamLayer.tsx:63-72 | the collection becomes the replace-by-id of the converted record over the old one |
| StreamLayer.StreamLayer.Remove | src/components/layers/MBTA/MBTAStreamLayer.tsx:73-80 | the collection becomes the old one without the payload id |
| StreamLayer.StreamLayer.HandleWorkerMessage | src/components/layers/MBTA/MBTAStreamLayer.tsx:33-111 | the new collection is `Apply` of the message to the old one; it reports a throw exactly for a reset on a non-array or an update on a non-record |
| StreamLayer.StreamLayer.Cleanup | src/components/layers/MBTA/MBTAStreamLayer.tsx:127-137 | with a worker attached, the worker is dropped and the collection emptied; otherwise nothing changes |
| StreamLayer.ResetShowsExactlyPayload | src/components/layers/MBTA/MBTAStreamLayer.tsx:47-54 | after a reset the length is the payload's, and an id is shown iff some payload record has it; earlier features are forgotten |
| StreamLayer.AddAppendsRaw | src/components/layers/MBTA/MBTAStreamLayer.tsx:55-62 | add appends exactly the payload and grows the collection by one |
| StreamLayer.DuplicateAddKeepsBoth | src/components/layers/MBTA/MBTAStreamLayer.tsx:59 | adding a record whose id is already shown keeps the old feature and adds a second one with that id |
| StreamLayer.UpdateUnknownIsNoOp | src/components/layers/MBTA/MBTAStreamLayer.tsx:67-69 | an update for an id not in the collection changes nothing; nothing is inserted |
| StreamLayer.UpdateIdempotent | src/components/layers/MBTA/MBTAStreamLayer.tsx:66-69 | applying the same update twice equals applying it once |
| StreamLayer.RemoveAbsentIsNoOp | src/components/layers/MBTA/MBTAStreamLayer.tsx:77 | removing an id no feature has changes nothing |
| StreamLayer.RemoveIdempotent | src/components/layers/MBTA/MBTAStreamLayer.tsx:77 | applying the same remove twice equals applying it once |
| StreamLayer.AddThenRemove | src/components/layers/MBTA/MBTAStreamLayer.tsx:55-80 | adding a record and then removing its id equals just removing that id |
| StreamLayer.NonMutatingMessagesKeepCollection | src/components/layers/MBTA/MBTAStreamLayer.tsx:37-43 | status, error, unknown event types and unknown message types leave the collection unchanged |
| StreamLayer.OnlyMutatingMessagesMatter | src/components/layers/MBTA/MBTAStreamLayer.tsx:81-109 | folding a message stream equals folding only its data messages of the four known kinds |
| StreamLayer.ApplyAllAppend | src/components/layers/MBTA/MBTAStreamLayer.tsx:33-111 | folding two message streams one after the other equals folding their concatenation |
| StreamLayer.ResetForgetsHistory | src/components/layers/MBTA/MBTAStreamLayer.tsx:47-54 | after a reset the collection depends only on the reset payload and the later messages, never on the history before it |
| StreamLayer.ResetUpdateRemoveAddScenario | src/components/layers/MBTA/MBTAStreamLayer.tsx:47-80 | reset [A, B], update A', remove B, add C gives [A', C] |
| MbtaWorker.StreamUrl | src/workers/mbta-worker.ts:56 | the URL is the API base, endpoint and `/?api_key=` key, followed by `&` and the filter only when the filter is truthy |
| MbtaWorker.Connect | src/workers/mbta-worker.ts:55-77 | afterwards a source is open on the given URL; the outbox is extended by at most one message, `connecting` |
| MbtaWorker.Opened | src/workers/mbta-worker.ts:79-82 | posts `open` and changes neither the source nor the URL |
| MbtaWorker.Failed | src/workers/mbta-worker.ts:89-96 | posts `error` then the connection error text, drops the source and keeps the URL |
| MbtaWorker.EventReceived | src/workers/mbta-worker.ts:36-53 | posts one data message or one parse error, as `EventPostsOneMessage` states |
| MbtaWorker.Stopped | src/workers/mbta-worker.ts:103-115 | afterwards no source is open; with a source the URL is cleared and `closed` is posted, without one nothing changes |
| MbtaWorker.Received | src/workers/mbta-worker.ts:118-135 | keeps the source-implies-URL invariant and only extends the outbox; `stop` leaves no source, `start` with a payload leaves a source on the built URL, any other command changes nothing |
| MbtaWorker.EmptyFilterAddsNothing | src/workers/mbta-worker.ts:56 | the filter leaves the URL as without a filter iff it is absent or empty |
| MbtaWorker.StreamWorker.constructor | src/workers/mbta-worker.ts:138 | loading the worker gives no source, no URL and an outbox holding only `status: idle` |
| MbtaWorker.StreamWorker.ConnectSSE | src/workers/mbta-worker.ts:55-101 | the new state is `Connect` of the old state and the built URL |
| MbtaWorker.StreamWorker.OnOpen | src/workers/mbta-worker.ts:79-82 | the open callback posts `status: open` and changes nothing else |
| MbtaWorker.StreamWorker.OnError | src/workers/mbta-worker.ts:89-100 | posts `status: error` then the `SSE connection error` error, clears the source and keeps the URL |
| MbtaWorker.StreamWorker.HandleEvent | src/workers/mbta-worker.ts:36-53 | the new state is `EventReceived`: one data message on a parse success, one error message on a failure |
| MbtaWorker.StreamWorker.StopSSE | src/workers/mbta-worker.ts:103-115 | the new state is `Stopped` of the old one |
| MbtaWorker.StreamWorker.OnMessage | src/workers/mbta-worker.ts:118-135 | the new state is `Received`: start with a payload connects, stop stops, anything else is ignored |
| MbtaWorker.SameUrlStartIsNoOp | src/workers/mbta-worker.ts:58-61 | a start while a source exists for the same URL posts nothing and changes nothing |
| MbtaWorker.OtherStartConnects | src/workers/mbta-worker.ts:63-77 | any other start sets the URL, posts exactly one `status: connecting` and ends with a source |
| MbtaWorker.EventPostsOneMessage | src/workers/mbta-worker.ts:36-53 | an event posts exactly one message: a data message with the event name and the parsed value, or an error starting with `Error parsing data: `; the source stays |
| MbtaWorker.ErrorThenSameStartReconnects | src/workers/mbta-worker.ts:89-96 | after a transport error the URL is kept but the source is gone, so a start with the same URL reconnects |
| MbtaWorker.StopIdempotent | src/workers/mbta-worker.ts:103-115 | stop without a source changes nothing; stop with a source clears the source and the URL and posts exactly `status: closed`; stopping twice equals stopping once |
| MbtaWorker.IgnoredCommands | src/workers/mbta-worker.ts:122-134 | a start without payload and an unknown command change nothing and post nothing |
| MbtaWorker.RunKeepsConsistent | src/workers/mbta-worker.ts:33-34 | every run of inputs keeps the invariant that a source exists only with a current URL |
| MbtaWorker.RunExtendsOutbox | src/workers/mbta-worker.ts:42-113 | posted messages are never retracted: each run only extends the outbox |
| MbtaWorker.IdleIsPostedFirst | src/workers/mbta-worker.ts:138 | whatever happens afterwards, the first posted message is `status: idle` |
| Conversions.StreamingEventToPoint | src/helpers/conversions.ts:36-53 | the point has the record's id, Point geometry, coordinates [longitude, latitude], `currentStatus` from `current_status` and `route` from the route relationship |
| Conversions.PointKeepsExactlyShownFields | src/helpers/conversions.ts:37-51 | two records give the same point iff they agree on id, coordinates, bearing, status, label, route and speed |
| Conversions.ShapesToFeatureCollection | src/helpers/conversions.ts:12-29 | one line per shape, in order, whose coordinates are the decoded polyline and whose properties are exactly id, links and the shape type |
| DedupeLinestrings.DedupeFeatures | src/helpers/dedupe-linestrings.ts:10-17 | the result is an order-preserving subsequence holding exactly the LineStrings whose id contains `canonical`, each as many times as in the input; it needs every feature to have an id |
| DedupeLinestrings.DedupedIdsContainMarker | src/helpers/dedupe-linestrings.ts:13 | every kept id contains `canonical` at some position |
| DedupeLinestrings.DedupeIdempotent | src/helpers/dedupe-linestrings.ts:12-14 | filtering twice equals filtering once |
| DedupeLinestrings.MarkerMatchedAnywhere | src/helpers/dedupe-linestrings.ts:13 | the marker may sit anywhere in the id: `canonical-x` and `x-noncanonical` are both kept |
| DedupeLinestrings.UnmarkedLineDropped | src/helpers/dedupe-linestrings.ts:13 | `1-canonical` is kept and `1-alt`, which lacks the marker, is dropped |
| ShapesApi.ShapeParams | src/api/shapes.ts:12-33 | the parameters are the guarded appends of the five shape candidates in source order |
| ShapesApi.ShapeParamsLayout | src/api/shapes.ts:7-28 | `filter[route]` comes first (`ALL_ROUTES` unless the filter is truthy); each later key is present with a value iff its prop is truthy and the value matches; keys keep the fixed order |
| ShapesApi.GetShapes | src/api/shapes.ts:12-60 | fails with the HTTP error text iff the answer is not ok; otherwise returns the canonical filter of one decoded line per shape |
| ShapesApi.DecodedCanonicalLines | src/api/shapes.ts:39-59 | a line is returned iff it is the decoded line of a shape whose id contains `canonical` |
| Query.NumberValue | src/api/shapes.ts:16-21 | a number yields a parameter value iff it is truthy (present and non-zero), and the value is its decimal text |
| Query.StringValue | src/api/shapes.ts:22-27 | a string yields a parameter value iff it is truthy (present and non-empty), and the value is the string |
| Query.AppendCandidate | src/api/shapes.ts:16-18 | one guarded append: the pair is appended iff the candidate carries a value |
| Query.AppendedHasParamIff | src/api/all-routes.ts:8-39 | the built list holds a key/value pair iff some candidate with that key carries that value |
| Query.AppendedLookup | src/api/all-routes.ts:8-39 | with distinct keys, a key is present with a value iff its own candidate carries exactly that value |
| Query.AppendedKeepsKeyOrder | src/api/all-routes.ts:8-39 | the keys of the built list are a subsequence of the candidate keys, in the same order |
| Query.AppendedStartsWith | src/api/all-routes.ts:9 | an unconditional first candidate is the first parameter |
| AllRoutesApi.BoolValue | src/api/all-routes.ts:88-90 | a boolean yields a parameter value iff it is `true` |
| AllRoutesApi.RouteCandidateKeys | src/api/all-routes.ts:8-39 | the route candidates carry the eleven keys in source order |
| AllRoutesApi.RouteParams | src/api/all-routes.ts:8-39 | the parameters are the guarded appends of the route candidates |
| AllRoutesApi.RouteParamsLayout | src/api/all-routes.ts:8-39 | `api_key` comes first; each key is present with a value iff its prop is truthy with that value; the keys follow the fixed order |
| AllRoutesApi.ZeroDirectionIsOmitted | src/api/all-routes.ts:31-33 | direction 0 is falsy, so `filter[direction_id]` is left out |
| AllRoutesApi.GetRoutes | src/api/all-routes.ts:7-53 | fails with `HTTP error! status: <status>` iff the answer is not ok; otherwise returns the body |
| AllRoutesApi.PatternCandidateKeys | src/api/all-routes.ts:56-90 | the pattern candidates carry the twelve keys in source order |
| AllRoutesApi.PatternParams | src/api/all-routes.ts:56-90 | the parameters are the guarded appends of the pattern candidates |
| AllRoutesApi.PatternParamsLayout | src/api/all-routes.ts:56-90 | `api_key` comes first; each key is present iff its prop is truthy; `filter[canonical]` is present, as `true`, iff the flag is true; the keys follow the fixed order |
| AllRoutesApi.KeySetSnoc | src/api/all-routes.ts:107 | adding one pattern adds exactly its key, the id minus its last two characters |
| AllRoutesApi.PatternKey | src/api/all-routes.ts:107 | the key is the id without its last two characters, and empty for an id shorter than two |
| AllRoutesApi.FirstPerKey | src/api/all-routes.ts:103-115 | the result is no longer than the input, and the first pattern is always kept |
| AllRoutesApi.DedupePatterns | src/api/all-routes.ts:103-115 | the loop over the patterns with its set of seen keys computes `FirstPerKey` |
| AllRoutesApi.FirstPerKeyCoversKeys | src/api/all-routes.ts:108-112 | every key in the input appears in the output and no other |
| AllRoutesApi.FirstPerKeyDistinct | src/api/all-routes.ts:105-113 | the output's keys are pairwise distinct |
| AllRoutesApi.FirstPerKeyIsSubsequence | src/api/all-routes.ts:106 | the output is an order-preserving subsequence of the input |
| AllRoutesApi.FirstPerKeyKeepsFirst | src/api/all-routes.ts:108-112 | every kept pattern is the first input pattern with its key |
| AllRoutesApi.BothDirectionsCollapse | src/api/all-routes.ts:107 | `Red-1-0`, `Red-1-1`, `Red-3-0` dedupe to the first and the third |
| AllRoutesApi.GetRoutePatterns | src/api/all-routes.ts:55-117 | fails with the HTTP error text iff the answer is not ok; otherwise returns the first pattern per key |
| MbtaMap.Prefixed | src/components/MBTAMap.tsx:64 | the colour becomes `#` followed by the old colour; nothing else changes |
| MbtaMap.PrefixColors | src/components/MBTAMap.tsx:63-65 | every route in the array is prefixed exactly once, in place |
| MbtaMap.TripsOf | src/components/MBTAMap.tsx:68-70 | a trip is selected iff it is among the included items |
| MbtaMap.ShapesOf | src/components/MBTAMap.tsx:72-74 | a shape is selected iff it is among the included items |
| MbtaMap.TripsKeepOrder | src/components/MBTAMap.tsx:68-70 | the trips are exactly the trip items, in included order |
| MbtaMap.ShapesKeepOrder | src/components/MBTAMap.tsx:72-74 | the shapes are exactly the shape items, in included order |
| MbtaMap.Annotated | src/components/MBTAMap.tsx:78-90 | fails iff no trip references the shape id, with the `No trip found for shape ID …}` text; otherwise only the colour may change |
| MbtaMap.AnnotatedByFirstTripAndRoute | src/components/MBTAMap.tsx:82-87 | the colour comes from the first route whose id is the route of the first trip referencing the shape |
| MbtaMap.AnnotatedWithoutRoute | src/components/MBTAMap.tsx:84-87 | a shape with a trip but no matching route keeps its properties, so it gets no colour |
| MbtaMap.FindIsFirst | src/components/MBTAMap.tsx:82 | `find` returns the first element that satisfies the predicate |
| MbtaMap.AnnotateAll | src/components/MBTAMap.tsx:77-91 | the annotation keeps the number of features |
| MbtaMap.AnnotateAllSucceeds | src/components/MBTAMap.tsx:77-91 | when every shape has a trip there is no error and each feature is its own annotation |
| MbtaMap.AnnotateAllStops | src/components/MBTAMap.tsx:88-90 | the first shape without a trip raises its error; the features before it are annotated and the rest are untouched |
| MbtaMap.AnnotateAllErrorIff | src/components/MBTAMap.tsx:77-91 | there is no error iff every shape has a trip |
| MbtaMap.AnnotateFeatures | src/components/MBTAMap.tsx:77-91 | the in-place loop leaves the array and the error as `AnnotateAll` of the old contents |
| MbtaMap.PublishedColours | src/components/MBTAMap.tsx:63-94 | what is published is the prefixed routes and one line per included shape, whose colour is absent or that of a published route |
| MbtaMap.PublishedShapesHaveTrips | src/components/MBTAMap.tsx:82-94 | a publish happens only when every included shape is referenced by some included trip |
| MbtaMap.PublishedColoursArePrefixed | src/components/MBTAMap.tsx:63-94 | every colour on a published shape starts with `#` |
| MbtaMap.PresetName | src/components/MBTAMap.tsx:135-145 | every preset name is non-empty |
| MbtaMap.PresetNamesDistinct | src/components/MBTAMap.tsx:135-145 | two presets have the same name iff they are the same preset |
| MbtaMap.LightPreset | src/components/MBTAMap.tsx:133-145 | dawn iff dawn−20 min ≤ t < sunrise; day iff not dawn and sunrise+20 min ≤ t < sunset−20 min; dusk iff neither and sunset−20 min ≤ t < dusk; night otherwise |
| MbtaMap.NightAfterSunrise | src/components/MBTAMap.tsx:136-144 | a time in the 20 minutes after sunrise, before sunset−20 min, is classed as night |
| MbtaMap.PresetOnOrdinaryDay | src/components/MBTAMap.tsx:139-142 | with ordered sun times, the day and dusk windows give day and dusk |
| MbtaMap.NextPreset | src/components/MBTAMap.tsx:147-150 | an empty current preset stays empty; otherwise the result is the computed preset |
| MbtaMap.NextPresetIdempotent | src/components/MBTAMap.tsx:147-150 | a second render at the same time writes nothing new |
| MbtaMap.MapState.constructor | src/components/MBTAMap.tsx:39-42 | the map starts with no routes and no shapes and the given preset |
| MbtaMap.FetchSpec | src/components/MBTAMap.tsx:55-96 | a failed response is rethrown; nothing is published exactly when the answer has no `included`; a publish carries the prefixed routes |
| MbtaMap.MapState.FetchRoutes | src/components/MBTAMap.tsx:55-96 | routes and shapes are published as `FetchSpec` says: nothing without `included`, nothing on an error, otherwise both |
| MbtaMap.MapState.OnRender | src/components/MBTAMap.tsx:133-150 | the preset becomes `NextPreset`; the write happens iff the current preset is non-empty and differs from the computed one |
| VehiclePopup.StatusLabel | src/components/VehiclePopup.tsx:111-119 | `STOPPED_AT`, `IN_TRANSIT_TO` and `INCOMING_AT` map to their labels, each iff; any other status gives no label |
| VehiclePopup.RouteHeading | src/components/VehiclePopup.tsx:132 | the heading is the route plus ` Bus` iff the route is all digits, else the route |
| VehiclePopup.BusHeadingRecoversRoute | src/components/VehiclePopup.tsx:132 | a bus heading is the route followed by ` Bus`, so the route can be read back |
| VehiclePopup.BusHeadingsDistinct | src/components/VehiclePopup.tsx:132 | two digit routes with the same heading are the same route |
| VehiclePopup.DirectionLabel | src/components/VehiclePopup.tsx:138 | `Outbound` iff the direction is `0`, else `Inbound` |
| VehiclePopup.StopHeading | src/components/VehiclePopup.tsx:146 | `Stop:` iff the label is `Stopped at`, else `Next Stop:` |
| VehiclePopup.StopHeadingOfStatus | src/components/VehiclePopup.tsx:111-146 | the stop heading is `Stop:` iff the status is `STOPPED_AT` |
| VehiclePopup.EtaText | src/components/VehiclePopup.tsx:152 | a truthy arrival time is formatted; otherwise `N/A` |
| VehiclePopup.Render | src/components/VehiclePopup.tsx:90-109 | loading first, then error, then nothing when the stop or the prediction is missing; the content has the heading, direction, label, stop heading, stop name and ETA |
| VehiclePopup.ContentIffSettled | src/components/VehiclePopup.tsx:90-109 | content is shown iff loading is over, there is no error and both answers are present |
| Alerts.AlertVariant | src/components/Alerts.tsx:88 | warning iff severity ≤ 7, else critical |
| Alerts.AlertIcon | src/components/Alerts.tsx:91-95 | the triangle iff 4 < severity ≤ 7, else the circle |
| Alerts.VariantAndIcon | src/components/Alerts.tsx:88-95 | a triangle is always a warning, a critical alert always has the circle, and low severities are circled warnings |
| Alerts.AlertItems | src/components/Alerts.tsx:85-98 | one item per alert, in order, with that alert's variant, icon and header |
| Alerts.BadgeText | src/components/Alerts.tsx:155-162 | no badge iff the count is 0; `99+` iff the count is over 99; otherwise decimal digits whose value is the count |
| Alerts.BadgeFits | src/components/Alerts.tsx:160 | a shown badge has one to three characters |
| Alerts.IsMobile | src/components/Alerts.tsx:45-49 | mobile iff more than one touch point or a width of at most 640 |
| Alerts.Render | src/components/Alerts.tsx:53-162 | the count is the number of alerts, the heading shows it, the items are the alert items, and the badge is `BadgeText` of the count, present iff there is an alert |
| Alerts.HeadingShowsCount | src/components/Alerts.tsx:53 | the count can be read back from the heading |
| Strings.NatToStringRoundTrip | src/api/shapes.ts:17 | the decimal text of a count is digits whose value is the count |
| Strings.IntToStringInjective | src/api/shapes.ts:17 | different numbers give different decimal texts |
| Strings.IntToString | src/api/shapes.ts:17 | `toString` of an integer: non-empty decimal digits, led by `-` exactly for a negative number |
| Seqs.FilterCounts | src/components/layers/MBTA/MBTAStreamLayer.tsx:77 | `filter` keeps each passing element exactly as often as it occurs and drops every other one |
| Strings.IncludesIffOccurs | src/helpers/dedupe-linestrings.ts:13 | `includes` holds iff the needle occurs at some position |
| Strings.Includes | src/helpers/dedupe-linestrings.ts:13 | `includes` holds only when the needle is no longer than the string; `IncludesIffOccurs` gives its meaning |

## Left out

- The `EventSource` transport, `postMessage` delivery and the Comlink `wrap`/`proxy` relay. These are I/O and cross-context messaging. The transport is a flag, the outbox is a sequence, and a worker message reaches the layer as a `Message` value. The consumer calls `startStreaming`/`stopStreaming` (src/components/layers/MBTA/MBTAStreamLayer.tsx:118, 130). These functions are not part of the worker file, so no relay between them and `onmessage` is modelled.
- `JSON.parse` is the parameter `parse`. The shape of a parsed event is `EventData`: a record list, one record, or a removal id. Other JSON shapes are not modelled.
- Polyline decoding (`@mapbox/polyline`) is the parameter `decode`. Coordinates are copied, never computed, so floating point does not arise. They are modelled as `real`.
- turf's `lineString` throws on fewer than two positions. turf is not part of this model, so a line is always built.
- URL serialization, percent-encoding, the request URL and its headers are left out. `fetch` receives the ordered parameter list, and the answer is a `Response` with `ok`, `status` and the already-parsed JSON body.
- `getRoutes` returns `response.json()`; the model returns the parsed body. For `getRoutePatterns` the body is `json.data` directly.
- Numbers are integers. A non-integer offset, limit or direction is not modelled.
- Toasts, console output, `Date`, `suncalc.getTimes` and the locale formatting of times are not modelled. Formatting is the parameter `format`, and the sun times are inputs.
- The worker posts status payloads as plain strings, but the consumer reads `payload.data`. This affects only a toast and is not modelled.
- Route attributes other than `id` and `color` are not modelled, nor are trip and shape attributes beyond the ids and the polyline.
- The `!feature.properties` check in the annotation loop is not modelled. Every converted shape has properties, so it never throws.
- The thin fetch wrappers are not modelled: src/api/alerts.ts, src/api/stops.ts and src/api/predictions.ts. In VehiclePopup, `fetchStopAndPrediction` and its effect are not modelled either; the popup state they produce is an input to `VehiclePopup.Render`.
- In the alerts panel, fetching the alerts (`getMBTAAlerts` and `use`) is not modelled. The alerts are an input.
- The geolocation and `jumpTo` part of `onRender`, and the image loading of `onLoad`, are not modelled.
- The arguments `fetchRoutes` passes to `getRoutes` are not modelled. `MbtaMap.MapState.FetchRoutes` takes the getRoutes result as its input.
- Rendering (JSX, layer paint), src/components/Map.tsx, src/components/layers/MBTA/MBTARouteLayer.tsx, src/components/ThemeToggle.tsx, src/App.tsx, src/main.tsx and vite.config.ts are not part of this model.
- LightPreset: the sun times are integers. suncalc can return an Invalid Date when the sun never reaches the altitude; `getTime()` is then NaN, every comparison in the chain is false and the preset is `night`. The model cannot express NaN.
- IntToString: it writes plain decimal digits. JavaScript's `toString` switches to exponent notation from 1e21 on, which the model does not follow.
- Strings are sequences of Unicode characters, while JavaScript's `slice(0, -2)` (src/api/all-routes.ts:107) and `includes` (src/helpers/dedupe-linestrings.ts:13) count UTF-16 code units. The two differ on an id ending in a character outside the Basic Multilingual Plane, and the model follows the character count.
- MbtaMap.MapState.FetchRoutes: when `getRoutes` rejects, the returned error stands for the unhandled rejection. React state is a pair of fields, and a later render is not modelled.
