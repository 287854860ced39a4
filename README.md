# radar.py geofence alerter, modelled in Dafny

`radar.py` polls a flight-positions service for aircraft in a small rectangle
around a fixed centre. It keeps those whose position lies within 15 km of the
centre. For each one not alerted before, it broadcasts a one-line text
over a Meshtastic radio mesh. The set of alerted FlightRadar24 ids lives as
long as the process. An id is recorded even when the broadcast fails, so
there is at most one attempt per id.

The model has these modules:

- `Wrappers`: `Option`, for the attributes the source reads with `getattr(…, None)`.
- `Text`: `Trim`, Python's `str.strip()` with Python's set of white-space characters; `Join`, `str.join`.
- `Flights`: the observation record and the field fallbacks (`alt`/`altitude`, `spd`/`speed`; a falsy id).
- `Geofence`: the inside-circle test over an abstract distance function, the filter over a possibly absent payload, and the query rectangle.
- `AlertFormat`: the FlightRadar24 URL and the alert text.
- `Dedup`: the radio link (`MeshInterface`), the alerted-id log (`AlertLog`) and its alert loop. The loop is proved against a reference model: `Step` is one iteration and `Run` is a whole batch.
- `Monitor`: one cycle of the polling loop, plus a two-cycle client of it.

Things the program takes from outside are parameters of the model:

- the haversine distance, a `Distance` function;
- the rendering of numbers as text, a `Render` value;
- the success of each radio send, the link's `accepts` oracle indexed by attempt number;
- the query result, a `Response`.

## Model

| member | source | states |
|---|---|---|
| Text.Trim | radar.py:92 | the stripped callsign is empty exactly when the input is all white space; otherwise it neither starts nor ends with white space |
| Text.TrimIsSlice | radar.py:92 | stripping removes only white space, and only from the two ends: the result is a contiguous slice of the input |
| Text.TrimIdempotent | radar.py:92 | stripping twice is stripping once |
| Text.JoinShape | radar.py:129 | the join of no parts is empty; otherwise it starts with the first part and is as long as all parts plus one separator between each two |
| Text.JoinSnoc | radar.py:129 | joining one more part appends the separator and that part |
| Flights.IdOf | radar.py:152-153 | the id read as text is non-empty exactly when the attribute is present and non-empty (Python truthiness) |
| Flights.AltValue | radar.py:109-111 | `alt` wins when present; `altitude` is read only when `alt` is absent; absent only when both are |
| Flights.SpdValue | radar.py:113-115 | `spd` wins when present; `speed` is read only when `spd` is absent; absent only when both are |
| Geofence.BoundaryIsInside | radar.py:52-53 | a point exactly at the radius counts as inside (`<=`) |
| Geofence.BeyondRadiusIsOutside | radar.py:52-53 | a point farther than the radius is outside |
| Geofence.InsideGrowsWithRadius | radar.py:52-53 | widening the circle about the same centre keeps every inside point inside |
| Geofence.FilterInside | radar.py:59-63 | every record yielded is one of the input's and has both coordinates inside; never more records than given |
| Geofence.FlightsInCircle | radar.py:55-58 | no payload, or an empty one, yields nothing |
| Geofence.FlightsInCirclePresent | radar.py:55-63 | a present payload is filtered in full |
| Geofence.FilterMembership | radar.py:59-63 | a record is yielded iff it is in the input, has both coordinates and is inside |
| Geofence.FilterAppend | radar.py:59-63 | filtering distributes over concatenation, so input order is kept |
| Geofence.FilterCount | radar.py:59-63 | each record is yielded as many times as it occurs if kept, never if not |
| Geofence.FilterKeepsAllKept | radar.py:59-63 | a list of kept records passes unchanged |
| Geofence.FilterIdempotent | radar.py:59-63 | filtering the filtered list changes nothing |
| Geofence.MakeBounds | radar.py:68-72 | north−south is twice the latitude delta, east−west twice the longitude delta, and the centre is the midpoint of both |
| Geofence.DefaultBounds | radar.py:68-75 | the default rectangle is one degree either side of the centre |
| Geofence.BoundsFields | radar.py:73 | the query string carries four values: north, south, west, east |
| Geofence.BoundsContainCenter | radar.py:68-72 | with positive deltas, north > south, east > west and the centre is strictly inside |
| Geofence.NegativeDeltaInverts | radar.py:68-72 | a negative latitude delta puts north below south, a negative longitude delta puts east west of west, and either leaves the centre outside the open rectangle |
| Geofence.BoundsRoundTrip | radar.py:68-72 | every rectangle is rebuilt from its own centre and deltas |
| AlertFormat.Callsign | radar.py:92 | the callsign is blank exactly when absent or all white space |
| AlertFormat.BuildUrl | radar.py:85-99 | the URL always starts with the site address and is the bare home page exactly when the id is absent or empty |
| AlertFormat.UrlShapes | radar.py:95-99 | callsign and id give `/callsign/id`; id alone gives `/id`; no id gives the home page |
| AlertFormat.CallsignShown | radar.py:102 | the stripped callsign, or `UNKNOWN` when that is blank; never empty, never padded |
| AlertFormat.IdShown | radar.py:103 | the id, or `?` when absent or empty; never empty |
| AlertFormat.NumberPart | radar.py:120-123 | an altitude or speed contributes at most one part |
| AlertFormat.CoordsPart | radar.py:124-125 | the coordinates contribute at most one part |
| AlertFormat.AlertParts | radar.py:119-126 | header first, id second, URL last, altitude right after the id when present; three parts plus one per present optional field |
| AlertFormat.FormatAlert | radar.py:101-129 | the alert is header, id, then altitude, speed and coordinates each only when present, then the URL, separated by ` \| ` |
| AlertFormat.ZeroAltitudeReported | radar.py:120-121 | an altitude of zero is present, so it is reported |
| AlertFormat.OnlyIdMessage | radar.py:101-129 | a record with only an id gives `UNKNOWN`, the id and the `/id` URL, with no other field |
| AlertFormat.FullRecordParts | radar.py:101-129 | a complete record gives six parts in order, with the stripped callsign in the header and the URL |
| Dedup.AlertPacket | radar.py:139-144 | alerts go to every node (`^all`), without acknowledgment, on the configured channel |
| Dedup.MeshInterface.SendText | radar.py:139-144 | one attempt per call; the packet is delivered iff the link accepts that attempt |
| Dedup.SendAlert | radar.py:134-147 | one send attempt; the formatted alert is delivered iff accepted; a failure does not reach the caller |
| Dedup.BatchIdsMembers | radar.py:151-153 | the batch ids are exactly the non-empty ids occurring in the batch |
| Dedup.Step | radar.py:152-159 | one record adds its id to the alerted set when the id is non-empty, and changes the state exactly when it is non-empty and not yet alerted |
| Dedup.Run | radar.py:151-159 | after a batch the alerted set is the old one plus every non-empty id of the batch, whatever the send outcomes; nothing is removed |
| Dedup.BatchIdsAppend | radar.py:151-153 | the ids of two batches together are the union of their ids |
| Dedup.RunPreservesValid | radar.py:151-159 | a whole batch keeps the log's invariant: the dispatch log has no repeats, its ids are exactly the alerted set, and the empty id is never alerted; so no id is ever dispatched twice |
| Dedup.RunDeliveredAlerts | radar.py:151-159 | every packet a batch delivers is the alert for a record of the batch that was new when the batch began and is the first record with its id |
| Dedup.RunExtends | radar.py:151-159 | earlier dispatches and deliveries are kept; each dispatch is exactly one send attempt; deliveries never outnumber dispatches |
| Dedup.RunNewlySent | radar.py:151-159 | an id is dispatched by the batch iff it is a non-empty id of the batch not alerted beforehand |
| Dedup.RunAlreadyAlerted | radar.py:153-156 | a batch whose ids are all alerted already changes nothing |
| Dedup.RunRepeatIsIdle | radar.py:151-159 | processing the same batch again dispatches nothing and changes nothing |
| Dedup.RunAppend | radar.py:80 | two batches in a row act as their concatenation, since the alerted set persists across calls |
| Dedup.RunAllSendsFail | radar.py:146-147 | when every send fails nothing is delivered, yet every non-empty id is still marked alerted |
| Dedup.AlertLog.constructor | radar.py:80 | the alerted set starts empty |
| Dedup.AlertLog.Dispatch | radar.py:158-159 | keeps the log's invariant; sends the alert, then records the id, whatever the outcome: the new state is one reference step |
| Dedup.AlertLog.ProcessAlerts | radar.py:150-159 | keeps the invariant; the new alerted set, dispatch log, attempt count and delivered packets are those of the reference run over the batch |
| Monitor.CycleInside | radar.py:169-175 | a failed query or a missing payload gives nothing; what reaches the alert loop is from the payload, with both coordinates inside the circle |
| Monitor.PollCycle | radar.py:166-182 | keeps the invariant; the cycle's effect is the reference run over the records inside the circle; a failed query changes nothing |
| Monitor.CycleAlertsNewInside | radar.py:174-176 | a cycle dispatches exactly the non-empty ids of records inside the circle not alerted before |
| Monitor.TwoCycles | radar.py:166-176 | with the 15 km circle, a record inside seen on two cycles gets one attempt, on the first cycle; the dispatched ids are exactly its id; the only packet delivered, if the link took it, is its alert; the record outside is never sent |

## Left out

- The haversine formula and floating-point arithmetic (radar.py:44-50). Distance is a parameter, and coordinates, deltas and the radius are exact reals.
- How numbers are rendered: `str()` of altitude and speed, and `:.3f` of coordinates (radar.py:121-125). These are the parameters `Render.renderNum` and `Render.render3`.
- The bounds string itself (radar.py:73). `Geofence.BoundsFields` gives the four values in order; how reals are written as text is not modelled.
- Geofence.BoundsFields: states only the number of values. The order north, south, west, east is only its body.
- Environment and configuration parsing, and the exit on missing variables (radar.py:22-39). The channel is a parameter, with `Dedup.DEFAULT_CHANNEL_INDEX` = 2. The centre is the placeholder in radar.py:16-17, so the circle is a parameter; `Geofence.RADIUS_KM` = 15 is the radius `Monitor.TwoCycles` uses.
- The FlightRadar24 client and its query (radar.py:162, 169-172). Its outcome is `Monitor.Response`. The three requested categories and the 60-second poll interval are not modelled.
- The Meshtastic TCP connection, the settle sleep, `close()` on exit, and what happens to a packet after `sendText` accepts it. The only model of the link is whether each attempt is accepted.
- The endless `while` loop, every `sleep` and all logging (radar.py:161-185). A cycle is one `Monitor.PollCycle`; a run is a sequence of them, joined by `Dedup.RunAppend`.
- Exceptions raised by `format_alert` before the `try` in `send_alert` (radar.py:135). With typed fields, formatting cannot fail here.
- Python's truthiness test on a non-list payload (radar.py:56). A generator object is always truthy; the payload is modelled as a list, which is what the query returns.
- Non-string ids. The model types ids as text, so a falsy id is exactly the empty string.
- The literal text of a complete alert. Number rendering is a parameter, so `AlertFormat.FullRecordParts` states the parts symbolically.
- One might expect north above south, east east of west and the centre strictly inside for any nonzero delta. The code guarantees this only for positive deltas (`Geofence.BoundsContainCenter`). A negative delta swaps the sides (`Geofence.NegativeDeltaInverts`), and the model follows the code.
