/**
 * One cycle of the monitoring loop: query the flights in the bounding box,
 * keep those in the circle, alert the new ones.
 */
module Monitor {
  import opened Wrappers
  import opened Flights
  import opened Geofence
  import opened AlertFormat
  import opened Dedup

  /**
   * What the positions query gave: an exception, which the loop catches, or
   * a response whose `data` attribute may be missing.
   */
  datatype Response = QueryFailed | Answer(data: Option<seq<Flight>>)

  /** The records of a cycle that reach the alert loop. */
  function CycleInside(response: Response, haversine: Distance, fence: Circle): (inside: seq<Flight>)
    ensures response.QueryFailed? || response.data.None? ==> inside == []
    ensures forall k :: 0 <= k < |inside| ==>
      && response.Answer? && response.data.Some? && inside[k] in response.data.value
      && inside[k].lat.Some? && inside[k].lon.Some?
      && IsInsideCircle(haversine, fence, inside[k].lat.value, inside[k].lon.value)
  {
    match response
    case QueryFailed => []
    case Answer(data) => FlightsInCircle(data, InsideTest(haversine, fence))
  }

  /**
   * One cycle. A failed query leaves everything as it was; otherwise the
   * records in the circle go through the alert loop, which is skipped when
   * there are none.
   */
  method PollCycle(log: AlertLog, iface: MeshInterface, response: Response, fence: Circle,
                   haversine: Distance, r: Render, channel: nat)
    requires log.Valid()
    modifies log, iface
    ensures log.Valid()
    ensures log.State(iface) == Run(old(log.State(iface)), CycleInside(response, haversine, fence), iface.accepts, r, channel)
  {
    match response
    case QueryFailed =>
    case Answer(data) =>
      var inside := FlightsInCircle(data, InsideTest(haversine, fence));
      if |inside| > 0 {
        log.ProcessAlerts(iface, inside, r, channel);
      }
  }

  /**
   * The ids a cycle alerts for: exactly the non-empty ids of records inside
   * the circle that were not alerted before the cycle.
   */
  lemma CycleAlertsNewInside(s: DedupState, fs: seq<Flight>, haversine: Distance, fence: Circle,
                             accepts: nat -> bool, r: Render, channel: nat, x: string)
    requires ValidState(s)
    ensures var t := Run(s, CycleInside(Answer(Some(fs)), haversine, fence), accepts, r, channel);
      |s.sent| <= |t.sent| &&
      (x in t.sent[|s.sent|..] <==>
        x != "" && x !in s.alerted && exists f :: f in fs && Keep(f, InsideTest(haversine, fence)) && IdOf(f) == x)
  {
    var inside := CycleInside(Answer(Some(fs)), haversine, fence);
    FlightsInCirclePresent(fs, InsideTest(haversine, fence));
    RunNewlySent(s, inside, accepts, r, channel, x);
    BatchIdsMembers(inside, x);
    if x != "" && exists f :: f in fs && Keep(f, InsideTest(haversine, fence)) && IdOf(f) == x {
      var f :| f in fs && Keep(f, InsideTest(haversine, fence)) && IdOf(f) == x;
      FilterMembership(fs, InsideTest(haversine, fence), f);
      var k :| 0 <= k < |inside| && inside[k] == f;
      assert IdOf(inside[k]) == x;
    }
    if x in BatchIds(inside) {
      var k :| 0 <= k < |inside| && IdOf(inside[k]) == x;
      FilterMembership(fs, InsideTest(haversine, fence), inside[k]);
    }
  }

  /**
   * A fresh alerter watching the 15 km circle sees the same two records on
   * two cycles, one inside the circle with an id and one outside. The first
   * cycle makes one send attempt, for the inside record, and the second none;
   * the only packet ever delivered is that record's alert, if the link took it.
   */
  method TwoCycles(haversine: Distance, centerLat: real, centerLon: real, near: Flight, far: Flight,
                   r: Render, accepts: nat -> bool)
    returns (first: nat, second: nat, packets: seq<Packet>, ghost ids: seq<string>)
    requires near.lat.Some? && near.lon.Some? && IdOf(near) != ""
    requires IsInsideCircle(haversine, Circle(centerLat, centerLon, RADIUS_KM), near.lat.value, near.lon.value)
    requires far.lat.Some? && far.lon.Some?
    requires !IsInsideCircle(haversine, Circle(centerLat, centerLon, RADIUS_KM), far.lat.value, far.lon.value)
    ensures first == 1 && second == 0
    ensures packets == if accepts(0) then [AlertPacket(near, r, DEFAULT_CHANNEL_INDEX)] else []
    ensures ids == [IdOf(near)]
  {
    var fence := Circle(centerLat, centerLon, RADIUS_KM);
    var log := new AlertLog();
    var iface := new MeshInterface(accepts);
    var response := Answer(Some([near, far]));
    assert CycleInside(response, haversine, fence) == [near] by {
      FlightsInCirclePresent([near, far], InsideTest(haversine, fence));
      assert [near, far][1..] == [far];
    }
    assert Run(log.State(iface), [near], accepts, r, DEFAULT_CHANNEL_INDEX)
        == Step(log.State(iface), near, accepts, r, DEFAULT_CHANNEL_INDEX) by {
      assert [near][..0] == [];
    }
    PollCycle(log, iface, response, fence, haversine, r, DEFAULT_CHANNEL_INDEX);
    first := iface.attempts;
    ghost var afterFirst := log.State(iface);
    assert IdOf(near) in afterFirst.alerted;
    PollCycle(log, iface, response, fence, haversine, r, DEFAULT_CHANNEL_INDEX);
    assert log.State(iface) == afterFirst;
    second := iface.attempts - first;
    packets := iface.delivered;
    ids := log.sent;
  }
}
