/**
 * One flight observation as the flight-data source reports it. Every field
 * may be missing; a missing attribute and an attribute holding `None` are the
 * same to the alerter, so both are `None` here.
 */
module Flights {
  import opened Wrappers

  datatype Flight = Flight(
    fr24Id: Option<string>,
    callsign: Option<string>,
    lat: Option<real>,
    lon: Option<real>,
    alt: Option<real>,
    altitude: Option<real>,
    spd: Option<real>,
    speed: Option<real>)

  /** The flight identifier with an absent one read as `""`; the alerter treats both as falsy. */
  function IdOf(f: Flight): (id: string)
    ensures id != "" <==> f.fr24Id.Some? && f.fr24Id.value != ""
  {
    f.fr24Id.GetOr("")
  }

  /**
   * Altitude under its primary name `alt`, else under `altitude`: the fallback
   * is taken only when `alt` is absent, so a present zero is kept.
   */
  function AltValue(f: Flight): (v: Option<real>)
    ensures v.None? <==> f.alt.None? && f.altitude.None?
    ensures f.alt.Some? ==> v == f.alt
    ensures f.alt.None? ==> v == f.altitude
  {
    if f.alt.Some? then f.alt else f.altitude
  }

  /** Speed under its primary name `spd`, else under `speed`, with the same fallback rule. */
  function SpdValue(f: Flight): (v: Option<real>)
    ensures v.None? <==> f.spd.None? && f.speed.None?
    ensures f.spd.Some? ==> v == f.spd
    ensures f.spd.None? ==> v == f.speed
  {
    if f.spd.Some? then f.spd else f.speed
  }
}
