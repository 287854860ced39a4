/** The detail-page URL and the one-line alert text broadcast for a flight. */
module AlertFormat {
  import opened Wrappers
  import opened Text
  import opened Flights

  /**
   * How numbers become text, which the model leaves open: `renderNum` is
   * Python's `str()` of an altitude or speed, `render3` is the `:.3f`
   * fixed-point rendering of a coordinate.
   */
  datatype Render = Render(renderNum: real -> string, render3: real -> string)

  const BASE_URL: string := "https://www.flightradar24.com"
  const SEPARATOR: string := " | "
  const UNKNOWN_CALLSIGN: string := "UNKNOWN"
  const MISSING_ID: string := "?"
  /** The aeroplane emoji U+2708 followed by the emoji presentation selector U+FE0F. */
  const MARKER: string := "\U{2708}\U{FE0F}"

  /** The callsign with `None` read as `""`, stripped of surrounding white space. */
  function Callsign(f: Flight): (c: string)
    ensures c == "" <==> f.callsign.None? || AllSpace(f.callsign.value)
  {
    Trim(f.callsign.GetOr(""))
  }

  /** FlightRadar24 page for the flight: callsign and id, else id alone, else the home page. */
  function BuildUrl(f: Flight): (url: string)
    ensures |BASE_URL| <= |url| && url[..|BASE_URL|] == BASE_URL
    ensures url == BASE_URL <==> IdOf(f) == ""
  {
    var callsign := Callsign(f);
    var id := IdOf(f);
    BASE_URL + (if id != "" && callsign != "" then "/" + callsign + "/" + id
                else if id != "" then "/" + id
                else "")
  }

  /** The three URL shapes, stated on the record's own fields. */
  lemma UrlShapes(f: Flight)
    ensures f.fr24Id.Some? && f.fr24Id.value != "" && f.callsign.Some? && !AllSpace(f.callsign.value) ==>
      BuildUrl(f) == BASE_URL + ("/" + Trim(f.callsign.value) + "/" + f.fr24Id.value)
    ensures f.fr24Id.Some? && f.fr24Id.value != "" && (f.callsign.None? || AllSpace(f.callsign.value)) ==>
      BuildUrl(f) == BASE_URL + ("/" + f.fr24Id.value)
    ensures f.fr24Id.None? || f.fr24Id.value == "" ==> BuildUrl(f) == BASE_URL
  {
  }

  /** The callsign as shown in the alert: the stripped callsign, or `UNKNOWN` when that is blank. */
  function CallsignShown(f: Flight): (c: string)
    ensures c != "" && !IsSpace(c[0]) && !IsSpace(c[|c| - 1])
    ensures f.callsign.None? || AllSpace(f.callsign.value) ==> c == UNKNOWN_CALLSIGN
    ensures f.callsign.Some? && !AllSpace(f.callsign.value) ==> c == Trim(f.callsign.value)
  {
    var callsign := Callsign(f);
    if callsign != "" then callsign
    else UnknownNotPadded(); UNKNOWN_CALLSIGN
  }

  lemma UnknownNotPadded()
    ensures UNKNOWN_CALLSIGN != "" && !IsSpace(UNKNOWN_CALLSIGN[0]) && !IsSpace(UNKNOWN_CALLSIGN[|UNKNOWN_CALLSIGN| - 1])
  {
    assert UNKNOWN_CALLSIGN[0] == 'U' && UNKNOWN_CALLSIGN[|UNKNOWN_CALLSIGN| - 1] == 'N';
  }

  /** The identifier as shown in the alert: the id, or `?` when it is absent or empty. */
  function IdShown(f: Flight): (s: string)
    ensures s != ""
    ensures s == MISSING_ID <==> f.fr24Id.None? || f.fr24Id.value in {"", MISSING_ID}
    ensures f.fr24Id.Some? && f.fr24Id.value != "" ==> s == f.fr24Id.value
  {
    if IdOf(f) == "" then MISSING_ID else IdOf(f)
  }

  function Header(f: Flight): string {
    MARKER + " " + CallsignShown(f) + " entered area"
  }

  /** The optional part for an altitude or speed: `name=value` when present, else none. */
  function NumberPart(name: string, v: Option<real>, render: real -> string): (p: seq<string>)
    ensures |p| <= 1
  {
    if v.Some? then [name + render(v.value)] else []
  }

  /** The optional `lat,lon` part, present only when both coordinates are. */
  function CoordsPart(f: Flight, r: Render): (p: seq<string>)
    ensures |p| <= 1
  {
    if f.lat.Some? && f.lon.Some? then [r.render3(f.lat.value) + "," + r.render3(f.lon.value)] else []
  }

  /** The parts of the alert in the order the source appends them. */
  function AlertParts(f: Flight, r: Render): (p: seq<string>)
    ensures |p| == 3 + (if AltValue(f).Some? then 1 else 0) + (if SpdValue(f).Some? then 1 else 0)
                     + (if f.lat.Some? && f.lon.Some? then 1 else 0)
    ensures p[0] == Header(f) && p[1] == "id=" + IdShown(f) && p[|p| - 1] == BuildUrl(f)
    ensures AltValue(f).Some? ==> p[2] == "alt=" + r.renderNum(AltValue(f).value)
  {
    PartsLayout(Header(f), "id=" + IdShown(f), NumberPart("alt=", AltValue(f), r.renderNum),
                NumberPart("spd=", SpdValue(f), r.renderNum), CoordsPart(f, r), BuildUrl(f));
    [Header(f), "id=" + IdShown(f)]
      + NumberPart("alt=", AltValue(f), r.renderNum)
      + NumberPart("spd=", SpdValue(f), r.renderNum)
      + CoordsPart(f, r)
      + [BuildUrl(f)]
  }

  /** Where the fixed parts sit among the optional ones. */
  lemma PartsLayout(h: string, id: string, a: seq<string>, s: seq<string>, c: seq<string>, url: string)
    requires |a| <= 1 && |s| <= 1 && |c| <= 1
    ensures var p := [h, id] + a + s + c + [url];
      && |p| == 3 + |a| + |s| + |c|
      && p[0] == h && p[1] == id && p[|p| - 1] == url
      && (|a| == 1 ==> p[2] == a[0])
  {
  }

  /**
   * The alert text, the parts joined by ` | `: header, id, then altitude,
   * speed and coordinates each only when present, then the URL, every field
   * after the first preceded by the separator.
   */
  function FormatAlert(f: Flight, r: Render): (msg: string)
    ensures msg ==
      Header(f) + SEPARATOR + ("id=" + IdShown(f))
      + OptionalText("alt=", AltValue(f), r.renderNum)
      + OptionalText("spd=", SpdValue(f), r.renderNum)
      + CoordsText(f, r)
      + SEPARATOR + BuildUrl(f)
  {
    JoinedParts(f, r);
    Join(AlertParts(f, r), SEPARATOR)
  }

  lemma JoinedParts(f: Flight, r: Render)
    ensures Join(AlertParts(f, r), SEPARATOR) ==
      Header(f) + SEPARATOR + ("id=" + IdShown(f))
      + OptionalText("alt=", AltValue(f), r.renderNum)
      + OptionalText("spd=", SpdValue(f), r.renderNum)
      + CoordsText(f, r)
      + SEPARATOR + BuildUrl(f)
  {
    assert AlertParts(f, r) == [Header(f), "id=" + IdShown(f)] + NumberPart("alt=", AltValue(f), r.renderNum)
      + NumberPart("spd=", SpdValue(f), r.renderNum) + CoordsPart(f, r) + [BuildUrl(f)];
    JoinAlertParts(Header(f), "id=" + IdShown(f), NumberPart("alt=", AltValue(f), r.renderNum),
                   NumberPart("spd=", SpdValue(f), r.renderNum), CoordsPart(f, r), BuildUrl(f));
    TailTexts(f, r);
  }

  /** ` | name=value` when the value is present, else nothing. */
  function OptionalText(name: string, v: Option<real>, render: real -> string): string {
    if v.Some? then SEPARATOR + name + render(v.value) else ""
  }

  /** ` | lat,lon` when both coordinates are present, else nothing. */
  function CoordsText(f: Flight, r: Render): string {
    if f.lat.Some? && f.lon.Some? then SEPARATOR + r.render3(f.lat.value) + "," + r.render3(f.lon.value) else ""
  }

  /** An optional part as it appears in the joined text: preceded by the separator, or nothing. */
  function Tail(p: seq<string>): string
    requires |p| <= 1
  {
    if p == [] then "" else SEPARATOR + p[0]
  }

  lemma JoinOptional(init: seq<string>, p: seq<string>)
    requires |init| > 0 && |p| <= 1
    ensures Join(init + p, SEPARATOR) == Join(init, SEPARATOR) + Tail(p)
  {
    if p == [] {
      assert init + p == init;
    } else {
      assert p == [p[0]];
      JoinSnoc(init, p[0], SEPARATOR);
    }
  }

  /** Joining the fixed and optional parts, spelled out. */
  lemma JoinAlertParts(h: string, id: string, a: seq<string>, s: seq<string>, c: seq<string>, url: string)
    requires |a| <= 1 && |s| <= 1 && |c| <= 1
    ensures Join([h, id] + a + s + c + [url], SEPARATOR) ==
      h + SEPARATOR + id + Tail(a) + Tail(s) + Tail(c) + SEPARATOR + url
  {
    var p0 := [h, id];
    assert Join(p0, SEPARATOR) == h + SEPARATOR + id by {
      assert p0[1..] == [id];
    }
    JoinOptional(p0, a);
    JoinOptional(p0 + a, s);
    JoinOptional(p0 + a + s, c);
    JoinSnoc(p0 + a + s + c, url, SEPARATOR);
  }

  lemma TailTexts(f: Flight, r: Render)
    ensures Tail(NumberPart("alt=", AltValue(f), r.renderNum)) == OptionalText("alt=", AltValue(f), r.renderNum)
    ensures Tail(NumberPart("spd=", SpdValue(f), r.renderNum)) == OptionalText("spd=", SpdValue(f), r.renderNum)
    ensures Tail(CoordsPart(f, r)) == CoordsText(f, r)
  {
  }

  /** A present altitude of zero is still reported. */
  lemma ZeroAltitudeReported(f: Flight, r: Render)
    requires f.alt == Some(0.0)
    ensures "alt=" + r.renderNum(0.0) in AlertParts(f, r)
  {
  }

  /** A record with only an id: unknown callsign, the id, no optional fields, and the id-only URL. */
  lemma OnlyIdMessage(id: string, r: Render)
    requires id != ""
    ensures FormatAlert(Flight(Some(id), None, None, None, None, None, None, None), r) ==
      (MARKER + " " + UNKNOWN_CALLSIGN + " entered area") + SEPARATOR + ("id=" + id) + SEPARATOR + (BASE_URL + ("/" + id))
  {
    var f := Flight(Some(id), None, None, None, None, None, None, None);
    assert Callsign(f) == "" by { assert AllSpace(""); }
    assert Header(f) == MARKER + " " + UNKNOWN_CALLSIGN + " entered area";
    assert BuildUrl(f) == BASE_URL + ("/" + id);
    assert NumberPart("alt=", AltValue(f), r.renderNum) == [] && NumberPart("spd=", SpdValue(f), r.renderNum) == [];
    assert CoordsPart(f, r) == [];
    assert AlertParts(f, r) == [Header(f), "id=" + id] + [] + [] + [] + [BuildUrl(f)];
    assert AlertParts(f, r) == [Header(f), "id=" + id, BuildUrl(f)];
    JoinThree(Header(f), "id=" + id, BuildUrl(f), SEPARATOR);
  }

  lemma JoinThree(a: string, b: string, c: string, sep: string)
    ensures Join([a, b, c], sep) == a + sep + b + sep + c
  {
    assert [a, b, c][1..] == [b, c];
    assert [b, c][1..] == [c];
    assert Join([b, c], sep) == b + sep + c;
    assert a + sep + (b + sep + c) == a + sep + b + sep + c;
  }

  /**
   * A record with every field present: six parts, with the stripped callsign
   * in the header and in the URL, and altitude and speed under their primary
   * names.
   */
  lemma FullRecordParts(id: string, cs: string, lat: real, lon: real, alt: real, spd: real, r: Render)
    requires id != "" && !AllSpace(cs)
    ensures AlertParts(Flight(Some(id), Some(cs), Some(lat), Some(lon), Some(alt), None, Some(spd), None), r) ==
      [MARKER + " " + Trim(cs) + " entered area", "id=" + id, "alt=" + r.renderNum(alt), "spd=" + r.renderNum(spd),
       r.render3(lat) + "," + r.render3(lon), BASE_URL + ("/" + Trim(cs) + "/" + id)]
  {
    var f := Flight(Some(id), Some(cs), Some(lat), Some(lon), Some(alt), None, Some(spd), None);
    assert Callsign(f) == Trim(cs);
    assert NumberPart("alt=", AltValue(f), r.renderNum) == ["alt=" + r.renderNum(alt)];
    assert NumberPart("spd=", SpdValue(f), r.renderNum) == ["spd=" + r.renderNum(spd)];
    assert CoordsPart(f, r) == [r.render3(lat) + "," + r.render3(lon)];
  }
}
