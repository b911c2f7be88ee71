/** The three deserializers of platformio/src/api_response.cpp. Each one
    takes the parser's outcome (the parser is the document library, given
    here as a parameter), returns the parser's error without touching the
    record, or fills the caller's record in place and returns Ok. */
module Deserialize {
  import opened Wrappers
  import opened Ints
  import opened Json
  import opened Records
  import opened Extract
  import opened FieldSelector
  import opened NearestEvent

  /** `deserializeOneCall`, lines 39-221. `parse` is the library's parse of
      the response under a filter. On success the location and current
      conditions are overwritten; the first min(n, 48) hourly and min(n, 8)
      daily elements fill slots 0.. of their arrays, and later slots keep
      what they held; with alerts displayed, up to 8 alerts are appended
      to the list, which is never cleared. */
  method DeserializeOneCall(parse: Json -> Result<Json, ParseError>, r: OneCallResponse, displayAlerts: bool)
    returns (error: DeserializationError)
    requires r.Valid()
    modifies r, r.hourly, r.daily
    ensures r.Valid()
    ensures parse(OneCallFilter(displayAlerts)).Failure? ==>
      && error == parse(OneCallFilter(displayAlerts)).error
      && unchanged(r) && unchanged(r.hourly) && unchanged(r.daily)
    ensures parse(OneCallFilter(displayAlerts)).Success? ==>
      var doc := parse(OneCallFilter(displayAlerts)).value;
      && error == Ok
      && r.lat == AsFloat(Get(doc, "lat")) && r.lon == AsFloat(Get(doc, "lon"))
      && r.timezone == AsText(Get(doc, "timezone"))
      && r.timezoneOffset == AsInt32(Get(doc, "timezone_offset"))
      && r.current == ExtractCurrent(Get(doc, "current"))
      && r.hourly[..] == Overlay(old(r.hourly[..]), MapSeq(ExtractHourly, Elements(Get(doc, "hourly"))))
      && r.daily[..] == Overlay(old(r.daily[..]), MapSeq(ExtractDaily, Elements(Get(doc, "daily"))))
      && r.alerts == AppendedAlerts(old(r.alerts), Get(doc, "alerts"), displayAlerts)
  {
    var filter := BuildOneCallFilter(displayAlerts);
    var parsed := parse(filter);
    if parsed.Failure? {
      return parsed.error;
    }
    var doc := parsed.value;

    StoreLocationAndCurrent(r, doc);
    FillSlots(r.hourly, Elements(Get(doc, "hourly")), ExtractHourly);
    FillSlots(r.daily, Elements(Get(doc, "daily")), ExtractDaily);
    if displayAlerts {
      AppendAlerts(r, Elements(Get(doc, "alerts")));
    }
    return Ok;
  }

  /** Lines 80-106: the location fields and the current conditions are
      overwritten; the alert list is not touched. */
  method StoreLocationAndCurrent(r: OneCallResponse, doc: Json)
    modifies r
    ensures r.lat == AsFloat(Get(doc, "lat")) && r.lon == AsFloat(Get(doc, "lon"))
    ensures r.timezone == AsText(Get(doc, "timezone"))
    ensures r.timezoneOffset == AsInt32(Get(doc, "timezone_offset"))
    ensures r.current == ExtractCurrent(Get(doc, "current"))
    ensures r.alerts == old(r.alerts)
  {
    r.lat := AsFloat(Get(doc, "lat"));
    r.lon := AsFloat(Get(doc, "lon"));
    r.timezone := AsText(Get(doc, "timezone"));
    r.timezoneOffset := AsInt32(Get(doc, "timezone_offset"));
    r.current := ExtractCurrent(Get(doc, "current"));
  }

  /** The hourly loop (lines 122-151) and the daily loop (lines 153-197):
      element i of the document fills slot i of the fixed array, through
      `extract`, and the loop stops after the last slot. */
  method FillSlots<T>(slots: array<T>, src: seq<Json>, extract: Json -> T)
    requires 0 < slots.Length
    modifies slots
    ensures slots[..] == Overlay(old(slots[..]), MapSeq(extract, src))
  {
    var i := 0;
    while i < |src|
      invariant 0 <= i <= |src| && i < slots.Length
      invariant forall k :: 0 <= k < slots.Length ==>
        slots[k] == if k < i then extract(src[k]) else old(slots[k])
    {
      slots[i] := extract(src[i]);
      if i == slots.Length - 1 {
        break;
      }
      i := i + 1;
    }
  }

  /** The alert loop, lines 200-217: each of the first eight alerts is
      appended to the list. */
  method AppendAlerts(r: OneCallResponse, src: seq<Json>)
    modifies r
    ensures r.alerts == old(r.alerts) + MapSeq(ExtractAlert, src[..Min(|src|, NUM_ALERTS)])
    ensures r.lat == old(r.lat) && r.lon == old(r.lon) && r.timezone == old(r.timezone)
    ensures r.timezoneOffset == old(r.timezoneOffset) && r.current == old(r.current)
  {
    var i := 0;
    while i < |src|
      invariant 0 <= i <= |src| && i < NUM_ALERTS
      invariant r.alerts == old(r.alerts) + MapSeq(ExtractAlert, src[..i])
      invariant r.lat == old(r.lat) && r.lon == old(r.lon) && r.timezone == old(r.timezone)
      invariant r.timezoneOffset == old(r.timezoneOffset) && r.current == old(r.current)
    {
      var newAlert := ExtractAlert(src[i]);
      r.alerts := r.alerts + [newAlert];
      if i == NUM_ALERTS - 1 {
        assert src[..i] + [src[i]] == src[..Min(|src|, NUM_ALERTS)];
        break;
      }
      assert src[..i] + [src[i]] == src[..i + 1];
      i := i + 1;
    }
  }

  /** `deserializeAirQuality`, lines 223-270 (no filter). On success the
      coordinate is overwritten, and for k < min(n, 24) slot k of every
      parallel array comes from the same sample k; later slots keep what
      they held. */
  method DeserializeAirQuality(parsed: Result<Json, ParseError>, r: AirPollutionResponse)
    returns (error: DeserializationError)
    requires r.Valid()
    modifies r, r.Repr()
    ensures r.Valid()
    ensures parsed.Failure? ==> error == parsed.error && unchanged(r) && unchanged(r.Repr())
    ensures parsed.Success? ==>
      var doc := parsed.value;
      var list := Elements(Get(doc, "list"));
      && error == Ok
      && r.coord == Coord(AsFloat(Get(Get(doc, "coord"), "lat")), AsFloat(Get(Get(doc, "coord"), "lon")))
      && forall k :: 0 <= k < NUM_AIR_POLLUTION ==>
           r.SampleAt(k) == if k < |list| then ExtractAirSample(list[k]) else old(r.SampleAt(k))
  {
    if parsed.Failure? {
      return parsed.error;
    }
    var doc := parsed.value;

    r.coord := Coord(AsFloat(Get(Get(doc, "coord"), "lat")), AsFloat(Get(Get(doc, "coord"), "lon")));

    FillSamples(r, Elements(Get(doc, "list")));
    return Ok;
  }

  /** The air-quality loop, lines 245-267: sample k fills slot k of every
      parallel array, and the loop stops after the last slot. */
  method FillSamples(r: AirPollutionResponse, list: seq<Json>)
    requires r.Valid()
    modifies r.Repr()
    ensures forall k :: 0 <= k < NUM_AIR_POLLUTION ==>
      r.SampleAt(k) == if k < |list| then ExtractAirSample(list[k]) else old(r.SampleAt(k))
  {
    var i := 0;
    while i < |list|
      invariant 0 <= i <= |list| && i < NUM_AIR_POLLUTION
      invariant forall k :: 0 <= k < NUM_AIR_POLLUTION ==>
        r.SampleAt(k) == if k < i then ExtractAirSample(list[k]) else old(r.SampleAt(k))
    {
      StoreSample(r, i, list[i]);
      if i == NUM_AIR_POLLUTION - 1 {
        break;
      }
      i := i + 1;
    }
  }

  /** One pass of the air-quality loop, lines 248-260: sample `i` fills
      slot `i` of every parallel array, and no other slot changes. */
  method StoreSample(r: AirPollutionResponse, i: nat, sample: Json)
    requires r.Valid() && i < NUM_AIR_POLLUTION
    modifies r.Repr()
    ensures r.SampleAt(i) == ExtractAirSample(sample)
    ensures forall k :: 0 <= k < NUM_AIR_POLLUTION && k != i ==> r.SampleAt(k) == old(r.SampleAt(k))
  {
    var c := r.components;
    r.mainAqi[i] := AsInt32(Get(Get(sample, "main"), "aqi"));
    var components := Get(sample, "components");
    c.co[i] := AsFloat(Get(components, "co"));
    c.no[i] := AsFloat(Get(components, "no"));
    c.no2[i] := AsFloat(Get(components, "no2"));
    c.o3[i] := AsFloat(Get(components, "o3"));
    c.so2[i] := AsFloat(Get(components, "so2"));
    c.pm2_5[i] := AsFloat(Get(components, "pm2_5"));
    c.pm10[i] := AsFloat(Get(components, "pm10"));
    c.nh3[i] := AsFloat(Get(components, "nh3"));
    r.dt[i] := AsInt64(Get(sample, "dt"));
  }

  /** `deserializeUSGSEarthquake`, lines 272-339, with the record type of
      its definition (the declaration in the header names another). `dist`
      is the distance between two (latitude, longitude) points. On success
      the record holds the geometry and the read properties of the earliest
      feature at the least distance below FLT_MAX, its other properties and
      its id as they were; when there is no such feature, in particular
      when there are no features, the record is untouched. */
  method DeserializeUsgsEarthquake(parse: Json -> Result<Json, ParseError>, r: Feature,
                                   myLat: real, myLon: real, dist: (real, real, real, real) -> real)
    returns (error: DeserializationError)
    modifies r
    ensures parse(UsgsFilter()).Failure? ==> error == parse(UsgsFilter()).error && unchanged(r)
    ensures parse(UsgsFilter()).Success? ==>
      var features := Elements(Get(parse(UsgsFilter()).value, "features"));
      var winner := Nearest(Distances(features, myLat, myLon, dist));
      && error == Ok
      && r.id == old(r.id)
      && (winner.None? ==> r.geometry == old(r.geometry) && r.properties == old(r.properties))
      && (winner.Some? ==>
            && winner.value < |features|
            && r.geometry == GeometryOf(features[winner.value])
            && r.properties == UpdateProperties(old(r.properties), Get(features[winner.value], "properties")))
  {
    var filter := BuildUsgsFilter();
    var parsed := parse(filter);
    if parsed.Failure? {
      return parsed.error;
    }
    var doc := parsed.value;

    var minDistance := FLT_MAX;
    var lat := 0.0;
    var lon := 0.0;
    var features := Elements(Get(doc, "features"));
    ghost var ds := Distances(features, myLat, myLon, dist);
    ghost var best: Option<nat> := None;
    var i := 0;
    while i < |features|
      invariant 0 <= i <= |features|
      invariant best == Nearest(ds[..i])
      invariant minDistance == if best.Some? then ds[best.value] else FLT_MAX
      invariant r.id == old(r.id)
      invariant best.None? ==> r.geometry == old(r.geometry) && r.properties == old(r.properties)
      invariant best.Some? ==>
        && r.geometry == GeometryOf(features[best.value])
        && r.properties == UpdateProperties(old(r.properties), Get(features[best.value], "properties"))
    {
      var feature := features[i];
      var coordinates := Get(Get(feature, "geometry"), "coordinates");
      lon := AsFloat(At(coordinates, 0));
      lat := AsFloat(At(coordinates, 1));
      var distance := dist(myLat, myLon, lat, lon);
      NearestStep(ds, i);

      if distance < minDistance {
        minDistance := distance;
        if best.Some? {
          UpdatePropertiesOverwrites(old(r.properties), Get(features[best.value], "properties"), Get(feature, "properties"));
        }
        StoreWinner(r, feature, lat, lon);
        best := Some(i);
      }
      i := i + 1;
    }
    assert ds[..i] == ds;
    return Ok;
  }

  /** Lines 316-332: a winning feature's geometry and the nine properties
      read from it are written; nothing else in the record changes. */
  method StoreWinner(r: Feature, feature: Json, lat: real, lon: real)
    requires lat == LatOf(feature) && lon == LonOf(feature)
    modifies r
    ensures r.geometry == GeometryOf(feature)
    ensures r.properties == UpdateProperties(old(r.properties), Get(feature, "properties"))
    ensures r.id == old(r.id)
  {
    var geometry := Get(feature, "geometry");
    r.geometry := Geometry(lat, lon, AsFloat(Get(geometry, "depth")));
    var properties := Get(feature, "properties");
    r.properties := r.properties.(mag := AsFloat(Get(properties, "mag")));
    r.properties := r.properties.(place := AsText(Get(properties, "place")));
    r.properties := r.properties.(time := AsInt64(Get(properties, "time")));
    r.properties := r.properties.(updated := AsInt64(Get(properties, "updated")));
    r.properties := r.properties.(alert := AsText(Get(properties, "alert")));
    r.properties := r.properties.(status := DecimalText(AsInt64(Get(properties, "status")) as int));
    r.properties := r.properties.(tsunami := ToUInt8(AsInt64(Get(properties, "tsunami")) as int));
    r.properties := r.properties.(dmin := AsFloat(Get(properties, "dmin")));
    r.properties := r.properties.(eventType := AsText(Get(properties, "type")));
  }
}
