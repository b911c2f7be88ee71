/** The Bounded Extractor as values: what one element of the parsed document
    becomes in a record (platformio/src/api_response.cpp), and the
    truncating prefix copy the deserializers perform into a fixed array. */
module Extract {
  import opened Ints
  import opened Json
  import opened Records

  /** `s` with `f` applied to every element. */
  function MapSeq<A, B>(f: A -> B, s: seq<A>): (r: seq<B>)
    ensures |r| == |s|
    ensures forall k :: 0 <= k < |s| ==> r[k] == f(s[k])
  {
    seq(|s|, k requires 0 <= k < |s| => f(s[k]))
  }

  /** The smaller of two naturals. */
  function Min(a: nat, b: nat): nat
  {
    if a < b then a else b
  }

  /** A fixed array `dest` after a loop has copied `src` into it, element k
      into slot k, stopping when either runs out: the first min(|src|, |dest|)
      slots come from `src`, the rest are as they were. */
  function Overlay<T>(dest: seq<T>, src: seq<T>): (r: seq<T>)
    ensures |r| == |dest|
    ensures forall k :: 0 <= k < |dest| ==> r[k] == if k < |src| then src[k] else dest[k]
  {
    if |dest| <= |src| then src[..|dest|] else src + dest[|src|..]
  }

  /** Copying the same source twice leaves what copying it once left. */
  lemma {:induction false} OverlayIdempotent<T>(dest: seq<T>, src: seq<T>)
    ensures Overlay(Overlay(dest, src), src) == Overlay(dest, src)
  {
    var once := Overlay(dest, src);
    var twice := Overlay(once, src);
    assert |twice| == |once|;
    forall k | 0 <= k < |once| ensures twice[k] == once[k] {
    }
  }

  /** A source at least as long as the array leaves nothing of the array's
      prior contents: exactly the first |dest| source elements, in order. */
  lemma {:induction false} OverlayTruncates<T>(dest: seq<T>, src: seq<T>)
    requires |dest| <= |src|
    ensures Overlay(dest, src) == src[..|dest|]
  {
    var r := Overlay(dest, src);
    assert |r| == |src[..|dest|]|;
    forall k | 0 <= k < |r| ensures r[k] == src[..|dest|][k] {
    }
  }

  /** `weather[0]` of a current, hourly or daily element. */
  function ExtractWeather(v: Json): Weather
  {
    var w := At(Get(v, "weather"), 0);
    Weather(AsInt32(Get(w, "id")), AsText(Get(w, "main")), AsText(Get(w, "description")), AsText(Get(w, "icon")))
  }

  /** The `current` object, lines 85-106. */
  function ExtractCurrent(c: Json): Current
  {
    Current(
      AsInt64(Get(c, "dt")), AsInt64(Get(c, "sunrise")), AsInt64(Get(c, "sunset")),
      AsFloat(Get(c, "temp")), AsFloat(Get(c, "feels_like")),
      AsInt32(Get(c, "pressure")), AsInt32(Get(c, "humidity")), AsFloat(Get(c, "dew_point")),
      AsInt32(Get(c, "clouds")), AsFloat(Get(c, "uvi")), AsInt32(Get(c, "visibility")),
      AsFloat(Get(c, "wind_speed")), AsFloat(Get(c, "wind_gust")), AsInt32(Get(c, "wind_deg")),
      AsFloat(Get(Get(c, "rain"), "1h")), AsFloat(Get(Get(c, "snow"), "1h")),
      ExtractWeather(c))
  }

  /** One element of `hourly`, lines 125-144. */
  function ExtractHourly(h: Json): Hourly
  {
    Hourly(
      AsInt64(Get(h, "dt")),
      AsFloat(Get(h, "temp")), AsFloat(Get(h, "feels_like")),
      AsInt32(Get(h, "pressure")), AsInt32(Get(h, "humidity")), AsFloat(Get(h, "dew_point")),
      AsInt32(Get(h, "clouds")), AsFloat(Get(h, "uvi")), AsInt32(Get(h, "visibility")),
      AsFloat(Get(h, "wind_speed")), AsFloat(Get(h, "wind_gust")), AsInt32(Get(h, "wind_deg")),
      AsFloat(Get(h, "pop")), AsFloat(Get(Get(h, "rain"), "1h")), AsFloat(Get(Get(h, "snow"), "1h")),
      ExtractWeather(h))
  }

  /** One element of `daily`, lines 156-190. Unlike hourly elements, `rain`
      and `snow` are plain numbers here. */
  function ExtractDaily(d: Json): Daily
  {
    var t := Get(d, "temp");
    var f := Get(d, "feels_like");
    Daily(
      AsInt64(Get(d, "dt")), AsInt64(Get(d, "sunrise")), AsInt64(Get(d, "sunset")),
      AsInt64(Get(d, "moonrise")), AsInt64(Get(d, "moonset")),
      AsFloat(Get(d, "moon_phase")),
      Temp(AsFloat(Get(t, "morn")), AsFloat(Get(t, "day")), AsFloat(Get(t, "eve")),
           AsFloat(Get(t, "night")), AsFloat(Get(t, "min")), AsFloat(Get(t, "max"))),
      FeelsLike(AsFloat(Get(f, "morn")), AsFloat(Get(f, "day")), AsFloat(Get(f, "eve")), AsFloat(Get(f, "night"))),
      AsInt32(Get(d, "pressure")), AsInt32(Get(d, "humidity")), AsFloat(Get(d, "dew_point")),
      AsInt32(Get(d, "clouds")), AsFloat(Get(d, "uvi")), AsInt32(Get(d, "visibility")),
      AsFloat(Get(d, "wind_speed")), AsFloat(Get(d, "wind_gust")), AsInt32(Get(d, "wind_deg")),
      AsFloat(Get(d, "pop")), AsFloat(Get(d, "rain")), AsFloat(Get(d, "snow")),
      ExtractWeather(d))
  }

  /** One element of `alerts`, lines 203-209: a zeroed alert with `event`,
      `start`, `end` and the first tag filled in. */
  function ExtractAlert(a: Json): (r: Alert)
    ensures r.senderName == "" && r.description == ""
    ensures r.tags == AsText(At(Get(a, "tags"), 0))
    ensures r == DEFAULT_ALERT.(event := r.event, start := r.start, end := r.end, tags := r.tags)
  {
    DEFAULT_ALERT.(
      event := AsText(Get(a, "event")),
      start := AsInt64(Get(a, "start")),
      end := AsInt64(Get(a, "end")),
      tags := AsText(At(Get(a, "tags"), 0)))
  }

  /** `r.alerts` after the alert loop of lines 199-217 ran on the document's
      `alerts` value: with alerts displayed, one alert per source element,
      in source order, at most NUM_ALERTS of them, appended to what the
      list held; with alerts not displayed, the list as it was. */
  function AppendedAlerts(prior: seq<Alert>, alerts: Json, displayAlerts: bool): seq<Alert>
  {
    if displayAlerts then
      var src := Elements(alerts);
      prior + MapSeq(ExtractAlert, src[..Min(|src|, NUM_ALERTS)])
    else prior
  }

  /** The alert list only grows: the prior alerts stay in front, and exactly
      min(n, NUM_ALERTS) alerts are added, the k-th from source element k. */
  lemma {:induction false} AppendedAlertsKeepPrior(prior: seq<Alert>, alerts: Json, displayAlerts: bool)
    ensures var r := AppendedAlerts(prior, alerts, displayAlerts);
      && prior <= r
      && |r| == |prior| + (if displayAlerts then Min(|Elements(alerts)|, NUM_ALERTS) else 0)
      && forall k :: |prior| <= k < |r| ==> r[k] == ExtractAlert(Elements(alerts)[k - |prior|])
  {
    var r := AppendedAlerts(prior, alerts, displayAlerts);
    if displayAlerts {
      var src := Elements(alerts);
      var added := MapSeq(ExtractAlert, src[..Min(|src|, NUM_ALERTS)]);
      assert r == prior + added;
      forall k | |prior| <= k < |r| ensures r[k] == ExtractAlert(src[k - |prior|]) {
        assert r[k] == added[k - |prior|];
      }
    }
  }

  /** Unlike the fixed arrays, the alert list is not idempotent: running the
      alert loop twice on a document with alerts adds them twice. */
  lemma {:induction false} AlertsAccumulate(prior: seq<Alert>, alerts: Json)
    requires |Elements(alerts)| > 0
    ensures |AppendedAlerts(AppendedAlerts(prior, alerts, true), alerts, true)| > |AppendedAlerts(prior, alerts, true)|
  {
    AppendedAlertsKeepPrior(prior, alerts, true);
    AppendedAlertsKeepPrior(AppendedAlerts(prior, alerts, true), alerts, true);
  }

  /** One element of the air-quality `list`, lines 248-260. */
  function ExtractAirSample(s: Json): AirSample
  {
    var c := Get(s, "components");
    AirSample(
      AsInt32(Get(Get(s, "main"), "aqi")),
      AsFloat(Get(c, "co")), AsFloat(Get(c, "no")), AsFloat(Get(c, "no2")), AsFloat(Get(c, "o3")),
      AsFloat(Get(c, "so2")), AsFloat(Get(c, "pm2_5")), AsFloat(Get(c, "pm10")), AsFloat(Get(c, "nh3")),
      AsInt64(Get(s, "dt")))
  }

  /** An element that is no object reads as null in every field, and so
      fills its slot with zeroes and empty texts. */
  lemma NonObjectElementIsDefault(v: Json)
    requires !v.Object?
    ensures ExtractCurrent(v) == DEFAULT_CURRENT
    ensures ExtractHourly(v) == DEFAULT_HOURLY
    ensures ExtractDaily(v) == DEFAULT_DAILY
    ensures ExtractAlert(v) == DEFAULT_ALERT
    ensures ExtractAirSample(v) == AirSample(0, 0.0, 0.0, 0.0, 0.0, 0.0, 0.0, 0.0, 0.0, 0)
  {
  }

  /** A missing `wind_gust` is no error: the field reads as 0. */
  lemma MissingWindGustIsZero(c: Json)
    requires c.Object? && "wind_gust" !in c.members
    ensures ExtractCurrent(c).windGust == 0.0
  {
  }

  // The seismic feed (lines 307-333).

  /** `coordinates[0]`: GeoJSON puts the longitude first. */
  function LonOf(feature: Json): real
  {
    AsFloat(At(Get(Get(feature, "geometry"), "coordinates"), 0))
  }

  /** `coordinates[1]`: the latitude comes second. */
  function LatOf(feature: Json): real
  {
    AsFloat(At(Get(Get(feature, "geometry"), "coordinates"), 1))
  }

  /** The geometry a winning feature writes: latitude and longitude from its
      coordinates, depth from a `depth` member of `geometry`. */
  function GeometryOf(feature: Json): Geometry
  {
    Geometry(LatOf(feature), LonOf(feature), AsFloat(Get(Get(feature, "geometry"), "depth")))
  }

  /** For a GeoJSON point [lon, lat, z], the geometry is (lat, lon) with the
      order swapped back, and the third coordinate is never the depth: a
      geometry without a `depth` member yields depth 0. */
  lemma GeometryOfPoint(feature: Json, lon: real, lat: real, z: real)
    requires Get(feature, "geometry").Object?
    requires Get(Get(feature, "geometry"), "coordinates") == Array([Float(lon), Float(lat), Float(z)])
    requires "depth" !in Get(feature, "geometry").members
    ensures GeometryOf(feature) == Geometry(lat, lon, 0.0)
  {
  }

  /** The decimal digit `d`. */
  function DigitChar(d: nat): (c: char)
    requires d < 10
    ensures '0' <= c <= '9' && c as int - '0' as int == d
  {
    ('0' as int + d) as char
  }

  /** The value of a text of decimal digits, most significant first. */
  function DigitsValue(s: string): nat
    requires forall k :: 0 <= k < |s| ==> '0' <= s[k] <= '9'
    decreases |s|
  {
    if s == [] then 0 else DigitsValue(s[..|s| - 1]) * 10 + (s[|s| - 1] as int - '0' as int)
  }

  /** The decimal digits of `n`, without leading zeros: they read back as `n`. */
  function Digits(n: nat): (s: string)
    ensures |s| > 0
    ensures forall k :: 0 <= k < |s| ==> '0' <= s[k] <= '9'
    ensures n < 10 <==> |s| == 1
    ensures |s| > 1 ==> s[0] != '0'
    ensures DigitsValue(s) == n
    decreases n
  {
    if n < 10 then [DigitChar(n)]
    else
      var s := Digits(n / 10) + [DigitChar(n % 10)];
      assert s[..|s| - 1] == Digits(n / 10);
      s
  }

  /** The value of a decimal text with an optional leading minus. */
  function DecimalValue(s: string): int
    requires |s| > 0
    requires forall k :: 0 < k < |s| ==> '0' <= s[k] <= '9'
    requires s[0] == '-' || '0' <= s[0] <= '9'
  {
    if s[0] == '-' then -(DigitsValue(s[1..]) as int) else DigitsValue(s) as int
  }

  /** The text an `int64_t` becomes when stored into a `String`: its
      decimal rendering, which reads back as the same number. */
  function DecimalText(n: int): (s: string)
    ensures |s| > 0
    ensures s[0] == '-' <==> n < 0
    ensures forall k :: 0 < k < |s| ==> '0' <= s[k] <= '9'
    ensures s[0] == '-' || '0' <= s[0] <= '9'
    ensures n == 0 ==> s == "0"
    ensures DecimalValue(s) == n
  {
    if n < 0 then
      var s := "-" + Digits(-n);
      assert s[1..] == Digits(-n);
      s
    else Digits(n)
  }

  /** Distinct statuses are stored as distinct texts. */
  lemma DecimalTextInjective(a: int, b: int)
    requires DecimalText(a) == DecimalText(b)
    ensures a == b
  {
  }

  /** The properties after a winning feature overwrote the ones lines
      324-332 write. `status` is read as an integer and stored as its decimal
      text; `tsunami` is read as an `int64_t` and narrowed to `uint8_t`. */
  function UpdateProperties(prior: Properties, p: Json): (r: Properties)
    ensures r == prior.(mag := r.mag, place := r.place, time := r.time, updated := r.updated,
                        alert := r.alert, status := r.status, tsunami := r.tsunami, dmin := r.dmin,
                        eventType := r.eventType)
  {
    prior.(
      mag := AsFloat(Get(p, "mag")),
      place := AsText(Get(p, "place")),
      time := AsInt64(Get(p, "time")),
      updated := AsInt64(Get(p, "updated")),
      alert := AsText(Get(p, "alert")),
      status := DecimalText(AsInt64(Get(p, "status")) as int),
      tsunami := ToUInt8(AsInt64(Get(p, "tsunami")) as int),
      dmin := AsFloat(Get(p, "dmin")),
      eventType := AsText(Get(p, "type")))
  }

  /** A later winner overwrites everything an earlier one wrote. */
  lemma UpdatePropertiesOverwrites(prior: Properties, p1: Json, p2: Json)
    ensures UpdateProperties(UpdateProperties(prior, p1), p2) == UpdateProperties(prior, p2)
  {
  }

  /** The feed's `status` is a word such as "reviewed"; read as an integer it
      is 0, so the stored status is always "0". */
  lemma TextStatusIsStoredAsZero(prior: Properties, p: Json)
    requires Get(p, "status").Text?
    ensures UpdateProperties(prior, p).status == "0"
  {
  }

  /** The distance from the reference point to every feature, in order. */
  function Distances(features: seq<Json>, myLat: real, myLon: real, dist: (real, real, real, real) -> real): (ds: seq<real>)
    ensures |ds| == |features|
    ensures forall k :: 0 <= k < |features| ==> ds[k] == dist(myLat, myLon, LatOf(features[k]), LonOf(features[k]))
  {
    MapSeq(f => dist(myLat, myLon, LatOf(f), LonOf(f)), features)
  }
}
