/** The fixed-capacity records the deserializers fill in place, with their
    capacities (platformio/include/api_response.h). Plain structs become
    datatypes; the response structs, which hold fixed arrays the
    deserializers write slot by slot, become classes whose arrays are
    allocated once, with exactly their capacity. */
module Records {
  import opened Ints

  // Capacities of the fixed arrays.
  const NUM_MINUTELY: nat := 1
  const NUM_HOURLY: nat := 48
  const NUM_DAILY: nat := 8
  /** Bounds how many alerts one call appends; the alert list itself has no bound. */
  const NUM_ALERTS: nat := 8
  const NUM_AIR_POLLUTION: nat := 24
  const USGS_NUM_SIG_EVENTS: nat := 10
  const USGS_NUM_GEOMETRY: nat := 3

  /** `owm_weather_t`: one weather condition. */
  datatype Weather = Weather(id: Int32, main: string, description: string, icon: string)

  /** `owm_temp_t`: six day-part temperatures. */
  datatype Temp = Temp(morn: real, day: real, eve: real, night: real, min: real, max: real)

  /** `owm_owm_feels_like_t` (the header's typedef name): four day-part
      temperatures, without a minimum or maximum. */
  datatype FeelsLike = FeelsLike(morn: real, day: real, eve: real, night: real)

  /** `owm_current_t`: current conditions. */
  datatype Current = Current(
    dt: Int64, sunrise: Int64, sunset: Int64,
    temp: real, feelsLike: real,
    pressure: Int32, humidity: Int32, dewPoint: real, clouds: Int32, uvi: real, visibility: Int32,
    windSpeed: real, windGust: real, windDeg: Int32,
    rain1h: real, snow1h: real,
    weather: Weather)

  /** `owm_hourly_t`: one hour of forecast. */
  datatype Hourly = Hourly(
    dt: Int64,
    temp: real, feelsLike: real,
    pressure: Int32, humidity: Int32, dewPoint: real, clouds: Int32, uvi: real, visibility: Int32,
    windSpeed: real, windGust: real, windDeg: Int32,
    pop: real, rain1h: real, snow1h: real,
    weather: Weather)

  /** `owm_daily_t`: one day of forecast. */
  datatype Daily = Daily(
    dt: Int64, sunrise: Int64, sunset: Int64, moonrise: Int64, moonset: Int64,
    moonPhase: real,
    temp: Temp, feelsLike: FeelsLike,
    pressure: Int32, humidity: Int32, dewPoint: real, clouds: Int32, uvi: real, visibility: Int32,
    windSpeed: real, windGust: real, windDeg: Int32,
    pop: real, rain: real, snow: real,
    weather: Weather)

  /** `owm_alerts_t`: one weather alert. */
  datatype Alert = Alert(senderName: string, event: string, start: Int64, end: Int64, description: string, tags: string)

  /** `owm_coord_t`. */
  datatype Coord = Coord(lat: real, lon: real)

  /** `usgs_properties_t`: the details of a seismic event. */
  datatype Properties = Properties(
    mag: real, place: string, time: Int64, updated: Int64, tz: Int16,
    url: string, detail: string, felt: Int32, cdi: real, mmi: real,
    alert: string, status: string, tsunami: UInt8, sig: UInt16,
    net: string, code: string, ids: string, sources: string, types: string,
    nst: Int32, dmin: real, gap: real, magType: string, eventType: string)

  /** `usgs_geom_t`: where a seismic event happened. */
  datatype Geometry = Geometry(lat: real, lon: real, depth: real)

  // The zero-initialised values of the structs.
  const DEFAULT_WEATHER := Weather(0, "", "", "")
  const DEFAULT_CURRENT := Current(0, 0, 0, 0.0, 0.0, 0, 0, 0.0, 0, 0.0, 0, 0.0, 0.0, 0, 0.0, 0.0, DEFAULT_WEATHER)
  const DEFAULT_HOURLY := Hourly(0, 0.0, 0.0, 0, 0, 0.0, 0, 0.0, 0, 0.0, 0.0, 0, 0.0, 0.0, 0.0, DEFAULT_WEATHER)
  const DEFAULT_DAILY := Daily(0, 0, 0, 0, 0, 0.0,
    Temp(0.0, 0.0, 0.0, 0.0, 0.0, 0.0), FeelsLike(0.0, 0.0, 0.0, 0.0),
    0, 0, 0.0, 0, 0.0, 0, 0.0, 0.0, 0, 0.0, 0.0, 0.0, DEFAULT_WEATHER)
  const DEFAULT_ALERT := Alert("", "", 0, 0, "", "")
  const DEFAULT_PROPERTIES := Properties(0.0, "", 0, 0, 0, "", "", 0, 0.0, 0.0, "", "", 0, 0,
    "", "", "", "", "", 0, 0.0, 0.0, "", "")
  const DEFAULT_GEOMETRY := Geometry(0.0, 0.0, 0.0)

  /** `owm_resp_onecall_t`: the One Call response. `hourly` and `daily` are
      fixed arrays of the record; `alerts` is a growable list. */
  class OneCallResponse {
    var lat: real
    var lon: real
    var timezone: string
    var timezoneOffset: Int32
    var current: Current
    const hourly: array<Hourly>
    const daily: array<Daily>
    var alerts: seq<Alert>

    /** The arrays have exactly their capacities. */
    ghost predicate Valid()
    {
      hourly.Length == NUM_HOURLY && daily.Length == NUM_DAILY
    }

    /** A zero-initialised record with no alerts. */
    constructor ()
      ensures Valid() && fresh(hourly) && fresh(daily)
      ensures lat == 0.0 && lon == 0.0 && timezone == "" && timezoneOffset == 0
      ensures current == DEFAULT_CURRENT && alerts == []
      ensures forall k :: 0 <= k < NUM_HOURLY ==> hourly[k] == DEFAULT_HOURLY
      ensures forall k :: 0 <= k < NUM_DAILY ==> daily[k] == DEFAULT_DAILY
    {
      lat, lon, timezone, timezoneOffset := 0.0, 0.0, "", 0;
      current := DEFAULT_CURRENT;
      hourly := new Hourly[NUM_HOURLY](_ => DEFAULT_HOURLY);
      daily := new Daily[NUM_DAILY](_ => DEFAULT_DAILY);
      alerts := [];
    }
  }

  /** `owm_components_t`: eight pollutant concentrations per sample, one
      array each. */
  class Components {
    const co: array<real>
    const no: array<real>
    const no2: array<real>
    const o3: array<real>
    const so2: array<real>
    const pm2_5: array<real>
    const pm10: array<real>
    const nh3: array<real>

    /** The eight arrays. */
    ghost function Repr(): set<object>
    {
      {co, no, no2, o3, so2, pm2_5, pm10, nh3}
    }

    /** Each array has one slot per sample, and no two arrays are the same. */
    ghost predicate Valid()
    {
      && co.Length == NUM_AIR_POLLUTION && no.Length == NUM_AIR_POLLUTION
      && no2.Length == NUM_AIR_POLLUTION && o3.Length == NUM_AIR_POLLUTION
      && so2.Length == NUM_AIR_POLLUTION && pm2_5.Length == NUM_AIR_POLLUTION
      && pm10.Length == NUM_AIR_POLLUTION && nh3.Length == NUM_AIR_POLLUTION
      && co != no && co != no2 && co != o3 && co != so2 && co != pm2_5 && co != pm10 && co != nh3
      && no != no2 && no != o3 && no != so2 && no != pm2_5 && no != pm10 && no != nh3
      && no2 != o3 && no2 != so2 && no2 != pm2_5 && no2 != pm10 && no2 != nh3
      && o3 != so2 && o3 != pm2_5 && o3 != pm10 && o3 != nh3
      && so2 != pm2_5 && so2 != pm10 && so2 != nh3
      && pm2_5 != pm10 && pm2_5 != nh3
      && pm10 != nh3
    }

    /** Zero-initialised arrays. */
    constructor ()
      ensures Valid() && fresh(Repr())
      ensures forall k :: 0 <= k < NUM_AIR_POLLUTION ==>
        co[k] == 0.0 && no[k] == 0.0 && no2[k] == 0.0 && o3[k] == 0.0 &&
        so2[k] == 0.0 && pm2_5[k] == 0.0 && pm10[k] == 0.0 && nh3[k] == 0.0
    {
      co := new real[NUM_AIR_POLLUTION](_ => 0.0);
      no := new real[NUM_AIR_POLLUTION](_ => 0.0);
      no2 := new real[NUM_AIR_POLLUTION](_ => 0.0);
      o3 := new real[NUM_AIR_POLLUTION](_ => 0.0);
      so2 := new real[NUM_AIR_POLLUTION](_ => 0.0);
      pm2_5 := new real[NUM_AIR_POLLUTION](_ => 0.0);
      pm10 := new real[NUM_AIR_POLLUTION](_ => 0.0);
      nh3 := new real[NUM_AIR_POLLUTION](_ => 0.0);
    }
  }

  /** Everything one air-quality sample contributes, one value from each
      parallel array. Not a struct of the source: it names the slot that the
      eleven arrays share. */
  datatype AirSample = AirSample(
    aqi: Int32,
    co: real, no: real, no2: real, o3: real, so2: real, pm2_5: real, pm10: real, nh3: real,
    dt: Int64)

  /** `owm_resp_air_pollution_t`: one coordinate, and parallel arrays with
      one slot per sampled hour. */
  class AirPollutionResponse {
    var coord: Coord
    const mainAqi: array<Int32>
    const components: Components
    const dt: array<Int64>

    /** Every array of the record. */
    ghost function Repr(): set<object>
    {
      {mainAqi, dt} + components.Repr()
    }

    ghost predicate Valid()
    {
      mainAqi.Length == NUM_AIR_POLLUTION && dt.Length == NUM_AIR_POLLUTION && components.Valid()
    }

    /** Slot `k` across all parallel arrays. */
    ghost function SampleAt(k: nat): AirSample
      requires Valid() && k < NUM_AIR_POLLUTION
      reads Repr()
    {
      var c := components;
      AirSample(mainAqi[k], c.co[k], c.no[k], c.no2[k], c.o3[k], c.so2[k], c.pm2_5[k], c.pm10[k], c.nh3[k], dt[k])
    }

    /** A zero-initialised record. */
    constructor ()
      ensures Valid() && fresh(Repr())
      ensures coord == Coord(0.0, 0.0)
      ensures forall k :: 0 <= k < NUM_AIR_POLLUTION ==>
        SampleAt(k) == AirSample(0, 0.0, 0.0, 0.0, 0.0, 0.0, 0.0, 0.0, 0.0, 0)
    {
      coord := Coord(0.0, 0.0);
      mainAqi := new Int32[NUM_AIR_POLLUTION](_ => 0);
      components := new Components();
      dt := new Int64[NUM_AIR_POLLUTION](_ => 0);
    }
  }

  /** `usgs_feature_t`: the one seismic event a call keeps. */
  class Feature {
    var properties: Properties
    var geometry: Geometry
    var id: string

    /** A zero-initialised record. */
    constructor ()
      ensures properties == DEFAULT_PROPERTIES && geometry == DEFAULT_GEOMETRY && id == ""
    {
      properties := DEFAULT_PROPERTIES;
      geometry := DEFAULT_GEOMETRY;
      id := "";
    }
  }
}
