/** The Field Selector: the filter documents the One Call and the seismic
    deserializers build before parsing (platformio/src/api_response.cpp,
    lines 44-63 and 276-282), built here the way the source builds them, by
    subscript assignments into an empty document; the trees they denote; and
    what parsing under them keeps of a response, which is checked against
    what the Bounded Extractor reads. The flag `displayAlerts` stands for the
    build-time setting DISPLAY_ALERTS. */
module FieldSelector {
  import opened Json
  import opened Records
  import opened Extract

  /** The filter entry of one alert: free texts are dropped. */
  const ALERT_FILTER: Json := Object(map[
    "sender_name" := Boolean(false), "event" := Boolean(true), "start" := Boolean(true),
    "end" := Boolean(true), "description" := Boolean(false), "tags" := Boolean(true)])

  /** The entries set before the alerts are dealt with. */
  const FORECAST_ENTRIES: map<string, Json> := map[
    "current" := Boolean(true), "minutely" := Boolean(false),
    "hourly" := Boolean(true), "daily" := Boolean(true)]

  /** The One Call filter with `entries` as its `alerts` array. */
  function WithAlertEntries(entries: seq<Json>): Json
  {
    Object(FORECAST_ENTRIES["alerts" := Array(entries)])
  }

  /** The One Call filter: current, hourly and daily kept, minutely dropped,
      and alerts either dropped whole or kept as NUM_ALERTS copies of
      ALERT_FILTER. */
  function OneCallFilter(displayAlerts: bool): Json
  {
    if displayAlerts then WithAlertEntries(seq(NUM_ALERTS, _ => ALERT_FILTER))
    else Object(FORECAST_ENTRIES["alerts" := Boolean(false)])
  }

  /** `filter["alerts"][i][key] = value` on a filter whose alert array holds
      `entries` and then the partly built entry `Object(m)`, which is slot i. */
  lemma {:induction false} SetAlertEntryKey(filter: Json, entries: seq<Json>, m: map<string, Json>, key: string, value: Json)
    requires filter == WithAlertEntries(entries + [Object(m)])
    ensures SetPath(filter, [Key("alerts"), Index(|entries|), Key(key)], value)
         == WithAlertEntries(entries + [Object(m[key := value])])
  {
    var path := [Key("alerts"), Index(|entries|), Key(key)];
    var es := PadTo(Elements(Get(filter, "alerts")), |entries| + 1);
    assert es == entries + [Object(m)];
    assert path[1..][1..] == [Key(key)] && path[1..][1..][1..] == [];
    assert SetPath(es[|entries|], path[1..][1..], value) == Object(m[key := value]);
    assert es[|entries| := Object(m[key := value])] == entries + [Object(m[key := value])];
  }

  /** The filter before slot i of the alert array is assigned. */
  function BeforeAlertEntry(i: nat): Json
  {
    if i == 0 then Object(FORECAST_ENTRIES) else WithAlertEntries(seq(i, _ => ALERT_FILTER))
  }

  /** `filter["alerts"][i]["sender_name"] = false`, the first assignment to
      slot i, which creates the alert array when i is 0, and the entry. */
  lemma {:induction false} StartAlertEntry(i: nat)
    ensures SetPath(BeforeAlertEntry(i), [Key("alerts"), Index(i), Key("sender_name")], Boolean(false))
         == WithAlertEntries(seq(i, _ => ALERT_FILTER) + [Object(map["sender_name" := Boolean(false)])])
  {
    var path := [Key("alerts"), Index(i), Key("sender_name")];
    var filter := BeforeAlertEntry(i);
    var entries := seq(i, _ => ALERT_FILTER);
    var es := PadTo(Elements(Get(filter, "alerts")), i + 1);
    assert es == entries + [Null];
    assert path[1..][1..] == [Key("sender_name")] && path[1..][1..][1..] == [];
    assert SetPath(Null, path[1..][1..], Boolean(false)) == Object(map["sender_name" := Boolean(false)]);
    assert es[i := Object(map["sender_name" := Boolean(false)])] == entries + [Object(map["sender_name" := Boolean(false)])];
    if i == 0 {
      assert FORECAST_ENTRIES["alerts" := Array(entries + [Object(map["sender_name" := Boolean(false)])])]
          == WithAlertEntries(entries + [Object(map["sender_name" := Boolean(false)])]).members;
    }
  }

  /** The entry of slot i after its first three assignments. */
  const HALF_ALERT_ENTRY: Json := Object(map[
    "sender_name" := Boolean(false), "event" := Boolean(true), "start" := Boolean(true)])

  /** Lines 56-58 make slot i a new entry with three of its keys. */
  lemma {:induction false} AssignAlertEntryHead(i: nat)
    ensures
      SetPath(SetPath(SetPath(BeforeAlertEntry(i), [Key("alerts"), Index(i), Key("sender_name")], Boolean(false)), [Key("alerts"), Index(i), Key("event")], Boolean(true)), [Key("alerts"), Index(i), Key("start")], Boolean(true))
      == WithAlertEntries(seq(i, _ => ALERT_FILTER) + [HALF_ALERT_ENTRY])
  {
    var entries := seq(i, _ => ALERT_FILTER);
    StartAlertEntry(i);
    var filter := SetPath(BeforeAlertEntry(i), [Key("alerts"), Index(i), Key("sender_name")], Boolean(false));
    var m := map["sender_name" := Boolean(false)];
    SetAlertEntryKey(filter, entries, m, "event", Boolean(true));
    filter := SetPath(filter, [Key("alerts"), Index(i), Key("event")], Boolean(true));
    m := m["event" := Boolean(true)];
    SetAlertEntryKey(filter, entries, m, "start", Boolean(true));
    m := m["start" := Boolean(true)];
    assert Object(m) == HALF_ALERT_ENTRY;
  }

  /** Lines 59-61 complete slot i with the other three keys. */
  lemma {:induction false} AssignAlertEntryTail(i: nat)
    ensures
      SetPath(SetPath(SetPath(WithAlertEntries(seq(i, _ => ALERT_FILTER) + [HALF_ALERT_ENTRY]), [Key("alerts"), Index(i), Key("end")], Boolean(true)), [Key("alerts"), Index(i), Key("description")], Boolean(false)), [Key("alerts"), Index(i), Key("tags")], Boolean(true))
      == BeforeAlertEntry(i + 1)
  {
    var entries := seq(i, _ => ALERT_FILTER);
    var filter := WithAlertEntries(entries + [HALF_ALERT_ENTRY]);
    var m := HALF_ALERT_ENTRY.members;
    assert |entries| == i;
    SetAlertEntryKey(filter, entries, m, "end", Boolean(true));
    filter := SetPath(filter, [Key("alerts"), Index(i), Key("end")], Boolean(true));
    m := m["end" := Boolean(true)];
    SetAlertEntryKey(filter, entries, m, "description", Boolean(false));
    filter := SetPath(filter, [Key("alerts"), Index(i), Key("description")], Boolean(false));
    m := m["description" := Boolean(false)];
    SetAlertEntryKey(filter, entries, m, "tags", Boolean(true));
    m := m["tags" := Boolean(true)];
    assert Object(m) == ALERT_FILTER;
    assert entries + [ALERT_FILTER] == seq(i + 1, _ => ALERT_FILTER);
  }

  /** Lines 44-63: the One Call filter, assignment by assignment. */
  method BuildOneCallFilter(displayAlerts: bool) returns (filter: Json)
    ensures filter == OneCallFilter(displayAlerts)
  {
    filter := Null;
    filter := SetPath(filter, [Key("current")], Boolean(true));
    filter := SetPath(filter, [Key("minutely")], Boolean(false));
    filter := SetPath(filter, [Key("hourly")], Boolean(true));
    filter := SetPath(filter, [Key("daily")], Boolean(true));
    assert filter == BeforeAlertEntry(0);
    if !displayAlerts {
      filter := SetPath(filter, [Key("alerts")], Boolean(false));
    } else {
      for i := 0 to NUM_ALERTS
        invariant filter == BeforeAlertEntry(i)
      {
        AssignAlertEntryHead(i);
        filter := SetPath(filter, [Key("alerts"), Index(i), Key("sender_name")], Boolean(false));
        filter := SetPath(filter, [Key("alerts"), Index(i), Key("event")], Boolean(true));
        filter := SetPath(filter, [Key("alerts"), Index(i), Key("start")], Boolean(true));
        AssignAlertEntryTail(i);
        filter := SetPath(filter, [Key("alerts"), Index(i), Key("end")], Boolean(true));
        filter := SetPath(filter, [Key("alerts"), Index(i), Key("description")], Boolean(false));
        filter := SetPath(filter, [Key("alerts"), Index(i), Key("tags")], Boolean(true));
      }
    }
  }

  /** The seismic filter: `type` and `metadata` dropped, `features` kept
      whole. */
  function UsgsFilter(): Json
  {
    Object(map["type" := Boolean(false), "metadata" := Boolean(false), "features" := Boolean(true)])
  }

  /** A subscript below a member that already holds a scalar assigns
      nothing: the document cannot turn `true` into an array. */
  lemma SubscriptBelowScalarIsIgnored(v: Json, key: string, i: nat, rest: seq<Step>, value: Json)
    requires v.Object? && Get(v, key).Boolean?
    ensures SetPath(v, [Key(key), Index(i)] + rest, value) == v
  {
    var path := [Key(key), Index(i)] + rest;
    assert path[1..] == [Index(i)] + rest;
    assert v.members[key := Get(v, key)] == v.members;
  }

  /** Lines 276-282: the seismic filter, assignment by assignment. Line 279
      sets `features` to `true`, so the three assignments below
      `features[0]` that follow assign nothing: the feature entry they meant
      to build never exists. */
  method BuildUsgsFilter() returns (filter: Json)
    ensures filter == UsgsFilter()
  {
    filter := Null;
    filter := SetPath(filter, [Key("type")], Boolean(false));
    filter := SetPath(filter, [Key("metadata")], Boolean(false));
    filter := SetPath(filter, [Key("features")], Boolean(true));
    assert filter == UsgsFilter();
    SubscriptBelowScalarIsIgnored(filter, "features", 0, [Key("bbox")], Boolean(false));
    filter := SetPath(filter, [Key("features"), Index(0), Key("bbox")], Boolean(false));
    SubscriptBelowScalarIsIgnored(filter, "features", 0, [Key("geometry")], Boolean(true));
    filter := SetPath(filter, [Key("features"), Index(0), Key("geometry")], Boolean(true));
    SubscriptBelowScalarIsIgnored(filter, "features", 0, [Key("id")], Boolean(false));
    filter := SetPath(filter, [Key("features"), Index(0), Key("id")], Boolean(false));
  }

  // What parsing under the filters keeps, assuming the parser applies
  // `Filter`.

  /** The One Call filter's entry for each member a response may have. */
  lemma {:induction false} OneCallMemberFilters(displayAlerts: bool)
    ensures var f := OneCallFilter(displayAlerts);
      && MemberFilter(f, "current") == Boolean(true)
      && MemberFilter(f, "hourly") == Boolean(true)
      && MemberFilter(f, "daily") == Boolean(true)
      && MemberFilter(f, "minutely") == Boolean(false)
      && MemberFilter(f, "lat") == Null && MemberFilter(f, "lon") == Null
      && MemberFilter(f, "timezone") == Null && MemberFilter(f, "timezone_offset") == Null
  {
    var f := OneCallFilter(displayAlerts);
    assert f.members.Keys == {"current", "minutely", "hourly", "daily", "alerts"};
  }

  /** Under the One Call filter, `current`, `hourly` and `daily` come
      through unchanged and `minutely` does not. Neither do `lat`, `lon`,
      `timezone` and `timezone_offset`, which the filter does not list,
      although the extractor reads them (lines 80-83). */
  lemma {:induction false} OneCallFilterKeeps(displayAlerts: bool, raw: Json)
    ensures var doc := Filter(OneCallFilter(displayAlerts), raw);
      && Get(doc, "current") == Get(raw, "current")
      && Get(doc, "hourly") == Get(raw, "hourly")
      && Get(doc, "daily") == Get(raw, "daily")
      && Get(doc, "minutely") == Null
      && Get(doc, "lat") == Null && Get(doc, "lon") == Null
      && Get(doc, "timezone") == Null && Get(doc, "timezone_offset") == Null
  {
    var f := OneCallFilter(displayAlerts);
    OneCallMemberFilters(displayAlerts);
    GetFiltered(f, raw, "current");
    GetFiltered(f, raw, "hourly");
    GetFiltered(f, raw, "daily");
    GetFiltered(f, raw, "minutely");
    GetFiltered(f, raw, "lat");
    GetFiltered(f, raw, "lon");
    GetFiltered(f, raw, "timezone");
    GetFiltered(f, raw, "timezone_offset");
  }

  /** So the location fields always read as defaults after a filtered
      parse: the record's `lat`, `lon`, `timezone` and `timezone_offset` are
      never what the response says. */
  lemma {:induction false} OneCallLocationIsAlwaysDefault(displayAlerts: bool, raw: Json)
    ensures var doc := Filter(OneCallFilter(displayAlerts), raw);
      && AsFloat(Get(doc, "lat")) == 0.0 && AsFloat(Get(doc, "lon")) == 0.0
      && AsText(Get(doc, "timezone")) == "" && AsInt32(Get(doc, "timezone_offset")) == 0
  {
    OneCallFilterKeeps(displayAlerts, raw);
  }

  /** With alerts not displayed, the filter drops the whole `alerts`
      subtree; with them displayed, every alert comes through ALERT_FILTER. */
  lemma {:induction false} OneCallFilterAlerts(displayAlerts: bool, raw: Json)
    ensures var doc := Filter(OneCallFilter(displayAlerts), raw);
      !displayAlerts ==> Get(doc, "alerts") == Null
    ensures var doc := Filter(OneCallFilter(displayAlerts), raw);
      displayAlerts ==> Elements(Get(doc, "alerts")) == MapSeq(a => Filter(ALERT_FILTER, a), Elements(Get(raw, "alerts")))
  {
    var f := OneCallFilter(displayAlerts);
    GetFiltered(f, raw, "alerts");
    if displayAlerts {
      var af := MemberFilter(f, "alerts");
      assert af == Array(seq(NUM_ALERTS, _ => ALERT_FILTER));
      assert ElementFilter(af) == ALERT_FILTER;
      var src := Get(raw, "alerts");
      if src.Array? {
        assert Filter(af, src) == Array(seq(|src.elems|, i requires 0 <= i < |src.elems| => Filter(ALERT_FILTER, src.elems[i])));
      }
    }
  }

  /** ALERT_FILTER's entry for every member of an alert. */
  lemma {:induction false} AlertMemberFilters()
    ensures && MemberFilter(ALERT_FILTER, "event") == Boolean(true)
            && MemberFilter(ALERT_FILTER, "start") == Boolean(true)
            && MemberFilter(ALERT_FILTER, "end") == Boolean(true)
            && MemberFilter(ALERT_FILTER, "tags") == Boolean(true)
            && MemberFilter(ALERT_FILTER, "sender_name") == Boolean(false)
            && MemberFilter(ALERT_FILTER, "description") == Boolean(false)
  {
    assert ALERT_FILTER.members.Keys == {"sender_name", "event", "start", "end", "description", "tags"};
  }

  /** An alert through ALERT_FILTER keeps `event`, `start`, `end` and `tags`
      and loses `sender_name` and `description`. */
  lemma {:induction false} AlertFilterKeeps(a: Json)
    ensures var kept := Filter(ALERT_FILTER, a);
      && Get(kept, "event") == Get(a, "event") && Get(kept, "start") == Get(a, "start")
      && Get(kept, "end") == Get(a, "end") && Get(kept, "tags") == Get(a, "tags")
      && Get(kept, "sender_name") == Null && Get(kept, "description") == Null
  {
    AlertMemberFilters();
    var kept := Filter(ALERT_FILTER, a);
    GetFiltered(ALERT_FILTER, a, "event");
    assert Get(kept, "event") == Get(a, "event");
    GetFiltered(ALERT_FILTER, a, "start");
    assert Get(kept, "start") == Get(a, "start");
    GetFiltered(ALERT_FILTER, a, "end");
    assert Get(kept, "end") == Get(a, "end");
    GetFiltered(ALERT_FILTER, a, "tags");
    assert Get(kept, "tags") == Get(a, "tags");
    GetFiltered(ALERT_FILTER, a, "sender_name");
    GetFiltered(ALERT_FILTER, a, "description");
  }

  /** The One Call filter loses nothing else the extractor reads: the
      current conditions, the hourly and daily forecasts and the appended
      alerts are the same whether the response is parsed with the filter or
      without it. */
  lemma {:induction false} OneCallFilterKeepsWhatIsRead(displayAlerts: bool, raw: Json, prior: seq<Alert>)
    ensures var doc := Filter(OneCallFilter(displayAlerts), raw);
      && ExtractCurrent(Get(doc, "current")) == ExtractCurrent(Get(raw, "current"))
      && MapSeq(ExtractHourly, Elements(Get(doc, "hourly"))) == MapSeq(ExtractHourly, Elements(Get(raw, "hourly")))
      && MapSeq(ExtractDaily, Elements(Get(doc, "daily"))) == MapSeq(ExtractDaily, Elements(Get(raw, "daily")))
      && AppendedAlerts(prior, Get(doc, "alerts"), displayAlerts) == AppendedAlerts(prior, Get(raw, "alerts"), displayAlerts)
  {
    OneCallFilterKeeps(displayAlerts, raw);
    if displayAlerts {
      OneCallFilterAlerts(displayAlerts, raw);
      var doc := Filter(OneCallFilter(displayAlerts), raw);
      var src := Elements(Get(raw, "alerts"));
      var kept := Elements(Get(doc, "alerts"));
      assert |kept| == |src|;
      forall k | 0 <= k < |src| ensures ExtractAlert(kept[k]) == ExtractAlert(src[k]) {
        AlertFilterKeeps(src[k]);
      }
      var n := Min(|src|, NUM_ALERTS);
      assert MapSeq(ExtractAlert, kept[..n]) == MapSeq(ExtractAlert, src[..n]);
    }
  }

  /** Under the seismic filter, `type` and `metadata` are dropped and
      `features` comes through whole, each feature's `bbox` and `id` with it,
      as well as the `properties` the selector reads. */
  lemma {:induction false} UsgsFilterKeeps(raw: Json)
    ensures var doc := Filter(UsgsFilter(), raw);
      && Get(doc, "type") == Null && Get(doc, "metadata") == Null
      && Get(doc, "features") == Get(raw, "features")
  {
    GetFiltered(UsgsFilter(), raw, "type");
    GetFiltered(UsgsFilter(), raw, "metadata");
    GetFiltered(UsgsFilter(), raw, "features");
  }
}
