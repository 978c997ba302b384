/**
 * The World Air Quality Index sensor: what it takes from a station record
 * returned by a search, its name, state and availability, the attribute
 * dictionary built from the last station reading, the choice of lookup an
 * update makes, and the station filter applied at platform set-up.
 *
 * The WAQI client is not modelled: a search result is a list of station
 * records and a lookup result is a JSON value (None when nothing came back),
 * both given as inputs.
 */
module Waqi {
  import opened Wrappers
  import opened PyJson

  const ATTR_ATTRIBUTION := "attribution"
  const ATTR_TIME := "time"
  const ATTR_DOMINENTPOL := "dominentpol"
  const ATTRIBUTION := "Data provided by the World Air Quality Index project"

  /** The WAQI pollutant and weather keys and the attribute names they are stored under. */
  const KEY_TO_ATTR: map<string, string> := map[
    "pm25" := "pm_2_5",
    "pm10" := "pm_10",
    "h" := "humidity",
    "p" := "pressure",
    "t" := "temperature",
    "o3" := "ozone",
    "no2" := "nitrogen_dioxide",
    "so2" := "sulfur_dioxide"]

  // ---------------------------------------------------------------------------
  // The station record

  /** `try: x = <subscription> except (KeyError, TypeError): x = None`. */
  function OrNone(r: PyResult<Json>): Json
    requires r.Ok? || r.error == KeyError || r.error == TypeError
  {
    if r.Ok? then r.value else Null
  }

  /** `v[outer][inner]`. */
  function SubscriptTwice(v: Json, outer: string, inner: string): (r: PyResult<Json>)
    ensures r.Ok? || r.error == KeyError || r.error == TypeError
  {
    var middle :- Subscript(v, outer);
    Subscript(middle, inner)
  }

  /** `station["uid"]`, or None when the record has no such key or is not a dict. */
  function StationUid(station: Json): (uid: Json)
    ensures uid == OrNull(Path(station, ["uid"]))
  {
    assert ["uid"][1..] == [];
    OrNone(Subscript(station, "uid"))
  }

  /** `station["station"]["url"]`, or None when a key is missing or a step is not a dict. */
  function StationUrl(station: Json): (url: Json)
    ensures url == OrNull(Path(station, ["station", "url"]))
  {
    assert ["station", "url"][1..] == ["url"] && ["url"][1..] == [];
    OrNone(SubscriptTwice(station, "station", "url"))
  }

  /** `station["station"]["name"]`, or None when a key is missing or a step is not a dict. */
  function StationName(station: Json): (name: Json)
    ensures name == OrNull(Path(station, ["station", "name"]))
  {
    assert ["station", "name"][1..] == ["name"] && ["name"][1..] == [];
    OrNone(SubscriptTwice(station, "station", "name"))
  }

  // ---------------------------------------------------------------------------
  // The lookup an update performs

  datatype Lookup = ByNumber(uid: Json) | ByName(url: Json) | NoLookup

  /** By number when the uid is truthy, else by name when the url is truthy, else none. */
  function SelectLookup(uid: Json, url: Json): (r: Lookup)
    ensures r.ByNumber? <==> Truthy(uid)
    ensures r.ByName? <==> !Truthy(uid) && Truthy(url)
    ensures r.NoLookup? <==> !Truthy(uid) && !Truthy(url)
    ensures r.ByNumber? ==> r.uid == uid
    ensures r.ByName? ==> r.url == url
  {
    if Truthy(uid) then ByNumber(uid)
    else if Truthy(url) then ByName(url)
    else NoLookup
  }

  // ---------------------------------------------------------------------------
  // The attribute dictionary

  /** What `device_state_attributes` returns when a KeyError or IndexError is caught. */
  function Fallback(): map<Json, Json> {
    map[Str(ATTR_ATTRIBUTION) := Str(ATTRIBUTION)]
  }

  /** The `except (IndexError, KeyError)` clause: those two give the fallback, others propagate. */
  function Handled(e: PyError): (r: PyResult<Option<map<Json, Json>>>)
    ensures e == KeyError || e == IndexError ==> r == Ok(Some(Fallback()))
    ensures e != KeyError && e != IndexError ==> r == Raised(e)
  {
    if e == KeyError || e == IndexError then Ok(Some(Fallback())) else Raised(e)
  }

  /** `[v["name"] for v in items]`: the first element that raises decides the exception. */
  function AttributionNames(items: seq<Json>): PyResult<seq<Json>>
    decreases |items|
  {
    if items == [] then Ok([])
    else
      var name :- Subscript(items[0], "name");
      var rest :- AttributionNames(items[1..]);
      Ok([name] + rest)
  }

  /** `" and ".join(parts)`: every part must be a string. */
  function JoinAnd(parts: seq<Json>): PyResult<string> {
    if forall i :: 0 <= i < |parts| ==> parts[i].Str? then
      Ok(JoinStrings(seq(|parts|, i requires 0 <= i < |parts| => parts[i].s), " and "))
    else Raised(TypeError)
  }

  /**
   * The statements of the `try` block before the loop: the attribution, the
   * time and the dominant pollutant are stored, and `iaqi` is read.
   */
  function AttributesHead(data: Json): PyResult<(map<Json, Json>, Json)> {
    var attributions :- Get(data, "attributions", Arr([]));
    var entries :- Iterate(attributions);
    var names :- AttributionNames(entries);
    var attribution :- JoinAnd([Str(ATTRIBUTION)] + names);
    var time :- SubscriptTwice(data, "time", "s");
    var dominentpol :- Get(data, "dominentpol", Null);
    var iaqi :- Subscript(data, "iaqi");
    Ok((BaseAttributes(attribution, time, dominentpol), iaqi))
  }

  function BaseAttributes(attribution: string, time: Json, dominentpol: Json): map<Json, Json> {
    map[Str(ATTR_ATTRIBUTION) := Str(attribution)][Str(ATTR_TIME) := time][Str(ATTR_DOMINENTPOL) := dominentpol]
  }

  /** The key an `iaqi` entry is stored under; `key in KEY_TO_ATTR` needs a hashable key. */
  function AttrKey(key: Json): PyResult<Json> {
    if !Hashable(key) then Raised(TypeError)
    else if key.Str? && key.s in KEY_TO_ATTR then Ok(Str(KEY_TO_ATTR[key.s]))
    else Ok(key)
  }

  /** The loop `for key in iaqi` over the keys still to visit. */
  function FillIaqi(attrs: map<Json, Json>, iaqi: Json, keys: seq<Json>): PyResult<map<Json, Json>>
    decreases |keys|
  {
    if keys == [] then Ok(attrs)
    else
      var name :- AttrKey(keys[0]);
      var entry :- Index(iaqi, keys[0]);
      var v :- Subscript(entry, "v");
      FillIaqi(attrs[name := v], iaqi, keys[1..])
  }

  /** `device_state_attributes` for the sensor's last reading `data`. */
  function Attributes(data: Json): PyResult<Option<map<Json, Json>>> {
    if data.Null? then Ok(None)
    else
      match AttributesHead(data)
      case Raised(e) => Handled(e)
      case Ok(head) =>
        match Iterate(head.1)
        case Raised(e) => Handled(e)
        case Ok(keys) =>
          match FillIaqi(head.0, head.1, keys)
          case Raised(e) => Handled(e)
          case Ok(attrs) => Ok(Some(attrs))
  }

  // ---------------------------------------------------------------------------
  // The sensor

  class WaqiSensor {
    var uid: Json
    var url: Json
    var stationName: Json
    var data: Json

    /** The sensor a station record gives, before any update. */
    predicate Describes(station: Json)
      reads this
    {
      && uid == StationUid(station)
      && url == StationUrl(station)
      && stationName == StationName(station)
      && data == Null
    }

    constructor (station: Json)
      ensures Describes(station)
    {
      uid := StationUid(station);
      url := StationUrl(station);
      stationName := StationName(station);
      data := Null;
    }

    /** "WAQI " followed by the station name, else the url, else the uid. */
    function Name(): (name: string)
      reads this
      ensures |name| >= 5 && name[..5] == "WAQI "
      ensures stationName.Str? && stationName.s != "" ==> name[5..] == stationName.s
      ensures !Truthy(stationName) && url.Str? && url.s != "" ==> name[5..] == url.s
      ensures !Truthy(stationName) && !Truthy(url) && uid.Num? ==> name[5..] == IntToString(uid.n)
      ensures !Truthy(stationName) && !Truthy(url) && uid.Str? ==> name[5..] == uid.s
      ensures !Truthy(stationName) && !Truthy(url) && uid.Bool? ==> name[5..] == if uid.b then "True" else "False"
      ensures !Truthy(stationName) && !Truthy(url) && uid.Null? ==> name == "WAQI None"
    {
      if Truthy(stationName) then "WAQI " + PyStr(stationName)
      else "WAQI " + PyStr(if Truthy(url) then url else uid)
    }

    /** The air quality index of the last reading; None without one. */
    function State(): (r: PyResult<Json>)
      reads this
      ensures data.Null? ==> r == Ok(Null)
      ensures data.Obj? ==> r == Ok(OrNull(Path(data, ["aqi"])))
      ensures !data.Null? && !data.Obj? ==> r == Raised(AttributeError)
    {
      assert ["aqi"][1..] == [];
      if !data.Null? then Get(data, "aqi", Null) else Ok(Null)
    }

    predicate Available()
      reads this
    {
      !data.Null?
    }

    /** Builds the attribute dictionary, filling `attrs` key by key as the loop over `iaqi` does. */
    method DeviceStateAttributes() returns (r: PyResult<Option<map<Json, Json>>>)
      ensures r == Attributes(data)
    {
      if data.Null? {
        return Ok(None);
      }
      var head := AttributesHead(data);
      if head.Raised? {
        return Handled(head.error);
      }
      var attrs := head.value.0;
      var iaqi := head.value.1;
      var iteration := Iterate(iaqi);
      if iteration.Raised? {
        return Handled(iteration.error);
      }
      var keys := iteration.value;
      var i := 0;
      while i < |keys|
        invariant 0 <= i <= |keys|
        invariant FillIaqi(head.value.0, iaqi, keys) == FillIaqi(attrs, iaqi, keys[i..])
      {
        var key := keys[i];
        assert keys[i..][0] == key && keys[i..][1..] == keys[i + 1..];
        var name := AttrKey(key);
        if name.Raised? {
          return Handled(name.error);
        }
        var entry := Index(iaqi, key);
        if entry.Raised? {
          return Handled(entry.error);
        }
        var v := Subscript(entry.value, "v");
        if v.Raised? {
          return Handled(v.error);
        }
        attrs := attrs[name.value := v.value];
        i := i + 1;
      }
      return Ok(Some(attrs));
    }

    /** Replaces the reading by the answer of the lookup the uid and url select. */
    method Update(byNumber: Json -> Json, byName: Json -> Json)
      modifies this
      ensures data == match SelectLookup(uid, url)
                      case ByNumber(n) => byNumber(n)
                      case ByName(u) => byName(u)
                      case NoLookup => Null
      ensures uid == old(uid) && url == old(url) && stationName == old(stationName)
    {
      var result;
      if Truthy(uid) {
        result := byNumber(uid);
      } else if Truthy(url) {
        result := byName(url);
      } else {
        result := Null;
      }
      data := result;
    }
  }

  // ---------------------------------------------------------------------------
  // Platform set-up

  /** `not station_filter or {uid, url, station_name} & set(station_filter)`. */
  predicate Keep(stationFilter: seq<Json>, uid: Json, url: Json, stationName: Json) {
    stationFilter == [] || {uid, url, stationName} * (set x | x in stationFilter) != {}
  }

  predicate KeepStation(stationFilter: seq<Json>, station: Json) {
    Keep(stationFilter, StationUid(station), StationUrl(station), StationName(station))
  }

  /** The stations of all searches, location by location. */
  function Flatten(searchResults: seq<seq<Json>>): seq<Json> {
    if searchResults == [] then []
    else Flatten(searchResults[..|searchResults| - 1]) + searchResults[|searchResults| - 1]
  }

  /** The stations whose sensors pass the filter, in order. */
  function KeptStations(stationFilter: seq<Json>, stations: seq<Json>): seq<Json> {
    if stations == [] then []
    else
      var last := stations[|stations| - 1];
      KeptStations(stationFilter, stations[..|stations| - 1]) + (if KeepStation(stationFilter, last) then [last] else [])
  }

  /**
   * `async_setup_platform` without the client: `searchResults[i]` is what the
   * search for the i-th location returned. One sensor per kept station, in order.
   */
  method SetupPlatform(stationFilter: seq<Json>, searchResults: seq<seq<Json>>) returns (dev: seq<WaqiSensor>)
    ensures |dev| == |KeptStations(stationFilter, Flatten(searchResults))|
    ensures forall k :: 0 <= k < |dev| ==>
      fresh(dev[k]) && dev[k].Describes(KeptStations(stationFilter, Flatten(searchResults))[k])
  {
    dev := [];
    var i := 0;
    while i < |searchResults|
      invariant 0 <= i <= |searchResults|
      invariant |dev| == |KeptStations(stationFilter, Flatten(searchResults[..i]))|
      invariant forall k :: 0 <= k < |dev| ==>
        fresh(dev[k]) && dev[k].Describes(KeptStations(stationFilter, Flatten(searchResults[..i]))[k])
    {
      var stations := searchResults[i];
      ghost var done := Flatten(searchResults[..i]);
      var j := 0;
      assert done + stations[..j] == done;
      while j < |stations|
        invariant 0 <= j <= |stations|
        invariant |dev| == |KeptStations(stationFilter, done + stations[..j])|
        invariant forall k :: 0 <= k < |dev| ==>
          fresh(dev[k]) && dev[k].Describes(KeptStations(stationFilter, done + stations[..j])[k])
      {
        var sensor := new WaqiSensor(stations[j]);
        if Keep(stationFilter, sensor.uid, sensor.url, sensor.stationName) {
          dev := dev + [sensor];
        }
        assert (done + stations[..j + 1])[..|done + stations[..j]|] == done + stations[..j];
        assert done + stations[..j + 1] == (done + stations[..j]) + [stations[j]];
        j := j + 1;
      }
      assert searchResults[..i + 1][..i] == searchResults[..i];
      assert stations[..j] == stations;
      i := i + 1;
    }
    assert searchResults[..i] == searchResults;
  }

  // ---------------------------------------------------------------------------
  // Properties of the attribute dictionary

  /** The attribute an `iaqi` key is stored under when it is a string. */
  function AttrName(key: string): Json {
    Str(if key in KEY_TO_ATTR then KEY_TO_ATTR[key] else key)
  }

  /** An `iaqi` dict whose every entry carries a value under "v". */
  predicate WellFormedIaqi(iaqi: Json) {
    && iaqi.Obj?
    && UniqueKeys(iaqi.fields)
    && forall i :: 0 <= i < |iaqi.fields| ==> Path(iaqi.fields[i].1, ["v"]).Some?
  }

  /** The (attribute, value) writes the loop makes for the entries of a well-formed `iaqi`, in order. */
  function IaqiWrites(fields: seq<(string, Json)>): (w: seq<(Json, Json)>)
    ensures |w| == |fields|
  {
    seq(|fields|, i requires 0 <= i < |fields| => (AttrName(fields[i].0), OrNull(Path(fields[i].1, ["v"]))))
  }

  /** A dictionary after a sequence of writes, each one replacing any earlier value of its key. */
  function Overlay(m: map<Json, Json>, writes: seq<(Json, Json)>): map<Json, Json>
    decreases |writes|
  {
    if writes == [] then m else Overlay(m[writes[0].0 := writes[0].1], writes[1..])
  }

  /** After the writes: every written key is present, the last write of a key wins, other keys keep their values. */
  lemma {:induction false} OverlayLastWriter(m: map<Json, Json>, writes: seq<(Json, Json)>)
    ensures Overlay(m, writes).Keys == m.Keys + (set i | 0 <= i < |writes| :: writes[i].0)
    ensures forall k :: k in m && (forall i :: 0 <= i < |writes| ==> writes[i].0 != k) ==> Overlay(m, writes)[k] == m[k]
    ensures forall i :: 0 <= i < |writes| && (forall j :: i < j < |writes| ==> writes[j].0 != writes[i].0) ==>
      Overlay(m, writes)[writes[i].0] == writes[i].1
    decreases |writes|
  {
    if writes != [] {
      var m' := m[writes[0].0 := writes[0].1];
      var rest := writes[1..];
      OverlayLastWriter(m', rest);
      var r := Overlay(m, writes);
      assert (set i | 0 <= i < |writes| :: writes[i].0) == {writes[0].0} + (set i | 0 <= i < |rest| :: rest[i].0) by {
        assert forall i :: 0 <= i < |rest| ==> rest[i] == writes[i + 1];
        assert forall i :: 0 < i < |writes| ==> writes[i] == rest[i - 1];
      }
      forall k | k in m && (forall i :: 0 <= i < |writes| ==> writes[i].0 != k)
        ensures r[k] == m[k]
      {
        assert writes[0].0 != k;
        forall i | 0 <= i < |rest| ensures rest[i].0 != k {
          assert rest[i] == writes[i + 1];
        }
      }
      forall i | 0 <= i < |writes| && (forall j :: i < j < |writes| ==> writes[j].0 != writes[i].0)
        ensures r[writes[i].0] == writes[i].1
      {
        if i == 0 {
          forall j | 0 <= j < |rest| ensures rest[j].0 != writes[0].0 {
            assert rest[j] == writes[j + 1];
          }
        } else {
          assert rest[i - 1] == writes[i];
          forall j | i - 1 < j < |rest| ensures rest[j].0 != rest[i - 1].0 {
            assert rest[j] == writes[j + 1];
          }
        }
      }
    }
  }

  /** `entry["v"]` when the entry is a dict holding "v". */
  lemma ValueOfEntry(entry: Json)
    requires Path(entry, ["v"]).Some?
    ensures Subscript(entry, "v") == Ok(Path(entry, ["v"]).value)
  {
    assert ["v"][1..] == [];
  }

  /** One turn of the loop over a dict decoded from JSON: entry `k` is read and its "v" stored. */
  lemma FillIaqiStep(attrs: map<Json, Json>, iaqi: Json, k: nat)
    requires iaqi.Obj? && UniqueKeys(iaqi.fields) && k < |iaqi.fields|
    ensures FillIaqi(attrs, iaqi, KeysOf(iaqi.fields)[k..]) ==
      match Subscript(iaqi.fields[k].1, "v")
      case Raised(e) => Raised(e)
      case Ok(v) => FillIaqi(attrs[AttrName(iaqi.fields[k].0) := v], iaqi, KeysOf(iaqi.fields)[k + 1..])
  {
    var fields := iaqi.fields;
    var keys := KeysOf(fields)[k..];
    assert keys[0] == Str(fields[k].0) && keys[1..] == KeysOf(fields)[k + 1..];
    FindUnique(fields, k);
    assert AttrKey(keys[0]) == Ok(AttrName(fields[k].0));
    assert Index(iaqi, keys[0]) == Ok(fields[k].1);
  }

  /** Over a well-formed `iaqi`, the loop from entry `n` on makes exactly the writes of those entries. */
  lemma {:induction false} FillIaqiOverlay(attrs: map<Json, Json>, iaqi: Json, n: nat)
    requires WellFormedIaqi(iaqi) && n <= |iaqi.fields|
    ensures FillIaqi(attrs, iaqi, KeysOf(iaqi.fields)[n..]) == Ok(Overlay(attrs, IaqiWrites(iaqi.fields)[n..]))
    decreases |iaqi.fields| - n
  {
    var fields := iaqi.fields;
    var writes := IaqiWrites(fields)[n..];
    if n == |fields| {
      assert KeysOf(fields)[n..] == [] && writes == [];
    } else {
      assert writes[0] == IaqiWrites(fields)[n] && writes[1..] == IaqiWrites(fields)[n + 1..];
      FillIaqiStep(attrs, iaqi, n);
      ValueOfEntry(fields[n].1);
      FillIaqiOverlay(attrs[writes[0].0 := writes[0].1], iaqi, n + 1);
    }
  }

  /** The loop stops with KeyError at the first entry lacking "v" when every earlier one has it. */
  lemma {:induction false} FillIaqiMissingValue(attrs: map<Json, Json>, iaqi: Json, k: nat, n: nat)
    requires iaqi.Obj? && UniqueKeys(iaqi.fields) && k <= n < |iaqi.fields|
    requires iaqi.fields[n].1.Obj? && !HasKey(iaqi.fields[n].1.fields, "v")
    requires forall i :: 0 <= i < n ==> Path(iaqi.fields[i].1, ["v"]).Some?
    ensures FillIaqi(attrs, iaqi, KeysOf(iaqi.fields)[k..]) == Raised(KeyError)
    decreases n - k
  {
    var fields := iaqi.fields;
    FillIaqiStep(attrs, iaqi, k);
    if k < n {
      ValueOfEntry(fields[k].1);
      FillIaqiMissingValue(attrs[AttrName(fields[k].0) := Path(fields[k].1, ["v"]).value], iaqi, k + 1, n);
    }
  }

  function Strs(names: seq<string>): (r: seq<Json>)
    ensures |r| == |names|
  {
    seq(|names|, i requires 0 <= i < |names| => Str(names[i]))
  }

  /** The attribution: ATTRIBUTION and then the name of each attribution, joined with " and ". */
  function AttributionLine(names: seq<string>): string {
    JoinStrings([ATTRIBUTION] + names, " and ")
  }

  /** The reading's attributions (none when the key is absent), each a dict whose "name" is `names[i]`. */
  predicate NamedAttributions(data: Json, names: seq<string>)
    requires data.Obj?
  {
    var attributions := if HasKey(data.fields, "attributions") then Find(data.fields, "attributions").value else Arr([]);
    && attributions.Arr?
    && |attributions.items| == |names|
    && forall i :: 0 <= i < |names| ==> Path(attributions.items[i], ["name"]) == Some(Str(names[i]))
  }

  lemma {:induction false} AttributionNamesOk(items: seq<Json>, names: seq<string>)
    requires |items| == |names|
    requires forall i :: 0 <= i < |names| ==> Path(items[i], ["name"]) == Some(Str(names[i]))
    ensures AttributionNames(items) == Ok(Strs(names))
    decreases |items|
  {
    assert ["name"][1..] == [];
    if items != [] {
      assert Path(items[0], ["name"]) == Some(Str(names[0]));
      forall i | 0 <= i < |names[1..]| ensures Path(items[1..][i], ["name"]) == Some(Str(names[1..][i])) {
        assert items[1..][i] == items[i + 1] && names[1..][i] == names[i + 1];
      }
      AttributionNamesOk(items[1..], names[1..]);
      assert Strs(names) == [Str(names[0])] + Strs(names[1..]);
    }
  }

  /** The statements before `time` succeed on well-named attributions and store the attribution line. */
  lemma AttributionStep(data: Json, names: seq<string>)
    requires data.Obj? && NamedAttributions(data, names)
    ensures Get(data, "attributions", Arr([])).Ok?
    ensures Iterate(Get(data, "attributions", Arr([])).value).Ok?
    ensures AttributionNames(Iterate(Get(data, "attributions", Arr([])).value).value) == Ok(Strs(names))
    ensures JoinAnd([Str(ATTRIBUTION)] + Strs(names)) == Ok(AttributionLine(names))
  {
    var attributions := Get(data, "attributions", Arr([])).value;
    AttributionNamesOk(attributions.items, names);
    var parts := [Str(ATTRIBUTION)] + Strs(names);
    assert seq(|parts|, i requires 0 <= i < |parts| => parts[i].s) == [ATTRIBUTION] + names;
  }

  /** The attributions list stops with KeyError at its first dict without "name" when the earlier ones have one. */
  lemma {:induction false} AttributionNamesMissing(items: seq<Json>, n: nat)
    requires n < |items| && items[n].Obj? && !HasKey(items[n].fields, "name")
    requires forall i :: 0 <= i < n ==> items[i].Obj? && HasKey(items[i].fields, "name")
    ensures AttributionNames(items) == Raised(KeyError)
    decreases n
  {
    if n > 0 {
      forall i | 0 <= i < n - 1 ensures items[1..][i].Obj? && HasKey(items[1..][i].fields, "name") {
        assert items[1..][i] == items[i + 1];
      }
      AttributionNamesMissing(items[1..], n - 1);
    }
  }

  /** The attributes of a well-formed reading: the base dictionary overlaid with the `iaqi` writes. */
  lemma AttributesOverlay(data: Json, names: seq<string>, time: Json)
    requires data.Obj? && NamedAttributions(data, names)
    requires Path(data, ["time", "s"]) == Some(time)
    requires HasKey(data.fields, "iaqi") && WellFormedIaqi(Find(data.fields, "iaqi").value)
    ensures Attributes(data) == Ok(Some(Overlay(
      BaseAttributes(AttributionLine(names), time, OrNull(Path(data, ["dominentpol"]))),
      IaqiWrites(Find(data.fields, "iaqi").value.fields))))
  {
    AttributionStep(data, names);
    assert ["time", "s"][1..] == ["s"] && ["s"][1..] == [] && ["dominentpol"][1..] == [];
    var iaqi := Find(data.fields, "iaqi").value;
    var base := BaseAttributes(AttributionLine(names), time, OrNull(Path(data, ["dominentpol"])));
    assert AttributesHead(data) == Ok((base, iaqi));
    assert KeysOf(iaqi.fields)[0..] == KeysOf(iaqi.fields) && IaqiWrites(iaqi.fields)[0..] == IaqiWrites(iaqi.fields);
    FillIaqiOverlay(base, iaqi, 0);
  }

  /**
   * A well-formed reading: the dictionary holds the attribution line, the time,
   * the dominant pollutant and, for each `iaqi` entry, its "v" value under the
   * renamed key; a later entry renamed to the same attribute wins.
   */
  lemma AttributesWellFormed(data: Json, names: seq<string>, time: Json)
    requires data.Obj? && NamedAttributions(data, names)
    requires Path(data, ["time", "s"]) == Some(time)
    requires HasKey(data.fields, "iaqi") && WellFormedIaqi(Find(data.fields, "iaqi").value)
    ensures Attributes(data).Ok? && Attributes(data).value.Some?
    ensures
      var fields := Find(data.fields, "iaqi").value.fields;
      var attrs := Attributes(data).value.value;
      && attrs.Keys ==
           {Str(ATTR_ATTRIBUTION), Str(ATTR_TIME), Str(ATTR_DOMINENTPOL)} + (set i | 0 <= i < |fields| :: AttrName(fields[i].0))
      && (forall i :: 0 <= i < |fields| && (forall j :: i < j < |fields| ==> AttrName(fields[j].0) != AttrName(fields[i].0)) ==>
            attrs[AttrName(fields[i].0)] == OrNull(Path(fields[i].1, ["v"])))
      && ((forall i :: 0 <= i < |fields| ==> AttrName(fields[i].0) != Str(ATTR_ATTRIBUTION)) ==>
            attrs[Str(ATTR_ATTRIBUTION)] == Str(AttributionLine(names)))
      && ((forall i :: 0 <= i < |fields| ==> AttrName(fields[i].0) != Str(ATTR_TIME)) ==>
            attrs[Str(ATTR_TIME)] == time)
  {
    var fields := Find(data.fields, "iaqi").value.fields;
    var base := BaseAttributes(AttributionLine(names), time, OrNull(Path(data, ["dominentpol"])));
    assert Attributes(data) == Ok(Some(Overlay(base, IaqiWrites(fields)))) by {
      AttributesOverlay(data, names, time);
    }
    assert base.Keys == {Str(ATTR_ATTRIBUTION), Str(ATTR_TIME), Str(ATTR_DOMINENTPOL)};
    assert base[Str(ATTR_ATTRIBUTION)] == Str(AttributionLine(names)) && base[Str(ATTR_TIME)] == time;
    IaqiOverlay(base, fields);
  }

  /** The `iaqi` writes over any dictionary, stated entry by entry. */
  lemma IaqiOverlay(base: map<Json, Json>, fields: seq<(string, Json)>)
    ensures
      var attrs := Overlay(base, IaqiWrites(fields));
      && attrs.Keys == base.Keys + (set i | 0 <= i < |fields| :: AttrName(fields[i].0))
      && (forall i :: 0 <= i < |fields| && (forall j :: i < j < |fields| ==> AttrName(fields[j].0) != AttrName(fields[i].0)) ==>
            attrs[AttrName(fields[i].0)] == OrNull(Path(fields[i].1, ["v"])))
      && (forall k :: k in base && (forall i :: 0 <= i < |fields| ==> AttrName(fields[i].0) != k) ==> attrs[k] == base[k])
  {
    var writes := IaqiWrites(fields);
    OverlayLastWriter(base, writes);
    assert forall i :: 0 <= i < |fields| ==> writes[i] == (AttrName(fields[i].0), OrNull(Path(fields[i].1, ["v"])));
  }

  /** Without "time", or with a "time" dict lacking "s", the result is exactly the fallback. */
  lemma MissingTimeFallback(data: Json, names: seq<string>)
    requires data.Obj? && NamedAttributions(data, names)
    requires !HasKey(data.fields, "time") ||
      (Find(data.fields, "time").value.Obj? && !HasKey(Find(data.fields, "time").value.fields, "s"))
    ensures Attributes(data) == Ok(Some(map[Str("attribution") := Str(ATTRIBUTION)]))
  {
    AttributionStep(data, names);
  }

  /** With a time but no "iaqi", the result is exactly the fallback. */
  lemma MissingIaqiFallback(data: Json, names: seq<string>, time: Json)
    requires data.Obj? && NamedAttributions(data, names)
    requires Path(data, ["time", "s"]) == Some(time)
    requires !HasKey(data.fields, "iaqi")
    ensures Attributes(data) == Ok(Some(map[Str("attribution") := Str(ATTRIBUTION)]))
  {
    AttributionStep(data, names);
    assert ["time", "s"][1..] == ["s"] && ["s"][1..] == [];
  }

  /** An `iaqi` entry without "v" (after entries that have one) gives exactly the fallback. */
  lemma MissingValueFallback(data: Json, names: seq<string>, time: Json, n: nat)
    requires data.Obj? && NamedAttributions(data, names)
    requires Path(data, ["time", "s"]) == Some(time)
    requires HasKey(data.fields, "iaqi")
    requires
      var iaqi := Find(data.fields, "iaqi").value;
      && iaqi.Obj? && UniqueKeys(iaqi.fields) && n < |iaqi.fields|
      && iaqi.fields[n].1.Obj? && !HasKey(iaqi.fields[n].1.fields, "v")
      && forall i :: 0 <= i < n ==> Path(iaqi.fields[i].1, ["v"]).Some?
    ensures Attributes(data) == Ok(Some(map[Str("attribution") := Str(ATTRIBUTION)]))
  {
    AttributionStep(data, names);
    assert ["time", "s"][1..] == ["s"] && ["s"][1..] == [];
    var iaqi := Find(data.fields, "iaqi").value;
    var base := BaseAttributes(AttributionLine(names), time, OrNull(Path(data, ["dominentpol"])));
    assert AttributesHead(data) == Ok((base, iaqi));
    assert KeysOf(iaqi.fields)[0..] == KeysOf(iaqi.fields);
    FillIaqiMissingValue(base, iaqi, 0, n);
  }

  /** An attribution dict without "name" (after ones that have it) gives exactly the fallback. */
  lemma UnnamedAttributionFallback(data: Json, items: seq<Json>, n: nat)
    requires data.Obj? && HasKey(data.fields, "attributions") && Find(data.fields, "attributions").value == Arr(items)
    requires n < |items| && items[n].Obj? && !HasKey(items[n].fields, "name")
    requires forall i :: 0 <= i < n ==> items[i].Obj? && HasKey(items[i].fields, "name")
    ensures Attributes(data) == Ok(Some(map[Str("attribution") := Str(ATTRIBUTION)]))
  {
    AttributionNamesMissing(items, n);
  }

  /** A "time" that is not a dict raises TypeError, which the `except` clause does not catch. */
  lemma TimeNotDictRaises(data: Json, names: seq<string>)
    requires data.Obj? && NamedAttributions(data, names)
    requires HasKey(data.fields, "time") && !Find(data.fields, "time").value.Obj?
    ensures Attributes(data) == Raised(TypeError)
  {
    AttributionStep(data, names);
  }

  /** No reading gives None; a reading that is not a dict raises AttributeError at `.get`. */
  lemma AttributesWithoutDict(data: Json)
    requires !data.Obj?
    ensures data.Null? ==> Attributes(data) == Ok(None)
    ensures !data.Null? ==> Attributes(data) == Raised(AttributeError)
  {
  }

  /** Whatever the reading, only TypeError or AttributeError escape `device_state_attributes`. */
  lemma AttributesEscapes(data: Json)
    ensures Attributes(data).Raised? ==> Attributes(data).error == TypeError || Attributes(data).error == AttributeError
    ensures Attributes(data).Raised? ==> Attributes(data).error != KeyError && Attributes(data).error != IndexError
  {
  }

  // ---------------------------------------------------------------------------
  // Properties of state, availability and the filter

  /** A sensor is available iff it has a reading; without one its state is None. */
  lemma StateAndAvailability(sensor: WaqiSensor)
    ensures sensor.Available() <==> sensor.data != Null
    ensures !sensor.Available() ==> sensor.State() == Ok(Null)
    ensures sensor.State().Ok? && sensor.State().value != Null ==> sensor.Available()
  {
  }

  /** A station is kept iff there is no filter or its uid, url or name is one of the filter's entries. */
  lemma KeepIff(stationFilter: seq<Json>, uid: Json, url: Json, stationName: Json)
    ensures Keep(stationFilter, uid, url, stationName) <==>
      stationFilter == [] || uid in stationFilter || url in stationFilter || stationName in stationFilter
  {
    var filterSet := set x | x in stationFilter;
    if uid in stationFilter { assert uid in {uid, url, stationName} * filterSet; }
    if url in stationFilter { assert url in {uid, url, stationName} * filterSet; }
    if stationName in stationFilter { assert stationName in {uid, url, stationName} * filterSet; }
    if stationFilter != [] && {uid, url, stationName} * filterSet != {} {
      var x :| x in {uid, url, stationName} * filterSet;
      assert x in stationFilter;
    }
  }

  /** A station is among the kept ones iff it was returned by a search and passes the filter. */
  lemma {:induction false} KeptMembership(stationFilter: seq<Json>, stations: seq<Json>, s: Json)
    ensures s in KeptStations(stationFilter, stations) <==> s in stations && KeepStation(stationFilter, s)
  {
    if stations != [] {
      var init := stations[..|stations| - 1];
      KeptMembership(stationFilter, init, s);
      assert stations == init + [stations[|stations| - 1]];
    }
  }

  /** Without a filter every station returned by the searches gets a sensor, in order. */
  lemma {:induction false} KeptWithoutFilter(stations: seq<Json>)
    ensures KeptStations([], stations) == stations
  {
    if stations != [] {
      var init := stations[..|stations| - 1];
      KeptWithoutFilter(init);
      assert stations == init + [stations[|stations| - 1]];
    }
  }
}
