/**
 * Offline sample data: the generic band classifier over fixed parameter
 * templates, and the default station (src/utils/mockData.ts). The random
 * draw behind each sample value is a parameter.
 */
module MockData {
  import opened Types
  import opened JsNumbers
  import ThingSpeakDataMapper

  /** A parameter record without its value, status and timestamp. */
  datatype Template = Template(id: string, name: string, unit: string, icon: string, ranges: Ranges)

  const BaseData: seq<Template> := [
    Template("temperature", "Temperature", "°C", "Thermometer", Ranges(Range(18.0, 25.0), Range(15.0, 30.0))),
    Template("humidity", "Humidity", "%", "Droplets", Ranges(Range(40.0, 60.0), Range(30.0, 70.0))),
    Template("pressure", "Pressure", "hPa", "Gauge", Ranges(Range(1000.0, 1020.0), Range(980.0, 1040.0))),
    Template("light", "Light Intensity", "lux", "Sun", Ranges(Range(200.0, 800.0), Range(100.0, 1000.0)))
  ]

  /** The sample value for a parameter, given the `Math.random()` draw. */
  function SampleValue(id: string, draw: real): (v: real)
    ensures 0.0 <= draw < 1.0 && id == "temperature" ==> 15.0 <= v < 35.0
    ensures 0.0 <= draw < 1.0 && id == "humidity" ==> 30.0 <= v < 80.0
    ensures 0.0 <= draw < 1.0 && id == "pressure" ==> 980.0 <= v < 1060.0
    ensures 0.0 <= draw < 1.0 && id == "light" ==> 50.0 <= v < 1050.0
    ensures 0.0 <= draw < 1.0 ==> 0.0 <= v < 1060.0
  {
    if id == "temperature" then 15.0 + draw * 20.0
    else if id == "humidity" then 30.0 + draw * 50.0
    else if id == "pressure" then 980.0 + draw * 80.0
    else if id == "light" then 50.0 + draw * 1000.0
    else draw * 100.0
  }

  /** Normal inside the normal band, else warning inside the warning band, else critical; all bounds inclusive. */
  function BandStatus(v: real, ranges: Ranges): (s: Status)
    ensures s == Normal <==> InRange(v, ranges.normal)
    ensures s == Warning <==> !InRange(v, ranges.normal) && InRange(v, ranges.warning)
    ensures s == Critical <==> !InRange(v, ranges.normal) && !InRange(v, ranges.warning)
  {
    if v >= ranges.normal.min && v <= ranges.normal.max then Normal
    else if v >= ranges.warning.min && v <= ranges.warning.max then Warning
    else Critical
  }

  /** The normal band is not empty and lies inside the warning band. */
  predicate Nested(ranges: Ranges)
  {
    ranges.warning.min <= ranges.normal.min <= ranges.normal.max <= ranges.warning.max
  }

  /** With nested bands, moving a value away from the normal band never lowers its severity. */
  lemma BandStatusMonotone(ranges: Ranges, v: real, w: real)
    requires Nested(ranges)
    requires w <= v <= ranges.normal.min || ranges.normal.max <= v <= w
    ensures Severity(BandStatus(w, ranges)) >= Severity(BandStatus(v, ranges))
  {
  }

  /** Every template's bands are nested. */
  lemma BaseDataNested()
    ensures forall i :: 0 <= i < |BaseData| ==> Nested(BaseData[i].ranges)
  {
  }

  /** One element of the map: the template's fields, the value rounded to a tenth, the status of the unrounded value. */
  function MockEntry(t: Template, draw: real, now: Time): (p: ParameterData)
    ensures p.id == t.id && p.name == t.name && p.unit == t.unit && p.icon == t.icon && p.ranges == t.ranges
    ensures p.lastUpdated == now
    ensures p.status == BandStatus(SampleValue(t.id, draw), t.ranges)
    ensures p.value == RoundToTenth(SampleValue(t.id, draw))
    ensures SampleValue(t.id, draw) - 0.05 < p.value <= SampleValue(t.id, draw) + 0.05
  {
    var value := SampleValue(t.id, draw);
    ParameterData(t.id, t.name, RoundToTenth(value), t.unit, t.icon, BandStatus(value, t.ranges), now, t.ranges)
  }

  /**
   * `baseData.map(...)`. Each element reads the clock (`new Date()`) and
   * draws a random number of its own: `nows[i]` and `draws[i]`.
   */
  function GenerateMockData(draws: seq<real>, nows: seq<Time>): (r: seq<ParameterData>)
    requires |draws| == |BaseData| && |nows| == |BaseData|
    ensures |r| == |BaseData|
    ensures forall i :: 0 <= i < |r| ==>
      && r[i].id == BaseData[i].id && r[i].name == BaseData[i].name && r[i].unit == BaseData[i].unit
      && r[i].icon == BaseData[i].icon && r[i].ranges == BaseData[i].ranges && r[i].lastUpdated == nows[i]
    ensures forall i :: 0 <= i < |r| ==>
      var v := SampleValue(BaseData[i].id, draws[i]);
      && r[i].status == BandStatus(v, BaseData[i].ranges)
      && r[i].value == RoundToTenth(v)
      && v - 0.05 < r[i].value <= v + 0.05
  {
    seq(|BaseData|, i requires 0 <= i < |BaseData| => MockEntry(BaseData[i], draws[i], nows[i]))
  }

  /** A sample inside its normal band is never reported as a warning or as critical. */
  lemma NormalSampleIsNormal(draws: seq<real>, nows: seq<Time>, i: nat)
    requires |draws| == |BaseData| && |nows| == |BaseData| && i < |BaseData|
    requires InRange(SampleValue(BaseData[i].id, draws[i]), BaseData[i].ranges.normal)
    ensures GenerateMockData(draws, nows)[i].status == Normal
  {
  }

  /** The status follows the unrounded value: a sample of 17.96 degrees shows as 18.0, inside the normal band, and is a warning. */
  lemma StatusUsesUnroundedValue(now: Time)
    ensures var r := GenerateMockData([0.148, 0.5, 0.5, 0.5], [now, now, now, now]);
            && r[0].value == 18.0 && InRange(r[0].value, r[0].ranges.normal) && r[0].status == Warning
  {
    assert SampleValue("temperature", 0.148) == 17.96;
    assert Round(179.6) == 180;
  }

  /** The sample station: the same record the channel mapper builds from a channel with no fields. */
  function GetStationInfo(now: Time): (r: StationInfo)
    ensures r.id == "station-001" && r.status == Online && r.lastSync == now
    ensures r == ThingSpeakDataMapper.MapChannelToStationInfo(ThingSpeakDataMapper.Channel(None, None, None), now)
  {
    StationInfo("station-001", "Environmental Station Alpha", "Building A - Floor 3", Online, now)
  }
}
