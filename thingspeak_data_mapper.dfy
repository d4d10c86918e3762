/**
 * Turning one upstream feed entry into the four classified parameter
 * records, and channel metadata into the station record
 * (src/utils/thingSpeakDataMapper.ts).
 */
module ThingSpeakDataMapper {
  import opened Types
  import opened JsNumbers

  /**
   * One raw feed entry. A numeric field holds what `parseFloat` makes of the
   * raw text, None standing for NaN (missing or unparsable text); an alert
   * field holds the raw text, None when the field is absent or null.
   * `createdAt` is the instant `new Date(created_at)` yields.
   */
  datatype Entry = Entry(
    createdAt: Time,
    field1: Option<real>,   // temperature
    field2: Option<real>,   // humidity
    field3: Option<real>,   // pressure, in kPa
    field4: Option<real>,   // light
    field5: Option<string>, // temperature alert
    field6: Option<string>, // humidity alert
    field7: Option<string>, // pressure alert
    field8: Option<string>) // light alert

  /** `parseFloat(field) || 0`: NaN becomes zero (on exact reals, so does -0). */
  function OrZero(f: Option<real>): (v: real)
    ensures f.None? ==> v == 0.0
    ensures f.Some? ==> v == f.value
  {
    match f
    case Some(x) => x
    case None => 0.0
  }

  /** `parseFloat(field) * 10 || 0`: kPa to hPa, NaN becomes zero. */
  function PressureHpa(f: Option<real>): (p: real)
    ensures f.None? ==> p == 0.0
    ensures f.Some? ==> p == f.value * 10.0
  {
    match f
    case Some(x) => x * 10.0
    case None => 0.0
  }

  /**
   * An alert flag is set exactly when its field is the text "1": a strict
   * text comparison, so other spellings of one, or an absent field, do not count.
   */
  predicate AlertFlag(f: Option<string>): (b: bool)
    ensures f == Some("1") ==> b
    ensures b ==> f.Some? && |f.value| == 1 && ParseNat(f.value) == Some(1)
    ensures f.None? || f == Some("01") || f == Some("1.0") || f == Some("true") ==> !b
  {
    f == Some("1")
  }

  function TemperatureStatus(t: real, alert: bool): (s: Status)
    ensures s == Critical <==> t < 15.0 || t > 30.0
    ensures alert ==> s != Normal
    ensures !alert ==> (s == Normal <==> 18.0 <= t <= 25.0)
  {
    if alert then
      if t < 15.0 || t > 30.0 then Critical else Warning
    else if t < 18.0 || t > 25.0 then
      if t < 15.0 || t > 30.0 then Critical else Warning
    else Normal
  }

  function HumidityStatus(h: real, alert: bool): (s: Status)
    ensures s == Critical <==> h < 10.0 || h > 80.0
    ensures alert ==> s != Normal
    ensures !alert ==> (s == Normal <==> 30.0 <= h <= 50.0)
  {
    if alert then
      if h < 10.0 || h > 80.0 then Critical else Warning
    else if h < 30.0 || h > 50.0 then
      if h < 10.0 || h > 80.0 then Critical else Warning
    else Normal
  }

  /** The sub-band in which pressure is a warning whatever the alert flag says. */
  predicate InPressureWarningBand(p: real)
  {
    980.0 <= p <= 989.0
  }

  function PressureStatus(p: real, alert: bool): (s: Status)
    ensures s == Warning <==> InPressureWarningBand(p)
    ensures alert ==> (s == Critical <==> !InPressureWarningBand(p))
    ensures alert ==> s != Normal
    ensures !alert ==> (s == Normal <==> 950.0 <= p <= 1050.0 && !InPressureWarningBand(p))
  {
    if alert then
      if p >= 980.0 && p <= 989.0 then Warning else Critical
    else if p >= 980.0 && p <= 989.0 then Warning
    else if p < 950.0 || p > 1050.0 then Critical
    else Normal
  }

  function LightStatus(l: real, alert: bool): (s: Status)
    ensures s == Critical <==> l == 0.0 || l > 200.0
    ensures alert ==> s != Normal
    ensures !alert ==> (s == Warning <==> 0.0 < l < 100.0)
    ensures !alert ==> (s == Normal <==> l < 0.0 || 100.0 <= l <= 200.0)
  {
    if alert then
      if l == 0.0 || l > 200.0 then Critical else Warning
    else if l > 0.0 && l < 100.0 then Warning
    else if l == 0.0 || l > 200.0 then Critical
    else Normal
  }

  const TemperatureRanges := Ranges(Range(18.0, 25.0), Range(15.0, 30.0))
  const HumidityRanges := Ranges(Range(30.0, 50.0), Range(10.0, 80.0))
  const PressureRanges := Ranges(Range(990.0, 1020.0), Range(980.0, 989.0))
  const LightRanges := Ranges(Range(100.0, 200.0), Range(1.0, 99.0))

  /** The readings an entry carries, after the parsing defaults and the pressure conversion. */
  function Temperature(e: Entry): real { OrZero(e.field1) }
  function Humidity(e: Entry): real { OrZero(e.field2) }
  function Pressure(e: Entry): real { PressureHpa(e.field3) }
  function Light(e: Entry): real { OrZero(e.field4) }

  /** The ids of the four records, in the order the dashboard shows them. */
  const ParameterIds: seq<string> := ["temperature", "humidity", "pressure", "light"]

  function MapThingSpeakToParameterData(e: Entry): (r: seq<ParameterData>)
    ensures |r| == 4
    ensures forall i :: 0 <= i < 4 ==> r[i].id == ParameterIds[i] && r[i].lastUpdated == e.createdAt
    ensures r[0].status == TemperatureStatus(Temperature(e), AlertFlag(e.field5))
    ensures r[1].status == HumidityStatus(Humidity(e), AlertFlag(e.field6))
    ensures r[2].status == PressureStatus(Pressure(e), AlertFlag(e.field7))
    ensures r[3].status == LightStatus(Light(e), AlertFlag(e.field8))
    ensures r[0].value == RoundToTenth(Temperature(e)) && r[1].value == RoundToTenth(Humidity(e))
    ensures r[2].value == Round(Pressure(e)) as real && r[3].value == Round(Light(e)) as real
    ensures Temperature(e) - 0.05 < r[0].value <= Temperature(e) + 0.05
    ensures Humidity(e) - 0.05 < r[1].value <= Humidity(e) + 0.05
    ensures Pressure(e) - 0.5 < r[2].value <= Pressure(e) + 0.5
    ensures Light(e) - 0.5 < r[3].value <= Light(e) + 0.5
    ensures r[0].ranges == TemperatureRanges && r[1].ranges == HumidityRanges
    ensures r[2].ranges == PressureRanges && r[3].ranges == LightRanges
    ensures r[0].name == "Temperature" && r[0].unit == "°C" && r[0].icon == "Thermometer"
    ensures r[1].name == "Humidity" && r[1].unit == "%" && r[1].icon == "Droplets"
    ensures r[2].name == "Pressure" && r[2].unit == "hPa" && r[2].icon == "Gauge"
    ensures r[3].name == "Light Intensity" && r[3].unit == "lumen" && r[3].icon == "Sun"
  {
    var temperature := Temperature(e);
    var humidity := Humidity(e);
    var pressure := Pressure(e);
    var light := Light(e);
    [
      ParameterData("temperature", "Temperature", RoundToTenth(temperature), "°C", "Thermometer",
                    TemperatureStatus(temperature, AlertFlag(e.field5)), e.createdAt, TemperatureRanges),
      ParameterData("humidity", "Humidity", RoundToTenth(humidity), "%", "Droplets",
                    HumidityStatus(humidity, AlertFlag(e.field6)), e.createdAt, HumidityRanges),
      ParameterData("pressure", "Pressure", Round(pressure) as real, "hPa", "Gauge",
                    PressureStatus(pressure, AlertFlag(e.field7)), e.createdAt, PressureRanges),
      ParameterData("light", "Light Intensity", Round(light) as real, "lumen", "Sun",
                    LightStatus(light, AlertFlag(e.field8)), e.createdAt, LightRanges)
    ]
  }

  /** `s`, raised to warning when it is normal. */
  function AtLeastWarning(s: Status): (r: Status)
    ensures Severity(r) == if Severity(s) < 1 then 1 else Severity(s)
  {
    if s == Normal then Warning else s
  }

  /**
   * An alert flag on temperature, humidity or light turns a normal reading
   * into a warning and leaves warning and critical readings as they are.
   */
  lemma AlertRaisesToWarning(t: real, h: real, l: real)
    ensures TemperatureStatus(t, true) == AtLeastWarning(TemperatureStatus(t, false))
    ensures HumidityStatus(h, true) == AtLeastWarning(HumidityStatus(h, false))
    ensures LightStatus(l, true) == AtLeastWarning(LightStatus(l, false))
  {
  }

  /**
   * An alert flag on pressure forces critical, except in the 980-989 hPa
   * sub-band, where the reading stays a warning with or without the flag.
   */
  lemma PressureAlertPrecedence(p: real)
    ensures PressureStatus(p, true) == if PressureStatus(p, false) == Warning then Warning else Critical
    ensures Severity(PressureStatus(p, true)) >= Severity(PressureStatus(p, false))
  {
  }

  /** The boundary cases of the classifier. */
  lemma ClassifierBoundaries()
    ensures TemperatureStatus(18.0, false) == Normal && TemperatureStatus(25.0, false) == Normal
    ensures TemperatureStatus(17.9, false) == Warning && TemperatureStatus(25.1, false) == Warning
    ensures TemperatureStatus(14.9, false) == Critical && TemperatureStatus(30.1, false) == Critical
    ensures PressureStatus(985.0, true) == Warning && PressureStatus(900.0, true) == Critical
    ensures LightStatus(0.0, true) == Critical && LightStatus(0.0, false) == Critical
    ensures LightStatus(150.0, false) == Normal
  {
  }

  /** A quiet entry with every reading in band maps to four normal records. */
  lemma QuietEntryIsNormal(at: Time)
    ensures var r := MapThingSpeakToParameterData(Entry(at, Some(22.0), Some(45.0), Some(101.5), Some(150.0),
                                                        Some("0"), Some("0"), Some("0"), Some("0")));
            && r[0].value == 22.0 && r[1].value == 45.0 && r[2].value == 1015.0 && r[3].value == 150.0
            && forall i :: 0 <= i < 4 ==> r[i].status == Normal
  {
    assert Round(220.0) == 220;
    assert Round(450.0) == 450;
    assert Round(1015.0) == 1015;
    assert Round(150.0) == 150;
  }

  /**
   * The channel metadata the station record is built from: each field None
   * when the upstream object lacks it.
   */
  datatype Channel = Channel(id: Option<int>, name: Option<string>, description: Option<string>)

  const DefaultStationId := "station-001"
  const DefaultStationName := "Environmental Station Alpha"
  const DefaultStationLocation := "Building A - Floor 3"

  /** `field || fallback` on a string field: absent or empty gives the fallback. */
  function OrDefault(f: Option<string>, fallback: string): (s: string)
    ensures f.Some? && f.value != "" ==> s == f.value
    ensures f.None? || f.value == "" ==> s == fallback
  {
    if f.Some? && f.value != "" then f.value else fallback
  }

  /** `channel.id?.toString() || "station-001"`: the decimal text of the id, or the default when absent. */
  function StationIdText(id: Option<int>): (s: string)
    ensures s == DefaultStationId <==> id.None?
    ensures id.Some? ==> ParseInt(s) == Some(id.value)
  {
    match id
    case Some(n) =>
      IntToStringRoundTrip(n);
      assert IntToString(n)[0] != DefaultStationId[0];
      IntToString(n)
    case None => DefaultStationId
  }

  function MapChannelToStationInfo(c: Channel, lastSync: Time): (r: StationInfo)
    ensures r.status == Online && r.lastSync == lastSync
    ensures r.id == DefaultStationId <==> c.id.None?
    ensures c.id.Some? ==> ParseInt(r.id) == Some(c.id.value)
    ensures r.name == OrDefault(c.name, DefaultStationName)
    ensures r.location == OrDefault(c.description, DefaultStationLocation)
  {
    StationInfo(StationIdText(c.id), OrDefault(c.name, DefaultStationName),
                OrDefault(c.description, DefaultStationLocation), Online, lastSync)
  }
}
