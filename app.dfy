/**
 * The dashboard's state and one poll cycle of `fetchData`, with the alert
 * counts and the status summary derived from it (src/App.tsx). The outcome
 * of each network call of the cycle is an input.
 */
module App {
  import opened Types
  import opened JsNumbers
  import opened ThingSpeakDataMapper

  /**
   * The station record the dashboard holds. The record it starts with lacks
   * a location and a status (they are undefined), hence the options.
   */
  datatype StationState = StationState(
    id: string,
    name: string,
    location: Option<string>,
    status: Option<StationStatus>,
    lastSync: Time)

  function FromInfo(s: StationInfo): StationState
  {
    StationState(s.id, s.name, Some(s.location), Some(s.status), s.lastSync)
  }

  const InitialStationId := "station-001"
  const InitialStationName := "Technolgie Internetu Rzeczy - IoT Station"
  const OfflineMessage := "Failed to fetch sensor data. Using offline mode."

  /** What the latest-entry request gave: an entry, null, or a failure (thrown). */
  datatype EntryOutcome = EntryPresent(entry: Entry) | EntryNull | EntryFailed

  /** What the channel metadata request gave; it is only made when the entry request did not fail. */
  datatype ChannelOutcome = ChannelLoaded(channel: Channel) | ChannelFailed

  datatype DashState = DashState(
    parameters: seq<ParameterData>,
    station: StationState,
    loading: bool,
    error: Option<string>)

  /**
   * The state before the first poll: no records, the placeholder station
   * without location or status, stamped with the starting time; loading, no error.
   */
  function InitialState(now: Time): (s: DashState)
    ensures WellFormed(s)
    ensures s.parameters == [] && s.loading && s.error.None?
    ensures s.station.id == "station-001" && s.station.lastSync == now
    ensures s.station.location.None? && s.station.status.None?
  {
    DashState([], StationState(InitialStationId, InitialStationName, None, None, now), true, None)
  }

  /** The state after one complete poll cycle started in `s`. */
  function Cycle(s: DashState, entry: EntryOutcome, channel: ChannelOutcome, now: Time): (r: DashState)
    ensures !r.loading
    ensures r.error.Some? <==> entry.EntryFailed?
    ensures r.error.Some? ==> r.error.value == OfflineMessage
    ensures entry.EntryPresent? ==> r.parameters == MapThingSpeakToParameterData(entry.entry)
    ensures !entry.EntryPresent? ==> r.parameters == s.parameters
    ensures entry.EntryFailed? ==> r.station == s.station.(status := Some(Offline))
    ensures !entry.EntryFailed? && channel.ChannelFailed? ==> r.station == s.station
    ensures !entry.EntryFailed? && channel.ChannelLoaded? ==>
      r.station == FromInfo(MapChannelToStationInfo(channel.channel, now))
  {
    if entry.EntryFailed? then
      DashState(s.parameters, s.station.(status := Some(Offline)), false, Some(OfflineMessage))
    else
      var parameters := if entry.EntryPresent? then MapThingSpeakToParameterData(entry.entry) else s.parameters;
      var station := match channel
        case ChannelLoaded(c) => FromInfo(MapChannelToStationInfo(c, now))
        case ChannelFailed => s.station;
      DashState(parameters, station, false, None)
  }

  /** A failed cycle does not depend on the channel request, which it never makes, nor on the clock. */
  lemma FailedCycleIgnoresChannel(s: DashState, c1: ChannelOutcome, c2: ChannelOutcome, t1: Time, t2: Time)
    ensures Cycle(s, EntryFailed, c1, t1) == Cycle(s, EntryFailed, c2, t2)
  {
  }

  /**
   * What every reachable state satisfies: the parameters are either none or
   * the mapper's four records for some entry (so the ids temperature,
   * humidity, pressure, light in that order), and an error is always the
   * offline message shown with an offline station.
   */
  ghost predicate WellFormed(s: DashState)
  {
    && (s.parameters == [] || exists e :: s.parameters == MapThingSpeakToParameterData(e))
    && (|s.parameters| == 0
        || (|s.parameters| == 4 && forall i :: 0 <= i < 4 ==> s.parameters[i].id == ParameterIds[i]))
    && (s.error.Some? ==> s.error.value == OfflineMessage && s.station.status == Some(Offline))
  }

  /** A cycle keeps the state well formed. */
  lemma CycleKeepsWellFormed(s: DashState, entry: EntryOutcome, channel: ChannelOutcome, now: Time)
    requires WellFormed(s)
    ensures WellFormed(Cycle(s, entry, channel, now))
  {
    if entry.EntryPresent? {
      assert Cycle(s, entry, channel, now).parameters == MapThingSpeakToParameterData(entry.entry);
    }
  }

  /** How many of the records have status `st`: `parameters.filter(p => p.status === st).length`. */
  function CountStatus(ps: seq<ParameterData>, st: Status): (n: nat)
    ensures n <= |ps|
  {
    if ps == [] then 0 else (if ps[0].status == st then 1 else 0) + CountStatus(ps[1..], st)
  }

  /** How many records are critical: the multiplicity of `Critical` among their statuses. */
  function CriticalCount(ps: seq<ParameterData>): (n: nat)
    ensures n == multiset(Statuses(ps))[Critical] && n <= |ps|
  {
    CountIsMultiplicity(ps, Critical);
    CountStatus(ps, Critical)
  }

  /** How many records are warnings: the multiplicity of `Warning` among their statuses. */
  function WarningCount(ps: seq<ParameterData>): (n: nat)
    ensures n == multiset(Statuses(ps))[Warning] && n <= |ps|
  {
    CountIsMultiplicity(ps, Warning);
    CountStatus(ps, Warning)
  }

  /** The statuses of the records, in order. */
  function Statuses(ps: seq<ParameterData>): (r: seq<Status>)
    ensures |r| == |ps| && forall i :: 0 <= i < |ps| ==> r[i] == ps[i].status
  {
    seq(|ps|, i requires 0 <= i < |ps| => ps[i].status)
  }

  /** The count is the number of occurrences of the status among the records. */
  lemma {:induction false} CountIsMultiplicity(ps: seq<ParameterData>, st: Status)
    ensures CountStatus(ps, st) == multiset(Statuses(ps))[st]
  {
    if ps != [] {
      CountIsMultiplicity(ps[1..], st);
      assert Statuses(ps) == [ps[0].status] + Statuses(ps[1..]);
    }
  }

  /** The count is positive exactly when some record has that status. */
  lemma {:induction false} CountPositiveIff(ps: seq<ParameterData>, st: Status)
    ensures CountStatus(ps, st) > 0 <==> exists i :: 0 <= i < |ps| && ps[i].status == st
  {
    if ps != [] {
      CountPositiveIff(ps[1..], st);
      if CountStatus(ps[1..], st) > 0 {
        var i :| 0 <= i < |ps| - 1 && ps[1..][i].status == st;
        assert ps[i + 1].status == st;
      }
      if exists i :: 1 <= i < |ps| && ps[i].status == st {
        var i :| 1 <= i < |ps| && ps[i].status == st;
        assert ps[1..][i - 1].status == st;
      }
    }
  }

  /** Every record is counted under exactly one status. */
  lemma {:induction false} CountsPartition(ps: seq<ParameterData>)
    ensures CountStatus(ps, Normal) + CountStatus(ps, Warning) + CountStatus(ps, Critical) == |ps|
  {
    if ps != [] {
      CountsPartition(ps[1..]);
    }
  }

  /** The "System Status" box is shown when there is a critical alert or a warning. */
  predicate ShowSummary(ps: seq<ParameterData>): (b: bool)
    ensures b <==> (exists i :: 0 <= i < |ps| && ps[i].status == Critical) || (exists i :: 0 <= i < |ps| && ps[i].status == Warning)
  {
    CountPositiveIff(ps, Critical);
    CountPositiveIff(ps, Warning);
    CriticalCount(ps) > 0 || WarningCount(ps) > 0
  }

  /** The box is shown exactly when some record is not normal. */
  lemma SummaryShownIff(ps: seq<ParameterData>)
    ensures ShowSummary(ps) <==> exists i :: 0 <= i < |ps| && ps[i].status != Normal
  {
    CountPositiveIff(ps, Critical);
    CountPositiveIff(ps, Warning);
    if exists i :: 0 <= i < |ps| && ps[i].status != Normal {
      var i :| 0 <= i < |ps| && ps[i].status != Normal;
      assert ps[i].status == Critical || ps[i].status == Warning;
    }
  }

  /** An entry with any alert flag set always brings up the status box and never counts four normal records. */
  lemma AlertedEntryShowsSummary(e: Entry)
    requires AlertFlag(e.field5) || AlertFlag(e.field6) || AlertFlag(e.field7) || AlertFlag(e.field8)
    ensures ShowSummary(MapThingSpeakToParameterData(e))
    ensures CountStatus(MapThingSpeakToParameterData(e), Normal) < 4
  {
    var r := MapThingSpeakToParameterData(e);
    SummaryShownIff(r);
    CountsPartition(r);
    assert exists i :: 0 <= i < |r| && r[i].status != Normal by {
      if AlertFlag(e.field5) { assert r[0].status != Normal; }
      else if AlertFlag(e.field6) { assert r[1].status != Normal; }
      else if AlertFlag(e.field7) { assert r[2].status != Normal; }
      else { assert r[3].status != Normal; }
    }
    CountPositiveIff(r, Critical);
    CountPositiveIff(r, Warning);
  }

  /** The plural ending of a count. */
  function Plural(n: nat): (s: string)
    ensures s == "s" <==> n > 1
    ensures s == "" <==> n <= 1
  {
    if n > 1 then "s" else ""
  }

  /** "N Critical Alert(s)": the count in decimal, read back from the text, then the noun. */
  function CriticalLabel(n: nat): (s: string)
    ensures |s| > |NatToString(n)| && AllDigits(s[..|NatToString(n)|]) && s[|NatToString(n)|] == ' '
    ensures ParseNat(s[..|NatToString(n)|]) == Some(n)
    ensures s[|NatToString(n)|..] == if n > 1 then " Critical Alerts" else " Critical Alert"
  {
    NatToStringRoundTrip(n);
    var s := NatToString(n) + " Critical Alert" + Plural(n);
    assert s[..|NatToString(n)|] == NatToString(n);
    assert s[|NatToString(n)|..] == " Critical Alert" + Plural(n);
    s
  }

  /** "N Warning(s)": the count in decimal, read back from the text, then the noun. */
  function WarningLabel(n: nat): (s: string)
    ensures |s| > |NatToString(n)| && AllDigits(s[..|NatToString(n)|]) && s[|NatToString(n)|] == ' '
    ensures ParseNat(s[..|NatToString(n)|]) == Some(n)
    ensures s[|NatToString(n)|..] == if n > 1 then " Warnings" else " Warning"
  {
    NatToStringRoundTrip(n);
    var s := NatToString(n) + " Warning" + Plural(n);
    assert s[..|NatToString(n)|] == NatToString(n);
    assert s[|NatToString(n)|..] == " Warning" + Plural(n);
    s
  }

  /** Different counts give different labels, so a label names its count. */
  lemma LabelsInjective(m: nat, n: nat)
    ensures CriticalLabel(m) == CriticalLabel(n) ==> m == n
    ensures WarningLabel(m) == WarningLabel(n) ==> m == n
  {
  }

  /** The dashboard component's state, updated in place by each poll cycle. */
  class Dashboard {
    var parameters: seq<ParameterData>
    var stationInfo: StationState
    var loading: bool
    var error: Option<string>

    function State(): DashState
      reads this
    {
      DashState(parameters, stationInfo, loading, error)
    }

    ghost predicate Valid()
      reads this
    {
      WellFormed(State())
    }

    constructor (now: Time)
      ensures Valid() && State() == InitialState(now)
    {
      parameters := [];
      stationInfo := StationState(InitialStationId, InitialStationName, None, None, now);
      loading := true;
      error := None;
    }

    /** One run of `fetchData`: the state setters in the order the cycle calls them. */
    method FetchData(entry: EntryOutcome, channel: ChannelOutcome, now: Time)
      requires Valid()
      modifies this
      ensures Valid()
      ensures State() == Cycle(old(State()), entry, channel, now)
    {
      error := None;
      if entry.EntryFailed? {
        error := Some(OfflineMessage);
        stationInfo := stationInfo.(status := Some(Offline));
        loading := false;
      } else {
        if entry.EntryPresent? {
          parameters := MapThingSpeakToParameterData(entry.entry);
        }
        match channel {
          case ChannelLoaded(c) =>
            stationInfo := FromInfo(MapChannelToStationInfo(c, now));
          case ChannelFailed =>
        }
        loading := false;
      }
      CycleKeepsWellFormed(old(State()), entry, channel, now);
    }

    /** The counts the summary shows for the current records. */
    method Summary() returns (critical: nat, warning: nat, shown: bool)
      requires Valid()
      ensures critical + warning <= 4
      ensures shown ==> |parameters| == 4
      ensures critical == multiset(Statuses(parameters))[Critical]
      ensures warning == multiset(Statuses(parameters))[Warning]
      ensures shown <==> exists i :: 0 <= i < |parameters| && parameters[i].status != Normal
    {
      critical := CriticalCount(parameters);
      warning := WarningCount(parameters);
      shown := critical > 0 || warning > 0;
      CountsPartition(parameters);
      SummaryShownIff(parameters);
    }
  }
}
