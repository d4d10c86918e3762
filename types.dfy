/** The records the dashboard passes between its parts (src/types/index.ts). */
module Types {

  datatype Option<T> = None | Some(value: T)

  /** An instant, as the milliseconds since the epoch that a JavaScript `Date` holds. */
  type Time = int

  /** The three alert levels of a sensor reading. */
  datatype Status = Normal | Warning | Critical

  /** The order of alert levels: normal below warning below critical. */
  function Severity(s: Status): nat
  {
    match s
    case Normal => 0
    case Warning => 1
    case Critical => 2
  }

  /** The connectivity states of a station. */
  datatype StationStatus = Online | Offline | Maintenance

  /** An inclusive numeric band. */
  datatype Range = Range(min: real, max: real)

  predicate InRange(v: real, r: Range)
  {
    r.min <= v <= r.max
  }

  datatype Ranges = Ranges(normal: Range, warning: Range)

  /** One classified, display-ready sensor reading. */
  datatype ParameterData = ParameterData(
    id: string,
    name: string,
    value: real,
    unit: string,
    icon: string,
    status: Status,
    lastUpdated: Time,
    ranges: Ranges)

  /** Identity and connectivity of the measuring station. */
  datatype StationInfo = StationInfo(
    id: string,
    name: string,
    location: string,
    status: StationStatus,
    lastSync: Time)
}
