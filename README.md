# IoT monitor dashboard: classifier, station mapper, poll cycle

A Dafny model of the logic inside a browser dashboard that polls the
ThingSpeak cloud API for an environmental sensor station (temperature,
humidity, pressure, light) and shows one status card per reading.

- `types.dfy` (module `Types`): the records `ParameterData` and
  `StationInfo`, the status unions, and `Option`.
- `js_numbers.dfy` (module `JsNumbers`): `Math.round`, the decimal text
  JavaScript gives an integer below 10^21 in magnitude, and the decimal parser used to state round trips.
- `thingspeak_data_mapper.dfy` (module `ThingSpeakDataMapper`): one upstream
  entry to four classified records, with the parsing defaults, the kPa to hPa
  conversion, the alert flags and the four asymmetric status rules; channel
  metadata to the station record.
- `mock_data.dfy` (module `MockData`): the generic band classifier over the
  fixed sample templates, and the default station.
- `agreement.dfy` (module `Agreement`): where the live classifier agrees with
  the generic band rule applied to the bands each live record declares, and
  where it does not.
- `thingspeak.dfy` (module `ThingSpeak`): the API client's request building.
  The parameter dictionary is a class whose methods update it in place, the
  service a class with constant fields.
- `header.dfy` (module `Header`): the last-sync timestamp text and the badge colours.
- `app.dfy` (module `App`): the dashboard state as a class. `FetchData` is one
  poll cycle, tied to the pure transition `Cycle`. It also has the alert counts
  and the summary condition.

Raw numeric fields are `Option<real>`: `None` stands for the NaN that
`parseFloat` returns for missing or unparsable text. Alert fields are
`Option<string>`. Instants are integers (`Time`). The outcome of each network
call in a poll cycle, and the current time, are inputs.

The classifier departs from the bands its own records declare, and a failed
cycle keeps the old sync time:
- Pressure without an alert is normal anywhere in [950, 1050] outside
  [980, 989]. This is wider than the 990-1020 normal band the pressure record
  declares (`Agreement.PressureVersusDeclaredBands`).
- Light without an alert is a warning on 0 < l < 100 and normal when negative.
  The declared bands are 1-99 and 100-200 (`Agreement.LightVersusDeclaredBands`).
- A failed cycle does not re-stamp `lastSync`. It only marks the station offline.

## Model

| member | source | states |
|---|---|---|
| `ThingSpeakDataMapper.TemperatureStatus` | src/utils/thingSpeakDataMapper.ts:43-51 | critical iff t < 15 or t > 30, whatever the flag; never normal when flagged; unflagged normal iff 18 <= t <= 25 |
| `ThingSpeakDataMapper.HumidityStatus` | src/utils/thingSpeakDataMapper.ts:64-72 | critical iff h < 10 or h > 80; never normal when flagged; unflagged normal iff 30 <= h <= 50 |
| `ThingSpeakDataMapper.PressureStatus` | src/utils/thingSpeakDataMapper.ts:85-93 | warning iff 980 <= p <= 989, flag or not; flagged: critical outside that band, never normal; unflagged normal iff 950 <= p <= 1050 and outside the band |
| `ThingSpeakDataMapper.LightStatus` | src/utils/thingSpeakDataMapper.ts:106-114 | critical iff l = 0 or l > 200, flag or not; never normal when flagged; unflagged warning iff 0 < l < 100; unflagged normal iff l < 0 or 100 <= l <= 200 |
| `ThingSpeakDataMapper.OrZero` | src/utils/thingSpeakDataMapper.ts:21-24 | an unparsable or missing field reads as 0, a parsed value as itself |
| `ThingSpeakDataMapper.PressureHpa` | src/utils/thingSpeakDataMapper.ts:23 | pressure is the parsed kPa value times 10, or 0 when unparsable |
| `ThingSpeakDataMapper.MapThingSpeakToParameterData` | src/utils/thingSpeakDataMapper.ts:16-122 | exactly four records with ids temperature, humidity, pressure, light in that order, all stamped with the entry time; names, units, icons and ranges are the fixed ones of each record; each status is its rule applied to the defaulted value and to the flag being exactly "1"; temperature and humidity are displayed rounded to a tenth, pressure and light rounded to a whole number, so within 0.05 and 0.5 of the reading |
| `ThingSpeakDataMapper.AlertFlag` | src/utils/thingSpeakDataMapper.ts:26-29 | set exactly when the field is the one-character text that reads as 1, i.e. "1"; absent, "01", "1.0" and "true" never count |
| `ThingSpeakDataMapper.AlertRaisesToWarning` | src/utils/thingSpeakDataMapper.ts:43-51 | for temperature, humidity and light the flag turns normal into warning and keeps warning and critical |
| `ThingSpeakDataMapper.PressureAlertPrecedence` | src/utils/thingSpeakDataMapper.ts:85-93 | the pressure flag forces critical unless the unflagged status is the 980-989 warning; the flag never lowers severity |
| `ThingSpeakDataMapper.ClassifierBoundaries` | src/utils/thingSpeakDataMapper.ts:43-114 | 18 and 25 normal, 17.9 and 25.1 warning, 14.9 and 30.1 critical; flagged 985 hPa warning, flagged 900 critical; light 0 critical either way, unflagged 150 normal |
| `ThingSpeakDataMapper.QuietEntryIsNormal` | src/utils/thingSpeakDataMapper.ts:21-121 | fields 22.0, 45.0, 101.5, 150 with flags "0" give values 22.0, 45.0, 1015, 150, all normal |
| `ThingSpeakDataMapper.StationIdText` | src/utils/thingSpeakDataMapper.ts:129 | the id is the default exactly when the channel has none; otherwise it reads back as the channel's number |
| `ThingSpeakDataMapper.OrDefault` | src/utils/thingSpeakDataMapper.ts:130-131 | a present non-empty field is kept, an absent or empty one gives the fallback |
| `ThingSpeakDataMapper.MapChannelToStationInfo` | src/utils/thingSpeakDataMapper.ts:124-135 | status always online, lastSync the argument, id/name/location each falling back to its default when missing or empty |
| `Agreement.UnflaggedFollowsDeclaredBands` | src/utils/thingSpeakDataMapper.ts:47-56 | unflagged temperature and humidity status equals the generic band rule on the record's declared ranges |
| `Agreement.PressureVersusDeclaredBands` | src/utils/thingSpeakDataMapper.ts:89-98 | unflagged pressure agrees with its declared bands except on [950,980), (989,990) and (1020,1050] |
| `Agreement.LightVersusDeclaredBands` | src/utils/thingSpeakDataMapper.ts:110-119 | unflagged light agrees with its declared bands except when negative or in (0,1) or (99,100) |
| `MockData.BandStatus` | src/utils/mockData.ts:69-76 | normal iff inside the normal band; warning iff outside it and inside the warning band; critical iff outside both; bounds inclusive |
| `MockData.BandStatusMonotone` | src/utils/mockData.ts:69-76 | with nested bands, a value further from the normal band is never less severe |
| `MockData.BaseDataNested` | src/utils/mockData.ts:4-45 | every template's normal band is non-empty and lies inside its warning band |
| `MockData.GenerateMockData` | src/utils/mockData.ts:47-84 | four records in template order keeping id, name, unit, icon and ranges; each stamped with its own clock reading; status from the unrounded sample, value its rounding to a tenth |
| `MockData.NormalSampleIsNormal` | src/utils/mockData.ts:70-71 | a sample inside its normal band is reported normal |
| `MockData.StatusUsesUnroundedValue` | src/utils/mockData.ts:70-80 | 17.96 degrees displays as 18.0, inside the normal band, yet is a warning |
| `MockData.GetStationInfo` | src/utils/mockData.ts:87-93 | id "station-001", status online, lastSync the given time; the same record the live mapper gives a channel with no fields |
| `MockData.SampleValue` | src/utils/mockData.ts:51-66 | a draw in [0,1) gives temperature in [15,35), humidity [30,80), pressure [980,1060), light [50,1050) |
| `MockData.MockEntry` | src/utils/mockData.ts:47-84 | one record keeps its template's id, name, unit, icon and ranges, is stamped with the clock, is classified on the unrounded sample and shows it rounded to a tenth |
| `JsNumbers.Round` | src/utils/thingSpeakDataMapper.ts:82 | `Math.round` gives the integer n with x - 0.5 < n <= x + 0.5 |
| `JsNumbers.RoundToTenth` | src/utils/thingSpeakDataMapper.ts:40 | the result is a whole number of tenths within 0.05 of the value |
| `JsNumbers.NatToString` | src/utils/thingSpeakDataMapper.ts:129 | a non-empty run of digits without a leading zero beyond a single digit; one digit iff below 10 |
| `JsNumbers.IntToString` | src/services/thingspeak.ts:95 | a non-empty text starting with '-' iff the integer is negative, a digit otherwise |
| `JsNumbers.NatToStringRoundTrip` | src/components/Header.tsx:34-41 | the decimal text of a natural number reads back as the number |
| `JsNumbers.IntToStringRoundTrip` | src/utils/thingSpeakDataMapper.ts:129 | the decimal text of an integer, with its sign, reads back as the integer |
| `JsNumbers.IntToStringInjective` | src/services/thingspeak.ts:95 | distinct integers have distinct texts |
| `Header.Pad2` | src/components/Header.tsx:34-41 | at least two digits; values >= 10 unchanged, smaller ones get one leading "0"; below 100 exactly two; reads back as the value |
| `Header.FormatDateRoundTrip` | src/components/Header.tsx:33-42 | the text is the unpadded year plus 16 characters and reads back as the same date parts, so the printed month is the getter's plus one |
| `Header.FormatDate` | src/components/Header.tsx:33-42 | the text starts with the unpadded year and a dash, and is exactly 16 characters longer than the year when the parts are in range |
| `Header.StatusColor` | src/components/Header.tsx:21-30 | a `bg-` class whose colour is green for online, red for offline, yellow for maintenance |
| `Header.StatusColorsDistinct` | src/components/Header.tsx:21-30 | online, offline and maintenance get pairwise distinct colour classes |
| `ThingSpeak.KeyIndex` | src/services/thingspeak.ts:44 | the first position holding the key, or the length when absent |
| `ThingSpeak.Assign` | src/services/thingspeak.ts:44 | an existing key keeps its position, a new key is appended; other entries unchanged; keys stay distinct |
| `ThingSpeak.AssignLookup` | src/services/thingspeak.ts:44 | after assignment the key reads its new value and every other key its old one |
| `ThingSpeak.QueryParams.constructor` | src/services/thingspeak.ts:40 | a new parameter dictionary is empty (the `{}` default, and the fresh object of `getEntries`) |
| `ThingSpeak.QueryParams.Set` | src/services/thingspeak.ts:44 | the dictionary's new entries are the assignment applied to the old ones |
| `ThingSpeak.HasReadKey` | src/services/thingspeak.ts:43 | an absent or empty read key is falsy, any non-empty one truthy |
| `ThingSpeak.WithApiKey` | src/services/thingspeak.ts:43-45 | without a read key the parameters are untouched; with one, `api_key` reads the key and every other key reads as before, positions kept, keys distinct |
| `ThingSpeak.ApiKeyAddedIff` | src/services/thingspeak.ts:43-45 | `api_key` is added, last, iff the read key is present and non-empty; otherwise the parameters are untouched |
| `ThingSpeak.ThingSpeakService.constructor` | src/services/thingspeak.ts:35-38 | the service keeps the channel id and the optional read key it is given |
| `ThingSpeak.ThingSpeakService.BuildUrl` | src/services/thingspeak.ts:40-52 | writes the read key into the caller's dictionary in place; the query is the dictionary's entries in order, nothing else; the address is the base URL plus the endpoint |
| `ThingSpeak.ChannelPath` | src/services/thingspeak.ts:55 | `/channels/`, the channel id, then `.json` |
| `ThingSpeak.LastEntryPath` | src/services/thingspeak.ts:72 | `/channels/`, the channel id, then `/feeds/last.json` |
| `ThingSpeak.FeedsPath` | src/services/thingspeak.ts:99 | `/channels/`, the channel id, then `/feeds.json` |
| `ThingSpeak.EntriesParams` | src/services/thingspeak.ts:93-97 | at most three parameters, only `results`, `start` and `end`, none with an empty value |
| `ThingSpeak.EndpointsDistinct` | src/services/thingspeak.ts:55-99 | the channel, last-entry and feeds paths differ for every channel id |
| `ThingSpeak.ThingSpeakService.ChannelInfoRequest` | src/services/thingspeak.ts:54-55 | request to base URL + `/channels/{id}.json` carrying only the read key |
| `ThingSpeak.ThingSpeakService.LatestEntryRequest` | src/services/thingspeak.ts:71-72 | request to base URL + `/channels/{id}/feeds/last.json` carrying only the read key |
| `ThingSpeak.EntriesParamsKeys` | src/services/thingspeak.ts:95-97 | `results` present iff given and non-zero (0 dropped), `start`/`end` iff non-empty; never an `api_key`; `results` carries the count's decimal text, `start` and `end` the options' own text; keys in the order results, start, end |
| `ThingSpeak.ThingSpeakService.EntriesRequest` | src/services/thingspeak.ts:88-99 | request to the feeds path with the truthy options in the order results, start, end, then the read key |
| `App.Cycle` | src/App.tsx:23-53 | loading ends false; error set iff the entry failed, then the offline message; a present entry replaces the parameters with the mapper's output, otherwise they stay; failure marks the station offline keeping every other field; a failed channel request keeps the station; a loaded one replaces it, online |
| `App.FailedCycleIgnoresChannel` | src/App.tsx:47-52 | a failed cycle does not depend on the channel outcome or the clock |
| `App.CycleKeepsWellFormed` | src/App.tsx:23-53 | parameters are none or the mapper's four records for some entry (ids temperature, humidity, pressure, light in order), and an error always comes with an offline station, before and after every cycle |
| `App.InitialState` | src/App.tsx:12-19 | no parameters, the placeholder station `station-001` stamped with the start time and without location or status, loading, no error; well formed |
| `App.Dashboard.constructor` | src/App.tsx:12-19 | no parameters, the initial station without location or status, loading, no error |
| `App.Dashboard.FetchData` | src/App.tsx:23-53 | the state setters of one cycle leave exactly the state `Cycle` describes, and keep it well formed |
| `App.CountStatus` | src/App.tsx:65-68 | the filter count never exceeds the number of records |
| `App.CriticalCount` | src/App.tsx:65-68 | the number of critical records, as the multiplicity of critical among their statuses |
| `App.WarningCount` | src/App.tsx:65-68 | the number of warning records, as the multiplicity of warning among their statuses |
| `App.CountIsMultiplicity` | src/App.tsx:65-68 | the count equals the multiplicity of the status among the records' statuses |
| `App.CountPositiveIff` | src/App.tsx:65-68 | a count is positive iff some record has that status |
| `App.CountsPartition` | src/App.tsx:65-68 | the normal, warning and critical counts add up to the number of records |
| `App.ShowSummary` | src/App.tsx:101 | the box shows iff some record is critical or some record is a warning |
| `App.SummaryShownIff` | src/App.tsx:101 | the summary box is shown iff some record is not normal |
| `App.AlertedEntryShowsSummary` | src/App.tsx:101 | an entry with any flag set always brings up the summary |
| `App.Dashboard.Summary` | src/App.tsx:65-68 | the critical and warning counts of the current records, together at most four, and whether the box shows, which needs the four mapped records |
| `App.Plural` | src/App.tsx:113 | the ending is "s" iff the count exceeds 1 |
| `App.CriticalLabel` | src/App.tsx:108-124 | the count in decimal, reading back as the count, then " Critical Alert", plural iff the count exceeds 1 |
| `App.WarningLabel` | src/App.tsx:108-124 | the count in decimal, reading back as the count, then " Warning", plural iff the count exceeds 1 |
| `App.LabelsInjective` | src/App.tsx:108-124 | distinct counts give distinct labels |

## Left out

- Number parsing: `parseFloat` is foreign. Each numeric field arrives already parsed, `None` for NaN. Infinity is not modelled.
- Floating point: values are exact reals. IEEE rounding in `x * 10` and `Math.round(x * 10) / 10` is not modelled.
- Dates: `new Date(...)` parsing and the `Date` getters are foreign. Instants are integers and `formatDate` takes the getter results as integers. An invalid date (NaN getters) is not modelled.
- Network: `fetch`, `response.ok`, JSON decoding and the error values thrown are I/O. Each cycle gets the outcome of its two requests as input.
- URLs: `Url` carries the address text and the ordered parameter list. `URL` parsing, percent-encoding and `toString` are library behaviour and are not modelled.
- Dictionary order: JavaScript lists integer-like keys of an object first. That ordering is not modelled, because the keys used here (`api_key`, `results`, `start`, `end`) are never integer-like.
- `JsNumbers.IntToString`: from 10^21 up in magnitude JavaScript switches to exponent form, and above 2^53 numbers lose integer precision; neither is modelled, the text is the plain decimal one.
- `ThingSpeak.EntriesParamsKeys`: `results` is an integer or absent. A NaN or fractional count is not modelled.
- `ThingSpeakDataMapper.MapChannelToStationInfo`: the channel id is an integer or absent. Name and description are strings or absent. A null channel makes the mapper throw inside the inner `try`, which is the `ChannelFailed` outcome.
- Scheduling: the 10-second `setInterval`, overlapping cycles and cleanup on unmount are timer- and concurrency-driven. One cycle is modelled, run to completion.
- Rendering: React renders between the setters of one cycle, the loading spinner, the error banner, `getStatusIcon` and `ParameterCard` are all presentational.
- `Header.StatusColor` is defined on the three station statuses. The initial station, whose status is undefined, is not rendered by it in the model.
- Sample values and clock: `Math.random` is replaced by a draw passed in for each template, and the `new Date()` each record reads by a time passed in for it.
- Diagnostics and wiring: `console` logging, and the channel id and read key that `createThingSpeakService` hard-codes.
