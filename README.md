# Burn-window evaluator of the prescribed-burn weather planner

The planner takes the weather service's hourly forecast for a location and a
burn prescription entered in a form, and shows, for each forecast day, which
hours from 0800 to 2000 are *preferred*, *acceptable* or *unsuitable* for a
prescribed burn. This project models the decision logic of `js/oldMain.js`:

- the normaliser that flattens each forecast period into a record with a
  `YYYY-MM-DD` date, an `HH00` hour label and a wind speed read with
  `parseInt` (module `Forecast`, with the JavaScript built-ins it relies on
  in `JsText`);
- the burn-hour filter that keeps records whose hour label reads as 800 to
  2000 (`Forecast.FilterBurnPeriods`, on the order-preserving filter of
  `Seqs`);
- the wind-direction groups, eight octant labels each standing for three of
  the sixteen compass points, and the matcher that asks whether some ticked
  label's group holds the forecast direction (`WindDirection`);
- the two-tier classifier: preferred criteria first, then acceptable ones,
  otherwise unsuitable, each tier an inclusive range test on temperature,
  relative humidity and wind speed plus a direction match (`Prescription`);
- the evaluation step and the date/hour indexer behind the forecast grid:
  records grouped by date in order of first appearance, and for each date
  thirteen slots, 0800 to 2000, each holding the first record with that hour
  or a no-data marker (`ForecastGrid`, with the grouping loop, the slot
  lookup and the whole submit pipeline as methods).

A form field that `parseFloat` cannot read gives NaN, against which every
comparison is false; bounds are therefore `Option<real>` and `None` makes
its tier fail. Likewise a wind speed `parseInt` cannot read is `None`.
The local calendar fields that `new Date(startTime)` reports (year, month
index, day, hour) are inputs of each forecast period.

The model follows `js/oldMain.js`, the complete version of the planner: directions are
compass-point strings grouped by octant, an empty selection matches nothing
(so with both selections empty every hour is unsuitable), and the grid has
13 hour slots, 0800 to 2000. `js/main.js` is an unfinished rewrite that
fetches the weather service's grid forecast; its three processing functions
(lines 98-111) have empty bodies, and the only hint of a change of wind
model there is a question in a comment at line 11.

## Model

| member | source | states |
|---|---|---|
| `Seqs.Filter` | js/oldMain.js:170-173 | the result is a subsequence of the input holding every element that passes the test, as many times as in the input, and no other |
| `JsText.NatToString` | js/oldMain.js:150-154 | for n below 1e21, `String(n)` gives decimal digits, without a leading zero unless n is 0, that denote n |
| `JsText.IntToString` | js/oldMain.js:155 | `${year}`: a minus sign before the digits of a negative integer; read back by `ParseIntOfIntToString` and shown injective by `IntToStringInjective` |
| `JsText.PadStart` | js/oldMain.js:150-154 | `padStart` gives a string of the target length (or the input if longer) ending with the input, preceded only by the fill character |
| `JsText.TrimStart` | js/oldMain.js:162 | the leading white space `parseInt` skips: a suffix of the input that does not start with white space, everything dropped being white space |
| `JsText.DigitPrefix` | js/oldMain.js:162 | the digits `parseInt` reads: the longest prefix made of digits of the radix |
| `JsText.ParseInt` | js/oldMain.js:162 | `parseInt` with no radix: skip leading white space, take an optional sign, read a `0x` hexadecimal or a decimal digit run, NaN (`None`) when there is none; its meaning on the strings the planner parses is stated by `ParseIntOfDigits`, `ParseIntOfIntToString`, `ParseIntOfNegated` and `ParseIntOfMinus` |
| `JsText.ParseIntOfDigits` | js/oldMain.js:171 | `parseInt` of decimal digits followed by nothing or by a non-alphanumeric character is the number the digits denote |
| `JsText.ParseIntOfIntToString` | js/oldMain.js:162 | `parseInt` reads back any integer written by `String` in plain digits, whatever non-alphanumeric text such as " mph" follows |
| `JsText.ParseIntOfNegated` | js/oldMain.js:162 | `parseInt` of a minus sign, decimal digits and a non-alphanumeric tail is the negated number the digits denote |
| `JsText.ParseIntOfMinus` | js/oldMain.js:162 | after a leading minus sign `parseInt` negates the magnitude that follows, and is NaN when none does |
| `JsText.IntToStringInjective` | js/oldMain.js:152-155 | distinct integers have distinct decimal strings |
| `Forecast.Pad2` | js/oldMain.js:149-153 | `String(n).padStart(2, '0')`; below 100 it is two digits denoting n (`Pad2Decodes`) |
| `Forecast.HourLabel` | js/oldMain.js:149 | the padded hour followed by "00"; spelled out by `HourLabelChars`, decoded by `HourLabelDigits` and `HourLabelDecodes` |
| `Forecast.DateLabel` | js/oldMain.js:151-154 | year, padded month and padded day joined by dashes; its layout is `DateLabelParts`, its decoding `DateLabelDecodes`, and distinct days give distinct labels (`DateLabelInjective`) |
| `Forecast.ToRecord` | js/oldMain.js:146-166 | the record built from one period: date label of the local day with the month counted from 1, hour label of the local hour, the copied fields, and the wind speed through `parseInt`; read back by `ToRecordHour`, `ToRecordDate` and `ToRecordWindSpeed` |
| `Forecast.ProcessForecastData` | js/oldMain.js:146-167 | one record per period, in order; start time, temperature, humidity and direction copied unchanged, each record built from its own period |
| `Forecast.FilterBurnPeriods` | js/oldMain.js:169-174 | exactly the records whose hour label `parseInt` reads as 800..2000 inclusive, in their original order and multiplicity |
| `Forecast.InBurnWindow` | js/oldMain.js:170-172 | the filter test: `parseInt` of the hour label is a number in 800..2000; for normalised records it holds exactly at local hours 8 to 20 (`BurnWindowIsHours8To20`) |
| `Forecast.Pad2Decodes` | js/oldMain.js:150-154 | below 100 the zero-padded number is two decimal digits denoting it |
| `Forecast.HourLabelDigits` | js/oldMain.js:150 | the hour label is four decimal digits, the padded hour then "00", denoting 100 times the hour |
| `Forecast.HourLabelDecodes` | js/oldMain.js:150 | the hour label is "HH00" with HH denoting the hour, its first two characters are the padded hour, and `parseInt` reads it as 100 times the hour |
| `Forecast.HourLabelChars` | js/oldMain.js:150 | the hour label spelled out as tens digit, units digit, '0', '0' |
| `Forecast.FourDigitYear` | js/oldMain.js:152-155 | a year between 1000 and 9999 is written with four characters |
| `Forecast.AppendZeroDigit` | js/oldMain.js:150 | appending a "0" digit multiplies the denoted number by ten |
| `Forecast.DateLabelDecodes` | js/oldMain.js:152-155 | with a four-digit year the date label is "YYYY-MM-DD" and its three parts decode to year, month and day |
| `Forecast.DateLabelParts` | js/oldMain.js:155 | the last two characters of a date label are the padded day, the two before the dash the padded month, and the rest before them the year |
| `Forecast.DateLabelInjective` | js/oldMain.js:152-155 | distinct calendar days (month and day below 100) get distinct date labels |
| `Forecast.DateLabelHasDash` | js/oldMain.js:155 | every date label, whatever the year, month and day, holds a dash |
| `Forecast.ProcessedDatesHaveDash` | js/oldMain.js:146-167 | every record the normaliser builds has a date holding a dash |
| `Forecast.ToRecordHour` | js/oldMain.js:150 | a normalised record's hour label reads back as the period's local hour, and `parseInt` gives 100 times it |
| `Forecast.ToRecordDate` | js/oldMain.js:152-158 | a normalised record's date reads back as the local year, the month counted from 1 and the day |
| `Forecast.ToRecordWindSpeed` | js/oldMain.js:162 | a wind speed written "<n> mph" becomes n |
| `Forecast.BurnWindowIsHours8To20` | js/oldMain.js:169-174 | a normalised period passes the filter exactly when its local hour is 8..20 |
| `WindDirection.GroupFor` | js/oldMain.js:231 | `windDirectionGroups[userDir]`, falling back to the empty list: the group of an octant label, empty for any other label; its contents are fixed by `GroupContents` and `GroupOwners` |
| `WindDirection.MatchesWindDirGroup` | js/oldMain.js:229-234 | true exactly when some ticked label is a key of the groups and its group contains the direction |
| `WindDirection.GroupKeys` | js/oldMain.js:9-18 | the groups are keyed by exactly the eight octants |
| `WindDirection.GroupOwners` | js/oldMain.js:9-18 | an octant point lies in its own group only; an intermediate point lies in exactly the groups of the two octants beside it |
| `WindDirection.GroupContents` | js/oldMain.js:9-18 | each group is its own octant and the two intermediate points on either side of it |
| `WindDirection.UnknownDirectionNeverMatches` | js/oldMain.js:229-234 | a direction that is not one of the sixteen compass points matches no selection |
| `WindDirection.EmptySelectionNeverMatches` | js/oldMain.js:229-234 | with no label ticked nothing matches |
| `WindDirection.OverlapExample` | js/oldMain.js:10-11 | NNE matches N and NE alone; N matches N but not NE |
| `Prescription.Meets` | js/oldMain.js:240-251 | one tier of the classifier as the code writes it: each value at least its minimum and at most its maximum, NaN failing every comparison, and a direction match; it is equivalent to the closed-range tier `TierHolds` (`MeetsIsTierHolds`) |
| `Prescription.Status.Name` | js/oldMain.js:246-255 | the string each outcome returns, "preferred", "acceptable" or "unsuitable"; distinct by `StatusNamesDistinct` |
| `Prescription.MeetsIsTierHolds` | js/oldMain.js:240-251 | a tier of the code passes exactly when every bound and the wind speed parsed, each value lies in its closed range, and a ticked group holds the direction |
| `Prescription.DetermineStatus` | js/oldMain.js:237-257 | preferred exactly when the preferred tier holds; acceptable exactly when it fails and the acceptable tier holds; unsuitable exactly when both fail; a tier holding means every bound and the speed parsed, each value in its closed range, and a ticked group containing the direction |
| `Prescription.PreferredWhateverAcceptable` | js/oldMain.js:240-246 | whether an hour is preferred does not depend on the acceptable criteria |
| `Prescription.StatusNamesDistinct` | js/oldMain.js:246-255 | the three outcomes return three distinct strings |
| `Prescription.UnparsedFailsTier` | js/oldMain.js:241-243 | a NaN bound or an unreadable wind speed makes the tier fail |
| `Prescription.BoundsInclusive` | js/oldMain.js:241-244 | ranges are closed: values equal to both ends of their preferred ranges, with a ticked group holding the direction, give preferred |
| `Prescription.NoDirectionsMeansUnsuitable` | js/oldMain.js:244-255 | with no direction ticked in either tier every hour is unsuitable |
| `ForecastGrid.EvaluateBurnPeriods` | js/oldMain.js:578-581 | one evaluated record per kept record, in order, carrying that record's status |
| `ForecastGrid.DatesOf` | js/oldMain.js:296-302 | the bucket keys: each date of the input exactly once, and no other |
| `ForecastGrid.OnDate` | js/oldMain.js:296-302 | a bucket is the subsequence of the records of its date, each as often as in the input |
| `ForecastGrid.GroupByDate` | js/oldMain.js:296-302 | for records whose dates each hold a dash, the grouping loop yields the dates in insertion order and, for each, the bucket of its records in input order |
| `ForecastGrid.GroupStep` | js/oldMain.js:297-300 | appending one record to its date's bucket (opening the bucket when the date is new) keeps keys and buckets equal to those of the longer prefix |
| `ForecastGrid.DatesInFirstAppearanceOrder` | js/oldMain.js:312 | columns come in the order of their dates' first records |
| `ForecastGrid.FindByHour` | js/oldMain.js:328 | the slot holds the first record with the hour label, or no data when none has it |
| `ForecastGrid.BuildDayColumn` | js/oldMain.js:327-359 | a column has the 13 burn-hour slots in order, each the first record of that hour or no data |
| `ForecastGrid.BuildForecastGrid` | js/oldMain.js:296-362 | for records whose dates each hold a dash, one column per date in order of first appearance, with the slots of that date's bucket |
| `ForecastGrid.BurnHoursAreHourLabels` | js/oldMain.js:304-307 | the 13 burn hours are the hour labels of 08 through 20 |
| `ForecastGrid.BurnHourLabel` | js/oldMain.js:304-307 | the j-th burn hour is the hour label of hour 8 + j |
| `ForecastGrid.SlotIsUnique` | js/oldMain.js:328 | at most one slot fits a bucket and an hour |
| `ForecastGrid.RecordIsShown` | js/oldMain.js:327-356 | a record at a burn hour never leaves its date's slot empty: the slot holds it or an earlier record of the same date and hour |
| `ForecastGrid.KeptRecordHasSlot` | js/oldMain.js:169-174 | a period kept by the filter has its local hour in 8..20, and its label is that hour's burn-hour slot |
| `ForecastGrid.FilledSlotRecord` | js/oldMain.js:328-333 | a filled slot holds a record from the input with the column's date and the slot's hour |
| `ForecastGrid.FilledSlotsOfGrid` | js/oldMain.js:327-356 | every filled slot of a grid holds an input record with its column's date and its slot's hour |
| `ForecastGrid.EvaluatedMember` | js/oldMain.js:578-581 | a record of the evaluated sequence comes from the kept records and carries their status |
| `ForecastGrid.PlanBurnWindow` | js/oldMain.js:556-585 | the submit pipeline's grid is the grid of the evaluated burn-window records, and every filled slot shows a kept record of its date and hour with its classifier status |

## Left out

- Network I/O: `fetchForecastData`, `loadForecastData`, `fetchLocationDetails` and `loadLocationData` (js/oldMain.js:74-142, js/main.js:61-93); the periods and the location are inputs instead, and the module-level `forecastPeriods` becomes a parameter.
- DOM and storage: the form readers, the checkbox helpers, saving, loading and clearing the settings, error messages, the legend, and the element creation, CSS classes, titles and the day header (weekday and month/day from the first record's start time) of `buildForecastGrid`; `buildForecastLink` in js/test.js.
- js/ui.js and service-worker.js: theme toggle, menu, install prompt and cache handling, all event-driven browser plumbing.
- The empty functions of js/main.js:98-111, which have no behaviour.
- `new Date(startTime)` and its local-time getters (time-zone dependent); their results are fields of each forecast period, within the ranges a `Date` keeps them. An unreadable `startTime` gives an Invalid Date whose getters are NaN, so the code builds the hour "NaN00" and the date "NaN-NaN-NaN", and `filterBurnPeriods` then drops the record because `parseInt("NaN00")` is NaN; the `nat` fields cannot express that case.
- `parseFloat` of the form fields: a bound is either a parsed real or NaN (`None`); infinities and floating-point rounding are not modelled.
- A null relative humidity, which JavaScript compares as 0: humidity is a present integer here.
- `JsText.ParseInt`: the sign of `-0` is dropped and precision loss beyond 2^53 is not modelled.
- `JsText.NatToString` and `JsText.IntToString` write plain decimal digits for every integer, whereas JavaScript's `String` switches to exponent notation ("1e+21") from 1e21 on, which `parseInt` would read as 1; the normaliser only prints hours, months, days and four-digit years, far below that, and a wind speed that large is not modelled.
- Strings are sequences of Unicode scalar values, not UTF-16 code units: lone surrogates cannot occur and a character outside the Basic Multilingual Plane is one element. Every character `parseInt` tests is in that plane and every padded string is ASCII, so nothing here depends on the difference.
- A ticked label naming an inherited object property (such as "constructor"), which would make `matchesWindDirGroup` throw; the form only offers the eight octants.
- `ForecastGrid.GroupByDate` and `ForecastGrid.BuildForecastGrid` require every date to hold a dash (`PlainKeys`), which every normalised date does (`Forecast.ProcessedDatesHaveDash`). On other keys the `{}` of js/oldMain.js:296-302 behaves differently: `Object.entries` lists array-index keys such as "0" and "1" first, in ascending order, and an inherited name such as "constructor" makes the `push` throw. The model does not describe grouping over such keys.
- Forecast temperatures, humidities and speeds are integers, as the weather service sends them; JavaScript doubles are not modelled.
