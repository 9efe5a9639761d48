# Weather dashboard data preparation, in Dafny

This project models the data-preparation core of a browser dashboard that
charts monthly rainfall and daily mean temperature for the cities of one
weather table (`main.js`).

When the table has loaded, the dashboard does the following:
- It stamps every row with a `monthYear` key of the form `YYYY-MM`.
- It lists the distinct cities in the order they first appear.
- For each city, it totals the rows' precipitation per key in a
  dictionary, turns the entries into records dated by the month each key
  names, and sorts them by date.
- It appends each city's block to the global `monthlyData`.

The city picker's change handler either redraws both charts for the chosen
city or clears both. Redrawing a chart means filtering the city's records
or rows and setting the scale domains from them.

Modules:
- `Wrappers` (`wrappers.dfy`): `Option`.
- `MonthKeys` (`month_key.dfy`):
  - How a key is built: `String(n)` and `padStart`.
  - `ParseMonthKey`, which reads back the month a key names. For a
    four-digit year (1000-9999) this is the month whose first day
    `new Date(key + "-01")` denotes. For other years the host's parse is
    implementation-defined, and the model still reads the year back.
  - The round trip between the two, and chronological order.
- `Sequences` (`sequences.dfy`):
  - `Array.prototype.filter`.
  - De-duplication through a `Set`.
  - `d3.max` and `d3.min`, where `None` stands for `undefined`.
- `Aggregation` (`aggregation.dfy`):
  - The row and record types.
  - The in-place annotation loop over the loaded array.
  - The city list.
  - The per-city totals loop, which uses a map plus the insertion order of
    its keys.
  - The entries-to-records loop.
  - The sort, as a stable insertion sort by month.
  - The loop over cities.
  - Each loop is proved against a specification function (`CityMonthly`,
    `MonthlyData`), and the lemmas state what those functions promise.
- `Dashboard` (`dashboard.dfy`):
  - The scale domains.
  - A `Dashboard` class holding the globals (`globalData`, `monthlyData`,
    `cities`).
  - For each chart, the domains and the data bound to its marks.
  - The load step, the two update functions, the two clear functions and
    the change handler, all as methods.

Precipitation and temperature are modelled as integers, for example
hundredths of an inch and whole degrees. This makes sums exact.

## Model

| member | source | states |
|---|---|---|
| MonthKeys.MonthKey | main.js:180 | the key `${year}-${String(month + 1).padStart(2, '0')}`; its meaning is stated by `MonthKeyShape`, `MonthKeyRoundTrip` and `MonthKeyInjective` |
| MonthKeys.MonthDigits | main.js:180 | `String(month + 1).padStart(2, '0')`; its meaning is stated by `MonthDigitsShape` and `MonthDigitsParse` |
| MonthKeys.ParseMonthKey | main.js:214 | the month a key names, read back as `new Date(key + "-01")` does for four-digit years; its meaning is stated by `ParseJoined` and `MonthKeyRoundTrip` |
| MonthKeys.NatToString | main.js:180 | `String(n)` of a non-negative integer is a non-empty run of decimal digits with no leading zero |
| MonthKeys.IntToString | main.js:180 | `String(n)` starts with a minus sign exactly when `n` is negative |
| MonthKeys.PadStart | main.js:180 | `padStart` gives length `max(|s|, width)`, keeps `s` as the suffix, and fills the rest of the prefix with the fill character |
| MonthKeys.ParseNatToString | main.js:180 | reading the digits of `String(n)` back gives `n` |
| MonthKeys.ParseIntToString | main.js:180 | reading `String(n)` back gives `n`, for every integer (a property of the model's parser; the host's date parser accepts only four-digit years here) |
| MonthKeys.MonthDigitsShape | main.js:180 | the month part is exactly two digits: the tens and units of `month + 1`, zero-padded |
| MonthKeys.MonthDigitsParse | main.js:180 | the two-digit month part reads back as `month + 1` |
| MonthKeys.MonthKeyShape | main.js:180 | a key is the year's digits, a dash and the two month digits `01`..`12`, and is three characters longer than the year |
| MonthKeys.FourDigitYearKeyLength | main.js:180 | a key for a year from 1000 to 9999 has 7 characters (`YYYY-MM`) |
| MonthKeys.ParseJoined | main.js:214 | `year + "-" + mm`, with `mm` a two-digit month from 01 to 12, parses to that year and month |
| MonthKeys.MonthKeyRoundTrip | main.js:214 | parsing a row's key gives back that row's own year and month, for every year; the host's `new Date(key + "-01")` agrees for years 1000-9999 (see Left out) |
| MonthKeys.MonthKeyInjective | main.js:180 | two rows share a key if and only if they have the same year and the same month |
| MonthKeys.OrdinalChronological | main.js:217 | comparing month ordinals (`a.date - b.date`) orders by year, then by month; equal ordinals mean the same month |
| Sequences.Filter | main.js:198 | a filter keeps no more elements than its input |
| Sequences.FilterMembers | main.js:198 | the filter keeps exactly the elements that satisfy the predicate |
| Sequences.FilterKeepsOrder | main.js:406 | the kept elements are exactly those at positions whose element satisfies the predicate, in increasing position order |
| Sequences.FilterAppend | main.js:406 | filtering the concatenated city blocks filters each block separately |
| Sequences.FilterAll | main.js:406 | a filter that every element passes returns its input unchanged |
| Sequences.FilterNone | main.js:406 | a filter that no element passes returns an empty array |
| Sequences.Distinct | main.js:184 | `[...new Set(xs)]` holds exactly the values of `xs`, each once |
| Sequences.DistinctFirstAppearance | main.js:184 | `Set` order is first-appearance order: an earlier-listed value occurs in `xs` before any occurrence of a later-listed one |
| Sequences.Maximum | main.js:417 | `d3.max` is `undefined` exactly for an empty array; otherwise it is an element that bounds all elements from above |
| Sequences.Minimum | main.js:17-18 | `d3.min` (the low end of `d3.extent`) is `undefined` exactly for an empty array; otherwise it is an element that bounds all elements from below |
| Aggregation.WithMonthKey | main.js:175-181 | one row of the annotation pass gets its `monthYear` key; its meaning is stated by `WithMonthKeys` and `KeysNameTheirMonths` |
| Aggregation.WithMonthKeys | main.js:175-181 | after annotation every row carries the key of its own year and month, and nothing else in any row changed |
| Aggregation.AnnotateRows | main.js:175-181 | the in-place `forEach` leaves the array equal to the annotated rows of its old contents |
| Aggregation.Cities | main.js:184 | `[...new Set(data.map(d => d.city))]`; its meaning is stated by `CitiesOfRows` and `CitiesInFirstAppearanceOrder` |
| Aggregation.CitiesOfRows | main.js:184 | the city list has no duplicates and holds exactly the cities that have a row |
| Aggregation.CitiesInFirstAppearanceOrder | main.js:184 | cities are listed in order of first appearance in the table |
| Aggregation.CityRows | main.js:198 | `data.filter(d => d.city === city)`, also the temperature chart's filter at main.js:7; its meaning is stated by `CityRowsMembers`, `CityRowsKeyed` and the `Filter` lemmas |
| Aggregation.CityAggregates | main.js:406 | `monthlyData.filter(d => d.city === selectedCity)`; its meaning is stated by `SelectedCityBlock` and the `Filter` lemmas |
| Aggregation.CityRowsMembers | main.js:198 | a city's rows are exactly the table rows with that city |
| Aggregation.CityRowsKeyed | main.js:198 | a city's rows of an annotated table are annotated |
| Aggregation.KeysNameTheirMonths | main.js:214 | each key of an annotated table denotes a month whose own key is that key |
| Aggregation.GroupSum | main.js:199-207 | the reference total of a key: the sum of the precipitation of the rows carrying that key; `SumByMonth`, `AddRowSum` and `GroupSumAbsent` state what the totals loop computes against it |
| Aggregation.SumByMonth | main.js:199-207 | the totals dictionary has one entry per key that occurs among the city's rows, holding the sum of those rows' precipitation, with keys in insertion (first-appearance) order |
| Aggregation.AddToTotals | main.js:202-207 | one pass of the totals loop, including the `!monthlyTotals[k]` reset of a missing or zero total, adds the row to its key's total and appends a new key at the end |
| Aggregation.AddRowKeys | main.js:203-205 | a row lists its key after the existing keys only if the key is new; a new key has a prior total of zero |
| Aggregation.AddRowSum | main.js:206 | a row adds its precipitation to its own key's total and to no other key's |
| Aggregation.GroupSumAbsent | main.js:203-204 | a key with no rows has a total of zero |
| Aggregation.Aggregate | main.js:210-216 | the record `{city, monthYear, date, monthlyRainfall}` of one key; its meaning is stated by `CityMonthlyRecords` |
| Aggregation.Records | main.js:210-216 | the entries mapped to records, one per key in key order; its meaning is stated by `RecordsAt`, `RecordsAddRow` and `RecordsCoverTotal` |
| Aggregation.ToRecords | main.js:210-216 | `Object.entries(...).map(...)` gives one record per key, in key order, with that key's month as its date and the key's total |
| Aggregation.RecordsAt | main.js:210-216 | the i-th record is the record of the i-th key |
| Aggregation.RecordsAddRow | main.js:206-215 | adding a row whose key is listed adds its precipitation to the records' total; a row whose key is not listed adds nothing |
| Aggregation.RecordsCoverTotal | main.js:199-216 | the records of all of a table's keys add up to the table's total precipitation |
| Aggregation.AggregateCity | main.js:198-217 | the per-city pipeline (filter, totals, entries, sort) computes that city's block |
| Aggregation.AggregateAll | main.js:197-220 | the loop over cities builds the cities' blocks concatenated in city order |
| Aggregation.MonthlyDataAppend | main.js:219 | one more city pushes its block after the blocks before it |
| Aggregation.Insert | main.js:217 | one step of the stable sort by `a.date - b.date`; its meaning is stated by `InsertPermutes`, `InsertOrdered` and `InsertStrict` |
| Aggregation.SortByDate | main.js:217 | `.sort((a, b) => a.date - b.date)` as a stable sort; its meaning is stated by `SortByDateFacts` and `SortByDateStrict` |
| Aggregation.CityMonthly | main.js:198-217 | a city's block `cityMonthly`; its meaning is stated by `CityMonthlyCity`, `CityMonthlyRecords`, `CityMonthlyKeys`, `CityMonthlyUnique`, `CityMonthlyOrdered`, `CityMonthlyTotal` and `CityMonthlyNonEmpty` |
| Aggregation.MonthlyData | main.js:197-220 | `monthlyData` after the loop over cities; its meaning is stated by `MonthlyDataAppend`, `SelectedCityBlock` and `MonthlyDataCities` |
| Aggregation.InsertPermutes | main.js:217 | inserting into the sorted run adds exactly one copy of the record |
| Aggregation.InsertOrdered | main.js:217 | inserting into a run in month order keeps it in month order |
| Aggregation.InsertStrict | main.js:217 | inserting a new month into a strictly increasing run keeps it strictly increasing |
| Aggregation.SortByDateFacts | main.js:217 | the sort is a permutation (same multiset, same length) into non-decreasing month order that keeps the total |
| Aggregation.SortByDateStrict | main.js:217 | records of distinct months sort into strictly increasing month order |
| Aggregation.CityMonthlyCity | main.js:212 | every record of a city's block carries that city |
| Aggregation.CityMonthlyRecords | main.js:210-216 | every record of a city's block has a key of one of the city's rows, a date naming the key's month, and the sum of the city's rows under that key |
| Aggregation.RecordsDistinctMonths | main.js:214 | records of distinct keys fall in distinct months |
| Aggregation.CityMonthlyOrdered | main.js:217 | a city's block is in strictly increasing month order |
| Aggregation.CityMonthlyCoversKeys | main.js:202-207 | every month in which the city has a row has a record |
| Aggregation.CityMonthlyKeys | main.js:199-216 | a month has a record in the city's block if and only if the city has a row in that month |
| Aggregation.CityMonthlyUnique | main.js:199-216 | no month has two records in a city's block |
| Aggregation.CityMonthlyTotal | main.js:199-216 | a city's monthly totals add up to the city's total raw precipitation |
| Aggregation.CityMonthlyNonEmpty | main.js:198-216 | a city's block is non-empty if and only if the city has a row |
| Aggregation.SelectedCityBlock | main.js:406 | filtering `monthlyData` by a listed city gives exactly that city's block; by an unlisted city, nothing |
| Aggregation.MonthlyDataCities | main.js:197-220 | a city has records in `monthlyData` if and only if it has rows in the table |
| Dashboard.RainfallXDomain | main.js:416 | `cityData.map(d => d3.timeFormat("%Y-%m")(d.date))`; its meaning is stated by `RainfallXDomainIsKeys` and `RainfallDomainsOfCity` |
| Dashboard.RainfallYDomain | main.js:417 | `[0, d3.max(cityData, d => d.monthlyRainfall)]`; its meaning is stated by `RainfallYDomainBounds` and `RainfallDomainsOfCity` |
| Dashboard.TemperatureXDomain | main.js:17 | `d3.extent(cityTempData, d => d.date)`; its meaning is stated by `Extent` and `TemperatureDomains` |
| Dashboard.TemperatureYDomain | main.js:18 | `d3.extent(cityTempData, d => +d.actual_mean_temp)`; its meaning is stated by `Extent` and `TemperatureDomains` |
| Dashboard.Extent | main.js:17-18 | `d3.extent` is both ends `undefined` for no values; otherwise both ends are values and every value lies between them |
| Dashboard.Dashboard.constructor | main.js:161-163 | the globals start as empty arrays and no marks are drawn |
| Dashboard.Dashboard.Load | main.js:175-220 | loading annotates the array in place, keeps it as `globalData`, lists its cities, and appends the cities' blocks to `monthlyData` |
| Dashboard.Dashboard.UpdateChart | main.js:404-417 | the bars are bound to the city's records; the band domain is their formatted months and the value domain is `[0, max]` |
| Dashboard.Dashboard.UpdateTemperatureChart | main.js:5-18 | the line and dots are bound to the city's rows; both domains are extents of those rows |
| Dashboard.Dashboard.ClearChart | main.js:365-381 | clearing removes all bars |
| Dashboard.Dashboard.ClearTemperatureChart | main.js:383-401 | clearing removes the line and the dots |
| Dashboard.Dashboard.OnCityChange | main.js:234-243 | a non-empty value redraws both charts for that city; the empty value clears both and leaves every domain as it was |
| Dashboard.SelectionAfterLoad | main.js:406 | after loading, selecting a city shows exactly that city's monthly block if it has rows, else nothing |
| Dashboard.RainfallXDomainIsKeys | main.js:416 | formatting each record's date as `%Y-%m` gives back its key |
| Dashboard.RainfallYDomainBounds | main.js:417 | for a non-empty block the value domain starts at 0 and ends at the largest monthly total, which some record attains |
| Dashboard.RainfallDomainsOfCity | main.js:416-417 | for a city with rows, the band domain is the city's keys in record order, and the value domain is `[0, m]` with `m` the city's largest monthly total |
| Dashboard.TemperatureDomains | main.js:17-18 | for non-empty rows (a city with rows, whose rows `CityRowsMembers` pins), the time and value domains run from the least to the greatest date and mean temperature, and each end is a value of one of the rows |

## Left out

- Drawing is not modelled: SVG, axes, titles, messages, transitions, tooltips and colours. `bars` and `points` stand for the data finally bound to the marks.
- The keyed data join and `exit()` animations of the bars (main.js:436-466) are not modelled, only the bound records.
- `.nice()` on the linear scales, band padding and the colour scale are not modelled.
- `d3.csv` loading and `console.log` are not modelled. `Load` takes the parsed array as a parameter.
- Date parsing is not modelled. A row carries its timestamp, year and month as the host's `Date` would give them.
- The local-time versus UTC difference of `new Date(key + "-01")` is not modelled. `ParseMonthKey` gives the month that the key names.
- `Dashboard.RainfallXDomainIsKeys`: the date is formatted as the key's own month. In the browser, `new Date("2023-01-01")` is midnight UTC, and `d3.timeFormat("%Y-%m")` formats in local time. West of UTC it therefore gives `"2022-12"` (main.js:416, 451), so every band label and bar position is one month early there. The model does not capture this shift.
- `MonthKeys.MonthKeyRoundTrip`: the model reads back every year, but the host reads back only four-digit years (1000-9999). For other years, `String(year)` at main.js:180 gives strings such as `"999"`, `"-5"` or `"10000"`. The date string at main.js:214 is then not in the ECMAScript date-time format. Its parse is implementation-defined (for example Invalid Date), and the comparator at main.js:217 then compares `NaN`. The model's `MonthStamp` for such keys, and the sort order built on it, hold only for years 1000-9999.
- JavaScript numbers are modelled as integers: `+x` conversion, `NaN` and floating-point rounding of `+=` are not modelled.
- `Dashboard.RainfallXDomain`: d3's `%Y` pads years to four digits, so it agrees with the row key only for years 1000-9999. The model formats with the key's own `String(year)`.
- `Dashboard.Dashboard.Load`: the per-city `monthlyData.push(...)` is one append of all blocks after the loop. The resulting array is the same. Aliasing between `globalData` and the loaded array is not modelled.
- The scale domains before the first selection are not modelled. The constructor leaves them unconstrained.
- The code does not drop malformed rows, show a placeholder for an empty series, skip re-selecting the same city, or fall back to generated data. The model follows the code.
- Empty series: for an empty rainfall series, the band domain is `[]` and the value domain is `Domain(Some(0), None)`, that is `[0, undefined]`. For an empty temperature series, both ends of both extents are `None` (`undefined`).
- The mouse-over and tooltip handlers are not modelled.
