# Energy Hub Poland: a verified model of its price and tariff logic

This project models the sequential logic of the Home Assistant integration
`energy_hub_poland`, plus the hourly parser of the older `pge_dynamic` integration, in
Dafny. The integration reads hourly electricity prices from the PGE DataHub exchange
feed. It compares them with the two fixed time-of-use tariffs, G12 and G12w, and
estimates what the household's metered consumption costs under each.

The model covers:

- **Tariff calculator** (`tariff.dfy`, module `Tariff`), from `helpers.py`:
  - the peak-hours string `"6-13,15-22"` and its parser;
  - the half-open peak test;
  - the summer / winter / fallback choice of the peak-hours setting;
  - the G12 price, and the G12w price, which is off-peak at weekends and on public holidays.
- **Price coordinator** (`coordinator.py`, module `Coordinator`):
  - the all-or-nothing record parser `_parse_prices`;
  - the ten-attempt fetch, which asks for the previous day;
  - the refresh cycle over `today` / `today_date` / `tomorrow` / `tomorrow_date`;
  - the cache save and load pair. The coordinator itself is a class whose methods update its state in place.
- **Configuration flow** (`config_flow.py`, module `ConfigFlow`):
  - the peak-hours and entity-id validators;
  - the setup wizard's routing by operation mode;
  - the options flow: its error precedence and the reshaping of flat `g12_settings_…` keys into nested settings.
- **Sensors** (`sensor.py`, module `Sensors`):
  - the energy meter's delta, with counter-reset handling;
  - the cost, savings and recommendation accumulators and their period resets;
  - the savings price difference and the cheapest-tariff recommendation;
  - the cheapest hour, the minimum / maximum price attributes with ties, and the peak / off-peak label.
- **`pge_dynamic` parser** (`pge_dynamic/__init__.py`, module `PgeDynamic`): the record loop that builds the hourly table and its extremes. It skips unreadable records instead of failing the batch.

Supporting modules:

| module | what it gives the model |
|---|---|
| `Wrappers` | `Option` and `Result` |
| `OrderedDict` | Python dicts as ordered association lists. Iteration order matters to `min(..., key=...)`, to tie lists and to `{**a, **b}`. |
| `Json` | Python / JSON values, the exceptions the code catches, truthiness and `float()` |
| `Text` | `str.split` / `strip`, `int()`, `str()` |
| `Calendar` | dates, `timedelta(days=1)`, `weekday()`, `isoformat` / `fromisoformat`, `strptime` / `strftime` for `%Y-%m-%d %H:%M:%S` |

The world outside the integration is passed in as parameters:

- the exchange API is a function `(query date, attempt) -> decoded response`;
- the persistent store is a field of the coordinator;
- what a sensor reads when it is polled is an `Env`: the coordinator's data, the local time with its daylight-saving flag, and the set of public holidays.

The source files come from different revisions of the repository:

- `sensor.py` refers to a coordinator class and constants that this revision's `coordinator.py` and `const.py` do not define.
- Each file is modelled as written. The sensors read the coordinator's data in the shape that `coordinator.py` returns: `{today, tomorrow}` hour-to-price dicts.

## Model

| member | source | states |
|---|---|---|
| Wrappers.FirstSomeIsFirst | custom_components/energy_hub_poland/coordinator.py:42-54 | a retry loop that returns its first success yields a value iff some attempt succeeds, and then exactly the first successful attempt's value |
| Wrappers.Collect | custom_components/energy_hub_poland/coordinator.py:179-192 | all-or-nothing collection: a result iff every element is present, and then the elements in order |
| OrderedDict.Get | custom_components/energy_hub_poland/helpers.py:47 | `dict.get` finds a value iff the key is present, and the value found is stored under that key |
| OrderedDict.Put | custom_components/energy_hub_poland/coordinator.py:187 | `d[k] = v`: `k` maps to `v`, every other key is unchanged, an existing key keeps its position and a new key is appended |
| OrderedDict.Pop | custom_components/energy_hub_poland/config_flow.py:271-280 | `d.pop(k, default)`: the value stored under `k`, or the default when `k` is absent; on a genuine dict the rest is a dict without `k`, and every other key keeps its value |
| OrderedDict.Remove | custom_components/energy_hub_poland/config_flow.py:271-280 | removal leaves a dict without the key and with every other key's value unchanged |
| OrderedDict.Merge | custom_components/energy_hub_poland/config_flow.py:69 | `{**a, **b}` / `a.update(b)`: each key reads from `b` when `b` has it and from `a` otherwise |
| Json.FloatOf | custom_components/energy_hub_poland/helpers.py:59 | `float()`: numbers pass unchanged; among failures exactly those on strings are `ValueError` |
| Json.FloatOfCases | custom_components/energy_hub_poland/helpers.py:59 | `True`/`False` give 1.0/0.0, a string succeeds iff it is decimal text and then gives its value, `None`, lists and dicts raise `TypeError` |
| Text.Strip | custom_components/energy_hub_poland/helpers.py:26 | `str.strip()`: the result has no surrounding whitespace, Python's full `isspace()` set (ASCII and Unicode separators), and text without whitespace is unchanged |
| Text.StripSlice | custom_components/energy_hub_poland/helpers.py:26 | `s.strip()` is the slice of `s` between its leading and trailing whitespace: only whitespace lies outside it, and it neither starts nor ends with whitespace |
| Text.StripPadded | custom_components/energy_hub_poland/helpers.py:26 | stripping whitespace from both sides of a word that neither starts nor ends with whitespace gives the word |
| Text.JoinSplit | custom_components/energy_hub_poland/helpers.py:24 | joining the pieces of `str.split(sep)` with `sep` gives back the original text |
| Text.SplitCount | custom_components/energy_hub_poland/helpers.py:26 | `str.split(sep)` gives one more piece than the text has separators |
| Text.SplitJoin | custom_components/energy_hub_poland/helpers.py:24 | splitting pieces that do not contain the separator, after joining them with it, gives back the pieces |
| Text.IntOfDigits | custom_components/energy_hub_poland/helpers.py:27 | `int()` of a digit run is its decimal value |
| Text.IntOfIntToStr | custom_components/energy_hub_poland/coordinator.py:139 | `int(str(i)) == i`, so stringified hour keys read back as themselves |
| Text.DecimalOfNat | custom_components/energy_hub_poland/helpers.py:59 | `float(str(n))` is `n` |
| Calendar.PrevNext | custom_components/energy_hub_poland/coordinator.py:40 | the day before a valid date is valid, earlier, and followed by that date |
| Calendar.NextIsLater | custom_components/energy_hub_poland/coordinator.py:76 | `today + 1 day` is later than today and valid below 9999-12-31 |
| Calendar.OrdinalNextDay | custom_components/energy_hub_poland/coordinator.py:76 | the day after has the next ordinal, so dates are day numbers |
| Calendar.Weekday | custom_components/energy_hub_poland/helpers.py:70 | `weekday()` lies in 0..6 |
| Calendar.WeekdayNextDay | custom_components/energy_hub_poland/helpers.py:70 | weekdays advance by one day modulo 7 |
| Calendar.ParseIsoDate | custom_components/energy_hub_poland/coordinator.py:142 | `date.fromisoformat` only yields valid dates |
| Calendar.IsoRoundTrip | custom_components/energy_hub_poland/coordinator.py:142-163 | `fromisoformat(d.isoformat()) == d` for every valid date |
| Calendar.ParseDateTime | custom_components/energy_hub_poland/coordinator.py:181 | `strptime(s, "%Y-%m-%d %H:%M:%S")` only yields valid timestamps, hour in 0..23 |
| Calendar.DateTimeRoundTrip | custom_components/energy_hub_poland/coordinator.py:181 | formatting a valid timestamp and parsing it back gives the timestamp |
| Tariff.HourRanges | custom_components/energy_hub_poland/helpers.py:18-33 | `""` gives `[]`; when every piece reads, one pair per piece in order; any malformed piece (see `PieceNeedsOneDash`) makes the whole result `[]` |
| Tariff.PieceNeedsOneDash | custom_components/energy_hub_poland/helpers.py:26-27 | a piece reads iff its stripped text splits on `-` into exactly two parts that `int()` reads, and then gives those two integers; so a read piece holds exactly one dash |
| Tariff.SinglePieceWithoutOneDash | custom_components/energy_hub_poland/helpers.py:23-31 | a comma-free text whose stripped form holds no dash or several dashes gives `[]` |
| Tariff.MalformedRangesRejected | custom_components/energy_hub_poland/helpers.py:18-33 | `"abc"`, `"613"`, `"6"` and `"6-13-20"` each give `[]` |
| Tariff.ParseHourRanges | custom_components/energy_hub_poland/helpers.py:18-33 | the append loop with its `ValueError` bail-out computes `HourRanges` |
| Tariff.ParseRangeText | custom_components/energy_hub_poland/helpers.py:26-27 | a written pair `a-b` reads back as `(a, b)` |
| Tariff.PaddedRangeReads | custom_components/energy_hub_poland/helpers.py:26-27 | a written pair with any whitespace before and after it still reads back as the pair, as `part.strip()` allows |
| Tariff.SpacedRangesRead | custom_components/energy_hub_poland/helpers.py:18-33 | `"6-13, 15-22"`, with a space after the comma, parses to `[(6, 13), (15, 22)]` |
| Tariff.HourRangesRoundTrip | custom_components/energy_hub_poland/helpers.py:18-33 | writing a non-empty list of pairs whose hours are all non-negative (`NonNegative`) as `a-b,c-d,…` and parsing it gives the list back |
| Tariff.IsPeakTime | custom_components/energy_hub_poland/helpers.py:36-41 | the search loop returns true iff some pair has `start <= hour < end` |
| Tariff.IsPeak | custom_components/energy_hub_poland/helpers.py:36-41 | no ranges, no peak; an hour is in the peak only through a range whose start is below its end |
| Tariff.SingleRangeIsHalfOpen | custom_components/energy_hub_poland/helpers.py:39 | one window covers exactly `start <= h < end`, so the end hour is off-peak; no windows, no peak |
| Tariff.EmptyRangeCoversNothing | custom_components/energy_hub_poland/helpers.py:38-41 | a pair with `start >= end` anywhere in the list changes no peak answer |
| Tariff.SeasonalChoice | custom_components/energy_hub_poland/helpers.py:44-50 | the season's own non-empty string wins; when it is absent or empty, `hours_peak` is used, then `""` |
| Tariff.TariffPrice | custom_components/energy_hub_poland/helpers.py:53-60 | the key read is `price_peak` in a peak hour and `price_offpeak` otherwise; a missing key charges 0, a number is charged as itself, and an error comes only from a present, non-numeric setting |
| Tariff.G12wPrice | custom_components/energy_hub_poland/helpers.py:68-73 | on a weekend or holiday it never raises; on other days a result is a number, and an error is the G12 calculation's error |
| Tariff.TariffPriceIsPeakPrice | custom_components/energy_hub_poland/helpers.py:53-65 | G12 charges `price_peak` exactly in peak hours and `price_offpeak` otherwise; a missing key charges 0 |
| Tariff.G12wOffDayIgnoresHour | custom_components/energy_hub_poland/helpers.py:68-73 | on a weekend or holiday G12w returns the raw `price_offpeak` setting (`None` if absent) for every hour and season; on other days it returns the G12 price |
| Tariff.WinterWeekScenario | custom_components/energy_hub_poland/helpers.py:53-73 | on a winter Wednesday with peak `8-14`, 10:00 costs 0.80 and 22:00 costs 0.50; on the Saturday, G12w charges 0.50 at 10:00 |
| ConfigFlow.ValidHourFormat | custom_components/energy_hub_poland/config_flow.py:40-45 | the empty string is valid; accepted non-empty text is a comma-separated list of `\d{1,2}-\d{1,2}` groups once the one newline `$` tolerates is dropped |
| ConfigFlow.ValidHourFormatParses | custom_components/energy_hub_poland/config_flow.py:40-45 | every non-empty string the validator accepts is read by `parse_hour_ranges` as one pair per group, in order, so the list is non-empty |
| ConfigFlow.ValidHourFormatAlphabet | custom_components/energy_hub_poland/config_flow.py:44-45 | accepted strings hold only digits, dashes and commas, plus one final newline, so spaces are rejected |
| ConfigFlow.EmptyGroupRejected | custom_components/energy_hub_poland/config_flow.py:44-45 | a leading, trailing or doubled comma is rejected, also when the final newline `$` tolerates follows it (`a + ",\n"` included) |
| ConfigFlow.RangesTextIsValid | custom_components/energy_hub_poland/config_flow.py:44-45 | pairs of at most two-digit hours, written `a-b,…`, always validate |
| ConfigFlow.DefaultPeakHoursValid | custom_components/energy_hub_poland/const.py:29-30 | the default `6-13,15-22` validates and names the windows (6,13) and (15,22) |
| ConfigFlow.CheckHourFormat | custom_components/energy_hub_poland/config_flow.py:40-45 | a string gives its validity; a truthy non-string raises `TypeError`, and a falsy value is valid |
| ConfigFlow.ValidEntityId | custom_components/energy_hub_poland/config_flow.py:48-52 | an accepted non-empty id starts with `sensor.` and has at least one more character |
| ConfigFlow.EntityIdShape | custom_components/energy_hub_poland/config_flow.py:48-52 | `sensor.` followed by one line of text is valid; `sensor.` alone, or any other non-empty prefix, is not |
| ConfigFlow.NextStep | custom_components/energy_hub_poland/config_flow.py:68-150 | no step leads back to the user step, the energy sensor step is always the last, and only comparison mode goes on from a tariff form |
| ConfigFlow.RoutingFollowsWizard | custom_components/energy_hub_poland/config_flow.py:68-150 | each mode walks its steps in order and then creates the entry: dynamic (user), G12 (user, g12_config), G12w (user, g12w_config), comparison (user, g12_config, g12w_config, energy_sensor) |
| ConfigFlow.TariffStep | custom_components/energy_hub_poland/config_flow.py:109-150 | a missing `hours_peak` raises `KeyError`, and a truthy non-string one `TypeError`, with the data unchanged; invalid hours keep the same form with `invalid_hour_range` and the data unchanged; valid hours are stored under the tariff's key, then a missing mode raises `KeyError`, comparison mode goes from the G12 form to the G12w form and from the G12w form to the sensor form, and any other mode creates the entry titled `Energy Hub G12` or `Energy Hub G12w` |
| ConfigFlow.SensorStep | custom_components/energy_hub_poland/config_flow.py:168-187 | a non-empty id that is not a `sensor.` id keeps the form with `invalid_entity_id` and the data unchanged, and a truthy non-string id raises `TypeError`; an absent, empty or valid id merges the input into the data, then a missing mode raises `KeyError`, a list or dict mode raises `TypeError` in the title lookup, and any other mode creates the entry with the merged data, titled by the mode's title map with `Energy Hub` as fallback |
| ConfigFlow.ConfigFlow.constructor | custom_components/energy_hub_poland/config_flow.py:60-62 | the flow starts with no collected data |
| ConfigFlow.ConfigFlow.StepUser | custom_components/energy_hub_poland/config_flow.py:64-103 | no input shows the user form; input is merged into the data and routed by `operation_mode` (`KeyError` when absent) |
| ConfigFlow.ConfigFlow.StepG12Config | custom_components/energy_hub_poland/config_flow.py:105-133 | the G12 form's outcome and the new data are those of `TariffStep` under `g12_settings` |
| ConfigFlow.ConfigFlow.StepG12wConfig | custom_components/energy_hub_poland/config_flow.py:135-162 | the G12w form's outcome and the new data are those of `TariffStep` under `g12w_settings` |
| ConfigFlow.ConfigFlow.StepEnergySensor | custom_components/energy_hub_poland/config_flow.py:164-208 | the sensor form's outcome and the new data are those of `SensorStep`, the `TypeError` of an unhashable mode included |
| ConfigFlow.ReconfigureError | custom_components/energy_hub_poland/config_flow.py:249-264 | only a non-string sensor id in comparison mode raises (`TypeError`); a reported error is one of the three error keys; dynamic mode reports none |
| ConfigFlow.ReconfigureErrorPrecedence | custom_components/energy_hub_poland/config_flow.py:249-264 | the entity-id error beats both hour errors, the G12w hour error beats the G12 one, and input passing its mode's checks has no error |
| ConfigFlow.CheckReconfigureInput | custom_components/energy_hub_poland/config_flow.py:249-264 | the overwriting checks leave `errors` empty or holding `base` = the winning error; a non-string sensor id raises |
| ConfigFlow.Nest | custom_components/energy_hub_poland/config_flow.py:270-281 | the nested key is present afterwards, a dict stays a dict, and every key other than the nested one and its three flat names keeps its value |
| ConfigFlow.NestMovesKeys | custom_components/energy_hub_poland/config_flow.py:270-281 | the three prefixed entries, or their defaults, go into one nested map; the prefixed keys are removed and every other key keeps its value |
| ConfigFlow.SecondNestKeepsFirst | custom_components/energy_hub_poland/config_flow.py:283-295 | nesting the G12w settings keeps the nested G12 settings intact |
| ConfigFlow.Reshape | custom_components/energy_hub_poland/config_flow.py:266-297 | a mode using neither fixed tariff saves the input unchanged; a G12w mode always saves `g12w_settings`; a dict stays a dict |
| ConfigFlow.ReshapeContents | custom_components/energy_hub_poland/config_flow.py:266-297 | the saved options nest each tariff the mode uses, with defaults 0.80/0.50 for G12 and 0.85/0.55 for G12w, and keep every unrelated entry |
| ConfigFlow.NestInPlace | custom_components/energy_hub_poland/config_flow.py:270-281 | the three `pop`s and the assignment compute `Nest` |
| ConfigFlow.ReshapeOptions | custom_components/energy_hub_poland/config_flow.py:268-295 | the in-place reshaping computes `Reshape` |
| ConfigFlow.Reconfigure | custom_components/energy_hub_poland/config_flow.py:240-377 | no input shows the form; an error re-shows it with `base`; a clean submission creates the entry with the reshaped options; an exception aborts with `unknown` |
| ConfigFlow.StepInit | custom_components/energy_hub_poland/config_flow.py:225-238 | a dynamic-mode entry completes with empty options; any other mode goes to reconfigure |
| Coordinator.Round4 | custom_components/energy_hub_poland/coordinator.py:187 | `round(x, 4)` is within 0.00005 of `x` |
| Coordinator.Round4Idempotent | custom_components/energy_hub_poland/coordinator.py:187 | rounding a rounded price changes nothing |
| Coordinator.Round4Decimals | custom_components/energy_hub_poland/coordinator.py:187 | `round(x, 4)` has at most four decimals, and an exact tie goes to the even last digit |
| Coordinator.AttributeList | custom_components/energy_hub_poland/coordinator.py:183 | a missing `attributes` is the empty list; a list is iterated as itself; an empty string or dict yields nothing, a non-empty one `TypeError` (its elements are strings), and any other value `TypeError` |
| Coordinator.PriceOf | custom_components/energy_hub_poland/coordinator.py:182-186 | no `price` attribute gives 0.0; the first `price` attribute after other named ones gives `float(value)` |
| Coordinator.PriceOfFails | custom_components/energy_hub_poland/coordinator.py:182-186 | after attributes it steps over, a non-dict attribute raises `TypeError`, and one without `name`, or a `price` one without `value`, raises `KeyError` |
| Coordinator.ParseRecord | custom_components/energy_hub_poland/coordinator.py:180-187 | a read record has its timestamp's hour, in 0..23, and the price `RecordPrice` reads; a non-dict or a non-string `date_time` raises `TypeError`, a missing one `KeyError`, a malformed one `ValueError`; a failing attribute list or price fails the record with the same error |
| Coordinator.RecordRead | custom_components/energy_hub_poland/coordinator.py:180-187 | a record with a well-formed `date_time` and a list of attributes reads as its hour and `round(float(value) / 1000, 4)` of its first `price` attribute |
| Coordinator.RecordWithoutPriceRead | custom_components/energy_hub_poland/coordinator.py:180-187 | a record with a well-formed `date_time` and no `price` attribute (or no `attributes`) reads as its hour and 0.0 |
| Coordinator.LastPriceIsLast | custom_components/energy_hub_poland/coordinator.py:187 | the price recorded for an hour is the last record's for that hour, and there is none iff no record has it |
| Coordinator.MergeLookup | custom_components/energy_hub_poland/coordinator.py:187 | assigning the pairs in order leaves each hour with its last price |
| Coordinator.MergeSize | custom_components/energy_hub_poland/coordinator.py:177-201 | the dict has at most as many keys as there are records, and at least one when there is a record |
| Coordinator.ParsedPrices | custom_components/energy_hub_poland/coordinator.py:173-201 | a dict iff the response is a non-empty list whose every record reads, so one bad record discards the batch and a partial day is kept |
| Coordinator.ParsedPricesContents | custom_components/energy_hub_poland/coordinator.py:178-201 | the parsed dict's keys are exactly the records' hours, all in 0..23, each holding its last record's price, and each pair is what `ParseRecord` reads from its record |
| Coordinator.RecordPrice | custom_components/energy_hub_poland/coordinator.py:182-187 | a failing attribute list, or a failing `price` attribute, fails the record's price with the same error; otherwise the price is `PerKwh` of `PriceOf` the attribute list, i.e. `round(float(value) / 1000, 4)` of the first price attribute, or 0 |
| Coordinator.PerKwh | custom_components/energy_hub_poland/coordinator.py:187 | the price per kWh fails iff the price read failed, with the same error, and is otherwise within 0.00005 of the price divided by 1000 |
| Coordinator.FindPrice | custom_components/energy_hub_poland/coordinator.py:182-186 | the attribute loop with `break` computes `PriceOf` |
| Coordinator.ReadRecord | custom_components/energy_hub_poland/coordinator.py:180-187 | the loop body computes `ParseRecord` |
| Coordinator.ReadRecordPrice | custom_components/energy_hub_poland/coordinator.py:182-187 | the attribute half of the loop body computes `RecordPrice` |
| Coordinator.ParsePrices | custom_components/energy_hub_poland/coordinator.py:173-201 | the record loop computes `ParsedPrices` |
| Coordinator.Fetch | custom_components/energy_hub_poland/coordinator.py:39-66 | a fetched map is the parse of one of the ten answers for the previous day |
| Coordinator.FetchFirstSuccess | custom_components/energy_hub_poland/coordinator.py:39-66 | the fetch asks for the previous day, succeeds iff one of the ten attempts parses, and returns the first that does |
| Coordinator.FetchedIsDict | custom_components/energy_hub_poland/coordinator.py:52-54 | a fetched result is a non-empty dict |
| Coordinator.FetchOnlyReadsQuery | custom_components/energy_hub_poland/coordinator.py:40-49 | the outcome depends only on the answers for the previous day |
| Coordinator.FetchWithRetries | custom_components/energy_hub_poland/coordinator.py:39-66 | the retry loop computes `Fetch` in 1..10 attempts; a failure uses all ten, and a success is the parse of the last attempt |
| Coordinator.Rollover | custom_components/energy_hub_poland/coordinator.py:80-94 | keeps the state well formed; today's prices are either kept or yesterday's tomorrow; tomorrow's prices survive only when nothing rolls over |
| Coordinator.Cycle | custom_components/energy_hub_poland/coordinator.py:74-120 | a refresh cycle keeps the state well formed |
| Coordinator.CycleToday | custom_components/energy_hub_poland/coordinator.py:80-107 | rollover happens exactly when `today_date` is set and past; today is fetched iff missing or misdated, and set on success, left alone on failure |
| Coordinator.CycleTomorrow | custom_components/energy_hub_poland/coordinator.py:109-120 | the same rule for tomorrow against today + 1 |
| Coordinator.SavedIffChanged | custom_components/energy_hub_poland/coordinator.py:78-123 | `data_updated` (so a save) holds iff the cycle changed the state |
| Coordinator.TomorrowCannotFailCycle | custom_components/energy_hub_poland/coordinator.py:109-126 | tomorrow's answers cannot change today's prices or whether the cycle fails |
| Coordinator.StaleTodayOnlyAfterFailedFetch | custom_components/energy_hub_poland/coordinator.py:96-126 | a successful cycle serves prices not dated today only if today's fetch failed |
| Coordinator.SameDayCycleIsQuiet | custom_components/energy_hub_poland/coordinator.py:96-123 | with both days in place, a same-day cycle changes and saves nothing |
| Coordinator.NextDayServesTomorrow | custom_components/energy_hub_poland/coordinator.py:80-131 | on the next day tomorrow's prices become today's without a download and are served |
| Coordinator.CycleResult | custom_components/energy_hub_poland/coordinator.py:125-131 | `UpdateFailed` iff today has no prices, otherwise exactly `{today, tomorrow}` |
| Coordinator.EncodeMap | custom_components/energy_hub_poland/coordinator.py:159-168 | one stored entry per entry, in order, each reading back through `int(k)` as the entry it came from |
| Coordinator.DecodeMap | custom_components/energy_hub_poland/coordinator.py:139-141 | a read-back price map is a non-empty dict |
| Coordinator.DecodeDate | custom_components/energy_hub_poland/coordinator.py:142-144 | a read-back date is valid |
| Coordinator.DecodeCache | custom_components/energy_hub_poland/coordinator.py:138-153 | a decoded document gives a well-formed state |
| Coordinator.Loaded | custom_components/energy_hub_poland/coordinator.py:133-155 | loading either keeps the state or replaces it by the decoded document; a falsy or unreadable store changes nothing |
| Coordinator.EntriesRoundTrip | custom_components/energy_hub_poland/coordinator.py:139-146 | every stored entry decodes to the entry it came from |
| Coordinator.MapRoundTrip | custom_components/energy_hub_poland/coordinator.py:139-149 | a stored price map reads back as itself, and an empty or missing one as `None` |
| Coordinator.DateRoundTrip | custom_components/energy_hub_poland/coordinator.py:142-163 | a stored date reads back as itself, and a missing one as `None` |
| Coordinator.CacheDecodes | custom_components/energy_hub_poland/coordinator.py:133-171 | the saved document decodes to the state, with empty maps as `None` |
| Coordinator.CacheRoundTrip | custom_components/energy_hub_poland/coordinator.py:133-171 | saving then loading restores the state (empty maps as `None`), whatever the state before the load |
| Coordinator.PriceCoordinator.constructor | custom_components/energy_hub_poland/coordinator.py:21-37 | starts with no data and the cache not yet loaded |
| Coordinator.PriceCoordinator.LoadCache | custom_components/energy_hub_poland/coordinator.py:133-155 | the state becomes `Loaded(store, state)` |
| Coordinator.PriceCoordinator.SaveCache | custom_components/energy_hub_poland/coordinator.py:157-171 | the store holds the document of the state, and the state is unchanged |
| Coordinator.PriceCoordinator.RefreshDays | custom_components/energy_hub_poland/coordinator.py:74-120 | the rollover and the two fetches reach `Cycle`'s state and report its `data_updated` |
| Coordinator.PriceCoordinator.Update | custom_components/energy_hub_poland/coordinator.py:68-131 | loads the cache once, runs the cycle, saves iff updated, and returns `CycleResult` |
| Sensors.EnergyDelta | custom_components/energy_hub_poland/sensor.py:200-213 | there is no delta without a previous reading or known meter type; growth is `current - last`; a drop is ignored by total_increasing and read as a reset (`current`) by daily |
| Sensors.GrowingCounterTelescopes | custom_components/energy_hub_poland/sensor.py:200-213 | on a growing counter the deltas add up to the total growth, with none lost or counted twice |
| Sensors.DailyCounterAcrossMidnight | custom_components/energy_hub_poland/sensor.py:207-211 | across a midnight restart the deltas add up to yesterday's growth plus today's reading |
| Sensors.Reading | custom_components/energy_hub_poland/sensor.py:183-190 | a state gives a reading iff it is present and `float()` reads it, and then that value, since `unknown` and `unavailable` are never numbers |
| Sensors.NamedStatesAreNotNumbers | custom_components/energy_hub_poland/sensor.py:184-190 | `float()` rejects `unknown` and `unavailable`, so the early return on them changes no outcome |
| Sensors.EnergyMeter.constructor | custom_components/energy_hub_poland/sensor.py:144-152 | no reading yet |
| Sensors.EnergyMeter.Prime | custom_components/energy_hub_poland/sensor.py:158-163 | a numeric initial state becomes the last reading; a missing or non-numeric one leaves it unchanged |
| Sensors.EnergyMeter.GetEnergyDelta | custom_components/energy_hub_poland/sensor.py:200-213 | returns `EnergyDelta` and always records the new reading |
| Sensors.EnergyMeter.HandleEnergyChange | custom_components/energy_hub_poland/sensor.py:180-195 | missing, unknown, unavailable or non-numeric states change nothing; otherwise a delta is passed on only when positive |
| Sensors.SettingsAt | custom_components/energy_hub_poland/sensor.py:220-222 | `config.get(key, {})` is `{}` when absent, the dict when one is stored, and an error otherwise |
| Sensors.TariffPrices | custom_components/energy_hub_poland/sensor.py:215-224 | succeeds iff there is coordinator data and both tariff calculators succeed, with keys dynamic, g12, g12w in that order |
| Sensors.Numeric | custom_components/energy_hub_poland/sensor.py:265 | a number multiplies as itself; anything but a number or bool is a `TypeError` |
| Sensors.SavingsPrice | custom_components/energy_hub_poland/sensor.py:620-630 | `None` when either price is missing or `None`, otherwise compare − base |
| Sensors.CurrentPrice | custom_components/energy_hub_poland/sensor.py:579-590 | dynamic never raises and is `None` iff there is no data or no entry for the hour, else that entry; G12 is the G12 price as a number; G12w is the G12w price; a savings price needs the tariff prices |
| Sensors.TariffPricesAgree | custom_components/energy_hub_poland/sensor.py:579-590 | each entry of `_get_tariff_prices` is the price that tariff's own cost sensor is charged |
| Sensors.SavingsIsPriceDifference | custom_components/energy_hub_poland/sensor.py:620-630 | a savings sensor is charged the compare tariff's cost-sensor price minus the base tariff's |
| Sensors.CostSensor.constructor | custom_components/energy_hub_poland/sensor.py:538-552 | the cost starts at 0 with no charges |
| Sensors.CostSensor.ResetState | custom_components/energy_hub_poland/sensor.py:565-570 | a daily cost always resets; a monthly one resets only on day 1 |
| Sensors.CostSensor.ProcessEnergyDelta | custom_components/energy_hub_poland/sensor.py:572-577 | the cost grows by `delta × price` exactly when the price is known, and stays the sum of the period's charges |
| Sensors.CostSensor.AddCharge | custom_components/energy_hub_poland/sensor.py:575-577 | adds the charge, if any, to the cost and to the charge list |
| Sensors.CostSensor.HandleEnergyChange | custom_components/energy_hub_poland/sensor.py:180-195 | a reading is taken, and only a positive delta is charged |
| Sensors.AddCostsExact | custom_components/energy_hub_poland/sensor.py:263-265 | each tariff's cost grows by exactly `delta` times its own price; a `None` price leaves it alone |
| Sensors.RecommendationIsUnique | custom_components/energy_hub_poland/sensor.py:280-293 | at most one label satisfies the recommendation rule |
| Sensors.LowestIsRecommendation | custom_components/energy_hub_poland/sensor.py:288-293 | the first lowest usable price is the recommendation |
| Sensors.Recommend | custom_components/energy_hub_poland/sensor.py:280-293 | returns `brak_danych` when no price is usable, else the label of the first cheapest usable price |
| Sensors.RecommendationSensor.constructor | custom_components/energy_hub_poland/sensor.py:234-241 | costs start at 0 for every tariff |
| Sensors.RecommendationSensor.ResetState | custom_components/energy_hub_poland/sensor.py:253-258 | the costs reset to zero on day 1 only |
| Sensors.RecommendationSensor.ProcessEnergyDelta | custom_components/energy_hub_poland/sensor.py:260-267 | costs grow per `AddCosts`, and a price read that raises changes nothing |
| Sensors.RecommendationSensor.AddToCosts | custom_components/energy_hub_poland/sensor.py:263-265 | the loop computes `AddCosts` |
| Sensors.RecommendationSensor.HandleEnergyChange | custom_components/energy_hub_poland/sensor.py:180-195 | takes the reading; a positive delta adds `AddCosts` of the current tariff prices, a price read that raises or a non-positive delta leaves the costs |
| Sensors.RecommendationSensor.NativeValue | custom_components/energy_hub_poland/sensor.py:269-296 | `brak_danych` when reading the prices raises, otherwise the recommendation for the offered prices |
| Sensors.TariffLabel | custom_components/energy_hub_poland/sensor.py:333-359 | the label is `szczyt` or `poza_szczytem` |
| Sensors.TariffLabelAgreesWithPrice | custom_components/energy_hub_poland/sensor.py:333-359 | the label is `szczyt` exactly when the calculator charges `price_peak`, and never on a G12w off day |
| Sensors.DayPrices | custom_components/energy_hub_poland/sensor.py:378-382 | nothing without data; today's prices are always there once there is data; a result is today's or tomorrow's prices |
| Sensors.BestIndex | custom_components/energy_hub_poland/sensor.py:488 | `min` / `max` by price finds the first entry that no entry beats |
| Sensors.HourLabelReadsBack | custom_components/energy_hub_poland/sensor.py:489 | `f"{h:02d}:00"` is five characters for an hour of the day and reads back as `h` |
| Sensors.CheapestHour | custom_components/energy_hub_poland/sensor.py:481-489 | `None` iff there are no prices for the day; otherwise the label of the first hour with the minimal price |
| Sensors.ExtremePrice | custom_components/energy_hub_poland/sensor.py:509-514 | `None` iff there are no prices; otherwise a price of the day that no price beats |
| Sensors.HoursPricedAt | custom_components/energy_hub_poland/sensor.py:522 | lists the label of exactly the hours with the given price |
| Sensors.OneHourIffOnlyOne | custom_components/energy_hub_poland/sensor.py:522-527 | exactly one label iff exactly one hour has the price, and then it is that hour's label |
| Sensors.ExtremeAttrs | custom_components/energy_hub_poland/sensor.py:516-528 | never both `hour` and `hours` |
| Sensors.ExtremeAttrsReportTies | custom_components/energy_hub_poland/sensor.py:516-528 | `{"prices": {}}` without data; otherwise the prices plus `hour` for a unique extreme, or `hours` listing every tied hour |
| PgeDynamic.Results | custom_components/pge_dynamic/__init__.py:75 | a dict response stands for its `quotes` field when it has one |
| PgeDynamic.ReadQuote | custom_components/pge_dynamic/__init__.py:85-103 | a non-dict record raises `AttributeError`; no escaping error is a `ValueError`; an accepted hour is in 0..23 |
| PgeDynamic.ReadFields | custom_components/pge_dynamic/__init__.py:90-103 | a record's date and price give no `ValueError` escape and an hour in 0..23 |
| PgeDynamic.PricedAt | custom_components/pge_dynamic/__init__.py:98-103 | the accepted pair carries the record's hour; a `ValueError` is swallowed |
| PgeDynamic.QuoteSkipped | custom_components/pge_dynamic/__init__.py:90-103 | a falsy date, a `None` price, an unparsable date or a non-numeric price string skips the record |
| PgeDynamic.QuoteFails | custom_components/pge_dynamic/__init__.py:90-103 | a truthy non-string date, or a price of unusable type, raises `TypeError` |
| PgeDynamic.QuoteRead | custom_components/pge_dynamic/__init__.py:92-100 | an accepted record is `(strptime(date).hour, float(price)/1000)` |
| PgeDynamic.QuoteAccepted | custom_components/pge_dynamic/__init__.py:87-100 | a record with a well-formed timestamp and a numeric price, a price of 0 included, is accepted |
| PgeDynamic.Kept | custom_components/pge_dynamic/__init__.py:85-103 | the batch fails iff some record raises, and keeps at most one pair per record |
| PgeDynamic.Accepted | custom_components/pge_dynamic/__init__.py:85-113 | the update fails iff some record's reading raises |
| PgeDynamic.AcceptedAreReadQuotes | custom_components/pge_dynamic/__init__.py:85-101 | the kept pairs are exactly the accepted records' pairs, hours in 0..23 |
| PgeDynamic.KeptInOrder | custom_components/pge_dynamic/__init__.py:85-103 | a batch that does not fail keeps the accepted pairs in the order of their records |
| PgeDynamic.ListExtreme | custom_components/pge_dynamic/__init__.py:107-108 | `min` / `max` of the list is an element that no element beats |
| PgeDynamic.ReadItem | custom_components/pge_dynamic/__init__.py:85-103 | the loop body computes `ReadQuote` |
| PgeDynamic.ReadItemFields | custom_components/pge_dynamic/__init__.py:87-103 | the field checks compute `ReadFields` |
| PgeDynamic.ReadPrice | custom_components/pge_dynamic/__init__.py:92-103 | the `try` block computes `PricedAt` |
| PgeDynamic.ParseQuotes | custom_components/pge_dynamic/__init__.py:82-103 | fails iff some record raises; otherwise returns the dict built from the kept pairs and the list of their prices |
| PgeDynamic.UpdateData | custom_components/pge_dynamic/__init__.py:75-113 | the parse computes `UpdateOf` |
| PgeDynamic.UpdateEmptyIff | custom_components/pge_dynamic/__init__.py:75-79 | `{}` iff the results are not a non-empty list |
| PgeDynamic.UpdateFailsIff | custom_components/pge_dynamic/__init__.py:85-113 | `UpdateFailed` iff the results are a non-empty list with a record that raises |
| PgeDynamic.HourlyTable | custom_components/pge_dynamic/__init__.py:94-100 | the hourly dict's keys are exactly the kept hours, all in 0..23, and a later record overwrites an earlier one for the same hour |
| PgeDynamic.Extremes | custom_components/pge_dynamic/__init__.py:101-108 | min and max bound every kept price, overwritten ones included, and are attained; both are 0 when nothing is kept |
| PgeDynamic.UpdateContents | custom_components/pge_dynamic/__init__.py:75-110 | a successful update holds the hourly table of the accepted records, their min and max, and the raw results |

## Left out

- I/O and timing are not modelled: the HTTP request and its status check, `asyncio.sleep(30)` between attempts, async scheduling, logging and `async_write_ha_state`. The API is a function of (query date, attempt); the store is a field whose save always succeeds.
- Home Assistant plumbing is not modelled: `async_setup_entry` and the sensor set per mode, entity ids and translation keys, voluptuous schemas (a form is its step id and errors), event and timer registration, and `binary_sensor.py`, `entity.py`, `api.py`, `__init__.py`.
- Restoring accumulated costs at start-up (`async_added_to_hass` of the cost and recommendation sensors) is not modelled. A restored value is just another starting cost.
- `CurrentPriceSensor`, `AveragePriceSensor`, the recommendation's rounded `extra_state_attributes` and `pge_dynamic/sensor.py` are not modelled. They only round, scale or average prices.
- `_scale_price` and the PLN/MWh unit are not modelled: this revision's `const.py` does not define the unit constants `sensor.py` imports. `Sensors.ExtremePrice` is the value before scaling.
- `is_summer_time` (`dt.dst()`) and the `holidays.PL()` calendar are inputs: a daylight-saving flag in `Tariff.Moment`, and a set of dates.
- Dates are a `Calendar.Date` (year, month, day) rather than bare day numbers. This lets `isoformat` and `fromisoformat` round-trip and `weekday()` be computed. `Calendar.OrdinalNextDay` ties them to day numbers.
- Coordinator.ValidNow: the clock is assumed to read neither 0001-01-01 nor 9999-12-31. On those days Python's `now ± 1 day` raises `OverflowError`, which the model does not represent.
- Calendar.ParseDateTime: `strptime` and `fromisoformat` accept only the zero-padded ASCII forms `YYYY-MM-DD HH:MM:SS` and `YYYY-MM-DD`. Python also accepts unpadded fields in `strptime` and other ISO forms in `fromisoformat`.
- Json.FloatOf: `float()` of a string reads plain decimal notation only: surrounding whitespace (the characters `str.isspace` accepts), a sign, digits and one decimal point. Exponents, `inf`, `nan`, underscores and non-ASCII digits are read as `ValueError`.
- Text.IntOf: `int()` reads ASCII digits with an optional sign and surrounding whitespace only. Underscores and non-ASCII digits are not accepted.
- ConfigFlow.ValidHourFormat: `\d` is read as ASCII digits only. Python's `$` also matching before one final newline is modelled.
- Coordinator.Round4: `round(x, 4)` is exact round-half-even on real numbers. Binary floating point, and the rounding error of `price / 1000` and `delta * price`, are not modelled.
- Coordinator.DecodeMap: a cached price that is not a number makes the whole cache load fail, which leaves the state unchanged. Python would keep the raw value in the map.
- PgeDynamic.UpdateOf: with no accepted record, `min` and `max` are the real 0.0 where Python stores the integer 0.
- The request half of `pge_dynamic`'s `_async_update_data` is not part of this model: the date parameters from `datetime.now()`, the status check and the `except Exception` around the request. The decoded response is a parameter.
- `api_connected`, `last_update_time` and `_fetch_data` belong to a coordinator revision that is not part of this model.
