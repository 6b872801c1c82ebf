# Greenhouse sensor dashboard — a verified model of its core logic

The system watches a greenhouse through a few sensor devices (`adlab01` …).
A gateway prints one line per reading on a serial port. A Python reader
(`sensor_reader.py`) parses each line and keeps a growing list of entries per
device. After every entry it rewrites the device's JSON log of the day,
`<device>_<YYYY-MM-DD>.json`. A browser dashboard (`public/main.js`) shows a
grid of cubes, one per device. It polls those log files, colours every cube
and labels it with emojis by fixed thresholds, and lets the user select a cube.
The selection is shown on a minimap and drives a chart of time-slot averages.

The project models both halves, module by module:

| file | module | models |
|---|---|---|
| `wrappers.dfy` | `Wrappers` | `Option`, and JavaScript truthiness of an optional string |
| `decimal.dfy` | `Decimal` | `String(n)`, `padStart(2, '0')`, `%Y`/`%m`/`%d`, `parseInt` |
| `strings.dfy` | `Strings` | `replace` with a string pattern, Python `split`/`strip`, the default `sort` order |
| `readings.dfy` | `Readings` | the calendar day and the reading record the dashboard reads |
| `classifier.dfy` | `Classifier` | `getColorBy*` and `getEnvironmentEmoji`, with JavaScript's `>=` on strings and `undefined` |
| `registry.dfy` | `Registry` | `deviceIDs`, `deviceToCubeMap`, the `createScene` enumeration loop, the minimap index arithmetic |
| `timeslots.dfy` | `TimeSlots` | `getTimeSlotKey`, `processDataToTimeSlots`, `updateChartFromBuckets` |
| `store.dfy` | `Store` | the `SensorData` class (`dataMap`, `currentMode`, `selectedCube`, its reading panel) |
| `dashboard.dfy` | `Dashboard` | the page globals and handlers: `handleSelection` and its callers, `pollSensorData`, `fetchSensorDataForSelectedCube`, `updateVisibleChartDataset`, `updateAllCubeColors`, the labels, the mode buttons |
| `sensor_reader.dfy` | `SensorReader` | the per-line processing of the reader's loop, `sensor_data_map` and the daily file dumps |
| `log_files.dfy` | `LogFiles` | how the files the reader writes meet the URLs the dashboard requests |

State that the source updates in place is modelled as classes:
- `Store.SensorData`, `Dashboard.Page` and `SensorReader.Reader`.
- Each method is proved against a specification function of the old state, for example `ApplyPoll`, `AfterFetch` and `Apply`/`RunAll`.
- The loops of the source (`forEach`, `for`, the reader's `while True`) are loops with invariants.

I/O is replaced by input values:
- each `fetch` outcome is a `FetchOutcome` argument: a parsed array, a not-ok response, or a failure;
- the clock is a `CalendarDay`/`DateTime` or `now` argument;
- Python's `float()` is a partial function argument `toFloat: string -> Option<real>`;
- a file write is an update of a map from file name to content;
- a camera move or a URL request is appended to a recorded sequence (`cameraFocus`, `requests`).

Three behaviours of the code worth knowing:
- `updateCubeData` stores a reading for any cube name, not only known cubes;
- `getColorByPH` and `getEnvironmentEmoji` differ at pH 6.5;
- a deselect leaves `SensorData.selectedCube` as it was.

## Model

| member | source | states |
|---|---|---|
| Decimal.Pad2 | public/main.js:331-332 | two-digit zero padding of a value below 100: two digits that denote the value |
| Decimal.Pad4 | sensor_reader.py:60 | `%Y` of a year below 10000: four digits that denote the year |
| Decimal.NatTextRoundTrip | public/main.js:95 | the digits `String(n)` writes denote `n` |
| Decimal.FourDigitText | public/main.js:330 | for a four-digit year, `String(yyyy)` and `%Y` write the same text |
| Decimal.ParseInt | public/main.js:95 | for text without leading whitespace, sign or `0x` prefix, `parseInt` is NaN exactly when the text does not start with a digit |
| Decimal.ParseIntOfNatText | public/main.js:95 | `parseInt` reads `n` back from `String(n)` followed by any non-digit text |
| Strings.IndexOf | public/main.js:25 | a found index is an occurrence of the pattern |
| Strings.IndexOfMeaning | public/main.js:25 | the search finds the first occurrence, and finds nothing only when the pattern occurs nowhere |
| Strings.RemoveFirst | public/main.js:25 | `replace("Cube", "")` never lengthens the text |
| Strings.RemoveFirstMeaning | public/main.js:25 | only the first occurrence goes: the text is unchanged when the pattern is absent, else it is the result with the pattern put back at its first index |
| Strings.Split | sensor_reader.py:56 | splitting a text always gives at least one part |
| Strings.SplitHeadFree | sensor_reader.py:56 | the first part is a prefix of the text and does not contain the separator |
| Strings.SplitPartsFree | sensor_reader.py:56 | no part of a split contains the separator |
| Strings.SplitJoin | sensor_reader.py:56 | joining the parts with the separator gives the line back |
| Strings.Between | sensor_reader.py:70 | `split(open)[1].split(close)[0]` fails exactly when `open` is absent |
| Strings.BetweenMeaning | sensor_reader.py:70 | what `split(open)[1].split(close)[0]` finds is a prefix of the text after the first `open` that contains neither `open` nor `close`, and it stops at the end of the text or where the next `close` or `open` starts |
| Strings.Strip | sensor_reader.py:52 | the result of `strip()` neither starts nor ends with whitespace |
| Strings.StripMeaning | sensor_reader.py:52 | `strip()` keeps a contiguous middle slice of the text, and everything it drops on either side is whitespace |
| Strings.StripIdempotent | sensor_reader.py:52 | stripping twice is stripping once |
| Strings.LexLessIrreflexive | public/main.js:948 | no text sorts before itself |
| Strings.LexLessTransitive | public/main.js:948 | the default sort order is transitive |
| Strings.LexLessTotal | public/main.js:948 | of two different texts exactly one sorts first |
| Strings.InsertSortedBy | public/main.js:948 | inserting a new element into a strictly sorted sequence keeps it strictly sorted, with exactly one more element |
| Strings.StrictlySortedUnique | public/main.js:948 | a strictly sorted sequence is determined by its elements, so the sorted entry order is unique |
| Strings.SortedSeqBy | public/main.js:948 | a finite set of keys has a strictly sorted listing with exactly its elements |
| Classifier.ParseMode | public/main.js:935-943 | a sensor type names a mode exactly when it is one of the four mode names |
| Classifier.ColorByTemperature | public/main.js:262-267 | High iff ≥ 27, Mid iff in [24, 27), Low iff < 24 |
| Classifier.ColorByHumidity | public/main.js:269-274 | High iff ≥ 70, Mid iff in [50, 70), Low iff < 50 |
| Classifier.ColorByIlluminance | public/main.js:276-281 | High iff ≥ 800, Mid iff in [500, 800), Low iff < 500 |
| Classifier.ColorByPH | public/main.js:283-288 | High iff > 6.5, Mid iff in [6.0, 6.5], Low iff < 6.0 or no pH (NaN) |
| Classifier.TextToNumber | public/main.js:293 | a text converts to a number only if it is empty or a plain decimal numeral |
| Classifier.TextWithParenIsNaN | public/main.js:302-305 | a text containing `(` compares as NaN |
| Classifier.EnvironmentEmoji | public/main.js:290-315 | a type that is none of the four sensor types gives `''` |
| Classifier.EnvironmentEmojiTiers | public/main.js:290-315 | per type, each glyph is returned exactly on its threshold range (pH High at ≥ 6.5); NaN-valued inputs fail every `>=` |
| Classifier.ColorAndEmojiAgree | public/main.js:262-305 | for temperature, humidity and illuminance, a number's colour and emoji name the same tier |
| Classifier.PhColorAndEmojiDisagreeOnlyAt65 | public/main.js:283-313 | for pH, colour and emoji name the same tier exactly when the value is not 6.5; at 6.5 the colour is Mid and the emoji High |
| Registry.LookupKey | public/main.js:360 | `deviceToCubeMap[device]` finds an entry with that key, or there is none |
| Registry.LookupValue | public/main.js:1087-1092 | `getSensorIdFromCube` finds an entry with that cube, or there is none |
| Registry.LookupsInverse | public/main.js:320-326 | in a table with distinct keys and values the two lookups invert each other |
| Registry.DeviceCubeRoundTrip | public/main.js:994-997 | a device maps to a cube exactly when the cube's reverse lookup gives that device |
| Registry.PolledDevicesMapToDistinctCubes | public/main.js:318-326 | every polled device has a cube, and no two share one |
| Registry.PolledDeviceHasCube | public/main.js:318-326 | each polled device has a cube |
| Registry.PolledCubesDiffer | public/main.js:318-326 | two different polled devices have different cubes |
| Registry.CubeNameInjective | public/main.js:694 | `"Cube" + k` names differ for different `k` |
| Registry.EnumerateCubes | public/main.js:683-787 | the nested loops push cube `t` (named `Cube(t+1)`, at its grid position) twice onto `allCubes` and its name once onto `allLabels`: 2·m·n and m·n entries |
| Registry.RemoveCubePrefix | public/main.js:25 | removing `"Cube"` from `Cube<k>` leaves `String(k)` |
| Registry.MinimapNumberOfCube | public/main.js:94-97 | selecting `Cube<k>` marks number `k` on the minimap |
| Registry.DrawGrid | public/main.js:111-131 | cells are numbered 1..m·n row by row, and cell `num` sits where `drawSelectedCube(num)` draws its mark |
| Registry.MinimapMirrorsSceneColumns | public/main.js:133-140 | the mark of cube `t` keeps the scene's row and mirrors its column |
| TimeSlots.SlotMinute | public/main.js:904 | the slot start is a multiple of the interval with start ≤ minute < start + interval |
| TimeSlots.ClockTextRoundTrip | public/main.js:907-910 | the `HH:MM` key reads back as the hour and minute it was made from |
| TimeSlots.SlotKeyNamesSlotStart | public/main.js:902-911 | a slot key names the reading's hour and the last interval multiple not after its minute |
| TimeSlots.ClockTextOrder | public/main.js:902-911 | comparing two keys as text compares the clock times |
| TimeSlots.ProcessDataToTimeSlots | public/main.js:914-931 | the `forEach` builds exactly `Buckets`: one bucket per occupied slot, holding the sums over that slot's readings |
| TimeSlots.BucketsStep | public/main.js:917-928 | one more reading changes only its own slot's bucket, creating it empty first if needed |
| TimeSlots.TallyOutside | public/main.js:914-931 | a slot no reading falls in has empty sums |
| TimeSlots.TallyCount | public/main.js:927 | a bucket's count is the number of readings in its slot |
| TimeSlots.BucketCountsPositive | public/main.js:914-931 | every bucket counts at least one reading |
| TimeSlots.BucketCountsSumToLength | public/main.js:914-931 | every reading is in exactly one bucket: the counts add up to the number of readings |
| TimeSlots.SameHalfHourShareBucket | public/main.js:902-931 | with 30-minute slots, readings at 10:05 and 10:25 share the `10:00` bucket |
| TimeSlots.ReadingWithoutPhKeepsPhSum | public/main.js:926-927 | a reading without `pH` is counted but adds nothing to the pH sum |
| TimeSlots.EntryTextInjective | public/main.js:948 | different keys give different sort texts |
| TimeSlots.EntryOrderIsKeyOrder | public/main.js:948 | for keys of one length, sorting the entries sorts by key |
| TimeSlots.Occupied | public/main.js:949-952 | exactly the keys whose bucket count is positive |
| TimeSlots.OccupiedSorted | public/main.js:948-952 | keeping the occupied keys of a strictly sorted listing keeps it strictly sorted |
| TimeSlots.Averages | public/main.js:951 | one value per label |
| TimeSlots.AveragesMeaning | public/main.js:951 | each label's value is the mode's field sum of its bucket divided by its count |
| TimeSlots.ChartSeriesMeaning | public/main.js:934-953 | a series exists exactly for the four sensor types; its labels are the occupied slots in strict entry-sort order, each with its average |
| TimeSlots.SortEntries | public/main.js:948 | `[...buckets.entries()].sort()` lists every key once, in strict sort order |
| TimeSlots.PushOccupied | public/main.js:948-953 | the `forEach` pushes exactly the occupied keys and their averages |
| TimeSlots.UpdateChartFromBuckets | public/main.js:934-953 | an unknown sensor type leaves the chart alone; otherwise the series is the typeMap title, the occupied slots in strict order, and their averages |
| TimeSlots.EntryOrderIsClockOrder | public/main.js:902-948 | of two slot keys, the one whose entry sorts first is the earlier slot |
| TimeSlots.ChartLabelsChronological | public/main.js:914-953 | for buckets built from readings, the labels are exactly the occupied slots, in clock order |
| Store.SensorData.constructor | public/main.js:150-156 | empty map, temperature mode, no selection |
| Store.SensorData.UpdateSelectedCubeInfo | public/main.js:179-207 | the panel shows the cube's stored reading in the current mode's colour; a cube with no reading leaves it as it was |
| Store.SensorData.UpdateCubeData | public/main.js:167-172 | the reading is stored unconditionally (last write wins, other keys unchanged); the panel is refreshed only for the selected cube; a current panel stays current |
| Store.SensorData.SetSelectedCube | public/main.js:174-177 | the cube is selected and the panel refreshed |
| Store.SensorData.SetMode | public/main.js:254-260 | the mode changes, the selected cube's panel is redrawn in it, and a current panel stays current |
| Dashboard.TodayDateStr | public/main.js:328-334 | `yyyy-mm-dd`: ten characters with dashes at 4 and 7 |
| Dashboard.Toggle | public/main.js:21 | the selection becomes null exactly when the cube picked is the selected one or is null; otherwise it is the picked cube |
| Dashboard.LabelClickIsToggle | public/main.js:780-783 | a label click acts as a click on its cube, and deselects exactly when its cube is selected |
| Dashboard.PickTwice | public/main.js:21 | picking a cube twice returns the selection to that cube if it was selected before, or else to null |
| Dashboard.TargetAlpha | public/main.js:33-34 | alpha is 1 exactly when nothing is selected or the item is the selected cube, otherwise 0.2 |
| Dashboard.FindCube | public/main.js:50 | `allCubes.find` gives a cube of that name, or there is none |
| Dashboard.FromDevice | public/main.js:1099 | the filter keeps exactly the readings of that device, each as many times as it occurs in the data |
| Dashboard.LabelShowsTiers | public/main.js:493-507 | a label shows the cube number, the temperature and humidity tiers of its colours, always the low illuminance glyph, and the pH tier of its colour except at 6.5 |
| Dashboard.PollStepMap | public/main.js:356-366 | one poll result writes only its device's cube, and only when its array is non-empty: the last element |
| Dashboard.PollStoresLatest | public/main.js:355-366 | after the poll, a device with a non-empty array has that array's last element stored under its cube |
| Dashboard.PollKeepsOthers | public/main.js:355-366 | a cube no delivering device maps to keeps its reading, or stays absent |
| Dashboard.Page.constructor | public/main.js:683-787 | the scene as created: the enumerated cubes and labels, all white and opaque, labels at 0.7 showing their numbers, no selection, the temperature chart |
| Dashboard.Page.ApplyAlphas | public/main.js:32-46 | every cube's meshes and every label get `TargetAlpha` of the new selection |
| Dashboard.Page.FocusSelection | public/main.js:48-54 | on a truthy selection, the store selects it and the camera focuses its cube; a deselect changes neither the store's selection nor the camera |
| Dashboard.Page.ShowSelection | public/main.js:24-54 | the minimap gets the selection's number, every cube and label the alpha of the selection, the store the selection and its panel, the camera the selected cube |
| Dashboard.Page.HandleSelection | public/main.js:20-67 | the toggled selection is applied: minimap number, alphas, store selection and panel, camera focus, the fetch for its device and the resulting data and chart |
| Dashboard.Page.ClickLabel | public/main.js:780-783 | a label click toggles its cube's selection and applies it |
| Dashboard.Page.PointerDown | public/main.js:808-821 | a press off every cube and label always ends with no selection; a press on a cube or a label leaves the page and the store unchanged |
| Dashboard.Page.OnNewSensorData | public/main.js:985-988 | the chart becomes the series of the readings' buckets, or stays as it was for an unknown type |
| Dashboard.Page.FetchSensorDataForSelectedCube | public/main.js:990-1014 | with no device for the selection nothing happens; otherwise the day's log URL is requested; an array replaces the data and redraws; a not-ok response empties the data and redraws; a failure changes nothing |
| Dashboard.Page.UpdateVisibleChartDataset | public/main.js:1094-1102 | the chart is redrawn from the selected device's readings in `latestSensorData`; with no device it is unchanged |
| Dashboard.Page.UpdateAllCubeColors | public/main.js:440-443 | every cube with a stored reading takes its mode colour and every such label its text; the others keep theirs |
| Dashboard.Page.UpdateCubeColors | public/main.js:445-478 | a cube with a stored reading takes the colour of the current mode for it; a cube without one keeps its colour |
| Dashboard.Page.UpdateCubeLabels | public/main.js:487-508 | a label whose cube has a stored reading shows its name and the four emoji; the others keep their text |
| Dashboard.Page.SelectMode | public/main.js:382-397 | the mode, guide and sensor type change; cubes are recoloured and the labels of cubes with readings are re-rendered, the others kept; the store's selected cube's panel is refreshed; the chart is redrawn for the new type |
| Dashboard.Page.PollSensorData | public/main.js:336-370 | one URL per polled device in order; the store ends as `ApplyPoll` of the results; a current panel stays current; the cubes and labels are recoloured |
| Dashboard.Page.RequestLogs | public/main.js:337-354 | one URL per polled device, in `deviceIDs` order, appended to the requests |
| Dashboard.Page.ApplyPollResults | public/main.js:355-369 | the store ends as `ApplyPoll` of the results, a current panel stays current, and the cubes and labels are recoloured |
| Dashboard.Page.StoreLatest | public/main.js:356-366 | the `forEach` leaves the store as `ApplyPoll` of the results, and a current panel stays current |
| SensorReader.DateStr | sensor_reader.py:60 | `%Y-%m-%d`: ten characters whose digit fields denote the year, month and day |
| SensorReader.FormatTimestamp | sensor_reader.py:59 | `%Y-%m-%d %H:%M:%S` starts with the `%Y-%m-%d` of the same instant |
| SensorReader.ParseDate | sensor_reader.py:60 | a date read back renders to the same text |
| SensorReader.DateTextsEqual | sensor_reader.py:60 | two `yyyy-mm-dd` texts whose fields denote the same numbers are equal |
| SensorReader.DateRoundTrip | sensor_reader.py:60 | every date reads back from its rendering |
| SensorReader.ParseTimestamp | sensor_reader.py:59 | a time stamp read back renders to the same text |
| SensorReader.TimestampRoundTrip | sensor_reader.py:58-59 | an entry's time stamp determines the instant it was taken |
| SensorReader.FileName | sensor_reader.py:97 | `<device>_<date>.json` |
| SensorReader.FileNameInjective | sensor_reader.py:97 | two device/day pairs share a file exactly when they are equal |
| SensorReader.RunLength | sensor_reader.py:72 | a run from a position stays inside the text |
| SensorReader.RunLengthMeaning | sensor_reader.py:72 | every character of the run matches and the one after it, if any, does not: the run is the longest one, as a greedy `+` takes it |
| SensorReader.RunLengthIs | sensor_reader.py:72 | a run of matching characters followed by a non-matching one or the end is the run `RunLength` finds |
| SensorReader.MatchIsMaximalRuns | sensor_reader.py:72 | a match of `Lux: ([\d.]+)lx \((\w+)\)` consists of maximal runs, so each position has at most one match |
| SensorReader.LuxMatchAtMeaning | sensor_reader.py:72 | the direct matcher finds exactly the pattern's matches at a position |
| SensorReader.LuxSearch | sensor_reader.py:72 | what `re.search` gives is a match of the pattern |
| SensorReader.LuxSearchMeaning | sensor_reader.py:72 | no position before the match found matches; `None` only when no position matches |
| SensorReader.FloatBetween | sensor_reader.py:70 | fails when the opening text is absent; otherwise it is `float` of the text between |
| SensorReader.ExtractFields | sensor_reader.py:69-75 | a stored direction is a non-empty ASCII word |
| SensorReader.ExtractFieldsMeaning | sensor_reader.py:69-75 | extraction succeeds exactly when all four conversions and the lux search succeed, and each field is the value of its rule |
| SensorReader.NoTemperatureNoEntry | sensor_reader.py:70 | a sensor text without `Temp: ` is never stored: the index into the split raises |
| SensorReader.Classify | sensor_reader.py:52-95 | a stored entry has a valid device and its own time stamp; a parse error logs the stripped line |
| SensorReader.ClassifyLine | sensor_reader.py:53-90 | on a stripped line: a stored entry has a valid device and its own time stamp; a parse error logs that line |
| SensorReader.ClassifyRecord | sensor_reader.py:62-90 | a line of three parts is never skipped; a stored entry has a valid device and its own time stamp; a parse error logs the line |
| SensorReader.RecordOutcome | sensor_reader.py:69-90 | for a valid device, a parse error exactly when extraction failed, otherwise an entry of that device stamped with the line's time |
| SensorReader.ClassifyMeaning | sensor_reader.py:52-90 | skipped iff the stripped line is not three parts; then unknown iff the stripped device is invalid; parse error iff extraction fails; otherwise an entry of the extracted fields |
| SensorReader.ClassifyIgnoresSurroundingSpace | sensor_reader.py:52 | surrounding whitespace never changes a line's fate |
| SensorReader.ApplyKeepsValid | sensor_reader.py:92-99 | one line keeps the invariant: valid devices with non-empty lists of their own entries, and each day file a prefix of its device's list |
| SensorReader.StoredLineWritesWholeList | sensor_reader.py:92-99 | a success appends one entry to its device's list, creating it if absent, and writes the whole list to the day's file; other lists and the error log are unchanged |
| SensorReader.Outcomes | sensor_reader.py:50-104 | one outcome per line, each stored one sound |
| SensorReader.StoredFor | sensor_reader.py:92-95 | the entries a run stores for a device are that device's and imply it is valid |
| SensorReader.ApplyStep | sensor_reader.py:76-95 | one line's effect on a device's list, its existence and the error log |
| SensorReader.RunAppends | sensor_reader.py:92-95 | after any run a device's list is its old list followed by exactly what the run stored for it, in arrival order (last is newest) |
| SensorReader.RunLogsErrors | sensor_reader.py:76-80 | the error log grows at its end by exactly the run's `[timestamp] line` records |
| SensorReader.RunKeepsValid | sensor_reader.py:50-104 | every run keeps the invariant |
| SensorReader.NoResetOnNewDay | sensor_reader.py:92-99 | the list is not reset at midnight: the new day's file holds the earlier day's entry too, while the earlier day's file keeps its own content |
| SensorReader.Reader.constructor | sensor_reader.py:17 | the empty map, no errors, no files; the invariant holds |
| SensorReader.Reader.ProcessLine | sensor_reader.py:52-99 | one pass of the loop is `Apply` of the line's outcome |
| SensorReader.Reader.HandleRecord | sensor_reader.py:62-99 | the body of `if len(parts) == 3` is `Apply` of the three parts' outcome |
| SensorReader.Reader.StoreReading | sensor_reader.py:69-99 | after extraction, the state is `Apply` of the extraction's outcome: an error record or a stored entry |
| SensorReader.Reader.LogParseError | sensor_reader.py:76-80 | one `[timestamp] line` record is appended to the error log |
| SensorReader.Reader.Append | sensor_reader.py:92-99 | the entry is appended (list created if absent) and the whole list is dumped to the day's file |
| SensorReader.Reader.Run | sensor_reader.py:50-104 | the loop over received lines ends in `RunAll` of their outcomes |
| LogFiles.DashboardRequestsReaderFile | public/main.js:341 | the URL the dashboard requests for a device and day is the reader's file for that device and day, under `/sensor_logs/` |
| LogFiles.PolledDevicesAreRead | public/main.js:318 | every polled device is one the reader accepts |
| LogFiles.Cube5DeviceNeverLogged | public/main.js:325 | `adlab06` maps to `Cube5`, but the reader rejects it, so its log files never hold an entry |

## Left out

- Rendering: Babylon scene construction, materials, camera maths and wheel zoom. A camera move is recorded as the cube it focuses.
- The hover popup, and the minimap canvas drawing (only its cell arithmetic is modelled).
- The chart header text built in `handleSelection`.
- Chart.js objects, colours and the y-axis unit: a chart is modelled as the series of title, labels and values.
- `toFixed(2)` rounding of chart values: averages are exact reals.
- The panel's text fields and the RGB-to-CSS and brightness text-colour computation: the panel is the cube, the reading and the colour.
- `socket.onmessage` and its `updateQueue`: it calls functions the page does not define, and never feeds `dataMap`.
- `generateRandomData` and the commented-out random update loop; `updateLabelEmojis`, which only that loop calls.
- Timers, `Promise.all`, `async`/`await` and races. Each fetch outcome is an input value, and each handler runs to completion.
- `fetchSensorDataPeriodically` is the same operation as `Dashboard.Page.FetchSensorDataForSelectedCube`, run on a timer.
- JavaScript `Date` parsing and local-time conversion. Readings carry hour and minute already; the clock is an argument.
- Dashboard.Page.PollSensorData: one `now` serves every URL of a poll, while the source reads `Date.now()` once per device.
- Dashboard.NumberText: renders the lux value by its integer part. The label's illuminance text contains `(`, so it compares as NaN whatever the number's digits.
- Decimal.ParseInt: reads only text that starts with its digits. JavaScript's `parseInt` also skips leading whitespace, takes a sign, and reads a `0x` prefix as hexadecimal; the model gives NaN for the first two and 0 for `0x…`. The minimap passes it only the text left after removing `Cube` from a cube name, or `null`.
- Classifier.TextToNumber: converts only plain decimal numerals and the empty string. Every other text, including exponents, signs and surrounding spaces, is treated as NaN.
- Classifier.ColorOf: reading values are numbers, so `parseFloat` of a number is the identity. Text-valued readings are not modelled.
- The mode buttons' `data-type` is assumed to be one of the four mode names (`Classifier.Mode`).
- A polled array's last element is assumed to be an object, never falsy.
- Every cube mesh is assumed to have a material.
- `typeMap` is read only for its own four keys; inherited property names such as `toString` are not modelled.
- Strings.LexLess: compares characters, not UTF-16 code units. The two agree on the ASCII keys it sorts.
- SensorReader.IsWordChar: `\w` and `\d` are ASCII only. Python's `\w` and `\d` also accept other Unicode letters and digits.
- SensorReader.DateStr: years are limited to 1000..9999, so `%Y` and `String(year)` are both four digits.
- Serial port discovery, `input()`, `readline`, `decode(errors='ignore')`, `time.sleep` and the console prints.
- Python's `float()` is an argument, not a parser.
- The `output_dir` path and the JSON encoding of a file. A file is modelled as its name and its list of entries.
- The outer `except` of the reader's loop: none of the modelled steps raises outside the inner `try`.
- The Express server, which only serves these files, is not part of this model.
