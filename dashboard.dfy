/** The dashboard page: the globals of `main.js` (`window.selectedCubeName`,
    `latestSensorData`, `currentSensorType`, the minimap selection, the chart)
    together with the cube and label visuals, and the handlers that change them:
    `handleSelection` and its label and empty-space callers, the periodic
    `pollSensorData`, `fetchSensorDataForSelectedCube`, the mode buttons,
    `updateVisibleChartDataset` and `updateAllCubeColors`. */
module Dashboard {
  import opened Wrappers
  import opened Decimal
  import opened Strings
  import opened Readings
  import opened Classifier
  import opened Registry
  import opened TimeSlots
  import opened Store

  /** `window.currentIntervalMinutes`, the slot width of every chart update
      (never reassigned, so `currentIntervalMinutes || 60` is also 5). */
  const IntervalMinutes: nat := 5

  /** The initial material colour of every cube. */
  const White := Color3(1.0, 1.0, 1.0)

  // ---------------------------------------------------------------- requests

  /** `getTodayDateStr()`: `yyyy-mm-dd` with month and day padded to two digits. */
  function TodayDateStr(d: CalendarDay): (s: string)
    ensures |s| == 10 && s[4] == '-' && s[7] == '-'
  {
    FourDigitText(d.year);
    NatText(d.year) + "-" + Pad2(d.month) + "-" + Pad2(d.day)
  }

  /** The URL both fetch paths request for a device's log of day `d`; `now` is
      `Date.now()`, appended to defeat caching. */
  function LogUrl(device: string, d: CalendarDay, now: nat): string
  {
    "/sensor_logs/" + device + "_" + TodayDateStr(d) + ".json?t=" + NatText(now)
  }

  /** The outcome of one `fetch` of a log: the parsed array, a response that
      is not ok, or a rejected fetch / unparsable body. */
  datatype FetchOutcome = Fetched(data: seq<Reading>) | NotOk | Failed

  // ---------------------------------------------------------------- selection

  /** `selectedCubeName === cubeName ? null : cubeName`. */
  function Toggle(current: Option<string>, picked: Option<string>): (r: Option<string>)
    ensures r.None? <==> current == picked || picked.None?
    ensures r.Some? ==> r == picked
  {
    if current == picked then None else picked
  }

  /** What a label click passes to `handleSelection`: `null` when its cube is
      already selected, otherwise the cube's name. */
  function LabelClickTarget(current: Option<string>, cube: string): Option<string>
  {
    if current == Some(cube) then None else Some(cube)
  }

  /** A label click acts exactly as a click on its cube: it deselects the
      selected cube and selects any other. */
  lemma LabelClickIsToggle(current: Option<string>, cube: string)
    ensures Toggle(current, LabelClickTarget(current, cube)) == Toggle(current, Some(cube))
    ensures Toggle(current, Some(cube)).None? <==> current == Some(cube)
  {
  }

  /** Picking the same cube twice returns to no selection when it started
      unselected, and re-selects it when it started selected. */
  lemma PickTwice(current: Option<string>, cube: string)
    ensures Toggle(Toggle(current, Some(cube)), Some(cube)) == (if current == Some(cube) then Some(cube) else None)
  {
  }

  /** The alpha `handleSelection` gives a cube's materials or a label. */
  function TargetAlpha(selected: Option<string>, name: string): (a: real)
    ensures a == 1.0 <==> selected.None? || selected == Some(name)
    ensures a == 1.0 || a == 0.2
  {
    if selected.None? then 1.0 else if selected == Some(name) then 1.0 else 0.2
  }

  /** `allCubes.find(cube => cube.name === name)`. */
  function FindCube(cubes: seq<CubeEntity>, name: string): (r: Option<CubeEntity>)
    ensures r.Some? ==> r.value in cubes && r.value.name == name
    ensures r.None? ==> forall c :: c in cubes ==> c.name != name
  {
    if cubes == [] then None
    else if cubes[0].name == name then Some(cubes[0])
    else FindCube(cubes[1..], name)
  }

  /** The camera focus requests `handleSelection` makes for a selection. */
  function FocusFor(selected: Option<string>, cubes: seq<CubeEntity>): seq<CubeEntity>
  {
    if Truthy(selected) then
      match FindCube(cubes, selected.value)
      case Some(c) => [c]
      case None => []
    else []
  }

  // ---------------------------------------------------------------- chart

  /** The chart after `onNewSensorData(data, sensorType, interval)`: the new
      series, or the old chart for an unknown sensor type. */
  ghost function Redraw(chart: Series, sensorType: string, data: seq<Reading>, interval: nat): Series
    requires interval >= 1
  {
    match ChartSeries(sensorType, Buckets(data, interval))
    case Some(s) => s
    case None => chart
  }

  /** The device `fetchSensorDataForSelectedCube` fetches for: none when no
      cube (or the empty name) is selected or the cube has no device. */
  function SelectedDevice(selected: Option<string>): Option<string>
  {
    if Truthy(selected) then SensorIdFromCube(selected.value) else None
  }

  /** `latestSensorData` and the chart after a fetch for `device`: a fetched
      array replaces both, a not-ok response empties the data and redraws,
      and a failure changes nothing. */
  ghost function AfterFetch(device: Option<string>, fetch: FetchOutcome, latest: seq<Reading>,
                            chart: Series, sensorType: string): (seq<Reading>, Series)
  {
    if device.None? then (latest, chart)
    else
      match fetch
      case Fetched(data) => (data, Redraw(chart, sensorType, data, IntervalMinutes))
      case NotOk => ([], Redraw(chart, sensorType, [], IntervalMinutes))
      case Failed => (latest, chart)
  }

  /** `latestSensorData.filter(d => d.device === sensorId)`. */
  function FromDevice(data: seq<Reading>, device: string): (r: seq<Reading>)
    ensures forall x :: x in r <==> x in data && x.device == device
    ensures forall x :: multiset(r)[x] == if x.device == device then multiset(data)[x] else 0
    ensures |r| <= |data|
  {
    if data == [] then []
    else
      var init := FromDevice(data[..|data| - 1], device);
      var last := data[|data| - 1];
      assert data == data[..|data| - 1] + [last];
      assert multiset(data) == multiset(data[..|data| - 1]) + multiset{last};
      assert forall x :: x in data <==> x in data[..|data| - 1] || x == last;
      if last.device == device then init + [last] else init
  }

  // ---------------------------------------------------------------- labels

  /** `String(x)` of a reading's lux value, written here by its integer part. */
  function NumberText(x: real): string
  {
    if x < 0.0 then "-" + NatText((-x).Floor as nat) else NatText(x.Floor as nat)
  }

  /** `data.direction || "?"`. */
  function DirectionText(direction: Option<string>): string
  {
    if Truthy(direction) then direction.value else "?"
  }

  /** The string `updateSingleLabelText` classifies for illuminance. */
  function LuxText(r: Reading): string
  {
    NumberText(r.lux) + " (" + DirectionText(r.direction) + ")"
  }

  /** `data.pH`, `undefined` when the record has none. */
  function PhValue(pH: Option<real>): JsValue
  {
    match pH
    case Some(v) => Number(v)
    case None => Undefined
  }

  /** `updateSingleLabelText`: the cube's number followed by the four emojis. */
  function LabelText(cube: string, r: Reading): string
  {
    RemoveFirst(cube, "Cube")
      + EnvironmentEmoji(Number(r.temperature), "temperature")
      + EnvironmentEmoji(Number(r.humidity), "humidity")
      + EnvironmentEmoji(Text(LuxText(r)), "illuminance")
      + EnvironmentEmoji(PhValue(r.pH), "ph")
  }

  /** A label shows its cube's number, the temperature and humidity tiers the
      cube's colour shows in those modes, always the low illuminance glyph
      (its value is a text with a parenthesis, which compares as NaN), and the
      pH tier of the colour except at exactly 6.5. */
  lemma LabelShowsTiers(k: nat, r: Reading, tT: Tier, tH: Tier, tP: Tier)
    requires Palette(Temperature, tT) == ColorByTemperature(r.temperature)
    requires Palette(Humidity, tH) == ColorByHumidity(r.humidity)
    requires Palette(PH, tP) == ColorByPH(r.pH) && r.pH != Some(6.5)
    ensures LabelText(CubeName(k), r) ==
      NatText(k) + Glyph(Temperature, tT) + Glyph(Humidity, tH) + Glyph(Illuminance, Low) + Glyph(PH, tP)
  {
    RemoveCubePrefix(k);
    ColorAndEmojiAgree(Temperature, r.temperature, tT);
    ColorAndEmojiAgree(Humidity, r.humidity, tH);
    var lux := LuxText(r);
    assert lux[|NumberText(r.lux)| + 1] == '(';
    TextWithParenIsNaN(lux);
    EnvironmentEmojiTiers(Text(lux), "illuminance");
    if r.pH.Some? {
      PhColorAndEmojiDisagreeOnlyAt65(r.pH.value);
    } else {
      EnvironmentEmojiTiers(PhValue(r.pH), "ph");
    }
  }

  // ---------------------------------------------------------------- poll

  /** The store's readings and panel, as the poll changes them. */
  datatype StoreState = StoreState(dataMap: map<string, Reading>, panel: Option<Panel>)

  /** One device's poll result applied by `updateCubeData` (a non-empty
      array's last element), or nothing for a missing, failed or empty one. */
  function PollStep(s: StoreState, selected: Option<string>, mode: Mode, device: string, outcome: FetchOutcome): StoreState
  {
    match outcome
    case Fetched(data) =>
      if data == [] then s
      else
        (match CubeForDevice(device)
         case None => s
         case Some(cube) =>
           var latest := data[|data| - 1];
           StoreState(s.dataMap[cube := latest],
                      if selected == Some(cube) then Some(PanelFor(cube, latest, mode)) else s.panel))
    case NotOk => s
    case Failed => s
  }

  /** The store after the first `k` poll results, in device order. */
  function ApplyPoll(s: StoreState, selected: Option<string>, mode: Mode, results: seq<FetchOutcome>, k: nat): StoreState
    requires k <= |results| && |results| <= |DeviceIDs|
  {
    if k == 0 then s
    else PollStep(ApplyPoll(s, selected, mode, results, k - 1), selected, mode, DeviceIDs[k - 1], results[k - 1])
  }

  /** Whether poll result `i` writes a reading, and which. */
  predicate Delivers(results: seq<FetchOutcome>, i: nat)
    requires i < |results|
  {
    results[i].Fetched? && results[i].data != []
  }

  /** One poll step writes only the cube of a device whose array is non-empty. */
  lemma PollStepMap(s: StoreState, selected: Option<string>, mode: Mode, results: seq<FetchOutcome>, i: nat)
    requires i < |results| == |DeviceIDs|
    ensures CubeForDevice(DeviceIDs[i]).Some?
    ensures var m := PollStep(s, selected, mode, DeviceIDs[i], results[i]).dataMap;
      if Delivers(results, i)
      then m == s.dataMap[CubeForDevice(DeviceIDs[i]).value := results[i].data[|results[i].data| - 1]]
      else m == s.dataMap
  {
    PolledDeviceHasCube(i);
  }

  /** After a poll, a device whose array is non-empty has that array's last
      element stored under its cube: the polled devices' cubes are distinct,
      so no later update overwrites it. */
  lemma {:induction false} PollStoresLatest(s: StoreState, selected: Option<string>, mode: Mode,
                                            results: seq<FetchOutcome>, k: nat, i: nat)
    requires k <= |results| == |DeviceIDs| && i < k && Delivers(results, i)
    ensures var m := ApplyPoll(s, selected, mode, results, k).dataMap;
      var cube := CubeForDevice(DeviceIDs[i]).value;
      cube in m && m[cube] == results[i].data[|results[i].data| - 1]
  {
    PollStepMap(ApplyPoll(s, selected, mode, results, k - 1), selected, mode, results, k - 1);
    if i < k - 1 {
      PolledDeviceHasCube(i);
      PolledCubesDiffer(i, k - 1);
      PollStoresLatest(s, selected, mode, results, k - 1, i);
    }
  }

  /** After a poll, a cube that no delivering device maps to keeps its reading
      (or stays absent). */
  lemma {:induction false} PollKeepsOthers(s: StoreState, selected: Option<string>, mode: Mode,
                                           results: seq<FetchOutcome>, k: nat, c: string)
    requires k <= |results| == |DeviceIDs|
    requires forall i :: 0 <= i < k && Delivers(results, i) ==> CubeForDevice(DeviceIDs[i]) != Some(c)
    ensures var m := ApplyPoll(s, selected, mode, results, k).dataMap;
      (c in m <==> c in s.dataMap) && (c in m ==> m[c] == s.dataMap[c])
  {
    if k > 0 {
      PollStepMap(ApplyPoll(s, selected, mode, results, k - 1), selected, mode, results, k - 1);
      PollKeepsOthers(s, selected, mode, results, k - 1, c);
    }
  }

  // ---------------------------------------------------------------- page

  class Page {
    const sensorData: SensorData
    /** `allCubes`: every clone appears twice, in creation order. */
    const allCubes: seq<CubeEntity>
    /** `allLabels`: the name of the cube each label is linked to. */
    const allLabels: seq<string>

    /** `window.selectedCubeName`. */
    var selectedCubeName: Option<string>
    /** `minimap.selectedCube`. */
    var minimapSelected: Option<nat>
    /** The material alpha of each `allCubes` entry's meshes. */
    var cubeAlpha: seq<real>
    /** The material colour of each `allCubes` entry's meshes. */
    var cubeColor: seq<Color>
    /** The alpha of each label. */
    var labelAlpha: seq<real>
    /** The text of each label. */
    var labelText: seq<string>
    /** The cubes `moveCameraToTarget` was asked to focus, oldest first. */
    var cameraFocus: seq<CubeEntity>
    /** The URLs requested from the server, oldest first. */
    var requests: seq<string>
    /** `window.latestSensorData`. */
    var latestSensorData: seq<Reading>
    /** `window.currentSensorType`. */
    var currentSensorType: string
    /** The series `sensorChart` shows. */
    var chart: Series
    /** The mode whose reference guide is shown. */
    var guide: Mode

    ghost predicate Valid()
      reads this`cubeAlpha, this`cubeColor, this`labelAlpha, this`labelText
    {
      |cubeAlpha| == |cubeColor| == |allCubes| && |labelAlpha| == |labelText| == |allLabels|
    }

    /** The page as `createScene` and the global initialisers leave it. */
    constructor(store: SensorData)
      ensures sensorData == store && Valid()
      ensures |allLabels| == GridRows * GridCols && |allCubes| == 2 * |allLabels|
      ensures forall t :: 0 <= t < |allLabels| ==>
        allCubes[2 * t] == CubeAt(GridRows, GridCols, t) && allCubes[2 * t + 1] == CubeAt(GridRows, GridCols, t)
        && allLabels[t] == CubeName(t + 1)
      ensures selectedCubeName == None && minimapSelected == None
      ensures forall i :: 0 <= i < |allCubes| ==> cubeAlpha[i] == 1.0 && cubeColor[i] == White
      ensures forall i :: 0 <= i < |allLabels| ==> labelAlpha[i] == 0.7 && labelText[i] == RemoveFirst(allLabels[i], "Cube")
      ensures cameraFocus == [] && requests == [] && latestSensorData == []
      ensures currentSensorType == ModeName(Temperature) && guide == Temperature
      ensures chart == Series(SeriesTitle(Temperature), [], [])
    {
      sensorData := store;
      var cubes, labels := EnumerateCubes(GridRows, GridCols);
      allCubes := cubes;
      allLabels := labels;
      selectedCubeName := None;
      minimapSelected := None;
      cubeAlpha := seq(|cubes|, _ => 1.0);
      cubeColor := seq(|cubes|, _ => White);
      labelAlpha := seq(|labels|, _ => 0.7);
      labelText := seq(|labels|, i requires 0 <= i < |labels| => RemoveFirst(labels[i], "Cube"));
      cameraFocus := [];
      requests := [];
      latestSensorData := [];
      currentSensorType := ModeName(Temperature);
      chart := Series(SeriesTitle(Temperature), [], []);
      guide := Temperature;
    }

    /** Everything `handleSelection` does once the new selection `sel` is
      known: the selection shown on the page, and the fetch for the selected
      cube's device. */
    twostate predicate SelectionApplied(sel: Option<string>, today: CalendarDay, now: nat, fetch: FetchOutcome)
      reads this, sensorData
    {
      selectedCubeName == sel && SelectionShown(sel) && FetchApplied(sel, today, now, fetch)
    }

    /** The selection `sel` shown on the page: the minimap number, the alphas,
      the store's selection and panel (a deselect leaves both as they were),
      and the camera focus. */
    twostate predicate SelectionShown(sel: Option<string>)
      reads this`minimapSelected, this`cubeAlpha, this`labelAlpha, this`cameraFocus
      reads sensorData`selectedCube, sensorData`panel, sensorData`dataMap, sensorData`currentMode
    {
      && minimapSelected == MinimapNumber(sel)
      && AlphasFor(sel)
      && (if Truthy(sel) then
            sensorData.selectedCube == sel
            && sensorData.panel == (if sel.value in sensorData.dataMap
                                    then Some(PanelFor(sel.value, sensorData.dataMap[sel.value], sensorData.currentMode))
                                    else old(sensorData.panel))
          else
            sensorData.selectedCube == old(sensorData.selectedCube) && sensorData.panel == old(sensorData.panel))
      && cameraFocus == old(cameraFocus) + FocusFor(sel, allCubes)
    }

    /** The fetch for selection `sel`: the log URL of its device is requested,
      and the data and chart change as `AfterFetch` says. */
    twostate predicate FetchApplied(sel: Option<string>, today: CalendarDay, now: nat, fetch: FetchOutcome)
      reads this`requests, this`latestSensorData, this`chart, this`currentSensorType
    {
      && requests == old(requests) + (if SelectedDevice(sel).Some? then [LogUrl(SelectedDevice(sel).value, today, now)] else [])
      && (latestSensorData, chart) == AfterFetch(SelectedDevice(sel), fetch, old(latestSensorData), old(chart), currentSensorType)
    }

    /** Every cube and label is opaque when nothing is selected or it is the
      selected cube, and faded otherwise. */
    ghost predicate AlphasFor(sel: Option<string>)
      reads this`cubeAlpha, this`labelAlpha
    {
      && |cubeAlpha| == |allCubes| && |labelAlpha| == |allLabels|
      && (forall i :: 0 <= i < |allCubes| ==> cubeAlpha[i] == TargetAlpha(sel, allCubes[i].name))
      && (forall i :: 0 <= i < |allLabels| ==> labelAlpha[i] == TargetAlpha(sel, allLabels[i]))
    }

    /** The two `forEach` loops of `handleSelection` that set the alphas. */
    method ApplyAlphas(sel: Option<string>)
      requires Valid()
      modifies this`cubeAlpha, this`labelAlpha
      ensures Valid() && AlphasFor(sel)
    {
      var alphas := cubeAlpha;
      for i := 0 to |allCubes|
        invariant |alphas| == |allCubes|
        invariant forall j :: 0 <= j < i ==> alphas[j] == TargetAlpha(sel, allCubes[j].name)
      {
        alphas := alphas[i := TargetAlpha(sel, allCubes[i].name)];
      }
      cubeAlpha := alphas;
      var labelAlphas := labelAlpha;
      for i := 0 to |allLabels|
        invariant |labelAlphas| == |allLabels|
        invariant forall j :: 0 <= j < i ==> labelAlphas[j] == TargetAlpha(sel, allLabels[j])
      {
        labelAlphas := labelAlphas[i := TargetAlpha(sel, allLabels[i])];
      }
      labelAlpha := labelAlphas;
    }

    /** The `if (window.selectedCubeName)` block of `handleSelection`: select
      the cube in the store and focus the camera on it. */
    method FocusSelection(sel: Option<string>)
      modifies this`cameraFocus, sensorData`selectedCube, sensorData`panel
      ensures cameraFocus == old(cameraFocus) + FocusFor(sel, allCubes)
      ensures Truthy(sel) ==> sensorData.selectedCube == sel
      ensures Truthy(sel) ==>
        sensorData.panel == (if sel.value in sensorData.dataMap
                             then Some(PanelFor(sel.value, sensorData.dataMap[sel.value], sensorData.currentMode))
                             else old(sensorData.panel))
      ensures !Truthy(sel) ==>
        sensorData.selectedCube == old(sensorData.selectedCube) && sensorData.panel == old(sensorData.panel)
    {
      if Truthy(sel) {
        sensorData.SetSelectedCube(sel.value);
        var target := FindCube(allCubes, sel.value);
        if target.Some? {
          cameraFocus := cameraFocus + [target.value];
        }
      }
    }

    /** The body of `handleSelection` before its fetch: minimap, alphas,
      store selection and camera. */
    method ShowSelection(sel: Option<string>)
      requires Valid()
      modifies this`minimapSelected, this`cubeAlpha, this`labelAlpha, this`cameraFocus
      modifies sensorData`selectedCube, sensorData`panel
      ensures Valid() && SelectionShown(sel)
    {
      minimapSelected := MinimapNumber(sel);
      ApplyAlphas(sel);
      FocusSelection(sel);
    }

    /** `handleSelection(cubeName)`: toggle the selection and apply it. */
    method HandleSelection(picked: Option<string>, today: CalendarDay, now: nat, fetch: FetchOutcome)
      requires Valid()
      modifies this`selectedCubeName, this`minimapSelected, this`cubeAlpha, this`labelAlpha
      modifies this`cameraFocus, this`requests, this`latestSensorData, this`chart
      modifies sensorData`selectedCube, sensorData`panel
      ensures Valid()
      ensures SelectionApplied(Toggle(old(selectedCubeName), picked), today, now, fetch)
    {
      selectedCubeName := Toggle(selectedCubeName, picked);
      ShowSelection(selectedCubeName);
      FetchSensorDataForSelectedCube(today, now, fetch);
    }

    /** A label's pointer-up: `handleSelection(isAlreadySelected ? null : clone.name)`. */
    method ClickLabel(cube: string, today: CalendarDay, now: nat, fetch: FetchOutcome)
      requires Valid()
      modifies this`selectedCubeName, this`minimapSelected, this`cubeAlpha, this`labelAlpha
      modifies this`cameraFocus, this`requests, this`latestSensorData, this`chart
      modifies sensorData`selectedCube, sensorData`panel
      ensures Valid()
      ensures selectedCubeName == Toggle(old(selectedCubeName), Some(cube))
      ensures SelectionApplied(selectedCubeName, today, now, fetch)
    {
      LabelClickIsToggle(selectedCubeName, cube);
      HandleSelection(LabelClickTarget(selectedCubeName, cube), today, now, fetch);
    }

    /** The scene's pointer-down: a press on neither a cube nor a label
      deselects. */
    method PointerDown(onCubeOrLabel: bool, today: CalendarDay, now: nat, fetch: FetchOutcome)
      requires Valid()
      modifies this`selectedCubeName, this`minimapSelected, this`cubeAlpha, this`labelAlpha
      modifies this`cameraFocus, this`requests, this`latestSensorData, this`chart
      modifies sensorData`selectedCube, sensorData`panel
      ensures Valid()
      ensures onCubeOrLabel ==> unchanged(this) && unchanged(sensorData)
      ensures !onCubeOrLabel ==> selectedCubeName == None && SelectionApplied(None, today, now, fetch)
    {
      if !onCubeOrLabel {
        HandleSelection(None, today, now, fetch);
      }
    }

    /** `onNewSensorData(data, sensorType, interval)`: bucket and redraw. */
    method OnNewSensorData(data: seq<Reading>, sensorType: string, interval: nat)
      requires interval >= 1
      modifies this`chart
      ensures chart == Redraw(old(chart), sensorType, data, interval)
    {
      var buckets := ProcessDataToTimeSlots(data, interval);
      var series := UpdateChartFromBuckets(sensorType, buckets);
      if series.Some? {
        chart := series.value;
      }
    }

    /** `fetchSensorDataForSelectedCube()`, with the outcome of its fetch. */
    method FetchSensorDataForSelectedCube(today: CalendarDay, now: nat, fetch: FetchOutcome)
      modifies this`requests, this`latestSensorData, this`chart
      ensures FetchApplied(selectedCubeName, today, now, fetch)
    {
      var selected := selectedCubeName;
      if !Truthy(selected) {
        return;
      }
      var sensorId := SensorIdFromCube(selected.value);
      if sensorId.None? {
        return;
      }
      requests := requests + [LogUrl(sensorId.value, today, now)];
      match fetch
      case Fetched(data) =>
        latestSensorData := data;
        OnNewSensorData(data, currentSensorType, IntervalMinutes);
      case NotOk =>
        latestSensorData := [];
        OnNewSensorData([], currentSensorType, IntervalMinutes);
      case Failed =>
    }

    /** `updateVisibleChartDataset(sensorType)`: redraw from the selected
      cube's readings in `latestSensorData`. */
    method UpdateVisibleChartDataset(sensorType: string)
      modifies this`chart
      ensures var device := if selectedCubeName.Some? then SensorIdFromCube(selectedCubeName.value) else None;
        chart == if device.None? then old(chart)
                 else Redraw(old(chart), sensorType, FromDevice(latestSensorData, device.value), IntervalMinutes)
    {
      var interval := IntervalMinutes;
      var sensorId := if selectedCubeName.Some? then SensorIdFromCube(selectedCubeName.value) else None;
      if sensorId.None? {
        return;
      }
      var filteredData := FromDevice(latestSensorData, sensorId.value);
      OnNewSensorData(filteredData, sensorType, interval);
    }

    /** `updateAllCubeColors()`: recolour every cube and rewrite every label
      that has a stored reading. */
    method UpdateAllCubeColors()
      requires Valid()
      modifies this`cubeColor, this`labelText
      ensures Valid()
      ensures forall i :: 0 <= i < |allCubes| ==>
        cubeColor[i] == if allCubes[i].name in sensorData.dataMap
                        then ColorOf(sensorData.currentMode, sensorData.dataMap[allCubes[i].name])
                        else old(cubeColor[i])
      ensures forall i :: 0 <= i < |allLabels| ==>
        labelText[i] == if allLabels[i] in sensorData.dataMap
                        then LabelText(allLabels[i], sensorData.dataMap[allLabels[i]])
                        else old(labelText[i])
    {
      UpdateCubeColors();
      UpdateCubeLabels();
    }

    /** The `updateCubeColor` of every cube: a cube with a stored reading
      takes the current mode's colour of it. */
    method UpdateCubeColors()
      requires Valid()
      modifies this`cubeColor
      ensures Valid()
      ensures forall i :: 0 <= i < |allCubes| ==>
        cubeColor[i] == if allCubes[i].name in sensorData.dataMap
                        then ColorOf(sensorData.currentMode, sensorData.dataMap[allCubes[i].name])
                        else old(cubeColor[i])
    {
      var colors := cubeColor;
      for i := 0 to |allCubes|
        invariant |colors| == |allCubes|
        invariant forall j :: 0 <= j < |allCubes| ==>
          colors[j] == if j < i && allCubes[j].name in sensorData.dataMap
                       then ColorOf(sensorData.currentMode, sensorData.dataMap[allCubes[j].name])
                       else old(cubeColor[j])
      {
        var name := allCubes[i].name;
        if name in sensorData.dataMap {
          colors := colors[i := ColorOf(sensorData.currentMode, sensorData.dataMap[name])];
        }
      }
      cubeColor := colors;
    }

    /** `updateCubeLabels()`: a label whose cube has a stored reading shows
      its text. */
    method UpdateCubeLabels()
      requires Valid()
      modifies this`labelText
      ensures Valid()
      ensures forall i :: 0 <= i < |allLabels| ==>
        labelText[i] == if allLabels[i] in sensorData.dataMap
                        then LabelText(allLabels[i], sensorData.dataMap[allLabels[i]])
                        else old(labelText[i])
    {
      var texts := labelText;
      for i := 0 to |allLabels|
        invariant |texts| == |allLabels|
        invariant forall j :: 0 <= j < |allLabels| ==>
          texts[j] == if j < i && allLabels[j] in sensorData.dataMap
                      then LabelText(allLabels[j], sensorData.dataMap[allLabels[j]])
                      else old(labelText[j])
      {
        var name := allLabels[i];
        if name in sensorData.dataMap {
          texts := texts[i := LabelText(name, sensorData.dataMap[name])];
        }
      }
      labelText := texts;
    }

    /** A mode button: set the mode and guide, recolour, refresh the panel of
      the store's selected cube (which a deselect does not clear), and redraw
      the chart for the new sensor type. */
    method SelectMode(mode: Mode)
      requires Valid()
      modifies this`guide, this`cubeColor, this`labelText, this`currentSensorType, this`chart
      modifies sensorData`currentMode, sensorData`panel
      ensures Valid()
      ensures sensorData.currentMode == mode && guide == mode && currentSensorType == ModeName(mode)
      ensures forall i :: 0 <= i < |allCubes| ==>
        cubeColor[i] == if allCubes[i].name in sensorData.dataMap
                        then ColorOf(mode, sensorData.dataMap[allCubes[i].name])
                        else old(cubeColor[i])
      ensures forall i :: 0 <= i < |allLabels| ==>
        labelText[i] == if allLabels[i] in sensorData.dataMap
                        then LabelText(allLabels[i], sensorData.dataMap[allLabels[i]])
                        else old(labelText[i])
      ensures var sel := sensorData.selectedCube;
        sensorData.panel == if Truthy(sel) && sel.value in sensorData.dataMap
                            then Some(PanelFor(sel.value, sensorData.dataMap[sel.value], mode))
                            else old(sensorData.panel)
      ensures var device := if selectedCubeName.Some? then SensorIdFromCube(selectedCubeName.value) else None;
        chart == if device.None? then old(chart)
                 else Redraw(old(chart), ModeName(mode), FromDevice(latestSensorData, device.value), IntervalMinutes)
    {
      sensorData.currentMode := mode;
      guide := mode;
      UpdateAllCubeColors();
      if Truthy(sensorData.selectedCube) {
        sensorData.UpdateSelectedCubeInfo(sensorData.selectedCube.value);
      }
      currentSensorType := ModeName(mode);
      UpdateVisibleChartDataset(currentSensorType);
    }

    /** `pollSensorData()`, with the outcome of each device's fetch in
      `deviceIDs` order. */
    method PollSensorData(today: CalendarDay, now: nat, results: seq<FetchOutcome>)
      requires Valid() && |results| == |DeviceIDs|
      modifies this`requests, this`cubeColor, this`labelText, sensorData`dataMap, sensorData`panel
      ensures Valid()
      ensures |requests| == |old(requests)| + |DeviceIDs| && requests[..|old(requests)|] == old(requests)
      ensures forall i :: 0 <= i < |DeviceIDs| ==> requests[|old(requests)| + i] == LogUrl(DeviceIDs[i], today, now)
      ensures StoreState(sensorData.dataMap, sensorData.panel) ==
        ApplyPoll(StoreState(old(sensorData.dataMap), old(sensorData.panel)),
                  sensorData.selectedCube, sensorData.currentMode, results, |results|)
      ensures old(sensorData.PanelCurrent()) ==> sensorData.PanelCurrent()
      ensures forall i :: 0 <= i < |allCubes| ==>
        cubeColor[i] == if allCubes[i].name in sensorData.dataMap
                        then ColorOf(sensorData.currentMode, sensorData.dataMap[allCubes[i].name])
                        else old(cubeColor[i])
      ensures forall i :: 0 <= i < |allLabels| ==>
        labelText[i] == if allLabels[i] in sensorData.dataMap
                        then LabelText(allLabels[i], sensorData.dataMap[allLabels[i]])
                        else old(labelText[i])
    {
      RequestLogs(today, now);
      ApplyPollResults(results);
    }

    /** `deviceIDs.map(...)`: one request per polled device, in order. */
    method RequestLogs(today: CalendarDay, now: nat)
      modifies this`requests
      ensures |requests| == |old(requests)| + |DeviceIDs| && requests[..|old(requests)|] == old(requests)
      ensures forall i :: 0 <= i < |DeviceIDs| ==> requests[|old(requests)| + i] == LogUrl(DeviceIDs[i], today, now)
    {
      var urls := requests;
      for idx := 0 to |DeviceIDs|
        invariant |urls| == |old(requests)| + idx && urls[..|old(requests)|] == old(requests)
        invariant forall i :: 0 <= i < idx ==> urls[|old(requests)| + i] == LogUrl(DeviceIDs[i], today, now)
      {
        urls := urls + [LogUrl(DeviceIDs[idx], today, now)];
      }
      requests := urls;
    }

    /** The `then` callback: store each non-empty array's last reading under
      its device's cube, then recolour. */
    method ApplyPollResults(results: seq<FetchOutcome>)
      requires Valid() && |results| == |DeviceIDs|
      modifies this`cubeColor, this`labelText, sensorData`dataMap, sensorData`panel
      ensures Valid()
      ensures StoreState(sensorData.dataMap, sensorData.panel) ==
        ApplyPoll(StoreState(old(sensorData.dataMap), old(sensorData.panel)),
                  sensorData.selectedCube, sensorData.currentMode, results, |results|)
      ensures old(sensorData.PanelCurrent()) ==> sensorData.PanelCurrent()
      ensures forall i :: 0 <= i < |allCubes| ==>
        cubeColor[i] == if allCubes[i].name in sensorData.dataMap
                        then ColorOf(sensorData.currentMode, sensorData.dataMap[allCubes[i].name])
                        else old(cubeColor[i])
      ensures forall i :: 0 <= i < |allLabels| ==>
        labelText[i] == if allLabels[i] in sensorData.dataMap
                        then LabelText(allLabels[i], sensorData.dataMap[allLabels[i]])
                        else old(labelText[i])
    {
      StoreLatest(results);
      UpdateAllCubeColors();
    }

    /** `sensorDataArrays.forEach(...)`: the last reading of each non-empty
      array goes to its device's cube, in device order. */
    method StoreLatest(results: seq<FetchOutcome>)
      requires |results| == |DeviceIDs|
      modifies sensorData`dataMap, sensorData`panel
      ensures StoreState(sensorData.dataMap, sensorData.panel) ==
        ApplyPoll(StoreState(old(sensorData.dataMap), old(sensorData.panel)),
                  sensorData.selectedCube, sensorData.currentMode, results, |results|)
      ensures old(sensorData.PanelCurrent()) ==> sensorData.PanelCurrent()
    {
      ghost var start := StoreState(sensorData.dataMap, sensorData.panel);
      for idx := 0 to |results|
        invariant StoreState(sensorData.dataMap, sensorData.panel) ==
          ApplyPoll(start, sensorData.selectedCube, sensorData.currentMode, results, idx)
        invariant old(sensorData.PanelCurrent()) ==> sensorData.PanelCurrent()
      {
        match results[idx]
        case Fetched(dataArray) =>
          if dataArray != [] {
            var cubeName := CubeForDevice(DeviceIDs[idx]);
            if cubeName.Some? {
              var latest := dataArray[|dataArray| - 1];
              sensorData.UpdateCubeData(cubeName.value, latest);
            }
          }
        case _ =>
      }
    }
  }
}
