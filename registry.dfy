/** The static entities of the dashboard: the device-to-cube table, the cubes and
    labels `createScene` creates, and the minimap's cell arithmetic. */
module Registry {
  import opened Wrappers
  import opened Decimal
  import opened Strings

  /** `m` and `n`: the grid has GridRows rows of GridCols cubes. */
  const GridRows: nat := 2
  const GridCols: nat := 2
  const SpacingX: real := 1.5
  const SpacingZ: real := 3.0

  // ---------------------------------------------------------------- devices

  /** `deviceToCubeMap`, as its entries in key order. */
  const DeviceToCube: seq<(string, string)> :=
    [("adlab02", "Cube1"), ("adlab03", "Cube2"), ("adlab04", "Cube3"), ("adlab05", "Cube4"), ("adlab06", "Cube5")]

  /** `deviceIDs`: the devices the periodic poll fetches, in order. */
  const DeviceIDs: seq<string> := ["adlab02", "adlab03", "adlab04", "adlab05"]

  /** The value of the first entry whose key is `k`. */
  function LookupKey(table: seq<(string, string)>, k: string): (r: Option<string>)
    ensures r.Some? ==> exists i :: 0 <= i < |table| && table[i] == (k, r.value)
    ensures r.None? ==> forall i :: 0 <= i < |table| ==> table[i].0 != k
  {
    if table == [] then None
    else if table[0].0 == k then Some(table[0].1)
    else
      var r := LookupKey(table[1..], k);
      assert r.Some? ==> exists i :: 0 <= i < |table[1..]| && table[1..][i] == (k, r.value);
      r
  }

  /** The key of the first entry whose value is `v`. */
  function LookupValue(table: seq<(string, string)>, v: string): (r: Option<string>)
    ensures r.Some? ==> exists i :: 0 <= i < |table| && table[i] == (r.value, v)
    ensures r.None? ==> forall i :: 0 <= i < |table| ==> table[i].1 != v
  {
    if table == [] then None
    else if table[0].1 == v then Some(table[0].0)
    else
      var r := LookupValue(table[1..], v);
      assert r.Some? ==> exists i :: 0 <= i < |table[1..]| && table[1..][i] == (r.value, v);
      r
  }

  /** `deviceToCubeMap[device]`. */
  function CubeForDevice(device: string): Option<string>
  {
    LookupKey(DeviceToCube, device)
  }

  /** `getSensorIdFromCube(cube)`, and the `Object.keys(...).find(...)` of
      `fetchSensorDataForSelectedCube`: the device whose cube is `cube`. */
  function SensorIdFromCube(cube: string): Option<string>
  {
    LookupValue(DeviceToCube, cube)
  }

  predicate DistinctKeysAndValues(table: seq<(string, string)>)
  {
    forall i, j :: 0 <= i < j < |table| ==> table[i].0 != table[j].0 && table[i].1 != table[j].1
  }

  /** In a table with distinct keys and distinct values the two lookups are inverse. */
  lemma {:induction false} LookupsInverse(table: seq<(string, string)>, i: nat)
    requires DistinctKeysAndValues(table) && i < |table|
    ensures LookupKey(table, table[i].0) == Some(table[i].1)
    ensures LookupValue(table, table[i].1) == Some(table[i].0)
  {
    if i > 0 {
      assert table[1..][i - 1] == table[i];
      LookupsInverse(table[1..], i - 1);
    }
  }

  /** A device maps to a cube exactly when that cube's lookup gives the device back;
      a cube no device maps to (Cube5's neighbours, say) gives no device. */
  lemma DeviceCubeRoundTrip(device: string, cube: string)
    ensures CubeForDevice(device) == Some(cube) <==> SensorIdFromCube(cube) == Some(device)
  {
    assert DistinctKeysAndValues(DeviceToCube);
    if CubeForDevice(device) == Some(cube) {
      var i :| 0 <= i < |DeviceToCube| && DeviceToCube[i] == (device, cube);
      LookupsInverse(DeviceToCube, i);
    }
    if SensorIdFromCube(cube) == Some(device) {
      var i :| 0 <= i < |DeviceToCube| && DeviceToCube[i] == (device, cube);
      LookupsInverse(DeviceToCube, i);
    }
  }

  /** Every polled device has a cube, and no two polled devices share one. */
  lemma PolledDevicesMapToDistinctCubes()
    ensures forall i :: 0 <= i < |DeviceIDs| ==> CubeForDevice(DeviceIDs[i]).Some?
    ensures forall i, j :: 0 <= i < j < |DeviceIDs| ==> CubeForDevice(DeviceIDs[i]) != CubeForDevice(DeviceIDs[j])
  {
    assert DistinctKeysAndValues(DeviceToCube);
    forall i | 0 <= i < |DeviceIDs| ensures CubeForDevice(DeviceIDs[i]) == Some(DeviceToCube[i].1) {
      assert DeviceIDs[i] == DeviceToCube[i].0;
      LookupsInverse(DeviceToCube, i);
    }
  }

  /** Polled device `i` has a cube. */
  lemma PolledDeviceHasCube(i: nat)
    requires i < |DeviceIDs|
    ensures CubeForDevice(DeviceIDs[i]).Some?
  {
    PolledDevicesMapToDistinctCubes();
  }

  /** Polled devices `i` and `j` have different cubes. */
  lemma PolledCubesDiffer(i: nat, j: nat)
    requires i < |DeviceIDs| && j < |DeviceIDs| && i != j
    ensures CubeForDevice(DeviceIDs[i]) != CubeForDevice(DeviceIDs[j])
  {
    PolledDevicesMapToDistinctCubes();
  }

  // ---------------------------------------------------------------- cubes and labels

  /** `"Cube" + k`. */
  function CubeName(k: nat): string
  {
    "Cube" + NatText(k)
  }

  lemma CubeNameInjective(a: nat, b: nat)
    ensures CubeName(a) == CubeName(b) <==> a == b
  {
    if CubeName(a) == CubeName(b) {
      assert NatText(a) == CubeName(a)[4..];
      NatTextInjective(a, b);
    }
  }

  /** A cube clone: its name and its position on the ground plane. */
  datatype CubeEntity = CubeEntity(name: string, x: real, z: real)

  /** The `t`-th cube `createScene` creates (from 0): rows and columns are walked
      downwards from the far corner, so `Cube1` sits at row m-1, column n-1. */
  function CubeAt(m: nat, n: nat, t: nat): CubeEntity
    requires n > 0
  {
    CubeEntity(CubeName(t + 1), (n - 1 - t % n) as real * SpacingX, (m - 1 - t / n) as real * SpacingZ)
  }

  lemma MulGe(a: nat, n: nat)
    requires a >= 1
    ensures a * n >= n
  {
    if a > 1 {
      MulGe(a - 1, n);
      assert a * n == (a - 1) * n + n;
    }
  }

  /** A non-zero multiple of `n` is at least `n` away from zero. */
  lemma MultipleAwayFromZero(d: int, n: nat)
    ensures d >= 1 ==> d * n >= n
    ensures d <= -1 ==> d * n + n <= 0
  {
    if d >= 1 { MulGe(d, n); }
    if d <= -1 { MulGe(-d, n); assert d * n == -((-d) * n); }
  }

  lemma DivModOf(q: nat, r: nat, n: nat)
    requires r < n
    ensures (q * n + r) / n == q && (q * n + r) % n == r
  {
    var a := q * n + r;
    var q', r' := a / n, a % n;
    assert 0 <= r' < n;
    assert a == q' * n + r';
    assert (q' - q) * n == r - r';
    MultipleAwayFromZero(q' - q, n);
  }

  /** The nested loops of `createScene`: every clone is pushed onto `allCubes` twice
      (once after cloning, once after renaming) and onto `allLabels` once. */
  method EnumerateCubes(m: nat, n: nat) returns (allCubes: seq<CubeEntity>, allLabels: seq<string>)
    requires n > 0
    ensures |allLabels| == m * n && |allCubes| == 2 * m * n
    ensures forall t :: 0 <= t < m * n ==>
              allCubes[2 * t] == CubeAt(m, n, t) && allCubes[2 * t + 1] == CubeAt(m, n, t)
              && allLabels[t] == CubeName(t + 1)
  {
    allCubes, allLabels := [], [];
    var labelCounter := 1;
    var i: int := m - 1;
    while i >= 0
      invariant -1 <= i < m
      invariant labelCounter == (m - 1 - i) * n + 1
      invariant |allLabels| == labelCounter - 1 && |allCubes| == 2 * (labelCounter - 1)
      invariant forall t :: 0 <= t < labelCounter - 1 ==>
                  allCubes[2 * t] == CubeAt(m, n, t) && allCubes[2 * t + 1] == CubeAt(m, n, t)
                  && allLabels[t] == CubeName(t + 1)
    {
      var j: int := n - 1;
      while j >= 0
        invariant -1 <= j < n
        invariant labelCounter == (m - 1 - i) * n + (n - 1 - j) + 1
        invariant |allLabels| == labelCounter - 1 && |allCubes| == 2 * (labelCounter - 1)
        invariant forall t :: 0 <= t < labelCounter - 1 ==>
                    allCubes[2 * t] == CubeAt(m, n, t) && allCubes[2 * t + 1] == CubeAt(m, n, t)
                    && allLabels[t] == CubeName(t + 1)
      {
        DivModOf(m - 1 - i, n - 1 - j, n);
        var clone := CubeEntity(CubeName(labelCounter), j as real * SpacingX, i as real * SpacingZ);
        assert clone == CubeAt(m, n, labelCounter - 1);
        allCubes := allCubes + [clone];
        allCubes := allCubes + [clone];
        allLabels := allLabels + [clone.name];
        labelCounter := labelCounter + 1;
        j := j - 1;
      }
      i := i - 1;
    }
  }

  // ---------------------------------------------------------------- minimap

  const MinimapOffset: real := 20.0
  const CellWidth: real := 30.0
  /** `baseSize * (spacingZ / spacingX)`. */
  const CellHeight: real := 60.0

  /** What `handleSelection` hands the minimap: `Minimap.setSelectedCube` strips
      "Cube" from the selected name (twice: once in `handleSelection`, once itself)
      and keeps `parseInt` of the rest, or `null` for NaN. */
  function MinimapNumber(selected: Option<string>): Option<nat>
  {
    match selected
    case None => None
    case Some(name) => ParseInt(RemoveFirst(RemoveFirst(name, "Cube"), "Cube"))
  }

  /** `name.replace("Cube", "")` on a cube name leaves its number. */
  lemma RemoveCubePrefix(k: nat)
    ensures RemoveFirst(CubeName(k), "Cube") == NatText(k)
  {
    assert OccursAt(CubeName(k), "Cube", 0);
  }

  /** Selecting `Cube<k>` marks number `k` on the minimap. */
  lemma MinimapNumberOfCube(k: nat)
    ensures MinimapNumber(Some(CubeName(k))) == Some(k)
  {
    RemoveCubePrefix(k);
    forall j: nat ensures !OccursAt(NatText(k), "Cube", j) {
      if j + 4 <= |NatText(k)| {
        assert IsDigit(NatText(k)[j + 0]) && "Cube"[0] == 'C';
      }
    }
    assert NatText(k) + "" == NatText(k);
    ParseIntOfNatText(k, "");
  }

  /** `drawSelectedCube(num)`: the top-left corner of the cell that gets the red mark
      (`index / n | 0` and `index % n` on a non-negative index). */
  function MarkCorner(num: nat, m: nat, n: nat): (real, real)
    requires num >= 1 && n > 0
  {
    var index := num - 1;
    var row := index / n;
    var col := index % n;
    (MinimapOffset + col as real * CellWidth, MinimapOffset + (m - 1 - row) as real * CellHeight)
  }

  /** One numbered cell of `drawGrid`. */
  datatype GridCell = GridCell(number: nat, x: real, y: real)

  /** `drawGrid`: numbers the cells 1.. row by row from the bottom row. The mark
      `drawSelectedCube(num)` draws lands on the cell labelled `num`. */
  method DrawGrid(m: nat, n: nat) returns (cells: seq<GridCell>)
    requires n > 0
    ensures |cells| == m * n
    ensures forall t :: 0 <= t < m * n ==>
              cells[t].number == t + 1 && (cells[t].x, cells[t].y) == MarkCorner(t + 1, m, n)
  {
    cells := [];
    var counter := 1;
    for row := 0 to m
      invariant counter == row * n + 1 && |cells| == counter - 1
      invariant forall t :: 0 <= t < counter - 1 ==>
                  cells[t].number == t + 1 && (cells[t].x, cells[t].y) == MarkCorner(t + 1, m, n)
    {
      for col := 0 to n
        invariant counter == row * n + col + 1 && |cells| == counter - 1
        invariant forall t :: 0 <= t < counter - 1 ==>
                    cells[t].number == t + 1 && (cells[t].x, cells[t].y) == MarkCorner(t + 1, m, n)
      {
        var x := MinimapOffset + col as real * CellWidth;
        var y := MinimapOffset + (m - 1 - row) as real * CellHeight;
        DivModOf(row, col, n);
        cells := cells + [GridCell(counter, x, y)];
        counter := counter + 1;
      }
    }
  }

  /** The minimap keeps the scene's rows (cell height per row spacing) but mirrors
      its columns: cube `t` stands at scene x = (n-1-col)·spacingX while its minimap
      cell is at column `col`. */
  lemma MinimapMirrorsSceneColumns(m: nat, n: nat, t: nat)
    requires n > 0 && t < m * n
    ensures MarkCorner(t + 1, m, n).1 == MinimapOffset + CubeAt(m, n, t).z / SpacingZ * CellHeight
    ensures MarkCorner(t + 1, m, n).0
            == MinimapOffset + ((n - 1) as real * SpacingX - CubeAt(m, n, t).x) / SpacingX * CellWidth
  {
  }
}
