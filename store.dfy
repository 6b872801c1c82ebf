/** The dashboard's sensor state store, the `SensorData` class: the last
    reading of every cube, the display mode and the selected cube, plus what
    its reading panel currently shows. */
module Store {
  import opened Wrappers
  import opened Readings
  import opened Classifier

  /** What `updateSelectedCubeInfo` writes into the reading panel: the cube's
      name, its reading and the background colour the current mode gives it. */
  datatype Panel = Panel(cube: string, reading: Reading, color: Color)

  function PanelFor(cube: string, r: Reading, mode: Mode): Panel
  {
    Panel(cube, r, ColorOf(mode, r))
  }

  class SensorData {
    /** `dataMap`: cube name to its last reading. */
    var dataMap: map<string, Reading>
    /** `currentMode`. */
    var currentMode: Mode
    /** `selectedCube`; `None` is `null`. */
    var selectedCube: Option<string>
    /** The panel's content; `None` until it is first written. */
    var panel: Option<Panel>

    /** The panel shows the selected cube's stored reading in the current mode. */
    predicate PanelCurrent()
      reads this
    {
      && Truthy(selectedCube)
      && selectedCube.value in dataMap
      && panel == Some(PanelFor(selectedCube.value, dataMap[selectedCube.value], currentMode))
    }

    constructor()
      ensures dataMap == map[] && currentMode == Temperature
      ensures selectedCube == None && panel == None
    {
      dataMap := map[];
      currentMode := Temperature;
      selectedCube := None;
      panel := None;
    }

    /** `updateSelectedCubeInfo(cubeName)`: refresh the panel from the stored
      reading; a cube with no reading leaves the panel as it was. */
    method UpdateSelectedCubeInfo(cube: string)
      modifies this`panel
      ensures panel == if cube in dataMap then Some(PanelFor(cube, dataMap[cube], currentMode)) else old(panel)
    {
      if cube in dataMap {
        var data := dataMap[cube];
        panel := Some(PanelFor(cube, data, currentMode));
      }
    }

    /** `updateCubeData(cubeName, newData)`: the new reading replaces the old
      one, and the panel is refreshed only for the selected cube. */
    method UpdateCubeData(cube: string, r: Reading)
      modifies this`dataMap, this`panel
      ensures dataMap == old(dataMap)[cube := r]
      ensures panel == if selectedCube == Some(cube) then Some(PanelFor(cube, r, currentMode)) else old(panel)
      ensures old(PanelCurrent()) ==> PanelCurrent()
    {
      dataMap := dataMap[cube := r];
      if selectedCube == Some(cube) {
        UpdateSelectedCubeInfo(cube);
      }
    }

    /** `setSelectedCube(cubeName)`: select and refresh. */
    method SetSelectedCube(cube: string)
      modifies this`selectedCube, this`panel
      ensures selectedCube == Some(cube)
      ensures panel == if cube in dataMap then Some(PanelFor(cube, dataMap[cube], currentMode)) else old(panel)
      ensures cube != "" && cube in dataMap ==> PanelCurrent()
    {
      selectedCube := Some(cube);
      UpdateSelectedCubeInfo(cube);
    }

    /** `setMode(mode)`: change mode, refreshing the panel when a cube is
      selected. */
    method SetMode(mode: Mode)
      modifies this`currentMode, this`panel
      ensures currentMode == mode
      ensures panel == if Truthy(selectedCube) && selectedCube.value in dataMap
        then Some(PanelFor(selectedCube.value, dataMap[selectedCube.value], mode)) else old(panel)
      ensures old(PanelCurrent()) ==> PanelCurrent()
    {
      currentMode := mode;
      if Truthy(selectedCube) {
        UpdateSelectedCubeInfo(selectedCube.value);
      }
    }
  }
}
