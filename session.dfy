/**
 * The picker session as a value: the plugin's closure variables `vcsApp`,
 * `buttonId`, `popUpId` and `coord`, with the host state reachable through
 * `vcsApp`.  Each callback of the plugin is a function from the session
 * before to the session after; the class in module Plugin is proved to
 * compute exactly these functions.
 */
module PickerSession {
  import opened Wrappers
  import opened Host
  import opened Engine

  datatype Session = Session(
    vcsApp: Option<App>,
    buttonId: Option<ButtonId>,
    popUpId: Option<WindowId>,
    coord: Coordinate)

  /** The closure state right after `plugin(config, baseUrl)`. */
  const Initial: Session := Session(None, None, None, Coordinate(0.0, 0.0, 0.0, 0.0))

  /** The message the popup shows above the coordinates. */
  const PopupMessage: string := "The coordinates are: "

  /** The width every popup is opened with. */
  const PopupWidth: real := 600.0

  /** The navbar button weight and location the plugin registers with. */
  const ButtonWeight: int := 100
  const ButtonLocation: int := 1

  /** The button options passed to `navbarManager.add` on mount. */
  const InitialButton: Button :=
    Button(ButtonWeight, Action(PluginName, "$vcsWand", false), PluginName, ButtonLocation)

  /** The picker's button: found only when `vcsApp` and `buttonId` are set and the lookup succeeds. */
  function PickerButton(s: Session): (r: Option<Button>)
    ensures r.Some? <==>
      s.vcsApp.Some? && s.buttonId.Some? && s.buttonId.value in s.vcsApp.value.navbarManager.buttons
    ensures r.Some? ==> r.value == s.vcsApp.value.navbarManager.buttons[s.buttonId.value]
  {
    if s.vcsApp.None? || s.buttonId.None? then None
    else s.vcsApp.value.navbarManager.Get(s.buttonId.value)
  }

  /** The button's `action.active` flag, false when the button cannot be found. */
  predicate Active(s: Session) {
    PickerButton(s).Some? && PickerButton(s).value.action.active
  }

  /** The ids of the live windows the plugin owns. */
  function PluginWindows(wm: WindowManager): set<WindowId> {
    set id | id in wm.components && wm.components[id].owner == PluginName
  }

  /** The window still live under `popUpId`, if any. */
  function LiveWindow(s: Session): Option<Window> {
    if s.vcsApp.None? || s.popUpId.None? then None
    else s.vcsApp.value.windowManager.Get(s.popUpId.value)
  }

  /** The live windows of everyone but the plugin. */
  function ForeignWindows(wm: WindowManager): map<WindowId, Window> {
    map id | id in wm.components && wm.components[id].owner != PluginName :: wm.components[id]
  }

  /**
   * The session invariant: ids handed out by the window manager are fresh,
   * `popUpId` was handed out by it, the only window the plugin may own is
   * the one under `popUpId`, and a window live under `popUpId` is the
   * plugin's.
   */
  predicate Consistent(s: Session) {
    s.vcsApp.Some? ==>
      var wm := s.vcsApp.value.windowManager;
      && wm.Valid()
      && (s.popUpId.Some? ==> s.popUpId.value < wm.nextId)
      && PluginWindows(wm) <= OptionSet(s.popUpId)
      && (s.popUpId.Some? && s.popUpId.value in wm.components ==>
            wm.components[s.popUpId.value].owner == PluginName)
  }

  /** The popup `showPopUp` opens, placed at `left`/`top`. */
  function PopupWindow(left: Option<Offset>, top: Option<Offset>, code: Option<string>, c: Coordinate): Window {
    Window(PluginName, Position(left, top, Some(Pixels(PopupWidth))),
           CoordinatePopup(PopupProps(PopupMessage, code, c), true))
  }

  /** Removing a window takes exactly that id out of the plugin's windows. */
  lemma PluginWindowsRemove(wm: WindowManager, id: WindowId)
    ensures PluginWindows(wm.Remove(id)) == PluginWindows(wm) - {id}
  {
  }

  /** Adding a window puts its id among the plugin's windows exactly when the plugin owns it. */
  lemma PluginWindowsAdd(wm: WindowManager, w: Window)
    ensures PluginWindows(wm.Add(w).0) ==
      (PluginWindows(wm) - {wm.Add(w).1}) + (if w.owner == PluginName then {wm.Add(w).1} else {})
  {
  }

  /**
   * `showPopUp()`.  The window still live under `popUpId` is removed and its
   * left/top are kept.  If an engine is active a new popup showing `coord`
   * and the engine's projection code is opened at that position and
   * `popUpId` names it; otherwise no window is opened and `popUpId` keeps
   * the removed id.
   */
  function ShowPopUp(s: Session): (r: Session)
    ensures r.buttonId == s.buttonId && r.coord == s.coord
    ensures PickerButton(r) == PickerButton(s)
    ensures s.vcsApp.None? ==> r == s
    ensures s.vcsApp.Some? ==>
      && r.vcsApp.Some?
      && r.vcsApp.value.activeMap == s.vcsApp.value.activeMap
      && r.vcsApp.value.navbarManager == s.vcsApp.value.navbarManager
    ensures Consistent(s) ==> Consistent(r)
    // a live previous popup is always removed
    ensures Consistent(s) && LiveWindow(s).Some? ==> s.popUpId.value !in r.vcsApp.value.windowManager.components
    // with an engine: exactly one plugin window, fresh, at the carried position
    ensures Consistent(s) && s.vcsApp.Some? && OpensPopup(s.vcsApp.value.activeMap) ==>
      && r.popUpId.Some?
      && r.popUpId.value !in s.vcsApp.value.windowManager.components
      && PluginWindows(r.vcsApp.value.windowManager) == {r.popUpId.value}
      && r.vcsApp.value.windowManager.components[r.popUpId.value] ==
           PopupWindow(
             if LiveWindow(s).Some? then LiveWindow(s).value.position.left else None,
             if LiveWindow(s).Some? then LiveWindow(s).value.position.top else None,
             ProjectionCode(s.vcsApp.value.activeMap), s.coord)
    // without an engine: no plugin window is left and popUpId is unchanged
    ensures Consistent(s) && s.vcsApp.Some? && !OpensPopup(s.vcsApp.value.activeMap) ==>
      && r.popUpId == s.popUpId
      && PluginWindows(r.vcsApp.value.windowManager) == {}
    // windows of others are untouched
    ensures Consistent(s) && s.vcsApp.Some? ==>
      ForeignWindows(r.vcsApp.value.windowManager) == ForeignWindows(s.vcsApp.value.windowManager)
  {
    if s.vcsApp.None? then s
    else
      var app := s.vcsApp.value;
      var live := LiveWindow(s);
      var wm :=
        if live.Some? then
          PluginWindowsRemove(app.windowManager, s.popUpId.value);
          app.windowManager.Remove(s.popUpId.value)
        else app.windowManager;
      var left := if live.Some? then live.value.position.left else None;
      var top := if live.Some? then live.value.position.top else None;
      if !OpensPopup(app.activeMap) then
        s.(vcsApp := Some(app.(windowManager := wm)))
      else
        var w := PopupWindow(left, top, ProjectionCode(app.activeMap), s.coord);
        var (wm', id) := wm.Add(w);
        PluginWindowsAdd(wm, w);
        s.(vcsApp := Some(app.(windowManager := wm')), popUpId := Some(id))
  }

  /**
   * True when the plugin owns exactly one window, the one under `popUpId`,
   * and it is a popup showing `coord` with projection label `code`.
   */
  predicate ShowsOnly(s: Session, code: Option<string>) {
    && s.vcsApp.Some? && s.popUpId.Some?
    && var wm := s.vcsApp.value.windowManager;
    && PluginWindows(wm) == {s.popUpId.value}
    && wm.components[s.popUpId.value].content == CoordinatePopup(PopupProps(PopupMessage, code, s.coord), true)
  }

  /**
   * `oLClickCallback(event)`.  Only a click while the button is active does
   * anything: it stores the clicked coordinate and its longitude/latitude
   * and shows them in the popup.
   */
  function OlClick(s: Session, e: MapBrowserEvent, conv: Conversions): (r: Session)
    ensures PickerButton(r) == PickerButton(s)
    ensures Consistent(s) ==> Consistent(r)
    ensures !Active(s) ==> r == s
    ensures Active(s) ==> r.coord == OlCoordinate(e, conv)
    ensures Active(s) ==> r == ShowPopUp(s.(coord := OlCoordinate(e, conv)))
    ensures Active(s) && Consistent(s) && OpensPopup(s.vcsApp.value.activeMap) ==>
      ShowsOnly(r, ProjectionCode(s.vcsApp.value.activeMap))
  {
    if !Active(s) then s
    else ShowPopUp(s.(coord := OlCoordinate(e, conv)))
  }

  /** Where a Cesium click lands: the pick of the active globe's scene, if there is one. */
  function CesiumHit(s: Session, e: PositionedEvent, conv: Conversions): (r: Option<Cartesian3>)
    ensures r.Some? ==> s.vcsApp.Some? && s.vcsApp.value.activeMap.Cesium?
    ensures r.Some? ==> s.vcsApp.value.activeMap.cesium.scene.Some?
    ensures r.Some? ==> r == conv.pickPosition(s.vcsApp.value.activeMap.cesium.scene.value, e.position)
    ensures s.vcsApp.Some? && s.vcsApp.value.activeMap.Cesium? && s.vcsApp.value.activeMap.cesium.scene.Some? ==>
      r == conv.pickPosition(s.vcsApp.value.activeMap.cesium.scene.value, e.position)
  {
    var cesium := GetCesiumMap(s.vcsApp);
    if cesium.None? || cesium.value.scene.None? then None
    else conv.pickPosition(cesium.value.scene.value, e.position)
  }

  /**
   * `cesiumClickCallback(event)`.  A click that misses the globe, or arrives
   * while the button is inactive or a handle is missing, changes nothing; a
   * hit while active stores the Cartesian X/Y and the longitude/latitude in
   * degrees and shows them under the label `'ECEF'`.
   */
  function CesiumClick(s: Session, e: PositionedEvent, conv: Conversions): (r: Session)
    ensures PickerButton(r) == PickerButton(s)
    ensures Consistent(s) ==> Consistent(r)
    ensures !Active(s) || CesiumHit(s, e, conv).None? ==> r == s
    ensures Active(s) && CesiumHit(s, e, conv).Some? ==>
      && r.coord == CesiumCoordinate(CesiumHit(s, e, conv).value, conv)
      && r == ShowPopUp(s.(coord := CesiumCoordinate(CesiumHit(s, e, conv).value, conv)))
      && (Consistent(s) ==> ShowsOnly(r, Some(EcefLabel)))
  {
    if s.vcsApp.None? then s
    else
      var cesium := GetCesiumMap(s.vcsApp);
      if cesium.None? || cesium.value.scene.None? then s
      else if s.buttonId.None? || PickerButton(s).None? then s
      else if !PickerButton(s).value.action.active then s
      else
        var cartesian := conv.pickPosition(cesium.value.scene.value, e.position);
        if cartesian.None? then s
        else ShowPopUp(s.(coord := CesiumCoordinate(cartesian.value, conv)))
  }

  /** The button `b` with its `action.active` flag inverted and nothing else changed. */
  function Toggled(b: Button): (r: Button)
    ensures r.action.active == !b.action.active
    ensures r.(action := r.action.(active := b.action.active)) == b
  {
    b.(action := b.action.(active := !b.action.active))
  }

  /**
   * `coordinatePickerButtonClicked()`.  When the app, the id and the button
   * are all there, the button's flag is inverted first, and then the active
   * engine is wired for the new flag; otherwise nothing happens.
   */
  function ButtonClicked(s: Session): (r: Session)
    ensures r.buttonId == s.buttonId && r.popUpId == s.popUpId && r.coord == s.coord
    ensures PickerButton(s).None? ==> r == s
    ensures PickerButton(s).Some? ==>
      && r.vcsApp.Some?
      && PickerButton(r) == Some(Toggled(PickerButton(s).value))
      && Active(r) == !Active(s)
      && r.vcsApp.value.windowManager == s.vcsApp.value.windowManager
      && r.vcsApp.value.activeMap == WirePicker(s.vcsApp.value.activeMap, Active(r))
      && r.vcsApp.value.navbarManager.nextId == s.vcsApp.value.navbarManager.nextId
      && r.vcsApp.value.navbarManager.buttons.Keys == s.vcsApp.value.navbarManager.buttons.Keys
      && (forall id :: id in s.vcsApp.value.navbarManager.buttons && Some(id) != s.buttonId ==>
            id in r.vcsApp.value.navbarManager.buttons &&
            r.vcsApp.value.navbarManager.buttons[id] == s.vcsApp.value.navbarManager.buttons[id])
    ensures Consistent(s) ==> Consistent(r)
  {
    if PickerButton(s).None? then s
    else
      var app := s.vcsApp.value;
      var button := Toggled(PickerButton(s).value);
      var navbar := app.navbarManager.(buttons := app.navbarManager.buttons[s.buttonId.value := button]);
      s.(vcsApp := Some(app.(navbarManager := navbar, activeMap := WirePicker(app.activeMap, button.action.active))))
  }

  /**
   * `onVcsAppMounted(vcsUiApp)`.  The app is stored and the picker's button
   * is added to the navbar, inactive, under a fresh id kept in `buttonId`.
   */
  function Mounted(s: Session, app: App): (r: Session)
    ensures r.popUpId == s.popUpId && r.coord == s.coord
    ensures r.vcsApp.Some? && r.buttonId.Some?
    ensures PickerButton(r) == Some(InitialButton) && !Active(r)
    ensures r.vcsApp.value.windowManager == app.windowManager && r.vcsApp.value.activeMap == app.activeMap
    ensures app.navbarManager.Valid() ==>
      r.buttonId.value !in app.navbarManager.buttons && r.vcsApp.value.navbarManager.Valid()
    ensures forall id :: id in app.navbarManager.buttons && Some(id) != r.buttonId ==>
      id in r.vcsApp.value.navbarManager.buttons &&
      r.vcsApp.value.navbarManager.buttons[id] == app.navbarManager.buttons[id]
    ensures r.vcsApp.value.navbarManager.buttons.Keys == app.navbarManager.buttons.Keys + {r.buttonId.value}
    ensures s.popUpId.None? && app.windowManager.Valid() && PluginWindows(app.windowManager) == {} ==>
      Consistent(r)
  {
    var (navbar, id) := app.navbarManager.Add(InitialButton);
    s.(vcsApp := Some(app.(navbarManager := navbar)), buttonId := Some(id))
  }
}
