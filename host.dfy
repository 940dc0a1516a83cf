/**
 * The parts of the host application (a VC Map UI app) that the coordinate
 * picker reads and writes, reduced to plain values: the window manager, the
 * navbar manager and the active map with the engine objects the plugin
 * touches.  Identifiers that the host hands out as strings are modelled as
 * natural numbers drawn from a counter, which is all the plugin relies on:
 * a freshly added component gets an id no live component has.
 */
module Host {
  import opened Wrappers

  type WindowId = nat
  type ButtonId = nat

  /** The plugin's name from its package manifest; it owns the button and the popup. */
  const PluginName: string := "vcs-coordinate-picker-plugin"

  // ---------------------------------------------------------------- geometry

  /** A 2D point: an OpenLayers map coordinate, a lon/lat pair or a screen position. */
  datatype Point2 = Point2(x: real, y: real)

  /** Earth-centred Cartesian position returned by a Cesium pick. */
  datatype Cartesian3 = Cartesian3(x: real, y: real, z: real)

  /** Geodetic position; longitude and latitude in radians. */
  datatype Cartographic = Cartographic(longitude: real, latitude: real, height: real)

  /** The picked location: native X/Y, then longitude/latitude, in exactly this order. */
  datatype Coordinate = Coordinate(x: real, y: real, lon: real, lat: real)

  /** The event OpenLayers passes to a 'click' listener. */
  datatype MapBrowserEvent = MapBrowserEvent(coordinate: Point2)

  /** The event Cesium passes to a LEFT_CLICK input action. */
  datatype PositionedEvent = PositionedEvent(position: Point2)

  /**
   * The foreign conversions the callbacks call: `toLonLat` of OpenLayers,
   * `scene.pickPosition`, `Cartographic.fromCartesian` and `Math.toDegrees`
   * of Cesium.  They are floating-point library code; the model treats them
   * as arbitrary functions.
   */
  datatype Conversions = Conversions(
    toLonLat: Point2 -> Point2,
    pickPosition: (Scene, Point2) -> Option<Cartesian3>,
    fromCartesian: Cartesian3 -> Cartographic,
    toDegrees: real -> real)

  // ---------------------------------------------------------------- windows

  /** A CSS offset: the host accepts a number of pixels or a string. */
  datatype Offset = Pixels(n: real) | Css(text: string)

  /** A window's `position`; `left` and `top` may be undefined. */
  datatype Position = Position(left: Option<Offset>, top: Option<Offset>, width: Option<Offset>)

  /** The props the plugin hands to its popup component. */
  datatype PopupProps = PopupProps(message: string, projectionCode: Option<string>, coordinate: Coordinate)

  datatype WindowContent =
    | CoordinatePopup(props: PopupProps, hidePin: bool)
    | ForeignContent

  datatype Window = Window(owner: string, position: Position, content: WindowContent)

  /** The host's window registry: live windows by id, and the next id to hand out. */
  datatype WindowManager = WindowManager(components: map<WindowId, Window>, nextId: WindowId)
  {
    /** Every live window's id was handed out before, so `nextId` is fresh. */
    predicate Valid() {
      forall id :: id in components ==> id < nextId
    }

    /** `windowManager.get(id)`: the live window, or undefined. */
    function Get(id: WindowId): (r: Option<Window>)
      ensures r.Some? <==> id in components
      ensures r.Some? ==> r.value == components[id]
    {
      if id in components then Some(components[id]) else None
    }

    /** `windowManager.remove(id)`: the window is gone, every other one stays. */
    function Remove(id: WindowId): (r: WindowManager)
      ensures id !in r.components
      ensures forall k :: k in r.components <==> k in components && k != id
      ensures forall k :: k in r.components ==> r.components[k] == components[k]
      ensures r.nextId == nextId
      ensures Valid() ==> r.Valid()
    {
      WindowManager(map k | k in components && k != id :: components[k], nextId)
    }

    /** `windowManager.add(options, owner)`: a new window under a fresh id. */
    function Add(w: Window): (r: (WindowManager, WindowId))
      ensures Valid() ==> r.1 !in components && r.0.Valid()
      ensures r.0.components == components[r.1 := w]
      ensures r.0.nextId > r.1 >= nextId
    {
      (WindowManager(components[nextId := w], nextId + 1), nextId)
    }
  }

  // ---------------------------------------------------------------- navbar

  /** A button's action; `active` is the toggle state shown by the host. */
  datatype Action = Action(name: string, icon: string, active: bool)

  datatype Button = Button(weight: int, action: Action, owner: string, location: int)

  /** The host's navbar registry. */
  datatype NavbarManager = NavbarManager(buttons: map<ButtonId, Button>, nextId: ButtonId)
  {
    predicate Valid() {
      forall id :: id in buttons ==> id < nextId
    }

    /** `navbarManager.get(id)`: the button, or undefined. */
    function Get(id: ButtonId): (r: Option<Button>)
      ensures r.Some? <==> id in buttons
      ensures r.Some? ==> r.value == buttons[id]
    {
      if id in buttons then Some(buttons[id]) else None
    }

    /** `navbarManager.add(options, owner, location)`: a new button under a fresh id. */
    function Add(b: Button): (r: (NavbarManager, ButtonId))
      ensures Valid() ==> r.1 !in buttons && r.0.Valid()
      ensures r.0.buttons == buttons[r.1 := b]
      ensures r.0.nextId > r.1 >= nextId
    {
      (NavbarManager(buttons[nextId := b], nextId + 1), nextId)
    }
  }

  // ---------------------------------------------------------------- engines

  /**
   * The OpenLayers `olMap`: the code of its view's projection, how many times
   * the plugin's click callback has been subscribed with `on('click', ...)`,
   * and the cursor style of its viewport.
   */
  datatype OlMap = OlMap(projectionCode: string, clickSubscriptions: nat, viewportCursor: string)

  datatype Canvas = Canvas(cursor: string)

  datatype Scene = Scene(canvas: Option<Canvas>)

  /** What is bound to a screen-space event handler's LEFT_CLICK slot. */
  datatype InputAction = PickerLeftClick | ForeignLeftClick

  datatype EventHandler = EventHandler(leftClick: Option<InputAction>)

  /** The VC Map wrapper of an OpenLayers map; its `olMap` may be missing. */
  datatype OpenlayersMap = OpenlayersMap(olMap: Option<OlMap>)

  /** The VC Map wrapper of a Cesium globe; `getScene()` and the handler may be missing. */
  datatype CesiumMap = CesiumMap(scene: Option<Scene>, screenSpaceEventHandler: Option<EventHandler>)

  /**
   * `vcsApp.maps.activeMap`, told apart by its class; `Unsupported` is no
   * active map or a map of any other class.
   */
  datatype ActiveMap =
    | Openlayers(ol: OpenlayersMap)
    | Cesium(cesium: CesiumMap)
    | Unsupported

  /** The host application object the plugin keeps in `vcsApp`. */
  datatype App = App(windowManager: WindowManager, navbarManager: NavbarManager, activeMap: ActiveMap)
}
