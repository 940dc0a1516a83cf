/**
 * The two engine adapters: telling which engine is active, the coordinate
 * system label of the popup, turning a click into a coordinate, and wiring
 * the picker's listener and cursor when the button is toggled.
 */
module Engine {
  import opened Wrappers
  import opened Host

  /** The label shown for the Earth-centred frame of the globe. */
  const EcefLabel: string := "ECEF"

  const CrosshairCursor: string := "crosshair"
  const OlIdleCursor: string := "hand"
  const CesiumIdleCursor: string := "default"

  /** `getOlMap()`: the active map when the app is known and the map is an OpenLayers one. */
  function GetOlMap(app: Option<App>): (r: Option<OpenlayersMap>)
    ensures r.Some? <==> app.Some? && app.value.activeMap.Openlayers?
    ensures r.Some? ==> app.value.activeMap == Openlayers(r.value)
  {
    if app.None? then None
    else match app.value.activeMap
      case Openlayers(ol) => Some(ol)
      case _ => None
  }

  /** `getCesiumMap()`: the active map when the app is known and the map is a Cesium one. */
  function GetCesiumMap(app: Option<App>): (r: Option<CesiumMap>)
    ensures r.Some? <==> app.Some? && app.value.activeMap.Cesium?
    ensures r.Some? ==> app.value.activeMap == Cesium(r.value)
    ensures r.Some? ==> GetOlMap(app).None?
  {
    if app.None? then None
    else match app.value.activeMap
      case Cesium(c) => Some(c)
      case _ => None
  }

  /** True when `showPopUp` finds an engine and therefore opens a window. */
  predicate OpensPopup(m: ActiveMap) {
    m.Openlayers? || m.Cesium?
  }

  /**
   * The `projectionCode` prop of a new popup: the OpenLayers view's code, or
   * `'ECEF'` on the globe.  It stays null when the OpenLayers wrapper has no
   * `olMap`, and there is no label when no engine is active.
   */
  function ProjectionCode(m: ActiveMap): (r: Option<string>)
    ensures r.Some? ==> OpensPopup(m)
    ensures m.Cesium? ==> r == Some(EcefLabel)
    ensures m.Openlayers? ==> (r.Some? <==> m.ol.olMap.Some?)
    ensures m.Openlayers? && r.Some? ==> r.value == m.ol.olMap.value.projectionCode
  {
    match m
    case Openlayers(ol) => if ol.olMap.Some? then Some(ol.olMap.value.projectionCode) else None
    case Cesium(_) => Some(EcefLabel)
    case Unsupported => None
  }

  /** The native pair of a stored coordinate. */
  function Native(c: Coordinate): Point2 {
    Point2(c.x, c.y)
  }

  /** The geographic pair of a stored coordinate. */
  function Geographic(c: Coordinate): Point2 {
    Point2(c.lon, c.lat)
  }

  /**
   * The coordinate an OpenLayers click stores: the clicked map coordinate as
   * is, then its reprojection to longitude/latitude.
   */
  function OlCoordinate(e: MapBrowserEvent, conv: Conversions): (r: Coordinate)
    ensures Native(r) == e.coordinate
    ensures Geographic(r) == conv.toLonLat(Native(r))
  {
    var lonlat := conv.toLonLat(e.coordinate);
    Coordinate(e.coordinate.x, e.coordinate.y, lonlat.x, lonlat.y)
  }

  /**
   * The coordinate a Cesium hit stores: the Cartesian X and Y of the picked
   * point, then the geodetic longitude and latitude converted to degrees.
   */
  function CesiumCoordinate(p: Cartesian3, conv: Conversions): (r: Coordinate)
    ensures Native(r) == Point2(p.x, p.y)
    ensures r.lon == conv.toDegrees(conv.fromCartesian(p).longitude)
    ensures r.lat == conv.toDegrees(conv.fromCartesian(p).latitude)
  {
    var cartographic := conv.fromCartesian(p);
    Coordinate(p.x, p.y, conv.toDegrees(cartographic.longitude), conv.toDegrees(cartographic.latitude))
  }

  /** The cursor a toggle sets: crosshair while picking, the engine's idle cursor otherwise. */
  function PickCursor(active: bool, idle: string): string {
    if active then CrosshairCursor else idle
  }

  /**
   * What a toggle of the button does to the active map once the flag is
   * `active`.  On OpenLayers it subscribes the click callback once more, in
   * both directions, and sets the viewport cursor; nothing happens without an
   * `olMap`.  On Cesium it sets the canvas cursor and binds the callback to
   * the handler's single LEFT_CLICK slot, replacing what was there; nothing
   * happens without a scene or a canvas.
   */
  function WirePicker(m: ActiveMap, active: bool): (r: ActiveMap)
    ensures r.Openlayers? == m.Openlayers? && r.Cesium? == m.Cesium?
    ensures ProjectionCode(r) == ProjectionCode(m)
    ensures m.Openlayers? && m.ol.olMap.Some? ==>
      r.ol.olMap.Some? &&
      r.ol.olMap.value.clickSubscriptions == m.ol.olMap.value.clickSubscriptions + 1 &&
      (r.ol.olMap.value.viewportCursor == CrosshairCursor <==> active)
    ensures m.Cesium? && m.cesium.scene.Some? && m.cesium.scene.value.canvas.Some? ==>
      r.cesium.scene.Some? && r.cesium.scene.value.canvas.Some? &&
      (r.cesium.scene.value.canvas.value.cursor == CrosshairCursor <==> active) &&
      r.cesium.screenSpaceEventHandler.Some? == m.cesium.screenSpaceEventHandler.Some? &&
      (r.cesium.screenSpaceEventHandler.Some? ==> r.cesium.screenSpaceEventHandler.value.leftClick == Some(PickerLeftClick))
    ensures m.Cesium? && (m.cesium.scene.None? || m.cesium.scene.value.canvas.None?) ==> r == m
    ensures m.Openlayers? && m.ol.olMap.None? ==> r == m
    ensures m.Unsupported? ==> r == m
  {
    match m
    case Openlayers(ol) =>
      if ol.olMap.None? then m
      else
        var olMap := ol.olMap.value;
        Openlayers(OpenlayersMap(Some(olMap.(
          clickSubscriptions := olMap.clickSubscriptions + 1,
          viewportCursor := PickCursor(active, OlIdleCursor)))))
    case Cesium(c) =>
      if c.scene.None? || c.scene.value.canvas.None? then m
      else
        var scene := c.scene.value.(canvas := Some(Canvas(PickCursor(active, CesiumIdleCursor))));
        var handler := if c.screenSpaceEventHandler.Some?
          then Some(c.screenSpaceEventHandler.value.(leftClick := Some(PickerLeftClick)))
          else None;
        Cesium(CesiumMap(Some(scene), handler))
    case Unsupported => m
  }
}
