# Coordinate picker plugin — a Dafny model

This project models the coordinate picker of a VC Map UI plugin
(`src/index.ts`). The plugin adds a toggle button to the navbar. While the
button is active, a click on the active map stores a coordinate and shows it in
a popup window. The coordinate has four fields: the native X/Y of the map, then
longitude/latitude. The map is either an OpenLayers map or a Cesium globe. The
plugin keeps at most one popup; a new one replaces the old one at the old one's
place.

The plugin's state lives in closure variables: `vcsApp`, `buttonId`, `popUpId`
and `coord`. Four callbacks drive it: the button callback, one click callback
per engine, and `showPopUp`. `onVcsAppMounted` sets the state up.

The model has two layers.

- Module `PickerSession` states each callback as a function from the session
  before to the session after. A `Session` holds the four closure variables;
  the host state is reached through `vcsApp`. The contracts of these functions
  state what each callback promises. Module `Trace` proves properties of whole
  runs of events. The events are button presses, map clicks, another owner
  opening a window, the user moving or closing a window, and the host
  switching the active map.
- Module `Plugin` has the class `CoordinatePicker`. Its fields are the closure
  variables and its methods are the callbacks, written step by step with the
  source's early returns. Each method is proved to compute the corresponding
  `PickerSession` function, so everything proved there holds of the object.

The host is abstracted in module `Host`:

- the window manager: a map from ids to windows, plus a counter that hands out
  fresh ids;
- the navbar manager: a map from ids to buttons, each with an `action.active`
  flag, plus a counter;
- the active map: `Openlayers(olMap?)`, `Cesium(scene?, handler?)` or
  `Unsupported`. `Unsupported` covers no map and a map of any other class.

The OpenLayers map records three things: its projection code, how many times
the picker's click callback was subscribed, and its viewport cursor. The Cesium
map records its canvas cursor and the single LEFT_CLICK slot of its event
handler. Module `Engine` holds the engine adapters: the map lookups, the popup
label, turning a click into a coordinate, and the wiring done on each toggle.

The foreign conversions are arbitrary functions passed in a `Conversions`
value: OpenLayers' `toLonLat`, and Cesium's `pickPosition`,
`Cartographic.fromCartesian` and `Math.toDegrees`.

Where the intended design and the code differ, the model follows the code:

- Every toggle on an OpenLayers map subscribes the click callback once more,
  whether it turns the picker on or off. Nothing is ever unsubscribed. The
  model counts the subscriptions. `Trace.RepeatedOlClick` proves that a click
  firing the callback k >= 1 times looks the same as one firing: same
  coordinate, one popup with the same content and place. Only the window id
  differs.
- The Cesium handler is never unbound; the button flag alone gates the clicks.
- `toLonLat` is called without a source projection, so the geographic pair
  depends only on the clicked coordinate, not on the view's projection.
- With no carried position the new popup gets an undefined `left`/`top`, and
  the host picks the place.
- With no supported map, `showPopUp` still removes the old popup. It adds no
  new one, and `popUpId` keeps the removed id.
- An OpenLayers wrapper without an `olMap` still gets a popup, labelled with
  a null projection code.
- A toggle on a globe without a scene or canvas returns before the handler is
  bound.

## Model

| member | source | states |
|---|---|---|
| `Host.WindowManager.Get` | src/index.ts:87-88 | a window is found exactly when one is live under that id, and it is that window |
| `Host.NavbarManager.Get` | src/index.ts:153-156 | a button is found exactly when one is registered under that id, and it is that button |
| `PickerSession.PickerButton` | src/index.ts:223-235 | the button is found exactly when `vcsApp` and `buttonId` are set and the navbar holds a button under that id; it is that button |
| `PickerSession.CesiumHit` | src/index.ts:183-191 | a click lands only when a Cesium map with a scene is active, and then where `pickPosition` of that scene at the click's position says |
| `Host.WindowManager.Remove` | src/index.ts:91 | the removed window is gone, all others stay with their contents, fresh-id validity is kept |
| `Host.WindowManager.Add` | src/index.ts:135-136 | the new window is stored under an id no live window had, and id freshness is kept |
| `Host.NavbarManager.Add` | src/index.ts:322-329 | the new button is stored under an id no button had |
| `Engine.GetOlMap` | src/index.ts:62-71 | a map is returned exactly when the app is known and its active map is an OpenLayers map |
| `Engine.GetCesiumMap` | src/index.ts:47-56 | a map is returned exactly when the app is known and the active map is a Cesium map; then `getOlMap` returns nothing, so the two are never both non-null |
| `Engine.ProjectionCode` | src/index.ts:95-110 | the popup label is the view's projection code on OpenLayers (null when there is no `olMap`), `'ECEF'` on Cesium, and absent otherwise |
| `Engine.OlCoordinate` | src/index.ts:161-167 | the stored native pair is exactly the clicked coordinate, and the geographic pair is `toLonLat` of that native pair |
| `Engine.CesiumCoordinate` | src/index.ts:207-213 | the native pair is the picked Cartesian X/Y; longitude and latitude are the geodetic angles converted to degrees |
| `Engine.WirePicker` | src/index.ts:240-277 | a toggle on OpenLayers adds one click subscription in either direction and sets the cursor to crosshair iff the flag is on; on Cesium it sets the canvas cursor and puts the picker in the handler's single LEFT_CLICK slot; with a missing `olMap`, scene or canvas, or an unsupported map, nothing changes |
| `PickerSession.ShowPopUp` | src/index.ts:77-138 | without an app nothing changes; a live window under `popUpId` is removed; with an engine, exactly one plugin window is left: fresh, named by `popUpId`, at the old window's left/top (undefined if there was none), width 600, showing `coord` and the projection label; without an engine no plugin window is left and `popUpId` is kept; other windows, the navbar and the map are untouched; the session invariant is kept |
| `PickerSession.OlClick` | src/index.ts:144-170 | while the button is not active (or the app, id or button is missing) nothing changes; otherwise `coord` becomes the click's coordinate and the session is what `showPopUp` makes of it (old popup removed, its left/top carried to a fresh popup that is the only plugin window and shows `coord` with the engine's label; other windows, buttons and the map untouched; with no engine, no popup left); the button is never touched |
| `PickerSession.CesiumClick` | src/index.ts:176-216 | a click while inactive, with a handle missing or when the pick misses changes nothing; a hit while active stores the Cartesian X/Y and the degrees, and the session is what `showPopUp` makes of it: the only plugin popup, fresh and at the old popup's left/top, shows them labelled `'ECEF'`, and other windows, buttons and the map are untouched |
| `PickerSession.Toggled` | src/index.ts:237-238 | the button's `active` flag is inverted and nothing else of the button changes |
| `PickerSession.ButtonClicked` | src/index.ts:222-278 | with the app, id and button found, the flag is inverted exactly once before any engine dispatch, no button is added or removed and the others are unchanged, all windows are unchanged, and the active map is wired for the new flag; otherwise nothing changes |
| `PickerSession.Mounted` | src/index.ts:300-330 | the app is stored and exactly one new button, inactive with the plugin's action, is registered under a fresh id kept in `buttonId`; existing buttons, windows and the map are unchanged |
| `Trace.StepKeepsConsistent` | src/index.ts:86-93 | every event (press, click, another owner opening a window, the user moving or closing a window, map switched) keeps the session invariant: the only plugin window is the one under `popUpId` |
| `Trace.RunKeepsConsistent` | src/index.ts:86-93 | the session invariant holds after any run of events that starts from it |
| `Trace.AtMostOnePopup` | src/index.ts:86-93 | under the invariant the plugin owns at most one live window |
| `Trace.RunParity` | src/index.ts:237-238 | over any run of events, the button is active iff it started active XOR it was pressed an odd number of times |
| `Trace.MountedRun` | src/index.ts:314-318 | from mount on, the button is active iff it was pressed an odd number of times, whatever clicks, closings and map switches happen, and at most one plugin window is ever live |
| `Trace.InactiveClicksIgnored` | src/index.ts:160-169 | any sequence of map clicks arriving while the button is inactive leaves the whole session unchanged |
| `Trace.InactiveFireOl` | src/index.ts:160 | however many subscriptions fire, an inactive button makes the OpenLayers callback a no-op |
| `Trace.FireOlKeepsButton` | src/index.ts:144-170 | firing the OpenLayers callback any number of times leaves the button and `buttonId` as they were, keeps the app set and keeps the invariant |
| `Trace.ShowPopUpTwice` | src/index.ts:86-93 | showing the popup twice in a row gives the same visible state as once: the replacement popup has the same content and place |
| `Trace.OlClickTwice` | src/index.ts:144-170 | a second identical OpenLayers click is observably the same as the first alone |
| `Trace.RepeatedOlClick` | src/index.ts:249 | a click that fires the accumulated subscriptions k >= 1 times is observably the same as a single firing |
| `Trace.MovedPopupKeepsPlace` | src/index.ts:86-93 | after the user drags the popup, the next active click opens its replacement, the only plugin window, at the dragged-to left/top |
| `Plugin.CoordinatePicker.constructor` | src/index.ts:35-41 | the closure starts with no app, no button, no popup and the zero coordinate |
| `Plugin.CoordinatePicker.OnVcsAppMounted` | src/index.ts:300-330 | the object's new state is `Mounted` of the old; the button is the plugin's and inactive |
| `Plugin.CoordinatePicker.ShowPopUp` | src/index.ts:77-138 | the object's new state is `PickerSession.ShowPopUp` of the old, and the invariant is kept |
| `Plugin.CoordinatePicker.OLClickCallback` | src/index.ts:144-170 | the object's new state is `OlClick` of the old; inactive, it is unchanged |
| `Plugin.CoordinatePicker.CesiumClickCallback` | src/index.ts:176-216 | the object's new state is `CesiumClick` of the old; inactive or on a miss, it is unchanged |
| `Plugin.CoordinatePicker.CoordinatePickerButtonClicked` | src/index.ts:222-278 | the object's new state is `ButtonClicked` of the old; the flag is inverted when the button is found, and otherwise nothing changes |

## Left out

- Projection and geodesy math (`toLonLat`, `scene.pickPosition`, `Cartographic.fromCartesian`, `Math.toDegrees`): floating-point library code, modelled as arbitrary functions; numbers are `real`.
- Engine.CesiumCoordinate: does not state that longitude lies in [-180, 180] and latitude in [-90, 90], because that is a property of the foreign conversions, not of the plugin.
- `Cartographic.fromCartesian` can return undefined for the Earth's centre, where the source would throw; the model treats the conversion as total.
- The Vue `Popup` component and its rendering: the model keeps only the props and position handed to the window manager.
- The host managers' internals: ids are naturals from a counter instead of generated strings, and `get`/`add`/`remove` are plain map operations.
- OpenLayers' own handling of a listener added twice is not modelled: each `on('click', …)` counts as one more subscription, and `Trace.Step` fires the callback once per subscription.
- The host's event dispatch in module `Trace` (which events exist, how a click reaches a callback) is an environment model; the plugin code has no such loop.
- The cursor strings are kept only as the values the plugin writes (`crosshair`, `hand`, `default`).
- The plugin's name comes from its package manifest; `package.json` is not part of this model, so `Host.PluginName` is a stand-in value.
- Lifecycle stubs without logic: the `name`/`version`/`mapVersion` getters, `initialize` and its promise, `getDefaultOptions`, `toJSON`, `getState`, `getConfigEditors`, `destroy`, and all `console.log` calls.
