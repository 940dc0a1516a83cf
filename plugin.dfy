/**
 * The plugin object: the closure variables of `plugin(config, baseUrl)` as
 * fields, and its callbacks as methods that update them step by step.  Each
 * method is proved to compute the corresponding function of module
 * PickerSession, so every property proved there holds of the object.
 */
module Plugin {
  import opened Wrappers
  import opened Host
  import opened Engine
  import opened PickerSession

  class CoordinatePicker {
    var vcsApp: Option<App>
    var buttonId: Option<ButtonId>
    var popUpId: Option<WindowId>
    var coord: Coordinate

    /** The closure state as a session value. */
    function State(): Session
      reads this
    {
      Session(vcsApp, buttonId, popUpId, coord)
    }

    /** `plugin(config, baseUrl)`: no app, no button, no popup, the zero coordinate. */
    constructor ()
      ensures State() == Initial
      ensures Consistent(State()) && !Active(State())
    {
      vcsApp := None;
      buttonId := None;
      popUpId := None;
      coord := Coordinate(0.0, 0.0, 0.0, 0.0);
    }

    /** `onVcsAppMounted(vcsUiApp)`. */
    method OnVcsAppMounted(vcsUiApp: App)
      modifies this
      ensures State() == Mounted(old(State()), vcsUiApp)
      ensures PickerButton(State()) == Some(InitialButton) && !Active(State())
    {
      vcsApp := Some(vcsUiApp);
      var buttonComponent := vcsUiApp.navbarManager.Add(InitialButton);
      vcsApp := Some(vcsUiApp.(navbarManager := buttonComponent.0));
      buttonId := Some(buttonComponent.1);
    }

    /** `showPopUp()`. */
    method ShowPopUp()
      modifies this
      ensures State() == PickerSession.ShowPopUp(old(State()))
      ensures old(Consistent(State())) ==> Consistent(State())
    {
      var positionLeft: Option<Offset> := None;
      var positionTop: Option<Offset> := None;
      if vcsApp.None? {
        return;
      }
      var app := vcsApp.value;
      if popUpId.Some? {
        var currentWindow := app.windowManager.Get(popUpId.value);
        if currentWindow.Some? {
          positionLeft := currentWindow.value.position.left;
          positionTop := currentWindow.value.position.top;
          app := app.(windowManager := app.windowManager.Remove(popUpId.value));
          vcsApp := Some(app);
        }
      }

      var currentProjectionCode: Option<string> := None;
      var ol := GetOlMap(vcsApp);
      var cesium := GetCesiumMap(vcsApp);
      if ol.Some? {
        if ol.value.olMap.Some? {
          currentProjectionCode := Some(ol.value.olMap.value.projectionCode);
        }
      } else if cesium.Some? {
        currentProjectionCode := Some(EcefLabel);
      } else {
        return;
      }

      var windowComponent := app.windowManager.Add(PopupWindow(positionLeft, positionTop, currentProjectionCode, coord));
      vcsApp := Some(app.(windowManager := windowComponent.0));
      popUpId := Some(windowComponent.1);
    }

    /** `oLClickCallback(event)`, with the library's `toLonLat` in `conv`. */
    method OLClickCallback(event: MapBrowserEvent, conv: Conversions)
      modifies this
      ensures State() == OlClick(old(State()), event, conv)
      ensures !old(Active(State())) ==> unchanged(this)
    {
      if vcsApp.None? {
        return;
      }
      if buttonId.None? {
        return;
      }
      var buttonComponent := vcsApp.value.navbarManager.Get(buttonId.value);
      if buttonComponent.None? {
        return;
      }
      if buttonComponent.value.action.active {
        var lonlat := conv.toLonLat(event.coordinate);
        coord := Coordinate(event.coordinate.x, event.coordinate.y, lonlat.x, lonlat.y);
        ShowPopUp();
      }
    }

    /** `cesiumClickCallback(event)`, with Cesium's picking and conversions in `conv`. */
    method CesiumClickCallback(event: PositionedEvent, conv: Conversions)
      modifies this
      ensures State() == CesiumClick(old(State()), event, conv)
      ensures !old(Active(State())) || old(CesiumHit(State(), event, conv)).None? ==> unchanged(this)
    {
      if vcsApp.None? {
        return;
      }
      var cesium := GetCesiumMap(vcsApp);
      if cesium.None? {
        return;
      }
      var scene := cesium.value.scene;
      if scene.None? {
        return;
      }
      if buttonId.None? {
        return;
      }
      var buttonComponent := vcsApp.value.navbarManager.Get(buttonId.value);
      if buttonComponent.None? {
        return;
      }
      if buttonComponent.value.action.active {
        var cartesian := conv.pickPosition(scene.value, event.position);
        if cartesian.None? {
          return;
        }
        var cartographic := conv.fromCartesian(cartesian.value);
        coord := Coordinate(cartesian.value.x, cartesian.value.y,
                            conv.toDegrees(cartographic.longitude), conv.toDegrees(cartographic.latitude));
        ShowPopUp();
      }
    }

    /** `coordinatePickerButtonClicked()`. */
    method CoordinatePickerButtonClicked()
      modifies this
      ensures State() == ButtonClicked(old(State()))
      ensures old(PickerButton(State())).Some? ==> Active(State()) == !old(Active(State()))
      ensures old(PickerButton(State())).None? ==> unchanged(this)
    {
      if vcsApp.None? {
        return;
      }
      if buttonId.None? {
        return;
      }
      var buttonComponent := vcsApp.value.navbarManager.Get(buttonId.value);
      if buttonComponent.None? {
        return;
      }

      // toggle the active state in place
      var button := buttonComponent.value;
      button := button.(action := button.action.(active := !button.action.active));
      var app := vcsApp.value;
      app := app.(navbarManager := app.navbarManager.(buttons := app.navbarManager.buttons[buttonId.value := button]));
      vcsApp := Some(app);

      var ol := GetOlMap(vcsApp);
      var cesium := GetCesiumMap(vcsApp);
      if ol.Some? {
        if ol.value.olMap.None? {
          return;
        }
        var olMap := ol.value.olMap.value;
        olMap := olMap.(clickSubscriptions := olMap.clickSubscriptions + 1);
        if button.action.active {
          olMap := olMap.(viewportCursor := CrosshairCursor);
        } else {
          olMap := olMap.(viewportCursor := OlIdleCursor);
        }
        vcsApp := Some(app.(activeMap := Openlayers(OpenlayersMap(Some(olMap)))));
      } else if cesium.Some? {
        var scene := cesium.value.scene;
        if scene.None? {
          return;
        }
        var canvas := scene.value.canvas;
        if canvas.None? {
          return;
        }
        if button.action.active {
          canvas := Some(Canvas(CrosshairCursor));
        } else {
          canvas := Some(Canvas(CesiumIdleCursor));
        }
        var handler := cesium.value.screenSpaceEventHandler;
        if handler.Some? {
          handler := Some(handler.value.(leftClick := Some(PickerLeftClick)));
        }
        vcsApp := Some(app.(activeMap := Cesium(CesiumMap(Some(scene.value.(canvas := canvas)), handler))));
      }
    }
  }
}
