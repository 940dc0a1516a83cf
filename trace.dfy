/**
 * Runs of the picker: the host delivers a sequence of events (button
 * presses, map clicks, another owner opening a window, the user moving or
 * closing a window, a different map becoming active) and the session takes
 * one step per event.  The lemmas here are
 * about whole runs.
 */
module Trace {
  import opened Wrappers
  import opened Host
  import opened Engine
  import opened PickerSession

  datatype Event =
    | ButtonPressed                             // the navbar calls coordinatePickerButtonClicked
    | OlMapClicked(click: MapBrowserEvent)      // a click on the OpenLayers map
    | CesiumMapClicked(hit: PositionedEvent)    // a left click on the Cesium canvas
    | WindowOpened(window: Window)              // another owner opens a window
    | WindowMoved(id: WindowId, to: Position)   // the user drags a window to a new place
    | WindowClosed(id: WindowId)                // the user closes a window
    | MapActivated(next: ActiveMap)             // the host switches the active map

  /** How many times OpenLayers calls the picker's callback for one click. */
  function OlSubscriptions(s: Session): nat {
    if s.vcsApp.None? then 0
    else match s.vcsApp.value.activeMap
      case Openlayers(ol) => if ol.olMap.Some? then ol.olMap.value.clickSubscriptions else 0
      case _ => 0
  }

  /** True when the active globe's LEFT_CLICK slot holds the picker's callback. */
  predicate CesiumBound(s: Session) {
    && s.vcsApp.Some?
    && s.vcsApp.value.activeMap.Cesium?
    && s.vcsApp.value.activeMap.cesium.screenSpaceEventHandler == Some(EventHandler(Some(PickerLeftClick)))
  }

  /** The OpenLayers callback run `k` times on the same click, once per subscription. */
  function FireOl(s: Session, k: nat, e: MapBrowserEvent, conv: Conversions): Session
    decreases k
  {
    if k == 0 then s else FireOl(OlClick(s, e, conv), k - 1, e, conv)
  }

  /** One event. */
  function Step(s: Session, ev: Event, conv: Conversions): (r: Session)
    ensures r.buttonId == s.buttonId
    ensures s.vcsApp.Some? ==> r.vcsApp.Some?
    ensures !ev.ButtonPressed? ==>
      PickerButton(r) == PickerButton(s)
  {
    match ev
    case ButtonPressed => ButtonClicked(s)
    case OlMapClicked(e) => FireOlKeepsButton(s, OlSubscriptions(s), e, conv); FireOl(s, OlSubscriptions(s), e, conv)
    case CesiumMapClicked(e) => if CesiumBound(s) then CesiumClick(s, e, conv) else s
    case WindowOpened(w) =>
      if s.vcsApp.None? || w.owner == PluginName then s
      else s.(vcsApp := Some(s.vcsApp.value.(windowManager := s.vcsApp.value.windowManager.Add(w).0)))
    case WindowMoved(id, p) =>
      if s.vcsApp.None? || id !in s.vcsApp.value.windowManager.components then s
      else
        var wm := s.vcsApp.value.windowManager;
        var moved := wm.components[id].(position := p);
        s.(vcsApp := Some(s.vcsApp.value.(windowManager := wm.(components := wm.components[id := moved]))))
    case WindowClosed(id) =>
      if s.vcsApp.None? then s
      else s.(vcsApp := Some(s.vcsApp.value.(windowManager := s.vcsApp.value.windowManager.Remove(id))))
    case MapActivated(m) =>
      if s.vcsApp.None? then s
      else s.(vcsApp := Some(s.vcsApp.value.(activeMap := m)))
  }

  /** The session after a whole sequence of events. */
  function Run(s: Session, evs: seq<Event>, conv: Conversions): Session
    decreases |evs|
  {
    if evs == [] then s else Run(Step(s, evs[0], conv), evs[1..], conv)
  }

  /** How many times the button was pressed. */
  function Presses(evs: seq<Event>): nat
    decreases |evs|
  {
    if evs == [] then 0 else (if evs[0].ButtonPressed? then 1 else 0) + Presses(evs[1..])
  }

  predicate IsClick(ev: Event) {
    ev.OlMapClicked? || ev.CesiumMapClicked?
  }

  lemma {:induction false} FireOlKeepsButton(s: Session, k: nat, e: MapBrowserEvent, conv: Conversions)
    ensures PickerButton(FireOl(s, k, e, conv)) == PickerButton(s)
    ensures FireOl(s, k, e, conv).buttonId == s.buttonId
    ensures s.vcsApp.Some? ==> FireOl(s, k, e, conv).vcsApp.Some?
    ensures Consistent(s) ==> Consistent(FireOl(s, k, e, conv))
    decreases k
  {
    if k > 0 {
      FireOlKeepsButton(OlClick(s, e, conv), k - 1, e, conv);
    }
  }

  /** Every event keeps the session invariant. */
  lemma StepKeepsConsistent(s: Session, ev: Event, conv: Conversions)
    requires Consistent(s)
    ensures Consistent(Step(s, ev, conv))
  {
    match ev
    case OlMapClicked(e) => FireOlKeepsButton(s, OlSubscriptions(s), e, conv);
    case WindowOpened(w) =>
      if s.vcsApp.Some? && w.owner != PluginName {
        PluginWindowsAdd(s.vcsApp.value.windowManager, w);
      }
    case WindowMoved(id, p) =>
      if s.vcsApp.Some? && id in s.vcsApp.value.windowManager.components {
        var wm := s.vcsApp.value.windowManager;
        assert PluginWindows(Step(s, ev, conv).vcsApp.value.windowManager) == PluginWindows(wm);
      }
    case WindowClosed(id) =>
      if s.vcsApp.Some? {
        PluginWindowsRemove(s.vcsApp.value.windowManager, id);
      }
    case _ =>
  }

  /** The session invariant holds after any run that starts from it. */
  lemma {:induction false} RunKeepsConsistent(s: Session, evs: seq<Event>, conv: Conversions)
    requires Consistent(s)
    ensures Consistent(Run(s, evs, conv))
    decreases |evs|
  {
    if evs != [] {
      StepKeepsConsistent(s, evs[0], conv);
      RunKeepsConsistent(Step(s, evs[0], conv), evs[1..], conv);
    }
  }

  /** Under the invariant the plugin owns at most one live window. */
  lemma AtMostOnePopup(s: Session)
    requires Consistent(s) && s.vcsApp.Some?
    ensures |PluginWindows(s.vcsApp.value.windowManager)| <= 1
  {
    var ws := PluginWindows(s.vcsApp.value.windowManager);
    if s.popUpId.Some? {
      if ws != {} {
        assert ws == {s.popUpId.value};
      }
    }
  }

  /**
   * Over any run in which the button can be found, the button is active
   * exactly when it started active XOR it was pressed an odd number of
   * times: clicks, closing windows and switching maps never touch the flag.
   */
  lemma {:induction false} RunParity(s: Session, evs: seq<Event>, conv: Conversions)
    requires PickerButton(s).Some?
    ensures PickerButton(Run(s, evs, conv)).Some?
    ensures Active(Run(s, evs, conv)) == (Active(s) != (Presses(evs) % 2 == 1))
    decreases |evs|
  {
    if evs != [] {
      var t := Step(s, evs[0], conv);
      RunParity(t, evs[1..], conv);
    }
  }

  /**
   * From mount on, the button is active exactly when it has been pressed an
   * odd number of times, whatever else happened in between; and the plugin
   * never owns more than one live window.
   */
  lemma MountedRun(app: App, evs: seq<Event>, conv: Conversions)
    requires app.windowManager.Valid() && PluginWindows(app.windowManager) == {}
    ensures Active(Run(Mounted(Initial, app), evs, conv)) == (Presses(evs) % 2 == 1)
    ensures Consistent(Run(Mounted(Initial, app), evs, conv))
    ensures Run(Mounted(Initial, app), evs, conv).vcsApp.Some?
    ensures |PluginWindows(Run(Mounted(Initial, app), evs, conv).vcsApp.value.windowManager)| <= 1
  {
    var s := Mounted(Initial, app);
    RunParity(s, evs, conv);
    RunKeepsConsistent(s, evs, conv);
    RunKeepsApp(s, evs, conv);
    AtMostOnePopup(Run(s, evs, conv));
  }

  lemma {:induction false} RunKeepsApp(s: Session, evs: seq<Event>, conv: Conversions)
    requires s.vcsApp.Some?
    ensures Run(s, evs, conv).vcsApp.Some?
    decreases |evs|
  {
    if evs != [] {
      RunKeepsApp(Step(s, evs[0], conv), evs[1..], conv);
    }
  }

  /** Clicks that arrive while the button is inactive leave the whole session as it was. */
  lemma {:induction false} InactiveClicksIgnored(s: Session, evs: seq<Event>, conv: Conversions)
    requires !Active(s)
    requires forall i :: 0 <= i < |evs| ==> IsClick(evs[i])
    ensures Run(s, evs, conv) == s
    decreases |evs|
  {
    if evs != [] {
      if evs[0].OlMapClicked? {
        InactiveFireOl(s, OlSubscriptions(s), evs[0].click, conv);
      }
      assert Step(s, evs[0], conv) == s;
      InactiveClicksIgnored(s, evs[1..], conv);
    }
  }

  lemma {:induction false} InactiveFireOl(s: Session, k: nat, e: MapBrowserEvent, conv: Conversions)
    requires !Active(s)
    ensures FireOl(s, k, e, conv) == s
    decreases k
  {
    if k > 0 {
      InactiveFireOl(s, k - 1, e, conv);
    }
  }

  /** The plugin's live windows as values, without their ids. */
  function PopupsShown(wm: WindowManager): set<Window> {
    set id | id in wm.components && wm.components[id].owner == PluginName :: wm.components[id]
  }

  /** What the host shows: the navbar, the map, everyone else's windows, the plugin's windows. */
  datatype HostView = HostView(navbar: NavbarManager, activeMap: ActiveMap, foreign: map<WindowId, Window>, popups: set<Window>)

  /** What can be observed of a session, apart from the ids of the plugin's windows. */
  datatype View = View(coord: Coordinate, buttonId: Option<ButtonId>, host: Option<HostView>)

  function Observe(s: Session): View {
    View(s.coord, s.buttonId,
      if s.vcsApp.None? then None
      else
        var app := s.vcsApp.value;
        Some(HostView(app.navbarManager, app.activeMap, ForeignWindows(app.windowManager), PopupsShown(app.windowManager))))
  }

  lemma PopupsShownSingle(wm: WindowManager, id: WindowId)
    requires PluginWindows(wm) == {id}
    ensures PopupsShown(wm) == {wm.components[id]}
  {
    assert id in PluginWindows(wm);
    forall w | w in PopupsShown(wm) ensures w == wm.components[id] {
      var j :| j in wm.components && wm.components[j].owner == PluginName && wm.components[j] == w;
      assert j in PluginWindows(wm);
    }
  }

  /**
   * Showing the popup a second time, with nothing changed in between,
   * replaces the window by an identical one at the same place: only its id
   * differs.
   */
  lemma ShowPopUpTwice(s: Session)
    requires Consistent(s)
    ensures Observe(ShowPopUp(ShowPopUp(s))) == Observe(ShowPopUp(s))
  {
    var t := ShowPopUp(s);
    var u := ShowPopUp(t);
    if s.vcsApp.Some? {
      var m := s.vcsApp.value.activeMap;
      if OpensPopup(m) {
        var w := t.vcsApp.value.windowManager.components[t.popUpId.value];
        assert LiveWindow(t) == Some(w);
        assert u.vcsApp.value.windowManager.components[u.popUpId.value] == w;
        PopupsShownSingle(t.vcsApp.value.windowManager, t.popUpId.value);
        PopupsShownSingle(u.vcsApp.value.windowManager, u.popUpId.value);
      } else {
        assert LiveWindow(t).None?;
        assert u == t;
      }
    }
  }

  /** A second identical OpenLayers click is observably the same as the first alone. */
  lemma OlClickTwice(s: Session, e: MapBrowserEvent, conv: Conversions)
    requires Consistent(s)
    ensures Observe(OlClick(OlClick(s, e, conv), e, conv)) == Observe(OlClick(s, e, conv))
  {
    if Active(s) {
      var s' := s.(coord := OlCoordinate(e, conv));
      var t := OlClick(s, e, conv);
      assert t == ShowPopUp(s');
      assert t.(coord := OlCoordinate(e, conv)) == t;
      ShowPopUpTwice(s');
    }
  }

  /**
   * The callback subscribed `k >= 1` times and fired `k` times by one click
   * leaves the session observably as one firing does: the same coordinate,
   * one popup with the same content at the same place.  So the subscriptions
   * that pile up with every toggle do not show.
   */
  lemma {:induction false} RepeatedOlClick(s: Session, k: nat, e: MapBrowserEvent, conv: Conversions)
    requires Consistent(s) && k >= 1
    ensures Observe(FireOl(s, k, e, conv)) == Observe(OlClick(s, e, conv))
    decreases k
  {
    if k > 1 {
      var t := OlClick(s, e, conv);
      RepeatedOlClick(t, k - 1, e, conv);
      OlClickTwice(s, e, conv);
    }
  }

  /**
   * After the user drags the popup to `p`, the next active click opens its
   * replacement at `p`'s left/top: the place carries over.
   */
  lemma MovedPopupKeepsPlace(s: Session, p: Position, e: MapBrowserEvent, conv: Conversions)
    requires Consistent(s) && Active(s) && LiveWindow(s).Some?
    requires OpensPopup(s.vcsApp.value.activeMap)
    ensures var r := OlClick(Step(s, WindowMoved(s.popUpId.value, p), conv), e, conv);
      && r.popUpId.Some?
      && PluginWindows(r.vcsApp.value.windowManager) == {r.popUpId.value}
      && r.vcsApp.value.windowManager.components[r.popUpId.value].position.left == p.left
      && r.vcsApp.value.windowManager.components[r.popUpId.value].position.top == p.top
  {
  }
}
