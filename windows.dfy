/** What the window-system collaborator and the dock's view report to the visibility engine. */
module Windows {
  import opened Geometry

  /** An opaque window identifier. */
  type WId = int

  /** A snapshot of one window, as WindowInfoWrap. */
  datatype WindowInfo = WindowInfo(
    valid: bool,
    geometry: Rect,
    isActive: bool,
    isMinimized: bool,
    isMaxVert: bool,
    isMaxHoriz: bool,
    isFullscreen: bool,
    isShaded: bool,
    isPlasmaDesktop: bool)

  /** The snapshot returned for a window the window system does not know. */
  const InvalidInfo := WindowInfo(false, Rect(0, 0, 0, 0), false, false, false, false, false, false, false)

  /** The state of the window system at the moment an event is delivered. */
  datatype WindowSystem = WindowSystem(
    windowIds: seq<WId>,           // windows()
    infos: map<WId, WindowInfo>,   // requestInfo()
    activeWindow: WId,             // activeWindow()
    onCurrentDesktop: set<WId>)    // isOnCurrentDesktop()

  /** requestInfo(wid): the window's snapshot, or an invalid one for an unknown window. */
  function RequestInfo(ws: WindowSystem, wid: WId): (info: WindowInfo)
    ensures wid in ws.infos ==> info == ws.infos[wid]
    ensures wid !in ws.infos ==> !info.valid
  {
    if wid in ws.infos then ws.infos[wid] else InvalidInfo
  }

  predicate IsOnCurrentDesktop(ws: WindowSystem, wid: WId) {
    wid in ws.onCurrentDesktop
  }

  /** The screen the dock is on, if it has one. */
  datatype Screen = NoScreen | Screen(size: Size)

  /** What the engine reads from the dock's view and its containment. */
  datatype View = View(
    screen: Screen,
    vertical: bool,          // formFactor() == Plasma::Types::Vertical
    userConfiguring: bool)   // containment()->isUserConfiguring()
}
