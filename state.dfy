/** The state owned by the dock's visibility decision engine (VisibilityManagerPrivate). */
module VisibilityState {
  import opened Geometry
  import opened Windows

  /** Dock::Visibility; None is the uninitialised sentinel. */
  datatype Visibility = None | AlwaysVisible | AutoHide | DodgeActive | DodgeMaximized | DodgeAllWindows | WindowsGoBelow

  /** A C++ int. */
  type Int32 = x: int | -0x8000_0000 <= x < 0x8000_0000

  /** A single-shot QTimer: whether a fire is pending, and its interval in milliseconds.
      A timer holds at most one pending fire; start() on an active timer replaces it. */
  datatype Timer = Timer(active: bool, interval: Int32) {
    function Start(): (t: Timer)
      ensures t.active && t.interval == interval
    {
      this.(active := true)
    }

    function Stop(): (t: Timer)
      ensures !t.active && t.interval == interval
    {
      this.(active := false)
    }
  }

  /** The interval timerCheckWindows gets in the constructor. */
  const CheckWindowsInterval: Int32 := 350

  /** One entry of the engine's output stream: an emitted signal or a call into the window manager,
      the edge-pressure barrier or the configuration. */
  datatype Event =
    | MustBeShown
    | MustBeHide
    | ModeChanged
    | IsHiddenChanged
    | BlockHidingChanged
    | ContainsMouseChanged
    | EdgePressureChanged
    | TimerShowChanged
    | TimerHideChanged
    | RaiseOnDesktopChanged
    | RaiseOnActivityChanged
    | SetDockStruts(geometry: Rect)
    | RemoveDockStruts
    | UpdateBarrier
    | DeleteBarrier
    | WriteVisibility(mode: Visibility)
    | SetDockExtraFlags
    | AddDock

  /** A show or hide request to the presentation layer. */
  predicate IsIntent(ev: Event) {
    ev.MustBeShown? || ev.MustBeHide?
  }

  /** The signals a mode-specific subscription can listen to. */
  datatype SignalKind =
    | LocationChangedKind
    | UserConfiguringChangedKind
    | ActiveWindowChangedKind
    | WindowChangedKind
    | WindowRemovedKind
    | WindowAddedKind
    | CurrentDesktopChangedKind
    | CurrentActivityChangedKind

  /** A signal delivered to the engine by the containment or the window system. */
  datatype Signal =
    | LocationChanged
    | UserConfiguringChanged(configuring: bool)
    | ActiveWindowChanged(wid: WId)
    | WindowChanged(wid: WId)
    | WindowRemoved(wid: WId)
    | WindowAdded(wid: WId)
    | CurrentDesktopChanged
    | CurrentActivityChanged

  function KindOf(sig: Signal): SignalKind {
    match sig
    case LocationChanged => LocationChangedKind
    case UserConfiguringChanged(_) => UserConfiguringChangedKind
    case ActiveWindowChanged(_) => ActiveWindowChangedKind
    case WindowChanged(_) => WindowChangedKind
    case WindowRemoved(_) => WindowRemovedKind
    case WindowAdded(_) => WindowAddedKind
    case CurrentDesktopChanged => CurrentDesktopChangedKind
    case CurrentActivityChanged => CurrentActivityChangedKind
  }

  /** The lambdas and slots setMode connects. */
  datatype Handler =
    | RemoveStrutsWhileConfiguring   // AlwaysVisible, slot 0
    | SetStrutsAfterConfiguring      // AlwaysVisible, slot 1
    | ActiveWindowDodgeActive        // DodgeActive, slot 0
    | WindowChangedDodgeActive       // DodgeActive, slot 1
    | ActiveWindowDodgeMaximized     // DodgeMaximized, slot 0
    | WindowChangedDodgeMaximized    // DodgeMaximized, slot 1
    | WindowChangedDodgeWindows      // DodgeAllWindows, slot 0
    | WindowRemovedErase             // DodgeAllWindows, slot 1
    | WindowAddedInsert              // DodgeAllWindows, slot 2
    | DesktopChangedRaise            // slot 3
    | ActivityChangedRaise           // slot 4

  /** The signal a handler is connected to. */
  function Source(h: Handler): SignalKind {
    match h
    case RemoveStrutsWhileConfiguring => LocationChangedKind
    case SetStrutsAfterConfiguring => UserConfiguringChangedKind
    case ActiveWindowDodgeActive => ActiveWindowChangedKind
    case WindowChangedDodgeActive => WindowChangedKind
    case ActiveWindowDodgeMaximized => ActiveWindowChangedKind
    case WindowChangedDodgeMaximized => WindowChangedKind
    case WindowChangedDodgeWindows => WindowChangedKind
    case WindowRemovedErase => WindowRemovedKind
    case WindowAddedInsert => WindowAddedKind
    case DesktopChangedRaise => CurrentDesktopChangedKind
    case ActivityChangedRaise => CurrentActivityChangedKind
  }

  /** One QMetaObject::Connection of the connections array. */
  datatype Slot = Disconnected | Connected(handler: Handler)

  predicate Listens(s: Slot, kind: SignalKind) {
    s.Connected? && Source(s.handler) == kind
  }

  const AllDisconnected: seq<Slot> := [Disconnected, Disconnected, Disconnected, Disconnected, Disconnected]

  /** The timers: timerShow, timerHide, timerCheckWindows, and the single-shot timer that
      raiseDockTemporarily schedules with QTimer::singleShot. */
  datatype Timers = Timers(show: Timer, hide: Timer, checkWindows: Timer, temporaryReset: Timer)

  /** The flags that drive the hidden state. */
  datatype Flags = Flags(
    isHidden: bool,
    blockHiding: bool,
    dragEnter: bool,
    containsMouse: bool,
    raiseTemporarily: bool,
    hideNow: bool)

  /** The user settings, and whether the edge-pressure barrier is armed (EdgePressure::enabled()). */
  datatype Settings = Settings(
    pressureActive: bool,
    barrierArmed: bool,
    raiseOnDesktopChange: bool,
    raiseOnActivityChange: bool)

  /** The state of VisibilityManagerPrivate; log is the stream of everything the engine emitted,
      oldest first. */
  datatype Engine = Engine(
    mode: Visibility,
    connections: seq<Slot>,
    windows: map<WId, WindowInfo>,
    dockGeometry: Rect,
    timers: Timers,
    flags: Flags,
    settings: Settings,
    log: seq<Event>)

  /** The state right after the constructor, before restoreConfig: the header's initial values,
      Qt's default QTimer interval 0 and default (empty) QRect. */
  function Initial(): (e: Engine)
    ensures e.mode == None && !e.flags.isHidden && e.settings.pressureActive
    ensures !e.flags.dragEnter && !e.flags.blockHiding && !e.flags.containsMouse
    ensures !e.flags.raiseTemporarily && !e.flags.hideNow
    ensures !e.settings.raiseOnDesktopChange && !e.settings.raiseOnActivityChange
    ensures !e.timers.show.active && !e.timers.hide.active && !e.timers.checkWindows.active
    ensures e.timers.checkWindows.interval == 350 && e.windows == map[]
    ensures forall i :: 0 <= i < |e.connections| ==> e.connections[i] == Disconnected
  {
    Engine(
      mode := None,
      connections := AllDisconnected,
      windows := map[],
      dockGeometry := Rect(0, 0, 0, 0),
      timers := Timers(Timer(false, 0), Timer(false, 0), Timer(false, CheckWindowsInterval), Timer(false, 0)),
      flags := Flags(
        isHidden := false,
        blockHiding := false,
        dragEnter := false,
        containsMouse := false,
        raiseTemporarily := false,
        hideNow := false),
      settings := Settings(
        pressureActive := true,
        barrierArmed := false,
        raiseOnDesktopChange := false,
        raiseOnActivityChange := false),
      log := [SetDockExtraFlags, AddDock])
  }

  /** Slots 0-2 as the switch in setMode fills them for mode m. */
  function ModeSlots(m: Visibility): seq<Slot> {
    match m
    case AlwaysVisible => [Connected(RemoveStrutsWhileConfiguring), Connected(SetStrutsAfterConfiguring), Disconnected]
    case DodgeActive => [Connected(ActiveWindowDodgeActive), Connected(WindowChangedDodgeActive), Disconnected]
    case DodgeMaximized => [Connected(ActiveWindowDodgeMaximized), Connected(WindowChangedDodgeMaximized), Disconnected]
    case DodgeAllWindows => [Connected(WindowChangedDodgeWindows), Connected(WindowRemovedErase), Connected(WindowAddedInsert)]
    case _ => [Disconnected, Disconnected, Disconnected]
  }

  /** Slots 3-4: the desktop and activity subscriptions, present or not. */
  function DesktopSlots(present: bool): seq<Slot> {
    if present then [Connected(DesktopChangedRaise), Connected(ActivityChangedRaise)] else [Disconnected, Disconnected]
  }

  /** The connections after a mode change from oldMode to newMode. */
  function Wiring(oldMode: Visibility, newMode: Visibility): (c: seq<Slot>)
    ensures |c| == 5
  {
    ModeSlots(newMode) + DesktopSlots(oldMode != AlwaysVisible)
  }

  /** What holds of the engine between events. */
  ghost predicate Inv(e: Engine) {
    // the fixed-size array of five connection handles
    && |e.connections| == 5
    // only the current mode's subscriptions are live
    && e.connections[..3] == ModeSlots(e.mode)
    && (e.connections[3..] == DesktopSlots(true) || e.connections[3..] == DesktopSlots(false))
    && (e.mode == None ==> e.connections[3..] == DesktopSlots(false))
    // at most one temporary-raise reset is pending, exactly while the override is on
    && e.timers.temporaryReset.active == e.flags.raiseTemporarily
    && e.timers.checkWindows.interval == CheckWindowsInterval
    // while hiding is blocked the dock is shown
    && (e.flags.blockHiding ==> !e.flags.isHidden)
  }

  /** The events appended by going from e to r. */
  function NewEvents(e: Engine, r: Engine): seq<Event>
    requires e.log <= r.log
  {
    r.log[|e.log|..]
  }

  /** Neither a show nor a hide request is among the events. */
  predicate NoIntents(events: seq<Event>) {
    forall i :: 0 <= i < |events| ==> !IsIntent(events[i])
  }
}
