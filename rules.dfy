/** The decisions of VisibilityManagerPrivate (app/visibilitymanager.cpp), one function per
    operation, each taking the engine state before the call to the state after it. */
module VisibilityRules {
  import opened Geometry
  import opened Windows
  import opened VisibilityState

  function Emit(e: Engine, ev: Event): (r: Engine)
    ensures r == e.(log := e.log + [ev])
  {
    e.(log := e.log + [ev])
  }

  predicate OnlyIntents(events: seq<Event>) {
    forall i :: 0 <= i < |events| ==> IsIntent(events[i])
  }

  /** r differs from e at most in the pending state of the show and hide timers, in a cleared
      hideNow, and in show/hide intents appended to the log. */
  ghost predicate OnlyDebounce(e: Engine, r: Engine) {
    && r.mode == e.mode && r.connections == e.connections && r.windows == e.windows
    && r.dockGeometry == e.dockGeometry && r.settings == e.settings
    && r.flags == e.flags.(hideNow := r.flags.hideNow) && (r.flags.hideNow ==> e.flags.hideNow)
    && r.timers == e.timers.(show := r.timers.show, hide := r.timers.hide)
    && r.timers.show.interval == e.timers.show.interval
    && r.timers.hide.interval == e.timers.hide.interval
    && e.log <= r.log
    && OnlyIntents(r.log[|e.log|..])
  }

  /** r differs from e at most in what a re-evaluation of the hidden state may touch: the pending
      state of the three timers, a cleared hideNow, refreshed registry snapshots, and intents. */
  ghost predicate Reevaluates(e: Engine, r: Engine) {
    && r.mode == e.mode && r.connections == e.connections && r.windows.Keys == e.windows.Keys
    && r.dockGeometry == e.dockGeometry && r.settings == e.settings
    && r.flags == e.flags.(hideNow := r.flags.hideNow) && (r.flags.hideNow ==> e.flags.hideNow)
    && r.timers.temporaryReset == e.timers.temporaryReset
    && r.timers.show.interval == e.timers.show.interval
    && r.timers.hide.interval == e.timers.hide.interval
    && r.timers.checkWindows.interval == e.timers.checkWindows.interval
    && e.log <= r.log
    && OnlyIntents(r.log[|e.log|..])
  }

  lemma OnlyDebounceTransitive(a: Engine, b: Engine, c: Engine)
    requires OnlyDebounce(a, b) && OnlyDebounce(b, c)
    ensures OnlyDebounce(a, c)
  {
    assert c.log[|a.log|..] == b.log[|a.log|..] + c.log[|b.log|..];
  }

  lemma OnlyDebounceReevaluates(a: Engine, b: Engine)
    requires OnlyDebounce(a, b)
    ensures Reevaluates(a, b)
  {
  }

  lemma ReevaluatesTransitive(a: Engine, b: Engine, c: Engine)
    requires Reevaluates(a, b) && Reevaluates(b, c)
    ensures Reevaluates(a, c)
  {
    assert c.log[|a.log|..] == b.log[|a.log|..] + c.log[|b.log|..];
  }

  /** The raise branch of raiseDock (lines 283-290): cancel the hide debounce; with the
      edge-pressure barrier armed show at once if hidden, otherwise start the show debounce
      unless it is already running. */
  function RequestShow(e: Engine): (r: Engine)
    ensures OnlyDebounce(e, r) && r.flags == e.flags
    ensures !r.timers.hide.active
    ensures r.timers.show.active <==> e.timers.show.active || !e.settings.barrierArmed
    ensures r.log == e.log + (if e.settings.barrierArmed && e.flags.isHidden then [MustBeShown] else [])
  {
    var e1 := e.(timers := e.timers.(hide := e.timers.hide.Stop()));
    if e1.settings.barrierArmed then
      if e1.flags.isHidden then Emit(e1, MustBeShown) else e1
    else if !e1.timers.show.active then e1.(timers := e1.timers.(show := e1.timers.show.Start()))
    else e1
  }

  /** The hide branch of raiseDock (lines 292-298): cancel the show debounce; an owed immediate
      hide is paid at once and cleared, otherwise the hide debounce starts unless running. */
  function RequestHide(e: Engine): (r: Engine)
    ensures OnlyDebounce(e, r) && !r.flags.hideNow
    ensures !r.timers.show.active
    ensures r.timers.hide.active <==> e.timers.hide.active || !e.flags.hideNow
    ensures r.log == e.log + (if e.flags.hideNow then [MustBeHide] else [])
  {
    var e1 := e.(timers := e.timers.(show := e.timers.show.Stop()));
    if e1.flags.hideNow then Emit(e1.(flags := e1.flags.(hideNow := false)), MustBeHide)
    else if !e1.timers.hide.active then e1.(timers := e1.timers.(hide := e1.timers.hide.Start()))
    else e1
  }

  /** raiseDock (lines 277-300): the one place that requests a change of visibility. Nothing
      happens while hiding is blocked, and a hide waits while something is dragged over the dock. */
  function RaiseDock(e: Engine, raise: bool): (r: Engine)
    ensures OnlyDebounce(e, r)
    ensures e.flags.blockHiding || (!raise && e.flags.dragEnter) ==> r == e
    ensures !e.flags.blockHiding && raise ==>
      && !r.timers.hide.active
      && (r.timers.show.active <==> e.timers.show.active || !e.settings.barrierArmed)
      && r.flags == e.flags
      && r.log == e.log + (if e.settings.barrierArmed && e.flags.isHidden then [MustBeShown] else [])
    ensures !e.flags.blockHiding && !raise && !e.flags.dragEnter ==>
      && !r.timers.show.active
      && !r.flags.hideNow
      && (r.timers.hide.active <==> e.timers.hide.active || !e.flags.hideNow)
      && r.log == e.log + (if e.flags.hideNow then [MustBeHide] else [])
  {
    if e.flags.blockHiding then e
    else if raise then RequestShow(e)
    else if !e.flags.dragEnter then RequestHide(e)
    else e
  }

  /** intersects (lines 461-466): the window covers the dock. */
  predicate Intersects(info: WindowInfo, dockGeometry: Rect) {
    !info.isMinimized && info.geometry.Intersects(dockGeometry) && !info.isShaded
  }

  /** The window for whose sake dodgeActive and dodgeMaximized decide: the queried one if it is
      active, otherwise the window system's active window (lines 371-378, 392-399). */
  function Evaluated(ws: WindowSystem, wid: WId): (info: WindowInfo)
    ensures RequestInfo(ws, wid).isActive ==> info == RequestInfo(ws, wid)
    ensures !RequestInfo(ws, wid).isActive ==> info == RequestInfo(ws, ws.activeWindow)
  {
    var info := RequestInfo(ws, wid);
    if info.isActive then info else RequestInfo(ws, ws.activeWindow)
  }

  /** The raise dodgeActive and dodgeMaximized request first when the queried, inactive window is
      the desktop itself (lines 374-376, 395-397). */
  function RaiseForDesktop(e: Engine, info: WindowInfo): (r: Engine)
    ensures OnlyDebounce(e, r)
    ensures info.isActive || !info.isPlasmaDesktop ==> r == e
    ensures !info.isActive && info.isPlasmaDesktop ==> r == RaiseDock(e, true)
  {
    if !info.isActive && info.isPlasmaDesktop then RaiseDock(e, true) else e
  }

  /** dodgeActive (lines 364-383). The desktop test is on the queried window, not on the
      resolved active window. */
  function DodgeActive(e: Engine, ws: WindowSystem, wid: WId): (r: Engine)
    ensures OnlyDebounce(e, r)
    ensures e.flags.raiseTemporarily || !RequestInfo(ws, wid).valid || e.flags.blockHiding ==> r == e
    ensures !e.flags.raiseTemporarily && RequestInfo(ws, wid).valid ==>
      var e1 := RaiseForDesktop(e, RequestInfo(ws, wid));
      r == if IsOnCurrentDesktop(ws, wid) then RaiseDock(e1, !Intersects(Evaluated(ws, wid), e.dockGeometry)) else e1
  {
    if e.flags.raiseTemporarily then e
    else
      var info := RequestInfo(ws, wid);
      if !info.valid then e
      else
        var e1 := RaiseForDesktop(e, info);
        if IsOnCurrentDesktop(ws, wid) then
          var r := RaiseDock(e1, !Intersects(Evaluated(ws, wid), e1.dockGeometry));
          OnlyDebounceTransitive(e, e1, r);
          r
        else e1
  }

  /** The window fills the screen's height: isMaxVert in dodgeMaximized (lines 402-405). */
  predicate IsMaxVert(info: WindowInfo, view: View) {
    info.isMaxVert || (view.screen.Screen? && view.screen.size.height <= info.geometry.height)
  }

  /** The window fills the screen's width: isMaxHoriz in dodgeMaximized (lines 407-410). */
  predicate IsMaxHoriz(info: WindowInfo, view: View) {
    info.isMaxHoriz || (view.screen.Screen? && view.screen.size.width <= info.geometry.width)
  }

  /** The raise dodgeMaximized requests: a vertical dock dodges horizontally maximised windows,
      any other dodges vertically maximised ones (lines 413-414). */
  predicate MaximizedRaise(info: WindowInfo, view: View) {
    if view.vertical then !IsMaxHoriz(info, view) else !IsMaxVert(info, view)
  }

  /** dodgeMaximized (lines 385-415). */
  function DodgeMaximized(e: Engine, ws: WindowSystem, view: View, wid: WId): (r: Engine)
    ensures OnlyDebounce(e, r)
    ensures e.flags.raiseTemporarily || !RequestInfo(ws, wid).valid || e.flags.blockHiding ==> r == e
    ensures !e.flags.raiseTemporarily && RequestInfo(ws, wid).valid ==>
      var e1 := RaiseForDesktop(e, RequestInfo(ws, wid));
      r == if IsOnCurrentDesktop(ws, wid) && !Evaluated(ws, wid).isMinimized
           then RaiseDock(e1, MaximizedRaise(Evaluated(ws, wid), view)) else e1
  {
    if e.flags.raiseTemporarily then e
    else
      var info := RequestInfo(ws, wid);
      if !info.valid then e
      else
        var e1 := RaiseForDesktop(e, info);
        var winfo := Evaluated(ws, wid);
        if IsOnCurrentDesktop(ws, wid) && !winfo.isMinimized then
          var r := RaiseDock(e1, MaximizedRaise(winfo, view));
          OnlyDebounceTransitive(e, e1, r);
          r
        else e1
  }

  /** dodgeWindows (lines 417-435): refresh a tracked window's snapshot; hide if it covers the
      dock, otherwise schedule a check of all windows. */
  function DodgeWindows(e: Engine, ws: WindowSystem, wid: WId): (r: Engine)
    ensures Reevaluates(e, r)
    ensures e.flags.raiseTemporarily || wid !in e.windows ==> r == e
    ensures !e.flags.raiseTemporarily && wid in e.windows ==>
      var info := RequestInfo(ws, wid);
      var e1 := e.(windows := e.windows[wid := info]);
      && r.windows == e1.windows
      && (!info.valid || !IsOnCurrentDesktop(ws, wid) ==> r == e1)
      && (info.valid && IsOnCurrentDesktop(ws, wid) && Intersects(info, e.dockGeometry) ==> r == RaiseDock(e1, false))
      && (info.valid && IsOnCurrentDesktop(ws, wid) && !Intersects(info, e.dockGeometry) ==>
            r == e1.(timers := e.timers.(checkWindows := e.timers.checkWindows.Start())))
  {
    if e.flags.raiseTemporarily then e
    else if wid !in e.windows then e
    else
      var info := RequestInfo(ws, wid);
      var e1 := e.(windows := e.windows[wid := info]);
      if !info.valid || !IsOnCurrentDesktop(ws, wid) then e1
      else if Intersects(info, e1.dockGeometry) then
        var r := RaiseDock(e1, false);
        OnlyDebounceReevaluates(e1, r);
        ReevaluatesTransitive(e, e1, r);
        r
      else e1.(timers := e1.timers.(checkWindows := e1.timers.checkWindows.Start()))
  }

  /** A registry entry that vetoes raising the dock in checkAllWindows (lines 446-455): a valid
      snapshot of a window on the current desktop that is fullscreen or covers the dock. */
  predicate Blocks(ws: WindowSystem, wid: WId, info: WindowInfo, dockGeometry: Rect) {
    info.valid && IsOnCurrentDesktop(ws, wid) && (info.isFullscreen || Intersects(info, dockGeometry))
  }

  predicate NoWindowBlocks(windows: map<WId, WindowInfo>, ws: WindowSystem, dockGeometry: Rect) {
    forall wid | wid in windows :: !Blocks(ws, wid, windows[wid], dockGeometry)
  }

  /** checkAllWindows (lines 437-459): raise exactly when no registry entry vetoes it. */
  function CheckAllWindows(e: Engine, ws: WindowSystem): (r: Engine)
    ensures OnlyDebounce(e, r)
    ensures e.flags.raiseTemporarily ==> r == e
    ensures !e.flags.raiseTemporarily ==> r == RaiseDock(e, NoWindowBlocks(e.windows, ws, e.dockGeometry))
  {
    if e.flags.raiseTemporarily then e
    else RaiseDock(e, NoWindowBlocks(e.windows, ws, e.dockGeometry))
  }

  /** The modes in which updateHiddenState does anything. */
  predicate Reevaluated(m: Visibility) {
    m == Visibility.AutoHide || m == Visibility.DodgeActive || m == Visibility.DodgeMaximized
    || m == Visibility.DodgeAllWindows
  }

  /** updateHiddenState (lines 321-346): re-run the current mode's rule for the active window. */
  function UpdateHiddenState(e: Engine, ws: WindowSystem, view: View): (r: Engine)
    ensures Reevaluates(e, r)
    ensures e.flags.dragEnter || !Reevaluated(e.mode) ==> r == e
    ensures e.flags.blockHiding ==> r.log == e.log && r.timers.show == e.timers.show && r.timers.hide == e.timers.hide
    ensures !e.flags.dragEnter && e.mode == Visibility.AutoHide ==> r == RaiseDock(e, e.flags.containsMouse)
    ensures !e.flags.dragEnter && e.mode == Visibility.DodgeActive ==> r == DodgeActive(e, ws, ws.activeWindow)
    ensures !e.flags.dragEnter && e.mode == Visibility.DodgeMaximized ==>
      r == DodgeMaximized(e, ws, view, ws.activeWindow)
    ensures !e.flags.dragEnter && e.mode == Visibility.DodgeAllWindows ==> r == DodgeWindows(e, ws, ws.activeWindow)
  {
    if e.flags.dragEnter then e
    else
      match e.mode
      case AutoHide =>
        var r := RaiseDock(e, e.flags.containsMouse);
        OnlyDebounceReevaluates(e, r);
        r
      case DodgeActive =>
        var r := DodgeActive(e, ws, ws.activeWindow);
        OnlyDebounceReevaluates(e, r);
        r
      case DodgeMaximized =>
        var r := DodgeMaximized(e, ws, view, ws.activeWindow);
        OnlyDebounceReevaluates(e, r);
        r
      case DodgeAllWindows => DodgeWindows(e, ws, ws.activeWindow)
      case _ => e
  }

  /** qBound(lo, v, hi). */
  function Bound(lo: int, v: int, hi: int): int {
    if v < lo then lo else if hi < v then hi else v
  }

  /** The delay after which a temporary raise ends: twice the hide debounce, clamped to
      [1800, 3000] ms (line 314). */
  function TemporaryRaiseDelay(hideInterval: Int32): (d: Int32)
    ensures 1800 <= d <= 3000
    ensures 1800 <= 2 * hideInterval <= 3000 ==> d == 2 * hideInterval
    ensures 2 * hideInterval < 1800 ==> d == 1800
    ensures 3000 < 2 * hideInterval ==> d == 3000
  {
    Bound(1800, 2 * hideInterval, 3000)
  }

  /** raiseDockTemporarily (lines 302-319): override every dodge rule for a while, show at once
      if hidden and schedule the end of the override. */
  function RaiseDockTemporarily(e: Engine): (r: Engine)
    ensures e.flags.raiseTemporarily ==> r == e
    ensures !e.flags.raiseTemporarily ==>
      && r.flags == e.flags.(raiseTemporarily := true)
      && r.timers == e.timers.(show := e.timers.show.Stop(), hide := e.timers.hide.Stop(),
                                temporaryReset := Timer(true, TemporaryRaiseDelay(e.timers.hide.interval)))
      && r.log == e.log + (if e.flags.isHidden then [MustBeShown] else [])
      && r == e.(flags := r.flags, timers := r.timers, log := r.log)
  {
    if e.flags.raiseTemporarily then e
    else
      var e1 := e.(flags := e.flags.(raiseTemporarily := true),
                   timers := e.timers.(hide := e.timers.hide.Stop(), show := e.timers.show.Stop()));
      var e2 := if e1.flags.isHidden then Emit(e1, MustBeShown) else e1;
      e2.(timers := e2.timers.(temporaryReset := Timer(true, TemporaryRaiseDelay(e.timers.hide.interval))))
  }

  /** The single-shot lambda of raiseDockTemporarily (lines 314-318): end the override and
      re-evaluate with an immediate hide owed. It fires only when it was scheduled. */
  function TemporaryRaiseTimeout(e: Engine, ws: WindowSystem, view: View): (r: Engine)
    ensures !e.timers.temporaryReset.active ==> r == e
    ensures e.timers.temporaryReset.active ==>
      r == UpdateHiddenState(e.(flags := e.flags.(raiseTemporarily := false, hideNow := true),
                                timers := e.timers.(temporaryReset := e.timers.temporaryReset.Stop())), ws, view)
    ensures e.timers.temporaryReset.active ==> !r.timers.temporaryReset.active && !r.flags.raiseTemporarily
  {
    if !e.timers.temporaryReset.active then e
    else
      UpdateHiddenState(e.(flags := e.flags.(raiseTemporarily := false, hideNow := true),
                           timers := e.timers.(temporaryReset := e.timers.temporaryReset.Stop())), ws, view)
  }

  /** The timerShow timeout lambda (lines 46-51): show if hidden. */
  function ShowTimeout(e: Engine): (r: Engine)
    ensures !r.timers.show.active && r.timers.show.interval == e.timers.show.interval
    ensures r == e.(timers := e.timers.(show := r.timers.show), log := r.log)
    ensures r.log == e.log + (if e.timers.show.active && e.flags.isHidden then [MustBeShown] else [])
  {
    if !e.timers.show.active then e
    else
      var e1 := e.(timers := e.timers.(show := e.timers.show.Stop()));
      if e1.flags.isHidden then Emit(e1, MustBeShown) else e1
  }

  /** The condition under which the timerHide timeout hides the dock (line 53). */
  predicate MayHide(f: Flags) {
    !f.blockHiding && !f.isHidden && !f.dragEnter
  }

  /** The timerHide timeout lambda (lines 52-57): hide unless blocked, already hidden or dragged
      over. */
  function HideTimeout(e: Engine): (r: Engine)
    ensures !r.timers.hide.active && r.timers.hide.interval == e.timers.hide.interval
    ensures r == e.(timers := e.timers.(hide := r.timers.hide), log := r.log)
    ensures r.log == e.log + (if e.timers.hide.active && MayHide(e.flags) then [MustBeHide] else [])
  {
    if !e.timers.hide.active then e
    else
      var e1 := e.(timers := e.timers.(hide := e.timers.hide.Stop()));
      if MayHide(e1.flags) then Emit(e1, MustBeHide) else e1
  }

  /** timerCheckWindows runs checkAllWindows (line 45). */
  function CheckWindowsTimeout(e: Engine, ws: WindowSystem): (r: Engine)
    ensures !r.timers.checkWindows.active
    ensures !e.timers.checkWindows.active ==> r == e
    ensures e.timers.checkWindows.active ==>
      r == CheckAllWindows(e.(timers := e.timers.(checkWindows := e.timers.checkWindows.Stop())), ws)
  {
    if !e.timers.checkWindows.active then e
    else CheckAllWindows(e.(timers := e.timers.(checkWindows := e.timers.checkWindows.Stop())), ws)
  }

  /** The EdgePressure::threshold lambda (lines 58-63): show if hidden. */
  function PressureThreshold(e: Engine): (r: Engine)
    ensures r.log == e.log + (if e.flags.isHidden then [MustBeShown] else [])
    ensures r == e.(log := r.log)
  {
    if e.flags.isHidden then Emit(e, MustBeShown) else e
  }

  /** setIsHidden (lines 211-223): refused while hiding is blocked. */
  function SetIsHidden(e: Engine, hidden: bool): (r: Engine)
    ensures e.flags.blockHiding || e.flags.isHidden == hidden ==> r == e
    ensures !e.flags.blockHiding && e.flags.isHidden != hidden ==>
      r == e.(flags := e.flags.(isHidden := hidden), log := e.log + [IsHiddenChanged])
  {
    if e.flags.isHidden == hidden then e
    else if e.flags.blockHiding then e
    else Emit(e.(flags := e.flags.(isHidden := hidden)), IsHiddenChanged)
  }

  /** What blocking does before notifying (lines 233-240): the hide debounce is cancelled and a
      hidden dock is shown. */
  function CancelHiding(e: Engine): (r: Engine)
    ensures r == e.(flags := e.flags.(isHidden := false), timers := e.timers.(hide := e.timers.hide.Stop()),
                    log := e.log + (if e.flags.isHidden then [IsHiddenChanged, MustBeShown] else []))
  {
    var e1 := e.(timers := e.timers.(hide := e.timers.hide.Stop()));
    if e1.flags.isHidden then Emit(Emit(e1.(flags := e1.flags.(isHidden := false)), IsHiddenChanged), MustBeShown)
    else e1
  }

  /** setBlockHiding (lines 225-246). Blocking cancels the hide debounce and brings a hidden dock
      back; unblocking re-evaluates; either way blockHidingChanged comes last. */
  function SetBlockHiding(e: Engine, ws: WindowSystem, view: View, block: bool): (r: Engine)
    ensures e.flags.blockHiding == block ==> r == e
    ensures e.flags.blockHiding != block ==>
      r.flags.blockHiding == block && |r.log| > |e.log| && r.log[|r.log| - 1] == BlockHidingChanged
    ensures !e.flags.blockHiding && block ==>
      r == e.(flags := e.flags.(blockHiding := true, isHidden := false),
              timers := e.timers.(hide := e.timers.hide.Stop()),
              log := e.log + (if e.flags.isHidden then [IsHiddenChanged, MustBeShown] else []) + [BlockHidingChanged])
    ensures e.flags.blockHiding && !block ==>
      r == Emit(UpdateHiddenState(e.(flags := e.flags.(blockHiding := false)), ws, view), BlockHidingChanged)
  {
    if e.flags.blockHiding == block then e
    else
      var e1 := e.(flags := e.flags.(blockHiding := block));
      var e2 := if block then CancelHiding(e1) else UpdateHiddenState(e1, ws, view);
      Emit(e2, BlockHidingChanged)
  }

  /** setRaiseOnDesktop (lines 193-200): store and notify on a real change. */
  function SetRaiseOnDesktop(e: Engine, enable: bool): (r: Engine)
    ensures r.settings == e.settings.(raiseOnDesktopChange := enable)
    ensures r == e.(settings := r.settings, log := r.log)
    ensures r.log == e.log + (if e.settings.raiseOnDesktopChange != enable then [RaiseOnDesktopChanged] else [])
  {
    if enable == e.settings.raiseOnDesktopChange then e
    else Emit(e.(settings := e.settings.(raiseOnDesktopChange := enable)), RaiseOnDesktopChanged)
  }

  /** setRaiseOnActivity (lines 202-209): store and notify on a real change. */
  function SetRaiseOnActivity(e: Engine, enable: bool): (r: Engine)
    ensures r.settings == e.settings.(raiseOnActivityChange := enable)
    ensures r == e.(settings := r.settings, log := r.log)
    ensures r.log == e.log + (if e.settings.raiseOnActivityChange != enable then [RaiseOnActivityChanged] else [])
  {
    if enable == e.settings.raiseOnActivityChange then e
    else Emit(e.(settings := e.settings.(raiseOnActivityChange := enable)), RaiseOnActivityChanged)
  }

  /** setTimerShow (lines 248-252): a new interval, the pending fire kept, always notified. */
  function SetTimerShow(e: Engine, msec: Int32): (r: Engine)
    ensures r.timers.show == Timer(e.timers.show.active, msec)
    ensures r == e.(timers := e.timers.(show := r.timers.show), log := e.log + [TimerShowChanged])
  {
    Emit(e.(timers := e.timers.(show := e.timers.show.(interval := msec))), TimerShowChanged)
  }

  /** setTimerHide (lines 254-258): a new interval, the pending fire kept, always notified. */
  function SetTimerHide(e: Engine, msec: Int32): (r: Engine)
    ensures r.timers.hide == Timer(e.timers.hide.active, msec)
    ensures r == e.(timers := e.timers.(hide := r.timers.hide), log := e.log + [TimerHideChanged])
  {
    Emit(e.(timers := e.timers.(hide := e.timers.hide.(interval := msec))), TimerHideChanged)
  }

  /** The modes without an edge-pressure barrier. */
  predicate WithoutPressure(m: Visibility) {
    m == Visibility.AlwaysVisible || m == Visibility.WindowsGoBelow
  }

  /** edgePressure.updateBarrier(). */
  function ArmBarrier(e: Engine): (r: Engine)
    ensures r == e.(settings := e.settings.(barrierArmed := true), log := e.log + [UpdateBarrier])
  {
    Emit(e.(settings := e.settings.(barrierArmed := true)), UpdateBarrier)
  }

  /** edgePressure.deleteBarrier(). */
  function DisarmBarrier(e: Engine): (r: Engine)
    ensures r == e.(settings := e.settings.(barrierArmed := false), log := e.log + [DeleteBarrier])
  {
    Emit(e.(settings := e.settings.(barrierArmed := false)), DeleteBarrier)
  }

  /** setEnablePressure (lines 260-275): the barrier exists exactly when pressure is wanted and
      the mode has one; edgePressureChanged is emitted only in modes with a barrier. */
  function SetEnablePressure(e: Engine, enable: bool): (r: Engine)
    ensures r.settings.pressureActive == enable
    ensures r.settings.barrierArmed <==> enable && !WithoutPressure(e.mode)
    ensures r.settings == e.settings.(pressureActive := enable, barrierArmed := r.settings.barrierArmed)
    ensures r == e.(settings := r.settings, log := r.log)
    ensures r.log == e.log + (if WithoutPressure(e.mode) then [DeleteBarrier]
                              else [if enable then UpdateBarrier else DeleteBarrier, EdgePressureChanged])
  {
    var e1 := e.(settings := e.settings.(pressureActive := enable));
    if WithoutPressure(e1.mode) then DisarmBarrier(e1)
    else Emit(if !enable then DisarmBarrier(e1) else ArmBarrier(e1), EdgePressureChanged)
  }

  /** The struts are placed when the dock is AlwaysVisible, has a screen, and is not being
      configured (lines 115, 355). */
  predicate PlacesStruts(m: Visibility, view: View) {
    m == Visibility.AlwaysVisible && !view.userConfiguring && view.screen.Screen?
  }

  /** setDockGeometry (lines 348-362): a new rectangle re-places the struts and re-arms the
      barrier where those apply. */
  function SetDockGeometry(e: Engine, view: View, geometry: Rect): (r: Engine)
    ensures r.dockGeometry == geometry
    ensures e.dockGeometry == geometry ==> r == e
    ensures e.dockGeometry != geometry ==>
      && r.settings == e.settings.(barrierArmed := r.settings.barrierArmed)
      && (r.settings.barrierArmed <==> e.settings.barrierArmed || (e.settings.pressureActive && !WithoutPressure(e.mode)))
      && r == e.(dockGeometry := geometry, settings := r.settings, log := r.log)
      && r.log == e.log
        + (if PlacesStruts(e.mode, view) then [SetDockStruts(geometry)] else [])
        + (if e.settings.pressureActive && !WithoutPressure(e.mode) then [UpdateBarrier] else [])
  {
    if e.dockGeometry == geometry then e
    else
      var e1 := e.(dockGeometry := geometry);
      var e2 := if PlacesStruts(e1.mode, view) then Emit(e1, SetDockStruts(e1.dockGeometry)) else e1;
      if e2.settings.pressureActive && !WithoutPressure(e2.mode) then ArmBarrier(e2) else e2
  }

  /** windows.insert(make_pair(wid, requestInfo(wid))): std::unordered_map::insert keeps an
      existing entry. */
  function Insert(windows: map<WId, WindowInfo>, ws: WindowSystem, wid: WId): (r: map<WId, WindowInfo>)
    ensures r.Keys == windows.Keys + {wid}
    ensures forall id :: id in windows ==> r[id] == windows[id]
    ensures wid !in windows ==> r[wid] == RequestInfo(ws, wid)
  {
    if wid in windows then windows else windows[wid := RequestInfo(ws, wid)]
  }

  /** The loop over wm->windows() when entering DodgeAllWindows (lines 160-162): every listed
      window gets a snapshot, and windows already tracked keep theirs. */
  function InsertAll(windows: map<WId, WindowInfo>, ws: WindowSystem, ids: seq<WId>): (r: map<WId, WindowInfo>)
    decreases |ids|
    ensures r.Keys == windows.Keys + set id | id in ids
    ensures forall id :: id in windows ==> r[id] == windows[id]
    ensures forall id :: id in r && id !in windows ==> r[id] == RequestInfo(ws, id)
  {
    if |ids| == 0 then windows
    else Insert(InsertAll(windows, ws, ids[..|ids| - 1]), ws, ids[|ids| - 1])
  }

  /** What setMode emits before the switch: struts removed when leaving AlwaysVisible, then the
      barrier deleted or updated and, in a mode with a barrier, edgePressureChanged. */
  function TearDownEvents(oldMode: Visibility, m: Visibility, pressure: bool): seq<Event> {
    (if oldMode == Visibility.AlwaysVisible then [RemoveDockStruts] else [])
    + (if WithoutPressure(m) then [DeleteBarrier]
       else [if pressure then UpdateBarrier else DeleteBarrier, EdgePressureChanged])
  }

  /** Everything setMode does before the switch on the new mode (lines 84-111): every
      subscription cut, the struts of AlwaysVisible removed, the desktop and activity
      subscriptions installed when the old mode was not AlwaysVisible, the three timers stopped,
      the mode stored and the barrier brought in line with it. */
  function TearDown(e: Engine, m: Visibility): (r: Engine)
    ensures r.mode == m && |r.connections| == 5
    ensures r.connections[..3] == [Disconnected, Disconnected, Disconnected]
    ensures r.connections[3..] == DesktopSlots(e.mode != Visibility.AlwaysVisible)
    ensures r.timers == e.timers.(show := e.timers.show.Stop(), hide := e.timers.hide.Stop(),
                                  checkWindows := e.timers.checkWindows.Stop())
    ensures r.flags == e.flags && r.windows == e.windows && r.dockGeometry == e.dockGeometry
    ensures r.settings == e.settings.(barrierArmed := r.settings.barrierArmed)
    ensures r.settings.barrierArmed <==> e.settings.pressureActive && !WithoutPressure(m)
    ensures r.log == e.log + TearDownEvents(e.mode, m, e.settings.pressureActive)
  {
    var e1 := e.(connections := AllDisconnected);
    var e2 :=
      if e1.mode == Visibility.AlwaysVisible then Emit(e1, RemoveDockStruts)
      else e1.(connections := e1.connections[3 := Connected(DesktopChangedRaise)][4 := Connected(ActivityChangedRaise)]);
    var e3 := e2.(timers := e2.timers.(show := e2.timers.show.Stop(), hide := e2.timers.hide.Stop(),
                                       checkWindows := e2.timers.checkWindows.Stop()),
                  mode := m);
    SetEnablePressure(e3, e3.settings.pressureActive)
  }

  function Connect(c: seq<Slot>, slots: seq<Slot>): (r: seq<Slot>)
    requires |c| == 5 && |slots| == 3
    ensures r == slots + c[3..]
  {
    c[0 := slots[0]][1 := slots[1]][2 := slots[2]]
  }

  /** What entering a mode may emit: struts placed, and show/hide intents. */
  predicate EntryEvents(events: seq<Event>) {
    forall i :: 0 <= i < |events| ==> IsIntent(events[i]) || events[i].SetDockStruts?
  }

  /** r differs from e at most in what entering a mode touches besides the subscriptions, the
      registry and the check timer's pending fire. */
  ghost predicate EntryFrame(e: Engine, r: Engine) {
    && r.mode == e.mode && r.dockGeometry == e.dockGeometry && r.settings == e.settings
    && r.flags == e.flags.(hideNow := r.flags.hideNow)
    && r.timers.temporaryReset == e.timers.temporaryReset
    && r.timers.show.interval == e.timers.show.interval && r.timers.hide.interval == e.timers.hide.interval
    && r.timers.checkWindows.interval == e.timers.checkWindows.interval
    && e.log <= r.log && EntryEvents(r.log[|e.log|..])
  }

  lemma OnlyDebounceEntryFrame(e: Engine, r: Engine)
    requires OnlyDebounce(e, r)
    ensures EntryFrame(e, r)
  {
  }

  /** The AlwaysVisible case of the switch in setMode (lines 114-134): struts placed unless the
      user is configuring the dock, the two containment subscriptions wired, and a raise. */
  function EnterAlwaysVisible(e: Engine, view: View): (r: Engine)
    requires |e.connections| == 5
    ensures r.connections == ModeSlots(Visibility.AlwaysVisible) + e.connections[3..]
    ensures EntryFrame(e, r) && r.windows == e.windows && r.timers.checkWindows == e.timers.checkWindows
    ensures e.flags.blockHiding ==> NoIntents(r.log[|e.log|..])
    ensures var struts := if PlacesStruts(Visibility.AlwaysVisible, view) then [SetDockStruts(e.dockGeometry)] else [];
      r == RaiseDock(e.(connections := r.connections, log := e.log + struts), true)
  {
    var e1 := if PlacesStruts(Visibility.AlwaysVisible, view) then Emit(e, SetDockStruts(e.dockGeometry)) else e;
    var e2 := e1.(connections := Connect(e1.connections, ModeSlots(Visibility.AlwaysVisible)));
    var r := RaiseDock(e2, true);
    assert r.log[|e.log|..] == e1.log[|e.log|..] + r.log[|e1.log|..];
    r
  }

  /** The DodgeAllWindows case of the switch in setMode (lines 158-179): every window of the window
      system gets a registry entry, the three registry subscriptions are wired and a check is
      scheduled. */
  function EnterDodgeAllWindows(e: Engine, ws: WindowSystem): (r: Engine)
    requires |e.connections| == 5
    ensures r.connections == ModeSlots(Visibility.DodgeAllWindows) + e.connections[3..]
    ensures r.windows == InsertAll(e.windows, ws, ws.windowIds)
    ensures r == e.(windows := r.windows, connections := r.connections,
                    timers := e.timers.(checkWindows := e.timers.checkWindows.Start()))
  {
    e.(windows := InsertAll(e.windows, ws, ws.windowIds),
       connections := Connect(e.connections, ModeSlots(Visibility.DodgeAllWindows)),
       timers := e.timers.(checkWindows := e.timers.checkWindows.Start()))
  }

  /** The switch on the new mode in setMode (lines 113-186): wire the mode's subscriptions and
      run its rule once. */
  function EnterMode(e: Engine, ws: WindowSystem, view: View): (r: Engine)
    requires |e.connections| == 5 && e.connections[..3] == [Disconnected, Disconnected, Disconnected]
    ensures r.connections == ModeSlots(e.mode) + e.connections[3..]
    ensures EntryFrame(e, r)
    ensures r.timers.checkWindows.active <==> e.timers.checkWindows.active || e.mode == Visibility.DodgeAllWindows
    ensures e.mode == Visibility.DodgeAllWindows ==> r.windows == InsertAll(e.windows, ws, ws.windowIds)
    ensures e.mode != Visibility.DodgeAllWindows ==> r.windows == e.windows
    ensures e.flags.blockHiding ==> NoIntents(r.log[|e.log|..])
    ensures e.mode == Visibility.AlwaysVisible ==> r == EnterAlwaysVisible(e, view)
    ensures e.mode == Visibility.AutoHide ==> r == RaiseDock(e, e.flags.containsMouse)
    ensures e.mode == Visibility.DodgeActive ==>
      r == DodgeActive(e.(connections := r.connections), ws, ws.activeWindow)
    ensures e.mode == Visibility.DodgeMaximized ==>
      r == DodgeMaximized(e.(connections := r.connections), ws, view, ws.activeWindow)
    ensures e.mode == Visibility.DodgeAllWindows ==> r == EnterDodgeAllWindows(e, ws)
    ensures e.mode == Visibility.WindowsGoBelow ==> r == RaiseDock(e, true)
  {
    match e.mode
    case AlwaysVisible => EnterAlwaysVisible(e, view)
    case AutoHide =>
      var r := RaiseDock(e, e.flags.containsMouse);
      OnlyDebounceEntryFrame(e, r);
      r
    case DodgeActive =>
      var e1 := e.(connections := Connect(e.connections, ModeSlots(Visibility.DodgeActive)));
      var r := DodgeActive(e1, ws, ws.activeWindow);
      OnlyDebounceEntryFrame(e1, r);
      r
    case DodgeMaximized =>
      var e1 := e.(connections := Connect(e.connections, ModeSlots(Visibility.DodgeMaximized)));
      var r := DodgeMaximized(e1, ws, view, ws.activeWindow);
      OnlyDebounceEntryFrame(e1, r);
      r
    case DodgeAllWindows => EnterDodgeAllWindows(e, ws)
    case WindowsGoBelow =>
      var r := RaiseDock(e, true);
      OnlyDebounceEntryFrame(e, r);
      r
    case None => e
  }

  /** The part of setMode after the guard and before the final write (lines 84-186): tear down
      the old mode, then enter the new one. */
  function ChangeMode(e: Engine, ws: WindowSystem, view: View, m: Visibility): (r: Engine)
    ensures r.mode == m
  {
    EnterMode(TearDown(e, m), ws, view)
  }

  /** setMode (lines 77-191). Setting the current mode again is a no-op; a real change ends by
      writing the mode to the configuration and emitting modeChanged. */
  function SetMode(e: Engine, ws: WindowSystem, view: View, m: Visibility): (r: Engine)
    requires m != Visibility.None || m == e.mode
    ensures m == e.mode ==> r == e
    ensures m != e.mode ==>
      var c := ChangeMode(e, ws, view, m);
      r == c.(log := c.log + [WriteVisibility(m), ModeChanged])
  {
    if e.mode == m then e
    else Emit(Emit(ChangeMode(e, ws, view, m), WriteVisibility(m)), ModeChanged)
  }

  /** The first of the connection slots from index `from` on that listens to `kind`, or -1. */
  function FirstListener(connections: seq<Slot>, kind: SignalKind, from: nat): (k: int)
    requires from <= |connections|
    decreases |connections| - from
    ensures k == -1 || from <= k < |connections|
    ensures k >= 0 ==> Listens(connections[k], kind) && forall j :: from <= j < k ==> !Listens(connections[j], kind)
    ensures k == -1 ==> forall j :: from <= j < |connections| ==> !Listens(connections[j], kind)
  {
    if from == |connections| then -1
    else if Listens(connections[from], kind) then from
    else FirstListener(connections, kind, from + 1)
  }

  /** The body of the lambda or slot h, run for signal sig (lines 92-103, 119-128, 140-175). */
  function Handle(e: Engine, ws: WindowSystem, view: View, h: Handler, sig: Signal): (r: Engine)
    requires Source(h) == KindOf(sig)
    ensures r.mode == e.mode && r.connections == e.connections && r.dockGeometry == e.dockGeometry
    ensures r.flags.isHidden == e.flags.isHidden && r.flags.blockHiding == e.flags.blockHiding
    ensures r.timers.checkWindows.interval == e.timers.checkWindows.interval
    ensures e.timers.temporaryReset.active == e.flags.raiseTemporarily ==>
      r.timers.temporaryReset.active == r.flags.raiseTemporarily
    ensures h == RemoveStrutsWhileConfiguring ==>
      r == e.(log := e.log + (if view.userConfiguring then [RemoveDockStruts] else []))
    ensures h == SetStrutsAfterConfiguring ==>
      r == e.(log := e.log + (if !sig.configuring && view.screen.Screen? then [SetDockStruts(e.dockGeometry)] else []))
    ensures h in {ActiveWindowDodgeActive, WindowChangedDodgeActive} ==> r == DodgeActive(e, ws, sig.wid)
    ensures h in {ActiveWindowDodgeMaximized, WindowChangedDodgeMaximized} ==> r == DodgeMaximized(e, ws, view, sig.wid)
    ensures h == WindowChangedDodgeWindows ==> r == DodgeWindows(e, ws, sig.wid)
  {
    match h
    case RemoveStrutsWhileConfiguring =>
      if view.userConfiguring then Emit(e, RemoveDockStruts) else e
    case SetStrutsAfterConfiguring =>
      if !sig.configuring && view.screen.Screen? then Emit(e, SetDockStruts(e.dockGeometry)) else e
    case ActiveWindowDodgeActive => DodgeActive(e, ws, sig.wid)
    case WindowChangedDodgeActive => DodgeActive(e, ws, sig.wid)
    case ActiveWindowDodgeMaximized => DodgeMaximized(e, ws, view, sig.wid)
    case WindowChangedDodgeMaximized => DodgeMaximized(e, ws, view, sig.wid)
    case WindowChangedDodgeWindows => DodgeWindows(e, ws, sig.wid)
    case WindowRemovedErase =>
      e.(windows := e.windows - {sig.wid}, timers := e.timers.(checkWindows := e.timers.checkWindows.Start()))
    case WindowAddedInsert =>
      e.(windows := Insert(e.windows, ws, sig.wid), timers := e.timers.(checkWindows := e.timers.checkWindows.Start()))
    case DesktopChangedRaise =>
      if e.settings.raiseOnDesktopChange then RaiseDockTemporarily(e) else e
    case ActivityChangedRaise =>
      if e.settings.raiseOnActivityChange then RaiseDockTemporarily(e) else UpdateHiddenState(e, ws, view)
  }

  /** Delivery of a signal to the subscription connected to it, if any. */
  function Deliver(e: Engine, ws: WindowSystem, view: View, sig: Signal): (r: Engine)
    requires |e.connections| == 5
    ensures FirstListener(e.connections, KindOf(sig), 0) < 0 ==> r == e
    ensures var k := FirstListener(e.connections, KindOf(sig), 0);
      k >= 0 ==> r == Handle(e, ws, view, e.connections[k].handler, sig)
    ensures r.mode == e.mode && r.connections == e.connections
    ensures r.flags.isHidden == e.flags.isHidden && r.flags.blockHiding == e.flags.blockHiding
    ensures r.timers.checkWindows.interval == e.timers.checkWindows.interval
    ensures e.timers.temporaryReset.active == e.flags.raiseTemporarily ==>
      r.timers.temporaryReset.active == r.flags.raiseTemporarily
  {
    var k := FirstListener(e.connections, KindOf(sig), 0);
    if k < 0 then e else Handle(e, ws, view, e.connections[k].handler, sig)
  }

  /** The events viewEventManager reacts to; every other QEvent is OtherEvent. */
  datatype ViewEventKind = Enter | Leave | DragEnter | DragLeave | Drop | Show | OtherEvent

  /** viewEventManager (lines 529-576). */
  function ViewEvent(e: Engine, ws: WindowSystem, view: View, ev: ViewEventKind): (r: Engine)
    ensures ev == Enter ==> r.flags.containsMouse
    ensures ev == Leave ==> !r.flags.containsMouse
    ensures (ev == Enter && e.flags.containsMouse) || (ev == Leave && !e.flags.containsMouse) ==> r == e
    ensures ev == Enter && !e.flags.containsMouse ==>
      var e1 := e.(flags := e.flags.(containsMouse := true), log := e.log + [ContainsMouseChanged]);
      r == if !WithoutPressure(e.mode) && !e.settings.barrierArmed then RaiseDock(e1, true) else e1
    ensures ev == Leave && e.flags.containsMouse ==>
      r == UpdateHiddenState(e.(flags := e.flags.(containsMouse := false), log := e.log + [ContainsMouseChanged]), ws, view)
    ensures ev == DragEnter ==>
      r == e.(flags := e.flags.(dragEnter := true), log := e.log + (if e.flags.isHidden then [MustBeShown] else []))
    ensures ev == DragLeave || ev == Drop ==> r == UpdateHiddenState(e.(flags := e.flags.(dragEnter := false)), ws, view)
    ensures ev == Show ==> r == e.(log := e.log + [SetDockExtraFlags])
    ensures ev == OtherEvent ==> r == e
  {
    match ev
    case Enter =>
      if e.flags.containsMouse then e
      else
        var e1 := Emit(e.(flags := e.flags.(containsMouse := true)), ContainsMouseChanged);
        if !WithoutPressure(e1.mode) && !e1.settings.barrierArmed then RaiseDock(e1, true) else e1
    case Leave =>
      if !e.flags.containsMouse then e
      else UpdateHiddenState(Emit(e.(flags := e.flags.(containsMouse := false)), ContainsMouseChanged), ws, view)
    case DragEnter =>
      var e1 := e.(flags := e.flags.(dragEnter := true));
      if e1.flags.isHidden then Emit(e1, MustBeShown) else e1
    case DragLeave => UpdateHiddenState(e.(flags := e.flags.(dragEnter := false)), ws, view)
    case Drop => UpdateHiddenState(e.(flags := e.flags.(dragEnter := false)), ws, view)
    case Show => Emit(e, SetDockExtraFlags)
    case OtherEvent => e
  }

  /** A configuration entry, present or not. */
  datatype Entry<T> = Unset | Stored(value: T) {
    /** KConfigGroup::readEntry(key, default). */
    function ReadOr(default: T): (v: T)
      ensures Stored? ==> v == value
      ensures Unset? ==> v == default
    {
      if Stored? then value else default
    }
  }

  /** The containment's configuration group, as far as the engine uses it. */
  datatype StoredConfig = StoredConfig(
    timerShow: Entry<Int32>,
    timerHide: Entry<Int32>,
    raiseOnDesktopChange: Entry<bool>,
    raiseOnActivityChange: Entry<bool>,
    edgePressure: Entry<bool>,
    visibility: Entry<Visibility>)

  /** saveConfig (lines 468-482): the intervals and the three settings are written, the stored
      visibility is left as it is (setMode writes it). */
  function SaveConfig(e: Engine, config: StoredConfig): (c: StoredConfig)
    ensures c.visibility == config.visibility
    ensures c.timerShow == Stored(e.timers.show.interval) && c.timerHide == Stored(e.timers.hide.interval)
    ensures c.raiseOnDesktopChange == Stored(e.settings.raiseOnDesktopChange)
    ensures c.raiseOnActivityChange == Stored(e.settings.raiseOnActivityChange)
    ensures c.edgePressure == Stored(e.settings.pressureActive)
  {
    config.(timerShow := Stored(e.timers.show.interval), timerHide := Stored(e.timers.hide.interval),
            raiseOnDesktopChange := Stored(e.settings.raiseOnDesktopChange),
            raiseOnActivityChange := Stored(e.settings.raiseOnActivityChange),
            edgePressure := Stored(e.settings.pressureActive))
  }

  /** The settings part of restoreConfig (lines 484-497): intervals with defaults 200 and 700 ms,
      the raise flags with default false, and edge pressure switched on whatever is stored. */
  function RestoreConfig(e: Engine, config: StoredConfig): (r: Engine)
    ensures r.timers.show == Timer(e.timers.show.active, config.timerShow.ReadOr(200))
    ensures r.timers.hide == Timer(e.timers.hide.active, config.timerHide.ReadOr(700))
    ensures r.settings.raiseOnDesktopChange == config.raiseOnDesktopChange.ReadOr(false)
    ensures r.settings.raiseOnActivityChange == config.raiseOnActivityChange.ReadOr(false)
    ensures r.settings.pressureActive
    ensures r.settings.barrierArmed <==> !WithoutPressure(e.mode)
    ensures r == e.(timers := r.timers, settings := r.settings, log := r.log)
    ensures r.timers == e.timers.(show := r.timers.show, hide := r.timers.hide)
    ensures e.log <= r.log && NoIntents(NewEvents(e, r))
  {
    var e1 := e.(timers := e.timers.(show := e.timers.show.(interval := config.timerShow.ReadOr(200)),
                                     hide := e.timers.hide.(interval := config.timerHide.ReadOr(700))));
    var e2 := Emit(Emit(e1, TimerShowChanged), TimerHideChanged);
    var e3 := SetRaiseOnDesktop(e2, config.raiseOnDesktopChange.ReadOr(false));
    var e4 := SetRaiseOnActivity(e3, config.raiseOnActivityChange.ReadOr(false));
    SetEnablePressure(e4, true)
  }

  /** A call of one of the public setters (the facade, lines 580-674, forwards each one). */
  datatype Call =
    | CallSetMode(m: Visibility)
    | CallSetRaiseOnDesktop(enable: bool)
    | CallSetRaiseOnActivity(enable: bool)
    | CallSetIsHidden(hidden: bool)
    | CallSetBlockHiding(block: bool)
    | CallSetTimerShow(msec: Int32)
    | CallSetTimerHide(msec: Int32)
    | CallSetEnablePressure(enable: bool)

  /** A timer or the edge-pressure barrier firing. */
  datatype Fire = ShowFired | HideFired | CheckWindowsFired | TemporaryResetFired | ThresholdFired

  /** Every way the outside world drives the engine. */
  datatype Input =
    | OnCall(call: Call)
    | OnFire(fire: Fire)
    | OnDockGeometry(geometry: Rect)
    | OnViewEvent(ev: ViewEventKind)
    | OnSignal(sig: Signal)
    | OnRestoreConfig(config: StoredConfig)

  /** Q_ASSERT_X in setMode (line 82): a real change of mode never goes to the sentinel. Setting
      the current mode again returns before the assertion (lines 79-80), even when it is None. */
  predicate Accepted(e: Engine, input: Input) {
    input.OnCall? && input.call.CallSetMode? ==> input.call.m != Visibility.None || input.call.m == e.mode
  }

  /** One setter call. */
  function Apply(e: Engine, ws: WindowSystem, view: View, call: Call): Engine
    requires call.CallSetMode? ==> call.m != Visibility.None || call.m == e.mode
  {
    match call
    case CallSetMode(m) => SetMode(e, ws, view, m)
    case CallSetRaiseOnDesktop(enable) => SetRaiseOnDesktop(e, enable)
    case CallSetRaiseOnActivity(enable) => SetRaiseOnActivity(e, enable)
    case CallSetIsHidden(hidden) => SetIsHidden(e, hidden)
    case CallSetBlockHiding(block) => SetBlockHiding(e, ws, view, block)
    case CallSetTimerShow(msec) => SetTimerShow(e, msec)
    case CallSetTimerHide(msec) => SetTimerHide(e, msec)
    case CallSetEnablePressure(enable) => SetEnablePressure(e, enable)
  }

  /** One timer or barrier firing. */
  function Expire(e: Engine, ws: WindowSystem, view: View, fire: Fire): Engine {
    match fire
    case ShowFired => ShowTimeout(e)
    case HideFired => HideTimeout(e)
    case CheckWindowsFired => CheckWindowsTimeout(e, ws)
    case TemporaryResetFired => TemporaryRaiseTimeout(e, ws, view)
    case ThresholdFired => PressureThreshold(e)
  }

  /** One event handled by the engine. */
  function Step(e: Engine, ws: WindowSystem, view: View, input: Input): Engine
    requires |e.connections| == 5 && Accepted(e, input)
  {
    match input
    case OnCall(call) => Apply(e, ws, view, call)
    case OnFire(fire) => Expire(e, ws, view, fire)
    case OnDockGeometry(geometry) => SetDockGeometry(e, view, geometry)
    case OnViewEvent(ev) => ViewEvent(e, ws, view, ev)
    case OnSignal(sig) => Deliver(e, ws, view, sig)
    case OnRestoreConfig(config) => RestoreConfig(e, config)
  }
}
