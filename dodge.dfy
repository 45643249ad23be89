/** What the dodge rules, the intersection test and the window registry guarantee. */
module DodgeProperties {
  import opened Geometry
  import opened Windows
  import opened VisibilityState
  import opened VisibilityRules
  import opened ModeProperties

  /** intersects (lines 461-466): a window covers the dock exactly when it is neither minimized
      nor shaded and some pixel lies both in the window and in the dock. */
  lemma IntersectsIffCovers(info: WindowInfo, dockGeometry: Rect)
    ensures Intersects(info, dockGeometry) <==>
      && !info.isMinimized && !info.isShaded
      && exists px, py :: info.geometry.Contains(px, py) && dockGeometry.Contains(px, py)
  {
    IntersectsIffSharedPixel(info.geometry, dockGeometry);
  }

  /** dodgeActive for an active window on the current desktop (lines 364-383): without a barrier
      and an owed hide the dock asks for nothing at once and debounces a show exactly when the
      window leaves it uncovered, a hide exactly when it covers it. */
  lemma DodgeActiveOutcome(e: Engine, ws: WindowSystem, wid: WId)
    requires !e.flags.raiseTemporarily && !e.flags.blockHiding && !e.flags.dragEnter && !e.flags.hideNow
    requires !e.settings.barrierArmed
    requires RequestInfo(ws, wid).valid && RequestInfo(ws, wid).isActive && IsOnCurrentDesktop(ws, wid)
    ensures var r := VisibilityRules.DodgeActive(e, ws, wid);
      && r.log == e.log && r.flags == e.flags
      && (r.timers.show.active <==> !Intersects(RequestInfo(ws, wid), e.dockGeometry))
      && (r.timers.hide.active <==> Intersects(RequestInfo(ws, wid), e.dockGeometry))
  {
    var info := RequestInfo(ws, wid);
    assert RaiseForDesktop(e, info) == e;
    assert Evaluated(ws, wid) == info;
  }

  /** dodgeActive decides on the queried window's desktop (line 381): an inactive window on
      another desktop that is not the desktop itself changes nothing, whatever the active window
      covers. */
  lemma DodgeActiveDesktopOfQueriedWindow(e: Engine, ws: WindowSystem, wid: WId)
    requires !e.flags.raiseTemporarily && RequestInfo(ws, wid).valid
    requires !RequestInfo(ws, wid).isActive && !RequestInfo(ws, wid).isPlasmaDesktop
    requires !IsOnCurrentDesktop(ws, wid)
    ensures VisibilityRules.DodgeActive(e, ws, wid) == e
  {
    assert RaiseForDesktop(e, RequestInfo(ws, wid)) == e;
  }

  /** dodgeMaximized for an active, unminimized window on the current desktop (lines 385-415): a
      horizontal dock debounces a hide exactly when the window fills the screen's height, a
      vertical one exactly when it fills its width. */
  lemma DodgeMaximizedOutcome(e: Engine, ws: WindowSystem, view: View, wid: WId)
    requires !e.flags.raiseTemporarily && !e.flags.blockHiding && !e.flags.dragEnter && !e.flags.hideNow
    requires !e.settings.barrierArmed
    requires RequestInfo(ws, wid).valid && RequestInfo(ws, wid).isActive && IsOnCurrentDesktop(ws, wid)
    requires !RequestInfo(ws, wid).isMinimized
    ensures var r := VisibilityRules.DodgeMaximized(e, ws, view, wid);
      var info := RequestInfo(ws, wid);
      && r.log == e.log && r.flags == e.flags
      && (r.timers.hide.active <==> if view.vertical then IsMaxHoriz(info, view) else IsMaxVert(info, view))
      && (r.timers.show.active <==> !r.timers.hide.active)
  {
    var info := RequestInfo(ws, wid);
    assert RaiseForDesktop(e, info) == e;
    assert Evaluated(ws, wid) == info;
  }

  /** checkAllWindows (lines 444-456): one tracked fullscreen window on the current desktop
      vetoes the raise, whatever the other windows are. */
  lemma FullscreenVetoesRaise(e: Engine, ws: WindowSystem, wid: WId)
    requires !e.flags.raiseTemporarily && wid in e.windows
    requires e.windows[wid].valid && e.windows[wid].isFullscreen && IsOnCurrentDesktop(ws, wid)
    ensures CheckAllWindows(e, ws) == RaiseDock(e, false)
  {
    assert Blocks(ws, wid, e.windows[wid], e.dockGeometry);
  }

  /** Which slots listen to the registry signals in DodgeAllWindows. */
  lemma RegistryListeners(e: Engine)
    requires Inv(e) && e.mode == Visibility.DodgeAllWindows
    ensures FirstListener(e.connections, WindowRemovedKind, 0) == 1
    ensures FirstListener(e.connections, WindowAddedKind, 0) == 2
  {
    assert e.connections[0] == ModeSlots(e.mode)[0];
    assert e.connections[1] == ModeSlots(e.mode)[1];
    assert e.connections[2] == ModeSlots(e.mode)[2];
  }

  /** In DodgeAllWindows a removed window loses its snapshot and a check of all windows is
      (re)scheduled (lines 166-170). */
  lemma WindowRemovedErases(e: Engine, ws: WindowSystem, view: View, wid: WId)
    requires Inv(e) && e.mode == Visibility.DodgeAllWindows
    ensures Deliver(e, ws, view, WindowRemoved(wid))
      == e.(windows := e.windows - {wid}, timers := e.timers.(checkWindows := e.timers.checkWindows.Start()))
  {
    RegistryListeners(e);
  }

  /** In DodgeAllWindows an added window gets a snapshot unless one is already tracked, and a
      check of all windows is (re)scheduled (lines 171-175). */
  lemma WindowAddedInserts(e: Engine, ws: WindowSystem, view: View, wid: WId)
    requires Inv(e) && e.mode == Visibility.DodgeAllWindows
    ensures var r := Deliver(e, ws, view, WindowAdded(wid));
      && r == e.(windows := r.windows, timers := e.timers.(checkWindows := e.timers.checkWindows.Start()))
      && r.windows.Keys == e.windows.Keys + {wid}
      && (wid in e.windows ==> r.windows == e.windows)
      && (wid !in e.windows ==> r.windows == e.windows[wid := RequestInfo(ws, wid)])
  {
    RegistryListeners(e);
  }

  /** Outside DodgeAllWindows nothing listens to the registry signals, so they change nothing. */
  lemma RegistryIgnoredElsewhere(e: Engine, ws: WindowSystem, view: View, sig: Signal)
    requires Inv(e) && e.mode != Visibility.DodgeAllWindows
    requires sig.WindowRemoved? || sig.WindowAdded?
    ensures Deliver(e, ws, view, sig) == e
  {
    forall i | 0 <= i < 5
      ensures !Listens(e.connections[i], KindOf(sig))
    {
      if i < 3 {
        assert e.connections[i] == ModeSlots(e.mode)[i];
      } else {
        assert e.connections[i] == e.connections[3..][i - 3];
      }
    }
  }

  /** Entering DodgeAllWindows (lines 159-162, 177) tracks every window the window system lists,
      keeps the snapshots already tracked, and schedules a check of all windows. */
  lemma EnteringDodgeAllWindowsTracksWindows(e: Engine, ws: WindowSystem, view: View)
    requires e.mode != Visibility.DodgeAllWindows
    ensures var r := SetMode(e, ws, view, Visibility.DodgeAllWindows);
      && r.windows.Keys == e.windows.Keys + set id | id in ws.windowIds
      && (forall id :: id in e.windows ==> r.windows[id] == e.windows[id])
      && (forall id :: id in r.windows && id !in e.windows ==> r.windows[id] == RequestInfo(ws, id))
      && r.timers.checkWindows.active
  {
    ChangeModeFrame(e, ws, view, Visibility.DodgeAllWindows);
    ChangeModeWiring(e, ws, view, Visibility.DodgeAllWindows);
  }
}
