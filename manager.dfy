/** VisibilityManagerPrivate as the object it is in the dock: the fields of
    app/visibilitymanager_p.h, updated in place by one method per member function, each proved
    to leave the object exactly as the matching rule of VisibilityRules says. */
module VisibilityManager {
  import opened Geometry
  import opened Windows
  import opened VisibilityState
  import Rules = VisibilityRules

  lemma EmptyWithoutMembers(s: set<WId>)
    requires forall id :: id !in s
    ensures s == {}
  {
    assert forall id :: id in s <==> id in {};
  }

  /** A registry that is not empty has an entry to visit next. */
  lemma NonEmptyHasElement(s: set<WId>)
    requires s != {}
    ensures exists id :: id in s
  {
    if forall id :: id !in s {
      EmptyWithoutMembers(s);
    }
  }

  class VisibilityManagerPrivate {
    var mode: Visibility
    /** std::array<QMetaObject::Connection, 5>. */
    const connections: array<Slot>
    /** The registry std::unordered_map<WId, WindowInfoWrap>. */
    var windows: map<WId, WindowInfo>
    var timerShow: Timer
    var timerHide: Timer
    var timerCheckWindows: Timer
    /** The single-shot reset QTimer::singleShot schedules in raiseDockTemporarily. */
    var temporaryReset: Timer
    var dockGeometry: Rect
    var isHidden: bool
    var pressureActive: bool
    /** EdgePressure::enabled(): whether the barrier is in place. */
    var barrierArmed: bool
    var dragEnter: bool
    var blockHiding: bool
    var containsMouse: bool
    var raiseTemporarily: bool
    var raiseOnDesktopChange: bool
    var raiseOnActivityChange: bool
    var hideNow: bool
    /** Everything emitted or asked of the window manager, the barrier and the configuration. */
    var log: seq<Event>

    ghost predicate Valid()
      reads this
    {
      connections.Length == 5
    }

    /** The connection handles, as a sequence. */
    function Slots(): seq<Slot>
      reads connections
    {
      connections[..]
    }

    /** The object's state as a value of the rules' Engine. */
    function Snapshot(): Engine
      reads this, connections
    {
      Engine(mode, Slots(), windows, dockGeometry,
             Timers(timerShow, timerHide, timerCheckWindows, temporaryReset),
             Flags(isHidden, blockHiding, dragEnter, containsMouse, raiseTemporarily, hideNow),
             Settings(pressureActive, barrierArmed, raiseOnDesktopChange, raiseOnActivityChange),
             log)
    }

    /** The constructor (lines 32-68): the header's initial values, the check timer at 350 ms,
        the dock registered with the window manager, then restoreConfig. */
    constructor (config: Rules.StoredConfig)
      ensures Valid() && fresh(connections)
      ensures Snapshot() == Rules.RestoreConfig(Initial(), config)
    {
      mode := Visibility.None;
      connections := new Slot[5](_ => Disconnected);
      windows := map[];
      timerShow := Timer(false, 0);
      timerHide := Timer(false, 0);
      timerCheckWindows := Timer(false, CheckWindowsInterval);
      temporaryReset := Timer(false, 0);
      dockGeometry := Rect(0, 0, 0, 0);
      isHidden := false;
      pressureActive := true;
      barrierArmed := false;
      dragEnter := false;
      blockHiding := false;
      containsMouse := false;
      raiseTemporarily := false;
      raiseOnDesktopChange := false;
      raiseOnActivityChange := false;
      hideNow := false;
      log := [SetDockExtraFlags, AddDock];
      new;
      assert connections[..] == AllDisconnected;
      assert Snapshot() == Initial();
      RestoreConfig(config);
    }

    /** Emit a signal, or call into the window manager, the barrier or the configuration. */
    method Emit(ev: Event)
      modifies this
      ensures Snapshot() == Rules.Emit(old(Snapshot()), ev)
    {
      log := log + [ev];
    }

    /** The raise branch of raiseDock (lines 283-290). */
    method RequestShow()
      modifies this
      ensures Snapshot() == Rules.RequestShow(old(Snapshot()))
    {
      timerHide := timerHide.Stop();
      if barrierArmed {
        if isHidden {
          Emit(MustBeShown);
        }
      } else if !timerShow.active {
        timerShow := timerShow.Start();
      }
    }

    /** An owed immediate hide paid (lines 294-296). */
    method PayOwedHide()
      modifies this
      ensures Snapshot() == Rules.Emit(old(Snapshot()).(flags := old(Snapshot()).flags.(hideNow := false)), MustBeHide)
    {
      hideNow := false;
      Emit(MustBeHide);
    }

    /** The hide branch of raiseDock (lines 292-298). */
    method RequestHide()
      modifies this
      ensures Snapshot() == Rules.RequestHide(old(Snapshot()))
    {
      timerShow := timerShow.Stop();
      if hideNow {
        PayOwedHide();
      } else if !timerHide.active {
        timerHide := timerHide.Start();
      }
    }

    /** raiseDock (lines 277-300). */
    method RaiseDock(raise: bool)
      modifies this
      ensures Snapshot() == Rules.RaiseDock(old(Snapshot()), raise)
    {
      if blockHiding {
        return;
      }
      if raise {
        RequestShow();
      } else if !dragEnter {
        RequestHide();
      }
    }

    /** timerHide->stop() and timerShow->stop(). */
    method StopDebounce()
      modifies this
      ensures Snapshot() == old(Snapshot()).(timers := old(Snapshot()).timers.(hide := old(timerHide).Stop(),
                                                                               show := old(timerShow).Stop()))
    {
      timerHide := timerHide.Stop();
      timerShow := timerShow.Stop();
    }

    /** raiseDockTemporarily (lines 302-319). */
    method RaiseDockTemporarily()
      modifies this
      ensures Snapshot() == Rules.RaiseDockTemporarily(old(Snapshot()))
    {
      if raiseTemporarily {
        return;
      }
      raiseTemporarily := true;
      StopDebounce();
      if isHidden {
        Emit(MustBeShown);
      }
      temporaryReset := Timer(true, Rules.TemporaryRaiseDelay(timerHide.interval));
    }

    /** The end of the override (lines 315-316): no longer raised, an immediate hide owed. */
    method EndTemporaryRaise()
      modifies this
      ensures Snapshot() == old(Snapshot()).(flags := old(Snapshot()).flags.(raiseTemporarily := false, hideNow := true))
    {
      raiseTemporarily := false;
      hideNow := true;
    }

    /** The reset scheduled by raiseDockTemporarily firing (lines 314-318). */
    method TemporaryRaiseTimeout(ws: WindowSystem, view: View)
      modifies this
      ensures Snapshot() == Rules.TemporaryRaiseTimeout(old(Snapshot()), ws, view)
    {
      if !temporaryReset.active {
        return;
      }
      temporaryReset := temporaryReset.Stop();
      EndTemporaryRaise();
      UpdateHiddenState(ws, view);
    }

    /** updateHiddenState (lines 321-346). */
    method UpdateHiddenState(ws: WindowSystem, view: View)
      modifies this
      ensures Snapshot() == Rules.UpdateHiddenState(old(Snapshot()), ws, view)
    {
      if dragEnter {
        return;
      }
      match mode {
        case AutoHide => RaiseDock(containsMouse);
        case DodgeActive => DodgeActive(ws, ws.activeWindow);
        case DodgeMaximized => DodgeMaximized(ws, view, ws.activeWindow);
        case DodgeAllWindows => DodgeWindows(ws, ws.activeWindow);
        case _ =>
      }
    }

    /** The raise dodgeActive and dodgeMaximized ask for when the queried, inactive window is the
        desktop (lines 374-376, 395-397). */
    method RaiseForDesktop(info: WindowInfo)
      modifies this
      ensures Snapshot() == Rules.RaiseForDesktop(old(Snapshot()), info)
    {
      if !info.isActive && info.isPlasmaDesktop {
        RaiseDock(true);
      }
    }

    /** dodgeActive (lines 364-383). */
    method DodgeActive(ws: WindowSystem, wid: WId)
      modifies this
      ensures Snapshot() == Rules.DodgeActive(old(Snapshot()), ws, wid)
    {
      if raiseTemporarily {
        return;
      }
      var winfo := RequestInfo(ws, wid);
      if !winfo.valid {
        return;
      }
      RaiseForDesktop(winfo);
      if !winfo.isActive {
        winfo := RequestInfo(ws, ws.activeWindow);
      }
      if IsOnCurrentDesktop(ws, wid) {
        RaiseDock(!Rules.Intersects(winfo, dockGeometry));
      }
    }

    /** dodgeMaximized (lines 385-415). */
    method DodgeMaximized(ws: WindowSystem, view: View, wid: WId)
      modifies this
      ensures Snapshot() == Rules.DodgeMaximized(old(Snapshot()), ws, view, wid)
    {
      if raiseTemporarily {
        return;
      }
      var winfo := RequestInfo(ws, wid);
      if !winfo.valid {
        return;
      }
      RaiseForDesktop(winfo);
      if !winfo.isActive {
        winfo := RequestInfo(ws, ws.activeWindow);
      }
      var isMaxVert := winfo.isMaxVert || (view.screen.Screen? && view.screen.size.height <= winfo.geometry.height);
      var isMaxHoriz := winfo.isMaxHoriz || (view.screen.Screen? && view.screen.size.width <= winfo.geometry.width);
      if IsOnCurrentDesktop(ws, wid) && !winfo.isMinimized {
        RaiseDock(if view.vertical then !isMaxHoriz else !isMaxVert);
      }
    }

    /** dodgeWindows (lines 417-435). */
    method DodgeWindows(ws: WindowSystem, wid: WId)
      modifies this
      ensures Snapshot() == Rules.DodgeWindows(old(Snapshot()), ws, wid)
    {
      if raiseTemporarily {
        return;
      }
      if wid !in windows {
        return;
      }
      windows := windows[wid := RequestInfo(ws, wid)];
      var winfo := windows[wid];
      if !winfo.valid || !IsOnCurrentDesktop(ws, wid) {
        return;
      }
      if Rules.Intersects(winfo, dockGeometry) {
        RaiseDock(false);
      } else {
        timerCheckWindows := timerCheckWindows.Start();
      }
    }

    /** The scan of checkAllWindows (lines 442-456): visit the registry entries one by one and
        stop at the first one that vetoes the raise. */
    method ScanWindows(ws: WindowSystem) returns (raise: bool)
      ensures raise <==> Rules.NoWindowBlocks(windows, ws, dockGeometry)
    {
      raise := true;
      var pending := windows.Keys;
      while pending != {}
        invariant pending <= windows.Keys
        invariant forall id | id in windows && id !in pending :: !Rules.Blocks(ws, id, windows[id], dockGeometry)
        decreases |pending|
      {
        NonEmptyHasElement(pending);
        var id :| id in pending;
        var winfo := windows[id];
        pending := pending - {id};
        if !winfo.valid || !IsOnCurrentDesktop(ws, id) {
          continue;
        }
        if winfo.isFullscreen {
          raise := false;
          break;
        } else if Rules.Intersects(winfo, dockGeometry) {
          raise := false;
          break;
        }
      }
    }

    /** checkAllWindows (lines 437-459), also the timerCheckWindows timeout (line 45). */
    method CheckAllWindows(ws: WindowSystem)
      modifies this
      ensures Snapshot() == Rules.CheckAllWindows(old(Snapshot()), ws)
    {
      if raiseTemporarily {
        return;
      }
      var raise := ScanWindows(ws);
      RaiseDock(raise);
    }

    /** setIsHidden (lines 211-223). */
    method SetIsHidden(hidden: bool)
      modifies this
      ensures Snapshot() == Rules.SetIsHidden(old(Snapshot()), hidden)
    {
      if isHidden == hidden {
        return;
      }
      if blockHiding {
        return;
      }
      isHidden := hidden;
      Emit(IsHiddenChanged);
    }

    /** The blocking branch of setBlockHiding (lines 233-240). */
    method CancelHiding()
      modifies this
      ensures Snapshot() == Rules.CancelHiding(old(Snapshot()))
    {
      timerHide := timerHide.Stop();
      if isHidden {
        isHidden := false;
        Emit(IsHiddenChanged);
        Emit(MustBeShown);
      }
    }

    /** setBlockHiding (lines 225-246). */
    method SetBlockHiding(ws: WindowSystem, view: View, block: bool)
      modifies this
      ensures Snapshot() == Rules.SetBlockHiding(old(Snapshot()), ws, view, block)
    {
      if blockHiding == block {
        return;
      }
      blockHiding := block;
      if blockHiding {
        CancelHiding();
      } else {
        UpdateHiddenState(ws, view);
      }
      Emit(BlockHidingChanged);
    }

    /** setRaiseOnDesktop (lines 193-200). */
    method SetRaiseOnDesktop(enable: bool)
      modifies this
      ensures Snapshot() == Rules.SetRaiseOnDesktop(old(Snapshot()), enable)
    {
      if enable == raiseOnDesktopChange {
        return;
      }
      raiseOnDesktopChange := enable;
      Emit(RaiseOnDesktopChanged);
    }

    /** setRaiseOnActivity (lines 202-209). */
    method SetRaiseOnActivity(enable: bool)
      modifies this
      ensures Snapshot() == Rules.SetRaiseOnActivity(old(Snapshot()), enable)
    {
      if enable == raiseOnActivityChange {
        return;
      }
      raiseOnActivityChange := enable;
      Emit(RaiseOnActivityChanged);
    }

    /** setTimerShow (lines 248-252). */
    method SetTimerShow(msec: Int32)
      modifies this
      ensures Snapshot() == Rules.SetTimerShow(old(Snapshot()), msec)
    {
      timerShow := timerShow.(interval := msec);
      Emit(TimerShowChanged);
    }

    /** setTimerHide (lines 254-258). */
    method SetTimerHide(msec: Int32)
      modifies this
      ensures Snapshot() == Rules.SetTimerHide(old(Snapshot()), msec)
    {
      timerHide := timerHide.(interval := msec);
      Emit(TimerHideChanged);
    }

    /** edgePressure.updateBarrier(). */
    method ArmBarrier()
      modifies this
      ensures Snapshot() == Rules.ArmBarrier(old(Snapshot()))
    {
      barrierArmed := true;
      Emit(UpdateBarrier);
    }

    /** edgePressure.deleteBarrier(). */
    method DisarmBarrier()
      modifies this
      ensures Snapshot() == Rules.DisarmBarrier(old(Snapshot()))
    {
      barrierArmed := false;
      Emit(DeleteBarrier);
    }

    /** setEnablePressure (lines 260-275). */
    method SetEnablePressure(enable: bool)
      modifies this
      ensures Snapshot() == Rules.SetEnablePressure(old(Snapshot()), enable)
    {
      pressureActive := enable;
      if mode == Visibility.AlwaysVisible || mode == Visibility.WindowsGoBelow {
        DisarmBarrier();
      } else {
        if !pressureActive {
          DisarmBarrier();
        } else {
          ArmBarrier();
        }
        Emit(EdgePressureChanged);
      }
    }

    /** setDockGeometry (lines 348-362). */
    method SetDockGeometry(view: View, geometry: Rect)
      modifies this
      ensures Snapshot() == Rules.SetDockGeometry(old(Snapshot()), view, geometry)
    {
      if dockGeometry == geometry {
        return;
      }
      dockGeometry := geometry;
      if mode == Visibility.AlwaysVisible && !view.userConfiguring && view.screen.Screen? {
        Emit(SetDockStruts(dockGeometry));
      }
      if pressureActive && mode != Visibility.AlwaysVisible && mode != Visibility.WindowsGoBelow {
        ArmBarrier();
      }
    }

    /** The loop of setMode that disconnects every slot (lines 85-87). */
    method DisconnectAll()
      requires Valid()
      modifies connections
      ensures connections[..] == AllDisconnected
    {
      for i := 0 to 5
        invariant forall j :: 0 <= j < i ==> connections[j] == Disconnected
      {
        connections[i] := Disconnected;
      }
    }

    /** The desktop and activity subscriptions of setMode (lines 92-103). */
    method SubscribeDesktop()
      requires Valid()
      modifies connections
      ensures Slots() == old(Slots())[3 := Connected(DesktopChangedRaise)][4 := Connected(ActivityChangedRaise)]
    {
      connections[3] := Connected(DesktopChangedRaise);
      connections[4] := Connected(ActivityChangedRaise);
    }

    /** The three timers stopped and the new mode stored (lines 105-108). */
    method StopTimers(m: Visibility)
      modifies this
      ensures Snapshot() == old(Snapshot()).(timers := old(Snapshot()).timers.(show := old(timerShow).Stop(),
                                               hide := old(timerHide).Stop(), checkWindows := old(timerCheckWindows).Stop()),
                                             mode := m)
    {
      StopDebounce();
      timerCheckWindows := timerCheckWindows.Stop();
      mode := m;
    }

    /** setMode up to the switch (lines 84-111). */
    method TearDown(m: Visibility)
      requires Valid()
      modifies this, connections
      ensures Snapshot() == Rules.TearDown(old(Snapshot()), m)
    {
      DisconnectAll();
      if mode == Visibility.AlwaysVisible {
        Emit(RemoveDockStruts);
      } else {
        SubscribeDesktop();
      }
      StopTimers(m);
      SetEnablePressure(pressureActive);
    }

    /** The loop of the DodgeAllWindows case (lines 160-162): insert a snapshot of every listed
        window, keeping the entries already there. */
    method SnapshotAll(ws: WindowSystem) returns (w: map<WId, WindowInfo>)
      ensures w == Rules.InsertAll(windows, ws, ws.windowIds)
    {
      w := windows;
      for i := 0 to |ws.windowIds|
        invariant w == Rules.InsertAll(windows, ws, ws.windowIds[..i])
      {
        var wid := ws.windowIds[i];
        if wid !in w {
          w := w[wid := RequestInfo(ws, wid)];
        }
        assert ws.windowIds[..i + 1][..i] == ws.windowIds[..i];
      }
      assert ws.windowIds[..|ws.windowIds|] == ws.windowIds;
    }

    /** Slots 0-2 connected to the given handlers (lines 119-128, 140-143, 150-153, 164-175). */
    method Connect(slots: seq<Slot>)
      requires Valid() && |slots| == 3
      modifies connections
      ensures Slots() == Rules.Connect(old(Slots()), slots)
    {
      connections[0] := slots[0];
      connections[1] := slots[1];
      connections[2] := slots[2];
    }

    /** The AlwaysVisible case of setMode (lines 114-132). */
    method EnterAlwaysVisible(view: View)
      requires Valid() && mode == Visibility.AlwaysVisible
      modifies this, connections
      ensures Snapshot() == Rules.EnterAlwaysVisible(old(Snapshot()), view)
    {
      if !view.userConfiguring && view.screen.Screen? {
        Emit(SetDockStruts(dockGeometry));
      }
      Connect(ModeSlots(Visibility.AlwaysVisible));
      RaiseDock(true);
    }

    /** The DodgeAllWindows case of setMode (lines 159-179). */
    method EnterDodgeAllWindows(ws: WindowSystem)
      requires Valid()
      modifies this, connections
      ensures Snapshot() == Rules.EnterDodgeAllWindows(old(Snapshot()), ws)
    {
      windows := SnapshotAll(ws);
      Connect(ModeSlots(Visibility.DodgeAllWindows));
      timerCheckWindows := timerCheckWindows.Start();
    }

    /** The switch on the new mode in setMode (lines 113-186). */
    method EnterMode(ws: WindowSystem, view: View)
      requires Valid() && connections[..3] == [Disconnected, Disconnected, Disconnected]
      modifies this, connections
      ensures Snapshot() == Rules.EnterMode(old(Snapshot()), ws, view)
    {
      match mode {
        case AlwaysVisible => EnterAlwaysVisible(view);
        case AutoHide => RaiseDock(containsMouse);
        case DodgeActive =>
          Connect(ModeSlots(Visibility.DodgeActive));
          DodgeActive(ws, ws.activeWindow);
        case DodgeMaximized =>
          Connect(ModeSlots(Visibility.DodgeMaximized));
          DodgeMaximized(ws, view, ws.activeWindow);
        case DodgeAllWindows => EnterDodgeAllWindows(ws);
        case WindowsGoBelow => RaiseDock(true);
        case None =>
      }
    }

    /** setMode (lines 77-191). */
    method SetMode(ws: WindowSystem, view: View, m: Visibility)
      requires Valid() && (m != Visibility.None || m == mode)
      modifies this, connections
      ensures Snapshot() == Rules.SetMode(old(Snapshot()), ws, view, m)
    {
      if mode == m {
        return;
      }
      TearDown(m);
      EnterMode(ws, view);
      Emit(WriteVisibility(m));
      Emit(ModeChanged);
    }

    /** The lambda or slot h, run for signal sig (lines 92-103, 119-128, 140-175). */
    method Handle(ws: WindowSystem, view: View, h: Handler, sig: Signal)
      requires Source(h) == KindOf(sig)
      modifies this
      ensures Snapshot() == Rules.Handle(old(Snapshot()), ws, view, h, sig)
    {
      match h {
        case RemoveStrutsWhileConfiguring =>
          if view.userConfiguring {
            Emit(RemoveDockStruts);
          }
        case SetStrutsAfterConfiguring =>
          if !sig.configuring && view.screen.Screen? {
            Emit(SetDockStruts(dockGeometry));
          }
        case ActiveWindowDodgeActive => DodgeActive(ws, sig.wid);
        case WindowChangedDodgeActive => DodgeActive(ws, sig.wid);
        case ActiveWindowDodgeMaximized => DodgeMaximized(ws, view, sig.wid);
        case WindowChangedDodgeMaximized => DodgeMaximized(ws, view, sig.wid);
        case WindowChangedDodgeWindows => DodgeWindows(ws, sig.wid);
        case WindowRemovedErase => WindowRemoved(sig.wid);
        case WindowAddedInsert => WindowAdded(ws, sig.wid);
        case DesktopChangedRaise => DesktopChanged();
        case ActivityChangedRaise => ActivityChanged(ws, view);
      }
    }

    /** The windowRemoved lambda of DodgeAllWindows (lines 166-170). */
    method WindowRemoved(wid: WId)
      modifies this
      ensures Snapshot() == old(Snapshot()).(windows := old(windows) - {wid},
                                             timers := old(Snapshot()).timers.(checkWindows := old(timerCheckWindows).Start()))
    {
      windows := windows - {wid};
      timerCheckWindows := timerCheckWindows.Start();
    }

    /** The windowAdded lambda of DodgeAllWindows (lines 171-175). */
    method WindowAdded(ws: WindowSystem, wid: WId)
      modifies this
      ensures Snapshot() == old(Snapshot()).(windows := Rules.Insert(old(windows), ws, wid),
                                             timers := old(Snapshot()).timers.(checkWindows := old(timerCheckWindows).Start()))
    {
      if wid !in windows {
        windows := windows[wid := RequestInfo(ws, wid)];
      }
      timerCheckWindows := timerCheckWindows.Start();
    }

    /** The currentDesktopChanged lambda (lines 92-96). */
    method DesktopChanged()
      modifies this
      ensures Snapshot() == if old(raiseOnDesktopChange) then Rules.RaiseDockTemporarily(old(Snapshot())) else old(Snapshot())
    {
      if raiseOnDesktopChange {
        RaiseDockTemporarily();
      }
    }

    /** The currentActivityChanged lambda (lines 97-103). */
    method ActivityChanged(ws: WindowSystem, view: View)
      modifies this
      ensures Snapshot() == if old(raiseOnActivityChange) then Rules.RaiseDockTemporarily(old(Snapshot()))
                            else Rules.UpdateHiddenState(old(Snapshot()), ws, view)
    {
      if raiseOnActivityChange {
        RaiseDockTemporarily();
      } else {
        UpdateHiddenState(ws, view);
      }
    }

    /** A signal reaching the slot connected to it, if any. */
    method Deliver(ws: WindowSystem, view: View, sig: Signal)
      requires Valid()
      modifies this
      ensures Snapshot() == Rules.Deliver(old(Snapshot()), ws, view, sig)
    {
      var k := Rules.FirstListener(connections[..], KindOf(sig), 0);
      if k >= 0 {
        Handle(ws, view, connections[k].handler, sig);
      }
    }

    /** The QEvent::Enter case of viewEventManager (lines 532-544). */
    method MouseEntered(ws: WindowSystem, view: View)
      modifies this
      ensures Snapshot() == Rules.ViewEvent(old(Snapshot()), ws, view, Rules.Enter)
    {
      if containsMouse {
        return;
      }
      containsMouse := true;
      Emit(ContainsMouseChanged);
      if mode != Visibility.AlwaysVisible && mode != Visibility.WindowsGoBelow {
        if !barrierArmed {
          RaiseDock(true);
        }
      }
    }

    /** The QEvent::Leave case of viewEventManager (lines 546-553). */
    method MouseLeft(ws: WindowSystem, view: View)
      modifies this
      ensures Snapshot() == Rules.ViewEvent(old(Snapshot()), ws, view, Rules.Leave)
    {
      if !containsMouse {
        return;
      }
      ghost var e := Snapshot();
      containsMouse := false;
      Emit(ContainsMouseChanged);
      assert Snapshot() == e.(flags := e.flags.(containsMouse := false), log := e.log + [ContainsMouseChanged]);
      UpdateHiddenState(ws, view);
    }

    /** The QEvent::DragEnter case of viewEventManager (lines 555-561). */
    method DragEntered(ws: WindowSystem, view: View)
      modifies this
      ensures Snapshot() == Rules.ViewEvent(old(Snapshot()), ws, view, Rules.DragEnter)
    {
      dragEnter := true;
      if isHidden {
        Emit(MustBeShown);
      }
    }

    /** The QEvent::DragLeave and QEvent::Drop cases of viewEventManager (lines 563-567). */
    method DragEnded(ws: WindowSystem, view: View)
      modifies this
      ensures Snapshot() == Rules.ViewEvent(old(Snapshot()), ws, view, Rules.DragLeave)
      ensures Snapshot() == Rules.ViewEvent(old(Snapshot()), ws, view, Rules.Drop)
    {
      ghost var e := Snapshot();
      dragEnter := false;
      assert Snapshot() == e.(flags := e.flags.(dragEnter := false));
      UpdateHiddenState(ws, view);
    }

    /** viewEventManager (lines 529-576). */
    method ViewEventManager(ws: WindowSystem, view: View, ev: Rules.ViewEventKind)
      modifies this
      ensures Snapshot() == Rules.ViewEvent(old(Snapshot()), ws, view, ev)
    {
      match ev {
        case Enter => MouseEntered(ws, view);
        case Leave => MouseLeft(ws, view);
        case DragEnter => DragEntered(ws, view);
        case DragLeave => DragEnded(ws, view);
        case Drop => DragEnded(ws, view);
        case Show =>
          Emit(SetDockExtraFlags);
        case OtherEvent =>
      }
    }

    /** The timerShow timeout lambda (lines 46-51). */
    method ShowTimeout()
      modifies this
      ensures Snapshot() == Rules.ShowTimeout(old(Snapshot()))
    {
      if !timerShow.active {
        return;
      }
      timerShow := timerShow.Stop();
      if isHidden {
        Emit(MustBeShown);
      }
    }

    /** The timerHide timeout lambda (lines 52-57). */
    method HideTimeout()
      modifies this
      ensures Snapshot() == Rules.HideTimeout(old(Snapshot()))
    {
      if !timerHide.active {
        return;
      }
      timerHide := timerHide.Stop();
      if !blockHiding && !isHidden && !dragEnter {
        Emit(MustBeHide);
      }
    }

    /** The timerCheckWindows timeout (line 45). */
    method CheckWindowsTimeout(ws: WindowSystem)
      modifies this
      ensures Snapshot() == Rules.CheckWindowsTimeout(old(Snapshot()), ws)
    {
      if !timerCheckWindows.active {
        return;
      }
      timerCheckWindows := timerCheckWindows.Stop();
      CheckAllWindows(ws);
    }

    /** The EdgePressure::threshold lambda (lines 58-63). */
    method PressureThreshold()
      modifies this
      ensures Snapshot() == Rules.PressureThreshold(old(Snapshot()))
    {
      if isHidden {
        Emit(MustBeShown);
      }
    }

    /** saveConfig (lines 468-482): the entries written to the containment's configuration. */
    method SaveConfig(config: Rules.StoredConfig) returns (saved: Rules.StoredConfig)
      ensures saved == Rules.SaveConfig(Snapshot(), config)
    {
      saved := config.(timerShow := Rules.Stored(timerShow.interval),
                       timerHide := Rules.Stored(timerHide.interval),
                       raiseOnDesktopChange := Rules.Stored(raiseOnDesktopChange),
                       raiseOnActivityChange := Rules.Stored(raiseOnActivityChange),
                       edgePressure := Rules.Stored(pressureActive));
    }

    /** The settings part of restoreConfig (lines 484-497). */
    method RestoreConfig(config: Rules.StoredConfig)
      modifies this
      ensures Snapshot() == Rules.RestoreConfig(old(Snapshot()), config)
    {
      ghost var e := Snapshot();
      timerShow := timerShow.(interval := config.timerShow.ReadOr(200));
      timerHide := timerHide.(interval := config.timerHide.ReadOr(700));
      Emit(TimerShowChanged);
      Emit(TimerHideChanged);
      assert Snapshot() == Rules.Emit(Rules.Emit(
        e.(timers := e.timers.(show := e.timers.show.(interval := config.timerShow.ReadOr(200)),
                               hide := e.timers.hide.(interval := config.timerHide.ReadOr(700)))),
        TimerShowChanged), TimerHideChanged);
      SetRaiseOnDesktop(config.raiseOnDesktopChange.ReadOr(false));
      SetRaiseOnActivity(config.raiseOnActivityChange.ReadOr(false));
      SetEnablePressure(true);
    }
  }
}
