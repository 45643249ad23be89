/** What a change of visibility mode does to the subscriptions, the timers and the log. */
module ModeProperties {
  import opened Geometry
  import opened Windows
  import opened VisibilityState
  import opened VisibilityRules

  /** A mode change leaves the connections as the invariant describes them. */
  lemma WiringSatisfiesInv(oldMode: Visibility, m: Visibility)
    requires m != Visibility.None
    ensures Wiring(oldMode, m)[..3] == ModeSlots(m)
    ensures Wiring(oldMode, m)[3..] == DesktopSlots(oldMode != Visibility.AlwaysVisible)
  {
    assert |ModeSlots(m)| == 3;
  }

  /** How a real mode change leaves the subscriptions and timers (lines 85-111, 113-186): only
      the new mode's subscriptions in slots 0-2, the desktop and activity subscriptions exactly
      when the old mode was not AlwaysVisible, and the check timer pending exactly when entering
      DodgeAllWindows. */
  lemma ChangeModeWiring(e: Engine, ws: WindowSystem, view: View, m: Visibility)
    ensures var r := ChangeMode(e, ws, view, m);
      && r.connections == Wiring(e.mode, m)
      && (r.timers.checkWindows.active <==> m == Visibility.DodgeAllWindows)
      && r.timers.temporaryReset == e.timers.temporaryReset
      && r.timers.show.interval == e.timers.show.interval && r.timers.hide.interval == e.timers.hide.interval
      && r.timers.checkWindows.interval == e.timers.checkWindows.interval
  {
    var t := TearDown(e, m);
    assert ChangeMode(e, ws, view, m) == EnterMode(t, ws, view);
  }

  /** What a real mode change keeps: the flags but an owed hide, the settings, and the barrier
      armed exactly when pressure is on and the new mode has a barrier. */
  lemma ChangeModeFrame(e: Engine, ws: WindowSystem, view: View, m: Visibility)
    ensures var r := ChangeMode(e, ws, view, m);
      && r.flags == e.flags.(hideNow := r.flags.hideNow)
      && r.settings == e.settings.(barrierArmed := r.settings.barrierArmed)
      && (r.settings.barrierArmed <==> e.settings.pressureActive && !WithoutPressure(m))
      && (m == Visibility.DodgeAllWindows ==> r.windows == InsertAll(e.windows, ws, ws.windowIds))
      && (m != Visibility.DodgeAllWindows ==> r.windows == e.windows)
  {
    var t := TearDown(e, m);
    assert ChangeMode(e, ws, view, m) == EnterMode(t, ws, view);
  }

  /** The events of a real mode change before the final write: the teardown's, then only struts
      placed and show/hide intents, and no intents at all while hiding is blocked. */
  lemma ChangeModeLog(e: Engine, ws: WindowSystem, view: View, m: Visibility)
    ensures var t := TearDown(e, m);
      var r := ChangeMode(e, ws, view, m);
      && t.log <= r.log
      && EntryEvents(r.log[|t.log|..])
      && (e.flags.blockHiding ==> NoIntents(r.log[|t.log|..]))
  {
    var t := TearDown(e, m);
    assert ChangeMode(e, ws, view, m) == EnterMode(t, ws, view);
  }

  /** The events setMode emits before the switch include no show or hide request. */
  lemma TearDownEventsNoIntents(oldMode: Visibility, m: Visibility, pressure: bool)
    ensures NoIntents(TearDownEvents(oldMode, m, pressure))
  {
  }

  /** Splitting a log extension at a known prefix. */
  lemma LogSplit(l0: seq<Event>, head: seq<Event>, l2: seq<Event>, tail: seq<Event>)
    requires l0 + head <= l2
    ensures l0 <= l2 + tail
    ensures (l2 + tail)[|l0|..] == head + l2[|l0 + head|..] + tail
  {
  }

  /** The order facts of setMode's events, for any events the new mode's entry emits. */
  lemma ModeChangeEventsOrder(oldMode: Visibility, m: Visibility, pressure: bool, middle: seq<Event>)
    requires EntryEvents(middle)
    ensures var events := TearDownEvents(oldMode, m, pressure) + middle + [WriteVisibility(m), ModeChanged];
      && |events| >= 3
      && (oldMode == Visibility.AlwaysVisible ==> events[0] == RemoveDockStruts)
      && (forall i | 0 <= i < |events| && events[i] == RemoveDockStruts :: i == 0 && oldMode == Visibility.AlwaysVisible)
      && (forall i | 0 <= i < |events| - 1 :: events[i] != ModeChanged)
      && events[|events| - 2..] == [WriteVisibility(m), ModeChanged]
  {
    var head := TearDownEvents(oldMode, m, pressure);
    var events := head + middle + [WriteVisibility(m), ModeChanged];
    forall i | |head| <= i < |head| + |middle|
      ensures events[i] == middle[i - |head|]
    {
    }
  }

  /** The order of a real mode change (lines 85-111, 188-190): struts removed first, and only,
      when leaving AlwaysVisible; the configuration written and modeChanged emitted last, once. */
  lemma SetModeOrder(e: Engine, ws: WindowSystem, view: View, m: Visibility)
    requires m != Visibility.None && m != e.mode
    ensures var r := SetMode(e, ws, view, m);
      && e.log <= r.log
      && var events := r.log[|e.log|..];
      && |events| >= 3
      && (e.mode == Visibility.AlwaysVisible ==> events[0] == RemoveDockStruts)
      && (forall i | 0 <= i < |events| && events[i] == RemoveDockStruts :: i == 0 && e.mode == Visibility.AlwaysVisible)
      && (forall i | 0 <= i < |events| - 1 :: events[i] != ModeChanged)
      && events[|events| - 2..] == [WriteVisibility(m), ModeChanged]
  {
    var t := TearDown(e, m);
    var c := ChangeMode(e, ws, view, m);
    ChangeModeLog(e, ws, view, m);
    var head := TearDownEvents(e.mode, m, e.settings.pressureActive);
    LogSplit(e.log, head, c.log, [WriteVisibility(m), ModeChanged]);
    ModeChangeEventsOrder(e.mode, m, e.settings.pressureActive, c.log[|t.log|..]);
  }

  /** Which slots listen to the desktop and activity signals after a mode change. */
  lemma WiringListeners(oldMode: Visibility, m: Visibility)
    ensures FirstListener(Wiring(oldMode, m), CurrentDesktopChangedKind, 0) >= 0 <==> oldMode != Visibility.AlwaysVisible
    ensures FirstListener(Wiring(oldMode, m), CurrentActivityChangedKind, 0) >= 0 <==> oldMode != Visibility.AlwaysVisible
  {
    var c := Wiring(oldMode, m);
    assert c[3] == (if oldMode != Visibility.AlwaysVisible then Connected(DesktopChangedRaise) else Disconnected);
    assert c[4] == (if oldMode != Visibility.AlwaysVisible then Connected(ActivityChangedRaise) else Disconnected);
    forall i | 0 <= i < 3
      ensures !Listens(c[i], CurrentDesktopChangedKind) && !Listens(c[i], CurrentActivityChangedKind)
    {
      assert c[i] == ModeSlots(m)[i];
    }

  }

  /** The desktop and activity subscriptions after a real mode change exist exactly when the old
      mode was not AlwaysVisible (lines 89-104), whatever the new mode is. */
  lemma DesktopSubscriptionFollowsOldMode(e: Engine, ws: WindowSystem, view: View, m: Visibility)
    requires m != Visibility.None && m != e.mode
    ensures var r := SetMode(e, ws, view, m);
      && (FirstListener(r.connections, CurrentDesktopChangedKind, 0) >= 0 <==> e.mode != Visibility.AlwaysVisible)
      && (FirstListener(r.connections, CurrentActivityChangedKind, 0) >= 0 <==> e.mode != Visibility.AlwaysVisible)
  {
    ChangeModeWiring(e, ws, view, m);
    assert SetMode(e, ws, view, m).connections == Wiring(e.mode, m);
    WiringListeners(e.mode, m);
  }

  /** Once the dock has left AlwaysVisible, a change of virtual desktop has no effect at all,
      even with raiseOnDesktopChange set. */
  lemma LeftAlwaysVisibleIgnoresDesktopChange(e: Engine, ws: WindowSystem, view: View, m: Visibility,
                                              ws2: WindowSystem, view2: View)
    requires e.mode == Visibility.AlwaysVisible && m != Visibility.None && m != Visibility.AlwaysVisible
    ensures var r := SetMode(e, ws, view, m);
      Deliver(r, ws2, view2, CurrentDesktopChanged) == r
  {
    SetModeWiring(e, ws, view, m);
    Unheard(SetMode(e, ws, view, m), ws2, view2, m);
  }

  /** The connections a real mode change leaves behind. */
  lemma SetModeWiring(e: Engine, ws: WindowSystem, view: View, m: Visibility)
    requires m != Visibility.None && m != e.mode
    ensures SetMode(e, ws, view, m).connections == Wiring(e.mode, m)
  {
    ChangeModeWiring(e, ws, view, m);
  }

  /** With the wiring left by leaving AlwaysVisible, a desktop change reaches no slot. */
  lemma Unheard(e: Engine, ws: WindowSystem, view: View, m: Visibility)
    requires e.connections == Wiring(Visibility.AlwaysVisible, m)
    ensures Deliver(e, ws, view, CurrentDesktopChanged) == e
  {
    WiringListeners(Visibility.AlwaysVisible, m);
  }

  /** Between events, every signal reaches at most one subscription. */
  lemma ListenersUnique(e: Engine, kind: SignalKind)
    requires Inv(e)
    ensures forall i, j | 0 <= i < j < |e.connections| :: !(Listens(e.connections[i], kind) && Listens(e.connections[j], kind))
  {
    var c := e.connections;
    assert c[0] == ModeSlots(e.mode)[0] && c[1] == ModeSlots(e.mode)[1] && c[2] == ModeSlots(e.mode)[2];
    assert c[3] == c[3..][0] && c[4] == c[3..][1];
  }
}
