/** What the visibility engine guarantees, stated over the rules of VisibilityRules. */
module VisibilityProperties {
  import opened Geometry
  import opened Windows
  import opened VisibilityState
  import opened VisibilityRules
  import opened ModeProperties

  /** The engine starts in a state the invariant describes. */
  lemma InitialSatisfiesInv()
    ensures Inv(Initial())
  {
    assert Initial().connections[..3] == ModeSlots(Visibility.None);
  }

  /** A real mode change keeps the invariant. */
  lemma SetModePreservesInv(e: Engine, ws: WindowSystem, view: View, m: Visibility)
    requires Inv(e) && (m != Visibility.None || m == e.mode)
    ensures Inv(SetMode(e, ws, view, m))
  {
    if m != e.mode {
      ChangeModeWiring(e, ws, view, m);
      ChangeModeFrame(e, ws, view, m);
      WiringSatisfiesInv(e.mode, m);
    }
  }

  lemma SetBlockHidingPreservesInv(e: Engine, ws: WindowSystem, view: View, block: bool)
    requires Inv(e)
    ensures Inv(SetBlockHiding(e, ws, view, block))
  {
  }

  lemma ViewEventPreservesInv(e: Engine, ws: WindowSystem, view: View, ev: ViewEventKind)
    requires Inv(e)
    ensures Inv(ViewEvent(e, ws, view, ev))
  {
    if ev == Enter && !e.flags.containsMouse {
      var e1 := e.(flags := e.flags.(containsMouse := true), log := e.log + [ContainsMouseChanged]);
      assert Inv(e1);
    }
  }

  lemma DeliverPreservesInv(e: Engine, ws: WindowSystem, view: View, sig: Signal)
    requires Inv(e)
    ensures Inv(Deliver(e, ws, view, sig))
  {
  }

  lemma TemporaryRaiseTimeoutPreservesInv(e: Engine, ws: WindowSystem, view: View)
    requires Inv(e)
    ensures Inv(TemporaryRaiseTimeout(e, ws, view))
  {
  }

  lemma ApplyPreservesInv(e: Engine, ws: WindowSystem, view: View, call: Call)
    requires Inv(e) && (call.CallSetMode? ==> call.m != Visibility.None || call.m == e.mode)
    ensures Inv(Apply(e, ws, view, call))
  {
    match call {
      case CallSetMode(m) => SetModePreservesInv(e, ws, view, m);
      case CallSetBlockHiding(block) => SetBlockHidingPreservesInv(e, ws, view, block);
      case _ =>
    }
  }

  lemma ExpirePreservesInv(e: Engine, ws: WindowSystem, view: View, fire: Fire)
    requires Inv(e)
    ensures Inv(Expire(e, ws, view, fire))
  {
    if fire == TemporaryResetFired {
      TemporaryRaiseTimeoutPreservesInv(e, ws, view);
    }
  }

  /** Every event keeps the invariant. */
  lemma StepPreservesInv(e: Engine, ws: WindowSystem, view: View, input: Input)
    requires Inv(e) && Accepted(e, input)
    ensures Inv(Step(e, ws, view, input))
  {
    match input {
      case OnCall(call) => ApplyPreservesInv(e, ws, view, call);
      case OnFire(fire) => ExpirePreservesInv(e, ws, view, fire);
      case OnViewEvent(ev) => ViewEventPreservesInv(e, ws, view, ev);
      case OnSignal(sig) => DeliverPreservesInv(e, ws, view, sig);
      case _ =>
    }
  }

  /** Appending intent-free pieces to an intent-free log extension keeps it intent-free. */
  lemma NoIntentsChain(l0: seq<Event>, l1: seq<Event>, l2: seq<Event>, tail: seq<Event>)
    requires l0 <= l1 <= l2 && NoIntents(l1[|l0|..]) && NoIntents(l2[|l1|..]) && NoIntents(tail)
    ensures l0 <= l2 + tail && NoIntents((l2 + tail)[|l0|..])
  {
    assert (l2 + tail)[|l0|..] == l1[|l0|..] + l2[|l1|..] + tail;
  }

  /** A blocked mode change places and removes struts and moves the barrier, but requests
      neither a show nor a hide. */
  lemma BlockedSetModeEmitsNoIntents(e: Engine, ws: WindowSystem, view: View, m: Visibility)
    requires e.flags.blockHiding && (m != Visibility.None || m == e.mode)
    ensures var r := SetMode(e, ws, view, m); e.log <= r.log && NoIntents(r.log[|e.log|..])
  {
    if m != e.mode {
      var t := TearDown(e, m);
      var c := ChangeMode(e, ws, view, m);
      ChangeModeLog(e, ws, view, m);
      TearDownEventsNoIntents(e.mode, m, e.settings.pressureActive);
      assert t.log[|e.log|..] == TearDownEvents(e.mode, m, e.settings.pressureActive);
      NoIntentsChain(e.log, t.log, c.log, [WriteVisibility(m), ModeChanged]);
    }
  }

  /** While hiding is blocked, a setter other than the unblocking one neither shows nor hides the
      dock, and the dock stays shown. */
  lemma BlockedApplyEmitsNoIntents(e: Engine, ws: WindowSystem, view: View, call: Call)
    requires Inv(e) && e.flags.blockHiding && (call.CallSetMode? ==> call.m != Visibility.None || call.m == e.mode)
    requires call != CallSetBlockHiding(false)
    ensures var r := Apply(e, ws, view, call);
      r.flags.blockHiding && !r.flags.isHidden && e.log <= r.log && NoIntents(r.log[|e.log|..])
  {
    match call {
      case CallSetMode(m) => BlockedSetModeEmitsNoIntents(e, ws, view, m);
      case CallSetEnablePressure(enable) => PressureEmitsNoIntents(e, enable);
      case _ =>
    }
  }

  /** Switching edge pressure only moves the barrier and notifies. */
  lemma PressureEmitsNoIntents(e: Engine, enable: bool)
    ensures var r := SetEnablePressure(e, enable); e.log <= r.log && NoIntents(r.log[|e.log|..])
  {
    var r := SetEnablePressure(e, enable);
    assert r.log[|e.log|..] == if WithoutPressure(e.mode) then [DeleteBarrier]
      else [if enable then UpdateBarrier else DeleteBarrier, EdgePressureChanged];
  }

  /** The blocked counterpart for timers and the barrier firing. */
  lemma BlockedExpireEmitsNoIntents(e: Engine, ws: WindowSystem, view: View, fire: Fire)
    requires Inv(e) && e.flags.blockHiding
    ensures var r := Expire(e, ws, view, fire);
      r.flags.blockHiding && !r.flags.isHidden && e.log <= r.log && NoIntents(r.log[|e.log|..])
  {
  }

  /** The blocked counterpart for events on the dock's view. */
  lemma BlockedViewEventEmitsNoIntents(e: Engine, ws: WindowSystem, view: View, ev: ViewEventKind)
    requires Inv(e) && e.flags.blockHiding
    ensures var r := ViewEvent(e, ws, view, ev);
      r.flags.blockHiding && !r.flags.isHidden && e.log <= r.log && NoIntents(r.log[|e.log|..])
  {
  }

  lemma BlockedHandleEmitsNoIntents(e: Engine, ws: WindowSystem, view: View, h: Handler, sig: Signal)
    requires Inv(e) && e.flags.blockHiding && Source(h) == KindOf(sig)
    ensures var r := Handle(e, ws, view, h, sig);
      r.flags.blockHiding && !r.flags.isHidden && e.log <= r.log && NoIntents(r.log[|e.log|..])
  {
    match h {
      case WindowChangedDodgeWindows =>
        var r := DodgeWindows(e, ws, sig.wid);
        assert r.log == e.log;
      case _ =>
    }
  }

  /** The blocked counterpart for signals from the window system and the containment. */
  lemma BlockedDeliverEmitsNoIntents(e: Engine, ws: WindowSystem, view: View, sig: Signal)
    requires Inv(e) && e.flags.blockHiding
    ensures var r := Deliver(e, ws, view, sig);
      r.flags.blockHiding && !r.flags.isHidden && e.log <= r.log && NoIntents(r.log[|e.log|..])
  {
    var k := FirstListener(e.connections, KindOf(sig), 0);
    if k >= 0 {
      BlockedHandleEmitsNoIntents(e, ws, view, e.connections[k].handler, sig);
    }
  }

  /** The blockHiding override (lines 225-246, 211-223, 279-280): as long as hiding stays blocked,
      no event makes the engine request a show or a hide, and the dock stays shown. */
  lemma BlockedEmitsNoIntents(e: Engine, ws: WindowSystem, view: View, input: Input)
    requires Inv(e) && e.flags.blockHiding && Accepted(e, input)
    requires input != OnCall(CallSetBlockHiding(false))
    ensures var r := Step(e, ws, view, input);
      r.flags.blockHiding && !r.flags.isHidden && e.log <= r.log && NoIntents(r.log[|e.log|..])
  {
    match input {
      case OnCall(call) => BlockedApplyEmitsNoIntents(e, ws, view, call);
      case OnFire(fire) => BlockedExpireEmitsNoIntents(e, ws, view, fire);
      case OnViewEvent(ev) => BlockedViewEventEmitsNoIntents(e, ws, view, ev);
      case OnSignal(sig) => BlockedDeliverEmitsNoIntents(e, ws, view, sig);
      case OnDockGeometry(_) =>
      case OnRestoreConfig(_) =>
    }
  }
}
