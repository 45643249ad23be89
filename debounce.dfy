/** What the raiseDock choke point and the temporary raise guarantee. */
module DebounceProperties {
  import opened Geometry
  import opened Windows
  import opened VisibilityState
  import opened VisibilityRules

  /** A burst of raiseDock calls with nothing in between, oldest first. */
  function RaiseAll(e: Engine, raises: seq<bool>): (r: Engine)
    decreases |raises|
    ensures OnlyDebounce(e, r)
  {
    if |raises| == 0 then e
    else
      var e1 := RaiseDock(e, raises[0]);
      var r := RaiseAll(e1, raises[1..]);
      OnlyDebounceTransitive(e, e1, r);
      r
  }

  /** The debounce coalesces (lines 282-299): without a barrier and without an owed hide, a burst
      of requests emits nothing itself and leaves exactly the timer of the last request pending. */
  lemma {:induction false} DebounceCoalesces(e: Engine, raises: seq<bool>)
    requires !e.flags.blockHiding && !e.settings.barrierArmed && !e.flags.dragEnter && !e.flags.hideNow
    requires |raises| > 0
    decreases |raises|
    ensures var r := RaiseAll(e, raises);
      && r.log == e.log && r.flags == e.flags
      && (r.timers.show.active <==> raises[|raises| - 1])
      && (r.timers.hide.active <==> !raises[|raises| - 1])
  {
    var e1 := RaiseDock(e, raises[0]);
    if |raises| > 1 {
      DebounceCoalesces(e1, raises[1..]);
      assert raises[1..][|raises[1..]| - 1] == raises[|raises| - 1];
    }
  }

  /** An owed immediate hide is paid exactly once (lines 294-296): a burst of hide requests emits
      mustBeHide once if hideNow was set and never otherwise, and the hide debounce is left
      pending unless the only request was the one that paid. */
  lemma {:induction false} OwedHidePaidOnce(e: Engine, raises: seq<bool>)
    requires !e.flags.blockHiding && !e.flags.dragEnter
    requires |raises| > 0 && forall i :: 0 <= i < |raises| ==> !raises[i]
    decreases |raises|
    ensures var r := RaiseAll(e, raises);
      && r.log == e.log + (if e.flags.hideNow then [MustBeHide] else [])
      && !r.flags.hideNow && !r.timers.show.active
      && (r.timers.hide.active <==> e.timers.hide.active || !e.flags.hideNow || |raises| > 1)
  {
    var e1 := RaiseDock(e, raises[0]);
    if |raises| > 1 {
      OwedHidePaidOnce(e1, raises[1..]);
    }
  }

  /** A full temporary raise in AutoHide with the mouse away (lines 302-319, 321-328): the dock is
      shown at once if hidden, and when the override ends it is hidden at once, the owed hide
      settled and no debounce left pending. */
  lemma TemporaryRaiseRoundTrip(e: Engine, ws: WindowSystem, view: View)
    requires e.mode == Visibility.AutoHide && !e.flags.containsMouse
    requires !e.flags.raiseTemporarily && !e.flags.blockHiding && !e.flags.dragEnter
    ensures var r1 := RaiseDockTemporarily(e);
      var r2 := TemporaryRaiseTimeout(r1, ws, view);
      && r1.log == e.log + (if e.flags.isHidden then [MustBeShown] else [])
      && r1.timers.temporaryReset == Timer(true, TemporaryRaiseDelay(e.timers.hide.interval))
      && r2.log == r1.log + [MustBeHide]
      && !r2.flags.raiseTemporarily && !r2.flags.hideNow
      && !r2.timers.show.active && !r2.timers.hide.active && !r2.timers.temporaryReset.active
  {
    var r1 := RaiseDockTemporarily(e);
    var e2 := r1.(flags := r1.flags.(raiseTemporarily := false, hideNow := true),
                  timers := r1.timers.(temporaryReset := r1.timers.temporaryReset.Stop()));
    assert TemporaryRaiseTimeout(r1, ws, view) == RaiseDock(e2, false);
  }

  /** A second temporary raise while one is running changes nothing: no second reset is
      scheduled and nothing is emitted (lines 304-305). */
  lemma TemporaryRaiseIdempotent(e: Engine)
    ensures RaiseDockTemporarily(RaiseDockTemporarily(e)) == RaiseDockTemporarily(e)
  {
  }

  /** While the dock is raised temporarily every dodge rule stands aside (lines 366, 387, 419,
      439): activeWindowChanged and windowChanged leave the engine as it is, and a fire of the
      check timer only stops that timer. */
  lemma RaisedTemporarilyIgnoresDodging(e: Engine, ws: WindowSystem, view: View, sig: Signal)
    requires |e.connections| == 5 && e.flags.raiseTemporarily
    requires sig.ActiveWindowChanged? || sig.WindowChanged?
    ensures Deliver(e, ws, view, sig) == e
    ensures CheckWindowsTimeout(e, ws) == e.(timers := e.timers.(checkWindows := e.timers.checkWindows.Stop()))
  {
    var k := FirstListener(e.connections, KindOf(sig), 0);
    if k >= 0 {
      var h := e.connections[k].handler;
      assert h in {ActiveWindowDodgeActive, WindowChangedDodgeActive, ActiveWindowDodgeMaximized,
                   WindowChangedDodgeMaximized, WindowChangedDodgeWindows};
    }
  }
}
