/** What saving and restoring the engine's settings guarantee. */
module ConfigProperties {
  import opened Geometry
  import opened Windows
  import opened VisibilityState
  import opened VisibilityRules

  /** Restoring what was just saved (lines 468-497) gives back both debounce intervals and both
      raise settings, keeps every pending timer, and only forces edge pressure on. */
  lemma SaveRestoreRoundTrip(e: Engine, config: StoredConfig)
    ensures var r := RestoreConfig(e, SaveConfig(e, config));
      && r.timers == e.timers
      && r.settings == e.settings.(pressureActive := true, barrierArmed := !WithoutPressure(e.mode))
      && r == e.(settings := r.settings, log := r.log)
      && r.log == e.log + [TimerShowChanged, TimerHideChanged]
           + (if WithoutPressure(e.mode) then [DeleteBarrier] else [UpdateBarrier, EdgePressureChanged])
  {
    var c := SaveConfig(e, config);
    var r := RestoreConfig(e, c);
    var e2 := Emit(Emit(e, TimerShowChanged), TimerHideChanged);
    assert e.timers.(show := e.timers.show.(interval := c.timerShow.ReadOr(200)),
                     hide := e.timers.hide.(interval := c.timerHide.ReadOr(700))) == e.timers;
    assert SetRaiseOnActivity(SetRaiseOnDesktop(e2, c.raiseOnDesktopChange.ReadOr(false)),
                              c.raiseOnActivityChange.ReadOr(false)) == e2;
  }

  /** The stored edgePressure entry is never read back (line 497): two configurations that differ
      only in it, and in the stored mode, restore the same engine. */
  lemma RestoreIgnoresStoredPressure(e: Engine, c1: StoredConfig, c2: StoredConfig)
    requires c1.(edgePressure := c2.edgePressure, visibility := c2.visibility) == c2
    ensures RestoreConfig(e, c1) == RestoreConfig(e, c2)
  {
  }

  /** Without stored entries the defaults apply: a 200 ms show debounce, a 700 ms hide debounce,
      and no raise on desktop or activity changes (lines 490-496). */
  lemma RestoreDefaults(e: Engine)
    ensures var r := RestoreConfig(e, StoredConfig(Unset, Unset, Unset, Unset, Unset, Unset));
      && r.timers.show.interval == 200 && r.timers.hide.interval == 700
      && !r.settings.raiseOnDesktopChange && !r.settings.raiseOnActivityChange
      && r.settings.pressureActive
  {
  }
}
