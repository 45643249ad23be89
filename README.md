# Latte-Dock visibility engine, modelled in Dafny

This project models `VisibilityManagerPrivate`, the part of Latte-Dock that decides when a
dock is shown or hidden. It is a single-threaded, event-driven state machine. It has:

- **Inputs:**
  - a visibility mode;
  - the user's settings;
  - the dock's rectangle;
  - the windows reported by the window system;
  - the mouse and drag events on the dock;
  - three single-shot timers, plus the one-shot reset of a temporary raise.
- **Output:** a stream of events.
  - The intents `mustBeShown` and `mustBeHide`.
  - Change notifications.
  - The calls into the window manager (struts, extra flags), the edge-pressure barrier and the
    configuration.

The model has two layers.

- **`VisibilityRules` (rules.dfy).** One pure function per member function of
  `VisibilityManagerPrivate`. Each takes the engine state (`VisibilityState.Engine`) before the
  call to the state after it, and the emitted events are appended to `log`.
  `VisibilityRules.Step` handles one input of any kind.
- **`VisibilityManager.VisibilityManagerPrivate` (manager.dfy).** A class whose fields are those
  of app/visibilitymanager_p.h.
  - The five connection handles are a fixed `array<Slot>`.
  - The registry is a `map<WId, WindowInfo>` field.
  - Each member function is a method that updates the fields in place.
  - Each method is proved to leave the object exactly as the matching rule says:
    `Snapshot() == Rules.F(old(Snapshot()), …)`.
  - The three loops of the source are `while`/`for` loops with invariants: the loop that cuts
    the five connections in `setMode`, the insert loop when entering DodgeAllWindows, and the
    scan over the registry in `checkAllWindows`.

The properties are lemmas over the rules. They are grouped by module:

- `ModeProperties`: wiring and event order of `setMode`.
- `VisibilityProperties`: the invariant, and the `blockHiding` override per event.
- `RunProperties`: the same over whole event sequences.
- `DebounceProperties`: the `raiseDock` debounce and the temporary raise.
- `DodgeProperties`: the dodge rules and the window registry.
- `ConfigProperties`: saving and restoring the settings.

The window system, the view and the containment are inputs, not objects:

- `Windows.WindowSystem` holds the window list, the `requestInfo` answers, the active window and
  the windows on the current desktop.
- `Windows.View` holds the screen (if any), the form factor and whether the user is configuring
  the dock.

Where the model follows the code on points that are easy to misread:

- `dodgeActive` and `dodgeMaximized` check `isOnCurrentDesktop` on the window they were called
  with. They do not check the active window that replaces it when that window is inactive
  (lines 381, 412).
- The desktop and activity subscriptions (slots 3-4) are installed exactly when the mode
  being left is not AlwaysVisible (lines 89-104).
  - So coming from AlwaysVisible, no mode reacts to a desktop change.
  - Coming from any other mode, even the new mode AlwaysVisible keeps them.
- Leaving DodgeAllWindows does not clear the registry.
  - `std::unordered_map::insert` keeps an existing entry.
  - So re-entering DodgeAllWindows keeps the old snapshots, including those of windows closed
    meanwhile.
- Entering WindowsGoBelow raises the dock and falls through to `default` (lines 181-185).
- `setEnablePressure` emits `edgePressureChanged` only in modes that have a barrier
  (lines 264-274).
- `restoreConfig` turns edge pressure on whatever the configuration says (line 497).

## Model

| member | source | states |
|---|---|---|
| Geometry.IntersectsIffSharedPixel | app/visibilitymanager.cpp:464 | for rectangles of positive size, `QRect::intersects` holds exactly when some pixel lies in both rectangles; a rectangle without a pixel intersects nothing |
| Geometry.Rect.Intersects | app/visibilitymanager.cpp:464 | `QRect::intersects` for rectangles of positive size: both rectangles have a pixel and their spans overlap on both axes |
| Windows.RequestInfo | app/visibilitymanager.cpp:369 | `requestInfo` answers the window system's snapshot of a known window and an invalid snapshot for an unknown one |
| Windows.IsOnCurrentDesktop | app/visibilitymanager.cpp:381 | `isOnCurrentDesktop(wid)` is the window system's answer for that window |
| VisibilityState.Initial | app/visibilitymanager_p.h:63-81 | the state before `restoreConfig`: mode `None`; the flags `isHidden`, `dragEnter`, `blockHiding`, `containsMouse`, `raiseTemporarily`, `hideNow` and both raise settings false; `pressureActive` true; no timer pending; the check timer at 350 ms; an empty registry; every connection empty |
| VisibilityState.Timer.Start | app/visibilitymanager.cpp:169 | starting a timer leaves one pending fire and keeps its interval, also when a fire was already pending |
| VisibilityState.Timer.Stop | app/visibilitymanager.cpp:106-108 | stopping a timer leaves no pending fire and keeps its interval |
| VisibilityState.Inv | app/visibilitymanager_p.h:63-81 | between events: five connection handles, slots 0-2 hold exactly the current mode's subscriptions, slots 3-4 either both desktop subscriptions or none, a reset pending exactly while raised temporarily, the check timer at 350 ms, and a blocked dock shown |
| VisibilityState.ModeSlots | app/visibilitymanager.cpp:113-175 | the subscriptions the switch in `setMode` makes for each mode in slots 0-2: the two containment lambdas in AlwaysVisible, activeWindowChanged and windowChanged to the dodge rule in DodgeActive and DodgeMaximized, windowChanged, windowRemoved and windowAdded in DodgeAllWindows, none elsewhere |
| VisibilityState.DesktopSlots | app/visibilitymanager.cpp:92-103 | slots 3-4 hold the currentDesktopChanged and currentActivityChanged subscriptions, or neither |
| VisibilityState.Wiring | app/visibilitymanager.cpp:85-175 | the five connections after a change from one mode to another: the new mode's subscriptions, then the desktop pair exactly when the old mode is not AlwaysVisible |
| VisibilityRules.RequestShow | app/visibilitymanager.cpp:282-290 | the raise branch cancels the hide debounce. With the barrier armed it emits `mustBeShown` only if hidden. Without it the show debounce is pending afterwards. Nothing else changes |
| VisibilityRules.RequestHide | app/visibilitymanager.cpp:291-299 | the hide branch cancels the show debounce. An owed `hideNow` is paid with exactly one `mustBeHide` and cleared. Otherwise the hide debounce is pending afterwards |
| VisibilityRules.RaiseDock | app/visibilitymanager.cpp:277-300 | nothing changes while hiding is blocked, nor for a hide while dragging. Otherwise the outcome of each branch as above. Only the show/hide timers, `hideNow` and intents in the log ever change |
| VisibilityRules.Evaluated | app/visibilitymanager.cpp:374-379 | the window decided on is the queried one when it is active, else the window system's active window |
| VisibilityRules.Intersects | app/visibilitymanager.cpp:461-466 | a window covers the dock when it is not minimized, its rectangle intersects the dock's and it is not shaded (characterised by `DodgeProperties.IntersectsIffCovers`) |
| VisibilityRules.RaiseForDesktop | app/visibilitymanager.cpp:374-376 | an inactive queried window that is the Plasma desktop raises the dock, anything else changes nothing |
| VisibilityRules.DodgeActive | app/visibilitymanager.cpp:364-383 | a no-op while raised temporarily, for an invalid window, or while blocked. Otherwise the desktop raise, then a raise exactly when the decided window does not cover the dock, asked only if the queried window is on the current desktop. Only debounce state changes |
| VisibilityRules.IsMaxVert | app/visibilitymanager.cpp:402-405 | a window counts as vertically maximised when it says so or is at least as tall as the screen the dock is on |
| VisibilityRules.IsMaxHoriz | app/visibilitymanager.cpp:407-410 | a window counts as horizontally maximised when it says so or is at least as wide as the screen |
| VisibilityRules.MaximizedRaise | app/visibilitymanager.cpp:413-414 | a vertical dock shows unless the window is horizontally maximised, any other unless it is vertically maximised |
| VisibilityRules.DodgeMaximized | app/visibilitymanager.cpp:385-415 | like dodgeActive, with the raise asked only for a window that is not minimized. A vertical dock raises unless the window fills the screen's width, any other unless it fills its height |
| VisibilityRules.DodgeWindows | app/visibilitymanager.cpp:417-435 | a no-op while raised temporarily or for an untracked window. Otherwise the snapshot is refreshed, then a hide if it covers the dock on the current desktop, or a check scheduled if it does not |
| VisibilityRules.Blocks | app/visibilitymanager.cpp:446-455 | a tracked window vetoes the raise when its snapshot is valid, it is on the current desktop, and it is fullscreen or covers the dock |
| VisibilityRules.NoWindowBlocks | app/visibilitymanager.cpp:444-456 | no registry entry vetoes; the loop of `ScanWindows` computes exactly this |
| VisibilityRules.CheckAllWindows | app/visibilitymanager.cpp:437-459 | a no-op while raised temporarily; otherwise `raiseDock(true)` exactly when no registry entry vetoes, else `raiseDock(false)` |
| VisibilityRules.UpdateHiddenState | app/visibilitymanager.cpp:321-346 | a no-op while dragging or in a mode without a rule. Otherwise AutoHide raises exactly when the mouse is on the dock, and the three dodge modes run dodgeActive, dodgeMaximized or dodgeWindows on the active window. While blocked the log and the debounce timers stay as they are |
| VisibilityRules.Reevaluated | app/visibilitymanager.cpp:326-345 | the modes in which updateHiddenState runs a rule: AutoHide and the three dodge modes |
| VisibilityRules.Bound | app/visibilitymanager.cpp:314 | `qBound(lo, v, hi)`: v clamped into [lo, hi] (its meaning is stated by `TemporaryRaiseDelay`) |
| VisibilityRules.TemporaryRaiseDelay | app/visibilitymanager.cpp:314 | the reset delay is `2 * timerHide` clamped to [1800, 3000] ms: inside the range it is that value, below it 1800, above it 3000 |
| VisibilityRules.RaiseDockTemporarily | app/visibilitymanager.cpp:302-319 | a no-op when already raised temporarily. Otherwise it sets `raiseTemporarily`, stops both debounce timers, emits `mustBeShown` iff hidden, and schedules the reset after the clamped delay |
| VisibilityRules.TemporaryRaiseTimeout | app/visibilitymanager.cpp:314-318 | the reset clears `raiseTemporarily`, sets `hideNow` and re-evaluates; afterwards no reset is pending and the override is off |
| VisibilityRules.ShowTimeout | app/visibilitymanager.cpp:46-51 | a fire of the show timer emits `mustBeShown` exactly when the dock is hidden and leaves the timer idle |
| VisibilityRules.MayHide | app/visibilitymanager.cpp:53 | the hide timer may hide only a dock that is neither blocked, hidden nor under a drag |
| VisibilityRules.HideTimeout | app/visibilitymanager.cpp:52-57 | a fire of the hide timer emits `mustBeHide` exactly when hiding is not blocked, the dock is not hidden and nothing is dragged over it |
| VisibilityRules.CheckWindowsTimeout | app/visibilitymanager.cpp:45 | a fire of the check timer leaves it idle and runs checkAllWindows |
| VisibilityRules.PressureThreshold | app/visibilitymanager.cpp:58-63 | the barrier's threshold emits `mustBeShown` exactly when hidden and changes nothing else |
| VisibilityRules.SetIsHidden | app/visibilitymanager.cpp:211-223 | refused while hiding is blocked; otherwise changes `isHidden` and emits `isHiddenChanged` only when the value differs |
| VisibilityRules.CancelHiding | app/visibilitymanager.cpp:233-240 | blocking stops the hide debounce and, only if the dock was hidden, shows it with `isHiddenChanged` then `mustBeShown` |
| VisibilityRules.SetBlockHiding | app/visibilitymanager.cpp:225-246 | repeating the current value is a no-op. Blocking cancels hiding and unblocking re-evaluates. `blockHidingChanged` is always the last event |
| VisibilityRules.SetRaiseOnDesktop | app/visibilitymanager.cpp:193-200 | stores the setting and notifies exactly when it changes |
| VisibilityRules.SetRaiseOnActivity | app/visibilitymanager.cpp:202-209 | stores the setting and notifies exactly when it changes |
| VisibilityRules.SetTimerShow | app/visibilitymanager.cpp:248-252 | a new show interval, the pending fire kept, always notified |
| VisibilityRules.SetTimerHide | app/visibilitymanager.cpp:254-258 | a new hide interval, the pending fire kept, always notified |
| VisibilityRules.WithoutPressure | app/visibilitymanager.cpp:264 | the modes without an edge-pressure barrier: AlwaysVisible and WindowsGoBelow |
| VisibilityRules.ArmBarrier | app/visibilitymanager.cpp:271 | `updateBarrier` arms the barrier and is recorded, nothing else changes |
| VisibilityRules.DisarmBarrier | app/visibilitymanager.cpp:265 | `deleteBarrier` disarms the barrier and is recorded, nothing else changes |
| VisibilityRules.SetEnablePressure | app/visibilitymanager.cpp:260-275 | the barrier ends up armed exactly when pressure is wanted and the mode has a barrier; `edgePressureChanged` follows only in such modes |
| VisibilityRules.PlacesStruts | app/visibilitymanager.cpp:115 | struts are placed only in AlwaysVisible, with a screen, while the user is not configuring the dock |
| VisibilityRules.SetDockGeometry | app/visibilitymanager.cpp:348-362 | an unchanged rectangle is a no-op. A new one places the struts only in AlwaysVisible with a screen and outside configuration, and re-arms the barrier only where pressure applies |
| VisibilityRules.Insert | app/visibilitymanager.cpp:173 | `windows.insert` adds the window's snapshot and keeps an existing entry |
| VisibilityRules.InsertAll | app/visibilitymanager.cpp:160-162 | after the loop every listed window is tracked; entries already there keep their snapshot, new ones hold `requestInfo` |
| VisibilityRules.TearDownEvents | app/visibilitymanager.cpp:89-111 | the events before the switch: the struts removal when leaving AlwaysVisible, then the barrier deleted, or updated or deleted with `edgePressureChanged` in a mode with a barrier (properties in `ModeProperties.TearDownEventsNoIntents`) |
| VisibilityRules.TearDown | app/visibilitymanager.cpp:84-111 | slots 0-2 empty. Slots 3-4 hold the desktop and activity subscriptions exactly when the old mode was not AlwaysVisible. The three timers are stopped, the mode is stored, and the barrier is in line with it. The events are the struts removal (only when leaving AlwaysVisible), then the barrier's |
| VisibilityRules.Connect | app/visibilitymanager.cpp:119-175 | slots 0-2 take the mode's handlers and slots 3-4 are kept |
| VisibilityRules.EnterAlwaysVisible | app/visibilitymanager.cpp:114-132 | the struts are set first exactly when the user is not configuring and the dock has a screen; then the two containment subscriptions are wired and `raiseDock(true)` runs. The registry and the check timer are kept, and no intent is emitted while blocked |
| VisibilityRules.EnterDodgeAllWindows | app/visibilitymanager.cpp:159-179 | DodgeAllWindows tracks every listed window, wires its three registry subscriptions and schedules a check, changing nothing else |
| VisibilityRules.EnterMode | app/visibilitymanager.cpp:113-186 | the new mode's subscriptions are wired over empty slots 0-2, then the mode's rule runs once. AlwaysVisible and DodgeAllWindows run their entry as above. AutoHide runs `raiseDock(containsMouse)` and WindowsGoBelow `raiseDock(true)`. DodgeActive and DodgeMaximized run their rule on the active window. The registry changes only for DodgeAllWindows, only struts and intents are emitted, and no intent while blocked |
| VisibilityRules.ChangeMode | app/visibilitymanager.cpp:84-186 | teardown, then entry; the new mode is stored (its wiring, frame and log are stated by `ModeProperties.ChangeModeWiring`, `ChangeModeFrame` and `ChangeModeLog`) |
| VisibilityRules.SetMode | app/visibilitymanager.cpp:77-191 | the current mode again is a no-op, even when it is the None sentinel; a real change, never to None, is teardown, entry, then `writeEntry("visibility")` and `modeChanged` |
| VisibilityRules.Accepted | app/visibilitymanager.cpp:79-82 | a `setMode` is accepted unless it would really change the mode to None: the assertion follows the early return for the current mode |
| VisibilityRules.FirstListener | app/visibilitymanager.cpp:85-175 | the first slot that listens to a signal, or none; every slot before it does not listen |
| VisibilityRules.Handle | app/visibilitymanager.cpp:92-175 | the AlwaysVisible lambdas: `locationChanged` removes the struts exactly while the user configures, and the end of configuring with a screen sets them again. The dodge slots run their rule on the signalled window. No subscription changes the mode, the connections, the dock rectangle, `isHidden` or `blockHiding`, and each keeps the reset pending exactly while raised temporarily |
| VisibilityRules.Deliver | app/visibilitymanager.cpp:85-175 | a signal nobody is subscribed to changes nothing; one with a subscriber runs that subscriber's handler; delivery keeps the same frame as Handle |
| VisibilityRules.ViewEvent | app/visibilitymanager.cpp:529-576 | Enter and Leave act only on a real change of `containsMouse`, notify, then raise (outside AlwaysVisible and WindowsGoBelow, without a barrier) or re-evaluate. DragEnter sets `dragEnter` and shows if hidden. DragLeave and Drop clear it and re-evaluate. Show reapplies the window flags |
| VisibilityRules.Entry.ReadOr | app/visibilitymanager.cpp:490-496 | `readEntry(key, default)` gives the stored value, or the default when none is stored |
| VisibilityRules.SaveConfig | app/visibilitymanager.cpp:468-482 | both intervals, both raise settings and `pressureActive` are written; the stored visibility is left alone |
| VisibilityRules.RestoreConfig | app/visibilitymanager.cpp:484-497 | intervals default to 200 and 700 ms and the raise settings to false. Edge pressure is switched on and the barrier armed exactly when the mode has one. Pending fires are kept and no intent is emitted |
| VisibilityRules.Apply | app/visibilitymanager.cpp:77-275 | a setter call runs the matching setter (its properties: `VisibilityProperties.ApplyPreservesInv`, `BlockedApplyEmitsNoIntents`) |
| VisibilityRules.Expire | app/visibilitymanager.cpp:45-63 | a timer or barrier fire runs the matching timeout (its properties: `VisibilityProperties.ExpirePreservesInv`, `BlockedExpireEmitsNoIntents`) |
| VisibilityRules.Step | app/visibilitymanager.cpp:32-576 | one input of any kind goes to its rule (its properties: `VisibilityProperties.StepPreservesInv`, `BlockedEmitsNoIntents`) |
| ModeProperties.WiringSatisfiesInv | app/visibilitymanager.cpp:89-175 | the wiring after a change has the new mode's handlers in slots 0-2 and the desktop pair in 3-4 exactly when the old mode was not AlwaysVisible |
| ModeProperties.ChangeModeWiring | app/visibilitymanager.cpp:85-186 | after a real change the connections are exactly the wiring for (old mode, new mode), and the check timer is pending exactly when entering DodgeAllWindows. Intervals and the reset are kept |
| ModeProperties.ChangeModeFrame | app/visibilitymanager.cpp:84-186 | a mode change keeps the flags but `hideNow` and the settings but the barrier. The barrier is armed exactly when pressure is on and the new mode has it. The registry changes only when entering DodgeAllWindows |
| ModeProperties.ChangeModeLog | app/visibilitymanager.cpp:113-186 | after teardown the entry only places struts and requests shows/hides, and requests none while blocked |
| ModeProperties.TearDownEventsNoIntents | app/visibilitymanager.cpp:89-111 | the teardown's events contain no show or hide request |
| ModeProperties.ModeChangeEventsOrder | app/visibilitymanager.cpp:89-111 | for any entry events, the struts removal can only be first and only when leaving AlwaysVisible, and `modeChanged` occurs only as the last event, after the visibility write |
| ModeProperties.SetModeOrder | app/visibilitymanager.cpp:85-111 | a real mode change appends events in order. The struts are removed first, and only when leaving AlwaysVisible. `writeEntry("visibility")` and then `modeChanged` come last, and `modeChanged` appears once |
| ModeProperties.WiringListeners | app/visibilitymanager.cpp:89-104 | after a change someone listens to the desktop and the activity signals exactly when the old mode was not AlwaysVisible |
| ModeProperties.DesktopSubscriptionFollowsOldMode | app/visibilitymanager.cpp:89-104 | after a real `setMode`, the desktop and activity signals are heard exactly when the mode left was not AlwaysVisible, whatever the new mode |
| ModeProperties.LeftAlwaysVisibleIgnoresDesktopChange | app/visibilitymanager.cpp:89-96 | after leaving AlwaysVisible a desktop change leaves the engine untouched even with raiseOnDesktopChange set |
| ModeProperties.SetModeWiring | app/visibilitymanager.cpp:85-175 | the connections after a real `setMode` are the wiring for (old mode, new mode) |
| ModeProperties.Unheard | app/visibilitymanager.cpp:89-96 | with the wiring left by AlwaysVisible a desktop change reaches no handler |
| ModeProperties.ListenersUnique | app/visibilitymanager_p.h:64 | between events every signal reaches at most one of the five subscriptions |
| VisibilityProperties.InitialSatisfiesInv | app/visibilitymanager_p.h:63-81 | the initial state satisfies the invariant: five handles, only the mode's subscriptions live, reset pending iff raised temporarily, check interval 350, blocked implies shown |
| VisibilityProperties.SetModePreservesInv | app/visibilitymanager.cpp:77-191 | `setMode` keeps the invariant |
| VisibilityProperties.SetBlockHidingPreservesInv | app/visibilitymanager.cpp:225-246 | `setBlockHiding` keeps the invariant, in particular "blocked implies shown" |
| VisibilityProperties.ViewEventPreservesInv | app/visibilitymanager.cpp:529-576 | every view event keeps the invariant |
| VisibilityProperties.DeliverPreservesInv | app/visibilitymanager.cpp:92-175 | every signal keeps the invariant |
| VisibilityProperties.TemporaryRaiseTimeoutPreservesInv | app/visibilitymanager.cpp:314-318 | the reset keeps the invariant |
| VisibilityProperties.ApplyPreservesInv | app/visibilitymanager.cpp:193-275 | every setter keeps the invariant |
| VisibilityProperties.ExpirePreservesInv | app/visibilitymanager.cpp:45-63 | every timer or barrier fire keeps the invariant |
| VisibilityProperties.StepPreservesInv | app/visibilitymanager.cpp:32-576 | every input accepted by the `Q_ASSERT_X` keeps the invariant |
| VisibilityProperties.BlockedSetModeEmitsNoIntents | app/visibilitymanager.cpp:77-191 | a mode change while blocked requests neither show nor hide |
| VisibilityProperties.BlockedApplyEmitsNoIntents | app/visibilitymanager.cpp:193-275 | while blocked, every setter but `setBlockHiding(false)` keeps the dock blocked and shown and requests no show or hide |
| VisibilityProperties.PressureEmitsNoIntents | app/visibilitymanager.cpp:260-275 | switching edge pressure emits no show or hide request |
| VisibilityProperties.BlockedExpireEmitsNoIntents | app/visibilitymanager.cpp:45-63 | while blocked, no timer or barrier fire requests a show or a hide |
| VisibilityProperties.BlockedViewEventEmitsNoIntents | app/visibilitymanager.cpp:529-576 | while blocked, no view event requests a show or a hide. This includes DragEnter, because the dock is shown |
| VisibilityProperties.BlockedHandleEmitsNoIntents | app/visibilitymanager.cpp:92-175 | while blocked, no subscription requests a show or a hide |
| VisibilityProperties.BlockedDeliverEmitsNoIntents | app/visibilitymanager.cpp:92-175 | while blocked, no delivered signal requests a show or a hide |
| VisibilityProperties.BlockedEmitsNoIntents | app/visibilitymanager.cpp:225-300 | while blocked, no input other than unblocking requests a show or a hide, and the dock stays blocked and shown |
| RunProperties.AllAccepted | app/visibilitymanager.cpp:79-82 | every input of a session is accepted in the state it arrives in |
| RunProperties.Run | app/visibilitymanager.cpp:32-576 | handling a sequence of events one after the other |
| RunProperties.RunPreservesInv | app/visibilitymanager.cpp:32-576 | the invariant holds after any sequence of accepted inputs |
| RunProperties.BlockedRunEmitsNoIntents | app/visibilitymanager.cpp:225-300 | over any session in which nobody unblocks hiding, there are no show or hide requests, and the dock stays blocked and shown |
| DebounceProperties.RaiseAll | app/visibilitymanager.cpp:277-300 | any burst of `raiseDock` calls changes only debounce state and appends only intents |
| DebounceProperties.DebounceCoalesces | app/visibilitymanager.cpp:282-299 | without a barrier, a drag or an owed hide, a burst of requests emits nothing itself; the pending timer is exactly the one of the last request |
| DebounceProperties.OwedHidePaidOnce | app/visibilitymanager.cpp:294-298 | a burst of hide requests emits `mustBeHide` exactly once if `hideNow` was owed and never otherwise, and clears it |
| DebounceProperties.TemporaryRaiseRoundTrip | app/visibilitymanager.cpp:302-328 | in AutoHide with the mouse away, a temporary raise shows a hidden dock at once. Its end hides it at once with one `mustBeHide`, leaving no override, no owed hide and no pending debounce |
| DebounceProperties.TemporaryRaiseIdempotent | app/visibilitymanager.cpp:304-305 | a second temporary raise during one changes nothing |
| DebounceProperties.RaisedTemporarilyIgnoresDodging | app/visibilitymanager.cpp:364-459 | while raised temporarily, `activeWindowChanged` and `windowChanged` leave the engine as it is, and a fire of the check timer only stops that timer |
| DodgeProperties.IntersectsIffCovers | app/visibilitymanager.cpp:461-466 | `intersects` holds exactly when the window is neither minimized nor shaded and shares a pixel with the dock |
| DodgeProperties.DodgeActiveOutcome | app/visibilitymanager.cpp:364-383 | for an active window on the current desktop, without barrier or owed hide, a show is pending exactly when the window leaves the dock uncovered and a hide exactly when it covers it, and nothing is emitted |
| DodgeProperties.DodgeActiveDesktopOfQueriedWindow | app/visibilitymanager.cpp:381 | an inactive queried window that is off the current desktop and is not the desktop itself changes nothing, whatever the active window covers |
| DodgeProperties.DodgeMaximizedOutcome | app/visibilitymanager.cpp:402-414 | a hide is pending exactly when the window fills the screen in the dock's direction, otherwise a show |
| DodgeProperties.FullscreenVetoesRaise | app/visibilitymanager.cpp:449-451 | one tracked fullscreen window on the current desktop makes checkAllWindows hide, whatever the others are |
| DodgeProperties.RegistryListeners | app/visibilitymanager.cpp:164-175 | in DodgeAllWindows slot 1 listens to `windowRemoved` and slot 2 to `windowAdded` |
| DodgeProperties.WindowRemovedErases | app/visibilitymanager.cpp:166-170 | in DodgeAllWindows a removed window loses its snapshot and a check is (re)scheduled, nothing else |
| DodgeProperties.WindowAddedInserts | app/visibilitymanager.cpp:171-175 | in DodgeAllWindows an added window is tracked once: an existing snapshot is kept, a new one is its `requestInfo`; a check is (re)scheduled |
| DodgeProperties.RegistryIgnoredElsewhere | app/visibilitymanager.cpp:164-175 | outside DodgeAllWindows the registry signals change nothing |
| DodgeProperties.EnteringDodgeAllWindowsTracksWindows | app/visibilitymanager.cpp:159-177 | entering DodgeAllWindows tracks exactly the old entries plus every listed window, keeps old snapshots, and schedules a check |
| ConfigProperties.SaveRestoreRoundTrip | app/visibilitymanager.cpp:468-497 | restoring what was saved gives back both intervals and both raise settings and keeps every timer. It only forces pressure on and re-arms the barrier where the mode has one |
| ConfigProperties.RestoreIgnoresStoredPressure | app/visibilitymanager.cpp:497-498 | the stored `edgePressure` entry has no effect on restoring |
| ConfigProperties.RestoreDefaults | app/visibilitymanager.cpp:490-497 | without stored entries: 200 ms, 700 ms, no raise on desktop or activity change, pressure on |
| VisibilityManager.VisibilityManagerPrivate.constructor | app/visibilitymanager.cpp:32-68 | five empty connections, the header's initial values, the check timer at 350 ms, `setDockExtraFlags` and `addDock`, then `restoreConfig` |
| VisibilityManager.VisibilityManagerPrivate.Emit | app/visibilitymanager.cpp:49 | an emission appends one event to the log and changes nothing else |
| VisibilityManager.VisibilityManagerPrivate.RequestShow | app/visibilitymanager.cpp:282-290 | the fields change as `VisibilityRules.RequestShow` says |
| VisibilityManager.VisibilityManagerPrivate.PayOwedHide | app/visibilitymanager.cpp:294-296 | `hideNow` cleared, then one `mustBeHide` |
| VisibilityManager.VisibilityManagerPrivate.RequestHide | app/visibilitymanager.cpp:291-299 | the fields change as `VisibilityRules.RequestHide` says |
| VisibilityManager.VisibilityManagerPrivate.RaiseDock | app/visibilitymanager.cpp:277-300 | the fields change as `VisibilityRules.RaiseDock` says |
| VisibilityManager.VisibilityManagerPrivate.StopDebounce | app/visibilitymanager.cpp:308-309 | both debounce timers stopped, nothing else changed |
| VisibilityManager.VisibilityManagerPrivate.RaiseDockTemporarily | app/visibilitymanager.cpp:302-319 | the fields change as `VisibilityRules.RaiseDockTemporarily` says |
| VisibilityManager.VisibilityManagerPrivate.EndTemporaryRaise | app/visibilitymanager.cpp:315-316 | override off, immediate hide owed, nothing else changed |
| VisibilityManager.VisibilityManagerPrivate.TemporaryRaiseTimeout | app/visibilitymanager.cpp:314-318 | the fields change as `VisibilityRules.TemporaryRaiseTimeout` says |
| VisibilityManager.VisibilityManagerPrivate.UpdateHiddenState | app/visibilitymanager.cpp:321-346 | the fields change as `VisibilityRules.UpdateHiddenState` says |
| VisibilityManager.VisibilityManagerPrivate.RaiseForDesktop | app/visibilitymanager.cpp:374-376 | the fields change as `VisibilityRules.RaiseForDesktop` says |
| VisibilityManager.VisibilityManagerPrivate.DodgeActive | app/visibilitymanager.cpp:364-383 | the fields change as `VisibilityRules.DodgeActive` says |
| VisibilityManager.VisibilityManagerPrivate.DodgeMaximized | app/visibilitymanager.cpp:385-415 | the fields change as `VisibilityRules.DodgeMaximized` says |
| VisibilityManager.VisibilityManagerPrivate.DodgeWindows | app/visibilitymanager.cpp:417-435 | the fields change as `VisibilityRules.DodgeWindows` says |
| VisibilityManager.VisibilityManagerPrivate.ScanWindows | app/visibilitymanager.cpp:442-456 | the scan over the registry, stopping at the first veto, yields true exactly when no entry is valid, on the current desktop and fullscreen or covering the dock |
| VisibilityManager.VisibilityManagerPrivate.CheckAllWindows | app/visibilitymanager.cpp:437-459 | the fields change as `VisibilityRules.CheckAllWindows` says |
| VisibilityManager.VisibilityManagerPrivate.SetIsHidden | app/visibilitymanager.cpp:211-223 | the fields change as `VisibilityRules.SetIsHidden` says |
| VisibilityManager.VisibilityManagerPrivate.CancelHiding | app/visibilitymanager.cpp:233-240 | the fields change as `VisibilityRules.CancelHiding` says |
| VisibilityManager.VisibilityManagerPrivate.SetBlockHiding | app/visibilitymanager.cpp:225-246 | the fields change as `VisibilityRules.SetBlockHiding` says |
| VisibilityManager.VisibilityManagerPrivate.SetRaiseOnDesktop | app/visibilitymanager.cpp:193-200 | the fields change as `VisibilityRules.SetRaiseOnDesktop` says |
| VisibilityManager.VisibilityManagerPrivate.SetRaiseOnActivity | app/visibilitymanager.cpp:202-209 | the fields change as `VisibilityRules.SetRaiseOnActivity` says |
| VisibilityManager.VisibilityManagerPrivate.SetTimerShow | app/visibilitymanager.cpp:248-252 | the fields change as `VisibilityRules.SetTimerShow` says |
| VisibilityManager.VisibilityManagerPrivate.SetTimerHide | app/visibilitymanager.cpp:254-258 | the fields change as `VisibilityRules.SetTimerHide` says |
| VisibilityManager.VisibilityManagerPrivate.ArmBarrier | app/visibilitymanager.cpp:271 | barrier armed, `updateBarrier` recorded |
| VisibilityManager.VisibilityManagerPrivate.DisarmBarrier | app/visibilitymanager.cpp:265 | barrier disarmed, `deleteBarrier` recorded |
| VisibilityManager.VisibilityManagerPrivate.SetEnablePressure | app/visibilitymanager.cpp:260-275 | the fields change as `VisibilityRules.SetEnablePressure` says |
| VisibilityManager.VisibilityManagerPrivate.SetDockGeometry | app/visibilitymanager.cpp:348-362 | the fields change as `VisibilityRules.SetDockGeometry` says |
| VisibilityManager.VisibilityManagerPrivate.DisconnectAll | app/visibilitymanager.cpp:85-87 | the loop leaves all five connections empty |
| VisibilityManager.VisibilityManagerPrivate.SubscribeDesktop | app/visibilitymanager.cpp:92-103 | slots 3 and 4 hold the desktop and activity handlers, the others are kept |
| VisibilityManager.VisibilityManagerPrivate.StopTimers | app/visibilitymanager.cpp:106-109 | the three timers stopped and the new mode stored, nothing else changed |
| VisibilityManager.VisibilityManagerPrivate.TearDown | app/visibilitymanager.cpp:84-111 | the fields and connections change as `VisibilityRules.TearDown` says |
| VisibilityManager.VisibilityManagerPrivate.SnapshotAll | app/visibilitymanager.cpp:160-162 | the loop over `wm->windows()` yields exactly `VisibilityRules.InsertAll` of the registry |
| VisibilityManager.VisibilityManagerPrivate.Connect | app/visibilitymanager.cpp:119-175 | slots 0-2 take the given handlers, slots 3-4 are kept |
| VisibilityManager.VisibilityManagerPrivate.EnterAlwaysVisible | app/visibilitymanager.cpp:114-132 | the fields change as `VisibilityRules.EnterAlwaysVisible` says |
| VisibilityManager.VisibilityManagerPrivate.EnterDodgeAllWindows | app/visibilitymanager.cpp:159-179 | the fields change as `VisibilityRules.EnterDodgeAllWindows` says |
| VisibilityManager.VisibilityManagerPrivate.EnterMode | app/visibilitymanager.cpp:113-186 | the fields change as `VisibilityRules.EnterMode` says |
| VisibilityManager.VisibilityManagerPrivate.SetMode | app/visibilitymanager.cpp:77-191 | the fields change as `VisibilityRules.SetMode` says |
| VisibilityManager.VisibilityManagerPrivate.Handle | app/visibilitymanager.cpp:92-175 | the fields change as `VisibilityRules.Handle` says |
| VisibilityManager.VisibilityManagerPrivate.WindowRemoved | app/visibilitymanager.cpp:166-170 | the window's entry erased and the check timer started, nothing else changed |
| VisibilityManager.VisibilityManagerPrivate.WindowAdded | app/visibilitymanager.cpp:171-175 | the window inserted unless tracked and the check timer started, nothing else changed |
| VisibilityManager.VisibilityManagerPrivate.DesktopChanged | app/visibilitymanager.cpp:92-96 | a temporary raise exactly when raiseOnDesktopChange is set, otherwise nothing |
| VisibilityManager.VisibilityManagerPrivate.ActivityChanged | app/visibilitymanager.cpp:97-103 | a temporary raise when raiseOnActivityChange is set, otherwise a re-evaluation |
| VisibilityManager.VisibilityManagerPrivate.Deliver | app/visibilitymanager.cpp:85-175 | the fields change as `VisibilityRules.Deliver` says |
| VisibilityManager.VisibilityManagerPrivate.MouseEntered | app/visibilitymanager.cpp:532-544 | the fields change as `VisibilityRules.ViewEvent` says for Enter |
| VisibilityManager.VisibilityManagerPrivate.MouseLeft | app/visibilitymanager.cpp:546-553 | the fields change as `VisibilityRules.ViewEvent` says for Leave |
| VisibilityManager.VisibilityManagerPrivate.DragEntered | app/visibilitymanager.cpp:555-561 | the fields change as `VisibilityRules.ViewEvent` says for DragEnter |
| VisibilityManager.VisibilityManagerPrivate.DragEnded | app/visibilitymanager.cpp:563-567 | the fields change as `VisibilityRules.ViewEvent` says for both DragLeave and Drop |
| VisibilityManager.VisibilityManagerPrivate.ViewEventManager | app/visibilitymanager.cpp:529-576 | the fields change as `VisibilityRules.ViewEvent` says |
| VisibilityManager.VisibilityManagerPrivate.ShowTimeout | app/visibilitymanager.cpp:46-51 | the fields change as `VisibilityRules.ShowTimeout` says |
| VisibilityManager.VisibilityManagerPrivate.HideTimeout | app/visibilitymanager.cpp:52-57 | the fields change as `VisibilityRules.HideTimeout` says |
| VisibilityManager.VisibilityManagerPrivate.CheckWindowsTimeout | app/visibilitymanager.cpp:45 | the fields change as `VisibilityRules.CheckWindowsTimeout` says |
| VisibilityManager.VisibilityManagerPrivate.PressureThreshold | app/visibilitymanager.cpp:58-63 | the fields change as `VisibilityRules.PressureThreshold` says |
| VisibilityManager.VisibilityManagerPrivate.SaveConfig | app/visibilitymanager.cpp:468-482 | the entries written are exactly `VisibilityRules.SaveConfig` of the current state |
| VisibilityManager.VisibilityManagerPrivate.RestoreConfig | app/visibilitymanager.cpp:484-497 | the fields change as `VisibilityRules.RestoreConfig` says |

## Left out

- **EdgePressure internals.** `updateBarrier`, `deleteBarrier`, `enabled()` and the `threshold`
  signal are reduced to the `barrierArmed` flag and a `PressureThreshold` fire. The class itself
  is not part of this model.
- **Qt plumbing.**
  - The signal/slot mechanism, the QTimer event loop, real time and `QTimer::singleShot` are
    out.
  - Each timer is an `active`/`interval` pair, and its firing is an explicit input.
  - The model delivers a signal only to the first slot connected to it, while Qt calls every
    connected slot. The two agree because between events every signal has at most one
    subscriber (`ModeProperties.ListenersUnique`).
- **The stored mode and the startup timer** of `restoreConfig` (lines 499-527) are out:
  - the 5000 ms `timerStartUp`;
  - the re-read of `visibility`;
  - the `userConfiguringChanged` connections that restart the startup timer or call
    `saveConfig`.
  `setMode` is an input instead.
- **KConfig I/O.** The configuration is a record of optional entries (`StoredConfig`).
  `configNeedsSaving` is not modelled.
- **The destructor** (lines 70-75) is out: the model has no object lifetime.
- **The public facade** (lines 580-674) is out. It only forwards to the private object; the
  setters are `VisibilityRules.Apply`, and the getters are plain field reads.
- **The containment is assumed present.** The `!view->containment()` guards of
  `setDockGeometry`, `saveConfig` and `restoreConfig` (lines 350, 470, 486) are dropped,
  because `setMode` dereferences the containment without a check.
- **`windowAdded`** is declared at app/visibilitymanager_p.h:47 but never defined; the lambda at
  lines 171-175 is modelled instead.
- **Diagnostics.** The `qWarning` of `setIsHidden` when it is refused while hiding is blocked
  (line 217) and any other logging are not modelled; the refusal itself is.
- IntersectsIffSharedPixel: holds for the model's `Geometry.Rect.Intersects`. That test treats
  a rectangle with a width or height of zero or less as empty. `QRect::intersects` rejects only
  null rectangles and normalises negative sizes, so a window rectangle of negative size that
  intersects the dock in the program never does in the model. Rectangles are assumed to have a
  positive size, as window and dock geometries do. QRect itself is not part of this model.
- **Window-manager calls** (struts, extra flags, addDock) are recorded as log events only; their
  effect is not modelled.
- **Q_ASSERT_X at line 82** becomes the precondition of `setMode`: `m != None` unless `m` is already the mode (lines 79-80 return before the assertion).
- **Other files.** app/visibilitymanager.h (property and signal declarations only),
  app/packageplugins/shell/dockpackage.cpp and liblattedock/extras.h (formatting, floating-point
  comparison and memory helpers) are not part of this model.
- VisibilityRules.TemporaryRaiseDelay: computes `2 * timerHide.interval()` exactly. A C++
  `int` would overflow for intervals beyond about 1.07 × 10^9 ms; the model does not include that
  overflow.
