# Pomodoro timer: interval engine and tray controller

This project models the two pieces of logic in a desktop Pomodoro timer
with a system-tray interface, and proves properties of them in Dafny.

- **The interval engine** (module `PomodoroEngine`, class `Engine`) starts and
  stops intervals. Starting an interval of a kind first stops the timer.
  Stopping interrupts the timer only if it is running. The engine then sets
  the timer to 60 times the configured length in minutes, tagged with the
  kind. It also forwards four sound-notification flags to the preferences.
  The timer and the preferences are collaborators whose code is not part of
  this model. Each is a class holding only the state the engine reads or
  changes. The timer also keeps a log of the `interrupt` and `set` calls it
  receives, so the order of those calls can be stated.
- **The tray controller** (module `TrayControl`, class `TrayController`) keeps
  the tray's presentation in step with timer events. That presentation is
  the icon, the remaining-time label, and which of the five actions are
  enabled. The controller also turns clicks on the tray's actions into engine
  calls. The icon is an abstract value: the idle icon, the plain icon of a
  kind, or a composite of a kind's icon with a minutes overlay.
- **The remaining-time text** (module `TimeText`) splits a count of seconds
  into minutes and seconds and renders them as `"%02d:%02d"`. A parser
  inverts that rendering, so a round-trip lemma can be proved.

Each state-changing operation is a method on a class. Its postcondition
gives the new state as a pure function of the old state, such as `Started`,
`Stopped`, `WithSound`, `IdleOf`, `RunningOf` or `RemainingShown`. The
properties the program promises are proved about those functions. Two
examples: in the idle and "timer set" transitions, the composite icon drawn
by the remaining-time update is always overwritten; and after a "timer set"
event, exactly the two start actions of the other kinds are enabled.

## Model

| member | source | states |
|---|---|---|
| `PomodoroEngine.Engine.constructor` | src/core/impl/StandardPomodoroEngine.cpp:27-31 | the engine holds exactly the given timer and preferences |
| `PomodoroEngine.Engine.Start` | src/core/impl/StandardPomodoroEngine.cpp:33-38 | the timer ends as `Started` gives: stopped first, then set to 60 × the configured minutes for the kind; the preferences are unchanged |
| `PomodoroEngine.Engine.Stop` | src/core/impl/StandardPomodoroEngine.cpp:40-46 | the timer ends as `Stopped` gives; an idle timer is not touched at all; the preferences are unchanged |
| `PomodoroEngine.Started` | src/core/impl/StandardPomodoroEngine.cpp:33-38 | after a start the timer runs exactly the requested interval; the calls appended are `[interrupt, set]` if it was running and `[set]` if not |
| `PomodoroEngine.Stopped` | src/core/impl/StandardPomodoroEngine.cpp:40-46 | after a stop the timer is idle; `interrupt` is recorded if and only if it was running; an idle timer is returned unchanged |
| `PomodoroEngine.StoppedIdempotent` | src/core/impl/StandardPomodoroEngine.cpp:40-46 | stopping twice has the same effect as stopping once |
| `PomodoroEngine.RestartInterruptsFirst` | src/core/impl/StandardPomodoroEngine.cpp:33-46 | a second start interrupts the first interval before setting the second, so at most one interval is active |
| `PomodoroEngine.WithSound` | src/core/impl/StandardPomodoroEngine.cpp:48-66 | a sound setter gives its own flag the new value; the other three flags and all three interval lengths keep their values |
| `PomodoroEngine.WithSoundIdempotent` | src/core/impl/StandardPomodoroEngine.cpp:48-66 | applying a sound setter twice with the same value is the same as applying it once |
| `PomodoroEngine.WithSoundCommutes` | src/core/impl/StandardPomodoroEngine.cpp:48-66 | setters of different flags give the same result in either order |
| `PomodoroEngine.Engine.ChangeSettingSoundNotificationTimerIsSet` | src/core/impl/StandardPomodoroEngine.cpp:48-51 | only the "when timer is set" flag changes, to the argument; the timer is unchanged |
| `PomodoroEngine.Engine.ChangeSettingSoundNotificationDuringPomodoros` | src/core/impl/StandardPomodoroEngine.cpp:53-56 | only the "during pomodoros" flag changes, to the argument; the timer is unchanged |
| `PomodoroEngine.Engine.ChangeSettingSoundNotificationDuringBreaks` | src/core/impl/StandardPomodoroEngine.cpp:58-61 | only the "during breaks" flag changes, to the argument; the timer is unchanged |
| `PomodoroEngine.Engine.ChangeSettingSoundNotificationWhenTimerExpires` | src/core/impl/StandardPomodoroEngine.cpp:63-66 | only the "when timer expires" flag changes, to the argument; the timer is unchanged |
| `TimeText.Split` | src/ui/impl/StandardTrayController.cpp:132-133 | minutes × 60 + seconds equals the count, with the seconds below 60 |
| `TimeText.SplitUnique` | src/ui/impl/StandardTrayController.cpp:132-133 | the split is the only pair of that form |
| `TimeText.Pad2` | src/ui/impl/StandardTrayController.cpp:136 | `%02d` gives at least two digits: exactly the two digits below 100, and the plain decimal from 10 on |
| `TimeText.FormatRemaining` | src/ui/impl/StandardTrayController.cpp:132-136 | the label is digits, then ':' third from the end, then two digits; below 6000 seconds it is five characters, digit by digit the tens and units of the minutes and of the seconds |
| `TimeText.FormatBelowHundredMinutes` | src/ui/impl/StandardTrayController.cpp:132-136 | below 100 minutes the label is the five-character sequence of the minutes' and the seconds' two digits around ':' |
| `TimeText.FormatRemainingRoundTrip` | src/ui/impl/StandardTrayController.cpp:132-136 | parsing the label gives back the count of seconds, for every count |
| `TimeText.FormatRemainingInjective` | src/ui/impl/StandardTrayController.cpp:132-136 | different counts give different labels |
| `TimeText.FormatRemainingExamples` | src/ui/impl/StandardTrayController.cpp:132-136 | 125 gives "02:05", 0 gives "00:00", 59 gives "00:59", 1500 gives "25:00" |
| `TimeText.FormatRemainingPastTwoDigits` | src/ui/impl/StandardTrayController.cpp:136 | 6000 seconds gives "100:00": minutes are not cut to two digits |
| `TrayControl.RemainingShown` | src/ui/impl/StandardTrayController.cpp:130-155 | the remaining-time update sets the label to the formatted count and the icon to the composite of the kind with the minutes; every action flag is unchanged |
| `TrayControl.IdleOf` | src/ui/impl/StandardTrayController.cpp:73-83 | whatever the state before, the idle transition ends in the one idle presentation: "00:00", idle icon (not the composite), stop disabled, all three starts enabled |
| `TrayControl.RunningOf` | src/ui/impl/StandardTrayController.cpp:110-118 | after "timer set" the icon is the kind's plain icon, never the composite; the label is the formatted length; stop is enabled; a start action is enabled iff its kind differs, so exactly two are |
| `TrayControl.RunningForgetsHistory` | src/ui/impl/StandardTrayController.cpp:110-118 | the presentation after "timer set" depends only on the interval, not on what the tray showed before |
| `TrayControl.MirrorsInitially` | src/ui/impl/StandardTrayController.cpp:49-50 | a fresh idle timer and the tray in its initial idle presentation are in step: stop disabled, every start action enabled |
| `TrayControl.EventsKeepTrayInStep` | src/ui/impl/StandardTrayController.cpp:110-123 | if the tray is in step with the timer, it stays in step after a start and after a stop; the idle transition runs only when the timer was running, since only an interrupt raises the "stopped" event. In step means stop is enabled iff the timer runs, and a start action is enabled iff the timer is not running that kind |
| `TrayControl.TickKeepsTrayInStep` | src/ui/impl/StandardTrayController.cpp:125-128 | a "second elapsed" event keeps the tray in step with the timer |
| `TrayControl.TrayController.constructor` | src/ui/impl/StandardTrayController.cpp:41-51 | the tray starts in the idle presentation with the count-reset action disabled |
| `TrayControl.TrayController.SwitchToIdleState` | src/ui/impl/StandardTrayController.cpp:73-83 | the tray ends as `IdleOf` of its prior state, which is the idle presentation |
| `TrayControl.TrayController.StartPomodoro` | src/ui/impl/StandardTrayController.cpp:90-93 | the engine starts a pomodoro; the tray is unchanged |
| `TrayControl.TrayController.StartShortBreak` | src/ui/impl/StandardTrayController.cpp:95-98 | the engine starts a short break; the tray is unchanged |
| `TrayControl.TrayController.StartLongBreak` | src/ui/impl/StandardTrayController.cpp:100-103 | the engine starts a long break; the tray is unchanged |
| `TrayControl.TrayController.StopTimer` | src/ui/impl/StandardTrayController.cpp:105-108 | the engine stops the timer; the tray is unchanged |
| `TrayControl.TrayController.TimerSet` | src/ui/impl/StandardTrayController.cpp:110-118 | the tray ends as `RunningOf`, and the final icon is the plain icon of the kind |
| `TrayControl.TrayController.TimerStopped` | src/ui/impl/StandardTrayController.cpp:120-123 | the tray ends in the idle presentation, whatever it showed before |
| `TrayControl.TrayController.SecondElapsed` | src/ui/impl/StandardTrayController.cpp:125-128 | only the label and the icon change, as `RemainingShown` gives |
| `TrayControl.TrayController.UpdateRemainingTime` | src/ui/impl/StandardTrayController.cpp:130-155 | the tray ends as `RemainingShown` gives |

## Left out

- The signal and slot connections, including the quit action (src/ui/impl/StandardTrayController.cpp:52-70): they are toolkit wiring. The handlers are methods called directly. `EventsKeepTrayInStep` states the assumed wiring. A "set" event carries the interval just set. A "stopped" event follows each interrupt and nothing else, so stopping an idle timer raises no event.
- Pixmap painting and the overlay file name (src/ui/impl/StandardTrayController.cpp:141-155): these are graphics and resource loading. The drawn icon is the abstract value `Composite(kind, minutes)`.
- `showTrayIcon` (src/ui/impl/StandardTrayController.cpp:85-88): it only shows the widget, and has no state the model tracks.
- Icon file resolution: icons are abstract values. The tray is a class with the controller's fields and no behaviour of its own.
- The timer's countdown and clock, and the persistence and getters of the preferences: their code is not part of this model. They are plain state.
- The controller's preferences reference: it is stored but never used in the modelled code.
- The default-constructed interval used by the idle transition: its declaration is not part of this model. It is taken to be a pomodoro of zero seconds. Its kind only affects the composite icon, which is overwritten at once.
- Interval lengths in minutes are `nat`. The preferences' own validation of lengths is not part of this model.
- PomodoroEngine.Engine.Start: requires that 60 × the configured minutes fits in a 32-bit `int`. The C++ multiplication is not checked for overflow, and wrap-around is not modelled.
- TrayControl.TrayController.StartPomodoro, StartShortBreak, StartLongBreak: each carries the same 32-bit bound as `Start`, for the same reason.
- TrayControl.TrayController.UpdateRemainingTime: the count of seconds is a `nat`. The C++ `int` could be negative, and then truncating `/` and `%02d` of a negative number would apply. The timer never reports a negative count, so this case is not modelled.
- TrayControl.TrayController.TimerSet: the interval's seconds (`Interval.seconds`) are a `nat`, while the C++ `Interval::seconds()` is an `int`. The engine only sets the timer to 60 × a non-negative length, so a negative length never reaches the tray.
- TrayControl.TrayController.SecondElapsed: it takes its count as a `nat`, for the same reason. Like the source, it does not check the event's interval kind against the kind last shown as running.
