/**
 * The tray controller: it turns timer events into the tray's presentation
 * (icon, remaining-time label, which actions are enabled) and turns clicks
 * on the tray's actions into engine calls.
 *
 * The tray is a collaborator whose code is not part of this model; it is a
 * class holding the fields the controller sets. Icons are abstract values:
 * the idle icon, the plain icon of an interval kind, or the composite of an
 * interval kind's icon with a minutes overlay.
 */
module TrayControl {
  import opened Intervals
  import opened TimeText
  import opened PomodoroEngine

  datatype Icon = IdleIcon | Plain(kind: IntervalType) | Composite(kind: IntervalType, minutes: nat)

  /** Everything the controller sets on the tray. */
  datatype TrayState = TrayState(
    icon: Icon, remainingText: string,
    stopEnabled: bool, pomodoroEnabled: bool, shortBreakEnabled: bool, longBreakEnabled: bool,
    countResetEnabled: bool)

  /** Whether the action that starts an interval of `kind` is enabled. */
  function StartEnabled(s: TrayState, kind: IntervalType): bool {
    match kind
    case Pomodoro => s.pomodoroEnabled
    case ShortBreak => s.shortBreakEnabled
    case LongBreak => s.longBreakEnabled
  }

  function EnabledStartCount(s: TrayState): nat {
    (if s.pomodoroEnabled then 1 else 0) + (if s.shortBreakEnabled then 1 else 0) + (if s.longBreakEnabled then 1 else 0)
  }

  /** The one idle presentation: "00:00", the idle icon, stop disabled and
      every start action enabled. The count-reset action is never touched by
      the idle transition, so it is a parameter. */
  function IdleState(countResetEnabled: bool): TrayState {
    TrayState(IdleIcon, "00:00", false, true, true, true, countResetEnabled)
  }

  /** The effect of the remaining-time update: the label shows `secondsLeft`
      as minutes and seconds, the icon becomes the interval kind's icon with
      the minutes drawn over it, and no action changes. */
  function RemainingShown(s: TrayState, secondsLeft: nat, interval: Interval): (r: TrayState)
    ensures r.remainingText == FormatRemaining(secondsLeft)
    ensures r.icon == Composite(interval.kind, secondsLeft / 60)
    ensures r.(icon := s.icon, remainingText := s.remainingText) == s
  {
    var (minutes, _) := Split(secondsLeft);
    s.(remainingText := FormatRemaining(secondsLeft), icon := Composite(interval.kind, minutes))
  }

  /** The effect of the idle transition, step by step: the remaining-time
      update for zero seconds, then the idle icon and the actions. Whatever
      the state before, the result is the idle presentation. */
  function IdleOf(s: TrayState): (r: TrayState)
    ensures r == IdleState(s.countResetEnabled)
  {
    var shown := RemainingShown(s, 0, DefaultInterval);
    FormatRemainingExamples();
    shown.(icon := IdleIcon, stopEnabled := false, pomodoroEnabled := true, shortBreakEnabled := true, longBreakEnabled := true)
  }

  /** The effect of the "timer set" event, step by step: the remaining-time
      update for the interval's length, then the kind's plain icon and the
      actions. The composite icon drawn by the update does not survive; stop
      is enabled, and exactly the two start actions of the other kinds are. */
  function RunningOf(s: TrayState, interval: Interval): (r: TrayState)
    ensures r.icon == Plain(interval.kind) && !r.icon.Composite?
    ensures r.remainingText == FormatRemaining(interval.seconds)
    ensures r.stopEnabled
    ensures forall kind :: StartEnabled(r, kind) <==> kind != interval.kind
    ensures EnabledStartCount(r) == 2
    ensures r.countResetEnabled == s.countResetEnabled
  {
    var shown := RemainingShown(s, interval.seconds, interval);
    shown.(icon := Plain(interval.kind), stopEnabled := true,
      pomodoroEnabled := interval.kind != Pomodoro,
      shortBreakEnabled := interval.kind != ShortBreak,
      longBreakEnabled := interval.kind != LongBreak)
  }

  /** The running presentation depends on the interval alone, not on what
      the tray showed before: restarting from any state, idle or running
      another kind, ends in the same place. */
  lemma RunningForgetsHistory(s: TrayState, t: TrayState, interval: Interval)
    requires s.countResetEnabled == t.countResetEnabled
    ensures RunningOf(s, interval) == RunningOf(t, interval)
  {
  }

  /** The tray mirrors the timer: stop is enabled exactly when the timer
      runs, and a start action exactly when the timer does not run an
      interval of that kind. */
  predicate Mirrors(timer: TimerState, tray: TrayState) {
    && tray.stopEnabled == timer.running
    && forall kind :: StartEnabled(tray, kind) <==> !(timer.running && timer.current.kind == kind)
  }

  /** A fresh timer and a freshly constructed controller are in step. */
  lemma MirrorsInitially()
    ensures Mirrors(TimerState(false, DefaultInterval, []), IdleState(false))
  {
  }

  /** The tray stays in step with the timer across a start and a stop. The
      timer's "stopped" event follows an interrupt only, so the idle
      transition runs only when the timer was running; its "set" event
      carries the interval just set. */
  lemma EventsKeepTrayInStep(timer: TimerState, tray: TrayState, seconds: nat, kind: IntervalType)
    requires Mirrors(timer, tray)
    ensures Mirrors(Started(timer, seconds, kind),
      RunningOf(if timer.running then IdleOf(tray) else tray, Interval(kind, seconds)))
    ensures Mirrors(Stopped(timer), if timer.running then IdleOf(tray) else tray)
  {
    if !timer.running {
      forall k ensures StartEnabled(tray, k) {
        assert StartEnabled(tray, k) <==> !(timer.running && timer.current.kind == k);
      }
    }
  }

  /** A "second elapsed" event keeps the tray in step: it changes no action. */
  lemma TickKeepsTrayInStep(timer: TimerState, tray: TrayState, secondsLeft: nat, interval: Interval)
    requires Mirrors(timer, tray)
    ensures Mirrors(timer, RemainingShown(tray, secondsLeft, interval))
  {
    var r := RemainingShown(tray, secondsLeft, interval);
    forall k ensures StartEnabled(r, k) == StartEnabled(tray, k) {
    }
  }

  /** The tray widget. Showing it and drawing pixmaps are not part of this model. */
  class Tray {
    var icon: Icon
    var remainingText: string
    var stopEnabled: bool
    var pomodoroEnabled: bool
    var shortBreakEnabled: bool
    var longBreakEnabled: bool
    var countResetEnabled: bool

    constructor (initial: TrayState)
      ensures State() == initial
    {
      icon, remainingText := initial.icon, initial.remainingText;
      stopEnabled, pomodoroEnabled := initial.stopEnabled, initial.pomodoroEnabled;
      shortBreakEnabled, longBreakEnabled := initial.shortBreakEnabled, initial.longBreakEnabled;
      countResetEnabled := initial.countResetEnabled;
    }

    function State(): TrayState
      reads this
    {
      TrayState(icon, remainingText, stopEnabled, pomodoroEnabled, shortBreakEnabled, longBreakEnabled, countResetEnabled)
    }

    method SetIcon(i: Icon)
      modifies this
      ensures State() == old(State()).(icon := i)
    {
      icon := i;
    }

    method SetRemainingTimeText(text: string)
      modifies this
      ensures State() == old(State()).(remainingText := text)
    {
      remainingText := text;
    }

    method EnableStopTimerAction(enable: bool)
      modifies this
      ensures State() == old(State()).(stopEnabled := enable)
    {
      stopEnabled := enable;
    }

    method EnablePomodoroAction(enable: bool)
      modifies this
      ensures State() == old(State()).(pomodoroEnabled := enable)
    {
      pomodoroEnabled := enable;
    }

    method EnableShortBreakAction(enable: bool)
      modifies this
      ensures State() == old(State()).(shortBreakEnabled := enable)
    {
      shortBreakEnabled := enable;
    }

    method EnableLongBreakAction(enable: bool)
      modifies this
      ensures State() == old(State()).(longBreakEnabled := enable)
    {
      longBreakEnabled := enable;
    }

    method EnablePomodoroCountResetAction(enable: bool)
      modifies this
      ensures State() == old(State()).(countResetEnabled := enable)
    {
      countResetEnabled := enable;
    }
  }

  /** The controller between one tray and one engine. Its handlers are
      called directly; the signal connections that route tray clicks and
      timer events to them are not part of this model. */
  class TrayController {
    const tray: Tray
    const engine: Engine

    /** The count-reset action starts disabled and the tray starts idle. */
    constructor (tray: Tray, engine: Engine)
      modifies tray
      ensures this.tray == tray && this.engine == engine
      ensures tray.State() == IdleState(false)
    {
      this.tray := tray;
      this.engine := engine;
      new;
      tray.EnablePomodoroCountResetAction(false);
      SwitchToIdleState();
    }

    method SwitchToIdleState()
      modifies tray
      ensures tray.State() == IdleOf(old(tray.State()))
      ensures tray.State() == IdleState(old(tray.countResetEnabled))
    {
      UpdateRemainingTime(0, DefaultInterval);
      tray.SetIcon(IdleIcon);
      tray.EnableStopTimerAction(false);
      tray.EnablePomodoroAction(true);
      tray.EnableShortBreakAction(true);
      tray.EnableLongBreakAction(true);
    }

    method StartPomodoro()
      requires FitsInt(engine.preferences.IntervalLengthInMinutes(Pomodoro))
      modifies engine.timer
      ensures engine.timer.State() ==
        Started(old(engine.timer.State()), 60 * engine.preferences.IntervalLengthInMinutes(Pomodoro), Pomodoro)
      ensures unchanged(tray) && unchanged(engine.preferences)
    {
      engine.Start(Pomodoro);
    }

    method StartShortBreak()
      requires FitsInt(engine.preferences.IntervalLengthInMinutes(ShortBreak))
      modifies engine.timer
      ensures engine.timer.State() ==
        Started(old(engine.timer.State()), 60 * engine.preferences.IntervalLengthInMinutes(ShortBreak), ShortBreak)
      ensures unchanged(tray) && unchanged(engine.preferences)
    {
      engine.Start(ShortBreak);
    }

    method StartLongBreak()
      requires FitsInt(engine.preferences.IntervalLengthInMinutes(LongBreak))
      modifies engine.timer
      ensures engine.timer.State() ==
        Started(old(engine.timer.State()), 60 * engine.preferences.IntervalLengthInMinutes(LongBreak), LongBreak)
      ensures unchanged(tray) && unchanged(engine.preferences)
    {
      engine.Start(LongBreak);
    }

    method StopTimer()
      modifies engine.timer
      ensures engine.timer.State() == Stopped(old(engine.timer.State()))
      ensures unchanged(tray) && unchanged(engine.preferences)
    {
      engine.Stop();
    }

    /** The "timer set" event: the tray shows the interval's kind as running,
        with its plain icon (the composite drawn first is overwritten). */
    method TimerSet(interval: Interval)
      modifies tray
      ensures tray.State() == RunningOf(old(tray.State()), interval)
      ensures tray.icon == Plain(interval.kind)
    {
      UpdateRemainingTime(interval.seconds, interval);
      tray.SetIcon(Plain(interval.kind));
      tray.EnableStopTimerAction(true);
      tray.EnablePomodoroAction(interval.kind != Pomodoro);
      tray.EnableShortBreakAction(interval.kind != ShortBreak);
      tray.EnableLongBreakAction(interval.kind != LongBreak);
    }

    /** The "timer stopped" event: back to the idle presentation. */
    method TimerStopped()
      modifies tray
      ensures tray.State() == IdleState(old(tray.countResetEnabled))
    {
      SwitchToIdleState();
    }

    /** The "second elapsed" event: only the label and the icon change. The
        interval's kind is taken as given, with no check against the kind
        the tray last showed as running. */
    method SecondElapsed(secondsLeft: nat, interval: Interval)
      modifies tray
      ensures tray.State() == RemainingShown(old(tray.State()), secondsLeft, interval)
    {
      UpdateRemainingTime(secondsLeft, interval);
    }

    method UpdateRemainingTime(secondsLeft: nat, interval: Interval)
      modifies tray
      ensures tray.State() == RemainingShown(old(tray.State()), secondsLeft, interval)
    {
      var minutes := secondsLeft / 60;
      var seconds := secondsLeft - minutes * 60;
      tray.SetRemainingTimeText(Pad2(minutes) + ":" + Pad2(seconds));
      tray.SetIcon(Composite(interval.kind, minutes));
    }
  }
}
