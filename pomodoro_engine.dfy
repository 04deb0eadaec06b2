/**
 * The interval engine: the single authority that starts and stops timed
 * intervals and forwards sound-notification settings to the preferences.
 *
 * The timer and the preferences are collaborators whose code is not part of
 * this model. Each is a class holding just the state the engine reads and
 * changes; the timer also records the calls it receives, so that the order
 * of `interrupt` and `set` is part of its observable state.
 */
module PomodoroEngine {
  import opened Intervals

  /** A call the engine makes on the timer. */
  datatype TimerCall = Interrupt | Set(seconds: nat, kind: IntervalType)

  /** The timer as the engine sees it: whether it runs, the interval it was
      last set to, and the calls received so far, oldest first. */
  datatype TimerState = TimerState(running: bool, current: Interval, calls: seq<TimerCall>)

  /** What the timer's `interrupt` does: it stops, and records the call. */
  function Interrupted(s: TimerState): TimerState {
    s.(running := false, calls := s.calls + [Interrupt])
  }

  /** What the timer's `set` does: it runs the new interval, and records the call. */
  function SetTo(s: TimerState, seconds: nat, kind: IntervalType): TimerState {
    TimerState(true, Interval(kind, seconds), s.calls + [Set(seconds, kind)])
  }

  /** The effect of the engine's `stop` on the timer: it is interrupted if and
      only if it was running; an idle timer is left exactly as it was. */
  function Stopped(s: TimerState): (r: TimerState)
    ensures !r.running && r.current == s.current
    ensures r.calls == s.calls + (if s.running then [Interrupt] else [])
    ensures !s.running ==> r == s
  {
    if s.running then Interrupted(s) else s
  }

  /** The effect of the engine's `start` on the timer: stop first, then set.
      The timer ends running the requested interval, and the calls appended
      are `[interrupt, set]` from a running timer and `[set]` from an idle one. */
  function Started(s: TimerState, seconds: nat, kind: IntervalType): (r: TimerState)
    ensures r.running && r.current == Interval(kind, seconds)
    ensures r.calls == s.calls + (if s.running then [Interrupt, Set(seconds, kind)] else [Set(seconds, kind)])
  {
    SetTo(Stopped(s), seconds, kind)
  }

  /** Stopping twice is stopping once. */
  lemma StoppedIdempotent(s: TimerState)
    ensures Stopped(Stopped(s)) == Stopped(s)
  {
  }

  /** Starting while an interval runs cancels it before the next begins: the
      calls of two starts end with the first `set`, an `interrupt` and the
      second `set`, so at most one interval is ever active. */
  lemma RestartInterruptsFirst(s: TimerState, a: nat, first: IntervalType, b: nat, second: IntervalType)
    ensures var r := Started(Started(s, a, first), b, second);
      && r.current == Interval(second, b)
      && r.calls[|r.calls| - 3..] == [Set(a, first), Interrupt, Set(b, second)]
  {
  }

  /** The timer the engine drives. Its countdown and clock are not part of
      this model; only its running flag, current interval and calls are. */
  class Timer {
    var running: bool
    var current: Interval
    var calls: seq<TimerCall>

    constructor ()
      ensures State() == TimerState(false, DefaultInterval, [])
    {
      running, current, calls := false, DefaultInterval, [];
    }

    function State(): TimerState
      reads this
    {
      TimerState(running, current, calls)
    }

    method IsRunning() returns (r: bool)
      ensures r == running
    {
      r := running;
    }

    method Interrupt()
      modifies this
      ensures State() == Interrupted(old(State()))
    {
      running := false;
      calls := calls + [TimerCall.Interrupt];
    }

    method Set(seconds: nat, kind: IntervalType)
      modifies this
      ensures State() == SetTo(old(State()), seconds, kind)
    {
      running := true;
      current := Interval(kind, seconds);
      calls := calls + [TimerCall.Set(seconds, kind)];
    }
  }

  /** Which of the four sound notifications a setting is about. */
  datatype SoundNotification = WhenTimerIsSet | DuringPomodoros | DuringBreaks | WhenTimerExpires

  /** The user preferences the engine reads and writes: an interval length in
      minutes per interval kind, and the four sound-notification flags. */
  datatype PreferenceValues = PreferenceValues(
    pomodoroMinutes: nat, shortBreakMinutes: nat, longBreakMinutes: nat,
    soundWhenTimerIsSet: bool, soundDuringPomodoros: bool,
    soundDuringBreaks: bool, soundWhenTimerExpires: bool)

  function LengthInMinutes(p: PreferenceValues, kind: IntervalType): nat {
    match kind
    case Pomodoro => p.pomodoroMinutes
    case ShortBreak => p.shortBreakMinutes
    case LongBreak => p.longBreakMinutes
  }

  function Sound(p: PreferenceValues, which: SoundNotification): bool {
    match which
    case WhenTimerIsSet => p.soundWhenTimerIsSet
    case DuringPomodoros => p.soundDuringPomodoros
    case DuringBreaks => p.soundDuringBreaks
    case WhenTimerExpires => p.soundWhenTimerExpires
  }

  /** The preferences after one sound setter: that flag takes the new value,
      the other three flags and every interval length keep theirs. */
  function WithSound(p: PreferenceValues, which: SoundNotification, shouldPlay: bool): (r: PreferenceValues)
    ensures Sound(r, which) == shouldPlay
    ensures forall other :: other != which ==> Sound(r, other) == Sound(p, other)
    ensures forall kind :: LengthInMinutes(r, kind) == LengthInMinutes(p, kind)
  {
    match which
    case WhenTimerIsSet => p.(soundWhenTimerIsSet := shouldPlay)
    case DuringPomodoros => p.(soundDuringPomodoros := shouldPlay)
    case DuringBreaks => p.(soundDuringBreaks := shouldPlay)
    case WhenTimerExpires => p.(soundWhenTimerExpires := shouldPlay)
  }

  /** Applying a setter twice with the same value is applying it once. */
  lemma WithSoundIdempotent(p: PreferenceValues, which: SoundNotification, shouldPlay: bool)
    ensures WithSound(WithSound(p, which, shouldPlay), which, shouldPlay) == WithSound(p, which, shouldPlay)
  {
  }

  /** Setters of different flags may be applied in either order. */
  lemma WithSoundCommutes(p: PreferenceValues, a: SoundNotification, x: bool, b: SoundNotification, y: bool)
    requires a != b
    ensures WithSound(WithSound(p, a, x), b, y) == WithSound(WithSound(p, b, y), a, x)
  {
  }

  /** The preferences store. Its persistence is not part of this model. */
  class Preferences {
    var pomodoroMinutes: nat
    var shortBreakMinutes: nat
    var longBreakMinutes: nat
    var soundWhenTimerIsSet: bool
    var soundDuringPomodoros: bool
    var soundDuringBreaks: bool
    var soundWhenTimerExpires: bool

    constructor (initial: PreferenceValues)
      ensures Values() == initial
    {
      pomodoroMinutes, shortBreakMinutes, longBreakMinutes :=
        initial.pomodoroMinutes, initial.shortBreakMinutes, initial.longBreakMinutes;
      soundWhenTimerIsSet, soundDuringPomodoros := initial.soundWhenTimerIsSet, initial.soundDuringPomodoros;
      soundDuringBreaks, soundWhenTimerExpires := initial.soundDuringBreaks, initial.soundWhenTimerExpires;
    }

    function Values(): PreferenceValues
      reads this
    {
      PreferenceValues(pomodoroMinutes, shortBreakMinutes, longBreakMinutes,
        soundWhenTimerIsSet, soundDuringPomodoros, soundDuringBreaks, soundWhenTimerExpires)
    }

    function IntervalLengthInMinutes(kind: IntervalType): nat
      reads this
    {
      LengthInMinutes(Values(), kind)
    }

    method SetShouldPlaySoundNotificationWhenTimerIsSet(shouldPlay: bool)
      modifies this
      ensures Values() == WithSound(old(Values()), WhenTimerIsSet, shouldPlay)
    {
      soundWhenTimerIsSet := shouldPlay;
    }

    method SetShouldPlaySoundNotificationDuringPomodoros(shouldPlay: bool)
      modifies this
      ensures Values() == WithSound(old(Values()), DuringPomodoros, shouldPlay)
    {
      soundDuringPomodoros := shouldPlay;
    }

    method SetShouldPlaySoundNotificationDuringBreaks(shouldPlay: bool)
      modifies this
      ensures Values() == WithSound(old(Values()), DuringBreaks, shouldPlay)
    {
      soundDuringBreaks := shouldPlay;
    }

    method SetShouldPlaySoundNotificationWhenTimerExpires(shouldPlay: bool)
      modifies this
      ensures Values() == WithSound(old(Values()), WhenTimerExpires, shouldPlay)
    {
      soundWhenTimerExpires := shouldPlay;
    }
  }

  /** The length in seconds of an interval of `minutes` minutes, provided it
      fits in a C++ `int` (the product is not checked for overflow). */
  predicate FitsInt(minutes: nat) {
    60 * minutes <= MaxInt32
  }

  /** The engine over one timer and one preferences store. */
  class Engine {
    const timer: Timer
    const preferences: Preferences

    constructor (timer: Timer, preferences: Preferences)
      ensures this.timer == timer && this.preferences == preferences
    {
      this.timer := timer;
      this.preferences := preferences;
    }

    /** Start an interval of the given kind: stop whatever runs, then set the
        timer to the configured length, in seconds, tagged with the kind. The
        preferences are only read. */
    method Start(kind: IntervalType)
      requires FitsInt(preferences.IntervalLengthInMinutes(kind))
      modifies timer
      ensures timer.State() == Started(old(timer.State()), 60 * preferences.IntervalLengthInMinutes(kind), kind)
      ensures unchanged(preferences)
    {
      Stop();
      var intervalLengthInSeconds := 60 * preferences.IntervalLengthInMinutes(kind);
      timer.Set(intervalLengthInSeconds, kind);
    }

    /** Interrupt the timer if, and only if, it runs; the preferences are untouched. */
    method Stop()
      modifies timer
      ensures timer.State() == Stopped(old(timer.State()))
      ensures !old(timer.running) ==> unchanged(timer)
      ensures unchanged(preferences)
    {
      var running := timer.IsRunning();
      if running {
        timer.Interrupt();
      }
    }

    /** Forward the "play a sound when the timer is set" flag. */
    method ChangeSettingSoundNotificationTimerIsSet(shouldPlay: bool)
      modifies preferences
      ensures preferences.Values() == WithSound(old(preferences.Values()), WhenTimerIsSet, shouldPlay)
      ensures unchanged(timer)
    {
      preferences.SetShouldPlaySoundNotificationWhenTimerIsSet(shouldPlay);
    }

    /** Forward the "play a sound during pomodoros" flag. */
    method ChangeSettingSoundNotificationDuringPomodoros(shouldPlay: bool)
      modifies preferences
      ensures preferences.Values() == WithSound(old(preferences.Values()), DuringPomodoros, shouldPlay)
      ensures unchanged(timer)
    {
      preferences.SetShouldPlaySoundNotificationDuringPomodoros(shouldPlay);
    }

    /** Forward the "play a sound during breaks" flag. */
    method ChangeSettingSoundNotificationDuringBreaks(shouldPlay: bool)
      modifies preferences
      ensures preferences.Values() == WithSound(old(preferences.Values()), DuringBreaks, shouldPlay)
      ensures unchanged(timer)
    {
      preferences.SetShouldPlaySoundNotificationDuringBreaks(shouldPlay);
    }

    /** Forward the "play a sound when the timer expires" flag. */
    method ChangeSettingSoundNotificationWhenTimerExpires(shouldPlay: bool)
      modifies preferences
      ensures preferences.Values() == WithSound(old(preferences.Values()), WhenTimerExpires, shouldPlay)
      ensures unchanged(timer)
    {
      preferences.SetShouldPlaySoundNotificationWhenTimerExpires(shouldPlay);
    }
  }
}
