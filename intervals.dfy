/**
 * The value types shared by the Pomodoro engine and the tray controller:
 * the three kinds of interval, and the interval snapshot that the timer
 * reports with its "set" and "second elapsed" events.
 */
module Intervals {

  /** The closed enumeration of interval kinds. */
  datatype IntervalType = Pomodoro | ShortBreak | LongBreak

  /** An interval of a given kind with a count of seconds (its length when
      the timer is set, the seconds left while it runs). */
  datatype Interval = Interval(kind: IntervalType, seconds: nat)

  /** The default-constructed interval that the idle transition passes to the
      remaining-time update. Its declaration is not part of this model; any
      kind would do here, since the icon drawn from it is overwritten at once. */
  const DefaultInterval := Interval(Pomodoro, 0)

  /** The largest value of a C++ `int` on the platforms the program targets. */
  const MaxInt32 := 0x7fff_ffff
}
