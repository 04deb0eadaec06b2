/**
 * The arithmetic and text core of the tray's remaining-time display: the
 * split of a count of seconds into minutes and seconds, and the
 * `"%02d:%02d"` rendering of the two, together with a parser that inverts
 * the rendering.
 */
module TimeText {

  datatype Option<T> = None | Some(value: T)

  /** Minutes and seconds of a non-negative count of seconds: `minutes` is the
      quotient by 60 and `seconds` what is left over. For a non-negative
      dividend C++'s truncating `/` and Dafny's Euclidean `/` agree. */
  function Split(secondsLeft: nat): (r: (nat, nat))
    ensures r.0 * 60 + r.1 == secondsLeft
    ensures r.1 < 60
  {
    var minutes := secondsLeft / 60;
    (minutes, secondsLeft - minutes * 60)
  }

  /** The split is the only pair of minutes and seconds below 60 that adds
      back up to the count. */
  lemma SplitUnique(secondsLeft: nat, minutes: nat, seconds: nat)
    requires minutes * 60 + seconds == secondsLeft && seconds < 60
    ensures Split(secondsLeft) == (minutes, seconds)
  {
  }

  predicate IsDigit(c: char) {
    '0' <= c <= '9'
  }

  predicate AllDigits(s: string) {
    forall i :: 0 <= i < |s| ==> IsDigit(s[i])
  }

  function DigitValue(c: char): (d: nat)
    requires IsDigit(c)
    ensures d < 10
  {
    c as int - '0' as int
  }

  /** The decimal digit character for a value below ten. */
  function DigitChar(d: nat): (c: char)
    requires d < 10
    ensures IsDigit(c) && DigitValue(c) == d
  {
    ('0' as int + d) as char
  }

  /** The shortest decimal rendering of `n`, as `%d` prints a non-negative int. */
  function Decimal(n: nat): (r: string)
    ensures 1 <= |r| && AllDigits(r)
    ensures n < 10 <==> |r| == 1
    ensures n < 10 ==> r == [DigitChar(n)]
    ensures 10 <= n < 100 ==> r == [DigitChar(n / 10), DigitChar(n % 10)]
    ensures 10 <= n ==> r[0] != '0'
  {
    if n < 10 then [DigitChar(n)] else Decimal(n / 10) + [DigitChar(n % 10)]
  }

  /** The value of a string of decimal digits (leading zeros allowed). */
  function ParseDecimal(s: string): nat
    requires AllDigits(s)
  {
    if s == [] then 0 else ParseDecimal(s[..|s| - 1]) * 10 + DigitValue(s[|s| - 1])
  }

  /** Reading back a decimal rendering gives the number rendered. */
  lemma {:induction false} ParseDecimalOfDecimal(n: nat)
    ensures ParseDecimal(Decimal(n)) == n
  {
    if n >= 10 {
      var s := Decimal(n);
      assert s[..|s| - 1] == Decimal(n / 10);
      ParseDecimalOfDecimal(n / 10);
    }
  }

  /** `%02d` of a non-negative int: at least two digits, a leading zero
      added below ten, every digit printed from ten on. */
  function Pad2(n: nat): (r: string)
    ensures 2 <= |r| && AllDigits(r)
    ensures n < 100 ==> r == [DigitChar(n / 10), DigitChar(n % 10)]
    ensures 10 <= n ==> r == Decimal(n)
  {
    if n < 10 then "0" + Decimal(n) else Decimal(n)
  }

  lemma ParseDecimalOfPad2(n: nat)
    ensures ParseDecimal(Pad2(n)) == n
  {
    if n < 10 {
      var s := Pad2(n);
      assert s[..1] == "0" && s[1] == DigitChar(n);
      assert ParseDecimal(s[..1]) == 0 by {
        assert s[..1][..0] == [];
      }
    } else {
      ParseDecimalOfDecimal(n);
    }
  }

  /** The remaining-time label: `"%02d:%02d"` of the minutes and seconds of
      `secondsLeft`. Below 100 minutes it is exactly five characters, the
      minutes' two digits, a colon and the seconds' two digits; from 100
      minutes on the minutes take as many digits as they need, so the colon
      is always third from the end. */
  function FormatRemaining(secondsLeft: nat): (text: string)
    ensures 5 <= |text| && text[|text| - 3] == ':'
    ensures AllDigits(text[..|text| - 3]) && AllDigits(text[|text| - 2..])
    ensures secondsLeft < 6000 ==>
      && |text| == 5
      && text[0] == DigitChar(secondsLeft / 600)
      && text[1] == DigitChar(secondsLeft / 60 % 10)
      && text[2] == ':'
      && text[3] == DigitChar(secondsLeft % 60 / 10)
      && text[4] == DigitChar(secondsLeft % 10)
  {
    var (minutes, seconds) := Split(secondsLeft);
    assert minutes == secondsLeft / 60 && seconds == secondsLeft % 60;
    assert minutes / 10 == secondsLeft / 600;
    assert seconds % 10 == secondsLeft % 10;
    var text := Pad2(minutes) + ":" + Pad2(seconds);
    assert text[..|text| - 3] == Pad2(minutes);
    assert text[|text| - 2..] == Pad2(seconds);
    text
  }

  /** The inverse of FormatRemaining: a run of at least two digits, a colon,
      and two digits worth less than 60, read as minutes and seconds. */
  function ParseRemaining(text: string): Option<nat> {
    if |text| < 5 || text[|text| - 3] != ':' then None
    else
      var minutesPart, secondsPart := text[..|text| - 3], text[|text| - 2..];
      if AllDigits(minutesPart) && AllDigits(secondsPart) && ParseDecimal(secondsPart) < 60
      then Some(ParseDecimal(minutesPart) * 60 + ParseDecimal(secondsPart))
      else None
  }

  /** The label determines the count it was rendered from. */
  lemma FormatRemainingRoundTrip(secondsLeft: nat)
    ensures ParseRemaining(FormatRemaining(secondsLeft)) == Some(secondsLeft)
  {
    var (minutes, seconds) := Split(secondsLeft);
    var text := FormatRemaining(secondsLeft);
    assert text == Pad2(minutes) + ":" + Pad2(seconds);
    assert text[..|text| - 3] == Pad2(minutes);
    assert text[|text| - 2..] == Pad2(seconds);
    ParseDecimalOfPad2(minutes);
    ParseDecimalOfPad2(seconds);
  }

  /** Two different counts never share a label. */
  lemma FormatRemainingInjective(a: nat, b: nat)
    requires FormatRemaining(a) == FormatRemaining(b)
    ensures a == b
  {
    FormatRemainingRoundTrip(a);
    FormatRemainingRoundTrip(b);
  }

  /** Sample renderings: 125 seconds, zero, 59 seconds and a 25-minute pomodoro. */
  lemma FormatRemainingExamples()
    ensures FormatRemaining(125) == "02:05"
    ensures FormatRemaining(0) == "00:00"
    ensures FormatRemaining(59) == "00:59"
    ensures FormatRemaining(1500) == "25:00"
  {
    assert DigitChar(0) == '0' && DigitChar(2) == '2' && DigitChar(5) == '5' && DigitChar(9) == '9';
    FormatBelowHundredMinutes(125);
    assert 125 / 600 == 0 && 125 / 60 % 10 == 2 && 125 % 60 / 10 == 0 && 125 % 10 == 5;
    FormatBelowHundredMinutes(0);
    FormatBelowHundredMinutes(59);
    assert 59 / 600 == 0 && 59 / 60 % 10 == 0 && 59 % 60 / 10 == 5 && 59 % 10 == 9;
    FormatBelowHundredMinutes(1500);
    assert 1500 / 600 == 2 && 1500 / 60 % 10 == 5 && 1500 % 60 / 10 == 0 && 1500 % 10 == 0;
  }

  lemma FormatBelowHundredMinutes(secondsLeft: nat)
    requires secondsLeft < 6000
    ensures FormatRemaining(secondsLeft) == [DigitChar(secondsLeft / 600), DigitChar(secondsLeft / 60 % 10),
      ':', DigitChar(secondsLeft % 60 / 10), DigitChar(secondsLeft % 10)]
  {
  }

  /** From 100 minutes on the minutes are not cut to two digits. */
  lemma FormatRemainingPastTwoDigits()
    ensures FormatRemaining(6000) == "100:00"
  {
    assert Split(6000) == (100, 0);
    assert Decimal(10) == "10";
    assert Decimal(100) == "100";
  }
}
