/**
 * A broken-down wall-clock time and its fixed-width renderings: the
 * `yyyy-MM-dd` date, the `HH:mm:ss.ff` clock, and the `yyyyMMdd_HH` and
 * `yyyyMMddHH` hour keys used to name files and to decide rotation.
 */
module Timestamps {

  /** Year, month, day, hour, minute, second and hundredths of a second. */
  datatype DateTime = DateTime(year: int, month: int, day: int, hour: int, minute: int, second: int, hundredths: int)
  {
    predicate Valid() {
      && 1 <= year <= 9999 && 1 <= month <= 12 && 1 <= day <= 31
      && 0 <= hour < 24 && 0 <= minute < 60 && 0 <= second < 60 && 0 <= hundredths < 100
    }
  }

  /** Every representable instant: the host's date type never leaves these ranges. */
  type Time = t: DateTime | t.Valid() witness DateTime(1, 1, 1, 0, 0, 0, 0)

  /** The date type's default value, 0001-01-01 00:00:00.00. */
  const MinValue: Time := DateTime(1, 1, 1, 0, 0, 0, 0)

  function Pow10(n: nat): (p: nat)
    ensures p >= 1
  {
    if n == 0 then 1 else 10 * Pow10(n - 1)
  }

  predicate IsDigit(c: char) {
    '0' <= c <= '9'
  }

  function DigitChar(d: nat): (c: char)
    requires d < 10
    ensures IsDigit(c) && c as int - '0' as int == d
  {
    ('0' as int + d) as char
  }

  /** `n` written in decimal, zero-padded on the left to exactly `width` digits. */
  function Digits(n: nat, width: nat): (s: string)
    requires n < Pow10(width)
    ensures |s| == width
    ensures forall i :: 0 <= i < |s| ==> IsDigit(s[i])
  {
    if width == 0 then [] else Digits(n / 10, width - 1) + [DigitChar(n % 10)]
  }

  /** Reads a string of decimal digits back as a number. */
  function ParseDigits(s: string): int {
    if s == [] then 0 else 10 * ParseDigits(s[..|s| - 1]) + (s[|s| - 1] as int - '0' as int)
  }

  /** Reading a rendered number back gives the number: no digit is lost. */
  lemma {:induction false} DigitsRoundTrip(n: nat, width: nat)
    requires n < Pow10(width)
    ensures ParseDigits(Digits(n, width)) == n
  {
    if width > 0 {
      var s := Digits(n, width);
      assert s[..|s| - 1] == Digits(n / 10, width - 1);
      DigitsRoundTrip(n / 10, width - 1);
    }
  }

  lemma DigitsInjective(a: nat, b: nat, width: nat)
    requires a < Pow10(width) && b < Pow10(width)
    ensures Digits(a, width) == Digits(b, width) <==> a == b
  {
    if Digits(a, width) == Digits(b, width) {
      DigitsRoundTrip(a, width);
      DigitsRoundTrip(b, width);
    }
  }

  /** `yyyy-MM-dd` */
  function DateText(t: Time): (s: string)
    ensures |s| == 10
  {
    Digits(t.year, 4) + "-" + Digits(t.month, 2) + "-" + Digits(t.day, 2)
  }

  /** `HH:mm:ss.ff` */
  function ClockText(t: Time): (s: string)
    ensures |s| == 11
  {
    Digits(t.hour, 2) + ":" + Digits(t.minute, 2) + ":" + Digits(t.second, 2) + "." + Digits(t.hundredths, 2)
  }

  /** `yyyyMMdd_HH`, the hour key in file names. */
  function HourKey(t: Time): (s: string)
    ensures |s| == 11
  {
    Digits(t.year, 4) + Digits(t.month, 2) + Digits(t.day, 2) + "_" + Digits(t.hour, 2)
  }

  /** `yyyyMMddHH`, the key compared to decide whether to rotate. */
  function CompactHourKey(t: Time): (s: string)
    ensures |s| == 10
  {
    Digits(t.year, 4) + Digits(t.month, 2) + Digits(t.day, 2) + Digits(t.hour, 2)
  }

  /**
   * Both hour keys are ten decimal digits, the file-name key with an
   * underscore before the hour; dropping it gives the rotation key.
   */
  lemma HourKeyLayout(t: Time)
    ensures var key := HourKey(t);
      && key[8] == '_'
      && (forall i :: 0 <= i < 11 && i != 8 ==> IsDigit(key[i]))
      && CompactHourKey(t) == key[..8] + key[9..]
  {
    var date := Digits(t.year, 4) + Digits(t.month, 2) + Digits(t.day, 2);
    assert HourKey(t) == date + "_" + Digits(t.hour, 2);
    assert HourKey(t)[..8] == date && HourKey(t)[9..] == Digits(t.hour, 2);
  }

  /** Two instants fall in the same clock hour of the same day. */
  predicate SameHour(a: Time, b: Time) {
    a.year == b.year && a.month == b.month && a.day == b.day && a.hour == b.hour
  }

  /** The file-name hour key identifies the hour and nothing finer. */
  lemma HourKeyIdentifiesHour(a: Time, b: Time)
    ensures HourKey(a) == HourKey(b) <==> SameHour(a, b)
  {
    if HourKey(a) == HourKey(b) {
      var ka, kb := HourKey(a), HourKey(b);
      assert ka[..4] == Digits(a.year, 4) && kb[..4] == Digits(b.year, 4);
      assert ka[4..6] == Digits(a.month, 2) && kb[4..6] == Digits(b.month, 2);
      assert ka[6..8] == Digits(a.day, 2) && kb[6..8] == Digits(b.day, 2);
      assert ka[9..] == Digits(a.hour, 2) && kb[9..] == Digits(b.hour, 2);
      DigitsInjective(a.year, b.year, 4);
      DigitsInjective(a.month, b.month, 2);
      DigitsInjective(a.day, b.day, 2);
      DigitsInjective(a.hour, b.hour, 2);
    }
  }

  /** The rotation key differs exactly when the clock hour has changed. */
  lemma CompactHourKeyIdentifiesHour(a: Time, b: Time)
    ensures CompactHourKey(a) == CompactHourKey(b) <==> SameHour(a, b)
  {
    if CompactHourKey(a) == CompactHourKey(b) {
      var ka, kb := CompactHourKey(a), CompactHourKey(b);
      assert ka[..4] == Digits(a.year, 4) && kb[..4] == Digits(b.year, 4);
      assert ka[4..6] == Digits(a.month, 2) && kb[4..6] == Digits(b.month, 2);
      assert ka[6..8] == Digits(a.day, 2) && kb[6..8] == Digits(b.day, 2);
      assert ka[8..] == Digits(a.hour, 2) && kb[8..] == Digits(b.hour, 2);
      DigitsInjective(a.year, b.year, 4);
      DigitsInjective(a.month, b.month, 2);
      DigitsInjective(a.day, b.day, 2);
      DigitsInjective(a.hour, b.hour, 2);
    }
  }
}
