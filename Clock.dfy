/**
 * Times of day as minutes since midnight, their `HH:MM` display label
 * and the timestamp key that joins slots to bookings.
 *
 * The app renders the label with `toTimeString().substring(0, 5)` and
 * the key with `toISOString()`. Here the key is an abstract, injective
 * rendering of (date, minute): the date string, a `T`, and the label.
 */
module Clock {
  import opened Wrappers

  const MinutesPerDay := 24 * 60

  /** A time-of-day bound `HH:MM`, 00:00 up to and including 24:00. */
  type TimeOfDay = m: int | 0 <= m <= MinutesPerDay

  /** The minute at which some slot of a day starts. */
  type Minute = m: int | 0 <= m < MinutesPerDay

  function Digit(d: int): (c: char)
    requires 0 <= d < 10
    ensures '0' <= c <= '9'
  {
    ('0' as int + d) as char
  }

  predicate IsDigit(c: char)
  {
    '0' <= c <= '9'
  }

  function DigitValue(c: char): (d: int)
    requires IsDigit(c)
    ensures 0 <= d < 10
  {
    c as int - '0' as int
  }

  /** The zero-padded `HH:MM` label of a minute. */
  function Label(m: Minute): (s: string)
    ensures |s| == 5 && s[2] == ':'
  {
    var h, mm := m / 60, m % 60;
    [Digit(h / 10), Digit(h % 10), ':', Digit(mm / 10), Digit(mm % 10)]
  }

  /** The text is an `HH:MM` label: two-digit hours below 24, a colon, two-digit minutes below 60. */
  predicate IsLabel(s: string)
  {
    && |s| == 5 && s[2] == ':'
    && IsDigit(s[0]) && IsDigit(s[1]) && IsDigit(s[3]) && IsDigit(s[4])
    && DigitValue(s[0]) * 10 + DigitValue(s[1]) < 24
    && DigitValue(s[3]) < 6
  }

  /** Reads an `HH:MM` label back into minutes since midnight; `None` when the text is not one. */
  function ParseLabel(s: string): (r: Option<int>)
    ensures r.Some? <==> IsLabel(s)
    ensures r.Some? ==> 0 <= r.value < MinutesPerDay
  {
    if IsLabel(s) then
      Some((DigitValue(s[0]) * 10 + DigitValue(s[1])) * 60 + DigitValue(s[3]) * 10 + DigitValue(s[4]))
    else
      None
  }

  lemma DigitRoundTrip(d: int)
    requires 0 <= d < 10
    ensures DigitValue(Digit(d)) == d
  {
  }

  /** Reading a label gives back the minute it was made from. */
  lemma LabelRoundTrip(m: Minute)
    ensures ParseLabel(Label(m)) == Some(m)
  {
    var h, mm := m / 60, m % 60;
    DigitRoundTrip(h / 10);
    DigitRoundTrip(h % 10);
    DigitRoundTrip(mm / 10);
    DigitRoundTrip(mm % 10);
    assert h / 10 * 10 + h % 10 == h;
    assert mm / 10 * 10 + mm % 10 == mm;
  }

  lemma DigitOfValue(c: char)
    requires IsDigit(c)
    ensures Digit(DigitValue(c)) == c
  {
  }

  /** Every text the parser accepts is the label of the minute it reads as. */
  lemma ParsedIsLabel(s: string)
    requires ParseLabel(s).Some?
    ensures Label(ParseLabel(s).value) == s
  {
    var m := ParseLabel(s).value;
    var h := DigitValue(s[0]) * 10 + DigitValue(s[1]);
    var mm := DigitValue(s[3]) * 10 + DigitValue(s[4]);
    assert m == h * 60 + mm && 0 <= mm < 60;
    assert m / 60 == h && m % 60 == mm;
    assert h / 10 == DigitValue(s[0]) && h % 10 == DigitValue(s[1]);
    assert mm / 10 == DigitValue(s[3]) && mm % 10 == DigitValue(s[4]);
    DigitOfValue(s[0]);
    DigitOfValue(s[1]);
    DigitOfValue(s[3]);
    DigitOfValue(s[4]);
    assert Label(m) == [s[0], s[1], ':', s[3], s[4]];
  }

  /** Distinct minutes have distinct labels. */
  lemma LabelInjective(m1: Minute, m2: Minute)
    ensures Label(m1) == Label(m2) ==> m1 == m2
  {
    LabelRoundTrip(m1);
    LabelRoundTrip(m2);
  }

  /** The timestamp key of the slot starting at minute `m` of `date`: six characters longer than the date. */
  function DateTimeKey(date: string, m: Minute): (k: string)
    ensures |k| == |date| + 6
  {
    date + "T" + Label(m)
  }

  /** The date a key was made from. */
  function KeyDate(k: string): string
  {
    if |k| < 6 then [] else k[..|k| - 6]
  }

  /** The minute a key was made from, or `None` when its tail is not a label. */
  function KeyMinute(k: string): Option<int>
  {
    if |k| < 6 then None else ParseLabel(k[|k| - 5..])
  }

  /** A key can be read back into its date and its minute. */
  lemma KeyRoundTrip(date: string, m: Minute)
    ensures KeyDate(DateTimeKey(date, m)) == date
    ensures KeyMinute(DateTimeKey(date, m)) == Some(m)
  {
    var k := DateTimeKey(date, m);
    assert k[..|k| - 6] == date;
    assert k[|k| - 5..] == Label(m);
    LabelRoundTrip(m);
  }

  /** Two slots share a key only when they share both date and minute. */
  lemma DateTimeKeyInjective(d1: string, m1: Minute, d2: string, m2: Minute)
    ensures DateTimeKey(d1, m1) == DateTimeKey(d2, m2) ==> d1 == d2 && m1 == m2
  {
    KeyRoundTrip(d1, m1);
    KeyRoundTrip(d2, m2);
  }
}
