/**
 * Clock values at minute precision. A time of day is a number of minutes
 * since midnight; the "HHMM" labels stored in the database and produced by
 * Carbon's `format('Hi')` are its text form.
 */
module Clock {
  import opened Wrappers
  import opened Text

  const MinutesPerDay: int := 1440

  /** A time of day: minutes since midnight. */
  type Minute = m: int | 0 <= m < 1440

  /** Any minute count reduced to a time of day (Dafny's `%` is Euclidean, so negatives wrap back from midnight). */
  function Wrap(m: int): Minute {
    m % MinutesPerDay
  }

  function Abs(x: int): nat {
    if x < 0 then -x else x
  }

  /** The "HHMM" label of a time of day, as `format('Hi')` writes it. */
  function Label(m: Minute): (s: string)
    ensures |s| == 4
  {
    var h, mi := m / 60, m % 60;
    [DigitChar(h / 10), DigitChar(h % 10), DigitChar(mi / 10), DigitChar(mi % 10)]
  }

  /** Reading an "HHMM" label: four digits, hours 00-23 and minutes 00-59. */
  function ParseLabel(s: string): Option<Minute> {
    if |s| == 4 && IsDigit(s[0]) && IsDigit(s[1]) && IsDigit(s[2]) && IsDigit(s[3]) then
      var hours := 10 * DigitValue(s[0]) + DigitValue(s[1]);
      var minutes := 10 * DigitValue(s[2]) + DigitValue(s[3]);
      if hours < 24 && minutes < 60 then Some(60 * hours + minutes) else None
    else
      None
  }

  /** Every time of day reads back from its label. */
  lemma LabelRoundTrip(m: Minute)
    ensures ParseLabel(Label(m)) == Some(m)
  {
    var h, mi := m / 60, m % 60;
    assert m == 60 * h + mi;
    assert h == 10 * (h / 10) + h % 10;
    assert mi == 10 * (mi / 10) + mi % 10;
  }

  /** Every label that reads as a time of day is that time's label. */
  lemma ParseLabelInverse(s: string)
    requires ParseLabel(s).Some?
    ensures Label(ParseLabel(s).value) == s
  {
    var hours := 10 * DigitValue(s[0]) + DigitValue(s[1]);
    var minutes := 10 * DigitValue(s[2]) + DigitValue(s[3]);
    var m := 60 * hours + minutes;
    assert m / 60 == hours && m % 60 == minutes;
    assert hours / 10 == DigitValue(s[0]) && hours % 10 == DigitValue(s[1]);
    assert minutes / 10 == DigitValue(s[2]) && minutes % 10 == DigitValue(s[3]);
    var l := Label(m);
    assert l[0] == s[0] && l[1] == s[1] && l[2] == s[2] && l[3] == s[3];
  }

  /** Distinct times of day have distinct labels. */
  lemma LabelInjective(a: Minute, b: Minute)
    requires Label(a) == Label(b)
    ensures a == b
  {
    LabelRoundTrip(a);
    LabelRoundTrip(b);
  }

  /**
   * Carbon's `diffInMinutes` between two "HHMM" times that `Carbon::parse`
   * places on the same day: the absolute difference, with no wrap at midnight.
   */
  function DiffMinutes(a: Minute, b: Minute): (d: nat)
    ensures d <= 1439
    ensures d == 0 <==> a == b
  {
    Abs(a - b)
  }

  /** The same-day difference does not depend on which time comes first. */
  lemma DiffMinutesSymmetric(a: Minute, b: Minute)
    ensures DiffMinutes(a, b) == DiffMinutes(b, a)
  {
  }

  /** The distance between two times of day round the clock face. */
  function CircularDistance(a: Minute, b: Minute): (d: nat)
    ensures d <= 720
  {
    var k := (a - b) % MinutesPerDay;
    if k <= 720 then k else MinutesPerDay - k
  }

  /** The same-day difference ignores midnight: 0005 and 2355 are 1430 minutes apart, not 10. */
  lemma DiffMinutesNoMidnightWrap()
    ensures DiffMinutes(5, 1435) == 1430
    ensures CircularDistance(5, 1435) == 10
  {
  }

  /** Instants are counted in microseconds from the midnight that starts today. */
  const MicrosPerSecond: int := 1_000_000
  const MicrosPerMinute: int := 60_000_000
  const MicrosPerDay: int := 86_400_000_000

  /**
   * Carbon's `diffInMinutes` between two instants: the whole seconds of the
   * absolute difference, then whole minutes of those.
   */
  function InstantDiffMinutes(a: int, b: int): nat {
    (Abs(a - b) / MicrosPerSecond) / 60
  }

  /** A difference of `q` whole minutes and a remainder under a minute reads as `q` minutes. */
  lemma InstantDiffOfMinutes(a: int, b: int, q: nat, r: int)
    requires 0 <= r < MicrosPerMinute && Abs(a - b) == q * MicrosPerMinute + r
    ensures InstantDiffMinutes(a, b) == q
  {
    var secs := q * 60 + r / MicrosPerSecond;
    assert Abs(a - b) == secs * MicrosPerSecond + r % MicrosPerSecond;
    assert Abs(a - b) / MicrosPerSecond == secs;
    assert 0 <= r / MicrosPerSecond < 60;
  }
}
