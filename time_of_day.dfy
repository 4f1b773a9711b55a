/**
 * The two "HH:MM" conversions of the scheduler (`timeToMinutes`, `minutesToTime`).
 * A NaN result of `timeToMinutes` is `None`.
 */
module TimeOfDay {
  import opened Wrappers
  import opened Strings

  /**
   * `timeToMinutes`: split at ':' and read the first two pieces as hours and minutes.
   * A missing minutes piece, or a piece that is not a digit string, gives NaN.
   */
  function TimeToMinutes(timeStr: string): (r: Option<nat>)
    ensures ':' !in timeStr ==> r.None?
  {
    if ':' !in timeStr then SplitWithoutSep(timeStr, ':'); HoursAndMinutes(Split(timeStr, ':'))
    else HoursAndMinutes(Split(timeStr, ':'))
  }

  /** `hours * 60 + minutes` for the first two pieces of the split text. */
  function HoursAndMinutes(parts: seq<string>): (r: Option<nat>)
    requires |parts| >= 1
  {
    var hours := ParseNumber(parts[0]);
    var minutes := if |parts| >= 2 then ParseNumber(parts[1]) else None;
    if hours.Some? && minutes.Some? then Some(hours.value * 60 + minutes.value) else None
  }

  /** `n.toString().padStart(2, '0')`. */
  function Pad2(n: nat): string {
    PadStart(NatToString(n), 2, '0')
  }

  /** The padded text is a digit string worth `n`, exactly two characters long below 100. */
  lemma Pad2Value(n: nat)
    ensures AllDigits(Pad2(n)) && DigitsValue(Pad2(n)) == n
    ensures |Pad2(n)| == 2 <==> n < 100
  {
    NatToStringShape(n);
    NatToStringValue(n);
    PadZerosValue(NatToString(n), 2);
  }

  /** `minutesToTime`: whole hours and the remaining minutes, each written with at least two digits. */
  function MinutesToTime(minutes: nat): (r: string)
    ensures |r| >= 5
    ensures minutes < 6000 <==> |r| == 5
  {
    Pad2Value(minutes / 60);
    Pad2Value(minutes % 60);
    Pad2(minutes / 60) + ":" + Pad2(minutes % 60)
  }

  lemma DigitsHaveNoColon(s: string)
    requires AllDigits(s)
    ensures ':' !in s
  {
  }

  /** The pieces of "H:M" are read as hours and minutes. */
  lemma ReadPieces(h: string, mm: string)
    requires AllDigits(h) && AllDigits(mm)
    ensures HoursAndMinutes([h, mm]) == Some(DigitsValue(h) * 60 + DigitsValue(mm))
  {
  }

  /** Two digit strings joined by a colon read as hours and minutes. */
  lemma ReadHoursMinutes(h: string, mm: string, t: string)
    requires t == h + [':'] + mm
    requires AllDigits(h) && AllDigits(mm)
    ensures TimeToMinutes(t) == Some(DigitsValue(h) * 60 + DigitsValue(mm))
  {
    DigitsHaveNoColon(h);
    DigitsHaveNoColon(mm);
    SplitTwo(h, ':', mm);
    ReadPieces(h, mm);
  }

  /** Reading back a written time of day gives the minute count again, for every count. */
  lemma RoundTrip(m: nat)
    ensures TimeToMinutes(MinutesToTime(m)) == Some(m)
  {
    var h, mm := Pad2(m / 60), Pad2(m % 60);
    Pad2Value(m / 60);
    Pad2Value(m % 60);
    ReadHoursMinutes(h, mm, MinutesToTime(m));
  }

  /** The layout of two two-character pieces around a colon. */
  lemma Layout(h: string, mm: string, r: string)
    requires r == h + [':'] + mm && |h| == 2 && |mm| == 2
    ensures |r| == 5 && r[2] == ':' && r[..2] == h && r[3..] == mm
  {
  }

  /** Below 100 hours the text is exactly "HH:MM": two zero-padded digits, a colon, two digits. */
  lemma Format(m: nat)
    requires m < 6000
    ensures var r := MinutesToTime(m);
      && |r| == 5 && r[2] == ':'
      && AllDigits(r[..2]) && DigitsValue(r[..2]) == m / 60
      && AllDigits(r[3..]) && DigitsValue(r[3..]) == m % 60
  {
    Pad2Value(m / 60);
    Pad2Value(m % 60);
    Layout(Pad2(m / 60), Pad2(m % 60), MinutesToTime(m));
  }
}
