/**
 * Reading back the duration texts the views print (`2h 5m`, `2h`, `5m`): the partner of the
 * duration formatters of the daily summary and of the week cards.
 */
module Durations {
  import opened Wrappers
  import opened Strings

  /** The non-empty digit text `s` as a number. */
  function Digits(s: string): Option<nat> {
    if s != [] && AllDigits(s) then Some(ParseNat(s)) else None
  }

  /** Reads a duration text of the forms `Hh Mm`, `Hh` and `Mm` back into minutes. */
  function ParseDuration(text: string): Option<int> {
    if text == [] then None else ParseUnit(text[..|text| - 1], text[|text| - 1])
  }

  /** A duration text split into everything before its unit letter, and that letter. */
  function ParseUnit(body: string, unit: char): Option<int> {
    if unit == 'h' then
      (if Digits(body).Some? then Some(Digits(body).value * 60) else None)
    else if unit == 'm' then
      var mins := After(body, ' ');
      if mins.None? then
        (if Digits(body).Some? then Some(Digits(body).value) else None)
      else
        var hrs := Before(body, ' ');
        if |hrs| >= 1 && hrs[|hrs| - 1] == 'h' && Digits(hrs[..|hrs| - 1]).Some? && Digits(mins.value).Some? then
          Some(Digits(hrs[..|hrs| - 1]).value * 60 + Digits(mins.value).value)
        else None
    else None
  }

  lemma ParseDurationSplits(body: string, unit: char)
    ensures ParseDuration(body + [unit]) == ParseUnit(body, unit)
  {
    var text := body + [unit];
    assert text[..|text| - 1] == body;
  }

  lemma ParseUnitHoursMinutes(hrs: string, mins: string)
    requires ' ' !in hrs && |hrs| >= 1 && hrs[|hrs| - 1] == 'h'
    requires Digits(hrs[..|hrs| - 1]).Some? && Digits(mins).Some?
    ensures ParseUnit(hrs + [' '] + mins, 'm') == Some(Digits(hrs[..|hrs| - 1]).value * 60 + Digits(mins).value)
  {
    SplitAtFirst(hrs, ' ', mins);
  }

  /** `Hh Mm` reads back as `H * 60 + M`. */
  lemma ReadHoursMinutes(a: string, b: string, h: nat, m: nat)
    requires Digits(a) == Some(h) && Digits(b) == Some(m)
    ensures ParseDuration(a + "h " + b + "m") == Some(h * 60 + m)
  {
    var hrs := a + ['h'];
    assert hrs[..|hrs| - 1] == a;
    assert ' ' !in hrs by {
      DigitsHaveNo(a, ' ');
    }
    ParseUnitHoursMinutes(hrs, b);
    HoursMinutesShape(a, b);
    ParseDurationSplits(hrs + [' '] + b, 'm');
  }

  lemma HoursMinutesShape(a: string, b: string)
    ensures a + "h " + b + "m" == (a + ['h']) + [' '] + b + ['m']
  {
  }

  /** `Hh` reads back as `H * 60`. */
  lemma ReadHours(a: string, h: nat)
    requires Digits(a) == Some(h)
    ensures ParseDuration(a + "h") == Some(h * 60)
  {
    ParseDurationSplits(a, 'h');
  }

  /** `Mm` reads back as `M`. */
  lemma ReadMinutes(b: string, m: nat)
    requires Digits(b) == Some(m)
    ensures ParseDuration(b + "m") == Some(m)
  {
    ParseDurationSplits(b, 'm');
    assert ' ' !in b;
  }
}
