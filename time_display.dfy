/**
 * The on-screen clock (src/render/timeDisplay.ts): the season, day and time
 * of day, as text such as "Spring 1 04:00".
 */
module TimeDisplay {
  import opened Wrappers
  import opened Js
  import opened GameTime

  // ---------------------------------------------------------------- number formatting

  function DigitChar(d: nat): char
    requires d < 10
  {
    ('0' as int + d) as char
  }

  /** The decimal digits of `n`, most significant first, with no leading zero. */
  function Digits(n: nat): (s: string)
    ensures |s| >= 1
    ensures forall i | 0 <= i < |s| :: '0' <= s[i] <= '9'
    ensures n < 10 <==> |s| == 1
  {
    if n < 10 then [DigitChar(n)] else Digits(n / 10) + [DigitChar(n % 10)]
  }

  /** `String(n)` for an integer: its digits, after a minus sign when negative. */
  function IntToString(n: int): (s: string)
    ensures n >= 0 ==> s == Digits(n)
    ensures n < 0 ==> s == "-" + Digits(-n)
  {
    if n < 0 then "-" + Digits(-n) else Digits(n)
  }

  /** `s.padStart(width, fill)` with a one-character fill. */
  function PadStart(s: string, width: nat, fill: char): (r: string)
    ensures |s| >= width ==> r == s
    ensures |s| < width ==>
      (|r| == width && r[width - |s|..] == s && forall i | 0 <= i < width - |s| :: r[i] == fill)
  {
    if |s| >= width then s else seq(width - |s|, _ => fill) + s
  }

  function TwoDigits(n: int): string {
    PadStart(IntToString(n), 2, '0')
  }

  function DigitValue(c: char): int {
    c as int - '0' as int
  }

  /** Reads back a two-digit field. */
  function ParseTwo(s: string): int
    requires |s| == 2
  {
    DigitValue(s[0]) * 10 + DigitValue(s[1])
  }

  /** Numbers 0 to 99 print as exactly two digits, which read back as the number. */
  lemma TwoDigitsRoundTrip(n: int)
    requires 0 <= n < 100
    ensures |TwoDigits(n)| == 2 && '0' <= TwoDigits(n)[0] <= '9' && '0' <= TwoDigits(n)[1] <= '9'
    ensures ParseTwo(TwoDigits(n)) == n
  {
    if n >= 10 {
      assert Digits(n) == Digits(n / 10) + [DigitChar(n % 10)];
      assert Digits(n / 10) == [DigitChar(n / 10)];
    }
  }

  // ---------------------------------------------------------------- time of day

  const MinutesPerDayInt: int := 1440

  /**
   * `formatTime`: the whole minutes, wrapped into the day with JavaScript's
   * `%`, as hours and minutes, each padded to two digits.
   */
  function FormatTime(minutes: real): string {
    ClockText(minutes.Floor)
  }

  /** The text `formatTime` gives for a number of whole minutes. */
  function ClockText(wholeMinutes: int): string {
    var totalMinutes := RemInt(wholeMinutes, MinutesPerDayInt);
    var hours := totalMinutes / 60;
    var mins := RemInt(totalMinutes, 60);
    TwoDigits(hours) + ":" + TwoDigits(mins)
  }

  /** Reads an "HH:MM" text back as minutes since midnight. */
  function ParseTime(s: string): int
    requires |s| == 5
  {
    ParseTwo(s[..2]) * 60 + ParseTwo(s[3..])
  }

  /**
   * For a time that is not negative, the text is "HH:MM", hours 00 to 23,
   * and reads back as the whole minutes within the day.
   */
  lemma FormatTimeRoundTrip(minutes: real)
    requires !(minutes < 0.0)
    ensures var s := FormatTime(minutes);
      && |s| == 5 && s[2] == ':'
      && (forall i | i in {0, 1, 3, 4} :: '0' <= s[i] <= '9')
      && ParseTime(s) == minutes.Floor % MinutesPerDayInt
      && 0 <= ParseTwo(s[..2]) < 24 && 0 <= ParseTwo(s[3..]) < 60
  {
    var total := minutes.Floor % MinutesPerDayInt;
    var hours := total / 60;
    var mins := total % 60;
    TwoDigitsRoundTrip(hours);
    TwoDigitsRoundTrip(mins);
    var s := FormatTime(minutes);
    assert s == TwoDigits(hours) + ":" + TwoDigits(mins);
    assert s[..2] == TwoDigits(hours);
    assert s[3..] == TwoDigits(mins);
  }

  /** The text repeats every day. */
  lemma FormatTimeIsDaily(minutes: real)
    requires !(minutes < 0.0)
    ensures FormatTime(minutes + MinutesPerDay) == FormatTime(minutes)
  {
    WholeMinutesAreDaily(minutes);
  }

  lemma WholeMinutesAreDaily(minutes: real)
    requires !(minutes < 0.0)
    ensures RemInt((minutes + MinutesPerDay).Floor, MinutesPerDayInt) == RemInt(minutes.Floor, MinutesPerDayInt)
  {
    assert (minutes + MinutesPerDay).Floor == minutes.Floor + MinutesPerDayInt;
  }

  /** Small numbers are padded with a zero; two-digit numbers are printed as they are. */
  lemma TwoDigitsExamples()
    ensures TwoDigits(1) == "01" && TwoDigits(5) == "05"
    ensures TwoDigits(23) == "23" && TwoDigits(59) == "59"
  {
    assert Digits(23) == "23" by { assert Digits(2) == "2"; }
    assert Digits(59) == "59" by { assert Digits(5) == "5"; }
  }

  /** 65 minutes after midnight reads "01:05". */
  lemma FormatTimeExample()
    ensures FormatTime(65.0) == "01:05"
  {
    assert (65.0).Floor == 65;
    assert ClockText(65) == TwoDigits(1) + ":" + TwoDigits(5) by {
      assert RemInt(65, MinutesPerDayInt) == 65;
    }
    TwoDigitsExamples();
  }

  /** Half a minute before midnight reads "23:59": the seconds are dropped. */
  lemma FormatTimeDropsSeconds()
    ensures FormatTime(1439.5) == "23:59"
  {
    assert (1439.5).Floor == 1439;
    assert ClockText(1439) == TwoDigits(23) + ":" + TwoDigits(59) by {
      assert RemInt(1439, MinutesPerDayInt) == 1439;
    }
    TwoDigitsExamples();
  }

  // ---------------------------------------------------------------- calendar

  const Seasons: seq<string> := ["Spring", "Summer", "Fall", "Winter"]
  const DaysPerSeason: int := 31
  const DaysPerYear: int := 124

  /** The day of the year, counted from 0: the floored remainder of the days passed. */
  function DayOfYear(daysPassed: int): (n: int)
    ensures 0 <= n < DaysPerYear && n == daysPassed % DaysPerYear
  {
    assert RemInt(RemInt(daysPassed, DaysPerYear) + DaysPerYear, DaysPerYear) == daysPassed % DaysPerYear by {
      ShiftedRemainder(daysPassed);
    }
    RemInt(RemInt(daysPassed, DaysPerYear) + DaysPerYear, DaysPerYear)
  }

  /** Shifting JavaScript's remainder up by one year lands on the floored remainder, one year too high at most. */
  lemma ShiftedRemainder(a: int)
    ensures 0 < RemInt(a, DaysPerYear) + DaysPerYear < 2 * DaysPerYear
    ensures (RemInt(a, DaysPerYear) + DaysPerYear) % DaysPerYear == a % DaysPerYear
  {
    if a < 0 {
      var b := -a;
      var q := b / DaysPerYear;
      var r := b % DaysPerYear;
      assert b == DaysPerYear * q + r;
      assert RemInt(a, DaysPerYear) == -r;
      assert a == DaysPerYear * (-q - 1) + (DaysPerYear - r);
      if r == 0 {
        assert a == DaysPerYear * (-q);
      }
    }
  }

  /** `formatDate`: the season's name and the day within it, counted from 1. */
  function FormatDate(daysPassed: int): string {
    var normalizedDays := DayOfYear(daysPassed);
    var seasonIndex := normalizedDays / DaysPerSeason;
    var dayInSeason := normalizedDays % DaysPerSeason + 1;
    Seasons[seasonIndex] + " " + IntToString(dayInSeason)
  }

  /**
   * The date names one of the four seasons and a day from 1 to 31, and the
   * two together give back the day of the year.
   */
  lemma FormatDateDecomposes(daysPassed: int)
    ensures var n := DayOfYear(daysPassed);
      && 0 <= n / DaysPerSeason < |Seasons|
      && 1 <= n % DaysPerSeason + 1 <= DaysPerSeason
      && (n / DaysPerSeason) * DaysPerSeason + (n % DaysPerSeason + 1) - 1 == n
      && FormatDate(daysPassed) == Seasons[n / DaysPerSeason] + " " + Digits(n % DaysPerSeason + 1)
  {
  }

  /** The calendar repeats every 124 days, also for a negative day count. */
  lemma FormatDateIsYearly(daysPassed: int)
    ensures FormatDate(daysPassed + DaysPerYear) == FormatDate(daysPassed)
  {
    DayOfYearIsYearly(daysPassed);
  }

  lemma DayOfYearIsYearly(daysPassed: int)
    ensures DayOfYear(daysPassed + DaysPerYear) == DayOfYear(daysPassed)
  {
    var q := daysPassed / DaysPerYear;
    var r := daysPassed % DaysPerYear;
    assert daysPassed + DaysPerYear == DaysPerYear * (q + 1) + r;
    assert (daysPassed + DaysPerYear) % DaysPerYear == r;
  }

  /** Day 0 is "Spring 1", day 31 "Summer 1", day 123 "Winter 31", and day -1 is "Winter 31" too. */
  lemma FormatDateExamples()
    ensures FormatDate(0) == "Spring 1"
    ensures FormatDate(31) == "Summer 1"
    ensures FormatDate(123) == "Winter 31"
    ensures FormatDate(-1) == "Winter 31"
  {
    assert IntToString(1) == "1";
    assert IntToString(31) == "31" by { assert Digits(3) == "3"; }
    assert DayOfYear(0) == 0 && DayOfYear(31) == 31 && DayOfYear(123) == 123 && DayOfYear(-1) == 123;
  }

  // ---------------------------------------------------------------- the display

  /**
   * The display: a container's position and visibility, the label's text, and
   * the text the background was last laid out around.
   */
  class Display {
    var x: real
    var y: real
    var visible: bool
    var text: string
    var laidOutFor: string

    /** `createDisplay`: a visible container at the origin, labelled "00:00", laid out once. */
    constructor ()
      ensures x == 0.0 && y == 0.0 && visible && text == "00:00" && laidOutFor == text
    {
      x, y, visible := 0.0, 0.0, true;
      text := "00:00";
      laidOutFor := text;
    }

    /** `layout()`: the background is redrawn around the current label. */
    method Layout()
      modifies this
      ensures laidOutFor == text
      ensures x == old(x) && y == old(y) && visible == old(visible) && text == old(text)
    {
      laidOutFor := text;
    }

    /** The `text` setter: changes the label and lays the background out again. */
    method SetText(value: string)
      modifies this
      ensures text == value && laidOutFor == value
      ensures x == old(x) && y == old(y) && visible == old(visible)
    {
      text := value;
      Layout();
    }
  }

  /** `createTimeDisplayStore(container, options)`: the display once created, and what was added to the container. */
  class DisplayStore {
    var display: Option<Display>
    var attached: seq<Display>

    ghost predicate Valid()
      reads this
    {
      attached == (if display.Some? then [display.value] else [])
    }

    function Current(): set<Display>
      reads this
    {
      if display.Some? then {display.value} else {}
    }

    constructor ()
      ensures Valid() && display.None?
    {
      display, attached := None, [];
    }
  }

  /** `ensureDisplay`: the stored display, or a new one, stored and added to the container. */
  method EnsureDisplay(store: DisplayStore) returns (d: Display)
    requires store.Valid()
    modifies store
    ensures store.Valid() && store.display == Some(d)
    ensures old(store.display).Some? ==> d == old(store.display).value && store.attached == old(store.attached)
    ensures old(store.display).None? ==> fresh(d)
  {
    if store.display.Some? {
      return store.display.value;
    }
    d := new Display();
    store.display := Some(d);
    store.attached := store.attached + [d];
  }

  /**
   * `createTimeDisplaySystem(time, store, options)(world, dt)`: shows the
   * date and time of the shared clock at (12, 12) unless placed elsewhere,
   * with the background laid out around the new text.
   */
  method TimeDisplaySystem(time: GameTimeState, store: DisplayStore, x: Option<real>, y: Option<real>)
    requires store.Valid()
    modifies store, store.Current()
    ensures store.Valid() && store.display.Some?
    ensures old(store.display).Some? ==> store.display == old(store.display) && store.attached == old(store.attached)
    ensures var d := store.display.value;
      && d.x == x.GetOr(12.0) && d.y == y.GetOr(12.0) && d.visible
      && d.text == FormatDate(time.daysPassed) + " " + FormatTime(time.minutes)
      && d.laidOutFor == d.text
  {
    var display := EnsureDisplay(store);
    display.x := x.GetOr(12.0);
    display.y := y.GetOr(12.0);
    display.SetText(FormatDate(time.daysPassed) + " " + FormatTime(time.minutes));
    display.visible := true;
    display.Layout();
  }
}
