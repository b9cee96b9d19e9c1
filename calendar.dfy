/** The calendar shown for the current day count (the first lines of
    `updateUIElements` in sim_dev/animation.js): day of the 420-day year,
    one of six 70-day seasons, its "Low" or "High" 35-day half, and the day
    of that half. */
module Calendar {
  import opened JsMath
  import Config

  const SEASON_DAYS: int := 70
  const MONTH_DAYS: int := 35

  /** `(fullSpins % HALFERTH_YEAR_DAYS) + 1`: the one-based day of the year,
      congruent to `fullSpins + 1` modulo the year. */
  function CurrentDay(fullSpins: int): (day: int)
    ensures 0 <= fullSpins ==> 1 <= day <= Config.HALFERTH_YEAR_DAYS
    ensures (day - 1 - fullSpins) % Config.HALFERTH_YEAR_DAYS == 0
  {
    var r := IntRem(fullSpins, Config.HALFERTH_YEAR_DAYS);
    IntRemCongruent(fullSpins, Config.HALFERTH_YEAR_DAYS);
    r + 1
  }

  /** `Math.floor((currentDay - 1) / 70)`: the season whose 70 days
      contain the day. */
  function SeasonIndex(day: int): (i: int)
    ensures SEASON_DAYS * i <= day - 1 < SEASON_DAYS * i + SEASON_DAYS
    ensures 1 <= day <= Config.HALFERTH_YEAR_DAYS ==> 0 <= i < |Config.SEASONS|
  {
    var i := Floor((day - 1) as real / SEASON_DAYS as real);
    ScaleBounds((day - 1) as real, SEASON_DAYS as real, i);
    i
  }

  /** `((currentDay - 1) % 35) + 1`: the day within the current half season. */
  function MonthDay(day: int): (md: int)
    ensures 1 <= day ==> 1 <= md <= MONTH_DAYS
    ensures 1 <= day ==> (day - md) % MONTH_DAYS == 0
  {
    IntRem(day - 1, MONTH_DAYS) + 1
  }

  /** `((currentDay - 1) % 70) < 35`: the day falls in the first half of
      its season. */
  function IsLow(day: int): bool {
    IntRem(day - 1, SEASON_DAYS) < MONTH_DAYS
  }

  /** `seasons[seasonIndex] || "Unknown"`: the name of the season, or the
      fallback for an index outside the list. */
  function SeasonName(i: int): (name: string)
    ensures name == "Unknown" <==> !(0 <= i < |Config.SEASONS|)
    ensures 0 <= i < |Config.SEASONS| ==> name in Config.SEASONS
  {
    if 0 <= i < |Config.SEASONS| then Config.SEASONS[i] else "Unknown"
  }

  /** The date part of the display: season, half and day of the half. */
  datatype CivicDate = CivicDate(seasonIndex: int, isLow: bool, monthDay: int)

  predicate ValidDate(d: CivicDate) {
    0 <= d.seasonIndex < |Config.SEASONS| && 1 <= d.monthDay <= MONTH_DAYS
  }

  /** The date the source derives from a day of the year. */
  function DateOfDay(day: int): CivicDate {
    CivicDate(SeasonIndex(day), IsLow(day), MonthDay(day))
  }

  /** The day of the year a date names: whole seasons, then the Low half's
      35 days if the date is in the High half, then the day of the half. */
  function DayOfDate(d: CivicDate): int {
    SEASON_DAYS * d.seasonIndex + (if d.isLow then 0 else MONTH_DAYS) + d.monthDay
  }

  /** Every day of the year decomposes into a valid date that names it
      again: `currentDay == 70 * seasonIndex + (isLow ? 0 : 35) + monthDay`. */
  lemma DayDateRoundTrip(day: int)
    requires 1 <= day <= Config.HALFERTH_YEAR_DAYS
    ensures ValidDate(DateOfDay(day))
    ensures DayOfDate(DateOfDay(day)) == day
  {
    var i := SeasonIndex(day);
    var inSeason := day - 1 - SEASON_DAYS * i;
    assert IntRem(day - 1, SEASON_DAYS) == inSeason;
    assert IntRem(day - 1, MONTH_DAYS) == inSeason % MONTH_DAYS;
  }

  /** Every valid date names a day of the year whose decomposition is that
      date again, so the decomposition is a bijection onto valid dates. */
  lemma DateDayRoundTrip(d: CivicDate)
    requires ValidDate(d)
    ensures 1 <= DayOfDate(d) <= Config.HALFERTH_YEAR_DAYS
    ensures DateOfDay(DayOfDate(d)) == d
  {
    var day := DayOfDate(d);
    var inSeason := (if d.isLow then 0 else MONTH_DAYS) + d.monthDay - 1;
    assert day - 1 == SEASON_DAYS * d.seasonIndex + inSeason;
    FloorUnique((day - 1) as real / SEASON_DAYS as real, d.seasonIndex);
    assert IntRem(day - 1, SEASON_DAYS) == inSeason;
    assert IntRem(day - 1, MONTH_DAYS) == d.monthDay - 1;
  }

  /** What the day counter shows: the day of the year and its date. */
  datatype Display = Display(currentDay: int, season: string, monthDay: int, civicMonth: string)

  /** The display text's values for a day count (the `spinCounter` text
      and the slider position). */
  function DisplayOf(fullSpins: int): Display {
    var day := CurrentDay(fullSpins);
    var season := SeasonName(SeasonIndex(day));
    Display(day, season, MonthDay(day), (if IsLow(day) then "Low" else "High") + " " + season)
  }

  /** For any non-negative day count the display shows a day in
      `[1, 420]`, a named season (never the "Unknown" fallback) and a day
      of the half in `[1, 35]`, and the three add up to the day. */
  lemma DisplayInRange(fullSpins: int)
    requires 0 <= fullSpins
    ensures 1 <= DisplayOf(fullSpins).currentDay <= Config.HALFERTH_YEAR_DAYS
    ensures DisplayOf(fullSpins).season != "Unknown"
    ensures DisplayOf(fullSpins).season == Config.SEASONS[SeasonIndex(DisplayOf(fullSpins).currentDay)]
    ensures 1 <= DisplayOf(fullSpins).monthDay <= MONTH_DAYS
    ensures DayOfDate(DateOfDay(DisplayOf(fullSpins).currentDay)) == DisplayOf(fullSpins).currentDay
  {
    DayDateRoundTrip(CurrentDay(fullSpins));
  }

  /** Days a whole year apart show the same display. */
  lemma DisplayYearPeriodic(fullSpins: int)
    requires 0 <= fullSpins
    ensures DisplayOf(fullSpins + Config.HALFERTH_YEAR_DAYS) == DisplayOf(fullSpins)
  {
    assert CurrentDay(fullSpins + Config.HALFERTH_YEAR_DAYS) == CurrentDay(fullSpins) by {
      assert (fullSpins + Config.HALFERTH_YEAR_DAYS) % Config.HALFERTH_YEAR_DAYS
          == fullSpins % Config.HALFERTH_YEAR_DAYS;
    }
  }
}
