/** `get_current_season`: the broadcast season is chosen from the calendar
    month alone, by fixed quarters. The clock is read by the caller; here the
    month and year are parameters. */
module Season {

  datatype Season = Winter | Spring | Summer | Fall {
    /** The lower-case name used in the catalog endpoint's path. */
    function Name(): string {
      match this
      case Winter => "winter"
      case Spring => "spring"
      case Summer => "summer"
      case Fall => "fall"
    }
  }

  /** The season that begins the given quarter of the year (0 to 3). */
  function QuarterSeason(q: int): Season
    requires 0 <= q < 4
  {
    [Winter, Spring, Summer, Fall][q]
  }

  /** The pair (season, year) for the given month and year. Months 1 to 3
      give winter, 4 to 6 spring, 7 to 9 summer, every other value fall. */
  function CurrentSeason(month: int, year: int): (r: (Season, int))
    ensures r.1 == year
    ensures r.0 == Fall <==> !(1 <= month <= 9)
  {
    var season :=
      if month in {1, 2, 3} then Winter
      else if month in {4, 5, 6} then Spring
      else if month in {7, 8, 9} then Summer
      else Fall;
    (season, year)
  }

  /** For a calendar month, the season is the one of its quarter. */
  lemma SeasonIsQuarter(month: int, year: int)
    requires 1 <= month <= 12
    ensures CurrentSeason(month, year).0 == QuarterSeason((month - 1) / 3)
  {
  }

  /** Months of the same quarter share a season; the year plays no part. */
  lemma SeasonDependsOnlyOnQuarter(m1: int, m2: int, y1: int, y2: int)
    requires 1 <= m1 <= 12 && 1 <= m2 <= 12
    requires (m1 - 1) / 3 == (m2 - 1) / 3
    ensures CurrentSeason(m1, y1).0 == CurrentSeason(m2, y2).0
  {
    SeasonIsQuarter(m1, y1);
    SeasonIsQuarter(m2, y2);
  }
}
