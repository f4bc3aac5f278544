/**
  What the zodiac label promises: which animal each Gregorian year gets,
  the twelve-year cycle, and its independence from month and day.
 */
module ZodiacProperties {
  import opened Wrappers
  import opened SwiftRuntime
  import opened BirthdayDetail

  /**
    The animal of a year under the conventional cycle (Rat in year 4,
    advancing one animal per year), taken with a Euclidean remainder so
    that it is defined for every year.
   */
  function ConventionalAnimal(year: int): (a: string)
    ensures a in Zodiacs
  {
    Zodiacs[(year - 4) % 12]
  }

  /**
    For every year that does not trap (from year 4 on, and the years a
    whole number of cycles before it), the label names the conventional
    animal of the Gregorian year.
   */
  lemma ZodiacOfYear(d: DateParts)
    requires d.year >= 4 || (4 - d.year) % 12 == 0
    ensures ZodiacString(Some(d)) == Ok(Some(ZodiacPrefix + ConventionalAnimal(d.year)))
  {
  }

  /** The label only reads the Gregorian year: month and day play no part. */
  lemma ZodiacIgnoresMonthAndDay(d1: DateParts, d2: DateParts)
    requires d1.year == d2.year
    ensures ZodiacString(Some(d1)) == ZodiacString(Some(d2))
  {
  }

  /** From year 4 on, the label repeats every twelve years. */
  lemma {:induction false} ZodiacPeriodic(d: DateParts, k: nat)
    requires d.year >= 4
    ensures ZodiacString(Some(d.(year := d.year + 12 * k))) == ZodiacString(Some(d))
  {
    if k > 0 {
      ZodiacPeriodic(d, k - 1);
      var e := d.(year := d.year + 12 * (k - 1));
      assert d.(year := d.year + 12 * k) == e.(year := e.year + 12);
      ZodiacNextCycle(e);
    }
  }

  /** One step of the cycle: from year 4 on, twelve years later gives the same label. */
  lemma ZodiacNextCycle(d: DateParts)
    requires d.year >= 4
    ensures ZodiacString(Some(d.(year := d.year + 12))) == ZodiacString(Some(d))
  {
    assert (d.year + 12 - 4) % 12 == (d.year - 4) % 12;
    ZodiacOfYear(d);
    ZodiacOfYear(d.(year := d.year + 12));
  }

  /** Any twelve consecutive years from year 4 on include a year of every animal. */
  lemma ZodiacCoversAllAnimals(d: DateParts, j: int)
    requires d.year >= 4 && 0 <= j < 12
    ensures exists y ::
      d.year <= y < d.year + 12 &&
      ZodiacString(Some(d.(year := y))) == Ok(Some(ZodiacPrefix + Zodiacs[j]))
  {
    var y := d.year + (j - (d.year - 4) % 12 + 12) % 12;
    assert (y - 4) % 12 == j;
    ZodiacOfYear(d.(year := y));
  }

  /** Two different years less than twelve apart, both from year 4 on, get different animals. */
  lemma ZodiacDistinctWithinCycle(d1: DateParts, d2: DateParts)
    requires d1.year >= 4 && d1.year < d2.year < d1.year + 12
    ensures ZodiacString(Some(d1)) != ZodiacString(Some(d2))
  {
  }

  /**
    Sample years. 15 January 2024 falls before that year's lunar new year
    (10 February), yet it gets the Dragon of Gregorian 2024, not the Rabbit
    of lunar year 2023, because only the Gregorian year is read.
   */
  lemma ZodiacExamples()
    ensures ZodiacString(Some(DateParts(4, 6, 1))) == Ok(Some("生肖：鼠"))
    ensures ZodiacString(Some(DateParts(2024, 6, 1))) == Ok(Some("生肖：龙"))
    ensures ZodiacString(Some(DateParts(2036, 6, 1))) == Ok(Some("生肖：龙"))
    ensures ZodiacString(Some(DateParts(2024, 1, 15))) == Ok(Some("生肖：龙"))
    ensures ZodiacString(Some(DateParts(3, 6, 1))) == Trap
    ensures ZodiacString(Some(DateParts(-8, 6, 1))) == Ok(Some("生肖：鼠"))
  {
    assert ZodiacPrefix + Zodiacs[0] == "生肖：鼠";
    assert ZodiacPrefix + Zodiacs[4] == "生肖：龙";
  }
}
