/**
  What the constellation label promises, set against the conventional
  reading of its own table, in which entry `k` names the sign that begins
  on the listed cutoff day of month `k + 1`.
 */
module ConstellationProperties {
  import opened Wrappers
  import opened SwiftRuntime
  import opened BirthdayDetail

  /** (month1, day1) is the same as or later than (month2, day2) within a year. */
  predicate OnOrAfter(month1: int, day1: int, month2: int, day2: int)
  {
    month1 > month2 || (month1 == month2 && day1 >= day2)
  }

  /**
    (month, day) lies in the span the table assigns to entry `k`: from the
    entry's cutoff day in month `k + 1` up to, not including, the next
    entry's start; the last entry's span runs over the turn of the year.
   */
  predicate InSignSpan(k: int, month: int, day: int)
    requires 0 <= k < 12
  {
    if k < 11 then
      OnOrAfter(month, day, k + 1, Constellations[k].0) &&
      !OnOrAfter(month, day, k + 2, Constellations[k + 1].0)
    else
      OnOrAfter(month, day, 12, Constellations[11].0) ||
      !OnOrAfter(month, day, 1, Constellations[0].0)
  }

  /** The entry whose span holds (month, day): the conventional sign of that date. */
  function ConventionalIndex(month: int, day: int): (k: int)
    requires 1 <= month <= 12
    ensures 0 <= k < 12 && InSignSpan(k, month, day)
  {
    if day >= Cutoff(month) then month - 1 else (month + 10) % 12
  }

  /** The twelve spans do not overlap: a date lies in exactly one of them. */
  lemma SignSpansPartitionYear(month: int, day: int, k: int)
    requires 1 <= month <= 12 && 0 <= k < 12
    ensures InSignSpan(k, month, day) <==> k == ConventionalIndex(month, day)
  {
  }

  /** The screen always shows the entry after the conventional one. */
  lemma ConstellationIsNextConventionalSign(month: int, day: int)
    requires 1 <= month <= 12
    ensures ConstellationIndex(month, day) == Ok((ConventionalIndex(month, day) + 1) % 12)
  {
  }

  /**
    The screen shows entry `k` on exactly the dates of the span the table
    assigns to entry `k - 1` (wrapping): twelve contiguous, non-overlapping
    ranges covering every date, each labelled one sign late.
   */
  lemma ConstellationSpans(month: int, day: int, k: int)
    requires 1 <= month <= 12 && 0 <= k < 12
    ensures ConstellationIndex(month, day) == Ok(k) <==> InSignSpan((k + 11) % 12, month, day)
  {
  }

  /** For every valid month, the label names the entry after the conventional sign of the date. */
  lemma ConstellationOfDate(d: DateParts)
    requires 1 <= d.month <= 12
    ensures ConstellationString(Some(d))
      == Ok(Some(ConstellationPrefix + Constellations[(ConventionalIndex(d.month, d.day) + 1) % 12].1))
  {
    ConstellationIsNextConventionalSign(d.month, d.day);
  }

  /**
    On the start date the table lists for each sign, the screen already
    shows the following sign.
   */
  lemma ConstellationLateOnEveryCutoff(k: int)
    requires 0 <= k < 12
    ensures ConstellationString(Some(DateParts(2000, k + 1, Constellations[k].0)))
      == Ok(Some(ConstellationPrefix + Constellations[(k + 1) % 12].1))
    ensures Constellations[(k + 1) % 12].1 != Constellations[k].1
  {
  }

  /** The label only reads month and day: the year plays no part. */
  lemma ConstellationIgnoresYear(d1: DateParts, d2: DateParts)
    requires d1.month == d2.month && d1.day == d2.day
    ensures ConstellationString(Some(d1)) == ConstellationString(Some(d2))
  {
  }

  /** Sample dates, including the wrap from December back to the first entry. */
  lemma ConstellationExamples()
    ensures ConstellationString(Some(DateParts(2024, 1, 5))) == Ok(Some("星座：水瓶座"))
    ensures ConstellationString(Some(DateParts(2024, 1, 25))) == Ok(Some("星座：双鱼座"))
    ensures ConstellationString(Some(DateParts(2024, 12, 21))) == Ok(Some("星座：摩羯座"))
    ensures ConstellationString(Some(DateParts(2024, 12, 22))) == Ok(Some("星座：水瓶座"))
    ensures ConstellationString(Some(DateParts(2024, 13, 1))) == Trap
  {
    assert ConstellationPrefix + Constellations[0].1 == "星座：水瓶座";
    assert ConstellationPrefix + Constellations[1].1 == "星座：双鱼座";
    assert ConstellationPrefix + Constellations[11].1 == "星座：摩羯座";
  }
}
