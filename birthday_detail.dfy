/**
  The two derived values the birthday detail screen shows beside a stored
  birthday: the Chinese zodiac animal (生肖) and the Western constellation
  (星座). Both read the stored date through the Gregorian calendar; the
  model receives the year, month and day that Foundation extracts from it.
 */
module BirthdayDetail {
  import opened Wrappers
  import opened SwiftRuntime

  /** The Gregorian year, month and day of a stored birthday date. */
  datatype DateParts = DateParts(year: int, month: int, day: int)

  const ZodiacPrefix: string := "生肖："
  const ConstellationPrefix: string := "星座："

  /** The twelve animals, starting with the Rat for year 4. */
  const Zodiacs: seq<string> := ["鼠", "牛", "虎", "兔", "龙", "蛇", "马", "羊", "猴", "鸡", "狗", "猪"]

  /**
    The constellation table: entry `k` pairs a cutoff day with a sign name,
    and is consulted for month `k + 1`.
   */
  const Constellations: seq<(int, string)> := [
    (20, "水瓶座"), (19, "双鱼座"), (21, "白羊座"), (20, "金牛座"), (21, "双子座"), (22, "巨蟹座"),
    (23, "狮子座"), (23, "处女座"), (23, "天秤座"), (24, "天蝎座"), (23, "射手座"), (22, "摩羯座")
  ]

  /** The cutoff day the table lists for `month`. */
  function Cutoff(month: int): (c: int)
    requires 1 <= month <= 12
  {
    Constellations[month - 1].0
  }

  /**
    The index `(year - 4) % 12` into the animal table, with Swift's
    truncating remainder: it is a valid index exactly from year 4 on (and
    in the earlier years that are a whole number of cycles before year 4).
   */
  function ZodiacIndex(year: int): (r: int)
    ensures -12 < r < 12
    ensures r >= 0 <==> year >= 4 || (4 - year) % 12 == 0
    ensures r >= 0 ==> r == (year - 4) % 12
  {
    Rem12(year - 4)
  }

  /**
    The zodiac label: `None` when no date is stored, a trap when the index
    is negative, otherwise "生肖：" followed by an animal of the table.
   */
  function ZodiacString(date: Option<DateParts>): (r: Checked<Option<string>>)
    ensures r == Ok(None) <==> date.None?
    ensures date.Some? ==> (r.Trap? <==> date.value.year < 4 && (4 - date.value.year) % 12 != 0)
    ensures r.Ok? && r.value.Some? ==>
      |r.value.value| > |ZodiacPrefix| &&
      r.value.value[..|ZodiacPrefix|] == ZodiacPrefix &&
      r.value.value[|ZodiacPrefix|..] in Zodiacs
  {
    match date
    case None => Ok(None)
    case Some(d) =>
      match Subscript(Zodiacs, ZodiacIndex(d.year))
      case Trap => Trap
      case Ok(animal) => Ok(Some(ZodiacPrefix + animal))
  }

  /**
    The index into the constellation table: a trap when `month` is not
    1..12 (the lookup of the month's cutoff fails), otherwise the month's
    own entry before its cutoff day and the next entry, wrapping after
    December, from the cutoff day on.
   */
  function ConstellationIndex(month: int, day: int): (r: Checked<int>)
    ensures r.Ok? <==> 1 <= month <= 12
    ensures r.Ok? ==> 0 <= r.value < 12
    ensures r.Ok? && day < Cutoff(month) ==> r.value == month - 1
    ensures r.Ok? && day >= Cutoff(month) ==> r.value == month % 12
  {
    match Subscript(Constellations, month - 1)
    case Trap => Trap
    case Ok(entry) => Ok(Rem12(month - 1 + (if day >= entry.0 then 1 else 0)))
  }

  /**
    The constellation label: `None` when no date is stored, a trap when the
    month is out of range, otherwise "星座：" followed by a sign of the table.
   */
  function ConstellationString(date: Option<DateParts>): (r: Checked<Option<string>>)
    ensures r == Ok(None) <==> date.None?
    ensures date.Some? ==> (r.Trap? <==> !(1 <= date.value.month <= 12))
    ensures r.Ok? && r.value.Some? ==>
      |r.value.value| > |ConstellationPrefix| &&
      r.value.value[..|ConstellationPrefix|] == ConstellationPrefix &&
      exists k :: 0 <= k < 12 && r.value.value[|ConstellationPrefix|..] == Constellations[k].1
  {
    match date
    case None => Ok(None)
    case Some(d) =>
      match ConstellationIndex(d.month, d.day)
      case Trap => Trap
      case Ok(i) => Ok(Some(ConstellationPrefix + Constellations[i].1))
  }
}
