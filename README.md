# suisuinian birthday detail: zodiac and constellation labels

suisuinian is an iOS birthday book. Its detail screen shows, beside each
stored birthday, two labels derived from the stored date:

- the Chinese zodiac animal (生肖), `zodiacString`: the Gregorian year of the
  date indexes a twelve-animal table at `(year - 4) % 12`, and the animal is
  shown after the prefix "生肖：";
- the Western constellation (星座), `constellationString`: the Gregorian month
  and day select an entry of a twelve-entry table of (cutoff day, sign name)
  at `(month - 1 + (day >= cutoff ? 1 : 0)) % 12`, shown after "星座：".

Both are `nil` when the record has no date. This project models the two
labels as pure Dafny functions and proves what they compute.

Modules:

- `Wrappers` (wrappers.dfy): `Option`, standing for Swift's `T?`.
- `SwiftRuntime` (swift_runtime.dfy): Swift's `%`, which truncates toward
  zero (Dafny's `%` is Euclidean), and array subscripting, which traps on a
  bad index. A trap is modelled as the value `Trap` of `Checked<T>`, so the
  labels are total functions, and for the components Foundation can return
  the years or months that would crash the screen are stated exactly rather
  than excluded by a precondition.
- `BirthdayDetail` (birthday_detail.dfy): the stored date's Gregorian
  components (`DateParts`), the two constant tables and the two labels.
- `ZodiacProperties` (zodiac_properties.dfy): the zodiac label against the
  conventional twelve-year cycle.
- `ConstellationProperties` (constellation_properties.dfy): the
  constellation label against the conventional reading of its own table,
  in which entry `k` names the sign beginning on the listed cutoff day of
  month `k + 1`.

Behaviour modelled as the code has it, where it differs from the usual
rules:

- The zodiac reads the Gregorian year, not the lunar year. A birthday in
  January or early February, before lunar new year, gets the animal of the
  following lunar year (15 January 2024 shows 龙, while lunar year 2023 is
  the year of 兔).
- The index uses Swift's truncating `%`. For years 1 to 3 the index is
  negative and the subscript traps. Over all integers, years a whole number
  of cycles before year 4 (year -8, say) give index 0; Foundation's
  Gregorian year counts within an era and is never 0 or below, so such
  years describe the expression, not a date the screen can receive (8 BC
  reaches it as year 8 and gets 龙). A Euclidean `mod`, as a conventional
  description of the cycle would use, is defined for every year; the model
  follows the code.
- The constellation is one sign late. The table lists each sign with the
  day it begins in its month (水瓶座 from 20 January), but on and after that
  day the code selects the next entry: 5 January gives 水瓶座, 25 January
  gives 双鱼座, and 22 to 31 December wrap to 水瓶座.
  `ConstellationIsNextConventionalSign` states the shift for every date.

## Model

| member | source | states |
|---|---|---|
| SwiftRuntime.Rem12 | suisuinian/BirthdayDetailView.swift:66 | Swift's `%` by 12: the remainder lies in 0..11 for a non-negative dividend and in -11..0 for a negative one, and differs from the dividend by a multiple of 12 |
| SwiftRuntime.Subscript | suisuinian/BirthdayDetailView.swift:66 | an array subscript succeeds exactly for indices 0..count-1 and then yields that element; otherwise it traps |
| BirthdayDetail.ZodiacIndex | suisuinian/BirthdayDetailView.swift:64-66 | the table index is a valid index exactly when the year is at least 4 or a whole number of cycles before 4, and is then the year's position in the twelve-year cycle |
| BirthdayDetail.ZodiacString | suisuinian/BirthdayDetailView.swift:61-67 | nil exactly when there is no date; traps exactly for a year below 4 that is not a whole number of cycles before 4 (for the years Foundation returns, 1 to 3); otherwise "生肖：" followed by one of the twelve animals |
| BirthdayDetail.ConstellationIndex | suisuinian/BirthdayDetailView.swift:72-78 | traps exactly when the month is outside 1..12; otherwise an index in 0..11 that is the month's own entry before its cutoff day and the next entry (wrapping after December) from the cutoff day on |
| BirthdayDetail.ConstellationString | suisuinian/BirthdayDetailView.swift:69-80 | nil exactly when there is no date; traps exactly when the month is outside 1..12; otherwise "星座：" followed by one of the twelve sign names |
| ZodiacProperties.ConventionalAnimal | suisuinian/BirthdayDetailView.swift:65 | reference definition of the conventional cycle over the animal table, defined for every year (Euclidean remainder); its result is always an animal of the table |
| ZodiacProperties.ZodiacOfYear | suisuinian/BirthdayDetailView.swift:63-66 | for every year that does not trap (from year 4 on, and whole cycles before it) the label names the animal of the conventional cycle (鼠 in year 4) for the Gregorian year |
| ZodiacProperties.ZodiacIgnoresMonthAndDay | suisuinian/BirthdayDetailView.swift:63-64 | two dates of the same Gregorian year get the same label, whatever their month and day |
| ZodiacProperties.ZodiacNextCycle | suisuinian/BirthdayDetailView.swift:66 | from year 4 on, the date twelve years later gets the same label |
| ZodiacProperties.ZodiacPeriodic | suisuinian/BirthdayDetailView.swift:66 | from year 4 on, moving the date by any whole number of twelve-year cycles leaves the label unchanged |
| ZodiacProperties.ZodiacCoversAllAnimals | suisuinian/BirthdayDetailView.swift:65-66 | every twelve consecutive years from year 4 on contain a year of each of the twelve animals |
| ZodiacProperties.ZodiacDistinctWithinCycle | suisuinian/BirthdayDetailView.swift:65-66 | two different years from year 4 on that are less than twelve apart get different animals |
| ZodiacProperties.ZodiacExamples | suisuinian/BirthdayDetailView.swift:61-67 | year 4 gives 鼠, 2024 and 2036 give 龙, 15 January 2024 gives 龙, year 3 traps, year -8 gives 鼠 |
| ConstellationProperties.ConventionalIndex | suisuinian/BirthdayDetailView.swift:74-77 | reference definition of the table's conventional meaning: for every month in 1..12 and every day, an entry index in 0..11 whose span (from its cutoff day in its month to the next entry's start) holds the date |
| ConstellationProperties.SignSpansPartitionYear | suisuinian/BirthdayDetailView.swift:74-77 | the twelve spans the table describes (each from its cutoff day in its month to the next entry's start) do not overlap and cover every date |
| ConstellationProperties.ConstellationIsNextConventionalSign | suisuinian/BirthdayDetailView.swift:74-78 | for every month in 1..12 and every day, the label is the table entry after the one whose span holds the date |
| ConstellationProperties.ConstellationSpans | suisuinian/BirthdayDetailView.swift:74-78 | the label is entry k on exactly the dates of the contiguous span of entry k - 1 (wrapping), so the year splits into twelve non-overlapping ranges |
| ConstellationProperties.ConstellationLateOnEveryCutoff | suisuinian/BirthdayDetailView.swift:74-79 | on the start date the table lists for each sign, the label already shows the following, different sign |
| ConstellationProperties.ConstellationOfDate | suisuinian/BirthdayDetailView.swift:69-79 | for every month in 1..12 and every day, the label is "星座：" followed by the name of the table entry after the one whose span holds the date |
| ConstellationProperties.ConstellationIgnoresYear | suisuinian/BirthdayDetailView.swift:71-73 | two dates with the same month and day get the same label, whatever their year |
| ConstellationProperties.ConstellationExamples | suisuinian/BirthdayDetailView.swift:69-80 | 5 January gives 水瓶座, 25 January 双鱼座, 21 December 摩羯座, 22 December 水瓶座, month 13 traps |

## Left out

- Extracting the year, month and day from a stored `Date` through
  Foundation's Gregorian calendar: a library call; the model takes the
  three components as integers and states its results for every integer.
- ZodiacString, ConstellationString: Swift's `Int` is 64 bits wide and
  `year - 4` or `month - 1` would trap on overflow at `Int.min`; the model
  uses unbounded integers and does not capture that trap. It cannot arise
  on the screen, since Foundation's year, month and day are small: the
  year counts within an era (so it is at least 1), the month is 1..12 and
  the day 1..31. The statements the model makes about years of 0 and below
  describe the arithmetic, not dates the screen receives.
- Gregorian to lunar conversion: the app never computes it. It formats
  dates through Foundation's Chinese calendar (suisuinian/AddBirthdayView.swift:66-80),
  a library with no table in the repository, so there is no lunar year,
  leap month or round trip to model.
- Next occurrence, age and days until a birthday: no code computes them.
- Persistence of birthday records through CoreData (fetch, delete, save):
  framework glue with no logic of its own; both branches of the save
  store the same two strings.
- The SwiftUI screens, the date and time formatting, and the trimming of
  the stored date strings for display: presentation only.
