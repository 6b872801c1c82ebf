/** The records both programs share: the calendar day a log file is named by,
    and the reading the dashboard takes from one element of a
    `<device>_<date>.json` log. */
module Readings {
  import opened Wrappers

  /** `Date.getHours()` of a reading's timestamp. */
  type Hour = h: int | 0 <= h < 24

  /** `Date.getMinutes()` of a reading's timestamp. */
  type Minute = m: int | 0 <= m < 60

  /** A four-digit calendar year. */
  type Year = y: int | 1000 <= y < 10000 witness 2025

  type Month = m: int | 1 <= m <= 12 witness 1

  type DayOfMonth = d: int | 1 <= d <= 31 witness 1

  /** A local calendar day (`getFullYear`, `getMonth() + 1`, `getDate()`). */
  datatype CalendarDay = CalendarDay(year: Year, month: Month, day: DayOfMonth)

  datatype Reading = Reading(
    device: string,
    hour: Hour,
    minute: Minute,
    temperature: real,
    humidity: real,
    lux: real,
    pH: Option<real>,          // `None` when the record has no `pH` key
    direction: Option<string>  // `None` when the record has no `direction` key
  )
}
