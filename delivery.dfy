/**
 * The next-delivery date of a subscription: a month offset chosen by the
 * delivery frequency, added to the current date with carry into the year.
 */
module Delivery {

  /** A month as `Date.getMonth` numbers it: 0 is January, 11 is December. */
  type Month = m: int | 0 <= m < 12

  /**
   * A point in time: its year, its month, and its position inside that month
   * (day of month and time of day), which this model keeps opaque.
   */
  datatype Instant = Instant(year: int, month: Month, withinMonth: nat)

  /** Months elapsed since January of year 0. */
  function MonthCount(t: Instant): int {
    12 * t.year + t.month
  }

  /** `a` is strictly earlier than `b`. */
  predicate Before(a: Instant, b: Instant) {
    MonthCount(a) < MonthCount(b) || (MonthCount(a) == MonthCount(b) && a.withinMonth < b.withinMonth)
  }

  /** The instant `k` months after `t`, as `setMonth(getMonth() + k)` gives it. */
  function AddMonths(t: Instant, k: nat): (r: Instant)
    ensures MonthCount(r) == MonthCount(t) + k
    ensures r.withinMonth == t.withinMonth
  {
    Instant(t.year + (t.month + k) / 12, (t.month + k) % 12, t.withinMonth)
  }

  /** The month offset for a frequency; a value outside the three known ones falls back to monthly. */
  function MonthOffset(frequency: string): (n: nat)
    ensures 1 <= n <= 3
    ensures n == 2 <==> frequency == "bimonthly"
    ensures n == 3 <==> frequency == "quarterly"
  {
    if frequency == "monthly" then 1
    else if frequency == "bimonthly" then 2
    else if frequency == "quarterly" then 3
    else 1
  }

  /** The next delivery for a subscription created at `now`. */
  function CalculateNextDelivery(frequency: string, now: Instant): (r: Instant)
    ensures MonthCount(r) == MonthCount(now) + MonthOffset(frequency)
    ensures r.withinMonth == now.withinMonth
    ensures Before(now, r)
  {
    AddMonths(now, MonthOffset(frequency))
  }

  /**
   * Adding months in two steps is adding their sum. This is a property of the
   * month arithmetic here, which keeps the position within the month; with
   * `setMonth` rolling a missing day forward it can fail (31 January plus one
   * month and then one more is 3 April, plus two months is 31 March).
   */
  lemma AddMonthsCompose(t: Instant, j: nat, k: nat)
    ensures AddMonths(AddMonths(t, j), k) == AddMonths(t, j + k)
  {
  }

  /** An offset below a year carries into the next year exactly when it passes December. */
  lemma AddMonthsYearCarry(t: Instant, k: nat)
    requires k < 12
    ensures AddMonths(t, k).year == if t.month + k >= 12 then t.year + 1 else t.year
    ensures AddMonths(t, k).month == if t.month + k >= 12 then t.month + k - 12 else t.month + k
  {
  }

  /** Any frequency other than `bimonthly` and `quarterly` schedules like `monthly`. */
  lemma UnknownFrequencyIsMonthly(frequency: string, now: Instant)
    requires frequency != "bimonthly" && frequency != "quarterly"
    ensures CalculateNextDelivery(frequency, now) == CalculateNextDelivery("monthly", now)
  {
  }

  /** Delivery frequencies order their next deliveries: monthly before bimonthly before quarterly. */
  lemma FrequencyOrder(now: Instant)
    ensures Before(CalculateNextDelivery("monthly", now), CalculateNextDelivery("bimonthly", now))
    ensures Before(CalculateNextDelivery("bimonthly", now), CalculateNextDelivery("quarterly", now))
  {
  }
}
