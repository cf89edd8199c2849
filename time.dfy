/** Time is modelled as integer milliseconds since the epoch. A calendar day is
    a fixed 86 400 000 ms (daylight-saving shifts of `setDate` are not modelled). */
module Time {

  const DayMs: int := 86_400_000

  /** `d.setDate(d.getDate() + n)` on a timestamp. */
  function AddDays(t: int, n: int): (r: int)
    ensures n > 0 ==> r > t
    ensures n == 0 ==> r == t
    ensures n < 0 ==> r < t
  {
    t + n * DayMs
  }

  /** `Math.ceil(ms / (1000 * 60 * 60 * 24))`: the least whole number of days
      that covers `ms`. */
  function CeilDays(ms: int): (d: int)
    ensures (d - 1) * DayMs < ms <= d * DayMs
  {
    var q := ms / DayMs;
    if q * DayMs == ms then q else q + 1
  }

  lemma CeilDaysWithinWeek(ms: int)
    requires 0 <= ms <= 7 * DayMs
    ensures 0 <= CeilDays(ms) <= 7
    ensures ms == 0 <==> CeilDays(ms) == 0
  {
  }
}
