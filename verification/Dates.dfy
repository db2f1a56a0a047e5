/** Rental-day arithmetic shared by the booking pages. Dates are instants in
    milliseconds (`Date.getTime()`); parsing date strings happens before this point. */
module Dates {
  import opened Seqs

  /** `1000 * 60 * 60 * 24`. */
  const MsPerDay: nat := 86400000

  function Abs(x: int): (r: nat)
    ensures r == x || r == -x
  {
    if x < 0 then -x else x
  }

  /** `Math.ceil(Math.abs(b - a) / MsPerDay)`: whole days needed to cover the gap,
      counting a started day as a full one. */
  function DaysBetween(a: int, b: int): (d: nat)
    ensures d * MsPerDay >= Abs(b - a)
    ensures d == 0 || (d - 1) * MsPerDay < Abs(b - a)
    ensures d == 0 <==> a == b
  {
    CeilDiv(Abs(b - a), MsPerDay)
  }

  /** The day count ignores which date comes first. */
  lemma DaysBetweenSymmetric(a: int, b: int)
    ensures DaysBetween(a, b) == DaysBetween(b, a)
  {
    assert Abs(b - a) == Abs(a - b);
  }

  /** A gap of exactly `n` whole days counts as `n` days. */
  lemma DaysBetweenWholeDays(a: int, n: nat)
    ensures DaysBetween(a, a + n * MsPerDay) == n
  {
    assert Abs(a + n * MsPerDay - a) == n * MsPerDay;
  }
}
