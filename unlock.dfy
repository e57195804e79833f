/**
 * The day arithmetic behind "mission n opens on day n after registration",
 * shared by the three places that decide whether a quiz is open.
 */
module Unlock {
  import opened Common

  datatype QuizStatus = Completed | Available | Locked

  /** `Math.floor((now - createdAt) / (1000 * 60 * 60 * 24))`: whole days since registration. */
  function DaysSince(createdAt: int, now: int): int {
    (now - createdAt) / DAY_MS
  }

  /** The registration instant moved forward by `unlockDay - 1` whole days. */
  function UnlockInstant(createdAt: int, unlockDay: int): int {
    createdAt + (unlockDay - 1) * DAY_MS
  }

  /** The whole-day test `DaysSince >= unlockDay - 1` is the same as having reached the unlock instant. */
  lemma DayTestIsInstantTest(createdAt: int, now: int, unlockDay: int)
    ensures DaysSince(createdAt, now) >= unlockDay - 1 <==> now >= UnlockInstant(createdAt, unlockDay)
  {
    var x, k := now - createdAt, unlockDay - 1;
    var q, r := x / DAY_MS, x % DAY_MS;
    assert x == q * DAY_MS + r && 0 <= r < DAY_MS;
    if q >= k {
      assert q * DAY_MS >= k * DAY_MS;
    } else {
      assert q + 1 <= k;
      assert (q + 1) * DAY_MS <= k * DAY_MS;
    }
  }

  /** The unlock instant is `unlockDay - 1` whole days after registration, to the millisecond. */
  lemma UnlockInstantDays(createdAt: int, unlockDay: int)
    ensures DaysSince(createdAt, UnlockInstant(createdAt, unlockDay)) == unlockDay - 1
    ensures DaysSince(createdAt, UnlockInstant(createdAt, unlockDay) - 1) == unlockDay - 2
  {
  }
}
