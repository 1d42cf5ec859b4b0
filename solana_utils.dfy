/**
 * Day arithmetic of bot/src/utils/solana.utils.ts. The source reads the clock inside
 * `daysSince`; here the current time `now` (milliseconds) is a parameter.
 */
module SolanaUtils {

  /** Milliseconds in a day: 1000 * 60 * 60 * 24. */
  const MS_PER_DAY: int := 86400000

  /**
   * `Math.floor((now - timestamp) / MS_PER_DAY)`: the number of whole days elapsed,
   * rounded toward minus infinity.
   */
  function DaysSince(now: int, timestamp: int): (days: int)
    ensures days * MS_PER_DAY <= now - timestamp < (days + 1) * MS_PER_DAY
  {
    (now - timestamp) / MS_PER_DAY
  }

  /** Any integer satisfying the floor bounds is the value of DaysSince. */
  lemma FloorIsUnique(now: int, timestamp: int, d: int)
    requires d * MS_PER_DAY <= now - timestamp < (d + 1) * MS_PER_DAY
    ensures DaysSince(now, timestamp) == d
  {
    var r := DaysSince(now, timestamp);
    if r < d {
      MulMonotone(r + 1, d);
    } else if r > d {
      MulMonotone(d + 1, r);
    }
  }

  lemma MulMonotone(a: int, b: int)
    requires a <= b
    ensures a * MS_PER_DAY <= b * MS_PER_DAY
  {
  }

  /** No time has elapsed since now. */
  lemma DaysSinceNow(now: int)
    ensures DaysSince(now, now) == 0
  {
  }

  /** A timestamp exactly k days in the past is k days old. */
  lemma {:induction false} DaysSinceWholeDays(now: int, k: nat)
    ensures DaysSince(now, now - k * MS_PER_DAY) == k
  {
    FloorIsUnique(now, now - k * MS_PER_DAY, k);
  }

  /** A later timestamp never gives more days. */
  lemma DaysSinceAntitone(now: int, earlier: int, later: int)
    requires earlier <= later
    ensures DaysSince(now, later) <= DaysSince(now, earlier)
  {
    var de, dl := DaysSince(now, earlier), DaysSince(now, later);
    if dl > de {
      MulMonotone(de + 1, dl);
    }
  }

  /** `Math.floor` rounds down, so a timestamp in the future gives a negative count. */
  lemma DaysSinceFuture(now: int, timestamp: int)
    requires timestamp > now
    ensures DaysSince(now, timestamp) < 0
  {
    var d := DaysSince(now, timestamp);
    if d >= 0 {
      MulMonotone(0, d);
    }
  }

  /**
   * The inactivity test `daysSince(t) >= d` holds exactly when at least `d` whole days
   * of milliseconds separate `t` from `now`.
   */
  lemma DaysSinceAtLeast(now: int, timestamp: int, d: int)
    ensures DaysSince(now, timestamp) >= d <==> now - timestamp >= d * MS_PER_DAY
  {
    var r := DaysSince(now, timestamp);
    if r >= d {
      MulMonotone(d, r);
    } else {
      MulMonotone(r + 1, d);
    }
  }
}
