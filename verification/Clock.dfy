/** Deadlines on a monotonic clock whose instants end at a platform `horizon`.
    Instants and durations are nanosecond counts. */
module Clock {

  /** `now + after`, halving `after` until the sum is representable. */
  function SaturatingDeadline(now: nat, after: nat, horizon: nat): (r: nat)
    requires now <= horizon
    ensures now <= r <= horizon
    ensures now + after <= horizon ==> r == now + after
    ensures horizon < now + after ==> horizon - now <= 2 * (r - now)
    ensures 0 < after && now < horizon ==> now < r
    decreases after
  {
    if now + after <= horizon then now + after else SaturatingDeadline(now, after / 2, horizon)
  }

  method ComputeDeadline(now: nat, after: nat, horizon: nat) returns (r: nat)
    requires now <= horizon
    ensures r == SaturatingDeadline(now, after, horizon)
    ensures now + after <= horizon ==> r == now + after
    ensures horizon < now + after ==> r <= horizon && horizon - now <= 2 * (r - now)
  {
    var left := after;
    while true
      invariant SaturatingDeadline(now, left, horizon) == SaturatingDeadline(now, after, horizon)
      decreases left
    {
      if now + left <= horizon {
        return now + left;
      }
      left := left / 2;
    }
  }

  function Pow2(k: nat): (r: nat)
    ensures 0 < r
  {
    if k == 0 then 1 else 2 * Pow2(k - 1)
  }

  /** Written in binary, `gap` is what is left of `after` without its last `k` digits. */
  predicate PrefixOf(gap: nat, after: nat, k: nat) {
    gap * Pow2(k) <= after < gap * Pow2(k) + Pow2(k)
  }

  ghost predicate BinaryPrefix(gap: nat, after: nat) {
    exists k: nat :: PrefixOf(gap, after, k)
  }

  lemma PrefixOfHalf(gap: nat, after: nat, k: nat)
    ensures PrefixOf(gap, after / 2, k) <==> PrefixOf(gap, after, k + 1)
  {
    assert gap * Pow2(k + 1) == 2 * (gap * Pow2(k));
  }

  lemma PrefixOfSmaller(gap: nat, after: nat, k: nat)
    requires after <= gap && PrefixOf(gap, after, k)
    ensures after == gap
  {
    assert gap * Pow2(k) == gap + gap * (Pow2(k) - 1);
  }

  /** An unrepresentable sum is moved to the last representable instant exactly when what is left to
      it is a binary prefix of the duration. */
  lemma {:induction false} ReachesHorizon(now: nat, after: nat, horizon: nat)
    requires now <= horizon
    ensures SaturatingDeadline(now, after, horizon) == horizon <==> BinaryPrefix(horizon - now, after)
  {
    var gap := horizon - now;
    if after <= gap {
      if after == gap {
        assert PrefixOf(gap, after, 0);
      } else if k: nat :| PrefixOf(gap, after, k) {
        PrefixOfSmaller(gap, after, k);
      }
    } else {
      ReachesHorizon(now, after / 2, horizon);
      if k: nat :| PrefixOf(gap, after / 2, k) {
        PrefixOfHalf(gap, after, k);
      }
      if k: nat :| PrefixOf(gap, after, k) {
        assert k != 0;
        PrefixOfHalf(gap, after, k - 1);
      }
    }
  }

  /** The instants of a clock with signed 64-bit seconds, and the longest duration. */
  const LAST_INSTANT: nat := 0x8000_0000_0000_0000 * 1_000_000_000 - 1
  const LONGEST: nat := 0x1_0000_0000_0000_0000 * 1_000_000_000 - 1

  /** On such a clock the longest duration is cut to a quarter in the whole first half of time, except
      from the very first instant: the deadline is half of the range away. */
  lemma {:induction false} HorizonCanBeMissed(now: nat)
    requires 0 < now <= LAST_INSTANT - LAST_INSTANT / 2
    ensures SaturatingDeadline(now, LONGEST, LAST_INSTANT) == now + LAST_INSTANT / 2
    ensures now < LAST_INSTANT - LAST_INSTANT / 2 ==> !BinaryPrefix(LAST_INSTANT - now, LONGEST)
  {
    LongestIsCut(now, LAST_INSTANT);
    ReachesHorizon(now, LONGEST, LAST_INSTANT);
  }

  lemma LongestIsCut(now: nat, horizon: nat)
    requires 0 < now <= horizon - horizon / 2
    ensures SaturatingDeadline(now, 2 * horizon + 1, horizon) == now + horizon / 2
  {
    assert SaturatingDeadline(now, 2 * horizon + 1, horizon) == SaturatingDeadline(now, horizon, horizon);
  }
}
