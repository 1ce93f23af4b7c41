/** Retry delays: a clamped base schedule with jitter between half and all of each base. */
module Backoff {
  import opened Base
  import opened Counting

  const BASE_DELAYS: seq<Time> := [30 * SECOND, 2 * MINUTE, 10 * MINUTE]

  datatype Verdict = Exhausted | RetryAfter(delay: Time)

  function BaseDelay(attemptsMade: int): (base: Time)
    ensures base > 0 && base % 2 == 0
  {
    var idx := attemptsMade - 1;
    if idx < 0 then BASE_DELAYS[0]
    else if idx >= |BASE_DELAYS| then BASE_DELAYS[|BASE_DELAYS| - 1]
    else BASE_DELAYS[idx]
  }

  /** The generator's raw draw is reduced to 0..half, as Int63n(half + 1) does. */
  function WithJitter(base: Time, draw: nat): Time
    requires base >= 0
  {
    var half := base / 2;
    half + draw % (half + 1)
  }

  function NextDelay(attemptsMade: int, maxAttempts: int, draw: nat): Verdict {
    if attemptsMade >= maxAttempts then Exhausted
    else RetryAfter(WithJitter(BaseDelay(attemptsMade), draw))
  }

  /** A delay lies between half and all of the base of the attempt that has just failed. */
  predicate InWindow(attempt: int, delay: Time) {
    var seconds := if attempt <= 1 then 30 else if attempt == 2 then 120 else 600;
    seconds * 1_000_000_000 <= 2 * delay <= 2 * seconds * 1_000_000_000
  }

  /** Exhaustion depends on the attempts alone, and the possible delays are exactly the window. */
  lemma NextDelayExactly(attempt: int, maxAttempts: int, delay: Time)
    ensures (exists draw: nat :: NextDelay(attempt, maxAttempts, draw) == RetryAfter(delay))
            <==> attempt < maxAttempts && InWindow(attempt, delay)
    ensures forall draw: nat :: NextDelay(attempt, maxAttempts, draw) == Exhausted <==> attempt >= maxAttempts
  {
    var base := BaseDelay(attempt);
    if attempt < maxAttempts && InWindow(attempt, delay) {
      var draw: nat := delay - base / 2;
      assert draw % (base / 2 + 1) == draw;
      assert NextDelay(attempt, maxAttempts, draw) == RetryAfter(delay);
    }
  }

  /** waits[i] was scheduled after attempt i + 1 failed. */
  predicate Schedule(waits: seq<Time>) {
    forall i :: 0 <= i < |waits| ==> InWindow(i + 1, waits[i])
  }

  function BaseTotal(retries: nat): Time {
    if retries == 0 then 0 else BaseTotal(retries - 1) + BaseDelay(retries)
  }

  lemma {:induction false} BaseTotalClosedForm(retries: nat)
    ensures retries >= 2 ==> BaseTotal(retries) == (30 + 120 + 600 * (retries - 2)) * SECOND
  {
    if retries > 2 {
      BaseTotalClosedForm(retries - 1);
    } else if retries == 2 {
      assert BaseTotal(1) == BaseTotal(0) + BaseDelay(1);
    }
  }

  lemma {:induction false} ScheduleTotal(waits: seq<Time>)
    requires Schedule(waits)
    ensures BaseTotal(|waits|) <= 2 * Sum(waits) <= 2 * BaseTotal(|waits|)
  {
    if waits != [] {
      var rest := waits[..|waits| - 1];
      assert forall i :: 0 <= i < |rest| ==> rest[i] == waits[i];
      ScheduleTotal(rest);
      assert InWindow(|waits|, waits[|waits| - 1]);
    }
  }

  /** The first three delays never decrease, whatever the jitter. */
  lemma ScheduleStartsNondecreasing(waits: seq<Time>, i: nat)
    requires Schedule(waits) && i + 1 < |waits| && i < 2
    ensures waits[i] <= waits[i + 1]
  {
    assert InWindow(i + 1, waits[i]) && InWindow(i + 2, waits[i + 1]);
  }
}
