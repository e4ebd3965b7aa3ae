/** How the verifier slows down. */
module Polling {
  import opened Payments
  import opened Ledger

  /** Each back-off gap is between two minutes and half an hour. */
  lemma GapBounds(age: int)
    ensures 2 * INITIAL_VERIFY_DELAY_MS <= BackOffGap(age) <= MAX_VERIFY_BACKOFF_MS
  {
  }

  /** A later verification is never followed by an earlier one. */
  lemma NextAgeMonotone(a: int, b: int)
    requires a <= b
    ensures a + BackOffGap(a) <= b + BackOffGap(b)
  {
  }

  /** Until the cap, the next verification comes at no less than three times this age. */
  lemma AgesTriple(age: int)
    requires age >= INITIAL_VERIFY_DELAY_MS
    ensures 2 * age <= MAX_VERIFY_BACKOFF_MS ==> age + BackOffGap(age) == 3 * age
    ensures 2 * age >= MAX_VERIFY_BACKOFF_MS ==> age + BackOffGap(age) == age + MAX_VERIFY_BACKOFF_MS
  {
  }

  /** The row's age when its (n+1)-th verification comes due, if every earlier one came one
      millisecond after it was due: due rows are those whose time has passed. */
  function EarliestAge(n: nat): int {
    if n == 0 then INITIAL_VERIFY_DELAY_MS
    else EarliestAge(n - 1) + 1 + BackOffGap(EarliestAge(n - 1) + 1)
  }

  lemma EscalationAge()
    ensures EarliestAge(MAX_VERIFY_ATTEMPTS) == 10_620_044
  {
    assert EarliestAge(1) == 180_003;
    assert EarliestAge(2) == 540_012;
    assert EarliestAge(3) == 1_620_039;
    assert EarliestAge(4) == 3_420_040;
    assert EarliestAge(5) == 5_220_041;
    assert EarliestAge(6) == 7_020_042;
    assert EarliestAge(7) == 8_820_043;
  }

  lemma {:induction false} EarliestAgeGrows(n: nat, m: nat)
    requires n <= m
    ensures INITIAL_VERIFY_DELAY_MS <= EarliestAge(n) <= EarliestAge(m)
  {
    if n < m {
      EarliestAgeGrows(n, m - 1);
      GapBounds(EarliestAge(m - 1) + 1);
    } else if n > 0 {
      EarliestAgeGrows(n - 1, n - 1);
      GapBounds(EarliestAge(n - 1) + 1);
    }
  }
}
