/** Exponential delays with a ceiling, as the publisher, the control mailbox and the gateway compute them. */
module Backoff {
  function Power2(n: nat): nat {
    if n == 0 then 1 else 2 * Power2(n - 1)
  }

  function CappedDelay(base: nat, ceiling: nat, exponent: nat): nat {
    var delay := base * Power2(exponent);
    if delay < ceiling then delay else ceiling
  }

  /** A later attempt never waits less, and no attempt waits longer than the ceiling. */
  lemma {:induction false} DelaysGrow(base: nat, ceiling: nat, a: nat, b: nat)
    requires a <= b
    ensures CappedDelay(base, ceiling, a) <= CappedDelay(base, ceiling, b) <= ceiling
    decreases b
  {
    if a < b {
      DelaysGrow(base, ceiling, a, b - 1);
      assert base * Power2(b) == base * Power2(b - 1) + base * Power2(b - 1);
    }
  }
}
