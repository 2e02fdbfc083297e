/** What a model call costs, in micro-dollars: integer rates per million tokens, rounded up. */
module Pricing {
  import opened Ordering

  datatype Rates = Rates(input: nat, cached: Option<nat>, output: nat)

  datatype Usage = Usage(input: nat, output: nat, cached: nat)

  /** The rate table's own rule. */
  predicate ValidRates(r: Rates) {
    r.cached.Some? ==> r.cached.value <= r.input
  }

  predicate ValidUsage(u: Usage) {
    u.cached <= u.input
  }

  function CeilMillion(n: int): int {
    if n != 0 then (n + 999999) / 1000000 else 0
  }

  function CachedRate(r: Rates): nat {
    if r.cached.Some? then r.cached.value else r.input
  }

  /** What the input tokens cost, in millionths of a micro-dollar. */
  function InputAmount(r: Rates, u: Usage): int {
    (u.input - u.cached) * r.input + u.cached * CachedRate(r)
  }

  function Cost(r: Rates, u: Usage): int {
    CeilMillion(InputAmount(r, u) + u.output * r.output)
  }

  function UpperBound(r: Rates, input: nat, output: nat): int {
    CeilMillion(input * r.input + output * r.output)
  }

  /** Rounding up: the least whole number of micro-dollars that covers the amount. */
  lemma {:induction false} CeilCovers(n: nat, c: int)
    ensures CeilMillion(n) >= 0
    ensures c >= CeilMillion(n) <==> c * 1000000 >= n
  {
  }

  lemma {:induction false} Scales(a: nat, b: nat, k: nat)
    requires a <= b
    ensures a * k <= b * k && k * a <= k * b
  {
  }

  lemma {:induction false} CeilGrows(n: nat, m: nat)
    requires n <= m
    ensures 0 <= CeilMillion(n) <= CeilMillion(m)
  {
    CeilCovers(n, CeilMillion(m));
    CeilCovers(m, CeilMillion(m));
  }

  /**
   The bill: the least whole number of micro-dollars that covers the fresh input tokens at the input rate,
   the cached ones at the cached rate, if there is one, and the output tokens at the output rate.
   */
  lemma {:induction false} CostIsLeast(r: Rates, u: Usage)
    requires ValidUsage(u)
    ensures var cached := if r.cached.Some? then u.cached * r.cached.value else u.cached * r.input;
            var millionths := (u.input - u.cached) * r.input + cached + u.output * r.output;
            && Cost(r, u) >= 0 && Cost(r, u) * 1000000 >= millionths
            && (forall c: int | c * 1000000 >= millionths :: c >= Cost(r, u))
  {
    var cached := if r.cached.Some? then u.cached * r.cached.value else u.cached * r.input;
    Scales(0, u.input - u.cached, r.input);
    Scales(0, u.cached, CachedRate(r));
    Scales(0, u.output, r.output);
    var millionths := (u.input - u.cached) * r.input + cached + u.output * r.output;
    LeastCover(millionths);
    hide CeilMillion;
    assert Cost(r, u) == CeilMillion(millionths);
  }

  lemma {:induction false} LeastCover(n: nat)
    ensures CeilMillion(n) >= 0 && CeilMillion(n) * 1000000 >= n
    ensures forall c: int | c * 1000000 >= n :: c >= CeilMillion(n)
  {
    CeilCovers(n, CeilMillion(n));
    forall c: int | c * 1000000 >= n ensures c >= CeilMillion(n) { CeilCovers(n, c); }
  }

  /** The reservation: the least whole number of micro-dollars that covers every token at its full rate. */
  lemma {:induction false} BoundIsLeast(r: Rates, input: nat, output: nat)
    ensures var millionths := input * r.input + output * r.output;
            && UpperBound(r, input, output) >= 0 && UpperBound(r, input, output) * 1000000 >= millionths
            && (forall c: int | c * 1000000 >= millionths :: c >= UpperBound(r, input, output))
  {
    Scales(0, input, r.input);
    Scales(0, output, r.output);
    LeastCover(input * r.input + output * r.output);
  }

  /** A cached token never costs more than a fresh one. */
  lemma {:induction false} CachingSaves(r: Rates, u: Usage)
    requires ValidRates(r) && ValidUsage(u)
    ensures 0 <= InputAmount(r, u) <= u.input * r.input
  {
    var uncached := u.input - u.cached;
    Scales(CachedRate(r), r.input, u.cached);
    Scales(0, uncached, r.input);
    Scales(0, u.cached, CachedRate(r));
    assert uncached * r.input + u.cached * r.input == (uncached + u.cached) * r.input;
  }

  /**
   The reservation covers the bill: whatever is reported within the token bounds costs, rounded
   up, no more than the rounded-up bound.
   */
  lemma {:induction false} CostWithinBound(r: Rates, u: Usage, input: nat, output: nat)
    requires ValidRates(r) && ValidUsage(u) && u.input <= input && u.output <= output
    ensures 0 <= Cost(r, u) <= UpperBound(r, input, output)
  {
    CachingSaves(r, u);
    Scales(u.input, input, r.input);
    Scales(u.output, output, r.output);
    Scales(0, u.output, r.output);
    hide CeilMillion, InputAmount;
    CeilGrows(InputAmount(r, u) + u.output * r.output, input * r.input + output * r.output);
  }

  /** The rule on cached rates is needed: with a dearer cached rate the bound can be missed. */
  lemma {:induction false} DearCacheBreaksBound(input: nat)
    requires input > 0
    ensures var r := Rates(0, Some(1000000), 0);
            !ValidRates(r) && Cost(r, Usage(input, 0, input)) > UpperBound(r, input, 0)
  {
    CeilCovers(input * 1000000, 0);
  }
}
