/**
 The cost budget of one task under concurrent model calls: each call reserves its upper bound,
 and later releases it or settles it against the reported usage, in any interleaving.
 */
module CostLedger {
  import opened Ordering
  import opened Pricing

  /** One call under a reservation: the provider's rates, the byte bound on its input and the output it may use. */
  datatype Call = Call(rates: Rates, inputBound: nat, maxOutput: nat)

  /** What the call reserves. */
  function Held(c: Call): (cost: nat)
    ensures cost == UpperBound(c.rates, c.inputBound, c.maxOutput)
  {
    Scales(0, c.inputBound, c.rates.input);
    Scales(0, c.maxOutput, c.rates.output);
    CeilGrows(0, c.inputBound * c.rates.input + c.maxOutput * c.rates.output);
    UpperBound(c.rates, c.inputBound, c.maxOutput)
  }

  /** The two counters of the code, and the calls that hold a reservation. */
  datatype Ledger = Ledger(spent: int, reserved: int, out: seq<Call>)

  datatype Step =
    | Reserve(call: Call)
    | Release(index: nat)
    | Finish(index: nat, usage: Usage)

  function Empty(): Ledger {
    Ledger(0, 0, [])
  }

  /** The code never lets the reserved counter fall below zero. */
  function Lowered(reserved: int, amount: int): int {
    if reserved - amount < 0 then 0 else reserved - amount
  }

  function Without(out: seq<Call>, i: nat): seq<Call>
    requires i < |out|
  {
    out[..i] + out[i + 1..]
  }

  /** Rates and usages are validated when they are made. */
  predicate Enabled(l: Ledger, s: Step) {
    match s
    case Reserve(c) => ValidRates(c.rates)
    case Release(i) => i < |l.out|
    case Finish(i, u) => i < |l.out| && ValidUsage(u)
  }

  /** A response that reports more output than was allowed is refused, and its call is released unpaid. */
  predicate Billed(c: Call, u: Usage) {
    u.output <= c.maxOutput
  }

  /** A reservation that would pass the limit is refused and changes nothing. */
  function Apply(l: Ledger, limit: nat, s: Step): Ledger
    requires Enabled(l, s)
  {
    match s
    case Reserve(c) =>
      if l.spent + l.reserved + Held(c) > limit then l
      else l.(reserved := l.reserved + Held(c), out := l.out + [c])
    case Release(i) => Ledger(l.spent, Lowered(l.reserved, Held(l.out[i])), Without(l.out, i))
    case Finish(i, u) =>
      var bill := if Billed(l.out[i], u) then Cost(l.out[i].rates, u) else 0;
      Ledger(l.spent + bill, Lowered(l.reserved, Held(l.out[i])), Without(l.out, i))
  }

  function Sum(out: seq<Call>): nat
    decreases |out|
  {
    if out == [] then 0 else Sum(out[..|out| - 1]) + Held(out[|out| - 1])
  }

  lemma {:induction false} SumWithout(out: seq<Call>, i: nat)
    requires i < |out|
    ensures Sum(Without(out, i)) == Sum(out) - Held(out[i]) && Held(out[i]) <= Sum(out)
    decreases |out|
  {
    hide Held;
    var n := |out| - 1;
    if i == n {
      assert Without(out, i) == out[..n];
    } else {
      SumWithout(out[..n], i);
      assert Without(out, i)[..n - 1] == Without(out[..n], i);
      assert Without(out, i)[n - 1] == out[n];
    }
  }

  predicate Inv(l: Ledger, limit: nat) {
    && l.spent >= 0 && l.reserved == Sum(l.out) && l.spent + l.reserved <= limit
    && forall i | 0 <= i < |l.out| :: ValidRates(l.out[i].rates)
  }

  /** What the call would be billed for this usage is within its reservation. */
  predicate Covered(c: Call, u: Usage) {
    Billed(c, u) ==> Cost(c.rates, u) <= Held(c)
  }

  lemma {:induction false} CostIsNatural(r: Rates, u: Usage)
    requires ValidRates(r) && ValidUsage(u)
    ensures Cost(r, u) >= 0
  {
    CostWithinBound(r, u, u.input, u.output);
  }

  lemma {:induction false} StepKeepsInv(l: Ledger, limit: nat, s: Step)
    requires Inv(l, limit) && Enabled(l, s)
    requires s.Finish? ==> Covered(l.out[s.index], s.usage)
    ensures Inv(Apply(l, limit, s), limit)
  {
    hide Held, Cost, UpperBound, ValidRates, ValidUsage;
    match s
    case Reserve(c) => assert (l.out + [c])[..|l.out|] == l.out;
    case Release(i) => SumWithout(l.out, i);
    case Finish(i, u) =>
      SumWithout(l.out, i);
      CostIsNatural(l.out[i].rates, u);
  }

  /** The clamp never acts: no step lowers the counter by more than it holds. */
  lemma {:induction false} ClampNeverActs(l: Ledger, limit: nat, s: Step)
    requires Inv(l, limit) && Enabled(l, s) && !s.Reserve?
    ensures l.reserved - Held(l.out[s.index]) >= 0
    ensures Lowered(l.reserved, Held(l.out[s.index])) == l.reserved - Held(l.out[s.index])
  {
    SumWithout(l.out, s.index);
  }

  // ---------- runs against providers that report as they may ----------

  /** `may` says which usages a provider can report for which calls. */
  ghost predicate Run(states: seq<Ledger>, steps: seq<Step>, limit: nat, may: (Call, Usage) -> bool) {
    && |states| == |steps| + 1 && states[0] == Empty()
    && forall k | 0 <= k < |steps| ::
         && Enabled(states[k], steps[k]) && states[k + 1] == Apply(states[k], limit, steps[k])
         && (steps[k].Finish? ==> may(states[k].out[steps[k].index], steps[k].usage))
  }

  predicate WithinLimit(l: Ledger, limit: nat) {
    0 <= l.spent <= l.spent + l.reserved <= limit
  }

  /** Whatever a provider can report for a call that it will be billed for costs no more than was reserved. */
  ghost predicate AllCovered(may: (Call, Usage) -> bool) {
    forall c: Call, u: Usage | ValidRates(c.rates) && ValidUsage(u) && may(c, u) :: Covered(c, u)
  }

  lemma {:induction false} CoveredRunsKeepInv(states: seq<Ledger>, steps: seq<Step>, limit: nat, may: (Call, Usage) -> bool, n: nat)
    requires AllCovered(may) && Run(states, steps, limit, may) && n < |states|
    ensures Inv(states[n], limit)
    decreases n
  {
    hide Covered, Apply;
    if n > 0 {
      CoveredRunsKeepInv(states, steps, limit, may, n - 1);
      var l, s := states[n - 1], steps[n - 1];
      assert states[n - 1 + 1] == Apply(l, limit, s);
      if s.Finish? { assert ValidRates(l.out[s.index].rates); }
      StepKeepsInv(l, limit, s);
    }
  }

  /** One call on an empty budget of exactly its bound, settled above it. */
  lemma {:induction false} UncoveredOverdraws(c: Call, u: Usage, may: (Call, Usage) -> bool) returns (states: seq<Ledger>, steps: seq<Step>)
    requires ValidRates(c.rates) && ValidUsage(u) && may(c, u) && !Covered(c, u)
    ensures Run(states, steps, Held(c), may)
    ensures |states| == 3 && states[2].spent == Cost(c.rates, u) > Held(c)
  {
    hide Held, Cost;
    var limit := Held(c);
    var one := Apply(Empty(), limit, Reserve(c));
    assert one == Ledger(0, Held(c), [c]);
    var two := Apply(one, limit, Finish(0, u));
    states, steps := [Empty(), one, two], [Reserve(c), Finish(0, u)];
  }

  /**
   Exactly when the budget holds. Whatever the providers can report, every run of every interleaving
   under every limit stays within it if and only if no report that is billed can cost more than
   its call reserved.
   */
  lemma {:induction false} BudgetHoldsIff(may: (Call, Usage) -> bool)
    ensures (forall states, steps, limit, n: nat | Run(states, steps, limit, may) && n < |states| :: WithinLimit(states[n], limit))
            <==> AllCovered(may)
  {
    hide Run, Covered;
    if AllCovered(may) {
      forall states, steps, limit, n: nat | Run(states, steps, limit, may) && n < |states|
        ensures WithinLimit(states[n], limit)
      {
        CoveredRunsKeepInv(states, steps, limit, may, n);
      }
    } else {
      var c: Call, u: Usage :| ValidRates(c.rates) && ValidUsage(u) && may(c, u) && !Covered(c, u);
      var states, steps := UncoveredOverdraws(c, u, may);
      assert !WithinLimit(states[2], Held(c));
    }
  }

  // ---------- what the counters are, whatever the providers report ----------

  /** A call is let in exactly when its bound fits beside what is spent and held; it leaves by being released or billed. */
  predicate StepLaw(l: Ledger, limit: nat, s: Step, t: Ledger) {
    match s
    case Reserve(c) =>
      var bound := UpperBound(c.rates, c.inputBound, c.maxOutput);
      if l.spent + Sum(l.out) + bound <= limit then t.spent == l.spent && t.out == l.out + [c] && t.reserved == l.reserved + bound
      else t == l
    case Release(i) =>
      && i < |l.out| && t.spent == l.spent && t.out == l.out[..i] + l.out[i + 1..]
      && t.reserved == l.reserved - UpperBound(l.out[i].rates, l.out[i].inputBound, l.out[i].maxOutput)
    case Finish(i, u) =>
      && i < |l.out| && t.out == l.out[..i] + l.out[i + 1..]
      && t.spent == l.spent + (if u.output <= l.out[i].maxOutput then Cost(l.out[i].rates, u) else 0)
      && t.reserved == l.reserved - UpperBound(l.out[i].rates, l.out[i].inputBound, l.out[i].maxOutput)
  }

  lemma {:induction false} StepIsLawful(l: Ledger, limit: nat, s: Step)
    requires Enabled(l, s) && l.reserved == Sum(l.out)
    ensures StepLaw(l, limit, s, Apply(l, limit, s)) && Apply(l, limit, s).reserved == Sum(Apply(l, limit, s).out)
  {
    match s
    case Reserve(c) => assert (l.out + [c])[..|l.out|] == l.out;
    case Release(i) => SumWithout(l.out, i);
    case Finish(i, u) => SumWithout(l.out, i);
  }

  /** The bills of the first n steps: the priced reports that stay within the output allowed. */
  function TotalBilled(states: seq<Ledger>, steps: seq<Step>, n: nat): int
    requires n <= |steps| <= |states|
  {
    if n == 0 then 0
    else
      var l, s := states[n - 1], steps[n - 1];
      TotalBilled(states, steps, n - 1)
        + if s.Finish? && s.index < |l.out| && s.usage.output <= l.out[s.index].maxOutput then Cost(l.out[s.index].rates, s.usage) else 0
  }

  /**
   The two counters over every run, against providers that report anything at all: spent is the sum of the bills,
   reserved the sum of the bounds of the calls still out, and every step does what its law says.
   */
  lemma {:induction false} CountersAreAccounts(states: seq<Ledger>, steps: seq<Step>, limit: nat, may: (Call, Usage) -> bool, n: nat)
    requires Run(states, steps, limit, may) && n < |states|
    ensures states[n].spent == TotalBilled(states, steps, n) && states[n].reserved == Sum(states[n].out)
    ensures n < |steps| ==> StepLaw(states[n], limit, steps[n], states[n + 1])
    decreases n
  {
    hide Apply, StepLaw, Cost, UpperBound;
    if n > 0 {
      CountersAreAccounts(states, steps, limit, may, n - 1);
      var l, s := states[n - 1], steps[n - 1];
      assert states[n - 1 + 1] == Apply(l, limit, s);
      StepIsLawful(l, limit, s);
      SpentBy(l, limit, s, states[n]);
    }
    if n < |steps| { StepIsLawful(states[n], limit, steps[n]); }
  }

  lemma {:induction false} SpentBy(l: Ledger, limit: nat, s: Step, t: Ledger)
    requires StepLaw(l, limit, s, t)
    ensures t.spent == l.spent
              + if s.Finish? && s.index < |l.out| && s.usage.output <= l.out[s.index].maxOutput then Cost(l.out[s.index].rates, s.usage) else 0
  {
  }

  /** A provider that never counts more input tokens than the request has bytes. */
  predicate CountsWithinBytes(c: Call, u: Usage) {
    u.input <= c.inputBound
  }

  lemma {:induction false} ReportedUsageIsCovered(c: Call, u: Usage)
    requires ValidRates(c.rates) && ValidUsage(u) && CountsWithinBytes(c, u)
    ensures Covered(c, u)
  {
    if Billed(c, u) { CostWithinBound(c.rates, u, c.inputBound, c.maxOutput); }
  }

  /**
   The budget is never overdrawn: if no provider counts more input tokens than the byte bound, then
   under any interleaving of reservations, releases and settlements the reserved counter is the sum
   of the outstanding reservations and spent plus reserved stays within the limit.
   */
  lemma {:induction false} NeverOverdrawn(states: seq<Ledger>, steps: seq<Step>, limit: nat, n: nat)
    requires Run(states, steps, limit, CountsWithinBytes) && n < |states|
    ensures states[n].reserved == Sum(states[n].out)
    ensures WithinLimit(states[n], limit)
  {
    forall c: Call, u: Usage | ValidRates(c.rates) && ValidUsage(u) && CountsWithinBytes(c, u) ensures Covered(c, u) {
      ReportedUsageIsCovered(c, u);
    }
    CoveredRunsKeepInv(states, steps, limit, CountsWithinBytes, n);
  }

  /**
   The byte bound is what the budget rests on: for every call that pays for input there is a
   report above the bound, with no output at all, that the code accepts and that overdraws.
   */
  lemma {:induction false} UncheckedInputOverdraws(c: Call) returns (u: Usage, states: seq<Ledger>, steps: seq<Step>)
    requires ValidRates(c.rates) && c.rates.input > 0
    ensures ValidUsage(u) && u.output == 0 && u.input > c.inputBound
    ensures Run(states, steps, Held(c), (_, _) => true) && |states| == 3 && states[2].spent > Held(c)
  {
    var tokens := 1000000 * (Held(c) + 1) + c.inputBound + 1;
    u := Usage(tokens, 0, 0);
    Scales(1, c.rates.input, tokens);
    assert InputAmount(c.rates, u) + u.output * c.rates.output == tokens * c.rates.input >= tokens;
    CeilCovers(tokens * c.rates.input, Cost(c.rates, u));
    assert Cost(c.rates, u) > Held(c);
    states, steps := UncoveredOverdraws(c, u, (_, _) => true);
  }
}
