/**
 The model gateway's bookkeeping: provider circuits and cooldowns, the half-open probe claim,
 delays, and what one completed request may do at most.

 Times are real seconds on a monotonic clock; a provider's answers are an input of the request.
 */
module Gateway {
  import opened Backoff
  import opened Ordering
  import opened Pricing

  datatype Circuit = Closed | Open | HalfOpen

  datatype Runtime = Runtime(circuit: Circuit, openUntil: Option<real>, inFlight: bool, retryAfterUntil: Option<real>,
                             failures: nat, requests: nat, failed: nat, retries: nat, totalCost: int)

  datatype Kind = Unavailable | TimedOut | RateLimited | CircuitOpen | ResponseInvalid | StreamInvalid
                | PricingRequired | BudgetExceeded | NoRoute | Rejected

  datatype Error = Error(kind: Kind, retryAfter: Option<real>)

  predicate Retryable(k: Kind) {
    k == Unavailable || k == TimedOut || k == RateLimited || k == CircuitOpen
  }

  predicate CountsAgainstCircuit(k: Kind) {
    k == Unavailable || k == TimedOut || k == ResponseInvalid || k == StreamInvalid
  }

  datatype Policy = Policy(pricing: map<Id, Rates>, baseDelay: real, ceiling: real, threshold: nat, recovery: real)

  datatype Budget = Budget(maxAttempts: nat, maxDelay: real, limit: Option<nat>)

  /** `candidates` are the route's providers that privacy and capabilities allow, in order of preference. */
  datatype Request = Request(task: Id, route: seq<Id>, candidates: seq<Id>, inputBound: nat, maxOutput: nat, timeout: real)

  /** How a provider answers one call, and after how long. */
  datatype Answer =
    | Answered(usage: Usage, wellFormed: bool, took: real)
    | Failed(error: Error, took: real)
    | Stopped(took: real)
    | Cancelled(took: real)

  /** The error an answer amounts to, after the response checks and the mapping of foreign exceptions. */
  function ErrorOf(a: Answer, maxOutput: nat): Option<Error> {
    match a
    case Answered(usage, wellFormed, _) => if !wellFormed || usage.output > maxOutput then Some(Error(ResponseInvalid, None)) else None
    case Failed(error, _) => Some(error)
    case Stopped(_) => Some(Error(TimedOut, None))
    case Cancelled(_) => None
  }

  datatype Verdict = Succeeds(usage: Usage) | Fails(error: Error) | Stops

  /** What the gateway makes of a call: no time left and it is not made, too slow and it is cut off. */
  function VerdictOn(a: Answer, remaining: real, maxOutput: nat): Verdict {
    if remaining <= 0.0 || a.took >= remaining then Fails(Error(TimedOut, None))
    else if a.Cancelled? then Stops
    else
      var error := ErrorOf(a, maxOutput);
      if error.Some? then Fails(error.value) else Succeeds(a.usage)
  }

  // ---------- what an answer is worth, in its own terms ----------

  /** A valid response that came in time. */
  predicate Good(a: Answer, remaining: real, maxOutput: nat) {
    0.0 < remaining && a.took < remaining && a.Answered? && a.wellFormed && a.usage.output <= maxOutput
  }

  /** The caller went away during the call. */
  predicate CutShort(a: Answer, remaining: real) {
    0.0 < remaining && a.took < remaining && a.Cancelled?
  }

  /** Too late, or with the error given. */
  predicate Bad(a: Answer, remaining: real, maxOutput: nat, e: Error) {
    if remaining <= 0.0 || a.took >= remaining then e == Error(TimedOut, None)
    else
      match a
      case Answered(usage, wellFormed, _) => (!wellFormed || usage.output > maxOutput) && e == Error(ResponseInvalid, None)
      case Failed(error, _) => e == error
      case Stopped(_) => e == Error(TimedOut, None)
      case Cancelled(_) => false
  }

  /** Worth another attempt: nothing came in time, or what went wrong may pass. */
  predicate PassedOver(a: Answer, remaining: real) {
    || remaining <= 0.0 || a.took >= remaining || a.Stopped?
    || (a.Failed? && (a.error.kind == Unavailable || a.error.kind == TimedOut || a.error.kind == RateLimited || a.error.kind == CircuitOpen))
  }

  lemma {:induction false} VerdictIsRight(a: Answer, remaining: real, maxOutput: nat)
    ensures var v := VerdictOn(a, remaining, maxOutput);
            && (v.Succeeds? <==> Good(a, remaining, maxOutput)) && (v.Succeeds? ==> v.usage == a.usage)
            && (v.Stops? <==> CutShort(a, remaining))
            && (forall e :: v == Fails(e) <==> Bad(a, remaining, maxOutput, e))
            && (v.Fails? ==> (Retryable(v.error.kind) <==> PassedOver(a, remaining)))
  {
  }

  datatype Account = Account(spent: int, reserved: int)

  function AccountOf(tasks: map<Id, Account>, task: Id): Account {
    if task in tasks then tasks[task] else Account(0, 0)
  }

  function Estimate(p: Policy, r: Request, provider: Id): int {
    if provider in p.pricing then UpperBound(p.pricing[provider], r.inputBound, r.maxOutput) else 0
  }

  /** Accounting moved for one task only. */
  ghost predicate Moves(before: map<Id, Account>, after: map<Id, Account>, task: Id, spent: int, reserved: int) {
    forall t :: AccountOf(after, t) ==
      if t == task then Account(AccountOf(before, t).spent + spent, AccountOf(before, t).reserved + reserved) else AccountOf(before, t)
  }

  predicate Affordable(p: Policy, tasks: map<Id, Account>, r: Request, b: Budget, provider: Id) {
    b.limit.Some? ==>
      && provider in p.pricing
      && AccountOf(tasks, r.task).spent + AccountOf(tasks, r.task).reserved + Estimate(p, r, provider) <= b.limit.value
  }

  // ---------- availability ----------

  predicate CoolingDown(rt: Runtime, now: real) {
    rt.retryAfterUntil.Some? && rt.retryAfterUntil.value > now
  }

  predicate Available(rt: Runtime, now: real) {
    && !CoolingDown(rt, now)
    && match rt.circuit
       case Closed => true
       case Open => !(rt.openUntil.Some? && rt.openUntil.value > now) && !rt.inFlight
       case HalfOpen => !rt.inFlight
  }

  /** The provider takes a call: no cooldown runs, and its circuit is closed, or its recovery is over and no probe is out. */
  predicate TakesCalls(rt: Runtime, now: real) {
    && (rt.retryAfterUntil == None || rt.retryAfterUntil.value <= now)
    && (rt.circuit == Closed
        || (!rt.inFlight && (rt.circuit == HalfOpen || rt.openUntil == None || rt.openUntil.value <= now)))
  }

  /** The task's budget has room for the call's bound. */
  predicate HasRoom(p: Policy, tasks: map<Id, Account>, r: Request, b: Budget, provider: Id) {
    || b.limit == None
    || (&& provider in p.pricing
        && var used := if r.task in tasks then tasks[r.task].spent + tasks[r.task].reserved else 0;
           used + UpperBound(p.pricing[provider], r.inputBound, r.maxOutput) <= b.limit.value)
  }

  lemma {:induction false} AvailableTakesCalls(rt: Runtime, now: real)
    ensures Available(rt, now) <==> TakesCalls(rt, now)
  {
  }

  lemma {:induction false} AffordableHasRoom(p: Policy, tasks: map<Id, Account>, r: Request, b: Budget, provider: Id)
    ensures Affordable(p, tasks, r, b, provider) <==> HasRoom(p, tasks, r, b, provider)
  {
    hide UpperBound;
  }

  /** What asking leaves: a cooldown that is over is cleared, and a claim on a circuit under trial takes the one probe. */
  predicate AskedLaw(rt: Runtime, now: real, claim: bool, t: Runtime) {
    && t.failures == rt.failures && t.requests == rt.requests && t.failed == rt.failed && t.retries == rt.retries && t.totalCost == rt.totalCost
    && t.openUntil == rt.openUntil
    && t.retryAfterUntil == (if rt.retryAfterUntil.Some? && rt.retryAfterUntil.value > now then rt.retryAfterUntil else None)
    && if claim && TakesCalls(rt, now) && rt.circuit != Closed then t.circuit == HalfOpen && t.inFlight && !TakesCalls(t, now)
       else t.circuit == rt.circuit && t.inFlight == rt.inFlight
  }

  lemma {:induction false} AskingIsLawful(rt: Runtime, now: real, claim: bool)
    ensures AskedLaw(rt, now, claim, AfterAsking(rt, now, claim))
  {
  }

  /** Asking clears a cooldown that is over; a claim on a circuit that is not closed takes the one probe. */
  function AfterAsking(rt: Runtime, now: real, claim: bool): Runtime {
    if CoolingDown(rt, now) then rt
    else
      var cooled := rt.(retryAfterUntil := None);
      if claim && Available(rt, now) && rt.circuit != Closed then cooled.(circuit := HalfOpen, inFlight := true) else cooled
  }

  /** A response closes the circuit. */
  function AfterSuccess(rt: Runtime, cost: int): Runtime {
    rt.(requests := rt.requests + 1, totalCost := rt.totalCost + cost, failures := 0, retryAfterUntil := None,
        circuit := Closed, openUntil := None, inFlight := false)
  }

  /** A failure ends the probe; a probe that failed, or one failure too many, opens the circuit. */
  function AfterFailure(rt: Runtime, p: Policy, e: Error, now: real): Runtime {
    var failures := rt.failures + if CountsAgainstCircuit(e.kind) then 1 else 0;
    var opens := rt.circuit == HalfOpen || failures >= p.threshold;
    rt.(requests := rt.requests + 1, failed := rt.failed + 1, failures := failures, inFlight := false,
        circuit := if opens then Open else rt.circuit,
        openUntil := if opens then Some(now + p.recovery) else rt.openUntil,
        retryAfterUntil := if e.retryAfter.Some? then Some(now + e.retryAfter.value)
                           else if e.kind == RateLimited then Some(now + p.baseDelay) else rt.retryAfterUntil)
  }

  /** Only a half-open circuit has a probe in flight. */
  predicate Sound(runtime: map<Id, Runtime>) {
    forall p | p in runtime :: runtime[p].inFlight ==> runtime[p].circuit == HalfOpen
  }

  /** Nobody's circuit or probe changed. */
  predicate SameProbes(a: map<Id, Runtime>, b: map<Id, Runtime>) {
    a.Keys == b.Keys && forall p | p in a :: a[p].inFlight == b[p].inFlight && a[p].circuit == b[p].circuit
  }

  /** Only one provider's probe may have changed. */
  predicate SameFlightsBut(a: map<Id, Runtime>, b: map<Id, Runtime>, provider: Id) {
    a.Keys == b.Keys && forall p | p in a && p != provider :: a[p].inFlight == b[p].inFlight
  }

  predicate SameFlights(a: map<Id, Runtime>, b: map<Id, Runtime>) {
    a.Keys == b.Keys && forall p | p in a :: a[p].inFlight == b[p].inFlight
  }

  // ---------- delays ----------

  function Max(a: real, b: real): real {
    if a < b then b else a
  }

  function RetryDelay(p: Policy, attempt: nat, e: Error): real {
    var exponent := if attempt >= 1 then attempt - 1 else 0;
    var exponential := p.baseDelay * Power2(exponent) as real;
    var capped := if exponential < p.ceiling then exponential else p.ceiling;
    Max(capped, if e.retryAfter.Some? then e.retryAfter.value else 0.0)
  }

  function Shorter(a: Option<real>, b: real): real {
    if a.Some? && a.value < b then a.value else b
  }

  /** How long until a cooldown or an open circuit ends, or a little while if a probe is out. */
  function Sooner(best: Option<real>, rt: Runtime, now: real): Option<real> {
    var cooled := if CoolingDown(rt, now) then Some(Shorter(best, rt.retryAfterUntil.value - now)) else best;
    var reopened := if rt.openUntil.Some? && rt.openUntil.value > now then Some(Shorter(cooled, rt.openUntil.value - now)) else cooled;
    if rt.circuit == HalfOpen && rt.inFlight then Some(Shorter(reopened, 0.05)) else reopened
  }

  function Soonest(runtime: map<Id, Runtime>, now: real, route: seq<Id>): Option<real>
    requires forall id | id in route :: id in runtime
    decreases |route|
  {
    if route == [] then None
    else Sooner(Soonest(runtime, now, route[..|route| - 1]), runtime[route[|route| - 1]], now)
  }

  /** The wait before the next attempt: what the error asks for, or until the route opens up, if that is longer. */
  function DelayBefore(p: Policy, runtime: map<Id, Runtime>, now: real, r: Request, attempt: nat, e: Error): real
    requires forall id | id in r.route :: id in runtime
  {
    var soonest := Soonest(runtime, now, r.route);
    Max(RetryDelay(p, attempt, e), if soonest.Some? then soonest.value else 0.0)
  }

  /** A provider waits for its cooldown to end, for its circuit's recovery, or a little while for a probe that is out. */
  predicate WaitsFor(rt: Runtime, now: real, delay: real) {
    || (CoolingDown(rt, now) && delay == rt.retryAfterUntil.value - now)
    || (rt.openUntil.Some? && rt.openUntil.value > now && delay == rt.openUntil.value - now)
    || (rt.circuit == HalfOpen && rt.inFlight && delay == 0.05)
  }

  lemma {:induction false} SoonerIsLeast(best: Option<real>, rt: Runtime, now: real)
    ensures var next := Sooner(best, rt, now);
            && (next.Some? ==> next == best || WaitsFor(rt, now, next.value))
            && (best.Some? ==> next.Some? && next.value <= best.value)
            && (forall d | WaitsFor(rt, now, d) :: next.Some? && next.value <= d)
  {
  }

  /**
   The least single wait on the route: it is one that some provider of the route is in, none of them
   is in a shorter one, and it is positive. The provider may still be unavailable after it, when
   another of its own waits is longer.
   */
  lemma {:induction false} SoonestIsLeast(runtime: map<Id, Runtime>, now: real, route: seq<Id>)
    requires forall id | id in route :: id in runtime
    ensures var soonest := Soonest(runtime, now, route);
            && (soonest.Some? ==> soonest.value > 0.0 && exists id :: id in route && WaitsFor(runtime[id], now, soonest.value))
            && (forall id, d | id in route && WaitsFor(runtime[id], now, d) :: soonest.Some? && soonest.value <= d)
    decreases |route|
  {
    if route != [] {
      var n := |route| - 1;
      SoonestIsLeast(runtime, now, route[..n]);
      SoonerIsLeast(Soonest(runtime, now, route[..n]), runtime[route[n]], now);
      forall id, d | id in route && WaitsFor(runtime[id], now, d)
        ensures Soonest(runtime, now, route).Some? && Soonest(runtime, now, route).value <= d
      {
        assert id in route[..n] || id == route[n];
      }
    }
  }

  // ---------- what a request leaves behind ----------

  datatype Event = Called(provider: Id) | Slept(seconds: real)

  function Calls(log: seq<Event>): nat
    decreases |log|
  {
    if log == [] then 0 else Calls(log[..|log| - 1]) + if log[|log| - 1].Called? then 1 else 0
  }

  function TotalSleep(log: seq<Event>): real
    decreases |log|
  {
    if log == [] then 0.0 else TotalSleep(log[..|log| - 1]) + if log[|log| - 1].Slept? then log[|log| - 1].seconds else 0.0
  }

  /** Between two calls of one provider there is a sleep. */
  predicate SleepsBetweenRepeats(log: seq<Event>) {
    forall i, j | 0 <= i < j < |log| && log[i].Called? && log[j] == log[i] :: SleepIn(log, i, j)
  }

  predicate SleepIn(log: seq<Event>, i: nat, j: nat)
    requires i < j < |log|
  {
    exists k :: i < k < j && log[k].Slept?
  }

  /** The providers called since the last sleep. */
  function Recent(log: seq<Event>): set<Id>
    decreases |log|
  {
    if log == [] || log[|log| - 1].Slept? then {}
    else Recent(log[..|log| - 1]) + {log[|log| - 1].provider}
  }

  lemma {:induction false} LogGrows(log: seq<Event>, e: Event)
    ensures Calls(log + [e]) == Calls(log) + if e.Called? then 1 else 0
    ensures TotalSleep(log + [e]) == TotalSleep(log) + if e.Slept? then e.seconds else 0.0
    ensures Recent(log + [e]) == if e.Slept? then {} else Recent(log) + {e.provider}
  {
    assert (log + [e])[..|log|] == log;
  }

  /** A provider called before but not recently has a sleep after that call. */
  lemma {:induction false} NotRecent(log: seq<Event>, i: nat)
    requires i < |log| && log[i].Called? && log[i].provider !in Recent(log)
    ensures exists k :: i < k < |log| && log[k].Slept?
    decreases |log|
  {
    var n := |log| - 1;
    if log[n].Slept? {
      assert i < n;
    } else if i < n {
      NotRecent(log[..n], i);
      var k :| i < k < n && log[..n][k].Slept?;
      assert log[k].Slept?;
    }
  }

  lemma {:induction false} CallKeepsSpacing(log: seq<Event>, p: Id)
    requires SleepsBetweenRepeats(log) && p !in Recent(log)
    ensures SleepsBetweenRepeats(log + [Called(p)])
  {
    var t := log + [Called(p)];
    forall i, j | 0 <= i < j < |t| && t[i].Called? && t[j] == t[i] ensures SleepIn(t, i, j) {
      if j < |log| {
        assert SleepIn(log, i, j);
        var k :| i < k < j && log[k].Slept?;
        assert t[k].Slept?;
      } else {
        NotRecent(log, i);
        var k :| i < k < |log| && log[k].Slept?;
        assert t[k].Slept?;
      }
    }
  }

  lemma {:induction false} SleepKeepsSpacing(log: seq<Event>, seconds: real)
    requires SleepsBetweenRepeats(log)
    ensures SleepsBetweenRepeats(log + [Slept(seconds)])
  {
    var t := log + [Slept(seconds)];
    forall i, j | 0 <= i < j < |t| && t[i].Called? && t[j] == t[i] ensures SleepIn(t, i, j) {
      assert SleepIn(log, i, j);
      var k :| i < k < j && log[k].Slept?;
      assert t[k].Slept?;
    }
  }

  /** The base, doubled once for each attempt before, and never above the ceiling. */
  function Doubled(base: real, ceiling: real, attempt: nat): real {
    if attempt <= 1 then (if base < ceiling then base else ceiling)
    else
      var d := Doubled(base, ceiling, attempt - 1);
      if d + d < ceiling then d + d else ceiling
  }

  lemma {:induction false} DelayIsDoubled(p: Policy, attempt: nat, e: Error)
    requires p.baseDelay >= 0.0 && p.ceiling >= 0.0 && attempt >= 1
    ensures var d := Doubled(p.baseDelay, p.ceiling, attempt);
            d >= 0.0 && RetryDelay(p, attempt, e) == if e.retryAfter.Some? && d < e.retryAfter.value then e.retryAfter.value else d
  {
    CappedIsDoubled(p, attempt);
    Grows(p.baseDelay, Power2(attempt - 1));
    hide Doubled, Power2;
  }

  lemma {:induction false} CappedIsDoubled(p: Policy, attempt: nat)
    requires p.baseDelay >= 0.0 && p.ceiling >= 0.0 && attempt >= 1
    ensures var exponential := p.baseDelay * Power2(attempt - 1) as real;
            Doubled(p.baseDelay, p.ceiling, attempt) == if exponential < p.ceiling then exponential else p.ceiling
    decreases attempt
  {
    if attempt > 1 {
      CappedIsDoubled(p, attempt - 1);
      var low, high := p.baseDelay * Power2(attempt - 2) as real, p.baseDelay * Power2(attempt - 1) as real;
      assert Power2(attempt - 1) == 2 * Power2(attempt - 2);
      assert high == p.baseDelay * (2.0 * Power2(attempt - 2) as real) == 2.0 * low;
      Grows(p.baseDelay, Power2(attempt - 2));
    }
  }

  /** Waiting after attempt n + 1 is never shorter than after attempt n for the same error, and never shorter than the provider asked. */
  lemma {:induction false} DelayHonoursProvider(p: Policy, attempt: nat, e: Error)
    requires p.baseDelay >= 0.0 && attempt >= 1
    ensures RetryDelay(p, attempt, e) <= RetryDelay(p, attempt + 1, e)
    ensures e.retryAfter.Some? ==> RetryDelay(p, attempt, e) >= e.retryAfter.value
    ensures RetryDelay(p, attempt, e) <= Max(p.ceiling, if e.retryAfter.Some? then e.retryAfter.value else 0.0)
  {
    var low, high := p.baseDelay * Power2(attempt - 1) as real, p.baseDelay * Power2(attempt) as real;
    assert Power2(attempt) == 2 * Power2(attempt - 1);
    assert high == p.baseDelay * (2.0 * Power2(attempt - 1) as real) == 2.0 * low;
    Grows(p.baseDelay, Power2(attempt - 1));
  }

  lemma {:induction false} Grows(base: real, n: nat)
    requires base >= 0.0
    ensures base * n as real >= 0.0
  {
  }
}
