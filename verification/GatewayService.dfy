/** The gateway's request loop: select, reserve, call, settle or release, and retry or fall back within the budgets. */
module GatewayService {
  import opened Backoff
  import CostLedger
  import opened Ordering
  import opened Pricing
  import opened Gateway

  datatype Selection = Picked(provider: Id) | NotPicked(error: Error)

  datatype Turn = Unanswered(error: Error) | Played(provider: Id, verdict: Verdict, cost: int)

  datatype Outcome = Completed(cost: int) | Refused(error: Error) | Abandoned

  /** Why a request ended without a response. */
  datatype Reason = Answered | Exhausted | NotRetryable | WaitTooLong | NoProvider(excluded: set<Id>)

  /** The candidates that fit the budget and were not tried since the last wait, in order. */
  function Eligible(p: Policy, tasks: map<Id, Account>, r: Request, b: Budget, excluded: set<Id>, ids: seq<Id>): seq<Id>
    decreases |ids|
  {
    if ids == [] then []
    else
      var last := ids[|ids| - 1];
      var earlier := Eligible(p, tasks, r, b, excluded, ids[..|ids| - 1]);
      if Affordable(p, tasks, r, b, last) && last !in excluded then earlier + [last] else earlier
  }

  /** The call a request makes of a priced provider. */
  function CallOf(p: Policy, r: Request, provider: Id): CostLedger.Call
    requires provider in p.pricing
  {
    CostLedger.Call(p.pricing[provider], r.inputBound, r.maxOutput)
  }

  /** The account carries the counters of the ledger. */
  predicate Tracks(a: Account, l: CostLedger.Ledger) {
    a.spent == l.spent && a.reserved == l.reserved
  }

  predicate IsFirstAvailable(runtime: map<Id, Runtime>, now: real, ids: seq<Id>, provider: Id) {
    exists k :: 0 <= k < |ids| && ids[k] == provider && provider in runtime && Available(runtime[provider], now)
      && forall j | 0 <= j < k :: ids[j] in runtime ==> !Available(runtime[ids[j]], now)
  }

  predicate NoneAvailable(runtime: map<Id, Runtime>, now: real, ids: seq<Id>) {
    forall id | id in ids && id in runtime :: !Available(runtime[id], now)
  }

  /** Why no provider is picked: the first of these that applies. */
  function Refusal(p: Policy, tasks: map<Id, Account>, runtime: map<Id, Runtime>, now: real, r: Request, b: Budget, excluded: set<Id>): Kind {
    var open := Eligible(p, tasks, r, b, excluded, r.candidates);
    if r.candidates == [] then NoRoute
    else if forall id | id in r.candidates :: !Affordable(p, tasks, r, b, id) then
      if exists id :: id in r.candidates && id !in p.pricing then PricingRequired else BudgetExceeded
    else if open == [] then Unavailable
    else if exists id :: id in open && id in runtime && CoolingDown(runtime[id], now) then RateLimited
    else CircuitOpen
  }

  /** What the caller is told when nobody is picked, and when. */
  lemma {:induction false} RefusalTells(p: Policy, tasks: map<Id, Account>, runtime: map<Id, Runtime>, now: real, r: Request, b: Budget, excluded: set<Id>)
    ensures var told := Refusal(p, tasks, runtime, now, r, b, excluded);
            var payable := exists id :: id in r.candidates && HasRoom(p, tasks, r, b, id);
            var untried := exists id :: id in r.candidates && id !in excluded && HasRoom(p, tasks, r, b, id);
            var cooling := exists id :: id in r.candidates && id !in excluded && HasRoom(p, tasks, r, b, id) && id in runtime
                                        && runtime[id].retryAfterUntil.Some? && runtime[id].retryAfterUntil.value > now;
            && (told == NoRoute <==> r.candidates == [])
            && (told == PricingRequired <==> r.candidates != [] && !payable && exists id :: id in r.candidates && id !in p.pricing)
            && (told == BudgetExceeded <==> r.candidates != [] && !payable && forall id | id in r.candidates :: id in p.pricing)
            && (told == Unavailable <==> payable && !untried)
            && (told == RateLimited <==> cooling)
            && (told == CircuitOpen <==> untried && !cooling)
  {
    hide Affordable, HasRoom, Eligible;
    var open := Eligible(p, tasks, r, b, excluded, r.candidates);
    EligibleAre(p, tasks, r, b, excluded, r.candidates);
    forall id ensures Affordable(p, tasks, r, b, id) <==> HasRoom(p, tasks, r, b, id) { AffordableHasRoom(p, tasks, r, b, id); }
    assert open != [] ==> open[0] in open;
  }

  /** One attempt of a request: whom it called, and when. */
  datatype Try = Try(provider: Id, begun: real)

  /** The provider takes a call now, and the task can pay for it. */
  predicate Serves(p: Policy, tasks: map<Id, Account>, runtime: map<Id, Runtime>, now: real, r: Request, b: Budget, id: Id) {
    HasRoom(p, tasks, r, b, id) && id in runtime && TakesCalls(runtime[id], now)
  }

  predicate IsFirstServing(p: Policy, tasks: map<Id, Account>, runtime: map<Id, Runtime>, now: real, r: Request, b: Budget, ids: seq<Id>, provider: Id) {
    exists k :: 0 <= k < |ids| && ids[k] == provider && Serves(p, tasks, runtime, now, r, b, ids[k])
      && forall j | 0 <= j < k :: !Serves(p, tasks, runtime, now, r, b, ids[j])
  }

  /**
   How the attempts account for the outcome: every attempt but the last was worth another one, and the last decides.
   A response means that it was good, an abandonment that the caller left, and an error is the one it made,
   unless no provider was found for another attempt.
   */
  predicate Told(outcome: Outcome, reason: Reason, tries: seq<Try>, answers: seq<Answer>, maxOutput: nat, deadline: real) {
    && |tries| <= |answers|
    && (forall k | 0 <= k < |tries| - 1 :: PassedOver(answers[k], deadline - tries[k].begun))
    && (tries == [] ==> outcome.Refused? && reason.NoProvider?)
    && (tries != [] ==>
          var a, remaining := answers[|tries| - 1], deadline - tries[|tries| - 1].begun;
          match outcome
          case Completed(_) => Good(a, remaining, maxOutput)
          case Abandoned => CutShort(a, remaining)
          case Refused(e) => if reason.NoProvider? then PassedOver(a, remaining) else Bad(a, remaining, maxOutput, e))
  }

  /** The attempts follow each other in time. */
  predicate Timed(tries: seq<Try>, start: real, end: real) {
    && (forall k | 0 <= k < |tries| :: start <= tries[k].begun <= end)
    && (forall i, j | 0 <= i < j < |tries| :: tries[i].begun <= tries[j].begun)
  }

  /** The first attempt is made at once, of the first candidate that serves; none is made only if no candidate does. */
  predicate Began(p: Policy, tasks: map<Id, Account>, runtime: map<Id, Runtime>, start: real, r: Request, b: Budget, tries: seq<Try>) {
    if tries == [] then forall id | id in r.candidates :: !Serves(p, tasks, runtime, start, r, b, id)
    else tries[0].begun == start && IsFirstServing(p, tasks, runtime, start, r, b, r.candidates, tries[0].provider)
  }

  /** Every attempt so far was worth another one, and the last made the error remembered. */
  predicate SoFar(tries: seq<Try>, answers: seq<Answer>, maxOutput: nat, deadline: real, start: real, now: real, lastError: Option<Error>) {
    && |tries| <= |answers| && start <= now && Timed(tries, start, now)
    && (forall k | 0 <= k < |tries| :: PassedOver(answers[k], deadline - tries[k].begun))
    && (tries != [] ==> lastError.Some? && Bad(answers[|tries| - 1], deadline - tries[|tries| - 1].begun, maxOutput, lastError.value))
  }

  predicate Judged(v: Verdict, a: Answer, remaining: real, maxOutput: nat) {
    match v
    case Succeeds(_) => Good(a, remaining, maxOutput)
    case Stops => CutShort(a, remaining)
    case Fails(e) => Bad(a, remaining, maxOutput, e) && (Retryable(e.kind) <==> PassedOver(a, remaining))
  }

  class ModelGateway {
    const policy: Policy
    var runtime: map<Id, Runtime>
    var tasks: map<Id, Account>
    var now: real
    ghost var log: seq<Event>

    constructor (p: Policy, providers: set<Id>, start: real)
      ensures policy == p && runtime.Keys == providers && Sound(runtime) && tasks == map[] && now == start && log == []
    {
      policy := p;
      runtime := map id | id in providers :: Runtime(Closed, None, false, None, 0, 0, 0, 0, 0);
      tasks, now, log := map[], start, [];
    }

    method ProviderIsAvailable(provider: Id, claim: bool) returns (ok: bool)
      requires provider in runtime
      modifies this`runtime
      ensures ok == Available(old(runtime)[provider], now)
      ensures runtime == old(runtime)[provider := AfterAsking(old(runtime)[provider], now, claim)]
      ensures ok == TakesCalls(old(runtime)[provider], now) && AskedLaw(old(runtime)[provider], now, claim, runtime[provider])
    {
      AvailableTakesCalls(runtime[provider], now);
      AskingIsLawful(runtime[provider], now, claim);
      hide AskedLaw, TakesCalls;
      var rt := runtime[provider];
      if rt.retryAfterUntil != None {
        if rt.retryAfterUntil.value > now {
          assert runtime == runtime[provider := rt];
          return false;
        }
        rt := rt.(retryAfterUntil := None);
        runtime := runtime[provider := rt];
      }
      assert runtime == old(runtime)[provider := rt];
      match rt.circuit
      case Open =>
        if rt.openUntil != None && rt.openUntil.value > now { return false; }
        if rt.inFlight { return false; }
        if claim { runtime := runtime[provider := rt.(circuit := HalfOpen, inFlight := true)]; }
        return true;
      case HalfOpen =>
        if rt.inFlight { return false; }
        if claim { runtime := runtime[provider := rt.(inFlight := true)]; }
        return true;
      case Closed =>
        return true;
    }

    /** The candidates whose estimate fits what the task has left; without a limit, all of them. */
    method BudgetCandidates(r: Request, b: Budget, excluded: set<Id>) returns (open: seq<Id>, anyAffordable: bool, missingPricing: bool)
      ensures open == Eligible(policy, tasks, r, b, excluded, r.candidates)
      ensures anyAffordable <==> exists id :: id in r.candidates && Affordable(policy, tasks, r, b, id)
      ensures missingPricing <==> b.limit.Some? && exists id :: id in r.candidates && id !in policy.pricing
    {
      open, anyAffordable, missingPricing := [], false, false;
      var account := AccountOf(tasks, r.task);
      for k := 0 to |r.candidates|
        invariant open == Eligible(policy, tasks, r, b, excluded, r.candidates[..k])
        invariant anyAffordable <==> exists id :: id in r.candidates[..k] && Affordable(policy, tasks, r, b, id)
        invariant missingPricing <==> b.limit.Some? && exists id :: id in r.candidates[..k] && id !in policy.pricing
      {
        var id := r.candidates[k];
        assert r.candidates[..k + 1] == r.candidates[..k] + [id];
        assert id in r.candidates[..k + 1];
        var fits := true;
        if b.limit != None {
          if id !in policy.pricing {
            missingPricing := true;
            fits := false;
          } else {
            fits := account.spent + account.reserved + Estimate(policy, r, id) <= b.limit.value;
          }
        }
        if fits {
          anyAffordable := true;
          if id !in excluded { open := open + [id]; }
        }
      }
      assert r.candidates[..|r.candidates|] == r.candidates;
    }

    /** Asks every open candidate in order and remembers the first that is available. */
    method FirstAvailable(open: seq<Id>) returns (found: Option<Id>)
      requires forall id | id in open :: id in runtime
      modifies this`runtime
      ensures SameProbes(old(runtime), runtime)
      ensures forall id | id in runtime :: Available(runtime[id], now) == Available(old(runtime)[id], now)
      ensures forall id | id in runtime :: CoolingDown(runtime[id], now) == CoolingDown(old(runtime)[id], now)
      ensures found.Some? ==> IsFirstAvailable(old(runtime), now, open, found.value)
      ensures found == None ==> NoneAvailable(old(runtime), now, open)
    {
      found := None;
      for k := 0 to |open|
        invariant SameProbes(old(runtime), runtime)
        invariant forall id | id in runtime :: Available(runtime[id], now) == Available(old(runtime)[id], now)
        invariant forall id | id in runtime :: CoolingDown(runtime[id], now) == CoolingDown(old(runtime)[id], now)
        invariant found == None ==> forall j | 0 <= j < k :: !Available(old(runtime)[open[j]], now)
        invariant found.Some? ==> IsFirstAvailable(old(runtime), now, open, found.value)
      {
        assert open[k] in open;
        var ok := ProviderIsAvailable(open[k], false);
        if ok && found == None { found := Some(open[k]); }
      }
    }

    /** What the caller is told when every open candidate is cooling down or has an open circuit. */
    method RouteTemporarilyUnavailable(open: seq<Id>) returns (e: Error)
      requires forall id | id in open :: id in runtime
      ensures e.kind == if exists id :: id in open && CoolingDown(runtime[id], now) then RateLimited else CircuitOpen
      ensures e.kind == RateLimited ==> e.retryAfter.Some?
      ensures e.retryAfter.Some? ==> e.retryAfter.value > 0.0
      ensures e.kind == RateLimited ==> forall id | id in open && CoolingDown(runtime[id], now) ::
                e.retryAfter.value <= runtime[id].retryAfterUntil.value - now
    {
      var cooldown, reopening: Option<real> := None, None;
      for k := 0 to |open|
        invariant cooldown.Some? <==> exists j :: 0 <= j < k && CoolingDown(runtime[open[j]], now)
        invariant cooldown.Some? ==> cooldown.value > 0.0
        invariant reopening.Some? ==> reopening.value > 0.0
        invariant forall j | 0 <= j < k && CoolingDown(runtime[open[j]], now) ::
          cooldown.Some? && cooldown.value <= runtime[open[j]].retryAfterUntil.value - now
      {
        assert open[k] in open;
        var rt := runtime[open[k]];
        if rt.retryAfterUntil != None && rt.retryAfterUntil.value > now {
          cooldown := Some(Shorter(cooldown, rt.retryAfterUntil.value - now));
        }
        if rt.openUntil != None && rt.openUntil.value > now {
          reopening := Some(Shorter(reopening, rt.openUntil.value - now));
        }
      }
      if cooldown != None { return Error(RateLimited, cooldown); }
      return Error(CircuitOpen, reopening);
    }

    method SelectProvider(r: Request, excluded: set<Id>, claim: bool, b: Budget) returns (s: Selection)
      requires forall id | id in r.candidates :: id in runtime
      requires Sound(runtime)
      modifies this`runtime
      ensures Sound(runtime) && runtime.Keys == old(runtime).Keys
      ensures var open := Eligible(policy, tasks, r, b, excluded, r.candidates);
              && (s.Picked? ==> IsFirstAvailable(old(runtime), now, open, s.provider))
              && (s.NotPicked? ==> NoneAvailable(old(runtime), now, open) && NoneAvailable(runtime, now, open))
      ensures s.NotPicked? ==> s.error.kind == Refusal(policy, tasks, old(runtime), now, r, b, excluded)
      ensures s.Picked? ==> s.provider in r.candidates && s.provider !in excluded && Affordable(policy, tasks, r, b, s.provider)
      ensures s.Picked? ==> s.provider in runtime && !old(runtime)[s.provider].inFlight
      ensures s.Picked? && claim ==>
                (runtime[s.provider].inFlight <==> old(runtime)[s.provider].circuit != Closed)
                && forall id | id in runtime && id != s.provider ::
                     runtime[id].inFlight == old(runtime)[id].inFlight && runtime[id].circuit == old(runtime)[id].circuit
      ensures s.NotPicked? || !claim ==> SameProbes(old(runtime), runtime)
    {
      if r.candidates == [] { return NotPicked(Error(NoRoute, None)); }
      var open, anyAffordable, missingPricing := BudgetCandidates(r, b, excluded);
      EligibleAre(policy, tasks, r, b, excluded, r.candidates);
      if !anyAffordable {
        return NotPicked(Error(if missingPricing then PricingRequired else BudgetExceeded, None));
      }
      var found := FirstAvailable(open);
      if found == None {
        if open != [] {
          var e := RouteTemporarilyUnavailable(open);
          return NotPicked(e);
        }
        return NotPicked(Error(Unavailable, None));
      }
      assert found.value in open;
      if claim {
        var ok := ProviderIsAvailable(found.value, true);
        // Nothing ran in between, so the probe that was free a moment ago still is.
        assert ok;
      }
      s := Picked(found.value);
    }

    method ReserveCost(r: Request, provider: Id, b: Budget) returns (reservation: Option<int>)
      requires provider in runtime && Sound(runtime)
      modifies this`runtime, this`tasks
      ensures reservation.Some? <==> Affordable(policy, old(tasks), r, b, provider)
      ensures reservation.Some? ==> reservation.value == Estimate(policy, r, provider) && runtime == old(runtime)
      ensures reservation == None ==> runtime == old(runtime)[provider := old(runtime)[provider].(inFlight := false)]
      ensures Moves(old(tasks), tasks, r.task, 0, if reservation.Some? && b.limit.Some? then reservation.value else 0)
      ensures reservation.Some? && b.limit.Some? ==> r.task in tasks
      ensures b.limit.Some? && provider in policy.pricing && ValidRates(policy.pricing[provider]) ==>
                forall l | Tracks(AccountOf(old(tasks), r.task), l) ::
                  Tracks(AccountOf(tasks, r.task), CostLedger.Apply(l, b.limit.value, CostLedger.Reserve(CallOf(policy, r, provider))))
    {
      if b.limit != None && provider !in policy.pricing {
        runtime := runtime[provider := runtime[provider].(inFlight := false)];
        return None;
      }
      var estimate := Estimate(policy, r, provider);
      if b.limit == None { return Some(estimate); }
      var account := AccountOf(tasks, r.task);
      tasks := tasks[r.task := account];
      if account.spent + account.reserved + estimate > b.limit.value {
        runtime := runtime[provider := runtime[provider].(inFlight := false)];
        return None;
      }
      tasks := tasks[r.task := account.(reserved := account.reserved + estimate)];
      reservation := Some(estimate);
    }

    method ReleaseCost(r: Request, reserved: int, b: Budget)
      modifies this`tasks
      ensures var held := AccountOf(old(tasks), r.task).reserved;
              Moves(old(tasks), tasks, r.task, 0, if b.limit.Some? && r.task in old(tasks) then CostLedger.Lowered(held, reserved) - held else 0)
      ensures b.limit.Some? ==>
                forall l, i: nat | Tracks(AccountOf(old(tasks), r.task), l) && i < |l.out| && CostLedger.Held(l.out[i]) == reserved ::
                  Tracks(AccountOf(tasks, r.task), CostLedger.Apply(l, b.limit.value, CostLedger.Release(i)))
    {
      if b.limit == None { return; }
      if r.task in tasks {
        var account := tasks[r.task];
        tasks := tasks[r.task := account.(reserved := CostLedger.Lowered(account.reserved, reserved))];
      }
    }

    method SettleCost(r: Request, provider: Id, reserved: int, usage: Usage, b: Budget) returns (cost: int)
      requires b.limit.Some? ==> r.task in tasks
      modifies this`tasks
      ensures cost == BillFor(policy, provider, usage)
      ensures var held := AccountOf(old(tasks), r.task).reserved;
              Moves(old(tasks), tasks, r.task, if b.limit.Some? then cost else 0, if b.limit.Some? then CostLedger.Lowered(held, reserved) - held else 0)
      ensures b.limit.Some? && provider in policy.pricing && ValidUsage(usage) && usage.output <= r.maxOutput ==>
                forall l, i: nat | Tracks(AccountOf(old(tasks), r.task), l) && i < |l.out|
                                   && l.out[i] == CallOf(policy, r, provider) && CostLedger.Held(l.out[i]) == reserved ::
                  Tracks(AccountOf(tasks, r.task), CostLedger.Apply(l, b.limit.value, CostLedger.Finish(i, usage)))
    {
      cost := if provider in policy.pricing then Cost(policy.pricing[provider], usage) else 0;
      if b.limit != None {
        var account := tasks[r.task];
        account := account.(reserved := CostLedger.Lowered(account.reserved, reserved));
        account := account.(spent := account.spent + cost);
        tasks := tasks[r.task := account];
      }
    }

    method RecordSuccess(provider: Id, cost: int)
      requires provider in runtime && Sound(runtime)
      modifies this`runtime
      ensures Sound(runtime) && runtime.Keys == old(runtime).Keys
      ensures runtime[provider].circuit == Closed && !runtime[provider].inFlight && runtime[provider].failures == 0
              && runtime[provider].retryAfterUntil == None && runtime[provider].openUntil == None
      ensures var before, after := old(runtime)[provider], runtime[provider];
              && after.requests == before.requests + 1 && after.totalCost == before.totalCost + cost
              && after.failed == before.failed && after.retries == before.retries
      ensures runtime[provider] == AfterSuccess(old(runtime)[provider], cost)
      ensures forall id | id in runtime && id != provider :: runtime[id] == old(runtime)[id]
    {
      var rt := runtime[provider];
      rt := rt.(requests := rt.requests + 1, totalCost := rt.totalCost + cost, failures := 0, retryAfterUntil := None);
      rt := rt.(circuit := Closed, openUntil := None, inFlight := false);
      runtime := runtime[provider := rt];
    }

    /** A failure ends the probe; a probe that failed, or one failure too many, opens the circuit. */
    method RecordFailure(provider: Id, e: Error)
      requires provider in runtime && Sound(runtime)
      modifies this`runtime
      ensures Sound(runtime) && runtime.Keys == old(runtime).Keys
      ensures var before, after := old(runtime)[provider], runtime[provider];
              && !after.inFlight && after.requests == before.requests + 1 && after.failed == before.failed + 1
              && after.totalCost == before.totalCost && after.retries == before.retries
              && after.failures == before.failures + (if CountsAgainstCircuit(e.kind) then 1 else 0)
              && (if before.circuit == HalfOpen || after.failures >= policy.threshold
                  then after.circuit == Open && after.openUntil == Some(now + policy.recovery)
                  else after.circuit == before.circuit && after.openUntil == before.openUntil)
              && (if e.retryAfter.Some? then after.retryAfterUntil == Some(now + e.retryAfter.value)
                  else if e.kind == RateLimited then after.retryAfterUntil == Some(now + policy.baseDelay)
                  else after.retryAfterUntil == before.retryAfterUntil)
      ensures runtime[provider] == AfterFailure(old(runtime)[provider], policy, e, now)
      ensures forall id | id in runtime && id != provider :: runtime[id] == old(runtime)[id]
    {
      var rt := runtime[provider];
      rt := rt.(requests := rt.requests + 1, failed := rt.failed + 1);
      if e.kind == RateLimited || e.retryAfter != None {
        rt := rt.(retryAfterUntil := Some(now + if e.retryAfter != None then e.retryAfter.value else policy.baseDelay));
      }
      if CountsAgainstCircuit(e.kind) { rt := rt.(failures := rt.failures + 1); }
      if rt.circuit == HalfOpen || rt.failures >= policy.threshold {
        rt := rt.(circuit := Open, openUntil := Some(now + policy.recovery));
      }
      runtime := runtime[provider := rt.(inFlight := false)];
    }

    /** The least single wait any provider of the route is in; zero if none is waiting. */
    method NextAvailabilityDelay(r: Request) returns (delay: real)
      requires forall id | id in r.route :: id in runtime
      ensures var soonest := Soonest(runtime, now, r.route); delay == if soonest.Some? then soonest.value else 0.0
    {
      var shortest: Option<real> := None;
      for k := 0 to |r.route|
        invariant shortest == Soonest(runtime, now, r.route[..k])
      {
        assert r.route[k] in r.route && r.route[..k + 1] == r.route[..k] + [r.route[k]];
        var rt := runtime[r.route[k]];
        if rt.retryAfterUntil != None && rt.retryAfterUntil.value > now {
          shortest := Some(Shorter(shortest, rt.retryAfterUntil.value - now));
        }
        if rt.openUntil != None && rt.openUntil.value > now {
          shortest := Some(Shorter(shortest, rt.openUntil.value - now));
        }
        if rt.circuit == HalfOpen && rt.inFlight {
          shortest := Some(Shorter(shortest, 0.05));
        }
      }
      assert r.route[..|r.route|] == r.route;
      delay := if shortest != None then shortest.value else 0.0;
    }

    /** The call itself, cut off at the deadline. */
    method Call(r: Request, provider: Id, answer: Answer, deadline: real) returns (verdict: Verdict)
      requires answer.took >= 0.0
      modifies this`now, this`log
      ensures verdict == VerdictOn(answer, deadline - old(now), r.maxOutput) && now >= old(now)
      ensures log == old(log) + if deadline > old(now) then [Called(provider)] else []
      ensures deadline <= old(now) ==> now == old(now)
    {
      var remaining := deadline - now;
      verdict := VerdictOn(answer, remaining, r.maxOutput);
      if remaining > 0.0 {
        log := log + [Called(provider)];
        now := now + if answer.took < remaining then answer.took else remaining;
      }
    }

    /** Gives the reservation and the probe back, whatever came of the call. */
    method Conclude(r: Request, provider: Id, reserved: int, verdict: Verdict, b: Budget) returns (cost: int)
      requires provider in runtime && Sound(runtime)
      requires b.limit.Some? ==> r.task in tasks && AccountOf(tasks, r.task).reserved >= reserved
      modifies this`runtime, this`tasks
      ensures Sound(runtime) && SameFlightsBut(old(runtime), runtime, provider) && !runtime[provider].inFlight
      ensures verdict.Succeeds? ==> cost == BillFor(policy, provider, verdict.usage) && runtime[provider].circuit == Closed
      ensures Moves(old(tasks), tasks, r.task, if verdict.Succeeds? && b.limit.Some? then cost else 0, if b.limit.Some? then -reserved else 0)
    {
      cost := 0;
      match verdict
      case Fails(error) =>
        ReleaseCost(r, reserved, b);
        RecordFailure(provider, error);
      case Stops =>
        ReleaseCost(r, reserved, b);
        runtime := runtime[provider := runtime[provider].(inFlight := false)];
      case Succeeds(usage) =>
        cost := SettleCost(r, provider, reserved, usage, b);
        RecordSuccess(provider, cost);
    }

    /** One call under a reservation. */
    method Attempt(r: Request, provider: Id, b: Budget, answer: Answer, deadline: real) returns (verdict: Verdict, cost: int)
      requires Ready(r, b) && provider in runtime && Affordable(policy, tasks, r, b, provider) && answer.took >= 0.0
      modifies this
      ensures Ready(r, b) && runtime.Keys == old(runtime).Keys
      ensures SameFlightsBut(old(runtime), runtime, provider) && !runtime[provider].inFlight
      ensures log == old(log) + (if deadline > old(now) then [Called(provider)] else [])
      ensures now >= old(now) && (deadline <= old(now) ==> now == old(now))
      ensures verdict == VerdictOn(answer, deadline - old(now), r.maxOutput)
      ensures verdict.Succeeds? ==> cost == BillFor(policy, provider, verdict.usage)
      ensures Moves(old(tasks), tasks, r.task, if verdict.Succeeds? && b.limit.Some? then cost else 0, 0)
    {
      hide VerdictOn, Affordable, Estimate, BillFor;
      var reservation := ReserveCost(r, provider, b);
      verdict := Call(r, provider, answer, deadline);
      cost := Conclude(r, provider, reservation.value, verdict, b);
    }

    /** Waits out the delay, if the budget and the deadline allow. */
    method Pause(r: Request, attempt: nat, error: Error, b: Budget, slept: real, deadline: real) returns (waited: bool, delay: real)
      requires forall id | id in r.route :: id in runtime
      modifies this`now, this`log
      ensures delay == DelayBefore(policy, runtime, old(now), r, attempt, error) >= 0.0
      ensures waited <==> delay <= b.maxDelay - slept && delay < deadline - old(now)
      ensures now == old(now) + if waited then delay else 0.0
      ensures log == old(log) + if waited then [Slept(delay)] else []
    {
      SoonestIsLeast(runtime, now, r.route);
      delay := RetryDelay(policy, attempt, error);
      var availability := NextAvailabilityDelay(r);
      delay := Max(delay, availability);
      waited := false;
      if delay > b.maxDelay - slept || delay >= deadline - now { return; }
      now := now + delay;
      log := log + [Slept(delay)];
      waited := true;
    }

    ghost predicate Ready(r: Request, b: Budget)
      reads this
    {
      && Sound(runtime) && AccountOf(tasks, r.task).reserved >= 0 && b.maxDelay >= 0.0
      && forall id | id in r.route || id in r.candidates :: id in runtime
    }

    /** Selects for the next attempt; when everything is only temporarily unavailable, waits once and selects again. */
    method Choose(r: Request, b: Budget, attempted: set<Id>, attempt: nat, lastError: Option<Error>, slept: real, deadline: real)
      returns (s: Selection, waited: bool, delay: real, ghost reason: Reason)
      requires Ready(r, b) && slept <= b.maxDelay
      modifies this`runtime, this`now, this`log
      ensures Ready(r, b) && runtime.Keys == old(runtime).Keys && now >= old(now)
      ensures waited ==> 0.0 <= delay <= b.maxDelay - slept
      ensures log == old(log) + if waited then [Slept(delay)] else []
      ensures s.NotPicked? ==> SameFlights(old(runtime), runtime)
      ensures s.Picked? ==> s.provider in runtime && SameFlightsBut(old(runtime), runtime, s.provider) && !old(runtime)[s.provider].inFlight
      ensures s.Picked? ==> Affordable(policy, tasks, r, b, s.provider) && (waited || s.provider !in attempted)
      ensures lastError == None ==>
                var open := Eligible(policy, tasks, r, b, attempted, r.candidates);
                && now == old(now)
                && if s.Picked? then IsFirstAvailable(old(runtime), now, open, s.provider) else NoneAvailable(old(runtime), now, open)
      ensures s.NotPicked? ==>
        match reason
        case NoProvider(excluded) =>
          excluded == (if waited then {} else attempted) && NoneAvailable(runtime, now, Eligible(policy, tasks, r, b, excluded, r.candidates))
        case WaitTooLong =>
          && !waited && lastError == Some(s.error)
          && var needed := DelayBefore(policy, runtime, now, r, attempt, s.error); needed > b.maxDelay - slept || needed >= deadline - now
        case _ => false
    {
      waited, delay, reason := false, 0.0, NoProvider(attempted);
      s := SelectProvider(r, attempted, true, b);
      if s.NotPicked? && (s.error.kind == CircuitOpen || s.error.kind == RateLimited) && lastError != None {
        waited, delay := Pause(r, attempt, lastError.value, b, slept, deadline);
        if !waited {
          reason := WaitTooLong;
          return NotPicked(lastError.value), false, delay, reason;
        }
        s := SelectProvider(r, {}, true, b);
        reason := NoProvider({});
      }
    }

    method RecordRetry(provider: Id, ghost r: Request, ghost b: Budget)
      requires provider in runtime && Ready(r, b)
      modifies this`runtime
      ensures Ready(r, b) && SameFlights(old(runtime), runtime)
      ensures runtime[provider].retries == old(runtime)[provider].retries + 1
    {
      runtime := runtime[provider := runtime[provider].(retries := runtime[provider].retries + 1)];
    }

    /** After a failed attempt: go on at once if another provider can be asked, else wait, else give up. */
    method Regroup(r: Request, b: Budget, provider: Id, attempted: set<Id>, attempt: nat, error: Error, slept: real, deadline: real)
      returns (again: bool, waited: bool, delay: real)
      requires Ready(r, b) && slept <= b.maxDelay && provider in runtime
      modifies this`runtime, this`now, this`log
      ensures Ready(r, b) && SameFlights(old(runtime), runtime) && now >= old(now)
      ensures waited ==> again && 0.0 <= delay <= b.maxDelay - slept
      ensures log == old(log) + if waited then [Slept(delay)] else []
      ensures !again ==>
                var needed := DelayBefore(policy, runtime, now, r, attempt, error); needed > b.maxDelay - slept || needed >= deadline - now
    {
      RecordRetry(provider, r, b);
      var another := SelectProvider(r, attempted, false, b);
      if another.Picked? { return true, false, 0.0; }
      waited, delay := Pause(r, attempt, error, b, slept, deadline);
      again := waited;
    }

    /** One attempt with what precedes it: a selection, perhaps after a wait, and the call. */
    method Round(r: Request, b: Budget, tried: set<Id>, attempt: nat, lastError: Option<Error>, spent: real, deadline: real,
                 answer: Answer, ghost before: seq<Event>)
      returns (turn: Turn, attempted: set<Id>, slept: real, ghost events: seq<Event>, ghost reason: Reason, ghost begun: real)
      requires Ready(r, b) && attempt >= 1 && answer.took >= 0.0
      requires Paced(before, attempt - 1, spent, b.maxDelay) && Tried(before, tried, now >= deadline)
      modifies this
      ensures Ready(r, b) && SameFlights(old(runtime), runtime) && runtime.Keys == old(runtime).Keys && now >= old(now)
      ensures Grew(old(log), log, before, events)
      ensures Tried(events, attempted, now >= deadline)
      ensures turn.Unanswered? ==> Paced(events, attempt - 1, slept, b.maxDelay) && Moves(old(tasks), tasks, r.task, 0, 0)
      ensures turn.Unanswered? ==>
        match reason
        case NoProvider(excluded) =>
          && (excluded <= Recent(events) || now >= deadline)
          && NoneAvailable(runtime, now, Eligible(policy, tasks, r, b, excluded, r.candidates))
        case WaitTooLong =>
          && lastError == Some(turn.error)
          && var delay := DelayBefore(policy, runtime, now, r, attempt - 1, turn.error);
             delay > b.maxDelay - slept || delay >= deadline - now
        case _ => false
      ensures turn.Played? ==> old(now) <= begun <= now && Judged(turn.verdict, answer, deadline - begun, r.maxOutput)
      ensures lastError == None ==>
                var open := Eligible(policy, old(tasks), r, b, tried, r.candidates);
                if turn.Played? then begun == old(now) && IsFirstAvailable(old(runtime), old(now), open, turn.provider)
                else NoneAvailable(old(runtime), old(now), open) && reason.NoProvider?
      ensures turn.Played? ==> Paced(events, attempt, slept, b.maxDelay) && turn.provider in runtime
      ensures turn.Played? ==> Moves(old(tasks), tasks, r.task, if turn.verdict.Succeeds? && b.limit.Some? then turn.cost else 0, 0)
      ensures turn.Played? && !turn.verdict.Fails? ==> events != [] && events[|events| - 1] == Called(turn.provider)
      ensures turn.Played? && turn.verdict.Stops? ==> answer.Cancelled?
      ensures turn.Played? && turn.verdict.Succeeds? ==>
        answer.Answered? && ErrorOf(answer, r.maxOutput) == None && turn.cost == BillFor(policy, turn.provider, answer.usage)
    {
      hide Affordable, VerdictOn, Eligible, NoneAvailable, DelayBefore, SleepsBetweenRepeats, Calls, TotalSleep, Recent;
      hide Moves, SameFlights, SameFlightsBut, Paced, Tried, Ready, BillFor, ErrorOf, IsFirstAvailable, Judged;
      events, attempted, slept, begun := before, tried, spent, now;
      PacedMeans(events, attempt - 1, slept, b.maxDelay);
      var selection, waited, delay;
      ghost var flights := runtime;
      NothingMoved(tasks, runtime, r.task);
      selection, waited, delay, reason := Choose(r, b, tried, attempt - 1, lastError, spent, deadline);
      if waited {
        SleepsOnce(events, attempt - 1, slept, b.maxDelay, delay);
        events, slept, attempted := events + [Slept(delay)], slept + delay, {};
      }
      StillTried(events, attempted, now >= deadline);
      if selection.NotPicked? {
        turn := Unanswered(selection.error);
        return;
      }
      var provider := selection.provider;
      CallsOnce(events, attempt - 1, slept, b.maxDelay, attempted, provider, now >= deadline);
      attempted := attempted + {provider};
      ghost var claimed := runtime;
      begun := now;
      var verdict, cost := Attempt(r, provider, b, answer, deadline);
      if deadline > begun { events := events + [Called(provider)]; }
      StillTried(events, attempted, now >= deadline);
      ProbeReturned(flights, flights, claimed, runtime, provider);
      EndedAs(verdict, answer, deadline - begun, policy, r, provider, cost);
      JudgedAs(answer, deadline - begun, r.maxOutput);
      turn := Played(provider, verdict, cost);
    }

    /** Runs a request within its attempt, delay and cost budgets. */
    method Complete(r: Request, b: Budget, answers: seq<Answer>)
      returns (outcome: Outcome, ghost reason: Reason, ghost events: seq<Event>, ghost attempts: nat, ghost tries: seq<Try>)
      requires b.maxAttempts >= 1 && |answers| >= b.maxAttempts && forall a | a in answers :: a.took >= 0.0
      requires Ready(r, b)
      modifies this
      ensures log == old(log) + events && Calls(events) <= attempts <= b.maxAttempts
      ensures TotalSleep(events) <= b.maxDelay && SleepsBetweenRepeats(events)
      ensures Ready(r, b) && SameFlights(old(runtime), runtime)
      ensures Moves(old(tasks), tasks, r.task, if outcome.Completed? && b.limit.Some? then outcome.cost else 0, 0)
      ensures |tries| == attempts && Timed(tries, old(now), now)
      ensures Told(outcome, reason, tries, answers, r.maxOutput, old(now) + r.timeout)
      ensures Began(policy, old(tasks), old(runtime), old(now), r, b, tries)
      ensures !outcome.Refused? ==> Ended(outcome, policy, r, events, attempts, answers)
      ensures outcome.Refused? ==>
        match reason
        case Exhausted => attempts == b.maxAttempts
        case NotRetryable => attempts >= 1 && !Retryable(outcome.error.kind)
        case WaitTooLong =>
          && attempts >= 1
          && var delay := DelayBefore(policy, runtime, now, r, attempts, outcome.error);
             delay > b.maxDelay - TotalSleep(events) || delay >= old(now) + r.timeout - now
        case NoProvider(excluded) =>
          && (excluded <= Recent(events) || now >= old(now) + r.timeout)
          && NoneAvailable(runtime, now, Eligible(policy, tasks, r, b, excluded, r.candidates))
        case Answered => false
    {
      hide Eligible, NoneAvailable, DelayBefore, SleepsBetweenRepeats, Calls, TotalSleep, Recent;
      hide Moves, SameFlights, Paced, Tried, Ready, Ended, BillFor, ErrorOf, Retryable;
      hide Follows, Grew, Bad, Judged, Told, Timed, IsFirstAvailable, PassedOver, Began, SoFar;
      var deadline := now + r.timeout;
      var attempted := {};
      var slept := 0.0;
      var lastError: Option<Error> := None;
      events, attempts, reason, tries := [], 0, Reason.Answered, [];
      NoTries(answers, r.maxOutput, deadline, now);
      ReadyMeans(r, b);
      assert Follows(log, old(log), events) by { FollowsNothing(log); }
      NoEvents(b.maxDelay);
      NothingMoved(tasks, runtime, r.task);
      for attempt := 1 to b.maxAttempts + 1
        invariant attempts == attempt - 1 && Follows(log, old(log), events)
        invariant Paced(events, attempts, slept, b.maxDelay) && Tried(events, attempted, now >= deadline)
        invariant Ready(r, b) && SameFlights(old(runtime), runtime) && Moves(old(tasks), tasks, r.task, 0, 0)
        invariant lastError.Some? <==> attempt > 1
        invariant attempt <= b.maxAttempts
        invariant |tries| == attempts && SoFar(tries, answers, r.maxOutput, deadline, old(now), now, lastError)
        invariant attempts > 0 ==> Began(policy, old(tasks), old(runtime), old(now), r, b, tries)
        invariant attempts == 0 ==> tasks == old(tasks) && runtime == old(runtime) && now == old(now) && attempted == {}
      {
        assert answers[attempt - 1] in answers;
        ghost var flights, ledger, earlier, earlierEvents := runtime, tasks, log, events;
        var turn;
        ghost var begun, sooner := now, now;
        turn, attempted, slept, events, reason, begun := Round(r, b, attempted, attempt, lastError, slept, deadline, answers[attempt - 1], events);
        FlightsCompose(old(runtime), flights, runtime);
        FollowsMore(earlier, old(log), earlierEvents, log, events);
        FollowsMeans(log, old(log), events);
        if turn.Unanswered? {
          if attempts == 0 { BeganNot(policy, old(tasks), old(runtime), old(now), r, b); }
          EndsTold(turn.error, reason, tries, answers, r.maxOutput, deadline, old(now), sooner, now, lastError);
          MovesCompose(old(tasks), ledger, tasks, r.task, 0);
          PacedMeans(events, attempts, slept, b.maxDelay);
          return Refused(turn.error), reason, events, attempts, tries;
        }
        if attempts == 0 { BeganWith(policy, old(tasks), old(runtime), old(now), r, b, turn.provider); }
        else { BegunStays(policy, old(tasks), old(runtime), old(now), r, b, tries, Try(turn.provider, begun)); }
        GoesOn(turn.verdict, turn.cost, tries, answers, r.maxOutput, deadline, old(now), sooner, now, lastError, Try(turn.provider, begun));
        tries := tries + [Try(turn.provider, begun)];
        attempts := attempt;
        MovesCompose(old(tasks), ledger, tasks, r.task, if turn.verdict.Succeeds? && b.limit.Some? then turn.cost else 0);
        PacedMeans(events, attempts, slept, b.maxDelay);
        match turn.verdict
        case Succeeds(_) =>
          EndsWell(Completed(turn.cost), policy, r, events, attempts, answers, turn.provider);
          return Completed(turn.cost), Reason.Answered, events, attempts, tries;
        case Stops =>
          EndsWell(Abandoned, policy, r, events, attempts, answers, turn.provider);
          return Abandoned, Reason.Answered, events, attempts, tries;
        case Fails(error) =>
          lastError := Some(error);
          if !Retryable(error.kind) || attempt >= b.maxAttempts {
            return Refused(error), if Retryable(error.kind) then Exhausted else NotRetryable, events, attempts, tries;
          }
          flights, sooner := runtime, now;
          ghost var beforehand := log;
          var again, waited, delay := Regroup(r, b, turn.provider, attempted, attempt, error, slept, deadline);
          FlightsCompose(old(runtime), flights, runtime);
          FollowsSleep(beforehand, old(log), events, log, if waited then [Slept(delay)] else []);
          SoFarLater(tries, answers, r.maxOutput, deadline, old(now), sooner, now, lastError);
          if !again {
            return Refused(error), WaitTooLong, events, attempts, tries;
          }
          if waited {
            SleepsOnce(events, attempts, slept, b.maxDelay, delay);
            events, slept, attempted := events + [Slept(delay)], slept + delay, {};
          }
          StillTried(events, attempted, now >= deadline);
      }
    }

    lemma {:induction false} ReadyMeans(r: Request, b: Budget)
      requires Ready(r, b)
      ensures b.maxDelay >= 0.0
    {
    }
  }

  function BillFor(p: Policy, provider: Id, usage: Usage): int {
    if provider in p.pricing then Cost(p.pricing[provider], usage) else 0
  }

  lemma {:induction false} EligibleAre(p: Policy, tasks: map<Id, Account>, r: Request, b: Budget, excluded: set<Id>, ids: seq<Id>)
    ensures forall id :: id in Eligible(p, tasks, r, b, excluded, ids) <==>
              id in ids && id !in excluded && Affordable(p, tasks, r, b, id)
    decreases |ids|
  {
    if ids != [] {
      var n := |ids| - 1;
      EligibleAre(p, tasks, r, b, excluded, ids[..n]);
      assert forall id :: id in ids <==> id in ids[..n] || id == ids[n];
    }
  }

  /** What a request that was not refused ended with: its last call's valid answer, priced, or its cancellation. */
  predicate Ended(outcome: Outcome, policy: Policy, r: Request, events: seq<Event>, attempts: nat, answers: seq<Answer>) {
    && 1 <= attempts <= |answers| && events != [] && events[|events| - 1].Called?
    && var answer := answers[attempts - 1];
       if outcome.Completed? then
         answer.Answered? && ErrorOf(answer, r.maxOutput) == None
         && outcome.cost == BillFor(policy, events[|events| - 1].provider, answer.usage)
       else answer.Cancelled?
  }

  lemma {:induction false} EndedAs(verdict: Verdict, answer: Answer, remaining: real, policy: Policy, r: Request, provider: Id, cost: int)
    requires verdict == VerdictOn(answer, remaining, r.maxOutput)
    requires verdict.Succeeds? ==> cost == BillFor(policy, provider, verdict.usage)
    ensures !verdict.Fails? ==> remaining > 0.0
    ensures verdict.Stops? ==> answer.Cancelled?
    ensures verdict.Succeeds? ==> answer.Answered? && ErrorOf(answer, r.maxOutput) == None && cost == BillFor(policy, provider, answer.usage)
  {
  }

  lemma {:induction false} EndsWell(outcome: Outcome, policy: Policy, r: Request, events: seq<Event>, attempts: nat, answers: seq<Answer>, provider: Id)
    requires 1 <= attempts <= |answers| && events != [] && events[|events| - 1] == Called(provider)
    requires outcome.Completed? ==>
      answers[attempts - 1].Answered? && ErrorOf(answers[attempts - 1], r.maxOutput) == None
      && outcome.cost == BillFor(policy, provider, answers[attempts - 1].usage)
    requires !outcome.Completed? ==> answers[attempts - 1].Cancelled?
    ensures Ended(outcome, policy, r, events, attempts, answers)
  {
  }

  /** What the log gained, the events gained. */
  predicate Grew(log: seq<Event>, longer: seq<Event>, events: seq<Event>, more: seq<Event>) {
    |log| <= |longer| && longer[..|log|] == log && more == events + longer[|log|..]
  }

  /** The log is what it was, and the events. */
  predicate Follows(log: seq<Event>, base: seq<Event>, events: seq<Event>) {
    log == base + events
  }

  lemma {:induction false} FollowsNothing(log: seq<Event>)
    ensures Follows(log, log, [])
  {
  }

  lemma {:induction false} FollowsMeans(log: seq<Event>, base: seq<Event>, events: seq<Event>)
    requires Follows(log, base, events)
    ensures log == base + events
  {
  }

  lemma {:induction false} FollowsMore(log: seq<Event>, base: seq<Event>, events: seq<Event>, longer: seq<Event>, more: seq<Event>)
    requires Follows(log, base, events) && Grew(log, longer, events, more)
    ensures Follows(longer, base, more)
  {
    assert longer == longer[..|log|] + longer[|log|..];
  }

  lemma {:induction false} FollowsSleep(log: seq<Event>, base: seq<Event>, events: seq<Event>, longer: seq<Event>, more: seq<Event>)
    requires Follows(log, base, events) && longer == log + more
    ensures Follows(longer, base, events + more)
    ensures more == [] ==> Follows(longer, base, events)
    ensures more == [] ==> longer == base + events
  {
  }

  lemma {:induction false} JudgedAs(a: Answer, remaining: real, maxOutput: nat)
    ensures Judged(VerdictOn(a, remaining, maxOutput), a, remaining, maxOutput)
  {
    VerdictIsRight(a, remaining, maxOutput);
    hide VerdictOn, Good, CutShort, Bad, PassedOver;
  }

  lemma {:induction false} NoTries(answers: seq<Answer>, maxOutput: nat, deadline: real, now: real)
    ensures SoFar([], answers, maxOutput, deadline, now, now, None)
  {
  }

  lemma {:induction false} SoFarLater(tries: seq<Try>, answers: seq<Answer>, maxOutput: nat, deadline: real, start: real, now: real, later: real,
                                      lastError: Option<Error>)
    requires now <= later
    ensures SoFar(tries, answers, maxOutput, deadline, start, now, lastError) ==> SoFar(tries, answers, maxOutput, deadline, start, later, lastError)
    ensures Timed(tries, start, now) ==> Timed(tries, start, later)
  {
    hide Bad, PassedOver;
  }

  /** No provider for another attempt, or no time to wait for one: all the attempts so far were worth one. */
  lemma {:induction false} EndsTold(e: Error, reason: Reason, tries: seq<Try>, answers: seq<Answer>, maxOutput: nat, deadline: real, start: real,
                                    now: real, later: real, lastError: Option<Error>)
    requires SoFar(tries, answers, maxOutput, deadline, start, now, lastError) && now <= later
    requires reason.NoProvider? || (tries != [] && lastError == Some(e))
    ensures Told(Refused(e), reason, tries, answers, maxOutput, deadline) && Timed(tries, start, later)
  {
    hide Bad, PassedOver;
  }

  /** One more attempt decides the request, or is worth yet another. */
  lemma {:induction false} GoesOn(v: Verdict, cost: int, tries: seq<Try>, answers: seq<Answer>, maxOutput: nat, deadline: real, start: real,
                                  now: real, later: real, lastError: Option<Error>, t: Try)
    requires SoFar(tries, answers, maxOutput, deadline, start, now, lastError) && now <= t.begun <= later && |tries| < |answers|
    requires Judged(v, answers[|tries|], deadline - t.begun, maxOutput)
    ensures Timed(tries + [t], start, later)
    ensures v.Succeeds? ==> Told(Completed(cost), Reason.Answered, tries + [t], answers, maxOutput, deadline)
    ensures v.Stops? ==> Told(Abandoned, Reason.Answered, tries + [t], answers, maxOutput, deadline)
    ensures v.Fails? ==> forall reason: Reason | !reason.NoProvider? :: Told(Refused(v.error), reason, tries + [t], answers, maxOutput, deadline)
    ensures v.Fails? && Retryable(v.error.kind) ==> SoFar(tries + [t], answers, maxOutput, deadline, start, later, Some(v.error))
  {
    hide Bad, PassedOver, Good, CutShort, Retryable;
  }

  lemma {:induction false} BeganNot(p: Policy, tasks: map<Id, Account>, runtime: map<Id, Runtime>, start: real, r: Request, b: Budget)
    requires NoneAvailable(runtime, start, Eligible(p, tasks, r, b, {}, r.candidates))
    ensures Began(p, tasks, runtime, start, r, b, [])
  {
    FirstServes(p, tasks, runtime, start, r, b);
    hide Serves, Eligible, NoneAvailable;
  }

  lemma {:induction false} BeganWith(p: Policy, tasks: map<Id, Account>, runtime: map<Id, Runtime>, start: real, r: Request, b: Budget, provider: Id)
    requires IsFirstAvailable(runtime, start, Eligible(p, tasks, r, b, {}, r.candidates), provider)
    ensures Began(p, tasks, runtime, start, r, b, [] + [Try(provider, start)])
  {
    FirstServes(p, tasks, runtime, start, r, b);
    hide IsFirstServing, IsFirstAvailable, Eligible;
  }

  lemma {:induction false} BegunStays(p: Policy, tasks: map<Id, Account>, runtime: map<Id, Runtime>, start: real, r: Request, b: Budget, tries: seq<Try>, t: Try)
    requires tries != [] && Began(p, tasks, runtime, start, r, b, tries)
    ensures Began(p, tasks, runtime, start, r, b, tries + [t])
  {
    hide IsFirstServing, Serves;
  }

  lemma {:induction false} ServesIfAvailable(p: Policy, tasks: map<Id, Account>, runtime: map<Id, Runtime>, now: real, r: Request, b: Budget, id: Id)
    ensures Serves(p, tasks, runtime, now, r, b, id) <==> Affordable(p, tasks, r, b, id) && id in runtime && Available(runtime[id], now)
  {
    AffordableHasRoom(p, tasks, r, b, id);
    if id in runtime { AvailableTakesCalls(runtime[id], now); }
    hide Affordable, HasRoom, Available, TakesCalls;
  }

  /** Among the candidates that fit the budget the first available one is, among all of them, the first that serves. */
  lemma {:induction false} FirstServes(p: Policy, tasks: map<Id, Account>, runtime: map<Id, Runtime>, now: real, r: Request, b: Budget)
    ensures var open := Eligible(p, tasks, r, b, {}, r.candidates);
            && (NoneAvailable(runtime, now, open) ==> forall id | id in r.candidates :: !Serves(p, tasks, runtime, now, r, b, id))
            && (forall id | IsFirstAvailable(runtime, now, open, id) :: IsFirstServing(p, tasks, runtime, now, r, b, r.candidates, id))
  {
    hide Affordable, Serves, Available, IsFirstAvailable, IsFirstServing, Eligible;
    var open := Eligible(p, tasks, r, b, {}, r.candidates);
    EligibleAre(p, tasks, r, b, {}, r.candidates);
    forall id | id in r.candidates && NoneAvailable(runtime, now, open) ensures !Serves(p, tasks, runtime, now, r, b, id) {
      ServesIfAvailable(p, tasks, runtime, now, r, b, id);
    }
    forall id | IsFirstAvailable(runtime, now, open, id) ensures IsFirstServing(p, tasks, runtime, now, r, b, r.candidates, id) {
      FirstOfAll(p, tasks, runtime, now, r, b, r.candidates, id);
    }
  }

  lemma {:induction false} FirstOfAll(p: Policy, tasks: map<Id, Account>, runtime: map<Id, Runtime>, now: real, r: Request, b: Budget, ids: seq<Id>, provider: Id)
    requires IsFirstAvailable(runtime, now, Eligible(p, tasks, r, b, {}, ids), provider)
    ensures IsFirstServing(p, tasks, runtime, now, r, b, ids, provider)
    decreases |ids|
  {
    hide Affordable, Serves, Available;
    var n := |ids| - 1;
    var open := Eligible(p, tasks, r, b, {}, ids);
    var k :| 0 <= k < |open| && open[k] == provider && provider in runtime && Available(runtime[provider], now)
      && forall j | 0 <= j < k :: open[j] in runtime ==> !Available(runtime[open[j]], now);
    var earlier := Eligible(p, tasks, r, b, {}, ids[..n]);
    if k < |earlier| {
      assert earlier[k] == open[k] && forall j | 0 <= j < k :: earlier[j] == open[j];
      FirstOfAll(p, tasks, runtime, now, r, b, ids[..n], provider);
      var i :| 0 <= i < n && ids[..n][i] == provider && Serves(p, tasks, runtime, now, r, b, ids[..n][i])
        && forall j | 0 <= j < i :: !Serves(p, tasks, runtime, now, r, b, ids[..n][j]);
      assert ids[i] == ids[..n][i] && forall j | 0 <= j < i :: ids[j] == ids[..n][j];
    } else {
      assert k == |earlier| && provider == ids[n];
      EligibleAre(p, tasks, r, b, {}, ids[..n]);
      ServesIfAvailable(p, tasks, runtime, now, r, b, provider);
      forall j | 0 <= j < n ensures !Serves(p, tasks, runtime, now, r, b, ids[j]) {
        ServesIfAvailable(p, tasks, runtime, now, r, b, ids[j]);
        assert ids[j] in ids[..n];
        if ids[j] in earlier {
          var m :| 0 <= m < |earlier| && earlier[m] == ids[j];
          assert open[m] == ids[j];
        }
      }
    }
  }

  /** The trace so far is within the budgets. */
  ghost predicate Paced(events: seq<Event>, attempts: nat, slept: real, maxDelay: real) {
    Calls(events) <= attempts && TotalSleep(events) == slept <= maxDelay && SleepsBetweenRepeats(events)
  }

  /** The set of providers not to ask again: those called since the last sleep, and after the deadline those skipped. */
  ghost predicate Tried(events: seq<Event>, attempted: set<Id>, late: bool) {
    Recent(events) <= attempted && (attempted <= Recent(events) || late)
  }

  lemma {:induction false} PacedMeans(events: seq<Event>, attempts: nat, slept: real, maxDelay: real)
    requires Paced(events, attempts, slept, maxDelay)
    ensures Calls(events) <= attempts && TotalSleep(events) == slept <= maxDelay && SleepsBetweenRepeats(events)
  {
  }

  lemma {:induction false} StillTried(events: seq<Event>, attempted: set<Id>, late: bool)
    requires exists sooner :: Tried(events, attempted, sooner) && (sooner ==> late)
    ensures Tried(events, attempted, late) && (attempted <= Recent(events) || late)
  {
  }

  lemma {:induction false} NoEvents(maxDelay: real)
    requires maxDelay >= 0.0
    ensures Paced([], 0, 0.0, maxDelay) && Tried([], {}, false) && Tried([], {}, true)
  {
  }

  lemma {:induction false} SleepsOnce(events: seq<Event>, attempts: nat, slept: real, maxDelay: real, delay: real)
    requires Paced(events, attempts, slept, maxDelay) && delay <= maxDelay - slept
    ensures Paced(events + [Slept(delay)], attempts, slept + delay, maxDelay)
    ensures Tried(events + [Slept(delay)], {}, false) && Tried(events + [Slept(delay)], {}, true)
  {
    LogGrows(events, Slept(delay));
    SleepKeepsSpacing(events, delay);
  }

  lemma {:induction false} CallsOnce(events: seq<Event>, attempts: nat, slept: real, maxDelay: real, attempted: set<Id>, provider: Id, late: bool)
    requires Paced(events, attempts, slept, maxDelay) && Tried(events, attempted, late) && provider !in attempted
    ensures Paced(events, attempts + 1, slept, maxDelay) && Tried(events, attempted + {provider}, true)
    ensures Paced(events + [Called(provider)], attempts + 1, slept, maxDelay) && Tried(events + [Called(provider)], attempted + {provider}, late)
  {
    LogGrows(events, Called(provider));
    CallKeepsSpacing(events, provider);
  }

  lemma {:induction false} NothingMoved(tasks: map<Id, Account>, runtime: map<Id, Runtime>, task: Id)
    ensures Moves(tasks, tasks, task, 0, 0) && SameFlights(runtime, runtime)
  {
  }

  lemma {:induction false} MovesCompose(a: map<Id, Account>, b: map<Id, Account>, c: map<Id, Account>, task: Id, spent: int)
    requires Moves(a, b, task, 0, 0) && Moves(b, c, task, spent, 0)
    ensures Moves(a, c, task, spent, 0)
    ensures AccountOf(c, task).reserved == AccountOf(a, task).reserved
  {
    forall t ensures AccountOf(c, t) == if t == task then Account(AccountOf(a, t).spent + spent, AccountOf(a, t).reserved) else AccountOf(a, t) {
      assert AccountOf(b, t) == AccountOf(a, t);
    }
  }

  lemma {:induction false} FlightsCompose(a: map<Id, Runtime>, b: map<Id, Runtime>, c: map<Id, Runtime>)
    requires SameFlights(a, b) && SameFlights(b, c)
    ensures SameFlights(a, c)
  {
  }

  /** A probe taken for a call and given back after it: every probe is as it was. */
  lemma {:induction false} ProbeReturned(a: map<Id, Runtime>, b: map<Id, Runtime>, c: map<Id, Runtime>, d: map<Id, Runtime>, provider: Id)
    requires SameFlights(a, b) && SameFlightsBut(b, c, provider) && SameFlightsBut(c, d, provider)
    requires provider in b && !b[provider].inFlight && !d[provider].inFlight
    ensures SameFlights(a, d)
  {
  }
}
