/**
 One provider's circuit under any interleaving of calls: when it opens, how long it keeps calls
 out, and whether its half-open probe is alone.

 A call that was let in by a circuit that was not closed is a probe. The program does not
 remember which of its calls are probes: the end of any call gives the probe's place back.
 */
module GatewayCircuit {
  import opened Ordering
  import opened Gateway

  /** A provider's record and clock, and how many probes and other calls are under way. */
  datatype Line = Line(rt: Runtime, now: real, probes: nat, others: nat)

  datatype Happening =
    | Waits(seconds: real)
    | Calls
    | Wins(probe: bool, cost: int)
    | Loses(probe: bool, error: Error)
    | Leaves(probe: bool)

  function Fresh(now: real): Line {
    Line(Runtime(Closed, None, false, None, 0, 0, 0, 0, 0), now, 0, 0)
  }

  predicate IsEnd(h: Happening) {
    h.Wins? || h.Loses? || h.Leaves?
  }

  predicate Enabled(s: Line, h: Happening) {
    match h
    case Waits(seconds) => seconds >= 0.0
    case Calls => Available(s.rt, s.now)
    case _ => if h.probe then s.probes > 0 else s.others > 0
  }

  function Ended(s: Line, probe: bool, rt: Runtime): Line
    requires if probe then s.probes > 0 else s.others > 0
  {
    if probe then Line(rt, s.now, s.probes - 1, s.others) else Line(rt, s.now, s.probes, s.others - 1)
  }

  function Next(s: Line, p: Policy, h: Happening): Line
    requires Enabled(s, h)
  {
    match h
    case Waits(seconds) => s.(now := s.now + seconds)
    case Calls =>
      var rt := AfterAsking(s.rt, s.now, true);
      if s.rt.circuit == Closed then s.(rt := rt, others := s.others + 1) else s.(rt := rt, probes := s.probes + 1)
    case Wins(probe, cost) => Ended(s, probe, AfterSuccess(s.rt, cost))
    case Loses(probe, error) => Ended(s, probe, AfterFailure(s.rt, p, error, s.now))
    case Leaves(probe) => Ended(s, probe, s.rt.(inFlight := false))
  }

  ghost predicate Run(states: seq<Line>, happenings: seq<Happening>, p: Policy) {
    && |states| == |happenings| + 1
    && (forall k | 0 <= k < |happenings| :: Enabled(states[k], happenings[k]) && states[k + 1] == Next(states[k], p, happenings[k]))
  }

  // ---------- when the circuit opens ----------

  /** One, if it is a failure that speaks against the provider. */
  function CountOf(h: Happening): nat {
    if h.Loses? && (h.error.kind == Unavailable || h.error.kind == TimedOut || h.error.kind == ResponseInvalid || h.error.kind == StreamInvalid)
    then 1 else 0
  }

  /** The failures since the last response that speak against the provider. */
  function Against(happenings: seq<Happening>, n: nat): nat
    requires n <= |happenings|
  {
    if n == 0 || happenings[n - 1].Wins? then 0
    else Against(happenings, n - 1) + CountOf(happenings[n - 1])
  }

  /**
   The circuit opens, for the recovery time from then on, exactly on a failure of a half-open circuit or one that
   makes the failures since the last response reach the threshold; only a response closes it.
   */
  lemma {:induction false} OpensAtThreshold(states: seq<Line>, happenings: seq<Happening>, p: Policy, start: real, k: nat)
    requires Run(states, happenings, p) && states[0] == Fresh(start) && k < |happenings|
    ensures states[k].rt.failures == Against(happenings, k)
    ensures var s, t, h := states[k], states[k + 1], happenings[k];
            && (h.Loses? && (s.rt.circuit == HalfOpen || Against(happenings, k + 1) >= p.threshold) ==>
                  t.rt.circuit == Open && t.rt.openUntil == Some(s.now + p.recovery))
            && (h.Loses? && !(s.rt.circuit == HalfOpen || Against(happenings, k + 1) >= p.threshold) ==>
                  t.rt.circuit == s.rt.circuit && t.rt.openUntil == s.rt.openUntil)
            && (h.Wins? ==> t.rt.circuit == Closed)
            && (h.Calls? ==> t.rt.circuit == if s.rt.circuit == Closed then Closed else HalfOpen)
            && (h.Waits? || h.Leaves? ==> t.rt.circuit == s.rt.circuit)
    decreases k
  {
    CountsAgainst(states, happenings, p, start, k);
    CircuitStep(states[k], p, happenings[k]);
    assert states[k + 1] == Next(states[k], p, happenings[k]);
    hide Next;
  }

  lemma {:induction false} CountsAgainst(states: seq<Line>, happenings: seq<Happening>, p: Policy, start: real, n: nat)
    requires Run(states, happenings, p) && states[0] == Fresh(start) && n < |states|
    ensures states[n].rt.failures == Against(happenings, n)
    decreases n
  {
    if n > 0 {
      CountsAgainst(states, happenings, p, start, n - 1);
      CircuitStep(states[n - 1], p, happenings[n - 1]);
      assert states[n - 1 + 1] == Next(states[n - 1], p, happenings[n - 1]);
      hide Next;
    }
  }

  /** What one happening does to the count of failures and to the circuit. */
  lemma {:induction false} CircuitStep(s: Line, p: Policy, h: Happening)
    requires Enabled(s, h)
    ensures var t := Next(s, p, h);
            && t.rt.failures == (if h.Wins? then 0 else s.rt.failures + CountOf(h))
            && (h.Loses? && (s.rt.circuit == HalfOpen || t.rt.failures >= p.threshold) ==>
                  t.rt.circuit == Open && t.rt.openUntil == Some(s.now + p.recovery))
            && (h.Loses? && !(s.rt.circuit == HalfOpen || t.rt.failures >= p.threshold) ==>
                  t.rt.circuit == s.rt.circuit && t.rt.openUntil == s.rt.openUntil)
            && (h.Wins? ==> t.rt.circuit == Closed)
            && (h.Calls? ==> t.rt.circuit == if s.rt.circuit == Closed then Closed else HalfOpen)
            && (h.Waits? || h.Leaves? ==> t.rt.circuit == s.rt.circuit)
  {
  }

  /**
   An open circuit keeps every call out until its recovery is over, whatever the calls still under way come to,
   short of a response.
   */
  lemma {:induction false} StaysShut(states: seq<Line>, happenings: seq<Happening>, p: Policy, i: nat, j: nat)
    requires Run(states, happenings, p) && p.recovery >= 0.0 && i <= j < |states|
    requires states[i].rt.circuit == Open && states[i].rt.openUntil.Some? && states[i].rt.openUntil.value <= states[i].now + p.recovery
    requires forall k | i <= k < j :: !happenings[k].Wins?
    requires states[j].now < states[i].rt.openUntil.value
    ensures !TakesCalls(states[j].rt, states[j].now)
    ensures forall k | i <= k < j :: !happenings[k].Calls?
  {
    StillOpen(states, happenings, p, i, j);
    AvailableTakesCalls(states[j].rt, states[j].now);
  }

  lemma {:induction false} StillOpen(states: seq<Line>, happenings: seq<Happening>, p: Policy, i: nat, j: nat)
    requires Run(states, happenings, p) && p.recovery >= 0.0 && i <= j < |states|
    requires states[i].rt.circuit == Open && states[i].rt.openUntil.Some? && states[i].rt.openUntil.value <= states[i].now + p.recovery
    requires forall k | i <= k < j :: !happenings[k].Wins?
    requires states[j].now < states[i].rt.openUntil.value
    ensures states[i].now <= states[j].now
    ensures states[j].rt.circuit == Open && states[j].rt.openUntil.Some? && states[j].rt.openUntil.value >= states[i].rt.openUntil.value
    ensures forall k | i <= k < j :: !happenings[k].Calls?
    decreases j
  {
    if i < j {
      var s, h := states[j - 1], happenings[j - 1];
      assert Enabled(s, h) && states[j - 1 + 1] == Next(s, p, h);
      assert s.now <= states[j].now;
      StillOpen(states, happenings, p, i, j - 1);
    }
  }

  // ---------- is the probe alone? ----------

  /** At most one probe is out, and the record knows it. */
  predicate Guarded(s: Line) {
    s.probes <= 1 && (s.probes == 1 <==> s.rt.inFlight) && (s.rt.inFlight ==> s.rt.circuit == HalfOpen)
  }

  /** A call that is not the probe ends while the probe is out. */
  predicate FreesProbe(s: Line, h: Happening) {
    IsEnd(h) && !h.probe && s.probes == 1
  }

  /** The guard survives every step but exactly one kind: the end of another call while the probe is out. */
  lemma {:induction false} GuardedIff(s: Line, p: Policy, h: Happening)
    requires Guarded(s) && Enabled(s, h)
    ensures Guarded(Next(s, p, h)) <==> !FreesProbe(s, h)
  {
  }

  /** So the probe is alone over every run in which no other call ends while it is out. */
  lemma {:induction false} ProbeIsAlone(states: seq<Line>, happenings: seq<Happening>, p: Policy, start: real, n: nat)
    requires Run(states, happenings, p) && states[0] == Fresh(start) && n < |states|
    requires forall k | 0 <= k < n :: !FreesProbe(states[k], happenings[k])
    ensures Guarded(states[n]) && states[n].probes <= 1
    decreases n
  {
    if n > 0 {
      ProbeIsAlone(states, happenings, p, start, n - 1);
      GuardedIff(states[n - 1], p, happenings[n - 1]);
      assert states[n - 1 + 1] == Next(states[n - 1], p, happenings[n - 1]);
    }
  }

  /** What a sequence of happenings leads to, if each is possible in its turn. */
  ghost predicate Leads(s: Line, p: Policy, happenings: seq<Happening>, t: Line)
    decreases |happenings|
  {
    if happenings == [] then s == t
    else Enabled(s, happenings[0]) && Leads(Next(s, p, happenings[0]), p, happenings[1..], t)
  }

  lemma {:induction false} LeadsOn(s: Line, p: Policy, before: seq<Happening>, m: Line, after: seq<Happening>, t: Line)
    requires Leads(s, p, before, m) && Leads(m, p, after, t)
    ensures Leads(s, p, before + after, t)
    decreases |before|
  {
    if before == [] {
      assert before + after == after;
    } else {
      LeadsOn(Next(s, p, before[0]), p, before[1..], m, after, t);
      assert (before + after)[1..] == before[1..] + after;
    }
  }

  lemma {:induction false} LeadsTwice(s: Line, p: Policy, g: Happening, h: Happening)
    requires Enabled(s, g) && Enabled(Next(s, p, g), h)
    ensures Leads(s, p, [g, h], Next(Next(s, p, g), p, h))
  {
    var m := Next(s, p, g);
    assert [g, h][1..] == [h] && [h][1..] == [];
    assert Leads(Next(m, p, h), p, [], Next(m, p, h));
    assert Leads(m, p, [h], Next(m, p, h));
  }

  const BROKEN := Error(Unavailable, None)

  /** A closed circuit opens after enough failures, however many calls are under way. */
  lemma {:induction false} CanOpen(s: Line, p: Policy) returns (happenings: seq<Happening>, t: Line)
    requires s.rt.circuit == Closed && !s.rt.inFlight && s.rt.retryAfterUntil == None
    ensures Leads(s, p, happenings, t) && t.rt.circuit == Open && !t.rt.inFlight && t.rt.retryAfterUntil == None
    ensures t.probes == s.probes && t.others == s.others && forall h | h in happenings :: IsEnd(h) ==> !h.probe
    decreases if s.rt.failures < p.threshold then p.threshold - s.rt.failures else 0
  {
    var u := Next(Next(s, p, Calls), p, Loses(false, BROKEN));
    LeadsTwice(s, p, Calls, Loses(false, BROKEN));
    if u.rt.circuit == Open {
      happenings, t := [Calls, Loses(false, BROKEN)], u;
    } else {
      var rest;
      rest, t := CanOpen(u, p);
      happenings := [Calls, Loses(false, BROKEN)] + rest;
      LeadsOn(s, p, [Calls, Loses(false, BROKEN)], u, rest, t);
    }
  }

  function Later(until: Option<real>, now: real): real {
    if until.Some? && until.value > now then until.value - now else 0.0
  }

  /** A circuit that is not closed and has its probe's place free lets a probe in once its waits are over. */
  lemma {:induction false} CanProbe(s: Line, p: Policy) returns (happenings: seq<Happening>, t: Line)
    requires s.rt.circuit != Closed && !s.rt.inFlight
    ensures Leads(s, p, happenings, t) && t.probes == s.probes + 1 && t.others == s.others
    ensures t.rt.inFlight && t.rt.circuit == HalfOpen && forall h | h in happenings :: !IsEnd(h)
  {
    var wait := Max(Later(s.rt.openUntil, s.now), Later(s.rt.retryAfterUntil, s.now));
    LeadsTwice(s, p, Waits(wait), Calls);
    happenings, t := [Waits(wait), Calls], Next(Next(s, p, Waits(wait)), p, Calls);
  }

  /** A freed place is taken: after such an end, the run can go on to a second probe while the first is still out. */
  lemma {:induction false} FreedProbeIsDoubled(s: Line, p: Policy, h: Happening) returns (happenings: seq<Happening>, t: Line)
    requires Guarded(s) && Enabled(s, h) && FreesProbe(s, h)
    ensures Leads(Next(s, p, h), p, happenings, t) && t.probes == 2
    ensures forall g | g in happenings :: IsEnd(g) ==> !g.probe
  {
    var u := Next(s, p, h);
    if u.rt.circuit == Closed {
      var opening, m := CanOpen(u, p);
      happenings, t := CanProbe(m, p);
      LeadsOn(u, p, opening, m, happenings, t);
      happenings := opening + happenings;
    } else {
      happenings, t := CanProbe(u, p);
    }
  }

  /** Under every policy a run from the start gets there: a call older than the probe is cancelled while the probe is out. */
  lemma {:induction false} TwoProbesAtOnce(p: Policy, start: real) returns (happenings: seq<Happening>, t: Line)
    ensures Leads(Fresh(start), p, happenings, t) && t.probes == 2
  {
    var s := Fresh(start);
    var one := Next(s, p, Calls);
    assert [Calls][1..] == [] && Leads(one, p, [], one);
    assert Leads(s, p, [Calls], one);
    var opening, open := CanOpen(one, p);
    var probing, probed := CanProbe(open, p);
    LeadsOn(s, p, [Calls], one, opening, open);
    LeadsOn(s, p, [Calls] + opening, open, probing, probed);
    var freed := Next(probed, p, Leaves(false));
    assert [Leaves(false)][1..] == [] && Leads(freed, p, [], freed);
    LeadsOn(s, p, [Calls] + opening + probing, probed, [Leaves(false)], freed);
    var doubling;
    doubling, t := FreedProbeIsDoubled(probed, p, Leaves(false));
    happenings := [Calls] + opening + probing + [Leaves(false)] + doubling;
    LeadsOn(s, p, [Calls] + opening + probing + [Leaves(false)], freed, doubling, t);
  }
}
