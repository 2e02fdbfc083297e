/**
 Safety of the cluster admission store over whole runs: any interleaving of clock ticks,
 registration, renewal, scheduling, cancellation, withdrawal, release and reconfiguration.
 */
module ClusterSafety {
  import opened Ordering
  import opened ClusterAdmission
  import opened ClusterGrants

  datatype Action =
    | Advance(seconds: nat)
    | Register(batch: Id, graph: Id, owner: Id, ttl: nat, requests: map<Id, Request>)
    | RenewBatch(batch: Id, owner: Id, ttl: nat)
    | Configure(cfg: Config)
    | RunSchedule(cfg: Config)
    | CancelGraph(graph: Id)
    | Withdraw(batch: Id, owner: Id)
    | Renew(id: Id, owner: Id, fence: nat, ttl: nat)
    | Release(id: Id, owner: Id, fence: nat)

  /** Registration draws fresh identifiers; every other action may be tried at any time. */
  ghost predicate Enabled(s: Store, a: Action) {
    a.Register? ==>
      && (forall id | id in s.tickets :: s.tickets[id].batch != a.batch)
      && a.requests.Keys !! s.tickets.Keys
  }

  ghost function Apply(s: Store, a: Action): Store {
    match a
    case Advance(seconds) => s.(now := s.now + seconds)
    case Register(batch, graph, owner, ttl, requests) => RegisterBatch(s, batch, graph, owner, ttl, requests)
    case RenewBatch(batch, owner, ttl) => RenewPending(s, batch, owner, ttl)
    case Configure(cfg) => (match EnsureConfiguration(s, cfg) case Some(t) => t case None => s)
    case RunSchedule(cfg) => (match Schedule(s, cfg) case Some(t) => t case None => s)
    case CancelGraph(graph) => CancelPendingGraph(s, graph)
    case Withdraw(batch, owner) => WithdrawBatch(s, batch, owner)
    case Renew(id, owner, fence, ttl) => RenewPermit(s, id, owner, fence, ttl)
    case Release(id, owner, fence) => ReleasePermit(s, id, owner, fence)
  }

  ghost predicate Step(s: Store, t: Store) {
    exists a :: Enabled(s, a) && t == Apply(s, a)
  }

  ghost predicate Run(states: seq<Store>) {
    && |states| > 0
    && (exists now :: states[0] == Initial(now))
    && (forall i | 0 <= i < |states| - 1 :: Step(states[i], states[i + 1]))
  }

  // ---------- batches ----------

  ghost predicate SameOrigin(tickets: Tickets) {
    forall a, b | a in tickets && b in tickets && tickets[a].batch == tickets[b].batch ::
      tickets[a].graph == tickets[b].graph && tickets[a].owner == tickets[b].owner
  }

  /** Every ticket of the batch waits, and all under one expiry. */
  ghost predicate Waiting(tickets: Tickets, batch: Id) {
    forall a, b | a in tickets && b in tickets && tickets[a].batch == batch == tickets[b].batch ::
      && tickets[a].status == Pending && tickets[a].grantSequence == None
      && tickets[a].expiresAt == tickets[b].expiresAt
  }

  /** Every ticket of the batch ended alike, without ever being granted. */
  ghost predicate NeverGranted(tickets: Tickets, batch: Id, status: Status) {
    forall id | id in tickets && tickets[id].batch == batch ::
      tickets[id].status == status && tickets[id].grantSequence == None
  }

  predicate Served(t: Ticket) {
    t.status in {Granted, Released, Expired} && t.grantSequence.Some?
  }

  /** Some ticket of the batch was granted, and the rest was withdrawn. */
  ghost predicate Resolved(tickets: Tickets, batch: Id) {
    && (exists id :: id in tickets && tickets[id].batch == batch && Served(tickets[id]))
    && (forall id | id in tickets && tickets[id].batch == batch ::
          Served(tickets[id]) || (tickets[id].status == Withdrawn && tickets[id].grantSequence == None))
  }

  ghost predicate BatchOk(tickets: Tickets, batch: Id) {
    || Waiting(tickets, batch)
    || NeverGranted(tickets, batch, Cancelled)
    || NeverGranted(tickets, batch, Withdrawn)
    || NeverGranted(tickets, batch, Expired)
    || Resolved(tickets, batch)
  }

  ghost predicate BatchesOk(tickets: Tickets) {
    && SameOrigin(tickets)
    && forall batch :: BatchOk(tickets, batch)
  }

  ghost predicate Inv(s: Store) {
    && CapacitySafe(s)
    && (s.config == None ==> GrantedIds(s.tickets) == {})
    && SequencesOk(s.tickets, s.nextSequence, s.history)
    && Fair(s.history)
    && BatchesOk(s.tickets)
  }

  // ---------- capacity is kept whenever the holders only shrink ----------

  lemma {:induction false} SubsetWithin(cfg: Config, before: Tickets, after: Tickets, more: set<Id>, fewer: set<Id>)
    requires Within(cfg, before, more) && fewer <= more
    requires forall id | id in fewer :: id in before && id in after && after[id].graph == before[id].graph && after[id].tool == before[id].tool
    ensures Within(cfg, after, fewer)
  {
    CardinalityOfSubset(fewer, more);
    forall graph ensures |OfGraph(after, fewer, graph)| <= cfg.perGraphLimit {
      CardinalityOfSubset(OfGraph(after, fewer, graph), OfGraph(before, more, graph));
    }
    forall tool ensures |OfTool(after, fewer, tool)| <= cfg.ToolLimit(tool) {
      CardinalityOfSubset(OfTool(after, fewer, tool), OfTool(before, more, tool));
    }
  }

  lemma {:induction false} CardinalityOfSubset(a: set<Id>, b: set<Id>)
    requires a <= b
    ensures |a| <= |b|
  {
    assert b == a + (b - a);
  }

  /** Rows keep their identity; a row that holds a slot now held one before. */
  ghost predicate Shrinks(s: Store, t: Store) {
    && t.config == s.config
    && Holding(t) <= Holding(s)
    && s.tickets.Keys <= t.tickets.Keys
    && (forall id | id in s.tickets ::
          t.tickets[id].graph == s.tickets[id].graph && t.tickets[id].tool == s.tickets[id].tool)
  }

  lemma {:induction false} ShrinkKeepsCapacity(s: Store, t: Store)
    requires CapacitySafe(s) && Shrinks(s, t)
    ensures CapacitySafe(t)
  {
    match s.config
    case Some(cfg) => SubsetWithin(cfg, s.tickets, t.tickets, Holding(s), Holding(t));
    case None =>
  }

  /** Rows that keep their sequence and are not newly pending or granted keep the numbering. */
  ghost predicate KeepsGrants(before: Tickets, after: Tickets) {
    && before.Keys <= after.Keys
    && (forall id | id in before ::
          && after[id].graph == before[id].graph
          && after[id].fence == before[id].fence
          && after[id].grantSequence == before[id].grantSequence
          && (after[id].status in {Pending, Granted} ==> after[id].status == before[id].status))
    && (forall id | id in after && id !in before ::
          after[id].status == Pending && after[id].grantSequence == None && after[id].fence == 0)
  }

  lemma {:induction false} KeepsSequences(before: Tickets, after: Tickets, nextSequence: nat, history: seq<Grant>)
    requires SequencesOk(before, nextSequence, history) && KeepsGrants(before, after)
    ensures SequencesOk(after, nextSequence, history)
  {
    forall n: nat | 1 <= n <= |history| ensures Carries(after, n) {
      assert Carries(before, n);
      var id :| id in before && before[id].grantSequence == Some(n);
      assert id in after && after[id].grantSequence == Some(n);
    }
  }

  /** Every action but reconfiguration and scheduling. */
  predicate IsPlain(a: Action) {
    !a.Configure? && !a.RunSchedule?
  }

  lemma {:induction false} PlainKeepsCounts(s: Store, a: Action)
    requires Inv(s) && Enabled(s, a) && IsPlain(a)
    ensures var t := Apply(s, a);
            && CapacitySafe(t)
            && (t.config == None ==> GrantedIds(t.tickets) == {})
            && SequencesOk(t.tickets, t.nextSequence, t.history)
            && t.history == s.history
  {
    var t := Apply(s, a);
    hide BatchesOk, Fair, Within, SequencesOk, CapacitySafe;
    assert Shrinks(s, t);
    ShrinkKeepsCapacity(s, t);
    KeepsSequences(s.tickets, t.tickets, s.nextSequence, s.history);
    if t.config == None { assert GrantedIds(t.tickets) <= GrantedIds(s.tickets); }
  }

  // ---------- batches resolve at once ----------

  lemma {:induction false} WaitingStays(s: Store, a: Action, batch: Id)
    requires Waiting(s.tickets, batch) && SameOrigin(s.tickets)
    requires Enabled(s, a) && IsPlain(a)
    ensures BatchOk(Apply(s, a).tickets, batch)
  {
    var after := Apply(s, a).tickets;
    if a.CancelGraph? {
      assert Waiting(after, batch) || NeverGranted(after, batch, Cancelled);
    } else if a.Withdraw? {
      assert Waiting(after, batch) || NeverGranted(after, batch, Withdrawn);
    } else {
      assert Waiting(after, batch);
    }
  }

  lemma {:induction false} ResolvedStays(s: Store, a: Action, batch: Id)
    requires Resolved(s.tickets, batch)
    requires Enabled(s, a) && IsPlain(a)
    ensures Resolved(Apply(s, a).tickets, batch)
  {
    var after := Apply(s, a).tickets;
    var id :| id in s.tickets && s.tickets[id].batch == batch && Served(s.tickets[id]);
    assert id in after && after[id].batch == batch && Served(after[id]);
    forall o | o in after && after[o].batch == batch
      ensures Served(after[o]) || (after[o].status == Withdrawn && after[o].grantSequence == None)
    {
      assert o in s.tickets && s.tickets[o].batch == batch;
    }
  }

  lemma {:induction false} PlainKeepsBatch(s: Store, a: Action, batch: Id)
    requires BatchOk(s.tickets, batch) && SameOrigin(s.tickets)
    requires Enabled(s, a) && IsPlain(a)
    ensures BatchOk(Apply(s, a).tickets, batch)
  {
    hide Apply, Enabled;
    if Waiting(s.tickets, batch) {
      WaitingStays(s, a, batch);
    } else if Resolved(s.tickets, batch) {
      ResolvedStays(s, a, batch);
    } else {
      var member :| member in s.tickets && s.tickets[member].batch == batch;
      var status := s.tickets[member].status;
      NeverGrantedStays(s, a, batch, status, member);
    }
  }

  lemma {:induction false} NeverGrantedStays(s: Store, a: Action, batch: Id, status: Status, member: Id)
    requires status in {Cancelled, Withdrawn, Expired} && NeverGranted(s.tickets, batch, status)
    requires member in s.tickets && s.tickets[member].batch == batch
    requires Enabled(s, a) && IsPlain(a)
    ensures NeverGranted(Apply(s, a).tickets, batch, status)
  {
    var after := Apply(s, a).tickets;
    forall id | id in after && after[id].batch == batch ensures after[id].status == status && after[id].grantSequence == None {
      assert id in s.tickets;
      assert s.tickets[id].batch == batch;
      assert s.tickets[id].status == status;
    }
  }

  lemma {:induction false} PlainKeepsBatches(s: Store, a: Action)
    requires Inv(s) && Enabled(s, a) && IsPlain(a)
    ensures BatchesOk(Apply(s, a).tickets)
  {
    forall batch ensures BatchOk(Apply(s, a).tickets, batch) {
      PlainKeepsBatch(s, a, batch);
    }
    assert SameOrigin(Apply(s, a).tickets);
  }

  // ---------- scheduling ----------

  lemma {:induction false} ExpiryCounts(s: Store)
    ensures GrantedIds(ExpireDue(s.tickets, s.now)) == Holding(s)
    ensures KeepsGrants(s.tickets, ExpireDue(s.tickets, s.now))
  {
  }

  /** The state a pass starts granting from, and what granting leaves. */
  lemma {:induction false} PassIsSound(s: Store, cfg: Config)
    requires Inv(s) && (s.config.Some? ==> s.config.value == cfg)
    ensures var due := ExpireDue(s.tickets, s.now);
            var pending := PendingIds(due, s.now);
            var heads := Heads(due, pending);
            var q := GrantAll(Progress(due, s.nextSequence, s.history), heads, cfg, s.now);
            && Sound(q, cfg)
            && Finished(q.tickets, heads, cfg)
            && OnlyHeadsGranted(due, q.tickets, heads, s.now)
            && s.history <= q.history
  {
    var due := ExpireDue(s.tickets, s.now);
    var pending := PendingIds(due, s.now);
    ExpiryCounts(s);
    KeepsSequences(s.tickets, due, s.nextSequence, s.history);
    assert Within(cfg, due, GrantedIds(due)) by {
      if s.config.Some? {
        SubsetWithin(cfg, s.tickets, due, Holding(s), GrantedIds(due));
      } else {
        assert GrantedIds(due) == {};
        NothingHeld(cfg, due);
      }
    }
    HeadsAreOfTheirGraph(due, pending);
    GrantAllSound(Progress(due, s.nextSequence, s.history), Heads(due, pending), cfg, s.now);
  }

  lemma {:induction false} NothingHeld(cfg: Config, tickets: Tickets)
    ensures Within(cfg, tickets, {})
  {
    forall graph ensures OfGraph(tickets, {}, graph) == {} {}
    forall tool ensures OfTool(tickets, {}, tool) == {} {}
  }

  lemma {:induction false} HeadsAreOfTheirGraph(tickets: Tickets, pending: set<Id>)
    requires pending <= tickets.Keys
    ensures HeadsOk(tickets, Heads(tickets, pending))
  {
    var heads := Heads(tickets, pending);
    forall graph, id | graph in heads && id in heads[graph] ensures id in tickets && tickets[id].graph == graph {
      GraphHasTicket(tickets, pending, graph);
      assert id in HeadOf(tickets, pending, graph);
    }
  }

  lemma {:induction false} WithdrawKeepsGrants(granted: Tickets, pending: set<Id>)
    ensures KeepsGrants(granted, WithdrawSiblings(granted, pending))
    ensures GrantedIds(WithdrawSiblings(granted, pending)) <= GrantedIds(granted)
    ensures WithdrawSiblings(granted, pending).Keys == granted.Keys
    ensures forall id | id in granted :: var after := WithdrawSiblings(granted, pending)[id];
              after.graph == granted[id].graph && after.tool == granted[id].tool
  {
  }

  lemma {:induction false} ScheduleKeepsCounts(s: Store, cfg: Config)
    requires Inv(s) && (s.config.Some? ==> s.config.value == cfg)
    ensures var t := SchedulePass(s, cfg);
            && CapacitySafe(t)
            && SequencesOk(t.tickets, t.nextSequence, t.history)
            && Fair(t.history)
            && s.history <= t.history
  {
    hide GrantAll, Heads, Within, SequencesOk, Finished, Inv, Fair, WithdrawSiblings;
    var due := ExpireDue(s.tickets, s.now);
    var pending := PendingIds(due, s.now);
    var q := GrantAll(Progress(due, s.nextSequence, s.history), Heads(due, pending), cfg, s.now);
    PassIsSound(s, cfg);
    var t := SchedulePass(s, cfg);
    assert t.tickets == WithdrawSiblings(q.tickets, pending);
    WithdrawKeepsGrants(q.tickets, pending);
    assert KeepsGrants(q.tickets, t.tickets);
    KeepsSequences(q.tickets, t.tickets, q.nextSequence, q.history);
    assert Holding(t) <= GrantedIds(q.tickets);
    SubsetWithin(cfg, q.tickets, t.tickets, GrantedIds(q.tickets), Holding(t));
  }

  lemma {:induction false} ServedBatchResolves(granted: Tickets, pending: set<Id>, batch: Id, id: Id)
    requires forall o | o in granted && granted[o].batch == batch ::
               o in pending && (Served(granted[o]) || (granted[o].status == Pending && granted[o].grantSequence == None))
    requires id in granted && granted[id].batch == batch && granted[id].status == Granted
    ensures Resolved(WithdrawSiblings(granted, pending), batch)
  {
    var after := WithdrawSiblings(granted, pending);
    assert batch in ServedBatches(granted, pending);
    assert after[id].batch == batch && Served(after[id]);
  }

  lemma {:induction false} ServedBatchWaited(tickets: Tickets, granted: Tickets, now: int, batch: Id, id: Id)
    requires BatchOk(tickets, batch)
    requires granted.Keys == tickets.Keys
    requires forall o | o in tickets :: GrantOrKeep(ExpireDue(tickets, now)[o], granted[o], now)
    requires id in tickets && tickets[id].batch == batch && granted[id] != ExpireDue(tickets, now)[id]
    ensures granted[id].batch == batch && granted[id].status == Granted
    ensures forall o | o in granted && granted[o].batch == batch ::
              && o in PendingIds(ExpireDue(tickets, now), now)
              && (Served(granted[o]) || (granted[o].status == Pending && granted[o].grantSequence == None))
  {
    var due := ExpireDue(tickets, now);
    assert GrantOrKeep(due[id], granted[id], now);
    assert due[id].status == Pending;
    assert tickets[id].status == Pending && Live(tickets[id], now);
    assert Waiting(tickets, batch);
    forall o | o in granted && granted[o].batch == batch
      ensures o in PendingIds(due, now)
      ensures Served(granted[o]) || (granted[o].status == Pending && granted[o].grantSequence == None)
    {
      assert GrantOrKeep(due[o], granted[o], now);
      assert tickets[o].batch == batch && tickets[o].expiresAt == tickets[id].expiresAt;
      assert due[o] == tickets[o];
    }
  }

  lemma {:induction false} UnservedRowsStay(tickets: Tickets, granted: Tickets, now: int, batch: Id)
    requires BatchOk(tickets, batch)
    requires granted.Keys == tickets.Keys
    requires forall o | o in tickets :: granted[o].batch == tickets[o].batch
    requires forall o | o in tickets && tickets[o].batch == batch :: granted[o] == ExpireDue(tickets, now)[o]
    ensures var after := WithdrawSiblings(granted, PendingIds(ExpireDue(tickets, now), now));
            forall o | o in tickets && tickets[o].batch == batch :: after[o] == ExpireDue(tickets, now)[o]
  {
    assert batch !in ServedBatches(granted, PendingIds(ExpireDue(tickets, now), now));
  }

  lemma {:induction false} UnservedBatchKeeps(tickets: Tickets, now: int, batch: Id, after: Tickets)
    requires BatchOk(tickets, batch)
    requires after.Keys == tickets.Keys
    requires forall o | o in tickets :: after[o].batch == tickets[o].batch
    requires forall o | o in tickets && tickets[o].batch == batch :: after[o] == ExpireDue(tickets, now)[o]
    ensures BatchOk(after, batch)
  {
    if Waiting(tickets, batch) {
      assert Waiting(after, batch) || NeverGranted(after, batch, Expired);
    } else if Resolved(tickets, batch) {
      var id :| id in tickets && tickets[id].batch == batch && Served(tickets[id]);
      assert id in after && after[id].batch == batch && Served(after[id]);
      assert Resolved(after, batch);
    } else {
      var member :| member in tickets && tickets[member].batch == batch;
      var status := tickets[member].status;
      assert NeverGranted(tickets, batch, status);
      forall o | o in after && after[o].batch == batch ensures after[o].status == status && after[o].grantSequence == None {
        assert tickets[o].batch == batch && tickets[o].status == status;
      }
    }
  }

  lemma {:induction false} ScheduleKeepsBatches(s: Store, cfg: Config)
    requires Inv(s) && (s.config.Some? ==> s.config.value == cfg)
    ensures BatchesOk(SchedulePass(s, cfg).tickets)
  {
    var due := ExpireDue(s.tickets, s.now);
    var pending := PendingIds(due, s.now);
    var q := GrantAll(Progress(due, s.nextSequence, s.history), Heads(due, pending), cfg, s.now);
    PassIsSound(s, cfg);
    WithdrawKeepsBatches(s.tickets, q.tickets, s.now);
  }

  lemma {:induction false} WithdrawKeepsBatches(tickets: Tickets, granted: Tickets, now: int)
    requires BatchesOk(tickets)
    requires granted.Keys == tickets.Keys
    requires forall o | o in tickets :: GrantOrKeep(ExpireDue(tickets, now)[o], granted[o], now)
    ensures BatchesOk(WithdrawSiblings(granted, PendingIds(ExpireDue(tickets, now), now)))
  {
    var due := ExpireDue(tickets, now);
    var pending := PendingIds(due, now);
    var after := WithdrawSiblings(granted, pending);
    forall id | id in tickets
      ensures granted[id].batch == tickets[id].batch
      ensures after[id].batch == tickets[id].batch && after[id].graph == tickets[id].graph && after[id].owner == tickets[id].owner
    {
      assert GrantOrKeep(due[id], granted[id], now);
    }
    hide BatchOk, WithdrawSiblings, PendingIds, ExpireDue, GrantOrKeep;
    forall batch ensures BatchOk(after, batch) {
      if id :| id in tickets && tickets[id].batch == batch && granted[id] != due[id] {
        ServedBatchWaited(tickets, granted, now, batch, id);
        ServedBatchResolves(granted, pending, batch, id);
        ResolvedIsOk(after, batch);
      } else {
        UnservedRowsStay(tickets, granted, now, batch);
        UnservedBatchKeeps(tickets, now, batch, after);
      }
    }
  }

  lemma {:induction false} ResolvedIsOk(tickets: Tickets, batch: Id)
    requires Resolved(tickets, batch)
    ensures BatchOk(tickets, batch)
  {
  }

  // ---------- every action, every run ----------

  lemma {:induction false} ConfigureKeepsInv(s: Store, cfg: Config)
    requires Inv(s) && EnsureConfiguration(s, cfg).Some?
    ensures Inv(EnsureConfiguration(s, cfg).value)
  {
    var t := EnsureConfiguration(s, cfg).value;
    if s.config != Some(cfg) {
      assert Holding(t) <= LiveTickets(s);
      assert Holding(s) <= GrantedIds(s.tickets);
      assert Holding(t) == {};
      NothingHeld(cfg, t.tickets);
    }
  }

  lemma {:induction false} StepKeepsInv(s: Store, a: Action)
    requires Inv(s) && Enabled(s, a)
    ensures Inv(Apply(s, a))
    ensures s.history <= Apply(s, a).history
  {
    hide Within, SequencesOk, Fair, BatchesOk, GrantAll, Heads;
    if IsPlain(a) {
      PlainKeepsCounts(s, a);
      PlainKeepsBatches(s, a);
    } else if a.Configure? {
      if EnsureConfiguration(s, a.cfg).Some? { ConfigureKeepsInv(s, a.cfg); }
    } else if Schedule(s, a.cfg).Some? {
      ScheduleKeepsCounts(s, a.cfg);
      ScheduleKeepsBatches(s, a.cfg);
    }
  }

  lemma {:induction false} InitialInv(now: int)
    ensures Inv(Initial(now))
  {
    forall batch ensures BatchOk(map[], batch) { assert Waiting(map[], batch); }
  }

  lemma {:induction false} RunKeepsInv(states: seq<Store>, i: nat)
    requires Run(states) && i < |states|
    ensures Inv(states[i])
  {
    if i == 0 {
      var now :| states[0] == Initial(now);
      InitialInv(now);
    } else {
      RunKeepsInv(states, i - 1);
      assert Step(states[i - 1], states[i - 1 + 1]);
      var a :| Enabled(states[i - 1], a) && states[i] == Apply(states[i - 1], a);
      StepKeepsInv(states[i - 1], a);
    }
  }

  /** Capacity safety over every run. */
  lemma {:induction false} CapacityOverRuns(states: seq<Store>)
    requires Run(states)
    ensures forall i | 0 <= i < |states| :: CapacitySafe(states[i])
  {
    forall i | 0 <= i < |states| ensures CapacitySafe(states[i]) { RunKeepsInv(states, i); }
  }

  lemma {:induction false} HistoryGrows(states: seq<Store>, i: nat, j: nat)
    requires Run(states) && i <= j < |states|
    ensures states[i].history <= states[j].history
    decreases j
  {
    hide Apply, Enabled, Inv;
    if i < j {
      HistoryGrows(states, i, j - 1);
      RunKeepsInv(states, j - 1);
      assert Step(states[j - 1], states[j - 1 + 1]);
      var a :| Enabled(states[j - 1], a) && states[j] == Apply(states[j - 1], a);
      StepKeepsInv(states[j - 1], a);
    }
  }

  /** Grant sequences are unique, and a later pass only hands out larger ones. */
  lemma {:induction false} SequencesIncrease(states: seq<Store>, i: nat, j: nat, a: Id, b: Id)
    requires Run(states) && i <= j < |states|
    requires a in states[j].tickets && b in states[j].tickets && a != b
    requires states[j].tickets[a].grantSequence.Some? && states[j].tickets[b].grantSequence.Some?
    ensures states[j].tickets[a].grantSequence != states[j].tickets[b].grantSequence
    ensures states[i].nextSequence <= states[j].nextSequence
    ensures a !in states[i].tickets || states[i].tickets[a].grantSequence == None
            || states[i].tickets[a].grantSequence.value < states[i].nextSequence
  {
    RunKeepsInv(states, i);
    RunKeepsInv(states, j);
    HistoryGrows(states, i, j);
  }

  /**
   Bounded bypass. Take any window of grants in a run during which a graph stays a candidate
   and is not granted: every other graph is granted at most once in that window.
   */
  lemma {:induction false} BoundedBypass(states: seq<Store>, n: nat, graph: Id, lo: nat, hi: nat)
    requires Run(states) && n < |states| && lo <= hi <= |states[n].history|
    requires forall k | lo <= k < hi :: graph in states[n].history[k].candidates && states[n].history[k].graph != graph
    ensures forall i, j | lo <= i < j < hi :: states[n].history[i].graph != states[n].history[j].graph
  {
    RunKeepsInv(states, n);
    var history := states[n].history;
    forall i, j | lo <= i < j < hi ensures history[i].graph != history[j].graph {
      assert !GrantedBetween(history, i, j, graph);
    }
  }

  /** The window is therefore no longer than the number of distinct graphs it serves. */
  lemma {:induction false} BypassLength(states: seq<Store>, n: nat, graph: Id, lo: nat, hi: nat, graphs: set<Id>)
    requires Run(states) && n < |states| && lo <= hi <= |states[n].history|
    requires forall k | lo <= k < hi :: graph in states[n].history[k].candidates && states[n].history[k].graph != graph
    requires forall k | lo <= k < hi :: states[n].history[k].graph in graphs
    ensures hi - lo <= |graphs|
  {
    BoundedBypass(states, n, graph, lo, hi);
    DistinctCount(states[n].history, lo, hi, graphs);
  }

  lemma {:induction false} DistinctCount(history: seq<Grant>, lo: nat, hi: nat, graphs: set<Id>)
    requires lo <= hi <= |history|
    requires forall i, j | lo <= i < j < hi :: history[i].graph != history[j].graph
    requires forall k | lo <= k < hi :: history[k].graph in graphs
    ensures hi - lo <= |graphs|
    decreases hi - lo
  {
    if lo < hi {
      DistinctCount(history, lo, hi - 1, graphs - {history[hi - 1].graph});
    }
  }

  /** A granted ticket that outlived its lease never holds a slot again, whatever is tried on it. */
  ghost predicate Lapsed(s: Store, id: Id) {
    id in s.tickets && s.tickets[id].status != Pending && id !in Holding(s)
  }

  lemma {:induction false} LapsedStays(s: Store, a: Action, id: Id)
    requires Inv(s) && Enabled(s, a) && Lapsed(s, id)
    ensures Lapsed(Apply(s, a), id)
  {
    hide Within, SequencesOk, Fair, BatchesOk, GrantAll, Heads;
    if a.RunSchedule? && Schedule(s, a.cfg).Some? {
      PassIsSound(s, a.cfg);
      var due := ExpireDue(s.tickets, s.now);
      var q := GrantAll(Progress(due, s.nextSequence, s.history), Heads(due, PendingIds(due, s.now)), a.cfg, s.now);
      assert GrantOrKeep(due[id], q.tickets[id], s.now);
    }
  }

  lemma {:induction false} LapsedForever(states: seq<Store>, i: nat, j: nat, id: Id)
    requires Run(states) && i <= j < |states| && Lapsed(states[i], id)
    ensures id !in Holding(states[j])
    ensures Lapsed(states[j], id)
    decreases j
  {
    hide Apply, Enabled, Inv;
    if i < j {
      LapsedForever(states, i, j - 1, id);
      RunKeepsInv(states, j - 1);
      assert Step(states[j - 1], states[j - 1 + 1]);
      var a :| Enabled(states[j - 1], a) && states[j] == Apply(states[j - 1], a);
      LapsedStays(states[j - 1], a, id);
    }
  }

  // ---------- what a waiting caller sees ----------

  datatype Outcome = Permits(ids: set<Id>) | GraphCancelled | PermitLost | KeepWaiting

  function Members(tickets: Tickets, batch: Id): set<Id> {
    set id | id in tickets && tickets[id].batch == batch
  }

  function WithStatus(tickets: Tickets, batch: Id, status: Status): set<Id> {
    set id | id in Members(tickets, batch) && tickets[id].status == status
  }

  /** The tests of the polling loop, in its order. */
  function Poll(tickets: Tickets, batch: Id): Outcome {
    if WithStatus(tickets, batch, Granted) != {} then Permits(WithStatus(tickets, batch, Granted))
    else if WithStatus(tickets, batch, Cancelled) != {} then GraphCancelled
    else if WithStatus(tickets, batch, Pending) == {} then PermitLost
    else KeepWaiting
  }

  /** The outcomes are exhaustive: a batch waits as a whole or has no waiting ticket left. */
  lemma {:induction false} PollIsExhaustive(states: seq<Store>, n: nat, batch: Id)
    requires Run(states) && n < |states| && Members(states[n].tickets, batch) != {}
    ensures var tickets := states[n].tickets;
            var all := Members(tickets, batch);
            match Poll(tickets, batch)
            case KeepWaiting => WithStatus(tickets, batch, Pending) == all
            case GraphCancelled => WithStatus(tickets, batch, Cancelled) == all
            case PermitLost => WithStatus(tickets, batch, Pending) + WithStatus(tickets, batch, Granted) == {}
            case Permits(ids) => ids != {} && WithStatus(tickets, batch, Pending) == {}
  {
    RunKeepsInv(states, n);
    assert BatchOk(states[n].tickets, batch);
  }

  /** A failed acquisition withdraws its batch and so leaves nothing of it pending or granted. */
  lemma {:induction false} FailedAcquireLeavesNothing(states: seq<Store>, n: nat, batch: Id, owner: Id)
    requires Run(states) && n < |states|
    requires exists id :: id in Members(states[n].tickets, batch) && states[n].tickets[id].owner == owner
    ensures var after := WithdrawBatch(states[n], batch, owner).tickets;
            && WithStatus(after, batch, Pending) == {}
            && WithStatus(after, batch, Granted) == {}
            && (forall id | id in after && after[id].batch != batch :: after[id] == states[n].tickets[id])
  {
    RunKeepsInv(states, n);
    var tickets := states[n].tickets;
    var one :| one in Members(tickets, batch) && tickets[one].owner == owner;
    forall id | id in Members(tickets, batch) ensures tickets[id].owner == owner { assert tickets[id].batch == tickets[one].batch; }
  }
}
