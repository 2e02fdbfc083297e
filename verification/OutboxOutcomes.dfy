/**
 What each outbox transaction does to the rows, told field by field: which messages are due and
 claimed, how long a claim counts, and where a report leaves its message.
 */
module OutboxOutcomes {
  import opened Backoff
  import opened Ordering
  import opened Outbox
  import opened OutboxSafety

  // ---------- the terms ----------

  /** The message may go out now: it is neither published nor dead, due, free, and the first of its task that is not decided. */
  predicate Due(b: Box, id: Id) {
    && id in b.rows
    && var r := b.rows[id];
       && r.publishedAt == None && r.deadAt == None && r.availableAt <= b.now
       && (r.owner == None || r.expiresAt == None || r.expiresAt.value <= b.now)
       && (forall o | o in b.rows && b.rows[o].task == r.task && b.rows[o].sequence < r.sequence ::
             b.rows[o].publishedAt.Some? || b.rows[o].deadAt.Some?)
  }

  /** Oldest first, then by task, then by place in the task. */
  predicate InOrder(a: Row, b: Row) {
    a.createdAt < b.createdAt
    || (a.createdAt == b.createdAt && (a.task < b.task || (a.task == b.task && a.sequence <= b.sequence)))
  }

  /** Nothing but what is due is claimed, and what is due and left over comes after a full batch. */
  ghost predicate SelectsTheDue(b: Box, batch: seq<Id>, limit: nat) {
    && |batch| <= limit
    && (forall id | id in batch :: Due(b, id))
    && (forall i, j | 0 <= i < j < |batch| :: batch[i] != batch[j] && batch[i] in b.rows && batch[j] in b.rows && InOrder(b.rows[batch[i]], b.rows[batch[j]]))
    && (forall id | Due(b, id) && id !in batch ::
          |batch| == limit && forall k | 0 <= k < |batch| :: batch[k] in b.rows && InOrder(b.rows[batch[k]], b.rows[id]))
  }

  /** The row a claim leaves: the owner's until the lease ends, under the next fence. */
  predicate ClaimedRow(r: Row, owner: Id, delivery: Id, now: int, ttl: nat, t: Row) {
    && t.owner == Some(owner) && t.acquiredAt == Some(now) && t.expiresAt == Some(now + ttl) && t.fence == r.fence + 1
    && t.delivery == Some(delivery) && t.attemptedAt == Some(now)
    && t.task == r.task && t.sequence == r.sequence && t.createdAt == r.createdAt && t.availableAt == r.availableAt
    && t.attempts == r.attempts && t.publishedAt == r.publishedAt && t.deadAt == r.deadAt
  }

  ghost predicate ClaimLaw(b: Box, batch: seq<Id>, owner: Id, deliveries: seq<Id>, ttl: nat, t: Box) {
    && |deliveries| == |batch|
    && t.rows.Keys == b.rows.Keys
    && t == b.(rows := t.rows, claims := t.claims)
    && (forall id | id in b.rows && id !in batch :: t.rows[id] == b.rows[id])
    && (forall k | 0 <= k < |batch| :: batch[k] in b.rows && ClaimedRow(b.rows[batch[k]], owner, deliveries[k], b.now, ttl, t.rows[batch[k]]))
    && (forall c :: c in t.claims <==> c in b.claims || IsNewClaim(b, batch, owner, deliveries, c))
  }

  predicate IsNewClaim(b: Box, batch: seq<Id>, owner: Id, deliveries: seq<Id>, c: Claim) {
    exists k :: 0 <= k < |batch| && k < |deliveries| && batch[k] == c.message && batch[k] in b.rows
      && c == Claim(batch[k], owner, b.rows[batch[k]].attempts, b.rows[batch[k]].fence + 1, deliveries[k])
  }

  /** The row is the claim's until the given moment. */
  predicate Leased(r: Row, c: Claim, until: int) {
    && r.publishedAt == None && r.deadAt == None
    && r.owner == Some(c.owner) && r.fence == c.fence && r.delivery == Some(c.delivery)
    && r.expiresAt == Some(until) && r.attempts == c.attempts
  }

  predicate LeasedNow(b: Box, c: Claim) {
    c.message in b.rows && b.rows[c.message].expiresAt.Some? && b.rows[c.message].expiresAt.value > b.now
      && Leased(b.rows[c.message], c, b.rows[c.message].expiresAt.value)
  }

  /** The base, doubled once for each attempt before, up to sixteen times, and never above the ceiling. */
  function Doubled(base: nat, ceiling: nat, attempts: nat): nat {
    if attempts == 0 then (if base < ceiling then base else ceiling)
    else if attempts > 16 then Doubled(base, ceiling, 16)
    else if 2 * Doubled(base, ceiling, attempts - 1) < ceiling then 2 * Doubled(base, ceiling, attempts - 1) else ceiling
  }

  /** A row no one holds, one attempt further on. */
  predicate LetGo(r: Row, t: Row) {
    && t.owner == None && t.acquiredAt == None && t.expiresAt == None && t.fence == r.fence && t.attempts == r.attempts + 1
    && t.task == r.task && t.sequence == r.sequence && t.createdAt == r.createdAt
  }

  predicate PublishedRow(r: Row, now: int, t: Row) {
    LetGo(r, t) && t.publishedAt == Some(now) && t.deadAt == None && t.availableAt == r.availableAt && t.lastError == None
  }

  predicate FailedRow(r: Row, p: Policy, now: int, error: string, t: Row) {
    && LetGo(r, t) && t.publishedAt == None && t.lastError == Some(error)
    && if r.attempts + 1 < p.maxAttempts then
         t.deadAt == None && t.deadReason == None && t.availableAt == now + Doubled(p.retryBase, p.retryMax, r.attempts)
       else
         t.deadAt == Some(now) && t.deadReason == Some(error) && t.attempts == p.maxAttempts
  }

  /** One row changed, nothing else. */
  predicate OnlyRow(b: Box, id: Id, t: Box) {
    && id in b.rows && t.rows.Keys == b.rows.Keys && t == b.(rows := t.rows)
    && (forall o | o in b.rows && o != id :: t.rows[o] == b.rows[o])
  }

  predicate PublishedLaw(b: Box, c: Claim, t: Box) {
    if LeasedNow(b, c) then OnlyRow(b, c.message, t) && PublishedRow(b.rows[c.message], b.now, t.rows[c.message])
    else t == b
  }

  predicate FailedLaw(b: Box, p: Policy, c: Claim, error: string, t: Box) {
    if LeasedNow(b, c) then OnlyRow(b, c.message, t) && FailedRow(b.rows[c.message], p, b.now, error, t.rows[c.message])
    else t == b
  }

  /** A dead letter starts over, due at once and under a fence that no old claim has; anything else is left alone. */
  predicate RequeueLaw(b: Box, id: Id, t: Box) {
    && t.rows.Keys == b.rows.Keys && t.now == b.now && t.receipts == b.receipts && t.claims == b.claims && t.effects == b.effects
    && (forall o | o in b.rows && o != id :: t.rows[o] == b.rows[o])
    && (id in b.rows ==>
          if b.rows[id].deadAt.Some? && b.rows[id].publishedAt == None then
            var r, u := b.rows[id], t.rows[id];
            && u.attempts == 0 && u.availableAt == b.now && u.publishedAt == None && u.deadAt == None && u.deadReason == None
            && u.owner == None && u.acquiredAt == None && u.expiresAt == None && u.delivery == None && u.attemptedAt == None
            && u.lastError == None && u.fence == r.fence + 1
            && u.task == r.task && u.sequence == r.sequence && u.createdAt == r.createdAt
          else t.rows[id] == b.rows[id])
  }

  predicate EnqueueLaw(b: Box, id: Id, task: Id, sequence: nat, t: Box) {
    && id !in b.rows && t.rows.Keys == b.rows.Keys + {id} && t == b.(rows := t.rows)
    && (forall o | o in b.rows :: t.rows[o] == b.rows[o])
    && var r := t.rows[id];
       && r.task == task && r.sequence == sequence && r.createdAt == b.now && r.availableAt == b.now && r.attempts == 0 && r.fence == 0
       && r.publishedAt == None && r.deadAt == None && r.owner == None && r.expiresAt == None
  }

  predicate HandleLaw(b: Box, r: Receipt, t: Box) {
    if r in b.receipts then t == b else t == b.(receipts := b.receipts + {r}, effects := b.effects + [r])
  }

  ghost predicate Law(b: Box, p: Policy, a: Action, t: Box) {
    match a
    case Advance(seconds) => t == b.(now := b.now + seconds)
    case Enqueue(id, task, sequence) => EnqueueLaw(b, id, task, sequence, t)
    case ClaimBatch(owner, ttl, limit, batch, deliveries) => SelectsTheDue(b, batch, limit) && ClaimLaw(b, batch, owner, deliveries, ttl, t)
    case Deliver(c) => t == b.(delivered := b.delivered + [c])
    case Published(c) => PublishedLaw(b, c, t)
    case Failed(c, error) => FailedLaw(b, p, c, error, t)
    case RequeueDead(id) => RequeueLaw(b, id, t)
    case Handle(r) => HandleLaw(b, r, t)
  }

  // ---------- every transaction keeps its law ----------

  lemma {:induction false} DueIsCandidate(b: Box, id: Id)
    ensures Due(b, id) <==> id in Candidates(b.rows, b.now)
  {
    if id in b.rows {
      assert IsHead(b.rows, id) <==> forall o | o in b.rows && b.rows[o].task == b.rows[id].task && b.rows[o].sequence < b.rows[id].sequence ::
             b.rows[o].publishedAt.Some? || b.rows[o].deadAt.Some?;
    }
  }

  lemma {:induction false} BatchSelectsTheDue(b: Box, batch: seq<Id>, limit: nat)
    requires IsBatch(b, batch, limit)
    ensures SelectsTheDue(b, batch, limit)
  {
    hide Due, Candidates;
    var keys := ClaimKeys(b.rows, b.now);
    forall id ensures Due(b, id) <==> id in keys { DueIsCandidate(b, id); }
    forall id | id in keys ensures id in b.rows && keys[id] == Key(b.rows[id].createdAt, b.rows[id].task, b.rows[id].sequence) {
      CandidateStored(b, id);
    }
  }

  lemma {:induction false} CandidateStored(b: Box, id: Id)
    requires id in Candidates(b.rows, b.now)
    ensures id in b.rows
  {
  }

  lemma {:induction false} ClaimAllLaw(b: Box, batch: seq<Id>, owner: Id, deliveries: seq<Id>, ttl: nat)
    requires |deliveries| == |batch| && forall id | id in batch :: id in b.rows
    requires forall i, j | 0 <= i < j < |batch| :: batch[i] != batch[j]
    ensures ClaimLaw(b, batch, owner, deliveries, ttl, ClaimAll(b, batch, owner, deliveries, ttl))
    decreases |batch|
  {
    hide IsNewClaim;
    var t := ClaimAll(b, batch, owner, deliveries, ttl);
    if batch == [] {
      forall c ensures !IsNewClaim(b, batch, owner, deliveries, c) { NoneNew(b, owner, deliveries, c); }
    } else {
      assert batch[0] in batch;
      var u := ClaimOne(b, batch[0], owner, deliveries[0], ttl);
      var rest, others := batch[1..], deliveries[1..];
      forall id | id in rest ensures id in b.rows && id != batch[0] { assert id in batch; }
      ClaimAllLaw(u, rest, owner, others, ttl);
      forall k | 0 <= k < |batch| ensures batch[k] in b.rows && ClaimedRow(b.rows[batch[k]], owner, deliveries[k], b.now, ttl, t.rows[batch[k]]) {
        if k > 0 { assert batch[k] == rest[k - 1] && deliveries[k] == others[k - 1]; }
      }
      forall c ensures c in t.claims <==> c in b.claims || IsNewClaim(b, batch, owner, deliveries, c) {
        NewOrLater(b, batch, owner, deliveries, ttl, c);
      }
    }
  }

  lemma {:induction false} NoneNew(b: Box, owner: Id, deliveries: seq<Id>, c: Claim)
    ensures !IsNewClaim(b, [], owner, deliveries, c)
  {
  }

  lemma {:induction false} NewOrLater(b: Box, batch: seq<Id>, owner: Id, deliveries: seq<Id>, ttl: nat, c: Claim)
    requires |deliveries| == |batch| > 0 && batch[0] in b.rows
    requires forall i, j | 0 <= i < j < |batch| :: batch[i] != batch[j]
    ensures IsNewClaim(b, batch, owner, deliveries, c)
        <==> c == ClaimOf(b, batch[0], owner, deliveries[0]) || IsNewClaim(ClaimOne(b, batch[0], owner, deliveries[0], ttl), batch[1..], owner, deliveries[1..], c)
  {
    var u := ClaimOne(b, batch[0], owner, deliveries[0], ttl);
    var rest, others := batch[1..], deliveries[1..];
    if IsNewClaim(u, rest, owner, others, c) {
      var k :| 0 <= k < |rest| && rest[k] == c.message && rest[k] in u.rows && c == Claim(rest[k], owner, u.rows[rest[k]].attempts, u.rows[rest[k]].fence + 1, others[k]);
      assert batch[k + 1] == rest[k] && deliveries[k + 1] == others[k] && rest[k] != batch[0];
    }
    if IsNewClaim(b, batch, owner, deliveries, c) {
      var k :| 0 <= k < |batch| && batch[k] == c.message && batch[k] in b.rows && c == Claim(batch[k], owner, b.rows[batch[k]].attempts, b.rows[batch[k]].fence + 1, deliveries[k]);
      if k > 0 { assert rest[k - 1] == batch[k] && others[k - 1] == deliveries[k] && batch[k] != batch[0]; }
    }
  }

  /** The retry delay is the base doubled attempt by attempt under the ceiling. */
  lemma {:induction false} DelayIsDoubled(base: nat, ceiling: nat, n: nat)
    requires n <= 16
    ensures CappedDelay(base, ceiling, n) == Doubled(base, ceiling, n)
    decreases n
  {
    if n > 0 {
      DelayIsDoubled(base, ceiling, n - 1);
      DoublesOnce(base, n);
      hide Power2;
    }
  }

  lemma {:induction false} DoublesOnce(base: nat, n: nat)
    requires n > 0
    ensures base * Power2(n) == 2 * (base * Power2(n - 1))
  {
    var half := Power2(n - 1);
    assert Power2(n) == 2 * half;
    hide Power2;
    assert base * (2 * half) == 2 * (base * half);
  }

  lemma {:induction false} HonouredIsLeased(b: Box, p: Policy, c: Claim)
    requires Inv(b, p) && c in b.claims
    ensures Honours(b, c) <==> LeasedNow(b, c)
    ensures Honours(b, c) ==> b.rows[c.message].deadAt == None && b.rows[c.message].attempts == c.attempts && c.attempts < p.maxAttempts
  {
    assert ClaimOk(b, c);
    assert RowOk(b, p, c.message);
  }

  lemma {:induction false} DeliveredAreClaims(b: Box, p: Policy, c: Claim)
    requires Inv(b, p) && c in b.delivered
    ensures c in b.claims
  {
    var j :| 0 <= j < |b.delivered| && b.delivered[j] == c;
    assert LogOk(b, j);
  }

  lemma {:induction false} PublishedIsLawful(b: Box, p: Policy, c: Claim)
    requires Inv(b, p) && c in b.claims
    ensures PublishedLaw(b, c, MarkPublished(b, c))
  {
    HonouredIsLeased(b, p, c);
    hide Inv, LeasedNow, Honours;
  }

  lemma {:induction false} FailedIsLawful(b: Box, p: Policy, c: Claim, error: string)
    requires Inv(b, p) && c in b.claims
    ensures FailedLaw(b, p, c, error, MarkFailed(b, p, c, error))
  {
    HonouredIsLeased(b, p, c);
    DelayIsDoubled(p.retryBase, p.retryMax, if c.attempts < 16 then c.attempts else 16);
    DoubledStays(p.retryBase, p.retryMax, c.attempts);
    hide Inv, LeasedNow, Honours, Doubled, CappedDelay;
  }

  lemma {:induction false} DoubledStays(base: nat, ceiling: nat, n: nat)
    ensures Doubled(base, ceiling, n) == Doubled(base, ceiling, if n < 16 then n else 16)
  {
  }

  /** Every transaction does what its law says. */
  lemma {:induction false} OperationIsLawful(b: Box, p: Policy, a: Action)
    requires Inv(b, p) && Enabled(b, a)
    ensures Law(b, p, a, Apply(b, p, a))
  {
    hide Inv, SelectsTheDue, ClaimLaw, PublishedLaw, FailedLaw, IsBatch, MarkPublished, MarkFailed, ClaimAll, Candidates;
    match a
    case Advance(seconds) =>
    case Enqueue(id, task, sequence) =>
    case ClaimBatch(owner, ttl, limit, batch, deliveries) =>
      BatchIsStored(b, batch, limit);
      BatchSelectsTheDue(b, batch, limit);
      ClaimAllLaw(b, batch, owner, deliveries, ttl);
    case Deliver(c) =>
    case Published(c) =>
      DeliveredAreClaims(b, p, c);
      PublishedIsLawful(b, p, c);
    case Failed(c, error) => FailedIsLawful(b, p, c, error);
    case RequeueDead(id) =>
    case Handle(r) =>
  }

  // ---------- over runs ----------

  ghost predicate StepBy(states: seq<Box>, actions: seq<Action>, p: Policy, k: nat)
    requires |states| == |actions| + 1 && k < |actions|
  {
    Enabled(states[k], actions[k]) && states[k + 1] == Apply(states[k], p, actions[k])
  }

  /** A run with the transactions that made it. */
  ghost predicate RunBy(states: seq<Box>, actions: seq<Action>, p: Policy) {
    && |states| == |actions| + 1 && p.maxAttempts >= 1 && (exists now :: states[0] == Initial(now))
    && (forall k | 0 <= k < |actions| :: StepBy(states, actions, p, k))
  }

  lemma {:induction false} RunByIsRun(states: seq<Box>, actions: seq<Action>, p: Policy)
    requires RunBy(states, actions, p)
    ensures Run(states, p)
  {
    hide Apply, Enabled;
    forall i | 0 <= i < |states| - 1 ensures Step(states[i], p, states[i + 1]) { assert StepBy(states, actions, p, i); }
  }

  /** Every transaction of every run does what its law says. */
  lemma {:induction false} RunIsLawful(states: seq<Box>, actions: seq<Action>, p: Policy, k: nat)
    requires RunBy(states, actions, p) && k < |actions|
    ensures Inv(states[k], p) && Enabled(states[k], actions[k]) && Law(states[k], p, actions[k], states[k + 1])
  {
    hide Inv, Law, Apply, Enabled;
    RunByIsRun(states, actions, p);
    RunKeepsInv(states, p, k);
    assert StepBy(states, actions, p, k);
    OperationIsLawful(states[k], p, actions[k]);
  }

  predicate IsReport(a: Action, c: Claim) {
    match a
    case Published(d) => d == c
    case Failed(d, _) => d == c
    case _ => false
  }

  predicate ReportedBetween(actions: seq<Action>, i: nat, j: nat, c: Claim) {
    exists k :: i < k < j && k < |actions| && IsReport(actions[k], c)
  }

  lemma {:induction false} OtherRowStays(b: Box, t: Box, id: Id, m: Id)
    requires OnlyRow(b, id, t) && m in b.rows && m != id
    ensures m in t.rows && t.rows[m] == b.rows[m] && t.now == b.now
  {
  }

  /** A running claim is touched by no transaction but its own report. */
  lemma {:induction false} LeaseStays(b: Box, p: Policy, a: Action, t: Box, c: Claim, until: int)
    requires Inv(b, p) && Enabled(b, a) && Law(b, p, a, t) && c in b.claims && !IsReport(a, c)
    requires c.message in b.rows && Leased(b.rows[c.message], c, until) && b.now < until
    ensures c.message in t.rows && t.rows[c.message] == b.rows[c.message]
  {
    hide ClaimedRow, PublishedRow, FailedRow, InOrder, IsBatch, OnlyRow, IsNewClaim;
    match a
    case Published(d) =>
      if LeasedNow(b, d) {
        DeliveredAreClaims(b, p, d);
        SameFence(b, p, c, d);
        OtherRowStays(b, t, d.message, c.message);
      }
    case Failed(d, _) =>
      if LeasedNow(b, d) {
        SameFence(b, p, c, d);
        OtherRowStays(b, t, d.message, c.message);
      }
    case ClaimBatch(owner, ttl, limit, batch, deliveries) =>
      assert !Due(b, c.message);
    case _ =>
  }

  lemma {:induction false} SameFence(b: Box, p: Policy, c: Claim, d: Claim)
    requires Inv(b, p) && c in b.claims && d in b.claims && c != d
    requires c.message in b.rows && b.rows[c.message].fence == c.fence && d.message in b.rows && b.rows[d.message].fence == d.fence
    ensures c.message != d.message
  {
  }

  lemma {:induction false} TimeRuns(b: Box, p: Policy, a: Action, t: Box)
    requires Law(b, p, a, t)
    ensures t.now >= b.now
  {
    hide SelectsTheDue, ClaimedRow, PublishedRow, FailedRow, LeasedNow, IsNewClaim;
  }

  /** A report ends its claim, whatever it reports. */
  lemma {:induction false} ReportEndsLease(b: Box, p: Policy, a: Action, t: Box, c: Claim)
    requires Law(b, p, a, t) && IsReport(a, c)
    ensures !LeasedNow(t, c)
  {
    hide Doubled;
  }

  /** The claim that a transaction hands out runs from then on. */
  lemma {:induction false} ClaimStarts(b: Box, p: Policy, a: Action, t: Box, c: Claim)
    requires Inv(b, p) && Law(b, p, a, t) && a.ClaimBatch? && c in t.claims && c !in b.claims
    ensures c.message in t.rows && Leased(t.rows[c.message], c, b.now + a.ttl) && t.now == b.now
  {
    hide InOrder, Inv;
    assert IsNewClaim(b, a.batch, a.owner, a.deliveries, c);
    var k :| 0 <= k < |a.batch| && a.batch[k] == c.message && c == Claim(a.batch[k], a.owner, b.rows[a.batch[k]].attempts, b.rows[a.batch[k]].fence + 1, a.deliveries[k]);
    assert a.batch[k] in a.batch && Due(b, a.batch[k]);
    assert ClaimedRow(b.rows[a.batch[k]], a.owner, a.deliveries[k], b.now, a.ttl, t.rows[a.batch[k]]);
  }

  /**
   How long a claim counts: from the transaction that hands it out until its lease has run out or it has
   been reported, and no longer, whatever everyone else does.
   */
  lemma {:induction false} ClaimCountsForItsLease(states: seq<Box>, actions: seq<Action>, p: Policy, i: nat, j: nat, c: Claim)
    requires RunBy(states, actions, p) && i < j <= |actions|
    requires actions[i].ClaimBatch? && c in states[i + 1].claims && c !in states[i].claims
    ensures c in states[j].claims && c.message in states[j].rows
    ensures LeasedNow(states[j], c) <==> states[j].now < states[i].now + actions[i].ttl && !ReportedBetween(actions, i, j, c)
    ensures LeasedNow(states[j], c) ==> Leased(states[j].rows[c.message], c, states[i].now + actions[i].ttl)
    decreases j
  {
    hide Inv, Law, Apply, Enabled, StepBy, LeasedNow, Honours;
    if j == i + 1 {
      RunIsLawful(states, actions, p, i);
      ClaimStarts(states[i], p, actions[i], states[i + 1], c);
      LeasedMeans(states[j], c, states[i].now + actions[i].ttl);
    } else {
      ClaimCountsForItsLease(states, actions, p, i, j - 1, c);
      LeaseStep(states, actions, p, i, j - 1, c, states[i].now + actions[i].ttl);
    }
  }

  lemma {:induction false} LeasedMeans(b: Box, c: Claim, until: int)
    requires c.message in b.rows && Leased(b.rows[c.message], c, until)
    ensures LeasedNow(b, c) <==> b.now < until
  {
  }

  lemma {:induction false} LeasedUntil(b: Box, c: Claim, until: int)
    requires c.message in b.rows && Leased(b.rows[c.message], c, until) && LeasedNow(b, c)
    ensures b.now < until
  {
  }

  lemma {:induction false} LostOrStays(b: Box, p: Policy, a: Action, c: Claim)
    requires Inv(b, p) && Enabled(b, a) && c in b.claims
    ensures c in Apply(b, p, a).claims
    ensures !LeasedNow(b, c) ==> !LeasedNow(Apply(b, p, a), c)
  {
    hide Inv, Apply, Enabled, LeasedNow, Honours;
    ClaimsGrow(b, p, a);
    StepKeepsInv(b, p, a);
    HonouredIsLeased(b, p, c);
    HonouredIsLeased(Apply(b, p, a), p, c);
    if !Honours(b, c) { LostClaimStaysLost(b, p, a, c); }
  }

  lemma {:induction false} LeaseStep(states: seq<Box>, actions: seq<Action>, p: Policy, i: nat, j: nat, c: Claim, until: int)
    requires RunBy(states, actions, p) && i < j < |actions| && c in states[j].claims && c.message in states[j].rows
    requires LeasedNow(states[j], c) <==> states[j].now < until && !ReportedBetween(actions, i, j, c)
    requires LeasedNow(states[j], c) ==> Leased(states[j].rows[c.message], c, until)
    ensures c in states[j + 1].claims && c.message in states[j + 1].rows
    ensures LeasedNow(states[j + 1], c) <==> states[j + 1].now < until && !ReportedBetween(actions, i, j + 1, c)
    ensures LeasedNow(states[j + 1], c) ==> Leased(states[j + 1].rows[c.message], c, until)
  {
    hide Inv, Law, Apply, Enabled, LeasedNow, IsReport, Leased;
    RunIsLawful(states, actions, p, j);
    assert StepBy(states, actions, p, j);
    var b, t, a := states[j], states[j + 1], actions[j];
    TimeRuns(b, p, a, t);
    LostOrStays(b, p, a, c);
    ClaimsHaveRows(states, actions, p, j + 1, c);
    assert IsReport(a, c) ==> ReportedBetween(actions, i, j + 1, c);
    assert ReportedBetween(actions, i, j, c) ==> ReportedBetween(actions, i, j + 1, c);
    if IsReport(a, c) {
      ReportEndsLease(b, p, a, t, c);
    } else if LeasedNow(b, c) {
      LeaseStays(b, p, a, t, c, until);
      LeasedMeans(t, c, until);
    }
  }

  lemma {:induction false} ClaimsHaveRows(states: seq<Box>, actions: seq<Action>, p: Policy, j: nat, c: Claim)
    requires RunBy(states, actions, p) && j < |states| && c in states[j].claims
    ensures c.message in states[j].rows
  {
    RunByIsRun(states, actions, p);
    RunKeepsInv(states, p, j);
    assert ClaimOk(states[j], c);
  }

  /**
   What a report comes to. Within the lease of its claim, and as its first report, an answer of the broker
   publishes the message, and an error sends it back to wait or, on its last attempt, to the dead letters;
   at any other time a report changes nothing at all.
   */
  lemma {:induction false} ReportOutcome(states: seq<Box>, actions: seq<Action>, p: Policy, i: nat, j: nat, c: Claim)
    requires RunBy(states, actions, p) && i < j < |actions| && IsReport(actions[j], c)
    requires actions[i].ClaimBatch? && c in states[i + 1].claims && c !in states[i].claims
    ensures c.message in states[j].rows && c.message in states[j + 1].rows
    ensures var s, t, r, u := states[j], states[j + 1], states[j].rows[c.message], states[j + 1].rows[c.message];
            if s.now < states[i].now + actions[i].ttl && !ReportedBetween(actions, i, j, c) then
              && r.attempts == c.attempts < p.maxAttempts && OnlyRow(s, c.message, t)
              && (actions[j].Published? ==> PublishedRow(r, s.now, u))
              && (actions[j].Failed? ==> FailedRow(r, p, s.now, actions[j].error, u))
            else t == s
  {
    hide Inv, Apply, Enabled, StepBy, LeasedNow, PublishedRow, FailedRow, OnlyRow, Honours;
    ClaimCountsForItsLease(states, actions, p, i, j, c);
    ClaimCountsForItsLease(states, actions, p, i, j + 1, c);
    RunIsLawful(states, actions, p, j);
    HonouredIsLeased(states[j], p, c);
  }

  predicate ClaimsMessage(a: Action, id: Id) {
    a.ClaimBatch? && id in a.batch
  }

  /** A message that waits for its retry keeps its row until it is claimed again. */
  lemma {:induction false} WaitingStep(b: Box, p: Policy, a: Action, t: Box, id: Id)
    requires Enabled(b, a) && Law(b, p, a, t) && id in b.rows && !ClaimsMessage(a, id)
    requires b.rows[id].publishedAt == None && b.rows[id].deadAt == None && b.rows[id].owner == None
    ensures id in t.rows && t.rows[id] == b.rows[id]
  {
    hide SelectsTheDue, ClaimedRow, PublishedRow, FailedRow, IsNewClaim, IsBatch;
  }

  lemma {:induction false} WaitsUnchanged(states: seq<Box>, actions: seq<Action>, p: Policy, k: nat, j: nat, id: Id)
    requires RunBy(states, actions, p) && k <= j < |states| && id in states[k].rows
    requires states[k].rows[id].publishedAt == None && states[k].rows[id].deadAt == None && states[k].rows[id].owner == None
    requires forall m | k <= m < j :: !ClaimsMessage(actions[m], id)
    ensures id in states[j].rows && states[j].rows[id] == states[k].rows[id]
    decreases j
  {
    hide Inv, Law, Apply, Enabled, StepBy;
    if k < j {
      WaitsUnchanged(states, actions, p, k, j - 1, id);
      RunIsLawful(states, actions, p, j - 1);
      WaitingStep(states[j - 1], p, actions[j - 1], states[j], id);
    }
  }

  /**
   The retry: a message whose claim failed within its lease with attempts to spare is undecided, no batch
   takes it before the doubled delay is over, and from then on every batch takes it that is not full, once
   the earlier messages of its task are published or dead.
   */
  lemma {:induction false} RetryComesWhenDue(states: seq<Box>, actions: seq<Action>, p: Policy, i: nat, k: nat, j: nat, c: Claim)
    requires RunBy(states, actions, p) && i < k < j < |actions|
    requires actions[i].ClaimBatch? && c in states[i + 1].claims && c !in states[i].claims
    requires actions[k].Failed? && actions[k].claim == c && !ReportedBetween(actions, i, k, c)
    requires states[k].now < states[i].now + actions[i].ttl && c.attempts + 1 < p.maxAttempts
    requires forall m | k < m < j :: !ClaimsMessage(actions[m], c.message)
    requires actions[j].ClaimBatch?
    ensures c.message in states[j].rows
    ensures var s := states[j]; var r := s.rows[c.message]; var due := states[k].now + Doubled(p.retryBase, p.retryMax, c.attempts);
            && r.publishedAt == None && r.deadAt == None && r.attempts == c.attempts + 1
            && (c.message in actions[j].batch ==> s.now >= due)
            && (s.now >= due
                && (forall o | o in s.rows && s.rows[o].task == r.task && s.rows[o].sequence < r.sequence ::
                      s.rows[o].publishedAt.Some? || s.rows[o].deadAt.Some?)
                && |actions[j].batch| < actions[j].limit ==>
                c.message in actions[j].batch)
  {
    ReportOutcome(states, actions, p, i, k, c);
    WaitsUnchanged(states, actions, p, k + 1, j, c.message);
    RunIsLawful(states, actions, p, j);
    hide Inv, Apply, Enabled, StepBy, RunBy, ClaimLaw, InOrder, Doubled;
  }

  // ---------- one publishing pass ----------

  function Elapsed(waits: seq<nat>, n: nat): nat
    requires n <= |waits|
  {
    if n == 0 then 0 else Elapsed(waits, n - 1) + waits[n - 1]
  }

  /** Where one message of a pass stands after the broker's answer: reported within the lease, or untouched. */
  predicate Answered(r: Row, p: Policy, accepted: bool, at: int, until: int, t: Row) {
    if at >= until then t == r
    else if accepted then PublishedRow(r, at, t)
    else FailedRow(r, p, at, "broker", t)
  }

  lemma {:induction false} AcceptedAnswer(b: Box, p: Policy, c: Claim, until: int)
    requires c.message in b.rows && Leased(b.rows[c.message], c, until)
    ensures var t := MarkPublished(b, c);
            && t.now == b.now && t.rows.Keys == b.rows.Keys
            && Answered(b.rows[c.message], p, true, b.now, until, t.rows[c.message])
            && (forall o | o in b.rows && o != c.message :: t.rows[o] == b.rows[o])
            && (Honours(b, c) <==> b.now < until)
  {
    hide FailedRow;
  }

  lemma {:induction false} RefusedAnswer(b: Box, p: Policy, c: Claim, until: int)
    requires c.message in b.rows && Leased(b.rows[c.message], c, until) && c.attempts < p.maxAttempts
    ensures var t := MarkFailed(b, p, c, "broker");
            && t.now == b.now && t.rows.Keys == b.rows.Keys
            && Answered(b.rows[c.message], p, false, b.now, until, t.rows[c.message])
            && (forall o | o in b.rows && o != c.message :: t.rows[o] == b.rows[o])
            && (FailureOf(b, p, c) == Fenced <==> b.now >= until)
  {
    DelayIsDoubled(p.retryBase, p.retryMax, if c.attempts < 16 then c.attempts else 16);
    DoubledStays(p.retryBase, p.retryMax, c.attempts);
    hide Doubled, CappedDelay;
  }

  lemma {:induction false} StepAnswers(s: Progress, p: Policy, c: Claim, accepted: bool, wait: nat, until: int)
    requires c.message in s.box.rows && Leased(s.box.rows[c.message], c, until) && c.attempts < p.maxAttempts
    ensures var t := PublishStep(s, p, c, accepted, wait);
            && t.box.now == s.box.now + wait && t.box.rows.Keys == s.box.rows.Keys
            && Answered(s.box.rows[c.message], p, accepted, s.box.now + wait, until, t.box.rows[c.message])
            && (forall o | o in s.box.rows && o != c.message :: t.box.rows[o] == s.box.rows[o])
            && t.result.fenced - s.result.fenced == (if s.box.now + wait >= until then 1 else 0)
  {
    hide Answered, MarkPublished, MarkFailed, Honours, FailureOf;
    var late := s.box.(now := s.box.now + wait);
    if accepted { AcceptedAnswer(late.(delivered := late.delivered + [c]), p, c, until); } else { RefusedAnswer(late, p, c, until); }
  }

  /** The members of a pass whose answer came after the lease. */
  function TooLate(now: int, waits: seq<nat>, k: nat, n: nat, until: int): nat
    requires k <= n <= |waits|
    decreases n - k
  {
    if k == n then 0
    else (if now + waits[k] >= until then 1 else 0) + TooLate(now + waits[k], waits, k + 1, n, until)
  }

  /**
   A publishing pass: each claimed message is published, retried or dead-lettered by its own answer if that came
   within the lease of the batch, and is left to the next claim if it came later; the fenced figure counts the latter.
   */
  lemma {:induction false} PassOutcome(s: Progress, p: Policy, messages: seq<Claim>, accepts: seq<bool>, waits: seq<nat>, k: nat, until: int)
    requires k <= |messages| <= |accepts| && |messages| <= |waits|
    requires forall i, j | 0 <= i < j < |messages| :: messages[i].message != messages[j].message
    requires forall i | k <= i < |messages| :: messages[i].message in s.box.rows && Leased(s.box.rows[messages[i].message], messages[i], until)
    requires forall i | k <= i < |messages| :: messages[i].attempts < p.maxAttempts
    ensures var e := PublishRest(s, p, messages, accepts, waits, k);
            && e.box.now == s.box.now + Elapsed(waits, |messages|) - Elapsed(waits, k)
            && e.box.rows.Keys == s.box.rows.Keys
            && (forall i | k <= i < |messages| ::
                  Answered(s.box.rows[messages[i].message], p, accepts[i], s.box.now + Elapsed(waits, i + 1) - Elapsed(waits, k), until,
                           e.box.rows[messages[i].message]))
            && (forall o | o in s.box.rows && (forall i | k <= i < |messages| :: messages[i].message != o) :: e.box.rows[o] == s.box.rows[o])
            && e.result.fenced - s.result.fenced == TooLate(s.box.now, waits, k, |messages|, until)
    decreases |messages| - k
  {
    hide Answered, Leased, PublishStep;
    if k < |messages| {
      var t := PublishStep(s, p, messages[k], accepts[k], waits[k]);
      StepAnswers(s, p, messages[k], accepts[k], waits[k], until);
      forall i | k < i < |messages| ensures messages[i].message != messages[k].message {}
      PassOutcome(t, p, messages, accepts, waits, k + 1, until);
    }
  }

  /** From the claim on: a pass of a publisher decides every due message it claimed, one answer each. */
  lemma {:induction false} PublishingOutcome(b: Box, p: Policy, owner: Id, ttl: nat, limit: nat, batch: seq<Id>, deliveries: seq<Id>,
                                             messages: seq<Claim>, accepts: seq<bool>, waits: seq<nat>)
    requires Inv(b, p) && Enabled(b, ClaimBatch(owner, ttl, limit, batch, deliveries))
    requires |messages| == |batch| <= |accepts| && |messages| <= |waits|
    requires forall k | 0 <= k < |batch| :: batch[k] in b.rows && messages[k] == ClaimOf(b, batch[k], owner, deliveries[k])
    ensures var claimed := Apply(b, p, ClaimBatch(owner, ttl, limit, batch, deliveries));
            var e := PublishRest(Progress(claimed, BatchResult(|messages|, 0, 0, 0, 0)), p, messages, accepts, waits, 0);
            && SelectsTheDue(b, batch, limit) && ClaimLaw(b, batch, owner, deliveries, ttl, claimed)
            && e.box.rows.Keys == claimed.rows.Keys == b.rows.Keys
            && (forall i | 0 <= i < |batch| ::
                  Answered(claimed.rows[batch[i]], p, accepts[i], b.now + Elapsed(waits, i + 1), b.now + ttl, e.box.rows[batch[i]]))
            && (forall o | o in b.rows && o !in batch :: e.box.rows[o] == b.rows[o])
            && e.result.fenced == TooLate(b.now, waits, 0, |batch|, b.now + ttl)
  {
    hide Inv, Apply, Enabled, SelectsTheDue, ClaimLaw, Answered, PublishRest, TooLate, Leased;
    var a := ClaimBatch(owner, ttl, limit, batch, deliveries);
    OperationIsLawful(b, p, a);
    var claimed := Apply(b, p, a);
    ClaimLawMeans(b, batch, owner, deliveries, ttl, claimed);
    PassStarts(b, p, batch, owner, deliveries, ttl, limit, claimed, messages);
    PassByBatch(claimed, p, batch, messages, accepts, waits, b.now + ttl);
  }

  /** The pass told by the batch. */
  lemma {:induction false} PassByBatch(b: Box, p: Policy, batch: seq<Id>, messages: seq<Claim>, accepts: seq<bool>, waits: seq<nat>, until: int)
    requires |messages| == |batch| <= |accepts| && |messages| <= |waits|
    requires forall k | 0 <= k < |batch| :: messages[k].message == batch[k]
    requires forall i, j | 0 <= i < j < |messages| :: messages[i].message != messages[j].message
    requires forall i | 0 <= i < |messages| ::
               messages[i].message in b.rows && Leased(b.rows[messages[i].message], messages[i], until) && messages[i].attempts < p.maxAttempts
    ensures var e := PublishRest(Progress(b, BatchResult(|messages|, 0, 0, 0, 0)), p, messages, accepts, waits, 0);
            && e.box.rows.Keys == b.rows.Keys
            && (forall i | 0 <= i < |batch| :: batch[i] in b.rows
                  && Answered(b.rows[batch[i]], p, accepts[i], b.now + Elapsed(waits, i + 1), until, e.box.rows[batch[i]]))
            && (forall o | o in b.rows && o !in batch :: e.box.rows[o] == b.rows[o])
            && e.result.fenced == TooLate(b.now, waits, 0, |batch|, until)
  {
    hide Answered, PublishRest, TooLate, Leased;
    var s := Progress(b, BatchResult(|messages|, 0, 0, 0, 0));
    PassOutcome(s, p, messages, accepts, waits, 0, until);
    var e := PublishRest(s, p, messages, accepts, waits, 0);
    forall i | 0 <= i < |batch|
      ensures batch[i] in b.rows && Answered(b.rows[batch[i]], p, accepts[i], b.now + Elapsed(waits, i + 1), until, e.box.rows[batch[i]])
    {
      assert messages[i].message == batch[i];
    }
  }

  lemma {:induction false} ClaimLawMeans(b: Box, batch: seq<Id>, owner: Id, deliveries: seq<Id>, ttl: nat, t: Box)
    requires ClaimLaw(b, batch, owner, deliveries, ttl, t)
    ensures t.rows.Keys == b.rows.Keys && t.now == b.now
    ensures forall o | o in b.rows && o !in batch :: t.rows[o] == b.rows[o]
  {
    hide ClaimedRow, IsNewClaim;
  }

  lemma {:induction false} PassStarts(b: Box, p: Policy, batch: seq<Id>, owner: Id, deliveries: seq<Id>, ttl: nat, limit: nat, t: Box, messages: seq<Claim>)
    requires Inv(b, p) && SelectsTheDue(b, batch, limit) && ClaimLaw(b, batch, owner, deliveries, ttl, t) && |messages| == |batch|
    requires forall k | 0 <= k < |batch| :: batch[k] in b.rows && messages[k] == ClaimOf(b, batch[k], owner, deliveries[k])
    ensures forall i, j | 0 <= i < j < |messages| :: messages[i].message != messages[j].message
    ensures forall i | 0 <= i < |messages| ::
              messages[i].message in t.rows && Leased(t.rows[messages[i].message], messages[i], b.now + ttl) && messages[i].attempts < p.maxAttempts
  {
    hide Inv, ClaimLaw, Leased;
    forall i | 0 <= i < |messages|
      ensures messages[i].message in t.rows && Leased(t.rows[messages[i].message], messages[i], b.now + ttl) && messages[i].attempts < p.maxAttempts
    {
      JustClaimed(b, p, batch, owner, deliveries, ttl, limit, t, i);
    }
  }

  lemma {:induction false} JustClaimed(b: Box, p: Policy, batch: seq<Id>, owner: Id, deliveries: seq<Id>, ttl: nat, limit: nat, t: Box, i: nat)
    requires Inv(b, p) && SelectsTheDue(b, batch, limit) && ClaimLaw(b, batch, owner, deliveries, ttl, t) && i < |batch|
    ensures batch[i] in b.rows && batch[i] in t.rows
    ensures var c := ClaimOf(b, batch[i], owner, deliveries[i]); Leased(t.rows[batch[i]], c, b.now + ttl) && c.attempts < p.maxAttempts
  {
    hide InOrder, IsNewClaim;
    assert batch[i] in batch && Due(b, batch[i]) && RowOk(b, p, batch[i]);
  }
}
