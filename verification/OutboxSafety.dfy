/**
 Delivery guarantees over whole runs: per-task order although publishers may be stale,
 bounded attempts, fenced claims, and one handler effect per consumer and message.
 */
module OutboxSafety {
  import opened Ordering
  import opened Outbox

  ghost predicate RowOk(b: Box, p: Policy, id: Id)
    requires id in b.rows
  {
    var r := b.rows[id];
    && !(r.publishedAt.Some? && r.deadAt.Some?)
    && (!Undecided(r) ==> r.owner == None)
    && (Undecided(r) ==> r.attempts < p.maxAttempts)
    && (r.deadAt.Some? ==> r.attempts == p.maxAttempts)
    && (r.publishedAt.Some? ==> WasDelivered(b, id))
  }

  /** The message is decided, or it was requeued since: after a delivery, or unsafely. */
  predicate Settled(b: Box, id: Id)
    requires id in b.rows
  {
    !Undecided(b.rows[id]) || (id in b.requeued && (id in b.unsafe || WasDelivered(b, id)))
  }

  ghost predicate PredecessorsSettled(b: Box, id: Id)
    requires id in b.rows
  {
    forall o | o in b.rows && Earlier(b.rows[o], b.rows[id]) :: Settled(b, o)
  }

  ghost predicate ClaimOk(b: Box, c: Claim) {
    && c.message in b.rows
    && 1 <= c.fence <= b.rows[c.message].fence
    && (c.fence == b.rows[c.message].fence && b.rows[c.message].owner.Some? ==>
          && b.rows[c.message].owner == Some(c.owner)
          && b.rows[c.message].delivery == Some(c.delivery)
          && b.rows[c.message].attempts == c.attempts)
    && PredecessorsSettled(b, c.message)
  }

  ghost predicate LogOk(b: Box, j: nat)
    requires j < |b.delivered|
  {
    && b.delivered[j] in b.claims
    && b.delivered[j].message in b.rows
    && (forall o | o in b.rows && Earlier(b.rows[o], b.rows[b.delivered[j].message]) && o !in b.unsafe ::
          b.rows[o].deadAt.Some? || DeliveredBefore(b.delivered, j, o))
  }

  ghost predicate InboxOk(b: Box) {
    && (forall r :: r in b.effects <==> r in b.receipts)
    && (forall i, j | 0 <= i < j < |b.effects| :: b.effects[i] != b.effects[j])
    && (forall r | r in b.receipts :: WasDelivered(b, r.message))
  }

  ghost predicate Inv(b: Box, p: Policy) {
    && p.maxAttempts >= 1
    && b.unsafe <= b.requeued <= b.rows.Keys
    && (forall id | id in b.rows :: RowOk(b, p, id))
    && (forall c | c in b.claims :: ClaimOk(b, c))
    && (forall c, d | c in b.claims && d in b.claims && c.message == d.message && c.fence == d.fence :: c == d)
    && (forall j | 0 <= j < |b.delivered| :: LogOk(b, j))
    && InboxOk(b)
  }

  // ---------- claiming ----------

  lemma {:induction false} ClaimOneKeepsInv(b: Box, p: Policy, id: Id, owner: Id, delivery: Id, ttl: nat)
    requires Inv(b, p) && id in b.rows && Undecided(b.rows[id]) && PredecessorsSettled(b, id)
    ensures Inv(ClaimOne(b, id, owner, delivery, ttl), p)
  {
    var t := ClaimOne(b, id, owner, delivery, ttl);
    forall o | o in t.rows ensures RowOk(t, p, o) { assert RowOk(b, p, o); }
    forall c | c in t.claims ensures ClaimOk(t, c) {
      if c in b.claims { assert ClaimOk(b, c); }
    }
    forall c, d | c in t.claims && d in t.claims && c.message == d.message && c.fence == d.fence ensures c == d {
      if c in b.claims { assert ClaimOk(b, c); }
      if d in b.claims { assert ClaimOk(b, d); }
    }
    forall j | 0 <= j < |t.delivered| ensures LogOk(t, j) { assert LogOk(b, j); }
  }

  /** A candidate stays claimable in its turn: claiming others changes no decision. */
  ghost predicate Ready(b: Box, batch: seq<Id>) {
    && (forall id | id in batch :: id in b.rows && Undecided(b.rows[id]) && PredecessorsSettled(b, id))
  }

  lemma {:induction false} ClaimAllKeepsInv(b: Box, p: Policy, batch: seq<Id>, owner: Id, deliveries: seq<Id>, ttl: nat)
    requires Inv(b, p) && |deliveries| == |batch| && Ready(b, batch)
    ensures Inv(ClaimAll(b, batch, owner, deliveries, ttl), p)
    decreases |batch|
  {
    if batch != [] {
      assert batch[0] in batch;
      ClaimOneKeepsInv(b, p, batch[0], owner, deliveries[0], ttl);
      hide Inv;
      ClaimAllKeepsInv(ClaimOne(b, batch[0], owner, deliveries[0], ttl), p, batch[1..], owner, deliveries[1..], ttl);
    }
  }

  lemma {:induction false} CandidatesAreReady(b: Box, p: Policy, batch: seq<Id>, limit: nat)
    requires Inv(b, p) && IsBatch(b, batch, limit)
    ensures Ready(b, batch)
  {
    forall id | id in batch ensures id in b.rows && Undecided(b.rows[id]) && PredecessorsSettled(b, id) {
      assert id in Candidates(b.rows, b.now);
    }
  }

  // ---------- the other steps ----------

  lemma {:induction false} EnqueueKeepsInv(b: Box, p: Policy, id: Id, task: Id, sequence: nat)
    requires Inv(b, p) && Enabled(b, Enqueue(id, task, sequence))
    ensures Inv(AddRow(b, id, task, sequence), p)
  {
    var t := AddRow(b, id, task, sequence);
    forall o | o in t.rows ensures RowOk(t, p, o) { if o != id { assert RowOk(b, p, o); } }
    forall c | c in t.claims ensures ClaimOk(t, c) { assert ClaimOk(b, c); }
    forall j | 0 <= j < |t.delivered| ensures LogOk(t, j) { assert LogOk(b, j); }
  }

  lemma {:induction false} DeliverKeepsInv(b: Box, p: Policy, c: Claim)
    requires Inv(b, p) && c in b.claims
    ensures Inv(b.(delivered := b.delivered + [c]), p)
  {
    var t := b.(delivered := b.delivered + [c]);
    var n := |b.delivered|;
    assert forall k | 0 <= k < n :: t.delivered[k] == b.delivered[k];
    forall o ensures WasDelivered(b, o) ==> WasDelivered(t, o) {
      if k :| 0 <= k < n && b.delivered[k].message == o { assert t.delivered[k].message == o; }
    }
    forall o | o in t.rows ensures RowOk(t, p, o) { assert RowOk(b, p, o); }
    forall d | d in t.claims ensures ClaimOk(t, d) { assert ClaimOk(b, d); }
    forall j | 0 <= j < |t.delivered| ensures LogOk(t, j) {
      if j < n {
        assert LogOk(b, j);
        forall o | DeliveredBefore(b.delivered, j, o) ensures DeliveredBefore(t.delivered, j, o) {
          var i :| 0 <= i < j && b.delivered[i].message == o;
          assert t.delivered[i].message == o;
        }
      } else {
        assert ClaimOk(b, c);
        forall o | o in b.rows && Earlier(b.rows[o], b.rows[c.message]) && o !in b.unsafe && b.rows[o].deadAt == None
          ensures DeliveredBefore(t.delivered, j, o)
        {
          assert Settled(b, o);
          assert RowOk(b, p, o);
          var k :| 0 <= k < n && b.delivered[k].message == o;
          assert t.delivered[k].message == o;
        }
      }
    }
  }

  /** A report on one undecided row, which keeps its place and its fence. */
  ghost predicate RowStep(b: Box, t: Box, id: Id) {
    && id in b.rows && id in t.rows && Undecided(b.rows[id])
    && t == b.(rows := b.rows[id := t.rows[id]])
    && t.rows[id].task == b.rows[id].task && t.rows[id].sequence == b.rows[id].sequence
    && t.rows[id].fence == b.rows[id].fence
    && t.rows[id].owner == None
  }

  lemma {:induction false} RowStepKeepsInv(b: Box, t: Box, p: Policy, id: Id)
    requires Inv(b, p) && RowStep(b, t, id) && RowOk(t, p, id)
    ensures Inv(t, p)
  {
    forall o | o in t.rows ensures RowOk(t, p, o) { assert RowOk(b, p, o); }
    forall c | c in t.claims ensures ClaimOk(t, c) { assert ClaimOk(b, c); }
    forall j | 0 <= j < |t.delivered| ensures LogOk(t, j) { assert LogOk(b, j); }
  }

  lemma {:induction false} PublishedKeepsInv(b: Box, p: Policy, c: Claim)
    requires Inv(b, p) && c in b.delivered
    ensures Inv(MarkPublished(b, c), p)
  {
    if Honours(b, c) {
      assert RowOk(b, p, c.message);
      var k :| 0 <= k < |b.delivered| && b.delivered[k] == c;
      assert b.delivered[k].message == c.message;
      assert RowOk(MarkPublished(b, c), p, c.message);
      RowStepKeepsInv(b, MarkPublished(b, c), p, c.message);
    }
  }

  lemma {:induction false} FailedKeepsInv(b: Box, p: Policy, c: Claim, error: string)
    requires Inv(b, p) && c in b.claims
    ensures Inv(MarkFailed(b, p, c, error), p)
  {
    if FailureOf(b, p, c) != Fenced {
      assert RowOk(b, p, c.message) && ClaimOk(b, c);
      assert RowOk(MarkFailed(b, p, c, error), p, c.message);
      RowStepKeepsInv(b, MarkFailed(b, p, c, error), p, c.message);
    }
  }

  lemma {:induction false} RequeueKeepsClaim(b: Box, id: Id, c: Claim)
    requires Requeueable(b, id) && c in b.claims && ClaimOk(b, c)
    ensures ClaimOk(Requeue(b, id), c)
  {
    var t := Requeue(b, id);
    forall o | o in t.rows && Earlier(t.rows[o], t.rows[c.message]) ensures Settled(t, o) {
      assert Later(b, c.message, o) && Settled(b, o);
    }
  }

  lemma {:induction false} RequeueKeepsLog(b: Box, id: Id, j: nat)
    requires Requeueable(b, id) && j < |b.delivered| && LogOk(b, j)
    ensures LogOk(Requeue(b, id), j)
  {
    var t := Requeue(b, id);
    forall o | o in t.rows && Earlier(t.rows[o], t.rows[b.delivered[j].message]) && o !in t.unsafe
      ensures t.rows[o].deadAt.Some? || DeliveredBefore(t.delivered, j, o)
    {
      assert Later(b, b.delivered[j].message, o);
    }
  }

  lemma {:induction false} RequeueKeepsInv(b: Box, p: Policy, id: Id)
    requires Inv(b, p)
    ensures Inv(Requeue(b, id), p)
  {
    if Requeueable(b, id) {
      var t := Requeue(b, id);
      forall o | o in t.rows ensures RowOk(t, p, o) { assert RowOk(b, p, o); }
      forall c | c in t.claims ensures ClaimOk(t, c) { RequeueKeepsClaim(b, id, c); }
      forall j | 0 <= j < |t.delivered| ensures LogOk(t, j) { RequeueKeepsLog(b, id, j); }
    }
  }

  lemma {:induction false} ConsumeKeepsInv(b: Box, p: Policy, r: Receipt)
    requires Inv(b, p) && WasDelivered(b, r.message)
    ensures Inv(Consume(b, r), p)
  {
    var t := Consume(b, r);
    if r !in b.receipts {
      forall o | o in t.rows ensures RowOk(t, p, o) { assert RowOk(b, p, o); }
      forall c | c in t.claims ensures ClaimOk(t, c) { assert ClaimOk(b, c); }
      forall j | 0 <= j < |t.delivered| ensures LogOk(t, j) { assert LogOk(b, j); }
      forall x | x in t.receipts ensures WasDelivered(t, x.message) { assert WasDelivered(b, x.message); }
      assert r !in b.effects;
    }
  }

  lemma {:induction false} AdvanceKeepsInv(b: Box, p: Policy, seconds: nat)
    requires Inv(b, p)
    ensures Inv(b.(now := b.now + seconds), p)
  {
    var t := b.(now := b.now + seconds);
    forall o | o in t.rows ensures RowOk(t, p, o) { assert RowOk(b, p, o); }
    forall c | c in t.claims ensures ClaimOk(t, c) { assert ClaimOk(b, c); }
    forall j | 0 <= j < |t.delivered| ensures LogOk(t, j) { assert LogOk(b, j); }
  }

  lemma {:induction false} StepKeepsInv(b: Box, p: Policy, a: Action)
    requires Inv(b, p) && Enabled(b, a)
    ensures Inv(Apply(b, p, a), p)
  {
    match a
    case Advance(seconds) => AdvanceKeepsInv(b, p, seconds);
    case Enqueue(id, task, sequence) => EnqueueKeepsInv(b, p, id, task, sequence);
    case ClaimBatch(owner, ttl, limit, batch, deliveries) =>
      CandidatesAreReady(b, p, batch, limit);
      ClaimAllKeepsInv(b, p, batch, owner, deliveries, ttl);
    case Deliver(c) => DeliverKeepsInv(b, p, c);
    case Published(c) => PublishedKeepsInv(b, p, c);
    case Failed(c, error) => FailedKeepsInv(b, p, c, error);
    case RequeueDead(id) => RequeueKeepsInv(b, p, id);
    case Handle(r) => ConsumeKeepsInv(b, p, r);
  }

  // ---------- runs ----------

  ghost predicate Step(b: Box, p: Policy, t: Box) {
    exists a :: Enabled(b, a) && t == Apply(b, p, a)
  }

  ghost predicate Run(states: seq<Box>, p: Policy) {
    && |states| > 0 && p.maxAttempts >= 1
    && (exists now :: states[0] == Initial(now))
    && (forall i | 0 <= i < |states| - 1 :: Step(states[i], p, states[i + 1]))
  }

  lemma {:induction false} RunKeepsInv(states: seq<Box>, p: Policy, n: nat)
    requires Run(states, p) && n < |states|
    ensures Inv(states[n], p)
  {
    if n > 0 {
      RunKeepsInv(states, p, n - 1);
      assert Step(states[n - 1], p, states[n - 1 + 1]);
      var a :| Enabled(states[n - 1], a) && states[n] == Apply(states[n - 1], p, a);
      hide Inv, Apply;
      StepKeepsInv(states[n - 1], p, a);
    }
  }

  /**
   Head of line: whoever holds a claim on a message, however old, every earlier message of its
   task is published or dead-lettered, unless it was requeued since, after a delivery or unsafely.
   */
  lemma {:induction false} ClaimedAfterPredecessors(states: seq<Box>, p: Policy, n: nat, c: Claim, earlier: Id)
    requires Run(states, p) && n < |states| && c in states[n].claims
    requires earlier in states[n].rows && c.message in states[n].rows
    requires Earlier(states[n].rows[earlier], states[n].rows[c.message])
    ensures Undecided(states[n].rows[earlier]) ==>
              earlier in states[n].requeued && (earlier in states[n].unsafe || WasDelivered(states[n], earlier))
  {
    RunKeepsInv(states, p, n);
    assert ClaimOk(states[n], c) && Settled(states[n], earlier);
  }

  /**
   Order despite stale publishers: when a message is published and its latest requeue, if it had
   any, was not unsafe, no delivery of a later message of its task precedes its first delivery.
   */
  lemma {:induction false} FirstDeliveriesInOrder(states: seq<Box>, p: Policy, n: nat, earlier: Id, later: Id, j: nat)
    requires Run(states, p) && n < |states|
    requires earlier in states[n].rows && later in states[n].rows
    requires Earlier(states[n].rows[earlier], states[n].rows[later])
    requires states[n].rows[earlier].publishedAt.Some? && earlier !in states[n].unsafe
    requires j < |states[n].delivered| && states[n].delivered[j].message == later
    ensures DeliveredBefore(states[n].delivered, j, earlier)
  {
    RunKeepsInv(states, p, n);
    assert LogOk(states[n], j) && RowOk(states[n], p, earlier);
  }

  /** Only a requeue puts the order at risk. */
  lemma {:induction false} UnsafeWereRequeued(states: seq<Box>, p: Policy, n: nat)
    requires Run(states, p) && n < |states|
    ensures states[n].unsafe <= states[n].requeued <= states[n].rows.Keys
  {
    RunKeepsInv(states, p, n);
  }

  /** A row is never both published and dead; a dead one has used up its attempts, and one that is neither has some to spare. */
  lemma {:induction false} DecisionsAreExclusive(states: seq<Box>, p: Policy, n: nat, id: Id)
    requires Run(states, p) && n < |states| && id in states[n].rows
    ensures var r := states[n].rows[id];
            && !(r.publishedAt.Some? && r.deadAt.Some?)
            && (r.publishedAt == None && r.deadAt == None ==> r.attempts < p.maxAttempts)
            && (r.deadAt.Some? ==> r.attempts == p.maxAttempts)
            && (r.publishedAt.Some? ==> WasDelivered(states[n], id))
  {
    RunKeepsInv(states, p, n);
    assert RowOk(states[n], p, id);
  }

  /** At most one claim on a message is honoured at a time. */
  lemma {:induction false} OneHonouredClaim(states: seq<Box>, p: Policy, n: nat, c: Claim, d: Claim)
    requires Run(states, p) && n < |states|
    requires c in states[n].claims && d in states[n].claims && c.message == d.message
    requires Honours(states[n], c) && Honours(states[n], d)
    ensures c == d
  {
    RunKeepsInv(states, p, n);
  }

  lemma {:induction false} ClaimAllFences(b: Box, batch: seq<Id>, owner: Id, deliveries: seq<Id>, ttl: nat, c: Claim)
    requires |deliveries| == |batch| && forall id | id in batch :: id in b.rows
    requires c.message in b.rows && c.fence <= b.rows[c.message].fence
    ensures var t := ClaimAll(b, batch, owner, deliveries, ttl);
            && t.now == b.now && c.message in t.rows
            && (t.rows[c.message] == b.rows[c.message] || c.fence < t.rows[c.message].fence)
    decreases |batch|
  {
    if batch != [] {
      assert batch[0] in batch;
      ClaimAllFences(ClaimOne(b, batch[0], owner, deliveries[0], ttl), batch[1..], owner, deliveries[1..], ttl, c);
    }
  }

  lemma {:induction false} LostClaimStaysLost(b: Box, p: Policy, a: Action, c: Claim)
    requires Inv(b, p) && Enabled(b, a) && c in b.claims && !Honours(b, c)
    ensures !Honours(Apply(b, p, a), c)
  {
    assert ClaimOk(b, c);
    if a.ClaimBatch? {
      BatchIsStored(b, a.batch, a.limit);
      ClaimAllFences(b, a.batch, a.owner, a.deliveries, a.ttl, c);
    }
  }

  lemma {:induction false} ClaimAllGrows(b: Box, batch: seq<Id>, owner: Id, deliveries: seq<Id>, ttl: nat)
    requires |deliveries| == |batch| && forall id | id in batch :: id in b.rows
    ensures var t := ClaimAll(b, batch, owner, deliveries, ttl);
            b.claims <= t.claims && t == b.(rows := t.rows, claims := t.claims) && t.rows.Keys == b.rows.Keys
    decreases |batch|
  {
    if batch != [] {
      assert batch[0] in batch;
      ClaimAllGrows(ClaimOne(b, batch[0], owner, deliveries[0], ttl), batch[1..], owner, deliveries[1..], ttl);
    }
  }

  lemma {:induction false} ClaimsGrow(b: Box, p: Policy, a: Action)
    requires Enabled(b, a)
    ensures b.claims <= Apply(b, p, a).claims
  {
    if a.ClaimBatch? {
      BatchIsStored(b, a.batch, a.limit);
      ClaimAllGrows(b, a.batch, a.owner, a.deliveries, a.ttl);
    }
  }

  /** A claim that lost its lease, its fence or its delivery is never honoured again in the rest of the run. */
  lemma {:induction false} LostClaimForever(states: seq<Box>, p: Policy, i: nat, j: nat, c: Claim)
    requires Run(states, p) && i <= j < |states|
    requires c in states[i].claims && !Honours(states[i], c)
    ensures c in states[j].claims && !Honours(states[j], c)
    decreases j
  {
    hide Inv, Enabled, Apply, Honours;
    if i < j {
      LostClaimForever(states, p, i, j - 1, c);
      RunKeepsInv(states, p, j - 1);
      assert Step(states[j - 1], p, states[j - 1 + 1]);
      var a :| Enabled(states[j - 1], a) && states[j] == Apply(states[j - 1], p, a);
      LostClaimStaysLost(states[j - 1], p, a, c);
      ClaimsGrow(states[j - 1], p, a);
    }
  }

  // ---------- the consumer ----------

  function Effects(log: seq<Receipt>, r: Receipt): nat {
    multiset(log)[r]
  }

  lemma {:induction false} DistinctMultiplicity(log: seq<Receipt>, r: Receipt)
    requires forall i, j | 0 <= i < j < |log| :: log[i] != log[j]
    ensures Effects(log, r) == if r in log then 1 else 0
  {
    if log != [] {
      var last := |log| - 1;
      assert log == log[..last] + [log[last]];
      DistinctMultiplicity(log[..last], r);
      assert r in log <==> r in log[..last] || r == log[last];
      assert log[last] !in log[..last];
    }
  }

  /**
   Exactly-once effect: under unlimited redelivery, crashes and competing publishers the handler
   commits at most once per consumer and message, exactly once when its receipt is there, and
   only for a message the broker was given.
   */
  lemma {:induction false} ExactlyOnceEffect(states: seq<Box>, p: Policy, n: nat, r: Receipt)
    requires Run(states, p) && n < |states|
    ensures Effects(states[n].effects, r) == if r in states[n].receipts then 1 else 0
    ensures r in states[n].receipts ==> WasDelivered(states[n], r.message)
  {
    RunKeepsInv(states, p, n);
    DistinctMultiplicity(states[n].effects, r);
  }

  /** After any consumption that returns, the effect has happened exactly once. */
  lemma {:induction false} ConsumedOnce(states: seq<Box>, p: Policy, n: nat, r: Receipt)
    requires Run(states, p) && n < |states| && WasDelivered(states[n], r.message)
    ensures Effects(Apply(states[n], p, Handle(r)).effects, r) == 1
  {
    RunKeepsInv(states, p, n);
    StepKeepsInv(states[n], p, Handle(r));
    DistinctMultiplicity(Apply(states[n], p, Handle(r)).effects, r);
  }

  lemma {:induction false} ReceiptsGrow(states: seq<Box>, p: Policy, i: nat, j: nat)
    requires Run(states, p) && i <= j < |states|
    ensures states[i].receipts <= states[j].receipts
    decreases j
  {
    hide Enabled, Apply;
    if i < j {
      ReceiptsGrow(states, p, i, j - 1);
      assert Step(states[j - 1], p, states[j - 1 + 1]);
      var a :| Enabled(states[j - 1], a) && states[j] == Apply(states[j - 1], p, a);
      StepKeepsReceipts(states[j - 1], p, a);
    }
  }

  lemma {:induction false} StepKeepsReceipts(b: Box, p: Policy, a: Action)
    requires Enabled(b, a)
    ensures b.receipts <= Apply(b, p, a).receipts
  {
    if a.ClaimBatch? {
      BatchIsStored(b, a.batch, a.limit);
      ClaimAllGrows(b, a.batch, a.owner, a.deliveries, a.ttl);
    }
  }

}
