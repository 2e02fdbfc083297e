/**
 The durable outbox and the deduplicating inbox: messages claimed under a lease and a
 fence, delivered at least once, retried, dead-lettered and requeued, and consumed at most
 once per consumer.

 Each transaction is one atomic step on a `Box`. Any publisher may deliver a claim it was
 ever handed, however late, and the broker may redeliver anything it was ever given. The
 last five fields are records kept for the proofs: `unsafe` holds the messages whose latest
 requeue was made when a later message of their task could already be ahead of them.
 */
module Outbox {
  import opened Backoff
  import opened Ordering

  datatype Row = Row(task: Id, sequence: nat, createdAt: int, attempts: nat, availableAt: int,
                     publishedAt: Option<int>, deadAt: Option<int>, deadReason: Option<string>, lastError: Option<string>,
                     owner: Option<Id>, acquiredAt: Option<int>, expiresAt: Option<int>, fence: nat,
                     delivery: Option<Id>, attemptedAt: Option<int>)

  /** What a publisher holds after a claim. */
  datatype Claim = Claim(message: Id, owner: Id, attempts: nat, fence: nat, delivery: Id)

  datatype Policy = Policy(maxAttempts: nat, retryBase: nat, retryMax: nat)

  datatype Receipt = Receipt(consumer: Id, message: Id)

  datatype Box = Box(now: int, rows: map<Id, Row>, receipts: set<Receipt>,
                     claims: set<Claim>, delivered: seq<Claim>, requeued: set<Id>, unsafe: set<Id>, effects: seq<Receipt>)

  function Initial(now: int): Box {
    Box(now, map[], {}, {}, [], {}, {}, [])
  }

  predicate Undecided(r: Row) {
    r.publishedAt == None && r.deadAt == None
  }

  /** The WHERE clause shared by the candidate query and the guarded update. */
  predicate Claimable(r: Row, now: int) {
    && Undecided(r)
    && r.availableAt <= now
    && (r.owner == None || r.expiresAt == None || r.expiresAt.value <= now)
  }

  predicate Earlier(a: Row, b: Row) {
    a.task == b.task && a.sequence < b.sequence
  }

  /** Only the first undecided message of a task may be claimed. */
  predicate IsHead(rows: map<Id, Row>, id: Id)
    requires id in rows
  {
    forall o | o in rows && Earlier(rows[o], rows[id]) :: !Undecided(rows[o])
  }

  function Candidates(rows: map<Id, Row>, now: int): set<Id> {
    set id | id in rows && Claimable(rows[id], now) && IsHead(rows, id)
  }

  /** ORDER BY created_at, task_id, event_seq over the candidates. */
  function ClaimKeys(rows: map<Id, Row>, now: int): map<Id, Key> {
    map id | id in Candidates(rows, now) :: Key(rows[id].createdAt, rows[id].task, rows[id].sequence)
  }

  /** The claimed batch: the first `limit` candidates in claim order. */
  ghost predicate IsBatch(b: Box, batch: seq<Id>, limit: nat) {
    IsFirst(ClaimKeys(b.rows, b.now), batch, limit)
  }

  function ClaimRow(r: Row, owner: Id, delivery: Id, now: int, ttl: nat): Row {
    r.(owner := Some(owner), acquiredAt := Some(now), expiresAt := Some(now + ttl), fence := r.fence + 1,
       delivery := Some(delivery), attemptedAt := Some(now))
  }

  function ClaimOf(b: Box, id: Id, owner: Id, delivery: Id): Claim
    requires id in b.rows
  {
    Claim(id, owner, b.rows[id].attempts, b.rows[id].fence + 1, delivery)
  }

  function ClaimOne(b: Box, id: Id, owner: Id, delivery: Id, ttl: nat): Box
    requires id in b.rows
  {
    b.(rows := b.rows[id := ClaimRow(b.rows[id], owner, delivery, b.now, ttl)],
       claims := b.claims + {ClaimOf(b, id, owner, delivery)})
  }

  /** The claims of one transaction, in order; each batch member gets its own delivery identifier. */
  function ClaimAll(b: Box, batch: seq<Id>, owner: Id, deliveries: seq<Id>, ttl: nat): Box
    requires |deliveries| == |batch| && forall id | id in batch :: id in b.rows
    decreases |batch|
  {
    if batch == [] then b
    else ClaimAll(ClaimOne(b, batch[0], owner, deliveries[0], ttl), batch[1..], owner, deliveries[1..], ttl)
  }

  /** A claim is honoured while its row carries its owner, fence and delivery and its lease runs. */
  predicate Honours(b: Box, c: Claim) {
    && c.message in b.rows
    && var r := b.rows[c.message];
       && r.publishedAt == None
       && r.owner == Some(c.owner)
       && r.fence == c.fence
       && r.delivery == Some(c.delivery)
       && r.expiresAt.Some? && r.expiresAt.value > b.now
  }

  function MarkPublished(b: Box, c: Claim): Box {
    if !Honours(b, c) then b
    else
      var r := b.rows[c.message];
      b.(rows := b.rows[c.message := r.(attempts := r.attempts + 1, publishedAt := Some(b.now), lastError := None,
                                        owner := None, acquiredAt := None, expiresAt := None)])
  }

  function RetryDelay(p: Policy, attempts: nat): nat {
    CappedDelay(p.retryBase, p.retryMax, if attempts < 16 then attempts else 16)
  }

  datatype Failure = Retry | DeadLettered | Fenced

  function FailureOf(b: Box, p: Policy, c: Claim): Failure {
    if !Honours(b, c) || b.rows[c.message].deadAt != None then Fenced
    else if c.attempts + 1 >= p.maxAttempts then DeadLettered
    else Retry
  }

  function MarkFailed(b: Box, p: Policy, c: Claim, error: string): Box {
    var outcome := FailureOf(b, p, c);
    if outcome == Fenced then b
    else
      var r := b.rows[c.message].(attempts := c.attempts + 1, lastError := Some(error),
                                  owner := None, acquiredAt := None, expiresAt := None);
      if outcome == DeadLettered then
        b.(rows := b.rows[c.message := r.(availableAt := b.now, deadAt := Some(b.now), deadReason := Some(error))])
      else
        b.(rows := b.rows[c.message := r.(availableAt := b.now + RetryDelay(p, c.attempts), deadAt := None, deadReason := None)])
  }

  predicate Requeueable(b: Box, id: Id) {
    id in b.rows && b.rows[id].publishedAt == None && b.rows[id].deadAt != None
  }

  function RequeuedRow(r: Row, now: int): Row {
    r.(attempts := 0, availableAt := now, lastError := None, deadAt := None, deadReason := None,
       delivery := None, attemptedAt := None, owner := None, acquiredAt := None, expiresAt := None, fence := r.fence + 1)
  }

  predicate WasDelivered(b: Box, id: Id) {
    exists k :: 0 <= k < |b.delivered| && b.delivered[k].message == id
  }

  predicate DeliveredBefore(log: seq<Claim>, j: nat, id: Id) {
    exists i :: 0 <= i < j && i < |log| && log[i].message == id
  }

  predicate Later(b: Box, later: Id, id: Id) {
    later in b.rows && id in b.rows && Earlier(b.rows[id], b.rows[later])
  }

  /** Some delivery of a later message of the task precedes every delivery of this one. */
  predicate Overtaken(b: Box, id: Id) {
    exists j :: 0 <= j < |b.delivered| && Later(b, b.delivered[j].message, id) && !DeliveredBefore(b.delivered, j, id)
  }

  /** The message was never delivered and someone was handed a claim on a later message of its task. */
  predicate CanBeOvertaken(b: Box, id: Id) {
    !WasDelivered(b, id) && exists c :: c in b.claims && Later(b, c.message, id)
  }

  /** What an operator can look up before requeueing a dead letter. */
  predicate Unsafe(b: Box, id: Id) {
    Overtaken(b, id) || CanBeOvertaken(b, id)
  }

  function Requeue(b: Box, id: Id): Box {
    if !Requeueable(b, id) then b
    else b.(rows := b.rows[id := RequeuedRow(b.rows[id], b.now)], requeued := b.requeued + {id},
            unsafe := if Unsafe(b, id) then b.unsafe + {id} else b.unsafe - {id})
  }

  function AddRow(b: Box, id: Id, task: Id, sequence: nat): Box {
    b.(rows := b.rows[id := Row(task, sequence, b.now, 0, b.now, None, None, None, None, None, None, None, 0, None, None)])
  }

  /** One consumer transaction: the receipt and the handler's effect commit together, unless the receipt is there. */
  function Consume(b: Box, r: Receipt): Box {
    if r in b.receipts then b
    else b.(receipts := b.receipts + {r}, effects := b.effects + [r])
  }

  datatype BatchResult = BatchResult(attempted: nat, published: nat, failed: nat, fenced: nat, deadLettered: nat)

  datatype Progress = Progress(box: Box, result: BatchResult)

  /** One claimed message offered to the broker: its answer takes `wait` seconds and is then reported. */
  function PublishStep(s: Progress, p: Policy, c: Claim, accepted: bool, wait: nat): Progress {
    var late := s.box.(now := s.box.now + wait);
    if accepted then
      var sent := late.(delivered := late.delivered + [c]);
      Progress(MarkPublished(sent, c),
               if Honours(sent, c) then s.result.(published := s.result.published + 1) else s.result.(fenced := s.result.fenced + 1))
    else
      Progress(MarkFailed(late, p, c, "broker"),
               match FailureOf(late, p, c)
               case Retry => s.result.(failed := s.result.failed + 1)
               case DeadLettered => s.result.(deadLettered := s.result.deadLettered + 1)
               case Fenced => s.result.(fenced := s.result.fenced + 1))
  }

  function PublishRest(s: Progress, p: Policy, messages: seq<Claim>, accepts: seq<bool>, waits: seq<nat>, k: nat): Progress
    requires k <= |messages| <= |accepts| && |messages| <= |waits|
    decreases |messages| - k
  {
    if k == |messages| then s
    else PublishRest(PublishStep(s, p, messages[k], accepts[k], waits[k]), p, messages, accepts, waits, k + 1)
  }

  function PublishedIds(b: Box): set<Id> {
    set id | id in b.rows && b.rows[id].publishedAt.Some?
  }

  function DeadIds(b: Box): set<Id> {
    set id | id in b.rows && b.rows[id].deadAt.Some?
  }

  datatype Action =
    | Advance(seconds: nat)
    | Enqueue(id: Id, task: Id, sequence: nat)
    | ClaimBatch(owner: Id, ttl: nat, limit: nat, batch: seq<Id>, deliveries: seq<Id>)
    | Deliver(claim: Claim)
    | Published(claim: Claim)
    | Failed(claim: Claim, error: string)
    | RequeueDead(id: Id)
    | Handle(receipt: Receipt)

  /**
   A message is written with the next sequence of its task; a claim takes the first
   candidates under fresh delivery identifiers; a claim is reported published only after the
   broker took it; a consumer only sees what the broker was given.
   */
  ghost predicate Enabled(b: Box, a: Action) {
    match a
    case Advance(_) => true
    case Enqueue(id, task, sequence) =>
      id !in b.rows && forall o | o in b.rows && b.rows[o].task == task :: b.rows[o].sequence < sequence
    case ClaimBatch(owner, ttl, limit, batch, deliveries) => |deliveries| == |batch| && IsBatch(b, batch, limit)
    case Deliver(c) => c in b.claims
    case Published(c) => c in b.delivered
    case Failed(c, _) => c in b.claims
    case RequeueDead(_) => true
    case Handle(r) => WasDelivered(b, r.message)
  }

  lemma {:induction false} BatchIsStored(b: Box, batch: seq<Id>, limit: nat)
    requires IsBatch(b, batch, limit)
    ensures forall id | id in batch :: id in b.rows && id in Candidates(b.rows, b.now)
    ensures forall i, j | 0 <= i < j < |batch| :: batch[i] != batch[j]
  {
  }

  ghost function Apply(b: Box, p: Policy, a: Action): Box
    requires Enabled(b, a)
  {
    match a
    case Advance(seconds) => b.(now := b.now + seconds)
    case Enqueue(id, task, sequence) => AddRow(b, id, task, sequence)
    case ClaimBatch(owner, ttl, limit, batch, deliveries) =>
      BatchIsStored(b, batch, limit);
      ClaimAll(b, batch, owner, deliveries, ttl)
    case Deliver(c) => b.(delivered := b.delivered + [c])
    case Published(c) => MarkPublished(b, c)
    case Failed(c, error) => MarkFailed(b, p, c, error)
    case RequeueDead(id) => Requeue(b, id)
    case Handle(r) => Consume(b, r)
  }
}
