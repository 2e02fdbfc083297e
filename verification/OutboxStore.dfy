/**
 The outbox and inbox as their transactions run them: guarded row updates for claims and
 reports, two independent requeue operations, and the consumer's lookup-then-insert.
 */
module OutboxStore {
  import opened Ordering
  import opened Outbox
  import opened OutboxSafety
  import O = OutboxOutcomes

  /** How the handler ends: it returns, it raises, or it raises the store's constraint error. */
  datatype Handling = Handled | Raises | Violates

  datatype ConsumeResult = ConsumeResult(processed: bool, duplicate: bool)

  class MessageStore {
    const policy: Policy
    var now: int
    var rows: map<Id, Row>
    var receipts: set<Receipt>
    ghost var claims: set<Claim>
    ghost var delivered: seq<Claim>
    ghost var requeued: set<Id>
    ghost var unsafe: set<Id>
    ghost var effects: seq<Receipt>

    ghost function View(): Box
      reads this
    {
      Box(now, rows, receipts, claims, delivered, requeued, unsafe, effects)
    }

    ghost predicate Valid()
      reads this
    {
      Inv(View(), policy)
    }

    constructor (p: Policy, start: int)
      requires p.maxAttempts >= 1
      ensures Valid() && View() == Initial(start) && policy == p
    {
      policy := p;
      now, rows, receipts := start, map[], {};
      claims, delivered, requeued, unsafe, effects := {}, [], {}, {}, [];
    }

    method Advance(seconds: nat)
      requires Valid()
      modifies this
      ensures Valid() && View() == Apply(old(View()), policy, Action.Advance(seconds))
    {
      StepKeepsInv(View(), policy, Action.Advance(seconds));
      now := now + seconds;
    }

    method Write(id: Id, task: Id, sequence: nat)
      requires Valid() && Enabled(View(), Enqueue(id, task, sequence))
      modifies this
      ensures Valid() && View() == Apply(old(View()), policy, Enqueue(id, task, sequence))
    {
      StepKeepsInv(View(), policy, Enqueue(id, task, sequence));
      rows := rows[id := Row(task, sequence, now, 0, now, None, None, None, None, None, None, None, 0, None, None)];
    }

    /** One guarded update: it repeats the selection's guard and fence, so a row changed meanwhile is skipped. */
    method ClaimSelected(id: Id, selectedFence: nat, owner: Id, delivery: Id, ttl: nat) returns (claim: Option<Claim>)
      requires id in rows
      modifies this
      ensures claim.Some? <==> Claimable(old(rows)[id], now) && old(rows)[id].fence == selectedFence
      ensures claim == None ==> View() == old(View())
      ensures claim.Some? ==> View() == ClaimOne(old(View()), id, owner, delivery, ttl)
      ensures claim.Some? ==> claim.value == ClaimOf(old(View()), id, owner, delivery)
    {
      var r := rows[id];
      claim := None;
      if r.publishedAt == None && r.deadAt == None && r.availableAt <= now && r.fence == selectedFence
         && (r.owner == None || r.expiresAt == None || r.expiresAt.value <= now) {
        claim := Some(Claim(id, owner, r.attempts, selectedFence + 1, delivery));
        rows := rows[id := r.(owner := Some(owner), acquiredAt := Some(now), expiresAt := Some(now + ttl),
                              fence := selectedFence + 1, delivery := Some(delivery), attemptedAt := Some(now))];
        claims := claims + {claim.value};
      }
    }

    /** Claims a selection made in this transaction: the guard still holds for each row when its turn comes. */
    method ClaimEach(selected: seq<Id>, owner: Id, ttl: nat, supply: seq<Id>) returns (claimed: seq<Claim>)
      requires |supply| >= |selected|
      requires forall i, j | 0 <= i < j < |selected| :: selected[i] != selected[j]
      requires forall id | id in selected :: id in rows && Claimable(rows[id], now)
      modifies this
      ensures View() == ClaimAll(old(View()), selected, owner, supply[..|selected|], ttl)
      ensures |claimed| == |selected| && forall k | 0 <= k < |claimed| :: claimed[k] in claims && claimed[k] == ClaimOf(old(View()), selected[k], owner, supply[k])
    {
      hide Inv, Claimable;
      ghost var b := View();
      ghost var deliveries := supply[..|selected|];
      claimed := [];
      assert selected[0..] == selected && deliveries[0..] == deliveries;
      for k := 0 to |selected|
        invariant |claimed| == k && now == b.now && rows.Keys == b.rows.Keys
        invariant forall i | 0 <= i < k :: claimed[i] in claims && claimed[i] == ClaimOf(b, selected[i], owner, supply[i])
        invariant forall i | k <= i < |selected| :: rows[selected[i]] == b.rows[selected[i]]
        invariant ClaimAll(View(), selected[k..], owner, deliveries[k..], ttl) == ClaimAll(b, selected, owner, deliveries, ttl)
      {
        assert selected[k] in selected;
        ghost var before := View();
        ClaimAllFrom(before, selected, k, owner, deliveries, ttl);
        var claim := ClaimSelected(selected[k], rows[selected[k]].fence, owner, supply[k], ttl);
        claimed := claimed + [claim.value];
      }
      assert selected[|selected|..] == [];
    }

    /** Selects the first candidates in claim order and claims them. */
    method ClaimPending(owner: Id, ttl: nat, limit: nat, supply: seq<Id>) returns (claimed: seq<Claim>, ghost batch: seq<Id>)
      requires Valid() && |supply| >= limit
      modifies this
      ensures |batch| <= limit && Enabled(old(View()), ClaimBatch(owner, ttl, limit, batch, supply[..|batch|]))
      ensures Valid() && View() == Apply(old(View()), policy, ClaimBatch(owner, ttl, limit, batch, supply[..|batch|]))
      ensures |claimed| == |batch| && forall k | 0 <= k < |claimed| :: claimed[k] in claims
      ensures forall k | 0 <= k < |batch| :: batch[k] in old(rows) && claimed[k] == ClaimOf(old(View()), batch[k], owner, supply[k])
    {
      hide Inv;
      ghost var b := View();
      var selected := FirstRows(ClaimKeys(rows, now), limit);
      batch := selected;
      BatchIsStored(b, selected, limit);
      StepKeepsInv(b, policy, ClaimBatch(owner, ttl, limit, selected, supply[..|selected|]));
      claimed := ClaimEach(selected, owner, ttl, supply);
    }

    method Hand(claim: Claim)
      requires Valid() && claim in claims
      modifies this`delivered
      ensures Valid() && View() == Apply(old(View()), policy, Deliver(claim))
    {
      StepKeepsInv(View(), policy, Deliver(claim));
      delivered := delivered + [claim];
    }

    method MarkDone(claim: Claim) returns (accepted: bool)
      requires Valid() && claim in delivered
      modifies this
      ensures Valid() && View() == Apply(old(View()), policy, Action.Published(claim))
      ensures accepted == Honours(old(View()), claim)
      ensures O.PublishedLaw(old(View()), claim, View()) && accepted == O.LeasedNow(old(View()), claim)
    {
      hide Inv, O.PublishedLaw, O.LeasedNow;
      StepKeepsInv(View(), policy, Action.Published(claim));
      O.DeliveredAreClaims(View(), policy, claim);
      O.HonouredIsLeased(View(), policy, claim);
      O.PublishedIsLawful(View(), policy, claim);
      accepted := false;
      if claim.message in rows {
        var r := rows[claim.message];
        if r.publishedAt == None && r.owner == Some(claim.owner) && r.fence == claim.fence
           && r.delivery == Some(claim.delivery) && r.expiresAt.Some? && r.expiresAt.value > now {
          accepted := true;
          rows := rows[claim.message := r.(attempts := r.attempts + 1, publishedAt := Some(now), lastError := None,
                                           owner := None, acquiredAt := None, expiresAt := None)];
        }
      }
    }

    method MarkError(claim: Claim, error: string) returns (outcome: Failure)
      requires Valid() && claim in claims
      modifies this
      ensures Valid() && View() == Apply(old(View()), policy, Failed(claim, error))
      ensures outcome == FailureOf(old(View()), policy, claim)
      ensures O.FailedLaw(old(View()), policy, claim, error, View())
      ensures outcome == if !O.LeasedNow(old(View()), claim) then Fenced else if claim.attempts + 1 < policy.maxAttempts then Retry else DeadLettered
    {
      hide Inv, O.FailedLaw, O.LeasedNow;
      StepKeepsInv(View(), policy, Failed(claim, error));
      O.HonouredIsLeased(View(), policy, claim);
      O.FailedIsLawful(View(), policy, claim, error);
      var delay := RetryDelay(policy, claim.attempts);
      var next := claim.attempts + 1;
      var dead := next >= policy.maxAttempts;
      outcome := Fenced;
      if claim.message in rows {
        var r := rows[claim.message];
        if r.publishedAt == None && r.deadAt == None && r.owner == Some(claim.owner) && r.fence == claim.fence
           && r.delivery == Some(claim.delivery) && r.expiresAt.Some? && r.expiresAt.value > now {
          rows := rows[claim.message := r.(
            attempts := next, availableAt := if dead then now else now + delay, lastError := Some(error),
            deadAt := if dead then Some(now) else None, deadReason := if dead then Some(error) else None,
            owner := None, acquiredAt := None, expiresAt := None)];
          outcome := if dead then DeadLettered else Retry;
        }
      }
    }

    /** Publishes one claimed batch; the clock may run on while the broker works. */
    method PublishPending(owner: Id, ttl: nat, limit: nat, supply: seq<Id>, accepts: seq<bool>, waits: seq<nat>)
      returns (r: BatchResult, ghost messages: seq<Claim>, ghost batch: seq<Id>)
      requires Valid() && |supply| >= limit && |accepts| >= limit && |waits| >= limit
      modifies this
      ensures Valid()
      ensures |messages| == |batch| <= limit && Enabled(old(View()), ClaimBatch(owner, ttl, limit, batch, supply[..|batch|]))
      ensures forall k | 0 <= k < |batch| :: batch[k] in old(rows) && messages[k] == ClaimOf(old(View()), batch[k], owner, supply[k])
      ensures var claimed := Apply(old(View()), policy, ClaimBatch(owner, ttl, limit, batch, supply[..|batch|]));
              Progress(View(), r) == PublishRest(Progress(claimed, BatchResult(|messages|, 0, 0, 0, 0)), policy, messages, accepts, waits, 0)
    {
      hide Inv, Apply, Enabled;
      var queue;
      queue, batch := ClaimPending(owner, ttl, limit, supply);
      messages := queue;
      ghost var start := Progress(View(), BatchResult(|messages|, 0, 0, 0, 0));
      var done, failed, fenced, dead := 0, 0, 0, 0;
      for k := 0 to |queue|
        invariant Valid()
        invariant forall i | 0 <= i < |queue| :: queue[i] in claims
        invariant PublishRest(start, policy, messages, accepts, waits, 0)
               == PublishRest(Progress(View(), BatchResult(|queue|, done, failed, fenced, dead)), policy, messages, accepts, waits, k)
      {
        ghost var before := Progress(View(), BatchResult(|queue|, done, failed, fenced, dead));
        if accepts[k] {
          var accepted := Send(queue[k], waits[k]);
          if accepted { done := done + 1; } else { fenced := fenced + 1; }
        } else {
          var outcome := Reject(queue[k], waits[k]);
          match outcome
          case Retry => failed := failed + 1;
          case DeadLettered => dead := dead + 1;
          case Fenced => fenced := fenced + 1;
        }
        assert Progress(View(), BatchResult(|queue|, done, failed, fenced, dead)) == PublishStep(before, policy, queue[k], accepts[k], waits[k]);
      }
      r := BatchResult(|queue|, done, failed, fenced, dead);
    }

    method Send(claim: Claim, wait: nat) returns (accepted: bool)
      requires Valid() && claim in claims
      modifies this
      ensures Valid() && claims == old(claims)
      ensures var sent := old(View()).(now := old(now) + wait, delivered := old(delivered) + [claim]);
              View() == MarkPublished(sent, claim) && accepted == Honours(sent, claim)
    {
      hide Inv, MarkPublished, Honours;
      Advance(wait);
      Hand(claim);
      accepted := MarkDone(claim);
      PublishedKeepsClaims(old(View()).(now := old(now) + wait, delivered := old(delivered) + [claim]), claim);
    }

    method Reject(claim: Claim, wait: nat) returns (outcome: Failure)
      requires Valid() && claim in claims
      modifies this
      ensures Valid() && claims == old(claims)
      ensures var late := old(View()).(now := old(now) + wait);
              View() == MarkFailed(late, policy, claim, "broker") && outcome == FailureOf(late, policy, claim)
    {
      hide Inv, MarkFailed, FailureOf;
      Advance(wait);
      outcome := MarkError(claim, "broker");
      FailedKeepsClaims(old(View()).(now := old(now) + wait), policy, claim);
    }

    /** The record a requeue leaves of whether it was safe. */
    ghost function UnsafeAfter(id: Id): set<Id>
      reads this
    {
      if !Requeueable(View(), id) then unsafe else if Unsafe(View(), id) then unsafe + {id} else unsafe - {id}
    }

    /** The publisher's requeue: one guarded update. */
    method RequeueByPublisher(id: Id) returns (requeuedOne: bool)
      requires Valid()
      modifies this
      ensures Valid() && View() == Apply(old(View()), policy, RequeueDead(id))
      ensures requeuedOne == Requeueable(old(View()), id)
    {
      StepKeepsInv(View(), policy, RequeueDead(id));
      unsafe := UnsafeAfter(id);
      requeuedOne := id in rows && rows[id].publishedAt == None && rows[id].deadAt != None;
      if requeuedOne {
        rows := rows[id := rows[id].(
          attempts := 0, availableAt := now, lastError := None, deadAt := None, deadReason := None, delivery := None,
          attemptedAt := None, owner := None, acquiredAt := None, expiresAt := None, fence := rows[id].fence + 1)];
        requeued := requeued + {id};
      }
    }

    /** The operator's requeue: reads the locked row, refuses it or changes its fields one by one. */
    method RequeueByOperator(id: Id) returns (found: bool)
      requires Valid()
      modifies this
      ensures Valid() && View() == Apply(old(View()), policy, RequeueDead(id))
      ensures found == Requeueable(old(View()), id)
    {
      StepKeepsInv(View(), policy, RequeueDead(id));
      if id !in rows { return false; }
      var record := rows[id];
      unsafe := UnsafeAfter(id);
      if record.publishedAt != None || record.deadAt == None { return false; }
      record := record.(attempts := 0);
      record := record.(availableAt := now);
      record := record.(lastError := None);
      record := record.(deadAt := None);
      record := record.(deadReason := None);
      record := record.(delivery := None);
      record := record.(attemptedAt := None);
      record := record.(owner := None);
      record := record.(acquiredAt := None);
      record := record.(expiresAt := None);
      record := record.(fence := record.fence + 1);
      rows := rows[id := record];
      requeued := requeued + {id};
      found := true;
    }

    /**
     The consumer's transaction: lookup, then insert and handle. A competitor may consume the same
     message in between, and the insert then meets its receipt; a handler that raises, or that violates
     a constraint of its own, rolls the receipt back with it. After a violation the receipt is looked up
     once more, in a transaction of its own.
     */
    method ConsumeOne(r: Receipt, handling: Handling, competitor: bool) returns (result: Option<ConsumeResult>)
      requires Valid() && WasDelivered(View(), r.message)
      modifies this
      ensures Valid()
      ensures result == None <==> r !in old(receipts) && !competitor && handling != Handled
      ensures View() == if result == None then old(View()) else Apply(old(View()), policy, Handle(r))
      ensures result.Some? ==>
                result.value.duplicate == (r in old(receipts) || competitor) && result.value.processed == !result.value.duplicate
    {
      StepKeepsInv(View(), policy, Handle(r));
      if r in receipts { return Some(ConsumeResult(false, true)); }
      if competitor { receipts, effects := receipts + {r}, effects + [r]; }
      var violated := r in receipts;
      if !violated {
        if handling == Handled {
          receipts, effects := receipts + {r}, effects + [r];
          return Some(ConsumeResult(true, false));
        }
        violated := handling == Violates;
      }
      if !violated { return None; }
      result := if r in receipts then Some(ConsumeResult(false, true)) else None;
    }
  }

  lemma {:induction false} ClaimAllFrom(b: Box, batch: seq<Id>, k: nat, owner: Id, deliveries: seq<Id>, ttl: nat)
    requires k < |batch| == |deliveries| && forall id | id in batch :: id in b.rows
    ensures ClaimAll(b, batch[k..], owner, deliveries[k..], ttl)
         == ClaimAll(ClaimOne(b, batch[k], owner, deliveries[k], ttl), batch[k + 1..], owner, deliveries[k + 1..], ttl)
  {
    assert batch[k..][1..] == batch[k + 1..] && deliveries[k..][1..] == deliveries[k + 1..];
  }

  lemma {:induction false} PublishedKeepsClaims(b: Box, c: Claim)
    ensures MarkPublished(b, c).claims == b.claims
  {
  }

  lemma {:induction false} FailedKeepsClaims(b: Box, p: Policy, c: Claim)
    ensures MarkFailed(b, p, c, "broker").claims == b.claims
  {
  }

  /** The figures a publisher reports are the changes it made: one row each, and one delivery for each accepted message. */
  lemma {:induction false} FiguresAreChanges(s: Progress, p: Policy, messages: seq<Claim>, accepts: seq<bool>, waits: seq<nat>, k: nat)
    requires k <= |messages| <= |accepts| && |messages| <= |waits|
    ensures var e := PublishRest(s, p, messages, accepts, waits, k);
            && |PublishedIds(e.box)| - |PublishedIds(s.box)| == e.result.published - s.result.published
            && |DeadIds(e.box)| - |DeadIds(s.box)| == e.result.deadLettered - s.result.deadLettered
            && Reported(e.result) - Reported(s.result) == |messages| - k
            && |e.box.delivered| - |s.box.delivered| == |Accepted(accepts[k..|messages|])|
    decreases |messages| - k
  {
    if k < |messages| {
      var t := PublishStep(s, p, messages[k], accepts[k], waits[k]);
      FiguresAreChanges(t, p, messages, accepts, waits, k + 1);
      StepFigures(s, p, messages[k], accepts[k], waits[k]);
      var window := accepts[k..|messages|];
      assert window[0] == accepts[k] && window[1..] == accepts[k + 1..|messages|];
    } else {
      assert accepts[k..|messages|] == [];
    }
  }

  function Reported(r: BatchResult): nat {
    r.published + r.failed + r.fenced + r.deadLettered
  }

  /** The accepted answers, in order. */
  function Accepted(answers: seq<bool>): seq<bool> {
    if answers == [] then [] else (if answers[0] then [true] else []) + Accepted(answers[1..])
  }

  lemma {:induction false} StepFigures(s: Progress, p: Policy, c: Claim, accepted: bool, wait: nat)
    ensures var t := PublishStep(s, p, c, accepted, wait);
            && |PublishedIds(t.box)| - |PublishedIds(s.box)| == t.result.published - s.result.published
            && |DeadIds(t.box)| - |DeadIds(s.box)| == t.result.deadLettered - s.result.deadLettered
            && Reported(t.result) == Reported(s.result) + 1
            && |t.box.delivered| - |s.box.delivered| == if accepted then 1 else 0
  {
    hide MarkPublished, MarkFailed, Honours, FailureOf, PublishedIds, DeadIds;
    var late := s.box.(now := s.box.now + wait);
    var sent := late.(delivered := late.delivered + [c]);
    PublishedFigures(sent, c);
    FailedFigures(late, p, c);
    SameRows(s.box, late);
    SameRows(s.box, sent);
  }

  lemma {:induction false} SameRows(b: Box, t: Box)
    requires b.rows == t.rows
    ensures PublishedIds(b) == PublishedIds(t) && DeadIds(b) == DeadIds(t)
  {
  }

  lemma {:induction false} PublishedFigures(b: Box, c: Claim)
    ensures var t := MarkPublished(b, c);
            && |PublishedIds(t)| - |PublishedIds(b)| == (if Honours(b, c) then 1 else 0)
            && DeadIds(t) == DeadIds(b) && t.delivered == b.delivered
  {
    var t := MarkPublished(b, c);
    if Honours(b, c) {
      var own := {c.message};
      assert PublishedIds(t) == PublishedIds(b) + own;
      assert own !! PublishedIds(b);
      assert DeadIds(t) == DeadIds(b);
    }
  }

  lemma {:induction false} FailedFigures(b: Box, p: Policy, c: Claim)
    ensures var t := MarkFailed(b, p, c, "broker");
            && |DeadIds(t)| - |DeadIds(b)| == (if FailureOf(b, p, c) == DeadLettered then 1 else 0)
            && PublishedIds(t) == PublishedIds(b) && t.delivered == b.delivered
  {
    hide PublishedIds, DeadIds, RetryDelay;
    if FailureOf(b, p, c) != Fenced {
      RowFigures(b, MarkFailed(b, p, c, "broker"), c.message);
    }
  }

  /** A change to one row that was neither published nor dead. */
  lemma {:induction false} RowFigures(b: Box, t: Box, id: Id)
    requires id in b.rows && id in t.rows && t.rows == b.rows[id := t.rows[id]]
    requires b.rows[id].publishedAt == None == t.rows[id].publishedAt && b.rows[id].deadAt == None
    ensures PublishedIds(t) == PublishedIds(b)
    ensures |DeadIds(t)| - |DeadIds(b)| == if t.rows[id].deadAt.Some? then 1 else 0
  {
    var own := if t.rows[id].deadAt.Some? then {id} else {};
    assert DeadIds(t) == DeadIds(b) + own && own !! DeadIds(b);
  }
}
