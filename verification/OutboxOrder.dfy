/**
 Which requeues put the order of a task at risk: exactly those made while a later message
 is, or can still get, ahead. From an unsafe requeue some continuation publishes both
 messages out of order; from a safe one none does.
 */
module OutboxOrder {
  import opened Ordering
  import opened Outbox
  import opened OutboxSafety

  // ---------- continuations that do not requeue the message again ----------

  ghost predicate StepWithout(b: Box, p: Policy, id: Id, t: Box) {
    exists a :: Enabled(b, a) && a != RequeueDead(id) && t == Apply(b, p, a)
  }

  ghost predicate Continuation(states: seq<Box>, p: Policy, id: Id) {
    && |states| > 0
    && forall i | 0 <= i < |states| - 1 :: StepWithout(states[i], p, id, states[i + 1])
  }

  ghost predicate Reaches(b: Box, p: Policy, id: Id, t: Box) {
    exists states :: Continuation(states, p, id) && states[0] == b && states[|states| - 1] == t
  }

  lemma {:induction false} ReachesSelf(b: Box, p: Policy, id: Id)
    ensures Reaches(b, p, id, b)
  {
    assert Continuation([b], p, id) && [b][0] == b;
  }

  lemma {:induction false} ReachesStep(b: Box, p: Policy, id: Id, t: Box, a: Action)
    requires Reaches(b, p, id, t) && Enabled(t, a) && a != RequeueDead(id)
    ensures Reaches(b, p, id, Apply(t, p, a))
  {
    hide Enabled, Apply;
    var states :| Continuation(states, p, id) && states[0] == b && states[|states| - 1] == t;
    var longer := states + [Apply(t, p, a)];
    forall i | 0 <= i < |longer| - 1 ensures StepWithout(longer[i], p, id, longer[i + 1]) {
      if i < |states| - 1 { assert StepWithout(states[i], p, id, states[i + 1]); }
    }
    assert Continuation(longer, p, id) && longer[0] == b && longer[|longer| - 1] == Apply(t, p, a);
  }

  lemma {:induction false} ReachesJoin(b: Box, p: Policy, id: Id, t: Box, u: Box)
    requires Reaches(b, p, id, t) && Reaches(t, p, id, u)
    ensures Reaches(b, p, id, u)
  {
    hide StepWithout;
    var first :| Continuation(first, p, id) && first[0] == b && first[|first| - 1] == t;
    var second :| Continuation(second, p, id) && second[0] == t && second[|second| - 1] == u;
    var whole := first + second[1..];
    forall i | 0 <= i < |whole| - 1 ensures StepWithout(whole[i], p, id, whole[i + 1]) {
      if i < |first| - 1 {
        assert StepWithout(first[i], p, id, first[i + 1]);
      } else {
        var k := i - (|first| - 1);
        assert whole[i] == second[k] && whole[i + 1] == second[k + 1];
        assert StepWithout(second[k], p, id, second[k + 1]);
      }
    }
    assert Continuation(whole, p, id) && whole[0] == b && whole[|whole| - 1] == u;
  }

  /** What a step that is not a requeue of the message leaves alone. */
  lemma {:induction false} StepKeepsMark(b: Box, p: Policy, a: Action, id: Id)
    requires Enabled(b, a) && a != RequeueDead(id) && id in b.rows
    ensures var t := Apply(b, p, a); id in t.rows && (id in t.unsafe <==> id in b.unsafe)
  {
    if a.ClaimBatch? {
      BatchIsStored(b, a.batch, a.limit);
      ClaimAllGrows(b, a.batch, a.owner, a.deliveries, a.ttl);
    }
  }

  lemma {:induction false} ContinuationKeepsMark(states: seq<Box>, p: Policy, id: Id, n: nat)
    requires Continuation(states, p, id) && n < |states|
    requires Inv(states[0], p) && id in states[0].rows
    ensures Inv(states[n], p) && id in states[n].rows && (id in states[n].unsafe <==> id in states[0].unsafe)
  {
    hide Inv, Enabled, Apply;
    if n > 0 {
      ContinuationKeepsMark(states, p, id, n - 1);
      assert StepWithout(states[n - 1], p, id, states[n - 1 + 1]);
      var a :| Enabled(states[n - 1], a) && a != RequeueDead(id) && states[n] == Apply(states[n - 1], p, a);
      StepKeepsInv(states[n - 1], p, a);
      StepKeepsMark(states[n - 1], p, a, id);
    }
  }

  /** The message and one that follows it in its task are published, and a delivery of the other one came first. */
  predicate OutOfOrder(b: Box, id: Id) {
    && id in b.rows && b.rows[id].publishedAt.Some?
    && exists j :: 0 <= j < |b.delivered| && Jumped(b, j, id)
  }

  predicate Jumped(b: Box, j: nat, id: Id)
    requires j < |b.delivered|
  {
    && Later(b, b.delivered[j].message, id)
    && b.rows[b.delivered[j].message].publishedAt.Some?
    && !DeliveredBefore(b.delivered, j, id)
  }

  lemma {:induction false} SafeStaysInOrder(b: Box, p: Policy, id: Id, t: Box)
    requires Inv(b, p) && id in b.rows && id !in b.unsafe && Reaches(b, p, id, t)
    ensures !OutOfOrder(t, id)
  {
    var states :| Continuation(states, p, id) && states[0] == b && states[|states| - 1] == t;
    ContinuationKeepsMark(states, p, id, |states| - 1);
    forall j | 0 <= j < |t.delivered| ensures t.rows[id].publishedAt.Some? ==> !Jumped(t, j, id) {
      assert LogOk(t, j) && RowOk(t, p, id);
    }
  }

  // ---------- any undecided message can be published ----------

  /** The rows in order, found one by one. */
  lemma {:induction false} SomeOrder(keys: map<Id, Key>, ids: set<Id>) returns (rows: seq<Id>)
    requires ids <= keys.Keys
    ensures Sorted(keys, rows) && forall id :: id in rows <==> id in ids
    decreases |ids|
  {
    if ids == {} {
      rows := [];
    } else {
      var id :| id in ids;
      var rest := SomeOrder(keys, ids - {id});
      rows := InsertSomewhere(keys, rest, id);
    }
  }

  lemma {:induction false} InsertSomewhere(keys: map<Id, Key>, rows: seq<Id>, id: Id) returns (out: seq<Id>)
    requires Sorted(keys, rows) && id in keys && id !in rows
    ensures Sorted(keys, out) && forall o :: o in out <==> o in rows || o == id
  {
    var i := 0;
    while i < |rows| && LessEq(keys[rows[i]], keys[id])
      invariant i <= |rows|
      invariant forall k | 0 <= k < i :: LessEq(keys[rows[k]], keys[id])
    {
      i := i + 1;
    }
    out := rows[..i] + [id] + rows[i..];
    assert rows == rows[..i] + rows[i..];
    forall k | i <= k < |rows| ensures LessEq(keys[id], keys[rows[k]]) {
      if k > i { assert LessEq(keys[rows[i]], keys[rows[k]]); }
    }
    InsertKeepsOrder(keys, rows, id, i);
  }

  /** Claiming every candidate claims each one and decides nothing. */
  lemma {:induction false} ClaimAllClaims(b: Box, batch: seq<Id>, owner: Id, deliveries: seq<Id>, ttl: nat, id: Id)
    requires |deliveries| == |batch| && (forall o | o in batch :: o in b.rows) && id in b.rows
    requires forall i, j | 0 <= i < j < |batch| :: batch[i] != batch[j]
    ensures var t := ClaimAll(b, batch, owner, deliveries, ttl);
            && id in t.rows
            && (id !in batch ==> t.rows[id] == b.rows[id])
            && (id in batch ==> exists d :: t.rows[id] == ClaimRow(b.rows[id], owner, d, b.now, ttl) && ClaimOf(b, id, owner, d) in t.claims)
    decreases |batch|
  {
    if batch != [] {
      assert batch[0] in batch;
      var u := ClaimOne(b, batch[0], owner, deliveries[0], ttl);
      assert forall i, j | 0 <= i < j < |batch[1..]| :: batch[1..][i] != batch[1..][j];
      ClaimAllClaims(u, batch[1..], owner, deliveries[1..], ttl, id);
      ClaimAllGrows(u, batch[1..], owner, deliveries[1..], ttl);
      if id == batch[0] {
        assert id !in batch[1..];
        assert ClaimAll(b, batch, owner, deliveries, ttl).rows[id] == ClaimRow(b.rows[id], owner, deliveries[0], b.now, ttl);
      }
    }
  }

  /** Publishing one message: the others keep their place and their decision. */
  ghost predicate PublishedOne(b: Box, t: Box, id: Id) {
    && t.rows.Keys == b.rows.Keys && id in b.rows
    && t.rows[id].publishedAt.Some? && b.delivered <= t.delivered
    && (forall o | o in b.rows :: t.rows[o].task == b.rows[o].task && t.rows[o].sequence == b.rows[o].sequence)
    && (forall o | o in b.rows && o != id :: t.rows[o].publishedAt == b.rows[o].publishedAt && t.rows[o].deadAt == b.rows[o].deadAt)
  }

  function Max(a: int, b: int): int {
    if a < b then b else a
  }

  /** The wait after which the row's delay and its lease are over. */
  function Wait(r: Row, now: int): nat {
    Max(0, Max(r.availableAt - now, if r.expiresAt.Some? then r.expiresAt.value - now else 0))
  }

  lemma {:induction false} ClaimHead(b: Box, p: Policy, avoid: Id, id: Id) returns (t: Box, c: Claim)
    requires Inv(b, p) && id in b.rows && Undecided(b.rows[id]) && IsHead(b.rows, id)
    ensures Reaches(b, p, avoid, t) && Inv(t, p)
    ensures c in t.claims && c.message == id && Honours(t, c)
    ensures t.delivered == b.delivered && t.rows.Keys == b.rows.Keys
    ensures forall o | o in b.rows :: t.rows[o].task == b.rows[o].task && t.rows[o].sequence == b.rows[o].sequence
    ensures forall o | o in b.rows :: t.rows[o].publishedAt == b.rows[o].publishedAt && t.rows[o].deadAt == b.rows[o].deadAt
  {
    hide Inv, Reaches;
    var seconds := Wait(b.rows[id], b.now);
    var later := b.(now := b.now + seconds);
    ReachesSelf(b, p, avoid);
    StepKeepsInv(b, p, Advance(seconds));
    ReachesStep(b, p, avoid, b, Advance(seconds));
    var keys := ClaimKeys(later.rows, later.now);
    assert id in keys;
    var batch := SomeOrder(keys, keys.Keys);
    var deliveries := seq(|batch|, i => 0);
    var a := ClaimBatch(0, 1, |batch|, batch, deliveries);
    assert IsBatch(later, batch, |batch|);
    BatchIsStored(later, batch, |batch|);
    StepKeepsInv(later, p, a);
    ReachesStep(b, p, avoid, later, a);
    t := Apply(later, p, a);
    ClaimAllGrows(later, batch, 0, deliveries, 1);
    forall o | o in b.rows
      ensures t.rows[o].task == b.rows[o].task && t.rows[o].sequence == b.rows[o].sequence
      ensures t.rows[o].publishedAt == b.rows[o].publishedAt && t.rows[o].deadAt == b.rows[o].deadAt
    {
      ClaimAllClaims(later, batch, 0, deliveries, 1, o);
    }
    ClaimAllClaims(later, batch, 0, deliveries, 1, id);
    var d :| t.rows[id] == ClaimRow(later.rows[id], 0, d, later.now, 1) && ClaimOf(later, id, 0, d) in t.claims;
    c := ClaimOf(later, id, 0, d);
  }

  /** The first undecided message of a task can be claimed, delivered and reported. */
  lemma {:induction false} PublishHead(b: Box, p: Policy, avoid: Id, id: Id) returns (t: Box)
    requires Inv(b, p) && id in b.rows && Undecided(b.rows[id]) && IsHead(b.rows, id)
    ensures Reaches(b, p, avoid, t) && Inv(t, p) && PublishedOne(b, t, id)
  {
    hide Inv, Reaches, IsHead;
    var u, c := ClaimHead(b, p, avoid, id);
    StepKeepsInv(u, p, Deliver(c));
    ReachesStep(b, p, avoid, u, Deliver(c));
    var sent := u.(delivered := u.delivered + [c]);
    StepKeepsInv(sent, p, Action.Published(c));
    ReachesStep(b, p, avoid, sent, Action.Published(c));
    t := MarkPublished(sent, c);
  }

  function UndecidedIds(b: Box): set<Id> {
    set id | id in b.rows && Undecided(b.rows[id])
  }

  /** What publishing a message, and what had to go before it, leaves: nothing published or dead is touched. */
  ghost predicate PublishedThrough(b: Box, t: Box, id: Id) {
    && t.rows.Keys == b.rows.Keys && id in b.rows
    && t.rows[id].publishedAt.Some? && b.delivered <= t.delivered
    && (forall o | o in b.rows :: t.rows[o].task == b.rows[o].task && t.rows[o].sequence == b.rows[o].sequence)
    && (forall o | o in b.rows && b.rows[o].publishedAt.Some? :: t.rows[o].publishedAt.Some?)
    && (forall o | o in b.rows && b.rows[o].deadAt.Some? && b.rows[o].publishedAt == None :: t.rows[o].deadAt.Some? && t.rows[o].publishedAt == None)
    && (forall o | o in b.rows && Earlier(b.rows[id], b.rows[o]) && Undecided(b.rows[o]) :: Undecided(t.rows[o]))
  }

  lemma {:induction false} OneIsThrough(b: Box, t: Box, id: Id)
    requires PublishedOne(b, t, id) && Undecided(b.rows[id])
    ensures PublishedThrough(b, t, id)
  {
  }

  lemma {:induction false} ThroughTwice(b: Box, t: Box, u: Box, first: Id, id: Id)
    requires first in b.rows && id in b.rows && Earlier(b.rows[first], b.rows[id])
    requires PublishedThrough(b, t, first) && PublishedThrough(t, u, id)
    ensures PublishedThrough(b, u, id)
  {
  }

  lemma {:induction false} FewerUndecided(b: Box, t: Box, id: Id)
    requires PublishedThrough(b, t, id) && Undecided(b.rows[id])
    ensures UndecidedIds(t) < UndecidedIds(b) && |UndecidedIds(t)| < |UndecidedIds(b)|
  {
    assert id in UndecidedIds(b) && id !in UndecidedIds(t);
    assert UndecidedIds(b) == UndecidedIds(t) + (UndecidedIds(b) - UndecidedIds(t));
  }

  /** Every undecided message can be published: first the undecided ones before it, then itself. */
  lemma {:induction false} PublishThrough(b: Box, p: Policy, avoid: Id, id: Id) returns (t: Box)
    requires Inv(b, p) && id in b.rows && Undecided(b.rows[id])
    ensures Reaches(b, p, avoid, t) && Inv(t, p) && PublishedThrough(b, t, id)
    decreases |UndecidedIds(b)|, b.rows[id].sequence
  {
    hide Inv, Reaches, PublishedThrough, PublishedOne, UndecidedIds;
    if IsHead(b.rows, id) {
      t := PublishHead(b, p, avoid, id);
      OneIsThrough(b, t, id);
    } else {
      var first :| first in b.rows && Earlier(b.rows[first], b.rows[id]) && Undecided(b.rows[first]);
      var u := PublishThrough(b, p, avoid, first);
      FewerUndecided(b, u, first);
      StillUndecided(b, u, first, id);
      t := PublishThrough(u, p, avoid, id);
      ReachesJoin(b, p, avoid, u, t);
      ThroughTwice(b, u, t, first, id);
    }
  }

  lemma {:induction false} StillUndecided(b: Box, t: Box, first: Id, id: Id)
    requires PublishedThrough(b, t, first) && id in b.rows && Earlier(b.rows[first], b.rows[id]) && Undecided(b.rows[id])
    ensures id in t.rows && Undecided(t.rows[id])
  {
  }

  /** A dead message other than `avoid` can be requeued and published. */
  lemma {:induction false} PublishEither(b: Box, p: Policy, avoid: Id, id: Id) returns (t: Box)
    requires Inv(b, p) && id in b.rows && id != avoid && avoid in b.rows && b.rows[avoid].publishedAt.Some?
    ensures Reaches(b, p, avoid, t) && Inv(t, p)
    ensures t.rows.Keys == b.rows.Keys && b.delivered <= t.delivered
    ensures forall o | o in b.rows :: t.rows[o].task == b.rows[o].task && t.rows[o].sequence == b.rows[o].sequence
    ensures t.rows[id].publishedAt.Some? && t.rows[avoid].publishedAt.Some?
  {
    hide Inv, Reaches;
    ReachesSelf(b, p, avoid);
    if b.rows[id].publishedAt.Some? {
      t := b;
    } else if Undecided(b.rows[id]) {
      t := PublishThrough(b, p, avoid, id);
    } else {
      var a := RequeueDead(id);
      StepKeepsInv(b, p, a);
      ReachesStep(b, p, avoid, b, a);
      var u := Requeue(b, id);
      t := PublishThrough(u, p, avoid, id);
      ReachesJoin(b, p, avoid, u, t);
    }
  }

  // ---------- the theorem ----------

  lemma {:induction false} OvertakenCanJump(b: Box, p: Policy, id: Id) returns (t: Box)
    requires Inv(b, p) && id in b.rows && Undecided(b.rows[id]) && Overtaken(b, id)
    ensures Reaches(b, p, id, t) && OutOfOrder(t, id)
  {
    hide Inv, Reaches;
    var j :| 0 <= j < |b.delivered| && Later(b, b.delivered[j].message, id) && !DeliveredBefore(b.delivered, j, id);
    var u := PublishThrough(b, p, id, id);
    t := PublishEither(u, p, id, b.delivered[j].message);
    ReachesJoin(b, p, id, u, t);
    assert t.delivered[j] == b.delivered[j];
    assert t.delivered[..|b.delivered|] == b.delivered;
    SameStart(b.delivered, t.delivered, j, id);
    assert Jumped(t, j, id);
  }

  lemma {:induction false} SameStart(log: seq<Claim>, longer: seq<Claim>, j: nat, id: Id)
    requires log <= longer && j < |log|
    ensures DeliveredBefore(longer, j, id) <==> DeliveredBefore(log, j, id)
  {
    if DeliveredBefore(longer, j, id) {
      var i :| 0 <= i < j && longer[i].message == id;
      assert log[i].message == id;
    }
    if DeliveredBefore(log, j, id) {
      var i :| 0 <= i < j && log[i].message == id;
      assert longer[i].message == id;
    }
  }

  /** A holder of a claim on a later message delivers it first. */
  lemma {:induction false} DeliverAhead(b: Box, p: Policy, id: Id) returns (t: Box)
    requires Inv(b, p) && id in b.rows && Undecided(b.rows[id]) && CanBeOvertaken(b, id)
    ensures Reaches(b, p, id, t) && Inv(t, p)
    ensures id in t.rows && Undecided(t.rows[id]) && Overtaken(t, id)
  {
    hide Inv, Reaches;
    var c :| c in b.claims && Later(b, c.message, id);
    ReachesSelf(b, p, id);
    StepKeepsInv(b, p, Deliver(c));
    ReachesStep(b, p, id, b, Deliver(c));
    t := b.(delivered := b.delivered + [c]);
    var n := |b.delivered|;
    assert forall i | 0 <= i < n :: t.delivered[i] == b.delivered[i];
    assert Later(t, t.delivered[n].message, id);
  }

  lemma {:induction false} UnsafeCanJump(b: Box, p: Policy, id: Id) returns (t: Box)
    requires Inv(b, p) && id in b.rows && Undecided(b.rows[id]) && Unsafe(b, id)
    ensures Reaches(b, p, id, t) && OutOfOrder(t, id)
  {
    hide Inv, Reaches, Overtaken, CanBeOvertaken, OutOfOrder;
    if Overtaken(b, id) {
      t := OvertakenCanJump(b, p, id);
    } else {
      var u := DeliverAhead(b, p, id);
      t := OvertakenCanJump(u, p, id);
      ReachesJoin(b, p, id, u, t);
    }
  }

  /** A requeue changes nothing that decides whether it is safe. */
  lemma {:induction false} RequeueMarks(b: Box, id: Id)
    requires Requeueable(b, id)
    ensures var t := Requeue(b, id);
            && id in t.rows && Undecided(t.rows[id])
            && (Unsafe(t, id) <==> Unsafe(b, id)) && (id in t.unsafe <==> Unsafe(b, id))
  {
    var t := Requeue(b, id);
    forall m ensures Later(t, m, id) <==> Later(b, m, id) {}
    assert t.delivered == b.delivered && t.claims == b.claims;
    assert WasDelivered(t, id) <==> WasDelivered(b, id);
    assert Overtaken(t, id) <==> Overtaken(b, id);
    assert CanBeOvertaken(t, id) <==> CanBeOvertaken(b, id);
  }

  /**
   Which requeues are harmful. In any state of any run, requeueing a dead letter is unsafe exactly when
   some continuation, without requeueing it again, publishes it and a later message of its task with a
   delivery of the later one before every delivery of it.
   */
  lemma {:induction false} RequeueHarmfulIff(states: seq<Box>, p: Policy, n: nat, id: Id)
    requires Run(states, p) && n < |states| && Requeueable(states[n], id)
    ensures Unsafe(states[n], id) <==> exists t :: Reaches(Requeue(states[n], id), p, id, t) && OutOfOrder(t, id)
  {
    hide Inv, Reaches, OutOfOrder, Unsafe;
    var b := states[n];
    var r := Requeue(b, id);
    RunKeepsInv(states, p, n);
    RequeueKeepsInv(b, p, id);
    RequeueMarks(b, id);
    if Unsafe(b, id) {
      var t := UnsafeCanJump(r, p, id);
    } else {
      forall t | Reaches(r, p, id, t) ensures !OutOfOrder(t, id) { SafeStaysInOrder(r, p, id, t); }
    }
  }

  /** What the table alone shows: while no later message of the task was ever claimed, a requeue is safe. */
  lemma {:induction false} UnclaimedSuccessorsAreSafe(states: seq<Box>, p: Policy, n: nat, id: Id)
    requires Run(states, p) && n < |states| && id in states[n].rows
    requires forall m | m in states[n].rows && Earlier(states[n].rows[id], states[n].rows[m]) :: states[n].rows[m].fence == 0
    ensures !Unsafe(states[n], id)
  {
    var b := states[n];
    RunKeepsInv(states, p, n);
    forall c | c in b.claims ensures !Later(b, c.message, id) { assert ClaimOk(b, c); }
    forall j | 0 <= j < |b.delivered| ensures !Later(b, b.delivered[j].message, id) { assert LogOk(b, j); }
  }

  // ---------- one such run ----------

  lemma {:induction false} OnlyCandidate(b: Box, id: Id)
    requires id in b.rows && Candidates(b.rows, b.now) == {id}
    ensures IsBatch(b, [id], 1)
  {
  }

  lemma {:induction false} ClaimSingle(b: Box, p: Policy, id: Id, owner: Id, delivery: Id, ttl: nat)
    requires id in b.rows && Candidates(b.rows, b.now) == {id}
    ensures Step(b, p, ClaimOne(b, id, owner, delivery, ttl))
  {
    OnlyCandidate(b, id);
    var a := ClaimBatch(owner, ttl, 1, [id], [delivery]);
    var t := ClaimOne(b, id, owner, delivery, ttl);
    assert Enabled(b, a);
    assert [id][1..] == [] && [delivery][1..] == [];
    assert Apply(b, p, a) == ClaimAll(t, [], owner, [], ttl);
  }

  ghost predicate Chain(states: seq<Box>, p: Policy) {
    |states| > 0 && forall i | 0 <= i < |states| - 1 :: Step(states[i], p, states[i + 1])
  }

  lemma {:induction false} ChainsJoin(first: seq<Box>, second: seq<Box>, p: Policy)
    requires Chain(first, p) && Chain(second, p) && first[|first| - 1] == second[0]
    ensures Chain(first + second[1..], p)
  {
    hide Step;
    var whole := first + second[1..];
    forall i | 0 <= i < |whole| - 1 ensures Step(whole[i], p, whole[i + 1]) {
      if i < |first| - 1 {
        assert Step(first[i], p, first[i + 1]);
      } else {
        var k := i - (|first| - 1);
        assert whole[i] == second[k] && whole[i + 1] == second[k + 1];
        assert Step(second[k], p, second[k + 1]);
      }
    }
  }

  /** The first message rejected on its only attempt. */
  function Buried(): Row {
    Row(5, 1, 0, 1, 0, None, Some(0), Some("rejected"), Some("rejected"), None, None, None, 1, Some(50), Some(0))
  }

  function SecondMessage(): Row {
    Row(5, 2, 0, 0, 0, None, None, None, None, None, None, None, 0, None, None)
  }

  function Sent(): Row {
    Row(5, 2, 0, 1, 0, Some(0), None, None, None, None, None, None, 1, Some(51), Some(0))
  }

  /** Message 1 dead, message 2 not yet claimed. */
  function AfterBurial(): Box {
    Box(0, map[1 := Buried(), 2 := SecondMessage()], {}, {Claim(1, 9, 0, 1, 50)}, [], {}, {}, [])
  }

  /** Message 1 dead, message 2 published. */
  function AfterSending(): Box {
    Box(0, map[1 := Buried(), 2 := Sent()], {}, {Claim(1, 9, 0, 1, 50), Claim(2, 9, 0, 1, 51)}, [Claim(2, 9, 0, 1, 51)], {}, {}, [])
  }

  lemma {:induction false} Bury(p: Policy) returns (states: seq<Box>)
    requires p == Policy(1, 0, 0)
    ensures Chain(states, p) && states[0] == Initial(0) && states[|states| - 1] == AfterBurial()
  {
    hide Inv;
    var s0 := Initial(0);
    var s1 := AddRow(s0, 1, 5, 1);
    assert Step(s0, p, s1) by { assert Enabled(s0, Enqueue(1, 5, 1)) && s1 == Apply(s0, p, Enqueue(1, 5, 1)); }
    var c := Claim(1, 9, 0, 1, 50);
    var s2 := ClaimOne(s1, 1, 9, 50, 10);
    ClaimSingle(s1, p, 1, 9, 50, 10);
    var s3 := MarkFailed(s2, p, c, "rejected");
    assert Step(s2, p, s3) by { assert Enabled(s2, Failed(c, "rejected")) && s3 == Apply(s2, p, Failed(c, "rejected")); }
    var s4 := AddRow(s3, 2, 5, 2);
    assert Step(s3, p, s4) by { assert Enabled(s3, Enqueue(2, 5, 2)) && s4 == Apply(s3, p, Enqueue(2, 5, 2)); }
    hide Step;
    assert s4.rows == AfterBurial().rows;
    states := [s0, s1, s2, s3, s4];
  }

  lemma {:induction false} Send(p: Policy) returns (states: seq<Box>)
    requires p == Policy(1, 0, 0)
    ensures Chain(states, p) && states[0] == AfterBurial() && states[|states| - 1] == AfterSending()
  {
    hide Inv;
    var s4 := AfterBurial();
    var c := Claim(2, 9, 0, 1, 51);
    var s5 := ClaimOne(s4, 2, 9, 51, 10);
    ClaimSingle(s4, p, 2, 9, 51, 10);
    var s6 := s5.(delivered := [c]);
    assert Step(s5, p, s6) by { assert Enabled(s5, Deliver(c)) && s6 == Apply(s5, p, Deliver(c)); }
    var s7 := MarkPublished(s6, c);
    assert Step(s6, p, s7) by { assert Enabled(s6, Published(c)) && s7 == Apply(s6, p, Published(c)); }
    hide Step;
    assert s7.rows == AfterSending().rows;
    states := [s4, s5, s6, s7];
  }

  /**
   Requeueing a dead letter can break the order: message 1 dies, message 2 of the same task is
   published, message 1 is requeued and published after it.
   */
  lemma {:induction false} RequeueBreaksOrder() returns (states: seq<Box>)
    ensures Run(states, Policy(1, 0, 0))
    ensures var b := states[|states| - 1];
            && b.rows.Keys == {1, 2} && Requeueable(b, 1) && Overtaken(b, 1)
            && exists t :: Reaches(Requeue(b, 1), Policy(1, 0, 0), 1, t) && OutOfOrder(t, 1)
  {
    hide Inv, Step, Reaches, OutOfOrder;
    var p := Policy(1, 0, 0);
    var first := Bury(p);
    var second := Send(p);
    ChainsJoin(first, second, p);
    states := first + second[1..];
    assert states[0] == Initial(0);
    assert states[|states| - 1] == AfterSending();
    assert Later(AfterSending(), AfterSending().delivered[0].message, 1);
    RequeueHarmfulIff(states, p, |states| - 1, 1);
  }
}
