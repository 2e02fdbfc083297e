/**
 What the transactions of the cluster store do to a ticket, told in the ticket's own fields:
 the rules a scheduling pass follows, how long a lease runs, and what ends it.
 */
module ClusterLeases {
  import opened Ordering
  import opened ClusterAdmission
  import opened ClusterGrants
  import opened ClusterSafety

  // ---------- the rules of a scheduling pass ----------

  predicate Due(t: Ticket, now: int) {
    (t.status == Pending || t.status == Granted) && t.expiresAt <= now
  }

  predicate Waits(t: Ticket, now: int) {
    t.status == Pending && t.expiresAt > now
  }

  /** Waiting order inside a graph: creation time, then admission identifier. */
  predicate NotAfter(tickets: Tickets, x: Id, y: Id)
    requires x in tickets && y in tickets
  {
    tickets[x].createdAt < tickets[y].createdAt || (tickets[x].createdAt == tickets[y].createdAt && x <= y)
  }

  /** The longest waiting ticket of its graph. */
  predicate LongestWaiting(tickets: Tickets, now: int, x: Id) {
    && x in tickets && Waits(tickets[x], now)
    && forall y | y in tickets && Waits(tickets[y], now) && tickets[y].graph == tickets[x].graph :: NotAfter(tickets, x, y)
  }

  /** A waiting ticket in the batch of the longest waiting ticket of its graph. */
  predicate InFront(tickets: Tickets, now: int, x: Id) {
    && x in tickets && Waits(tickets[x], now)
    && exists y :: y in tickets && LongestWaiting(tickets, now, y)
         && tickets[y].graph == tickets[x].graph && tickets[y].batch == tickets[x].batch
  }

  predicate HasRoom(u: Tickets, cfg: Config, x: Id)
    requires x in u
  {
    && |set id | id in u && u[id].status == Granted && u[id].graph == u[x].graph| < cfg.perGraphLimit
    && |set id | id in u && u[id].status == Granted && u[id].tool == u[x].tool| < cfg.ToolLimit(u[x].tool)
  }

  /** In front when the pass began, not granted yet, and below its graph and tool limits. */
  predicate Ready(start: Tickets, now: int, u: Tickets, cfg: Config, x: Id) {
    InFront(start, now, x) && x in u && u[x].status == Pending && HasRoom(u, cfg, x)
  }

  /** Every grant graph `a` ever had is matched by one of `b` that is no earlier. */
  predicate GrantedNoLater(u: Tickets, a: Id, b: Id) {
    forall x | x in u && u[x].graph == a && u[x].grantSequence.Some? ::
      exists y :: y in u && u[y].graph == b && u[y].grantSequence.Some? && u[y].grantSequence.value >= u[x].grantSequence.value
  }

  /** In a graph the older ticket; between graphs the one granted least recently, then the older ticket, then the lesser graph. */
  predicate Precedes(u: Tickets, x: Id, y: Id)
    requires x in u && y in u
  {
    var a, b := u[x].graph, u[y].graph;
    if a == b then NotAfter(u, x, y)
    else
      && GrantedNoLater(u, a, b)
      && (GrantedNoLater(u, b, a) ==>
            u[x].createdAt < u[y].createdAt || (u[x].createdAt == u[y].createdAt && a < b))
  }

  /** The next grant goes to a ready ticket that precedes every other. */
  predicate Turn(start: Tickets, now: int, u: Tickets, cfg: Config, x: Id) {
    Ready(start, now, u, cfg, x) && forall y | y in u && Ready(start, now, u, cfg, y) :: Precedes(u, x, y)
  }

  predicate Swept(start: Tickets, now: int, u: Tickets) {
    && u.Keys == start.Keys
    && forall x | x in start ::
         u[x] == if Due(start[x], now) then start[x].(status := Expired, revision := start[x].revision + 1) else start[x]
  }

  /** One grant: a full lease of the ticket's own length from now, under the next sequence. */
  predicate GrantStep(u: Tickets, v: Tickets, x: Id, sequence: nat, now: int) {
    && x in u
    && v == u[x := u[x].(status := Granted, revision := u[x].revision + 1, fence := u[x].fence + 1,
                         grantSequence := Some(sequence), expiresAt := now + u[x].ttl)]
  }

  function GrantedCount(u: Tickets): nat {
    |set id | id in u && u[id].status == Granted|
  }

  /** A pass as a list of tables, one for each grant, that starts after the sweep of what is due and goes on while it can. */
  predicate ByTheRules(start: Tickets, now: int, cfg: Config, first: nat, tables: seq<Tickets>, ids: seq<Id>) {
    && |tables| == |ids| + 1 && Swept(start, now, tables[0])
    && (forall k | 0 <= k < |ids| ::
          && GrantedCount(tables[k]) < cfg.globalLimit
          && Turn(start, now, tables[k], cfg, ids[k])
          && GrantStep(tables[k], tables[k + 1], ids[k], first + k, now))
    && (GrantedCount(tables[|ids|]) >= cfg.globalLimit
        || forall x | x in start :: !Ready(start, now, tables[|ids|], cfg, x))
  }

  /** Afterwards what a served batch still waited for is withdrawn, and everything else stays as the last table has it. */
  predicate Closed(start: Tickets, now: int, last: Tickets, ids: seq<Id>, after: Tickets) {
    && after.Keys == start.Keys == last.Keys
    && forall x | x in start ::
         after[x] ==
           if Waits(start[x], now) && x !in ids && (exists id :: id in ids && id in start && start[id].batch == start[x].batch)
           then start[x].(status := Withdrawn, revision := start[x].revision + 1) else last[x]
  }

  // ---------- the pass follows its rules ----------

  lemma {:induction false} DueIsSwept(tickets: Tickets, now: int)
    ensures Swept(tickets, now, ExpireDue(tickets, now))
    ensures forall x | x in tickets :: x in PendingIds(ExpireDue(tickets, now), now) <==> Waits(tickets[x], now)
  {
  }

  lemma {:induction false} OldestIsFirst(tickets: Tickets, ids: set<Id>, y: Id)
    requires ids != {} && ids <= tickets.Keys && y in ids
    ensures NotAfter(tickets, Oldest(tickets, ids), y)
  {
    var keys := AgeKeys(tickets, ids);
    assert y in keys;
    assert IsLeast(keys, Oldest(tickets, ids));
    assert LessEq(keys[Oldest(tickets, ids)], keys[y]);
  }

  /** The heads of the pass are the tickets in front. */
  lemma {:induction false} HeadsAreInFront(tickets: Tickets, now: int, x: Id)
    requires x in tickets
    ensures var due := ExpireDue(tickets, now);
            var heads := Heads(due, PendingIds(due, now));
            (tickets[x].graph in heads && x in heads[tickets[x].graph]) <==> InFront(tickets, now, x)
  {
    var due := ExpireDue(tickets, now);
    var pending := PendingIds(due, now);
    var graph := tickets[x].graph;
    DueIsSwept(tickets, now);
    assert graph in GraphsOf(due, pending) <==> OfGraph(due, pending, graph) != {} by {
      if graph in GraphsOf(due, pending) { GraphHasTicket(due, pending, graph); }
    }
    assert Waits(tickets[x], now) ==> x in OfGraph(due, pending, graph);
    if OfGraph(due, pending, graph) != {} { FrontOfGraph(tickets, now, x); }
  }

  lemma {:induction false} FrontOfGraph(tickets: Tickets, now: int, x: Id)
    requires x in tickets
    requires var due := ExpireDue(tickets, now); OfGraph(due, PendingIds(due, now), tickets[x].graph) != {}
    ensures var due := ExpireDue(tickets, now);
            x in HeadOf(due, PendingIds(due, now), tickets[x].graph) <==> InFront(tickets, now, x)
  {
    hide Oldest;
    var due := ExpireDue(tickets, now);
    var pending := PendingIds(due, now);
    var own := OfGraph(due, pending, tickets[x].graph);
    var oldest := Oldest(due, own);
    DueIsSwept(tickets, now);
    forall y | y in tickets && Waits(tickets[y], now) && tickets[y].graph == tickets[x].graph ensures NotAfter(tickets, oldest, y) {
      assert y in own;
      OldestIsFirst(due, own, y);
    }
    assert LongestWaiting(tickets, now, oldest);
    forall y | y in tickets && LongestWaiting(tickets, now, y) && tickets[y].graph == tickets[x].graph ensures y == oldest {
      assert y in own && NotAfter(tickets, y, oldest) && NotAfter(tickets, oldest, y);
    }
  }

  ghost predicate SameRows(start: Tickets, u: Tickets) {
    && u.Keys == start.Keys
    && forall x | x in start :: u[x].graph == start[x].graph && u[x].batch == start[x].batch
  }

  ghost function FrontHeads(start: Tickets, now: int): map<Id, set<Id>> {
    var due := ExpireDue(start, now);
    Heads(due, PendingIds(due, now))
  }

  lemma {:induction false} FrontMeans(start: Tickets, now: int)
    ensures HeadsOk(start, FrontHeads(start, now))
    ensures forall x | x in start ::
              (start[x].graph in FrontHeads(start, now) && x in FrontHeads(start, now)[start[x].graph]) <==> InFront(start, now, x)
  {
    hide Heads, InFront;
    var due := ExpireDue(start, now);
    DueIsSwept(start, now);
    HeadsAreOfTheirGraph(due, PendingIds(due, now));
    forall x | x in start
      ensures (start[x].graph in FrontHeads(start, now) && x in FrontHeads(start, now)[start[x].graph]) <==> InFront(start, now, x)
    {
      HeadsAreInFront(start, now, x);
    }
  }

  lemma {:induction false} RoomIsShare(u: Tickets, cfg: Config, x: Id)
    requires x in u
    ensures HasRoom(u, cfg, x) <==>
              |OfGraph(u, GrantedIds(u), u[x].graph)| < cfg.perGraphLimit && |OfTool(u, GrantedIds(u), u[x].tool)| < cfg.ToolLimit(u[x].tool)
  {
    assert OfGraph(u, GrantedIds(u), u[x].graph) == set id | id in u && u[id].status == Granted && u[id].graph == u[x].graph;
    assert OfTool(u, GrantedIds(u), u[x].tool) == set id | id in u && u[id].status == Granted && u[id].tool == u[x].tool;
  }

  /** Ready tickets are those a candidate graph may be offered. */
  lemma {:induction false} ReadyIsFitting(start: Tickets, now: int, u: Tickets, cfg: Config, x: Id)
    requires SameRows(start, u) && x in u
    ensures var heads := FrontHeads(start, now);
            Ready(start, now, u, cfg, x) <==>
              IsCandidate(u, heads, cfg, u[x].graph) && x in Fitting(u, heads[u[x].graph], cfg)
  {
    hide FrontHeads, InFront, HasRoom;
    FrontMeans(start, now);
    RoomIsShare(u, cfg, x);
    var heads := FrontHeads(start, now);
    assert x in start && u[x].graph == start[x].graph;
    assert (u[x].graph in heads && x in heads[u[x].graph]) <==> InFront(start, now, x);
    if Ready(start, now, u, cfg, x) { assert x in Fitting(u, heads[u[x].graph], cfg); }
  }

  /** A candidate graph has a ready ticket. */
  lemma {:induction false} CandidateIsReady(start: Tickets, now: int, u: Tickets, cfg: Config, graph: Id) returns (x: Id)
    requires SameRows(start, u) && graph in Candidates(u, FrontHeads(start, now), cfg)
    ensures x in u && u[x].graph == graph && Ready(start, now, u, cfg, x)
  {
    hide FrontHeads, Ready;
    FrontMeans(start, now);
    var heads := FrontHeads(start, now);
    x :| x in Fitting(u, heads[graph], cfg);
    assert x in heads[graph];
    ReadyIsFitting(start, now, u, cfg, x);
  }

  lemma {:induction false} NoLaterIsLess(u: Tickets, nextSequence: nat, history: seq<Grant>, a: Id, b: Id)
    requires SequencesOk(u, nextSequence, history)
    ensures GrantedNoLater(u, a, b) <==> LastGrant(u, a) <= LastGrant(u, b)
  {
    if LastGrant(u, a) <= LastGrant(u, b) {
      forall x | x in u && u[x].graph == a && u[x].grantSequence.Some?
        ensures exists y :: y in u && u[y].graph == b && u[y].grantSequence.Some? && u[y].grantSequence.value >= u[x].grantSequence.value
      {
        assert u[x].grantSequence.value in Sequences(u, a);
        assert LastGrant(u, b) in Sequences(u, b);
      }
    } else {
      assert LastGrant(u, a) in Sequences(u, a);
      var x :| x in u && u[x].graph == a && u[x].grantSequence == Some(LastGrant(u, a));
      forall y | y in u && u[y].graph == b && u[y].grantSequence.Some? ensures u[y].grantSequence.value < u[x].grantSequence.value {
        assert u[y].grantSequence.value in Sequences(u, b);
      }
    }
  }

  lemma {:induction false} OfferPrecedes(start: Tickets, now: int, u: Tickets, cfg: Config, y: Id)
    requires SameRows(start, u) && y in u && Ready(start, now, u, cfg, y)
    ensures var heads := FrontHeads(start, now);
            && IsCandidate(u, heads, cfg, u[y].graph)
            && Offer(u, heads, cfg, u[y].graph) in u && NotAfter(u, Offer(u, heads, cfg, u[y].graph), y)
  {
    hide Heads, Ready, Oldest;
    ReadyIsFitting(start, now, u, cfg, y);
    OldestIsFirst(u, Fitting(u, FrontHeads(start, now)[u[y].graph], cfg), y);
  }

  /** What the pass grants next is whose turn it is. */
  lemma {:induction false} NextHasTurn(start: Tickets, now: int, cfg: Config, u: Tickets, nextSequence: nat, history: seq<Grant>)
    requires SameRows(start, u) && SequencesOk(u, nextSequence, history)
    requires Candidates(u, FrontHeads(start, now), cfg) != {}
    ensures Turn(start, now, u, cfg, NextTicket(u, FrontHeads(start, now), cfg))
  {
    hide Heads, FrontHeads, Ready, SequencesOk, Offer, LastGrant, GrantedNoLater, NotAfter;
    var heads := FrontHeads(start, now);
    var x := NextTicket(u, heads, cfg);
    NextIsOffer(start, now, cfg, u);
    forall y | y in u && Ready(start, now, u, cfg, y) ensures Precedes(u, x, y) {
      OfferPrecedes(start, now, u, cfg, y);
      NextPrecedes(start, now, cfg, u, nextSequence, history, y);
    }
  }

  lemma {:induction false} NextIsOffer(start: Tickets, now: int, cfg: Config, u: Tickets)
    requires SameRows(start, u) && Candidates(u, FrontHeads(start, now), cfg) != {}
    ensures var heads := FrontHeads(start, now);
            var x := NextTicket(u, heads, cfg);
            && x in u && u[x].graph == NextGraph(u, heads, cfg) && Ready(start, now, u, cfg, x)
  {
    hide FrontHeads, Ready, LastGrant, Least;
    FrontMeans(start, now);
    var heads := FrontHeads(start, now);
    var graph := NextGraph(u, heads, cfg);
    var x := NextTicket(u, heads, cfg);
    assert x in Fitting(u, heads[graph], cfg);
    assert x in heads[graph];
    ReadyIsFitting(start, now, u, cfg, x);
  }

  lemma {:induction false} NextPrecedes(start: Tickets, now: int, cfg: Config, u: Tickets, nextSequence: nat, history: seq<Grant>, y: Id)
    requires SameRows(start, u) && SequencesOk(u, nextSequence, history)
    requires Candidates(u, FrontHeads(start, now), cfg) != {} && y in u
    requires IsCandidate(u, FrontHeads(start, now), cfg, u[y].graph)
    requires var offer := Offer(u, FrontHeads(start, now), cfg, u[y].graph); offer in u && NotAfter(u, offer, y)
    requires var x := NextTicket(u, FrontHeads(start, now), cfg); x in u && u[x].graph == NextGraph(u, FrontHeads(start, now), cfg)
    ensures Precedes(u, NextTicket(u, FrontHeads(start, now), cfg), y)
  {
    hide Heads, FrontHeads, SequencesOk, Offer, LastGrant, GrantedNoLater, Fitting;
    var heads := FrontHeads(start, now);
    var a, b := NextGraph(u, heads, cfg), u[y].graph;
    var keys := TurnKeys(u, heads, cfg);
    assert b in Candidates(u, heads, cfg) && keys.Keys == Candidates(u, heads, cfg);
    assert LessEq(keys[a], keys[b]);
    NoLaterIsLess(u, nextSequence, history, a, b);
    NoLaterIsLess(u, nextSequence, history, b, a);
  }

  /** How far a pass has come: which tickets it granted, each for its own lease from now. */
  predicate Granting(before: Tickets, after: Tickets, ids: seq<Id>, first: nat, now: int) {
    && after.Keys == before.Keys
    && (forall k | 0 <= k < |ids| :: ids[k] in before && before[ids[k]].status == Pending)
    && (forall j, k | 0 <= j < k < |ids| :: ids[j] != ids[k])
    && (forall k | 0 <= k < |ids| ::
          after[ids[k]] == before[ids[k]].(status := Granted, revision := before[ids[k]].revision + 1, fence := before[ids[k]].fence + 1,
                                           grantSequence := Some(first + k), expiresAt := now + before[ids[k]].ttl))
    && (forall x | x in before && x !in ids :: after[x] == before[x])
  }

  lemma {:induction false} GrantingJoins(p: Tickets, next: Tickets, last: Tickets, id: Id, rest: seq<Id>, first: nat, now: int)
    requires GrantStep(p, next, id, first, now) && p[id].status == Pending
    requires Granting(next, last, rest, first + 1, now)
    ensures Granting(p, last, [id] + rest, first, now)
  {
    var ids := [id] + rest;
    forall k | 0 <= k < |rest| ensures rest[k] != id { assert next[rest[k]].status == Pending; }
    forall k | 0 <= k < |ids|
      ensures ids[k] in p && p[ids[k]].status == Pending
      ensures last[ids[k]] == p[ids[k]].(status := Granted, revision := p[ids[k]].revision + 1, fence := p[ids[k]].fence + 1,
                                         grantSequence := Some(first + k), expiresAt := now + p[ids[k]].ttl)
    {
      if k > 0 { assert ids[k] == rest[k - 1]; assert next[rest[k - 1]] == p[rest[k - 1]]; }
    }
    forall x | x in p && x !in ids ensures last[x] == p[x] { assert x !in rest; }
  }

  /** The grants of a pass from here on. */
  predicate Grants(start: Tickets, now: int, cfg: Config, first: nat, tables: seq<Tickets>, ids: seq<Id>) {
    && |tables| == |ids| + 1
    && (forall k | 0 <= k < |ids| ::
          && GrantedCount(tables[k]) < cfg.globalLimit
          && Turn(start, now, tables[k], cfg, ids[k])
          && GrantStep(tables[k], tables[k + 1], ids[k], first + k, now))
    && (GrantedCount(tables[|ids|]) >= cfg.globalLimit
        || forall x | x in start :: !Ready(start, now, tables[|ids|], cfg, x))
  }

  lemma {:induction false} GrantsJoin(start: Tickets, now: int, cfg: Config, first: nat, u: Tickets, id: Id, tables: seq<Tickets>, ids: seq<Id>)
    requires Grants(start, now, cfg, first + 1, tables, ids)
    requires GrantedCount(u) < cfg.globalLimit && Turn(start, now, u, cfg, id) && GrantStep(u, tables[0], id, first, now)
    ensures Grants(start, now, cfg, first, [u] + tables, [id] + ids)
  {
    hide Turn, GrantStep, Ready, GrantedCount;
    var t, d := [u] + tables, [id] + ids;
    forall k | 0 <= k < |d|
      ensures GrantedCount(t[k]) < cfg.globalLimit && Turn(start, now, t[k], cfg, d[k]) && GrantStep(t[k], t[k + 1], d[k], first + k, now)
    {
      if k > 0 { assert t[k] == tables[k - 1] && t[k + 1] == tables[k - 1 + 1] && d[k] == ids[k - 1]; }
    }
    assert t[|d|] == tables[|ids|];
  }

  lemma {:induction false} CountIsGranted(u: Tickets)
    ensures GrantedCount(u) == |GrantedIds(u)|
  {
    assert GrantedIds(u) == set id | id in u && u[id].status == Granted;
  }

  lemma {:induction false} GrantsEnd(start: Tickets, now: int, cfg: Config, u: Tickets)
    requires SameRows(start, u) && Finished(u, FrontHeads(start, now), cfg)
    ensures Grants(start, now, cfg, 0, [u], []) && GrantedCount(u) == |GrantedIds(u)|
    ensures GrantedCount(u) >= cfg.globalLimit || forall x | x in start :: !Ready(start, now, u, cfg, x)
  {
    hide FrontHeads, Ready;
    CountIsGranted(u);
    forall x | x in start && Ready(start, now, u, cfg, x) ensures u[x].graph in Candidates(u, FrontHeads(start, now), cfg) {
      ReadyIsFitting(start, now, u, cfg, x);
    }
  }

  lemma {:induction false} GrantTables(start: Tickets, now: int, cfg: Config, p: Progress) returns (tables: seq<Tickets>, ids: seq<Id>)
    requires SameRows(start, p.tickets) && Sound(p, cfg)
    ensures var q := GrantAll(p, FrontHeads(start, now), cfg, now);
            && Grants(start, now, cfg, p.nextSequence, tables, ids)
            && tables[0] == p.tickets && tables[|ids|] == q.tickets && q.nextSequence == p.nextSequence + |ids|
            && Granting(p.tickets, q.tickets, ids, p.nextSequence, now)
    decreases cfg.globalLimit - |GrantedIds(p.tickets)|
  {
    hide Candidates, NextTicket, FrontHeads, Within, SequencesOk, Fair, GrantedIds, Ready, Turn, Granting, GrantedCount, SameRows;
    var heads := FrontHeads(start, now);
    if Finished(p.tickets, heads, cfg) {
      GrantsEnd(start, now, cfg, p.tickets);
      NoGrants(p.tickets, p.nextSequence, now);
      tables, ids := [p.tickets], [];
    } else {
      var id := NextTicket(p.tickets, heads, cfg);
      var candidates := Candidates(p.tickets, heads, cfg);
      var next := GrantTo(p, id, candidates, now);
      NextHasTurn(start, now, cfg, p.tickets, p.nextSequence, p.history);
      NextIsSound(start, now, cfg, p);
      GrantedGrows(p.tickets, id, p.nextSequence, now);
      CountIsGranted(p.tickets);
      var restTables, restIds := GrantTables(start, now, cfg, next);
      GrantsJoin(start, now, cfg, p.nextSequence, p.tickets, id, restTables, restIds);
      GrantingJoins(p.tickets, next.tickets, GrantAll(next, heads, cfg, now).tickets, id, restIds, p.nextSequence, now);
      tables, ids := [p.tickets] + restTables, [id] + restIds;
    }
  }

  lemma {:induction false} NoGrants(u: Tickets, first: nat, now: int)
    ensures Granting(u, u, [], first, now)
  {
  }

  lemma {:induction false} NextIsSound(start: Tickets, now: int, cfg: Config, p: Progress)
    requires SameRows(start, p.tickets) && Sound(p, cfg) && !Finished(p.tickets, FrontHeads(start, now), cfg)
    ensures var heads := FrontHeads(start, now);
            var next := GrantTo(p, NextTicket(p.tickets, heads, cfg), Candidates(p.tickets, heads, cfg), now);
            SameRows(start, next.tickets) && Sound(next, cfg)
  {
    hide FrontHeads, Sound, Candidates, NextTicket, WellChosen;
    var heads := FrontHeads(start, now);
    FrontMeans(start, now);
    assert HeadsOk(p.tickets, heads);
    NextIsWellChosen(p.tickets, heads, cfg);
    GrantIsSound(p, heads, cfg, Candidates(p.tickets, heads, cfg), NextTicket(p.tickets, heads, cfg), now);
  }

  /** Served batches are those of the granted tickets. */
  lemma {:induction false} SiblingsClosed(start: Tickets, now: int, swept: Tickets, last: Tickets, ids: seq<Id>, first: nat)
    requires Swept(start, now, swept) && Granting(swept, last, ids, first, now)
    ensures Closed(start, now, last, ids, WithdrawSiblings(last, PendingIds(ExpireDue(start, now), now)))
  {
    DueIsSwept(start, now);
    var pending := PendingIds(ExpireDue(start, now), now);
    var after := WithdrawSiblings(last, pending);
    forall id | id in ids ensures id in start && Waits(start[id], now) && last[id].status == Granted && last[id].batch == start[id].batch {
      var k :| 0 <= k < |ids| && ids[k] == id;
    }
    forall x | x in start
      ensures after[x] ==
        if Waits(start[x], now) && x !in ids && (exists id :: id in ids && id in start && start[id].batch == start[x].batch)
        then start[x].(status := Withdrawn, revision := start[x].revision + 1) else last[x]
    {
      SiblingClosed(start, now, swept, last, ids, first, x);
    }
  }

  lemma {:induction false} SiblingClosed(start: Tickets, now: int, swept: Tickets, last: Tickets, ids: seq<Id>, first: nat, x: Id)
    requires Swept(start, now, swept) && Granting(swept, last, ids, first, now) && x in start
    requires forall id | id in ids :: id in start && Waits(start[id], now) && last[id].status == Granted && last[id].batch == start[id].batch
    ensures WithdrawSiblings(last, PendingIds(ExpireDue(start, now), now))[x] ==
              if Waits(start[x], now) && x !in ids && (exists id :: id in ids && id in start && start[id].batch == start[x].batch)
              then start[x].(status := Withdrawn, revision := start[x].revision + 1) else last[x]
  {
    DueIsSwept(start, now);
    var pending := PendingIds(ExpireDue(start, now), now);
    if x in ids { assert last[x].status == Granted; } else { assert last[x] == swept[x]; }
    var served := ServedBatches(last, pending);
    if id :| id in ids && start[id].batch == last[x].batch {
      assert id in pending;
      assert last[x].batch in served;
    }
    if last[x].batch in served {
      var id :| id in pending && id in last && last[id].status == Granted && last[id].batch == last[x].batch;
      assert id in ids;
    }
  }

  /** The table after the sweep, where granting starts. */
  lemma {:induction false} SweptIsSound(s: Store, cfg: Config)
    requires Inv(s) && (s.config.Some? ==> s.config.value == cfg)
    ensures var p := Progress(ExpireDue(s.tickets, s.now), s.nextSequence, s.history);
            SameRows(s.tickets, p.tickets) && Sound(p, cfg)
  {
    hide Within, SequencesOk, Fair, BatchesOk;
    var due := ExpireDue(s.tickets, s.now);
    ExpiryCounts(s);
    KeepsSequences(s.tickets, due, s.nextSequence, s.history);
    if s.config.Some? {
      SubsetWithin(cfg, s.tickets, due, Holding(s), GrantedIds(due));
    } else {
      assert GrantedIds(due) == {};
      NothingHeld(cfg, due);
    }
  }

  lemma {:induction false} PassRules(s: Store, cfg: Config) returns (tables: seq<Tickets>, ids: seq<Id>)
    requires Inv(s) && (s.config == None || s.config == Some(cfg))
    ensures var t := Apply(s, RunSchedule(cfg));
            && t.now == s.now && t.config == Some(cfg) && t.nextSequence == s.nextSequence + |ids|
            && ByTheRules(s.tickets, s.now, cfg, s.nextSequence, tables, ids) && |tables| == |ids| + 1
            && Swept(s.tickets, s.now, tables[0])
            && Granting(tables[0], tables[|ids|], ids, s.nextSequence, s.now)
            && Closed(s.tickets, s.now, tables[|ids|], ids, t.tickets)
  {
    hide Inv, Sound, GrantAll, Heads, SameRows, Ready, Granting, Closed, WithdrawSiblings, Swept;
    var due := ExpireDue(s.tickets, s.now);
    SweptIsSound(s, cfg);
    DueIsSwept(s.tickets, s.now);
    tables, ids := GrantTables(s.tickets, s.now, cfg, Progress(due, s.nextSequence, s.history));
    SiblingsClosed(s.tickets, s.now, due, tables[|ids|], ids, s.nextSequence);
  }

  /**
   What a pass does, by rules that mention only the tickets: it sweeps out what is due, then grants one ticket after
   another while fewer than the limit are held, each time the one whose turn it is, and stops only when none
   is ready; what a served batch still waited for is withdrawn and nothing else changes.
   */
  lemma {:induction false} PassFollowsTheRules(states: seq<Store>, n: nat, cfg: Config) returns (tables: seq<Tickets>, ids: seq<Id>)
    requires Run(states) && n < |states|
    ensures var s, t := states[n], Apply(states[n], RunSchedule(cfg));
            if s.config.Some? && s.config.value != cfg then t == s
            else
              && t.now == s.now && t.config == Some(cfg) && t.nextSequence == s.nextSequence + |ids|
              && ByTheRules(s.tickets, s.now, cfg, s.nextSequence, tables, ids)
              && Granting(tables[0], tables[|ids|], ids, s.nextSequence, s.now)
              && Closed(s.tickets, s.now, tables[|ids|], ids, t.tickets)
  {
    hide Inv, Run, ByTheRules, Granting, Closed, SchedulePass;
    tables, ids := [], [];
    RunKeepsInv(states, n);
    if states[n].config == None || states[n].config == Some(cfg) { tables, ids := PassRules(states[n], cfg); }
  }

  function Elements(ids: seq<Id>): set<Id> {
    set id | id in ids
  }

  /** The slots held after a pass are those held before and those it granted. */
  lemma {:induction false} HeldAfter(s: Store, t: Store, swept: Tickets, last: Tickets, ids: seq<Id>)
    requires t.now == s.now && Swept(s.tickets, s.now, swept) && Granting(swept, last, ids, s.nextSequence, s.now)
    requires Closed(s.tickets, s.now, last, ids, t.tickets)
    requires forall id | id in ids :: id in s.tickets && s.tickets[id].ttl > 0
    ensures Holding(t) == Holding(s) + Elements(ids) && |Holding(t)| == |Holding(s)| + |ids|
  {
    forall x ensures (x in Holding(t) <==> x in Holding(s) || x in ids) && !(x in Holding(s) && x in ids) {
      if x in s.tickets { HeldAfterOne(s, t, swept, last, ids, x); }
    }
    hide Swept, Closed, Holding;
    DistinctIds(ids, swept, last, s.nextSequence, s.now);
    DisjointSum(Holding(t), Holding(s), Elements(ids));
  }

  lemma {:induction false} DisjointSum(all: set<Id>, a: set<Id>, b: set<Id>)
    requires a !! b && forall x :: x in all <==> x in a || x in b
    ensures all == a + b && |all| == |a| + |b|
  {
  }

  lemma {:induction false} HeldAfterOne(s: Store, t: Store, swept: Tickets, last: Tickets, ids: seq<Id>, x: Id)
    requires t.now == s.now && Swept(s.tickets, s.now, swept) && Granting(swept, last, ids, s.nextSequence, s.now)
    requires Closed(s.tickets, s.now, last, ids, t.tickets) && x in s.tickets
    requires x in ids ==> s.tickets[x].ttl > 0
    ensures x in Holding(t) <==> x in Holding(s) || x in ids
    ensures !(x in Holding(s) && x in ids)
  {
    if x in ids {
      var k :| 0 <= k < |ids| && ids[k] == x;
    } else {
      assert last[x] == swept[x];
    }
  }

  lemma {:induction false} DistinctIds(ids: seq<Id>, swept: Tickets, last: Tickets, first: nat, now: int)
    requires Granting(swept, last, ids, first, now)
    ensures |Elements(ids)| == |ids|
  {
    DistinctCounted(ids);
  }

  lemma {:induction false} DistinctCounted(ids: seq<Id>)
    requires forall j, k | 0 <= j < k < |ids| :: ids[j] != ids[k]
    ensures |Elements(ids)| == |ids|
    decreases |ids|
  {
    if ids != [] {
      var n := |ids| - 1;
      var before := ids[..n];
      DistinctCounted(before);
      assert forall x :: x in ids <==> x in before || x == ids[n];
      assert Elements(ids) == Elements(before) + {ids[n]};
      assert ids[n] !in Elements(before);
    }
  }

  /** Each ticket a pass grants runs for its own length from now, and if that is not zero it holds a slot under an honoured handle. */
  ghost predicate WholeLeases(s: Store, t: Store) {
    forall id | id in s.tickets && s.tickets[id].status == Pending && id in t.tickets && t.tickets[id].status == Granted ::
      && t.tickets[id].expiresAt == s.now + s.tickets[id].ttl
      && (s.tickets[id].ttl > 0 ==> id in Holding(t) && Honours(t, id, s.tickets[id].owner, 1))
  }

  predicate NoEmptyLease(s: Store) {
    forall id | id in s.tickets && s.tickets[id].status == Pending :: s.tickets[id].ttl > 0
  }

  lemma {:induction false} PassGrantsWholeLeases(s: Store, cfg: Config)
    requires Inv(s)
    ensures var t := Apply(s, RunSchedule(cfg));
            && WholeLeases(s, t)
            && (NoEmptyLease(s) ==> t.nextSequence >= s.nextSequence && |Holding(t)| == |Holding(s)| + (t.nextSequence - s.nextSequence))
  {
    hide Inv, SchedulePass;
    if s.config == None || s.config == Some(cfg) { AcceptedGrantsWhole(s, cfg); }
  }

  lemma {:induction false} AcceptedGrantsWhole(s: Store, cfg: Config)
    requires Inv(s) && (s.config == None || s.config == Some(cfg))
    ensures var t := Apply(s, RunSchedule(cfg));
            && WholeLeases(s, t)
            && (NoEmptyLease(s) ==> t.nextSequence >= s.nextSequence && |Holding(t)| == |Holding(s)| + (t.nextSequence - s.nextSequence))
  {
    hide Inv, Apply, ByTheRules, Granting, Closed, Swept;
    var t := Apply(s, RunSchedule(cfg));
    PendingIsFresh(s);
    var tables, ids := PassRules(s, cfg);
    forall id | id in s.tickets ensures GrantedWhole(s, t, id) && (id in ids ==> s.tickets[id].status == Pending) {
      GrantedOne(s, t, tables[0], tables[|ids|], ids, id);
    }
    GrantedAreStored(s, tables[0], tables[|ids|], ids);
    if NoEmptyLease(s) { HeldAfter(s, t, tables[0], tables[|ids|], ids); }
  }

  predicate GrantedWhole(s: Store, t: Store, id: Id) {
    id in s.tickets && id in t.tickets && s.tickets[id].status == Pending && t.tickets[id].status == Granted ==>
      && t.tickets[id].expiresAt == s.now + s.tickets[id].ttl
      && t.tickets[id].fence == s.tickets[id].fence + 1 && t.tickets[id].owner == s.tickets[id].owner
  }

  lemma {:induction false} GrantedAreStored(s: Store, swept: Tickets, last: Tickets, ids: seq<Id>)
    requires Swept(s.tickets, s.now, swept) && Granting(swept, last, ids, s.nextSequence, s.now)
    ensures forall id | id in ids :: id in s.tickets
  {
    forall id | id in ids ensures id in s.tickets { var k :| 0 <= k < |ids| && ids[k] == id; }
  }

  lemma {:induction false} GrantedOne(s: Store, t: Store, swept: Tickets, last: Tickets, ids: seq<Id>, id: Id)
    requires Swept(s.tickets, s.now, swept) && Granting(swept, last, ids, s.nextSequence, s.now)
    requires Closed(s.tickets, s.now, last, ids, t.tickets) && id in s.tickets
    ensures GrantedWhole(s, t, id) && (id in ids ==> s.tickets[id].status == Pending)
  {
    if id in ids {
      var k :| 0 <= k < |ids| && ids[k] == id;
      assert swept[id].status == Pending;
    } else {
      assert last[id] == swept[id];
    }
  }

  /**
   A grant is a whole lease: each ticket a pass grants runs for its own length from now, and if that is not zero it
   holds a slot and its handle is honoured. The slots held grow by exactly the number of grants.
   */
  lemma {:induction false} GrantsAreWholeLeases(states: seq<Store>, n: nat, cfg: Config)
    requires Run(states) && n < |states|
    ensures var s, t := states[n], Apply(states[n], RunSchedule(cfg));
            forall id | id in s.tickets && s.tickets[id].status == Pending && id in t.tickets && t.tickets[id].status == Granted ::
              && t.tickets[id].expiresAt == s.now + s.tickets[id].ttl
              && (s.tickets[id].ttl > 0 ==> id in Holding(t) && Honours(t, id, s.tickets[id].owner, 1))
    ensures var s, t := states[n], Apply(states[n], RunSchedule(cfg));
            NoEmptyLease(s) ==> t.nextSequence >= s.nextSequence && |Holding(t)| == |Holding(s)| + (t.nextSequence - s.nextSequence)
  {
    hide Run, Inv, Apply;
    RunKeepsInv(states, n);
    PassGrantsWholeLeases(states[n], cfg);
  }

  lemma {:induction false} PendingIsFresh(s: Store)
    requires Inv(s)
    ensures forall id | id in s.tickets && s.tickets[id].status == Pending :: s.tickets[id].fence == 0
  {
  }

  // ---------- leases and what ends them, over runs ----------

  /** The action gives the ticket a new lease of the given length. */
  predicate SetsLease(s: Store, a: Action, t: Store, id: Id, ttl: nat) {
    match a
    case Register(_, _, _, length, requests) => id in requests && ttl == length
    case RenewBatch(batch, owner, length) =>
      && id in s.tickets && s.tickets[id].batch == batch && s.tickets[id].owner == owner
      && Waits(s.tickets[id], s.now) && ttl == length
    case Renew(named, owner, fence, length) =>
      && id == named && id in s.tickets && s.tickets[id].status == Granted && s.tickets[id].owner == owner
      && s.tickets[id].fence == fence && s.tickets[id].expiresAt > s.now && ttl == length
    case RunSchedule(_) =>
      && id in s.tickets && s.tickets[id].status == Pending && id in t.tickets && t.tickets[id].status == Granted
      && ttl == s.tickets[id].ttl
    case _ => false
  }

  /** The actions that end a permit before its time: its holder gives it, or the batch, back. */
  predicate GivesBack(a: Action, id: Id, t: Ticket) {
    a == Action.Release(id, t.owner, t.fence) || a == Action.Withdraw(t.batch, t.owner)
  }

  /** What becomes of a ticket's status, and by which action exactly. */
  predicate MayBecome(id: Id, before: Ticket, after: Ticket, a: Action, now: int) {
    match a
    case CancelGraph(graph) => after.status == if before.status == Pending && before.graph == graph then Cancelled else before.status
    case Withdraw(batch, owner) =>
      after.status ==
        if before.batch != batch || before.owner != owner then before.status
        else if before.status == Pending then Withdrawn else if before.status == Granted then Released else before.status
    case Release(named, owner, fence) =>
      after.status ==
        if id == named && before.status == Granted && before.owner == owner && before.fence == fence && before.expiresAt > now then Released
        else before.status
    case RunSchedule(_) =>
      || after.status == before.status
      || (Due(before, now) && after.status == Expired)
      || (Waits(before, now) && after.status in {Granted, Withdrawn})
    case _ => after.status == before.status
  }

  predicate SameIdentity(before: Ticket, after: Ticket) {
    && after.batch == before.batch && after.graph == before.graph && after.node == before.node && after.tool == before.tool
    && after.owner == before.owner && after.ttl == before.ttl && after.createdAt == before.createdAt
  }

  /** The law of one ticket in one step. */
  ghost predicate Lawful(s: Store, a: Action, t: Store, id: Id)
    requires id in s.tickets && id in t.tickets
  {
    var before, after := s.tickets[id], t.tickets[id];
    && SameIdentity(before, after) && MayBecome(id, before, after, a, s.now)
    && (forall ttl: nat | SetsLease(s, a, t, id, ttl) :: after.expiresAt == s.now + ttl)
    && ((forall ttl: nat :: !SetsLease(s, a, t, id, ttl)) ==> after.expiresAt == before.expiresAt)
    && (after.fence != before.fence ==> before.status == Pending && after.status == Granted)
    && (after != before ==> after.revision == before.revision + 1)
  }

  lemma {:induction false} PassIsLawful(s: Store, cfg: Config, id: Id)
    requires Inv(s) && id in s.tickets
    ensures id in Apply(s, RunSchedule(cfg)).tickets && Lawful(s, RunSchedule(cfg), Apply(s, RunSchedule(cfg)), id)
  {
    hide Inv, SchedulePass, Turn, Ready;
    if s.config == None || s.config == Some(cfg) {
      var tables, ids := PassRules(s, cfg);
      var t := Apply(s, RunSchedule(cfg));
      PassTicketIsLawful(s, cfg, t, tables[0], tables[|ids|], ids, id);
    } else {
      assert Apply(s, RunSchedule(cfg)) == s;
    }
  }

  lemma {:induction false} PassTicketIsLawful(s: Store, cfg: Config, t: Store, swept: Tickets, last: Tickets, ids: seq<Id>, id: Id)
    requires Swept(s.tickets, s.now, swept) && Granting(swept, last, ids, s.nextSequence, s.now)
    requires Closed(s.tickets, s.now, last, ids, t.tickets) && id in s.tickets
    ensures id in t.tickets && Lawful(s, RunSchedule(cfg), t, id)
  {
    if id in ids {
      var k :| 0 <= k < |ids| && ids[k] == id;
      assert SetsLease(s, RunSchedule(cfg), t, id, s.tickets[id].ttl);
    } else {
      assert last[id] == swept[id];
    }
  }

  lemma {:induction false} PlainIsLawful(s: Store, a: Action, id: Id)
    requires id in s.tickets && Enabled(s, a) && !a.RunSchedule?
    ensures id in Apply(s, a).tickets && Lawful(s, a, Apply(s, a), id)
  {
    var t := Apply(s, a);
    match a
    case RenewBatch(_, _, ttl) => assert SetsLease(s, a, t, id, ttl) || t.tickets[id] == s.tickets[id];
    case Renew(_, _, _, ttl) => assert SetsLease(s, a, t, id, ttl) || t.tickets[id] == s.tickets[id];
    case _ =>
  }

  /** Every step treats every ticket lawfully; a new ticket waits under the lease it was registered for, as it was asked for. */
  lemma {:induction false} StepIsLawful(s: Store, a: Action)
    requires Inv(s) && Enabled(s, a)
    ensures s.tickets.Keys <= Apply(s, a).tickets.Keys && Apply(s, a).now == s.now + (if a.Advance? then a.seconds else 0)
    ensures forall id | id in s.tickets :: Lawful(s, a, Apply(s, a), id)
    ensures forall id | id in Apply(s, a).tickets && id !in s.tickets ::
              && a.Register? && id in a.requests
              && Apply(s, a).tickets[id] == Ticket(a.batch, a.graph, a.requests[id].node, a.requests[id].tool, a.owner, Pending, 1, 0, None,
                                                   a.ttl, s.now, s.now + a.ttl)
    ensures a.Register? ==> a.requests.Keys <= Apply(s, a).tickets.Keys
  {
    hide Inv, Lawful;
    forall id | id in s.tickets ensures id in Apply(s, a).tickets && Lawful(s, a, Apply(s, a), id) {
      if a.RunSchedule? { PassIsLawful(s, a.cfg, id); } else { PlainIsLawful(s, a, id); }
    }
    if a.RunSchedule? { PassKeepsRows(s, a.cfg); }
  }

  lemma {:induction false} PassKeepsRows(s: Store, cfg: Config)
    requires Inv(s)
    ensures Apply(s, RunSchedule(cfg)).tickets.Keys == s.tickets.Keys && Apply(s, RunSchedule(cfg)).now == s.now
  {
    hide Inv, Turn, Ready, SchedulePass;
    if s.config == None || s.config == Some(cfg) { var tables, ids := PassRules(s, cfg); }
  }

  /** A run with the actions that make it. */
  ghost predicate RunOf(states: seq<Store>, actions: seq<Action>) {
    && |states| == |actions| + 1
    && (exists now :: states[0] == Initial(now))
    && forall k | 0 <= k < |actions| :: Enabled(states[k], actions[k]) && states[k + 1] == Apply(states[k], actions[k])
  }

  lemma {:induction false} RunOfIsRun(states: seq<Store>, actions: seq<Action>)
    requires RunOf(states, actions)
    ensures Run(states)
  {
    hide Enabled, Apply;
    forall k | 0 <= k < |states| - 1 ensures Step(states[k], states[k + 1]) {
      assert Enabled(states[k], actions[k]) && states[k + 1] == Apply(states[k], actions[k]);
    }
  }

  ghost predicate NewLease(s: Store, a: Action, t: Store, id: Id) {
    exists ttl: nat :: SetsLease(s, a, t, id, ttl)
  }

  /** Nobody renewed the permit between the two moments. */
  ghost predicate Unrenewed(states: seq<Store>, actions: seq<Action>, i: nat, j: nat, id: Id)
    requires |states| == |actions| + 1
  {
    forall k | i <= k < j && k < |actions| :: !LeaseSetAt(states, actions, k, id)
  }

  ghost predicate LeaseSetAt(states: seq<Store>, actions: seq<Action>, k: nat, id: Id)
    requires k < |actions| && |states| == |actions| + 1
  {
    NewLease(states[k], actions[k], states[k + 1], id)
  }

  /**
   A permit lasts exactly its lease. Once granted, until its holder renews it, its handle is honoured at every moment before
   the lease is over unless the holder gave the permit or the batch back, whatever anyone else does; and
   from that moment on it never holds a slot again.
   */
  lemma {:induction false} PermitLastsItsLease(states: seq<Store>, actions: seq<Action>, i: nat, j: nat, id: Id)
    requires RunOf(states, actions) && i <= j < |states|
    requires id in states[i].tickets && states[i].tickets[id].status == Granted && Unrenewed(states, actions, i, j, id)
    ensures id in states[j].tickets && states[i].now <= states[j].now
    ensures states[j].tickets[id].expiresAt == states[i].tickets[id].expiresAt
    ensures states[j].now >= states[i].tickets[id].expiresAt ==> id !in Holding(states[j])
    ensures states[j].now < states[i].tickets[id].expiresAt
            && (forall k | i <= k < j :: !GivesBack(actions[k], id, states[i].tickets[id])) ==>
              && states[j].tickets[id].status == Granted
              && Honours(states[j], id, states[i].tickets[id].owner, states[i].tickets[id].fence)
    ensures SameIdentity(states[i].tickets[id], states[j].tickets[id])
    ensures states[j].tickets[id].status != Pending && states[j].tickets[id].fence == states[i].tickets[id].fence
    decreases j
  {
    hide Inv, Apply, Enabled, SetsLease;
    if i < j {
      PermitLastsItsLease(states, actions, i, j - 1, id);
      RunOfIsRun(states, actions);
      RunKeepsInv(states, j - 1);
      assert states[j - 1 + 1] == Apply(states[j - 1], actions[j - 1]);
      StepIsLawful(states[j - 1], actions[j - 1]);
      assert !LeaseSetAt(states, actions, j - 1, id);
    }
  }

  /** A grant starts such a lease: from the pass that granted it, the permit is honoured for its whole length. */
  lemma {:induction false} GrantedForItsLease(states: seq<Store>, actions: seq<Action>, g: nat, j: nat, id: Id)
    requires RunOf(states, actions) && g < j < |states|
    requires id in states[g].tickets && states[g].tickets[id].status == Pending
    requires id in states[g + 1].tickets && states[g + 1].tickets[id].status == Granted && Unrenewed(states, actions, g + 1, j, id)
    requires forall k | g < k < j :: !GivesBack(actions[k], id, states[g + 1].tickets[id])
    ensures Honours(states[j], id, states[g].tickets[id].owner, 1) <==> states[j].now < states[g].now + states[g].tickets[id].ttl
  {
    hide Inv, Apply, Enabled;
    RunOfIsRun(states, actions);
    RunKeepsInv(states, g);
    StepIsLawful(states[g], actions[g]);
    assert SetsLease(states[g], actions[g], states[g + 1], id, states[g].tickets[id].ttl);
    GrantedFence(states, g + 1, id);
    PermitLastsItsLease(states, actions, g + 1, j, id);
  }

  lemma {:induction false} GrantedFence(states: seq<Store>, n: nat, id: Id)
    requires Run(states) && n < |states| && id in states[n].tickets && states[n].tickets[id].status == Granted
    ensures states[n].tickets[id].fence == 1
  {
    RunKeepsInv(states, n);
  }

  // ---------- the stored limits ----------

  /**
   Who may set the limits: a change is taken exactly when no ticket waits or holds under a lease that runs, and touches
   nothing else; a pass stores its limits if there are none yet and is refused under other ones; nothing else sets them.
   */
  lemma {:induction false} LimitsAreSetByRule(s: Store, a: Action)
    requires Inv(s)
    ensures var t := Apply(s, a);
            match a
            case Configure(cfg) =>
              if s.config == Some(cfg) || s.config == None
                 || (forall id | id in s.tickets && s.tickets[id].expiresAt > s.now :: s.tickets[id].status != Pending && s.tickets[id].status != Granted)
              then t == s.(config := Some(cfg)) else t == s
            case RunSchedule(cfg) => if s.config == None || s.config == Some(cfg) then t.config == Some(cfg) else t == s
            case _ => t.config == s.config && t.nextSequence == s.nextSequence
  {
    hide Inv, ExpireDue, GrantAll, Heads, WithdrawSiblings;
    if a.Configure? && LiveTickets(s) != {} {
      var id :| id in LiveTickets(s);
      assert id in s.tickets && s.tickets[id].expiresAt > s.now;
    }
    if a.Configure? {
      forall id | id in s.tickets && s.tickets[id].expiresAt > s.now && s.tickets[id].status in {Pending, Granted} ensures id in LiveTickets(s) {}
    }
  }
}
