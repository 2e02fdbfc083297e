/**
 What one scheduling pass of the cluster store keeps: capacity, the grant sequence and
 least-recently-granted fairness.
 */
module ClusterGrants {
  import opened Ordering
  import opened ClusterAdmission

  ghost predicate Carries(tickets: Tickets, sequence: nat) {
    exists id :: id in tickets && tickets[id].grantSequence == Some(sequence)
  }

  /** The persisted grant sequences number the grants one by one. */
  ghost predicate SequencesOk(tickets: Tickets, nextSequence: nat, history: seq<Grant>) {
    && nextSequence == |history| + 1
    && (forall id | id in tickets && tickets[id].grantSequence.Some? ::
          var n := tickets[id].grantSequence.value;
          1 <= n <= |history| && history[n - 1].graph == tickets[id].graph)
    && (forall a, b | a in tickets && b in tickets && a != b && tickets[a].grantSequence.Some? ::
          tickets[a].grantSequence != tickets[b].grantSequence)
    && (forall n: nat | 1 <= n <= |history| :: Carries(tickets, n))
    && (forall id | id in tickets && tickets[id].status == Pending :: tickets[id].grantSequence == None && tickets[id].fence == 0)
    && (forall id | id in tickets && tickets[id].status == Granted :: tickets[id].grantSequence.Some? && tickets[id].fence == 1)
  }

  ghost predicate GrantedBetween(history: seq<Grant>, i: int, j: int, graph: Id) {
    exists k | 0 <= i < k < j <= |history| :: history[k].graph == graph
  }

  /** Between two grants to one graph, every other graph that is a candidate at the second had its own grant. */
  ghost predicate Fair(history: seq<Grant>) {
    forall i, j, other | 0 <= i < j < |history| && history[i].graph == history[j].graph
                      && other in history[j].candidates && other != history[j].graph ::
      GrantedBetween(history, i, j, other)
  }

  ghost predicate HeadsOk(tickets: Tickets, heads: map<Id, set<Id>>) {
    forall graph, id | graph in heads && id in heads[graph] :: id in tickets && tickets[id].graph == graph
  }

  ghost predicate Sound(p: Progress, cfg: Config) {
    && Within(cfg, p.tickets, GrantedIds(p.tickets))
    && SequencesOk(p.tickets, p.nextSequence, p.history)
    && Fair(p.history)
  }

  /** The ticket a pass grants fits all three limits, and its graph was granted least recently. */
  ghost predicate WellChosen(tickets: Tickets, heads: map<Id, set<Id>>, cfg: Config, candidates: set<Id>, id: Id) {
    && id in tickets && tickets[id].status == Pending
    && tickets[id].graph in heads && id in heads[tickets[id].graph]
    && |GrantedIds(tickets)| < cfg.globalLimit
    && |OfGraph(tickets, GrantedIds(tickets), tickets[id].graph)| < cfg.perGraphLimit
    && |OfTool(tickets, GrantedIds(tickets), tickets[id].tool)| < cfg.ToolLimit(tickets[id].tool)
    && (forall other | other in candidates :: LastGrant(tickets, tickets[id].graph) <= LastGrant(tickets, other))
  }

  lemma {:induction false} NextIsLeastRecent(tickets: Tickets, heads: map<Id, set<Id>>, cfg: Config, other: Id)
    requires other in Candidates(tickets, heads, cfg)
    ensures LastGrant(tickets, NextGraph(tickets, heads, cfg)) <= LastGrant(tickets, other)
  {
    hide IsCandidate, Offer, LastGrant;
    var keys := TurnKeys(tickets, heads, cfg);
    assert other in keys;
    assert LessEq(keys[NextGraph(tickets, heads, cfg)], keys[other]);
  }

  lemma {:induction false} NextIsWellChosen(tickets: Tickets, heads: map<Id, set<Id>>, cfg: Config)
    requires HeadsOk(tickets, heads) && !Finished(tickets, heads, cfg)
    ensures WellChosen(tickets, heads, cfg, Candidates(tickets, heads, cfg), NextTicket(tickets, heads, cfg))
  {
    var graph := NextGraph(tickets, heads, cfg);
    var id := Offer(tickets, heads, cfg, graph);
    assert id in Fitting(tickets, heads[graph], cfg);
    assert id in heads[graph] && tickets[id].graph == graph;
    hide Candidates, Offer, LastGrant;
    forall other | other in Candidates(tickets, heads, cfg) ensures LastGrant(tickets, graph) <= LastGrant(tickets, other) {
      NextIsLeastRecent(tickets, heads, cfg, other);
    }
  }

  lemma {:induction false} GraphShare(tickets: Tickets, id: Id, sequence: nat, now: int, graph: Id)
    requires id in tickets && tickets[id].status == Pending
    ensures var next := tickets[id := GrantTicket(tickets[id], sequence, now)];
            |OfGraph(next, GrantedIds(next), graph)|
            == |OfGraph(tickets, GrantedIds(tickets), graph)| + if graph == tickets[id].graph then 1 else 0
  {
    var next := tickets[id := GrantTicket(tickets[id], sequence, now)];
    GrantedGrows(tickets, id, sequence, now);
    var own := if graph == tickets[id].graph then {id} else {};
    assert OfGraph(next, GrantedIds(next), graph) == OfGraph(tickets, GrantedIds(tickets), graph) + own;
  }

  lemma {:induction false} ToolShare(tickets: Tickets, id: Id, sequence: nat, now: int, tool: Id)
    requires id in tickets && tickets[id].status == Pending
    ensures var next := tickets[id := GrantTicket(tickets[id], sequence, now)];
            |OfTool(next, GrantedIds(next), tool)|
            == |OfTool(tickets, GrantedIds(tickets), tool)| + if tool == tickets[id].tool then 1 else 0
  {
    var next := tickets[id := GrantTicket(tickets[id], sequence, now)];
    GrantedGrows(tickets, id, sequence, now);
    var own := if tool == tickets[id].tool then {id} else {};
    assert OfTool(next, GrantedIds(next), tool) == OfTool(tickets, GrantedIds(tickets), tool) + own;
  }

  lemma {:induction false} GrantKeepsCapacity(tickets: Tickets, id: Id, cfg: Config, sequence: nat, now: int)
    requires Within(cfg, tickets, GrantedIds(tickets))
    requires id in tickets && tickets[id].status == Pending
    requires |GrantedIds(tickets)| < cfg.globalLimit
    requires |OfGraph(tickets, GrantedIds(tickets), tickets[id].graph)| < cfg.perGraphLimit
    requires |OfTool(tickets, GrantedIds(tickets), tickets[id].tool)| < cfg.ToolLimit(tickets[id].tool)
    ensures var next := tickets[id := GrantTicket(tickets[id], sequence, now)];
            Within(cfg, next, GrantedIds(next))
  {
    hide OfGraph, OfTool, GrantedIds;
    var next := tickets[id := GrantTicket(tickets[id], sequence, now)];
    GrantedGrows(tickets, id, sequence, now);
    forall graph ensures |OfGraph(next, GrantedIds(next), graph)| <= cfg.perGraphLimit {
      GraphShare(tickets, id, sequence, now, graph);
    }
    forall tool ensures |OfTool(next, GrantedIds(next), tool)| <= cfg.ToolLimit(tool) {
      ToolShare(tickets, id, sequence, now, tool);
    }
  }

  lemma {:induction false} GrantKeepsSequences(p: Progress, id: Id, candidates: set<Id>, now: int)
    requires SequencesOk(p.tickets, p.nextSequence, p.history)
    requires id in p.tickets && p.tickets[id].status == Pending
    ensures var q := GrantTo(p, id, candidates, now);
            SequencesOk(q.tickets, q.nextSequence, q.history)
  {
    var q := GrantTo(p, id, candidates, now);
    forall n: nat | 1 <= n <= |q.history| ensures Carries(q.tickets, n) {
      if n <= |p.history| {
        assert Carries(p.tickets, n);
        var other :| other in p.tickets && p.tickets[other].grantSequence == Some(n);
        assert other in q.tickets && q.tickets[other].grantSequence == Some(n);
      } else {
        assert q.tickets[id].grantSequence == Some(n);
      }
    }
  }

  lemma {:induction false} LastGrantSeen(tickets: Tickets, nextSequence: nat, history: seq<Grant>, i: nat)
    requires SequencesOk(tickets, nextSequence, history) && i < |history|
    ensures LastGrant(tickets, history[i].graph) >= i + 1
  {
    assert Carries(tickets, i + 1);
    var id :| id in tickets && tickets[id].grantSequence == Some(i + 1);
    assert i + 1 in Sequences(tickets, history[i].graph);
  }

  lemma {:induction false} LastGrantIsGrant(tickets: Tickets, nextSequence: nat, history: seq<Grant>, graph: Id)
    requires SequencesOk(tickets, nextSequence, history) && LastGrant(tickets, graph) > 0
    ensures LastGrant(tickets, graph) <= |history| && history[LastGrant(tickets, graph) - 1].graph == graph
  {
    var n := LastGrant(tickets, graph);
    assert n in Sequences(tickets, graph);
    var id :| id in tickets && tickets[id].graph == graph && tickets[id].grantSequence == Some(n);
  }

  /** Least-recently-granted choice is what makes the history fair. */
  lemma {:induction false} GrantKeepsFairness(p: Progress, candidates: set<Id>, id: Id, now: int)
    requires SequencesOk(p.tickets, p.nextSequence, p.history) && Fair(p.history)
    requires id in p.tickets
    requires forall other | other in candidates :: LastGrant(p.tickets, p.tickets[id].graph) <= LastGrant(p.tickets, other)
    ensures Fair(GrantTo(p, id, candidates, now).history)
  {
    var graph := p.tickets[id].graph;
    var after := p.history + [Grant(graph, candidates)];
    forall i, j, other | 0 <= i < j < |after| && after[i].graph == after[j].graph
                      && other in after[j].candidates && other != after[j].graph
      ensures GrantedBetween(after, i, j, other)
    {
      if j < |p.history| {
        assert GrantedBetween(p.history, i, j, other);
        var k :| i < k < j && p.history[k].graph == other;
        assert after[k].graph == other;
      } else {
        LastGrantSeen(p.tickets, p.nextSequence, p.history, i);
        LastGrantIsGrant(p.tickets, p.nextSequence, p.history, other);
        var k := LastGrant(p.tickets, other) - 1;
        assert after[k].graph == other && after[i].graph == graph;
      }
    }
  }

  /** What a pass may do to a ticket before the siblings are withdrawn. */
  ghost predicate GrantOrKeep(before: Ticket, after: Ticket, now: int) {
    || after == before
    || (before.status == Pending && exists n: nat :: after == GrantTicket(before, n, now))
  }

  ghost predicate OnlyHeadsGranted(before: Tickets, after: Tickets, heads: map<Id, set<Id>>, now: int) {
    && after.Keys == before.Keys
    && (forall id | id in before :: GrantOrKeep(before[id], after[id], now))
    && (forall id | id in before && after[id] != before[id] ::
          before[id].graph in heads && id in heads[before[id].graph])
  }

  lemma {:induction false} GrantAllSound(p: Progress, heads: map<Id, set<Id>>, cfg: Config, now: int)
    requires Sound(p, cfg) && HeadsOk(p.tickets, heads)
    ensures var q := GrantAll(p, heads, cfg, now);
            && Sound(q, cfg)
            && Finished(q.tickets, heads, cfg)
            && OnlyHeadsGranted(p.tickets, q.tickets, heads, now)
            && p.history <= q.history
    decreases cfg.globalLimit - |GrantedIds(p.tickets)|
  {
    hide Candidates, NextTicket, NextGraph, Offer, Within, SequencesOk, Fair, GrantedIds, IsCandidate;
    if !Finished(p.tickets, heads, cfg) {
      var id := NextTicket(p.tickets, heads, cfg);
      var candidates := Candidates(p.tickets, heads, cfg);
      var next := GrantTo(p, id, candidates, now);
      NextIsWellChosen(p.tickets, heads, cfg);
      GrantedGrows(p.tickets, id, p.nextSequence, now);
      GrantIsSound(p, heads, cfg, candidates, id, now);
      GrantAllSound(next, heads, cfg, now);
      GrantThenOthers(p, next, GrantAll(next, heads, cfg, now), heads, candidates, id, now);
    }
  }

  lemma {:induction false} GrantIsSound(p: Progress, heads: map<Id, set<Id>>, cfg: Config, candidates: set<Id>, id: Id, now: int)
    requires Sound(p, cfg) && HeadsOk(p.tickets, heads)
    requires WellChosen(p.tickets, heads, cfg, candidates, id)
    ensures Sound(GrantTo(p, id, candidates, now), cfg)
    ensures HeadsOk(GrantTo(p, id, candidates, now).tickets, heads)
  {
    GrantKeepsCapacity(p.tickets, id, cfg, p.nextSequence, now);
    GrantKeepsSequences(p, id, candidates, now);
    GrantKeepsFairness(p, candidates, id, now);
  }

  lemma {:induction false} GrantThenOthers(p: Progress, next: Progress, q: Progress, heads: map<Id, set<Id>>, candidates: set<Id>, id: Id, now: int)
    requires id in p.tickets && p.tickets[id].status == Pending
    requires p.tickets[id].graph in heads && id in heads[p.tickets[id].graph]
    requires next == GrantTo(p, id, candidates, now)
    requires OnlyHeadsGranted(next.tickets, q.tickets, heads, now)
    ensures OnlyHeadsGranted(p.tickets, q.tickets, heads, now)
  {
    assert next.tickets[id] == GrantTicket(p.tickets[id], p.nextSequence, now);
    assert GrantOrKeep(next.tickets[id], q.tickets[id], now);
    forall o | o in p.tickets
      ensures GrantOrKeep(p.tickets[o], q.tickets[o], now)
      ensures q.tickets[o] != p.tickets[o] ==> p.tickets[o].graph in heads && o in heads[p.tickets[o].graph]
    {
      assert GrantOrKeep(next.tickets[o], q.tickets[o], now);
      if o != id { assert next.tickets[o] == p.tickets[o]; }
    }
  }
}
