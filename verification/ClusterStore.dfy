/**
 The store as its transactions run it: rows changed in place, one scheduling pass with
 running counters, ordered scans and a persisted sequence. Every method is proved to take
 the step that `ClusterAdmission` defines by recounting the table.
 */
module ClusterStore {
  import opened Ordering
  import opened ClusterAdmission
  import opened ClusterGrants
  import opened ClusterLeases
  import opened ClusterSafety

  function OfBatch(tickets: Tickets, batch: Id, owner: Id, statuses: set<Status>): set<Id> {
    set id | id in tickets && tickets[id].batch == batch && tickets[id].owner == owner && tickets[id].status in statuses
  }

  function SettledAll(tickets: Tickets, ids: set<Id>, status: Status): Tickets {
    map id | id in tickets :: if id in ids then Settle(tickets[id], status) else tickets[id]
  }

  /** What waited is no longer granted after it is settled, so the second update finds what was granted before. */
  lemma {:induction false} GrantedStays(tickets: Tickets, batch: Id, owner: Id)
    ensures OfBatch(SettledAll(tickets, OfBatch(tickets, batch, owner, {Pending}), Withdrawn), batch, owner, {Granted})
         == OfBatch(tickets, batch, owner, {Granted})
  {
    var middle := SettledAll(tickets, OfBatch(tickets, batch, owner, {Pending}), Withdrawn);
    forall id ensures id in OfBatch(middle, batch, owner, {Granted}) <==> id in OfBatch(tickets, batch, owner, {Granted}) {
      if id in tickets { assert middle[id] == if id in OfBatch(tickets, batch, owner, {Pending}) then Settle(tickets[id], Withdrawn) else tickets[id]; }
    }
  }

  lemma {:induction false} PartsOfBatch(tickets: Tickets, batch: Id, owner: Id)
    ensures |OfBatch(tickets, batch, owner, {Pending})| + |OfBatch(tickets, batch, owner, {Granted})|
         == |OfBatch(tickets, batch, owner, {Pending, Granted})|
  {
    var pending, granted := OfBatch(tickets, batch, owner, {Pending}), OfBatch(tickets, batch, owner, {Granted});
    assert pending !! granted;
    assert pending + granted == OfBatch(tickets, batch, owner, {Pending, Granted});
  }

  lemma {:induction false} SettledTwice(s: Store, batch: Id, owner: Id)
    ensures SettledAll(SettledAll(s.tickets, OfBatch(s.tickets, batch, owner, {Pending}), Withdrawn),
                       OfBatch(s.tickets, batch, owner, {Granted}), Released)
         == ClusterAdmission.WithdrawBatch(s, batch, owner).tickets
  {
    var middle := SettledAll(s.tickets, OfBatch(s.tickets, batch, owner, {Pending}), Withdrawn);
    var last := SettledAll(middle, OfBatch(s.tickets, batch, owner, {Granted}), Released);
    var goal := ClusterAdmission.WithdrawBatch(s, batch, owner).tickets;
    forall id | id in s.tickets ensures id in last && id in goal && last[id] == goal[id] {
      assert middle[id] == if PendingOf(s.tickets[id], batch, owner) then Settle(s.tickets[id], Withdrawn) else s.tickets[id];
    }
  }

  /** Settling what waits and then what was granted is one withdrawal, and touches each ticket once. */
  lemma {:induction false} TwoUpdates(s: Store, batch: Id, owner: Id)
    ensures var pending := OfBatch(s.tickets, batch, owner, {Pending});
            var middle := SettledAll(s.tickets, pending, Withdrawn);
            var granted := OfBatch(middle, batch, owner, {Granted});
            && SettledAll(middle, granted, Released) == ClusterAdmission.WithdrawBatch(s, batch, owner).tickets
            && |pending| + |granted| == |OfBatch(s.tickets, batch, owner, {Pending, Granted})|
  {
    hide OfBatch, SettledAll;
    GrantedStays(s.tickets, batch, owner);
    PartsOfBatch(s.tickets, batch, owner);
    SettledTwice(s, batch, owner);
  }

  lemma {:induction false} NumberedByHistory(s: Store, a: Action)
    requires Inv(s) && Enabled(s, a)
    ensures s.nextSequence == |s.history| + 1 && Apply(s, a).nextSequence == |Apply(s, a).history| + 1
  {
    hide Apply, Enabled;
    StepKeepsInv(s, a);
  }

  ghost predicate CountsGraphs(tickets: Tickets, ids: set<Id>, m: map<Id, nat>) {
    forall graph :: Count(m, graph) == |OfGraph(tickets, ids, graph)|
  }

  ghost predicate CountsTools(tickets: Tickets, ids: set<Id>, m: map<Id, nat>) {
    forall tool :: Count(m, tool) == |OfTool(tickets, ids, tool)|
  }

  ghost predicate KnowsLastGrants(tickets: Tickets, m: map<Id, nat>) {
    forall graph :: Count(m, graph) == LastGrant(tickets, graph)
  }

  predicate Older(tickets: Tickets, a: Id, b: Id)
    requires a in tickets && b in tickets
  {
    LessEq(Key(tickets[a].createdAt, a, 0), Key(tickets[b].createdAt, b, 0))
  }

  predicate InAgeOrder(tickets: Tickets, rows: seq<Id>) {
    && (forall i | 0 <= i < |rows| :: rows[i] in tickets)
    && (forall i, j | 0 <= i < j < |rows| :: rows[i] != rows[j] && Older(tickets, rows[i], rows[j]))
  }

  ghost predicate Lists(rows: seq<Id>, ids: set<Id>) {
    forall id :: id in rows <==> id in ids
  }

  ghost predicate ListsHeads(tickets: Tickets, rows: map<Id, seq<Id>>, heads: map<Id, set<Id>>) {
    && rows.Keys == heads.Keys
    && (forall graph | graph in rows :: Lists(rows[graph], heads[graph]) && InAgeOrder(tickets, rows[graph]))
  }

  lemma {:induction false} OldestIs(tickets: Tickets, ids: set<Id>, id: Id)
    requires id in ids && ids <= tickets.Keys
    requires forall o | o in ids :: Older(tickets, id, o)
    ensures Oldest(tickets, ids) == id
  {
    var keys := AgeKeys(tickets, ids);
    assert id in keys;
    assert forall o | o in keys :: LessEq(keys[id], keys[o]);
    LeastUnique(keys, id);
  }

  lemma {:induction false} OneMoreOfGraph(tickets: Tickets, ids: set<Id>, id: Id, graph: Id)
    requires id in tickets && id !in ids
    ensures |OfGraph(tickets, ids + {id}, graph)| == |OfGraph(tickets, ids, graph)| + if tickets[id].graph == graph then 1 else 0
  {
    if tickets[id].graph == graph {
      assert OfGraph(tickets, ids + {id}, graph) == OfGraph(tickets, ids, graph) + {id};
    } else {
      assert OfGraph(tickets, ids + {id}, graph) == OfGraph(tickets, ids, graph);
    }
  }

  lemma {:induction false} OneMoreOfTool(tickets: Tickets, ids: set<Id>, id: Id, tool: Id)
    requires id in tickets && id !in ids
    ensures |OfTool(tickets, ids + {id}, tool)| == |OfTool(tickets, ids, tool)| + if tickets[id].tool == tool then 1 else 0
  {
    if tickets[id].tool == tool {
      assert OfTool(tickets, ids + {id}, tool) == OfTool(tickets, ids, tool) + {id};
    } else {
      assert OfTool(tickets, ids + {id}, tool) == OfTool(tickets, ids, tool);
    }
  }

  method CountActive(tickets: Tickets, ids: set<Id>) returns (byGraph: map<Id, nat>, byTool: map<Id, nat>)
    requires ids <= tickets.Keys
    ensures CountsGraphs(tickets, ids, byGraph) && CountsTools(tickets, ids, byTool)
  {
    byGraph, byTool := map[], map[];
    var rest := ids;
    ghost var seen := {};
    while rest != {}
      invariant rest <= ids && seen == ids - rest
      invariant CountsGraphs(tickets, seen, byGraph) && CountsTools(tickets, seen, byTool)
      decreases |rest|
    {
      var id :| id in rest;
      forall k ensures |OfGraph(tickets, seen + {id}, k)| == |OfGraph(tickets, seen, k)| + (if tickets[id].graph == k then 1 else 0)
               ensures |OfTool(tickets, seen + {id}, k)| == |OfTool(tickets, seen, k)| + (if tickets[id].tool == k then 1 else 0)
      {
        OneMoreOfGraph(tickets, seen, id, k);
        OneMoreOfTool(tickets, seen, id, k);
      }
      byGraph := byGraph[tickets[id].graph := Count(byGraph, tickets[id].graph) + 1];
      byTool := byTool[tickets[id].tool := Count(byTool, tickets[id].tool) + 1];
      rest, seen := rest - {id}, seen + {id};
    }
    assert seen == ids;
  }

  /** SELECT graph_id, max(grant_sequence) ... GROUP BY graph_id. */
  method ReadLastGrants(tickets: Tickets) returns (last: map<Id, nat>)
    ensures KnowsLastGrants(tickets, last)
  {
    last := map[];
    var rest := tickets.Keys;
    while rest != {}
      invariant rest <= tickets.Keys
      invariant forall graph | graph in last :: last[graph] in Sequences(tickets, graph)
      invariant forall id | id in tickets && id !in rest && tickets[id].grantSequence.Some? ::
                  tickets[id].grantSequence.value <= Count(last, tickets[id].graph)
      decreases |rest|
    {
      var id :| id in rest;
      var t := tickets[id];
      if t.grantSequence.Some? {
        assert t.grantSequence.value in Sequences(tickets, t.graph);
        if t.graph !in last || last[t.graph] < t.grantSequence.value {
          last := last[t.graph := t.grantSequence.value];
        }
      }
      rest := rest - {id};
    }
    forall graph ensures Count(last, graph) == LastGrant(tickets, graph) {
      forall n | n in Sequences(tickets, graph) ensures n <= Count(last, graph) {}
    }
  }

  /** The first member of a batch, in waiting order, that fits its tool limit. */
  method FirstFitting(tickets: Tickets, rows: seq<Id>, ghost head: set<Id>, cfg: Config, byTool: map<Id, nat>) returns (found: Option<Id>)
    requires Lists(rows, head) && InAgeOrder(tickets, rows)
    requires CountsTools(tickets, GrantedIds(tickets), byTool)
    ensures found == None <==> Fitting(tickets, head, cfg) == {}
    ensures found.Some? ==> found.value in Fitting(tickets, head, cfg) && found.value == Oldest(tickets, Fitting(tickets, head, cfg))
  {
    var i := 0;
    while i < |rows|
      invariant 0 <= i <= |rows|
      invariant forall k | 0 <= k < i :: rows[k] !in Fitting(tickets, head, cfg)
    {
      var t := tickets[rows[i]];
      if t.status == Pending && Count(byTool, t.tool) < cfg.ToolLimit(t.tool) {
        assert rows[i] in Fitting(tickets, head, cfg);
        forall o | o in Fitting(tickets, head, cfg) ensures Older(tickets, rows[i], o) {
          var k :| 0 <= k < |rows| && rows[k] == o;
        }
        OldestIs(tickets, Fitting(tickets, head, cfg), rows[i]);
        return Some(rows[i]);
      }
      i := i + 1;
    }
    found := None;
  }

  lemma {:induction false} LeastTurn(tickets: Tickets, heads: map<Id, set<Id>>, cfg: Config, graph: Id)
    requires graph in Candidates(tickets, heads, cfg)
    requires forall other | other in Candidates(tickets, heads, cfg) ::
               LessEq(TurnKey(tickets, heads, cfg, graph), TurnKey(tickets, heads, cfg, other))
    ensures NextGraph(tickets, heads, cfg) == graph
  {
    hide IsCandidate, Offer, LastGrant;
    var keys := TurnKeys(tickets, heads, cfg);
    assert graph in keys;
    assert IsLeast(keys, graph);
    LeastUnique(keys, graph);
  }

  /** The scan over the waiting graphs: the least (last grant, age, graph) of those that fit. */
  method ChooseNext(tickets: Tickets, rows: map<Id, seq<Id>>, ghost heads: map<Id, set<Id>>, cfg: Config,
                    byGraph: map<Id, nat>, byTool: map<Id, nat>, last: map<Id, nat>) returns (next: Option<Id>)
    requires ListsHeads(tickets, rows, heads)
    requires CountsGraphs(tickets, GrantedIds(tickets), byGraph)
    requires CountsTools(tickets, GrantedIds(tickets), byTool)
    requires KnowsLastGrants(tickets, last)
    ensures next == None <==> Candidates(tickets, heads, cfg) == {}
    ensures next.Some? ==> next.value == NextTicket(tickets, heads, cfg)
  {
    hide Offer, OfGraph, OfTool, GrantedIds, LastGrant, InAgeOrder, Lists, Fitting;
    next := None;
    var bestGraph, bestKey := 0, Key(0, 0, 0);
    var rest := rows.Keys;
    while rest != {}
      invariant rest <= rows.Keys
      invariant next == None ==> forall graph | graph in rows && graph !in rest :: !IsCandidate(tickets, heads, cfg, graph)
      invariant next.Some? ==>
        && bestGraph in rows && bestGraph !in rest && IsCandidate(tickets, heads, cfg, bestGraph)
        && next.value == Offer(tickets, heads, cfg, bestGraph) && bestKey == TurnKey(tickets, heads, cfg, bestGraph)
        && (forall graph | graph in rows && graph !in rest && IsCandidate(tickets, heads, cfg, graph) ::
              LessEq(bestKey, TurnKey(tickets, heads, cfg, graph)))
      decreases |rest|
    {
      var graph :| graph in rest;
      if Count(byGraph, graph) < cfg.perGraphLimit {
        var offer := FirstFitting(tickets, rows[graph], heads[graph], cfg, byTool);
        if offer.Some? {
          assert IsCandidate(tickets, heads, cfg, graph);
          OfferIsOldest(tickets, heads, cfg, graph);
          var key := Key(Count(last, graph), tickets[offer.value].createdAt, graph);
          assert key == TurnKey(tickets, heads, cfg, graph);
          if next == None || !LessEq(bestKey, key) {
            next, bestGraph, bestKey := offer, graph, key;
          }
        }
      }
      rest := rest - {graph};
    }
    if next.Some? {
      LeastTurn(tickets, heads, cfg, bestGraph);
    }
  }

  lemma {:induction false} OfferIsOldest(tickets: Tickets, heads: map<Id, set<Id>>, cfg: Config, graph: Id)
    requires IsCandidate(tickets, heads, cfg, graph)
    ensures Offer(tickets, heads, cfg, graph) == Oldest(tickets, Fitting(tickets, heads[graph], cfg))
    ensures Offer(tickets, heads, cfg, graph) in tickets
  {
  }

  // ---------- heads ----------

  ghost predicate HeadRow(tickets: Tickets, rows: seq<Id>, i: nat, graph: Id, head: seq<Id>)
    requires InAgeOrder(tickets, rows) && i <= |rows|
  {
    && |head| > 0
    && InAgeOrder(tickets, head)
    && (forall id | id in head :: id in rows[..i])
    && (forall id | id in rows[..i] && tickets[id].graph == graph :: Older(tickets, head[0], id))
    && (forall id | id in rows[..i] ::
          id in head <==> tickets[id].graph == graph && tickets[id].batch == tickets[head[0]].batch)
  }

  lemma {:induction false} NextRow(tickets: Tickets, rows: seq<Id>, i: nat)
    requires InAgeOrder(tickets, rows) && i < |rows|
    ensures rows[..i + 1] == rows[..i] + [rows[i]] && rows[i] !in rows[..i]
    ensures forall o | o in rows[..i] :: o in tickets && Older(tickets, o, rows[i])
  {
  }

  lemma {:induction false} HeadRowStarts(tickets: Tickets, rows: seq<Id>, i: nat)
    requires InAgeOrder(tickets, rows) && i < |rows|
    requires forall o | o in rows[..i] :: tickets[o].graph != tickets[rows[i]].graph
    ensures HeadRow(tickets, rows, i + 1, tickets[rows[i]].graph, [rows[i]])
  {
    NextRow(tickets, rows, i);
  }

  lemma {:induction false} HeadRowKeeps(tickets: Tickets, rows: seq<Id>, i: nat, graph: Id, head: seq<Id>)
    requires InAgeOrder(tickets, rows) && i < |rows| && HeadRow(tickets, rows, i, graph, head)
    requires tickets[rows[i]].graph != graph || tickets[rows[i]].batch != tickets[head[0]].batch
    ensures HeadRow(tickets, rows, i + 1, graph, head)
  {
    NextRow(tickets, rows, i);
    assert head[0] in head;
  }

  lemma {:induction false} HeadRowGrows(tickets: Tickets, rows: seq<Id>, i: nat, graph: Id, head: seq<Id>)
    requires InAgeOrder(tickets, rows) && i < |rows| && HeadRow(tickets, rows, i, graph, head)
    requires tickets[rows[i]].graph == graph && tickets[rows[i]].batch == tickets[head[0]].batch
    ensures HeadRow(tickets, rows, i + 1, graph, head + [rows[i]])
  {
    NextRow(tickets, rows, i);
    assert head[0] in head;
    var longer := head + [rows[i]];
    forall a, b | 0 <= a < b < |longer| ensures longer[a] != longer[b] && Older(tickets, longer[a], longer[b]) {
      assert longer[a] in head;
    }
  }

  function GraphsIn(tickets: Tickets, rows: seq<Id>): set<Id> {
    set id | id in rows && id in tickets :: tickets[id].graph
  }

  lemma {:induction false} FirstOfHead(tickets: Tickets, rows: seq<Id>, i: nat, graph: Id, head: seq<Id>)
    requires InAgeOrder(tickets, rows) && i <= |rows| && HeadRow(tickets, rows, i, graph, head)
    ensures |head| > 0 && head[0] in tickets
  {
    assert head[0] in head;
  }

  lemma {:induction false} GraphsGrow(tickets: Tickets, rows: seq<Id>, i: nat)
    requires InAgeOrder(tickets, rows) && i < |rows|
    ensures rows[i] in tickets
    ensures GraphsIn(tickets, rows[..i + 1]) == GraphsIn(tickets, rows[..i]) + {tickets[rows[i]].graph}
    ensures tickets[rows[i]].graph !in GraphsIn(tickets, rows[..i]) ==>
              forall o | o in rows[..i] :: o in tickets && tickets[o].graph != tickets[rows[i]].graph
  {
    NextRow(tickets, rows, i);
  }

  lemma {:induction false} NoGraphs(tickets: Tickets, rows: seq<Id>)
    ensures GraphsIn(tickets, rows[..0]) == {}
  {
  }

  /** Groups the ordered rows by graph and keeps each graph's first batch. */
  method GroupHeads(tickets: Tickets, rows: seq<Id>) returns (heads: map<Id, seq<Id>>)
    requires InAgeOrder(tickets, rows)
    ensures heads.Keys == GraphsIn(tickets, rows)
    ensures forall graph | graph in heads :: HeadRow(tickets, rows, |rows|, graph, heads[graph])
  {
    hide InAgeOrder, Older, HeadRow, GraphsIn;
    heads := map[];
    assert GraphsIn(tickets, rows[..0]) == {} by { NoGraphs(tickets, rows); }
    for i := 0 to |rows|
      invariant heads.Keys == GraphsIn(tickets, rows[..i])
      invariant forall graph | graph in heads :: HeadRow(tickets, rows, i, graph, heads[graph])
    {
      GraphsGrow(tickets, rows, i);
      var t := tickets[rows[i]];
      if t.graph !in heads {
        HeadRowStarts(tickets, rows, i);
        ghost var before := heads;
        heads := heads[t.graph := [rows[i]]];
        OthersKeep(tickets, rows, i, before, heads);
      } else {
        FirstOfHead(tickets, rows, i, t.graph, heads[t.graph]);
        ghost var before := heads;
        if tickets[heads[t.graph][0]].batch == t.batch {
          HeadRowGrows(tickets, rows, i, t.graph, heads[t.graph]);
          heads := heads[t.graph := heads[t.graph] + [rows[i]]];
        } else {
          HeadRowKeeps(tickets, rows, i, t.graph, heads[t.graph]);
        }
        OthersKeep(tickets, rows, i, before, heads);
      }
    }
    assert rows[..|rows|] == rows;
  }

  lemma {:induction false} OthersKeep(tickets: Tickets, rows: seq<Id>, i: nat, before: map<Id, seq<Id>>, after: map<Id, seq<Id>>)
    requires InAgeOrder(tickets, rows) && i < |rows|
    requires forall graph | graph in before :: HeadRow(tickets, rows, i, graph, before[graph])
    requires tickets[rows[i]].graph in after && HeadRow(tickets, rows, i + 1, tickets[rows[i]].graph, after[tickets[rows[i]].graph])
    requires forall graph | graph in after && graph != tickets[rows[i]].graph :: graph in before && after[graph] == before[graph]
    ensures forall graph | graph in after :: HeadRow(tickets, rows, i + 1, graph, after[graph])
  {
    forall graph | graph in after ensures HeadRow(tickets, rows, i + 1, graph, after[graph]) {
      if graph != tickets[rows[i]].graph { HeadRowKeeps(tickets, rows, i, graph, before[graph]); }
    }
  }

  lemma {:induction false} GroupIsHead(tickets: Tickets, rows: seq<Id>, head: seq<Id>, pending: set<Id>, graph: Id)
    requires InAgeOrder(tickets, rows) && Lists(rows, pending) && pending <= tickets.Keys
    requires HeadRow(tickets, rows, |rows|, graph, head)
    requires OfGraph(tickets, pending, graph) != {}
    ensures Lists(head, HeadOf(tickets, pending, graph)) && InAgeOrder(tickets, head)
  {
    assert rows[..|rows|] == rows;
    var own := OfGraph(tickets, pending, graph);
    assert head[0] in head;
    OldestIs(tickets, own, head[0]);
  }

  lemma {:induction false} SameGraphs(tickets: Tickets, rows: seq<Id>, pending: set<Id>)
    requires Lists(rows, pending)
    ensures GraphsIn(tickets, rows) == GraphsOf(tickets, pending)
  {
  }

  lemma {:induction false} HeadsAt(tickets: Tickets, pending: set<Id>)
    requires pending <= tickets.Keys
    ensures Heads(tickets, pending).Keys == GraphsOf(tickets, pending)
    ensures forall graph | graph in GraphsOf(tickets, pending) ::
              OfGraph(tickets, pending, graph) != {} && Heads(tickets, pending)[graph] == HeadOf(tickets, pending, graph)
  {
    hide HeadOf;
    forall graph | graph in GraphsOf(tickets, pending) ensures OfGraph(tickets, pending, graph) != {} {
      GraphHasTicket(tickets, pending, graph);
    }
  }

  lemma {:induction false} GroupsAreHeads(tickets: Tickets, rows: seq<Id>, groups: map<Id, seq<Id>>, pending: set<Id>)
    requires InAgeOrder(tickets, rows) && Lists(rows, pending) && pending <= tickets.Keys
    requires groups.Keys == GraphsIn(tickets, rows)
    requires forall graph | graph in groups :: HeadRow(tickets, rows, |rows|, graph, groups[graph])
    ensures ListsHeads(tickets, groups, Heads(tickets, pending))
  {
    SameGraphs(tickets, rows, pending);
    HeadsAt(tickets, pending);
    hide Heads, HeadOf, HeadRow, InAgeOrder, Lists, GraphsIn, GraphsOf, OfGraph;
    forall graph | graph in groups
      ensures Lists(groups[graph], Heads(tickets, pending)[graph]) && InAgeOrder(tickets, groups[graph])
    {
      GroupIsHead(tickets, rows, groups[graph], pending, graph);
    }
  }

  // ---------- the running figures stay right across one grant ----------

  lemma {:induction false} LastGrantMoves(p: Progress, id: Id, candidates: set<Id>, now: int, graph: Id)
    requires SequencesOk(p.tickets, p.nextSequence, p.history)
    requires id in p.tickets && p.tickets[id].status == Pending
    ensures LastGrant(GrantTo(p, id, candidates, now).tickets, graph)
            == if graph == p.tickets[id].graph then p.nextSequence else LastGrant(p.tickets, graph)
  {
    var after := GrantTo(p, id, candidates, now).tickets;
    if graph == p.tickets[id].graph {
      assert after[id].graph == graph && after[id].grantSequence == Some(p.nextSequence);
      assert p.nextSequence in Sequences(after, graph);
      forall n | n in Sequences(after, graph) ensures n <= p.nextSequence {}
    } else {
      forall n ensures n in Sequences(after, graph) <==> n in Sequences(p.tickets, graph) {
        if n in Sequences(p.tickets, graph) {
          var o :| o in p.tickets && p.tickets[o].graph == graph && p.tickets[o].grantSequence == Some(n);
          assert after[o].grantSequence == Some(n) && after[o].graph == graph;
        }
        if n in Sequences(after, graph) {
          var o :| o in after && after[o].graph == graph && after[o].grantSequence == Some(n);
          assert p.tickets[o].grantSequence == Some(n) && p.tickets[o].graph == graph;
        }
      }
      assert Sequences(after, graph) == Sequences(p.tickets, graph);
    }
  }

  lemma {:induction false} ServedMoves(tickets: Tickets, pending: set<Id>, id: Id, sequence: nat, now: int)
    requires id in pending && id in tickets && tickets[id].status == Pending
    ensures ServedBatches(tickets[id := GrantTicket(tickets[id], sequence, now)], pending)
            == ServedBatches(tickets, pending) + {tickets[id].batch}
  {
    var after := tickets[id := GrantTicket(tickets[id], sequence, now)];
    forall o | o in pending && o in tickets && tickets[o].status == Granted
      ensures tickets[o].batch in ServedBatches(after, pending)
    {
      assert after[o] == tickets[o];
    }
    assert after[id].status == Granted && after[id].batch == tickets[id].batch;
    assert tickets[id].batch in ServedBatches(after, pending);
  }

  lemma {:induction false} HeadsArePending(tickets: Tickets, pending: set<Id>)
    requires pending <= tickets.Keys
    ensures forall graph, id | graph in Heads(tickets, pending) && id in Heads(tickets, pending)[graph] :: id in pending
  {
    forall graph | graph in Heads(tickets, pending) ensures Heads(tickets, pending)[graph] <= pending {
      GraphHasTicket(tickets, pending, graph);
    }
  }

  /** Everything the grant loop keeps up to date, and that it agrees with a recount of the table. */
  ghost predicate Figures(tickets: Tickets, groups: map<Id, seq<Id>>, heads: map<Id, set<Id>>, pending: set<Id>, total: nat,
                          byGraph: map<Id, nat>, byTool: map<Id, nat>, last: map<Id, nat>, served: set<Id>) {
    && ListsHeads(tickets, groups, heads)
    && total == |GrantedIds(tickets)|
    && CountsGraphs(tickets, GrantedIds(tickets), byGraph)
    && CountsTools(tickets, GrantedIds(tickets), byTool)
    && KnowsLastGrants(tickets, last)
    && served == ServedBatches(tickets, pending)
  }

  lemma {:induction false} HeadsStayListed(tickets: Tickets, groups: map<Id, seq<Id>>, heads: map<Id, set<Id>>, id: Id, sequence: nat, now: int)
    requires ListsHeads(tickets, groups, heads) && id in tickets
    ensures ListsHeads(tickets[id := GrantTicket(tickets[id], sequence, now)], groups, heads)
  {
    var after := tickets[id := GrantTicket(tickets[id], sequence, now)];
    forall graph | graph in groups ensures InAgeOrder(after, groups[graph]) {
      assert InAgeOrder(tickets, groups[graph]);
    }
  }

  lemma {:induction false} FiguresFollow(p: Progress, groups: map<Id, seq<Id>>, heads: map<Id, set<Id>>, pending: set<Id>, total: nat,
                      byGraph: map<Id, nat>, byTool: map<Id, nat>, last: map<Id, nat>, served: set<Id>,
                      id: Id, candidates: set<Id>, now: int)
    requires Figures(p.tickets, groups, heads, pending, total, byGraph, byTool, last, served)
    requires SequencesOk(p.tickets, p.nextSequence, p.history)
    requires id in pending && id in p.tickets && p.tickets[id].status == Pending
    ensures var t := p.tickets[id];
            Figures(GrantTo(p, id, candidates, now).tickets, groups, heads, pending, total + 1,
                    byGraph[t.graph := Count(byGraph, t.graph) + 1], byTool[t.tool := Count(byTool, t.tool) + 1],
                    last[t.graph := p.nextSequence], served + {t.batch})
  {
    var t := p.tickets[id];
    var after := GrantTo(p, id, candidates, now).tickets;
    hide GrantedIds, OfGraph, OfTool, LastGrant, ServedBatches, SequencesOk, ListsHeads;
    HeadsStayListed(p.tickets, groups, heads, id, p.nextSequence, now);
    GrantedGrows(p.tickets, id, p.nextSequence, now);
    ServedMoves(p.tickets, pending, id, p.nextSequence, now);
    forall graph ensures Count(byGraph[t.graph := Count(byGraph, t.graph) + 1], graph) == |OfGraph(after, GrantedIds(after), graph)| {
      GraphShare(p.tickets, id, p.nextSequence, now, graph);
    }
    forall tool ensures Count(byTool[t.tool := Count(byTool, t.tool) + 1], tool) == |OfTool(after, GrantedIds(after), tool)| {
      ToolShare(p.tickets, id, p.nextSequence, now, tool);
    }
    forall graph ensures Count(last[t.graph := p.nextSequence], graph) == LastGrant(after, graph) {
      LastGrantMoves(p, id, candidates, now, graph);
    }
  }

  /** The next ticket comes out of a head batch. */
  lemma {:induction false} NextComesFromHead(tickets: Tickets, heads: map<Id, set<Id>>, cfg: Config, pending: set<Id>)
    requires Candidates(tickets, heads, cfg) != {}
    requires forall graph, id | graph in heads && id in heads[graph] :: id in pending
    ensures NextTicket(tickets, heads, cfg) in pending
  {
    hide LastGrant;
    var graph := NextGraph(tickets, heads, cfg);
    assert Offer(tickets, heads, cfg, graph) in Fitting(tickets, heads[graph], cfg);
  }

  function Withdrawable(t: Ticket, served: set<Id>): Ticket {
    if t.batch in served && t.status == Pending then Settle(t, Withdrawn) else t
  }

  class AdmissionStore {
    var now: int
    var tickets: Tickets
    var nextSequence: nat
    var config: Option<Config>
    ghost var history: seq<Grant>

    ghost function View(): Store
      reads this
    {
      Store(now, tickets, nextSequence, config, history)
    }

    constructor (start: int)
      ensures View() == Initial(start) && Inv(View())
    {
      now, tickets, nextSequence, config, history := start, map[], 1, None, [];
      new;
      InitialInv(start);
    }

    method Advance(seconds: nat)
      requires Inv(View())
      modifies this
      ensures Inv(View()) && View() == Apply(old(View()), Action.Advance(seconds))
    {
      hide Inv;
      StepKeepsInv(View(), Action.Advance(seconds));
      now := now + seconds;
    }

    method Configure(cfg: Config) returns (accepted: bool)
      requires Inv(View())
      modifies this
      ensures Inv(View()) && View() == Apply(old(View()), Action.Configure(cfg))
      ensures accepted <==> config == Some(cfg)
      ensures !accepted <==> old(config).Some? && old(config) != Some(cfg) && old(LiveTickets(View())) != {}
    {
      hide Inv;
      StepKeepsInv(View(), Action.Configure(cfg));
      if config == Some(cfg) { return true; }
      var live := set id | id in tickets && tickets[id].status in {Pending, Granted} && tickets[id].expiresAt > now;
      assert live == LiveTickets(View());
      if config != None && |live| > 0 { return false; }
      assert config == None || live == {};
      config := Some(cfg);
      accepted := true;
    }

    method RegisterBatch(batch: Id, graph: Id, owner: Id, ttl: nat, requests: map<Id, Request>)
      requires Inv(View()) && Enabled(View(), Register(batch, graph, owner, ttl, requests))
      modifies this
      ensures Inv(View()) && View() == Apply(old(View()), Register(batch, graph, owner, ttl, requests))
    {
      hide Inv;
      StepKeepsInv(View(), Register(batch, graph, owner, ttl, requests));
      var expiresAt := now + ttl;
      var rows := map id | id in requests ::
        Ticket(batch, graph, requests[id].node, requests[id].tool, owner, Pending, 1, 0, None, ttl, now, expiresAt);
      tickets := tickets + rows;
    }

    method RenewPendingBatch(batch: Id, owner: Id, ttl: nat) returns (count: nat)
      requires Inv(View())
      modifies this
      ensures Inv(View()) && View() == Apply(old(View()), RenewBatch(batch, owner, ttl))
      ensures count == |set id | id in old(tickets) && PendingOf(old(tickets)[id], batch, owner) && Live(old(tickets)[id], now)|
    {
      hide Inv;
      StepKeepsInv(View(), RenewBatch(batch, owner, ttl));
      var matched := set id | id in tickets && PendingOf(tickets[id], batch, owner) && Live(tickets[id], now);
      tickets := map id | id in tickets ::
        if id in matched then tickets[id].(revision := tickets[id].revision + 1, expiresAt := now + ttl) else tickets[id];
      assert tickets == RenewPending(old(View()), batch, owner, ttl).tickets;
      count := |matched|;
    }

    method CancelPending(graph: Id) returns (count: nat)
      requires Inv(View())
      modifies this
      ensures Inv(View()) && View() == Apply(old(View()), CancelGraph(graph))
      ensures count == |set id | id in old(tickets) && old(tickets)[id].graph == graph && old(tickets)[id].status == Pending|
    {
      hide Inv;
      StepKeepsInv(View(), CancelGraph(graph));
      var matched := set id | id in tickets && tickets[id].graph == graph && tickets[id].status == Pending;
      tickets := map id | id in tickets :: if id in matched then Settle(tickets[id], Cancelled) else tickets[id];
      assert tickets == CancelPendingGraph(old(View()), graph).tickets;
      count := |matched|;
    }

    /** Two updates in one transaction: first what waits, then what was granted. */
    method WithdrawAll(batch: Id, owner: Id) returns (count: nat)
      requires Inv(View())
      modifies this
      ensures Inv(View()) && View() == Apply(old(View()), Withdraw(batch, owner))
      ensures count == |OfBatch(old(tickets), batch, owner, {Pending, Granted})|
    {
      hide Inv, OfBatch, SettledAll;
      StepKeepsInv(View(), Withdraw(batch, owner));
      var pending := OfBatch(tickets, batch, owner, {Pending});
      tickets := SettledAll(tickets, pending, Withdrawn);
      var granted := OfBatch(tickets, batch, owner, {Granted});
      tickets := SettledAll(tickets, granted, Released);
      TwoUpdates(old(View()), batch, owner);
      count := |pending| + |granted|;
    }

    /** None is the rejected fence. */
    method RenewHandle(id: Id, owner: Id, fence: nat, ttl: nat) returns (expiry: Option<int>)
      requires Inv(View())
      modifies this
      ensures Inv(View()) && View() == Apply(old(View()), Renew(id, owner, fence, ttl))
      ensures expiry == if old(Honours(View(), id, owner, fence)) then Some(now + ttl) else None
    {
      hide Inv;
      StepKeepsInv(View(), Renew(id, owner, fence, ttl));
      expiry := None;
      if id in tickets && tickets[id].owner == owner && tickets[id].status == Granted
         && tickets[id].fence == fence && tickets[id].expiresAt > now {
        expiry := Some(now + ttl);
        tickets := tickets[id := tickets[id].(revision := tickets[id].revision + 1, expiresAt := now + ttl)];
      }
    }

    method ReleaseHandle(id: Id, owner: Id, fence: nat) returns (released: bool)
      requires Inv(View())
      modifies this
      ensures Inv(View()) && View() == Apply(old(View()), Release(id, owner, fence))
      ensures released == old(Honours(View(), id, owner, fence))
    {
      hide Inv;
      StepKeepsInv(View(), Release(id, owner, fence));
      released := id in tickets && tickets[id].owner == owner && tickets[id].status == Granted
                  && tickets[id].fence == fence && tickets[id].expiresAt > now;
      if released {
        tickets := tickets[id := Settle(tickets[id], Released)];
      }
    }

    /** Grants one ticket under the next sequence. */
    method GrantNext(id: Id, ghost candidates: set<Id>)
      requires id in tickets
      modifies this`tickets, this`nextSequence, this`history
      ensures Progress(tickets, nextSequence, history) == GrantTo(old(Progress(tickets, nextSequence, history)), id, candidates, now)
    {
      var t := tickets[id];
      tickets := tickets[id := t.(status := Granted, revision := t.revision + 1, fence := t.fence + 1,
                                  grantSequence := Some(nextSequence), expiresAt := now + t.ttl)];
      nextSequence := nextSequence + 1;
      history := history + [Grant(t.graph, candidates)];
    }

    /** The loop that grants while a slot is free and some waiting graph fits. */
    method GrantWhileRoom(cfg: Config, groups: map<Id, seq<Id>>, ghost heads: map<Id, set<Id>>, ghost pending: set<Id>,
                          graphCounts: map<Id, nat>, toolCounts: map<Id, nat>, lastGrants: map<Id, nat>)
      returns (granted: nat, served: set<Id>)
      requires Figures(tickets, groups, heads, pending, |GrantedIds(tickets)|, graphCounts, toolCounts, lastGrants, {})
      requires SequencesOk(tickets, nextSequence, history)
      requires forall graph, id | graph in heads && id in heads[graph] :: id in pending
      modifies this`tickets, this`nextSequence, this`history
      ensures Progress(tickets, nextSequence, history) == old(GrantAll(Progress(tickets, nextSequence, history), heads, cfg, now))
      ensures served == ServedBatches(tickets, pending)
      ensures granted == nextSequence - old(nextSequence)
    {
      hide GrantedIds, Candidates, NextTicket, SequencesOk, ListsHeads, CountsGraphs, CountsTools, KnowsLastGrants, ServedBatches;
      var byGraph: map<Id, nat>, byTool: map<Id, nat>, last: map<Id, nat> := graphCounts, toolCounts, lastGrants;
      var active := set id | id in tickets && tickets[id].status == Granted;
      assert active == GrantedIds(tickets) by { ActiveIs(tickets, active); }
      var total := |active|;
      granted, served := 0, {};
      while total < cfg.globalLimit
        invariant Figures(tickets, groups, heads, pending, total, byGraph, byTool, last, served)
        invariant SequencesOk(tickets, nextSequence, history)
        invariant GrantAll(Progress(tickets, nextSequence, history), heads, cfg, now)
                  == old(GrantAll(Progress(tickets, nextSequence, history), heads, cfg, now))
        invariant granted == nextSequence - old(nextSequence)
        decreases cfg.globalLimit - total
      {
        var next := ChooseNext(tickets, groups, heads, cfg, byGraph, byTool, last);
        if next == None { break; }
        var id := next.value;
        var t := tickets[id];
        ghost var candidates := Candidates(tickets, heads, cfg);
        NextComesFromHead(tickets, heads, cfg, pending);
        FiguresFollow(Progress(tickets, nextSequence, history), groups, heads, pending, total, byGraph, byTool, last, served, id, candidates, now);
        GrantKeepsSequences(Progress(tickets, nextSequence, history), id, candidates, now);
        served := served + {t.batch};
        last := last[t.graph := nextSequence];
        GrantNext(id, candidates);
        total := total + 1;
        byGraph := byGraph[t.graph := Count(byGraph, t.graph) + 1];
        byTool := byTool[t.tool := Count(byTool, t.tool) + 1];
        granted := granted + 1;
      }
    }

    method WithdrawRest(rows: seq<Id>, served: set<Id>, ghost pending: set<Id>)
      requires Lists(rows, pending) && served == ServedBatches(tickets, pending)
      requires forall i | 0 <= i < |rows| :: rows[i] in tickets
      requires forall i, j | 0 <= i < j < |rows| :: rows[i] != rows[j]
      modifies this`tickets
      ensures tickets == WithdrawSiblings(old(tickets), pending)
    {
      ghost var was := tickets;
      hide ServedBatches;
      for i := 0 to |rows|
        invariant tickets.Keys == was.Keys
        invariant forall id | id in tickets && id !in rows[..i] :: tickets[id] == was[id]
        invariant forall id | id in rows[..i] :: id in tickets && tickets[id] == Withdrawable(was[id], served)
      {
        var id := rows[i];
        assert rows[..i + 1] == rows[..i] + [id];
        if tickets[id].batch in served && tickets[id].status == Pending {
          tickets := tickets[id := Settle(tickets[id], Withdrawn)];
        }
      }
      assert rows[..|rows|] == rows;
    }

    /** Reads the counters, the last grants and the head batches the pass starts from. */
    method ReadFigures(waiting: set<Id>)
      returns (rows: seq<Id>, groups: map<Id, seq<Id>>, byGraph: map<Id, nat>, byTool: map<Id, nat>, last: map<Id, nat>)
      requires waiting <= tickets.Keys && ServedBatches(tickets, waiting) == {}
      ensures Lists(rows, waiting) && InAgeOrder(tickets, rows)
      ensures Figures(tickets, groups, Heads(tickets, waiting), waiting, |GrantedIds(tickets)|, byGraph, byTool, last, {})
    {
      hide Heads, InAgeOrder, Lists, ListsHeads, HeadRow, GraphsIn, GrantedIds, CountsGraphs, CountsTools, KnowsLastGrants;
      rows := OrderBy(AgeKeys(tickets, waiting));
      RowsListWaiting(tickets, waiting, rows);
      var active := set id | id in tickets && tickets[id].status == Granted;
      ActiveIs(tickets, active);
      byGraph, byTool := CountActive(tickets, active);
      last := ReadLastGrants(tickets);
      groups := GroupHeads(tickets, rows);
      GroupsAreHeads(tickets, rows, groups, waiting);
    }

    /** One scheduling transaction: the number of grants, or None for a configuration mismatch. */
    method ScheduleOnce(cfg: Config) returns (granted: Option<nat>)
      requires Inv(View())
      modifies this
      ensures Inv(View()) && View() == Apply(old(View()), RunSchedule(cfg))
      ensures granted == None <==> old(config).Some? && old(config) != Some(cfg)
      ensures granted.Some? ==> granted.value == |history| - old(|history|)
      ensures WholeLeases(old(View()), View())
      ensures granted.Some? && NoEmptyLease(old(View())) ==> |Holding(View())| == |Holding(old(View()))| + granted.value
    {
      hide WholeLeases, NoEmptyLease, Holding, Heads, GrantAll, SequencesOk, InAgeOrder, Lists, GrantedIds, ServedBatches, Figures, ExpireDue, PendingIds, WithdrawSiblings;
      ghost var s := View();
      StepKeepsInv(s, RunSchedule(cfg));
      PassGrantsWholeLeases(s, cfg);
      NumberedByHistory(s, RunSchedule(cfg));
      if config.Some? && config != Some(cfg) { return None; }
      StartOfPass(s);
      GrantedKeepsRows(s, cfg);
      PassOutcome(s, cfg);
      hide Inv, Schedule, Apply;
      config := Some(cfg);
      ExpireLapsed();
      var waiting := ReadWaiting();
      var rows, groups, byGraph, byTool, last := ReadFigures(waiting);
      DistinctRows(tickets, rows);
      var count, served := GrantWhileRoom(cfg, groups, Heads(tickets, waiting), waiting, byGraph, byTool, last);
      WithdrawRest(rows, served, waiting);
      granted := Some(count);
    }

    method ExpireLapsed()
      modifies this`tickets
      ensures tickets == ExpireDue(old(tickets), now)
    {
      tickets := map id | id in tickets ::
        if tickets[id].status in {Pending, Granted} && tickets[id].expiresAt <= now then Settle(tickets[id], Expired) else tickets[id];
    }

    method ReadWaiting() returns (waiting: set<Id>)
      ensures waiting == PendingIds(tickets, now)
    {
      waiting := set id | id in tickets && tickets[id].status == Pending && tickets[id].expiresAt > now;
    }
  }

  lemma {:induction false} PassOutcome(s: Store, cfg: Config)
    requires Inv(s) && (s.config.Some? ==> s.config.value == cfg)
    ensures var due := ExpireDue(s.tickets, s.now);
            var pending := PendingIds(due, s.now);
            var p := GrantAll(Progress(due, s.nextSequence, s.history), Heads(due, pending), cfg, s.now);
            && Apply(s, RunSchedule(cfg)) == Store(s.now, WithdrawSiblings(p.tickets, pending), p.nextSequence, Some(cfg), p.history)
            && p.nextSequence - s.nextSequence == |p.history| - |s.history|
            && pending <= due.Keys
  {
    PassIsSound(s, cfg);
  }

  lemma {:induction false} StartOfPass(s: Store)
    requires Inv(s)
    ensures var due := ExpireDue(s.tickets, s.now);
            var pending := PendingIds(due, s.now);
            && SequencesOk(due, s.nextSequence, s.history)
            && {} == ServedBatches(due, pending)
            && (forall graph, id | graph in Heads(due, pending) && id in Heads(due, pending)[graph] :: id in pending)
  {
    var due := ExpireDue(s.tickets, s.now);
    ExpiryCounts(s);
    KeepsSequences(s.tickets, due, s.nextSequence, s.history);
    HeadsArePending(due, PendingIds(due, s.now));
  }

  lemma {:induction false} RowsListWaiting(tickets: Tickets, pending: set<Id>, rows: seq<Id>)
    requires pending <= tickets.Keys && Sorted(AgeKeys(tickets, pending), rows)
    requires forall id :: id in rows <==> id in AgeKeys(tickets, pending)
    ensures InAgeOrder(tickets, rows) && Lists(rows, pending)
  {
  }

  lemma {:induction false} DistinctRows(tickets: Tickets, rows: seq<Id>)
    requires InAgeOrder(tickets, rows)
    ensures forall i | 0 <= i < |rows| :: rows[i] in tickets
    ensures forall i, j | 0 <= i < j < |rows| :: rows[i] != rows[j]
  {
  }

  lemma {:induction false} GrantedKeepsRows(s: Store, cfg: Config)
    requires Inv(s) && (s.config.Some? ==> s.config.value == cfg)
    ensures var due := ExpireDue(s.tickets, s.now);
            GrantAll(Progress(due, s.nextSequence, s.history), Heads(due, PendingIds(due, s.now)), cfg, s.now).tickets.Keys == due.Keys
  {
    PassIsSound(s, cfg);
  }

  lemma {:induction false} ActiveIs(tickets: Tickets, active: set<Id>)
    requires active == set id | id in tickets && tickets[id].status == Granted
    ensures active == GrantedIds(tickets)
  {
  }
}
