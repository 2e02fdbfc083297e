/**
 The mailbox as its transactions run it: a routing loop and a claiming loop over selected
 rows, and guarded single-row updates for everything a claim's holder does.
 */
module GraphControlStore {
  import opened Backoff
  import opened Ordering
  import opened GraphControl
  import opened GraphControlSafety
  import O = GraphControlOutcomes

  class Mailbox {
    var now: int
    var graphs: map<Id, Graph>
    var controls: map<Id, Control>
    ghost var handles: set<Handle>
    ghost var leases: set<Lease>

    ghost function View(): Mail
      reads this
    {
      Mail(now, graphs, controls, handles, leases)
    }

    ghost predicate Valid()
      reads this
    {
      Inv(View())
    }

    constructor (start: int)
      ensures Valid() && View() == Initial(start)
    {
      now, graphs, controls := start, map[], map[];
      handles, leases := {}, {};
    }

    /** Inserts the graph's one cancel command, or reads the one that is there. */
    method InsertOrReadCancel(id: Id, graph: Id) returns (record: Option<Control>)
      requires Valid() && Enabled(View(), RequestCancel(id, graph))
      modifies this
      ensures Valid() && View() == Next(old(View()), RequestCancel(id, graph))
      ensures O.Law(old(View()), RequestCancel(id, graph), View())
      ensures record == None <==> graph !in graphs
      ensures record.Some? ==> id in controls && record.value == controls[id]
      ensures record.Some? && id in old(controls) ==> record.value == old(controls)[id]
    {
      hide O.Law;
      O.OperationIsLawful(View(), RequestCancel(id, graph));
      StepKeepsInv(View(), RequestCancel(id, graph));
      if graph !in graphs { return None; }
      if id in controls { return Some(controls[id]); }
      var target := LiveTarget(graphs[graph], now);
      var created := Control(graph, now, Pending, target, 1, 0, now, None, None, None, 0, None, None, None);
      controls := controls[id := created];
      record := Some(created);
    }

    /** Points every selected command at its graph's present owner and makes it pending again. */
    method RoutePending(limit: nat) returns (routed: seq<Id>, ghost batch: seq<Id>)
      requires Valid()
      modifies this
      ensures Enabled(old(View()), Action.RoutePending(limit, batch))
      ensures Valid() && View() == Next(old(View()), Action.RoutePending(limit, batch))
      ensures O.Law(old(View()), Action.RoutePending(limit, batch), View())
      ensures forall id :: id in routed <==> id in batch && old(controls)[id].graph in graphs
    {
      hide Inv, LiveTarget, Rerouted, Route;
      var records := FirstRows(RouteKeys(controls, now), limit);
      batch := records;
      hide O.Law;
      O.OperationIsLawful(View(), Action.RoutePending(limit, batch));
      StepKeepsInv(View(), Action.RoutePending(limit, batch));
      routed := RouteSelected(records);
    }

    method RouteSelected(records: seq<Id>) returns (routed: seq<Id>)
      requires forall i, j | 0 <= i < j < |records| :: records[i] != records[j]
      requires forall id | id in records :: id in controls
      modifies this`controls
      ensures View() == Route(old(View()), records)
      ensures forall id :: id in routed <==> id in records && old(controls)[id].graph in graphs
    {
      hide LiveTarget, Rerouted;
      ghost var m := View();
      routed := [];
      for k := 0 to |records|
        invariant controls.Keys == m.controls.Keys
        invariant forall i | 0 <= i < k :: controls[records[i]] == RoutedRow(m, m.controls[records[i]])
        invariant forall id | id in controls && id !in records[..k] :: controls[id] == m.controls[id]
        invariant forall id :: id in routed <==> id in records[..k] && m.controls[id].graph in graphs
      {
        var id := records[k];
        assert id !in records[..k];
        var record := controls[id];
        if record.graph in graphs {
          record := RerouteRecord(record, LiveTarget(graphs[record.graph], now));
          controls := controls[id := record];
          routed := routed + [id];
        }
      }
      assert controls == Route(m, records).controls;
    }

    static method RerouteRecord(before: Control, target: Option<Target>) returns (record: Control)
      ensures record == Rerouted(before, target)
    {
      record := before.(target := target);
      record := record.(status := Pending);
      record := record.(claimOwner := None);
      record := record.(claimedAt := None);
      record := record.(claimExpires := None);
      record := record.(revision := record.revision + 1);
    }

    /** Claims the selected commands one by one, each with an update that repeats the selection's guard and revision. */
    method ClaimForOwner(owner: Id, ttl: nat, limit: nat) returns (claims: seq<Handle>, ghost batch: seq<Id>)
      requires Valid()
      modifies this
      ensures Enabled(old(View()), Action.ClaimForOwner(owner, ttl, limit, batch))
      ensures Valid() && View() == Next(old(View()), Action.ClaimForOwner(owner, ttl, limit, batch))
      ensures O.Law(old(View()), Action.ClaimForOwner(owner, ttl, limit, batch), View())
      ensures forall h :: h in claims <==> h in NewHandles(old(View()), owner, batch)
    {
      hide Inv, Claims, NewHandles, ClaimFor;
      var candidates := FirstRows(GraphControl.ClaimKeys(controls, now, owner), limit);
      batch := candidates;
      hide O.Law;
      O.OperationIsLawful(View(), Action.ClaimForOwner(owner, ttl, limit, batch));
      StepKeepsInv(View(), Action.ClaimForOwner(owner, ttl, limit, batch));
      claims := ClaimSelected(candidates, owner, ttl);
    }

    method ClaimSelected(candidates: seq<Id>, owner: Id, ttl: nat) returns (claims: seq<Handle>)
      requires forall i, j | 0 <= i < j < |candidates| :: candidates[i] != candidates[j]
      requires forall id | id in candidates ::
        id in controls && controls[id].status == Pending && controls[id].target.Some? && controls[id].target.value.owner == owner
      modifies this`controls, this`handles
      ensures View() == ClaimFor(old(View()), owner, ttl, candidates)
      ensures forall h :: h in claims <==> h in NewHandles(old(View()), owner, candidates)
    {
      hide Claims, MatchesLiveTarget, NewHandles, ClaimFor;
      ghost var m := View();
      claims := [];
      ClaimNothing(m, owner, ttl);
      for k := 0 to |candidates|
        invariant View() == ClaimFor(m, owner, ttl, candidates[..k])
        invariant controls.Keys == m.controls.Keys && now == m.now && graphs == m.graphs
        invariant forall i | k <= i < |candidates| :: controls[candidates[i]] == m.controls[candidates[i]]
        invariant forall h :: h in claims <==> h in NewHandles(m, owner, candidates[..k])
      {
        var id := candidates[k];
        var seen := controls[id];
        ClaimOneMore(m, owner, ttl, candidates, k);
        MatchMeans(m, seen, owner);
        if seen.graph in graphs && seen.target.Some?
           && LiveTarget(graphs[seen.graph], now) == Some(Target(owner, seen.target.value.fence)) {
          var claim := ClaimRow(id, seen, owner, ttl);
          claims := claims + [claim];
        }
      }
      assert candidates[..|candidates|] == candidates;
    }

    /** The guarded update and the read after it. */
    method ClaimRow(id: Id, seen: Control, owner: Id, ttl: nat) returns (claim: Handle)
      requires id in controls && controls[id] == seen
      requires seen.status == Pending && seen.target.Some? && seen.target.value.owner == owner
      modifies this`controls, this`handles
      ensures claim == HandleOf(old(View()), id, owner)
      ensures controls == old(controls)[id := ClaimedRow(old(View()), seen, owner, ttl)] && handles == old(handles) + {claim}
    {
      var r := controls[id];
      r := r.(status := Processing, revision := seen.revision + 1, attempts := seen.attempts + 1, claimOwner := Some(owner),
              claimedAt := Some(now), claimExpires := Some(now + ttl), claimFence := seen.claimFence + 1, lastError := None);
      controls := controls[id := r];
      claim := Handle(id, r.target, r.attempts, owner, r.claimFence);
      handles := handles + {claim};
    }

    method Guarded(h: Handle) returns (matches: bool)
      ensures matches == Honours(View(), h)
    {
      matches := false;
      if h.control in controls {
        var c := controls[h.control];
        matches := c.status == Processing && c.claimOwner == Some(h.owner) && c.claimFence == h.fence
                   && c.claimExpires.Some? && c.claimExpires.value > now;
      }
    }

    method RenewClaim(h: Handle, ttl: nat) returns (accepted: bool)
      requires Valid() && h in handles
      modifies this
      ensures Valid() && View() == Next(old(View()), Renew(h, ttl))
      ensures O.Law(old(View()), Renew(h, ttl), View())
      ensures accepted == Honours(old(View()), h)
    {
      hide Inv;
      hide O.Law;
      O.OperationIsLawful(View(), Renew(h, ttl));
      StepKeepsInv(View(), Renew(h, ttl));
      accepted := Guarded(h);
      if accepted {
        controls := controls[h.control := controls[h.control].(claimExpires := Some(now + ttl))];
      }
    }

    method MarkApplied(h: Handle) returns (accepted: bool)
      requires Valid() && h in handles
      modifies this
      ensures Valid() && View() == Next(old(View()), Apply(h))
      ensures O.Law(old(View()), Apply(h), View())
      ensures accepted == Honours(old(View()), h)
      ensures accepted ==> controls[h.control].status == Applied && controls[h.control].appliedFence == Some(h.target.value.fence)
    {
      hide Inv;
      hide O.Law;
      O.OperationIsLawful(View(), Apply(h));
      StepKeepsInv(View(), Apply(h));
      accepted := Guarded(h);
      if accepted {
        HonouredIsCurrent(View(), h);
        var c := controls[h.control];
        controls := controls[h.control := c.(status := Applied, revision := c.revision + 1, claimExpires := None,
                                             appliedFence := Some(h.target.value.fence), appliedAt := Some(now))];
      }
    }

    method GiveBackClaim(h: Handle, error: string, superseded: bool) returns (accepted: bool)
      requires Valid() && h in handles
      modifies this
      ensures Valid() && View() == Next(old(View()), GiveBack(h, error, superseded))
      ensures O.Law(old(View()), GiveBack(h, error, superseded), View())
      ensures accepted == Honours(old(View()), h)
    {
      hide Inv;
      hide O.Law;
      O.OperationIsLawful(View(), GiveBack(h, error, superseded));
      StepKeepsInv(View(), GiveBack(h, error, superseded));
      accepted := Guarded(h);
      if accepted {
        var delay := CappedDelay(50, 5000, if h.attempts < 7 then h.attempts else 7);
        var c := controls[h.control];
        controls := controls[h.control := c.(
          status := if superseded then Superseded else Pending, revision := c.revision + 1,
          target := if superseded then None else h.target, lastError := Some(error), availableAt := now + delay,
          claimOwner := None, claimedAt := None, claimExpires := None)];
      }
    }
  }

  lemma {:induction false} MatchMeans(m: Mail, c: Control, owner: Id)
    ensures MatchesLiveTarget(m, c, owner) <==>
      c.graph in m.graphs && c.target.Some? && LiveTarget(m.graphs[c.graph], m.now) == Some(Target(owner, c.target.value.fence))
  {
  }

  lemma {:induction false} ClaimNothing(m: Mail, owner: Id, ttl: nat)
    ensures ClaimFor(m, owner, ttl, []) == m && NewHandles(m, owner, []) == {}
  {
    assert ClaimFor(m, owner, ttl, []).controls == m.controls;
  }

  /** Claims are independent: one more selected row adds its own claim, or nothing when its target is stale. */
  lemma {:induction false} ClaimOneMore(m: Mail, owner: Id, ttl: nat, batch: seq<Id>, k: nat)
    requires k < |batch| && batch[k] in m.controls && batch[k] !in batch[..k]
    ensures var id := batch[k]; var before := ClaimFor(m, owner, ttl, batch[..k]); var after := ClaimFor(m, owner, ttl, batch[..k + 1]);
            if MatchesLiveTarget(m, m.controls[id], owner) then
              && after == before.(controls := before.controls[id := ClaimedRow(m, m.controls[id], owner, ttl)],
                                  handles := before.handles + {HandleOf(m, id, owner)})
              && NewHandles(m, owner, batch[..k + 1]) == NewHandles(m, owner, batch[..k]) + {HandleOf(m, id, owner)}
            else after == before && NewHandles(m, owner, batch[..k + 1]) == NewHandles(m, owner, batch[..k])
    ensures forall id | id in m.controls && id !in batch[..k + 1] :: ClaimFor(m, owner, ttl, batch[..k + 1]).controls[id] == m.controls[id]
  {
    var id := batch[k];
    assert batch[..k + 1] == batch[..k] + [id];
    MoreHandles(m, owner, batch, k);
    hide MatchesLiveTarget, NewHandles, HandleOf, ClaimedRow;
    var before, after := ClaimFor(m, owner, ttl, batch[..k]), ClaimFor(m, owner, ttl, batch[..k + 1]);
    if MatchesLiveTarget(m, m.controls[id], owner) {
      assert after.controls == before.controls[id := ClaimedRow(m, m.controls[id], owner, ttl)];
    } else {
      assert after.controls == before.controls;
    }
  }

  lemma {:induction false} MoreHandles(m: Mail, owner: Id, batch: seq<Id>, k: nat)
    requires k < |batch| && batch[k] in m.controls
    ensures NewHandles(m, owner, batch[..k + 1]) == NewHandles(m, owner, batch[..k])
              + if MatchesLiveTarget(m, m.controls[batch[k]], owner) then {HandleOf(m, batch[k], owner)} else {}
  {
    hide MatchesLiveTarget;
    assert batch[..k + 1] == batch[..k] + [batch[k]];
    var own := if MatchesLiveTarget(m, m.controls[batch[k]], owner) then {HandleOf(m, batch[k], owner)} else {};
    forall h ensures h in NewHandles(m, owner, batch[..k + 1]) <==> h in NewHandles(m, owner, batch[..k]) + own {
    }
  }
}
