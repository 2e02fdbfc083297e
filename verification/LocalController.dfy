/**
 The controller as it runs: three counters, a dictionary of queues and a ring changed in
 place. Each method holds the controller's lock, so it is one step; it is proved to take
 the step `LocalAdmission` defines, and its counters to agree with the permits out.
 */
module LocalController {
  import opened Ordering
  import opened LocalAdmission
  import opened LocalSafety
  import opened LocalFairness
  import opened LocalOutcomes

  ghost predicate Counts(out: set<Permit>, total: nat, byGraph: map<Id, nat>, byTool: map<Id, nat>) {
    && total == |out|
    && (forall graph :: Count(byGraph, graph) == |OfGraph(out, graph)|)
    && (forall tool :: Count(byTool, tool) == |OfTool(out, tool)|)
  }

  lemma {:induction false} CountsAdd(out: set<Permit>, total: nat, byGraph: map<Id, nat>, byTool: map<Id, nat>, p: Permit)
    requires Counts(out, total, byGraph, byTool) && p !in out
    ensures Counts(out + {p}, total + 1, byGraph[p.graph := Count(byGraph, p.graph) + 1],
                   byTool[p.request.tool := Count(byTool, p.request.tool) + 1])
  {
    hide OfGraph, OfTool;
    forall graph ensures Count(byGraph[p.graph := Count(byGraph, p.graph) + 1], graph) == |OfGraph(out + {p}, graph)| {
      AddOutGraph(out, p, graph);
    }
    forall tool ensures Count(byTool[p.request.tool := Count(byTool, p.request.tool) + 1], tool) == |OfTool(out + {p}, tool)| {
      AddOutTool(out, p, tool);
    }
  }

  lemma {:induction false} CountsDrop(out: set<Permit>, total: nat, byGraph: map<Id, nat>, byTool: map<Id, nat>, p: Permit)
    requires Counts(out, total, byGraph, byTool) && p in out
    ensures total > 0 && Count(byGraph, p.graph) > 0 && Count(byTool, p.request.tool) > 0
    ensures Counts(out - {p}, total - 1, byGraph[p.graph := Count(byGraph, p.graph) - 1],
                   byTool[p.request.tool := Count(byTool, p.request.tool) - 1])
  {
    hide OfGraph, OfTool;
    assert out - {p} + {p} == out;
    AddOutGraph(out - {p}, p, p.graph);
    AddOutTool(out - {p}, p, p.request.tool);
    forall graph ensures Count(byGraph[p.graph := Count(byGraph, p.graph) - 1], graph) == |OfGraph(out - {p}, graph)| {
      AddOutGraph(out - {p}, p, graph);
    }
    forall tool ensures Count(byTool[p.request.tool := Count(byTool, p.request.tool) - 1], tool) == |OfTool(out - {p}, tool)| {
      AddOutTool(out - {p}, p, tool);
    }
  }

  function OpenIds(futures: map<Id, Future>): set<Id> {
    set id | id in futures && futures[id] == Open
  }

  lemma {:induction false} OpenCloses(futures: map<Id, Future>, id: Id, outcome: Future)
    requires id in futures && futures[id] == Open && outcome != Open
    ensures |OpenIds(futures)| > 0
    ensures |OpenIds(futures[id := outcome])| == |OpenIds(futures)| - 1
  {
    assert id in OpenIds(futures);
    assert OpenIds(futures[id := outcome]) == OpenIds(futures) - {id};
  }

  lemma {:induction false} OpenAdds(futures: map<Id, Future>, id: Id)
    requires id !in futures
    ensures |OpenIds(futures[id := Open])| == |OpenIds(futures)| + 1
  {
    assert OpenIds(futures[id := Open]) == OpenIds(futures) + {id};
  }

  function Members(ring: seq<Id>): set<Id> {
    set graph | graph in ring
  }

  class AdmissionController {
    const lim: Limits
    var activeTotal: nat
    var activeByGraph: map<Id, nat>
    var activeByTool: map<Id, nat>
    var queues: map<Id, seq<Waiter>>
    var ring: seq<Id>
    var ringMembers: set<Id>
    var waitingBatches: nat
    var futures: map<Id, Future>
    var asked: map<Id, Batch>
    /** The permits whose released flag is not set. */
    var out: set<Permit>
    var serial: nat
    ghost var trace: seq<Event>

    ghost function View(): Ctl
      reads this
    {
      Ctl(queues, ring, futures, asked, out, serial, trace)
    }

    ghost predicate Tallies()
      reads this
    {
      && Counts(out, activeTotal, activeByGraph, activeByTool)
      && ringMembers == Members(ring)
      && waitingBatches == |OpenIds(futures)|
    }

    ghost predicate Valid()
      reads this
    {
      Ok(View(), lim) && Recorded(View(), lim) && Tallies()
    }

    constructor (limits: Limits)
      ensures Valid() && View() == Empty && lim == limits
    {
      lim := limits;
      activeTotal, activeByGraph, activeByTool := 0, map[], map[];
      queues, ring, ringMembers, waitingBatches := map[], [], {}, 0;
      futures, asked, out, serial, trace := map[], map[], {}, 0, [];
      new;
      EmptyOk(lim);
      forall k ensures OfGraph({}, k) == {} && OfTool({}, k) == {} {}
    }

    /** The locked part of acquire_batch that queues the request. */
    method Submit(graph: Id, id: Id, requests: seq<Request>)
      requires Valid() && Enabled(View(), Action.Submit(graph, id, requests))
      modifies this
      ensures Valid() && View() == Apply(old(View()), lim, Action.Submit(graph, id, requests))
    {
      hide Mid, Recorded, Counts, OpenIds, Apply, Members;
      ghost var s := View();
      NumberedOf(s, lim, []);
      SubmitIs(s, lim, graph, id, requests);
      MembersAre(ring, graph);
      StepKeepsOk(View(), lim, Action.Submit(graph, id, requests));
      StepKeepsRecord(View(), lim, Action.Submit(graph, id, requests));
      Enlist(graph, id, requests);
    }

    method Enlist(graph: Id, id: Id, requests: seq<Request>)
      requires Tallies() && id !in futures
      modifies this
      ensures Tallies() && View() == Enqueue(old(View()), graph, id, requests)
    {
      hide Counts, OpenIds, Members;
      var queue := if graph in queues then queues[graph] else [];
      queues := queues[graph := queue + [Waiter(id, requests, [])]];
      OpenAdds(futures, id);
      futures := futures[id := Open];
      asked := asked[id := Batch(graph, requests)];
      waitingBatches := waitingBatches + 1;
      JoinRing(graph);
    }

    method JoinRing(graph: Id)
      requires ringMembers == Members(ring)
      modifies this`ring, this`ringMembers, this`trace
      ensures ringMembers == Members(ring)
      ensures ring == (if graph in old(ring) then old(ring) else old(ring) + [graph])
      ensures trace == (if graph in old(ring) then old(trace) else old(trace) + [Joined(graph)])
    {
      MembersAre(ring, graph);
      if graph !in ringMembers {
        ring := ring + [graph];
        ringMembers := ringMembers + {graph};
        trace := trace + [Joined(graph)];
      }
    }

    /** One look at the graph at the front of the ring; true when it was granted a permit. */
    method ExamineNext(ghost served: seq<Id>) returns (progress: bool)
      requires Mid(View(), lim, served) && Tallies() && ring != [] && activeTotal < lim.globalLimit
      modifies this
      ensures HasQueue(old(View()), old(ring)[0]) && View() == ExamineFront(old(View()), lim)
      ensures progress == Admits(old(View()), lim)
      ensures Tallies()
    {
      hide Mid, RingOk, OfGraph, OfTool, FirstFit, Counts, Members, OpenIds, ToolFits, ExamineFront, Admits;
      ghost var s := View();
      CountsAt(out, activeTotal, activeByGraph, activeByTool, ring[0]);
      FrontWaits(s, lim, served);
      var graph := ring[0];
      // The queue of a ring member is never empty, so it is never dropped here.
      assert HasQueue(s, graph);
      Rotate();
      var w := queues[graph][0];
      if Count(activeByGraph, graph) >= lim.perGraphLimit {
        PassedOver(s, lim, GraphFull);
        trace := trace + [Examined(graph, GraphFull, out, w.remaining)];
        return false;
      }
      var i := FirstGrantable(w.remaining);
      if i == |w.remaining| {
        PassedOver(s, lim, NothingFits);
        trace := trace + [Examined(graph, NothingFits, out, w.remaining)];
        return false;
      }
      GrantFront(s, graph, i);
      progress := true;
    }

    /** The front graph, already rotated to the back, gets its first request that fits. */
    method GrantFront(ghost s: Ctl, graph: Id, i: nat)
      requires s.ring != [] && graph == s.ring[0] && HasQueue(s, graph) && Numbered(s) && GraphFits(lim, s.out, graph)
      requires i == FirstFit(lim, s.out, s.queues[graph][0].remaining) < |s.queues[graph][0].remaining|
      requires View() == s.(ring := s.ring[1..] + [graph]) && Tallies()
      modifies this`queues, this`out, this`serial, this`activeTotal, this`activeByGraph, this`activeByTool, this`trace
      ensures View() == ExamineFront(s, lim) && Admits(s, lim) && Tallies()
    {
      hide Counts, Members, OpenIds, FirstFit, GraphFits, ExamineFront, Admits;
      GrantedFront(s, lim, i);
      trace := trace + [Examined(graph, Admitted, out, queues[graph][0].remaining)];
      TakeSlot(graph, i);
    }

    method Rotate()
      requires ring != [] && ringMembers == Members(ring)
      modifies this`ring
      ensures ring == old(ring)[1..] + [old(ring)[0]] && ringMembers == Members(ring)
    {
      MembersRotate(ring);
      ring := ring[1..] + [ring[0]];
    }

    /** Moves one request of the head batch into a permit and counts it. */
    method TakeSlot(graph: Id, i: nat)
      requires HasQueue(View(), graph) && i < |queues[graph][0].remaining|
      requires Numbered(View()) && Counts(out, activeTotal, activeByGraph, activeByTool)
      modifies this`queues, this`out, this`serial, this`activeTotal, this`activeByGraph, this`activeByTool
      ensures var w := old(queues)[graph][0];
              var permit := Permit(old(serial), w.id, graph, w.remaining[i]);
              && queues == old(queues)[graph := old(queues)[graph][0 := w.(
                   remaining := w.remaining[..i] + w.remaining[i + 1..], granted := w.granted + [permit])]]
              && out == old(out) + {permit}
      ensures serial == old(serial) + 1
      ensures Counts(out, activeTotal, activeByGraph, activeByTool)
    {
      hide Counts;
      var w := queues[graph][0];
      var request := w.remaining[i];
      var permit := Permit(serial, w.id, graph, request);
      queues := queues[graph := queues[graph][0 := w.(remaining := w.remaining[..i] + w.remaining[i + 1..],
                                                      granted := w.granted + [permit])]];
      assert permit !in out;
      CountsAdd(out, activeTotal, activeByGraph, activeByTool, permit);
      out := out + {permit};
      serial := serial + 1;
      activeTotal := activeTotal + 1;
      activeByGraph := activeByGraph[graph := Count(activeByGraph, graph) + 1];
      activeByTool := activeByTool[request.tool := Count(activeByTool, request.tool) + 1];
    }

    method FirstGrantable(remaining: seq<Request>) returns (index: nat)
      requires Tallies()
      ensures index == FirstFit(lim, out, remaining)
    {
      index := 0;
      while index < |remaining|
        invariant index <= |remaining|
        invariant FirstFit(lim, out, remaining) == index + FirstFit(lim, out, remaining[index..])
      {
        var tool := remaining[index].tool;
        assert remaining[index..][0] == remaining[index];
        assert remaining[index..][1..] == remaining[index + 1..];
        if Count(activeByTool, tool) < lim.ToolLimit(tool) { return; }
        index := index + 1;
      }
      assert remaining[index..] == [];
    }

    /** Grants while a slot is free, then resolves every batch that was granted something. */
    method DrainLocked()
      requires Ok(View(), lim) && Tallies()
      modifies this
      ensures View() == Drain(old(View()), lim)
      ensures Ok(View(), lim) && Tallies()
    {
      ghost var start := View();
      DrainKeepsOk(start, lim);
      var served := GrantLoop();
      ghost var granted := View();
      var k := 0;
      hide Mid, Drain, Grants;
      while k < |served|
        invariant k <= |served|
        invariant Mid(View(), lim, served[k..]) && Tallies()
        invariant ResolveAll(View(), served[k..]) == ResolveAll(granted, served)
      {
        ServedHead(View(), lim, served[k..]);
        assert served[k..][0] == served[k] && served[k..][1..] == served[k + 1..];
        ResolveServed(served[k], served[k..]);
        k := k + 1;
      }
      assert served[k..] == [];
      DrainIs(start, lim);
    }

    method GrantLoop() returns (served: seq<Id>)
      requires Ok(View(), lim) && Tallies()
      modifies this
      ensures (View(), served) == Grants(old(View()), lim, [])
      ensures Mid(View(), lim, served) && Tallies()
    {
      served := [];
      var stuck := false;
      ghost var goal := Grants(View(), lim, []);
      NumberedOf(View(), lim, served);
      while activeTotal < lim.globalLimit && ring != [] && !stuck
        invariant Mid(View(), lim, served) && Tallies() && Numbered(View())
        invariant !stuck ==> Grants(View(), lim, served) == goal
        invariant stuck ==> (View(), served) == goal
        decreases lim.globalLimit - activeTotal, !stuck
      {
        hide Mid, Counts, Scan;
        ghost var s := View();
        TalliesTotal();
        ScanRaises(s, lim, |s.ring|);
        var found := OnePass(served);
        NumberedOf(View(), lim, if found.Some? then Noted(served, found.value) else served);
        TalliesTotal();
        if found == None { stuck := true; }
        else { served := Noted(served, found.value); }
      }
      TalliesTotal();
    }

    lemma {:induction false} TalliesTotal()
      requires Tallies()
      ensures activeTotal == |out|
    {
    }

    /** One pass over the ring as it stood, ending at the first grant. */
    method OnePass(ghost served: seq<Id>) returns (found: Option<Id>)
      requires Mid(View(), lim, served) && Tallies() && activeTotal < lim.globalLimit
      modifies this
      ensures (View(), found) == Scan(old(View()), lim, old(|ring|))
      ensures Mid(View(), lim, if found.Some? then Noted(served, found.value) else served) && Tallies()
    {
      hide Mid, Counts, ExamineFront, Admits;
      var graphCount := |ring|;
      ghost var s := View();
      TalliesTotal();
      ScanKeepsMid(s, lim, graphCount, served);
      var k := 0;
      while k < graphCount && ring != []
        invariant k <= graphCount && activeTotal < lim.globalLimit
        invariant Mid(View(), lim, served) && Tallies()
        invariant Scan(View(), lim, graphCount - k) == Scan(s, lim, graphCount)
        decreases graphCount - k
      {
        var graph := ring[0];
        ghost var before := View();
        TalliesTotal();
        ExamineKeepsMid(before, lim, served);
        var progress := ExamineNext(served);
        if progress { return Some(graph); }
        AdmitsRaise(before, lim);
        TalliesTotal();
        k := k + 1;
      }
      found := None;
    }

    /** Pops the served head of a graph and resolves it; a queue that empties leaves the ring. */
    method ResolveServed(graph: Id, ghost served: seq<Id>)
      requires served != [] && graph == served[0] && Mid(View(), lim, served) && Tallies()
      modifies this
      ensures HasQueue(old(View()), graph) && View() == ResolveHead(old(View()), graph)
      ensures Mid(View(), lim, served[1..]) && Tallies()
    {
      hide Mid, Counts, OpenIds;
      ghost var s := View();
      ServedHead(s, lim, served);
      TailWithout(served);
      CloseKeepsMid(s, lim, graph, 0, Resolved(queues[graph][0].granted), served);
      // The head is the batch that was served: the queue cannot have lost it.
      var head := queues[graph][0];
      assert HasQueue(s, graph) && head.granted != [];
      OpenCloses(futures, head.id, Resolved(head.granted));
      var rest := queues[graph][1..];
      assert rest == queues[graph][..0] + queues[graph][1..];
      waitingBatches := waitingBatches - 1;
      futures := futures[head.id := Resolved(head.granted)];
      if rest == [] {
        queues := queues - {graph};
        LeaveRing(graph);
      } else {
        queues := queues[graph := rest];
      }
    }

    method LeaveRing(graph: Id)
      requires ringMembers == Members(ring)
      modifies this`ring, this`ringMembers, this`trace
      ensures ring == Without(old(ring), graph) && ringMembers == Members(ring)
      ensures trace == old(trace) + [Left(graph)]
    {
      ring := Without(ring, graph);
      ringMembers := ringMembers - {graph};
      trace := trace + [Left(graph)];
    }

    /** The drain after a batch was queued. */
    method DrainAfterSubmit()
      requires Valid()
      modifies this
      ensures Valid() && View() == Apply(old(View()), lim, DrainNow)
    {
      StepKeepsRecord(View(), lim, DrainNow);
      DrainLocked();
    }

    /** Empties one graph's queue, waking each of its batches as cancelled. */
    method WakeAll(graph: Id)
      requires Tallies() && graph in queues && AllOpen(futures, queues[graph])
      modifies this
      ensures View() == CancelQueue(old(View()), graph) && Tallies()
    {
      hide Counts, OpenIds, Without, Members;
      ghost var s := View();
      var queue := queues[graph];
      queues := queues - {graph};
      LeaveRing(graph);
      assert queue[0..] == queue;
      var k := 0;
      while k < |queue|
        invariant k <= |queue|
        invariant AllOpen(futures, queue[k..])
        invariant CancelAll(futures, queue[k..]) == CancelAll(s.futures, queue)
        invariant View() == CancelQueue(s, graph).(futures := futures) && Tallies()
      {
        var w := queue[k];
        assert queue[k..][0] == w && queue[k..][1..] == queue[k + 1..];
        OpenRest(futures, queue[k..], GraphCancelled);
        OpenCloses(futures, w.id, GraphCancelled);
        waitingBatches := waitingBatches - 1;
        futures := futures[w.id := GraphCancelled];
        k := k + 1;
      }
      assert queue[k..] == [];
    }

    method CancelWaiting(graph: Id)
      requires Valid()
      modifies this
      ensures Valid() && View() == Apply(old(View()), lim, Cancel(graph))
      ensures CancelLaw(old(View()), lim, graph, View())
    {
      hide Mid, Recorded, Counts, OpenIds, CancelLaw;
      ghost var s := View();
      StepKeepsRecord(s, lim, Cancel(graph));
      CancelIsLawful(s, lim, graph);
      CancelKeepsOk(s, lim, graph);
      if graph in queues {
        QueueIsOpen(s, lim, graph);
        WakeAll(graph);
      }
      DrainLocked();
    }

    /** The clean-up of a caller that stopped waiting: what it had already been granted, if anything. */
    method GiveUp(id: Id) returns (permits: seq<Permit>)
      requires Valid() && Enabled(View(), Action.GiveUp(id))
      modifies this
      ensures Valid() && View() == Apply(old(View()), lim, Action.GiveUp(id))
      ensures GiveUpLaw(old(View()), lim, id, View())
      ensures permits == if old(futures)[id].Resolved? then old(futures)[id].permits else []
    {
      hide Mid, Recorded, Counts, OpenIds, GiveUpLaw;
      ghost var s := View();
      StepKeepsOk(s, lim, Action.GiveUp(id));
      GiveUpIsLawful(s, lim, id);
      StepKeepsRecord(s, lim, Action.GiveUp(id));
      if futures[id] != Open {
        return if futures[id].Resolved? then futures[id].permits else [];
      }
      permits := [];
      var graph := asked[id].graph;
      WithdrawOpens(s, lim, id);
      var i := IndexOf(queues[graph], id);
      TakeOut(graph, i);
      DrainLocked();
    }

    /** Removes one waiting batch from its queue, and the graph from the ring if it was the last. */
    method TakeOut(graph: Id, i: nat)
      requires Tallies() && graph in queues && i < |queues[graph]|
      requires queues[graph][i].id in futures && futures[queues[graph][i].id] == Open
      modifies this
      ensures View() == Close(old(View()), graph, i, Withdrawn) && Tallies()
    {
      hide Counts, OpenIds, Without, Members;
      var id := queues[graph][i].id;
      OpenCloses(futures, id, Withdrawn);
      var rest := queues[graph][..i] + queues[graph][i + 1..];
      waitingBatches := waitingBatches - 1;
      futures := futures[id := Withdrawn];
      if rest == [] {
        queues := queues - {graph};
        LeaveRing(graph);
      } else {
        queues := queues[graph := rest];
      }
    }

    /** Releasing a permit twice is the same as once; an active permit is always found active. */
    method Return(permit: Permit)
      requires Valid()
      modifies this
      ensures Valid() && View() == Apply(old(View()), lim, Action.Return(permit))
      ensures ReturnLaw(old(View()), lim, permit, View())
    {
      hide Mid, Recorded, Counts, OpenIds, Drain, ReturnLaw;
      ghost var s := View();
      StepKeepsRecord(s, lim, Action.Return(permit));
      ReturnIsLawful(s, lim, permit);
      if permit !in out { return; }
      ReturnKeepsOk(s, lim, permit);
      CountsDrop(out, activeTotal, activeByGraph, activeByTool, permit);
      assert activeTotal >= 1 && Count(activeByGraph, permit.graph) >= 1 && Count(activeByTool, permit.request.tool) >= 1;
      out := out - {permit};
      activeTotal := activeTotal - 1;
      activeByGraph := activeByGraph[permit.graph := Count(activeByGraph, permit.graph) - 1];
      activeByTool := activeByTool[permit.request.tool := Count(activeByTool, permit.request.tool) - 1];
      DrainLocked();
    }
  }

  lemma {:induction false} SubmitIs(s: Ctl, lim: Limits, graph: Id, id: Id, requests: seq<Request>)
    requires Numbered(s) && id !in s.futures && requests != []
    ensures Apply(s, lim, Action.Submit(graph, id, requests)) == Enqueue(s, graph, id, requests)
  {
  }

  lemma {:induction false} MembersAre(ring: seq<Id>, graph: Id)
    ensures graph in Members(ring) <==> graph in ring
    ensures Members(ring + [graph]) == Members(ring) + {graph}
  {
  }

  lemma {:induction false} MembersRotate(ring: seq<Id>)
    requires ring != []
    ensures Members(ring[1..] + [ring[0]]) == Members(ring)
  {
    assert ring == [ring[0]] + ring[1..];
  }

  lemma {:induction false} FrontWaits(s: Ctl, lim: Limits, served: seq<Id>)
    requires Mid(s, lim, served) && s.ring != []
    ensures HasQueue(s, s.ring[0]) && Numbered(s)
  {
    assert s.ring[0] in s.ring;
  }

  /** An examination that grants nothing. */
  lemma {:induction false} PassedOver(s: Ctl, lim: Limits, verdict: Verdict)
    requires s.ring != [] && HasQueue(s, s.ring[0])
    requires verdict == (if GraphFits(lim, s.out, s.ring[0]) then NothingFits else GraphFull)
    requires GraphFits(lim, s.out, s.ring[0]) ==>
      FirstFit(lim, s.out, s.queues[s.ring[0]][0].remaining) == |s.queues[s.ring[0]][0].remaining|
    ensures ExamineFront(s, lim) == s.(ring := s.ring[1..] + [s.ring[0]], trace := Note(s, s.ring[0], verdict)) && !Admits(s, lim)
  {
  }

  /** An examination that grants the first request that fits. */
  lemma {:induction false} GrantedFront(s: Ctl, lim: Limits, i: nat)
    requires s.ring != [] && HasQueue(s, s.ring[0]) && GraphFits(lim, s.out, s.ring[0])
    requires i == FirstFit(lim, s.out, s.queues[s.ring[0]][0].remaining) < |s.queues[s.ring[0]][0].remaining|
    ensures var graph := s.ring[0]; var w := s.queues[graph][0]; var permit := Permit(s.serial, w.id, graph, w.remaining[i]);
            ExamineFront(s, lim) == Ctl(
              s.queues[graph := s.queues[graph][0 := w.(remaining := w.remaining[..i] + w.remaining[i + 1..], granted := w.granted + [permit])]],
              s.ring[1..] + [graph], s.futures, s.asked, s.out + {permit}, s.serial + 1, Note(s, graph, Admitted))
    ensures Admits(s, lim)
  {
  }

  lemma {:induction false} CountsAt(out: set<Permit>, total: nat, byGraph: map<Id, nat>, byTool: map<Id, nat>, graph: Id)
    requires Counts(out, total, byGraph, byTool)
    ensures total == |out| && Count(byGraph, graph) == |OfGraph(out, graph)|
  {
  }

  lemma {:induction false} NumberedOf(s: Ctl, lim: Limits, served: seq<Id>)
    requires Mid(s, lim, served)
    ensures Numbered(s)
  {
  }

  lemma {:induction false} DrainIs(s: Ctl, lim: Limits)
    requires Numbered(s)
    ensures Drain(s, lim) == ResolveAll(Grants(s, lim, []).0, Grants(s, lim, []).1)
  {
  }

  predicate AllOpen(futures: map<Id, Future>, queue: seq<Waiter>) {
    && (forall i | 0 <= i < |queue| :: queue[i].id in futures && futures[queue[i].id] == Open)
    && (forall i, j | 0 <= i < j < |queue| :: queue[i].id != queue[j].id)
  }

  lemma {:induction false} QueueIsOpen(s: Ctl, lim: Limits, graph: Id)
    requires Ok(s, lim) && graph in s.queues
    ensures AllOpen(s.futures, s.queues[graph])
  {
    assert QueueOk(s, graph);
    forall i | 0 <= i < |s.queues[graph]| ensures s.queues[graph][i].id in s.futures && s.futures[s.queues[graph][i].id] == Open {
      assert WaiterOk(s, graph, s.queues[graph][i]);
    }
  }

  lemma {:induction false} OpenRest(futures: map<Id, Future>, queue: seq<Waiter>, outcome: Future)
    requires queue != [] && AllOpen(futures, queue)
    ensures AllOpen(futures[queue[0].id := outcome], queue[1..])
  {
  }

  lemma {:induction false} WithdrawOpens(s: Ctl, lim: Limits, id: Id)
    requires Ok(s, lim) && id in s.futures && s.futures[id] == Open
    ensures id in s.asked
    ensures var graph := s.asked[id].graph;
            && graph in s.queues
            && var i := IndexOf(s.queues[graph], id);
               i < |s.queues[graph]| && s.queues[graph][i].id == id && Ok(Close(s, graph, i, Withdrawn), lim)
  {
    var graph := s.asked[id].graph;
    assert IsQueued(s, graph, id);
    var i := IndexOf(s.queues[graph], id);
    HeadHoldsNothing(s, lim, graph);
    CloseKeepsMid(s, lim, graph, i, Withdrawn, []);
  }
}
