/**
 What the local controller keeps: capacity, the ring and the queues, and that every permit
 out belongs to exactly one batch that was told about it.
 */
module LocalSafety {
  import opened Ordering
  import opened LocalAdmission

  predicate DistinctRing(ring: seq<Id>) {
    forall i, j | 0 <= i < j < |ring| :: ring[i] != ring[j]
  }

  /** The ring lists exactly the graphs that have a waiting batch, once each. */
  ghost predicate RingOk(s: Ctl) {
    && DistinctRing(s.ring)
    && (forall graph :: graph in s.ring <==> graph in s.queues)
    && (forall graph | graph in s.queues :: s.queues[graph] != [])
  }

  function Requests(permits: seq<Permit>): seq<Request> {
    seq(|permits|, i requires 0 <= i < |permits| => permits[i].request)
  }

  /** Every candidate of the batch is either still waiting or granted, once. */
  predicate SplitsWell(requests: seq<Request>, remaining: seq<Request>, granted: seq<Permit>) {
    multiset(Requests(granted)) + multiset(remaining) == multiset(requests)
  }

  predicate PermitsOf(s: Ctl, id: Id, graph: Id, permits: seq<Permit>) {
    && (forall p | p in permits :: p.batch == id && p.graph == graph && p.serial < s.serial)
    && (forall i, j | 0 <= i < j < |permits| :: permits[i] != permits[j])
  }

  predicate WaiterOk(s: Ctl, graph: Id, w: Waiter) {
    && w.id in s.futures && s.futures[w.id] == Open
    && w.id in s.asked && s.asked[w.id].graph == graph
    && SplitsWell(s.asked[w.id].requests, w.remaining, w.granted)
    && PermitsOf(s, w.id, graph, w.granted)
    && (forall p | p in w.granted :: p in s.out)
  }

  /** Only a head batch may hold grants. */
  predicate QueueOk(s: Ctl, graph: Id)
    requires graph in s.queues
  {
    var queue := s.queues[graph];
    && (forall i | 0 <= i < |queue| :: WaiterOk(s, graph, queue[i]))
    && (forall i | 1 <= i < |queue| :: queue[i].granted == [])
    && (forall i, j | 0 <= i < j < |queue| :: queue[i].id != queue[j].id)
  }

  predicate IsQueued(s: Ctl, graph: Id, id: Id) {
    graph in s.queues && exists i :: 0 <= i < |s.queues[graph]| && s.queues[graph][i].id == id
  }

  ghost predicate FuturesOk(s: Ctl) {
    && s.futures.Keys == s.asked.Keys
    && (forall id | id in s.futures && s.futures[id] == Open :: IsQueued(s, s.asked[id].graph, id))
    && (forall id | id in s.futures && s.futures[id].Resolved? ::
          && s.futures[id].permits != []
          && PermitsOf(s, id, s.asked[id].graph, s.futures[id].permits)
          && multiset(Requests(s.futures[id].permits)) <= multiset(s.asked[id].requests))
  }

  /** The permits out fit every limit, and each is in the hands of the one batch it names. */
  ghost predicate PermitsOk(s: Ctl, lim: Limits) {
    && Numbered(s)
    && |s.out| <= lim.globalLimit
    && (forall graph :: |OfGraph(s.out, graph)| <= lim.perGraphLimit)
    && (forall tool :: |OfTool(s.out, tool)| <= lim.ToolLimit(tool))
    && (forall p | p in s.out :: Held(s, p))
  }

  predicate Held(s: Ctl, p: Permit) {
    && p.batch in s.futures
    && match s.futures[p.batch]
       case Resolved(permits) => p in permits
       case Open => HasQueue(s, p.graph) && s.queues[p.graph][0].id == p.batch && p in s.queues[p.graph][0].granted
       case _ => false
  }

  /** `served` names the graphs whose head batch holds grants. */
  ghost predicate Mid(s: Ctl, lim: Limits, served: seq<Id>) {
    && RingOk(s)
    && (forall graph | graph in s.queues :: QueueOk(s, graph))
    && FuturesOk(s)
    && PermitsOk(s, lim)
    && DistinctRing(served)
    && (forall graph :: graph in served <==> HasQueue(s, graph) && s.queues[graph][0].granted != [])
  }

  /** Between operations no queued batch holds a grant. */
  ghost predicate Ok(s: Ctl, lim: Limits) {
    Mid(s, lim, [])
  }

  // ---------- examining the front ----------

  lemma {:induction false} MidMeans(s: Ctl, lim: Limits, served: seq<Id>)
    requires Mid(s, lim, served)
    ensures DistinctRing(s.ring) && Numbered(s)
  {
  }

  lemma {:induction false} Rotates(ring: seq<Id>)
    requires ring != [] && DistinctRing(ring)
    ensures DistinctRing(ring[1..] + [ring[0]])
    ensures forall g :: g in ring[1..] + [ring[0]] <==> g in ring
  {
    assert ring == [ring[0]] + ring[1..];
  }

  lemma {:induction false} RemoveOne(requests: seq<Request>, i: nat)
    requires i < |requests|
    ensures multiset(requests) == multiset(requests[..i] + requests[i + 1..]) + multiset{requests[i]}
  {
    assert requests == requests[..i] + [requests[i]] + requests[i + 1..];
  }

  lemma {:induction false} AppendPermit(permits: seq<Permit>, p: Permit)
    ensures Requests(permits + [p]) == Requests(permits) + [p.request]
  {
  }

  lemma {:induction false} AddOutGraph(out: set<Permit>, p: Permit, graph: Id)
    requires p !in out
    ensures |OfGraph(out + {p}, graph)| == |OfGraph(out, graph)| + if p.graph == graph then 1 else 0
  {
    var own := if p.graph == graph then {p} else {};
    assert OfGraph(out + {p}, graph) == OfGraph(out, graph) + own;
  }

  lemma {:induction false} AddOutTool(out: set<Permit>, p: Permit, tool: Id)
    requires p !in out
    ensures |OfTool(out + {p}, tool)| == |OfTool(out, tool)| + if p.request.tool == tool then 1 else 0
  {
    var own := if p.request.tool == tool then {p} else {};
    assert OfTool(out + {p}, tool) == OfTool(out, tool) + own;
  }

  lemma {:induction false} ExamineKeepsCapacity(s: Ctl, lim: Limits)
    requires s.ring != [] && HasQueue(s, s.ring[0]) && Admits(s, lim) && Numbered(s)
    requires |s.out| < lim.globalLimit
    requires forall graph :: |OfGraph(s.out, graph)| <= lim.perGraphLimit
    requires forall tool :: |OfTool(s.out, tool)| <= lim.ToolLimit(tool)
    ensures var t := ExamineFront(s, lim);
            && Numbered(t)
            && |t.out| <= lim.globalLimit
            && (forall graph :: |OfGraph(t.out, graph)| <= lim.perGraphLimit)
            && (forall tool :: |OfTool(t.out, tool)| <= lim.ToolLimit(tool))
  {
    var graph := s.ring[0];
    var w := s.queues[graph][0];
    var p := Permit(s.serial, w.id, graph, w.remaining[FirstFit(lim, s.out, w.remaining)]);
    hide OfGraph, OfTool;
    forall g ensures |OfGraph(s.out + {p}, g)| <= lim.perGraphLimit { AddOutGraph(s.out, p, g); }
    forall tool ensures |OfTool(s.out + {p}, tool)| <= lim.ToolLimit(tool) { AddOutTool(s.out, p, tool); }
  }

  lemma {:induction false} ServedWaiterOk(s: Ctl, t: Ctl, w: Waiter, i: nat, p: Permit)
    requires WaiterOk(s, p.graph, w) && i < |w.remaining|
    requires p.serial == s.serial && p.batch == w.id && p.request == w.remaining[i] && t.serial == s.serial + 1
    requires t.futures == s.futures && t.asked == s.asked && t.out == s.out + {p}
    ensures WaiterOk(t, p.graph, w.(remaining := w.remaining[..i] + w.remaining[i + 1..], granted := w.granted + [p]))
  {
    RemoveOne(w.remaining, i);
    AppendPermit(w.granted, p);
  }

  lemma {:induction false} OtherWaiterOk(s: Ctl, t: Ctl, graph: Id, w: Waiter)
    requires WaiterOk(s, graph, w)
    requires t.serial >= s.serial && t.asked == s.asked && s.out <= t.out
    requires w.id in t.futures && t.futures[w.id] == Open
    ensures WaiterOk(t, graph, w)
  {
  }

  lemma {:induction false} ExamineKeepsQueue(s: Ctl, lim: Limits, graph: Id)
    requires s.ring != [] && HasQueue(s, s.ring[0]) && Admits(s, lim)
    requires graph in s.queues && QueueOk(s, graph)
    ensures QueueOk(ExamineFront(s, lim), graph)
  {
    var front := s.ring[0];
    var t := ExamineFront(s, lim);
    var w := s.queues[front][0];
    var i := FirstFit(lim, s.out, w.remaining);
    hide WaiterOk, FirstFit, GraphFits, ToolFits;
    forall k | 0 <= k < |t.queues[graph]| ensures WaiterOk(t, graph, t.queues[graph][k]) {
      ExaminedWaiterOk(s, lim, graph, k);
    }
  }

  lemma {:induction false} ExaminedWaiterOk(s: Ctl, lim: Limits, graph: Id, k: nat)
    requires s.ring != [] && HasQueue(s, s.ring[0]) && Admits(s, lim)
    requires graph in s.queues && k < |s.queues[graph]| && WaiterOk(s, graph, s.queues[graph][k])
    ensures |ExamineFront(s, lim).queues[graph]| == |s.queues[graph]|
    ensures WaiterOk(ExamineFront(s, lim), graph, ExamineFront(s, lim).queues[graph][k])
  {
    hide WaiterOk, FirstFit, GraphFits, ToolFits;
    var front := s.ring[0];
    var w := s.queues[front][0];
    var i := FirstFit(lim, s.out, w.remaining);
    WaiterIsOpen(s, graph, s.queues[graph][k]);
    if graph == front && k == 0 {
      ServedWaiterOk(s, ExamineFront(s, lim), w, i, Permit(s.serial, w.id, front, w.remaining[i]));
    } else {
      OtherWaiterOk(s, ExamineFront(s, lim), graph, s.queues[graph][k]);
    }
  }

  lemma {:induction false} WaiterIsOpen(s: Ctl, graph: Id, w: Waiter)
    requires WaiterOk(s, graph, w)
    ensures w.id in s.futures && s.futures[w.id] == Open
  {
  }

  lemma {:induction false} ExamineKeepsMid(s: Ctl, lim: Limits, served: seq<Id>)
    requires Mid(s, lim, served) && s.ring != []
    requires |s.out| < lim.globalLimit
    ensures HasQueue(s, s.ring[0])
    ensures var t := ExamineFront(s, lim);
            Mid(t, lim, if Admits(s, lim) then Noted(served, s.ring[0]) else served)
  {
    var graph := s.ring[0];
    assert graph in s.ring;
    Rotates(s.ring);
    if Admits(s, lim) {
      AdmitKeepsMid(s, lim, served);
    } else {
      var t := ExamineFront(s, lim);
      assert t == s.(ring := t.ring, trace := t.trace);
      SameOutside(s, t, lim, served);
    }
  }

  lemma {:induction false} AdmitKeepsMid(s: Ctl, lim: Limits, served: seq<Id>)
    requires Mid(s, lim, served) && s.ring != []
    requires |s.out| < lim.globalLimit
    requires HasQueue(s, s.ring[0]) && Admits(s, lim)
    ensures Mid(ExamineFront(s, lim), lim, Noted(served, s.ring[0]))
  {
    hide ExamineFront, QueueOk, FuturesOk, Held, Admits, OfGraph, OfTool, RingOk;
    var t := ExamineFront(s, lim);
    AdmitRing(s, lim);
    ExamineKeepsCapacity(s, lim);
    FrontQueueOk(s, lim, served);
    HeldAfterGrant(s, lim);
    FuturesAfterGrant(s, lim);
    forall g | g in t.queues ensures QueueOk(t, g) { ExamineKeepsQueue(s, lim, g); }
    AdmitServed(s, lim, served);
  }

  lemma {:induction false} FrontQueueOk(s: Ctl, lim: Limits, served: seq<Id>)
    requires Mid(s, lim, served) && s.ring != []
    ensures s.ring[0] in s.queues && QueueOk(s, s.ring[0])
  {
    assert s.ring[0] in s.ring;
  }

  lemma {:induction false} AdmitRing(s: Ctl, lim: Limits)
    requires RingOk(s) && s.ring != [] && HasQueue(s, s.ring[0]) && Admits(s, lim)
    ensures RingOk(ExamineFront(s, lim)) && ExamineFront(s, lim).queues.Keys == s.queues.Keys
  {
    Rotates(s.ring);
  }

  lemma {:induction false} AdmitServed(s: Ctl, lim: Limits, served: seq<Id>)
    requires s.ring != [] && HasQueue(s, s.ring[0]) && Admits(s, lim)
    requires DistinctRing(served)
    requires forall graph :: graph in served <==> HasQueue(s, graph) && s.queues[graph][0].granted != []
    ensures DistinctRing(Noted(served, s.ring[0]))
    ensures var t := ExamineFront(s, lim);
            forall graph :: graph in Noted(served, s.ring[0]) <==> HasQueue(t, graph) && t.queues[graph][0].granted != []
  {
    var t := ExamineFront(s, lim);
    forall graph ensures graph in Noted(served, s.ring[0]) <==> HasQueue(t, graph) && t.queues[graph][0].granted != [] {
      if graph != s.ring[0] { assert HasQueue(t, graph) <==> HasQueue(s, graph); }
    }
  }

  lemma {:induction false} SameOutside(s: Ctl, t: Ctl, lim: Limits, served: seq<Id>)
    requires Mid(s, lim, served) && t == s.(ring := t.ring, trace := t.trace)
    requires DistinctRing(t.ring) && forall g :: g in t.ring <==> g in s.ring
    ensures Mid(t, lim, served)
  {
    forall g | g in t.queues ensures QueueOk(t, g) {
      forall k | 0 <= k < |t.queues[g]| ensures WaiterOk(t, g, t.queues[g][k]) { assert WaiterOk(s, g, s.queues[g][k]); }
    }
    forall p | p in t.out ensures Held(t, p) { assert Held(s, p); }
    forall id | id in t.futures && t.futures[id] == Open ensures IsQueued(t, t.asked[id].graph, id) {
      assert IsQueued(s, s.asked[id].graph, id);
    }
  }

  lemma {:induction false} HeldAfterGrant(s: Ctl, lim: Limits)
    requires s.ring != [] && HasQueue(s, s.ring[0]) && Admits(s, lim)
    requires QueueOk(s, s.ring[0])
    requires forall p | p in s.out :: Held(s, p)
    ensures var t := ExamineFront(s, lim); forall p | p in t.out :: Held(t, p)
  {
    var t := ExamineFront(s, lim);
    assert WaiterOk(s, s.ring[0], s.queues[s.ring[0]][0]);
    forall p | p in t.out ensures Held(t, p) {
      if p in s.out { assert Held(s, p); }
    }
  }

  lemma {:induction false} FuturesAfterGrant(s: Ctl, lim: Limits)
    requires s.ring != [] && HasQueue(s, s.ring[0]) && Admits(s, lim)
    requires FuturesOk(s)
    ensures FuturesOk(ExamineFront(s, lim))
  {
    var t := ExamineFront(s, lim);
    forall id | id in t.futures && t.futures[id] == Open ensures IsQueued(t, t.asked[id].graph, id) {
      assert IsQueued(s, s.asked[id].graph, id);
      var i :| 0 <= i < |s.queues[s.asked[id].graph]| && s.queues[s.asked[id].graph][i].id == id;
      assert t.queues[s.asked[id].graph][i].id == id;
    }
  }

  // ---------- closing a batch ----------

  lemma {:induction false} WithoutRing(ring: seq<Id>, graph: Id)
    requires DistinctRing(ring)
    ensures DistinctRing(Without(ring, graph))
  {
    if ring != [] {
      assert ring[0] !in ring[1..];
      WithoutRing(ring[1..], graph);
      var rest := Without(ring[1..], graph);
      assert ring[0] !in rest;
      var whole := [ring[0]] + rest;
      assert forall i, j | 0 <= i < j < |whole| :: whole[i] != whole[j];
    }
  }

  /** A batch may only be resolved with its own grants, and only a batch without grants may be closed otherwise. */
  predicate Closable(w: Waiter, outcome: Future) {
    match outcome
    case Open => false
    case Resolved(permits) => permits == w.granted && permits != []
    case _ => w.granted == []
  }

  lemma {:induction false} CloseRing(s: Ctl, graph: Id, i: nat, outcome: Future)
    requires RingOk(s) && graph in s.queues && i < |s.queues[graph]|
    ensures RingOk(Close(s, graph, i, outcome))
  {
    WithoutRing(s.ring, graph);
  }

  lemma {:induction false} ClosedOutcome(s: Ctl, graph: Id, w: Waiter, outcome: Future)
    requires WaiterOk(s, graph, w) && Closable(w, outcome) && outcome.Resolved?
    ensures outcome.permits != [] && PermitsOf(s, w.id, graph, outcome.permits)
    ensures multiset(Requests(outcome.permits)) <= multiset(s.asked[w.id].requests)
  {
  }

  lemma {:induction false} CloseQueued(s: Ctl, graph: Id, i: nat, outcome: Future, home: Id, id: Id)
    requires graph in s.queues && i < |s.queues[graph]|
    requires IsQueued(s, home, id) && id != s.queues[graph][i].id
    ensures IsQueued(Close(s, graph, i, outcome), home, id)
  {
    var t := Close(s, graph, i, outcome);
    var queue := s.queues[graph];
    var k :| 0 <= k < |s.queues[home]| && s.queues[home][k].id == id;
    if home == graph {
      var rest := queue[..i] + queue[i + 1..];
      assert rest[if k < i then k else k - 1].id == id;
    } else {
      assert t.queues[home][k].id == id;
    }
  }

  lemma {:induction false} SamePermitsOf(s: Ctl, t: Ctl, id: Id, graph: Id, permits: seq<Permit>)
    requires t.serial == s.serial
    ensures PermitsOf(s, id, graph, permits) <==> PermitsOf(t, id, graph, permits)
  {
  }

  lemma {:induction false} CloseFutures(s: Ctl, graph: Id, i: nat, outcome: Future)
    requires FuturesOk(s) && graph in s.queues && i < |s.queues[graph]|
    requires QueueOk(s, graph) && Closable(s.queues[graph][i], outcome)
    ensures FuturesOk(Close(s, graph, i, outcome))
  {
    hide IsQueued, PermitsOf, SplitsWell, Requests, Without;
    var t := Close(s, graph, i, outcome);
    var w := s.queues[graph][i];
    assert WaiterOk(s, graph, w);
    if outcome.Resolved? { ClosedOutcome(s, graph, w, outcome); }
    forall id | id in t.futures && t.futures[id] == Open ensures IsQueued(t, t.asked[id].graph, id) {
      assert IsQueued(s, s.asked[id].graph, id);
      CloseQueued(s, graph, i, outcome, s.asked[id].graph, id);
    }
    forall id | id in t.futures && t.futures[id].Resolved?
      ensures PermitsOf(t, id, t.asked[id].graph, t.futures[id].permits)
    {
      if id != w.id { assert s.futures[id].Resolved?; }
      SamePermitsOf(s, t, id, t.asked[id].graph, t.futures[id].permits);
    }
  }

  lemma {:induction false} CloseQueue(s: Ctl, graph: Id, i: nat, outcome: Future, other: Id)
    requires graph in s.queues && i < |s.queues[graph]|
    requires QueueOk(s, graph) && other in s.queues && QueueOk(s, other)
    requires other in Close(s, graph, i, outcome).queues
    ensures QueueOk(Close(s, graph, i, outcome), other)
  {
    var t := Close(s, graph, i, outcome);
    var queue := s.queues[graph];
    var w := queue[i];
    assert WaiterOk(s, graph, w);
    forall k | 0 <= k < |t.queues[other]| ensures WaiterOk(t, other, t.queues[other][k]) {
      var o := if other != graph || k < i then k else k + 1;
      assert t.queues[other][k] == s.queues[other][o];
      assert WaiterOk(s, other, s.queues[other][o]);
    }
  }

  lemma {:induction false} CloseHeld(s: Ctl, graph: Id, i: nat, outcome: Future, p: Permit)
    requires graph in s.queues && i < |s.queues[graph]| && QueueOk(s, graph)
    requires Closable(s.queues[graph][i], outcome)
    requires Held(s, p) && (p.graph in s.queues ==> QueueOk(s, p.graph))
    ensures Held(Close(s, graph, i, outcome), p)
  {
    var t := Close(s, graph, i, outcome);
    var queue := s.queues[graph];
    assert WaiterOk(s, graph, queue[i]);
    if s.futures[p.batch] == Open {
      assert WaiterOk(s, p.graph, s.queues[p.graph][0]);
      if p.graph == graph && i > 0 {
        assert p.batch == queue[0].id && queue[0].id != queue[i].id;
        assert t.queues[graph][0] == queue[0];
      }
    }
  }

  lemma {:induction false} CloseServed(s: Ctl, graph: Id, i: nat, outcome: Future, served: seq<Id>)
    requires graph in s.queues && i < |s.queues[graph]| && QueueOk(s, graph)
    requires Closable(s.queues[graph][i], outcome) && (outcome.Resolved? ==> i == 0)
    requires forall g :: g in served <==> HasQueue(s, g) && s.queues[g][0].granted != []
    ensures var t := Close(s, graph, i, outcome);
            var left := if outcome.Resolved? then Without(served, graph) else served;
            forall g :: g in left <==> HasQueue(t, g) && t.queues[g][0].granted != []
  {
    var t := Close(s, graph, i, outcome);
    var left := if outcome.Resolved? then Without(served, graph) else served;
    forall g ensures g in left <==> HasQueue(t, g) && t.queues[g][0].granted != [] {
      assert g in served <==> HasQueue(s, g) && s.queues[g][0].granted != [];
      if g == graph && i == 0 && |s.queues[graph]| > 1 {
        assert t.queues[graph][0] == s.queues[graph][1];
      }
    }
  }

  lemma {:induction false} CloseKeepsMid(s: Ctl, lim: Limits, graph: Id, i: nat, outcome: Future, served: seq<Id>)
    requires Mid(s, lim, served) && graph in s.queues && i < |s.queues[graph]|
    requires Closable(s.queues[graph][i], outcome) && (outcome.Resolved? ==> i == 0)
    ensures Mid(Close(s, graph, i, outcome), lim, if outcome.Resolved? then Without(served, graph) else served)
  {
    hide RingOk, QueueOk, FuturesOk, Held, Closable;
    var t := Close(s, graph, i, outcome);
    CloseRing(s, graph, i, outcome);
    CloseFutures(s, graph, i, outcome);
    forall p | p in s.out ensures Held(t, p) { CloseHeld(s, graph, i, outcome, p); }
    CloseServed(s, graph, i, outcome, served);
    WithoutRing(served, graph);
    forall other | other in t.queues ensures QueueOk(t, other) { CloseQueue(s, graph, i, outcome, other); }
  }

  // ---------- the drain ----------

  lemma {:induction false} BlockedKeepsOut(s: Ctl, lim: Limits)
    requires s.ring != [] && HasQueue(s, s.ring[0]) && !Admits(s, lim)
    ensures ExamineFront(s, lim).out == s.out
  {
  }

  lemma {:induction false} ScanKeepsMid(s: Ctl, lim: Limits, n: nat, served: seq<Id>)
    requires Mid(s, lim, served) && |s.out| < lim.globalLimit
    ensures var (t, found) := Scan(s, lim, n);
            Mid(t, lim, if found.Some? then Noted(served, found.value) else served)
    decreases n
  {
    hide Mid, ExamineFront, Admits;
    if n > 0 && s.ring != [] {
      ExamineKeepsMid(s, lim, served);
      if !Admits(s, lim) {
        BlockedKeepsOut(s, lim);
        ScanKeepsMid(ExamineFront(s, lim), lim, n - 1, served);
      }
    }
  }

  lemma {:induction false} GrantsKeepsMid(s: Ctl, lim: Limits, served: seq<Id>)
    requires Mid(s, lim, served)
    ensures var (t, noted) := Grants(s, lim, served); Mid(t, lim, noted)
    decreases lim.globalLimit - |s.out|
  {
    if |s.out| < lim.globalLimit && s.ring != [] {
      ScanRaises(s, lim, |s.ring|);
      ScanKeepsMid(s, lim, |s.ring|, served);
      var (t, found) := Scan(s, lim, |s.ring|);
      hide Scan;
      if found.Some? { GrantsKeepsMid(t, lim, Noted(served, found.value)); }
    }
  }

  lemma {:induction false} ResolveKeepsMid(s: Ctl, lim: Limits, served: seq<Id>)
    requires Mid(s, lim, served)
    ensures Ok(ResolveAll(s, served), lim)
    decreases |served|
  {
    if served != [] {
      assert served[0] in served;
      assert HasQueue(s, served[0]);
      CloseKeepsMid(s, lim, served[0], 0, Resolved(s.queues[served[0]][0].granted), served);
      TailWithout(served);
      hide Mid, Close;
      ResolveKeepsMid(ResolveHead(s, served[0]), lim, served[1..]);
    }
  }

  lemma {:induction false} TailWithout(served: seq<Id>)
    requires served != [] && DistinctRing(served)
    ensures Without(served, served[0]) == served[1..]
  {
    WithoutAbsent(served[1..], served[0]);
  }

  lemma {:induction false} WithoutAbsent(ring: seq<Id>, graph: Id)
    requires graph !in ring
    ensures Without(ring, graph) == ring
  {
    if ring != [] { WithoutAbsent(ring[1..], graph); }
  }

  lemma {:induction false} DrainKeepsOk(s: Ctl, lim: Limits)
    requires Ok(s, lim)
    ensures Ok(Drain(s, lim), lim)
  {
    GrantsKeepsMid(s, lim, []);
    var (t, served) := Grants(s, lim, []);
    ResolveKeepsMid(t, lim, served);
  }

  // ---------- every operation ----------

  datatype Action =
    | Submit(graph: Id, id: Id, requests: seq<Request>)
    | DrainNow
    | Cancel(graph: Id)
    | GiveUp(id: Id)
    | Return(permit: Permit)

  /** A submission is a new, non-empty batch; giving up is for a batch that was submitted. */
  predicate Enabled(s: Ctl, a: Action) {
    match a
    case Submit(graph, id, requests) => id !in s.futures && requests != []
    case GiveUp(id) => id in s.futures && id in s.asked
    case _ => true
  }

  function Apply(s: Ctl, lim: Limits, a: Action): Ctl
    requires Numbered(s) && Enabled(s, a)
  {
    match a
    case Submit(graph, id, requests) => Enqueue(s, graph, id, requests)
    case DrainNow => Drain(s, lim)
    case Cancel(graph) => CancelWaiters(s, lim, graph)
    case GiveUp(id) => Withdraw(s, lim, s.asked[id].graph, id)
    case Return(p) => Release(s, lim, p)
  }

  lemma {:induction false} NewWaiterOk(s: Ctl, graph: Id, id: Id, requests: seq<Request>)
    ensures WaiterOk(Enqueue(s, graph, id, requests), graph, Waiter(id, requests, []))
  {
    assert Requests([]) == [];
  }

  lemma {:induction false} OldWaiterOk(s: Ctl, graph: Id, id: Id, requests: seq<Request>, other: Id, w: Waiter)
    requires WaiterOk(s, other, w) && id !in s.futures
    ensures WaiterOk(Enqueue(s, graph, id, requests), other, w) && w.id != id
  {
  }

  lemma {:induction false} EnqueueQueue(s: Ctl, graph: Id, id: Id, requests: seq<Request>, other: Id)
    requires id !in s.futures && (other in s.queues ==> s.queues[other] != [] && QueueOk(s, other))
    requires other in Enqueue(s, graph, id, requests).queues
    ensures QueueOk(Enqueue(s, graph, id, requests), other)
  {
    hide WaiterOk;
    var t := Enqueue(s, graph, id, requests);
    var queue := if other in s.queues then s.queues[other] else [];
    forall k | 0 <= k < |queue| ensures WaiterOk(t, other, queue[k]) && queue[k].id != id {
      OldWaiterOk(s, graph, id, requests, other, queue[k]);
    }
    NewWaiterOk(s, graph, id, requests);
    assert t.queues[other] == queue + (if other == graph then [Waiter(id, requests, [])] else []);
  }

  lemma {:induction false} EnqueueKeepsOk(s: Ctl, lim: Limits, graph: Id, id: Id, requests: seq<Request>)
    requires Ok(s, lim) && id !in s.futures && requests != []
    ensures Ok(Enqueue(s, graph, id, requests), lim)
  {
    var t := Enqueue(s, graph, id, requests);
    hide QueueOk, FuturesOk, Held, IsQueued;
    forall other | other in t.queues ensures QueueOk(t, other) { EnqueueQueue(s, graph, id, requests, other); }
    forall p | p in t.out ensures Held(t, p) { EnqueueHeld(s, graph, id, requests, p); }
    EnqueueFutures(s, graph, id, requests);
    forall g ensures !(HasQueue(t, g) && t.queues[g][0].granted != []) {
      assert g !in [];
      if HasQueue(s, g) { assert s.queues[g][0].granted == []; }
    }
  }

  lemma {:induction false} EnqueueHeld(s: Ctl, graph: Id, id: Id, requests: seq<Request>, p: Permit)
    requires Held(s, p) && id !in s.futures
    ensures Held(Enqueue(s, graph, id, requests), p)
  {
  }

  lemma {:induction false} EnqueueFutures(s: Ctl, graph: Id, id: Id, requests: seq<Request>)
    requires FuturesOk(s) && id !in s.futures
    ensures FuturesOk(Enqueue(s, graph, id, requests))
  {
    var t := Enqueue(s, graph, id, requests);
    forall i | i in t.futures && t.futures[i] == Open ensures IsQueued(t, t.asked[i].graph, i) {
      if i == id {
        assert t.queues[graph][|t.queues[graph]| - 1].id == id;
      } else {
        assert IsQueued(s, s.asked[i].graph, i);
        var k :| 0 <= k < |s.queues[s.asked[i].graph]| && s.queues[s.asked[i].graph][k].id == i;
        assert t.queues[s.asked[i].graph][k].id == i;
      }
    }
  }

  lemma {:induction false} CancelOneByOne(s: Ctl, graph: Id)
    requires graph in s.queues && s.queues[graph] != []
    ensures var t := Close(s, graph, 0, GraphCancelled);
            if |s.queues[graph]| == 1 then t == CancelQueue(s, graph)
            else graph in t.queues && t.queues[graph] == s.queues[graph][1..] && CancelQueue(t, graph) == CancelQueue(s, graph)
  {
    var t := Close(s, graph, 0, GraphCancelled);
    assert s.queues[graph][..0] + s.queues[graph][1..] == s.queues[graph][1..];
    if |s.queues[graph]| > 1 {
      assert t.queues - {graph} == s.queues - {graph};
    } else {
      assert s.queues[graph][1..] == [];
      assert CancelAll(s.futures, s.queues[graph]) == t.futures;
    }
  }

  /** Cancelling a queue closes its batches one by one from the front. */
  lemma {:induction false} CancelKeepsOk(s: Ctl, lim: Limits, graph: Id)
    requires Ok(s, lim)
    ensures Ok(CancelQueue(s, graph), lim)
    decreases if graph in s.queues then |s.queues[graph]| else 0
  {
    if graph in s.queues {
      HeadHoldsNothing(s, lim, graph);
      CancelOneByOne(s, graph);
      CloseKeepsMid(s, lim, graph, 0, GraphCancelled, []);
      hide Mid, Close, CancelQueue;
      if |s.queues[graph]| > 1 {
        CancelKeepsOk(Close(s, graph, 0, GraphCancelled), lim, graph);
      }
    }
  }

  lemma {:induction false} HeadHoldsNothing(s: Ctl, lim: Limits, graph: Id)
    requires Ok(s, lim) && graph in s.queues
    ensures s.queues[graph] != []
    ensures forall i | 0 <= i < |s.queues[graph]| :: s.queues[graph][i].granted == []
  {
    assert QueueOk(s, graph);
    assert HasQueue(s, graph) && graph !in [];
  }

  lemma {:induction false} WithdrawKeepsOk(s: Ctl, lim: Limits, id: Id)
    requires Ok(s, lim) && id in s.futures
    ensures Ok(Withdraw(s, lim, s.asked[id].graph, id), lim)
  {
    if s.futures[id] == Open {
      var graph := s.asked[id].graph;
      assert IsQueued(s, graph, id);
      var i := IndexOf(s.queues[graph], id);
      assert graph !in [];
      assert QueueOk(s, graph);
      assert s.queues[graph][i].granted == [];
      CloseKeepsMid(s, lim, graph, i, Withdrawn, []);
      DrainKeepsOk(Close(s, graph, i, Withdrawn), lim);
    }
  }

  lemma {:induction false} FewerOut(out: set<Permit>, p: Permit, graph: Id, tool: Id)
    ensures |out - {p}| <= |out|
    ensures |OfGraph(out - {p}, graph)| <= |OfGraph(out, graph)|
    ensures |OfTool(out - {p}, tool)| <= |OfTool(out, tool)|
  {
    assert OfGraph(out - {p}, graph) == OfGraph(out, graph) - {p};
    assert OfTool(out - {p}, tool) == OfTool(out, tool) - {p};
  }

  lemma {:induction false} ReturnKeepsOk(s: Ctl, lim: Limits, p: Permit)
    requires Ok(s, lim)
    ensures Ok(s.(out := s.out - {p}), lim)
  {
    var t := s.(out := s.out - {p});
    forall graph | graph in t.queues ensures QueueOk(t, graph) {
      assert QueueOk(s, graph) && HasQueue(s, graph) && graph !in [];
      forall k | 0 <= k < |t.queues[graph]| ensures WaiterOk(t, graph, t.queues[graph][k]) {
        assert WaiterOk(s, graph, s.queues[graph][k]);
      }
    }
    forall id | id in t.futures && t.futures[id] == Open ensures IsQueued(t, t.asked[id].graph, id) {
      assert IsQueued(s, s.asked[id].graph, id);
    }
    forall o | o in t.out ensures Held(t, o) { assert Held(s, o); }
    forall k ensures |OfGraph(t.out, k)| <= |OfGraph(s.out, k)| && |OfTool(t.out, k)| <= |OfTool(s.out, k)| {
      FewerOut(s.out, p, k, k);
    }
    FewerOut(s.out, p, 0, 0);
    assert forall g :: HasQueue(t, g) <==> HasQueue(s, g);
  }

  lemma {:induction false} StepKeepsOk(s: Ctl, lim: Limits, a: Action)
    requires Ok(s, lim) && Enabled(s, a)
    ensures Ok(Apply(s, lim, a), lim)
  {
    hide Mid;
    match a
    case Submit(graph, id, requests) => EnqueueKeepsOk(s, lim, graph, id, requests);
    case DrainNow => DrainKeepsOk(s, lim);
    case Cancel(graph) =>
      CancelKeepsOk(s, lim, graph);
      DrainKeepsOk(CancelQueue(s, graph), lim);
    case GiveUp(id) => WithdrawKeepsOk(s, lim, id);
    case Return(p) =>
      if p in s.out {
        ReturnKeepsOk(s, lim, p);
        DrainKeepsOk(s.(out := s.out - {p}), lim);
      }
  }
}
