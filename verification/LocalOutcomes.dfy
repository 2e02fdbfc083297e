/**
 What an operation of the local controller leaves, told in queues, permits and futures: whom it
 serves, whom it wakes, and who is still waiting beside a free slot and why.
 */
module LocalOutcomes {
  import opened Ordering
  import opened LocalAdmission
  import opened LocalSafety
  import opened LocalFairness

  type Queues = map<Id, seq<Waiter>>

  // ---------- the terms ----------

  /** The request may go out beside the permits that are out. */
  predicate RequestFits(lim: Limits, out: set<Permit>, graph: Id, r: Request) {
    && |set p | p in out && p.graph == graph| < lim.perGraphLimit
    && |set p | p in out && p.request.tool == r.tool| < (if r.tool in lim.toolLimits then lim.toolLimits[r.tool] else lim.defaultToolLimit)
  }

  /** The graph's first waiting batch has a request that fits. */
  predicate HeadFits(queues: Queues, lim: Limits, out: set<Permit>, graph: Id) {
    && graph in queues && queues[graph] != []
    && exists r :: r in queues[graph][0].remaining && RequestFits(lim, out, graph, r)
  }

  predicate IsOpen(futures: map<Id, Future>, id: Id) {
    id in futures && futures[id] == Open
  }

  predicate IsServed(futures: map<Id, Future>, id: Id) {
    id in futures && futures[id].Resolved? && futures[id].permits != []
  }

  function Ids(queue: seq<Waiter>): seq<Id> {
    seq(|queue|, i requires 0 <= i < |queue| => queue[i].id)
  }

  /** Slots are offered: if a head fits and a slot is free, some batch that was open is served. */
  ghost predicate Offered(queues: Queues, out: set<Permit>, futures: map<Id, Future>, lim: Limits, t: Ctl) {
    |out| < lim.globalLimit && (exists graph :: HeadFits(queues, lim, out, graph)) ==>
      exists id :: IsOpen(futures, id) && IsServed(t.futures, id)
  }

  /** Whoever still waits beside a free slot and fits has just become first: the batch before it was served. */
  ghost predicate OnlyNewHeadsLeft(queues: Queues, lim: Limits, t: Ctl) {
    forall graph | |t.out| < lim.globalLimit && HeadFits(t.queues, lim, t.out, graph) ::
      && graph in queues && |queues[graph]| >= 2 && t.queues[graph] == queues[graph][1..]
      && IsServed(t.futures, queues[graph][0].id)
  }

  /** First come, first served: a queue loses its first batch if that was served, and is otherwise as it was. */
  ghost predicate InTurn(queues: Queues, futures: map<Id, Future>, t: Ctl) {
    && t.queues.Keys <= queues.Keys
    && (forall graph | graph in queues && queues[graph] != [] ::
          var left := if graph in t.queues then Ids(t.queues[graph]) else [];
          if IsServed(t.futures, queues[graph][0].id) then left == Ids(queues[graph])[1..] else left == Ids(queues[graph]))
    && t.futures.Keys == futures.Keys
    && (forall id | id in futures ::
          t.futures[id] == futures[id]
          || (futures[id] == Open && IsServed(t.futures, id) && exists graph :: graph in queues && queues[graph] != [] && queues[graph][0].id == id))
  }

  // ---------- what a drain leaves ----------

  lemma {:induction false} FitsIsFree(lim: Limits, out: set<Permit>, graph: Id, r: Request)
    ensures RequestFits(lim, out, graph, r) <==> GraphFits(lim, out, graph) && ToolFits(lim, out, r.tool)
  {
    assert OfGraph(out, graph) == set p | p in out && p.graph == graph;
    assert OfTool(out, r.tool) == set p | p in out && p.request.tool == r.tool;
  }

  lemma {:induction false} FittingHead(s: Ctl, lim: Limits, graph: Id)
    ensures HeadFits(s.queues, lim, s.out, graph) <==> HasQueue(s, graph) && !Blocked(s, lim, graph)
  {
    hide Fits, GraphFits, ToolFits;
    if HasQueue(s, graph) {
      forall r | r in s.queues[graph][0].remaining
        ensures RequestFits(lim, s.out, graph, r) <==> GraphFits(lim, s.out, graph) && ToolFits(lim, s.out, r.tool)
      {
        FitsIsFree(lim, s.out, graph, r);
      }
    }
  }

  lemma {:induction false} GrantsKeepServed(s: Ctl, lim: Limits, served: seq<Id>)
    requires Numbered(s)
    ensures served <= Grants(s, lim, served).1
    decreases lim.globalLimit - |s.out|
  {
    if |s.out| < lim.globalLimit && s.ring != [] {
      ScanRaises(s, lim, |s.ring|);
      var (t, found) := Scan(s, lim, |s.ring|);
      hide Scan;
      if found.Some? { GrantsKeepServed(t, lim, Noted(served, found.value)); }
    }
  }

  /** A drain that starts with a head that fits serves some graph. */
  lemma {:induction false} UnquietServes(s: Ctl, lim: Limits)
    requires Ok(s, lim) && !Quiet(s, lim)
    ensures Numbered(s) && Grants(s, lim, []).1 != []
  {
    MidMeans(s, lim, []);
    assert RingOk(s);
    hide Mid, RingOk, Scan, Quiet;
    if s.ring == [] { NoRingIsQuiet(s, lim); }
    if |s.out| >= lim.globalLimit { FullIsQuiet(s, lim); }
    ScanRaises(s, lim, |s.ring|);
    if Scan(s, lim, |s.ring|).1 == None {
      FruitlessIsQuiet(s, lim);
    } else {
      var (t, found) := Scan(s, lim, |s.ring|);
      GrantsKeepServed(t, lim, Noted([], found.value));
    }
  }

  lemma {:induction false} FullIsQuiet(s: Ctl, lim: Limits)
    requires |s.out| >= lim.globalLimit
    ensures Quiet(s, lim)
  {
  }

  ghost predicate HeadOfServed(s: Ctl, served: seq<Id>, id: Id) {
    exists graph :: graph in served && HasQueue(s, graph) && s.queues[graph][0].id == id
  }

  /** Resolving settles exactly the heads of the served graphs. */
  lemma {:induction false} ResolveSettles(s: Ctl, lim: Limits, served: seq<Id>)
    requires Mid(s, lim, served)
    ensures ResolveAll(s, served).futures.Keys == s.futures.Keys
    ensures forall id | id in s.futures :: ResolveAll(s, served).futures[id] == s.futures[id] || HeadOfServed(s, served, id)
    decreases |served|
  {
    hide Mid, Close, HeadOfServed;
    if served != [] {
      ServedHead(s, lim, served);
      var front := served[0];
      var outcome := Resolved(s.queues[front][0].granted);
      CloseKeepsMid(s, lim, front, 0, outcome, served);
      TailWithout(served);
      CloseKeepsKeys(s, front, outcome);
      var t := ResolveHead(s, front);
      ResolveSettles(t, lim, served[1..]);
      forall id | id in s.futures ensures ResolveAll(s, served).futures[id] == s.futures[id] || HeadOfServed(s, served, id) {
        if HeadOfServed(t, served[1..], id) { StillHead(s, front, served, id); }
        if id == s.queues[front][0].id { FrontIsHead(s, served); } else { CloseTouchesOne(s, front, 0, outcome, id); }
      }
    }
  }

  lemma {:induction false} FrontIsHead(s: Ctl, served: seq<Id>)
    requires served != [] && HasQueue(s, served[0])
    ensures HeadOfServed(s, served, s.queues[served[0]][0].id)
  {
    assert served[0] in served;
  }

  lemma {:induction false} CloseKeepsKeys(s: Ctl, graph: Id, outcome: Future)
    requires HasQueue(s, graph) && s.queues[graph][0].id in s.futures
    ensures Close(s, graph, 0, outcome).futures.Keys == s.futures.Keys
  {
  }

  lemma {:induction false} StillHead(s: Ctl, front: Id, served: seq<Id>, id: Id)
    requires served != [] && served[0] == front && HasQueue(s, front) && DistinctRing(served)
    requires HeadOfServed(ResolveHead(s, front), served[1..], id)
    ensures HeadOfServed(s, served, id)
  {
    var t := ResolveHead(s, front);
    var graph :| graph in served[1..] && HasQueue(t, graph) && t.queues[graph][0].id == id;
    assert graph in served && graph != front;
    assert HasQueue(s, graph) && s.queues[graph] == t.queues[graph];
  }

  /** The queues after a drain, and which futures it settled. */
  lemma {:induction false} DrainTakesTurns(s: Ctl, lim: Limits)
    requires Ok(s, lim)
    ensures Numbered(s) && InTurn(s.queues, s.futures, Drain(s, lim))
    ensures |s.out| < lim.globalLimit && !Quiet(s, lim) ==>
              exists id :: IsOpen(s.futures, id) && IsServed(Drain(s, lim).futures, id)
  {
    MidMeans(s, lim, []);
    hide Grants, ResolveAll, Mid, SameHeads, Quiet, InTurn;
    var (t, served) := Grants(s, lim, []);
    var d := Drain(s, lim);
    GrantsKeepsMid(s, lim, []);
    GrantsEndQuiet(s, lim, []);
    ResolveSettles(t, lim, served);
    TurnsTaken(s, t, d, lim, served);
    if |s.out| < lim.globalLimit && !Quiet(s, lim) {
      UnquietServes(s, lim);
      ServedHead(t, lim, served);
      FrontServed(s, t, lim, served);
    }
  }

  lemma {:induction false} FrontServed(s: Ctl, t: Ctl, lim: Limits, served: seq<Id>)
    requires Mid(t, lim, served) && served != [] && SameHeads(s, t)
    ensures exists id :: IsOpen(s.futures, id) && IsServed(ResolveAll(t, served).futures, id)
  {
    ServedHead(t, lim, served);
    DrainResolves(t, lim, served, served[0]);
    var id := t.queues[served[0]][0].id;
    hide ResolveAll;
    assert IsOpen(s.futures, id) && IsServed(ResolveAll(t, served).futures, id);
  }

  lemma {:induction false} TurnsTaken(s: Ctl, t: Ctl, d: Ctl, lim: Limits, served: seq<Id>)
    requires Ok(s, lim) && Mid(t, lim, served) && SameHeads(s, t) && d == ResolveAll(t, served)
    requires d.futures.Keys == t.futures.Keys
    requires forall id | id in t.futures :: d.futures[id] == t.futures[id] || HeadOfServed(t, served, id)
    ensures InTurn(s.queues, s.futures, d)
  {
    hide ResolveAll, Mid, SameHeads;
    SameHeadsFacts(s, t);
    ServedHaveQueues(t, lim, served);
    forall graph | graph in d.queues ensures graph in s.queues { QueueStays(s, t, d, lim, served, graph); }
    forall graph | graph in s.queues && s.queues[graph] != []
      ensures var left := if graph in d.queues then Ids(d.queues[graph]) else [];
              if IsServed(d.futures, s.queues[graph][0].id) then left == Ids(s.queues[graph])[1..] else left == Ids(s.queues[graph])
    {
      QueueLeft(s, t, d, lim, served, graph);
    }
    forall id | id in s.futures
      ensures d.futures[id] == s.futures[id]
              || (s.futures[id] == Open && IsServed(d.futures, id) && exists graph :: graph in s.queues && s.queues[graph] != [] && s.queues[graph][0].id == id)
    {
      if d.futures[id] != s.futures[id] {
        var graph :| graph in served && HasQueue(t, graph) && t.queues[graph][0].id == id;
        SameHeadsMeans(s, t, graph);
        DrainResolves(t, lim, served, graph);
        HeadIsOpen(t, lim, served, graph);
      }
    }
  }

  lemma {:induction false} SameHeadsFacts(s: Ctl, t: Ctl)
    requires SameHeads(s, t)
    ensures t.futures == s.futures && t.queues.Keys == s.queues.Keys
  {
  }

  lemma {:induction false} HeadIsOpen(t: Ctl, lim: Limits, served: seq<Id>, graph: Id)
    requires Mid(t, lim, served) && HasQueue(t, graph)
    ensures IsOpen(t.futures, t.queues[graph][0].id)
    ensures graph in served <==> t.queues[graph][0].granted != []
  {
    assert QueueOk(t, graph);
    assert WaiterOk(t, graph, t.queues[graph][0]);
  }

  lemma {:induction false} QueueStays(s: Ctl, t: Ctl, d: Ctl, lim: Limits, served: seq<Id>, graph: Id)
    requires Mid(t, lim, served) && SameHeads(s, t) && d == ResolveAll(t, served) && graph in d.queues
    ensures graph in s.queues
  {
    ResolveKeepsMid(t, lim, served);
    OkQueues(d, lim, graph);
    if !HasQueue(t, graph) { ResolveAddsNone(t, served, graph); }
  }

  lemma {:induction false} OkQueues(d: Ctl, lim: Limits, graph: Id)
    requires Ok(d, lim) && graph in d.queues
    ensures HasQueue(d, graph)
  {
  }

  /** A graph's queue after the drain: without its head if that was granted something. */
  lemma {:induction false} QueueLeft(s: Ctl, t: Ctl, d: Ctl, lim: Limits, served: seq<Id>, graph: Id)
    requires Mid(t, lim, served) && SameHeads(s, t) && d == ResolveAll(t, served) && graph in s.queues && s.queues[graph] != []
    requires d.futures.Keys == t.futures.Keys
    requires forall id | id in t.futures :: d.futures[id] == t.futures[id] || HeadOfServed(t, served, id)
    ensures var left := if graph in d.queues then Ids(d.queues[graph]) else [];
            if IsServed(d.futures, s.queues[graph][0].id) then left == Ids(s.queues[graph])[1..] else left == Ids(s.queues[graph])
  {
    hide ResolveAll, Mid;
    ResolveKeepsMid(t, lim, served);
    ServedHaveQueues(t, lim, served);
    assert HasQueue(t, graph);
    SameHeadsMeans(s, t, graph);
    ResolvePopsServed(t, served, graph);
    HeadIsOpen(t, lim, served, graph);
    if graph in d.queues { OkQueues(d, lim, graph); }
    if graph in served {
      DrainResolves(t, lim, served, graph);
      HeadGranted(t, lim, served, graph);
    } else {
      OneHeadEach(t, lim, served, graph);
    }
  }

  lemma {:induction false} HeadGranted(t: Ctl, lim: Limits, served: seq<Id>, graph: Id)
    requires Mid(t, lim, served) && graph in served
    ensures HasQueue(t, graph) && t.queues[graph][0].granted != []
  {
  }

  /** No two graphs queue one batch. */
  lemma {:induction false} OneHeadEach(t: Ctl, lim: Limits, served: seq<Id>, graph: Id)
    requires Mid(t, lim, served) && HasQueue(t, graph) && graph !in served
    ensures !HeadOfServed(t, served, t.queues[graph][0].id)
  {
    assert QueueOk(t, graph);
    assert WaiterOk(t, graph, t.queues[graph][0]);
    forall other | other in served && HasQueue(t, other) ensures t.queues[other][0].id != t.queues[graph][0].id {
      assert QueueOk(t, other);
      assert WaiterOk(t, other, t.queues[other][0]);
    }
  }

  // ---------- permits ----------

  /** The permits out are those that were, and the never seen ones of the batches just served. */
  ghost predicate Handed(b: Ctl, t: Ctl) {
    forall p :: p in t.out <==> p in b.out || NewlyHeld(b, t, p)
  }

  predicate NewlyHeld(b: Ctl, t: Ctl, p: Permit) {
    IsOpen(b.futures, p.batch) && IsServed(t.futures, p.batch) && p in t.futures[p.batch].permits && p.serial >= b.serial
  }

  predicate OnlyNew(s: Ctl, t: Ctl) {
    && s.serial <= t.serial && s.out <= t.out
    && (forall p | p in t.out && p !in s.out :: p.serial >= s.serial)
  }

  lemma {:induction false} ScanAddsNew(s: Ctl, lim: Limits, n: nat)
    ensures OnlyNew(s, Scan(s, lim, n).0)
    decreases n
  {
    if n == 0 || s.ring == [] {
    } else if !HasQueue(s, s.ring[0]) {
      ScanAddsNew(s.(ring := s.ring[1..], trace := s.trace + [Left(s.ring[0])]), lim, n - 1);
    } else if !Admits(s, lim) {
      ScanAddsNew(ExamineFront(s, lim), lim, n - 1);
    }
  }

  lemma {:induction false} GrantsAddNew(s: Ctl, lim: Limits, served: seq<Id>)
    requires Numbered(s)
    ensures OnlyNew(s, Grants(s, lim, served).0)
    decreases lim.globalLimit - |s.out|
  {
    if |s.out| < lim.globalLimit && s.ring != [] {
      ScanRaises(s, lim, |s.ring|);
      ScanAddsNew(s, lim, |s.ring|);
      var (t, found) := Scan(s, lim, |s.ring|);
      hide Scan;
      if found.Some? { GrantsAddNew(t, lim, Noted(served, found.value)); }
    }
  }

  /** What a permit out says about its batch, and a batch about its permits, when nobody is half served. */
  lemma {:induction false} OutIsHeld(s: Ctl, lim: Limits, p: Permit)
    requires Ok(s, lim) && p in s.out
    ensures IsServed(s.futures, p.batch) && p in s.futures[p.batch].permits
  {
    assert Held(s, p);
    if s.futures[p.batch] == Open { HeadHoldsNothing(s, lim, p.graph); }
  }

  lemma {:induction false} OldPermitsAreNumbered(s: Ctl, lim: Limits, id: Id, p: Permit)
    requires Ok(s, lim) && IsServed(s.futures, id) && p in s.futures[id].permits
    ensures p.serial < s.serial
  {
    assert PermitsOf(s, id, s.asked[id].graph, s.futures[id].permits);
  }

  lemma {:induction false} GrantedAreOut(t: Ctl, lim: Limits, served: seq<Id>, graph: Id, p: Permit)
    requires Mid(t, lim, served) && HasQueue(t, graph) && p in t.queues[graph][0].granted
    ensures p in t.out && p.batch == t.queues[graph][0].id
  {
    assert QueueOk(t, graph);
    assert WaiterOk(t, graph, t.queues[graph][0]);
  }

  lemma {:induction false} NewAreHeld(s: Ctl, d: Ctl, lim: Limits, p: Permit)
    requires Ok(s, lim) && Ok(d, lim) && OnlyNew(s, d) && InTurn(s.queues, s.futures, d)
    requires p in d.out && p !in s.out
    ensures NewlyHeld(s, d, p)
  {
    hide Mid;
    OutIsHeld(d, lim, p);
    if d.futures[p.batch] == s.futures[p.batch] { OldPermitsAreNumbered(s, lim, p.batch, p); }
  }

  lemma {:induction false} DrainParts(s: Ctl, lim: Limits) returns (t: Ctl, served: seq<Id>)
    requires Ok(s, lim)
    ensures Numbered(s) && Mid(t, lim, served) && SameHeads(s, t)
    ensures Drain(s, lim) == ResolveAll(t, served) && Drain(s, lim).out == t.out
    ensures OnlyNew(s, Drain(s, lim)) && s.out <= t.out
  {
    MidMeans(s, lim, []);
    hide Grants, ResolveAll, Mid, SameHeads, OnlyNew;
    t, served := Grants(s, lim, []).0, Grants(s, lim, []).1;
    GrantsKeepsMid(s, lim, []);
    GrantsEndQuiet(s, lim, []);
    GrantsAddNew(s, lim, []);
    ResolveKeepsOut(t, served);
    NewOnesStay(s, t, Drain(s, lim));
  }

  lemma {:induction false} DrainHandsOut(s: Ctl, lim: Limits)
    requires Ok(s, lim)
    ensures Numbered(s) && Handed(s, Drain(s, lim))
  {
    hide Drain, ResolveAll, Mid, SameHeads, InTurn, OnlyNew, NewlyHeld;
    var t, served := DrainParts(s, lim);
    var d := Drain(s, lim);
    DrainKeepsOk(s, lim);
    DrainTakesTurns(s, lim);
    forall p | p in d.out && p !in s.out ensures NewlyHeld(s, d, p) { NewAreHeld(s, d, lim, p); }
    forall p | NewlyHeld(s, d, p) ensures p in d.out { NewlySettled(s, t, d, lim, served, p); }
  }

  lemma {:induction false} NewlySettled(s: Ctl, t: Ctl, d: Ctl, lim: Limits, served: seq<Id>, p: Permit)
    requires Mid(t, lim, served) && SameHeads(s, t) && d == ResolveAll(t, served) && d.out == t.out && NewlyHeld(s, d, p)
    ensures p in d.out
  {
    hide Mid, ResolveAll, HeadOfServed;
    ResolveSettles(t, lim, served);
    SettledAreOut(t, d, lim, served, p);
  }

  lemma {:induction false} NewOnesStay(s: Ctl, t: Ctl, d: Ctl)
    requires OnlyNew(s, t) && d.out == t.out && d.serial == t.serial
    ensures OnlyNew(s, d) && s.out <= d.out
  {
  }

  lemma {:induction false} SettledAreOut(t: Ctl, d: Ctl, lim: Limits, served: seq<Id>, p: Permit)
    requires Mid(t, lim, served) && d == ResolveAll(t, served) && d.out == t.out
    requires d.futures.Keys == t.futures.Keys
    requires forall id | id in t.futures :: d.futures[id] == t.futures[id] || HeadOfServed(t, served, id)
    requires IsOpen(t.futures, p.batch) && IsServed(d.futures, p.batch) && p in d.futures[p.batch].permits
    ensures p in d.out
  {
    hide ResolveAll, Mid;
    var graph :| graph in served && HasQueue(t, graph) && t.queues[graph][0].id == p.batch;
    DrainResolves(t, lim, served, graph);
    GrantedAreOut(t, lim, served, graph, p);
  }

  // ---------- what an operation leaves ----------

  /** Told of the state an operation made before it looked for batches to serve, and the state it left. */
  ghost predicate Settled(b: Ctl, lim: Limits, t: Ctl) {
    && Offered(b.queues, b.out, b.futures, lim, t)
    && OnlyNewHeadsLeft(b.queues, lim, t)
    && InTurn(b.queues, b.futures, t)
    && Handed(b, t)
    && t.asked == b.asked
  }

  lemma {:induction false} FitMeansUnquiet(s: Ctl, lim: Limits, graph: Id)
    requires HeadFits(s.queues, lim, s.out, graph)
    ensures !Quiet(s, lim) || |s.out| >= lim.globalLimit
  {
    FittingHead(s, lim, graph);
    hide HeadFits, Blocked;
    assert HasQueue(s, graph);
  }

  lemma {:induction false} DrainSettles(s: Ctl, lim: Limits)
    requires Ok(s, lim)
    ensures Numbered(s) && Settled(s, lim, Drain(s, lim))
  {
    hide Mid, Quiet, HeadFits, InTurn, Handed, Drain;
    DrainTakesTurns(s, lim);
    DrainHandsOut(s, lim);
    DrainKeepsAsked(s, lim);
    var d := Drain(s, lim);
    if |s.out| < lim.globalLimit && exists graph :: HeadFits(s.queues, lim, s.out, graph) {
      var graph :| HeadFits(s.queues, lim, s.out, graph);
      FitMeansUnquiet(s, lim, graph);
    }
    forall graph | |d.out| < lim.globalLimit && HeadFits(d.queues, lim, d.out, graph)
      ensures graph in s.queues && |s.queues[graph]| >= 2 && graph in d.queues && d.queues[graph] == s.queues[graph][1..]
      ensures IsServed(d.futures, s.queues[graph][0].id)
    {
      FittingHead(d, lim, graph);
      DrainQuiescence(s, lim, graph);
      DrainKeepsOk(s, lim);
      ResolvedIsServed(d, lim, s.queues[graph][0].id);
    }
  }

  lemma {:induction false} ResolvedIsServed(d: Ctl, lim: Limits, id: Id)
    requires Ok(d, lim) && id in d.futures && d.futures[id].Resolved?
    ensures IsServed(d.futures, id)
  {
  }

  lemma {:induction false} DrainKeepsAsked(s: Ctl, lim: Limits)
    requires Ok(s, lim)
    ensures Numbered(s) && Drain(s, lim).asked == s.asked
  {
    MidMeans(s, lim, []);
    hide Mid;
    GrantsKeepAsked(s, lim, []);
    ResolveKeepsAsked(Grants(s, lim, []).0, Grants(s, lim, []).1);
  }

  lemma {:induction false} ScanKeepsAsked(s: Ctl, lim: Limits, n: nat)
    ensures Scan(s, lim, n).0.asked == s.asked
    decreases n
  {
    if n == 0 || s.ring == [] {
    } else if !HasQueue(s, s.ring[0]) {
      ScanKeepsAsked(s.(ring := s.ring[1..], trace := s.trace + [Left(s.ring[0])]), lim, n - 1);
    } else if !Admits(s, lim) {
      ScanKeepsAsked(ExamineFront(s, lim), lim, n - 1);
    }
  }

  lemma {:induction false} GrantsKeepAsked(s: Ctl, lim: Limits, served: seq<Id>)
    requires Numbered(s)
    ensures Grants(s, lim, served).0.asked == s.asked
    decreases lim.globalLimit - |s.out|
  {
    if |s.out| < lim.globalLimit && s.ring != [] {
      ScanRaises(s, lim, |s.ring|);
      ScanKeepsAsked(s, lim, |s.ring|);
      var (t, found) := Scan(s, lim, |s.ring|);
      hide Scan;
      if found.Some? { GrantsKeepAsked(t, lim, Noted(served, found.value)); }
    }
  }

  lemma {:induction false} ResolveKeepsAsked(s: Ctl, served: seq<Id>)
    ensures ResolveAll(s, served).asked == s.asked
    decreases |served|
  {
    if served != [] {
      if HasQueue(s, served[0]) {
        ResolveKeepsAsked(ResolveHead(s, served[0]), served[1..]);
      } else {
        ResolveKeepsAsked(s, served[1..]);
      }
    }
  }

  // ---------- the operations ----------

  /** A permit given back: it is out no more, and its slot is offered to the batches that wait. */
  ghost predicate ReturnLaw(s: Ctl, lim: Limits, p: Permit, t: Ctl) {
    && p !in t.out
    && (p !in s.out ==> t == s)
    && (p in s.out ==> Settled(s.(out := s.out - {p}), lim, t))
  }

  /** Every open batch that asked for the graph is told that it was cancelled. */
  function Woken(s: Ctl, graph: Id): map<Id, Future> {
    map id | id in s.futures ::
      if s.futures[id] == Open && id in s.asked && s.asked[id].graph == graph then GraphCancelled else s.futures[id]
  }

  /** The queues without one batch. */
  function Remaining(queues: Queues, id: Id): Queues {
    map g | g in queues && Others(queues[g], id) != [] :: Others(queues[g], id)
  }

  /** A graph cancelled: all its open batches are woken, its permits stay out, and the others are offered what is free. */
  ghost predicate CancelLaw(s: Ctl, lim: Limits, graph: Id, t: Ctl) {
    && Settled(s.(queues := s.queues - {graph}, futures := Woken(s, graph)), lim, t)
    && graph !in t.queues && graph !in t.ring
  }

  function Others(queue: seq<Waiter>, id: Id): seq<Waiter> {
    if queue == [] then []
    else if queue[0].id == id then Others(queue[1..], id)
    else [queue[0]] + Others(queue[1..], id)
  }

  /** A caller gone: a decided batch is left alone; an open one leaves its queue, and the others are offered what is free. */
  ghost predicate GiveUpLaw(s: Ctl, lim: Limits, id: Id, t: Ctl) {
    if id in s.futures && s.futures[id] != Open then t == s
    else
      && id in t.futures && t.futures[id] == Withdrawn
      && Settled(s.(queues := Remaining(s.queues, id), futures := s.futures[id := Withdrawn]), lim, t)
  }

  /** A batch submitted waits behind the others of its graph, and its graph behind the graphs in the ring. */
  ghost predicate SubmitLaw(s: Ctl, graph: Id, id: Id, requests: seq<Request>, t: Ctl) {
    && t.out == s.out && t.serial == s.serial
    && t.futures == s.futures[id := Open] && t.asked == s.asked[id := Batch(graph, requests)]
    && t.queues.Keys == s.queues.Keys + {graph}
    && (forall g | g in s.queues && g != graph :: t.queues[g] == s.queues[g])
    && t.queues[graph] == (if graph in s.queues then s.queues[graph] else []) + [Waiter(id, requests, [])]
    && t.ring == if graph in s.ring then s.ring else s.ring + [graph]
  }

  ghost predicate Law(s: Ctl, lim: Limits, a: Action, t: Ctl) {
    match a
    case Submit(graph, id, requests) => SubmitLaw(s, graph, id, requests, t)
    case DrainNow => Settled(s, lim, t)
    case Cancel(graph) => CancelLaw(s, lim, graph, t)
    case GiveUp(id) => GiveUpLaw(s, lim, id, t)
    case Return(p) => ReturnLaw(s, lim, p, t)
  }

  lemma {:induction false} ReturnIsLawful(s: Ctl, lim: Limits, p: Permit)
    requires Ok(s, lim)
    ensures Numbered(s) && ReturnLaw(s, lim, p, Release(s, lim, p))
  {
    MidMeans(s, lim, []);
    if p in s.out {
      ReturnKeepsOk(s, lim, p);
      hide Mid, Drain;
      var b := s.(out := s.out - {p});
      DrainSettles(b, lim);
      assert Handed(b, Drain(b, lim));
      assert !NewlyHeld(b, Drain(b, lim), p);
      hide Settled;
    }
  }

  lemma {:induction false} CancelledFutures(futures: map<Id, Future>, queue: seq<Waiter>, id: Id)
    requires forall i | 0 <= i < |queue| :: queue[i].id in futures
    ensures CancelAll(futures, queue).Keys == futures.Keys
    ensures id in futures ==>
              (if exists i :: 0 <= i < |queue| && queue[i].id == id then CancelAll(futures, queue)[id] == GraphCancelled
               else CancelAll(futures, queue)[id] == futures[id])
    decreases |queue|
  {
    if queue != [] {
      var fs := futures[queue[0].id := GraphCancelled];
      assert fs.Keys == futures.Keys;
      CancelledFutures(fs, queue[1..], id);
      if i :| 0 <= i < |queue| && queue[i].id == id {
        if i > 0 { assert queue[1..][i - 1].id == id; }
      } else {
        assert queue[0].id != id;
        assert forall i | 0 <= i < |queue[1..]| :: queue[1..][i] == queue[1 + i];
      }
    }
  }

  /** The open batches of a graph are exactly those in its queue. */
  lemma {:induction false} OpenIffQueued(s: Ctl, lim: Limits, graph: Id, id: Id)
    requires Ok(s, lim) && id in s.futures
    ensures id in s.asked
    ensures s.futures[id] == Open && s.asked[id].graph == graph <==> IsQueued(s, graph, id)
  {
    if IsQueued(s, graph, id) {
      assert QueueOk(s, graph);
      var i :| 0 <= i < |s.queues[graph]| && s.queues[graph][i].id == id;
      assert WaiterOk(s, graph, s.queues[graph][i]);
    }
  }

  lemma {:induction false} WokenFutures(s: Ctl, lim: Limits, graph: Id)
    requires Ok(s, lim)
    ensures CancelQueue(s, graph).futures == Woken(s, graph)
  {
    var woken := Woken(s, graph);
    var fs := CancelQueue(s, graph).futures;
    if graph in s.queues {
      assert QueueOk(s, graph);
      forall i | 0 <= i < |s.queues[graph]| ensures s.queues[graph][i].id in s.futures { assert WaiterOk(s, graph, s.queues[graph][i]); }
      hide QueueOk, WaiterOk, Mid;
      CancelledFutures(s.futures, s.queues[graph], 0);
    }
    hide Mid;
    forall id | id in s.futures ensures id in fs && fs[id] == woken[id] {
      OpenIffQueued(s, lim, graph, id);
      if graph in s.queues { CancelledFutures(s.futures, s.queues[graph], id); }
    }
    assert fs.Keys == s.futures.Keys;
  }

  lemma {:induction false} CancelIsLawful(s: Ctl, lim: Limits, graph: Id)
    requires Ok(s, lim)
    ensures Numbered(s) && CancelLaw(s, lim, graph, CancelWaiters(s, lim, graph))
  {
    MidMeans(s, lim, []);
    hide Mid, Drain, CancelQueue, Settled, Woken;
    CancelKeepsOk(s, lim, graph);
    WokenFutures(s, lim, graph);
    CancelledTerms(s, graph);
    var b := CancelQueue(s, graph);
    MidMeans(b, lim, []);
    var t := Drain(b, lim);
    DrainSettles(b, lim);
    DrainKeepsOk(b, lim);
    RingIsQueues(t, lim, graph);
    QueuesShrink(b, lim, t);
    SameTerms(b, s.(queues := s.queues - {graph}, futures := b.futures), lim, t);
  }

  lemma {:induction false} CancelledTerms(s: Ctl, graph: Id)
    ensures var b := CancelQueue(s, graph);
            b.queues == s.queues - {graph} && b.out == s.out && b.serial == s.serial && b.asked == s.asked
  {
  }

  lemma {:induction false} QueuesShrink(b: Ctl, lim: Limits, t: Ctl)
    requires Settled(b, lim, t)
    ensures t.queues.Keys <= b.queues.Keys && t.futures.Keys == b.futures.Keys
    ensures forall id | id in b.futures && b.futures[id] != Open :: t.futures[id] == b.futures[id]
  {
    hide Offered, OnlyNewHeadsLeft, Handed;
  }

  lemma {:induction false} RingIsQueues(t: Ctl, lim: Limits, graph: Id)
    requires Ok(t, lim)
    ensures graph in t.ring <==> graph in t.queues
  {
  }

  /** The law looks at queues, permits, futures, numbers and requests only. */
  lemma {:induction false} SameTerms(b: Ctl, c: Ctl, lim: Limits, t: Ctl)
    requires Settled(b, lim, t)
    requires b.queues == c.queues && b.out == c.out && b.futures == c.futures && b.serial == c.serial && b.asked == c.asked
    ensures Settled(c, lim, t)
  {
    hide Offered, OnlyNewHeadsLeft, InTurn;
    forall p ensures NewlyHeld(b, t, p) <==> NewlyHeld(c, t, p) {}
  }

  lemma {:induction false} OthersSkipOne(queue: seq<Waiter>, id: Id, i: nat)
    requires i < |queue| && queue[i].id == id
    requires forall j | 0 <= j < |queue| && j != i :: queue[j].id != id
    ensures Others(queue, id) == queue[..i] + queue[i + 1..]
  {
    if i == 0 {
      OthersAll(queue[1..], id);
      assert queue[..0] + queue[1..] == queue[1..];
    } else {
      OthersSkipOne(queue[1..], id, i - 1);
      assert [queue[0]] + (queue[1..][..i - 1] + queue[1..][i..]) == queue[..i] + queue[i + 1..];
    }
  }

  lemma {:induction false} OthersAll(queue: seq<Waiter>, id: Id)
    requires forall j | 0 <= j < |queue| :: queue[j].id != id
    ensures Others(queue, id) == queue
  {
    if queue != [] { OthersAll(queue[1..], id); }
  }

  /** A waiting batch is in one place of one queue. */
  lemma {:induction false} OnePlace(s: Ctl, lim: Limits, id: Id)
    requires Ok(s, lim) && id in s.futures && s.futures[id] == Open
    ensures id in s.asked && s.asked[id].graph in s.queues
    ensures var graph := s.asked[id].graph; var i := IndexOf(s.queues[graph], id);
            && i < |s.queues[graph]| && s.queues[graph][i].granted == []
            && (forall j | 0 <= j < |s.queues[graph]| && j != i :: s.queues[graph][j].id != id)
    ensures forall g | g in s.queues && g != s.asked[id].graph :: forall j | 0 <= j < |s.queues[g]| :: s.queues[g][j].id != id
  {
    var graph := s.asked[id].graph;
    assert IsQueued(s, graph, id);
    assert QueueOk(s, graph);
    HeadHoldsNothing(s, lim, graph);
    hide QueueOk, Mid, WaiterOk;
    forall g, j | g in s.queues && g != graph && 0 <= j < |s.queues[g]| ensures s.queues[g][j].id != id {
      OpenIffQueued(s, lim, g, id);
      assert !IsQueued(s, g, id);
    }
    var i := IndexOf(s.queues[graph], id);
    forall j | 0 <= j < |s.queues[graph]| && j != i ensures s.queues[graph][j].id != id {
      DistinctIds(s, lim, graph, i, j);
    }
  }

  lemma {:induction false} DistinctIds(s: Ctl, lim: Limits, graph: Id, i: nat, j: nat)
    requires Ok(s, lim) && graph in s.queues && i < |s.queues[graph]| && j < |s.queues[graph]| && i != j
    ensures s.queues[graph][i].id != s.queues[graph][j].id
  {
    assert QueueOk(s, graph);
  }

  lemma {:induction false} ClosedQueues(s: Ctl, lim: Limits, id: Id)
    requires Ok(s, lim) && id in s.futures && s.futures[id] == Open && id in s.asked && s.asked[id].graph in s.queues
    requires IndexOf(s.queues[s.asked[id].graph], id) < |s.queues[s.asked[id].graph]|
    ensures Close(s, s.asked[id].graph, IndexOf(s.queues[s.asked[id].graph], id), Withdrawn).queues == Remaining(s.queues, id)
  {
    hide Mid, Others;
    OnePlace(s, lim, id);
    var graph := s.asked[id].graph;
    var i := IndexOf(s.queues[graph], id);
    OthersSkipOne(s.queues[graph], id, i);
    forall g | g in s.queues && g != graph ensures Others(s.queues[g], id) == s.queues[g] && s.queues[g] != [] {
      OthersAll(s.queues[g], id);
      HeadHoldsNothing(s, lim, g);
    }
    hide IndexOf;
  }

  lemma {:induction false} GiveUpIsLawful(s: Ctl, lim: Limits, id: Id)
    requires Ok(s, lim) && id in s.futures && id in s.asked
    ensures Numbered(s) && GiveUpLaw(s, lim, id, Withdraw(s, lim, s.asked[id].graph, id))
  {
    MidMeans(s, lim, []);
    if s.futures[id] == Open {
      OnePlace(s, lim, id);
      var graph := s.asked[id].graph;
      var i := IndexOf(s.queues[graph], id);
      ClosedQueues(s, lim, id);
      CloseKeepsMid(s, lim, graph, i, Withdrawn, []);
      var b := Close(s, graph, i, Withdrawn);
      WithdrawnTerms(s, graph, i);
      hide Mid, Drain, Close, Settled, Remaining;
      DrainSettles(b, lim);
      var t := Drain(b, lim);
      QueuesShrink(b, lim, t);
      SameTerms(b, s.(queues := b.queues, futures := b.futures), lim, t);
    }
  }

  lemma {:induction false} WithdrawnTerms(s: Ctl, graph: Id, i: nat)
    requires graph in s.queues && i < |s.queues[graph]|
    ensures var b := Close(s, graph, i, Withdrawn);
            && b.out == s.out && b.serial == s.serial && b.asked == s.asked
            && b.futures == s.futures[s.queues[graph][i].id := Withdrawn]
  {
  }

  lemma {:induction false} SubmitIsLawful(s: Ctl, lim: Limits, graph: Id, id: Id, requests: seq<Request>)
    requires Ok(s, lim)
    ensures SubmitLaw(s, graph, id, requests, Enqueue(s, graph, id, requests))
  {
    hide Mid;
  }

  lemma {:induction false} OperationIsLawful(s: Ctl, lim: Limits, a: Action)
    requires Ok(s, lim) && Numbered(s) && Enabled(s, a)
    ensures Law(s, lim, a, Apply(s, lim, a))
  {
    hide Mid, SubmitLaw, Settled, CancelLaw, GiveUpLaw, ReturnLaw, Drain;
    match a
    case Submit(graph, id, requests) => SubmitIsLawful(s, lim, graph, id, requests);
    case DrainNow => DrainSettles(s, lim);
    case Cancel(graph) => CancelIsLawful(s, lim, graph);
    case GiveUp(id) => GiveUpIsLawful(s, lim, id);
    case Return(p) => ReturnIsLawful(s, lim, p);
  }

  // ---------- over runs ----------

  ghost predicate StepBy(states: seq<Ctl>, actions: seq<Action>, lim: Limits, k: nat)
    requires |states| == |actions| + 1 && k < |actions|
  {
    Numbered(states[k]) && Enabled(states[k], actions[k]) && states[k + 1] == Apply(states[k], lim, actions[k])
  }

  /** A run with the operations that made it. */
  ghost predicate RunBy(states: seq<Ctl>, actions: seq<Action>, lim: Limits) {
    && |states| == |actions| + 1 && states[0] == Empty
    && (forall k | 0 <= k < |actions| :: StepBy(states, actions, lim, k))
  }

  lemma {:induction false} RunByIsRun(states: seq<Ctl>, actions: seq<Action>, lim: Limits)
    requires RunBy(states, actions, lim)
    ensures Run(states, lim)
  {
    forall i | 0 <= i < |states| - 1 ensures Step(states[i], lim, states[i + 1]) { assert StepBy(states, actions, lim, i); }
  }

  /** Every operation of every run leaves what its law says. */
  lemma {:induction false} RunIsLawful(states: seq<Ctl>, actions: seq<Action>, lim: Limits, k: nat)
    requires RunBy(states, actions, lim) && k < |actions|
    ensures Ok(states[k], lim) && Law(states[k], lim, actions[k], states[k + 1])
  {
    hide Law, Mid, Apply, Recorded;
    RunByIsRun(states, actions, lim);
    RunKeepsOk(states, lim, k);
    assert StepBy(states, actions, lim, k);
    OperationIsLawful(states[k], lim, actions[k]);
  }

  /** No slot given back is kept from a batch that it fits: some batch that was open is resolved with a permit. */
  lemma {:induction false} ReturnedSlotIsOffered(states: seq<Ctl>, actions: seq<Action>, lim: Limits, k: nat, p: Permit, graph: Id)
    requires RunBy(states, actions, lim) && k < |actions| && actions[k] == Action.Return(p) && p in states[k].out
    requires HeadFits(states[k].queues, lim, states[k].out - {p}, graph)
    ensures p !in states[k + 1].out
    ensures exists id :: IsOpen(states[k].futures, id) && IsServed(states[k + 1].futures, id)
  {
    RunIsLawful(states, actions, lim, k);
    hide HeadFits, OnlyNewHeadsLeft, InTurn, Handed;
    RunByIsRun(states, actions, lim);
    CapacityOverRuns(states, lim, k);
    assert |states[k].out - {p}| < lim.globalLimit;
  }

  /** What one operation does to the future of a batch submitted before it. */
  lemma {:induction false} FutureStep(s: Ctl, lim: Limits, a: Action, t: Ctl, id: Id)
    requires Ok(s, lim) && Enabled(s, a) && Law(s, lim, a, t) && id in s.futures
    ensures id in t.futures && id in s.asked && id in t.asked && t.asked[id] == s.asked[id]
    ensures s.futures[id] != Open ==> t.futures[id] == s.futures[id]
    ensures s.futures[id] == Open ==> (t.futures[id] == GraphCancelled <==> a == Cancel(s.asked[id].graph))
    ensures s.futures[id] == Open ==> (t.futures[id] == Withdrawn <==> a == Action.GiveUp(id))
  {
    hide Mid, Offered, OnlyNewHeadsLeft, Handed, Remaining;
    OpenIffQueued(s, lim, 0, id);
  }

  predicate CancelledAt(states: seq<Ctl>, actions: seq<Action>, id: Id, k: nat)
    requires |states| == |actions| + 1 && k < |actions|
  {
    IsOpen(states[k].futures, id) && id in states[k].asked && actions[k] == Cancel(states[k].asked[id].graph)
  }

  predicate GivenUpAt(states: seq<Ctl>, actions: seq<Action>, id: Id, k: nat)
    requires |states| == |actions| + 1 && k < |actions|
  {
    IsOpen(states[k].futures, id) && actions[k] == Action.GiveUp(id)
  }

  /** A decision is kept for good, and a batch is cancelled or withdrawn only by the call that says so. */
  lemma {:induction false} OutcomesHaveTheirCause(states: seq<Ctl>, actions: seq<Action>, lim: Limits, n: nat, id: Id)
    requires RunBy(states, actions, lim) && n < |states| && id in states[n].futures
    ensures states[n].futures[id] == GraphCancelled <==> exists k :: 0 <= k < n && CancelledAt(states, actions, id, k)
    ensures states[n].futures[id] == Withdrawn <==> exists k :: 0 <= k < n && GivenUpAt(states, actions, id, k)
    ensures n + 1 < |states| ==> id in states[n + 1].futures && (states[n].futures[id] != Open ==> states[n + 1].futures[id] == states[n].futures[id])
    decreases n
  {
    hide Law, Mid, Apply, StepBy;
    if n + 1 < |states| {
      RunIsLawful(states, actions, lim, n);
      EnabledAt(states, actions, lim, n);
      FutureStep(states[n], lim, actions[n], states[n + 1], id);
    }
    if n == 0 {
      NothingAtFirst(states, actions, lim);
    } else {
      RunIsLawful(states, actions, lim, n - 1);
      EnabledAt(states, actions, lim, n - 1);
      if id in states[n - 1].futures {
        OutcomesHaveTheirCause(states, actions, lim, n - 1, id);
        FutureStep(states[n - 1], lim, actions[n - 1], states[n], id);
        assert states[n - 1].futures[id] == Open ==>
                 && (states[n].futures[id] == GraphCancelled <==> CancelledAt(states, actions, id, n - 1))
                 && (states[n].futures[id] == Withdrawn <==> GivenUpAt(states, actions, id, n - 1));
      } else {
        SubmittedOpen(states[n - 1], lim, actions[n - 1], states[n], id);
        NotYet(states, actions, lim, n - 1, id);
      }
    }
  }

  lemma {:induction false} EnabledAt(states: seq<Ctl>, actions: seq<Action>, lim: Limits, k: nat)
    requires RunBy(states, actions, lim) && k < |actions|
    ensures Enabled(states[k], actions[k])
  {
    assert StepBy(states, actions, lim, k);
  }

  lemma {:induction false} NothingAtFirst(states: seq<Ctl>, actions: seq<Action>, lim: Limits)
    requires RunBy(states, actions, lim)
    ensures states[0].futures == map[]
  {
  }

  lemma {:induction false} SubmittedOpen(s: Ctl, lim: Limits, a: Action, t: Ctl, id: Id)
    requires Ok(s, lim) && Enabled(s, a) && Law(s, lim, a, t) && id !in s.futures && id in t.futures
    ensures t.futures[id] == Open
  {
    hide Mid, Offered, OnlyNewHeadsLeft, Handed, Remaining;
  }

  /** A batch not there yet was not there before. */
  lemma {:induction false} NotYet(states: seq<Ctl>, actions: seq<Action>, lim: Limits, n: nat, id: Id)
    requires RunBy(states, actions, lim) && n < |states| && id !in states[n].futures
    ensures forall k | 0 <= k <= n :: id !in states[k].futures
    decreases n
  {
    hide Law, Mid, Apply, StepBy;
    if n > 0 {
      RunIsLawful(states, actions, lim, n - 1);
      EnabledAt(states, actions, lim, n - 1);
      if id in states[n - 1].futures { FutureStep(states[n - 1], lim, actions[n - 1], states[n], id); }
      NotYet(states, actions, lim, n - 1, id);
    }
  }
}
