/**
 Fairness and progress of the local controller: rotation is round-robin across drains, and
 the exact sense in which a drain leaves nothing grantable behind.
 */
module LocalFairness {
  import opened Ordering
  import opened LocalAdmission
  import opened LocalSafety

  // ---------- the ring is what its recorded history says ----------

  function Turn(ring: seq<Id>, e: Event): seq<Id> {
    match e
    case Joined(graph) => ring + [graph]
    case Left(graph) => Without(ring, graph)
    case Examined(graph, _, _, _) => if ring != [] && ring[0] == graph then ring[1..] + [graph] else ring
  }

  function Replay(trace: seq<Event>): seq<Id> {
    if trace == [] then [] else Turn(Replay(trace[..|trace| - 1]), trace[|trace| - 1])
  }

  /** The recorded verdict is the one the limits gave at that moment. */
  predicate Justified(lim: Limits, e: Event) {
    match e
    case Examined(graph, verdict, permitsOut, remaining) =>
      (match verdict
       case GraphFull => !GraphFits(lim, permitsOut, graph)
       case NothingFits => forall r | r in remaining :: !ToolFits(lim, permitsOut, r.tool)
       case Admitted => GraphFits(lim, permitsOut, graph) && exists r :: r in remaining && ToolFits(lim, permitsOut, r.tool))
    case _ => true
  }

  /** Only an absent graph joins, and only the front of the ring is examined. */
  predicate Fits(ring: seq<Id>, e: Event) {
    match e
    case Joined(graph) => graph !in ring
    case Left(_) => true
    case Examined(graph, _, _, _) => ring != [] && ring[0] == graph
  }

  ghost predicate TraceOk(lim: Limits, trace: seq<Event>) {
    forall k | 0 <= k < |trace| :: Fits(Replay(trace[..k]), trace[k]) && Justified(lim, trace[k])
  }

  ghost predicate Recorded(s: Ctl, lim: Limits) {
    && TraceOk(lim, s.trace)
    && Replay(s.trace) == s.ring
  }

  lemma {:induction false} Extend(lim: Limits, trace: seq<Event>, e: Event)
    requires TraceOk(lim, trace) && Justified(lim, e) && Fits(Replay(trace), e)
    ensures TraceOk(lim, trace + [e])
    ensures Replay(trace + [e]) == Turn(Replay(trace), e)
  {
    var longer := trace + [e];
    assert longer[..|trace|] == trace;
    forall k | 0 <= k < |longer| ensures Fits(Replay(longer[..k]), longer[k]) && Justified(lim, longer[k]) {
      if k < |trace| { assert longer[..k] == trace[..k]; }
    }
  }

  lemma {:induction false} ExamineKeepsRecord(s: Ctl, lim: Limits)
    requires Recorded(s, lim) && s.ring != [] && HasQueue(s, s.ring[0])
    ensures Recorded(ExamineFront(s, lim), lim)
    ensures s.trace <= ExamineFront(s, lim).trace
  {
    var t := ExamineFront(s, lim);
    var e := t.trace[|s.trace|];
    assert t.trace == s.trace + [e];
    var remaining := s.queues[s.ring[0]][0].remaining;
    var i := FirstFit(lim, s.out, remaining);
    if Admits(s, lim) { assert remaining[i] in remaining; }
    Extend(lim, s.trace, e);
  }

  lemma {:induction false} ScanKeepsRecord(s: Ctl, lim: Limits, n: nat, served: seq<Id>)
    requires Recorded(s, lim) && Mid(s, lim, served) && |s.out| < lim.globalLimit
    ensures Recorded(Scan(s, lim, n).0, lim)
    ensures s.trace <= Scan(s, lim, n).0.trace
    decreases n
  {
    hide Mid, Recorded, ExamineFront, Admits;
    if n > 0 && s.ring != [] {
      ExamineKeepsMid(s, lim, served);
      ExamineKeepsRecord(s, lim);
      if !Admits(s, lim) {
        BlockedKeepsOut(s, lim);
        ScanKeepsRecord(ExamineFront(s, lim), lim, n - 1, served);
      }
    }
  }

  lemma {:induction false} GrantsKeepRecord(s: Ctl, lim: Limits, served: seq<Id>)
    requires Recorded(s, lim) && Mid(s, lim, served)
    ensures Recorded(Grants(s, lim, served).0, lim)
    ensures s.trace <= Grants(s, lim, served).0.trace
    decreases lim.globalLimit - |s.out|
  {
    if |s.out| < lim.globalLimit && s.ring != [] {
      ScanRaises(s, lim, |s.ring|);
      ScanKeepsRecord(s, lim, |s.ring|, served);
      ScanKeepsMid(s, lim, |s.ring|, served);
      var (t, found) := Scan(s, lim, |s.ring|);
      hide Scan, Mid, Recorded;
      if found.Some? { GrantsKeepRecord(t, lim, Noted(served, found.value)); }
    }
  }

  lemma {:induction false} CloseKeepsRecord(s: Ctl, lim: Limits, graph: Id, i: nat, outcome: Future)
    requires Recorded(s, lim) && graph in s.queues && i < |s.queues[graph]|
    ensures Recorded(Close(s, graph, i, outcome), lim)
    ensures s.trace <= Close(s, graph, i, outcome).trace
  {
    Extend(lim, s.trace, Left(graph));
  }

  lemma {:induction false} ResolveKeepsRecord(s: Ctl, lim: Limits, served: seq<Id>)
    requires Recorded(s, lim)
    ensures Recorded(ResolveAll(s, served), lim)
    ensures s.trace <= ResolveAll(s, served).trace
    decreases |served|
  {
    if served != [] {
      if HasQueue(s, served[0]) {
        CloseKeepsRecord(s, lim, served[0], 0, Resolved(s.queues[served[0]][0].granted));
        hide Recorded, Close;
        ResolveKeepsRecord(ResolveHead(s, served[0]), lim, served[1..]);
      } else {
        ResolveKeepsRecord(s, lim, served[1..]);
      }
    }
  }

  lemma {:induction false} DrainKeepsRecord(s: Ctl, lim: Limits)
    requires Recorded(s, lim) && Ok(s, lim)
    ensures Recorded(Drain(s, lim), lim)
    ensures s.trace <= Drain(s, lim).trace
  {
    GrantsKeepRecord(s, lim, []);
    var (t, served) := Grants(s, lim, []);
    ResolveKeepsRecord(t, lim, served);
  }

  lemma {:induction false} EnqueueKeepsRecord(s: Ctl, lim: Limits, graph: Id, id: Id, requests: seq<Request>)
    requires Recorded(s, lim)
    ensures Recorded(Enqueue(s, graph, id, requests), lim)
    ensures s.trace <= Enqueue(s, graph, id, requests).trace
  {
    if graph !in s.ring { Extend(lim, s.trace, Joined(graph)); }
  }

  lemma {:induction false} CancelKeepsRecord(s: Ctl, lim: Limits, graph: Id)
    requires Recorded(s, lim)
    ensures Recorded(CancelQueue(s, graph), lim)
    ensures s.trace <= CancelQueue(s, graph).trace
  {
    Extend(lim, s.trace, Left(graph));
  }

  lemma {:induction false} WithdrawKeepsRecord(s: Ctl, lim: Limits, id: Id)
    requires Recorded(s, lim) && Ok(s, lim) && id in s.futures
    ensures Recorded(Withdraw(s, lim, s.asked[id].graph, id), lim)
    ensures s.trace <= Withdraw(s, lim, s.asked[id].graph, id).trace
  {
    if s.futures[id] == Open {
      var graph := s.asked[id].graph;
      assert IsQueued(s, graph, id);
      var i := IndexOf(s.queues[graph], id);
      HeadHoldsNothing(s, lim, graph);
      CloseKeepsMid(s, lim, graph, i, Withdrawn, []);
      CloseKeepsRecord(s, lim, graph, i, Withdrawn);
      hide Mid, Recorded, Close;
      DrainKeepsRecord(Close(s, graph, i, Withdrawn), lim);
    }
  }

  lemma {:induction false} StepKeepsRecord(s: Ctl, lim: Limits, a: Action)
    requires Recorded(s, lim) && Ok(s, lim) && Enabled(s, a)
    ensures Recorded(Apply(s, lim, a), lim)
    ensures s.trace <= Apply(s, lim, a).trace
  {
    match a
    case Submit(graph, id, requests) => EnqueueKeepsRecord(s, lim, graph, id, requests);
    case DrainNow => DrainKeepsRecord(s, lim);
    case Cancel(graph) =>
      CancelKeepsRecord(s, lim, graph);
      CancelKeepsOk(s, lim, graph);
      hide Mid, Recorded, CancelQueue;
      DrainKeepsRecord(CancelQueue(s, graph), lim);
    case GiveUp(id) => WithdrawKeepsRecord(s, lim, id);
    case Return(p) =>
      if p in s.out {
        ReturnKeepsOk(s, lim, p);
        DrainKeepsRecord(s.(out := s.out - {p}), lim);
      }
  }

  // ---------- runs ----------

  ghost predicate Step(s: Ctl, lim: Limits, t: Ctl) {
    Numbered(s) && exists a :: Enabled(s, a) && t == Apply(s, lim, a)
  }

  ghost predicate Run(states: seq<Ctl>, lim: Limits) {
    && |states| > 0
    && states[0] == Empty
    && (forall i | 0 <= i < |states| - 1 :: Step(states[i], lim, states[i + 1]))
  }

  lemma {:induction false} EmptyOk(lim: Limits)
    ensures Ok(Empty, lim) && Recorded(Empty, lim)
  {
    forall k ensures OfGraph({}, k) == {} && OfTool({}, k) == {} {}
  }

  /** The controller's invariant over every run. */
  lemma {:induction false} RunKeepsOk(states: seq<Ctl>, lim: Limits, i: nat)
    requires Run(states, lim) && i < |states|
    ensures Ok(states[i], lim) && Recorded(states[i], lim)
  {
    hide Ok, Recorded;
    if i == 0 {
      EmptyOk(lim);
    } else {
      RunKeepsOk(states, lim, i - 1);
      assert Step(states[i - 1], lim, states[i - 1 + 1]);
      var a :| Enabled(states[i - 1], a) && states[i] == Apply(states[i - 1], lim, a);
      StepKeepsOk(states[i - 1], lim, a);
      StepKeepsRecord(states[i - 1], lim, a);
    }
  }

  // ---------- round robin ----------

  /** `other` is in the ring and no `graph` stands before it. */
  predicate Ahead(ring: seq<Id>, other: Id, graph: Id) {
    ring != [] && (ring[0] == other || (ring[0] != graph && Ahead(ring[1..], other, graph)))
  }

  lemma {:induction false} AheadAppend(ring: seq<Id>, x: Id, other: Id, graph: Id)
    requires Ahead(ring, other, graph)
    ensures Ahead(ring + [x], other, graph)
  {
    if ring[0] != other {
      AheadAppend(ring[1..], x, other, graph);
      assert (ring + [x])[1..] == ring[1..] + [x];
    }
  }

  lemma {:induction false} AheadWithout(ring: seq<Id>, x: Id, other: Id, graph: Id)
    requires Ahead(ring, other, graph) && x != other
    ensures Ahead(Without(ring, x), other, graph)
  {
    if ring[0] != other {
      AheadWithout(ring[1..], x, other, graph);
      if ring[0] != x { assert Without(ring, x)[1..] == Without(ring[1..], x); }
    }
  }

  lemma {:induction false} AheadOfLast(ring: seq<Id>, other: Id, graph: Id)
    requires other in ring && graph !in ring
    ensures Ahead(ring, other, graph)
  {
    if ring[0] != other { AheadOfLast(ring[1..], other, graph); }
  }

  /** Between the moments `from` and `until` the graph was neither dropped from the ring nor examined. */
  predicate Untouched(trace: seq<Event>, from: nat, until: nat, other: Id) {
    forall k | from <= k < until && k < |trace| :: trace[k] != Left(other) && !(trace[k].Examined? && trace[k].graph == other)
  }

  lemma {:induction false} StaysAhead(lim: Limits, trace: seq<Event>, from: nat, until: nat, other: Id, graph: Id)
    requires TraceOk(lim, trace) && from <= until <= |trace| && other != graph
    requires Ahead(Replay(trace[..from]), other, graph)
    requires Untouched(trace, from, until, other)
    ensures Ahead(Replay(trace[..until]), other, graph)
    decreases until
  {
    if from < until {
      var k := until - 1;
      StaysAhead(lim, trace, from, k, other, graph);
      var ring := Replay(trace[..k]);
      assert trace[..until][..k] == trace[..k];
      match trace[k]
      case Joined(x) => AheadAppend(ring, x, other, graph);
      case Left(x) => AheadWithout(ring, x, other, graph);
      case Examined(x, _, _, _) =>
        assert ring[0] == x != other && x != graph;
        AheadAppend(ring[1..], x, other, graph);
    }
  }

  predicate ExaminedBetween(trace: seq<Event>, i: nat, j: nat, other: Id) {
    exists k :: i < k < j && k < |trace| && trace[k].Examined? && trace[k].graph == other
  }

  /**
   Round robin across drains: between two examinations of one graph, every other graph that
   was in the ring after the first and stayed in it was examined too, and its verdict then was
   either a grant or a block by its own graph or tool limits.
   */
  lemma {:induction false} RoundRobin(states: seq<Ctl>, lim: Limits, n: nat, i: nat, j: nat, other: Id)
    requires Run(states, lim) && n < |states|
    requires i < j < |states[n].trace|
    requires states[n].trace[i].Examined? && states[n].trace[j].Examined?
    requires states[n].trace[i].graph == states[n].trace[j].graph != other
    requires other in Replay(states[n].trace[..i + 1])
    requires forall k | i < k < j :: states[n].trace[k] != Left(other)
    ensures ExaminedBetween(states[n].trace, i, j, other)
    ensures forall k | i < k < j && states[n].trace[k].Examined? :: Justified(lim, states[n].trace[k])
  {
    RunKeepsOk(states, lim, n);
    var trace := states[n].trace;
    var graph := trace[i].graph;
    var before := Replay(trace[..i]);
    assert trace[..i + 1][..i] == trace[..i];
    RingsAreDistinct(lim, trace, i);
    if !ExaminedBetween(trace, i, j, other) {
      AheadOfLast(before[1..], other, graph);
      AheadAppend(before[1..], graph, other, graph);
      StaysAhead(lim, trace, i + 1, j, other, graph);
      assert false;
    }
  }

  /** A recorded ring never lists a graph twice. */
  lemma {:induction false} RingsAreDistinct(lim: Limits, trace: seq<Event>, n: nat)
    requires TraceOk(lim, trace) && n <= |trace|
    ensures DistinctRing(Replay(trace[..n]))
  {
    if n > 0 {
      RingsAreDistinct(lim, trace, n - 1);
      var ring := Replay(trace[..n - 1]);
      assert trace[..n][..n - 1] == trace[..n - 1];
      assert Fits(ring, trace[n - 1]);
      match trace[n - 1]
      case Joined(_) =>
      case Left(graph) => WithoutRing(ring, graph);
      case Examined(_, _, _, _) => Rotates(ring);
    }
  }

  // ---------- what a drain leaves behind ----------

  /** No remaining request of the graph's head batch fits the graph and tool limits. */
  predicate Blocked(s: Ctl, lim: Limits, graph: Id)
    requires HasQueue(s, graph)
  {
    || !GraphFits(lim, s.out, graph)
    || forall r | r in s.queues[graph][0].remaining :: !ToolFits(lim, s.out, r.tool)
  }

  lemma {:induction false} RefusedIsBlocked(s: Ctl, lim: Limits)
    requires s.ring != [] && HasQueue(s, s.ring[0])
    ensures Admits(s, lim) <==> !Blocked(s, lim, s.ring[0])
  {
    var remaining := s.queues[s.ring[0]][0].remaining;
    var i := FirstFit(lim, s.out, remaining);
    if i < |remaining| { assert remaining[i] in remaining; }
  }

  /** A pass that finds nothing has looked at every graph, and all of them were blocked. */
  lemma {:induction false} FruitlessScan(s: Ctl, lim: Limits, n: nat)
    requires n <= |s.ring|
    requires forall g | g in s.ring :: HasQueue(s, g)
    requires Scan(s, lim, n).1 == None
    ensures forall k | 0 <= k < n :: Blocked(s, lim, s.ring[k])
    decreases n
  {
    if n > 0 {
      assert s.ring[0] in s.ring;
      RefusedIsBlocked(s, lim);
      var t := ExamineFront(s, lim);
      assert t == s.(ring := t.ring, trace := t.trace);
      assert forall g | g in t.ring :: g in s.ring;
      FruitlessScan(t, lim, n - 1);
      forall k | 0 <= k < n ensures Blocked(s, lim, s.ring[k]) {
        if k > 0 { assert t.ring[k - 1] == s.ring[k]; assert Blocked(t, lim, t.ring[k - 1]); }
      }
    }
  }

  lemma {:induction false} AllBlockedScan(s: Ctl, lim: Limits, n: nat)
    requires n <= |s.ring|
    requires forall g | g in s.ring :: HasQueue(s, g) && Blocked(s, lim, g)
    ensures Scan(s, lim, n).1 == None
    decreases n
  {
    if n > 0 {
      assert s.ring[0] in s.ring;
      RefusedIsBlocked(s, lim);
      var t := ExamineFront(s, lim);
      assert t == s.(ring := t.ring, trace := t.trace);
      forall g | g in t.ring ensures HasQueue(t, g) && Blocked(t, lim, g) { assert g in s.ring; }
      AllBlockedScan(t, lim, n - 1);
    }
  }

  ghost predicate Quiet(s: Ctl, lim: Limits) {
    |s.out| >= lim.globalLimit || forall g | g in s.queues && HasQueue(s, g) :: Blocked(s, lim, g)
  }

  lemma {:induction false} FruitlessIsQuiet(s: Ctl, lim: Limits)
    requires RingOk(s) && Numbered(s)
    requires Scan(s, lim, |s.ring|).1 == None
    ensures Quiet(s, lim)
    ensures Quiet(Scan(s, lim, |s.ring|).0, lim)
  {
    ScanRaises(s, lim, |s.ring|);
    forall g | g in s.ring ensures HasQueue(s, g) { assert g in s.queues; }
    FruitlessScan(s, lim, |s.ring|);
    forall g | g in s.queues && HasQueue(s, g) ensures Blocked(s, lim, g) {
      assert g in s.ring;
      var k :| 0 <= k < |s.ring| && s.ring[k] == g;
      assert Blocked(s, lim, s.ring[k]);
    }
    var t := Scan(s, lim, |s.ring|).0;
    forall g | g in t.queues && HasQueue(t, g) ensures Blocked(t, lim, g) {
      assert HasQueue(s, g) && Blocked(s, lim, g);
    }
  }

  /** The batches in the queues are the same; only the heads' requests move from waiting to granted. */
  predicate SameHeads(s: Ctl, t: Ctl) {
    && t.queues.Keys == s.queues.Keys
    && t.futures == s.futures
    && t.out >= s.out
    && (forall g | g in s.queues :: |t.queues[g]| == |s.queues[g]|)
    && (forall g | g in s.queues && s.queues[g] != [] :: t.queues[g][0].id == s.queues[g][0].id)
    && (forall g, k | g in s.queues && 1 <= k < |s.queues[g]| :: t.queues[g][k] == s.queues[g][k])
  }

  lemma {:induction false} ExamineKeepsHeads(s: Ctl, lim: Limits)
    requires s.ring != [] && HasQueue(s, s.ring[0])
    ensures SameHeads(s, ExamineFront(s, lim))
  {
  }

  lemma {:induction false} SameHeadsSelf(s: Ctl)
    ensures SameHeads(s, s)
  {
  }

  lemma {:induction false} AdmitsRaise(s: Ctl, lim: Limits)
    requires s.ring != [] && HasQueue(s, s.ring[0]) && !Admits(s, lim)
    ensures ExamineFront(s, lim).out == s.out
  {
  }

  lemma {:induction false} SameHeadsChain(s: Ctl, t: Ctl, u: Ctl)
    requires SameHeads(s, t) && SameHeads(t, u)
    ensures SameHeads(s, u)
  {
  }

  lemma {:induction false} ScanKeepsHeads(s: Ctl, lim: Limits, n: nat, served: seq<Id>)
    requires Mid(s, lim, served) && |s.out| < lim.globalLimit
    ensures SameHeads(s, Scan(s, lim, n).0)
    decreases n
  {
    hide Mid, SameHeads, ExamineFront, Admits;
    SameHeadsSelf(s);
    if n > 0 && s.ring != [] {
      ExamineKeepsMid(s, lim, served);
      ExamineKeepsHeads(s, lim);
      if !Admits(s, lim) {
        AdmitsRaise(s, lim);
        ScanKeepsHeads(ExamineFront(s, lim), lim, n - 1, served);
        SameHeadsChain(s, ExamineFront(s, lim), Scan(ExamineFront(s, lim), lim, n - 1).0);
      }
    }
  }

  /** When the grant loop stops, the head batches of its start have nothing left that fits. */
  lemma {:induction false} GrantsEndQuiet(s: Ctl, lim: Limits, served: seq<Id>)
    requires Mid(s, lim, served)
    ensures Quiet(Grants(s, lim, served).0, lim)
    ensures SameHeads(s, Grants(s, lim, served).0)
    decreases lim.globalLimit - |s.out|
  {
    if |s.out| >= lim.globalLimit {
    } else if s.ring == [] {
      assert forall g | g in s.queues :: g in s.ring;
    } else {
      ScanRaises(s, lim, |s.ring|);
      ScanKeepsMid(s, lim, |s.ring|, served);
      ScanKeepsHeads(s, lim, |s.ring|, served);
      var (t, found) := Scan(s, lim, |s.ring|);
      if found.Some? {
        hide Scan, Mid, Quiet, SameHeads;
        GrantsEndQuiet(t, lim, Noted(served, found.value));
        SameHeadsChain(s, t, Grants(t, lim, Noted(served, found.value)).0);
      } else {
        FruitlessIsQuiet(s, lim);
      }
    }
  }

  /** Resolving takes exactly the served heads out. */
  lemma {:induction false} ResolvePopsServed(s: Ctl, served: seq<Id>, graph: Id)
    requires DistinctRing(served) && (forall g | g in served :: HasQueue(s, g))
    requires HasQueue(s, graph)
    ensures var d := ResolveAll(s, served);
            && d.out == s.out
            && (graph !in served ==> HasQueue(d, graph) && d.queues[graph] == s.queues[graph])
            && (graph in served && |s.queues[graph]| > 1 ==> HasQueue(d, graph) && d.queues[graph] == s.queues[graph][1..])
            && (graph in served && |s.queues[graph]| == 1 ==> !HasQueue(d, graph))
    decreases |served|
  {
    if served != [] {
      var front := served[0];
      var t := ResolveHead(s, front);
      assert s.queues[front][..0] + s.queues[front][1..] == s.queues[front][1..];
      forall g | g in served[1..] ensures HasQueue(t, g) {
        var k :| 0 <= k < |served[1..]| && served[1..][k] == g;
        assert served[0] != served[k + 1] == g;
        assert HasQueue(s, g);
      }
      if HasQueue(t, graph) {
        ResolvePopsServed(t, served[1..], graph);
      } else {
        ResolveAddsNone(t, served[1..], graph);
      }
    }
  }

  lemma {:induction false} ResolveAddsNone(s: Ctl, served: seq<Id>, graph: Id)
    requires !HasQueue(s, graph)
    ensures !HasQueue(ResolveAll(s, served), graph) && ResolveAll(s, served).out == s.out
    decreases |served|
  {
    if served != [] {
      if HasQueue(s, served[0]) { ResolveAddsNone(ResolveHead(s, served[0]), served[1..], graph); }
      else { ResolveAddsNone(s, served[1..], graph); }
    }
  }

  /**
   What a drain can leave behind. After a drain, unless every slot is taken, a waiting graph whose
   head batch could still be granted is one that had two batches waiting, whose earlier head the same
   drain has just served, and whose queue lost exactly that head.
   */
  lemma {:induction false} DrainQuiescence(s: Ctl, lim: Limits, graph: Id)
    requires Ok(s, lim)
    requires var d := Drain(s, lim); |d.out| < lim.globalLimit && HasQueue(d, graph) && !Blocked(d, lim, graph)
    ensures HasQueue(s, graph)
    ensures Drain(s, lim).queues[graph][0].id != s.queues[graph][0].id
    ensures s.queues[graph][0].id in Drain(s, lim).futures && Drain(s, lim).futures[s.queues[graph][0].id].Resolved?
    ensures |s.queues[graph]| >= 2 && Drain(s, lim).queues[graph] == s.queues[graph][1..]
  {
    hide Grants, ResolveAll, Mid, SameHeads, Quiet, Blocked;
    MidMeans(s, lim, []);
    var (t, served) := Grants(s, lim, []);
    var d := Drain(s, lim);
    GrantsKeepsMid(s, lim, []);
    GrantsEndQuiet(s, lim, []);
    ServedHaveQueues(t, lim, served);
    if !HasQueue(t, graph) { ResolveAddsNone(t, served, graph); }
    ResolvePopsServed(t, served, graph);
    if graph !in served { QuietBlocks(t, d, lim, graph); }
    SameHeadsMeans(s, t, graph);
    HeadsDiffer(t, lim, served, graph);
    DrainResolves(t, lim, served, graph);
  }

  lemma {:induction false} QuietBlocks(t: Ctl, d: Ctl, lim: Limits, graph: Id)
    requires Quiet(t, lim) && |t.out| < lim.globalLimit && d.out == t.out
    requires HasQueue(t, graph) && HasQueue(d, graph) && d.queues[graph] == t.queues[graph]
    ensures Blocked(d, lim, graph)
  {
    assert Blocked(t, lim, graph);
  }

  lemma {:induction false} SameHeadsMeans(s: Ctl, t: Ctl, graph: Id)
    requires SameHeads(s, t) && HasQueue(t, graph)
    ensures HasQueue(s, graph) && |t.queues[graph]| == |s.queues[graph]|
    ensures t.queues[graph][0].id == s.queues[graph][0].id && t.queues[graph][1..] == s.queues[graph][1..]
  {
  }

  lemma {:induction false} HeadsDiffer(s: Ctl, lim: Limits, served: seq<Id>, graph: Id)
    requires Mid(s, lim, served) && HasQueue(s, graph)
    ensures |s.queues[graph]| > 1 ==> s.queues[graph][1].id != s.queues[graph][0].id
  {
    assert QueueOk(s, graph);
  }

  lemma {:induction false} ServedHaveQueues(s: Ctl, lim: Limits, served: seq<Id>)
    requires Mid(s, lim, served)
    ensures DistinctRing(served) && forall g | g in served :: HasQueue(s, g)
  {
  }

  lemma {:induction false} DrainResolves(s: Ctl, lim: Limits, served: seq<Id>, graph: Id)
    requires Mid(s, lim, served) && graph in served
    ensures HasQueue(s, graph)
    ensures s.queues[graph][0].id in ResolveAll(s, served).futures
    ensures ResolveAll(s, served).futures[s.queues[graph][0].id] == Resolved(s.queues[graph][0].granted)
    decreases |served|
  {
    var front := served[0];
    assert front in served;
    var outcome := Resolved(s.queues[front][0].granted);
    CloseKeepsMid(s, lim, front, 0, outcome, served);
    TailWithout(served);
    var t := ResolveHead(s, front);
    if graph == front {
      ResolvedStays(t, lim, served[1..], s.queues[graph][0].id);
    } else {
      assert graph in served[1..];
      assert t.queues[graph] == s.queues[graph];
      DrainResolves(t, lim, served[1..], graph);
    }
  }

  lemma {:induction false} ResolvedStays(s: Ctl, lim: Limits, served: seq<Id>, id: Id)
    requires Mid(s, lim, served) && id in s.futures && s.futures[id] != Open
    ensures id in ResolveAll(s, served).futures && ResolveAll(s, served).futures[id] == s.futures[id]
    decreases |served|
  {
    hide Mid, Close;
    if served != [] {
      ServedHead(s, lim, served);
      var head := s.queues[served[0]][0];
      var outcome := Resolved(head.granted);
      CloseKeepsMid(s, lim, served[0], 0, outcome, served);
      TailWithout(served);
      CloseTouchesOne(s, served[0], 0, outcome, id);
      ResolvedStays(ResolveHead(s, served[0]), lim, served[1..], id);
    }
  }

  lemma {:induction false} CloseTouchesOne(s: Ctl, graph: Id, i: nat, outcome: Future, id: Id)
    requires graph in s.queues && i < |s.queues[graph]| && id in s.futures && id != s.queues[graph][i].id
    ensures id in Close(s, graph, i, outcome).futures && Close(s, graph, i, outcome).futures[id] == s.futures[id]
  {
  }

  lemma {:induction false} ServedHead(s: Ctl, lim: Limits, served: seq<Id>)
    requires Mid(s, lim, served) && served != []
    ensures HasQueue(s, served[0]) && DistinctRing(served)
    ensures var head := s.queues[served[0]][0];
            head.granted != [] && head.id in s.futures && s.futures[head.id] == Open
  {
    assert served[0] in served;
    assert QueueOk(s, served[0]);
    assert WaiterOk(s, served[0], s.queues[served[0]][0]);
  }

  lemma {:induction false} ResolveKeepsOut(s: Ctl, served: seq<Id>)
    ensures ResolveAll(s, served).out == s.out && ResolveAll(s, served).serial == s.serial
    decreases |served|
  {
    if served != [] {
      if HasQueue(s, served[0]) { ResolveKeepsOut(ResolveHead(s, served[0]), served[1..]); }
      else { ResolveKeepsOut(s, served[1..]); }
    }
  }

  lemma {:induction false} QuietScansNothing(s: Ctl, lim: Limits)
    requires RingOk(s) && Quiet(s, lim) && |s.out| < lim.globalLimit
    ensures Scan(s, lim, |s.ring|).1 == None
  {
    forall g | g in s.ring ensures HasQueue(s, g) && Blocked(s, lim, g) { assert g in s.queues; }
    AllBlockedScan(s, lim, |s.ring|);
  }

  lemma {:induction false} NoRingIsQuiet(s: Ctl, lim: Limits)
    requires RingOk(s) && s.ring == []
    ensures Quiet(s, lim)
  {
    assert forall g | g in s.queues :: g in s.ring;
  }

  lemma {:induction false} FruitfulGrows(s: Ctl, lim: Limits)
    requires Mid(s, lim, []) && |s.out| < lim.globalLimit && s.ring != []
    requires Scan(s, lim, |s.ring|).1.Some?
    ensures Grants(s, lim, []).0.out != s.out
  {
    ScanRaises(s, lim, |s.ring|);
    ScanKeepsMid(s, lim, |s.ring|, []);
    var (u, found) := Scan(s, lim, |s.ring|);
    hide Mid, Scan, Quiet, SameHeads;
    GrantsEndQuiet(u, lim, Noted([], found.value));
    SameHeadsOut(u, Grants(u, lim, Noted([], found.value)).0);
  }

  lemma {:induction false} SameHeadsOut(s: Ctl, t: Ctl)
    requires SameHeads(s, t)
    ensures |t.out| >= |s.out|
  {
    assert t.out == s.out + (t.out - s.out);
  }

  /** A drain grants nothing exactly when every slot is taken or every head batch was blocked before it. */
  lemma {:induction false} IdleDrain(s: Ctl, lim: Limits)
    requires Ok(s, lim)
    ensures Drain(s, lim).out == s.out <==> Quiet(s, lim)
  {
    ResolveKeepsOut(Grants(s, lim, []).0, Grants(s, lim, []).1);
    assert RingOk(s) && Numbered(s);
    hide Mid, RingOk, Scan;
    if s.ring == [] {
      NoRingIsQuiet(s, lim);
    } else if |s.out| < lim.globalLimit {
      ScanRaises(s, lim, |s.ring|);
      if Scan(s, lim, |s.ring|).1 == None {
        FruitlessIsQuiet(s, lim);
      } else {
        FruitfulGrows(s, lim);
        if Quiet(s, lim) { QuietScansNothing(s, lim); }
      }
    }
  }

  /** Three slots, and two batches of graph 1 waiting for one tool each. */
  const THREE_SLOTS := Limits(3, 3, 3, map[])

  function Later(): Waiter {
    Waiter(11, [Request(101, 7)], [])
  }

  function TwoWaiting(): Ctl {
    Ctl(map[1 := [Waiter(10, [Request(100, 7)], []), Later()]], [1], map[10 := Open, 11 := Open],
        map[10 := Batch(1, [Request(100, 7)]), 11 := Batch(1, [Request(101, 7)])], {}, 0, [Joined(1)])
  }

  function FirstPermit(): Permit {
    Permit(0, 10, 1, Request(100, 7))
  }

  /** After the first grant. */
  function OneServed(trace: seq<Event>): Ctl {
    TwoWaiting().(queues := map[1 := [Waiter(10, [], [FirstPermit()]), Later()]], out := {FirstPermit()}, serial := 1, trace := trace)
  }

  lemma {:induction false} BothSubmitted()
    ensures Enqueue(Enqueue(Empty, 1, 10, [Request(100, 7)]), 1, 11, [Request(101, 7)]) == TwoWaiting()
  {
    var one := Enqueue(Empty, 1, 10, [Request(100, 7)]);
    assert one.queues[1] == [Waiter(10, [Request(100, 7)], [])] && one.ring == [1] && one.trace == [Joined(1)];
    assert one.queues[1] + [Later()] == [Waiter(10, [Request(100, 7)], []), Later()];
    var two := Enqueue(one, 1, 11, [Request(101, 7)]);
    assert two.queues == TwoWaiting().queues && two.futures == TwoWaiting().futures && two.asked == TwoWaiting().asked;
  }

  lemma {:induction false} FirstPass() returns (trace: seq<Event>)
    ensures Scan(TwoWaiting(), THREE_SLOTS, 1) == (OneServed(trace), Some(1))
  {
    var s := TwoWaiting();
    assert OfGraph({}, 1) == {} && OfTool({}, 7) == {};
    assert FirstFit(THREE_SLOTS, {}, [Request(100, 7)]) == 0;
    assert [Request(100, 7)][..0] + [Request(100, 7)][1..] == [];
    assert [1][1..] + [1] == [1];
    assert {} + {FirstPermit()} == {FirstPermit()};
    var t := ExamineFront(s, THREE_SLOTS);
    trace := t.trace;
    assert t.queues[1][0] == Waiter(10, [], [FirstPermit()]);
    assert t.queues[1][1] == Later();
    assert t.queues[1] == [Waiter(10, [], [FirstPermit()]), Later()];
    assert t.queues == map[1 := [Waiter(10, [], [FirstPermit()]), Later()]];
  }

  lemma {:induction false} SecondPass(before: seq<Event>) returns (trace: seq<Event>)
    ensures Scan(OneServed(before), THREE_SLOTS, 1) == (OneServed(trace), None)
  {
    var s := OneServed(before);
    assert FirstFit(THREE_SLOTS, s.out, []) == 0;
    assert [1][1..] + [1] == [1];
    var t := ExamineFront(s, THREE_SLOTS);
    trace := t.trace;
    assert Scan(s, THREE_SLOTS, 1) == Scan(t, THREE_SLOTS, 0);
  }

  lemma {:induction false} ThenResolved(trace: seq<Event>)
    ensures var d := ResolveAll(OneServed(trace), [1]);
            && d.out == {FirstPermit()} && d.queues == map[1 := [Later()]]
  {
    var s := OneServed(trace);
    var queue := s.queues[1];
    assert queue[..0] + queue[1..] == [Later()];
    assert [1][1..] == [];
    assert ResolveAll(s, [1]) == ResolveAll(ResolveHead(s, 1), []);
  }

  /**
   The drain is not work-conserving: with three slots and two batches of one graph waiting, it
   serves the first batch and leaves the second waiting beside two free slots.
   */
  lemma {:induction false} DrainCanLeaveSlotsIdle()
    ensures var s := Enqueue(Enqueue(Empty, 1, 10, [Request(100, 7)]), 1, 11, [Request(101, 7)]);
            var d := Drain(s, THREE_SLOTS);
            && |d.out| < THREE_SLOTS.globalLimit
            && HasQueue(d, 1) && d.queues[1][0].id == 11
            && !Blocked(d, THREE_SLOTS, 1)
  {
    hide Scan, ResolveAll, Enqueue;
    BothSubmitted();
    var first := FirstPass();
    var second := SecondPass(first);
    ThenResolved(second);
    var s, t, u := TwoWaiting(), OneServed(first), OneServed(second);
    assert Grants(t, THREE_SLOTS, [1]) == (u, [1]);
    assert Noted([], 1) == [1];
    assert Grants(s, THREE_SLOTS, []) == Grants(t, THREE_SLOTS, [1]);
    var d := Drain(s, THREE_SLOTS);
    assert d == ResolveAll(u, [1]);
    assert OfGraph({FirstPermit()}, 1) <= {FirstPermit()} && OfTool({FirstPermit()}, 7) <= {FirstPermit()};
    SmallSets(FirstPermit());
    assert Request(101, 7) in d.queues[1][0].remaining;
  }

  lemma {:induction false} SmallSets(p: Permit)
    ensures |OfGraph({p}, p.graph)| == 1 && |OfTool({p}, p.request.tool)| == 1
  {
    assert OfGraph({p}, p.graph) == {p} && OfTool({p}, p.request.tool) == {p};
  }

  /** What the callers of one batch learn: a non-empty part of what they asked for, each candidate once. */
  lemma {:induction false} GrantedSubset(states: seq<Ctl>, lim: Limits, n: nat, id: Id)
    requires Run(states, lim) && n < |states|
    requires id in states[n].futures && states[n].futures[id].Resolved?
    ensures var s := states[n];
            var permits := s.futures[id].permits;
            && permits != [] && id in s.asked
            && multiset(Requests(permits)) <= multiset(s.asked[id].requests)
            && (forall p | p in permits :: p.graph == s.asked[id].graph && p.batch == id)
  {
    RunKeepsOk(states, lim, n);
  }

  /** No permit is lost or handed out twice: each permit out is in exactly one caller's result. */
  lemma {:induction false} PermitsAreAccountedFor(states: seq<Ctl>, lim: Limits, n: nat, p: Permit)
    requires Run(states, lim) && n < |states| && p in states[n].out
    ensures var s := states[n];
            && p.batch in s.futures && s.futures[p.batch].Resolved? && p in s.futures[p.batch].permits
            && (forall id | id in s.futures && s.futures[id].Resolved? && p in s.futures[id].permits :: id == p.batch)
  {
    RunKeepsOk(states, lim, n);
    var s := states[n];
    assert Held(s, p);
    if s.futures[p.batch] == Open { HeadHoldsNothing(s, lim, p.graph); }
  }

  /** The three limits hold over every run, and the counts by graph and by tool are those of the permits out. */
  lemma {:induction false} CapacityOverRuns(states: seq<Ctl>, lim: Limits, n: nat)
    requires Run(states, lim) && n < |states|
    ensures |states[n].out| <= lim.globalLimit
    ensures forall graph :: |OfGraph(states[n].out, graph)| <= lim.perGraphLimit
    ensures forall tool :: |OfTool(states[n].out, tool)| <= lim.ToolLimit(tool)
  {
    RunKeepsOk(states, lim, n);
  }
}
