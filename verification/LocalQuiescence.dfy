/**
 Exactly when the local controller's drain is work-conserving: with at most one batch of
 each graph waiting it always is, and with two of one graph there are limits under which it is not.
 */
module LocalQuiescence {
  import opened Ordering
  import opened LocalAdmission
  import opened LocalSafety
  import opened LocalFairness

  // ---------- every batch was asked for something ----------

  predicate AskedNonEmpty(s: Ctl) {
    forall id | id in s.asked :: s.asked[id].requests != []
  }

  lemma {:induction false} ScanKeepsAsked(s: Ctl, lim: Limits, n: nat)
    ensures Scan(s, lim, n).0.asked == s.asked
    decreases n
  {
    if n > 0 && s.ring != [] {
      if !HasQueue(s, s.ring[0]) {
        ScanKeepsAsked(s.(ring := s.ring[1..], trace := s.trace + [Left(s.ring[0])]), lim, n - 1);
      } else if !Admits(s, lim) {
        ScanKeepsAsked(ExamineFront(s, lim), lim, n - 1);
      }
    }
  }

  lemma {:induction false} GrantsKeepAsked(s: Ctl, lim: Limits, served: seq<Id>)
    requires Numbered(s)
    ensures Grants(s, lim, served).0.asked == s.asked
    decreases lim.globalLimit - |s.out|
  {
    if |s.out| < lim.globalLimit && s.ring != [] {
      ScanRaises(s, lim, |s.ring|);
      ScanKeepsAsked(s, lim, |s.ring|);
      var (t, found) := Scan(s, lim, |s.ring|);
      hide Scan;
      if found.Some? { GrantsKeepAsked(t, lim, Noted(served, found.value)); }
    }
  }

  lemma {:induction false} ResolveKeepsAsked(s: Ctl, served: seq<Id>)
    ensures ResolveAll(s, served).asked == s.asked
    decreases |served|
  {
    if served != [] {
      if HasQueue(s, served[0]) { ResolveKeepsAsked(ResolveHead(s, served[0]), served[1..]); }
      else { ResolveKeepsAsked(s, served[1..]); }
    }
  }

  lemma {:induction false} DrainKeepsAsked(s: Ctl, lim: Limits)
    requires Numbered(s)
    ensures Drain(s, lim).asked == s.asked
  {
    GrantsKeepAsked(s, lim, []);
    ResolveKeepsAsked(Grants(s, lim, []).0, Grants(s, lim, []).1);
  }

  lemma {:induction false} StepKeepsAsked(s: Ctl, lim: Limits, a: Action)
    requires Numbered(s) && Enabled(s, a) && AskedNonEmpty(s)
    ensures AskedNonEmpty(Apply(s, lim, a))
  {
    match a
    case Submit(_, _, _) =>
    case DrainNow => DrainKeepsAsked(s, lim);
    case Cancel(graph) => DrainKeepsAsked(CancelQueue(s, graph), lim);
    case GiveUp(id) =>
      var graph := s.asked[id].graph;
      if graph in s.queues && IndexOf(s.queues[graph], id) < |s.queues[graph]| {
        DrainKeepsAsked(Close(s, graph, IndexOf(s.queues[graph], id), Withdrawn), lim);
      } else {
        DrainKeepsAsked(s.(futures := s.futures[id := Withdrawn]), lim);
      }
    case Return(p) => DrainKeepsAsked(s.(out := s.out - {p}), lim);
  }

  lemma {:induction false} RunKeepsAsked(states: seq<Ctl>, lim: Limits, i: nat)
    requires Run(states, lim) && i < |states|
    ensures AskedNonEmpty(states[i])
  {
    if i > 0 {
      RunKeepsAsked(states, lim, i - 1);
      assert Step(states[i - 1], lim, states[i - 1 + 1]);
      var a :| Enabled(states[i - 1], a) && states[i] == Apply(states[i - 1], lim, a);
      StepKeepsAsked(states[i - 1], lim, a);
    }
  }

  // ---------- the requests a grant loop can still serve ----------

  /** The requests waiting in the head batches of the listed graphs. */
  function Load(queues: map<Id, seq<Waiter>>, ring: seq<Id>): nat {
    if ring == [] then 0
    else (if ring[0] in queues && queues[ring[0]] != [] then |queues[ring[0]][0].remaining| else 0) + Load(queues, ring[1..])
  }

  lemma {:induction false} LoadAppend(queues: map<Id, seq<Waiter>>, ring: seq<Id>, graph: Id)
    ensures Load(queues, ring + [graph]) == Load(queues, ring) + Load(queues, [graph])
  {
    if ring != [] {
      LoadAppend(queues, ring[1..], graph);
      assert (ring + [graph])[1..] == ring[1..] + [graph];
    } else {
      assert ring + [graph] == [graph];
    }
  }

  lemma {:induction false} LoadElsewhere(queues: map<Id, seq<Waiter>>, ring: seq<Id>, graph: Id, queue: seq<Waiter>)
    requires graph !in ring
    ensures Load(queues[graph := queue], ring) == Load(queues, ring)
  {
    if ring != [] { LoadElsewhere(queues, ring[1..], graph, queue); }
  }

  /** A grant moves one request of the load to the permits out. */
  lemma {:induction false} ExamineMovesLoad(s: Ctl, lim: Limits)
    requires DistinctRing(s.ring) && Numbered(s) && s.ring != [] && HasQueue(s, s.ring[0])
    ensures var t := ExamineFront(s, lim); |t.out| + Load(t.queues, t.ring) == |s.out| + Load(s.queues, s.ring)
  {
    var t := ExamineFront(s, lim);
    var graph := s.ring[0];
    assert graph !in s.ring[1..];
    LoadAppend(t.queues, s.ring[1..], graph);
    if Admits(s, lim) {
      LoadElsewhere(s.queues, s.ring[1..], graph, t.queues[graph]);
      assert t.queues == s.queues[graph := t.queues[graph]];
      assert forall p | p in s.out :: p.serial != s.serial;
    }
    assert [graph][1..] == [];
  }

  lemma {:induction false} ScanMovesLoad(s: Ctl, lim: Limits, n: nat, served: seq<Id>)
    requires Mid(s, lim, served) && |s.out| < lim.globalLimit
    ensures var t := Scan(s, lim, n).0; |t.out| + Load(t.queues, t.ring) == |s.out| + Load(s.queues, s.ring)
    decreases n
  {
    hide Mid, ExamineFront, Admits, Load;
    if n > 0 && s.ring != [] {
      ExamineKeepsMid(s, lim, served);
      MidMeans(s, lim, served);
      ExamineMovesLoad(s, lim);
      if !Admits(s, lim) {
        BlockedKeepsOut(s, lim);
        ScanMovesLoad(ExamineFront(s, lim), lim, n - 1, served);
      }
    }
  }

  lemma {:induction false} GrantsMoveLoad(s: Ctl, lim: Limits, served: seq<Id>)
    requires Mid(s, lim, served)
    ensures |Grants(s, lim, served).0.out| <= |s.out| + Load(s.queues, s.ring)
    decreases lim.globalLimit - |s.out|
  {
    if |s.out| < lim.globalLimit && s.ring != [] {
      ScanRaises(s, lim, |s.ring|);
      ScanKeepsMid(s, lim, |s.ring|, served);
      ScanMovesLoad(s, lim, |s.ring|, served);
      var (t, found) := Scan(s, lim, |s.ring|);
      hide Scan, Mid;
      if found.Some? { GrantsMoveLoad(t, lim, Noted(served, found.value)); }
    }
  }

  // ---------- one batch of each graph: the drain conserves work ----------

  predicate OneEach(s: Ctl) {
    forall graph | graph in s.queues :: |s.queues[graph]| == 1
  }

  lemma {:induction false} LoneBatchesDrainQuiet(s: Ctl, lim: Limits)
    requires Ok(s, lim) && OneEach(s)
    ensures Quiet(Drain(s, lim), lim)
  {
    var d := Drain(s, lim);
    forall graph | |d.out| < lim.globalLimit && graph in d.queues && HasQueue(d, graph)
      ensures Blocked(d, lim, graph)
    {
      if !Blocked(d, lim, graph) { DrainQuiescence(s, lim, graph); }
    }
  }

  // ---------- two batches of one graph: ample limits leave the second waiting ----------

  /** Limits that the permits out and every waiting head batch fit together. */
  function Ample(s: Ctl): Limits {
    var n := |s.out| + Load(s.queues, s.ring) + 1;
    Limits(n, n, n, map[])
  }

  lemma {:induction false} PartsAreSmaller(out: set<Permit>, key: Id)
    ensures |OfGraph(out, key)| <= |out| && |OfTool(out, key)| <= |out|
  {
    assert out == OfGraph(out, key) + (out - OfGraph(out, key));
    assert out == OfTool(out, key) + (out - OfTool(out, key));
  }

  lemma {:induction false} AmpleIsOk(s: Ctl, lim: Limits)
    requires Ok(s, lim)
    ensures Ok(s, Ample(s))
  {
    hide OfGraph, OfTool, RingOk, FuturesOk, QueueOk, Held;
    forall key ensures |OfGraph(s.out, key)| <= |s.out| && |OfTool(s.out, key)| <= |s.out| { PartsAreSmaller(s.out, key); }
  }

  /** Below ample limits nothing but an empty batch is blocked. */
  lemma {:induction false} AmpleBlocksNone(s: Ctl, lim: Limits, n: nat, graph: Id)
    requires lim == Limits(n, n, n, map[]) && |s.out| < n
    requires HasQueue(s, graph) && Blocked(s, lim, graph)
    ensures s.queues[graph][0].remaining == []
  {
    PartsAreSmaller(s.out, graph);
    if s.queues[graph][0].remaining != [] {
      var r := s.queues[graph][0].remaining[0];
      assert r in s.queues[graph][0].remaining;
      PartsAreSmaller(s.out, r.tool);
    }
  }

  lemma {:induction false} NoneGranted(requests: seq<Request>, remaining: seq<Request>, granted: seq<Permit>)
    requires SplitsWell(requests, remaining, granted) && requests != []
    ensures remaining != [] || granted != []
  {
    assert |multiset(requests)| == |requests|;
    assert |multiset(remaining)| == |remaining|;
    assert |multiset(Requests(granted))| == |granted|;
  }

  lemma {:induction false} HeadIsServed(t: Ctl, lim: Limits, served: seq<Id>, graph: Id)
    requires Mid(t, lim, served) && AskedNonEmpty(t) && HasQueue(t, graph)
    requires t.queues[graph][0].remaining == []
    ensures graph in served
  {
    assert QueueOk(t, graph);
    var w := t.queues[graph][0];
    assert WaiterOk(t, graph, w);
    NoneGranted(t.asked[w.id].requests, w.remaining, w.granted);
  }

  lemma {:induction false} SecondIsWaiting(t: Ctl, lim: Limits, served: seq<Id>, graph: Id)
    requires Mid(t, lim, served) && AskedNonEmpty(t) && graph in t.queues && |t.queues[graph]| > 1
    ensures t.queues[graph][1].remaining != []
  {
    assert QueueOk(t, graph);
    var w := t.queues[graph][1];
    assert WaiterOk(t, graph, w);
    NoneGranted(t.asked[w.id].requests, w.remaining, w.granted);
  }

  lemma {:induction false} SecondBatchIsLeft(s: Ctl, lim: Limits, graph: Id)
    requires Ok(s, lim) && AskedNonEmpty(s) && graph in s.queues && |s.queues[graph]| > 1
    ensures Ok(s, Ample(s)) && !Quiet(Drain(s, Ample(s)), Ample(s))
  {
    hide Grants, ResolveAll, Mid, AskedNonEmpty, Load, Blocked, Quiet, SameHeads;
    AmpleIsOk(s, lim);
    var ample := Ample(s);
    MidMeans(s, ample, []);
    var (t, served) := Grants(s, ample, []);
    AmpleGrants(s, lim, graph);
    HeadIsServed(t, ample, served, graph);
    SecondIsWaiting(t, ample, served, graph);
    ServedHaveQueues(t, ample, served);
    ResolvePopsServed(t, served, graph);
    var d := ResolveAll(t, served);
    assert d == Drain(s, ample);
    assert d.queues[graph][0] == t.queues[graph][1];
    if Quiet(d, ample) {
      QuietBlocks(d, d, ample, graph);
      AmpleBlocksNone(d, ample, ample.globalLimit, graph);
    }
  }

  /** Below ample limits the grant loop serves every head batch completely. */
  lemma {:induction false} AmpleGrants(s: Ctl, lim: Limits, graph: Id)
    requires Ok(s, lim) && AskedNonEmpty(s) && graph in s.queues && |s.queues[graph]| > 1
    ensures Ok(s, Ample(s))
    ensures var (t, served) := Grants(s, Ample(s), []);
            && Mid(t, Ample(s), served) && AskedNonEmpty(t) && |t.out| < Ample(s).globalLimit
            && HasQueue(t, graph) && |t.queues[graph]| > 1 && t.queues[graph][0].remaining == []
  {
    hide Grants, Mid, Load, Blocked, Quiet;
    AmpleIsOk(s, lim);
    var ample := Ample(s);
    MidMeans(s, ample, []);
    var t := Grants(s, ample, []).0;
    GrantsKeepsMid(s, ample, []);
    GrantsEndQuiet(s, ample, []);
    GrantsMoveLoad(s, ample, []);
    GrantsKeepAsked(s, ample, []);
    assert graph in t.queues && |t.queues[graph]| == |s.queues[graph]|;
    QuietBlocks(t, t, ample, graph);
    AmpleBlocksNone(t, ample, ample.globalLimit, graph);
  }

  /**
   Exactly when the drain conserves work. In a state of any run, a drain leaves no free slot beside a
   batch that fits, whatever the limits that the permits out obey, exactly when no graph has two batches waiting.
   */
  lemma {:induction false} ConservesWorkIff(states: seq<Ctl>, lim: Limits, n: nat)
    requires Run(states, lim) && n < |states|
    ensures Ok(states[n], lim)
    ensures (forall l | Ok(states[n], l) :: Quiet(Drain(states[n], l), l)) <==>
            (forall graph | graph in states[n].queues :: |states[n].queues[graph]| == 1)
  {
    var s := states[n];
    RunKeepsOk(states, lim, n);
    RunKeepsAsked(states, lim, n);
    hide Run, Quiet, Drain;
    if OneEach(s) {
      forall l | Ok(s, l) ensures Quiet(Drain(s, l), l) { LoneBatchesDrainQuiet(s, l); }
    } else {
      var graph :| graph in s.queues && |s.queues[graph]| != 1;
      assert s.queues[graph] != [];
      SecondBatchIsLeft(s, lim, graph);
    }
  }
}
