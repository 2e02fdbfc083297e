/**
 The process-local admission controller: per-graph queues of waiting batches, a rotating
 ring of waiting graphs and a drain that grants one request at a time.

 `Ctl` is the controller without its counters: the permits out are a set, and a limit is
 a bound on how many of them share a graph or a tool. `trace` is a record kept for the
 proofs of what happened to the ring, with the situation each examination found.
 */
module LocalAdmission {
  import opened Ordering

  datatype Request = Request(node: Id, tool: Id)

  /** `serial` and `batch` identify the permit object; the program knows it by reference. */
  datatype Permit = Permit(serial: nat, batch: Id, graph: Id, request: Request)

  /** What a caller asked for. */
  datatype Batch = Batch(graph: Id, requests: seq<Request>)

  /** One batch in a queue. `granted` fills up during a drain, which ends by resolving the batch. */
  datatype Waiter = Waiter(id: Id, remaining: seq<Request>, granted: seq<Permit>)

  datatype Future = Open | Resolved(permits: seq<Permit>) | GraphCancelled | Withdrawn

  datatype Limits = Limits(globalLimit: nat, perGraphLimit: nat, defaultToolLimit: nat, toolLimits: map<Id, nat>)
  {
    function ToolLimit(tool: Id): nat {
      if tool in toolLimits then toolLimits[tool] else defaultToolLimit
    }
  }

  datatype Verdict = Admitted | GraphFull | NothingFits

  datatype Event =
    | Joined(graph: Id)
    | Left(graph: Id)
    | Examined(graph: Id, verdict: Verdict, permitsOut: set<Permit>, remaining: seq<Request>)

  datatype Ctl = Ctl(queues: map<Id, seq<Waiter>>, ring: seq<Id>, futures: map<Id, Future>,
                     asked: map<Id, Batch>, out: set<Permit>, serial: nat, trace: seq<Event>)

  const Empty := Ctl(map[], [], map[], map[], {}, 0, [])

  function OfGraph(out: set<Permit>, graph: Id): set<Permit> {
    set p | p in out && p.graph == graph
  }

  function OfTool(out: set<Permit>, tool: Id): set<Permit> {
    set p | p in out && p.request.tool == tool
  }

  predicate ToolFits(lim: Limits, out: set<Permit>, tool: Id) {
    |OfTool(out, tool)| < lim.ToolLimit(tool)
  }

  predicate GraphFits(lim: Limits, out: set<Permit>, graph: Id) {
    |OfGraph(out, graph)| < lim.perGraphLimit
  }

  /** The first request that fits its tool limit; |remaining| when there is none. */
  function FirstFit(lim: Limits, out: set<Permit>, remaining: seq<Request>): (i: nat)
    ensures i <= |remaining|
    ensures i < |remaining| ==> ToolFits(lim, out, remaining[i].tool)
    ensures forall k | 0 <= k < i :: !ToolFits(lim, out, remaining[k].tool)
  {
    if remaining == [] || ToolFits(lim, out, remaining[0].tool) then 0
    else 1 + FirstFit(lim, out, remaining[1..])
  }

  function Without(ring: seq<Id>, graph: Id): (out: seq<Id>)
    ensures forall g :: g in out <==> g in ring && g != graph
    ensures |out| <= |ring|
  {
    if ring == [] then []
    else if ring[0] == graph then Without(ring[1..], graph)
    else [ring[0]] + Without(ring[1..], graph)
  }

  predicate HasQueue(s: Ctl, graph: Id) {
    graph in s.queues && s.queues[graph] != []
  }

  // ---------- the drain ----------

  function Note(s: Ctl, graph: Id, verdict: Verdict): seq<Event>
    requires HasQueue(s, graph)
  {
    s.trace + [Examined(graph, verdict, s.out, s.queues[graph][0].remaining)]
  }

  /** Takes the front graph of the ring to the back and grants it one request if one fits. */
  function ExamineFront(s: Ctl, lim: Limits): Ctl
    requires s.ring != [] && HasQueue(s, s.ring[0])
  {
    var graph := s.ring[0];
    var rotated := s.ring[1..] + [graph];
    var w := s.queues[graph][0];
    if !GraphFits(lim, s.out, graph) then s.(ring := rotated, trace := Note(s, graph, GraphFull))
    else
      var i := FirstFit(lim, s.out, w.remaining);
      if i == |w.remaining| then s.(ring := rotated, trace := Note(s, graph, NothingFits))
      else
        var p := Permit(s.serial, w.id, graph, w.remaining[i]);
        var served := w.(remaining := w.remaining[..i] + w.remaining[i + 1..], granted := w.granted + [p]);
        s.(ring := rotated, trace := Note(s, graph, Admitted), queues := s.queues[graph := s.queues[graph][0 := served]],
           out := s.out + {p}, serial := s.serial + 1)
  }

  predicate Admits(s: Ctl, lim: Limits)
    requires s.ring != [] && HasQueue(s, s.ring[0])
  {
    && GraphFits(lim, s.out, s.ring[0])
    && FirstFit(lim, s.out, s.queues[s.ring[0]][0].remaining) < |s.queues[s.ring[0]][0].remaining|
  }

  /** One pass over at most n graphs, up to and including the first that is granted (if any). */
  function Scan(s: Ctl, lim: Limits, n: nat): (Ctl, Option<Id>)
    decreases n
  {
    if n == 0 || s.ring == [] then (s, None)
    else if !HasQueue(s, s.ring[0]) then
      Scan(s.(ring := s.ring[1..], trace := s.trace + [Left(s.ring[0])]), lim, n - 1)
    else if Admits(s, lim) then (ExamineFront(s, lim), Some(s.ring[0]))
    else Scan(ExamineFront(s, lim), lim, n - 1)
  }

  /** The waiters served so far, in the order of their first grant; a graph stands for its head. */
  function Noted(served: seq<Id>, graph: Id): seq<Id> {
    if graph in served then served else served + [graph]
  }

  predicate Numbered(s: Ctl) {
    forall p | p in s.out :: p.serial < s.serial
  }

  /** A pass that grants raises the number of permits out by one; one that does not changes nothing but the ring. */
  lemma {:induction false} ScanRaises(s: Ctl, lim: Limits, n: nat)
    requires Numbered(s)
    ensures var (t, found) := Scan(s, lim, n);
            && Numbered(t)
            && |t.out| == |s.out| + (if found.Some? then 1 else 0)
            && (found == None ==> t == s.(ring := t.ring, trace := t.trace))
    decreases n
  {
    if n == 0 || s.ring == [] {
    } else if !HasQueue(s, s.ring[0]) {
      ScanRaises(s.(ring := s.ring[1..], trace := s.trace + [Left(s.ring[0])]), lim, n - 1);
    } else if !Admits(s, lim) {
      ScanRaises(ExamineFront(s, lim), lim, n - 1);
    } else {
      assert forall p | p in s.out :: p.serial != s.serial;
    }
  }

  /** Every pass that grants is followed by another, while a slot is free and some graph waits. */
  function Grants(s: Ctl, lim: Limits, served: seq<Id>): (Ctl, seq<Id>)
    requires Numbered(s)
    decreases lim.globalLimit - |s.out|
  {
    if |s.out| >= lim.globalLimit || s.ring == [] then (s, served)
    else
      ScanRaises(s, lim, |s.ring|);
      var (t, found) := Scan(s, lim, |s.ring|);
      if found == None then (t, served) else Grants(t, lim, Noted(served, found.value))
  }

  /** Takes one batch out of its queue and decides its future; a graph whose queue empties leaves the ring. */
  function Close(s: Ctl, graph: Id, i: nat, outcome: Future): Ctl
    requires graph in s.queues && i < |s.queues[graph]|
  {
    var queue := s.queues[graph];
    var rest := queue[..i] + queue[i + 1..];
    var t := s.(futures := s.futures[queue[i].id := outcome]);
    if rest != [] then t.(queues := s.queues[graph := rest])
    else t.(queues := s.queues - {graph}, ring := Without(s.ring, graph), trace := s.trace + [Left(graph)])
  }

  /** The head batch of a served graph is resolved with what it was granted. */
  function ResolveHead(s: Ctl, graph: Id): Ctl
    requires HasQueue(s, graph)
  {
    Close(s, graph, 0, Resolved(s.queues[graph][0].granted))
  }

  function ResolveAll(s: Ctl, served: seq<Id>): Ctl
    decreases |served|
  {
    if served == [] then s
    else if !HasQueue(s, served[0]) then ResolveAll(s, served[1..])
    else ResolveAll(ResolveHead(s, served[0]), served[1..])
  }

  function Drain(s: Ctl, lim: Limits): Ctl
    requires Numbered(s)
  {
    var (t, served) := Grants(s, lim, []);
    ResolveAll(t, served)
  }

  // ---------- the operations, each atomic under the controller's lock ----------

  function Enqueue(s: Ctl, graph: Id, id: Id, requests: seq<Request>): Ctl {
    var w := Waiter(id, requests, []);
    var queue := if graph in s.queues then s.queues[graph] else [];
    var joins := graph !in s.ring;
    s.(queues := s.queues[graph := queue + [w]],
       ring := if joins then s.ring + [graph] else s.ring,
       futures := s.futures[id := Open],
       asked := s.asked[id := Batch(graph, requests)],
       trace := if joins then s.trace + [Joined(graph)] else s.trace)
  }

  function CancelAll(futures: map<Id, Future>, queue: seq<Waiter>): map<Id, Future>
    decreases |queue|
  {
    if queue == [] then futures else CancelAll(futures[queue[0].id := GraphCancelled], queue[1..])
  }

  /** Wakes every waiting batch of a graph; the permits out stay out. */
  function CancelQueue(s: Ctl, graph: Id): Ctl {
    if graph !in s.queues then s
    else s.(queues := s.queues - {graph}, ring := Without(s.ring, graph),
            futures := CancelAll(s.futures, s.queues[graph]), trace := s.trace + [Left(graph)])
  }

  function CancelWaiters(s: Ctl, lim: Limits, graph: Id): Ctl
    requires Numbered(s)
  {
    Drain(CancelQueue(s, graph), lim)
  }

  function IndexOf(queue: seq<Waiter>, id: Id): (i: nat)
    ensures i <= |queue|
    ensures i < |queue| ==> queue[i].id == id
    ensures i == |queue| ==> forall k | 0 <= k < |queue| :: queue[k].id != id
  {
    if queue == [] || queue[0].id == id then 0 else 1 + IndexOf(queue[1..], id)
  }

  /** A caller that stops waiting: a decided batch is left alone, a queued one is taken out. */
  function Withdraw(s: Ctl, lim: Limits, graph: Id, id: Id): Ctl
    requires Numbered(s)
  {
    if id in s.futures && s.futures[id] != Open then s
    else if graph in s.queues && IndexOf(s.queues[graph], id) < |s.queues[graph]| then
      Drain(Close(s, graph, IndexOf(s.queues[graph], id), Withdrawn), lim)
    else Drain(s.(futures := s.futures[id := Withdrawn]), lim)
  }

  /** Releasing is idempotent: a permit that is no longer out is left alone. */
  function Release(s: Ctl, lim: Limits, p: Permit): Ctl
    requires Numbered(s)
  {
    if p !in s.out then s else Drain(s.(out := s.out - {p}), lim)
  }
}
