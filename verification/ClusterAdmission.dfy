/**
 The database-coordinated admission store: durable tickets, capacity accounting and
 least-recently-granted scheduling, as the generic (single scheduler scope) path runs it.

 Every transaction is one atomic step on a `Store` value and reads one clock that never
 goes back. A configuration stands for its digest. `history` is a record kept for the
 proofs: entry k describes the grant that carried sequence k + 1.
 */
module ClusterAdmission {
  import opened Ordering

  datatype Status = Pending | Granted | Released | Cancelled | Withdrawn | Expired

  datatype Ticket = Ticket(batch: Id, graph: Id, node: Id, tool: Id, owner: Id, status: Status,
                           revision: nat, fence: nat, grantSequence: Option<nat>,
                           ttl: nat, createdAt: int, expiresAt: int)

  datatype Request = Request(node: Id, tool: Id)

  datatype Config = Config(globalLimit: nat, perGraphLimit: nat, defaultToolLimit: nat, toolLimits: map<Id, nat>)
  {
    function ToolLimit(tool: Id): nat {
      if tool in toolLimits then toolLimits[tool] else defaultToolLimit
    }
  }

  datatype Grant = Grant(graph: Id, candidates: set<Id>)

  type Tickets = map<Id, Ticket>

  datatype Store = Store(now: int, tickets: Tickets, nextSequence: nat, config: Option<Config>, history: seq<Grant>)

  function Initial(now: int): Store {
    Store(now, map[], 1, None, [])
  }

  // ---------- capacity ----------

  predicate Live(t: Ticket, now: int) {
    t.expiresAt > now
  }

  /** The tickets that hold a slot at the time of the store. */
  function Holding(s: Store): set<Id> {
    set id | id in s.tickets && s.tickets[id].status == Granted && Live(s.tickets[id], s.now)
  }

  function GrantedIds(tickets: Tickets): set<Id> {
    set id | id in tickets && tickets[id].status == Granted
  }

  function OfGraph(tickets: Tickets, ids: set<Id>, graph: Id): set<Id> {
    set id | id in ids && id in tickets && tickets[id].graph == graph
  }

  function OfTool(tickets: Tickets, ids: set<Id>, tool: Id): set<Id> {
    set id | id in ids && id in tickets && tickets[id].tool == tool
  }

  ghost predicate Within(cfg: Config, tickets: Tickets, ids: set<Id>) {
    && |ids| <= cfg.globalLimit
    && (forall graph :: |OfGraph(tickets, ids, graph)| <= cfg.perGraphLimit)
    && (forall tool :: |OfTool(tickets, ids, tool)| <= cfg.ToolLimit(tool))
  }

  /** The tickets granted and unexpired never exceed the stored limits. */
  ghost predicate CapacitySafe(s: Store) {
    match s.config
    case Some(cfg) => Within(cfg, s.tickets, Holding(s))
    case None => Holding(s) == {}
  }

  // ---------- the transactions ----------

  function Settle(t: Ticket, status: Status): Ticket {
    t.(status := status, revision := t.revision + 1)
  }

  function RegisterBatch(s: Store, batch: Id, graph: Id, owner: Id, ttl: nat, requests: map<Id, Request>): Store {
    s.(tickets := s.tickets + map id | id in requests ::
         Ticket(batch, graph, requests[id].node, requests[id].tool, owner, Pending, 1, 0, None, ttl, s.now, s.now + ttl))
  }

  predicate PendingOf(t: Ticket, batch: Id, owner: Id) {
    t.batch == batch && t.owner == owner && t.status == Pending
  }

  function RenewPending(s: Store, batch: Id, owner: Id, ttl: nat): Store {
    s.(tickets := map id | id in s.tickets ::
         var t := s.tickets[id];
         if PendingOf(t, batch, owner) && Live(t, s.now)
         then t.(revision := t.revision + 1, expiresAt := s.now + ttl) else t)
  }

  function LiveTickets(s: Store): set<Id> {
    set id | id in s.tickets && s.tickets[id].status in {Pending, Granted} && Live(s.tickets[id], s.now)
  }

  /** None is the configuration-mismatch error, which changes nothing. */
  function EnsureConfiguration(s: Store, cfg: Config): Option<Store> {
    if s.config == Some(cfg) then Some(s)
    else if s.config.Some? && LiveTickets(s) != {} then None
    else Some(s.(config := Some(cfg)))
  }

  function CancelPendingGraph(s: Store, graph: Id): Store {
    s.(tickets := map id | id in s.tickets ::
         var t := s.tickets[id];
         if t.graph == graph && t.status == Pending then Settle(t, Cancelled) else t)
  }

  function WithdrawBatch(s: Store, batch: Id, owner: Id): Store {
    s.(tickets := map id | id in s.tickets ::
         var t := s.tickets[id];
         if PendingOf(t, batch, owner) then Settle(t, Withdrawn)
         else if t.batch == batch && t.owner == owner && t.status == Granted then Settle(t, Released)
         else t)
  }

  /** A permit handle is honoured only while its ticket is granted, fenced and unexpired. */
  predicate Honours(s: Store, id: Id, owner: Id, fence: nat) {
    && id in s.tickets
    && s.tickets[id].owner == owner
    && s.tickets[id].status == Granted
    && s.tickets[id].fence == fence
    && Live(s.tickets[id], s.now)
  }

  function RenewPermit(s: Store, id: Id, owner: Id, fence: nat, ttl: nat): Store {
    if !Honours(s, id, owner, fence) then s
    else
      var t := s.tickets[id];
      s.(tickets := s.tickets[id := t.(revision := t.revision + 1, expiresAt := s.now + ttl)])
  }

  function ReleasePermit(s: Store, id: Id, owner: Id, fence: nat): Store {
    if !Honours(s, id, owner, fence) then s
    else s.(tickets := s.tickets[id := Settle(s.tickets[id], Released)])
  }

  // ---------- one scheduling pass ----------

  function ExpireDue(tickets: Tickets, now: int): Tickets {
    map id | id in tickets ::
      var t := tickets[id];
      if t.status in {Pending, Granted} && !Live(t, now) then Settle(t, Expired) else t
  }

  function PendingIds(tickets: Tickets, now: int): set<Id> {
    set id | id in tickets && tickets[id].status == Pending && Live(tickets[id], now)
  }

  /** Waiting order: creation time, then admission identifier. */
  function AgeKeys(tickets: Tickets, ids: set<Id>): map<Id, Key> {
    map id | id in ids && id in tickets :: Key(tickets[id].createdAt, id, 0)
  }

  ghost function Oldest(tickets: Tickets, ids: set<Id>): (id: Id)
    requires ids != {} && ids <= tickets.Keys
    ensures id in ids
  {
    assert forall i | i in ids :: i in AgeKeys(tickets, ids);
    Least(AgeKeys(tickets, ids))
  }

  function GraphsOf(tickets: Tickets, ids: set<Id>): set<Id> {
    set id | id in ids && id in tickets :: tickets[id].graph
  }

  ghost function HeadOf(tickets: Tickets, pending: set<Id>, graph: Id): set<Id>
    requires pending <= tickets.Keys && OfGraph(tickets, pending, graph) != {}
  {
    var batch := tickets[Oldest(tickets, OfGraph(tickets, pending, graph))].batch;
    set id | id in OfGraph(tickets, pending, graph) && tickets[id].batch == batch
  }

  lemma {:induction false} GraphHasTicket(tickets: Tickets, ids: set<Id>, graph: Id)
    requires graph in GraphsOf(tickets, ids)
    ensures OfGraph(tickets, ids, graph) != {}
  {
    var id :| id in ids && id in tickets && tickets[id].graph == graph;
    assert id in OfGraph(tickets, ids, graph);
  }

  /** For each waiting graph the batch of its oldest pending ticket; fixed for the whole pass. */
  ghost function Heads(tickets: Tickets, pending: set<Id>): map<Id, set<Id>>
    requires pending <= tickets.Keys
  {
    map graph | graph in GraphsOf(tickets, pending) ::
      GraphHasTicket(tickets, pending, graph);
      HeadOf(tickets, pending, graph)
  }

  /** The tickets of a head batch that would fit their tool limit now. */
  function Fitting(tickets: Tickets, head: set<Id>, cfg: Config): set<Id> {
    set id | id in head && id in tickets && tickets[id].status == Pending
          && |OfTool(tickets, GrantedIds(tickets), tickets[id].tool)| < cfg.ToolLimit(tickets[id].tool)
  }

  predicate IsCandidate(tickets: Tickets, heads: map<Id, set<Id>>, cfg: Config, graph: Id) {
    && graph in heads
    && |OfGraph(tickets, GrantedIds(tickets), graph)| < cfg.perGraphLimit
    && Fitting(tickets, heads[graph], cfg) != {}
  }

  function Candidates(tickets: Tickets, heads: map<Id, set<Id>>, cfg: Config): set<Id> {
    set graph | graph in heads && IsCandidate(tickets, heads, cfg, graph)
  }

  function Sequences(tickets: Tickets, graph: Id): set<nat> {
    set id | id in tickets && tickets[id].graph == graph && tickets[id].grantSequence.Some?
      :: tickets[id].grantSequence.value
  }

  ghost function MaxOrZero(xs: set<nat>): (m: nat)
    ensures forall x | x in xs :: x <= m
    ensures m == 0 || m in xs
  {
    if xs == {} then 0
    else
      var x :| x in xs;
      var m := MaxOrZero(xs - {x});
      assert forall y | y in xs :: y == x || y in xs - {x};
      if x > m then x else m
  }

  /** The persisted sequence of a graph's latest grant, zero when it never had one. */
  ghost function LastGrant(tickets: Tickets, graph: Id): nat {
    MaxOrZero(Sequences(tickets, graph))
  }

  ghost function Offer(tickets: Tickets, heads: map<Id, set<Id>>, cfg: Config, graph: Id): (id: Id)
    requires IsCandidate(tickets, heads, cfg, graph)
    ensures id in Fitting(tickets, heads[graph], cfg)
  {
    Oldest(tickets, Fitting(tickets, heads[graph], cfg))
  }

  ghost function TurnKey(tickets: Tickets, heads: map<Id, set<Id>>, cfg: Config, graph: Id): Key
    requires IsCandidate(tickets, heads, cfg, graph)
  {
    Key(LastGrant(tickets, graph), tickets[Offer(tickets, heads, cfg, graph)].createdAt, graph)
  }

  ghost function TurnKeys(tickets: Tickets, heads: map<Id, set<Id>>, cfg: Config): map<Id, Key> {
    map graph | graph in Candidates(tickets, heads, cfg) :: TurnKey(tickets, heads, cfg, graph)
  }

  /** The least recently granted candidate; ties go to the older ticket, then the graph identifier. */
  ghost function NextGraph(tickets: Tickets, heads: map<Id, set<Id>>, cfg: Config): (graph: Id)
    requires Candidates(tickets, heads, cfg) != {}
    ensures graph in Candidates(tickets, heads, cfg)
  {
    var keys := TurnKeys(tickets, heads, cfg);
    assert keys.Keys == Candidates(tickets, heads, cfg);
    Least(keys)
  }

  function GrantTicket(t: Ticket, sequence: nat, now: int): Ticket {
    t.(status := Granted, revision := t.revision + 1, fence := t.fence + 1,
       grantSequence := Some(sequence), expiresAt := now + t.ttl)
  }

  datatype Progress = Progress(tickets: Tickets, nextSequence: nat, history: seq<Grant>)

  function GrantTo(p: Progress, id: Id, candidates: set<Id>, now: int): Progress
    requires id in p.tickets
  {
    Progress(p.tickets[id := GrantTicket(p.tickets[id], p.nextSequence, now)],
             p.nextSequence + 1,
             p.history + [Grant(p.tickets[id].graph, candidates)])
  }

  lemma {:induction false} GrantedGrows(tickets: Tickets, id: Id, sequence: nat, now: int)
    requires id in tickets && tickets[id].status == Pending
    ensures var after := tickets[id := GrantTicket(tickets[id], sequence, now)];
            && id !in GrantedIds(tickets)
            && GrantedIds(after) == GrantedIds(tickets) + {id}
            && |GrantedIds(after)| == |GrantedIds(tickets)| + 1
  {
    var after := tickets[id := GrantTicket(tickets[id], sequence, now)];
    assert GrantedIds(after) == GrantedIds(tickets) + {id};
  }

  /** The ticket the pass grants next, when there is a candidate. */
  ghost function NextTicket(tickets: Tickets, heads: map<Id, set<Id>>, cfg: Config): (id: Id)
    requires Candidates(tickets, heads, cfg) != {}
    ensures id in tickets && tickets[id].status == Pending
  {
    Offer(tickets, heads, cfg, NextGraph(tickets, heads, cfg))
  }

  predicate Finished(tickets: Tickets, heads: map<Id, set<Id>>, cfg: Config) {
    |GrantedIds(tickets)| >= cfg.globalLimit || Candidates(tickets, heads, cfg) == {}
  }

  ghost function GrantAll(p: Progress, heads: map<Id, set<Id>>, cfg: Config, now: int): Progress
    decreases cfg.globalLimit - |GrantedIds(p.tickets)|
  {
    if Finished(p.tickets, heads, cfg) then p
    else
      var id := NextTicket(p.tickets, heads, cfg);
      GrantedGrows(p.tickets, id, p.nextSequence, now);
      GrantAll(GrantTo(p, id, Candidates(p.tickets, heads, cfg), now), heads, cfg, now)
  }

  function ServedBatches(tickets: Tickets, pending: set<Id>): set<Id> {
    set id | id in pending && id in tickets && tickets[id].status == Granted :: tickets[id].batch
  }

  /** A batch resolves at once: whatever a granted batch still waits for is withdrawn. */
  function WithdrawSiblings(tickets: Tickets, pending: set<Id>): Tickets {
    var served := ServedBatches(tickets, pending);
    map id | id in tickets ::
      var t := tickets[id];
      if id in pending && t.batch in served && t.status == Pending then Settle(t, Withdrawn) else t
  }

  ghost function SchedulePass(s: Store, cfg: Config): Store {
    var due := ExpireDue(s.tickets, s.now);
    var pending := PendingIds(due, s.now);
    var p := GrantAll(Progress(due, s.nextSequence, s.history), Heads(due, pending), cfg, s.now);
    Store(s.now, WithdrawSiblings(p.tickets, pending), p.nextSequence, Some(cfg), p.history)
  }

  ghost function Schedule(s: Store, cfg: Config): Option<Store> {
    if s.config.Some? && s.config.value != cfg then None else Some(SchedulePass(s, cfg))
  }
}
