/**
 The graph-control mailbox: one cancel command per graph, routed to whoever holds the graph
 lease and delivered under a claim. Two fences are in play, the graph lease's and the
 delivery claim's.

 Every transaction is one atomic step on a `Mail`; times are milliseconds. `handles` and
 `leases` record every claim ever handed out and every lease ever held: a handle may be used
 at any later time, by a process that does not know it was superseded.
 */
module GraphControl {
  import opened Backoff
  import opened Ordering

  datatype Status = Pending | Processing | Applied | Superseded

  datatype Target = Target(owner: Id, fence: nat)

  datatype Graph = Graph(owner: Option<Id>, expires: Option<int>, fence: nat)

  datatype Control = Control(graph: Id, createdAt: int, status: Status, target: Option<Target>, revision: nat, attempts: nat,
                             availableAt: int, claimOwner: Option<Id>, claimedAt: Option<int>, claimExpires: Option<int>,
                             claimFence: nat, lastError: Option<string>, appliedFence: Option<nat>, appliedAt: Option<int>)

  /** What the claiming process reads back: the row's target and attempt count, and its claim. */
  datatype Handle = Handle(control: Id, target: Option<Target>, attempts: nat, owner: Id, fence: nat)

  datatype Lease = Lease(graph: Id, owner: Id, fence: nat)

  datatype Mail = Mail(now: int, graphs: map<Id, Graph>, controls: map<Id, Control>, handles: set<Handle>, leases: set<Lease>)

  function Initial(now: int): Mail {
    Mail(now, map[], map[], {}, {})
  }

  /** The owner generation a graph answers to, if its lease runs. */
  function LiveTarget(g: Graph, now: int): Option<Target> {
    if g.owner == None || g.expires == None || g.expires.value <= now || g.fence < 1 then None
    else Some(Target(g.owner.value, g.fence))
  }

  predicate MatchesLiveTarget(m: Mail, c: Control, owner: Id) {
    && c.graph in m.graphs && c.target.Some?
    && LiveTarget(m.graphs[c.graph], m.now) == Some(Target(owner, c.target.value.fence))
  }

  // ---------- requesting ----------

  function NewControl(m: Mail, graph: Id): Control
    requires graph in m.graphs
  {
    Control(graph, m.now, Pending, LiveTarget(m.graphs[graph], m.now), 1, 0, m.now, None, None, None, 0, None, None, None)
  }

  function Request(m: Mail, id: Id, graph: Id): Mail {
    if graph !in m.graphs || id in m.controls then m
    else m.(controls := m.controls[id := NewControl(m, graph)])
  }

  // ---------- routing ----------

  predicate Routable(c: Control, now: int) {
    && c.status != Applied
    && (c.status != Processing || c.claimExpires == None || c.claimExpires.value <= now)
  }

  function RouteKeys(controls: map<Id, Control>, now: int): map<Id, Key> {
    map id | id in controls && Routable(controls[id], now) :: Key(controls[id].createdAt, id, 0)
  }

  function Rerouted(c: Control, target: Option<Target>): Control {
    c.(target := target, status := Pending, claimOwner := None, claimedAt := None, claimExpires := None, revision := c.revision + 1)
  }

  function RoutedRow(m: Mail, c: Control): Control {
    if c.graph in m.graphs then Rerouted(c, LiveTarget(m.graphs[c.graph], m.now)) else c
  }

  function Route(m: Mail, batch: seq<Id>): Mail {
    m.(controls := map id | id in m.controls :: if id in batch then RoutedRow(m, m.controls[id]) else m.controls[id])
  }

  // ---------- claiming ----------

  function ClaimKeys(controls: map<Id, Control>, now: int, owner: Id): map<Id, Key> {
    map id | id in controls && controls[id].status == Pending && controls[id].target.Some?
             && controls[id].target.value.owner == owner && controls[id].availableAt <= now
           :: Key(controls[id].createdAt, id, 0)
  }

  function ClaimedRow(m: Mail, c: Control, owner: Id, ttl: nat): Control {
    c.(status := Processing, revision := c.revision + 1, attempts := c.attempts + 1, claimOwner := Some(owner),
       claimedAt := Some(m.now), claimExpires := Some(m.now + ttl), claimFence := c.claimFence + 1, lastError := None)
  }

  function HandleOf(m: Mail, id: Id, owner: Id): Handle
    requires id in m.controls
  {
    Handle(id, m.controls[id].target, m.controls[id].attempts + 1, owner, m.controls[id].claimFence + 1)
  }

  /** A selected row is claimed only if the graph still answers to exactly the row's target. */
  predicate Claims(m: Mail, batch: seq<Id>, owner: Id, id: Id) {
    id in batch && id in m.controls && MatchesLiveTarget(m, m.controls[id], owner)
  }

  function NewHandles(m: Mail, owner: Id, batch: seq<Id>): set<Handle> {
    set id | id in m.controls && Claims(m, batch, owner, id) :: HandleOf(m, id, owner)
  }

  function ClaimFor(m: Mail, owner: Id, ttl: nat, batch: seq<Id>): Mail {
    m.(controls := map id | id in m.controls :: if Claims(m, batch, owner, id) then ClaimedRow(m, m.controls[id], owner, ttl) else m.controls[id],
       handles := m.handles + NewHandles(m, owner, batch))
  }

  // ---------- using a claim ----------

  /** The guard that renewing, applying and retrying share. */
  predicate Honours(m: Mail, h: Handle) {
    && h.control in m.controls
    && var c := m.controls[h.control];
       && c.status == Processing
       && c.claimOwner == Some(h.owner)
       && c.claimFence == h.fence
       && c.claimExpires.Some? && c.claimExpires.value > m.now
  }

  function RenewClaim(m: Mail, h: Handle, ttl: nat): Mail {
    if !Honours(m, h) then m
    else m.(controls := m.controls[h.control := m.controls[h.control].(claimExpires := Some(m.now + ttl))])
  }

  function MarkApplied(m: Mail, h: Handle): Mail {
    if !Honours(m, h) then m
    else
      var c := m.controls[h.control];
      m.(controls := m.controls[h.control := c.(
        status := Applied, revision := c.revision + 1, claimExpires := None, appliedAt := Some(m.now),
        appliedFence := if h.target.Some? then Some(h.target.value.fence) else None)])
  }

  function RetryDelay(h: Handle): nat {
    CappedDelay(50, 5000, if h.attempts < 7 then h.attempts else 7)
  }

  function Retry(m: Mail, h: Handle, error: string, superseded: bool): Mail {
    if !Honours(m, h) then m
    else
      var c := m.controls[h.control];
      m.(controls := m.controls[h.control := c.(
        status := if superseded then Superseded else Pending, revision := c.revision + 1,
        target := if superseded then None else h.target, lastError := Some(error),
        availableAt := m.now + RetryDelay(h), claimOwner := None, claimedAt := None, claimExpires := None)])
  }

  // ---------- the graph lease ----------

  predicate Live(g: Graph, now: int) {
    g.owner.Some? && g.expires.Some? && g.expires.value > now
  }

  predicate SameLiveOwner(g: Graph, owner: Id, now: int) {
    Live(g, now) && g.owner == Some(owner) && g.fence > 0
  }

  /** Renewed by the same live owner under the same fence; taken by anyone, under the next fence, once free or expired. */
  function Acquire(m: Mail, graph: Id, owner: Id, ttl: nat): Mail {
    if graph !in m.graphs then m
    else
      var g := m.graphs[graph];
      if SameLiveOwner(g, owner, m.now) then m.(graphs := m.graphs[graph := g.(expires := Some(m.now + ttl))])
      else if Live(g, m.now) then m
      else m.(graphs := m.graphs[graph := Graph(Some(owner), Some(m.now + ttl), g.fence + 1)],
              leases := m.leases + {Lease(graph, owner, g.fence + 1)})
  }

  function RenewLease(m: Mail, graph: Id, owner: Id, fence: nat, ttl: nat): Mail {
    if graph in m.graphs && Live(m.graphs[graph], m.now) && m.graphs[graph].owner == Some(owner) && m.graphs[graph].fence == fence
    then m.(graphs := m.graphs[graph := m.graphs[graph].(expires := Some(m.now + ttl))])
    else m
  }

  function ReleaseLease(m: Mail, graph: Id, owner: Id, fence: nat): Mail {
    if graph in m.graphs && m.graphs[graph].owner == Some(owner) && m.graphs[graph].fence == fence
    then m.(graphs := m.graphs[graph := m.graphs[graph].(owner := None, expires := None)])
    else m
  }

  function AddGraph(m: Mail, graph: Id): Mail {
    if graph in m.graphs then m else m.(graphs := m.graphs[graph := Graph(None, None, 0)])
  }

  datatype Action =
    | Advance(milliseconds: nat)
    | CreateGraph(graph: Id)
    | RequestCancel(id: Id, graph: Id)
    | RoutePending(limit: nat, batch: seq<Id>)
    | ClaimForOwner(owner: Id, ttl: nat, limit: nat, batch: seq<Id>)
    | Renew(handle: Handle, ttl: nat)
    | Apply(handle: Handle)
    | GiveBack(handle: Handle, error: string, superseded: bool)
    | AcquireGraph(graph: Id, owner: Id, ttl: nat)
    | RenewGraph(graph: Id, owner: Id, fence: nat, ttl: nat)
    | ReleaseGraph(graph: Id, owner: Id, fence: nat)

  /** A control's identifier is a digest of its graph and command, so it names one graph. */
  ghost predicate Enabled(m: Mail, a: Action) {
    match a
    case RequestCancel(id, graph) => id in m.controls ==> m.controls[id].graph == graph
    case RoutePending(limit, batch) => IsFirst(RouteKeys(m.controls, m.now), batch, limit)
    case ClaimForOwner(owner, ttl, limit, batch) => IsFirst(ClaimKeys(m.controls, m.now, owner), batch, limit)
    case Renew(h, _) => h in m.handles
    case Apply(h) => h in m.handles
    case GiveBack(h, _, _) => h in m.handles
    case _ => true
  }

  function Next(m: Mail, a: Action): Mail {
    match a
    case Advance(milliseconds) => m.(now := m.now + milliseconds)
    case CreateGraph(graph) => AddGraph(m, graph)
    case RequestCancel(id, graph) => Request(m, id, graph)
    case RoutePending(limit, batch) => Route(m, batch)
    case ClaimForOwner(owner, ttl, limit, batch) => ClaimFor(m, owner, ttl, batch)
    case Renew(h, ttl) => RenewClaim(m, h, ttl)
    case Apply(h) => MarkApplied(m, h)
    case GiveBack(h, error, superseded) => Retry(m, h, error, superseded)
    case AcquireGraph(graph, owner, ttl) => Acquire(m, graph, owner, ttl)
    case RenewGraph(graph, owner, fence, ttl) => RenewLease(m, graph, owner, fence, ttl)
    case ReleaseGraph(graph, owner, fence) => ReleaseLease(m, graph, owner, fence)
  }
}
