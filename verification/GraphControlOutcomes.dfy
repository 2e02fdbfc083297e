/**
 What each mailbox and lease transaction does, told in the rows: whom a command is pointed at, who
 gets to claim it, how long a delivery counts, and where its holder leaves the command.
 */
module GraphControlOutcomes {
  import opened Backoff
  import opened Ordering
  import opened GraphControl
  import opened GraphControlSafety

  // ---------- the terms ----------

  /** The owner holds the graph at this time: under a positive fence and a lease that runs. */
  predicate HeldBy(g: Graph, now: int, owner: Id, fence: nat) {
    && g.owner == Some(owner) && g.fence == fence && fence >= 1
    && g.expires.Some? && g.expires.value > now
  }

  /** A target names the holder of the graph, and none stands for a graph that nobody holds. */
  predicate PointsAtHolder(g: Graph, now: int, target: Option<Target>) {
    match target
    case Some(t) => HeldBy(g, now, t.owner, t.fence)
    case None => g.owner == None || g.expires == None || g.expires.value <= now || g.fence == 0
  }

  /** Not applied, and not in the hands of a delivery that runs. */
  predicate MayBeRouted(c: Control, now: int) {
    c.status == Pending || c.status == Superseded
    || (c.status == Processing && (c.claimExpires == None || c.claimExpires.value <= now))
  }

  predicate WaitsFor(c: Control, now: int, owner: Id) {
    c.status == Pending && c.target.Some? && c.target.value.owner == owner && c.availableAt <= now
  }

  /** Oldest first, then by identifier. */
  predicate ComesFirst(controls: map<Id, Control>, a: Id, b: Id)
    requires a in controls && b in controls
  {
    controls[a].createdAt < controls[b].createdAt || (controls[a].createdAt == controls[b].createdAt && a <= b)
  }

  /** The first of the eligible commands, all of them when there are fewer than the limit. */
  ghost predicate TakesTheFirst(controls: map<Id, Control>, batch: seq<Id>, limit: nat, eligible: set<Id>)
    requires eligible <= controls.Keys
  {
    && |batch| <= limit
    && (forall id | id in batch :: id in eligible)
    && (forall i, j | 0 <= i < j < |batch| :: batch[i] != batch[j])
    && (forall id | id in eligible && id !in batch ::
          |batch| == limit && forall k | 0 <= k < |batch| :: batch[k] in eligible && ComesFirst(controls, batch[k], id))
  }

  function Routables(m: Mail): set<Id> {
    set id | id in m.controls && MayBeRouted(m.controls[id], m.now)
  }

  function WaitingFor(m: Mail, owner: Id): set<Id> {
    set id | id in m.controls && WaitsFor(m.controls[id], m.now, owner)
  }

  /** A command pointed anew: pending, in nobody's hands, for the holder of its graph. */
  predicate RoutedAnew(m: Mail, c: Control, u: Control) {
    && c.graph in m.graphs && PointsAtHolder(m.graphs[c.graph], m.now, u.target)
    && u.status == Pending && u.claimOwner == None && u.claimedAt == None && u.claimExpires == None && u.revision == c.revision + 1
    && u.graph == c.graph && u.createdAt == c.createdAt && u.attempts == c.attempts && u.availableAt == c.availableAt
    && u.claimFence == c.claimFence && u.lastError == c.lastError && u.appliedFence == c.appliedFence && u.appliedAt == c.appliedAt
  }

  /** Only the commands changed, and none was added or removed. */
  predicate OnlyControls(m: Mail, t: Mail) {
    && t.now == m.now && t.graphs == m.graphs && t.leases == m.leases
    && t.controls.Keys == m.controls.Keys
  }

  ghost predicate RouteLaw(m: Mail, batch: seq<Id>, t: Mail) {
    && OnlyControls(m, t) && t.handles == m.handles
    && (forall id | id in m.controls ::
          if id in batch && m.controls[id].graph in m.graphs then RoutedAnew(m, m.controls[id], t.controls[id])
          else t.controls[id] == m.controls[id])
  }

  /** The claimer holds the command's graph under the very fence that the command was pointed at. */
  predicate MayTake(m: Mail, owner: Id, id: Id) {
    && id in m.controls && m.controls[id].target.Some? && m.controls[id].graph in m.graphs
    && HeldBy(m.graphs[m.controls[id].graph], m.now, owner, m.controls[id].target.value.fence)
  }

  predicate TakenRow(c: Control, owner: Id, now: int, ttl: nat, u: Control) {
    && u.status == Processing && u.claimOwner == Some(owner) && u.claimedAt == Some(now) && u.claimExpires == Some(now + ttl)
    && u.claimFence == c.claimFence + 1 && u.attempts == c.attempts + 1 && u.revision == c.revision + 1 && u.lastError == None
    && u.target == c.target && u.graph == c.graph && u.createdAt == c.createdAt && u.availableAt == c.availableAt
    && u.appliedFence == c.appliedFence && u.appliedAt == c.appliedAt
  }

  ghost predicate ClaimLaw(m: Mail, owner: Id, ttl: nat, batch: seq<Id>, t: Mail) {
    && OnlyControls(m, t)
    && (forall id | id in m.controls ::
          if id in batch && MayTake(m, owner, id) then TakenRow(m.controls[id], owner, m.now, ttl, t.controls[id])
          else t.controls[id] == m.controls[id])
    && (forall h :: h in t.handles <==> h in m.handles || IsNewHandle(m, owner, batch, h))
  }

  predicate IsNewHandle(m: Mail, owner: Id, batch: seq<Id>, h: Handle) {
    && h.control in batch && MayTake(m, owner, h.control)
    && h == Handle(h.control, m.controls[h.control].target, m.controls[h.control].attempts + 1, owner, m.controls[h.control].claimFence + 1)
  }

  /** The row is the delivery's until the given moment. */
  predicate InHand(c: Control, h: Handle, until: int) {
    && c.status == Processing && c.claimOwner == Some(h.owner) && c.claimFence == h.fence && c.claimExpires == Some(until)
    && c.target == h.target && c.attempts == h.attempts
  }

  predicate InHandNow(m: Mail, h: Handle) {
    && h.control in m.controls && m.controls[h.control].claimExpires.Some? && m.controls[h.control].claimExpires.value > m.now
    && InHand(m.controls[h.control], h, m.controls[h.control].claimExpires.value)
  }

  predicate OnlyControl(m: Mail, id: Id, t: Mail) {
    && id in m.controls && OnlyControls(m, t) && t.handles == m.handles
    && (forall o | o in m.controls && o != id :: t.controls[o] == m.controls[o])
  }

  /** What no use of a delivery touches. */
  predicate SameCommand(c: Control, u: Control) {
    u.graph == c.graph && u.createdAt == c.createdAt && u.attempts == c.attempts && u.claimFence == c.claimFence
  }

  predicate RenewLaw(m: Mail, h: Handle, ttl: nat, t: Mail) {
    if InHandNow(m, h) then
      && OnlyControl(m, h.control, t) && InHand(t.controls[h.control], h, m.now + ttl)
      && SameCommand(m.controls[h.control], t.controls[h.control]) && t.controls[h.control].revision == m.controls[h.control].revision
    else t == m
  }

  predicate ApplyLaw(m: Mail, h: Handle, t: Mail) {
    if InHandNow(m, h) then
      && OnlyControl(m, h.control, t)
      && var c, u := m.controls[h.control], t.controls[h.control];
         && SameCommand(c, u) && u.status == Applied && u.appliedAt == Some(m.now) && u.target == h.target && u.target.Some?
         && u.appliedFence == Some(h.target.value.fence) && u.claimOwner == Some(h.owner)
         && u.claimExpires == None && u.revision == c.revision + 1
    else t == m
  }

  /** Milliseconds to wait before another delivery, by the attempts made. */
  const DELAYS := [50, 100, 200, 400, 800, 1600, 3200]

  function DelayAfter(attempts: nat): nat {
    if attempts < 7 then DELAYS[attempts] else 5000
  }

  predicate GiveBackLaw(m: Mail, h: Handle, error: string, superseded: bool, t: Mail) {
    if InHandNow(m, h) then
      && OnlyControl(m, h.control, t)
      && var c, u := m.controls[h.control], t.controls[h.control];
         && SameCommand(c, u) && u.claimOwner == None && u.claimedAt == None && u.claimExpires == None && u.lastError == Some(error)
         && u.revision == c.revision + 1
         && u.availableAt == m.now + DelayAfter(h.attempts) && u.appliedFence == c.appliedFence
         && (if superseded then u.status == Superseded && u.target == None else u.status == Pending && u.target == h.target)
    else t == m
  }

  /** The graph's one cancel command: made once, due at once, for the holder of the graph. */
  predicate RequestLaw(m: Mail, id: Id, graph: Id, t: Mail) {
    if graph !in m.graphs || id in m.controls then t == m
    else
      && t == m.(controls := t.controls) && t.controls.Keys == m.controls.Keys + {id}
      && (forall o | o in m.controls :: t.controls[o] == m.controls[o])
      && var u := t.controls[id];
         && u.graph == graph && u.createdAt == m.now && u.status == Pending && PointsAtHolder(m.graphs[graph], m.now, u.target)
         && u.attempts == 0 && u.availableAt == m.now && u.claimOwner == None && u.claimExpires == None && u.claimFence == 0
         && u.appliedFence == None
  }

  predicate OnlyGraph(m: Mail, graph: Id, t: Mail) {
    && graph in m.graphs && t.graphs.Keys == m.graphs.Keys && t == m.(graphs := t.graphs, leases := t.leases)
    && (forall o | o in m.graphs && o != graph :: t.graphs[o] == m.graphs[o])
  }

  /** A graph is taken only when nobody holds it, under a fence of its own; its holder prolongs its lease under the same. */
  predicate AcquireLaw(m: Mail, graph: Id, owner: Id, ttl: nat, t: Mail) {
    if graph !in m.graphs then t == m
    else
      var g := m.graphs[graph];
      if HeldBy(g, m.now, owner, g.fence) then
        OnlyGraph(m, graph, t) && t.graphs[graph] == Graph(Some(owner), Some(m.now + ttl), g.fence) && t.leases == m.leases
      else if g.owner.Some? && g.expires.Some? && g.expires.value > m.now then t == m
      else
        && OnlyGraph(m, graph, t) && t.graphs[graph] == Graph(Some(owner), Some(m.now + ttl), g.fence + 1)
        && t.leases == m.leases + {Lease(graph, owner, g.fence + 1)}
  }

  predicate RenewGraphLaw(m: Mail, graph: Id, owner: Id, fence: nat, ttl: nat, t: Mail) {
    if graph in m.graphs && m.graphs[graph].owner == Some(owner) && m.graphs[graph].fence == fence
       && m.graphs[graph].expires.Some? && m.graphs[graph].expires.value > m.now
    then OnlyGraph(m, graph, t) && t.graphs[graph] == Graph(Some(owner), Some(m.now + ttl), fence) && t.leases == m.leases
    else t == m
  }

  predicate ReleaseGraphLaw(m: Mail, graph: Id, owner: Id, fence: nat, t: Mail) {
    if graph in m.graphs && m.graphs[graph].owner == Some(owner) && m.graphs[graph].fence == fence
    then OnlyGraph(m, graph, t) && t.graphs[graph] == Graph(None, None, fence) && t.leases == m.leases
    else t == m
  }

  ghost predicate Law(m: Mail, a: Action, t: Mail) {
    match a
    case Advance(milliseconds) => t == m.(now := m.now + milliseconds)
    case CreateGraph(graph) => t == if graph in m.graphs then m else m.(graphs := m.graphs[graph := Graph(None, None, 0)])
    case RequestCancel(id, graph) => RequestLaw(m, id, graph, t)
    case RoutePending(limit, batch) => TakesTheFirst(m.controls, batch, limit, Routables(m)) && RouteLaw(m, batch, t)
    case ClaimForOwner(owner, ttl, limit, batch) =>
      TakesTheFirst(m.controls, batch, limit, WaitingFor(m, owner)) && ClaimLaw(m, owner, ttl, batch, t)
    case Renew(h, ttl) => RenewLaw(m, h, ttl, t)
    case Apply(h) => ApplyLaw(m, h, t)
    case GiveBack(h, error, superseded) => GiveBackLaw(m, h, error, superseded, t)
    case AcquireGraph(graph, owner, ttl) => AcquireLaw(m, graph, owner, ttl, t)
    case RenewGraph(graph, owner, fence, ttl) => RenewGraphLaw(m, graph, owner, fence, ttl, t)
    case ReleaseGraph(graph, owner, fence) => ReleaseGraphLaw(m, graph, owner, fence, t)
  }

  // ---------- every transaction keeps its law ----------

  /** The target a graph answers to is its holder. */
  lemma {:induction false} LiveTargetIsHolder(g: Graph, now: int)
    ensures PointsAtHolder(g, now, LiveTarget(g, now))
    ensures forall owner, fence :: LiveTarget(g, now) == Some(Target(owner, fence)) <==> HeldBy(g, now, owner, fence)
  {
  }

  lemma {:induction false} BatchTakesTheFirst(controls: map<Id, Control>, keys: map<Id, Key>, batch: seq<Id>, limit: nat)
    requires IsFirst(keys, batch, limit) && keys.Keys <= controls.Keys
    requires forall id | id in keys :: keys[id] == Key(controls[id].createdAt, id, 0)
    ensures TakesTheFirst(controls, batch, limit, keys.Keys)
  {
  }

  lemma {:induction false} RouteIsLawful(m: Mail, limit: nat, batch: seq<Id>)
    requires IsFirst(RouteKeys(m.controls, m.now), batch, limit)
    ensures TakesTheFirst(m.controls, batch, limit, Routables(m)) && RouteLaw(m, batch, Route(m, batch))
  {
    assert RouteKeys(m.controls, m.now).Keys == Routables(m);
    BatchTakesTheFirst(m.controls, RouteKeys(m.controls, m.now), batch, limit);
    hide TakesTheFirst, IsFirst, LiveTarget, PointsAtHolder, HeldBy;
    forall id | id in m.controls && id in batch && m.controls[id].graph in m.graphs
      ensures RoutedAnew(m, m.controls[id], Route(m, batch).controls[id])
    {
      LiveTargetIsHolder(m.graphs[m.controls[id].graph], m.now);
    }
  }

  /** A waiting command is handed over exactly when its claimer holds the graph under the fence it is pointed at. */
  lemma {:induction false} ClaimsAreTakes(m: Mail, batch: seq<Id>, owner: Id, id: Id)
    ensures Claims(m, batch, owner, id) <==> id in batch && MayTake(m, owner, id)
  {
    if id in m.controls && m.controls[id].graph in m.graphs { LiveTargetIsHolder(m.graphs[m.controls[id].graph], m.now); }
  }

  lemma {:induction false} ClaimIsLawful(m: Mail, owner: Id, ttl: nat, limit: nat, batch: seq<Id>)
    requires IsFirst(ClaimKeys(m.controls, m.now, owner), batch, limit)
    ensures TakesTheFirst(m.controls, batch, limit, WaitingFor(m, owner)) && ClaimLaw(m, owner, ttl, batch, ClaimFor(m, owner, ttl, batch))
  {
    assert ClaimKeys(m.controls, m.now, owner).Keys == WaitingFor(m, owner);
    BatchTakesTheFirst(m.controls, ClaimKeys(m.controls, m.now, owner), batch, limit);
    hide TakesTheFirst, IsFirst, MayTake, Claims;
    var t := ClaimFor(m, owner, ttl, batch);
    forall id ensures Claims(m, batch, owner, id) <==> id in batch && MayTake(m, owner, id) { ClaimsAreTakes(m, batch, owner, id); }
    forall h ensures h in t.handles <==> h in m.handles || IsNewHandle(m, owner, batch, h) {
      NewIsNew(m, owner, batch, h);
    }
  }

  lemma {:induction false} NewIsNew(m: Mail, owner: Id, batch: seq<Id>, h: Handle)
    ensures h in NewHandles(m, owner, batch) <==> IsNewHandle(m, owner, batch, h)
  {
    hide MayTake;
    ClaimsAreTakes(m, batch, owner, h.control);
    if IsNewHandle(m, owner, batch, h) {
      TakesHaveRows(m, owner, h.control);
      assert h == HandleOf(m, h.control, owner);
    }
  }

  lemma {:induction false} TakesHaveRows(m: Mail, owner: Id, id: Id)
    requires MayTake(m, owner, id)
    ensures id in m.controls
  {
  }

  lemma {:induction false} HonouredIsInHand(m: Mail, h: Handle)
    requires Inv(m) && h in m.handles
    ensures Honours(m, h) <==> InHandNow(m, h)
    ensures h.target.Some?
  {
    assert HandleOk(m, h);
    if Honours(m, h) { HonouredIsCurrent(m, h); }
  }

  /** The delays of the mailbox, one by one. */
  lemma {:induction false} DelayTable(h: Handle)
    ensures RetryDelay(h) == DelayAfter(h.attempts)
  {
    assert Power2(3) == 8 && Power2(5) == 32 && Power2(7) == 128 by {
      assert Power2(1) == 2;
      assert Power2(2) == 4;
      assert Power2(4) == 16;
      assert Power2(6) == 64;
    }
  }

  lemma {:induction false} UseIsLawful(m: Mail, a: Action)
    requires Inv(m) && Enabled(m, a) && (a.Renew? || a.Apply? || a.GiveBack?)
    ensures Law(m, a, Next(m, a))
  {
    HonouredIsInHand(m, a.handle);
    DelayTable(a.handle);
    hide Inv, RetryDelay, DelayAfter;
  }

  /** Every transaction does what its law says. */
  lemma {:induction false} OperationIsLawful(m: Mail, a: Action)
    requires Inv(m) && Enabled(m, a)
    ensures Law(m, a, Next(m, a))
  {
    hide TakesTheFirst, RouteLaw, ClaimLaw, IsFirst, LiveTarget, PointsAtHolder;
    match a
    case RoutePending(limit, batch) => RouteIsLawful(m, limit, batch);
    case ClaimForOwner(owner, ttl, limit, batch) => ClaimIsLawful(m, owner, ttl, limit, batch);
    case Renew(_, _) => UseIsLawful(m, a);
    case Apply(_) => UseIsLawful(m, a);
    case GiveBack(_, _, _) => UseIsLawful(m, a);
    case RequestCancel(id, graph) => if graph in m.graphs { LiveTargetIsHolder(m.graphs[graph], m.now); }
    case AcquireGraph(graph, owner, ttl) => AcquireIsLawful(m, graph, owner, ttl);
    case _ =>
  }

  lemma {:induction false} AcquireIsLawful(m: Mail, graph: Id, owner: Id, ttl: nat)
    ensures AcquireLaw(m, graph, owner, ttl, Acquire(m, graph, owner, ttl))
  {
  }

  // ---------- over runs ----------

  ghost predicate StepBy(states: seq<Mail>, actions: seq<Action>, k: nat)
    requires |states| == |actions| + 1 && k < |actions|
  {
    Enabled(states[k], actions[k]) && states[k + 1] == Next(states[k], actions[k])
  }

  /** A run with the transactions that made it. */
  ghost predicate RunBy(states: seq<Mail>, actions: seq<Action>) {
    && |states| == |actions| + 1 && (exists now :: states[0] == Initial(now))
    && (forall k | 0 <= k < |actions| :: StepBy(states, actions, k))
  }

  lemma {:induction false} RunByIsRun(states: seq<Mail>, actions: seq<Action>)
    requires RunBy(states, actions)
    ensures Run(states)
  {
    hide Next, Enabled;
    forall i | 0 <= i < |states| - 1 ensures Step(states[i], states[i + 1]) { assert StepBy(states, actions, i); }
  }

  /** Every transaction of every run does what its law says. */
  lemma {:induction false} RunIsLawful(states: seq<Mail>, actions: seq<Action>, k: nat)
    requires RunBy(states, actions) && k < |actions|
    ensures Inv(states[k]) && Enabled(states[k], actions[k]) && Law(states[k], actions[k], states[k + 1])
  {
    hide Inv, Law, Next, Enabled;
    RunByIsRun(states, actions);
    RunKeepsInv(states, k);
    assert StepBy(states, actions, k);
    OperationIsLawful(states[k], actions[k]);
  }

  predicate Uses(a: Action, h: Handle) {
    match a
    case Renew(k, _) => k == h
    case Apply(k) => k == h
    case GiveBack(k, _, _) => k == h
    case _ => false
  }

  /** A running delivery is touched by no transaction but its holder's own. */
  lemma {:induction false} DeliveryStays(m: Mail, a: Action, t: Mail, h: Handle, until: int)
    requires Inv(m) && Enabled(m, a) && Law(m, a, t) && h in m.handles && !Uses(a, h)
    requires h.control in m.controls && InHand(m.controls[h.control], h, until) && m.now < until
    ensures h.control in t.controls && t.controls[h.control] == m.controls[h.control]
  {
    hide TakenRow, RoutedAnew, InHandNow, ComesFirst, IsFirst, IsNewHandle, SameCommand, PointsAtHolder, DelayAfter;
    match a
    case Renew(k, _) => OtherDelivery(m, h, k, until);
    case Apply(k) => OtherDelivery(m, h, k, until);
    case GiveBack(k, _, _) => OtherDelivery(m, h, k, until);
    case RoutePending(limit, batch) => assert h.control !in Routables(m);
    case ClaimForOwner(owner, ttl, limit, batch) => assert h.control !in WaitingFor(m, owner);
    case _ =>
  }

  lemma {:induction false} OtherDelivery(m: Mail, h: Handle, k: Handle, until: int)
    requires Inv(m) && h in m.handles && k in m.handles && h != k
    requires h.control in m.controls && InHand(m.controls[h.control], h, until)
    ensures InHandNow(m, k) ==> k.control != h.control
  {
  }

  lemma {:induction false} ClockRuns(m: Mail, a: Action, t: Mail)
    requires Law(m, a, t)
    ensures t.now >= m.now
  {
    hide TakesTheFirst, TakenRow, RoutedAnew, InHandNow, IsNewHandle, SameCommand, PointsAtHolder, DelayAfter;
  }

  lemma {:induction false} InHandUntil(m: Mail, h: Handle, until: int)
    requires h.control in m.controls && InHand(m.controls[h.control], h, until)
    ensures InHandNow(m, h) <==> m.now < until
  {
  }

  lemma {:induction false} LostStep(m: Mail, a: Action, h: Handle)
    requires Inv(m) && Enabled(m, a) && h in m.handles
    ensures h in Next(m, a).handles
    ensures !InHandNow(m, h) ==> !InHandNow(Next(m, a), h)
  {
    hide Inv, Next, Enabled, InHandNow, Honours;
    HandlesGrow(m, a);
    StepKeepsInv(m, a);
    HonouredIsInHand(m, h);
    HonouredIsInHand(Next(m, a), h);
    if !Honours(m, h) { LostHandleStaysLost(m, a, h); }
  }

  /**
   How long a delivery counts: as long as its holder does nothing with it, until the end of the lease it got,
   and no longer, whatever everyone else does.
   */
  lemma {:induction false} DeliveryCountsForItsLease(states: seq<Mail>, actions: seq<Action>, i: nat, j: nat, h: Handle, until: int)
    requires RunBy(states, actions) && i <= j < |states| && h in states[i].handles && h.control in states[i].controls
    requires InHand(states[i].controls[h.control], h, until)
    requires forall k | i <= k < j :: !Uses(actions[k], h)
    ensures h in states[j].handles && (InHandNow(states[j], h) <==> states[j].now < until)
    ensures InHandNow(states[j], h) ==> InHand(states[j].controls[h.control], h, until)
    decreases j
  {
    hide Inv, Law, Next, Enabled, StepBy, InHandNow, InHand, Uses;
    if i == j {
      InHandUntil(states[i], h, until);
    } else {
      DeliveryCountsForItsLease(states, actions, i, j - 1, h, until);
      RunIsLawful(states, actions, j - 1);
      assert StepBy(states, actions, j - 1) && states[j - 1 + 1] == states[j];
      StepIsNext(states, actions, j - 1);
      LostStep(states[j - 1], actions[j - 1], h);
      ClockRuns(states[j - 1], actions[j - 1], states[j]);
      if InHandNow(states[j - 1], h) {
        InHandHasRow(states[j - 1], h);
        DeliveryStays(states[j - 1], actions[j - 1], states[j], h, until);
        InHandUntil(states[j], h, until);
      }
    }
  }

  lemma {:induction false} StepIsNext(states: seq<Mail>, actions: seq<Action>, k: nat)
    requires |states| == |actions| + 1 && k < |actions| && StepBy(states, actions, k)
    ensures states[k + 1] == Next(states[k], actions[k])
  {
  }

  lemma {:induction false} InHandHasRow(m: Mail, h: Handle)
    requires InHandNow(m, h)
    ensures h.control in m.controls
  {
  }

  /**
   Delivery: once a command is routed, the owner that holds its graph under an unexpired lease then and at its
   own claim gets it, unless other commands that came first fill its batch, and the delivery counts at once.
   */
  lemma {:induction false} RoutedCommandIsDelivered(states: seq<Mail>, actions: seq<Action>, i: nat, j: nat, id: Id, owner: Id, fence: nat)
    requires RunBy(states, actions) && i < j < |actions|
    requires actions[i].RoutePending? && id in actions[i].batch && id in states[i].controls
    requires states[i].controls[id].graph in states[i].graphs && HeldBy(states[i].graphs[states[i].controls[id].graph], states[i].now, owner, fence)
    requires forall k | i < k < j :: !Handles(actions[k], id)
    requires actions[j].ClaimForOwner? && actions[j].owner == owner && |actions[j].batch| < actions[j].limit
    requires states[i].controls[id].graph in states[j].graphs && HeldBy(states[j].graphs[states[i].controls[id].graph], states[j].now, owner, fence)
    requires states[i].controls[id].availableAt <= states[j].now
    ensures id in states[j].controls && id in states[j + 1].controls
    ensures exists h :: h in states[j + 1].handles && h !in states[j].handles && h.control == id && h.owner == owner
              && h.target == Some(Target(owner, fence)) && InHand(states[j + 1].controls[id], h, states[j].now + actions[j].ttl)
  {
    hide Inv, Next, Enabled, StepBy, InHand, IsNewHandle, TakenRow;
    RunIsLawful(states, actions, i);
    assert RoutedAnew(states[i], states[i].controls[id], states[i + 1].controls[id]);
    PendingStays(states, actions, i + 1, j, id);
    RunIsLawful(states, actions, j);
    assert id in WaitingFor(states[j], owner);
    Delivered(states[j], owner, actions[j].ttl, actions[j].limit, actions[j].batch, states[j + 1], id);
  }

  predicate Handles(a: Action, id: Id) {
    match a
    case RoutePending(_, batch) => id in batch
    case ClaimForOwner(_, _, _, batch) => id in batch
    case _ => false
  }

  lemma {:induction false} Delivered(m: Mail, owner: Id, ttl: nat, limit: nat, batch: seq<Id>, t: Mail, id: Id)
    requires Inv(m) && ClaimLaw(m, owner, ttl, batch, t) && id in batch && MayTake(m, owner, id)
    requires WaitsFor(m.controls[id], m.now, owner)
    ensures id in t.controls
    ensures exists h :: h in t.handles && h !in m.handles && h.control == id && h.owner == owner && h.target == m.controls[id].target
              && InHand(t.controls[id], h, m.now + ttl)
  {
    var c := m.controls[id];
    var h := Handle(id, c.target, c.attempts + 1, owner, c.claimFence + 1);
    assert IsNewHandle(m, owner, batch, h);
    forall k | k in m.handles ensures k != h { assert HandleOk(m, k); }
    assert InHand(t.controls[id], h, m.now + ttl);
  }

  /** A pending command keeps its row until it is routed or selected again. */
  lemma {:induction false} PendingStays(states: seq<Mail>, actions: seq<Action>, i: nat, j: nat, id: Id)
    requires RunBy(states, actions) && i <= j < |states| && id in states[i].controls && states[i].controls[id].status == Pending
    requires forall k | i <= k < j :: !Handles(actions[k], id)
    ensures id in states[j].controls && states[j].controls[id] == states[i].controls[id]
    decreases j
  {
    hide Inv, Law, Next, Enabled, StepBy, Handles;
    if i < j {
      PendingStays(states, actions, i, j - 1, id);
      RunIsLawful(states, actions, j - 1);
      PendingStep(states[j - 1], actions[j - 1], states[j], id);
    }
  }

  lemma {:induction false} PendingStep(m: Mail, a: Action, t: Mail, id: Id)
    requires Law(m, a, t) && id in m.controls && m.controls[id].status == Pending && !Handles(a, id)
    ensures id in t.controls && t.controls[id] == m.controls[id]
  {
    hide TakesTheFirst, TakenRow, RoutedAnew, IsNewHandle, SameCommand, PointsAtHolder, DelayAfter;
  }
}
