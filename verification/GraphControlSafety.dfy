/**
 What the two fences guarantee over every run: at most one delivery is honoured, a lost one
 never returns, and a command is applied at most once, under a lease its graph really had.
 */
module GraphControlSafety {
  import opened Backoff
  import opened Ordering
  import opened GraphControl

  ghost predicate GraphOk(m: Mail, g: Id)
    requires g in m.graphs
  {
    var graph := m.graphs[g];
    && (graph.owner.Some? ==> Lease(g, graph.owner.value, graph.fence) in m.leases)
    && (graph.owner.Some? <==> graph.expires.Some?)
  }

  ghost predicate LeaseOk(m: Mail, l: Lease) {
    l.graph in m.graphs && 1 <= l.fence <= m.graphs[l.graph].fence
  }

  predicate Leased(m: Mail, graph: Id, target: Option<Target>) {
    target.Some? ==> Lease(graph, target.value.owner, target.value.fence) in m.leases
  }

  ghost predicate ControlOk(m: Mail, id: Id)
    requires id in m.controls
  {
    var c := m.controls[id];
    && Leased(m, c.graph, c.target)
    && (c.status == Processing ==> c.claimOwner.Some? && c.claimExpires.Some?)
    && (c.status == Applied ==> c.claimOwner.Some? && c.claimExpires == None && c.target.Some? && c.appliedFence == Some(c.target.value.fence))
    && (c.status != Applied ==> c.appliedFence == None)
    && (c.status == Processing || c.status == Applied ==>
          Handle(id, c.target, c.attempts, c.claimOwner.value, c.claimFence) in m.handles)
    && (c.status == Pending || c.status == Superseded ==> c.claimOwner == None)
  }

  ghost predicate HandleOk(m: Mail, h: Handle) {
    && h.control in m.controls
    && h.target.Some? && h.target.value.owner == h.owner
    && Leased(m, m.controls[h.control].graph, h.target)
    && 1 <= h.fence <= m.controls[h.control].claimFence
  }

  ghost predicate Inv(m: Mail) {
    && (forall g | g in m.graphs :: GraphOk(m, g))
    && (forall l | l in m.leases :: LeaseOk(m, l))
    && (forall l, k | l in m.leases && k in m.leases && l.graph == k.graph && l.fence == k.fence :: l == k)
    && (forall id | id in m.controls :: ControlOk(m, id))
    && (forall h | h in m.handles :: HandleOk(m, h))
    && (forall h, k | h in m.handles && k in m.handles && h.control == k.control && h.fence == k.fence :: h == k)
  }

  // ---------- steps on the graph lease ----------

  /** A step that touches graphs only, and only by adding leases and raising fences. */
  ghost predicate GraphStep(m: Mail, t: Mail, g: Id) {
    && g in t.graphs && t.controls == m.controls && t.handles == m.handles && m.leases <= t.leases
    && t.graphs == m.graphs[g := t.graphs[g]]
    && (g in m.graphs ==> m.graphs[g].fence <= t.graphs[g].fence)
    && (forall l | l in t.leases && l !in m.leases :: l.graph == g && l.fence == t.graphs[g].fence && l.fence >= 1
                                                       && (g in m.graphs ==> l.fence > m.graphs[g].fence))
    && (forall l, k | l in t.leases && k in t.leases && l !in m.leases && k !in m.leases :: l == k)
    && GraphOk(t, g)
  }

  lemma {:induction false} GraphStepKeepsInv(m: Mail, t: Mail, g: Id)
    requires Inv(m) && GraphStep(m, t, g)
    ensures Inv(t)
  {
    forall o | o in t.graphs ensures GraphOk(t, o) { if o != g { assert GraphOk(m, o); } }
    forall l | l in t.leases ensures LeaseOk(t, l) { if l in m.leases { assert LeaseOk(m, l); } }
    forall id | id in t.controls ensures ControlOk(t, id) { assert ControlOk(m, id); }
    forall h | h in t.handles ensures HandleOk(t, h) { assert HandleOk(m, h); }
    forall l, k | l in t.leases && k in t.leases && l.graph == k.graph && l.fence == k.fence ensures l == k {
      if l in m.leases { assert LeaseOk(m, l); }
      if k in m.leases { assert LeaseOk(m, k); }
    }
  }

  lemma {:induction false} LeaseStepsKeepInv(m: Mail, a: Action)
    requires Inv(m) && (a.AcquireGraph? || a.RenewGraph? || a.ReleaseGraph? || a.CreateGraph?)
    ensures Inv(Next(m, a))
  {
    var t := Next(m, a);
    if t != m {
      hide Inv;
      if a.graph in m.graphs { assert GraphOk(m, a.graph) by { InvGraph(m, a.graph); } }
      GraphStepKeepsInv(m, t, a.graph);
    }
  }

  lemma {:induction false} InvGraph(m: Mail, g: Id)
    requires Inv(m) && g in m.graphs
    ensures GraphOk(m, g)
  {
  }

  lemma {:induction false} LiveTargetIsLeased(m: Mail, g: Id)
    requires Inv(m) && g in m.graphs
    ensures Leased(m, g, LiveTarget(m.graphs[g], m.now))
  {
    assert GraphOk(m, g);
  }

  // ---------- steps on the mailbox ----------

  /** A step that touches controls and handles only, row by row. */
  ghost predicate MailStep(m: Mail, t: Mail) {
    && t.graphs == m.graphs && t.leases == m.leases && m.handles <= t.handles
    && m.controls.Keys <= t.controls.Keys
    && (forall id | id in m.controls :: t.controls[id].graph == m.controls[id].graph && m.controls[id].claimFence <= t.controls[id].claimFence)
    && (forall h | h in t.handles && h !in m.handles ::
          HandleOk(t, h) && h.control in m.controls && h.fence > m.controls[h.control].claimFence)
    && (forall h, k | h in t.handles && k in t.handles && h !in m.handles && k !in m.handles && h.control == k.control :: h == k)
  }

  lemma {:induction false} MailStepKeepsInv(m: Mail, t: Mail)
    requires Inv(m) && MailStep(m, t)
    requires forall id | id in t.controls :: ControlOk(t, id)
    ensures Inv(t)
  {
    forall g | g in t.graphs ensures GraphOk(t, g) { assert GraphOk(m, g); }
    forall l | l in t.leases ensures LeaseOk(t, l) { assert LeaseOk(m, l); }
    forall h | h in t.handles ensures HandleOk(t, h) { if h in m.handles { assert HandleOk(m, h); } }
    forall h, k | h in t.handles && k in t.handles && h.control == k.control && h.fence == k.fence ensures h == k {
      if h in m.handles { assert HandleOk(m, h); }
      if k in m.handles { assert HandleOk(m, k); }
    }
  }

  lemma {:induction false} RequestKeepsInv(m: Mail, id: Id, graph: Id)
    requires Inv(m)
    ensures Inv(Request(m, id, graph))
  {
    var t := Request(m, id, graph);
    forall o | o in t.controls ensures ControlOk(t, o) {
      if o in m.controls { assert ControlOk(m, o); } else { LiveTargetIsLeased(m, graph); }
    }
    MailStepKeepsInv(m, t);
  }

  lemma {:induction false} RouteKeepsInv(m: Mail, limit: nat, batch: seq<Id>)
    requires Inv(m) && IsFirst(RouteKeys(m.controls, m.now), batch, limit)
    ensures Inv(Route(m, batch))
  {
    var t := Route(m, batch);
    forall o | o in t.controls ensures ControlOk(t, o) {
      assert ControlOk(m, o);
      if o in batch && m.controls[o].graph in m.graphs { LiveTargetIsLeased(m, m.controls[o].graph); }
    }
    MailStepKeepsInv(m, t);
  }

  lemma {:induction false} ClaimedControlOk(m: Mail, owner: Id, ttl: nat, limit: nat, batch: seq<Id>, id: Id)
    requires IsFirst(ClaimKeys(m.controls, m.now, owner), batch, limit) && id in m.controls && ControlOk(m, id)
    ensures ControlOk(ClaimFor(m, owner, ttl, batch), id)
  {
    if Claims(m, batch, owner, id) { assert HandleOf(m, id, owner) in ClaimFor(m, owner, ttl, batch).handles; }
  }

  lemma {:induction false} NewHandleOk(m: Mail, owner: Id, ttl: nat, limit: nat, batch: seq<Id>, id: Id)
    requires IsFirst(ClaimKeys(m.controls, m.now, owner), batch, limit) && Claims(m, batch, owner, id) && ControlOk(m, id)
    ensures HandleOk(ClaimFor(m, owner, ttl, batch), HandleOf(m, id, owner))
  {
  }

  lemma {:induction false} ClaimKeepsInv(m: Mail, owner: Id, ttl: nat, limit: nat, batch: seq<Id>)
    requires Inv(m) && IsFirst(ClaimKeys(m.controls, m.now, owner), batch, limit)
    ensures Inv(ClaimFor(m, owner, ttl, batch))
  {
    var t := ClaimFor(m, owner, ttl, batch);
    forall o | o in t.controls ensures ControlOk(t, o) { ClaimedControlOk(m, owner, ttl, limit, batch, o); }
    forall h | h in t.handles && h !in m.handles
      ensures HandleOk(t, h) && h.control in m.controls && h.fence > m.controls[h.control].claimFence
    {
      var id :| id in m.controls && Claims(m, batch, owner, id) && h == HandleOf(m, id, owner);
      NewHandleOk(m, owner, ttl, limit, batch, id);
    }
    hide ControlOk, HandleOk, GraphOk, LeaseOk, IsFirst, Inv;
    MailStepKeepsInv(m, t);
  }

  /** An honoured handle is the row's own claim. */
  lemma {:induction false} HonouredIsCurrent(m: Mail, h: Handle)
    requires Inv(m) && h in m.handles && Honours(m, h)
    ensures h == Handle(h.control, m.controls[h.control].target, m.controls[h.control].attempts, h.owner, m.controls[h.control].claimFence)
    ensures h.target.Some? && Leased(m, m.controls[h.control].graph, h.target)
  {
    assert ControlOk(m, h.control) && HandleOk(m, h);
  }

  lemma {:induction false} UseKeepsInv(m: Mail, t: Mail, h: Handle)
    requires Inv(m) && h in m.handles && Honours(m, h)
    requires h.control in t.controls && t == m.(controls := m.controls[h.control := t.controls[h.control]])
    requires t.controls[h.control].graph == m.controls[h.control].graph && t.controls[h.control].claimFence == m.controls[h.control].claimFence
    requires ControlOk(t, h.control)
    ensures Inv(t)
  {
    forall o | o in t.controls ensures ControlOk(t, o) { if o != h.control { assert ControlOk(m, o); } }
    MailStepKeepsInv(m, t);
  }

  lemma {:induction false} ClaimUsesKeepInv(m: Mail, a: Action)
    requires Inv(m) && Enabled(m, a) && (a.Renew? || a.Apply? || a.GiveBack?)
    ensures Inv(Next(m, a))
  {
    if Honours(m, a.handle) {
      HonouredIsCurrent(m, a.handle);
      assert ControlOk(m, a.handle.control);
      hide Inv;
      assert ControlOk(Next(m, a), a.handle.control);
      UseKeepsInv(m, Next(m, a), a.handle);
    }
  }

  lemma {:induction false} AdvanceKeepsInv(m: Mail, milliseconds: nat)
    requires Inv(m)
    ensures Inv(m.(now := m.now + milliseconds))
  {
    var t := m.(now := m.now + milliseconds);
    forall o | o in t.controls ensures ControlOk(t, o) { assert ControlOk(m, o); }
    MailStepKeepsInv(m, t);
  }

  lemma {:induction false} StepKeepsInv(m: Mail, a: Action)
    requires Inv(m) && Enabled(m, a)
    ensures Inv(Next(m, a))
  {
    hide Inv;
    match a
    case Advance(milliseconds) => AdvanceKeepsInv(m, milliseconds);
    case RequestCancel(id, graph) => RequestKeepsInv(m, id, graph);
    case RoutePending(limit, batch) => RouteKeepsInv(m, limit, batch);
    case ClaimForOwner(owner, ttl, limit, batch) => ClaimKeepsInv(m, owner, ttl, limit, batch);
    case Renew(_, _) => ClaimUsesKeepInv(m, a);
    case Apply(_) => ClaimUsesKeepInv(m, a);
    case GiveBack(_, _, _) => ClaimUsesKeepInv(m, a);
    case _ => LeaseStepsKeepInv(m, a);
  }

  // ---------- runs ----------

  ghost predicate Step(m: Mail, t: Mail) {
    exists a :: Enabled(m, a) && t == Next(m, a)
  }

  ghost predicate Run(states: seq<Mail>) {
    && |states| > 0
    && (exists now :: states[0] == Initial(now))
    && (forall i | 0 <= i < |states| - 1 :: Step(states[i], states[i + 1]))
  }

  lemma {:induction false} RunKeepsInv(states: seq<Mail>, n: nat)
    requires Run(states) && n < |states|
    ensures Inv(states[n])
  {
    hide Next, Enabled;
    if n > 0 {
      RunKeepsInv(states, n - 1);
      assert Step(states[n - 1], states[n - 1 + 1]);
      var a :| Enabled(states[n - 1], a) && states[n] == Next(states[n - 1], a);
      StepKeepsInv(states[n - 1], a);
    }
  }

  /** At most one delivery of a command can renew, apply or give back at any time. */
  lemma {:induction false} OneHonouredHandle(states: seq<Mail>, n: nat, h: Handle, k: Handle)
    requires Run(states) && n < |states|
    requires h in states[n].handles && k in states[n].handles && h.control == k.control
    requires Honours(states[n], h) && Honours(states[n], k)
    ensures h == k
  {
    RunKeepsInv(states, n);
  }

  /** What one step may do to a command's row. */
  lemma {:induction false} RowAfterStep(m: Mail, a: Action, id: Id)
    requires Inv(m) && Enabled(m, a) && id in m.controls
    ensures var t := Next(m, a);
            && id in t.controls && m.handles <= t.handles && m.leases <= t.leases && m.now <= t.now
            && t.controls[id].claimFence >= m.controls[id].claimFence
            && t.controls[id].graph == m.controls[id].graph
            && (m.controls[id].status == Applied ==> t.controls[id] == m.controls[id])
  {
    hide Inv, IsFirst, LiveTarget, MatchesLiveTarget, CappedDelay;
    if a.RoutePending? {
      RowAfterRoute(m, a.limit, a.batch, id);
    } else if a.ClaimForOwner? {
      RowAfterClaim(m, a.owner, a.ttl, a.limit, a.batch, id);
    }
  }

  lemma {:induction false} RowAfterRoute(m: Mail, limit: nat, batch: seq<Id>, id: Id)
    requires IsFirst(RouteKeys(m.controls, m.now), batch, limit) && id in m.controls
    ensures var c := Route(m, batch).controls[id];
            && c.claimFence == m.controls[id].claimFence && c.graph == m.controls[id].graph
            && (m.controls[id].status == Applied ==> c == m.controls[id])
  {
    hide LiveTarget;
  }

  lemma {:induction false} RowAfterClaim(m: Mail, owner: Id, ttl: nat, limit: nat, batch: seq<Id>, id: Id)
    requires IsFirst(ClaimKeys(m.controls, m.now, owner), batch, limit) && id in m.controls
    ensures var c := ClaimFor(m, owner, ttl, batch).controls[id];
            && c.claimFence >= m.controls[id].claimFence && c.graph == m.controls[id].graph
            && (m.controls[id].status == Applied ==> c == m.controls[id])
  {
    hide MatchesLiveTarget;
  }

  /** A delivery that lost its claim, by expiry, rerouting, retry or application, never regains it. */
  lemma {:induction false} LostHandleStaysLost(m: Mail, a: Action, h: Handle)
    requires Inv(m) && Enabled(m, a) && h in m.handles && !Honours(m, h)
    ensures !Honours(Next(m, a), h)
  {
    assert HandleOk(m, h);
    assert ControlOk(m, h.control);
  }

  lemma {:induction false} LostForever(states: seq<Mail>, h: Handle, i: nat, j: nat)
    requires Run(states) && i <= j < |states| && h in states[i].handles && !Honours(states[i], h)
    ensures h in states[j].handles && !Honours(states[j], h)
    decreases j
  {
    hide Next, Enabled, Inv, Honours;
    if i < j {
      LostForever(states, h, i, j - 1);
      RunKeepsInv(states, j - 1);
      assert Step(states[j - 1], states[j - 1 + 1]);
      var a :| Enabled(states[j - 1], a) && states[j] == Next(states[j - 1], a);
      LostHandleStaysLost(states[j - 1], a, h);
      HandlesGrow(states[j - 1], a);
    }
  }

  lemma {:induction false} HandlesGrow(m: Mail, a: Action)
    ensures m.handles <= Next(m, a).handles
  {
  }

  /** The claim fence never falls, and a command once applied never changes again. */
  lemma {:induction false} AppliedIsFinal(states: seq<Mail>, id: Id, i: nat, j: nat)
    requires Run(states) && i <= j < |states| && id in states[i].controls
    ensures id in states[j].controls && states[i].controls[id].claimFence <= states[j].controls[id].claimFence
    ensures states[i].controls[id].status == Applied ==> states[j].controls[id] == states[i].controls[id]
    decreases j
  {
    hide Next, Enabled, Inv;
    if i < j {
      AppliedIsFinal(states, id, i, j - 1);
      RunKeepsInv(states, j - 1);
      assert Step(states[j - 1], states[j - 1 + 1]);
      var a :| Enabled(states[j - 1], a) && states[j] == Next(states[j - 1], a);
      RowAfterStep(states[j - 1], a, id);
    }
  }

  /**
   An applied command was applied by the newest claim on it, and the graph fence it records is
   its target's, one under which that very owner really held the graph.
   */
  lemma {:induction false} AppliedUnderARealLease(states: seq<Mail>, n: nat, id: Id)
    requires Run(states) && n < |states| && id in states[n].controls && states[n].controls[id].status == Applied
    ensures var c := states[n].controls[id];
            && c.target.Some? && c.appliedFence == Some(c.target.value.fence)
            && c.claimOwner == Some(c.target.value.owner)
            && Lease(c.graph, c.target.value.owner, c.target.value.fence) in states[n].leases
            && Handle(id, c.target, c.attempts, c.target.value.owner, c.claimFence) in states[n].handles
            && (forall h | h in states[n].handles && h.control == id :: h.fence <= c.claimFence)
  {
    RunKeepsInv(states, n);
    var c := states[n].controls[id];
    assert ControlOk(states[n], id);
    assert HandleOk(states[n], Handle(id, c.target, c.attempts, c.claimOwner.value, c.claimFence));
    forall h | h in states[n].handles && h.control == id ensures h.fence <= c.claimFence { assert HandleOk(states[n], h); }
  }

  /** No two owners ever hold one graph under one fence, and no lease runs ahead of its graph. */
  lemma {:induction false} LeasesAreGenerations(states: seq<Mail>, n: nat, l: Lease, k: Lease)
    requires Run(states) && n < |states| && l in states[n].leases && k in states[n].leases && l.graph == k.graph
    ensures l.fence == k.fence ==> l == k
    ensures l.graph in states[n].graphs && l.fence <= states[n].graphs[l.graph].fence
  {
    RunKeepsInv(states, n);
    assert LeaseOk(states[n], l);
  }

  /** A claim is only handed to the owner the graph answers to at that moment, under its live fence. */
  lemma {:induction false} ClaimsGoToTheLiveOwner(m: Mail, owner: Id, ttl: nat, limit: nat, batch: seq<Id>, h: Handle)
    requires Inv(m) && Enabled(m, ClaimForOwner(owner, ttl, limit, batch))
    requires h in ClaimFor(m, owner, ttl, batch).handles && h !in m.handles
    ensures h.owner == owner && h.control in m.controls && m.controls[h.control].graph in m.graphs
    ensures h.target == LiveTarget(m.graphs[m.controls[h.control].graph], m.now) == Some(Target(owner, h.target.value.fence))
    ensures m.controls[h.control].status == Pending && ttl > 0 ==> Honours(ClaimFor(m, owner, ttl, batch), h)
  {
    var id :| id in m.controls && Claims(m, batch, owner, id) && h == HandleOf(m, id, owner);
    assert id in ClaimKeys(m.controls, m.now, owner);
  }

  /**
   Routing leaves nothing stuck: each routed command is pending for exactly the live owner of
   its graph, or for nobody when the graph has none.
   */
  lemma {:induction false} RoutingTargetsTheLiveOwner(m: Mail, limit: nat, batch: seq<Id>, id: Id)
    requires Inv(m) && Enabled(m, RoutePending(limit, batch))
    requires id in m.controls && m.controls[id].graph in m.graphs && Routable(m.controls[id], m.now)
    requires id in batch || |batch| < limit
    ensures var c := Route(m, batch).controls[id];
            && c.status == Pending && c.claimOwner == None && c.appliedFence == None
            && c.target == LiveTarget(m.graphs[c.graph], m.now)
            && c.claimFence == m.controls[id].claimFence
  {
    assert id in RouteKeys(m.controls, m.now);
    assert ControlOk(m, id);
  }
}
