/**
 What the saga guarantees: the store is always the moves applied and not undone, a full
 compensation restores it, every run ends, and every checkpoint continues the same run.
 */
module SagaProofs {
  import opened Ordering
  import opened Saga

  // ---------- moves and their inverses ----------

  /** A possible move is undone by its reverse, which is possible at the same version. */
  lemma {:induction false} MoveRoundTrip(w: World, op: Operation, version: Version)
    requires CanMove(w, op, version)
    ensures CanMove(Move(w, op), Reverse(op), version) && Move(Move(w, op), Reverse(op)) == w
  {
  }

  /** How many moves are applied and not undone: a node counts from its success until its undoing. */
  function Live(s: Saga): nat {
    if s.rt.mode == Forward then s.rt.index + (if s.rt.stage >= 7 then 1 else 0)
    else s.rt.index + (if s.rt.stage >= 7 then 0 else 1)
  }

  function Onward(k: nat): seq<Moved> {
    if k == 0 then [] else Onward(k - 1) + [Moved(k - 1, Forward)]
  }

  /** Moves top - 1 down to live, undone. */
  function Backward(top: nat, live: nat): seq<Moved>
    requires live <= top
    decreases top - live
  {
    if live == top then [] else Backward(top, live + 1) + [Moved(live, Compensating)]
  }

  // ---------- the invariant ----------

  ghost predicate Feasible(w: World, ops: seq<Operation>, receipts: map<nat, Version>, top: nat)
    requires top <= |ops|
  {
    forall j | 0 <= j < top :: j in receipts && CanMove(After(w, ops, j), ops[j], receipts[j])
  }

  function Expected(s: Saga, j: nat): NodeStatus {
    if s.rt.mode == Forward then
      if j < s.rt.index then Succeeded
      else if j > s.rt.index || s.rt.stage <= 3 then Pending
      else if s.rt.stage <= 6 then Active else Succeeded
    else
      if j < s.rt.index then Succeeded
      else if j == s.rt.index then (if s.rt.stage <= 3 then Succeeded else if s.rt.stage <= 6 then Undoing else Compensated)
      else if j < s.top then Compensated
      else if j == s.top then Failed else Pending
  }

  ghost predicate Statuses(s: Saga) {
    forall j | 0 <= j < |s.svc.status| :: s.svc.status[j] == Expected(s, j)
  }

  /** Where the saga stands: forward, everything before the node applied; going back, everything from the failed node on settled. */
  ghost predicate Placed(s: Saga) {
    && Shaped(s) && s.rt.node == s.nodes[s.rt.index]
    && (forall i, j | 0 <= i < j < |s.nodes| :: s.nodes[i] != s.nodes[j])
    && if s.rt.mode == Forward then s.top == Live(s) <= |s.ops| else s.rt.index < s.top < |s.ops|
  }

  /** The failed node is named exactly while going back. */
  predicate Named(s: Saga)
    requires s.top <= |s.nodes|
  {
    if s.rt.mode == Forward then s.rt.failure == None else s.top < |s.nodes| && s.rt.failure == Some(s.nodes[s.top])
  }

  /** The store is the fold of the moves applied and not undone, and the log tells in which order. */
  ghost predicate StoreOk(w: World, s: Saga)
    requires Shaped(s) && s.top <= |s.ops| && Live(s) <= s.top
  {
    && Feasible(w, s.ops, s.svc.receipts, s.top)
    && s.world == After(w, s.ops, Live(s))
    && s.log == Onward(s.top) + Backward(s.top, Live(s))
  }

  /** No decision is carried over; from the request to the dispatch the call holds the version it will be checked against. */
  ghost predicate Prepared(s: Saga)
    requires Shaped(s)
  {
    && (s.rt.stage <= 5 ==> s.rt.policy == None && s.rt.approval == None)
    && (s.rt.stage >= 5 ==>
      && s.rt.args == Some(CurrentMove(s)) && s.rt.key.Some? && s.rt.versions.Some? && s.rt.resources == s.rt.versions
      && (s.rt.stage <= 6 ==> CurrentMove(s).source in s.world && s.world[CurrentMove(s).source] == s.rt.versions.value))
  }

  ghost predicate Bound(s: Saga) {
    && s.rt.attempt == AttemptId(s.rt.node, s.rt.mode) && s.rt.call == CallId(s.rt.node, s.rt.mode)
    && s.svc.mode == s.rt.mode && s.svc.saved == Some(CheckpointOf(s.rt)) && s.svc.bound == s.svc.events
    && CallAgrees(s.svc, CheckpointOf(s.rt)) && PolicyAgrees(s.svc, CheckpointOf(s.rt))
  }

  ghost predicate Running(s: Saga) {
    && (s.progress == Going ==> 3 <= s.rt.stage <= 8 && s.svc.task == TaskRunning)
    && (s.progress == Waiting ==> s.rt.stage == 6 && s.svc.task == TaskWaitingApproval)
    && (s.rt.stage == 8 ==> s.rt.mode == Forward && s.rt.index + 1 == |s.ops|)
  }

  ghost predicate Inv(w: World, s: Saga) {
    && Placed(s)
    && s.progress != Ended(ProcessingFailed)
    && (s.progress != Ended(OutcomeUnknown) ==> StoreOk(w, s))
    && (s.progress == Going || s.progress == Waiting ==> Named(s) && Statuses(s) && Prepared(s) && Bound(s) && Running(s))
    && (s.progress == Ended(SagaCompensated) ==> Named(s) && Statuses(s) && s.rt.mode == Compensating && Live(s) == 0 && s.svc.graph == GraphCompensated)
    && (s.progress == Ended(SagaForwardFailed) || s.progress == Ended(PolicyDenied) ==>
          s.rt.mode == Forward && s.rt.index == 0 && s.rt.stage <= 6)
    && (s.progress == Ended(Completed) ==> Statuses(s) && s.rt.mode == Forward && Live(s) == |s.ops|)
  }

  lemma {:induction false} InitialInv(ops: seq<Operation>, nodes: seq<Id>, w: World)
    requires |ops| == |nodes| >= 1 && forall i, j | 0 <= i < j < |nodes| :: nodes[i] != nodes[j]
    ensures Inv(w, Initial(ops, nodes, w))
  {
  }

  // ---------- what each stage keeps ----------

  /** Turning back leaves the store alone: the node before the failed one is the last applied. */
  lemma {:induction false} TurnBackKeepsInv(w: World, s: Saga, t: Saga)
    requires Inv(w, s) && s.progress == Going && s.rt.mode == Forward && 3 < s.rt.stage <= 6 && s.rt.index > 0
    requires t.ops == s.ops && t.nodes == s.nodes && t.world == s.world && t.log == s.log && t.top == s.top && t.progress == Going
    requires t.rt.index == s.rt.index && t.rt.failure == Some(s.rt.node)
    requires t.svc.status == s.svc.status[s.rt.index := Failed] && t.svc.mode == Compensating && t.svc.task == TaskRunning
    requires t.svc.receipts == s.svc.receipts
    ensures Inv(w, TurnBack(t))
  {
    hide After, Onward, Backward, Feasible;
    var u := TurnBack(t);
    forall j | 0 <= j < |u.svc.status| ensures u.svc.status[j] == Expected(u, j) {
      assert s.svc.status[j] == Expected(s, j);
    }
  }

  /** Ending the task where it stands keeps the store's account. */
  lemma {:induction false} EndKeepsInv(w: World, s: Saga, t: Saga)
    requires Inv(w, s) && (s.progress == Going || s.progress == Waiting) && s.rt.stage <= 6
    requires t.progress.Ended? && t.progress.ending !in {Completed, SagaCompensated, ProcessingFailed}
    requires t.ops == s.ops && t.nodes == s.nodes && t.top == s.top && |t.svc.status| == |s.svc.status|
    requires t.progress != Ended(OutcomeUnknown) ==> t.world == s.world && t.log == s.log && t.svc.receipts == s.svc.receipts
    requires t.rt.index == s.rt.index && t.rt.node == s.rt.node && t.rt.mode == s.rt.mode && t.rt.stage == s.rt.stage
    requires t.progress.ending == SagaForwardFailed || t.progress.ending == PolicyDenied ==> s.rt.mode == Forward && s.rt.index == 0
    ensures Inv(w, t)
  {
    hide After, Onward, Backward, Feasible;
  }

  /** The rows as a failing transition leaves them, as far as the invariant reads them. */
  predicate Failing(s: Saga, svc: Service)
    requires Shaped(s)
  {
    && svc.status == FailNode(s).svc.status && svc.mode == FailNode(s).svc.mode
    && svc.receipts == s.svc.receipts && svc.task == TaskRunning
  }

  /** A failed node, whatever failed it: turn back if there is something to undo, else end. */
  lemma {:induction false} FailureKeepsInv(w: World, s: Saga, f: Saga, denied: bool)
    requires Inv(w, s) && s.progress == Going && 4 <= s.rt.stage <= 6
    requires f.ops == s.ops && f.nodes == s.nodes && f.world == s.world && f.log == s.log && f.top == s.top && f.progress == Going
    requires f.rt.index == s.rt.index && f.rt.node == s.rt.node && f.rt.mode == s.rt.mode && f.rt.stage == s.rt.stage
    requires Shaped(s) && Failing(s, f.svc)
    ensures Inv(w, AfterFailure(f, denied))
  {
    hide Inv;
    InvMeans(w, s);
    if s.rt.mode == Forward && s.rt.index > 0 {
      TurnBackKeepsInv(w, s, f.(rt := f.rt.(failure := Some(f.rt.node))));
    } else {
      EndKeepsInv(w, s, AfterFailure(f, denied));
    }
  }

  lemma {:induction false} PreDispatchKeepsInv(w: World, s: Saga, t: Saga)
    requires Inv(w, s) && s.progress == Going && s.rt.stage == 4
    requires t == s.(rt := t.rt) && t.rt == s.rt.(args := t.rt.args, resources := t.rt.resources)
    ensures Inv(w, PreDispatchFailure(t))
  {
    hide Inv;
    InvMeans(w, s);
    FailureKeepsInv(w, s, Logged(FailNode(t), 1), false);
  }

  lemma {:induction false} InvMeans(w: World, s: Saga)
    requires Inv(w, s)
    ensures Placed(s)
    ensures s.progress != Ended(OutcomeUnknown) ==> StoreOk(w, s)
    ensures s.progress == Going || s.progress == Waiting ==> Named(s) && Statuses(s) && Prepared(s) && Bound(s) && Running(s)
  {
  }

  lemma {:induction false} RequestKeepsInv(w: World, s: Saga, version: Version, key: Id)
    requires Inv(w, s) && s.progress == Going && s.rt.stage == 4
    requires CurrentMove(s).source in s.world && s.world[CurrentMove(s).source] == version
    ensures var u := s.(rt := s.rt.(args := Some(CurrentMove(s)), resources := Some(version), versions := Some(version), key := Some(key)));
            Inv(w, Proceed(CallRequested(u), 5))
  {
    hide After, Onward, Backward, Feasible;
  }

  lemma {:induction false} FeasibleAt(w: World, ops: seq<Operation>, receipts: map<nat, Version>, top: nat, j: nat)
    requires top <= |ops| && Feasible(w, ops, receipts, top) && j < top
    ensures j in receipts && CanMove(After(w, ops, j), ops[j], receipts[j])
    ensures After(w, ops, j + 1) == Move(After(w, ops, j), ops[j])
  {
  }

  lemma {:induction false} StoreMeans(w: World, s: Saga)
    requires Shaped(s) && s.top <= |s.ops| && Live(s) <= s.top && StoreOk(w, s)
    ensures Feasible(w, s.ops, s.svc.receipts, s.top) && s.world == After(w, s.ops, Live(s))
    ensures s.log == Onward(s.top) + Backward(s.top, Live(s))
  {
  }

  lemma {:induction false} StoreSame(w: World, s: Saga, t: Saga)
    requires Shaped(s) && s.top <= |s.ops| && Live(s) <= s.top && StoreOk(w, s)
    requires Shaped(t) && t.ops == s.ops && t.top == s.top && Live(t) == Live(s)
    requires t.world == s.world && t.log == s.log && t.svc.receipts == s.svc.receipts
    ensures StoreOk(w, t)
  {
  }

  lemma {:induction false} StartNodeStatuses(s: Saga)
    requires Placed(s) && Named(s) && Statuses(s) && Running(s) && s.progress == Going && s.rt.stage == 3
    ensures var t := StartNode(s); Placed(t) && Named(t) && Statuses(t) && Running(t) && t.progress == Going && Live(t) == Live(s)
    ensures var t := StartNode(s);
            t.rt == Cleared(s.rt).(stage := 4) && t.svc.saved == Some(CheckpointOf(t.rt)) && t.svc.bound == t.svc.events && t.svc.mode == t.rt.mode
    ensures var t := StartNode(s); t.ops == s.ops && t.top == s.top && t.world == s.world && t.log == s.log && t.svc.receipts == s.svc.receipts
  {
    assert s.svc.status[s.rt.index] == Expected(s, s.rt.index);
    var t := StartNode(s);
    forall j | 0 <= j < |t.svc.status| ensures t.svc.status[j] == Expected(t, j) { assert s.svc.status[j] == Expected(s, j); }
  }

  lemma {:induction false} StartNodeKeepsInv(w: World, s: Saga)
    requires Inv(w, s) && s.progress == Going && s.rt.stage == 3
    ensures Inv(w, StartNode(s))
  {
    hide StoreOk, Statuses, Running, StartNode, Named;
    InvMeans(w, s);
    StartNodeStatuses(s);
    StoreSame(w, s, StartNode(s));
  }

  /** While going back, the reverse of the current move is possible at the version its receipt recorded, and leads one step back. */
  lemma {:induction false} ReceiptKnown(w: World, s: Saga)
    requires Inv(w, s) && s.progress == Going && s.rt.mode == Compensating
    ensures s.rt.index in s.svc.receipts
    ensures s.rt.stage <= 6 ==> CanMove(s.world, CurrentMove(s), s.svc.receipts[s.rt.index])
    ensures s.rt.stage <= 6 ==> Move(s.world, CurrentMove(s)) == After(w, s.ops, s.rt.index)
  {
    hide Inv, Feasible, StoreOk, Statuses, Prepared, Bound, Running, CanMove, Move, After, Onward, Backward;
    InvMeans(w, s);
    StoreMeans(w, s);
    var i := s.rt.index;
    FeasibleAt(w, s.ops, s.svc.receipts, s.top, i);
    MoveRoundTrip(After(w, s.ops, i), s.ops[i], s.svc.receipts[i]);
  }

  lemma {:induction false} PrepareKeepsInv(w: World, s: Saga, input: Input)
    requires Inv(w, s) && s.progress == Going && s.rt.stage == 4
    ensures Inv(w, Prepare(s, input))
  {
    hide Inv;
    InvMeans(w, s);
    if s.rt.mode == Compensating { ReceiptKnown(w, s); }
    var op := CurrentMove(s);
    var t := s.(rt := s.rt.(args := Some(op)));
    if !input.projects || op.source !in s.world {
      PreDispatchKeepsInv(w, s, t);
    } else {
      var u := t.(rt := t.rt.(resources := Some(s.world[op.source])));
      if s.rt.mode == Compensating && s.world[op.source] != s.svc.receipts[s.rt.index] {
        PreDispatchKeepsInv(w, s, u);
      } else {
        RequestKeepsInv(w, s, s.world[op.source], input.key);
      }
    }
  }

  lemma {:induction false} DecisionBinds(s: Saga, input: Input)
    requires Placed(s) && Named(s) && Prepared(s) && Bound(s) && Running(s) && s.progress == Going && s.rt.stage == 5 && input.effect != Deny
    ensures var t := Authorize(s, input); Bound(t) && Running(t)
  {
    hide Statuses, CanMove;
  }

  lemma {:induction false} DecisionStays(s: Saga, input: Input)
    requires Placed(s) && Named(s) && Statuses(s) && Prepared(s) && s.progress == Going && s.rt.stage == 5 && input.effect != Deny
    ensures var t := Authorize(s, input); Placed(t) && Named(t) && Statuses(t) && Prepared(t) && Live(t) == Live(s)
    ensures var t := Authorize(s, input);
            t.ops == s.ops && t.top == s.top && t.world == s.world && t.log == s.log && t.svc.receipts == s.svc.receipts && !t.progress.Ended?
  {
    var t := Authorize(s, input);
    forall j | 0 <= j < |t.svc.status| ensures t.svc.status[j] == Expected(t, j) { assert s.svc.status[j] == Expected(s, j); }
    hide Expected, CanMove;
  }

  lemma {:induction false} DecisionKeepsInv(w: World, s: Saga, input: Input)
    requires Inv(w, s) && s.progress == Going && s.rt.stage == 5 && input.effect != Deny
    ensures Inv(w, Authorize(s, input))
  {
    hide StoreOk, Statuses, Prepared, Bound, Running, Authorize;
    InvMeans(w, s);
    DecisionBinds(s, input);
    DecisionStays(s, input);
    StoreSame(w, s, Authorize(s, input));
  }

  lemma {:induction false} AuthorizeKeepsInv(w: World, s: Saga, input: Input)
    requires Inv(w, s) && s.progress == Going && s.rt.stage == 5
    ensures Inv(w, Authorize(s, input))
  {
    hide Inv;
    InvMeans(w, s);
    if input.effect == Deny {
      FailureKeepsInv(w, s, Logged(FailNode(Decided(s, Deny)), 1), true);
    } else {
      DecisionKeepsInv(w, s, input);
    }
  }

  lemma {:induction false} ApproveKeepsInv(w: World, s: Saga)
    requires Inv(w, s) && s.progress == Waiting
    ensures Inv(w, Approve(s))
  {
    hide After, Onward, Backward, Feasible;
  }

  lemma {:induction false} AfterStep(w: World, ops: seq<Operation>, i: nat)
    requires i < |ops|
    ensures After(w, ops, i + 1) == Move(After(w, ops, i), ops[i])
  {
  }

  lemma {:induction false} OnwardStep(k: nat)
    ensures Onward(k + 1) == Onward(k) + [Moved(k, Forward)]
  {
  }

  lemma {:induction false} FeasibleGrows(w: World, ops: seq<Operation>, receipts: map<nat, Version>, top: nat, version: Version)
    requires top < |ops| && Feasible(w, ops, receipts, top) && CanMove(After(w, ops, top), ops[top], version)
    ensures Feasible(w, ops, receipts[top := version], top + 1)
    ensures After(w, ops, top + 1) == Move(After(w, ops, top), ops[top])
    ensures Onward(top + 1) == Onward(top) + [Moved(top, Forward)]
  {
    hide After, CanMove, Move, Onward;
    AfterStep(w, ops, top);
    OnwardStep(top);
    forall j | 0 <= j < top + 1
      ensures j in receipts[top := version] && CanMove(After(w, ops, j), ops[j], receipts[top := version][j])
    {
      if j < top { FeasibleAt(w, ops, receipts, top, j); }
    }
  }

  lemma {:induction false} CommitForwardKeepsStore(w: World, s: Saga)
    requires Placed(s) && StoreOk(w, s) && Prepared(s) && s.rt.stage == 6 && s.rt.mode == Forward
    requires CanMove(s.world, s.ops[s.rt.index], s.rt.versions.value)
    ensures var t := Proceed(Committed(Started(s)), 7); Placed(t) && StoreOk(w, t)
  {
    hide Feasible, After, CanMove, Move, Onward;
    StoreMeans(w, s);
    FeasibleGrows(w, s.ops, s.svc.receipts, s.top, s.rt.versions.value);
  }

  lemma {:induction false} CommitReverseKeepsStore(w: World, s: Saga)
    requires Placed(s) && StoreOk(w, s) && Prepared(s) && s.rt.stage == 6 && s.rt.mode == Compensating
    requires Move(s.world, CurrentMove(s)) == After(w, s.ops, s.rt.index)
    ensures var t := Proceed(Committed(Started(s)), 7); Placed(t) && StoreOk(w, t)
  {
    hide Feasible, After, CanMove, Move, Onward;
    StoreMeans(w, s);
    var i := s.rt.index;
    assert Onward(s.top) + Backward(s.top, i) == (Onward(s.top) + Backward(s.top, i + 1)) + [Moved(i, Compensating)];
  }

  lemma {:induction false} CommitKeepsStatuses(s: Saga)
    requires Placed(s) && Named(s) && Statuses(s) && Prepared(s) && Running(s) && s.progress == Going && s.rt.stage == 6
    ensures var t := Proceed(Committed(Started(s)), 7); Named(t) && Statuses(t) && Running(t)
  {
    var t := Proceed(Committed(Started(s)), 7);
    forall j | 0 <= j < |t.svc.status| ensures t.svc.status[j] == Expected(t, j) { assert s.svc.status[j] == Expected(s, j); }
    hide Move;
  }

  lemma {:induction false} CommitBinds(s: Saga)
    requires Placed(s) && Prepared(s) && Bound(s) && Running(s) && s.progress == Going && s.rt.stage == 6
    ensures var t := Proceed(Committed(Started(s)), 7); Prepared(t) && Bound(t)
  {
    hide Move, Statuses;
  }

  lemma {:induction false} CommitKeepsInv(w: World, s: Saga)
    requires Inv(w, s) && s.progress == Going && s.rt.stage == 6
    requires CanMove(s.world, CurrentMove(s), s.rt.versions.value)
    ensures Inv(w, Proceed(Committed(Started(s)), 7))
  {
    InvMeans(w, s);
    CommitKeepsStatuses(s);
    CommitBinds(s);
    if s.rt.mode == Compensating { ReceiptKnown(w, s); }
    hide StoreOk, Statuses, Prepared, Bound, Running, Named, Move, CanMove, Placed;
    if s.rt.mode == Forward { CommitForwardKeepsStore(w, s); } else { CommitReverseKeepsStore(w, s); }
  }

  lemma {:induction false} LoseTrackKeepsInv(w: World, s: Saga, moved: bool)
    requires Inv(w, s) && s.progress == Going && s.rt.stage == 6 && Shaped(s)
    ensures Inv(w, LoseTrack(Started(s), moved))
  {
    hide Inv, WorldAfter;
    EndKeepsInv(w, s, LoseTrack(Started(s), moved));
  }

  lemma {:induction false} EndedCall(w: World, s: Saga, t: Saga, status: CallStatus)
    requires Inv(w, s) && s.progress == Going && s.rt.stage == 6 && Shaped(s) && (t == s || t == Started(s))
    ensures Shaped(t) && Inv(w, AfterFailure(CallEnded(t, status), false))
  {
    hide Inv, AfterFailure;
    InvMeans(w, s);
    FailureKeepsInv(w, s, CallEnded(t, status), false);
  }

  lemma {:induction false} DispatchKeepsInv(w: World, s: Saga, input: Input)
    requires Inv(w, s) && s.progress == Going && s.rt.stage == 6
    ensures Inv(w, Dispatch(s, input))
  {
    hide Inv, CallEnded, Started, Committed, AfterFailure, CanMove, Move, Statuses, Prepared, Bound, StoreOk, LoseTrack;
    InvMeans(w, s);
    match ResultOn(s, input.result)
    case Succeeds => CommitKeepsInv(w, s);
    case NotReady => EndedCall(w, s, s, CallFailed);
    case Unauthorized => EndedCall(w, s, s, CallFailed);
    case Fails => EndedCall(w, s, Started(s), CallFailed);
    case Cancels => EndedCall(w, s, Started(s), CallCancelled);
    case ApprovalExpired => EndKeepsInv(w, s, Decline(s, Expired));
    case Lost(moved) => LoseTrackKeepsInv(w, s, moved);
  }

  lemma {:induction false} VerifyPlaces(s: Saga)
    requires Placed(s) && Named(s) && Statuses(s) && Running(s) && s.progress == Going && s.rt.stage == 7
    ensures var t := Verify(s); Placed(t) && Named(t) && Statuses(t) && Running(t) && Live(t) == Live(s)
    ensures var t := Verify(s);
            t.ops == s.ops && t.top == s.top && t.world == s.world && t.log == s.log && t.svc.receipts == s.svc.receipts
    ensures var t := Verify(s);
            t.progress != Going ==>
              t.progress == Ended(SagaCompensated) && t.rt.mode == Compensating && Live(t) == 0 && t.svc.graph == GraphCompensated
  {
    var t := Verify(s);
    forall j | 0 <= j < |t.svc.status| ensures t.svc.status[j] == Expected(t, j) { assert s.svc.status[j] == Expected(s, j); }
  }

  lemma {:induction false} VerifyBinds(s: Saga)
    requires Placed(s) && Prepared(s) && Bound(s) && Running(s) && s.progress == Going && s.rt.stage == 7
    ensures Verify(s).progress == Going ==> Shaped(Verify(s)) && Prepared(Verify(s)) && Bound(Verify(s))
  {
  }

  lemma {:induction false} VerifyKeepsInv(w: World, s: Saga)
    requires Inv(w, s) && s.progress == Going && s.rt.stage == 7
    ensures Inv(w, Verify(s))
  {
    hide StoreOk, Statuses, Prepared, Bound, Running, Named, Verify;
    InvMeans(w, s);
    VerifyPlaces(s);
    VerifyBinds(s);
    StoreSame(w, s, Verify(s));
  }

  lemma {:induction false} FinishKeepsInv(w: World, s: Saga)
    requires Inv(w, s) && s.progress == Going && s.rt.stage == 8
    ensures Inv(w, Finish(s))
  {
    hide After, Onward, Backward, Feasible;
    var t := Finish(s);
    forall j | 0 <= j < |t.svc.status| ensures t.svc.status[j] == Expected(t, j) { assert s.svc.status[j] == Expected(s, j); }
  }

  lemma {:induction false} RunStageKeepsInv(w: World, s: Saga, input: Input)
    requires Inv(w, s) && s.progress == Going
    ensures Shaped(s) && Inv(w, RunStage(s, input))
  {
    hide Inv;
    InvMeans(w, s);
    match s.rt.stage
    case 3 => StartNodeKeepsInv(w, s);
    case 4 => PrepareKeepsInv(w, s, input);
    case 5 => AuthorizeKeepsInv(w, s, input);
    case 6 => DispatchKeepsInv(w, s, input);
    case 7 => VerifyKeepsInv(w, s);
    case 8 => FinishKeepsInv(w, s);
    case _ =>
  }
}
