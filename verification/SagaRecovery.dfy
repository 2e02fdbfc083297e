/**
 Crashes at every transaction boundary: exactly which durable states a restart continues from,
 and that it then continues the same run.
 */
module SagaRecovery {
  import opened Ordering
  import opened Saga
  import opened SagaProofs
  import opened SagaTheorems

  lemma {:induction false} AcceptedWhileRunning(w: World, s: Saga)
    requires Inv(w, s) && !s.progress.Ended?
    ensures s.svc.saved == Some(CheckpointOf(s.rt)) && s.svc.bound == s.svc.events
    ensures Accepts(s.svc, s.nodes, CheckpointOf(s.rt)) && Recovered(CheckpointOf(s.rt)) == s.rt
  {
    hide Inv, StoreOk;
    InvMeans(w, s);
    assert s.svc.status[s.rt.index] == Expected(s, s.rt.index);
    hide Statuses, CallAgrees, PolicyAgrees;
  }

  /** The checkpoint is gone, or the task waits for a reconciliation. */
  predicate Over(svc: Service) {
    svc.saved == None || svc.task == TaskReconciling
  }

  /** The saga is the same one, and once it has ended nothing can be continued. */
  predicate Follows(s: Saga, t: Saga) {
    t.nodes == s.nodes && (t.progress.Ended? ==> Over(t.svc))
  }

  lemma {:induction false} FailureFollows(s: Saga, f: Saga, denied: bool)
    requires Shaped(f) && f.nodes == s.nodes && f.progress == Going
    ensures Follows(s, AfterFailure(f, denied))
  {
  }

  lemma {:induction false} PrepareFollows(s: Saga, input: Input)
    requires Shaped(s) && s.progress == Going
    ensures Follows(s, Prepare(s, input))
  {
    hide AfterFailure;
    var t := s.(rt := s.rt.(args := Some(CurrentMove(s))));
    FailureFollows(s, Logged(FailNode(t), 1), false);
    if CurrentMove(s).source in s.world {
      var u := t.(rt := t.rt.(resources := Some(s.world[CurrentMove(s).source])));
      FailureFollows(s, Logged(FailNode(u), 1), false);
    }
  }

  lemma {:induction false} AuthorizeFollows(s: Saga, input: Input)
    requires Shaped(s) && s.progress == Going
    ensures Follows(s, Authorize(s, input))
  {
    hide AfterFailure;
    FailureFollows(s, Logged(FailNode(Decided(s, Deny)), 1), true);
  }

  lemma {:induction false} DispatchFollows(s: Saga, input: Input)
    requires Shaped(s) && s.progress == Going
    ensures Follows(s, Dispatch(s, input))
  {
    hide AfterFailure, ResultOn, CanMove, Move, CheckpointOf;
    FailureFollows(s, CallEnded(s, CallFailed), false);
    FailureFollows(s, CallEnded(Started(s), CallFailed), false);
    FailureFollows(s, CallEnded(Started(s), CallCancelled), false);
    ResultFits(s, input.result);
  }

  lemma {:induction false} ResultFits(s: Saga, r: Result)
    ensures ResultOn(s, r) == Succeeds ==> s.rt.args.Some? && s.rt.versions.Some?
  {
  }

  lemma {:induction false} StageFollows(s: Saga, input: Input)
    requires Shaped(s) && s.progress == Going
    ensures Follows(s, RunStage(s, input))
  {
    hide Prepare, Authorize, Dispatch, CheckpointOf, Cleared;
    match s.rt.stage
    case 4 => PrepareFollows(s, input);
    case 5 => AuthorizeFollows(s, input);
    case 6 => DispatchFollows(s, input);
    case _ =>
  }

  lemma {:induction false} OverIsRefused(svc: Service, nodes: seq<Id>)
    requires Over(svc)
    ensures !Recoverable(svc, nodes)
  {
  }

  /** What a finished stage leaves is continued with exactly the runtime in memory. */
  lemma {:induction false} StageEndRecovers(w: World, s: Saga, input: Input)
    requires Inv(w, s) && s.progress == Going
    ensures Shaped(s)
    ensures var t := RunStage(s, input);
            && t.nodes == s.nodes
            && (Recoverable(t.svc, s.nodes) <==> !t.progress.Ended?)
            && (!t.progress.Ended? ==> Recovered(t.svc.saved.value) == t.rt)
  {
    hide Inv, RunStage, Accepts, CheckpointOf, Recovered, Placed, StoreOk, Statuses, Prepared, Bound, Running, Named;
    InvMeans(w, s);
    RunStageKeepsInv(w, s, input);
    StageFollows(s, input);
    var t := RunStage(s, input);
    if t.progress.Ended? { OverIsRefused(t.svc, s.nodes); } else { AcceptedWhileRunning(w, t); }
  }

  // ---------- between the transactions of a stage ----------

  /** The last checkpoint was written before the last event. */
  predicate Stale(svc: Service) {
    svc.bound < svc.events
  }

  /**
   The boundaries a restart continues from: the end of a stage that does not end the task, and before it
   the call's request, the commit of its effect and a failing call with something to undo, whose own
   transactions carry the checkpoint that the stage then saves once more.
   */
  predicate Continuable(s: Saga, input: Input, k: nat)
    requires Shaped(s)
  {
    && !RunStage(s, input).progress.Ended?
    && (k == |Interim(s, input)| || (k + 1 == |Interim(s, input)| && (RunStage(s, input).rt.stage == 5 || s.rt.stage == 6)))
  }

  /** A boundary inside a stage: refused because something was recorded after the checkpoint, or already where the stage ends. */
  predicate Resolved(s: Saga, input: Input, k: nat)
    requires Shaped(s) && k < |Interim(s, input)|
  {
    if Continuable(s, input, k) then Interim(s, input)[k] == RunStage(s, input).svc
    else Stale(Interim(s, input)[k]) || (s.rt.stage == 6 && Interim(s, input)[k] == Started(s).svc)
  }

  lemma {:induction false} FailedStages(s: Saga, t: Saga, status: CallStatus)
    requires Shaped(s) && s.svc.bound == s.svc.events && (t == s || t == Started(s))
    ensures Shaped(t)
    ensures var f := CallEnded(t, status); var u := AfterFailure(f, false);
            if s.rt.mode == Forward && s.rt.index > 0 then u.svc == f.svc && u.progress == s.progress else Stale(f.svc) && u.progress.Ended?
  {
    StartedStays(s);
    FailedStage(t, status);
  }

  lemma {:induction false} FailedStage(t: Saga, status: CallStatus)
    requires Shaped(t) && t.svc.bound == t.svc.events
    ensures var f := CallEnded(t, status); var u := AfterFailure(f, false);
            if t.rt.mode == Forward && t.rt.index > 0 then u.svc == f.svc && u.progress == t.progress else Stale(f.svc) && u.progress.Ended?
  {
  }

  lemma {:induction false} CommitBoundary(s: Saga)
    requires Shaped(s) && s.rt.args.Some? && s.rt.versions.Some?
    ensures Shaped(Started(s)) && Started(s).rt == s.rt
    ensures var t := Proceed(Committed(Started(s)), 7); Committed(Started(s)).svc == t.svc && t.progress == s.progress
  {
    hide Move;
  }

  lemma {:induction false} DispatchBoundary(s: Saga, input: Input, k: nat)
    requires Shaped(s) && s.rt.stage == 6 && s.progress == Going && s.svc.bound == s.svc.events && k < |Interim(s, input)|
    ensures Resolved(s, input, k)
  {
    hide AfterFailure, CallEnded, Started, Committed, ResultOn, CanMove, Move;
    StartedStays(s);
    match ResultOn(s, input.result)
    case NotReady => FailedStages(s, s, CallFailed);
    case Unauthorized => FailedStages(s, s, CallFailed);
    case Fails => FailedStages(s, Started(s), CallFailed);
    case Cancels => FailedStages(s, Started(s), CallCancelled);
    case ApprovalExpired =>
    case Succeeds => ResultFits(s, input.result); CommitBoundary(s);
    case Lost(_) =>
  }

  lemma {:induction false} StartedStays(s: Saga)
    requires Shaped(s)
    ensures Shaped(Started(s)) && Started(s).progress == s.progress && Started(s).rt == s.rt
    ensures Started(s).svc.bound == Started(s).svc.events
  {
  }

  lemma {:induction false} PrepareBoundary(s: Saga, input: Input, k: nat)
    requires Shaped(s) && s.rt.stage == 4 && s.progress == Going && s.svc.bound == s.svc.events && k < |Interim(s, input)|
    ensures Resolved(s, input, k)
  {
  }

  lemma {:induction false} AuthorizeBoundary(s: Saga, input: Input, k: nat)
    requires Shaped(s) && s.rt.stage == 5 && s.progress == Going && s.svc.bound == s.svc.events && k < |Interim(s, input)|
    ensures Resolved(s, input, k)
  {
  }

  lemma {:induction false} OtherBoundary(s: Saga, input: Input, k: nat)
    requires Shaped(s) && s.rt.stage !in {4, 6} && s.progress == Going && s.svc.bound == s.svc.events && k < |Interim(s, input)|
    ensures Resolved(s, input, k)
  {
    hide CheckpointOf, Prepare, Authorize, Dispatch, AuthorizeInterim, PrepareInterim, DispatchInterim;
    match s.rt.stage
    case 5 => AuthorizeBoundary(s, input, k);
    case 7 => VerifyBoundary(s, input, k);
    case _ =>
  }

  lemma {:induction false} VerifyBoundary(s: Saga, input: Input, k: nat)
    requires Shaped(s) && s.rt.stage == 7 && s.progress == Going && s.svc.bound == s.svc.events && k < |Interim(s, input)|
    ensures Resolved(s, input, k)
  {
    hide CheckpointOf;
  }

  /** A call that runs: its checkpoint is bound to the last event, and refused for the call's status alone. */
  lemma {:induction false} RunningCallIsRefused(w: World, s: Saga)
    requires Inv(w, s) && s.progress == Going && s.rt.stage == 6
    ensures Shaped(s)
    ensures var t := Started(s);
            && t.svc.saved == Some(CheckpointOf(s.rt)) && t.svc.bound == t.svc.events
            && !CallAgrees(t.svc, CheckpointOf(s.rt)) && !Recoverable(t.svc, s.nodes)
  {
    hide Inv, StoreOk, Statuses, Prepared;
    InvMeans(w, s);
  }

  /**
   Recovery is exact. Whatever transaction of whatever stage of a run a crash follows, a restart continues from
   the durable state exactly at the boundaries above; there the rows are already those the finished stage
   leaves, and it continues with exactly the runtime the process would have had in memory. Everywhere
   else it refuses: no call is made again and no decision repeated.
   */
  lemma {:induction false} RecoveryIsExact(states: seq<Saga>, w: World, n: nat, input: Input, k: nat)
    requires Run(states, w) && n < |states| && states[n].progress == Going
    ensures Shaped(states[n])
    ensures k < |Transactions(states[n], input)| ==>
              var s, svc, t := states[n], Transactions(states[n], input)[k], RunStage(states[n], input);
              && (Recoverable(svc, s.nodes) <==> Continuable(s, input, k))
              && (Continuable(s, input, k) ==> svc == t.svc && Recovered(svc.saved.value) == t.rt)
  {
    hide Inv, RunStage, Interim, Accepts, CheckpointOf, Recovered, Placed, StoreOk, Statuses, Prepared, Started, Running, Named, Run;
    var s := states[n];
    RunKeepsInv(states, w, n);
    InvMeans(w, s);
    StageEndRecovers(w, s, input);
    if k < |Interim(s, input)| {
      InterimBoundary(w, s, input, k);
    }
  }

  lemma {:induction false} InterimBoundary(w: World, s: Saga, input: Input, k: nat)
    requires Inv(w, s) && s.progress == Going && Shaped(s) && k < |Interim(s, input)|
    ensures Recoverable(Interim(s, input)[k], s.nodes) <==> Continuable(s, input, k)
    ensures Continuable(s, input, k) ==> Interim(s, input)[k] == RunStage(s, input).svc
  {
    hide Inv, RunStage, Interim, Accepts, CheckpointOf, Recovered, Placed, StoreOk, Statuses, Prepared, Started, Running, Named;
    InvMeans(w, s);
    StageEndRecovers(w, s, input);
    if s.rt.stage == 6 {
      RunningCallIsRefused(w, s);
      DispatchBoundary(s, input, k);
    } else if s.rt.stage == 4 {
      PrepareBoundary(s, input, k);
    } else {
      OtherBoundary(s, input, k);
    }
  }

  /**
   The binding to the last event is needed: after the policy allowed a call, or a step was recorded as
   completed, every other check still accepts the checkpoint from before, and the stage would run twice.
   */
  lemma {:induction false} OnlyTheBindingRefuses(w: World, s: Saga)
    requires Inv(w, s) && s.progress == Going && (s.rt.stage == 5 || s.rt.stage == 7)
    ensures Shaped(s)
    ensures var svc := if s.rt.stage == 5 then Decided(s, Allow).svc else Logged(s, 1).svc;
            && svc.saved == Some(CheckpointOf(s.rt)) && Accepts(svc, s.nodes, CheckpointOf(s.rt)) && !Recoverable(svc, s.nodes)
  {
    hide Inv, StoreOk, Placed, Statuses, Prepared, Running, Named, CallAgrees, PolicyAgrees;
    InvMeans(w, s);
    AcceptedWhileRunning(w, s);
    SameAgreement(s.svc, if s.rt.stage == 5 then Decided(s, Allow).svc else Logged(s, 1).svc, CheckpointOf(s.rt));
  }

  lemma {:induction false} SameAgreement(svc: Service, other: Service, c: Checkpoint)
    requires other == svc.(events := other.events)
    ensures CallAgrees(svc, c) <==> CallAgrees(other, c)
    ensures PolicyAgrees(svc, c) <==> PolicyAgrees(other, c)
  {
  }

  /** The store's own guard: a checkpoint may fall back to an earlier stage only with another node or mode. */
  predicate Regresses(before: Checkpoint, after: Checkpoint) {
    after.stage < before.stage && after.node == before.node && after.mode == before.mode
  }

  /** The guard never stops the processor: no save of any run regresses. */
  lemma {:induction false} SavesNeverRegress(states: seq<Saga>, w: World, n: nat, input: Input)
    requires Run(states, w) && n < |states| && states[n].progress == Going
    ensures Shaped(states[n])
    ensures var t := RunStage(states[n], input);
            !t.progress.Ended? ==> states[n].svc.saved.Some? && !Regresses(states[n].svc.saved.value, CheckpointOf(t.rt))
  {
    hide Inv, RunStage, Statuses, Prepared, StoreOk, Run;
    var s := states[n];
    RunKeepsInv(states, w, n);
    InvMeans(w, s);
    StageAdvances(s, input);
  }

  lemma {:induction false} StageAdvances(s: Saga, input: Input)
    requires Placed(s) && Running(s) && s.progress == Going
    ensures var t := RunStage(s, input);
            !t.progress.Ended? ==> t.rt.stage >= s.rt.stage || t.rt.node != s.rt.node || t.rt.mode != s.rt.mode
  {
    hide CanMove, Move, CheckpointOf, ResultOn, FailureCheckpoint;
    match s.rt.stage
    case 4 => hide CallRequested; PrepareAdvances(s, input);
    case 6 => DispatchAdvances(s, input);
    case _ => hide Prepare, Dispatch;
  }

  lemma {:induction false} PrepareAdvances(s: Saga, input: Input)
    requires Placed(s) && s.progress == Going && s.rt.stage == 4
    ensures var t := Prepare(s, input);
            !t.progress.Ended? ==> t.rt.stage >= s.rt.stage || t.rt.mode != s.rt.mode
  {
  }

  lemma {:induction false} DispatchAdvances(s: Saga, input: Input)
    requires Placed(s) && s.progress == Going && s.rt.stage == 6
    ensures var t := Dispatch(s, input);
            !t.progress.Ended? ==> t.rt.stage >= s.rt.stage || t.rt.mode != s.rt.mode
  {
    hide CanMove, Move, CheckpointOf, ResultOn, FailureCheckpoint;
    ResultFits(s, input.result);
  }

  /** The checkpoint a failing call's transaction writes, from the runtime before it, is that of the runtime memory then reaches. */
  lemma {:induction false} FailureCheckpointAgrees(s: Saga, input: Input)
    requires Shaped(s) && s.progress == Going && s.rt.stage == 6 && s.rt.mode == Forward && s.rt.index > 0
    requires ResultOn(s, input.result) in {NotReady, Unauthorized, Fails, Cancels}
    ensures var t := RunStage(s, input); FailureCheckpoint(s) == CheckpointOf(t.rt) && t.progress == Going
  {
    hide ResultOn;
  }

  /** Between stages, and while an approval is awaited, what is durable is always the runtime in memory. */
  lemma {:induction false} CheckpointsRecover(states: seq<Saga>, w: World, n: nat)
    requires Run(states, w) && n < |states|
    ensures var s := states[n];
            !s.progress.Ended? ==> Recoverable(s.svc, s.nodes) && Recovered(s.svc.saved.value) == s.rt
  {
    hide Inv, Accepts, Recovered;
    RunKeepsInv(states, w, n);
    if !states[n].progress.Ended? { AcceptedWhileRunning(w, states[n]); }
  }
}
