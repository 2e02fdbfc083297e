/**
 What each answer leads to, told in the rows, the files and the place in the saga; and over
 whole runs, that no file is moved on anything but an allowance or a granted approval.
 */
module SagaAnswers {
  import opened Ordering
  import opened Saga
  import opened SagaProofs
  import opened SagaTheorems

  // ---------- the terms ----------

  /** The files, the account of moves and the receipts are as they were. */
  predicate Untouched(s: Saga, t: Saga) {
    t.world == s.world && t.log == s.log && t.svc.receipts == s.svc.receipts
  }

  predicate SamePlace(s: Saga, t: Saga) {
    t.rt.index == s.rt.index && t.rt.node == s.rt.node && t.rt.mode == s.rt.mode && t.rt.failure == s.rt.failure && t.rt.call == s.rt.call
  }

  /** The node under way has failed: nothing to undo ends the task, something to undo turns the saga back, a failed undoing ends it. */
  predicate FailsOver(s: Saga, t: Saga, ending: Ending)
    requires Shaped(s)
  {
    var i := s.rt.index;
    && Untouched(s, t)
    && (s.rt.mode == Compensating ==>
          && t.progress == Ended(SagaCompensationFailed) && t.svc.task == TaskFailed && t.svc.graph == GraphFailed
          && t.svc.status == s.svc.status[i := CompensationFailed])
    && (s.rt.mode == Forward && i == 0 ==>
          && t.progress == Ended(ending) && t.svc.task == TaskFailed && t.svc.graph == GraphFailed
          && t.svc.status == s.svc.status[i := Failed])
    && (s.rt.mode == Forward && i > 0 ==>
          && t.progress == Going && t.svc.task == TaskRunning && t.svc.graph == GraphCompensating
          && t.svc.status == s.svc.status[i := Failed]
          && t.rt.stage == 3 && t.rt.mode == Compensating && t.rt.index == i - 1 && t.rt.node == s.nodes[i - 1]
          && t.rt.failure == Some(s.rt.node))
  }

  /** The move under way: a node's operation, or its reverse. */
  function MoveOf(s: Saga): Operation
    requires Shaped(s)
  {
    if s.rt.mode == Forward then s.ops[s.rt.index]
    else Operation(s.ops[s.rt.index].destination, s.ops[s.rt.index].source)
  }

  /** A file that can be read, and for a move to undo one still at the version that its receipt names. */
  predicate Ready(s: Saga, input: Input)
    requires Shaped(s)
  {
    && input.projects && MoveOf(s).source in s.world
    && (s.rt.mode == Compensating ==> s.rt.index in s.svc.receipts && s.world[MoveOf(s).source] == s.svc.receipts[s.rt.index])
  }

  // ---------- stage by stage ----------

  predicate StartLaw(s: Saga, t: Saga)
    requires Shaped(s)
  {
    && Untouched(s, t) && SamePlace(s, t) && t.progress == Going && t.rt.stage == 4
    && t.svc.task == TaskRunning && t.svc.calls == s.svc.calls && t.svc.approvals == s.svc.approvals
    && t.svc.status == s.svc.status[s.rt.index := if s.rt.mode == Forward then Active else Undoing]
    && t.svc.graph == if s.rt.mode == Forward then GraphActive else GraphCompensating
  }

  predicate PrepareLaw(s: Saga, input: Input, t: Saga)
    requires Shaped(s)
  {
    && t.svc.approvals == s.svc.approvals
    && if Ready(s, input) then
         && Untouched(s, t) && SamePlace(s, t) && t.progress == Going && t.rt.stage == 5
         && t.svc.task == TaskRunning && t.svc.status == s.svc.status && t.svc.calls == s.svc.calls[s.rt.call := Requested]
         && t.rt.args == Some(MoveOf(s)) && t.rt.versions == Some(s.world[MoveOf(s).source]) && t.rt.key == Some(input.key)
       else
         FailsOver(s, t, SagaForwardFailed) && t.svc.calls == s.svc.calls
  }

  predicate AuthorizeLaw(s: Saga, input: Input, t: Saga)
    requires Shaped(s)
  {
    match input.effect
    case Allow =>
      && Untouched(s, t) && SamePlace(s, t) && t.progress == Going && t.rt.stage == 6 && t.svc.task == TaskRunning
      && t.svc.status == s.svc.status && t.svc.calls == s.svc.calls && t.svc.approvals == s.svc.approvals
      && t.rt.policy == Some(Policy(s.rt.call, Allow)) && t.rt.approval == None
    case RequireApproval =>
      && Untouched(s, t) && SamePlace(s, t) && t.progress == Waiting && t.rt.stage == 6 && t.svc.task == TaskWaitingApproval
      && t.svc.status == s.svc.status && t.svc.calls == s.svc.calls && t.svc.approvals == s.svc.approvals[s.rt.call := AwaitingDecision]
      && t.rt.policy == Some(Policy(s.rt.call, RequireApproval)) && t.rt.approval == Some(s.rt.call)
    case Deny =>
      FailsOver(s, t, PolicyDenied) && t.svc.calls == s.svc.calls[s.rt.call := CallFailed] && t.svc.approvals == s.svc.approvals
  }

  /** Once a call has started, the approval it needed is used up. */
  function ApprovalsUsed(s: Saga): map<CallId, ApprovalStatus> {
    if s.rt.approval.Some? then s.svc.approvals[s.rt.call := Consumed] else s.svc.approvals
  }

  predicate MovedLaw(s: Saga, t: Saga)
    requires Shaped(s)
  {
    var op := MoveOf(s);
    && op.source in s.world && op.destination !in s.world
    && t.world == s.world[op.destination := s.world[op.source]] - {op.source}
    && t.log == s.log + [Moved(s.rt.index, s.rt.mode)]
    && SamePlace(s, t) && t.progress == Going && t.rt.stage == 7 && t.svc.task == TaskRunning
    && t.svc.calls == s.svc.calls[s.rt.call := CallSucceeded] && t.svc.approvals == ApprovalsUsed(s)
    && t.svc.status == s.svc.status[s.rt.index := if s.rt.mode == Forward then Succeeded else Compensated]
    && t.svc.receipts == if s.rt.mode == Forward then s.svc.receipts[s.rt.index := s.world[op.source]] else s.svc.receipts
  }

  predicate LostLaw(s: Saga, moved: bool, t: Saga)
    requires Shaped(s)
  {
    var op := MoveOf(s);
    && t.progress == Ended(OutcomeUnknown) && t.svc.task == TaskReconciling && t.svc.graph == GraphBlocked
    && t.svc.calls == s.svc.calls[s.rt.call := CallUnknown] && t.svc.approvals == ApprovalsUsed(s)
    && t.svc.status == s.svc.status[s.rt.index := if s.rt.mode == Forward then Unknown else CompensationUnknown]
    && t.log == s.log && t.svc.receipts == s.svc.receipts
    && op.source in s.world && t.world == if moved then s.world[op.destination := s.world[op.source]] - {op.source} else s.world
  }

  predicate DispatchLaw(s: Saga, input: Input, t: Saga)
    requires Shaped(s)
  {
    match input.result
    case NotReady =>
      FailsOver(s, t, SagaForwardFailed) && t.svc.calls == s.svc.calls[s.rt.call := CallFailed] && t.svc.approvals == s.svc.approvals
    case Unauthorized =>
      FailsOver(s, t, SagaForwardFailed) && t.svc.calls == s.svc.calls[s.rt.call := CallFailed] && t.svc.approvals == s.svc.approvals
    case ApprovalExpired =>
      DeclineLaw(s, Expired, t)
    case Fails =>
      FailsOver(s, t, SagaForwardFailed) && t.svc.calls == s.svc.calls[s.rt.call := CallFailed] && t.svc.approvals == ApprovalsUsed(s)
    case Cancels =>
      FailsOver(s, t, SagaForwardFailed) && t.svc.calls == s.svc.calls[s.rt.call := CallCancelled] && t.svc.approvals == ApprovalsUsed(s)
    case Succeeds =>
      if MoveOf(s).destination !in s.world then MovedLaw(s, t)
      else FailsOver(s, t, SagaForwardFailed) && t.svc.calls == s.svc.calls[s.rt.call := CallFailed] && t.svc.approvals == ApprovalsUsed(s)
    case Lost(moved) =>
      LostLaw(s, moved, t)
  }

  predicate VerifyLaw(s: Saga, t: Saga)
    requires Shaped(s)
  {
    var i := s.rt.index;
    && Untouched(s, t) && t.svc.calls == s.svc.calls && t.svc.approvals == s.svc.approvals && t.svc.status == s.svc.status
    && t.rt.mode == s.rt.mode && t.rt.failure == s.rt.failure
    && (s.rt.mode == Compensating && i > 0 ==>
          t.progress == Going && t.rt.stage == 3 && t.rt.index == i - 1 && t.rt.node == s.nodes[i - 1] && t.svc.task == TaskRunning)
    && (s.rt.mode == Compensating && i == 0 ==>
          t.progress == Ended(SagaCompensated) && t.svc.task == TaskFailed && t.svc.graph == GraphCompensated)
    && (s.rt.mode == Forward && i + 1 < |s.ops| ==>
          t.progress == Going && t.rt.stage == 3 && t.rt.index == i + 1 && t.rt.node == s.nodes[i + 1] && t.svc.task == TaskRunning)
    && (s.rt.mode == Forward && i + 1 == |s.ops| ==>
          t.progress == Going && t.rt.stage == 8 && t.rt.index == i && t.svc.task == TaskRunning && t.svc.graph == GraphSucceeded)
  }

  predicate FinishLaw(s: Saga, t: Saga) {
    && Untouched(s, t) && t.progress == Ended(Completed) && t.svc.task == TaskSucceeded
    && t.svc.status == s.svc.status && t.svc.graph == s.svc.graph && t.svc.calls == s.svc.calls && t.svc.approvals == s.svc.approvals
  }

  predicate ApproveLaw(s: Saga, t: Saga) {
    && Untouched(s, t) && t.rt == s.rt && t.progress == Going && t.svc.task == TaskRunning
    && t.svc.approvals == s.svc.approvals[s.rt.call := Approved] && t.svc.calls == s.svc.calls && t.svc.status == s.svc.status
  }

  predicate DeclineLaw(s: Saga, outcome: ApprovalStatus, t: Saga) {
    && Untouched(s, t) && t.progress == Ended(ApprovalDeclined) && t.svc.task == TaskCancelled
    && t.svc.approvals == s.svc.approvals[s.rt.call := outcome] && t.svc.calls == s.svc.calls[s.rt.call := CallCancelled]
    && t.svc.status == s.svc.status
  }

  predicate StageLaw(s: Saga, input: Input, t: Saga)
    requires Shaped(s)
  {
    && t.ops == s.ops && t.nodes == s.nodes
    && match s.rt.stage
       case 3 => StartLaw(s, t)
       case 4 => PrepareLaw(s, input, t)
       case 5 => AuthorizeLaw(s, input, t)
       case 6 => DispatchLaw(s, input, t)
       case 7 => VerifyLaw(s, t)
       case _ => FinishLaw(s, t)
  }

  // ---------- every stage keeps its law ----------

  lemma {:induction false} CurrentIsMoveOf(s: Saga)
    requires Shaped(s)
    ensures CurrentMove(s) == MoveOf(s)
  {
  }

  lemma {:induction false} StartIsLawful(w: World, s: Saga)
    requires Inv(w, s) && s.progress == Going && s.rt.stage == 3
    ensures Shaped(s) && StartLaw(s, StartNode(s))
  {
    StartHolds(w, s);
    hide Inv, CheckpointOf;
  }

  lemma {:induction false} StartHolds(w: World, s: Saga)
    requires Inv(w, s) && s.progress == Going && s.rt.stage == 3
    ensures Shaped(s) && MayStart(s) && s.svc.task == TaskRunning && s.rt.call == CallId(s.rt.node, s.rt.mode)
  {
    assert s.svc.status[s.rt.index] == Expected(s, s.rt.index);
    hide StoreOk, Statuses, Prepared, Named;
  }

  lemma {:induction false} FailureIsLawful(s: Saga, t: Saga, denied: bool)
    requires Placed(s) && s.progress == Going && s.svc.task == TaskRunning
    requires t.ops == s.ops && t.nodes == s.nodes && SamePlace(s, t) && Untouched(s, t) && t.progress == Going && t.svc.task == TaskRunning
    requires t.svc.status == s.svc.status[s.rt.index := if s.rt.mode == Compensating then CompensationFailed else Failed]
    requires t.svc.graph == if s.rt.mode == Forward && s.rt.index > 0 then GraphCompensating else GraphFailed
    ensures var u := AfterFailure(t, denied);
            && FailsOver(s, u, if denied then PolicyDenied else SagaForwardFailed)
            && u.ops == s.ops && u.nodes == s.nodes && u.svc.calls == t.svc.calls && u.svc.approvals == t.svc.approvals
  {
  }

  lemma {:induction false} PrepareIsLawful(w: World, s: Saga, input: Input)
    requires Inv(w, s) && s.progress == Going && s.rt.stage == 4
    ensures Shaped(s) && PrepareLaw(s, input, Prepare(s, input)) && Prepare(s, input).ops == s.ops && Prepare(s, input).nodes == s.nodes
  {
    hide Inv, StoreOk, Statuses, Bound, Named, Running, Prepared, Placed, PrepareLaw, Prepare;
    InvMeans(w, s);
    PrepareHolds(w, s);
    CurrentIsMoveOf(s);
    var u := s.(rt := s.rt.(args := Some(MoveOf(s))));
    PrepareIs(s, input);
    hide MoveOf, Project;
    if Ready(s, input) { ReadyIsLawful(s, input); } else { UnreadyIsLawful(s, input); }
  }

  lemma {:induction false} PrepareHolds(w: World, s: Saga)
    requires Inv(w, s) && s.progress == Going && s.rt.stage == 4
    ensures Placed(s) && s.svc.task == TaskRunning && (s.rt.mode == Compensating ==> s.rt.index in s.svc.receipts)
  {
    InvMeans(w, s);
    if s.rt.mode == Compensating { ReceiptKnown(w, s); }
    hide Inv, StoreOk, Statuses, Bound, Named, Prepared;
  }

  lemma {:induction false} PrepareIs(s: Saga, input: Input)
    requires Shaped(s) && (s.rt.mode == Compensating ==> s.rt.index in s.svc.receipts)
    ensures Prepare(s, input) == Project(s.(rt := s.rt.(args := Some(MoveOf(s)))), MoveOf(s), input)
  {
    hide Project;
    CurrentIsMoveOf(s);
  }

  lemma {:induction false} ReadyIsLawful(s: Saga, input: Input)
    requires Placed(s) && s.progress == Going && s.svc.task == TaskRunning && Ready(s, input)
    ensures var t := Project(s.(rt := s.rt.(args := Some(MoveOf(s)))), MoveOf(s), input);
            PrepareLaw(s, input, t) && t.ops == s.ops && t.nodes == s.nodes
  {
    hide Placed, AfterFailure, FailsOver, MoveOf;
  }

  lemma {:induction false} UnreadyIsLawful(s: Saga, input: Input)
    requires Placed(s) && s.progress == Going && s.svc.task == TaskRunning && !Ready(s, input)
    ensures var t := Project(s.(rt := s.rt.(args := Some(MoveOf(s)))), MoveOf(s), input);
            PrepareLaw(s, input, t) && t.ops == s.ops && t.nodes == s.nodes
  {
    var u := s.(rt := s.rt.(args := Some(MoveOf(s))));
    UnpreparedIsLawful(s, u);
    if MoveOf(s).source in s.world { UnpreparedIsLawful(s, u.(rt := u.rt.(resources := Some(s.world[MoveOf(s).source])))); }
    hide Placed, PreDispatchFailure, FailsOver, MoveOf;
  }

  /** A node that could not be prepared fails, whatever was read for it. */
  lemma {:induction false} UnpreparedIsLawful(s: Saga, u: Saga)
    requires Placed(s) && s.progress == Going && s.svc.task == TaskRunning
    requires u == s.(rt := u.rt) && u.rt == s.rt.(args := u.rt.args, resources := u.rt.resources)
    ensures Shaped(u)
    ensures var t := PreDispatchFailure(u);
            && FailsOver(s, t, SagaForwardFailed) && t.svc.calls == s.svc.calls && t.svc.approvals == s.svc.approvals
            && t.ops == s.ops && t.nodes == s.nodes
  {
    FailureIsLawful(s, Logged(FailNode(u), 1), false);
    hide AfterFailure, FailsOver;
  }

  lemma {:induction false} AuthorizeIsLawful(w: World, s: Saga, input: Input)
    requires Inv(w, s) && s.progress == Going && s.rt.stage == 5
    ensures Shaped(s) && AuthorizeLaw(s, input, Authorize(s, input)) && Authorize(s, input).ops == s.ops && Authorize(s, input).nodes == s.nodes
  {
    PolicyHolds(w, s);
    hide Inv, Placed;
    hide AfterFailure, FailsOver, Proceed, Decided;
    match input.effect
    case Deny => DenialIsLawful(s);
    case _ => PassageIsLawful(s, input.effect);
  }

  /** What is stored when the move may go on, now or once it is approved. */
  lemma {:induction false} PassageIsLawful(s: Saga, effect: Effect)
    requires Shaped(s) && s.progress == Going && s.svc.task == TaskRunning && s.rt.approval == None && effect != Deny
    ensures var t := Proceed(Decided(s, effect), 6);
            && t.ops == s.ops && t.nodes == s.nodes && Untouched(s, t) && SamePlace(s, t) && t.progress == Going && t.rt.stage == 6
            && t.svc.status == s.svc.status && t.svc.calls == s.svc.calls && t.rt.policy == Some(Policy(s.rt.call, effect))
            && t.svc.task == (if effect == Allow then TaskRunning else TaskWaitingApproval)
            && t.svc.approvals == (if effect == Allow then s.svc.approvals else s.svc.approvals[s.rt.call := AwaitingDecision])
            && t.rt.approval == if effect == Allow then None else Some(s.rt.call)
  {
    hide CheckpointOf;
  }

  /** What the policy is asked about is complete, and nothing was decided before. */
  lemma {:induction false} PolicyHolds(w: World, s: Saga)
    requires Inv(w, s) && s.progress == Going && s.rt.stage == 5
    ensures Placed(s) && s.svc.task == TaskRunning && s.rt.args.Some? && s.rt.resources.Some? && s.rt.approval == None
  {
    InvMeans(w, s);
    hide Inv, StoreOk, Statuses, Bound, Named;
  }

  lemma {:induction false} DenialIsLawful(s: Saga)
    requires Placed(s) && s.progress == Going && s.svc.task == TaskRunning
    ensures Shaped(Decided(s, Deny))
    ensures var t := AfterFailure(Logged(FailNode(Decided(s, Deny)), 1), true);
            && FailsOver(s, t, PolicyDenied) && t.svc.calls == s.svc.calls[s.rt.call := CallFailed] && t.svc.approvals == s.svc.approvals
            && t.ops == s.ops && t.nodes == s.nodes
  {
    FailureIsLawful(s, Logged(FailNode(Decided(s, Deny)), 1), true);
    hide AfterFailure, FailsOver;
  }

  lemma {:induction false} CallEndIsLawful(s: Saga, f: Saga, status: CallStatus)
    requires Placed(s) && s.progress == Going && s.svc.task == TaskRunning && (f == s || f == Started(s))
    ensures Shaped(f) && Shaped(CallEnded(f, status))
    ensures var u := AfterFailure(CallEnded(f, status), false);
            && FailsOver(s, u, SagaForwardFailed) && u.ops == s.ops && u.nodes == s.nodes
            && u.svc.calls == s.svc.calls[s.rt.call := status]
            && u.svc.approvals == if f == s then s.svc.approvals else ApprovalsUsed(s)
  {
    hide AfterFailure, FailsOver;
    StartedOnce(s);
    assert f.svc.calls[s.rt.call := status] == s.svc.calls[s.rt.call := status];
    FailureIsLawful(s, CallEnded(f, status), false);
  }

  lemma {:induction false} StartedOnce(s: Saga)
    requires Shaped(s)
    ensures Started(s) != s
  {
    assert Started(s).svc.events != s.svc.events;
  }

  lemma {:induction false} MapTwice<K, V>(m: map<K, V>, k: K, a: V, b: V)
    ensures m[k := a][k := b] == m[k := b]
  {
  }

  lemma {:induction false} SeqTwice<V>(q: seq<V>, i: nat, a: V, b: V)
    requires i < |q|
    ensures q[i := a][i := b] == q[i := b]
  {
  }

  /** What the call's start changes that its end does not change again. */
  lemma {:induction false} StartedTerms(s: Saga)
    requires Shaped(s)
    ensures var f := Started(s);
            && Shaped(f) && f.ops == s.ops && f.nodes == s.nodes && f.rt == s.rt && f.world == s.world && f.log == s.log
            && f.progress == s.progress && f.svc.task == s.svc.task && f.svc.receipts == s.svc.receipts
            && f.svc.approvals == ApprovalsUsed(s)
            && f.svc.calls == s.svc.calls[s.rt.call := CallRunning] && f.svc.status == s.svc.status[s.rt.index := Executing]
  {
  }

  /** The file, the call and the node of a committed effect. */
  lemma {:induction false} CommittedTerms(f: Saga)
    requires Shaped(f) && f.rt.args.Some? && f.rt.versions.Some? && f.rt.args.value.source in f.world
    ensures var t := Proceed(Committed(f), 7); var op := f.rt.args.value;
            && t.ops == f.ops && t.nodes == f.nodes && SamePlace(f, t) && t.progress == f.progress && t.rt.stage == 7 && t.svc.task == f.svc.task
            && t.world == f.world[op.destination := f.world[op.source]] - {op.source}
            && t.log == f.log + [Moved(f.rt.index, f.rt.mode)]
            && t.svc.calls == f.svc.calls[f.rt.call := CallSucceeded] && t.svc.approvals == f.svc.approvals
            && t.svc.status == f.svc.status[f.rt.index := if f.rt.mode == Forward then Succeeded else Compensated]
            && t.svc.receipts == if f.rt.mode == Forward then f.svc.receipts[f.rt.index := f.rt.versions.value] else f.svc.receipts
  {
  }

  /** At the dispatch the runtime holds the move under way, at the version the file is at. */
  lemma {:induction false} DispatchHolds(w: World, s: Saga)
    requires Inv(w, s) && s.progress == Going && s.rt.stage == 6
    ensures Shaped(s) && s.rt.args == Some(MoveOf(s)) && MoveOf(s).source in s.world && s.rt.versions == Some(s.world[MoveOf(s).source])
    ensures Placed(s) && s.svc.task == TaskRunning
  {
    InvMeans(w, s);
    CurrentIsMoveOf(s);
    hide StoreOk, Statuses, Bound, Named;
  }

  lemma {:induction false} MovedIsLawful(w: World, s: Saga)
    requires Inv(w, s) && s.progress == Going && s.rt.stage == 6 && s.rt.args.Some? && s.rt.versions.Some?
    requires Shaped(s) && MoveOf(s).source in s.world && MoveOf(s).destination !in s.world
    ensures Shaped(Started(s))
    ensures var t := Proceed(Committed(Started(s)), 7); MovedLaw(s, t) && t.ops == s.ops && t.nodes == s.nodes
  {
    DispatchHolds(w, s);
    StartedTerms(s);
    CommittedTerms(Started(s));
    hide Inv, Placed, Started, Committed, Proceed, MoveOf, ApprovalsUsed;
    MapTwice(s.svc.calls, s.rt.call, CallRunning, CallSucceeded);
    SeqTwice(s.svc.status, s.rt.index, Executing, if s.rt.mode == Forward then Succeeded else Compensated);
  }

  lemma {:induction false} LostTerms(f: Saga, moved: bool)
    requires Shaped(f) && f.rt.args.Some? && f.rt.args.value.source in f.world
    ensures var t := LoseTrack(f, moved); var op := f.rt.args.value;
            && t.ops == f.ops && t.nodes == f.nodes && t.progress == Ended(OutcomeUnknown) && t.svc.task == TaskReconciling && t.svc.graph == GraphBlocked
            && t.svc.calls == f.svc.calls[f.rt.call := CallUnknown] && t.svc.approvals == f.svc.approvals
            && t.svc.status == f.svc.status[f.rt.index := if f.rt.mode == Forward then Unknown else CompensationUnknown]
            && t.log == f.log && t.svc.receipts == f.svc.receipts
            && t.world == if moved then f.world[op.destination := f.world[op.source]] - {op.source} else f.world
  {
  }

  lemma {:induction false} LostIsLawful(w: World, s: Saga, moved: bool)
    requires Inv(w, s) && s.progress == Going && s.rt.stage == 6
    ensures Shaped(s) && Shaped(Started(s))
    ensures var t := LoseTrack(Started(s), moved); LostLaw(s, moved, t) && t.ops == s.ops && t.nodes == s.nodes
  {
    DispatchHolds(w, s);
    StartedTerms(s);
    LostTerms(Started(s), moved);
    hide Inv, Placed, Started, LoseTrack, MoveOf, ApprovalsUsed;
    MapTwice(s.svc.calls, s.rt.call, CallRunning, CallUnknown);
    SeqTwice(s.svc.status, s.rt.index, Executing, if s.rt.mode == Forward then Unknown else CompensationUnknown);
  }

  /** At the dispatch the runner can make the move exactly when its destination is free. */
  lemma {:induction false} RunnerCanMove(w: World, s: Saga, r: Result)
    requires Inv(w, s) && s.progress == Going && s.rt.stage == 6
    ensures Shaped(s) && MoveOf(s).source in s.world && s.rt.args.Some? && s.rt.versions.Some?
    ensures ResultOn(s, r) == if r == Succeeds && MoveOf(s).destination in s.world then Fails else r
  {
    DispatchHolds(w, s);
    hide Inv, Placed, MoveOf;
  }

  lemma {:induction false} DispatchIsLawful(w: World, s: Saga, input: Input)
    requires Inv(w, s) && s.progress == Going && s.rt.stage == 6
    ensures Shaped(s) && DispatchLaw(s, input, Dispatch(s, input)) && Dispatch(s, input).ops == s.ops && Dispatch(s, input).nodes == s.nodes
  {
    RunnerCanMove(w, s, input.result);
    DispatchHolds(w, s);
    hide Inv, Placed, FailsOver, AfterFailure, CallEnded, Started, Committed, LoseTrack, Proceed, MovedLaw, LostLaw, DeclineLaw, ResultOn, Decline, MoveOf, ApprovalsUsed;
    match ResultOn(s, input.result)
    case NotReady => CallEndIsLawful(s, s, CallFailed);
    case Unauthorized => CallEndIsLawful(s, s, CallFailed);
    case ApprovalExpired => DeclineIsLawful(s, Expired);
    case Fails => CallEndIsLawful(s, Started(s), CallFailed); StartedOnce(s);
    case Cancels => CallEndIsLawful(s, Started(s), CallCancelled); StartedOnce(s);
    case Succeeds => MovedIsLawful(w, s);
    case Lost(moved) => LostIsLawful(w, s, moved);
  }

  lemma {:induction false} DeclineIsLawful(s: Saga, outcome: ApprovalStatus)
    ensures DeclineLaw(s, outcome, Decline(s, outcome)) && Decline(s, outcome).ops == s.ops && Decline(s, outcome).nodes == s.nodes
  {
  }

  lemma {:induction false} VerifyIsLawful(w: World, s: Saga)
    requires Inv(w, s) && s.progress == Going && s.rt.stage == 7
    ensures Shaped(s) && VerifyLaw(s, Verify(s)) && Verify(s).ops == s.ops && Verify(s).nodes == s.nodes
  {
    VerifyHolds(w, s);
    hide Inv;
    if !LastOfItsWay(s) {
      OnToTerms(Logged(s, 1), if s.rt.mode == Compensating then s.rt.index - 1 else s.rt.index + 1);
      hide OnTo;
    } else {
      SameStatus(s.svc.status, s.rt.index);
      ClosedTerms(Logged(s, 1));
      hide Closed, CheckpointOf;
    }
  }

  lemma {:induction false} VerifyHolds(w: World, s: Saga)
    requires Inv(w, s) && s.progress == Going && s.rt.stage == 7
    ensures Shaped(s) && s.svc.task == TaskRunning
    ensures s.svc.status[s.rt.index] == if s.rt.mode == Forward then Succeeded else Compensated
  {
    assert s.svc.status[s.rt.index] == Expected(s, s.rt.index);
    hide StoreOk, Statuses, Bound;
  }

  lemma {:induction false} ClosedTerms(s: Saga)
    requires Shaped(s)
    ensures var t := Closed(s);
            && t.ops == s.ops && t.nodes == s.nodes && t.world == s.world && t.log == s.log && t.progress == s.progress && t.rt == s.rt
            && t.svc.calls == s.svc.calls && t.svc.approvals == s.svc.approvals && t.svc.receipts == s.svc.receipts && t.svc.task == s.svc.task
            && t.svc.status == s.svc.status[s.rt.index := if s.rt.mode == Forward then Succeeded else Compensated]
            && t.svc.graph == if s.rt.mode == Forward then GraphSucceeded else GraphCompensated
  {
  }

  lemma {:induction false} SameStatus<V>(q: seq<V>, i: nat)
    requires i < |q|
    ensures q[i := q[i]] == q
  {
  }

  lemma {:induction false} OnToTerms(s: Saga, i: nat)
    requires i < |s.nodes|
    ensures var t := OnTo(s, i);
            && t.ops == s.ops && t.nodes == s.nodes && t.world == s.world && t.log == s.log && t.progress == s.progress
            && t.svc == s.svc.(saved := t.svc.saved, bound := t.svc.bound)
            && t.rt.stage == 3 && t.rt.index == i && t.rt.node == s.nodes[i] && t.rt.mode == s.rt.mode && t.rt.failure == s.rt.failure
  {
  }

  /** Each stage of the saga leads, answer by answer, where its law says. */
  lemma {:induction false} StageIsLawful(w: World, s: Saga, input: Input)
    requires Inv(w, s) && s.progress == Going
    ensures Shaped(s) && 3 <= s.rt.stage <= 8 && StageLaw(s, input, RunStage(s, input))
  {
    InvMeans(w, s);
    hide Inv, Placed, Prepared, StartNode, Prepare, Authorize, Dispatch, Verify;
    hide StartLaw, PrepareLaw, AuthorizeLaw, DispatchLaw, VerifyLaw;
    match s.rt.stage
    case 3 => StartIsLawful(w, s); StartKeepsPlan(s);
    case 4 => PrepareIsLawful(w, s, input);
    case 5 => AuthorizeIsLawful(w, s, input);
    case 6 => DispatchIsLawful(w, s, input);
    case 7 => VerifyIsLawful(w, s);
    case _ =>
  }

  lemma {:induction false} StartKeepsPlan(s: Saga)
    requires Shaped(s)
    ensures StartNode(s).ops == s.ops && StartNode(s).nodes == s.nodes
  {
  }

  // ---------- over runs ----------

  /** What makes a step: a stage with the answers it gets, or the decision on an approval. */
  datatype Cause = Answers(input: Input) | Granted | Refused(outcome: ApprovalStatus)

  ghost predicate StepBy(states: seq<Saga>, causes: seq<Cause>, k: nat)
    requires |states| == |causes| + 1 && k < |causes|
  {
    var s := states[k];
    match causes[k]
    case Answers(input) => s.progress == Going && Shaped(s) && states[k + 1] == RunStage(s, input)
    case Granted => s.progress == Waiting && states[k + 1] == Approve(s)
    case Refused(outcome) => s.progress == Waiting && (outcome == Rejected || outcome == Expired) && states[k + 1] == Decline(s, outcome)
  }

  /** A run with what made each of its steps. */
  ghost predicate RunBy(states: seq<Saga>, causes: seq<Cause>, w: World) {
    && |states| == |causes| + 1 && Starts(states[0], w)
    && (forall k | 0 <= k < |causes| :: StepBy(states, causes, k))
  }

  lemma {:induction false} RunByIsRun(states: seq<Saga>, causes: seq<Cause>, w: World)
    requires RunBy(states, causes, w)
    ensures Run(states, w)
  {
    hide RunStage, Approve, Decline, Starts;
    forall i | 0 <= i < |states| - 1 ensures Step(states[i], states[i + 1]) { assert StepBy(states, causes, i); }
  }

  /** The law of a step, whatever made it. */
  predicate Law(s: Saga, cause: Cause, t: Saga) {
    match cause
    case Answers(input) => s.progress == Going && Shaped(s) && 3 <= s.rt.stage <= 8 && StageLaw(s, input, t)
    case Granted => s.progress == Waiting && ApproveLaw(s, t) && t.ops == s.ops && t.nodes == s.nodes
    case Refused(outcome) => s.progress == Waiting && outcome != Approved && DeclineLaw(s, outcome, t) && t.ops == s.ops && t.nodes == s.nodes
  }

  /** Every step of every run leads where the answer it got says. */
  lemma {:induction false} RunIsLawful(states: seq<Saga>, causes: seq<Cause>, w: World, k: nat)
    requires RunBy(states, causes, w) && k < |causes|
    ensures Inv(w, states[k]) && Law(states[k], causes[k], states[k + 1])
  {
    hide Inv, RunStage, StageLaw, ApproveLaw, DeclineLaw, Approve, Decline;
    RunByIsRun(states, causes, w);
    RunKeepsInv(states, w, k);
    assert StepBy(states, causes, k);
    match causes[k]
    case Answers(input) => StageIsLawful(w, states[k], input);
    case Granted => ApproveIsLawful(states[k]);
    case Refused(outcome) => DeclineIsLawful(states[k], outcome);
  }

  lemma {:induction false} ApproveIsLawful(s: Saga)
    ensures ApproveLaw(s, Approve(s)) && Approve(s).ops == s.ops && Approve(s).nodes == s.nodes
  {
  }

  /** A policy that requires an approval always gets it asked for: the task waits, and nothing has moved. */
  lemma {:induction false} RequiredApprovalIsAskedFor(states: seq<Saga>, causes: seq<Cause>, w: World, k: nat)
    requires RunBy(states, causes, w) && k < |causes|
    requires states[k].rt.stage == 5 && causes[k].Answers? && causes[k].input.effect == RequireApproval
    ensures var s, t := states[k], states[k + 1];
            && t.progress == Waiting && t.svc.task == TaskWaitingApproval
            && s.rt.call in t.svc.approvals && t.svc.approvals[s.rt.call] == AwaitingDecision
            && t.world == s.world && t.log == s.log
  {
    RunIsLawful(states, causes, w, k);
    hide Inv, FailsOver, DispatchLaw, PrepareLaw, StartLaw, VerifyLaw;
  }

  /** Step k is the policy's answer on the move of a node. */
  predicate AnsweredAt(states: seq<Saga>, causes: seq<Cause>, k: int, index: nat, kind: Mode, effect: Effect)
    requires |states| == |causes| + 1
  {
    && 0 <= k < |causes| && causes[k].Answers? && causes[k].input.effect == effect
    && states[k].rt.stage == 5 && states[k].rt.index == index && states[k].rt.mode == kind
  }

  /** Who comes to a dispatch: the stage before allowed the move, or an approval of this call was granted. */
  lemma {:induction false} BeforeDispatch(w: World, s: Saga, cause: Cause, t: Saga)
    requires Inv(w, s) && Law(s, cause, t) && t.progress == Going && t.rt.stage == 6
    ensures (cause.Answers? && s.rt.stage == 5 && cause.input.effect == Allow && t.rt.approval == None)
            || (cause == Granted && s.progress == Waiting && t.rt == s.rt && s.rt.call in t.svc.approvals && t.svc.approvals[s.rt.call] == Approved)
    ensures t.rt.index == s.rt.index && t.rt.mode == s.rt.mode
  {
    hide Inv, FailsOver;
    if cause.Answers? && s.rt.stage != 5 { NotToDispatch(s, cause.input, t); }
    if cause.Answers? && s.rt.stage == 5 && cause.input.effect == Deny { FailingLeavesDispatch(s, t, PolicyDenied); }
  }

  lemma {:induction false} FailingLeavesDispatch(s: Saga, t: Saga, ending: Ending)
    requires Shaped(s) && FailsOver(s, t, ending)
    ensures t.progress != Waiting && (t.progress == Going ==> t.rt.stage == 3) && t.log == s.log
  {
  }

  lemma {:induction false} NotToDispatch(s: Saga, input: Input, t: Saga)
    requires Shaped(s) && 3 <= s.rt.stage <= 8 && s.rt.stage != 5 && StageLaw(s, input, t)
    ensures t.progress != Waiting && (t.progress == Going ==> t.rt.stage != 6)
    ensures t.log != s.log ==> s.rt.stage == 6 && t.log == s.log + [Moved(s.rt.index, s.rt.mode)] && t.svc.approvals == ApprovalsUsed(s)
  {
    hide FailsOver, MoveOf, Ready, ApprovalsUsed;
    forall ending | FailsOver(s, t, ending) ensures t.progress != Waiting && (t.progress == Going ==> t.rt.stage == 3) && t.log == s.log {
      FailingLeavesDispatch(s, t, ending);
    }
  }

  lemma {:induction false} BeforeWaiting(w: World, s: Saga, cause: Cause, t: Saga)
    requires Inv(w, s) && Law(s, cause, t) && t.progress == Waiting
    ensures cause.Answers? && s.rt.stage == 5 && cause.input.effect == RequireApproval && t.rt.approval == Some(t.rt.call)
    ensures t.rt.index == s.rt.index && t.rt.mode == s.rt.mode && t.rt.call == s.rt.call && t.rt.node == s.rt.node
  {
    hide Inv, FailsOver;
    if cause.Answers? && s.rt.stage != 5 { NotToDispatch(s, cause.input, t); }
    if cause.Answers? && s.rt.stage == 5 && cause.input.effect == Deny { FailingLeavesDispatch(s, t, PolicyDenied); }
  }

  /** The log grows only at a dispatch. */
  lemma {:induction false} LogGrowsAtDispatch(w: World, s: Saga, cause: Cause, t: Saga)
    requires Inv(w, s) && Law(s, cause, t) && t.log != s.log
    ensures s.progress == Going && s.rt.stage == 6 && t.log == s.log + [Moved(s.rt.index, s.rt.mode)] && t.svc.approvals == ApprovalsUsed(s)
  {
    hide Inv, FailsOver, ApprovalsUsed;
    if cause.Answers? && s.rt.stage != 5 { NotToDispatch(s, cause.input, t); }
    if cause.Answers? && s.rt.stage == 5 && cause.input.effect == Deny { FailingLeavesDispatch(s, t, PolicyDenied); }
  }

  /**
   No file is moved unasked. Whenever a step of a run adds a move to the account, the policy answered on that
   very move just before: it allowed it, or it required an approval, that approval was granted in between, and
   is used up by the move.
   */
  lemma {:induction false} EveryMoveWasAuthorized(states: seq<Saga>, causes: seq<Cause>, w: World, k: nat)
    requires RunBy(states, causes, w) && k < |causes| && states[k + 1].log != states[k].log
    ensures var s, t := states[k], states[k + 1];
            && s.rt.index < |s.nodes|
            && t.log == s.log + [Moved(s.rt.index, s.rt.mode)]
            && (AnsweredAt(states, causes, k - 1, s.rt.index, s.rt.mode, Allow)
                || (&& AnsweredAt(states, causes, k - 2, s.rt.index, s.rt.mode, RequireApproval)
                    && causes[k - 1] == Granted
                    && CallId(s.nodes[s.rt.index], s.rt.mode) in t.svc.approvals
                    && t.svc.approvals[CallId(s.nodes[s.rt.index], s.rt.mode)] == Consumed))
  {
    hide Inv, Law;
    RunIsLawful(states, causes, w, k);
    LogGrowsAtDispatch(w, states[k], causes[k], states[k + 1]);
    CallIsOfNode(w, states[k]);
    if k == 0 {
      StartsAtThree(states, causes, w);
    } else {
      RunIsLawful(states, causes, w, k - 1);
      BeforeDispatch(w, states[k - 1], causes[k - 1], states[k]);
      if causes[k - 1] == Granted {
        if k == 1 {
          StartsAtThree(states, causes, w);
        } else {
          RunIsLawful(states, causes, w, k - 2);
          BeforeWaiting(w, states[k - 2], causes[k - 2], states[k - 1]);
        }
      }
    }
  }

  lemma {:induction false} StartsAtThree(states: seq<Saga>, causes: seq<Cause>, w: World)
    requires RunBy(states, causes, w)
    ensures states[0].progress == Going && states[0].rt.stage == 3
  {
  }

  lemma {:induction false} CallIsOfNode(w: World, s: Saga)
    requires Inv(w, s) && s.progress == Going
    ensures s.rt.index < |s.nodes| && s.rt.call == CallId(s.nodes[s.rt.index], s.rt.mode)
  {
    hide StoreOk, Statuses, Prepared, Named, Running;
  }

  /** A denied or refused move is never made: the account of moves ends where it stood. */
  lemma {:induction false} RefusalMovesNothing(states: seq<Saga>, causes: seq<Cause>, w: World, k: nat)
    requires RunBy(states, causes, w) && k < |causes|
    requires causes[k].Refused? || (causes[k].Answers? && states[k].rt.stage == 5 && causes[k].input.effect == Deny)
    ensures states[k + 1].log == states[k].log && states[k + 1].world == states[k].world
    ensures states[k + 1].progress == Going ==> states[k + 1].rt.mode == Compensating && states[k + 1].rt.index + 1 == states[k].rt.index
  {
    hide Inv, Law;
    RunIsLawful(states, causes, w, k);
    RefusedStep(states[k], causes[k], states[k + 1]);
  }

  lemma {:induction false} RefusedStep(s: Saga, cause: Cause, t: Saga)
    requires Law(s, cause, t)
    requires cause.Refused? || (cause.Answers? && s.rt.stage == 5 && cause.input.effect == Deny)
    ensures t.log == s.log && t.world == s.world
    ensures t.progress == Going ==> t.rt.mode == Compensating && t.rt.index + 1 == s.rt.index
  {
    hide DispatchLaw, PrepareLaw, StartLaw, VerifyLaw;
    if cause.Answers? { FailingGoesBack(s, t, PolicyDenied); }
    hide FailsOver;
  }

  lemma {:induction false} FailingGoesBack(s: Saga, t: Saga, ending: Ending)
    requires Shaped(s)
    ensures FailsOver(s, t, ending) ==> t.log == s.log && t.world == s.world
    ensures FailsOver(s, t, ending) && t.progress == Going ==> t.rt.mode == Compensating && t.rt.index + 1 == s.rt.index
  {
  }

  // ---------- completion ----------

  /** Each operation finds its file and a free place, when it is made after those before it. */
  ghost predicate Possible(w: World, ops: seq<Operation>) {
    forall j | 0 <= j < |ops| :: ops[j].source in After(w, ops, j) && ops[j].destination !in After(w, ops, j)
  }

  /** Files can be read, the policy allows or asks, and the runner runs. */
  predicate Agreeable(input: Input) {
    input.projects && input.effect != Deny && input.result == Succeeds
  }

  /** The run in which every stage gets its answers and every approval asked for is granted. */
  function Attended(s: Saga, inputs: nat -> Input, k: nat): Saga
    decreases k
  {
    if k == 0 || s.progress.Ended? then s
    else if s.progress == Waiting then Attended(Approve(s), inputs, k - 1)
    else if Shaped(s) then Attended(RunStage(s, inputs(k)), inputs, k - 1)
    else s
  }

  lemma {:induction false} MovePossible(w: World, s: Saga)
    requires Inv(w, s) && s.progress == Going && s.rt.mode == Forward && s.rt.stage <= 6 && Possible(w, s.ops)
    ensures Shaped(s) && MoveOf(s).source in s.world && MoveOf(s).destination !in s.world
  {
    hide Inv, After, Possible, StoreOk, Statuses, Prepared, Bound, Named, Feasible, Onward, Backward;
    InvMeans(w, s);
    StoreMeans(w, s);
    PossibleAt(w, s.ops, s.rt.index);
  }

  lemma {:induction false} PossibleAt(w: World, ops: seq<Operation>, j: nat)
    requires Possible(w, ops) && j < |ops|
    ensures ops[j].source in After(w, ops, j) && ops[j].destination !in After(w, ops, j)
  {
  }

  /** Going forward among agreeable answers, a saga goes on forward until it is complete. */
  lemma {:induction false} AgreementGoesOn(w: World, s: Saga, input: Input)
    requires Inv(w, s) && s.progress == Going && s.rt.mode == Forward && Possible(w, s.ops) && Agreeable(input)
    ensures Shaped(s)
    ensures var t := RunStage(s, input);
            t.ops == s.ops && (t.progress == Ended(Completed) || (!t.progress.Ended? && t.rt.mode == Forward))
  {
    StageIsLawful(w, s, input);
    if s.rt.stage <= 6 { MovePossible(w, s); }
    StaysForward(w, s, input, RunStage(s, input));
  }

  lemma {:induction false} StaysForward(w: World, s: Saga, input: Input, t: Saga)
    requires Shaped(s) && 3 <= s.rt.stage <= 8 && StageLaw(s, input, t) && s.rt.mode == Forward && Agreeable(input)
    requires s.rt.stage <= 6 ==> MoveOf(s).source in s.world && MoveOf(s).destination !in s.world
    ensures t.ops == s.ops && (t.progress == Ended(Completed) || (!t.progress.Ended? && t.rt.mode == Forward))
  {
    hide FailsOver, MoveOf;
  }

  /**
   The saga completes: if every operation can be made after those before it, nobody refuses and every approval
   asked for is granted, then all the operations are made, in order.
   */
  lemma {:induction false} AgreementCompletes(w: World, s: Saga, inputs: nat -> Input, k: nat)
    requires Inv(w, s) && !s.progress.Ended? && s.rt.mode == Forward && Possible(w, s.ops) && Shaped(s)
    requires forall i: nat :: Agreeable(inputs(i))
    requires k >= Measure(s)
    ensures var t := Attended(s, inputs, k);
            t.progress == Ended(Completed) && t.svc.task == TaskSucceeded && t.world == After(w, s.ops, |s.ops|) && t.log == Onward(|s.ops|)
    decreases k
  {
    hide Inv, RunStage, Measure, Possible, Approve, Agreeable, After, Onward;
    if s.progress == Going {
      MeasurePositive(s);
      var t := RunStage(s, inputs(k));
      AgreementGoesOn(w, s, inputs(k));
      RunStageKeepsInv(w, s, inputs(k));
      InvMeans(w, s);
      StageDecreases(w, s, inputs(k));
      if t.progress.Ended? { CompletedStore(w, s, inputs(k)); } else { AgreementCompletes(w, t, inputs, k - 1); }
    } else {
      ApproveKeepsInv(w, s);
      ApproveIsLawful(s);
      ResolutionDecreases(s);
      AgreementCompletes(w, Approve(s), inputs, k - 1);
    }
  }

  lemma {:induction false} CompletedStore(w: World, s: Saga, input: Input)
    requires Inv(w, s) && s.progress == Going && Shaped(s) && RunStage(s, input).progress == Ended(Completed)
    ensures var t := RunStage(s, input);
            t.svc.task == TaskSucceeded && t.world == After(w, s.ops, |s.ops|) && t.log == Onward(|s.ops|)
  {
    RunStageKeepsInv(w, s, input);
    StageIsLawful(w, s, input);
    var t := RunStage(s, input);
    hide RunStage;
    OnlyFinishCompletes(s, input, t);
    CompletedAccount(w, t);
  }

  lemma {:induction false} OnlyFinishCompletes(s: Saga, input: Input, t: Saga)
    requires Shaped(s) && 3 <= s.rt.stage <= 8 && StageLaw(s, input, t) && t.progress == Ended(Completed)
    ensures t.svc.task == TaskSucceeded && t.ops == s.ops
  {
    hide MoveOf;
  }

  lemma {:induction false} CompletedAccount(w: World, t: Saga)
    requires Inv(w, t) && t.progress == Ended(Completed)
    ensures t.world == After(w, t.ops, |t.ops|) && t.log == Onward(|t.ops|)
  {
    hide Statuses, After, Onward;
    assert Backward(t.top, t.top) == [];
  }
}
