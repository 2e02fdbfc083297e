/** The saga's promises over whole runs. */
module SagaTheorems {
  import opened Ordering
  import opened Saga
  import opened SagaProofs

  // ---------- runs ----------

  ghost predicate Step(s: Saga, t: Saga) {
    if s.progress == Going then Shaped(s) && exists input :: t == RunStage(s, input)
    else s.progress == Waiting && (t == Approve(s) || t == Decline(s, Rejected) || t == Decline(s, Expired))
  }

  ghost predicate Run(states: seq<Saga>, w: World) {
    && |states| > 0
    && Starts(states[0], w)
    && (forall i | 0 <= i < |states| - 1 :: Step(states[i], states[i + 1]))
  }

  /** A saga of at least one operation, on distinct nodes, before its first stage. */
  ghost predicate Starts(s: Saga, w: World) {
    && |s.ops| == |s.nodes| >= 1
    && (forall i, j | 0 <= i < j < |s.nodes| :: s.nodes[i] != s.nodes[j])
    && s == Initial(s.ops, s.nodes, w)
  }

  lemma {:induction false} StepKeepsInv(w: World, s: Saga, t: Saga)
    requires Inv(w, s) && Step(s, t)
    ensures Inv(w, t)
  {
    hide Inv, RunStage;
    if s.progress == Going {
      var input :| t == RunStage(s, input);
      RunStageKeepsInv(w, s, input);
    } else if t == Approve(s) {
      ApproveKeepsInv(w, s);
    } else {
      InvMeans(w, s);
      EndKeepsInv(w, s, t);
    }
  }

  lemma {:induction false} RunKeepsInv(states: seq<Saga>, w: World, n: nat)
    requires Run(states, w) && n < |states|
    ensures Inv(w, states[n])
    decreases n
  {
    hide Inv, Step, Initial;
    if n == 0 {
      InitialInv(states[0].ops, states[0].nodes, w);
    } else {
      RunKeepsInv(states, w, n - 1);
      assert Step(states[n - 1], states[n - 1 + 1]);
      StepKeepsInv(w, states[n - 1], states[n]);
    }
  }

  // ---------- the store ----------

  /**
   At every moment of every run whose last call's outcome is known, the store is exactly the
   fold of the moves applied and not yet undone, and a stage is never run out of turn.
   */
  lemma {:induction false} StoreIsFold(states: seq<Saga>, w: World, n: nat)
    requires Run(states, w) && n < |states| && states[n].progress != Ended(OutcomeUnknown)
    ensures var s := states[n];
            && Live(s) <= s.top <= |s.ops| && s.world == After(w, s.ops, Live(s))
            && s.log == Onward(s.top) + Backward(s.top, Live(s))
            && s.progress != Ended(ProcessingFailed)
  {
    RunKeepsInv(states, w, n);
    InvMeans(w, states[n]);
    hide Inv;
    StoreMeans(w, states[n]);
  }

  /**
   A compensated saga restores the store: the path-to-version map is the initial one, the moves
   before the failed node were applied in order and undone in strictly reverse order, the node
   that failed is failed, and no later node was ever started.
   */
  lemma {:induction false} CompensationRestoresStore(states: seq<Saga>, w: World, n: nat)
    requires Run(states, w) && n < |states| && states[n].progress == Ended(SagaCompensated)
    ensures var s := states[n];
            && s.world == w
            && 0 < s.top < |s.ops| == |s.svc.status| == |s.nodes| && s.rt.failure == Some(s.nodes[s.top])
            && s.log == Onward(s.top) + Backward(s.top, 0)
            && (forall j | 0 <= j < |s.ops| ::
                  s.svc.status[j] == if j < s.top then Compensated else if j == s.top then Failed else Pending)
  {
    RunKeepsInv(states, w, n);
    var s := states[n];
    forall j | 0 <= j < |s.ops|
      ensures s.svc.status[j] == if j < s.top then Compensated else if j == s.top then Failed else Pending
    {
      assert s.svc.status[j] == Expected(s, j);
    }
    hide Onward, Backward, Feasible;
  }

  /** The i-th undoing in the log of a full compensation is of move top - 1 - i. */
  lemma {:induction false} BackwardReversesOnward(top: nat, live: nat, i: nat)
    requires live <= top && i < top - live
    ensures |Onward(top)| == top && Onward(top)[top - 1 - i] == Moved(top - 1 - i, Forward)
    ensures |Backward(top, live)| == top - live && Backward(top, live)[i] == Moved(top - 1 - i, Compensating)
    decreases top - live
  {
    OnwardAt(top, top - 1 - i);
    if live + 1 < top {
      BackwardReversesOnward(top, live + 1, if i < top - live - 1 then i else 0);
    }
  }

  lemma {:induction false} OnwardAt(k: nat, i: nat)
    requires i < k
    ensures |Onward(k)| == k && Onward(k)[i] == Moved(i, Forward)
    decreases k
  {
    if k > 1 { OnwardAt(k - 1, if i < k - 1 then i else 0); }
  }

  /** A completed saga has applied every move, once and in order. */
  lemma {:induction false} CompletionAppliesAll(states: seq<Saga>, w: World, n: nat)
    requires Run(states, w) && n < |states| && states[n].progress == Ended(Completed)
    ensures var s := states[n];
            s.world == After(w, s.ops, |s.ops|) && s.log == Onward(|s.ops|) && forall j | 0 <= j < |s.svc.status| :: s.svc.status[j] == Succeeded
  {
    RunKeepsInv(states, w, n);
    var s := states[n];
    forall j | 0 <= j < |s.svc.status| ensures s.svc.status[j] == Succeeded { assert s.svc.status[j] == Expected(s, j); }
    assert Backward(s.top, s.top) == [];
    assert Onward(s.top) + [] == Onward(s.top);
    hide Feasible;
  }

  /** A saga that ended as failed, or as denied, without compensation has touched nothing. */
  lemma {:induction false} FirstFailureTouchesNothing(states: seq<Saga>, w: World, n: nat)
    requires Run(states, w) && n < |states|
    requires states[n].progress == Ended(SagaForwardFailed) || states[n].progress == Ended(PolicyDenied)
    ensures states[n].world == w && states[n].log == []
  {
    RunKeepsInv(states, w, n);
    assert Onward(0) + Backward(0, 0) == [];
  }

  // ---------- progress ----------

  /** Six stages for each node still to do, and twice as many nodes while going forward; a decision still to come counts one. */
  function Measure(s: Saga): nat
    requires Shaped(s)
  {
    if s.progress.Ended? then 0
    else
      var stages := 2 * (9 - Min(s.rt.stage, 8)) + (if s.progress == Waiting then 1 else 0);
      if s.rt.mode == Compensating then 1 + 20 * s.rt.index + stages
      else 1 + 20 * (2 * |s.ops| - s.rt.index) + stages
  }

  lemma {:induction false} MeasurePositive(s: Saga)
    requires Shaped(s) && s.progress == Going
    ensures Measure(s) > 0
  {
  }

  /** Every step of a run comes closer to its end, so every run ends. */
  lemma {:induction false} StepsDecrease(w: World, s: Saga, t: Saga)
    requires Inv(w, s) && Step(s, t)
    ensures Shaped(t) && Measure(t) < Measure(s)
  {
    hide Inv, RunStage, Measure, Approve, Decline, StoreOk, Statuses, Bound, Prepared, Named;
    InvMeans(w, s);
    if s.progress == Going {
      var input :| t == RunStage(s, input);
      StageDecreases(w, s, input);
    } else {
      ResolutionDecreases(s);
    }
  }

  lemma {:induction false} ResolutionDecreases(s: Saga)
    requires Shaped(s) && s.progress == Waiting
    ensures Shaped(Approve(s)) && Measure(Approve(s)) < Measure(s)
    ensures Shaped(Decline(s, Rejected)) && Measure(Decline(s, Rejected)) < Measure(s)
    ensures Shaped(Decline(s, Expired)) && Measure(Decline(s, Expired)) < Measure(s)
  {
    hide CheckpointOf;
  }

  lemma {:induction false} StageDecreases(w: World, s: Saga, input: Input)
    requires Placed(s) && Running(s) && s.progress == Going
    ensures Shaped(RunStage(s, input)) && Measure(RunStage(s, input)) < Measure(s)
  {
    hide Measure, StartNode, Prepare, Authorize, Dispatch, Verify, Finish;
    match s.rt.stage
    case 3 => StartDecreases(s);
    case 4 => PrepareDecreases(s, input);
    case 5 => AuthorizeDecreases(s, input);
    case 6 => DispatchDecreases(s, input);
    case 7 => VerifyDecreases(s);
    case _ => FinishDecreases(s);
  }

  lemma {:induction false} StartDecreases(s: Saga)
    requires Shaped(s) && s.progress == Going && s.rt.stage == 3
    ensures Shaped(StartNode(s)) && Measure(StartNode(s)) < Measure(s)
  {
    hide CheckpointOf;
  }

  lemma {:induction false} VerifyDecreases(s: Saga)
    requires Placed(s) && s.progress == Going && s.rt.stage == 7
    ensures Shaped(Verify(s)) && Measure(Verify(s)) < Measure(s)
  {
    hide CheckpointOf;
  }

  lemma {:induction false} FinishDecreases(s: Saga)
    requires Shaped(s) && s.progress == Going
    ensures Shaped(Finish(s)) && Measure(Finish(s)) < Measure(s)
  {
  }

  lemma {:induction false} TurnBackDecreases(s: Saga, t: Saga)
    requires Placed(s) && s.progress == Going && s.rt.mode == Forward && 3 <= s.rt.stage <= 6 && s.rt.index > 0
    requires t.ops == s.ops && t.nodes == s.nodes && t.rt.index == s.rt.index && t.progress == Going && |t.svc.status| == |s.svc.status|
    ensures Shaped(TurnBack(t)) && Measure(TurnBack(t)) < Measure(s)
  {
  }

  lemma {:induction false} PrepareDecreases(s: Saga, input: Input)
    requires Placed(s) && s.progress == Going && s.rt.stage == 4
    ensures Shaped(Prepare(s, input)) && Measure(Prepare(s, input)) < Measure(s)
  {
    hide TurnBack;
    var t := s.(rt := s.rt.(args := Some(CurrentMove(s))));
    FailureDecreases(s, Logged(FailNode(t), 1), false);
  }

  lemma {:induction false} FailureDecreases(s: Saga, t: Saga, denied: bool)
    requires Placed(s) && s.progress == Going && 4 <= s.rt.stage <= 6
    requires t.ops == s.ops && t.nodes == s.nodes && t.rt.index == s.rt.index && t.rt.mode == s.rt.mode
    requires t.progress == Going && |t.svc.status| == |s.svc.status|
    ensures Shaped(AfterFailure(t, denied)) && Measure(AfterFailure(t, denied)) < Measure(s)
  {
    hide TurnBack;
    if s.rt.mode == Forward && s.rt.index > 0 {
      TurnBackDecreases(s, t.(rt := t.rt.(failure := Some(t.rt.node))));
    }
  }

  lemma {:induction false} AuthorizeDecreases(s: Saga, input: Input)
    requires Placed(s) && s.progress == Going && s.rt.stage == 5
    ensures Shaped(Authorize(s, input)) && Measure(Authorize(s, input)) < Measure(s)
  {
    hide AfterFailure;
    FailureDecreases(s, Logged(FailNode(Decided(s, Deny)), 1), true);
  }

  lemma {:induction false} EndedDecreases(s: Saga, t: Saga, status: CallStatus)
    requires Placed(s) && s.progress == Going && s.rt.stage == 6 && (t == s || t == Started(s))
    ensures Shaped(t) && Shaped(AfterFailure(CallEnded(t, status), false))
    ensures Measure(AfterFailure(CallEnded(t, status), false)) < Measure(s)
  {
    hide AfterFailure, Measure;
    FailureDecreases(s, CallEnded(t, status), false);
  }

  lemma {:induction false} EndingDecreases(s: Saga, moved: bool)
    requires Placed(s) && s.progress == Going && s.rt.stage == 6
    ensures Shaped(Started(s)) && Shaped(Decline(s, Expired)) && Shaped(LoseTrack(Started(s), moved))
    ensures Measure(Decline(s, Expired)) == Measure(LoseTrack(Started(s), moved)) == 0
  {
    hide Move;
  }

  lemma {:induction false} CommitDecreases(s: Saga, input: Input)
    requires Placed(s) && s.progress == Going && s.rt.stage == 6 && ResultOn(s, input.result) == Succeeds
    ensures Shaped(Started(s)) && s.rt.args.Some? && s.rt.versions.Some?
    ensures var t := Proceed(Committed(Started(s)), 7); Shaped(t) && Measure(t) < Measure(s)
  {
    hide Move, CanMove;
  }

  lemma {:induction false} DispatchDecreases(s: Saga, input: Input)
    requires Placed(s) && s.progress == Going && s.rt.stage == 6
    ensures Shaped(Dispatch(s, input)) && Measure(Dispatch(s, input)) < Measure(s)
  {
    hide AfterFailure, CanMove, Move, CallEnded, Started, Committed, LoseTrack, Decline, Measure, ResultOn;
    MeasurePositive(s);
    match ResultOn(s, input.result)
    case NotReady => EndedDecreases(s, s, CallFailed);
    case Unauthorized => EndedDecreases(s, s, CallFailed);
    case Fails => EndedDecreases(s, Started(s), CallFailed);
    case Cancels => EndedDecreases(s, Started(s), CallCancelled);
    case ApprovalExpired => EndingDecreases(s, false);
    case Succeeds => CommitDecreases(s, input);
    case Lost(moved) => EndingDecreases(s, moved);
  }

  lemma {:induction false} RunsEnd(states: seq<Saga>, w: World, n: nat)
    requires Run(states, w) && n < |states|
    ensures Shaped(states[0]) && Shaped(states[n]) && n <= Measure(states[0]) - Measure(states[n])
    decreases n
  {
    hide Inv, Step, Measure;
    RunKeepsInv(states, w, n);
    RunKeepsInv(states, w, 0);
    InvMeans(w, states[n]);
    InvMeans(w, states[0]);
    if n > 0 {
      RunsEnd(states, w, n - 1);
      RunKeepsInv(states, w, n - 1);
      assert Step(states[n - 1], states[n - 1 + 1]);
      StepsDecrease(w, states[n - 1], states[n]);
    }
  }

  // ---------- compensation is enabled ----------

  /** Nothing but the saga has touched the store, so each reverse move can be made at exactly the version its receipt names. */
  lemma {:induction false} ReverseMoveEnabled(states: seq<Saga>, w: World, n: nat)
    requires Run(states, w) && n < |states|
    requires states[n].progress == Going && states[n].rt.mode == Compensating && states[n].rt.stage <= 6
    ensures var s := states[n];
            && Shaped(s) && s.rt.index in s.svc.receipts
            && CanMove(s.world, CurrentMove(s), s.svc.receipts[s.rt.index])
            && (s.rt.stage == 6 ==> s.rt.args == Some(CurrentMove(s)) && s.rt.versions == Some(s.svc.receipts[s.rt.index]))
  {
    RunKeepsInv(states, w, n);
    ReceiptKnown(w, states[n]);
  }

  /** An environment that lets every compensation through: the files can be read, policy allows, the runner runs. */
  predicate Cooperative(input: Input) {
    input.projects && input.effect == Allow && input.result == Succeeds
  }

  lemma {:induction false} CooperationContinues(w: World, s: Saga, input: Input)
    requires Inv(w, s) && s.progress == Going && s.rt.mode == Compensating && Cooperative(input)
    ensures Shaped(s)
    ensures var t := RunStage(s, input);
            t.rt.mode == Compensating && (t.progress == Going || t.progress == Ended(SagaCompensated))
  {
    hide After, Onward, Backward, Feasible, StoreOk;
    ReceiptKnown(w, s);
    assert s.svc.status[s.rt.index] == Expected(s, s.rt.index);
    hide Statuses, Move;
  }

  /** The run that stage after stage gets the given answers. */
  function Continued(s: Saga, inputs: nat -> Input, k: nat): Saga
    requires Shaped(s)
    decreases k
  {
    if k == 0 || s.progress != Going then s
    else
      var t := RunStage(s, inputs(k));
      if Shaped(t) then Continued(t, inputs, k - 1) else t
  }

  /**
   Compensation completes: from any moment of going back, if every answer cooperates and nothing
   else interferes, the saga ends compensated with the initial store.
   */
  lemma {:induction false} CompensationCompletes(w: World, s: Saga, inputs: nat -> Input, k: nat)
    requires Inv(w, s) && s.progress == Going && s.rt.mode == Compensating && Shaped(s)
    requires forall i: nat :: Cooperative(inputs(i))
    requires k >= Measure(s)
    ensures var t := Continued(s, inputs, k); t.progress == Ended(SagaCompensated) && t.world == w
    decreases k
  {
    hide Inv, RunStage, Measure, Continued, Placed, StoreOk, Statuses, Prepared, Bound, Running, Named;
    InvMeans(w, s);
    MeasurePositive(s);
    var t := RunStage(s, inputs(k));
    CooperationContinues(w, s, inputs(k));
    RunStageKeepsInv(w, s, inputs(k));
    StageDecreases(w, s, inputs(k));
    ContinuedStep(s, inputs, k);
    if t.progress == Going {
      CompensationCompletes(w, t, inputs, k - 1);
    } else {
      CompensatedStore(w, t);
    }
  }

  lemma {:induction false} ContinuedStep(s: Saga, inputs: nat -> Input, k: nat)
    requires Shaped(s) && s.progress == Going && k > 0 && Shaped(RunStage(s, inputs(k)))
    ensures Continued(s, inputs, k) == Continued(RunStage(s, inputs(k)), inputs, k - 1)
    ensures RunStage(s, inputs(k)).progress != Going ==> Continued(s, inputs, k) == RunStage(s, inputs(k))
  {
    hide RunStage;
  }

  lemma {:induction false} CompensatedStore(w: World, s: Saga)
    requires Inv(w, s) && s.progress == Ended(SagaCompensated)
    ensures s.world == w
  {
  }
}
