/**
 The saga as the processor runs it: the fields of the runtime record, assigned stage by stage,
 and the task service's rows, changed one transaction at a time.
 */
module SagaProcessor {
  import opened Ordering
  import opened Saga
  import opened SagaProofs
  import opened SagaTheorems
  import SagaAnswers

  /** What another party does to an approval while the task is being suspended. */
  datatype Meanwhile = Nothing | Grants | Rejects

  class TaskProcessor {
    const ops: seq<Operation>
    const nodes: seq<Id>
    // The runtime record.
    var nextStage: nat
    var call: CallId
    var attempt: AttemptId
    var args: Option<Operation>
    var resources: Option<Version>
    var versions: Option<Version>
    var key: Option<Id>
    var policy: Option<Policy>
    var approval: Option<CallId>
    var node: Id
    var index: nat
    var mode: Mode
    var failure: Option<Id>
    // What is durable, the files, and how far the task got.
    var rows: Service
    var world: World
    var progress: Progress
    ghost var top: nat
    ghost var log: seq<Moved>
    // The rows after each transaction.
    ghost var commits: seq<Service>
    ghost const initial: World

    function Memory(): Runtime
      reads this`nextStage, this`call, this`attempt, this`args, this`resources, this`versions, this`key, this`policy, this`approval,
            this`node, this`index, this`mode, this`failure
    {
      Runtime(nextStage, call, attempt, args, resources, versions, key, policy, approval, node, index, mode, failure)
    }

    ghost function View(): Saga
      reads this
    {
      Saga(ops, nodes, Memory(), rows, world, progress, top, log)
    }

    ghost predicate Valid()
      reads this
    {
      Inv(initial, View())
    }

    constructor (operations: seq<Operation>, ids: seq<Id>, w: World)
      requires |operations| == |ids| >= 1 && forall i, j | 0 <= i < j < |ids| :: ids[i] != ids[j]
      ensures Valid() && View() == Initial(operations, ids, w) && initial == w && commits == []
    {
      ops, nodes, world, initial := operations, ids, w, w;
      nextStage, call, attempt := 3, CallId(ids[0], Forward), AttemptId(ids[0], Forward);
      args, resources, versions, key, policy, approval := None, None, None, None, None, None;
      node, index, mode, failure := ids[0], 0, Forward, None;
      rows := Service(TaskRunning, GraphActive, Forward, seq(|operations|, i => Pending), map[], map[], map[], 0,
                      Some(Checkpoint(3, CallId(ids[0], Forward), None, None, None, None, None, None, ids[0], 0, Forward, None)), 0);
      progress, top, log, commits := Going, 0, [], [];
      new;
      InitialInv(operations, ids, w);
    }

    // ---------- single transactions ----------

    method SaveCheckpoint()
      modifies this`rows, this`commits
      ensures rows == Write(old(rows), CheckpointOf(Memory())) && commits == old(commits) + [rows]
    {
      rows := rows.(saved := Some(CheckpointOf(Memory())), bound := rows.events);
      commits := commits + [rows];
    }

    /** The event that ends the task; a terminal status deletes the checkpoint. */
    method EndTask(ending: Ending, terminal: TaskStatus)
      modifies this`rows, this`progress, this`commits
      ensures View() == End(old(View()), ending, terminal) && commits == old(commits) + [rows]
    {
      hide Memory;
      rows := rows.(task := terminal, events := rows.events + 1);
      if terminal == TaskSucceeded || terminal == TaskFailed || terminal == TaskCancelled { rows := rows.(saved := None); }
      progress := Ended(ending);
      commits := commits + [rows];
    }

    /** A node's transition with its event. */
    method TransitionNode(target: NodeStatus, graph: GraphStatus, executionMode: Mode)
      requires index < |rows.status|
      modifies this`rows, this`commits
      ensures View() == Logged(SetNode(old(View()), target, graph, executionMode), 1) && commits == old(commits) + [rows]
    {
      rows := rows.(status := rows.status[index := target], graph := graph, mode := executionMode, events := rows.events + 1);
      commits := commits + [rows];
    }

    /** An event of a step, for the task's own record. */
    method AppendEvent()
      modifies this`rows, this`commits
      ensures View() == Logged(old(View()), 1) && commits == old(commits) + [rows]
    {
      rows := rows.(events := rows.events + 1);
      commits := commits + [rows];
    }

    /** The call's request, with the checkpoint of the stage that follows it. */
    method RequestEffectCall()
      modifies this`rows, this`commits
      ensures View() == CallRequested(old(View())) && commits == old(commits) + [rows]
    {
      rows := rows.(calls := rows.calls[call := Requested], events := rows.events + 2);
      rows := rows.(saved := Some(CheckpointOf(Memory()).(stage := 5)), bound := rows.events);
      commits := commits + [rows];
    }

    /** The policy's decision: a denial fails the call, and a required approval suspends the task. */
    method ApplyPolicyDecision(effect: Effect)
      modifies this`rows, this`policy, this`approval, this`commits
      ensures View() == Decided(old(View()), effect) && commits == old(commits) + [rows]
    {
      hide Decided;
      DecidedAs(View(), effect);
      policy := Some(Policy(call, effect));
      rows := rows.(events := rows.events + 1);
      match effect {
        case Allow =>
        case Deny => rows := rows.(calls := rows.calls[call := CallFailed], events := rows.events + 1);
        case RequireApproval =>
          rows := rows.(approvals := rows.approvals[call := AwaitingDecision], task := TaskWaitingApproval, events := rows.events + 2);
          approval := Some(call);
      }
      commits := commits + [rows];
    }

    /** The call's start: its status, the approval it uses up, and a checkpoint that cannot be continued from until it ends. */
    method StartCall()
      requires Shaped(View())
      modifies this`rows, this`commits
      ensures View() == Started(old(View())) && commits == old(commits) + [rows]
    {
      if approval != None { rows := rows.(approvals := rows.approvals[call := Consumed]); }
      rows := rows.(calls := rows.calls[call := CallRunning], status := rows.status[index := Executing],
                    graph := if mode == Compensating then GraphCompensating else GraphActive, mode := mode, events := rows.events + 2);
      rows := rows.(saved := Some(CheckpointOf(Memory())), bound := rows.events);
      commits := commits + [rows];
    }

    /** The failing transaction: the call and node, and the checkpoint to continue from if there is something to undo. */
    method FinishEffectFailure(terminal: CallStatus)
      requires Shaped(View())
      modifies this`rows, this`commits
      ensures View() == CallEnded(old(View()), terminal) && commits == old(commits) + [rows]
    {
      var compensating := mode == Compensating;
      var hasAppliedPredecessor := !compensating && index > 0;
      rows := rows.(calls := rows.calls[call := terminal], events := rows.events + 2,
                    status := rows.status[index := if compensating then CompensationFailed else Failed],
                    graph := if hasAppliedPredecessor then GraphCompensating else GraphFailed,
                    mode := if hasAppliedPredecessor || compensating then Compensating else Forward);
      if hasAppliedPredecessor {
        var previous := nodes[index - 1];
        var checkpoint := CheckpointOf(Memory()).(
          stage := 3, call := CallId(previous, Compensating), args := None, resources := None, versions := None, key := None,
          policy := None, approval := None, node := previous, index := index - 1, mode := Compensating, failure := Some(node));
        rows := rows.(saved := Some(checkpoint), bound := rows.events);
      }
      commits := commits + [rows];
    }

    method ApplyMove(operation: Operation)
      modifies this`world
      ensures world == Move(old(world), operation)
    {
      if operation.source in world {
        world := world[operation.destination := world[operation.source]] - {operation.source};
      }
    }

    /** The committed effect: the call and its node done, for a forward move the receipt, and the next stage's checkpoint. */
    method CommitRows()
      requires Shaped(View()) && args != None && versions != None
      modifies this`rows, this`top, this`commits
      ensures rows == Committed(old(View())).svc && top == Committed(old(View())).top && commits == old(commits) + [rows]
    {
      hide Move;
      rows := rows.(calls := rows.calls[call := CallSucceeded], events := rows.events + 2);
      rows := rows.(saved := Some(CheckpointOf(Memory()).(stage := 7)), bound := rows.events);
      if mode == Compensating {
        rows := rows.(status := rows.status[index := Compensated], graph := GraphCompensating, mode := Compensating);
      } else {
        rows := rows.(status := rows.status[index := Succeeded], graph := GraphActive, mode := Forward,
                      receipts := rows.receipts[index := versions.value]);
        top := index + 1;
      }
      commits := commits + [rows];
    }

    method CommitEffect()
      requires Shaped(View()) && args != None && versions != None
      modifies this`rows, this`top, this`world, this`log, this`commits
      ensures View() == Committed(old(View())) && commits == old(commits) + [rows]
    {
      hide Move, Committed;
      ghost var s := View();
      CommitRows();
      ApplyMove(args.value);
      log := log + [Moved(index, mode)];
      CommittedKeepsMemory(s);
    }

    /** The outcome is unknown: the graph is blocked, the task waits for a reconciliation, and memory is saved with the failed node. */
    method FinishUnknown(moved: bool)
      requires Shaped(View())
      modifies this`rows, this`world, this`failure, this`progress, this`commits
      ensures View() == LoseTrack(old(View()), moved) && commits == old(commits) + [rows]
    {
      hide Memory, LoseTrack, CheckpointOf, WorldAfter;
      ghost var s := View();
      Places(s);
      ApplyIfMoved(moved);
      NameFailure();
      BlockRows();
      progress := Ended(OutcomeUnknown);
      LosesTrack(s, moved);
    }

    method NameFailure()
      modifies this`failure
      ensures Memory() == old(Memory()).(failure := if old(Memory()).failure == None then Some(old(Memory()).node) else old(Memory()).failure)
    {
      if failure == None { failure := Some(node); }
    }

    method ApplyIfMoved(moved: bool)
      modifies this`world
      ensures world == if moved then WorldAfter(old(View())) else old(world)
    {
      hide Move;
      if moved && args != None { ApplyMove(args.value); }
    }

    method BlockRows()
      requires index < |rows.status|
      modifies this`rows, this`commits
      ensures rows == old(rows).(
        calls := old(rows).calls[call := CallUnknown],
        status := old(rows).status[index := if mode == Compensating then CompensationUnknown else Unknown],
        graph := GraphBlocked, mode := mode, task := TaskReconciling, events := old(rows).events + 3,
        saved := Some(CheckpointOf(Memory())), bound := old(rows).events + 3)
      ensures commits == old(commits) + [rows]
    {
      rows := rows.(calls := rows.calls[call := CallUnknown],
                    status := rows.status[index := if mode == Compensating then CompensationUnknown else Unknown],
                    graph := GraphBlocked, mode := mode, task := TaskReconciling, events := rows.events + 3);
      rows := rows.(saved := Some(CheckpointOf(Memory())), bound := rows.events);
      commits := commits + [rows];
    }

    method ApproveCall()
      requires progress == Waiting && Valid()
      modifies this`rows, this`progress, this`commits
      ensures Valid() && View() == Approve(old(View())) && commits == old(commits) + [rows]
    {
      hide Inv;
      ApproveKeepsInv(initial, View());
      rows := rows.(approvals := rows.approvals[call := Approved], task := TaskRunning, events := rows.events + 2);
      rows := rows.(bound := rows.events);
      progress := Going;
      commits := commits + [rows];
    }

    /** A rejection, or an approval that ran out: the approval, the call and the task, in one transaction. */
    method DeclineCall(outcome: ApprovalStatus)
      modifies this`rows, this`progress, this`commits
      ensures View() == Decline(old(View()), outcome) && commits == old(commits) + [rows]
    {
      hide Memory;
      Places(View());
      rows := rows.(approvals := rows.approvals[call := outcome], calls := rows.calls[call := CallCancelled],
                    task := TaskCancelled, events := rows.events + 3, saved := None);
      progress := Ended(ApprovalDeclined);
      commits := commits + [rows];
    }

    // ---------- memory ----------

    method ClearCurrentAttempt()
      modifies this`attempt, this`call, this`args, this`resources, this`versions, this`key, this`policy, this`approval
      ensures Memory() == Cleared(old(Memory()))
    {
      attempt, call := AttemptId(node, mode), CallId(node, mode);
      args, resources, versions, key := None, None, None, None;
      policy, approval := None, None;
    }

    /** Makes another node the current one, to be taken up from its first stage. */
    method MoveTo(target: nat)
      requires target < |nodes|
      modifies this`index, this`node, this`nextStage, this`attempt, this`call, this`args, this`resources, this`versions, this`key,
               this`policy, this`approval
      ensures Memory() == Cleared(old(Memory()).(index := target, node := nodes[target], stage := 3))
    {
      index := target;
      node := nodes[index];
      nextStage := 3;
      ClearCurrentAttempt();
    }

    method MoveOn(target: nat)
      requires target < |nodes|
      modifies this`index, this`node, this`nextStage, this`attempt, this`call, this`args, this`resources, this`versions, this`key,
               this`policy, this`approval, this`rows, this`commits
      ensures View() == OnTo(old(View()), target) && commits == old(commits) + [rows]
    {
      hide Cleared, CheckpointOf;
      MoveTo(target);
      SaveCheckpoint();
    }

    /** The runtime record says where the saga stands. */
    lemma {:induction false} Places(s: Saga)
      requires s == View()
      ensures s.rt.index == index && s.rt.mode == mode && s.rt.node == node && s.rt.stage == nextStage && s.rt.call == call
    {
    }

    /** What the stage loop does after a stage: on to the next one, with a checkpoint. */
    method ProceedTo(stage: nat)
      modifies this`nextStage, this`rows, this`commits
      ensures View() == Proceed(old(View()), stage) && commits == old(commits) + [rows]
    {
      nextStage := stage;
      SaveCheckpoint();
    }

    /** In memory: compensate from the node before the failed one. */
    method StartCompensating()
      requires Shaped(View()) && index > 0
      modifies this
      ensures View() == TurnBack(old(View())) && commits == old(commits) + [rows]
    {
      hide Cleared, CheckpointOf, TurnBack;
      ghost var s := View();
      TurnsBack(s);
      mode := Compensating;
      MoveTo(index - 1);
      SaveCheckpoint();
    }

    // ---------- the stages ----------

    method StartStage()
      requires Shaped(View())
      modifies this
      ensures View() == StartNode(old(View()))
      ensures commits == old(commits) + StartInterim(old(View())) + [rows]
    {
      hide Cleared, CheckpointOf, End, Proceed, SetNode, StartNode, StartInterim, Logged, Memory;
      ghost var s := View();
      Places(s);
      StartsNode(s);
      if rows.status[index] != (if mode == Compensating then Succeeded else Pending) {
        EndTask(ProcessingFailed, TaskFailed);
        return;
      }
      ClearCurrentAttempt();
      ClearedKeepsPlace(old(Memory()));
      Places(View());
      TransitionNode(if mode == Compensating then Undoing else Active, if mode == Compensating then GraphCompensating else GraphActive, mode);
      AppendEvent();
      ProceedTo(4);
    }

    method HandlePreDispatchFailure()
      requires Shaped(View())
      modifies this
      ensures View() == PreDispatchFailure(old(View()))
      ensures commits == old(commits) + [Logged(FailNode(old(View())), 1).svc, rows]
    {
      hide TurnBack, End;
      if mode == Compensating {
        TransitionNode(CompensationFailed, GraphFailed, Compensating);
        EndTask(SagaCompensationFailed, TaskFailed);
        return;
      }
      failure := Some(node);
      var hasAppliedPredecessor := index > 0;
      TransitionNode(Failed, if hasAppliedPredecessor then GraphCompensating else GraphFailed,
                     if hasAppliedPredecessor then Compensating else Forward);
      if !hasAppliedPredecessor {
        EndTask(SagaForwardFailed, TaskFailed);
        return;
      }
      StartCompensating();
    }

    /** After a failed call: its node's transition, unless its own transaction made it, and then the end or the way back. */
    method HandleEffectCallFailure(denied: bool, transitionCommitted: bool)
      requires Shaped(View())
      modifies this
      ensures var failed := if transitionCommitted then old(View()) else Logged(FailNode(old(View())), 1);
              && View() == AfterFailure(failed, denied)
              && commits == old(commits) + (if transitionCommitted then [] else [failed.svc]) + [rows]
    {
      hide TurnBack, End;
      if mode == Compensating {
        if !transitionCommitted { TransitionNode(CompensationFailed, GraphFailed, Compensating); }
        EndTask(SagaCompensationFailed, TaskFailed);
        return;
      }
      failure := Some(node);
      var hasAppliedPredecessor := index > 0;
      if !transitionCommitted {
        TransitionNode(Failed, if hasAppliedPredecessor then GraphCompensating else GraphFailed,
                       if hasAppliedPredecessor then Compensating else Forward);
      }
      if !hasAppliedPredecessor {
        EndTask(if denied then PolicyDenied else SagaForwardFailed, TaskFailed);
        return;
      }
      StartCompensating();
    }

    method PrepareStage(input: Input)
      requires Shaped(View())
      modifies this
      ensures View() == Prepare(old(View()), input)
      ensures commits == old(commits) + PrepareInterim(old(View()), input) + [rows]
    {
      hide Project, ProjectInterim, End;
      var operation := ops[index];
      if mode == Compensating {
        if index !in rows.receipts {
          EndTask(ProcessingFailed, TaskFailed);
          return;
        }
        operation := Operation(operation.destination, operation.source);
      }
      args := Some(operation);
      ProjectMove(operation, input);
    }

    method ProjectMove(operation: Operation, input: Input)
      requires Shaped(View())
      modifies this
      ensures View() == Project(old(View()), operation, input)
      ensures commits == old(commits) + ProjectInterim(old(View()), operation, input) + [rows]
    {
      hide PreDispatchFailure, Proceed, CallRequested, FailNode, Logged;
      if !input.projects || operation.source !in world {
        HandlePreDispatchFailure();
        return;
      }
      var version := world[operation.source];
      resources := Some(version);
      if mode == Compensating && (index !in rows.receipts || version != rows.receipts[index]) {
        HandlePreDispatchFailure();
        return;
      }
      RequestMove(version, input.key);
    }

    /** The call is requested at the version that was read. */
    method RequestMove(version: Version, requestKey: Id)
      requires Shaped(View())
      modifies this
      ensures var u := old(View());
              View() == Proceed(CallRequested(u.(rt := u.rt.(versions := Some(version), key := Some(requestKey)))), 5)
      ensures var u := old(View());
              commits == old(commits) + [CallRequested(u.(rt := u.rt.(versions := Some(version), key := Some(requestKey)))).svc, rows]
    {
      hide Proceed, CallRequested;
      versions := Some(version);
      key := Some(requestKey);
      RequestEffectCall();
      ProceedTo(5);
    }

    method AuthorizeStage(input: Input)
      requires Shaped(View())
      modifies this
      ensures View() == Authorize(old(View()), input)
      ensures commits == old(commits) + AuthorizeInterim(old(View()), input) + [rows]
    {
      hide AfterFailure, FailNode, Logged, Proceed, End;
      if args == None || resources == None {
        EndTask(ProcessingFailed, TaskFailed);
        return;
      }
      DecidedStays(View(), input.effect);
      ApplyPolicyDecision(input.effect);
      match input.effect
      case Deny => HandleEffectCallFailure(true, false);
      case Allow => ProceedTo(6);
      case RequireApproval =>
        ProceedTo(6);
        progress := Waiting;
    }

    /** The runner moves only a file that is there at the expected version, to a place that is free. */
    method CallRunner(answer: Result) returns (result: Result)
      ensures result == ResultOn(View(), answer)
    {
      result := answer;
      if answer == Succeeds && (args == None || versions == None || !CanMove(world, args.value, versions.value)) {
        result := Fails;
      }
    }

    method FailCall(terminal: CallStatus)
      requires Shaped(View())
      modifies this
      ensures Shaped(CallEnded(old(View()), terminal)) && View() == AfterFailure(CallEnded(old(View()), terminal), false)
      ensures commits == old(commits) + [CallEnded(old(View()), terminal).svc, rows]
    {
      hide AfterFailure;
      EndedStays(View(), terminal);
      hide CallEnded;
      FinishEffectFailure(terminal);
      HandleEffectCallFailure(false, true);
    }

    method DispatchStage(input: Input)
      requires Shaped(View()) && progress == Going
      modifies this
      ensures View() == Dispatch(old(View()), input)
      ensures commits == old(commits) + DispatchInterim(old(View()), input) + [rows]
    {
      hide AfterFailure, CallEnded, Committed, CanMove, Move, LoseTrack, Proceed, Decline, Started;
      ghost var s := View();
      StartedKeepsMemory(s);
      var result := CallRunner(input.result);
      match result
      case NotReady => FailCall(CallFailed);
      case Unauthorized => FailCall(CallFailed);
      case ApprovalExpired => DeclineCall(Expired);
      case Fails =>
        StartCall();
        FailCall(CallFailed);
      case Cancels =>
        StartCall();
        FailCall(CallCancelled);
      case Succeeds => MakeMove();
      case Lost(moved) =>
        StartCall();
        FinishUnknown(moved);
    }

    /** The start of a call that succeeds, its effect, and the next stage. */
    method MakeMove()
      requires Shaped(View()) && args != None && versions != None
      modifies this
      ensures Shaped(Started(old(View()))) && View() == Proceed(Committed(Started(old(View()))), 7)
      ensures commits == old(commits) + [Started(old(View())).svc, Committed(Started(old(View()))).svc, rows]
    {
      hide Committed, Proceed, Started;
      StartedKeepsMemory(View());
      StartCall();
      CommitEffect();
      ProceedTo(7);
    }

    method VerifyStage()
      requires Shaped(View())
      modifies this
      ensures View() == Verify(old(View()))
      ensures commits == old(commits) + VerifyInterim(old(View())) + [rows]
    {
      hide OnTo, End, Proceed, Memory;
      ghost var s := View();
      Places(s);
      AppendEvent();
      if mode == Compensating {
        if index > 0 {
          MoveOn(index - 1);
          return;
        }
        TransitionNode(Compensated, GraphCompensated, Compensating);
        EndTask(SagaCompensated, TaskFailed);
        return;
      }
      if index + 1 < |ops| {
        MoveOn(index + 1);
        return;
      }
      TransitionNode(Succeeded, GraphSucceeded, Forward);
      ProceedTo(8);
    }

    method FinishStage()
      modifies this`nextStage, this`rows, this`progress, this`commits
      ensures View() == Finish(old(View())) && commits == old(commits) + [rows]
    {
      nextStage := 9;
      EndTask(Completed, TaskSucceeded);
    }

    method RunOne(input: Input)
      requires Valid() && progress == Going
      modifies this
      ensures Valid() && Shaped(old(View())) && View() == RunStage(old(View()), input)
      ensures SagaAnswers.StageLaw(old(View()), input, View())
      ensures commits == old(commits) + Transactions(old(View()), input)
    {
      hide SagaAnswers.StageLaw;
      hide Inv, RunStage, Transactions, Placed, StoreOk, Statuses, Prepared, Bound, Running, Named;
      RunStageKeepsInv(initial, View(), input);
      SagaAnswers.StageIsLawful(initial, View(), input);
      ExecuteStage(input);
    }

    method ExecuteStage(input: Input)
      requires Shaped(View()) && progress == Going
      modifies this
      ensures View() == RunStage(old(View()), input)
      ensures commits == old(commits) + Transactions(old(View()), input)
    {
      hide StartNode, Prepare, Authorize, Dispatch, Verify, Finish;
      hide StartInterim, PrepareInterim, AuthorizeInterim, DispatchInterim, VerifyInterim;
      if nextStage == 3 { StartStage(); }
      else if nextStage == 4 { PrepareStage(input); }
      else if nextStage == 5 { AuthorizeStage(input); }
      else if nextStage == 6 { DispatchStage(input); }
      else if nextStage == 7 { VerifyStage(); }
      else { FinishStage(); }
    }

    /**
     The stage loop: it runs until the task ends, a stop is requested or an approval is awaited, and it always
     does. An approval granted before the suspended loop looks at it lets the loop go on.
     */
    method Run(inputs: nat -> Input, stops: nat -> bool, meanwhile: nat -> Meanwhile) returns (ghost trace: seq<Saga>)
      requires Valid() && progress == Going
      modifies this
      ensures Valid() && (progress == Going ==> exists k :: stops(k))
      ensures |trace| > 0 && trace[0] == old(View()) && trace[|trace| - 1] == View()
      ensures forall i | 0 <= i < |trace| - 1 :: Step(trace[i], trace[i + 1])
    {
      hide Traced, SagaAnswers.StageLaw;
      hide Inv, Step, Measure, RunStage, Placed, StoreOk, Statuses, Prepared, Bound, Running, Named, Approve, Decline;
      trace := [View()];
      TraceStarts(View());
      var steps := 0;
      InvMeans(initial, View());
      while progress == Going
        invariant Valid() && Shaped(View()) && Traced(trace, old(View()), View())
        decreases Measure(View())
      {
        if stops(steps) {
          TraceMeans(trace, old(View()), View());
          return;
        }
        ghost var before := View();
        RunOne(inputs(steps));
        IsStep(before, inputs(steps));
        StepsDecrease(initial, before, View());
        TraceGrows(trace, old(View()), before, View());
        trace := trace + [View()];
        if progress == Waiting {
          ghost var suspended := View();
          Resolves(suspended);
          match meanwhile(steps) {
            case Nothing =>
              TraceMeans(trace, old(View()), View());
              return;
            case Grants => ApproveCall();
            case Rejects =>
              StepKeepsInv(initial, suspended, Decline(suspended, Rejected));
              DeclineCall(Rejected);
          }
          StepsDecrease(initial, suspended, View());
          TraceGrows(trace, old(View()), suspended, View());
          trace := trace + [View()];
        }
        steps := steps + 1;
      }
      TraceMeans(trace, old(View()), View());
    }
  }

  lemma {:induction false} TurnsBack(s: Saga)
    requires Shaped(s) && s.rt.index > 0
    ensures var rt := Cleared(s.rt.(mode := Compensating, index := s.rt.index - 1, node := s.nodes[s.rt.index - 1], stage := 3));
            TurnBack(s) == s.(rt := rt, svc := Write(s.svc, CheckpointOf(rt)))
  {
  }

  lemma {:induction false} StartsNode(s: Saga)
    requires Shaped(s)
    ensures if !MayStart(s) then StartNode(s) == End(s, ProcessingFailed, TaskFailed) && StartInterim(s) == []
            else
              var t := s.(rt := Cleared(s.rt));
              Shaped(t)
              && var u := Logged(SetNode(t, if s.rt.mode == Compensating then Undoing else Active,
                                         if s.rt.mode == Compensating then GraphCompensating else GraphActive, s.rt.mode), 1);
                 StartNode(s) == Proceed(Logged(u, 1), 4) && StartInterim(s) == [u.svc, Logged(u, 1).svc]
  {
  }

  lemma {:induction false} ClearedKeepsPlace(rt: Runtime)
    ensures Cleared(rt).index == rt.index && Cleared(rt).mode == rt.mode && Cleared(rt).stage == rt.stage
  {
  }

  lemma {:induction false} CommittedKeepsMemory(s: Saga)
    requires Shaped(s) && s.rt.args.Some? && s.rt.versions.Some?
    ensures var t := Committed(s);
            && t.rt == s.rt && t.ops == s.ops && t.nodes == s.nodes && t.progress == s.progress
            && t.world == Move(s.world, s.rt.args.value) && t.log == s.log + [Moved(s.rt.index, s.rt.mode)]
  {
    hide Move;
  }

  lemma {:induction false} LosesTrack(s: Saga, moved: bool)
    requires Shaped(s)
    ensures var rt := s.rt.(failure := if s.rt.failure == None then Some(s.rt.node) else s.rt.failure);
            LoseTrack(s, moved) == s.(
              rt := rt, world := if moved then WorldAfter(s) else s.world, progress := Ended(OutcomeUnknown),
              svc := s.svc.(calls := s.svc.calls[s.rt.call := CallUnknown],
                            status := s.svc.status[s.rt.index := if s.rt.mode == Compensating then CompensationUnknown else Unknown],
                            graph := GraphBlocked, mode := s.rt.mode, task := TaskReconciling,
                            events := s.svc.events + 3, saved := Some(CheckpointOf(rt)), bound := s.svc.events + 3))
  {
    hide Move, WorldAfter;
  }

  lemma {:induction false} StartedKeepsMemory(s: Saga)
    requires Shaped(s)
    ensures var t := Started(s); Shaped(t) && t.rt == s.rt && t.progress == s.progress
  {
  }

  lemma {:induction false} EndedStays(s: Saga, status: CallStatus)
    requires Shaped(s)
    ensures Shaped(CallEnded(s, status))
  {
  }

  lemma {:induction false} DecidedStays(s: Saga, effect: Effect)
    requires Shaped(s)
    ensures Shaped(Decided(s, effect))
  {
  }

  lemma {:induction false} DecidedAs(s: Saga, effect: Effect)
    ensures Decided(s, effect) == s.(
      rt := s.rt.(policy := Some(Policy(s.rt.call, effect)), approval := if effect == RequireApproval then Some(s.rt.call) else s.rt.approval),
      svc := s.svc.(calls := if effect == Deny then s.svc.calls[s.rt.call := CallFailed] else s.svc.calls,
                    approvals := if effect == RequireApproval then s.svc.approvals[s.rt.call := AwaitingDecision] else s.svc.approvals,
                    task := if effect == RequireApproval then TaskWaitingApproval else s.svc.task,
                    events := s.svc.events + (match effect case Allow => 1 case Deny => 2 case RequireApproval => 3)))
  {
  }

  /** The trace leads from one state to the other, step by step. */
  ghost predicate Traced(trace: seq<Saga>, from: Saga, until: Saga) {
    && |trace| > 0 && trace[0] == from && trace[|trace| - 1] == until
    && (forall i | 0 <= i < |trace| - 1 :: Step(trace[i], trace[i + 1]))
  }

  lemma {:induction false} TraceStarts(s: Saga)
    ensures Traced([s], s, s)
  {
  }

  lemma {:induction false} TraceGrows(trace: seq<Saga>, from: Saga, until: Saga, next: Saga)
    requires Traced(trace, from, until) && Step(until, next)
    ensures Traced(trace + [next], from, next)
  {
    hide Step;
  }

  lemma {:induction false} TraceMeans(trace: seq<Saga>, from: Saga, until: Saga)
    requires Traced(trace, from, until)
    ensures |trace| > 0 && trace[0] == from && trace[|trace| - 1] == until
    ensures forall i | 0 <= i < |trace| - 1 :: Step(trace[i], trace[i + 1])
  {
    hide Step;
  }

  lemma {:induction false} IsStep(s: Saga, input: Input)
    requires Shaped(s) && s.progress == Going
    ensures Step(s, RunStage(s, input))
  {
  }

  lemma {:induction false} Resolves(s: Saga)
    requires s.progress == Waiting
    ensures Step(s, Approve(s)) && Step(s, Decline(s, Rejected))
  {
  }
}
