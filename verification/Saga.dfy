/**
 The file-move saga: moves applied one after another, and on a failure undone in reverse by
 compensations that must match their receipts, one durable stage at a time.

 One step runs one stage of the processor with the transactions it makes. What the task
 service, the policy engine, the approver and the runner answer is an input. A move needs its
 source at the expected version and its destination absent, and keeps the file's version.
 Every transaction appends the events it announces, and a checkpoint is bound to the number
 of events at the moment it is written: recovery accepts it only while that number stands.
 Call and attempt identifiers are digests of a node and an attempt kind, and stand as such.
 `top` and `log` record what was applied.
 */
module Saga {
  import opened Ordering

  type Path = nat
  type Version = nat
  type World = map<Path, Version>

  datatype Operation = Operation(source: Path, destination: Path)

  datatype Mode = Forward | Compensating

  datatype NodeStatus = Pending | Active | Executing | Succeeded | Failed | Unknown | Undoing | Compensated | CompensationFailed | CompensationUnknown

  datatype GraphStatus = GraphActive | GraphCompensating | GraphCompensated | GraphFailed | GraphSucceeded | GraphBlocked

  datatype CallStatus = Requested | CallRunning | CallSucceeded | CallFailed | CallCancelled | CallUnknown

  datatype TaskStatus = TaskRunning | TaskWaitingApproval | TaskSucceeded | TaskFailed | TaskCancelled | TaskReconciling

  datatype ApprovalStatus = AwaitingDecision | Approved | Consumed | Rejected | Expired

  datatype Effect = Allow | Deny | RequireApproval

  datatype CallId = CallId(node: Id, kind: Mode)

  datatype AttemptId = AttemptId(node: Id, kind: Mode)

  /** The authorization request's call and the decision on it. */
  datatype Policy = Policy(call: CallId, effect: Effect)

  datatype Runtime = Runtime(stage: nat, call: CallId, attempt: AttemptId, args: Option<Operation>, resources: Option<Version>,
                             versions: Option<Version>, key: Option<Id>, policy: Option<Policy>, approval: Option<CallId>,
                             node: Id, index: nat, mode: Mode, failure: Option<Id>)

  /** The durable facts: everything but the attempt identifier, which recovery derives again. */
  datatype Checkpoint = Checkpoint(stage: nat, call: CallId, args: Option<Operation>, resources: Option<Version>,
                                   versions: Option<Version>, key: Option<Id>, policy: Option<Policy>, approval: Option<CallId>,
                                   node: Id, index: nat, mode: Mode, failure: Option<Id>)

  datatype Service = Service(task: TaskStatus, graph: GraphStatus, mode: Mode, status: seq<NodeStatus>, calls: map<CallId, CallStatus>,
                             approvals: map<CallId, ApprovalStatus>, receipts: map<nat, Version>,
                             events: nat, saved: Option<Checkpoint>, bound: nat)

  datatype Ending = Completed | SagaCompensated | SagaForwardFailed | PolicyDenied | SagaCompensationFailed
                  | OutcomeUnknown | ApprovalDeclined | ProcessingFailed

  datatype Progress = Going | Waiting | Ended(ending: Ending)

  datatype Moved = Moved(index: nat, kind: Mode)

  datatype Saga = Saga(ops: seq<Operation>, nodes: seq<Id>, rt: Runtime, svc: Service, world: World, progress: Progress,
                       top: nat, log: seq<Moved>)

  datatype Result = NotReady | Unauthorized | ApprovalExpired | Succeeds | Fails | Cancels | Lost(moved: bool)

  datatype Input = Input(projects: bool, key: Id, effect: Effect, result: Result)

  // ---------- moves ----------

  predicate CanMove(w: World, op: Operation, version: Version) {
    op.source in w && w[op.source] == version && op.destination !in w
  }

  function Move(w: World, op: Operation): World {
    if op.source in w then w[op.destination := w[op.source]] - {op.source} else w
  }

  function Reverse(op: Operation): Operation {
    Operation(op.destination, op.source)
  }

  /** The store after the first i operations. */
  function After(w: World, ops: seq<Operation>, i: nat): World
    requires i <= |ops|
  {
    if i == 0 then w else Move(After(w, ops, i - 1), ops[i - 1])
  }

  // ---------- the runtime and its checkpoint ----------

  function CheckpointOf(rt: Runtime): Checkpoint {
    Checkpoint(rt.stage, rt.call, rt.args, rt.resources, rt.versions, rt.key, rt.policy, rt.approval, rt.node, rt.index, rt.mode, rt.failure)
  }

  function Recovered(c: Checkpoint): Runtime {
    Runtime(c.stage, c.call, AttemptId(c.node, c.mode), c.args, c.resources, c.versions, c.key, c.policy, c.approval, c.node, c.index,
            c.mode, c.failure)
  }

  function Cleared(rt: Runtime): Runtime {
    rt.(attempt := AttemptId(rt.node, rt.mode), call := CallId(rt.node, rt.mode), args := None, resources := None, versions := None,
        key := None, policy := None, approval := None)
  }

  function Initial(ops: seq<Operation>, nodes: seq<Id>, world: World): Saga
    requires |ops| == |nodes| >= 1
  {
    var rt := Runtime(3, CallId(nodes[0], Forward), AttemptId(nodes[0], Forward), None, None, None, None, None, None, nodes[0], 0, Forward, None);
    var svc := Service(TaskRunning, GraphActive, Forward, seq(|ops|, i => Pending), map[], map[], map[], 0, Some(CheckpointOf(rt)), 0);
    Saga(ops, nodes, rt, svc, world, Going, 0, [])
  }

  /** Writes a checkpoint and binds it to the events so far. */
  function Write(svc: Service, c: Checkpoint): Service {
    svc.(saved := Some(c), bound := svc.events)
  }

  /** The events a transaction appends. */
  function Logged(s: Saga, count: nat): Saga {
    s.(svc := s.svc.(events := s.svc.events + count))
  }

  /** The processor saves after every stage that did not end the task. */
  function Save(s: Saga): Saga {
    s.(svc := Write(s.svc, CheckpointOf(s.rt)))
  }

  function Proceed(s: Saga, stage: nat): Saga {
    Save(s.(rt := s.rt.(stage := stage)))
  }

  predicate Terminal(task: TaskStatus) {
    task == TaskSucceeded || task == TaskFailed || task == TaskCancelled
  }

  /** The event that ends the task deletes its checkpoint, unless the task still waits for a reconciliation. */
  function End(s: Saga, ending: Ending, task: TaskStatus): Saga {
    s.(progress := Ended(ending),
       svc := s.svc.(task := task, events := s.svc.events + 1, saved := if Terminal(task) then None else s.svc.saved))
  }

  function SetNode(s: Saga, status: NodeStatus, graph: GraphStatus, mode: Mode): Saga
    requires s.rt.index < |s.svc.status|
  {
    s.(svc := s.svc.(status := s.svc.status[s.rt.index := status], graph := graph, mode := mode))
  }

  function SetCall(s: Saga, status: CallStatus): Saga {
    s.(svc := s.svc.(calls := s.svc.calls[s.rt.call := status]))
  }

  predicate Shaped(s: Saga) {
    |s.ops| == |s.nodes| == |s.svc.status| && s.rt.index < |s.ops|
  }

  // ---------- the stages ----------

  predicate MayStart(s: Saga)
    requires Shaped(s)
  {
    s.svc.status[s.rt.index] == if s.rt.mode == Compensating then Succeeded else Pending
  }

  /** The node's transition, in its own transaction. */
  function TakenUp(s: Saga): Saga
    requires Shaped(s)
  {
    var t := s.(rt := Cleared(s.rt));
    Logged(if s.rt.mode == Compensating then SetNode(t, Undoing, GraphCompensating, Compensating)
           else SetNode(t, Active, GraphActive, Forward), 1)
  }

  /** Stage 3: takes up the node; a forward node must be pending, a node to undo must have succeeded. */
  function StartNode(s: Saga): Saga
    requires Shaped(s)
  {
    if !MayStart(s) then End(s, ProcessingFailed, TaskFailed)
    else Proceed(Logged(TakenUp(s), 1), 4)
  }

  /** Turns to compensation from the node before the failed one. */
  function TurnBack(s: Saga): Saga
    requires Shaped(s) && s.rt.index > 0
  {
    var i := s.rt.index - 1;
    Save(s.(rt := Cleared(s.rt.(mode := Compensating, index := i, node := s.nodes[i], stage := 3))))
  }

  function FailNode(s: Saga): Saga
    requires Shaped(s)
  {
    if s.rt.mode == Compensating then SetNode(s, CompensationFailed, GraphFailed, Compensating)
    else if s.rt.index > 0 then SetNode(s, Failed, GraphCompensating, Compensating)
    else SetNode(s, Failed, GraphFailed, Forward)
  }

  /** What happens after a node's failing transition: the task ends, or turns back if there is something to undo. */
  function AfterFailure(s: Saga, denied: bool): Saga
    requires Shaped(s)
  {
    if s.rt.mode == Compensating then End(s, SagaCompensationFailed, TaskFailed)
    else
      var t := s.(rt := s.rt.(failure := Some(s.rt.node)));
      if s.rt.index > 0 then TurnBack(t) else End(t, if denied then PolicyDenied else SagaForwardFailed, TaskFailed)
  }

  /** A node that could not be prepared: nothing was dispatched for it. */
  function PreDispatchFailure(s: Saga): Saga
    requires Shaped(s)
  {
    AfterFailure(Logged(FailNode(s), 1), false)
  }

  function CurrentMove(s: Saga): Operation
    requires Shaped(s)
  {
    if s.rt.mode == Compensating then Reverse(s.ops[s.rt.index]) else s.ops[s.rt.index]
  }

  /** The request's transaction carries the checkpoint of the stage that follows it. */
  function CallRequested(s: Saga): Saga {
    var t := Logged(SetCall(s, Requested), 2);
    t.(svc := Write(t.svc, CheckpointOf(s.rt).(stage := 5)))
  }

  /** Reads the file to move, checks a reverse move against its receipt, and requests the call. */
  function Project(s: Saga, op: Operation, input: Input): Saga
    requires Shaped(s)
  {
    if !input.projects || op.source !in s.world then PreDispatchFailure(s)
    else
      var version := s.world[op.source];
      var u := s.(rt := s.rt.(resources := Some(version)));
      if s.rt.mode == Compensating && (s.rt.index !in s.svc.receipts || version != s.svc.receipts[s.rt.index]) then PreDispatchFailure(u)
      else Proceed(CallRequested(u.(rt := u.rt.(versions := Some(version), key := Some(input.key)))), 5)
  }

  /** Stage 4: a move to undo needs the receipt of what it undoes. */
  function Prepare(s: Saga, input: Input): Saga
    requires Shaped(s)
  {
    if s.rt.mode == Compensating && s.rt.index !in s.svc.receipts then End(s, ProcessingFailed, TaskFailed)
    else Project(s.(rt := s.rt.(args := Some(CurrentMove(s)))), CurrentMove(s), input)
  }

  /** The policy's transaction: its decision, and what follows from it for the call and the task. */
  function Decided(s: Saga, effect: Effect): Saga {
    var t := s.(rt := s.rt.(policy := Some(Policy(s.rt.call, effect))));
    match effect
    case Deny => Logged(SetCall(t, CallFailed), 2)
    case Allow => Logged(t, 1)
    case RequireApproval =>
      Logged(t.(svc := t.svc.(approvals := t.svc.approvals[t.rt.call := AwaitingDecision], task := TaskWaitingApproval),
                rt := t.rt.(approval := Some(t.rt.call))), 3)
  }

  /** Stage 5: the policy decides; a denial fails the call, an approval suspends the task. */
  function Authorize(s: Saga, input: Input): Saga
    requires Shaped(s)
  {
    if s.rt.args == None || s.rt.resources == None then End(s, ProcessingFailed, TaskFailed)
    else
      var t := Decided(s, input.effect);
      match input.effect
      case Deny => AfterFailure(Logged(FailNode(t), 1), true)
      case Allow => Proceed(t, 6)
      case RequireApproval => Proceed(t, 6).(progress := Waiting)
  }

  /** Granting an approval binds the saved checkpoint again. */
  function Approve(s: Saga): Saga {
    var t := Logged(s, 2);
    t.(progress := Going, svc := t.svc.(approvals := t.svc.approvals[s.rt.call := Approved], task := TaskRunning, bound := t.svc.events))
  }

  /** A rejected or expired approval cancels the call and the task. */
  function Decline(s: Saga, outcome: ApprovalStatus): Saga {
    var t := SetCall(s.(svc := s.svc.(approvals := s.svc.approvals[s.rt.call := outcome])), CallCancelled);
    End(Logged(t, 2), ApprovalDeclined, TaskCancelled)
  }

  /** The start of the call: its own transaction, with a checkpoint of the runtime as it is. */
  function Started(s: Saga): Saga
    requires Shaped(s)
  {
    var t := SetCall(s.(svc := s.svc.(
      approvals := if s.rt.approval.Some? then s.svc.approvals[s.rt.call := Consumed] else s.svc.approvals)), CallRunning);
    Save(Logged(SetNode(t, Executing, if s.rt.mode == Compensating then GraphCompensating else GraphActive, s.rt.mode), 2))
  }

  /** The checkpoint a failing call's transaction writes when there is something to undo. */
  function FailureCheckpoint(s: Saga): Checkpoint
    requires Shaped(s) && s.rt.index > 0
  {
    var previous := s.rt.index - 1;
    CheckpointOf(s.rt).(stage := 3, call := CallId(s.nodes[previous], Compensating), args := None, resources := None, versions := None,
                        key := None, policy := None, approval := None, node := s.nodes[previous], index := previous,
                        mode := Compensating, failure := Some(s.rt.node))
  }

  /** The failing transaction: the call, the node, and the checkpoint to continue from if there is something to undo. */
  function CallEnded(s: Saga, status: CallStatus): Saga
    requires Shaped(s)
  {
    var t := Logged(FailNode(SetCall(s, status)), 2);
    if s.rt.mode == Forward && s.rt.index > 0 then t.(svc := Write(t.svc, FailureCheckpoint(s))) else t
  }

  /** The runner moves only what it can: otherwise the call fails without an effect. */
  function ResultOn(s: Saga, r: Result): Result {
    if r == Succeeds && !(s.rt.args.Some? && s.rt.versions.Some? && CanMove(s.world, s.rt.args.value, s.rt.versions.value)) then Fails else r
  }

  function WorldAfter(s: Saga): World {
    if s.rt.args.Some? then Move(s.world, s.rt.args.value) else s.world
  }

  /** The committed effect: the file moved, the node and call done, for a forward move the receipt, and the next stage's checkpoint. */
  function Committed(s: Saga): Saga
    requires Shaped(s) && s.rt.args.Some? && s.rt.versions.Some?
  {
    var t := Logged(SetCall(s, CallSucceeded), 2);
    var done := t.(world := WorldAfter(s), log := s.log + [Moved(s.rt.index, s.rt.mode)],
                   svc := Write(t.svc, CheckpointOf(s.rt).(stage := 7)));
    if s.rt.mode == Compensating then SetNode(done, Compensated, GraphCompensating, Compensating)
    else
      var u := SetNode(done, Succeeded, GraphActive, Forward);
      u.(svc := u.svc.(receipts := u.svc.receipts[s.rt.index := s.rt.versions.value]), top := s.rt.index + 1)
  }

  /** The outcome of the call is not known: the graph is blocked until someone finds out. */
  function LoseTrack(s: Saga, moved: bool): Saga
    requires Shaped(s)
  {
    var t := SetCall(s.(world := if moved then WorldAfter(s) else s.world), CallUnknown);
    var u := SetNode(t, if s.rt.mode == Compensating then CompensationUnknown else Unknown, GraphBlocked, s.rt.mode);
    Save(End(Logged(u.(rt := u.rt.(failure := if s.rt.failure == None then Some(s.rt.node) else s.rt.failure)), 2), OutcomeUnknown, TaskReconciling))
  }

  /** Stage 6: dispatches the call and records what came of it. */
  function Dispatch(s: Saga, input: Input): Saga
    requires Shaped(s)
  {
    match ResultOn(s, input.result)
    case NotReady => AfterFailure(CallEnded(s, CallFailed), false)
    case Unauthorized => AfterFailure(CallEnded(s, CallFailed), false)
    case ApprovalExpired => Decline(s, Expired)
    case Fails => AfterFailure(CallEnded(Started(s), CallFailed), false)
    case Cancels => AfterFailure(CallEnded(Started(s), CallCancelled), false)
    case Succeeds => Proceed(Committed(Started(s)), 7)
    case Lost(moved) => LoseTrack(Started(s), moved)
  }

  /** Another node becomes the current one, to be taken up from its first stage. */
  function OnTo(s: Saga, i: nat): Saga
    requires i < |s.nodes|
  {
    Save(s.(rt := Cleared(s.rt.(index := i, node := s.nodes[i], stage := 3))))
  }

  /** The graph's own last transition. */
  function Closed(s: Saga): Saga
    requires Shaped(s)
  {
    Logged(if s.rt.mode == Compensating then SetNode(s, Compensated, GraphCompensated, Compensating)
           else SetNode(s, Succeeded, GraphSucceeded, Forward), 1)
  }

  predicate LastOfItsWay(s: Saga) {
    if s.rt.mode == Compensating then s.rt.index == 0 else s.rt.index + 1 >= |s.ops|
  }

  /** Stage 7: on to the next node, or back to the one before. */
  function Verify(s: Saga): Saga
    requires Shaped(s)
  {
    var t := Logged(s, 1);
    if s.rt.mode == Compensating then
      if !LastOfItsWay(s) then OnTo(t, s.rt.index - 1) else End(Closed(t), SagaCompensated, TaskFailed)
    else if !LastOfItsWay(s) then OnTo(t, s.rt.index + 1) else Proceed(Closed(t), 8)
  }

  function Finish(s: Saga): Saga {
    End(s.(rt := s.rt.(stage := 9)), Completed, TaskSucceeded)
  }

  function RunStage(s: Saga, input: Input): Saga
    requires Shaped(s)
  {
    if s.rt.stage == 3 then StartNode(s)
    else if s.rt.stage == 4 then Prepare(s, input)
    else if s.rt.stage == 5 then Authorize(s, input)
    else if s.rt.stage == 6 then Dispatch(s, input)
    else if s.rt.stage == 7 then Verify(s)
    else Finish(s)
  }

  // ---------- recovery ----------

  predicate StatusAllowed(stage: nat, status: NodeStatus) {
    match stage
    case 3 => status == Pending || status == Succeeded
    case 4 => status == Active || status == Undoing
    case 5 => status == Active || status == Undoing
    case 6 => status == Active || status == Undoing
    case 7 => status == Succeeded || status == Compensated
    case 8 => status == Succeeded
    case _ => false
  }

  /** Where a checkpoint puts a call: requested before dispatch, succeeded after. */
  predicate CallAgrees(svc: Service, c: Checkpoint) {
    c.stage >= 5 ==>
      c.call in svc.calls && svc.calls[c.call] == (if c.stage <= 6 then Requested else CallSucceeded)
  }

  predicate PolicyAgrees(svc: Service, c: Checkpoint) {
    c.stage >= 6 ==>
      && c.policy.Some? && c.policy.value.call == c.call
      && if c.policy.value.effect == RequireApproval then
           && c.approval == Some(c.call) && c.call in svc.approvals
           && if c.stage == 6 then
                (svc.approvals[c.call] == AwaitingDecision && svc.task == TaskWaitingApproval)
                || (svc.approvals[c.call] == Approved && svc.task == TaskRunning)
              else svc.approvals[c.call] == Consumed && svc.task == TaskRunning
         else c.approval == None && svc.task != TaskWaitingApproval
  }

  /** The payload's own rules about which facts a stage needs. */
  predicate FactsComplete(c: Checkpoint) {
    && (c.stage >= 5 ==> c.args.Some? && c.resources.Some? && c.key.Some?)
    && (c.mode == Compensating ==> c.failure.Some?)
  }

  /** Everything recovery checks before it continues from a checkpoint. */
  predicate Accepts(svc: Service, nodes: seq<Id>, c: Checkpoint) {
    && 3 <= c.stage <= 8 && FactsComplete(c)
    && c.index < |nodes| == |svc.status| && nodes[c.index] == c.node
    && svc.mode == c.mode
    && c.call == CallId(c.node, c.mode)
    && (svc.task == TaskRunning || svc.task == TaskWaitingApproval)
    && StatusAllowed(c.stage, svc.status[c.index])
    && CallAgrees(svc, c)
    && PolicyAgrees(svc, c)
  }

  /** What a restart continues from: an accepted checkpoint, bound to the task's last event. */
  predicate Recoverable(svc: Service, nodes: seq<Id>) {
    svc.saved.Some? && svc.bound == svc.events && Accepts(svc, nodes, svc.saved.value)
  }

  // ---------- the transactions of a stage ----------

  /** What is durable after each transaction of a stage but the last, in order; a file is moved between a call's start and its end. */
  function Interim(s: Saga, input: Input): seq<Service>
    requires Shaped(s)
  {
    if s.rt.stage == 3 then StartInterim(s)
    else if s.rt.stage == 4 then PrepareInterim(s, input)
    else if s.rt.stage == 5 then AuthorizeInterim(s, input)
    else if s.rt.stage == 6 then DispatchInterim(s, input)
    else if s.rt.stage == 7 then VerifyInterim(s)
    else []
  }

  function StartInterim(s: Saga): seq<Service>
    requires Shaped(s)
  {
    if MayStart(s) then [TakenUp(s).svc, Logged(TakenUp(s), 1).svc] else []
  }

  function ProjectInterim(s: Saga, op: Operation, input: Input): seq<Service>
    requires Shaped(s)
  {
    if !input.projects || op.source !in s.world then [Logged(FailNode(s), 1).svc]
    else
      var version := s.world[op.source];
      var u := s.(rt := s.rt.(resources := Some(version)));
      if s.rt.mode == Compensating && (s.rt.index !in s.svc.receipts || version != s.svc.receipts[s.rt.index]) then [Logged(FailNode(u), 1).svc]
      else [CallRequested(u.(rt := u.rt.(versions := Some(version), key := Some(input.key)))).svc]
  }

  function PrepareInterim(s: Saga, input: Input): seq<Service>
    requires Shaped(s)
  {
    if s.rt.mode == Compensating && s.rt.index !in s.svc.receipts then []
    else ProjectInterim(s.(rt := s.rt.(args := Some(CurrentMove(s)))), CurrentMove(s), input)
  }

  function AuthorizeInterim(s: Saga, input: Input): seq<Service>
    requires Shaped(s)
  {
    if s.rt.args == None || s.rt.resources == None then []
    else
      var t := Decided(s, input.effect);
      if input.effect == Deny then [t.svc, Logged(FailNode(t), 1).svc] else [t.svc]
  }

  function DispatchInterim(s: Saga, input: Input): seq<Service>
    requires Shaped(s)
  {
    match ResultOn(s, input.result)
    case NotReady => [CallEnded(s, CallFailed).svc]
    case Unauthorized => [CallEnded(s, CallFailed).svc]
    case ApprovalExpired => []
    case Fails => [Started(s).svc, CallEnded(Started(s), CallFailed).svc]
    case Cancels => [Started(s).svc, CallEnded(Started(s), CallCancelled).svc]
    case Succeeds => [Started(s).svc, Committed(Started(s)).svc]
    case Lost(_) => [Started(s).svc]
  }

  function VerifyInterim(s: Saga): seq<Service>
    requires Shaped(s)
  {
    [Logged(s, 1).svc] + if LastOfItsWay(s) then [Closed(Logged(s, 1)).svc] else []
  }

  /** What is durable after each transaction of a stage. */
  function Transactions(s: Saga, input: Input): seq<Service>
    requires Shaped(s)
  {
    Interim(s, input) + [RunStage(s, input).svc]
  }
}
