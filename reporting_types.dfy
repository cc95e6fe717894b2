/**
 * Entities of the hierarchical reporting node: deferred operations, the
 * per-node record that stands for one TestReporter object, the requests the
 * caller hands in, and the journal of calls made to the reporting service.
 *
 * Object references of the original become indices: a node refers to its
 * parent, its start and finish operations, its children and its side-channel
 * operations by position in the two tables of a `Tree`.
 */
module ReportingTypes {

  /** Remote identifiers handed out by the reporting service. */
  type Id = string

  /** Timestamps, as whole ticks. */
  type Time = int

  datatype Option<T> = None | Some(value: T)

  /** Outcome of a caller-facing operation: a value, or an error raised at the call site. */
  datatype Result<T> = Success(value: T) | Failure(error: Error)

  /** Errors raised synchronously, before anything is scheduled. */
  datatype Error =
    | AlreadyScheduledForStarting   // Start called while a start is scheduled
    | NotScheduledForStarting       // Finish or Log called before Start
    | AlreadyScheduledForFinishing  // Finish called twice
    | NullDependency                // a dependency list holds an unscheduled (null) task
    | NullStartTask                 // Update called before Start dereferences the missing start task

  /** Why a deferred operation failed. */
  datatype Cause =
    | ParentFailedToStart       // a start's launch or parent start failed
    | StartNotSucceeded         // a log waited on a start that failed
    | MissingTestInfo           // finish or update read the item info of a node that never started
    | ChildItemsFailedToFinish  // a child's finish failed or was never scheduled
    | TransportRejected         // the reporting service call itself failed or was canceled

  datatype OpStatus = Pending | Succeeded | Failed(cause: Cause)

  datatype StartRequest = StartRequest(startTime: Time)
  datatype FinishRequest = FinishRequest(endTime: Time, status: string)
  datatype UpdateRequest = UpdateRequest(payload: string)
  datatype LogRequest = LogRequest(time: Time, message: string)

  /** What a deferred operation does once it fires, and on behalf of which node. */
  datatype OpKind =
    | LaunchStart
    | ItemStart(node: nat, startRequest: StartRequest)
    | ItemFinish(node: nat, finishRequest: FinishRequest)
    | ItemUpdate(node: nat, updateRequest: UpdateRequest)
    | ItemLog(node: nat, logRequest: LogRequest)
  {
    /** Log and update operations: their failures are contained. */
    predicate IsSideChannel() { ItemUpdate? || ItemLog? }
  }

  /** A deferred operation: it may fire once every dependency has left `Pending`. */
  datatype Operation = Operation(kind: OpKind, deps: seq<nat>, status: OpStatus)

  /** What the opaque launch supplies once its own start has succeeded. */
  datatype LaunchInfo = LaunchInfo(id: Id, startTime: Time)

  /** The remote view of a started item (`TestInfo`). */
  datatype TestItem = TestItem(id: Id, startTime: Time, endTime: Option<Time>, status: Option<string>)

  /**
   * The state of one TestReporter object. `None` in the last two fields is a
   * registry that is not (or no longer) allocated.
   */
  datatype TestReporter = TestReporter(
    parent: Option<nat>,
    startTask: Option<nat>,
    finishTask: Option<nat>,
    testInfo: Option<TestItem>,
    childTestReporters: Option<seq<nat>>,
    additionalTasks: Option<seq<nat>>)

  /** One invocation of the reporting service, with the arguments it was given. */
  datatype Call =
    | StartItemCall(node: nat, launchId: Id, parentId: Option<Id>, startTime: Time)
    | FinishItemCall(node: nat, itemId: Id, endTime: Time, checkedChildren: seq<nat>)
    | UpdateItemCall(node: nat, itemId: Id, op: nat)
    | AddLogCall(node: nat, itemId: Id, time: Time, op: nat)

  /**
   * The whole reporting state: the operation table (entry 0 is the launch's
   * start), the node records, what the launch supplied, and the journal of
   * service calls in the order they were issued.
   */
  datatype Tree = Tree(ops: seq<Operation>, reporters: seq<TestReporter>, launch: Option<LaunchInfo>, calls: seq<Call>)

  /** The launch's start operation always sits at position 0. */
  const LaunchStartTask: nat := 0

  /** A freshly constructed node: nothing scheduled, no registries. */
  function NewReporter(parent: Option<nat>): TestReporter {
    TestReporter(parent, None, None, None, None, None)
  }

  /** The contents of a lazily created registry; an unallocated one holds nothing. */
  function Registry(bag: Option<seq<nat>>): seq<nat> {
    if bag.Some? then bag.value else []
  }

  /** Raising a timestamp to a lower bound, as the start, end and log times are. */
  function Clamp(t: Time, floor: Time): (r: Time)
    ensures r >= t && r >= floor
    ensures r == t || r == floor
  {
    if t < floor then floor else t
  }

  /** The start of a node waits on the launch's start and, for a nested item, its parent's start. */
  function StartDependencies(parentStart: Option<nat>): (r: seq<nat>)
    ensures |r| >= 1 && r[0] == LaunchStartTask
    ensures forall d :: d in r <==> d == LaunchStartTask || parentStart == Some(d)
  {
    [LaunchStartTask] + if parentStart.Some? then [parentStart.value] else []
  }

  /**
   * The finish tasks of the given children, in order, or `None` when one of
   * them has none yet (a null entry, which the task combinators reject).
   */
  function ChildFinishTasks(reporters: seq<TestReporter>, children: seq<nat>): (r: Option<seq<nat>>)
    ensures r.Some? <==> forall i :: 0 <= i < |children| ==> children[i] < |reporters| && reporters[children[i]].finishTask.Some?
    ensures r.Some? ==> |r.value| == |children|
    ensures r.Some? ==> forall i :: 0 <= i < |children| ==> r.value[i] == reporters[children[i]].finishTask.value
  {
    if children == [] then Some([])
    else if children[0] >= |reporters| then None
    else
      var rest := ChildFinishTasks(reporters, children[1..]);
      match reporters[children[0]].finishTask
      case Some(f) => if rest.Some? then Some([f] + rest.value) else None
      case None => None
  }

  /** A finish waits on its node's start, every registered side-channel task, and every child's finish. */
  function FinishDependencies(startTask: nat, sideTasks: seq<nat>, childFinishes: seq<nat>): (r: seq<nat>)
    ensures |r| >= 1 && r[0] == startTask
    ensures forall d :: d in r <==> d == startTask || d in sideTasks || d in childFinishes
  {
    [startTask] + sideTasks + childFinishes
  }

  /** The operation at `k` has not fired yet and every task it waits on has settled. */
  predicate Runnable(ops: seq<Operation>, k: nat) {
    && k < |ops|
    && ops[k].status == Pending
    && forall i :: 0 <= i < |ops[k].deps| ==> ops[k].deps[i] < |ops| && ops[ops[k].deps[i]].status != Pending
  }

  /** Waiting on `deps` throws: at least one of them failed. */
  predicate DependencyFailed(ops: seq<Operation>, deps: seq<nat>) {
    exists i :: 0 <= i < |deps| && deps[i] < |ops| && ops[deps[i]].status.Failed?
  }

  /** The node at `n` has a finish task and it succeeded. */
  predicate FinishSucceeded(ops: seq<Operation>, reporters: seq<TestReporter>, n: nat) {
    && n < |reporters|
    && reporters[n].finishTask.Some?
    && reporters[n].finishTask.value < |ops|
    && ops[reporters[n].finishTask.value].status == Succeeded
  }

  /** Waiting on the finishes of `children` returns normally: every one is scheduled and succeeded. */
  predicate ChildrenFinished(ops: seq<Operation>, reporters: seq<TestReporter>, children: seq<nat>) {
    forall i :: 0 <= i < |children| ==> FinishSucceeded(ops, reporters, children[i])
  }

  /**
   * Waiting on the finishes of `children` does not block: either one of them
   * is unscheduled (the wait throws at once) or every one has settled.
   */
  predicate ChildWaitReturns(ops: seq<Operation>, reporters: seq<TestReporter>, children: seq<nat>) {
    || (exists i :: 0 <= i < |children| && children[i] < |reporters| && reporters[children[i]].finishTask.None?)
    || (forall i :: 0 <= i < |children| && children[i] < |reporters| && reporters[children[i]].finishTask.Some? ==>
          reporters[children[i]].finishTask.value < |ops| && ops[reporters[children[i]].finishTask.value].status != Pending)
  }

  /** Log and Update still register work: finish is unset or has not completed. */
  predicate FinishOpen(ops: seq<Operation>, r: TestReporter) {
    r.finishTask.None? || (r.finishTask.value < |ops| && ops[r.finishTask.value].status == Pending)
  }

  /** How far a finish gets once it fires: which check stops it, if any. */
  datatype FinishStage = MissingInfo | ChildFailed | Send

  /**
   * The checks a firing finish makes before calling the service: the item
   * info must exist (it does only after a successful start) and every
   * registered child's finish must have succeeded. Side-channel tasks are
   * not consulted.
   */
  function FinishVerdict(ops: seq<Operation>, reporters: seq<TestReporter>, n: nat): FinishStage
    requires n < |reporters|
  {
    if reporters[n].testInfo.None? then MissingInfo
    else if !ChildrenFinished(ops, reporters, Registry(reporters[n].childTestReporters)) then ChildFailed
    else Send
  }

  /** The parent of node `n` exists but its start was never scheduled. */
  predicate ParentStartMissing(reporters: seq<TestReporter>, n: nat)
    requires n < |reporters|
  {
    var p := reporters[n].parent;
    p.Some? && p.value < |reporters| && reporters[p.value].startTask.None?
  }

  /** The start task of the parent of node `n`, if `n` is nested. */
  function ParentStartTask(reporters: seq<TestReporter>, n: nat): Option<nat>
    requires n < |reporters|
  {
    var p := reporters[n].parent;
    if p.Some? && p.value < |reporters| then reporters[p.value].startTask else None
  }

  /**
   * The start call a firing start makes for node `n`: the launch's id, the
   * parent's id for a nested item, and the requested start time raised to the
   * launch's start time (top level) or the parent's. `None` when the launch
   * or the parent has no information yet.
   */
  function StartItemFor(launch: Option<LaunchInfo>, reporters: seq<TestReporter>, n: nat, request: StartRequest): (r: Option<Call>)
    requires n < |reporters|
    ensures r.Some? <==> launch.Some? && (reporters[n].parent.Some? ==>
      reporters[n].parent.value < |reporters| && reporters[reporters[n].parent.value].testInfo.Some?)
    ensures r.Some? ==> r.value.StartItemCall? && r.value.node == n && r.value.launchId == launch.value.id
    ensures r.Some? && reporters[n].parent.None? ==>
      r.value.parentId.None? && r.value.startTime >= launch.value.startTime && r.value.startTime >= request.startTime
    ensures r.Some? && reporters[n].parent.Some? ==>
      var info := reporters[reporters[n].parent.value].testInfo.value;
      r.value.parentId == Some(info.id) && r.value.startTime >= info.startTime && r.value.startTime >= request.startTime
  {
    if launch.None? then None
    else match reporters[n].parent
      case None => Some(StartItemCall(n, launch.value.id, None, Clamp(request.startTime, launch.value.startTime)))
      case Some(p) =>
        if p < |reporters| && reporters[p].testInfo.Some? then
          var info := reporters[p].testInfo.value;
          Some(StartItemCall(n, launch.value.id, Some(info.id), Clamp(request.startTime, info.startTime)))
        else None
  }

  /**
   * The record of a node whose finish got past its first step: the item info
   * takes the requested end time and status unclamped, and both registries
   * are released.
   */
  function Released(r: TestReporter, request: FinishRequest): (r': TestReporter)
    requires r.testInfo.Some?
    ensures r'.parent == r.parent && r'.startTask == r.startTask && r'.finishTask == r.finishTask
    ensures r'.testInfo.Some? && r'.testInfo.value.id == r.testInfo.value.id && r'.testInfo.value.startTime == r.testInfo.value.startTime
    ensures r'.testInfo.value.endTime == Some(request.endTime) && r'.testInfo.value.status == Some(request.status)
    ensures r'.childTestReporters.None? && r'.additionalTasks.None?
  {
    r.(testInfo := Some(r.testInfo.value.(endTime := Some(request.endTime), status := Some(request.status))),
       childTestReporters := None, additionalTasks := None)
  }

  /**
   * The call a firing log or update makes for operation `k` of a started
   * item: a log carries the item's id and its time raised to the item's
   * start time, an update the item's id.
   */
  function SideCall(kind: OpKind, info: TestItem, k: nat): (c: Call)
    requires kind.IsSideChannel()
    ensures c.node == kind.node && (c.UpdateItemCall? || c.AddLogCall?) && c.op == k
    ensures kind.ItemUpdate? ==> c == UpdateItemCall(kind.node, info.id, k)
    ensures kind.ItemLog? ==> c.AddLogCall? && c.itemId == info.id && c.time >= info.startTime && c.time >= kind.logRequest.time
    ensures kind.ItemLog? && kind.logRequest.time >= info.startTime ==> c.time == kind.logRequest.time
    ensures kind.ItemLog? && kind.logRequest.time < info.startTime ==> c.time == info.startTime
  {
    match kind
    case ItemUpdate(n, _) => UpdateItemCall(n, info.id, k)
    case ItemLog(n, request) => AddLogCall(n, info.id, Clamp(request.time, info.startTime), k)
  }
}
