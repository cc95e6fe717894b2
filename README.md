# TestReporter: a verified model of deferred hierarchical test reporting

A ReportPortal `TestReporter` is one node of a tree of test items: a launch
at the root, suites and tests below it. Each caller-facing operation
(`Start`, `Finish`, `StartChildTestReporter`, `Update`, `Log`) returns at
once. It checks its preconditions, schedules deferred work and records the
work in the node's fields (`StartTask`, `FinishTask`, `ChildTestReporters`,
`_additionalTasks`). The deferred work runs later, once the tasks it waits
on have completed, and talks to the reporting service. This project models
that behaviour and proves what holds in every reachable state.

## How the model is built

- A `ReportingTree` class (`test_reporter.dfy`) holds the whole reporting
  state in four fields:
  - `ops` is the table of deferred operations. Entry 0 is the launch's start.
    Every other entry has a kind, the indices of the operations it waits on,
    and a status: `Pending`, `Succeeded` or `Failed(cause)`.
  - `reporters` has one record per TestReporter object. Object references
    (the parent, the start and finish tasks, the children, the side-channel
    tasks) become indices into the two tables.
  - `launch` is what the opaque launch supplied once its own start
    succeeded: its id and start time.
  - `calls` is the journal of service calls, in the order they were issued.
- The five caller-facing operations are methods of the class. Each one
  returns a `Result`, so the exceptions the source throws at the call site
  are `Failure` values.
- Firing a deferred operation is an explicit step: `RunStart`, `RunFinish`,
  `RunLog`, `RunUpdate`, and `ResolveLaunchStart` for the launch. A step may
  be taken only once every operation it waits on has left `Pending`. The
  outcome of the service call is a parameter of the step.
- Every state change is a pure function on a `Tree` value: `WithStart`,
  `WithFinish`, `WithSideTask`, `WithChild`, `StartFired`, `FinishFired`,
  `SideFired`, and so on. Each method ensures that its new state is that
  function of its old state. A lemma for each function shows that it keeps
  the invariant `Consistent`.
- `Consistent` combines the structural shape, ordered and propagated
  resolution, clamped start times, and the justification, completeness and
  ordering of the call journal. Lemmas over any consistent tree then state
  the system's guarantees:
  - ancestors start first;
  - a failed launch silences the service;
  - a finish is sent only after a successful start and after its children's
    finishes;
  - a side-channel failure is contained;
  - the logs of one item reach the service in the order they were accepted.

The modules follow the system's structure:
- `ReportingTypes` holds the entities and the pure helpers.
- `ReportingInvariants` holds the invariant and the guarantees that follow from it.
- `ReportingSteps` holds the scheduling transitions.
- `ReportingFire` holds the firing transitions.
- `ReportingOutcomes` says what each firing sends and records.
- `TestReporterModel` holds the class.

## Where the code and its description differ (the model follows the code)

- `Update` called before `Start`: the code first allocates the
  side-channel registry and then dereferences the null start task. The
  model returns `NullStartTask` and leaves the allocated registry behind.
- `Finish` on a node that has a registered child whose finish is not
  scheduled: the code passes a null task to `ContinueWhenAll`, which rejects
  it. The model returns `NullDependency` and changes nothing. The code has
  no "children not scheduled to finish" check of its own.
- A finish whose start failed: it fails at the `TestInfo` dereference of
  line 126, before the `try`/`finally`. The registries are therefore not
  released (`MissingTestInfo`).
- The stored end time is the request's, unclamped (line 126). Only the end
  time sent to the service is raised to the start time (lines 170-175).
- The children's finishes are awaited through the registry as it is when the
  finish fires (line 148), not as it was when the finish was scheduled.

## Model

| member | source | states |
|---|---|---|
| ReportingTypes.Clamp | ReportPortal.Shared/Reporter/TestReporter.cs:68-71 | the clamped time is at least the requested time and the floor, and equals one of them |
| ReportingTypes.StartDependencies | ReportPortal.Shared/Reporter/TestReporter.cs:41-46 | a start waits on the launch's start first, and otherwise only on the parent's start, when there is a parent |
| ReportingTypes.ChildFinishTasks | ReportPortal.Shared/Reporter/TestReporter.cs:119-122 | the children's finish tasks are defined exactly when every child is a known node with a scheduled finish; they are in order, one per child |
| ReportingTypes.FinishDependencies | ReportPortal.Shared/Reporter/TestReporter.cs:113-122 | a finish waits on its start first, and otherwise exactly on the registered side-channel tasks and the children's finishes |
| ReportingTypes.StartItemFor | ReportPortal.Shared/Reporter/TestReporter.cs:65-95 | the start call exists exactly when the launch info and the parent's item info (if any) exist; it carries the launch id and the parent id, and a start time no earlier than the request's and the launch's or parent's start |
| ReportingTypes.Released | ReportPortal.Shared/Reporter/TestReporter.cs:126-168 | once a finish gets past the item-info dereference, the item keeps its id and start time, takes the raw end time and status, and both registries are released (the `finally` block); the links are unchanged |
| ReportingTypes.SideCall | ReportPortal.Shared/Reporter/TestReporter.cs:206-241 | an update calls the service for the item's id; a log calls it for the item's id, and its time is the request's unless that is earlier than the item's start, in which case it is the start |
| ReportingInvariants.StartedAfterAncestors | ReportPortal.Shared/Reporter/TestReporter.cs:82-95 | in every consistent state, every ancestor of a started item has started, no later than the item |
| ReportingInvariants.StartedAfterLaunch | ReportPortal.Shared/Reporter/TestReporter.cs:65-71 | every started item started after the launch, which has info |
| ReportingInvariants.AncestorsStartCalledFirst | ReportPortal.Shared/Reporter/TestReporter.cs:41-52 | the start call of every ancestor precedes an item's start call in the journal |
| ReportingInvariants.LaunchFailureSilencesService | ReportPortal.Shared/Reporter/TestReporter.cs:48-63 | if the launch's start failed, no item has started and the service was never called |
| ReportingInvariants.CallsNeedLaunch | ReportPortal.Shared/Reporter/TestReporter.cs:65 | any service call implies that the launch supplied its info |
| ReportingInvariants.FinishCallAfterSuccessfulStart | ReportPortal.Shared/Reporter/TestReporter.cs:126-175 | a finish call is for an item whose start succeeded and was called first; its end time is no earlier than the start of the launch, the item and every ancestor |
| ReportingInvariants.SettledAfterEarlierSideTasks | ReportPortal.Shared/Reporter/TestReporter.cs:222-230 | a fired log or finish fired only after every earlier side-channel task of its node settled |
| ReportingInvariants.SideChannelFailureContained | ReportPortal.Shared/Reporter/TestReporter.cs:129-168 | the outcome of a log or update never changes what a firing finish decides |
| ReportingInvariants.SideChannelNeverBlocksStart | ReportPortal.Shared/Reporter/TestReporter.cs:41-63 | the outcome of a log or update never changes whether a start sees a failed dependency |
| ReportingOutcomes.StartFailureSendsNothing | ReportPortal.Shared/Reporter/TestReporter.cs:50-63 | a start whose launch or parent start failed fails as "parent failed to start", calls nothing and records nothing |
| ReportingOutcomes.StartSendsClampedTime | ReportPortal.Shared/Reporter/TestReporter.cs:65-95 | otherwise the start makes one call with the launch id, the parent id and the clamped start time; it succeeds, recording that start time and the returned id, exactly when the service returned an id |
| ReportingOutcomes.FinishWithoutStartSendsNothing | ReportPortal.Shared/Reporter/TestReporter.cs:124-127 | a finish of an item whose start failed calls nothing, fails on the missing item info and keeps its registries |
| ReportingOutcomes.FinishChildFailureReleases | ReportPortal.Shared/Reporter/TestReporter.cs:144-168 | a finish one of whose children did not finish successfully calls nothing and fails as "finishing of child items failed", yet records the requested end time and status and releases both registries (the node becomes `Released`) |
| ReportingOutcomes.FinishSendsClampedEnd | ReportPortal.Shared/Reporter/TestReporter.cs:170-175 | otherwise a finish makes one call with the item id, the end time clamped to the start, and the children it checked; the node records the unclamped end time and status and releases the registries (it becomes `Released`); the finish succeeds exactly when the service accepted the call |
| ReportingOutcomes.SideTaskWithoutStartSendsNothing | ReportPortal.Shared/Reporter/TestReporter.cs:206-232 | a log or update of an item whose start failed calls nothing: the update fails on the missing item info, the log at its wait on the start |
| ReportingOutcomes.SideTaskSendsToItem | ReportPortal.Shared/Reporter/TestReporter.cs:230-242 | a log or update of a started item makes one call for its id, a log with its time equal to the request's time clamped to the item's start; it succeeds exactly when accepted |
| ReportingOutcomes.ChildStartNeedsParentSuccess | ReportPortal.Shared/Reporter/TestReporter.cs:80-87 | a nested start call is made only after the parent's start succeeded and was called |
| ReportingOutcomes.FinishCallAfterChildren | ReportPortal.Shared/Reporter/TestReporter.cs:146-149 | a finish call comes after the successful finish calls of every child it checked, and each of those is a child of the item |
| ReportingSteps.WaitsOnLaunch | ReportPortal.Shared/Reporter/TestReporter.cs:42 | while the launch's start is pending, no operation has fired, because each waits on it through its node's start |
| ReportingSteps.LaunchPendingQuiet | ReportPortal.Shared/Reporter/TestReporter.cs:42-48 | while the launch's start is pending, nothing has fired or started and the journal is empty |
| ReportingSteps.NewReporterPreserves | ReportPortal.Shared/Reporter/TestReporter.cs:17-24 | constructing a node with nothing scheduled keeps the tree consistent |
| ReportingSteps.StartPreserves | ReportPortal.Shared/Reporter/TestReporter.cs:34-48 | scheduling the start of an unstarted node whose parent's start is scheduled keeps the tree consistent |
| ReportingSteps.LaunchPreserves | ReportPortal.Shared/Reporter/TestReporter.cs:42 | the launch's start resolving, either way, keeps the tree consistent |
| ReportingSteps.FinishPreserves | ReportPortal.Shared/Reporter/TestReporter.cs:101-124 | scheduling a finish on the start, the side-channel tasks and the children's finishes keeps the tree consistent |
| ReportingSteps.BagPreserves | ReportPortal.Shared/Reporter/TestReporter.cs:202-205 | lazily allocating the side-channel registry keeps the tree consistent |
| ReportingSteps.SideTaskPreserves | ReportPortal.Shared/Reporter/TestReporter.cs:206-244 | registering an update on the start, or a log on the start and every earlier side-channel task, keeps the tree consistent |
| ReportingSteps.ChildPreserves | ReportPortal.Shared/Reporter/TestReporter.cs:187-191 | adding a child to the lazily allocated child registry keeps the tree consistent |
| ReportingSteps.ChildStartPreserves | ReportPortal.Shared/Reporter/TestReporter.cs:185-186 | creating a child and scheduling its start under a parent whose start is scheduled keeps the tree consistent |
| ReportingFire.ParentStartedFirst | ReportPortal.Shared/Reporter/TestReporter.cs:43-52 | a started nested item's parent started successfully |
| ReportingFire.StartFiredPreserves | ReportPortal.Shared/Reporter/TestReporter.cs:48-97 | firing a start keeps the tree consistent |
| ReportingFire.FinishFiredPreserves | ReportPortal.Shared/Reporter/TestReporter.cs:124-176 | firing a finish keeps the tree consistent |
| ReportingFire.SideFiredPreserves | ReportPortal.Shared/Reporter/TestReporter.cs:206-242 | firing a log or update keeps the tree consistent |
| ReportingFire.LogCallsEarlier | ReportPortal.Shared/Reporter/TestReporter.cs:222-244 | every log call already made for the node of a pending log is for a log accepted earlier, so logs reach the service in order |
| TestReporterModel.ReportingTree.constructor | ReportPortal.Shared/Reporter/TestReporter.cs:42 | the initial state holds only the launch's pending start, which every item start waits on; there are no nodes and no calls |
| TestReporterModel.ReportingTree.ResolveLaunchStart | ReportPortal.Shared/Reporter/TestReporter.cs:42 | the launch's start succeeds with its info or fails; nothing else changes and the invariant holds |
| TestReporterModel.ReportingTree.NewTestReporter | ReportPortal.Shared/Reporter/TestReporter.cs:17-24 | a new node under the given parent, with nothing scheduled, is appended |
| TestReporterModel.ReportingTree.Start | ReportPortal.Shared/Reporter/TestReporter.cs:34-48 | fails as already scheduled, or on a parent with no start task, without change; otherwise schedules a start on the launch's and the parent's starts and records it |
| TestReporterModel.ReportingTree.Finish | ReportPortal.Shared/Reporter/TestReporter.cs:101-124 | fails as not started, as already finishing, or on an unscheduled child finish, without change; succeeds exactly when none of these holds, and then schedules a finish on the start, every side-channel task and every child's finish, and records it |
| TestReporterModel.ReportingTree.StartChildTestReporter | ReportPortal.Shared/Reporter/TestReporter.cs:183-196 | fails exactly when the parent's start is not scheduled; otherwise appends a child whose start waits on the launch's and the parent's starts, and registers it with the parent |
| TestReporterModel.ReportingTree.Update | ReportPortal.Shared/Reporter/TestReporter.cs:198-211 | does nothing once the finish completed; otherwise allocates the registry and either fails on the missing start task or registers an update waiting on the start |
| TestReporterModel.ReportingTree.Log | ReportPortal.Shared/Reporter/TestReporter.cs:213-246 | fails exactly when the start is not scheduled; does nothing once the finish completed; otherwise registers a log waiting on the start and every registered side-channel task |
| TestReporterModel.ReportingTree.RunStart | ReportPortal.Shared/Reporter/TestReporter.cs:48-97 | firing a start yields exactly the state `StartFired` describes, and the invariant holds |
| TestReporterModel.ReportingTree.RunFinish | ReportPortal.Shared/Reporter/TestReporter.cs:124-176 | firing a finish yields exactly the state `FinishFired` describes, and the invariant holds; the wait on the children is required only for a node with item info |
| ReportingOutcomes.FinishWithoutStartIgnoresChildren | ReportPortal.Shared/Reporter/TestReporter.cs:124-127 | a finish whose start failed can fire once its dependencies settle, whatever its children's state, since it faults before the child wait |
| TestReporterModel.ReportingTree.RunLog | ReportPortal.Shared/Reporter/TestReporter.cs:230-242 | firing a log yields exactly the state `SideFired` describes, and the invariant holds |
| TestReporterModel.ReportingTree.RunUpdate | ReportPortal.Shared/Reporter/TestReporter.cs:206-209 | firing an update yields exactly the state `SideFired` describes, and the invariant holds |

## Left out

- Concurrency. The real tasks run on a thread pool. The model fires one
  operation at a time, and each firing (its checks, its service call and its
  completion) is a single atomic step. Interleavings inside one continuation
  are not modelled.
- The order of `ConcurrentBag` enumeration is unspecified. The model
  enumerates the registries in insertion order. It does not model the bag's
  thread-safety.
- Blocking waits. `Task.WaitAll` at line 148 blocks while a child's finish
  is pending. The wait is reached only when the item info exists, because
  a finish without it faults at line 126 first. So `RunFinish` on a node
  with item info is enabled only when that wait returns
  (`ChildWaitReturns`), and a node without item info fires as soon as its
  dependencies settle. The blocked state is not a step of its own.
- `StartChildTestReporter` checks up front that the parent's start is
  scheduled. When it is not, the source's `Start` on the new child throws
  after the child object exists. The unreachable child object is not
  modelled.
- The launch reporter is opaque. Its start is operation 0, and its info is a
  parameter of `ResolveLaunchStart`. Launch finishing, reruns,
  external launches, `Sync`, `LastTestNode` (line 193) and the launch's own
  logging are not part of this model.
- The reporting service is a parameter. Each Run method receives the
  service's reply (an id, or accepted or not). Network I/O, timeouts and
  cancellation all appear as `Failed(TransportRejected)`.
- Exception messages, `AggregateException` flattening and inner-exception
  chains are not modelled. Each failure is an `Error` or `Cause` constructor.
- `ThreadId` (lines 23 and 249) is not modelled: it depends on the calling
  thread.
- Timestamps are integers. `DateTime` precision and time zones are not
  modelled.
- Ids returned by the service are not assumed unique.
- The request payloads of updates and logs and the other request fields are
  carried as opaque values.
- Null requests. Requests are values, so a request cannot be null. In the
  source, a null request makes the deferred operation fault:
  - a start at line 65;
  - a finish at line 126, before the `try`/`finally`, so its registries are
    kept;
  - a log at line 234.

  `Update` passes a null request on to the service at line 208.
- In-place clamping. The source clamps the caller's request objects in
  place (lines 70, 84, 172 and 236). A caller that reuses a request object
  sees the raised time. The model clamps a copy, and the caller's request
  value is unchanged.
- `AsyncReporterTest.cs` and `ITestContext.cs` are not part of this model.
  Those tests expect a "children are not scheduled to finish" check that
  `TestReporter.cs` does not make, so the model does not make it either.
