/**
 * The reporting tree as mutable state. Each caller-facing method of a
 * TestReporter (Start, Finish, StartChildTestReporter, Update, Log) takes the
 * index of the node it is called on; the deferred work it schedules is an
 * entry of `ops` that one of the Run methods later fires, once the entries it
 * waits on have settled. The outcome of each service call is a parameter of
 * the Run method that makes it.
 */
module TestReporterModel {
  import opened ReportingTypes
  import opened ReportingInvariants
  import opened ReportingSteps
  import opened ReportingFire

  class ReportingTree {
    /** Deferred operations; entry 0 is the launch's start. */
    var ops: seq<Operation>
    /** One record per TestReporter object, in creation order. */
    var reporters: seq<TestReporter>
    /** What the launch supplied when its start succeeded. */
    var launch: Option<LaunchInfo>
    /** Every reporting-service call issued so far, in order. */
    var calls: seq<Call>

    function Snapshot(): Tree
      reads this
    {
      Tree(ops, reporters, launch, calls)
    }

    ghost predicate Valid()
      reads this
    {
      Consistent(Snapshot())
    }

    /** A launch whose start is scheduled but has not resolved, and no items. */
    constructor ()
      ensures Valid()
      ensures ops == [Operation(LaunchStart, [], Pending)]
      ensures reporters == [] && launch == None && calls == []
    {
      ops := [Operation(LaunchStart, [], Pending)];
      reporters := [];
      launch := None;
      calls := [];
    }

    /** The launch's start resolves: with its id and start time, or as a failure. */
    method ResolveLaunchStart(info: Option<LaunchInfo>)
      requires Valid() && ops[LaunchStartTask].status == Pending
      modifies this
      ensures Valid()
      ensures ops == old(ops)[LaunchStartTask := old(ops[LaunchStartTask]).(
        status := if info.Some? then Succeeded else Failed(TransportRejected))]
      ensures launch == info
      ensures reporters == old(reporters) && calls == old(calls)
    {
      LaunchPreserves(Snapshot(), info);
      ops := ops[LaunchStartTask := ops[LaunchStartTask].(
        status := if info.Some? then Succeeded else Failed(TransportRejected))];
      launch := info;
    }

    /** A new TestReporter under `parent` (a top-level item when `None`), with nothing scheduled. */
    method NewTestReporter(parent: Option<nat>) returns (n: nat)
      requires Valid()
      requires parent.Some? ==> parent.value < |reporters|
      modifies this
      ensures Valid()
      ensures n == |old(reporters)| && reporters == old(reporters) + [NewReporter(parent)]
      ensures ops == old(ops) && launch == old(launch) && calls == old(calls)
    {
      NewReporterPreserves(Snapshot(), parent);
      n := |reporters|;
      reporters := reporters + [NewReporter(parent)];
    }

    /**
     * Schedules the start of node `n`: it waits on the launch's start and, for
     * a nested item, the parent's start.
     */
    method Start(n: nat, request: StartRequest) returns (r: Result<()>)
      requires Valid() && n < |reporters|
      modifies this
      ensures Valid()
      ensures old(reporters[n].startTask).Some? ==> r == Failure(AlreadyScheduledForStarting)
      ensures old(reporters[n].startTask).None? && old(ParentStartMissing(reporters, n)) ==> r == Failure(NullDependency)
      ensures r.Failure? ==> unchanged(this)
      ensures r.Success? <==> old(reporters[n].startTask).None? && !old(ParentStartMissing(reporters, n))
      ensures r.Success? ==>
        && ops == old(ops) + [Operation(ItemStart(n, request), StartDependencies(old(ParentStartTask(reporters, n))), Pending)]
        && reporters == old(reporters)[n := old(reporters[n]).(startTask := Some(|old(ops)|))]
        && launch == old(launch) && calls == old(calls)
    {
      if reporters[n].startTask.Some? {
        return Failure(AlreadyScheduledForStarting);
      }
      assert ReporterShape(Snapshot(), n);
      var dependentTasks := [LaunchStartTask];
      var parent := reporters[n].parent;
      if parent.Some? {
        var parentStart := reporters[parent.value].startTask;
        if parentStart.None? {
          return Failure(NullDependency);
        }
        dependentTasks := dependentTasks + [parentStart.value];
      }
      assert dependentTasks == StartDependencies(ParentStartTask(reporters, n));
      StartPreserves(Snapshot(), n, request);
      var k := |ops|;
      ops := ops + [Operation(ItemStart(n, request), dependentTasks, Pending)];
      reporters := reporters[n := reporters[n].(startTask := Some(k))];
      r := Success(());
    }
 
    /**
     * Schedules the finish of node `n`: it waits on the start, every
     * registered side-channel task and the finish of every registered child.
     */
    method Finish(n: nat, request: FinishRequest) returns (r: Result<()>)
      requires Valid() && n < |reporters|
      modifies this
      ensures Valid()
      ensures old(reporters[n].startTask).None? ==> r == Failure(NotScheduledForStarting)
      ensures old(reporters[n].startTask).Some? && old(reporters[n].finishTask).Some? ==> r == Failure(AlreadyScheduledForFinishing)
      ensures (old(reporters[n].startTask).Some? && old(reporters[n].finishTask).None? &&
               old(ChildFinishTasks(reporters, Registry(reporters[n].childTestReporters))).None?) ==>
        r == Failure(NullDependency)
      ensures r.Failure? ==> unchanged(this)
      ensures r.Success? <==> (old(reporters[n].startTask).Some? && old(reporters[n].finishTask).None? &&
        old(ChildFinishTasks(reporters, Registry(reporters[n].childTestReporters))).Some?)
      ensures r.Success? ==>
        && ops == old(ops) + [Operation(ItemFinish(n, request),
             FinishDependencies(old(reporters[n].startTask.value), old(Registry(reporters[n].additionalTasks)),
               old(ChildFinishTasks(reporters, Registry(reporters[n].childTestReporters)).value)), Pending)]
        && reporters == old(reporters)[n := old(reporters[n]).(finishTask := Some(|old(ops)|))]
        && launch == old(launch) && calls == old(calls)
    {
      if reporters[n].startTask.None? {
        return Failure(NotScheduledForStarting);
      }
      if reporters[n].finishTask.Some? {
        return Failure(AlreadyScheduledForFinishing);
      }
      var dependentTasks := [reporters[n].startTask.value];
      if reporters[n].additionalTasks.Some? {
        dependentTasks := dependentTasks + reporters[n].additionalTasks.value;
      }
      var childFinishes := ChildFinishTasks(reporters, Registry(reporters[n].childTestReporters));
      if childFinishes.None? {
        return Failure(NullDependency);
      }
      if reporters[n].childTestReporters.Some? {
        dependentTasks := dependentTasks + childFinishes.value;
      }
      assert dependentTasks == FinishDependencies(reporters[n].startTask.value, Registry(reporters[n].additionalTasks), childFinishes.value);
      ScheduleFinish(n, request, dependentTasks);
      r := Success(());
    }

    /**
     * Creates a child of node `n`, schedules its start and registers it with
     * `n`. The parent's start must be scheduled: the child's start waits on it.
     */
    method StartChildTestReporter(n: nat, request: StartRequest) returns (r: Result<nat>)
      requires Valid() && n < |reporters|
      modifies this
      ensures Valid()
      ensures r.Failure? <==> old(reporters[n].startTask).None?
      ensures r.Failure? ==> r.error == NullDependency && unchanged(this)
      ensures r.Success? ==>
        && r.value == |old(reporters)|
        && ops == old(ops) + [Operation(ItemStart(r.value, request), [LaunchStartTask, old(reporters[n].startTask.value)], Pending)]
        && reporters == (old(reporters) + [NewReporter(Some(n)).(startTask := Some(|old(ops)|))])[n :=
             old(reporters[n]).(childTestReporters := Some(Registry(old(reporters[n].childTestReporters)) + [r.value]))]
        && launch == old(launch) && calls == old(calls)
    {
      // The child's own start would reject the missing parent start before
      // the child is registered anywhere; the check is made up front.
      if reporters[n].startTask.None? {
        return Failure(NullDependency);
      }
      var c := |reporters|;
      ChildStartPreserves(Snapshot(), n, request);
      var k := |ops|;
      reporters := reporters + [NewReporter(Some(n)).(startTask := Some(k))];
      ops := ops + [Operation(ItemStart(c, request), [LaunchStartTask, reporters[n].startTask.value], Pending)];
      RegisterChild(n, c);
      r := Success(c);
    }

    /**
     * While the finish of `n` is unset or pending, registers an update that
     * waits on the start alone; the registry is allocated first, so a missing
     * start leaves it allocated.
     */
    method Update(n: nat, request: UpdateRequest) returns (r: Result<()>)
      requires Valid() && n < |reporters|
      modifies this
      ensures Valid()
      ensures r.Failure? <==> old(FinishOpen(ops, reporters[n])) && old(reporters[n].startTask).None?
      ensures r.Failure? ==> r.error == NullStartTask
      ensures launch == old(launch) && calls == old(calls)
      ensures !old(FinishOpen(ops, reporters[n])) ==> unchanged(this)
      ensures r.Failure? ==>
        && ops == old(ops)
        && reporters == old(reporters)[n := old(reporters[n]).(additionalTasks := Some(Registry(old(reporters[n].additionalTasks))))]
      ensures old(FinishOpen(ops, reporters[n])) && r.Success? ==>
        && ops == old(ops) + [Operation(ItemUpdate(n, request), [old(reporters[n].startTask.value)], Pending)]
        && reporters == old(reporters)[n := old(reporters[n]).(additionalTasks :=
             Some(Registry(old(reporters[n].additionalTasks)) + [|old(ops)|]))]
    {
      if FinishOpen(ops, reporters[n]) {
        AllocateSideRegistry(n);
        if reporters[n].startTask.None? {
          return Failure(NullStartTask);
        }
        RegisterSideTask(n, Operation(ItemUpdate(n, request), [reporters[n].startTask.value], Pending));
      }
      r := Success(());
    }

    /**
     * While the finish of `n` is unset or pending, registers a log that waits
     * on the start and on every side-channel task registered so far.
     */
    method Log(n: nat, request: LogRequest) returns (r: Result<()>)
      requires Valid() && n < |reporters|
      modifies this
      ensures Valid()
      ensures r.Failure? <==> old(reporters[n].startTask).None?
      ensures r.Failure? ==> r.error == NotScheduledForStarting
      ensures r.Failure? || !old(FinishOpen(ops, reporters[n])) ==> unchanged(this)
      ensures r.Success? && old(FinishOpen(ops, reporters[n])) ==>
        && ops == old(ops) + [Operation(ItemLog(n, request),
             [old(reporters[n].startTask.value)] + old(Registry(reporters[n].additionalTasks)), Pending)]
        && reporters == old(reporters)[n := old(reporters[n]).(additionalTasks :=
             Some(Registry(old(reporters[n].additionalTasks)) + [|old(ops)|]))]
        && launch == old(launch) && calls == old(calls)
    {
      if reporters[n].startTask.None? {
        return Failure(NotScheduledForStarting);
      }
      if FinishOpen(ops, reporters[n]) {
        var dependentTasks := [reporters[n].startTask.value];
        AllocateSideRegistry(n);
        dependentTasks := dependentTasks + reporters[n].additionalTasks.value;
        RegisterSideTask(n, Operation(ItemLog(n, request), dependentTasks, Pending));
      }
      r := Success(());
    }
 
    /**
     * The deferred start of node `n` runs, its launch's and parent's starts
     * having settled; `reply` is the service's answer to the start call
     * (`Some(id)` when the item was created).
     */
    method RunStart(n: nat, reply: Option<Id>)
      requires Valid() && n < |reporters| && reporters[n].startTask.Some? && Runnable(ops, reporters[n].startTask.value)
      modifies this
      ensures Valid()
      ensures Snapshot() == StartFired(old(Snapshot()), n, reply)
    {
      ghost var t := Snapshot();
      StartInputs(t, n);
      StartFiredPreserves(t, n, reply);
      var k := reporters[n].startTask.value;
      if DependencyFailed(ops, ops[k].deps) {
        ops := ops[k := ops[k].(status := Failed(ParentFailedToStart))];
        return;
      }
      var request := ops[k].kind.startRequest;
      var call := StartItemFor(launch, reporters, n, request).value;
      calls := calls + [call];
      if reply.Some? {
        reporters := reporters[n := reporters[n].(testInfo := Some(TestItem(reply.value, call.startTime, None, None)))];
        ops := ops[k := ops[k].(status := Succeeded)];
      } else {
        ops := ops[k := ops[k].(status := Failed(TransportRejected))];
      }
    }

    /**
     * The deferred finish of node `n` runs, its dependencies having settled
     * and no registered child's finish still pending; `accepted` is the
     * service's answer to the finish call.
     */
    method RunFinish(n: nat, accepted: bool)
      requires Valid() && n < |reporters| && reporters[n].finishTask.Some? && Runnable(ops, reporters[n].finishTask.value)
      requires reporters[n].testInfo.Some? ==> ChildWaitReturns(ops, reporters, Registry(reporters[n].childTestReporters))
      modifies this
      ensures Valid()
      ensures Snapshot() == FinishFired(old(Snapshot()), n, accepted)
    {
      ghost var t := Snapshot();
      FinishInputs(t, n);
      FinishFiredPreserves(t, n, accepted);
      var k := reporters[n].finishTask.value;
      var request := ops[k].kind.finishRequest;
      if reporters[n].testInfo.None? {
        ops := ops[k := ops[k].(status := Failed(MissingTestInfo))];
        return;
      }
      var info := reporters[n].testInfo.value;
      var children := Registry(reporters[n].childTestReporters);
      var childrenFinished := ChildrenFinished(ops, reporters, children);
      reporters := reporters[n := Released(reporters[n], request)];
      if !childrenFinished {
        ops := ops[k := ops[k].(status := Failed(ChildItemsFailedToFinish))];
        return;
      }
      calls := calls + [FinishItemCall(n, info.id, Clamp(request.endTime, info.startTime), children)];
      ops := ops[k := ops[k].(status := if accepted then Succeeded else Failed(TransportRejected))];
    }

    /** The deferred log at `k` runs, everything it waits on having settled; `accepted` is the service's answer. */
    method RunLog(k: nat, accepted: bool)
      requires Valid() && 0 < k < |ops| && ops[k].kind.ItemLog? && Runnable(ops, k)
      modifies this
      ensures Valid()
      ensures Snapshot() == SideFired(old(Snapshot()), k, accepted)
    {
      RunSideTask(k, accepted);
    }

    /** The deferred update at `k` runs once the start has settled; `accepted` is the service's answer. */
    method RunUpdate(k: nat, accepted: bool)
      requires Valid() && 0 < k < |ops| && ops[k].kind.ItemUpdate? && Runnable(ops, k)
      modifies this
      ensures Valid()
      ensures Snapshot() == SideFired(old(Snapshot()), k, accepted)
    {
      RunSideTask(k, accepted);
    }

    /** Runs the log or update at `k`: it needs the item info, which exists only after a successful start. */
    method RunSideTask(k: nat, accepted: bool)
      requires Valid() && 0 < k < |ops| && ops[k].kind.IsSideChannel() && Runnable(ops, k)
      modifies this
      ensures Valid()
      ensures Snapshot() == SideFired(old(Snapshot()), k, accepted)
    {
      ghost var t := Snapshot();
      SideFiredPreserves(t, k, accepted);
      assert OpShape(t, k);
      var n := ops[k].kind.node;
      if reporters[n].testInfo.None? {
        ops := ops[k := ops[k].(status := Failed(if ops[k].kind.ItemLog? then StartNotSucceeded else MissingTestInfo))];
        return;
      }
      calls := calls + [SideCall(ops[k].kind, reporters[n].testInfo.value, k)];
      ops := ops[k := ops[k].(status := if accepted then Succeeded else Failed(TransportRejected))];
    }

    /** Allocates the side-channel registry of `n` if it is not allocated. */
    method AllocateSideRegistry(n: nat)
      requires Valid() && n < |reporters|
      modifies this
      ensures Valid()
      ensures reporters == old(reporters)[n := old(reporters[n]).(additionalTasks := Some(Registry(old(reporters[n].additionalTasks))))]
      ensures ops == old(ops) && launch == old(launch) && calls == old(calls)
    {
      BagPreserves(Snapshot(), n);
      if reporters[n].additionalTasks.None? {
        reporters := reporters[n := reporters[n].(additionalTasks := Some([]))];
      }
    }

    /** Schedules `op` and adds it to the allocated side-channel registry of `n`. */
    method RegisterSideTask(n: nat, op: Operation)
      requires Valid() && SideTaskSchedulable(Snapshot(), n, op) && reporters[n].additionalTasks.Some?
      modifies this
      ensures Valid()
      ensures ops == old(ops) + [op]
      ensures reporters == old(reporters)[n := old(reporters[n]).(additionalTasks := Some(old(reporters[n].additionalTasks.value) + [|old(ops)|]))]
      ensures launch == old(launch) && calls == old(calls)
    {
      SideTaskPreserves(Snapshot(), n, op);
      var k := |ops|;
      ops := ops + [op];
      reporters := reporters[n := reporters[n].(additionalTasks := Some(reporters[n].additionalTasks.value + [k]))];
    }

    /** Schedules the finish of `n`, waiting on `deps`, and records it on the node. */
    method ScheduleFinish(n: nat, request: FinishRequest, deps: seq<nat>)
      requires Valid() && FinishSchedulable(Snapshot(), n, deps)
      modifies this
      ensures Valid()
      ensures ops == old(ops) + [Operation(ItemFinish(n, request), deps, Pending)]
      ensures reporters == old(reporters)[n := old(reporters[n]).(finishTask := Some(|old(ops)|))]
      ensures launch == old(launch) && calls == old(calls)
    {
      FinishPreserves(Snapshot(), n, request, deps);
      var k := |ops|;
      ops := ops + [Operation(ItemFinish(n, request), deps, Pending)];
      reporters := reporters[n := reporters[n].(finishTask := Some(k))];
    }

    /** Adds `c` to the child registry of `n`, allocating the registry first if need be. */
    method RegisterChild(n: nat, c: nat)
      requires Valid() && n < |reporters| && c < |reporters| && reporters[c].parent == Some(n)
      modifies this
      ensures Valid()
      ensures reporters == old(reporters)[n := old(reporters[n]).(childTestReporters := Some(Registry(old(reporters[n].childTestReporters)) + [c]))]
      ensures ops == old(ops) && launch == old(launch) && calls == old(calls)
    {
      ChildPreserves(Snapshot(), n, c);
      if reporters[n].childTestReporters.None? {
        reporters := reporters[n := reporters[n].(childTestReporters := Some([]))];
      }
      reporters := reporters[n := reporters[n].(childTestReporters := Some(reporters[n].childTestReporters.value + [c]))];
      assert Snapshot() == WithChild(old(Snapshot()), n, c);
    }
  }
}
