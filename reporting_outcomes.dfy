/**
 * What each firing step does, stated in terms of what the reporting service
 * sees and what the node records afterwards, together with the guarantees
 * the journal of service calls carries in every consistent state.
 */
module ReportingOutcomes {
  import opened ReportingTypes
  import opened ReportingInvariants
  import opened ReportingFire

  /** A start whose launch or parent start failed fails as "parent failed to start" and calls nothing. */
  lemma StartFailureSendsNothing(t: Tree, n: nat, reply: Option<Id>)
    requires StartFirable(t, n)
    requires DependencyFailed(t.ops, t.ops[t.reporters[n].startTask.value].deps)
    ensures var t' := StartFired(t, n, reply);
      && t'.calls == t.calls
      && t'.ops[t.reporters[n].startTask.value].status == Failed(ParentFailedToStart)
      && t'.reporters == t.reporters
  {
  }

  /**
   * A start whose dependencies succeeded makes one start call, for the
   * launch, under the parent's id for a nested item, with the start time
   * raised to the launch's or the parent's start time. The item info is
   * recorded, with the id the service returned and that start time, exactly
   * when the service returned an id.
   */
  lemma StartSendsClampedTime(t: Tree, n: nat, reply: Option<Id>)
    requires StartFirable(t, n)
    requires !DependencyFailed(t.ops, t.ops[t.reporters[n].startTask.value].deps)
    ensures t.ops[t.reporters[n].startTask.value].kind.ItemStart?
    ensures t.reporters[n].parent.Some? ==>
      t.reporters[n].parent.value < |t.reporters| && t.reporters[t.reporters[n].parent.value].testInfo.Some?
    ensures var t' := StartFired(t, n, reply);
      var k := t.reporters[n].startTask.value;
      var request := t.ops[k].kind.startRequest;
      && |t'.calls| == |t.calls| + 1 && t'.calls[..|t.calls|] == t.calls
      && var c := t'.calls[|t.calls|];
      && c.StartItemCall? && c.node == n && t.launch.Some? && c.launchId == t.launch.value.id
      && c.startTime >= request.startTime
      && (t.reporters[n].parent.None? ==> c.parentId.None? && c.startTime >= t.launch.value.startTime)
      && (t.reporters[n].parent.Some? ==>
            var info := t.reporters[t.reporters[n].parent.value].testInfo.value;
            c.parentId == Some(info.id) && c.startTime >= info.startTime)
      && (c.startTime == request.startTime || c.startTime == (if t.reporters[n].parent.None? then t.launch.value.startTime
            else t.reporters[t.reporters[n].parent.value].testInfo.value.startTime))
      && (t'.ops[k].status == Succeeded <==> reply.Some?)
      && (reply.Some? ==> t'.reporters[n].testInfo == Some(TestItem(reply.value, c.startTime, None, None)))
      && (reply.None? ==> t'.ops[k].status == Failed(TransportRejected) && t'.reporters[n].testInfo.None?)
  {
    StartInputs(t, n);
    var t' := StartFired(t, n, reply);
    assert t'.calls[..|t.calls|] == t.calls;
  }

  /** A finish whose start failed fails on the missing item info: nothing is called and the registries stay. */
  lemma FinishWithoutStartSendsNothing(t: Tree, n: nat, accepted: bool)
    requires FinishFirable(t, n) && !StartSucceeded(t, n)
    ensures var t' := FinishFired(t, n, accepted);
      && t'.calls == t.calls
      && t'.ops[t.reporters[n].finishTask.value].status == Failed(MissingTestInfo)
      && t'.reporters == t.reporters
  {
    FinishInputs(t, n);
  }

  /**
   * A finish whose start failed fires as soon as its dependencies settle,
   * whatever state its children are in: it stops before waiting on them.
   */
  lemma FinishWithoutStartIgnoresChildren(t: Tree, n: nat)
    requires Consistent(t) && n < |t.reporters| && t.reporters[n].finishTask.Some?
    requires Runnable(t.ops, t.reporters[n].finishTask.value) && !StartSucceeded(t, n)
    ensures FinishFirable(t, n)
  {
    assert ReporterShape(t, n);
  }

  /**
   * A finish of a started item one of whose registered children has no
   * successful finish fails as "finishing of child items failed": nothing is
   * called, yet the end time and status are recorded and both registries are
   * released.
   */
  lemma FinishChildFailureReleases(t: Tree, n: nat, accepted: bool)
    requires FinishFirable(t, n) && StartSucceeded(t, n)
    requires !ChildrenFinished(t.ops, t.reporters, Registry(t.reporters[n].childTestReporters))
    ensures t.ops[t.reporters[n].finishTask.value].kind.ItemFinish? && t.reporters[n].testInfo.Some?
    ensures var t' := FinishFired(t, n, accepted);
      var k := t.reporters[n].finishTask.value;
      && t'.calls == t.calls
      && t'.ops[k].status == Failed(ChildItemsFailedToFinish)
      && t'.reporters[n].childTestReporters.None? && t'.reporters[n].additionalTasks.None?
      && t'.reporters[n].testInfo.Some?
      && t'.reporters[n].testInfo.value.endTime == Some(t.ops[k].kind.finishRequest.endTime)
      && t'.reporters[n].testInfo.value.status == Some(t.ops[k].kind.finishRequest.status)
      && t'.reporters[n] == Released(t.reporters[n], t.ops[k].kind.finishRequest)
  {
    FinishInputs(t, n);
  }

  /**
   * A finish of a started item whose registered children all finished
   * successfully makes one finish call, with the end time raised to the
   * item's start time, releases both registries, and succeeds exactly when
   * the service accepted the call.
   */
  lemma FinishSendsClampedEnd(t: Tree, n: nat, accepted: bool)
    requires FinishFirable(t, n) && StartSucceeded(t, n)
    requires ChildrenFinished(t.ops, t.reporters, Registry(t.reporters[n].childTestReporters))
    ensures t.ops[t.reporters[n].finishTask.value].kind.ItemFinish? && t.reporters[n].testInfo.Some?
    ensures var t' := FinishFired(t, n, accepted);
      var k := t.reporters[n].finishTask.value;
      var request := t.ops[k].kind.finishRequest;
      var info := t.reporters[n].testInfo.value;
      && |t'.calls| == |t.calls| + 1 && t'.calls[..|t.calls|] == t.calls
      && var c := t'.calls[|t.calls|];
      && c == FinishItemCall(n, info.id, c.endTime, Registry(t.reporters[n].childTestReporters))
      && c.endTime >= request.endTime && c.endTime >= info.startTime
      && (c.endTime == request.endTime || c.endTime == info.startTime)
      && t'.reporters[n].childTestReporters.None? && t'.reporters[n].additionalTasks.None?
      && (t'.ops[k].status == Succeeded <==> accepted)
      && t'.reporters[n] == Released(t.reporters[n], request)
  {
    FinishInputs(t, n);
    var t' := FinishFired(t, n, accepted);
    assert t'.calls[..|t.calls|] == t.calls;
  }

  /** A log or update of an item whose start failed calls nothing. */
  lemma SideTaskWithoutStartSendsNothing(t: Tree, k: nat, accepted: bool)
    requires SideFirable(t, k) && t.ops[k].kind.node < |t.reporters| && !StartSucceeded(t, t.ops[k].kind.node)
    ensures var t' := SideFired(t, k, accepted);
      && t'.calls == t.calls && t'.reporters == t.reporters
      && t'.ops[k].status == Failed(if t.ops[k].kind.ItemLog? then StartNotSucceeded else MissingTestInfo)
  {
    assert ReporterShape(t, t.ops[k].kind.node);
  }

  /**
   * A log of a started item makes one log call, for that item's id, with its
   * time raised to the item's start time; an update makes one update call
   * for that item's id.
   */
  lemma SideTaskSendsToItem(t: Tree, k: nat, accepted: bool)
    requires SideFirable(t, k) && t.ops[k].kind.node < |t.reporters| && StartSucceeded(t, t.ops[k].kind.node)
    ensures var t' := SideFired(t, k, accepted);
      var n := t.ops[k].kind.node;
      && t.reporters[n].testInfo.Some?
      && var info := t.reporters[n].testInfo.value;
      && |t'.calls| == |t.calls| + 1 && t'.calls[..|t.calls|] == t.calls
      && var c := t'.calls[|t.calls|];
      && c.node == n && c.op == k
      && (t.ops[k].kind.ItemLog? ==>
            c.AddLogCall? && c.itemId == info.id &&
            c.time >= t.ops[k].kind.logRequest.time && c.time >= info.startTime &&
            c.time == Clamp(t.ops[k].kind.logRequest.time, info.startTime))
      && (t.ops[k].kind.ItemUpdate? ==> c == UpdateItemCall(n, info.id, k))
      && (t'.ops[k].status == Succeeded <==> accepted)
  {
    assert ReporterShape(t, t.ops[k].kind.node);
    var t' := SideFired(t, k, accepted);
    assert t'.calls[..|t.calls|] == t.calls;
  }

  /** The service is asked to start a nested item only after its parent's start succeeded and was sent. */
  lemma ChildStartNeedsParentSuccess(t: Tree, j: nat)
    requires Consistent(t)
    requires j < |t.calls| && t.calls[j].StartItemCall?
    requires t.calls[j].node < |t.reporters| && t.reporters[t.calls[j].node].parent.Some?
    ensures var p := t.reporters[t.calls[j].node].parent.value;
      StartSucceeded(t, p) && StartCalledBefore(t, p, j)
  {
    var c := t.calls[j];
    assert CallJustified(t, c);
    assert ReporterShape(t, t.reporters[c.node].parent.value);
  }

  /** A finish call is sent only after the finish calls of every child it checked. */
  lemma FinishCallAfterChildren(t: Tree, j: nat, m: nat)
    requires Consistent(t)
    requires j < |t.calls| && t.calls[j].FinishItemCall? && m < |t.calls[j].checkedChildren|
    ensures var child := t.calls[j].checkedChildren[m];
      && child < |t.reporters| && t.reporters[child].parent == Some(t.calls[j].node)
      && FinishSucceeded(t.ops, t.reporters, child)
      && FinishCalledBefore(t, child, j)
  {
    assert CallJustified(t, t.calls[j]);
  }
}
