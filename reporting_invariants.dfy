/**
 * What every reachable reporting state satisfies, and the guarantees that
 * follow from it: starts happen only under started parents, time stamps are
 * clamped along the whole ancestor chain, finishes are sent only for started
 * items after their children finished, a failed launch silences the service,
 * and side-channel failures never reach a start or a finish.
 */
module ReportingInvariants {
  import opened ReportingTypes

  /** The node at `n` has a start task and it succeeded. */
  ghost predicate StartSucceeded(t: Tree, n: nat) {
    && n < |t.reporters|
    && t.reporters[n].startTask.Some?
    && t.reporters[n].startTask.value < |t.ops|
    && t.ops[t.reporters[n].startTask.value].status == Succeeded
  }

  /** The node at `n` has a start task and it has fired. */
  ghost predicate StartResolved(t: Tree, n: nat) {
    && n < |t.reporters|
    && t.reporters[n].startTask.Some?
    && t.reporters[n].startTask.value < |t.ops|
    && t.ops[t.reporters[n].startTask.value].status != Pending
  }

  /** The node at `n` has a finish task and it has fired. */
  ghost predicate FinishResolved(t: Tree, n: nat) {
    && n < |t.reporters|
    && t.reporters[n].finishTask.Some?
    && t.reporters[n].finishTask.value < |t.ops|
    && t.ops[t.reporters[n].finishTask.value].status != Pending
  }

  /** The operation at `k` is a log or update of node `n`. */
  ghost predicate SideTaskOf(t: Tree, k: nat, n: nat) {
    k < |t.ops| && t.ops[k].kind.IsSideChannel() && t.ops[k].kind.node == n
  }

  /** Every side-channel task of `n` created before operation `k` is among `k`'s dependencies. */
  ghost predicate EarlierSideTasksIn(t: Tree, n: nat, k: nat)
    requires k < |t.ops|
  {
    forall j :: 0 < j < k && SideTaskOf(t, j, n) ==> j in t.ops[k].deps
  }

  /** While the finish of `n` has not completed, its side-channel registry holds task `k`. */
  ghost predicate SideTaskRegistered(t: Tree, n: nat, k: nat)
    requires n < |t.reporters|
  {
    FinishOpen(t.ops, t.reporters[n]) ==>
      t.reporters[n].additionalTasks.Some? && k in t.reporters[n].additionalTasks.value
  }

  /** How operation `k` (not the launch's) was built. */
  ghost predicate OpShape(t: Tree, k: nat)
    requires 0 < k < |t.ops|
  {
    var op := t.ops[k];
    && !op.kind.LaunchStart?
    && op.kind.node < |t.reporters|
    && (forall i :: 0 <= i < |op.deps| ==> op.deps[i] < k)
    && t.reporters[op.kind.node].startTask.Some?
    && OpDeps(t, k)
  }

  /** The dependency list of operation `k`, by kind. */
  ghost predicate OpDeps(t: Tree, k: nat)
    requires 0 < k < |t.ops|
    requires !t.ops[k].kind.LaunchStart? && t.ops[k].kind.node < |t.reporters|
    requires t.reporters[t.ops[k].kind.node].startTask.Some?
  {
    var op := t.ops[k];
    var n := op.kind.node;
    var r := t.reporters[n];
    match op.kind
    case ItemStart(_, _) =>
      && r.startTask == Some(k)
      && (r.parent.None? ==> op.deps == [LaunchStartTask])
      && (r.parent.Some? ==>
            && r.parent.value < |t.reporters|
            && t.reporters[r.parent.value].startTask.Some?
            && op.deps == [LaunchStartTask, t.reporters[r.parent.value].startTask.value])
    case ItemFinish(_, _) =>
      && r.finishTask == Some(k)
      && |op.deps| >= 1 && op.deps[0] == r.startTask.value
      && EarlierSideTasksIn(t, n, k)
    case ItemUpdate(_, _) =>
      && op.deps == [r.startTask.value]
      && SideTaskRegistered(t, n, k)
    case ItemLog(_, _) =>
      && |op.deps| >= 1 && op.deps[0] == r.startTask.value
      && EarlierSideTasksIn(t, n, k)
      && SideTaskRegistered(t, n, k)
  }

  /** What the record of node `n` points to. */
  ghost predicate ReporterShape(t: Tree, n: nat)
    requires n < |t.reporters|
  {
    var r := t.reporters[n];
    && (r.parent.Some? ==> r.parent.value < n)
    && (r.startTask.Some? ==>
          && 0 < r.startTask.value < |t.ops|
          && t.ops[r.startTask.value].kind.ItemStart?
          && t.ops[r.startTask.value].kind.node == n)
    && (r.finishTask.Some? ==>
          && r.startTask.Some?
          && 0 < r.finishTask.value < |t.ops|
          && t.ops[r.finishTask.value].kind.ItemFinish?
          && t.ops[r.finishTask.value].kind.node == n)
    && (r.childTestReporters.Some? ==>
          forall i :: 0 <= i < |r.childTestReporters.value| ==>
            && r.childTestReporters.value[i] < |t.reporters|
            && t.reporters[r.childTestReporters.value[i]].parent == Some(n))
    && (r.additionalTasks.Some? ==>
          forall i :: 0 <= i < |r.additionalTasks.value| ==>
            0 < r.additionalTasks.value[i] && SideTaskOf(t, r.additionalTasks.value[i], n))
    && (r.testInfo.Some? <==> StartSucceeded(t, n))
  }

  /** Tables and cross references are well formed; operations only wait on older ones. */
  ghost predicate Shape(t: Tree) {
    && |t.ops| >= 1
    && t.ops[0].kind == LaunchStart
    && t.ops[0].deps == []
    && (forall k :: 0 < k < |t.ops| ==> OpShape(t, k))
    && (forall n :: 0 <= n < |t.reporters| ==> ReporterShape(t, n))
  }

  /** An operation fires only after all its dependencies have fired. */
  ghost predicate ResolutionOrdered(t: Tree) {
    forall k, i :: 0 <= k < |t.ops| && 0 <= i < |t.ops[k].deps| && t.ops[k].status != Pending && t.ops[k].deps[i] < |t.ops| ==>
      t.ops[t.ops[k].deps[i]].status != Pending
  }

  /** Structural success needs structural success below it. */
  ghost predicate SuccessPropagates(t: Tree) {
    && |t.ops| >= 1
    && (t.launch.Some? <==> t.ops[0].status == Succeeded)
    && (forall k, i ::
          (0 <= k < |t.ops| && t.ops[k].kind.ItemStart? && t.ops[k].status == Succeeded &&
           0 <= i < |t.ops[k].deps| && t.ops[k].deps[i] < |t.ops|) ==>
          t.ops[t.ops[k].deps[i]].status == Succeeded)
    && (forall k :: 0 <= k < |t.ops| && t.ops[k].kind.ItemFinish? && t.ops[k].status == Succeeded ==>
          StartSucceeded(t, t.ops[k].kind.node))
  }

  /** A started node's start time is not before its parent's, or the launch's for a top-level item. */
  ghost predicate StartAnchored(t: Tree, n: nat)
    requires n < |t.reporters| && t.reporters[n].testInfo.Some?
  {
    var st := t.reporters[n].testInfo.value.startTime;
    match t.reporters[n].parent
    case None => t.launch.Some? && t.launch.value.startTime <= st
    case Some(p) =>
      p < |t.reporters| && t.reporters[p].testInfo.Some? && t.reporters[p].testInfo.value.startTime <= st
  }

  ghost predicate Clamped(t: Tree) {
    forall n :: 0 <= n < |t.reporters| && t.reporters[n].testInfo.Some? ==> StartAnchored(t, n)
  }

  /** What a service call in the journal implies about the state. */
  ghost predicate CallJustified(t: Tree, c: Call) {
    && c.node < |t.reporters|
    && var r := t.reporters[c.node];
    match c
    case StartItemCall(n, launchId, parentId, st) =>
      && StartResolved(t, n)
      && t.launch.Some? && launchId == t.launch.value.id
      && (r.parent.None? ==> parentId.None? && t.launch.value.startTime <= st)
      && (r.parent.Some? ==>
            && r.parent.value < |t.reporters|
            && t.reporters[r.parent.value].testInfo.Some?
            && parentId == Some(t.reporters[r.parent.value].testInfo.value.id)
            && t.reporters[r.parent.value].testInfo.value.startTime <= st)
      && (r.testInfo.Some? ==> r.testInfo.value.startTime == st)
    case FinishItemCall(n, id, e, checked) =>
      && FinishResolved(t, n)
      && r.testInfo.Some? && id == r.testInfo.value.id && r.testInfo.value.startTime <= e
      && forall m :: 0 <= m < |checked| ==>
           && checked[m] < |t.reporters|
           && t.reporters[checked[m]].parent == Some(n)
           && FinishSucceeded(t.ops, t.reporters, checked[m])
    case UpdateItemCall(n, id, k) =>
      && r.testInfo.Some? && id == r.testInfo.value.id
      && k < |t.ops| && t.ops[k].kind.ItemUpdate? && t.ops[k].kind.node == n && t.ops[k].status != Pending
    case AddLogCall(n, id, time, k) =>
      && r.testInfo.Some? && id == r.testInfo.value.id && r.testInfo.value.startTime <= time
      && k < |t.ops| && t.ops[k].kind.ItemLog? && t.ops[k].kind.node == n && t.ops[k].status != Pending
  }

  ghost predicate CallsJustified(t: Tree) {
    forall i :: 0 <= i < |t.calls| ==> CallJustified(t, t.calls[i])
  }

  /** Some call before position `j` of the journal starts node `n`. */
  ghost predicate StartCalledBefore(t: Tree, n: nat, j: nat)
    requires j <= |t.calls|
  {
    exists i :: 0 <= i < j && t.calls[i].StartItemCall? && t.calls[i].node == n
  }

  /** Some call before position `j` of the journal finishes node `n`. */
  ghost predicate FinishCalledBefore(t: Tree, n: nat, j: nat)
    requires j <= |t.calls|
  {
    exists i :: 0 <= i < j && t.calls[i].FinishItemCall? && t.calls[i].node == n
  }

  /** A structural success is always backed by a service call. */
  ghost predicate CallsRecorded(t: Tree) {
    && (forall n :: 0 <= n < |t.reporters| && StartSucceeded(t, n) ==> StartCalledBefore(t, n, |t.calls|))
    && (forall n :: 0 <= n < |t.reporters| && FinishSucceeded(t.ops, t.reporters, n) ==> FinishCalledBefore(t, n, |t.calls|))
  }

  /** The service is asked to start, and to finish, each item at most once. */
  ghost predicate CalledOnce(t: Tree) {
    && (forall i, j :: 0 <= i < j < |t.calls| && t.calls[i].StartItemCall? && t.calls[j].StartItemCall? ==>
          t.calls[i].node != t.calls[j].node)
    && (forall i, j :: 0 <= i < j < |t.calls| && t.calls[i].FinishItemCall? && t.calls[j].FinishItemCall? ==>
          t.calls[i].node != t.calls[j].node)
  }

  /** A nested item is started after its parent. */
  ghost predicate ParentsCalledFirst(t: Tree) {
    forall j ::
      (0 <= j < |t.calls| && t.calls[j].StartItemCall? && t.calls[j].node < |t.reporters| &&
       t.reporters[t.calls[j].node].parent.Some?) ==>
      StartCalledBefore(t, t.reporters[t.calls[j].node].parent.value, j)
  }

  /** Finish, update and log calls for an item come after its start. */
  ghost predicate StartsCalledFirst(t: Tree) {
    forall j :: 0 <= j < |t.calls| && !t.calls[j].StartItemCall? ==> StartCalledBefore(t, t.calls[j].node, j)
  }

  /** An item is finished after every child it checked. */
  ghost predicate ChildrenCalledFirst(t: Tree) {
    forall j, m :: 0 <= j < |t.calls| && t.calls[j].FinishItemCall? && 0 <= m < |t.calls[j].checkedChildren| ==>
      FinishCalledBefore(t, t.calls[j].checkedChildren[m], j)
  }

  /** The logs of one item reach the service in the order they were accepted. */
  ghost predicate LogsInOrder(t: Tree) {
    forall i, j ::
      (0 <= i < j < |t.calls| && t.calls[i].AddLogCall? && t.calls[j].AddLogCall? &&
       t.calls[i].node == t.calls[j].node) ==>
      t.calls[i].op < t.calls[j].op
  }

  /** The order of the journal. */
  ghost predicate CallOrder(t: Tree) {
    CalledOnce(t) && ParentsCalledFirst(t) && StartsCalledFirst(t) && ChildrenCalledFirst(t) && LogsInOrder(t)
  }

  /** The invariant of every reachable reporting state. */
  ghost predicate Consistent(t: Tree) {
    && Shape(t)
    && ResolutionOrdered(t)
    && SuccessPropagates(t)
    && Clamped(t)
    && CallsJustified(t)
    && CallsRecorded(t)
    && CallOrder(t)
  }

  /** `a` is reached from `n` by following parent links at least once. */
  ghost predicate IsAncestor(reporters: seq<TestReporter>, a: nat, n: nat)
    decreases n
  {
    && n < |reporters|
    && reporters[n].parent.Some?
    && (reporters[n].parent.value == a ||
        (reporters[n].parent.value < n && IsAncestor(reporters, a, reporters[n].parent.value)))
  }

  /** A started item's ancestors all started, no later than it did. */
  lemma {:induction false} StartedAfterAncestors(t: Tree, a: nat, n: nat)
    requires Consistent(t)
    requires IsAncestor(t.reporters, a, n)
    requires t.reporters[n].testInfo.Some?
    ensures a < |t.reporters| && t.reporters[a].testInfo.Some?
    ensures t.reporters[a].testInfo.value.startTime <= t.reporters[n].testInfo.value.startTime
    decreases n
  {
    var p := t.reporters[n].parent.value;
    assert StartAnchored(t, n);
    if p != a {
      StartedAfterAncestors(t, a, p);
    }
  }

  /** A started item started after the launch did. */
  lemma {:induction false} StartedAfterLaunch(t: Tree, n: nat)
    requires Consistent(t)
    requires n < |t.reporters| && t.reporters[n].testInfo.Some?
    ensures t.launch.Some? && t.launch.value.startTime <= t.reporters[n].testInfo.value.startTime
    decreases n
  {
    assert StartAnchored(t, n);
    if t.reporters[n].parent.Some? {
      assert ReporterShape(t, n);
      StartedAfterLaunch(t, t.reporters[n].parent.value);
    }
  }

  /** Every ancestor of an item was asked to start before the item was. */
  lemma {:induction false} AncestorsStartCalledFirst(t: Tree, j: nat, a: nat)
    requires Consistent(t)
    requires j < |t.calls| && t.calls[j].StartItemCall?
    requires IsAncestor(t.reporters, a, t.calls[j].node)
    ensures StartCalledBefore(t, a, j)
    decreases j
  {
    var p := t.reporters[t.calls[j].node].parent.value;
    assert StartCalledBefore(t, p, j);
    if p != a {
      var i :| 0 <= i < j && t.calls[i].StartItemCall? && t.calls[i].node == p;
      AncestorsStartCalledFirst(t, i, a);
    }
  }

  /** If the launch failed to start, nothing started and the service was never called. */
  lemma LaunchFailureSilencesService(t: Tree)
    requires Consistent(t)
    requires t.ops[LaunchStartTask].status.Failed?
    ensures t.calls == []
    ensures forall n :: 0 <= n < |t.reporters| ==> t.reporters[n].testInfo.None?
  {
    forall n | 0 <= n < |t.reporters|
      ensures t.reporters[n].testInfo.None?
    {
      if t.reporters[n].testInfo.Some? {
        StartedAfterLaunch(t, n);
      }
    }
    CallsNeedLaunch(t);
  }

  /** Every service call is made on behalf of a started launch. */
  lemma CallsNeedLaunch(t: Tree)
    requires Consistent(t)
    ensures t.calls != [] ==> t.launch.Some?
  {
    if t.calls != [] {
      var c := t.calls[0];
      assert CallJustified(t, c);
      if !c.StartItemCall? {
        StartedAfterLaunch(t, c.node);
      }
    }
  }

  /**
   * A finish call is sent only for an item whose start succeeded and was sent
   * first, and its end time is not before the start of the item, of any
   * ancestor, or of the launch.
   */
  lemma FinishCallAfterSuccessfulStart(t: Tree, j: nat, a: nat)
    requires Consistent(t)
    requires j < |t.calls| && t.calls[j].FinishItemCall?
    ensures StartSucceeded(t, t.calls[j].node)
    ensures StartCalledBefore(t, t.calls[j].node, j)
    ensures t.launch.Some? && t.launch.value.startTime <= t.calls[j].endTime
    ensures IsAncestor(t.reporters, a, t.calls[j].node) ==>
      a < |t.reporters| && t.reporters[a].testInfo.Some? && t.reporters[a].testInfo.value.startTime <= t.calls[j].endTime
  {
    var n := t.calls[j].node;
    assert CallJustified(t, t.calls[j]);
    assert ReporterShape(t, n);
    StartedAfterLaunch(t, n);
    if IsAncestor(t.reporters, a, n) {
      StartedAfterAncestors(t, a, n);
    }
  }

  /** A fired log or finish fired after every side-channel task its node had registered before it. */
  lemma SettledAfterEarlierSideTasks(t: Tree, k: nat, j: nat)
    requires Consistent(t)
    requires 0 < k < |t.ops| && (t.ops[k].kind.ItemLog? || t.ops[k].kind.ItemFinish?)
    requires t.ops[k].status != Pending
    requires 0 < j < k && SideTaskOf(t, j, t.ops[k].kind.node)
    ensures t.ops[j].status != Pending
  {
    assert OpShape(t, k);
    var i :| 0 <= i < |t.ops[k].deps| && t.ops[k].deps[i] == j;
  }

  /** Changing the outcome of a side-channel task does not change a finish's checks. */
  lemma SideChannelFailureContained(t: Tree, k: nat, s: OpStatus, n: nat)
    requires Consistent(t)
    requires 0 < k < |t.ops| && t.ops[k].kind.IsSideChannel()
    requires n < |t.reporters|
    ensures FinishVerdict(t.ops[k := t.ops[k].(status := s)], t.reporters, n) == FinishVerdict(t.ops, t.reporters, n)
  {
    var ops' := t.ops[k := t.ops[k].(status := s)];
    var cs := Registry(t.reporters[n].childTestReporters);
    assert ReporterShape(t, n);
    forall i | 0 <= i < |cs|
      ensures FinishSucceeded(ops', t.reporters, cs[i]) == FinishSucceeded(t.ops, t.reporters, cs[i])
    {
      assert ReporterShape(t, cs[i]);
    }
  }

  /** Changing the outcome of a side-channel task does not change whether a start sees a failed dependency. */
  lemma SideChannelNeverBlocksStart(t: Tree, k: nat, s: OpStatus, n: nat)
    requires Consistent(t)
    requires 0 < k < |t.ops| && t.ops[k].kind.IsSideChannel()
    requires n < |t.reporters| && t.reporters[n].startTask.Some? && t.reporters[n].startTask.value < |t.ops|
    ensures var deps := t.ops[t.reporters[n].startTask.value].deps;
      DependencyFailed(t.ops[k := t.ops[k].(status := s)], deps) == DependencyFailed(t.ops, deps)
  {
    var st := t.reporters[n].startTask.value;
    assert ReporterShape(t, n);
    assert OpShape(t, st);
    var r := t.reporters[n];
    if r.parent.Some? {
      assert ReporterShape(t, r.parent.value);
    }
  }
}
