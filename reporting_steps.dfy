/**
 * Each state transition of the reporting tree preserves `Consistent`. The
 * transitions are written out on `Tree` values; the methods of
 * `ReportingTree` perform them field by field and rely on these lemmas.
 * Every preservation proof is split by component of the invariant.
 */
module ReportingSteps {
  import opened ReportingTypes
  import opened ReportingInvariants

  /** Node `m` looks the same to the timing and journal invariants in `t` and `t'`. */
  ghost predicate NodeAgrees(t: Tree, t': Tree, m: nat)
    requires m < |t.reporters| <= |t'.reporters|
  {
    && t'.reporters[m].parent == t.reporters[m].parent
    && t'.reporters[m].testInfo == t.reporters[m].testInfo
    && StartResolved(t', m) == StartResolved(t, m)
    && StartSucceeded(t', m) == StartSucceeded(t, m)
    && FinishResolved(t', m) == FinishResolved(t, m)
    && FinishSucceeded(t'.ops, t'.reporters, m) == FinishSucceeded(t.ops, t.reporters, m)
  }

  /**
   * `t'` only adds pending operations and unstarted nodes to `t`, and changes
   * nothing the timing and journal invariants read.
   */
  ghost predicate ObservablyUnchanged(t: Tree, t': Tree) {
    && t'.calls == t.calls
    && t'.launch == t.launch
    && |t.ops| <= |t'.ops|
    && (forall k :: 0 <= k < |t.ops| ==> t'.ops[k] == t.ops[k])
    && (forall k :: |t.ops| <= k < |t'.ops| ==> t'.ops[k].status == Pending)
    && |t.reporters| <= |t'.reporters|
    && (forall m :: 0 <= m < |t.reporters| ==> NodeAgrees(t, t', m))
    && (forall m :: |t.reporters| <= m < |t'.reporters| ==>
          t'.reporters[m].testInfo.None? && !StartSucceeded(t', m) && !FinishSucceeded(t'.ops, t'.reporters, m))
  }

  /** Everything but `Shape` carries over to an observably unchanged tree. */
  lemma FramePreserves(t: Tree, t': Tree)
    requires Consistent(t) && Shape(t') && ObservablyUnchanged(t, t')
    ensures Consistent(t')
  {
    FrameStatuses(t, t');
    FrameClamped(t, t');
    FrameJustified(t, t');
    FrameRecorded(t, t');
    FrameOrder(t, t');
  }

  lemma FrameStatuses(t: Tree, t': Tree)
    requires Shape(t) && ResolutionOrdered(t) && SuccessPropagates(t) && Shape(t') && ObservablyUnchanged(t, t')
    ensures ResolutionOrdered(t') && SuccessPropagates(t')
  {
    forall k, i | 0 <= k < |t'.ops| && 0 <= i < |t'.ops[k].deps| && t'.ops[k].status != Pending && t'.ops[k].deps[i] < |t'.ops|
      ensures t'.ops[t'.ops[k].deps[i]].status != Pending
    {
      assert k < |t.ops| && t'.ops[k] == t.ops[k];
      assert k > 0 ==> OpShape(t, k);
    }
    forall k, i | 0 <= k < |t'.ops| && t'.ops[k].kind.ItemStart? && t'.ops[k].status == Succeeded &&
          0 <= i < |t'.ops[k].deps| && t'.ops[k].deps[i] < |t'.ops|
      ensures t'.ops[t'.ops[k].deps[i]].status == Succeeded
    {
      assert k < |t.ops| && t'.ops[k] == t.ops[k];
      assert k > 0 ==> OpShape(t, k);
    }
    forall k | 0 <= k < |t.ops| && t'.ops[k].kind.ItemFinish? && t'.ops[k].status == Succeeded
      ensures StartSucceeded(t', t'.ops[k].kind.node)
    {
      assert k > 0;
      assert OpShape(t, k);
      assert NodeAgrees(t, t', t.ops[k].kind.node);
    }
  }

  lemma FrameClamped(t: Tree, t': Tree)
    requires Clamped(t) && ObservablyUnchanged(t, t')
    ensures Clamped(t')
  {
    forall n | 0 <= n < |t'.reporters| && t'.reporters[n].testInfo.Some? ensures StartAnchored(t', n) {
      assert NodeAgrees(t, t', n);
      assert StartAnchored(t, n);
      if t.reporters[n].parent.Some? {
        assert NodeAgrees(t, t', t.reporters[n].parent.value);
      }
    }
  }

  lemma FrameJustified(t: Tree, t': Tree)
    requires CallsJustified(t) && ObservablyUnchanged(t, t')
    ensures CallsJustified(t')
  {
    forall i | 0 <= i < |t'.calls| ensures CallJustified(t', t'.calls[i]) {
      var c := t.calls[i];
      assert CallJustified(t, c);
      assert NodeAgrees(t, t', c.node);
      var r := t.reporters[c.node];
      if c.StartItemCall? && r.parent.Some? {
        assert NodeAgrees(t, t', r.parent.value);
      }
      if c.FinishItemCall? {
        forall m | 0 <= m < |c.checkedChildren|
          ensures FinishSucceeded(t'.ops, t'.reporters, c.checkedChildren[m])
          ensures t'.reporters[c.checkedChildren[m]].parent == Some(c.node)
        {
          assert NodeAgrees(t, t', c.checkedChildren[m]);
        }
      }
    }
  }

  lemma FrameRecorded(t: Tree, t': Tree)
    requires CallsRecorded(t) && ObservablyUnchanged(t, t')
    ensures CallsRecorded(t')
  {
    forall n | 0 <= n < |t'.reporters| && StartSucceeded(t', n) ensures StartCalledBefore(t', n, |t'.calls|) {
      assert NodeAgrees(t, t', n);
    }
    forall n | 0 <= n < |t'.reporters| && FinishSucceeded(t'.ops, t'.reporters, n)
      ensures FinishCalledBefore(t', n, |t'.calls|)
    {
      assert NodeAgrees(t, t', n);
    }
  }

  lemma FrameOrder(t: Tree, t': Tree)
    requires CallsJustified(t) && CallOrder(t) && ObservablyUnchanged(t, t')
    ensures CallOrder(t')
  {
    forall j | 0 <= j < |t'.calls| && t'.calls[j].StartItemCall? && t'.calls[j].node < |t'.reporters| &&
          t'.reporters[t'.calls[j].node].parent.Some?
      ensures StartCalledBefore(t', t'.reporters[t'.calls[j].node].parent.value, j)
    {
      assert CallJustified(t, t.calls[j]);
      assert NodeAgrees(t, t', t.calls[j].node);
    }
  }

  /** The tree after constructing a TestReporter under `parent`. */
  function WithNewReporter(t: Tree, parent: Option<nat>): Tree {
    t.(reporters := t.reporters + [NewReporter(parent)])
  }

  /** Constructing a TestReporter (a new record, nothing scheduled) keeps the tree consistent. */
  lemma NewReporterPreserves(t: Tree, parent: Option<nat>)
    requires Consistent(t)
    requires parent.Some? ==> parent.value < |t.reporters|
    ensures Consistent(WithNewReporter(t, parent))
  {
    var t' := WithNewReporter(t, parent);
    NewReporterShape(t, parent);
    forall m | 0 <= m < |t.reporters| ensures NodeAgrees(t, t', m) {}
    FramePreserves(t, t');
  }

  lemma NewReporterShape(t: Tree, parent: Option<nat>)
    requires Shape(t)
    requires parent.Some? ==> parent.value < |t.reporters|
    ensures Shape(WithNewReporter(t, parent))
  {
    var t' := WithNewReporter(t, parent);
    forall k | 0 < k < |t'.ops| ensures OpShape(t', k) {
      assert OpShape(t, k);
    }
    forall n | 0 <= n < |t'.reporters| ensures ReporterShape(t', n) {
      if n < |t.reporters| { assert ReporterShape(t, n); }
    }
  }

  /** `t'` keeps the kind and dependencies of every operation of `t`; statuses may change and new operations may follow. */
  ghost predicate OpsKept(t: Tree, t': Tree) {
    && |t.ops| <= |t'.ops|
    && forall j :: 0 <= j < |t.ops| ==> t'.ops[j].kind == t.ops[j].kind && t'.ops[j].deps == t.ops[j].deps
  }

  /**
   * The shape of an operation survives a transition that keeps the operation
   * table's kinds and dependencies, the records its node and its node's parent
   * point through, and the node's registration of it while the finish is open.
   */
  lemma OpShapeKept(t: Tree, t': Tree, k: nat)
    requires 0 < k < |t.ops| && OpShape(t, k) && OpsKept(t, t')
    requires t.ops[k].kind.node < |t'.reporters|
    requires var m := t.ops[k].kind.node;
      && t'.reporters[m].parent == t.reporters[m].parent
      && t'.reporters[m].startTask == t.reporters[m].startTask
      && (t.reporters[m].finishTask.Some? ==> t'.reporters[m].finishTask == t.reporters[m].finishTask)
      && (t.ops[k].kind.ItemStart? && t.reporters[m].parent.Some? ==>
            t.reporters[m].parent.value < |t'.reporters| &&
            t'.reporters[t.reporters[m].parent.value].startTask == t.reporters[t.reporters[m].parent.value].startTask)
      && (t.ops[k].kind.IsSideChannel() && FinishOpen(t'.ops, t'.reporters[m]) ==>
            FinishOpen(t.ops, t.reporters[m]) && t'.reporters[m].additionalTasks.Some? &&
            (t.reporters[m].additionalTasks.Some? ==> k in t.reporters[m].additionalTasks.value ==> k in t'.reporters[m].additionalTasks.value))
    ensures OpShape(t', k)
  {
    var m := t.ops[k].kind.node;
    assert forall j :: 0 < j < k ==> SideTaskOf(t', j, m) == SideTaskOf(t, j, m);
  }

  /** The tree after `Start` schedules the start of `n`. */
  function WithStart(t: Tree, n: nat, request: StartRequest): Tree
    requires n < |t.reporters|
  {
    t.(ops := t.ops + [Operation(ItemStart(n, request), StartDependencies(ParentStartTask(t.reporters, n)), Pending)],
       reporters := t.reporters[n := t.reporters[n].(startTask := Some(|t.ops|))])
  }

  /** Scheduling the start of an unstarted node whose parent's start is scheduled keeps the tree consistent. */
  lemma StartPreserves(t: Tree, n: nat, request: StartRequest)
    requires Consistent(t) && n < |t.reporters|
    requires t.reporters[n].startTask.None? && !ParentStartMissing(t.reporters, n)
    ensures Consistent(WithStart(t, n, request))
  {
    var t' := WithStart(t, n, request);
    StartShape(t, n, request);
    forall m | 0 <= m < |t.reporters| ensures NodeAgrees(t, t', m) {
      assert ReporterShape(t, m);
    }
    FramePreserves(t, t');
  }

  lemma StartShape(t: Tree, n: nat, request: StartRequest)
    requires Shape(t) && n < |t.reporters|
    requires t.reporters[n].startTask.None? && !ParentStartMissing(t.reporters, n)
    ensures Shape(WithStart(t, n, request))
  {
    var t' := WithStart(t, n, request);
    forall k | 0 < k < |t.ops| ensures OpShape(t', k) {
      StartKeepsOp(t, n, request, k);
    }
    StartNewOp(t, n, request);
    forall m | 0 <= m < |t'.reporters| ensures ReporterShape(t', m) {
      assert ReporterShape(t, m);
    }
  }

  lemma StartKeepsOp(t: Tree, n: nat, request: StartRequest, k: nat)
    requires Shape(t) && n < |t.reporters| && 0 < k < |t.ops|
    requires t.reporters[n].startTask.None?
    ensures OpShape(WithStart(t, n, request), k)
  {
    assert OpShape(t, k);
    var m := t.ops[k].kind.node;
    assert ReporterShape(t, m);
    if t.ops[k].kind.ItemStart? && t.reporters[m].parent.Some? {
      assert t.reporters[m].parent.value != n;
    }
    OpShapeKept(t, WithStart(t, n, request), k);
  }

  lemma StartNewOp(t: Tree, n: nat, request: StartRequest)
    requires Shape(t) && n < |t.reporters|
    requires t.reporters[n].startTask.None? && !ParentStartMissing(t.reporters, n)
    ensures OpShape(WithStart(t, n, request), |t.ops|)
  {
    assert ReporterShape(t, n);
    var p := t.reporters[n].parent;
    if p.Some? {
      assert ReporterShape(t, p.value);
    }
  }

  /** While the launch's start is pending, no operation has fired: each waits, through its node's start, on it. */
  lemma {:induction false} WaitsOnLaunch(t: Tree, k: nat)
    requires Shape(t) && ResolutionOrdered(t) && t.ops[0].status == Pending
    requires k < |t.ops|
    ensures t.ops[k].status == Pending
    decreases k
  {
    if k > 0 {
      assert OpShape(t, k);
      var d := t.ops[k].deps[0];
      WaitsOnLaunch(t, d);
    }
  }

  /** While the launch's start is pending nothing has started and the service has not been called. */
  lemma LaunchPendingQuiet(t: Tree)
    requires Consistent(t) && t.ops[0].status == Pending
    ensures forall k :: 0 <= k < |t.ops| ==> t.ops[k].status == Pending
    ensures forall n :: 0 <= n < |t.reporters| ==> t.reporters[n].testInfo.None? && !StartResolved(t, n)
    ensures t.calls == []
  {
    forall k | 0 <= k < |t.ops| ensures t.ops[k].status == Pending {
      WaitsOnLaunch(t, k);
    }
    forall n | 0 <= n < |t.reporters| ensures t.reporters[n].testInfo.None? && !StartResolved(t, n) {
      assert ReporterShape(t, n);
    }
    CallsNeedLaunch(t);
  }

  /** The tree after the launch's start resolves with `info`. */
  function WithLaunch(t: Tree, info: Option<LaunchInfo>): Tree
    requires |t.ops| >= 1
  {
    t.(ops := t.ops[LaunchStartTask := t.ops[LaunchStartTask].(status := if info.Some? then Succeeded else Failed(TransportRejected))],
       launch := info)
  }

  /** Resolving the launch's start keeps the tree consistent. */
  lemma LaunchPreserves(t: Tree, info: Option<LaunchInfo>)
    requires Consistent(t) && t.ops[LaunchStartTask].status == Pending
    ensures Consistent(WithLaunch(t, info))
  {
    var t' := WithLaunch(t, info);
    LaunchPendingQuiet(t);
    forall k | 0 < k < |t.ops| ensures OpShape(t', k) {
      assert OpShape(t, k);
      assert ReporterShape(t, t.ops[k].kind.node);
      OpShapeKept(t, t', k);
    }
    forall n | 0 <= n < |t'.reporters|
      ensures ReporterShape(t', n) && !StartSucceeded(t', n) && !FinishSucceeded(t'.ops, t'.reporters, n)
    {
      assert ReporterShape(t, n);
    }
  }

  /** The tree after `Finish` schedules the finish of `n` with dependencies `deps`. */
  function WithFinish(t: Tree, n: nat, request: FinishRequest, deps: seq<nat>): Tree
    requires n < |t.reporters|
  {
    t.(ops := t.ops + [Operation(ItemFinish(n, request), deps, Pending)],
       reporters := t.reporters[n := t.reporters[n].(finishTask := Some(|t.ops|))])
  }

  /** What `Finish` may schedule on node `n`: its start is scheduled, its finish is not, every child's finish is. */
  ghost predicate FinishSchedulable(t: Tree, n: nat, deps: seq<nat>) {
    && n < |t.reporters|
    && t.reporters[n].startTask.Some?
    && t.reporters[n].finishTask.None?
    && ChildFinishTasks(t.reporters, Registry(t.reporters[n].childTestReporters)).Some?
    && deps == FinishDependencies(t.reporters[n].startTask.value, Registry(t.reporters[n].additionalTasks),
                 ChildFinishTasks(t.reporters, Registry(t.reporters[n].childTestReporters)).value)
  }

  /** Scheduling the finish of a started node keeps the tree consistent. */
  lemma FinishPreserves(t: Tree, n: nat, request: FinishRequest, deps: seq<nat>)
    requires Consistent(t) && FinishSchedulable(t, n, deps)
    ensures Consistent(WithFinish(t, n, request, deps))
  {
    var t' := WithFinish(t, n, request, deps);
    FinishShape(t, n, request, deps);
    forall m | 0 <= m < |t.reporters| ensures NodeAgrees(t, t', m) {
      assert ReporterShape(t, m);
    }
    FramePreserves(t, t');
  }

  lemma FinishShape(t: Tree, n: nat, request: FinishRequest, deps: seq<nat>)
    requires Shape(t) && FinishSchedulable(t, n, deps)
    ensures Shape(WithFinish(t, n, request, deps))
  {
    var t' := WithFinish(t, n, request, deps);
    forall k | 0 < k < |t.ops| ensures OpShape(t', k) {
      FinishKeepsOp(t, n, request, deps, k);
    }
    FinishNewOp(t, n, request, deps);
    forall m | 0 <= m < |t'.reporters| ensures ReporterShape(t', m) {
      assert ReporterShape(t, m);
    }
  }

  lemma FinishKeepsOp(t: Tree, n: nat, request: FinishRequest, deps: seq<nat>, k: nat)
    requires Shape(t) && FinishSchedulable(t, n, deps) && 0 < k < |t.ops|
    ensures OpShape(WithFinish(t, n, request, deps), k)
  {
    assert OpShape(t, k);
    assert ReporterShape(t, t.ops[k].kind.node);
    OpShapeKept(t, WithFinish(t, n, request, deps), k);
  }

  lemma FinishNewOp(t: Tree, n: nat, request: FinishRequest, deps: seq<nat>)
    requires Shape(t) && FinishSchedulable(t, n, deps)
    ensures OpShape(WithFinish(t, n, request, deps), |t.ops|)
  {
    var t' := WithFinish(t, n, request, deps);
    var K := |t.ops|;
    var r := t.reporters[n];
    var cs := Registry(r.childTestReporters);
    var cf := ChildFinishTasks(t.reporters, cs).value;
    var side := Registry(r.additionalTasks);
    assert ReporterShape(t, n);
    forall i | 0 <= i < |deps| ensures deps[i] < K {
      var d := deps[i];
      assert d in deps;
      if d in side {
        var j :| 0 <= j < |side| && side[j] == d;
      } else if d in cf {
        var j :| 0 <= j < |cf| && cf[j] == d;
        assert ReporterShape(t, cs[j]);
      }
    }
    forall j | 0 < j < K && SideTaskOf(t', j, n) ensures j in deps {
      assert OpShape(t, j);
    }
  }

  /** The tree after `n`'s side-channel registry is allocated, if it was not. */
  function WithBag(t: Tree, n: nat): Tree
    requires n < |t.reporters|
  {
    t.(reporters := t.reporters[n := t.reporters[n].(additionalTasks := Some(Registry(t.reporters[n].additionalTasks)))])
  }

  /** Allocating an empty side-channel registry keeps the tree consistent. */
  lemma BagPreserves(t: Tree, n: nat)
    requires Consistent(t) && n < |t.reporters|
    ensures Consistent(WithBag(t, n))
  {
    BagShape(t, n);
    FramePreserves(t, WithBag(t, n));
  }

  lemma BagShape(t: Tree, n: nat)
    requires Shape(t) && n < |t.reporters|
    ensures Shape(WithBag(t, n))
  {
    var t' := WithBag(t, n);
    forall k | 0 < k < |t.ops| ensures OpShape(t', k) {
      assert OpShape(t, k);
      assert ReporterShape(t, t.ops[k].kind.node);
      OpShapeKept(t, t', k);
    }
    forall m | 0 <= m < |t'.reporters| ensures ReporterShape(t', m) {
      assert ReporterShape(t, m);
    }
  }

  /** The tree after task `op` is scheduled for node `n` and added to its side-channel registry. */
  function WithSideTask(t: Tree, n: nat, op: Operation): Tree
    requires n < |t.reporters|
  {
    t.(ops := t.ops + [op],
       reporters := t.reporters[n := t.reporters[n].(additionalTasks := Some(Registry(t.reporters[n].additionalTasks) + [|t.ops|]))])
  }

  /**
   * What `Update` and `Log` may schedule while the finish of `n` is open: an
   * update waits on the start alone, a log on the start and every registered
   * side-channel task.
   */
  ghost predicate SideTaskSchedulable(t: Tree, n: nat, op: Operation) {
    && n < |t.reporters|
    && t.reporters[n].startTask.Some?
    && FinishOpen(t.ops, t.reporters[n])
    && op.kind.IsSideChannel() && op.kind.node == n && op.status == Pending
    && (op.kind.ItemUpdate? ==> op.deps == [t.reporters[n].startTask.value])
    && (op.kind.ItemLog? ==> op.deps == [t.reporters[n].startTask.value] + Registry(t.reporters[n].additionalTasks))
  }

  /** Registering an update or a log keeps the tree consistent. */
  lemma SideTaskPreserves(t: Tree, n: nat, op: Operation)
    requires Consistent(t) && SideTaskSchedulable(t, n, op)
    ensures Consistent(WithSideTask(t, n, op))
  {
    var t' := WithSideTask(t, n, op);
    SideTaskShape(t, n, op);
    forall m | 0 <= m < |t.reporters| ensures NodeAgrees(t, t', m) {
      assert ReporterShape(t, m);
    }
    FramePreserves(t, t');
  }

  lemma SideTaskShape(t: Tree, n: nat, op: Operation)
    requires Shape(t) && SideTaskSchedulable(t, n, op)
    ensures Shape(WithSideTask(t, n, op))
  {
    var t' := WithSideTask(t, n, op);
    forall k | 0 < k < |t.ops| ensures OpShape(t', k) {
      SideTaskKeepsOp(t, n, op, k);
    }
    SideTaskNewOp(t, n, op);
    forall m | 0 <= m < |t'.reporters| ensures ReporterShape(t', m) {
      assert ReporterShape(t, m);
    }
  }

  lemma SideTaskKeepsOp(t: Tree, n: nat, op: Operation, k: nat)
    requires Shape(t) && SideTaskSchedulable(t, n, op) && 0 < k < |t.ops|
    ensures OpShape(WithSideTask(t, n, op), k)
  {
    assert OpShape(t, k);
    assert ReporterShape(t, t.ops[k].kind.node);
    OpShapeKept(t, WithSideTask(t, n, op), k);
  }

  lemma SideTaskNewOp(t: Tree, n: nat, op: Operation)
    requires Shape(t) && SideTaskSchedulable(t, n, op)
    ensures OpShape(WithSideTask(t, n, op), |t.ops|)
  {
    var t' := WithSideTask(t, n, op);
    var K := |t.ops|;
    assert ReporterShape(t, n);
    if op.kind.ItemLog? {
      forall j | 0 < j < K && SideTaskOf(t', j, n) ensures j in op.deps {
        assert OpShape(t, j);
        assert j in Registry(t.reporters[n].additionalTasks);
      }
    }
  }

  /** The tree after node `c` is added to the child registry of `n`. */
  function WithChild(t: Tree, n: nat, c: nat): Tree
    requires n < |t.reporters|
  {
    t.(reporters := t.reporters[n := t.reporters[n].(childTestReporters := Some(Registry(t.reporters[n].childTestReporters) + [c]))])
  }

  /** Registering a child of `n` keeps the tree consistent. */
  lemma ChildPreserves(t: Tree, n: nat, c: nat)
    requires Consistent(t) && n < |t.reporters| && c < |t.reporters| && t.reporters[c].parent == Some(n)
    ensures Consistent(WithChild(t, n, c))
  {
    ChildShape(t, n, c);
    FramePreserves(t, WithChild(t, n, c));
  }

  lemma ChildShape(t: Tree, n: nat, c: nat)
    requires Shape(t) && n < |t.reporters| && c < |t.reporters| && t.reporters[c].parent == Some(n)
    ensures Shape(WithChild(t, n, c))
  {
    var t' := WithChild(t, n, c);
    forall k | 0 < k < |t.ops| ensures OpShape(t', k) {
      assert OpShape(t, k);
      assert ReporterShape(t, t.ops[k].kind.node);
      OpShapeKept(t, t', k);
    }
    forall m | 0 <= m < |t'.reporters| ensures ReporterShape(t', m) {
      assert ReporterShape(t, m);
    }
  }

  /** `StartChildTestReporter` on `n`: a new node under `n` has its start scheduled. */
  lemma ChildStartPreserves(t: Tree, n: nat, request: StartRequest)
    requires Consistent(t) && n < |t.reporters| && t.reporters[n].startTask.Some?
    ensures var c := |t.reporters|;
      Consistent(t.(ops := t.ops + [Operation(ItemStart(c, request), [LaunchStartTask, t.reporters[n].startTask.value], Pending)],
                    reporters := t.reporters + [NewReporter(Some(n)).(startTask := Some(|t.ops|))]))
  {
    var t1 := WithNewReporter(t, Some(n));
    var c := |t.reporters|;
    NewReporterPreserves(t, Some(n));
    StartPreserves(t1, c, request);
    assert ParentStartTask(t1.reporters, c) == t.reporters[n].startTask;
    assert StartDependencies(t.reporters[n].startTask) == [LaunchStartTask, t.reporters[n].startTask.value];
    assert t1.reporters[c := t1.reporters[c].(startTask := Some(|t.ops|))] == t.reporters + [NewReporter(Some(n)).(startTask := Some(|t.ops|))];
    assert WithStart(t1, c, request) == t.(ops := t.ops + [Operation(ItemStart(c, request), [LaunchStartTask, t.reporters[n].startTask.value], Pending)],
                    reporters := t.reporters + [NewReporter(Some(n)).(startTask := Some(|t.ops|))]);
  }
}
